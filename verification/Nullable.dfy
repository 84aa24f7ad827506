/** Nil-check narrowing (internal/compiler/nullable_flow.go) over the statements
    of one Go function, and the meaning of those statements. The pass decides
    which dereferences need no further check; `checked` marks them. A statement
    header's initializer is the statement before it in the same block. */
module Nullable {
  import opened Options

  type Obj = nat    // one number per declared variable
  type Val = int    // 0 is nil and false
  type Name = string

  datatype Expr =
    | NilLit
    | Var(x: Obj)
    | Paren(e: Expr)
    | Not(e: Expr)
    | And(l: Expr, r: Expr)
    | Or(l: Expr, r: Expr)
    | Equal(l: Expr, r: Expr, negated: bool)
    | Choice(cond: Expr, thn: Expr, els: Expr)    // a ternary, lowered to a call of its own function literal
    | Op(id: int, args: Exprs)                    // calls, literals, other operators
    | Deref(e: Expr, checked: bool)               // *e, e.f, e[i], e[i:j]
    | Wanted(e: Expr)                             // an argument, result or value whose type must not be nil
    | Address(e: Expr)
    | Closure(id: int, captured: set<Obj>)

  datatype Exprs = NoExprs | More(head: Expr, tail: Exprs)

  datatype Stmt =
    | Do(e: Expr)
    | Assign(lhs: Exprs, rhs: Exprs)              // = and :=
    | Declare(names: seq<Obj>, rhs: Exprs)        // var
    | Return(es: Exprs)
    | Throw(e: Expr)
    | Break(to: Name)
    | Continue(to: Name)
    | Fallthrough
    | Scope(body: Block)
    | If(cond: Expr, thn: Block, els: Else)
    | For(test: Option<Expr>, post: Block, body: Block)
    | Range(targets: Exprs, over: Expr, body: Block)
    | Switch(tag: Option<Expr>, clauses: Clauses)
    | Labeled(lab: Name, stmt: Stmt)

  datatype Else = NoElse | ElseDo(body: Block) | ElseIf(stmt: Stmt)

  datatype Block = Nil | Cons(head: Stmt, tail: Block)

  datatype Clauses = NoClauses | Clause(isDefault: bool, guards: Exprs, body: Block, rest: Clauses)

  // ----- the analysis -----

  /** What a condition tells once its value is known. `t` holds the variables the
      pass may reason about: optional, local, neither captured nor addressed. */
  function Assume(t: set<Obj>, e: Expr, truth: bool, proof: set<Obj>): set<Obj>
    decreases e
  {
    match e
    case Paren(i) => Assume(t, i, truth, proof)
    case Not(i) => Assume(t, i, !truth, proof)
    case And(l, r) => if truth then Assume(t, r, true, Assume(t, l, true, proof)) else proof
    case Or(l, r) => if truth then proof else Assume(t, r, false, Assume(t, l, false, proof))
    case Equal(l, r, negated) =>
      var candidate := if l.NilLit? then r else l;
      var other := if l.NilLit? then l else r;
      if !(other.NilLit? && candidate.Var? && candidate.x in t) then proof
      else if truth == negated then proof + {candidate.x}
      else proof - {candidate.x}
    case _ => proof
  }

  function AssumeAll(t: set<Obj>, e: Option<Expr>, truth: bool, proof: set<Obj>): set<Obj> {
    if e.Some? then Assume(t, e.value, truth, proof) else proof
  }

  function NarrowExpr(t: set<Obj>, e: Expr, proof: set<Obj>): Expr
    decreases e
  {
    match e
    case Paren(i) => Paren(NarrowExpr(t, i, proof))
    case Not(i) => Not(NarrowExpr(t, i, proof))
    case And(l, r) =>
      var left := NarrowExpr(t, l, proof);
      And(left, NarrowExpr(t, r, Assume(t, left, true, proof)))
    case Or(l, r) =>
      var left := NarrowExpr(t, l, proof);
      Or(left, NarrowExpr(t, r, Assume(t, left, false, proof)))
    case Equal(l, r, negated) => Equal(NarrowExpr(t, l, proof), NarrowExpr(t, r, proof), negated)
    case Choice(c, a, b) =>
      var cond := NarrowExpr(t, c, proof);
      Choice(cond, NarrowExpr(t, a, Assume(t, cond, true, proof)), NarrowExpr(t, b, Assume(t, cond, false, proof)))
    case Op(id, args) => Op(id, NarrowExprs(t, args, proof))
    case Deref(i, checked) => Deref(NarrowExpr(t, i, proof), checked || (i.Var? && i.x in proof))
    case Wanted(i) =>
      if i.Var? && i.x in proof then Deref(i, true) else Wanted(NarrowExpr(t, i, proof))
    case Address(i) => Address(NarrowExpr(t, i, proof))
    case _ => e
  }

  function NarrowExprs(t: set<Obj>, es: Exprs, proof: set<Obj>): Exprs
    decreases es
  {
    match es
    case NoExprs => NoExprs
    case More(h, rest) => More(NarrowExpr(t, h, proof), NarrowExprs(t, rest, proof))
  }

  /** The variable an assignment target names; a parenthesized name is not seen. */
  function Named(e: Expr): set<Obj> {
    if e.Var? then {e.x} else {}
  }

  function AllNamed(es: Exprs): set<Obj> {
    if es.NoExprs? then {} else Named(es.head) + AllNamed(es.tail)
  }

  /** Targets from left to right, each forgotten after it has been visited. */
  function NarrowTargets(t: set<Obj>, lhs: Exprs, proof: set<Obj>): Exprs
    decreases lhs
  {
    match lhs
    case NoExprs => NoExprs
    case More(h, rest) => More(NarrowExpr(t, h, proof), NarrowTargets(t, rest, proof - Named(h)))
  }

  /** Every variable some assignment or range clause inside the statement names. */
  function Writes(s: Stmt): set<Obj>
    decreases s
  {
    match s
    case Assign(lhs, _) => AllNamed(lhs)
    case Scope(body) => BlockWrites(body)
    case If(_, thn, els) => BlockWrites(thn) + ElseWrites(els)
    case For(_, post, body) => BlockWrites(post) + BlockWrites(body)
    case Range(targets, _, body) => AllNamed(targets) + BlockWrites(body)
    case Switch(_, clauses) => ClausesWrites(clauses)
    case Labeled(_, inner) => Writes(inner)
    case _ => {}
  }

  function BlockWrites(b: Block): set<Obj>
    decreases b
  {
    match b
    case Nil => {}
    case Cons(h, rest) => Writes(h) + BlockWrites(rest)
  }

  function ElseWrites(e: Else): set<Obj>
    decreases e
  {
    match e
    case NoElse => {}
    case ElseDo(b) => BlockWrites(b)
    case ElseIf(s) => Writes(s)
  }

  function ClausesWrites(cs: Clauses): set<Obj>
    decreases cs
  {
    match cs
    case NoClauses => {}
    case Clause(_, _, body, rest) => BlockWrites(body) + ClausesWrites(rest)
  }

  predicate BlockTerminates(b: Block)
    decreases b
  {
    b.Cons? && (if b.tail.Nil? then Terminates(b.head) else BlockTerminates(b.tail))
  }

  predicate Terminates(s: Stmt)
    decreases s
  {
    match s
    case Return(_) => true
    case Throw(_) => true
    case Scope(body) => BlockTerminates(body)
    case If(_, thn, els) => BlockTerminates(thn) && ElseTerminates(els)
    case _ => false
  }

  predicate ElseTerminates(e: Else)
    decreases e
  {
    match e
    case NoElse => false
    case ElseDo(b) => BlockTerminates(b)
    case ElseIf(s) => Terminates(s)
  }

  predicate HasFall(s: Stmt)
    decreases s
  {
    match s
    case Fallthrough => true
    case Scope(body) => BlockHasFall(body)
    case If(_, thn, els) => BlockHasFall(thn) || ElseHasFall(els)
    case For(_, post, body) => BlockHasFall(post) || BlockHasFall(body)
    case Range(_, _, body) => BlockHasFall(body)
    case Switch(_, clauses) => ClausesHaveFall(clauses)
    case Labeled(_, inner) => HasFall(inner)
    case _ => false
  }

  predicate BlockHasFall(b: Block)
    decreases b
  {
    match b
    case Nil => false
    case Cons(h, rest) => HasFall(h) || BlockHasFall(rest)
  }

  predicate ElseHasFall(e: Else)
    decreases e
  {
    match e
    case NoElse => false
    case ElseDo(b) => BlockHasFall(b)
    case ElseIf(s) => HasFall(s)
  }

  predicate ClausesHaveFall(cs: Clauses)
    decreases cs
  {
    match cs
    case NoClauses => false
    case Clause(_, _, body, rest) => BlockHasFall(body) || ClausesHaveFall(rest)
  }

  datatype Narrowed = Narrowed(s: Stmt, proof: set<Obj>)
  datatype NarrowedBlock = NarrowedBlock(b: Block, proof: set<Obj>)
  datatype NarrowedElse = NarrowedElse(e: Else, proof: set<Obj>)

  function NarrowStmt(t: set<Obj>, s: Stmt, proof: set<Obj>): Narrowed
    decreases s, 1
  {
    match s
    case Do(e) => Narrowed(Do(NarrowExpr(t, e, proof)), proof)
    case Throw(e) => Narrowed(Throw(NarrowExpr(t, e, proof)), proof)
    case Assign(lhs, rhs) =>
      Narrowed(Assign(NarrowTargets(t, lhs, proof), NarrowExprs(t, rhs, proof)), proof - AllNamed(lhs))
    case Declare(names, rhs) => Narrowed(Declare(names, NarrowExprs(t, rhs, proof)), proof)
    case Return(es) => Narrowed(Return(NarrowExprs(t, es, proof)), proof)
    case Scope(body) =>
      var b := NarrowBlock(t, body, proof);
      Narrowed(Scope(b.b), b.proof)
    case If(_, _, _) => NarrowIf(t, s, proof)
    case For(_, _, _) => NarrowFor(t, s, proof)
    case Range(targets, over, body) =>
      var kept := proof - Writes(s);
      Narrowed(Range(targets, NarrowOver(t, over, proof), NarrowBlock(t, body, kept).b), kept)
    case Switch(_, _) => NarrowSwitch(t, s, proof)
    case Labeled(l, inner) =>
      var i := NarrowStmt(t, inner, {});
      Narrowed(Labeled(l, i.s), i.proof)
    case _ => Narrowed(s, proof)
  }

  /** A range clause over a nullable variable iterates over what it points to. */
  function NarrowOver(t: set<Obj>, over: Expr, proof: set<Obj>): Expr {
    if over.Var? && over.x in proof then Deref(over, true) else NarrowExpr(t, over, proof)
  }

  function NarrowIf(t: set<Obj>, s: Stmt, proof: set<Obj>): Narrowed
    requires s.If?
    decreases s, 0
  {
    var cond := NarrowExpr(t, s.cond, proof);
    var yes := NarrowBlock(t, s.thn, Assume(t, cond, true, proof));
    var no := NarrowElse(t, s.els, Assume(t, cond, false, proof));
    Narrowed(If(cond, yes.b, no.e),
             if BlockTerminates(s.thn) then no.proof
             else if s.els.ElseDo? && BlockTerminates(s.els.body) then yes.proof
             else yes.proof * no.proof)
  }

  function NarrowElse(t: set<Obj>, e: Else, proof: set<Obj>): NarrowedElse
    decreases e, 0
  {
    match e
    case NoElse => NarrowedElse(NoElse, proof)
    case ElseDo(body) =>
      var b := NarrowBlock(t, body, proof);
      NarrowedElse(ElseDo(b.b), b.proof)
    case ElseIf(s) =>
      var n := NarrowStmt(t, s, proof);
      NarrowedElse(ElseIf(n.s), n.proof)
  }

  /** The loop starts every turn from what it never writes; the post statement
      from what holds at the end of the body. */
  function NarrowFor(t: set<Obj>, s: Stmt, proof: set<Obj>): Narrowed
    requires s.For?
    decreases s, 0
  {
    var kept := proof - Writes(s);
    var cond := if s.test.Some? then Some(NarrowExpr(t, s.test.value, kept)) else None;
    var body := NarrowBlock(t, s.body, AssumeAll(t, cond, true, kept));
    Narrowed(For(cond, NarrowBlock(t, s.post, body.proof).b, body.b), kept)
  }

  /** Conditions of all clauses first, each learning from the failed ones before
      it, then the bodies. */
  function NarrowSwitch(t: set<Obj>, s: Stmt, proof: set<Obj>): Narrowed
    requires s.Switch?
    decreases s, 0
  {
    var tag := if s.tag.Some? then Some(NarrowExpr(t, s.tag.value, proof)) else None;
    var failed := AllFailed(t, s.tag.None?, s.clauses, proof);
    Narrowed(Switch(tag, NarrowClauses(t, s.tag.None?, s.clauses, proof, failed, false)), proof - Writes(s))
  }

  /** What holds when none of the guards matched. */
  function GuardsFailed(t: set<Obj>, tagless: bool, guards: Exprs, remaining: set<Obj>): set<Obj>
    decreases guards
  {
    match guards
    case NoExprs => remaining
    case More(h, rest) =>
      GuardsFailed(t, tagless, rest,
                   if tagless then Assume(t, NarrowExpr(t, h, remaining), false, remaining) else remaining)
  }

  function AllFailed(t: set<Obj>, tagless: bool, cs: Clauses, remaining: set<Obj>): set<Obj>
    decreases cs
  {
    match cs
    case NoClauses => remaining
    case Clause(isDefault, guards, _, rest) =>
      AllFailed(t, tagless, rest, if isDefault then remaining else GuardsFailed(t, tagless, guards, remaining))
  }

  function NarrowGuards(t: set<Obj>, tagless: bool, guards: Exprs, remaining: set<Obj>): Exprs
    decreases guards
  {
    match guards
    case NoExprs => NoExprs
    case More(h, rest) =>
      var guard := NarrowExpr(t, h, remaining);
      More(guard, NarrowGuards(t, tagless, rest, if tagless then Assume(t, guard, false, remaining) else remaining))
  }

  /** What holds when one of the guards matched. */
  function Matched(t: set<Obj>, tagless: bool, guards: Exprs, remaining: set<Obj>): set<Obj>
    requires guards.More?
    decreases guards
  {
    var guard := NarrowExpr(t, guards.head, remaining);
    var branch := if tagless then Assume(t, guard, true, remaining) else remaining;
    if guards.tail.NoExprs? then branch
    else branch * Matched(t, tagless, guards.tail, if tagless then Assume(t, guard, false, remaining) else remaining)
  }

  /** What holds when the clause's guards have been passed over. */
  function NextRemaining(t: set<Obj>, tagless: bool, cs: Clauses, rem: set<Obj>): set<Obj>
    requires cs.Clause?
  {
    if cs.isDefault then rem else GuardsFailed(t, tagless, cs.guards, rem)
  }

  /** A clause into which the one before may fall starts from nothing. */
  function Incoming(t: set<Obj>, tagless: bool, cs: Clauses, remaining: set<Obj>, failed: set<Obj>,
                    mayFall: bool): set<Obj>
    requires cs.Clause?
  {
    if mayFall then {}
    else if cs.isDefault then failed
    else if cs.guards.NoExprs? then {}
    else Matched(t, tagless, cs.guards, remaining)
  }

  function NarrowClauses(t: set<Obj>, tagless: bool, cs: Clauses, remaining: set<Obj>, failed: set<Obj>,
                         mayFall: bool): Clauses
    decreases cs, 0
  {
    match cs
    case NoClauses => NoClauses
    case Clause(isDefault, guards, body, rest) =>
      var incoming := Incoming(t, tagless, cs, remaining, failed, mayFall);
      Clause(isDefault, if isDefault then guards else NarrowGuards(t, tagless, guards, remaining),
             NarrowBlock(t, body, incoming).b,
             NarrowClauses(t, tagless, rest,
                           if isDefault then remaining else GuardsFailed(t, tagless, guards, remaining),
                           failed, BlockHasFall(body)))
  }

  function NarrowBlock(t: set<Obj>, b: Block, proof: set<Obj>): NarrowedBlock
    decreases b, 0
  {
    match b
    case Nil => NarrowedBlock(Nil, proof)
    case Cons(h, rest) =>
      var n := NarrowStmt(t, h, proof);
      var r := NarrowBlock(t, rest, n.proof);
      NarrowedBlock(Cons(n.s, r.b), r.proof)
  }

  // ----- unstable variables -----

  function Unstable(e: Expr): set<Obj>
    decreases e
  {
    match e
    case Paren(i) => Unstable(i)
    case Not(i) => Unstable(i)
    case And(l, r) => Unstable(l) + Unstable(r)
    case Or(l, r) => Unstable(l) + Unstable(r)
    case Equal(l, r, _) => Unstable(l) + Unstable(r)
    case Choice(c, a, b) => Unstable(c) + Unstable(a) + Unstable(b)
    case Op(_, args) => AllUnstable(args)
    case Deref(i, _) => Unstable(i)
    case Wanted(i) => Unstable(i)
    case Address(i) => Named(i) + Unstable(i)
    case Closure(_, captured) => captured
    case _ => {}
  }

  function AllUnstable(es: Exprs): set<Obj>
    decreases es
  {
    match es
    case NoExprs => {}
    case More(h, rest) => Unstable(h) + AllUnstable(rest)
  }

  function MaybeUnstable(e: Option<Expr>): set<Obj> {
    if e.Some? then Unstable(e.value) else {}
  }

  function StmtUnstable(s: Stmt): set<Obj>
    decreases s
  {
    match s
    case Do(e) => Unstable(e)
    case Assign(lhs, rhs) => AllUnstable(lhs) + AllUnstable(rhs)
    case Declare(_, rhs) => AllUnstable(rhs)
    case Return(es) => AllUnstable(es)
    case Throw(e) => Unstable(e)
    case Scope(body) => BlockUnstable(body)
    case If(cond, thn, els) => Unstable(cond) + BlockUnstable(thn) + ElseUnstable(els)
    case For(test, post, body) => MaybeUnstable(test) + BlockUnstable(post) + BlockUnstable(body)
    case Range(targets, over, body) => AllUnstable(targets) + Unstable(over) + BlockUnstable(body)
    case Switch(tag, clauses) => MaybeUnstable(tag) + ClausesUnstable(clauses)
    case Labeled(_, inner) => StmtUnstable(inner)
    case _ => {}
  }

  function BlockUnstable(b: Block): set<Obj>
    decreases b
  {
    match b
    case Nil => {}
    case Cons(h, rest) => StmtUnstable(h) + BlockUnstable(rest)
  }

  function ElseUnstable(e: Else): set<Obj>
    decreases e
  {
    match e
    case NoElse => {}
    case ElseDo(b) => BlockUnstable(b)
    case ElseIf(s) => StmtUnstable(s)
  }

  function ClausesUnstable(cs: Clauses): set<Obj>
    decreases cs
  {
    match cs
    case NoClauses => {}
    case Clause(_, guards, body, rest) => AllUnstable(guards) + BlockUnstable(body) + ClausesUnstable(rest)
  }

  /** A whole function; `locals` are its own variables, `optional` those of a
      nullable type. */
  function NarrowFunction(locals: set<Obj>, optional: set<Obj>, body: Block): Block {
    NarrowBlock(Tracked(locals, optional, body), body, {}).b
  }

  function Tracked(locals: set<Obj>, optional: set<Obj>, body: Block): set<Obj> {
    locals * optional - BlockUnstable(body)
  }
}
