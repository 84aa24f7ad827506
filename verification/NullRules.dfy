/** What Go guarantees about the statements of one function, and the conditions
    under which narrowing is sound. */
module NullRules {
  import opened Options
  import opened Nullable
  import opened NullMachine

  // ----- variables a statement mentions and declares -----

  function Vars(e: Expr): set<Obj>
    decreases e
  {
    match e
    case Var(x) => {x}
    case Paren(i) => Vars(i)
    case Not(i) => Vars(i)
    case And(l, r) => Vars(l) + Vars(r)
    case Or(l, r) => Vars(l) + Vars(r)
    case Equal(l, r, _) => Vars(l) + Vars(r)
    case Choice(c, a, b) => Vars(c) + Vars(a) + Vars(b)
    case Op(_, args) => AllVars(args)
    case Deref(i, _) => Vars(i)
    case Wanted(i) => Vars(i)
    case Address(i) => Vars(i)
    case _ => {}
  }

  function AllVars(es: Exprs): set<Obj>
    decreases es
  {
    match es
    case NoExprs => {}
    case More(h, rest) => Vars(h) + AllVars(rest)
  }

  function TestVars(e: Option<Expr>): set<Obj> {
    if e.Some? then Vars(e.value) else {}
  }

  /** Variables mentioned by the conditions and expressions of a statement. */
  function Uses(s: Stmt): set<Obj>
    decreases s
  {
    match s
    case Scope(body) => BlockUses(body)
    case If(cond, thn, els) => Vars(cond) + BlockUses(thn) + ElseUses(els)
    case For(test, post, body) => TestVars(test) + BlockUses(post) + BlockUses(body)
    case Range(_, _, body) => BlockUses(body)
    case Switch(_, clauses) => ClausesUses(clauses)
    case Labeled(_, inner) => Uses(inner)
    case _ => {}
  }

  function BlockUses(b: Block): set<Obj>
    decreases b
  {
    match b
    case Nil => {}
    case Cons(h, rest) => Uses(h) + BlockUses(rest)
  }

  function ElseUses(e: Else): set<Obj>
    decreases e
  {
    match e
    case NoElse => {}
    case ElseDo(b) => BlockUses(b)
    case ElseIf(s) => Uses(s)
  }

  function GuardVars(cs: Clauses): set<Obj>
    decreases cs
  {
    match cs
    case NoClauses => {}
    case Clause(_, guards, _, rest) => AllVars(guards) + GuardVars(rest)
  }

  function ClausesUses(cs: Clauses): set<Obj>
    decreases cs
  {
    match cs
    case NoClauses => {}
    case Clause(_, guards, body, rest) => AllVars(guards) + BlockUses(body) + ClausesUses(rest)
  }

  function Decls(s: Stmt): set<Obj>
    decreases s
  {
    match s
    case Declare(names, _) => set x | x in names
    case Scope(body) => BlockDecls(body)
    case If(_, thn, els) => BlockDecls(thn) + ElseDecls(els)
    case For(_, post, body) => BlockDecls(post) + BlockDecls(body)
    case Range(_, _, body) => BlockDecls(body)
    case Switch(_, clauses) => ClausesDecls(clauses)
    case Labeled(_, inner) => Decls(inner)
    case _ => {}
  }

  function BlockDecls(b: Block): set<Obj>
    decreases b
  {
    match b
    case Nil => {}
    case Cons(h, rest) => Decls(h) + BlockDecls(rest)
  }

  function ElseDecls(e: Else): set<Obj>
    decreases e
  {
    match e
    case NoElse => {}
    case ElseDo(b) => BlockDecls(b)
    case ElseIf(s) => Decls(s)
  }

  function ClausesDecls(cs: Clauses): set<Obj>
    decreases cs
  {
    match cs
    case NoClauses => {}
    case Clause(_, _, body, rest) => BlockDecls(body) + ClausesDecls(rest)
  }

  /** No condition mentions a variable before its declaration: `seen` holds what
      earlier conditions mentioned. */
  predicate Scoped(s: Stmt, seen: set<Obj>)
    decreases s
  {
    match s
    case Declare(names, _) => forall x :: x in names ==> x !in seen
    case Scope(body) => ScopedBlock(body, seen)
    case If(cond, thn, els) => ScopedBlock(thn, seen + Vars(cond)) && ScopedElse(els, seen + Vars(cond))
    case For(test, post, body) =>
      ScopedBlock(body, seen + TestVars(test)) && ScopedBlock(post, seen + TestVars(test) + BlockUses(body))
    case Range(_, _, body) => ScopedBlock(body, seen)
    case Switch(_, clauses) => ScopedClauses(clauses, seen + GuardVars(clauses))
    case Labeled(_, inner) => Scoped(inner, seen)
    case _ => true
  }

  predicate ScopedBlock(b: Block, seen: set<Obj>)
    decreases b
  {
    match b
    case Nil => true
    case Cons(h, rest) => Scoped(h, seen) && ScopedBlock(rest, seen + Uses(h))
  }

  predicate ScopedElse(e: Else, seen: set<Obj>)
    decreases e
  {
    match e
    case NoElse => true
    case ElseDo(b) => ScopedBlock(b, seen)
    case ElseIf(s) => Scoped(s, seen)
  }

  predicate ScopedClauses(cs: Clauses, seen: set<Obj>)
    decreases cs
  {
    match cs
    case NoClauses => true
    case Clause(_, _, body, rest) => ScopedBlock(body, seen) && ScopedClauses(rest, seen)
  }

  // ----- names in parentheses -----

  /** Nothing is marked yet, and the address of no variable of `t` is taken
      through parentheses. */
  predicate Proper(t: set<Obj>, e: Expr)
    decreases e
  {
    match e
    case Paren(i) => Proper(t, i)
    case Not(i) => Proper(t, i)
    case And(l, r) => Proper(t, l) && Proper(t, r)
    case Or(l, r) => Proper(t, l) && Proper(t, r)
    case Equal(l, r, _) => Proper(t, l) && Proper(t, r)
    case Choice(c, a, b) => Proper(t, c) && Proper(t, a) && Proper(t, b)
    case Op(_, args) => AllProper(t, args)
    case Deref(i, checked) => !checked && Proper(t, i)
    case Wanted(i) => Proper(t, i)
    case Address(i) => (i.Paren? && Bare(i).Var? ==> Bare(i).x !in t) && Proper(t, i)
    case _ => true
  }

  predicate AllProper(t: set<Obj>, es: Exprs)
    decreases es
  {
    match es
    case NoExprs => true
    case More(h, rest) => Proper(t, h) && AllProper(t, rest)
  }

  predicate MaybeProper(t: set<Obj>, e: Option<Expr>) {
    e.Some? ==> Proper(t, e.value)
  }

  /** No target is a variable of `t` in parentheses. */
  predicate PlainTargets(t: set<Obj>, lhs: Exprs) {
    lhs.More? ==> (lhs.head.Paren? && Bare(lhs.head).Var? ==> Bare(lhs.head).x !in t) && PlainTargets(t, lhs.tail)
  }

  predicate ProperStmt(t: set<Obj>, s: Stmt)
    decreases s
  {
    match s
    case Do(e) => Proper(t, e)
    case Assign(lhs, rhs) => AllProper(t, lhs) && PlainTargets(t, lhs) && AllProper(t, rhs)
    case Declare(_, rhs) => AllProper(t, rhs)
    case Return(es) => AllProper(t, es)
    case Throw(e) => Proper(t, e)
    case Scope(body) => ProperBlock(t, body)
    case If(cond, thn, els) => Proper(t, cond) && ProperBlock(t, thn) && ProperElse(t, els)
    case For(test, post, body) => MaybeProper(t, test) && ProperBlock(t, post) && ProperBlock(t, body)
    case Range(targets, over, body) =>
      AllProper(t, targets) && PlainTargets(t, targets) && Proper(t, over) && ProperBlock(t, body)
    case Switch(tag, clauses) => MaybeProper(t, tag) && ProperClauses(t, clauses)
    case Labeled(_, inner) => ProperStmt(t, inner)
    case _ => true
  }

  predicate ProperBlock(t: set<Obj>, b: Block)
    decreases b
  {
    match b
    case Nil => true
    case Cons(h, rest) => ProperStmt(t, h) && ProperBlock(t, rest)
  }

  predicate ProperElse(t: set<Obj>, e: Else)
    decreases e
  {
    match e
    case NoElse => true
    case ElseDo(b) => ProperBlock(t, b)
    case ElseIf(s) => ProperStmt(t, s)
  }

  predicate ProperClauses(t: set<Obj>, cs: Clauses)
    decreases cs
  {
    match cs
    case NoClauses => true
    case Clause(_, guards, body, rest) => AllProper(t, guards) && ProperBlock(t, body) && ProperClauses(t, rest)
  }

  // ----- continue into a post statement -----

  /** What is proved at every `continue l` that leaves the statement, whose own label
      is `lab`; all of `t` if there is none. */
  function AtContinue(t: set<Obj>, s: Stmt, lab: Name, l: Name, proof: set<Obj>): set<Obj>
    decreases s, 2
  {
    match s
    case Continue(to) => if to == l then proof else t
    case Scope(body) => AtContinueIn(t, body, l, proof)
    case If(cond, thn, els) =>
      var c := NarrowExpr(t, cond, proof);
      AtContinueIn(t, thn, l, Assume(t, c, true, proof)) * ElseAtContinue(t, els, l, Assume(t, c, false, proof))
    case For(_, post, body) =>
      (if Mine(l, lab) then t else AtContinueIn(t, body, l, Turning(t, s, proof)))
      * AtContinueIn(t, post, l, Relied(t, s, lab, proof))
    case Range(_, _, body) => if Mine(l, lab) then t else AtContinueIn(t, body, l, proof - Writes(s))
    case Switch(tag, clauses) =>
      ClausesAtContinue(t, tag.None?, clauses, l, proof, AllFailed(t, tag.None?, clauses, proof), false)
    case Labeled(own, inner) => AtContinue(t, inner, own, l, {})
    case _ => t
  }

  /** What is proved when the body of a loop starts. */
  function Turning(t: set<Obj>, s: Stmt, proof: set<Obj>): set<Obj>
    requires s.For?
  {
    var kept := proof - Writes(s);
    AssumeAll(t, if s.test.Some? then Some(NarrowExpr(t, s.test.value, kept)) else None, true, kept)
  }

  /** What is proved on every way from the body to the post statement: at the body's
      end and at each `continue` into this loop. */
  function Relied(t: set<Obj>, s: Stmt, lab: Name, proof: set<Obj>): set<Obj>
    requires s.For?
    decreases s, 1
  {
    var known := Turning(t, s, proof);
    NarrowBlock(t, s.body, known).proof * AtContinueIn(t, s.body, NO_LABEL, known) * AtContinueIn(t, s.body, lab, known)
  }

  function AtContinueIn(t: set<Obj>, b: Block, l: Name, proof: set<Obj>): set<Obj>
    decreases b, 0
  {
    match b
    case Nil => t
    case Cons(h, rest) => AtContinue(t, h, NO_LABEL, l, proof) * AtContinueIn(t, rest, l, NarrowStmt(t, h, proof).proof)
  }

  function ElseAtContinue(t: set<Obj>, e: Else, l: Name, proof: set<Obj>): set<Obj>
    decreases e, 0
  {
    match e
    case NoElse => t
    case ElseDo(b) => AtContinueIn(t, b, l, proof)
    case ElseIf(s) => AtContinue(t, s, NO_LABEL, l, proof)
  }

  function ClausesAtContinue(t: set<Obj>, tagless: bool, cs: Clauses, l: Name, rem: set<Obj>, failed: set<Obj>,
                             fall: bool): set<Obj>
    decreases cs, 0
  {
    match cs
    case NoClauses => t
    case Clause(_, _, body, rest) =>
      AtContinueIn(t, body, l, Incoming(t, tagless, cs, rem, failed, fall))
      * ClausesAtContinue(t, tagless, rest, l, NextRemaining(t, tagless, cs, rem), failed, BlockHasFall(body))
  }

  /** The pass checks a post statement with what is proved at the end of the body.
      Whatever it marks there must also be proved at each `continue` into the
      loop. `lab` is the label of the statement itself. */
  predicate SafePosts(t: set<Obj>, s: Stmt, lab: Name, proof: set<Obj>)
    decreases s
  {
    match s
    case Scope(body) => SafePostsBlock(t, body, proof)
    case If(cond, thn, els) =>
      var c := NarrowExpr(t, cond, proof);
      SafePostsBlock(t, thn, Assume(t, c, true, proof)) && SafePostsElse(t, els, Assume(t, c, false, proof))
    case For(_, post, body) =>
      var known, relied := Turning(t, s, proof), Relied(t, s, lab, proof);
      && SafePostsBlock(t, body, known) && SafePostsBlock(t, post, relied)
      && NarrowBlock(t, post, relied).b == NarrowBlock(t, post, NarrowBlock(t, body, known).proof).b
    case Range(_, _, body) => SafePostsBlock(t, body, proof - Writes(s))
    case Switch(tag, clauses) =>
      SafePostsClauses(t, tag.None?, clauses, proof, AllFailed(t, tag.None?, clauses, proof), false)
    case Labeled(l, inner) => SafePosts(t, inner, l, {})
    case _ => true
  }

  predicate SafePostsBlock(t: set<Obj>, b: Block, proof: set<Obj>)
    decreases b
  {
    match b
    case Nil => true
    case Cons(h, rest) => SafePosts(t, h, NO_LABEL, proof) && SafePostsBlock(t, rest, NarrowStmt(t, h, proof).proof)
  }

  predicate SafePostsElse(t: set<Obj>, e: Else, proof: set<Obj>)
    decreases e
  {
    match e
    case NoElse => true
    case ElseDo(b) => SafePostsBlock(t, b, proof)
    case ElseIf(s) => SafePosts(t, s, NO_LABEL, proof)
  }

  predicate SafePostsClauses(t: set<Obj>, tagless: bool, cs: Clauses, rem: set<Obj>, failed: set<Obj>, fall: bool)
    decreases cs
  {
    match cs
    case NoClauses => true
    case Clause(_, _, body, rest) =>
      && SafePostsBlock(t, body, Incoming(t, tagless, cs, rem, failed, fall))
      && SafePostsClauses(t, tagless, rest, NextRemaining(t, tagless, cs, rem), failed, BlockHasFall(body))
  }

  // ----- static facts -----

  /** Declared variables are new. */
  lemma {:induction false} DeclsNew(s: Stmt, seen: set<Obj>)
    requires Scoped(s, seen)
    ensures Decls(s) !! seen
    decreases s
  {
    match s
    case Scope(body) => BlockDeclsNew(body, seen);
    case If(cond, thn, els) =>
      BlockDeclsNew(thn, seen + Vars(cond));
      ElseDeclsNew(els, seen + Vars(cond));
    case For(test, post, body) =>
      BlockDeclsNew(body, seen + TestVars(test));
      BlockDeclsNew(post, seen + TestVars(test) + BlockUses(body));
    case Range(_, _, body) => BlockDeclsNew(body, seen);
    case Switch(_, clauses) => ClausesDeclsNew(clauses, seen + GuardVars(clauses));
    case Labeled(_, inner) => DeclsNew(inner, seen);
    case _ =>
  }

  lemma {:induction false} BlockDeclsNew(b: Block, seen: set<Obj>)
    requires ScopedBlock(b, seen)
    ensures BlockDecls(b) !! seen
    decreases b
  {
    if b.Cons? {
      DeclsNew(b.head, seen);
      BlockDeclsNew(b.tail, seen + Uses(b.head));
    }
  }

  lemma {:induction false} ElseDeclsNew(e: Else, seen: set<Obj>)
    requires ScopedElse(e, seen)
    ensures ElseDecls(e) !! seen
    decreases e
  {
    if e.ElseDo? { BlockDeclsNew(e.body, seen); } else if e.ElseIf? { DeclsNew(e.stmt, seen); }
  }

  lemma {:induction false} ClausesDeclsNew(cs: Clauses, seen: set<Obj>)
    requires ScopedClauses(cs, seen)
    ensures ClausesDecls(cs) !! seen
    decreases cs
  {
    if cs.Clause? {
      BlockDeclsNew(cs.body, seen);
      ClausesDeclsNew(cs.rest, seen);
    }
  }

  /** A condition adds only variables it mentions. */
  lemma {:induction false} AssumeMentioned(t: set<Obj>, e: Expr, base: set<Obj>, truth: bool, proof: set<Obj>)
    ensures Assume(t, NarrowExpr(t, e, base), truth, proof) <= proof + Vars(e)
    ensures Assume(t, NarrowExpr(t, e, base), truth, proof) <= proof + t
    decreases e
  {
    match e
    case Paren(i) => AssumeMentioned(t, i, base, truth, proof);
    case Not(i) => AssumeMentioned(t, i, base, !truth, proof);
    case And(l, r) => AssumeBoth(t, e, l, r, base, true, proof);
    case Or(l, r) => AssumeBoth(t, e, l, r, base, false, proof);
    case Equal(l, r, _) =>
    case _ =>
  }

  lemma {:induction false} AssumeBoth(t: set<Obj>, e: Expr, l: Expr, r: Expr, base: set<Obj>, way: bool,
                                      proof: set<Obj>)
    requires e == And(l, r) || e == Or(l, r)
    ensures var left := NarrowExpr(t, l, base);
            var right := NarrowExpr(t, r, Assume(t, left, way, base));
            var both := Assume(t, right, way, Assume(t, left, way, proof));
            both <= proof + Vars(l) + Vars(r) && both <= proof + t
    decreases e, 0
  {
    var left := NarrowExpr(t, l, base);
    AssumeMentioned(t, l, base, way, proof);
    AssumeMentioned(t, r, Assume(t, left, way, base), way, Assume(t, left, way, proof));
  }

  /** The proof after a statement holds only variables from before and variables
      its conditions mention. */
  lemma {:induction false} ProofMentioned(t: set<Obj>, s: Stmt, proof: set<Obj>)
    ensures NarrowStmt(t, s, proof).proof <= proof + Uses(s)
    decreases s
  {
    match s
    case Scope(body) => BlockProofMentioned(t, body, proof);
    case If(cond, thn, els) =>
      AssumeMentioned(t, cond, proof, true, proof);
      AssumeMentioned(t, cond, proof, false, proof);
      var c := NarrowExpr(t, cond, proof);
      BlockProofMentioned(t, thn, Assume(t, c, true, proof));
      ElseProofMentioned(t, els, Assume(t, c, false, proof));
    case Labeled(_, inner) => ProofMentioned(t, inner, {});
    case _ =>
  }

  lemma {:induction false} BlockProofMentioned(t: set<Obj>, b: Block, proof: set<Obj>)
    ensures NarrowBlock(t, b, proof).proof <= proof + BlockUses(b)
    decreases b
  {
    if b.Cons? {
      ProofMentioned(t, b.head, proof);
      BlockProofMentioned(t, b.tail, NarrowStmt(t, b.head, proof).proof);
    }
  }

  lemma {:induction false} ElseProofMentioned(t: set<Obj>, e: Else, proof: set<Obj>)
    ensures NarrowElse(t, e, proof).proof <= proof + ElseUses(e)
    decreases e
  {
    if e.ElseDo? { BlockProofMentioned(t, e.body, proof); } else if e.ElseIf? { ProofMentioned(t, e.stmt, proof); }
  }
}
