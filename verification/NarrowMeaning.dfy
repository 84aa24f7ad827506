/** Narrowing preserves meaning: the narrowed function runs exactly as it would
    with every check left in place (internal/compiler/nullable_flow.go). */
module NarrowMeaning {
  import opened Options
  import opened Nullable
  import opened NullMachine
  import opened NullRules
  import opened NullSound

  // ----- the same program with all its checks -----

  function Checking(e: Expr): Expr
    decreases e
  {
    match e
    case Paren(i) => Paren(Checking(i))
    case Not(i) => Not(Checking(i))
    case And(l, r) => And(Checking(l), Checking(r))
    case Or(l, r) => Or(Checking(l), Checking(r))
    case Equal(l, r, negated) => Equal(Checking(l), Checking(r), negated)
    case Choice(c, a, b) => Choice(Checking(c), Checking(a), Checking(b))
    case Op(id, args) => Op(id, AllChecking(args))
    case Deref(i, _) => Deref(Checking(i), false)
    case Wanted(i) => Wanted(Checking(i))
    case Address(i) => Address(Checking(i))
    case _ => e
  }

  function AllChecking(es: Exprs): Exprs
    decreases es
  {
    match es
    case NoExprs => NoExprs
    case More(h, rest) => More(Checking(h), AllChecking(rest))
  }

  function MaybeChecking(e: Option<Expr>): Option<Expr> {
    if e.Some? then Some(Checking(e.value)) else None
  }

  function StmtChecking(s: Stmt): Stmt
    decreases s
  {
    match s
    case Do(e) => Do(Checking(e))
    case Assign(lhs, rhs) => Assign(AllChecking(lhs), AllChecking(rhs))
    case Declare(names, rhs) => Declare(names, AllChecking(rhs))
    case Return(es) => Return(AllChecking(es))
    case Throw(e) => Throw(Checking(e))
    case Scope(body) => Scope(BlockChecking(body))
    case If(cond, thn, els) => If(Checking(cond), BlockChecking(thn), ElseChecking(els))
    case For(test, post, body) => For(MaybeChecking(test), BlockChecking(post), BlockChecking(body))
    case Range(targets, over, body) => Range(AllChecking(targets), Checking(over), BlockChecking(body))
    case Switch(tag, clauses) => Switch(MaybeChecking(tag), ClausesChecking(clauses))
    case Labeled(l, inner) => Labeled(l, StmtChecking(inner))
    case _ => s
  }

  function BlockChecking(b: Block): Block
    decreases b
  {
    match b
    case Nil => Nil
    case Cons(h, rest) => Cons(StmtChecking(h), BlockChecking(rest))
  }

  function ElseChecking(e: Else): Else
    decreases e
  {
    match e
    case NoElse => NoElse
    case ElseDo(b) => ElseDo(BlockChecking(b))
    case ElseIf(s) => ElseIf(StmtChecking(s))
  }

  function ClausesChecking(cs: Clauses): Clauses
    decreases cs
  {
    match cs
    case NoClauses => NoClauses
    case Clause(isDefault, guards, body, rest) =>
      Clause(isDefault, AllChecking(guards), BlockChecking(body), ClausesChecking(rest))
  }

  // ----- a run without a fault is the run with all checks -----

  lemma {:induction false} BareChecking(e: Expr)
    ensures Bare(Checking(e)) == Checking(Bare(e))
    ensures Bare(Checking(e)).Var? <==> Bare(e).Var?
    ensures Bare(e).Var? ==> Bare(Checking(e)) == Bare(e)
    decreases e
  {
    if e.Paren? { BareChecking(e.e); }
  }

  lemma {:induction false} EvalChecking(fn: Fn, e: Expr, st: State)
    ensures !Eval(fn, e, st).Fault? ==> Eval(fn, Checking(e), st) == Eval(fn, e, st)
    decreases e
  {
    if e.Paren? || e.Wanted? || e.Not? || e.Deref? { EvalChecking(fn, e.e, st); }
    else if e.And? || e.Or? || e.Equal? {
      EvalChecking(fn, e.l, st);
      var o := Eval(fn, e.l, st);
      if o.Yields? { EvalChecking(fn, e.r, o.st); }
    }
    else if e.Choice? {
      EvalChecking(fn, e.cond, st);
      var o := Eval(fn, e.cond, st);
      if o.Yields? {
        EvalChecking(fn, e.thn, o.st);
        EvalChecking(fn, e.els, o.st);
      }
    }
    else if e.Op? { EvalAllChecking(fn, e.args, st); }
    else if e.Address? {
      BareChecking(e.e);
      EvalChecking(fn, e.e, st);
    }
  }

  lemma {:induction false} EvalAllChecking(fn: Fn, es: Exprs, st: State)
    ensures !EvalAll(fn, es, st).Fault? ==> EvalAll(fn, AllChecking(es), st) == EvalAll(fn, es, st)
    decreases es
  {
    if es.More? {
      EvalChecking(fn, es.head, st);
      var o := Eval(fn, es.head, st);
      if o.Yields? { EvalAllChecking(fn, es.tail, o.st); }
    }
  }

  lemma {:induction false} TargetsChecking(fn: Fn, lhs: Exprs, st: State)
    ensures !EvalTargets(fn, lhs, st).Fault? ==> EvalTargets(fn, AllChecking(lhs), st) == EvalTargets(fn, lhs, st)
    decreases lhs
  {
    if lhs.More? {
      BareChecking(lhs.head);
      EvalChecking(fn, lhs.head, st);
      var o := Eval(fn, lhs.head, st);
      TargetsChecking(fn, lhs.tail, st);
      if o.Yields? { TargetsChecking(fn, lhs.tail, o.st); }
    }
  }

  lemma {:induction false} StoreChecking(fn: Fn, lhs: Exprs, vals: seq<Val>, st: State)
    ensures StoreAll(fn, AllChecking(lhs), vals, st) == StoreAll(fn, lhs, vals, st)
    ensures Count(AllChecking(lhs)) == Count(lhs)
    decreases lhs
  {
    if lhs.More? {
      var tail := if vals == [] then [] else vals[1..];
      BareChecking(lhs.head);
      if Bare(lhs.head).Var? {
        StoreChecking(fn, lhs.tail, tail, st.(store := st.store[Bare(lhs.head).x := First(vals)]));
      }
      StoreChecking(fn, lhs.tail, tail, st);
      var o := Apply(fn, STORE, [First(vals)], st);
      if o.Yields? { StoreChecking(fn, lhs.tail, tail, o.st); }
    }
  }

  lemma BasicChecking(fn: Fn, s: Stmt, st: State)
    ensures !ExecBasic(fn, s, st).c.Faulted? ==> ExecBasic(fn, StmtChecking(s), st) == ExecBasic(fn, s, st)
  {
    if s.Do? || s.Throw? { EvalChecking(fn, s.e, st); }
    else if s.Return? { EvalAllChecking(fn, s.es, st); }
    else if s.Declare? {
      EvalAllChecking(fn, s.rhs, st);
      assert AllChecking(s.rhs).NoExprs? <==> s.rhs.NoExprs?;
    }
    else if s.Assign? {
      TargetsChecking(fn, s.lhs, st);
      var o := EvalTargets(fn, s.lhs, st);
      if o.Yields? {
        EvalAllChecking(fn, s.rhs, o.st);
        var q := EvalAll(fn, s.rhs, o.st);
        StoreChecking(fn, s.lhs, [], o.st);
        if q.Yields? { StoreChecking(fn, s.lhs, Spread(fn, q.vals, Count(s.lhs)), q.st); }
      }
    }
  }

  lemma {:induction false} ExecChecking(fn: Fn, s: Stmt, lab: Name, st: State, fuel: nat)
    ensures var r := Exec(fn, s, lab, st, fuel); !r.c.Faulted? ==> Exec(fn, StmtChecking(s), lab, st, fuel) == r
    decreases s, fuel, 2
  {
    if s.Scope? { BlockSame(fn, s.body, st, fuel); }
    else if s.If? { IfChecking(fn, s, st, fuel); }
    else if s.For? { LoopChecking(fn, s, lab, st, fuel); }
    else if s.Range? {
      EvalChecking(fn, s.over, st);
      var o := Eval(fn, s.over, st);
      if o.Yields? { RangeChecking(fn, s, lab, o.st, fuel); }
    }
    else if s.Switch? { SwitchChecking(fn, s, lab, st, fuel); }
    else if s.Labeled? { ExecChecking(fn, s.stmt, s.lab, st, fuel); }
    else { BasicChecking(fn, s, st); }
  }

  lemma {:induction false} BlockSame(fn: Fn, b: Block, st: State, fuel: nat)
    ensures var r := ExecBlock(fn, b, st, fuel); !r.c.Faulted? ==> ExecBlock(fn, BlockChecking(b), st, fuel) == r
    decreases b, fuel, 1
  {
    if b.Cons? {
      ExecChecking(fn, b.head, NO_LABEL, st, fuel);
      var r := Exec(fn, b.head, NO_LABEL, st, fuel);
      BlockSame(fn, b.tail, r.st, fuel);
    }
  }

  lemma {:induction false} IfChecking(fn: Fn, s: Stmt, st: State, fuel: nat)
    requires s.If?
    ensures var r := ExecIf(fn, s, st, fuel); !r.c.Faulted? ==> ExecIf(fn, StmtChecking(s), st, fuel) == r
    decreases s, fuel, 1
  {
    EvalChecking(fn, s.cond, st);
    var o := Eval(fn, s.cond, st);
    if o.Yields? {
      BlockSame(fn, s.thn, o.st, fuel);
      if s.els.ElseDo? { BlockSame(fn, s.els.body, o.st, fuel); }
      else if s.els.ElseIf? { ExecChecking(fn, s.els.stmt, NO_LABEL, o.st, fuel); }
    }
  }

  lemma TestChecking(fn: Fn, test: Option<Expr>, st: State)
    ensures !EvalTest(fn, test, st).Fault? ==> EvalTest(fn, MaybeChecking(test), st) == EvalTest(fn, test, st)
  {
    if test.Some? { EvalChecking(fn, test.value, st); }
  }

  lemma {:induction false} LoopChecking(fn: Fn, s: Stmt, lab: Name, st: State, fuel: nat)
    requires s.For?
    ensures var r := Loop(fn, s, lab, st, fuel); !r.c.Faulted? ==> Loop(fn, StmtChecking(s), lab, st, fuel) == r
    decreases s, fuel, 0
  {
    if fuel > 0 {
      TestChecking(fn, s.test, st);
      var o := EvalTest(fn, s.test, st);
      if o.Yields? && First(o.vals) != 0 {
        BlockSame(fn, s.body, o.st, fuel);
        var r := ExecBlock(fn, s.body, o.st, fuel);
        TurnChecking(fn, s, lab, r, fuel);
      }
    }
  }

  lemma {:induction false} TurnChecking(fn: Fn, s: Stmt, lab: Name, r: R, fuel: nat)
    requires s.For? && fuel > 0
    ensures var e := EndTurn(fn, s, lab, r, fuel); !e.c.Faulted? ==> EndTurn(fn, StmtChecking(s), lab, r, fuel) == e
    decreases s, fuel - 1, 3
  {
    BlockSame(fn, s.post, r.st, fuel);
    LoopChecking(fn, s, lab, ExecBlock(fn, s.post, r.st, fuel).st, fuel - 1);
  }

  lemma {:induction false} RangeChecking(fn: Fn, s: Stmt, lab: Name, st: State, fuel: nat)
    requires s.Range?
    ensures var r := RangeLoop(fn, s, lab, st, fuel);
              !r.c.Faulted? ==> RangeLoop(fn, StmtChecking(s), lab, st, fuel) == r
    decreases s, fuel, 0
  {
    var o := Apply(fn, NEXT, [], st);
    if fuel > 0 && o.Yields? && o.vals != [] {
      TargetsChecking(fn, s.targets, o.st);
      var p := EvalTargets(fn, s.targets, o.st);
      if p.Yields? {
        StoreChecking(fn, s.targets, o.vals, p.st);
        var q := StoreAll(fn, s.targets, o.vals, p.st);
        if q.Yields? {
          BlockSame(fn, s.body, q.st, fuel);
          RangeChecking(fn, s, lab, ExecBlock(fn, s.body, q.st, fuel).st, fuel - 1);
        }
      }
    }
  }

  lemma {:induction false} GuardsChecking(fn: Fn, tag: Option<Val>, guards: Exprs, index: nat, st: State)
    ensures var c := Guards(fn, tag, guards, index, st);
            c == Failed(Outcome.Fault) || Guards(fn, tag, AllChecking(guards), index, st) == c
    decreases guards
  {
    if guards.More? {
      EvalChecking(fn, guards.head, st);
      var o := Eval(fn, guards.head, st);
      if o.Yields? { GuardsChecking(fn, tag, guards.tail, index, o.st); }
    }
  }

  lemma {:induction false} ChooseChecking(fn: Fn, tag: Option<Val>, cs: Clauses, index: nat, st: State)
    ensures var c := Choose(fn, tag, cs, index, st);
            c == Failed(Outcome.Fault) || Choose(fn, tag, ClausesChecking(cs), index, st) == c
    decreases cs
  {
    if cs.Clause? {
      GuardsChecking(fn, tag, cs.guards, index, st);
      ChooseChecking(fn, tag, cs.rest, index + 1, st);
      var g := Guards(fn, tag, cs.guards, index, st);
      if g.Chosen? { ChooseChecking(fn, tag, cs.rest, index + 1, g.st); }
    }
  }

  lemma {:induction false} DefaultChecking(cs: Clauses, index: int)
    ensures DefaultIndex(ClausesChecking(cs), index) == DefaultIndex(cs, index)
    decreases cs
  {
    if cs.Clause? { DefaultChecking(cs.rest, index + 1); }
  }

  lemma {:induction false} SwitchChecking(fn: Fn, s: Stmt, lab: Name, st: State, fuel: nat)
    requires s.Switch?
    ensures var r := ExecSwitch(fn, s, lab, st, fuel);
              !r.c.Faulted? ==> ExecSwitch(fn, StmtChecking(s), lab, st, fuel) == r
    decreases s, fuel, 1
  {
    TestChecking(fn, s.tag, st);
    var o := EvalTest(fn, s.tag, st);
    if o.Yields? {
      var tag := if s.tag.Some? then Some(First(o.vals)) else None;
      ChooseChecking(fn, tag, s.clauses, 0, o.st);
      DefaultChecking(s.clauses, 0);
      var c := Choose(fn, tag, s.clauses, 0, o.st);
      if c.Chosen? {
        var index := if c.index >= 0 then c.index else DefaultIndex(s.clauses, 0);
        if index >= 0 { ClausesSame(fn, s.clauses, index, c.st, fuel); }
      }
    }
  }

  lemma {:induction false} ClausesSame(fn: Fn, cs: Clauses, k: nat, st: State, fuel: nat)
    ensures var r := RunClauses(fn, cs, k, st, fuel);
              !r.c.Faulted? ==> RunClauses(fn, ClausesChecking(cs), k, st, fuel) == r
    decreases cs, fuel, 1
  {
    if cs.Clause? {
      if k > 0 { ClausesSame(fn, cs.rest, k - 1, st, fuel); }
      else {
        BlockSame(fn, cs.body, st, fuel);
        ClausesSame(fn, cs.rest, 0, ExecBlock(fn, cs.body, st, fuel).st, fuel);
      }
    }
  }

  // ----- what narrowing writes is the program it read, with marks -----

  /** No position asks for a value that must not be nil: where one does, a proved
      variable of a nullable type is replaced by what it points to. */
  predicate WantsNothing(e: Expr)
    decreases e
  {
    match e
    case Paren(i) => WantsNothing(i)
    case Not(i) => WantsNothing(i)
    case And(l, r) => WantsNothing(l) && WantsNothing(r)
    case Or(l, r) => WantsNothing(l) && WantsNothing(r)
    case Equal(l, r, _) => WantsNothing(l) && WantsNothing(r)
    case Choice(c, a, b) => WantsNothing(c) && WantsNothing(a) && WantsNothing(b)
    case Op(_, args) => AllWantNothing(args)
    case Deref(i, _) => WantsNothing(i)
    case Wanted(_) => false
    case Address(i) => WantsNothing(i)
    case _ => true
  }

  predicate AllWantNothing(es: Exprs)
    decreases es
  {
    es.NoExprs? || (WantsNothing(es.head) && AllWantNothing(es.tail))
  }

  predicate StmtWantsNothing(s: Stmt)
    decreases s
  {
    match s
    case Do(e) => WantsNothing(e)
    case Assign(lhs, rhs) => AllWantNothing(lhs) && AllWantNothing(rhs)
    case Declare(_, rhs) => AllWantNothing(rhs)
    case Return(es) => AllWantNothing(es)
    case Throw(e) => WantsNothing(e)
    case Scope(body) => BlockWantsNothing(body)
    case If(cond, thn, els) => WantsNothing(cond) && BlockWantsNothing(thn) && ElseWantsNothing(els)
    case For(test, post, body) =>
      (test.Some? ==> WantsNothing(test.value)) && BlockWantsNothing(post) && BlockWantsNothing(body)
    case Range(targets, over, body) =>
      AllWantNothing(targets) && WantsNothing(over) && !over.Var? && BlockWantsNothing(body)
    case Switch(tag, clauses) => (tag.Some? ==> WantsNothing(tag.value)) && ClausesWantNothing(clauses)
    case Labeled(_, inner) => StmtWantsNothing(inner)
    case _ => true
  }

  predicate BlockWantsNothing(b: Block)
    decreases b
  {
    b.Nil? || (StmtWantsNothing(b.head) && BlockWantsNothing(b.tail))
  }

  predicate ElseWantsNothing(e: Else)
    decreases e
  {
    match e
    case NoElse => true
    case ElseDo(b) => BlockWantsNothing(b)
    case ElseIf(s) => StmtWantsNothing(s)
  }

  predicate ClausesWantNothing(cs: Clauses)
    decreases cs
  {
    cs.NoClauses? || (AllWantNothing(cs.guards) && BlockWantsNothing(cs.body) && ClausesWantNothing(cs.rest))
  }

  lemma {:induction false} ExprMarks(t: set<Obj>, e: Expr, proof: set<Obj>)
    requires Proper(t, e) && WantsNothing(e)
    ensures Checking(NarrowExpr(t, e, proof)) == e
    decreases e
  {
    if e.Paren? || e.Not? || e.Deref? || e.Address? { ExprMarks(t, e.e, proof); }
    else if e.Equal? { ExprMarks(t, e.l, proof); ExprMarks(t, e.r, proof); }
    else if e.And? {
      ExprMarks(t, e.l, proof);
      ExprMarks(t, e.r, Assume(t, NarrowExpr(t, e.l, proof), true, proof));
    }
    else if e.Or? {
      ExprMarks(t, e.l, proof);
      ExprMarks(t, e.r, Assume(t, NarrowExpr(t, e.l, proof), false, proof));
    }
    else if e.Choice? {
      var cond := NarrowExpr(t, e.cond, proof);
      ExprMarks(t, e.cond, proof);
      ExprMarks(t, e.thn, Assume(t, cond, true, proof));
      ExprMarks(t, e.els, Assume(t, cond, false, proof));
    }
    else if e.Op? { ExprsMarks(t, e.args, proof); }
  }

  lemma {:induction false} ExprsMarks(t: set<Obj>, es: Exprs, proof: set<Obj>)
    requires AllProper(t, es) && AllWantNothing(es)
    ensures AllChecking(NarrowExprs(t, es, proof)) == es
    decreases es
  {
    if es.More? { ExprMarks(t, es.head, proof); ExprsMarks(t, es.tail, proof); }
  }

  lemma {:induction false} TargetsMarks(t: set<Obj>, lhs: Exprs, proof: set<Obj>)
    requires AllProper(t, lhs) && AllWantNothing(lhs)
    ensures AllChecking(NarrowTargets(t, lhs, proof)) == lhs
    decreases lhs
  {
    if lhs.More? { ExprMarks(t, lhs.head, proof); TargetsMarks(t, lhs.tail, proof - Named(lhs.head)); }
  }

  lemma {:induction false} UnmarkedSame(t: set<Obj>, e: Expr)
    requires Proper(t, e)
    ensures Checking(e) == e
    decreases e
  {
    if e.Paren? || e.Not? || e.Deref? || e.Address? || e.Wanted? { UnmarkedSame(t, e.e); }
    else if e.Equal? || e.And? || e.Or? { UnmarkedSame(t, e.l); UnmarkedSame(t, e.r); }
    else if e.Choice? { UnmarkedSame(t, e.cond); UnmarkedSame(t, e.thn); UnmarkedSame(t, e.els); }
    else if e.Op? { AllUnmarkedSame(t, e.args); }
  }

  lemma {:induction false} AllUnmarkedSame(t: set<Obj>, es: Exprs)
    requires AllProper(t, es)
    ensures AllChecking(es) == es
    decreases es
  {
    if es.More? { UnmarkedSame(t, es.head); AllUnmarkedSame(t, es.tail); }
  }

  lemma {:induction false} StmtMarks(t: set<Obj>, s: Stmt, proof: set<Obj>)
    requires ProperStmt(t, s) && StmtWantsNothing(s)
    ensures StmtChecking(NarrowStmt(t, s, proof).s) == s
    decreases s, 1
  {
    if s.Do? || s.Throw? { ExprMarks(t, s.e, proof); }
    else if s.Return? { ExprsMarks(t, s.es, proof); }
    else if s.Declare? { ExprsMarks(t, s.rhs, proof); }
    else if s.Assign? { TargetsMarks(t, s.lhs, proof); ExprsMarks(t, s.rhs, proof); }
    else if s.Scope? { BlockMarks(t, s.body, proof); }
    else if s.If? { IfMarks(t, s, proof); }
    else if s.For? { ForMarks(t, s, proof); }
    else if s.Range? {
      AllUnmarkedSame(t, s.targets);
      ExprMarks(t, s.over, proof);
      BlockMarks(t, s.body, proof - Writes(s));
    }
    else if s.Switch? {
      if s.tag.Some? { ExprMarks(t, s.tag.value, proof); }
      ClausesMarks(t, s.tag.None?, s.clauses, proof, AllFailed(t, s.tag.None?, s.clauses, proof), false);
    }
    else if s.Labeled? { StmtMarks(t, s.stmt, {}); }
  }

  lemma {:induction false} IfMarks(t: set<Obj>, s: Stmt, proof: set<Obj>)
    requires s.If? && ProperStmt(t, s) && StmtWantsNothing(s)
    ensures StmtChecking(NarrowIf(t, s, proof).s) == s
    decreases s, 0
  {
    var cond := NarrowExpr(t, s.cond, proof);
    ExprMarks(t, s.cond, proof);
    BlockMarks(t, s.thn, Assume(t, cond, true, proof));
    var no := Assume(t, cond, false, proof);
    if s.els.ElseDo? { BlockMarks(t, s.els.body, no); } else if s.els.ElseIf? { StmtMarks(t, s.els.stmt, no); }
  }

  lemma {:induction false} ForMarks(t: set<Obj>, s: Stmt, proof: set<Obj>)
    requires s.For? && ProperStmt(t, s) && StmtWantsNothing(s)
    ensures StmtChecking(NarrowFor(t, s, proof).s) == s
    decreases s, 0
  {
    var kept := proof - Writes(s);
    var cond := if s.test.Some? then Some(NarrowExpr(t, s.test.value, kept)) else None;
    if s.test.Some? { ExprMarks(t, s.test.value, kept); }
    var known := AssumeAll(t, cond, true, kept);
    BlockMarks(t, s.body, known);
    BlockMarks(t, s.post, NarrowBlock(t, s.body, known).proof);
  }

  lemma {:induction false} GuardsMarks(t: set<Obj>, tagless: bool, guards: Exprs, rem: set<Obj>)
    requires AllProper(t, guards) && AllWantNothing(guards)
    ensures AllChecking(NarrowGuards(t, tagless, guards, rem)) == guards
    decreases guards
  {
    if guards.More? {
      var guard := NarrowExpr(t, guards.head, rem);
      ExprMarks(t, guards.head, rem);
      GuardsMarks(t, tagless, guards.tail, if tagless then Assume(t, guard, false, rem) else rem);
    }
  }

  lemma {:induction false} ClausesMarks(t: set<Obj>, tagless: bool, cs: Clauses, rem: set<Obj>, failed: set<Obj>,
                                        fall: bool)
    requires ProperClauses(t, cs) && ClausesWantNothing(cs)
    ensures ClausesChecking(NarrowClauses(t, tagless, cs, rem, failed, fall)) == cs
    decreases cs, 0
  {
    if cs.Clause? {
      AllUnmarkedSame(t, cs.guards);
      GuardsMarks(t, tagless, cs.guards, rem);
      BlockMarks(t, cs.body, Incoming(t, tagless, cs, rem, failed, fall));
      ClausesMarks(t, tagless, cs.rest, NextRemaining(t, tagless, cs, rem), failed, BlockHasFall(cs.body));
    }
  }

  lemma {:induction false} BlockMarks(t: set<Obj>, b: Block, proof: set<Obj>)
    requires ProperBlock(t, b) && BlockWantsNothing(b)
    ensures BlockChecking(NarrowBlock(t, b, proof).b) == b
    decreases b, 0
  {
    if b.Cons? {
      StmtMarks(t, b.head, proof);
      BlockMarks(t, b.tail, NarrowStmt(t, b.head, proof).proof);
    }
  }

  // ----- the theorem -----

  /** A narrowed function runs, to the last call and state, as it would if every
      dereference in it were still checked ... */
  lemma ChecksRedundant(fn: Fn, optional: set<Obj>, body: Block, st: State, fuel: nat)
    requires ProperBlock(Tracked(fn.locals, optional, body), body) && ScopedBlock(body, {})
             && SafePostsBlock(Tracked(fn.locals, optional, body), body, {})
    requires st.escaped !! fn.locals
    ensures var n := NarrowFunction(fn.locals, optional, body);
            ExecBlock(fn, n, st, fuel) == ExecBlock(fn, BlockChecking(n), st, fuel)
  {
    BlockSound(fn, Tracked(fn.locals, optional, body), body, {}, {}, st, fuel);
    BlockSame(fn, NarrowFunction(fn.locals, optional, body), st, fuel);
  }

  /** ... and where no position asks for a non-nil value, that is how the
      function ran before. */
  lemma NarrowingPreservesMeaning(fn: Fn, optional: set<Obj>, body: Block, st: State, fuel: nat)
    requires ProperBlock(Tracked(fn.locals, optional, body), body) && ScopedBlock(body, {})
             && SafePostsBlock(Tracked(fn.locals, optional, body), body, {})
    requires st.escaped !! fn.locals && BlockWantsNothing(body)
    ensures ExecBlock(fn, NarrowFunction(fn.locals, optional, body), st, fuel) == ExecBlock(fn, body, st, fuel)
  {
    ChecksRedundant(fn, optional, body, st, fuel);
    BlockMarks(Tracked(fn.locals, optional, body), body, {});
  }
}
