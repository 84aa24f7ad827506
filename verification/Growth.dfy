/** What no run undoes: fields stay set, early reads stay recorded, and a run reads
    early only what its text mentions and was unset when it began. */
module Growth {
  import opened Syntax
  import opened Machine
  import opened Headers
  import opened ProgramPaths
  import Construction

  ghost predicate Grew(m: set<Name>, u: User, w: User) {
    u.obj.Keys <= w.obj.Keys && u.early <= w.early <= u.early + (m - u.obj.Keys)
  }

  lemma EvalGrew(fn: Fn, e: Expr, m: set<Name>, u: User)
    requires Fields(e) <= m
    ensures Grew(m, u, EvalExpr(fn, e, u).u)
  {}

  lemma {:induction false} EvalAllGrew(fn: Fn, es: seq<Expr>, m: set<Name>, u: User)
    requires forall e :: e in es ==> Fields(e) <= m
    ensures Grew(m, u, EvalAll(fn, es, u).u)
    decreases |es|
  {
    if es != [] {
      EvalGrew(fn, es[0], m, u);
      var o := EvalExpr(fn, es[0], u);
      if o.Yields? { EvalAllGrew(fn, es[1..], m, o.u); }
    }
  }

  lemma {:induction false} StoreAllGrew(fn: Fn, lhs: seq<Lhs>, vals: seq<Val>, m: set<Name>, u: User)
    ensures Grew(m, u, StoreAll(fn, lhs, vals, u).u)
    decreases |lhs|
  {
    if lhs != [] {
      if lhs[0].At? { EvalGrew(fn, Put(lhs[0].e, First(vals)), m, u); }
      var o := Store(fn, lhs[0], First(vals), u);
      if o.Yields? { StoreAllGrew(fn, lhs[1..], Rest(vals), m, o.u); }
    }
  }

  lemma {:induction false} OperandsFrom(lhs: seq<Lhs>, e: Expr)
    requires e in Operands(lhs)
    ensures At(e) in lhs
    decreases |lhs|
  {
    if !(lhs[0].At? && lhs[0].e == e) { OperandsFrom(lhs[1..], e); }
  }

  lemma OperandsMentioned(lhs: seq<Lhs>, m: set<Name>)
    requires Construction.LhsMentions(lhs) <= m
    ensures forall e :: e in Operands(lhs) ==> Fields(e) <= m
  {
    forall e, f | e in Operands(lhs) && f in Fields(e) ensures f in m {
      OperandsFrom(lhs, e);
      assert At(e).At? && f in Fields(At(e).e);
    }
  }

  lemma AssignGrew(fn: Fn, lhs: seq<Lhs>, rhs: seq<Expr>, m: set<Name>, u: User)
    requires Construction.LhsMentions(lhs) + Construction.ExprsMention(rhs) <= m
    ensures Grew(m, u, AssignAll(fn, lhs, rhs, u).u)
  {
    OperandsMentioned(lhs, m);
    var es := Operands(lhs) + rhs;
    forall e | e in es ensures Fields(e) <= m {}
    EvalAllGrew(fn, es, m, u);
    var o := EvalAll(fn, es, u);
    if o.Yields? {
      StoreAllGrew(fn, lhs, if |Operands(lhs)| <= |o.vals| then o.vals[|Operands(lhs)|..] else [], m, o.u);
    }
  }

  lemma {:induction false} BindGrew(names: seq<Name>, vals: seq<Val>, u: User)
    ensures Bind(names, vals, u).obj == u.obj && Bind(names, vals, u).early == u.early
    decreases |names|
  {
    if names != [] {
      BindGrew(names[1..], Rest(vals),
               u.(env := u.env[names[0] := u.next], heap := u.heap[u.next := First(vals)], next := u.next + 1));
    }
  }

  lemma {:induction false} SetCellsGrew(cells: seq<nat>, vals: seq<Val>, u: User)
    ensures SetCells(cells, vals, u).obj == u.obj && SetCells(cells, vals, u).early == u.early
    decreases |cells|
  {
    if cells != [] { SetCellsGrew(cells[1..], Rest(vals), u.(heap := u.heap[cells[0] := First(vals)])); }
  }

  lemma BasicGrew(fn: Fn, s: Stmt, m: set<Name>, st: State, fuel: nat)
    requires Sourced(s) && Basic(s) && Construction.Mentions(s) <= m
    ensures Grew(m, st.u, ExecBasic(fn, s, st, fuel).st.u)
  {
    if s.Assign? { AssignGrew(fn, s.lhs, s.rhs, m, st.u); }
    else if s.Declare? || s.Return? {
      var es := if s.Declare? then s.rhs else s.es;
      forall e | e in es ensures Fields(e) <= m {
        forall f | f in Fields(e) ensures f in m { assert f in Construction.ExprsMention(es); }
      }
      EvalAllGrew(fn, es, m, st.u);
      var o := EvalAll(fn, es, st.u);
      if o.Yields? && s.Declare? { BindGrew(s.names, o.vals, o.u); }
      if o.Yields? && s.Return? && fn.slots.Named? { SetCellsGrew(fn.slots.cells, o.vals, o.u); }
    }
    else if s.Eval? || s.Parent? || s.Throw? || s.Panic? || s.Defer? { EvalGrew(fn, s.e, m, st.u); }
  }

  /** Statements that contain no statement. */
  predicate Basic(s: Stmt) {
    !s.Scope? && !s.If? && !s.For? && !s.Range? && !s.Switch? && !s.Labeled? && !s.Try?
  }

  lemma {:induction false} ExecGrew(fn: Fn, s: Stmt, lab: Name, m: set<Name>, st: State, fuel: nat)
    requires Sourced(s) && Construction.Mentions(s) <= m
    ensures Grew(m, st.u, Exec(fn, s, lab, st, fuel).st.u)
    decreases s, fuel, 5
  {
    if s.Scope? { BlockGrew(fn, s.body, m, st, fuel); }
    else if s.If? || s.For? || s.Switch? { HeaderGrew(fn, s, lab, m, st, fuel); }
    else if s.Range? {
      EvalGrew(fn, s.over, m, st.u);
      var o := EvalExpr(fn, s.over, st.u);
      if o.Yields? { RangeGrew(fn, s, lab, m, st.(u := o.u), fuel); }
    }
    else if s.Labeled? { ExecGrew(fn, s.stmt, s.lab, m, st, fuel); }
    else if s.Try? { TryGrew(fn, s, m, st, fuel); }
    else { BasicGrew(fn, s, m, st, fuel); }
  }

  lemma {:induction false} BlockGrew(fn: Fn, b: Block, m: set<Name>, st: State, fuel: nat)
    requires SourcedBlock(b) && Construction.BlockMentions(b) <= m
    ensures Grew(m, st.u, ExecBlock(fn, b, st, fuel).st.u)
    decreases b, fuel, 4
  {
    if b.Cons? {
      ExecGrew(fn, b.head, NO_LABEL, m, st, fuel);
      var r := Exec(fn, b.head, NO_LABEL, st, fuel);
      if r.c.Normal? { BlockGrew(fn, b.tail, m, r.st, fuel); }
    }
  }

  /** What follows the header of a statement. */
  lemma {:induction false} HeaderGrew(fn: Fn, s: Stmt, lab: Name, m: set<Name>, st: State, fuel: nat)
    requires (s.If? || s.For? || s.Switch?) && Sourced(s) && Construction.Mentions(s) <= m
    ensures Grew(m, st.u, Exec(fn, s, lab, st, fuel).st.u)
    decreases s, fuel, 4
  {
    HeaderFirst(fn, s, lab, st, fuel);
    BlockGrew(fn, s.init, m, st, fuel);
    var i := ExecBlock(fn, s.init, st, fuel);
    if i.c.Normal? { AfterHeaderGrew(fn, s, lab, m, i.st, fuel); }
  }

  lemma {:induction false} AfterHeaderGrew(fn: Fn, s: Stmt, lab: Name, m: set<Name>, st: State, fuel: nat)
    requires (s.If? || s.For? || s.Switch?) && Sourced(s) && Construction.Mentions(s) <= m
    ensures Grew(m, st.u, AfterHeader(fn, s, lab, st, fuel).st.u)
    decreases s, fuel, 3
  {
    if s.If? {
      EvalGrew(fn, s.test, m, st.u);
      var o := EvalExpr(fn, s.test, st.u);
      if o.Yields? { BlockGrew(fn, if First(o.vals) != 0 then s.thn else s.els, m, st.(u := o.u), fuel); }
    }
    else if s.For? { LoopGrew(fn, s, lab, m, st, fuel); }
    else {
      if s.tag.When? { EvalGrew(fn, s.tag.e, m, st.u); }
      var o := EvalCond(fn, s.tag, st.u);
      if o.Yields? { CasesGrew(fn, s.clauses, First(o.vals), lab, m, st.(u := o.u), fuel); }
    }
  }

  lemma {:induction false} LoopGrew(fn: Fn, s: Stmt, lab: Name, m: set<Name>, st: State, fuel: nat)
    requires s.For? && Sourced(s) && Construction.Mentions(s) <= m
    ensures Grew(m, st.u, Loop(fn, s, lab, st, fuel).st.u)
    decreases s, fuel, 2
  {
    if s.cond.When? { EvalGrew(fn, s.cond.e, m, st.u); }
    var o := EvalCond(fn, s.cond, st.u);
    if fuel > 0 && o.Yields? && First(o.vals) != 0 {
      BlockGrew(fn, s.body, m, st.(u := o.u), fuel);
      LoopTurnGrew(fn, s, lab, m, Leave(ExecBlock(fn, s.body, st.(u := o.u), fuel), st.u.env), fuel);
    }
  }

  lemma {:induction false} LoopTurnGrew(fn: Fn, s: Stmt, lab: Name, m: set<Name>, r: R, fuel: nat)
    requires s.For? && Sourced(s) && Construction.Mentions(s) <= m && fuel > 0
    ensures Grew(m, r.st.u, EndTurn(fn, s, lab, r, fuel).st.u)
    decreases s, fuel, 1
  {
    if !(r.c.BreakTo? && Mine(r.c.lab, lab)) && (r.c.Normal? || (r.c.ContinueTo? && Mine(r.c.lab, lab))) {
      BlockGrew(fn, s.post, m, r.st, fuel);
      var p := ExecBlock(fn, s.post, r.st, fuel);
      if p.c.Normal? { LoopGrew(fn, s, lab, m, p.st, fuel - 1); }
    }
  }

  lemma TurnGrew(fn: Fn, s: Stmt, vals: seq<Val>, m: set<Name>, u: User)
    requires s.Range? && Construction.LhsMentions(s.lhs) <= m
    ensures Grew(m, u, BindTurn(fn, s, vals, u).u)
  {
    if s.lhs == [] { BindGrew(s.names, vals, u); }
    else {
      OperandsMentioned(s.lhs, m);
      EvalAllGrew(fn, Operands(s.lhs), m, u);
      var o := EvalAll(fn, Operands(s.lhs), u);
      if o.Yields? { StoreAllGrew(fn, s.lhs, vals, m, o.u); }
    }
  }

  lemma {:induction false} RangeGrew(fn: Fn, s: Stmt, lab: Name, m: set<Name>, st: State, fuel: nat)
    requires s.Range? && Sourced(s) && Construction.Mentions(s) <= m
    ensures Grew(m, st.u, RangeLoop(fn, s, lab, st, fuel).st.u)
    decreases s, fuel, 3
  {
    EvalGrew(fn, Expr.Next(s.over), m, st.u);
    var o := EvalExpr(fn, Expr.Next(s.over), st.u);
    if fuel > 0 && o.Yields? && o.vals != [] {
      TurnGrew(fn, s, o.vals, m, o.u);
      var turn := BindTurn(fn, s, o.vals, o.u);
      if turn.Yields? {
        var st1 := st.(u := turn.u);
        BlockGrew(fn, s.body, m, st1, fuel);
        var r := Leave(ExecBlock(fn, s.body, st1, fuel), st.u.env);
        RangeEndGrew(fn, s, lab, m, r, fuel);
        assert RangeLoop(fn, s, lab, st, fuel) == EndRangeTurn(fn, s, lab, r, fuel);
      }
    }
  }

  lemma {:induction false} RangeEndGrew(fn: Fn, s: Stmt, lab: Name, m: set<Name>, r: R, fuel: nat)
    requires s.Range? && Sourced(s) && Construction.Mentions(s) <= m && fuel > 0
    ensures Grew(m, r.st.u, EndRangeTurn(fn, s, lab, r, fuel).st.u)
    decreases s, fuel, 2
  {
    if r.c.Normal? || (r.c.ContinueTo? && Mine(r.c.lab, lab)) { RangeGrew(fn, s, lab, m, r.st, fuel - 1); }
  }

  lemma {:induction false} GuardsGrew(fn: Fn, guards: seq<Expr>, tag: Val, index: int, m: set<Name>, u: User)
    requires forall e :: e in guards ==> Fields(e) <= m
    ensures Grew(m, u, Guards(fn, guards, tag, index, u).u)
    decreases |guards|
  {
    if guards != [] {
      EvalGrew(fn, guards[0], m, u);
      var o := EvalExpr(fn, guards[0], u);
      if o.Yields? { GuardsGrew(fn, guards[1..], tag, index, m, o.u); }
    }
  }

  lemma {:induction false} ChooseGrew(fn: Fn, cs: Clauses, tag: Val, index: int, m: set<Name>, u: User)
    requires Construction.ClausesMention(cs) <= m
    ensures Grew(m, u, Choose(fn, cs, tag, index, u).u)
    decreases cs
  {
    if cs.Clause? {
      if cs.isDefault { ChooseGrew(fn, cs.rest, tag, index + 1, m, u); }
      else {
        forall e, f | e in cs.guards && f in Fields(e) ensures f in m {
          assert f in Construction.ExprsMention(cs.guards);
        }
        GuardsGrew(fn, cs.guards, tag, index, m, u);
        var g := Guards(fn, cs.guards, tag, index, u);
        if g.Chosen? && g.index < 0 { ChooseGrew(fn, cs.rest, tag, index + 1, m, g.u); }
      }
    }
  }

  lemma {:induction false} CasesGrew(fn: Fn, cs: Clauses, tag: Val, lab: Name, m: set<Name>, st: State, fuel: nat)
    requires SourcedClauses(cs) && Construction.ClausesMention(cs) <= m
    ensures Grew(m, st.u, ExecCases(fn, cs, tag, lab, st, fuel).st.u)
    decreases cs, fuel, 2
  {
    ChooseGrew(fn, cs, tag, 0, m, st.u);
    var c := Choose(fn, cs, tag, 0, st.u);
    if c.Chosen? {
      var k := if c.index >= 0 then c.index else DefaultIndex(cs, 0);
      if k >= 0 { ClausesGrew(fn, cs, k, m, st.(u := c.u), fuel); }
    }
  }

  lemma {:induction false} ClausesGrew(fn: Fn, cs: Clauses, k: int, m: set<Name>, st: State, fuel: nat)
    requires SourcedClauses(cs) && Construction.ClausesMention(cs) <= m
    ensures Grew(m, st.u, RunClauses(fn, cs, k, st, fuel).st.u)
    decreases cs, fuel, 1
  {
    if cs.Clause? {
      if k > 0 { ClausesGrew(fn, cs.rest, k - 1, m, st, fuel); }
      else {
        BlockGrew(fn, cs.body, m, st, fuel);
        var r := Leave(ExecBlock(fn, cs.body, st, fuel), st.u.env);
        if r.c.Fell? { ClausesGrew(fn, cs.rest, 0, m, r.st, fuel); }
      }
    }
  }

  /** The body of a `try`, then its handler if that catches. */
  ghost function Handled(fn: Fn, s: Stmt, st: State, fuel: nat): R
    requires s.Try?
  {
    var b := Leave(ExecBlock(fn, s.body, st, fuel), st.u.env);
    if Catches(b.c, s.handler)
    then Leave(ExecBlock(fn, s.handler.body, b.st.(u := WithCaught(b.st.u, b.c.v)), fuel), st.u.env)
    else b
  }

  lemma {:induction false} HandledGrew(fn: Fn, s: Stmt, m: set<Name>, st: State, fuel: nat)
    requires s.Try? && Sourced(s) && Construction.Mentions(s) <= m
    ensures Grew(m, st.u, Handled(fn, s, st, fuel).st.u)
    decreases s, fuel, 3
  {
    BlockGrew(fn, s.body, m, st, fuel);
    var b := Leave(ExecBlock(fn, s.body, st, fuel), st.u.env);
    if Catches(b.c, s.handler) {
      BindGrew(["ghi_caught"], [b.c.v], b.st.u);
      BlockGrew(fn, s.handler.body, m, b.st.(u := WithCaught(b.st.u, b.c.v)), fuel);
    }
  }

  lemma {:induction false} TryGrew(fn: Fn, s: Stmt, m: set<Name>, st: State, fuel: nat)
    requires s.Try? && Sourced(s) && Construction.Mentions(s) <= m
    ensures Grew(m, st.u, ExecTry(fn, s, st, fuel).st.u)
    decreases s, fuel, 4
  {
    HandledGrew(fn, s, m, st, fuel);
    var h := Handled(fn, s, st, fuel);
    if !h.c.Stuck? && s.finalizer.Func? { BlockGrew(fn, s.finalizer.body, m, h.st, fuel); }
  }
}
