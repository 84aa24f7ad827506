/** Every run is a path: a run that ends, other than by an exception, with a field
    still unset goes the way some path does that leaves the field unset. */
module RunPaths {
  import opened Options
  import opened Syntax
  import opened Machine
  import opened Headers
  import opened ProgramPaths
  import opened Growth
  import Construction

  function WayOf(c: Comp): Way
    requires !c.Stuck?
  {
    match c
    case Normal => Through
    case BreakTo(l) => ByBreak(l)
    case ContinueTo(l) => ByContinue(l)
    case Fell => ByFall
    case Returned => ByReturn
    case Thrown(_, _) => ByThrow
  }

  predicate Lacks(f: Option<Name>, u: User) {
    f.Some? ==> f.value !in u.obj
  }

  ghost predicate Ended(f: Option<Name>, r: R) {
    !r.c.Stuck? && !r.c.Thrown? && Lacks(f, r.st.u)
  }

  lemma {:induction false} SetsStored(fn: Fn, lhs: seq<Lhs>, vals: seq<Val>, f: Name, u: User)
    requires Field(f) in lhs && StoreAll(fn, lhs, vals, u).Yields?
    ensures f in StoreAll(fn, lhs, vals, u).u.obj
    decreases |lhs|
  {
    var o := Store(fn, lhs[0], First(vals), u);
    if lhs[0] == Field(f) { StoreAllGrew(fn, lhs[1..], Rest(vals), {}, o.u); }
    else { SetsStored(fn, lhs[1..], Rest(vals), f, o.u); }
  }

  lemma BasicPath(fn: Fn, s: Stmt, lab: Name, f: Option<Name>, st: State, fuel: nat)
    requires Sourced(s) && Basic(s) && Ended(f, ExecBasic(fn, s, st, fuel))
    ensures Goes(s, lab, f, WayOf(ExecBasic(fn, s, st, fuel).c))
  {
    if s.Assign? {
      var o := EvalAll(fn, Operands(s.lhs) + s.rhs, st.u);
      var vals := if |Operands(s.lhs)| <= |o.vals| then o.vals[|Operands(s.lhs)|..] else [];
      if Sets(s.lhs, f) { SetsStored(fn, s.lhs, vals, f.value, o.u); }
    }
  }

  lemma {:induction false} RunIsPath(fn: Fn, s: Stmt, lab: Name, f: Option<Name>, st: State, fuel: nat)
    requires Sourced(s) && Ended(f, Exec(fn, s, lab, st, fuel))
    ensures Goes(s, lab, f, WayOf(Exec(fn, s, lab, st, fuel).c))
    decreases s, fuel, 5
  {
    if s.Scope? { BlockRunIsPath(fn, s.body, f, st, fuel); }
    else if s.If? || s.For? || s.Switch? { HeaderPath(fn, s, lab, f, st, fuel); }
    else if s.Range? {
      var o := EvalExpr(fn, s.over, st.u);
      RangePath(fn, s, lab, f, st.(u := o.u), fuel);
    }
    else if s.Labeled? {
      assert Exec(fn, s, lab, st, fuel) == Exec(fn, s.stmt, s.lab, st, fuel);
      RunIsPath(fn, s.stmt, s.lab, f, st, fuel);
    }
    else if s.Try? { TryPath(fn, s, lab, f, st, fuel); }
    else { LeafPath(fn, s, lab, f, st, fuel); }
  }

  lemma LeafPath(fn: Fn, s: Stmt, lab: Name, f: Option<Name>, st: State, fuel: nat)
    requires Sourced(s) && Ended(f, Exec(fn, s, lab, st, fuel))
    requires !s.Scope? && !s.If? && !s.For? && !s.Switch? && !s.Range? && !s.Labeled? && !s.Try?
    ensures Goes(s, lab, f, WayOf(Exec(fn, s, lab, st, fuel).c))
  {
    assert Exec(fn, s, lab, st, fuel) == ExecBasic(fn, s, st, fuel);
    BasicPath(fn, s, lab, f, st, fuel);
  }

  lemma {:induction false} BlockRunIsPath(fn: Fn, b: Block, f: Option<Name>, st: State, fuel: nat)
    requires SourcedBlock(b) && Ended(f, ExecBlock(fn, b, st, fuel))
    ensures BlockGoes(b, f, WayOf(ExecBlock(fn, b, st, fuel).c))
    decreases b, fuel, 4
  {
    if b.Cons? {
      var r := Exec(fn, b.head, NO_LABEL, st, fuel);
      if r.c.Normal? {
        BlockGrew(fn, b.tail, Construction.BlockMentions(b.tail), r.st, fuel);
        BlockRunIsPath(fn, b.tail, f, r.st, fuel);
      }
      RunIsPath(fn, b.head, NO_LABEL, f, st, fuel);
    }
  }

  lemma {:induction false} HeaderPath(fn: Fn, s: Stmt, lab: Name, f: Option<Name>, st: State, fuel: nat)
    requires (s.If? || s.For? || s.Switch?) && Sourced(s) && Ended(f, Exec(fn, s, lab, st, fuel))
    ensures Goes(s, lab, f, WayOf(Exec(fn, s, lab, st, fuel).c))
    decreases s, fuel, 4
  {
    HeaderFirst(fn, s, lab, st, fuel);
    var i := ExecBlock(fn, s.init, st, fuel);
    if i.c.Normal? {
      AfterHeaderGrew(fn, s, lab, Construction.Mentions(s), i.st, fuel);
      AfterHeaderPath(fn, s, lab, f, i.st, fuel);
    }
    BlockRunIsPath(fn, s.init, f, st, fuel);
    assert Goes(s, lab, f, WayOf(Exec(fn, s, lab, st, fuel).c)) ==
             HeaderGoes(s, s.init, lab, f, WayOf(Exec(fn, s, lab, st, fuel).c));
  }

  lemma {:induction false} AfterHeaderPath(fn: Fn, s: Stmt, lab: Name, f: Option<Name>, st: State, fuel: nat)
    requires (s.If? || s.For? || s.Switch?) && Sourced(s) && Ended(f, AfterHeader(fn, s, lab, st, fuel))
    ensures EntryGoes(s, lab, f, WayOf(AfterHeader(fn, s, lab, st, fuel).c))
    decreases s, fuel, 3
  {
    if s.If? {
      var o := EvalExpr(fn, s.test, st.u);
      BlockRunIsPath(fn, if First(o.vals) != 0 then s.thn else s.els, f, st.(u := o.u), fuel);
    }
    else if s.For? { LoopPath(fn, s, lab, f, st, fuel); }
    else {
      var o := EvalCond(fn, s.tag, st.u);
      CasesPath(fn, s, First(o.vals), lab, f, st.(u := o.u), fuel);
    }
  }

  lemma {:induction false} LoopPath(fn: Fn, s: Stmt, lab: Name, f: Option<Name>, st: State, fuel: nat)
    requires s.For? && Sourced(s) && Ended(f, Loop(fn, s, lab, st, fuel))
    ensures LoopGoes(s, lab, f, WayOf(Loop(fn, s, lab, st, fuel).c))
    decreases s, fuel, 2
  {
    var o := EvalCond(fn, s.cond, st.u);
    if First(o.vals) != 0 {
      var st1 := st.(u := o.u);
      var r := Leave(ExecBlock(fn, s.body, st1, fuel), st.u.env);
      LoopTurnGrew(fn, s, lab, Construction.Mentions(s), r, fuel);
      if !r.c.Stuck? && !r.c.Thrown? { BlockRunIsPath(fn, s.body, f, st1, fuel); }
      TurnPath(fn, s, lab, f, r, fuel);
    }
  }

  lemma {:induction false} TurnPath(fn: Fn, s: Stmt, lab: Name, f: Option<Name>, r: R, fuel: nat)
    requires s.For? && Sourced(s) && fuel > 0 && Ended(f, EndTurn(fn, s, lab, r, fuel))
    requires !r.c.Stuck? && !r.c.Thrown? ==> BlockGoes(s.body, f, WayOf(r.c))
    ensures LoopGoes(s, lab, f, WayOf(EndTurn(fn, s, lab, r, fuel).c))
    decreases s, fuel, 1
  {
    if !(r.c.BreakTo? && Mine(r.c.lab, lab)) && (r.c.Normal? || (r.c.ContinueTo? && Mine(r.c.lab, lab))) {
      assert EndTurn(fn, s, lab, r, fuel) == NextTurn(fn, s, lab, r.st, fuel);
      var p := ExecBlock(fn, s.post, r.st, fuel);
      if p.c.Normal? {
        LoopGrew(fn, s, lab, Construction.Mentions(s), p.st, fuel - 1);
        LoopPath(fn, s, lab, f, p.st, fuel - 1);
      } else { BlockRunIsPath(fn, s.post, f, r.st, fuel); }
    }
  }

  lemma {:induction false} RangePath(fn: Fn, s: Stmt, lab: Name, f: Option<Name>, st: State, fuel: nat)
    requires s.Range? && Sourced(s) && Ended(f, RangeLoop(fn, s, lab, st, fuel))
    ensures Goes(s, lab, f, WayOf(RangeLoop(fn, s, lab, st, fuel).c))
    decreases s, fuel, 3
  {
    var o := EvalExpr(fn, Expr.Next(s.over), st.u);
    if o.vals != [] {
      var turn := BindTurn(fn, s, o.vals, o.u);
      var r := Leave(ExecBlock(fn, s.body, st.(u := turn.u), fuel), st.u.env);
      assert turn.Yields? && RangeLoop(fn, s, lab, st, fuel) == EndRangeTurn(fn, s, lab, r, fuel);
      RangeTurnPath(fn, s, lab, f, o, turn, st, r, fuel);
    }
  }

  lemma {:induction false} RangeTurnPath(fn: Fn, s: Stmt, lab: Name, f: Option<Name>, o: Outcome, turn: Outcome,
                                         st: State, r: R, fuel: nat)
    requires s.Range? && Sourced(s) && fuel > 0 && Ended(f, EndRangeTurn(fn, s, lab, r, fuel))
    requires o.Yields? && turn == BindTurn(fn, s, o.vals, o.u) && turn.Yields?
    requires r == Leave(ExecBlock(fn, s.body, st.(u := turn.u), fuel), st.u.env)
    ensures Goes(s, lab, f, WayOf(EndRangeTurn(fn, s, lab, r, fuel).c))
    decreases s, fuel, 2
  {
    if !(r.c.BreakTo? && Mine(r.c.lab, lab)) {
      if r.c.Normal? || (r.c.ContinueTo? && Mine(r.c.lab, lab)) {
        assert EndRangeTurn(fn, s, lab, r, fuel) == RangeLoop(fn, s, lab, r.st, fuel - 1);
        RangePath(fn, s, lab, f, r.st, fuel - 1);
      } else {
        assert EndRangeTurn(fn, s, lab, r, fuel) == r;
        BlockGrew(fn, s.body, Construction.BlockMentions(s.body), st.(u := turn.u), fuel);
        BlockRunIsPath(fn, s.body, f, st.(u := turn.u), fuel);
        if Sets(s.lhs, f) { SetsStored(fn, s.lhs, o.vals, f.value, EvalAll(fn, Operands(s.lhs), o.u).u); }
      }
    }
  }

  lemma {:induction false} GuardsIndex(fn: Fn, guards: seq<Expr>, tag: Val, index: int, u: User)
    ensures var c := Guards(fn, guards, tag, index, u); c.Chosen? ==> c.index == -1 || c.index == index
    decreases |guards|
  {
    if guards != [] { GuardsIndex(fn, guards[1..], tag, index, EvalExpr(fn, guards[0], u).u); }
  }

  lemma {:induction false} ChosenInside(fn: Fn, cs: Clauses, tag: Val, index: nat, u: User)
    ensures var c := Choose(fn, cs, tag, index, u); c.Chosen? ==> -1 <= c.index < index + Count(cs)
    decreases cs
  {
    if cs.Clause? {
      ChosenInside(fn, cs.rest, tag, index + 1, if cs.isDefault then u else Guards(fn, cs.guards, tag, index, u).u);
      GuardsIndex(fn, cs.guards, tag, index, u);
    }
  }

  lemma {:induction false} CasesPath(fn: Fn, s: Stmt, tag: Val, lab: Name, f: Option<Name>, st: State, fuel: nat)
    requires s.Switch? && Sourced(s) && Ended(f, ExecCases(fn, s.clauses, tag, lab, st, fuel))
    ensures EntryGoes(s, lab, f, WayOf(ExecCases(fn, s.clauses, tag, lab, st, fuel).c))
    decreases s, fuel, 2
  {
    var c := Choose(fn, s.clauses, tag, 0, st.u);
    var k := if c.index >= 0 then c.index else DefaultIndex(s.clauses, 0);
    DefaultFound(s.clauses, 0);
    ChosenInside(fn, s.clauses, tag, 0, st.u);
    if k >= 0 { ClausesPath(fn, s.clauses, k, lab, f, st.(u := c.u), fuel); }
  }

  /** A `break` of the switch ends it. */
  ghost function Landed(r: R, lab: Name): R {
    if r.c.BreakTo? && Mine(r.c.lab, lab) then r.(c := Normal) else r
  }

  lemma {:induction false} ClausesPath(fn: Fn, cs: Clauses, k: nat, lab: Name, f: Option<Name>, st: State, fuel: nat)
    requires SourcedClauses(cs) && Ended(f, RunClauses(fn, cs, k, st, fuel)) && k < Count(cs)
    ensures ClausesGo(cs, lab, f, WayOf(Landed(RunClauses(fn, cs, k, st, fuel), lab).c))
    decreases cs, fuel, 1
  {
    var out := RunClauses(fn, cs, k, st, fuel);
    if k > 0 {
      assert out == RunClauses(fn, cs.rest, k - 1, st, fuel);
      ClausesPath(fn, cs.rest, k - 1, lab, f, st, fuel);
    } else {
      var r := Leave(ExecBlock(fn, cs.body, st, fuel), st.u.env);
      if r.c.Fell? && cs.rest.Clause? { ClausesPath(fn, cs.rest, 0, lab, f, r.st, fuel); }
      else {
        if r.c.Fell? { assert RunClauses(fn, cs.rest, 0, r.st, fuel) == R(Normal, r.st); }
        BlockRunIsPath(fn, cs.body, f, st, fuel);
      }
    }
  }

  lemma {:induction false} TryPath(fn: Fn, s: Stmt, lab: Name, f: Option<Name>, st: State, fuel: nat)
    requires s.Try? && Sourced(s) && Ended(f, Exec(fn, s, lab, st, fuel))
    ensures Goes(s, lab, f, WayOf(Exec(fn, s, lab, st, fuel).c))
    decreases s, fuel, 4
  {
    assert Exec(fn, s, lab, st, fuel) == ExecTry(fn, s, st, fuel);
    var h := Handled(fn, s, st, fuel);
    var r := ExecTry(fn, s, st, fuel);
    if s.finalizer.Func? {
      var x := Leave(ExecBlock(fn, s.finalizer.body, h.st, fuel), st.u.env);
      BlockGrew(fn, s.finalizer.body, Construction.BlockMentions(s.finalizer.body), h.st, fuel);
      if !h.c.Thrown? { HandledPath(fn, s, f, st, fuel); }
      BlockRunIsPath(fn, s.finalizer.body, f, h.st, fuel);
    } else { HandledPath(fn, s, f, st, fuel); }
    assert Goes(s, lab, f, WayOf(r.c)) == TryGoes(s, f, WayOf(r.c));
  }

  lemma {:induction false} HandledPath(fn: Fn, s: Stmt, f: Option<Name>, st: State, fuel: nat)
    requires s.Try? && Sourced(s) && Ended(f, Handled(fn, s, st, fuel))
    ensures Pends(s, f, WayOf(Handled(fn, s, st, fuel).c))
    decreases s, fuel, 3
  {
    var b := Leave(ExecBlock(fn, s.body, st, fuel), st.u.env);
    if Catches(b.c, s.handler) { BlockRunIsPath(fn, s.handler.body, f, b.st.(u := WithCaught(b.st.u, b.c.v)), fuel); }
    else { BlockRunIsPath(fn, s.body, f, st, fuel); }
  }

  // ----- early mentions -----

  /** The run mentioned `f` while it was unset, and nothing had done so before. */
  ghost predicate Newly(f: Name, u: User, w: User) {
    f !in u.early && f in w.early
  }

  lemma {:induction false} EvalAllNewly(fn: Fn, es: seq<Expr>, f: Name, u: User)
    requires Newly(f, u, EvalAll(fn, es, u).u)
    ensures Mentioned(es, f)
    decreases |es|
  {
    if f in Fields(es[0]) { assert es[0] in es; }
    else {
      var o := EvalExpr(fn, es[0], u);
      EvalAllNewly(fn, es[1..], f, o.u);
      var e :| e in es[1..] && f in Fields(e);
      assert e in es;
    }
  }

  lemma {:induction false} StoreAllNever(fn: Fn, lhs: seq<Lhs>, vals: seq<Val>, u: User)
    ensures StoreAll(fn, lhs, vals, u).u.early == u.early
    decreases |lhs|
  {
    if lhs != [] {
      var o := Store(fn, lhs[0], First(vals), u);
      if o.Yields? { StoreAllNever(fn, lhs[1..], Rest(vals), o.u); }
    }
  }

  lemma BasicMet(fn: Fn, s: Stmt, lab: Name, f: Name, st: State, fuel: nat)
    requires Sourced(s) && Basic(s) && Newly(f, st.u, ExecBasic(fn, s, st, fuel).st.u)
    ensures Meets(Made, s, lab, f)
  {
    if s.Assign? {
      var es := Operands(s.lhs) + s.rhs;
      var o := EvalAll(fn, es, st.u);
      if o.Yields? {
        StoreAllNever(fn, s.lhs, if |Operands(s.lhs)| <= |o.vals| then o.vals[|Operands(s.lhs)|..] else [], o.u);
      }
      EvalAllNewly(fn, es, f, st.u);
    }
    else if s.Declare? || s.Return? {
      var es := if s.Declare? then s.rhs else s.es;
      var o := EvalAll(fn, es, st.u);
      if o.Yields? && s.Declare? { BindGrew(s.names, o.vals, o.u); }
      else if o.Yields? && fn.slots.Named? { SetCellsGrew(fn.slots.cells, o.vals, o.u); }
      EvalAllNewly(fn, es, f, st.u);
    }
  }

  /** A field that a run mentions early is one that some path mentions early. */
  lemma {:induction false} EarlyIsMet(fn: Fn, s: Stmt, lab: Name, f: Name, st: State, fuel: nat)
    requires Sourced(s) && Newly(f, st.u, Exec(fn, s, lab, st, fuel).st.u)
    ensures Meets(Made, s, lab, f)
    decreases s, fuel, 5
  {
    if s.Scope? { BlockMet(fn, s.body, f, st, fuel); }
    else if s.If? || s.For? || s.Switch? { HeaderMet(fn, s, lab, f, st, fuel); }
    else if s.Range? {
      var o := EvalExpr(fn, s.over, st.u);
      if o.Yields? && f !in o.u.early { RangeMet(fn, s, lab, f, st.(u := o.u), fuel); }
    }
    else if s.Labeled? {
      assert Exec(fn, s, lab, st, fuel) == Exec(fn, s.stmt, s.lab, st, fuel);
      EarlyIsMet(fn, s.stmt, s.lab, f, st, fuel);
    }
    else if s.Try? {
      assert Exec(fn, s, lab, st, fuel) == ExecTry(fn, s, st, fuel);
      TryMet(fn, s, lab, f, st, fuel);
    }
    else {
      assert Exec(fn, s, lab, st, fuel) == ExecBasic(fn, s, st, fuel);
      BasicMet(fn, s, lab, f, st, fuel);
    }
  }

  lemma {:induction false} BlockMet(fn: Fn, b: Block, f: Name, st: State, fuel: nat)
    requires SourcedBlock(b) && Newly(f, st.u, ExecBlock(fn, b, st, fuel).st.u)
    ensures BlockMeets(Made, b, f)
    decreases b, fuel, 4
  {
    var r := Exec(fn, b.head, NO_LABEL, st, fuel);
    if f in r.st.u.early { EarlyIsMet(fn, b.head, NO_LABEL, f, st, fuel); }
    else {
      BlockMet(fn, b.tail, f, r.st, fuel);
      BlockGrew(fn, b.tail, Construction.BlockMentions(b.tail), r.st, fuel);
      RunIsPath(fn, b.head, NO_LABEL, Some(f), st, fuel);
    }
  }

  lemma {:induction false} HeaderMet(fn: Fn, s: Stmt, lab: Name, f: Name, st: State, fuel: nat)
    requires (s.If? || s.For? || s.Switch?) && Sourced(s) && Newly(f, st.u, Exec(fn, s, lab, st, fuel).st.u)
    ensures Meets(Made, s, lab, f)
    decreases s, fuel, 4
  {
    HeaderFirst(fn, s, lab, st, fuel);
    var i := ExecBlock(fn, s.init, st, fuel);
    if f in i.st.u.early { BlockMet(fn, s.init, f, st, fuel); }
    else {
      AfterHeaderGrew(fn, s, lab, Construction.Mentions(s), i.st, fuel);
      BlockRunIsPath(fn, s.init, Some(f), st, fuel);
      AfterHeaderMet(fn, s, lab, f, i.st, fuel);
    }
  }

  lemma {:induction false} AfterHeaderMet(fn: Fn, s: Stmt, lab: Name, f: Name, st: State, fuel: nat)
    requires (s.If? || s.For? || s.Switch?) && Sourced(s) && Newly(f, st.u, AfterHeader(fn, s, lab, st, fuel).st.u)
    ensures EntryMeets(Made, s, lab, f)
    decreases s, fuel, 3
  {
    if s.If? {
      var o := EvalExpr(fn, s.test, st.u);
      if o.Yields? && f !in o.u.early {
        BlockMet(fn, if First(o.vals) != 0 then s.thn else s.els, f, st.(u := o.u), fuel);
      }
    }
    else if s.For? { LoopMet(fn, s, lab, f, st, fuel); }
    else {
      var o := EvalCond(fn, s.tag, st.u);
      if o.Yields? && f !in o.u.early { CasesMet(fn, s.clauses, First(o.vals), lab, f, st.(u := o.u), fuel); }
    }
  }

  lemma {:induction false} LoopMet(fn: Fn, s: Stmt, lab: Name, f: Name, st: State, fuel: nat)
    requires s.For? && Sourced(s) && Newly(f, st.u, Loop(fn, s, lab, st, fuel).st.u)
    ensures EntryMeets(Made, s, lab, f)
    decreases s, fuel, 2
  {
    var o := EvalCond(fn, s.cond, st.u);
    if o.Yields? && f !in o.u.early {
      var st1 := st.(u := o.u);
      var r := Leave(ExecBlock(fn, s.body, st1, fuel), st.u.env);
      assert Loop(fn, s, lab, st, fuel) == EndTurn(fn, s, lab, r, fuel);
      if f in r.st.u.early { BlockMet(fn, s.body, f, st1, fuel); }
      else {
        LoopTurnGrew(fn, s, lab, Construction.Mentions(s), r, fuel);
        BlockRunIsPath(fn, s.body, Some(f), st1, fuel);
        PostMet(fn, s, lab, f, r, fuel);
      }
    }
  }

  lemma {:induction false} PostMet(fn: Fn, s: Stmt, lab: Name, f: Name, r: R, fuel: nat)
    requires s.For? && Sourced(s) && fuel > 0 && Newly(f, r.st.u, EndTurn(fn, s, lab, r, fuel).st.u)
    requires !r.c.Stuck? && !r.c.Thrown? ==> BlockGoes(s.body, Some(f), WayOf(r.c))
    ensures EntryMeets(Made, s, lab, f)
    decreases s, fuel, 1
  {
    assert EndTurn(fn, s, lab, r, fuel) == NextTurn(fn, s, lab, r.st, fuel);
    var p := ExecBlock(fn, s.post, r.st, fuel);
    if f in p.st.u.early { BlockMet(fn, s.post, f, r.st, fuel); } else { LoopMet(fn, s, lab, f, p.st, fuel - 1); }
  }

  lemma {:induction false} RangeMet(fn: Fn, s: Stmt, lab: Name, f: Name, st: State, fuel: nat)
    requires s.Range? && Sourced(s) && Newly(f, st.u, RangeLoop(fn, s, lab, st, fuel).st.u)
    ensures Meets(Made, s, lab, f)
    decreases s, fuel, 3
  {
    var o := EvalExpr(fn, Expr.Next(s.over), st.u);
    var turn := BindTurn(fn, s, o.vals, o.u);
    if s.lhs == [] { BindGrew(s.names, o.vals, o.u); }
    else {
      var p := EvalAll(fn, Operands(s.lhs), o.u);
      if p.Yields? { StoreAllNever(fn, s.lhs, o.vals, p.u); }
      if f in p.u.early { EvalAllNewly(fn, Operands(s.lhs), f, o.u); }
    }
    if turn.Yields? && f !in turn.u.early {
      var r := Leave(ExecBlock(fn, s.body, st.(u := turn.u), fuel), st.u.env);
      assert RangeLoop(fn, s, lab, st, fuel) == EndRangeTurn(fn, s, lab, r, fuel);
      if f in r.st.u.early { RangeBodyMet(fn, s, f, o, turn, st, fuel); }
      else { RangeMet(fn, s, lab, f, r.st, fuel - 1); }
    }
  }

  lemma {:induction false} RangeBodyMet(fn: Fn, s: Stmt, f: Name, o: Outcome, turn: Outcome, st: State, fuel: nat)
    requires s.Range? && Sourced(s) && o.Yields? && turn == BindTurn(fn, s, o.vals, o.u) && turn.Yields?
    requires Newly(f, turn.u, ExecBlock(fn, s.body, st.(u := turn.u), fuel).st.u)
    ensures !Sets(s.lhs, Some(f)) && BlockMeets(Made, s.body, f)
    decreases s, fuel, 2
  {
    BlockMet(fn, s.body, f, st.(u := turn.u), fuel);
    BlockGrew(fn, s.body, Construction.BlockMentions(s.body), st.(u := turn.u), fuel);
    if Sets(s.lhs, Some(f)) { SetsStored(fn, s.lhs, o.vals, f, EvalAll(fn, Operands(s.lhs), o.u).u); }
  }

  lemma {:induction false} GuardsMet(fn: Fn, guards: seq<Expr>, tag: Val, index: int, f: Name, u: User)
    requires Newly(f, u, Guards(fn, guards, tag, index, u).u)
    ensures Mentioned(guards, f)
    decreases |guards|
  {
    if f in Fields(guards[0]) { assert guards[0] in guards; }
    else {
      GuardsMet(fn, guards[1..], tag, index, f, EvalExpr(fn, guards[0], u).u);
      var e :| e in guards[1..] && f in Fields(e);
      assert e in guards;
    }
  }

  lemma {:induction false} ChooseMet(fn: Fn, cs: Clauses, tag: Val, index: int, f: Name, u: User)
    requires Newly(f, u, Choose(fn, cs, tag, index, u).u)
    ensures ClausesMeet(Made, cs, f)
    decreases cs
  {
    if cs.isDefault { ChooseMet(fn, cs.rest, tag, index + 1, f, u); }
    else {
      var g := Guards(fn, cs.guards, tag, index, u);
      if f in g.u.early {
        GuardsMet(fn, cs.guards, tag, index, f, u);
      } else {
        ChooseMet(fn, cs.rest, tag, index + 1, f, g.u);
      }
    }
  }

  lemma {:induction false} CasesMet(fn: Fn, cs: Clauses, tag: Val, lab: Name, f: Name, st: State, fuel: nat)
    requires SourcedClauses(cs) && Newly(f, st.u, ExecCases(fn, cs, tag, lab, st, fuel).st.u)
    ensures ClausesMeet(Made, cs, f)
    decreases cs, fuel, 2
  {
    var c := Choose(fn, cs, tag, 0, st.u);
    if f in c.u.early { ChooseMet(fn, cs, tag, 0, f, st.u); }
    else { ClausesMet(fn, cs, if c.index >= 0 then c.index else DefaultIndex(cs, 0), f, st.(u := c.u), fuel); }
  }

  lemma {:induction false} ClausesMet(fn: Fn, cs: Clauses, k: int, f: Name, st: State, fuel: nat)
    requires SourcedClauses(cs) && Newly(f, st.u, RunClauses(fn, cs, k, st, fuel).st.u)
    ensures ClausesMeet(Made, cs, f)
    decreases cs, fuel, 1
  {
    if k > 0 { ClausesMet(fn, cs.rest, k - 1, f, st, fuel); }
    else {
      var r := Leave(ExecBlock(fn, cs.body, st, fuel), st.u.env);
      if f in r.st.u.early { BlockMet(fn, cs.body, f, st, fuel); } else { ClausesMet(fn, cs.rest, 0, f, r.st, fuel); }
    }
  }

  lemma {:induction false} TryMet(fn: Fn, s: Stmt, lab: Name, f: Name, st: State, fuel: nat)
    requires s.Try? && Sourced(s) && Newly(f, st.u, ExecTry(fn, s, st, fuel).st.u)
    ensures Meets(Made, s, lab, f)
    decreases s, fuel, 4
  {
    var h := Handled(fn, s, st, fuel);
    if f in h.st.u.early { HandledMet(fn, s, lab, f, st, fuel); }
    else {
      BlockMet(fn, s.finalizer.body, f, h.st, fuel);
      BlockGrew(fn, s.finalizer.body, Construction.BlockMentions(s.finalizer.body), h.st, fuel);
      if h.c.Thrown? { assert Pends(s, Some(f), ByThrow); } else { HandledPath(fn, s, Some(f), st, fuel); }
    }
  }

  lemma {:induction false} HandledMet(fn: Fn, s: Stmt, lab: Name, f: Name, st: State, fuel: nat)
    requires s.Try? && Sourced(s) && Newly(f, st.u, Handled(fn, s, st, fuel).st.u)
    ensures Meets(Made, s, lab, f)
    decreases s, fuel, 3
  {
    var b := Leave(ExecBlock(fn, s.body, st, fuel), st.u.env);
    if f in b.st.u.early { BlockMet(fn, s.body, f, st, fuel); }
    else {
      BindGrew(["ghi_caught"], [b.c.v], b.st.u);
      BlockMet(fn, s.handler.body, f, b.st.(u := WithCaught(b.st.u, b.c.v)), fuel);
    }
  }
}
