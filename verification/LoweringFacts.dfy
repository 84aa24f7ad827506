/** Lowering preserves meaning: generated code started with `ghi_flow == 0`
    reaches the completion and the state that the source reaches. */
module LoweringFacts {
  import opened Syntax
  import opened Machine
  import opened Headers
  import opened Lowering
  import opened Legal
  import opened ProgramPaths
  import opened Growth

  /** The point a fragment is generated for: closure depth, enclosing targets,
      where `defer` goes, the defers pending outside this closure, the closure's
      own frame, and the variables declared so far, which may hide results. */
  datatype Point = Point(
    fn: Fn, scoped: bool, d: nat, ts: seq<Target>, outer: seq<Deferred>, frame: Frame, hidden: set<Name>)

  predicate OnlyCallbacks(ds: seq<Deferred>) {
    forall i :: 0 <= i < |ds| ==> ds[i].Callback?
  }

  /** Slot names denote the result cells. */
  ghost predicate Visible(fn: Fn, env: map<Name, nat>) {
    VisibleBut(fn, {}, env)
  }

  /** ... unless they are hidden. */
  ghost predicate VisibleBut(fn: Fn, hidden: set<Name>, env: map<Name, nat>) {
    || fn.slots.Unnamed?
    || (|fn.slots.names| == |fn.slots.cells|
        && forall i :: 0 <= i < |fn.slots.names| && fn.slots.names[i] !in hidden ==>
             fn.slots.names[i] in env && env[fn.slots.names[i]] == fn.slots.cells[i])
  }

  lemma AllVisible(fn: Fn, hidden: set<Name>, env: map<Name, nat>)
    requires VisibleBut(fn, hidden, env) && hidden !! SlotNames(fn.slots)
    ensures Visible(fn, env)
  {
    if fn.slots.Named? {
      forall i | 0 <= i < |fn.slots.names| ensures fn.slots.names[i] !in hidden {
        assert fn.slots.names[i] in SlotNames(fn.slots);
      }
    }
  }

  ghost predicate DefersAgree(p: Point, s: State, t: State) {
    || (p.scoped && s.frame.defers == AsCallbacks(t.registered) && t.frame == p.frame)
    || (!p.scoped && p.d > 0 && s.frame.defers == p.outer && t.frame == p.frame)
    || (!p.scoped && p.d == 0 && s.frame.defers == t.frame.defers && OnlyCallbacks(s.frame.defers))
  }

  ghost predicate Agree(p: Point, s: State, t: State) {
    s.u == t.u && DefersAgree(p, s, t)
  }

  ghost predicate Calm(p: Point, s: State, t: State) {
    Agree(p, s, t) && t.flow == 0 && s.results == t.locals
  }

  ghost predicate Start(p: Point, s: State, t: State) {
    Calm(p, s, t) && VisibleBut(p.fn, p.hidden, s.u.env)
  }

  /** A source jump to target `i` appears as a native jump at the target's own
      depth, and as a pending signal and a closure return below it. */
  ghost predicate JumpAgrees(p: Point, i: int, code: int, native: bool, rt: R) {
    && 0 <= i < |p.ts|
    && p.ts[i].depth <= p.d
    && ((p.ts[i].depth == p.d && native && rt.st.flow == 0)
        || (p.ts[i].depth != p.d && rt.c == Returned && rt.st.flow == code))
  }

  ghost predicate ReturnAgrees(p: Point, rs: R, rt: R) {
    && rt.c == Returned
    && ((p.d == 0 && (p.fn.slots.Unnamed? && p.fn.slots.count > 0 ==> rs.st.results == rt.st.results))
        || (p.d > 0 && rt.st.flow == RETURN_CODE && rs.st.results == rt.st.locals))
  }

  /** How a completion of the source shows in the generated code. */
  ghost predicate Shows(p: Point, rs: R, rt: R) {
    match rs.c
    case Returned => ReturnAgrees(p, rs, rt)
    case Thrown(_, _) => rt.c == rs.c && rs.st.results == rt.st.locals
    case BreakTo(l) =>
      && rs.st.results == rt.st.locals && FindBreak(p.ts, l) >= 0
      && JumpAgrees(p, FindBreak(p.ts, l), p.ts[FindBreak(p.ts, l)].breakCode,
                    rt.c.BreakTo? && FindBreak(p.ts, rt.c.lab) == FindBreak(p.ts, l), rt)
    case ContinueTo(l) =>
      && rs.st.results == rt.st.locals && FindContinue(p.ts, l) >= 0
      && JumpAgrees(p, FindContinue(p.ts, l), p.ts[FindContinue(p.ts, l)].continueCode,
                    rt.c.ContinueTo? && FindContinue(p.ts, rt.c.lab) == FindContinue(p.ts, l), rt)
    case _ => rt.c == rs.c && rt.st.flow == 0 && rs.st.results == rt.st.locals
  }

  ghost predicate After(p: Point, rs: R, rt: R) {
    || (rs.c.Stuck? && rt.c.Stuck?)
    || (!rs.c.Stuck? && Agree(p, rs.st, rt.st) && Shows(p, rs, rt))
  }

  /** Flow codes are distinct and above the return code; targets are listed from
      outermost to innermost; labels are distinct within one closure. */
  ghost predicate TargetsOk(ts: seq<Target>, d: nat, n: int) {
    && FIRST_CODE <= n
    && (forall i :: 0 <= i < |ts| ==>
          && FIRST_CODE <= ts[i].breakCode < n && ts[i].continueCode < n && ts[i].depth <= d
          && (ts[i].continueCode == 0 || ts[i].continueCode == ts[i].breakCode + 1))
    && (forall i, j :: 0 <= i < j < |ts| ==>
          && ts[i].depth <= ts[j].depth
          && ts[i].breakCode < ts[j].breakCode && ts[i].continueCode < ts[j].breakCode
          && (ts[i].depth == ts[j].depth && ts[i].name != NO_LABEL ==> ts[i].name != ts[j].name))
  }

  /** The labels in force at depth `d`. */
  ghost function Active(ts: seq<Target>, d: nat): set<Name> {
    set i | 0 <= i < |ts| && ts[i].depth == d && ts[i].name != NO_LABEL :: ts[i].name
  }

  ghost predicate Ready(p: Point, s: State, t: State, n: int) {
    && TargetsOk(p.ts, p.d, n)
    && Start(p, s, t)
    && "ghi_caught" !in SlotNames(p.fn.slots)
  }

  ghost predicate Fits(p: Point, fall: bool, s: Stmt, lab: Name, n: int, k: nat) {
    && LegalStmt(p.fn.slots, s, lab, Active(p.ts, p.d), fall)
    && Shown(SlotNames(p.fn.slots), s, p.d, p.hidden)
    && (p.scoped || !DeepDefer(s, p.d))
    && LowerStmt(p.fn.slots, p.scoped, s, p.d, p.ts, lab, n, k).ok
  }

  ghost predicate FitsBlock(p: Point, fall: bool, b: Block, n: int, k: nat) {
    && LegalBlock(p.fn.slots, b, Active(p.ts, p.d), fall)
    && ShownBlock(SlotNames(p.fn.slots), b, p.d, p.hidden)
    && (p.scoped || !DeepDeferBlock(b, p.d))
    && LowerBlock(p.fn.slots, p.scoped, b, p.d, p.ts, n, k).ok
  }

  ghost predicate FitsClauses(p: Point, cs: Clauses, n: int, k: nat) {
    && LegalClauses(p.fn.slots, cs, Active(p.ts, p.d))
    && ShownClauses(SlotNames(p.fn.slots), cs, p.d, p.hidden)
    && (p.scoped || !DeepDeferClauses(cs, p.d))
    && LowerClauses(p.fn.slots, p.scoped, cs, p.d, p.ts, n, k).ok
  }

  function StmtCode(p: Point, s: Stmt, lab: Name, n: int, k: nat): Block {
    Wrapped(LowerStmt(p.fn.slots, p.scoped, s, p.d, p.ts, lab, n, k).code, lab)
  }

  function BlockLow(p: Point, b: Block, n: int, k: nat): Low {
    LowerBlock(p.fn.slots, p.scoped, b, p.d, p.ts, n, k)
  }

  function ClausesLow(p: Point, cs: Clauses, n: int, k: nat): LowClauses {
    LowerClauses(p.fn.slots, p.scoped, cs, p.d, p.ts, n, k)
  }

  // ----- small facts about the machine -----

  lemma {:induction false} ExecAppend(fn: Fn, a: Block, b: Block, st: State, fuel: nat)
    ensures ExecBlock(fn, Append(a, b), st, fuel) ==
            var r := ExecBlock(fn, a, st, fuel);
            if r.c.Normal? then ExecBlock(fn, b, r.st, fuel) else r
  {
    match a
    case Nil =>
    case Cons(h, t) =>
      var r := Exec(fn, h, NO_LABEL, st, fuel);
      if r.c.Normal? { ExecAppend(fn, t, b, r.st, fuel); }
  }

  lemma BindEnv(names: seq<Name>, vals: seq<Val>, u: User, x: Name)
    requires x !in names
    ensures x in Bind(names, vals, u).env <==> x in u.env
    ensures x in u.env ==> Bind(names, vals, u).env[x] == u.env[x]
    decreases |names|
  {
    if names != [] {
      BindEnv(names[1..], Rest(vals),
              u.(env := u.env[names[0] := u.next], heap := u.heap[u.next := First(vals)], next := u.next + 1), x);
    }
  }

  lemma VisibleBind(fn: Fn, hidden: set<Name>, names: seq<Name>, vals: seq<Val>, u: User)
    requires VisibleBut(fn, hidden, u.env)
    ensures VisibleBut(fn, hidden + (set x | x in names), Bind(names, vals, u).env)
  {
    if fn.slots.Named? {
      forall i | 0 <= i < |fn.slots.names| && fn.slots.names[i] !in hidden + (set x | x in names)
        ensures fn.slots.names[i] in Bind(names, vals, u).env
        ensures Bind(names, vals, u).env[fn.slots.names[i]] == fn.slots.cells[i]
      {
        BindEnv(names, vals, u, fn.slots.names[i]);
      }
    }
  }

  /** A statement that ends normally hides no more than it declares. */
  lemma {:induction false} StmtVisible(fn: Fn, hidden: set<Name>, s: Stmt, lab: Name, st: State, fuel: nat)
    requires Sourced(s) && VisibleBut(fn, hidden, st.u.env)
    ensures var r := Exec(fn, s, lab, st, fuel); r.c.Normal? ==> VisibleBut(fn, hidden + Declared(s), r.st.u.env)
    decreases s
  {
    if s.Labeled? {
      assert Exec(fn, s, lab, st, fuel) == Exec(fn, s.stmt, s.lab, st, fuel);
      StmtVisible(fn, hidden, s.stmt, s.lab, st, fuel);
    }
    else if s.Declare? { DeclareVisible(fn, hidden, s, lab, st, fuel); }
    else if Exec(fn, s, lab, st, fuel).c.Normal? {
      EnvKept(fn, s, lab, st, fuel);
      assert hidden + {} == hidden;
    }
  }

  lemma DeclareVisible(fn: Fn, hidden: set<Name>, s: Stmt, lab: Name, st: State, fuel: nat)
    requires s.Declare? && VisibleBut(fn, hidden, st.u.env)
    ensures var r := Exec(fn, s, lab, st, fuel); r.c.Normal? ==> VisibleBut(fn, hidden + Declared(s), r.st.u.env)
  {
    EvalAllEnv(fn, s.rhs, st.u);
    var o := EvalAll(fn, s.rhs, st.u);
    assert Exec(fn, s, lab, st, fuel) == ExecBasic(fn, s, st, fuel);
    if o.Yields? { VisibleBind(fn, hidden, s.names, o.vals, o.u); }
  }

  lemma EnvKept(fn: Fn, s: Stmt, lab: Name, st: State, fuel: nat)
    requires Sourced(s) && !s.Declare? && !s.Labeled? && Exec(fn, s, lab, st, fuel).c.Normal?
    ensures Exec(fn, s, lab, st, fuel).st.u.env == st.u.env
  {
    if s.Range? {
      var o := EvalExpr(fn, s.over, st.u);
      RangeEnv(fn, s, lab, st.(u := o.u), fuel);
    }
    else if s.If? || s.For? || s.Switch? { HeaderFirst(fn, s, lab, st, fuel); }
    else if !s.Scope? && !s.Try? { BasicEnv(fn, s, st, fuel); }
  }

  lemma BasicEnv(fn: Fn, s: Stmt, st: State, fuel: nat)
    requires Sourced(s) && !s.Declare? && !s.Labeled? && !s.Scope? && !s.If? && !s.For? && !s.Range? && !s.Switch?
             && !s.Try?
    ensures var r := ExecBasic(fn, s, st, fuel); r.c.Normal? ==> r.st.u.env == st.u.env
  {
    if s.Assign? { AssignAllEnv(fn, s.lhs, s.rhs, st.u); }
  }

  lemma {:induction false} RangeEnv(fn: Fn, s: Stmt, lab: Name, st: State, fuel: nat)
    requires s.Range?
    ensures RangeLoop(fn, s, lab, st, fuel).st.u.env == st.u.env
    decreases fuel
  {
    var o := EvalExpr(fn, Next(s.over), st.u);
    if fuel > 0 && o.Yields? && o.vals != [] {
      var turn := BindTurn(fn, s, o.vals, o.u);
      if turn.Yields? {
        var r := Leave(ExecBlock(fn, s.body, st.(u := turn.u), fuel), st.u.env);
        RangeEnv(fn, s, lab, r.st, fuel - 1);
      }
    }
  }

  lemma {:induction false} BlockVisible(fn: Fn, hidden: set<Name>, b: Block, st: State, fuel: nat)
    requires SourcedBlock(b) && VisibleBut(fn, hidden, st.u.env)
    ensures var r := ExecBlock(fn, b, st, fuel); r.c.Normal? ==> VisibleBut(fn, hidden + BlockDeclared(b), r.st.u.env)
    decreases b
  {
    if b.Nil? { assert hidden + {} == hidden; }
    else {
      StmtVisible(fn, hidden, b.head, NO_LABEL, st, fuel);
      var r := Exec(fn, b.head, NO_LABEL, st, fuel);
      if r.c.Normal? {
        BlockVisible(fn, hidden + Declared(b.head), b.tail, r.st, fuel);
        assert hidden + Declared(b.head) + BlockDeclared(b.tail) == hidden + BlockDeclared(b);
      }
    }
  }

  lemma EvalAllEnv(fn: Fn, es: seq<Expr>, u: User)
    ensures EvalAll(fn, es, u).u.env == u.env
    decreases |es|
  {
    if es != [] {
      var o := EvalExpr(fn, es[0], u);
      if o.Yields? { EvalAllEnv(fn, es[1..], o.u); }
    }
  }

  lemma StoreAllEnv(fn: Fn, lhs: seq<Lhs>, vals: seq<Val>, u: User)
    ensures StoreAll(fn, lhs, vals, u).u.env == u.env
    decreases |lhs|
  {
    if lhs != [] {
      var o := Store(fn, lhs[0], First(vals), u);
      if o.Yields? { StoreAllEnv(fn, lhs[1..], Rest(vals), o.u); }
    }
  }

  lemma AssignAllEnv(fn: Fn, lhs: seq<Lhs>, rhs: seq<Expr>, u: User)
    ensures AssignAll(fn, lhs, rhs, u).u.env == u.env
  {
    EvalAllEnv(fn, Operands(lhs) + rhs, u);
    var o := EvalAll(fn, Operands(lhs) + rhs, u);
    if o.Yields? {
      StoreAllEnv(fn, lhs, if |Operands(lhs)| <= |o.vals| then o.vals[|Operands(lhs)|..] else [], o.u);
    }
  }

  lemma SetCellsEnv(cells: seq<nat>, vals: seq<Val>, u: User)
    ensures SetCells(cells, vals, u).env == u.env
    decreases |cells|
  {
    if cells != [] { SetCellsEnv(cells[1..], Rest(vals), u.(heap := u.heap[cells[0] := First(vals)])); }
  }

  lemma GuardsEnv(fn: Fn, guards: seq<Expr>, tag: Val, index: int, u: User)
    ensures Guards(fn, guards, tag, index, u).u.env == u.env
    decreases |guards|
  {
    if guards != [] {
      var o := EvalExpr(fn, guards[0], u);
      if o.Yields? && First(o.vals) != tag { GuardsEnv(fn, guards[1..], tag, index, o.u); }
    }
  }

  lemma ChooseEnv(fn: Fn, cs: Clauses, tag: Val, index: int, u: User)
    ensures Choose(fn, cs, tag, index, u).u.env == u.env
    decreases cs
  {
    if cs.Clause? {
      if cs.isDefault { ChooseEnv(fn, cs.rest, tag, index + 1, u); }
      else {
        GuardsEnv(fn, cs.guards, tag, index, u);
        var g := Guards(fn, cs.guards, tag, index, u);
        if g.Chosen? && g.index < 0 { ChooseEnv(fn, cs.rest, tag, index + 1, g.u); }
      }
    }
  }

  /** Choosing a clause looks at the guards only, which lowering leaves alone. */
  lemma {:induction false} ChooseLowered(p: Point, cs: Clauses, n: int, k: nat, tag: Val, index: int, u: User)
    ensures var low := LowerClauses(p.fn.slots, p.scoped, cs, p.d, p.ts, n, k).clauses;
            && Choose(p.fn, low, tag, index, u) == Choose(p.fn, cs, tag, index, u)
            && DefaultIndex(low, index) == DefaultIndex(cs, index)
    decreases cs
  {
    if cs.Clause? {
      var b := BlockLow(p, cs.body, n, k);
      ChooseLowered(p, cs.rest, b.nextCode, b.nextTemp, tag, index + 1, u);
      if !cs.isDefault {
        var g := Guards(p.fn, cs.guards, tag, index, u);
        if g.Chosen? { ChooseLowered(p, cs.rest, b.nextCode, b.nextTemp, tag, index + 1, g.u); }
      }
    }
  }

  // ----- counters -----

  lemma {:induction false} LowerGrows(slots: Slots, scoped: bool, s: Stmt, d: nat, ts: seq<Target>, lab: Name,
                                      n: int, k: nat)
    ensures n <= LowerStmt(slots, scoped, s, d, ts, lab, n, k).nextCode
    decreases s, 1
  {
    if s.Scope? { LowerBlockGrows(slots, scoped, s.body, d, ts, n, k); }
    else if s.If? { LowerIfGrows(slots, scoped, s, d, ts, n, k); }
    else if s.For? { LowerForGrows(slots, scoped, s, d, ts, lab, n, k); }
    else if s.Range? { LowerBlockGrows(slots, scoped, s.body, d, ts + [Target(lab, d, n, n + 1)], n + 2, k); }
    else if s.Switch? { LowerSwitchGrows(slots, scoped, s, d, ts, lab, n, k); }
    else if s.Labeled? { LowerGrows(slots, scoped, s.stmt, d, ts, s.lab, n, k); }
    else if s.Try? { LowerTryGrows(slots, scoped, s, d, ts, n, k); }
  }

  lemma {:induction false} LowerIfGrows(slots: Slots, scoped: bool, s: Stmt, d: nat, ts: seq<Target>, n: int, k: nat)
    requires s.If?
    ensures n <= LowerIf(slots, scoped, s, d, ts, n, k).nextCode
    decreases s, 0
  {
    var i := LowerBlock(slots, scoped, s.init, d, ts, n, k);
    var t := LowerBlock(slots, scoped, s.thn, d, ts, i.nextCode, i.nextTemp);
    LowerBlockGrows(slots, scoped, s.init, d, ts, n, k);
    LowerBlockGrows(slots, scoped, s.thn, d, ts, i.nextCode, i.nextTemp);
    LowerBlockGrows(slots, scoped, s.els, d, ts, t.nextCode, t.nextTemp);
  }

  lemma {:induction false} LowerForGrows(slots: Slots, scoped: bool, s: Stmt, d: nat, ts: seq<Target>, lab: Name,
                                         n: int, k: nat)
    requires s.For?
    ensures n <= LowerFor(slots, scoped, s, d, ts, lab, n, k).nextCode
    decreases s, 0
  {
    var i := LowerBlock(slots, scoped, s.init, d, ts, n, k);
    var q := LowerBlock(slots, scoped, s.post, d, ts, i.nextCode, i.nextTemp);
    LowerBlockGrows(slots, scoped, s.init, d, ts, n, k);
    LowerBlockGrows(slots, scoped, s.post, d, ts, i.nextCode, i.nextTemp);
    LowerBlockGrows(slots, scoped, s.body, d, ts + [Target(lab, d, q.nextCode, q.nextCode + 1)], q.nextCode + 2,
                    q.nextTemp);
  }

  lemma {:induction false} LowerSwitchGrows(slots: Slots, scoped: bool, s: Stmt, d: nat, ts: seq<Target>, lab: Name,
                                            n: int, k: nat)
    requires s.Switch?
    ensures n <= LowerSwitch(slots, scoped, s, d, ts, lab, n, k).nextCode
    decreases s, 0
  {
    var i := LowerBlock(slots, scoped, s.init, d, ts, n, k);
    LowerBlockGrows(slots, scoped, s.init, d, ts, n, k);
    LowerClausesGrows(slots, scoped, s.clauses, d, ts + [Target(lab, d, i.nextCode, 0)], i.nextCode + 1, i.nextTemp);
  }

  lemma {:induction false} LowerTryGrows(slots: Slots, scoped: bool, s: Stmt, d: nat, ts: seq<Target>, n: int, k: nat)
    requires s.Try?
    ensures n <= LowerTry(slots, scoped, s, d, ts, n, k).nextCode
    decreases s, 0
  {
    var b := LowerBlock(slots, scoped, s.body, d + 1, ts, n, k);
    var h := LowerClosure(slots, scoped, s.handler, d + 1, ts, b.nextCode, b.nextTemp);
    LowerBlockGrows(slots, scoped, s.body, d + 1, ts, n, k);
    LowerClosureGrows(slots, scoped, s.handler, d + 1, ts, b.nextCode, b.nextTemp);
    LowerClosureGrows(slots, scoped, s.finalizer, d + 1, ts, h.nextCode, h.nextTemp);
  }

  lemma {:induction false} LowerClosureGrows(slots: Slots, scoped: bool, c: Closure, d: nat, ts: seq<Target>,
                                             n: int, k: nat)
    ensures n <= LowerClosure(slots, scoped, c, d, ts, n, k).nextCode
    decreases c
  {
    if c.Func? { LowerBlockGrows(slots, scoped, c.body, d, ts, n, k); }
  }

  lemma {:induction false} LowerBlockGrows(slots: Slots, scoped: bool, b: Block, d: nat, ts: seq<Target>,
                                           n: int, k: nat)
    ensures n <= LowerBlock(slots, scoped, b, d, ts, n, k).nextCode
    decreases b
  {
    if b.Cons? {
      var first := LowerStmt(slots, scoped, b.head, d, ts, NO_LABEL, n, k);
      LowerGrows(slots, scoped, b.head, d, ts, NO_LABEL, n, k);
      LowerBlockGrows(slots, scoped, b.tail, d, ts, first.nextCode, first.nextTemp);
    }
  }

  lemma {:induction false} LowerClausesGrows(slots: Slots, scoped: bool, cs: Clauses, d: nat, ts: seq<Target>,
                                             n: int, k: nat)
    ensures n <= LowerClauses(slots, scoped, cs, d, ts, n, k).nextCode
    decreases cs
  {
    if cs.Clause? {
      var b := LowerBlock(slots, scoped, cs.body, d, ts, n, k);
      LowerBlockGrows(slots, scoped, cs.body, d, ts, n, k);
      LowerClausesGrows(slots, scoped, cs.rest, d, ts, b.nextCode, b.nextTemp);
    }
  }

  // ----- statements without inner statements -----

  lemma OneStatement(fn: Fn, s: Stmt, st: State, fuel: nat)
    ensures ExecBlock(fn, Single(s), st, fuel) == Exec(fn, s, NO_LABEL, st, fuel)
  {
    var r := Exec(fn, s, NO_LABEL, st, fuel);
    assert ExecBlock(fn, Nil, r.st, fuel) == R(Normal, r.st);
  }

  lemma ExecWrapped(fn: Fn, code: Block, lab: Name, st: State, fuel: nat)
    ensures lab == NO_LABEL ==> ExecBlock(fn, Wrapped(code, lab), st, fuel) == ExecBlock(fn, code, st, fuel)
    ensures lab != NO_LABEL && Length(code) == 1 ==>
              ExecBlock(fn, Wrapped(code, lab), st, fuel) == Exec(fn, code.head, lab, st, fuel)
    ensures lab != NO_LABEL && Length(code) != 1 ==>
              ExecBlock(fn, Wrapped(code, lab), st, fuel) == Leave(ExecBlock(fn, code, st, fuel), st.u.env)
  {
    if lab != NO_LABEL {
      var inner := if Length(code) == 1 then code.head else Scope(code);
      OneStatement(fn, Labeled(lab, inner), st, fuel);
      assert Exec(fn, Labeled(lab, inner), NO_LABEL, st, fuel) == Exec(fn, inner, lab, st, fuel);
    }
  }

  lemma SingleStep(fn: Fn, s: Stmt, lab: Name, st: State, fuel: nat)
    ensures ExecBlock(fn, Wrapped(Single(s), lab), st, fuel) == Exec(fn, s, lab, st, fuel)
  {
    OneStatement(fn, s, st, fuel);
    assert Length(Single(s)) == 1 + Length(Nil);
    ExecWrapped(fn, Single(s), lab, st, fuel);
  }

  predicate Plain(s: Stmt) {
    s.Eval? || s.Parent? || s.Throw? || s.Panic? || s.Assign? || s.Declare? || s.Fallthrough?
  }

  lemma PlainRuns(fn: Fn, s: Stmt, lab: Name, st: State, fuel: nat)
    requires Plain(s)
    ensures Exec(fn, s, lab, st, fuel) == ExecBasic(fn, s, st, fuel)
  {}

  lemma SimPlain(p: Point, s: Stmt, lab: Name, n: int, k: nat, s0: State, t0: State, fuel: nat)
    requires Plain(s) && Ready(p, s0, t0, n)
    ensures After(p, Exec(p.fn, s, lab, s0, fuel), ExecBlock(p.fn, StmtCode(p, s, lab, n, k), t0, fuel))
    ensures Exec(p.fn, s, lab, s0, fuel).c.Fell? ==> s.Fallthrough?
  {
    SingleStep(p.fn, s, lab, t0, fuel);
    PlainRuns(p.fn, s, lab, s0, fuel);
    PlainRuns(p.fn, s, lab, t0, fuel);
    PlainTouches(p.fn, s, s0, t0, fuel);
    TouchesAgree(p, s0, t0, ExecBasic(p.fn, s, s0, fuel), ExecBasic(p.fn, s, t0, fuel));
  }

  /** A statement that lowering leaves alone looks at variables only. */
  ghost predicate Touches(r: R, st: State, c: Comp, u: User) {
    r == R(c, st.(u := u))
  }

  lemma PlainTouches(fn: Fn, s: Stmt, s0: State, t0: State, fuel: nat)
    requires Plain(s) && s0.u == t0.u
    ensures var r := ExecBasic(fn, s, s0, fuel);
            Touches(r, s0, r.c, r.st.u) && Touches(ExecBasic(fn, s, t0, fuel), t0, r.c, r.st.u)
    ensures var c := ExecBasic(fn, s, s0, fuel).c; c.Normal? || c.Thrown? || (s.Fallthrough? && c.Fell?)
  {}

  lemma TouchesAgree(p: Point, s0: State, t0: State, rs: R, rt: R)
    requires Calm(p, s0, t0) && Touches(rs, s0, rs.c, rs.st.u) && Touches(rt, t0, rs.c, rs.st.u)
    requires rs.c.Normal? || rs.c.Thrown? || rs.c.Fell?
    ensures After(p, rs, rt)
  {}

  lemma SimDefer(p: Point, fall: bool, s: Stmt, lab: Name, n: int, k: nat, s0: State, t0: State, fuel: nat)
    requires s.Defer? && Fits(p, fall, s, lab, n, k) && Ready(p, s0, t0, n)
    ensures After(p, Exec(p.fn, s, lab, s0, fuel), ExecBlock(p.fn, StmtCode(p, s, lab, n, k), t0, fuel))
    ensures !Exec(p.fn, s, lab, s0, fuel).c.Fell?
  {
    var code := if p.scoped then Register(s.e) else s;
    SingleStep(p.fn, code, lab, t0, fuel);
    assert Exec(p.fn, code, lab, t0, fuel) == RunDeferStmt(p.fn, s.e, !p.scoped, t0);
    assert Exec(p.fn, s, lab, s0, fuel) == RunDeferStmt(p.fn, s.e, true, s0);
    DeferAgrees(p, s.e, s0, t0);
  }

  lemma DeferAgrees(p: Point, e: Expr, s0: State, t0: State)
    requires Calm(p, s0, t0) && (p.scoped || p.d == 0)
    ensures After(p, RunDeferStmt(p.fn, e, true, s0), RunDeferStmt(p.fn, e, !p.scoped, t0))
  {
    var o := EvalExpr(p.fn, e, s0.u);
    if o.Yields? && p.scoped {
      var v := First(o.vals);
      assert AsCallbacks(t0.registered + [v]) == AsCallbacks(t0.registered) + [Callback(v)];
    }
  }

  lemma ExecSignal(fn: Fn, code: int, st: State, fuel: nat)
    ensures ExecBlock(fn, Signal(code), st, fuel) == R(Returned, st.(flow := code))
  {
    var next := st.(flow := code);
    assert Exec(fn, SetFlow(code), NO_LABEL, st, fuel) == R(Normal, next);
    OneStatement(fn, Return([]), next, fuel);
    assert Exec(fn, Return([]), NO_LABEL, next, fuel) == R(Returned, next);
  }

  lemma LeaveSame(r: R, env: map<Name, nat>)
    requires r.st.u.env == env
    ensures Leave(r, env) == r
  {}

  lemma SignalStep(fn: Fn, code: int, lab: Name, st: State, fuel: nat)
    ensures ExecBlock(fn, Wrapped(Signal(code), lab), st, fuel) == R(Returned, st.(flow := code))
  {
    ExecSignal(fn, code, st, fuel);
    assert Length(Signal(code)) == 1 + Length(Single(Return([]))) == 1 + 1 + Length(Nil);
    ExecWrapped(fn, Signal(code), lab, st, fuel);
    LeaveSame(R(Returned, st.(flow := code)), st.u.env);
  }

  lemma SimJump(p: Point, fall: bool, s: Stmt, lab: Name, n: int, k: nat, s0: State, t0: State, fuel: nat)
    requires (s.Break? || s.Continue?) && Fits(p, fall, s, lab, n, k) && Ready(p, s0, t0, n)
    ensures After(p, Exec(p.fn, s, lab, s0, fuel), ExecBlock(p.fn, StmtCode(p, s, lab, n, k), t0, fuel))
    ensures !Exec(p.fn, s, lab, s0, fuel).c.Fell?
  {
    var i := if s.Break? then FindBreak(p.ts, s.to) else FindContinue(p.ts, s.to);
    var code := if s.Break? then p.ts[i].breakCode else p.ts[i].continueCode;
    if p.ts[i].depth != p.d {
      SignalStep(p.fn, code, lab, t0, fuel);
    } else {
      SingleStep(p.fn, s, lab, t0, fuel);
      assert Exec(p.fn, s, lab, t0, fuel) == ExecBasic(p.fn, s, t0, fuel);
    }
  }

  // ----- return -----

  lemma SlotTargets(names: seq<Name>)
    ensures Operands(Vars2Lhs(names)) == []
    decreases |names|
  {
    if names != [] {
      assert Vars2Lhs(names)[1..] == Vars2Lhs(names[1..]);
      SlotTargets(names[1..]);
    }
  }

  /** Assigning to names that denote the cells writes the cells. */
  lemma {:induction false} StoreSlots(fn: Fn, names: seq<Name>, cells: seq<nat>, vals: seq<Val>, u: User)
    requires |names| == |cells|
    requires forall i :: 0 <= i < |names| ==> names[i] in u.env && u.env[names[i]] == cells[i]
    ensures StoreAll(fn, Vars2Lhs(names), vals, u) == Yields([], SetCells(cells, vals, u))
    decreases |names|
  {
    if names != [] {
      assert Vars2Lhs(names)[1..] == Vars2Lhs(names[1..]);
      StoreSlots(fn, names[1..], cells[1..], Rest(vals), u.(heap := u.heap[cells[0] := First(vals)]));
    }
  }

  lemma SetSlotsWrites(fn: Fn, es: seq<Expr>, st: State)
    requires fn.slots.Named? && Visible(fn, st.u.env)
    ensures RunSetSlots(fn, es, st) ==
            match EvalAll(fn, es, st.u)
            case Raises(v, n, w) => R(Thrown(v, n), st.(u := w))
            case Yields(vs, w) => R(Normal, st.(u := SetCells(fn.slots.cells, vs, w)))
  {
    SlotTargets(fn.slots.names);
    assert [] + es == es;
    EvalAllEnv(fn, es, st.u);
    var o := EvalAll(fn, es, st.u);
    if o.Yields? {
      assert o.vals[0..] == o.vals;
      StoreSlots(fn, fn.slots.names, fn.slots.cells, o.vals, o.u);
    }
  }

  lemma SimReturn(p: Point, fall: bool, s: Stmt, lab: Name, n: int, k: nat, s0: State, t0: State, fuel: nat)
    requires s.Return? && Fits(p, fall, s, lab, n, k) && Ready(p, s0, t0, n)
    ensures After(p, Exec(p.fn, s, lab, s0, fuel), ExecBlock(p.fn, StmtCode(p, s, lab, n, k), t0, fuel))
    ensures !Exec(p.fn, s, lab, s0, fuel).c.Fell?
  {
    ReturnEnv(p.fn, s.es, s0);
    assert Exec(p.fn, s, lab, s0, fuel) == RunReturn(p.fn, s.es, s0);
    if p.d == 0 {
      SingleStep(p.fn, s, lab, t0, fuel);
      assert Exec(p.fn, s, lab, t0, fuel) == RunReturn(p.fn, s.es, t0);
    } else if s.es == [] {
      SignalStep(p.fn, RETURN_CODE, lab, t0, fuel);
    } else {
      AllVisible(p.fn, p.hidden, t0.u.env);
      SimReturnBelow(p, fall, s, lab, n, k, t0, fuel);
    }
  }

  lemma ReturnEnv(fn: Fn, es: seq<Expr>, st: State)
    ensures RunReturn(fn, es, st).st.u.env == st.u.env
  {
    EvalAllEnv(fn, es, st.u);
    var o := EvalAll(fn, es, st.u);
    if o.Yields? && fn.slots.Named? { SetCellsEnv(fn.slots.cells, o.vals, o.u); }
  }

  lemma SimReturnBelow(p: Point, fall: bool, s: Stmt, lab: Name, n: int, k: nat, t0: State, fuel: nat)
    requires s.Return? && p.d > 0 && s.es != [] && Visible(p.fn, t0.u.env) && SlotCount(p.fn.slots) > 0
    ensures ExecBlock(p.fn, StmtCode(p, s, lab, n, k), t0, fuel) ==
            match EvalAll(p.fn, s.es, t0.u)
            case Raises(v, n, w) => R(Thrown(v, n), t0.(u := w))
            case Yields(vs, w) =>
              R(Returned, if p.fn.slots.Named?
                          then t0.(u := SetCells(p.fn.slots.cells, vs, w), flow := RETURN_CODE)
                          else t0.(u := w, locals := vs, flow := RETURN_CODE))
  {
    var code := Cons(SetSlots(s.es), Signal(RETURN_CODE));
    assert Length(code) == 1 + Length(Signal(RETURN_CODE)) && Length(Signal(RETURN_CODE)) == 2 by {
      assert Length(Single(Return([]))) == 1 + Length(Nil);
    }
    ExecWrapped(p.fn, code, lab, t0, fuel);
    EvalAllEnv(p.fn, s.es, t0.u);
    var o := EvalAll(p.fn, s.es, t0.u);
    if p.fn.slots.Named? {
      SetSlotsWrites(p.fn, s.es, t0);
      if o.Yields? { SetCellsEnv(p.fn.slots.cells, o.vals, o.u); }
    }
    var r := RunSetSlots(p.fn, s.es, t0);
    assert Exec(p.fn, SetSlots(s.es), NO_LABEL, t0, fuel) == r;
    if r.c.Normal? { ExecSignal(p.fn, RETURN_CODE, r.st, fuel); }
    assert ExecBlock(p.fn, code, t0, fuel) == if r.c.Normal?
           then ExecBlock(p.fn, Signal(RETURN_CODE), r.st, fuel) else r;
    LeaveSame(ExecBlock(p.fn, code, t0, fuel), t0.u.env);
  }

  // ----- scopes and targets -----

  lemma AfterLeave(p: Point, rs: R, rt: R, env: map<Name, nat>)
    requires After(p, rs, rt)
    ensures After(p, Leave(rs, env), Leave(rt, env))
  {}

  lemma FindBreakPush(ts: seq<Target>, tg: Target, l: Name)
    ensures FindBreak(ts + [tg], l) == if l == NO_LABEL || l == tg.name then |ts| else FindBreak(ts, l)
  {
    assert (ts + [tg])[..|ts|] == ts;
  }

  lemma FindContinuePush(ts: seq<Target>, tg: Target, l: Name)
    ensures FindContinue(ts + [tg], l) ==
            if (l == NO_LABEL || l == tg.name) && tg.continueCode != 0 then |ts| else FindContinue(ts, l)
  {
    assert (ts + [tg])[..|ts|] == ts;
  }

  predicate Breaks(c: Comp, tg: Target) {
    c.BreakTo? && Mine(c.lab, tg.name)
  }

  predicate Continues(c: Comp, tg: Target) {
    c.ContinueTo? && tg.continueCode != 0 && Mine(c.lab, tg.name)
  }

  /** Jumps to the innermost target are seen by its statement in both programs;
      every other completion looks the same from outside it. */
  lemma PopTarget(p: Point, tg: Target, rs: R, rt: R)
    requires After(p.(ts := p.ts + [tg]), rs, rt) && tg.depth == p.d && !rs.c.Stuck?
    ensures Breaks(rs.c, tg) <==> Breaks(rt.c, tg)
    ensures Continues(rs.c, tg) <==> Continues(rt.c, tg)
    ensures Breaks(rs.c, tg) || Continues(rs.c, tg) ==> Calm(p, rs.st, rt.st)
    ensures !Breaks(rs.c, tg) && !Continues(rs.c, tg) ==> After(p, rs, rt)
  {
    if rs.c.BreakTo? {
      FindBreakPush(p.ts, tg, rs.c.lab);
      if rt.c.BreakTo? { FindBreakPush(p.ts, tg, rt.c.lab); }
    }
    if rs.c.ContinueTo? {
      FindContinuePush(p.ts, tg, rs.c.lab);
      if rt.c.ContinueTo? { FindContinuePush(p.ts, tg, rt.c.lab); }
    }
  }

  lemma PushTarget(ts: seq<Target>, d: nat, n: int, tg: Target, m: int)
    requires TargetsOk(ts, d, n) && tg.depth == d && n <= tg.breakCode < m && tg.continueCode < m
    requires tg.continueCode == 0 || tg.continueCode == tg.breakCode + 1
    requires FreshLabel(tg.name, Active(ts, d))
    ensures TargetsOk(ts + [tg], d, m)
    ensures Active(ts + [tg], d) == With(tg.name, Active(ts, d))
  {
    var us := ts + [tg];
    forall i, j | 0 <= i < j < |us|
      ensures us[i].depth <= us[j].depth
      ensures us[i].breakCode < us[j].breakCode && us[i].continueCode < us[j].breakCode
      ensures us[i].depth == us[j].depth && us[i].name != NO_LABEL ==> us[i].name != us[j].name
    {
      if j == |ts| && us[i].depth == d && us[i].name != NO_LABEL { assert us[i].name in Active(ts, d); }
    }
    forall x ensures x in Active(us, d) <==> x in With(tg.name, Active(ts, d)) {
      if x in Active(ts, d) {
        var i :| 0 <= i < |ts| && ts[i].depth == d && ts[i].name != NO_LABEL && ts[i].name == x;
        assert us[i] == ts[i];
      }
      if x == tg.name && x != NO_LABEL { assert us[|ts|] == tg; }
    }
  }

  // ----- the tests after a call of Try -----

  lemma ExecTest(fn: Fn, code: int, jump: Stmt, c: Comp, rest: Block, t: State, fuel: nat)
    requires (jump.Break? && c == BreakTo(jump.to)) || (jump.Continue? && c == ContinueTo(jump.to))
    ensures ExecBlock(fn, Cons(OnFlow(code, Cons(SetFlow(0), Single(jump))), rest), t, fuel) ==
            if t.flow == code then R(c, t.(flow := 0)) else ExecBlock(fn, rest, t, fuel)
  {
    if t.flow == code {
      var cleared := t.(flow := 0);
      var body := Cons(SetFlow(0), Single(jump));
      assert Exec(fn, SetFlow(0), NO_LABEL, t, fuel) == R(Normal, cleared);
      OneStatement(fn, jump, cleared, fuel);
      assert ExecBlock(fn, body, t, fuel) == R(c, cleared);
      LeaveSame(R(c, cleared), t.u.env);
    }
  }

  /** What the tests of one target do, and those of the rest. */
  lemma TestsStep(fn: Fn, ts: seq<Target>, i: nat, d: nat, brk: bool, cont: bool, t: State, fuel: nat)
    requires 0 < i <= |ts| && ts[i - 1].depth == d
    ensures var g := ts[i - 1];
            var b, c := !brk || g.name != NO_LABEL, g.continueCode != 0 && (!cont || g.name != NO_LABEL);
            ExecBlock(fn, Tests(ts, i, d, brk, cont), t, fuel) ==
            if b && t.flow == g.breakCode then R(BreakTo(g.name), t.(flow := 0))
            else if c && t.flow == g.continueCode then R(ContinueTo(g.name), t.(flow := 0))
            else ExecBlock(fn, Tests(ts, i - 1, d, true, cont || c), t, fuel)
  {
    var g := ts[i - 1];
    var c := g.continueCode != 0 && (!cont || g.name != NO_LABEL);
    var rest := Tests(ts, i - 1, d, true, cont || c);
    ExecTest(fn, g.continueCode, Continue(g.name), ContinueTo(g.name), rest, t, fuel);
    ExecTest(fn, g.breakCode, Break(g.name), BreakTo(g.name), if c then Cons(TestContinue(g), rest) else rest, t, fuel);
  }

  /** A signal for none of this depth's targets passes every test. */
  lemma {:induction false} TestsPass(fn: Fn, ts: seq<Target>, i: nat, d: nat, brk: bool, cont: bool, t: State,
                                     fuel: nat)
    requires i <= |ts|
    requires forall j :: 0 <= j < i && ts[j].depth == d ==>
               t.flow != ts[j].breakCode && (ts[j].continueCode != 0 ==> t.flow != ts[j].continueCode)
    ensures ExecBlock(fn, Tests(ts, i, d, brk, cont), t, fuel) == R(Normal, t)
    decreases i
  {
    if i > 0 {
      var g := ts[i - 1];
      if g.depth != d { TestsPass(fn, ts, i - 1, d, brk, cont, t, fuel); }
      else {
        TestsStep(fn, ts, i, d, brk, cont, t, fuel);
        TestsPass(fn, ts, i - 1, d, true, cont || (g.continueCode != 0 && (!cont || g.name != NO_LABEL)), t, fuel);
      }
    }
  }

  /** A pending `break` for target `j` becomes a native `break`. */
  lemma {:induction false} TestsBreak(fn: Fn, ts: seq<Target>, i: nat, d: nat, n: int, brk: bool, cont: bool, j: nat,
                                      t: State, fuel: nat)
    requires j < i <= |ts| && TargetsOk(ts, d, n) && ts[j].depth == d
    requires t.flow == ts[j].breakCode
    requires ts[j].name != NO_LABEL || (!brk && j == i - 1)
    ensures ExecBlock(fn, Tests(ts, i, d, brk, cont), t, fuel) == R(BreakTo(ts[j].name), t.(flow := 0))
    decreases i
  {
    var g := ts[i - 1];
    assert g.depth == d;
    TestsStep(fn, ts, i, d, brk, cont, t, fuel);
    if j < i - 1 {
      TestsBreak(fn, ts, i - 1, d, n, true, cont || (g.continueCode != 0 && (!cont || g.name != NO_LABEL)), j, t, fuel);
    }
  }

  /** A pending `continue` for loop `j` becomes a native `continue`. */
  lemma {:induction false} TestsContinue(fn: Fn, ts: seq<Target>, i: nat, d: nat, n: int, brk: bool, cont: bool,
                                         j: nat, t: State, fuel: nat)
    requires j < i <= |ts| && TargetsOk(ts, d, n) && ts[j].depth == d
    requires ts[j].continueCode != 0 && t.flow == ts[j].continueCode
    requires ts[j].name != NO_LABEL || (!cont && forall m :: j < m < i ==> ts[m].depth == d ==> ts[m].continueCode == 0)
    ensures ExecBlock(fn, Tests(ts, i, d, brk, cont), t, fuel) == R(ContinueTo(ts[j].name), t.(flow := 0))
    decreases i
  {
    var g := ts[i - 1];
    assert g.depth == d;
    TestsStep(fn, ts, i, d, brk, cont, t, fuel);
    if j < i - 1 {
      TestsContinue(fn, ts, i - 1, d, n, true, cont || (g.continueCode != 0 && (!cont || g.name != NO_LABEL)), j,
                    t, fuel);
    }
  }

  /** A `break` names the innermost target, or the innermost one with its label. */
  lemma {:induction false} FindBreakFinds(ts: seq<Target>, l: Name)
    ensures var i := FindBreak(ts, l);
            && (i >= 0 ==> if l == NO_LABEL then i == |ts| - 1
                           else ts[i].name == l && forall m :: i < m < |ts| ==> ts[m].name != l)
            && (i < 0 ==> if l == NO_LABEL then ts == [] else forall m :: 0 <= m < |ts| ==> ts[m].name != l)
    decreases |ts|
  {
    if ts != [] { FindBreakFinds(ts[..|ts| - 1], l); }
  }

  lemma FindBreakIs(ts: seq<Target>, l: Name, i: nat)
    requires i < |ts|
    requires if l == NO_LABEL then i == |ts| - 1
             else ts[i].name == l && forall m :: i < m < |ts| ==> ts[m].name != l
    ensures FindBreak(ts, l) == i
    decreases |ts|
  {
    if i < |ts| - 1 { FindBreakIs(ts[..|ts| - 1], l, i); }
  }

  /** A `continue` names the innermost loop, or the innermost one with its label. */
  lemma {:induction false} FindContinueFinds(ts: seq<Target>, l: Name)
    ensures var i := FindContinue(ts, l);
            && (i >= 0 ==> ts[i].continueCode != 0 && (l != NO_LABEL ==> ts[i].name == l))
            && forall m :: (if i < 0 then 0 else i + 1) <= m < |ts| && (l == NO_LABEL || ts[m].name == l) ==>
                 ts[m].continueCode == 0
    decreases |ts|
  {
    if ts != [] { FindContinueFinds(ts[..|ts| - 1], l); }
  }

  lemma FindContinueIs(ts: seq<Target>, l: Name, i: nat)
    requires i < |ts| && ts[i].continueCode != 0
    requires l != NO_LABEL ==> ts[i].name == l
    requires forall m :: i < m < |ts| && (l == NO_LABEL || ts[m].name == l) ==> ts[m].continueCode == 0
    ensures FindContinue(ts, l) == i
    decreases |ts|
  {
    if i < |ts| - 1 { FindContinueIs(ts[..|ts| - 1], l, i); }
  }

  // ----- try -----

  /** After the call of Try ended without a panic, the signal stands for the
      completion the source statement has. */
  ghost predicate Signalled(p: Point, c: Comp, flow: int) {
    match c
    case Normal => flow == 0
    case Returned => flow == RETURN_CODE
    case BreakTo(l) => FindBreak(p.ts, l) >= 0 && flow == p.ts[FindBreak(p.ts, l)].breakCode
    case ContinueTo(l) => FindContinue(p.ts, l) >= 0 && flow == p.ts[FindContinue(p.ts, l)].continueCode
    case _ => false
  }

  /** What holds between a source fragment and the closure call that runs it. */
  ghost predicate AfterCall(p: Point, rs: R, rt: R) {
    if rs.c.Stuck? then rt.c.Stuck?
    else
      && Agree(p, rs.st, rt.st)
      && rs.st.results == rt.st.locals
      && if rs.c.Thrown? then rt.c == rs.c else rt.c == Normal && Signalled(p, rs.c, rt.st.flow)
  }

  function AfterTry(p: Point): Block {
    Append(Tests(p.ts, |p.ts|, p.d, false, false), Single(Tail(p.d)))
  }

  /** A signal that no test of this depth takes reaches the tail. */
  lemma TailReached(p: Point, t: State, fuel: nat)
    requires forall j :: 0 <= j < |p.ts| && p.ts[j].depth == p.d ==>
               t.flow != p.ts[j].breakCode && (p.ts[j].continueCode != 0 ==> t.flow != p.ts[j].continueCode)
    ensures ExecBlock(p.fn, AfterTry(p), t, fuel) == Exec(p.fn, Tail(p.d), NO_LABEL, t, fuel)
  {
    ExecAppend(p.fn, Tests(p.ts, |p.ts|, p.d, false, false), Single(Tail(p.d)), t, fuel);
    TestsPass(p.fn, p.ts, |p.ts|, p.d, false, false, t, fuel);
    OneStatement(p.fn, Tail(p.d), t, fuel);
  }

  /** The signal of a target outside this closure leaves the closure. */
  lemma OuterSignal(p: Point, i: nat, t: State, n: int, fuel: nat)
    requires TargetsOk(p.ts, p.d, n) && i < |p.ts| && p.ts[i].depth < p.d
    requires t.flow == p.ts[i].breakCode || (p.ts[i].continueCode != 0 && t.flow == p.ts[i].continueCode)
    ensures ExecBlock(p.fn, AfterTry(p), t, fuel) == R(Returned, t)
  {
    forall j | 0 <= j < |p.ts| && p.ts[j].depth == p.d
      ensures t.flow != p.ts[j].breakCode && (p.ts[j].continueCode != 0 ==> t.flow != p.ts[j].continueCode)
    {
      assert i < j || j < i;
    }
    TailReached(p, t, fuel);
    TailReturns(p, t, fuel);
  }

  lemma ResumeBreak(p: Point, rs: R, t: State, n: int, fuel: nat)
    requires TargetsOk(p.ts, p.d, n) && rs.c.BreakTo?
    requires AfterCall(p, rs, R(Normal, t))
    ensures After(p, rs, ExecBlock(p.fn, AfterTry(p), t, fuel))
  {
    var i := FindBreak(p.ts, rs.c.lab);
    FindBreakFinds(p.ts, rs.c.lab);
    if p.ts[i].depth == p.d {
      ExecAppend(p.fn, Tests(p.ts, |p.ts|, p.d, false, false), Single(Tail(p.d)), t, fuel);
      TestsBreak(p.fn, p.ts, |p.ts|, p.d, n, false, false, i, t, fuel);
      FindBreakIs(p.ts, p.ts[i].name, i);
    } else {
      OuterSignal(p, i, t, n, fuel);
    }
  }

  lemma ResumeContinue(p: Point, rs: R, t: State, n: int, fuel: nat)
    requires TargetsOk(p.ts, p.d, n) && rs.c.ContinueTo?
    requires AfterCall(p, rs, R(Normal, t))
    ensures After(p, rs, ExecBlock(p.fn, AfterTry(p), t, fuel))
  {
    var i := FindContinue(p.ts, rs.c.lab);
    FindContinueFinds(p.ts, rs.c.lab);
    if p.ts[i].depth == p.d {
      ExecAppend(p.fn, Tests(p.ts, |p.ts|, p.d, false, false), Single(Tail(p.d)), t, fuel);
      TestsContinue(p.fn, p.ts, |p.ts|, p.d, n, false, false, i, t, fuel);
      FindContinueIs(p.ts, p.ts[i].name, i);
    } else {
      OuterSignal(p, i, t, n, fuel);
    }
  }

  /** The tests and the tail after Try turn the signal back into a jump. */
  lemma TestsResume(p: Point, rs: R, t: State, n: int, fuel: nat)
    requires TargetsOk(p.ts, p.d, n)
    requires !rs.c.Stuck? && !rs.c.Thrown?
    requires AfterCall(p, rs, R(Normal, t))
    requires p.d == 0 && rs.c.Returned? ==> Visible(p.fn, t.u.env)
    ensures After(p, rs, ExecBlock(p.fn, AfterTry(p), t, fuel))
  {
    if rs.c.BreakTo? { ResumeBreak(p, rs, t, n, fuel); }
    else if rs.c.ContinueTo? { ResumeContinue(p, rs, t, n, fuel); }
    else {
      TailReached(p, t, fuel);
      if rs.c.Returned? {
        if p.d > 0 { TailReturns(p, t, fuel); } else { TailReturnsSlots(p, t, fuel); }
      }
    }
  }

  lemma TailReturns(p: Point, t: State, fuel: nat)
    requires p.d > 0 && t.flow != 0
    ensures Exec(p.fn, Tail(p.d), NO_LABEL, t, fuel) == R(Returned, t)
  {
    OneStatement(p.fn, Return([]), t, fuel);
    LeaveSame(R(Returned, t), t.u.env);
  }

  lemma {:induction false} CopyOwn(names: seq<Name>, cells: seq<nat>, u: User)
    requires |names| == |cells|
    requires forall i :: 0 <= i < |names| ==> names[i] in u.env && u.env[names[i]] == cells[i]
    ensures CopyCells(names, cells, u, u) == u
    decreases |names|
  {
    if names != [] {
      if cells[0] in u.heap { assert u.heap[cells[0] := u.heap[cells[0]]] == u.heap; }
      CopyOwn(names[1..], cells[1..], u);
    }
  }

  lemma TailReturnsSlots(p: Point, t: State, fuel: nat)
    requires p.d == 0 && t.flow == RETURN_CODE && Visible(p.fn, t.u.env)
    ensures Exec(p.fn, Tail(p.d), NO_LABEL, t, fuel) ==
            R(Returned, if p.fn.slots.Unnamed? then t.(results := t.locals) else t)
  {
    var r := RunReturnSlots(p.fn, t);
    if p.fn.slots.Named? { CopyOwn(p.fn.slots.names, p.fn.slots.cells, t.u); }
    OneStatement(p.fn, ReturnSlots, t, fuel);
    assert Exec(p.fn, ReturnSlots, NO_LABEL, t, fuel) == r;
    LeaveSame(r, t.u.env);
  }

  // ----- closures -----

  /** The point inside a closure called at `p` by `caller`. */
  ghost function Inside(p: Point, caller: State, frame: Frame): Point {
    Point(p.fn, p.scoped, p.d + 1, p.ts, caller.frame.defers, frame, p.hidden)
  }

  /** The caller's frame when a closure starts in the source state `s`. */
  ghost predicate FrameAgrees(p: Point, s: State, caller: State) {
    && VisibleBut(p.fn, p.hidden, caller.u.env)
    && (p.scoped || p.d > 0 ==> caller.frame == p.frame)
    && (!p.scoped ==> s.frame.defers == if p.d > 0 then p.outer else caller.frame.defers)
    && (!p.scoped && p.d == 0 ==> OnlyCallbacks(s.frame.defers))
  }

  lemma CallEnds(p: Point, s: State, caller: State, rs: R, rt: R, n: int)
    requires TargetsOk(p.ts, p.d, n) && FrameAgrees(p, s, caller)
    requires After(Inside(p, s, EMPTY_FRAME), rs, rt) && !rs.c.Fell?
    ensures AfterCall(p, Leave(rs, caller.u.env), EndCall(p.fn, rt, caller))
  {
    if !rs.c.Stuck? { assert RunDeferred(p.fn, [], rt.c, rt.st) == R(rt.c, rt.st); }
  }

  lemma DeeperTargets(ts: seq<Target>, d: nat, n: int, m: int)
    requires TargetsOk(ts, d, n) && n <= m
    ensures TargetsOk(ts, d + 1, m) && TargetsOk(ts, d, m)
    ensures Active(ts, d + 1) == {}
  {}

  ghost function FinalizerFrame(temp: nat, flow: int): Frame {
    Frame(map[temp := flow], [Restore(temp)])
  }

  lemma PrologueRuns(fn: Fn, temp: nat, code: Block, t: State, fuel: nat)
    ensures ExecBlock(fn, FinalizerPrologue(temp, code), Enter(t), fuel) ==
            ExecBlock(fn, code, t.(frame := FinalizerFrame(temp, t.flow), flow := 0), fuel)
  {
    var t1 := Enter(t).(frame := Frame(map[temp := t.flow], []));
    assert map[][temp := t.flow] == map[temp := t.flow];
    assert Exec(fn, SaveFlow(temp), NO_LABEL, Enter(t), fuel) == R(Normal, t1);
    var t2 := t1.(flow := 0);
    assert Exec(fn, SetFlow(0), NO_LABEL, t1, fuel) == R(Normal, t2);
    assert [] + [Restore(temp)] == [Restore(temp)];
    assert Exec(fn, DeferRestore(temp), NO_LABEL, t2, fuel) == R(Normal, Push(t2, Restore(temp)));
    assert ExecBlock(fn, Cons(DeferRestore(temp), code), t2, fuel) ==
             ExecBlock(fn, code, Push(t2, Restore(temp)), fuel);
    assert ExecBlock(fn, Cons(SetFlow(0), Cons(DeferRestore(temp), code)), t1, fuel) ==
           ExecBlock(fn, Cons(DeferRestore(temp), code), t2, fuel);
  }

  /** The finalizer restores the pending signal exactly when it completed
      normally; a pending panic survives everything but another panic. */
  lemma FinalizerEnds(p: Point, caller: State, hs: R, ht: R, temp: nat, rs: R, rt: R, n: int)
    requires TargetsOk(p.ts, p.d, n) && FrameAgrees(p, hs.st, caller)
    requires !hs.c.Stuck? && AfterCall(p, hs, ht)
    requires After(Inside(p, hs.st, FinalizerFrame(temp, ht.st.flow)), rs, rt) && !rs.c.Fell?
    ensures var f := EndCall(p.fn, rt, caller);
            AfterCall(p, Pending(hs.c, Leave(rs, caller.u.env)),
                      R(if f.c.Stuck? || f.c.Thrown? then f.c else ht.c, f.st))
  {
    if !rs.c.Stuck? {
      var ds := [Restore(temp)];
      assert rt.st.frame.defers == ds;
      var r := RunOne(p.fn, Restore(temp), rt.c, rt.st);
      assert ds[..0] == [];
      assert RunDeferred(p.fn, ds, rt.c, rt.st) == RunDeferred(p.fn, [], r.c, r.st) == r;
      assert r == R(rt.c, if rt.st.flow == 0 then rt.st.(flow := ht.st.flow) else rt.st);
    }
  }

  /** The code of a labelled statement is one statement, so a further label
      changes nothing. */
  lemma LabelTwice(p: Point, s: Stmt, lab: Name, n: int, k: nat, t0: State, fuel: nat)
    requires s.Labeled? && s.lab != NO_LABEL
    ensures ExecBlock(p.fn, StmtCode(p, s, lab, n, k), t0, fuel) ==
            ExecBlock(p.fn, StmtCode(p, s.stmt, s.lab, n, k), t0, fuel)
  {
    var code := LowerStmt(p.fn.slots, p.scoped, s.stmt, p.d, p.ts, s.lab, n, k).code;
    var one := Labeled(s.lab, if Length(code) == 1 then code.head else Scope(code));
    assert Wrapped(code, s.lab) == Single(one);
    SingleStep(p.fn, one, lab, t0, fuel);
    OneStatement(p.fn, one, t0, fuel);
    assert Exec(p.fn, one, lab, t0, fuel) == Exec(p.fn, one.stmt, s.lab, t0, fuel);
    assert Exec(p.fn, one, NO_LABEL, t0, fuel) == Exec(p.fn, one.stmt, s.lab, t0, fuel);
  }

  /** The point after some variables have been declared. */
  ghost function Past(p: Point, declared: set<Name>): Point {
    p.(hidden := p.hidden + declared)
  }

  /** What holds of a run does not depend on what is hidden. */
  lemma AfterPast(p: Point, declared: set<Name>, rs: R, rt: R)
    ensures After(Past(p, declared), rs, rt) <==> After(p, rs, rt)
    ensures Calm(Past(p, declared), rs.st, rt.st) <==> Calm(p, rs.st, rt.st)
  {}

  /** The point inside the body of the statement that is target `tg`. */
  ghost function Within(p: Point, tg: Target): Point {
    p.(ts := p.ts + [tg])
  }
}
