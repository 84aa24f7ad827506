/** What acceptance of a constructor means for its runs, before and after
    lowering, and the inputs on which the analysis is too generous
    (internal/compiler/construction.go, internal/compiler/construction_flow.go). */
module Constructors {
  import opened Options
  import opened Syntax
  import opened Machine
  import opened ProgramPaths
  import opened Growth
  import opened RunPaths
  import opened PathRuns
  import opened MeetRuns
  import opened Construction
  import opened ConstructorPaths
  import opened ConstructorReads
  import opened Legal
  import opened LoweringFacts
  import opened FunctionLowering
  import opened Lowerable

  // ----- accepted constructors -----

  ghost predicate Completes(r: R) {
    r.c.Normal? || r.c.Returned?
  }

  /** In an accepted constructor every run that ends normally or by `return`,
      whatever its expressions do and throw, has assigned every required field. */
  lemma AcceptedInitializes(fn: Fn, req: set<Name>, body: Block, st: State, fuel: nat)
    requires Accepts(req, body) && FollowedBlock(body, false)
    ensures Completes(ExecBlock(fn, body, st, fuel)) ==> req <= ExecBlock(fn, body, st, fuel).st.u.obj.Keys
  {
    var r := ExecBlock(fn, body, st, fuel);
    AcceptsComplete(req, body);
    FollowedBlockSourced(body, false);
    if Completes(r) {
      forall f | f in req ensures f in r.st.u.obj {
        if f !in r.st.u.obj { BlockRunIsPath(fn, body, Some(f), st, fuel); }
      }
    }
  }

  /** No path makes a read of a required field the analysis overlooks before setting
      the field. */
  ghost predicate NothingOverlooked(req: set<Name>, body: Block) {
    forall f :: f in req ==> !BlockMeets(Overlooked, body, f)
  }

  /** ... and no run of it, however it ends, reads a required field before that field
      was assigned, except where the analysis does not look. */
  lemma AcceptedReadsLate(fn: Fn, req: set<Name>, body: Block, st: State, fuel: nat)
    requires Accepts(req, body) && FollowedBlock(body, false)
    ensures forall f :: f in req && f in ExecBlock(fn, body, st, fuel).st.u.early && f !in st.u.early ==>
                          BlockMeets(Overlooked, body, f)
  {
    AcceptsPaths(false, req, body);
    FollowedBlockSourced(body, false);
    forall f | f in req && f in ExecBlock(fn, body, st, fuel).st.u.early && f !in st.u.early
        ensures BlockMeets(Overlooked, body, f) {
      BlockMet(fn, body, f, st, fuel);
      BlockMeetsEither(body, f);
    }
  }

  ghost predicate AlwaysReadsLate(req: set<Name>, slots: Slots, body: Block) {
    forall fn: Fn, st: State, fuel: nat :: fn.slots == slots && st.u.obj == map[] && st.u.early == {} ==>
      ExecBlock(fn, body, st, fuel).st.u.early !! req
  }

  /** So every run of an accepted constructor reads late if and only if nothing is
      overlooked. */
  lemma ReadsLateExactly(req: set<Name>, slots: Slots, body: Block)
    requires Accepts(req, body) && FollowedBlock(body, false) && forall f :: f in req ==> OpenBlock(body, Some(f))
    ensures AlwaysReadsLate(req, slots, body) <==> NothingOverlooked(req, body)
  {
    if NothingOverlooked(req, body) {
      forall fn: Fn, st: State, fuel: nat | fn.slots == slots && st.u.obj == map[] && st.u.early == {}
        ensures ExecBlock(fn, body, st, fuel).st.u.early !! req
      {
        AcceptedReadsLate(fn, req, body, st, fuel);
      }
    } else {
      var f :| f in req && BlockMeets(Overlooked, body, f);
      BlockMeetsEither(body, f);
      FollowedBlockSourced(body, false);
      var fn := Play(slots, 0, BlockMeetRoute(body, f));
      PlayFollows(slots, 0, BlockMeetRoute(body, f));
      BlockMeetTaken(fn, body, f, START, 1);
      assert fn.slots == slots && !(ExecBlock(fn, body, START, 1).st.u.early !! req);
    }
  }

  /** What a constructor owes: nothing required is read before it is set, and all of
      it is set when the constructor completes. */
  ghost predicate Initializes(req: set<Name>, r: R) {
    r.st.u.early !! req && (Completes(r) ==> req <= r.st.u.obj.Keys)
  }

  ghost predicate AlwaysInitializes(req: set<Name>, slots: Slots, body: Block) {
    forall fn: Fn, st: State, fuel: nat :: fn.slots == slots && st.u.obj == map[] && st.u.early == {} ==>
      Initializes(req, ExecBlock(fn, body, st, fuel))
  }

  /** Every run of a constructor whose paths are open, whatever its expressions do,
      initializes what is required if and only if it is accepted and no early read
      is overlooked. */
  lemma AcceptsExactly(req: set<Name>, slots: Slots, body: Block)
    requires FollowedBlock(body, false) && AllExactBlock(req, body)
    ensures AlwaysInitializes(req, slots, body) <==> Accepts(req, body) && NothingOverlooked(req, body)
  {
    AcceptsPaths(true, req, body);
    if Accepts(req, body) && NothingOverlooked(req, body) {
      forall fn: Fn, st: State, fuel: nat | fn.slots == slots && st.u.obj == map[] && st.u.early == {}
        ensures Initializes(req, ExecBlock(fn, body, st, fuel))
      {
        AcceptedInitializes(fn, req, body, st, fuel);
        AcceptedReadsLate(fn, req, body, st, fuel);
      }
    } else {
      var f :| f in req && (BlockMeets(Checked, body, f) || BlockMeets(Overlooked, body, f)
                            || BlockGoes(body, Some(f), Through) || BlockGoes(body, Some(f), ByReturn));
      BlockMeetsEither(body, f);
      assert ExactBlock(body, f);
      BadPathTaken(req, slots, body, f);
    }
  }

  const START := State(User(map[], map[], 0, map[], 0, {}, {}), [], [], 0, [], EMPTY_FRAME)

  /** A bad path is taken by some run. */
  lemma BadPathTaken(req: set<Name>, slots: Slots, body: Block, f: Name)
    requires FollowedBlock(body, false) && OpenBlock(body, Some(f)) && f in req
    requires BlockMeets(Made, body, f) || BlockGoes(body, Some(f), Through) || BlockGoes(body, Some(f), ByReturn)
    ensures !AlwaysInitializes(req, slots, body)
  {
    FollowedBlockSourced(body, false);
    var w := if BlockGoes(body, Some(f), Through) then Through else ByReturn;
    var script := if BlockMeets(Made, body, f) then BlockMeetRoute(body, f) else BlockRoute(body, Some(f), w);
    var fn := Play(slots, 0, script);
    PlayFollows(slots, 0, script);
    var r := ExecBlock(fn, body, START, 1);
    if BlockMeets(Made, body, f) {
      BlockMeetTaken(fn, body, f, START, 1);
    } else {
      BlockTaken(fn, body, Some(f), w, START, 1);
    }
    assert !Initializes(req, r);
  }

  /** A field is left unset on some path exactly if some run leaves it unset. */
  lemma PathsAreRuns(slots: Slots, body: Block, f: Name, w: Way)
    requires SourcedBlock(body) && OpenBlock(body, Some(f)) && !w.ByThrow?
    ensures BlockGoes(body, Some(f), w) <==> exists fn: Fn, st: State, fuel: nat ::
              fn.slots == slots && Leaves(fn, body, f, w, st, fuel)
  {
    if BlockGoes(body, Some(f), w) {
      var fn := Play(slots, 0, BlockRoute(body, Some(f), w));
      PlayFollows(slots, 0, BlockRoute(body, Some(f), w));
      BlockTaken(fn, body, Some(f), w, START, 1);
      assert fn.slots == slots && Leaves(fn, body, f, w, START, 1);
    }
    forall fn: Fn, st: State, fuel: nat | Leaves(fn, body, f, w, st, fuel) ensures BlockGoes(body, Some(f), w) {
      BlockRunIsPath(fn, body, Some(f), st, fuel);
    }
  }

  /** The run ends this way, and the field is as unset as before. */
  ghost predicate Leaves(fn: Fn, body: Block, f: Name, w: Way, st: State, fuel: nat) {
    var r := ExecBlock(fn, body, st, fuel);
    !r.c.Stuck? && WayOf(r.c) == w && f !in st.u.obj && f !in r.st.u.obj
  }

  // ----- generated constructors -----

  lemma {:induction false} DefersKeep(fn: Fn, ds: seq<Deferred>, c: Comp, st: State)
    requires OnlyCallbacks(ds)
    ensures var r := RunDeferred(fn, ds, c, st);
            Grew({}, st.u, r.st.u) && (r.c == c || r.c.Thrown?)
    decreases |ds|
  {
    if ds != [] {
      var last := ds[|ds| - 1];
      EvalGrew(fn, Call(last.v), {}, st.u);
      var r := RunOne(fn, last, c, st);
      DefersKeep(fn, ds[..|ds| - 1], r.c, r.st);
    }
  }

  /** The run of the code generated for an accepted constructor: its deferred
      calls included, it leaves every required field assigned, and nothing reads
      one early but where the analysis does not look. */
  lemma GeneratedConstructor(fn: Fn, req: set<Name>, body: Block, u: User, fuel: nat)
    requires Accepts(req, body) && FollowedBlock(body, false)
    requires LegalFunction(fn, body, u) && ShownBlock(SlotNames(fn.slots), body, 0, {})
             && LowersBlock(fn.slots, body, 0, [])
    ensures var r := RunFunction(fn, LowerFunction(fn.slots, body).0, Begin(fn, u), fuel);
            && (Completes(r) ==> req <= r.st.u.obj.Keys)
            && (!r.c.Stuck? ==> forall f :: f in req && f in r.st.u.early && f !in u.early ==>
                                  BlockMeets(Overlooked, body, f))
  {
    LoweringPreservesOutcome(fn, body, u, fuel);
    var s0 := Begin(fn, u);
    assert Enter(s0) == s0;
    AcceptedInitializes(fn, req, body, s0, fuel);
    AcceptedReadsLate(fn, req, body, s0, fuel);
    var r := ExecBlock(fn, body, s0, fuel);
    if !r.c.Stuck? {
      BodyDefers(fn, body, u, fuel);
      DefersKeep(fn, r.st.frame.defers, r.c, r.st);
    }
  }

  /** All a source body defers is its own callbacks. */
  lemma BodyDefers(fn: Fn, body: Block, u: User, fuel: nat)
    requires LegalFunction(fn, body, u) && ShownBlock(SlotNames(fn.slots), body, 0, {})
             && LowersBlock(fn.slots, body, 0, [])
    ensures var r := ExecBlock(fn, body, Begin(fn, u), fuel); !r.c.Stuck? ==> OnlyCallbacks(r.st.frame.defers)
  {
    var t := Begin(fn, u).(frame := Frame(map[], if DeepDeferBlock(body, 0) then [RunDefers] else []));
    BodyPreserved(fn, body, u, fuel, t);
  }

  // ----- labelled statements -----

  /** Some exit with the run's way out promises no more than what is set. */
  ghost predicate Covered(exits: seq<Exit>, r: R) {
    || r.c.Stuck? || r.c.Thrown?
    || exists i :: 0 <= i < |exits| && WayFor(exits[i].flow) == WayOf(r.c) && exits[i].state <= r.st.u.obj.Keys
  }

  /** For every evaluator the exits cover the runs of the labelled statement. */
  ghost predicate AlwaysCovered(req: set<Name>, slots: Slots, s: Stmt, state: set<Name>) {
    forall fn: Fn, st: State, fuel: nat :: fn.slots == slots && state <= st.u.obj.Keys ==>
      Covered(Step(req, s, state).exits, Exec(fn, s, NO_LABEL, st, fuel))
  }

  /** The analysis does not look into a labelled statement: it takes it to end at its
      end. For every evaluator that covers its runs if no path leaves the statement by
      `return`, by an unlabelled jump or `fallthrough` out of it, or by a jump to an
      outer label, and, where the evaluator alone decides its paths, only if. */
  lemma LabelledExact(req: set<Name>, slots: Slots, s: Stmt, state: set<Name>)
    requires s.Labeled? && Sourced(s)
    ensures Harmless(s) ==> AlwaysCovered(req, slots, s, state)
    ensures Open(s, None) && AlwaysCovered(req, slots, s, state) ==> Harmless(s)
  {
    var exits := Step(req, s, state).exits;
    assert exits == Onward(state);
    if Harmless(s) {
      forall fn: Fn, st: State, fuel: nat | state <= st.u.obj.Keys
          ensures Covered(exits, Exec(fn, s, NO_LABEL, st, fuel)) {
        var r := Exec(fn, s, NO_LABEL, st, fuel);
        ExecGrew(fn, s, NO_LABEL, Mentions(s), st, fuel);
        if !r.c.Stuck? && !r.c.Thrown? {
          RunIsPath(fn, s, NO_LABEL, None, st, fuel);
          assert exits[0] == Exit(state, ToNext);
        }
      }
    } else if Open(s, None) {
      var w :| Goes(s, NO_LABEL, None, w) && !w.Through? && !w.ByThrow?;
      var fn := Play(slots, 0, PathRoute(s, NO_LABEL, None, w));
      PlayFollows(slots, 0, PathRoute(s, NO_LABEL, None, w));
      var st := START.(u := START.u.(obj := map f | f in state :: 0));
      PathTaken(fn, s, NO_LABEL, None, w, st, 1);
      assert fn.slots == slots && !Covered(exits, Exec(fn, s, NO_LABEL, st, 1));
    }
  }

  // ----- where the analysis is too generous -----

  /** An evaluator that does nothing; every value is zero, every condition false. */
  ghost function Quiet(slots: Slots): Fn {
    Fn((e, u) => Yields([0], u), slots)
  }

  const THIS_A := Atom(1, {"a"}, {})
  const CONDITION := Atom(2, {}, {})

  /** if c { break outer } */
  const MAY_BREAK := If(Nil, CONDITION, Single(Break("outer")), Nil)

  /** outer: for { if c { break outer }; return }; this.a = e — accepted although a
      run may return before it assigns the field: no exit inside a labelled
      statement is seen. */
  function ReturnsInsideLabel(): Block {
    Cons(Labeled("outer", For(Nil, Always, Nil, Cons(MAY_BREAK, Single(Return([]))))),
         Single(Assign([Field("a")], [Atom(0, {}, {})])))
  }

  lemma LabelHidesReturn(st: State)
    requires "a" !in st.u.obj
    ensures Accepts({"a"}, ReturnsInsideLabel())
    ensures var r := ExecBlock(Quiet(Unnamed(0)), ReturnsInsideLabel(), st, 1);
            r.c.Returned? && "a" !in r.st.u.obj
  {
    LabelAccepted();
    LabelReturns(st);
  }

  lemma LabelAccepted()
    ensures Paths({"a"}, ReturnsInsideLabel(), Onward({})) == Verdict(Onward({"a"}), true)
  {
    var first, second := ReturnsInsideLabel().head, ReturnsInsideLabel().tail.head;
    assert ExprsMention([]) == {};
    assert Mentions(MAY_BREAK) == {} by { assert BlockMentions(Single(Break("outer"))) == {}; }
    assert Mentions(first.stmt) == {} by { assert BlockMentions(Single(Return([]))) == {}; }
    LastAssigns();
    TwoSteps({"a"}, first, second, {}, {}, {"a"});
  }

  lemma LastAssigns()
    ensures Step({"a"}, Assign([Field("a")], [Atom(0, {}, {})]), {}) == Verdict(Onward({"a"}), true)
  {
    var lhs := [Field("a")];
    assert lhs[1..] == [] && {} + {"a"} == {"a"};
    assert Targets({"a"}, lhs, {}) == Targets({"a"}, [], {"a"});
  }

  lemma TwoSteps(req: set<Name>, a: Stmt, b: Stmt, s0: set<Name>, s1: set<Name>, s2: set<Name>)
    requires Step(req, a, s0) == Verdict(Onward(s1), true) && Step(req, b, s1) == Verdict(Onward(s2), true)
    ensures Paths(req, Cons(a, Single(b)), Onward(s0)) == Verdict(Onward(s2), true)
  {
    OneStep(req, a, s0);
    OneStep(req, b, s1);
    MergeOne(s1);
    MergeOne(s2);
    assert Paths(req, Single(b), Onward(s1)) == Verdict(Onward(s2), true);
  }

  lemma OneExit(req: set<Name>, s: Stmt, state: set<Name>)
    ensures StepEach(req, s, Onward(state)).exits == Step(req, s, state).exits
  {
    var exits := Onward(state);
    assert exits[0] == Exit(state, ToNext) && exits[1..] == [];
    assert StepEach(req, s, exits[1..]) == Verdict([], true);
    assert StepEach(req, s, exits).exits == Step(req, s, state).exits + [];
  }

  lemma MergeOne(state: set<Name>)
    ensures Merge(Onward(state)) == Onward(state)
  {
    assert Onward(state)[..0] == [];
    assert Merge(Onward(state)) == MergeInto([], Exit(state, ToNext));
  }

  lemma OneStep(req: set<Name>, s: Stmt, state: set<Name>)
    ensures StepEach(req, s, Onward(state)) == Step(req, s, state)
  {
    OneExit(req, s, state);
    assert Onward(state)[1..] == [];
    assert StepEach(req, s, []) == Verdict([], true);
  }

  lemma LabelReturns(st: State)
    ensures var r := ExecBlock(Quiet(Unnamed(0)), ReturnsInsideLabel(), st, 1);
            r.c.Returned? && r.st.u.obj == st.u.obj
  {
    var fn, loop := Quiet(Unnamed(0)), ReturnsInsideLabel().head.stmt;
    assert Exec(fn, loop, "outer", st, 1) == ExecFor(fn, loop, "outer", st, 1);
    assert ExecBlock(fn, Nil, st, 1) == R(Normal, st);
    BreakNotTaken(st);
    assert Exec(fn, Return([]), NO_LABEL, st, 1) == ExecBasic(fn, Return([]), st, 1) == R(Returned, st);
    OneStatement(fn, Return([]), st, 1);
    assert ExecBlock(fn, loop.body, st, 1) == R(Returned, st);
    assert EvalCond(fn, Always, st.u) == Yields([1], st.u);
    assert Loop(fn, loop, "outer", st, 1).c.Returned?;
    var labeled := Labeled("outer", loop);
    assert Exec(fn, labeled, NO_LABEL, st, 1) == ExecBasic(fn, labeled, st, 1);
    assert Exec(fn, labeled, NO_LABEL, st, 1) == Exec(fn, loop, "outer", st, 1);
  }

  lemma BreakNotTaken(st: State)
    ensures Exec(Quiet(Unnamed(0)), MAY_BREAK, NO_LABEL, st, 1) == R(Normal, st)
  {
    var fn, u := Quiet(Unnamed(0)), st.u;
    assert UnsetCells(u, {}) == {};
    assert Noted(CONDITION, u) == u;
    assert Keep(u, u) == u by { assert u.heap + u.heap == u.heap && u.obj + u.obj == u.obj; }
    assert EvalExpr(fn, CONDITION, u) == Yields([0], u);
    assert ExecBlock(fn, Nil, st, 1) == R(Normal, st);
    assert Exec(fn, MAY_BREAK, NO_LABEL, st, 1) == ExecIf(fn, MAY_BREAK, st, 1);
  }

  /** An assignment the analysis passes is free of early reads for every
      evaluator if and only if its target operands could be read before it; the
      analysis lets them rely on targets further left in the same assignment,
      which Go stores only afterwards. */
  lemma AssignmentReadsLate(req: set<Name>, slots: Slots, s: Stmt, u: User)
    requires s.Assign? && Step(req, s, u.obj.Keys).ok && u.early !! req
    ensures ReadsOk(req, Operands(s.lhs), u.obj.Keys) <==>
            forall fn: Fn :: fn.slots == slots ==> AssignAll(fn, s.lhs, s.rhs, u).u.early !! req
  {
    var es := Operands(s.lhs) + s.rhs;
    ReadsLate(req, Operands(s.lhs), u.obj.Keys);
    ReadsLate(req, s.rhs, u.obj.Keys);
    if ReadsOk(req, Operands(s.lhs), u.obj.Keys) {
      forall fn: Fn ensures AssignAll(fn, s.lhs, s.rhs, u).u.early !! req { NothingMentioned(fn, req, s, u); }
    } else {
      var f :| f in req && f !in u.obj && Mentioned(Operands(s.lhs), f);
      var fn := Play(slots, u.world, Ones(Weight(es)));
      PlayFollows(slots, u.world, Ones(Weight(es)));
      MentionedEither(Operands(s.lhs), s.rhs, f);
      EvalAllNotes(fn, es, f, u);
      var o := EvalAll(fn, es, u);
      StoreAllNever(fn, s.lhs, if |Operands(s.lhs)| <= |o.vals| then o.vals[|Operands(s.lhs)|..] else [], o.u);
      assert fn.slots == slots && f in AssignAll(fn, s.lhs, s.rhs, u).u.early;
    }
  }

  lemma NothingMentioned(fn: Fn, req: set<Name>, s: Stmt, u: User)
    requires s.Assign? && u.early !! req
    requires forall f :: f in req && f !in u.obj ==> !Mentioned(Operands(s.lhs), f) && !Mentioned(s.rhs, f)
    ensures AssignAll(fn, s.lhs, s.rhs, u).u.early !! req
  {
    var es := Operands(s.lhs) + s.rhs;
    var o := EvalAll(fn, es, u);
    EvalAllGrew(fn, es, MeetRuns.AllFields(es), u);
    if o.Yields? {
      StoreAllNever(fn, s.lhs, if |Operands(s.lhs)| <= |o.vals| then o.vals[|Operands(s.lhs)|..] else [], o.u);
    }
    forall f | f in o.u.early ensures f !in req {
      if f !in u.early {
        EvalAllNewly(fn, es, f, u);
        MentionedEither(Operands(s.lhs), s.rhs, f);
      }
    }
  }

  /** this.a, x[this.a] = e, e : accepted, and the index reads the field first. */
  lemma TargetReadsEarly(e: Expr, u: User)
    requires u.obj == map[] && u.early == {} && "a" !in Fields(e)
    ensures Step({"a"}, Assign([Field("a"), At(THIS_A)], [e, e]), {}).ok
    ensures exists fn: Fn :: !(AssignAll(fn, [Field("a"), At(THIS_A)], [e, e], u).u.early !! {"a"})
  {
    var req, lhs := {"a"}, [Field("a"), At(THIS_A)];
    assert lhs[1..] == [At(THIS_A)] && [At(THIS_A)][1..] == [];
    assert Targets(req, [At(THIS_A)], {} + {"a"}).ok;
    var s := Assign(lhs, [e, e]);
    assert Step(req, s, {}).ok && u.obj.Keys == {};
    assert Operands(lhs[1..]) == [THIS_A] + Operands([]) == [THIS_A];
    assert Operands(lhs) == [] + Operands(lhs[1..]);
    assert !ReadOk(req, Operands(lhs)[0], {}) by { assert "a" in Fields(THIS_A) * req; }
    AssignmentReadsLate(req, Unnamed(0), s, u);
  }

  /** A turn of a range loop the analysis passes reads no required field early,
      for every evaluator, if and only if its targets are readable at the loop's
      entry: the analysis never looks at them. */
  lemma RangeTargetsReadLate(req: set<Name>, slots: Slots, s: Stmt, u: User)
    requires s.Range? && s.lhs != [] && u.early !! req
    ensures ReadsOk(req, Operands(s.lhs), u.obj.Keys) <==>
            forall fn: Fn, vals: seq<Val> :: fn.slots == slots ==> BindTurn(fn, s, vals, u).u.early !! req
  {
    var es := Operands(s.lhs);
    ReadsLate(req, es, u.obj.Keys);
    if ReadsOk(req, es, u.obj.Keys) {
      forall fn: Fn, vals: seq<Val> ensures BindTurn(fn, s, vals, u).u.early !! req {
        var o := EvalAll(fn, es, u);
        EvalAllGrew(fn, es, MeetRuns.AllFields(es), u);
        if o.Yields? { StoreAllNever(fn, s.lhs, vals, o.u); }
        forall f | f in o.u.early ensures f !in req { if f !in u.early { EvalAllNewly(fn, es, f, u); } }
      }
    } else {
      var f :| f in req && f !in u.obj && Mentioned(es, f);
      var fn := Play(slots, u.world, Ones(Weight(es)));
      PlayFollows(slots, u.world, Ones(Weight(es)));
      EvalAllNotes(fn, es, f, u);
      StoreAllNever(fn, s.lhs, [], EvalAll(fn, es, u).u);
      assert fn.slots == slots && f in BindTurn(fn, s, [], u).u.early;
    }
  }

  // ----- and too strict -----

  /** if true { this.a = true } */
  const SETS_A := Assign([Field("a")], [True])
  const SURELY := If(Nil, True, Single(SETS_A), Nil)

  /** The analysis does not look at the value of a test. */
  lemma RejectedNeedlessly(slots: Slots)
    ensures !Accepts({"a"}, Single(SURELY)) && AlwaysInitializes({"a"}, slots, Single(SURELY))
  {
    SurelyRejected();
    forall fn: Fn, st: State, fuel: nat | fn.slots == slots && st.u.obj == map[] && st.u.early == {}
      ensures Initializes({"a"}, ExecBlock(fn, Single(SURELY), st, fuel))
    {
      SurelySets(fn, st, fuel);
    }
  }

  lemma SurelyRejected()
    ensures !Accepts({"a"}, Single(SURELY))
  {
    var req, no := {"a"}, Exit({}, ToNext);
    SurelyExits(req);
    StepOnce(req, SURELY, {});
    assert [no][..0] == [] && Merge([no]) == [no];
    assert Paths(req, Single(SURELY), Onward({})).exits == [no];
    assert no in Paths(req, Single(SURELY), Onward({})).exits;
  }

  lemma SurelyExits(req: set<Name>)
    ensures Step(req, SURELY, {}).exits == [Exit({}, ToNext)]
  {
    EntriesExits(req);
    MergeTwo(Exit({"a"}, ToNext), Exit({}, ToNext));
    assert Paths(req, Nil, Onward({})).exits == Onward({});
    assert Step(req, SURELY, {}) == Compound(req, SURELY, Nil, {});
  }

  lemma EntriesExits(req: set<Name>)
    ensures Entries(req, SURELY, Onward({})).exits == [Exit({"a"}, ToNext), Exit({}, ToNext)]
  {
    BranchExits(req);
    assert Onward({})[0] == Exit({}, ToNext);
    assert Onward({})[1..] == [] && Entries(req, SURELY, []) == Verdict([], true);
    assert Entries(req, SURELY, Onward({})).exits == Entry(req, SURELY, {}).exits + [];
  }

  lemma BranchExits(req: set<Name>)
    ensures Entry(req, SURELY, {}).exits == [Exit({"a"}, ToNext), Exit({}, ToNext)]
  {
    var yes := Exit({"a"}, ToNext);
    assert SETS_A.lhs[1..] == [] && {} + {"a"} == {"a"};
    assert Targets(req, SETS_A.lhs[1..], {"a"}).exits == [yes];
    assert Step(req, SETS_A, {}).exits == [yes];
    StepOnce(req, SETS_A, {});
    assert [yes][..0] == [];
    assert Paths(req, Single(SETS_A), Onward({})).exits == Merge([yes]) == [yes];
  }

  lemma MergeTwo(yes: Exit, no: Exit)
    requires yes.flow == no.flow && no.state == {}
    ensures Merge([yes, no]) == [no]
  {
    assert [yes, no][..1] == [yes] && [yes][..0] == [];
    assert Merge([yes]) == [yes];
    assert yes.state * {} == {};
    assert MergeInto([yes], no) == [no];
  }

  lemma StepOnce(req: set<Name>, s: Stmt, state: set<Name>)
    ensures Paths(req, Single(s), Onward(state)).exits == Merge(Step(req, s, state).exits)
  {
    assert Onward(state)[1..] == [] && StepEach(req, s, []) == Verdict([], true);
    assert StepEach(req, s, Onward(state)).exits == Step(req, s, state).exits + [] == Step(req, s, state).exits;
    assert Paths(req, Nil, Merge(Step(req, s, state).exits)).exits == Merge(Step(req, s, state).exits);
  }

  lemma SurelySets(fn: Fn, st: State, fuel: nat)
    ensures ExecBlock(fn, Single(SURELY), st, fuel) == R(Normal, st.(u := st.u.(obj := st.u.obj["a" := 1])))
  {
    var st1 := st.(u := st.u.(obj := st.u.obj["a" := 1]));
    assert SETS_A.rhs[1..] == [] && SETS_A.lhs[1..] == [] && [1] + [] == [1] && [] + SETS_A.rhs == SETS_A.rhs;
    assert EvalAll(fn, SETS_A.rhs[1..], st.u) == Yields([], st.u);
    assert EvalAll(fn, SETS_A.rhs, st.u) == Yields([1], st.u);
    assert Operands(SETS_A.lhs[1..]) == [] && Operands(SETS_A.lhs) == [];
    assert StoreAll(fn, SETS_A.lhs[1..], Rest([1]), st1.u) == Yields([], st1.u);
    assert StoreAll(fn, SETS_A.lhs, [1][0..], st.u) == Yields([], st1.u);
    assert Exec(fn, SETS_A, NO_LABEL, st, fuel) == ExecBasic(fn, SETS_A, st, fuel) == R(Normal, st1);
    OneStatement(fn, SETS_A, st, fuel);
    assert ExecBlock(fn, Nil, st, fuel) == R(Normal, st);
    assert Exec(fn, SURELY, NO_LABEL, st, fuel) == ExecIf(fn, SURELY, st, fuel) == R(Normal, st1);
    OneStatement(fn, SURELY, st, fuel);
  }
}
