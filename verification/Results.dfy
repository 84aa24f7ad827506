/** What acceptance by the named-result check means for the runs of a function,
    generated and source, and the constructs it does not look at
    (internal/compiler/named_results.go). */
module Results {
  import opened Syntax
  import opened Machine
  import opened NamedResults
  import opened ResultsSound
  import opened ResultsRuns
  import opened Legal
  import opened FunctionLowering
  import opened Lowerable

  /** In accepted code every `return` is reached with every required result
      assigned, and deferred calls cannot unassign one. */
  lemma ResultsAssigned(q: Q, code: Block, st: State, fuel: nat)
    requires Accepts(q.req, code) && FineBlock(q.req, code, NO_JUMPS) && Home(q, st.u)
    ensures var r := ExecBlock(q.fn, code, Enter(st), fuel); r.c.Returned? ==> q.req <= Done(q, r.st.u)
    ensures var r := RunFunction(q.fn, code, st, fuel); r.c.Returned? ==> q.req <= Done(q, r.st.u)
  {
    var st0 := Enter(st);
    ScopeSound(q, false, false, code, NO_JUMPS, {}, st0, fuel);
    var r := ExecBlock(q.fn, code, st0, fuel);
    if !r.c.Stuck? { DefersKeep(q, r.st.frame.defers, r.c, r.st); }
  }

  /** ... and, if what the check overlooks is assigned where it is read, no run reads
      a required result that is still unassigned, however the run ends. */
  lemma ResultsReadLate(q: Q, code: Block, st: State, fuel: nat)
    requires Accepts(q.req, code) && FineBlock(q.req, code, NO_JUMPS) && Home(q, st.u)
    requires ReadyBlock(q.req, false, code, Onward({}))
    ensures Early(q, RunFunction(q.fn, code, st, fuel).st.u) <= Early(q, st.u)
  {
    var st0 := Enter(st);
    ScopeSound(q, false, true, code, NO_JUMPS, {}, st0, fuel);
    var r := ExecBlock(q.fn, code, st0, fuel);
    if !r.c.Stuck? {
      DefersKeep(q, r.st.frame.defers, r.c, r.st);
      KeepsOn(q, true, st.u, r.st.u, RunFunction(q.fn, code, st, fuel).st.u);
    }
  }

  /** Accepting the generated code vouches for the source function: it never
      returns with a required result unassigned, through any nesting of `try`. */
  lemma SourceReturnsAssigned(q: Q, body: Block, u: User, fuel: nat)
    requires LegalFunction(q.fn, body, u) && ShownBlock(SlotNames(q.fn.slots), body, 0, {})
             && LowersBlock(q.fn.slots, body, 0, [])
    requires var code := LowerFunction(q.fn.slots, body).0; Accepts(q.req, code) && FineBlock(q.req, code, NO_JUMPS)
    requires Home(q, u)
    ensures var r := RunFunction(q.fn, body, Begin(q.fn, u), fuel); r.c.Returned? ==> q.req <= Done(q, r.st.u)
  {
    LoweringPreservesOutcome(q.fn, body, u, fuel);
    ResultsAssigned(q, LowerFunction(q.fn.slots, body).0, Begin(q.fn, u), fuel);
  }

  // ----- where the check is too generous -----

  ghost function Quiet(slots: Slots): Fn {
    Fn((e, u) => Yields([1], u), slots)
  }

  ghost function UnderQuiet(slots: Slots, req: set<Name>): Q {
    Q(Quiet(slots), req)
  }

  /** Evaluating a list reads no required result early, for every evaluator, if and
      only if those it mentions are assigned; else the quiet evaluator reads one. */
  lemma ListReadsLate(req: set<Name>, slots: Slots, es: seq<Expr>, u: User)
    requires Home(UnderQuiet(slots, req), u) && Early(UnderQuiet(slots, req), u) == {}
    ensures ReadsOk(req, es, Done(UnderQuiet(slots, req), u)) ==>
            forall fn: Fn :: fn.slots == slots ==> Early(Q(fn, req), EvalAll(fn, es, u).u) == {}
    ensures !ReadsOk(req, es, Done(UnderQuiet(slots, req), u)) ==>
            EvalAll(Quiet(slots), es, u).Yields? && Early(UnderQuiet(slots, req), EvalAll(Quiet(slots), es, u).u) != {}
  {
    var state := Done(UnderQuiet(slots, req), u);
    if ReadsOk(req, es, state) {
      forall fn: Fn | fn.slots == slots ensures Early(Q(fn, req), EvalAll(fn, es, u).u) == {} {
        EvalAllKeeps(Q(fn, req), true, es, state, u);
      }
    } else {
      var k :| 0 <= k < |es| && !ReadOk(req, es[k], state);
      var y :| y in Vars(es[k]) && y in req && y !in state;
      QuietReads(slots, es, k, u);
      assert u.env[y] in UnsetCells(u, Vars(es[k]));
      assert y in Early(UnderQuiet(slots, req), EvalAll(Quiet(slots), es, u).u);
    }
  }

  lemma {:induction false} StoreAllNever(fn: Fn, lhs: seq<Lhs>, vals: seq<Val>, u: User)
    ensures var w := StoreAll(fn, lhs, vals, u).u; w.unset == u.unset && w.env == u.env
    decreases |lhs|
  {
    if lhs != [] {
      var o := Store(fn, lhs[0], First(vals), u);
      if o.Yields? { StoreAllNever(fn, lhs[1..], Rest(vals), o.u); }
    }
  }

  /** Early reads of an assignment are those of its operands and values. */
  lemma AssignReads(fn: Fn, req: set<Name>, lhs: seq<Lhs>, rhs: seq<Expr>, u: User)
    ensures Early(Q(fn, req), AssignAll(fn, lhs, rhs, u).u) == Early(Q(fn, req), EvalAll(fn, Operands(lhs) + rhs, u).u)
  {
    var o := EvalAll(fn, Operands(lhs) + rhs, u);
    if o.Yields? { StoreAllNever(fn, lhs, if |Operands(lhs)| <= |o.vals| then o.vals[|Operands(lhs)|..] else [], o.u); }
  }

  /** An assignment that passes is free of early reads for every evaluator if and
      only if its target operands could be read before it. */
  lemma AssignmentReadsLate(req: set<Name>, slots: Slots, s: Stmt, u: User)
    requires s.Assign? && Home(UnderQuiet(slots, req), u) && Early(UnderQuiet(slots, req), u) == {}
    requires Step(req, false, s, Done(UnderQuiet(slots, req), u)).ok
    ensures ReadsOk(req, Operands(s.lhs), Done(UnderQuiet(slots, req), u)) <==>
            (forall fn: Fn :: fn.slots == slots ==> Early(Q(fn, req), AssignAll(fn, s.lhs, s.rhs, u).u) == {})
  {
    assert ReadsOk(req, s.rhs, Done(UnderQuiet(slots, req), u));
    ReadsBoth(req, Operands(s.lhs), s.rhs, Done(UnderQuiet(slots, req), u));
    ListReadsLate(req, slots, Operands(s.lhs) + s.rhs, u);
    forall fn: Fn ensures Early(Q(fn, req), AssignAll(fn, s.lhs, s.rhs, u).u) ==
        Early(Q(fn, req), EvalAll(fn, Operands(s.lhs) + s.rhs, u).u) {
      AssignReads(fn, req, s.lhs, s.rhs, u);
    }
    var fn := Quiet(slots);
    assert fn.slots == slots
           && Early(Q(fn, req), AssignAll(fn, s.lhs, s.rhs, u).u) ==
               Early(Q(fn, req), EvalAll(fn, Operands(s.lhs) + s.rhs, u).u);
  }

  /** A turn of a range loop is free of early reads for every evaluator if and
      only if its targets are readable at the loop's entry: the check never looks
      at them. */
  lemma RangeTargetsReadLate(req: set<Name>, slots: Slots, s: Stmt, u: User)
    requires s.Range? && s.lhs != [] && Home(UnderQuiet(slots, req), u) && Early(UnderQuiet(slots, req), u) == {}
    ensures ReadsOk(req, Operands(s.lhs), Done(UnderQuiet(slots, req), u)) <==>
            (forall fn: Fn, vals: seq<Val> :: fn.slots == slots ==> Early(Q(fn, req), BindTurn(fn, s, vals, u).u) == {})
  {
    ListReadsLate(req, slots, Operands(s.lhs), u);
    forall fn: Fn, vals: seq<Val>
      ensures Early(Q(fn, req), BindTurn(fn, s, vals, u).u) == Early(Q(fn, req), EvalAll(fn, Operands(s.lhs), u).u)
    {
      var o := EvalAll(fn, Operands(s.lhs), u);
      if o.Yields? { StoreAllNever(fn, s.lhs, vals, o.u); }
    }
    var fn := Quiet(slots);
    assert fn.slots == slots
           && Early(Q(fn, req), BindTurn(fn, s, [], u).u) == Early(Q(fn, req), EvalAll(fn, Operands(s.lhs), u).u);
  }

  /** What a post statement evaluates. */
  function PostExprs(post: Block): seq<Expr> {
    if post.Nil? then []
    else if post.head.Eval? then [post.head.e]
    else if post.head.Assign? then Operands(post.head.lhs) + post.head.rhs
    else if post.head.Declare? then post.head.rhs
    else []
  }

  lemma PostRuns(fn: Fn, req: set<Name>, post: Block, st: State, fuel: nat)
    requires SimpleStmt(post) && FineBlock(req, post, NO_JUMPS) && Home(Q(fn, req), st.u)
    ensures Early(Q(fn, req), ExecBlock(fn, post, st, fuel).st.u) ==
              Early(Q(fn, req), EvalAll(fn, PostExprs(post), st.u).u)
  {
    if post.Cons? {
      var s := post.head;
      var r := Exec(fn, s, NO_LABEL, st, fuel);
      assert r == ExecBasic(fn, s, st, fuel);
      assert ExecBlock(fn, post.tail, r.st, fuel) == R(Normal, r.st);
      if s.Eval? { assert EvalAll(fn, [], EvalExpr(fn, s.e, st.u).u) == Yields([], EvalExpr(fn, s.e, st.u).u); }
      else if s.Assign? { AssignReads(fn, req, s.lhs, s.rhs, st.u); }
      else {
        var o := EvalAll(fn, s.rhs, st.u);
        EvalAllKeeps(Q(fn, req), false, s.rhs, {}, st.u);
        if o.Yields? { BindNever(fn, req, s.names, o.vals, o.u); }
      }
    }
  }

  lemma {:induction false} BindNever(fn: Fn, req: set<Name>, names: seq<Name>, vals: seq<Val>, u: User)
    requires forall x :: x in names ==> x !in req
    ensures Early(Q(fn, req), Bind(names, vals, u)) == Early(Q(fn, req), u)
    decreases |names|
  {
    if names != [] {
      var w := u.(env := u.env[names[0] := u.next], heap := u.heap[u.next := First(vals)], next := u.next + 1);
      BindNever(fn, req, names[1..], Rest(vals), w);
    }
  }

  /** From the state of a labelled `continue`, where the check does not look, the post
      statement reads no required result early, for every evaluator, if and only if
      those it mentions are assigned there. */
  lemma PostReadsLate(req: set<Name>, slots: Slots, post: Block, st: State, fuel: nat)
    requires SimpleStmt(post) && FineBlock(req, post, NO_JUMPS)
    requires Home(UnderQuiet(slots, req), st.u) && Early(UnderQuiet(slots, req), st.u) == {}
    ensures PostReads(post) * req <= Done(UnderQuiet(slots, req), st.u) <==>
            (forall fn: Fn :: fn.slots == slots ==> Early(Q(fn, req), ExecBlock(fn, post, st, fuel).st.u) == {})
  {
    var state := Done(UnderQuiet(slots, req), st.u);
    VarsReadable(req, PostExprs(post), state);
    PostMentions(post);
    ListReadsLate(req, slots, PostExprs(post), st.u);
    forall fn: Fn | fn.slots == slots
      ensures Early(Q(fn, req), ExecBlock(fn, post, st, fuel).st.u) ==
                Early(Q(fn, req), EvalAll(fn, PostExprs(post), st.u).u)
    {
      PostRuns(fn, req, post, st, fuel);
    }
    var fn := Quiet(slots);
    assert fn.slots == slots
           && Early(Q(fn, req), ExecBlock(fn, post, st, fuel).st.u) ==
               Early(Q(fn, req), EvalAll(fn, PostExprs(post), st.u).u);
  }

  lemma PostMentions(post: Block)
    ensures VarsOf(PostExprs(post)) == PostReads(post)
  {
    if post.Cons? && post.head.Assign? {
      var a, b := Operands(post.head.lhs), post.head.rhs;
      forall x ensures x in VarsOf(a + b) <==> x in VarsOf(a) + VarsOf(b) {
        if x in VarsOf(a) + VarsOf(b) {
          var e :| (e in a || e in b) && x in Vars(e);
          assert e in a + b;
        }
      }
    }
  }

  /** The quiet evaluator evaluates every expression of a list and assigns nothing. */
  lemma {:induction false} QuietReads(slots: Slots, es: seq<Expr>, k: nat, u: User)
    requires k < |es|
    ensures var o := EvalAll(Quiet(slots), es, u);
            o.Yields? && o.u.env == u.env && u.unset <= o.u.unset && UnsetCells(u, Vars(es[k])) <= o.u.unset
    decreases |es|
  {
    var fn := Quiet(slots);
    var o := EvalExpr(fn, es[0], u);
    assert o.u.heap == u.heap && o.u.env == u.env && u.unset <= o.u.unset;
    if k > 0 { QuietReads(slots, es[1..], k - 1, o.u); } else { QuietYields(slots, es[1..], o.u); }
  }

  lemma {:induction false} QuietYields(slots: Slots, es: seq<Expr>, u: User)
    ensures var o := EvalAll(Quiet(slots), es, u); o.Yields? && o.u.env == u.env && u.unset <= o.u.unset
    decreases |es|
  {
    if es != [] { QuietYields(slots, es[1..], EvalExpr(Quiet(slots), es[0], u).u); }
  }

  /** loop: for any(); use(r) { continue loop } — the post statement is checked
      from unlabelled `continue` only. */
  const USE_R := Atom(1, {}, {"r"})
  const LOOP := For(Nil, When(Atom(0, {}, {})), Single(Eval(USE_R)), Single(Continue("loop")))

  lemma PostUnseen(slots: Slots, st: State)
    requires "r" in st.u.env && st.u.env["r"] !in st.u.heap
    ensures Accepts({"r"}, Single(Labeled("loop", LOOP)))
    ensures st.u.env["r"] in ExecBlock(Quiet(slots), Single(Labeled("loop", LOOP)), st, 1).st.u.unset
  {
    PostAccepted();
    var fn := Quiet(slots);
    var s := Labeled("loop", LOOP);
    PostReached(fn, st);
    var r := Exec(fn, LOOP, "loop", st, 1);
    assert Exec(fn, s, NO_LABEL, st, 1) == ExecBasic(fn, s, st, 1) == r;
    assert ExecBlock(fn, Single(s), st, 1) == (if r.c.Normal? then ExecBlock(fn, Nil, r.st, 1) else r);
  }

  lemma PostReached(fn: Fn, st: State)
    requires fn == Quiet(fn.slots) && "r" in st.u.env && st.u.env["r"] !in st.u.heap
    ensures st.u.env["r"] in Exec(fn, LOOP, "loop", st, 1).st.u.unset
  {
    LoopTurns(fn, st);
    assert ExecBlock(fn, Nil, st, 1) == R(Normal, st);
    assert Exec(fn, LOOP, "loop", st, 1) == ExecFor(fn, LOOP, "loop", st, 1);
  }

  lemma LoopTurns(fn: Fn, st: State)
    requires fn == Quiet(fn.slots) && "r" in st.u.env && st.u.env["r"] !in st.u.heap
    ensures var l := Loop(fn, LOOP, "loop", st, 1); st.u.env["r"] in l.st.u.unset
  {
    var o := EvalExpr(fn, LOOP.cond.e, st.u);
    assert o.u.env == st.u.env && o.u.heap == st.u.heap;
    var st1 := st.(u := o.u);
    BodyJumps(fn, st1);
    PostRead(fn, st1);
    var p := ExecBlock(fn, LOOP.post, st1, 1);
    assert EndTurn(fn, LOOP, "loop", R(ContinueTo("loop"), st1), 1) == NextTurn(fn, LOOP, "loop", st1, 1);
    assert Loop(fn, LOOP, "loop", p.st, 0) == R(Stuck, p.st);
    assert Loop(fn, LOOP, "loop", st, 1) == (if p.c.Normal? then R(Stuck, p.st) else p);
  }

  lemma BodyJumps(fn: Fn, st: State)
    ensures Leave(ExecBlock(fn, LOOP.body, st, 1), st.u.env) == R(ContinueTo("loop"), st)
  {
    var jump := Continue("loop");
    assert Exec(fn, jump, NO_LABEL, st, 1) == ExecBasic(fn, jump, st, 1) == R(ContinueTo("loop"), st);
    assert ExecBlock(fn, LOOP.body, st, 1) == R(ContinueTo("loop"), st);
  }

  lemma PostRead(fn: Fn, st: State)
    requires "r" in st.u.env && st.u.env["r"] !in st.u.heap
    ensures st.u.env["r"] in ExecBlock(fn, LOOP.post, st, 1).st.u.unset
  {
    var s := Eval(USE_R);
    assert "r" in Vars(USE_R);
    assert st.u.env["r"] in UnsetCells(st.u, Vars(USE_R));
    var r := Exec(fn, s, NO_LABEL, st, 1);
    assert r == ExecBasic(fn, s, st, 1);
    assert ExecBlock(fn, LOOP.post, st, 1) == (if r.c.Normal? then ExecBlock(fn, Nil, r.st, 1) else r);
  }

  lemma PostAccepted()
    ensures Accepts({"r"}, Single(Labeled("loop", LOOP)))
  {
    LoopAccepted();
    LabeledAccepted({"r"}, "loop", LOOP);
  }

  lemma LabeledAccepted(req: set<Name>, l: Name, inner: Stmt)
    requires Step(req, false, inner, {}).ok
    ensures Accepts(req, Single(Labeled(l, inner)))
  {
    var s := Labeled(l, inner);
    assert Onward({})[1..] == [];
    assert StepEach(req, false, s, []) == Verdict([], true);
    assert StepEach(req, false, s, Onward({})).ok;
    assert Paths(req, false, Nil, Merge(StepEach(req, false, s, Onward({})).exits)).ok;
  }

  lemma LoopAccepted()
    ensures Step({"r"}, false, LOOP, {}).ok
  {
    var req := {"r"};
    BodyExits(req);
    HeaderExits(req);
    TurnAccepted();
    assert Onward({})[1..] == [];
    assert Entries(req, false, LOOP, []) == Verdict([], true);
    assert Entries(req, false, LOOP, Onward({})).ok;
    assert Step(req, false, LOOP, {}) == Compound(req, false, LOOP, Nil, {});
  }

  lemma TurnAccepted()
    ensures ForEntry({"r"}, false, LOOP, {}).ok
  {
    var req := {"r"};
    BodyExits(req);
    assert CondExprs(LOOP.cond) == [Atom(0, {}, {})];
    var exits := [Exit({}, ToContinue("loop"))];
    assert exits[1..] == [];
    assert PostOk(req, false, LOOP.post, []);
    assert PostOk(req, false, LOOP.post, exits);
  }

  lemma HeaderExits(req: set<Name>)
    ensures Paths(req, false, LOOP.init, Onward({})) == Verdict(Onward({}), true)
  {}

  lemma BodyExits(req: set<Name>)
    ensures Paths(req, false, LOOP.body, Onward({})) == Verdict([Exit({}, ToContinue("loop"))], true)
  {
    var s, e := Continue("loop"), Exit({}, ToContinue("loop"));
    assert Onward({})[1..] == [];
    assert StepEach(req, false, s, []) == Verdict([], true);
    assert StepEach(req, false, s, Onward({})) == Verdict([e] + [], true);
    assert [e][..0] == [];
    assert Merge([e]) == MergeInto([], e) == [e];
    assert Paths(req, false, Nil, [e]) == Verdict([e], true);
  }
}
