/** Where the constructor analysis complains: exactly where some path mentions a
    required field before setting it (internal/compiler/construction_flow.go,
    internal/compiler/construction.go). */
module ConstructorReads {
  import opened Options
  import opened Syntax
  import opened Machine
  import opened ProgramPaths
  import opened Construction
  import opened ConstructorPaths
  import Growth
  import PathRuns

  lemma ReadsLate(req: set<Name>, es: seq<Expr>, state: set<Name>)
    ensures ReadsOk(req, es, state) <==> forall f :: f in req && f !in state ==> !Mentioned(es, f)
  {
    if ReadsOk(req, es, state) {
      forall e, f | e in es && f in Fields(e) && f in req ensures f in state {
        var i :| 0 <= i < |es| && es[i] == e;
        assert ReadOk(req, es[i], state);
      }
    } else {
      var i :| 0 <= i < |es| && !ReadOk(req, es[i], state);
      var f :| f in Fields(es[i]) * req && f !in state;
      assert es[i] in es;
    }
  }

  lemma OneReadsLate(req: set<Name>, e: Expr, state: set<Name>)
    ensures ReadOk(req, e, state) <==> forall f :: f in req && f !in state ==> f !in Fields(e)
    ensures ReadsOk(req, [e], state) <==> ReadOk(req, e, state)
  {
    assert ReadsOk(req, [e], state) ==> ReadOk(req, [e][0], state);
  }

  lemma CondReadsLate(req: set<Name>, c: Cond, state: set<Name>)
    ensures ReadsOk(req, CondExprs(c), state) <==> forall f :: f in req && f !in state ==> !CondMentioned(c, f)
  {
    if c.When? { OneReadsLate(req, c.e, state); }
  }

  // ----- assignments -----

  lemma {:induction false} TargetsReadLate(req: set<Name>, lhs: seq<Lhs>, state: set<Name>)
    ensures Targets(req, lhs, state).ok <==> forall f :: f in req && f !in state ==> !TargetsRead(lhs, f)
    decreases |lhs|
  {
    if lhs != [] {
      if lhs[0].Field? {
        TargetsReadLate(req, lhs[1..], state + {lhs[0].f});
        forall f | f in req && f !in state
          ensures TargetsRead(lhs, f) <==> f !in state + {lhs[0].f} && TargetsRead(lhs[1..], f)
        {}
      } else {
        TargetsReadLate(req, lhs[1..], state);
        if lhs[0].At? { OneReadsLate(req, lhs[0].e, state); }
      }
    }
  }

  lemma AssignReads(req: set<Name>, s: Stmt, state: set<Name>)
    requires s.Assign?
    ensures Step(req, s, state).ok <==> Late(req, s, state)
  {
    TargetsReadLate(req, s.lhs, state);
    ReadsLate(req, s.rhs, state);
  }

  lemma MentionedEither(a: seq<Expr>, b: seq<Expr>, f: Name)
    ensures Mentioned(a + b, f) <==> Mentioned(a, f) || Mentioned(b, f)
  {
    if Mentioned(a, f) {
      var e :| e in a && f in Fields(e);
      assert e in a + b;
    }
    if Mentioned(b, f) {
      var e :| e in b && f in Fields(e);
      assert e in a + b;
    }
  }

  // ----- statements -----

  ghost predicate Late(req: set<Name>, s: Stmt, state: set<Name>) {
    forall f :: f in req && f !in state ==> !Meets(Checked, s, NO_LABEL, f)
  }

  /** What passes makes no early read that is checked, and where the analysis is exact the other
      way round too. */
  ghost predicate Passes(exact: bool, late: bool, ok: bool) {
    (ok ==> late) && (exact && late ==> ok)
  }

  ghost predicate AllExact(req: set<Name>, s: Stmt) {
    forall f :: f in req ==> Exact(s, f)
  }

  ghost predicate AllExactBlock(req: set<Name>, b: Block) {
    forall f :: f in req ==> ExactBlock(b, f)
  }

  ghost predicate AllExactClauses(req: set<Name>, cs: Clauses) {
    forall f :: f in req ==> ExactClauses(cs, f)
  }

  lemma {:induction false} StepReads(exact: bool, req: set<Name>, s: Stmt, fall: bool, state: set<Name>)
    requires Followed(s, fall) && (exact ==> AllExact(req, s))
    ensures Passes(exact, Late(req, s, state), Step(req, s, state).ok)
    decreases s, 3, 0
  {
    if s.Assign? { AssignReads(req, s, state); }
    else if s.Declare? { ReadsLate(req, s.rhs, state); }
    else if s.Return? { ReadsLate(req, s.es, state); }
    else if s.Eval? || s.Panic? || s.Parent? || s.Throw? || s.Defer? { OneReadsLate(req, s.e, state); }
    else if s.Scope? { StateReads(exact, req, s.body, false, state); }
    else if s.If? || s.For? || s.Switch? { CompoundReads(exact, req, s, state); }
    else if s.Range? { RangeReads(exact, req, s, state); }
    else if s.Try? { TryReads(exact, req, s, state); }
    else if s.Labeled? { LabeledReads(exact, req, s, state); }
  }

  lemma LabeledReads(exact: bool, req: set<Name>, s: Stmt, state: set<Name>)
    requires s.Labeled? && (exact ==> AllExact(req, s))
    ensures Passes(exact, Late(req, s, state), Step(req, s, state).ok)
  {
    forall f | f in req && f !in state && Meets(Checked, s, NO_LABEL, f) ensures f in Mentions(s) * req && f !in state {
      MeetsMentioned(s.stmt, s.lab, f);
    }
    assert exact ==> forall f :: f in req ==> f !in Mentions(s);
  }

  lemma {:induction false} RangeReads(exact: bool, req: set<Name>, s: Stmt, state: set<Name>)
    requires s.Range? && Followed(s, false) && (exact ==> AllExact(req, s))
    ensures Passes(exact, Late(req, s, state), Step(req, s, state).ok)
    decreases s, 2, 0
  {
    StateReads(exact, req, s.body, false, state);
    OneReadsLate(req, s.over, state);
    if exact {
      forall f | f in req ensures Meets(Checked, s, NO_LABEL, f) <==>
          f in Fields(s.over) || BlockMeets(Checked, s.body, f) {
        assert Exact(s, f);
      }
    }
  }

  /** A body analysed from one state. */
  lemma {:induction false} StateReads(exact: bool, req: set<Name>, b: Block, fall: bool, state: set<Name>)
    requires FollowedBlock(b, fall) && (exact ==> AllExactBlock(req, b))
    ensures Passes(exact, (forall f :: f in req && f !in state ==> !BlockMeets(Checked, b, f)),
                   Paths(req, b, Onward(state)).ok)
    decreases b, 0, 1
  {
    PathsRead(exact, req, b, fall, Onward(state));
    forall f ensures Lacking(Onward(state), ToNext, f) <==> f !in state { LackingOne(Exit(state, ToNext), ToNext, f); }
  }

  lemma {:induction false} CompoundReads(exact: bool, req: set<Name>, s: Stmt, state: set<Name>)
    requires (s.If? || s.For? || s.Switch?) && Followed(s, false) && (exact ==> AllExact(req, s))
    ensures Passes(exact, Late(req, s, state), Step(req, s, state).ok)
    decreases s, 2, 0
  {
    var i := Paths(req, s.init, Onward(state));
    assert Step(req, s, state) == Compound(req, s, s.init, state);
    StateReads(exact, req, s.init, false, state);
    EntriesRead(exact, req, s, i.exits);
    forall f | f in req ensures Agrees(exact, ToNext, f !in state && BlockGoes(s.init, Some(f), Through),
                                       Lacking(i.exits, ToNext, f)) {
      FromState(exact, req, s.init, false, state, ToNext, f);
    }
    forall f ensures Meets(Checked, s, NO_LABEL, f) <==>
        BlockMeets(Checked, s.init, f)
            || (BlockGoes(s.init, Some(f), Through) && EntryMeets(Checked, s, NO_LABEL, f)) {}
  }

  lemma {:induction false} EntriesRead(exact: bool, req: set<Name>, s: Stmt, entries: seq<Exit>)
    requires (s.If? || s.For? || s.Switch?) && Followed(s, false) && (exact ==> AllExact(req, s))
    ensures Passes(exact, (forall f ::
                           f in req && Lacking(entries, ToNext, f) ==> !EntryMeets(Checked, s, NO_LABEL, f)),
                   Entries(req, s, entries).ok)
    decreases s, 1, |entries|
  {
    if entries == [] { forall f ensures !Lacking(entries, ToNext, f) {} }
    else {
      EntriesRead(exact, req, s, entries[1..]);
      if entries[0].flow == ToNext { EntryRead(exact, req, s, entries[0].state); }
      forall f ensures Lacking(entries, ToNext, f) <==>
                       (entries[0].flow == ToNext && f !in entries[0].state) || Lacking(entries[1..], ToNext, f)
      { FirstLacks(entries, ToNext, f); }
    }
  }

  lemma {:induction false} EntryRead(exact: bool, req: set<Name>, s: Stmt, state: set<Name>)
    requires (s.If? || s.For? || s.Switch?) && Followed(s, false) && (exact ==> AllExact(req, s))
    ensures Passes(exact, (forall f :: f in req && f !in state ==> !EntryMeets(Checked, s, NO_LABEL, f)),
                   Entry(req, s, state).ok)
    decreases s, 0, 1
  {
    if s.If? {
      OneReadsLate(req, s.test, state);
      StateReads(exact, req, s.thn, false, state);
      StateReads(exact, req, s.els, false, state);
      assert Entry(req, s, state) == IfEntry(req, s, state);
      assert forall f ::
               EntryMeets(Checked, s, NO_LABEL, f) <==>
                   f in Fields(s.test) || BlockMeets(Checked, s.thn, f) || BlockMeets(Checked, s.els, f);
    } else if s.For? {
      ForReads(exact, req, s, state);
    } else {
      SwitchReads(exact, req, s, state);
      assert Entry(req, s, state) == SwitchEntry(req, s, state);
    }
  }

  lemma {:induction false} SwitchReads(exact: bool, req: set<Name>, s: Stmt, state: set<Name>)
    requires s.Switch? && Followed(s, false) && (exact ==> AllExact(req, s))
    ensures Passes(exact, (forall f :: f in req && f !in state ==> !EntryMeets(Checked, s, NO_LABEL, f)),
                   SwitchEntry(req, s, state).ok)
    decreases s, 0, 0
  {
    CondReadsLate(req, s.tag, state);
    forall f ensures !Lacking([], ToNext, f) {}
    CasesRead(exact, req, s.clauses, state, []);
    assert forall f ::
             EntryMeets(Checked, s, NO_LABEL, f) <==> CondMentioned(s.tag, f) || ClausesMeet(Checked, s.clauses, f);
  }

  lemma {:induction false} ForReads(exact: bool, req: set<Name>, s: Stmt, state: set<Name>)
    requires s.For? && Followed(s, false) && (exact ==> AllExact(req, s))
    ensures Passes(exact, (forall f :: f in req && f !in state ==> !EntryMeets(Checked, s, NO_LABEL, f)),
                   ForEntry(req, s, state).ok)
    decreases s, 0, 0
  {
    var exits := Paths(req, s.body, Onward(state)).exits;
    CondReadsLate(req, s.cond, state);
    StateReads(exact, req, s.body, false, state);
    PostReads(exact, req, s.post, exits);
    forall f | f in req
      ensures Agrees(exact, ToNext, f !in state && BlockTurns(s.body, NO_LABEL, Some(f)),
                     Lacking(exits, ToNext, f) || Lacking(exits, ToContinue, f))
    {
      FromState(exact, req, s.body, false, state, ToNext, f);
      FromState(exact, req, s.body, false, state, ToContinue, f);
    }
  }

  lemma {:induction false} PostReads(exact: bool, req: set<Name>, post: Block, exits: seq<Exit>)
    requires FollowedBlock(post, false) && (exact ==> AllExactBlock(req, post))
    ensures Passes(exact,
              (forall f ::
               f in req && (Lacking(exits, ToNext, f) || Lacking(exits, ToContinue, f)) ==>
                   !BlockMeets(Checked, post, f)),
              PostOk(req, post, exits))
    decreases post, 1, |exits|
  {
    if exits == [] { forall f ensures !Lacking(exits, ToNext, f) && !Lacking(exits, ToContinue, f) {} }
    else {
      PostReads(exact, req, post, exits[1..]);
      if exits[0].flow == ToNext || exits[0].flow == ToContinue { StateReads(exact, req, post, false, exits[0].state); }
      forall f ensures Lacking(exits, ToNext, f) || Lacking(exits, ToContinue, f) <==>
                       || ((exits[0].flow == ToNext || exits[0].flow == ToContinue) && f !in exits[0].state)
                       || Lacking(exits[1..], ToNext, f) || Lacking(exits[1..], ToContinue, f)
      { FirstLacks(exits, ToNext, f); FirstLacks(exits, ToContinue, f); }
    }
  }

  lemma {:induction false} CasesRead(exact: bool, req: set<Name>, cs: Clauses, state: set<Name>, fallen: seq<Exit>)
    requires FollowedClauses(cs) && (exact ==> AllExactClauses(req, cs))
    requires forall k :: 0 <= k < |fallen| ==> fallen[k].flow == ToNext
    requires exact ==> forall f :: f in req && Lacking(fallen, ToNext, f) ==> f !in state
    ensures Passes(exact, (forall f :: f in req && f !in state ==> !ClausesMeet(Checked, cs, f)),
                   Cases(req, cs, state, fallen).ok)
    decreases cs, 1, 0
  {
    if cs.Clause? {
      var entry := Merge(Onward(state) + fallen);
      var exits := Paths(req, cs.body, entry).exits;
      var falls := Reroute(exits, IntoNextClause);
      RerouteFlows(exits, IntoNextClause);
      forall f | exact && f in req ensures Lacking(falls, ToNext, f) ==> f !in state {
        ClauseEnds(exact, req, cs.body, cs.rest.Clause?, state, fallen, ToNext, f);
      }
      forall f ensures Lacking(entry, ToNext, f) <==> f !in state || Lacking(fallen, ToNext, f) {
        EntryLacking(state, fallen, f);
      }
      PathsRead(exact, req, cs.body, cs.rest.Clause?, entry);
      ReadsLate(req, cs.guards, state);
      CasesRead(exact, req, cs.rest, state, falls);
    }
  }

  lemma {:induction false} TryReads(exact: bool, req: set<Name>, s: Stmt, state: set<Name>)
    requires s.Try? && Followed(s, false) && (exact ==> AllExact(req, s))
    ensures Passes(exact, Late(req, s, state), Step(req, s, state).ok)
    decreases s, 2, 1
  {
    assert Step(req, s, state) == TryPaths(req, s, state);
    StateReads(exact, req, s.body, false, state);
    if s.handler.Func? { HandlerReads(exact, req, s, state); }
    if s.finalizer.Func? { FinalizerReads(exact, req, s, state); }
  }

  lemma {:induction false} HandlerReads(exact: bool, req: set<Name>, s: Stmt, state: set<Name>)
    requires s.Try? && s.handler.Func? && Followed(s, false) && (exact ==> AllExact(req, s))
    ensures Passes(exact, (forall f :: f in req && f !in state ==> !BlockMeets(Checked, s.handler.body, f)),
                   Paths(req, s.handler.body, Onward(state)).ok)
    decreases s, 2, 0
  {
    forall f | exact && f in req ensures ExactBlock(s.handler.body, f) {
      assert Exact(s, f) && PathRuns.OpenClosure(s.handler, Some(f));
    }
    StateReads(exact, req, s.handler.body, false, state);
  }

  lemma {:induction false} FinalizerReads(exact: bool, req: set<Name>, s: Stmt, state: set<Name>)
    requires s.Try? && s.finalizer.Func? && Followed(s, false) && (exact ==> AllExact(req, s))
    ensures Passes(exact, (forall f :: f in req && f !in state ==> !BlockMeets(Checked, s.finalizer.body, f)),
                   Finally(req, s.finalizer.body, PendingExits(req, s, state)).ok)
    ensures forall f :: PendsSomehow(s, Some(f))
    decreases s, 2, 0
  {
    var p := PendingExits(req, s, state);
    forall f | exact && f in req ensures ExactBlock(s.finalizer.body, f) {
      assert Exact(s, f) && PathRuns.OpenClosure(s.finalizer, Some(f));
    }
    FinallyReads(exact, req, s.finalizer.body, p);
    forall f | f in req && f !in state ensures LackingSomehow(p, f) { PendingSomehow(req, s, state, f); }
    forall f | exact && f in req && f in state ensures !LackingSomehow(p, f) { PendingHolds(exact, req, s, state, f); }
    forall f ensures PendsSomehow(s, Some(f)) { assert Pends(s, Some(f), ByThrow); }
  }

  lemma {:induction false} FinallyReads(exact: bool, req: set<Name>, b: Block, pending: seq<Exit>)
    requires FollowedBlock(b, false) && (exact ==> AllExactBlock(req, b))
    ensures Passes(exact, (forall f :: f in req && LackingSomehow(pending, f) ==> !BlockMeets(Checked, b, f)),
                   Finally(req, b, pending).ok)
    decreases b, 1, |pending|
  {
    if pending == [] { forall f ensures !LackingSomehow(pending, f) {} }
    else {
      StateReads(exact, req, b, false, pending[0].state);
      FinallyReads(exact, req, b, pending[1..]);
      forall f ensures LackingSomehow(pending, f) <==> f !in pending[0].state || LackingSomehow(pending[1..], f) {
        SomehowFirst(pending, f);
      }
    }
  }

  /** No path from an exit that lacks a required field makes a checked read of it early. */
  ghost predicate LateFrom(req: set<Name>, b: Block, exits: seq<Exit>) {
    forall f :: f in req && Lacking(exits, ToNext, f) ==> !BlockMeets(Checked, b, f)
  }

  lemma {:induction false} PathsRead(exact: bool, req: set<Name>, b: Block, fall: bool, exits: seq<Exit>)
    requires FollowedBlock(b, fall) && (exact ==> AllExactBlock(req, b))
    ensures Passes(exact, LateFrom(req, b, exits), Paths(req, b, exits).ok)
    decreases b, 0, 0
  {
    if b.Cons? {
      var v := StepEach(req, b.head, exits);
      StepEachReads(exact, req, b.head, fall && b.tail.Nil?, exits);
      PathsRead(exact, req, b.tail, fall, Merge(v.exits));
      forall f | f in req
        ensures Agrees(exact, ToNext, Lacking(exits, ToNext, f) && Goes(b.head, NO_LABEL, Some(f), Through),
                       Lacking(Merge(v.exits), ToNext, f))
      {
        StepEachLacks(exact, req, b.head, fall && b.tail.Nil?, exits, ToNext, f);
        LackingMerge(v.exits, ToNext, f);
      }
    }
  }

  lemma {:induction false} StepEachReads(exact: bool, req: set<Name>, s: Stmt, fall: bool, exits: seq<Exit>)
    requires Followed(s, fall) && (exact ==> AllExact(req, s))
    ensures Passes(exact, (forall f :: f in req && Lacking(exits, ToNext, f) ==> !Meets(Checked, s, NO_LABEL, f)),
                   StepEach(req, s, exits).ok)
    decreases s, 4, |exits|
  {
    if exits == [] { forall f ensures !Lacking(exits, ToNext, f) {} }
    else {
      StepEachReads(exact, req, s, fall, exits[1..]);
      if exits[0].flow == ToNext { StepReads(exact, req, s, fall, exits[0].state); }
      forall f ensures Lacking(exits, ToNext, f) <==>
                       (exits[0].flow == ToNext && f !in exits[0].state) || Lacking(exits[1..], ToNext, f)
      { FirstLacks(exits, ToNext, f); }
    }
  }

  // ----- acceptance -----

  /** A constructor is accepted only if, for each required field on its own, no path
      makes a checked read of it before setting it and none that ends normally or by
      `return` leaves it unset; and where the analysis is exact, whenever that is so. */
  lemma AcceptsPaths(exact: bool, req: set<Name>, body: Block)
    requires FollowedBlock(body, false) && (exact ==> AllExactBlock(req, body))
    ensures Passes(exact,
              (forall f ::
               f in req ==> !BlockMeets(Checked, body, f) && !BlockGoes(body, Some(f), Through)
                            && !BlockGoes(body, Some(f), ByReturn)),
              Accepts(req, body))
  {
    var v := Paths(req, body, Onward({}));
    StateReads(exact, req, body, false, {});
    forall f | f in req
      ensures Agrees(exact, ToNext, BlockGoes(body, Some(f), Through), Lacking(v.exits, ToNext, f))
      ensures Agrees(exact, ToReturn, BlockGoes(body, Some(f), ByReturn), Lacking(v.exits, ToReturn, f))
    {
      FromState(exact, req, body, false, {}, ToNext, f);
      FromState(exact, req, body, false, {}, ToReturn, f);
    }
    CompleteExits(req, body);
  }

  lemma CompleteExits(req: set<Name>, body: Block)
    ensures var v := Paths(req, body, Onward({}));
            Accepts(req, body) <==> v.ok && forall f ::
                f in req ==> !Lacking(v.exits, ToNext, f) && !Lacking(v.exits, ToReturn, f)
  {
    var v := Paths(req, body, Onward({}));
    if !Accepts(req, body) && v.ok {
      var i :| 0 <= i < |v.exits| && (v.exits[i].flow == ToNext || v.exits[i].flow == ToReturn)
          && !(req <= v.exits[i].state);
      var f :| f in req && f !in v.exits[i].state;
      LackingAt(v.exits, i, f);
    }
  }

  /** At least no field is left unset. */
  lemma AcceptsComplete(req: set<Name>, body: Block)
    requires FollowedBlock(body, false) && Accepts(req, body)
    ensures forall f :: f in req ==> !BlockGoes(body, Some(f), Through) && !BlockGoes(body, Some(f), ByReturn)
  {
    CompleteExits(req, body);
    forall f | f in req ensures !BlockGoes(body, Some(f), Through) && !BlockGoes(body, Some(f), ByReturn) {
      FromState(false, req, body, false, {}, ToNext, f);
      FromState(false, req, body, false, {}, ToReturn, f);
    }
  }
}
