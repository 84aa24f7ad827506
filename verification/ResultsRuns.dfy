/** The induction behind the soundness of the named-result analysis: every
    statement, run from a state an entry exit covers, ends as one of its exits
    says. */
module ResultsRuns {
  import opened Syntax
  import opened Machine
  import opened Headers
  import opened NamedResults
  import opened ResultsSound

  // ----- exits through the analysis -----

  lemma {:induction false} StepEachCovers(req: set<Name>, cb: bool, s: Stmt, exits: seq<Exit>, i: nat, flow: Flow,
                                          done: set<Name>)
    requires i < |exits|
    requires if exits[i].flow != ToNext then exits[i].flow == flow && exits[i].state <= done
             else Covers(Step(req, cb, s, exits[i].state).exits, flow, done)
    ensures Covers(StepEach(req, cb, s, exits).exits, flow, done)
    decreases |exits|
  {
    var v := if exits[0].flow != ToNext then Verdict([exits[0]], true) else Step(req, cb, s, exits[0].state);
    var rest := StepEach(req, cb, s, exits[1..]);
    if i == 0 {
      if exits[0].flow != ToNext { assert v.exits[0] == exits[0]; }
      CoversLeft(v.exits, rest.exits, flow, done);
    } else {
      StepEachCovers(req, cb, s, exits[1..], i - 1, flow, done);
      CoversRight(v.exits, rest.exits, flow, done);
    }
  }

  lemma {:induction false} StepEachOk(req: set<Name>, cb: bool, s: Stmt, exits: seq<Exit>, i: nat)
    requires i < |exits| && exits[i].flow == ToNext && StepEach(req, cb, s, exits).ok
    ensures Step(req, cb, s, exits[i].state).ok
    decreases |exits|
  {
    if i > 0 { StepEachOk(req, cb, s, exits[1..], i - 1); }
  }

  /** Paths that have left the block stay as they are. */
  lemma {:induction false} PathsKeep(req: set<Name>, cb: bool, b: Block, exits: seq<Exit>, flow: Flow, done: set<Name>)
    requires Covers(exits, flow, done) && flow != ToNext
    ensures Covers(Paths(req, cb, b, exits).exits, flow, done)
    decreases b
  {
    if b.Cons? {
      var i :| 0 <= i < |exits| && exits[i].flow == flow && exits[i].state <= done;
      StepEachCovers(req, cb, b.head, exits, i, flow, done);
      MergeCovers(StepEach(req, cb, b.head, exits).exits, flow, done);
      PathsKeep(req, cb, b.tail, Merge(StepEach(req, cb, b.head, exits).exits), flow, done);
    }
  }

  lemma {:induction false} EntriesCovers(req: set<Name>, cb: bool, s: Stmt, entries: seq<Exit>, i: nat, flow: Flow,
                                         done: set<Name>)
    requires (s.If? || s.For? || s.Switch?) && i < |entries| && entries[i].flow == ToNext
    requires Covers(Entry(req, cb, s, entries[i].state).exits, flow, done)
    ensures Covers(Entries(req, cb, s, entries).exits, flow, done)
    decreases |entries|
  {
    var e := entries[0];
    var v := if e.flow != ToNext && !s.Switch? then Verdict([e], true) else Entry(req, cb, s, e.state);
    var rest := Entries(req, cb, s, entries[1..]);
    if i == 0 { CoversLeft(v.exits, rest.exits, flow, done); }
    else {
      EntriesCovers(req, cb, s, entries[1..], i - 1, flow, done);
      CoversRight(v.exits, rest.exits, flow, done);
    }
  }

  lemma {:induction false} EntriesOk(req: set<Name>, cb: bool, s: Stmt, entries: seq<Exit>, i: nat)
    requires (s.If? || s.For? || s.Switch?) && i < |entries| && entries[i].flow == ToNext
             && Entries(req, cb, s, entries).ok
    ensures Entry(req, cb, s, entries[i].state).ok
    decreases |entries|
  {
    if i > 0 { EntriesOk(req, cb, s, entries[1..], i - 1); }
  }

  lemma {:induction false} PostChecked(req: set<Name>, cb: bool, post: Block, exits: seq<Exit>, i: nat)
    requires PostOk(req, cb, post, exits) && i < |exits|
    requires exits[i].flow == ToNext || exits[i].flow == ToContinue(NO_LABEL)
    ensures Paths(req, cb, post, Onward(exits[i].state)).ok
    decreases |exits|
  {
    if i > 0 { PostChecked(req, cb, post, exits[1..], i - 1); }
  }

  lemma {:induction false} FinallyCovers(req: set<Name>, b: Block, pending: seq<Exit>, i: nat, flow: Flow,
                                         done: set<Name>)
    requires i < |pending| && Covers(CallbackPaths(req, b, pending[i].state).exits, flow, done)
    ensures Covers(Finally(req, b, pending).exits, flow, done)
    decreases |pending|
  {
    var first, rest := CallbackPaths(req, b, pending[0].state).exits, Finally(req, b, pending[1..]).exits;
    if i == 0 { CoversLeft(first, rest, flow, done); }
    else {
      FinallyCovers(req, b, pending[1..], i - 1, flow, done);
      CoversRight(first, rest, flow, done);
    }
  }

  lemma {:induction false} FinallyOk(req: set<Name>, b: Block, pending: seq<Exit>, i: nat)
    requires i < |pending| && Finally(req, b, pending).ok
    ensures CallbackPaths(req, b, pending[i].state).ok
    decreases |pending|
  {
    if i > 0 { FinallyOk(req, b, pending[1..], i - 1); }
  }

  lemma SoundOn(q: Q, cb: bool, clean: bool, j: Jumps, lab: Name, exits: seq<Exit>, a: State, b: State, r: R)
    requires Keeps(q, clean, a.u, b.u) && b.u.next >= a.u.next && Sound(q, cb, clean, j, lab, exits, b, r)
    ensures Sound(q, cb, clean, j, lab, exits, a, r)
  {
    KeepsOn(q, clean, a.u, b.u, r.st.u);
  }

  // ----- blocks and statements -----

  lemma {:induction false} BlockSound(q: Q, cb: bool, clean: bool, b: Block, j: Jumps, exits: seq<Exit>, st: State,
                                      fuel: nat)
    requires FineBlock(q.req, b, j) && (clean ==> ReadyBlock(q.req, cb, b, exits)) && Home(q, st.u)
    requires Covers(exits, ToNext, Done(q, st.u)) && Paths(q.req, cb, b, exits).ok
    ensures Sound(q, cb, clean, j, NO_LABEL, Paths(q.req, cb, b, exits).exits, st, ExecBlock(q.fn, b, st, fuel))
    decreases b, fuel, 1
  {
    if b.Cons? {
      var i :| 0 <= i < |exits| && exits[i].flow == ToNext && exits[i].state <= Done(q, st.u);
      var v := StepEach(q.req, cb, b.head, exits);
      var r := Exec(q.fn, b.head, NO_LABEL, st, fuel);
      HeadSound(q, cb, clean, b.head, j, b.tail.Nil?, exits, i, st, fuel);
      if r.c.Normal? { TailSound(q, cb, clean, b.tail, j, Merge(v.exits), st, r.st, fuel); }
      else if !r.c.Stuck? && !r.c.Thrown? {
        PathsKeep(q.req, cb, b.tail, Merge(v.exits), FlowOf(r.c), Done(q, r.st.u));
      }
    }
  }

  /** One statement of a list, from one of its exits. */
  lemma {:induction false} HeadSound(q: Q, cb: bool, clean: bool, s: Stmt, j: Jumps, last: bool, exits: seq<Exit>,
                                     i: nat, st: State, fuel: nat)
    requires i < |exits| && exits[i].flow == ToNext && exits[i].state <= Done(q, st.u)
             && StepEach(q.req, cb, s, exits).ok
    requires var k := j.(fall := j.fall && last);
             Fine(q.req, s, k, NO_LABEL) && (clean ==> Ready(q.req, cb, s, NO_LABEL, exits[i].state)) && Home(q, st.u)
    ensures Sound(q, cb, clean, j, NO_LABEL, Merge(StepEach(q.req, cb, s, exits).exits), st,
                  Exec(q.fn, s, NO_LABEL, st, fuel))
    decreases s, fuel, 7
  {
    StepEachOk(q.req, cb, s, exits, i);
    StmtSound(q, cb, clean, s, j.(fall := j.fall && last), NO_LABEL, exits[i].state, st, fuel);
    var r := Exec(q.fn, s, NO_LABEL, st, fuel);
    if !r.c.Stuck? && !r.c.Thrown? {
      StepEachCovers(q.req, cb, s, exits, i, FlowOf(r.c), Done(q, r.st.u));
      MergeCovers(StepEach(q.req, cb, s, exits).exits, FlowOf(r.c), Done(q, r.st.u));
    }
  }

  lemma {:induction false} TailSound(q: Q, cb: bool, clean: bool, b: Block, j: Jumps, exits: seq<Exit>, st: State,
                                     next: State, fuel: nat)
    requires FineBlock(q.req, b, j) && (clean ==> ReadyBlock(q.req, cb, b, exits)) && Keeps(q, clean, st.u, next.u)
               && next.u.next >= st.u.next
    requires Covers(exits, ToNext, Done(q, next.u)) && Paths(q.req, cb, b, exits).ok
    ensures Sound(q, cb, clean, j, NO_LABEL, Paths(q.req, cb, b, exits).exits, st, ExecBlock(q.fn, b, next, fuel))
    decreases b, fuel, 2
  {
    BlockSound(q, cb, clean, b, j, exits, next, fuel);
    SoundOn(q, cb, clean, j, NO_LABEL, Paths(q.req, cb, b, exits).exits, st, next, ExecBlock(q.fn, b, next, fuel));
  }

  /** A block run in its own scope. */
  lemma {:induction false} ScopeSound(q: Q, cb: bool, clean: bool, b: Block, j: Jumps, state: set<Name>, st: State,
                                      fuel: nat)
    requires FineBlock(q.req, b, j) && (clean ==> ReadyBlock(q.req, cb, b, Onward(state))) && Home(q, st.u)
    requires state <= Done(q, st.u) && Paths(q.req, cb, b, Onward(state)).ok
    ensures Sound(q, cb, clean, j, NO_LABEL, Paths(q.req, cb, b, Onward(state)).exits, st, ExecBlock(q.fn, b, st, fuel))
    ensures Sound(q, cb, clean, j, NO_LABEL, Paths(q.req, cb, b, Onward(state)).exits, st,
                  Leave(ExecBlock(q.fn, b, st, fuel), st.u.env))
    decreases b, fuel, 2
  {
    CoversNext(state, Done(q, st.u));
    BlockSound(q, cb, clean, b, j, Onward(state), st, fuel);
    LeaveKeeps(q, clean, st, ExecBlock(q.fn, b, st, fuel));
  }

  lemma {:induction false} StmtSound(q: Q, cb: bool, clean: bool, s: Stmt, j: Jumps, lab: Name, state: set<Name>,
                                     st: State, fuel: nat)
    requires Fine(q.req, s, j, lab) && (clean ==> Ready(q.req, cb, s, lab, state)) && Home(q, st.u)
    requires state <= Done(q, st.u) && Step(q.req, cb, s, state).ok
    ensures Sound(q, cb, clean, j, lab, Step(q.req, cb, s, state).exits, st, Exec(q.fn, s, lab, st, fuel))
    decreases s, fuel, 6
  {
    if s.Scope? { ScopeSound(q, cb, clean, s.body, Inner(j), state, st, fuel); }
    else if s.OnFlow? || s.OnAnyFlow? {
      OptionalSound(q, cb, clean, s.thn, j, lab, state, st, fuel);
      OptionalSkipped(q, cb, clean, s.thn, j, lab, state, st);
    }
    else if s.If? || s.For? || s.Switch? { CompoundSound(q, cb, clean, s, j, lab, state, st, fuel); }
    else if s.Range? { RangeSound(q, cb, clean, s, j, lab, state, st, fuel); }
    else if s.RtTry? { TrySound(q, cb, clean, s, j, lab, state, st, fuel); }
    else if s.Labeled? { LabeledSound(q, cb, clean, s, j, lab, state, st, fuel); }
    else { SimpleSound(q, cb, clean, s, j, lab, state, st, fuel); }
  }

  lemma RunsBasic(fn: Fn, s: Stmt, lab: Name, st: State, fuel: nat)
    requires Basic(s) || s.Assign? || s.SetSlots? || s.Return? || s.ReturnSlots? || s.Labeled?
    ensures Exec(fn, s, lab, st, fuel) == ExecBasic(fn, s, st, fuel)
  {}

  lemma SimpleSound(q: Q, cb: bool, clean: bool, s: Stmt, j: Jumps, lab: Name, state: set<Name>, st: State, fuel: nat)
    requires Basic(s) || s.Assign? || s.SetSlots? || s.Return? || s.ReturnSlots?
    requires Fine(q.req, s, j, lab) && (clean ==> Ready(q.req, cb, s, lab, state)) && Home(q, st.u)
    requires state <= Done(q, st.u) && Step(q.req, cb, s, state).ok
    ensures Sound(q, cb, clean, j, lab, Step(q.req, cb, s, state).exits, st, Exec(q.fn, s, lab, st, fuel))
  {
    RunsBasic(q.fn, s, lab, st, fuel);
    if s.Assign? { AssignSound(q, cb, clean, s, j, state, st); }
    else if s.SetSlots? { SetSlotsSound(q, cb, clean, s.es, j, state, st); }
    else if s.Return? || s.ReturnSlots? { ReturnSound(q, cb, clean, s, j, state, st); }
    else { BasicSound(q, cb, clean, s, j, lab, state, st, fuel); }
  }

  lemma {:induction false} OptionalSound(q: Q, cb: bool, clean: bool, thn: Block, j: Jumps, lab: Name,
                                         state: set<Name>, st: State, fuel: nat)
    requires FineBlock(q.req, thn, Inner(j)) && (clean ==> ReadyBlock(q.req, cb, thn, Onward(state))) && Home(q, st.u)
    requires state <= Done(q, st.u) && Optional(q.req, cb, thn, state).ok
    ensures Sound(q, cb, clean, j, lab, Optional(q.req, cb, thn, state).exits, st,
                  Leave(ExecBlock(q.fn, thn, st, fuel), st.u.env))
    decreases thn, fuel, 3
  {
    var exits := Paths(q.req, cb, thn, Onward(state)).exits;
    ScopeSound(q, cb, clean, thn, Inner(j), state, st, fuel);
    EitherEnds(q, cb, j, lab, exits, Onward(state), Leave(ExecBlock(q.fn, thn, st, fuel), st.u.env), true);
  }

  lemma OptionalSkipped(q: Q, cb: bool, clean: bool, thn: Block, j: Jumps, lab: Name, state: set<Name>, st: State)
    requires Home(q, st.u) && state <= Done(q, st.u)
    ensures Sound(q, cb, clean, j, lab, Optional(q.req, cb, thn, state).exits, st, R(Normal, st))
  {
    CoversNext(state, Done(q, st.u));
    EitherEnds(q, cb, j, lab, Paths(q.req, cb, thn, Onward(state)).exits, Onward(state), R(Normal, st), false);
  }

  /** What ends as one of two lists says ends as their merger says. */
  lemma EitherEnds(q: Q, cb: bool, j: Jumps, lab: Name, a: seq<Exit>, b: seq<Exit>, r: R, left: bool)
    requires Ends(q, cb, Inner(j), NO_LABEL, if left then a else b, r)
    ensures Ends(q, cb, j, lab, Merge(a + b), r)
  {
    if !r.c.Stuck? && !r.c.Thrown? {
      var flow, done := FlowOf(r.c), Done(q, r.st.u);
      if left { CoversLeft(a, b, flow, done); } else { CoversRight(a, b, flow, done); }
      MergeCovers(a + b, flow, done);
    }
  }

  /** Jumps to the label end here; the analysis then promises nothing. */
  lemma {:induction false} LabeledSound(q: Q, cb: bool, clean: bool, s: Stmt, j: Jumps, lab: Name, state: set<Name>,
                                        st: State, fuel: nat)
    requires s.Labeled? && Fine(q.req, s, j, lab) && (clean ==> Ready(q.req, cb, s, lab, state)) && Home(q, st.u)
    requires state <= Done(q, st.u) && Step(q.req, cb, s, state).ok
    ensures Sound(q, cb, clean, j, lab, Step(q.req, cb, s, state).exits, st, Exec(q.fn, s, lab, st, fuel))
    decreases s, fuel, 5
  {
    var v := Step(q.req, cb, s.stmt, {});
    StmtSound(q, cb, clean, s.stmt, Inner(j), s.lab, {}, st, fuel);
    var r := Exec(q.fn, s.stmt, s.lab, st, fuel);
    RunsBasic(q.fn, s, lab, st, fuel);
    if !r.c.Stuck? && !r.c.Thrown? {
      var flow := if Covers(v.exits, FlowOf(r.c), Done(q, r.st.u)) then FlowOf(r.c) else ToBreak(s.lab);
      RelabelCovers(v.exits, s.lab, flow, Done(q, r.st.u));
      MergeCovers(Relabel(v.exits, s.lab), Landed(Exit({}, flow), s.lab).flow, Done(q, r.st.u));
    }
  }

  // ----- headers -----

  lemma SimpleCompletes(fn: Fn, b: Block, st: State, fuel: nat)
    requires SimpleStmt(b)
    ensures var c := ExecBlock(fn, b, st, fuel).c; c.Normal? || c.Thrown?
  {
    if b.Cons? {
      assert b.tail.Nil?;
      var r := Exec(fn, b.head, NO_LABEL, st, fuel);
      assert r == ExecBasic(fn, b.head, st, fuel);
      assert ExecBlock(fn, b.tail, r.st, fuel) == R(Normal, r.st);
    }
  }

  lemma {:induction false} CompoundSound(q: Q, cb: bool, clean: bool, s: Stmt, j: Jumps, lab: Name, state: set<Name>,
                                         st: State, fuel: nat)
    requires (s.If? || s.For? || s.Switch?) && Fine(q.req, s, j, lab) && (clean ==> Ready(q.req, cb, s, lab, state))
               && Home(q, st.u)
    requires state <= Done(q, st.u) && Step(q.req, cb, s, state).ok
    ensures Sound(q, cb, clean, j, lab, Step(q.req, cb, s, state).exits, st, Exec(q.fn, s, lab, st, fuel))
    decreases s, fuel, 5
  {
    assert Step(q.req, cb, s, state) == Compound(q.req, cb, s, s.init, state);
    InitSound(q, cb, clean, s, j, lab, state, st, fuel);
    HeaderFirst(q.fn, s, lab, st, fuel);
    SimpleCompletes(q.fn, s.init, st, fuel);
    var r := ExecBlock(q.fn, s.init, st, fuel);
    if r.c.Normal? { HeadedSound(q, cb, clean, s, j, lab, state, st, r.st, fuel); }
    else { LeaveKeeps(q, clean, st, r); }
  }

  /** The init statement. */
  lemma {:induction false} InitSound(q: Q, cb: bool, clean: bool, s: Stmt, j: Jumps, lab: Name, state: set<Name>,
                                     st: State, fuel: nat)
    requires (s.If? || s.For? || s.Switch?) && Fine(q.req, s, j, lab) && (clean ==> Ready(q.req, cb, s, lab, state))
               && Home(q, st.u)
    requires state <= Done(q, st.u) && Compound(q.req, cb, s, s.init, state).ok
    ensures Sound(q, cb, clean, NO_JUMPS, NO_LABEL, Paths(q.req, cb, s.init, Onward(state)).exits, st,
                  ExecBlock(q.fn, s.init, st, fuel))
    decreases s, fuel, 4
  {
    ScopeSound(q, cb, clean, s.init, NO_JUMPS, state, st, fuel);
  }

  /** ... and what follows it when it completes. */
  lemma {:induction false} HeadedSound(q: Q, cb: bool, clean: bool, s: Stmt, j: Jumps, lab: Name, state: set<Name>,
                                       st: State, next: State, fuel: nat)
    requires (s.If? || s.For? || s.Switch?) && Fine(q.req, s, j, lab) && (clean ==> Ready(q.req, cb, s, lab, state))
               && Home(q, st.u)
    requires Compound(q.req, cb, s, s.init, state).ok
    requires Keeps(q, clean, st.u, next.u) && next.u.next >= st.u.next
    requires Covers(Paths(q.req, cb, s.init, Onward(state)).exits, ToNext, Done(q, next.u))
    ensures Sound(q, cb, clean, j, lab, Compound(q.req, cb, s, s.init, state).exits, st,
                  Leave(AfterHeader(q.fn, s, lab, next, fuel), st.u.env))
    decreases s, fuel, 4
  {
    var entries := Paths(q.req, cb, s.init, Onward(state)).exits;
    var k :| 0 <= k < |entries| && entries[k].flow == ToNext && entries[k].state <= Done(q, next.u);
    EntriesOk(q.req, cb, s, entries, k);
    EntrySound(q, cb, clean, s, j, lab, entries[k].state, next, fuel);
    var a := AfterHeader(q.fn, s, lab, next, fuel);
    EndsThrough(q, cb, s, j, lab, entries, k, a);
    SoundOn(q, cb, clean, j, lab, Compound(q.req, cb, s, s.init, state).exits, st, next, a);
    LeaveKeeps(q, clean, st, a);
  }

  lemma EndsThrough(q: Q, cb: bool, s: Stmt, j: Jumps, lab: Name, entries: seq<Exit>, k: nat, r: R)
    requires (s.If? || s.For? || s.Switch?) && k < |entries| && entries[k].flow == ToNext
    requires Ends(q, cb, j, lab, Entry(q.req, cb, s, entries[k].state).exits, r)
    ensures Ends(q, cb, j, lab, Merge(Entries(q.req, cb, s, entries).exits), r)
  {
    if !r.c.Stuck? && !r.c.Thrown? {
      var one, done := Entry(q.req, cb, s, entries[k].state).exits, Done(q, r.st.u);
      var flow := if Covers(one, FlowOf(r.c), done) then FlowOf(r.c) else ToBreak(lab);
      EntriesCovers(q.req, cb, s, entries, k, flow, done);
      MergeCovers(Entries(q.req, cb, s, entries).exits, flow, done);
    }
  }

  lemma {:induction false} EntrySound(q: Q, cb: bool, clean: bool, s: Stmt, j: Jumps, lab: Name, state: set<Name>,
                                      st: State, fuel: nat)
    requires (s.If? || s.For? || s.Switch?) && Fine(q.req, s, j, lab)
             && (clean ==> ReadyEntry(q.req, cb, s, lab, state))
               && Home(q, st.u)
    requires state <= Done(q, st.u) && Entry(q.req, cb, s, state).ok
    ensures Sound(q, cb, clean, j, lab, Entry(q.req, cb, s, state).exits, st, AfterHeader(q.fn, s, lab, st, fuel))
    decreases s, fuel, 3, 1
  {
    if s.If? { IfSound(q, cb, clean, s, j, lab, state, st, fuel); }
    else if s.For? { LoopSound(q, cb, clean, s, j, lab, state, st, fuel); }
    else { SwitchSound(q, cb, clean, s, j, lab, state, st, fuel); }
  }

  lemma {:induction false} IfSound(q: Q, cb: bool, clean: bool, s: Stmt, j: Jumps, lab: Name, state: set<Name>,
                                   st: State, fuel: nat)
    requires s.If? && Fine(q.req, s, j, lab) && (clean ==> ReadyEntry(q.req, cb, s, lab, state)) && Home(q, st.u)
    requires state <= Done(q, st.u) && IfEntry(q.req, cb, s, state).ok
    ensures Sound(q, cb, clean, j, lab, IfEntry(q.req, cb, s, state).exits, st, AfterHeader(q.fn, s, lab, st, fuel))
    decreases s, fuel, 3, 0
  {
    EvalKeeps(q, clean, s.test, state, st.u);
    var o := EvalExpr(q.fn, s.test, st.u);
    var t, e := Paths(q.req, cb, s.thn, Onward(state)), Paths(q.req, cb, s.els, Onward(state));
    if o.Yields? {
      var st1 := st.(u := o.u);
      var taken := if First(o.vals) != 0 then s.thn else s.els;
      var r := ExecBlock(q.fn, taken, st1, fuel);
      ScopeSound(q, cb, clean, taken, Inner(j), state, st1, fuel);
      if !r.c.Stuck? && !r.c.Thrown? {
        if First(o.vals) != 0 { CoversLeft(t.exits, e.exits, FlowOf(r.c), Done(q, r.st.u)); }
        else { CoversRight(t.exits, e.exits, FlowOf(r.c), Done(q, r.st.u)); }
      }
      SoundOn(q, cb, clean, j, lab, t.exits + e.exits, st, st1, r);
    }
  }

  // ----- loops -----

  lemma CondKeeps(q: Q, clean: bool, c: Cond, state: set<Name>, u: User)
    requires Home(q, u) && state <= Done(q, u) && (clean ==> ReadsOk(q.req, CondExprs(c), state))
    ensures Keeps(q, clean, u, EvalCond(q.fn, c, u).u) && EvalCond(q.fn, c, u).u.env == u.env
    ensures EvalCond(q.fn, c, u).u.next >= u.next
    ensures c.Always? ==> EvalCond(q.fn, c, u) == Yields([1], u)
  {
    if c.When? {
      if clean { assert CondExprs(c)[0] == c.e; }
      EvalKeeps(q, clean, c.e, state, u);
    }
  }

  lemma {:induction false} LoopSound(q: Q, cb: bool, clean: bool, s: Stmt, j: Jumps, lab: Name, state: set<Name>,
                                     st: State, fuel: nat)
    requires s.For? && Fine(q.req, s, j, lab) && (clean ==> ReadyEntry(q.req, cb, s, lab, state)) && Home(q, st.u)
    requires state <= Done(q, st.u) && ForEntry(q.req, cb, s, state).ok
    ensures Sound(q, cb, clean, j, lab, ForEntry(q.req, cb, s, state).exits, st, Loop(q.fn, s, lab, st, fuel))
    decreases s, fuel, 3, 0
  {
    var exits := ForEntry(q.req, cb, s, state).exits;
    CondKeeps(q, clean, s.cond, state, st.u);
    var o := EvalCond(q.fn, s.cond, st.u);
    if fuel > 0 && o.Yields? {
      if First(o.vals) == 0 {
        CoversNext(state, Done(q, o.u));
        CoversLeft(Onward(state), Reroute(Paths(q.req, cb, s.body, Onward(state)).exits, OutOfLoop), ToNext,
                   Done(q, o.u));
      } else {
        var st1 := st.(u := o.u);
        BodySound(q, cb, clean, s, j, lab, state, st1, fuel);
        var r := Leave(ExecBlock(q.fn, s.body, st1, fuel), st1.u.env);
        TurnSound(q, cb, clean, s, j, lab, state, st1, r, fuel);
        SoundOn(q, cb, clean, j, lab, exits, st, st1, EndTurn(q.fn, s, lab, r, fuel));
      }
    }
  }

  /** One turn of the body; where the code is ready, a labelled continue comes out of it
      only with everything assigned that the post statement reads. */
  lemma {:induction false} BodySound(q: Q, cb: bool, clean: bool, s: Stmt, j: Jumps, lab: Name, state: set<Name>,
                                     st: State, fuel: nat)
    requires s.For? && Fine(q.req, s, j, lab) && (clean ==> ReadyEntry(q.req, cb, s, lab, state)) && Home(q, st.u)
    requires state <= Done(q, st.u) && ForEntry(q.req, cb, s, state).ok
    ensures var r := Leave(ExecBlock(q.fn, s.body, st, fuel), st.u.env);
            && Sound(q, cb, clean, InLoop(j, lab), NO_LABEL, Paths(q.req, cb, s.body, Onward(state)).exits, st, r)
            && (clean && r.c == ContinueTo(lab) && lab != NO_LABEL ==> PostReads(s.post) * q.req <= Done(q, r.st.u))
    decreases s, fuel, 1
  {
    ScopeSound(q, cb, clean, s.body, InLoop(j, lab), state, st, fuel);
    var r := ExecBlock(q.fn, s.body, st, fuel);
    if clean && lab != NO_LABEL && r.c == ContinueTo(lab) {
      var exits := Paths(q.req, cb, s.body, Onward(state)).exits;
      var k :| 0 <= k < |exits| && exits[k].flow == ToContinue(lab) && exits[k].state <= Done(q, r.st.u);
    }
  }

  lemma PostReadable(req: set<Name>, cb: bool, post: Block, state: set<Name>)
    requires SimpleStmt(post) && PostReads(post) * req <= state
    ensures Paths(req, cb, post, Onward(state)).ok && ReadyBlock(req, cb, post, Onward(state))
  {
    if post.Cons? {
      var s := post.head;
      assert Onward(state)[1..] == [];
      assert StepEach(req, cb, s, []) == Verdict([], true);
      if s.Assign? {
        VarsReadable(req, Operands(s.lhs), state);
        VarsReadable(req, s.rhs, state);
        TargetsReadable(req, s.lhs, state, state);
      }
      if s.Declare? { VarsReadable(req, s.rhs, state); }
      assert Step(req, cb, s, state).ok;
      assert StepEach(req, cb, s, Onward(state)).ok;
      assert Paths(req, cb, post.tail, Merge(StepEach(req, cb, s, Onward(state)).exits)).ok;
    }
  }

  lemma VarsReadable(req: set<Name>, es: seq<Expr>, state: set<Name>)
    ensures ReadsOk(req, es, state) <==> VarsOf(es) * req <= state
  {
    if VarsOf(es) * req <= state {
      forall i | 0 <= i < |es| ensures ReadOk(req, es[i], state) {
        forall x | x in Vars(es[i]) ensures x in VarsOf(es) { assert es[i] in es; }
      }
    } else {
      var x :| x in VarsOf(es) * req && x !in state;
      var e :| e in es && x in Vars(e);
      var i :| 0 <= i < |es| && es[i] == e;
      assert !ReadOk(req, es[i], state);
    }
  }

  /** Targets whose operands were readable before the assignment pass. */
  lemma {:induction false} TargetsReadable(req: set<Name>, lhs: seq<Lhs>, before: set<Name>, state: set<Name>)
    requires ReadsOk(req, Operands(lhs), before) && before <= state
    ensures Targets(req, lhs, state).ok
    decreases |lhs|
  {
    if lhs != [] {
      var rest := Operands(lhs[1..]);
      forall i | 0 <= i < |rest| ensures ReadOk(req, rest[i], before) {
        assert rest[i] == Operands(lhs)[if lhs[0].At? then i + 1 else i];
      }
      if lhs[0].At? { assert Operands(lhs)[0] == lhs[0].e; }
      TargetsReadable(req, lhs[1..], before, if lhs[0].Var? && lhs[0].x in req then state + {lhs[0].x} else state);
    }
  }

  /** The post statement after a turn, whatever led to it. */
  lemma {:induction false} PostSound(q: Q, cb: bool, clean: bool, s: Stmt, j: Jumps, lab: Name, state: set<Name>,
                                     st: State, r: R, fuel: nat)
    requires s.For? && Fine(q.req, s, j, lab) && (clean ==> ReadyEntry(q.req, cb, s, lab, state))
    requires state <= Done(q, st.u) && ForEntry(q.req, cb, s, state).ok && Home(q, st.u)
    requires Sound(q, cb, clean, InLoop(j, lab), NO_LABEL, Paths(q.req, cb, s.body, Onward(state)).exits, st, r)
    requires r.c.Normal? || (r.c.ContinueTo? && Mine(r.c.lab, lab))
    requires clean && r.c == ContinueTo(lab) && lab != NO_LABEL ==> PostReads(s.post) * q.req <= Done(q, r.st.u)
    ensures var p := ExecBlock(q.fn, s.post, r.st, fuel);
            Keeps(q, clean, r.st.u, p.st.u) && p.st.u.next >= r.st.u.next && (p.c.Normal? || p.c.Thrown?)
    decreases s, fuel, 1
  {
    var b := Paths(q.req, cb, s.body, Onward(state));
    SimpleCompletes(q.fn, s.post, r.st, fuel);
    if r.c == ContinueTo(lab) && lab != NO_LABEL {
      PostUnchecked(q, cb, clean, s.post, r.st, fuel);
    } else {
      var k :| 0 <= k < |b.exits| && b.exits[k].flow == FlowOf(r.c) && b.exits[k].state <= Done(q, r.st.u);
      PostChecked(q.req, cb, s.post, b.exits, k);
      ScopeSound(q, cb, clean, s.post, NO_JUMPS, b.exits[k].state, r.st, fuel);
    }
  }

  /** A post statement that the analysis did not check from here still assigns at
      most more, and reads nothing required early if the code is ready. */
  lemma PostUnchecked(q: Q, cb: bool, clean: bool, post: Block, st: State, fuel: nat)
    requires SimpleStmt(post) && FineBlock(q.req, post, NO_JUMPS) && Home(q, st.u)
    requires clean ==> PostReads(post) * q.req <= Done(q, st.u)
    ensures var p := ExecBlock(q.fn, post, st, fuel); Keeps(q, clean, st.u, p.st.u) && p.st.u.next >= st.u.next
    decreases post, fuel, 3
  {
    if clean {
      PostReadable(q.req, cb, post, Done(q, st.u));
      ScopeSound(q, cb, clean, post, NO_JUMPS, Done(q, st.u), st, fuel);
    } else if post.Cons? {
      var s := post.head;
      var r := Exec(q.fn, s, NO_LABEL, st, fuel);
      assert r == ExecBasic(q.fn, s, st, fuel);
      assert ExecBlock(q.fn, post.tail, r.st, fuel) == R(Normal, r.st);
      if s.Eval? { EvalKeeps(q, false, s.e, {}, st.u); }
      else if s.Assign? { AssignKeeps(q, s.lhs, s.rhs, st.u); }
      else {
        EvalAllKeeps(q, false, s.rhs, {}, st.u);
        EvalAllNext(q.fn, s.rhs, st.u);
        var o := EvalAll(q.fn, s.rhs, st.u);
        if o.Yields? { BindKeeps(q, s.names, o.vals, o.u); }
      }
    }
  }

  lemma AssignKeeps(q: Q, lhs: seq<Lhs>, rhs: seq<Expr>, u: User)
    requires Home(q, u)
    ensures var o := AssignAll(q.fn, lhs, rhs, u); Keeps(q, false, u, o.u) && o.u.next >= u.next
  {
    var es := Operands(lhs) + rhs;
    EvalAllKeeps(q, false, es, {}, u);
    EvalAllNext(q.fn, es, u);
    var o := EvalAll(q.fn, es, u);
    if o.Yields? {
      var vals := if |Operands(lhs)| <= |o.vals| then o.vals[|Operands(lhs)|..] else [];
      StoreAllKeeps(q, lhs, vals, o.u);
      StoreAllNext(q.fn, lhs, vals, o.u);
    }
  }

  lemma {:induction false} TurnSound(q: Q, cb: bool, clean: bool, s: Stmt, j: Jumps, lab: Name, state: set<Name>,
                                     st: State, r: R, fuel: nat)
    requires s.For? && Fine(q.req, s, j, lab) && (clean ==> ReadyEntry(q.req, cb, s, lab, state)) && fuel > 0
               && Home(q, st.u)
    requires state <= Done(q, st.u) && ForEntry(q.req, cb, s, state).ok
    requires Sound(q, cb, clean, InLoop(j, lab), NO_LABEL, Paths(q.req, cb, s.body, Onward(state)).exits, st, r)
    requires clean && r.c == ContinueTo(lab) && lab != NO_LABEL ==> PostReads(s.post) * q.req <= Done(q, r.st.u)
    ensures Sound(q, cb, clean, j, lab, ForEntry(q.req, cb, s, state).exits, st, EndTurn(q.fn, s, lab, r, fuel))
    decreases s, fuel, 2
  {
    if r.c.Normal? || (r.c.ContinueTo? && Mine(r.c.lab, lab)) {
      PostSound(q, cb, clean, s, j, lab, state, st, r, fuel);
      var p := ExecBlock(q.fn, s.post, r.st, fuel);
      KeepsOn(q, clean, st.u, r.st.u, p.st.u);
      if p.c.Normal? { NextTurnSound(q, cb, clean, s, j, lab, state, st, p.st, fuel); }
    } else {
      TurnEnds(q, cb, j, lab, Paths(q.req, cb, s.body, Onward(state)).exits,
               if s.cond.When? then Onward(state) else [], r);
    }
  }

  lemma {:induction false} NextTurnSound(q: Q, cb: bool, clean: bool, s: Stmt, j: Jumps, lab: Name, state: set<Name>,
                                         st: State, next: State, fuel: nat)
    requires s.For? && Fine(q.req, s, j, lab) && (clean ==> ReadyEntry(q.req, cb, s, lab, state)) && fuel > 0
    requires Keeps(q, clean, st.u, next.u) && next.u.next >= st.u.next
    requires state <= Done(q, st.u) && ForEntry(q.req, cb, s, state).ok
    ensures Sound(q, cb, clean, j, lab, ForEntry(q.req, cb, s, state).exits, st, Loop(q.fn, s, lab, next, fuel - 1))
    decreases s, fuel, 1
  {
    LoopSound(q, cb, clean, s, j, lab, state, next, fuel - 1);
    SoundOn(q, cb, clean, j, lab, ForEntry(q.req, cb, s, state).exits, st, next, Loop(q.fn, s, lab, next, fuel - 1));
  }

  /** A turn that leaves the loop. */
  lemma TurnEnds(q: Q, cb: bool, j: Jumps, lab: Name, exits: seq<Exit>, skipped: seq<Exit>, r: R)
    requires Ends(q, cb, InLoop(j, lab), NO_LABEL, exits, r)
    requires !r.c.Normal? && !(r.c.ContinueTo? && Mine(r.c.lab, lab))
    ensures Ends(q, cb, j, lab, skipped + Reroute(exits, OutOfLoop),
                 if r.c.BreakTo? && Mine(r.c.lab, lab) then r.(c := Normal) else r)
  {
    if !r.c.Stuck? && !r.c.Thrown? {
      var done := Done(q, r.st.u);
      RerouteCovers(exits, OutOfLoop, FlowOf(r.c), done);
      CoversRight(skipped, Reroute(exits, OutOfLoop), Via(OutOfLoop, FlowOf(r.c)).value, done);
    }
  }

  // ----- range -----

  lemma {:induction false} RangeSound(q: Q, cb: bool, clean: bool, s: Stmt, j: Jumps, lab: Name, state: set<Name>,
                                      st: State, fuel: nat)
    requires s.Range? && Fine(q.req, s, j, lab) && (clean ==> Ready(q.req, cb, s, lab, state)) && Home(q, st.u)
    requires state <= Done(q, st.u) && Step(q.req, cb, s, state).ok
    ensures Sound(q, cb, clean, j, lab, Step(q.req, cb, s, state).exits, st, Exec(q.fn, s, lab, st, fuel))
    decreases s, fuel, 5
  {
    EvalKeeps(q, clean, s.over, state, st.u);
    var o := EvalExpr(q.fn, s.over, st.u);
    if o.Yields? {
      var st1 := st.(u := o.u);
      RangeLoopSound(q, cb, clean, s, j, lab, state, st1, fuel);
      SoundOn(q, cb, clean, j, lab, Step(q.req, cb, s, state).exits, st, st1, RangeLoop(q.fn, s, lab, st1, fuel));
    }
  }

  lemma TurnBinds(q: Q, clean: bool, s: Stmt, state: set<Name>, vals: seq<Val>, u: User)
    requires s.Range? && Home(q, u) && state <= Done(q, u) && (forall x :: x in s.names ==> x !in q.req)
             && (clean ==> ReadsOk(q.req, Operands(s.lhs), state))
    ensures var o := BindTurn(q.fn, s, vals, u); Keeps(q, clean, u, o.u) && o.u.next >= u.next
  {
    if s.lhs == [] { BindKeeps(q, s.names, vals, u); }
    else {
      EvalAllKeeps(q, clean, Operands(s.lhs), state, u);
      EvalAllNext(q.fn, Operands(s.lhs), u);
      var o := EvalAll(q.fn, Operands(s.lhs), u);
      if o.Yields? {
        StoreAllKeeps(q, s.lhs, vals, o.u);
        StoreAllNext(q.fn, s.lhs, vals, o.u);
      }
    }
  }

  lemma {:induction false} RangeLoopSound(q: Q, cb: bool, clean: bool, s: Stmt, j: Jumps, lab: Name, state: set<Name>,
                                          st: State, fuel: nat)
    requires s.Range? && Fine(q.req, s, j, lab) && (clean ==> Ready(q.req, cb, s, lab, state)) && Home(q, st.u)
    requires state <= Done(q, st.u) && Step(q.req, cb, s, state).ok
    ensures Sound(q, cb, clean, j, lab, Step(q.req, cb, s, state).exits, st, RangeLoop(q.fn, s, lab, st, fuel))
    decreases s, fuel, 3, 0
  {
    EvalKeeps(q, clean, Expr.Next(s.over), {}, st.u);
    var o := EvalExpr(q.fn, Expr.Next(s.over), st.u);
    if fuel > 0 && o.Yields? {
      var st1 := st.(u := o.u);
      if o.vals == [] { RangeEnds(q, cb, s, state, Done(q, o.u)); }
      else {
        TurnBinds(q, clean, s, state, o.vals, o.u);
        KeepsOn(q, clean, st.u, o.u, BindTurn(q.fn, s, o.vals, o.u).u);
        BoundTurnSound(q, cb, clean, s, j, lab, state, st, BindTurn(q.fn, s, o.vals, o.u), fuel);
      }
    }
  }

  /** A turn whose variables are bound. */
  lemma {:induction false} BoundTurnSound(q: Q, cb: bool, clean: bool, s: Stmt, j: Jumps, lab: Name, state: set<Name>,
                                          st: State,
                                         turn: Outcome, fuel: nat)
    requires s.Range? && Fine(q.req, s, j, lab) && (clean ==> Ready(q.req, cb, s, lab, state)) && Home(q, st.u)
               && fuel > 0
    requires state <= Done(q, st.u) && Step(q.req, cb, s, state).ok
    requires Keeps(q, clean, st.u, turn.u) && turn.u.next >= st.u.next
    ensures turn.Raises? ==>
              Sound(q, cb, clean, j, lab, Step(q.req, cb, s, state).exits, st,
                    R(Thrown(turn.v, turn.native), st.(u := turn.u.(env := st.u.env))))
    ensures turn.Yields? ==>
              Sound(q, cb, clean, j, lab, Step(q.req, cb, s, state).exits, st,
                    EndRangeTurn(q.fn, s, lab, Leave(ExecBlock(q.fn, s.body, st.(u := turn.u), fuel), st.u.env), fuel))
    decreases s, fuel, 2
  {
    if turn.Raises? { LeaveKeeps(q, clean, st, R(Thrown(turn.v, turn.native), st.(u := turn.u))); }
    else {
      var st1 := st.(u := turn.u);
      var exits := Paths(q.req, cb, s.body, Onward(state)).exits;
      ScopeSound(q, cb, clean, s.body, InLoop(j, lab), state, st1, fuel);
      var r := ExecBlock(q.fn, s.body, st1, fuel);
      SoundOn(q, cb, clean, InLoop(j, lab), NO_LABEL, exits, st, st1, r);
      LeaveKeeps(q, clean, st, r);
      RangeTurnSound(q, cb, clean, s, j, lab, state, st, Leave(r, st.u.env), fuel);
    }
  }

  lemma {:induction false} RangeTurnSound(q: Q, cb: bool, clean: bool, s: Stmt, j: Jumps, lab: Name, state: set<Name>,
                                          st: State, r: R, fuel: nat)
    requires s.Range? && Fine(q.req, s, j, lab) && (clean ==> Ready(q.req, cb, s, lab, state)) && Home(q, st.u)
               && fuel > 0
    requires state <= Done(q, st.u) && Step(q.req, cb, s, state).ok
    requires Sound(q, cb, clean, InLoop(j, lab), NO_LABEL, Paths(q.req, cb, s.body, Onward(state)).exits, st, r)
    ensures Sound(q, cb, clean, j, lab, Step(q.req, cb, s, state).exits, st, EndRangeTurn(q.fn, s, lab, r, fuel))
    decreases s, fuel, 1
  {
    if r.c.Normal? || (r.c.ContinueTo? && Mine(r.c.lab, lab)) {
      RangeLoopSound(q, cb, clean, s, j, lab, state, r.st, fuel - 1);
      SoundOn(q, cb, clean, j, lab, Step(q.req, cb, s, state).exits, st, r.st, RangeLoop(q.fn, s, lab, r.st, fuel - 1));
    } else {
      if r.c == BreakTo(NO_LABEL) { RangeEnds(q, cb, s, state, Done(q, r.st.u)); }
      RangeTurnEnds(q, cb, s, j, lab, state, r);
    }
  }

  lemma RangeTurnEnds(q: Q, cb: bool, s: Stmt, j: Jumps, lab: Name, state: set<Name>, r: R)
    requires s.Range? && Ends(q, cb, InLoop(j, lab), NO_LABEL, Paths(q.req, cb, s.body, Onward(state)).exits, r)
    requires !r.c.Normal? && !(r.c.ContinueTo? && Mine(r.c.lab, lab))
    requires r.c == BreakTo(NO_LABEL) ==> Covers(Step(q.req, cb, s, state).exits, ToNext, Done(q, r.st.u))
    ensures Ends(q, cb, j, lab, Step(q.req, cb, s, state).exits,
                 if r.c.BreakTo? && Mine(r.c.lab, lab) then r.(c := Normal) else r)
  {
    var exits, done := Paths(q.req, cb, s.body, Onward(state)).exits, Done(q, r.st.u);
    if !r.c.Stuck? && !r.c.Thrown? && r.c != BreakTo(NO_LABEL) {
      RerouteCovers(exits, OutOfRange, FlowOf(r.c), done);
      CoversRight(Onward(state), Reroute(exits, OutOfRange), FlowOf(r.c), done);
      MergeCovers(Onward(state) + Reroute(exits, OutOfRange), FlowOf(r.c), done);
    }
  }

  lemma RangeEnds(q: Q, cb: bool, s: Stmt, state: set<Name>, done: set<Name>)
    requires s.Range? && state <= done
    ensures Covers(Step(q.req, cb, s, state).exits, ToNext, done)
  {
    var rest := Reroute(Paths(q.req, cb, s.body, Onward(state)).exits, OutOfRange);
    CoversNext(state, done);
    CoversLeft(Onward(state), rest, ToNext, done);
    MergeCovers(Onward(state) + rest, ToNext, done);
  }

  // ----- switch -----

  lemma {:induction false} GuardsKeep(q: Q, clean: bool, guards: seq<Expr>, tag: Val, index: int, state: set<Name>,
                                      u: User)
    requires Home(q, u) && state <= Done(q, u) && (clean ==> ReadsOk(q.req, guards, state))
    ensures var c := Guards(q.fn, guards, tag, index, u);
            Keeps(q, clean, u, c.u) && c.u.env == u.env && c.u.next >= u.next
                && (c.Chosen? ==> c.index == -1 || c.index == index)
    decreases |guards|
  {
    if guards != [] {
      EvalKeeps(q, clean, guards[0], state, u);
      var o := EvalExpr(q.fn, guards[0], u);
      if o.Yields? {
        GuardsKeep(q, clean, guards[1..], tag, index, state, o.u);
        KeepsOn(q, clean, u, o.u, Guards(q.fn, guards[1..], tag, index, o.u).u);
      }
    }
  }

  predicate GuardsReadable(req: set<Name>, cs: Clauses, state: set<Name>) {
    cs.Clause? ==> ReadsOk(req, cs.guards, state) && GuardsReadable(req, cs.rest, state)
  }

  lemma {:induction false} CasesReadGuards(req: set<Name>, cb: bool, cs: Clauses, state: set<Name>, fallen: seq<Exit>)
    requires Cases(req, cb, cs, state, fallen).ok
    ensures GuardsReadable(req, cs, state)
    decreases cs
  {
    if cs.Clause? {
      CasesReadGuards(req, cb, cs.rest, state,
                      Reroute(Paths(req, cb, cs.body, Merge(Onward(state) + fallen)).exits, IntoNextClause));
    }
  }

  lemma {:induction false} ChooseKeeps(q: Q, clean: bool, cs: Clauses, tag: Val, index: nat, state: set<Name>, u: User)
    requires Home(q, u) && state <= Done(q, u) && GuardsReadable(q.req, cs, state)
    ensures var c := Choose(q.fn, cs, tag, index, u);
            Keeps(q, clean, u, c.u) && c.u.env == u.env && c.u.next >= u.next
                && (c.Chosen? ==> -1 <= c.index < index + Count(cs))
    decreases cs
  {
    if cs.Clause? {
      if cs.isDefault { ChooseKeeps(q, clean, cs.rest, tag, index + 1, state, u); }
      else {
        GuardsKeep(q, clean, cs.guards, tag, index, state, u);
        var g := Guards(q.fn, cs.guards, tag, index, u);
        if g.Chosen? && g.index < 0 {
          ChooseKeeps(q, clean, cs.rest, tag, index + 1, state, g.u);
          KeepsOn(q, clean, u, g.u, Choose(q.fn, cs.rest, tag, index + 1, g.u).u);
        }
      }
    }
  }

  /** An unlabelled `break` ends the switch. */
  ghost function Broken(r: R): R {
    if r.c == BreakTo(NO_LABEL) then r.(c := Normal) else r
  }

  lemma {:induction false} ClausesSound(q: Q, cb: bool, clean: bool, cs: Clauses, k: nat, j: Jumps, lab: Name,
                                        state: set<Name>,
                                       fallen: seq<Exit>, st: State, fuel: nat)
    requires FineClauses(q.req, cs, j, lab) && (clean ==> ReadyClauses(q.req, cb, cs, state, fallen)) && k < Count(cs)
               && Home(q, st.u)
    requires Cases(q.req, cb, cs, state, fallen).ok
    requires if k > 0 then state <= Done(q, st.u) else Covers(Onward(state) + fallen, ToNext, Done(q, st.u))
    ensures Sound(q, cb, clean, InClause(j, lab, false), NO_LABEL, Cases(q.req, cb, cs, state, fallen).exits, st,
                  Broken(RunClauses(q.fn, cs, k, st, fuel)))
    decreases cs, fuel, 3
  {
    var next := Reroute(Paths(q.req, cb, cs.body, Merge(Onward(state) + fallen)).exits, IntoNextClause);
    if k > 0 {
      if k == 1 { CoversNext(state, Done(q, st.u)); CoversLeft(Onward(state), next, ToNext, Done(q, st.u)); }
      ClausesSound(q, cb, clean, cs.rest, k - 1, j, lab, state, next, st, fuel);
      assert RunClauses(q.fn, cs, k, st, fuel) == RunClauses(q.fn, cs.rest, k - 1, st, fuel);
      LaterClause(q, cb, clean, cs, j, lab, state, fallen, st, Broken(RunClauses(q.fn, cs.rest, k - 1, st, fuel)));
    } else {
      MergeCovers(Onward(state) + fallen, ToNext, Done(q, st.u));
      FirstClauseSound(q, cb, clean, cs, j, lab, state, fallen, st, fuel);
    }
  }

  lemma {:induction false} FirstClauseSound(q: Q, cb: bool, clean: bool, cs: Clauses, j: Jumps, lab: Name,
                                            state: set<Name>,
                                           fallen: seq<Exit>, st: State, fuel: nat)
    requires cs.Clause? && FineClauses(q.req, cs, j, lab) && (clean ==> ReadyClauses(q.req, cb, cs, state, fallen))
               && Home(q, st.u)
    requires Cases(q.req, cb, cs, state, fallen).ok && Covers(Merge(Onward(state) + fallen), ToNext, Done(q, st.u))
    ensures Sound(q, cb, clean, InClause(j, lab, false), NO_LABEL, Cases(q.req, cb, cs, state, fallen).exits, st,
                  Broken(RunClauses(q.fn, cs, 0, st, fuel)))
    decreases cs, fuel, 2
  {
    var b := Paths(q.req, cb, cs.body, Merge(Onward(state) + fallen));
    BlockSound(q, cb, clean, cs.body, InClause(j, lab, cs.rest.Clause?), Merge(Onward(state) + fallen), st, fuel);
    LeaveKeeps(q, clean, st, ExecBlock(q.fn, cs.body, st, fuel));
    var r := Leave(ExecBlock(q.fn, cs.body, st, fuel), st.u.env);
    if r.c.Fell? { FellSound(q, cb, clean, cs, j, lab, state, fallen, st, r.st, fuel); }
    else {
      ClauseLeft(q, cb, j, lab, cs.rest.Clause?, b.exits,
                 Cases(q.req, cb, cs.rest, state, Reroute(b.exits, IntoNextClause)).exits, r);
    }
  }

  /** Into the next clause. */
  lemma {:induction false} FellSound(q: Q, cb: bool, clean: bool, cs: Clauses, j: Jumps, lab: Name, state: set<Name>,
                                    fallen: seq<Exit>, st: State, next: State, fuel: nat)
    requires cs.Clause? && cs.rest.Clause? && FineClauses(q.req, cs, j, lab)
             && (clean ==> ReadyClauses(q.req, cb, cs, state, fallen))
    requires Cases(q.req, cb, cs, state, fallen).ok && Keeps(q, clean, st.u, next.u) && next.u.next >= st.u.next
    requires Covers(Paths(q.req, cb, cs.body, Merge(Onward(state) + fallen)).exits, ToFallthrough, Done(q, next.u))
    ensures Sound(q, cb, clean, InClause(j, lab, false), NO_LABEL, Cases(q.req, cb, cs, state, fallen).exits, st,
                  Broken(RunClauses(q.fn, cs.rest, 0, next, fuel)))
    decreases cs, fuel, 1
  {
    var b := Paths(q.req, cb, cs.body, Merge(Onward(state) + fallen));
    var into := Reroute(b.exits, IntoNextClause);
    RerouteCovers(b.exits, IntoNextClause, ToFallthrough, Done(q, next.u));
    CoversRight(Onward(state), into, ToNext, Done(q, next.u));
    ClausesSound(q, cb, clean, cs.rest, 0, j, lab, state, into, next, fuel);
    var e := Broken(RunClauses(q.fn, cs.rest, 0, next, fuel));
    SoundOn(q, cb, clean, InClause(j, lab, false), NO_LABEL, Cases(q.req, cb, cs.rest, state, into).exits, st, next, e);
    LaterClause(q, cb, clean, cs, j, lab, state, fallen, st, e);
  }

  /** A clause that does not fall through. */
  lemma ClauseLeft(q: Q, cb: bool, j: Jumps, lab: Name, fall: bool, exits: seq<Exit>, rest: seq<Exit>, r: R)
    requires Ends(q, cb, InClause(j, lab, fall), NO_LABEL, exits, r) && !r.c.Fell?
    ensures Ends(q, cb, InClause(j, lab, false), NO_LABEL, Reroute(exits, OutOfClause) + rest, Broken(r))
  {
    if !r.c.Stuck? && !r.c.Thrown? {
      RerouteCovers(exits, OutOfClause, FlowOf(r.c), Done(q, r.st.u));
      CoversLeft(Reroute(exits, OutOfClause), rest, FlowOf(Broken(r).c), Done(q, r.st.u));
    }
  }

  lemma LaterClause(q: Q, cb: bool, clean: bool, cs: Clauses, j: Jumps, lab: Name, state: set<Name>, fallen: seq<Exit>,
                    st: State, r: R)
    requires cs.Clause?
    requires var into := Reroute(Paths(q.req, cb, cs.body, Merge(Onward(state) + fallen)).exits, IntoNextClause);
             Sound(q, cb, clean, InClause(j, lab, false), NO_LABEL, Cases(q.req, cb, cs.rest, state, into).exits, st, r)
    ensures Sound(q, cb, clean, InClause(j, lab, false), NO_LABEL, Cases(q.req, cb, cs, state, fallen).exits, st, r)
  {
    if !r.c.Stuck? && !r.c.Thrown? {
      var exits := Paths(q.req, cb, cs.body, Merge(Onward(state) + fallen)).exits;
      CoversRight(Reroute(exits, OutOfClause), Cases(q.req, cb, cs.rest, state, Reroute(exits, IntoNextClause)).exits,
                  FlowOf(r.c), Done(q, r.st.u));
    }
  }

  lemma {:induction false} SwitchSound(q: Q, cb: bool, clean: bool, s: Stmt, j: Jumps, lab: Name, state: set<Name>,
                                       st: State, fuel: nat)
    requires s.Switch? && Fine(q.req, s, j, lab) && (clean ==> ReadyEntry(q.req, cb, s, lab, state)) && Home(q, st.u)
    requires state <= Done(q, st.u) && SwitchEntry(q.req, cb, s, state).ok
    ensures Sound(q, cb, clean, j, lab, SwitchEntry(q.req, cb, s, state).exits, st, AfterHeader(q.fn, s, lab, st, fuel))
    decreases s, fuel, 3, 0
  {
    CondKeeps(q, clean, s.tag, state, st.u);
    var o := EvalCond(q.fn, s.tag, st.u);
    if o.Yields? {
      var st1 := st.(u := o.u);
      CasesSound(q, cb, clean, s, First(o.vals), j, lab, state, st1, fuel);
      SoundOn(q, cb, clean, j, lab, SwitchEntry(q.req, cb, s, state).exits, st, st1,
              ExecCases(q.fn, s.clauses, First(o.vals), lab, st1, fuel));
    }
  }

  lemma {:induction false} CasesSound(q: Q, cb: bool, clean: bool, s: Stmt, tag: Val, j: Jumps, lab: Name,
                                      state: set<Name>, st: State, fuel: nat)
    requires s.Switch? && Fine(q.req, s, j, lab) && (clean ==> ReadyEntry(q.req, cb, s, lab, state)) && Home(q, st.u)
    requires state <= Done(q, st.u) && SwitchEntry(q.req, cb, s, state).ok
    ensures Sound(q, cb, clean, j, lab, SwitchEntry(q.req, cb, s, state).exits, st,
                  ExecCases(q.fn, s.clauses, tag, lab, st, fuel))
    decreases s, fuel, 2
  {
    var exits := Cases(q.req, cb, s.clauses, state, []).exits;
    CasesReadGuards(q.req, cb, s.clauses, state, []);
    ChooseKeeps(q, clean, s.clauses, tag, 0, state, st.u);
    DefaultFound(s.clauses, 0);
    var c := Choose(q.fn, s.clauses, tag, 0, st.u);
    if c.Chosen? {
      var k := if c.index >= 0 then c.index else DefaultIndex(s.clauses, 0);
      var st1 := st.(u := c.u);
      if k < 0 { NoClauseEnds(q, cb, j, lab, exits, state, st1); }
      else { ChosenSound(q, cb, clean, s, k, j, lab, state, st, st1, fuel); }
    }
  }

  /** No guard matched and there is no default clause. */
  lemma NoClauseEnds(q: Q, cb: bool, j: Jumps, lab: Name, exits: seq<Exit>, state: set<Name>, st: State)
    requires state <= Done(q, st.u)
    ensures Ends(q, cb, j, lab, Merge(exits + Onward(state)), R(Normal, st))
  {
    CoversNext(state, Done(q, st.u));
    CoversRight(exits, Onward(state), ToNext, Done(q, st.u));
    MergeCovers(exits + Onward(state), ToNext, Done(q, st.u));
  }

  lemma {:induction false} ChosenSound(q: Q, cb: bool, clean: bool, s: Stmt, k: nat, j: Jumps, lab: Name,
                                       state: set<Name>,
                                      st: State, st1: State, fuel: nat)
    requires s.Switch? && Fine(q.req, s, j, lab) && (clean ==> ReadyEntry(q.req, cb, s, lab, state))
               && k < Count(s.clauses)
    requires Keeps(q, clean, st.u, st1.u) && st1.u.next >= st.u.next
    requires state <= Done(q, st1.u) && Cases(q.req, cb, s.clauses, state, []).ok
    ensures var r := RunClauses(q.fn, s.clauses, k, st1, fuel);
            Sound(q, cb, clean, j, lab, SwitchEntry(q.req, cb, s, state).exits, st,
                  if r.c.BreakTo? && Mine(r.c.lab, lab) then r.(c := Normal) else r)
    decreases s, fuel, 1
  {
    var exits := Cases(q.req, cb, s.clauses, state, []).exits;
    CoversNext(state, Done(q, st1.u));
    CoversLeft(Onward(state), [], ToNext, Done(q, st1.u));
    ClausesSound(q, cb, clean, s.clauses, k, j, lab, state, [], st1, fuel);
    ChosenEnds(q, cb, clean, j, lab, exits, HasDefault(s.clauses), state, st, st1,
               RunClauses(q.fn, s.clauses, k, st1, fuel));
  }

  lemma ChosenEnds(q: Q, cb: bool, clean: bool, j: Jumps, lab: Name, exits: seq<Exit>, complete: bool,
                   state: set<Name>, st: State, st1: State, r: R)
    requires Keeps(q, clean, st.u, st1.u) && st1.u.next >= st.u.next
    requires Sound(q, cb, clean, InClause(j, lab, false), NO_LABEL, exits, st1, Broken(r))
    ensures var all := if complete then exits else exits + Onward(state);
            Sound(q, cb, clean, j, lab, Merge(all), st,
                  if r.c.BreakTo? && Mine(r.c.lab, lab) then r.(c := Normal) else r)
  {
    KeepsOn(q, clean, st.u, st1.u, r.st.u);
    ClauseEnds(q, cb, j, lab, exits, complete, state, r);
  }

  /** From the clauses' exits to the switch's. */
  lemma ClauseEnds(q: Q, cb: bool, j: Jumps, lab: Name, exits: seq<Exit>, complete: bool, state: set<Name>, r: R)
    requires Ends(q, cb, InClause(j, lab, false), NO_LABEL, exits, Broken(r))
    ensures var all := if complete then exits else exits + Onward(state);
            Ends(q, cb, j, lab, Merge(all), if r.c.BreakTo? && Mine(r.c.lab, lab) then r.(c := Normal) else r)
  {
    var all := if complete then exits else exits + Onward(state);
    var e := Broken(r);
    if !r.c.Stuck? && !r.c.Thrown? {
      CoversLeft(exits, Onward(state), FlowOf(e.c), Done(q, r.st.u));
      MergeCovers(all, FlowOf(e.c), Done(q, r.st.u));
    }
  }

  // ----- try -----

  lemma {:induction false} DefersKeep(q: Q, ds: seq<Deferred>, c: Comp, st: State)
    requires Home(q, st.u)
    ensures var r := RunDeferred(q.fn, ds, c, st);
            Keeps(q, true, st.u, r.st.u) && r.st.u.next >= st.u.next && (r.c == c || r.c.Thrown?)
    decreases |ds|
  {
    if ds != [] {
      var d := ds[|ds| - 1];
      var r := RunOne(q.fn, d, c, st);
      if d.Callback? { EvalKeeps(q, true, Call(d.v), {}, st.u); }
      else if d.RunDefers? { CallbacksKeep(q, st.registered, c, st); }
      DefersKeep(q, ds[..|ds| - 1], r.c, r.st);
      KeepsOn(q, true, st.u, r.st.u, RunDeferred(q.fn, ds[..|ds| - 1], r.c, r.st).st.u);
    }
  }

  lemma {:induction false} CallbacksKeep(q: Q, vs: seq<Val>, c: Comp, st: State)
    requires Home(q, st.u)
    ensures var r := RunCallbacks(q.fn, vs, c, st);
            Keeps(q, true, st.u, r.st.u) && r.st.u.next >= st.u.next && (r.c == c || r.c.Thrown?)
    decreases |vs|
  {
    LastFirst(q.fn, vs, c, st);
    if vs != [] {
      EvalKeeps(q, true, Call(vs[|vs| - 1]), {}, st.u);
      var r := RunCallback(q.fn, vs[|vs| - 1], c, st);
      CallbacksKeep(q, vs[..|vs| - 1], r.c, r.st);
      KeepsOn(q, true, st.u, r.st.u, RunCallbacks(q.fn, vs[..|vs| - 1], r.c, r.st).st.u);
    }
  }

  /** A function literal called by Try, from any state `entry` covers. */
  lemma {:induction false} CallSound(q: Q, clean: bool, b: Block, state: set<Name>, entry: State, caller: State,
                                     fuel: nat)
    requires FineBlock(q.req, b, NO_JUMPS) && (clean ==> ReadyBlock(q.req, true, b, Onward(state)))
    requires Home(q, caller.u) && Keeps(q, clean, caller.u, entry.u) && entry.u.next >= caller.u.next
    requires state <= Done(q, entry.u) && CallbackPaths(q.req, b, state).ok
    ensures Called(q, clean, CallbackPaths(q.req, b, state).exits, Done(q, entry.u), caller,
                   EndCall(q.fn, ExecBlock(q.fn, b, Enter(entry), fuel), caller))
    decreases b, fuel, 3
  {
    ScopeSound(q, true, clean, b, NO_JUMPS, state, Enter(entry), fuel);
    var r := ExecBlock(q.fn, b, Enter(entry), fuel);
    KeepsOn(q, clean, caller.u, entry.u, r.st.u);
    CallEnds(q, clean, Paths(q.req, true, b, Onward(state)).exits, Done(q, entry.u), caller, r);
  }

  /** What is known after a function literal was called. */
  ghost predicate Called(q: Q, clean: bool, exits: seq<Exit>, done: set<Name>, caller: State, r: R) {
    && Keeps(q, clean, caller.u, r.st.u) && r.st.u.next >= caller.u.next && done <= Done(q, r.st.u)
    && (r.c.Stuck? || r.st.u.env == caller.u.env)
    && (r.c.Normal? || r.c.Thrown? || r.c.Stuck?)
    && (r.c.Normal? ==> Covers(exits, ToNext, Done(q, r.st.u)))
  }

  /** Its deferred calls, and its end. */
  lemma CallEnds(q: Q, clean: bool, exits: seq<Exit>, done: set<Name>, caller: State, r: R)
    requires Home(q, caller.u) && Keeps(q, clean, caller.u, r.st.u) && r.st.u.next >= caller.u.next
             && done <= Done(q, r.st.u)
    requires Ends(q, true, NO_JUMPS, NO_LABEL, exits, r)
    ensures Called(q, clean, Merge(Reroute(exits, OutOfCallback)), done, caller, EndCall(q.fn, r, caller))
  {
    if !r.c.Stuck? {
      DefersKeep(q, r.st.frame.defers, r.c, r.st);
      var e := RunDeferred(q.fn, r.st.frame.defers, r.c, r.st);
      KeepsOn(q, clean, caller.u, r.st.u, e.st.u);
      LeaveKeeps(q, clean, caller, e);
      if !e.c.Thrown? { CallCovers(exits, FlowOf(r.c), Done(q, r.st.u), Done(q, e.st.u)); }
    }
  }

  lemma CallCovers(exits: seq<Exit>, flow: Flow, before: set<Name>, after: set<Name>)
    requires Covers(exits, flow, before) && before <= after
    ensures Covers(Merge(Reroute(exits, OutOfCallback)), Via(OutOfCallback, flow).value, after)
  {
    var i :| 0 <= i < |exits| && exits[i].flow == flow && exits[i].state <= before;
    CoversAt(exits, i, after);
    RerouteCovers(exits, OutOfCallback, flow, after);
    MergeCovers(Reroute(exits, OutOfCallback), Via(OutOfCallback, flow).value, after);
  }

  /** The body, then the handler if it catches. */
  ghost function Handled(fn: Fn, s: Stmt, st: State, fuel: nat): R
    requires s.RtTry?
  {
    var b := EndCall(fn, ExecBlock(fn, s.body, Enter(st), fuel), st);
    if Catches(b.c, s.handler)
    then EndCall(fn, ExecBlock(fn, s.handler.body, Enter(b.st.(u := WithCaught(b.st.u, b.c.v))), fuel), st)
    else b
  }

  lemma {:induction false} HandledSound(q: Q, clean: bool, s: Stmt, j: Jumps, lab: Name, state: set<Name>, st: State,
                                        fuel: nat)
    requires s.RtTry? && Fine(q.req, s, j, lab) && (clean ==> ReadyTry(q.req, s, state)) && Home(q, st.u)
    requires state <= Done(q, st.u) && TryPaths(q.req, s, state).ok
    ensures var r := Handled(q.fn, s, st, fuel);
            && Keeps(q, clean, st.u, r.st.u) && r.st.u.next >= st.u.next
            && (r.c.Normal? || r.c.Thrown? || r.c.Stuck?)
            && (r.c.Normal? ==> Covers(PendingExits(q.req, s, state), ToNext, Done(q, r.st.u)))
    decreases s, fuel, 4
  {
    CallSound(q, clean, s.body, state, st, st, fuel);
    var b := EndCall(q.fn, ExecBlock(q.fn, s.body, Enter(st), fuel), st);
    var exits := CallbackPaths(q.req, s.body, state).exits;
    if s.handler.Func? {
      var chain := CallbackPaths(q.req, s.handler.body, state).exits;
      if Catches(b.c, s.handler) {
        var caught := b.st.(u := WithCaught(b.st.u, b.c.v));
        BindKeeps(q, ["ghi_caught"], [b.c.v], b.st.u);
        KeepsOn(q, clean, st.u, b.st.u, caught.u);
        CallSound(q, clean, s.handler.body, state, caught, st, fuel);
        var h := Handled(q.fn, s, st, fuel);
        if h.c.Normal? {
          CoversRight(exits, chain, ToNext, Done(q, h.st.u));
          MergeCovers(exits + chain, ToNext, Done(q, h.st.u));
        }
      } else if b.c.Normal? {
        CoversLeft(exits, chain, ToNext, Done(q, b.st.u));
        MergeCovers(exits + chain, ToNext, Done(q, b.st.u));
      }
    }
  }

  /** The finalizer's own failure wins over what was pending. */
  ghost function Finalized(fn: Fn, s: Stmt, st: State, h: R, fuel: nat): R
    requires s.RtTry? && s.finalizer.Func?
  {
    var f := EndCall(fn, ExecBlock(fn, s.finalizer.body, Enter(h.st), fuel), st);
    R(if f.c.Stuck? || f.c.Thrown? then f.c else h.c, f.st)
  }

  lemma TryRuns(fn: Fn, s: Stmt, lab: Name, st: State, fuel: nat)
    requires s.RtTry?
    ensures var h := Handled(fn, s, st, fuel);
            Exec(fn, s, lab, st, fuel) == if h.c.Stuck?
                || s.finalizer.NoClosure? then h else Finalized(fn, s, st, h, fuel)
  {
    assert Exec(fn, s, lab, st, fuel) == ExecRtTry(fn, s, st, fuel);
  }

  lemma {:induction false} TrySound(q: Q, cb: bool, clean: bool, s: Stmt, j: Jumps, lab: Name, state: set<Name>,
                                    st: State, fuel: nat)
    requires s.RtTry? && Fine(q.req, s, j, lab) && (clean ==> Ready(q.req, cb, s, lab, state)) && Home(q, st.u)
    requires state <= Done(q, st.u) && Step(q.req, cb, s, state).ok
    ensures Sound(q, cb, clean, j, lab, Step(q.req, cb, s, state).exits, st, Exec(q.fn, s, lab, st, fuel))
    decreases s, fuel, 5
  {
    TryRuns(q.fn, s, lab, st, fuel);
    HandledSound(q, clean, s, j, lab, state, st, fuel);
    var h := Handled(q.fn, s, st, fuel);
    if !h.c.Stuck? && s.finalizer.Func? { FinalizerSound(q, clean, s, j, lab, state, st, h, fuel); }
  }

  /** The finalizer runs after a normal end from a pending exit, and after an
      exception from the entry state at least. */
  lemma {:induction false} FinalizerSound(q: Q, clean: bool, s: Stmt, j: Jumps, lab: Name, state: set<Name>, st: State,
                                          h: R, fuel: nat)
    requires s.RtTry? && s.finalizer.Func? && Fine(q.req, s, j, lab) && (clean ==> ReadyTry(q.req, s, state))
               && Home(q, st.u)
    requires state <= Done(q, st.u) && TryPaths(q.req, s, state).ok
    requires Keeps(q, clean, st.u, h.st.u) && h.st.u.next >= st.u.next && (h.c.Normal? || h.c.Thrown?)
    requires h.c.Normal? ==> Covers(PendingExits(q.req, s, state), ToNext, Done(q, h.st.u))
    ensures var r := Finalized(q.fn, s, st, h, fuel);
            && Keeps(q, clean, st.u, r.st.u) && r.st.u.next >= st.u.next
            && (r.c.Normal? || r.c.Thrown? || r.c.Stuck?)
            && (r.c.Normal? ==> Covers(TryPaths(q.req, s, state).exits, ToNext, Done(q, r.st.u)))
    decreases s, fuel, 4
  {
    var b, pending := s.finalizer.body, PendingExits(q.req, s, state);
    var f := EndCall(q.fn, ExecBlock(q.fn, b, Enter(h.st), fuel), st);
    if h.c.Normal? {
      var k :| 0 <= k < |pending| && pending[k].flow == ToNext && pending[k].state <= Done(q, h.st.u);
      FinallyOk(q.req, b, pending, k);
      CallSound(q, clean, b, pending[k].state, h.st, st, fuel);
      if f.c.Normal? {
        FinallyCovers(q.req, b, pending, k, ToNext, Done(q, f.st.u));
        MergeCovers(Finally(q.req, b, pending).exits, ToNext, Done(q, f.st.u));
      }
    } else {
      CallSound(q, clean, b, state, h.st, st, fuel);
    }
  }
}
