/** What the named-result check accepts: exactly the code in which no path needs a
    required result before assigning it (internal/compiler/named_results.go). */
module ResultReads {
  import opened Options
  import opened Syntax
  import opened NamedResults
  import opened ResultPaths

  // ----- where a path needs a result -----

  predicate Mentioned(es: seq<Expr>, x: Name) {
    exists e :: e in es && x in Vars(e)
  }

  predicate CondMentioned(c: Cond, x: Name) {
    c.When? && x in Vars(c.e)
  }

  /** Some operand mentions the variable and no target further left is it. */
  predicate TargetsNeed(lhs: seq<Lhs>, x: Name)
    decreases |lhs|
  {
    lhs != [] && ((lhs[0].At? && x in Vars(lhs[0].e)) || (lhs[0] != Var(x) && TargetsNeed(lhs[1..], x)))
  }

  /** Some path through the statement, entered with `x` assigned or not, reads `x`, or
      returns without a value, while `x` is unassigned. A return inside a callback
      returns nothing. */
  ghost predicate Needs(s: Stmt, callback: bool, x: Name, unset: bool)
    decreases s, 2
  {
    match s
    case Assign(lhs, rhs) => unset && (TargetsNeed(lhs, x) || Mentioned(rhs, x))
    case SetSlots(es) => unset && Mentioned(es, x)
    case Eval(e) => unset && x in Vars(e)
    case Register(e) => unset && x in Vars(e)
    case Defer(e) => unset && x in Vars(e)
    case Throw(e) => unset && x in Vars(e)
    case Panic(e) => unset && x in Vars(e)
    case Declare(_, rhs) => unset && Mentioned(rhs, x)
    case Return(es) => unset && (Mentioned(es, x) || (es == [] && !callback))
    case ReturnSlots => unset
    case Scope(body) => BlockNeeds(body, callback, x, unset)
    case If(init, _, _, _) => HeadedNeeds(s, init, callback, x, unset)
    case For(init, _, _, _) => HeadedNeeds(s, init, callback, x, unset)
    case Switch(init, _, _) => HeadedNeeds(s, init, callback, x, unset)
    case OnFlow(_, thn) => BlockNeeds(thn, callback, x, unset)
    case OnAnyFlow(thn) => BlockNeeds(thn, callback, x, unset)
    case Range(_, _, over, body) => (unset && x in Vars(over)) || BlockNeeds(body, callback, x, unset)
    case Labeled(_, inner) => Needs(inner, callback, x, true)
    case RtTry(_, _, _) => TryNeeds(s, x, unset)
    case _ => false
  }

  ghost predicate HeadedNeeds(s: Stmt, init: Block, callback: bool, x: Name, unset: bool)
    requires (s.If? && init == s.init) || (s.For? && init == s.init) || (s.Switch? && init == s.init)
    decreases s, 1
  {
    || BlockNeeds(init, callback, x, unset)
    || (BlockMisses(init, Some(x), unset, ToNext) && EntryNeeds(s, callback, x, true))
    || (BlockMisses(init, None, true, ToNext) && EntryNeeds(s, callback, x, false))
  }

  ghost predicate EntryNeeds(s: Stmt, callback: bool, x: Name, unset: bool)
    requires s.If? || s.For? || s.Switch?
    decreases s, 0
  {
    if s.If? then
      (unset && x in Vars(s.test)) || BlockNeeds(s.thn, callback, x, unset) || BlockNeeds(s.els, callback, x, unset)
    else if s.For? then
      || (unset && CondMentioned(s.cond, x)) || BlockNeeds(s.body, callback, x, unset)
      || (Turns(s.body, Some(x), unset) && BlockNeeds(s.post, callback, x, true))
      || (Turns(s.body, None, true) && BlockNeeds(s.post, callback, x, false))
    else (unset && CondMentioned(s.tag, x)) || ClausesNeed(s.clauses, callback, x, unset, false)
  }

  /** The end of the body, or an unlabelled `continue`, leads to the post statement. */
  ghost predicate Turns(body: Block, f: Option<Name>, unset: bool) {
    BlockMisses(body, f, unset, ToNext) || BlockMisses(body, f, unset, ToContinue(NO_LABEL))
  }

  ghost predicate ClausesNeed(cs: Clauses, callback: bool, x: Name, unset: bool, fell: bool)
    decreases cs
  {
    match cs
    case NoClauses => false
    case Clause(_, guards, body, rest) =>
      || (unset && Mentioned(guards, x)) || BlockNeeds(body, callback, x, unset || fell)
      || ClausesNeed(rest, callback, x, unset, BlockMisses(body, Some(x), unset || fell, ToFallthrough))
  }

  /** The finalizer runs from what is pending, and from the start after an exception. */
  ghost predicate TryNeeds(s: Stmt, x: Name, unset: bool)
    requires s.RtTry?
    decreases s, 1
  {
    || BlockNeeds(s.body, true, x, unset) || (s.handler.Func? && BlockNeeds(s.handler.body, true, x, unset))
    || (s.finalizer.Func? && (BlockNeeds(s.finalizer.body, true, x, unset) || PendingNeeds(s, x, unset)))
  }

  ghost predicate PendingNeeds(s: Stmt, x: Name, unset: bool)
    requires s.RtTry? && s.finalizer.Func?
    decreases s, 0
  {
    || ((exists p :: PendingMisses(s, Some(x), unset, p)) && BlockNeeds(s.finalizer.body, true, x, true))
    || ((exists p :: PendingMisses(s, None, true, p)) && BlockNeeds(s.finalizer.body, true, x, false))
  }

  ghost predicate BlockNeeds(b: Block, callback: bool, x: Name, unset: bool)
    decreases b, 0
  {
    match b
    case Nil => false
    case Cons(h, t) =>
      || Needs(h, callback, x, unset)
      || (Misses(h, Some(x), unset, ToNext) && BlockNeeds(t, callback, x, true))
      || (Misses(h, None, true, ToNext) && BlockNeeds(t, callback, x, false))
  }

  // ----- a path entered with the result unassigned -----

  /** ... needs it wherever one entered with it assigned does. */
  lemma {:induction false} NeedsMore(s: Stmt, cb: bool, x: Name)
    requires Needs(s, cb, x, false)
    ensures Needs(s, cb, x, true)
    decreases s, 2
  {
    if s.Scope? { BlockNeedsMore(s.body, cb, x); }
    else if s.If? || s.For? || s.Switch? {
      if BlockNeeds(s.init, cb, x, false) { BlockNeedsMore(s.init, cb, x); }
      else if BlockMisses(s.init, Some(x), false, ToNext) { BlockMonotone(s.init, Some(x), ToNext); }
    }
    else if s.OnFlow? || s.OnAnyFlow? { BlockNeedsMore(s.thn, cb, x); }
    else if s.Range? { BlockNeedsMore(s.body, cb, x); }
    else if s.RtTry? { TryNeedsMore(s, x); }
  }

  lemma {:induction false} EntryNeedsMore(s: Stmt, cb: bool, x: Name)
    requires (s.If? || s.For? || s.Switch?) && EntryNeeds(s, cb, x, false)
    ensures EntryNeeds(s, cb, x, true)
    decreases s, 0
  {
    if s.If? {
      if BlockNeeds(s.thn, cb, x, false) { BlockNeedsMore(s.thn, cb, x); } else { BlockNeedsMore(s.els, cb, x); }
    }
    else if s.For? {
      if BlockNeeds(s.body, cb, x, false) { BlockNeedsMore(s.body, cb, x); }
      else if Turns(s.body, Some(x), false) { TurnsMore(s.body, Some(x)); }
    }
    else { ClausesNeedMore(s.clauses, cb, x, false, false, true, false); }
  }

  lemma TurnsMore(body: Block, f: Option<Name>)
    requires Turns(body, f, false)
    ensures Turns(body, f, true)
  {
    if BlockMisses(body, f, false, ToNext) { BlockMonotone(body, f, ToNext); }
    else { BlockMonotone(body, f, ToContinue(NO_LABEL)); }
  }

  lemma {:induction false} BlockNeedsMore(b: Block, cb: bool, x: Name)
    requires BlockNeeds(b, cb, x, false)
    ensures BlockNeeds(b, cb, x, true)
    decreases b, 0
  {
    if Needs(b.head, cb, x, false) { NeedsMore(b.head, cb, x); }
    else { NeverLess(b.head, Some(x), ToNext); }
  }

  lemma {:induction false} ClausesNeedMore(cs: Clauses, cb: bool, x: Name, u: bool, fell: bool, v: bool, fell': bool)
    requires (u ==> v) && (fell ==> fell' || v) && ClausesNeed(cs, cb, x, u, fell)
    ensures ClausesNeed(cs, cb, x, v, fell')
    decreases cs, 0
  {
    var w, w' := u || fell, v || fell';
    if BlockNeeds(cs.body, cb, x, w) { if w != w' { BlockNeedsMore(cs.body, cb, x); } }
    else if !(u && Mentioned(cs.guards, x)) {
      if BlockMisses(cs.body, Some(x), w, ToFallthrough) && w != w' { BlockMonotone(cs.body, Some(x), ToFallthrough); }
      ClausesNeedMore(cs.rest, cb, x, u, BlockMisses(cs.body, Some(x), w, ToFallthrough), v,
                      BlockMisses(cs.body, Some(x), w', ToFallthrough));
    }
  }

  lemma {:induction false} TryNeedsMore(s: Stmt, x: Name)
    requires s.RtTry? && TryNeeds(s, x, false)
    ensures TryNeeds(s, x, true)
    decreases s, 1
  {
    if BlockNeeds(s.body, true, x, false) { BlockNeedsMore(s.body, true, x); }
    else if s.handler.Func? && BlockNeeds(s.handler.body, true, x, false) { BlockNeedsMore(s.handler.body, true, x); }
    else if BlockNeeds(s.finalizer.body, true, x, false) { BlockNeedsMore(s.finalizer.body, true, x); }
    else if exists p :: PendingMisses(s, Some(x), false, p) {
      var p :| PendingMisses(s, Some(x), false, p);
      PendingMonotone(s, Some(x), p);
    }
  }

  // ----- reads -----

  lemma ReadsAccepted(req: set<Name>, es: seq<Expr>, state: set<Name>)
    ensures ReadsOk(req, es, state) <==> forall x :: x in req && x !in state ==> !Mentioned(es, x)
  {
    if ReadsOk(req, es, state) {
      forall e, x | e in es && x in Vars(e) && x in req ensures x in state {
        var i :| 0 <= i < |es| && es[i] == e;
        assert ReadOk(req, es[i], state);
      }
    } else {
      var i :| 0 <= i < |es| && !ReadOk(req, es[i], state);
      var x :| x in Vars(es[i]) * req && x !in state;
      assert es[i] in es;
    }
  }

  lemma OneReadAccepted(req: set<Name>, e: Expr, state: set<Name>)
    ensures ReadOk(req, e, state) <==> forall x :: x in req && x !in state ==> x !in Vars(e)
    ensures ReadsOk(req, [e], state) <==> ReadOk(req, e, state)
  {
    assert ReadsOk(req, [e], state) ==> ReadOk(req, [e][0], state);
  }

  lemma CondAccepted(req: set<Name>, c: Cond, state: set<Name>)
    ensures ReadsOk(req, CondExprs(c), state) <==> forall x :: x in req && x !in state ==> !CondMentioned(c, x)
  {
    if c.When? { OneReadAccepted(req, c.e, state); }
  }

  lemma {:induction false} TargetsAccepted(req: set<Name>, lhs: seq<Lhs>, state: set<Name>)
    ensures Targets(req, lhs, state).ok <==> forall x :: x in req && x !in state ==> !TargetsNeed(lhs, x)
    decreases |lhs|
  {
    if lhs != [] {
      if lhs[0].Var? && lhs[0].x in req {
        TargetsAccepted(req, lhs[1..], state + {lhs[0].x});
        forall x | x in req && x !in state
          ensures TargetsNeed(lhs, x) <==> x !in state + {lhs[0].x} && TargetsNeed(lhs[1..], x)
        {}
      } else {
        TargetsAccepted(req, lhs[1..], state);
        if lhs[0].At? { OneReadAccepted(req, lhs[0].e, state); }
        forall x | x in req
          ensures TargetsNeed(lhs, x) <==> (lhs[0].At? && x in Vars(lhs[0].e)) || TargetsNeed(lhs[1..], x)
        {}
      }
    }
  }

  // ----- statements -----

  /** No required result is needed too early. */
  ghost predicate Spared(req: set<Name>, s: Stmt, cb: bool, state: set<Name>) {
    forall x :: x in req ==> !Needs(s, cb, x, Unset(Some(x), state))
  }

  ghost predicate SparedBlock(req: set<Name>, b: Block, cb: bool, state: set<Name>) {
    forall x :: x in req ==> !BlockNeeds(b, cb, x, Unset(Some(x), state))
  }

  lemma {:induction false} StepAccepts(req: set<Name>, cb: bool, s: Stmt, state: set<Name>)
    requires Headed(s)
    ensures Step(req, cb, s, state).ok <==> Spared(req, s, cb, state)
    decreases s, 6, 0
  {
    if s.Scope? { FromStateAccepts(req, cb, s.body, state); }
    else if s.If? || s.For? || s.Switch? { CompoundAccepts(req, cb, s, state); }
    else if s.OnFlow? || s.OnAnyFlow? { FromStateAccepts(req, cb, s.thn, state); }
    else if s.Range? {
      OneReadAccepted(req, s.over, state);
      FromStateAccepts(req, cb, s.body, state);
    }
    else if s.Labeled? { StepAccepts(req, cb, s.stmt, {}); }
    else if s.RtTry? { TryAccepts(req, cb, s, state); }
    else { SimpleAccepts(req, cb, s, state); }
  }

  lemma SimpleAccepts(req: set<Name>, cb: bool, s: Stmt, state: set<Name>)
    requires !s.Scope? && !s.If? && !s.For? && !s.Switch? && !s.OnFlow? && !s.OnAnyFlow? && !s.Range? && !s.Labeled?
             && !s.RtTry?
    ensures Step(req, cb, s, state).ok <==> Spared(req, s, cb, state)
  {
    if s.Assign? {
      TargetsAccepted(req, s.lhs, state);
      ReadsAccepted(req, s.rhs, state);
    }
    else if s.SetSlots? || s.Return? { ReadsAccepted(req, s.es, state); }
    else if s.Declare? { ReadsAccepted(req, s.rhs, state); }
    else if s.Eval? || s.Register? || s.Defer? || s.Throw? || s.Panic? { OneReadAccepted(req, s.e, state); }
  }

  // ----- headers -----

  lemma {:induction false} CompoundAccepts(req: set<Name>, cb: bool, s: Stmt, state: set<Name>)
    requires (s.If? || s.For? || s.Switch?) && Headed(s)
    ensures Step(req, cb, s, state).ok <==> Spared(req, s, cb, state)
    decreases s, 5, 0
  {
    var after := HeaderExits(req, cb, s.init, state);
    OneEntry(req, cb, s, state, after);
    InitAccepts(req, cb, s.init, state);
    EntryAccepts(req, cb, s, after);
    FromSimple(req, cb, s.init, state, None);
    LackingOne(Exit(after, ToNext), ToNext, None);
    forall x | x in req
      ensures Needs(s, cb, x, Unset(Some(x), state)) <==>
              BlockNeeds(s.init, cb, x, Unset(Some(x), state)) || EntryNeeds(s, cb, x, Unset(Some(x), after))
    {
      FromSimple(req, cb, s.init, state, Some(x));
      LackingOne(Exit(after, ToNext), ToNext, Some(x));
      HeadedNeedsAfter(s, cb, x, Unset(Some(x), state), Unset(Some(x), after));
    }
  }

  lemma HeadedNeedsAfter(s: Stmt, cb: bool, x: Name, before: bool, after: bool)
    requires s.If? || s.For? || s.Switch?
    requires (BlockMisses(s.init, Some(x), before, ToNext) <==> after) && BlockMisses(s.init, None, true, ToNext)
    ensures Needs(s, cb, x, before) <==> BlockNeeds(s.init, cb, x, before) || EntryNeeds(s, cb, x, after)
  {
    if EntryNeeds(s, cb, x, false) { EntryNeedsMore(s, cb, x); }
    assert Needs(s, cb, x, before) == HeadedNeeds(s, s.init, cb, x, before);
  }

  lemma InitAccepts(req: set<Name>, cb: bool, init: Block, state: set<Name>)
    requires SimpleStmt(init)
    ensures Paths(req, cb, init, Onward(state)).ok <==> SparedBlock(req, init, cb, state)
  {
    if init.Cons? {
      var s := init.head;
      assert init.tail == Nil;
      assert Onward(state)[1..] == [] && StepEach(req, cb, s, []) == Verdict([], true);
      assert StepEach(req, cb, s, Onward(state)).ok == Step(req, cb, s, state).ok;
      assert Paths(req, cb, init, Onward(state)).ok == Step(req, cb, s, state).ok;
      SimpleAccepts(req, cb, s, state);
      assert forall x, u :: BlockNeeds(init, cb, x, u) == Needs(s, cb, x, u);
    }
  }

  ghost predicate SparedEntry(req: set<Name>, s: Stmt, cb: bool, state: set<Name>)
    requires s.If? || s.For? || s.Switch?
  {
    forall x :: x in req ==> !EntryNeeds(s, cb, x, Unset(Some(x), state))
  }

  lemma {:induction false} EntryAccepts(req: set<Name>, cb: bool, s: Stmt, state: set<Name>)
    requires (s.If? || s.For? || s.Switch?) && Headed(s)
    ensures Entry(req, cb, s, state).ok <==> SparedEntry(req, s, cb, state)
    decreases s, 4, 0
  {
    if s.If? {
      OneReadAccepted(req, s.test, state);
      FromStateAccepts(req, cb, s.thn, state);
      FromStateAccepts(req, cb, s.els, state);
      assert Entry(req, cb, s, state) == IfEntry(req, cb, s, state);
    }
    else if s.For? { ForAccepts(req, cb, s, state); }
    else { SwitchAccepts(req, cb, s, state); }
  }

  lemma {:induction false} ForAccepts(req: set<Name>, cb: bool, s: Stmt, state: set<Name>)
    requires s.For? && Headed(s)
    ensures ForEntry(req, cb, s, state).ok <==> SparedEntry(req, s, cb, state)
    decreases s, 3, 0
  {
    var exits := Paths(req, cb, s.body, Onward(state)).exits;
    CondAccepted(req, s.cond, state);
    FromStateAccepts(req, cb, s.body, state);
    PostAccepts(req, cb, s.post, exits);
    forall f: Option<Name> | Known(req, f)
      ensures TurnsLacking(exits, f) <==> Turns(s.body, f, Unset(f, state))
    {
      FromState(req, cb, s.body, state, ToNext, f);
      FromState(req, cb, s.body, state, ToContinue(NO_LABEL), f);
    }
    forall x | x in req
      ensures EntryNeeds(s, cb, x, Unset(Some(x), state)) <==>
              || (x !in state && CondMentioned(s.cond, x)) || BlockNeeds(s.body, cb, x, Unset(Some(x), state))
              || PostNeeds(s.post, cb, exits, x)
    {
      assert Known(req, Some(x)) && Unset(Some(x), state) == (x !in state) && Unset(None, state) && Known(req, None);
      assert TurnsLacking(exits, Some(x)) <==> Turns(s.body, Some(x), Unset(Some(x), state));
      assert TurnsLacking(exits, None) <==> Turns(s.body, None, true);
    }
  }

  ghost predicate TurnsLacking(exits: seq<Exit>, f: Option<Name>) {
    Lacking(exits, ToNext, f) || Lacking(exits, ToContinue(NO_LABEL), f)
  }

  ghost predicate PostNeeds(post: Block, cb: bool, exits: seq<Exit>, x: Name) {
    || (TurnsLacking(exits, Some(x)) && BlockNeeds(post, cb, x, true))
    || (TurnsLacking(exits, None) && BlockNeeds(post, cb, x, false))
  }

  lemma {:induction false} PostAccepts(req: set<Name>, cb: bool, post: Block, exits: seq<Exit>)
    requires SimpleStmt(post)
    ensures PostOk(req, cb, post, exits) <==> forall x :: x in req ==> !PostNeeds(post, cb, exits, x)
    decreases |exits|
  {
    if exits == [] { assert forall f :: !TurnsLacking(exits, f); }
    else {
      var e := exits[0];
      PostAccepts(req, cb, post, exits[1..]);
      InitAccepts(req, cb, post, e.state);
      forall x | x in req
        ensures PostNeeds(post, cb, exits, x) <==>
                || ((e.flow == ToNext || e.flow == ToContinue(NO_LABEL))
                    && BlockNeeds(post, cb, x, Unset(Some(x), e.state)))
                || PostNeeds(post, cb, exits[1..], x)
      {
        TurnsFirst(exits, Some(x));
        TurnsFirst(exits, None);
        if BlockNeeds(post, cb, x, false) { BlockNeedsMore(post, cb, x); }
      }
    }
  }

  lemma TurnsFirst(exits: seq<Exit>, f: Option<Name>)
    requires exits != []
    ensures TurnsLacking(exits, f) <==>
            || ((exits[0].flow == ToNext || exits[0].flow == ToContinue(NO_LABEL)) && Unset(f, exits[0].state))
            || TurnsLacking(exits[1..], f)
  {
    FirstLacks(exits, ToNext, f);
    FirstLacks(exits, ToContinue(NO_LABEL), f);
  }

  lemma {:induction false} SwitchAccepts(req: set<Name>, cb: bool, s: Stmt, state: set<Name>)
    requires s.Switch? && Headed(s)
    ensures SwitchEntry(req, cb, s, state).ok <==> SparedEntry(req, s, cb, state)
    decreases s, 3, 0
  {
    CondAccepted(req, s.tag, state);
    CasesAccept(req, cb, s.clauses, state, []);
    assert forall x :: !Lacking([], ToNext, Some(x));
  }

  ghost predicate SparedClauses(req: set<Name>, cs: Clauses, cb: bool, state: set<Name>, fallen: seq<Exit>) {
    forall x :: x in req ==> !ClausesNeed(cs, cb, x, Unset(Some(x), state), Lacking(fallen, ToNext, Some(x)))
  }

  lemma {:induction false} CasesAccept(req: set<Name>, cb: bool, cs: Clauses, state: set<Name>, fallen: seq<Exit>)
    requires HeadedClauses(cs) && forall k :: 0 <= k < |fallen| ==> fallen[k].flow == ToNext
    ensures Cases(req, cb, cs, state, fallen).ok <==> SparedClauses(req, cs, cb, state, fallen)
    decreases cs, 2, 0
  {
    if cs.Clause? {
      var entry := Merge(Onward(state) + fallen);
      var exits := Paths(req, cb, cs.body, entry).exits;
      var falls := Reroute(exits, IntoNextClause);
      FallsOnward(exits);
      ReadsAccepted(req, cs.guards, state);
      ClauseAccepts(req, cb, cs.body, state, fallen);
      CasesAccept(req, cb, cs.rest, state, falls);
      forall x | x in req
        ensures Lacking(falls, ToNext, Some(x)) <==>
                BlockMisses(cs.body, Some(x), Entered(x, state, fallen), ToFallthrough)
      {
        ClauseLacks(req, cb, cs.body, state, fallen, ToFallthrough, Some(x));
        LackingReroute(exits, IntoNextClause, ToNext, Some(x));
        ClauseWays(exits, ToNext, Some(x));
      }
    }
  }

  /** A clause is entered with the result unassigned from the switch or from above. */
  ghost predicate Entered(x: Name, state: set<Name>, fallen: seq<Exit>) {
    x !in state || Lacking(fallen, ToNext, Some(x))
  }

  lemma {:induction false} ClauseAccepts(req: set<Name>, cb: bool, b: Block, state: set<Name>, fallen: seq<Exit>)
    requires HeadedBlock(b) && forall k :: 0 <= k < |fallen| ==> fallen[k].flow == ToNext
    ensures Paths(req, cb, b, Merge(Onward(state) + fallen)).ok <==>
            forall x :: x in req ==> !BlockNeeds(b, cb, x, Entered(x, state, fallen))
    decreases b, 2, 0
  {
    var entry := Merge(Onward(state) + fallen);
    PathsAccept(req, cb, b, entry);
    EntryLacking(state, fallen, ToNext, None);
    forall x | x in req
      ensures ListNeeds(b, cb, entry, x) <==> BlockNeeds(b, cb, x, Entered(x, state, fallen))
    {
      EntryLacking(state, fallen, ToNext, Some(x));
      if BlockNeeds(b, cb, x, false) { BlockNeedsMore(b, cb, x); }
    }
  }

  // ----- calls of Try -----

  lemma {:induction false} TryAccepts(req: set<Name>, cb: bool, s: Stmt, state: set<Name>)
    requires s.RtTry? && Headed(s)
    ensures Step(req, cb, s, state).ok <==> Spared(req, s, cb, state)
    decreases s, 5, 0
  {
    FromStateAccepts(req, true, s.body, state);
    if s.handler.Func? { FromStateAccepts(req, true, s.handler.body, state); }
    if s.finalizer.Func? {
      FromStateAccepts(req, true, s.finalizer.body, state);
      PendingAccepts(req, s, state);
    }
    TryOk(req, cb, s, state);
    assert forall x, u :: Needs(s, cb, x, u) == TryNeeds(s, x, u);
  }

  lemma TryOk(req: set<Name>, cb: bool, s: Stmt, state: set<Name>)
    requires s.RtTry?
    ensures Step(req, cb, s, state).ok <==>
            && Paths(req, true, s.body, Onward(state)).ok
            && (s.handler.Func? ==> Paths(req, true, s.handler.body, Onward(state)).ok)
            && (s.finalizer.Func? ==>
                  && Paths(req, true, s.finalizer.body, Onward(state)).ok
                  && Finally(req, s.finalizer.body, Pending(req, s, state)).ok)
  {
    assert Step(req, cb, s, state) == TryPaths(req, s, state);
    var body := s.body;
    assert CallbackPaths(req, body, state).ok == Paths(req, true, body, Onward(state)).ok;
    if s.handler.Func? {
      assert CallbackPaths(req, s.handler.body, state).ok == Paths(req, true, s.handler.body, Onward(state)).ok;
    }
    if s.finalizer.Func? {
      assert CallbackPaths(req, s.finalizer.body, state).ok == Paths(req, true, s.finalizer.body, Onward(state)).ok;
    }
  }

  lemma {:induction false} PendingAccepts(req: set<Name>, s: Stmt, state: set<Name>)
    requires s.RtTry? && s.finalizer.Func? && Headed(s)
    ensures Finally(req, s.finalizer.body, Pending(req, s, state)).ok <==>
            forall x :: x in req ==> !PendingNeeds(s, x, Unset(Some(x), state))
    decreases s, 4, 0
  {
    var pending := Pending(req, s, state);
    FinallyAccepts(req, s.finalizer.body, pending);
    forall x | x in req
      ensures FinallyNeeds(s.finalizer.body, pending, x) <==> PendingNeeds(s, x, Unset(Some(x), state))
    {
      forall p ensures Lacking(pending, p, Some(x)) <==> PendingMisses(s, Some(x), Unset(Some(x), state), p) {
        PendingLacks(req, s, state, p, Some(x));
      }
      forall p ensures Lacking(pending, p, None) <==> PendingMisses(s, None, true, p) {
        PendingLacks(req, s, state, p, None);
      }
    }
  }

  ghost predicate FinallyNeeds(b: Block, pending: seq<Exit>, x: Name) {
    || (LackingSomehow(pending, Some(x)) && BlockNeeds(b, true, x, true))
    || (LackingSomehow(pending, None) && BlockNeeds(b, true, x, false))
  }

  lemma {:induction false} FinallyAccepts(req: set<Name>, b: Block, pending: seq<Exit>)
    requires HeadedBlock(b)
    ensures Finally(req, b, pending).ok <==> forall x :: x in req ==> !FinallyNeeds(b, pending, x)
    decreases b, 2, |pending|
  {
    if pending != [] {
      var state := pending[0].state;
      FromStateAccepts(req, true, b, state);
      FinallyAccepts(req, b, pending[1..]);
      forall x | x in req
        ensures FinallyNeeds(b, pending, x) <==>
                BlockNeeds(b, true, x, Unset(Some(x), state)) || FinallyNeeds(b, pending[1..], x)
      {
        SomehowFirst(pending, Some(x));
        SomehowFirst(pending, None);
        if BlockNeeds(b, true, x, false) { BlockNeedsMore(b, true, x); }
      }
    }
  }

  // ----- lists -----

  ghost predicate ListNeeds(b: Block, cb: bool, exits: seq<Exit>, x: Name) {
    || (Lacking(exits, ToNext, Some(x)) && BlockNeeds(b, cb, x, true))
    || (Lacking(exits, ToNext, None) && BlockNeeds(b, cb, x, false))
  }

  lemma {:induction false} FromStateAccepts(req: set<Name>, cb: bool, b: Block, state: set<Name>)
    requires HeadedBlock(b)
    ensures Paths(req, cb, b, Onward(state)).ok <==> SparedBlock(req, b, cb, state)
    decreases b, 1, 0
  {
    PathsAccept(req, cb, b, Onward(state));
    LackingOne(Exit(state, ToNext), ToNext, None);
    forall x | x in req ensures ListNeeds(b, cb, Onward(state), x) <==> BlockNeeds(b, cb, x, Unset(Some(x), state)) {
      LackingOne(Exit(state, ToNext), ToNext, Some(x));
      if BlockNeeds(b, cb, x, false) { BlockNeedsMore(b, cb, x); }
    }
  }

  lemma {:induction false} PathsAccept(req: set<Name>, cb: bool, b: Block, exits: seq<Exit>)
    requires HeadedBlock(b)
    ensures Paths(req, cb, b, exits).ok <==> forall x :: x in req ==> !ListNeeds(b, cb, exits, x)
    decreases b, 0, 0
  {
    if b.Cons? {
      var v := StepEach(req, cb, b.head, exits);
      StepEachAccepts(req, cb, b.head, exits);
      PathsAccept(req, cb, b.tail, Merge(v.exits));
      forall x | x in req
        ensures ListNeeds(b, cb, exits, x) <==>
                EachNeeds(b.head, cb, exits, x) || ListNeeds(b.tail, cb, Merge(v.exits), x)
      {
        StepEachLacks(req, cb, b.head, exits, ToNext, Some(x));
        StepEachLacks(req, cb, b.head, exits, ToNext, None);
        LackingMerge(v.exits, ToNext, Some(x));
        LackingMerge(v.exits, ToNext, None);
        ListNeedsOn(b, cb, exits, Merge(v.exits), x);
      }
    }
  }

  ghost predicate EachNeeds(s: Stmt, cb: bool, exits: seq<Exit>, x: Name) {
    Either(exits, ToNext, Some(x), Needs(s, cb, x, true), Needs(s, cb, x, false))
  }

  lemma ListNeedsOn(b: Block, cb: bool, exits: seq<Exit>, next: seq<Exit>, x: Name)
    requires b.Cons?
    requires Lacking(next, ToNext, Some(x)) <==> EachMisses(b.head, exits, ToNext, Some(x))
    requires Lacking(next, ToNext, None) <==> EachMisses(b.head, exits, ToNext, None)
    ensures ListNeeds(b, cb, exits, x) <==> EachNeeds(b.head, cb, exits, x) || ListNeeds(b.tail, cb, next, x)
  {
    NeverLess(b.head, None, ToNext);
    Reached(exits, Some(x));
    assert Lacking(next, ToNext, None) <==> Lacking(exits, ToNext, None) && Misses(b.head, None, true, ToNext);
    assert forall u :: BlockNeeds(b, cb, x, u) <==>
        || Needs(b.head, cb, x, u)
        || (Misses(b.head, Some(x), u, ToNext) && BlockNeeds(b.tail, cb, x, true))
        || (Misses(b.head, None, true, ToNext) && BlockNeeds(b.tail, cb, x, false));
  }

  lemma {:induction false} StepEachAccepts(req: set<Name>, cb: bool, s: Stmt, exits: seq<Exit>)
    requires Headed(s)
    ensures StepEach(req, cb, s, exits).ok <==> forall x :: x in req ==> !EachNeeds(s, cb, exits, x)
    decreases s, 7, |exits|
  {
    if exits != [] {
      var e := exits[0];
      StepEachAccepts(req, cb, s, exits[1..]);
      if e.flow == ToNext { StepAccepts(req, cb, s, e.state); }
      forall x | x in req
        ensures EachNeeds(s, cb, exits, x) <==>
                (e.flow == ToNext && Needs(s, cb, x, Unset(Some(x), e.state))) || EachNeeds(s, cb, exits[1..], x)
      {
        EachNeedsFirst(s, cb, exits, x);
      }
    }
  }

  lemma EachNeedsFirst(s: Stmt, cb: bool, exits: seq<Exit>, x: Name)
    requires exits != []
    ensures EachNeeds(s, cb, exits, x) <==>
            || (exits[0].flow == ToNext && Needs(s, cb, x, Unset(Some(x), exits[0].state)))
            || EachNeeds(s, cb, exits[1..], x)
  {
    EitherFirst(exits, ToNext, Some(x), Needs(s, cb, x, true), Needs(s, cb, x, false));
    EitherOne(exits[0], ToNext, Some(x), Needs(s, cb, x, true), Needs(s, cb, x, false));
    NeedsNoLess(s, cb, x);
  }

  lemma NeedsNoLess(s: Stmt, cb: bool, x: Name)
    ensures Needs(s, cb, x, false) ==> Needs(s, cb, x, true)
  {
    if Needs(s, cb, x, false) { NeedsMore(s, cb, x); }
  }

  // ----- acceptance -----

  /** Code is accepted if and only if no path through it needs a required result before
      assigning it. */
  lemma AcceptsExactly(req: set<Name>, body: Block)
    requires HeadedBlock(body)
    ensures Accepts(req, body) <==> forall x :: x in req ==> !BlockNeeds(body, false, x, true)
  {
    FromStateAccepts(req, false, body, {});
  }
}
