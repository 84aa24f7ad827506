/** The exits of the named-result check against the paths through the code, one result
    at a time (internal/compiler/named_results.go). Paths are defined on the text
    alone: an exception may leave a callback before anything in it has taken effect,
    and at a label every result counts as unassigned. */
module ResultPaths {
  import opened Options
  import opened Syntax
  import opened NamedResults

  // ----- paths -----

  /** The assignment sets the result. No result stands for one that nothing sets. */
  predicate Sets(lhs: seq<Lhs>, f: Option<Name>) {
    f.Some? && Var(f.value) in lhs
  }

  /** Some path through the statement, entered with `f` assigned or not, ends this way
      with `f` unassigned. */
  ghost predicate Misses(s: Stmt, f: Option<Name>, unset: bool, flow: Flow)
    decreases s, 2
  {
    match s
    case Assign(lhs, _) => flow == ToNext && unset && !Sets(lhs, f)
    case SetSlots(_) => flow == ToNext && unset && f.None?
    case Throw(_) => false
    case Panic(_) => false
    case Return(_) => flow == ToReturn && unset
    case ReturnSlots => flow == ToReturn && unset
    case Break(l) => flow == ToBreak(l) && unset
    case Continue(l) => flow == ToContinue(l) && unset
    case Fallthrough => flow == ToFallthrough && unset
    case Scope(body) => BlockMisses(body, f, unset, flow)
    case If(init, _, _, _) => HeadedMisses(s, init, f, unset, flow)
    case For(init, _, _, _) => HeadedMisses(s, init, f, unset, flow)
    case Switch(init, _, _) => HeadedMisses(s, init, f, unset, flow)
    case OnFlow(_, thn) => (flow == ToNext && unset) || BlockMisses(thn, f, unset, flow)
    case OnAnyFlow(thn) => (flow == ToNext && unset) || BlockMisses(thn, f, unset, flow)
    case Range(_, _, _, body) =>
      if flow == ToNext then unset
      else flow != ToBreak(NO_LABEL) && flow != ToContinue(NO_LABEL) && BlockMisses(body, f, unset, flow)
    case Labeled(l, inner) =>
      if flow == ToNext then
        Misses(inner, f, true, ToNext) || Misses(inner, None, true, ToBreak(l))
            || Misses(inner, None, true, ToContinue(l))
      else flow != ToBreak(l) && flow != ToContinue(l) && Misses(inner, f, true, flow)
    case RtTry(_, _, _) => TryMisses(s, f, unset, flow)
    case _ => flow == ToNext && unset
  }

  /** A header comes first. */
  ghost predicate HeadedMisses(s: Stmt, init: Block, f: Option<Name>, unset: bool, flow: Flow)
    requires (s.If? && init == s.init) || (s.For? && init == s.init) || (s.Switch? && init == s.init)
    decreases s, 1
  {
    || (BlockMisses(init, f, unset, ToNext) && EntryMisses(s, f, true, flow))
    || (BlockMisses(init, None, true, ToNext) && EntryMisses(s, f, false, flow))
  }

  ghost predicate EntryMisses(s: Stmt, f: Option<Name>, unset: bool, flow: Flow)
    requires s.If? || s.For? || s.Switch?
    decreases s, 0
  {
    if s.If? then BlockMisses(s.thn, f, unset, flow) || BlockMisses(s.els, f, unset, flow)
    else if s.For? then
      if flow == ToNext then (s.cond.When? && unset) || BlockMisses(s.body, f, unset, ToBreak(NO_LABEL))
      else flow != ToBreak(NO_LABEL) && flow != ToContinue(NO_LABEL) && BlockMisses(s.body, f, unset, flow)
    else (flow == ToNext && unset && !HasDefault(s.clauses)) || ClausesMiss(s.clauses, f, unset, false, flow)
  }

  /** Each clause is entered from the switch or by falling into it. */
  ghost predicate ClausesMiss(cs: Clauses, f: Option<Name>, unset: bool, fell: bool, flow: Flow)
    decreases cs
  {
    match cs
    case NoClauses => false
    case Clause(_, _, body, rest) =>
      || (flow == ToNext && BlockMisses(body, f, unset || fell, ToBreak(NO_LABEL)))
      || (flow != ToBreak(NO_LABEL) && flow != ToFallthrough && BlockMisses(body, f, unset || fell, flow))
      || ClausesMiss(rest, f, unset, BlockMisses(body, f, unset || fell, ToFallthrough), flow)
  }

  /** Returning from a callback ends it normally. */
  ghost predicate CallMisses(b: Block, f: Option<Name>, unset: bool, flow: Flow)
    decreases b, 1
  {
    || (flow != ToReturn && BlockMisses(b, f, unset, flow))
    || (flow == ToNext && BlockMisses(b, f, unset, ToReturn))
  }

  /** The body or the handler, which an exception may enter from the start, ends. */
  ghost predicate PendingMisses(s: Stmt, f: Option<Name>, unset: bool, flow: Flow)
    requires s.RtTry?
    decreases s, 0
  {
    CallMisses(s.body, f, unset, flow) || (s.handler.Func? && CallMisses(s.handler.body, f, unset, flow))
  }

  ghost predicate TryMisses(s: Stmt, f: Option<Name>, unset: bool, flow: Flow)
    requires s.RtTry?
    decreases s, 1
  {
    if s.finalizer.NoClosure? then PendingMisses(s, f, unset, flow)
    else
      || ((exists p :: PendingMisses(s, f, unset, p)) && CallMisses(s.finalizer.body, f, true, flow))
      || ((exists p :: PendingMisses(s, None, true, p)) && CallMisses(s.finalizer.body, f, false, flow))
  }

  ghost predicate BlockMisses(b: Block, f: Option<Name>, unset: bool, flow: Flow)
    decreases b, 0
  {
    match b
    case Nil => flow == ToNext && unset
    case Cons(h, t) =>
      || (flow != ToNext && Misses(h, f, unset, flow))
      || (Misses(h, f, unset, ToNext) && BlockMisses(t, f, true, flow))
      || (Misses(h, None, true, ToNext) && BlockMisses(t, f, false, flow))
  }

  /** Headers are what Go's grammar allows there. */
  predicate Headed(s: Stmt)
    decreases s
  {
    match s
    case Scope(body) => HeadedBlock(body)
    case If(init, _, thn, els) => SimpleStmt(init) && HeadedBlock(thn) && HeadedBlock(els)
    case For(init, _, post, body) => SimpleStmt(init) && SimpleStmt(post) && HeadedBlock(body)
    case Range(_, _, _, body) => HeadedBlock(body)
    case Switch(init, _, clauses) => SimpleStmt(init) && HeadedClauses(clauses)
    case Labeled(_, inner) => Headed(inner)
    case OnFlow(_, thn) => HeadedBlock(thn)
    case OnAnyFlow(thn) => HeadedBlock(thn)
    case RtTry(body, handler, finalizer) =>
      && HeadedBlock(body) && (handler.Func? ==> HeadedBlock(handler.body))
      && (finalizer.Func? ==> HeadedBlock(finalizer.body))
    case _ => true
  }

  predicate HeadedBlock(b: Block)
    decreases b
  {
    b.Cons? ==> Headed(b.head) && HeadedBlock(b.tail)
  }

  predicate HeadedClauses(cs: Clauses)
    decreases cs
  {
    cs.Clause? ==> HeadedBlock(cs.body) && HeadedClauses(cs.rest)
  }

  // ----- a path entered with the result unassigned -----

  /** ... ends with it unassigned wherever one entered with it assigned does. */
  lemma {:induction false} Monotone(s: Stmt, f: Option<Name>, flow: Flow)
    requires Misses(s, f, false, flow)
    ensures Misses(s, f, true, flow)
    decreases s, 2
  {
    if s.Scope? { BlockMonotone(s.body, f, flow); }
    else if s.If? || s.For? || s.Switch? { HeadedMonotone(s, f, flow); }
    else if s.OnFlow? || s.OnAnyFlow? { BlockMonotone(s.thn, f, flow); }
    else if s.Range? { BlockMonotone(s.body, f, flow); }
    else if s.RtTry? { TryMonotone(s, f, flow); }
  }

  lemma {:induction false} HeadedMonotone(s: Stmt, f: Option<Name>, flow: Flow)
    requires (s.If? || s.For? || s.Switch?) && HeadedMisses(s, s.init, f, false, flow)
    ensures HeadedMisses(s, s.init, f, true, flow)
    decreases s, 1
  {
    if BlockMisses(s.init, f, false, ToNext) { BlockMonotone(s.init, f, ToNext); }
  }

  lemma {:induction false} EntryMonotone(s: Stmt, f: Option<Name>, flow: Flow)
    requires (s.If? || s.For? || s.Switch?) && EntryMisses(s, f, false, flow)
    ensures EntryMisses(s, f, true, flow)
    decreases s, 0
  {
    if s.If? {
      if BlockMisses(s.thn, f, false, flow) { BlockMonotone(s.thn, f, flow); } else { BlockMonotone(s.els, f, flow); }
    }
    else if s.For? { BlockMonotone(s.body, f, if flow == ToNext then ToBreak(NO_LABEL) else flow); }
    else { ClausesMonotone(s.clauses, f, false, false, true, false, flow); }
  }

  lemma {:induction false} BlockMonotone(b: Block, f: Option<Name>, flow: Flow)
    requires BlockMisses(b, f, false, flow)
    ensures BlockMisses(b, f, true, flow)
    decreases b, 0
  {
    if b.Cons? {
      if flow != ToNext && Misses(b.head, f, false, flow) { Monotone(b.head, f, flow); }
      else if Misses(b.head, f, false, ToNext) && BlockMisses(b.tail, f, true, flow) { Monotone(b.head, f, ToNext); }
    }
  }

  lemma {:induction false} ClausesMonotone(cs: Clauses, f: Option<Name>, u: bool, fell: bool, v: bool, fell': bool,
                                           flow: Flow)
    requires (u ==> v) && (fell ==> fell' || v) && ClausesMiss(cs, f, u, fell, flow)
    ensures ClausesMiss(cs, f, v, fell', flow)
    decreases cs, 0
  {
    var w, w' := u || fell, v || fell';
    if flow == ToNext && BlockMisses(cs.body, f, w, ToBreak(NO_LABEL)) {
      if w != w' { BlockMonotone(cs.body, f, ToBreak(NO_LABEL)); }
    } else if flow != ToBreak(NO_LABEL) && flow != ToFallthrough && BlockMisses(cs.body, f, w, flow) {
      if w != w' { BlockMonotone(cs.body, f, flow); }
    } else {
      if BlockMisses(cs.body, f, w, ToFallthrough) && w != w' { BlockMonotone(cs.body, f, ToFallthrough); }
      ClausesMonotone(cs.rest, f, u, BlockMisses(cs.body, f, w, ToFallthrough), v,
                      BlockMisses(cs.body, f, w', ToFallthrough), flow);
    }
  }

  lemma {:induction false} CallMonotone(b: Block, f: Option<Name>, flow: Flow)
    requires CallMisses(b, f, false, flow)
    ensures CallMisses(b, f, true, flow)
    decreases b, 1
  {
    if flow != ToReturn && BlockMisses(b, f, false, flow) { BlockMonotone(b, f, flow); }
    else { BlockMonotone(b, f, ToReturn); }
  }

  lemma {:induction false} PendingMonotone(s: Stmt, f: Option<Name>, flow: Flow)
    requires s.RtTry? && PendingMisses(s, f, false, flow)
    ensures PendingMisses(s, f, true, flow)
    decreases s, 0
  {
    if CallMisses(s.body, f, false, flow) {
      CallMonotone(s.body, f, flow);
    } else {
      CallMonotone(s.handler.body, f, flow);
    }
  }

  lemma {:induction false} TryMonotone(s: Stmt, f: Option<Name>, flow: Flow)
    requires s.RtTry? && TryMisses(s, f, false, flow)
    ensures TryMisses(s, f, true, flow)
    decreases s, 1
  {
    if s.finalizer.NoClosure? { PendingMonotone(s, f, flow); }
    else if exists p :: PendingMisses(s, f, false, p) {
      var p :| PendingMisses(s, f, false, p);
      PendingMonotone(s, f, p);
    }
  }

  // ----- exits that lack a result -----

  /** Some exit with this flow does not hold the result; any exit lacks none. */
  ghost predicate Lacking(exits: seq<Exit>, flow: Flow, f: Option<Name>) {
    exists i :: 0 <= i < |exits| && LacksAt(exits[i], flow, f)
  }

  predicate LacksAt(e: Exit, flow: Flow, f: Option<Name>) {
    e.flow == flow && (f.None? || f.value !in e.state)
  }

  lemma LackingOne(e: Exit, flow: Flow, f: Option<Name>)
    ensures Lacking([e], flow, f) <==> LacksAt(e, flow, f)
  {
    assert [e][0] == e;
  }

  lemma LackingConcat(a: seq<Exit>, b: seq<Exit>, flow: Flow, f: Option<Name>)
    ensures Lacking(a + b, flow, f) <==> Lacking(a, flow, f) || Lacking(b, flow, f)
  {
    if Lacking(a, flow, f) {
      var i :| 0 <= i < |a| && LacksAt(a[i], flow, f);
      assert (a + b)[i] == a[i];
    }
    if Lacking(b, flow, f) {
      var i :| 0 <= i < |b| && LacksAt(b[i], flow, f);
      assert (a + b)[|a| + i] == b[i];
    }
  }

  lemma FirstLacks(exits: seq<Exit>, flow: Flow, f: Option<Name>)
    requires exits != []
    ensures Lacking(exits, flow, f) <==> LacksAt(exits[0], flow, f) || Lacking(exits[1..], flow, f)
  {
    assert exits == [exits[0]] + exits[1..];
    LackingConcat([exits[0]], exits[1..], flow, f);
    LackingOne(exits[0], flow, f);
  }

  lemma LackingInto(result: seq<Exit>, e: Exit, flow: Flow, f: Option<Name>)
    ensures Lacking(MergeInto(result, e), flow, f) <==> Lacking(result, flow, f) || LacksAt(e, flow, f)
  {
    var i, merged := Position(result, e.flow), MergeInto(result, e);
    if i < 0 {
      LackingConcat(result, [e], flow, f);
      LackingOne(e, flow, f);
    } else {
      if Lacking(result, flow, f) {
        var k :| 0 <= k < |result| && LacksAt(result[k], flow, f);
        assert LacksAt(merged[k], flow, f);
      }
      if LacksAt(e, flow, f) { assert LacksAt(merged[i], flow, f); }
      if Lacking(merged, flow, f) {
        var k :| 0 <= k < |merged| && LacksAt(merged[k], flow, f);
        assert k != i ==> LacksAt(result[k], flow, f);
      }
    }
  }

  /** Merging intersects states and loses nothing about one result. */
  lemma {:induction false} LackingMerge(exits: seq<Exit>, flow: Flow, f: Option<Name>)
    ensures Lacking(Merge(exits), flow, f) <==> Lacking(exits, flow, f)
    decreases |exits|
  {
    if exits != [] {
      var last := |exits| - 1;
      LackingMerge(exits[..last], flow, f);
      LackingInto(Merge(exits[..last]), exits[last], flow, f);
      assert exits == exits[..last] + [exits[last]];
      LackingConcat(exits[..last], [exits[last]], flow, f);
      LackingOne(exits[last], flow, f);
    }
  }

  ghost predicate LackingVia(exits: seq<Exit>, route: Route, flow: Flow, f: Option<Name>) {
    exists before :: Via(route, before) == Some(flow) && Lacking(exits, before, f)
  }

  lemma {:induction false} LackingReroute(exits: seq<Exit>, route: Route, flow: Flow, f: Option<Name>)
    ensures Lacking(Reroute(exits, route), flow, f) <==> LackingVia(exits, route, flow, f)
    decreases |exits|
  {
    if exits == [] { assert forall before :: !Lacking(exits, before, f); }
    else {
      var e, rest := exits[0], Reroute(exits[1..], route);
      LackingReroute(exits[1..], route, flow, f);
      forall before ensures Lacking(exits, before, f) <==>
                            LacksAt(e, before, f) || Lacking(exits[1..], before, f) { FirstLacks(exits, before, f); }
      if Via(route, e.flow).Some? {
        LackingConcat([e.(flow := Via(route, e.flow).value)], rest, flow, f);
        LackingOne(e.(flow := Via(route, e.flow).value), flow, f);
      }
      if LacksAt(e, e.flow, f) && Via(route, e.flow) == Some(flow) { assert Lacking(exits, e.flow, f); }
    }
  }

  lemma LackingRelabel(exits: seq<Exit>, l: Name, flow: Flow, f: Option<Name>)
    ensures Lacking(Relabel(exits, l), flow, f) <==>
            if flow == ToNext then
              Lacking(exits, ToNext, f) || Lacking(exits, ToBreak(l), None) || Lacking(exits, ToContinue(l), None)
            else flow != ToBreak(l) && flow != ToContinue(l) && Lacking(exits, flow, f)
  {
    var landed := Relabel(exits, l);
    if Lacking(landed, flow, f) {
      var i :| 0 <= i < |landed| && LacksAt(landed[i], flow, f);
      assert landed[i] == Landed(exits[i], l);
      assert LacksAt(exits[i], exits[i].flow, None);
    }
    if Lacking(exits, flow, f) {
      var i :| 0 <= i < |exits| && LacksAt(exits[i], flow, f);
      assert landed[i] == Landed(exits[i], l);
    }
    if Lacking(exits, ToBreak(l), None) {
      var i :| 0 <= i < |exits| && LacksAt(exits[i], ToBreak(l), None);
      assert landed[i] == Exit({}, ToNext);
    }
    if Lacking(exits, ToContinue(l), None) {
      var i :| 0 <= i < |exits| && LacksAt(exits[i], ToContinue(l), None);
      assert landed[i] == Exit({}, ToNext);
    }
  }

  // ----- statements -----

  predicate Known(req: set<Name>, f: Option<Name>) {
    f.Some? ==> f.value in req
  }

  predicate Unset(f: Option<Name>, state: set<Name>) {
    f.None? || f.value !in state
  }

  lemma {:induction false} TargetsLack(req: set<Name>, lhs: seq<Lhs>, state: set<Name>, flow: Flow, f: Option<Name>)
    requires Known(req, f)
    ensures Lacking(Targets(req, lhs, state).exits, flow, f) <==> flow == ToNext && Unset(f, state) && !Sets(lhs, f)
    decreases |lhs|
  {
    if lhs == [] { LackingOne(Exit(state, ToNext), flow, f); }
    else {
      assert lhs == [lhs[0]] + lhs[1..];
      TargetsLack(req, lhs[1..], if lhs[0].Var? && lhs[0].x in req then state + {lhs[0].x} else state, flow, f);
    }
  }

  lemma {:induction false} StepLacks(req: set<Name>, cb: bool, s: Stmt, state: set<Name>, flow: Flow, f: Option<Name>)
    requires Headed(s) && Known(req, f)
    ensures Lacking(Step(req, cb, s, state).exits, flow, f) <==> Misses(s, f, Unset(f, state), flow)
    decreases s, 6, 0
  {
    if s.Assign? { TargetsLack(req, s.lhs, state, flow, f); }
    else if s.Throw? || s.Panic? {}
    else if s.SetSlots? { LackingOne(Exit(state + req, ToNext), flow, f); }
    else if s.Scope? { FromState(req, cb, s.body, state, flow, f); }
    else if s.If? || s.For? || s.Switch? { CompoundLacks(req, cb, s, state, flow, f); }
    else if s.OnFlow? || s.OnAnyFlow? { OptionalLacks(req, cb, s.thn, state, flow, f); }
    else if s.Range? { RangeLacks(req, cb, s, state, flow, f); }
    else if s.Labeled? { LabeledLacks(req, cb, s, state, flow, f); }
    else if s.RtTry? { TryLacks(req, cb, s, state, flow, f); }
    else { SimpleLacks(req, cb, s, state, flow, f); }
  }

  lemma SimpleLacks(req: set<Name>, cb: bool, s: Stmt, state: set<Name>, flow: Flow, f: Option<Name>)
    requires !s.Assign? && !s.SetSlots? && !s.Throw? && !s.Panic? && !s.Scope? && !s.If? && !s.For? && !s.Switch?
             && !s.OnFlow? && !s.OnAnyFlow? && !s.Range? && !s.Labeled? && !s.RtTry?
    ensures Lacking(Step(req, cb, s, state).exits, flow, f) <==> Misses(s, f, Unset(f, state), flow)
  {
    var way := if s.Return? || s.ReturnSlots? then ToReturn else if s.Break? then ToBreak(s.to)
               else if s.Continue? then ToContinue(s.to) else if s.Fallthrough? then ToFallthrough else ToNext;
    assert Step(req, cb, s, state).exits == [Exit(state, way)];
    LackingOne(Exit(state, way), flow, f);
  }

  lemma {:induction false} OptionalLacks(req: set<Name>, cb: bool, thn: Block, state: set<Name>, flow: Flow,
                                         f: Option<Name>)
    requires HeadedBlock(thn) && Known(req, f)
    ensures Lacking(Optional(req, cb, thn, state).exits, flow, f) <==>
            (flow == ToNext && Unset(f, state)) || BlockMisses(thn, f, Unset(f, state), flow)
    decreases thn, 2, 0
  {
    var exits := Paths(req, cb, thn, Onward(state)).exits;
    FromState(req, cb, thn, state, flow, f);
    LackingOne(Exit(state, ToNext), flow, f);
    LackingConcat(exits, Onward(state), flow, f);
    LackingMerge(exits + Onward(state), flow, f);
  }

  lemma {:induction false} RangeLacks(req: set<Name>, cb: bool, s: Stmt, state: set<Name>, flow: Flow, f: Option<Name>)
    requires s.Range? && Headed(s) && Known(req, f)
    ensures Lacking(Step(req, cb, s, state).exits, flow, f) <==> Misses(s, f, Unset(f, state), flow)
    decreases s, 5, 0
  {
    var exits := Paths(req, cb, s.body, Onward(state)).exits;
    FromState(req, cb, s.body, state, flow, f);
    LackingOne(Exit(state, ToNext), flow, f);
    LackingReroute(exits, OutOfRange, flow, f);
    LackingConcat(Onward(state), Reroute(exits, OutOfRange), flow, f);
    LackingMerge(Onward(state) + Reroute(exits, OutOfRange), flow, f);
    assert LackingVia(exits, OutOfRange, flow, f) <==> Via(OutOfRange, flow) == Some(flow) && Lacking(exits, flow, f);
  }

  lemma {:induction false} LabeledLacks(req: set<Name>, cb: bool, s: Stmt, state: set<Name>, flow: Flow,
                                        f: Option<Name>)
    requires s.Labeled? && Headed(s) && Known(req, f)
    ensures Lacking(Step(req, cb, s, state).exits, flow, f) <==> Misses(s, f, Unset(f, state), flow)
    decreases s, 5, 0
  {
    var exits := Step(req, cb, s.stmt, {}).exits;
    StepLacks(req, cb, s.stmt, {}, flow, f);
    StepLacks(req, cb, s.stmt, {}, ToNext, f);
    StepLacks(req, cb, s.stmt, {}, ToBreak(s.lab), None);
    StepLacks(req, cb, s.stmt, {}, ToContinue(s.lab), None);
    LackingRelabel(exits, s.lab, flow, f);
    LackingMerge(Relabel(exits, s.lab), flow, f);
  }

  // ----- headers -----

  lemma {:induction false} CompoundLacks(req: set<Name>, cb: bool, s: Stmt, state: set<Name>, flow: Flow,
                                         f: Option<Name>)
    requires (s.If? || s.For? || s.Switch?) && Headed(s) && Known(req, f)
    ensures Lacking(Step(req, cb, s, state).exits, flow, f) <==> Misses(s, f, Unset(f, state), flow)
    decreases s, 5, 0
  {
    var after := HeaderExits(req, cb, s.init, state);
    FromSimple(req, cb, s.init, state, f);
    FromSimple(req, cb, s.init, state, None);
    LackingOne(Exit(after, ToNext), ToNext, f);
    LackingOne(Exit(after, ToNext), ToNext, None);
    OneEntry(req, cb, s, state, after);
    LackingMerge(Entry(req, cb, s, after).exits, flow, f);
    EntryLacks(req, cb, s, after, flow, f);
    HeadedAfter(s, f, Unset(f, state), Unset(f, after), flow);
  }

  lemma OneEntry(req: set<Name>, cb: bool, s: Stmt, state: set<Name>, after: set<Name>)
    requires s.If? || s.For? || s.Switch?
    requires Paths(req, cb, s.init, Onward(state)).exits == Onward(after)
    ensures Step(req, cb, s, state).exits == Merge(Entry(req, cb, s, after).exits)
    ensures Step(req, cb, s, state).ok <==> Paths(req, cb, s.init, Onward(state)).ok && Entry(req, cb, s, after).ok
  {
    assert Onward(after)[1..] == [] && Entries(req, cb, s, []) == Verdict([], true);
    var e := Entry(req, cb, s, after);
    assert Entries(req, cb, s, Onward(after)).exits == e.exits + [] == e.exits;
    assert Step(req, cb, s, state) == Compound(req, cb, s, s.init, state);
  }

  lemma HeadedAfter(s: Stmt, f: Option<Name>, before: bool, after: bool, flow: Flow)
    requires s.If? || s.For? || s.Switch?
    requires BlockMisses(s.init, f, before, ToNext) <==> after
    requires BlockMisses(s.init, None, true, ToNext)
    ensures Misses(s, f, before, flow) <==> EntryMisses(s, f, after, flow)
  {
    if EntryMisses(s, f, false, flow) { EntryMonotone(s, f, flow); }
    assert Misses(s, f, before, flow) == HeadedMisses(s, s.init, f, before, flow);
  }

  /** One statement, entered by one path. */
  lemma OneStep(req: set<Name>, cb: bool, s: Stmt, state: set<Name>)
    ensures StepEach(req, cb, s, Onward(state)).exits == Step(req, cb, s, state).exits
  {
    assert Onward(state)[1..] == [] && StepEach(req, cb, s, []) == Verdict([], true);
    assert Step(req, cb, s, state).exits + [] == Step(req, cb, s, state).exits;
  }

  lemma OneMerged(after: set<Name>)
    ensures Merge(Onward(after)) == Onward(after)
  {
    assert Onward(after)[..0] == [] && Merge([]) == [];
    assert MergeInto([], Exit(after, ToNext)) == Onward(after);
  }

  /** A simple statement ends normally. */
  lemma HeaderExits(req: set<Name>, cb: bool, init: Block, state: set<Name>) returns (after: set<Name>)
    requires SimpleStmt(init)
    ensures Paths(req, cb, init, Onward(state)).exits == Onward(after)
  {
    after := state;
    if init.Cons? {
      var s := init.head;
      if s.Assign? { after := AfterTargets(req, s.lhs, state); }
      OneStep(req, cb, s, state);
      OneMerged(after);
      assert Step(req, cb, s, state).exits == Onward(after) && init.tail == Nil;
    }
  }

  lemma {:induction false} AfterTargets(req: set<Name>, lhs: seq<Lhs>, state: set<Name>) returns (after: set<Name>)
    ensures Targets(req, lhs, state).exits == Onward(after)
    decreases |lhs|
  {
    if lhs == [] { after := state; }
    else { after := AfterTargets(req, lhs[1..], if lhs[0].Var? && lhs[0].x in req then state + {lhs[0].x} else state); }
  }

  lemma FromSimple(req: set<Name>, cb: bool, init: Block, state: set<Name>, f: Option<Name>)
    requires SimpleStmt(init) && Known(req, f)
    ensures Lacking(Paths(req, cb, init, Onward(state)).exits, ToNext, f) <==>
            BlockMisses(init, f, Unset(f, state), ToNext)
  {
    if init.Nil? { LackingOne(Exit(state, ToNext), ToNext, f); }
    else {
      var s := init.head;
      assert init.tail == Nil;
      OneStep(req, cb, s, state);
      LackingMerge(Step(req, cb, s, state).exits, ToNext, f);
      if s.Assign? { TargetsLack(req, s.lhs, state, ToNext, f); } else { SimpleLacks(req, cb, s, state, ToNext, f); }
      assert BlockMisses(init, f, Unset(f, state), ToNext) <==> Misses(s, f, Unset(f, state), ToNext);
    }
  }

  lemma {:induction false} EntryLacks(req: set<Name>, cb: bool, s: Stmt, state: set<Name>, flow: Flow, f: Option<Name>)
    requires (s.If? || s.For? || s.Switch?) && Headed(s) && Known(req, f)
    ensures Lacking(Entry(req, cb, s, state).exits, flow, f) <==> EntryMisses(s, f, Unset(f, state), flow)
    decreases s, 4, 0
  {
    if s.If? {
      FromState(req, cb, s.thn, state, flow, f);
      FromState(req, cb, s.els, state, flow, f);
      LackingConcat(Paths(req, cb, s.thn, Onward(state)).exits, Paths(req, cb, s.els, Onward(state)).exits, flow, f);
    }
    else if s.For? { ForLacks(req, cb, s, state, flow, f); }
    else { SwitchLacks(req, cb, s, state, flow, f); }
  }

  lemma {:induction false} ForLacks(req: set<Name>, cb: bool, s: Stmt, state: set<Name>, flow: Flow, f: Option<Name>)
    requires s.For? && Headed(s) && Known(req, f)
    ensures Lacking(ForEntry(req, cb, s, state).exits, flow, f) <==> EntryMisses(s, f, Unset(f, state), flow)
    decreases s, 3, 0
  {
    var exits := Paths(req, cb, s.body, Onward(state)).exits;
    var skipped := if s.cond.When? then Onward(state) else [];
    FromState(req, cb, s.body, state, flow, f);
    FromState(req, cb, s.body, state, ToBreak(NO_LABEL), f);
    LackingOne(Exit(state, ToNext), flow, f);
    LackingReroute(exits, OutOfLoop, flow, f);
    LackingConcat(skipped, Reroute(exits, OutOfLoop), flow, f);
    LoopWays(exits, flow, f);
  }

  lemma LoopWays(exits: seq<Exit>, flow: Flow, f: Option<Name>)
    ensures LackingVia(exits, OutOfLoop, flow, f) <==>
            if flow == ToNext then Lacking(exits, ToBreak(NO_LABEL), f)
            else flow != ToBreak(NO_LABEL) && flow != ToContinue(NO_LABEL) && Lacking(exits, flow, f)
  {
    assert Via(OutOfLoop, ToBreak(NO_LABEL)) == Some(ToNext);
  }

  lemma {:induction false} SwitchLacks(req: set<Name>, cb: bool, s: Stmt, state: set<Name>, flow: Flow,
                                       f: Option<Name>)
    requires s.Switch? && Headed(s) && Known(req, f)
    ensures Lacking(SwitchEntry(req, cb, s, state).exits, flow, f) <==> EntryMisses(s, f, Unset(f, state), flow)
    decreases s, 3, 0
  {
    var exits := Cases(req, cb, s.clauses, state, []).exits;
    var all := if HasDefault(s.clauses) then exits else exits + Onward(state);
    CasesLack(req, cb, s.clauses, state, [], flow, f);
    LackingOne(Exit(state, ToNext), flow, f);
    LackingConcat(exits, Onward(state), flow, f);
    LackingMerge(all, flow, f);
  }

  lemma {:induction false} CasesLack(req: set<Name>, cb: bool, cs: Clauses, state: set<Name>, fallen: seq<Exit>,
                                     flow: Flow, f: Option<Name>)
    requires HeadedClauses(cs) && Known(req, f) && forall k :: 0 <= k < |fallen| ==> fallen[k].flow == ToNext
    ensures Lacking(Cases(req, cb, cs, state, fallen).exits, flow, f) <==>
            ClausesMiss(cs, f, Unset(f, state), Lacking(fallen, ToNext, f), flow)
    decreases cs, 2, 0
  {
    if cs.Clause? {
      var entry := Merge(Onward(state) + fallen);
      var exits := Paths(req, cb, cs.body, entry).exits;
      var falls := Reroute(exits, IntoNextClause);
      FallsOnward(exits);
      ClauseLacks(req, cb, cs.body, state, fallen, flow, f);
      ClauseLacks(req, cb, cs.body, state, fallen, ToBreak(NO_LABEL), f);
      ClauseLacks(req, cb, cs.body, state, fallen, ToFallthrough, f);
      CasesLack(req, cb, cs.rest, state, falls, flow, f);
      LackingReroute(exits, OutOfClause, flow, f);
      LackingReroute(exits, IntoNextClause, ToNext, f);
      ClauseWays(exits, flow, f);
      LackingConcat(Reroute(exits, OutOfClause), Cases(req, cb, cs.rest, state, falls).exits, flow, f);
    }
  }

  lemma ClauseWays(exits: seq<Exit>, flow: Flow, f: Option<Name>)
    ensures LackingVia(exits, OutOfClause, flow, f) <==>
            || (flow == ToNext && Lacking(exits, ToBreak(NO_LABEL), f))
            || (flow != ToBreak(NO_LABEL) && flow != ToFallthrough && Lacking(exits, flow, f))
    ensures LackingVia(exits, IntoNextClause, ToNext, f) <==> Lacking(exits, ToFallthrough, f)
  {
    assert Via(OutOfClause, ToBreak(NO_LABEL)) == Some(ToNext) && Via(IntoNextClause, ToFallthrough) == Some(ToNext);
  }

  lemma {:induction false} FallsOnward(exits: seq<Exit>)
    ensures forall k :: 0 <= k < |Reroute(exits, IntoNextClause)| ==> Reroute(exits, IntoNextClause)[k].flow == ToNext
    decreases |exits|
  {
    if exits != [] { FallsOnward(exits[1..]); }
  }

  /** A clause body, from the switch's entry and from what falls into it. */
  lemma {:induction false} ClauseLacks(req: set<Name>, cb: bool, b: Block, state: set<Name>, fallen: seq<Exit>,
                                       flow: Flow, f: Option<Name>)
    requires HeadedBlock(b) && Known(req, f) && forall k :: 0 <= k < |fallen| ==> fallen[k].flow == ToNext
    ensures Lacking(Paths(req, cb, b, Merge(Onward(state) + fallen)).exits, flow, f) <==>
            BlockMisses(b, f, Unset(f, state) || Lacking(fallen, ToNext, f), flow)
    decreases b, 2, 0
  {
    var entry := Merge(Onward(state) + fallen);
    PathsLack(req, cb, b, entry, flow, f);
    EntryLacking(state, fallen, flow, f);
    EntryLacking(state, fallen, ToNext, f);
    EntryLacking(state, fallen, ToNext, None);
    if BlockMisses(b, f, false, flow) { BlockMonotone(b, f, flow); }
  }

  lemma EntryLacking(state: set<Name>, fallen: seq<Exit>, flow: Flow, f: Option<Name>)
    requires forall k :: 0 <= k < |fallen| ==> fallen[k].flow == ToNext
    ensures Lacking(Merge(Onward(state) + fallen), flow, f) <==>
            flow == ToNext && (Unset(f, state) || Lacking(fallen, ToNext, f))
  {
    LackingOne(Exit(state, ToNext), flow, f);
    LackingConcat(Onward(state), fallen, flow, f);
    LackingMerge(Onward(state) + fallen, flow, f);
  }

  // ----- calls of Try -----

  lemma {:induction false} CallLacks(req: set<Name>, b: Block, state: set<Name>, flow: Flow, f: Option<Name>)
    requires HeadedBlock(b) && Known(req, f)
    ensures Lacking(CallbackPaths(req, b, state).exits, flow, f) <==> CallMisses(b, f, Unset(f, state), flow)
    decreases b, 2, 0
  {
    var exits := Paths(req, true, b, Onward(state)).exits;
    FromState(req, true, b, state, flow, f);
    FromState(req, true, b, state, ToReturn, f);
    LackingReroute(exits, OutOfCallback, flow, f);
    LackingMerge(Reroute(exits, OutOfCallback), flow, f);
    assert Via(OutOfCallback, ToReturn) == Some(ToNext);
    assert LackingVia(exits, OutOfCallback, flow, f) <==>
        (flow != ToReturn && Lacking(exits, flow, f)) || (flow == ToNext && Lacking(exits, ToReturn, f));
  }

  ghost function Pending(req: set<Name>, s: Stmt, state: set<Name>): seq<Exit>
    requires s.RtTry?
  {
    var b := CallbackPaths(req, s.body, state).exits;
    if s.handler.Func? then Merge(b + CallbackPaths(req, s.handler.body, state).exits) else b
  }

  lemma {:induction false} PendingLacks(req: set<Name>, s: Stmt, state: set<Name>, flow: Flow, f: Option<Name>)
    requires s.RtTry? && Headed(s) && Known(req, f)
    ensures Lacking(Pending(req, s, state), flow, f) <==> PendingMisses(s, f, Unset(f, state), flow)
    decreases s, 3, 0
  {
    var b := CallbackPaths(req, s.body, state).exits;
    CallLacks(req, s.body, state, flow, f);
    if s.handler.Func? {
      var h := CallbackPaths(req, s.handler.body, state).exits;
      CallLacks(req, s.handler.body, state, flow, f);
      LackingConcat(b, h, flow, f);
      LackingMerge(b + h, flow, f);
    }
  }

  lemma {:induction false} TryLacks(req: set<Name>, cb: bool, s: Stmt, state: set<Name>, flow: Flow, f: Option<Name>)
    requires s.RtTry? && Headed(s) && Known(req, f)
    ensures Lacking(Step(req, cb, s, state).exits, flow, f) <==> TryMisses(s, f, Unset(f, state), flow)
    decreases s, 5, 0
  {
    assert Step(req, cb, s, state) == TryPaths(req, s, state);
    PendingLacks(req, s, state, flow, f);
    if s.finalizer.Func? { FinalizedLacks(req, s, state, flow, f); }
  }

  ghost predicate LackingSomehow(exits: seq<Exit>, f: Option<Name>) {
    exists p :: Lacking(exits, p, f)
  }

  lemma {:induction false} FinalizedLacks(req: set<Name>, s: Stmt, state: set<Name>, flow: Flow, f: Option<Name>)
    requires s.RtTry? && s.finalizer.Func? && Headed(s) && Known(req, f)
    ensures Lacking(TryPaths(req, s, state).exits, flow, f) <==> TryMisses(s, f, Unset(f, state), flow)
    decreases s, 4, 0
  {
    var pending := Pending(req, s, state);
    forall p ensures Lacking(pending, p, f) <==> PendingMisses(s, f, Unset(f, state), p) {
      PendingLacks(req, s, state, p, f);
    }
    forall p ensures Lacking(pending, p, None) <==> PendingMisses(s, None, true, p) {
      PendingLacks(req, s, state, p, None);
    }
    FinallyLacks(req, s.finalizer.body, pending, flow, f);
    FinalizedExits(req, s, state, flow, f);
  }

  lemma FinalizedExits(req: set<Name>, s: Stmt, state: set<Name>, flow: Flow, f: Option<Name>)
    requires s.RtTry? && s.finalizer.Func?
    ensures Lacking(TryPaths(req, s, state).exits, flow, f) <==>
            Lacking(Finally(req, s.finalizer.body, Pending(req, s, state)).exits, flow, f)
  {
    var pending := Pending(req, s, state);
    LackingMerge(Finally(req, s.finalizer.body, pending).exits, flow, f);
    assert TryPaths(req, s, state).exits == Merge(Finally(req, s.finalizer.body, pending).exits);
  }

  lemma {:induction false} FinallyLacks(req: set<Name>, b: Block, pending: seq<Exit>, flow: Flow, f: Option<Name>)
    requires HeadedBlock(b) && Known(req, f)
    ensures Lacking(Finally(req, b, pending).exits, flow, f) <==>
            || (LackingSomehow(pending, f) && CallMisses(b, f, true, flow))
            || (LackingSomehow(pending, None) && CallMisses(b, f, false, flow))
    decreases b, 3, |pending|
  {
    if pending != [] {
      var first, rest := CallbackPaths(req, b, pending[0].state).exits, Finally(req, b, pending[1..]).exits;
      CallLacks(req, b, pending[0].state, flow, f);
      FinallyLacks(req, b, pending[1..], flow, f);
      LackingConcat(first, rest, flow, f);
      SomehowFirst(pending, f);
      SomehowFirst(pending, None);
      if CallMisses(b, f, false, flow) { CallMonotone(b, f, flow); }
    }
  }

  lemma SomehowFirst(exits: seq<Exit>, f: Option<Name>)
    requires exits != []
    ensures LackingSomehow(exits, f) <==> Unset(f, exits[0].state) || LackingSomehow(exits[1..], f)
  {
    forall p ensures Lacking(exits, p, f) <==> LacksAt(exits[0], p, f) || Lacking(exits[1..], p, f) {
      FirstLacks(exits, p, f);
    }
    if Unset(f, exits[0].state) { assert LacksAt(exits[0], exits[0].flow, f); }
  }

  // ----- lists -----

  lemma {:induction false} FromState(req: set<Name>, cb: bool, b: Block, state: set<Name>, flow: Flow, f: Option<Name>)
    requires HeadedBlock(b) && Known(req, f)
    ensures Lacking(Paths(req, cb, b, Onward(state)).exits, flow, f) <==> BlockMisses(b, f, Unset(f, state), flow)
    decreases b, 1, 0
  {
    PathsLack(req, cb, b, Onward(state), flow, f);
    LackingOne(Exit(state, ToNext), flow, f);
    LackingOne(Exit(state, ToNext), ToNext, f);
    LackingOne(Exit(state, ToNext), ToNext, None);
    if BlockMisses(b, f, false, flow) { BlockMonotone(b, f, flow); }
  }

  /** What a statement list makes of its entries, for one result. */
  ghost predicate ListMisses(b: Block, exits: seq<Exit>, flow: Flow, f: Option<Name>) {
    || (flow != ToNext && Lacking(exits, flow, f))
    || (Lacking(exits, ToNext, f) && BlockMisses(b, f, true, flow))
    || (Lacking(exits, ToNext, None) && BlockMisses(b, f, false, flow))
  }

  /** The exits of a statement list lack a result exactly if some path through it ends
      that way with the result unassigned: intersecting where paths meet loses nothing. */
  lemma {:induction false} PathsLack(req: set<Name>, cb: bool, b: Block, exits: seq<Exit>, flow: Flow, f: Option<Name>)
    requires HeadedBlock(b) && Known(req, f)
    ensures Lacking(Paths(req, cb, b, exits).exits, flow, f) <==> ListMisses(b, exits, flow, f)
    decreases b, 0, 0
  {
    if b.Cons? {
      var next := StepEach(req, cb, b.head, exits).exits;
      StepEachLacks(req, cb, b.head, exits, flow, f);
      StepEachLacks(req, cb, b.head, exits, ToNext, f);
      StepEachLacks(req, cb, b.head, exits, ToNext, None);
      LackingMerge(next, flow, f);
      LackingMerge(next, ToNext, f);
      LackingMerge(next, ToNext, None);
      PathsLack(req, cb, b.tail, Merge(next), flow, f);
      ListOn(b, exits, Merge(next), flow, f);
    }
  }

  ghost predicate EachMisses(s: Stmt, exits: seq<Exit>, flow: Flow, f: Option<Name>) {
    Either(exits, flow, f, Misses(s, f, true, flow), Misses(s, f, false, flow))
  }

  /** From exits on which the result is unassigned, and from all. */
  ghost predicate Either(exits: seq<Exit>, flow: Flow, f: Option<Name>, unset: bool, any: bool) {
    || (flow != ToNext && Lacking(exits, flow, f))
    || (Lacking(exits, ToNext, f) && unset)
    || (Lacking(exits, ToNext, None) && any)
  }

  lemma ListOn(b: Block, exits: seq<Exit>, next: seq<Exit>, flow: Flow, f: Option<Name>)
    requires b.Cons?
    requires Lacking(next, flow, f) <==> EachMisses(b.head, exits, flow, f)
    requires Lacking(next, ToNext, f) <==> EachMisses(b.head, exits, ToNext, f)
    requires Lacking(next, ToNext, None) <==> EachMisses(b.head, exits, ToNext, None)
    ensures ListMisses(b.tail, next, flow, f) <==> ListMisses(b, exits, flow, f)
  {
    if Misses(b.head, None, false, ToNext) { Monotone(b.head, None, ToNext); }
    if Misses(b.head, f, true, ToNext) { Reached(exits, f); }
    assert Lacking(next, ToNext, None) <==> Lacking(exits, ToNext, None) && Misses(b.head, None, true, ToNext);
    assert forall u :: BlockMisses(b, f, u, flow) <==>
        || (flow != ToNext && Misses(b.head, f, u, flow))
        || (Misses(b.head, f, u, ToNext) && BlockMisses(b.tail, f, true, flow))
        || (Misses(b.head, None, true, ToNext) && BlockMisses(b.tail, f, false, flow));
    Reached(exits, f);
  }

  lemma Reached(exits: seq<Exit>, f: Option<Name>)
    ensures Lacking(exits, ToNext, f) ==> Lacking(exits, ToNext, None)
  {
    if Lacking(exits, ToNext, f) {
      var i :| 0 <= i < |exits| && LacksAt(exits[i], ToNext, f);
      assert LacksAt(exits[i], ToNext, None);
    }
  }

  lemma {:induction false} StepEachLacks(req: set<Name>, cb: bool, s: Stmt, exits: seq<Exit>, flow: Flow,
                                         f: Option<Name>)
    requires Headed(s) && Known(req, f)
    ensures Lacking(StepEach(req, cb, s, exits).exits, flow, f) <==> EachMisses(s, exits, flow, f)
    decreases s, 8, |exits|
  {
    if exits != [] {
      var e := exits[0];
      StepEachLacks(req, cb, s, exits[1..], flow, f);
      FirstStepLacks(req, cb, s, e, flow, f);
      LackingConcat(FirstStep(req, cb, s, e).exits, StepEach(req, cb, s, exits[1..]).exits, flow, f);
      EachFirst(s, exits, flow, f);
    }
  }

  function FirstStep(req: set<Name>, cb: bool, s: Stmt, e: Exit): Verdict {
    if e.flow != ToNext then Verdict([e], true) else Step(req, cb, s, e.state)
  }

  lemma {:induction false} FirstStepLacks(req: set<Name>, cb: bool, s: Stmt, e: Exit, flow: Flow, f: Option<Name>)
    requires Headed(s) && Known(req, f)
    ensures Lacking(FirstStep(req, cb, s, e).exits, flow, f) <==> EachMisses(s, [e], flow, f)
    decreases s, 7, 0
  {
    EitherOne(e, flow, f, Misses(s, f, true, flow), Misses(s, f, false, flow));
    if e.flow == ToNext {
      StepLacks(req, cb, s, e.state, flow, f);
      NeverLess(s, f, flow);
    } else { LackingOne(e, flow, f); }
  }

  lemma NeverLess(s: Stmt, f: Option<Name>, flow: Flow)
    ensures Misses(s, f, false, flow) ==> Misses(s, f, true, flow)
  {
    if Misses(s, f, false, flow) { Monotone(s, f, flow); }
  }

  lemma EitherOne(e: Exit, flow: Flow, f: Option<Name>, unset: bool, any: bool)
    ensures Either([e], flow, f, unset, any) <==>
            if e.flow != ToNext then LacksAt(e, flow, f) else (Unset(f, e.state) && unset) || any
  {
    LackingOne(e, flow, f);
    LackingOne(e, ToNext, f);
    LackingOne(e, ToNext, None);
  }

  lemma EachFirst(s: Stmt, exits: seq<Exit>, flow: Flow, f: Option<Name>)
    requires exits != []
    ensures EachMisses(s, exits, flow, f) <==> EachMisses(s, [exits[0]], flow, f) || EachMisses(s, exits[1..], flow, f)
  {
    EitherFirst(exits, flow, f, Misses(s, f, true, flow), Misses(s, f, false, flow));
  }

  lemma EitherFirst(exits: seq<Exit>, flow: Flow, f: Option<Name>, unset: bool, any: bool)
    requires exits != []
    ensures Either(exits, flow, f, unset, any) <==>
            Either([exits[0]], flow, f, unset, any) || Either(exits[1..], flow, f, unset, any)
  {
    FirstLacks(exits, flow, f);
    FirstLacks(exits, ToNext, f);
    FirstLacks(exits, ToNext, None);
    LackingOne(exits[0], flow, f);
    LackingOne(exits[0], ToNext, f);
    LackingOne(exits[0], ToNext, None);
  }
}
