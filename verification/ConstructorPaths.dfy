/** The constructor analysis against the paths of the program, one field at a time:
    the exit lists it computes say which paths leave the field unset, and it
    complains exactly where one mentions the field before setting it
    (internal/compiler/construction_flow.go). */
module ConstructorPaths {
  import opened Options
  import opened Syntax
  import opened Machine
  import opened ProgramPaths
  import opened Construction
  import PathRuns
  import opened Growth

  // ----- the bodies the analysis is meant for -----

  /** A parsed constructor body. The analysis does not look into labelled statements:
      no path may leave one other than at its end or with an exception. */
  ghost predicate Followed(s: Stmt, fall: bool)
    decreases s
  {
    match s
    case Scope(body) => FollowedBlock(body, false)
    case If(init, _, thn, els) => FollowedBlock(init, false) && FollowedBlock(thn, false) && FollowedBlock(els, false)
    case For(init, _, post, body) =>
      FollowedBlock(init, false) && SimpleStmt(post) && FollowedBlock(post, false) && FollowedBlock(body, false)
    case Range(_, _, _, body) => FollowedBlock(body, false)
    case Switch(init, _, clauses) => FollowedBlock(init, false) && FollowedClauses(clauses)
    case Try(body, handler, finalizer) =>
      && FollowedBlock(body, false) && FollowedClosure(handler) && FollowedClosure(finalizer)
      && (handler.Func? ==> CatchChain(handler.body))
    case Labeled(_, _) => Sourced(s) && Harmless(s)
    case Break(to) => to == NO_LABEL
    case Continue(to) => to == NO_LABEL
    case Fallthrough => fall
    case _ => s.Eval? || s.Parent? || s.Throw? || s.Panic? || s.Assign? || s.Declare? || s.Return? || s.Defer?
  }

  ghost predicate FollowedBlock(b: Block, fall: bool)
    decreases b
  {
    match b
    case Nil => true
    case Cons(h, t) => Followed(h, fall && t.Nil?) && FollowedBlock(t, fall)
  }

  /** `fallthrough` ends a clause body, and never the last one. */
  ghost predicate FollowedClauses(cs: Clauses)
    decreases cs
  {
    match cs
    case NoClauses => true
    case Clause(_, _, body, rest) => FollowedBlock(body, rest.Clause?) && FollowedClauses(rest)
  }

  ghost predicate FollowedClosure(c: Closure)
    decreases c
  {
    match c
    case NoClosure => true
    case Func(body) => FollowedBlock(body, false)
  }

  /** What the analysis takes more strictly than the program does: a labelled
      statement neither mentions the field nor keeps a path from passing it, and no
      `range` clause sets the field. */
  ghost predicate Neutral(s: Stmt, f: Name)
    decreases s
  {
    match s
    case Scope(body) => NeutralBlock(body, f)
    case If(init, _, thn, els) => NeutralBlock(init, f) && NeutralBlock(thn, f) && NeutralBlock(els, f)
    case For(init, _, post, body) => NeutralBlock(init, f) && NeutralBlock(post, f) && NeutralBlock(body, f)
    case Range(_, lhs, _, body) => Field(f) !in lhs && NeutralBlock(body, f)
    case Switch(init, _, clauses) => NeutralBlock(init, f) && NeutralClauses(clauses, f)
    case Labeled(_, _) => f !in Mentions(s) && Goes(s, NO_LABEL, Some(f), Through)
    case Try(body, handler, finalizer) =>
      && NeutralBlock(body, f) && (handler.Func? ==> NeutralBlock(handler.body, f))
      && (finalizer.Func? ==> NeutralBlock(finalizer.body, f))
    case _ => true
  }

  ghost predicate NeutralBlock(b: Block, f: Name)
    decreases b
  {
    b.Cons? ==> Neutral(b.head, f) && NeutralBlock(b.tail, f)
  }

  ghost predicate NeutralClauses(cs: Clauses, f: Name)
    decreases cs
  {
    cs.Clause? ==> NeutralBlock(cs.body, f) && NeutralClauses(cs.rest, f)
  }

  /** The paths that leave the field unset are the analysis's, no fewer. */
  ghost predicate Exact(s: Stmt, f: Name) {
    PathRuns.Open(s, Some(f)) && Neutral(s, f)
  }

  ghost predicate ExactBlock(b: Block, f: Name) {
    PathRuns.OpenBlock(b, Some(f)) && NeutralBlock(b, f)
  }

  ghost predicate ExactClauses(cs: Clauses, f: Name) {
    PathRuns.OpenClauses(cs, Some(f)) && NeutralClauses(cs, f)
  }

  // ----- merging -----

  predicate Distinct(exits: seq<Exit>) {
    forall i, j :: 0 <= i < j < |exits| ==> exits[i].flow != exits[j].flow
  }

  /** What every exit with this flow holds. */
  ghost predicate Everywhere(exits: seq<Exit>, flow: Flow, f: Name) {
    forall i :: 0 <= i < |exits| && exits[i].flow == flow ==> f in exits[i].state
  }

  ghost predicate Leaves(exits: seq<Exit>, flow: Flow) {
    exists i :: 0 <= i < |exits| && exits[i].flow == flow
  }

  /** Merging keeps one exit per flow, and that exit holds a field exactly when
      every merged exit with its flow does. */
  lemma {:induction false} MergeExact(exits: seq<Exit>)
    ensures Distinct(Merge(exits))
    ensures forall flow :: Leaves(Merge(exits), flow) <==> Leaves(exits, flow)
    ensures forall i, f :: 0 <= i < |Merge(exits)| ==>
              (f in Merge(exits)[i].state <==> Everywhere(exits, Merge(exits)[i].flow, f))
    decreases |exits|
  {
    if exits != [] {
      var n := |exits| - 1;
      var before, e := exits[..n], exits[n];
      MergeExact(before);
      assert exits == before + [e];
      MergeOneMore(before, Merge(before), e);
    }
  }

  lemma MergeOneMore(exits: seq<Exit>, merged: seq<Exit>, e: Exit)
    requires Distinct(merged)
    requires forall flow :: Leaves(merged, flow) <==> Leaves(exits, flow)
    requires forall i, f :: 0 <= i < |merged| ==> (f in merged[i].state <==> Everywhere(exits, merged[i].flow, f))
    ensures Distinct(MergeInto(merged, e))
    ensures forall flow :: Leaves(MergeInto(merged, e), flow) <==> Leaves(exits + [e], flow)
    ensures forall i, f :: 0 <= i < |MergeInto(merged, e)| ==>
              (f in MergeInto(merged, e)[i].state <==> Everywhere(exits + [e], MergeInto(merged, e)[i].flow, f))
  {
    var k := Position(merged, e.flow);
    var result, all := MergeInto(merged, e), exits + [e];
    forall flow ensures Leaves(result, flow) <==> Leaves(all, flow) {
      if Leaves(all, flow) {
        if flow == e.flow { assert result[if k < 0 then |merged| else k].flow == flow; }
        else {
          var i :| 0 <= i < |all| && all[i].flow == flow;
          assert exits[i].flow == flow && Leaves(exits, flow);
          assert Leaves(merged, flow);
          var j :| 0 <= j < |merged| && merged[j].flow == flow;
          assert result[j].flow == flow;
        }
      }
      if Leaves(result, flow) {
        var i :| 0 <= i < |result| && result[i].flow == flow;
        if flow == e.flow { assert all[|exits|].flow == flow; }
        else {
          assert merged[i].flow == flow && Leaves(merged, flow);
          assert Leaves(exits, flow);
          var j :| 0 <= j < |exits| && exits[j].flow == flow;
          assert all[j].flow == flow;
        }
      }
    }
    forall i, f | 0 <= i < |result| ensures f in result[i].state <==> Everywhere(all, result[i].flow, f) {
      EverywhereMore(exits, e, result[i].flow, f);
      if i < |merged| {
        if i != k { assert result[i] == merged[i] && merged[i].flow != e.flow; }
      } else {
        assert k < 0 && !Leaves(merged, e.flow);
        assert !Leaves(exits, e.flow);
      }
    }
  }

  lemma EverywhereMore(exits: seq<Exit>, e: Exit, flow: Flow, f: Name)
    ensures Everywhere(exits + [e], flow, f) <==> Everywhere(exits, flow, f) && (e.flow == flow ==> f in e.state)
  {
    var all := exits + [e];
    if Everywhere(all, flow, f) {
      assert all[|exits|] == e;
      forall i | 0 <= i < |exits| && exits[i].flow == flow ensures f in exits[i].state { assert all[i] == exits[i]; }
    }
  }

  // ----- exit lists -----

  /** Some exit with this flow lacks the field. */
  ghost predicate Lacking(exits: seq<Exit>, flow: Flow, f: Name) {
    exists i :: 0 <= i < |exits| && exits[i].flow == flow && f !in exits[i].state
  }

  lemma LackingAt(exits: seq<Exit>, i: nat, f: Name)
    requires i < |exits| && f !in exits[i].state
    ensures Lacking(exits, exits[i].flow, f)
  {}

  lemma LackingConcat(a: seq<Exit>, b: seq<Exit>, flow: Flow, f: Name)
    ensures Lacking(a + b, flow, f) <==> Lacking(a, flow, f) || Lacking(b, flow, f)
  {
    if Lacking(a + b, flow, f) {
      var i :| 0 <= i < |a + b| && (a + b)[i].flow == flow && f !in (a + b)[i].state;
      if i < |a| { LackingAt(a, i, f); } else { LackingAt(b, i - |a|, f); }
    }
    if Lacking(a, flow, f) {
      var i :| 0 <= i < |a| && a[i].flow == flow && f !in a[i].state;
      assert (a + b)[i] == a[i];
    }
    if Lacking(b, flow, f) {
      var i :| 0 <= i < |b| && b[i].flow == flow && f !in b[i].state;
      assert (a + b)[|a| + i] == b[i];
    }
  }

  lemma LackingOne(e: Exit, flow: Flow, f: Name)
    ensures Lacking([e], flow, f) <==> e.flow == flow && f !in e.state
    ensures !Lacking([], flow, f)
  {
    if e.flow == flow && f !in e.state { assert [e][0] == e; }
  }

  lemma LackingMerge(exits: seq<Exit>, flow: Flow, f: Name)
    ensures Lacking(Merge(exits), flow, f) <==> Lacking(exits, flow, f)
  {
    MergeExact(exits);
    var m := Merge(exits);
    if Lacking(exits, flow, f) {
      var i :| 0 <= i < |exits| && exits[i].flow == flow && f !in exits[i].state;
      assert Leaves(exits, flow);
      assert Leaves(m, flow);
      var k :| 0 <= k < |m| && m[k].flow == flow;
      assert !Everywhere(exits, flow, f);
    }
    if Lacking(m, flow, f) {
      var k :| 0 <= k < |m| && m[k].flow == flow && f !in m[k].state;
      assert !Everywhere(exits, flow, f);
    }
  }

  lemma {:induction false} LackingReroute(exits: seq<Exit>, route: Route, to: Flow, f: Name)
    ensures Lacking(Reroute(exits, route), to, f) <==>
            exists flow :: Via(route, flow) == Some(to) && Lacking(exits, flow, f)
    decreases |exits|
  {
    if exits == [] { LackingOne(Exit({}, to), to, f); }
    else {
      var rest := Reroute(exits[1..], route);
      var via := Via(route, exits[0].flow);
      LackingReroute(exits[1..], route, to, f);
      assert exits == [exits[0]] + exits[1..];
      forall flow ensures Lacking(exits, flow, f) <==>
          (exits[0].flow == flow && f !in exits[0].state) || Lacking(exits[1..], flow, f) {
        LackingConcat([exits[0]], exits[1..], flow, f);
        LackingOne(exits[0], flow, f);
      }
      if via.Some? {
        LackingConcat([exits[0].(flow := via.value)], rest, to, f);
        LackingOne(exits[0].(flow := via.value), to, f);
      }
      if via == Some(to) && f !in exits[0].state { assert Lacking(exits, exits[0].flow, f); }
    }
  }

  /** The exits some flow is rerouted from. */
  lemma LackingVia(exits: seq<Exit>, route: Route, to: Flow, f: Name)
    ensures Lacking(Reroute(exits, route), to, f) <==>
            || (Via(route, ToNext) == Some(to) && Lacking(exits, ToNext, f))
            || (Via(route, ToBreak) == Some(to) && Lacking(exits, ToBreak, f))
            || (Via(route, ToContinue) == Some(to) && Lacking(exits, ToContinue, f))
            || (Via(route, ToFallthrough) == Some(to) && Lacking(exits, ToFallthrough, f))
            || (Via(route, ToReturn) == Some(to) && Lacking(exits, ToReturn, f))
            || (Via(route, ToThrow) == Some(to) && Lacking(exits, ToThrow, f))
  {
    LackingReroute(exits, route, to, f);
  }

  lemma FirstLacks(exits: seq<Exit>, flow: Flow, f: Name)
    requires exits != []
    ensures Lacking(exits, flow, f) <==> (exits[0].flow == flow && f !in exits[0].state) || Lacking(exits[1..], flow, f)
  {
    assert exits == [exits[0]] + exits[1..];
    LackingConcat([exits[0]], exits[1..], flow, f);
    LackingOne(exits[0], flow, f);
  }

  /** Only fallthrough enters the next clause, as a normal flow. */
  lemma {:induction false} RerouteFlows(exits: seq<Exit>, route: Route)
    requires route == IntoNextClause
    ensures forall k :: 0 <= k < |Reroute(exits, route)| ==> Reroute(exits, route)[k].flow == ToNext
    decreases |exits|
  {
    if exits != [] { RerouteFlows(exits[1..], route); }
  }

  /** The way a flow of the analysis stands for. */
  function WayFor(flow: Flow): Way {
    match flow
    case ToNext => Through
    case ToBreak => ByBreak(NO_LABEL)
    case ToContinue => ByContinue(NO_LABEL)
    case ToFallthrough => ByFall
    case ToReturn => ByReturn
    case ToThrow => ByThrow
  }

  /** Some path leaves the field unset only if some exit lacks it, exceptions apart,
      and also the other way round where the analysis is exact. */
  ghost predicate Agrees(exact: bool, flow: Flow, can: bool, lacking: bool) {
    (can && flow != ToThrow ==> lacking) && (exact && lacking ==> can)
  }

  // ----- facts about paths -----

  lemma {:induction false} FollowedSourced(s: Stmt, fall: bool)
    requires Followed(s, fall)
    ensures Sourced(s)
    decreases s
  {
    if s.Scope? || s.Range? { FollowedBlockSourced(s.body, false); }
    else if s.If? {
      FollowedBlockSourced(s.init, false);
      FollowedBlockSourced(s.thn, false);
      FollowedBlockSourced(s.els, false);
    }
    else if s.For? {
      FollowedBlockSourced(s.init, false);
      FollowedBlockSourced(s.post, false);
      FollowedBlockSourced(s.body, false);
    }
    else if s.Switch? {
      FollowedBlockSourced(s.init, false);
      FollowedClausesSourced(s.clauses);
    }
    else if s.Try? {
      FollowedBlockSourced(s.body, false);
      if s.handler.Func? { FollowedBlockSourced(s.handler.body, false); }
      if s.finalizer.Func? { FollowedBlockSourced(s.finalizer.body, false); }
    }
  }

  lemma {:induction false} FollowedBlockSourced(b: Block, fall: bool)
    requires FollowedBlock(b, fall)
    ensures SourcedBlock(b)
    decreases b
  {
    if b.Cons? {
      FollowedSourced(b.head, fall && b.tail.Nil?);
      FollowedBlockSourced(b.tail, fall);
    }
  }

  lemma {:induction false} FollowedClausesSourced(cs: Clauses)
    requires FollowedClauses(cs)
    ensures SourcedClauses(cs)
    decreases cs
  {
    if cs.Clause? {
      FollowedBlockSourced(cs.body, cs.rest.Clause?);
      FollowedClausesSourced(cs.rest);
    }
  }

  /** Without a field to leave unset there are no fewer paths. */
  lemma {:induction false} AnyPath(s: Stmt, lab: Name, f: Option<Name>, w: Way)
    requires Goes(s, lab, f, w)
    ensures Goes(s, lab, None, w)
    decreases s, 3
  {
    if s.Scope? { AnyBlockPath(s.body, f, w); }
    else if s.If? || s.For? || s.Switch? { AnyHeaderPath(s, lab, f, w); }
    else if s.Range? { if BlockGoes(s.body, f, w) { AnyBlockPath(s.body, f, w); } }
    else if s.Labeled? { AnyPath(s.stmt, s.lab, f, w); }
    else if s.Try? { AnyTryPath(s, f, w); }
  }

  lemma {:induction false} AnyBlockPath(b: Block, f: Option<Name>, w: Way)
    requires BlockGoes(b, f, w)
    ensures BlockGoes(b, None, w)
    decreases b, 0
  {
    if b.Cons? {
      if !w.Through? && Goes(b.head, NO_LABEL, f, w) { AnyPath(b.head, NO_LABEL, f, w); }
      else {
        AnyPath(b.head, NO_LABEL, f, Through);
        AnyBlockPath(b.tail, f, w);
      }
    }
  }

  /** ... whichever way it goes, if it goes that way. */
  lemma {:induction false} EitherWay(b: Block, f: Option<Name>, w: Way)
    ensures BlockGoes(b, f, w) ==> BlockGoes(b, None, w)
    decreases b, 1
  {
    if BlockGoes(b, f, w) { AnyBlockPath(b, f, w); }
  }

  lemma {:induction false} AnyHeaderPath(s: Stmt, lab: Name, f: Option<Name>, w: Way)
    requires (s.If? || s.For? || s.Switch?) && Goes(s, lab, f, w)
    ensures Goes(s, lab, None, w)
    decreases s, 2
  {
    EitherWay(s.init, f, w);
    EitherWay(s.init, f, Through);
    if EntryGoes(s, lab, f, w) {
      if s.If? {
        EitherWay(s.thn, f, w);
        EitherWay(s.els, f, w);
      }
      else if s.For? { AnyLoopPath(s, lab, f, w); }
      else if ClausesGo(s.clauses, lab, f, w) { AnyClausesPath(s.clauses, lab, f, w); }
      assert EntryGoes(s, lab, None, w);
    }
    assert HeaderGoes(s, s.init, lab, None, w);
  }

  lemma {:induction false} AnyLoopPath(s: Stmt, lab: Name, f: Option<Name>, w: Way)
    requires s.For? && LoopGoes(s, lab, f, w)
    ensures LoopGoes(s, lab, None, w)
    decreases s, 1
  {
    EitherWay(s.body, f, w);
    EitherWay(s.body, f, Through);
    EitherWay(s.body, f, ByBreak(NO_LABEL));
    EitherWay(s.body, f, ByBreak(lab));
    EitherWay(s.body, f, ByContinue(NO_LABEL));
    EitherWay(s.body, f, ByContinue(lab));
    EitherWay(s.post, f, w);
  }

  lemma {:induction false} AnyClausesPath(cs: Clauses, lab: Name, f: Option<Name>, w: Way)
    requires ClausesGo(cs, lab, f, w)
    ensures ClausesGo(cs, lab, None, w)
    decreases cs, 0
  {
    EitherWay(cs.body, f, w);
    EitherWay(cs.body, f, ByFall);
    EitherWay(cs.body, f, ByBreak(NO_LABEL));
    EitherWay(cs.body, f, ByBreak(lab));
    if ClausesGo(cs.rest, lab, f, w) { AnyClausesPath(cs.rest, lab, f, w); }
  }

  lemma {:induction false} AnyTryPath(s: Stmt, f: Option<Name>, w: Way)
    requires s.Try? && TryGoes(s, f, w)
    ensures TryGoes(s, None, w)
    decreases s, 2
  {
    if Pends(s, f, w) { AnyPending(s, f, w); }
    if s.finalizer.Func? {
      EitherWay(s.finalizer.body, f, w);
      EitherWay(s.finalizer.body, f, Through);
      if PendsUnder(s, f, w) {
        var p := PathRuns.PendWay(s, f, w);
        AnyPending(s, f, p);
      }
    }
  }

  lemma {:induction false} AnyPending(s: Stmt, f: Option<Name>, w: Way)
    requires s.Try? && Pends(s, f, w)
    ensures Pends(s, None, w)
    decreases s, 1
  {
    EitherWay(s.body, f, w);
    if s.handler.Func? { EitherWay(s.handler.body, f, w); }
  }

  ghost predicate Ordinary(w: Way, fall: bool) {
    (w.ByBreak? || w.ByContinue? ==> w.lab == NO_LABEL) && (w.ByFall? ==> fall)
  }

  /** No label is left over, and `fallthrough` only where it may stand. */
  lemma {:induction false} Unlabelled(s: Stmt, fall: bool, f: Option<Name>, w: Way)
    requires Followed(s, fall) && Goes(s, NO_LABEL, f, w)
    ensures Ordinary(w, fall) && (w.ByFall? ==> s.Fallthrough?)
    decreases s, 3
  {
    if s.Scope? { BlockUnlabelled(s.body, false, f, w); }
    else if s.If? || s.For? || s.Switch? { HeaderUnlabelled(s, f, w); }
    else if s.Range? { if BlockGoes(s.body, f, w) { BlockUnlabelled(s.body, false, f, w); } }
    else if s.Labeled? { AnyPath(s, NO_LABEL, f, w); }
    else if s.Try? { TryUnlabelled(s, f, w); }
  }

  lemma {:induction false} BlockUnlabelled(b: Block, fall: bool, f: Option<Name>, w: Way)
    requires FollowedBlock(b, fall) && BlockGoes(b, f, w)
    ensures Ordinary(w, fall)
    decreases b, 0
  {
    if b.Cons? {
      if !w.Through? && Goes(b.head, NO_LABEL, f, w) { Unlabelled(b.head, fall && b.tail.Nil?, f, w); }
      else { BlockUnlabelled(b.tail, fall, f, w); }
    }
  }

  lemma {:induction false} HeaderUnlabelled(s: Stmt, f: Option<Name>, w: Way)
    requires (s.If? || s.For? || s.Switch?) && Followed(s, false) && Goes(s, NO_LABEL, f, w)
    ensures Ordinary(w, false)
    decreases s, 2
  {
    assert HeaderGoes(s, s.init, NO_LABEL, f, w);
    if BlockGoes(s.init, f, w) { BlockUnlabelled(s.init, false, f, w); }
    else {
      assert EntryGoes(s, NO_LABEL, f, w);
      if s.If? {
        if BlockGoes(s.thn, f, w) { BlockUnlabelled(s.thn, false, f, w); } else { BlockUnlabelled(s.els, false, f, w); }
      }
      else if s.For? && !w.Through? {
        assert LoopGoes(s, NO_LABEL, f, w);
        if BlockGoes(s.body, f, w) {
          BlockUnlabelled(s.body, false, f, w);
        } else {
          BlockUnlabelled(s.post, false, f, w);
        }
      }
      else if s.Switch? && ClausesGo(s.clauses, NO_LABEL, f, w) { ClausesUnlabelled(s.clauses, f, w); }
    }
  }

  lemma {:induction false} ClausesUnlabelled(cs: Clauses, f: Option<Name>, w: Way)
    requires FollowedClauses(cs) && ClausesGo(cs, NO_LABEL, f, w)
    ensures Ordinary(w, false)
    decreases cs, 0
  {
    if ClausesGo(cs.rest, NO_LABEL, f, w) { ClausesUnlabelled(cs.rest, f, w); }
    else if BlockGoes(cs.body, f, w) && !w.Through? { BlockUnlabelled(cs.body, cs.rest.Clause?, f, w); }
  }

  lemma {:induction false} TryUnlabelled(s: Stmt, f: Option<Name>, w: Way)
    requires s.Try? && Followed(s, false) && TryGoes(s, f, w)
    ensures Ordinary(w, false)
    decreases s, 2
  {
    if Pends(s, f, w) { PendingUnlabelled(s, f, w); } else { BlockUnlabelled(s.finalizer.body, false, f, w); }
  }

  lemma {:induction false} PendingUnlabelled(s: Stmt, f: Option<Name>, w: Way)
    requires s.Try? && Followed(s, false) && Pends(s, f, w)
    ensures Ordinary(w, false)
    decreases s, 1
  {
    if BlockGoes(s.body, f, w) { BlockUnlabelled(s.body, false, f, w); }
    else if s.handler.Func? && BlockGoes(s.handler.body, f, w) { BlockUnlabelled(s.handler.body, false, f, w); }
  }

  /** What a path mentions stands in the text. */
  lemma {:induction false} MeetsMentioned(s: Stmt, lab: Name, f: Name)
    requires Meets(Made, s, lab, f)
    ensures f in Mentions(s)
    decreases s, 1
  {
    if s.Assign? || s.Declare? || s.Return? {
      var es := if s.Assign? then Operands(s.lhs) + s.rhs else if s.Declare? then s.rhs else s.es;
      var e :| e in es && f in Fields(e);
      if s.Assign? && e in Operands(s.lhs) { OperandMentioned(s.lhs, e, f); }
    }
    else if s.Scope? { BlockMeetsMentioned(s.body, f); }
    else if s.If? {
      if BlockMeets(Made, s.init, f) { BlockMeetsMentioned(s.init, f); }
      else if BlockMeets(Made, s.thn, f) { BlockMeetsMentioned(s.thn, f); }
      else if BlockMeets(Made, s.els, f) { BlockMeetsMentioned(s.els, f); }
    }
    else if s.For? {
      if BlockMeets(Made, s.init, f) { BlockMeetsMentioned(s.init, f); }
      else if BlockMeets(Made, s.body, f) { BlockMeetsMentioned(s.body, f); }
      else if BlockMeets(Made, s.post, f) { BlockMeetsMentioned(s.post, f); }
    }
    else if s.Switch? {
      if BlockMeets(Made, s.init, f) { BlockMeetsMentioned(s.init, f); }
      else if ClausesMeet(Made, s.clauses, f) { ClausesMeetMentioned(s.clauses, f); }
    }
    else if s.Range? {
      if BlockMeets(Made, s.body, f) { BlockMeetsMentioned(s.body, f); }
      else if f !in Fields(s.over) {
        var e :| e in Operands(s.lhs) && f in Fields(e);
        OperandMentioned(s.lhs, e, f);
      }
    }
    else if s.Labeled? { MeetsMentioned(s.stmt, s.lab, f); }
    else if s.Try? {
      if BlockMeets(Made, s.body, f) { BlockMeetsMentioned(s.body, f); }
      else if s.handler.Func? && BlockMeets(Made, s.handler.body, f) { BlockMeetsMentioned(s.handler.body, f); }
      else { BlockMeetsMentioned(s.finalizer.body, f); }
    }
  }

  lemma OperandMentioned(lhs: seq<Lhs>, e: Expr, f: Name)
    requires e in Operands(lhs) && f in Fields(e)
    ensures f in LhsMentions(lhs)
  {
    OperandsFrom(lhs, e);
    assert At(e).At? && f in Fields(At(e).e);
  }

  lemma {:induction false} BlockMeetsMentioned(b: Block, f: Name)
    requires BlockMeets(Made, b, f)
    ensures f in BlockMentions(b)
    decreases b, 0
  {
    if Meets(Made, b.head, NO_LABEL, f) {
      MeetsMentioned(b.head, NO_LABEL, f);
    } else {
      BlockMeetsMentioned(b.tail, f);
    }
  }

  lemma {:induction false} ClausesMeetMentioned(cs: Clauses, f: Name)
    requires ClausesMeet(Made, cs, f)
    ensures f in ClausesMention(cs)
    decreases cs, 0
  {
    if BlockMeets(Made, cs.body, f) { BlockMeetsMentioned(cs.body, f); }
    else if ClausesMeet(Made, cs.rest, f) { ClausesMeetMentioned(cs.rest, f); }
  }

  // ----- which fields are unset where -----

  lemma {:induction false} TargetsLack(req: set<Name>, lhs: seq<Lhs>, state: set<Name>, flow: Flow, f: Name)
    ensures Lacking(Targets(req, lhs, state).exits, flow, f) <==> flow == ToNext && f !in state && Field(f) !in lhs
    decreases |lhs|
  {
    if lhs == [] { LackingOne(Exit(state, ToNext), flow, f); }
    else {
      assert Field(f) in lhs <==> lhs[0] == Field(f) || Field(f) in lhs[1..];
      TargetsLack(req, lhs[1..], if lhs[0].Field? then state + {lhs[0].f} else state, flow, f);
    }
  }

  lemma {:induction false} StepLacks(exact: bool, req: set<Name>, s: Stmt, fall: bool, state: set<Name>, flow: Flow,
                                     f: Name)
    requires Followed(s, fall) && (exact ==> Exact(s, f))
    ensures Agrees(exact, flow, f !in state && Goes(s, NO_LABEL, Some(f), WayFor(flow)),
                   Lacking(Step(req, s, state).exits, flow, f))
    decreases s, 3, 0
  {
    if s.Assign? { TargetsLack(req, s.lhs, state, flow, f); }
    else if s.Scope? { FromState(exact, req, s.body, false, state, flow, f); }
    else if s.If? || s.For? || s.Switch? { CompoundLacks(exact, req, s, state, flow, f); }
    else if s.Range? { RangeLacks(exact, req, s, state, flow, f); }
    else if s.Try? { TryLacks(exact, req, s, state, flow, f); }
    else if s.Labeled? {
      LackingOne(Exit(state, ToNext), flow, f);
      if Goes(s, NO_LABEL, Some(f), WayFor(flow)) { AnyPath(s, NO_LABEL, Some(f), WayFor(flow)); }
    }
    else { SimpleLacks(req, s, state, flow, f); }
  }

  predicate Simple(s: Stmt) {
    || s.Eval? || s.Parent? || s.Throw? || s.Panic? || s.Declare? || s.Return? || s.Defer?
    || s.Break? || s.Continue? || s.Fallthrough?
  }

  lemma SimpleLacks(req: set<Name>, s: Stmt, state: set<Name>, flow: Flow, f: Name)
    requires Simple(s) && (s.Break? || s.Continue? ==> s.to == NO_LABEL)
    ensures Agrees(!s.Panic?, flow, f !in state && Goes(s, NO_LABEL, Some(f), WayFor(flow)),
                   Lacking(Step(req, s, state).exits, flow, f))
  {
    var exit := if s.Parent? then Exit(state + {"@parent"}, ToNext)
                else if s.Throw? then Exit(state, ToThrow)
                else if s.Return? then Exit(state, ToReturn)
                else if s.Break? then Exit(state, ToBreak)
                else if s.Continue? then Exit(state, ToContinue)
                else if s.Fallthrough? then Exit(state, ToFallthrough)
                else Exit(state, ToNext);
    assert Step(req, s, state).exits == [exit];
    LackingOne(exit, flow, f);
  }

  lemma {:induction false} RangeLacks(exact: bool, req: set<Name>, s: Stmt, state: set<Name>, flow: Flow, f: Name)
    requires s.Range? && Followed(s, false) && (exact ==> Exact(s, f))
    ensures Agrees(exact, flow, f !in state && Goes(s, NO_LABEL, Some(f), WayFor(flow)),
                   Lacking(Step(req, s, state).exits, flow, f))
    decreases s, 2, 0
  {
    var exits := Paths(req, s.body, Onward(state)).exits;
    FromState(exact, req, s.body, false, state, flow, f);
    if BlockGoes(s.body, Some(f), WayFor(flow)) { BlockUnlabelled(s.body, false, Some(f), WayFor(flow)); }
    LackingOne(Exit(state, ToNext), flow, f);
    LackingVia(exits, OutOfRange, flow, f);
    LackingConcat(Onward(state), Reroute(exits, OutOfRange), flow, f);
    LackingMerge(Onward(state) + Reroute(exits, OutOfRange), flow, f);
  }

  lemma {:induction false} CompoundLacks(exact: bool, req: set<Name>, s: Stmt, state: set<Name>, flow: Flow, f: Name)
    requires (s.If? || s.For? || s.Switch?) && Followed(s, false) && (exact ==> Exact(s, f))
    ensures Agrees(exact, flow, f !in state && Goes(s, NO_LABEL, Some(f), WayFor(flow)),
                   Lacking(Step(req, s, state).exits, flow, f))
    decreases s, 2, 0
  {
    var i := Paths(req, s.init, Onward(state));
    assert Step(req, s, state) == Compound(req, s, s.init, state);
    FromState(exact, req, s.init, false, state, flow, f);
    FromState(exact, req, s.init, false, state, ToNext, f);
    EntriesLack(exact, req, s, i.exits, flow, f);
    LackingMerge(Entries(req, s, i.exits).exits, flow, f);
    assert Goes(s, NO_LABEL, Some(f), WayFor(flow)) == HeaderGoes(s, s.init, NO_LABEL, Some(f), WayFor(flow));
  }

  lemma {:induction false} EntriesLack(exact: bool, req: set<Name>, s: Stmt, entries: seq<Exit>, flow: Flow, f: Name)
    requires (s.If? || s.For? || s.Switch?) && Followed(s, false) && (exact ==> Exact(s, f))
    ensures Agrees(exact, flow,
                   (flow != ToNext && Lacking(entries, flow, f))
                       || (Lacking(entries, ToNext, f) && EntryGoes(s, NO_LABEL, Some(f), WayFor(flow))),
                   Lacking(Entries(req, s, entries).exits, flow, f))
    decreases s, 1, |entries|
  {
    if entries == [] { LackingOne(Exit({}, ToNext), flow, f); LackingOne(Exit({}, ToNext), ToNext, f); }
    else {
      var e := entries[0];
      var v := if e.flow != ToNext then Verdict([e], true) else Entry(req, s, e.state);
      EntriesLack(exact, req, s, entries[1..], flow, f);
      FirstLacks(entries, flow, f);
      FirstLacks(entries, ToNext, f);
      LackingConcat(v.exits, Entries(req, s, entries[1..]).exits, flow, f);
      if e.flow != ToNext { LackingOne(e, flow, f); } else { EntryLacks(exact, req, s, e.state, flow, f); }
    }
  }

  lemma {:induction false} EntryLacks(exact: bool, req: set<Name>, s: Stmt, state: set<Name>, flow: Flow, f: Name)
    requires (s.If? || s.For? || s.Switch?) && Followed(s, false) && (exact ==> Exact(s, f))
    ensures Agrees(exact, flow, f !in state && EntryGoes(s, NO_LABEL, Some(f), WayFor(flow)),
                   Lacking(Entry(req, s, state).exits, flow, f))
    decreases s, 0, 1
  {
    if s.If? {
      FromState(exact, req, s.thn, false, state, flow, f);
      FromState(exact, req, s.els, false, state, flow, f);
      LackingConcat(Paths(req, s.thn, Onward(state)).exits, Paths(req, s.els, Onward(state)).exits, flow, f);
      assert Entry(req, s, state) == IfEntry(req, s, state);
      assert EntryGoes(s, NO_LABEL, Some(f), WayFor(flow)) ==
             (BlockGoes(s.thn, Some(f), WayFor(flow)) || BlockGoes(s.els, Some(f), WayFor(flow)));
    }
    else if s.For? { ForLacks(exact, req, s, state, flow, f); }
    else {
      SwitchLacks(exact, req, s, state, flow, f);
      assert Entry(req, s, state) == SwitchEntry(req, s, state);
    }
  }

  lemma {:induction false} SwitchLacks(exact: bool, req: set<Name>, s: Stmt, state: set<Name>, flow: Flow, f: Name)
    requires s.Switch? && Followed(s, false) && (exact ==> Exact(s, f))
    ensures Agrees(exact, flow, f !in state && EntryGoes(s, NO_LABEL, Some(f), WayFor(flow)),
                   Lacking(SwitchEntry(req, s, state).exits, flow, f))
    decreases s, 0, 0
  {
    var c := Cases(req, s.clauses, state, []);
    LackingOne(Exit(state, ToNext), flow, f);
    LackingOne(Exit(state, ToNext), ToNext, f);
    CasesLack(exact, req, s.clauses, state, [], flow, f);
    LackingConcat(c.exits, Onward(state), flow, f);
    assert EntryGoes(s, NO_LABEL, Some(f), WayFor(flow)) ==
           ((flow == ToNext && !HasDefault(s.clauses)) || ClausesGo(s.clauses, NO_LABEL, Some(f), WayFor(flow)));
  }

  lemma {:induction false} ForLacks(exact: bool, req: set<Name>, s: Stmt, state: set<Name>, flow: Flow, f: Name)
    requires s.For? && Followed(s, false) && (exact ==> Exact(s, f))
    ensures Agrees(exact, flow, f !in state && LoopGoes(s, NO_LABEL, Some(f), WayFor(flow)),
                   Lacking(ForEntry(req, s, state).exits, flow, f))
    decreases s, 0, 0
  {
    var exits := Paths(req, s.body, Onward(state)).exits;
    var skipped := if Infinite(s.cond) then [] else Onward(state);
    if BlockGoes(s.post, Some(f), WayFor(flow)) { PathRuns.SimpleGoes(s.post, Some(f), WayFor(flow)); }
    LackingOne(Exit(state, ToNext), flow, f);
    FromState(exact, req, s.body, false, state, flow, f);
    FromState(exact, req, s.body, false, state, ToBreak, f);
    if BlockGoes(s.body, Some(f), WayFor(flow)) { BlockUnlabelled(s.body, false, Some(f), WayFor(flow)); }
    LackingVia(exits, OutOfLoop, flow, f);
    LackingConcat(skipped, Reroute(exits, OutOfLoop), flow, f);
  }

  lemma {:induction false} CasesLack(exact: bool, req: set<Name>, cs: Clauses, state: set<Name>, fallen: seq<Exit>,
                                     flow: Flow, f: Name)
    requires FollowedClauses(cs) && (exact ==> ExactClauses(cs, f))
    requires forall k :: 0 <= k < |fallen| ==> fallen[k].flow == ToNext
    requires exact && Lacking(fallen, ToNext, f) ==> f !in state
    ensures Agrees(exact, flow, f !in state && ClausesGo(cs, NO_LABEL, Some(f), WayFor(flow)),
                   Lacking(Cases(req, cs, state, fallen).exits, flow, f))
    decreases cs, 1, 0
  {
    if cs.NoClauses? { LackingOne(Exit({}, ToNext), flow, f); }
    else {
      var b := Paths(req, cs.body, Merge(Onward(state) + fallen));
      var falls := Reroute(b.exits, IntoNextClause);
      ClauseEnds(exact, req, cs.body, cs.rest.Clause?, state, fallen, flow, f);
      RerouteFlows(b.exits, IntoNextClause);
      CasesLack(exact, req, cs.rest, state, falls, flow, f);
      LackingConcat(Reroute(b.exits, OutOfClause), Cases(req, cs.rest, state, falls).exits, flow, f);
      if BlockGoes(cs.body, Some(f), ByFall) { BlockUnlabelled(cs.body, cs.rest.Clause?, Some(f), ByFall); }
    }
  }

  /** Ways out of one clause, and into the next. */
  lemma {:induction false} ClauseEnds(exact: bool, req: set<Name>, b: Block, fall: bool, state: set<Name>,
                                      fallen: seq<Exit>, flow: Flow, f: Name)
    requires FollowedBlock(b, fall) && (exact ==> ExactBlock(b, f))
    requires forall k :: 0 <= k < |fallen| ==> fallen[k].flow == ToNext
    requires exact && Lacking(fallen, ToNext, f) ==> f !in state
    ensures var exits := Paths(req, b, Merge(Onward(state) + fallen)).exits;
            var w := WayFor(flow);
            && (exact && Lacking(Reroute(exits, IntoNextClause), ToNext, f) ==> f !in state)
            && Agrees(exact, flow,
                 f !in state && (if flow == ToNext then BlockGoes(b, Some(f), Through)
                                 || BlockGoes(b, Some(f), ByBreak(NO_LABEL))
                                 else flow != ToBreak && flow != ToFallthrough && BlockGoes(b, Some(f), w)),
                 Lacking(Reroute(exits, OutOfClause), flow, f))
    decreases b, 0, 2
  {
    var exits := Paths(req, b, Merge(Onward(state) + fallen)).exits;
    ClauseLacks(exact, req, b, fall, state, fallen, ToBreak, f);
    ClauseLacks(exact, req, b, fall, state, fallen, ToFallthrough, f);
    ClauseLacks(exact, req, b, fall, state, fallen, flow, f);
    LackingVia(exits, IntoNextClause, ToNext, f);
    LackingVia(exits, OutOfClause, flow, f);
  }

  lemma {:induction false} ClauseLacks(exact: bool, req: set<Name>, b: Block, fall: bool, state: set<Name>,
                                       fallen: seq<Exit>, flow: Flow, f: Name)
    requires FollowedBlock(b, fall) && (exact ==> ExactBlock(b, f))
    requires forall k :: 0 <= k < |fallen| ==> fallen[k].flow == ToNext
    requires exact && Lacking(fallen, ToNext, f) ==> f !in state
    ensures Agrees(exact, flow, f !in state && BlockGoes(b, Some(f), WayFor(flow)),
                   Lacking(Paths(req, b, Merge(Onward(state) + fallen)).exits, flow, f))
    decreases b, 0, 1
  {
    EntryLacking(state, fallen, f);
    var entry := Onward(state) + fallen;
    LackingConcat(Onward(state), fallen, flow, f);
    LackingOne(Exit(state, ToNext), flow, f);
    LackingMerge(entry, flow, f);
    PathsLack(exact, req, b, fall, Merge(entry), flow, f);
  }

  lemma EntryLacking(state: set<Name>, fallen: seq<Exit>, f: Name)
    ensures Lacking(Merge(Onward(state) + fallen), ToNext, f) <==> f !in state || Lacking(fallen, ToNext, f)
  {
    LackingMerge(Onward(state) + fallen, ToNext, f);
    LackingConcat(Onward(state), fallen, ToNext, f);
    LackingOne(Exit(state, ToNext), ToNext, f);
  }

  /** What the finalizer is entered with. */
  function PendingExits(req: set<Name>, s: Stmt, state: set<Name>): seq<Exit>
    requires s.Try?
  {
    var b := Paths(req, s.body, Onward(state));
    if s.handler.Func? then Merge(Reroute(b.exits, Uncaught) + Paths(req, s.handler.body, Onward(state)).exits)
    else if s.finalizer.Func? then b.exits + [Exit(state, ToThrow)]
    else b.exits
  }

  lemma {:induction false} PendingLacks(exact: bool, req: set<Name>, s: Stmt, state: set<Name>, flow: Flow, f: Name)
    requires s.Try? && Followed(s, false) && (exact ==> Exact(s, f))
    ensures Agrees(exact, flow, f !in state && Pends(s, Some(f), WayFor(flow)),
                   Lacking(PendingExits(req, s, state), flow, f))
    decreases s, 1, 0
  {
    if s.handler.Func? { HandledLacks(exact, req, s, state, flow, f); }
    else {
      FromState(exact, req, s.body, false, state, flow, f);
      LackingOne(Exit(state, ToThrow), flow, f);
      LackingConcat(Paths(req, s.body, Onward(state)).exits, [Exit(state, ToThrow)], flow, f);
    }
  }

  lemma {:induction false} HandledLacks(exact: bool, req: set<Name>, s: Stmt, state: set<Name>, flow: Flow, f: Name)
    requires s.Try? && s.handler.Func? && Followed(s, false) && (exact ==> Exact(s, f))
    ensures Agrees(exact, flow, f !in state && Pends(s, Some(f), WayFor(flow)),
                   Lacking(PendingExits(req, s, state), flow, f))
    decreases s, 0, 0
  {
    assert exact ==> PathRuns.OpenClosure(s.handler, Some(f));
    var uncaught := Reroute(Paths(req, s.body, Onward(state)).exits, Uncaught);
    var handled := Paths(req, s.handler.body, Onward(state)).exits;
    FromState(exact, req, s.body, false, state, flow, f);
    FromState(exact, req, s.handler.body, false, state, flow, f);
    LackingVia(Paths(req, s.body, Onward(state)).exits, Uncaught, flow, f);
    LackingConcat(uncaught, handled, flow, f);
    LackingMerge(uncaught + handled, flow, f);
    assert PendingExits(req, s, state) == Merge(uncaught + handled);
  }

  ghost predicate LackingSomehow(exits: seq<Exit>, f: Name) {
    || Lacking(exits, ToNext, f) || Lacking(exits, ToBreak, f) || Lacking(exits, ToContinue, f)
    || Lacking(exits, ToFallthrough, f) || Lacking(exits, ToReturn, f) || Lacking(exits, ToThrow, f)
  }

  lemma SomehowFirst(exits: seq<Exit>, f: Name)
    requires exits != []
    ensures LackingSomehow(exits, f) <==> f !in exits[0].state || LackingSomehow(exits[1..], f)
  {
    FirstLacks(exits, ToNext, f);
    FirstLacks(exits, ToBreak, f);
    FirstLacks(exits, ToContinue, f);
    FirstLacks(exits, ToFallthrough, f);
    FirstLacks(exits, ToReturn, f);
    FirstLacks(exits, ToThrow, f);
  }

  /** A catch chain keeps an exit by exception that has set nothing. */
  lemma {:induction false} ChainLacks(req: set<Name>, b: Block, exits: seq<Exit>, f: Name)
    requires CatchChain(b) && Lacking(exits, ToNext, f)
    ensures Lacking(Paths(req, b, exits).exits, ToThrow, f)
    decreases b
  {
    var s := b.head;
    var i :| 0 <= i < |exits| && exits[i].flow == ToNext && f !in exits[i].state;
    if s.Throw? { LackingOne(Exit(exits[i].state, ToThrow), ToThrow, f); }
    else {
      var state := exits[i].state;
      var headed := Paths(req, s.init, Onward(state)).exits;
      HeaderLacks(req, s.init, state, f);
      var k :| 0 <= k < |headed| && headed[k].flow == ToNext && f !in headed[k].state;
      LackingOne(Exit(headed[k].state, ToNext), ToNext, f);
      ChainLacks(req, s.els, Onward(headed[k].state), f);
      ChainStep(req, s, state, k, f);
    }
    SteppedAt(req, s, exits, i, ToThrow, f);
    LackingMerge(StepEach(req, s, exits).exits, ToThrow, f);
    assert Paths(req, b, exits).exits == Paths(req, b.tail, Merge(StepEach(req, s, exits).exits)).exits;
  }

  lemma HeaderLacks(req: set<Name>, init: Block, state: set<Name>, f: Name)
    requires CatchHeader(init) && f !in state
    ensures Lacking(Paths(req, init, Onward(state)).exits, ToNext, f)
    ensures Lacking(Onward(state), ToNext, f)
  {
    LackingOne(Exit(state, ToNext), ToNext, f);
    if init.Cons? {
      SteppedAt(req, init.head, Onward(state), 0, ToNext, f);
      LackingMerge(StepEach(req, init.head, Onward(state)).exits, ToNext, f);
      assert Paths(req, init, Onward(state)).exits ==
               Paths(req, init.tail, Merge(StepEach(req, init.head, Onward(state)).exits)).exits;
    }
  }

  lemma {:induction false} SteppedAt(req: set<Name>, s: Stmt, exits: seq<Exit>, i: nat, flow: Flow, f: Name)
    requires i < |exits| && exits[i].flow == ToNext && Lacking(Step(req, s, exits[i].state).exits, flow, f)
    ensures Lacking(StepEach(req, s, exits).exits, flow, f)
    decreases |exits|
  {
    LackingConcat(FirstStep(req, s, exits[0]).exits, StepEach(req, s, exits[1..]).exits, flow, f);
    if i > 0 { SteppedAt(req, s, exits[1..], i - 1, flow, f); }
  }

  lemma {:induction false} EnteredAt(req: set<Name>, s: Stmt, entries: seq<Exit>, i: nat, flow: Flow, f: Name)
    requires (s.If? || s.For? || s.Switch?) && i < |entries| && entries[i].flow == ToNext
             && Lacking(Entry(req, s, entries[i].state).exits, flow, f)
    ensures Lacking(Entries(req, s, entries).exits, flow, f)
    decreases |entries|
  {
    var v := if entries[0].flow != ToNext then Verdict([entries[0]], true) else Entry(req, s, entries[0].state);
    LackingConcat(v.exits, Entries(req, s, entries[1..]).exits, flow, f);
    if i > 0 { EnteredAt(req, s, entries[1..], i - 1, flow, f); }
  }

  lemma ChainStep(req: set<Name>, s: Stmt, state: set<Name>, k: nat, f: Name)
    requires s.If?
    requires var headed := Paths(req, s.init, Onward(state)).exits;
             && k < |headed| && headed[k].flow == ToNext
             && Lacking(Paths(req, s.els, Onward(headed[k].state)).exits, ToThrow, f)
    ensures Lacking(Step(req, s, state).exits, ToThrow, f)
  {
    var headed := Paths(req, s.init, Onward(state)).exits;
    var entry := headed[k].state;
    LackingConcat(Paths(req, s.thn, Onward(entry)).exits, Paths(req, s.els, Onward(entry)).exits, ToThrow, f);
    assert Entry(req, s, entry) == IfEntry(req, s, entry);
    EnteredAt(req, s, headed, k, ToThrow, f);
    LackingMerge(Entries(req, s, headed).exits, ToThrow, f);
    assert Step(req, s, state) == Compound(req, s, s.init, state);
  }

  /** Whatever is pending, the finalizer is entered with the field unset. */
  lemma {:induction false} PendingSomehow(req: set<Name>, s: Stmt, state: set<Name>, f: Name)
    requires s.Try? && s.finalizer.Func? && Followed(s, false) && f !in state
    ensures Lacking(PendingExits(req, s, state), ToThrow, f)
  {
    LackingOne(Exit(state, ToThrow), ToThrow, f);
    LackingOne(Exit(state, ToNext), ToNext, f);
    var body := Paths(req, s.body, Onward(state)).exits;
    if s.handler.Func? {
      ChainLacks(req, s.handler.body, Onward(state), f);
      LackingConcat(Reroute(body, Uncaught), Paths(req, s.handler.body, Onward(state)).exits, ToThrow, f);
      LackingMerge(Reroute(body, Uncaught) + Paths(req, s.handler.body, Onward(state)).exits, ToThrow, f);
    } else { LackingConcat(body, [Exit(state, ToThrow)], ToThrow, f); }
  }

  lemma {:induction false} FromState(exact: bool, req: set<Name>, b: Block, fall: bool, state: set<Name>, flow: Flow,
                                     f: Name)
    requires FollowedBlock(b, fall) && (exact ==> ExactBlock(b, f))
    ensures Agrees(exact, flow, f !in state && BlockGoes(b, Some(f), WayFor(flow)),
                   Lacking(Paths(req, b, Onward(state)).exits, flow, f))
    decreases b, 0, 1
  {
    LackingOne(Exit(state, ToNext), flow, f);
    LackingOne(Exit(state, ToNext), ToNext, f);
    PathsLack(exact, req, b, fall, Onward(state), flow, f);
  }

  /** The exits of a statement list lack a field if some path to an exit of that kind
      leaves it unset, and where the analysis is exact only then: intersecting
      states where paths meet loses nothing. */
  lemma {:induction false} PathsLack(exact: bool, req: set<Name>, b: Block, fall: bool, exits: seq<Exit>, flow: Flow,
                                     f: Name)
    requires FollowedBlock(b, fall) && (exact ==> ExactBlock(b, f))
    ensures Agrees(exact, flow,
                   (flow != ToNext && Lacking(exits, flow, f))
                       || (Lacking(exits, ToNext, f) && BlockGoes(b, Some(f), WayFor(flow))),
                   Lacking(Paths(req, b, exits).exits, flow, f))
    decreases b, 0, 0
  {
    if b.Cons? {
      var v := StepEach(req, b.head, exits);
      StepEachLacks(exact, req, b.head, fall && b.tail.Nil?, exits, flow, f);
      StepEachLacks(exact, req, b.head, fall && b.tail.Nil?, exits, ToNext, f);
      LackingMerge(v.exits, flow, f);
      LackingMerge(v.exits, ToNext, f);
      PathsLack(exact, req, b.tail, fall, Merge(v.exits), flow, f);
    }
  }

  lemma {:induction false} StepEachLacks(exact: bool, req: set<Name>, s: Stmt, fall: bool, exits: seq<Exit>,
                                         flow: Flow, f: Name)
    requires Followed(s, fall) && (exact ==> Exact(s, f))
    ensures Agrees(exact, flow,
                   (flow != ToNext && Lacking(exits, flow, f))
                       || (Lacking(exits, ToNext, f) && Goes(s, NO_LABEL, Some(f), WayFor(flow))),
                   Lacking(StepEach(req, s, exits).exits, flow, f))
    decreases s, 4, |exits|
  {
    if exits == [] { LackingOne(Exit({}, ToNext), flow, f); LackingOne(Exit({}, ToNext), ToNext, f); }
    else {
      StepEachLacks(exact, req, s, fall, exits[1..], flow, f);
      FirstLacks(exits, flow, f);
      FirstLacks(exits, ToNext, f);
      LackingConcat(FirstStep(req, s, exits[0]).exits, StepEach(req, s, exits[1..]).exits, flow, f);
      if exits[0].flow != ToNext {
        LackingOne(exits[0], flow, f);
      } else {
        StepLacks(exact, req, s, fall, exits[0].state, flow, f);
      }
    }
  }

  function FirstStep(req: set<Name>, s: Stmt, e: Exit): Verdict {
    if e.flow != ToNext then Verdict([e], true) else Step(req, s, e.state)
  }

  lemma {:induction false} TryLacks(exact: bool, req: set<Name>, s: Stmt, state: set<Name>, flow: Flow, f: Name)
    requires s.Try? && Followed(s, false) && (exact ==> Exact(s, f))
    ensures Agrees(exact, flow, f !in state && Goes(s, NO_LABEL, Some(f), WayFor(flow)),
                   Lacking(Step(req, s, state).exits, flow, f))
    decreases s, 2, 1
  {
    assert Step(req, s, state) == TryPaths(req, s, state);
    assert Goes(s, NO_LABEL, Some(f), WayFor(flow)) == TryGoes(s, Some(f), WayFor(flow));
    PendingLacks(exact, req, s, state, flow, f);
    if s.finalizer.Func? { FinalizedLacks(exact, req, s, state, flow, f); }
  }

  lemma {:induction false} FinalizedLacks(exact: bool, req: set<Name>, s: Stmt, state: set<Name>, flow: Flow, f: Name)
    requires s.Try? && s.finalizer.Func? && Followed(s, false) && (exact ==> Exact(s, f))
    requires Agrees(exact, flow, f !in state && Pends(s, Some(f), WayFor(flow)),
                    Lacking(PendingExits(req, s, state), flow, f))
    ensures Agrees(exact, flow, f !in state && TryGoes(s, Some(f), WayFor(flow)),
                   Lacking(TryPaths(req, s, state).exits, flow, f))
    decreases s, 2, 0
  {
    assert exact ==> PathRuns.OpenClosure(s.finalizer, Some(f));
    var p := PendingExits(req, s, state);
    FinallyLacks(exact, req, s.finalizer.body, p, flow, f);
    if f !in state { PendingSomehow(req, s, state, f); } else if exact { PendingHolds(exact, req, s, state, f); }
    TryAgrees(exact, s, state, p, flow, f, Lacking(Finally(req, s.finalizer.body, p).exits, flow, f));
    LackingMerge(Finally(req, s.finalizer.body, p).exits, flow, f);
    assert TryPaths(req, s, state).exits == Merge(Finally(req, s.finalizer.body, p).exits);
  }

  /** What may follow the finalizer, told from the exits it runs from. */
  lemma TryAgrees(exact: bool, s: Stmt, state: set<Name>, pending: seq<Exit>, flow: Flow, f: Name, lacking: bool)
    requires s.Try? && s.finalizer.Func?
    requires exact ==> forall w :: BlockGoes(s.finalizer.body, Some(f), w) ==> w.Through? || w.ByThrow?
    requires Agrees(exact, flow, f !in state && Pends(s, Some(f), WayFor(flow)), Lacking(pending, flow, f))
    requires f !in state ==> LackingSomehow(pending, f)
    requires exact && f in state ==> !LackingSomehow(pending, f)
    requires var b := s.finalizer.body;
             Agrees(exact, flow,
                    || (BlockGoes(b, Some(f), Through) && Lacking(pending, flow, f))
                    || (flow != ToNext && BlockGoes(b, Some(f), WayFor(flow)) && LackingSomehow(pending, f)),
                    lacking)
    ensures Agrees(exact, flow, f !in state && TryGoes(s, Some(f), WayFor(flow)), lacking)
  {
    assert Pends(s, Some(f), ByThrow);
    assert BlockGoes(s.finalizer.body, Some(f), ByThrow) ==> TryGoes(s, Some(f), ByThrow) by {
      assert PendsUnder(s, Some(f), ByThrow);
    }
  }

  /** A field that is set stays set. */
  lemma {:induction false} PendingHolds(exact: bool, req: set<Name>, s: Stmt, state: set<Name>, f: Name)
    requires exact && s.Try? && Followed(s, false) && Exact(s, f) && f in state
    ensures !LackingSomehow(PendingExits(req, s, state), f)
    decreases s, 1, 1
  {
    PendingLacks(exact, req, s, state, ToNext, f);
    PendingLacks(exact, req, s, state, ToBreak, f);
    PendingLacks(exact, req, s, state, ToContinue, f);
    PendingLacks(exact, req, s, state, ToFallthrough, f);
    PendingLacks(exact, req, s, state, ToReturn, f);
    PendingLacks(exact, req, s, state, ToThrow, f);
  }

  lemma {:induction false} FinallyLacks(exact: bool, req: set<Name>, b: Block, pending: seq<Exit>, flow: Flow, f: Name)
    requires FollowedBlock(b, false) && (exact ==> ExactBlock(b, f))
    ensures Agrees(exact, flow,
              || (BlockGoes(b, Some(f), Through) && Lacking(pending, flow, f))
              || (flow != ToNext && BlockGoes(b, Some(f), WayFor(flow)) && LackingSomehow(pending, f)),
              Lacking(Finally(req, b, pending).exits, flow, f))
    decreases b, 2, |pending|
  {
    if pending == [] { LackingOne(Exit({}, ToNext), flow, f); }
    else {
      FirstLacks(pending, flow, f);
      SomehowFirst(pending, f);
      FinallyLacks(exact, req, b, pending[1..], flow, f);
      FinalizerLacks(exact, req, b, pending[0], flow, f);
      LackingConcat(Reroute(Paths(req, b, Onward(pending[0].state)).exits, AfterFinalizer(pending[0].flow)),
                    Finally(req, b, pending[1..]).exits, flow, f);
    }
  }

  /** One run of the finalizer. */
  lemma {:induction false} FinalizerLacks(exact: bool, req: set<Name>, b: Block, e: Exit, flow: Flow, f: Name)
    requires FollowedBlock(b, false) && (exact ==> ExactBlock(b, f))
    ensures Agrees(exact, flow,
              f !in e.state && ((BlockGoes(b, Some(f), Through) && e.flow == flow)
                                || (flow != ToNext && BlockGoes(b, Some(f), WayFor(flow)))),
              Lacking(Reroute(Paths(req, b, Onward(e.state)).exits, AfterFinalizer(e.flow)), flow, f))
    decreases b, 1, 0
  {
    FromState(exact, req, b, false, e.state, flow, f);
    FromState(exact, req, b, false, e.state, ToNext, f);
    LackingVia(Paths(req, b, Onward(e.state)).exits, AfterFinalizer(e.flow), flow, f);
  }
}
