/** The named-result check with its mutable state: one object per function whose
    flag records the first failure while the traversal goes on, a counter of the Try
    callbacks being visited, and maps of assigned results that exits share, that
    assignments write to and that branches, loops, callbacks and mergers copy
    (internal/compiler/named_results.go). The traversal computes the exits of
    `NamedResults`, on which soundness is proved: no write reaches a map that
    another exit still needs. A finalizer alone writes to the exits it runs on. */
module ResultCheck {
  import opened Options
  import opened Syntax
  import opened Facts
  import opened Spec = NamedResults

  /** The maps hold what the exits of the specification say. */
  ghost predicate Denotes(cells: seq<Cell<Flow>>, exits: seq<Exit>)
    reads States(cells)
  {
    |cells| == |exits| && forall i :: 0 <= i < |cells| ==> Holds(cells[i], exits[i])
  }

  ghost predicate Holds(cell: Cell<Flow>, exit: Exit)
    reads cell.state
  {
    cell.flow == exit.flow && cell.state.known == exit.state
  }

  lemma Joined(a: seq<Cell<Flow>>, x: seq<Exit>, b: seq<Cell<Flow>>, y: seq<Exit>)
    requires Denotes(a, x) && Denotes(b, y)
    ensures Denotes(a + b, x + y)
  {}

  // ----- one more exit in a loop over exits -----

  lemma {:induction false} RerouteMore(route: Route, a: seq<Exit>, e: Exit)
    ensures Reroute(a + [e], route) ==
              Reroute(a, route) + match Via(route, e.flow) case None => [] case Some(flow) => [e.(flow := flow)]
    decreases |a|
  {
    if a == [] { assert [e][1..] == [] && [] + [e] == [e]; }
    else {
      assert (a + [e])[1..] == a[1..] + [e];
      RerouteMore(route, a[1..], e);
    }
  }

  /** The lists the specification builds exit by exit. */
  function Fold(one: Exit -> Verdict, exits: seq<Exit>): Verdict
    decreases |exits|
  {
    if exits == [] then Verdict([], true)
    else
      var first, rest := one(exits[0]), Fold(one, exits[1..]);
      Verdict(first.exits + rest.exits, first.ok && rest.ok)
  }

  lemma {:induction false} FoldMore(one: Exit -> Verdict, a: seq<Exit>, e: Exit)
    ensures var before, last := Fold(one, a), one(e);
            Fold(one, a + [e]) == Verdict(before.exits + last.exits, before.ok && last.ok)
    decreases |a|
  {
    if a == [] { assert [e][1..] == [] && [] + [e] == [e]; }
    else {
      assert (a + [e])[1..] == a[1..] + [e];
      FoldMore(one, a[1..], e);
    }
  }

  function OneStep(req: set<Name>, callback: bool, s: Stmt, e: Exit): Verdict {
    if e.flow != ToNext then Verdict([e], true) else Step(req, callback, s, e.state)
  }

  function OneEntry(req: set<Name>, callback: bool, s: Stmt, e: Exit): Verdict
    requires s.If? || s.For? || s.Switch?
  {
    if e.flow != ToNext && !s.Switch? then Verdict([e], true) else Entry(req, callback, s, e.state)
  }

  function Stepping(req: set<Name>, callback: bool, s: Stmt): Exit -> Verdict {
    (e: Exit) => OneStep(req, callback, s, e)
  }

  function Entering(req: set<Name>, callback: bool, s: Stmt): Exit -> Verdict
    requires s.If? || s.For? || s.Switch?
  {
    (e: Exit) => OneEntry(req, callback, s, e)
  }

  function Finishing(req: set<Name>, b: Block): Exit -> Verdict {
    (e: Exit) => CallbackPaths(req, b, e.state)
  }

  lemma {:induction false} StepEachFold(req: set<Name>, callback: bool, s: Stmt, exits: seq<Exit>)
    ensures StepEach(req, callback, s, exits) == Fold(Stepping(req, callback, s), exits)
    decreases |exits|
  {
    if exits != [] { StepEachFold(req, callback, s, exits[1..]); }
  }

  lemma {:induction false} EntriesFold(req: set<Name>, callback: bool, s: Stmt, exits: seq<Exit>)
    requires s.If? || s.For? || s.Switch?
    ensures Entries(req, callback, s, exits) == Fold(Entering(req, callback, s), exits)
    decreases |exits|
  {
    if exits != [] { EntriesFold(req, callback, s, exits[1..]); }
  }

  lemma {:induction false} FinallyFold(req: set<Name>, b: Block, exits: seq<Exit>)
    ensures Finally(req, b, exits) == Fold(Finishing(req, b), exits)
    decreases |exits|
  {
    if exits != [] { FinallyFold(req, b, exits[1..]); }
  }

  predicate Turns(flow: Flow) {
    flow == ToNext || flow == ToContinue(NO_LABEL)
  }

  lemma {:induction false} PostMore(req: set<Name>, callback: bool, post: Block, a: seq<Exit>, e: Exit)
    ensures PostOk(req, callback, post, a + [e]) ==
            (PostOk(req, callback, post, a) && (Turns(e.flow) ==> Paths(req, callback, post, Onward(e.state)).ok))
    decreases |a|
  {
    if a == [] { assert [e][1..] == [] && [] + [e] == [e]; }
    else {
      assert (a + [e])[1..] == a[1..] + [e];
      PostMore(req, callback, post, a[1..], e);
    }
  }

  lemma Prefix(values: seq<Exit>, i: nat)
    requires i < |values|
    ensures values[..i + 1] == values[..i] + [values[i]]
  {}

  /** A clause body, from the switch's entry and what falls into it. */
  function OneClause(req: set<Name>, callback: bool, cs: Clauses, state: set<Name>, fallen: seq<Exit>): Verdict
    requires cs.Clause?
  {
    var b := Paths(req, callback, cs.body, Merge(Onward(state) + fallen));
    b.(ok := ReadsOk(req, cs.guards, state) && b.ok)
  }

  lemma CasesFrom(req: set<Name>, callback: bool, cs: Clauses, state: set<Name>, fallen: seq<Exit>, output: seq<Exit>)
    requires cs.Clause?
    ensures var b := OneClause(req, callback, cs, state, fallen);
            var all := Cases(req, callback, cs, state, fallen);
            var rest := Cases(req, callback, cs.rest, state, Reroute(b.exits, IntoNextClause));
            && output + all.exits == output + Reroute(b.exits, OutOfClause) + rest.exits
            && all.ok == (b.ok && rest.ok)
  {}

  lemma RangeStep(req: set<Name>, callback: bool, s: Stmt, state: set<Name>)
    requires s.Range?
    ensures var v := Paths(req, callback, s.body, Onward(state));
            Step(req, callback, s, state)
            == Verdict(Merge(Onward(state) + Reroute(v.exits, OutOfRange)), v.ok && ReadOk(req, s.over, state))
  {}

  class Check {
    const required: set<Name>
    var failed: bool
    var callback: nat

    constructor (required: set<Name>)
      ensures this.required == required && !failed && callback == 0
    {
      this.required := required;
      failed, callback := false, 0;
    }

    /** What one call records: it fails exactly when the specification does. */
    twostate predicate Recorded(ok: bool)
      reads this
    {
      failed == (old(failed) || !ok) && callback == old(callback)
    }

    method Read(e: Expr, state: Facts)
      modifies this`failed
      ensures Recorded(ReadOk(required, e, state.known))
    {
      if exists x :: x in Vars(e) && x in required && x !in state.known {
        failed := true;
      }
    }

    method ReadAll(es: seq<Expr>, state: Facts)
      modifies this`failed
      ensures Recorded(ReadsOk(required, es, state.known))
    {
      for i := 0 to |es|
        invariant Recorded(ReadsOk(required, es[..i], state.known))
      {
        Read(es[i], state);
      }
      assert es[..|es|] == es;
    }

    /** One exit per flow and label; the first with a flow keeps its place. Every exit
        of the result has a map of its own. */
    method MergeExits(exits: seq<Cell<Flow>>, ghost values: seq<Exit>) returns (result: seq<Cell<Flow>>)
      requires Denotes(exits, values)
      ensures Denotes(result, Merge(values)) && Distinct(result) && From({}, result)
    {
      result := [];
      for n := 0 to |exits|
        invariant Denotes(result, Merge(values[..n])) && Distinct(result) && From({}, result)
      {
        assert values[..n + 1][..n] == values[..n];
        var i := 0;
        while i < |result| && result[i].flow != exits[n].flow
          invariant 0 <= i <= |result|
          invariant forall j :: 0 <= j < i ==> result[j].flow != exits[n].flow
        {
          i := i + 1;
        }
        ghost var merged := Merge(values[..n]);
        assert Position(merged, values[n].flow) == if i < |result| then i else -1;
        if i < |result| {
          var meet := new Facts(result[i].state.known * exits[n].state.known);
          result := result[i := Cell(meet, result[i].flow)];
        } else {
          var copy := exits[n].state.Clone();
          result := result + [Cell(copy, exits[n].flow)];
        }
        assert Denotes(result, MergeInto(merged, values[n]));
      }
      assert values[..|values|] == values;
    }

    method Follow(b: Block, entry: seq<Cell<Flow>>, ghost values: seq<Exit>) returns (exits: seq<Cell<Flow>>)
      requires Denotes(entry, values) && Distinct(entry)
      modifies this`failed, this`callback, States(entry)
      ensures Denotes(exits, Paths(required, old(callback) > 0, b, values).exits) && Distinct(exits)
              && From(States(entry), exits)
      ensures Recorded(Paths(required, old(callback) > 0, b, values).ok)
      decreases b, 0, 0
    {
      exits := entry;
      ghost var now, cb := values, callback > 0;
      var list := b;
      ghost var ok := true;
      while list.Cons?
        invariant list == b || list < b
        invariant Denotes(exits, now) && Distinct(exits) && From(States(entry), exits)
        invariant Paths(required, cb, list, now).exits == Paths(required, cb, b, values).exits
        invariant (ok && Paths(required, cb, list, now).ok) == Paths(required, cb, b, values).ok
        invariant Recorded(ok)
        decreases list
      {
        ghost var v := StepEach(required, cb, list.head, now);
        var each := StepAll(list.head, exits, now);
        ok := ok && v.ok;
        exits := MergeExits(each, v.exits);
        now := Merge(v.exits);
        list := list.tail;
      }
    }

    method StepAll(s: Stmt, exits: seq<Cell<Flow>>, ghost values: seq<Exit>) returns (next: seq<Cell<Flow>>)
      requires Denotes(exits, values) && Distinct(exits)
      modifies this`failed, this`callback, States(exits)
      ensures Denotes(next, StepEach(required, old(callback) > 0, s, values).exits) && From(States(exits), next)
      ensures Recorded(StepEach(required, old(callback) > 0, s, values).ok)
      decreases s, 6
    {
      next := [];
      ghost var one := Stepping(required, callback > 0, s);
      for i := 0 to |exits|
        invariant Denotes(next, Fold(one, values[..i]).exits) && From(States(exits), next) && Apart(next, exits, i)
        invariant forall j :: i <= j < |exits| ==> exits[j].state.known == values[j].state
        invariant Recorded(Fold(one, values[..i]).ok)
      {
        Prefix(values, i);
        FoldMore(one, values[..i], values[i]);
        assert exits[i].state !in States(next);
        var out := StepExit(s, exits[i]);
        assert Denotes(next, Fold(one, values[..i]).exits) && Apart(out, exits, i + 1);
        Joined(next, Fold(one, values[..i]).exits, out, one(values[i]).exits);
        next := next + out;
      }
      assert values[..|values|] == values;
      StepEachFold(required, callback > 0, s, values);
    }

    method StepExit(s: Stmt, exit: Cell<Flow>) returns (out: seq<Cell<Flow>>)
      modifies this`failed, this`callback, exit.state
      ensures Denotes(out, OneStep(required, old(callback) > 0, s, old(Exit(exit.state.known, exit.flow))).exits)
              && From({exit.state}, out)
      ensures Recorded(OneStep(required, old(callback) > 0, s, old(Exit(exit.state.known, exit.flow))).ok)
      ensures exit.flow != ToNext ==> exit.state.known == old(exit.state.known)
      decreases s, 5, 1
    {
      if exit.flow != ToNext { out := [exit]; } else { out := StepOne(s, exit.state); }
    }

    /** Writes to the map it is given. */
    method Assigned(lhs: seq<Lhs>, state: Facts)
      modifies this`failed, state
      ensures Targets(required, lhs, old(state.known)).exits == Onward(state.known)
      ensures Recorded(Targets(required, lhs, old(state.known)).ok)
    {
      ghost var ok := true;
      var i := 0;
      while i < |lhs|
        invariant 0 <= i <= |lhs|
        invariant Targets(required, lhs[i..], state.known).exits == Targets(required, lhs, old(state.known)).exits
        invariant (ok && Targets(required, lhs[i..], state.known).ok) == Targets(required, lhs, old(state.known)).ok
        invariant Recorded(ok)
      {
        assert lhs[i..][0] == lhs[i] && lhs[i..][1..] == lhs[i + 1..];
        match lhs[i] {
          case Var(x) => if x in required { state.Set(x); }
          case Field(_) =>
          case At(e) =>
            Read(e, state);
            ok := ok && ReadOk(required, e, state.known);
        }
        i := i + 1;
      }
    }

    /** The generated assignment of every slot. */
    method AssignSlots(state: Facts)
      modifies state
      ensures state.known == old(state.known) + required
    {
      var left := required;
      while left != {}
        invariant left <= required && state.known == old(state.known) + (required - left)
        decreases left
      {
        var x :| x in left;
        state.Set(x);
        left := left - {x};
      }
    }

    method StepOne(s: Stmt, state: Facts) returns (exits: seq<Cell<Flow>>)
      modifies this`failed, this`callback, state
      ensures Denotes(exits, Step(required, old(callback) > 0, s, old(state.known)).exits) && From({state}, exits)
      ensures Recorded(Step(required, old(callback) > 0, s, old(state.known)).ok)
      decreases s, 5, 0
    {
      if s.Scope? || s.Range? || s.RtTry? || s.Labeled? { exits := StepOther(s, state); }
      else if s.If? || s.For? || s.Switch? { exits := FollowCompound(s, s.init, state); }
      else if s.OnFlow? || s.OnAnyFlow? { exits := FollowOptional(s.thn, state); }
      else { exits := StepSimple(s, state); }
    }

    method StepOther(s: Stmt, state: Facts) returns (exits: seq<Cell<Flow>>)
      requires s.Scope? || s.Range? || s.RtTry? || s.Labeled?
      modifies this`failed, this`callback, state
      ensures Denotes(exits, Step(required, old(callback) > 0, s, old(state.known)).exits) && From({state}, exits)
      ensures Recorded(Step(required, old(callback) > 0, s, old(state.known)).ok)
      decreases s, 4
    {
      if s.Scope? {
        exits := Follow(s.body, [Cell(state, ToNext)], Onward(state.known));
        assert States([Cell(state, ToNext)]) == {state};
      }
      else if s.Range? { exits := FollowRange(s, state); }
      else if s.RtTry? { exits := FollowTry(s, state); }
      else { exits := FollowLabeled(s, state); }
    }

    /** Statements without inner statements. */
    method StepSimple(s: Stmt, state: Facts) returns (exits: seq<Cell<Flow>>)
      requires !s.Scope? && !s.If? && !s.For? && !s.Switch? && !s.OnFlow? && !s.OnAnyFlow? && !s.Range? && !s.RtTry? &&
      !s.Labeled?
      modifies this`failed, state
      ensures Denotes(exits, Step(required, callback > 0, s, old(state.known)).exits) && From({state}, exits)
      ensures Recorded(Step(required, callback > 0, s, old(state.known)).ok)
    {
      var flow, ends := ToNext, false;
      if s.Assign? {
        ReadAll(s.rhs, state);
        Assigned(s.lhs, state);
      } else if s.SetSlots? {
        ReadAll(s.es, state);
        AssignSlots(state);
      } else if s.Declare? {
        ReadAll(s.rhs, state);
      } else if s.Return? || s.ReturnSlots? {
        if s.Return? { ReadAll(s.es, state); }
        if s.ReturnSlots? || (s.es == [] && callback == 0) { NeedAll(state); }
        flow := ToReturn;
      } else if s.Eval? || s.Register? || s.Defer? || s.Throw? || s.Panic? {
        ReadOne(s.e, state);
        ends := s.Throw? || s.Panic?;
      } else if s.Break? {
        flow := ToBreak(s.to);
      } else if s.Continue? {
        flow := ToContinue(s.to);
      } else if s.Fallthrough? {
        flow := ToFallthrough;
      }
      exits := if ends then [] else [Cell(state, flow)];
    }

    /** A bare return hands every required result to the caller. */
    method NeedAll(state: Facts)
      modifies this`failed
      ensures Recorded(required <= state.known)
    {
      if exists x :: x in required && x !in state.known { failed := true; }
    }

    method ReadOne(e: Expr, state: Facts)
      modifies this`failed
      ensures Recorded(ReadsOk(required, [e], state.known))
    {
      assert [e][0] == e;
      Read(e, state);
    }

    /** A labelled statement, with nothing proved at its start. */
    method FollowLabeled(s: Stmt, state: Facts) returns (exits: seq<Cell<Flow>>)
      requires s.Labeled?
      modifies this`failed, this`callback
      ensures Denotes(exits, Step(required, old(callback) > 0, s, state.known).exits) && From({}, exits)
      ensures Recorded(Step(required, old(callback) > 0, s, state.known).ok)
      decreases s, 3
    {
      ghost var values := Step(required, callback > 0, s.stmt, {}).exits;
      var empty := new Facts({});
      var inner := StepOne(s.stmt, empty);
      var landed := Relabelled(inner, s.lab, values);
      exits := MergeExits(landed, Relabel(values, s.lab));
    }

    method Relabelled(exits: seq<Cell<Flow>>, l: Name, ghost values: seq<Exit>) returns (output: seq<Cell<Flow>>)
      requires Denotes(exits, values)
      ensures Denotes(output, Relabel(values, l))
    {
      output := exits;
      for i := 0 to |exits|
        invariant |output| == |exits| && forall j :: i <= j < |exits| ==> output[j] == exits[j]
        invariant forall j :: 0 <= j < |exits| ==> Holds(exits[j], values[j])
        invariant forall j :: 0 <= j < i ==> Holds(output[j], Landed(values[j], l))
      {
        if exits[i].flow == ToBreak(l) || exits[i].flow == ToContinue(l) {
          var empty := new Facts({});
          output := output[i := Cell(empty, ToNext)];
        }
      }
    }

    method FollowOptional(thn: Block, state: Facts) returns (exits: seq<Cell<Flow>>)
      modifies this`failed, this`callback
      ensures Denotes(exits, Optional(required, old(callback) > 0, thn, state.known).exits) && From({}, exits)
      ensures Recorded(Optional(required, old(callback) > 0, thn, state.known).ok)
      decreases thn, 1, 1
    {
      ghost var values := Paths(required, callback > 0, thn, Onward(state.known)).exits;
      var output := FollowCopy(thn, state);
      var copy := state.Clone();
      exits := MergeExits(output + [Cell(copy, ToNext)], values + Onward(state.known));
    }

    method FollowCompound(s: Stmt, init: Block, state: Facts) returns (exits: seq<Cell<Flow>>)
      requires (s.If? && init == s.init) || (s.For? && init == s.init) || (s.Switch? && init == s.init)
      modifies this`failed, this`callback, state
      ensures Denotes(exits, Compound(required, old(callback) > 0, s, init, old(state.known)).exits) && From({}, exits)
      ensures Recorded(Compound(required, old(callback) > 0, s, init, old(state.known)).ok)
      decreases s, 4
    {
      ghost var cb := callback > 0;
      ghost var i := Paths(required, cb, init, Onward(state.known));
      var initial := Follow(init, [Cell(state, ToNext)], Onward(state.known));
      var output := FollowEntries(s, initial, i.exits);
      exits := MergeExits(output, Entries(required, cb, s, i.exits).exits);
    }

    /** Nothing is written to the maps of the entries themselves. */
    method FollowEntries(s: Stmt, entries: seq<Cell<Flow>>, ghost values: seq<Exit>) returns (output: seq<Cell<Flow>>)
      requires (s.If? || s.For? || s.Switch?) && Denotes(entries, values)
      modifies this`failed, this`callback
      ensures Denotes(output, Entries(required, old(callback) > 0, s, values).exits)
      ensures Recorded(Entries(required, old(callback) > 0, s, values).ok)
      decreases s, 3
    {
      output := [];
      ghost var one := Entering(required, callback > 0, s);
      for i := 0 to |entries|
        invariant Denotes(output, Fold(one, values[..i]).exits)
        invariant Recorded(Fold(one, values[..i]).ok)
      {
        Prefix(values, i);
        FoldMore(one, values[..i], values[i]);
        var out := [entries[i]];
        if entries[i].flow == ToNext || s.Switch? { out := FollowEntry(s, entries[i].state); }
        Joined(output, Fold(one, values[..i]).exits, out, one(values[i]).exits);
        output := output + out;
      }
      assert values[..|values|] == values;
      EntriesFold(required, callback > 0, s, values);
    }

    method FollowEntry(s: Stmt, state: Facts) returns (output: seq<Cell<Flow>>)
      requires s.If? || s.For? || s.Switch?
      modifies this`failed, this`callback
      ensures Denotes(output, Entry(required, old(callback) > 0, s, state.known).exits)
      ensures Recorded(Entry(required, old(callback) > 0, s, state.known).ok)
      decreases s, 2
    {
      if s.If? {
        output := FollowBranches(s, state);
      } else if s.For? {
        output := FollowLoop(s, state);
      } else {
        output := FollowCases(s, state);
      }
    }

    method FollowBranches(s: Stmt, state: Facts) returns (output: seq<Cell<Flow>>)
      requires s.If?
      modifies this`failed, this`callback
      ensures Denotes(output, IfEntry(required, old(callback) > 0, s, state.known).exits)
      ensures Recorded(IfEntry(required, old(callback) > 0, s, state.known).ok)
      decreases s, 1
    {
      Read(s.test, state);
      var thn := FollowCopy(s.thn, state);
      var els := FollowCopy(s.els, state);
      output := thn + els;
    }

    /** A body followed on a copy of the state. */
    method FollowCopy(b: Block, state: Facts) returns (exits: seq<Cell<Flow>>)
      modifies this`failed, this`callback
      ensures Denotes(exits, Paths(required, old(callback) > 0, b, Onward(state.known)).exits) && Distinct(exits)
              && From({}, exits)
      ensures Recorded(Paths(required, old(callback) > 0, b, Onward(state.known)).ok)
      decreases b, 1, 0
    {
      var copy := state.Clone();
      exits := Follow(b, [Cell(copy, ToNext)], Onward(state.known));
    }

    method FollowLoop(s: Stmt, state: Facts) returns (output: seq<Cell<Flow>>)
      requires s.For?
      modifies this`failed, this`callback
      ensures Denotes(output, ForEntry(required, old(callback) > 0, s, state.known).exits)
      ensures Recorded(ForEntry(required, old(callback) > 0, s, state.known).ok)
      decreases s, 1
    {
      ReadAll(CondExprs(s.cond), state);
      var copy := state.Clone();
      var skipped := if s.cond.When? then [Cell(copy, ToNext)] else [];
      var left := FollowBody(s, state);
      output := skipped + left;
    }

    method FollowBody(s: Stmt, state: Facts) returns (left: seq<Cell<Flow>>)
      requires s.For?
      modifies this`failed, this`callback
      ensures var v := Paths(required, old(callback) > 0, s.body, Onward(state.known));
              && Denotes(left, Reroute(v.exits, OutOfLoop))
              && Recorded(v.ok && PostOk(required, old(callback) > 0, s.post, v.exits))
      decreases s, 0
    {
      ghost var values := Paths(required, callback > 0, s.body, Onward(state.known)).exits;
      var exits := FollowCopy(s.body, state);
      left := FollowTurns(s.post, exits, values);
    }

    /** Exits that leave the loop; the post statement is followed from the others, in
        their own maps. */
    method FollowTurns(post: Block, exits: seq<Cell<Flow>>, ghost values: seq<Exit>) returns (output: seq<Cell<Flow>>)
      requires Denotes(exits, values) && Distinct(exits)
      modifies this`failed, this`callback, States(exits)
      ensures Denotes(output, Reroute(values, OutOfLoop)) && From(States(exits), output)
      ensures Recorded(PostOk(required, old(callback) > 0, post, values))
      decreases post, 1
    {
      output := [];
      ghost var cb := callback > 0;
      for i := 0 to |exits|
        invariant Denotes(output, Reroute(values[..i], OutOfLoop)) && From(States(exits), output)
                  && Apart(output, exits, i)
        invariant forall j :: i <= j < |exits| ==> exits[j].state.known == values[j].state
        invariant Recorded(PostOk(required, cb, post, values[..i]))
      {
        Prefix(values, i);
        RerouteMore(OutOfLoop, values[..i], values[i]);
        PostMore(required, cb, post, values[..i], values[i]);
        if exits[i].flow == ToBreak(NO_LABEL) {
          output := output + [exits[i].(flow := ToNext)];
        } else if Turns(exits[i].flow) {
          FollowPost(post, exits[i].state);
        } else {
          output := output + [exits[i]];
        }
      }
      assert values[..|values|] == values;
    }

    method FollowPost(post: Block, state: Facts)
      modifies this`failed, this`callback, state
      ensures Recorded(Paths(required, old(callback) > 0, post, Onward(old(state.known))).ok)
      decreases post, 0, 1
    {
      var _ := Follow(post, [Cell(state, ToNext)], Onward(state.known));
    }

    method FollowRange(s: Stmt, state: Facts) returns (exits: seq<Cell<Flow>>)
      requires s.Range?
      modifies this`failed, this`callback
      ensures Denotes(exits, Step(required, old(callback) > 0, s, state.known).exits) && From({}, exits)
      ensures Recorded(Step(required, old(callback) > 0, s, state.known).ok)
      decreases s, 3
    {
      ghost var cb, known := callback > 0, state.known;
      RangeStep(required, cb, s, known);
      Read(s.over, state);
      ghost var values := Paths(required, cb, s.body, Onward(known)).exits;
      var body := FollowCopy(s.body, state);
      var left := Kept(body, values);
      exits := MergeExits([Cell(state, ToNext)] + left, Onward(known) + Reroute(values, OutOfRange));
    }

    method Kept(body: seq<Cell<Flow>>, ghost values: seq<Exit>) returns (output: seq<Cell<Flow>>)
      requires Denotes(body, values)
      ensures Denotes(output, Reroute(values, OutOfRange)) && States(output) <= States(body)
    {
      output := [];
      for i := 0 to |body|
        invariant Denotes(output, Reroute(values[..i], OutOfRange)) && States(output) <= States(body)
      {
        Prefix(values, i);
        RerouteMore(OutOfRange, values[..i], values[i]);
        if !Turns(body[i].flow) && body[i].flow != ToBreak(NO_LABEL) { output := output + [body[i]]; }
      }
      assert values[..|values|] == values;
    }

    method FollowCases(s: Stmt, state: Facts) returns (output: seq<Cell<Flow>>)
      requires s.Switch?
      modifies this`failed, this`callback
      ensures Denotes(output, SwitchEntry(required, old(callback) > 0, s, state.known).exits)
      ensures Recorded(SwitchEntry(required, old(callback) > 0, s, state.known).ok)
      decreases s, 1
    {
      ghost var values := Cases(required, callback > 0, s.clauses, state.known, []).exits;
      ReadAll(CondExprs(s.tag), state);
      var out, hasDefault := FollowClauses(s.clauses, state);
      if !hasDefault {
        out := out + [Cell(state, ToNext)];
        values := values + Onward(state.known);
      }
      output := MergeExits(out, values);
    }

    method FollowClauses(clauses: Clauses, state: Facts) returns (output: seq<Cell<Flow>>, hasDefault: bool)
      modifies this`failed, this`callback
      ensures Denotes(output, Cases(required, old(callback) > 0, clauses, state.known, []).exits)
              && hasDefault == HasDefault(clauses)
      ensures Recorded(Cases(required, old(callback) > 0, clauses, state.known, []).ok)
      decreases clauses, 2
    {
      output := [];
      var fallen: seq<Cell<Flow>> := [];
      hasDefault := false;
      var cs := clauses;
      ghost var cb := callback > 0;
      ghost var ok, sofar, fell := true, [], [];
      ghost var all := Cases(required, cb, clauses, state.known, []);
      ghost var rest := all;
      while cs.Clause?
        invariant cs == clauses || cs < clauses
        invariant Denotes(output, sofar) && Denotes(fallen, fell)
        invariant rest == Cases(required, cb, cs, state.known, fell)
        invariant sofar + rest.exits == all.exits && (ok && rest.ok) == all.ok
        invariant (hasDefault || HasDefault(cs)) == HasDefault(clauses)
        invariant Recorded(ok)
        decreases cs
      {
        if cs.isDefault { hasDefault := true; }
        ghost var v := OneClause(required, cb, cs, state.known, fell);
        CasesFrom(required, cb, cs, state.known, fell, sofar);
        var left, next := FollowClause(cs, state, fallen, fell);
        Joined(output, sofar, left, Reroute(v.exits, OutOfClause));
        output, fallen := output + left, next;
        sofar, fell, ok := sofar + Reroute(v.exits, OutOfClause), Reroute(v.exits, IntoNextClause), ok && v.ok;
        cs := cs.rest;
        rest := Cases(required, cb, cs, state.known, fell);
      }
      assert rest == Verdict([], true) && sofar + [] == sofar;
    }

    method FollowClause(cs: Clauses, state: Facts, fallen: seq<Cell<Flow>>, ghost fell: seq<Exit>)
      returns (left: seq<Cell<Flow>>, next: seq<Cell<Flow>>)
      requires cs.Clause? && Denotes(fallen, fell)
      modifies this`failed, this`callback
      ensures var v := OneClause(required, old(callback) > 0, cs, state.known, fell);
              && Denotes(left, Reroute(v.exits, OutOfClause)) && Denotes(next, Reroute(v.exits, IntoNextClause))
              && Recorded(v.ok)
      decreases cs, 1, 1
    {
      ghost var values := Paths(required, callback > 0, cs.body, Merge(Onward(state.known) + fell)).exits;
      ReadAll(cs.guards, state);
      var body := FollowCase(cs.body, state, fallen, fell);
      left, next := Split(body, values);
    }

    /** One clause, from a copy of the state and what falls into it. */
    method FollowCase(b: Block, state: Facts, fallen: seq<Cell<Flow>>, ghost fell: seq<Exit>)
      returns (exits: seq<Cell<Flow>>)
      requires Denotes(fallen, fell)
      modifies this`failed, this`callback
      ensures Denotes(exits, Paths(required, old(callback) > 0, b, Merge(Onward(state.known) + fell)).exits)
      ensures Distinct(exits) && From({}, exits)
      ensures Recorded(Paths(required, old(callback) > 0, b, Merge(Onward(state.known) + fell)).ok)
      decreases b, 1, 0
    {
      var copy := state.Clone();
      var incoming := MergeExits([Cell(copy, ToNext)] + fallen, Onward(state.known) + fell);
      exits := Follow(b, incoming, Merge(Onward(state.known) + fell));
    }

    /** A clause's exits: out of the switch, or into the next clause. */
    method Split(body: seq<Cell<Flow>>, ghost values: seq<Exit>)
      returns (output: seq<Cell<Flow>>, fallen: seq<Cell<Flow>>)
      requires Denotes(body, values)
      ensures Denotes(output, Reroute(values, OutOfClause)) && Denotes(fallen, Reroute(values, IntoNextClause))
    {
      output, fallen := [], [];
      for i := 0 to |body|
        invariant Denotes(output, Reroute(values[..i], OutOfClause))
                  && Denotes(fallen, Reroute(values[..i], IntoNextClause))
      {
        Prefix(values, i);
        RerouteMore(OutOfClause, values[..i], values[i]);
        RerouteMore(IntoNextClause, values[..i], values[i]);
        if body[i].flow == ToBreak(NO_LABEL) {
          output := output + [body[i].(flow := ToNext)];
        } else if body[i].flow == ToFallthrough {
          fallen := fallen + [body[i].(flow := ToNext)];
        } else {
          output := output + [body[i]];
        }
      }
      assert values[..|values|] == values;
    }

    /** A function literal passed to Try, followed in the map it is given. */
    method FollowCallback(b: Block, state: Facts) returns (exits: seq<Cell<Flow>>)
      modifies this`failed, this`callback, state
      ensures Denotes(exits, CallbackPaths(required, b, old(state.known)).exits) && Distinct(exits) && From({}, exits)
      ensures Recorded(CallbackPaths(required, b, old(state.known)).ok)
      decreases b, 1, 0
    {
      ghost var values := Paths(required, true, b, Onward(state.known)).exits;
      callback := callback + 1;
      var body := Follow(b, [Cell(state, ToNext)], Onward(state.known));
      callback := callback - 1;
      var ended := Returned(body, values);
      exits := MergeExits(ended, Reroute(values, OutOfCallback));
    }

    /** Returning from a callback is ending it. */
    method Returned(exits: seq<Cell<Flow>>, ghost values: seq<Exit>) returns (output: seq<Cell<Flow>>)
      requires Denotes(exits, values)
      ensures Denotes(output, Reroute(values, OutOfCallback)) && States(output) <= States(exits)
    {
      output := [];
      for i := 0 to |exits|
        invariant Denotes(output, Reroute(values[..i], OutOfCallback)) && States(output) <= States(exits)
      {
        Prefix(values, i);
        RerouteMore(OutOfCallback, values[..i], values[i]);
        output := output + [exits[i].(flow := if exits[i].flow == ToReturn then ToNext else exits[i].flow)];
      }
      assert values[..|values|] == values;
    }

    method CallbackCopy(b: Block, state: Facts) returns (exits: seq<Cell<Flow>>)
      modifies this`failed, this`callback
      ensures Denotes(exits, CallbackPaths(required, b, state.known).exits) && Distinct(exits) && From({}, exits)
      ensures Recorded(CallbackPaths(required, b, state.known).ok)
      decreases b, 1, 1
    {
      var copy := state.Clone();
      exits := FollowCallback(b, copy);
    }

    method FollowTry(s: Stmt, state: Facts) returns (exits: seq<Cell<Flow>>)
      requires s.RtTry?
      modifies this`failed, this`callback
      ensures Denotes(exits, TryPaths(required, s, state.known).exits) && From({}, exits)
      ensures Recorded(TryPaths(required, s, state.known).ok)
      decreases s, 3
    {
      ghost var values := CallbackPaths(required, s.body, state.known).exits;
      exits := CallbackCopy(s.body, state);
      if s.handler.Func? {
        var chain := CallbackCopy(s.handler.body, state);
        values := values + CallbackPaths(required, s.handler.body, state.known).exits;
        exits := MergeExits(exits + chain, values);
        values := Merge(values);
      }
      if s.finalizer.Func? {
        var _ := CallbackCopy(s.finalizer.body, state);
        var output := FollowFinally(s.finalizer.body, exits, values);
        exits := MergeExits(output, Finally(required, s.finalizer.body, values).exits);
      }
    }

    /** The finalizer runs in the map of every pending exit. */
    method FollowFinally(b: Block, pending: seq<Cell<Flow>>, ghost values: seq<Exit>) returns (output: seq<Cell<Flow>>)
      requires Denotes(pending, values) && Distinct(pending)
      modifies this`failed, this`callback, States(pending)
      ensures Denotes(output, Finally(required, b, values).exits)
      ensures Recorded(Finally(required, b, values).ok)
      decreases b, 2
    {
      output := [];
      ghost var one := Finishing(required, b);
      for i := 0 to |pending|
        invariant Denotes(output, Fold(one, values[..i]).exits) && From({}, output)
        invariant forall j :: i <= j < |pending| ==> pending[j].state.known == values[j].state
        invariant Recorded(Fold(one, values[..i]).ok)
      {
        Prefix(values, i);
        FoldMore(one, values[..i], values[i]);
        assert pending[i].state !in States(output);
        var out := FollowCallback(b, pending[i].state);
        assert Denotes(output, Fold(one, values[..i]).exits);
        Joined(output, Fold(one, values[..i]).exits, out, one(values[i]).exits);
        output := output + out;
      }
      assert values[..|values|] == values;
      FinallyFold(required, b, values);
    }

    /** A whole function. */
    method Validate(body: Block) returns (accepted: bool)
      requires !failed && callback == 0
      modifies this`failed, this`callback
      ensures accepted == Accepts(required, body)
    {
      var empty := new Facts({});
      var _ := Follow(body, [Cell(empty, ToNext)], Onward({}));
      accepted := !failed;
    }
  }
}
