/** The constructor check with its mutable state: one object per constructor whose
    flag records the first rejection while the traversal goes on, and maps of
    initialized fields that exits share, that assignments write to and that
    branches, loops and mergers copy (internal/compiler/construction_flow.go,
    internal/compiler/construction.go). The traversal computes the exits of
    `Construction`, on which soundness is proved: no write reaches a map that
    another exit still needs. */
module ConstructorCheck {
  import opened Options
  import opened Syntax
  import opened Facts
  import opened Spec = Construction

  /** The maps hold what the exits of the specification say. */
  ghost predicate Denotes(cells: seq<Cell<Flow>>, exits: seq<Exit>)
    reads States(cells)
  {
    |cells| == |exits| && forall i ::
        0 <= i < |cells| ==> cells[i].flow == exits[i].flow && cells[i].state.known == exits[i].state
  }

  lemma Joined(a: seq<Cell<Flow>>, x: seq<Exit>, b: seq<Cell<Flow>>, y: seq<Exit>)
    requires Denotes(a, x) && Denotes(b, y)
    ensures Denotes(a + b, x + y)
  {}

  // ----- one more exit in a loop over exits -----

  lemma {:induction false} RerouteMore(route: Route, a: seq<Exit>, e: Exit)
    ensures Reroute(a + [e], route) ==
              Reroute(a, route) + match Via(route, e.flow) case None => [] case Some(flow) => [e.(flow := flow)]
    decreases |a|
  {
    if a == [] { assert [e][1..] == [] && [] + [e] == [e]; }
    else {
      assert (a + [e])[1..] == a[1..] + [e];
      RerouteMore(route, a[1..], e);
    }
  }

  /** The lists the specification builds exit by exit. */
  function Fold(one: Exit -> Verdict, exits: seq<Exit>): Verdict
    decreases |exits|
  {
    if exits == [] then Verdict([], true)
    else
      var first, rest := one(exits[0]), Fold(one, exits[1..]);
      Verdict(first.exits + rest.exits, first.ok && rest.ok)
  }

  lemma {:induction false} FoldMore(one: Exit -> Verdict, a: seq<Exit>, e: Exit)
    ensures var before, last := Fold(one, a), one(e);
            Fold(one, a + [e]) == Verdict(before.exits + last.exits, before.ok && last.ok)
    decreases |a|
  {
    if a == [] { assert [e][1..] == [] && [] + [e] == [e]; }
    else {
      assert (a + [e])[1..] == a[1..] + [e];
      FoldMore(one, a[1..], e);
    }
  }

  function OneStep(req: set<Name>, s: Stmt, e: Exit): Verdict {
    if e.flow != ToNext then Verdict([e], true) else Step(req, s, e.state)
  }

  function OneEntry(req: set<Name>, s: Stmt, e: Exit): Verdict
    requires s.If? || s.For? || s.Switch?
  {
    if e.flow != ToNext then Verdict([e], true) else Entry(req, s, e.state)
  }

  function OnePending(req: set<Name>, b: Block, e: Exit): Verdict {
    var f := Paths(req, b, Onward(e.state));
    f.(exits := Reroute(f.exits, AfterFinalizer(e.flow)))
  }

  function Stepping(req: set<Name>, s: Stmt): Exit -> Verdict {
    (e: Exit) => OneStep(req, s, e)
  }

  function Entering(req: set<Name>, s: Stmt): Exit -> Verdict
    requires s.If? || s.For? || s.Switch?
  {
    (e: Exit) => OneEntry(req, s, e)
  }

  function Finishing(req: set<Name>, b: Block): Exit -> Verdict {
    (e: Exit) => OnePending(req, b, e)
  }

  lemma {:induction false} StepEachFold(req: set<Name>, s: Stmt, exits: seq<Exit>)
    ensures StepEach(req, s, exits) == Fold(Stepping(req, s), exits)
    decreases |exits|
  {
    if exits != [] { StepEachFold(req, s, exits[1..]); }
  }

  lemma {:induction false} EntriesFold(req: set<Name>, s: Stmt, exits: seq<Exit>)
    requires s.If? || s.For? || s.Switch?
    ensures Entries(req, s, exits) == Fold(Entering(req, s), exits)
    decreases |exits|
  {
    if exits != [] { EntriesFold(req, s, exits[1..]); }
  }

  lemma {:induction false} FinallyFold(req: set<Name>, b: Block, exits: seq<Exit>)
    ensures Finally(req, b, exits) == Fold(Finishing(req, b), exits)
    decreases |exits|
  {
    if exits != [] { FinallyFold(req, b, exits[1..]); }
  }

  lemma {:induction false} PostMore(req: set<Name>, post: Block, a: seq<Exit>, e: Exit)
    ensures PostOk(req, post, a + [e]) ==
            (PostOk(req, post, a) && (e.flow == ToNext || e.flow == ToContinue ==>
                                      Paths(req, post, Onward(e.state)).ok))
    decreases |a|
  {
    if a == [] { assert [e][1..] == [] && [] + [e] == [e]; }
    else {
      assert (a + [e])[1..] == a[1..] + [e];
      PostMore(req, post, a[1..], e);
    }
  }

  lemma Prefix(values: seq<Exit>, i: nat)
    requires i < |values|
    ensures values[..i + 1] == values[..i] + [values[i]]
  {}

  /** A clause body, from the switch's entry and what falls into it. */
  function OneClause(req: set<Name>, cs: Clauses, state: set<Name>, fallen: seq<Exit>): Verdict
    requires cs.Clause?
  {
    var b := Paths(req, cs.body, Merge(Onward(state) + fallen));
    b.(ok := ReadsOk(req, cs.guards, state) && b.ok)
  }

  lemma CasesFrom(req: set<Name>, cs: Clauses, state: set<Name>, fallen: seq<Exit>, output: seq<Exit>)
    requires cs.Clause?
    ensures var b := OneClause(req, cs, state, fallen);
            var all, rest := Cases(req, cs, state, fallen), Cases(req, cs.rest, state,
                                                                  Reroute(b.exits, IntoNextClause));
            && output + all.exits == output + Reroute(b.exits, OutOfClause) + rest.exits
            && all.ok == (b.ok && rest.ok)
  {}

  lemma RangeStep(req: set<Name>, s: Stmt, state: set<Name>)
    requires s.Range?
    ensures var v := Paths(req, s.body, Onward(state));
            Step(req, s, state)
            == Verdict(Merge(Onward(state) + Reroute(v.exits, OutOfRange)), v.ok && ReadOk(req, s.over, state))
  {}

  class Check {
    const required: set<Name>
    var rejected: bool

    constructor (required: set<Name>)
      ensures this.required == required && !rejected
    {
      this.required := required;
      rejected := false;
    }

    /** What one call records: it rejects exactly when the specification does. */
    twostate predicate Recorded(ok: bool)
      reads this
    {
      rejected == (old(rejected) || !ok)
    }

    method Read(e: Expr, state: Facts)
      modifies this`rejected
      ensures Recorded(ReadOk(required, e, state.known))
    {
      if exists f :: f in Fields(e) && f in required && f !in state.known {
        rejected := true;
      }
    }

    method ReadAll(es: seq<Expr>, state: Facts)
      modifies this`rejected
      ensures Recorded(ReadsOk(required, es, state.known))
    {
      for i := 0 to |es|
        invariant rejected == (old(rejected) || !ReadsOk(required, es[..i], state.known))
      {
        Read(es[i], state);
      }
      assert es[..|es|] == es;
    }

    /** One exit per flow; the first exit with a flow keeps its place. Every exit of
        the result has a map of its own. */
    method MergeExits(exits: seq<Cell<Flow>>, ghost values: seq<Exit>) returns (result: seq<Cell<Flow>>)
      requires Denotes(exits, values)
      ensures Denotes(result, Merge(values)) && Distinct(result) && From({}, result)
    {
      result := [];
      for n := 0 to |exits|
        invariant Denotes(result, Merge(values[..n])) && Distinct(result) && From({}, result)
      {
        assert values[..n + 1][..n] == values[..n];
        var i := 0;
        while i < |result| && result[i].flow != exits[n].flow
          invariant 0 <= i <= |result|
          invariant forall j :: 0 <= j < i ==> result[j].flow != exits[n].flow
        {
          i := i + 1;
        }
        ghost var merged := Merge(values[..n]);
        assert Position(merged, values[n].flow) == if i < |result| then i else -1;
        if i < |result| {
          var meet := new Facts(result[i].state.known * exits[n].state.known);
          result := result[i := Cell(meet, result[i].flow)];
        } else {
          var copy := exits[n].state.Clone();
          result := result + [Cell(copy, exits[n].flow)];
        }
        assert Denotes(result, MergeInto(merged, values[n]));
      }
      assert values[..|values|] == values;
    }

    method Follow(b: Block, entry: seq<Cell<Flow>>, ghost values: seq<Exit>) returns (exits: seq<Cell<Flow>>)
      requires Denotes(entry, values) && Distinct(entry)
      modifies this`rejected, States(entry)
      ensures Denotes(exits, Paths(required, b, values).exits) && Distinct(exits) && From(States(entry), exits)
      ensures Recorded(Paths(required, b, values).ok)
      decreases b, 0, 0
    {
      exits := entry;
      ghost var now := values;
      var list := b;
      ghost var ok := true;
      while list.Cons?
        invariant list == b || list < b
        invariant Denotes(exits, now) && Distinct(exits) && From(States(entry), exits)
        invariant Paths(required, list, now).exits == Paths(required, b, values).exits
        invariant (ok && Paths(required, list, now).ok) == Paths(required, b, values).ok
        invariant rejected == (old(rejected) || !ok)
        decreases list
      {
        ghost var v := StepEach(required, list.head, now);
        var each := StepAll(list.head, exits, now);
        ok := ok && v.ok;
        exits := MergeExits(each, v.exits);
        now := Merge(v.exits);
        list := list.tail;
      }
    }

    method StepAll(s: Stmt, exits: seq<Cell<Flow>>, ghost values: seq<Exit>) returns (next: seq<Cell<Flow>>)
      requires Denotes(exits, values) && Distinct(exits)
      modifies this`rejected, States(exits)
      ensures Denotes(next, StepEach(required, s, values).exits) && From(States(exits), next)
      ensures Recorded(StepEach(required, s, values).ok)
      decreases s, 6
    {
      next := [];
      ghost var one := Stepping(required, s);
      for i := 0 to |exits|
        invariant Denotes(next, Fold(one, values[..i]).exits) && From(States(exits), next) && Apart(next, exits, i)
        invariant forall j :: i <= j < |exits| ==> exits[j].state.known == values[j].state
        invariant rejected == (old(rejected) || !Fold(one, values[..i]).ok)
      {
        Prefix(values, i);
        FoldMore(one, values[..i], values[i]);
        assert exits[i].state !in States(next);
        var out := StepExit(s, exits[i]);
        assert Denotes(next, Fold(one, values[..i]).exits) && Apart(out, exits, i + 1);
        Joined(next, Fold(one, values[..i]).exits, out, one(values[i]).exits);
        next := next + out;
      }
      assert values[..|values|] == values;
      StepEachFold(required, s, values);
    }

    method StepExit(s: Stmt, exit: Cell<Flow>) returns (out: seq<Cell<Flow>>)
      modifies this`rejected, exit.state
      ensures Denotes(out, OneStep(required, s, old(Exit(exit.state.known, exit.flow))).exits)
              && From({exit.state}, out)
      ensures Recorded(OneStep(required, s, old(Exit(exit.state.known, exit.flow))).ok)
      ensures exit.flow != ToNext ==> exit.state.known == old(exit.state.known)
      decreases s, 5, 1
    {
      if exit.flow != ToNext { out := [exit]; } else { out := StepOne(s, exit.state); }
    }

    /** Writes to the map it is given. */
    method Assigned(lhs: seq<Lhs>, state: Facts)
      modifies this`rejected, state
      ensures Targets(required, lhs, old(state.known)).exits == Onward(state.known)
      ensures Recorded(Targets(required, lhs, old(state.known)).ok)
    {
      ghost var ok := true;
      var i := 0;
      while i < |lhs|
        invariant 0 <= i <= |lhs|
        invariant Targets(required, lhs[i..], state.known).exits == Targets(required, lhs, old(state.known)).exits
        invariant (ok && Targets(required, lhs[i..], state.known).ok) == Targets(required, lhs, old(state.known)).ok
        invariant rejected == (old(rejected) || !ok)
      {
        assert lhs[i..][0] == lhs[i] && lhs[i..][1..] == lhs[i + 1..];
        match lhs[i] {
          case Field(f) => state.Set(f);
          case Var(_) =>
          case At(e) =>
            Read(e, state);
            ok := ok && ReadOk(required, e, state.known);
        }
        i := i + 1;
      }
    }

    method StepOne(s: Stmt, state: Facts) returns (exits: seq<Cell<Flow>>)
      modifies this`rejected, state
      ensures Denotes(exits, Step(required, s, old(state.known)).exits) && From({state}, exits)
      ensures Recorded(Step(required, s, old(state.known)).ok)
      decreases s, 5, 0
    {
      if s.Scope? {
        exits := Follow(s.body, [Cell(state, ToNext)], Onward(state.known));
        assert States([Cell(state, ToNext)]) == {state};
      }
      else if s.If? || s.For? || s.Switch? { exits := FollowCompound(s, s.init, state); }
      else if s.Range? { exits := FollowRange(s, state); }
      else if s.Try? { exits := FollowTry(s, state); }
      else { exits := StepSimple(s, state); }
    }

    /** Statements without inner statements, and those the analysis does not enter. */
    method StepSimple(s: Stmt, state: Facts) returns (exits: seq<Cell<Flow>>)
      requires !s.Scope? && !s.If? && !s.For? && !s.Switch? && !s.Range? && !s.Try?
      modifies this`rejected, state
      ensures Denotes(exits, Step(required, s, old(state.known)).exits) && From({state}, exits)
      ensures Recorded(Step(required, s, old(state.known)).ok)
    {
      var flow := ToNext;
      if s.Assign? {
        ReadAll(s.rhs, state);
        Assigned(s.lhs, state);
      } else if s.Declare? {
        ReadAll(s.rhs, state);
      } else if s.Return? {
        ReadAll(s.es, state);
        flow := ToReturn;
      } else if s.Eval? || s.Panic? || s.Defer? || s.Parent? || s.Throw? {
        ReadOne(s.e, state);
        if s.Parent? { state.Set("@parent"); }
        if s.Throw? { flow := ToThrow; }
      } else if s.Break? || s.Continue? {
        if s.to != NO_LABEL { rejected := true; }
        flow := if s.Break? then ToBreak else ToContinue;
      } else if s.Fallthrough? {
        flow := ToFallthrough;
      } else {
        ReadMentions(s, state);
      }
      exits := [Cell(state, flow)];
    }

    method ReadMentions(s: Stmt, state: Facts)
      modifies this`rejected
      ensures Recorded(Mentions(s) * required <= state.known)
    {
      if exists f :: f in Mentions(s) && f in required && f !in state.known {
        rejected := true;
      }
    }

    method ReadOne(e: Expr, state: Facts)
      modifies this`rejected
      ensures Recorded(ReadsOk(required, [e], state.known))
    {
      assert [e][0] == e;
      Read(e, state);
    }

    method FollowCompound(s: Stmt, init: Block, state: Facts) returns (exits: seq<Cell<Flow>>)
      requires (s.If? && init == s.init) || (s.For? && init == s.init) || (s.Switch? && init == s.init)
      modifies this`rejected, state
      ensures Denotes(exits, Compound(required, s, init, old(state.known)).exits) && From({}, exits)
      ensures Recorded(Compound(required, s, init, old(state.known)).ok)
      decreases s, 4
    {
      ghost var i := Paths(required, init, Onward(state.known));
      var initial := Follow(init, [Cell(state, ToNext)], Onward(state.known));
      var output := FollowEntries(s, initial, i.exits);
      exits := MergeExits(output, Entries(required, s, i.exits).exits);
    }

    /** Nothing is written to the maps of the entries themselves. */
    method FollowEntries(s: Stmt, entries: seq<Cell<Flow>>, ghost values: seq<Exit>) returns (output: seq<Cell<Flow>>)
      requires (s.If? || s.For? || s.Switch?) && Denotes(entries, values)
      modifies this`rejected
      ensures Denotes(output, Entries(required, s, values).exits)
      ensures Recorded(Entries(required, s, values).ok)
      decreases s, 3
    {
      output := [];
      ghost var one := Entering(required, s);
      for i := 0 to |entries|
        invariant Denotes(output, Fold(one, values[..i]).exits)
        invariant rejected == (old(rejected) || !Fold(one, values[..i]).ok)
      {
        Prefix(values, i);
        FoldMore(one, values[..i], values[i]);
        var out := [entries[i]];
        if entries[i].flow == ToNext { out := FollowEntry(s, entries[i].state); }
        Joined(output, Fold(one, values[..i]).exits, out, one(values[i]).exits);
        output := output + out;
      }
      assert values[..|values|] == values;
      EntriesFold(required, s, values);
    }

    method FollowEntry(s: Stmt, state: Facts) returns (output: seq<Cell<Flow>>)
      requires s.If? || s.For? || s.Switch?
      modifies this`rejected
      ensures Denotes(output, Entry(required, s, state.known).exits)
      ensures Recorded(Entry(required, s, state.known).ok)
      decreases s, 2
    {
      if s.If? {
        Read(s.test, state);
        var thn := FollowCopy(s.thn, state);
        var els := FollowCopy(s.els, state);
        output := thn + els;
      } else if s.For? {
        output := FollowLoop(s, state);
      } else {
        output := FollowCases(s, state);
      }
    }

    /** A body followed on a copy of the state. */
    method FollowCopy(b: Block, state: Facts) returns (exits: seq<Cell<Flow>>)
      modifies this`rejected
      ensures Denotes(exits, Paths(required, b, Onward(state.known)).exits) && Distinct(exits) && From({}, exits)
      ensures Recorded(Paths(required, b, Onward(state.known)).ok)
      decreases b, 1, 0
    {
      var copy := state.Clone();
      exits := Follow(b, [Cell(copy, ToNext)], Onward(state.known));
    }

    method FollowLoop(s: Stmt, state: Facts) returns (output: seq<Cell<Flow>>)
      requires s.For?
      modifies this`rejected
      ensures Denotes(output, ForEntry(required, s, state.known).exits)
      ensures Recorded(ForEntry(required, s, state.known).ok)
      decreases s, 1
    {
      ReadAll(CondExprs(s.cond), state);
      var copy := state.Clone();
      var skipped := if Infinite(s.cond) then [] else [Cell(copy, ToNext)];
      var left := FollowBody(s, state);
      output := skipped + left;
    }

    method FollowBody(s: Stmt, state: Facts) returns (left: seq<Cell<Flow>>)
      requires s.For?
      modifies this`rejected
      ensures var v := Paths(required, s.body, Onward(state.known));
              && Denotes(left, Reroute(v.exits, OutOfLoop))
              && Recorded(v.ok && PostOk(required, s.post, v.exits))
      decreases s, 0
    {
      ghost var values := Paths(required, s.body, Onward(state.known)).exits;
      var exits := FollowCopy(s.body, state);
      left := FollowTurns(s.post, exits, values);
    }

    /** Exits that leave the loop; the post statement is followed from the others, in
        their own maps. */
    method FollowTurns(post: Block, exits: seq<Cell<Flow>>, ghost values: seq<Exit>) returns (output: seq<Cell<Flow>>)
      requires Denotes(exits, values) && Distinct(exits)
      modifies this`rejected, States(exits)
      ensures Denotes(output, Reroute(values, OutOfLoop)) && From(States(exits), output)
      ensures Recorded(PostOk(required, post, values))
      decreases post, 1
    {
      output := [];
      for i := 0 to |exits|
        invariant Denotes(output, Reroute(values[..i], OutOfLoop)) && From(States(exits), output)
                  && Apart(output, exits, i)
        invariant forall j :: i <= j < |exits| ==> exits[j].state.known == values[j].state
        invariant rejected == (old(rejected) || !PostOk(required, post, values[..i]))
      {
        Prefix(values, i);
        RerouteMore(OutOfLoop, values[..i], values[i]);
        PostMore(required, post, values[..i], values[i]);
        if exits[i].flow == ToBreak {
          output := output + [exits[i].(flow := ToNext)];
        } else if exits[i].flow == ToNext || exits[i].flow == ToContinue {
          FollowPost(post, exits[i].state);
        } else {
          output := output + [exits[i]];
        }
      }
      assert values[..|values|] == values;
    }

    method FollowPost(post: Block, state: Facts)
      modifies this`rejected, state
      ensures Recorded(Paths(required, post, Onward(old(state.known))).ok)
      decreases post, 0, 1
    {
      var _ := Follow(post, [Cell(state, ToNext)], Onward(state.known));
    }

    method FollowRange(s: Stmt, state: Facts) returns (exits: seq<Cell<Flow>>)
      requires s.Range?
      modifies this`rejected
      ensures Denotes(exits, Step(required, s, state.known).exits) && From({}, exits)
      ensures Recorded(Step(required, s, state.known).ok)
      decreases s, 3
    {
      ghost var known := state.known;
      RangeStep(required, s, known);
      Read(s.over, state);
      ghost var values := Paths(required, s.body, Onward(known)).exits;
      var body := FollowCopy(s.body, state);
      var left := Kept(body, values);
      exits := MergeExits([Cell(state, ToNext)] + left, Onward(known) + Reroute(values, OutOfRange));
    }

    method Kept(body: seq<Cell<Flow>>, ghost values: seq<Exit>) returns (output: seq<Cell<Flow>>)
      requires Denotes(body, values)
      ensures Denotes(output, Reroute(values, OutOfRange)) && States(output) <= States(body)
    {
      output := [];
      for i := 0 to |body|
        invariant Denotes(output, Reroute(values[..i], OutOfRange)) && States(output) <= States(body)
      {
        Prefix(values, i);
        RerouteMore(OutOfRange, values[..i], values[i]);
        if body[i].flow == ToReturn || body[i].flow == ToThrow { output := output + [body[i]]; }
      }
      assert values[..|values|] == values;
    }

    method FollowCases(s: Stmt, state: Facts) returns (output: seq<Cell<Flow>>)
      requires s.Switch?
      modifies this`rejected
      ensures Denotes(output, SwitchEntry(required, s, state.known).exits)
      ensures Recorded(SwitchEntry(required, s, state.known).ok)
      decreases s, 1
    {
      ReadAll(CondExprs(s.tag), state);
      var hasDefault;
      output, hasDefault := FollowClauses(s.clauses, state);
      if !hasDefault { output := output + [Cell(state, ToNext)]; }
    }

    method FollowClauses(clauses: Clauses, state: Facts) returns (output: seq<Cell<Flow>>, hasDefault: bool)
      modifies this`rejected
      ensures Denotes(output, Cases(required, clauses, state.known, []).exits) && hasDefault == HasDefault(clauses)
      ensures Recorded(Cases(required, clauses, state.known, []).ok)
      decreases clauses, 2
    {
      output := [];
      var fallen: seq<Cell<Flow>> := [];
      hasDefault := false;
      var cs := clauses;
      ghost var ok, sofar, fell := true, [], [];
      ghost var all := Cases(required, clauses, state.known, []);
      ghost var rest := all;
      while cs.Clause?
        invariant cs == clauses || cs < clauses
        invariant Denotes(output, sofar) && Denotes(fallen, fell)
        invariant rest == Cases(required, cs, state.known, fell)
        invariant sofar + rest.exits == all.exits && (ok && rest.ok) == all.ok
        invariant (hasDefault || HasDefault(cs)) == HasDefault(clauses)
        invariant rejected == (old(rejected) || !ok)
        decreases cs
      {
        if cs.isDefault { hasDefault := true; }
        ghost var v := OneClause(required, cs, state.known, fell);
        CasesFrom(required, cs, state.known, fell, sofar);
        var left, next := FollowClause(cs, state, fallen, fell);
        Joined(output, sofar, left, Reroute(v.exits, OutOfClause));
        output, fallen := output + left, next;
        sofar, fell, ok := sofar + Reroute(v.exits, OutOfClause), Reroute(v.exits, IntoNextClause), ok && v.ok;
        cs := cs.rest;
        rest := Cases(required, cs, state.known, fell);
      }
      assert rest == Verdict([], true) && sofar + [] == sofar;
    }

    method FollowClause(cs: Clauses, state: Facts, fallen: seq<Cell<Flow>>, ghost fell: seq<Exit>)
      returns (left: seq<Cell<Flow>>, next: seq<Cell<Flow>>)
      requires cs.Clause? && Denotes(fallen, fell)
      modifies this`rejected
      ensures var v := OneClause(required, cs, state.known, fell);
              Denotes(left, Reroute(v.exits, OutOfClause)) && Denotes(next, Reroute(v.exits, IntoNextClause))
                  && Recorded(v.ok)
      decreases cs, 1, 1
    {
      ReadAll(cs.guards, state);
      var body := FollowCase(cs.body, state, fallen, fell);
      left, next := Split(body, Paths(required, cs.body, Merge(Onward(state.known) + fell)).exits);
    }

    /** One clause, from a copy of the state and what falls into it. */
    method FollowCase(b: Block, state: Facts, fallen: seq<Cell<Flow>>, ghost fell: seq<Exit>)
      returns (exits: seq<Cell<Flow>>)
      requires Denotes(fallen, fell)
      modifies this`rejected
      ensures Denotes(exits, Paths(required, b, Merge(Onward(state.known) + fell)).exits) && Distinct(exits)
              && From({}, exits)
      ensures Recorded(Paths(required, b, Merge(Onward(state.known) + fell)).ok)
      decreases b, 1, 0
    {
      var copy := state.Clone();
      var incoming := MergeExits([Cell(copy, ToNext)] + fallen, Onward(state.known) + fell);
      exits := Follow(b, incoming, Merge(Onward(state.known) + fell));
    }

    /** A clause's exits: out of the switch, or into the next clause. */
    method Split(body: seq<Cell<Flow>>, ghost values: seq<Exit>)
      returns (output: seq<Cell<Flow>>, fallen: seq<Cell<Flow>>)
      requires Denotes(body, values)
      ensures Denotes(output, Reroute(values, OutOfClause)) && Denotes(fallen, Reroute(values, IntoNextClause))
    {
      output, fallen := [], [];
      for i := 0 to |body|
        invariant Denotes(output, Reroute(values[..i], OutOfClause))
                  && Denotes(fallen, Reroute(values[..i], IntoNextClause))
      {
        Prefix(values, i);
        RerouteMore(OutOfClause, values[..i], values[i]);
        RerouteMore(IntoNextClause, values[..i], values[i]);
        if body[i].flow == ToBreak {
          output := output + [body[i].(flow := ToNext)];
        } else if body[i].flow == ToFallthrough {
          fallen := fallen + [body[i].(flow := ToNext)];
        } else {
          output := output + [body[i]];
        }
      }
      assert values[..|values|] == values;
    }

    method FollowTry(s: Stmt, state: Facts) returns (exits: seq<Cell<Flow>>)
      requires s.Try?
      modifies this`rejected
      ensures Denotes(exits, TryPaths(required, s, state.known).exits) && From({}, exits)
      ensures Recorded(TryPaths(required, s, state.known).ok)
      decreases s, 3
    {
      ghost var values := Paths(required, s.body, Onward(state.known)).exits;
      exits := FollowCopy(s.body, state);
      if s.handler.Func? {
        ghost var handled := Paths(required, s.handler.body, Onward(state.known)).exits;
        var next := Caught(exits, values);
        var chain := FollowCopy(s.handler.body, state);
        exits := MergeExits(next + chain, Reroute(values, Uncaught) + handled);
        values := Merge(Reroute(values, Uncaught) + handled);
      } else if s.finalizer.Func? {
        var copy := state.Clone();
        exits := exits + [Cell(copy, ToThrow)];
        values := values + [Exit(state.known, ToThrow)];
      }
      if s.finalizer.Func? {
        var output := FollowFinally(s.finalizer.body, exits, values);
        exits := MergeExits(output, Finally(required, s.finalizer.body, values).exits);
      }
    }

    method Caught(exits: seq<Cell<Flow>>, ghost values: seq<Exit>) returns (next: seq<Cell<Flow>>)
      requires Denotes(exits, values)
      ensures Denotes(next, Reroute(values, Uncaught)) && States(next) <= States(exits)
    {
      next := [];
      for i := 0 to |exits|
        invariant Denotes(next, Reroute(values[..i], Uncaught)) && States(next) <= States(exits)
      {
        Prefix(values, i);
        RerouteMore(Uncaught, values[..i], values[i]);
        if exits[i].flow != ToThrow { next := next + [exits[i]]; }
      }
      assert values[..|values|] == values;
    }

    /** The finalizer runs on a copy of every pending state. */
    method FollowFinally(b: Block, pending: seq<Cell<Flow>>, ghost values: seq<Exit>) returns (output: seq<Cell<Flow>>)
      requires Denotes(pending, values)
      modifies this`rejected
      ensures Denotes(output, Finally(required, b, values).exits)
      ensures Recorded(Finally(required, b, values).ok)
      decreases b, 2
    {
      output := [];
      ghost var one := Finishing(required, b);
      for i := 0 to |pending|
        invariant Denotes(output, Fold(one, values[..i]).exits)
        invariant rejected == (old(rejected) || !Fold(one, values[..i]).ok)
      {
        Prefix(values, i);
        FoldMore(one, values[..i], values[i]);
        var out := FollowPending(b, pending[i]);
        Joined(output, Fold(one, values[..i]).exits, out, one(values[i]).exits);
        output := output + out;
      }
      assert values[..|values|] == values;
      FinallyFold(required, b, values);
    }

    method FollowPending(b: Block, pending: Cell<Flow>) returns (out: seq<Cell<Flow>>)
      modifies this`rejected
      ensures Denotes(out, Reroute(Paths(required, b, Onward(pending.state.known)).exits, AfterFinalizer(pending.flow)))
      ensures Recorded(Paths(required, b, Onward(pending.state.known)).ok)
      decreases b, 1, 1
    {
      var body := FollowCopy(b, pending.state);
      out := Ended(body, Paths(required, b, Onward(pending.state.known)).exits, pending.flow);
    }

    /** A finalizer that ends normally lets the pending flow go on. */
    method Ended(exits: seq<Cell<Flow>>, ghost values: seq<Exit>, pending: Flow) returns (output: seq<Cell<Flow>>)
      requires Denotes(exits, values)
      ensures Denotes(output, Reroute(values, AfterFinalizer(pending))) && States(output) <= States(exits)
    {
      output := [];
      for i := 0 to |exits|
        invariant Denotes(output, Reroute(values[..i], AfterFinalizer(pending))) && States(output) <= States(exits)
      {
        Prefix(values, i);
        RerouteMore(AfterFinalizer(pending), values[..i], values[i]);
        output := output + [exits[i].(flow := if exits[i].flow == ToNext then pending else exits[i].flow)];
      }
      assert values[..|values|] == values;
    }

    /** A whole constructor. */
    method Validate(body: Block) returns (accepted: bool)
      requires !rejected
      modifies this`rejected
      ensures accepted == Accepts(required, body)
    {
      var empty := new Facts({});
      ghost var values := Paths(required, body, Onward({})).exits;
      var exits := Follow(body, [Cell(empty, ToNext)], Onward({}));
      ghost var before := rejected;
      for i := 0 to |exits|
        invariant Denotes(exits, values)
        invariant rejected == (before || exists j ::
                               0 <= j < i && Completes(values[j].flow) && !(required <= values[j].state))
      {
        if Completes(exits[i].flow) && !(required <= exits[i].state.known) {
          rejected := true;
        }
      }
      accepted := !rejected;
    }
  }

  predicate Completes(flow: Flow) {
    flow == ToNext || flow == ToReturn
  }
}
