/** What the constructor check says of every body, told by the paths it sees: a `panic`
    is passed like a call, a labelled statement is passed at once, a `range` clause sets
    nothing, a constant test may fail, whatever stands in a `try` may throw, and a
    finalizer replaces what was pending by the way it is left
    (internal/compiler/construction_flow.go, internal/compiler/construction.go). */
module ConstructorView {
  import opened Options
  import opened Syntax
  import opened Machine
  import opened ProgramPaths
  import opened Construction
  import opened ConstructorPaths
  import opened ConstructorReads

  // ----- the paths it sees -----

  /** Some path it sees through the statement leaves the field unset and ends this way. */
  ghost predicate Ends(s: Stmt, f: Name, flow: Flow)
    decreases s, 3
  {
    match s
    case Assign(lhs, _) => flow == ToNext && Field(f) !in lhs
    case Parent(_) => flow == ToNext && f != "@parent"
    case Throw(_) => flow == ToThrow
    case Return(_) => flow == ToReturn
    case Break(_) => flow == ToBreak
    case Continue(_) => flow == ToContinue
    case Fallthrough => flow == ToFallthrough
    case Scope(body) => BlockEnds(body, f, flow)
    case If(init, _, _, _) => HeaderEnds(s, init, f, flow)
    case For(init, _, _, _) => HeaderEnds(s, init, f, flow)
    case Switch(init, _, _) => HeaderEnds(s, init, f, flow)
    case Range(_, _, _, body) => flow == ToNext || ((flow == ToReturn || flow == ToThrow) && BlockEnds(body, f, flow))
    case Try(_, _, _) => TryEnds(s, f, flow)
    case _ => flow == ToNext
  }

  ghost predicate HeaderEnds(s: Stmt, init: Block, f: Name, flow: Flow)
    requires (s.If? && init == s.init) || (s.For? && init == s.init) || (s.Switch? && init == s.init)
    decreases s, 1
  {
    (flow != ToNext && BlockEnds(init, f, flow)) || (BlockEnds(init, f, ToNext) && EntryEnds(s, f, flow))
  }

  ghost predicate EntryEnds(s: Stmt, f: Name, flow: Flow)
    requires s.If? || s.For? || s.Switch?
    decreases s, 0
  {
    if s.If? then BlockEnds(s.thn, f, flow) || BlockEnds(s.els, f, flow)
    else if s.For? then
      if flow == ToNext then !Infinite(s.cond) || BlockEnds(s.body, f, ToBreak)
      else flow != ToBreak && flow != ToContinue && BlockEnds(s.body, f, flow)
    else (flow == ToNext && !HasDefault(s.clauses)) || ClausesEnd(s.clauses, f, flow)
  }

  ghost predicate ClausesEnd(cs: Clauses, f: Name, flow: Flow)
    decreases cs
  {
    match cs
    case NoClauses => false
    case Clause(_, _, body, rest) =>
      || (flow == ToNext && BlockEnds(body, f, ToBreak))
      || (flow != ToBreak && flow != ToFallthrough && BlockEnds(body, f, flow))
      || ClausesEnd(rest, f, flow)
  }

  /** How body and handler leave things to the finalizer. */
  ghost predicate Pending(s: Stmt, f: Name, flow: Flow)
    requires s.Try?
    decreases s, 0
  {
    if s.handler.Func? then (flow != ToThrow && BlockEnds(s.body, f, flow)) || BlockEnds(s.handler.body, f, flow)
    else BlockEnds(s.body, f, flow) || (flow == ToThrow && s.finalizer.Func?)
  }

  ghost predicate EndsSomehow(s: Stmt, f: Name)
    requires s.Try?
    decreases s, 1
  {
    exists p :: Pending(s, f, p)
  }

  ghost predicate TryEnds(s: Stmt, f: Name, flow: Flow)
    requires s.Try?
    decreases s, 2
  {
    if s.finalizer.NoClosure? then Pending(s, f, flow)
    else
      || (BlockEnds(s.finalizer.body, f, ToNext) && Pending(s, f, flow))
      || (flow != ToNext && BlockEnds(s.finalizer.body, f, flow) && EndsSomehow(s, f))
  }

  ghost predicate BlockEnds(b: Block, f: Name, flow: Flow)
    decreases b, 0
  {
    if b.Nil? then flow == ToNext
    else (flow != ToNext && Ends(b.head, f, flow)) || (Ends(b.head, f, ToNext) && BlockEnds(b.tail, f, flow))
  }

  // ----- the reads it sees -----

  /** Some path it sees reads the field before setting it. Of a statement it does not
      look into it takes every mention for a read. */
  ghost predicate Uses(s: Stmt, f: Name)
    decreases s, 2
  {
    match s
    case Assign(lhs, rhs) => TargetsRead(lhs, f) || Mentioned(rhs, f)
    case Eval(e) => f in Fields(e)
    case Parent(e) => f in Fields(e)
    case Throw(e) => f in Fields(e)
    case Panic(e) => f in Fields(e)
    case Defer(e) => f in Fields(e)
    case Declare(_, rhs) => Mentioned(rhs, f)
    case Return(es) => Mentioned(es, f)
    case Scope(body) => BlockUses(body, f)
    case If(init, _, _, _) => BlockUses(init, f) || (BlockEnds(init, f, ToNext) && EntryUses(s, f))
    case For(init, _, _, _) => BlockUses(init, f) || (BlockEnds(init, f, ToNext) && EntryUses(s, f))
    case Switch(init, _, _) => BlockUses(init, f) || (BlockEnds(init, f, ToNext) && EntryUses(s, f))
    case Range(_, _, over, body) => f in Fields(over) || BlockUses(body, f)
    case Labeled(_, inner) => Spoken(Within(inner), f)
    case Try(body, handler, finalizer) =>
      || BlockUses(body, f) || (handler.Func? && BlockUses(handler.body, f))
      || (finalizer.Func? && EndsSomehow(s, f) && BlockUses(finalizer.body, f))
    case _ => false
  }

  ghost predicate EntryUses(s: Stmt, f: Name)
    requires s.If? || s.For? || s.Switch?
    decreases s, 1
  {
    if s.If? then f in Fields(s.test) || BlockUses(s.thn, f) || BlockUses(s.els, f)
    else if s.For? then
      || CondMentioned(s.cond, f) || BlockUses(s.body, f)
      || ((BlockEnds(s.body, f, ToNext) || BlockEnds(s.body, f, ToContinue)) && BlockUses(s.post, f))
    else CondMentioned(s.tag, f) || ClausesUse(s.clauses, f)
  }

  ghost predicate ClausesUse(cs: Clauses, f: Name)
    decreases cs
  {
    cs.Clause? && (Mentioned(cs.guards, f) || BlockUses(cs.body, f) || ClausesUse(cs.rest, f))
  }

  ghost predicate BlockUses(b: Block, f: Name)
    decreases b, 0
  {
    b.Cons? && (Uses(b.head, f) || (Ends(b.head, f, ToNext) && BlockUses(b.tail, f)))
  }

  // ----- labelled statements -----

  /** The statement and every statement in it. */
  function Within(s: Stmt): set<Stmt>
    decreases s
  {
    {s} + match s
    case Scope(body) => BlockWithin(body)
    case If(init, _, thn, els) => BlockWithin(init) + BlockWithin(thn) + BlockWithin(els)
    case For(init, _, post, body) => BlockWithin(init) + BlockWithin(post) + BlockWithin(body)
    case Range(_, _, _, body) => BlockWithin(body)
    case Switch(init, _, clauses) => BlockWithin(init) + ClausesWithin(clauses)
    case Labeled(_, inner) => Within(inner)
    case Try(body, handler, finalizer) => BlockWithin(body) + ClosureWithin(handler) + ClosureWithin(finalizer)
    case _ => {}
  }

  function BlockWithin(b: Block): set<Stmt>
    decreases b
  {
    if b.Nil? then {} else Within(b.head) + BlockWithin(b.tail)
  }

  function ClausesWithin(cs: Clauses): set<Stmt>
    decreases cs
  {
    if cs.NoClauses? then {} else BlockWithin(cs.body) + ClausesWithin(cs.rest)
  }

  function ClosureWithin(c: Closure): set<Stmt>
    decreases c
  {
    if c.NoClosure? then {} else BlockWithin(c.body)
  }

  /** An expression or target of the statement itself names the field. */
  predicate Speaks(s: Stmt, f: Name) {
    match s
    case Eval(e) => f in Fields(e)
    case Parent(e) => f in Fields(e)
    case Throw(e) => f in Fields(e)
    case Panic(e) => f in Fields(e)
    case Defer(e) => f in Fields(e)
    case Assign(lhs, rhs) => Field(f) in lhs || Mentioned(Operands(lhs), f) || Mentioned(rhs, f)
    case Declare(_, rhs) => Mentioned(rhs, f)
    case Return(es) => Mentioned(es, f)
    case If(_, test, _, _) => f in Fields(test)
    case For(_, cond, _, _) => CondMentioned(cond, f)
    case Range(_, lhs, over, _) => Field(f) in lhs || Mentioned(Operands(lhs), f) || f in Fields(over)
    case Switch(_, tag, clauses) => CondMentioned(tag, f) || GuardsSpeak(clauses, f)
    case _ => false
  }

  predicate GuardsSpeak(cs: Clauses, f: Name) {
    cs.Clause? && (Mentioned(cs.guards, f) || GuardsSpeak(cs.rest, f))
  }

  ghost predicate Spoken(parts: set<Stmt>, f: Name) {
    exists part :: part in parts && Speaks(part, f)
  }

  lemma SpokenBoth(a: set<Stmt>, b: set<Stmt>, f: Name)
    ensures Spoken(a + b, f) <==> Spoken(a, f) || Spoken(b, f)
  {
    if Spoken(a, f) {
      var part :| part in a && Speaks(part, f);
      assert part in a + b;
    }
    if Spoken(b, f) {
      var part :| part in b && Speaks(part, f);
      assert part in a + b;
    }
  }

  lemma SpokenSelf(s: Stmt, inner: set<Stmt>, f: Name)
    ensures Spoken({s} + inner, f) <==> Speaks(s, f) || Spoken(inner, f)
  {
    SpokenBoth({s}, inner, f);
    assert s in {s};
  }

  lemma SpokenThree(a: set<Stmt>, b: set<Stmt>, c: set<Stmt>, f: Name)
    ensures Spoken(a + b + c, f) <==> Spoken(a, f) || Spoken(b, f) || Spoken(c, f)
  {
    SpokenBoth(a + b, c, f);
    SpokenBoth(a, b, f);
  }

  lemma ListMentioned(es: seq<Expr>, f: Name)
    ensures f in ExprsMention(es) <==> Mentioned(es, f)
  {}

  lemma {:induction false} TargetsMentioned(lhs: seq<Lhs>, f: Name)
    ensures f in LhsMentions(lhs) <==> Field(f) in lhs || Mentioned(Operands(lhs), f)
    decreases |lhs|
  {
    if lhs != [] {
      var head := if lhs[0].At? then [lhs[0].e] else [];
      TargetsMentioned(lhs[1..], f);
      MentionedEither(head, Operands(lhs[1..]), f);
      assert Operands(lhs) == head + Operands(lhs[1..]);
      assert lhs == [lhs[0]] + lhs[1..];
      assert f in LhsMentions(lhs) <==>
          lhs[0] == Field(f) || (lhs[0].At? && f in Fields(lhs[0].e)) || f in LhsMentions(lhs[1..]);
      if lhs[0].At? && f in Fields(lhs[0].e) { assert head[0] in head; }
    }
  }

  /** What counts as mentioned in a statement: what some statement in it names. */
  lemma {:induction false} MentionsExact(s: Stmt, f: Name)
    ensures f in Mentions(s) <==> Spoken(Within(s), f)
    decreases s
  {
    if s.If? {
      SpokenSelf(s, BlockWithin(s.init) + BlockWithin(s.thn) + BlockWithin(s.els), f);
      SpokenThree(BlockWithin(s.init), BlockWithin(s.thn), BlockWithin(s.els), f);
      BlockMentionsExact(s.init, f);
      BlockMentionsExact(s.thn, f);
      BlockMentionsExact(s.els, f);
    }
    else if s.For? {
      SpokenSelf(s, BlockWithin(s.init) + BlockWithin(s.post) + BlockWithin(s.body), f);
      SpokenThree(BlockWithin(s.init), BlockWithin(s.post), BlockWithin(s.body), f);
      BlockMentionsExact(s.init, f);
      BlockMentionsExact(s.post, f);
      BlockMentionsExact(s.body, f);
    }
    else if s.Switch? {
      SpokenSelf(s, BlockWithin(s.init) + ClausesWithin(s.clauses), f);
      SpokenBoth(BlockWithin(s.init), ClausesWithin(s.clauses), f);
      BlockMentionsExact(s.init, f);
      ClausesMentionExact(s.clauses, f);
    }
    else if s.Try? {
      SpokenSelf(s, BlockWithin(s.body) + ClosureWithin(s.handler) + ClosureWithin(s.finalizer), f);
      SpokenThree(BlockWithin(s.body), ClosureWithin(s.handler), ClosureWithin(s.finalizer), f);
      BlockMentionsExact(s.body, f);
      if s.handler.Func? { BlockMentionsExact(s.handler.body, f); }
      if s.finalizer.Func? { BlockMentionsExact(s.finalizer.body, f); }
    }
    else if s.Scope? {
      SpokenSelf(s, BlockWithin(s.body), f);
      BlockMentionsExact(s.body, f);
    }
    else if s.Range? {
      SpokenSelf(s, BlockWithin(s.body), f);
      TargetsMentioned(s.lhs, f);
      BlockMentionsExact(s.body, f);
    }
    else if s.Labeled? {
      SpokenSelf(s, Within(s.stmt), f);
      MentionsExact(s.stmt, f);
    }
    else {
      SpokenSelf(s, {}, f);
      if s.Assign? {
        TargetsMentioned(s.lhs, f);
        ListMentioned(s.rhs, f);
      }
      else if s.Declare? { ListMentioned(s.rhs, f); }
      else if s.Return? { ListMentioned(s.es, f); }
    }
  }

  lemma {:induction false} BlockMentionsExact(b: Block, f: Name)
    ensures f in BlockMentions(b) <==> Spoken(BlockWithin(b), f)
    decreases b
  {
    if b.Cons? {
      MentionsExact(b.head, f);
      BlockMentionsExact(b.tail, f);
      SpokenBoth(Within(b.head), BlockWithin(b.tail), f);
    }
  }

  lemma {:induction false} ClausesMentionExact(cs: Clauses, f: Name)
    ensures f in ClausesMention(cs) <==> GuardsSpeak(cs, f) || Spoken(ClausesWithin(cs), f)
    decreases cs
  {
    if cs.Clause? {
      ListMentioned(cs.guards, f);
      BlockMentionsExact(cs.body, f);
      ClausesMentionExact(cs.rest, f);
      SpokenBoth(BlockWithin(cs.body), ClausesWithin(cs.rest), f);
    }
  }

  // ----- the exits that lack a field -----

  lemma {:induction false} StepEnds(req: set<Name>, s: Stmt, state: set<Name>, flow: Flow, f: Name)
    ensures Lacking(Step(req, s, state).exits, flow, f) <==> f !in state && Ends(s, f, flow)
    decreases s, 5, 0
  {
    if s.Assign? { TargetsLack(req, s.lhs, state, flow, f); }
    else if s.Scope? { StateEnds(req, s.body, state, flow, f); }
    else if s.If? || s.For? || s.Switch? { CompoundEnds(req, s, state, flow, f); }
    else if s.Range? {
      var exits := Paths(req, s.body, Onward(state)).exits;
      StateEnds(req, s.body, state, flow, f);
      LackingOne(Exit(state, ToNext), flow, f);
      LackingVia(exits, OutOfRange, flow, f);
      LackingConcat(Onward(state), Reroute(exits, OutOfRange), flow, f);
      LackingMerge(Onward(state) + Reroute(exits, OutOfRange), flow, f);
    }
    else if s.Try? { TryExits(req, s, state, flow, f); }
    else { OneExit(req, s, state, flow, f); }
  }

  lemma OneExit(req: set<Name>, s: Stmt, state: set<Name>, flow: Flow, f: Name)
    requires !s.Assign? && !s.Scope? && !s.If? && !s.For? && !s.Switch? && !s.Range? && !s.Try?
    ensures Lacking(Step(req, s, state).exits, flow, f) <==> f !in state && Ends(s, f, flow)
  {
    var exit := if s.Parent? then Exit(state + {"@parent"}, ToNext)
                else if s.Throw? then Exit(state, ToThrow)
                else if s.Return? then Exit(state, ToReturn)
                else if s.Break? then Exit(state, ToBreak)
                else if s.Continue? then Exit(state, ToContinue)
                else if s.Fallthrough? then Exit(state, ToFallthrough)
                else Exit(state, ToNext);
    assert Step(req, s, state).exits == [exit];
    LackingOne(exit, flow, f);
  }

  lemma {:induction false} CompoundEnds(req: set<Name>, s: Stmt, state: set<Name>, flow: Flow, f: Name)
    requires s.If? || s.For? || s.Switch?
    ensures Lacking(Step(req, s, state).exits, flow, f) <==> f !in state && Ends(s, f, flow)
    decreases s, 4, 0
  {
    var entries := Paths(req, s.init, Onward(state)).exits;
    assert Step(req, s, state) == Compound(req, s, s.init, state);
    StateEnds(req, s.init, state, flow, f);
    StateEnds(req, s.init, state, ToNext, f);
    EntriesEnd(req, s, entries, flow, f);
    LackingMerge(Entries(req, s, entries).exits, flow, f);
  }

  lemma {:induction false} EntriesEnd(req: set<Name>, s: Stmt, entries: seq<Exit>, flow: Flow, f: Name)
    requires s.If? || s.For? || s.Switch?
    ensures Lacking(Entries(req, s, entries).exits, flow, f) <==>
            (flow != ToNext && Lacking(entries, flow, f)) || (Lacking(entries, ToNext, f) && EntryEnds(s, f, flow))
    decreases s, 3, |entries|
  {
    if entries == [] {
      LackingOne(Exit({}, ToNext), flow, f);
      LackingOne(Exit({}, ToNext), ToNext, f);
    } else {
      var e := entries[0];
      var v := if e.flow != ToNext then Verdict([e], true) else Entry(req, s, e.state);
      EntriesEnd(req, s, entries[1..], flow, f);
      FirstLacks(entries, flow, f);
      FirstLacks(entries, ToNext, f);
      LackingConcat(v.exits, Entries(req, s, entries[1..]).exits, flow, f);
      if e.flow != ToNext { LackingOne(e, flow, f); } else { EntryExits(req, s, e.state, flow, f); }
    }
  }

  lemma {:induction false} EntryExits(req: set<Name>, s: Stmt, state: set<Name>, flow: Flow, f: Name)
    requires s.If? || s.For? || s.Switch?
    ensures Lacking(Entry(req, s, state).exits, flow, f) <==> f !in state && EntryEnds(s, f, flow)
    decreases s, 2, 0
  {
    LackingOne(Exit(state, ToNext), flow, f);
    if s.If? {
      StateEnds(req, s.thn, state, flow, f);
      StateEnds(req, s.els, state, flow, f);
      LackingConcat(Paths(req, s.thn, Onward(state)).exits, Paths(req, s.els, Onward(state)).exits, flow, f);
      assert Entry(req, s, state) == IfEntry(req, s, state);
    }
    else if s.For? {
      var exits := Paths(req, s.body, Onward(state)).exits;
      var skipped := if Infinite(s.cond) then [] else Onward(state);
      StateEnds(req, s.body, state, flow, f);
      StateEnds(req, s.body, state, ToBreak, f);
      LackingVia(exits, OutOfLoop, flow, f);
      LackingConcat(skipped, Reroute(exits, OutOfLoop), flow, f);
      assert Entry(req, s, state) == ForEntry(req, s, state);
    }
    else {
      var exits := Cases(req, s.clauses, state, []).exits;
      LackingOne(Exit(state, ToNext), ToNext, f);
      CasesEnd(req, s.clauses, state, [], flow, f);
      LackingConcat(exits, Onward(state), flow, f);
      assert Entry(req, s, state) == SwitchEntry(req, s, state);
    }
  }

  /** What falls into a clause has been entered like the clause itself. */
  ghost predicate Fallen(state: set<Name>, fallen: seq<Exit>, f: Name) {
    && (forall k :: 0 <= k < |fallen| ==> fallen[k].flow == ToNext)
    && (Lacking(fallen, ToNext, f) ==> f !in state)
  }

  lemma {:induction false} CasesEnd(req: set<Name>, cs: Clauses, state: set<Name>, fallen: seq<Exit>, flow: Flow,
                                    f: Name)
    requires Fallen(state, fallen, f)
    ensures Lacking(Cases(req, cs, state, fallen).exits, flow, f) <==> f !in state && ClausesEnd(cs, f, flow)
    decreases cs, 2, 0
  {
    if cs.NoClauses? { LackingOne(Exit({}, ToNext), flow, f); }
    else {
      var exits := Paths(req, cs.body, Merge(Onward(state) + fallen)).exits;
      ClauseExits(req, cs.body, state, fallen, flow, f);
      ClauseExits(req, cs.body, state, fallen, ToBreak, f);
      LeftClause(exits, flow, f);
      Falls(req, cs.body, state, fallen, f);
      CasesEnd(req, cs.rest, state, Reroute(exits, IntoNextClause), flow, f);
      LackingConcat(Reroute(exits, OutOfClause), Cases(req, cs.rest, state, Reroute(exits, IntoNextClause)).exits,
                    flow, f);
    }
  }

  lemma LeftClause(exits: seq<Exit>, flow: Flow, f: Name)
    ensures Lacking(Reroute(exits, OutOfClause), flow, f) <==>
            || (flow == ToNext && Lacking(exits, ToBreak, f))
            || (flow != ToBreak && flow != ToFallthrough && Lacking(exits, flow, f))
  {
    LackingVia(exits, OutOfClause, flow, f);
  }

  lemma {:induction false} Falls(req: set<Name>, b: Block, state: set<Name>, fallen: seq<Exit>, f: Name)
    requires Fallen(state, fallen, f)
    ensures Fallen(state, Reroute(Paths(req, b, Merge(Onward(state) + fallen)).exits, IntoNextClause), f)
    decreases b, 3, 0
  {
    var exits := Paths(req, b, Merge(Onward(state) + fallen)).exits;
    ClauseExits(req, b, state, fallen, ToFallthrough, f);
    LackingVia(exits, IntoNextClause, ToNext, f);
    RerouteFlows(exits, IntoNextClause);
  }

  lemma {:induction false} ClauseExits(req: set<Name>, b: Block, state: set<Name>, fallen: seq<Exit>, flow: Flow,
                                       f: Name)
    requires Fallen(state, fallen, f)
    ensures Lacking(Paths(req, b, Merge(Onward(state) + fallen)).exits, flow, f) <==>
            f !in state && BlockEnds(b, f, flow)
    decreases b, 2, 0
  {
    EntryLacking(state, fallen, f);
    LackingConcat(Onward(state), fallen, flow, f);
    LackingOne(Exit(state, ToNext), flow, f);
    LackingMerge(Onward(state) + fallen, flow, f);
    ListEnds(req, b, Merge(Onward(state) + fallen), flow, f);
  }

  // ----- try -----

  lemma {:induction false} PendingExact(req: set<Name>, s: Stmt, state: set<Name>, flow: Flow, f: Name)
    requires s.Try?
    ensures Lacking(PendingExits(req, s, state), flow, f) <==> f !in state && Pending(s, f, flow)
    decreases s, 2, 0
  {
    var body := Paths(req, s.body, Onward(state)).exits;
    StateEnds(req, s.body, state, flow, f);
    if s.handler.Func? {
      var handled := Paths(req, s.handler.body, Onward(state)).exits;
      StateEnds(req, s.handler.body, state, flow, f);
      Handled(body, handled, flow, f);
    } else {
      LackingOne(Exit(state, ToThrow), flow, f);
      LackingConcat(body, [Exit(state, ToThrow)], flow, f);
    }
  }

  lemma Handled(body: seq<Exit>, handled: seq<Exit>, flow: Flow, f: Name)
    ensures Lacking(Merge(Reroute(body, Uncaught) + handled), flow, f) <==>
            (flow != ToThrow && Lacking(body, flow, f)) || Lacking(handled, flow, f)
  {
    LackingVia(body, Uncaught, flow, f);
    LackingConcat(Reroute(body, Uncaught), handled, flow, f);
    LackingMerge(Reroute(body, Uncaught) + handled, flow, f);
  }

  lemma {:induction false} TryExits(req: set<Name>, s: Stmt, state: set<Name>, flow: Flow, f: Name)
    requires s.Try?
    ensures Lacking(Step(req, s, state).exits, flow, f) <==> f !in state && TryEnds(s, f, flow)
    decreases s, 4, 0
  {
    var pending := PendingExits(req, s, state);
    assert Step(req, s, state) == TryPaths(req, s, state);
    forall p ensures Lacking(pending, p, f) <==> f !in state && Pending(s, f, p) { PendingExact(req, s, state, p, f); }
    if s.finalizer.Func? {
      FinallyEnds(req, s.finalizer.body, pending, flow, f);
      LackingMerge(Finally(req, s.finalizer.body, pending).exits, flow, f);
      SomehowPending(s, state, pending, f);
      assert Step(req, s, state).exits == Merge(Finally(req, s.finalizer.body, pending).exits);
    }
  }

  lemma SomehowPending(s: Stmt, state: set<Name>, pending: seq<Exit>, f: Name)
    requires s.Try? && forall p :: Lacking(pending, p, f) <==> f !in state && Pending(s, f, p)
    ensures LackingSomehow(pending, f) <==> f !in state && EndsSomehow(s, f)
  {
    Somehow(pending, f);
    if LackingSomehow(pending, f) {
      var p :| Lacking(pending, p, f);
      assert Pending(s, f, p);
    } else {
      forall p ensures !(f !in state && Pending(s, f, p)) { assert !Lacking(pending, p, f); }
    }
  }

  lemma Somehow(exits: seq<Exit>, f: Name)
    ensures LackingSomehow(exits, f) <==> exists p :: Lacking(exits, p, f)
  {
    if p :| Lacking(exits, p, f) {
      assert p == ToNext || p == ToBreak || p == ToContinue || p == ToFallthrough || p == ToReturn || p == ToThrow;
    }
  }

  lemma NoneLacking(f: Name)
    ensures !LackingSomehow([], f) && forall flow :: !Lacking([], flow, f)
  {}

  lemma Finished(exits: seq<Exit>, pending: Flow, flow: Flow, f: Name)
    ensures Lacking(Reroute(exits, AfterFinalizer(pending)), flow, f) <==>
            (flow == pending && Lacking(exits, ToNext, f)) || (flow != ToNext && Lacking(exits, flow, f))
  {
    LackingVia(exits, AfterFinalizer(pending), flow, f);
  }

  lemma {:induction false} FinallyEnds(req: set<Name>, b: Block, pending: seq<Exit>, flow: Flow, f: Name)
    ensures Lacking(Finally(req, b, pending).exits, flow, f) <==>
            || (BlockEnds(b, f, ToNext) && Lacking(pending, flow, f))
            || (flow != ToNext && BlockEnds(b, f, flow) && LackingSomehow(pending, f))
    decreases b, 2, |pending|
  {
    if pending == [] { NoneLacking(f); }
    else {
      var e, rest := pending[0], Finally(req, b, pending[1..]).exits;
      var exits := Paths(req, b, Onward(e.state)).exits;
      StateEnds(req, b, e.state, flow, f);
      StateEnds(req, b, e.state, ToNext, f);
      FinallyEnds(req, b, pending[1..], flow, f);
      Finished(exits, e.flow, flow, f);
      LackingConcat(Reroute(exits, AfterFinalizer(e.flow)), rest, flow, f);
      FirstLacks(pending, flow, f);
      SomehowFirst(pending, f);
    }
  }

  // ----- lists -----

  lemma {:induction false} StateEnds(req: set<Name>, b: Block, state: set<Name>, flow: Flow, f: Name)
    ensures Lacking(Paths(req, b, Onward(state)).exits, flow, f) <==> f !in state && BlockEnds(b, f, flow)
    decreases b, 1, 0
  {
    LackingOne(Exit(state, ToNext), flow, f);
    LackingOne(Exit(state, ToNext), ToNext, f);
    ListEnds(req, b, Onward(state), flow, f);
  }

  /** The exits of any statement list lack a field exactly if some path the check sees
      ends that way with the field unset. */
  lemma {:induction false} ListEnds(req: set<Name>, b: Block, exits: seq<Exit>, flow: Flow, f: Name)
    ensures Lacking(Paths(req, b, exits).exits, flow, f) <==>
            (flow != ToNext && Lacking(exits, flow, f)) || (Lacking(exits, ToNext, f) && BlockEnds(b, f, flow))
    decreases b, 0, 0
  {
    if b.Cons? {
      var next := StepEach(req, b.head, exits).exits;
      EachEnds(req, b.head, exits, flow, f);
      EachEnds(req, b.head, exits, ToNext, f);
      LackingMerge(next, flow, f);
      LackingMerge(next, ToNext, f);
      ListEnds(req, b.tail, Merge(next), flow, f);
    }
  }

  lemma {:induction false} EachEnds(req: set<Name>, s: Stmt, exits: seq<Exit>, flow: Flow, f: Name)
    ensures Lacking(StepEach(req, s, exits).exits, flow, f) <==>
            (flow != ToNext && Lacking(exits, flow, f)) || (Lacking(exits, ToNext, f) && Ends(s, f, flow))
    decreases s, 6, |exits|
  {
    if exits == [] {
      LackingOne(Exit({}, ToNext), flow, f);
      LackingOne(Exit({}, ToNext), ToNext, f);
    } else {
      var e := exits[0];
      EachEnds(req, s, exits[1..], flow, f);
      FirstLacks(exits, flow, f);
      FirstLacks(exits, ToNext, f);
      LackingConcat(FirstStep(req, s, e).exits, StepEach(req, s, exits[1..]).exits, flow, f);
      if e.flow != ToNext { LackingOne(e, flow, f); } else { StepEnds(req, s, e.state, flow, f); }
    }
  }

  // ----- what is rejected -----

  /** Labelled jumps stand inside labelled statements, as Go demands. */
  predicate Inner(s: Stmt)
    decreases s
  {
    match s
    case Break(to) => to == NO_LABEL
    case Continue(to) => to == NO_LABEL
    case Scope(body) => InnerBlock(body)
    case If(init, _, thn, els) => InnerBlock(init) && InnerBlock(thn) && InnerBlock(els)
    case For(init, _, post, body) => InnerBlock(init) && InnerBlock(post) && InnerBlock(body)
    case Range(_, _, _, body) => InnerBlock(body)
    case Switch(init, _, clauses) => InnerBlock(init) && InnerClauses(clauses)
    case Try(body, handler, finalizer) =>
      && InnerBlock(body) && (handler.Func? ==> InnerBlock(handler.body))
      && (finalizer.Func? ==> InnerBlock(finalizer.body))
    case _ => true
  }

  predicate InnerBlock(b: Block)
    decreases b
  {
    b.Cons? ==> Inner(b.head) && InnerBlock(b.tail)
  }

  predicate InnerClauses(cs: Clauses)
    decreases cs
  {
    cs.Clause? ==> InnerBlock(cs.body) && InnerClauses(cs.rest)
  }

  /** No required field that is unset is used. */
  ghost predicate Spared(req: set<Name>, s: Stmt, state: set<Name>) {
    forall f :: f in req && f !in state ==> !Uses(s, f)
  }

  ghost predicate SparedBlock(req: set<Name>, b: Block, state: set<Name>) {
    forall f :: f in req && f !in state ==> !BlockUses(b, f)
  }

  ghost predicate SparedEntry(req: set<Name>, s: Stmt, state: set<Name>)
    requires s.If? || s.For? || s.Switch?
  {
    forall f :: f in req && f !in state ==> !EntryUses(s, f)
  }

  ghost predicate SparedClauses(req: set<Name>, cs: Clauses, state: set<Name>) {
    forall f :: f in req && f !in state ==> !ClausesUse(cs, f)
  }

  /** The same from a list of exits. */
  ghost predicate SparedList(req: set<Name>, b: Block, exits: seq<Exit>) {
    forall f :: f in req && Lacking(exits, ToNext, f) ==> !BlockUses(b, f)
  }

  ghost predicate SparedEach(req: set<Name>, s: Stmt, exits: seq<Exit>) {
    forall f :: f in req && Lacking(exits, ToNext, f) ==> !Uses(s, f)
  }

  lemma {:induction false} StepUses(req: set<Name>, s: Stmt, state: set<Name>)
    requires Inner(s)
    ensures Step(req, s, state).ok <==> Spared(req, s, state)
    decreases s, 5, 0
  {
    if s.Scope? { StateUses(req, s.body, state); }
    else if s.If? || s.For? || s.Switch? { CompoundUses(req, s, state); }
    else if s.Range? {
      OneReadsLate(req, s.over, state);
      StateUses(req, s.body, state);
    }
    else if s.Try? { TryUses(req, s, state); }
    else if s.Labeled? {
      forall f ensures f in Mentions(s) <==> Spoken(Within(s.stmt), f) { MentionsExact(s.stmt, f); }
    }
    else { SimpleUses(req, s, state); }
  }

  lemma SimpleUses(req: set<Name>, s: Stmt, state: set<Name>)
    requires Inner(s) && !s.Scope? && !s.If? && !s.For? && !s.Switch? && !s.Range? && !s.Try? && !s.Labeled?
    ensures Step(req, s, state).ok <==> Spared(req, s, state)
  {
    if s.Assign? {
      TargetsReadLate(req, s.lhs, state);
      ReadsLate(req, s.rhs, state);
    }
    else if s.Declare? { ReadsLate(req, s.rhs, state); }
    else if s.Return? { ReadsLate(req, s.es, state); }
    else if s.Eval? || s.Parent? || s.Throw? || s.Panic? || s.Defer? { OneReadsLate(req, s.e, state); }
  }

  lemma {:induction false} CompoundUses(req: set<Name>, s: Stmt, state: set<Name>)
    requires (s.If? || s.For? || s.Switch?) && Inner(s)
    ensures Step(req, s, state).ok <==> Spared(req, s, state)
    decreases s, 4, 0
  {
    var entries := Paths(req, s.init, Onward(state)).exits;
    assert Step(req, s, state) == Compound(req, s, s.init, state);
    StateUses(req, s.init, state);
    EntriesUse(req, s, entries);
    forall f ensures Lacking(entries, ToNext, f) <==> f !in state && BlockEnds(s.init, f, ToNext) {
      StateEnds(req, s.init, state, ToNext, f);
    }
  }

  lemma {:induction false} EntriesUse(req: set<Name>, s: Stmt, entries: seq<Exit>)
    requires (s.If? || s.For? || s.Switch?) && Inner(s)
    ensures Entries(req, s, entries).ok <==>
            forall f :: f in req && Lacking(entries, ToNext, f) ==> !EntryUses(s, f)
    decreases s, 3, |entries|
  {
    if entries == [] { forall f ensures !Lacking(entries, ToNext, f) { LackingOne(Exit({}, ToNext), ToNext, f); } }
    else {
      EntriesUse(req, s, entries[1..]);
      if entries[0].flow == ToNext { EntryUse(req, s, entries[0].state); }
      forall f ensures Lacking(entries, ToNext, f) <==>
          (entries[0].flow == ToNext && f !in entries[0].state) || Lacking(entries[1..], ToNext, f) {
        FirstLacks(entries, ToNext, f);
      }
    }
  }

  lemma {:induction false} EntryUse(req: set<Name>, s: Stmt, state: set<Name>)
    requires (s.If? || s.For? || s.Switch?) && Inner(s)
    ensures Entry(req, s, state).ok <==> SparedEntry(req, s, state)
    decreases s, 2, 0
  {
    if s.If? {
      OneReadsLate(req, s.test, state);
      StateUses(req, s.thn, state);
      StateUses(req, s.els, state);
      assert Entry(req, s, state) == IfEntry(req, s, state);
    }
    else if s.For? { ForUses(req, s, state); }
    else {
      CondReadsLate(req, s.tag, state);
      forall f ensures !Lacking([], ToNext, f) { LackingOne(Exit({}, ToNext), ToNext, f); }
      CasesUse(req, s.clauses, state, []);
      assert Entry(req, s, state) == SwitchEntry(req, s, state);
    }
  }

  lemma {:induction false} ForUses(req: set<Name>, s: Stmt, state: set<Name>)
    requires s.For? && Inner(s)
    ensures Entry(req, s, state).ok <==> SparedEntry(req, s, state)
    decreases s, 1, 0
  {
    var exits := Paths(req, s.body, Onward(state)).exits;
    CondReadsLate(req, s.cond, state);
    StateUses(req, s.body, state);
    PostUses(req, s.post, exits);
    forall f
      ensures Turning(exits, f) <==>
              f !in state && (BlockEnds(s.body, f, ToNext) || BlockEnds(s.body, f, ToContinue))
    {
      StateEnds(req, s.body, state, ToNext, f);
      StateEnds(req, s.body, state, ToContinue, f);
    }
    assert Entry(req, s, state) == ForEntry(req, s, state);
  }

  ghost predicate Turning(exits: seq<Exit>, f: Name) {
    Lacking(exits, ToNext, f) || Lacking(exits, ToContinue, f)
  }

  lemma {:induction false} PostUses(req: set<Name>, post: Block, exits: seq<Exit>)
    requires InnerBlock(post)
    ensures PostOk(req, post, exits) <==> forall f :: f in req && Turning(exits, f) ==> !BlockUses(post, f)
    decreases post, 2, |exits|
  {
    if exits == [] {
      forall f ensures !Turning(exits, f) {
        LackingOne(Exit({}, ToNext), ToNext, f);
        LackingOne(Exit({}, ToNext), ToContinue, f);
      }
    } else {
      var e := exits[0];
      StateUses(req, post, e.state);
      PostUses(req, post, exits[1..]);
      forall f ensures Turning(exits, f) <==>
          ((e.flow == ToNext || e.flow == ToContinue) && f !in e.state) || Turning(exits[1..], f) {
        FirstLacks(exits, ToNext, f);
        FirstLacks(exits, ToContinue, f);
      }
    }
  }

  lemma {:induction false} CasesUse(req: set<Name>, cs: Clauses, state: set<Name>, fallen: seq<Exit>)
    requires InnerClauses(cs) && forall f :: Fallen(state, fallen, f)
    ensures Cases(req, cs, state, fallen).ok <==> SparedClauses(req, cs, state)
    decreases cs, 1, 0
  {
    if cs.Clause? {
      var entry := Merge(Onward(state) + fallen);
      var exits := Paths(req, cs.body, entry).exits;
      ReadsLate(req, cs.guards, state);
      ListUses(req, cs.body, entry);
      forall f ensures Lacking(entry, ToNext, f) <==> f !in state {
        assert Fallen(state, fallen, f);
        EntryLacking(state, fallen, f);
      }
      forall f ensures Fallen(state, Reroute(exits, IntoNextClause), f) {
        assert Fallen(state, fallen, f);
        Falls(req, cs.body, state, fallen, f);
      }
      CasesUse(req, cs.rest, state, Reroute(exits, IntoNextClause));
    }
  }

  lemma {:induction false} TryUses(req: set<Name>, s: Stmt, state: set<Name>)
    requires s.Try? && Inner(s)
    ensures Step(req, s, state).ok <==> Spared(req, s, state)
    decreases s, 4, 0
  {
    var pending := PendingExits(req, s, state);
    assert Step(req, s, state) == TryPaths(req, s, state);
    StateUses(req, s.body, state);
    if s.handler.Func? { StateUses(req, s.handler.body, state); }
    if s.finalizer.Func? {
      FinallyUses(req, s.finalizer.body, pending);
      forall f ensures LackingSomehow(pending, f) <==> f !in state && EndsSomehow(s, f) {
        forall p ensures Lacking(pending, p, f) <==> f !in state && Pending(s, f, p) {
          PendingExact(req, s, state, p, f);
        }
        SomehowPending(s, state, pending, f);
      }
    }
  }

  lemma {:induction false} FinallyUses(req: set<Name>, b: Block, pending: seq<Exit>)
    requires InnerBlock(b)
    ensures Finally(req, b, pending).ok <==> forall f :: f in req && LackingSomehow(pending, f) ==> !BlockUses(b, f)
    decreases b, 2, |pending|
  {
    if pending == [] { forall f ensures !LackingSomehow([], f) { NoneLacking(f); } }
    else {
      StateUses(req, b, pending[0].state);
      FinallyUses(req, b, pending[1..]);
      forall f ensures LackingSomehow(pending, f) <==> f !in pending[0].state || LackingSomehow(pending[1..], f) {
        SomehowFirst(pending, f);
      }
    }
  }

  lemma {:induction false} StateUses(req: set<Name>, b: Block, state: set<Name>)
    requires InnerBlock(b)
    ensures Paths(req, b, Onward(state)).ok <==> SparedBlock(req, b, state)
    decreases b, 1, 0
  {
    ListUses(req, b, Onward(state));
    forall f ensures Lacking(Onward(state), ToNext, f) <==> f !in state {
      LackingOne(Exit(state, ToNext), ToNext, f);
    }
  }

  lemma {:induction false} ListUses(req: set<Name>, b: Block, exits: seq<Exit>)
    requires InnerBlock(b)
    ensures Paths(req, b, exits).ok <==> SparedList(req, b, exits)
    decreases b, 0, 0
  {
    if b.Cons? {
      var next := StepEach(req, b.head, exits).exits;
      EachUses(req, b.head, exits);
      ListUses(req, b.tail, Merge(next));
      forall f ensures Lacking(Merge(next), ToNext, f) <==> Lacking(exits, ToNext, f) && Ends(b.head, f, ToNext) {
        EachEnds(req, b.head, exits, ToNext, f);
        LackingMerge(next, ToNext, f);
      }
    }
  }

  lemma {:induction false} EachUses(req: set<Name>, s: Stmt, exits: seq<Exit>)
    requires Inner(s)
    ensures StepEach(req, s, exits).ok <==> SparedEach(req, s, exits)
    decreases s, 6, |exits|
  {
    if exits == [] { forall f ensures !Lacking(exits, ToNext, f) { NoneLacking(f); } }
    else {
      var e := exits[0];
      EachUses(req, s, exits[1..]);
      if e.flow == ToNext { StepUses(req, s, e.state); }
      SparedFirst(req, s, exits);
    }
  }

  lemma SparedFirst(req: set<Name>, s: Stmt, exits: seq<Exit>)
    requires exits != []
    ensures SparedEach(req, s, exits) <==>
            (exits[0].flow == ToNext ==> Spared(req, s, exits[0].state)) && SparedEach(req, s, exits[1..])
  {
    forall f ensures Lacking(exits, ToNext, f) <==>
        (exits[0].flow == ToNext && f !in exits[0].state) || Lacking(exits[1..], ToNext, f) {
      FirstLacks(exits, ToNext, f);
    }
  }

  // ----- acceptance -----

  /** A constructor is accepted if and only if for each required field no path that the
      check sees reads it before setting it, and none leaves it unset at the end of the
      body or at a `return`. */
  lemma AcceptsSeen(req: set<Name>, body: Block)
    requires InnerBlock(body)
    ensures Accepts(req, body) <==> forall f :: f in req ==>
              !BlockUses(body, f) && !BlockEnds(body, f, ToNext) && !BlockEnds(body, f, ToReturn)
  {
    StateUses(req, body, {});
    forall f | f in req
      ensures Lacking(Paths(req, body, Onward({})).exits, ToNext, f) <==> BlockEnds(body, f, ToNext)
      ensures Lacking(Paths(req, body, Onward({})).exits, ToReturn, f) <==> BlockEnds(body, f, ToReturn)
    {
      StateEnds(req, body, {}, ToNext, f);
      StateEnds(req, body, {}, ToReturn, f);
    }
    CompleteExits(req, body);
  }
}
