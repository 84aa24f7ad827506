/** Every early mention is reached: along a script a run evaluates an expression that
    mentions a field while the field is unset, and records it for good. */
module MeetRuns {
  import opened Options
  import opened Syntax
  import opened Machine
  import opened Headers
  import opened ProgramPaths
  import opened Growth
  import opened RunPaths
  import opened PathRuns
  import Construction

  // ----- the script that reaches a mention -----

  ghost function MeetRoute(s: Stmt, lab: Name, f: Name): seq<Answer>
    decreases s, 2
  {
    match s
    case Assign(lhs, rhs) => Ones(Weight(Operands(lhs) + rhs))
    case Declare(_, rhs) => Ones(Weight(rhs))
    case Return(es) => Ones(Weight(es))
    case Scope(body) => BlockMeetRoute(body, f)
    case If(init, _, _, _) =>
      if BlockMeets(Made, init, f) then BlockMeetRoute(init, f)
      else BlockRoute(init, Some(f), Through) + EntryMeetRoute(s, lab, f)
    case For(init, _, _, _) =>
      if BlockMeets(Made, init, f) then BlockMeetRoute(init, f)
      else BlockRoute(init, Some(f), Through) + EntryMeetRoute(s, lab, f)
    case Switch(init, _, _) =>
      if BlockMeets(Made, init, f) then BlockMeetRoute(init, f)
      else BlockRoute(init, Some(f), Through) + EntryMeetRoute(s, lab, f)
    case Range(_, lhs, over, body) =>
      if f in Fields(over) then []
      else Ones(Weight([over])) + ([Value(1)] +
           (if Mentioned(Operands(lhs), f) then Ones(Weight(Operands(lhs)))
            else TurnOnes(lhs) + BlockMeetRoute(body, f)))
    case Labeled(l, inner) => MeetRoute(inner, l, f)
    case Try(body, handler, finalizer) =>
      if BlockMeets(Made, body, f) then BlockMeetRoute(body, f)
      else if handler.Func? && BlockMeets(Made, handler.body, f)
          then BlockRaiseRoute(body, Some(f)) + BlockMeetRoute(handler.body, f)
      else if finalizer.Func?
          && PendsSomehow(s, Some(f)) then PendRoute(s, Some(f), AnyWay(s, f)) + BlockMeetRoute(finalizer.body, f)
      else []
    case _ => []
  }

  lemma SomeWay(s: Stmt, f: Name)
    requires s.Try? && PendsSomehow(s, Some(f))
    ensures exists p :: Pends(s, Some(f), p)
  {}

  ghost function AnyWay(s: Stmt, f: Name): (p: Way)
    requires s.Try? && PendsSomehow(s, Some(f))
    ensures Pends(s, Some(f), p)
  {
    SomeWay(s, f);
    var p: Way :| Pends(s, Some(f), p);
    p
  }

  ghost function EntryMeetRoute(s: Stmt, lab: Name, f: Name): seq<Answer>
    requires s.If? || s.For? || s.Switch?
    decreases s, 1
  {
    if s.If? then
      if f in Fields(s.test) then []
      else if BlockMeets(Made, s.thn, f) then [Value(1)] + BlockMeetRoute(s.thn, f)
      else [Value(0)] + BlockMeetRoute(s.els, f)
    else if s.For? then
      if CondMentioned(s.cond, f) then []
      else if BlockMeets(Made, s.body, f) then CondAnswer(s.cond, 1) + BlockMeetRoute(s.body, f)
      else CondAnswer(s.cond, 1) + (BlockRoute(s.body, Some(f), TurnWay(s.body, lab, f)) + BlockMeetRoute(s.post, f))
    else
      if CondMentioned(s.tag, f) then []
      else if GuardsMention(s.clauses, f) then CondAnswer(s.tag, 1) + SkipRoute(s.clauses)
      else CondAnswer(s.tag, 1) + (ChoiceRoute(s.clauses, MeetPick(s.clauses, f)) + CaseMeetRoute(s.clauses, f))
  }

  ghost function TurnWay(body: Block, lab: Name, f: Name): Way {
    if BlockGoes(body, Some(f), Through) then Through
    else if BlockGoes(body, Some(f), ByContinue(NO_LABEL)) then ByContinue(NO_LABEL)
    else ByContinue(lab)
  }

  predicate GuardsMention(cs: Clauses, f: Name) {
    cs.Clause? && (Mentioned(cs.guards, f) || GuardsMention(cs.rest, f))
  }

  ghost function MeetPick(cs: Clauses, f: Name): nat {
    if cs.NoClauses? || BlockMeets(Made, cs.body, f) then 0 else 1 + MeetPick(cs.rest, f)
  }

  ghost function CaseMeetRoute(cs: Clauses, f: Name): seq<Answer>
    decreases cs
  {
    if cs.NoClauses? then [] else if BlockMeets(Made, cs.body, f) then BlockMeetRoute(cs.body, f)
        else CaseMeetRoute(cs.rest, f)
  }

  ghost function BlockMeetRoute(b: Block, f: Name): seq<Answer>
    decreases b, 0
  {
    match b
    case Nil => []
    case Cons(h, t) =>
      if Meets(Made, h, NO_LABEL, f) then MeetRoute(h, NO_LABEL, f)
      else PathRoute(h, NO_LABEL, Some(f), Through) + BlockMeetRoute(t, f)
  }

  // ----- the runs -----

  lemma {:induction false} EvalAllNotes(fn: Fn, es: seq<Expr>, f: Name, u: User)
    requires Mentioned(es, f) && f !in u.obj && Follows(fn, u.world, Ones(Weight(es)))
    ensures var o := EvalAll(fn, es, u); o.Yields? && f in o.u.early
    decreases |es|
  {
    EvalAllAnswers(fn, es, u);
    var e :| e in es && f in Fields(e);
    if es[0].True? {
      assert e in es[1..];
      EvalAllNotes(fn, es[1..], f, u);
    } else {
      assert Ones(Weight(es)) == [Value(1)] + Ones(Weight(es[1..]));
      FollowsParts(fn, u.world, [Value(1)], Ones(Weight(es[1..])));
      EvalAnswer(fn, es[0], Value(1), u);
      var o := EvalExpr(fn, es[0], u);
      if f in Fields(es[0]) { EarlyStays(fn, es[1..], f, o.u); }
      else {
        assert e in es[1..];
        EvalAllNotes(fn, es[1..], f, o.u);
      }
    }
  }

  lemma {:induction false} EarlyStays(fn: Fn, es: seq<Expr>, f: Name, u: User)
    requires f in u.early
    ensures f in EvalAll(fn, es, u).u.early
    decreases |es|
  {
    if es != [] {
      var o := EvalExpr(fn, es[0], u);
      if o.Yields? { EarlyStays(fn, es[1..], f, o.u); }
    }
  }

  lemma BasicMeets(fn: Fn, s: Stmt, lab: Name, f: Name, st: State, fuel: nat)
    requires Sourced(s) && Basic(s) && Meets(Made, s, lab, f) && f !in st.u.obj
    requires Follows(fn, st.u.world, MeetRoute(s, lab, f))
    ensures f in ExecBasic(fn, s, st, fuel).st.u.early
  {
    if s.Assign? {
      var es := Operands(s.lhs) + s.rhs;
      EvalAllNotes(fn, es, f, st.u);
      var o := EvalAll(fn, es, st.u);
      StoreAllGrew(fn, s.lhs, if |Operands(s.lhs)| <= |o.vals| then o.vals[|Operands(s.lhs)|..] else [], {}, o.u);
    }
    else if s.Declare? || s.Return? {
      var es := if s.Declare? then s.rhs else s.es;
      EvalAllNotes(fn, es, f, st.u);
      var o := EvalAll(fn, es, st.u);
      if s.Declare? { BindGrew(s.names, o.vals, o.u); }
      else if fn.slots.Named? { SetCellsGrew(fn.slots.cells, o.vals, o.u); }
    }
  }

  lemma {:induction false} MeetTaken(fn: Fn, s: Stmt, lab: Name, f: Name, st: State, fuel: nat)
    requires Sourced(s) && Open(s, Some(f)) && Meets(Made, s, lab, f) && f !in st.u.obj && fuel > 0
    requires Follows(fn, st.u.world, MeetRoute(s, lab, f))
    ensures f in Exec(fn, s, lab, st, fuel).st.u.early
    decreases s, 4
  {
    if s.Scope? { BlockMeetTaken(fn, s.body, f, st, fuel); }
    else if s.If? || s.For? || s.Switch? { HeaderMeets(fn, s, lab, f, st, fuel); }
    else if s.Range? { RangeMeets(fn, s, lab, f, st, fuel); }
    else if s.Labeled? {
      assert Exec(fn, s, lab, st, fuel) == Exec(fn, s.stmt, s.lab, st, fuel);
      MeetTaken(fn, s.stmt, s.lab, f, st, fuel);
    }
    else if s.Try? {
      assert Exec(fn, s, lab, st, fuel) == ExecTry(fn, s, st, fuel);
      TryMeets(fn, s, lab, f, st, fuel);
    }
    else {
      assert Exec(fn, s, lab, st, fuel) == ExecBasic(fn, s, st, fuel);
      BasicMeets(fn, s, lab, f, st, fuel);
    }
  }

  lemma {:induction false} BlockMeetTaken(fn: Fn, b: Block, f: Name, st: State, fuel: nat)
    requires SourcedBlock(b) && OpenBlock(b, Some(f)) && BlockMeets(Made, b, f) && f !in st.u.obj && fuel > 0
    requires Follows(fn, st.u.world, BlockMeetRoute(b, f))
    ensures f in ExecBlock(fn, b, st, fuel).st.u.early
    decreases b, 0
  {
    if Meets(Made, b.head, NO_LABEL, f) {
      MeetTaken(fn, b.head, NO_LABEL, f, st, fuel);
      BlockGrew(fn, b.tail, Construction.BlockMentions(b.tail), Exec(fn, b.head, NO_LABEL, st, fuel).st, fuel);
    } else {
      FollowsParts(fn, st.u.world, PathRoute(b.head, NO_LABEL, Some(f), Through), BlockMeetRoute(b.tail, f));
      PathTaken(fn, b.head, NO_LABEL, Some(f), Through, st, fuel);
      BlockMeetTaken(fn, b.tail, f, Exec(fn, b.head, NO_LABEL, st, fuel).st, fuel);
    }
  }

  lemma {:induction false} HeaderMeets(fn: Fn, s: Stmt, lab: Name, f: Name, st: State, fuel: nat)
    requires s.If? || s.For? || s.Switch?
    requires Sourced(s) && Open(s, Some(f)) && Meets(Made, s, lab, f) && f !in st.u.obj && fuel > 0
    requires Follows(fn, st.u.world, MeetRoute(s, lab, f))
    ensures f in Exec(fn, s, lab, st, fuel).st.u.early
    decreases s, 3
  {
    HeaderFirst(fn, s, lab, st, fuel);
    var i := ExecBlock(fn, s.init, st, fuel);
    if BlockMeets(Made, s.init, f) {
      BlockMeetTaken(fn, s.init, f, st, fuel);
      AfterHeaderGrew(fn, s, lab, Construction.Mentions(s), i.st, fuel);
    } else {
      FollowsParts(fn, st.u.world, BlockRoute(s.init, Some(f), Through), EntryMeetRoute(s, lab, f));
      BlockTaken(fn, s.init, Some(f), Through, st, fuel);
      EntryMeetTaken(fn, s, lab, f, i.st, fuel);
    }
  }

  lemma {:induction false} EntryMeetTaken(fn: Fn, s: Stmt, lab: Name, f: Name, st: State, fuel: nat)
    requires s.If? || s.For? || s.Switch?
    requires Sourced(s) && Open(s, Some(f)) && EntryMeets(Made, s, lab, f) && f !in st.u.obj && fuel > 0
    requires Follows(fn, st.u.world, EntryMeetRoute(s, lab, f))
    ensures f in AfterHeader(fn, s, lab, st, fuel).st.u.early
    decreases s, 2
  {
    if s.If? {
      if f in Fields(s.test) { TestMeets(fn, s, lab, f, st, fuel); }
      else {
        var v := if BlockMeets(Made, s.thn, f) then 1 else 0;
        var branch := if v == 1 then s.thn else s.els;
        FollowsParts(fn, st.u.world, [Value(v)], BlockMeetRoute(branch, f));
        EvalAnswer(fn, s.test, Value(v), st.u);
        BlockMeetTaken(fn, branch, f, st.(u := EvalExpr(fn, s.test, st.u).u), fuel);
      }
    }
    else if s.For? { LoopMeets(fn, s, lab, f, st, fuel); }
    else { SwitchMeets(fn, s, lab, f, st, fuel); }
  }

  lemma TestMeets(fn: Fn, s: Stmt, lab: Name, f: Name, st: State, fuel: nat)
    requires s.If? && Sourced(s) && f in Fields(s.test) && f !in st.u.obj
    ensures f in AfterHeader(fn, s, lab, st, fuel).st.u.early
  {
    var o := EvalExpr(fn, s.test, st.u);
    if o.Yields? {
      var branch := if First(o.vals) != 0 then s.thn else s.els;
      BlockGrew(fn, branch, Construction.BlockMentions(branch), st.(u := o.u), fuel);
    }
  }

  lemma {:induction false} LoopMeets(fn: Fn, s: Stmt, lab: Name, f: Name, st: State, fuel: nat)
    requires s.For? && Sourced(s) && Open(s, Some(f)) && EntryMeets(Made, s, lab, f) && f !in st.u.obj && fuel > 0
    requires Follows(fn, st.u.world, EntryMeetRoute(s, lab, f))
    ensures f in Loop(fn, s, lab, st, fuel).st.u.early
    decreases s, 1
  {
    if CondMentioned(s.cond, f) || BlockMeets(Made, s.body, f) { EarlyTurn(fn, s, lab, f, st, fuel); }
    else { LateTurn(fn, s, lab, f, st, fuel); }
  }

  /** The first test or the body reads the field. */
  lemma {:induction false} EarlyTurn(fn: Fn, s: Stmt, lab: Name, f: Name, st: State, fuel: nat)
    requires s.For? && Sourced(s) && Open(s, Some(f)) && EntryMeets(Made, s, lab, f) && f !in st.u.obj && fuel > 0
    requires (CondMentioned(s.cond, f) || BlockMeets(Made, s.body, f))
             && Follows(fn, st.u.world, EntryMeetRoute(s, lab, f))
    ensures f in Loop(fn, s, lab, st, fuel).st.u.early
    decreases s, 0
  {
    var o := EvalCond(fn, s.cond, st.u);
    var st1 := st.(u := o.u);
    var r := Leave(ExecBlock(fn, s.body, st1, fuel), st.u.env);
    LoopTurnGrew(fn, s, lab, Construction.Mentions(s), r, fuel);
    if CondMentioned(s.cond, f) {
      BlockGrew(fn, s.body, Construction.BlockMentions(s.body), st1, fuel);
    } else {
      FollowsParts(fn, st.u.world, CondAnswer(s.cond, 1), BlockMeetRoute(s.body, f));
      CondAnswers(fn, s.cond, 1, st.u);
      BlockMeetTaken(fn, s.body, f, st1, fuel);
    }
  }

  /** The post statement reads it, after a turn of the body. */
  lemma {:induction false} LateTurn(fn: Fn, s: Stmt, lab: Name, f: Name, st: State, fuel: nat)
    requires s.For? && Sourced(s) && Open(s, Some(f)) && EntryMeets(Made, s, lab, f) && f !in st.u.obj && fuel > 0
    requires !CondMentioned(s.cond, f) && !BlockMeets(Made, s.body, f)
             && Follows(fn, st.u.world, EntryMeetRoute(s, lab, f))
    ensures f in Loop(fn, s, lab, st, fuel).st.u.early
    decreases s, 0
  {
    var st1 := st.(u := EvalCond(fn, s.cond, st.u).u);
    var r := Leave(ExecBlock(fn, s.body, st1, fuel), st.u.env);
    var body := BlockRoute(s.body, Some(f), TurnWay(s.body, lab, f));
    FollowsParts(fn, st.u.world, CondAnswer(s.cond, 1), body + BlockMeetRoute(s.post, f));
    CondAnswers(fn, s.cond, 1, st.u);
    FollowsParts(fn, st1.u.world, body, BlockMeetRoute(s.post, f));
    BlockTaken(fn, s.body, Some(f), TurnWay(s.body, lab, f), st1, fuel);
    PostMeets(fn, s, lab, f, r, fuel);
  }

  lemma {:induction false} PostMeets(fn: Fn, s: Stmt, lab: Name, f: Name, r: R, fuel: nat)
    requires s.For? && Sourced(s) && Open(s, Some(f)) && BlockMeets(Made, s.post, f) && f !in r.st.u.obj && fuel > 0
    requires r.c.Normal? || (r.c.ContinueTo? && Mine(r.c.lab, lab))
    requires Follows(fn, r.st.u.world, BlockMeetRoute(s.post, f))
    ensures f in EndTurn(fn, s, lab, r, fuel).st.u.early
    decreases s.post, 1
  {
    assert EndTurn(fn, s, lab, r, fuel) == NextTurn(fn, s, lab, r.st, fuel);
    BlockMeetTaken(fn, s.post, f, r.st, fuel);
    var p := ExecBlock(fn, s.post, r.st, fuel);
    if p.c.Normal? { LoopGrew(fn, s, lab, Construction.Mentions(s), p.st, fuel - 1); }
  }

  /** The answers to one turn of a range. */
  ghost function TurnMeetRoute(s: Stmt, f: Name): seq<Answer>
    requires s.Range?
  {
    if Mentioned(Operands(s.lhs), f) then Ones(Weight(Operands(s.lhs))) else TurnOnes(s.lhs) + BlockMeetRoute(s.body, f)
  }

  lemma {:induction false} RangeMeets(fn: Fn, s: Stmt, lab: Name, f: Name, st: State, fuel: nat)
    requires s.Range? && Sourced(s) && Open(s, Some(f)) && Meets(Made, s, lab, f) && f !in st.u.obj && fuel > 0
    requires Follows(fn, st.u.world, MeetRoute(s, lab, f))
    ensures f in Exec(fn, s, lab, st, fuel).st.u.early
    decreases s, 3
  {
    var o := EvalExpr(fn, s.over, st.u);
    var st1 := st.(u := o.u);
    if f in Fields(s.over) { RangeGrew(fn, s, lab, Construction.Mentions(s), st1, fuel); }
    else {
      FollowsParts(fn, st.u.world, Ones(Weight([s.over])), [Value(1)] + TurnMeetRoute(s, f));
      EvalOne(fn, s.over, st.u);
      assert Exec(fn, s, lab, st, fuel) == RangeLoop(fn, s, lab, st1, fuel);
      NextMeets(fn, s, lab, f, st1, fuel);
    }
  }

  lemma {:induction false} NextMeets(fn: Fn, s: Stmt, lab: Name, f: Name, st: State, fuel: nat)
    requires s.Range? && Sourced(s) && Open(s, Some(f)) && Meets(Made, s, lab, f) && f !in Fields(s.over)
             && f !in st.u.obj
             && fuel > 0
    requires Follows(fn, st.u.world, [Value(1)] + TurnMeetRoute(s, f))
    ensures f in RangeLoop(fn, s, lab, st, fuel).st.u.early
    decreases s, 2
  {
    FollowsParts(fn, st.u.world, [Value(1)], TurnMeetRoute(s, f));
    EvalAnswer(fn, Expr.Next(s.over), Value(1), st.u);
    RangeTurnMeets(fn, s, lab, f, st, EvalExpr(fn, Expr.Next(s.over), st.u), TurnMeetRoute(s, f), fuel);
  }

  lemma {:induction false} RangeTurnMeets(fn: Fn, s: Stmt, lab: Name, f: Name, st: State, o: Outcome,
                                          turn: seq<Answer>, fuel: nat)
    requires s.Range? && Sourced(s) && Open(s, Some(f)) && Meets(Made, s, lab, f) && f !in Fields(s.over)
             && f !in st.u.obj
             && fuel > 0
    requires o == EvalExpr(fn, Expr.Next(s.over), st.u) && o.Yields? && o.vals == [1] && o.u.obj == st.u.obj
    requires turn == TurnMeetRoute(s, f)
    requires Follows(fn, o.u.world, turn)
    ensures f in RangeLoop(fn, s, lab, st, fuel).st.u.early
    decreases s, 1
  {
    TurnMeets(fn, s, lab, f, st, o, turn, fuel);
    var b := BindTurn(fn, s, o.vals, o.u);
    if b.Yields? {
      var r := Leave(ExecBlock(fn, s.body, st.(u := b.u), fuel), st.u.env);
      assert RangeLoop(fn, s, lab, st, fuel) == EndRangeTurn(fn, s, lab, r, fuel);
      if r.c.Normal? || (r.c.ContinueTo? && Mine(r.c.lab, lab)) {
        RangeGrew(fn, s, lab, Construction.Mentions(s), r.st, fuel - 1);
      }
    }
  }

  /** The first turn reads the field, in binding its targets or in its body. */
  lemma {:induction false} TurnMeets(fn: Fn, s: Stmt, lab: Name, f: Name, st: State, o: Outcome, turn: seq<Answer>,
                                     fuel: nat)
    requires s.Range? && Sourced(s) && Open(s, Some(f)) && Meets(Made, s, lab, f) && f !in Fields(s.over)
             && f !in st.u.obj
             && fuel > 0
    requires o.Yields? && o.vals == [1] && o.u.obj == st.u.obj
    requires turn == TurnMeetRoute(s, f)
    requires Follows(fn, o.u.world, turn)
    ensures var b := BindTurn(fn, s, o.vals, o.u);
            if b.Raises? then f in b.u.early else f in ExecBlock(fn, s.body, st.(u := b.u), fuel).st.u.early
    decreases s, 0
  {
    var b := BindTurn(fn, s, o.vals, o.u);
    var st1 := st.(u := b.u);
    if Mentioned(Operands(s.lhs), f) {
      assert s.lhs != [];
      EvalAllNotes(fn, Operands(s.lhs), f, o.u);
      StoreAllGrew(fn, s.lhs, o.vals, {}, EvalAll(fn, Operands(s.lhs), o.u).u);
      BlockGrew(fn, s.body, Construction.BlockMentions(s.body), st1, fuel);
    } else {
      FollowsParts(fn, o.u.world, TurnOnes(s.lhs), BlockMeetRoute(s.body, f));
      TurnTaken(fn, s, o.vals, Some(f), o.u);
      BlockMeetTaken(fn, s.body, f, st1, fuel);
    }
  }

  // ----- switch -----

  lemma {:induction false} GuardsNote(fn: Fn, guards: seq<Expr>, f: Name, index: int, u: User)
    requires (forall e :: e in guards ==> !e.True?) && Mentioned(guards, f) && f !in u.obj
               && Follows(fn, u.world, Zeros(|guards|))
    ensures f in Guards(fn, guards, 1, index, u).u.early
    decreases |guards|
  {
    assert Zeros(|guards|) == [Value(0)] + Zeros(|guards[1..]|);
    FollowsParts(fn, u.world, [Value(0)], Zeros(|guards[1..]|));
    EvalAnswer(fn, guards[0], Value(0), u);
    var o := EvalExpr(fn, guards[0], u);
    if f in Fields(guards[0]) {
      forall e | e in guards[1..] ensures Fields(e) <= AllFields(guards[1..]) {
        forall g | g in Fields(e) ensures g in AllFields(guards[1..]) {}
      }
      GuardsGrew(fn, guards[1..], 1, index, AllFields(guards[1..]), o.u);
    } else {
      var e :| e in guards && f in Fields(e);
      assert e in guards[1..];
      GuardsNote(fn, guards[1..], f, index, o.u);
    }
  }

  function AllFields(es: seq<Expr>): set<Name> {
    set e, g | e in es && g in Fields(e) :: g
  }

  lemma {:induction false} SkipNotes(fn: Fn, cs: Clauses, f: Name, index: nat, u: User)
    requires OpenClauses(cs, Some(f)) && GuardsMention(cs, f) && f !in u.obj && Follows(fn, u.world, SkipRoute(cs))
    ensures f in Choose(fn, cs, 1, index, u).u.early
    decreases cs
  {
    if cs.isDefault {
      assert [] + SkipRoute(cs.rest) == SkipRoute(cs.rest);
      SkipNotes(fn, cs.rest, f, index + 1, u);
    } else {
      FollowsParts(fn, u.world, Zeros(|cs.guards|), SkipRoute(cs.rest));
      GuardsFail(fn, cs.guards, index, u);
      var g := Guards(fn, cs.guards, 1, index, u);
      if Mentioned(cs.guards, f) {
        GuardsNote(fn, cs.guards, f, index, u);
        ChooseGrew(fn, cs.rest, 1, index + 1, Construction.ClausesMention(cs.rest), g.u);
      } else { SkipNotes(fn, cs.rest, f, index + 1, g.u); }
    }
  }

  lemma {:induction false} MeetPicked(cs: Clauses, f: Name)
    requires ClausesMeet(Made, cs, f) && !GuardsMention(cs, f)
    ensures MeetPick(cs, f) < Count(cs)
    decreases cs
  {
    if !BlockMeets(Made, cs.body, f) { MeetPicked(cs.rest, f); }
  }

  lemma {:induction false} CaseMeets(fn: Fn, cs: Clauses, f: Name, st: State, fuel: nat)
    requires SourcedClauses(cs) && OpenClauses(cs, Some(f)) && ClausesMeet(Made, cs, f) && !GuardsMention(cs, f)
             && f !in st.u.obj && fuel > 0
    requires Follows(fn, st.u.world, CaseMeetRoute(cs, f))
    ensures f in RunClauses(fn, cs, MeetPick(cs, f), st, fuel).st.u.early
    decreases cs, 0
  {
    if BlockMeets(Made, cs.body, f) {
      BlockMeetTaken(fn, cs.body, f, st, fuel);
      var r := Leave(ExecBlock(fn, cs.body, st, fuel), st.u.env);
      if r.c.Fell? { ClausesGrew(fn, cs.rest, 0, Construction.ClausesMention(cs.rest), r.st, fuel); }
    } else { CaseMeets(fn, cs.rest, f, st, fuel); }
  }

  lemma {:induction false} SwitchMeets(fn: Fn, s: Stmt, lab: Name, f: Name, st: State, fuel: nat)
    requires s.Switch? && Sourced(s) && Open(s, Some(f)) && EntryMeets(Made, s, lab, f) && f !in st.u.obj && fuel > 0
    requires Follows(fn, st.u.world, EntryMeetRoute(s, lab, f))
    ensures f in AfterHeader(fn, s, lab, st, fuel).st.u.early
    decreases s, 0
  {
    var o := EvalCond(fn, s.tag, st.u);
    var st1 := st.(u := o.u);
    if CondMentioned(s.tag, f) {
      if o.Yields? { CasesGrew(fn, s.clauses, First(o.vals), lab, Construction.ClausesMention(s.clauses), st1, fuel); }
    } else if GuardsMention(s.clauses, f) {
      FollowsParts(fn, st.u.world, CondAnswer(s.tag, 1), SkipRoute(s.clauses));
      CondAnswers(fn, s.tag, 1, st.u);
      SkipNotes(fn, s.clauses, f, 0, st1.u);
      ChosenGrew(fn, s.clauses, lab, st1, fuel);
    } else {
      var k := MeetPick(s.clauses, f);
      FollowsParts(fn, st.u.world, CondAnswer(s.tag, 1), ChoiceRoute(s.clauses, k) + CaseMeetRoute(s.clauses, f));
      CondAnswers(fn, s.tag, 1, st.u);
      FollowsParts(fn, st1.u.world, ChoiceRoute(s.clauses, k), CaseMeetRoute(s.clauses, f));
      MeetPicked(s.clauses, f);
      ChoiceTaken(fn, s.clauses, Some(f), k, 0, st1.u);
      CaseMeets(fn, s.clauses, f, st1.(u := Choose(fn, s.clauses, 1, 0, st1.u).u), fuel);
    }
  }

  lemma ChosenGrew(fn: Fn, cs: Clauses, lab: Name, st: State, fuel: nat)
    requires SourcedClauses(cs)
    ensures Choose(fn, cs, 1, 0, st.u).u.early <= ExecCases(fn, cs, 1, lab, st, fuel).st.u.early
  {
    var c := Choose(fn, cs, 1, 0, st.u);
    if c.Chosen? {
      var k := if c.index >= 0 then c.index else DefaultIndex(cs, 0);
      if k >= 0 { ClausesGrew(fn, cs, k, Construction.ClausesMention(cs), st.(u := c.u), fuel); }
    }
  }

  // ----- try -----

  /** What the body or the handler has recorded stays recorded. */
  lemma TryKeeps(fn: Fn, s: Stmt, st: State, fuel: nat)
    requires s.Try? && Sourced(s)
    ensures Handled(fn, s, st, fuel).st.u.early <= ExecTry(fn, s, st, fuel).st.u.early
    ensures ExecBlock(fn, s.body, st, fuel).st.u.early <= Handled(fn, s, st, fuel).st.u.early
  {
    var b := Leave(ExecBlock(fn, s.body, st, fuel), st.u.env);
    if Catches(b.c, s.handler) {
      BindGrew(["ghi_caught"], [b.c.v], b.st.u);
      BlockGrew(fn, s.handler.body, Construction.BlockMentions(s.handler.body),
                b.st.(u := WithCaught(b.st.u, b.c.v)), fuel);
    }
    var h := Handled(fn, s, st, fuel);
    if s.finalizer.Func? {
      BlockGrew(fn, s.finalizer.body, Construction.BlockMentions(s.finalizer.body), h.st, fuel);
    }
  }

  lemma {:induction false} TryMeets(fn: Fn, s: Stmt, lab: Name, f: Name, st: State, fuel: nat)
    requires s.Try? && Sourced(s) && Open(s, Some(f)) && Meets(Made, s, lab, f) && f !in st.u.obj && fuel > 0
    requires Follows(fn, st.u.world, MeetRoute(s, lab, f))
    ensures f in ExecTry(fn, s, st, fuel).st.u.early
    decreases s, 2
  {
    TryKeeps(fn, s, st, fuel);
    if BlockMeets(Made, s.body, f) { BlockMeetTaken(fn, s.body, f, st, fuel); }
    else if s.handler.Func? && BlockMeets(Made, s.handler.body, f) {
      FollowsParts(fn, st.u.world, BlockRaiseRoute(s.body, Some(f)), BlockMeetRoute(s.handler.body, f));
      BlockRaiseTaken(fn, s.body, Some(f), st, fuel);
      BlockMeetTaken(fn, s.handler.body, f, Caught(fn, s, st, fuel), fuel);
    } else {
      FollowsParts(fn, st.u.world, PendRoute(s, Some(f), AnyWay(s, f)), BlockMeetRoute(s.finalizer.body, f));
      HandledTaken(fn, s, Some(f), AnyWay(s, f), st, fuel);
      BlockMeetTaken(fn, s.finalizer.body, f, Handled(fn, s, st, fuel).st, fuel);
    }
  }
}
