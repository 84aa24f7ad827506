/** Paths through a source body, as the text shows them: a condition may go either
    way, a loop may turn any number of times, and whatever stands in a `try` may
    throw. A path may be asked to leave one field of `this` unset. */
module ProgramPaths {
  import opened Options
  import opened Syntax
  import opened Machine

  /** How a path leaves a statement. */
  datatype Way = Through | ByBreak(lab: Name) | ByContinue(lab: Name) | ByFall | ByReturn | ByThrow

  /** A jump that ends at the loop or switch with this label. */
  predicate Lands(w: Way, lab: Name) {
    (w.ByBreak? || w.ByContinue?) && (w.lab == NO_LABEL || w.lab == lab)
  }

  predicate Sets(lhs: seq<Lhs>, f: Option<Name>) {
    f.Some? && Field(f.value) in lhs
  }

  /** Some path through `s`, which carries the label `lab`, goes this way. */
  ghost predicate Goes(s: Stmt, lab: Name, f: Option<Name>, w: Way)
    decreases s, 3
  {
    match s
    case Assign(lhs, _) => w.Through? && !Sets(lhs, f)
    case Parent(_) => w.Through? && f != Some("@parent")
    case Throw(_) => w.ByThrow?
    case Panic(_) => w.ByThrow?
    case Return(_) => w.ByReturn?
    case Break(l) => w == ByBreak(l)
    case Continue(l) => w == ByContinue(l)
    case Fallthrough => w.ByFall?
    case Scope(body) => BlockGoes(body, f, w)
    case If(init, _, _, _) => HeaderGoes(s, init, lab, f, w)
    case For(init, _, _, _) => HeaderGoes(s, init, lab, f, w)
    case Switch(init, _, _) => HeaderGoes(s, init, lab, f, w)
    case Range(_, lhs, _, body) =>
      w.Through? || (!Lands(w, lab) && !Sets(lhs, f) && BlockGoes(body, f, w))
    case Labeled(l, inner) => Goes(inner, l, f, w)
    case Try(_, _, _) => TryGoes(s, f, w)
    case _ => w.Through?
  }

  /** The header may leave the statement; otherwise the rest of it follows. */
  ghost predicate HeaderGoes(s: Stmt, init: Block, lab: Name, f: Option<Name>, w: Way)
    requires (s.If? && init == s.init) || (s.For? && init == s.init) || (s.Switch? && init == s.init)
    decreases s, 2
  {
    (!w.Through? && BlockGoes(init, f, w)) || (BlockGoes(init, f, Through) && EntryGoes(s, lab, f, w))
  }

  ghost predicate EntryGoes(s: Stmt, lab: Name, f: Option<Name>, w: Way)
    requires s.If? || s.For? || s.Switch?
    decreases s, 1
  {
    if s.If? then BlockGoes(s.thn, f, w) || BlockGoes(s.els, f, w)
    else if s.For? then LoopGoes(s, lab, f, w)
    else (w.Through? && !HasDefault(s.clauses)) || ClausesGo(s.clauses, lab, f, w)
  }

  ghost predicate LoopGoes(s: Stmt, lab: Name, f: Option<Name>, w: Way)
    requires s.For?
    decreases s, 0
  {
    if w.Through? then !Infinite(s.cond) || BlockGoes(s.body, f, ByBreak(NO_LABEL))
        || BlockGoes(s.body, f, ByBreak(lab))
    else (!Lands(w, lab) && BlockGoes(s.body, f, w)) || (BlockTurns(s.body, lab, f) && BlockGoes(s.post, f, w))
  }

  /** The end of the body, or a `continue` of this loop, leads to its next turn. */
  ghost predicate BlockTurns(body: Block, lab: Name, f: Option<Name>)
    decreases body, 1
  {
    BlockGoes(body, f, Through) || BlockGoes(body, f, ByContinue(NO_LABEL)) || BlockGoes(body, f, ByContinue(lab))
  }

  ghost predicate BlockGoes(b: Block, f: Option<Name>, w: Way)
    decreases b, 0
  {
    match b
    case Nil => w.Through?
    case Cons(h, t) => (!w.Through? && Goes(h, NO_LABEL, f, w)) || (Goes(h, NO_LABEL, f, Through) && BlockGoes(t, f, w))
  }

  /** Through one clause: falling into it finds the field as unset as its guard.
      Falling out of the last one ends the switch. */
  ghost predicate ClausesGo(cs: Clauses, lab: Name, f: Option<Name>, w: Way)
    decreases cs
  {
    match cs
    case NoClauses => false
    case Clause(_, _, body, rest) =>
      || ClausesGo(rest, lab, f, w)
      || (if w.Through? then BlockGoes(body, f, Through) || BlockGoes(body, f, ByBreak(NO_LABEL))
          || BlockGoes(body, f, ByBreak(lab))
          else !(w.ByBreak? && Lands(w, lab)) && !w.ByFall? && BlockGoes(body, f, w))
      || (w.Through? && rest.NoClauses? && BlockGoes(body, f, ByFall))
  }

  /** How body and handler leave things to the finalizer; either may throw. */
  ghost predicate Pends(s: Stmt, f: Option<Name>, w: Way)
    requires s.Try?
    decreases s, 0
  {
    || (w.ByThrow? && s.finalizer.Func?)
    || (!(s.handler.Func? && w.ByThrow?) && BlockGoes(s.body, f, w))
    || (s.handler.Func? && BlockGoes(s.handler.body, f, w))
  }

  /** A finalizer that ends normally lets what was pending go on; one that does not
      replaces it, unless that was an exception. */
  ghost predicate TryGoes(s: Stmt, f: Option<Name>, w: Way)
    requires s.Try?
    decreases s, 2
  {
    if s.finalizer.NoClosure? then Pends(s, f, w)
    else || (BlockGoes(s.finalizer.body, f, Through) && Pends(s, f, w))
         || (!w.Through? && BlockGoes(s.finalizer.body, f, w) && PendsUnder(s, f, w))
  }

  ghost predicate PendsUnder(s: Stmt, f: Option<Name>, w: Way)
    requires s.Try?
    decreases s, 1
  {
    exists p :: Pends(s, f, p) && (p.ByThrow? ==> w.ByThrow?)
  }

  ghost predicate PendsSomehow(s: Stmt, f: Option<Name>)
    requires s.Try?
    decreases s, 1
  {
    exists p :: Pends(s, f, p)
  }

  /** Every path through the statement ends at its end or with an exception. */
  ghost predicate Harmless(s: Stmt) {
    forall w :: Goes(s, NO_LABEL, None, w) ==> w.Through? || w.ByThrow?
  }

  // ----- catch chains -----

  /** if typed test { ... } else if ... else { throw }, as every list of catch
      clauses is parsed. */
  predicate CatchChain(b: Block) {
    b.Cons? && b.tail.Nil? &&
    (b.head.Throw? || (b.head.If? && CatchHeader(b.head.init) && CatchChain(b.head.els)))
  }

  predicate CatchHeader(init: Block) {
    init.Nil? || (init.Cons? && init.tail.Nil? && init.head.Declare?)
  }

  /** A catch chain may rethrow before it changes anything. */
  lemma {:induction false} ChainThrows(b: Block, f: Option<Name>)
    requires CatchChain(b)
    ensures BlockGoes(b, f, ByThrow)
    decreases b
  {
    var s := b.head;
    if s.If? {
      ChainThrows(s.els, f);
      HeaderPasses(s.init, f);
      assert EntryGoes(s, NO_LABEL, f, ByThrow);
      assert HeaderGoes(s, s.init, NO_LABEL, f, ByThrow);
    }
    assert Goes(s, NO_LABEL, f, ByThrow);
  }

  lemma HeaderPasses(init: Block, f: Option<Name>)
    requires CatchHeader(init)
    ensures BlockGoes(init, f, Through)
  {
    if init.Cons? {
      assert Goes(init.head, NO_LABEL, f, Through);
      assert BlockGoes(init.tail, f, Through);
    }
  }

  // ----- what is evaluated on the way -----

  predicate Mentioned(es: seq<Expr>, f: Name) {
    exists e :: e in es && f in Fields(e)
  }

  predicate CondMentioned(c: Cond, f: Name) {
    c.When? && f in Fields(c.e)
  }

  /** Some operand mentions the field and no target further left sets it. */
  predicate TargetsRead(lhs: seq<Lhs>, f: Name)
    decreases |lhs|
  {
    lhs != [] && ((lhs[0].At? && f in Fields(lhs[0].e)) || (lhs[0] != Field(f) && TargetsRead(lhs[1..], f)))
  }

  /** The reads a program makes, those the analysis checks, and the others: it takes
      the targets of an assignment from left to right, although their operands are
      all evaluated before anything is stored, and never looks at those of `range`. */
  datatype Reads = Made | Checked | Overlooked

  predicate TargetsMention(r: Reads, lhs: seq<Lhs>, f: Name) {
    match r
    case Made => Mentioned(Operands(lhs), f)
    case Checked => TargetsRead(lhs, f)
    case Overlooked => Mentioned(Operands(lhs), f) && !TargetsRead(lhs, f)
  }

  /** Some path that leaves `f` unset makes such a read of it. */
  ghost predicate Meets(r: Reads, s: Stmt, lab: Name, f: Name)
    decreases s, 3
  {
    match s
    case Assign(lhs, rhs) => TargetsMention(r, lhs, f) || (!r.Overlooked? && Mentioned(rhs, f))
    case Eval(e) => !r.Overlooked? && f in Fields(e)
    case Parent(e) => !r.Overlooked? && f in Fields(e)
    case Throw(e) => !r.Overlooked? && f in Fields(e)
    case Panic(e) => !r.Overlooked? && f in Fields(e)
    case Defer(e) => !r.Overlooked? && f in Fields(e)
    case Declare(_, rhs) => !r.Overlooked? && Mentioned(rhs, f)
    case Return(es) => !r.Overlooked? && Mentioned(es, f)
    case Scope(body) => BlockMeets(r, body, f)
    case If(init, _, _, _) => BlockMeets(r, init, f) || (BlockGoes(init, Some(f), Through) && EntryMeets(r, s, lab, f))
    case For(init, _, _, _) => BlockMeets(r, init, f) || (BlockGoes(init, Some(f), Through) && EntryMeets(r, s, lab, f))
    case Switch(init, _, _) =>
      BlockMeets(r, init, f) || (BlockGoes(init, Some(f), Through) && EntryMeets(r, s, lab, f))
    case Range(_, lhs, over, body) =>
      || (!r.Overlooked? && f in Fields(over)) || (!r.Checked? && Mentioned(Operands(lhs), f))
      || (!Sets(lhs, Some(f)) && BlockMeets(r, body, f))
    case Labeled(l, inner) => !r.Overlooked? && Meets(Made, inner, l, f)
    case Try(body, handler, finalizer) =>
      || BlockMeets(r, body, f) || (handler.Func? && BlockMeets(r, handler.body, f))
      || (finalizer.Func? && PendsSomehow(s, Some(f)) && BlockMeets(r, finalizer.body, f))
    case _ => false
  }

  ghost predicate EntryMeets(r: Reads, s: Stmt, lab: Name, f: Name)
    requires s.If? || s.For? || s.Switch?
    decreases s, 2
  {
    if s.If? then (!r.Overlooked? && f in Fields(s.test)) || BlockMeets(r, s.thn, f) || BlockMeets(r, s.els, f)
    else if s.For? then
      || (!r.Overlooked? && CondMentioned(s.cond, f)) || BlockMeets(r, s.body, f)
      || (BlockTurns(s.body, lab, Some(f)) && BlockMeets(r, s.post, f))
    else (!r.Overlooked? && CondMentioned(s.tag, f)) || ClausesMeet(r, s.clauses, f)
  }

  ghost predicate BlockMeets(r: Reads, b: Block, f: Name)
    decreases b, 0
  {
    match b
    case Nil => false
    case Cons(h, t) => Meets(r, h, NO_LABEL, f) || (Goes(h, NO_LABEL, Some(f), Through) && BlockMeets(r, t, f))
  }

  ghost predicate ClausesMeet(r: Reads, cs: Clauses, f: Name)
    decreases cs
  {
    match cs
    case NoClauses => false
    case Clause(_, guards, body, rest) =>
      (!r.Overlooked? && Mentioned(guards, f)) || BlockMeets(r, body, f) || ClausesMeet(r, rest, f)
  }

  /** Every read that is made is checked or overlooked. */
  lemma {:induction false} MeetsEither(s: Stmt, lab: Name, f: Name)
    ensures Meets(Made, s, lab, f) <==> Meets(Checked, s, lab, f) || Meets(Overlooked, s, lab, f)
    decreases s, 1
  {
    if s.Assign? { if TargetsRead(s.lhs, f) { TargetsReadMentioned(s.lhs, f); } }
    else if s.Scope? { BlockMeetsEither(s.body, f); }
    else if s.If? || s.For? || s.Switch? {
      BlockMeetsEither(s.init, f);
      EntryMeetsEither(s, lab, f);
    }
    else if s.Range? { BlockMeetsEither(s.body, f); }
    else if s.Try? {
      BlockMeetsEither(s.body, f);
      if s.handler.Func? { BlockMeetsEither(s.handler.body, f); }
      if s.finalizer.Func? { BlockMeetsEither(s.finalizer.body, f); }
    }
  }

  lemma {:induction false} EntryMeetsEither(s: Stmt, lab: Name, f: Name)
    requires s.If? || s.For? || s.Switch?
    ensures EntryMeets(Made, s, lab, f) <==> EntryMeets(Checked, s, lab, f) || EntryMeets(Overlooked, s, lab, f)
    decreases s, 0
  {
    if s.If? {
      BlockMeetsEither(s.thn, f);
      BlockMeetsEither(s.els, f);
    } else if s.For? {
      BlockMeetsEither(s.body, f);
      BlockMeetsEither(s.post, f);
    } else { ClausesMeetEither(s.clauses, f); }
  }

  lemma {:induction false} BlockMeetsEither(b: Block, f: Name)
    ensures BlockMeets(Made, b, f) <==> BlockMeets(Checked, b, f) || BlockMeets(Overlooked, b, f)
    decreases b, 0
  {
    if b.Cons? {
      MeetsEither(b.head, NO_LABEL, f);
      BlockMeetsEither(b.tail, f);
    }
  }

  lemma {:induction false} ClausesMeetEither(cs: Clauses, f: Name)
    ensures ClausesMeet(Made, cs, f) <==> ClausesMeet(Checked, cs, f) || ClausesMeet(Overlooked, cs, f)
    decreases cs, 0
  {
    if cs.Clause? {
      BlockMeetsEither(cs.body, f);
      ClausesMeetEither(cs.rest, f);
    }
  }

  lemma {:induction false} TargetsReadMentioned(lhs: seq<Lhs>, f: Name)
    requires TargetsRead(lhs, f)
    ensures Mentioned(Operands(lhs), f)
    decreases |lhs|
  {
    var head := if lhs[0].At? then [lhs[0].e] else [];
    assert Operands(lhs) == head + Operands(lhs[1..]);
    if lhs[0].At? && f in Fields(lhs[0].e) { assert head[0] in Operands(lhs); }
    else {
      TargetsReadMentioned(lhs[1..], f);
      var e :| e in Operands(lhs[1..]) && f in Fields(e);
      assert e in Operands(lhs);
    }
  }

  // ----- source statements -----

  predicate Sourced(s: Stmt)
    decreases s
  {
    match s
    case Scope(body) => SourcedBlock(body)
    case If(init, _, thn, els) => SourcedBlock(init) && SourcedBlock(thn) && SourcedBlock(els)
    case For(init, _, post, body) => SourcedBlock(init) && SourcedBlock(post) && SourcedBlock(body)
    case Range(_, _, _, body) => SourcedBlock(body)
    case Switch(init, _, clauses) => SourcedBlock(init) && SourcedClauses(clauses)
    case Labeled(_, inner) => Sourced(inner)
    case Try(body, handler, finalizer) => SourcedBlock(body) && SourcedClosure(handler) && SourcedClosure(finalizer)
    case _ =>
      || s.Eval? || s.Parent? || s.Throw? || s.Panic? || s.Assign? || s.Declare? || s.Return? || s.Break?
      || s.Continue? || s.Fallthrough? || s.Defer?
  }

  predicate SourcedBlock(b: Block)
    decreases b
  {
    match b
    case Nil => true
    case Cons(h, t) => Sourced(h) && SourcedBlock(t)
  }

  predicate SourcedClauses(cs: Clauses)
    decreases cs
  {
    match cs
    case NoClauses => true
    case Clause(_, _, body, rest) => SourcedBlock(body) && SourcedClauses(rest)
  }

  predicate SourcedClosure(c: Closure)
    decreases c
  {
    match c
    case NoClosure => true
    case Func(body) => SourcedBlock(body)
  }
}
