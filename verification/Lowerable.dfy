/** Which bodies the control-flow lowering accepts, told from the source alone
    (internal/compiler/control_flow.go). */
module Lowerable {
  import opened Syntax
  import opened Lowering
  import opened LoweringFacts

  /** A loop or switch around a statement, with the number of closures around itself. */
  datatype Enclosing = Enclosing(name: Name, depth: nat, loop: bool)

  predicate Takes(e: Enclosing, lab: Name, continues: bool) {
    (lab == NO_LABEL || e.name == lab) && (continues ==> e.loop)
  }

  predicate HasTarget(es: seq<Enclosing>, lab: Name, continues: bool) {
    exists i :: 0 <= i < |es| && Takes(es[i], lab, continues)
  }

  /** The innermost target stands outside the closure the jump stands in. */
  predicate LeavesClosure(es: seq<Enclosing>, lab: Name, continues: bool, d: nat) {
    exists i ::
      && 0 <= i < |es| && Takes(es[i], lab, continues) && es[i].depth != d
      && forall j :: i < j < |es| ==> !Takes(es[j], lab, continues)
  }

  /** The statement cannot become several: it is no `try`, and none of the jumps and
      returns that leave a closure. */
  predicate StaysOne(s: Stmt, d: nat, es: seq<Enclosing>)
    decreases s
  {
    match s
    case Try(_, _, _) => false
    case Return(_) => d == 0
    case Break(l) => !LeavesClosure(es, l, false, d)
    case Continue(l) => !LeavesClosure(es, l, true, d)
    case Labeled(l, inner) => l != NO_LABEL || StaysOne(inner, d, es)
    case _ => true
  }

  predicate OneAtMost(header: Block, d: nat, es: seq<Enclosing>) {
    header.Nil? || (header.tail.Nil? && StaysOne(header.head, d, es))
  }

  /** Every jump has an enclosing target, no value is returned inside `try` from a
      function without results and none is missing from one with unnamed results, and
      every header is one statement at most. `d` counts the closures around. */
  predicate Lowers(slots: Slots, s: Stmt, d: nat, es: seq<Enclosing>, lab: Name)
    decreases s
  {
    match s
    case Break(l) => HasTarget(es, l, false)
    case Continue(l) => HasTarget(es, l, true)
    case Return(vs) => d == 0 || (if vs == [] then slots.Named? || slots.count == 0 else SlotCount(slots) > 0)
    case Scope(body) => LowersBlock(slots, body, d, es)
    case If(init, _, thn, els) =>
      && OneAtMost(init, d, es) && LowersBlock(slots, init, d, es)
      && LowersBlock(slots, thn, d, es) && LowersBlock(slots, els, d, es)
    case For(init, _, post, body) =>
      && OneAtMost(init, d, es) && LowersBlock(slots, init, d, es)
      && OneAtMost(post, d, es) && LowersBlock(slots, post, d, es)
      && LowersBlock(slots, body, d, es + [Enclosing(lab, d, true)])
    case Range(_, _, _, body) => LowersBlock(slots, body, d, es + [Enclosing(lab, d, true)])
    case Switch(init, _, clauses) =>
      && OneAtMost(init, d, es) && LowersBlock(slots, init, d, es)
      && LowersClauses(slots, clauses, d, es + [Enclosing(lab, d, false)])
    case Labeled(l, inner) => Lowers(slots, inner, d, es, l)
    case Try(body, handler, finalizer) =>
      && LowersBlock(slots, body, d + 1, es) && LowersClosure(slots, handler, d + 1, es)
      && LowersClosure(slots, finalizer, d + 1, es)
    case _ => true
  }

  predicate LowersBlock(slots: Slots, b: Block, d: nat, es: seq<Enclosing>)
    decreases b
  {
    b.Cons? ==> Lowers(slots, b.head, d, es, NO_LABEL) && LowersBlock(slots, b.tail, d, es)
  }

  predicate LowersClauses(slots: Slots, cs: Clauses, d: nat, es: seq<Enclosing>)
    decreases cs
  {
    cs.Clause? ==> LowersBlock(slots, cs.body, d, es) && LowersClauses(slots, cs.rest, d, es)
  }

  predicate LowersClosure(slots: Slots, c: Closure, d: nat, es: seq<Enclosing>)
    decreases c
  {
    c.Func? ==> LowersBlock(slots, c.body, d, es)
  }

  // ----- targets -----

  function Around(ts: seq<Target>): seq<Enclosing> {
    seq(|ts|, i requires 0 <= i < |ts| => Enclosing(ts[i].name, ts[i].depth, ts[i].continueCode != 0))
  }

  lemma AroundMore(ts: seq<Target>, t: Target)
    ensures Around(ts + [t]) == Around(ts) + [Enclosing(t.name, t.depth, t.continueCode != 0)]
  {}

  lemma BreakFound(ts: seq<Target>, l: Name, d: nat)
    ensures var i := FindBreak(ts, l);
            && (i >= 0 <==> HasTarget(Around(ts), l, false))
            && (i >= 0 ==> (ts[i].depth != d <==> LeavesClosure(Around(ts), l, false, d)))
  {
    var i, es := FindBreak(ts, l), Around(ts);
    FindBreakFinds(ts, l);
    if i >= 0 { assert Takes(es[i], l, false); }
    assert forall j :: i < j < |es| ==> !Takes(es[j], l, false);
  }

  lemma ContinueFound(ts: seq<Target>, l: Name, d: nat)
    ensures var i := FindContinue(ts, l);
            && (i >= 0 <==> HasTarget(Around(ts), l, true))
            && (i >= 0 ==> (ts[i].depth != d <==> LeavesClosure(Around(ts), l, true, d)))
  {
    var i, es := FindContinue(ts, l), Around(ts);
    FindContinueFinds(ts, l);
    if i >= 0 { assert Takes(es[i], l, true); }
    assert forall j :: i < j < |es| ==> !Takes(es[j], l, true);
  }

  // ----- how many statements come out -----

  lemma {:induction false} LengthAppend(a: Block, b: Block)
    ensures Length(Append(a, b)) == Length(a) + Length(b)
    decreases a
  {
    if a.Cons? { LengthAppend(a.tail, b); }
  }

  /** One statement comes out of one that stays one, more out of any other. */
  lemma {:induction false} StmtLength(slots: Slots, scoped: bool, s: Stmt, d: nat, ts: seq<Target>, lab: Name, n: int,
                                      k: nat)
    ensures var low := LowerStmt(slots, scoped, s, d, ts, lab, n, k);
            && Length(low.code) >= 1
            && (low.ok ==> (Length(low.code) == 1 <==> StaysOne(s, d, Around(ts))))
    decreases s
  {
    if s.Break? { BreakFound(ts, s.to, d); }
    else if s.Continue? { ContinueFound(ts, s.to, d); }
    else if s.Labeled? { StmtLength(slots, scoped, s.stmt, d, ts, s.lab, n, k); }
    else if s.Try? { TryLength(slots, scoped, s, d, ts, n, k); }
  }

  lemma TryLength(slots: Slots, scoped: bool, s: Stmt, d: nat, ts: seq<Target>, n: int, k: nat)
    requires s.Try?
    ensures Length(LowerTry(slots, scoped, s, d, ts, n, k).code) >= 2
  {
    var tests, last := Tests(ts, |ts|, d, false, false), Single(Tail(d));
    LengthAppend(tests, last);
    assert Length(last) == 1 + Length(Nil) == 1;
    var code := LowerTry(slots, scoped, s, d, ts, n, k).code;
    assert code == Cons(code.head, Append(tests, last));
    assert Length(code) == 1 + Length(Append(tests, last));
  }

  lemma HeaderLength(slots: Slots, scoped: bool, b: Block, d: nat, ts: seq<Target>, n: int, k: nat)
    ensures var low := LowerBlock(slots, scoped, b, d, ts, n, k);
            low.ok ==> (SimpleHeader(b, low.code) <==> OneAtMost(b, d, Around(ts)))
  {
    if b.Cons? {
      var first := LowerStmt(slots, scoped, b.head, d, ts, NO_LABEL, n, k);
      var rest := LowerBlock(slots, scoped, b.tail, d, ts, first.nextCode, first.nextTemp);
      StmtLength(slots, scoped, b.head, d, ts, NO_LABEL, n, k);
      LengthAppend(first.code, rest.code);
      if b.tail.Cons? {
        var t := LowerStmt(slots, scoped, b.tail.head, d, ts, NO_LABEL, first.nextCode, first.nextTemp);
        StmtLength(slots, scoped, b.tail.head, d, ts, NO_LABEL, first.nextCode, first.nextTemp);
        LengthAppend(t.code, LowerBlock(slots, scoped, b.tail.tail, d, ts, t.nextCode, t.nextTemp).code);
      }
    }
  }

  // ----- acceptance -----

  lemma {:induction false} StmtLowers(slots: Slots, scoped: bool, s: Stmt, d: nat, ts: seq<Target>, lab: Name, n: int,
                                      k: nat)
    requires n >= FIRST_CODE
    ensures LowerStmt(slots, scoped, s, d, ts, lab, n, k).ok <==> Lowers(slots, s, d, Around(ts), lab)
    decreases s, 1
  {
    if s.Break? { BreakFound(ts, s.to, d); }
    else if s.Continue? { ContinueFound(ts, s.to, d); }
    else if s.Scope? { BlockLowers(slots, scoped, s.body, d, ts, n, k); }
    else if s.If? { IfLowers(slots, scoped, s, d, ts, n, k); }
    else if s.For? { ForLowers(slots, scoped, s, d, ts, lab, n, k); }
    else if s.Range? {
      AroundMore(ts, Target(lab, d, n, n + 1));
      BlockLowers(slots, scoped, s.body, d, ts + [Target(lab, d, n, n + 1)], n + 2, k);
    }
    else if s.Switch? { SwitchLowers(slots, scoped, s, d, ts, lab, n, k); }
    else if s.Labeled? { StmtLowers(slots, scoped, s.stmt, d, ts, s.lab, n, k); }
    else if s.Try? { TryLowers(slots, scoped, s, d, ts, n, k); }
  }

  lemma {:induction false} IfLowers(slots: Slots, scoped: bool, s: Stmt, d: nat, ts: seq<Target>, n: int, k: nat)
    requires s.If? && n >= FIRST_CODE
    ensures LowerIf(slots, scoped, s, d, ts, n, k).ok <==> Lowers(slots, s, d, Around(ts), NO_LABEL)
    decreases s, 0
  {
    var i := LowerBlock(slots, scoped, s.init, d, ts, n, k);
    var t := LowerBlock(slots, scoped, s.thn, d, ts, i.nextCode, i.nextTemp);
    LowerBlockGrows(slots, scoped, s.init, d, ts, n, k);
    LowerBlockGrows(slots, scoped, s.thn, d, ts, i.nextCode, i.nextTemp);
    BlockLowers(slots, scoped, s.init, d, ts, n, k);
    BlockLowers(slots, scoped, s.thn, d, ts, i.nextCode, i.nextTemp);
    BlockLowers(slots, scoped, s.els, d, ts, t.nextCode, t.nextTemp);
    HeaderLength(slots, scoped, s.init, d, ts, n, k);
  }

  lemma {:induction false} ForLowers(slots: Slots, scoped: bool, s: Stmt, d: nat, ts: seq<Target>, lab: Name, n: int,
                                     k: nat)
    requires s.For? && n >= FIRST_CODE
    ensures LowerFor(slots, scoped, s, d, ts, lab, n, k).ok <==> Lowers(slots, s, d, Around(ts), lab)
    decreases s, 0
  {
    var i := LowerBlock(slots, scoped, s.init, d, ts, n, k);
    var p := LowerBlock(slots, scoped, s.post, d, ts, i.nextCode, i.nextTemp);
    var target := Target(lab, d, p.nextCode, p.nextCode + 1);
    LowerBlockGrows(slots, scoped, s.init, d, ts, n, k);
    LowerBlockGrows(slots, scoped, s.post, d, ts, i.nextCode, i.nextTemp);
    AroundMore(ts, target);
    BlockLowers(slots, scoped, s.init, d, ts, n, k);
    BlockLowers(slots, scoped, s.post, d, ts, i.nextCode, i.nextTemp);
    BlockLowers(slots, scoped, s.body, d, ts + [target], p.nextCode + 2, p.nextTemp);
    HeaderLength(slots, scoped, s.init, d, ts, n, k);
    HeaderLength(slots, scoped, s.post, d, ts, i.nextCode, i.nextTemp);
  }

  lemma {:induction false} SwitchLowers(slots: Slots, scoped: bool, s: Stmt, d: nat, ts: seq<Target>, lab: Name, n: int,
                                        k: nat)
    requires s.Switch? && n >= FIRST_CODE
    ensures LowerSwitch(slots, scoped, s, d, ts, lab, n, k).ok <==> Lowers(slots, s, d, Around(ts), lab)
    decreases s, 0
  {
    var i := LowerBlock(slots, scoped, s.init, d, ts, n, k);
    var target := Target(lab, d, i.nextCode, 0);
    LowerBlockGrows(slots, scoped, s.init, d, ts, n, k);
    AroundMore(ts, target);
    BlockLowers(slots, scoped, s.init, d, ts, n, k);
    ClausesLower(slots, scoped, s.clauses, d, ts + [target], i.nextCode + 1, i.nextTemp);
    HeaderLength(slots, scoped, s.init, d, ts, n, k);
  }

  lemma {:induction false} TryLowers(slots: Slots, scoped: bool, s: Stmt, d: nat, ts: seq<Target>, n: int, k: nat)
    requires s.Try? && n >= FIRST_CODE
    ensures LowerTry(slots, scoped, s, d, ts, n, k).ok <==> Lowers(slots, s, d, Around(ts), NO_LABEL)
    decreases s, 0
  {
    var b := LowerBlock(slots, scoped, s.body, d + 1, ts, n, k);
    var h := LowerClosure(slots, scoped, s.handler, d + 1, ts, b.nextCode, b.nextTemp);
    LowerBlockGrows(slots, scoped, s.body, d + 1, ts, n, k);
    BlockLowers(slots, scoped, s.body, d + 1, ts, n, k);
    if s.handler.Func? {
      LowerBlockGrows(slots, scoped, s.handler.body, d + 1, ts, b.nextCode, b.nextTemp);
      BlockLowers(slots, scoped, s.handler.body, d + 1, ts, b.nextCode, b.nextTemp);
    }
    if s.finalizer.Func? { BlockLowers(slots, scoped, s.finalizer.body, d + 1, ts, h.nextCode, h.nextTemp); }
  }

  lemma {:induction false} BlockLowers(slots: Slots, scoped: bool, b: Block, d: nat, ts: seq<Target>, n: int, k: nat)
    requires n >= FIRST_CODE
    ensures LowerBlock(slots, scoped, b, d, ts, n, k).ok <==> LowersBlock(slots, b, d, Around(ts))
    decreases b, 0
  {
    if b.Cons? {
      var first := LowerStmt(slots, scoped, b.head, d, ts, NO_LABEL, n, k);
      LowerGrows(slots, scoped, b.head, d, ts, NO_LABEL, n, k);
      StmtLowers(slots, scoped, b.head, d, ts, NO_LABEL, n, k);
      BlockLowers(slots, scoped, b.tail, d, ts, first.nextCode, first.nextTemp);
    }
  }

  lemma {:induction false} ClausesLower(slots: Slots, scoped: bool, cs: Clauses, d: nat, ts: seq<Target>, n: int,
                                        k: nat)
    requires n >= FIRST_CODE
    ensures LowerClauses(slots, scoped, cs, d, ts, n, k).ok <==> LowersClauses(slots, cs, d, Around(ts))
    decreases cs, 0
  {
    if cs.Clause? {
      var b := LowerBlock(slots, scoped, cs.body, d, ts, n, k);
      LowerBlockGrows(slots, scoped, cs.body, d, ts, n, k);
      BlockLowers(slots, scoped, cs.body, d, ts, n, k);
      ClausesLower(slots, scoped, cs.rest, d, ts, b.nextCode, b.nextTemp);
    }
  }
}
