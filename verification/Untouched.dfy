/** Functions without `try` come out of the lowering as they went in
    (internal/compiler/control_flow.go, internal/compiler/defer_scope.go). */
module Untouched {
  import opened Syntax
  import opened Lowering
  import opened Legal
  import opened Lowerable
  import opened LoweringFacts
  import opened FunctionLowering
  import opened Terminating

  /** All targets stand in the function itself. */
  predicate Outermost(ts: seq<Target>) {
    forall i :: 0 <= i < |ts| ==> ts[i].depth == 0
  }

  lemma {:induction false} NoDeepDefer(s: Stmt)
    requires !UsesTry(s)
    ensures !DeepDefer(s, 0)
    decreases s
  {
    if s.Scope? { BlockNoDeepDefer(s.body); }
    else if s.If? {
      BlockNoDeepDefer(s.init);
      BlockNoDeepDefer(s.thn);
      BlockNoDeepDefer(s.els);
    }
    else if s.For? {
      BlockNoDeepDefer(s.init);
      BlockNoDeepDefer(s.post);
      BlockNoDeepDefer(s.body);
    }
    else if s.Range? { BlockNoDeepDefer(s.body); }
    else if s.Switch? {
      BlockNoDeepDefer(s.init);
      ClausesNoDeepDefer(s.clauses);
    }
    else if s.Labeled? { NoDeepDefer(s.stmt); }
  }

  lemma {:induction false} BlockNoDeepDefer(b: Block)
    requires !BlockUsesTry(b)
    ensures !DeepDeferBlock(b, 0)
    decreases b
  {
    if b.Cons? {
      NoDeepDefer(b.head);
      BlockNoDeepDefer(b.tail);
    }
  }

  lemma {:induction false} ClausesNoDeepDefer(cs: Clauses)
    requires !ClausesUseTry(cs)
    ensures !DeepDeferClauses(cs, 0)
    decreases cs
  {
    if cs.Clause? {
      BlockNoDeepDefer(cs.body);
      ClausesNoDeepDefer(cs.rest);
    }
  }

  lemma {:induction false} StmtUntouched(slots: Slots, s: Stmt, ts: seq<Target>, lab: Name, active: set<Name>,
                                         fall: bool, n: int, k: nat)
    requires !UsesTry(s) && LegalStmt(slots, s, lab, active, fall) && Outermost(ts)
    ensures LowerStmt(slots, false, s, 0, ts, lab, n, k).code == Single(s)
    decreases s
  {
    if s.Scope? { BlockUntouched(slots, s.body, ts, active, false, n, k); }
    else if s.If? {
      var i := LowerBlock(slots, false, s.init, 0, ts, n, k);
      var t := LowerBlock(slots, false, s.thn, 0, ts, i.nextCode, i.nextTemp);
      BlockUntouched(slots, s.init, ts, active, false, n, k);
      BlockUntouched(slots, s.thn, ts, active, false, i.nextCode, i.nextTemp);
      BlockUntouched(slots, s.els, ts, active, false, t.nextCode, t.nextTemp);
    }
    else if s.For? {
      var i := LowerBlock(slots, false, s.init, 0, ts, n, k);
      var p := LowerBlock(slots, false, s.post, 0, ts, i.nextCode, i.nextTemp);
      BlockUntouched(slots, s.init, ts, active, false, n, k);
      BlockUntouched(slots, s.post, ts, active, false, i.nextCode, i.nextTemp);
      BlockUntouched(slots, s.body, ts + [Target(lab, 0, p.nextCode, p.nextCode + 1)], With(lab, active), false,
                     p.nextCode + 2, p.nextTemp);
    }
    else if s.Range? {
      BlockUntouched(slots, s.body, ts + [Target(lab, 0, n, n + 1)], With(lab, active), false, n + 2, k);
    }
    else if s.Switch? {
      var i := LowerBlock(slots, false, s.init, 0, ts, n, k);
      BlockUntouched(slots, s.init, ts, active, false, n, k);
      ClausesUntouched(slots, s.clauses, ts + [Target(lab, 0, i.nextCode, 0)], With(lab, active), i.nextCode + 1,
                       i.nextTemp);
    }
    else if s.Labeled? {
      StmtUntouched(slots, s.stmt, ts, s.lab, active, false, n, k);
      assert Length(Single(s.stmt)) == 1 + Length(Nil);
    }
  }

  lemma {:induction false} BlockUntouched(slots: Slots, b: Block, ts: seq<Target>, active: set<Name>,
                                          fall: bool, n: int,
                                          k: nat)
    requires !BlockUsesTry(b) && LegalBlock(slots, b, active, fall) && Outermost(ts)
    ensures LowerBlock(slots, false, b, 0, ts, n, k).code == b
    decreases b
  {
    if b.Cons? {
      var first := LowerStmt(slots, false, b.head, 0, ts, NO_LABEL, n, k);
      StmtUntouched(slots, b.head, ts, NO_LABEL, active, fall && b.tail.Nil?, n, k);
      BlockUntouched(slots, b.tail, ts, active, fall, first.nextCode, first.nextTemp);
      assert Append(Single(b.head), b.tail) == Cons(b.head, Append(Nil, b.tail));
    }
  }

  lemma {:induction false} ClausesUntouched(slots: Slots, cs: Clauses, ts: seq<Target>, active: set<Name>, n: int,
                                            k: nat)
    requires !ClausesUseTry(cs) && LegalClauses(slots, cs, active) && Outermost(ts)
    ensures LowerClauses(slots, false, cs, 0, ts, n, k).clauses == cs
    decreases cs
  {
    if cs.Clause? {
      var b := LowerBlock(slots, false, cs.body, 0, ts, n, k);
      BlockUntouched(slots, cs.body, ts, active, true, n, k);
      ClausesUntouched(slots, cs.rest, ts, active, b.nextCode, b.nextTemp);
    }
  }

  /** A legal function without `try` is not changed, whatever else it contains. */
  lemma WithoutTry(slots: Slots, body: Block)
    requires LegalBlock(slots, body, {}, false) && !BlockUsesTry(body)
    ensures LowerFunction(slots, body).0 == body
  {
    BlockNoDeepDefer(body);
    BlockUntouched(slots, body, [], {}, false, FIRST_CODE, 0);
  }

  lemma {:induction false} AppendTerminates(a: Block, b: Block)
    requires b.Cons?
    ensures BlockTerminates(Append(a, b)) == BlockTerminates(b)
    decreases a
  {
    if a.Cons? { AppendTerminates(a.tail, b); }
  }

  /** A function with results that ended in a terminating statement still does, as Go
      demands: the calls and tests that have replaced its `try` do not count as one. */
  lemma StaysTerminated(slots: Slots, body: Block)
    requires LegalBlock(slots, body, {}, false) && SlotCount(slots) > 0 && BlockTerminates(body)
    ensures BlockTerminates(LowerFunction(slots, body).0)
  {
    if BlockUsesTry(body) {
      var scoped := DeepDeferBlock(body, 0);
      var low := LowerBlock(slots, scoped, body, 0, [], FIRST_CODE, 0).code;
      AppendTerminates(Cons(DeclareSignal(ReturnLocals(slots)), if scoped then Cons(DeferRunDefers, low) else low),
                       Unreachable());
    } else { WithoutTry(slots, body); }
  }
}
