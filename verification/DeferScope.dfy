/** Routing every `defer` of a function through one list
    (internal/compiler/defer_scope.go): the rewrite of generated code, and what
    `RunDefers` does with the list (internal/compiler/runtime_emit.go). */
module DeferScope {
  import opened Syntax
  import opened Machine
  import opened Lowering
  import opened Legal

  function ScopeStmt(s: Stmt): Stmt
    decreases s
  {
    match s
    case Defer(e) => Register(e)
    case Scope(body) => Scope(ScopeBlock(body))
    case If(init, test, thn, els) => If(ScopeBlock(init), test, ScopeBlock(thn), ScopeBlock(els))
    case For(init, cond, post, body) => For(ScopeBlock(init), cond, ScopeBlock(post), ScopeBlock(body))
    case Range(names, lhs, over, body) => Range(names, lhs, over, ScopeBlock(body))
    case Switch(init, tag, clauses) => Switch(ScopeBlock(init), tag, ScopeClauses(clauses))
    case Labeled(l, inner) => Labeled(l, ScopeStmt(inner))
    case RtTry(body, handler, finalizer) => RtTry(ScopeBlock(body), ScopeClosure(handler), ScopeClosure(finalizer))
    case OnFlow(code, thn) => OnFlow(code, ScopeBlock(thn))
    case OnAnyFlow(thn) => OnAnyFlow(ScopeBlock(thn))
    case _ => s
  }

  function ScopeBlock(b: Block): Block
    decreases b
  {
    match b
    case Nil => Nil
    case Cons(h, t) => Cons(ScopeStmt(h), ScopeBlock(t))
  }

  function ScopeClauses(cs: Clauses): Clauses
    decreases cs
  {
    match cs
    case NoClauses => NoClauses
    case Clause(isDefault, guards, body, rest) => Clause(isDefault, guards, ScopeBlock(body), ScopeClauses(rest))
  }

  function ScopeClosure(c: Closure): Closure
    decreases c
  {
    match c
    case NoClosure => NoClosure
    case Func(body) => Func(ScopeBlock(body))
  }

  lemma {:induction false} ScopeAppend(a: Block, b: Block)
    ensures ScopeBlock(Append(a, b)) == Append(ScopeBlock(a), ScopeBlock(b))
  {
    if a.Cons? { ScopeAppend(a.tail, b); }
  }

  lemma {:induction false} ScopeLength(b: Block)
    ensures Length(ScopeBlock(b)) == Length(b)
  {
    if b.Cons? { ScopeLength(b.tail); }
  }

  lemma {:induction false} ScopeTests(ts: seq<Target>, i: nat, depth: nat, brk: bool, cont: bool)
    requires i <= |ts|
    ensures ScopeBlock(Tests(ts, i, depth, brk, cont)) == Tests(ts, i, depth, brk, cont)
    decreases i
  {
    if i > 0 {
      var t := ts[i - 1];
      if t.depth != depth { ScopeTests(ts, i - 1, depth, brk, cont); }
      else {
        var c := t.continueCode != 0 && (!cont || t.name != NO_LABEL);
        ScopeTests(ts, i - 1, depth, true, cont || c);
        ScopeJump(Break(t.name));
        ScopeJump(Continue(t.name));
        assert ScopeStmt(TestBreak(t)) == TestBreak(t) && ScopeStmt(TestContinue(t)) == TestContinue(t);
      }
    }
  }

  lemma ScopeJump(jump: Stmt)
    requires jump.Break? || jump.Continue?
    ensures ScopeBlock(Cons(SetFlow(0), Single(jump))) == Cons(SetFlow(0), Single(jump))
  {
    assert ScopeBlock(Single(jump)) == Single(jump);
  }

  ghost function Scoped(low: Low): Low {
    low.(code := ScopeBlock(low.code))
  }

  lemma ScopeSingle(s: Stmt)
    ensures ScopeBlock(Single(s)) == Single(ScopeStmt(s))
  {
    assert ScopeBlock(Nil) == Nil;
  }

  lemma ScopeSignal(code: int)
    ensures ScopeBlock(Signal(code)) == Signal(code)
  {
    ScopeSingle(Return([]));
  }

  /** Rewriting the defers of unscoped code yields the scoped code. */
  lemma {:induction false} ScopeLowered(slots: Slots, s: Stmt, d: nat, ts: seq<Target>, lab: Name, active: set<Name>,
                                        fall: bool, n: int, k: nat)
    requires LegalStmt(slots, s, lab, active, fall)
    ensures LowerStmt(slots, true, s, d, ts, lab, n, k) == Scoped(LowerStmt(slots, false, s, d, ts, lab, n, k))
    decreases s, 1
  {
    if s.Scope? {
      ScopeLoweredBlock(slots, s.body, d, ts, active, false, n, k);
      ScopeSingle(Scope(LowerBlock(slots, false, s.body, d, ts, n, k).code));
    } else if s.If? { ScopeIf(slots, s, d, ts, active, n, k); }
    else if s.For? { ScopeFor(slots, s, d, ts, lab, active, n, k); }
    else if s.Range? {
      var us := ts + [Target(lab, d, n, n + 1)];
      ScopeLoweredBlock(slots, s.body, d, us, With(lab, active), false, n + 2, k);
      ScopeSingle(Range(s.names, s.lhs, s.over, LowerBlock(slots, false, s.body, d, us, n + 2, k).code));
    } else if s.Switch? { ScopeSwitch(slots, s, d, ts, lab, active, n, k); }
    else if s.Labeled? {
      ScopeLowered(slots, s.stmt, d, ts, s.lab, active, false, n, k);
      ScopeWrapped(LowerStmt(slots, false, s.stmt, d, ts, s.lab, n, k).code, s.lab);
    } else if s.Try? { ScopeTry(slots, s, d, ts, n, k); }
    else { ScopeLeaf(slots, s, d, ts, lab, n, k); }
  }

  lemma ScopeLeaf(slots: Slots, s: Stmt, d: nat, ts: seq<Target>, lab: Name, n: int, k: nat)
    requires !s.Scope? && !s.If? && !s.For? && !s.Range? && !s.Switch? && !s.Labeled? && !s.Try?
    requires !s.RtTry? && !s.OnFlow? && !s.OnAnyFlow?
    ensures LowerStmt(slots, true, s, d, ts, lab, n, k) == Scoped(LowerStmt(slots, false, s, d, ts, lab, n, k))
  {
    ScopeSingle(s);
    ScopeSignal(RETURN_CODE);
    if s.Break? && FindBreak(ts, s.to) >= 0 { ScopeSignal(ts[FindBreak(ts, s.to)].breakCode); }
    if s.Continue? && FindContinue(ts, s.to) >= 0 { ScopeSignal(ts[FindContinue(ts, s.to)].continueCode); }
    if s.Return? {
      assert ScopeBlock(Cons(SetSlots(s.es), Signal(RETURN_CODE))) == Cons(SetSlots(s.es), Signal(RETURN_CODE));
    }
  }

  lemma ScopePrologue(temp: nat, code: Block)
    ensures ScopeBlock(FinalizerPrologue(temp, code)) == FinalizerPrologue(temp, ScopeBlock(code))
  {
    var c2 := Cons(DeferRestore(temp), code);
    var c1 := Cons(SetFlow(0), c2);
    assert ScopeBlock(c2) == Cons(DeferRestore(temp), ScopeBlock(code));
    assert ScopeBlock(c1) == Cons(SetFlow(0), ScopeBlock(c2));
    assert ScopeBlock(Cons(SaveFlow(temp), c1)) == Cons(SaveFlow(temp), ScopeBlock(c1));
  }

  lemma ScopeWrapped(code: Block, lab: Name)
    ensures ScopeBlock(Wrapped(code, lab)) == Wrapped(ScopeBlock(code), lab)
  {
    ScopeLength(code);
    if lab != NO_LABEL {
      ScopeSingle(Labeled(lab, if Length(code) == 1 then code.head else Scope(code)));
    }
  }

  lemma {:induction false} ScopeIf(slots: Slots, s: Stmt, d: nat, ts: seq<Target>, active: set<Name>, n: int, k: nat)
    requires s.If? && LegalStmt(slots, s, NO_LABEL, active, false)
    ensures LowerIf(slots, true, s, d, ts, n, k) == Scoped(LowerIf(slots, false, s, d, ts, n, k))
    decreases s, 0
  {
    var i := LowerBlock(slots, false, s.init, d, ts, n, k);
    var t := LowerBlock(slots, false, s.thn, d, ts, i.nextCode, i.nextTemp);
    var e := LowerBlock(slots, false, s.els, d, ts, t.nextCode, t.nextTemp);
    ScopeLoweredBlock(slots, s.init, d, ts, active, false, n, k);
    ScopeLoweredBlock(slots, s.thn, d, ts, active, false, i.nextCode, i.nextTemp);
    ScopeLoweredBlock(slots, s.els, d, ts, active, false, t.nextCode, t.nextTemp);
    ScopeSingle(If(i.code, s.test, t.code, e.code));
    ScopeLength(i.code);
  }

  lemma {:induction false} ScopeFor(slots: Slots, s: Stmt, d: nat, ts: seq<Target>, lab: Name, active: set<Name>,
                                    n: int, k: nat)
    requires s.For? && LegalStmt(slots, s, lab, active, false)
    ensures LowerFor(slots, true, s, d, ts, lab, n, k) == Scoped(LowerFor(slots, false, s, d, ts, lab, n, k))
    decreases s, 0
  {
    var i := LowerBlock(slots, false, s.init, d, ts, n, k);
    var p := LowerBlock(slots, false, s.post, d, ts, i.nextCode, i.nextTemp);
    var us := ts + [Target(lab, d, p.nextCode, p.nextCode + 1)];
    ScopeLoweredBlock(slots, s.init, d, ts, active, false, n, k);
    ScopeLoweredBlock(slots, s.post, d, ts, active, false, i.nextCode, i.nextTemp);
    ScopeLoweredBlock(slots, s.body, d, us, With(lab, active), false, p.nextCode + 2, p.nextTemp);
    ScopeSingle(For(i.code, s.cond, p.code, LowerBlock(slots, false, s.body, d, us, p.nextCode + 2, p.nextTemp).code));
    ScopeLength(i.code);
    ScopeLength(p.code);
  }

  lemma {:induction false} ScopeSwitch(slots: Slots, s: Stmt, d: nat, ts: seq<Target>, lab: Name, active: set<Name>,
                                       n: int, k: nat)
    requires s.Switch? && LegalStmt(slots, s, lab, active, false)
    ensures LowerSwitch(slots, true, s, d, ts, lab, n, k) == Scoped(LowerSwitch(slots, false, s, d, ts, lab, n, k))
    decreases s, 0
  {
    var i := LowerBlock(slots, false, s.init, d, ts, n, k);
    var us := ts + [Target(lab, d, i.nextCode, 0)];
    ScopeLoweredBlock(slots, s.init, d, ts, active, false, n, k);
    ScopeLoweredClauses(slots, s.clauses, d, us, With(lab, active), i.nextCode + 1, i.nextTemp);
    ScopeSingle(Switch(i.code, s.tag,
                       LowerClauses(slots, false, s.clauses, d, us, i.nextCode + 1, i.nextTemp).clauses));
    ScopeLength(i.code);
  }

  lemma {:induction false} ScopeTry(slots: Slots, s: Stmt, d: nat, ts: seq<Target>, n: int, k: nat)
    requires s.Try? && LegalStmt(slots, s, NO_LABEL, {}, false)
    ensures LowerTry(slots, true, s, d, ts, n, k) == Scoped(LowerTry(slots, false, s, d, ts, n, k))
    decreases s, 0
  {
    var b := LowerBlock(slots, false, s.body, d + 1, ts, n, k);
    var h := LowerClosure(slots, false, s.handler, d + 1, ts, b.nextCode, b.nextTemp);
    ScopeLoweredBlock(slots, s.body, d + 1, ts, {}, false, n, k);
    ScopeLoweredClosure(slots, s.handler, d + 1, ts, b.nextCode, b.nextTemp);
    ScopeLoweredClosure(slots, s.finalizer, d + 1, ts, h.nextCode, h.nextTemp);
    var f := LowerClosure(slots, false, s.finalizer, d + 1, ts, h.nextCode, h.nextTemp);
    var temp := if s.finalizer.NoClosure? then f.nextTemp else f.nextTemp + 1;
    assert LowerTry(slots, true, s, d, ts, n, k).code ==
           Cons(TryCall(s, ScopeBlock(b.code), ScopeBlock(h.code), ScopeBlock(f.code), temp),
                Append(Tests(ts, |ts|, d, false, false), Single(Tail(d))));
    ScopeCall(s, b.code, h.code, f.code, temp);
    ScopeAfterTry(ts, d);
    ScopeCons(TryCall(s, b.code, h.code, f.code, temp), Append(Tests(ts, |ts|, d, false, false), Single(Tail(d))));
  }

  lemma ScopeCons(h: Stmt, t: Block)
    ensures ScopeBlock(Cons(h, t)) == Cons(ScopeStmt(h), ScopeBlock(t))
  {}

  lemma ScopeCall(s: Stmt, body: Block, handler: Block, finalizer: Block, temp: nat)
    requires s.Try?
    ensures ScopeStmt(TryCall(s, body, handler, finalizer, temp)) ==
            TryCall(s, ScopeBlock(body), ScopeBlock(handler), ScopeBlock(finalizer), temp)
  {
    ScopePrologue(temp, finalizer);
    assert ScopeBlock(Cons(SetFlow(0), handler)) == Cons(SetFlow(0), ScopeBlock(handler));
    var call := TryCall(s, body, handler, finalizer, temp);
    assert ScopeStmt(call) == RtTry(ScopeBlock(call.body), ScopeClosure(call.handler), ScopeClosure(call.finalizer));
  }

  lemma {:induction false} ScopeLoweredClosure(slots: Slots, c: Closure, d: nat, ts: seq<Target>, n: int, k: nat)
    requires LegalClosure(slots, c)
    ensures LowerClosure(slots, true, c, d, ts, n, k) == Scoped(LowerClosure(slots, false, c, d, ts, n, k))
    decreases c, 0
  {
    if c.Func? { ScopeLoweredBlock(slots, c.body, d, ts, {}, false, n, k); }
  }

  lemma ScopeAfterTry(ts: seq<Target>, d: nat)
    ensures var code := Append(Tests(ts, |ts|, d, false, false), Single(Tail(d)));
            ScopeBlock(code) == code
  {
    var tests := Tests(ts, |ts|, d, false, false);
    ScopeTests(ts, |ts|, d, false, false);
    ScopeAppend(tests, Single(Tail(d)));
    ScopeSingle(Tail(d));
    ScopeSingle(Return([]));
    ScopeSingle(ReturnSlots);
  }

  lemma {:induction false} ScopeLoweredBlock(slots: Slots, b: Block, d: nat, ts: seq<Target>, active: set<Name>,
                                             fall: bool, n: int, k: nat)
    requires LegalBlock(slots, b, active, fall)
    ensures LowerBlock(slots, true, b, d, ts, n, k) == Scoped(LowerBlock(slots, false, b, d, ts, n, k))
    decreases b, 0
  {
    if b.Cons? {
      var first := LowerStmt(slots, false, b.head, d, ts, NO_LABEL, n, k);
      var rest := LowerBlock(slots, false, b.tail, d, ts, first.nextCode, first.nextTemp);
      ScopeLowered(slots, b.head, d, ts, NO_LABEL, active, fall && b.tail.Nil?, n, k);
      ScopeLoweredBlock(slots, b.tail, d, ts, active, fall, first.nextCode, first.nextTemp);
      ScopeAppend(first.code, rest.code);
    }
  }

  lemma {:induction false} ScopeLoweredClauses(slots: Slots, cs: Clauses, d: nat, ts: seq<Target>, active: set<Name>,
                                               n: int, k: nat)
    requires LegalClauses(slots, cs, active)
    ensures var low := LowerClauses(slots, false, cs, d, ts, n, k);
            LowerClauses(slots, true, cs, d, ts, n, k) == low.(clauses := ScopeClauses(low.clauses))
    decreases cs, 0
  {
    if cs.Clause? {
      var b := LowerBlock(slots, false, cs.body, d, ts, n, k);
      ScopeLoweredBlock(slots, cs.body, d, ts, active, true, n, k);
      ScopeLoweredClauses(slots, cs.rest, d, ts, active, b.nextCode, b.nextTemp);
    }
  }
}
