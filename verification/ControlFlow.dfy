/** The lowering pass as the compiler runs it: one object per function whose
    counters and error flag the traversal updates
    (internal/compiler/control_flow.go). Every method is proved equal to the
    functions of `Lowering`, on which meaning preservation is proved. */
module ControlFlow {
  import opened Syntax
  import opened Lowering
  import opened Legal
  import opened Terminating
  import opened FunctionLowering
  import opened Lowerable
  import opened DeferScope

  class Pass {
    const slots: Slots
    var nextCode: int
    var nextTemp: nat
    var used: bool
    var scopedDefer: bool
    var failed: bool

    constructor (slots: Slots)
      ensures this.slots == slots
      ensures nextCode == FIRST_CODE && nextTemp == 0 && !used && !scopedDefer && !failed
    {
      this.slots := slots;
      nextCode, nextTemp := FIRST_CODE, 0;
      used, scopedDefer, failed := false, false, false;
    }

    /** Target of a jump, innermost first. */
    method FindTarget(ts: seq<Target>, to: Name, isContinue: bool) returns (found: int)
      ensures found == if isContinue then FindContinue(ts, to) else FindBreak(ts, to)
    {
      var i := |ts|;
      assert ts[..i] == ts;
      while i > 0
        invariant 0 <= i <= |ts|
        invariant FindBreak(ts[..i], to) == FindBreak(ts, to) || isContinue
        invariant FindContinue(ts[..i], to) == FindContinue(ts, to) || !isContinue
      {
        assert ts[..i][..i - 1] == ts[..i - 1];
        i := i - 1;
        if to == NO_LABEL || to == ts[i].name {
          if !isContinue || ts[i].continueCode != 0 { return i; }
        }
      }
      return -1;
    }

    /** The tests emitted after a call of Try. */
    method EmitTests(ts: seq<Target>, depth: nat) returns (output: Block)
      ensures output == Tests(ts, |ts|, depth, false, false)
    {
      output := Nil;
      var brk, cont := false, false;
      var i := |ts|;
      while i > 0
        invariant 0 <= i <= |ts|
        invariant Append(output, Tests(ts, i, depth, brk, cont)) == Tests(ts, |ts|, depth, false, false)
      {
        ghost var before, b0, c0 := output, brk, cont;
        i := i - 1;
        var t := ts[i];
        if t.depth == depth {
          if !brk || t.name != NO_LABEL {
            output := Append(output, Single(TestBreak(t)));
            brk := true;
          }
          if t.continueCode != 0 && (!cont || t.name != NO_LABEL) {
            output := Append(output, Single(TestContinue(t)));
            cont := true;
          }
        }
        EmittedOne(before, t, depth, b0, c0, Tests(ts, i, depth, brk, cont));
      }
      AppendNil(output);
    }

    method LowerReturnStmt(es: seq<Expr>, depth: nat) returns (code: Block)
      modifies this`failed
      ensures var low := LowerReturn(slots, es, depth, nextCode, nextTemp);
              code == low.code && failed == (old(failed) || !low.ok)
    {
      if depth == 0 { return Single(Return(es)); }
      code := Nil;
      if es != [] {
        if SlotCount(slots) == 0 {
          failed := true;
          return Single(Return(es));
        }
        code := Single(SetSlots(es));
        AppendOne(SetSlots(es), Signal(RETURN_CODE));
      } else if slots.Unnamed? && slots.count > 0 {
        failed := true;
      }
      code := Append(code, Signal(RETURN_CODE));
    }

    method LowerJump(s: Stmt, depth: nat, ts: seq<Target>) returns (code: Block)
      requires s.Break? || s.Continue?
      modifies this`failed
      ensures var i := if s.Continue? then FindContinue(ts, s.to) else FindBreak(ts, s.to);
              && failed == (old(failed) || i < 0)
              && code == if i < 0 then Single(s)
                         else Jump(ts, i, if s.Continue? then ts[i].continueCode else ts[i].breakCode, depth, s)
    {
      var i := FindTarget(ts, s.to, s.Continue?);
      if i < 0 {
        failed := true;
        return Single(s);
      }
      code := Jump(ts, i, if s.Continue? then ts[i].continueCode else ts[i].breakCode, depth, s);
    }

    /** What one call of the pass changes: the counters advance as in the
        specification, the flags record what it met. */
    twostate predicate Advanced(low: Low, code: Block, tries: bool, deepDefers: bool)
      reads this
    {
      && code == low.code && nextCode == low.nextCode && nextTemp == low.nextTemp
      && failed == (old(failed) || !low.ok)
      && used == (old(used) || tries)
      && scopedDefer == (old(scopedDefer) || deepDefers)
    }

    method StmtCode(s: Stmt, depth: nat, ts: seq<Target>, lab: Name) returns (code: Block)
      modifies this
      ensures Advanced(LowerStmt(slots, false, s, depth, ts, lab, old(nextCode), old(nextTemp)), code,
                       UsesTry(s), DeepDefer(s, depth))
      decreases s, 1
    {
      code := Single(s);
      if s.Return? { code := LowerReturnStmt(s.es, depth); }
      else if s.Break? || s.Continue? { code := LowerJump(s, depth, ts); }
      else if s.Scope? {
        var b := BlockCode(s.body, depth, ts);
        code := Single(Scope(b));
      }
      else if s.If? { code := IfCode(s, depth, ts); }
      else if s.For? { code := ForCode(s, depth, ts, lab); }
      else if s.Range? { code := RangeCode(s, depth, ts, lab); }
      else if s.Switch? { code := SwitchCode(s, depth, ts, lab); }
      else if s.Labeled? {
        var c := StmtCode(s.stmt, depth, ts, s.lab);
        code := Wrapped(c, s.lab);
      }
      else if s.Defer? { scopedDefer := scopedDefer || depth > 0; }
      else if s.Try? { code := TryCode(s, depth, ts); }
    }

    method RangeCode(s: Stmt, depth: nat, ts: seq<Target>, lab: Name) returns (code: Block)
      requires s.Range?
      modifies this
      ensures Advanced(LowerStmt(slots, false, s, depth, ts, lab, old(nextCode), old(nextTemp)), code, UsesTry(s),
                       DeepDefer(s, depth))
      decreases s, 0
    {
      var target := Target(lab, depth, nextCode, nextCode + 1);
      nextCode := nextCode + 2;
      var b := BlockCode(s.body, depth, ts + [target]);
      code := Single(Range(s.names, s.lhs, s.over, b));
    }

    /** A header statement; more or fewer than one generated statement is an error. */
    method HeaderCode(b: Block, depth: nat, ts: seq<Target>) returns (code: Block)
      modifies this
      ensures var low := LowerBlock(slots, false, b, depth, ts, old(nextCode), old(nextTemp));
              Advanced(low.(ok := low.ok && SimpleHeader(b, low.code)), code, BlockUsesTry(b), DeepDeferBlock(b, depth))
      decreases b, 1
    {
      code := BlockCode(b, depth, ts);
      if b != Nil && Length(code) != 1 { failed := true; }
    }

    method IfCode(s: Stmt, depth: nat, ts: seq<Target>) returns (code: Block)
      requires s.If?
      modifies this
      ensures Advanced(LowerIf(slots, false, s, depth, ts, old(nextCode), old(nextTemp)), code, UsesTry(s),
                       DeepDefer(s, depth))
      decreases s, 0
    {
      var i := HeaderCode(s.init, depth, ts);
      var t := BlockCode(s.thn, depth, ts);
      var e := BlockCode(s.els, depth, ts);
      code := Single(If(i, s.test, t, e));
    }

    method ForCode(s: Stmt, depth: nat, ts: seq<Target>, lab: Name) returns (code: Block)
      requires s.For?
      modifies this
      ensures Advanced(LowerFor(slots, false, s, depth, ts, lab, old(nextCode), old(nextTemp)), code, UsesTry(s),
                       DeepDefer(s, depth))
      decreases s, 0
    {
      var i := HeaderCode(s.init, depth, ts);
      var p := HeaderCode(s.post, depth, ts);
      var target := Target(lab, depth, nextCode, nextCode + 1);
      nextCode := nextCode + 2;
      var b := BlockCode(s.body, depth, ts + [target]);
      code := Single(For(i, s.cond, p, b));
    }

    method SwitchCode(s: Stmt, depth: nat, ts: seq<Target>, lab: Name) returns (code: Block)
      requires s.Switch?
      modifies this
      ensures Advanced(LowerSwitch(slots, false, s, depth, ts, lab, old(nextCode), old(nextTemp)), code, UsesTry(s),
                       DeepDefer(s, depth))
      decreases s, 0
    {
      var i := HeaderCode(s.init, depth, ts);
      var target := Target(lab, depth, nextCode, 0);
      nextCode := nextCode + 1;
      var cs := ClausesCode(s.clauses, depth, ts + [target]);
      code := Single(Switch(i, s.tag, cs));
    }

    method ClausesCode(cs: Clauses, depth: nat, ts: seq<Target>) returns (code: Clauses)
      modifies this
      ensures var low := LowerClauses(slots, false, cs, depth, ts, old(nextCode), old(nextTemp));
              && code == low.clauses
              && Advanced(Low(Nil, low.nextCode, low.nextTemp, low.ok), Nil, ClausesUseTry(cs),
                          DeepDeferClauses(cs, depth))
      decreases cs, 1
    {
      match cs
      case NoClauses => code := NoClauses;
      case Clause(isDefault, guards, body, rest) =>
        var b := BlockCode(body, depth, ts);
        var r := ClausesCode(rest, depth, ts);
        code := Clause(isDefault, guards, b, r);
    }

    method ClosureCode(c: Closure, depth: nat, ts: seq<Target>) returns (code: Block)
      modifies this
      ensures Advanced(LowerClosure(slots, false, c, depth, ts, old(nextCode), old(nextTemp)), code,
                       c.Func? && BlockUsesTry(c.body), DeepDeferClosure(c, depth))
      decreases c, 1
    {
      match c
      case NoClosure => code := Nil;
      case Func(body) => code := BlockCode(body, depth, ts);
    }

    method TryCode(s: Stmt, depth: nat, ts: seq<Target>) returns (code: Block)
      requires s.Try?
      modifies this
      ensures Advanced(LowerTry(slots, false, s, depth, ts, old(nextCode), old(nextTemp)), code, true,
                       DeepDefer(s, depth))
      decreases s, 0
    {
      used := true;
      var b := BlockCode(s.body, depth + 1, ts);
      var h := ClosureCode(s.handler, depth + 1, ts);
      var f := ClosureCode(s.finalizer, depth + 1, ts);
      if s.finalizer.Func? { nextTemp := nextTemp + 1; }
      var tests := EmitTests(ts, depth);
      code := Cons(TryCall(s, b, h, f, nextTemp), Append(tests, Single(Tail(depth))));
    }

    method BlockCode(b: Block, depth: nat, ts: seq<Target>) returns (output: Block)
      modifies this
      ensures Advanced(LowerBlock(slots, false, b, depth, ts, old(nextCode), old(nextTemp)), output,
                       BlockUsesTry(b), DeepDeferBlock(b, depth))
      decreases b, 0
    {
      output := Nil;
      var rest := b;
      while rest.Cons?
        invariant rest == b || rest < b
        invariant var all := LowerBlock(slots, false, b, depth, ts, old(nextCode), old(nextTemp));
                  var left := LowerBlock(slots, false, rest, depth, ts, nextCode, nextTemp);
                  && all == left.(code := Append(output, left.code), ok := all.ok)
                  && (old(failed) || !all.ok) == (failed || !left.ok)
        invariant (old(used) || BlockUsesTry(b)) == (used || BlockUsesTry(rest))
        invariant (old(scopedDefer) || DeepDeferBlock(b, depth)) == (scopedDefer || DeepDeferBlock(rest, depth))
        decreases rest
      {
        ghost var before := output;
        var c := StmtCode(rest.head, depth, ts, NO_LABEL);
        output := Append(output, c);
        rest := rest.tail;
        AppendAssociates(before, c, LowerBlock(slots, false, rest, depth, ts, nextCode, nextTemp).code);
      }
      AppendNil(output);
    }
  }

  lemma EmittedOne(output: Block, t: Target, depth: nat, brk: bool, cont: bool, rest: Block)
    ensures var b := t.depth == depth && (!brk || t.name != NO_LABEL);
            var c := t.depth == depth && t.continueCode != 0 && (!cont || t.name != NO_LABEL);
            var withBreak := if b then Append(output, Single(TestBreak(t))) else output;
            var withBoth := if c then Append(withBreak, Single(TestContinue(t))) else withBreak;
            var tail := if c then Cons(TestContinue(t), rest) else rest;
            Append(withBoth, rest) == Append(output, if b then Cons(TestBreak(t), tail) else tail)
  {
    var b := t.depth == depth && (!brk || t.name != NO_LABEL);
    var c := t.depth == depth && t.continueCode != 0 && (!cont || t.name != NO_LABEL);
    var withBreak := if b then Append(output, Single(TestBreak(t))) else output;
    var tail := if c then Cons(TestContinue(t), rest) else rest;
    AppendAssociates(withBreak, Single(TestContinue(t)), rest);
    AppendAssociates(output, Single(TestBreak(t)), tail);
    AppendOne(TestContinue(t), rest);
    AppendOne(TestBreak(t), tail);
  }

  lemma AppendOne(s: Stmt, b: Block)
    ensures Append(Single(s), b) == Cons(s, b)
  {
    assert Append(Nil, b) == b;
  }

  /** Lowers a function in place of `lowerFunctionControl`: traverse, route the
      defers, declare the signal, mark the unreachable end. */
  method LowerFunctionBody(slots: Slots, body: Block) returns (code: Block, ok: bool)
    requires LegalBlock(slots, body, {}, false)
    ensures (code, ok) == LowerFunction(slots, body)
    ensures ok <==> LowersBlock(slots, body, 0, [])
  {
    LowersExactly(slots, body);
    var pass := new Pass(slots);
    code := pass.BlockCode(body, 0, []);
    ok := !pass.failed;
    if pass.scopedDefer {
      ScopeLoweredBlock(slots, body, 0, [], {}, false, FIRST_CODE, 0);
      code := Cons(DeferRunDefers, ScopeBlock(code));
    }
    if pass.used {
      code := Cons(DeclareSignal(ReturnLocals(slots)), code);
      if SlotCount(slots) > 0 && BlockTerminates(body) { code := Append(code, Unreachable()); }
    }
  }
}
