/** Lowering of `try`, `return`, `break` and `continue` to closures and one
    integer signal (internal/compiler/control_flow.go). */
module Lowering {
  import opened Syntax

  datatype Target = Target(name: Name, depth: nat, breakCode: int, continueCode: int)

  /** What lowering a fragment yields: generated code, the next unused flow code
      and temporary number, and whether no error was reported. */
  datatype Low = Low(code: Block, nextCode: int, nextTemp: nat, ok: bool)

  datatype LowClauses = LowClauses(clauses: Clauses, nextCode: int, nextTemp: nat, ok: bool)

  const RETURN_CODE := 1
  const FIRST_CODE := 2

  /** The innermost target a `break` names, or -1. */
  function FindBreak(ts: seq<Target>, lab: Name): (i: int)
    ensures -1 <= i < |ts|
    decreases |ts|
  {
    if ts == [] then -1
    else
      var last := |ts| - 1;
      if lab == NO_LABEL || lab == ts[last].name then last else FindBreak(ts[..last], lab)
  }

  /** The innermost loop a `continue` names, or -1; switches are passed over. */
  function FindContinue(ts: seq<Target>, lab: Name): (i: int)
    ensures -1 <= i < |ts|
    ensures i >= 0 ==> ts[i].continueCode != 0
    decreases |ts|
  {
    if ts == [] then -1
    else
      var last := |ts| - 1;
      if (lab == NO_LABEL || lab == ts[last].name) && ts[last].continueCode != 0 then last
      else FindContinue(ts[..last], lab)
  }

  function Signal(code: int): Block {
    Cons(SetFlow(code), Single(Return([])))
  }

  function Jump(ts: seq<Target>, i: int, code: int, depth: nat, s: Stmt): Block
    requires 0 <= i < |ts|
  {
    if ts[i].depth != depth then Signal(code) else Single(s)
  }

  function TestBreak(t: Target): Stmt {
    OnFlow(t.breakCode, Cons(SetFlow(0), Single(Break(t.name))))
  }

  function TestContinue(t: Target): Stmt {
    OnFlow(t.continueCode, Cons(SetFlow(0), Single(Continue(t.name))))
  }

  /** Tests for the targets of this depth below position `i`, innermost first.
      Only the innermost gets an unlabelled jump. */
  function Tests(ts: seq<Target>, i: nat, depth: nat, brk: bool, cont: bool): Block
    requires i <= |ts|
    decreases i
  {
    if i == 0 then Nil
    else
      var t := ts[i - 1];
      if t.depth != depth then Tests(ts, i - 1, depth, brk, cont)
      else
        var b := !brk || t.name != NO_LABEL;
        var c := t.continueCode != 0 && (!cont || t.name != NO_LABEL);
        var rest := Tests(ts, i - 1, depth, true, cont || c);
        var rest' := if c then Cons(TestContinue(t), rest) else rest;
        if b then Cons(TestBreak(t), rest') else rest'
  }

  function Tail(depth: nat): Stmt {
    if depth > 0 then OnAnyFlow(Single(Return([]))) else OnFlow(RETURN_CODE, Single(ReturnSlots))
  }

  function LowerReturn(slots: Slots, es: seq<Expr>, depth: nat, n: int, k: nat): Low {
    if depth == 0 then Low(Single(Return(es)), n, k, true)
    else if es == [] then
      Low(Signal(RETURN_CODE), n, k, slots.Named? || slots.count == 0)
    else if SlotCount(slots) == 0 then Low(Single(Return(es)), n, k, false)
    else Low(Cons(SetSlots(es), Signal(RETURN_CODE)), n, k, true)
  }

  /** A labelled statement keeps its label; several statements become a block. */
  function Wrapped(code: Block, lab: Name): Block {
    if lab == NO_LABEL then code
    else if Length(code) == 1 then Single(Labeled(lab, code.head))
    else Single(Labeled(lab, Scope(code)))
  }

  function FinalizerPrologue(temp: nat, code: Block): Block {
    Cons(SaveFlow(temp), Cons(SetFlow(0), Cons(DeferRestore(temp), code)))
  }

  /** The call of Try: a handler starts by clearing the signal, a finalizer saves
      it and has it restored. */
  function TryCall(s: Stmt, body: Block, handler: Block, finalizer: Block, temp: nat): Stmt
    requires s.Try?
  {
    RtTry(body,
          if s.handler.NoClosure? then NoClosure else Func(Cons(SetFlow(0), handler)),
          if s.finalizer.NoClosure? then NoClosure else Func(FinalizerPrologue(temp, finalizer)))
  }

  /** A statement header must stay one simple statement. */
  predicate SimpleHeader(before: Block, after: Block) {
    before == Nil || Length(after) == 1
  }

  function LowerStmt(slots: Slots, scoped: bool, s: Stmt, depth: nat, ts: seq<Target>, lab: Name, n: int, k: nat): Low
    decreases s, 1
  {
    match s
    case Return(es) => LowerReturn(slots, es, depth, n, k)
    case Break(l) =>
      var i := FindBreak(ts, l);
      if i < 0 then Low(Single(s), n, k, false) else Low(Jump(ts, i, ts[i].breakCode, depth, s), n, k, true)
    case Continue(l) =>
      var i := FindContinue(ts, l);
      if i < 0 then Low(Single(s), n, k, false) else Low(Jump(ts, i, ts[i].continueCode, depth, s), n, k, true)
    case Scope(body) =>
      var b := LowerBlock(slots, scoped, body, depth, ts, n, k);
      b.(code := Single(Scope(b.code)))
    case If(_, _, _, _) => LowerIf(slots, scoped, s, depth, ts, n, k)
    case For(_, _, _, _) => LowerFor(slots, scoped, s, depth, ts, lab, n, k)
    case Range(names, lhs, over, body) =>
      var b := LowerBlock(slots, scoped, body, depth, ts + [Target(lab, depth, n, n + 1)], n + 2, k);
      b.(code := Single(Range(names, lhs, over, b.code)))
    case Switch(_, _, _) => LowerSwitch(slots, scoped, s, depth, ts, lab, n, k)
    case Labeled(l, inner) =>
      var low := LowerStmt(slots, scoped, inner, depth, ts, l, n, k);
      low.(code := Wrapped(low.code, l))
    case Defer(e) => Low(Single(if scoped then Register(e) else s), n, k, true)
    case Try(_, _, _) => LowerTry(slots, scoped, s, depth, ts, n, k)
    case _ => Low(Single(s), n, k, true)
  }

  function LowerIf(slots: Slots, scoped: bool, s: Stmt, depth: nat, ts: seq<Target>, n: int, k: nat): Low
    requires s.If?
    decreases s, 0
  {
    var i := LowerBlock(slots, scoped, s.init, depth, ts, n, k);
    var t := LowerBlock(slots, scoped, s.thn, depth, ts, i.nextCode, i.nextTemp);
    var e := LowerBlock(slots, scoped, s.els, depth, ts, t.nextCode, t.nextTemp);
    Low(Single(If(i.code, s.test, t.code, e.code)), e.nextCode, e.nextTemp,
        i.ok && t.ok && e.ok && SimpleHeader(s.init, i.code))
  }

  function LowerFor(slots: Slots, scoped: bool, s: Stmt, depth: nat, ts: seq<Target>, lab: Name, n: int, k: nat): Low
    requires s.For?
    decreases s, 0
  {
    var i := LowerBlock(slots, scoped, s.init, depth, ts, n, k);
    var p := LowerBlock(slots, scoped, s.post, depth, ts, i.nextCode, i.nextTemp);
    var target := Target(lab, depth, p.nextCode, p.nextCode + 1);
    var b := LowerBlock(slots, scoped, s.body, depth, ts + [target], p.nextCode + 2, p.nextTemp);
    Low(Single(For(i.code, s.cond, p.code, b.code)), b.nextCode, b.nextTemp,
        i.ok && p.ok && b.ok && SimpleHeader(s.init, i.code) && SimpleHeader(s.post, p.code))
  }

  function LowerSwitch(slots: Slots, scoped: bool, s: Stmt, depth: nat, ts: seq<Target>, lab: Name, n: int, k: nat): Low
    requires s.Switch?
    decreases s, 0
  {
    var i := LowerBlock(slots, scoped, s.init, depth, ts, n, k);
    var target := Target(lab, depth, i.nextCode, 0);
    var c := LowerClauses(slots, scoped, s.clauses, depth, ts + [target], i.nextCode + 1, i.nextTemp);
    Low(Single(Switch(i.code, s.tag, c.clauses)), c.nextCode, c.nextTemp,
        i.ok && c.ok && SimpleHeader(s.init, i.code))
  }

  function LowerTry(slots: Slots, scoped: bool, s: Stmt, depth: nat, ts: seq<Target>, n: int, k: nat): Low
    requires s.Try?
    decreases s, 0
  {
    var b := LowerBlock(slots, scoped, s.body, depth + 1, ts, n, k);
    var h := LowerClosure(slots, scoped, s.handler, depth + 1, ts, b.nextCode, b.nextTemp);
    var f := LowerClosure(slots, scoped, s.finalizer, depth + 1, ts, h.nextCode, h.nextTemp);
    var temp := if s.finalizer.NoClosure? then f.nextTemp else f.nextTemp + 1;
    Low(Cons(TryCall(s, b.code, h.code, f.code, temp),
             Append(Tests(ts, |ts|, depth, false, false), Single(Tail(depth)))),
        f.nextCode, temp, b.ok && h.ok && f.ok)
  }

  function LowerBlock(slots: Slots, scoped: bool, b: Block, depth: nat, ts: seq<Target>, n: int, k: nat): Low
    decreases b
  {
    match b
    case Nil => Low(Nil, n, k, true)
    case Cons(h, t) =>
      var first := LowerStmt(slots, scoped, h, depth, ts, NO_LABEL, n, k);
      var rest := LowerBlock(slots, scoped, t, depth, ts, first.nextCode, first.nextTemp);
      Low(Append(first.code, rest.code), rest.nextCode, rest.nextTemp, first.ok && rest.ok)
  }

  function LowerClauses(slots: Slots, scoped: bool, cs: Clauses, depth: nat, ts: seq<Target>, n: int,
                        k: nat): LowClauses
    decreases cs
  {
    match cs
    case NoClauses => LowClauses(NoClauses, n, k, true)
    case Clause(isDefault, guards, body, rest) =>
      var b := LowerBlock(slots, scoped, body, depth, ts, n, k);
      var r := LowerClauses(slots, scoped, rest, depth, ts, b.nextCode, b.nextTemp);
      LowClauses(Clause(isDefault, guards, b.code, r.clauses), r.nextCode, r.nextTemp, b.ok && r.ok)
  }

  function LowerClosure(slots: Slots, scoped: bool, c: Closure, depth: nat, ts: seq<Target>, n: int, k: nat): Low
    decreases c
  {
    match c
    case NoClosure => Low(Nil, n, k, true)
    case Func(body) => LowerBlock(slots, scoped, body, depth, ts, n, k)
  }
}
