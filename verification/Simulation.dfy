/** Lowering preserves meaning: generated code started with `ghi_flow == 0`
    reaches the completion and the state that the source reaches. */
module Simulation {
  import opened Options
  import opened Syntax
  import opened Machine
  import opened Headers
  import opened Lowering
  import opened Legal
  import opened LoweringFacts
  import opened ProgramPaths
  import opened Growth
  import opened RunPaths

  lemma {:induction false} SimStmt(p: Point, fall: bool, s: Stmt, lab: Name, n: int, k: nat, s0: State, t0: State,
                                   fuel: nat)
    requires Fits(p, fall, s, lab, n, k) && Ready(p, s0, t0, n)
    ensures After(p, Exec(p.fn, s, lab, s0, fuel), ExecBlock(p.fn, StmtCode(p, s, lab, n, k), t0, fuel))
    ensures Exec(p.fn, s, lab, s0, fuel).c.Fell? ==> fall
    decreases s, fuel, 5
  {
    if Compound(s) { SimCompound(p, fall, s, lab, n, k, s0, t0, fuel); }
    else { SimLeaf(p, fall, s, lab, n, k, s0, t0, fuel); }
  }

  predicate Compound(s: Stmt) {
    s.Scope? || s.If? || s.For? || s.Range? || s.Switch? || s.Labeled? || s.Try?
  }

  lemma {:induction false} SimCompound(p: Point, fall: bool, s: Stmt, lab: Name, n: int, k: nat, s0: State, t0: State,
                                       fuel: nat)
    requires Compound(s) && Fits(p, fall, s, lab, n, k) && Ready(p, s0, t0, n)
    ensures After(p, Exec(p.fn, s, lab, s0, fuel), ExecBlock(p.fn, StmtCode(p, s, lab, n, k), t0, fuel))
    ensures !Exec(p.fn, s, lab, s0, fuel).c.Fell?
    decreases s, fuel, 4
  {
    match s
    case Scope(_) => SimScope(p, fall, s, lab, n, k, s0, t0, fuel);
    case If(_, _, _, _) => SimIf(p, fall, s, lab, n, k, s0, t0, fuel);
    case For(_, _, _, _) => SimFor(p, fall, s, lab, n, k, s0, t0, fuel);
    case Range(_, _, _, _) => SimRange(p, fall, s, lab, n, k, s0, t0, fuel);
    case Switch(_, _, _) => SimSwitch(p, fall, s, lab, n, k, s0, t0, fuel);
    case Labeled(_, _) => SimLabeled(p, fall, s, lab, n, k, s0, t0, fuel);
    case Try(_, _, _) => SimTry(p, fall, s, lab, n, k, s0, t0, fuel);
  }

  lemma SimLeaf(p: Point, fall: bool, s: Stmt, lab: Name, n: int, k: nat, s0: State, t0: State, fuel: nat)
    requires !Compound(s)
    requires Fits(p, fall, s, lab, n, k) && Ready(p, s0, t0, n)
    ensures After(p, Exec(p.fn, s, lab, s0, fuel), ExecBlock(p.fn, StmtCode(p, s, lab, n, k), t0, fuel))
    ensures Exec(p.fn, s, lab, s0, fuel).c.Fell? ==> fall
  {
    if s.Return? { SimReturn(p, fall, s, lab, n, k, s0, t0, fuel); }
    else if s.Break? || s.Continue? { SimJump(p, fall, s, lab, n, k, s0, t0, fuel); }
    else if s.Defer? { SimDefer(p, fall, s, lab, n, k, s0, t0, fuel); }
    else { SimPlain(p, s, lab, n, k, s0, t0, fuel); }
  }

  lemma {:induction false} SimBlock(p: Point, fall: bool, b: Block, n: int, k: nat, s0: State, t0: State, fuel: nat)
    requires FitsBlock(p, fall, b, n, k) && Ready(p, s0, t0, n)
    ensures After(p, ExecBlock(p.fn, b, s0, fuel), ExecBlock(p.fn, BlockLow(p, b, n, k).code, t0, fuel))
    ensures ExecBlock(p.fn, b, s0, fuel).c.Fell? ==> fall
    decreases b, fuel, 1
  {
    match b
    case Nil =>
    case Cons(h, t) =>
      var first := LowerStmt(p.fn.slots, p.scoped, h, p.d, p.ts, NO_LABEL, n, k);
      var rest := BlockLow(p, t, first.nextCode, first.nextTemp);
      SimStmt(p, fall && t.Nil?, h, NO_LABEL, n, k, s0, t0, fuel);
      ExecAppend(p.fn, first.code, rest.code, t0, fuel);
      var rs, rt := Exec(p.fn, h, NO_LABEL, s0, fuel), ExecBlock(p.fn, first.code, t0, fuel);
      if rs.c.Normal? { SimTail(p, fall, h, t, n, k, s0, rs.st, rt.st, fuel); }
  }

  /** The rest of a list, after its first statement. */
  lemma {:induction false} SimTail(p: Point, fall: bool, h: Stmt, t: Block, n: int, k: nat, s0: State, s1: State,
                                   t1: State, fuel: nat)
    requires FitsBlock(p, fall, Cons(h, t), n, k) && TargetsOk(p.ts, p.d, n) && "ghi_caught" !in SlotNames(p.fn.slots)
    requires VisibleBut(p.fn, p.hidden, s0.u.env) && Exec(p.fn, h, NO_LABEL, s0, fuel) == R(Normal, s1)
             && Calm(p, s1, t1)
    ensures var first := LowerStmt(p.fn.slots, p.scoped, h, p.d, p.ts, NO_LABEL, n, k);
            After(p, ExecBlock(p.fn, t, s1, fuel),
                  ExecBlock(p.fn, BlockLow(p, t, first.nextCode, first.nextTemp).code, t1, fuel))
    ensures ExecBlock(p.fn, t, s1, fuel).c.Fell? ==> fall
    decreases t, fuel, 2
  {
    var first := LowerStmt(p.fn.slots, p.scoped, h, p.d, p.ts, NO_LABEL, n, k);
    var rest := BlockLow(p, t, first.nextCode, first.nextTemp);
    LowerGrows(p.fn.slots, p.scoped, h, p.d, p.ts, NO_LABEL, n, k);
    LegalSourced(p.fn.slots, h, NO_LABEL, Active(p.ts, p.d), fall && t.Nil?);
    StmtVisible(p.fn, p.hidden, h, NO_LABEL, s0, fuel);
    SimBlock(Past(p, Declared(h)), fall, t, first.nextCode, first.nextTemp, s1, t1, fuel);
    AfterPast(p, Declared(h), ExecBlock(p.fn, t, s1, fuel), ExecBlock(p.fn, rest.code, t1, fuel));
  }

  lemma {:induction false} SimScope(p: Point, fall: bool, s: Stmt, lab: Name, n: int, k: nat, s0: State, t0: State,
                                    fuel: nat)
    requires s.Scope? && Fits(p, fall, s, lab, n, k) && Ready(p, s0, t0, n)
    ensures After(p, Exec(p.fn, s, lab, s0, fuel), ExecBlock(p.fn, StmtCode(p, s, lab, n, k), t0, fuel))
    ensures !Exec(p.fn, s, lab, s0, fuel).c.Fell?
    decreases s, fuel, 1
  {
    var b := BlockLow(p, s.body, n, k);
    SimBlock(p, false, s.body, n, k, s0, t0, fuel);
    AfterLeave(p, ExecBlock(p.fn, s.body, s0, fuel), ExecBlock(p.fn, b.code, t0, fuel), s0.u.env);
    SingleStep(p.fn, Scope(b.code), lab, t0, fuel);
  }

  lemma {:induction false} SimLabeled(p: Point, fall: bool, s: Stmt, lab: Name, n: int, k: nat, s0: State, t0: State,
                                      fuel: nat)
    requires s.Labeled? && Fits(p, fall, s, lab, n, k) && Ready(p, s0, t0, n)
    ensures After(p, Exec(p.fn, s, lab, s0, fuel), ExecBlock(p.fn, StmtCode(p, s, lab, n, k), t0, fuel))
    ensures !Exec(p.fn, s, lab, s0, fuel).c.Fell?
    decreases s, fuel, 1
  {
    SimStmt(p, false, s.stmt, s.lab, n, k, s0, t0, fuel);
    assert Exec(p.fn, s, lab, s0, fuel) == Exec(p.fn, s.stmt, s.lab, s0, fuel);
    LabelTwice(p, s, lab, n, k, t0, fuel);
  }

  lemma {:induction false} IfLowered(p: Point, fall: bool, s: Stmt, lab: Name, n: int, k: nat)
    returns (code: Stmt, n1: int, k1: nat, n2: int, k2: nat)
    requires s.If? && Fits(p, fall, s, lab, n, k)
    ensures n <= n1 <= n2
    ensures StmtCode(p, s, lab, n, k) == Wrapped(Single(code), lab)
    ensures code.If? && code.test == s.test
    ensures FitsBlock(p, false, s.init, n, k) && code.init == BlockLow(p, s.init, n, k).code
    ensures var q := Past(p, BlockDeclared(s.init));
            && FitsBlock(q, false, s.thn, n1, k1) && code.thn == BlockLow(q, s.thn, n1, k1).code
            && FitsBlock(q, false, s.els, n2, k2) && code.els == BlockLow(q, s.els, n2, k2).code
  {
    var i := BlockLow(p, s.init, n, k);
    var t := BlockLow(p, s.thn, i.nextCode, i.nextTemp);
    var e := BlockLow(p, s.els, t.nextCode, t.nextTemp);
    code := If(i.code, s.test, t.code, e.code);
    assert LowerStmt(p.fn.slots, p.scoped, s, p.d, p.ts, lab, n, k) ==
             LowerIf(p.fn.slots, p.scoped, s, p.d, p.ts, n, k);
    LowerBlockGrows(p.fn.slots, p.scoped, s.init, p.d, p.ts, n, k);
    LowerBlockGrows(p.fn.slots, p.scoped, s.thn, p.d, p.ts, i.nextCode, i.nextTemp);
    n1, k1, n2, k2 := i.nextCode, i.nextTemp, t.nextCode, t.nextTemp;
  }

  lemma {:induction false} SimIf(p: Point, fall: bool, s: Stmt, lab: Name, n: int, k: nat, s0: State, t0: State,
                                 fuel: nat)
    requires s.If? && Fits(p, fall, s, lab, n, k) && Ready(p, s0, t0, n)
    ensures After(p, Exec(p.fn, s, lab, s0, fuel), ExecBlock(p.fn, StmtCode(p, s, lab, n, k), t0, fuel))
    ensures !Exec(p.fn, s, lab, s0, fuel).c.Fell?
    decreases s, fuel, 1
  {
    var code, n1, k1, n2, k2 := IfLowered(p, fall, s, lab, n, k);
    SingleStep(p.fn, code, lab, t0, fuel);
    HeaderFirst(p.fn, s, lab, s0, fuel);
    HeaderFirst(p.fn, code, lab, t0, fuel);
    SimBlock(p, false, s.init, n, k, s0, t0, fuel);
    var rs, rt := ExecBlock(p.fn, s.init, s0, fuel), ExecBlock(p.fn, code.init, t0, fuel);
    if !rs.c.Normal? { AfterLeave(p, rs, rt, s0.u.env); }
    else {
      HeaderVisible(p, s.init, s0, fuel);
      SimBranches(Past(p, BlockDeclared(s.init)), s, code, n1, k1, n2, k2, rs.st, rt.st, fuel);
      AfterPast(p, BlockDeclared(s.init), AfterHeader(p.fn, s, lab, rs.st, fuel),
                AfterHeader(p.fn, code, lab, rt.st, fuel));
      AfterLeave(p, AfterHeader(p.fn, s, lab, rs.st, fuel), AfterHeader(p.fn, code, lab, rt.st, fuel), s0.u.env);
    }
  }

  /** What a header declares is all it hides. */
  lemma HeaderVisible(p: Point, init: Block, s0: State, fuel: nat)
    requires LegalBlock(p.fn.slots, init, Active(p.ts, p.d), false) && VisibleBut(p.fn, p.hidden, s0.u.env)
    ensures var r := ExecBlock(p.fn, init, s0, fuel);
            r.c.Normal? ==> VisibleBut(p.fn, p.hidden + BlockDeclared(init), r.st.u.env)
  {
    LegalBlockSourced(p.fn.slots, init, Active(p.ts, p.d), false);
    BlockVisible(p.fn, p.hidden, init, s0, fuel);
  }

  /** The two branches of an `if` behind its header. */
  lemma {:induction false} SimBranches(p: Point, s: Stmt, code: Stmt, n1: int, k1: nat, n2: int, k2: nat, s0: State,
                                       t0: State, fuel: nat)
    requires s.If? && code.If? && code.test == s.test && Ready(p, s0, t0, n1) && n1 <= n2
    requires FitsBlock(p, false, s.thn, n1, k1) && code.thn == BlockLow(p, s.thn, n1, k1).code
    requires FitsBlock(p, false, s.els, n2, k2) && code.els == BlockLow(p, s.els, n2, k2).code
    ensures After(p, AfterHeader(p.fn, s, NO_LABEL, s0, fuel), AfterHeader(p.fn, code, NO_LABEL, t0, fuel))
    ensures !AfterHeader(p.fn, s, NO_LABEL, s0, fuel).c.Fell?
    decreases s, fuel, 0
  {
    var o := EvalExpr(p.fn, s.test, s0.u);
    if o.Yields? {
      var s1, t1 := s0.(u := o.u), t0.(u := o.u);
      if First(o.vals) != 0 { SimBlock(p, false, s.thn, n1, k1, s1, t1, fuel); }
      else { SimBlock(p, false, s.els, n2, k2, s1, t1, fuel); }
    }
  }

  /** The parts of a lowered loop. */
  ghost predicate ForParts(p: Point, s: Stmt, n: int, k: nat, code: Stmt, tg: Target, n1: int, k1: nat, k2: nat) {
    && s.For? && code.For? && code.cond == s.cond
    && tg.depth == p.d && tg.continueCode == tg.breakCode + 1
    && n <= n1
    && FitsBlock(p, false, s.post, n1, k1) && code.post == BlockLow(p, s.post, n1, k1).code
    && FitsBlock(Within(p, tg), false, s.body, tg.breakCode + 2, k2)
    && code.body == BlockLow(Within(p, tg), s.body, tg.breakCode + 2, k2).code
    && TargetsOk(p.ts + [tg], p.d, tg.breakCode + 2)
    && TargetsOk(p.ts, p.d, n1)
    && "ghi_caught" !in SlotNames(p.fn.slots)
    && BlockDeclared(s.post) <= p.hidden
  }

  /** What is declared when a loop turns. */
  function Turned(s: Stmt): set<Name>
    requires s.For?
  {
    BlockDeclared(s.init) + BlockDeclared(s.post)
  }

  function ForTarget(p: Point, s: Stmt, lab: Name, n: int, k: nat): Target
    requires s.For?
  {
    var i := BlockLow(p, s.init, n, k);
    var code := BlockLow(p, s.post, i.nextCode, i.nextTemp).nextCode;
    Target(lab, p.d, code, code + 1)
  }

  /** The targets while the loop's body is lowered. */
  lemma ForTargets(p: Point, s: Stmt, lab: Name, n: int, k: nat, fall: bool)
    requires s.For? && TargetsOk(p.ts, p.d, n) && LegalStmt(p.fn.slots, s, lab, Active(p.ts, p.d), fall)
    ensures var i := BlockLow(p, s.init, n, k);
            var post := BlockLow(p, s.post, i.nextCode, i.nextTemp);
            var tg := ForTarget(p, s, lab, n, k);
            && n <= i.nextCode <= post.nextCode
            && TargetsOk(p.ts + [tg], p.d, tg.breakCode + 2) && Active(p.ts + [tg], p.d) == With(lab, Active(p.ts, p.d))
  {
    var i := BlockLow(p, s.init, n, k);
    var tg := ForTarget(p, s, lab, n, k);
    LowerBlockGrows(p.fn.slots, p.scoped, s.init, p.d, p.ts, n, k);
    LowerBlockGrows(p.fn.slots, p.scoped, s.post, p.d, p.ts, i.nextCode, i.nextTemp);
    PushTarget(p.ts, p.d, n, tg, tg.breakCode + 2);
  }

  lemma ForFits(p: Point, fall: bool, s: Stmt, lab: Name, n: int, k: nat)
    requires s.For? && Fits(p, fall, s, lab, n, k) && TargetsOk(p.ts, p.d, n)
    ensures var i := BlockLow(p, s.init, n, k);
            var post := BlockLow(p, s.post, i.nextCode, i.nextTemp);
            var tg := ForTarget(p, s, lab, n, k);
            && n <= i.nextCode <= post.nextCode
            && FitsBlock(p, false, s.init, n, k)
            && FitsBlock(p.(hidden := Past(p, Turned(s)).hidden), false, s.post, i.nextCode, i.nextTemp)
            && FitsBlock(Within(Past(p, Turned(s)), tg), false, s.body, tg.breakCode + 2, post.nextTemp)
            && TargetsOk(p.ts + [tg], p.d, tg.breakCode + 2)
  {
    var tg := ForTarget(p, s, lab, n, k);
    assert LowerStmt(p.fn.slots, p.scoped, s, p.d, p.ts, lab, n, k) ==
             LowerFor(p.fn.slots, p.scoped, s, p.d, p.ts, lab, n, k);
    ForTargets(p, s, lab, n, k, fall);
    ForShown(p, s, tg);
  }

  lemma {:induction false} ForLowered(p: Point, fall: bool, s: Stmt, lab: Name, n: int, k: nat)
    returns (code: Stmt, tg: Target, n1: int, k1: nat, k2: nat)
    requires s.For? && Fits(p, fall, s, lab, n, k) && TargetsOk(p.ts, p.d, n) && "ghi_caught" !in SlotNames(p.fn.slots)
    ensures ForParts(Past(p, Turned(s)), s, n, k, code, tg, n1, k1, k2) && tg.name == lab
    ensures FitsBlock(p, false, s.init, n, k) && code.init == BlockLow(p, s.init, n, k).code
    ensures StmtCode(p, s, lab, n, k) == Wrapped(Single(code), lab)
  {
    ForFits(p, fall, s, lab, n, k);
    var i := BlockLow(p, s.init, n, k);
    var post := BlockLow(p, s.post, i.nextCode, i.nextTemp);
    tg := ForTarget(p, s, lab, n, k);
    n1, k1, k2 := i.nextCode, i.nextTemp, post.nextTemp;
    var body := LowerBlock(p.fn.slots, p.scoped, s.body, p.d, p.ts + [tg], tg.breakCode + 2, k2);
    code := For(i.code, s.cond, post.code, body.code);
    ForShown(p, s, tg);
    assert LowerStmt(p.fn.slots, p.scoped, s, p.d, p.ts, lab, n, k) ==
             LowerFor(p.fn.slots, p.scoped, s, p.d, p.ts, lab, n, k);
  }

  /** What is hidden when the loop turns, for its body and its post statement. */
  lemma ForShown(p: Point, s: Stmt, tg: Target)
    requires s.For? && Shown(SlotNames(p.fn.slots), s, p.d, p.hidden)
    ensures ShownBlock(SlotNames(p.fn.slots), s.post, p.d, Past(p, Turned(s)).hidden)
    ensures ShownBlock(SlotNames(p.fn.slots), s.body, p.d, Within(Past(p, Turned(s)), tg).hidden)
    ensures BlockDeclared(s.post) <= Past(p, Turned(s)).hidden
  {
    assert p.hidden + BlockDeclared(s.init) + BlockDeclared(s.post) == Past(p, Turned(s)).hidden;
  }

  lemma {:induction false} SimFor(p: Point, fall: bool, s: Stmt, lab: Name, n: int, k: nat, s0: State, t0: State,
                                  fuel: nat)
    requires s.For? && Fits(p, fall, s, lab, n, k) && Ready(p, s0, t0, n)
    ensures After(p, Exec(p.fn, s, lab, s0, fuel), ExecBlock(p.fn, StmtCode(p, s, lab, n, k), t0, fuel))
    ensures !Exec(p.fn, s, lab, s0, fuel).c.Fell?
    decreases s, fuel, 3
  {
    var code, tg, n1, k1, k2 := ForLowered(p, fall, s, lab, n, k);
    SingleStep(p.fn, code, lab, t0, fuel);
    assert Exec(p.fn, code, lab, t0, fuel) == ExecFor(p.fn, code, lab, t0, fuel);
    SimBlock(p, false, s.init, n, k, s0, t0, fuel);
    var rs, rt := ExecBlock(p.fn, s.init, s0, fuel), ExecBlock(p.fn, code.init, t0, fuel);
    if !rs.c.Normal? { AfterLeave(p, rs, rt, s0.u.env); }
    else {
      HeaderVisible(p, s.init, s0, fuel);
      SimLoop(Past(p, Turned(s)), s, n, k, code, tg, n1, k1, k2, rs.st, rt.st, fuel);
      AfterPast(p, Turned(s), Loop(p.fn, s, lab, rs.st, fuel), Loop(p.fn, code, lab, rt.st, fuel));
      AfterLeave(p, Loop(p.fn, s, lab, rs.st, fuel), Loop(p.fn, code, lab, rt.st, fuel), s0.u.env);
    }
  }

  lemma {:induction false} SimLoop(p: Point, s: Stmt, n: int, k: nat, code: Stmt, tg: Target, n1: int, k1: nat,
                                   k2: nat, s0: State, t0: State, fuel: nat)
    requires ForParts(p, s, n, k, code, tg, n1, k1, k2) && Start(p, s0, t0)
    ensures After(p, Loop(p.fn, s, tg.name, s0, fuel), Loop(p.fn, code, tg.name, t0, fuel))
    ensures !Loop(p.fn, s, tg.name, s0, fuel).c.Fell?
    decreases s, fuel, 2
  {
    var o := EvalCond(p.fn, s.cond, s0.u);
    if fuel > 0 && o.Yields? && First(o.vals) != 0 {
      var s1, t1 := s0.(u := o.u), t0.(u := o.u);
      SimBlock(Within(p, tg), false, s.body, tg.breakCode + 2, k2, s1, t1, fuel);
      var rs, rt := ExecBlock(p.fn, s.body, s1, fuel), ExecBlock(p.fn, code.body, t1, fuel);
      AfterLeave(Within(p, tg), rs, rt, s0.u.env);
      SimTurn(p, s, n, k, code, tg, n1, k1, k2, Leave(rs, s0.u.env), Leave(rt, s0.u.env), fuel);
    }
  }

  /** One turn of a loop after its body. */
  lemma {:induction false} SimTurn(p: Point, s: Stmt, n: int, k: nat, code: Stmt, tg: Target, n1: int, k1: nat,
                                   k2: nat, rs: R, rt: R, fuel: nat)
    requires ForParts(p, s, n, k, code, tg, n1, k1, k2) && fuel > 0
    requires After(Within(p, tg), rs, rt) && !rs.c.Fell? && VisibleBut(p.fn, p.hidden, rs.st.u.env)
    ensures After(p, EndTurn(p.fn, s, tg.name, rs, fuel), EndTurn(p.fn, code, tg.name, rt, fuel))
    ensures !EndTurn(p.fn, s, tg.name, rs, fuel).c.Fell?
    decreases s, fuel, 1
  {
    if rs.c.Stuck? { return; }
    PopTarget(p, tg, rs, rt);
    var es, et := EndTurn(p.fn, s, tg.name, rs, fuel), EndTurn(p.fn, code, tg.name, rt, fuel);
    if Breaks(rs.c, tg) { assert es == rs.(c := Normal) && et == rt.(c := Normal); }
    else if rs.c.Normal? || Continues(rs.c, tg) {
      SimNext(p, s, n, k, code, tg, n1, k1, k2, rs.st, rt.st, fuel);
      assert es == NextTurn(p.fn, s, tg.name, rs.st, fuel) && et == NextTurn(p.fn, code, tg.name, rt.st, fuel);
    } else { assert es == rs && et == rt; }
  }

  lemma {:induction false} SimNext(p: Point, s: Stmt, n: int, k: nat, code: Stmt, tg: Target, n1: int, k1: nat,
                                   k2: nat, s0: State, t0: State, fuel: nat)
    requires ForParts(p, s, n, k, code, tg, n1, k1, k2) && fuel > 0 && Start(p, s0, t0)
    ensures After(p, NextTurn(p.fn, s, tg.name, s0, fuel), NextTurn(p.fn, code, tg.name, t0, fuel))
    ensures !NextTurn(p.fn, s, tg.name, s0, fuel).c.Fell?
    decreases s, fuel, 0
  {
    SimBlock(p, false, s.post, n1, k1, s0, t0, fuel);
    var rs, rt := ExecBlock(p.fn, s.post, s0, fuel), ExecBlock(p.fn, code.post, t0, fuel);
    if rs.c.Normal? {
      HeaderVisible(p, s.post, s0, fuel);
      assert p.hidden + BlockDeclared(s.post) == p.hidden;
      SimLoop(p, s, n, k, code, tg, n1, k1, k2, rs.st, rt.st, fuel - 1);
    }
  }

  lemma {:induction false} SimRange(p: Point, fall: bool, s: Stmt, lab: Name, n: int, k: nat, s0: State, t0: State,
                                    fuel: nat)
    requires s.Range? && Fits(p, fall, s, lab, n, k) && Ready(p, s0, t0, n)
    ensures After(p, Exec(p.fn, s, lab, s0, fuel), ExecBlock(p.fn, StmtCode(p, s, lab, n, k), t0, fuel))
    ensures !Exec(p.fn, s, lab, s0, fuel).c.Fell?
    decreases s, fuel, 2
  {
    var tg := Target(lab, p.d, n, n + 1);
    var code := Range(s.names, s.lhs, s.over, BlockLow(Within(p, tg), s.body, n + 2, k).code);
    SingleStep(p.fn, code, lab, t0, fuel);
    PushTarget(p.ts, p.d, n, tg, n + 2);
    var o := EvalExpr(p.fn, s.over, s0.u);
    if o.Yields? { SimRangeLoop(p, s, code, tg, n, k, s0.(u := o.u), t0.(u := o.u), fuel); }
  }

  lemma TurnBinds(fn: Fn, hidden: set<Name>, s: Stmt, vals: seq<Val>, u: User)
    requires s.Range? && VisibleBut(fn, hidden, u.env)
    ensures var o := BindTurn(fn, s, vals, u);
            VisibleBut(fn, hidden + (set x | x in s.names), o.u.env) && (o.Raises? ==> o.u.env == u.env)
  {
    if s.lhs == [] { VisibleBind(fn, hidden, s.names, vals, u); }
    else {
      EvalAllEnv(fn, Operands(s.lhs), u);
      var o := EvalAll(fn, Operands(s.lhs), u);
      if o.Yields? { StoreAllEnv(fn, s.lhs, vals, o.u); }
    }
  }

  ghost predicate RangeParts(p: Point, s: Stmt, code: Stmt, tg: Target, n: int, k: nat) {
    && s.Range? && tg.depth == p.d && tg.continueCode != 0
    && TargetsOk(Within(p, tg).ts, p.d, n + 2) && "ghi_caught" !in SlotNames(p.fn.slots)
    && FitsBlock(Past(Within(p, tg), (set x | x in s.names)), false, s.body, n + 2, k)
    && code == Range(s.names, s.lhs, s.over, BlockLow(Within(p, tg), s.body, n + 2, k).code)
  }

  lemma {:induction false} SimRangeLoop(p: Point, s: Stmt, code: Stmt, tg: Target, n: int, k: nat, s0: State,
                                        t0: State, fuel: nat)
    requires RangeParts(p, s, code, tg, n, k) && Start(p, s0, t0)
    ensures After(p, RangeLoop(p.fn, s, tg.name, s0, fuel), RangeLoop(p.fn, code, tg.name, t0, fuel))
    ensures !RangeLoop(p.fn, s, tg.name, s0, fuel).c.Fell?
    decreases s, fuel, 1
  {
    var o := EvalExpr(p.fn, Next(s.over), s0.u);
    if fuel > 0 && o.Yields? && o.vals != [] {
      TurnBinds(p.fn, p.hidden, s, o.vals, o.u);
      var turn := BindTurn(p.fn, s, o.vals, o.u);
      assert turn == BindTurn(p.fn, code, o.vals, o.u);
      if turn.Yields? { SimBound(p, s, code, tg, n, k, s0, t0, turn.u, fuel); }
    }
  }

  /** A turn whose variables are bound. */
  lemma {:induction false} SimBound(p: Point, s: Stmt, code: Stmt, tg: Target, n: int, k: nat, s0: State, t0: State,
                                    u: User, fuel: nat)
    requires RangeParts(p, s, code, tg, n, k) && Start(p, s0, t0)
             && VisibleBut(p.fn, p.hidden + (set x | x in s.names), u.env) && fuel > 0
    ensures var rs := EndRangeTurn(p.fn, s, tg.name, Leave(ExecBlock(p.fn, s.body, s0.(u := u), fuel), s0.u.env), fuel);
            After(p, rs, EndRangeTurn(p.fn, code, tg.name,
                                      Leave(ExecBlock(p.fn, code.body, t0.(u := u), fuel), t0.u.env), fuel))
                                          && !rs.c.Fell?
    decreases s, fuel, 0, 1
  {
    var s1, t1, declared := s0.(u := u), t0.(u := u), (set x | x in s.names);
    SimBlock(Past(Within(p, tg), declared), false, s.body, n + 2, k, s1, t1, fuel);
    var rs, rt := ExecBlock(p.fn, s.body, s1, fuel), ExecBlock(p.fn, code.body, t1, fuel);
    AfterPast(Within(p, tg), declared, rs, rt);
    AfterLeave(Within(p, tg), rs, rt, s0.u.env);
    SimRangeTurn(p, s, code, tg, n, k, Leave(rs, s0.u.env), Leave(rt, s0.u.env), fuel);
  }

  lemma {:induction false} SimRangeTurn(p: Point, s: Stmt, code: Stmt, tg: Target, n: int, k: nat, rs: R, rt: R,
                                        fuel: nat)
    requires RangeParts(p, s, code, tg, n, k) && fuel > 0
    requires After(Within(p, tg), rs, rt) && !rs.c.Fell? && VisibleBut(p.fn, p.hidden, rs.st.u.env)
    ensures After(p, EndRangeTurn(p.fn, s, tg.name, rs, fuel), EndRangeTurn(p.fn, code, tg.name, rt, fuel))
    ensures !EndRangeTurn(p.fn, s, tg.name, rs, fuel).c.Fell?
    decreases s, fuel, 0, 0
  {
    if !rs.c.Stuck? {
      PopTarget(p, tg, rs, rt);
      if !Breaks(rs.c, tg) && (rs.c.Normal? || Continues(rs.c, tg)) {
        SimRangeLoop(p, s, code, tg, n, k, rs.st, rt.st, fuel - 1);
      }
    }
  }

  lemma {:induction false} SimSwitch(p: Point, fall: bool, s: Stmt, lab: Name, n: int, k: nat, s0: State, t0: State,
                                     fuel: nat)
    requires s.Switch? && Fits(p, fall, s, lab, n, k) && Ready(p, s0, t0, n)
    ensures After(p, Exec(p.fn, s, lab, s0, fuel), ExecBlock(p.fn, StmtCode(p, s, lab, n, k), t0, fuel))
    ensures !Exec(p.fn, s, lab, s0, fuel).c.Fell?
    decreases s, fuel, 2
  {
    var code, tg, k1 := SwitchLowered(p, fall, s, lab, n, k);
    SingleStep(p.fn, code, lab, t0, fuel);
    HeaderFirst(p.fn, s, lab, s0, fuel);
    HeaderFirst(p.fn, code, lab, t0, fuel);
    SimBlock(p, false, s.init, n, k, s0, t0, fuel);
    var rs, rt := ExecBlock(p.fn, s.init, s0, fuel), ExecBlock(p.fn, code.init, t0, fuel);
    if !rs.c.Normal? { AfterLeave(p, rs, rt, s0.u.env); }
    else {
      HeaderVisible(p, s.init, s0, fuel);
      SimChosen(Past(p, BlockDeclared(s.init)), tg, s, code, k1, rs.st, rt.st, fuel);
      AfterPast(p, BlockDeclared(s.init), AfterHeader(p.fn, s, lab, rs.st, fuel),
                AfterHeader(p.fn, code, lab, rt.st, fuel));
      AfterLeave(p, AfterHeader(p.fn, s, lab, rs.st, fuel), AfterHeader(p.fn, code, lab, rt.st, fuel), s0.u.env);
    }
  }

  /** A `switch` behind its header. */
  lemma {:induction false} SimChosen(p: Point, tg: Target, s: Stmt, code: Stmt, k: nat, s0: State, t0: State, fuel: nat)
    requires s.Switch? && code.Switch? && code.tag == s.tag && tg.depth == p.d && tg.continueCode == 0
    requires FitsClauses(Within(p, tg), s.clauses, tg.breakCode + 1, k)
    requires code.clauses == ClausesLow(Within(p, tg), s.clauses, tg.breakCode + 1, k).clauses
    requires Ready(Within(p, tg), s0, t0, tg.breakCode + 1)
    ensures After(p, AfterHeader(p.fn, s, tg.name, s0, fuel), AfterHeader(p.fn, code, tg.name, t0, fuel))
    ensures !AfterHeader(p.fn, s, tg.name, s0, fuel).c.Fell?
    decreases s, fuel, 1
  {
    var o := EvalCond(p.fn, s.tag, s0.u);
    assert o.u.env == s0.u.env;
    if o.Yields? { SimCases(p, tg, s.clauses, code.clauses, First(o.vals), k, s0.(u := o.u), t0.(u := o.u), fuel); }
  }

  lemma {:induction false} SwitchLowered(p: Point, fall: bool, s: Stmt, lab: Name, n: int, k: nat)
    returns (code: Stmt, tg: Target, k1: nat)
    requires s.Switch? && Fits(p, fall, s, lab, n, k) && TargetsOk(p.ts, p.d, n)
    ensures tg.name == lab && tg.depth == p.d && tg.continueCode == 0
    ensures TargetsOk(Within(p, tg).ts, p.d, tg.breakCode + 1)
    ensures code.Switch? && code.tag == s.tag && StmtCode(p, s, lab, n, k) == Wrapped(Single(code), lab)
    ensures FitsBlock(p, false, s.init, n, k) && code.init == BlockLow(p, s.init, n, k).code
    ensures FitsClauses(Within(Past(p, BlockDeclared(s.init)), tg), s.clauses, tg.breakCode + 1, k1)
    ensures code.clauses == ClausesLow(Within(p, tg), s.clauses, tg.breakCode + 1, k1).clauses
  {
    var i := BlockLow(p, s.init, n, k);
    LowerBlockGrows(p.fn.slots, p.scoped, s.init, p.d, p.ts, n, k);
    tg, k1 := Target(lab, p.d, i.nextCode, 0), i.nextTemp;
    assert LowerStmt(p.fn.slots, p.scoped, s, p.d, p.ts, lab, n, k) ==
             LowerSwitch(p.fn.slots, p.scoped, s, p.d, p.ts, lab, n, k);
    code := Switch(i.code, s.tag, ClausesLow(Within(p, tg), s.clauses, tg.breakCode + 1, k1).clauses);
    assert LowerSwitch(p.fn.slots, p.scoped, s, p.d, p.ts, lab, n, k).code == Single(code);
    PushTarget(p.ts, p.d, n, tg, tg.breakCode + 1);
  }

  lemma {:induction false} SimCases(p: Point, tg: Target, cs: Clauses, low: Clauses, tag: Val, k: nat, s0: State,
                                    t0: State, fuel: nat)
    requires tg.depth == p.d && tg.continueCode == 0
    requires FitsClauses(Within(p, tg), cs, tg.breakCode + 1, k)
    requires low == ClausesLow(Within(p, tg), cs, tg.breakCode + 1, k).clauses
    requires Ready(Within(p, tg), s0, t0, tg.breakCode + 1)
    ensures After(p, ExecCases(p.fn, cs, tag, tg.name, s0, fuel), ExecCases(p.fn, low, tag, tg.name, t0, fuel))
    ensures !ExecCases(p.fn, cs, tag, tg.name, s0, fuel).c.Fell?
    decreases cs, fuel, 2
  {
    ChooseLowered(Within(p, tg), cs, tg.breakCode + 1, k, tag, 0, s0.u);
    ChooseEnv(p.fn, cs, tag, 0, s0.u);
    var c := Choose(p.fn, cs, tag, 0, s0.u);
    if c.Chosen? {
      var index := if c.index >= 0 then c.index else DefaultIndex(cs, 0);
      var s1, t1 := s0.(u := c.u), t0.(u := c.u);
      if index >= 0 {
        SimClauses(Within(p, tg), cs, tg.breakCode + 1, k, index, s1, t1, fuel);
        var rs, rt := RunClauses(p.fn, cs, index, s1, fuel), RunClauses(p.fn, low, index, t1, fuel);
        if !rs.c.Stuck? { PopTarget(p, tg, rs, rt); }
      }
    }
  }

  lemma {:induction false} SimClauses(p: Point, cs: Clauses, n: int, k: nat, index: int, s0: State, t0: State,
                                      fuel: nat)
    requires FitsClauses(p, cs, n, k) && Ready(p, s0, t0, n)
    ensures After(p, RunClauses(p.fn, cs, index, s0, fuel),
                  RunClauses(p.fn, ClausesLow(p, cs, n, k).clauses, index, t0, fuel))
    ensures !RunClauses(p.fn, cs, index, s0, fuel).c.Fell?
    decreases cs, fuel, 1
  {
    if cs.Clause? {
      var b := BlockLow(p, cs.body, n, k);
      LowerBlockGrows(p.fn.slots, p.scoped, cs.body, p.d, p.ts, n, k);
      if index > 0 { SimClauses(p, cs.rest, b.nextCode, b.nextTemp, index - 1, s0, t0, fuel); }
      else { SimFirst(p, cs, n, k, index, s0, t0, fuel); }
    }
  }

  /** The clause chosen, and those it falls into. */
  lemma {:induction false} SimFirst(p: Point, cs: Clauses, n: int, k: nat, index: int, s0: State, t0: State, fuel: nat)
    requires cs.Clause? && FitsClauses(p, cs, n, k) && Ready(p, s0, t0, n) && index <= 0
    ensures After(p, RunClauses(p.fn, cs, index, s0, fuel),
                  RunClauses(p.fn, ClausesLow(p, cs, n, k).clauses, index, t0, fuel))
    ensures !RunClauses(p.fn, cs, index, s0, fuel).c.Fell?
    decreases cs, fuel, 0
  {
    var b := BlockLow(p, cs.body, n, k);
    LowerBlockGrows(p.fn.slots, p.scoped, cs.body, p.d, p.ts, n, k);
    SimBlock(p, true, cs.body, n, k, s0, t0, fuel);
    var rs, rt := ExecBlock(p.fn, cs.body, s0, fuel), ExecBlock(p.fn, b.code, t0, fuel);
    AfterLeave(p, rs, rt, s0.u.env);
    if rs.c.Fell? {
      SimClauses(p, cs.rest, b.nextCode, b.nextTemp, 0, Leave(rs, s0.u.env).st, Leave(rt, s0.u.env).st, fuel);
    }
  }

  // ----- try -----

  /** The parts of a lowered `try`. */
  ghost predicate TryParts(p: Point, s: Stmt, n: int, k: nat, code: Stmt, n1: int, k1: nat, n2: int, k2: nat) {
    && s.Try? && code.RtTry?
    && n <= n1 <= n2
    && FitsBlock(Deeper(p), false, s.body, n, k) && code.body == BlockLow(Deeper(p), s.body, n, k).code
    && (if s.handler.Func? then
          && FitsBlock(Deeper(p), false, s.handler.body, n1, k1)
          && code.handler == Func(Cons(SetFlow(0), BlockLow(Deeper(p), s.handler.body, n1, k1).code))
        else code.handler.NoClosure?)
    && (if s.finalizer.Func? then
          && FitsBlock(Deeper(p), false, s.finalizer.body, n2, k2)
          && code.finalizer == Func(FinalizerCode(Deeper(p), s.finalizer.body, n2, k2))
        else code.finalizer.NoClosure?)
  }

  /** One closure further in; what is fixed per call is left open. */
  ghost function Deeper(p: Point): Point {
    p.(d := p.d + 1)
  }

  function FinalizerCode(p: Point, b: Block, n: int, k: nat): Block {
    FinalizerPrologue(BlockLow(p, b, n, k).nextTemp + 1, BlockLow(p, b, n, k).code)
  }

  lemma ClosureParts(p: Point, c: Closure, n: int, k: nat)
    requires LegalClosure(p.fn.slots, c) && ShownClosure(SlotNames(p.fn.slots), c, p.d + 1, p.hidden)
    requires p.scoped || !DeepDeferClosure(c, p.d + 1)
    requires LowerClosure(p.fn.slots, p.scoped, c, p.d + 1, p.ts, n, k).ok
    requires Active(p.ts, p.d + 1) == {}
    ensures c.Func? ==> FitsBlock(Deeper(p), false, c.body, n, k)
    ensures c.Func? ==> LowerClosure(p.fn.slots, p.scoped, c, p.d + 1, p.ts, n, k) == BlockLow(Deeper(p), c.body, n, k)
  {}

  lemma {:induction false} TryLowered(p: Point, fall: bool, s: Stmt, lab: Name, n: int, k: nat)
    returns (code: Stmt, n1: int, k1: nat, n2: int, k2: nat)
    requires s.Try? && Fits(p, fall, s, lab, n, k) && TargetsOk(p.ts, p.d, n)
    ensures TryParts(p, s, n, k, code, n1, k1, n2, k2)
    ensures StmtCode(p, s, lab, n, k) == Wrapped(Cons(code, AfterTry(p)), lab)
  {
    var low := LowerTry(p.fn.slots, p.scoped, s, p.d, p.ts, n, k);
    assert LowerStmt(p.fn.slots, p.scoped, s, p.d, p.ts, lab, n, k) == low;
    var b := BlockLow(Deeper(p), s.body, n, k);
    var h := LowerClosure(p.fn.slots, p.scoped, s.handler, p.d + 1, p.ts, b.nextCode, b.nextTemp);
    LowerBlockGrows(p.fn.slots, p.scoped, s.body, p.d + 1, p.ts, n, k);
    LowerClosureGrows(p.fn.slots, p.scoped, s.handler, p.d + 1, p.ts, b.nextCode, b.nextTemp);
    DeeperTargets(p.ts, p.d, n, n);
    code := low.code.head;
    ClosureParts(p, s.handler, b.nextCode, b.nextTemp);
    ClosureParts(p, s.finalizer, h.nextCode, h.nextTemp);
    n1, k1, n2, k2 := b.nextCode, b.nextTemp, h.nextCode, h.nextTemp;
  }

  lemma {:induction false} SimTry(p: Point, fall: bool, s: Stmt, lab: Name, n: int, k: nat, s0: State, t0: State,
                                  fuel: nat)
    requires s.Try? && Fits(p, fall, s, lab, n, k) && Ready(p, s0, t0, n)
    ensures After(p, Exec(p.fn, s, lab, s0, fuel), ExecBlock(p.fn, StmtCode(p, s, lab, n, k), t0, fuel))
    ensures !Exec(p.fn, s, lab, s0, fuel).c.Fell?
    decreases s, fuel, 2
  {
    var code, n1, k1, n2, k2 := TryLowered(p, fall, s, lab, n, k);
    SimCall(p, s, n, k, code, n1, k1, n2, k2, s0, t0, fuel);
    var rs := ExecTry(p.fn, s, s0, fuel);
    assert Exec(p.fn, s, lab, s0, fuel) == rs;
    if p.d == 0 && rs.c.Returned? {
      LegalSourced(p.fn.slots, s, lab, Active(p.ts, p.d), fall);
      assert Exec(p.fn, s, NO_LABEL, s0, fuel) == rs;
      RunIsPath(p.fn, s, NO_LABEL, None, s0, fuel);
      AllVisible(p.fn, p.hidden, t0.u.env);
    }
    TryCode(p, code, lab, rs, t0, n, fuel);
  }

  /** The call of Try, the tests and the tail together. */
  lemma TryCode(p: Point, code: Stmt, lab: Name, rs: R, t0: State, n: int, fuel: nat)
    requires code.RtTry? && TargetsOk(p.ts, p.d, n) && (p.d == 0 && rs.c.Returned? ==> Visible(p.fn, t0.u.env))
    requires AfterCall(p, rs, ExecRtTry(p.fn, code, t0, fuel))
    requires rs.st.u.env == t0.u.env || rs.c.Stuck?
    ensures After(p, rs, ExecBlock(p.fn, Wrapped(Cons(code, AfterTry(p)), lab), t0, fuel))
  {
    var block := Cons(code, AfterTry(p));
    var ct := ExecRtTry(p.fn, code, t0, fuel);
    assert Exec(p.fn, code, NO_LABEL, t0, fuel) == ct;
    if ct.c.Normal? { TestsResume(p, rs, ct.st, n, fuel); }
    assert ExecBlock(p.fn, block, t0, fuel) == if ct.c.Normal? then ExecBlock(p.fn, AfterTry(p), ct.st, fuel) else ct;
    assert After(p, rs, ExecBlock(p.fn, block, t0, fuel));
    TryCodeLength(p);
    ExecWrapped(p.fn, block, lab, t0, fuel);
    AfterLeave(p, rs, ExecBlock(p.fn, block, t0, fuel), t0.u.env);
    if !rs.c.Stuck? { LeaveSame(rs, t0.u.env); }
  }

  lemma TryCodeLength(p: Point)
    ensures Length(AfterTry(p)) >= 1
  {
    var tests := Tests(p.ts, |p.ts|, p.d, false, false);
    if tests.Nil? { assert AfterTry(p) == Single(Tail(p.d)); }
  }

  /** The call of Try leaves the signal of the completion of the source `try`. */
  lemma {:induction false} SimCall(p: Point, s: Stmt, n: int, k: nat, code: Stmt, n1: int, k1: nat, n2: int, k2: nat,
                                   s0: State, t0: State, fuel: nat)
    requires TryParts(p, s, n, k, code, n1, k1, n2, k2) && Ready(p, s0, t0, n)
    ensures AfterCall(p, ExecTry(p.fn, s, s0, fuel), ExecRtTry(p.fn, code, t0, fuel))
    ensures ExecTry(p.fn, s, s0, fuel).c.Stuck? || ExecTry(p.fn, s, s0, fuel).st.u.env == s0.u.env
    decreases s, fuel, 1
  {
    SimTryBody(p, s, n, k, code, n1, k1, n2, k2, s0, t0, fuel);
    var bs, bt := Leave(ExecBlock(p.fn, s.body, s0, fuel), s0.u.env), EndCall(p.fn,
        ExecBlock(p.fn, code.body, Enter(t0), fuel), t0);
    SimHandled(p, s, n, k, code, n1, k1, n2, k2, s0, t0, bs, bt, fuel);
    var hs, ht := SourceHandled(p.fn, s, s0, bs, fuel), CodeHandled(p.fn, code, t0, bt, fuel);
    SimFinalized(p, s, n, k, code, n1, k1, n2, k2, s0, t0, hs, ht, fuel);
    assert ExecTry(p.fn, s, s0, fuel) == SourceFinalized(p.fn, s, s0, hs, fuel);
    assert ExecRtTry(p.fn, code, t0, fuel) == CodeFinalized(p.fn, code, t0, ht, fuel);
  }

  lemma {:induction false} SimTryBody(p: Point, s: Stmt, n: int, k: nat, code: Stmt, n1: int, k1: nat, n2: int,
                                      k2: nat, s0: State, t0: State, fuel: nat)
    requires TryParts(p, s, n, k, code, n1, k1, n2, k2) && Ready(p, s0, t0, n)
    ensures Between(p, t0, Leave(ExecBlock(p.fn, s.body, s0, fuel), s0.u.env),
                    EndCall(p.fn, ExecBlock(p.fn, code.body, Enter(t0), fuel), t0))
    decreases s, fuel, 0
  {
    DeeperTargets(p.ts, p.d, n, n);
    SimBlock(Inside(p, s0, EMPTY_FRAME), false, s.body, n, k, s0, Enter(t0), fuel);
    CallEnds(p, s0, t0, ExecBlock(p.fn, s.body, s0, fuel), ExecBlock(p.fn, code.body, Enter(t0), fuel), n);
  }

  /** From the end of the handler: the finalizer, if any. */
  ghost function SourceFinalized(fn: Fn, s: Stmt, st: State, h: R, fuel: nat): R
    requires s.Try?
  {
    if h.c.Stuck? || s.finalizer.NoClosure? then h
    else Pending(h.c, Leave(ExecBlock(fn, s.finalizer.body, h.st, fuel), st.u.env))
  }

  ghost function CodeFinalized(fn: Fn, code: Stmt, st: State, h: R, fuel: nat): R
    requires code.RtTry?
  {
    if h.c.Stuck? || code.finalizer.NoClosure? then h
    else
      var f := EndCall(fn, ExecBlock(fn, code.finalizer.body, Enter(h.st), fuel), st);
      R(if f.c.Stuck? || f.c.Thrown? then f.c else h.c, f.st)
  }

  lemma {:induction false} SimFinalized(p: Point, s: Stmt, n: int, k: nat, code: Stmt, n1: int, k1: nat, n2: int,
                                        k2: nat,
                                       s0: State, t0: State, hs: R, ht: R, fuel: nat)
    requires TryParts(p, s, n, k, code, n1, k1, n2, k2) && Ready(p, s0, t0, n) && Between(p, t0, hs, ht)
    ensures var rs := SourceFinalized(p.fn, s, s0, hs, fuel);
            AfterCall(p, rs, CodeFinalized(p.fn, code, t0, ht, fuel)) && (rs.c.Stuck? || rs.st.u.env == s0.u.env)
    decreases s, fuel, 0
  {
    if !hs.c.Stuck? && s.finalizer.Func? { SimFinalizer(p, s.finalizer.body, n2, k2, n, t0, hs, ht, fuel); }
  }

  /** From the end of the body: the handler runs if it catches. */
  ghost function SourceHandled(fn: Fn, s: Stmt, st: State, b: R, fuel: nat): R
    requires s.Try?
  {
    if Catches(b.c, s.handler)
        then Leave(ExecBlock(fn, s.handler.body, b.st.(u := WithCaught(b.st.u, b.c.v)), fuel), st.u.env) else b
  }

  ghost function CodeHandled(fn: Fn, code: Stmt, st: State, b: R, fuel: nat): R
    requires code.RtTry?
  {
    if Catches(b.c, code.handler)
    then EndCall(fn, ExecBlock(fn, code.handler.body, Enter(b.st.(u := WithCaught(b.st.u, b.c.v))), fuel), st) else b
  }

  ghost predicate Between(p: Point, caller: State, rs: R, rt: R) {
    && AfterCall(p, rs, rt) && !rs.c.Fell?
    && (rs.c.Stuck? || (FrameAgrees(p, rs.st, caller) && rt.st.frame == caller.frame && rs.st.u.env == caller.u.env))
  }

  lemma {:induction false} SimHandled(p: Point, s: Stmt, n: int, k: nat, code: Stmt, n1: int, k1: nat, n2: int, k2: nat,
                                     s0: State, t0: State, bs: R, bt: R, fuel: nat)
    requires TryParts(p, s, n, k, code, n1, k1, n2, k2) && Ready(p, s0, t0, n) && Between(p, t0, bs, bt)
    ensures Between(p, t0, SourceHandled(p.fn, s, s0, bs, fuel), CodeHandled(p.fn, code, t0, bt, fuel))
    decreases s, fuel, 0
  {
    if !bs.c.Stuck? && Catches(bs.c, s.handler) { SimHandler(p, s.handler.body, n1, k1, n, t0, bs, bt, fuel); }
  }

  lemma CaughtVisible(fn: Fn, hidden: set<Name>, v: Val, u: User)
    requires VisibleBut(fn, hidden, u.env) && "ghi_caught" !in SlotNames(fn.slots)
    ensures VisibleBut(fn, hidden, WithCaught(u, v).env)
  {
    VisibleBind(fn, hidden, ["ghi_caught"], [v], u);
    if fn.slots.Named? {
      forall i | 0 <= i < |fn.slots.names| ensures fn.slots.names[i] != "ghi_caught" {
        assert fn.slots.names[i] in SlotNames(fn.slots);
      }
    }
  }

  lemma {:induction false} SimHandler(p: Point, b: Block, n: int, k: nat, m: int, caller: State, hs: R, ht: R,
                                      fuel: nat)
    requires m <= n && TargetsOk(p.ts, p.d, m) && "ghi_caught" !in SlotNames(p.fn.slots)
    requires FitsBlock(Deeper(p), false, b, n, k)
    requires hs.c.Thrown? && ht.c == hs.c && AfterCall(p, hs, ht)
    requires FrameAgrees(p, hs.st, caller) && ht.st.frame == caller.frame && hs.st.u.env == caller.u.env
    ensures var sc, tc := hs.st.(u := WithCaught(hs.st.u, hs.c.v)), Enter(ht.st.(u := WithCaught(ht.st.u, ht.c.v)));
            var code := Cons(SetFlow(0), BlockLow(Deeper(p), b, n, k).code);
            var rs := Leave(ExecBlock(p.fn, b, sc, fuel), caller.u.env);
            var rt := EndCall(p.fn, ExecBlock(p.fn, code, tc, fuel), caller);
            Between(p, caller, rs, rt)
    decreases b, fuel, 2
  {
    var sc, tc := hs.st.(u := WithCaught(hs.st.u, hs.c.v)), Enter(ht.st.(u := WithCaught(ht.st.u, ht.c.v)));
    var low := BlockLow(Deeper(p), b, n, k).code;
    var t1 := tc.(flow := 0);
    CaughtVisible(p.fn, p.hidden, hs.c.v, hs.st.u);
    DeeperTargets(p.ts, p.d, m, n);
    SimBlock(Inside(p, hs.st, EMPTY_FRAME), false, b, n, k, sc, t1, fuel);
    assert Exec(p.fn, SetFlow(0), NO_LABEL, tc, fuel) == R(Normal, t1);
    assert ExecBlock(p.fn, Cons(SetFlow(0), low), tc, fuel) == ExecBlock(p.fn, low, t1, fuel);
    CallEnds(p, hs.st, caller, ExecBlock(p.fn, b, sc, fuel), ExecBlock(p.fn, low, t1, fuel), m);
  }

  lemma {:induction false} SimFinalizer(p: Point, b: Block, n: int, k: nat, m: int, caller: State, hs: R, ht: R,
                                        fuel: nat)
    requires m <= n && TargetsOk(p.ts, p.d, m) && "ghi_caught" !in SlotNames(p.fn.slots)
    requires FitsBlock(Deeper(p), false, b, n, k)
    requires FrameAgrees(p, hs.st, caller) && ht.st.frame == caller.frame && hs.st.u.env == caller.u.env
    requires !hs.c.Stuck? && AfterCall(p, hs, ht)
    ensures var f := EndCall(p.fn, ExecBlock(p.fn, FinalizerCode(Deeper(p), b, n, k), Enter(ht.st), fuel), caller);
            AfterCall(p, Pending(hs.c, Leave(ExecBlock(p.fn, b, hs.st, fuel), caller.u.env)),
                      R(if f.c.Stuck? || f.c.Thrown? then f.c else ht.c, f.st))
    decreases b, fuel, 3
  {
    var low := BlockLow(Deeper(p), b, n, k);
    var temp := low.nextTemp + 1;
    var frame := FinalizerFrame(temp, ht.st.flow);
    var t1 := ht.st.(frame := frame, flow := 0);
    PrologueRuns(p.fn, temp, low.code, ht.st, fuel);
    SimInside(p, b, n, k, m, caller, hs, t1, frame, fuel);
    FinalizerEnds(p, caller, hs, ht, temp, ExecBlock(p.fn, b, hs.st, fuel), ExecBlock(p.fn, low.code, t1, fuel), m);
  }

  /** A closure's code, run in its own frame from a clear signal. */
  lemma {:induction false} SimInside(p: Point, b: Block, n: int, k: nat, m: int, caller: State, hs: R, t: State,
                                     frame: Frame, fuel: nat)
    requires m <= n && TargetsOk(p.ts, p.d, m) && "ghi_caught" !in SlotNames(p.fn.slots)
    requires FitsBlock(Deeper(p), false, b, n, k)
    requires FrameAgrees(p, hs.st, caller) && hs.st.u.env == caller.u.env
    requires t.u == hs.st.u && t.locals == hs.st.results && t.flow == 0 && t.frame == frame
    requires p.scoped ==> hs.st.frame.defers == AsCallbacks(t.registered)
    ensures var rs := ExecBlock(p.fn, b, hs.st, fuel);
            After(Inside(p, hs.st, frame), rs, ExecBlock(p.fn, BlockLow(Deeper(p), b, n, k).code, t, fuel))
                && !rs.c.Fell?
    decreases b, fuel, 2
  {
    DeeperTargets(p.ts, p.d, m, n);
    SimBlock(Inside(p, hs.st, frame), false, b, n, k, hs.st, t, fuel);
  }
}
