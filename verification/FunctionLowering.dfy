/** Lowering of a whole function (internal/compiler/control_flow.go,
    internal/compiler/defer_scope.go) and the theorem that it preserves the
    function's outcome. */
module FunctionLowering {
  import opened Syntax
  import opened Machine
  import opened Headers
  import opened Lowering
  import opened Legal
  import opened Terminating
  import opened LoweringFacts
  import opened Lowerable
  import opened Simulation

  /** Some `try` occurs in the block. */
  predicate UsesTry(s: Stmt)
    decreases s
  {
    match s
    case Scope(body) => BlockUsesTry(body)
    case If(init, _, thn, els) => BlockUsesTry(init) || BlockUsesTry(thn) || BlockUsesTry(els)
    case For(init, _, post, body) => BlockUsesTry(init) || BlockUsesTry(post) || BlockUsesTry(body)
    case Range(_, _, _, body) => BlockUsesTry(body)
    case Switch(init, _, clauses) => BlockUsesTry(init) || ClausesUseTry(clauses)
    case Labeled(_, inner) => UsesTry(inner)
    case Try(_, _, _) => true
    case _ => false
  }

  predicate BlockUsesTry(b: Block)
    decreases b
  {
    match b
    case Nil => false
    case Cons(h, t) => UsesTry(h) || BlockUsesTry(t)
  }

  predicate ClausesUseTry(cs: Clauses)
    decreases cs
  {
    match cs
    case NoClauses => false
    case Clause(_, _, body, rest) => BlockUsesTry(body) || ClausesUseTry(rest)
  }

  function Unreachable(): Block {
    Single(Panic(Atom(0, {}, {})))
  }

  function ReturnLocals(slots: Slots): nat {
    if slots.Unnamed? then slots.count else 0
  }

  function LowerFunction(slots: Slots, body: Block): (Block, bool) {
    var scoped := DeepDeferBlock(body, 0);
    var low := LowerBlock(slots, scoped, body, 0, [], FIRST_CODE, 0);
    var scopedCode := if scoped then Cons(DeferRunDefers, low.code) else low.code;
    (if !BlockUsesTry(body) then scopedCode
     else
       var declared := Cons(DeclareSignal(ReturnLocals(slots)), scopedCode);
       if SlotCount(slots) > 0 && BlockTerminates(body) then Append(declared, Unreachable()) else declared,
     low.ok)
  }

  /** A function is lowered without an error exactly when its text allows it. */
  lemma LowersExactly(slots: Slots, body: Block)
    ensures LowerFunction(slots, body).1 <==> LowersBlock(slots, body, 0, [])
  {
    BlockLowers(slots, DeepDeferBlock(body, 0), body, 0, [], FIRST_CODE, 0);
    assert Around([]) == [];
  }

  /** Go starts every call with zeroed variables. */
  ghost function Begin(fn: Fn, u: User): State {
    var zeros := seq(ReturnLocals(fn.slots), _ => 0);
    State(u, zeros, zeros, 0, [], EMPTY_FRAME)
  }

  /** The deferred calls of the source function and of the generated one have
      the same effect, whichever way they were registered. */
  lemma {:induction false} CallbacksRun(fn: Fn, vs: seq<Val>, c: Comp, s: State, t: State)
    requires s.u == t.u
    ensures var rs, rt := RunDeferred(fn, AsCallbacks(vs), c, s), RunCallbacks(fn, vs, c, t);
            && rs.c == rt.c && (rs.c == c || rs.c.Thrown?)
            && rs.st == s.(u := rs.st.u) && rt.st == t.(u := rs.st.u)
    decreases |vs|
  {
    LastFirst(fn, vs, c, t);
    if vs != [] {
      var ds := AsCallbacks(vs);
      assert ds[..|ds| - 1] == AsCallbacks(vs[..|vs| - 1]);
      var a, b := RunCallback(fn, vs[|vs| - 1], c, s), RunCallback(fn, vs[|vs| - 1], c, t);
      assert RunOne(fn, ds[|ds| - 1], c, s) == a;
      CallbacksRun(fn, vs[..|vs| - 1], a.c, a.st, b.st);
    }
  }

  function Values(ds: seq<Deferred>): seq<Val>
    requires OnlyCallbacks(ds)
  {
    seq(|ds|, i requires 0 <= i < |ds| => ds[i].v)
  }

  lemma DefersRun(fn: Fn, ds: seq<Deferred>, c: Comp, s: State, t: State)
    requires OnlyCallbacks(ds) && s.u == t.u
    ensures var rs, rt := RunDeferred(fn, ds, c, s), RunDeferred(fn, ds, c, t);
            && rs.c == rt.c && (rs.c == c || rs.c.Thrown?)
            && rs.st == s.(u := rs.st.u) && rt.st == t.(u := rs.st.u)
  {
    assert AsCallbacks(Values(ds)) == ds;
    CallbacksRun(fn, Values(ds), c, s, s);
    CallbacksRun(fn, Values(ds), c, s, t);
    CallbacksRun(fn, Values(ds), c, t, s);
  }

  /** What the caller of a function can observe: how it ended, the program's
      state, and the results it returned. */
  ghost predicate SameOutcome(fn: Fn, rs: R, rt: R) {
    || (rs.c.Stuck? && rt.c.Stuck?)
    || (!rs.c.Stuck? && rt.c == rs.c && rt.st.u == rs.st.u
        && (rs.c.Returned? && fn.slots.Unnamed? && fn.slots.count > 0 ==> rt.st.results == rs.st.results))
  }

  ghost predicate LegalFunction(fn: Fn, body: Block, u: User) {
    && LegalBlock(fn.slots, body, {}, false)
    && "ghi_caught" !in SlotNames(fn.slots)
    && Visible(fn, u.env)
  }

  ghost function TopPoint(fn: Fn, scoped: bool, frame: Frame): Point {
    Point(fn, scoped, 0, [], [], frame, {})
  }

  /** At function level no jump is left, so only three completions remain. */
  lemma TopCompletions(fn: Fn, scoped: bool, frame: Frame, rs: R, rt: R)
    requires After(TopPoint(fn, scoped, frame), rs, rt) && !rs.c.Fell?
    ensures rs.c.Stuck? || rs.c.Normal? || rs.c.Returned? || rs.c.Thrown?
    ensures !rs.c.Stuck? ==> rt.c == rs.c
  {}

  lemma BodyPreserved(fn: Fn, body: Block, u: User, fuel: nat, t: State)
    requires LegalFunction(fn, body, u) && ShownBlock(SlotNames(fn.slots), body, 0, {})
    requires LowersBlock(fn.slots, body, 0, [])
    requires var scoped := DeepDeferBlock(body, 0);
             t == Begin(fn, u).(frame := Frame(map[], if scoped then [RunDefers] else []))
    ensures var scoped := DeepDeferBlock(body, 0);
            var code := LowerBlock(fn.slots, scoped, body, 0, [], FIRST_CODE, 0).code;
            var rs := ExecBlock(fn, body, Begin(fn, u), fuel);
            && After(TopPoint(fn, scoped, t.frame), rs, ExecBlock(fn, code, t, fuel))
            && !rs.c.Fell?
            && (BlockTerminates(body) ==> !rs.c.Normal?)
  {
    var scoped := DeepDeferBlock(body, 0);
    var p := TopPoint(fn, scoped, t.frame);
    assert AsCallbacks([]) == [];
    assert Active([], 0) == {};
    LowersExactly(fn.slots, body);
    SimBlock(p, false, body, FIRST_CODE, 0, Begin(fn, u), t, fuel);
    if BlockTerminates(body) { TerminatingBlock(fn, body, Begin(fn, u), fuel); }
  }

  /** The declarations in front of the body leave the state it expects. */
  lemma PrefixRuns(fn: Fn, body: Block, code: Block, u: User, fuel: nat)
    ensures var scoped := DeepDeferBlock(body, 0);
            var t := Begin(fn, u).(frame := Frame(map[], if scoped then [RunDefers] else []));
            var scopedCode := if scoped then Cons(DeferRunDefers, code) else code;
            var prefixed := if BlockUsesTry(body) then Cons(DeclareSignal(ReturnLocals(fn.slots)), scopedCode)
                else scopedCode;
            ExecBlock(fn, prefixed, Begin(fn, u), fuel) == ExecBlock(fn, code, t, fuel)
  {
    var scoped := DeepDeferBlock(body, 0);
    var s0 := Begin(fn, u);
    var t := s0.(frame := Frame(map[], if scoped then [RunDefers] else []));
    var scopedCode := if scoped then Cons(DeferRunDefers, code) else code;
    if scoped {
      assert [] + [RunDefers] == [RunDefers];
      assert Exec(fn, DeferRunDefers, NO_LABEL, s0, fuel) == R(Normal, t);
    }
    assert ExecBlock(fn, scopedCode, s0, fuel) == ExecBlock(fn, code, t, fuel);
    if BlockUsesTry(body) {
      var declare := DeclareSignal(ReturnLocals(fn.slots));
      assert Exec(fn, declare, NO_LABEL, s0, fuel) == R(Normal, s0);
      assert ExecBlock(fn, Cons(declare, scopedCode), s0, fuel) == ExecBlock(fn, scopedCode, s0, fuel);
    }
  }

  /** The declarations before the lowered body put the machine in the state the
      simulation starts from; the "unreachable" panic after it never runs. */
  lemma CodeRuns(fn: Fn, body: Block, u: User, fuel: nat)
    requires LegalFunction(fn, body, u) && ShownBlock(SlotNames(fn.slots), body, 0, {})
    requires LowersBlock(fn.slots, body, 0, [])
    ensures var scoped := DeepDeferBlock(body, 0);
            var t := Begin(fn, u).(frame := Frame(map[], if scoped then [RunDefers] else []));
            var code := LowerBlock(fn.slots, scoped, body, 0, [], FIRST_CODE, 0).code;
            ExecBlock(fn, LowerFunction(fn.slots, body).0, Begin(fn, u), fuel) == ExecBlock(fn, code, t, fuel)
  {
    var scoped := DeepDeferBlock(body, 0);
    var frame := Frame(map[], if scoped then [RunDefers] else []);
    var s0 := Begin(fn, u);
    var t := s0.(frame := frame);
    var code := LowerBlock(fn.slots, scoped, body, 0, [], FIRST_CODE, 0).code;
    PrefixRuns(fn, body, code, u, fuel);
    if BlockUsesTry(body) && SlotCount(fn.slots) > 0 && BlockTerminates(body) {
      var scopedCode := if scoped then Cons(DeferRunDefers, code) else code;
      BodyPreserved(fn, body, u, fuel, t);
      TopCompletions(fn, scoped, frame, ExecBlock(fn, body, s0, fuel), ExecBlock(fn, code, t, fuel));
      ExecAppend(fn, Cons(DeclareSignal(ReturnLocals(fn.slots)), scopedCode), Unreachable(), s0, fuel);
    }
  }

  /** Lowering preserves the outcome of every function: for every body in which no
      local variable hides a named result where generated code uses it, every
      behaviour of its expressions and every bound on loop turns. */
  lemma LoweringPreservesOutcome(fn: Fn, body: Block, u: User, fuel: nat)
    requires LegalFunction(fn, body, u) && ShownBlock(SlotNames(fn.slots), body, 0, {})
    requires LowersBlock(fn.slots, body, 0, [])
    ensures SameOutcome(fn, RunFunction(fn, body, Begin(fn, u), fuel),
                        RunFunction(fn, LowerFunction(fn.slots, body).0, Begin(fn, u), fuel))
  {
    var scoped := DeepDeferBlock(body, 0);
    var s0 := Begin(fn, u);
    var t := s0.(frame := Frame(map[], if scoped then [RunDefers] else []));
    var code := LowerBlock(fn.slots, scoped, body, 0, [], FIRST_CODE, 0).code;
    CodeRuns(fn, body, u, fuel);
    BodyPreserved(fn, body, u, fuel, t);
    var rs, rt := ExecBlock(fn, body, s0, fuel), ExecBlock(fn, code, t, fuel);
    TopCompletions(fn, scoped, t.frame, rs, rt);
    assert Enter(s0) == s0;
    if !rs.c.Stuck? { ExitsAgree(fn, scoped, t.frame, rs, rt); }
  }

  lemma ExitsAgree(fn: Fn, scoped: bool, frame: Frame, rs: R, rt: R)
    requires After(TopPoint(fn, scoped, frame), rs, rt) && !rs.c.Stuck? && rt.c == rs.c
    requires scoped ==> frame.defers == [RunDefers]
    ensures SameOutcome(fn, RunDeferred(fn, rs.st.frame.defers, rs.c, rs.st),
                        RunDeferred(fn, rt.st.frame.defers, rt.c, rt.st))
  {
    var ds := rs.st.frame.defers;
    if scoped {
      CallbacksRun(fn, rt.st.registered, rs.c, rs.st, rt.st);
      var r := RunCallbacks(fn, rt.st.registered, rt.c, rt.st);
      assert [RunDefers][..0] == [];
      assert RunDeferred(fn, [RunDefers], rt.c, rt.st) == RunDeferred(fn, [], r.c, r.st);
    } else {
      DefersRun(fn, ds, rs.c, rs.st, rt.st);
    }
  }

  /** At every depth, code that completes normally leaves no signal pending. */
  lemma FragmentLeavesNoSignal(p: Point, fall: bool, b: Block, n: int, k: nat, s0: State, t0: State, fuel: nat)
    requires FitsBlock(p, fall, b, n, k) && Ready(p, s0, t0, n)
    ensures var r := ExecBlock(p.fn, LowerBlock(p.fn.slots, p.scoped, b, p.d, p.ts, n, k).code, t0, fuel);
            r.c.Normal? ==> r.st.flow == 0
  {
    SimBlock(p, fall, b, n, k, s0, t0, fuel);
  }

  /** ... and so does the whole function. */
  lemma FunctionLeavesNoSignal(fn: Fn, body: Block, u: User, fuel: nat)
    requires LegalFunction(fn, body, u) && ShownBlock(SlotNames(fn.slots), body, 0, {})
    requires LowersBlock(fn.slots, body, 0, [])
    ensures var r := ExecBlock(fn, LowerFunction(fn.slots, body).0, Begin(fn, u), fuel);
            r.c.Normal? ==> r.st.flow == 0
  {
    var scoped := DeepDeferBlock(body, 0);
    CodeRuns(fn, body, u, fuel);
    BodyPreserved(fn, body, u, fuel, Begin(fn, u).(frame := Frame(map[], if scoped then [RunDefers] else [])));
  }
}
