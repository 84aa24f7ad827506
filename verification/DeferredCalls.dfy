/** What happens to deferred callbacks when a function ends
    (internal/compiler/runtime_emit.go, internal/compiler/defer_scope.go). */
module DeferredCalls {
  import opened Syntax
  import opened Machine
  import opened Headers
  import opened Lowering
  import opened Legal
  import opened LoweringFacts
  import opened FunctionLowering
  import opened Lowerable

  /** The k-th call to run is that of the k-th callback from the end. */
  ghost function CallAt(fn: Fn, vs: seq<Val>, us: seq<User>, k: nat): Outcome
    requires k < |vs| && k < |us|
  {
    EvalExpr(fn, Call(vs[|vs| - 1 - k]), us[k])
  }

  /** `us` are the program's states between the calls: every callback runs
      exactly once, the last registered first, also after one has thrown; the
      function then ends with the last exception thrown, or as it was ending. */
  ghost predicate EachRan(fn: Fn, vs: seq<Val>, us: seq<User>, c: Comp, result: Comp) {
    && |us| == |vs| + 1
    && (forall k :: 0 <= k < |vs| ==> us[k + 1] == CallAt(fn, vs, us, k).u)
    && (|| (result == c && forall k :: 0 <= k < |vs| ==> CallAt(fn, vs, us, k).Yields?)
        || (exists k :: 0 <= k < |vs| && Last(fn, vs, us, k, result)))
  }

  ghost predicate Last(fn: Fn, vs: seq<Val>, us: seq<User>, k: nat, result: Comp)
    requires k < |vs| && |us| == |vs| + 1
  {
    var o := CallAt(fn, vs, us, k);
    && o.Raises? && result == Thrown(o.v, o.native)
    && forall j :: k < j < |vs| ==> CallAt(fn, vs, us, j).Yields?
  }

  ghost predicate Ran(fn: Fn, vs: seq<Val>, us: seq<User>, c: Comp, st: State, r: R) {
    EachRan(fn, vs, us, c, r.c) && us[0] == st.u && r.st == st.(u := us[|vs|])
  }

  lemma {:induction false} CallbacksRunOnce(fn: Fn, vs: seq<Val>, c: Comp, st: State)
    ensures exists us :: Ran(fn, vs, us, c, st, RunCallbacks(fn, vs, c, st))
    decreases |vs|
  {
    LastFirst(fn, vs, c, st);
    if vs == [] {
      assert Ran(fn, vs, [st.u], c, st, RunCallbacks(fn, vs, c, st));
    } else {
      var first := RunCallback(fn, vs[|vs| - 1], c, st);
      var rest := vs[..|vs| - 1];
      var r := RunCallbacks(fn, rest, first.c, first.st);
      CallbacksRunOnce(fn, rest, first.c, first.st);
      var us :| Ran(fn, rest, us, first.c, first.st, r);
      OneMore(fn, vs, us, st.u, c, r.c);
      assert ([st.u] + us)[|vs|] == us[|rest|];
      assert Ran(fn, vs, [st.u] + us, c, st, r);
    }
  }

  /** The calls of the others keep their places, one later. */
  lemma ShiftedCalls(fn: Fn, vs: seq<Val>, us: seq<User>, u: User, k: nat)
    requires vs != [] && k < |vs| - 1 && |us| == |vs|
    ensures CallAt(fn, vs, [u] + us, k + 1) == CallAt(fn, vs[..|vs| - 1], us, k)
  {
    var rest := vs[..|vs| - 1];
    assert rest[|rest| - 1 - k] == vs[|vs| - 1 - (k + 1)];
  }

  lemma OneMore(fn: Fn, vs: seq<Val>, us: seq<User>, u: User, c: Comp, result: Comp)
    requires vs != []
    requires var o := EvalExpr(fn, Call(vs[|vs| - 1]), u);
             EachRan(fn, vs[..|vs| - 1], us, if o.Yields? then c else Thrown(o.v, o.native), result) && us[0] == o.u
    ensures EachRan(fn, vs, [u] + us, c, result)
  {
    var all, rest := [u] + us, vs[..|vs| - 1];
    assert CallAt(fn, vs, all, 0) == EvalExpr(fn, Call(vs[|vs| - 1]), u);
    forall j | 1 <= j < |vs| ensures CallAt(fn, vs, all, j) == CallAt(fn, rest, us, j - 1) {
      ShiftedCalls(fn, vs, us, u, j - 1);
    }
    if exists k :: 0 <= k < |rest| && Last(fn, rest, us, k, result) {
      var k :| 0 <= k < |rest| && Last(fn, rest, us, k, result);
      assert Last(fn, vs, all, k + 1, result);
    } else if CallAt(fn, vs, all, 0).Raises? {
      assert Last(fn, vs, all, 0, result);
    }
  }

  /** At the end of every function, the callbacks that some `defer` of its body
      registered, at whatever depth of nested `try`, are what the generated
      function runs, each exactly once and in reverse order. */
  lemma DefersRunAtExit(fn: Fn, body: Block, u: User, fuel: nat)
    requires LegalFunction(fn, body, u) && ShownBlock(SlotNames(fn.slots), body, 0, {})
             && LowersBlock(fn.slots, body, 0, [])
    ensures var rs := ExecBlock(fn, body, Begin(fn, u), fuel);
            var rt := RunFunction(fn, LowerFunction(fn.slots, body).0, Begin(fn, u), fuel);
            rs.c.Stuck? == rt.c.Stuck? && (!rs.c.Stuck? ==>
              exists vs, us :: && rs.st.frame.defers == AsCallbacks(vs)
                               && EachRan(fn, vs, us, rs.c, rt.c) && us[0] == rs.st.u && us[|vs|] == rt.st.u)
  {
    var s0 := Begin(fn, u);
    assert Enter(s0) == s0;
    LoweringPreservesOutcome(fn, body, u, fuel);
    var t := s0.(frame := Frame(map[], if DeepDeferBlock(body, 0) then [RunDefers] else []));
    BodyPreserved(fn, body, u, fuel, t);
    var rs := ExecBlock(fn, body, s0, fuel);
    if !rs.c.Stuck? {
      var ds := rs.st.frame.defers;
      assert OnlyCallbacks(ds);
      var vs := Values(ds);
      assert AsCallbacks(vs) == ds;
      CallbacksRun(fn, vs, rs.c, rs.st, rs.st);
      CallbacksRunOnce(fn, vs, rs.c, rs.st);
      var r := RunCallbacks(fn, vs, rs.c, rs.st);
      var us :| Ran(fn, vs, us, rs.c, rs.st, r);
      assert EachRan(fn, vs, us, rs.c, RunFunction(fn, LowerFunction(fn.slots, body).0, s0, fuel).c);
    }
  }
}
