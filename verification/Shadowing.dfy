/** `return` inside `try` assigns the result slots by name
    (internal/compiler/control_flow.go), so a local variable that hides a named
    result receives the value instead of the result; and the code after a `try`
    returns the slots by name, so it writes the result from such a variable. This
    module shows both on concrete functions and states exactly when each is right. */
module Shadowing {
  import opened Syntax
  import opened Machine
  import opened Lowering
  import opened Legal
  import opened LoweringFacts
  import opened Terminating
  import opened FunctionLowering

  /** The last of `names` that denotes cell `c`, or -1. */
  ghost function LastAt(env: map<Name, nat>, names: seq<Name>, c: nat): (j: int)
    ensures -1 <= j < |names|
    ensures j >= 0 ==> names[j] in env && env[names[j]] == c
    decreases |names|
  {
    if names == [] then -1
    else
      var last := |names| - 1;
      if names[last] in env && env[names[last]] == c then last else LastAt(env, names[..last], c)
  }

  lemma {:induction false} LastAtTail(env: map<Name, nat>, names: seq<Name>, c: nat)
    requires names != []
    ensures var j := LastAt(env, names[1..], c);
            LastAt(env, names, c) ==
            if j >= 0 then j + 1 else if names[0] in env && env[names[0]] == c then 0 else -1
    decreases |names|
  {
    var last := |names| - 1;
    if !(names[last] in env && env[names[last]] == c) && last > 0 {
      assert names[1..][..last - 1] == names[..last][1..];
      LastAtTail(env, names[..last], c);
    }
  }

  /** What the assignment to the names leaves in a cell. */
  lemma {:induction false} StoredAt(fn: Fn, names: seq<Name>, vals: seq<Val>, u: User, c: nat)
    requires |vals| == |names|
    ensures var o := StoreAll(fn, Vars2Lhs(names), vals, u);
            var j := LastAt(u.env, names, c);
            && o.Yields?
            && if j >= 0 then c in o.u.heap && o.u.heap[c] == vals[j]
               else (c in o.u.heap <==> c in u.heap) && (c in u.heap ==> o.u.heap[c] == u.heap[c])
    decreases |names|
  {
    if names != [] {
      var lhs := Vars2Lhs(names);
      assert lhs[1..] == Vars2Lhs(names[1..]);
      var w := Store(fn, lhs[0], First(vals), u).u;
      StoredAt(fn, names[1..], vals[1..], w, c);
      LastAtTail(u.env, names, c);
    }
  }

  lemma {:induction false} SetAt(cells: seq<nat>, vals: seq<Val>, u: User, i: nat)
    requires |vals| == |cells| && i < |cells|
    requires forall a, b :: 0 <= a < b < |cells| ==> cells[a] != cells[b]
    ensures var w := SetCells(cells, vals, u); cells[i] in w.heap && w.heap[cells[i]] == vals[i]
    decreases |cells|
  {
    var w := u.(heap := u.heap[cells[0] := First(vals)]);
    if i > 0 { SetAt(cells[1..], vals[1..], w, i - 1); }
    else { SetElsewhere(cells[1..], vals[1..], w, cells[0]); }
  }

  lemma {:induction false} SetElsewhere(cells: seq<nat>, vals: seq<Val>, u: User, c: nat)
    requires |vals| == |cells| && c !in cells
    ensures c in SetCells(cells, vals, u).heap <==> c in u.heap
    ensures c in u.heap ==> SetCells(cells, vals, u).heap[c] == u.heap[c]
    decreases |cells|
  {
    if cells != [] { SetElsewhere(cells[1..], vals[1..], u.(heap := u.heap[cells[0] := First(vals)]), c); }
  }

  /** The assignment the lowering emits writes what `return` must write. */
  ghost predicate WritesResults(fn: Fn, vals: seq<Val>, u: User)
    requires fn.slots.Named?
  {
    StoreAll(fn, Vars2Lhs(fn.slots.names), vals, u) == Yields([], SetCells(fn.slots.cells, vals, u))
  }

  /** Distinct values, the i-th of which is not what cell `c` holds. */
  function Probe(n: nat, i: nat, heap: map<nat, Val>, c: nat): seq<Val> {
    var offset := if c in heap && heap[c] == i then 1 else 0;
    seq(n, k => k + offset)
  }

  /** The lowered `return` inside `try` is right for every returned value exactly
      when every slot name denotes its own cell where the `return` stands. */
  lemma ReturnInTryExact(fn: Fn, u: User)
    requires fn.slots.Named? && |fn.slots.names| == |fn.slots.cells|
    requires forall a, b :: 0 <= a < b < |fn.slots.cells| ==> fn.slots.cells[a] != fn.slots.cells[b]
    ensures (forall vals: seq<Val> :: |vals| == |fn.slots.names| ==> WritesResults(fn, vals, u)) <==> Visible(fn, u.env)
  {
    var names, cells := fn.slots.names, fn.slots.cells;
    if Visible(fn, u.env) {
      forall vals: seq<Val> | |vals| == |names| ensures WritesResults(fn, vals, u) {
        StoreSlots(fn, names, cells, vals, u);
      }
    }
    if forall vals: seq<Val> :: |vals| == |names| ==> WritesResults(fn, vals, u) {
      forall i | 0 <= i < |names| ensures names[i] in u.env && u.env[names[i]] == cells[i] {
        var vals := Probe(|names|, i, u.heap, cells[i]);
        assert WritesResults(fn, vals, u);
        StoredAt(fn, names, vals, u, cells[i]);
        SetAt(cells, vals, u, i);
      }
    }
  }

  /** Every slot name in scope denotes its own cell. */
  ghost predicate OwnInScope(names: seq<Name>, cells: seq<nat>, env: map<Name, nat>)
    requires |names| == |cells|
  {
    forall i :: 0 <= i < |names| && names[i] in env ==> env[names[i]] == cells[i]
  }

  /** Copying never removes a cell, and it writes the cell of every name in scope. */
  lemma {:induction false} CopyWrites(names: seq<Name>, cells: seq<nat>, from: User, u: User)
    requires |names| == |cells|
    ensures u.heap.Keys <= CopyCells(names, cells, from, u).heap.Keys
    ensures forall i :: 0 <= i < |names| && names[i] in from.env && from.env[names[i]] in from.heap ==>
                          cells[i] in CopyCells(names, cells, from, u).heap
    decreases |names|
  {
    if names != [] {
      var x := names[0];
      var w := if x in from.env && from.env[x] in from.heap
               then u.(heap := u.heap[cells[0] := from.heap[from.env[x]]]) else u;
      CopyWrites(names[1..], cells[1..], from, w);
      forall i | 0 < i < |names| ensures names[i] == names[1..][i - 1] && cells[i] == cells[1..][i - 1] {}
    }
  }

  lemma {:induction false} CopyOfOwn(names: seq<Name>, cells: seq<nat>, u: User)
    requires |names| == |cells| && OwnInScope(names, cells, u.env)
    ensures CopyCells(names, cells, u, u) == u
    decreases |names|
  {
    if names != [] {
      assert OwnInScope(names[1..], cells[1..], u.env) by {
        forall i | 0 <= i < |names| - 1 && names[1..][i] in u.env ensures u.env[names[1..][i]] == cells[1..][i] {
          assert names[1..][i] == names[i + 1] && cells[1..][i] == cells[i + 1];
        }
      }
      CopyOfOwn(names[1..], cells[1..], u);
      if names[0] in u.env && cells[0] in u.heap { assert u.heap[cells[0] := u.heap[cells[0]]] == u.heap; }
    }
  }

  /** `return` of the slots by name leaves the state alone, whatever the variables
      hold, exactly when every slot name in scope there denotes its own cell. */
  lemma TailExact(fn: Fn, st: State)
    requires fn.slots.Named? && |fn.slots.names| == |fn.slots.cells|
    ensures (forall heap :: RunReturnSlots(fn, st.(u := st.u.(heap := heap))) ==
                            R(Returned, st.(u := st.u.(heap := heap))))
            <==> OwnInScope(fn.slots.names, fn.slots.cells, st.u.env)
  {
    var names, cells, env := fn.slots.names, fn.slots.cells, st.u.env;
    if OwnInScope(names, cells, env) {
      forall heap ensures RunReturnSlots(fn, st.(u := st.u.(heap := heap))) ==
                          R(Returned, st.(u := st.u.(heap := heap))) {
        CopyOfOwn(names, cells, st.u.(heap := heap));
      }
    } else {
      var i :| 0 <= i < |names| && names[i] in env && env[names[i]] != cells[i];
      var heap: map<nat, Val> := map[env[names[i]] := 1];
      var u := st.u.(heap := heap);
      CopyWrites(names, cells, u, u);
      assert cells[i] !in u.heap;
      assert RunReturnSlots(fn, st.(u := st.u.(heap := heap))).st.u.heap != heap;
    }
  }

  // ----- two functions whose result changes -----

  /** Two expressions of value 7: the number, and the variable `r` once it holds it. */
  const SEVEN := Atom(7, {}, {})
  const LOCAL_R := Atom(8, {}, {"r"})

  ghost function Sevens(): Fn {
    Fn((e, u) => Yields([7], u), Named(["r"], [0]))
  }

  ghost function Fresh(): User {
    User(map["r" := 0], map[], 1, map[], 0, {}, {})
  }

  ghost function Start0(): State {
    Begin(Sevens(), Fresh())
  }

  /** The state after `r := 7`: the new `r` lives in cell 1. */
  ghost function Declared(): User {
    User(map["r" := 1], map[1 := 7], 2, map[], 0, {}, {})
  }

  /** r := 7 */
  const LOCAL := Declare(["r"], [SEVEN])

  lemma SevenYields()
    ensures EvalAll(Sevens(), [SEVEN], Fresh()) == Yields([7], Fresh())
  {
    var u := Fresh();
    assert Noted(SEVEN, u) == u;
    assert Keep(u, u) == u by { assert u.heap + u.heap == u.heap && u.obj + u.obj == u.obj; }
    assert [SEVEN][1..] == [];
    assert [7] + [] == [7];
  }

  lemma LocalYields()
    ensures EvalExpr(Sevens(), LOCAL_R, Declared()) == Yields([7], Declared())
    ensures EvalAll(Sevens(), [LOCAL_R], Declared()) == Yields([7], Declared())
  {
    var u := Declared();
    assert UnsetCells(u, {"r"}) == {};
    assert Noted(LOCAL_R, u) == u;
    assert Keep(u, u) == u by { assert u.heap + u.heap == u.heap && u.obj + u.obj == u.obj; }
    assert [LOCAL_R][1..] == [];
    assert [7] + [] == [7];
  }

  lemma LocalRuns(st: State, fuel: nat)
    requires st.u == Fresh()
    ensures Exec(Sevens(), LOCAL, NO_LABEL, st, fuel) == R(Normal, st.(u := Declared()))
  {
    SevenYields();
    assert ["r"][1..] == [];
    assert Fresh().env["r" := 1] == map["r" := 1];
    assert map[][1 := 7] == map[1 := 7];
    assert Bind(["r"], [7], Fresh()) == Bind([], [], Declared()) == Declared();
    assert Exec(Sevens(), LOCAL, NO_LABEL, st, fuel) == ExecBasic(Sevens(), LOCAL, st, fuel);
  }

  lemma Then(fn: Fn, s: Stmt, rest: Block, st: State, fuel: nat)
    ensures ExecBlock(fn, Cons(s, rest), st, fuel) ==
            var r := Exec(fn, s, NO_LABEL, st, fuel);
            if r.c.Normal? then ExecBlock(fn, rest, r.st, fuel) else r
  {}

  function EmptyFinally(body: Block): Stmt {
    Try(body, NoClosure, Func(Nil))
  }

  /** What lowering makes of a `try` with an empty `finally` in no loop. */
  function CallOfTry(code: Block): Stmt {
    RtTry(code, NoClosure, Func(FinalizerPrologue(1, Nil)))
  }

  lemma EmptyFinallyLowered(body: Block, code: Block)
    requires LowerBlock(Sevens().slots, false, body, 1, [], 2, 0) == Low(code, 2, 0, true)
    ensures LowerStmt(Sevens().slots, false, EmptyFinally(body), 0, [], NO_LABEL, 2, 0) ==
            Low(Cons(CallOfTry(code), Single(Tail(0))), 2, 1, true)
  {
    var slots, s := Sevens().slots, EmptyFinally(body);
    assert LowerClosure(slots, false, Func(Nil), 1, [], 2, 0) == Low(Nil, 2, 0, true);
    assert LowerClosure(slots, false, NoClosure, 1, [], 2, 0) == Low(Nil, 2, 0, true);
    var tests := Append(Tests([], 0, 0, false, false), Single(Tail(0)));
    assert tests == Single(Tail(0));
    assert TryCall(s, code, Nil, Nil, 1) == CallOfTry(code);
    assert LowerTry(slots, false, s, 0, [], 2, 0) == Low(Cons(TryCall(s, code, Nil, Nil, 1), tests), 2, 1, true);
  }

  /** The source form: the body's `return` stands. */
  lemma EmptyFinallyRuns(body: Block, st: State, t: State, fuel: nat)
    requires ExecBlock(Sevens(), body, st, fuel) == R(Returned, t)
    ensures Exec(Sevens(), EmptyFinally(body), NO_LABEL, st, fuel) == Leave(R(Returned, t), st.u.env)
  {
    var fn, s := Sevens(), EmptyFinally(body);
    assert Exec(fn, s, NO_LABEL, st, fuel) == ExecTry(fn, s, st, fuel);
    var b := Leave(R(Returned, t), st.u.env);
    assert ExecBlock(fn, Nil, b.st, fuel) == R(Normal, b.st);
  }

  /** The generated form: the call ends normally with the signal up, and the test
      behind it returns the slots by name. */
  lemma CallOfTryRuns(code: Block, rest: Block, st: State, u: User, fuel: nat)
    requires st.frame == EMPTY_FRAME
    requires ExecBlock(Sevens(), code, Enter(st), fuel) == R(Returned, st.(u := u, flow := RETURN_CODE))
    ensures var w := u.(env := st.u.env);
            ExecBlock(Sevens(), Cons(CallOfTry(code), Cons(Tail(0), rest)), st, fuel) ==
            R(Returned, st.(u := CopyCells(["r"], [0], w, w).(env := w.env), flow := RETURN_CODE))
  {
    var fn, call, t := Sevens(), CallOfTry(code), st.(u := u.(env := st.u.env), flow := RETURN_CODE);
    assert EndCall(fn, ExecBlock(fn, code, Enter(st), fuel), st) == R(Normal, t);
    EmptyPrologueRuns(t, fuel);
    assert ExecRtTry(fn, call, st, fuel) == R(Normal, t);
    assert Exec(fn, call, NO_LABEL, st, fuel) == ExecRtTry(fn, call, st, fuel);
    Then(fn, call, Cons(Tail(0), rest), st, fuel);
    TailRuns(t, fuel);
    Then(fn, Tail(0), rest, t, fuel);
  }

  lemma TailRuns(t: State, fuel: nat)
    requires t.flow == RETURN_CODE
    ensures Exec(Sevens(), Tail(0), NO_LABEL, t, fuel) ==
            R(Returned, t.(u := CopyCells(["r"], [0], t.u, t.u).(env := t.u.env)))
  {
    OneStatement(Sevens(), ReturnSlots, t, fuel);
    assert Exec(Sevens(), ReturnSlots, NO_LABEL, t, fuel) == RunReturnSlots(Sevens(), t);
  }

  /** The empty finalizer puts the signal back. */
  lemma EmptyPrologueRuns(t: State, fuel: nat)
    requires t.frame == EMPTY_FRAME && t.flow == RETURN_CODE
    ensures EndCall(Sevens(), ExecBlock(Sevens(), FinalizerPrologue(1, Nil), Enter(t), fuel), t) == R(Normal, t)
  {
    var fn, ds := Sevens(), [Restore(1)];
    PrologueRuns(fn, 1, Nil, t, fuel);
    assert ds[..0] == [];
    var r := ExecBlock(fn, FinalizerPrologue(1, Nil), Enter(t), fuel);
    assert r == R(Normal, t.(frame := FinalizerFrame(1, RETURN_CODE), flow := 0));
    var back := RunOne(fn, Restore(1), Normal, r.st);
    assert RunDeferred(fn, ds, Normal, r.st) == RunDeferred(fn, [], back.c, back.st) == back;
  }

  // ----- the value of a `return` inside `try` -----

  /** r := 7; return r */
  const HIDDEN_BODY: Block := Cons(LOCAL, Single(Return([LOCAL_R])))

  /** func f() (r int) { try { r := 7; return r } finally { } } */
  const HIDDEN_RESULT: Block := Single(EmptyFinally(HIDDEN_BODY))

  const HIDDEN_CODE: Block := Cons(LOCAL, Cons(SetSlots([LOCAL_R]), Signal(RETURN_CODE)))

  /** The source returns 7: cell 0 is written. */
  lemma SourceReturnsSeven(fuel: nat)
    ensures var r := RunFunction(Sevens(), HIDDEN_RESULT, Start0(), fuel);
            r.c == Returned && 0 in r.st.u.heap && r.st.u.heap[0] == 7
  {
    var fn, st := Sevens(), Start0();
    var w := Declared().(heap := Declared().heap[0 := 7]);
    LocalRuns(st, fuel);
    LocalYields();
    assert [0][1..] == [];
    assert SetCells([0], [7], Declared()) == SetCells([], [], w) == w;
    OneStatement(fn, Return([LOCAL_R]), st.(u := Declared()), fuel);
    assert ExecBlock(fn, HIDDEN_BODY, st, fuel) == R(Returned, st.(u := w));
    EmptyFinallyRuns(HIDDEN_BODY, st, st.(u := w), fuel);
    OneStatement(fn, HIDDEN_RESULT.head, st, fuel);
    assert Enter(st) == st;
  }

  /** What lowering makes of the function (it ends in the "unreachable" panic,
      since the body terminates). */
  lemma HiddenLowered()
    ensures LowerFunction(Sevens().slots, HIDDEN_RESULT) ==
            (Cons(DeclareSignal(0), Cons(CallOfTry(HIDDEN_CODE), Cons(Tail(0), Unreachable()))), true)
  {
    var slots, ret, s := Sevens().slots, Single(Return([LOCAL_R])), HIDDEN_RESULT.head;
    assert !DeepDeferBlock(HIDDEN_BODY, 1) by { assert !DeepDeferBlock(ret, 1); }
    assert !DeepDeferBlock(HIDDEN_RESULT, 0) by { assert !DeepDefer(s, 0); }
    var code := Cons(SetSlots([LOCAL_R]), Signal(RETURN_CODE));
    assert LowerStmt(slots, false, Return([LOCAL_R]), 1, [], NO_LABEL, 2, 0) == Low(code, 2, 0, true);
    AppendNil(code);
    assert LowerBlock(slots, false, ret, 1, [], 2, 0) == Low(code, 2, 0, true);
    assert LowerStmt(slots, false, LOCAL, 1, [], NO_LABEL, 2, 0) == Low(Single(LOCAL), 2, 0, true);
    assert Append(Single(LOCAL), code) == Cons(LOCAL, Append(Nil, code));
    EmptyFinallyLowered(HIDDEN_BODY, HIDDEN_CODE);
    var lowered := Cons(CallOfTry(HIDDEN_CODE), Single(Tail(0)));
    AppendNil(lowered);
    assert LowerBlock(slots, false, HIDDEN_RESULT, 0, [], 2, 0) == Low(lowered, 2, 1, true);
    assert Terminates(Return([LOCAL_R]));
    assert BlockTerminates(ret);
    assert BlockTerminates(HIDDEN_BODY) == BlockTerminates(ret);
    assert Terminates(s);
    assert BlockTerminates(HIDDEN_RESULT);
    assert BlockUsesTry(HIDDEN_RESULT) && SlotCount(slots) == 1 by { assert UsesTry(s); }
    assert Append(Cons(DeclareSignal(0), lowered), Unreachable()) ==
           Cons(DeclareSignal(0), Append(lowered, Unreachable()));
    assert Append(lowered, Unreachable()) == Cons(CallOfTry(HIDDEN_CODE), Append(Single(Tail(0)), Unreachable()));
    assert Append(Single(Tail(0)), Unreachable()) == Cons(Tail(0), Append(Nil, Unreachable()));
  }

  /** The assignment to the slot name writes the new variable. */
  lemma SlotsWriteLocal(st: State)
    requires st.u == Declared()
    ensures RunSetSlots(Sevens(), [LOCAL_R], st) == R(Normal, st)
  {
    LocalYields();
    SlotTargets(["r"]);
    assert [] + [LOCAL_R] == [LOCAL_R];
    assert [7][0..] == [7];
    assert Vars2Lhs(["r"]) == [Var("r")];
    assert Declared().heap[1 := 7] == Declared().heap;
    assert StoreAll(Sevens(), [Var("r")], [7], Declared()) == StoreAll(Sevens(), [], [], Declared()) by {
      assert [Var("r")][1..] == [] && [7][1..] == [];
    }
  }

  /** In the closure the value goes to the new variable. */
  lemma HiddenBodyRuns(st: State, fuel: nat)
    requires st.u == Fresh()
    ensures ExecBlock(Sevens(), HIDDEN_CODE, st, fuel) == R(Returned, st.(u := Declared(), flow := RETURN_CODE))
  {
    var fn, st1 := Sevens(), st.(u := Declared());
    LocalRuns(st, fuel);
    SlotsWriteLocal(st1);
    assert Exec(fn, SetSlots([LOCAL_R]), NO_LABEL, st1, fuel) == R(Normal, st1);
    ExecSignal(fn, RETURN_CODE, st1, fuel);
    Then(fn, SetSlots([LOCAL_R]), Signal(RETURN_CODE), st1, fuel);
  }

  /** The generated function returns without ever writing the result. */
  lemma CodeLosesResult(fuel: nat)
    ensures var r := RunFunction(Sevens(), LowerFunction(Sevens().slots, HIDDEN_RESULT).0, Start0(), fuel);
            r.c == Returned && 0 !in r.st.u.heap
  {
    var fn, st := Sevens(), Start0();
    HiddenLowered();
    HiddenBodyRuns(st, fuel);
    CallOfTryRuns(HIDDEN_CODE, Unreachable(), st, Declared(), fuel);
    var w := Declared().(env := Fresh().env);
    assert ["r"][1..] == [] && [0][1..] == [];
    assert CopyCells(["r"], [0], w, w) == CopyCells([], [], w, w);
    Then(fn, DeclareSignal(0), Cons(CallOfTry(HIDDEN_CODE), Cons(Tail(0), Unreachable())), st, fuel);
    assert Exec(fn, DeclareSignal(0), NO_LABEL, st, fuel) == R(Normal, st);
    assert Enter(st) == st;
  }

  /** Hiding a named result changes the outcome of a legal function. */
  lemma HiddenResultChangesOutcome(fuel: nat)
    ensures LegalFunction(Sevens(), HIDDEN_RESULT, Fresh())
    ensures LowerFunction(Sevens().slots, HIDDEN_RESULT).1
    ensures !SameOutcome(Sevens(), RunFunction(Sevens(), HIDDEN_RESULT, Start0(), fuel),
                         RunFunction(Sevens(), LowerFunction(Sevens().slots, HIDDEN_RESULT).0, Start0(), fuel))
  {
    SourceReturnsSeven(fuel);
    CodeLosesResult(fuel);
    HiddenLowered();
    var slots, ret := Sevens().slots, Single(Return([LOCAL_R]));
    assert LegalStmt(slots, Return([LOCAL_R]), NO_LABEL, {}, false) && LegalBlock(slots, Nil, {}, false);
    assert LegalBlock(slots, ret, {}, false);
    assert LegalStmt(slots, LOCAL, NO_LABEL, {}, false);
    assert LegalBlock(slots, HIDDEN_BODY, {}, false);
    assert LegalBlock(slots, HIDDEN_RESULT, {}, false) by {
      assert LegalClosure(slots, Func(Nil)) && LegalClosure(slots, NoClosure);
      assert LegalStmt(slots, HIDDEN_RESULT.head, NO_LABEL, {}, false);
    }
  }

  // ----- the slots returned after a `try` -----

  const BARE: Block := Single(Return([]))

  const USE_R := Eval(LOCAL_R)

  /** r := 7; use(r); try { return } finally { } */
  const HIDDEN_SCOPE: Block := Cons(LOCAL, Cons(USE_R, Single(EmptyFinally(BARE))))

  /** func f() (r int) { { r := 7; use(r); try { return } finally { } }; return } */
  const HIDDEN_TAIL: Block := Cons(Scope(HIDDEN_SCOPE), BARE)

  /** The generated inner block. */
  const TAIL_CODE: Block := Cons(LOCAL, Cons(USE_R, Cons(CallOfTry(Signal(RETURN_CODE)), Single(Tail(0)))))

  lemma ScopeBeginsAlike(rest: Block, st: State, fuel: nat)
    requires st.u == Fresh()
    ensures ExecBlock(Sevens(), Cons(LOCAL, Cons(USE_R, rest)), st, fuel) ==
            ExecBlock(Sevens(), rest, st.(u := Declared()), fuel)
  {
    var fn, st1 := Sevens(), st.(u := Declared());
    LocalRuns(st, fuel);
    LocalYields();
    Then(fn, LOCAL, Cons(USE_R, rest), st, fuel);
    Then(fn, USE_R, rest, st1, fuel);
    assert Exec(fn, USE_R, NO_LABEL, st1, fuel) == ExecBasic(fn, USE_R, st1, fuel);
  }

  /** The source never writes the result. */
  lemma SourceLeavesResult(fuel: nat)
    ensures var r := RunFunction(Sevens(), HIDDEN_TAIL, Start0(), fuel);
            r.c == Returned && 0 !in r.st.u.heap
  {
    var fn, st := Sevens(), Start0();
    var st1 := st.(u := Declared());
    ScopeBeginsAlike(Single(EmptyFinally(BARE)), st, fuel);
    OneStatement(fn, Return([]), st1, fuel);
    EmptyFinallyRuns(BARE, st1, st1, fuel);
    OneStatement(fn, EmptyFinally(BARE), st1, fuel);
    assert Exec(fn, Scope(HIDDEN_SCOPE), NO_LABEL, st, fuel) == Leave(R(Returned, st1), st.u.env);
    Then(fn, Scope(HIDDEN_SCOPE), BARE, st, fuel);
    assert Enter(st) == st;
  }

  lemma TailLowered()
    ensures LowerFunction(Sevens().slots, HIDDEN_TAIL) ==
            (Cons(DeclareSignal(0), Cons(Scope(TAIL_CODE), Append(BARE, Unreachable()))), true)
  {
    var slots, try := Sevens().slots, EmptyFinally(BARE);
    TailScopeLowered();
    assert !DeepDeferBlock(HIDDEN_SCOPE, 0) by {
      assert !DeepDefer(try, 0) by { assert !DeepDeferBlock(BARE, 1); }
      assert !DeepDeferBlock(Single(try), 0);
      assert !DeepDeferBlock(Cons(USE_R, Single(try)), 0);
    }
    assert !DeepDeferBlock(HIDDEN_TAIL, 0) by { assert !DeepDeferBlock(BARE, 0); }
    AppendNil(BARE);
    assert LowerBlock(slots, false, BARE, 0, [], 2, 1) == Low(BARE, 2, 1, true);
    var lowered := Cons(Scope(TAIL_CODE), BARE);
    assert Append(Single(Scope(TAIL_CODE)), BARE) == Cons(Scope(TAIL_CODE), Append(Nil, BARE));
    assert LowerBlock(slots, false, HIDDEN_TAIL, 0, [], 2, 0) == Low(lowered, 2, 1, true);
    assert Terminates(Return([]));
    assert BlockTerminates(BARE);
    assert BlockTerminates(HIDDEN_TAIL) == BlockTerminates(BARE);
    assert BlockUsesTry(HIDDEN_TAIL) && SlotCount(slots) == 1 by {
      assert BlockUsesTry(HIDDEN_SCOPE) by {
        assert BlockUsesTry(Cons(USE_R, Single(try))) by { assert BlockUsesTry(Single(try)); }
      }
    }
    assert Append(Cons(DeclareSignal(0), lowered), Unreachable()) ==
           Cons(DeclareSignal(0), Append(lowered, Unreachable()));
  }

  lemma TailScopeLowered()
    ensures LowerStmt(Sevens().slots, false, Scope(HIDDEN_SCOPE), 0, [], NO_LABEL, 2, 0) ==
            Low(Single(Scope(TAIL_CODE)), 2, 1, true)
  {
    var slots, try := Sevens().slots, EmptyFinally(BARE);
    assert LowerStmt(slots, false, Return([]), 1, [], NO_LABEL, 2, 0) == Low(Signal(RETURN_CODE), 2, 0, true);
    AppendNil(Signal(RETURN_CODE));
    assert LowerBlock(slots, false, BARE, 1, [], 2, 0) == Low(Signal(RETURN_CODE), 2, 0, true);
    EmptyFinallyLowered(BARE, Signal(RETURN_CODE));
    var one := Cons(CallOfTry(Signal(RETURN_CODE)), Single(Tail(0)));
    AppendNil(one);
    assert LowerBlock(slots, false, Single(try), 0, [], 2, 0) == Low(one, 2, 1, true);
    assert LowerStmt(slots, false, USE_R, 0, [], NO_LABEL, 2, 0) == Low(Single(USE_R), 2, 0, true);
    assert Append(Single(USE_R), one) == Cons(USE_R, Append(Nil, one));
    assert LowerBlock(slots, false, Cons(USE_R, Single(try)), 0, [], 2, 0) == Low(Cons(USE_R, one), 2, 1, true);
    assert LowerStmt(slots, false, LOCAL, 0, [], NO_LABEL, 2, 0) == Low(Single(LOCAL), 2, 0, true);
    assert Append(Single(LOCAL), Cons(USE_R, one)) == Cons(LOCAL, Append(Nil, Cons(USE_R, one)));
    assert LowerBlock(slots, false, HIDDEN_SCOPE, 0, [], 2, 0) == Low(TAIL_CODE, 2, 1, true);
  }

  /** The generated inner block copies the local into the result. */
  lemma TailScopeRuns(fuel: nat)
    ensures var r := Exec(Sevens(), Scope(TAIL_CODE), NO_LABEL, Start0(), fuel);
            r.c == Returned && r.st.frame == EMPTY_FRAME && 0 in r.st.u.heap && r.st.u.heap[0] == 7
  {
    var fn, st := Sevens(), Start0();
    var st1 := st.(u := Declared());
    ScopeBeginsAlike(Cons(CallOfTry(Signal(RETURN_CODE)), Single(Tail(0))), st, fuel);
    ExecSignal(fn, RETURN_CODE, st1, fuel);
    assert Enter(st1) == st1;
    CallOfTryRuns(Signal(RETURN_CODE), Nil, st1, Declared(), fuel);
    var w := Declared().(heap := Declared().heap[0 := 7]);
    assert ["r"][1..] == [] && [0][1..] == [];
    assert CopyCells(["r"], [0], Declared(), Declared()) == CopyCells([], [], Declared(), w) == w;
  }

  lemma CodeWritesResult(fuel: nat)
    ensures var r := RunFunction(Sevens(), LowerFunction(Sevens().slots, HIDDEN_TAIL).0, Start0(), fuel);
            r.c == Returned && 0 in r.st.u.heap && r.st.u.heap[0] == 7
  {
    var fn, st := Sevens(), Start0();
    TailLowered();
    TailScopeRuns(fuel);
    Then(fn, Scope(TAIL_CODE), Append(BARE, Unreachable()), st, fuel);
    Then(fn, DeclareSignal(0), Cons(Scope(TAIL_CODE), Append(BARE, Unreachable())), st, fuel);
    assert Exec(fn, DeclareSignal(0), NO_LABEL, st, fuel) == R(Normal, st);
    assert Enter(st) == st;
  }

  /** ... and so does a `return` that gives no value at all. */
  lemma HiddenTailChangesOutcome(fuel: nat)
    ensures LegalFunction(Sevens(), HIDDEN_TAIL, Fresh())
    ensures LowerFunction(Sevens().slots, HIDDEN_TAIL).1
    ensures !SameOutcome(Sevens(), RunFunction(Sevens(), HIDDEN_TAIL, Start0(), fuel),
                         RunFunction(Sevens(), LowerFunction(Sevens().slots, HIDDEN_TAIL).0, Start0(), fuel))
  {
    SourceLeavesResult(fuel);
    CodeWritesResult(fuel);
    TailLowered();
    var slots, try := Sevens().slots, Single(EmptyFinally(BARE));
    assert LegalStmt(slots, Return([]), NO_LABEL, {}, false) && LegalBlock(slots, Nil, {}, false);
    assert LegalBlock(slots, BARE, {}, false);
    assert LegalClosure(slots, Func(Nil)) && LegalClosure(slots, NoClosure);
    assert LegalStmt(slots, EmptyFinally(BARE), NO_LABEL, {}, false);
    assert LegalBlock(slots, try, {}, false);
    assert LegalStmt(slots, USE_R, NO_LABEL, {}, false) && LegalStmt(slots, LOCAL, NO_LABEL, {}, false);
    assert LegalBlock(slots, Cons(USE_R, try), {}, false);
    assert LegalBlock(slots, HIDDEN_SCOPE, {}, false);
    assert LegalStmt(slots, Scope(HIDDEN_SCOPE), NO_LABEL, {}, false);
    assert LegalBlock(slots, HIDDEN_TAIL, {}, false);
  }
}
