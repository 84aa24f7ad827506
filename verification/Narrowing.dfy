/** What narrowing promises for a whole function, and the three constructs on which the promise fails
    (internal/compiler/nullable_flow.go). */
module Narrowing {
  import opened Options
  import opened Nullable
  import opened NullMachine
  import opened NullRules
  import opened NullSound
  import opened NarrowMarks

  /** In a narrowed function no dereference marked as checked meets nil, whatever
      its calls do, however often its loops turn. */
  lemma NarrowingSound(fn: Fn, optional: set<Obj>, body: Block, st: State, fuel: nat)
    requires ProperBlock(Tracked(fn.locals, optional, body), body) && ScopedBlock(body, {})
             && SafePostsBlock(Tracked(fn.locals, optional, body), body, {})
    requires st.escaped !! fn.locals
    ensures !ExecBlock(fn, NarrowFunction(fn.locals, optional, body), st, fuel).c.Faulted?
  {
    BlockSound(fn, Tracked(fn.locals, optional, body), body, {}, {}, st, fuel);
  }

  // ----- one dereference -----

  function Use(x: Obj, checked: bool): Expr { Deref(Var(x), checked) }

  function One(s: Stmt): Block { Cons(s, Nil) }

  /** use(*x) */
  function CallOn(x: Obj, checked: bool): Expr { Op(2, More(Use(x, checked), NoExprs)) }

  function UseOf(x: Obj, checked: bool): Block { One(Do(CallOn(x, checked))) }

  lemma UseMarked(t: set<Obj>, x: Obj, proof: set<Obj>)
    ensures NarrowExpr(t, Use(x, false), proof) == Use(x, x in proof)
    ensures NarrowBlock(t, UseOf(x, false), proof) == NarrowedBlock(UseOf(x, x in proof), proof)
  {
    assert NarrowExpr(t, Var(x), proof) == Var(x);
    assert NarrowExprs(t, NoExprs, proof) == NoExprs;
    assert NarrowExpr(t, CallOn(x, false), proof) == CallOn(x, x in proof) by {
      assert NarrowExprs(t, More(Use(x, false), NoExprs), proof) == More(Use(x, x in proof), NoExprs);
    }
    assert NarrowStmt(t, Do(CallOn(x, false)), proof) == Narrowed(Do(CallOn(x, x in proof)), proof);
    assert NarrowBlock(t, Nil, proof) == NarrowedBlock(Nil, proof);
  }

  // ----- where the promise fails -----

  /** Assigning nil keeps the proof true exactly when the target is not a proved
      variable in parentheses: such a target is not seen as a write. */
  lemma NilAssignmentExact(fn: Fn, t: set<Obj>, target: Expr, proof: set<Obj>, st: State, fuel: nat)
    requires t <= fn.locals && Bare(target).Var? && Valid(t, proof, st)
    ensures var n := NarrowStmt(t, Assign(More(target, NoExprs), More(NilLit, NoExprs)), proof);
            Valid(t, n.proof, Exec(fn, n.s, NO_LABEL, st, fuel).st)
            <==> !(target.Paren? && Bare(target).x in proof)
  {
    var lhs, rhs := More(target, NoExprs), More(NilLit, NoExprs);
    var s := Assign(lhs, rhs);
    var n := NarrowStmt(t, s, proof);
    BareNarrow(t, target, proof);
    assert NarrowTargets(t, lhs, proof) == lhs;
    assert NarrowExprs(t, rhs, proof) == rhs;
    assert n.s == s;
    assert EvalTargets(fn, lhs, st) == Yields([], st);
    assert EvalAll(fn, NoExprs, st) == Yields([], st);
    assert [0] + [] == [0];
    assert EvalAll(fn, rhs, st) == Yields([0], st);
    var st1 := st.(store := st.store[Bare(target).x := 0]);
    assert StoreAll(fn, NoExprs, [], st1) == Yields([], st1);
    assert Count(NoExprs) == 0;
    assert Spread(fn, [0], Count(lhs)) == [0];
    assert StoreAll(fn, lhs, [0], st) == Yields([], st1);
    assert Exec(fn, s, NO_LABEL, st, fuel) == ExecBasic(fn, s, st) == R(Normal, st1);
    var x := Bare(target).x;
    assert Read(st1, x) == 0;
    assert AllNamed(lhs) == Named(target) + {} == Named(target);
  }

  /** A call that receives the address of a variable keeps the proof true,
      whatever it does with it, exactly when the operand is not a proved variable
      in parentheses: such a variable is not counted as unstable. */
  lemma AddressExact(locals: set<Obj>, t: set<Obj>, id: int, target: Expr, proof: set<Obj>, st: State)
    requires t <= locals && Bare(target).Var? && Valid(t, proof, st)
    requires Unstable(Op(id, More(Address(target), NoExprs))) !! t
    ensures (forall fn: Fn :: fn.locals == locals ==>
              var o := Eval(fn, NarrowExpr(t, Op(id, More(Address(target), NoExprs)), proof), st);
              o.Yields? ==> forall x :: x in proof ==> Read(o.st, x) != 0)
            <==> !(target.Paren? && Bare(target).x in proof)
  {
    var args := More(Address(target), NoExprs);
    var e, x := Op(id, args), Bare(target).x;
    assert AllUnstable(NoExprs) == {};
    assert Unstable(e) == Unstable(Address(target)) + {};
    BareNarrow(t, target, proof);
    assert NarrowExpr(t, Address(target), proof) == Address(target);
    assert NarrowExprs(t, args, proof) == args;
    assert NarrowExpr(t, e, proof) == e;
    var st1 := st.(escaped := st.escaped + {x});
    forall fn: Fn ensures Eval(fn, e, st) == Apply(fn, id, [1], st1) {
      assert EvalAll(fn, NoExprs, st1) == Yields([], st1);
      assert Eval(fn, Address(target), st) == Yields([1], st1);
      assert [1] + [] == [1];
      assert EvalAll(fn, args, st) == Yields([1], st1);
    }
    if target.Paren? && x in proof {
      var wipe := Fn((i, vs, w) => Yields([1], State(map[], {}, 0)), (v, i) => v, locals);
      assert Eval(wipe, e, st) == Apply(wipe, id, [1], st1);
      assert Read(Eval(wipe, e, st).st, x) == 0;
    } else {
      if !target.Paren? { assert target == Var(x) && x in Named(target); }
      assert x !in proof;
      forall fn: Fn, y | fn.locals == locals && y in proof && Eval(fn, e, st).Yields?
        ensures Read(Eval(fn, e, st).st, y) != 0
      {
        assert Eval(fn, e, st) == Apply(fn, id, [1], st1);
        assert y in fn.locals && y !in st1.escaped;
      }
    }
  }

  /** for ; ; use(*x) { if any() { continue }; if x == nil { return } } */
  const SKIP := If(Op(1, NoExprs), One(Continue(NO_LABEL)), NoElse)
  const STOP := If(IsNil(0), One(Return(NoExprs)), NoElse)
  const TURN := Cons(SKIP, One(STOP))

  /** The post statement is narrowed with what holds at the end of the body, so a
      `continue` can reach a marked dereference with a nil variable. */
  lemma PostAfterContinue(part: (Val, nat) -> Val)
    ensures var fn := Fn((id, vs, st) => Yields([1], st), part, {0});
            ExecBlock(fn, NarrowFunction({0}, {0}, One(For(None, UseOf(0, false), TURN))), State(map[], {}, 0),
                      1).c.Faulted?
  {
    var fn := Fn((id, vs, st) => Yields([1], st), part, {0});
    var st := State(map[], {}, 0);
    PostMarked();
    var n := For(None, UseOf(0, true), TURN);
    TurnContinues(fn, st);
    PostFaults(fn, st);
    assert EndTurn(fn, n, NO_LABEL, R(ContinueTo(NO_LABEL), st), 1) == R(Faulted, st);
    assert EvalTest(fn, None, st) == Yields([1], st);
    assert Loop(fn, n, NO_LABEL, st, 1) == R(Faulted, st);
    assert Exec(fn, n, NO_LABEL, st, 1) == Loop(fn, n, NO_LABEL, st, 1);
  }

  lemma TurnContinues(fn: Fn, st: State)
    requires fn.ev(1, [], st) == Yields([1], st) && st.store == map[]
    ensures ExecBlock(fn, TURN, st, 1) == R(ContinueTo(NO_LABEL), st)
  {
    assert Keep(fn, st, st) == st;
    assert EvalAll(fn, NoExprs, st) == Yields([], st);
    assert Eval(fn, SKIP.cond, st) == Yields([1], st);
    assert Exec(fn, Continue(NO_LABEL), NO_LABEL, st, 1) == ExecBasic(fn, Continue(NO_LABEL), st);
    assert ExecBlock(fn, SKIP.thn, st, 1) == R(ContinueTo(NO_LABEL), st);
    assert Exec(fn, SKIP, NO_LABEL, st, 1) == ExecIf(fn, SKIP, st, 1);
  }

  lemma PostFaults(fn: Fn, st: State)
    requires st.store == map[]
    ensures ExecBlock(fn, UseOf(0, true), st, 1) == R(Faulted, st)
  {
    var post := UseOf(0, true).head;
    assert Eval(fn, Var(0), st) == Yields([0], st);
    assert Eval(fn, Use(0, true), st) == Outcome.Fault;
    assert EvalAll(fn, More(Use(0, true), NoExprs), st) == Outcome.Fault;
    assert Eval(fn, CallOn(0, true), st) == Outcome.Fault;
    assert Exec(fn, post, NO_LABEL, st, 1) == ExecBasic(fn, post, st);
  }

  lemma PostMarked()
    ensures NarrowFunction({0}, {0}, One(For(None, UseOf(0, false), TURN))) == One(For(None, UseOf(0, true), TURN))
  {
    var t: set<Obj> := {0};
    var loop := For(None, UseOf(0, false), TURN);
    NothingUnstable(loop);
    TurnNarrowed(t);
    UseMarked(t, 0, {0});
    assert {} - Writes(loop) == {};
    assert NarrowStmt(t, loop, {}) == NarrowFor(t, loop, {});
    assert NarrowStmt(t, loop, {}).s == For(None, UseOf(0, true), TURN);
    assert NarrowBlock(t, One(loop), {}).b ==
             Cons(NarrowStmt(t, loop, {}).s, NarrowBlock(t, Nil, NarrowStmt(t, loop, {}).proof).b);
  }

  lemma TurnStable()
    ensures BlockUnstable(TURN) == {}
  {
    assert AllUnstable(NoExprs) == {} && BlockUnstable(Nil) == {};
    assert StmtUnstable(SKIP) == {} && StmtUnstable(STOP) == {};
    assert BlockUnstable(One(STOP)) == {};
  }

  lemma NothingUnstable(loop: Stmt)
    requires loop == For(None, UseOf(0, false), TURN)
    ensures Tracked({0}, {0}, One(loop)) == {0}
  {
    assert AllUnstable(NoExprs) == {} && BlockUnstable(Nil) == {};
    TurnStable();
    assert Unstable(CallOn(0, false)) == {} by { assert AllUnstable(More(Use(0, false), NoExprs)) == {}; }
    assert BlockUnstable(loop.post) == {};
    assert StmtUnstable(loop) == {};
    assert BlockUnstable(One(loop)) == {};
  }

  lemma TurnNarrowed(t: set<Obj>)
    requires t == {0}
    ensures NarrowBlock(t, TURN, {}) == NarrowedBlock(TURN, {0})
  {
    assert forall p: set<Obj> :: NarrowExprs(t, NoExprs, p) == NoExprs;
    assert forall p: set<Obj> :: NarrowBlock(t, Nil, p) == NarrowedBlock(Nil, p);
    assert NarrowBlock(t, SKIP.thn, {}) == NarrowedBlock(SKIP.thn, {});
    assert NarrowStmt(t, SKIP, {}) == NarrowIf(t, SKIP, {}) == Narrowed(SKIP, {});
    TestKnown(t, 0, false, true, {});
    TestKnown(t, 0, false, false, {});
    assert {} - {0} == {} && {} + {0} == t;
    assert NarrowBlock(t, STOP.thn, {}).b == STOP.thn;
    assert NarrowStmt(t, STOP, {}) == NarrowIf(t, STOP, {}) == Narrowed(STOP, {0});
    assert NarrowBlock(t, One(STOP), {}) == NarrowedBlock(One(STOP), {0});
  }
}
