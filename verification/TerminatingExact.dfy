/** When the terminating-statement test says yes: exactly when nothing comes out at the
    end of the block (internal/compiler/control_flow.go). */
module TerminatingExact {
  import opened Options
  import opened Syntax
  import opened Machine
  import opened ProgramPaths
  import opened PathRuns
  import opened Terminating

  /** Code the test looks at: no loop, switch, label or jump stands at an end of the
      block, and what stands before an end can be passed. */
  ghost predicate Tested(b: Block)
    decreases b
  {
    b.Cons? ==>
      if b.tail.Nil? then TestedStmt(b.head) else Goes(b.head, NO_LABEL, None, Through) && Tested(b.tail)
  }

  ghost predicate TestedStmt(s: Stmt)
    decreases s
  {
    match s
    case Scope(body) => Tested(body)
    case If(init, _, thn, els) => BlockGoes(init, None, Through) && Tested(thn) && Tested(els)
    case Try(body, handler, finalizer) =>
      && Tested(body) && (handler.Func? ==> Tested(handler.body)) && (finalizer.Func? ==> Tested(finalizer.body))
    case _ =>
      || s.Return? || s.Throw? || s.Panic? || s.Eval? || s.Parent? || s.Assign? || s.Declare? || s.Defer?
  }

  lemma {:induction false} TestExact(b: Block)
    requires Tested(b)
    ensures BlockTerminates(b) <==> !BlockGoes(b, None, Through)
    decreases b
  {
    if b.Cons? {
      if b.tail.Nil? {
        StmtTestExact(b.head);
        assert BlockGoes(b.tail, None, Through);
      } else { TestExact(b.tail); }
    }
  }

  lemma {:induction false} StmtTestExact(s: Stmt)
    requires TestedStmt(s)
    ensures Terminates(s) <==> !Goes(s, NO_LABEL, None, Through)
    decreases s, 1
  {
    if s.Scope? { TestExact(s.body); }
    else if s.If? {
      TestExact(s.thn);
      TestExact(s.els);
      assert EntryGoes(s, NO_LABEL, None, Through) ==
             (BlockGoes(s.thn, None, Through) || BlockGoes(s.els, None, Through));
      assert Goes(s, NO_LABEL, None, Through) == HeaderGoes(s, s.init, NO_LABEL, None, Through);
    }
    else if s.Try? { TryTestExact(s); }
  }

  lemma {:induction false} TryTestExact(s: Stmt)
    requires s.Try? && TestedStmt(s)
    ensures Terminates(s) <==> !Goes(s, NO_LABEL, None, Through)
    decreases s, 0
  {
    TestExact(s.body);
    if s.handler.Func? { TestExact(s.handler.body); }
    assert Pends(s, None, Through) <==>
        BlockGoes(s.body, None, Through) || (s.handler.Func? && BlockGoes(s.handler.body, None, Through));
    assert Goes(s, NO_LABEL, None, Through) == TryGoes(s, None, Through);
    if s.finalizer.Func? {
      TestExact(s.finalizer.body);
      assert TryGoes(s, None, Through) <==> BlockGoes(s.finalizer.body, None, Through) && Pends(s, None, Through);
    } else { assert TryGoes(s, None, Through) == Pends(s, None, Through); }
  }

  ghost predicate Completes(fn: Fn, b: Block, st: State, fuel: nat) {
    ExecBlock(fn, b, st, fuel).c.Normal?
  }

  /** So where the evaluator alone decides the paths, a block passes the test if and
      only if no run of it completes normally. */
  lemma TerminatesExactly(slots: Slots, b: Block)
    requires Tested(b) && SourcedBlock(b) && OpenBlock(b, None)
    ensures BlockTerminates(b) <==> forall fn: Fn, st, fuel :: fn.slots == slots ==> !Completes(fn, b, st, fuel)
  {
    TestExact(b);
    if BlockTerminates(b) {
      forall fn: Fn, st, fuel ensures !Completes(fn, b, st, fuel) { TerminatingBlock(fn, b, st, fuel); }
    } else {
      var fn := Play(slots, 0, BlockRoute(b, None, Through));
      var st := State(User(map[], map[], 0, map[], 0, {}, {}), [], [], 0, [], EMPTY_FRAME);
      PlayFollows(slots, 0, BlockRoute(b, None, Through));
      BlockTaken(fn, b, None, Through, st, 1);
      assert fn.slots == slots && Completes(fn, b, st, 1);
    }
  }

  // ----- every block -----

  /** Something comes out at the end; jumps, loops, switches and labelled statements
      count as if something did. */
  predicate Passes(s: Stmt)
    decreases s
  {
    match s
    case Return(_) => false
    case Throw(_) => false
    case Panic(_) => false
    case Scope(body) => BlockPasses(body)
    case If(_, _, thn, els) => BlockPasses(thn) || BlockPasses(els)
    case Try(body, handler, finalizer) =>
      && (finalizer.Func? ==> BlockPasses(finalizer.body))
      && (BlockPasses(body) || (handler.Func? && BlockPasses(handler.body)))
    case _ => true
  }

  predicate BlockPasses(b: Block)
    decreases b
  {
    b.Cons? ==> Passes(b.head) && BlockPasses(b.tail)
  }

  /** No statement stands behind one that is never passed. */
  predicate Live(b: Block)
    decreases b
  {
    b.Cons? ==> LiveStmt(b.head) && (b.tail.Cons? ==> Passes(b.head)) && Live(b.tail)
  }

  predicate LiveStmt(s: Stmt)
    decreases s
  {
    match s
    case Scope(body) => Live(body)
    case If(_, _, thn, els) => Live(thn) && Live(els)
    case Try(body, handler, finalizer) =>
      Live(body) && (handler.Func? ==> Live(handler.body)) && (finalizer.Func? ==> Live(finalizer.body))
    case _ => true
  }

  /** Without dead code a block passes the test exactly if nothing comes out of it. */
  lemma {:induction false} LiveExact(b: Block)
    requires Live(b)
    ensures BlockTerminates(b) <==> !BlockPasses(b)
    decreases b
  {
    if b.Cons? {
      if b.tail.Nil? { LiveStmtExact(b.head); } else { LiveExact(b.tail); }
    }
  }

  lemma {:induction false} LiveStmtExact(s: Stmt)
    requires LiveStmt(s)
    ensures Terminates(s) <==> !Passes(s)
    decreases s
  {
    if s.Scope? { LiveExact(s.body); }
    else if s.If? {
      LiveExact(s.thn);
      LiveExact(s.els);
    }
    else if s.Try? {
      LiveExact(s.body);
      if s.handler.Func? { LiveExact(s.handler.body); }
      if s.finalizer.Func? { LiveExact(s.finalizer.body); }
    }
  }
}
