/** The terminating-statement test (internal/compiler/control_flow.go) and its
    meaning: a block that passes it never completes normally. */
module Terminating {
  import opened Syntax
  import opened Machine

  predicate BlockTerminates(b: Block)
    decreases b
  {
    match b
    case Nil => false
    case Cons(s, t) => if t.Nil? then Terminates(s) else BlockTerminates(t)
  }

  predicate Terminates(s: Stmt)
    decreases s
  {
    match s
    case Return(_) => true
    case Throw(_) => true
    case Panic(_) => true
    case Try(body, handler, finalizer) =>
      || (finalizer.Func? && BlockTerminates(finalizer.body))
      || (BlockTerminates(body) && (handler.Func? ==> BlockTerminates(handler.body)))
    case Scope(body) => BlockTerminates(body)
    case If(_, _, thn, els) => BlockTerminates(thn) && BlockTerminates(els)
    case _ => false
  }

  lemma {:induction false} TerminatingBlock(fn: Fn, b: Block, st: State, fuel: nat)
    requires BlockTerminates(b)
    ensures !ExecBlock(fn, b, st, fuel).c.Normal?
    decreases b
  {
    var r := Exec(fn, b.head, NO_LABEL, st, fuel);
    if b.tail.Nil? { TerminatingStmt(fn, b.head, NO_LABEL, st, fuel); }
    else if r.c.Normal? { TerminatingBlock(fn, b.tail, r.st, fuel); }
  }

  lemma {:induction false} TerminatingStmt(fn: Fn, s: Stmt, lab: Name, st: State, fuel: nat)
    requires Terminates(s)
    ensures !Exec(fn, s, lab, st, fuel).c.Normal?
    decreases s
  {
    if s.Scope? { TerminatingBlock(fn, s.body, st, fuel); }
    else if s.If? { TerminatingIf(fn, s, st, fuel); }
    else if s.Try? { TerminatingTry(fn, s, st, fuel); }
    else { assert Exec(fn, s, lab, st, fuel) == ExecBasic(fn, s, st, fuel); }
  }

  lemma {:induction false} TerminatingIf(fn: Fn, s: Stmt, st: State, fuel: nat)
    requires s.If? && Terminates(s)
    ensures !ExecIf(fn, s, st, fuel).c.Normal?
    decreases s, 0
  {
    var i := ExecBlock(fn, s.init, st, fuel);
    var o := EvalExpr(fn, s.test, i.st.u);
    if i.c.Normal? && o.Yields? {
      TerminatingBlock(fn, s.thn, i.st.(u := o.u), fuel);
      TerminatingBlock(fn, s.els, i.st.(u := o.u), fuel);
    }
  }

  /** Either the finalizer never ends normally, or body and handler never do. */
  lemma {:induction false} TerminatingTry(fn: Fn, s: Stmt, st: State, fuel: nat)
    requires s.Try? && Terminates(s)
    ensures !ExecTry(fn, s, st, fuel).c.Normal?
    decreases s, 0
  {
    var b := Leave(ExecBlock(fn, s.body, st, fuel), st.u.env);
    var caught := b.st.(u := WithCaught(b.st.u, if b.c.Thrown? then b.c.v else 0));
    var h := if Catches(b.c, s.handler) then Leave(ExecBlock(fn, s.handler.body, caught, fuel), st.u.env) else b;
    if s.finalizer.Func? && BlockTerminates(s.finalizer.body) {
      TerminatingBlock(fn, s.finalizer.body, h.st, fuel);
    } else {
      TerminatingBlock(fn, s.body, st, fuel);
      if s.handler.Func? { TerminatingBlock(fn, s.handler.body, caught, fuel); }
    }
  }
}
