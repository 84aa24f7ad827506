/** Which variables narrowing reasons about: the function's own nullable variables
    that no expression in it takes the address of, by name, and no function literal
    mentions (internal/compiler/nullable_flow.go). */
module NarrowTracked {
  import opened Options
  import opened Nullable

  /** The expression and everything in it. */
  function Parts(e: Expr): set<Expr>
    decreases e
  {
    {e} + match e
    case Paren(i) => Parts(i)
    case Not(i) => Parts(i)
    case And(l, r) => Parts(l) + Parts(r)
    case Or(l, r) => Parts(l) + Parts(r)
    case Equal(l, r, _) => Parts(l) + Parts(r)
    case Choice(c, a, b) => Parts(c) + Parts(a) + Parts(b)
    case Op(_, args) => AllParts(args)
    case Deref(i, _) => Parts(i)
    case Wanted(i) => Parts(i)
    case Address(i) => Parts(i)
    case _ => {}
  }

  function AllParts(es: Exprs): set<Expr>
    decreases es
  {
    if es.NoExprs? then {} else Parts(es.head) + AllParts(es.tail)
  }

  function MaybeParts(e: Option<Expr>): set<Expr> {
    if e.Some? then Parts(e.value) else {}
  }

  function StmtParts(s: Stmt): set<Expr>
    decreases s
  {
    match s
    case Do(e) => Parts(e)
    case Assign(lhs, rhs) => AllParts(lhs) + AllParts(rhs)
    case Declare(_, rhs) => AllParts(rhs)
    case Return(es) => AllParts(es)
    case Throw(e) => Parts(e)
    case Scope(body) => BlockParts(body)
    case If(cond, thn, els) => Parts(cond) + BlockParts(thn) + ElseParts(els)
    case For(test, post, body) => MaybeParts(test) + BlockParts(post) + BlockParts(body)
    case Range(targets, over, body) => AllParts(targets) + Parts(over) + BlockParts(body)
    case Switch(tag, clauses) => MaybeParts(tag) + ClausesParts(clauses)
    case Labeled(_, inner) => StmtParts(inner)
    case _ => {}
  }

  function BlockParts(b: Block): set<Expr>
    decreases b
  {
    if b.Nil? then {} else StmtParts(b.head) + BlockParts(b.tail)
  }

  function ElseParts(e: Else): set<Expr>
    decreases e
  {
    match e
    case NoElse => {}
    case ElseDo(b) => BlockParts(b)
    case ElseIf(s) => StmtParts(s)
  }

  function ClausesParts(cs: Clauses): set<Expr>
    decreases cs
  {
    if cs.NoClauses? then {} else AllParts(cs.guards) + BlockParts(cs.body) + ClausesParts(cs.rest)
  }

  /** Something else may read or write the variable from here on. */
  predicate Exposes(e: Expr, x: Obj) {
    e == Address(Var(x)) || (e.Closure? && x in e.captured)
  }

  ghost predicate Exposed(parts: set<Expr>, x: Obj) {
    exists p :: p in parts && Exposes(p, x)
  }

  lemma ExposedBoth(a: set<Expr>, b: set<Expr>, x: Obj)
    ensures Exposed(a + b, x) <==> Exposed(a, x) || Exposed(b, x)
  {
    if Exposed(a, x) {
      var p :| p in a && Exposes(p, x);
      assert p in a + b;
    }
    if Exposed(b, x) {
      var p :| p in b && Exposes(p, x);
      assert p in a + b;
    }
  }

  lemma ExposedSelf(e: Expr, inner: set<Expr>, x: Obj)
    ensures Exposed({e} + inner, x) <==> Exposes(e, x) || Exposed(inner, x)
  {
    ExposedBoth({e}, inner, x);
    assert e in {e};
  }

  lemma {:induction false} UnstableExact(e: Expr, x: Obj)
    ensures x in Unstable(e) <==> Exposed(Parts(e), x)
    decreases e
  {
    var inner := if e.Paren? || e.Not? || e.Deref? || e.Wanted? || e.Address? then Parts(e.e)
                 else if e.And? || e.Or? || e.Equal? then Parts(e.l) + Parts(e.r)
                 else if e.Choice? then Parts(e.cond) + Parts(e.thn) + Parts(e.els)
                 else if e.Op? then AllParts(e.args) else {};
    assert Parts(e) == {e} + inner;
    ExposedSelf(e, inner, x);
    if e.Paren? || e.Not? || e.Deref? || e.Wanted? || e.Address? { UnstableExact(e.e, x); }
    else if e.And? || e.Or? || e.Equal? {
      UnstableExact(e.l, x);
      UnstableExact(e.r, x);
      ExposedBoth(Parts(e.l), Parts(e.r), x);
    }
    else if e.Choice? {
      UnstableExact(e.cond, x);
      UnstableExact(e.thn, x);
      UnstableExact(e.els, x);
      ExposedBoth(Parts(e.cond), Parts(e.thn), x);
      ExposedBoth(Parts(e.cond) + Parts(e.thn), Parts(e.els), x);
    }
    else if e.Op? { AllUnstableExact(e.args, x); }
  }

  lemma {:induction false} AllUnstableExact(es: Exprs, x: Obj)
    ensures x in AllUnstable(es) <==> Exposed(AllParts(es), x)
    decreases es
  {
    if es.More? {
      UnstableExact(es.head, x);
      AllUnstableExact(es.tail, x);
      ExposedBoth(Parts(es.head), AllParts(es.tail), x);
    }
  }

  lemma {:induction false} StmtUnstableExact(s: Stmt, x: Obj)
    ensures x in StmtUnstable(s) <==> Exposed(StmtParts(s), x)
    decreases s
  {
    if s.Do? || s.Throw? { UnstableExact(s.e, x); }
    else if s.Assign? {
      AllUnstableExact(s.lhs, x);
      AllUnstableExact(s.rhs, x);
      ExposedBoth(AllParts(s.lhs), AllParts(s.rhs), x);
    }
    else if s.Declare? { AllUnstableExact(s.rhs, x); }
    else if s.Return? { AllUnstableExact(s.es, x); }
    else if s.Scope? { BlockUnstableExact(s.body, x); }
    else if s.If? {
      UnstableExact(s.cond, x);
      BlockUnstableExact(s.thn, x);
      ElseUnstableExact(s.els, x);
      ExposedThree(Parts(s.cond), BlockParts(s.thn), ElseParts(s.els), x);
    }
    else if s.For? {
      if s.test.Some? { UnstableExact(s.test.value, x); }
      BlockUnstableExact(s.post, x);
      BlockUnstableExact(s.body, x);
      ExposedThree(MaybeParts(s.test), BlockParts(s.post), BlockParts(s.body), x);
    }
    else if s.Range? {
      AllUnstableExact(s.targets, x);
      UnstableExact(s.over, x);
      BlockUnstableExact(s.body, x);
      ExposedThree(AllParts(s.targets), Parts(s.over), BlockParts(s.body), x);
    }
    else if s.Switch? {
      if s.tag.Some? { UnstableExact(s.tag.value, x); }
      ClausesUnstableExact(s.clauses, x);
      ExposedBoth(MaybeParts(s.tag), ClausesParts(s.clauses), x);
    }
    else if s.Labeled? { StmtUnstableExact(s.stmt, x); }
  }

  lemma ExposedThree(a: set<Expr>, b: set<Expr>, c: set<Expr>, x: Obj)
    ensures Exposed(a + b + c, x) <==> Exposed(a, x) || Exposed(b, x) || Exposed(c, x)
  {
    ExposedBoth(a, b, x);
    ExposedBoth(a + b, c, x);
  }

  lemma {:induction false} BlockUnstableExact(b: Block, x: Obj)
    ensures x in BlockUnstable(b) <==> Exposed(BlockParts(b), x)
    decreases b
  {
    if b.Cons? {
      StmtUnstableExact(b.head, x);
      BlockUnstableExact(b.tail, x);
      ExposedBoth(StmtParts(b.head), BlockParts(b.tail), x);
    }
  }

  lemma {:induction false} ElseUnstableExact(e: Else, x: Obj)
    ensures x in ElseUnstable(e) <==> Exposed(ElseParts(e), x)
    decreases e
  {
    if e.ElseDo? { BlockUnstableExact(e.body, x); }
    if e.ElseIf? { StmtUnstableExact(e.stmt, x); }
  }

  lemma {:induction false} ClausesUnstableExact(cs: Clauses, x: Obj)
    ensures x in ClausesUnstable(cs) <==> Exposed(ClausesParts(cs), x)
    decreases cs
  {
    if cs.Clause? {
      AllUnstableExact(cs.guards, x);
      BlockUnstableExact(cs.body, x);
      ClausesUnstableExact(cs.rest, x);
      ExposedThree(AllParts(cs.guards), BlockParts(cs.body), ClausesParts(cs.rest), x);
    }
  }

  /** A variable is tracked exactly if it is the function's own, nullable, and nothing
      in the function exposes it. */
  lemma TrackedExact(locals: set<Obj>, optional: set<Obj>, body: Block, x: Obj)
    ensures x in Tracked(locals, optional, body) <==>
            x in locals && x in optional && !Exposed(BlockParts(body), x)
  {
    BlockUnstableExact(body, x);
  }
}
