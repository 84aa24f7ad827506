/** What narrowing reads off the text of a statement: which variables it writes, whether
    it falls through, and whether anything comes out at its end
    (internal/compiler/nullable_flow.go, internal/compiler/control_flow.go). */
module NarrowText {
  import opened Options
  import opened Nullable

  /** The statement and every statement in it. */
  function Inside(s: Stmt): set<Stmt>
    decreases s
  {
    {s} + match s
    case Scope(body) => BlockInside(body)
    case If(_, thn, els) => BlockInside(thn) + ElseInside(els)
    case For(_, post, body) => BlockInside(post) + BlockInside(body)
    case Range(_, _, body) => BlockInside(body)
    case Switch(_, clauses) => ClausesInside(clauses)
    case Labeled(_, inner) => Inside(inner)
    case _ => {}
  }

  function BlockInside(b: Block): set<Stmt>
    decreases b
  {
    if b.Nil? then {} else Inside(b.head) + BlockInside(b.tail)
  }

  function ElseInside(e: Else): set<Stmt>
    decreases e
  {
    match e
    case NoElse => {}
    case ElseDo(b) => BlockInside(b)
    case ElseIf(s) => Inside(s)
  }

  function ClausesInside(cs: Clauses): set<Stmt>
    decreases cs
  {
    if cs.NoClauses? then {} else BlockInside(cs.body) + ClausesInside(cs.rest)
  }

  // ----- writes -----

  predicate Among(e: Expr, es: Exprs) {
    es.More? && (es.head == e || Among(e, es.tail))
  }

  /** An assignment or range clause with the bare variable among its targets. */
  predicate Assigns(s: Stmt, x: Obj) {
    (s.Assign? && Among(Var(x), s.lhs)) || (s.Range? && Among(Var(x), s.targets))
  }

  ghost predicate Written(inside: set<Stmt>, x: Obj) {
    exists s :: s in inside && Assigns(s, x)
  }

  lemma WrittenBoth(a: set<Stmt>, b: set<Stmt>, x: Obj)
    ensures Written(a + b, x) <==> Written(a, x) || Written(b, x)
  {
    if Written(a, x) {
      var s :| s in a && Assigns(s, x);
      assert s in a + b;
    }
    if Written(b, x) {
      var s :| s in b && Assigns(s, x);
      assert s in a + b;
    }
  }

  lemma WrittenSelf(s: Stmt, inner: set<Stmt>, x: Obj)
    ensures Written({s} + inner, x) <==> Assigns(s, x) || Written(inner, x)
  {
    WrittenBoth({s}, inner, x);
    assert s in {s};
  }

  lemma {:induction false} NamedExact(es: Exprs, x: Obj)
    ensures x in AllNamed(es) <==> Among(Var(x), es)
    decreases es
  {
    if es.More? { NamedExact(es.tail, x); }
  }

  /** A statement writes a variable exactly if some assignment or range clause in it
      has the variable, by name, among its targets. */
  lemma {:induction false} WritesExact(s: Stmt, x: Obj)
    ensures x in Writes(s) <==> Written(Inside(s), x)
    decreases s
  {
    var inner := if s.Scope? || s.Range? then BlockInside(s.body)
                 else if s.If? then BlockInside(s.thn) + ElseInside(s.els)
                 else if s.For? then BlockInside(s.post) + BlockInside(s.body)
                 else if s.Switch? then ClausesInside(s.clauses)
                 else if s.Labeled? then Inside(s.stmt) else {};
    assert Inside(s) == {s} + inner;
    WrittenSelf(s, inner, x);
    if s.Assign? { NamedExact(s.lhs, x); }
    else if s.Scope? { BlockWritesExact(s.body, x); }
    else if s.Range? {
      NamedExact(s.targets, x);
      BlockWritesExact(s.body, x);
    }
    else if s.If? {
      BlockWritesExact(s.thn, x);
      ElseWritesExact(s.els, x);
      WrittenBoth(BlockInside(s.thn), ElseInside(s.els), x);
    }
    else if s.For? {
      BlockWritesExact(s.post, x);
      BlockWritesExact(s.body, x);
      WrittenBoth(BlockInside(s.post), BlockInside(s.body), x);
    }
    else if s.Switch? { ClausesWritesExact(s.clauses, x); }
    else if s.Labeled? { WritesExact(s.stmt, x); }
  }

  lemma {:induction false} BlockWritesExact(b: Block, x: Obj)
    ensures x in BlockWrites(b) <==> Written(BlockInside(b), x)
    decreases b
  {
    if b.Cons? {
      WritesExact(b.head, x);
      BlockWritesExact(b.tail, x);
      WrittenBoth(Inside(b.head), BlockInside(b.tail), x);
    }
  }

  lemma {:induction false} ElseWritesExact(e: Else, x: Obj)
    ensures x in ElseWrites(e) <==> Written(ElseInside(e), x)
    decreases e
  {
    if e.ElseDo? { BlockWritesExact(e.body, x); }
    if e.ElseIf? { WritesExact(e.stmt, x); }
  }

  lemma {:induction false} ClausesWritesExact(cs: Clauses, x: Obj)
    ensures x in ClausesWrites(cs) <==> Written(ClausesInside(cs), x)
    decreases cs
  {
    if cs.Clause? {
      BlockWritesExact(cs.body, x);
      ClausesWritesExact(cs.rest, x);
      WrittenBoth(BlockInside(cs.body), ClausesInside(cs.rest), x);
    }
  }

  // ----- fallthrough -----

  /** A statement may fall through exactly if a `fallthrough` stands somewhere in it. */
  lemma {:induction false} FallExact(s: Stmt)
    ensures HasFall(s) <==> Fallthrough in Inside(s)
    decreases s
  {
    if s.Scope? || s.Range? { BlockFallExact(s.body); }
    else if s.If? {
      BlockFallExact(s.thn);
      ElseFallExact(s.els);
    }
    else if s.For? {
      BlockFallExact(s.post);
      BlockFallExact(s.body);
    }
    else if s.Switch? { ClausesFallExact(s.clauses); }
    else if s.Labeled? { FallExact(s.stmt); }
  }

  lemma {:induction false} BlockFallExact(b: Block)
    ensures BlockHasFall(b) <==> Fallthrough in BlockInside(b)
    decreases b
  {
    if b.Cons? {
      FallExact(b.head);
      BlockFallExact(b.tail);
    }
  }

  lemma {:induction false} ElseFallExact(e: Else)
    ensures ElseHasFall(e) <==> Fallthrough in ElseInside(e)
    decreases e
  {
    if e.ElseDo? { BlockFallExact(e.body); }
    if e.ElseIf? { FallExact(e.stmt); }
  }

  lemma {:induction false} ClausesFallExact(cs: Clauses)
    ensures ClausesHaveFall(cs) <==> Fallthrough in ClausesInside(cs)
    decreases cs
  {
    if cs.Clause? {
      BlockFallExact(cs.body);
      ClausesFallExact(cs.rest);
    }
  }

  // ----- the end of a branch -----

  /** Some path comes out at the end; jumps, loops, switches and labelled statements
      count as if one did. */
  predicate Passes(s: Stmt)
    decreases s
  {
    match s
    case Return(_) => false
    case Throw(_) => false
    case Scope(body) => BlockPasses(body)
    case If(_, thn, els) => BlockPasses(thn) || ElsePasses(els)
    case _ => true
  }

  predicate BlockPasses(b: Block)
    decreases b
  {
    b.Cons? ==> Passes(b.head) && BlockPasses(b.tail)
  }

  predicate ElsePasses(e: Else)
    decreases e
  {
    match e
    case NoElse => true
    case ElseDo(b) => BlockPasses(b)
    case ElseIf(s) => Passes(s)
  }

  /** No statement stands behind one that is never passed. */
  predicate Live(b: Block)
    decreases b
  {
    b.Cons? ==> LiveStmt(b.head) && (b.tail.Cons? ==> Passes(b.head)) && Live(b.tail)
  }

  predicate LiveStmt(s: Stmt)
    decreases s
  {
    match s
    case Scope(body) => Live(body)
    case If(_, thn, els) => Live(thn) && (els.ElseDo? ==> Live(els.body)) && (els.ElseIf? ==> LiveStmt(els.stmt))
    case _ => true
  }

  /** A branch terminates exactly if no path comes out of it. */
  lemma {:induction false} TerminatesExact(b: Block)
    requires Live(b)
    ensures BlockTerminates(b) <==> !BlockPasses(b)
    decreases b
  {
    if b.Cons? {
      if b.tail.Nil? { StmtTerminatesExact(b.head); } else { TerminatesExact(b.tail); }
    }
  }

  lemma {:induction false} StmtTerminatesExact(s: Stmt)
    requires LiveStmt(s)
    ensures Terminates(s) <==> !Passes(s)
    decreases s
  {
    if s.Scope? { TerminatesExact(s.body); }
    else if s.If? {
      TerminatesExact(s.thn);
      if s.els.ElseDo? { TerminatesExact(s.els.body); }
      if s.els.ElseIf? { StmtTerminatesExact(s.els.stmt); }
    }
  }
}
