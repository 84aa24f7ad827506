/** What the parser and Go's checker guarantee about a source body, and the two
    syntactic conditions the lowering theorem turns on. */
module Legal {
  import opened Options
  import opened Syntax
  import opened ProgramPaths

  /** A source body: no reserved runtime forms, no label redeclared inside the
      statement it labels within one Go function, no bare return from a function
      with unnamed results, `fallthrough` only at the end of a case clause. `active`
      holds the labels in force. */
  predicate LegalStmt(slots: Slots, s: Stmt, lab: Name, active: set<Name>, fall: bool)
    decreases s
  {
    match s
    case Eval(_) => true
    case Parent(_) => true
    case Throw(_) => true
    case Panic(_) => true
    case Assign(_, _) => true
    case Declare(_, _) => true
    case Return(es) => es == [] ==> slots.Named? || slots.count == 0
    case Break(_) => true
    case Continue(_) => true
    case Fallthrough => fall
    case Scope(body) => LegalBlock(slots, body, active, false)
    case If(init, _, thn, els) =>
      LegalBlock(slots, init, active, false) && LegalBlock(slots, thn, active, false)
          && LegalBlock(slots, els, active, false)
    case For(init, _, post, body) =>
      && FreshLabel(lab, active)
      && LegalBlock(slots, init, active, false) && LegalBlock(slots, post, active, false)
      && LegalBlock(slots, body, With(lab, active), false)
    case Range(_, _, _, body) => FreshLabel(lab, active) && LegalBlock(slots, body, With(lab, active), false)
    case Switch(init, _, clauses) =>
      && FreshLabel(lab, active)
      && LegalBlock(slots, init, active, false) && LegalClauses(slots, clauses, With(lab, active))
    case Labeled(l, inner) => l != NO_LABEL && LegalStmt(slots, inner, l, active, false)
    case Defer(_) => true
    case Try(body, handler, finalizer) =>
      LegalBlock(slots, body, {}, false) && LegalClosure(slots, handler) && LegalClosure(slots, finalizer)
    case _ => false
  }

  predicate FreshLabel(lab: Name, active: set<Name>) {
    lab == NO_LABEL || lab !in active
  }

  function With(lab: Name, active: set<Name>): set<Name> {
    if lab == NO_LABEL then active else active + {lab}
  }

  predicate LegalBlock(slots: Slots, b: Block, active: set<Name>, fall: bool)
    decreases b
  {
    match b
    case Nil => true
    case Cons(h, t) => LegalStmt(slots, h, NO_LABEL, active, fall && t.Nil?) && LegalBlock(slots, t, active, fall)
  }

  predicate LegalClauses(slots: Slots, cs: Clauses, active: set<Name>)
    decreases cs
  {
    match cs
    case NoClauses => true
    case Clause(_, _, body, rest) => LegalBlock(slots, body, active, true) && LegalClauses(slots, rest, active)
  }

  predicate LegalClosure(slots: Slots, c: Closure)
    decreases c
  {
    match c
    case NoClosure => true
    case Func(body) => LegalBlock(slots, body, {}, false)
  }

  /** The variables a statement declares in the block it stands in. */
  function Declared(s: Stmt): set<Name> {
    if s.Declare? then set x | x in s.names else if s.Labeled? then Declared(s.stmt) else {}
  }

  function BlockDeclared(b: Block): set<Name> {
    if b.Nil? then {} else Declared(b.head) + BlockDeclared(b.tail)
  }

  /** Where generated code uses the results' `names`, no local variable hides one: at
      a `return` with values inside a `try`, and at a `try` of the function itself
      that some path leaves by `return`. `hidden` holds the variables declared so
      far, `d` counts the enclosing closures. */
  ghost predicate Shown(names: set<Name>, s: Stmt, d: nat, hidden: set<Name>)
    decreases s
  {
    match s
    case Return(es) => d > 0 && es != [] ==> hidden !! names
    case Scope(body) => ShownBlock(names, body, d, hidden)
    case If(init, _, thn, els) =>
      var inner := hidden + BlockDeclared(init);
      ShownBlock(names, init, d, hidden) && ShownBlock(names, thn, d, inner) && ShownBlock(names, els, d, inner)
    case For(init, _, post, body) =>
      var inner := hidden + BlockDeclared(init) + BlockDeclared(post);
      ShownBlock(names, init, d, hidden) && ShownBlock(names, post, d, inner) && ShownBlock(names, body, d, inner)
    case Range(xs, _, _, body) => ShownBlock(names, body, d, hidden + (set x | x in xs))
    case Switch(init, _, clauses) =>
      ShownBlock(names, init, d, hidden) && ShownClauses(names, clauses, d, hidden + BlockDeclared(init))
    case Labeled(_, inner) => Shown(names, inner, d, hidden)
    case Try(body, handler, finalizer) =>
      && (d == 0 && Goes(s, NO_LABEL, None, ByReturn) ==> hidden !! names)
      && ShownBlock(names, body, d + 1, hidden)
      && ShownClosure(names, handler, d + 1, hidden) && ShownClosure(names, finalizer, d + 1, hidden)
    case _ => true
  }

  ghost predicate ShownBlock(names: set<Name>, b: Block, d: nat, hidden: set<Name>)
    decreases b
  {
    b.Cons? ==> Shown(names, b.head, d, hidden) && ShownBlock(names, b.tail, d, hidden + Declared(b.head))
  }

  ghost predicate ShownClauses(names: set<Name>, cs: Clauses, d: nat, hidden: set<Name>)
    decreases cs
  {
    cs.Clause? ==> ShownBlock(names, cs.body, d, hidden) && ShownClauses(names, cs.rest, d, hidden)
  }

  ghost predicate ShownClosure(names: set<Name>, c: Closure, d: nat, hidden: set<Name>)
    decreases c
  {
    c.Func? ==> ShownBlock(names, c.body, d, hidden)
  }

  function SlotNames(slots: Slots): set<Name> {
    if slots.Named? then set x | x in slots.names else {}
  }

  /** Some `defer` sits inside a `try` (at this depth or below one). */
  predicate DeepDefer(s: Stmt, depth: nat)
    decreases s
  {
    match s
    case Defer(_) => depth > 0
    case Scope(body) => DeepDeferBlock(body, depth)
    case If(init, _, thn, els) =>
      DeepDeferBlock(init, depth) || DeepDeferBlock(thn, depth) || DeepDeferBlock(els, depth)
    case For(init, _, post, body) =>
      DeepDeferBlock(init, depth) || DeepDeferBlock(post, depth) || DeepDeferBlock(body, depth)
    case Range(_, _, _, body) => DeepDeferBlock(body, depth)
    case Switch(init, _, clauses) => DeepDeferBlock(init, depth) || DeepDeferClauses(clauses, depth)
    case Labeled(_, inner) => DeepDefer(inner, depth)
    case Try(body, handler, finalizer) =>
      || DeepDeferBlock(body, depth + 1) || DeepDeferClosure(handler, depth + 1)
      || DeepDeferClosure(finalizer, depth + 1)
    case _ => false
  }

  predicate DeepDeferBlock(b: Block, depth: nat)
    decreases b
  {
    match b
    case Nil => false
    case Cons(h, t) => DeepDefer(h, depth) || DeepDeferBlock(t, depth)
  }

  predicate DeepDeferClauses(cs: Clauses, depth: nat)
    decreases cs
  {
    match cs
    case NoClauses => false
    case Clause(_, _, body, rest) => DeepDeferBlock(body, depth) || DeepDeferClauses(rest, depth)
  }

  predicate DeepDeferClosure(c: Closure, depth: nat)
    decreases c
  {
    match c
    case NoClosure => false
    case Func(body) => DeepDeferBlock(body, depth)
  }

  /** Legal statements are source statements. */
  lemma {:induction false} LegalSourced(slots: Slots, s: Stmt, lab: Name, active: set<Name>, fall: bool)
    requires LegalStmt(slots, s, lab, active, fall)
    ensures Sourced(s)
    decreases s
  {
    if s.Scope? { LegalBlockSourced(slots, s.body, active, false); }
    else if s.If? {
      LegalBlockSourced(slots, s.init, active, false);
      LegalBlockSourced(slots, s.thn, active, false);
      LegalBlockSourced(slots, s.els, active, false);
    }
    else if s.For? {
      LegalBlockSourced(slots, s.init, active, false);
      LegalBlockSourced(slots, s.post, active, false);
      LegalBlockSourced(slots, s.body, With(lab, active), false);
    }
    else if s.Range? { LegalBlockSourced(slots, s.body, With(lab, active), false); }
    else if s.Switch? {
      LegalBlockSourced(slots, s.init, active, false);
      LegalClausesSourced(slots, s.clauses, With(lab, active));
    }
    else if s.Labeled? { LegalSourced(slots, s.stmt, s.lab, active, false); }
    else if s.Try? {
      LegalBlockSourced(slots, s.body, {}, false);
      if s.handler.Func? { LegalBlockSourced(slots, s.handler.body, {}, false); }
      if s.finalizer.Func? { LegalBlockSourced(slots, s.finalizer.body, {}, false); }
    }
  }

  lemma {:induction false} LegalBlockSourced(slots: Slots, b: Block, active: set<Name>, fall: bool)
    requires LegalBlock(slots, b, active, fall)
    ensures SourcedBlock(b)
    decreases b
  {
    if b.Cons? {
      LegalSourced(slots, b.head, NO_LABEL, active, fall && b.tail.Nil?);
      LegalBlockSourced(slots, b.tail, active, fall);
    }
  }

  lemma {:induction false} LegalClausesSourced(slots: Slots, cs: Clauses, active: set<Name>)
    requires LegalClauses(slots, cs, active)
    ensures SourcedClauses(cs)
    decreases cs
  {
    if cs.Clause? {
      LegalBlockSourced(slots, cs.body, active, true);
      LegalClausesSourced(slots, cs.rest, active);
    }
  }
}
