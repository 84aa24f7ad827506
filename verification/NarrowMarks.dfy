/** Which dereferences of a variable narrowing marks: in code that neither writes
    the variable nor compares it with nil, all of them where it is proved and none
    where it is not (internal/compiler/nullable_flow.go). */
module NarrowMarks {
  import opened Options
  import opened Nullable

  // ----- code that tells nothing about a variable -----

  /** Nothing in the expression compares `x` with nil. */
  predicate Quiet(e: Expr, x: Obj)
    decreases e
  {
    match e
    case Paren(i) => Quiet(i, x)
    case Not(i) => Quiet(i, x)
    case And(l, r) => Quiet(l, x) && Quiet(r, x)
    case Or(l, r) => Quiet(l, x) && Quiet(r, x)
    case Equal(l, r, _) =>
      !(l == Var(x) && r.NilLit?) && !(l.NilLit? && r == Var(x)) && Quiet(l, x) && Quiet(r, x)
    case Choice(c, a, b) => Quiet(c, x) && Quiet(a, x) && Quiet(b, x)
    case Op(_, args) => QuietAll(args, x)
    case Deref(i, _) => Quiet(i, x)
    case Wanted(i) => Quiet(i, x)
    case Address(i) => Quiet(i, x)
    case _ => true
  }

  predicate QuietAll(es: Exprs, x: Obj)
    decreases es
  {
    es.More? ==> Quiet(es.head, x) && QuietAll(es.tail, x)
  }

  /** ... and nothing in the statement writes it; no label or `fallthrough` makes the
      analysis start again from nothing. */
  predicate Plain(s: Stmt, x: Obj)
    decreases s
  {
    match s
    case Do(e) => Quiet(e, x)
    case Throw(e) => Quiet(e, x)
    case Assign(lhs, rhs) => x !in AllNamed(lhs) && QuietAll(lhs, x) && QuietAll(rhs, x)
    case Declare(_, rhs) => QuietAll(rhs, x)
    case Return(es) => QuietAll(es, x)
    case Scope(body) => PlainBlock(body, x)
    case If(cond, thn, els) => Quiet(cond, x) && PlainBlock(thn, x) && PlainElse(els, x)
    case For(test, post, body) => (test.Some? ==> Quiet(test.value, x)) && PlainBlock(post, x) && PlainBlock(body, x)
    case Range(targets, over, body) => x !in AllNamed(targets) && Quiet(over, x) && PlainBlock(body, x)
    case Switch(tag, clauses) => (tag.Some? ==> Quiet(tag.value, x)) && PlainClauses(clauses, x)
    case Labeled(_, _) => false
    case _ => true
  }

  predicate PlainBlock(b: Block, x: Obj)
    decreases b
  {
    b.Cons? ==> Plain(b.head, x) && PlainBlock(b.tail, x)
  }

  predicate PlainElse(e: Else, x: Obj)
    decreases e
  {
    match e
    case NoElse => true
    case ElseDo(b) => PlainBlock(b, x)
    case ElseIf(s) => Plain(s, x)
  }

  predicate PlainClauses(cs: Clauses, x: Obj)
    decreases cs
  {
    cs.Clause? ==>
      && (cs.isDefault <==> cs.guards.NoExprs?) && QuietAll(cs.guards, x)
      && PlainBlock(cs.body, x) && !BlockHasFall(cs.body) && PlainClauses(cs.rest, x)
  }

  // ----- marks -----

  /** Every dereference of `x` is marked, or none is; a position that wants a non-nil
      value has become a dereference. The targets of a range are left alone. */
  predicate Uniform(e: Expr, x: Obj, marked: bool)
    decreases e
  {
    match e
    case Paren(i) => Uniform(i, x, marked)
    case Not(i) => Uniform(i, x, marked)
    case And(l, r) => Uniform(l, x, marked) && Uniform(r, x, marked)
    case Or(l, r) => Uniform(l, x, marked) && Uniform(r, x, marked)
    case Equal(l, r, _) => Uniform(l, x, marked) && Uniform(r, x, marked)
    case Choice(c, a, b) => Uniform(c, x, marked) && Uniform(a, x, marked) && Uniform(b, x, marked)
    case Op(_, args) => UniformAll(args, x, marked)
    case Deref(i, checked) => (i == Var(x) ==> checked == marked) && Uniform(i, x, marked)
    case Wanted(i) => (i == Var(x) ==> !marked) && Uniform(i, x, marked)
    case Address(i) => Uniform(i, x, marked)
    case _ => true
  }

  predicate UniformAll(es: Exprs, x: Obj, marked: bool)
    decreases es
  {
    es.More? ==> Uniform(es.head, x, marked) && UniformAll(es.tail, x, marked)
  }

  predicate UniformStmt(s: Stmt, x: Obj, marked: bool)
    decreases s
  {
    match s
    case Do(e) => Uniform(e, x, marked)
    case Throw(e) => Uniform(e, x, marked)
    case Assign(lhs, rhs) => UniformAll(lhs, x, marked) && UniformAll(rhs, x, marked)
    case Declare(_, rhs) => UniformAll(rhs, x, marked)
    case Return(es) => UniformAll(es, x, marked)
    case Scope(body) => UniformBlock(body, x, marked)
    case If(cond, thn, els) => Uniform(cond, x, marked) && UniformBlock(thn, x, marked) && UniformElse(els, x, marked)
    case For(test, post, body) =>
      (test.Some? ==> Uniform(test.value, x, marked)) && UniformBlock(post, x, marked) && UniformBlock(body, x, marked)
    case Range(_, over, body) =>
      (over == Var(x) ==> !marked) && Uniform(over, x, marked) && UniformBlock(body, x, marked)
    case Switch(tag, clauses) => (tag.Some? ==> Uniform(tag.value, x, marked)) && UniformClauses(clauses, x, marked)
    case Labeled(_, inner) => UniformStmt(inner, x, marked)
    case _ => true
  }

  predicate UniformBlock(b: Block, x: Obj, marked: bool)
    decreases b
  {
    b.Cons? ==> UniformStmt(b.head, x, marked) && UniformBlock(b.tail, x, marked)
  }

  predicate UniformElse(e: Else, x: Obj, marked: bool)
    decreases e
  {
    match e
    case NoElse => true
    case ElseDo(b) => UniformBlock(b, x, marked)
    case ElseIf(s) => UniformStmt(s, x, marked)
  }

  predicate UniformClauses(cs: Clauses, x: Obj, marked: bool)
    decreases cs
  {
    cs.Clause? ==>
      UniformAll(cs.guards, x, marked) && UniformBlock(cs.body, x, marked) && UniformClauses(cs.rest, x, marked)
  }

  // ----- expressions -----

  lemma {:induction false} QuietNarrowed(t: set<Obj>, e: Expr, x: Obj, proof: set<Obj>)
    requires Quiet(e, x)
    ensures Quiet(NarrowExpr(t, e, proof), x)
    decreases e
  {
    match e
    case Paren(i) => QuietNarrowed(t, i, x, proof);
    case Not(i) => QuietNarrowed(t, i, x, proof);
    case And(l, r) =>
      QuietNarrowed(t, l, x, proof);
      QuietNarrowed(t, r, x, Assume(t, NarrowExpr(t, l, proof), true, proof));
    case Or(l, r) =>
      QuietNarrowed(t, l, x, proof);
      QuietNarrowed(t, r, x, Assume(t, NarrowExpr(t, l, proof), false, proof));
    case Equal(l, r, _) =>
      QuietNarrowed(t, l, x, proof);
      QuietNarrowed(t, r, x, proof);
    case Choice(c, a, b) =>
      var cond := NarrowExpr(t, c, proof);
      QuietNarrowed(t, c, x, proof);
      QuietNarrowed(t, a, x, Assume(t, cond, true, proof));
      QuietNarrowed(t, b, x, Assume(t, cond, false, proof));
    case Op(_, args) => QuietNarrowedAll(t, args, x, proof);
    case Deref(i, _) => QuietNarrowed(t, i, x, proof);
    case Wanted(i) => QuietNarrowed(t, i, x, proof);
    case Address(i) => QuietNarrowed(t, i, x, proof);
    case _ =>
  }

  lemma {:induction false} QuietNarrowedAll(t: set<Obj>, es: Exprs, x: Obj, proof: set<Obj>)
    requires QuietAll(es, x)
    ensures QuietAll(NarrowExprs(t, es, proof), x)
    decreases es
  {
    if es.More? {
      QuietNarrowed(t, es.head, x, proof);
      QuietNarrowedAll(t, es.tail, x, proof);
    }
  }

  /** A condition that does not compare `x` with nil tells nothing about it. */
  lemma {:induction false} AssumeQuiet(t: set<Obj>, e: Expr, truth: bool, proof: set<Obj>, x: Obj)
    requires Quiet(e, x)
    ensures x in Assume(t, e, truth, proof) <==> x in proof
    decreases e
  {
    match e
    case Paren(i) => AssumeQuiet(t, i, truth, proof, x);
    case Not(i) => AssumeQuiet(t, i, !truth, proof, x);
    case And(l, r) =>
      AssumeQuiet(t, l, true, proof, x);
      AssumeQuiet(t, r, true, Assume(t, l, true, proof), x);
    case Or(l, r) =>
      AssumeQuiet(t, l, false, proof, x);
      AssumeQuiet(t, r, false, Assume(t, l, false, proof), x);
    case _ =>
  }

  lemma NarrowedQuiet(t: set<Obj>, e: Expr, truth: bool, proof: set<Obj>, x: Obj)
    requires Quiet(e, x)
    ensures x in Assume(t, NarrowExpr(t, e, proof), truth, proof) <==> x in proof
  {
    QuietNarrowed(t, e, x, proof);
    AssumeQuiet(t, NarrowExpr(t, e, proof), truth, proof, x);
  }

  /** In a quiet expression every dereference of `x` is marked if `x` is proved, and
      none otherwise. */
  lemma {:induction false} ExprMarks(t: set<Obj>, e: Expr, x: Obj, proof: set<Obj>)
    requires Quiet(e, x) && Uniform(e, x, false)
    ensures Uniform(NarrowExpr(t, e, proof), x, x in proof)
    decreases e
  {
    match e
    case Paren(i) => ExprMarks(t, i, x, proof);
    case Not(i) => ExprMarks(t, i, x, proof);
    case And(l, r) =>
      ExprMarks(t, l, x, proof);
      NarrowedQuiet(t, l, true, proof, x);
      ExprMarks(t, r, x, Assume(t, NarrowExpr(t, l, proof), true, proof));
    case Or(l, r) =>
      ExprMarks(t, l, x, proof);
      NarrowedQuiet(t, l, false, proof, x);
      ExprMarks(t, r, x, Assume(t, NarrowExpr(t, l, proof), false, proof));
    case Equal(l, r, _) =>
      ExprMarks(t, l, x, proof);
      ExprMarks(t, r, x, proof);
    case Choice(c, a, b) =>
      var cond := NarrowExpr(t, c, proof);
      ExprMarks(t, c, x, proof);
      NarrowedQuiet(t, c, true, proof, x);
      NarrowedQuiet(t, c, false, proof, x);
      ExprMarks(t, a, x, Assume(t, cond, true, proof));
      ExprMarks(t, b, x, Assume(t, cond, false, proof));
    case Op(_, args) => ExprsMark(t, args, x, proof);
    case Deref(i, _) => ExprMarks(t, i, x, proof);
    case Wanted(i) => ExprMarks(t, i, x, proof);
    case Address(i) => ExprMarks(t, i, x, proof);
    case _ =>
  }

  lemma {:induction false} ExprsMark(t: set<Obj>, es: Exprs, x: Obj, proof: set<Obj>)
    requires QuietAll(es, x) && UniformAll(es, x, false)
    ensures UniformAll(NarrowExprs(t, es, proof), x, x in proof)
    decreases es
  {
    if es.More? {
      ExprMarks(t, es.head, x, proof);
      ExprsMark(t, es.tail, x, proof);
    }
  }

  lemma {:induction false} TargetsMark(t: set<Obj>, lhs: Exprs, x: Obj, proof: set<Obj>)
    requires QuietAll(lhs, x) && UniformAll(lhs, x, false) && x !in AllNamed(lhs)
    ensures UniformAll(NarrowTargets(t, lhs, proof), x, x in proof)
    decreases lhs
  {
    if lhs.More? {
      ExprMarks(t, lhs.head, x, proof);
      TargetsMark(t, lhs.tail, x, proof - Named(lhs.head));
    }
  }

  // ----- statements -----

  lemma {:induction false} PlainWrites(s: Stmt, x: Obj)
    requires Plain(s, x)
    ensures x !in Writes(s)
    decreases s
  {
    match s
    case Scope(body) => BlockPlainWrites(body, x);
    case If(_, thn, els) =>
      BlockPlainWrites(thn, x);
      if els.ElseDo? { BlockPlainWrites(els.body, x); }
      if els.ElseIf? { PlainWrites(els.stmt, x); }
    case For(_, post, body) =>
      BlockPlainWrites(post, x);
      BlockPlainWrites(body, x);
    case Range(_, _, body) => BlockPlainWrites(body, x);
    case Switch(_, clauses) => ClausesPlainWrites(clauses, x);
    case _ =>
  }

  lemma {:induction false} BlockPlainWrites(b: Block, x: Obj)
    requires PlainBlock(b, x)
    ensures x !in BlockWrites(b)
    decreases b
  {
    if b.Cons? {
      PlainWrites(b.head, x);
      BlockPlainWrites(b.tail, x);
    }
  }

  lemma {:induction false} ClausesPlainWrites(cs: Clauses, x: Obj)
    requires PlainClauses(cs, x)
    ensures x !in ClausesWrites(cs)
    decreases cs
  {
    if cs.Clause? {
      BlockPlainWrites(cs.body, x);
      ClausesPlainWrites(cs.rest, x);
    }
  }

  /** Plain code marks every dereference of `x` where it is proved, none where it is
      not, and leaves it proved or unproved. */
  lemma {:induction false} StmtMarks(t: set<Obj>, s: Stmt, x: Obj, proof: set<Obj>)
    requires Plain(s, x) && UniformStmt(s, x, false)
    ensures var n := NarrowStmt(t, s, proof);
            UniformStmt(n.s, x, x in proof) && (x in n.proof <==> x in proof)
    decreases s, 1
  {
    match s
    case Do(e) => ExprMarks(t, e, x, proof);
    case Throw(e) => ExprMarks(t, e, x, proof);
    case Assign(lhs, rhs) =>
      TargetsMark(t, lhs, x, proof);
      ExprsMark(t, rhs, x, proof);
    case Declare(_, rhs) => ExprsMark(t, rhs, x, proof);
    case Return(es) => ExprsMark(t, es, x, proof);
    case Scope(body) => BlockMarks(t, body, x, proof);
    case If(_, _, _) => IfMarks(t, s, x, proof);
    case For(_, _, _) => ForMarks(t, s, x, proof);
    case Range(_, over, body) =>
      PlainWrites(s, x);
      ExprMarks(t, over, x, proof);
      BlockMarks(t, body, x, proof - Writes(s));
    case Switch(_, _) => SwitchMarks(t, s, x, proof);
    case _ =>
  }

  lemma {:induction false} IfMarks(t: set<Obj>, s: Stmt, x: Obj, proof: set<Obj>)
    requires s.If? && Plain(s, x) && UniformStmt(s, x, false)
    ensures var n := NarrowIf(t, s, proof);
            UniformStmt(n.s, x, x in proof) && (x in n.proof <==> x in proof)
    decreases s, 0
  {
    var cond := NarrowExpr(t, s.cond, proof);
    ExprMarks(t, s.cond, x, proof);
    NarrowedQuiet(t, s.cond, true, proof, x);
    NarrowedQuiet(t, s.cond, false, proof, x);
    BlockMarks(t, s.thn, x, Assume(t, cond, true, proof));
    if s.els.ElseDo? { BlockMarks(t, s.els.body, x, Assume(t, cond, false, proof)); }
    if s.els.ElseIf? { StmtMarks(t, s.els.stmt, x, Assume(t, cond, false, proof)); }
  }

  lemma {:induction false} ForMarks(t: set<Obj>, s: Stmt, x: Obj, proof: set<Obj>)
    requires s.For? && Plain(s, x) && UniformStmt(s, x, false)
    ensures var n := NarrowFor(t, s, proof);
            UniformStmt(n.s, x, x in proof) && (x in n.proof <==> x in proof)
    decreases s, 0
  {
    PlainWrites(s, x);
    var kept := proof - Writes(s);
    var cond := if s.test.Some? then Some(NarrowExpr(t, s.test.value, kept)) else None;
    if s.test.Some? {
      ExprMarks(t, s.test.value, x, kept);
      NarrowedQuiet(t, s.test.value, true, kept, x);
    }
    BlockMarks(t, s.body, x, AssumeAll(t, cond, true, kept));
    BlockMarks(t, s.post, x, NarrowBlock(t, s.body, AssumeAll(t, cond, true, kept)).proof);
  }

  lemma {:induction false} BlockMarks(t: set<Obj>, b: Block, x: Obj, proof: set<Obj>)
    requires PlainBlock(b, x) && UniformBlock(b, x, false)
    ensures var n := NarrowBlock(t, b, proof);
            UniformBlock(n.b, x, x in proof) && (x in n.proof <==> x in proof)
    decreases b, 0
  {
    if b.Cons? {
      StmtMarks(t, b.head, x, proof);
      BlockMarks(t, b.tail, x, NarrowStmt(t, b.head, proof).proof);
    }
  }

  // ----- switches -----

  lemma {:induction false} GuardsMark(t: set<Obj>, tagless: bool, guards: Exprs, x: Obj, remaining: set<Obj>)
    requires QuietAll(guards, x) && UniformAll(guards, x, false)
    ensures UniformAll(NarrowGuards(t, tagless, guards, remaining), x, x in remaining)
    ensures x in GuardsFailed(t, tagless, guards, remaining) <==> x in remaining
    ensures guards.More? ==> (x in Matched(t, tagless, guards, remaining) <==> x in remaining)
    decreases guards
  {
    if guards.More? {
      ExprMarks(t, guards.head, x, remaining);
      NarrowedQuiet(t, guards.head, true, remaining, x);
      NarrowedQuiet(t, guards.head, false, remaining, x);
      var guard := NarrowExpr(t, guards.head, remaining);
      GuardsMark(t, tagless, guards.tail, x, if tagless then Assume(t, guard, false, remaining) else remaining);
    }
  }

  lemma {:induction false} AllFailedMarks(t: set<Obj>, tagless: bool, cs: Clauses, x: Obj, remaining: set<Obj>)
    requires PlainClauses(cs, x) && UniformClauses(cs, x, false)
    ensures x in AllFailed(t, tagless, cs, remaining) <==> x in remaining
    decreases cs
  {
    if cs.Clause? {
      GuardsMark(t, tagless, cs.guards, x, remaining);
      AllFailedMarks(t, tagless, cs.rest, x, NextRemaining(t, tagless, cs, remaining));
    }
  }

  lemma {:induction false} ClausesMark(t: set<Obj>, tagless: bool, cs: Clauses, x: Obj, remaining: set<Obj>,
                                       failed: set<Obj>)
    requires PlainClauses(cs, x) && UniformClauses(cs, x, false) && (x in remaining <==> x in failed)
    ensures UniformClauses(NarrowClauses(t, tagless, cs, remaining, failed, false), x, x in remaining)
    decreases cs, 0
  {
    if cs.Clause? {
      GuardsMark(t, tagless, cs.guards, x, remaining);
      BlockMarks(t, cs.body, x, Incoming(t, tagless, cs, remaining, failed, false));
      ClausesMark(t, tagless, cs.rest, x, NextRemaining(t, tagless, cs, remaining), failed);
    }
  }

  lemma {:induction false} SwitchMarks(t: set<Obj>, s: Stmt, x: Obj, proof: set<Obj>)
    requires s.Switch? && Plain(s, x) && UniformStmt(s, x, false)
    ensures var n := NarrowSwitch(t, s, proof);
            UniformStmt(n.s, x, x in proof) && (x in n.proof <==> x in proof)
    decreases s, 0
  {
    PlainWrites(s, x);
    if s.tag.Some? { ExprMarks(t, s.tag.value, x, proof); }
    AllFailedMarks(t, s.tag.None?, s.clauses, x, proof);
    ClausesMark(t, s.tag.None?, s.clauses, x, proof, AllFailed(t, s.tag.None?, s.clauses, proof));
  }

  // ----- where a variable gets proved -----

  function NotNil(x: Obj): Expr { Equal(Var(x), NilLit, true) }

  function IsNil(x: Obj): Expr { Equal(Var(x), NilLit, false) }

  lemma TestKnown(t: set<Obj>, x: Obj, negated: bool, truth: bool, proof: set<Obj>)
    requires x in t
    ensures var e := Equal(Var(x), NilLit, negated);
            NarrowExpr(t, e, proof) == e
            && Assume(t, e, truth, proof) == if truth == negated then proof + {x} else proof - {x}
  {
    assert NarrowExpr(t, Var(x), proof) == Var(x) && NarrowExpr(t, NilLit, proof) == NilLit;
  }

  // ----- what a condition decides -----

  /** A condition whose value is known. */
  datatype Known = Known(e: Expr, truth: bool)

  /** The conditions that must have been evaluated, and their values, for the whole to
      have this value: conjuncts from left to right, negation pushed inward. */
  function Conjuncts(e: Expr, truth: bool): seq<Known>
    decreases e
  {
    match e
    case Paren(i) => Conjuncts(i, truth)
    case Not(i) => Conjuncts(i, !truth)
    case And(l, r) => if truth then Conjuncts(l, true) + Conjuncts(r, true) else []
    case Or(l, r) => if truth then [] else Conjuncts(l, false) + Conjuncts(r, false)
    case _ => [Known(e, truth)]
  }

  predicate TestsNil(e: Expr, x: Obj) {
    e.Equal? && ((e.l == Var(x) && e.r.NilLit?) || (e.l.NilLit? && e.r == Var(x)))
  }

  /** What the last conjunct that compares `x` with nil says: that it is not nil, that
      it is, or nothing. */
  function LastTest(ks: seq<Known>, x: Obj): Option<bool>
    decreases |ks|
  {
    if ks == [] then None
    else
      var last := ks[|ks| - 1];
      if TestsNil(last.e, x) then Some(last.truth == last.e.negated) else LastTest(ks[..|ks| - 1], x)
  }

  /** A condition of this value needs `x` not to be nil. */
  predicate Needs(e: Expr, truth: bool, x: Obj) {
    LastTest(Conjuncts(e, truth), x) == Some(true)
  }

  lemma {:induction false} LastTestBoth(a: seq<Known>, b: seq<Known>, x: Obj)
    ensures LastTest(a + b, x) == if LastTest(b, x).Some? then LastTest(b, x) else LastTest(a, x)
    decreases |b|
  {
    if b == [] { assert a + b == a; }
    else {
      assert (a + b)[..|a + b| - 1] == a + b[..|b| - 1];
      LastTestBoth(a, b[..|b| - 1], x);
    }
  }

  /** A condition proves a variable exactly when the last conjunct that tests it says
      that it is not nil, and keeps what was proved exactly when none tests it. */
  lemma {:induction false} AssumeExact(t: set<Obj>, e: Expr, truth: bool, proof: set<Obj>, x: Obj)
    requires x in t
    ensures var test := LastTest(Conjuncts(e, truth), x);
            x in Assume(t, e, truth, proof) <==> if test.Some? then test.value else x in proof
    decreases e
  {
    match e
    case Paren(i) => AssumeExact(t, i, truth, proof, x);
    case Not(i) => AssumeExact(t, i, !truth, proof, x);
    case And(l, r) =>
      if truth {
        LastTestBoth(Conjuncts(l, true), Conjuncts(r, true), x);
        AssumeExact(t, l, true, proof, x);
        AssumeExact(t, r, true, Assume(t, l, true, proof), x);
      }
    case Or(l, r) =>
      if !truth {
        LastTestBoth(Conjuncts(l, false), Conjuncts(r, false), x);
        AssumeExact(t, l, false, proof, x);
        AssumeExact(t, r, false, Assume(t, l, false, proof), x);
      }
    case _ => OneConjunct(e, truth, x);
  }

  /** Nothing else is ever assumed. */
  lemma {:induction false} AssumeOnlyTracked(t: set<Obj>, e: Expr, truth: bool, proof: set<Obj>, x: Obj)
    requires x !in t
    ensures x in Assume(t, e, truth, proof) <==> x in proof
    decreases e
  {
    match e
    case Paren(i) => AssumeOnlyTracked(t, i, truth, proof, x);
    case Not(i) => AssumeOnlyTracked(t, i, !truth, proof, x);
    case And(l, r) =>
      AssumeOnlyTracked(t, l, true, proof, x);
      AssumeOnlyTracked(t, r, true, Assume(t, l, true, proof), x);
    case Or(l, r) =>
      AssumeOnlyTracked(t, l, false, proof, x);
      AssumeOnlyTracked(t, r, false, Assume(t, l, false, proof), x);
    case _ =>
  }

  /** Narrowing a condition does not change what it tests. */
  lemma {:induction false} NarrowedTests(t: set<Obj>, e: Expr, truth: bool, proof: set<Obj>, x: Obj)
    ensures LastTest(Conjuncts(NarrowExpr(t, e, proof), truth), x) == LastTest(Conjuncts(e, truth), x)
    decreases e
  {
    match e
    case Paren(i) => NarrowedTests(t, i, truth, proof, x);
    case Not(i) => NarrowedTests(t, i, !truth, proof, x);
    case And(l, r) =>
      if truth {
        var left := NarrowExpr(t, l, proof);
        var right := NarrowExpr(t, r, Assume(t, left, true, proof));
        NarrowedTests(t, l, true, proof, x);
        NarrowedTests(t, r, true, Assume(t, left, true, proof), x);
        LastTestBoth(Conjuncts(l, true), Conjuncts(r, true), x);
        LastTestBoth(Conjuncts(left, true), Conjuncts(right, true), x);
      }
    case Or(l, r) =>
      if !truth {
        var left := NarrowExpr(t, l, proof);
        var right := NarrowExpr(t, r, Assume(t, left, false, proof));
        NarrowedTests(t, l, false, proof, x);
        NarrowedTests(t, r, false, Assume(t, left, false, proof), x);
        LastTestBoth(Conjuncts(l, false), Conjuncts(r, false), x);
        LastTestBoth(Conjuncts(left, false), Conjuncts(right, false), x);
      }
    case _ => NarrowedTest(t, e, truth, proof, x);
  }

  lemma NarrowedTest(t: set<Obj>, e: Expr, truth: bool, proof: set<Obj>, x: Obj)
    requires !e.Paren? && !e.Not? && !e.And? && !e.Or?
    ensures LastTest(Conjuncts(NarrowExpr(t, e, proof), truth), x) == LastTest(Conjuncts(e, truth), x)
  {
    var n := NarrowExpr(t, e, proof);
    if e.Equal? {
      var l, r := NarrowExpr(t, e.l, proof), NarrowExpr(t, e.r, proof);
      assert n == Equal(l, r, e.negated);
      SameLeaf(t, e.l, proof, x);
      SameLeaf(t, e.r, proof, x);
    }
    assert TestsNil(n, x) <==> TestsNil(e, x);
    assert !n.Paren? && !n.Not? && !n.And? && !n.Or?;
    OneConjunct(e, truth, x);
    OneConjunct(n, truth, x);
    if e.Equal? { assert n.Equal? && n.negated == e.negated; }
  }

  lemma SameLeaf(t: set<Obj>, e: Expr, proof: set<Obj>, x: Obj)
    ensures NarrowExpr(t, e, proof) == Var(x) <==> e == Var(x)
    ensures NarrowExpr(t, e, proof).NilLit? <==> e.NilLit?
  {}

  lemma OneConjunct(e: Expr, truth: bool, x: Obj)
    requires !e.Paren? && !e.Not? && !e.And? && !e.Or?
    ensures LastTest(Conjuncts(e, truth), x) == if TestsNil(e, x) then Some(truth == e.negated) else None
  {
    assert Conjuncts(e, truth) == [Known(e, truth)];
    assert [Known(e, truth)][..0] == [];
  }

  lemma NeededProved(t: set<Obj>, e: Expr, truth: bool, proof: set<Obj>, x: Obj)
    requires x in t && Needs(e, truth, x)
    ensures x in Assume(t, NarrowExpr(t, e, proof), truth, proof)
  {
    NarrowedTests(t, e, truth, proof, x);
    AssumeExact(t, NarrowExpr(t, e, proof), truth, proof, x);
  }

  // ----- where the marks follow -----

  /** A condition that needs the variable marks every use in the branch it guards, and
      one whose failure needs it every use in the other branch. */
  lemma BranchMarked(t: set<Obj>, x: Obj, c: Expr, thn: Block, els: Block, proof: set<Obj>)
    requires x in t && PlainBlock(thn, x) && PlainBlock(els, x) && UniformBlock(thn, x, false)
             && UniformBlock(els, x, false)
    ensures var n := NarrowStmt(t, If(c, thn, ElseDo(els)), proof).s;
            && n.If? && n.els.ElseDo?
            && (Needs(c, true, x) ==> UniformBlock(n.thn, x, true))
            && (Needs(c, false, x) ==> UniformBlock(n.els.body, x, true))
  {
    var s, cond := If(c, thn, ElseDo(els)), NarrowExpr(t, c, proof);
    var yes, no := Assume(t, cond, true, proof), Assume(t, cond, false, proof);
    if Needs(c, true, x) { NeededProved(t, c, true, proof, x); }
    if Needs(c, false, x) { NeededProved(t, c, false, proof, x); }
    BlockMarks(t, thn, x, yes);
    BlockMarks(t, els, x, no);
    assert NarrowElse(t, ElseDo(els), no).e == ElseDo(NarrowBlock(t, els, no).b);
    assert NarrowIf(t, s, proof).s == If(cond, NarrowBlock(t, thn, yes).b, ElseDo(NarrowBlock(t, els, no).b));
    assert NarrowStmt(t, s, proof) == NarrowIf(t, s, proof);
  }

  /** A test marks no use in the branch where the variable is nil. */
  lemma NilBranchUnmarked(t: set<Obj>, x: Obj, thn: Block, els: Block, proof: set<Obj>)
    requires x in t && PlainBlock(els, x) && UniformBlock(els, x, false)
    ensures var n := NarrowStmt(t, If(NotNil(x), thn, ElseDo(els)), proof).s;
            n.If? && n.els.ElseDo? && UniformBlock(n.els.body, x, false)
  {
    var s, no := If(NotNil(x), thn, ElseDo(els)), proof - {x};
    TestKnown(t, x, true, true, proof);
    TestKnown(t, x, true, false, proof);
    BlockMarks(t, els, x, no);
    assert NarrowElse(t, ElseDo(els), no).e == ElseDo(NarrowBlock(t, els, no).b);
    assert NarrowIf(t, s, proof).s.els == ElseDo(NarrowBlock(t, els, no).b);
    assert NarrowStmt(t, s, proof) == NarrowIf(t, s, proof);
  }

  /** ... in the operands it guards ... */
  lemma OperandMarked(t: set<Obj>, x: Obj, c: Expr, e: Expr, proof: set<Obj>)
    requires x in t && Quiet(e, x) && Uniform(e, x, false)
    ensures Needs(c, true, x) ==> Uniform(NarrowExpr(t, And(c, e), proof).r, x, true)
    ensures Needs(c, false, x) ==> Uniform(NarrowExpr(t, Or(c, e), proof).r, x, true)
    ensures Needs(c, true, x) ==> forall a :: Uniform(NarrowExpr(t, Choice(c, e, a), proof).thn, x, true)
    ensures Needs(c, false, x) ==> forall a :: Uniform(NarrowExpr(t, Choice(c, a, e), proof).els, x, true)
  {
    var cond := NarrowExpr(t, c, proof);
    if Needs(c, true, x) { NeededProved(t, c, true, proof, x); }
    if Needs(c, false, x) { NeededProved(t, c, false, proof, x); }
    ExprMarks(t, e, x, Assume(t, cond, true, proof));
    ExprMarks(t, e, x, Assume(t, cond, false, proof));
  }

  /** ... in the body and post statement of a loop that it controls ... */
  lemma LoopMarked(t: set<Obj>, x: Obj, c: Expr, post: Block, body: Block, proof: set<Obj>)
    requires x in t && Needs(c, true, x) && PlainBlock(post, x) && PlainBlock(body, x)
             && UniformBlock(post, x, false) && UniformBlock(body, x, false)
    ensures var n := NarrowStmt(t, For(Some(c), post, body), proof).s;
            n.For? && UniformBlock(n.body, x, true) && UniformBlock(n.post, x, true)
  {
    var s := For(Some(c), post, body);
    var kept := proof - Writes(s);
    var entry := Assume(t, NarrowExpr(t, c, kept), true, kept);
    NeededProved(t, c, true, kept, x);
    BlockMarks(t, body, x, entry);
    BlockMarks(t, post, x, NarrowBlock(t, body, entry).proof);
    assert NarrowStmt(t, s, proof) == NarrowFor(t, s, proof);
  }

  /** ... in everything behind a branch that does not come back ... */
  lemma EarlyExitMarked(t: set<Obj>, x: Obj, c: Expr, exit: Block, rest: Block, proof: set<Obj>)
    requires x in t && Needs(c, false, x) && BlockTerminates(exit) && PlainBlock(rest, x)
             && UniformBlock(rest, x, false)
    ensures var n := NarrowBlock(t, Cons(If(c, exit, NoElse), rest), proof);
            n.b.Cons? && UniformBlock(n.b.tail, x, true) && x in n.proof
  {
    var s := If(c, exit, NoElse);
    var known := Assume(t, NarrowExpr(t, c, proof), false, proof);
    NeededProved(t, c, false, proof, x);
    assert NarrowStmt(t, s, proof) == NarrowIf(t, s, proof);
    assert NarrowElse(t, NoElse, known) == NarrowedElse(NoElse, known);
    assert NarrowIf(t, s, proof).proof == known;
    BlockMarks(t, rest, x, known);
  }

  /** ... or behind a plain branch whose alternative does not ... */
  lemma OtherwiseExitMarked(t: set<Obj>, x: Obj, c: Expr, thn: Block, exit: Block, rest: Block, proof: set<Obj>)
    requires x in t && Needs(c, true, x) && BlockTerminates(exit) && !BlockTerminates(thn)
    requires PlainBlock(thn, x) && UniformBlock(thn, x, false) && PlainBlock(rest, x) && UniformBlock(rest, x, false)
    ensures var n := NarrowBlock(t, Cons(If(c, thn, ElseDo(exit)), rest), proof);
            n.b.Cons? && UniformBlock(n.b.tail, x, true) && x in n.proof
  {
    var s := If(c, thn, ElseDo(exit));
    var known := Assume(t, NarrowExpr(t, c, proof), true, proof);
    NeededProved(t, c, true, proof, x);
    BlockMarks(t, thn, x, known);
    assert NarrowStmt(t, s, proof) == NarrowIf(t, s, proof);
    var after := NarrowBlock(t, thn, known).proof;
    assert NarrowIf(t, s, proof).proof == after;
    BlockMarks(t, rest, x, after);
  }

  /** ... and, in a switch without a tag, in the clause that it guards and, if its
      failure needs the variable, in the clauses behind that. */
  lemma SwitchMarked(t: set<Obj>, x: Obj, c: Expr, first: Block, rest: Clauses, proof: set<Obj>)
    requires x in t
    ensures var n := NarrowStmt(t, Switch(None, Clause(false, More(c, NoExprs), first, rest)), proof).s;
            && n.Switch? && n.clauses.Clause?
            && (Needs(c, true, x) && PlainBlock(first, x) && UniformBlock(first, x, false) ==>
                  UniformBlock(n.clauses.body, x, true))
            && (Needs(c, false, x) && !BlockHasFall(first) && PlainClauses(rest, x)
                && UniformClauses(rest, x, false) ==>
                  UniformClauses(n.clauses.rest, x, true))
  {
    var guards := More(c, NoExprs);
    var cs := Clause(false, guards, first, rest);
    var failed := AllFailed(t, true, cs, proof);
    assert NarrowClauses(t, true, cs, proof, failed, false).Clause?;
    assert NarrowStmt(t, Switch(None, cs), proof) == NarrowSwitch(t, Switch(None, cs), proof);
    if Needs(c, true, x) && PlainBlock(first, x) && UniformBlock(first, x, false) {
      GuardedClause(t, x, c, first, rest, proof, failed);
    }
    if Needs(c, false, x) && !BlockHasFall(first) && PlainClauses(rest, x) && UniformClauses(rest, x, false) {
      LaterClauses(t, x, c, first, rest, proof);
    }
  }

  lemma GuardedClause(t: set<Obj>, x: Obj, c: Expr, first: Block, rest: Clauses, proof: set<Obj>, failed: set<Obj>)
    requires x in t && Needs(c, true, x) && PlainBlock(first, x) && UniformBlock(first, x, false)
    ensures var cs := Clause(false, More(c, NoExprs), first, rest);
            UniformBlock(NarrowClauses(t, true, cs, proof, failed, false).body, x, true)
  {
    var cs := Clause(false, More(c, NoExprs), first, rest);
    NeededProved(t, c, true, proof, x);
    var matched := Assume(t, NarrowExpr(t, c, proof), true, proof);
    assert Incoming(t, true, cs, proof, failed, false) == Matched(t, true, cs.guards, proof) == matched;
    BlockMarks(t, first, x, matched);
  }

  lemma LaterClauses(t: set<Obj>, x: Obj, c: Expr, first: Block, rest: Clauses, proof: set<Obj>)
    requires x in t && Needs(c, false, x) && !BlockHasFall(first) && PlainClauses(rest, x)
             && UniformClauses(rest, x, false)
    ensures var cs := Clause(false, More(c, NoExprs), first, rest);
            UniformClauses(NarrowClauses(t, true, cs, proof, AllFailed(t, true, cs, proof), false).rest, x, true)
  {
    var guards := More(c, NoExprs);
    var cs := Clause(false, guards, first, rest);
    var known := Assume(t, NarrowExpr(t, c, proof), false, proof);
    NeededProved(t, c, false, proof, x);
    assert GuardsFailed(t, true, NoExprs, known) == known;
    assert GuardsFailed(t, true, guards, proof) == known;
    AllFailedMarks(t, true, rest, x, known);
    var failed := AllFailed(t, true, cs, proof);
    assert failed == AllFailed(t, true, rest, known);
    ClausesMark(t, true, rest, x, known, failed);
    assert NarrowClauses(t, true, cs, proof, failed, false).rest == NarrowClauses(t, true, rest, known, failed, false);
  }
}
