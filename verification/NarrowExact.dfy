/** What narrowing makes of every statement, one variable at a time: a use is marked
    exactly where every path to it proves the variable, as `NarrowProofs` tells paths
    apart (internal/compiler/nullable_flow.go). */
module NarrowExact {
  import opened Options
  import opened Nullable
  import opened NarrowMarks
  import opened NarrowProofs
  import opened NarrowText

  // ----- a narrowed text beside its source -----

  /** The narrowed expression `n` has the marks of `e` and those due to `x`. A position
      that wants a non-nil value becomes a marked dereference. */
  predicate Right(e: Expr, n: Expr, x: Obj, unproved: bool)
    decreases e
  {
    match e
    case Paren(i) => n.Paren? && Right(i, n.e, x, unproved)
    case Not(i) => n.Not? && Right(i, n.e, x, unproved)
    case And(l, r) => n.And? && Right(l, n.l, x, unproved) && Right(r, n.r, x, After(l, true, x, unproved))
    case Or(l, r) => n.Or? && Right(l, n.l, x, unproved) && Right(r, n.r, x, After(l, false, x, unproved))
    case Equal(l, r, _) => n.Equal? && Right(l, n.l, x, unproved) && Right(r, n.r, x, unproved)
    case Choice(c, a, b) =>
      && n.Choice? && Right(c, n.cond, x, unproved) && Right(a, n.thn, x, After(c, true, x, unproved))
      && Right(b, n.els, x, After(c, false, x, unproved))
    case Op(_, args) => n.Op? && RightAll(args, n.args, x, unproved)
    case Deref(i, checked) =>
      n.Deref? && (i == Var(x) ==> n.checked == (checked || !unproved)) && Right(i, n.e, x, unproved)
    case Wanted(i) =>
      if i == Var(x) then n == (if unproved then e else Deref(i, true))
      else i.Var? || (n.Wanted? && Right(i, n.e, x, unproved))
    case Address(i) => n.Address? && Right(i, n.e, x, unproved)
    case _ => n == e
  }

  predicate RightAll(es: Exprs, ns: Exprs, x: Obj, unproved: bool)
    decreases es
  {
    if es.NoExprs? then ns.NoExprs?
    else ns.More? && Right(es.head, ns.head, x, unproved) && RightAll(es.tail, ns.tail, x, unproved)
  }

  function Assigned(target: Expr, x: Obj, unproved: bool): bool {
    if target == Var(x) then true else unproved
  }

  /** Behind a target that is the variable nothing is proved of it. */
  predicate RightTargets(lhs: Exprs, ns: Exprs, x: Obj, unproved: bool)
    decreases lhs
  {
    if lhs.NoExprs? then ns.NoExprs?
    else
      && ns.More? && Right(lhs.head, ns.head, x, unproved)
      && RightTargets(lhs.tail, ns.tail, x, Assigned(lhs.head, x, unproved))
  }

  /** A condition that is evaluated only if the ones before it in the list have failed. */
  predicate RightGuards(guards: Exprs, ns: Exprs, x: Obj, unproved: bool)
    decreases guards
  {
    if guards.NoExprs? then ns.NoExprs?
    else
      && ns.More? && Right(guards.head, ns.head, x, unproved)
      && RightGuards(guards.tail, ns.tail, x, After(guards.head, false, x, unproved))
  }

  predicate RightOver(over: Expr, n: Expr, x: Obj, unproved: bool) {
    if over == Var(x) then n == (if unproved then over else Deref(over, true))
    else over.Var? || Right(over, n, x, unproved)
  }

  /** Whatever is written in a loop is unproved at every turn. */
  ghost predicate Turning(s: Stmt, x: Obj, unproved: bool) {
    unproved || Written(Inside(s), x)
  }

  ghost function Tested(test: Option<Expr>, x: Obj, unproved: bool): bool {
    if test.Some? then After(test.value, true, x, unproved) else unproved
  }

  ghost predicate RightStmt(s: Stmt, n: Stmt, x: Obj, unproved: bool)
    decreases s
  {
    match s
    case Do(e) => n.Do? && Right(e, n.e, x, unproved)
    case Throw(e) => n.Throw? && Right(e, n.e, x, unproved)
    case Assign(lhs, rhs) => n.Assign? && RightTargets(lhs, n.lhs, x, unproved) && RightAll(rhs, n.rhs, x, unproved)
    case Declare(_, rhs) => n.Declare? && RightAll(rhs, n.rhs, x, unproved)
    case Return(es) => n.Return? && RightAll(es, n.es, x, unproved)
    case Scope(body) => n.Scope? && RightBlock(body, n.body, x, unproved)
    case If(c, thn, els) =>
      && n.If? && Right(c, n.cond, x, unproved) && RightBlock(thn, n.thn, x, After(c, true, x, unproved))
      && RightElse(els, n.els, x, After(c, false, x, unproved))
    case For(test, post, body) =>
      && n.For? && (if test.None? then n.test.None?
                    else n.test.Some? && Right(test.value, n.test.value, x, Turning(s, x, unproved)))
      && RightBlock(body, n.body, x, Tested(test, x, Turning(s, x, unproved)))
      && RightBlock(post, n.post, x, BlockUnproved(body, x, Tested(test, x, Turning(s, x, unproved))))
    case Range(_, over, body) =>
      n.Range? && RightOver(over, n.over, x, unproved) && RightBlock(body, n.body, x, Turning(s, x, unproved))
    case Switch(tag, clauses) =>
      && n.Switch? && (if tag.None? then n.tag.None? else n.tag.Some? && Right(tag.value, n.tag.value, x, unproved))
      && RightClauses(tag.None?, clauses, n.clauses, x, unproved, Failed(tag.None?, clauses, x, unproved), false)
    case Labeled(_, inner) => n.Labeled? && RightStmt(inner, n.stmt, x, true)
    case _ => n == s
  }

  ghost predicate RightBlock(b: Block, n: Block, x: Obj, unproved: bool)
    decreases b
  {
    if b.Nil? then n.Nil?
    else
      && n.Cons? && RightStmt(b.head, n.head, x, unproved)
      && RightBlock(b.tail, n.tail, x, Unproved(b.head, x, unproved))
  }

  ghost predicate RightElse(e: Else, n: Else, x: Obj, unproved: bool)
    decreases e
  {
    match e
    case NoElse => n.NoElse?
    case ElseDo(b) => n.ElseDo? && RightBlock(b, n.body, x, unproved)
    case ElseIf(s) => n.ElseIf? && RightStmt(s, n.stmt, x, unproved)
  }

  // ----- clauses -----

  /** Only the guards of a switch without a tag are conditions. */
  function Failed(tagless: bool, cs: Clauses, x: Obj, unproved: bool): bool {
    if tagless then NoneMatches(cs, x, unproved) else unproved
  }

  function Passed(tagless: bool, cs: Clauses, x: Obj, unproved: bool): bool
    requires cs.Clause?
  {
    if tagless && !cs.isDefault then AllFail(cs.guards, x, unproved) else unproved
  }

  /** Entered by falling into it, as the default, or by one of its guards. */
  ghost function Entered(tagless: bool, cs: Clauses, x: Obj, unproved: bool, failed: bool, fell: bool): bool
    requires cs.Clause?
  {
    if fell then true
    else if cs.isDefault then failed
    else if cs.guards.NoExprs? then true
    else if tagless then SomeMatches(cs.guards, x, unproved)
    else unproved
  }

  predicate RightHead(tagless: bool, cs: Clauses, n: Clauses, x: Obj, unproved: bool)
    requires cs.Clause? && n.Clause?
  {
    if cs.isDefault then n.guards == cs.guards
    else if tagless then RightGuards(cs.guards, n.guards, x, unproved)
    else RightAll(cs.guards, n.guards, x, unproved)
  }

  ghost predicate RightClauses(tagless: bool, cs: Clauses, n: Clauses, x: Obj, unproved: bool, failed: bool, fell: bool)
    decreases cs
  {
    if cs.NoClauses? then n.NoClauses?
    else
      && n.Clause? && n.isDefault == cs.isDefault && RightHead(tagless, cs, n, x, unproved)
      && RightBlock(cs.body, n.body, x, Entered(tagless, cs, x, unproved, failed, fell))
      && RightClauses(tagless, cs.rest, n.rest, x, Passed(tagless, cs, x, unproved), failed, BlockHasFall(cs.body))
  }

  // ----- expressions -----

  lemma {:induction false} ExprExact(t: set<Obj>, e: Expr, proof: set<Obj>, x: Obj)
    requires x in t
    ensures Right(e, NarrowExpr(t, e, proof), x, Lacks(proof, x))
    decreases e
  {
    match e
    case Paren(i) => ExprExact(t, i, proof, x);
    case Not(i) => ExprExact(t, i, proof, x);
    case And(l, r) =>
      ConditionExact(t, l, true, proof, x);
      ExprExact(t, l, proof, x);
      ExprExact(t, r, Assume(t, NarrowExpr(t, l, proof), true, proof), x);
    case Or(l, r) =>
      ConditionExact(t, l, false, proof, x);
      ExprExact(t, l, proof, x);
      ExprExact(t, r, Assume(t, NarrowExpr(t, l, proof), false, proof), x);
    case Equal(l, r, _) =>
      ExprExact(t, l, proof, x);
      ExprExact(t, r, proof, x);
    case Choice(c, a, b) =>
      var cond := NarrowExpr(t, c, proof);
      ConditionExact(t, c, true, proof, x);
      ConditionExact(t, c, false, proof, x);
      ExprExact(t, c, proof, x);
      ExprExact(t, a, Assume(t, cond, true, proof), x);
      ExprExact(t, b, Assume(t, cond, false, proof), x);
    case Op(_, args) => ExprsExact(t, args, proof, x);
    case Deref(i, _) => ExprExact(t, i, proof, x);
    case Wanted(i) => ExprExact(t, i, proof, x);
    case Address(i) => ExprExact(t, i, proof, x);
    case _ =>
  }

  lemma {:induction false} ExprsExact(t: set<Obj>, es: Exprs, proof: set<Obj>, x: Obj)
    requires x in t
    ensures RightAll(es, NarrowExprs(t, es, proof), x, Lacks(proof, x))
    decreases es
  {
    if es.More? {
      ExprExact(t, es.head, proof, x);
      ExprsExact(t, es.tail, proof, x);
    }
  }

  lemma {:induction false} TargetsExact(t: set<Obj>, lhs: Exprs, proof: set<Obj>, x: Obj)
    requires x in t
    ensures RightTargets(lhs, NarrowTargets(t, lhs, proof), x, Lacks(proof, x))
    decreases lhs
  {
    if lhs.More? {
      ExprExact(t, lhs.head, proof, x);
      TargetsExact(t, lhs.tail, proof - Named(lhs.head), x);
    }
  }

  lemma {:induction false} GuardMarks(t: set<Obj>, guards: Exprs, remaining: set<Obj>, x: Obj)
    requires x in t
    ensures RightGuards(guards, NarrowGuards(t, true, guards, remaining), x, Lacks(remaining, x))
    decreases guards
  {
    if guards.More? {
      ConditionExact(t, guards.head, false, remaining, x);
      ExprExact(t, guards.head, remaining, x);
      GuardMarks(t, guards.tail, Assume(t, NarrowExpr(t, guards.head, remaining), false, remaining), x);
    }
  }

  lemma {:induction false} TaggedGuards(t: set<Obj>, guards: Exprs, remaining: set<Obj>, x: Obj)
    requires x in t
    ensures RightAll(guards, NarrowGuards(t, false, guards, remaining), x, Lacks(remaining, x))
    ensures GuardsFailed(t, false, guards, remaining) == remaining
    ensures guards.More? ==> Matched(t, false, guards, remaining) == remaining
    decreases guards
  {
    if guards.More? {
      ExprExact(t, guards.head, remaining, x);
      TaggedGuards(t, guards.tail, remaining, x);
    }
  }

  lemma {:induction false} TaggedFailed(t: set<Obj>, cs: Clauses, remaining: set<Obj>, x: Obj)
    requires x in t
    ensures AllFailed(t, false, cs, remaining) == remaining
    decreases cs
  {
    if cs.Clause? {
      TaggedGuards(t, cs.guards, remaining, x);
      TaggedFailed(t, cs.rest, remaining, x);
    }
  }

  // ----- statements -----

  /** In every narrowed statement a use of a tracked variable is marked exactly if every
      path to it proves the variable. */
  lemma {:induction false} StmtExact(t: set<Obj>, s: Stmt, proof: set<Obj>, x: Obj)
    requires x in t
    ensures RightStmt(s, NarrowStmt(t, s, proof).s, x, Lacks(proof, x))
    decreases s, 1
  {
    match s
    case Do(e) => ExprExact(t, e, proof, x);
    case Throw(e) => ExprExact(t, e, proof, x);
    case Assign(lhs, rhs) =>
      TargetsExact(t, lhs, proof, x);
      ExprsExact(t, rhs, proof, x);
    case Declare(_, rhs) => ExprsExact(t, rhs, proof, x);
    case Return(es) => ExprsExact(t, es, proof, x);
    case Scope(body) => BlockExact(t, body, proof, x);
    case If(_, _, _) => IfExact(t, s, proof, x);
    case For(_, _, _) => ForExact(t, s, proof, x);
    case Range(_, over, body) =>
      WritesExact(s, x);
      ExprExact(t, over, proof, x);
      BlockExact(t, body, proof - Writes(s), x);
    case Switch(_, _) => SwitchExact(t, s, proof, x);
    case Labeled(_, inner) => StmtExact(t, inner, {}, x);
    case _ =>
  }

  lemma {:induction false} IfExact(t: set<Obj>, s: Stmt, proof: set<Obj>, x: Obj)
    requires x in t && s.If?
    ensures RightStmt(s, NarrowStmt(t, s, proof).s, x, Lacks(proof, x))
    decreases s, 0
  {
    var cond := NarrowExpr(t, s.cond, proof);
    ExprExact(t, s.cond, proof, x);
    ConditionExact(t, s.cond, true, proof, x);
    ConditionExact(t, s.cond, false, proof, x);
    BlockExact(t, s.thn, Assume(t, cond, true, proof), x);
    ElseExact(t, s.els, Assume(t, cond, false, proof), x);
    assert NarrowStmt(t, s, proof) == NarrowIf(t, s, proof);
  }

  lemma {:induction false} ForExact(t: set<Obj>, s: Stmt, proof: set<Obj>, x: Obj)
    requires x in t && s.For?
    ensures RightStmt(s, NarrowStmt(t, s, proof).s, x, Lacks(proof, x))
    decreases s, 0
  {
    var kept := proof - Writes(s);
    var cond := if s.test.Some? then Some(NarrowExpr(t, s.test.value, kept)) else None;
    var start := AssumeAll(t, cond, true, kept);
    WritesExact(s, x);
    assert Lacks(kept, x) == Turning(s, x, Lacks(proof, x));
    if s.test.Some? {
      ExprExact(t, s.test.value, kept, x);
      ConditionExact(t, s.test.value, true, kept, x);
    }
    assert Lacks(start, x) == Tested(s.test, x, Lacks(kept, x));
    BlockExact(t, s.body, start, x);
    BlockProves(t, s.body, start, x);
    BlockExact(t, s.post, NarrowBlock(t, s.body, start).proof, x);
    assert NarrowStmt(t, s, proof) == NarrowFor(t, s, proof);
  }

  lemma {:induction false} SwitchExact(t: set<Obj>, s: Stmt, proof: set<Obj>, x: Obj)
    requires x in t && s.Switch?
    ensures RightStmt(s, NarrowStmt(t, s, proof).s, x, Lacks(proof, x))
    decreases s, 0
  {
    var failed := AllFailed(t, s.tag.None?, s.clauses, proof);
    if s.tag.Some? {
      ExprExact(t, s.tag.value, proof, x);
      TaggedFailed(t, s.clauses, proof, x);
    } else { NoneExact(t, s.clauses, proof, x); }
    ClausesExact(t, s.tag.None?, s.clauses, proof, failed, false, x);
    assert NarrowStmt(t, s, proof) == NarrowSwitch(t, s, proof);
  }

  lemma {:induction false} ClausesExact(t: set<Obj>, tagless: bool, cs: Clauses, remaining: set<Obj>,
                                        failed: set<Obj>, fell: bool, x: Obj)
    requires x in t
    ensures RightClauses(tagless, cs, NarrowClauses(t, tagless, cs, remaining, failed, fell), x, Lacks(remaining, x),
                         Lacks(failed, x), fell)
    decreases cs
  {
    if cs.Clause? {
      if tagless {
        GuardsExact(t, cs.guards, remaining, x);
        GuardMarks(t, cs.guards, remaining, x);
      } else { TaggedGuards(t, cs.guards, remaining, x); }
      BlockExact(t, cs.body, Incoming(t, tagless, cs, remaining, failed, fell), x);
      ClausesExact(t, tagless, cs.rest, NextRemaining(t, tagless, cs, remaining), failed, BlockHasFall(cs.body), x);
    }
  }

  lemma {:induction false} BlockExact(t: set<Obj>, b: Block, proof: set<Obj>, x: Obj)
    requires x in t
    ensures RightBlock(b, NarrowBlock(t, b, proof).b, x, Lacks(proof, x))
    decreases b
  {
    if b.Cons? {
      StmtExact(t, b.head, proof, x);
      StmtProves(t, b.head, proof, x);
      BlockExact(t, b.tail, NarrowStmt(t, b.head, proof).proof, x);
    }
  }

  lemma {:induction false} ElseExact(t: set<Obj>, e: Else, proof: set<Obj>, x: Obj)
    requires x in t
    ensures RightElse(e, NarrowElse(t, e, proof).e, x, Lacks(proof, x))
    decreases e
  {
    if e.ElseDo? { BlockExact(t, e.body, proof, x); }
    if e.ElseIf? { StmtExact(t, e.stmt, proof, x); }
  }
}
