/** What narrowing holds for proved, one variable at a time: what every path through the
    text proves, as far as the pass tells paths apart
    (internal/compiler/nullable_flow.go). */
module NarrowProofs {
  import opened Options
  import opened Nullable
  import opened NarrowMarks
  import opened NarrowText

  predicate Lacks(proof: set<Obj>, x: Obj) { x !in proof }

  /** Whether the variable is unproved once the condition has this value. */
  function After(e: Expr, truth: bool, x: Obj, unproved: bool): bool {
    var test := LastTest(Conjuncts(e, truth), x);
    if test.Some? then !test.value else unproved
  }

  /** Some path through the statement, entered with the variable unproved or not, ends
      with it unproved. A branch that does not come back adds none; a loop or switch
      may have written what is written in it; a label forgets everything. */
  ghost predicate Unproved(s: Stmt, x: Obj, unproved: bool)
    decreases s
  {
    match s
    case Assign(lhs, _) => unproved || Among(Var(x), lhs)
    case Scope(body) => BlockUnproved(body, x, unproved)
    case If(c, thn, els) =>
      var yes, no := BlockUnproved(thn, x, After(c, true, x, unproved)), ElseUnproved(els, x,
          After(c, false, x, unproved));
      if BlockTerminates(thn) then no
      else if els.ElseDo? && BlockTerminates(els.body) then yes
      else yes || no
    case For(_, _, _) => unproved || Written(Inside(s), x)
    case Range(_, _, _) => unproved || Written(Inside(s), x)
    case Switch(_, _) => unproved || Written(Inside(s), x)
    case Labeled(_, inner) => Unproved(inner, x, true)
    case _ => unproved
  }

  ghost predicate BlockUnproved(b: Block, x: Obj, unproved: bool)
    decreases b
  {
    if b.Nil? then unproved else BlockUnproved(b.tail, x, Unproved(b.head, x, unproved))
  }

  ghost predicate ElseUnproved(e: Else, x: Obj, unproved: bool)
    decreases e
  {
    match e
    case NoElse => unproved
    case ElseDo(b) => BlockUnproved(b, x, unproved)
    case ElseIf(s) => Unproved(s, x, unproved)
  }

  lemma {:induction false} ConditionExact(t: set<Obj>, e: Expr, truth: bool, proof: set<Obj>, x: Obj)
    requires x in t
    ensures x !in Assume(t, NarrowExpr(t, e, proof), truth, proof) <==> After(e, truth, x, Lacks(proof, x))
  {
    NarrowedTests(t, e, truth, proof, x);
    AssumeExact(t, NarrowExpr(t, e, proof), truth, proof, x);
  }

  /** A tracked variable is proved behind a statement exactly if no path leaves it
      unproved: where branches meet nothing is lost that both prove. */
  lemma {:induction false} StmtProves(t: set<Obj>, s: Stmt, proof: set<Obj>, x: Obj)
    requires x in t
    ensures x !in NarrowStmt(t, s, proof).proof <==> Unproved(s, x, Lacks(proof, x))
    decreases s
  {
    match s
    case Assign(lhs, _) => NamedExact(lhs, x);
    case Scope(body) => BlockProves(t, body, proof, x);
    case If(c, thn, els) =>
      var cond := NarrowExpr(t, c, proof);
      ConditionExact(t, c, true, proof, x);
      ConditionExact(t, c, false, proof, x);
      BlockProves(t, thn, Assume(t, cond, true, proof), x);
      ElseProves(t, els, Assume(t, cond, false, proof), x);
      assert NarrowStmt(t, s, proof) == NarrowIf(t, s, proof);
    case For(_, _, _) => WritesExact(s, x);
    case Range(_, _, _) => WritesExact(s, x);
    case Switch(_, _) => WritesExact(s, x);
    case Labeled(_, inner) => StmtProves(t, inner, {}, x);
    case _ =>
  }

  lemma {:induction false} BlockProves(t: set<Obj>, b: Block, proof: set<Obj>, x: Obj)
    requires x in t
    ensures x !in NarrowBlock(t, b, proof).proof <==> BlockUnproved(b, x, Lacks(proof, x))
    decreases b
  {
    if b.Cons? {
      StmtProves(t, b.head, proof, x);
      BlockProves(t, b.tail, NarrowStmt(t, b.head, proof).proof, x);
    }
  }

  lemma {:induction false} ElseProves(t: set<Obj>, e: Else, proof: set<Obj>, x: Obj)
    requires x in t
    ensures x !in NarrowElse(t, e, proof).proof <==> ElseUnproved(e, x, Lacks(proof, x))
    decreases e
  {
    if e.ElseDo? { BlockProves(t, e.body, proof, x); }
    if e.ElseIf? { StmtProves(t, e.stmt, proof, x); }
  }

  // ----- clauses -----

  /** The guards of a switch without a tag, in order, as far as one that holds. */
  ghost predicate SomeMatches(guards: Exprs, x: Obj, unproved: bool)
    decreases guards
  {
    guards.More? && (After(guards.head, true, x, unproved)
                     || SomeMatches(guards.tail, x, After(guards.head, false, x, unproved)))
  }

  function AllFail(guards: Exprs, x: Obj, unproved: bool): bool
    decreases guards
  {
    if guards.NoExprs? then unproved else AllFail(guards.tail, x, After(guards.head, false, x, unproved))
  }

  /** ... and of all clauses, the default one passed over. */
  function NoneMatches(cs: Clauses, x: Obj, unproved: bool): bool
    decreases cs
  {
    if cs.NoClauses? then unproved
    else if cs.isDefault then NoneMatches(cs.rest, x, unproved)
    else NoneMatches(cs.rest, x, AllFail(cs.guards, x, unproved))
  }

  lemma {:induction false} GuardsExact(t: set<Obj>, guards: Exprs, remaining: set<Obj>, x: Obj)
    requires x in t
    ensures x !in GuardsFailed(t, true, guards, remaining) <==> AllFail(guards, x, Lacks(remaining, x))
    ensures guards.More? ==>
              (x !in Matched(t, true, guards, remaining) <==> SomeMatches(guards, x, Lacks(remaining, x)))
    decreases guards
  {
    if guards.More? {
      ConditionExact(t, guards.head, true, remaining, x);
      ConditionExact(t, guards.head, false, remaining, x);
      GuardsExact(t, guards.tail, Assume(t, NarrowExpr(t, guards.head, remaining), false, remaining), x);
    }
  }

  lemma {:induction false} NoneExact(t: set<Obj>, cs: Clauses, remaining: set<Obj>, x: Obj)
    requires x in t
    ensures x !in AllFailed(t, true, cs, remaining) <==> NoneMatches(cs, x, Lacks(remaining, x))
    decreases cs
  {
    if cs.Clause? {
      GuardsExact(t, cs.guards, remaining, x);
      NoneExact(t, cs.rest, if cs.isDefault then remaining else GuardsFailed(t, true, cs.guards, remaining), x);
    }
  }

  /** A clause that nothing falls into starts with a variable proved exactly if every
      way in proves it: each of its guards after the ones before have failed, or for
      the default clause the failure of all guards of the switch. */
  lemma {:induction false} ClauseProves(t: set<Obj>, all: Clauses, proof: set<Obj>, cs: Clauses,
                                        remaining: set<Obj>, x: Obj)
    requires x in t && cs.Clause? && (cs.isDefault || cs.guards.More?)
    ensures x !in Incoming(t, true, cs, remaining, AllFailed(t, true, all, proof), false) <==>
            if cs.isDefault then NoneMatches(all, x, Lacks(proof, x))
                else SomeMatches(cs.guards, x, Lacks(remaining, x))
  {
    NoneExact(t, all, proof, x);
    GuardsExact(t, cs.guards, remaining, x);
  }
}
