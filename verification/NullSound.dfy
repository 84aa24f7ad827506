/** Soundness of nil-check narrowing: no dereference the pass marks as checked
    ever meets nil. */
module NullSound {
  import opened Options
  import opened Nullable
  import opened NullMachine
  import opened NullRules

  /** Everything proved is tracked and is not nil now. */
  ghost predicate Valid(t: set<Obj>, proof: set<Obj>, st: State) {
    proof <= t && st.escaped !! t && forall x :: x in proof ==> Read(st, x) != 0
  }

  /** No tracked variable changed, and none became reachable from elsewhere. */
  ghost predicate Same(t: set<Obj>, a: State, b: State) {
    b.escaped !! t && forall x :: x in t ==> Read(b, x) == Read(a, x)
  }

  lemma ApplySame(fn: Fn, t: set<Obj>, id: int, vals: seq<Val>, st: State)
    requires t <= fn.locals && st.escaped !! t
    ensures var o := Apply(fn, id, vals, st); !o.Fault? && Same(t, st, o.st)
  {
    var o := fn.ev(id, vals, st);
    if !o.Fault? {
      var k := Keep(fn, st, o.st);
      forall x | x in t ensures Read(k, x) == Read(st, x) {}
    }
  }

  // ----- expressions -----

  lemma {:induction false} EvalSound(fn: Fn, t: set<Obj>, e: Expr, proof: set<Obj>, st: State)
    requires t <= fn.locals && Proper(t, e) && Unstable(e) !! t && Valid(t, proof, st)
    ensures var n := NarrowExpr(t, e, proof);
            var o := Eval(fn, n, st);
            && !o.Fault? && Same(t, st, o.st)
            && (o.Yields? ==> Valid(t, Assume(t, n, First(o.vals) != 0, proof), o.st))
    decreases e
  {
    match e
    case Paren(i) => EvalSound(fn, t, i, proof, st);
    case Not(i) => EvalSound(fn, t, i, proof, st);
    case And(l, r) =>
      EvalSound(fn, t, l, proof, st);
      var left := NarrowExpr(t, l, proof);
      var o := Eval(fn, left, st);
      if o.Yields? && First(o.vals) != 0 { EvalSound(fn, t, r, Assume(t, left, true, proof), o.st); }
    case Or(l, r) =>
      EvalSound(fn, t, l, proof, st);
      var left := NarrowExpr(t, l, proof);
      var o := Eval(fn, left, st);
      if o.Yields? && First(o.vals) == 0 { EvalSound(fn, t, r, Assume(t, left, false, proof), o.st); }
    case Equal(l, r, negated) =>
      EvalSound(fn, t, l, proof, st);
      var o := Eval(fn, NarrowExpr(t, l, proof), st);
      if o.Yields? {
        EvalSound(fn, t, r, proof, o.st);
        NilTest(fn, t, NarrowExpr(t, l, proof), NarrowExpr(t, r, proof), negated, proof, st);
      }
    case Choice(c, a, b) =>
      EvalSound(fn, t, c, proof, st);
      var cond := NarrowExpr(t, c, proof);
      var o := Eval(fn, cond, st);
      if o.Yields? {
        if First(o.vals) != 0 { EvalSound(fn, t, a, Assume(t, cond, true, proof), o.st); }
        else { EvalSound(fn, t, b, Assume(t, cond, false, proof), o.st); }
      }
    case Op(id, args) =>
      EvalAllSound(fn, t, args, proof, st);
      var o := EvalAll(fn, NarrowExprs(t, args, proof), st);
      if o.Yields? { ApplySame(fn, t, id, o.vals, o.st); }
    case Deref(i, _) =>
      EvalSound(fn, t, i, proof, st);
      var o := Eval(fn, NarrowExpr(t, i, proof), st);
      if o.Yields? && First(o.vals) != 0 { ApplySame(fn, t, LOAD, [First(o.vals)], o.st); }
    case Wanted(i) =>
      EvalSound(fn, t, i, proof, st);
      if i.Var? && i.x in proof { ApplySame(fn, t, LOAD, [Read(st, i.x)], st); }
    case Address(i) =>
      EvalSound(fn, t, i, proof, st);
      BareNarrow(t, i, proof);
      var n := NarrowExpr(t, i, proof);
      var o := Eval(fn, n, st);
      if !Bare(n).Var? && o.Yields? { ApplySame(fn, t, ADDRESS, o.vals, o.st); }
    case _ =>
  }

  /** Comparing a tracked variable with nil tells whether it is nil. */
  lemma NilTest(fn: Fn, t: set<Obj>, l: Expr, r: Expr, negated: bool, proof: set<Obj>, st: State)
    requires Valid(t, proof, st)
    requires var o := Eval(fn, l, st);
               o.Yields? && Same(t, st, o.st) && !Eval(fn, r, o.st).Fault? && Same(t, o.st, Eval(fn, r, o.st).st)
    ensures var e := Equal(l, r, negated);
            var o := Eval(fn, e, st);
            o.Yields? ==> Valid(t, Assume(t, e, First(o.vals) != 0, proof), o.st)
  {
    var candidate := if l.NilLit? then r else l;
    var other := if l.NilLit? then l else r;
    if other.NilLit? && candidate.Var? && candidate.x in t {
      assert Eval(fn, candidate, st) == Yields([Read(st, candidate.x)], st);
      assert Eval(fn, other, st) == Yields([0], st);
    }
  }

  lemma {:induction false} BareNarrow(t: set<Obj>, e: Expr, proof: set<Obj>)
    ensures Bare(NarrowExpr(t, e, proof)).Var? <==> Bare(e).Var?
    ensures Bare(e).Var? ==> NarrowExpr(t, e, proof) == e
    decreases e
  {
    if e.Paren? { BareNarrow(t, e.e, proof); }
  }

  lemma {:induction false} EvalAllSound(fn: Fn, t: set<Obj>, es: Exprs, proof: set<Obj>, st: State)
    requires t <= fn.locals && AllProper(t, es) && AllUnstable(es) !! t && Valid(t, proof, st)
    ensures var o := EvalAll(fn, NarrowExprs(t, es, proof), st); !o.Fault? && Same(t, st, o.st)
    decreases es
  {
    if es.More? {
      EvalSound(fn, t, es.head, proof, st);
      var o := Eval(fn, NarrowExpr(t, es.head, proof), st);
      if o.Yields? { EvalAllSound(fn, t, es.tail, proof, o.st); }
    }
  }

  /** An expression evaluated where nothing is proved and nothing was marked. */
  lemma {:induction false} UnmarkedEval(fn: Fn, t: set<Obj>, e: Expr, st: State)
    requires t <= fn.locals && Proper(t, e) && Unstable(e) !! t && st.escaped !! t
    ensures var o := Eval(fn, e, st); !o.Fault? && Same(t, st, o.st)
    decreases e
  {
    match e
    case Paren(i) => UnmarkedEval(fn, t, i, st);
    case Wanted(i) => UnmarkedEval(fn, t, i, st);
    case Not(i) => UnmarkedEval(fn, t, i, st);
    case And(l, r) => UnmarkedTwo(fn, t, e, l, r, st);
    case Or(l, r) => UnmarkedTwo(fn, t, e, l, r, st);
    case Equal(l, r, _) => UnmarkedTwo(fn, t, e, l, r, st);
    case Choice(c, a, b) =>
      UnmarkedTwo(fn, t, e, c, a, st);
      UnmarkedTwo(fn, t, e, c, b, st);
    case Op(id, args) =>
      UnmarkedEvalAll(fn, t, args, st);
      var o := EvalAll(fn, args, st);
      if o.Yields? { ApplySame(fn, t, id, o.vals, o.st); }
    case Deref(i, _) =>
      UnmarkedEval(fn, t, i, st);
      var o := Eval(fn, i, st);
      if o.Yields? && First(o.vals) != 0 { ApplySame(fn, t, LOAD, [First(o.vals)], o.st); }
    case Address(i) =>
      UnmarkedEval(fn, t, i, st);
      var o := Eval(fn, i, st);
      if o.Yields? { ApplySame(fn, t, ADDRESS, o.vals, o.st); }
    case _ =>
  }

  lemma {:induction false} UnmarkedTwo(fn: Fn, t: set<Obj>, e: Expr, l: Expr, r: Expr, st: State)
    requires l < e && r < e && t <= fn.locals && Proper(t, l) && Unstable(l) !! t && Proper(t, r) && Unstable(r) !! t
             && st.escaped !! t
    ensures var o := Eval(fn, l, st);
            !o.Fault? && Same(t, st, o.st)
                && (o.Yields? ==> !Eval(fn, r, o.st).Fault? && Same(t, st, Eval(fn, r, o.st).st))
    decreases e, 0
  {
    UnmarkedEval(fn, t, l, st);
    var o := Eval(fn, l, st);
    if o.Yields? { UnmarkedEval(fn, t, r, o.st); }
  }

  lemma {:induction false} UnmarkedEvalAll(fn: Fn, t: set<Obj>, es: Exprs, st: State)
    requires t <= fn.locals && AllProper(t, es) && AllUnstable(es) !! t && st.escaped !! t
    ensures var o := EvalAll(fn, es, st); !o.Fault? && Same(t, st, o.st)
    decreases es
  {
    if es.More? {
      UnmarkedEval(fn, t, es.head, st);
      var o := Eval(fn, es.head, st);
      if o.Yields? { UnmarkedEvalAll(fn, t, es.tail, o.st); }
    }
  }

  // ----- assignments -----

  lemma {:induction false} TargetsSound(fn: Fn, t: set<Obj>, lhs: Exprs, proof: set<Obj>, st: State)
    requires t <= fn.locals && AllProper(t, lhs) && AllUnstable(lhs) !! t && Valid(t, proof, st)
    ensures var o := EvalTargets(fn, NarrowTargets(t, lhs, proof), st); !o.Fault? && Same(t, st, o.st)
    decreases lhs
  {
    if lhs.More? {
      var h := NarrowExpr(t, lhs.head, proof);
      EvalSound(fn, t, lhs.head, proof, st);
      var o := Eval(fn, h, st);
      var next := proof - Named(lhs.head);
      if Bare(h).Var? { TargetsSound(fn, t, lhs.tail, next, st); }
      else if o.Yields? { TargetsSound(fn, t, lhs.tail, next, o.st); }
    }
  }

  lemma {:induction false} UnmarkedTargets(fn: Fn, t: set<Obj>, lhs: Exprs, st: State)
    requires t <= fn.locals && AllProper(t, lhs) && AllUnstable(lhs) !! t && st.escaped !! t
    ensures var o := EvalTargets(fn, lhs, st); !o.Fault? && Same(t, st, o.st)
    decreases lhs
  {
    if lhs.More? {
      UnmarkedEval(fn, t, lhs.head, st);
      var o := Eval(fn, lhs.head, st);
      if Bare(lhs.head).Var? { UnmarkedTargets(fn, t, lhs.tail, st); }
      else if o.Yields? { UnmarkedTargets(fn, t, lhs.tail, o.st); }
    }
  }

  lemma {:induction false} TargetsStay(t: set<Obj>, lhs: Exprs, proof: set<Obj>)
    requires PlainTargets(t, lhs)
    ensures PlainTargets(t, NarrowTargets(t, lhs, proof)) && AllNamed(NarrowTargets(t, lhs, proof)) == AllNamed(lhs)
    decreases lhs
  {
    if lhs.More? {
      BareNarrow(t, lhs.head, proof);
      TargetsStay(t, lhs.tail, proof - Named(lhs.head));
    }
  }

  /** Only named variables change. */
  ghost predicate Framed(t: set<Obj>, touched: set<Obj>, a: State, b: State) {
    b.escaped !! t && forall x :: x in t && x !in touched ==> Read(b, x) == Read(a, x)
  }

  lemma {:induction false} StoreFramed(fn: Fn, t: set<Obj>, lhs: Exprs, vals: seq<Val>, st: State)
    requires t <= fn.locals && PlainTargets(t, lhs) && st.escaped !! t
    ensures var o := StoreAll(fn, lhs, vals, st); !o.Fault? && Framed(t, AllNamed(lhs), st, o.st)
    decreases lhs
  {
    if lhs.More? {
      var tail := if vals == [] then [] else vals[1..];
      if Bare(lhs.head).Var? {
        StoreFramed(fn, t, lhs.tail, tail, st.(store := st.store[Bare(lhs.head).x := First(vals)]));
      } else {
        ApplySame(fn, t, STORE, [First(vals)], st);
        var o := Apply(fn, STORE, [First(vals)], st);
        if o.Yields? { StoreFramed(fn, t, lhs.tail, tail, o.st); }
      }
    }
  }

  lemma {:induction false} BindFramed(t: set<Obj>, names: seq<Obj>, vals: seq<Val>, st: State)
    requires st.escaped !! t
    ensures Framed(t, (set x | x in names), st, Bind(names, vals, st))
    decreases |names|
  {
    if names != [] {
      BindFramed(t, names[1..], if vals == [] then [] else vals[1..], st.(store := st.store[names[0] := First(vals)]));
      assert names == [names[0]] + names[1..];
    }
  }

  lemma AssignSound(fn: Fn, t: set<Obj>, lhs: Exprs, rhs: Exprs, proof: set<Obj>, st: State)
    requires t <= fn.locals && AllProper(t, lhs) && AllUnstable(lhs) !! t && PlainTargets(t, lhs) && AllProper(t, rhs)
             && AllUnstable(rhs) !! t && Valid(t, proof, st)
    ensures var o := AssignAll(fn, NarrowTargets(t, lhs, proof), NarrowExprs(t, rhs, proof), st);
            !o.Fault? && Framed(t, AllNamed(lhs), st, o.st)
  {
    var targets, values := NarrowTargets(t, lhs, proof), NarrowExprs(t, rhs, proof);
    TargetsSound(fn, t, lhs, proof, st);
    TargetsStay(t, lhs, proof);
    var o := EvalTargets(fn, targets, st);
    if o.Yields? {
      EvalAllSound(fn, t, rhs, proof, o.st);
      var p := EvalAll(fn, values, o.st);
      if p.Yields? { StoreFramed(fn, t, targets, Spread(fn, p.vals, Count(targets)), p.st); }
    }
  }

  // ----- statements -----

  function Touched(s: Stmt): set<Obj> {
    Writes(s) + Decls(s)
  }

  /** What a run of a narrowed statement owes: no fault, only the touched
      variables changed, and after a normal end the new proof holds. */
  ghost predicate Good(t: set<Obj>, touched: set<Obj>, proof: set<Obj>, st: State, r: R) {
    !r.c.Faulted? && Framed(t, touched, st, r.st) && (r.c.Normal? ==> Valid(t, proof, r.st))
  }

  /** What a statement can end with is visible in its text, and what is proved at
      every `continue` holds at the one it ends with. */
  ghost predicate StmtEnds(t: set<Obj>, s: Stmt, lab: Name, proof: set<Obj>, r: R) {
    && (r.c.ContinueTo? ==> Valid(t, AtContinue(t, s, lab, r.c.lab, proof), r.st))
    && (r.c.Fell? ==> HasFall(s)) && (Terminates(s) ==> !r.c.Normal?)
  }

  ghost predicate BlockEnds(t: set<Obj>, b: Block, proof: set<Obj>, r: R) {
    && (r.c.ContinueTo? ==> Valid(t, AtContinueIn(t, b, r.c.lab, proof), r.st))
    && (r.c.Fell? ==> BlockHasFall(b)) && (BlockTerminates(b) ==> !r.c.Normal?)
  }

  lemma StillValid(t: set<Obj>, touched: set<Obj>, proof: set<Obj>, a: State, b: State)
    requires Valid(t, proof, a) && Framed(t, touched, a, b) && proof !! touched
    ensures Valid(t, proof, b)
  {}

  lemma {:induction false} BlockSound(fn: Fn, t: set<Obj>, b: Block, proof: set<Obj>, seen: set<Obj>, st: State,
                                      fuel: nat)
    requires t <= fn.locals && ProperBlock(t, b) && BlockUnstable(b) !! t && ScopedBlock(b, seen)
             && SafePostsBlock(t, b, proof)
    requires Valid(t, proof, st) && proof <= seen
    ensures var n := NarrowBlock(t, b, proof);
            var r := ExecBlock(fn, n.b, st, fuel);
            Good(t, BlockWrites(b) + BlockDecls(b), n.proof, st, r) && BlockEnds(t, b, proof, r)
    decreases b, fuel, 1
  {
    if b.Cons? {
      StmtSound(fn, t, b.head, NO_LABEL, proof, seen, st, fuel);
      ProofMentioned(t, b.head, proof);
      var n := NarrowStmt(t, b.head, proof);
      var r := Exec(fn, n.s, NO_LABEL, st, fuel);
      if r.c.Normal? { BlockSound(fn, t, b.tail, n.proof, seen + Uses(b.head), r.st, fuel); }
    }
  }

  lemma {:induction false} StmtSound(fn: Fn, t: set<Obj>, s: Stmt, lab: Name, proof: set<Obj>, seen: set<Obj>,
                                     st: State, fuel: nat)
    requires t <= fn.locals && ProperStmt(t, s) && StmtUnstable(s) !! t && Scoped(s, seen)
             && SafePosts(t, s, lab, proof)
    requires Valid(t, proof, st) && proof <= seen
    ensures var n := NarrowStmt(t, s, proof);
            var r := Exec(fn, n.s, lab, st, fuel);
            Good(t, Touched(s), n.proof, st, r) && StmtEnds(t, s, lab, proof, r)
    decreases s, fuel, 6
  {
    if s.Scope? { BlockSound(fn, t, s.body, proof, seen, st, fuel); }
    else if s.If? { IfSound(fn, t, s, lab, proof, seen, st, fuel); }
    else if s.For? { ForSound(fn, t, s, lab, proof, seen, st, fuel); }
    else if s.Range? { RangeSound(fn, t, s, lab, proof, seen, st, fuel); }
    else if s.Switch? { SwitchSound(fn, t, s, lab, proof, seen, st, fuel); }
    else if s.Labeled? { StmtSound(fn, t, s.stmt, s.lab, {}, seen, st, fuel); }
    else { BasicSound(fn, t, s, lab, proof, seen, st, fuel); }
  }

  lemma BasicSound(fn: Fn, t: set<Obj>, s: Stmt, lab: Name, proof: set<Obj>, seen: set<Obj>, st: State, fuel: nat)
    requires s.Do? || s.Throw? || s.Assign? || s.Declare? || s.Return? || s.Break? || s.Continue? || s.Fallthrough?
    requires t <= fn.locals && ProperStmt(t, s) && StmtUnstable(s) !! t && Scoped(s, seen) && Valid(t, proof, st)
             && proof <= seen
    ensures var n := NarrowStmt(t, s, proof);
            var r := Exec(fn, n.s, lab, st, fuel);
            Good(t, Touched(s), n.proof, st, r) && StmtEnds(t, s, lab, proof, r)
  {
    var n := NarrowStmt(t, s, proof);
    assert Exec(fn, n.s, lab, st, fuel) == ExecBasic(fn, n.s, st);
    if s.Do? || s.Throw? { EvalSound(fn, t, s.e, proof, st); }
    else if s.Return? { EvalAllSound(fn, t, s.es, proof, st); }
    else if s.Assign? { AssignSound(fn, t, s.lhs, s.rhs, proof, st); }
    else if s.Declare? {
      EvalAllSound(fn, t, s.rhs, proof, st);
      var o := EvalAll(fn, NarrowExprs(t, s.rhs, proof), st);
      if o.Yields? { BindFramed(t, s.names, if n.s.rhs.NoExprs? then [] else Spread(fn, o.vals, |s.names|), o.st); }
    }
  }

  lemma {:induction false} IfSound(fn: Fn, t: set<Obj>, s: Stmt, lab: Name, proof: set<Obj>, seen: set<Obj>, st: State,
                                   fuel: nat)
    requires s.If? && t <= fn.locals && ProperStmt(t, s) && StmtUnstable(s) !! t && Scoped(s, seen)
             && SafePosts(t, s, lab, proof)
    requires Valid(t, proof, st) && proof <= seen
    ensures var n := NarrowStmt(t, s, proof);
            var r := Exec(fn, n.s, lab, st, fuel);
            Good(t, Touched(s), n.proof, st, r) && StmtEnds(t, s, lab, proof, r)
    decreases s, fuel, 5
  {
    var n := NarrowIf(t, s, proof);
    assert Exec(fn, n.s, lab, st, fuel) == ExecIf(fn, n.s, st, fuel);
    EvalSound(fn, t, s.cond, proof, st);
    var o := Eval(fn, n.s.cond, st);
    if o.Yields? {
      var truth := First(o.vals) != 0;
      var known := Assume(t, n.s.cond, truth, proof);
      AssumeMentioned(t, s.cond, proof, truth, proof);
      if truth { BlockSound(fn, t, s.thn, known, seen + Vars(s.cond), o.st, fuel); }
      else { ElseSound(fn, t, s.els, known, seen + Vars(s.cond), o.st, fuel); }
    }
  }

  ghost predicate ElseEnds(t: set<Obj>, e: Else, proof: set<Obj>, r: R) {
    && (r.c.ContinueTo? ==> Valid(t, ElseAtContinue(t, e, r.c.lab, proof), r.st))
    && (r.c.Fell? ==> ElseHasFall(e)) && (ElseTerminates(e) ==> !r.c.Normal?)
  }

  lemma {:induction false} ElseSound(fn: Fn, t: set<Obj>, e: Else, proof: set<Obj>, seen: set<Obj>, st: State,
                                     fuel: nat)
    requires t <= fn.locals && ProperElse(t, e) && ElseUnstable(e) !! t && ScopedElse(e, seen)
             && SafePostsElse(t, e, proof)
    requires Valid(t, proof, st) && proof <= seen
    ensures var n := NarrowElse(t, e, proof);
            var r := ExecElse(fn, n.e, st, fuel);
            Good(t, ElseWrites(e) + ElseDecls(e), n.proof, st, r) && ElseEnds(t, e, proof, r)
    decreases e, fuel, 7
  {
    if e.ElseDo? { BlockSound(fn, t, e.body, proof, seen, st, fuel); }
    else if e.ElseIf? { StmtSound(fn, t, e.stmt, NO_LABEL, proof, seen, st, fuel); }
  }

  // ----- loops -----

  lemma {:induction false} ForSound(fn: Fn, t: set<Obj>, s: Stmt, lab: Name, proof: set<Obj>, seen: set<Obj>,
                                    st: State, fuel: nat)
    requires s.For? && t <= fn.locals && ProperStmt(t, s) && StmtUnstable(s) !! t && Scoped(s, seen)
             && SafePosts(t, s, lab, proof)
    requires Valid(t, proof, st) && proof <= seen
    ensures var n := NarrowStmt(t, s, proof);
            var r := Exec(fn, n.s, lab, st, fuel);
            Good(t, Touched(s), n.proof, st, r) && StmtEnds(t, s, lab, proof, r)
    decreases s, fuel, 5
  {
    var kept := proof - Writes(s);
    assert kept - Writes(s) == kept;
    assert NarrowFor(t, s, proof) == NarrowFor(t, s, kept);
    LoopSound(fn, t, s, lab, kept, seen, st, fuel);
  }

  lemma {:induction false} LoopSound(fn: Fn, t: set<Obj>, s: Stmt, lab: Name, kept: set<Obj>, seen: set<Obj>,
                                     st: State, fuel: nat)
    requires s.For? && t <= fn.locals && ProperStmt(t, s) && StmtUnstable(s) !! t && Scoped(s, seen)
             && SafePosts(t, s, lab, kept)
    requires Valid(t, kept, st) && kept <= seen && kept !! Writes(s)
    ensures var r := Loop(fn, NarrowFor(t, s, kept).s, lab, st, fuel);
            Good(t, Touched(s), kept, st, r) && StmtEnds(t, s, lab, kept, r)
    decreases s, fuel, 4
  {
    assert kept - Writes(s) == kept;
    var n := NarrowFor(t, s, kept).s;
    if s.test.Some? {
      EvalSound(fn, t, s.test.value, kept, st);
      AssumeMentioned(t, s.test.value, kept, true, kept);
    }
    var o := EvalTest(fn, n.test, st);
    if fuel > 0 && o.Yields? && First(o.vals) != 0 {
      var known := AssumeAll(t, n.test, true, kept);
      BlockSound(fn, t, s.body, known, seen + TestVars(s.test), o.st, fuel);
      TurnSound(fn, t, s, lab, kept, seen, known, o.st, ExecBlock(fn, n.body, o.st, fuel), fuel);
    }
  }

  lemma {:induction false} TurnSound(fn: Fn, t: set<Obj>, s: Stmt, lab: Name, kept: set<Obj>, seen: set<Obj>,
                                     known: set<Obj>,
                                    st: State, r: R, fuel: nat)
    requires s.For? && t <= fn.locals && ProperStmt(t, s) && StmtUnstable(s) !! t && Scoped(s, seen)
             && SafePosts(t, s, lab, kept) && fuel > 0
    requires Valid(t, kept, st) && kept <= seen && kept !! Writes(s)
    requires known == AssumeAll(t, NarrowFor(t, s, kept).s.test, true, kept) && known <= seen + TestVars(s.test)
    requires Good(t, BlockWrites(s.body) + BlockDecls(s.body), NarrowBlock(t, s.body, known).proof, st, r)
             && BlockEnds(t, s.body, known, r)
    ensures var e := EndTurn(fn, NarrowFor(t, s, kept).s, lab, r, fuel);
            Good(t, Touched(s), kept, st, e) && StmtEnds(t, s, lab, kept, e)
    decreases s, fuel, 3
  {
    assert kept - Writes(s) == kept;
    var n := NarrowFor(t, s, kept).s;
    DeclsNew(s, seen);
    StillValid(t, BlockWrites(s.body) + BlockDecls(s.body), kept, st, r.st);
    if (r.c.Normal? || r.c.ContinueTo?) && (r.c.ContinueTo? ==> Mine(r.c.lab, lab)) {
      var relied := Relied(t, s, lab, kept);
      BlockProofMentioned(t, s.body, known);
      assert NarrowBlock(t, s.post, relied).b == n.post;
      BlockSound(fn, t, s.post, relied, seen + TestVars(s.test) + BlockUses(s.body), r.st, fuel);
      var p := ExecBlock(fn, n.post, r.st, fuel);
      if p.c.Normal? {
        StillValid(t, BlockWrites(s.post) + BlockDecls(s.post), kept, r.st, p.st);
        LoopSound(fn, t, s, lab, kept, seen, p.st, fuel - 1);
      }
      assert EndTurn(fn, n, lab, r, fuel) == if p.c.Normal? then Loop(fn, n, lab, p.st, fuel - 1) else p;
    }
  }

  lemma {:induction false} RangeSound(fn: Fn, t: set<Obj>, s: Stmt, lab: Name, proof: set<Obj>, seen: set<Obj>,
                                      st: State, fuel: nat)
    requires s.Range? && t <= fn.locals && ProperStmt(t, s) && StmtUnstable(s) !! t && Scoped(s, seen)
             && SafePosts(t, s, lab, proof)
    requires Valid(t, proof, st) && proof <= seen
    ensures var n := NarrowStmt(t, s, proof);
            var r := Exec(fn, n.s, lab, st, fuel);
            Good(t, Touched(s), n.proof, st, r) && StmtEnds(t, s, lab, proof, r)
    decreases s, fuel, 5
  {
    var kept := proof - Writes(s);
    assert kept - Writes(s) == kept;
    var n := NarrowStmt(t, s, proof).s;
    EvalSound(fn, t, s.over, proof, st);
    if s.over.Var? && s.over.x in proof { ApplySame(fn, t, LOAD, [Read(st, s.over.x)], st); }
    var o := Eval(fn, n.over, st);
    if o.Yields? { RangeLoopSound(fn, t, s, n, lab, kept, seen, o.st, fuel); }
  }

  lemma {:induction false} RangeLoopSound(fn: Fn, t: set<Obj>, s: Stmt, n: Stmt, lab: Name, kept: set<Obj>,
                                          seen: set<Obj>, st: State, fuel: nat)
    requires s.Range? && t <= fn.locals && ProperStmt(t, s) && StmtUnstable(s) !! t && Scoped(s, seen)
             && SafePosts(t, s, lab, kept)
    requires n.Range? && n.targets == s.targets && n.body == NarrowBlock(t, s.body, kept).b
    requires Valid(t, kept, st) && kept <= seen && kept !! Writes(s)
    ensures var r := RangeLoop(fn, n, lab, st, fuel);
            Good(t, Touched(s), kept, st, r) && StmtEnds(t, s, lab, kept, r)
    decreases s, fuel, 4
  {
    assert kept - Writes(s) == kept;
    ApplySame(fn, t, NEXT, [], st);
    var o := Apply(fn, NEXT, [], st);
    if fuel > 0 && o.Yields? && o.vals != [] {
      UnmarkedTargets(fn, t, s.targets, o.st);
      var p := EvalTargets(fn, s.targets, o.st);
      if p.Yields? {
        StoreFramed(fn, t, s.targets, o.vals, p.st);
        var q := StoreAll(fn, s.targets, o.vals, p.st);
        if q.Yields? {
          BlockSound(fn, t, s.body, kept, seen, q.st, fuel);
          RangeTurnSound(fn, t, s, n, lab, kept, seen, q.st, ExecBlock(fn, n.body, q.st, fuel), fuel);
        }
      }
    }
  }

  lemma {:induction false} RangeTurnSound(fn: Fn, t: set<Obj>, s: Stmt, n: Stmt, lab: Name, kept: set<Obj>,
                                          seen: set<Obj>,
                                         st: State, r: R, fuel: nat)
    requires s.Range? && t <= fn.locals && ProperStmt(t, s) && StmtUnstable(s) !! t && Scoped(s, seen)
             && SafePosts(t, s, lab, kept) && fuel > 0
    requires n.Range? && n.targets == s.targets && n.body == NarrowBlock(t, s.body, kept).b
    requires Valid(t, kept, st) && kept <= seen && kept !! Writes(s)
    requires Good(t, BlockWrites(s.body) + BlockDecls(s.body), NarrowBlock(t, s.body, kept).proof, st, r)
             && BlockEnds(t, s.body, kept, r)
    ensures var e := EndRangeTurn(fn, n, lab, r, fuel);
            Good(t, Touched(s), kept, st, e) && StmtEnds(t, s, lab, kept, e)
    decreases s, fuel, 3
  {
    assert kept - Writes(s) == kept;
    DeclsNew(s, seen);
    StillValid(t, BlockWrites(s.body) + BlockDecls(s.body), kept, st, r.st);
    if r.c.Normal? || (r.c.ContinueTo? && Mine(r.c.lab, lab)) {
      RangeLoopSound(fn, t, s, n, lab, kept, seen, r.st, fuel - 1);
    }
  }

  // ----- switch -----

  lemma {:induction false} GuardsSound(fn: Fn, t: set<Obj>, tag: Option<Val>, guards: Exprs, index: nat, rem: set<Obj>,
                                       st: State)
    requires t <= fn.locals && AllProper(t, guards) && AllUnstable(guards) !! t && Valid(t, rem, st)
    ensures var c := Guards(fn, tag, NarrowGuards(t, tag.None?, guards, rem), index, st);
            if c.Failed? then !c.o.Fault? && !c.o.Yields? && Same(t, st, c.o.st)
            else && Same(t, st, c.st)
                 && (c.index == -1 || (c.index == index && guards.More?))
                 && (c.index == -1 ==> Valid(t, GuardsFailed(t, tag.None?, guards, rem), c.st))
                 && (c.index == index && guards.More? ==> Valid(t, Matched(t, tag.None?, guards, rem), c.st))
    decreases guards
  {
    if guards.More? {
      EvalSound(fn, t, guards.head, rem, st);
      var guard := NarrowExpr(t, guards.head, rem);
      var o := Eval(fn, guard, st);
      var next := if tag.None? then Assume(t, guard, false, rem) else rem;
      if o.Yields? && !Holds(tag, First(o.vals)) { GuardsSound(fn, t, tag, guards.tail, index, next, o.st); }
    }
  }

  /** The proof with which clause `k` is entered when its guard matched, or when
      it is the default clause and no guard did. */
  function EntryProof(t: set<Obj>, tagless: bool, cs: Clauses, rem: set<Obj>, failed: set<Obj>, k: nat): set<Obj>
    decreases cs
  {
    if cs.NoClauses? then {}
    else if k == 0 then Incoming(t, tagless, cs, rem, failed, false)
    else EntryProof(t, tagless, cs.rest, NextRemaining(t, tagless, cs, rem), failed, k - 1)
  }

  function Length(cs: Clauses): nat {
    if cs.NoClauses? then 0 else 1 + Length(cs.rest)
  }

  lemma {:induction false} ChooseSound(fn: Fn, t: set<Obj>, tag: Option<Val>, cs: Clauses, index: nat, rem: set<Obj>,
                                       failed: set<Obj>,
                                      fall: bool, st: State)
    requires t <= fn.locals && ProperClauses(t, cs) && ClausesUnstable(cs) !! t && Valid(t, rem, st)
    ensures var c := Choose(fn, tag, NarrowClauses(t, tag.None?, cs, rem, failed, fall), index, st);
            if c.Failed? then !c.o.Fault? && !c.o.Yields? && Same(t, st, c.o.st)
            else && Same(t, st, c.st)
                 && (c.index == -1 || index <= c.index < index + Length(cs))
                 && (c.index == -1 ==> Valid(t, AllFailed(t, tag.None?, cs, rem), c.st))
                 && (c.index >= index ==> Valid(t, EntryProof(t, tag.None?, cs, rem, failed, c.index - index), c.st))
    decreases cs
  {
    if cs.Clause? {
      var next := NextRemaining(t, tag.None?, cs, rem);
      if cs.isDefault { ChooseSound(fn, t, tag, cs.rest, index + 1, next, failed, BlockHasFall(cs.body), st); }
      else {
        GuardsSound(fn, t, tag, cs.guards, index, rem, st);
        var g := Guards(fn, tag, NarrowGuards(t, tag.None?, cs.guards, rem), index, st);
        if g.Chosen? && g.index == -1 {
          ChooseSound(fn, t, tag, cs.rest, index + 1, next, failed, BlockHasFall(cs.body), g.st);
        }
      }
    }
  }

  lemma {:induction false} DefaultProof(t: set<Obj>, tagless: bool, cs: Clauses, rem: set<Obj>, failed: set<Obj>,
                                        fall: bool, index: nat)
    ensures var k := DefaultIndex(NarrowClauses(t, tagless, cs, rem, failed, fall), index);
            k == -1 || (index <= k < index + Length(cs) && EntryProof(t, tagless, cs, rem, failed, k - index) == failed)
    decreases cs
  {
    if cs.Clause? && !cs.isDefault {
      DefaultProof(t, tagless, cs.rest, NextRemaining(t, tagless, cs, rem), failed, BlockHasFall(cs.body), index + 1);
    }
  }

  lemma {:induction false} GuardsMentioned(t: set<Obj>, tagless: bool, guards: Exprs, rem: set<Obj>)
    ensures GuardsFailed(t, tagless, guards, rem) <= rem + AllVars(guards)
    ensures guards.More? ==> Matched(t, tagless, guards, rem) <= rem + AllVars(guards)
    decreases guards
  {
    if guards.More? {
      AssumeMentioned(t, guards.head, rem, false, rem);
      AssumeMentioned(t, guards.head, rem, true, rem);
      GuardsMentioned(t, tagless, guards.tail,
                      if tagless then Assume(t, NarrowExpr(t, guards.head, rem), false, rem) else rem);
    }
  }

  lemma {:induction false} FailedMentioned(t: set<Obj>, tagless: bool, cs: Clauses, rem: set<Obj>)
    ensures AllFailed(t, tagless, cs, rem) <= rem + GuardVars(cs)
    decreases cs
  {
    if cs.Clause? {
      GuardsMentioned(t, tagless, cs.guards, rem);
      FailedMentioned(t, tagless, cs.rest, NextRemaining(t, tagless, cs, rem));
    }
  }

  ghost predicate ClausesEnd(t: set<Obj>, tagless: bool, cs: Clauses, rem: set<Obj>, failed: set<Obj>,
                             fall: bool, r: R) {
    (r.c.ContinueTo? ==> Valid(t, ClausesAtContinue(t, tagless, cs, r.c.lab, rem, failed, fall), r.st)) && !r.c.Fell?
  }

  lemma {:induction false} ClausesSound(fn: Fn, t: set<Obj>, tagless: bool, cs: Clauses, k: nat, rem: set<Obj>,
                                        failed: set<Obj>, fall: bool,
                                       seen: set<Obj>, st: State, fuel: nat)
    requires t <= fn.locals && ProperClauses(t, cs) && ClausesUnstable(cs) !! t && ScopedClauses(cs, seen)
             && SafePostsClauses(t, tagless, cs, rem, failed, fall)
    requires rem + GuardVars(cs) <= seen && failed <= seen
    requires if k == 0 && cs.Clause? then Valid(t, Incoming(t, tagless, cs, rem, failed, fall), st)
             else Valid(t, EntryProof(t, tagless, cs, rem, failed, k), st)
    ensures var r := RunClauses(fn, NarrowClauses(t, tagless, cs, rem, failed, fall), k, st, fuel);
            Good(t, ClausesWrites(cs) + ClausesDecls(cs), {}, st, r) && ClausesEnd(t, tagless, cs, rem, failed, fall, r)
    decreases cs, fuel, 2
  {
    if cs.Clause? {
      if k > 0 {
        var next := NextRemaining(t, tagless, cs, rem);
        GuardsMentioned(t, tagless, cs.guards, rem);
        assert EntryProof(t, tagless, cs, rem, failed, k) == EntryProof(t, tagless, cs.rest, next, failed, k - 1);
        ClausesSound(fn, t, tagless, cs.rest, k - 1, next, failed, BlockHasFall(cs.body), seen, st, fuel);
      } else { FirstClauseSound(fn, t, tagless, cs, rem, failed, fall, seen, st, fuel); }
    }
  }

  lemma {:induction false} FirstClauseSound(fn: Fn, t: set<Obj>, tagless: bool, cs: Clauses, rem: set<Obj>,
                                            failed: set<Obj>, fall: bool,
                                           seen: set<Obj>, st: State, fuel: nat)
    requires cs.Clause? && t <= fn.locals && ProperClauses(t, cs) && ClausesUnstable(cs) !! t && ScopedClauses(cs, seen)
    requires SafePostsClauses(t, tagless, cs, rem, failed, fall) && rem + GuardVars(cs) <= seen && failed <= seen
    requires Valid(t, Incoming(t, tagless, cs, rem, failed, fall), st)
    ensures var r := RunClauses(fn, NarrowClauses(t, tagless, cs, rem, failed, fall), 0, st, fuel);
            Good(t, ClausesWrites(cs) + ClausesDecls(cs), {}, st, r) && ClausesEnd(t, tagless, cs, rem, failed, fall, r)
    decreases cs, fuel, 1
  {
    var next := NextRemaining(t, tagless, cs, rem);
    GuardsMentioned(t, tagless, cs.guards, rem);
    var incoming := Incoming(t, tagless, cs, rem, failed, fall);
    BlockSound(fn, t, cs.body, incoming, seen, st, fuel);
    var r := ExecBlock(fn, NarrowBlock(t, cs.body, incoming).b, st, fuel);
    if r.c.Fell? { ClausesSound(fn, t, tagless, cs.rest, 0, next, failed, true, seen, r.st, fuel); }
  }

  lemma {:induction false} SwitchSound(fn: Fn, t: set<Obj>, s: Stmt, lab: Name, proof: set<Obj>, seen: set<Obj>,
                                       st: State, fuel: nat)
    requires s.Switch? && t <= fn.locals && ProperStmt(t, s) && StmtUnstable(s) !! t && Scoped(s, seen)
             && SafePosts(t, s, lab, proof)
    requires Valid(t, proof, st) && proof <= seen
    ensures var n := NarrowStmt(t, s, proof);
            var r := Exec(fn, n.s, lab, st, fuel);
            Good(t, Touched(s), n.proof, st, r) && StmtEnds(t, s, lab, proof, r)
    decreases s, fuel, 5
  {
    var n := NarrowSwitch(t, s, proof);
    assert Exec(fn, n.s, lab, st, fuel) == ExecSwitch(fn, n.s, lab, st, fuel);
    DeclsNew(s, seen);
    if s.tag.Some? { EvalSound(fn, t, s.tag.value, proof, st); }
    var o := EvalTest(fn, n.s.tag, st);
    if o.Yields? {
      CasesSound(fn, t, s, lab, if s.tag.Some? then Some(First(o.vals)) else None, proof, seen, o.st, fuel);
    }
  }

  /** The clauses of a switch once its tag is known. */
  ghost function RunCases(fn: Fn, cs: Clauses, tag: Option<Val>, st: State, fuel: nat): R {
    match Choose(fn, tag, cs, 0, st)
    case Failed(o) => Lift(o, Normal, st)
    case Chosen(k, w) =>
      var index := if k >= 0 then k else DefaultIndex(cs, 0);
      if index < 0 then R(Normal, w) else RunClauses(fn, cs, index, w, fuel)
  }

  lemma {:induction false} CasesSound(fn: Fn, t: set<Obj>, s: Stmt, lab: Name, tag: Option<Val>, proof: set<Obj>,
                                      seen: set<Obj>, st: State, fuel: nat)
    requires s.Switch? && t <= fn.locals && ProperClauses(t, s.clauses) && ClausesUnstable(s.clauses) !! t
    requires ScopedClauses(s.clauses, seen + GuardVars(s.clauses)) && SafePosts(t, s, lab, proof)
    requires Valid(t, proof, st) && proof <= seen && (tag.None? <==> s.tag.None?)
    ensures var r := RunCases(fn, NarrowSwitch(t, s, proof).s.clauses, tag, st, fuel);
            Good(t, ClausesWrites(s.clauses) + ClausesDecls(s.clauses), {}, st, r)
                && ClausesEnd(t, s.tag.None?, s.clauses, proof, AllFailed(t, s.tag.None?, s.clauses, proof), false, r)
    decreases s, fuel, 4
  {
    var n := NarrowSwitch(t, s, proof);
    var failed := AllFailed(t, s.tag.None?, s.clauses, proof);
    FailedMentioned(t, s.tag.None?, s.clauses, proof);
    ChooseSound(fn, t, tag, s.clauses, 0, proof, failed, false, st);
    DefaultProof(t, s.tag.None?, s.clauses, proof, failed, false, 0);
    var c := Choose(fn, tag, n.s.clauses, 0, st);
    if c.Chosen? {
      var k := if c.index >= 0 then c.index else DefaultIndex(n.s.clauses, 0);
      if k >= 0 {
        ClausesSound(fn, t, s.tag.None?, s.clauses, k, proof, failed, false, seen + GuardVars(s.clauses), c.st, fuel);
      }
    }
  }
}
