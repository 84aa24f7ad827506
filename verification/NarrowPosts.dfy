/** The post statement of a loop, which the pass checks with what is proved at the end
    of the body: when a `continue` may reach it (internal/compiler/nullable_flow.go). */
module NarrowPosts {
  import opened Nullable
  import opened NullMachine
  import opened NullRules
  import opened NullSound

  // ----- dereferences in the order of evaluation -----

  datatype Use = Use(x: Obj, marked: bool)

  /** The variables a strict expression dereferences. */
  function Derefs(e: Expr): seq<Use>
    decreases e
  {
    match e
    case Paren(i) => Derefs(i)
    case Not(i) => Derefs(i)
    case Wanted(i) => Derefs(i)
    case Equal(l, r, _) => Derefs(l) + Derefs(r)
    case Op(_, args) => AllDerefs(args)
    case Deref(i, marked) => if Bare(i).Var? then [Use(Bare(i).x, marked)] else Derefs(i)
    case Address(i) => if Bare(i).Var? then [] else Derefs(i)
    case _ => []
  }

  function AllDerefs(es: Exprs): seq<Use>
    decreases es
  {
    match es
    case NoExprs => []
    case More(h, rest) => Derefs(h) + AllDerefs(rest)
  }

  function TargetDerefs(lhs: Exprs): seq<Use>
    decreases lhs
  {
    match lhs
    case NoExprs => []
    case More(h, rest) => (if Bare(h).Var? then [] else Derefs(h)) + TargetDerefs(rest)
  }

  /** Every operand is evaluated; what is dereferenced is a variable, a call or another
      dereference. Only variables of `t` are marked. */
  predicate Strict(t: set<Obj>, e: Expr)
    decreases e
  {
    match e
    case Paren(i) => Strict(t, i)
    case Not(i) => Strict(t, i)
    case Wanted(i) => Strict(t, i)
    case Equal(l, r, _) => Strict(t, l) && Strict(t, r)
    case Op(_, args) => AllStrict(t, args)
    case Deref(i, marked) =>
      Strict(t, i) && (Bare(i).Var? || Bare(i).Op? || Bare(i).Deref?) && (marked ==> i.Var? && i.x in t)
    case Address(i) => Strict(t, i) && (Bare(i).Var? ==> Bare(i).x !in t)
    case And(_, _) => false
    case Or(_, _) => false
    case Choice(_, _, _) => false
    case _ => true
  }

  predicate AllStrict(t: set<Obj>, es: Exprs)
    decreases es
  {
    match es
    case NoExprs => true
    case More(h, rest) => Strict(t, h) && AllStrict(t, rest)
  }

  /** A post statement: an expression or an assignment. */
  predicate StrictPost(t: set<Obj>, s: Stmt) {
    || (s.Do? && Strict(t, s.e) && Unstable(s.e) !! t)
    || (s.Assign? && AllStrict(t, s.lhs) && AllStrict(t, s.rhs) && (AllUnstable(s.lhs) + AllUnstable(s.rhs)) !! t)
  }

  function PostDerefs(s: Stmt): seq<Use> {
    if s.Do? then Derefs(s.e) else if s.Assign? then TargetDerefs(s.lhs) + AllDerefs(s.rhs) else []
  }

  datatype Fate = Clear | Panics | Faults

  /** What becomes of the dereferences of tracked variables, in order: the first that
      meets nil decides. */
  function FateOf(t: set<Obj>, uses: seq<Use>, st: State): Fate
    decreases |uses|
  {
    if uses == [] then Clear
    else if uses[0].x in t && Read(st, uses[0].x) == 0 then (if uses[0].marked then Faults else Panics)
    else FateOf(t, uses[1..], st)
  }

  lemma {:induction false} FateOfBoth(t: set<Obj>, a: seq<Use>, b: seq<Use>, st: State)
    ensures FateOf(t, a + b, st) == if FateOf(t, a, st).Clear? then FateOf(t, b, st) else FateOf(t, a, st)
    decreases |a|
  {
    if a == [] { assert a + b == b; }
    else {
      assert (a + b)[1..] == a[1..] + b;
      FateOfBoth(t, a[1..], b, st);
    }
  }

  lemma {:induction false} FateSame(t: set<Obj>, uses: seq<Use>, a: State, b: State)
    requires Same(t, a, b)
    ensures FateOf(t, uses, a) == FateOf(t, uses, b)
    decreases |uses|
  {
    if uses != [] { FateSame(t, uses[1..], a, b); }
  }

  // ----- any evaluator -----

  ghost predicate Follows(t: set<Obj>, uses: seq<Use>, st: State, o: Outcome) {
    && (o.Fault? ==> FateOf(t, uses, st).Faults?)
    && (o.Yields? ==> FateOf(t, uses, st).Clear?)
    && Same(t, st, if o.Fault? then st else o.st)
  }

  /** A run gets past the dereferences that meet no nil; it faults only at a marked one
      that does. */
  lemma {:induction false} EvalFollows(fn: Fn, t: set<Obj>, e: Expr, st: State)
    requires t <= fn.locals && Strict(t, e) && Unstable(e) !! t && st.escaped !! t
    ensures Follows(t, Derefs(e), st, Eval(fn, e, st))
    decreases e
  {
    if e.Paren? || e.Not? || e.Wanted? { EvalFollows(fn, t, e.e, st); }
    else if e.Equal? { EqualFollows(fn, t, e, st); }
    else if e.Op? {
      AllFollow(fn, t, e.args, st);
      var o := EvalAll(fn, e.args, st);
      if o.Yields? { ApplySame(fn, t, e.id, o.vals, o.st); }
    }
    else if e.Deref? { DerefFollows(fn, t, e, st); }
    else if e.Address? {
      EvalFollows(fn, t, e.e, st);
      var o := Eval(fn, e.e, st);
      if !Bare(e.e).Var? && o.Yields? { ApplySame(fn, t, ADDRESS, o.vals, o.st); }
    }
  }

  lemma {:induction false} EqualFollows(fn: Fn, t: set<Obj>, e: Expr, st: State)
    requires e.Equal? && t <= fn.locals && Strict(t, e) && Unstable(e) !! t && st.escaped !! t
    ensures Follows(t, Derefs(e), st, Eval(fn, e, st))
    decreases e, 0
  {
    EvalFollows(fn, t, e.l, st);
    FateOfBoth(t, Derefs(e.l), Derefs(e.r), st);
    var o := Eval(fn, e.l, st);
    if o.Yields? {
      EvalFollows(fn, t, e.r, o.st);
      FateSame(t, Derefs(e.r), st, o.st);
    }
  }

  lemma {:induction false} DerefFollows(fn: Fn, t: set<Obj>, e: Expr, st: State)
    requires e.Deref? && t <= fn.locals && Strict(t, e) && Unstable(e) !! t && st.escaped !! t
    ensures Follows(t, Derefs(e), st, Eval(fn, e, st))
    decreases e, 0
  {
    var o := Eval(fn, e.e, st);
    if Bare(e.e).Var? {
      BareValue(fn, e.e, st);
      assert [Use(Bare(e.e).x, e.checked)][1..] == [];
    } else { EvalFollows(fn, t, e.e, st); }
    if o.Yields? && First(o.vals) != 0 { ApplySame(fn, t, LOAD, [First(o.vals)], o.st); }
  }

  lemma {:induction false} BareValue(fn: Fn, e: Expr, st: State)
    requires Bare(e).Var?
    ensures Eval(fn, e, st) == Yields([Read(st, Bare(e).x)], st)
    decreases e
  {
    if e.Paren? { BareValue(fn, e.e, st); }
  }

  lemma {:induction false} AllFollow(fn: Fn, t: set<Obj>, es: Exprs, st: State)
    requires t <= fn.locals && AllStrict(t, es) && AllUnstable(es) !! t && st.escaped !! t
    ensures Follows(t, AllDerefs(es), st, EvalAll(fn, es, st))
    decreases es
  {
    if es.More? {
      EvalFollows(fn, t, es.head, st);
      FateOfBoth(t, Derefs(es.head), AllDerefs(es.tail), st);
      var o := Eval(fn, es.head, st);
      if o.Yields? {
        AllFollow(fn, t, es.tail, o.st);
        FateSame(t, AllDerefs(es.tail), st, o.st);
      }
    }
  }

  lemma {:induction false} TargetsFollow(fn: Fn, t: set<Obj>, lhs: Exprs, st: State)
    requires t <= fn.locals && AllStrict(t, lhs) && AllUnstable(lhs) !! t && st.escaped !! t
    ensures Follows(t, TargetDerefs(lhs), st, EvalTargets(fn, lhs, st))
    decreases lhs
  {
    if lhs.More? {
      if Bare(lhs.head).Var? {
        assert [] + TargetDerefs(lhs.tail) == TargetDerefs(lhs.tail);
        TargetsFollow(fn, t, lhs.tail, st);
      } else {
        EvalFollows(fn, t, lhs.head, st);
        FateOfBoth(t, Derefs(lhs.head), TargetDerefs(lhs.tail), st);
        var o := Eval(fn, lhs.head, st);
        if o.Yields? {
          TargetsFollow(fn, t, lhs.tail, o.st);
          FateSame(t, TargetDerefs(lhs.tail), st, o.st);
        }
      }
    }
  }

  // ----- an evaluator that gets everywhere -----

  ghost function Quiet(part: (Val, nat) -> Val, locals: set<Obj>): Fn {
    Fn((id, vs, st) => Yields([1], st), part, locals)
  }

  /** Every dereferenced variable is in the store unless it is tracked. */
  ghost predicate Known(t: set<Obj>, uses: seq<Use>, st: State) {
    forall i :: 0 <= i < |uses| ==> uses[i].x in t || Read(st, uses[i].x) != 0
  }

  ghost predicate Still(a: State, b: State) {
    forall x :: Read(b, x) == Read(a, x)
  }

  /** Under the quiet evaluator the first dereference that meets nil ends the
      evaluation, and by a fault if it is marked. */
  ghost predicate Settles(t: set<Obj>, uses: seq<Use>, st: State, o: Outcome) {
    match FateOf(t, uses, st)
    case Clear => o.Yields? && Still(st, o.st)
    case Panics => o.Raises?
    case Faults => o.Fault?
  }

  predicate Productive(e: Expr) {
    e.Op? || e.Deref?
  }

  lemma KnownParts(t: set<Obj>, a: seq<Use>, b: seq<Use>, st: State)
    requires Known(t, a + b, st)
    ensures Known(t, a, st) && Known(t, b, st)
  {
    forall i | 0 <= i < |a| ensures a[i].x in t || Read(st, a[i].x) != 0 { assert (a + b)[i] == a[i]; }
    forall i | 0 <= i < |b| ensures b[i].x in t || Read(st, b[i].x) != 0 { assert (a + b)[|a| + i] == b[i]; }
  }

  lemma QuietKeeps(fn: Fn, id: int, vals: seq<Val>, st: State)
    requires fn == Quiet(fn.part, fn.locals)
    ensures var o := Apply(fn, id, vals, st); o.Yields? && o.vals == [1] && Still(st, o.st)
  {}

  lemma {:induction false} FateStill(t: set<Obj>, uses: seq<Use>, a: State, b: State)
    requires Still(a, b)
    ensures FateOf(t, uses, a) == FateOf(t, uses, b)
    decreases |uses|
  {
    if uses != [] { FateStill(t, uses[1..], a, b); }
  }

  lemma {:induction false} EvalSettles(fn: Fn, t: set<Obj>, e: Expr, st: State)
    requires fn == Quiet(fn.part, fn.locals) && Strict(t, e) && Known(t, Derefs(e), st)
    ensures Settles(t, Derefs(e), st, Eval(fn, e, st))
    ensures Productive(Bare(e)) && Eval(fn, e, st).Yields? ==> First(Eval(fn, e, st).vals) != 0
    decreases e
  {
    if e.Paren? || e.Not? || e.Wanted? { EvalSettles(fn, t, e.e, st); }
    else if e.Equal? {
      KnownParts(t, Derefs(e.l), Derefs(e.r), st);
      EvalSettles(fn, t, e.l, st);
      FateOfBoth(t, Derefs(e.l), Derefs(e.r), st);
      var o := Eval(fn, e.l, st);
      if o.Yields? {
        EvalSettles(fn, t, e.r, o.st);
        FateStill(t, Derefs(e.r), st, o.st);
      }
    }
    else if e.Op? {
      AllSettle(fn, t, e.args, st);
      var o := EvalAll(fn, e.args, st);
      if o.Yields? { QuietKeeps(fn, e.id, o.vals, o.st); }
    }
    else if e.Deref? { DerefSettles(fn, t, e, st); }
    else if e.Address? && !Bare(e.e).Var? {
      EvalSettles(fn, t, e.e, st);
      var o := Eval(fn, e.e, st);
      if o.Yields? { QuietKeeps(fn, ADDRESS, o.vals, o.st); }
    }
  }

  lemma {:induction false} DerefSettles(fn: Fn, t: set<Obj>, e: Expr, st: State)
    requires e.Deref? && fn == Quiet(fn.part, fn.locals) && Strict(t, e) && Known(t, Derefs(e), st)
    ensures Settles(t, Derefs(e), st, Eval(fn, e, st))
    ensures Eval(fn, e, st).Yields? ==> First(Eval(fn, e, st).vals) != 0
    decreases e, 0
  {
    var o := Eval(fn, e.e, st);
    if Bare(e.e).Var? { VarSettles(fn, t, e, st); }
    else {
      EvalSettles(fn, t, e.e, st);
      if o.Yields? { QuietKeeps(fn, LOAD, [First(o.vals)], o.st); }
    }
  }

  lemma VarSettles(fn: Fn, t: set<Obj>, e: Expr, st: State)
    requires e.Deref? && Bare(e.e).Var? && fn == Quiet(fn.part, fn.locals) && Known(t, Derefs(e), st)
    ensures Settles(t, Derefs(e), st, Eval(fn, e, st))
    ensures Eval(fn, e, st).Yields? ==> First(Eval(fn, e, st).vals) != 0
  {
    var x, uses := Bare(e.e).x, Derefs(e);
    BareValue(fn, e.e, st);
    assert uses == [Use(x, e.checked)] && FateOf(t, uses[1..], st) == Clear;
    assert uses[0].x in t || Read(st, x) != 0;
    assert FateOf(t, uses, st) == if Read(st, x) != 0 then Clear else if e.checked then Faults else Panics;
    assert Eval(fn, e, st) == if Read(st, x) == 0 then (if e.checked then Outcome.Fault else Raises(st))
           else Apply(fn, LOAD, [Read(st, x)], st);
    if Read(st, x) != 0 { QuietKeeps(fn, LOAD, [Read(st, x)], st); }
  }

  lemma {:induction false} AllSettle(fn: Fn, t: set<Obj>, es: Exprs, st: State)
    requires fn == Quiet(fn.part, fn.locals) && AllStrict(t, es) && Known(t, AllDerefs(es), st)
    ensures Settles(t, AllDerefs(es), st, EvalAll(fn, es, st))
    decreases es
  {
    if es.More? {
      KnownParts(t, Derefs(es.head), AllDerefs(es.tail), st);
      EvalSettles(fn, t, es.head, st);
      FateOfBoth(t, Derefs(es.head), AllDerefs(es.tail), st);
      var o := Eval(fn, es.head, st);
      if o.Yields? {
        AllSettle(fn, t, es.tail, o.st);
        FateStill(t, AllDerefs(es.tail), st, o.st);
      }
    }
  }

  lemma {:induction false} TargetsSettle(fn: Fn, t: set<Obj>, lhs: Exprs, st: State)
    requires fn == Quiet(fn.part, fn.locals) && AllStrict(t, lhs) && Known(t, TargetDerefs(lhs), st)
    ensures Settles(t, TargetDerefs(lhs), st, EvalTargets(fn, lhs, st))
    decreases lhs
  {
    if lhs.More? {
      if Bare(lhs.head).Var? {
        assert [] + TargetDerefs(lhs.tail) == TargetDerefs(lhs.tail);
        TargetsSettle(fn, t, lhs.tail, st);
      } else {
        KnownParts(t, Derefs(lhs.head), TargetDerefs(lhs.tail), st);
        EvalSettles(fn, t, lhs.head, st);
        FateOfBoth(t, Derefs(lhs.head), TargetDerefs(lhs.tail), st);
        var o := Eval(fn, lhs.head, st);
        if o.Yields? {
          TargetsSettle(fn, t, lhs.tail, o.st);
          FateStill(t, TargetDerefs(lhs.tail), st, o.st);
        }
      }
    }
  }

  // ----- post statements -----

  ghost predicate FaultFree(fn: Fn, s: Stmt, st: State) {
    !ExecBasic(fn, s, st).c.Faulted?
  }

  lemma {:induction false} StoresNoFault(fn: Fn, lhs: Exprs, vals: seq<Val>, st: State)
    ensures !StoreAll(fn, lhs, vals, st).Fault?
    decreases lhs
  {
    if lhs.More? {
      var tail := if vals == [] then [] else vals[1..];
      if Bare(lhs.head).Var? {
        StoresNoFault(fn, lhs.tail, tail, st.(store := st.store[Bare(lhs.head).x := First(vals)]));
      }
      else {
        var o := Apply(fn, STORE, [First(vals)], st);
        if o.Yields? { StoresNoFault(fn, lhs.tail, tail, o.st); }
      }
    }
  }

  lemma PostFollows(fn: Fn, t: set<Obj>, s: Stmt, st: State)
    requires t <= fn.locals && StrictPost(t, s) && st.escaped !! t && !FateOf(t, PostDerefs(s), st).Faults?
    ensures FaultFree(fn, s, st)
  {
    if s.Do? { EvalFollows(fn, t, s.e, st); }
    else {
      TargetsFollow(fn, t, s.lhs, st);
      FateOfBoth(t, TargetDerefs(s.lhs), AllDerefs(s.rhs), st);
      var o := EvalTargets(fn, s.lhs, st);
      if o.Yields? {
        AllFollow(fn, t, s.rhs, o.st);
        FateSame(t, AllDerefs(s.rhs), st, o.st);
        var p := EvalAll(fn, s.rhs, o.st);
        if p.Yields? { StoresNoFault(fn, s.lhs, Spread(fn, p.vals, Count(s.lhs)), p.st); }
      }
    }
  }

  lemma PostSettles(fn: Fn, t: set<Obj>, s: Stmt, st: State)
    requires fn == Quiet(fn.part, fn.locals) && StrictPost(t, s) && Known(t, PostDerefs(s), st)
             && FateOf(t, PostDerefs(s), st).Faults?
    ensures !FaultFree(fn, s, st)
  {
    if s.Do? { EvalSettles(fn, t, s.e, st); }
    else {
      KnownParts(t, TargetDerefs(s.lhs), AllDerefs(s.rhs), st);
      FateOfBoth(t, TargetDerefs(s.lhs), AllDerefs(s.rhs), st);
      TargetsSettle(fn, t, s.lhs, st);
      var o := EvalTargets(fn, s.lhs, st);
      if o.Yields? {
        AllSettle(fn, t, s.rhs, o.st);
        FateStill(t, AllDerefs(s.rhs), st, o.st);
      }
    }
  }

  /** The state with the same tracked variables in which no other variable of the list
      is nil. */
  ghost function Filled(t: set<Obj>, uses: seq<Use>, st: State): State {
    var others := set i | 0 <= i < |uses| && uses[i].x !in t :: uses[i].x;
    State(map x | x in t + others :: if x in t then Read(st, x) else 1, {}, st.world)
  }

  lemma FilledSame(t: set<Obj>, uses: seq<Use>, st: State)
    ensures Same(t, st, Filled(t, uses, st)) && Known(t, uses, Filled(t, uses, st))
  {}

  /** No evaluator and no value of the other variables makes the statement fault. */
  ghost predicate NeverFaults(t: set<Obj>, locals: set<Obj>, s: Stmt, st: State) {
    forall fn: Fn, now: State :: fn.locals == locals && Same(t, st, now) ==> FaultFree(fn, s, now)
  }

  /** From a given state of the tracked variables, such as the one at a `continue`, a
      narrowed post statement faults for no evaluator and no value of the other
      variables if and only if the first tracked variable it dereferences that is nil
      is not a marked one. */
  lemma PostExact(t: set<Obj>, locals: set<Obj>, part: (Val, nat) -> Val, s: Stmt, st: State)
    requires t <= locals && StrictPost(t, s)
    ensures NeverFaults(t, locals, s, st) <==> !FateOf(t, PostDerefs(s), st).Faults?
  {
    if FateOf(t, PostDerefs(s), st).Faults? {
      var fn, now := Quiet(part, locals), Filled(t, PostDerefs(s), st);
      FilledSame(t, PostDerefs(s), st);
      FateSame(t, PostDerefs(s), st, now);
      PostSettles(fn, t, s, now);
      assert fn.locals == locals && Same(t, st, now) && !FaultFree(fn, s, now);
    } else {
      forall fn: Fn, now: State | fn.locals == locals && Same(t, st, now) ensures FaultFree(fn, s, now) {
        FateSame(t, PostDerefs(s), st, now);
        PostFollows(fn, t, s, now);
      }
    }
  }

  /** No tracked variable dereferenced with its check is nil. */
  ghost predicate OthersPresent(t: set<Obj>, uses: seq<Use>, st: State) {
    forall i :: 0 <= i < |uses| && !uses[i].marked && uses[i].x in t ==> Read(st, uses[i].x) != 0
  }

  ghost predicate MarkedPresent(uses: seq<Use>, st: State) {
    forall i :: 0 <= i < |uses| && uses[i].marked ==> Read(st, uses[i].x) != 0
  }

  /** Where no check panics, the marks alone decide. */
  lemma {:induction false} MarkedAlone(t: set<Obj>, uses: seq<Use>, st: State)
    requires OthersPresent(t, uses, st)
    requires forall i :: 0 <= i < |uses| && uses[i].marked ==> uses[i].x in t
    ensures FateOf(t, uses, st).Faults? <==> !MarkedPresent(uses, st)
    decreases |uses|
  {
    if uses != [] {
      assert forall i :: 0 <= i < |uses[1..]| ==> uses[1..][i] == uses[i + 1];
      MarkedAlone(t, uses[1..], st);
      if !MarkedPresent(uses, st) {
        var i :| 0 <= i < |uses| && uses[i].marked && Read(st, uses[i].x) == 0;
        if i > 0 { assert uses[1..][i - 1] == uses[i]; }
      }
    }
  }

  // ----- narrowed post statements -----

  ghost predicate MarkedFrom(proof: set<Obj>, uses: seq<Use>) {
    forall i :: 0 <= i < |uses| && uses[i].marked ==> uses[i].x in proof
  }

  /** Narrowing keeps an expression strict, and every mark rests on the proof. */
  lemma {:induction false} NarrowStrict(t: set<Obj>, e: Expr, proof: set<Obj>)
    requires Strict(t, e) && Proper(t, e) && proof <= t
    ensures var n := NarrowExpr(t, e, proof);
            Strict(t, n) && Unstable(n) == Unstable(e) && MarkedFrom(proof, Derefs(n))
            && (Bare(e).Op? || Bare(e).Deref? ==> Bare(n).Op? || Bare(n).Deref?)
    decreases e
  {
    if e.Paren? || e.Not? || e.Wanted? || e.Deref? || e.Address? {
      NarrowStrict(t, e.e, proof);
      BareNarrow(t, e.e, proof);
    }
    else if e.Equal? {
      NarrowStrict(t, e.l, proof);
      NarrowStrict(t, e.r, proof);
    }
    else if e.Op? { NarrowAllStrict(t, e.args, proof); }
  }

  lemma {:induction false} NarrowAllStrict(t: set<Obj>, es: Exprs, proof: set<Obj>)
    requires AllStrict(t, es) && AllProper(t, es) && proof <= t
    ensures var n := NarrowExprs(t, es, proof);
            AllStrict(t, n) && AllUnstable(n) == AllUnstable(es) && MarkedFrom(proof, AllDerefs(n))
    decreases es
  {
    if es.More? {
      NarrowStrict(t, es.head, proof);
      NarrowAllStrict(t, es.tail, proof);
    }
  }

  lemma {:induction false} NarrowTargetsStrict(t: set<Obj>, lhs: Exprs, proof: set<Obj>)
    requires AllStrict(t, lhs) && AllProper(t, lhs) && proof <= t
    ensures var n := NarrowTargets(t, lhs, proof);
            AllStrict(t, n) && AllUnstable(n) == AllUnstable(lhs) && MarkedFrom(proof, TargetDerefs(n))
    decreases lhs
  {
    if lhs.More? {
      NarrowStrict(t, lhs.head, proof);
      NarrowTargetsStrict(t, lhs.tail, proof - Named(lhs.head));
    }
  }

  /** A post statement narrowed with what is proved at the end of the body marks only
      variables proved there; from a state at a `continue` it is free of faults, for
      every evaluator, if and only if the first nil it meets is not at a mark. Where
      no variable it checks is nil, that is: if and only if no marked variable is. */
  lemma NarrowedPostExact(t: set<Obj>, locals: set<Obj>, part: (Val, nat) -> Val, s: Stmt, end: set<Obj>, st: State)
    requires t <= locals && end <= t && StrictPost(t, s) && ProperStmt(t, s)
    ensures var n := NarrowStmt(t, s, end).s;
            && MarkedFrom(end, PostDerefs(n))
            && (NeverFaults(t, locals, n, st) <==> !FateOf(t, PostDerefs(n), st).Faults?)
            && (OthersPresent(t, PostDerefs(n), st) ==>
                  (NeverFaults(t, locals, n, st) <==> MarkedPresent(PostDerefs(n), st)))
  {
    if s.Do? { NarrowStrict(t, s.e, end); }
    else {
      NarrowTargetsStrict(t, s.lhs, end);
      NarrowAllStrict(t, s.rhs, end);
    }
    var n := NarrowStmt(t, s, end).s;
    PostExact(t, locals, part, n, st);
    if OthersPresent(t, PostDerefs(n), st) { MarkedAlone(t, PostDerefs(n), st); }
  }
}
