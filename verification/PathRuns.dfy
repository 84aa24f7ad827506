/** Every path is taken: an evaluator that answers by a script, one answer for each
    expression it is asked for, drives a run along any path whose conditions are
    open. */
module PathRuns {
  import opened Options
  import opened Syntax
  import opened Machine
  import opened Headers
  import opened ProgramPaths
  import opened Growth
  import opened RunPaths

  // ----- scripts -----

  datatype Answer = Value(v: Val) | Nothing | Raise

  function Reply(a: Answer, u: User): Outcome {
    var w := u.(world := u.world + 1);
    match a
    case Value(v) => Yields([v], w)
    case Nothing => Yields([], w)
    case Raise => Raises(0, false, w)
  }

  /** The evaluator answers by the script whenever the world says whose turn it is. */
  ghost predicate Follows(fn: Fn, at: int, script: seq<Answer>) {
    forall i, e: Expr, u: User :: 0 <= i < |script| && u.world == at + i ==> fn.ev(e, u) == Reply(script[i], u)
  }

  lemma FollowsParts(fn: Fn, at: int, a: seq<Answer>, b: seq<Answer>)
    requires Follows(fn, at, a + b)
    ensures Follows(fn, at, a) && Follows(fn, at + |a|, b)
  {
    forall i, e: Expr, u: User | 0 <= i < |a| && u.world == at + i ensures fn.ev(e, u) == Reply(a[i], u) {
      assert (a + b)[i] == a[i];
    }
    forall i, e: Expr, u: User | 0 <= i < |b| && u.world == at + |a| + i ensures fn.ev(e, u) == Reply(b[i], u) {
      assert (a + b)[|a| + i] == b[i];
    }
  }

  ghost function Play(slots: Slots, at: int, script: seq<Answer>): Fn {
    Fn((e, u: User) => if 0 <= u.world - at < |script| then Reply(script[u.world - at], u) else Yields([1], u), slots)
  }

  lemma PlayFollows(slots: Slots, at: int, script: seq<Answer>)
    ensures Follows(Play(slots, at, script), at, script)
  {}

  function Ones(n: nat): seq<Answer> {
    seq(n, _ => Value(1))
  }

  function Zeros(n: nat): seq<Answer> {
    seq(n, _ => Value(0))
  }

  /** How many of the expressions are put to the evaluator. */
  function Weight(es: seq<Expr>): nat
    decreases |es|
  {
    if es == [] then 0 else (if es[0].True? then 0 else 1) + Weight(es[1..])
  }

  ghost predicate Moved(u: User, w: User, n: nat) {
    w.obj == u.obj && w.world == u.world + n
  }

  lemma EvalAnswer(fn: Fn, e: Expr, a: Answer, u: User)
    requires !e.True? && Follows(fn, u.world, [a])
    ensures var o := EvalExpr(fn, e, u);
            && Moved(u, o.u, 1)
            && (a.Value? ==> o.Yields? && o.vals == [a.v]) && (a.Nothing? ==> o.Yields? && o.vals == [])
            && (a.Raise? ==> o.Raises? && !o.native)
  {
    assert fn.ev(e, Noted(e, u)) == Reply([a][0], Noted(e, u));
  }

  lemma {:induction false} EvalAllAnswers(fn: Fn, es: seq<Expr>, u: User)
    requires Follows(fn, u.world, Ones(Weight(es)))
    ensures var o := EvalAll(fn, es, u); o.Yields? && Moved(u, o.u, Weight(es))
    decreases |es|
  {
    if es != [] {
      if es[0].True? { EvalAllAnswers(fn, es[1..], u); }
      else {
        assert Ones(Weight(es)) == [Value(1)] + Ones(Weight(es[1..]));
        FollowsParts(fn, u.world, [Value(1)], Ones(Weight(es[1..])));
        EvalAnswer(fn, es[0], Value(1), u);
        EvalAllAnswers(fn, es[1..], EvalExpr(fn, es[0], u).u);
      }
    }
  }

  lemma {:induction false} EvalAllRaises(fn: Fn, es: seq<Expr>, u: User)
    requires Weight(es) > 0 && Follows(fn, u.world, [Raise])
    ensures var o := EvalAll(fn, es, u); o.Raises? && !o.native && Moved(u, o.u, 1)
    decreases |es|
  {
    if es[0].True? { EvalAllRaises(fn, es[1..], u); } else { EvalAnswer(fn, es[0], Raise, u); }
  }

  lemma {:induction false} StoreAllAnswers(fn: Fn, lhs: seq<Lhs>, vals: seq<Val>, f: Option<Name>, u: User)
    requires Follows(fn, u.world, Ones(|Operands(lhs)|)) && Lacks(f, u) && !Sets(lhs, f)
    ensures var o := StoreAll(fn, lhs, vals, u); o.Yields? && Lacks(f, o.u) && o.u.world == u.world + |Operands(lhs)|
    decreases |lhs|
  {
    if lhs != [] {
      var n := |Operands(lhs[1..])|;
      if lhs[0].At? {
        assert Ones(n + 1) == [Value(1)] + Ones(n);
        FollowsParts(fn, u.world, [Value(1)], Ones(n));
        EvalAnswer(fn, Put(lhs[0].e, First(vals)), Value(1), u);
      }
      assert lhs[0] in lhs;
      StoreAllAnswers(fn, lhs[1..], Rest(vals), f, Store(fn, lhs[0], First(vals), u).u);
    }
  }

  function AssignOnes(lhs: seq<Lhs>, rhs: seq<Expr>): seq<Answer> {
    Ones(Weight(Operands(lhs) + rhs)) + Ones(|Operands(lhs)|)
  }

  lemma AssignAnswers(fn: Fn, lhs: seq<Lhs>, rhs: seq<Expr>, f: Option<Name>, u: User)
    requires Follows(fn, u.world, AssignOnes(lhs, rhs)) && Lacks(f, u) && !Sets(lhs, f)
    ensures var o := AssignAll(fn, lhs, rhs, u);
              o.Yields? && Lacks(f, o.u) && o.u.world == u.world + |AssignOnes(lhs, rhs)|
  {
    var es := Operands(lhs) + rhs;
    FollowsParts(fn, u.world, Ones(Weight(es)), Ones(|Operands(lhs)|));
    EvalAllAnswers(fn, es, u);
    var o := EvalAll(fn, es, u);
    StoreAllAnswers(fn, lhs, if |Operands(lhs)| <= |o.vals| then o.vals[|Operands(lhs)|..] else [], f, o.u);
  }

  lemma {:induction false} BindWorld(names: seq<Name>, vals: seq<Val>, u: User)
    ensures Bind(names, vals, u).world == u.world
    decreases |names|
  {
    if names != [] {
      BindWorld(names[1..], Rest(vals),
                u.(env := u.env[names[0] := u.next], heap := u.heap[u.next := First(vals)], next := u.next + 1));
    }
  }

  lemma {:induction false} SetCellsWorld(cells: seq<nat>, vals: seq<Val>, u: User)
    ensures SetCells(cells, vals, u).world == u.world
    decreases |cells|
  {
    if cells != [] { SetCellsWorld(cells[1..], Rest(vals), u.(heap := u.heap[cells[0] := First(vals)])); }
  }

  // ----- where an exception can be raised -----

  predicate HasGuard(cs: Clauses) {
    cs.Clause? && (!cs.isDefault || HasGuard(cs.rest))
  }

  predicate Asks(c: Cond) {
    c.When? && !c.e.True?
  }

  /** Some path that leaves the field unset evaluates something, and an exception
      raised by that leaves the statement. */
  ghost predicate MayRaise(s: Stmt, f: Option<Name>)
    decreases s, 1
  {
    match s
    case Assign(lhs, rhs) => Weight(Operands(lhs) + rhs) > 0
    case Eval(e) => !e.True?
    case Parent(e) => !e.True?
    case Throw(e) => !e.True?
    case Defer(e) => !e.True?
    case Declare(_, rhs) => Weight(rhs) > 0
    case Return(es) => Weight(es) > 0
    case Scope(body) => BlockMayRaise(body, f)
    case If(init, test, _, _) => BlockMayRaise(init, f) || (BlockGoes(init, f, Through) && !test.True?)
    case For(init, cond, _, body) =>
      BlockMayRaise(init, f) || (BlockGoes(init, f, Through) && (Asks(cond) || BlockMayRaise(body, f)))
    case Switch(init, tag, clauses) =>
      BlockMayRaise(init, f) || (BlockGoes(init, f, Through) && (Asks(tag) || HasGuard(clauses)))
    case Range(_, _, _, _) => true
    case Labeled(_, inner) => MayRaise(inner, f)
    case Try(body, handler, finalizer) =>
      && BlockMayRaise(body, f) && (handler.Func? ==> BlockMayRaise(handler.body, f))
      && (finalizer.Func? ==> BlockGoes(finalizer.body, f, Through) || BlockMayRaise(finalizer.body, f))
    case _ => false
  }

  ghost predicate BlockMayRaise(b: Block, f: Option<Name>)
    decreases b, 0
  {
    b.Cons? && (MayRaise(b.head, f) || (Goes(b.head, NO_LABEL, f, Through) && BlockMayRaise(b.tail, f)))
  }

  // ----- open paths -----

  /** Nothing decides the path but the evaluator: no test or guard is the constant
      true, nothing panics, a finalizer ends normally or throws, and the body of a
      `try` can throw while the field is unset. */
  ghost predicate Open(s: Stmt, f: Option<Name>)
    decreases s
  {
    match s
    case Panic(_) => false
    case Scope(body) => OpenBlock(body, f)
    case If(init, test, thn, els) => !test.True? && OpenBlock(init, f) && OpenBlock(thn, f) && OpenBlock(els, f)
    case For(init, _, post, body) => OpenBlock(init, f) && SimpleStmt(post) && OpenBlock(post, f) && OpenBlock(body, f)
    case Range(_, _, _, body) => OpenBlock(body, f)
    case Switch(init, _, clauses) => OpenBlock(init, f) && OpenClauses(clauses, f)
    case Labeled(_, inner) => Open(inner, f)
    case Try(body, handler, finalizer) =>
      && OpenBlock(body, f) && OpenClosure(handler, f) && OpenClosure(finalizer, f)
      && (handler.Func? || finalizer.Func? ==> BlockMayRaise(body, f)) && (handler.Func? ==> CatchChain(handler.body))
      && (finalizer.Func? ==> forall w :: BlockGoes(finalizer.body, f, w) ==> w.Through? || w.ByThrow?)
    case _ => true
  }

  ghost predicate OpenBlock(b: Block, f: Option<Name>)
    decreases b
  {
    b.Cons? ==> Open(b.head, f) && OpenBlock(b.tail, f)
  }

  /** Clauses as Go has them: guards unless it is the one default clause, and the
      last one does not fall through. */
  ghost predicate OpenClauses(cs: Clauses, f: Option<Name>)
    decreases cs
  {
    cs.Clause? ==>
      && (cs.isDefault <==> cs.guards == []) && (forall e :: e in cs.guards ==> !e.True?)
      && (cs.isDefault ==> !HasDefault(cs.rest))
      && (cs.rest.NoClauses? ==> !BlockGoes(cs.body, f, ByFall))
      && OpenBlock(cs.body, f) && OpenClauses(cs.rest, f)
  }

  ghost predicate OpenClosure(c: Closure, f: Option<Name>)
    decreases c
  {
    c.Func? ==> OpenBlock(c.body, f)
  }

  // ----- the script of a path -----

  ghost function PathRoute(s: Stmt, lab: Name, f: Option<Name>, w: Way): seq<Answer>
    decreases s, 3
  {
    match s
    case Assign(lhs, rhs) => AssignOnes(lhs, rhs)
    case Eval(e) => Ones(Weight([e]))
    case Parent(e) => Ones(Weight([e]))
    case Throw(e) => Ones(Weight([e]))
    case Defer(e) => Ones(Weight([e]))
    case Declare(_, rhs) => Ones(Weight(rhs))
    case Return(es) => Ones(Weight(es))
    case Scope(body) => BlockRoute(body, f, w)
    case If(init, _, _, _) => HeaderRoute(s, init, lab, f, w)
    case For(init, _, _, _) => HeaderRoute(s, init, lab, f, w)
    case Switch(init, _, _) => HeaderRoute(s, init, lab, f, w)
    case Range(_, lhs, over, body) =>
      if w.Through? then Ones(Weight([over])) + [Nothing]
      else Ones(Weight([over])) + ([Value(1)] + (TurnOnes(lhs) + BlockRoute(body, f, w)))
    case Labeled(l, inner) => PathRoute(inner, l, f, w)
    case Try(_, _, _) => TryRoute(s, f, w)
    case _ => []
  }

  function TurnOnes(lhs: seq<Lhs>): seq<Answer> {
    if lhs == [] then [] else AssignOnes(lhs, [])
  }

  ghost function HeaderRoute(s: Stmt, init: Block, lab: Name, f: Option<Name>, w: Way): seq<Answer>
    requires (s.If? && init == s.init) || (s.For? && init == s.init) || (s.Switch? && init == s.init)
    decreases s, 2
  {
    if !w.Through? && BlockGoes(init, f, w) then BlockRoute(init, f, w)
    else BlockRoute(init, f, Through) + EntryRoute(s, lab, f, w)
  }

  function CondAnswer(c: Cond, v: Val): seq<Answer> {
    if Asks(c) then [Value(v)] else []
  }

  ghost function EntryRoute(s: Stmt, lab: Name, f: Option<Name>, w: Way): seq<Answer>
    requires s.If? || s.For? || s.Switch?
    decreases s, 1
  {
    if s.If? then
      if BlockGoes(s.thn, f, w) then [Value(1)] + BlockRoute(s.thn, f, w) else [Value(0)] + BlockRoute(s.els, f, w)
    else if s.For? then
      if w.Through? && !Infinite(s.cond) then [Value(0)]
      else CondAnswer(s.cond, 1) + BlockRoute(s.body, f, BodyWay(s.body, lab, f, w))
    else
      CondAnswer(s.tag, 1) +
      (if w.Through? && !HasDefault(s.clauses) then SkipRoute(s.clauses)
       else ChoiceRoute(s.clauses, Pick(s.clauses, lab, f, w)) + CaseRoute(s.clauses, lab, f, w))
  }

  /** How the body is left when its statement is left this way: a `break` ends a
      loop or switch normally. */
  ghost function BodyWay(body: Block, lab: Name, f: Option<Name>, w: Way): Way {
    if !w.Through? then w else if BlockGoes(body, f, ByBreak(NO_LABEL)) then ByBreak(NO_LABEL) else ByBreak(lab)
  }

  ghost function CaseWay(body: Block, lab: Name, f: Option<Name>, w: Way): Way {
    if w.Through? && BlockGoes(body, f, Through) then Through else BodyWay(body, lab, f, w)
  }

  /** The way leads through the first of the clauses. */
  ghost predicate FirstGoes(cs: Clauses, lab: Name, f: Option<Name>, w: Way)
    requires cs.Clause?
  {
    if w.Through? then BlockGoes(cs.body, f, Through) || BlockGoes(cs.body, f, ByBreak(NO_LABEL))
        || BlockGoes(cs.body, f, ByBreak(lab))
    else !(w.ByBreak? && Lands(w, lab)) && !w.ByFall? && BlockGoes(cs.body, f, w)
  }

  /** No guard holds. */
  function SkipRoute(cs: Clauses): seq<Answer>
    decreases cs
  {
    if cs.NoClauses? then [] else (if cs.isDefault then [] else Zeros(|cs.guards|)) + SkipRoute(cs.rest)
  }

  /** The first guard of the k-th clause holds, and none before; none at all if that
      is the default clause. */
  function ChoiceRoute(cs: Clauses, k: nat): seq<Answer>
    decreases cs
  {
    if cs.NoClauses? then []
    else if k == 0 then (if cs.isDefault then SkipRoute(cs.rest) else [Value(1)])
    else (if cs.isDefault then [] else Zeros(|cs.guards|)) + ChoiceRoute(cs.rest, k - 1)
  }

  /** Position of the first clause the way leads through. */
  ghost function Pick(cs: Clauses, lab: Name, f: Option<Name>, w: Way): nat {
    if cs.NoClauses? || FirstGoes(cs, lab, f, w) then 0 else 1 + Pick(cs.rest, lab, f, w)
  }

  ghost function CaseRoute(cs: Clauses, lab: Name, f: Option<Name>, w: Way): seq<Answer>
    decreases cs
  {
    if cs.NoClauses? then []
    else if FirstGoes(cs, lab, f, w) then BlockRoute(cs.body, f, CaseWay(cs.body, lab, f, w))
    else CaseRoute(cs.rest, lab, f, w)
  }

  ghost function BlockRoute(b: Block, f: Option<Name>, w: Way): seq<Answer>
    decreases b, 0
  {
    match b
    case Nil => []
    case Cons(h, t) =>
      if !w.Through? && Goes(h, NO_LABEL, f, w) then PathRoute(h, NO_LABEL, f, w)
      else PathRoute(h, NO_LABEL, f, Through) + BlockRoute(t, f, w)
  }

  ghost function PendRoute(s: Stmt, f: Option<Name>, w: Way): seq<Answer>
    requires s.Try?
    decreases s, 1
  {
    if s.handler.Func? then
      if !w.ByThrow? && BlockGoes(s.body, f, w) then BlockRoute(s.body, f, w)
      else BlockRaiseRoute(s.body, f) + BlockRoute(s.handler.body, f, w)
    else if BlockGoes(s.body, f, w) then BlockRoute(s.body, f, w)
    else BlockRaiseRoute(s.body, f)
  }

  ghost function TryRoute(s: Stmt, f: Option<Name>, w: Way): seq<Answer>
    requires s.Try?
    decreases s, 2
  {
    if s.finalizer.NoClosure? then PendRoute(s, f, w)
    else if BlockGoes(s.finalizer.body, f, Through) && Pends(s, f, w) then
      PendRoute(s, f, w) + BlockRoute(s.finalizer.body, f, Through)
    else if PendsUnder(s, f, w) then
      PendRoute(s, f, PendWay(s, f, w)) + BlockRoute(s.finalizer.body, f, w)
    else []
  }

  lemma PendFound(s: Stmt, f: Option<Name>, w: Way)
    requires s.Try? && PendsUnder(s, f, w)
    ensures exists p :: Pends(s, f, p) && (p.ByThrow? ==> w.ByThrow?)
  {}

  /** What is pending when the finalizer replaces it. */
  ghost function PendWay(s: Stmt, f: Option<Name>, w: Way): (p: Way)
    requires s.Try? && PendsUnder(s, f, w)
    ensures Pends(s, f, p) && (p.ByThrow? ==> w.ByThrow?)
  {
    PendFound(s, f, w);
    var p: Way :| Pends(s, f, p) && (p.ByThrow? ==> w.ByThrow?);
    p
  }

  // ----- the script that raises an exception -----

  ghost function RaiseRoute(s: Stmt, f: Option<Name>): seq<Answer>
    decreases s, 3
  {
    match s
    case Scope(body) => BlockRaiseRoute(body, f)
    case If(init, _, _, _) =>
      if BlockMayRaise(init, f) then BlockRaiseRoute(init, f) else BlockRoute(init, f, Through) + [Raise]
    case For(init, cond, _, body) =>
      if BlockMayRaise(init, f) then BlockRaiseRoute(init, f)
      else BlockRoute(init, f, Through) + (if Asks(cond) then [Raise] else BlockRaiseRoute(body, f))
    case Switch(init, _, _) =>
      if BlockMayRaise(init, f) then BlockRaiseRoute(init, f) else BlockRoute(init, f, Through) + [Raise]
    case Labeled(_, inner) => RaiseRoute(inner, f)
    case Try(body, handler, finalizer) =>
      BlockRaiseRoute(body, f) +
      ((if handler.Func? then BlockRaiseRoute(handler.body, f) else []) +
       (if finalizer.NoClosure? then []
        else if BlockGoes(finalizer.body, f, Through) then BlockRoute(finalizer.body, f, Through)
        else BlockRaiseRoute(finalizer.body, f)))
    case _ => [Raise]
  }

  ghost function BlockRaiseRoute(b: Block, f: Option<Name>): seq<Answer>
    decreases b, 0
  {
    if b.Nil? then []
    else if MayRaise(b.head, f) then RaiseRoute(b.head, f)
    else PathRoute(b.head, NO_LABEL, f, Through) + BlockRaiseRoute(b.tail, f)
  }

  // ----- the runs -----

  /** The completion a way shows as; exceptions are ones that `catch` sees. */
  ghost predicate Shows(w: Way, c: Comp) {
    !c.Stuck? && WayOf(c) == w && (c.Thrown? ==> !c.native)
  }

  /** The script has been played to its end and the field is still unset. */
  ghost predicate Played(f: Option<Name>, w: Way, n: nat, st: State, r: R) {
    Shows(w, r.c) && Lacks(f, r.st.u) && r.st.u.world == st.u.world + n
  }

  /** Statements that evaluate a list of expressions. */
  lemma ListTaken(fn: Fn, s: Stmt, lab: Name, f: Option<Name>, w: Way, st: State, fuel: nat)
    requires (s.Declare? || s.Return?) && Open(s, f) && Goes(s, lab, f, w) && Lacks(f, st.u)
    requires Follows(fn, st.u.world, PathRoute(s, lab, f, w))
    ensures Played(f, w, |PathRoute(s, lab, f, w)|, st, ExecBasic(fn, s, st, fuel))
  {
    var es := if s.Declare? then s.rhs else s.es;
    EvalAllAnswers(fn, es, st.u);
    var o := EvalAll(fn, es, st.u);
    if s.Declare? { BindGrew(s.names, o.vals, o.u); BindWorld(s.names, o.vals, o.u); }
    else if fn.slots.Named? { SetCellsGrew(fn.slots.cells, o.vals, o.u); SetCellsWorld(fn.slots.cells, o.vals, o.u); }
  }

  lemma BasicTaken(fn: Fn, s: Stmt, lab: Name, f: Option<Name>, w: Way, st: State, fuel: nat)
    requires Sourced(s) && Basic(s) && Open(s, f) && Goes(s, lab, f, w) && Lacks(f, st.u)
    requires Follows(fn, st.u.world, PathRoute(s, lab, f, w))
    ensures Played(f, w, |PathRoute(s, lab, f, w)|, st, ExecBasic(fn, s, st, fuel))
  {
    if s.Assign? { AssignAnswers(fn, s.lhs, s.rhs, f, st.u); }
    else if s.Declare? || s.Return? { ListTaken(fn, s, lab, f, w, st, fuel); }
    else if s.Eval? || s.Parent? || s.Throw? || s.Defer? { EvalOne(fn, s.e, st.u); }
  }

  lemma EvalOne(fn: Fn, e: Expr, u: User)
    requires Follows(fn, u.world, Ones(Weight([e])))
    ensures var o := EvalExpr(fn, e, u); o.Yields? && o.vals == [1] && Moved(u, o.u, Weight([e]))
  {
    assert Weight([]) == 0;
    if !e.True? {
      assert Ones(Weight([e])) == [Value(1)];
      EvalAnswer(fn, e, Value(1), u);
    }
  }

  /** Along its script a path is taken. */
  lemma {:induction false} PathTaken(fn: Fn, s: Stmt, lab: Name, f: Option<Name>, w: Way, st: State, fuel: nat)
    requires Sourced(s) && Open(s, f) && Goes(s, lab, f, w) && Lacks(f, st.u) && fuel > 0
    requires Follows(fn, st.u.world, PathRoute(s, lab, f, w))
    ensures Played(f, w, |PathRoute(s, lab, f, w)|, st, Exec(fn, s, lab, st, fuel))
    decreases s, 5
  {
    if s.Scope? { BlockTaken(fn, s.body, f, w, st, fuel); }
    else if s.If? || s.For? || s.Switch? { HeaderTaken(fn, s, lab, f, w, st, fuel); }
    else if s.Range? { RangeTaken(fn, s, lab, f, w, st, fuel); }
    else if s.Labeled? {
      assert Exec(fn, s, lab, st, fuel) == Exec(fn, s.stmt, s.lab, st, fuel);
      PathTaken(fn, s.stmt, s.lab, f, w, st, fuel);
    }
    else if s.Try? { TryTaken(fn, s, lab, f, w, st, fuel); }
    else {
      assert Exec(fn, s, lab, st, fuel) == ExecBasic(fn, s, st, fuel);
      BasicTaken(fn, s, lab, f, w, st, fuel);
    }
  }

  lemma {:induction false} BlockTaken(fn: Fn, b: Block, f: Option<Name>, w: Way, st: State, fuel: nat)
    requires SourcedBlock(b) && OpenBlock(b, f) && BlockGoes(b, f, w) && Lacks(f, st.u) && fuel > 0
    requires Follows(fn, st.u.world, BlockRoute(b, f, w))
    ensures Played(f, w, |BlockRoute(b, f, w)|, st, ExecBlock(fn, b, st, fuel))
    decreases b, 0
  {
    if b.Cons? {
      if !w.Through? && Goes(b.head, NO_LABEL, f, w) { PathTaken(fn, b.head, NO_LABEL, f, w, st, fuel); }
      else {
        FollowsParts(fn, st.u.world, PathRoute(b.head, NO_LABEL, f, Through), BlockRoute(b.tail, f, w));
        PathTaken(fn, b.head, NO_LABEL, f, Through, st, fuel);
        BlockTaken(fn, b.tail, f, w, Exec(fn, b.head, NO_LABEL, st, fuel).st, fuel);
      }
    }
  }

  lemma {:induction false} HeaderTaken(fn: Fn, s: Stmt, lab: Name, f: Option<Name>, w: Way, st: State, fuel: nat)
    requires s.If? || s.For? || s.Switch?
    requires Sourced(s) && Open(s, f) && HeaderGoes(s, s.init, lab, f, w) && Lacks(f, st.u) && fuel > 0
    requires Follows(fn, st.u.world, HeaderRoute(s, s.init, lab, f, w))
    ensures Played(f, w, |HeaderRoute(s, s.init, lab, f, w)|, st, Exec(fn, s, lab, st, fuel))
    decreases s, 4
  {
    HeaderFirst(fn, s, lab, st, fuel);
    if !w.Through? && BlockGoes(s.init, f, w) { BlockTaken(fn, s.init, f, w, st, fuel); }
    else { BehindTaken(fn, s, lab, f, w, st, fuel); }
  }

  lemma {:induction false} BehindTaken(fn: Fn, s: Stmt, lab: Name, f: Option<Name>, w: Way, st: State, fuel: nat)
    requires s.If? || s.For? || s.Switch?
    requires Sourced(s) && Open(s, f) && BlockGoes(s.init, f, Through) && EntryGoes(s, lab, f, w) && Lacks(f, st.u)
             && fuel > 0
    requires Follows(fn, st.u.world, BlockRoute(s.init, f, Through) + EntryRoute(s, lab, f, w))
    ensures var i := ExecBlock(fn, s.init, st, fuel);
            && i.c.Normal?
            && Played(f, w, |BlockRoute(s.init, f, Through) + EntryRoute(s, lab, f, w)|, st,
                      AfterHeader(fn, s, lab, i.st, fuel))
    decreases s, 3
  {
    FollowsParts(fn, st.u.world, BlockRoute(s.init, f, Through), EntryRoute(s, lab, f, w));
    BlockTaken(fn, s.init, f, Through, st, fuel);
    EntryTaken(fn, s, lab, f, w, ExecBlock(fn, s.init, st, fuel).st, fuel);
  }

  lemma {:induction false} EntryTaken(fn: Fn, s: Stmt, lab: Name, f: Option<Name>, w: Way, st: State, fuel: nat)
    requires s.If? || s.For? || s.Switch?
    requires Sourced(s) && Open(s, f) && EntryGoes(s, lab, f, w) && Lacks(f, st.u) && fuel > 0
    requires Follows(fn, st.u.world, EntryRoute(s, lab, f, w))
    ensures Played(f, w, |EntryRoute(s, lab, f, w)|, st, AfterHeader(fn, s, lab, st, fuel))
    decreases s, 2
  {
    if s.If? {
      var v := if BlockGoes(s.thn, f, w) then 1 else 0;
      var branch := if v == 1 then s.thn else s.els;
      FollowsParts(fn, st.u.world, [Value(v)], BlockRoute(branch, f, w));
      EvalAnswer(fn, s.test, Value(v), st.u);
      BlockTaken(fn, branch, f, w, st.(u := EvalExpr(fn, s.test, st.u).u), fuel);
    }
    else if s.For? { LoopTaken(fn, s, lab, f, w, st, fuel); }
    else { SwitchTaken(fn, s, lab, f, w, st, fuel); }
  }

  lemma CondAnswers(fn: Fn, c: Cond, v: Val, u: User)
    requires Follows(fn, u.world, CondAnswer(c, v)) && (Asks(c) || v == 1)
    ensures var o := EvalCond(fn, c, u); o.Yields? && o.vals == [v] && Moved(u, o.u, |CondAnswer(c, v)|)
  {
    if Asks(c) { EvalAnswer(fn, c.e, Value(v), u); }
  }

  lemma SimpleGoes(b: Block, f: Option<Name>, w: Way)
    requires SimpleStmt(b) && BlockGoes(b, f, w)
    ensures w.Through?
  {}

  lemma {:induction false} LoopTaken(fn: Fn, s: Stmt, lab: Name, f: Option<Name>, w: Way, st: State, fuel: nat)
    requires s.For? && Sourced(s) && Open(s, f) && LoopGoes(s, lab, f, w) && Lacks(f, st.u) && fuel > 0
    requires Follows(fn, st.u.world, EntryRoute(s, lab, f, w))
    ensures Played(f, w, |EntryRoute(s, lab, f, w)|, st, Loop(fn, s, lab, st, fuel))
    decreases s, 1
  {
    if w.Through? && !Infinite(s.cond) { CondAnswers(fn, s.cond, 0, st.u); }
    else {
      if !w.Through? && BlockGoes(s.post, f, w) { SimpleGoes(s.post, f, w); }
      var way := BodyWay(s.body, lab, f, w);
      FollowsParts(fn, st.u.world, CondAnswer(s.cond, 1), BlockRoute(s.body, f, way));
      CondAnswers(fn, s.cond, 1, st.u);
      var st1 := st.(u := EvalCond(fn, s.cond, st.u).u);
      BlockTaken(fn, s.body, f, way, st1, fuel);
      var r := Leave(ExecBlock(fn, s.body, st1, fuel), st.u.env);
      assert Loop(fn, s, lab, st, fuel) == EndTurn(fn, s, lab, r, fuel);
    }
  }

  lemma {:induction false} RangeTaken(fn: Fn, s: Stmt, lab: Name, f: Option<Name>, w: Way, st: State, fuel: nat)
    requires s.Range? && Sourced(s) && Open(s, f) && Goes(s, lab, f, w) && Lacks(f, st.u) && fuel > 0
    requires Follows(fn, st.u.world, PathRoute(s, lab, f, w))
    ensures Played(f, w, |PathRoute(s, lab, f, w)|, st, Exec(fn, s, lab, st, fuel))
    decreases s, 3
  {
    var over := Ones(Weight([s.over]));
    var rest := if w.Through? then [Nothing] else [Value(1)] + (TurnOnes(s.lhs) + BlockRoute(s.body, f, w));
    FollowsParts(fn, st.u.world, over, rest);
    EvalOne(fn, s.over, st.u);
    var st1 := st.(u := EvalExpr(fn, s.over, st.u).u);
    assert Exec(fn, s, lab, st, fuel) == RangeLoop(fn, s, lab, st1, fuel);
    if w.Through? { EvalAnswer(fn, Expr.Next(s.over), Nothing, st1.u); }
    else {
      FollowsParts(fn, st1.u.world, [Value(1)], TurnOnes(s.lhs) + BlockRoute(s.body, f, w));
      EvalAnswer(fn, Expr.Next(s.over), Value(1), st1.u);
      RangeTurnTaken(fn, s, lab, f, w, st1, EvalExpr(fn, Expr.Next(s.over), st1.u), fuel);
    }
  }

  lemma {:induction false} RangeTurnTaken(fn: Fn, s: Stmt, lab: Name, f: Option<Name>, w: Way, st: State, o: Outcome,
                                          fuel: nat)
    requires s.Range? && Sourced(s) && Open(s, f) && Goes(s, lab, f, w) && !w.Through? && Lacks(f, st.u) && fuel > 0
    requires o == EvalExpr(fn, Expr.Next(s.over), st.u) && o.Yields? && o.vals == [1] && Moved(st.u, o.u, 1)
    requires Follows(fn, o.u.world, TurnOnes(s.lhs) + BlockRoute(s.body, f, w))
    ensures Played(f, w, 1 + |TurnOnes(s.lhs) + BlockRoute(s.body, f, w)|, st, RangeLoop(fn, s, lab, st, fuel))
    decreases s, 2
  {
    FollowsParts(fn, o.u.world, TurnOnes(s.lhs), BlockRoute(s.body, f, w));
    TurnTaken(fn, s, o.vals, f, o.u);
    var st1 := st.(u := BindTurn(fn, s, o.vals, o.u).u);
    BlockTaken(fn, s.body, f, w, st1, fuel);
    var r := Leave(ExecBlock(fn, s.body, st1, fuel), st.u.env);
    assert RangeLoop(fn, s, lab, st, fuel) == EndRangeTurn(fn, s, lab, r, fuel);
  }

  lemma TurnTaken(fn: Fn, s: Stmt, vals: seq<Val>, f: Option<Name>, u: User)
    requires s.Range? && !Sets(s.lhs, f) && Lacks(f, u) && Follows(fn, u.world, TurnOnes(s.lhs))
    ensures var o := BindTurn(fn, s, vals, u); o.Yields? && Lacks(f, o.u) && o.u.world == u.world + |TurnOnes(s.lhs)|
  {
    if s.lhs == [] { BindGrew(s.names, vals, u); BindWorld(s.names, vals, u); }
    else {
      assert Operands(s.lhs) + [] == Operands(s.lhs);
      FollowsParts(fn, u.world, Ones(Weight(Operands(s.lhs))), Ones(|Operands(s.lhs)|));
      EvalAllAnswers(fn, Operands(s.lhs), u);
      StoreAllAnswers(fn, s.lhs, vals, f, EvalAll(fn, Operands(s.lhs), u).u);
    }
  }

  // ----- switch -----

  lemma {:induction false} GuardsFail(fn: Fn, guards: seq<Expr>, index: int, u: User)
    requires (forall e :: e in guards ==> !e.True?) && Follows(fn, u.world, Zeros(|guards|))
    ensures var c := Guards(fn, guards, 1, index, u); c.Chosen? && c.index == -1 && Moved(u, c.u, |guards|)
    decreases |guards|
  {
    if guards != [] {
      assert Zeros(|guards|) == [Value(0)] + Zeros(|guards[1..]|);
      FollowsParts(fn, u.world, [Value(0)], Zeros(|guards[1..]|));
      EvalAnswer(fn, guards[0], Value(0), u);
      GuardsFail(fn, guards[1..], index, EvalExpr(fn, guards[0], u).u);
    }
  }

  lemma {:induction false} AllFail(fn: Fn, cs: Clauses, f: Option<Name>, index: nat, u: User)
    requires OpenClauses(cs, f) && Follows(fn, u.world, SkipRoute(cs))
    ensures var c := Choose(fn, cs, 1, index, u); c.Chosen? && c.index == -1 && Moved(u, c.u, |SkipRoute(cs)|)
    decreases cs
  {
    if cs.Clause? {
      if cs.isDefault {
        assert [] + SkipRoute(cs.rest) == SkipRoute(cs.rest);
        AllFail(fn, cs.rest, f, index + 1, u);
      }
      else {
        FollowsParts(fn, u.world, Zeros(|cs.guards|), SkipRoute(cs.rest));
        GuardsFail(fn, cs.guards, index, u);
        AllFail(fn, cs.rest, f, index + 1, Guards(fn, cs.guards, 1, index, u).u);
      }
    }
  }

  lemma {:induction false} NoDefault(cs: Clauses, index: int)
    requires !HasDefault(cs)
    ensures DefaultIndex(cs, index) == -1
    decreases cs
  {
    if cs.Clause? { NoDefault(cs.rest, index + 1); }
  }

  ghost predicate Chose(cs: Clauses, k: nat, index: nat, n: nat, u: User, c: Choice) {
    && c.Chosen? && Moved(u, c.u, n)
    && (if c.index >= 0 then c.index else DefaultIndex(cs, index)) == index + k
    && (!HasDefault(cs) ==> c.index >= 0)
  }

  lemma {:induction false} ChoiceTaken(fn: Fn, cs: Clauses, f: Option<Name>, k: nat, index: nat, u: User)
    requires OpenClauses(cs, f) && k < Count(cs) && Follows(fn, u.world, ChoiceRoute(cs, k))
    ensures Chose(cs, k, index, |ChoiceRoute(cs, k)|, u, Choose(fn, cs, 1, index, u))
    decreases cs
  {
    if k == 0 { FirstTaken(fn, cs, f, index, u); }
    else {
      var w, n := PassedOver(fn, cs, f, k, index, u);
      ChoiceTaken(fn, cs.rest, f, k - 1, index + 1, w);
      LaterChose(cs, f, k, index, n, |ChoiceRoute(cs.rest, k - 1)|, u, w, Choose(fn, cs.rest, 1, index + 1, w));
    }
  }

  /** The first clause is not chosen. */
  lemma PassedOver(fn: Fn, cs: Clauses, f: Option<Name>, k: nat, index: nat, u: User) returns (w: User, n: nat)
    requires OpenClauses(cs, f) && cs.Clause? && k > 0 && Follows(fn, u.world, ChoiceRoute(cs, k))
    ensures Moved(u, w, n) && Follows(fn, w.world, ChoiceRoute(cs.rest, k - 1))
    ensures |ChoiceRoute(cs, k)| == n + |ChoiceRoute(cs.rest, k - 1)|
    ensures Choose(fn, cs, 1, index, u) == Choose(fn, cs.rest, 1, index + 1, w)
  {
    if cs.isDefault {
      assert ChoiceRoute(cs, k) == [] + ChoiceRoute(cs.rest, k - 1) == ChoiceRoute(cs.rest, k - 1);
      w, n := u, 0;
    } else {
      FollowsParts(fn, u.world, Zeros(|cs.guards|), ChoiceRoute(cs.rest, k - 1));
      GuardsFail(fn, cs.guards, index, u);
      w, n := Guards(fn, cs.guards, 1, index, u).u, |cs.guards|;
    }
  }

  lemma LaterChose(cs: Clauses, f: Option<Name>, k: nat, index: nat, m: nat, n: nat, u: User, w: User, c: Choice)
    requires OpenClauses(cs, f) && cs.Clause? && k > 0 && Moved(u, w, m) && Chose(cs.rest, k - 1, index + 1, n, w, c)
    ensures Chose(cs, k, index, m + n, u, c)
  {}

  lemma FirstTaken(fn: Fn, cs: Clauses, f: Option<Name>, index: nat, u: User)
    requires OpenClauses(cs, f) && cs.Clause? && Follows(fn, u.world, ChoiceRoute(cs, 0))
    ensures Chose(cs, 0, index, |ChoiceRoute(cs, 0)|, u, Choose(fn, cs, 1, index, u))
  {
    if cs.isDefault { AllFail(fn, cs.rest, f, index + 1, u); }
    else { EvalAnswer(fn, cs.guards[0], Value(1), u); }
  }

  lemma {:induction false} PickInside(cs: Clauses, lab: Name, f: Option<Name>, w: Way)
    requires OpenClauses(cs, f) && ClausesGo(cs, lab, f, w)
    ensures Pick(cs, lab, f, w) < Count(cs)
    decreases cs
  {
    if !FirstGoes(cs, lab, f, w) { PickInside(cs.rest, lab, f, w); }
  }

  lemma {:induction false} CaseTaken(fn: Fn, cs: Clauses, lab: Name, f: Option<Name>, w: Way, st: State, fuel: nat)
    requires SourcedClauses(cs) && OpenClauses(cs, f) && ClausesGo(cs, lab, f, w) && Lacks(f, st.u) && fuel > 0
    requires Follows(fn, st.u.world, CaseRoute(cs, lab, f, w))
    ensures Played(f, w, |CaseRoute(cs, lab, f, w)|, st, Landed(RunClauses(fn, cs, Pick(cs, lab, f, w), st, fuel), lab))
    decreases cs, 0
  {
    if FirstGoes(cs, lab, f, w) {
      BlockTaken(fn, cs.body, f, CaseWay(cs.body, lab, f, w), st, fuel);
      var r := Leave(ExecBlock(fn, cs.body, st, fuel), st.u.env);
      assert RunClauses(fn, cs, 0, st, fuel) == r;
    } else {
      assert ClausesGo(cs.rest, lab, f, w);
      CaseTaken(fn, cs.rest, lab, f, w, st, fuel);
    }
  }

  lemma {:induction false} SwitchTaken(fn: Fn, s: Stmt, lab: Name, f: Option<Name>, w: Way, st: State, fuel: nat)
    requires s.Switch? && Sourced(s) && Open(s, f) && EntryGoes(s, lab, f, w) && Lacks(f, st.u) && fuel > 0
    requires Follows(fn, st.u.world, EntryRoute(s, lab, f, w))
    ensures Played(f, w, |EntryRoute(s, lab, f, w)|, st, AfterHeader(fn, s, lab, st, fuel))
    decreases s, 1
  {
    var route := CasesRoute(s.clauses, lab, f, w);
    assert EntryRoute(s, lab, f, w) == CondAnswer(s.tag, 1) + route by {
      assert SkipRoute(s.clauses) + [] == SkipRoute(s.clauses);
    }
    FollowsParts(fn, st.u.world, CondAnswer(s.tag, 1), route);
    CondAnswers(fn, s.tag, 1, st.u);
    CasesTaken(fn, s.clauses, lab, f, w, st.(u := EvalCond(fn, s.tag, st.u).u), fuel);
  }

  ghost function CasesRoute(cs: Clauses, lab: Name, f: Option<Name>, w: Way): seq<Answer> {
    if w.Through? && !HasDefault(cs) then SkipRoute(cs)
        else ChoiceRoute(cs, Pick(cs, lab, f, w)) + CaseRoute(cs, lab, f, w)
  }

  lemma {:induction false} CasesTaken(fn: Fn, cs: Clauses, lab: Name, f: Option<Name>, w: Way, st: State, fuel: nat)
    requires SourcedClauses(cs) && OpenClauses(cs, f) && ((w.Through? && !HasDefault(cs)) || ClausesGo(cs, lab, f, w))
    requires Lacks(f, st.u) && fuel > 0 && Follows(fn, st.u.world, CasesRoute(cs, lab, f, w))
    ensures Played(f, w, |CasesRoute(cs, lab, f, w)|, st, ExecCases(fn, cs, 1, lab, st, fuel))
    decreases cs, 1
  {
    if w.Through? && !HasDefault(cs) {
      AllFail(fn, cs, f, 0, st.u);
      NoDefault(cs, 0);
    } else {
      var k := Pick(cs, lab, f, w);
      FollowsParts(fn, st.u.world, ChoiceRoute(cs, k), CaseRoute(cs, lab, f, w));
      PickInside(cs, lab, f, w);
      ChoiceTaken(fn, cs, f, k, 0, st.u);
      CaseTaken(fn, cs, lab, f, w, st.(u := Choose(fn, cs, 1, 0, st.u).u), fuel);
    }
  }

  // ----- try -----

  lemma {:induction false} HandledTaken(fn: Fn, s: Stmt, f: Option<Name>, w: Way, st: State, fuel: nat)
    requires s.Try? && Sourced(s) && Open(s, f) && Pends(s, f, w) && Lacks(f, st.u) && fuel > 0
    requires Follows(fn, st.u.world, PendRoute(s, f, w))
    ensures Played(f, w, |PendRoute(s, f, w)|, st, Handled(fn, s, st, fuel))
    decreases s, 2
  {
    if (s.handler.NoClosure? || !w.ByThrow?) && BlockGoes(s.body, f, w) { BlockTaken(fn, s.body, f, w, st, fuel); }
    else if s.handler.NoClosure? { BlockRaiseTaken(fn, s.body, f, st, fuel); }
    else {
      ChainThrows(s.handler.body, f);
      CaughtTaken(fn, s, f, w, st, fuel);
    }
  }

  /** The body throws, and the handler goes on. */
  lemma {:induction false} CaughtTaken(fn: Fn, s: Stmt, f: Option<Name>, w: Way, st: State, fuel: nat)
    requires s.Try? && s.handler.Func? && Sourced(s) && Open(s, f) && BlockGoes(s.handler.body, f, w) && Lacks(f, st.u)
             && fuel > 0
    requires Follows(fn, st.u.world, BlockRaiseRoute(s.body, f) + BlockRoute(s.handler.body, f, w))
    ensures Played(f, w, |BlockRaiseRoute(s.body, f) + BlockRoute(s.handler.body, f, w)|, st, Handled(fn, s, st, fuel))
    decreases s, 1
  {
    FollowsParts(fn, st.u.world, BlockRaiseRoute(s.body, f), BlockRoute(s.handler.body, f, w));
    BlockRaiseTaken(fn, s.body, f, st, fuel);
    BlockTaken(fn, s.handler.body, f, w, Caught(fn, s, st, fuel), fuel);
  }

  /** The state in which a handler starts. */
  ghost function Caught(fn: Fn, s: Stmt, st: State, fuel: nat): (t: State)
    requires s.Try?
    ensures t.u.world == ExecBlock(fn, s.body, st, fuel).st.u.world
            && t.u.obj == ExecBlock(fn, s.body, st, fuel).st.u.obj
  {
    var b := Leave(ExecBlock(fn, s.body, st, fuel), st.u.env);
    var v := if b.c.Thrown? then b.c.v else 0;
    BindGrew(["ghi_caught"], [v], b.st.u);
    BindWorld(["ghi_caught"], [v], b.st.u);
    b.st.(u := WithCaught(b.st.u, v))
  }

  lemma {:induction false} TryTaken(fn: Fn, s: Stmt, lab: Name, f: Option<Name>, w: Way, st: State, fuel: nat)
    requires s.Try? && Sourced(s) && Open(s, f) && TryGoes(s, f, w) && Lacks(f, st.u) && fuel > 0
    requires Follows(fn, st.u.world, TryRoute(s, f, w))
    ensures Played(f, w, |TryRoute(s, f, w)|, st, Exec(fn, s, lab, st, fuel))
    decreases s, 4
  {
    TryRuns(fn, s, lab, st, fuel);
    if s.finalizer.NoClosure? { HandledTaken(fn, s, f, w, st, fuel); }
    else if BlockGoes(s.finalizer.body, f, Through) && Pends(s, f, w) { FinalTaken(fn, s, f, w, Through, st, fuel); }
    else { FinalTaken(fn, s, f, PendWay(s, f, w), w, st, fuel); }
  }

  lemma TryRuns(fn: Fn, s: Stmt, lab: Name, st: State, fuel: nat)
    requires s.Try?
    ensures Exec(fn, s, lab, st, fuel) ==
            var h := Handled(fn, s, st, fuel);
            if h.c.Stuck? || s.finalizer.NoClosure? then h
            else Machine.Pending(h.c, Leave(ExecBlock(fn, s.finalizer.body, h.st, fuel), st.u.env))
  {
    assert Exec(fn, s, lab, st, fuel) == ExecTry(fn, s, st, fuel);
  }

  /** The way pending before the finalizer, then the finalizer's own. */
  lemma {:induction false} FinalTaken(fn: Fn, s: Stmt, f: Option<Name>, pending: Way, last: Way, st: State, fuel: nat)
    requires s.Try? && Sourced(s) && Open(s, f) && s.finalizer.Func? && Lacks(f, st.u) && fuel > 0
    requires Pends(s, f, pending) && BlockGoes(s.finalizer.body, f, last)
    requires Follows(fn, st.u.world, PendRoute(s, f, pending) + BlockRoute(s.finalizer.body, f, last))
    ensures var h := Handled(fn, s, st, fuel);
            var r := Leave(ExecBlock(fn, s.finalizer.body, h.st, fuel), st.u.env);
            && Shows(pending, h.c)
            && Played(f, last, |PendRoute(s, f, pending) + BlockRoute(s.finalizer.body, f, last)|, st, r)
    decreases s, 3
  {
    FollowsParts(fn, st.u.world, PendRoute(s, f, pending), BlockRoute(s.finalizer.body, f, last));
    HandledTaken(fn, s, f, pending, st, fuel);
    BlockTaken(fn, s.finalizer.body, f, last, Handled(fn, s, st, fuel).st, fuel);
  }

  // ----- raising -----

  lemma {:induction false} RaiseTaken(fn: Fn, s: Stmt, lab: Name, f: Option<Name>, st: State, fuel: nat)
    requires Sourced(s) && Open(s, f) && MayRaise(s, f) && Lacks(f, st.u) && fuel > 0
    requires Follows(fn, st.u.world, RaiseRoute(s, f))
    ensures Played(f, ByThrow, |RaiseRoute(s, f)|, st, Exec(fn, s, lab, st, fuel))
    decreases s, 4
  {
    if s.Scope? { BlockRaiseTaken(fn, s.body, f, st, fuel); }
    else if s.If? || s.For? || s.Switch? { HeaderRaiseTaken(fn, s, lab, f, st, fuel); }
    else if s.Range? { RangeRaises(fn, s, lab, f, st, fuel); }
    else if s.Labeled? {
      assert Exec(fn, s, lab, st, fuel) == Exec(fn, s.stmt, s.lab, st, fuel);
      RaiseTaken(fn, s.stmt, s.lab, f, st, fuel);
    }
    else if s.Try? { TryRaiseTaken(fn, s, lab, f, st, fuel); }
    else {
      assert Exec(fn, s, lab, st, fuel) == ExecBasic(fn, s, st, fuel);
      BasicRaises(fn, s, f, st, fuel);
    }
  }

  lemma BasicRaises(fn: Fn, s: Stmt, f: Option<Name>, st: State, fuel: nat)
    requires Sourced(s) && Basic(s) && MayRaise(s, f) && Lacks(f, st.u) && Follows(fn, st.u.world, [Raise])
    ensures Played(f, ByThrow, 1, st, ExecBasic(fn, s, st, fuel))
  {
    if s.Assign? { EvalAllRaises(fn, Operands(s.lhs) + s.rhs, st.u); }
    else if s.Declare? { EvalAllRaises(fn, s.rhs, st.u); }
    else if s.Return? { EvalAllRaises(fn, s.es, st.u); }
    else { EvalAnswer(fn, s.e, Raise, st.u); }
  }

  lemma RangeRaises(fn: Fn, s: Stmt, lab: Name, f: Option<Name>, st: State, fuel: nat)
    requires s.Range? && Lacks(f, st.u) && fuel > 0 && Follows(fn, st.u.world, [Raise])
    ensures Played(f, ByThrow, 1, st, Exec(fn, s, lab, st, fuel))
  {
    if s.over.True? {
      var st1 := st.(u := EvalExpr(fn, s.over, st.u).u);
      assert Exec(fn, s, lab, st, fuel) == RangeLoop(fn, s, lab, st1, fuel);
      EvalAnswer(fn, Expr.Next(s.over), Raise, st1.u);
    } else { EvalAnswer(fn, s.over, Raise, st.u); }
  }

  lemma {:induction false} BlockRaiseTaken(fn: Fn, b: Block, f: Option<Name>, st: State, fuel: nat)
    requires SourcedBlock(b) && OpenBlock(b, f) && BlockMayRaise(b, f) && Lacks(f, st.u) && fuel > 0
    requires Follows(fn, st.u.world, BlockRaiseRoute(b, f))
    ensures Played(f, ByThrow, |BlockRaiseRoute(b, f)|, st, ExecBlock(fn, b, st, fuel))
    decreases b, 0
  {
    if MayRaise(b.head, f) { RaiseTaken(fn, b.head, NO_LABEL, f, st, fuel); }
    else {
      FollowsParts(fn, st.u.world, PathRoute(b.head, NO_LABEL, f, Through), BlockRaiseRoute(b.tail, f));
      PathTaken(fn, b.head, NO_LABEL, f, Through, st, fuel);
      BlockRaiseTaken(fn, b.tail, f, Exec(fn, b.head, NO_LABEL, st, fuel).st, fuel);
    }
  }

  lemma {:induction false} HeaderRaiseTaken(fn: Fn, s: Stmt, lab: Name, f: Option<Name>, st: State, fuel: nat)
    requires (s.If? || s.For? || s.Switch?) && Sourced(s) && Open(s, f) && MayRaise(s, f) && Lacks(f, st.u) && fuel > 0
    requires Follows(fn, st.u.world, RaiseRoute(s, f))
    ensures Played(f, ByThrow, |RaiseRoute(s, f)|, st, Exec(fn, s, lab, st, fuel))
    decreases s, 3
  {
    HeaderFirst(fn, s, lab, st, fuel);
    if BlockMayRaise(s.init, f) { BlockRaiseTaken(fn, s.init, f, st, fuel); }
    else {
      var rest := if s.For? && !Asks(s.cond) then BlockRaiseRoute(s.body, f) else [Raise];
      FollowsParts(fn, st.u.world, BlockRoute(s.init, f, Through), rest);
      BlockTaken(fn, s.init, f, Through, st, fuel);
      EntryRaiseTaken(fn, s, lab, f, rest, ExecBlock(fn, s.init, st, fuel).st, fuel);
    }
  }

  lemma {:induction false} BodyRaiseTaken(fn: Fn, s: Stmt, lab: Name, f: Option<Name>, st: State, fuel: nat)
    requires s.For? && Sourced(s) && Open(s, f) && BlockMayRaise(s.body, f) && !Asks(s.cond) && Lacks(f, st.u)
             && fuel > 0
    requires Follows(fn, st.u.world, BlockRaiseRoute(s.body, f))
    ensures Played(f, ByThrow, |BlockRaiseRoute(s.body, f)|, st, Loop(fn, s, lab, st, fuel))
    decreases s, 1
  {
    CondAnswers(fn, s.cond, 1, st.u);
    var st1 := st.(u := EvalCond(fn, s.cond, st.u).u);
    BlockRaiseTaken(fn, s.body, f, st1, fuel);
    var r := Leave(ExecBlock(fn, s.body, st1, fuel), st.u.env);
    assert Loop(fn, s, lab, st, fuel) == EndTurn(fn, s, lab, r, fuel);
  }

  lemma {:induction false} EntryRaiseTaken(fn: Fn, s: Stmt, lab: Name, f: Option<Name>, rest: seq<Answer>, st: State,
                                           fuel: nat)
    requires s.If? || s.For? || s.Switch?
    requires Sourced(s) && Open(s, f) && MayRaise(s, f) && !BlockMayRaise(s.init, f) && Lacks(f, st.u) && fuel > 0
    requires rest == (if s.For? && !Asks(s.cond) then BlockRaiseRoute(s.body, f) else [Raise])
             && Follows(fn, st.u.world, rest)
    ensures Played(f, ByThrow, |rest|, st, AfterHeader(fn, s, lab, st, fuel))
    decreases s, 2
  {
    if s.If? { EvalAnswer(fn, s.test, Raise, st.u); }
    else if s.For? {
      if Asks(s.cond) { EvalAnswer(fn, s.cond.e, Raise, st.u); }
      else { BodyRaiseTaken(fn, s, lab, f, st, fuel); }
    }
    else if Asks(s.tag) { EvalAnswer(fn, s.tag.e, Raise, st.u); }
    else { FirstGuardRaises(fn, s.clauses, f, 0, EvalCond(fn, s.tag, st.u).u); }
  }

  lemma {:induction false} FirstGuardRaises(fn: Fn, cs: Clauses, f: Option<Name>, index: nat, u: User)
    requires OpenClauses(cs, f) && HasGuard(cs) && Follows(fn, u.world, [Raise])
    ensures var c := Choose(fn, cs, 1, index, u); c.ChoiceRaises? && !c.native && Moved(u, c.u, 1)
    decreases cs
  {
    if cs.isDefault { FirstGuardRaises(fn, cs.rest, f, index + 1, u); } else { EvalAnswer(fn, cs.guards[0], Raise, u); }
  }

  ghost function SecondRoute(s: Stmt, f: Option<Name>): seq<Answer>
    requires s.Try?
  {
    if s.handler.Func? then BlockRaiseRoute(s.handler.body, f) else []
  }

  ghost function ThirdRoute(s: Stmt, f: Option<Name>): seq<Answer>
    requires s.Try?
  {
    if s.finalizer.NoClosure? then []
    else if BlockGoes(s.finalizer.body, f, Through) then BlockRoute(s.finalizer.body, f, Through)
    else BlockRaiseRoute(s.finalizer.body, f)
  }

  lemma TryRaiseRoute(s: Stmt, f: Option<Name>)
    requires s.Try?
    ensures RaiseRoute(s, f) == (BlockRaiseRoute(s.body, f) + SecondRoute(s, f)) + ThirdRoute(s, f)
  {}

  lemma {:induction false} TryRaiseTaken(fn: Fn, s: Stmt, lab: Name, f: Option<Name>, st: State, fuel: nat)
    requires s.Try? && Sourced(s) && Open(s, f) && MayRaise(s, f) && Lacks(f, st.u) && fuel > 0
    requires Follows(fn, st.u.world, RaiseRoute(s, f))
    ensures Played(f, ByThrow, |RaiseRoute(s, f)|, st, Exec(fn, s, lab, st, fuel))
    decreases s, 3
  {
    TryRaiseRoute(s, f);
    FollowsParts(fn, st.u.world, BlockRaiseRoute(s.body, f) + SecondRoute(s, f), ThirdRoute(s, f));
    UncaughtTaken(fn, s, f, SecondRoute(s, f), st, fuel);
    TryRuns(fn, s, lab, st, fuel);
    if s.finalizer.Func? {
      LastRaises(fn, s.finalizer.body, f, ThirdRoute(s, f), Handled(fn, s, st, fuel), st.u.env, fuel);
    }
  }

  /** A pending exception goes on, or the finalizer's own does. */
  lemma {:induction false} LastRaises(fn: Fn, b: Block, f: Option<Name>, script: seq<Answer>, h: R,
                                      env: map<Name, nat>, fuel: nat)
    requires SourcedBlock(b) && OpenBlock(b, f) && (BlockGoes(b, f, Through) || BlockMayRaise(b, f))
    requires h.c.Thrown? && !h.c.native && Lacks(f, h.st.u) && fuel > 0
    requires script == (if BlockGoes(b, f, Through) then BlockRoute(b, f, Through) else BlockRaiseRoute(b, f))
    requires Follows(fn, h.st.u.world, script)
    ensures Played(f, ByThrow, |script|, h.st, Pending(h.c, Leave(ExecBlock(fn, b, h.st, fuel), env)))
    decreases b, 1
  {
    if BlockGoes(b, f, Through) {
      BlockTaken(fn, b, f, Through, h.st, fuel);
    } else {
      BlockRaiseTaken(fn, b, f, h.st, fuel);
    }
  }

  /** The body throws, and so does the handler if there is one. */
  lemma {:induction false} UncaughtTaken(fn: Fn, s: Stmt, f: Option<Name>, second: seq<Answer>, st: State, fuel: nat)
    requires s.Try? && Sourced(s) && Open(s, f) && MayRaise(s, f) && Lacks(f, st.u) && fuel > 0
    requires second == if s.handler.Func? then BlockRaiseRoute(s.handler.body, f) else []
    requires Follows(fn, st.u.world, BlockRaiseRoute(s.body, f) + second)
    ensures Played(f, ByThrow, |BlockRaiseRoute(s.body, f) + second|, st, Handled(fn, s, st, fuel))
    decreases s, 2
  {
    FollowsParts(fn, st.u.world, BlockRaiseRoute(s.body, f), second);
    BlockRaiseTaken(fn, s.body, f, st, fuel);
    if s.handler.Func? { BlockRaiseTaken(fn, s.handler.body, f, Caught(fn, s, st, fuel), fuel); }
  }
}
