/** The meaning of the statements of one Go function, as far as nil is concerned.
    Operators, calls, loads and stores behave arbitrarily (`ev`), except that they
    cannot change a local variable whose address nobody has and that no closure
    has captured. A checked dereference of nil is a `Fault`; an unchecked one
    panics. Fuel bounds the turns of each loop. */
module NullMachine {
  import opened Options
  import opened Nullable

  datatype State = State(store: map<Obj, Val>, escaped: set<Obj>, world: int)

  datatype Outcome = Yields(vals: seq<Val>, st: State) | Raises(st: State) | Fault

  /** `part` splits the value of a call with several results. */
  datatype Fn = Fn(ev: (int, seq<Val>, State) -> Outcome, part: (Val, nat) -> Val, locals: set<Obj>)

  datatype Comp = Normal | BreakTo(lab: Name) | ContinueTo(lab: Name) | Fell | Returned | Thrown | Faulted | Stuck

  datatype R = R(c: Comp, st: State)

  const LOAD := -1
  const STORE := -2
  const NEXT := -3
  const ADDRESS := -4
  const NO_LABEL: Name := ""

  function Read(st: State, x: Obj): Val {
    if x in st.store then st.store[x] else 0
  }

  function First(vals: seq<Val>): Val {
    if vals == [] then 0 else vals[0]
  }

  ghost function Keep(fn: Fn, before: State, after: State): State {
    State(map x | x in before.store.Keys + after.store.Keys ::
            if x in fn.locals && x !in before.escaped then Read(before, x) else Read(after, x),
          before.escaped, after.world)
  }

  ghost function Apply(fn: Fn, id: int, vals: seq<Val>, st: State): Outcome {
    match fn.ev(id, vals, st)
    case Yields(vs, w) => Yields(vs, Keep(fn, st, w))
    case Raises(w) => Raises(Keep(fn, st, w))
    case Fault => Raises(st)
  }

  function Bare(e: Expr): Expr {
    if e.Paren? then Bare(e.e) else e
  }

  function Bool(b: bool): seq<Val> {
    [if b then 1 else 0]
  }

  ghost function Eval(fn: Fn, e: Expr, st: State): Outcome
    decreases e
  {
    match e
    case NilLit => Yields([0], st)
    case Var(x) => Yields([Read(st, x)], st)
    case Paren(i) => Eval(fn, i, st)
    case Wanted(i) => Eval(fn, i, st)
    case Not(i) =>
      (match Eval(fn, i, st)
       case Yields(vs, w) => Yields(Bool(First(vs) == 0), w)
       case o => o)
    case And(l, r) =>
      var o := Eval(fn, l, st);
      if o.Yields? && First(o.vals) != 0 then Eval(fn, r, o.st) else o
    case Or(l, r) =>
      var o := Eval(fn, l, st);
      if o.Yields? && First(o.vals) == 0 then Eval(fn, r, o.st) else o
    case Equal(l, r, negated) =>
      (match Eval(fn, l, st)
       case Yields(vs, w) =>
         (match Eval(fn, r, w)
          case Yields(ws, w') => Yields(Bool((First(vs) == First(ws)) != negated), w')
          case o => o)
       case o => o)
    case Choice(c, a, b) =>
      (match Eval(fn, c, st)
       case Yields(vs, w) => if First(vs) != 0 then Eval(fn, a, w) else Eval(fn, b, w)
       case o => o)
    case Op(id, args) =>
      (match EvalAll(fn, args, st)
       case Yields(vs, w) => Apply(fn, id, vs, w)
       case o => o)
    case Deref(i, checked) =>
      (match Eval(fn, i, st)
       case Yields(vs, w) =>
         if First(vs) == 0 then (if checked then Fault else Raises(w)) else Apply(fn, LOAD, [First(vs)], w)
       case o => o)
    case Address(i) =>
      if Bare(i).Var? then Yields([1], st.(escaped := st.escaped + {Bare(i).x}))
      else
        (match Eval(fn, i, st)
         case Yields(vs, w) => Apply(fn, ADDRESS, vs, w)
         case o => o)
    case Closure(_, captured) => Yields([1], st.(escaped := st.escaped + captured))
  }

  ghost function EvalAll(fn: Fn, es: Exprs, st: State): Outcome
    decreases es
  {
    match es
    case NoExprs => Yields([], st)
    case More(h, rest) =>
      match Eval(fn, h, st)
      case Yields(vs, w) =>
        (match EvalAll(fn, rest, w)
         case Yields(ws, w') => Yields([First(vs)] + ws, w')
         case o => o)
      case o => o
  }

  function Count(es: Exprs): nat {
    if es.NoExprs? then 0 else 1 + Count(es.tail)
  }

  /** The values of a list of expressions spread over `n` targets. */
  function Spread(fn: Fn, vals: seq<Val>, n: nat): seq<Val> {
    if |vals| == n then vals else seq(n, i requires 0 <= i < n => fn.part(First(vals), i))
  }

  /** Operands of the targets that are not plain variables. */
  ghost function EvalTargets(fn: Fn, lhs: Exprs, st: State): Outcome
    decreases lhs
  {
    match lhs
    case NoExprs => Yields([], st)
    case More(h, rest) =>
      if Bare(h).Var? then EvalTargets(fn, rest, st)
      else
        match Eval(fn, h, st)
        case Yields(_, w) => EvalTargets(fn, rest, w)
        case o => o
  }

  ghost function StoreAll(fn: Fn, lhs: Exprs, vals: seq<Val>, st: State): Outcome
    decreases lhs
  {
    match lhs
    case NoExprs => Yields([], st)
    case More(h, rest) =>
      var tail := if vals == [] then [] else vals[1..];
      if Bare(h).Var? then StoreAll(fn, rest, tail, st.(store := st.store[Bare(h).x := First(vals)]))
      else
        match Apply(fn, STORE, [First(vals)], st)
        case Yields(_, w) => StoreAll(fn, rest, tail, w)
        case o => o
  }

  ghost function AssignAll(fn: Fn, lhs: Exprs, rhs: Exprs, st: State): Outcome {
    match EvalTargets(fn, lhs, st)
    case Yields(_, w) =>
      (match EvalAll(fn, rhs, w)
       case Yields(vs, w') => StoreAll(fn, lhs, Spread(fn, vs, Count(lhs)), w')
       case o => o)
    case o => o
  }

  ghost function Bind(names: seq<Obj>, vals: seq<Val>, st: State): State
    decreases |names|
  {
    if names == [] then st
    else Bind(names[1..], if vals == [] then [] else vals[1..], st.(store := st.store[names[0] := First(vals)]))
  }

  /** Declarations without values leave the variables nil. */
  ghost function DeclareAll(fn: Fn, names: seq<Obj>, rhs: Exprs, st: State): Outcome {
    match EvalAll(fn, rhs, st)
    case Yields(vs, w) => Yields([], Bind(names, if rhs.NoExprs? then [] else Spread(fn, vs, |names|), w))
    case o => o
  }

  ghost function Lift(o: Outcome, c: Comp, st: State): R {
    match o
    case Yields(_, w) => R(c, w)
    case Raises(w) => R(Thrown, w)
    case Fault => R(Faulted, st)
  }

  predicate Mine(target: Name, lab: Name) {
    target == NO_LABEL || target == lab
  }

  ghost function EvalTest(fn: Fn, test: Option<Expr>, st: State): Outcome {
    if test.Some? then Eval(fn, test.value, st) else Yields([1], st)
  }

  ghost function Exec(fn: Fn, s: Stmt, lab: Name, st: State, fuel: nat): R
    decreases s, fuel, 2
  {
    match s
    case Scope(body) => ExecBlock(fn, body, st, fuel)
    case If(_, _, _) => ExecIf(fn, s, st, fuel)
    case For(_, _, _) => Loop(fn, s, lab, st, fuel)
    case Range(_, over, _) =>
      (match Eval(fn, over, st)
       case Yields(_, w) => RangeLoop(fn, s, lab, w, fuel)
       case o => Lift(o, Normal, st))
    case Switch(_, _) => ExecSwitch(fn, s, lab, st, fuel)
    case Labeled(l, inner) => Exec(fn, inner, l, st, fuel)
    case _ => ExecBasic(fn, s, st)
  }

  ghost function ExecBasic(fn: Fn, s: Stmt, st: State): R {
    match s
    case Do(e) => Lift(Eval(fn, e, st), Normal, st)
    case Throw(e) => Lift(Eval(fn, e, st), Thrown, st)
    case Assign(lhs, rhs) => Lift(AssignAll(fn, lhs, rhs, st), Normal, st)
    case Declare(names, rhs) => Lift(DeclareAll(fn, names, rhs, st), Normal, st)
    case Return(es) => Lift(EvalAll(fn, es, st), Returned, st)
    case Break(l) => R(BreakTo(l), st)
    case Continue(l) => R(ContinueTo(l), st)
    case Fallthrough => R(Fell, st)
    case _ => R(Normal, st)
  }

  ghost function ExecIf(fn: Fn, s: Stmt, st: State, fuel: nat): R
    requires s.If?
    decreases s, fuel, 1
  {
    match Eval(fn, s.cond, st)
    case Yields(vs, w) => if First(vs) != 0 then ExecBlock(fn, s.thn, w, fuel) else ExecElse(fn, s.els, w, fuel)
    case o => Lift(o, Normal, st)
  }

  ghost function ExecElse(fn: Fn, e: Else, st: State, fuel: nat): R
    decreases e, fuel, 2
  {
    match e
    case NoElse => R(Normal, st)
    case ElseDo(b) => ExecBlock(fn, b, st, fuel)
    case ElseIf(s) => Exec(fn, s, NO_LABEL, st, fuel)
  }

  ghost function ExecBlock(fn: Fn, b: Block, st: State, fuel: nat): R
    decreases b, fuel, 1
  {
    match b
    case Nil => R(Normal, st)
    case Cons(h, rest) =>
      var r := Exec(fn, h, NO_LABEL, st, fuel);
      if r.c.Normal? then ExecBlock(fn, rest, r.st, fuel) else r
  }

  ghost function Loop(fn: Fn, s: Stmt, lab: Name, st: State, fuel: nat): R
    requires s.For?
    decreases s, fuel, 0
  {
    if fuel == 0 then R(Stuck, st)
    else
      match EvalTest(fn, s.test, st)
      case Yields(vs, w) =>
        if First(vs) == 0 then R(Normal, w) else EndTurn(fn, s, lab, ExecBlock(fn, s.body, w, fuel), fuel)
      case o => Lift(o, Normal, st)
  }

  ghost function EndTurn(fn: Fn, s: Stmt, lab: Name, r: R, fuel: nat): R
    requires s.For? && fuel > 0
    decreases s, fuel - 1, 3
  {
    if r.c.BreakTo? && Mine(r.c.lab, lab) then R(Normal, r.st)
    else if r.c.Normal? || (r.c.ContinueTo? && Mine(r.c.lab, lab)) then
      var p := ExecBlock(fn, s.post, r.st, fuel);
      if p.c.Normal? then Loop(fn, s, lab, p.st, fuel - 1) else p
    else r
  }

  ghost function RangeLoop(fn: Fn, s: Stmt, lab: Name, st: State, fuel: nat): R
    requires s.Range?
    decreases s, fuel, 0
  {
    if fuel == 0 then R(Stuck, st)
    else
      match Apply(fn, NEXT, [], st)
      case Raises(w) => R(Thrown, w)
      case Fault => R(Thrown, st)
      case Yields(vs, w) =>
        if vs == [] then R(Normal, w)
        else
          match EvalTargets(fn, s.targets, w)
          case Yields(_, w') =>
            (match StoreAll(fn, s.targets, vs, w')
             case Yields(_, w'') => EndRangeTurn(fn, s, lab, ExecBlock(fn, s.body, w'', fuel), fuel)
             case o => Lift(o, Normal, w'))
          case o => Lift(o, Normal, w)
  }

  ghost function EndRangeTurn(fn: Fn, s: Stmt, lab: Name, r: R, fuel: nat): R
    requires s.Range? && fuel > 0
    decreases s, fuel - 1, 3
  {
    if r.c.BreakTo? && Mine(r.c.lab, lab) then R(Normal, r.st)
    else if r.c.Normal? || (r.c.ContinueTo? && Mine(r.c.lab, lab)) then RangeLoop(fn, s, lab, r.st, fuel - 1)
    else r
  }

  /** Guards run in source order until one holds: without a tag when it is true,
      with one when it equals the tag. */
  datatype Selection = Chosen(index: int, st: State) | Failed(o: Outcome)

  ghost function Guards(fn: Fn, tag: Option<Val>, guards: Exprs, index: int, st: State): Selection
    decreases guards
  {
    match guards
    case NoExprs => Chosen(-1, st)
    case More(h, rest) =>
      match Eval(fn, h, st)
      case Yields(vs, w) =>
        if Holds(tag, First(vs)) then Chosen(index, w) else Guards(fn, tag, rest, index, w)
      case o => Failed(o)
  }

  predicate Holds(tag: Option<Val>, v: Val) {
    if tag.Some? then v == tag.value else v != 0
  }

  ghost function Choose(fn: Fn, tag: Option<Val>, cs: Clauses, index: int, st: State): Selection
    decreases cs
  {
    match cs
    case NoClauses => Chosen(-1, st)
    case Clause(isDefault, guards, _, rest) =>
      if isDefault then Choose(fn, tag, rest, index + 1, st)
      else
        match Guards(fn, tag, guards, index, st)
        case Failed(o) => Failed(o)
        case Chosen(i, w) => if i >= 0 then Chosen(i, w) else Choose(fn, tag, rest, index + 1, w)
  }

  function DefaultIndex(cs: Clauses, index: int): int {
    match cs
    case NoClauses => -1
    case Clause(isDefault, _, _, rest) => if isDefault then index else DefaultIndex(rest, index + 1)
  }

  ghost function ExecSwitch(fn: Fn, s: Stmt, lab: Name, st: State, fuel: nat): R
    requires s.Switch?
    decreases s, fuel, 1
  {
    match EvalTest(fn, s.tag, st)
    case Yields(vs, w) =>
      (match Choose(fn, if s.tag.Some? then Some(First(vs)) else None, s.clauses, 0, w)
       case Failed(o) => Lift(o, Normal, w)
       case Chosen(k, w') =>
         var index := if k >= 0 then k else DefaultIndex(s.clauses, 0);
         if index < 0 then R(Normal, w')
         else
           var r := RunClauses(fn, s.clauses, index, w', fuel);
           if r.c.BreakTo? && Mine(r.c.lab, lab) then R(Normal, r.st) else r)
    case o => Lift(o, Normal, st)
  }

  ghost function RunClauses(fn: Fn, cs: Clauses, k: int, st: State, fuel: nat): R
    decreases cs, fuel, 1
  {
    match cs
    case NoClauses => R(Normal, st)
    case Clause(_, _, body, rest) =>
      if k > 0 then RunClauses(fn, rest, k - 1, st, fuel)
      else
        var r := ExecBlock(fn, body, st, fuel);
        if r.c.Fell? then RunClauses(fn, rest, 0, r.st, fuel) else r
  }
}
