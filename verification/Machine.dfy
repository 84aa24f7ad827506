/** A big-step machine for function bodies. It runs source statements directly
    (`Try` has the meaning the language gives it) and generated statements the
    way Go runs them: closures are calls, deferred functions run in reverse order
    when their call ends, a panic in a deferred function replaces a pending one.

    Expressions are evaluated by `fn.ev`, an arbitrary function of the expression
    and the program's state, so every theorem covers every value, every side
    effect and every exception an expression may produce. Fuel bounds only the
    number of turns of each loop; `Stuck` means that it ran out. */
module Machine {
  import opened Syntax

  /** What user code can observe. Fields and heap cells are present exactly when
      they have been written; reading an absent one yields zero. `early` collects
      the fields, and `unset` the variables, that some evaluation mentioned before
      they were first written. */
  datatype User = User(
    env: map<Name, nat>, heap: map<nat, Val>, next: nat, obj: map<Name, Val>, world: int,
    early: set<Name>, unset: set<nat>)

  datatype Deferred = Restore(temp: nat) | Callback(v: Val) | RunDefers

  /** One Go call frame: the `ghi_saved_N` locals and the pending deferred calls. */
  datatype Frame = Frame(saved: map<nat, int>, defers: seq<Deferred>)

  const EMPTY_FRAME := Frame(map[], [])

  /** `results` are Go's anonymous result parameters, `locals` the `ghi_return_N`
      variables, `registered` the list behind `ghi_defers`. */
  datatype State = State(
    u: User, results: seq<Val>, locals: seq<Val>, flow: int, registered: seq<Val>, frame: Frame)

  datatype Outcome = Yields(vals: seq<Val>, u: User) | Raises(v: Val, native: bool, u: User)

  datatype Fn = Fn(ev: (Expr, User) -> Outcome, slots: Slots)

  /** How a statement completes. A native panic is not catchable by `catch`. */
  datatype Comp =
    | Normal
    | BreakTo(lab: Name)
    | ContinueTo(lab: Name)
    | Fell
    | Returned
    | Thrown(v: Val, native: bool)
    | Stuck

  datatype R = R(c: Comp, st: State)

  /** Nothing an expression does can unwrite a cell or rebind a name. */
  ghost function Keep(before: User, after: User): User {
    User(before.env, before.heap + after.heap, if after.next < before.next then before.next else after.next,
         before.obj + after.obj, after.world, before.early, before.unset)
  }

  ghost function UnsetCells(u: User, xs: set<Name>): set<nat> {
    set x | x in xs && x in u.env && u.env[x] !in u.heap :: u.env[x]
  }

  ghost function Noted(e: Expr, u: User): User {
    u.(early := u.early + (Fields(e) - u.obj.Keys), unset := u.unset + UnsetCells(u, Vars(e)))
  }

  ghost function EvalExpr(fn: Fn, e: Expr, u: User): Outcome {
    if e.True? then Yields([1], u)
    else
      match fn.ev(e, Noted(e, u))
      case Yields(vs, w) => Yields(vs, Keep(Noted(e, u), w))
      case Raises(v, native, w) => Raises(v, native, Keep(Noted(e, u), w))
  }

  ghost function EvalAll(fn: Fn, es: seq<Expr>, u: User): Outcome
    decreases |es|
  {
    if es == [] then Yields([], u)
    else
      match EvalExpr(fn, es[0], u)
      case Raises(v, n, w) => Raises(v, n, w)
      case Yields(vs, w) =>
        match EvalAll(fn, es[1..], w)
        case Raises(v, n, w') => Raises(v, n, w')
        case Yields(rest, w') => Yields(vs + rest, w')
  }

  function First(vals: seq<Val>): Val {
    if vals == [] then 0 else vals[0]
  }

  function Rest(vals: seq<Val>): seq<Val> {
    if vals == [] then [] else vals[1..]
  }

  /** Operands of indexed targets are evaluated before anything is stored. */
  function Operands(lhs: seq<Lhs>): seq<Expr>
    decreases |lhs|
  {
    if lhs == [] then []
    else (if lhs[0].At? then [lhs[0].e] else []) + Operands(lhs[1..])
  }

  ghost function Store(fn: Fn, target: Lhs, v: Val, u: User): Outcome {
    match target
    case Var(x) => Yields([], if x in u.env then u.(heap := u.heap[u.env[x] := v]) else u)
    case Field(f) => Yields([], u.(obj := u.obj[f := v]))
    case At(e) => EvalExpr(fn, Put(e, v), u)
  }

  ghost function StoreAll(fn: Fn, lhs: seq<Lhs>, vals: seq<Val>, u: User): Outcome
    decreases |lhs|
  {
    if lhs == [] then Yields([], u)
    else
      match Store(fn, lhs[0], First(vals), u)
      case Raises(v, n, w) => Raises(v, n, w)
      case Yields(_, w) => StoreAll(fn, lhs[1..], Rest(vals), w)
  }

  ghost function AssignAll(fn: Fn, lhs: seq<Lhs>, rhs: seq<Expr>, u: User): Outcome {
    match EvalAll(fn, Operands(lhs) + rhs, u)
    case Raises(v, n, w) => Raises(v, n, w)
    case Yields(vs, w) => StoreAll(fn, lhs, if |Operands(lhs)| <= |vs| then vs[|Operands(lhs)|..] else [], w)
  }

  ghost function Bind(names: seq<Name>, vals: seq<Val>, u: User): User
    decreases |names|
  {
    if names == [] then u
    else Bind(names[1..], Rest(vals),
              u.(env := u.env[names[0] := u.next], heap := u.heap[u.next := First(vals)], next := u.next + 1))
  }

  /** Writes to `cells` what the variables `names` held in `from`; copying a
      variable that was never written writes nothing. */
  ghost function CopyCells(names: seq<Name>, cells: seq<nat>, from: User, u: User): User
    decreases |names|
  {
    if names == [] || cells == [] then u
    else
      CopyCells(names[1..], cells[1..], from,
                if names[0] in from.env && from.env[names[0]] in from.heap
                then u.(heap := u.heap[cells[0] := from.heap[from.env[names[0]]]]) else u)
  }

  ghost function SetCells(cells: seq<nat>, vals: seq<Val>, u: User): User
    decreases |cells|
  {
    if cells == [] then u
    else SetCells(cells[1..], Rest(vals), u.(heap := u.heap[cells[0] := First(vals)]))
  }

  function Vars2Lhs(names: seq<Name>): seq<Lhs> {
    seq(|names|, i requires 0 <= i < |names| => Var(names[i]))
  }

  ghost function Lift(o: Outcome, st: State): R {
    match o
    case Yields(_, w) => R(Normal, st.(u := w))
    case Raises(v, n, w) => R(Thrown(v, n), st.(u := w))
  }

  /** `return es` writes the result cells, whatever names are in scope. */
  ghost function SetResults(fn: Fn, vals: seq<Val>, st: State): State {
    match fn.slots
    case Named(_, cells) => st.(u := SetCells(cells, vals, st.u))
    case Unnamed(_) => st.(results := vals)
  }

  ghost function RunReturn(fn: Fn, es: seq<Expr>, st: State): R {
    if es == [] then R(Returned, st)
    else
      match EvalAll(fn, es, st.u)
      case Raises(v, n, w) => R(Thrown(v, n), st.(u := w))
      case Yields(vs, w) => R(Returned, SetResults(fn, vs, st.(u := w)))
  }

  ghost function RunSetSlots(fn: Fn, es: seq<Expr>, st: State): R {
    match fn.slots
    case Named(names, _) => Lift(AssignAll(fn, Vars2Lhs(names), es, st.u), st)
    case Unnamed(_) =>
      match EvalAll(fn, es, st.u)
      case Raises(v, n, w) => R(Thrown(v, n), st.(u := w))
      case Yields(vs, w) => R(Normal, st.(u := w, locals := vs))
  }

  ghost function RunReturnSlots(fn: Fn, st: State): R {
    match fn.slots
    case Named(names, cells) => R(Returned, st.(u := CopyCells(names, cells, st.u, st.u)))
    case Unnamed(_) => R(Returned, st.(results := st.locals))
  }

  predicate Mine(target: Name, lab: Name) {
    target == NO_LABEL || target == lab
  }

  /** Leaves the scope opened at `env`. */
  ghost function Leave(r: R, env: map<Name, nat>): R {
    r.(st := r.st.(u := r.st.u.(env := env)))
  }

  ghost function EvalCond(fn: Fn, c: Cond, u: User): Outcome {
    match c
    case Always => Yields([1], u)
    case When(e) => EvalExpr(fn, e, u)
  }

  /** Case guards run in source order until one equals the tag. */
  datatype Choice = Chosen(index: int, u: User) | ChoiceRaises(v: Val, native: bool, u: User)

  ghost function Guards(fn: Fn, guards: seq<Expr>, tag: Val, index: int, u: User): Choice
    decreases |guards|
  {
    if guards == [] then Chosen(-1, u)
    else
      match EvalExpr(fn, guards[0], u)
      case Raises(v, n, w) => ChoiceRaises(v, n, w)
      case Yields(vs, w) => if First(vs) == tag then Chosen(index, w) else Guards(fn, guards[1..], tag, index, w)
  }

  ghost function Choose(fn: Fn, cs: Clauses, tag: Val, index: int, u: User): Choice
    decreases cs
  {
    match cs
    case NoClauses => Chosen(-1, u)
    case Clause(isDefault, guards, _, rest) =>
      if isDefault then Choose(fn, rest, tag, index + 1, u)
      else
        match Guards(fn, guards, tag, index, u)
        case ChoiceRaises(v, n, w) => ChoiceRaises(v, n, w)
        case Chosen(i, w) => if i >= 0 then Chosen(i, w) else Choose(fn, rest, tag, index + 1, w)
  }

  function DefaultIndex(cs: Clauses, index: int): int {
    match cs
    case NoClauses => -1
    case Clause(isDefault, _, _, rest) => if isDefault then index else DefaultIndex(rest, index + 1)
  }

  predicate Nested(ds: seq<Deferred>) {
    exists i :: 0 <= i < |ds| && ds[i].RunDefers?
  }

  function AsCallbacks(vs: seq<Val>): (ds: seq<Deferred>)
    ensures !Nested(ds)
  {
    seq(|vs|, i requires 0 <= i < |vs| => Callback(vs[i]))
  }

  /** Deferred calls run last to first; each sees the panic in flight. */
  ghost function RunDeferred(fn: Fn, ds: seq<Deferred>, c: Comp, st: State): R
    decreases Nested(ds), |ds|
  {
    if ds == [] then R(c, st)
    else
      var r := RunOne(fn, ds[|ds| - 1], c, st);
      RunDeferred(fn, ds[..|ds| - 1], r.c, r.st)
  }

  ghost function RunOne(fn: Fn, d: Deferred, c: Comp, st: State): R
    decreases d.RunDefers?, 0, 1
  {
    match d
    case Restore(temp) =>
      R(c, if st.flow == 0 && temp in st.frame.saved then st.(flow := st.frame.saved[temp]) else st)
    case Callback(v) => RunCallback(fn, v, c, st)
    case RunDefers => RunCallbacks(fn, st.registered, c, st)
  }

  ghost function RunCallback(fn: Fn, v: Val, c: Comp, st: State): R {
    match EvalExpr(fn, Call(v), st.u)
    case Yields(_, w) => R(c, st.(u := w))
    case Raises(x, n, w) => R(Thrown(x, n), st.(u := w))
  }

  /** The runtime's `RunDefers`: recover, defer every callback in registration
      order, panic again with what was recovered. */
  ghost function RunCallbacks(fn: Fn, vs: seq<Val>, c: Comp, st: State): R
    decreases true, 0, 0
  {
    var ended := if c.Thrown? then c else Normal;
    var r := RunDeferred(fn, AsCallbacks(vs), ended, st);
    R(if r.c.Thrown? then r.c else c, r.st)
  }

  ghost function Push(st: State, d: Deferred): State {
    st.(frame := st.frame.(defers := st.frame.defers + [d]))
  }

  ghost function RunDeferStmt(fn: Fn, e: Expr, native: bool, st: State): R {
    match EvalExpr(fn, e, st.u)
    case Raises(v, n, w) => R(Thrown(v, n), st.(u := w))
    case Yields(vs, w) =>
      R(Normal, if native then Push(st.(u := w), Callback(First(vs)))
                else st.(u := w, registered := st.registered + [First(vs)]))
  }

  /** The source meaning of `finally`: a pending exception wins over a finalizer
      that returns or jumps; anything else pending is overridden by it. */
  ghost function Pending(c: Comp, r: R): R {
    if r.c.Stuck? then r
    else if c.Thrown? then (if r.c.Thrown? then r else R(c, r.st))
    else if r.c.Normal? then R(c, r.st)
    else r
  }

  ghost function WithCaught(u: User, v: Val): User {
    Bind(["ghi_caught"], [v], u)
  }

  ghost predicate Catches(c: Comp, handler: Closure) {
    c.Thrown? && !c.native && handler.Func?
  }

  /** A closure call ends: its deferred functions run in its own frame, a
      `return` ends only the closure. */
  ghost function EndCall(fn: Fn, r: R, caller: State): R {
    if r.c.Stuck? then r
    else
      var e := RunDeferred(fn, r.st.frame.defers, r.c, r.st);
      R(if e.c.Returned? then Normal else e.c,
        e.st.(frame := caller.frame, u := e.st.u.(env := caller.u.env)))
  }

  ghost function Enter(st: State): State {
    st.(frame := EMPTY_FRAME)
  }

  ghost function Exec(fn: Fn, s: Stmt, lab: Name, st: State, fuel: nat): R
    decreases s, fuel, 2
  {
    match s
    case Scope(body) => Leave(ExecBlock(fn, body, st, fuel), st.u.env)
    case If(_, _, _, _) => ExecIf(fn, s, st, fuel)
    case For(_, _, _, _) => ExecFor(fn, s, lab, st, fuel)
    case Range(_, _, over, _) =>
      (match EvalExpr(fn, over, st.u)
       case Raises(v, n, w) => R(Thrown(v, n), st.(u := w))
       case Yields(_, w) => RangeLoop(fn, s, lab, st.(u := w), fuel))
    case Switch(_, _, _) => ExecSwitch(fn, s, lab, st, fuel)
    case Try(_, _, _) => ExecTry(fn, s, st, fuel)
    case RtTry(_, _, _) => ExecRtTry(fn, s, st, fuel)
    case OnFlow(code, thn) =>
      if st.flow == code then Leave(ExecBlock(fn, thn, st, fuel), st.u.env) else R(Normal, st)
    case OnAnyFlow(thn) =>
      if st.flow != 0 then Leave(ExecBlock(fn, thn, st, fuel), st.u.env) else R(Normal, st)
    case _ => ExecBasic(fn, s, st, fuel)
  }

  /** Statements that contain no block. */
  ghost function ExecBasic(fn: Fn, s: Stmt, st: State, fuel: nat): R
    decreases s, fuel, 0
  {
    match s
    case Eval(e) => Lift(EvalExpr(fn, e, st.u), st)
    case Parent(e) =>
      (match EvalExpr(fn, e, st.u)
       case Raises(v, n, w) => R(Thrown(v, n), st.(u := w))
       case Yields(vs, w) => R(Normal, st.(u := w.(obj := w.obj["@parent" := First(vs)]))))
    case Throw(e) =>
      (match EvalExpr(fn, e, st.u)
       case Raises(v, n, w) => R(Thrown(v, n), st.(u := w))
       case Yields(vs, w) => R(Thrown(First(vs), false), st.(u := w)))
    case Panic(e) =>
      (match EvalExpr(fn, e, st.u)
       case Raises(v, n, w) => R(Thrown(v, n), st.(u := w))
       case Yields(vs, w) => R(Thrown(First(vs), true), st.(u := w)))
    case Assign(lhs, rhs) => Lift(AssignAll(fn, lhs, rhs, st.u), st)
    case Declare(names, rhs) =>
      (match EvalAll(fn, rhs, st.u)
       case Raises(v, n, w) => R(Thrown(v, n), st.(u := w))
       case Yields(vs, w) => R(Normal, st.(u := Bind(names, vs, w))))
    case Return(es) => RunReturn(fn, es, st)
    case Break(l) => R(BreakTo(l), st)
    case Continue(l) => R(ContinueTo(l), st)
    case Fallthrough => R(Fell, st)
    case Labeled(l, inner) => Exec(fn, inner, l, st, fuel)
    case Defer(e) => RunDeferStmt(fn, e, true, st)
    case SetFlow(code) => R(Normal, st.(flow := code))
    case SaveFlow(temp) => R(Normal, st.(frame := st.frame.(saved := st.frame.saved[temp := st.flow])))
    case DeferRestore(temp) => R(Normal, Push(st, Restore(temp)))
    case SetSlots(es) => RunSetSlots(fn, es, st)
    case ReturnSlots => RunReturnSlots(fn, st)
    case Register(e) => RunDeferStmt(fn, e, false, st)
    case DeferRunDefers => R(Normal, Push(st.(registered := []), RunDefers))
    case DeclareSignal(n) => R(Normal, st.(flow := 0, locals := seq(n, _ => 0)))
    case _ => R(Normal, st)
  }

  ghost function ExecIf(fn: Fn, s: Stmt, st: State, fuel: nat): R
    requires s.If?
    decreases s, fuel, 1
  {
    var i := ExecBlock(fn, s.init, st, fuel);
    if !i.c.Normal? then Leave(i, st.u.env)
    else
      match EvalExpr(fn, s.test, i.st.u)
      case Raises(v, n, w) => Leave(R(Thrown(v, n), i.st.(u := w)), st.u.env)
      case Yields(vs, w) =>
        Leave(ExecBlock(fn, if First(vs) != 0 then s.thn else s.els, i.st.(u := w), fuel), st.u.env)
  }

  ghost function ExecFor(fn: Fn, s: Stmt, lab: Name, st: State, fuel: nat): R
    requires s.For?
    decreases s, fuel, 1
  {
    var i := ExecBlock(fn, s.init, st, fuel);
    Leave(if !i.c.Normal? then i else Loop(fn, s, lab, i.st, fuel), st.u.env)
  }

  ghost function ExecSwitch(fn: Fn, s: Stmt, lab: Name, st: State, fuel: nat): R
    requires s.Switch?
    decreases s, fuel, 1
  {
    var i := ExecBlock(fn, s.init, st, fuel);
    if !i.c.Normal? then Leave(i, st.u.env)
    else
      match EvalCond(fn, s.tag, i.st.u)
      case Raises(v, n, w) => Leave(R(Thrown(v, n), i.st.(u := w)), st.u.env)
      case Yields(vs, w) => Leave(ExecCases(fn, s.clauses, First(vs), lab, i.st.(u := w), fuel), st.u.env)
  }

  /** Runs the clause whose guard equals the tag, else the default clause. */
  ghost function ExecCases(fn: Fn, cs: Clauses, tag: Val, lab: Name, st: State, fuel: nat): R
    decreases cs, fuel, 2
  {
    match Choose(fn, cs, tag, 0, st.u)
    case ChoiceRaises(v, n, w) => R(Thrown(v, n), st.(u := w))
    case Chosen(k, w) =>
      var index := if k >= 0 then k else DefaultIndex(cs, 0);
      if index < 0 then R(Normal, st.(u := w))
      else
        var r := RunClauses(fn, cs, index, st.(u := w), fuel);
        if r.c.BreakTo? && Mine(r.c.lab, lab) then r.(c := Normal) else r
  }

  ghost function ExecTry(fn: Fn, s: Stmt, st: State, fuel: nat): R
    requires s.Try?
    decreases s, fuel, 1
  {
    var b := Leave(ExecBlock(fn, s.body, st, fuel), st.u.env);
    var h := if Catches(b.c, s.handler)
             then Leave(ExecBlock(fn, s.handler.body, b.st.(u := WithCaught(b.st.u, b.c.v)), fuel), st.u.env)
             else b;
    if h.c.Stuck? || s.finalizer.NoClosure? then h
    else Pending(h.c, Leave(ExecBlock(fn, s.finalizer.body, h.st, fuel), st.u.env))
  }

  /** The runtime's Try: the finalizer is deferred first, the recovering handler
      second, so the handler runs first; a panic in either replaces the pending
      one, and only the handler recovers. */
  ghost function ExecRtTry(fn: Fn, s: Stmt, st: State, fuel: nat): R
    requires s.RtTry?
    decreases s, fuel, 1
  {
    var b := EndCall(fn, ExecBlock(fn, s.body, Enter(st), fuel), st);
    var h := if Catches(b.c, s.handler)
             then EndCall(fn, ExecBlock(fn, s.handler.body, Enter(b.st.(u := WithCaught(b.st.u, b.c.v))), fuel), st)
             else b;
    if h.c.Stuck? || s.finalizer.NoClosure? then h
    else
      var f := EndCall(fn, ExecBlock(fn, s.finalizer.body, Enter(h.st), fuel), st);
      R(if f.c.Stuck? || f.c.Thrown? then f.c else h.c, f.st)
  }

  ghost function ExecBlock(fn: Fn, b: Block, st: State, fuel: nat): R
    decreases b, fuel, 1
  {
    match b
    case Nil => R(Normal, st)
    case Cons(h, t) =>
      var r := Exec(fn, h, NO_LABEL, st, fuel);
      if r.c.Normal? then ExecBlock(fn, t, r.st, fuel) else r
  }

  ghost function Loop(fn: Fn, s: Stmt, lab: Name, st: State, fuel: nat): R
    requires s.For?
    decreases s, fuel, 0
  {
    if fuel == 0 then R(Stuck, st)
    else
      match EvalCond(fn, s.cond, st.u)
      case Raises(v, n, w) => R(Thrown(v, n), st.(u := w))
      case Yields(vs, w) =>
        if First(vs) == 0 then R(Normal, st.(u := w))
        else EndTurn(fn, s, lab, Leave(ExecBlock(fn, s.body, st.(u := w), fuel), st.u.env), fuel)
  }

  /** After the body: leave the loop, or run the post statement and turn again. */
  ghost function EndTurn(fn: Fn, s: Stmt, lab: Name, r: R, fuel: nat): R
    requires s.For? && fuel > 0
    decreases s, fuel - 1, 3
  {
    if r.c.BreakTo? && Mine(r.c.lab, lab) then r.(c := Normal)
    else if r.c.Normal? || (r.c.ContinueTo? && Mine(r.c.lab, lab)) then NextTurn(fn, s, lab, r.st, fuel)
    else r
  }

  ghost function NextTurn(fn: Fn, s: Stmt, lab: Name, st: State, fuel: nat): R
    requires s.For? && fuel > 0
    decreases s, fuel - 1, 2
  {
    var p := ExecBlock(fn, s.post, st, fuel);
    if p.c.Normal? then Loop(fn, s, lab, p.st, fuel - 1) else p
  }

  /** Binds the values of one turn: fresh variables with `:=`, targets with `=`. */
  ghost function BindTurn(fn: Fn, s: Stmt, vals: seq<Val>, u: User): Outcome
    requires s.Range?
  {
    if s.lhs == [] then Yields([], Bind(s.names, vals, u))
    else
      match EvalAll(fn, Operands(s.lhs), u)
      case Raises(v, n, w) => Raises(v, n, w)
      case Yields(_, w) => StoreAll(fn, s.lhs, vals, w)
  }

  ghost function RangeLoop(fn: Fn, s: Stmt, lab: Name, st: State, fuel: nat): R
    requires s.Range?
    decreases s, fuel, 0
  {
    if fuel == 0 then R(Stuck, st)
    else
      match EvalExpr(fn, Next(s.over), st.u)
      case Raises(v, n, w) => R(Thrown(v, n), st.(u := w))
      case Yields(vs, w) =>
        if vs == [] then R(Normal, st.(u := w))
        else
          match BindTurn(fn, s, vs, w)
          case Raises(v, n, w') => R(Thrown(v, n), st.(u := w'.(env := st.u.env)))
          case Yields(_, w') =>
            EndRangeTurn(fn, s, lab, Leave(ExecBlock(fn, s.body, st.(u := w'), fuel), st.u.env), fuel)
  }

  ghost function EndRangeTurn(fn: Fn, s: Stmt, lab: Name, r: R, fuel: nat): R
    requires s.Range? && fuel > 0
    decreases s, fuel - 1, 3
  {
    if r.c.BreakTo? && Mine(r.c.lab, lab) then r.(c := Normal)
    else if r.c.Normal? || (r.c.ContinueTo? && Mine(r.c.lab, lab)) then RangeLoop(fn, s, lab, r.st, fuel - 1)
    else r
  }

  /** Runs the clause bodies from position `k`, falling through where asked. */
  ghost function RunClauses(fn: Fn, cs: Clauses, k: int, st: State, fuel: nat): R
    decreases cs, fuel, 1
  {
    match cs
    case NoClauses => R(Normal, st)
    case Clause(_, _, body, rest) =>
      if k > 0 then RunClauses(fn, rest, k - 1, st, fuel)
      else
        var r := Leave(ExecBlock(fn, body, st, fuel), st.u.env);
        if r.c.Fell? then RunClauses(fn, rest, 0, r.st, fuel) else r
  }

  /** A whole function: fresh frame, body, then the frame's deferred calls. */
  ghost function RunFunction(fn: Fn, body: Block, st: State, fuel: nat): R {
    var r := ExecBlock(fn, body, Enter(st), fuel);
    if r.c.Stuck? then r else RunDeferred(fn, r.st.frame.defers, r.c, r.st)
  }
}
