/** Definite initialization of constructor fields
    (internal/compiler/construction_flow.go, internal/compiler/construction.go). */
module Construction {
  import opened Options
  import opened Syntax

  /** How a path leaves a statement, as the analysis distinguishes it. */
  datatype Flow = ToNext | ToBreak | ToContinue | ToFallthrough | ToReturn | ToThrow

  datatype Exit = Exit(state: set<Name>, flow: Flow)

  datatype Verdict = Verdict(exits: seq<Exit>, ok: bool)

  function Onward(state: set<Name>): seq<Exit> {
    [Exit(state, ToNext)]
  }

  /** Position of the first exit with this flow, or -1. */
  function Position(exits: seq<Exit>, flow: Flow): (i: int)
    ensures -1 <= i < |exits|
    ensures i >= 0 ==> exits[i].flow == flow
    ensures forall j :: 0 <= j < (if i < 0 then |exits| else i) ==> exits[j].flow != flow
    decreases |exits|
  {
    if exits == [] then -1
    else if exits[0].flow == flow then 0
    else
      var i := Position(exits[1..], flow);
      assert forall j :: 1 <= j < |exits| ==> exits[j] == exits[1..][j - 1];
      if i < 0 then -1 else i + 1
  }

  function MergeInto(result: seq<Exit>, e: Exit): seq<Exit> {
    var i := Position(result, e.flow);
    if i < 0 then result + [e] else result[i := Exit(result[i].state * e.state, e.flow)]
  }

  /** One exit per flow, holding what every exit with that flow holds. */
  function Merge(exits: seq<Exit>): seq<Exit>
    decreases |exits|
  {
    if exits == [] then [] else MergeInto(Merge(exits[..|exits| - 1]), exits[|exits| - 1])
  }

  /** What a statement makes of the exits of its body: a loop or switch takes its
      own jumps, `try` catches, a finalizer that ends normally lets the pending
      flow go on. Exits that go nowhere are dropped. */
  datatype Route = OutOfLoop | OutOfRange | OutOfClause | IntoNextClause | Uncaught | AfterFinalizer(pending: Flow)

  function Via(route: Route, flow: Flow): Option<Flow> {
    match route
    case OutOfLoop =>
      if flow == ToBreak then Some(ToNext) else if flow == ToNext || flow == ToContinue then None else Some(flow)
    case OutOfRange => if flow == ToReturn || flow == ToThrow then Some(flow) else None
    case OutOfClause =>
      if flow == ToBreak then Some(ToNext) else if flow == ToFallthrough then None else Some(flow)
    case IntoNextClause => if flow == ToFallthrough then Some(ToNext) else None
    case Uncaught => if flow == ToThrow then None else Some(flow)
    case AfterFinalizer(pending) => if flow == ToNext then Some(pending) else Some(flow)
  }

  function Reroute(exits: seq<Exit>, route: Route): seq<Exit>
    decreases |exits|
  {
    if exits == [] then []
    else
      match Via(route, exits[0].flow)
      case None => Reroute(exits[1..], route)
      case Some(flow) => [exits[0].(flow := flow)] + Reroute(exits[1..], route)
  }

  predicate ReadOk(req: set<Name>, e: Expr, state: set<Name>) {
    Fields(e) * req <= state
  }

  predicate ReadsOk(req: set<Name>, es: seq<Expr>, state: set<Name>) {
    forall i :: 0 <= i < |es| ==> ReadOk(req, es[i], state)
  }

  /** Targets from left to right: a field becomes initialized, the operands of
      any other target are read in the state reached so far. */
  function Targets(req: set<Name>, lhs: seq<Lhs>, state: set<Name>): Verdict
    decreases |lhs|
  {
    if lhs == [] then Verdict(Onward(state), true)
    else
      match lhs[0]
      case Field(f) => Targets(req, lhs[1..], state + {f})
      case Var(_) => Targets(req, lhs[1..], state)
      case At(e) =>
        var v := Targets(req, lhs[1..], state);
        v.(ok := v.ok && ReadOk(req, e, state))
  }

  /** Every field mentioned in a statement the analysis does not look into. */
  function Mentions(s: Stmt): set<Name>
    decreases s
  {
    match s
    case Eval(e) => Fields(e)
    case Parent(e) => Fields(e)
    case Throw(e) => Fields(e)
    case Panic(e) => Fields(e)
    case Assign(lhs, rhs) => LhsMentions(lhs) + ExprsMention(rhs)
    case Declare(_, rhs) => ExprsMention(rhs)
    case Return(es) => ExprsMention(es)
    case Scope(body) => BlockMentions(body)
    case If(init, test, thn, els) => BlockMentions(init) + Fields(test) + BlockMentions(thn) + BlockMentions(els)
    case For(init, cond, post, body) =>
      BlockMentions(init) + CondMentions(cond) + BlockMentions(post) + BlockMentions(body)
    case Range(_, lhs, over, body) => LhsMentions(lhs) + Fields(over) + BlockMentions(body)
    case Switch(init, tag, clauses) => BlockMentions(init) + CondMentions(tag) + ClausesMention(clauses)
    case Labeled(_, inner) => Mentions(inner)
    case Defer(e) => Fields(e)
    case Try(body, handler, finalizer) => BlockMentions(body) + ClosureMentions(handler) + ClosureMentions(finalizer)
    case _ => {}
  }

  function ExprsMention(es: seq<Expr>): set<Name> {
    set e, f | e in es && f in Fields(e) :: f
  }

  function LhsMentions(lhs: seq<Lhs>): set<Name> {
    (set t | t in lhs && t.Field? :: t.f) + (set t, f | t in lhs && t.At? && f in Fields(t.e) :: f)
  }

  function CondMentions(c: Cond): set<Name> {
    if c.When? then Fields(c.e) else {}
  }

  function BlockMentions(b: Block): set<Name>
    decreases b
  {
    match b
    case Nil => {}
    case Cons(h, t) => Mentions(h) + BlockMentions(t)
  }

  function ClausesMention(cs: Clauses): set<Name>
    decreases cs
  {
    match cs
    case NoClauses => {}
    case Clause(_, guards, body, rest) => ExprsMention(guards) + BlockMentions(body) + ClausesMention(rest)
  }

  function ClosureMentions(c: Closure): set<Name>
    decreases c
  {
    match c
    case NoClosure => {}
    case Func(body) => BlockMentions(body)
  }

  function Reading(req: set<Name>, es: seq<Expr>, state: set<Name>, exits: seq<Exit>): Verdict {
    Verdict(exits, ReadsOk(req, es, state))
  }

  function CondExprs(c: Cond): seq<Expr> {
    if c.When? then [c.e] else []
  }

  function Step(req: set<Name>, s: Stmt, state: set<Name>): Verdict
    decreases s, 3, 0
  {
    match s
    case Assign(lhs, rhs) =>
      var v := Targets(req, lhs, state);
      v.(ok := v.ok && ReadsOk(req, rhs, state))
    case Eval(e) => Reading(req, [e], state, Onward(state))
    case Panic(e) => Reading(req, [e], state, Onward(state))
    case Parent(e) => Reading(req, [e], state, Onward(state + {"@parent"}))
    case Throw(e) => Reading(req, [e], state, [Exit(state, ToThrow)])
    case Declare(_, rhs) => Reading(req, rhs, state, Onward(state))
    case Return(es) => Reading(req, es, state, [Exit(state, ToReturn)])
    case Break(l) => Verdict([Exit(state, ToBreak)], l == NO_LABEL)
    case Continue(l) => Verdict([Exit(state, ToContinue)], l == NO_LABEL)
    case Fallthrough => Verdict([Exit(state, ToFallthrough)], true)
    case Scope(body) => Paths(req, body, Onward(state))
    case If(init, _, _, _) => Compound(req, s, init, state)
    case For(init, _, _, _) => Compound(req, s, init, state)
    case Switch(init, _, _) => Compound(req, s, init, state)
    case Range(_, _, over, body) =>
      var v := Paths(req, body, Onward(state));
      Verdict(Merge(Onward(state) + Reroute(v.exits, OutOfRange)), v.ok && ReadOk(req, over, state))
    case Try(_, _, _) => TryPaths(req, s, state)
    case Defer(e) => Reading(req, [e], state, Onward(state))
    case _ => Verdict(Onward(state), Mentions(s) * req <= state)
  }

  /** Statements with a header: the header first, then the rest from each of its
      normal exits. */
  function Compound(req: set<Name>, s: Stmt, init: Block, state: set<Name>): Verdict
    requires (s.If? && init == s.init) || (s.For? && init == s.init) || (s.Switch? && init == s.init)
    decreases s, 2, 0
  {
    var i := Paths(req, init, Onward(state));
    var e := Entries(req, s, i.exits);
    Verdict(Merge(e.exits), i.ok && e.ok)
  }

  function Entries(req: set<Name>, s: Stmt, entries: seq<Exit>): Verdict
    requires s.If? || s.For? || s.Switch?
    decreases s, 1, |entries|
  {
    if entries == [] then Verdict([], true)
    else
      var e := entries[0];
      var v := if e.flow != ToNext then Verdict([e], true)
               else Entry(req, s, e.state);
      var rest := Entries(req, s, entries[1..]);
      Verdict(v.exits + rest.exits, v.ok && rest.ok)
  }

  function Entry(req: set<Name>, s: Stmt, state: set<Name>): Verdict
    requires s.If? || s.For? || s.Switch?
    decreases s, 0, 1
  {
    if s.If? then IfEntry(req, s, state) else if s.For? then ForEntry(req, s, state) else SwitchEntry(req, s, state)
  }

  function IfEntry(req: set<Name>, s: Stmt, state: set<Name>): Verdict
    requires s.If?
    decreases s, 0, 0
  {
    var t := Paths(req, s.thn, Onward(state));
    var e := Paths(req, s.els, Onward(state));
    Verdict(t.exits + e.exits, ReadOk(req, s.test, state) && t.ok && e.ok)
  }

  /** The body is analysed once, from the state at the loop's entry. */
  function ForEntry(req: set<Name>, s: Stmt, state: set<Name>): Verdict
    requires s.For?
    decreases s, 0, 0
  {
    var b := Paths(req, s.body, Onward(state));
    var skipped := if Infinite(s.cond) then [] else Onward(state);
    Verdict(skipped + Reroute(b.exits, OutOfLoop),
            ReadsOk(req, CondExprs(s.cond), state) && b.ok && PostOk(req, s.post, b.exits))
  }

  /** The post statement is checked from every state that reaches it. */
  predicate PostOk(req: set<Name>, post: Block, exits: seq<Exit>)
    decreases post, 1, |exits|
  {
    exits == [] ||
    ((exits[0].flow == ToNext || exits[0].flow == ToContinue ==> Paths(req, post, Onward(exits[0].state)).ok)
     && PostOk(req, post, exits[1..]))
  }

  function SwitchEntry(req: set<Name>, s: Stmt, state: set<Name>): Verdict
    requires s.Switch?
    decreases s, 0, 0
  {
    var c := Cases(req, s.clauses, state, []);
    Verdict(if HasDefault(s.clauses) then c.exits else c.exits + Onward(state),
            ReadsOk(req, CondExprs(s.tag), state) && c.ok)
  }

  /** Each clause starts from the switch's entry and from what falls into it. */
  function Cases(req: set<Name>, cs: Clauses, state: set<Name>, fallen: seq<Exit>): Verdict
    decreases cs, 1, 0
  {
    match cs
    case NoClauses => Verdict([], true)
    case Clause(_, guards, body, rest) =>
      var b := Paths(req, body, Merge(Onward(state) + fallen));
      var r := Cases(req, rest, state, Reroute(b.exits, IntoNextClause));
      Verdict(Reroute(b.exits, OutOfClause) + r.exits, ReadsOk(req, guards, state) && b.ok && r.ok)
  }

  /** An exception may leave the body before any of its assignments completed, so
      the handler, or the finalizer without one, starts from the entry state. */
  function TryPaths(req: set<Name>, s: Stmt, state: set<Name>): Verdict
    requires s.Try?
    decreases s, 1, 0
  {
    var b := Paths(req, s.body, Onward(state));
    var h := if s.handler.Func? then Paths(req, s.handler.body, Onward(state)) else Verdict([], true);
    var exits := if s.handler.Func? then Merge(Reroute(b.exits, Uncaught) + h.exits)
                 else if s.finalizer.Func? then b.exits + [Exit(state, ToThrow)]
                 else b.exits;
    if s.finalizer.NoClosure? then Verdict(exits, b.ok && h.ok)
    else
      var f := Finally(req, s.finalizer.body, exits);
      Verdict(Merge(f.exits), b.ok && h.ok && f.ok)
  }

  /** The finalizer runs from every pending exit; ending normally it lets the
      pending flow go on. */
  function Finally(req: set<Name>, b: Block, pending: seq<Exit>): Verdict
    decreases b, 1, |pending|
  {
    if pending == [] then Verdict([], true)
    else
      var f := Paths(req, b, Onward(pending[0].state));
      var rest := Finally(req, b, pending[1..]);
      Verdict(Reroute(f.exits, AfterFinalizer(pending[0].flow)) + rest.exits, f.ok && rest.ok)
  }

  function Paths(req: set<Name>, b: Block, exits: seq<Exit>): Verdict
    decreases b, 0, 0
  {
    match b
    case Nil => Verdict(exits, true)
    case Cons(h, t) =>
      var v := StepEach(req, h, exits);
      var rest := Paths(req, t, Merge(v.exits));
      Verdict(rest.exits, v.ok && rest.ok)
  }

  function StepEach(req: set<Name>, s: Stmt, exits: seq<Exit>): Verdict
    decreases s, 4, |exits|
  {
    if exits == [] then Verdict([], true)
    else
      var v := if exits[0].flow != ToNext then Verdict([exits[0]], true) else Step(req, s, exits[0].state);
      var rest := StepEach(req, s, exits[1..]);
      Verdict(v.exits + rest.exits, v.ok && rest.ok)
  }

  /** No error was reported, and every normal exit initializes what is required. */
  predicate Accepts(req: set<Name>, body: Block) {
    var v := Paths(req, body, Onward({}));
    && v.ok
    && forall i :: 0 <= i < |v.exits| && (v.exits[i].flow == ToNext || v.exits[i].flow == ToReturn) ==>
         req <= v.exits[i].state
  }
}
