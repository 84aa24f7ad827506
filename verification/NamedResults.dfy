/** Initialization of nonnullable named results, checked on generated code
    (internal/compiler/named_results.go). Variables are identified by name: the
    code is one in which no declaration hides a required result. */
module NamedResults {
  import opened Options
  import opened Syntax

  datatype Flow = ToNext | ToBreak(lab: Name) | ToContinue(lab: Name) | ToFallthrough | ToReturn

  datatype Exit = Exit(state: set<Name>, flow: Flow)

  datatype Verdict = Verdict(exits: seq<Exit>, ok: bool)

  function Onward(state: set<Name>): seq<Exit> {
    [Exit(state, ToNext)]
  }

  /** Position of the first exit with this flow, or -1. */
  function Position(exits: seq<Exit>, flow: Flow): (i: int)
    ensures -1 <= i < |exits|
    ensures i >= 0 ==> exits[i].flow == flow
    ensures forall j :: 0 <= j < (if i < 0 then |exits| else i) ==> exits[j].flow != flow
    decreases |exits|
  {
    if exits == [] then -1
    else if exits[0].flow == flow then 0
    else
      var i := Position(exits[1..], flow);
      assert forall j :: 1 <= j < |exits| ==> exits[j] == exits[1..][j - 1];
      if i < 0 then -1 else i + 1
  }

  function MergeInto(result: seq<Exit>, e: Exit): seq<Exit> {
    var i := Position(result, e.flow);
    if i < 0 then result + [e] else result[i := Exit(result[i].state * e.state, e.flow)]
  }

  /** One exit per flow and label. */
  function Merge(exits: seq<Exit>): seq<Exit>
    decreases |exits|
  {
    if exits == [] then [] else MergeInto(Merge(exits[..|exits| - 1]), exits[|exits| - 1])
  }

  datatype Route = OutOfLoop | OutOfRange | OutOfClause | IntoNextClause | OutOfCallback

  function Via(route: Route, flow: Flow): Option<Flow> {
    match route
    case OutOfLoop =>
      if flow == ToBreak(NO_LABEL) then Some(ToNext)
      else if flow == ToNext || flow == ToContinue(NO_LABEL) then None else Some(flow)
    case OutOfRange =>
      if flow == ToNext || flow == ToBreak(NO_LABEL) || flow == ToContinue(NO_LABEL) then None else Some(flow)
    case OutOfClause =>
      if flow == ToBreak(NO_LABEL) then Some(ToNext) else if flow == ToFallthrough then None else Some(flow)
    case IntoNextClause => if flow == ToFallthrough then Some(ToNext) else None
    case OutOfCallback => if flow == ToReturn then Some(ToNext) else Some(flow)
  }

  function Reroute(exits: seq<Exit>, route: Route): seq<Exit>
    decreases |exits|
  {
    if exits == [] then []
    else
      match Via(route, exits[0].flow)
      case None => Reroute(exits[1..], route)
      case Some(flow) => [exits[0].(flow := flow)] + Reroute(exits[1..], route)
  }

  /** A jump to the label ends at the labelled statement, with nothing proved. */
  function Landed(e: Exit, l: Name): Exit {
    if e.flow == ToBreak(l) || e.flow == ToContinue(l) then Exit({}, ToNext) else e
  }

  function Relabel(exits: seq<Exit>, l: Name): seq<Exit> {
    seq(|exits|, i requires 0 <= i < |exits| => Landed(exits[i], l))
  }

  predicate ReadOk(req: set<Name>, e: Expr, state: set<Name>) {
    Vars(e) * req <= state
  }

  predicate ReadsOk(req: set<Name>, es: seq<Expr>, state: set<Name>) {
    forall i :: 0 <= i < |es| ==> ReadOk(req, es[i], state)
  }

  /** Targets from left to right: a variable becomes assigned, the operands of any
      other target are read in the state reached so far. */
  function Targets(req: set<Name>, lhs: seq<Lhs>, state: set<Name>): Verdict
    decreases |lhs|
  {
    if lhs == [] then Verdict(Onward(state), true)
    else
      match lhs[0]
      case Var(x) => Targets(req, lhs[1..], if x in req then state + {x} else state)
      case Field(_) => Targets(req, lhs[1..], state)
      case At(e) =>
        var v := Targets(req, lhs[1..], state);
        v.(ok := v.ok && ReadOk(req, e, state))
  }

  function Reading(req: set<Name>, es: seq<Expr>, state: set<Name>, exits: seq<Exit>): Verdict {
    Verdict(exits, ReadsOk(req, es, state))
  }

  function CondExprs(c: Cond): seq<Expr> {
    if c.When? then [c.e] else []
  }

  /** `callback` is set inside the function literals passed to Try, where a bare
      `return` returns nothing. */
  function Step(req: set<Name>, callback: bool, s: Stmt, state: set<Name>): Verdict
    decreases s, 3, 0
  {
    match s
    case Assign(lhs, rhs) =>
      var v := Targets(req, lhs, state);
      v.(ok := v.ok && ReadsOk(req, rhs, state))
    case SetSlots(es) => Reading(req, es, state, Onward(state + req))
    case Eval(e) => Reading(req, [e], state, Onward(state))
    case Register(e) => Reading(req, [e], state, Onward(state))
    case Defer(e) => Reading(req, [e], state, Onward(state))
    case Throw(e) => Reading(req, [e], state, [])
    case Panic(e) => Reading(req, [e], state, [])
    case Declare(_, rhs) => Reading(req, rhs, state, Onward(state))
    case Return(es) =>
      Verdict([Exit(state, ToReturn)], ReadsOk(req, es, state) && (es == [] && !callback ==> req <= state))
    case ReturnSlots => Verdict([Exit(state, ToReturn)], req <= state)
    case Break(l) => Verdict([Exit(state, ToBreak(l))], true)
    case Continue(l) => Verdict([Exit(state, ToContinue(l))], true)
    case Fallthrough => Verdict([Exit(state, ToFallthrough)], true)
    case Scope(body) => Paths(req, callback, body, Onward(state))
    case If(init, _, _, _) => Compound(req, callback, s, init, state)
    case For(init, _, _, _) => Compound(req, callback, s, init, state)
    case Switch(init, _, _) => Compound(req, callback, s, init, state)
    case OnFlow(_, thn) => Optional(req, callback, thn, state)
    case OnAnyFlow(thn) => Optional(req, callback, thn, state)
    case Range(_, _, over, body) =>
      var v := Paths(req, callback, body, Onward(state));
      Verdict(Merge(Onward(state) + Reroute(v.exits, OutOfRange)), v.ok && ReadOk(req, over, state))
    case Labeled(l, inner) =>
      var v := Step(req, callback, inner, {});
      Verdict(Merge(Relabel(v.exits, l)), v.ok)
    case RtTry(_, _, _) => TryPaths(req, s, state)
    case _ => Verdict(Onward(state), true)
  }

  /** A test of the flow signal, which is no result. */
  function Optional(req: set<Name>, callback: bool, thn: Block, state: set<Name>): Verdict
    decreases thn, 1, 0
  {
    var v := Paths(req, callback, thn, Onward(state));
    Verdict(Merge(v.exits + Onward(state)), v.ok)
  }

  function Compound(req: set<Name>, callback: bool, s: Stmt, init: Block, state: set<Name>): Verdict
    requires (s.If? && init == s.init) || (s.For? && init == s.init) || (s.Switch? && init == s.init)
    decreases s, 2, 0
  {
    var i := Paths(req, callback, init, Onward(state));
    var e := Entries(req, callback, s, i.exits);
    Verdict(Merge(e.exits), i.ok && e.ok)
  }

  function Entries(req: set<Name>, callback: bool, s: Stmt, entries: seq<Exit>): Verdict
    requires s.If? || s.For? || s.Switch?
    decreases s, 1, |entries|
  {
    if entries == [] then Verdict([], true)
    else
      var e := entries[0];
      var v := if e.flow != ToNext && !s.Switch? then Verdict([e], true) else Entry(req, callback, s, e.state);
      var rest := Entries(req, callback, s, entries[1..]);
      Verdict(v.exits + rest.exits, v.ok && rest.ok)
  }

  function Entry(req: set<Name>, callback: bool, s: Stmt, state: set<Name>): Verdict
    requires s.If? || s.For? || s.Switch?
    decreases s, 0, 1
  {
    if s.If? then IfEntry(req, callback, s, state)
    else if s.For? then ForEntry(req, callback, s, state)
    else SwitchEntry(req, callback, s, state)
  }

  function IfEntry(req: set<Name>, callback: bool, s: Stmt, state: set<Name>): Verdict
    requires s.If?
    decreases s, 0, 0
  {
    var t := Paths(req, callback, s.thn, Onward(state));
    var e := Paths(req, callback, s.els, Onward(state));
    Verdict(t.exits + e.exits, ReadOk(req, s.test, state) && t.ok && e.ok)
  }

  function ForEntry(req: set<Name>, callback: bool, s: Stmt, state: set<Name>): Verdict
    requires s.For?
    decreases s, 0, 0
  {
    var b := Paths(req, callback, s.body, Onward(state));
    var skipped := if s.cond.When? then Onward(state) else [];
    Verdict(skipped + Reroute(b.exits, OutOfLoop),
            ReadsOk(req, CondExprs(s.cond), state) && b.ok && PostOk(req, callback, s.post, b.exits))
  }

  /** The post statement is checked from the end of the body and from every
      unlabelled `continue`. */
  predicate PostOk(req: set<Name>, callback: bool, post: Block, exits: seq<Exit>)
    decreases post, 1, |exits|
  {
    exits == [] ||
    ((exits[0].flow == ToNext || exits[0].flow == ToContinue(NO_LABEL) ==>
        Paths(req, callback, post, Onward(exits[0].state)).ok)
     && PostOk(req, callback, post, exits[1..]))
  }

  function SwitchEntry(req: set<Name>, callback: bool, s: Stmt, state: set<Name>): Verdict
    requires s.Switch?
    decreases s, 0, 0
  {
    var c := Cases(req, callback, s.clauses, state, []);
    Verdict(Merge(if HasDefault(s.clauses) then c.exits else c.exits + Onward(state)),
            ReadsOk(req, CondExprs(s.tag), state) && c.ok)
  }

  function Cases(req: set<Name>, callback: bool, cs: Clauses, state: set<Name>, fallen: seq<Exit>): Verdict
    decreases cs, 1, 0
  {
    match cs
    case NoClauses => Verdict([], true)
    case Clause(_, guards, body, rest) =>
      var b := Paths(req, callback, body, Merge(Onward(state) + fallen));
      var r := Cases(req, callback, rest, state, Reroute(b.exits, IntoNextClause));
      Verdict(Reroute(b.exits, OutOfClause) + r.exits, ReadsOk(req, guards, state) && b.ok && r.ok)
  }

  /** A function literal passed to Try: returning from it is ending normally. */
  function CallbackPaths(req: set<Name>, body: Block, state: set<Name>): Verdict
    decreases body, 1, 0
  {
    var v := Paths(req, true, body, Onward(state));
    Verdict(Merge(Reroute(v.exits, OutOfCallback)), v.ok)
  }

  /** The handler may start before any assignment of the body has completed; the
      finalizer is also checked from the entry state, for exceptional paths. */
  function TryPaths(req: set<Name>, s: Stmt, state: set<Name>): Verdict
    requires s.RtTry?
    decreases s, 1, 0
  {
    var b := CallbackPaths(req, s.body, state);
    var h := if s.handler.Func? then CallbackPaths(req, s.handler.body, state) else Verdict([], true);
    var exits := if s.handler.Func? then Merge(b.exits + h.exits) else b.exits;
    if s.finalizer.NoClosure? then Verdict(exits, b.ok && h.ok)
    else
      var thrown := CallbackPaths(req, s.finalizer.body, state);
      var f := Finally(req, s.finalizer.body, exits);
      Verdict(Merge(f.exits), b.ok && h.ok && thrown.ok && f.ok)
  }

  function Finally(req: set<Name>, b: Block, pending: seq<Exit>): Verdict
    decreases b, 2, |pending|
  {
    if pending == [] then Verdict([], true)
    else
      var f := CallbackPaths(req, b, pending[0].state);
      var rest := Finally(req, b, pending[1..]);
      Verdict(f.exits + rest.exits, f.ok && rest.ok)
  }

  function Paths(req: set<Name>, callback: bool, b: Block, exits: seq<Exit>): Verdict
    decreases b, 0, 0
  {
    match b
    case Nil => Verdict(exits, true)
    case Cons(h, t) =>
      var v := StepEach(req, callback, h, exits);
      var rest := Paths(req, callback, t, Merge(v.exits));
      Verdict(rest.exits, v.ok && rest.ok)
  }

  function StepEach(req: set<Name>, callback: bool, s: Stmt, exits: seq<Exit>): Verdict
    decreases s, 4, |exits|
  {
    if exits == [] then Verdict([], true)
    else
      var v := if exits[0].flow != ToNext then Verdict([exits[0]], true) else Step(req, callback, s, exits[0].state);
      var rest := StepEach(req, callback, s, exits[1..]);
      Verdict(v.exits + rest.exits, v.ok && rest.ok)
  }

  predicate Accepts(req: set<Name>, body: Block) {
    Paths(req, false, body, Onward({})).ok
  }
}
