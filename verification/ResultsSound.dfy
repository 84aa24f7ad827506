/** Soundness of the named-result analysis against the machine: in accepted code
    every `return` finds every required result assigned, and no evaluation reads
    one before. */
module ResultsSound {
  import opened Options
  import opened Syntax
  import opened Machine
  import opened NamedResults
  import opened Legal
  import LoweringFacts

  // ----- what Go's checker guarantees about the code -----

  /** The jumps a statement may leave with inside its function literal. */
  datatype Jumps = Jumps(brk: bool, cont: bool, brks: set<Name>, conts: set<Name>, fall: bool)

  const NO_JUMPS := Jumps(false, false, {}, {}, false)

  function Inner(j: Jumps): Jumps {
    j.(fall := false)
  }

  function InLoop(j: Jumps, lab: Name): Jumps {
    if lab == NO_LABEL then Jumps(true, true, j.brks, j.conts, false)
    else Jumps(true, true, j.brks + {lab}, j.conts + {lab}, false)
  }

  function InClause(j: Jumps, lab: Name, fall: bool): Jumps {
    Jumps(true, j.cont, if lab == NO_LABEL then j.brks else j.brks + {lab}, j.conts, fall)
  }

  /** Jumps stay inside their function literal, labels are not reused, headers are
      simple statements, and no variable hides one of `names`. */
  predicate Fine(names: set<Name>, s: Stmt, j: Jumps, lab: Name)
    decreases s
  {
    match s
    case Break(to) => if to == NO_LABEL then j.brk else to in j.brks
    case Continue(to) => if to == NO_LABEL then j.cont else to in j.conts
    case Fallthrough => j.fall
    case Declare(xs, _) => forall x :: x in xs ==> x !in names
    case Scope(body) => FineBlock(names, body, Inner(j))
    case If(init, _, thn, els) =>
      SimpleStmt(init) && FineBlock(names, init, NO_JUMPS) && FineBlock(names, thn, Inner(j))
          && FineBlock(names, els, Inner(j))
    case For(init, _, post, body) =>
      && lab !in j.brks && lab !in j.conts
      && SimpleStmt(init) && FineBlock(names, init, NO_JUMPS) && SimpleStmt(post) && FineBlock(names, post, NO_JUMPS)
      && FineBlock(names, body, InLoop(j, lab))
    case Range(xs, _, _, body) =>
      lab !in j.brks && lab !in j.conts && (forall x :: x in xs ==> x !in names)
          && FineBlock(names, body, InLoop(j, lab))
    case Switch(init, _, clauses) =>
      lab !in j.brks && lab !in j.conts && SimpleStmt(init) && FineBlock(names, init, NO_JUMPS)
          && FineClauses(names, clauses, j, lab)
    case Labeled(l, inner) => l != NO_LABEL && l !in j.brks && l !in j.conts && Fine(names, inner, Inner(j), l)
    case OnFlow(_, thn) => FineBlock(names, thn, Inner(j))
    case OnAnyFlow(thn) => FineBlock(names, thn, Inner(j))
    case RtTry(body, handler, finalizer) =>
      "ghi_caught" !in names && FineBlock(names, body, NO_JUMPS) && FineClosure(names, handler)
          && FineClosure(names, finalizer)
    case Try(_, _, _) => false
    case Parent(_) => false
    case _ => true
  }

  predicate FineBlock(names: set<Name>, b: Block, j: Jumps)
    decreases b
  {
    match b
    case Nil => true
    case Cons(h, t) => Fine(names, h, j.(fall := j.fall && t.Nil?), NO_LABEL) && FineBlock(names, t, j)
  }

  predicate FineClauses(names: set<Name>, cs: Clauses, j: Jumps, lab: Name)
    decreases cs
  {
    match cs
    case NoClauses => true
    case Clause(_, _, body, rest) => FineBlock(names, body, InClause(j, lab, rest.Clause?))
                                     && FineClauses(names, rest, j, lab)
  }

  predicate FineClosure(names: set<Name>, c: Closure)
    decreases c
  {
    match c
    case NoClosure => true
    case Func(body) => FineBlock(names, body, NO_JUMPS)
  }

  // ----- the reads the analysis overlooks -----

  function VarsOf(es: seq<Expr>): set<Name> {
    set e, x | e in es && x in Vars(e) :: x
  }

  /** What a post statement, which is a simple one, reads. */
  function PostReads(post: Block): set<Name> {
    if post.Nil? then {}
    else if post.head.Eval? then Vars(post.head.e)
    else if post.head.Assign? then VarsOf(Operands(post.head.lhs)) + VarsOf(post.head.rhs)
    else if post.head.Declare? then VarsOf(post.head.rhs)
    else {}
  }

  /** In the states the analysis reaches there, everything it overlooks is assigned:
      the operands of assignment targets before the assignment, those of `range`
      targets before the loop, and what a post statement reads where the body
      continues the loop by its label. */
  ghost predicate Ready(req: set<Name>, cb: bool, s: Stmt, lab: Name, state: set<Name>)
    decreases s, 2
  {
    match s
    case Assign(lhs, _) => ReadsOk(req, Operands(lhs), state)
    case Scope(body) => ReadyBlock(req, cb, body, Onward(state))
    case If(init, _, _, _) => ReadyHeaded(req, cb, s, init, lab, state)
    case For(init, _, _, _) => ReadyHeaded(req, cb, s, init, lab, state)
    case Switch(init, _, _) => ReadyHeaded(req, cb, s, init, lab, state)
    case Range(_, lhs, _, body) => ReadsOk(req, Operands(lhs), state) && ReadyBlock(req, cb, body, Onward(state))
    case Labeled(l, inner) => Ready(req, cb, inner, l, {})
    case OnFlow(_, thn) => ReadyBlock(req, cb, thn, Onward(state))
    case OnAnyFlow(thn) => ReadyBlock(req, cb, thn, Onward(state))
    case RtTry(_, _, _) => ReadyTry(req, s, state)
    case _ => true
  }

  ghost predicate ReadyHeaded(req: set<Name>, cb: bool, s: Stmt, init: Block, lab: Name, state: set<Name>)
    requires (s.If? && init == s.init) || (s.For? && init == s.init) || (s.Switch? && init == s.init)
    decreases s, 1
  {
    var entries := Paths(req, cb, init, Onward(state)).exits;
    && ReadyBlock(req, cb, init, Onward(state))
    && forall k :: 0 <= k < |entries| && entries[k].flow == ToNext ==> ReadyEntry(req, cb, s, lab, entries[k].state)
  }

  ghost predicate ReadyEntry(req: set<Name>, cb: bool, s: Stmt, lab: Name, state: set<Name>)
    requires s.If? || s.For? || s.Switch?
    decreases s, 0
  {
    if s.If? then ReadyBlock(req, cb, s.thn, Onward(state)) && ReadyBlock(req, cb, s.els, Onward(state))
    else if s.For? then
      var exits := Paths(req, cb, s.body, Onward(state)).exits;
      && ReadyBlock(req, cb, s.body, Onward(state))
      && (forall k :: 0 <= k < |exits| && (exits[k].flow == ToNext || exits[k].flow == ToContinue(NO_LABEL)) ==>
            ReadyBlock(req, cb, s.post, Onward(exits[k].state)))
      && (forall k :: 0 <= k < |exits| && exits[k].flow == ToContinue(lab) && lab != NO_LABEL ==>
            PostReads(s.post) * req <= exits[k].state)
    else ReadyClauses(req, cb, s.clauses, state, [])
  }

  ghost predicate ReadyClauses(req: set<Name>, cb: bool, cs: Clauses, state: set<Name>, fallen: seq<Exit>)
    decreases cs
  {
    cs.Clause? ==>
      var entry := Merge(Onward(state) + fallen);
      && ReadyBlock(req, cb, cs.body, entry)
      && ReadyClauses(req, cb, cs.rest, state, Reroute(Paths(req, cb, cs.body, entry).exits, IntoNextClause))
  }

  ghost function PendingExits(req: set<Name>, s: Stmt, state: set<Name>): seq<Exit>
    requires s.RtTry?
  {
    var b := CallbackPaths(req, s.body, state).exits;
    if s.handler.Func? then Merge(b + CallbackPaths(req, s.handler.body, state).exits) else b
  }

  ghost predicate ReadyTry(req: set<Name>, s: Stmt, state: set<Name>)
    requires s.RtTry?
    decreases s, 0
  {
    var pending := PendingExits(req, s, state);
    && ReadyBlock(req, true, s.body, Onward(state))
    && (s.handler.Func? ==> ReadyBlock(req, true, s.handler.body, Onward(state)))
    && (s.finalizer.Func? ==>
          && ReadyBlock(req, true, s.finalizer.body, Onward(state))
          && forall k :: 0 <= k < |pending| ==> ReadyBlock(req, true, s.finalizer.body, Onward(pending[k].state)))
  }

  ghost predicate ReadyBlock(req: set<Name>, cb: bool, b: Block, exits: seq<Exit>)
    decreases b, 0
  {
    b.Cons? ==>
      && (forall k :: 0 <= k < |exits| && exits[k].flow == ToNext ==> Ready(req, cb, b.head, NO_LABEL, exits[k].state))
      && ReadyBlock(req, cb, b.tail, Merge(StepEach(req, cb, b.head, exits).exits))
  }

  // ----- exit lists -----

  ghost function FlowOf(c: Comp): Flow
    requires !c.Stuck? && !c.Thrown?
  {
    match c
    case Normal => ToNext
    case BreakTo(l) => ToBreak(l)
    case ContinueTo(l) => ToContinue(l)
    case Fell => ToFallthrough
    case Returned => ToReturn
  }

  /** Some exit with this flow promises no more than what is assigned. */
  ghost predicate Covers(exits: seq<Exit>, flow: Flow, done: set<Name>) {
    exists i :: 0 <= i < |exits| && exits[i].flow == flow && exits[i].state <= done
  }

  lemma CoversAt(exits: seq<Exit>, i: nat, done: set<Name>)
    requires i < |exits| && exits[i].state <= done
    ensures Covers(exits, exits[i].flow, done)
  {}

  lemma CoversLeft(a: seq<Exit>, b: seq<Exit>, flow: Flow, done: set<Name>)
    requires Covers(a, flow, done)
    ensures Covers(a + b, flow, done)
  {
    var i :| 0 <= i < |a| && a[i].flow == flow && a[i].state <= done;
    assert (a + b)[i] == a[i];
  }

  lemma CoversRight(a: seq<Exit>, b: seq<Exit>, flow: Flow, done: set<Name>)
    requires Covers(b, flow, done)
    ensures Covers(a + b, flow, done)
  {
    var i :| 0 <= i < |b| && b[i].flow == flow && b[i].state <= done;
    assert (a + b)[|a| + i] == b[i];
  }

  lemma CoversNext(state: set<Name>, done: set<Name>)
    requires state <= done
    ensures Covers(Onward(state), ToNext, done)
  {
    assert Onward(state)[0] == Exit(state, ToNext);
  }

  lemma MergeIntoCovers(result: seq<Exit>, e: Exit, flow: Flow, done: set<Name>)
    requires Covers(result, flow, done) || (e.flow == flow && e.state <= done)
    ensures Covers(MergeInto(result, e), flow, done)
  {
    var i := Position(result, e.flow);
    var merged := MergeInto(result, e);
    if Covers(result, flow, done) {
      var j :| 0 <= j < |result| && result[j].flow == flow && result[j].state <= done;
      assert merged[j].flow == flow && merged[j].state <= done;
    } else {
      var k := if i < 0 then |result| else i;
      assert merged[k].flow == flow && merged[k].state <= done;
    }
  }

  /** Merging forgets no way out. */
  lemma {:induction false} MergeCovers(exits: seq<Exit>, flow: Flow, done: set<Name>)
    requires Covers(exits, flow, done)
    ensures Covers(Merge(exits), flow, done)
    decreases |exits|
  {
    var last := |exits| - 1;
    var i :| 0 <= i < |exits| && exits[i].flow == flow && exits[i].state <= done;
    if i < last {
      assert exits[..last][i] == exits[i];
      MergeCovers(exits[..last], flow, done);
    }
    MergeIntoCovers(Merge(exits[..last]), exits[last], flow, done);
  }

  lemma {:induction false} RerouteCovers(exits: seq<Exit>, route: Route, flow: Flow, done: set<Name>)
    requires Covers(exits, flow, done) && Via(route, flow).Some?
    ensures Covers(Reroute(exits, route), Via(route, flow).value, done)
    decreases |exits|
  {
    var i :| 0 <= i < |exits| && exits[i].flow == flow && exits[i].state <= done;
    var rest := Reroute(exits[1..], route);
    if i == 0 { assert ([exits[0].(flow := Via(route, flow).value)] + rest)[0].state <= done; }
    else {
      assert exits[1..][i - 1] == exits[i];
      RerouteCovers(exits[1..], route, flow, done);
      if Via(route, exits[0].flow).Some? {
        CoversRight([exits[0].(flow := Via(route, exits[0].flow).value)], rest, Via(route, flow).value, done);
      }
    }
  }

  lemma RelabelCovers(exits: seq<Exit>, l: Name, flow: Flow, done: set<Name>)
    requires Covers(exits, flow, done)
    ensures Covers(Relabel(exits, l), Landed(Exit({}, flow), l).flow, done)
  {
    var i :| 0 <= i < |exits| && exits[i].flow == flow && exits[i].state <= done;
    assert Relabel(exits, l)[i] == Landed(exits[i], l);
  }

  // ----- variables -----

  /** A function and those of its results that must not stay zero. */
  datatype Q = Q(fn: Fn, req: set<Name>)

  /** The required results' names denote their cells, and nothing else does. */
  ghost predicate Home(q: Q, u: User) {
    && LoweringFacts.VisibleBut(q.fn, SlotNames(q.fn.slots) - q.req, u.env)
    && q.req <= SlotNames(q.fn.slots)
    && (forall y :: y in q.req ==> y in u.env && u.env[y] < u.next)
    && (forall x, y :: x in u.env && y in q.req && u.env[x] == u.env[y] ==> x == y)
  }

  ghost function Done(q: Q, u: User): set<Name> {
    set y | y in q.req && y in u.env && u.env[y] in u.heap
  }

  ghost function Early(q: Q, u: User): set<Name> {
    set y | y in q.req && y in u.env && u.env[y] in u.unset
  }

  ghost predicate Grows(q: Q, u: User, w: User) {
    && Home(q, w) && (forall y :: y in q.req ==> y in u.env && w.env[y] == u.env[y])
    && Done(q, u) <= Done(q, w)
  }

  /** Nothing assigned is unassigned; if `clean`, no required result was read too early. */
  ghost predicate Keeps(q: Q, clean: bool, u: User, w: User) {
    || (!clean && Grows(q, u, w))
    || (clean && Grows(q, u, w) && Early(q, w) <= Early(q, u))
  }

  /** A run that binds nothing keeps the results at home. */
  lemma SameHome(q: Q, u: User, w: User)
    requires Home(q, u) && w.env == u.env && w.next >= u.next && u.heap.Keys <= w.heap.Keys
    ensures Grows(q, u, w)
  {}

  lemma EvalReads(q: Q, e: Expr, state: set<Name>, u: User)
    requires Home(q, u) && state <= Done(q, u) && ReadOk(q.req, e, state)
    ensures Early(q, EvalExpr(q.fn, e, u).u) <= Early(q, u)
  {
    forall x, y | x in Vars(e) && x in u.env && u.env[x] !in u.heap && y in q.req && u.env[x] == u.env[y]
      ensures y in Vars(e) * q.req
    {}
  }

  lemma EvalKeeps(q: Q, clean: bool, e: Expr, state: set<Name>, u: User)
    requires Home(q, u) && state <= Done(q, u) && (clean ==> ReadOk(q.req, e, state))
    ensures Keeps(q, clean, u, EvalExpr(q.fn, e, u).u) && EvalExpr(q.fn, e, u).u.env == u.env
  {
    SameHome(q, u, EvalExpr(q.fn, e, u).u);
    if clean { EvalReads(q, e, state, u); }
  }

  lemma ReadsBoth(req: set<Name>, a: seq<Expr>, b: seq<Expr>, state: set<Name>)
    ensures ReadsOk(req, a + b, state) <==> ReadsOk(req, a, state) && ReadsOk(req, b, state)
  {
    if ReadsOk(req, a + b, state) {
      forall i | 0 <= i < |a| ensures ReadOk(req, a[i], state) { assert (a + b)[i] == a[i]; }
      forall i | 0 <= i < |b| ensures ReadOk(req, b[i], state) { assert (a + b)[|a| + i] == b[i]; }
    }
  }

  lemma {:induction false} EvalAllKeeps(q: Q, clean: bool, es: seq<Expr>, state: set<Name>, u: User)
    requires Home(q, u) && state <= Done(q, u) && (clean ==> ReadsOk(q.req, es, state))
    ensures Keeps(q, clean, u, EvalAll(q.fn, es, u).u) && EvalAll(q.fn, es, u).u.env == u.env
    decreases |es|
  {
    if es != [] {
      EvalKeeps(q, clean, es[0], state, u);
      var o := EvalExpr(q.fn, es[0], u);
      if o.Yields? { EvalAllKeeps(q, clean, es[1..], state, o.u); }
    }
  }

  ghost function SetVars(req: set<Name>, lhs: seq<Lhs>): set<Name>
    decreases |lhs|
  {
    if lhs == [] then {} else (if lhs[0].Var? && lhs[0].x in req then {lhs[0].x} else {}) + SetVars(req, lhs[1..])
  }

  lemma StoreKeeps(q: Q, target: Lhs, v: Val, u: User)
    requires Home(q, u)
    ensures var o := Store(q.fn, target, v, u);
            Keeps(q, true, u, o.u) && o.u.env == u.env
            && (target.Var? && target.x in q.req && o.Yields? ==> target.x in Done(q, o.u))
  {
    if target.At? { EvalKeeps(q, true, Put(target.e, v), {}, u); }
  }

  lemma {:induction false} StoreAllKeeps(q: Q, lhs: seq<Lhs>, vals: seq<Val>, u: User)
    requires Home(q, u)
    ensures var o := StoreAll(q.fn, lhs, vals, u);
            Keeps(q, true, u, o.u) && o.u.env == u.env && (o.Yields? ==> SetVars(q.req, lhs) <= Done(q, o.u))
    decreases |lhs|
  {
    if lhs != [] {
      StoreKeeps(q, lhs[0], First(vals), u);
      var o := Store(q.fn, lhs[0], First(vals), u);
      if o.Yields? {
        StoreAllKeeps(q, lhs[1..], Rest(vals), o.u);
        KeepsOn(q, true, u, o.u, StoreAll(q.fn, lhs[1..], Rest(vals), o.u).u);
      }
    }
  }

  lemma KeepsOn(q: Q, clean: bool, a: User, b: User, c: User)
    requires Keeps(q, clean, a, b) && Keeps(q, clean, b, c)
    ensures Keeps(q, clean, a, c)
  {}

  lemma {:induction false} TargetsReach(req: set<Name>, lhs: seq<Lhs>, state: set<Name>)
    ensures Targets(req, lhs, state).exits == Onward(state + SetVars(req, lhs))
    decreases |lhs|
  {
    if lhs != [] {
      var next := if lhs[0].Var? && lhs[0].x in req then state + {lhs[0].x} else state;
      TargetsReach(req, lhs[1..], next);
      assert next + SetVars(req, lhs[1..]) == state + SetVars(req, lhs);
    } else {
      assert state + {} == state;
    }
  }

  lemma {:induction false} BindKeeps(q: Q, names: seq<Name>, vals: seq<Val>, u: User)
    requires Home(q, u) && forall x :: x in names ==> x !in q.req
    ensures Keeps(q, true, u, Bind(names, vals, u)) && Bind(names, vals, u).next >= u.next
    decreases |names|
  {
    if names != [] {
      var w := u.(env := u.env[names[0] := u.next], heap := u.heap[u.next := First(vals)], next := u.next + 1);
      BindOneKeeps(q, names[0], vals, u);
      BindKeeps(q, names[1..], Rest(vals), w);
      KeepsOn(q, true, u, w, Bind(names[1..], Rest(vals), w));
    }
  }

  lemma BindOneKeeps(q: Q, x: Name, vals: seq<Val>, u: User)
    requires Home(q, u) && x !in q.req
    ensures Keeps(q, true, u, u.(env := u.env[x := u.next], heap := u.heap[u.next := First(vals)], next := u.next + 1))
  {
    var w := u.(env := u.env[x := u.next], heap := u.heap[u.next := First(vals)], next := u.next + 1);
    LoweringFacts.VisibleBind(q.fn, SlotNames(q.fn.slots) - q.req, [x], vals, u);
    assert Bind([x], vals, u) == w by { assert [x][1..] == []; }
  }

  lemma {:induction false} SetCellsKeep(q: Q, cells: seq<nat>, vals: seq<Val>, u: User)
    requires Home(q, u)
    ensures var w := SetCells(cells, vals, u);
            Keeps(q, true, u, w) && w.env == u.env && (forall i :: 0 <= i < |cells| ==> cells[i] in w.heap)
                && u.heap.Keys <= w.heap.Keys
    decreases |cells|
  {
    if cells != [] {
      SetCellsKeep(q, cells[1..], Rest(vals), u.(heap := u.heap[cells[0] := First(vals)]));
      forall i | 0 <= i < |cells| ensures cells[i] in SetCells(cells, vals, u).heap {
        if i > 0 { assert cells[i] == cells[1..][i - 1]; }
      }
    }
  }

  /** Every required name is one of the slots, so writing all cells assigns it. */
  lemma AllCellsDone(q: Q, u: User)
    requires Home(q, u) && q.fn.slots.Named? && forall i ::
               0 <= i < |q.fn.slots.cells| ==> q.fn.slots.cells[i] in u.heap
    ensures q.req <= Done(q, u)
  {
    forall y | y in q.req ensures y in Done(q, u) {
      var i :| 0 <= i < |q.fn.slots.names| && q.fn.slots.names[i] == y;
      assert u.env[y] == q.fn.slots.cells[i];
    }
  }

  lemma {:induction false} CopyCellsKeep(q: Q, names: seq<Name>, cells: seq<nat>, from: User, u: User)
    requires Home(q, u)
    ensures Keeps(q, true, u, CopyCells(names, cells, from, u))
    decreases |names|
  {
    if names != [] && cells != [] {
      var w := if names[0] in from.env && from.env[names[0]] in from.heap
               then u.(heap := u.heap[cells[0] := from.heap[from.env[names[0]]]]) else u;
      CopyCellsKeep(q, names[1..], cells[1..], from, w);
    }
  }

  lemma {:induction false} SlotsSet(req: set<Name>, names: seq<Name>)
    ensures SetVars(req, Vars2Lhs(names)) == set y | y in names && y in req
    ensures Operands(Vars2Lhs(names)) == []
    decreases |names|
  {
    var lhs := Vars2Lhs(names);
    if names != [] {
      assert lhs[1..] == Vars2Lhs(names[1..]);
      SlotsSet(req, names[1..]);
      assert names == [names[0]] + names[1..];
    }
  }

  // ----- what a run owes -----

  /** The jump is one the text allows. */
  ghost predicate Allowed(j: Jumps, c: Comp) {
    && (c.BreakTo? ==> if c.lab == NO_LABEL then j.brk else c.lab in j.brks)
    && (c.ContinueTo? ==> if c.lab == NO_LABEL then j.cont else c.lab in j.conts)
    && (c.Fell? ==> j.fall)
  }

  /** Some exit of the analysis covers the run. A labelled loop or switch left by
      its own label has completed normally; the analysis still has that jump. */
  ghost predicate Ends(q: Q, callback: bool, j: Jumps, lab: Name, exits: seq<Exit>, r: R) {
    && Allowed(j, r.c)
    && (r.c.Returned? && !callback ==> q.req <= Done(q, r.st.u))
    && (r.c.Stuck? || r.c.Thrown? || Covers(exits, FlowOf(r.c), Done(q, r.st.u))
        || (r.c.Normal? && lab != NO_LABEL && Covers(exits, ToBreak(lab), Done(q, r.st.u))))
  }

  ghost predicate Sound(q: Q, callback: bool, clean: bool, j: Jumps, lab: Name, exits: seq<Exit>, st: State, r: R) {
    Keeps(q, clean, st.u, r.st.u) && r.st.u.next >= st.u.next && Ends(q, callback, j, lab, exits, r)
  }

  /** Leaving a scope restores an environment in which the results are at home. */
  lemma LeaveKeeps(q: Q, clean: bool, st: State, r: R)
    requires Home(q, st.u) && Keeps(q, clean, st.u, r.st.u) && r.st.u.next >= st.u.next
    ensures var l := Leave(r, st.u.env);
            Keeps(q, clean, st.u, l.st.u) && Done(q, l.st.u) == Done(q, r.st.u) && l.st.u.next == r.st.u.next
                && l.c == r.c
  {}

  // ----- basic statements -----

  lemma AssignSound(q: Q, cb: bool, clean: bool, s: Stmt, j: Jumps, state: set<Name>, st: State)
    requires s.Assign? && Home(q, st.u) && state <= Done(q, st.u) && Step(q.req, cb, s, state).ok
             && (clean ==> ReadsOk(q.req, Operands(s.lhs), state))
    ensures Sound(q, cb, clean, j, NO_LABEL, Step(q.req, cb, s, state).exits, st,
                  Lift(AssignAll(q.fn, s.lhs, s.rhs, st.u), st))
  {
    TargetsReach(q.req, s.lhs, state);
    var es := Operands(s.lhs) + s.rhs;
    if clean { ReadsBoth(q.req, Operands(s.lhs), s.rhs, state); }
    EvalAllKeeps(q, clean, es, state, st.u);
    EvalAllNext(q.fn, es, st.u);
    var o := EvalAll(q.fn, es, st.u);
    if o.Yields? {
      var vals := if |Operands(s.lhs)| <= |o.vals| then o.vals[|Operands(s.lhs)|..] else [];
      StoreAllKeeps(q, s.lhs, vals, o.u);
      StoreAllNext(q.fn, s.lhs, vals, o.u);
      var w := StoreAll(q.fn, s.lhs, vals, o.u);
      if w.Yields? { CoversNext(state + SetVars(q.req, s.lhs), Done(q, w.u)); }
    }
  }

  lemma {:induction false} EvalAllNext(fn: Fn, es: seq<Expr>, u: User)
    ensures EvalAll(fn, es, u).u.next >= u.next
    decreases |es|
  {
    if es != [] {
      var o := EvalExpr(fn, es[0], u);
      if o.Yields? { EvalAllNext(fn, es[1..], o.u); }
    }
  }

  lemma {:induction false} StoreAllNext(fn: Fn, lhs: seq<Lhs>, vals: seq<Val>, u: User)
    ensures StoreAll(fn, lhs, vals, u).u.next >= u.next
    decreases |lhs|
  {
    if lhs != [] {
      var o := Store(fn, lhs[0], First(vals), u);
      if o.Yields? { StoreAllNext(fn, lhs[1..], Rest(vals), o.u); }
    }
  }

  lemma SetSlotsSound(q: Q, cb: bool, clean: bool, es: seq<Expr>, j: Jumps, state: set<Name>, st: State)
    requires Home(q, st.u) && state <= Done(q, st.u) && Step(q.req, cb, SetSlots(es), state).ok
    ensures Sound(q, cb, clean, j, NO_LABEL, Step(q.req, cb, SetSlots(es), state).exits, st, RunSetSlots(q.fn, es, st))
  {
    if q.fn.slots.Named? {
      var lhs := Vars2Lhs(q.fn.slots.names);
      SlotsSet(q.req, q.fn.slots.names);
      assert SetVars(q.req, lhs) == q.req;
      assert [] + es == es;
      EvalAllKeeps(q, clean, es, state, st.u);
      EvalAllNext(q.fn, es, st.u);
      var o := EvalAll(q.fn, es, st.u);
      if o.Yields? {
        assert o.vals[0..] == o.vals;
        StoreAllKeeps(q, lhs, o.vals, o.u);
        StoreAllNext(q.fn, lhs, o.vals, o.u);
        var w := StoreAll(q.fn, lhs, o.vals, o.u);
        if w.Yields? { CoversNext(state + q.req, Done(q, w.u)); }
      }
    } else {
      EvalAllKeeps(q, clean, es, state, st.u);
      EvalAllNext(q.fn, es, st.u);
      assert q.req == {};
      var o := EvalAll(q.fn, es, st.u);
      if o.Yields? { CoversNext(state + q.req, Done(q, o.u)); }
    }
  }

  lemma ReturnSound(q: Q, cb: bool, clean: bool, s: Stmt, j: Jumps, state: set<Name>, st: State)
    requires (s.Return? || s.ReturnSlots?) && Home(q, st.u) && state <= Done(q, st.u) && Step(q.req, cb, s, state).ok
    ensures var r := if s.Return? then RunReturn(q.fn, s.es, st) else RunReturnSlots(q.fn, st);
            Sound(q, cb, clean, j, NO_LABEL, Step(q.req, cb, s, state).exits, st, r)
  {
    var exits := Step(q.req, cb, s, state).exits;
    var r := if s.Return? then RunReturn(q.fn, s.es, st) else RunReturnSlots(q.fn, st);
    if s.Return? && s.es != [] {
      EvalAllKeeps(q, clean, s.es, state, st.u);
      EvalAllNext(q.fn, s.es, st.u);
      var o := EvalAll(q.fn, s.es, st.u);
      if o.Yields? && q.fn.slots.Named? {
        SetCellsKeep(q, q.fn.slots.cells, o.vals, o.u);
        SetCellsNext(q.fn.slots.cells, o.vals, o.u);
        AllCellsDone(q, r.st.u);
      }
      if o.Yields? && q.fn.slots.Unnamed? { assert q.req == {}; }
    } else if s.ReturnSlots? && q.fn.slots.Named? {
      CopyCellsKeep(q, q.fn.slots.names, q.fn.slots.cells, st.u, st.u);
      CopyCellsNext(q.fn.slots.names, q.fn.slots.cells, st.u, st.u);
    }
    if r.c.Returned? { CoversAt(exits, 0, Done(q, r.st.u)); }
  }

  lemma {:induction false} SetCellsNext(cells: seq<nat>, vals: seq<Val>, u: User)
    ensures SetCells(cells, vals, u).next == u.next
    decreases |cells|
  {
    if cells != [] { SetCellsNext(cells[1..], Rest(vals), u.(heap := u.heap[cells[0] := First(vals)])); }
  }

  lemma {:induction false} CopyCellsNext(names: seq<Name>, cells: seq<nat>, from: User, u: User)
    ensures CopyCells(names, cells, from, u).next == u.next
    decreases |names|
  {
    if names != [] && cells != [] {
      CopyCellsNext(names[1..], cells[1..], from,
                    if names[0] in from.env && from.env[names[0]] in from.heap
                    then u.(heap := u.heap[cells[0] := from.heap[from.env[names[0]]]]) else u);
    }
  }

  predicate Basic(s: Stmt) {
    || s.Eval? || s.Register? || s.Defer? || s.Throw? || s.Panic? || s.Declare? || s.Break? || s.Continue? ||
    s.Fallthrough?
    || s.SetFlow? || s.SaveFlow? || s.DeferRestore? || s.DeferRunDefers? || s.DeclareSignal?
  }

  lemma BasicSound(q: Q, cb: bool, clean: bool, s: Stmt, j: Jumps, lab: Name, state: set<Name>, st: State, fuel: nat)
    requires Basic(s) && Fine(q.req, s, j, lab) && Home(q, st.u)
    requires state <= Done(q, st.u) && Step(q.req, cb, s, state).ok
    ensures Sound(q, cb, clean, j, NO_LABEL, Step(q.req, cb, s, state).exits, st, ExecBasic(q.fn, s, st, fuel))
  {
    if s.Declare? { DeclareSound(q, cb, clean, s, j, state, st, fuel); }
    else if s.Eval? || s.Register? || s.Throw? || s.Panic? || s.Defer? {
      EvalSound(q, cb, clean, s, j, state, st, fuel);
    }
    else { CoversAt(Step(q.req, cb, s, state).exits, 0, Done(q, ExecBasic(q.fn, s, st, fuel).st.u)); }
  }

  lemma DeclareSound(q: Q, cb: bool, clean: bool, s: Stmt, j: Jumps, state: set<Name>, st: State, fuel: nat)
    requires s.Declare? && (forall x :: x in s.names ==> x !in q.req) && Home(q, st.u)
    requires state <= Done(q, st.u) && Step(q.req, cb, s, state).ok
    ensures Sound(q, cb, clean, j, NO_LABEL, Step(q.req, cb, s, state).exits, st, ExecBasic(q.fn, s, st, fuel))
  {
    EvalAllKeeps(q, clean, s.rhs, state, st.u);
    EvalAllNext(q.fn, s.rhs, st.u);
    var o := EvalAll(q.fn, s.rhs, st.u);
    if o.Yields? {
      BindKeeps(q, s.names, o.vals, o.u);
      KeepsOn(q, clean, st.u, o.u, Bind(s.names, o.vals, o.u));
      CoversNext(state, Done(q, Bind(s.names, o.vals, o.u)));
    }
  }

  lemma EvalRuns(fn: Fn, s: Stmt, st: State, fuel: nat)
    requires s.Eval? || s.Register? || s.Throw? || s.Panic? || s.Defer?
    ensures var r, o := ExecBasic(fn, s, st, fuel), EvalExpr(fn, s.e, st.u);
            r.st.u == o.u && (r.c.Thrown? || (r.c.Normal? && !s.Throw? && !s.Panic?))
  {}

  /** Statements that evaluate one expression. */
  lemma EvalSound(q: Q, cb: bool, clean: bool, s: Stmt, j: Jumps, state: set<Name>, st: State, fuel: nat)
    requires (s.Eval? || s.Register? || s.Throw? || s.Panic? || s.Defer?) && Home(q, st.u)
    requires state <= Done(q, st.u) && Step(q.req, cb, s, state).ok
    ensures Sound(q, cb, clean, j, NO_LABEL, Step(q.req, cb, s, state).exits, st, ExecBasic(q.fn, s, st, fuel))
  {
    assert ReadOk(q.req, [s.e][0], state);
    EvalKeeps(q, clean, s.e, state, st.u);
    EvalRuns(q.fn, s, st, fuel);
    CoversNext(state, Done(q, EvalExpr(q.fn, s.e, st.u).u));
  }
}
