/** The handler a list of catch clauses is parsed into
    (internal/compiler/exception_parse.go): a chain of typed tests in source
    order that rethrows what no clause accepts. */
module CatchChain {
  import opened Syntax
  import opened Machine
  import ProgramPaths

  datatype Catch = Catch(name: Name, typ: int, body: Block)

  const CAUGHT := "ghi_caught"
  const MATCHED := "ghi_matched"

  /** ghi_caught.(T), which yields the value and whether it has the type. */
  function TypeTest(typ: int): Expr {
    Atom(typ, {}, {CAUGHT})
  }

  function Local(x: Name): Expr {
    Atom(-1, {}, {x})
  }

  function Chain(cs: seq<Catch>): Block
    decreases |cs|
  {
    if cs == [] then Single(Throw(Local(CAUGHT)))
    else
      var c := cs[0];
      Single(If(Single(Declare([c.name, MATCHED], [TypeTest(c.typ)])), Local(MATCHED),
                Cons(Eval(Local(c.name)), c.body), Chain(cs[1..])))
  }

  /** The shape on which the constructor analysis relies. */
  lemma {:induction false} ChainRethrows(cs: seq<Catch>)
    ensures ProgramPaths.CatchChain(Chain(cs))
    decreases |cs|
  {
    if cs != [] { ChainRethrows(cs[1..]); }
  }

  ghost function ValueOf(u: User, x: Name): Val {
    if x in u.env && u.env[x] in u.heap then u.heap[u.env[x]] else 0
  }

  /** The evaluator gives type tests and variables their Go meaning; on every
      other expression it is arbitrary. `isA` is the dynamic type relation. */
  ghost predicate Faithful(fn: Fn, isA: (Val, int) -> bool) {
    && (forall typ: int, u: User :: typ >= 0 ==>
          fn.ev(TypeTest(typ), u) ==
              Yields(if isA(ValueOf(u, CAUGHT), typ) then [ValueOf(u, CAUGHT), 1] else [0, 0], u))
    && (forall x: Name, u: User :: fn.ev(Local(x), u) == Yields([ValueOf(u, x)], u))
  }

  predicate ValidCatches(cs: seq<Catch>) {
    forall i :: 0 <= i < |cs| ==> cs[i].typ >= 0 && cs[i].name != CAUGHT && cs[i].name != MATCHED
  }

  /** First clause, in source order, whose type the exception has. */
  function FirstMatch(isA: (Val, int) -> bool, cs: seq<Catch>, v: Val): (m: nat)
    ensures m <= |cs|
    ensures m < |cs| ==> isA(v, cs[m].typ)
    ensures forall i :: 0 <= i < m ==> !isA(v, cs[i].typ)
    decreases |cs|
  {
    if cs == [] then 0
    else if isA(v, cs[0].typ) then 0
    else
      var m := FirstMatch(isA, cs[1..], v);
      assert forall i :: 1 <= i < 1 + m ==> cs[i] == cs[1..][i - 1];
      1 + m
  }

  /** What one failed test leaves behind for the rest of the chain. */
  ghost function Tested(u: User, c: Catch): User {
    Bind([c.name, MATCHED], [0, 0], u)
  }

  ghost function TestedAll(u: User, cs: seq<Catch>): User
    decreases |cs|
  {
    if cs == [] then u else TestedAll(Tested(u, cs[0]), cs[1..])
  }

  /** The state in which the body of clause `m` starts. */
  ghost function Entered(u: User, cs: seq<Catch>, m: nat, v: Val): User
    requires m < |cs|
  {
    Bind([cs[m].name, MATCHED], [v, 1], TestedAll(u, cs[..m]))
  }

  ghost predicate Holds(u: User, v: Val) {
    CAUGHT in u.env && u.env[CAUGHT] < u.next && u.env[CAUGHT] in u.heap && u.heap[u.env[CAUGHT]] == v
  }

  lemma BindTwo(x: Name, y: Name, a: Val, b: Val, u: User)
    ensures Bind([x, y], [a, b], u)
            == u.(env := u.env[x := u.next][y := u.next + 1], heap := u.heap[u.next := a][u.next + 1 := b],
                  next := u.next + 2)
  {
    assert [x, y][1..] == [y] && [y][1..] == [];
    assert Rest([a, b]) == [b];
    var u1 := u.(env := u.env[x := u.next], heap := u.heap[u.next := a], next := u.next + 1);
    var u2 := u1.(env := u1.env[y := u1.next], heap := u1.heap[u1.next := b], next := u1.next + 1);
    assert Bind([x, y], [a, b], u) == Bind([y], [b], u1);
    assert Bind([y], [b], u1) == Bind([], Rest([b]), u2) == u2;
  }

  /** Reading written variables leaves no trace. */
  lemma NoTrace(fn: Fn, e: Expr, x: Name, u: User)
    requires e.Atom? && e.fields == {} && e.vars == {x} && x in u.env && u.env[x] in u.heap
    requires fn.ev(e, u).Yields? && fn.ev(e, u).u == u
    ensures EvalExpr(fn, e, u) == fn.ev(e, u)
  {
    assert UnsetCells(u, Vars(e)) == {};
    assert u.early + (Fields(e) - u.obj.Keys) == u.early && u.unset + {} == u.unset;
    assert Noted(e, u) == u;
    assert u.heap + u.heap == u.heap && u.obj + u.obj == u.obj;
    assert Keep(u, u) == u;
  }

  lemma HeaderRuns(fn: Fn, isA: (Val, int) -> bool, c: Catch, v: Val, st: State, fuel: nat)
    requires Faithful(fn, isA) && c.typ >= 0 && c.name != CAUGHT && c.name != MATCHED && Holds(st.u, v)
    ensures var u := Bind([c.name, MATCHED], if isA(v, c.typ) then [v, 1] else [0, 0], st.u);
            && ExecBlock(fn, Single(Declare([c.name, MATCHED], [TypeTest(c.typ)])), st, fuel) == R(Normal, st.(u := u))
            && EvalExpr(fn, Local(MATCHED), u) == Yields([if isA(v, c.typ) then 1 else 0], u)
            && Holds(u, v)
            && EvalExpr(fn, Local(c.name), u) == Yields([if isA(v, c.typ) then v else 0], u)
  {
    var vals := if isA(v, c.typ) then [v, 1] else [0, 0];
    var u := Bind([c.name, MATCHED], vals, st.u);
    var d := Declare([c.name, MATCHED], [TypeTest(c.typ)]);
    TestYields(fn, isA, c, v, st.u);
    assert Exec(fn, d, NO_LABEL, st, fuel) == ExecBasic(fn, d, st, fuel) == R(Normal, st.(u := u));
    assert ExecBlock(fn, Nil, st.(u := u), fuel) == R(Normal, st.(u := u));
    BindTwo(c.name, MATCHED, vals[0], vals[1], st.u);
    assert vals == [vals[0], vals[1]];
    NoTrace(fn, Local(MATCHED), MATCHED, u);
    NoTrace(fn, Local(c.name), c.name, u);
  }

  lemma TestYields(fn: Fn, isA: (Val, int) -> bool, c: Catch, v: Val, u: User)
    requires Faithful(fn, isA) && c.typ >= 0 && Holds(u, v)
    ensures EvalAll(fn, [TypeTest(c.typ)], u) == Yields(if isA(v, c.typ) then [v, 1] else [0, 0], u)
  {
    var e, vals := TypeTest(c.typ), if isA(v, c.typ) then [v, 1] else [0, 0];
    assert ValueOf(u, CAUGHT) == v;
    assert fn.ev(TypeTest(c.typ), u) ==
             Yields(if isA(ValueOf(u, CAUGHT), c.typ) then [ValueOf(u, CAUGHT), 1] else [0, 0], u);
    assert fn.ev(TypeTest(c.typ), u) == Yields(vals, u);
    NoTrace(fn, e, CAUGHT, u);
    assert [e][1..] == [] && vals + [] == vals;
    assert EvalAll(fn, [e][1..], u) == Yields([], u);
  }

  /** The chain runs exactly the first clause, in source order, whose type the
      exception has, with its variable bound to the exception; with no such
      clause it throws the same exception again. */
  lemma {:induction false} ChainSelects(fn: Fn, isA: (Val, int) -> bool, cs: seq<Catch>, v: Val, st: State, fuel: nat)
    requires Faithful(fn, isA) && ValidCatches(cs) && Holds(st.u, v)
    ensures var m := FirstMatch(isA, cs, v);
            ExecBlock(fn, Chain(cs), st, fuel)
            == if m == |cs| then R(Thrown(v, false), st.(u := TestedAll(st.u, cs).(env := st.u.env)))
               else Leave(ExecBlock(fn, cs[m].body, st.(u := Entered(st.u, cs, m, v)), fuel), st.u.env)
    decreases |cs|
  {
    if cs == [] {
      NoTrace(fn, Local(CAUGHT), CAUGHT, st.u);
      var t := Throw(Local(CAUGHT));
      assert Exec(fn, t, NO_LABEL, st, fuel) == ExecBasic(fn, t, st, fuel) == R(Thrown(v, false), st);
    } else {
      LinkRuns(fn, isA, cs, v, st, fuel);
      if isA(v, cs[0].typ) { assert cs[..0] == []; }
      else {
        assert ValidCatches(cs[1..]) by { assert forall i :: 0 <= i < |cs[1..]| ==> cs[1..][i] == cs[i + 1]; }
        HeaderRuns(fn, isA, cs[0], v, st, fuel);
        ChainSelects(fn, isA, cs[1..], v, st.(u := Tested(st.u, cs[0])), fuel);
        var m := FirstMatch(isA, cs, v);
        if m < |cs| { assert cs[..m][0] == cs[0] && cs[..m][1..] == cs[1..][..m - 1]; }
      }
    }
  }

  /** One link: the body on a match, the rest of the chain otherwise. */
  lemma LinkRuns(fn: Fn, isA: (Val, int) -> bool, cs: seq<Catch>, v: Val, st: State, fuel: nat)
    requires Faithful(fn, isA) && ValidCatches(cs) && Holds(st.u, v) && cs != []
    ensures ExecBlock(fn, Chain(cs), st, fuel) ==
            Leave(if isA(v, cs[0].typ)
                  then ExecBlock(fn, cs[0].body, st.(u := Bind([cs[0].name, MATCHED], [v, 1], st.u)), fuel)
                  else ExecBlock(fn, Chain(cs[1..]), st.(u := Tested(st.u, cs[0])), fuel), st.u.env)
  {
    var c, s := cs[0], Chain(cs).head;
    HeaderRuns(fn, isA, c, v, st, fuel);
    var st1 := st.(u := Bind([c.name, MATCHED], if isA(v, c.typ) then [v, 1] else [0, 0], st.u));
    assert Exec(fn, s, NO_LABEL, st, fuel) == ExecIf(fn, s, st, fuel)
        == Leave(ExecBlock(fn, if isA(v, c.typ) then s.thn else s.els, st1, fuel), st.u.env);
    BlockOfOne(fn, s, st, fuel);
    if isA(v, c.typ) {
      var named := Eval(Local(c.name));
      assert Exec(fn, named, NO_LABEL, st1, fuel) == ExecBasic(fn, named, st1, fuel) == R(Normal, st1);
    }
  }

  lemma BlockOfOne(fn: Fn, s: Stmt, st: State, fuel: nat)
    ensures ExecBlock(fn, Single(s), st, fuel) == Exec(fn, s, NO_LABEL, st, fuel)
  {
    var r := Exec(fn, s, NO_LABEL, st, fuel);
    assert ExecBlock(fn, Nil, r.st, fuel) == R(Normal, r.st);
  }

  // ----- what a clause body can name -----

  lemma {:induction false} TestedNames(u: User, cs: seq<Catch>, x: Name)
    requires ValidCatches(cs) && x != MATCHED
    ensures x !in (set c | c in cs :: c.name) ==>
              (x in TestedAll(u, cs).env <==> x in u.env) && (x in u.env ==> TestedAll(u, cs).env[x] == u.env[x])
    ensures x in (set c | c in cs :: c.name) ==> x in TestedAll(u, cs).env && TestedAll(u, cs).env[x] >= u.next
    ensures TestedAll(u, cs).next >= u.next
    decreases |cs|
  {
    if cs != [] {
      var w := Tested(u, cs[0]);
      BindTwo(cs[0].name, MATCHED, 0, 0, u);
      forall i | 0 <= i < |cs[1..]| ensures cs[1..][i] == cs[i + 1] {}
      TestedNames(w, cs[1..], x);
      assert cs == [cs[0]] + cs[1..];
    }
  }

  /** The body of clause `m` sees an outer variable unless that clause or an
      earlier one of the same `try` uses its name: the variables of clauses that
      did not match stay in scope, holding zero. */
  lemma OuterVariables(u: User, cs: seq<Catch>, m: nat, v: Val, x: Name)
    requires ValidCatches(cs) && m < |cs| && x in u.env && u.env[x] < u.next && x != MATCHED
    ensures x in Entered(u, cs, m, v).env
    ensures Entered(u, cs, m, v).env[x] == u.env[x] <==> forall i :: 0 <= i <= m ==> cs[i].name != x
  {
    TestedNames(u, cs[..m], x);
    var w := TestedAll(u, cs[..m]);
    BindTwo(cs[m].name, MATCHED, v, 1, w);
    if x in (set c | c in cs[..m] :: c.name) {
      var c :| c in cs[..m] && c.name == x;
      var i :| 0 <= i < m && cs[..m][i] == c;
      assert cs[i].name == x;
    } else {
      forall i | 0 <= i < m ensures cs[i].name != x { assert cs[..m][i] == cs[i]; assert cs[i] in cs[..m]; }
    }
  }
}
