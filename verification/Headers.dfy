/** How the machine runs statements with a header and deferred callbacks, as
    equations. */
module Headers {
  import opened Syntax
  import opened Machine

  ghost function AfterHeader(fn: Fn, s: Stmt, lab: Name, st: State, fuel: nat): R
    requires s.If? || s.For? || s.Switch?
  {
    if s.If? then
      match EvalExpr(fn, s.test, st.u)
      case Raises(v, n, w) => R(Thrown(v, n), st.(u := w))
      case Yields(vs, w) => ExecBlock(fn, if First(vs) != 0 then s.thn else s.els, st.(u := w), fuel)
    else if s.For? then Loop(fn, s, lab, st, fuel)
    else
      match EvalCond(fn, s.tag, st.u)
      case Raises(v, n, w) => R(Thrown(v, n), st.(u := w))
      case Yields(vs, w) => ExecCases(fn, s.clauses, First(vs), lab, st.(u := w), fuel)
  }

  lemma HeaderFirst(fn: Fn, s: Stmt, lab: Name, st: State, fuel: nat)
    requires s.If? || s.For? || s.Switch?
    ensures var i := ExecBlock(fn, s.init, st, fuel);
            Exec(fn, s, lab, st, fuel) ==
                Leave(if i.c.Normal? then AfterHeader(fn, s, lab, i.st, fuel) else i, st.u.env)
  {
    if s.If? { assert Exec(fn, s, lab, st, fuel) == ExecIf(fn, s, st, fuel); }
    else if s.For? { assert Exec(fn, s, lab, st, fuel) == ExecFor(fn, s, lab, st, fuel); }
    else { assert Exec(fn, s, lab, st, fuel) == ExecSwitch(fn, s, lab, st, fuel); }
  }

  function Count(cs: Clauses): nat {
    if cs.NoClauses? then 0 else 1 + Count(cs.rest)
  }

  lemma {:induction false} DefaultFound(cs: Clauses, index: int)
    ensures if HasDefault(cs) then index <= DefaultIndex(cs, index) < index + Count(cs)
            else DefaultIndex(cs, index) == -1
    decreases cs
  {
    if cs.Clause? { DefaultFound(cs.rest, index + 1); }
  }

  // ----- deferred callbacks -----

  /** A callback ends the function with its own exception, or leaves its end alone. */
  lemma {:induction false} ThrownStays(fn: Fn, vs: seq<Val>, c: Comp, st: State)
    ensures var r := RunDeferred(fn, AsCallbacks(vs), c, st); r.c == c || r.c.Thrown?
    decreases |vs|
  {
    if vs != [] {
      var r := RunCallback(fn, vs[|vs| - 1], c, st);
      assert AsCallbacks(vs)[..|vs| - 1] == AsCallbacks(vs[..|vs| - 1]);
      ThrownStays(fn, vs[..|vs| - 1], r.c, r.st);
    }
  }

  /** The callback registered last runs first. */
  lemma LastFirst(fn: Fn, vs: seq<Val>, c: Comp, st: State)
    ensures vs == [] ==> RunCallbacks(fn, vs, c, st) == R(c, st)
    ensures vs != [] ==>
              var r := RunCallback(fn, vs[|vs| - 1], c, st);
              RunCallbacks(fn, vs, c, st) == RunCallbacks(fn, vs[..|vs| - 1], r.c, r.st)
  {
    if vs != [] {
      var ended := if c.Thrown? then c else Normal;
      var r := RunCallback(fn, vs[|vs| - 1], ended, st);
      assert AsCallbacks(vs)[..|vs| - 1] == AsCallbacks(vs[..|vs| - 1]);
      assert RunOne(fn, AsCallbacks(vs)[|vs| - 1], ended, st) == r;
      ThrownStays(fn, vs[..|vs| - 1], r.c, r.st);
    }
  }
}
