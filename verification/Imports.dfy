/** The check that rejects import cycles (internal/compiler/generate.go): a
    depth-first search with three colours. */
module Imports {
  type Name = nat

  type Graph = map<Name, seq<Name>>

  /** Every import names a namespace of the project; other imports are rejected
      before the search. */
  predicate Closed(g: Graph) {
    forall n, i :: n in g && 0 <= i < |g[n]| ==> g[n][i] in g
  }

  predicate Edge(g: Graph, a: Name, b: Name) {
    a in g && b in g[a]
  }

  /** Each element imports the next one. */
  predicate Chain(g: Graph, p: seq<Name>) {
    forall i :: 0 <= i < |p| - 1 ==> Edge(g, p[i], p[i + 1])
  }

  predicate Cycle(g: Graph, p: seq<Name>) {
    |p| >= 2 && Chain(g, p) && p[0] == p[|p| - 1]
  }

  ghost predicate Acyclic(g: Graph) {
    forall p: seq<Name> :: !Cycle(g, p)
  }

  /** Imports have smaller ranks. */
  predicate Ranked(g: Graph, rank: map<Name, nat>, done: set<Name>) {
    && done <= g.Keys && done <= rank.Keys
    && forall n, i :: n in done && 0 <= i < |g[n]| ==> g[n][i] in done && rank[g[n][i]] < rank[n]
  }

  lemma {:induction false} RankFalls(g: Graph, rank: map<Name, nat>, p: seq<Name>)
    requires Ranked(g, rank, g.Keys) && Chain(g, p) && |p| >= 2
    ensures p[0] in rank && p[|p| - 1] in rank && rank[p[|p| - 1]] < rank[p[0]]
    decreases |p|
  {
    assert Edge(g, p[0], p[1]);
    var i :| 0 <= i < |g[p[0]]| && g[p[0]][i] == p[1];
    if |p| > 2 {
      var rest := p[1..];
      forall k | 0 <= k < |rest| - 1 ensures Edge(g, rest[k], rest[k + 1]) { assert Edge(g, p[k + 1], p[k + 2]); }
      RankFalls(g, rank, rest);
    }
  }

  lemma RankedAcyclic(g: Graph, rank: map<Name, nat>)
    requires Ranked(g, rank, g.Keys)
    ensures Acyclic(g)
  {
    forall p: seq<Name> ensures !Cycle(g, p) {
      if Cycle(g, p) { RankFalls(g, rank, p); }
    }
  }

  class Search {
    const g: Graph
    var state: map<Name, int>           // 1 while a namespace is being visited, 2 afterwards
    ghost var rank: map<Name, nat>

    ghost function Coloured(c: int): set<Name>
      reads this
    {
      set n | n in state && state[n] == c
    }

    /** Finished namespaces are ranked; those being visited form the chain `path`. */
    ghost predicate Valid(path: seq<Name>)
      reads this
    {
      && Closed(g) && state.Keys <= g.Keys
      && (forall n :: n in state ==> state[n] == 1 || state[n] == 2)
      && Ranked(g, rank, Coloured(2))
      && Chain(g, path) && (forall n :: n in path <==> n in Coloured(1))
    }

    constructor (g: Graph)
      requires Closed(g)
      ensures this.g == g && Valid([]) && state == map[]
    {
      this.g := g;
      state, rank := map[], map[];
    }

    method Visit(name: Name, ghost path: seq<Name>) returns (ok: bool, ghost cycle: seq<Name>)
      requires Valid(path) && name in g && (path == [] || Edge(g, path[|path| - 1], name))
      modifies this
      ensures ok ==> Valid(path) && name in Coloured(2) && old(Coloured(2)) <= Coloured(2)
                     && Coloured(1) == old(Coloured(1))
      ensures ok ==> old(state.Keys) <= state.Keys
      ensures !ok ==> Cycle(g, cycle)
      decreases g.Keys - state.Keys
    {
      cycle := [];
      if name in state && state[name] == 1 {
        assert name in Coloured(1);
        ghost var k :| 0 <= k < |path| && path[k] == name;
        cycle := path[k..] + [name];
        return false, cycle;
      }
      if name in state && state[name] == 2 { return true, cycle; }
      ghost var below := path + [name];
      Enter(path, name);
      var i := 0;
      while i < |g[name]|
        invariant 0 <= i <= |g[name]|
        invariant Valid(below) && old(Coloured(2)) <= Coloured(2) && Coloured(1) == old(Coloured(1)) + {name}
        invariant old(state.Keys) + {name} <= state.Keys
        invariant forall j :: 0 <= j < i ==> g[name][j] in Coloured(2)
      {
        assert Edge(g, name, g[name][i]);
        ok, cycle := Visit(g[name][i], below);
        if !ok { return false, cycle; }
        i := i + 1;
      }
      Finish(path, name);
      return true, [];
    }

    /** The namespace joins the path. */
    method Enter(ghost path: seq<Name>, name: Name)
      requires Valid(path) && name in g && name !in state && (path == [] || Edge(g, path[|path| - 1], name))
      modifies this`state
      ensures Valid(path + [name]) && state.Keys == old(state.Keys) + {name}
      ensures Coloured(2) == old(Coloured(2)) && Coloured(1) == old(Coloured(1)) + {name}
    {
      ghost var visiting, done := Coloured(1), Coloured(2);
      state := state[name := 1];
      assert Coloured(2) == done && Coloured(1) == visiting + {name};
    }

    /** All imports are finished: the namespace is ranked above them. */
    method Finish(ghost path: seq<Name>, name: Name)
      requires Valid(path + [name]) && name in Coloured(1) && name !in path
      requires forall j :: 0 <= j < |g[name]| ==> g[name][j] in Coloured(2)
      modifies this
      ensures Valid(path) && Coloured(2) == old(Coloured(2)) + {name} && Coloured(1) == old(Coloured(1)) - {name}
      ensures state.Keys == old(state.Keys)
    {
      ghost var top := Above(rank, g[name]);
      ghost var done, visiting := Coloured(2), Coloured(1);
      assert name !in done;
      rank := rank[name := top];
      state := state[name := 2];
      assert Coloured(2) == done + {name};
      assert Coloured(1) == visiting - {name};
      forall n ensures n in path <==> n in Coloured(1) { assert n in visiting <==> n in path + [name]; }
      forall k | 0 <= k < |path| - 1 ensures Edge(g, path[k], path[k + 1]) {
        assert Edge(g, (path + [name])[k], (path + [name])[k + 1]);
      }
      forall n, i | n in done + {name} && 0 <= i < |g[n]|
        ensures g[n][i] in done + {name} && rank[g[n][i]] < rank[n]
      {
        if n == name { AboveAll(old(rank), g[name], i); }
      }
    }

    /** Accepts exactly the projects whose import graph has no cycle. */
    method Resolve(ordered: seq<Name>) returns (ok: bool)
      requires Valid([]) && state == map[] && (forall n :: n in g <==> n in ordered)
      modifies this
      ensures ok <==> Acyclic(g)
      ensures ok ==> Ranked(g, rank, g.Keys)
    {
      var i := 0;
      while i < |ordered|
        invariant 0 <= i <= |ordered| && Valid([]) && Coloured(1) == {}
        invariant forall j :: 0 <= j < i ==> ordered[j] in Coloured(2)
      {
        ghost var cycle;
        ok, cycle := Visit(ordered[i], []);
        if !ok { return false; }
        i := i + 1;
      }
      assert Coloured(2) == g.Keys;
      RankedAcyclic(g, rank);
      ok := true;
    }
  }

  /** A rank above those of all listed namespaces. */
  function Above(rank: map<Name, nat>, names: seq<Name>): nat
    requires forall i :: 0 <= i < |names| ==> names[i] in rank
    decreases |names|
  {
    if names == [] then 0
    else
      var rest := Above(rank, names[1..]);
      if rank[names[0]] >= rest then rank[names[0]] + 1 else rest
  }

  lemma {:induction false} AboveAll(rank: map<Name, nat>, names: seq<Name>, i: nat)
    requires i < |names| && forall i :: 0 <= i < |names| ==> names[i] in rank
    ensures rank[names[i]] < Above(rank, names)
    decreases |names|
  {
    if i > 0 { AboveAll(rank, names[1..], i - 1); }
  }
}
