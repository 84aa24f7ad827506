/** Which cached namespaces stay reused when classes inherit across namespaces
    (internal/compiler/semantic_cache.go). */
module Reuse {
  type Name = nat

  /** The namespaces of a class and of its parent. */
  datatype Edge = Edge(child: Name, parent: Name)

  /** Every inheritance edge has both ends in the set or both out of it. */
  predicate Balanced(edges: seq<Edge>, s: set<Name>) {
    forall i :: 0 <= i < |edges| ==> (edges[i].child in s <==> edges[i].parent in s)
  }

  /** Candidates for reuse, where a namespace goes together with every namespace its
      classes inherit from or are inherited by. */
  class Cache {
    var files: set<Name>

    constructor (candidates: set<Name>)
      ensures files == candidates
    {
      files := candidates;
    }

    /** Deletes both ends of unbalanced edges until none is left. What remains is
        the largest balanced subset of the candidates. */
    method Settle(edges: seq<Edge>)
      modifies this
      ensures files <= old(files) && Balanced(edges, files)
      ensures forall s: set<Name> :: s <= old(files) && Balanced(edges, s) ==> s <= files
    {
      var changed := true;
      while changed
        invariant files <= old(files)
        invariant forall s: set<Name> :: s <= old(files) && Balanced(edges, s) ==> s <= files
        invariant !changed ==> Balanced(edges, files)
        decreases files, changed
      {
        changed := Pass(edges, old(files));
      }
    }

    /** One pass over the classes. */
    method Pass(edges: seq<Edge>, ghost candidates: set<Name>) returns (changed: bool)
      requires files <= candidates && forall s: set<Name> :: s <= candidates && Balanced(edges, s) ==> s <= files
      modifies this
      ensures files <= old(files) && (changed ==> files < old(files))
      ensures forall s: set<Name> :: s <= candidates && Balanced(edges, s) ==> s <= files
      ensures !changed ==> Balanced(edges, files)
    {
      changed := false;
      for i := 0 to |edges|
        invariant files <= old(files) && (changed ==> files < old(files)) && (!changed ==> files == old(files))
        invariant forall s: set<Name> :: s <= candidates && Balanced(edges, s) ==> s <= files
        invariant !changed ==> forall j :: 0 <= j < i ==> (edges[j].child in files <==> edges[j].parent in files)
      {
        var a, b := edges[i].child, edges[i].parent;
        if (a in files) != (b in files) {
          forall s: set<Name> | s <= candidates && Balanced(edges, s) ensures s <= files - {a} - {b} {
            assert edges[i].child in s <==> edges[i].parent in s;
          }
          files := files - {a} - {b};
          changed := true;
        }
      }
    }
  }

  /** The result depends neither on the order of the classes nor on that in which
      edges are met. */
  lemma OrderIrrelevant(edges: seq<Edge>, others: seq<Edge>, candidates: set<Name>, a: set<Name>, b: set<Name>)
    requires forall e :: e in edges <==> e in others
    requires a <= candidates && Balanced(edges, a) && forall s: set<Name> ::
               s <= candidates && Balanced(edges, s) ==> s <= a
    requires b <= candidates && Balanced(others, b) && forall s: set<Name> ::
               s <= candidates && Balanced(others, s) ==> s <= b
    ensures a == b
  {
    forall s: set<Name> ensures Balanced(edges, s) <==> Balanced(others, s) {
      SameBalance(edges, others, s);
      SameBalance(others, edges, s);
    }
  }

  lemma SameBalance(edges: seq<Edge>, others: seq<Edge>, s: set<Name>)
    requires forall e :: e in edges <==> e in others
    ensures Balanced(edges, s) ==> Balanced(others, s)
  {
    if Balanced(edges, s) {
      forall i | 0 <= i < |others| ensures others[i].child in s <==> others[i].parent in s {
        assert others[i] in edges;
        var j :| 0 <= j < |edges| && edges[j] == others[i];
      }
    }
  }

  // ----- which namespaces survive -----

  predicate Linked(edges: seq<Edge>, a: Name, b: Name) {
    Edge(a, b) in edges || Edge(b, a) in edges
  }

  predicate Walk(edges: seq<Edge>, p: seq<Name>) {
    |p| > 0 && forall i :: 0 <= i < |p| - 1 ==> Linked(edges, p[i], p[i + 1])
  }

  /** A namespace is connected only with candidates. */
  ghost predicate Safe(edges: seq<Edge>, candidates: set<Name>, n: Name) {
    forall p: seq<Name> :: Walk(edges, p) && p[0] == n ==> p[|p| - 1] in candidates
  }

  lemma {:induction false} BalancedWalk(edges: seq<Edge>, s: set<Name>, p: seq<Name>)
    requires Balanced(edges, s) && Walk(edges, p) && p[0] in s
    ensures p[|p| - 1] in s
    decreases |p|
  {
    if |p| > 1 {
      assert Linked(edges, p[0], p[1]);
      var e := if Edge(p[0], p[1]) in edges then Edge(p[0], p[1]) else Edge(p[1], p[0]);
      var i :| 0 <= i < |edges| && edges[i] == e;
      var rest := p[1..];
      forall k | 0 <= k < |rest| - 1 ensures Linked(edges, rest[k], rest[k + 1]) {
        assert Linked(edges, p[k + 1], p[k + 2]);
      }
      BalancedWalk(edges, s, rest);
    }
  }

  /** A candidate keeps its cached declarations exactly when everything connected
      with it by inheritance is a candidate too. */
  lemma SurvivesIffSafe(edges: seq<Edge>, candidates: set<Name>, kept: set<Name>, n: Name)
    requires kept <= candidates && Balanced(edges, kept)
    requires forall s: set<Name> :: s <= candidates && Balanced(edges, s) ==> s <= kept
    ensures n in kept <==> Safe(edges, candidates, n)
  {
    if n in kept {
      forall p: seq<Name> | Walk(edges, p) && p[0] == n ensures p[|p| - 1] in candidates {
        BalancedWalk(edges, kept, p);
      }
    }
    if Safe(edges, candidates, n) {
      assert Walk(edges, [n]) && [n][|[n]| - 1] == n;
      var safe := set m | m in candidates && Safe(edges, candidates, m);
      forall i | 0 <= i < |edges| ensures edges[i].child in safe <==> edges[i].parent in safe {
        var a, b := edges[i].child, edges[i].parent;
        assert Edge(a, b) == edges[i] && Edge(a, b) in edges;
        SafeSpreads(edges, candidates, a, b);
        SafeSpreads(edges, candidates, b, a);
      }
      assert Balanced(edges, safe);
    }
  }

  lemma SafeSpreads(edges: seq<Edge>, candidates: set<Name>, a: Name, b: Name)
    requires Linked(edges, a, b)
    ensures Safe(edges, candidates, a) ==> Safe(edges, candidates, b) && b in candidates
  {
    if Safe(edges, candidates, a) {
      forall p: seq<Name> | Walk(edges, p) && p[0] == b ensures p[|p| - 1] in candidates {
        var longer := [a] + p;
        forall k | 0 <= k < |longer| - 1 ensures Linked(edges, longer[k], longer[k + 1]) {
          if k > 0 { assert Linked(edges, p[k - 1], p[k]); }
        }
        assert Walk(edges, longer) && longer[0] == a && longer[|longer| - 1] == p[|p| - 1];
      }
      assert Walk(edges, [b]) && [b][|[b]| - 1] == b;
    }
  }
}
