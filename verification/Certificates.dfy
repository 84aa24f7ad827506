/** Namespace certificates (internal/compiler/semantic_cache.go): a key that
    hashes a namespace's sources, the inheritance graph and the keys of its
    imports, and the set of namespaces whose cached declarations are reused. */
module Certificates {
  import opened Imports

  type Key = nat
  type Text = nat

  /** One source file; `path` and the names of namespaces share one space of texts. */
  datatype File = File(path: Text, source: Text)

  datatype Namespace = Namespace(files: seq<File>, imports: seq<Name>)

  /** `graph` lists the inheritance edges of all classes. */
  datatype Project = Project(environment: Text, graph: seq<Text>, namespaces: map<Name, Namespace>)

  /** What is fed to the hash: the pairs are files, then imports with their keys. */
  datatype Content = Content(environment: Text, name: Name, graph: seq<Text>, pairs: seq<(Text, Text)>)

  function GraphOf(p: Project): Graph {
    map n | n in p.namespaces :: p.namespaces[n].imports
  }

  // ----- sorting -----

  function Insert(x: nat, s: seq<nat>): seq<nat> {
    if s == [] || x <= s[0] then [x] + s else [s[0]] + Insert(x, s[1..])
  }

  function Sort(s: seq<nat>): seq<nat> {
    if s == [] then [] else Insert(s[0], Sort(s[1..]))
  }

  predicate Ascending(s: seq<nat>) {
    forall i, j :: 0 <= i < j < |s| ==> s[i] <= s[j]
  }

  lemma {:induction false} InsertKeeps(x: nat, s: seq<nat>)
    ensures multiset(Insert(x, s)) == multiset(s) + multiset{x}
    decreases |s|
  {
    if s != [] && x > s[0] {
      assert s == [s[0]] + s[1..];
      InsertKeeps(x, s[1..]);
    }
  }

  lemma {:induction false} InsertBounded(x: nat, s: seq<nat>, low: nat)
    requires low <= x && forall i :: 0 <= i < |s| ==> low <= s[i]
    ensures forall i :: 0 <= i < |Insert(x, s)| ==> low <= Insert(x, s)[i]
    decreases |s|
  {
    if s != [] && x > s[0] { InsertBounded(x, s[1..], low); }
  }

  lemma {:induction false} InsertAscends(x: nat, s: seq<nat>)
    requires Ascending(s)
    ensures Ascending(Insert(x, s))
    decreases |s|
  {
    if s != [] && x > s[0] {
      InsertAscends(x, s[1..]);
      InsertBounded(x, s[1..], s[0]);
    }
  }

  lemma {:induction false} SortKeeps(s: seq<nat>)
    ensures multiset(Sort(s)) == multiset(s) && Ascending(Sort(s))
    decreases |s|
  {
    if s != [] {
      SortKeeps(s[1..]);
      InsertKeeps(s[0], Sort(s[1..]));
      InsertAscends(s[0], Sort(s[1..]));
      assert s == [s[0]] + s[1..];
    }
  }

  lemma HeadLeast(a: seq<nat>, b: seq<nat>)
    requires a != [] && Ascending(b) && multiset(a) == multiset(b)
    ensures b != [] && b[0] <= a[0]
  {
    assert a[0] in multiset(a);
    assert a[0] in multiset(b);
    var i :| 0 <= i < |b| && b[i] == a[0];
  }

  lemma WithoutHead(a: seq<nat>)
    requires a != []
    ensures multiset(a[1..]) == multiset(a) - multiset{a[0]}
  {
    assert a == [a[0]] + a[1..];
  }

  /** Two ascending arrangements of the same elements are equal. */
  lemma {:induction false} OneArrangement(a: seq<nat>, b: seq<nat>)
    requires Ascending(a) && Ascending(b) && multiset(a) == multiset(b)
    ensures a == b
    decreases |a|
  {
    if a == [] {
      if b != [] { HeadLeast(b, a); }
    } else {
      HeadLeast(a, b);
      HeadLeast(b, a);
      WithoutHead(a);
      WithoutHead(b);
      OneArrangement(a[1..], b[1..]);
      assert a == [a[0]] + a[1..] && b == [b[0]] + b[1..];
    }
  }

  // ----- keys -----

  predicate Acceptable(p: Project, rank: map<Name, nat>) {
    Closed(GraphOf(p)) && Ranked(GraphOf(p), rank, p.namespaces.Keys)
  }

  function FilePairs(files: seq<File>): seq<(Text, Text)> {
    seq(|files|, i requires 0 <= i < |files| => (files[i].path, files[i].source))
  }

  /** Key of a namespace; the recursion follows imports, which only an acyclic
      graph lets end. */
  function KeyOf(hash: Content -> Key, p: Project, rank: map<Name, nat>, n: Name): Key
    requires Acceptable(p, rank) && n in p.namespaces
    decreases rank[n], 2
  {
    hash(ContentOf(hash, p, rank, n))
  }

  function ContentOf(hash: Content -> Key, p: Project, rank: map<Name, nat>, n: Name): Content
    requires Acceptable(p, rank) && n in p.namespaces
    decreases rank[n], 1
  {
    var ns := p.namespaces[n];
    SortedImports(p, rank, n);
    Content(p.environment, n, Sort(p.graph), FilePairs(ns.files) + ImportPairs(hash, p, rank, n, Sort(ns.imports)))
  }

  lemma SortedImports(p: Project, rank: map<Name, nat>, n: Name)
    requires Acceptable(p, rank) && n in p.namespaces
    ensures forall d :: d in Sort(p.namespaces[n].imports) ==> d in p.namespaces && rank[d] < rank[n]
    ensures forall d :: d in p.namespaces[n].imports <==> d in Sort(p.namespaces[n].imports)
  {
    var s := p.namespaces[n].imports;
    SortKeeps(s);
    forall d ensures d in s <==> d in Sort(s) { assert d in multiset(s) <==> d in multiset(Sort(s)); }
    forall d | d in s ensures d in p.namespaces && rank[d] < rank[n] {
      var i :| 0 <= i < |s| && s[i] == d;
      assert GraphOf(p)[n][i] == d;
    }
  }

  function ImportPairs(hash: Content -> Key, p: Project, rank: map<Name, nat>, n: Name,
                       deps: seq<Name>): (r: seq<(Text, Text)>)
    requires Acceptable(p, rank) && n in p.namespaces && forall d ::
               d in deps ==> d in p.namespaces && rank[d] < rank[n]
    ensures |r| == |deps|
    ensures forall i :: 0 <= i < |deps| ==> r[i] == (deps[i], KeyOf(hash, p, rank, deps[i]))
    decreases rank[n], 0, |deps|
  {
    if deps == [] then []
    else [(deps[0], KeyOf(hash, p, rank, deps[0]))] + ImportPairs(hash, p, rank, n, deps[1..])
  }

  // ----- what a key certifies -----

  ghost predicate CollisionFree(hash: Content -> Key) {
    forall a, b :: hash(a) == hash(b) ==> a == b
  }

  /** File paths are never names of namespaces, so the list of pairs can be split. */
  ghost predicate PathsApart(p: Project, isPath: Text -> bool) {
    && (forall n :: n in p.namespaces ==> !isPath(n))
    && (forall n, i :: n in p.namespaces && 0 <= i < |p.namespaces[n].files| ==> isPath(p.namespaces[n].files[i].path))
  }

  /** The same environment, inheritance graph, sources and imports. */
  predicate SameInputs(p: Project, q: Project, n: Name) {
    && n in p.namespaces && n in q.namespaces
    && p.environment == q.environment && multiset(p.graph) == multiset(q.graph)
    && p.namespaces[n].files == q.namespaces[n].files
    && multiset(p.namespaces[n].imports) == multiset(q.namespaces[n].imports)
  }

  lemma KeySplits(hash: Content -> Key, isPath: Text -> bool, p: Project, rp: map<Name, nat>, q: Project,
                  rq: map<Name, nat>, n: Name, m: Name)
    requires CollisionFree(hash) && Acceptable(p, rp) && Acceptable(q, rq) && PathsApart(p, isPath)
             && PathsApart(q, isPath)
    requires n in p.namespaces && m in q.namespaces && KeyOf(hash, p, rp, n) == KeyOf(hash, q, rq, m)
    ensures n == m && SameInputs(p, q, n)
    ensures Sort(p.namespaces[n].imports) == Sort(q.namespaces[n].imports)
    ensures forall d :: d in p.namespaces[n].imports ==>
              d in p.namespaces && d in q.namespaces && KeyOf(hash, p, rp, d) == KeyOf(hash, q, rq, d)
  {
    var a, b := ContentOf(hash, p, rp, n), ContentOf(hash, q, rq, m);
    assert a == b;
    SortKeeps(p.graph);
    SortKeeps(q.graph);
    SortedImports(p, rp, n);
    SortedImports(q, rq, n);
    var dp, dq := Sort(p.namespaces[n].imports), Sort(q.namespaces[n].imports);
    var fp, fq := p.namespaces[n].files, q.namespaces[n].files;
    PairsSplit(isPath, fp, ImportPairs(hash, p, rp, n, dp), fq, ImportPairs(hash, q, rq, n, dq));
    var ip, iq := ImportPairs(hash, p, rp, n, dp), ImportPairs(hash, q, rq, n, dq);
    forall i | 0 <= i < |dp| ensures dp[i] == dq[i] && KeyOf(hash, p, rp, dp[i]) == KeyOf(hash, q, rq, dq[i]) {
      assert ip[i] == iq[i];
    }
    assert dp == dq;
    SortKeeps(p.namespaces[n].imports);
    SortKeeps(q.namespaces[n].imports);
    forall d | d in p.namespaces[n].imports
      ensures d in p.namespaces && d in q.namespaces && KeyOf(hash, p, rp, d) == KeyOf(hash, q, rq, d)
    {
      var i :| 0 <= i < |dp| && dp[i] == d;
    }
  }

  /** Number of leading pairs that are files. */
  function LeadingPaths(isPath: Text -> bool, pairs: seq<(Text, Text)>): nat {
    if pairs == [] || !isPath(pairs[0].0) then 0 else 1 + LeadingPaths(isPath, pairs[1..])
  }

  lemma {:induction false} FilesLead(isPath: Text -> bool, files: seq<File>, rest: seq<(Text, Text)>)
    requires (forall i :: 0 <= i < |files| ==> isPath(files[i].path)) && (rest == [] || !isPath(rest[0].0))
    ensures LeadingPaths(isPath, FilePairs(files) + rest) == |files|
    decreases |files|
  {
    var all := FilePairs(files) + rest;
    if files == [] { assert all == rest; }
    else {
      assert all[1..] == FilePairs(files[1..]) + rest;
      FilesLead(isPath, files[1..], rest);
    }
  }

  lemma PairsSplit(isPath: Text -> bool, fp: seq<File>, ip: seq<(Text, Text)>, fq: seq<File>, iq: seq<(Text, Text)>)
    requires FilePairs(fp) + ip == FilePairs(fq) + iq
    requires (forall i :: 0 <= i < |fp| ==> isPath(fp[i].path)) && (forall i :: 0 <= i < |fq| ==> isPath(fq[i].path))
    requires (forall i :: 0 <= i < |ip| ==> !isPath(ip[i].0)) && (forall i :: 0 <= i < |iq| ==> !isPath(iq[i].0))
    ensures fp == fq && ip == iq
  {
    var a, b := FilePairs(fp) + ip, FilePairs(fq) + iq;
    FilesLead(isPath, fp, ip);
    FilesLead(isPath, fq, iq);
    forall i | 0 <= i < |fp| ensures fp[i] == fq[i] {
      assert a[i] == FilePairs(fp)[i] && b[i] == FilePairs(fq)[i];
    }
    assert ip == a[|fp|..] && iq == b[|fq|..];
  }

  /** Equal keys in an old and a new project certify that the namespace and
      everything it transitively imports have not changed. */
  lemma {:induction false} KeyCertifies(hash: Content -> Key, isPath: Text -> bool, p: Project, rp: map<Name, nat>,
                                        q: Project, rq: map<Name, nat>,
                                       path: seq<Name>)
    requires CollisionFree(hash) && Acceptable(p, rp) && Acceptable(q, rq) && PathsApart(p, isPath)
             && PathsApart(q, isPath)
    requires path != [] && Chain(GraphOf(p), path) && path[0] in p.namespaces && path[0] in q.namespaces
    requires KeyOf(hash, p, rp, path[0]) == KeyOf(hash, q, rq, path[0])
    ensures SameInputs(p, q, path[|path| - 1])
    ensures KeyOf(hash, p, rp, path[|path| - 1]) == KeyOf(hash, q, rq, path[|path| - 1])
    decreases |path|
  {
    KeySplits(hash, isPath, p, rp, q, rq, path[0], path[0]);
    if |path| > 1 {
      assert Edge(GraphOf(p), path[0], path[1]);
      var rest := path[1..];
      forall k | 0 <= k < |rest| - 1 ensures Edge(GraphOf(p), rest[k], rest[k + 1]) {
        assert Edge(GraphOf(p), path[k + 1], path[k + 2]);
      }
      KeyCertifies(hash, isPath, p, rp, q, rq, rest);
    }
  }

  /** Nothing reachable from the namespace has changed. */
  ghost predicate Unchanged(p: Project, q: Project, n: Name) {
    forall path: seq<Name> ::
        path != [] && path[0] == n && Chain(GraphOf(p), path) ==> SameInputs(p, q, path[|path| - 1])
  }

  lemma SameBelow(p: Project, q: Project, n: Name, d: Name)
    requires Unchanged(p, q, n) && n in p.namespaces && d in p.namespaces[n].imports
    ensures Unchanged(p, q, d)
  {
    var g := GraphOf(p);
    forall path: seq<Name> | path != [] && path[0] == d && Chain(g, path) ensures SameInputs(p, q, path[|path| - 1]) {
      var longer := [n] + path;
      forall k | 0 <= k < |longer| - 1 ensures Edge(g, longer[k], longer[k + 1]) {
        if k > 0 { assert Edge(g, path[k - 1], path[k]); }
      }
      assert longer[|longer| - 1] == path[|path| - 1];
    }
  }

  /** Conversely, nothing but these inputs enters a key. */
  lemma {:induction false} InputsDetermineKey(hash: Content -> Key, p: Project, rp: map<Name, nat>, q: Project,
                                              rq: map<Name, nat>, n: Name)
    requires Acceptable(p, rp) && Acceptable(q, rq) && n in p.namespaces
    requires Unchanged(p, q, n)
    ensures n in q.namespaces && KeyOf(hash, p, rp, n) == KeyOf(hash, q, rq, n)
    decreases rp[n]
  {
    SameHere(p, q, n);
    SortedImports(p, rp, n);
    SortedImports(q, rq, n);
    var deps := Sort(p.namespaces[n].imports);
    forall d | d in deps ensures d in q.namespaces && KeyOf(hash, p, rp, d) == KeyOf(hash, q, rq, d) {
      SameBelow(p, q, n, d);
      InputsDetermineKey(hash, p, rp, q, rq, d);
    }
    SamePairs(hash, p, rp, q, rq, n, deps);
  }

  lemma SameHere(p: Project, q: Project, n: Name)
    requires Unchanged(p, q, n)
    ensures SameInputs(p, q, n) && Sort(p.graph) == Sort(q.graph)
            && Sort(p.namespaces[n].imports) == Sort(q.namespaces[n].imports)
  {
    assert Chain(GraphOf(p), [n]) && SameInputs(p, q, [n][|[n]| - 1]);
    SortKeeps(p.graph);
    SortKeeps(q.graph);
    OneArrangement(Sort(p.graph), Sort(q.graph));
    SortKeeps(p.namespaces[n].imports);
    SortKeeps(q.namespaces[n].imports);
    OneArrangement(Sort(p.namespaces[n].imports), Sort(q.namespaces[n].imports));
  }

  lemma SamePairs(hash: Content -> Key, p: Project, rp: map<Name, nat>, q: Project, rq: map<Name, nat>, n: Name,
                  deps: seq<Name>)
    requires Acceptable(p, rp) && Acceptable(q, rq) && n in p.namespaces && n in q.namespaces
    requires forall d :: d in deps ==> d in p.namespaces && rp[d] < rp[n] && d in q.namespaces && rq[d] < rq[n]
    requires forall d :: d in deps ==> KeyOf(hash, p, rp, d) == KeyOf(hash, q, rq, d)
    ensures ImportPairs(hash, p, rp, n, deps) == ImportPairs(hash, q, rq, n, deps)
  {
    var a, b := ImportPairs(hash, p, rp, n, deps), ImportPairs(hash, q, rq, n, deps);
    forall i | 0 <= i < |deps| ensures a[i] == b[i] { assert deps[i] in deps; }
  }

  // ----- keys with a memo -----

  class Keys {
    const project: Project
    var keys: map<Name, Key>

    ghost predicate Valid(hash: Content -> Key, rank: map<Name, nat>)
      reads this
    {
      Acceptable(project, rank) && forall n ::
          n in keys ==> n in project.namespaces && keys[n] == KeyOf(hash, project, rank, n)
    }

    constructor (project: Project, ghost hash: Content -> Key, ghost rank: map<Name, nat>)
      requires Acceptable(project, rank)
      ensures this.project == project && keys == map[] && Valid(hash, rank)
    {
      this.project := project;
      keys := map[];
    }

    method KeyFor(hash: Content -> Key, n: Name, ghost rank: map<Name, nat>) returns (k: Key)
      requires Valid(hash, rank) && n in project.namespaces
      modifies this
      ensures Valid(hash, rank) && k == KeyOf(hash, project, rank, n) && n in keys && old(keys.Keys) <= keys.Keys
      decreases rank[n], 1
    {
      if n in keys { return keys[n]; }
      var ns := project.namespaces[n];
      SortedImports(project, rank, n);
      var deps := Sort(ns.imports);
      var imported := KeysFor(hash, n, deps, rank);
      k := hash(Content(project.environment, n, Sort(project.graph), FilePairs(ns.files) + imported));
      keys := keys[n := k];
    }

    method KeysFor(hash: Content -> Key, ghost n: Name, deps: seq<Name>, ghost rank: map<Name, nat>)
      returns (pairs: seq<(Text, Text)>)
      requires Valid(hash, rank) && n in project.namespaces && forall d ::
                 d in deps ==> d in project.namespaces && rank[d] < rank[n]
      modifies this
      ensures Valid(hash, rank) && old(keys.Keys) <= keys.Keys
      ensures pairs == ImportPairs(hash, project, rank, n, deps)
      decreases rank[n], 0
    {
      pairs := [];
      for i := 0 to |deps|
        invariant Valid(hash, rank) && old(keys.Keys) <= keys.Keys
        invariant |pairs| == i && forall j :: 0 <= j < i ==> pairs[j] == (deps[j], KeyOf(hash, project, rank, deps[j]))
      {
        var key := KeyFor(hash, deps[i], rank);
        pairs := pairs + [(deps[i], key)];
      }
    }
  }
}
