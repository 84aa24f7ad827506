/** The on-disk build cache and its publish protocol
    (internal/compiler/build_cache.go): a generation is announced by a state file
    that is removed before anything is written and written last. */
module BuildCache {
  import opened Options

  type Path = nat
  type Data = nat
  type Digest = nat
  type Key = nat

  /** Absent, half written, or complete. A half-written file does not parse. */
  datatype StateFile = Absent | Torn | Complete(state: State)

  datatype State = State(key: Key, files: map<Path, Digest>)

  datatype Disk = Disk(workspace: map<Path, Data>, state: StateFile)

  function Digests(hash: Data -> Digest, files: map<Path, Data>): map<Path, Digest> {
    map p | p in files :: hash(files[p])
  }

  /** What `snapshot` accepts. */
  function Snapshot(hash: Data -> Digest, d: Disk): Option<State> {
    if !d.state.Complete? || d.state.state.files == map[] then None
    else if Digests(hash, d.workspace) != d.state.state.files then None
    else Some(d.state.state)
  }

  ghost predicate CollisionFree(hash: Data -> Digest) {
    forall a, b :: hash(a) == hash(b) ==> a == b
  }

  lemma SameDigestsSameFiles(hash: Data -> Digest, a: map<Path, Data>, b: map<Path, Data>)
    requires CollisionFree(hash) && Digests(hash, a) == Digests(hash, b)
    ensures a == b
  {
    assert a.Keys == Digests(hash, a).Keys == Digests(hash, b).Keys == b.Keys;
    forall p | p in a ensures a[p] == b[p] { assert Digests(hash, a)[p] == Digests(hash, b)[p]; }
  }

  /** How one call of `store` can leave the disk: unchanged if it stopped before its
      first operation; with no readable state file if it stopped later; complete. */
  ghost predicate StoreLeaves(hash: Data -> Digest, key: Key, staging: map<Path, Data>, before: Disk, after: Disk,
                              done: bool) {
    if done then after == Disk(staging, Complete(State(key, Digests(hash, staging))))
    else after == before || !after.state.Complete?
  }

  /** The files whose digest is not the one seen. */
  function Differing(hash: Data -> Digest, staging: map<Path, Data>, seen: map<Path, Digest>): set<Path> {
    set p | p in staging && !(p in seen && seen[p] == hash(staging[p]))
  }

  function Changed(staging: map<Path, Data>, workspace: map<Path, Data>): set<Path> {
    set p | p in staging && !(p in workspace && workspace[p] == staging[p])
  }

  /** The file operations of a store: the state file twice, every file that goes, and
      every file that is new or has other bytes. */
  function StoreCost(staging: map<Path, Data>, workspace: map<Path, Data>): nat {
    2 + |workspace.Keys - staging.Keys| + |Changed(staging, workspace)|
  }

  lemma DifferingChanged(hash: Data -> Digest, staging: map<Path, Data>, workspace: map<Path, Data>)
    requires CollisionFree(hash)
    ensures Differing(hash, staging, Digests(hash, workspace)) == Changed(staging, workspace)
  {
    var seen := Digests(hash, workspace);
    forall p | p in staging
      ensures p in seen && seen[p] == hash(staging[p]) <==> p in workspace && workspace[p] == staging[p]
    {
      assert p in workspace ==> (hash(workspace[p]) == hash(staging[p]) <==> workspace[p] == staging[p]);
    }
  }

  // ----- the cache object -----

  /** One build cache directory. `budget` counts the file operations still allowed
      before the process stops; the operation at which it stops leaves its file as
      `garbage` says, or not there at all. */
  class Cache {
    var workspace: map<Path, Data>
    var state: StateFile
    var budget: nat

    ghost function Value(): Disk
      reads this
    {
      Disk(workspace, state)
    }

    constructor (budget: nat)
      ensures Value() == Disk(map[], Absent) && this.budget == budget
    {
      workspace, state := map[], Absent;
      this.budget := budget;
    }

    method ReadSnapshot(hash: Data -> Digest) returns (s: Option<State>)
      ensures s == Snapshot(hash, Value())
    {
      s := None;
      if state.Complete? && state.state.files != map[] {
        var files := Digests(hash, workspace);
        if |files| == |state.state.files| {
          var names, matches := files.Keys, true;
          while names != {}
            invariant names <= files.Keys
            invariant matches <==> forall p ::
                        p in files && p !in names ==> p in state.state.files && state.state.files[p] == files[p]
            decreases names
          {
            var p :| p in names;
            if !(p in state.state.files && state.state.files[p] == files[p]) { matches := false; }
            names := names - {p};
          }
          if matches {
            SameKeys(files, state.state.files);
            s := Some(state.state);
          }
        }
      }
    }

    // Every operation succeeds exactly if the budget covers it, and takes its cost off.

    method RemoveState() returns (ok: bool)
      modifies this
      ensures workspace == old(workspace) && (ok ==> state == Absent) && (!ok ==> state == old(state))
      ensures (ok <==> old(budget) >= 1) && (ok ==> budget == old(budget) - 1)
    {
      if budget == 0 { return false; }
      budget := budget - 1;
      state := Absent;
      ok := true;
    }

    method RemoveFile(p: Path) returns (ok: bool)
      modifies this
      ensures state == old(state) && workspace == if ok then old(workspace) - {p} else old(workspace)
      ensures (ok <==> old(budget) >= 1) && (ok ==> budget == old(budget) - 1)
    {
      if budget == 0 { return false; }
      budget := budget - 1;
      workspace := workspace - {p};
      ok := true;
    }

    method WriteFile(p: Path, data: Data, garbage: Path -> Option<Data>) returns (ok: bool)
      modifies this
      ensures state == old(state) && (ok ==> workspace == old(workspace)[p := data])
      ensures (ok <==> old(budget) >= 1) && (ok ==> budget == old(budget) - 1)
    {
      if budget == 0 {
        if garbage(p).Some? { workspace := workspace[p := garbage(p).value]; }
        return false;
      }
      budget := budget - 1;
      workspace := workspace[p := data];
      ok := true;
    }

    method WriteState(s: State) returns (ok: bool)
      modifies this
      ensures workspace == old(workspace) && (ok ==> state == Complete(s))
                && (!ok ==> state == old(state) || state == Torn)
      ensures (ok <==> old(budget) >= 1) && (ok ==> budget == old(budget) - 1)
    {
      if budget == 0 { state := Torn; return false; }
      budget := budget - 1;
      state := Complete(s);
      ok := true;
    }

    /** Removes files the new generation does not have. */
    method RemoveStale(staging: map<Path, Data>) returns (ok: bool)
      modifies this
      ensures state == old(state)
      ensures var stale := old(workspace).Keys - staging.Keys;
              && (ok ==> workspace == old(workspace) - stale && budget == old(budget) - |stale|)
              && (ok <==> old(budget) >= |stale|)
    {
      ok := RemoveFiles(workspace.Keys - staging.Keys);
    }

    method RemoveFiles(files: set<Path>) returns (ok: bool)
      modifies this
      ensures state == old(state)
      ensures ok ==> workspace == old(workspace) - files && budget == old(budget) - |files|
      ensures ok <==> old(budget) >= |files|
    {
      var left := files;
      ghost var gone: set<Path> := {};
      while left != {}
        invariant gone !! left && gone + left == files && state == old(state)
        invariant workspace == old(workspace) - gone
        invariant budget + |files| == old(budget) + |left|
        decreases left
      {
        var p :| p in left;
        ok := RemoveFile(p);
        if !ok { return; }
        gone, left := gone + {p}, left - {p};
      }
      ok := true;
    }

    /** Writes the files whose digest differs from the one seen before; the others
        keep their bytes. `written` lists what was touched. */
    method WriteChanged(hash: Data -> Digest, staging: map<Path, Data>, seen: map<Path, Digest>,
                        garbage: Path -> Option<Data>)
      returns (ok: bool, ghost written: set<Path>)
      requires CollisionFree(hash) && workspace.Keys <= staging.Keys
      requires forall p :: p in workspace ==> p in seen && seen[p] == hash(workspace[p])
      requires forall p :: p in seen && p in staging ==> p in workspace
      modifies this
      ensures state == old(state)
      ensures written <= Differing(hash, staging, seen)
      ensures ok ==> workspace == staging && budget == old(budget) - |Differing(hash, staging, seen)|
      ensures ok <==> old(budget) >= |Differing(hash, staging, seen)|
    {
      written := {};
      var names := staging.Keys;
      ghost var differing := Differing(hash, staging, seen);
      ghost var left := differing;
      while names != {}
        invariant names <= staging.Keys && state == old(state) && workspace.Keys <= staging.Keys
        invariant forall p :: p in staging && p !in names ==> p in workspace && workspace[p] == staging[p]
        invariant forall p ::
                    p in names ==> (p in workspace <==> p in old(workspace))
                                   && (p in workspace ==> workspace[p] == old(workspace)[p])
        invariant written <= differing && left <= differing
        invariant forall p :: p in left <==> p in differing && p in names
        invariant budget + |differing| == old(budget) + |left|
        decreases names
      {
        var p :| p in names;
        if !(p in seen && seen[p] == hash(staging[p])) {
          written := written + {p};
          ok := WriteFile(p, staging[p], garbage);
          if !ok { return; }
          left := left - {p};
        }
        names := names - {p};
      }
      assert workspace.Keys == staging.Keys;
      assert left == {};
      ok := true;
    }

    /** Publishes a generation. */
    method Store(hash: Data -> Digest, key: Key, staging: map<Path, Data>, garbage: Path -> Option<Data>)
      returns (done: bool, ghost written: set<Path>)
      requires CollisionFree(hash)
      modifies this
      ensures StoreLeaves(hash, key, staging, old(Value()), Value(), done)
      ensures forall p :: p in written && p in staging ==> !(p in old(workspace) && old(workspace)[p] == staging[p])
      ensures done <==> old(budget) >= StoreCost(staging, old(workspace))
    {
      written := {};
      var files := Digests(hash, staging);
      var seen := Digests(hash, workspace);
      done := RemoveState();
      if !done { return; }
      done := RemoveStale(staging);
      if !done { return; }
      DifferingChanged(hash, staging, old(workspace));
      done, written := WriteChanged(hash, staging, seen, garbage);
      if !done { return; }
      if Digests(hash, workspace) != files { return false, written; }
      done := WriteState(State(key, files));
    }
  }

  lemma SameKeys(a: map<Path, Digest>, b: map<Path, Digest>)
    requires |a| == |b| && forall p :: p in a ==> p in b && b[p] == a[p]
    ensures a == b
  {
    assert a.Keys <= b.Keys && |a.Keys| == |b.Keys|;
    Filled(a.Keys, b.Keys);
  }

  lemma {:induction false} Filled(a: set<Path>, b: set<Path>)
    requires a <= b && |a| == |b|
    ensures a == b
    decreases a
  {
    if a != {} {
      var p :| p in a;
      Filled(a - {p}, b - {p});
    }
  }

  // ----- any number of stores -----

  /** A store that completes or stops somewhere, or a change of the workspace from
      outside. */
  datatype Event = Stored(key: Key, staging: map<Path, Data>, done: bool) | Disturbed

  ghost predicate Follows(hash: Data -> Digest, e: Event, a: Disk, b: Disk) {
    match e
    case Stored(key, staging, done) => StoreLeaves(hash, key, staging, a, b, done)
    case Disturbed => b.state == a.state
  }

  ghost predicate History(hash: Data -> Digest, events: seq<Event>, disks: seq<Disk>) {
    && |disks| == |events| + 1 && disks[0] == Disk(map[], Absent)
    && forall i :: 0 <= i < |events| ==> Follows(hash, events[i], disks[i], disks[i + 1])
  }

  /** The event is the completed store that published this state. */
  ghost predicate Published(hash: Data -> Digest, e: Event, s: State) {
    e.Stored? && e.done && e.key == s.key && Digests(hash, e.staging) == s.files
  }

  lemma {:induction false} StatesArePublished(hash: Data -> Digest, events: seq<Event>, disks: seq<Disk>, n: nat)
    requires History(hash, events, disks) && n <= |events| && disks[n].state.Complete?
    ensures exists i :: 0 <= i < n && Published(hash, events[i], disks[n].state.state)
    decreases n
  {
    var e := events[n - 1];
    assert Follows(hash, e, disks[n - 1], disks[n]);
    if e.Stored? && e.done { assert Published(hash, events[n - 1], disks[n].state.state); }
    else {
      StatesArePublished(hash, events, disks, n - 1);
      var i :| 0 <= i < n - 1 && Published(hash, events[i], disks[n - 1].state.state);
      assert Published(hash, events[i], disks[n].state.state);
    }
  }

  /** Whenever a state is accepted, after any history of completed and interrupted
      stores and of changes from outside, the workspace holds exactly the files a
      completed store published for the recorded key. */
  lemma AcceptedIsPublished(hash: Data -> Digest, events: seq<Event>, disks: seq<Disk>, n: nat)
    requires CollisionFree(hash) && History(hash, events, disks) && n <= |events| && Snapshot(hash, disks[n]).Some?
    ensures exists i ::
              0 <= i < n && Published(hash, events[i], Snapshot(hash, disks[n]).value)
                  && events[i].staging == disks[n].workspace
  {
    StatesArePublished(hash, events, disks, n);
    var i :| 0 <= i < n && Published(hash, events[i], disks[n].state.state);
    SameDigestsSameFiles(hash, events[i].staging, disks[n].workspace);
  }

  /** A completed store is accepted, for its own key, unless it published nothing at
      all; an interrupted one that had begun is never accepted. */
  lemma CompletedIsAccepted(hash: Data -> Digest, key: Key, staging: map<Path, Data>, before: Disk, after: Disk,
                            done: bool)
    requires StoreLeaves(hash, key, staging, before, after, done)
    ensures done ==> Snapshot(hash, after) == if staging == map[] then None
              else Some(State(key, Digests(hash, staging)))
    ensures !done && after != before ==> Snapshot(hash, after) == None
  {
    if done {
      assert Digests(hash, staging).Keys == staging.Keys;
      assert staging == map[] <==> staging.Keys == {};
      assert Digests(hash, staging) == map[] <==> Digests(hash, staging).Keys == {};
    }
  }
}
