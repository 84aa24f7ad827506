/** The watch loop (internal/watch/watch.go): it polls the sources, rebuilds after a
    change and replaces the running program by the result. */
module Watch {
  import opened Options

  type Content = nat    // the hash of all watched sources
  type Path = nat       // builds are numbered

  /** A build in flight: the sources it was started for, and those its compiler has
      read from disk. */
  datatype Build = Build(source: Content, generation: nat, path: Path, read: Content)

  /** The variables of the loop, the sources on disk, the processes that are alive,
      the source of the last build that was not discarded, and what the running
      program was compiled from. */
  datatype World = World(
    disk: Content, observed: Content, pending: bool, generation: nat, sequence: nat,
    building: Option<Build>, running: Option<Path>, live: set<Path>, kept: Option<Content>,
    program: Option<Content>)

  /** What the loop can meet: an edit it does not see yet, the compiler reading the
      sources, the end of the debounce interval, the end of the program, the end of the build, a poll. Scans, builds
      and starts may fail. */
  datatype Event = Edit(content: Content) | Read | Debounced | Exited | Built(scans: bool, compiles: bool,
      starts: bool) | Poll(scans: bool)

  function Start(disk: Content): World {
    World(disk, disk, true, 0, 0, None, None, {}, None, None)
  }

  function Stop(w: World): World {
    if w.running.Some? then w.(running := None, live := w.live - {w.running.value}, program := None) else w
  }

  function Finish(w: World, b: Build, scans: bool, compiles: bool, starts: bool): World {
    var v := w.(building := None);
    if !scans then v.(pending := true)
    else if w.disk != b.source || w.generation != b.generation then v.(observed := w.disk, pending := true)
    else if !compiles then v.(kept := Some(b.source))
    else
      var s := Stop(v.(pending := false, kept := Some(b.source)));
      if starts then s.(running := Some(b.path), live := s.live + {b.path}, program := Some(b.read)) else s
  }

  function After(w: World, e: Event): World {
    match e
    case Edit(content) => w.(disk := content)
    case Read => if w.building.Some? then w.(building := Some(w.building.value.(read := w.disk))) else w
    case Debounced =>
      if w.pending && w.building.None?
      then w.(pending := false, sequence := w.sequence + 1,
              building := Some(Build(w.observed, w.generation, w.sequence + 1, w.disk)))
      else w
    case Exited => Stop(w)
    case Built(scans, compiles, starts) =>
      if w.building.Some? then Finish(w, w.building.value, scans, compiles, starts) else w
    case Poll(scans) =>
      if scans && w.disk != w.observed
          then w.(generation := w.generation + 1, observed := w.disk, pending := true) else w
  }

  function AfterAll(w: World, events: seq<Event>): World
    decreases |events|
  {
    if events == [] then w else AfterAll(After(w, events[0]), events[1..])
  }

  // ----- the loop -----

  class Watcher {
    var disk: Content
    var observed: Content
    var pending: bool
    var generation: nat
    var sequence: nat
    var building: Option<Build>
    var running: Option<Path>
    var live: set<Path>
    var kept: Option<Content>
    var program: Option<Content>

    ghost function Value(): World
      reads this
    {
      World(disk, observed, pending, generation, sequence, building, running, live, kept, program)
    }

    constructor (disk: Content)
      ensures Value() == Start(disk)
    {
      this.disk, observed, pending, generation, sequence := disk, disk, true, 0, 0;
      building, running, live, kept, program := None, None, {}, None, None;
    }

    method StopRunning()
      modifies this
      ensures Value() == Stop(old(Value()))
    {
      if running.Some? {
        live := live - {running.value};
        running, program := None, None;
      }
    }

    method StartBuild()
      modifies this
      ensures Value() == After(old(Value()), Debounced)
    {
      if pending && building.None? {
        pending := false;
        sequence := sequence + 1;
        building := Some(Build(observed, generation, sequence, disk));
      }
    }

    method FinishBuild(scans: bool, compiles: bool, starts: bool)
      modifies this
      ensures Value() == After(old(Value()), Built(scans, compiles, starts))
      ensures running != old(running) && running.Some? ==>
                && old(building).Some? && old(building).value.source == disk
                    && old(building).value.generation == generation
                && scans && compiles && starts && running == Some(old(building).value.path)
    {
      if building.None? { return; }
      var result := building.value;
      building := None;
      if !scans {
        pending := true;
        return;
      }
      if disk != result.source || generation != result.generation {
        observed := disk;
        pending := true;
        return;
      }
      kept := Some(result.source);
      if !compiles { return; }
      pending := false;
      StopRunning();
      if starts {
        running, program := Some(result.path), Some(result.read);
        live := live + {result.path};
      }
    }

    method PollSources(scans: bool)
      modifies this
      ensures Value() == After(old(Value()), Poll(scans))
    {
      if scans && disk != observed {
        generation := generation + 1;
        observed := disk;
        pending := true;
      }
    }

    method Run(events: seq<Event>)
      modifies this
      ensures Value() == AfterAll(old(Value()), events)
    {
      var i := 0;
      assert events[0..] == events;
      while i < |events|
        invariant 0 <= i <= |events| && AfterAll(Value(), events[i..]) == AfterAll(old(Value()), events)
      {
        assert events[i..][0] == events[i] && events[i..][1..] == events[i + 1..];
        match events[i] {
          case Edit(content) => disk := content;
          case Read => if building.Some? { building := Some(building.value.(read := disk)); }
          case Debounced => StartBuild();
          case Exited => StopRunning();
          case Built(scans, compiles, starts) => FinishBuild(scans, compiles, starts);
          case Poll(scans) => PollSources(scans);
        }
        i := i + 1;
      }
    }
  }

  // ----- every reachable state -----

  /** One program at most; a build in flight belongs to the observed sources as long
      as no poll has seen a change since, and a change asks for another build; idle
      means that the observed sources are those of the last build kept. */
  predicate Inv(w: World) {
    && w.live == (if w.running.Some? then {w.running.value} else {})
    && (w.running.Some? <==> w.program.Some?)
    && (w.running.Some? ==>
        w.running.value <= w.sequence && (w.building.Some? ==> w.running.value < w.building.value.path))
    && (w.building.Some? ==>
          var b := w.building.value;
          && b.path == w.sequence && b.generation <= w.generation
          && (b.generation == w.generation ==> w.observed == b.source && !w.pending)
          && (b.generation < w.generation ==> w.pending))
    && (w.building.None? && !w.pending ==> w.kept == Some(w.observed))
  }

  lemma {:induction false} InvAfterAll(w: World, events: seq<Event>)
    requires Inv(w)
    ensures Inv(AfterAll(w, events))
    decreases |events|
  {
    if events != [] { InvAfterAll(After(w, events[0]), events[1..]); }
  }

  /** In every state the loop can reach at most one program runs, and with no build
      in flight and nothing pending the observed sources are those of the last build
      that was not discarded. */
  lemma EveryRun(disk: Content, events: seq<Event>)
    ensures var w := AfterAll(Start(disk), events);
            && |w.live| <= 1
            && (w.building.None? && !w.pending ==> w.kept == Some(w.observed))
  {
    InvAfterAll(Start(disk), events);
  }

  /** Every successful poll of the stretch sees this source. */
  predicate PollsSee(w: World, events: seq<Event>, source: Content)
    decreases |events|
  {
    events == [] ||
    ((events[0] == Poll(true) ==> w.disk == source) && PollsSee(After(w, events[0]), events[1..], source))
  }

  predicate NoBuilt(events: seq<Event>) {
    forall i :: 0 <= i < |events| ==> !events[i].Built?
  }

  /** While a build runs, the generation moves exactly when a poll sees other sources. */
  lemma {:induction false} GenerationMoves(w: World, events: seq<Event>, b: Build)
    requires w.building == Some(b) && b.generation <= w.generation && NoBuilt(events)
    requires w.generation == b.generation ==> w.observed == b.source
    ensures var v := AfterAll(w, events);
            && v.building.Some? && v.building.value.(read := b.read) == b && b.generation <= v.generation
            && (v.generation == b.generation <==> w.generation == b.generation && PollsSee(w, events, b.source))
    decreases |events|
  {
    if events != [] {
      assert !events[0].Built?;
      forall i | 0 <= i < |events[1..]| ensures !events[1..][i].Built? { assert events[1..][i] == events[i + 1]; }
      GenerationMoves(After(w, events[0]), events[1..], After(w, events[0]).building.value);
    }
  }

  /** A finished build takes over exactly when it compiled, it started, the sources
      on disk are again those it was started for, and no poll has seen others in
      between, not even if they changed back. */
  lemma TakesOver(w: World, events: seq<Event>, scans: bool, compiles: bool, starts: bool)
    requires Inv(w) && w.pending && w.building.None? && NoBuilt(events)
    ensures var started := After(w, Debounced);
            var before := AfterAll(started, events);
            var after := After(before, Built(scans, compiles, starts));
            after.running == Some(started.sequence) <==>
              scans && compiles && starts && before.disk == w.observed && PollsSee(started, events, w.observed)
  {
    var started := After(w, Debounced);
    var b := started.building.value;
    GenerationMoves(started, events, b);
    InvAfterAll(started, events);
  }

  /** What the compiler has read when the build ends. */
  function LastRead(w: World, events: seq<Event>, read: Content): Content
    decreases |events|
  {
    if events == [] then read else LastRead(After(w, events[0]), events[1..], if events[0].Read? then w.disk else read)
  }

  lemma {:induction false} ReadsKept(w: World, events: seq<Event>)
    requires w.building.Some? && NoBuilt(events)
    ensures var v := AfterAll(w, events);
              v.building.Some? && v.building.value.read == LastRead(w, events, w.building.value.read)
    decreases |events|
  {
    if events != [] {
      assert !events[0].Built?;
      forall i | 0 <= i < |events[1..]| ensures !events[1..][i].Built? { assert events[1..][i] == events[i + 1]; }
      ReadsKept(After(w, events[0]), events[1..]);
    }
  }

  /** The program that takes over was compiled from the sources then on disk exactly
      when its compiler read last while they were the ones it was started for. */
  lemma CompiledFromDisk(w: World, events: seq<Event>)
    requires Inv(w) && w.pending && w.building.None? && NoBuilt(events)
    ensures var started := After(w, Debounced);
            var before := AfterAll(started, events);
            var after := After(before, Built(true, true, true));
            after.running == Some(started.sequence) ==>
              && after.program == Some(LastRead(started, events, w.disk)) && after.disk == w.observed
              && (after.program == Some(after.disk) <==> LastRead(started, events, w.disk) == w.observed)
  {
    var started := After(w, Debounced);
    ReadsKept(started, events);
    GenerationMoves(started, events, started.building.value);
    InvAfterAll(started, events);
  }

  /** The program exits, or a build that compiled ends for the sources then on disk,
      and no poll has seen others since it was started: its program replaces the
      running one, which is stopped even if the new one then fails to start. */
  predicate Displaces(w: World, e: Event) {
    || e.Exited?
    || (e.Built? && e.scans && e.compiles && w.building.Some? && w.disk == w.building.value.source
        && w.generation == w.building.value.generation)
  }

  predicate Undisturbed(w: World, events: seq<Event>)
    decreases |events|
  {
    events == [] || (!Displaces(w, events[0]) && Undisturbed(After(w, events[0]), events[1..]))
  }

  /** Whatever else happens, failed and discarded builds included, a program runs on
      exactly until one of the two; and once displaced it never comes back. */
  lemma {:induction false} RunsOn(w: World, events: seq<Event>)
    requires Inv(w) && w.running.Some?
    ensures AfterAll(w, events).running == w.running <==> Undisturbed(w, events)
    ensures Undisturbed(w, events) ==> AfterAll(w, events).program == w.program
    decreases |events|
  {
    if events != [] {
      var next := After(w, events[0]);
      if Displaces(w, events[0]) { NeverBack(next, events[1..], w.running.value); } else { RunsOn(next, events[1..]); }
    }
  }

  lemma {:induction false} NeverBack(w: World, events: seq<Event>, p: Path)
    requires Inv(w) && w.running != Some(p) && p <= w.sequence
    requires w.building.Some? ==> p < w.building.value.path
    ensures AfterAll(w, events).running != Some(p)
    decreases |events|
  {
    if events != [] { NeverBack(After(w, events[0]), events[1..], p); }
  }

  /** The loop learns that there is something to build: a poll sees other sources, or a
      build ends without its sources having been scanned again, or is discarded. */
  predicate Wakes(w: World, e: Event) {
    || (e == Poll(true) && w.disk != w.observed)
    || (e.Built? && w.building.Some?
        && (!e.scans || w.disk != w.building.value.source || w.generation != w.building.value.generation))
  }

  predicate Starts(w: World, e: Event) {
    e.Debounced? && w.pending && w.building.None?
  }

  /** A build is pending exactly from then, or from the start of the loop, until one
      is started, and each start has a number of its own. */
  lemma PendingExact(w: World, e: Event)
    requires Inv(w)
    ensures After(w, e).pending <==> Wakes(w, e) || (w.pending && !Starts(w, e))
    ensures After(w, e).sequence == if Starts(w, e) then w.sequence + 1 else w.sequence
  {}

  function Wakings(w: World, events: seq<Event>): nat
    decreases |events|
  {
    if events == [] then 0
    else (if Wakes(w, events[0]) then 1 else 0) + Wakings(After(w, events[0]), events[1..])
  }

  function Owed(w: World): nat {
    if w.pending then 1 else 0
  }

  /** Over any events no more builds are started than were asked for: sources that do
      not change are not built again, whether they compile or not. */
  lemma {:induction false} BuildsAnswered(w: World, events: seq<Event>)
    requires Inv(w)
    ensures AfterAll(w, events).sequence + Owed(AfterAll(w, events)) <= w.sequence + Owed(w) + Wakings(w, events)
    ensures !w.pending && Wakings(w, events) == 0 ==>
              AfterAll(w, events).sequence == w.sequence && !AfterAll(w, events).pending
    decreases |events|
  {
    if events != [] {
      PendingExact(w, events[0]);
      BuildsAnswered(After(w, events[0]), events[1..]);
    }
  }

  /** A build that is kept leaves nothing pending, whether it compiled or not. */
  lemma KeptRests(w: World, compiles: bool, starts: bool)
    requires Inv(w) && w.building.Some?
    requires w.disk == w.building.value.source && w.generation == w.building.value.generation
    ensures var v := After(w, Built(true, compiles, starts));
            !v.pending && v.building.None? && v.kept == Some(w.disk) && v.observed == w.disk
  {}

  /** A change that is undone between two polls goes unnoticed: the build takes over
      although the sources were different while it ran, and if the compiler read
      them then, the program that runs is not that of the sources on disk. */
  lemma UnseenRoundTrip(a: Content, b: Content)
    requires a != b
    ensures var w := AfterAll(Start(a), [Debounced, Edit(b), Read, Edit(a), Built(true, true, true)]);
            w.running == Some(1) && w.program == Some(b) && w.disk == w.observed == a && !w.pending
    ensures AfterAll(Start(a),
                     [Debounced, Edit(b), Poll(true), Edit(a), Poll(true), Built(true, true, true)]).running == None
  {
    var w := After(Start(a), Debounced);
    var unseen, seen := [Edit(b), Read, Edit(a)], [Edit(b), Poll(true), Edit(a), Poll(true)];
    Unroll(Start(a), Debounced, unseen, Built(true, true, true));
    Unroll(Start(a), Debounced, seen, Built(true, true, true));
    assert [Debounced] + unseen + [Built(true, true, true)] ==
             [Debounced, Edit(b), Read, Edit(a), Built(true, true, true)];
    assert [Debounced] + seen + [Built(true, true, true)] ==
             [Debounced, Edit(b), Poll(true), Edit(a), Poll(true), Built(true, true, true)];
    assert unseen[1..] == [Read, Edit(a)] && [Read, Edit(a)][1..] == [Edit(a)] && [Edit(a)][1..] == [];
    assert seen[1..] == [Poll(true), Edit(a), Poll(true)] && seen[1..][1..] == [Edit(a), Poll(true)]
           && [Edit(a), Poll(true)][1..] == [Poll(true)];
    var read := After(After(w, Edit(b)), Read);
    assert AfterAll(read, [Edit(a)]) == AfterAll(After(read, Edit(a)), []);
    assert AfterAll(After(w, Edit(b)), [Read, Edit(a)]) == AfterAll(read, [Edit(a)]);
    assert AfterAll(w, unseen) == read.(disk := a);
    var v := AfterAll(After(w, Edit(b)), seen[1..]);
    assert v == AfterAll(After(After(w, Edit(b)), Poll(true)), [Edit(a), Poll(true)]);
    assert v == AfterAll(w, seen);
    TakesOver(Start(a), seen, true, true, true);
    assert !PollsSee(w, seen, a) by { assert !PollsSee(After(w, Edit(b)), seen[1..], a); }
    RunningStays(w, seen);
    GenerationMoves(w, seen, w.building.value);
  }

  lemma {:induction false} RunningStays(w: World, events: seq<Event>)
    requires w.running.None? && NoBuilt(events)
    ensures AfterAll(w, events).running.None?
    decreases |events|
  {
    if events != [] {
      assert !events[0].Built?;
      forall i | 0 <= i < |events[1..]| ensures !events[1..][i].Built? { assert events[1..][i] == events[i + 1]; }
      RunningStays(After(w, events[0]), events[1..]);
    }
  }

  lemma {:induction false} Unroll(w: World, first: Event, middle: seq<Event>, last: Event)
    ensures AfterAll(w, [first] + middle + [last]) == After(AfterAll(After(w, first), middle), last)
    decreases |middle|
  {
    var all := [first] + middle + [last];
    assert all[1..] == middle + [last];
    if middle == [] {
      assert all[1..] == [last] && [last][1..] == [];
      assert AfterAll(After(w, first), [last]) == AfterAll(After(After(w, first), last), []);
    } else {
      Unroll(After(w, first), middle[0], middle[1..], last);
      assert middle + [last] == [middle[0]] + middle[1..] + [last];
    }
  }
}
