/** The invariants of the shared state: lifecycle structure, spawn sequences, the event log,
    the conservation of children, the order of dependencies, and the counting of bindings. */
module Invariants {
  import opened Basics
  import opened Processes
  import opened Resolution
  import opened Reaper

  // ----------------------------------------------------- lifecycle structure

  /** Which states go with an OS child, a restart record and a waiting timestamp. */
  ghost predicate WellFormed(p: Process) {
    && (p.state.Starting? || p.state.Running? || p.state.Stopping? || p.state.Stopped? || p.state.Crashed? ==> p.child.Some?)
    && (p.state.Waiting? || p.state.Restarting? ==> p.child.None?)
    && (p.child.Some? ==> p.child.value == p.pid)
    && (p.state.Waiting? ==> p.waitingSince.Some? && !p.cascadeFlag)
    && (p.state.Restarting? ==> p.pid != 0)
    && (p.restart.Some? <==> p.config.restartOnExit)
    && (p.restart.Some? && (p.state.Starting? || p.state.Running?) ==> p.restart.value.lastStartedAt.Some?)
    && (p.state.Restarting? ==> p.config.restartOnExit)
  }

  ghost predicate Structural(s: State) {
    forall id :: id in s.procs ==> s.procs[id].id == id && id < s.nextId && WellFormed(s.procs[id])
  }

  /** Spawn sequences are below the counter and pairwise distinct. */
  ghost predicate Sequenced(s: State) {
    && (forall id :: id in s.procs ==> s.procs[id].spawnSequence < s.nextSequence)
    && (forall a, b :: a in s.procs && b in s.procs && a != b ==> s.procs[a].spawnSequence != s.procs[b].spawnSequence)
  }

  // ----------------------------------------------------------- the event log

  /** Events name ids that have been handed out; a Failed event is the last of
      its id, and an id with one is no longer tracked. */
  ghost predicate Logged(s: State) {
    && (forall i :: 0 <= i < |s.log| ==> s.log[i].id < s.nextId)
    && (forall i, j :: 0 <= i < j < |s.log| && s.log[i].id == s.log[j].id ==> !s.log[i].state.Failed?)
    && (forall i :: 0 <= i < |s.log| && s.log[i].state.Failed? ==> s.log[i].id !in s.procs)
  }

  // ------------------------------------------------- conservation of children

  function SpawnCount(spawns: seq<SpawnRecord>, id: ProcessId): nat {
    if spawns == [] then 0
    else SpawnCount(spawns[..|spawns| - 1], id) + if spawns[|spawns| - 1].id == id then 1 else 0
  }

  /** The events for `id` that carry an exit status. */
  function ExitCount(log: seq<ExitEvent>, id: ProcessId): nat {
    if log == [] then 0
    else
      var e := log[|log| - 1];
      ExitCount(log[..|log| - 1], id) + if e.id == id && e.exitStatus.Some? then 1 else 0
  }

  function EventCount(log: seq<ExitEvent>, id: ProcessId): nat {
    if log == [] then 0
    else EventCount(log[..|log| - 1], id) + if log[|log| - 1].id == id then 1 else 0
  }

  function Held(s: State, id: ProcessId): nat {
    if id in s.procs && s.procs[id].child.Some? then 1 else 0
  }

  /** Every OS child ever created was reported with its exit status, given up by
      the manager, or is still held. */
  ghost predicate Conserved(s: State) {
    forall id: ProcessId :: SpawnCount(s.spawns, id) == ExitCount(s.log, id) + s.dropped[id] + Held(s, id)
  }

  lemma SpawnCountPush(spawns: seq<SpawnRecord>, r: SpawnRecord, id: ProcessId)
    ensures SpawnCount(spawns + [r], id) == SpawnCount(spawns, id) + if r.id == id then 1 else 0
  {
    assert (spawns + [r])[..|spawns|] == spawns;
  }

  lemma CountsPush(log: seq<ExitEvent>, e: ExitEvent, id: ProcessId)
    ensures ExitCount(log + [e], id) == ExitCount(log, id) + if e.id == id && e.exitStatus.Some? then 1 else 0
    ensures EventCount(log + [e], id) == EventCount(log, id) + if e.id == id then 1 else 0
  {
    assert (log + [e])[..|log|] == log;
  }

  lemma CountsAppend(a: seq<ExitEvent>, b: seq<ExitEvent>, id: ProcessId)
    ensures ExitCount(a + b, id) == ExitCount(a, id) + ExitCount(b, id)
    ensures EventCount(a + b, id) == EventCount(a, id) + EventCount(b, id)
  {
    if b == [] {
      assert a + b == a;
    } else {
      var n := |b| - 1;
      CountsAppend(a, b[..n], id);
      CountsPush(a + b[..n], b[n], id);
      assert a + b == (a + b[..n]) + [b[n]];
    }
  }

  // ------------------------------------------------------- dependency order

  /** Apart from manual restarts, nothing was ever spawned with an unmet dependency. */
  ghost predicate Ordered(s: State) {
    forall i :: 0 <= i < |s.spawns| && !s.spawns[i].cause.OnManualRestart? ==>
      AllMet(s.spawns[i].dependsOn, s.spawns[i].running)
  }

  /** How many references count as resolved. */
  function ResolvedCount(procs: ProcessMap, bound: seq<ProcessId>, deps: seq<DependencyRef>): nat {
    if deps == [] then 0
    else
      var n := |deps| - 1;
      ResolvedCount(procs, bound, deps[..n]) + if Resolved(procs, bound, deps[n]) then 1 else 0
  }

  /** An id that was handed out and is no longer tracked. */
  ghost predicate Dead(s: State, id: ProcessId) {
    id < s.nextId && id !in s.procs
  }

  ghost predicate HasDead(s: State, bound: seq<ProcessId>) {
    exists i :: 0 <= i < |bound| && Dead(s, bound[i])
  }

  /** Either a bound id is dead, or there are no more bound ids than resolved references. */
  ghost predicate BoundSparingly(s: State, bound: seq<ProcessId>, deps: seq<DependencyRef>) {
    HasDead(s, bound) || |bound| <= ResolvedCount(s.procs, bound, deps)
  }

  ghost predicate Bound(s: State) {
    forall id :: id in s.procs && s.procs[id].state.Waiting? ==>
      BoundSparingly(s, s.procs[id].resolvedDeps, s.procs[id].config.dependsOn)
  }

  lemma ResolvedCountFull(procs: ProcessMap, bound: seq<ProcessId>, deps: seq<DependencyRef>)
    ensures ResolvedCount(procs, bound, deps) <= |deps|
    ensures ResolvedCount(procs, bound, deps) == |deps| ==>
              forall i :: 0 <= i < |deps| ==> Resolved(procs, bound, deps[i])
  {
    if deps != [] { ResolvedCountFull(procs, bound, deps[..|deps| - 1]); }
  }

  lemma ResolvedCountAll(procs: ProcessMap, bound: seq<ProcessId>, deps: seq<DependencyRef>)
    requires forall i :: 0 <= i < |deps| ==> Resolved(procs, bound, deps[i])
    ensures ResolvedCount(procs, bound, deps) == |deps|
  {
    if deps != [] {
      var n := |deps| - 1;
      assert forall i :: 0 <= i < n ==> deps[..n][i] == deps[i];
      ResolvedCountAll(procs, bound, deps[..n]);
    }
  }

  /** Resolution only gains when bindings are added and bound processes stay. */
  lemma ResolvedCountMonotone(procs: ProcessMap, bound: seq<ProcessId>, procs': ProcessMap, bound': seq<ProcessId>, deps: seq<DependencyRef>)
    requires bound <= bound'
    requires forall i :: 0 <= i < |bound| && bound[i] in procs ==> bound[i] in procs' && procs'[bound[i]].tag == procs[bound[i]].tag
    ensures ResolvedCount(procs, bound, deps) <= ResolvedCount(procs', bound', deps)
  {
    if deps != [] {
      var n := |deps| - 1;
      ResolvedCountMonotone(procs, bound, procs', bound', deps[..n]);
      var d := deps[n];
      if Resolved(procs, bound, d) {
        match d {
          case OnId(id) => var i :| 0 <= i < |bound| && bound[i] == id; assert bound'[i] == id;
          case OnLabel(tag) =>
            var i :| 0 <= i < |bound| && bound[i] in procs && procs[bound[i]].tag == tag;
            assert bound'[i] in procs' && procs'[bound'[i]].tag == tag;
        }
      }
    }
  }

  // --------------------------------------------------------- how states evolve

  /** No step forgets history, changes a tracked process's label or
      configuration, or brings back an id that was handed out before. */
  ghost predicate Evolves(s: State, s': State) {
    && s.nextId <= s'.nextId && s.nextSequence <= s'.nextSequence
    && s.log <= s'.log && s.spawns <= s'.spawns && s.dropped <= s'.dropped
    && forall id :: id in s'.procs ==>
         if id in s.procs then s'.procs[id].tag == s.procs[id].tag && s'.procs[id].config == s.procs[id].config
         else s.nextId <= id
  }

  lemma EvolvesTransitive(a: State, b: State, c: State)
    requires Structural(a) && Evolves(a, b) && Evolves(b, c)
    ensures Evolves(a, c)
  {
  }

  /** A binding that was sparing stays so as the state evolves. */
  lemma SparingEvolves(s: State, s': State, bound: seq<ProcessId>, deps: seq<DependencyRef>)
    requires Evolves(s, s') && Structural(s) && BoundSparingly(s, bound, deps)
    ensures BoundSparingly(s', bound, deps)
  {
    hide WellFormed;
    if i :| 0 <= i < |bound| && Dead(s, bound[i]) {
      assert Dead(s', bound[i]);
    } else if i :| 0 <= i < |bound| && bound[i] in s.procs && bound[i] !in s'.procs {
      assert Dead(s', bound[i]);
    } else {
      ResolvedCountMonotone(s.procs, bound, s'.procs, bound, deps);
    }
  }

  /** A complete binding made by `Bindings` is sparing, and so is none at all. */
  lemma BindingsSparing(s: State, order: seq<ProcessId>, deps: seq<DependencyRef>)
    ensures BoundSparingly(s, Bindings(s.procs, order, deps), deps)
  {
    var bound := Bindings(s.procs, order, deps);
    if |bound| == |deps| {
      forall i | 0 <= i < |deps| ensures Resolved(s.procs, bound, deps[i]) {
        assert Binds(s.procs, deps[i], bound[i]);
      }
      ResolvedCountAll(s.procs, bound, deps);
    }
  }

  /** All invariants but the one on bindings. */
  ghost predicate Sound(s: State) {
    Structural(s) && Sequenced(s) && Logged(s) && Conserved(s) && Ordered(s)
  }

  ghost predicate Invariant(s: State) {
    Sound(s) && Bound(s)
  }
}
