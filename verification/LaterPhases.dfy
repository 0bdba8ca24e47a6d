/** Phases 4 to 6 keep the invariants: automatic restarts, the spawns of Waiting processes and
    fail-fast only evolve the state, and give one event for each process they remove. */
module LaterPhases {
  import opened Basics
  import opened Processes
  import opened Resolution
  import opened Reaper
  import opened Invariants
  import opened Changes

  /** The log grew by exactly one Failed event, without a status, for each process
      that left the map, only their children were given up, and the counters stand still. */
  ghost predicate Accounted(s: State, s': State) {
    && s.log <= s'.log && s'.nextId == s.nextId && s'.nextSequence == s.nextSequence
    && s'.procs.Keys <= s.procs.Keys
    && (forall i :: |s.log| <= i < |s'.log| ==> s'.log[i].state.Failed? && s'.log[i].exitStatus.None?)
    && (forall id: ProcessId ::
          EventCount(s'.log, id) == EventCount(s.log, id) + if id in s.procs && id !in s'.procs then 1 else 0)
    && (forall id: ProcessId :: id in s'.procs || id !in s.procs ==> s'.dropped[id] == s.dropped[id])
  }

  ghost predicate Advances(s: State, s': State) {
    Evolves(s, s') && Accounted(s, s')
  }

  lemma AdvancesTransitive(a: State, b: State, c: State)
    requires Structural(a) && Advances(a, b) && Advances(b, c)
    ensures Advances(a, c)
  {
    hide EventCount, WellFormed;
  }

  lemma AdvancesSelf(s: State)
    ensures Advances(s, s)
  {
    hide EventCount;
  }

  lemma InvariantStructural(s: State)
    requires Invariant(s)
    ensures Structural(s)
  {
  }

  lemma DiscardAdvances(s: State, id: ProcessId)
    requires Sound(s) && id in s.procs
    ensures Sound(Discard(s, id, Failed)) && Advances(s, Discard(s, id, Failed))
  {
    DiscardKeeps(s, id, Failed);
    hide EventCount, WellFormed, Logged, Conserved, Ordered, Sequenced;
    var s' := Discard(s, id, Failed);
    assert s.procs[id].id == id;
    forall x: ProcessId
      ensures EventCount(s'.log, x) == EventCount(s.log, x) + if x in s.procs && x !in s'.procs then 1 else 0
    {
      CountsPush(s.log, EventFor(s.procs[id], None, Failed), x);
    }
  }

  // ---------------------------------------------------------------- phase 4

  /** Replacing a waiting entry keeps bindings sparing if its own binding is. */
  lemma BoundEvolves(s: State, s': State, id: ProcessId)
    requires Invariant(s) && Evolves(s, s')
    requires forall x :: x in s'.procs && x != id && s'.procs[x].state.Waiting? ==>
               x in s.procs && s.procs[x].state.Waiting? && s'.procs[x].resolvedDeps == s.procs[x].resolvedDeps
    requires id in s'.procs && s'.procs[id].state.Waiting? ==>
               BoundSparingly(s', s'.procs[id].resolvedDeps, s'.procs[id].config.dependsOn)
    ensures Bound(s')
  {
    hide BoundSparingly, Conserved, Logged, Sequenced, Ordered, WellFormed;
    forall x | x in s'.procs && s'.procs[x].state.Waiting?
      ensures BoundSparingly(s', s'.procs[x].resolvedDeps, s'.procs[x].config.dependsOn)
    {
      if x != id { SparingEvolves(s, s', s.procs[x].resolvedDeps, s.procs[x].config.dependsOn); }
    }
  }

  /** A launch that replaces an entry of the same id, label and configuration. */
  lemma LaunchAdvances(s: State, p: Process, cause: SpawnCause)
    requires Invariant(s) && WellFormed(p) && p.child.Some? && p.id in s.procs && !p.state.Waiting?
    requires s.procs[p.id].child.None? && p.spawnSequence == s.procs[p.id].spawnSequence
    requires p.tag == s.procs[p.id].tag && p.config == s.procs[p.id].config
    requires cause.OnManualRestart? || AllMet(p.config.dependsOn, RunningLabels(s.procs))
    ensures var s' := Launch(s, p, cause); Invariant(s') && Advances(s, s')
  {
    assert p.id < s.nextId by { hide WellFormed; }
    LaunchKeeps(s, p, cause);
    var s' := Launch(s, p, cause);
    assert Advances(s, s') by { hide EventCount; }
    BoundEvolves(s, s', p.id);
  }

  /** What `PerformRestart` does to the other processes: polling at most. */
  ghost predicate OthersPolled(s: State, s': State, id: ProcessId) {
    forall x :: x in s.procs && x != id ==> x in s'.procs && PolledInto(s.procs[x], s'.procs[x])
  }

  lemma PolledAdvances(s: State, procs: ProcessMap)
    requires Invariant(s) && OnlyPolled(s.procs, procs)
    ensures var s' := s.(procs := procs); Invariant(s') && Advances(s, s')
  {
    PolledKeeps(s, procs);
    var s' := s.(procs := procs);
    assert Accounted(s, s') by { hide EventCount; }
    forall x | x in procs && procs[x].state.Waiting?
      ensures s.procs[x].state.Waiting? && procs[x].resolvedDeps == s.procs[x].resolvedDeps
    {
      assert PolledInto(s.procs[x], procs[x]);
    }
    BoundEvolves(s, s', s.nextId);
  }

  lemma ReplaceAdvances(s: State, id: ProcessId, q: Process)
    requires Invariant(s) && id in s.procs && WellFormed(q)
    requires q.id == id && q.tag == s.procs[id].tag && q.config == s.procs[id].config
    requires q.spawnSequence == s.procs[id].spawnSequence && q.child.Some? == s.procs[id].child.Some?
    requires q.state.Waiting? ==> BoundSparingly(s, q.resolvedDeps, q.config.dependsOn)
    ensures var s' := s.(procs := s.procs[id := q]); Invariant(s') && Advances(s, s')
  {
    ReplaceKeeps(s, id, q);
    var s' := s.(procs := s.procs[id := q]);
    assert Accounted(s, s') by { hide EventCount; }
    if q.state.Waiting? { SparingEvolves(s, s', q.resolvedDeps, q.config.dependsOn); }
    BoundEvolves(s, s', id);
  }

  lemma ReplacedOthersPolled(s: State, procs: ProcessMap, id: ProcessId, q: Process)
    requires OnlyPolled(s.procs, procs)
    ensures OthersPolled(s, s.(procs := procs[id := q]), id)
  {
    hide PolledInto;
  }

  lemma AdvancesEvolves(s: State, s': State)
    requires Advances(s, s')
    ensures Evolves(s, s') && s'.procs.Keys <= s.procs.Keys
  {
    hide EventCount;
  }

  /** A process in its backoff wait is replaced while the others may be polled. */
  lemma PolledReplaceAdvances(s: State, procs: ProcessMap, id: ProcessId, q: Process)
    requires Invariant(s) && OnlyPolled(s.procs, procs) && id in s.procs && s.procs[id].state.Restarting?
    requires WellFormed(q) && q.id == id && q.tag == s.procs[id].tag && q.config == s.procs[id].config
    requires q.spawnSequence == s.procs[id].spawnSequence && q.child.Some? == s.procs[id].child.Some?
    requires q.state.Waiting? ==> BoundSparingly(s, q.resolvedDeps, q.config.dependsOn)
    ensures var s' := s.(procs := procs[id := q]); Invariant(s') && Advances(s, s') && OthersPolled(s, s', id)
    ensures procs[id] == s.procs[id]
  {
    assert Structural(s);
    assert procs[id] == s.procs[id] by { assert PolledInto(s.procs[id], procs[id]); }
    hide *;
    var s1 := s.(procs := procs);
    PolledAdvances(s, procs);
    AdvancesEvolves(s, s1);
    ReplacedOthersPolled(s, procs, id, q);
    if q.state.Waiting? { SparingEvolves(s, s1, q.resolvedDeps, q.config.dependsOn); }
    ReplaceAdvances(s1, id, q);
    AdvancesTransitive(s, s1, s1.(procs := procs[id := q]));
  }

  lemma DiscardInvariant(s: State, id: ProcessId)
    requires Invariant(s) && id in s.procs
    ensures var s' := Discard(s, id, Failed); Invariant(s') && Advances(s, s')
  {
    DiscardAdvances(s, id);
    BoundEvolves(s, Discard(s, id, Failed), id);
  }

  lemma RestartedFits(s: State, id: ProcessId, pid: OsPid, at: Time)
    requires Structural(s) && id in s.procs && s.procs[id].state.Restarting?
    ensures var p, q := s.procs[id], Restarted(s.procs[id], pid, at);
            && p.id == id && p.child.None? && WellFormed(q) && q.child.Some? && !q.state.Waiting?
            && q.id == id && q.tag == p.tag && q.config == p.config && q.spawnSequence == p.spawnSequence
  {
  }

  lemma RespawnIs(s: State, id: ProcessId, t: Tick)
    requires id in s.procs && s.procs[id].id == id
    ensures RespawnOrFail(s, id, t) ==
              match t.spawn(id)
              case Some(pid) => Launch(s, Restarted(s.procs[id], pid, t.clock(OnRestart(id))), OnAutoRestart)
              case None => Discard(s, id, Failed)
    ensures forall x :: x in s.procs && x != id ==>
              x in RespawnOrFail(s, id, t).procs && RespawnOrFail(s, id, t).procs[x] == s.procs[x]
  {
    hide RunningLabels;
  }

  lemma RespawnAdvances(s: State, id: ProcessId, t: Tick)
    requires Invariant(s) && id in s.procs && s.procs[id].state.Restarting?
    requires AllMet(s.procs[id].config.dependsOn, RunningLabels(s.procs))
    ensures var s' := RespawnOrFail(s, id, t);
            Invariant(s') && Advances(s, s')
            && forall x :: x in s.procs && x != id ==> x in s'.procs && s'.procs[x] == s.procs[x]
  {
    hide *;
    InvariantStructural(s);
    match t.spawn(id) {
      case Some(pid) =>
        RestartedFits(s, id, pid, t.clock(OnRestart(id)));
        LaunchAdvances(s, Restarted(s.procs[id], pid, t.clock(OnRestart(id))), OnAutoRestart);
      case None =>
        RestartedFits(s, id, 1, 0.0);
        DiscardInvariant(s, id);
    }
    RespawnIs(s, id, t);
  }

  /** The map in which `PerformRestart` makes its decision. */
  function RestartPolls(s: State, id: ProcessId, t: Tick): PollResult
    requires id in s.procs
  {
    var deps := s.procs[id].config.dependsOn;
    var bound := Bindings(s.procs, t.order(AtLookup(id)), deps);
    if |bound| == |deps| then PollDeps(s.procs, bound, (n: nat) => t.recheck(id, n)) else PollResult(s.procs, false)
  }

  lemma RestartPollsOnlyPoll(s: State, id: ProcessId, t: Tick)
    requires id in s.procs
    ensures OnlyPolled(s.procs, RestartPolls(s, id, t).procs)
  {
    var bound := Bindings(s.procs, t.order(AtLookup(id)), s.procs[id].config.dependsOn);
    PollDepsOnlyPolls(s.procs, bound, (n: nat) => t.recheck(id, n));
  }

  lemma BackToWaitingAdvances(s: State, id: ProcessId, t: Tick)
    requires Invariant(s) && id in s.procs && s.procs[id].state.Restarting?
    requires !RestartPolls(s, id, t).ok
    ensures var bound := Bindings(s.procs, t.order(AtLookup(id)), s.procs[id].config.dependsOn);
            var q := BackToWaiting(s.procs[id], bound, t.clock(OnRestart(id)));
            var s' := s.(procs := RestartPolls(s, id, t).procs[id := q]);
            Invariant(s') && Advances(s, s') && OthersPolled(s, s', id)
  {
    var p, deps := s.procs[id], s.procs[id].config.dependsOn;
    var bound := Bindings(s.procs, t.order(AtLookup(id)), deps);
    var q := BackToWaiting(p, bound, t.clock(OnRestart(id)));
    assert Structural(s) && WellFormed(q) && p.id == id;
    BindingsSparing(s, t.order(AtLookup(id)), deps);
    RestartPollsOnlyPoll(s, id, t);
    assert q.state.Waiting? && q.id == p.id && q.tag == p.tag && q.config == p.config
           && q.spawnSequence == p.spawnSequence && q.child == p.child && q.resolvedDeps == bound;
    hide *;
    PolledReplaceAdvances(s, RestartPolls(s, id, t).procs, id, q);
  }

  lemma RestartPollsMeet(s: State, id: ProcessId, t: Tick)
    requires id in s.procs && RestartPolls(s, id, t).ok
    ensures AllMet(s.procs[id].config.dependsOn, RunningLabels(RestartPolls(s, id, t).procs))
  {
    var deps := s.procs[id].config.dependsOn;
    ReadyMeetsAll(s.procs, t.order(AtLookup(id)), deps, (n: nat) => t.recheck(id, n));
  }

  /** The state in which a ready restart spawns: everything it depends on is Running. */
  function Rebound(s: State, id: ProcessId, t: Tick): State
    requires id in s.procs
  {
    var bound := Bindings(s.procs, t.order(AtLookup(id)), s.procs[id].config.dependsOn);
    s.(procs := RestartPolls(s, id, t).procs[id := s.procs[id].(resolvedDeps := bound)])
  }

  lemma ReboundReady(s: State, id: ProcessId, t: Tick)
    requires Invariant(s) && id in s.procs && s.procs[id].state.Restarting?
    requires RestartPolls(s, id, t).ok
    ensures var s2 := Rebound(s, id, t);
            && Invariant(s2) && Advances(s, s2) && OthersPolled(s, s2, id)
            && AllMet(s.procs[id].config.dependsOn, RunningLabels(s2.procs))
  {
    var p, deps := s.procs[id], s.procs[id].config.dependsOn;
    var bound := Bindings(s.procs, t.order(AtLookup(id)), deps);
    var q := p.(resolvedDeps := bound);
    assert Structural(s) && WellFormed(q) && p.id == id;
    RestartPollsMeet(s, id, t);
    RestartPollsOnlyPoll(s, id, t);
    var procs := RestartPolls(s, id, t).procs;
    assert Rebound(s, id, t) == s.(procs := procs[id := q]);
    hide *;
    PolledReplaceAdvances(s, procs, id, q);
    SameRunning(procs, id, q);
  }

  lemma SameRunning(procs: ProcessMap, id: ProcessId, q: Process)
    requires id in procs && q.state == procs[id].state && q.tag == procs[id].tag
    ensures RunningLabels(procs[id := q]) == RunningLabels(procs)
  {
  }

  lemma RespawnBoundAdvances(s: State, id: ProcessId, t: Tick)
    requires Invariant(s) && id in s.procs && s.procs[id].state.Restarting?
    requires RestartPolls(s, id, t).ok
    ensures var s' := RespawnOrFail(Rebound(s, id, t), id, t);
            Invariant(s') && Advances(s, s') && OthersPolled(s, s', id)
  {
    hide *;
    var s2 := Rebound(s, id, t);
    InvariantStructural(s);
    ReboundEntry(s, id, t);
    ReboundReady(s, id, t);
    RespawnAdvances(s2, id, t);
    AdvancesTransitive(s, s2, RespawnOrFail(s2, id, t));
    OthersPolledKept(s, s2, RespawnOrFail(s2, id, t), id);
  }

  lemma ReboundEntry(s: State, id: ProcessId, t: Tick)
    requires id in s.procs
    ensures var q := s.procs[id].(resolvedDeps := Bindings(s.procs, t.order(AtLookup(id)), s.procs[id].config.dependsOn));
            id in Rebound(s, id, t).procs && Rebound(s, id, t).procs[id] == q
  {
    hide Bindings, PollDeps;
  }

  lemma OthersPolledKept(s: State, s1: State, s': State, id: ProcessId)
    requires OthersPolled(s, s1, id)
    requires forall x :: x in s1.procs && x != id ==> x in s'.procs && s'.procs[x] == s1.procs[x]
    ensures OthersPolled(s, s', id)
  {
    hide PolledInto;
  }

  /** A restart spawns only if every dependency is met; otherwise the process waits. */
  lemma PerformRestartAdvances(s: State, id: ProcessId, t: Tick)
    requires Invariant(s) && id in s.procs && s.procs[id].state.Restarting?
    ensures var s' := PerformRestart(s, id, t); Invariant(s') && Advances(s, s') && OthersPolled(s, s', id)
  {
    hide Invariant, Advances, AllMet, Bindings, PollDeps;
    if s.procs[id].config.dependsOn == [] {
      assert AllMet([], RunningLabels(s.procs)) by { NothingToMeet(RunningLabels(s.procs)); }
      RespawnAdvances(s, id, t);
      assert PerformRestart(s, id, t) == RespawnOrFail(s, id, t);
      hide RespawnOrFail;
    } else {
      RestartPollsOnlyPoll(s, id, t);
      assert PolledInto(s.procs[id], RestartPolls(s, id, t).procs[id]);
      if RestartPolls(s, id, t).ok {
        RespawnBoundAdvances(s, id, t);
      } else {
        BackToWaitingAdvances(s, id, t);
      }
    }
  }

  lemma NothingToMeet(running: map<ProcessId, Label>)
    ensures AllMet([], running)
  {
  }

  /** Every id of the list is still waiting for its restart. */
  ghost predicate AllRestarting(s: State, ids: seq<ProcessId>) {
    forall i :: 0 <= i < |ids| ==> ids[i] in s.procs && s.procs[ids[i]].state.Restarting?
  }

  ghost predicate OthersPolledAll(s: State, s': State, ids: seq<ProcessId>) {
    forall x :: x in s.procs && x !in ids ==> x in s'.procs && PolledInto(s.procs[x], s'.procs[x])
  }

  lemma RestartAllStep(s: State, ids: seq<ProcessId>, t: Tick)
    ensures RestartAll(s, [], t) == s
    ensures ids != [] ==> RestartAll(s, ids, t) == PerformRestart(RestartAll(s, ids[..|ids| - 1], t), ids[|ids| - 1], t)
  {
  }

  /** The last of the list is restarted when the others have been. */
  lemma LastRestarting(s: State, ids: seq<ProcessId>)
    requires Structural(s) && Distinct(ids) && AllRestarting(s, ids) && ids != []
    ensures var n := |ids| - 1;
            && Distinct(ids[..n]) && AllRestarting(s, ids[..n]) && ids[n] !in ids[..n]
            && ids[n] in s.procs && s.procs[ids[n]].id == ids[n] && s.procs[ids[n]].state.Restarting?
            && forall x :: x in ids <==> x in ids[..n] || x == ids[n]
  {
    var n := |ids| - 1;
    assert ids == ids[..n] + [ids[n]];
  }

  /** Polls do not reach a process in its backoff wait. */
  lemma StillRestarting(s: State, s': State, ids: seq<ProcessId>, id: ProcessId)
    requires OthersPolledAll(s, s', ids) && id !in ids && id in s.procs && s.procs[id].state.Restarting?
    ensures id in s'.procs && s'.procs[id] == s.procs[id]
  {
    assert PolledInto(s.procs[id], s'.procs[id]);
  }

  lemma OthersPolledOn(s: State, s1: State, s': State, ids: seq<ProcessId>, all: seq<ProcessId>, id: ProcessId)
    requires OthersPolledAll(s, s1, ids) && OthersPolled(s1, s', id)
    requires forall x :: x in all <==> x in ids || x == id
    ensures OthersPolledAll(s, s', all)
  {
    forall x | x in s.procs && x !in all ensures x in s'.procs && PolledInto(s.procs[x], s'.procs[x]) {
      assert PolledInto(s.procs[x], s1.procs[x]) && PolledInto(s1.procs[x], s'.procs[x]);
    }
  }

  lemma OthersPolledSelf(s: State)
    ensures OthersPolledAll(s, s, [])
  {
    PolledIntoSelf(s.procs);
    hide PolledInto;
  }

  lemma RestartAllAdvances(s: State, ids: seq<ProcessId>, t: Tick)
    requires Invariant(s) && Distinct(ids) && AllRestarting(s, ids)
    ensures var s' := RestartAll(s, ids, t); Invariant(s') && Advances(s, s') && OthersPolledAll(s, s', ids)
  {
    assert Structural(s);
    hide *;
    RestartAllStep(s, ids, t);
    if ids == [] {
      AdvancesSelf(s);
      OthersPolledSelf(s);
    } else {
      var n := |ids| - 1;
      LastRestarting(s, ids);
      RestartAllAdvances(s, ids[..n], t);
      var s1 := RestartAll(s, ids[..n], t);
      StillRestarting(s, s1, ids[..n], ids[n]);
      PerformRestartAdvances(s1, ids[n], t);
      AdvancesTransitive(s, s1, RestartAll(s, ids, t));
      OthersPolledOn(s, s1, RestartAll(s, ids, t), ids[..n], ids, ids[n]);
    }
  }

  lemma RestartIdsAreDue(procs: ProcessMap, order: seq<ProcessId>, now: Time)
    requires Distinct(order)
    ensures var ids := RestartIds(procs, order, now);
            && Distinct(ids)
            && (forall id :: id in ids <==> id in order && DueForRestart(procs, id, now))
  {
    if order != [] {
      var n := |order| - 1;
      RestartIdsAreDue(procs, order[..n], now);
      assert order == order[..n] + [order[n]];
      assert order[n] !in order[..n];
    }
  }

  lemma RestartIdsRestarting(s: State, t: Tick)
    requires Faithful(t, s.procs.Keys)
    ensures var ids := RestartIds(s.procs, t.order(AtRestart), t.now);
            && Distinct(ids) && AllRestarting(s, ids) && Restarts(s, t) == RestartAll(s, ids, t)
            && forall id :: id in ids ==> DueForRestart(s.procs, id, t.now)
  {
    RestartIdsAreDue(s.procs, t.order(AtRestart), t.now);
    var ids := RestartIds(s.procs, t.order(AtRestart), t.now);
    hide RestartAll, RestartIds;
    forall i | 0 <= i < |ids| ensures ids[i] in s.procs && s.procs[ids[i]].state.Restarting? {
      assert ids[i] in ids;
    }
  }

  lemma RestartsAdvance(s: State, t: Tick)
    requires Invariant(s) && Faithful(t, s.procs.Keys)
    ensures var s' := Restarts(s, t); Invariant(s') && Advances(s, s')
  {
    RestartIdsRestarting(s, t);
    hide *;
    RestartAllAdvances(s, RestartIds(s.procs, t.order(AtRestart), t.now), t);
  }

  /** Phase 4 at most polls whoever is not due for a restart. */
  lemma NotDuePolled(s: State, t: Tick, id: ProcessId)
    requires Invariant(s) && Faithful(t, s.procs.Keys) && id in s.procs && !DueForRestart(s.procs, id, t.now)
    ensures id in Restarts(s, t).procs && PolledInto(s.procs[id], Restarts(s, t).procs[id])
  {
    RestartIdsRestarting(s, t);
    var ids := RestartIds(s.procs, t.order(AtRestart), t.now);
    hide Invariant, Faithful, PolledInto, RestartAll, RestartIds, Restarts;
    RestartAllAdvances(s, ids, t);
    assert id !in ids;
  }
}
