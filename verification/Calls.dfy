/** The manager's calls keep the invariants, on every path. */
module Calls {
  import opened Basics
  import opened Processes
  import opened Resolution
  import opened Manager
  import opened Invariants
  import opened Changes
  import opened LaterPhases
  import opened CascadeStop
  import opened FailFastPhase

  // ------------------------------------------------------------------ start

  lemma CountersInvariant(s: State, nextId: ProcessId, nextSequence: nat)
    requires Invariant(s) && s.nextId <= nextId && s.nextSequence <= nextSequence
    ensures var s' := s.(nextId := nextId, nextSequence := nextSequence); Invariant(s') && Evolves(s, s')
  {
    CountersKeep(s, nextId, nextSequence);
    BoundEvolves(s, s.(nextId := nextId, nextSequence := nextSequence), nextId);
  }

  /** The polls `start` makes of the processes it resolved its dependencies to. */
  function StartPolls(s: State, config: ProcessConfig, e: StartEnv): PollResult {
    var bound := Bindings(s.procs, e.order, config.dependsOn);
    if |bound| == |config.dependsOn| then PollDeps(s.procs, bound, e.polls) else PollResult(s.procs, false)
  }

  lemma StartPollsMeet(s: State, config: ProcessConfig, e: StartEnv)
    ensures OnlyPolled(s.procs, StartPolls(s, config, e).procs)
    ensures StartPolls(s, config, e).ok ==> AllMet(config.dependsOn, RunningLabels(StartPolls(s, config, e).procs))
  {
    var bound := Bindings(s.procs, e.order, config.dependsOn);
    PollDepsOnlyPolls(s.procs, bound, e.polls);
    if StartPolls(s, config, e).ok { ReadyMeetsAll(s.procs, e.order, config.dependsOn, e.polls); }
  }

  /** A new entry, with or without a child, under an id just handed out. */
  lemma NewEntryKeeps(s: State, p: Process, s': State)
    requires Invariant(s) && WellFormed(p) && p.id < s.nextId && p.id !in s.procs
    requires p.spawnSequence == s.nextSequence
    requires forall i :: 0 <= i < |s.log| ==> s.log[i].id != p.id
    requires StartState(s, p, s')
    requires p.child.Some? ==> AllMet(p.config.dependsOn, RunningLabels(s.procs)) && !p.state.Waiting?
    ensures Sound(s')
  {
    hide AllMet, RunningLabels, WellFormed, Logged, Conserved, Ordered, Bound;
    var s1 := s.(nextSequence := s.nextSequence + 1);
    CountersInvariant(s, s.nextId, s.nextSequence + 1);
    if p.child.Some? { LaunchKeeps(s1, p, OnStart); } else { InsertKeeps(s1, p); }
  }

  /** The entry `start` builds: with a child if its dependencies were met and the spawn succeeded. */
  function StartEntry(s: State, id: ProcessId, tag: Label, config: ProcessConfig, e: StartEnv): Process {
    var blank := Fresh(id, tag, config, s.nextSequence).(resolvedDeps := Bindings(s.procs, e.order, config.dependsOn));
    if StartPolls(s, config, e).ok && e.spawn.Some? then WithChild(blank, e.spawn.value, e.clock)
    else blank.(waitingSince := Some(e.clock))
  }

  lemma StartShape(s: State, id: ProcessId, tag: Label, config: ProcessConfig, e: StartEnv)
    ensures var s1 := s.(procs := StartPolls(s, config, e).procs);
            var p := StartEntry(s, id, tag, config, e);
            var s' := StartAccepted(s, id, tag, config, e).state;
            && WellFormed(p) && p.id == id && p.tag == tag && p.config == config
            && p.resolvedDeps == Bindings(s.procs, e.order, config.dependsOn) && p.spawnSequence == s.nextSequence
            && (p.state.Waiting? <==> p.child.None?) && (p.child.Some? ==> StartPolls(s, config, e).ok)
            && (p.restart.Some? ==> p.restart.value.restartCount == 0) && !p.cascadeFlag
            && if StartPolls(s, config, e).ok && e.spawn.None? then s' == s1 else StartState(s1, p, s')
  {
    hide Bindings, PollDeps, RunningLabels;
  }

  /** Without dependencies an entry is made only with a child. */
  lemma EntryStarts(s: State, id: ProcessId, tag: Label, config: ProcessConfig, e: StartEnv)
    ensures config.dependsOn == [] ==> StartPolls(s, config, e).ok
    ensures var p := StartEntry(s, id, tag, config, e);
            && (p.state.Waiting? || p.state.Starting?)
            && (StartPolls(s, config, e).ok && e.spawn.Some? ==> p.state.Starting?)
  {
    EmptyBindings(s.procs, e.order);
  }

  lemma EmptyBindings(procs: ProcessMap, order: seq<ProcessId>)
    ensures Bindings(procs, order, []) == []
  {
  }

  lemma StartIs(s: State, tag: Label, config: ProcessConfig, e: StartEnv)
    ensures var s', s1 := Start(s, tag, config, e).state, s.(nextId := s.nextId + 1);
            s' == s || s' == s1
            || (!Rejected(s, tag, config, e) && s' == StartAccepted(s1, s.nextId, tag, config, e).state)
  {
    hide StartAccepted, Rejected;
  }

  lemma StartedProcs(s: State, p: Process, s': State)
    ensures StartState(s, p, s') ==> s'.procs == s.procs[p.id := p]
  {
    hide RunningLabels;
  }

  lemma NextIdUnused(s: State)
    requires Structural(s)
    ensures s.nextId !in s.procs
  {
  }

  /** What `start` makes of the map: nothing, some polls, or some polls and one new entry. */
  lemma StartMap(s: State, tag: Label, config: ProcessConfig, e: StartEnv)
    requires Structural(s)
    ensures var s', s1 := Start(s, tag, config, e).state, s.(nextId := s.nextId + 1);
            var polled, p := StartPolls(s1, config, e).procs, StartEntry(s1, s.nextId, tag, config, e);
            && s.nextId !in s.procs && OnlyPolled(s.procs, polled)
            && p.tag == tag && p.config == config && (p.restart.Some? ==> p.restart.value.restartCount == 0) && !p.cascadeFlag
            && (s'.procs == s.procs || s'.procs == polled
                || (!Rejected(s, tag, config, e) && s'.procs == polled[s.nextId := p]))
  {
    hide *;
    var s1 := s.(nextId := s.nextId + 1);
    NextIdUnused(s);
    StartIs(s, tag, config, e);
    StartShape(s1, s.nextId, tag, config, e);
    StartPollsMeet(s1, config, e);
    StartedProcs(s1.(procs := StartPolls(s1, config, e).procs), StartEntry(s1, s.nextId, tag, config, e),
                 Start(s, tag, config, e).state);
  }

  lemma PolledKeepsIdentity(before: ProcessMap, after: ProcessMap)
    requires OnlyPolled(before, after)
    ensures before.Keys == after.Keys
    ensures forall id :: id in before ==> PolledInto(before[id], after[id])
                                          && after[id].tag == before[id].tag && after[id].config == before[id].config
  {
    forall id | id in before ensures after[id].tag == before[id].tag && after[id].config == before[id].config {
      assert PolledInto(before[id], after[id]);
    }
    hide PolledInto;
  }

  /** `s` is the state after polling, `before` the state the call began in. */
  lemma StartInsertKeeps(before: State, s: State, p: Process, s': State)
    requires Invariant(before) && Invariant(s)
    requires OnlyPolled(before.procs, s.procs) && s == before.(nextId := before.nextId + 1, procs := s.procs)
    requires WellFormed(p) && p.id == before.nextId && p.spawnSequence == s.nextSequence && StartState(s, p, s')
    requires p.state.Waiting? <==> p.child.None?
    requires p.child.Some? ==> AllMet(p.config.dependsOn, RunningLabels(s.procs))
    requires BoundSparingly(before, p.resolvedDeps, p.config.dependsOn)
    ensures Invariant(s') && Evolves(before, s')
  {
    assert Structural(before) && p.id !in before.procs && p.id < s.nextId;
    StartEvolves(before, s, p, s');
    LogBelow(before);
    hide AllMet, RunningLabels, WellFormed, Conserved, Ordered, BoundSparingly, Bound, Logged, Sequenced, Evolves, Structural;
    hide StartState, OnlyPolled, PolledInto;
    NewEntryKeeps(s, p, s');
    SparingEvolves(before, s', p.resolvedDeps, p.config.dependsOn);
    BoundEvolves(before, s', p.id);
  }

  lemma StartEvolves(before: State, s: State, p: Process, s': State)
    requires OnlyPolled(before.procs, s.procs) && s == before.(nextId := before.nextId + 1, procs := s.procs)
    requires p.id == before.nextId && p.id !in before.procs && StartState(s, p, s')
    ensures Evolves(before, s') && (p.id in s'.procs && s'.procs[p.id] == p)
    ensures forall x :: x in s'.procs && x != p.id && s'.procs[x].state.Waiting? ==>
              x in before.procs && before.procs[x].state.Waiting? && s'.procs[x].resolvedDeps == before.procs[x].resolvedDeps
  {
    assert forall x :: x in before.procs ==> PolledInto(before.procs[x], s.procs[x]);
    hide RunningLabels;
  }

  lemma LogBelow(s: State)
    requires Logged(s)
    ensures forall i :: 0 <= i < |s.log| ==> s.log[i].id < s.nextId
  {
  }

  lemma StartAcceptedKeeps(s: State, id: ProcessId, tag: Label, config: ProcessConfig, e: StartEnv, before: State)
    requires Invariant(before) && id == before.nextId && s == before.(nextId := id + 1)
    ensures var s' := StartAccepted(s, id, tag, config, e).state; Invariant(s') && Evolves(before, s')
  {
    hide *;
    var s1 := s.(procs := StartPolls(s, config, e).procs);
    InvariantStructural(before);
    CountersInvariant(before, id + 1, before.nextSequence);
    StartShape(s, id, tag, config, e);
    StartPollsMeet(s, config, e);
    BindingsSparing(before, e.order, config.dependsOn);
    PolledAdvances(s, s1.procs);
    AdvancesEvolves(s, s1);
    if StartPolls(s, config, e).ok && e.spawn.None? {
      EvolvesTransitive(before, s, s1);
    } else {
      StartInsertKeeps(before, s1, StartEntry(s, id, tag, config, e), StartAccepted(s, id, tag, config, e).state);
    }
  }

  ghost predicate StartState(s: State, p: Process, s': State) {
    var s1 := s.(nextSequence := s.nextSequence + 1);
    s' == if p.child.Some? then Launch(s1, p, OnStart) else s1.(procs := s.procs[p.id := p])
  }

  lemma StartKeeps(s: State, tag: Label, config: ProcessConfig, e: StartEnv)
    requires Invariant(s)
    ensures var s' := Start(s, tag, config, e).state; Invariant(s') && Evolves(s, s')
  {
    hide Invariant, StartAccepted, Rejected;
    CountersInvariant(s, s.nextId + 1, s.nextSequence);
    StartAcceptedKeeps(s.(nextId := s.nextId + 1), s.nextId, tag, config, e, s);
  }

  // ------------------------------------------------------- stop and restart

  lemma StopInvariant(s: State, id: ProcessId, e: StopEnv)
    requires Invariant(s)
    ensures var s' := Stop(s, id, e).state; Invariant(s') && Evolves(s, s')
  {
    StopKeeps(s, id, e);
    QuietBound(s, Stop(s, id, e).state);
    QuietEvolves(s, Stop(s, id, e).state);
  }

  lemma RestartPrepared(s: State, id: ProcessId)
    requires Invariant(s) && id in s.procs && s.procs[id].state.Restarting?
    ensures var s1 := s.(procs := s.procs[id := Cancelled(s.procs[id])]);
            var s2 := s1.(nextSequence := s.nextSequence + 1);
            Structural(s) && Advances(s, s1) && Structural(s1) && Evolves(s1, s2) && Invariant(s2)
  {
    hide *;
    var q := Cancelled(s.procs[id]);
    var s1 := s.(procs := s.procs[id := q]);
    InvariantStructural(s);
    CancelledFits(s, id);
    ReplaceAdvances(s, id, q);
    InvariantStructural(s1);
    CountersInvariant(s1, s.nextId, s.nextSequence + 1);
  }

  lemma CancelledFits(s: State, id: ProcessId)
    requires Structural(s) && id in s.procs && s.procs[id].state.Restarting?
    ensures var p, q := s.procs[id], Cancelled(s.procs[id]);
            && WellFormed(q) && q.id == id && q.child == p.child && !q.state.Waiting?
            && q.tag == p.tag && q.config == p.config && q.spawnSequence == p.spawnSequence
  {
  }

  lemma RelaunchKeeps(s: State, s1: State, s2: State, r: Process)
    requires Structural(s) && Advances(s, s1) && Structural(s1) && Evolves(s1, s2) && Invariant(s2)
    requires WellFormed(r) && r.child.Some? && r.id in s2.procs && !r.state.Waiting?
    requires s2.procs[r.id].child.None? && r.spawnSequence == s2.procs[r.id].spawnSequence
    requires r.tag == s2.procs[r.id].tag && r.config == s2.procs[r.id].config
    ensures var s' := Launch(s2, r, OnManualRestart); Invariant(s') && Evolves(s, s')
  {
    LaunchAdvances(s2, r, OnManualRestart);
    hide WellFormed, Logged, Conserved, Ordered, Bound, Sequenced, Accounted, Launch;
    EvolvesTransitive(s, s1, s2);
    EvolvesTransitive(s, s2, Launch(s2, r, OnManualRestart));
  }

  /** A restart takes the place of a process that was waiting out its backoff. */
  lemma RestartCancelledKeeps(s: State, id: ProcessId, e: RestartEnv)
    requires Invariant(s) && id in s.procs && s.procs[id].state.Restarting?
    ensures var s' := Restart(s, id, e).state; Invariant(s') && Evolves(s, s')
  {
    var q := Cancelled(s.procs[id]);
    assert WellFormed(q) && q.id == id && s.procs[id].child.None?;
    var s1 := s.(procs := s.procs[id := q]);
    if e.spawn.Some? {
      var r := WithChild(q, e.spawn.value, e.clock);
      assert WellFormed(r) && r.child.Some? && r.id == id && !r.state.Waiting? && r.tag == q.tag && r.config == q.config
             && r.spawnSequence == q.spawnSequence;
      var s2 := s1.(nextSequence := s.nextSequence + 1);
      assert Restart(s, id, e).state == Launch(s2, r, OnManualRestart);
      RestartPrepared(s, id);
      hide *;
      RelaunchKeeps(s, s1, s2, r);
    } else {
      ReplaceAdvances(s, id, q);
    }
  }

  /** Coming back under an id that a stop has just removed from `before`. */
  lemma ComeBackKeeps(before: State, s: State, r: Process)
    requires Invariant(before) && Sound(s) && Quiets(before, s)
    requires r.id in before.procs && r.id !in s.procs && WellFormed(r) && r.child.Some? && !r.state.Waiting?
    requires r.tag == before.procs[r.id].tag && r.config == before.procs[r.id].config
    requires r.spawnSequence == before.nextSequence
    ensures var s' := Launch(s.(nextSequence := before.nextSequence + 1), r, OnManualRestart);
            Invariant(s') && Evolves(before, s')
  {
    hide *;
    var s2 := s.(nextSequence := before.nextSequence + 1);
    var s' := Launch(s2, r, OnManualRestart);
    InvariantIsSound(before);
    LoggedAndStructural(before);
    NoFailedEvent(before, s, r.id);
    ComeBackEvolves(before, s, r);
    ComeBackFits(before, s, r);
    CountersKeep(s, s.nextId, before.nextSequence + 1);
    LaunchKeeps(s2, r, OnManualRestart);
    BoundEvolves(before, s', r.id);
    SoundAndBound(s');
  }

  lemma LoggedAndStructural(s: State)
    requires Sound(s)
    ensures Logged(s) && Structural(s)
  {
  }

  lemma SoundAndBound(s: State)
    requires Sound(s) && Bound(s)
    ensures Invariant(s)
  {
  }

  lemma ComeBackFits(before: State, s: State, r: Process)
    requires Sound(s) && Quiets(before, s) && r.id !in s.procs && !r.state.Waiting? && r.spawnSequence == before.nextSequence
    ensures var s' := Launch(s.(nextSequence := before.nextSequence + 1), r, OnManualRestart);
            && (forall x :: x in s.procs ==> s.procs[x].spawnSequence != r.spawnSequence)
            && r.id in s'.procs && s'.procs[r.id] == r
            && (forall x :: x in s'.procs && x != r.id && s'.procs[x].state.Waiting? ==>
                  x in before.procs && before.procs[x].state.Waiting? && s'.procs[x].resolvedDeps == before.procs[x].resolvedDeps)
  {
    assert Sequenced(s) && s.nextSequence == before.nextSequence && Shrinks(before.procs, s.procs);
    hide WellFormed, Logged, Conserved, Ordered, Structural, RunningLabels, Quiets;
  }

  lemma NoFailedEvent(before: State, s: State, id: ProcessId)
    requires Logged(before) && Quiets(before, s) && id in before.procs
    ensures forall i :: 0 <= i < |s.log| && s.log[i].id == id ==> !s.log[i].state.Failed?
  {
    hide EventCount;
    forall i | 0 <= i < |s.log| && s.log[i].id == id ensures !s.log[i].state.Failed? {
      if i < |before.log| { assert s.log[i] == before.log[i]; }
    }
  }

  lemma ComeBackEvolves(before: State, s: State, r: Process)
    requires Structural(before) && Quiets(before, s) && r.id in before.procs
    requires r.tag == before.procs[r.id].tag && r.config == before.procs[r.id].config
    ensures Evolves(before, Launch(s.(nextSequence := before.nextSequence + 1), r, OnManualRestart))
    ensures r.id < s.nextId && before.nextSequence == s.nextSequence && Shrinks(before.procs, s.procs)
  {
    hide EventCount, RunningLabels, WellFormed;
  }

  /** A restart of any other process stops it first and comes back under the same id. */
  lemma RestartStoppedKeeps(s: State, id: ProcessId, e: RestartEnv)
    requires Invariant(s) && id in s.procs && !s.procs[id].state.Restarting?
    ensures var s' := Restart(s, id, e).state; Invariant(s') && Evolves(s, s')
  {
    hide *;
    RestartShape(s, id, e);
    StopInvariant(s, id, e.stop);
    assert Sound(s) by { InvariantIsSound(s); }
    StopKeeps(s, id, e.stop);
    var stopped := Stop(s, id, e.stop);
    var p := s.procs[id];
    if stopped.result.Ok? && e.spawn.Some? {
      ComeBackKeeps(s, stopped.state, WithChild(Fresh(id, p.tag, p.config, s.nextSequence), e.spawn.value, e.clock));
    }
  }

  lemma InvariantIsSound(s: State)
    requires Invariant(s)
    ensures Sound(s)
  {
  }

  lemma RestartShape(s: State, id: ProcessId, e: RestartEnv)
    requires id in s.procs && !s.procs[id].state.Restarting?
    ensures var stopped := Stop(s, id, e.stop);
            var p := s.procs[id];
            if stopped.result.Ok? && e.spawn.Some? then
              var r := WithChild(Fresh(id, p.tag, p.config, s.nextSequence), e.spawn.value, e.clock);
              && WellFormed(r) && r.id == id && r.tag == p.tag && r.config == p.config
              && r.spawnSequence == s.nextSequence && r.child.Some? && !r.state.Waiting?
              && Restart(s, id, e).state == Launch(stopped.state.(nextSequence := s.nextSequence + 1), r, OnManualRestart)
            else Restart(s, id, e).state == stopped.state
  {
    hide Stop, Launch;
  }

  lemma RestartKeeps(s: State, id: ProcessId, e: RestartEnv)
    requires Invariant(s)
    ensures var s' := Restart(s, id, e).state; Invariant(s') && Evolves(s, s')
  {
    hide Invariant;
    if id in s.procs {
      if s.procs[id].state.Restarting? { RestartCancelledKeeps(s, id, e); } else { RestartStoppedKeeps(s, id, e); }
    }
  }

  // -------------------------------------------------------------- stop_many

  lemma DroppedByExact(procs: ProcessMap, ids: seq<ProcessId>, kill: ProcessId -> SignalResult, id: ProcessId)
    requires forall x :: x in procs ==> procs[x].id == x
    ensures DroppedBy(procs, ids, kill)[id] ==
              if id in ids && id in procs && procs[id].child.Some? && !Unkillable(procs[id], kill) then 1 else 0
  {
    if ids != [] {
      var n := |ids| - 1;
      DroppedByExact(procs, ids[..n], kill, id);
      assert ids == ids[..n] + [ids[n]];
    }
  }

  lemma StopManyConserves(s: State, ids: seq<ProcessId>, kill: ProcessId -> SignalResult)
    requires Structural(s) && Conserved(s)
    ensures Conserved(StopMany(s, ids, kill))
  {
    var s' := StopMany(s, ids, kill);
    hide WellFormed, ExitCount, SpawnCount, DroppedBy;
    forall id: ProcessId
      ensures SpawnCount(s'.spawns, id) == ExitCount(s'.log, id) + s'.dropped[id] + Held(s', id)
    {
      DroppedByExact(s.procs, ids, kill, id);
    }
  }

  lemma StopManyShrinks(s: State, ids: seq<ProcessId>, kill: ProcessId -> SignalResult)
    requires Structural(s) && Sequenced(s)
    ensures var s' := StopMany(s, ids, kill);
            && Structural(s') && Sequenced(s') && Evolves(s, s') && s.nextId !in s'.procs
            && forall x :: x in s'.procs ==> x in s.procs && (s'.procs[x].state.Waiting? ==> s'.procs[x] == s.procs[x])
  {
    hide DroppedBy, Unkillable;
  }

  lemma StopManyRecords(s: State, ids: seq<ProcessId>, kill: ProcessId -> SignalResult)
    requires Logged(s) && Ordered(s)
    ensures Logged(StopMany(s, ids, kill)) && Ordered(StopMany(s, ids, kill))
  {
    hide DroppedBy, Unkillable, AllMet;
  }

  lemma StopManyKeeps(s: State, ids: seq<ProcessId>, kill: ProcessId -> SignalResult)
    requires Invariant(s)
    ensures var s' := StopMany(s, ids, kill); Invariant(s') && Evolves(s, s')
  {
    hide WellFormed, Structural, Sequenced, Logged, Conserved, Ordered, StopMany, Bound, Evolves;
    StopManyShrinks(s, ids, kill);
    StopManyRecords(s, ids, kill);
    StopManyConserves(s, ids, kill);
    BoundEvolves(s, StopMany(s, ids, kill), s.nextId);
  }

  // ---------------------------------------------------- smaller interactions

  lemma TimeoutKeeps(s: State, id: ProcessId)
    requires Invariant(s)
    ensures var s' := DependencyTimeout(s, id); Invariant(s') && Evolves(s, s')
  {
    if id in s.procs { ReplaceAdvances(s, id, s.procs[id].(state := Failed)); }
  }

  lemma ObserveKeeps(s: State, id: ProcessId, poll: Poll)
    requires Invariant(s)
    ensures var s' := Observe(s, id, poll); Invariant(s') && Evolves(s, s')
  {
    if id in s.procs { ReplaceAdvances(s, id, s.procs[id].Polled(poll)); }
  }
}
