/** The clock readings behind start and waiting times. */
module StartTimes {
  import opened Basics
  import Backoff
  import opened Processes
  import opened Resolution
  import opened Reaper
  import opened Manager
  import opened Invariants
  import opened ReapPhase
  import opened LaterPhases
  import opened FailFastPhase
  import opened Calls
  import opened Answers
  import opened Movement
  import opened Runs
  import opened Undisturbed
  import opened ChildHandles

  function LastStart(p: Process): Option<Time> {
    if p.restart.Some? then p.restart.value.lastStartedAt else None
  }

  ghost predicate SameStart(p: Process, q: Process) {
    q.restart.Some? == p.restart.Some? && LastStart(q) == LastStart(p)
  }

  // ---------------------------------------------------------------- one cycle

  /** Same start time, waiting time and child, and nobody begins to wait. */
  ghost predicate KeepsTimes(p: Process, q: Process) {
    && SameStart(p, q)
    && q.waitingSince == p.waitingSince && q.child == p.child && (q.state.Waiting? ==> p.state.Waiting?)
  }

  /** `q` has just been given the child `spawn`, at `at`. */
  ghost predicate SpawnedNow(q: Process, spawn: Option<OsPid>, at: Time) {
    && q.child.Some? && q.child == spawn && !q.state.Waiting? && (q.restart.Some? ==> LastStart(q) == Some(at))
  }

  /** `p` has come out of its backoff wait as `q`: with a new child, or Waiting since `at`. */
  ghost predicate ComesBack(p: Process, q: Process, spawn: Option<OsPid>, at: Time) {
    && q.restart.Some? == p.restart.Some?
    && (SpawnedNow(q, spawn, at) || (q.state.Waiting? && q.child.None? && q.waitingSince == Some(at)))
  }

  lemma PolledKeepsTimes(p: Process, q: Process)
    requires PolledInto(p, q)
    ensures KeepsTimes(p, q)
    ensures forall o: Process, spawn, at :: ComesBack(o, p, spawn, at) ==> ComesBack(o, q, spawn, at)
  {
  }

  lemma PerformRestartComesBack(s: State, id: ProcessId, t: Tick)
    requires id in s.procs && s.procs[id].id == id && s.procs[id].state.Restarting? && s.procs[id].child.None?
    requires id in PerformRestart(s, id, t).procs
    ensures ComesBack(s.procs[id], PerformRestart(s, id, t).procs[id], t.spawn(id), t.clock(OnRestart(id)))
  {
    hide ComesBack, Bindings, PollDeps, RespawnOrFail, PolledInto;
    var p, at := s.procs[id], t.clock(OnRestart(id));
    if p.config.dependsOn == [] {
      RespawnComesBack(s, id, t);
    } else {
      var polled := RestartPolls(s, id, t);
      var bound := Bindings(s.procs, t.order(AtLookup(id)), p.config.dependsOn);
      RestartPollsOnlyPoll(s, id, t);
      assert polled.procs[id] == p by { assert PolledInto(p, polled.procs[id]); PolledInert(p, polled.procs[id]); }
      if polled.ok {
        RespawnComesBack(s.(procs := polled.procs[id := p.(resolvedDeps := bound)]), id, t);
        assert ComesBack(p.(resolvedDeps := bound), PerformRestart(s, id, t).procs[id], t.spawn(id), at);
        BindingAside(p, bound, PerformRestart(s, id, t).procs[id], t.spawn(id), at);
      } else {
        assert PerformRestart(s, id, t).procs[id] == BackToWaiting(p, bound, at);
        WaitsAgain(p, bound, t.spawn(id), at);
      }
    }
  }

  lemma BindingAside(p: Process, bound: seq<ProcessId>, q: Process, spawn: Option<OsPid>, at: Time)
    requires ComesBack(p.(resolvedDeps := bound), q, spawn, at)
    ensures ComesBack(p, q, spawn, at)
  {
  }

  lemma WaitsAgain(p: Process, bound: seq<ProcessId>, spawn: Option<OsPid>, at: Time)
    requires p.child.None?
    ensures ComesBack(p, BackToWaiting(p, bound, at), spawn, at)
  {
  }

  lemma RespawnComesBack(s: State, id: ProcessId, t: Tick)
    requires id in s.procs && s.procs[id].id == id && id in RespawnOrFail(s, id, t).procs
    ensures ComesBack(s.procs[id], RespawnOrFail(s, id, t).procs[id], t.spawn(id), t.clock(OnRestart(id)))
  {
    hide RunningLabels;
  }

  lemma RestartAllComesBack(s: State, ids: seq<ProcessId>, t: Tick, id: ProcessId)
    requires Invariant(s) && Distinct(ids) && AllRestarting(s, ids) && id in ids && id in s.procs
    requires id in RestartAll(s, ids, t).procs
    ensures ComesBack(s.procs[id], RestartAll(s, ids, t).procs[id], t.spawn(id), t.clock(OnRestart(id)))
  {
    hide *;
    var n := |ids| - 1;
    var s1, s' := RestartAll(s, ids[..n], t), RestartAll(s, ids, t);
    RestartAllStep(s, ids, t);
    InvariantStructural(s);
    LastRestarting(s, ids);
    RestartAllAdvances(s, ids[..n], t);
    StillRestarting(s, s1, ids[..n], ids[n]);
    PerformRestartAdvances(s1, ids[n], t);
    if id == ids[n] {
      NoChildInBackoff(s, id);
      PerformRestartComesBack(s1, id, t);
    } else {
      AdvancesEvolves(s1, s');
      RestartAllComesBack(s, ids[..n], t, id);
      OtherPolled(s1, s', ids[n], id);
      PolledKeepsTimes(s1.procs[id], s'.procs[id]);
    }
  }

  lemma NoChildInBackoff(s: State, id: ProcessId)
    requires Structural(s) && id in s.procs && s.procs[id].state.Restarting?
    ensures s.procs[id].child.None?
  {
  }

  lemma OtherPolled(s: State, s': State, x: ProcessId, id: ProcessId)
    requires OthersPolled(s, s', x) && id in s.procs && id != x
    ensures id in s'.procs && PolledInto(s.procs[id], s'.procs[id])
  {
    hide PolledInto;
  }

  /** Phase 4: whoever is due comes back, and nobody else's times change. */
  lemma RestartsTimes(s: State, t: Tick, id: ProcessId)
    requires Invariant(s) && Faithful(t, s.procs.Keys) && id in s.procs && id in Restarts(s, t).procs
    ensures var p, q := s.procs[id], Restarts(s, t).procs[id];
            if DueForRestart(s.procs, id, t.now) then ComesBack(p, q, t.spawn(id), t.clock(OnRestart(id))) else KeepsTimes(p, q)
  {
    hide *;
    if DueForRestart(s.procs, id, t.now) {
      DueIsListed(s, t, id);
      RestartIdsRestarting(s, t);
      RestartAllComesBack(s, RestartIds(s.procs, t.order(AtRestart), t.now), t, id);
    } else {
      NotDuePolled(s, t, id);
      PolledKeepsTimes(s.procs[id], Restarts(s, t).procs[id]);
    }
  }

  lemma DueIsListed(s: State, t: Tick, id: ProcessId)
    requires Faithful(t, s.procs.Keys) && id in s.procs && DueForRestart(s.procs, id, t.now)
    ensures id in RestartIds(s.procs, t.order(AtRestart), t.now)
  {
    RestartIdsAreDue(s.procs, t.order(AtRestart), t.now);
    hide DueForRestart, RestartIds;
  }

  /** Phases 5 and 6: whoever is Waiting may be spawned, and nobody else's times change. */
  lemma WaitersTimes(s: State, t: Tick, id: ProcessId)
    requires Invariant(s) && Faithful(t, s.procs.Keys)
    requires var s' := FailFast(Waiters(s, t), t.order(AtFailFast)); id in s'.procs
    ensures id in s.procs
    ensures var p, q := s.procs[id], FailFast(Waiters(s, t), t.order(AtFailFast)).procs[id];
            && q.restart.Some? == p.restart.Some?
            && (KeepsTimes(p, q) || (p.state.Waiting? && SpawnedNow(q, t.spawn(id), t.clock(OnSpawn(id)))))
  {
    WaitersShape(s, t);
    FailFastKeepsEntries(Waiters(s, t), t.order(AtFailFast));
    hide Waiters, FailFast, Invariant, Faithful, VerdictOn;
  }

  /** The reading that `id` was started at, if this cycle has started it. */
  ghost function CycleReading(s: State, t: Tick, id: ProcessId): Time {
    var s4 := Restarts(Reap(s, t), t);
    if id in s4.procs && s4.procs[id].state.Waiting? then t.clock(OnSpawn(id)) else t.clock(OnRestart(id))
  }

  lemma ReapedTimes(s: State, t: Tick, id: ProcessId)
    requires Invariant(s) && id in s.procs && id in Reap(s, t).procs
    ensures var p, q := s.procs[id], Reap(s, t).procs[id];
            && SameStart(p, q) && q.waitingSince == p.waitingSince
            && (q.state.Waiting? <==> p.state.Waiting?)
  {
    assert WellFormed(s.procs[id]);
    ReapIs(s, t, id);
    ReapedShape(s, id, t);
    var o := Seen(s, id, t);
    PollKeepsStart(s.procs[id], t.exit(id), t.now);
    MarksKeepStart(o.process, t.now);
    MarksKeepStart(Flagged(o.process), t.now);
    hide IsTargeted, PollEntry, Flagged, Scheduled, WellFormed, Reap, Leaves, LastStart;
  }

  lemma PollKeepsStart(p: Process, poll: Poll, now: Time)
    ensures SameStart(p, PollEntry(p, poll, now).process)
  {
  }

  lemma MarksKeepStart(p: Process, now: Time)
    ensures Flagged(p).restart == p.restart && LastStart(Flagged(p)) == LastStart(p)
    ensures Scheduled(p, now).restart.Some? == p.restart.Some? && LastStart(Scheduled(p, now)) == LastStart(p)
  {
    hide Backoff.Capped;
  }

  /** Both phases on one entry that has no child when they begin. */
  lemma LaterTimes(s: State, t: Tick, id: ProcessId)
    requires Invariant(s) && Faithful(t, s.procs.Keys) && id in AfterReap(s, t).procs
    ensures id in s.procs && id in Restarts(s, t).procs
    ensures var p, q := s.procs[id], AfterReap(s, t).procs[id];
            var at := if Restarts(s, t).procs[id].state.Waiting? then t.clock(OnSpawn(id)) else t.clock(OnRestart(id));
            && q.restart.Some? == p.restart.Some?
            && (q.child.Some? ==> if p.child.None? then SpawnedNow(q, t.spawn(id), at) else SameStart(p, q))
            && (q.state.Waiting? ==> q.waitingSince == if p.state.Waiting? then p.waitingSince else Some(t.clock(OnRestart(id))))
  {
    var s4 := Restarts(s, t);
    RestartsAdvance(s, t);
    AdvancesEvolves(s, s4);
    FaithfulShrinks(t, s.procs.Keys, s4.procs.Keys);
    AfterReapIs(s, t);
    hide Restarts, Waiters, FailFast, AfterReap, Invariant, Faithful, Evolves, Advances;
    WaitersTimes(s4, t, id);
    RestartsTimes(s, t, id);
  }

  /** What a cycle makes of the times of a process that stays tracked through it. */
  ghost predicate CycleTimed(s: State, t: Tick, id: ProcessId, p: Process, q: Process, spawned: bool) {
    && (if spawned then SpawnedNow(q, t.spawn(id), CycleReading(s, t, id)) else q.child.Some? ==> SameStart(p, q))
    && (q.state.Waiting? ==> q.waitingSince == if p.state.Waiting? then p.waitingSince else Some(t.clock(OnRestart(id))))
  }

  /** `id` has been given a child on the way from `s` to `s'`. */
  ghost predicate IsSpawned(s: State, s': State, id: ProcessId) {
    SpawnCount(s.spawns, id) < SpawnCount(s'.spawns, id)
  }

  lemma CycleTimes(s: State, t: Tick, id: ProcessId)
    requires Invariant(s) && Faithful(t, s.procs.Keys) && id in Cycle(s, t).procs
    ensures id in s.procs && CycleTimed(s, t, id, s.procs[id], Cycle(s, t).procs[id], IsSpawned(s, Cycle(s, t), id))
  {
    hide *;
    var s3, s' := Reap(s, t), Cycle(s, t);
    CycleParts(s, t, id);
    CycleKeeps(s, t);
    CountsMonotone(s, s', id);
    AfterReapIs(s3, t);
    AfterReapIs(s, t);
    ReapedTimes(s, t, id);
    LaterTimes(s3, t, id);
    HeldIs(s3, id);
    HeldIs(s', id);
    IsSpawnedIs(s, s', id);
    CycleTimedIs(s, t, id, s3.procs[id], s'.procs[id]);
  }

  lemma HeldIs(s: State, id: ProcessId)
    requires id in s.procs
    ensures Held(s, id) == if s.procs[id].child.Some? then 1 else 0
  {
  }

  lemma IsSpawnedIs(s: State, s': State, id: ProcessId)
    ensures IsSpawned(s, s', id) <==> SpawnCount(s.spawns, id) < SpawnCount(s'.spawns, id)
  {
    hide SpawnCount;
  }

  lemma CycleTimedIs(s: State, t: Tick, id: ProcessId, x: Process, q: Process)
    requires id in s.procs && id in Reap(s, t).procs && id in Restarts(Reap(s, t), t).procs && x == Reap(s, t).procs[id]
    requires SameStart(s.procs[id], x) && x.waitingSince == s.procs[id].waitingSince
    requires x.state.Waiting? <==> s.procs[id].state.Waiting?
    requires var at := if Restarts(Reap(s, t), t).procs[id].state.Waiting? then t.clock(OnSpawn(id)) else t.clock(OnRestart(id));
             q.child.Some? ==> if x.child.None? then SpawnedNow(q, t.spawn(id), at) else SameStart(x, q)
    requires q.state.Waiting? ==> q.waitingSince == if x.state.Waiting? then x.waitingSince else Some(t.clock(OnRestart(id)))
    ensures CycleTimed(s, t, id, s.procs[id], q, q.child.Some? && x.child.None?)
  {
    hide Reap, Restarts, SpawnedNow, LastStart;
  }

  // ------------------------------------------------------------------- calls

  /** A call other than a restart of `id` leaves its times as they are. */
  lemma CallKeepsTimes(s: State, step: Step, id: ProcessId)
    requires Invariant(s) && Legal(s, step) && !step.DoCycle? && !(step.DoRestart? && step.restarted == id)
    requires id in s.procs && id in Apply(s, step).procs
    ensures KeepsTimes(s.procs[id], Apply(s, step).procs[id]) && !IsSpawned(s, Apply(s, step), id)
  {
    CallSpawns(s, step, id);
    if !Names(step, id) {
      UnnamedPolls(s, step, id);
      PolledKeepsTimes(s.procs[id], Apply(s, step).procs[id]);
    }
    hide Invariant, Start, Stop, Restart, PolledInto, Unkillable, DroppedBy, EventCount, SpawnCount;
  }

  /** A restart of `id` by hand spawns it, or leaves it in its backoff wait. */
  lemma RestartTimes(s: State, id: ProcessId, e: RestartEnv)
    requires Invariant(s) && id in s.procs && id in Restart(s, id, e).state.procs
    ensures var s' := Restart(s, id, e).state;
            if IsSpawned(s, s', id) then SpawnedNow(s'.procs[id], e.spawn, e.clock)
            else s'.procs[id].state.Restarting? && s'.procs[id].child.None?
  {
    InvariantIsSound(s);
    RestartFate(s, id, e);
    assert s.procs[id].id == id;
    RestartedAt(s, id, e);
    hide Stop, Restart, Invariant, Sound, SpawnCount;
  }

  lemma RestartedAt(s: State, id: ProcessId, e: RestartEnv)
    requires id in s.procs && s.procs[id].id == id && id in Restart(s, id, e).state.procs
    ensures Restart(s, id, e).state.procs[id].state.Starting? ==> SpawnedNow(Restart(s, id, e).state.procs[id], e.spawn, e.clock)
  {
    hide Stop, RunningLabels;
  }

  /** `start` spawns the new id, or leaves it Waiting since then. */
  lemma NewcomerTimes(s: State, tag: Label, config: ProcessConfig, e: StartEnv)
    requires Invariant(s) && s.nextId in Start(s, tag, config, e).state.procs
    ensures var s' := Start(s, tag, config, e).state;
            var q := s'.procs[s.nextId];
            if IsSpawned(s, s', s.nextId) then SpawnedNow(q, e.spawn, e.clock)
            else q.state.Waiting? && q.child.None? && q.waitingSince == Some(e.clock)
  {
    InvariantStructural(s);
    NextIdUnused(s);
    StartAnswers(s, tag, config, e);
    AcceptedIs(s, tag, config, e);
    NewcomerSpawned(s, tag, config, e);
    hide Start, StartEntry, StartPolls, Invariant, SpawnCount, Rejected;
  }

  lemma NewcomerSpawned(s: State, tag: Label, config: ProcessConfig, e: StartEnv)
    requires s.nextId !in s.procs && Start(s, tag, config, e).result.Ok? && s.nextId in Start(s, tag, config, e).state.procs
    ensures var s' := Start(s, tag, config, e).state;
            var q := s'.procs[s.nextId];
            && (q.state.Starting? <==> IsSpawned(s, s', s.nextId))
            && (q.state.Starting? && q.restart.Some? ==> LastStart(q) == Some(e.clock))
  {
    var s' := Start(s, tag, config, e).state;
    assert s'.spawns == s.spawns
        || (s'.procs[s.nextId].state.Starting? && exists rec: SpawnRecord :: s'.spawns == s.spawns + [rec] && rec.id == s.nextId);
    assert s'.spawns == s.spawns ==> !s'.procs[s.nextId].state.Starting?;
    hide Rejected, Bindings, PollDeps, RunningLabels, SpawnCount;
    if rec: SpawnRecord :| s'.spawns == s.spawns + [rec] && rec.id == s.nextId { SpawnCountPush(s.spawns, rec, s.nextId); }
  }

  // ------------------------------------------------------------ along a run

  /** The reading at which a step that spawns `id` does so. */
  ghost function SpawnReading(s: State, step: Step, id: ProcessId): Time {
    match step
    case DoStart(_, _, e) => e.clock
    case DoRestart(_, e) => e.clock
    case DoCycle(t) => CycleReading(s, t, id)
    case _ => 0.0
  }

  /** What the spawn of `id` in that step answered. */
  ghost function SpawnAnswer(step: Step, id: ProcessId): Option<OsPid> {
    match step
    case DoStart(_, _, e) => e.spawn
    case DoRestart(_, e) => e.spawn
    case DoCycle(t) => t.spawn(id)
    case _ => None
  }

  /** The reading at which a step sends `id` waiting. */
  ghost function WaitReading(step: Step, id: ProcessId): Time {
    match step
    case DoStart(_, _, e) => e.clock
    case DoCycle(t) => t.clock(OnRestart(id))
    case _ => 0.0
  }

  ghost predicate WaitingAt(s: State, id: ProcessId) {
    id in s.procs && s.procs[id].state.Waiting?
  }

  /** What a step makes of the times of `id`: a spawn happens at its reading, without one a
      live process was live before with the same start time, and a wait that was not there
      before begins at its reading. */
  ghost predicate StepTimed(s: State, step: Step, s': State, id: ProcessId) {
    id in s'.procs ==>
      var q := s'.procs[id];
      && (if IsSpawned(s, s', id) then SpawnedNow(q, SpawnAnswer(step, id), SpawnReading(s, step, id))
          else Live(q) ==> id in s.procs && Live(s.procs[id]) && SameStart(s.procs[id], q))
      && (q.state.Waiting? ==>
            q.waitingSince == if WaitingAt(s, id) then s.procs[id].waitingSince else Some(WaitReading(step, id)))
  }

  lemma StepTimes(s: State, step: Step, id: ProcessId)
    requires Invariant(s) && Legal(s, step)
    ensures StepTimed(s, step, Apply(s, step), id)
  {
    var s' := Apply(s, step);
    if id in s'.procs {
      if id !in s.procs {
        NewlyTracked(s, step, id);
        NewcomerTimes(s, step.tag, step.config, step.start);
      } else if step.DoCycle? {
        CycleLegal(s, step);
        CycleTimes(s, step.tick, id);
        StepFate(s, step, id);
        StepKeeps(s, step);
        LiveHeld(s', id);
      } else if step.DoRestart? && step.restarted == id {
        RestartTimes(s, id, step.restart);
      } else {
        CallKeepsTimes(s, step, id);
        CallContinues(s, step, id);
      }
    }
    hide Invariant, Legal, Start, Stop, StopMany, Restart, Cycle, SpawnCount;
  }

  lemma NewlyTracked(s: State, step: Step, id: ProcessId)
    requires Invariant(s) && Legal(s, step) && id !in s.procs && id in Apply(s, step).procs
    ensures step.DoStart? && id == s.nextId
  {
    if step.DoStart? {
      InvariantStructural(s);
      StartAnswers(s, step.tag, step.config, step.start);
    } else {
      OnlyStartTracks(s, step);
    }
    hide Invariant, Legal, Start, Stop, StopMany, Restart, Cycle;
  }

  /** The reading at which `id` was spawned last, up to moment n. */
  ghost function StartedAt(r: Run, id: ProcessId, n: nat): Option<Time>
    requires IsRun(r) && n < |r.states|
  {
    if n == 0 then None
    else if IsSpawned(r.states[n - 1], r.states[n], id) then Some(SpawnReading(r.states[n - 1], r.steps[n - 1], id))
    else StartedAt(r, id, n - 1)
  }

  /** The reading at which the present wait of `id` began, at moment n. */
  ghost function WaitingFrom(r: Run, id: ProcessId, n: nat): Option<Time>
    requires IsRun(r) && n < |r.states|
  {
    if n == 0 || !WaitingAt(r.states[n], id) then None
    else if WaitingAt(r.states[n - 1], id) then WaitingFrom(r, id, n - 1)
    else Some(WaitReading(r.steps[n - 1], id))
  }

  /** The stored start time is the reading of the last spawn, and the stored waiting time
      the reading at which the wait began. */
  ghost predicate TimesTrue(r: Run, id: ProcessId, n: nat)
    requires IsRun(r) && n < |r.states|
  {
    id in r.states[n].procs ==>
      var p := r.states[n].procs[id];
      && (Live(p) && p.restart.Some? ==> LastStart(p).Some? && LastStart(p) == StartedAt(r, id, n))
      && (p.state.Waiting? ==> p.waitingSince.Some? && p.waitingSince == WaitingFrom(r, id, n))
  }

  lemma RunTimes(r: Run, id: ProcessId, n: nat)
    requires IsRun(r) && n < |r.states|
    ensures TimesTrue(r, id, n)
  {
    hide *;
    if n == 0 {
      InitialInvariant(r);
      NobodyTimed(r, id);
    } else {
      LastStep(r, n);
      RunInvariant(r, n - 1);
      RunTimes(r, id, n - 1);
      StepTimes(r.states[n - 1], r.steps[n - 1], id);
      TimesStep(r, id, n);
    }
  }

  lemma NobodyTimed(r: Run, id: ProcessId)
    requires IsRun(r) && r.states[0] == INITIAL
    ensures TimesTrue(r, id, 0)
  {
  }

  lemma TimesStep(r: Run, id: ProcessId, n: nat)
    requires IsRun(r) && 0 < n < |r.states| && TimesTrue(r, id, n - 1)
    requires StepTimed(r.states[n - 1], r.steps[n - 1], r.states[n], id)
    ensures TimesTrue(r, id, n)
  {
    hide IsRun, IsSpawned, SpawnReading, WaitReading, SpawnAnswer;
  }

  /** At any moment of any run, the start time of a supervised process that is Starting,
      Running or Stopping is the clock reading of the step that spawned it last. */
  lemma StartTimeExact(r: Run, id: ProcessId, n: nat)
    requires IsRun(r) && n < |r.states| && id in r.states[n].procs
    requires var p := r.states[n].procs[id];
             p.config.restartOnExit && (p.state.Starting? || p.state.Running? || p.state.Stopping?)
    ensures var p := r.states[n].procs[id];
            p.restart.Some? && p.restart.value.lastStartedAt.Some? && p.restart.value.lastStartedAt == StartedAt(r, id, n)
  {
    RunInvariant(r, n);
    assert WellFormed(r.states[n].procs[id]);
    RunTimes(r, id, n);
    hide IsRun, Invariant, StartedAt, WaitingFrom;
  }

  /** At any moment of any run, the waiting time of a Waiting process is the clock reading of
      the step that sent it waiting, and it has been Waiting ever since. */
  lemma WaitTimeExact(r: Run, id: ProcessId, n: nat)
    requires IsRun(r) && n < |r.states| && WaitingAt(r.states[n], id)
    ensures r.states[n].procs[id].waitingSince.Some? && r.states[n].procs[id].waitingSince == WaitingFrom(r, id, n)
  {
    RunTimes(r, id, n);
    hide IsRun, StartedAt, WaitingFrom;
  }

  /** Whoever a step spawns has, after it, the child that its own spawn answered. */
  lemma SpawnAnswerTaken(s: State, step: Step, id: ProcessId)
    requires Reachable(s) && Legal(s, step) && IsSpawned(s, Apply(s, step), id) && id in Apply(s, step).procs
    ensures var q := Apply(s, step).procs[id];
            && SpawnAnswer(step, id).Some? && q.child == SpawnAnswer(step, id) && q.pid == SpawnAnswer(step, id).value
  {
    ReachableInvariant(s);
    StepKeeps(s, step);
    StepTimes(s, step, id);
    assert WellFormed(Apply(s, step).procs[id]);
    hide Invariant, Legal, Apply, Reachable, SpawnReading, SpawnAnswer, IsSpawned;
  }
}
