/** What becomes of the OS child behind a process. */
module ChildHandles {
  import opened Basics
  import opened Processes
  import opened Resolution
  import opened Reaper
  import opened Manager
  import opened Invariants
  import opened ReapPhase
  import opened LaterPhases
  import opened FailFastPhase
  import opened CascadeStop
  import opened Calls
  import opened Movement
  import opened Runs
  import opened Undisturbed
  import opened LateMarks

  ghost predicate Live(p: Process) {
    p.state.Starting? || p.state.Running? || p.state.Stopping?
  }

  /** A poll has found the child over. */
  ghost predicate Over(p: Process) {
    p.state.Stopped? || p.state.Crashed?
  }

  // --------------------------------------------------------- counting spawns

  lemma CountsMonotone(s: State, s': State, id: ProcessId)
    requires Evolves(s, s')
    ensures SpawnCount(s.spawns, id) <= SpawnCount(s'.spawns, id)
  {
    SpawnPrefix(s.spawns, s'.spawns, id);
  }

  lemma SpawnPrefix(a: seq<SpawnRecord>, b: seq<SpawnRecord>, id: ProcessId)
    requires a <= b
    ensures SpawnCount(a, id) <= SpawnCount(b, id)
  {
    if |a| < |b| {
      var n := |b| - 1;
      assert a <= b[..n];
      SpawnPrefix(a, b[..n], id);
    } else {
      assert a == b;
    }
  }

  lemma NoStatusNoExit(a: seq<ExitEvent>, b: seq<ExitEvent>, id: ProcessId)
    requires a <= b && forall i :: |a| <= i < |b| ==> b[i].exitStatus.None?
    ensures ExitCount(b, id) == ExitCount(a, id)
  {
    if |a| < |b| {
      var n := |b| - 1;
      assert a <= b[..n];
      NoStatusNoExit(a, b[..n], id);
    } else {
      assert a == b;
    }
  }

  /** In phases 4 to 6 a process gets a child exactly as often as it is spawned. */
  lemma LaterSpawns(s: State, s': State, id: ProcessId)
    requires Invariant(s) && Invariant(s') && Advances(s, s') && id in s'.procs
    ensures id in s.procs
    ensures SpawnCount(s'.spawns, id) - SpawnCount(s.spawns, id) == Held(s', id) - Held(s, id)
  {
    NoStatusNoExit(s.log, s'.log, id);
    assert SpawnCount(s.spawns, id) == ExitCount(s.log, id) + s.dropped[id] + Held(s, id);
    assert SpawnCount(s'.spawns, id) == ExitCount(s'.log, id) + s'.dropped[id] + Held(s', id);
    hide Invariant, Evolves, EventCount, SpawnCount, ExitCount;
  }

  // ------------------------------------------------------------- one step

  /** From `p` to `q` without a spawn: nobody comes to life, and being marked Failed
      does not change whether there is a handle. */
  ghost predicate Continues(p: Process, q: Process) {
    (Live(q) ==> Live(p)) && (q.state.Failed? ==> q.child.None? == p.child.None?)
  }

  lemma PolledContinues(p: Process, q: Process)
    requires PolledInto(p, q)
    ensures Continues(p, q)
  {
  }

  lemma CycleParts(s: State, t: Tick, id: ProcessId)
    requires Invariant(s) && Faithful(t, s.procs.Keys) && id in Cycle(s, t).procs
    ensures var s3, s' := Reap(s, t), Cycle(s, t);
            && id in s.procs && id in s3.procs && s3.spawns == s.spawns && Invariant(s3) && Faithful(t, s3.procs.Keys)
            && Moves(s3.procs[id], s'.procs[id])
            && SpawnCount(s'.spawns, id) - SpawnCount(s.spawns, id) == Held(s', id) - Held(s3, id)
  {
    var s3 := Reap(s, t);
    assert s3.spawns == s.spawns;
    hide *;
    ReapInvariant(s, t);
    AfterReapAdvances(s3, t);
    AfterReapMoves(s3, t);
    AfterReapIs(s3, t);
    AfterReapIs(s, t);
    LaterSpawns(s3, Cycle(s, t), id);
    MovesAt(s3, Cycle(s, t), id);
  }

  lemma MovesAt(s: State, s': State, id: ProcessId)
    requires AllMove(s, s') && id in s'.procs
    ensures id in s.procs && Moves(s.procs[id], s'.procs[id])
  {
  }

  /** The polls of phase 1 leave a handle exactly to whoever has one and is not seen to exit. */
  lemma ReapedHandle(s: State, t: Tick, id: ProcessId)
    requires Invariant(s) && id in s.procs && id in Reap(s, t).procs
    ensures var p, q := s.procs[id], Reap(s, t).procs[id];
            && (q.child.Some? <==> p.child.Some? && !ExitSeen(s, id, t))
            && (q.state.Failed? ==> q == p && !ExitSeen(s, id, t))
            && (q.child.Some? && !Live(p) ==> q == p)
  {
    assert WellFormed(s.procs[id]);
    ReapedShape(s, id, t);
    NotLiveReaped(s, t, id);
  }

  lemma QuietPoll(p: Process, poll: Poll, now: Time)
    requires PollEntry(p, poll, now).exited.None?
    ensures var q := PollEntry(p, poll, now).process;
            && (!p.state.Running? && !p.state.Starting? ==> q == p)
            && (p.state.Running? || p.state.Starting? ==> q.state.Running?)
  {
  }

  lemma TargetIsUp(s: State, id: ProcessId, t: Tick)
    requires id in s.procs && IsTargeted(s.procs, id, t)
    ensures Seen(s, id, t).process.state.Running? || Seen(s, id, t).process.state.Starting?
  {
    hide PollEntry;
  }

  lemma NotLiveReaped(s: State, t: Tick, id: ProcessId)
    requires id in s.procs && id in Reap(s, t).procs
    ensures var p, q := s.procs[id], Reap(s, t).procs[id];
            && (q.state.Failed? ==> q == p && !ExitSeen(s, id, t))
            && (!Live(p) && !ExitSeen(s, id, t) ==> q == p)
  {
    var o := Seen(s, id, t);
    if o.exited.None? { QuietPoll(s.procs[id], t.exit(id), t.now); }
    if IsTargeted(s.procs, id, t) { TargetIsUp(s, id, t); }
    ScheduledWaits(o.process, t.now);
    ScheduledWaits(Flagged(o.process), t.now);
    ReapIs(s, t, id);
    hide PollEntry, Scheduled, IsTargeted, Reap, Seen;
  }

  lemma ScheduledWaits(p: Process, now: Time)
    ensures Scheduled(p, now).state.Restarting?
  {
  }

  lemma ReapIs(s: State, t: Tick, id: ProcessId)
    requires id in Reap(s, t).procs
    ensures id in s.procs && !Leaves(Seen(s, id, t)) && Reap(s, t).procs[id] == Reaped(s, id, t)
  {
    hide Seen, Reaped;
  }

  lemma CycleFate(s: State, t: Tick, id: ProcessId)
    requires Invariant(s) && Faithful(t, s.procs.Keys) && id in s.procs && id in Cycle(s, t).procs
    ensures var s' := Cycle(s, t);
            && (SpawnCount(s'.spawns, id) == SpawnCount(s.spawns, id) ==> Continues(s.procs[id], s'.procs[id]))
            && (SpawnCount(s'.spawns, id) != SpawnCount(s.spawns, id) ==> !s'.procs[id].state.Failed?)
  {
    var s3, s' := Reap(s, t), Cycle(s, t);
    CycleParts(s, t, id);
    ReapedHandle(s, t, id);
    CycleKeeps(s, t);
    LiveHeld(s', id);
    hide Reap, Cycle, Invariant, Faithful, ExitSeen, SpawnCount;
    var p, x, q := s.procs[id], s3.procs[id], s'.procs[id];
    if Live(q) && !Live(p) && SpawnCount(s'.spawns, id) == SpawnCount(s.spawns, id) {
      LaterUntouchedCycle(s, t, id);
    }
  }

  lemma LiveHeld(s: State, id: ProcessId)
    requires Invariant(s) && id in s.procs
    ensures Live(s.procs[id]) ==> s.procs[id].child.Some?
  {
    assert WellFormed(s.procs[id]);
  }

  /** Whoever has a handle and is not live after phase 3 ends the cycle like that, or is gone. */
  lemma LaterUntouchedCycle(s: State, t: Tick, id: ProcessId)
    requires Invariant(s) && Faithful(t, s.procs.Keys) && id in Reap(s, t).procs && id in Cycle(s, t).procs
    requires var q := Reap(s, t).procs[id]; q.child.Some? && !Live(q)
    ensures Cycle(s, t).procs[id] == Reap(s, t).procs[id]
  {
    var s3 := Reap(s, t);
    ReapInvariant(s, t);
    assert WellFormed(s3.procs[id]);
    hide Reap, Cycle, Invariant, Faithful, WellFormed, Live;
    HeldNotWaiting(s3.procs[id]);
    LaterUntouched(s3, t, id);
    PolledInert(s3.procs[id], Waiters(Restarts(s3, t), t).procs[id]);
    AfterReapIs(s, t);
    FailFastKeepsEntries(Waiters(Restarts(s3, t), t), t.order(AtFailFast));
    hide Waiters, Restarts, FailFast;
  }

  lemma HeldNotWaiting(p: Process)
    requires WellFormed(p) && p.child.Some? && !Live(p)
    ensures !p.state.Restarting? && !p.state.Waiting? && !p.state.Starting? && !p.state.Running?
  {
  }

  /** Of the calls only a restart of `id` spawns it once it is tracked. */
  lemma CallSpawns(s: State, step: Step, id: ProcessId)
    requires Invariant(s) && Legal(s, step) && !step.DoCycle? && !(step.DoRestart? && step.restarted == id) && id in s.procs
    ensures SpawnCount(Apply(s, step).spawns, id) == SpawnCount(s.spawns, id)
  {
    InvariantIsSound(s);
    hide Invariant, Start, Stop, Restart, SpawnCount;
    match step {
      case DoStart(tag, config, e) => StartSpawns(s, tag, config, e, id);
      case DoStop(x, e) => StopKeeps(s, x, e);
      case DoStopMany(ids, kill) =>
      case DoRestart(x, e) => RestartSpawns(s, x, e, id);
      case DoDependencyTimeout(x) =>
      case DoObserve(x, poll) =>
    }
  }

  lemma StartSpawns(s: State, tag: Label, config: ProcessConfig, e: StartEnv, id: ProcessId)
    requires Structural(s) && id in s.procs
    ensures SpawnCount(Start(s, tag, config, e).state.spawns, id) == SpawnCount(s.spawns, id)
  {
    assert id < s.nextId;
    var s' := Start(s, tag, config, e).state;
    assert s'.spawns == s.spawns || exists rec: SpawnRecord :: s'.spawns == s.spawns + [rec] && rec.id == s.nextId;
    hide Rejected, Bindings, PollDeps, RunningLabels, Structural, Start, SpawnCount;
    if rec: SpawnRecord :| s'.spawns == s.spawns + [rec] && rec.id == s.nextId { SpawnCountPush(s.spawns, rec, id); }
  }

  lemma RestartSpawns(s: State, x: ProcessId, e: RestartEnv, id: ProcessId)
    requires Sound(s) && id in s.procs && x != id
    ensures SpawnCount(Restart(s, x, e).state.spawns, id) == SpawnCount(s.spawns, id)
  {
    var s' := Restart(s, x, e).state;
    StopKeeps(s, x, e.stop);
    if x in s.procs {
      assert s.procs[x].id == x;
      if !s.procs[x].state.Restarting? { RestartShape(s, x, e); }
    }
    assert s'.spawns == s.spawns || exists rec: SpawnRecord :: s'.spawns == s.spawns + [rec] && rec.id == x;
    hide Stop, Restart, Sound, RunningLabels, SpawnCount, EventCount;
    if rec: SpawnRecord :| s'.spawns == s.spawns + [rec] && rec.id == x { SpawnCountPush(s.spawns, rec, id); }
  }

  /** A restart of `id` by hand leaves it spawned once more, or in its backoff wait. */
  lemma RestartFate(s: State, id: ProcessId, e: RestartEnv)
    requires Sound(s) && id in s.procs && id in Restart(s, id, e).state.procs
    ensures var s' := Restart(s, id, e).state;
            || (SpawnCount(s'.spawns, id) == SpawnCount(s.spawns, id) + 1 && s'.procs[id].state.Starting?)
            || (s'.spawns == s.spawns && s'.procs[id].state.Restarting? && s'.procs[id].child.None?)
  {
    var s' := Restart(s, id, e).state;
    StopKeeps(s, id, e.stop);
    assert s.procs[id].id == id;
    if !s.procs[id].state.Restarting? { RestartShape(s, id, e); }
    assert (s'.spawns == s.spawns && s'.procs[id].state.Restarting? && s'.procs[id].child.None?)
        || (s'.procs[id].state.Starting? && exists rec: SpawnRecord :: s'.spawns == s.spawns + [rec] && rec.id == id);
    hide Stop, Restart, Sound, RunningLabels, SpawnCount, EventCount;
    if rec: SpawnRecord :| s'.spawns == s.spawns + [rec] && rec.id == id { SpawnCountPush(s.spawns, rec, id); }
  }

  lemma CallContinues(s: State, step: Step, id: ProcessId)
    requires Invariant(s) && Legal(s, step) && !step.DoCycle? && !(step.DoRestart? && step.restarted == id)
    requires id in s.procs && id in Apply(s, step).procs
    ensures Continues(s.procs[id], Apply(s, step).procs[id])
  {
    if !Names(step, id) {
      UnnamedPolls(s, step, id);
      PolledContinues(s.procs[id], Apply(s, step).procs[id]);
    }
    hide Invariant, Start, Stop, Restart, PolledInto, Unkillable, DroppedBy, EventCount;
  }

  /** What a step makes of a process that stays tracked: without a spawn nobody comes to
      life, and nobody who has been spawned is Failed. */
  lemma StepFate(s: State, step: Step, id: ProcessId)
    requires Invariant(s) && Legal(s, step) && id in s.procs && id in Apply(s, step).procs
    ensures var s' := Apply(s, step);
            && SpawnCount(s.spawns, id) <= SpawnCount(s'.spawns, id)
            && (SpawnCount(s'.spawns, id) == SpawnCount(s.spawns, id) ==> Continues(s.procs[id], s'.procs[id]))
            && (SpawnCount(s'.spawns, id) != SpawnCount(s.spawns, id) ==> !s'.procs[id].state.Failed?)
  {
    StepKeeps(s, step);
    CountsMonotone(s, Apply(s, step), id);
    if step.DoCycle? {
      CycleLegal(s, step);
      CycleFate(s, step.tick, id);
    } else if step.DoRestart? && step.restarted == id {
      InvariantIsSound(s);
      RestartFate(s, id, step.restart);
    } else {
      CallSpawns(s, step, id);
      CallContinues(s, step, id);
    }
    hide Invariant, Legal, Start, Stop, Restart, Cycle, SpawnCount, Sound, Evolves;
  }

  // --------------------------------------------------------- over whole runs

  /** A poll has found the child over that `id` had at moment n. */
  ghost predicate FoundOver(r: Run, n: nat, id: ProcessId) {
    exists k: nat :: k <= n && OverAt(r, k, n, id)
  }

  ghost predicate OverAt(r: Run, k: nat, n: nat, id: ProcessId) {
    && k < |r.states| && n < |r.states| && id in r.states[k].procs && Over(r.states[k].procs[id])
    && SpawnCount(r.states[k].spawns, id) == SpawnCount(r.states[n].spawns, id)
  }

  /** `id` has had a child, and that is over as far as the manager has been told: it has
      given up the handle, or a poll has found the child over. */
  ghost predicate ChildGone(r: Run, n: nat, id: ProcessId) {
    && n < |r.states| && id in r.states[n].procs && r.states[n].procs[id].pid != 0
    && (r.states[n].procs[id].child.None? || FoundOver(r, n, id))
  }

  /** `id` has been Failed since some moment at which it was neither Failed nor live. */
  ghost predicate FailedWhileDown(r: Run, n: nat, id: ProcessId) {
    exists k: nat :: k < n && DownBefore(r, k, n, id)
  }

  ghost predicate DownBefore(r: Run, k: nat, n: nat, id: ProcessId) {
    && n < |r.states| && k < |r.states| && id in r.states[k].procs
    && !Live(r.states[k].procs[id]) && !r.states[k].procs[id].state.Failed?
    && forall j: nat :: k < j <= n ==> FailedAt(r, j, id)
  }

  ghost predicate FailedAt(r: Run, j: nat, id: ProcessId) {
    j < |r.states| && id in r.states[j].procs && r.states[j].procs[id].state.Failed?
  }

  lemma FoundOverStep(r: Run, n: nat, id: ProcessId)
    requires 0 < n < |r.states| && id in r.states[n].procs
    requires forall k: nat :: k < n && id in r.states[k].procs ==> SpawnCount(r.states[k].spawns, id) <= SpawnCount(r.states[n - 1].spawns, id)
    requires SpawnCount(r.states[n - 1].spawns, id) <= SpawnCount(r.states[n].spawns, id)
    ensures FoundOver(r, n, id) <==>
              || Over(r.states[n].procs[id])
              || (SpawnCount(r.states[n - 1].spawns, id) == SpawnCount(r.states[n].spawns, id) && FoundOver(r, n - 1, id))
  {
    hide Over, SpawnCount;
    if Over(r.states[n].procs[id]) { assert OverAt(r, n, n, id); }
    if SpawnCount(r.states[n - 1].spawns, id) == SpawnCount(r.states[n].spawns, id) && FoundOver(r, n - 1, id) {
      var k: nat :| k <= n - 1 && OverAt(r, k, n - 1, id);
      assert OverAt(r, k, n, id);
    }
    if k: nat :| k <= n && OverAt(r, k, n, id) {
      if k < n { assert OverAt(r, k, n - 1, id); }
    }
  }

  lemma FailedWhileDownStep(r: Run, n: nat, id: ProcessId)
    requires 0 < n < |r.states|
    ensures FailedWhileDown(r, n, id) <==>
              && FailedAt(r, n, id)
              && (FailedWhileDown(r, n - 1, id)
                  || (id in r.states[n - 1].procs && !Live(r.states[n - 1].procs[id]) && !FailedAt(r, n - 1, id)))
    ensures FailedWhileDown(r, n - 1, id) ==> FailedAt(r, n - 1, id)
  {
    hide Live;
    if FailedAt(r, n, id) && FailedWhileDown(r, n - 1, id) {
      var k: nat :| k < n - 1 && DownBefore(r, k, n - 1, id);
      assert DownBefore(r, k, n, id);
    }
    if FailedAt(r, n, id) && id in r.states[n - 1].procs && !Live(r.states[n - 1].procs[id]) && !FailedAt(r, n - 1, id) {
      assert DownBefore(r, n - 1, n, id);
    }
    if k: nat :| k < n && DownBefore(r, k, n, id) {
      assert FailedAt(r, n, id);
      if k < n - 1 {
        assert forall j: nat :: k < j <= n - 1 ==> FailedAt(r, j, id);
        assert DownBefore(r, k, n - 1, id);
      }
    }
  }

  lemma SpawnsGrow(r: Run, n: nat, id: ProcessId)
    requires IsRun(r) && n < |r.states|
    ensures forall k: nat :: k <= n ==> SpawnCount(r.states[k].spawns, id) <= SpawnCount(r.states[n].spawns, id)
  {
    hide *;
    forall k: nat | k <= n ensures SpawnCount(r.states[k].spawns, id) <= SpawnCount(r.states[n].spawns, id) {
      RunEvolves(r, k, n);
      CountsMonotone(r.states[k], r.states[n], id);
    }
  }

  /** A live process has not been found over; a Failed one has no child any more exactly
      if it was not live when it was marked. */
  ghost predicate Told(r: Run, n: nat, id: ProcessId) {
    n < |r.states| && id in r.states[n].procs ==>
      var p := r.states[n].procs[id];
      && (Live(p) ==> p.child.Some? && !FoundOver(r, n, id))
      && (p.state.Failed? ==> (p.child.None? || FoundOver(r, n, id) <==> FailedWhileDown(r, n, id)))
  }

  /** A process at its first moment has neither been found over nor failed. */
  lemma NewcomerTold(r: Run, n: nat, id: ProcessId)
    requires IsRun(r) && 0 < n < |r.states| && id !in r.states[n - 1].procs && id in r.states[n].procs
    ensures Told(r, n, id)
  {
    hide *;
    LastStep(r, n);
    RunInvariant(r, n - 1);
    RunInvariant(r, n);
    LiveHeld(r.states[n], id);
    NewcomerUp(r.states[n - 1], r.steps[n - 1], id);
    forall k: nat | k <= n ensures !OverAt(r, k, n, id) {
      if OverAt(r, k, n, id) {
        OverIs(r, k, n, id);
        if k < n { TrackedBetween(r, k, n - 1, n, id); }
      }
    }
    NotFoundOver(r, n, id);
    ToldLive(r, n, id);
  }

  lemma OverIs(r: Run, k: nat, n: nat, id: ProcessId)
    requires OverAt(r, k, n, id)
    ensures k < |r.states| && id in r.states[k].procs
    ensures var p := r.states[k].procs[id]; !p.state.Starting? && !p.state.Waiting?
  {
    hide SpawnCount;
  }

  lemma NotFoundOver(r: Run, n: nat, id: ProcessId)
    requires forall k: nat :: k <= n ==> !OverAt(r, k, n, id)
    ensures !FoundOver(r, n, id)
  {
    hide OverAt;
  }

  lemma ToldLive(r: Run, n: nat, id: ProcessId)
    requires n < |r.states| && id in r.states[n].procs && !r.states[n].procs[id].state.Failed?
    requires Live(r.states[n].procs[id]) ==> r.states[n].procs[id].child.Some? && !FoundOver(r, n, id)
    ensures Told(r, n, id)
  {
    hide FoundOver, Live;
  }

  lemma NewcomerUp(s: State, step: Step, id: ProcessId)
    requires Invariant(s) && Legal(s, step) && id !in s.procs && id in Apply(s, step).procs
    ensures var p := Apply(s, step).procs[id]; p.state.Starting? || p.state.Waiting?
  {
    InvariantStructural(s);
    if step.DoStart? {
      StartMap(s, step.tag, step.config, step.start);
      PolledKeepsIdentity(s.procs, StartPolls(s.(nextId := s.nextId + 1), step.config, step.start).procs);
      EntryStarts(s.(nextId := s.nextId + 1), s.nextId, step.tag, step.config, step.start);
    } else {
      OnlyStartTracks(s, step);
    }
    hide Start, StartPolls, StartEntry, OnlyPolled, PolledInto, Rejected, Invariant, Structural, Stop, Restart, Cycle, Faithful;
  }

  lemma ToldStep(r: Run, n: nat, id: ProcessId)
    requires IsRun(r) && 0 < n < |r.states| && id in r.states[n - 1].procs && id in r.states[n].procs && Told(r, n - 1, id)
    ensures Told(r, n, id)
  {
    hide *;
    LastStep(r, n);
    RunInvariant(r, n - 1);
    RunInvariant(r, n);
    LiveHeld(r.states[n], id);
    SpawnsGrow(r, n - 1, id);
    var s, s' := r.states[n - 1], r.states[n];
    StepFate(s, r.steps[n - 1], id);
    FoundOverStep(r, n, id);
    FailedWhileDownStep(r, n, id);
    NotLiveHandle(r, n - 1, id);
    FailedIs(r, n - 1, id);
    FailedIs(r, n, id);
    ToldIs(r, n - 1, id);
    ToldIs(r, n, id);
    Exclusive(s.procs[id]);
    Exclusive(s'.procs[id]);
    if SpawnCount(s.spawns, id) == SpawnCount(s'.spawns, id) { ContinuesIs(s.procs[id], s'.procs[id]); }
  }

  lemma FailedIs(r: Run, j: nat, id: ProcessId)
    requires j < |r.states| && id in r.states[j].procs
    ensures FailedAt(r, j, id) <==> r.states[j].procs[id].state.Failed?
  {
  }

  lemma ToldIs(r: Run, n: nat, id: ProcessId)
    requires n < |r.states| && id in r.states[n].procs
    ensures Told(r, n, id) <==>
              var p := r.states[n].procs[id];
              && (Live(p) ==> p.child.Some? && !FoundOver(r, n, id))
              && (p.state.Failed? ==> (p.child.None? || FoundOver(r, n, id) <==> FailedWhileDown(r, n, id)))
  {
    hide FoundOver, FailedWhileDown, Live;
  }

  lemma Exclusive(p: Process)
    ensures !(Live(p) && Over(p)) && !(Live(p) && p.state.Failed?) && !(Over(p) && p.state.Failed?)
  {
  }

  lemma ContinuesIs(p: Process, q: Process)
    requires Continues(p, q)
    ensures (Live(q) ==> Live(p)) && (q.state.Failed? ==> q.child.None? == p.child.None?)
  {
    hide Live;
  }

  /** Neither live nor Failed, a process has no child or has been found over. */
  lemma NotLiveHandle(r: Run, n: nat, id: ProcessId)
    requires IsRun(r) && n < |r.states| && id in r.states[n].procs
    ensures var p := r.states[n].procs[id]; !Live(p) && !p.state.Failed? ==> p.child.None? || FoundOver(r, n, id)
  {
    RunInvariant(r, n);
    assert WellFormed(r.states[n].procs[id]);
    if Over(r.states[n].procs[id]) { assert OverAt(r, n, n, id); }
    hide IsRun, Invariant, SpawnCount;
  }

  lemma RunTold(r: Run, n: nat, id: ProcessId)
    requires IsRun(r) && n < |r.states|
    ensures Told(r, n, id)
  {
    hide *;
    if n == 0 {
      InitialInvariant(r);
      NobodyTold(r, id);
    } else {
      RunTold(r, n - 1, id);
      if id in r.states[n].procs {
        if id in r.states[n - 1].procs { ToldStep(r, n, id); } else { NewcomerTold(r, n, id); }
      } else {
        UntrackedTold(r, n, id);
      }
    }
  }

  lemma NobodyTold(r: Run, id: ProcessId)
    requires |r.states| > 0 && r.states[0] == INITIAL
    ensures Told(r, 0, id)
  {
  }

  lemma UntrackedTold(r: Run, n: nat, id: ProcessId)
    requires n < |r.states| && id !in r.states[n].procs
    ensures Told(r, n, id)
  {
  }

  /** Whose child is gone can be told from the pid and the state, and for a Failed process
      from the state in which it was marked. */
  lemma GoneExact(r: Run, n: nat, id: ProcessId)
    requires IsRun(r) && n < |r.states| && id in r.states[n].procs
    ensures ChildGone(r, n, id) <==>
              && r.states[n].procs[id].pid != 0
              && match r.states[n].procs[id].state
                 case Starting => false
                 case Running => false
                 case Stopping => false
                 case Failed => FailedWhileDown(r, n, id)
                 case _ => true
  {
    RunTold(r, n, id);
    NotLiveHandle(r, n, id);
    hide IsRun, FoundOver, FailedWhileDown;
  }
}
