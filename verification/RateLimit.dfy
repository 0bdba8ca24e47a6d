/** Accounting for automatic restarts over whole runs. */
module RateLimit {
  import opened Basics
  import opened Backoff
  import opened Processes
  import opened Resolution
  import opened Reaper
  import opened Manager
  import opened Invariants
  import opened ReapPhase
  import opened LaterPhases
  import opened CascadeStop
  import opened Calls
  import opened Movement
  import opened Cascades
  import opened Runs
  import opened Undisturbed

  /** Since its last reset: how often a process was scheduled for restart, how many of
      those exits carried the cascade flag, and how many of these came at the limit. */
  datatype Tally = Tally(scheduled: nat, flagged: nat, excused: nat)

  const NOTHING := Tally(0, 0, 0)

  predicate LimitSpent(config: ProcessConfig, scheduled: nat) {
    config.restartPolicy.Backoff? && scheduled >= config.restartPolicy.config.maxRestarts
  }

  /** The stable-uptime reset happens in this cycle: under backoff, a Running process with
      restarts on its count has been up for its minimum uptime. */
  predicate Resets(p: Process, now: Time) {
    && p.state.Running? && p.restart.Some? && p.config.restartPolicy.Backoff? && p.restart.value.restartCount > 0
    && p.restart.value.lastStartedAt.Some?
    && Elapsed(p.restart.value.lastStartedAt.value, now) >= p.config.restartPolicy.config.minUptime
  }

  ghost function NextTally(s: State, step: Step, id: ProcessId, tally: Tally): Tally {
    if id !in s.procs then NOTHING
    else match step
      case DoRestart(x, _) => if x == id then NOTHING else tally
      case DoCycle(t) => CycleTally(s, t, id, tally)
      case _ => tally
  }

  ghost function CycleTally(s: State, t: Tick, id: ProcessId, tally: Tally): Tally
    requires id in s.procs
  {
    var base := if Resets(s.procs[id], t.now) then NOTHING else tally;
    if !ExitSeen(s, id, t) || Leaves(Seen(s, id, t)) then base
    else
      var flag := s.procs[id].cascadeFlag;
      Tally(base.scheduled + 1, base.flagged + (if flag then 1 else 0),
            base.excused + if flag && LimitSpent(s.procs[id].config, base.scheduled) then 1 else 0)
  }

  ghost function TallyOf(r: Run, id: ProcessId, n: nat): Tally
    requires IsRun(r) && n < |r.states|
  {
    if n == 0 then NOTHING
    else NextTally(r.states[n - 1], r.steps[n - 1], id, TallyOf(r, id, n - 1))
  }

  function Excess(n: nat, limit: nat): nat {
    if n > limit then n - limit else 0
  }

  ghost predicate Tallied(p: Process, tally: Tally) {
    p.config.restartOnExit ==>
      && RestartCount(p) == tally.scheduled
      && tally.excused <= tally.flagged
      && (p.config.restartPolicy.Backoff? ==>
            tally.excused == Excess(tally.scheduled, p.config.restartPolicy.config.maxRestarts))
  }

  lemma SettledCount(p: Process, now: Time)
    ensures RestartCount(Settled(p, now)) == if Resets(p, now) then 0 else RestartCount(p)
  {
  }

  /** An exit without the flag leads to a restart only below the limit. */
  lemma RestartUnderLimit(p: Process, poll: Poll, now: Time)
    requires WellFormed(p) && p.config.restartOnExit
    requires var o := PollEntry(p, poll, now); o.exited.Some? && o.exited.value.restarts
    ensures p.config.restartPolicy.Backoff? && !p.cascadeFlag ==>
              RestartCount(Settled(p, now)) < p.config.restartPolicy.config.maxRestarts
  {
  }

  lemma SeenSettled(p: Process, poll: Poll, now: Time)
    requires WellFormed(p)
    ensures var o := PollEntry(p, poll, now);
            && o.process.config == p.config && o.process.restart == Settled(p, now).restart
            && (o.exited.Some? && o.exited.value.restarts ==> p.config.restartOnExit && o.process.restart.Some?)
  {
  }

  lemma ReapedCount(s: State, t: Tick, id: ProcessId)
    requires id in s.procs && WellFormed(s.procs[id]) && id in Reap(s, t).procs
    ensures var p, q := s.procs[id], Reap(s, t).procs[id];
            q.config == p.config
            && RestartCount(q) == RestartCount(Settled(p, t.now)) + if ExitSeen(s, id, t) && p.config.restartOnExit then 1 else 0
  {
    SeenSettled(s.procs[id], t.exit(id), t.now);
    var o := Seen(s, id, t);
    CountsUntouched(o.process, t.now);
    CountsUntouched(Flagged(o.process), t.now);
    hide IsTargeted, PollEntry, Settled, Scheduled, Flagged, WellFormed;
  }

  /** A flag does not change the count, and scheduling a restart adds one. */
  lemma CountsUntouched(p: Process, now: Time)
    ensures Flagged(p).config == p.config && Flagged(p).restart == p.restart
    ensures Scheduled(p, now).config == p.config
    ensures RestartCount(Scheduled(p, now)) == RestartCount(p) + if p.restart.Some? then 1 else 0
  {
    hide Capped;
  }

  lemma ReapTallied(s: State, t: Tick, id: ProcessId, tally: Tally)
    requires id in s.procs && WellFormed(s.procs[id]) && Tallied(s.procs[id], tally) && id in Reap(s, t).procs
    ensures Tallied(Reap(s, t).procs[id], CycleTally(s, t, id, tally))
  {
    ReapedCount(s, t, id);
    SettledCount(s.procs[id], t.now);
    if ExitSeen(s, id, t) && s.procs[id].config.restartOnExit { RestartUnderLimit(s.procs[id], t.exit(id), t.now); }
    assert !Leaves(Seen(s, id, t));
    hide Reap, PollEntry, Settled, Resets;
  }

  lemma CycleTallied(s: State, t: Tick, id: ProcessId, tally: Tally)
    requires Invariant(s) && Faithful(t, s.procs.Keys) && id in s.procs && Tallied(s.procs[id], tally)
    ensures id in Cycle(s, t).procs ==> Tallied(Cycle(s, t).procs[id], CycleTally(s, t, id, tally))
  {
    InvariantKeyed(s);
    ReapInvariant(s, t);
    var s3 := Reap(s, t);
    AfterReapMoves(s3, t);
    hide Invariant, Faithful, Reap, AfterReap, CycleTally;
    assert AfterReap(s3, t) == Cycle(s, t) by { AfterReapIs(s3, t); AfterReapIs(s, t); }
    if id in Cycle(s, t).procs {
      assert Moves(s3.procs[id], Cycle(s, t).procs[id]);
      ReapTallied(s, t, id, tally);
    }
  }

  /** Calls other than a restart of `id` leave its restart count alone. */
  lemma OtherCallsKeepCount(s: State, step: Step, id: ProcessId)
    requires Invariant(s) && Legal(s, step) && !step.DoCycle? && !(step.DoRestart? && step.restarted == id)
    requires id in s.procs && id in Apply(s, step).procs
    ensures var p, q := s.procs[id], Apply(s, step).procs[id];
            q.config == p.config && RestartCount(q) == RestartCount(p)
  {
    InvariantIsSound(s);
    match step {
      case DoStart(tag, config, e) => StartKeepsOthers(s, tag, config, e, id);
      case DoStop(x, e) => StopKeeps(s, x, e);
      case DoStopMany(ids, kill) =>
      case DoRestart(x, e) => RestartKeepsOthers(s, x, e, id);
      case DoDependencyTimeout(x) =>
      case DoObserve(x, poll) =>
    }
  }

  /** A manual restart starts the count over. */
  lemma RestartResetsCount(s: State, id: ProcessId, e: RestartEnv)
    requires Invariant(s) && id in s.procs && id in Restart(s, id, e).state.procs
    ensures RestartCount(Restart(s, id, e).state.procs[id]) == 0
  {
    assert s.procs[id].id == id;
    hide Stop;
  }

  lemma StepTallied(s: State, step: Step, id: ProcessId, tally: Tally)
    requires Invariant(s) && Legal(s, step) && (id in s.procs ==> Tallied(s.procs[id], tally))
    ensures id in Apply(s, step).procs ==> Tallied(Apply(s, step).procs[id], NextTally(s, step, id, tally))
  {
    if id in Apply(s, step).procs {
      if id !in s.procs {
        NewlyTrackedCount(s, step, id);
      } else if step.DoCycle? {
        CycleTallied(s, step.tick, id, tally);
      } else if step.DoRestart? && step.restarted == id {
        RestartResetsCount(s, id, step.restart);
      } else {
        OtherCallsKeepCount(s, step, id);
      }
    }
  }

  /** Only `start` makes an id tracked that was not, and with nothing counted yet. */
  lemma NewlyTrackedCount(s: State, step: Step, id: ProcessId)
    requires Invariant(s) && Legal(s, step) && id !in s.procs
    ensures id in Apply(s, step).procs ==> RestartCount(Apply(s, step).procs[id]) == 0
  {
    if step.DoStart? {
      StartedCount(s, step);
    } else {
      OnlyStartTracks(s, step);
    }
  }

  lemma StartedCount(s: State, step: Step)
    requires Invariant(s) && step.DoStart?
    ensures s.nextId in Apply(s, step).procs ==> RestartCount(Apply(s, step).procs[s.nextId]) == 0
    ensures forall id :: id in Apply(s, step).procs ==> id in s.procs || id == s.nextId
  {
    InvariantStructural(s);
    StartMap(s, step.tag, step.config, step.start);
    PolledKeepsIdentity(s.procs, StartPolls(s.(nextId := s.nextId + 1), step.config, step.start).procs);
    hide Start, StartPolls, StartEntry, OnlyPolled, PolledInto, Rejected, Invariant, Structural;
  }

  lemma RunTallied(r: Run, id: ProcessId, n: nat)
    requires IsRun(r) && n < |r.states|
    ensures id in r.states[n].procs ==> Tallied(r.states[n].procs[id], TallyOf(r, id, n))
  {
    hide *;
    if n == 0 {
      InitialInvariant(r);
      InitialUntracked(id);
    } else {
      LastStep(r, n);
      TallyStep(r, id, n);
      RunTallied(r, id, n - 1);
      RunInvariant(r, n - 1);
      StepTallied(r.states[n - 1], r.steps[n - 1], id, TallyOf(r, id, n - 1));
    }
  }

  lemma InitialUntracked(id: ProcessId)
    ensures id !in INITIAL.procs
  {
  }

  lemma TallyStep(r: Run, id: ProcessId, n: nat)
    requires IsRun(r) && 0 < n < |r.states|
    ensures TallyOf(r, id, n) == NextTally(r.states[n - 1], r.steps[n - 1], id, TallyOf(r, id, n - 1))
  {
    hide NextTally, IsRun;
  }

  /** At every moment of a run the restart count is the number of restarts scheduled
      since the last reset, and under backoff it exceeds the limit by exactly the exits
      that came at the limit and were excused by the cascade flag. */
  lemma RestartsBounded(r: Run, id: ProcessId, n: nat)
    requires IsRun(r) && n < |r.states| && id in r.states[n].procs
    requires var p := r.states[n].procs[id]; p.config.restartOnExit && p.config.restartPolicy.Backoff?
    ensures var p, tally := r.states[n].procs[id], TallyOf(r, id, n);
            && RestartCount(p) == tally.scheduled && tally.excused <= tally.flagged
            && Excess(tally.scheduled, p.config.restartPolicy.config.maxRestarts) == tally.excused
  {
    RunTallied(r, id, n);
    hide IsRun, TallyOf;
  }

  /** An unexcused exit of a process at its limit that would trigger a restart is
      reported as Failed, once, and removes the process. */
  lemma LimitIsFinal(s: State, t: Tick, id: ProcessId)
    requires Reachable(s) && Faithful(t, s.procs.Keys) && id in s.procs && ExitSeen(s, id, t)
    requires var p := s.procs[id];
             && !p.cascadeFlag && p.config.restartOnExit && p.config.restartPolicy.Backoff?
             && (p.config.restartTrigger.Always? || !t.exit(id).success)
             && CountAtExit(p, t.now) >= p.config.restartPolicy.config.maxRestarts
    ensures var s3 := Reap(s, t);
            && id !in s3.procs && EventCount(s3.log, id) == EventCount(s.log, id) + 1
            && exists i :: |s.log| <= i < |s3.log| && s3.log[i].id == id && s3.log[i].state.Failed?
  {
    ReachableInvariant(s);
    InvariantKeyed(s);
    assert Enumerates(t.order(AtPoll), s.procs.Keys) && id in t.order(AtPoll);
    ExitOutcome(s, id, t);
    hide Reachable, WellFormed, Seen;
    hide Invariant, Faithful, PollEntry, Reaped, IsTargeted, ReapEvents;
    ExitReported(s, t, id);
  }
}
