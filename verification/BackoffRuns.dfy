/** Backoff and timeouts over whole runs. */
module BackoffRuns {
  import opened Basics
  import opened Backoff
  import opened Processes
  import opened Reaper
  import opened Invariants
  import opened ReapPhase
  import opened LaterPhases
  import opened FailFastPhase
  import opened Movement
  import opened Cascades
  import opened Runs
  import opened Undisturbed

  // ------------------------------------------------- progress of a backoff

  /** After a cycle everyone still in a backoff wait has a timer that is not due. */
  lemma BackoffProgress(s: State, t: Tick, id: ProcessId)
    requires Reachable(s) && Faithful(t, s.procs.Keys)
    requires id in Cycle(s, t).procs && Cycle(s, t).procs[id].state.Restarting?
    ensures var r := Cycle(s, t).procs[id].restart;
            r.Some? && r.value.nextEligibleRestart.Some? && t.now < r.value.nextEligibleRestart.value
  {
    ReachableInvariant(s);
    CycleKeeps(s, t);
    RestartingNotDue(s, t, id);
  }

  lemma RestartingNotDue(s: State, t: Tick, id: ProcessId)
    requires Invariant(s) && Faithful(t, s.procs.Keys)
    requires id in Cycle(s, t).procs && Cycle(s, t).procs[id].state.Restarting?
    ensures !DueForRestart(Cycle(s, t).procs, id, t.now)
    ensures id in Reap(s, t).procs && Cycle(s, t).procs[id] == Reap(s, t).procs[id]
  {
    ReapInvariant(s, t);
    var s3 := Reap(s, t);
    var s4 := Restarts(s3, t);
    RestartsAdvance(s3, t);
    RestartsMove(s3, t);
    FaithfulShrinks(t, s3.procs.Keys, s4.procs.Keys);
    WaitersMove(s4, t);
    FailFastMoves(Waiters(s4, t), t.order(AtFailFast));
    assert Moves(s3.procs[id], s4.procs[id]) && Moves(s4.procs[id], Waiters(s4, t).procs[id]);
  }

  /** How a crash at `now` starts the wait: by no more than the cap. */
  lemma CrashScheduled(s: State, t: Tick, id: ProcessId)
    requires Reachable(s) && id in s.procs && id in Reap(s, t).procs && ExitSeen(s, id, t)
    ensures var p, q := s.procs[id], Reap(s, t).procs[id];
            && q.state.Restarting? && q.child.None? && q.restart.Some? && p.restart.Some?
            && q.restart.value.restartCount == CountAtExit(p, t.now) + 1
            && q.restart.value.nextEligibleRestart.Some?
            && var next := q.restart.value.nextEligibleRestart.value;
               match p.config.restartPolicy
               case Immediate => next == t.now
               case Backoff(c) =>
                 next == t.now + Capped(RawDelay(c, q.restart.value.restartCount), c.maxDelay) && next <= t.now + c.maxDelay
  {
    ReachableInvariant(s);
    InvariantKeyed(s);
    hide Invariant, Scheduled, RawDelay;
    var q := CrashReaped(s, t, id);
    ScheduledTimer(q, t.now);
  }

  lemma CrashReaped(s: State, t: Tick, id: ProcessId) returns (q: Process)
    requires id in s.procs && WellFormed(s.procs[id]) && id in Reap(s, t).procs && ExitSeen(s, id, t)
    ensures Reap(s, t).procs[id] == Scheduled(q, t.now)
    ensures q.config == s.procs[id].config && q.restart.Some? && q.restart.value.restartCount == CountAtExit(s.procs[id], t.now)
    ensures s.procs[id].restart.Some?
  {
    var o := Seen(s, id, t);
    q := if IsTargeted(s.procs, id, t) then Flagged(o.process) else o.process;
    hide IsTargeted, Scheduled;
  }

  lemma ScheduledTimer(p: Process, now: Time)
    requires p.restart.Some?
    ensures var q := Scheduled(p, now);
            && q.state.Restarting? && q.child.None? && q.restart.Some?
            && q.restart.value.restartCount == p.restart.value.restartCount + 1
            && q.restart.value.nextEligibleRestart.Some?
            && var next := q.restart.value.nextEligibleRestart.value;
               match p.config.restartPolicy
               case Immediate => next == now
               case Backoff(c) =>
                 next == now + Capped(RawDelay(c, q.restart.value.restartCount), c.maxDelay) && next <= now + c.maxDelay
  {
    hide RawDelay;
  }

  /** A backoff wait that is not due passes through a cycle untouched. */
  lemma BackoffKept(s: State, t: Tick, id: ProcessId)
    requires Invariant(s) && Faithful(t, s.procs.Keys)
    requires id in s.procs && s.procs[id].state.Restarting? && !DueForRestart(s.procs, id, t.now)
    ensures id in Cycle(s, t).procs && Cycle(s, t).procs[id] == s.procs[id]
  {
    assert Structural(s);
    RestartingReaped(s, t, id);
    ReapInvariant(s, t);
    var s3 := Reap(s, t);
    NotDuePolled(s3, t, id);
    var s4 := Restarts(s3, t);
    assert s4.procs[id] == s.procs[id];
    hide Reap, Restarts, Waiters, FailFast, Invariant, Faithful, DueForRestart;
    RestartsAdvance(s3, t);
    FaithfulShrinks(t, s3.procs.Keys, s4.procs.Keys);
    KeptAfterRestarts(s4, t, id);
  }

  /** Phases 5 and 6 leave alone whoever is neither Waiting nor Running. */
  lemma KeptAfterRestarts(s: State, t: Tick, id: ProcessId)
    requires Invariant(s) && Faithful(t, s.procs.Keys)
    requires id in s.procs && !s.procs[id].state.Waiting? && !s.procs[id].state.Running?
    ensures var s' := FailFast(Waiters(s, t), t.order(AtFailFast)); id in s'.procs && s'.procs[id] == s.procs[id]
  {
    WaitersShape(s, t);
    var s5 := Waiters(s, t);
    RunningWithDepsAreRunning(s5.procs, t.order(AtFailFast));
    FailDependentsThorough(s5, RunningWithDeps(s5.procs, t.order(AtFailFast)));
  }

  /** What the clock shows in the k-th step, if that is a cycle. */
  ghost function NowAt(r: Run, k: nat): Time {
    if CycleAt(r, k) then r.steps[k].tick.now else 0.0
  }

  /** `id` is waiting for its restart at `due`. */
  ghost predicate RestartsAt(s: State, id: ProcessId, due: Time) {
    && id in s.procs && s.procs[id].state.Restarting? && s.procs[id].restart.Some?
    && s.procs[id].restart.value.nextEligibleRestart == Some(due)
  }

  /** The step is a cycle, and its clock has not reached the timer yet. */
  ghost predicate TooEarly(r: Run, k: nat, due: Time) {
    CycleAt(r, k) ==> NowAt(r, k) < due
  }

  /** A scheduled restart over a stretch of the run with any cycles, and any calls that
      do not name the process: it waits untouched while its timer is not due, unless a
      cascade stop removes it, and leaves the backoff in the first cycle at or after it. */
  lemma BackoffEnds(r: Run, m: nat, n: nat, id: ProcessId, due: Time)
    requires IsRun(r) && m <= n && n + 1 < |r.states| && RestartsAt(r.states[m], id, due)
    requires forall k :: m <= k < n ==> !NamedAt(r, k, id) && TooEarly(r, k, due)
    requires CycleAt(r, n) && due <= NowAt(r, n)
    ensures id in r.states[n].procs ==> r.states[n].procs[id] == r.states[m].procs[id]
    ensures id in r.states[n + 1].procs ==> !r.states[n + 1].procs[id].state.Restarting?
  {
    hide *;
    LastStep(r, n + 1);
    RunInvariant(r, n);
    NowIs(r, n);
    SameTimer(r.states[m], r.states[m], id, due);
    BackoffWaits(r, m, n, id, due);
    var s, t := r.states[n], r.steps[n].tick;
    InvariantStructural(s);
    CycleLegal(s, r.steps[n]);
    if id in Cycle(s, t).procs && Cycle(s, t).procs[id].state.Restarting? {
      TrackedBetween(r, m, n, n + 1, id);
      TimerRead(s, id, due, t.now);
      SameTimer(s, Cycle(s, t), id, due);
      RestartingNotDue(s, t, id);
      RestartingReaped(s, t, id);
      TimerRead(Cycle(s, t), id, due, t.now);
    }
  }

  lemma RestartingReaped(s: State, t: Tick, id: ProcessId)
    requires Structural(s) && id in s.procs && s.procs[id].state.Restarting?
    ensures id in Reap(s, t).procs && Reap(s, t).procs[id] == s.procs[id]
  {
    TargetsExact(s, id, t);
    hide IsTargeted;
  }

  lemma NowIs(r: Run, k: nat)
    requires k < |r.steps| && k < |r.states|
    ensures CycleAt(r, k) <==> r.steps[k].DoCycle?
    ensures CycleAt(r, k) ==> NowAt(r, k) == r.steps[k].tick.now
    ensures forall due :: TooEarly(r, k, due) <==> (r.steps[k].DoCycle? ==> r.steps[k].tick.now < due)
  {
  }

  lemma TimerRead(s: State, id: ProcessId, due: Time, now: Time)
    requires RestartsAt(s, id, due)
    ensures id in s.procs && s.procs[id].state.Restarting? && (DueForRestart(s.procs, id, now) <==> due <= now)
  {
  }

  lemma SameTimer(s: State, s': State, id: ProcessId, due: Time)
    requires RestartsAt(s, id, due)
    ensures id in s.procs && (id in s'.procs && s'.procs[id] == s.procs[id] ==> RestartsAt(s', id, due))
  {
  }

  lemma BackoffWaits(r: Run, m: nat, n: nat, id: ProcessId, due: Time)
    requires IsRun(r) && m <= n < |r.states| && RestartsAt(r.states[m], id, due)
    requires forall k :: m <= k < n ==> !NamedAt(r, k, id) && TooEarly(r, k, due)
    ensures id in r.states[m].procs
    ensures id in r.states[n].procs ==> r.states[n].procs[id] == r.states[m].procs[id] && RestartsAt(r.states[n], id, due)
    decreases n
  {
    hide *;
    SameTimer(r.states[m], r.states[n], id, due);
    if m < n && id in r.states[n].procs {
      TrackedBetween(r, m, n - 1, n, id);
      BackoffWaits(r, m, n - 1, id, due);
      LastStep(r, n);
      RunInvariant(r, n - 1);
      var s, step := r.states[n - 1], r.steps[n - 1];
      assert !NamedAt(r, n - 1, id) && TooEarly(r, n - 1, due);
      NowIs(r, n - 1);
      TimerRead(s, id, due, if step.DoCycle? then step.tick.now else due);
      if step.DoCycle? {
        CycleLegal(s, step);
        BackoffKept(s, step.tick, id);
      } else {
        UnnamedAt(r, n - 1, id);
        UnnamedKeeps(s, step, id);
      }
    }
  }

  // -------------------------------------------------------- bounded waiting

  /** After a cycle nobody has been Waiting for as long as its dependency timeout,
      those included that phase 4 has only just sent waiting. */
  lemma WaitingBounded(s: State, t: Tick, id: ProcessId)
    requires Reachable(s) && Faithful(t, s.procs.Keys)
    requires id in Cycle(s, t).procs && Cycle(s, t).procs[id].state.Waiting?
    ensures var p := Cycle(s, t).procs[id];
            && p.waitingSince.Some?
            && Elapsed(p.waitingSince.value, t.now) < p.config.dependencyTimeout
  {
    ReachableInvariant(s);
    CycleKeeps(s, t);
    assert Cycle(s, t).procs[id].waitingSince.Some?;
    assert t.now <= t.clock(OnTimeoutCheck(id));
    ReapInvariant(s, t);
    var s3 := Reap(s, t);
    var s4 := Restarts(s3, t);
    AfterReapIs(s, t);
    hide Reap, Restarts, Waiters, FailFast, Cycle, Invariant, Faithful, TimedOut, VerdictOn, JudgedMap, Spawned;
    RestartsAdvance(s3, t);
    FaithfulShrinks(t, s3.procs.Keys, s4.procs.Keys);
    WaiterInTime(s4, t, id);
  }

  lemma WaiterInTime(s: State, t: Tick, id: ProcessId)
    requires Invariant(s) && Faithful(t, s.procs.Keys)
    requires var s' := FailFast(Waiters(s, t), t.order(AtFailFast)); id in s'.procs && s'.procs[id].state.Waiting?
    ensures var p := FailFast(Waiters(s, t), t.order(AtFailFast)).procs[id]; !TimedOut(p, t.clock(OnTimeoutCheck(id)))
  {
    WaitersShape(s, t);
    FailFastMoves(Waiters(s, t), t.order(AtFailFast));
    FailFastKeepsEntries(Waiters(s, t), t.order(AtFailFast));
    hide Waiters, FailFast, Invariant, Faithful, VerdictOn;
    KeepersHaveTime(s.procs, id, t);
  }

  lemma KeepersHaveTime(procs: ProcessMap, id: ProcessId, t: Tick)
    requires id in procs
    ensures VerdictOn(procs, id, t).decision.ToKeep? ==> !TimedOut(procs[id], t.clock(OnTimeoutCheck(id)))
  {
  }
}
