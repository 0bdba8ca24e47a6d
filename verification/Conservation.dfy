/** Spawns and exits of a process balance for as long as it stays tracked. */
module Conservation {
  import opened Basics
  import opened Processes
  import opened Resolution
  import opened Reaper
  import opened Manager
  import opened Invariants
  import opened LaterPhases
  import opened CascadeStop
  import opened Calls
  import opened Runs
  import opened Undisturbed

  lemma RestartDropsOnlyRemoved(s: State, x: ProcessId, e: RestartEnv, id: ProcessId)
    requires Invariant(s) && (id in Restart(s, x, e).state.procs || id !in s.procs)
    requires x == id && id in s.procs ==> s.procs[id].state.Restarting?
    ensures Restart(s, x, e).state.dropped[id] == s.dropped[id]
  {
    InvariantStructural(s);
    InvariantIsSound(s);
    StopKeeps(s, x, e.stop);
    if x in s.procs && !s.procs[x].state.Restarting? { RestartShape(s, x, e); }
    hide Stop, Sound, Invariant, WellFormed, EventCount, RunningLabels;
  }

  lemma CycleDropsOnlyRemoved(s: State, t: Tick, id: ProcessId)
    requires Invariant(s) && Faithful(t, s.procs.Keys) && (id in Cycle(s, t).procs || id !in s.procs)
    ensures Cycle(s, t).dropped[id] == s.dropped[id]
  {
    var s3 := Reap(s, t);
    assert s3.dropped == s.dropped;
    ReapInvariant(s, t);
    AfterReapAdvances(s3, t);
    AfterReapIs(s3, t);
    AfterReapIs(s, t);
    hide Reap, Cycle, AfterReap, Invariant, Faithful, Evolves, EventCount, Restarts, Waiters, FailFast;
  }

  /** A child is given up only together with its entry. */
  lemma StepDropsOnlyRemoved(s: State, step: Step, id: ProcessId)
    requires Invariant(s) && Legal(s, step) && !Forces(s, step, id)
    requires id in Apply(s, step).procs || id !in s.procs
    ensures Apply(s, step).dropped[id] == s.dropped[id]
  {
    InvariantStructural(s);
    InvariantIsSound(s);
    hide Invariant, Sound, Structural, WellFormed, Start, Stop, Restart, Cycle, Faithful;
    match step {
      case DoStart(tag, config, e) => StartDropsNothing(s, tag, config, e);
      case DoStop(x, e) => StopKeeps(s, x, e);
      case DoStopMany(ids, kill) => StopManyDrops(s, ids, kill, id);
      case DoRestart(x, e) => RestartDropsOnlyRemoved(s, x, e, id);
      case DoDependencyTimeout(x) =>
      case DoObserve(x, poll) =>
      case DoCycle(t) => CycleDropsOnlyRemoved(s, t, id);
    }
  }

  lemma StartDropsNothing(s: State, tag: Label, config: ProcessConfig, e: StartEnv)
    ensures Start(s, tag, config, e).state.dropped == s.dropped
  {
    hide Rejected, Bindings, PollDeps;
  }

  lemma StopManyDrops(s: State, ids: seq<ProcessId>, kill: ProcessId -> SignalResult, id: ProcessId)
    requires Structural(s) && (id in StopMany(s, ids, kill).procs || id !in s.procs)
    ensures StopMany(s, ids, kill).dropped[id] == s.dropped[id]
  {
    DroppedByExact(s.procs, ids, kill, id);
    hide DroppedBy, WellFormed;
  }

  /** No child of a tracked process, or of one still to come, has been given up. */
  ghost predicate NothingGivenUp(s: State, id: ProcessId) {
    id in s.procs || s.nextId <= id ==> s.dropped[id] == 0
  }

  lemma StepGivesUpNothing(s: State, step: Step, id: ProcessId)
    requires Invariant(s) && Legal(s, step) && !Forces(s, step, id) && NothingGivenUp(s, id)
    ensures NothingGivenUp(Apply(s, step), id)
  {
    StepKeeps(s, step);
    InvariantStructural(s);
    hide Invariant, Legal, Apply, Forces, WellFormed;
    if id in Apply(s, step).procs || Apply(s, step).nextId <= id { StepDropsOnlyRemoved(s, step, id); }
  }

  /** In the course of the run nobody restarts `id` by hand except out of a backoff wait. */
  ghost predicate NeverForced(r: Run, id: ProcessId) {
    forall n {:trigger r.steps[n]} :: 0 <= n < |r.steps| && n < |r.states| ==> !Forces(r.states[n], r.steps[n], id)
  }

  lemma NotForcedAt(r: Run, id: ProcessId, n: nat)
    requires NeverForced(r, id) && n < |r.steps| && n < |r.states|
    ensures !Forces(r.states[n], r.steps[n], id)
  {
    assert r.steps[n] == r.steps[n];
    hide Forces;
  }

  lemma RunGivesUpNothing(r: Run, id: ProcessId, n: nat)
    requires IsRun(r) && NeverForced(r, id) && n < |r.states|
    ensures NothingGivenUp(r.states[n], id)
  {
    hide *;
    if n == 0 {
      InitialInvariant(r);
      NothingDropped(id);
    } else {
      LastStep(r, n);
      NotForcedAt(r, id, n - 1);
      RunGivesUpNothing(r, id, n - 1);
      RunInvariant(r, n - 1);
      StepGivesUpNothing(r.states[n - 1], r.steps[n - 1], id);
    }
  }

  lemma NothingDropped(id: ProcessId)
    ensures NothingGivenUp(INITIAL, id)
  {
  }

  /** At every moment of a run, for a tracked process that is never restarted by
      hand out of another state than its backoff wait, every child ever spawned has
      been reported with its exit status, except the one it holds now. */
  lemma TrackedBalance(r: Run, id: ProcessId, n: nat)
    requires IsRun(r) && NeverForced(r, id) && n < |r.states| && id in r.states[n].procs
    ensures var s := r.states[n];
            SpawnCount(s.spawns, id) == ExitCount(s.log, id) + if s.procs[id].child.Some? then 1 else 0
  {
    RunGivesUpNothing(r, id, n);
    RunInvariant(r, n);
    hide IsRun, NeverForced, Structural, Sequenced, Logged, Ordered, Bound;
  }
}
