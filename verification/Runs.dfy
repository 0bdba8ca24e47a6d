/** Whole runs: any sequence of calls and cycles. */
module Runs {
  import opened Basics
  import opened Processes
  import opened Reaper
  import opened Manager
  import opened Invariants
  import opened ReapPhase
  import opened LaterPhases
  import opened WaitingPhase
  import opened FailFastPhase
  import opened Calls

  datatype Step =
    | DoStart(tag: Label, config: ProcessConfig, start: StartEnv)
    | DoStop(target: ProcessId, stop: StopEnv)
    | DoStopMany(targets: seq<ProcessId>, kill: ProcessId -> SignalResult)
    | DoRestart(restarted: ProcessId, restart: RestartEnv)
    | DoDependencyTimeout(late: ProcessId)
    | DoObserve(observed: ProcessId, poll: Poll)
    | DoCycle(tick: Tick)

  ghost function Apply(s: State, step: Step): State {
    match step
    case DoStart(tag, config, e) => Start(s, tag, config, e).state
    case DoStop(id, e) => Stop(s, id, e).state
    case DoStopMany(ids, kill) => StopMany(s, ids, kill)
    case DoRestart(id, e) => Restart(s, id, e).state
    case DoDependencyTimeout(id) => DependencyTimeout(s, id)
    case DoObserve(id, poll) => Observe(s, id, poll)
    case DoCycle(t) => Cycle(s, t)
  }

  /** The walks of the step really enumerate the map. */
  ghost predicate Legal(s: State, step: Step) {
    match step
    case DoStart(_, _, e) => Enumerates(e.order, s.procs.Keys)
    case DoStop(_, e) => forall id :: Enumerates(e.order(id), s.procs.Keys)
    case DoRestart(_, e) => forall id :: Enumerates(e.stop.order(id), s.procs.Keys)
    case DoCycle(t) => Faithful(t, s.procs.Keys)
    case _ => true
  }

  /** The states a run goes through, and the step that leads from each to the next. */
  datatype Run = Run(states: seq<State>, steps: seq<Step>)

  /** The run begins with the empty manager, and every step is legal where it is taken. */
  ghost predicate IsRun(r: Run) {
    && |r.states| == |r.steps| + 1 && r.states[0] == INITIAL
    && forall n {:trigger r.steps[n]} :: 0 <= n < |r.steps| ==>
         Legal(r.states[n], r.steps[n]) && r.states[n + 1] == Apply(r.states[n], r.steps[n])
  }

  ghost predicate Reachable(s: State) {
    exists r :: IsRun(r) && s == r.states[|r.steps|]
  }

  lemma FaithfulShrinks(t: Tick, keys: set<ProcessId>, fewer: set<ProcessId>)
    requires Faithful(t, keys) && fewer <= keys
    ensures Faithful(t, fewer)
  {
  }

  /** Phases 4 to 6 of a cycle. */
  function AfterReap(s: State, t: Tick): State {
    FailFast(Waiters(Restarts(s, t), t), t.order(AtFailFast))
  }

  lemma AfterReapAdvances(s: State, t: Tick)
    requires Invariant(s) && Faithful(t, s.procs.Keys)
    ensures Invariant(AfterReap(s, t)) && Advances(s, AfterReap(s, t))
  {
    var s4 := Restarts(s, t);
    RestartsAdvance(s, t);
    assert s4.procs.Keys <= s.procs.Keys;
    FaithfulShrinks(t, s.procs.Keys, s4.procs.Keys);
    var s5 := Waiters(s4, t);
    WaitersAdvance(s4, t);
    FailDependentsAdvance(s5, RunningWithDeps(s5.procs, t.order(AtFailFast)));
    assert Structural(s);
    hide *;
    AdvancesTransitive(s, s4, s5);
    AdvancesTransitive(s, s5, FailFast(s5, t.order(AtFailFast)));
    assert AfterReap(s, t) == FailFast(s5, t.order(AtFailFast)) by { AfterReapIs(s, t); }
  }

  lemma AfterReapIs(s: State, t: Tick)
    ensures AfterReap(s, t) == FailFast(Waiters(Restarts(s, t), t), t.order(AtFailFast))
    ensures Cycle(s, t) == FailFast(Waiters(Restarts(Reap(s, t), t), t), t.order(AtFailFast))
  {
  }

  lemma ReapInvariant(s: State, t: Tick)
    requires Invariant(s) && Faithful(t, s.procs.Keys)
    ensures Invariant(Reap(s, t)) && Evolves(s, Reap(s, t))
    ensures Reap(s, t).procs.Keys <= s.procs.Keys && Faithful(t, Reap(s, t).procs.Keys)
  {
    ReapKeeps(s, t);
    ReapBound(s, t);
    FaithfulShrinks(t, s.procs.Keys, Reap(s, t).procs.Keys);
  }

  lemma CycleKeeps(s: State, t: Tick)
    requires Invariant(s) && Faithful(t, s.procs.Keys)
    ensures Invariant(Cycle(s, t)) && Evolves(s, Cycle(s, t))
  {
    var s3 := Reap(s, t);
    ReapInvariant(s, t);
    AfterReapAdvances(s3, t);
    assert Structural(s);
    assert Evolves(s3, AfterReap(s3, t));
    hide *;
    EvolvesTransitive(s, s3, AfterReap(s3, t));
    AfterReapIs(s3, t);
    AfterReapIs(s, t);
  }

  /** Every step keeps every invariant, and no step rewrites history or identities. */
  lemma StepKeeps(s: State, step: Step)
    requires Invariant(s) && Legal(s, step)
    ensures Invariant(Apply(s, step)) && Evolves(s, Apply(s, step))
  {
    hide Invariant, Evolves, Faithful, Start, Stop, StopMany, Restart, Cycle, Observe, DependencyTimeout;
    match step {
      case DoStart(tag, config, e) => StartKeeps(s, tag, config, e);
      case DoStop(id, e) => StopInvariant(s, id, e);
      case DoStopMany(ids, kill) => StopManyKeeps(s, ids, kill);
      case DoRestart(id, e) => RestartKeeps(s, id, e);
      case DoDependencyTimeout(id) => TimeoutKeeps(s, id);
      case DoObserve(id, poll) => ObserveKeeps(s, id, poll);
      case DoCycle(t) => CycleKeeps(s, t);
    }
  }

  lemma LastStep(r: Run, n: nat)
    requires IsRun(r) && 0 < n < |r.states|
    ensures |r.states| == |r.steps| + 1
    ensures Legal(r.states[n - 1], r.steps[n - 1]) && r.states[n] == Apply(r.states[n - 1], r.steps[n - 1])
  {
    assert r.steps[n - 1] == r.steps[n - 1];
    hide Legal, Apply;
  }

  lemma InitialInvariant(r: Run)
    requires IsRun(r)
    ensures r.states[0] == INITIAL && Invariant(INITIAL)
  {
  }

  /** The invariants hold all along a run. */
  lemma RunInvariant(r: Run, n: nat)
    requires IsRun(r) && n < |r.states|
    ensures Invariant(r.states[n])
  {
    hide *;
    if n == 0 {
      InitialInvariant(r);
    } else {
      LastStep(r, n);
      RunInvariant(r, n - 1);
      StepKeeps(r.states[n - 1], r.steps[n - 1]);
    }
  }

  /** From any point of a run to a later one the state only evolves. */
  lemma RunEvolves(r: Run, m: nat, n: nat)
    requires IsRun(r) && m <= n < |r.states|
    ensures Evolves(r.states[m], r.states[n])
    decreases n
  {
    hide *;
    RunInvariant(r, m);
    InvariantStructural(r.states[m]);
    if m == n {
      EvolvesSelf(r.states[m]);
    } else {
      LastStep(r, n);
      RunEvolves(r, m, n - 1);
      RunInvariant(r, n - 1);
      StepKeeps(r.states[n - 1], r.steps[n - 1]);
      EvolvesTransitive(r.states[m], r.states[n - 1], r.states[n]);
    }
  }

  lemma EvolvesSelf(s: State)
    requires Structural(s)
    ensures Evolves(s, s)
  {
  }

  /** The invariants hold in every reachable state. */
  lemma ReachableInvariant(s: State)
    requires Reachable(s)
    ensures Invariant(s)
  {
    var r :| IsRun(r) && s == r.states[|r.steps|];
    hide Invariant;
    RunInvariant(r, |r.steps|);
  }

  /** Every state of a run is reachable. */
  lemma ReachableAt(r: Run, n: nat)
    requires IsRun(r) && n < |r.states|
    ensures Reachable(r.states[n])
  {
    var q := Run(r.states[..n + 1], r.steps[..n]);
    forall k {:trigger q.steps[k]} | 0 <= k < n
      ensures Legal(q.states[k], q.steps[k]) && q.states[k + 1] == Apply(q.states[k], q.steps[k])
    {
      assert r.steps[k] == q.steps[k];
      hide Legal, Apply;
    }
    hide Legal, Apply;
    assert IsRun(q) && q.states[|q.steps|] == r.states[n];
  }

  /** A run to `s` goes on with any legal step. */
  lemma ExtendRun(s: State, step: Step) returns (q: Run, n: nat)
    requires Reachable(s) && Legal(s, step)
    ensures IsRun(q) && |q.steps| == n + 1 && |q.states| == n + 2
    ensures q.states[n] == s && q.steps[n] == step && q.states[n + 1] == Apply(s, step)
  {
    hide Legal, Apply;
    var r :| IsRun(r) && s == r.states[|r.steps|];
    n := |r.steps|;
    q := Run(r.states + [Apply(s, step)], r.steps + [step]);
    assert forall k :: 0 <= k <= n ==> q.states[k] == r.states[k];
    forall k {:trigger q.steps[k]} | 0 <= k < n + 1
      ensures Legal(q.states[k], q.steps[k]) && q.states[k + 1] == Apply(q.states[k], q.steps[k])
    {
      if k < n { assert r.steps[k] == q.steps[k]; }
    }
  }

  /** And so is every state a legal step leads to. */
  lemma ReachableStep(s: State, step: Step)
    requires Reachable(s) && Legal(s, step)
    ensures Reachable(Apply(s, step))
  {
    var q, n := ExtendRun(s, step);
    assert q.states[|q.steps|] == Apply(s, step);
    hide IsRun, Legal, Apply;
  }

  lemma InitialReachable()
    ensures Reachable(INITIAL)
  {
    var r := Run([INITIAL], []);
    assert IsRun(r) && r.states[|r.steps|] == INITIAL;
  }

  // ------------------------------------------------------ what runs guarantee

  /** Dependency order: whoever was ever spawned by `start`, by an automatic
      restart or by phase 5 had every declared reference met by a process that
      was Running at that instant. */
  lemma SpawnsRespectDependencies(s: State, n: nat)
    requires Reachable(s) && n < |s.spawns| && !s.spawns[n].cause.OnManualRestart?
    ensures forall i :: 0 <= i < |s.spawns[n].dependsOn| ==>
              match s.spawns[n].dependsOn[i]
              case OnId(id) => id in s.spawns[n].running
              case OnLabel(tag) => exists id :: id in s.spawns[n].running && s.spawns[n].running[id] == tag
  {
    ReachableInvariant(s);
    var r := s.spawns[n];
    forall i | 0 <= i < |r.dependsOn|
      ensures match r.dependsOn[i]
              case OnId(id) => id in r.running
              case OnLabel(tag) => exists id :: id in r.running && r.running[id] == tag
    {
      assert Met(r.dependsOn[i], r.running);
    }
  }

  /** Conservation: every child created for `id` was reported with an exit status,
      given up by the manager, or is held by the tracked process. */
  lemma ChildrenConserved(s: State, id: ProcessId)
    requires Reachable(s)
    ensures SpawnCount(s.spawns, id)
         == ExitCount(s.log, id) + s.dropped[id] + (if id in s.procs && s.procs[id].child.Some? then 1 else 0)
  {
    ReachableInvariant(s);
  }

  /** A Failed event is unique and last for its id, and the id is gone. */
  lemma FailedIsFinal(s: State, i: nat)
    requires Reachable(s) && i < |s.log| && s.log[i].state.Failed?
    ensures s.log[i].id !in s.procs && forall j :: i < j < |s.log| ==> s.log[j].id != s.log[i].id
  {
    ReachableInvariant(s);
  }

  /** The state of a tracked process says whether it has an OS child, so the
      "no child" branch of `Process::state` is never taken. */
  lemma LifecycleStructure(s: State, id: ProcessId, poll: Poll)
    requires Reachable(s) && id in s.procs
    ensures var p := s.procs[id];
            && (p.state.Starting? || p.state.Running? || p.state.Stopping? ==> p.child == Some(p.pid))
            && (p.state.Waiting? ==> p.child.None? && p.waitingSince.Some?)
            && (p.state.Restarting? ==> p.child.None? && p.config.restartOnExit && p.restart.Some?)
            && (p.restart.Some? <==> p.config.restartOnExit)
            && (p.restart.Some? && (p.state.Starting? || p.state.Running?) ==> p.restart.value.lastStartedAt.Some?)
            && (p.state.Starting? || p.state.Running? ==>
                  p.Polled(poll).state == match poll
                                          case Exited(success) => if success then Stopped else Crashed
                                          case Alive => Running
                                          case WaitFailed => Crashed)
  {
    ReachableInvariant(s);
  }

  /** Spawn sequences identify tracked processes. */
  lemma SequencesDistinct(s: State, a: ProcessId, b: ProcessId)
    requires Reachable(s) && a in s.procs && b in s.procs && a != b
    ensures s.procs[a].spawnSequence != s.procs[b].spawnSequence && s.procs[a].spawnSequence < s.nextSequence
  {
    ReachableInvariant(s);
  }

  /** An id that was handed out and is gone stays gone, and the past of the log stays as it is. */
  lemma GoneForGood(r: Run, m: nat, n: nat, id: ProcessId)
    requires IsRun(r) && m <= n < |r.states|
    requires id < r.states[m].nextId && id !in r.states[m].procs
    ensures id !in r.states[n].procs && r.states[m].log <= r.states[n].log
  {
    RunEvolves(r, m, n);
    hide IsRun;
  }

  /** The event accounting of a cycle: a tracked process gets one event if phase 1
      saw its exit, and one more, Failed and without status, if phases 4 to 6
      removed it; no other id gets any. It leaves the map exactly when its exit
      leads to no restart or a later phase removes it. */
  lemma CycleAccounts(s: State, t: Tick, id: ProcessId)
    requires Reachable(s) && Faithful(t, s.procs.Keys)
    ensures var s3, s' := Reap(s, t), Cycle(s, t);
            var failed := id in s3.procs && id !in s'.procs;
            && s.log <= s3.log <= s'.log
            && EventCount(s'.log, id) == EventCount(s.log, id) + (if ExitSeen(s, id, t) then 1 else 0) + (if failed then 1 else 0)
            && (id in s.procs && id !in s'.procs <==> failed || (id in s.procs && Leaves(Seen(s, id, t))))
            && (forall i :: |s3.log| <= i < |s'.log| ==> s'.log[i].state.Failed? && s'.log[i].exitStatus.None?)
  {
    ReachableInvariant(s);
    CycleEvents(s, t, id);
  }

  lemma CycleEvents(s: State, t: Tick, id: ProcessId)
    requires Invariant(s) && Faithful(t, s.procs.Keys)
    ensures var s3, s' := Reap(s, t), Cycle(s, t);
            var failed := id in s3.procs && id !in s'.procs;
            && s.log <= s3.log <= s'.log
            && EventCount(s'.log, id) == EventCount(s.log, id) + (if ExitSeen(s, id, t) then 1 else 0) + (if failed then 1 else 0)
            && (id in s.procs && id !in s'.procs <==> failed || (id in s.procs && Leaves(Seen(s, id, t))))
            && (forall i :: |s3.log| <= i < |s'.log| ==> s'.log[i].state.Failed? && s'.log[i].exitStatus.None?)
  {
    ReapInvariant(s, t);
    var s3 := Reap(s, t);
    AfterReapAdvances(s3, t);
    assert AfterReap(s3, t) == Cycle(s, t);
    ReapLog(s, t);
    assert Keyed(s.procs) && Enumerates(t.order(AtPoll), s.procs.Keys);
    hide Invariant, Faithful, EventCount, PollEntry, FailFast, Waiters, Restarts, Reaped;
    EventsCountExits(s, t.order(AtPoll), t, id);
    CountsAppend(s.log, ReapEvents(s.procs, t.order(AtPoll), t), id);
  }

  /** The k-th step of the run is a cycle. */
  ghost predicate CycleAt(r: Run, k: nat) {
    k < |r.steps| && k < |r.states| && r.steps[k].DoCycle?
  }
}
