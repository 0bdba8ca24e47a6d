/** What a step leaves alone: a call, the entries it does not name, their cascade flags and
    bindings; a cycle, whoever is idle; and what this means along a run. */
module Undisturbed {
  import opened Basics
  import opened Processes
  import opened Resolution
  import opened Reaper
  import opened Manager
  import opened Invariants
  import opened LaterPhases
  import opened CascadeStop
  import opened Calls
  import opened Runs
  import ReapPhase

  /** The call acts on `id` itself: a batch stop, a restart or a dependency timeout of it. */
  ghost predicate Names(step: Step, id: ProcessId) {
    match step
    case DoStopMany(ids, _) => id in ids
    case DoRestart(x, _) => x == id
    case DoDependencyTimeout(x) => x == id
    case _ => false
  }

  lemma StartKeepsOthers(s: State, tag: Label, config: ProcessConfig, e: StartEnv, id: ProcessId)
    requires Invariant(s) && id in s.procs
    ensures var s' := Start(s, tag, config, e).state;
            id in s'.procs && PolledInto(s.procs[id], s'.procs[id])
  {
    assert PolledInto(s.procs[id], s.procs[id]);
    hide *;
    InvariantStructural(s);
    StartMap(s, tag, config, e);
    PolledKeepsIdentity(s.procs, StartPolls(s.(nextId := s.nextId + 1), config, e).procs);
  }

  lemma StartIsSilent(s: State, tag: Label, config: ProcessConfig, e: StartEnv)
    ensures Start(s, tag, config, e).state.log == s.log
  {
    hide Rejected, Bindings, PollDeps;
  }

  lemma StopKeepsOthers(s: State, x: ProcessId, e: StopEnv, id: ProcessId)
    requires Invariant(s) && id in s.procs
    ensures var s' := Stop(s, x, e).state;
            id in s'.procs ==> s'.procs[id] == s.procs[id] && EventCount(s'.log, id) == EventCount(s.log, id)
  {
    InvariantIsSound(s);
    StopKeeps(s, x, e);
    hide Stop, Sound, Invariant, EventCount;
  }

  lemma RestartKeepsOthers(s: State, x: ProcessId, e: RestartEnv, id: ProcessId)
    requires Invariant(s) && id in s.procs && id != x
    ensures var s' := Restart(s, x, e).state;
            id in s'.procs ==> s'.procs[id] == s.procs[id] && EventCount(s'.log, id) == EventCount(s.log, id)
  {
    InvariantStructural(s);
    if x in s.procs {
      assert s.procs[x].id == x;
      StopKeepsOthers(s, x, e.stop, id);
      if !s.procs[x].state.Restarting? { RestartShape(s, x, e); }
    }
    hide Stop, Structural, Invariant, EventCount, RunningLabels;
  }

  /** A call that does not name `id` at most polls it or, by a cascade, removes it. */
  lemma UnnamedPolls(s: State, step: Step, id: ProcessId)
    requires Invariant(s) && Legal(s, step) && !step.DoCycle? && !Names(step, id) && id in s.procs
    ensures var s' := Apply(s, step);
            id in s'.procs ==> PolledInto(s.procs[id], s'.procs[id]) && EventCount(s'.log, id) == EventCount(s.log, id)
  {
    assert PolledInto(s.procs[id], s.procs[id]);
    hide Invariant, Start, Stop, Restart, EventCount, PolledInto;
    match step {
      case DoStart(tag, config, e) =>
        StartKeepsOthers(s, tag, config, e, id);
        StartIsSilent(s, tag, config, e);
      case DoStop(x, e) => StopKeepsOthers(s, x, e, id);
      case DoStopMany(ids, kill) =>
      case DoRestart(x, e) => RestartKeepsOthers(s, x, e, id);
      case DoDependencyTimeout(x) =>
      case DoObserve(x, poll) =>
        if x == id { PolledIntoStep(s.procs[id], s.procs[id], poll); }
    }
  }

  lemma PolledInert(p: Process, q: Process)
    requires PolledInto(p, q) && !p.state.Starting? && !p.state.Running?
    ensures q == p
  {
  }

  /** Such a call leaves a process that is being stopped, or waits out a backoff, as it is. */
  lemma UnnamedKeeps(s: State, step: Step, id: ProcessId)
    requires Invariant(s) && Legal(s, step) && !step.DoCycle? && !Names(step, id)
    requires id in s.procs && (s.procs[id].state.Stopping? || s.procs[id].state.Restarting?)
    ensures var s' := Apply(s, step);
            id in s'.procs ==> s'.procs[id] == s.procs[id] && EventCount(s'.log, id) == EventCount(s.log, id)
  {
    hide *;
    UnnamedPolls(s, step, id);
    if id in Apply(s, step).procs { PolledInert(s.procs[id], Apply(s, step).procs[id]); }
  }

  /** The step restarts `id` by hand while it has, or may have, a child. */
  ghost predicate Forces(s: State, step: Step, id: ProcessId) {
    step.DoRestart? && step.restarted == id && id in s.procs && !s.procs[id].state.Restarting?
  }

  /** Cascade flag and bindings are the same, and nobody has begun to wait. */
  ghost predicate KeepsMarks(p: Process, q: Process) {
    q.cascadeFlag == p.cascadeFlag && q.resolvedDeps == p.resolvedDeps && (q.state.Waiting? ==> p.state.Waiting?)
  }

  lemma PolledKeepsMarks(p: Process, q: Process)
    requires PolledInto(p, q)
    ensures KeepsMarks(p, q)
  {
  }

  lemma RestartKeepsMarks(s: State, id: ProcessId, e: RestartEnv)
    requires Invariant(s) && id in s.procs && s.procs[id].state.Restarting?
    ensures var s' := Restart(s, id, e).state; id in s'.procs ==> KeepsMarks(s.procs[id], s'.procs[id])
  {
    InvariantStructural(s);
    assert s.procs[id].id == id;
    hide Invariant, Structural, RunningLabels;
  }

  lemma BatchKeepsMarks(s: State, ids: seq<ProcessId>, kill: ProcessId -> SignalResult, id: ProcessId)
    requires id in s.procs
    ensures var s' := StopMany(s, ids, kill); id in s'.procs ==> KeepsMarks(s.procs[id], s'.procs[id])
  {
    hide Unkillable, DroppedBy;
  }

  /** Calls keep the cascade flag and the bindings of whoever stays tracked, except for
      a restart by hand out of another state than the backoff wait. */
  lemma CallKeepsMarks(s: State, step: Step, id: ProcessId)
    requires Invariant(s) && Legal(s, step) && !step.DoCycle? && !Forces(s, step, id) && id in s.procs
    ensures var s' := Apply(s, step); id in s'.procs ==> KeepsMarks(s.procs[id], s'.procs[id])
  {
    if !Names(step, id) {
      UnnamedPolls(s, step, id);
      if id in Apply(s, step).procs { PolledKeepsMarks(s.procs[id], Apply(s, step).procs[id]); }
    } else if step.DoRestart? {
      RestartKeepsMarks(s, id, step.restart);
    } else if step.DoStopMany? {
      BatchKeepsMarks(s, step.targets, step.kill, id);
    }
    hide Invariant, Start, Stop, Restart, StopMany, EventCount, PolledInto;
  }

  /** Such a restart starts from scratch. */
  lemma ForcedStartsOver(s: State, step: Step, id: ProcessId)
    requires Invariant(s) && Forces(s, step, id)
    ensures var s' := Apply(s, step);
            id in s'.procs ==> !s'.procs[id].cascadeFlag && s'.procs[id].resolvedDeps == [] && s'.procs[id].state.Starting?
  {
    InvariantStructural(s);
    RestartShape(s, id, step.restart);
    hide Invariant, Structural, Stop, RunningLabels, WellFormed;
  }

  // -------------------------------------------------------- who has no child

  /** Waiting, or marked Failed while it had no child. */
  ghost predicate Idle(p: Process) {
    p.child.None? && (p.state.Waiting? || p.state.Failed?)
  }

  lemma WaitingIsIdle(s: State, id: ProcessId)
    requires Invariant(s) && id in s.procs && s.procs[id].state.Waiting?
    ensures Idle(s.procs[id])
  {
    assert WellFormed(s.procs[id]);
  }

  /** Phases 1 to 4 leave idle processes alone. */
  lemma IdleUntouched(s: State, t: Tick, id: ProcessId)
    requires Invariant(s) && Faithful(t, s.procs.Keys) && id in s.procs && Idle(s.procs[id])
    ensures var s4 := Restarts(Reap(s, t), t); id in s4.procs && s4.procs[id] == s.procs[id]
  {
    var s3 := Reap(s, t);
    ReapInvariant(s, t);
    IdleReaped(s, t, id);
    hide Reap, Restarts, Invariant, Faithful;
    NotDuePolled(s3, t, id);
  }

  lemma IdleReaped(s: State, t: Tick, id: ProcessId)
    requires id in s.procs && Idle(s.procs[id])
    ensures id in Reap(s, t).procs && Reap(s, t).procs[id] == s.procs[id]
  {
  }

  /** Calls leave idle processes idle, except for a restart by hand. */
  lemma CallKeepsIdle(s: State, step: Step, id: ProcessId)
    requires Invariant(s) && Legal(s, step) && !step.DoCycle? && !Forces(s, step, id)
    requires id in s.procs && Idle(s.procs[id])
    ensures id in Apply(s, step).procs ==> Idle(Apply(s, step).procs[id])
  {
    if !Names(step, id) {
      UnnamedPolls(s, step, id);
      if id in Apply(s, step).procs { PolledInert(s.procs[id], Apply(s, step).procs[id]); }
    }
    hide Invariant, Start, Stop, Restart, EventCount, PolledInto, Unkillable, DroppedBy;
  }

  // ------------------------------------------------------------ along a run

  /** The k-th step of the run is a call that names `id`. */
  ghost predicate NamedAt(r: Run, k: nat, id: ProcessId) {
    k < |r.steps| && Names(r.steps[k], id)
  }

  /** The k-th step is a cycle that sees `id` exit. */
  ghost predicate SeenAt(r: Run, k: nat, id: ProcessId) {
    CycleAt(r, k) && ReapPhase.ExitSeen(r.states[k], id, r.steps[k].tick)
  }

  /** A process tracked at two moments of a run is tracked in between. */
  lemma TrackedBetween(r: Run, m: nat, k: nat, n: nat, id: ProcessId)
    requires IsRun(r) && m <= k <= n < |r.states| && id in r.states[m].procs && id in r.states[n].procs
    ensures id in r.states[k].procs
  {
    hide *;
    RunInvariant(r, m);
    InvariantStructural(r.states[m]);
    RunEvolves(r, m, k);
    BelowNext(r.states[m], r.states[k], id);
    if id !in r.states[k].procs { GoneForGood(r, k, n, id); }
  }

  lemma BelowNext(s: State, s': State, id: ProcessId)
    requires Structural(s) && Evolves(s, s') && id in s.procs
    ensures id < s'.nextId
  {
  }

  lemma UnnamedAt(r: Run, k: nat, id: ProcessId)
    requires k < |r.steps| && !NamedAt(r, k, id)
    ensures !Names(r.steps[k], id)
  {
  }

  lemma SeenIs(r: Run, k: nat, id: ProcessId)
    requires k < |r.steps| && k < |r.states|
    ensures SeenAt(r, k, id) <==> r.steps[k].DoCycle? && ReapPhase.ExitSeen(r.states[k], id, r.steps[k].tick)
    ensures SeenAt(r, k, id) ==> id in r.states[k].procs
  {
  }

  /** The k-th step restarts `id` by hand out of another state than its backoff wait. */
  ghost predicate ForcedAt(r: Run, k: nat, id: ProcessId) {
    k < |r.steps| && k < |r.states| && Forces(r.states[k], r.steps[k], id)
  }

  lemma ForcedIs(r: Run, k: nat, id: ProcessId)
    requires k < |r.steps| && k < |r.states|
    ensures ForcedAt(r, k, id) <==> Forces(r.states[k], r.steps[k], id)
    ensures ForcedAt(r, k, id) ==> !r.steps[k].DoCycle? && id in r.states[k].procs
  {
  }

  lemma CycleLegal(s: State, step: Step)
    requires Legal(s, step) && step.DoCycle?
    ensures Faithful(step.tick, s.procs.Keys) && Apply(s, step) == Cycle(s, step.tick)
  {
    hide Faithful, Cycle;
  }
}
