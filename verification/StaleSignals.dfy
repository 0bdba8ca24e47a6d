/** Signals to pids whose process is gone. */
module StaleSignals {
  import opened Basics
  import opened Processes
  import opened Reaper
  import opened Manager
  import opened Invariants
  import opened ReapPhase
  import opened FailFastPhase
  import opened Cascades
  import opened Runs
  import opened GracePeriods
  import opened CascadeStop
  import opened ChildHandles

  /** The processes whose pids a step sends its first signal to: those that a stop takes
      down, the members of a batch that have a pid, or the cascade targets of a cycle. */
  ghost function SignalledBy(s: State, step: Step): set<ProcessId> {
    match step
    case DoStop(x, e) => TakenDown(s.procs, Stop(s, x, e).state.procs)
    case DoRestart(x, e) =>
      if x in s.procs && s.procs[x].state.Restarting? then {} else TakenDown(s.procs, Stop(s, x, e.stop).state.procs)
    case DoStopMany(ids, _) => Signalled(s.procs, ids)
    case DoCycle(t) => set id | id in s.procs && IsTargeted(s.procs, id, t) && s.procs[id].pid != 0
    case _ => {}
  }

  /** The n-th step signals `id` although its child is gone: it was before, or the very
      cycle that signals it has seen it exit. */
  ghost predicate SignalsGone(r: Run, n: nat, id: ProcessId) {
    && n < |r.steps| && n < |r.states| && id in SignalledBy(r.states[n], r.steps[n])
    && (ChildGone(r, n, id) || (r.steps[n].DoCycle? && ExitSeen(r.states[n], id, r.steps[n].tick)))
  }

  /** A pid without a live process behind it, as far as pid, state and the state in which
      it was marked Failed tell. */
  ghost predicate StalePid(r: Run, n: nat, id: ProcessId) {
    && n < |r.states| && id in r.states[n].procs && r.states[n].procs[id].pid != 0
    && var state := r.states[n].procs[id].state;
       state.Waiting? || state.Restarting? || state.Stopped? || state.Crashed? || (state.Failed? && FailedWhileDown(r, n, id))
  }

  lemma StaleIsGone(r: Run, n: nat, id: ProcessId)
    requires IsRun(r) && n < |r.states| && id in r.states[n].procs
    ensures ChildGone(r, n, id) <==> StalePid(r, n, id)
    ensures StalePid(r, n, id) ==> !r.states[n].procs[id].state.Running? && !r.states[n].procs[id].state.Starting?
  {
    GoneExact(r, n, id);
    hide ChildGone, FailedWhileDown, IsRun;
  }

  /** The cascade targets of a cycle are Starting or Running and have a pid. */
  lemma TargetsAreUp(s: State, t: Tick, id: ProcessId)
    requires Invariant(s) && id in s.procs
    ensures GoesDown(s, id, t) <==> IsTargeted(s.procs, id, t) && s.procs[id].pid != 0
    ensures GoesDown(s, id, t) ==> s.procs[id].state.Starting? || s.procs[id].state.Running?
  {
    InvariantKeyed(s);
    TargetsExact(s, id, t);
    assert WellFormed(s.procs[id]);
    hide IsTargeted, IsOrigin;
  }

  /** Exactly when a signal goes to a pid whose process is gone. `stop` and a restart by
      hand: to whom they take down Stopped, Crashed, or Failed since it was down. A batch
      stop: to these and to whoever has a pid and is Waiting or in a backoff wait. A
      cycle: to the cascade targets whose exit it has just seen. */
  lemma StaleSignalExact(r: Run, n: nat, id: ProcessId)
    requires IsRun(r) && n < |r.steps|
    ensures SignalsGone(r, n, id) <==>
              && n < |r.states| && id in r.states[n].procs
              && var s := r.states[n];
                 var p := s.procs[id];
                 match r.steps[n]
                 case DoStop(x, e) => id !in Stop(s, x, e).state.procs && StalePid(r, n, id) && !p.state.Waiting? && !p.state.Restarting?
                 case DoRestart(x, e) =>
                   && !(x in s.procs && s.procs[x].state.Restarting?)
                   && id !in Stop(s, x, e.stop).state.procs && StalePid(r, n, id) && !p.state.Waiting? && !p.state.Restarting?
                 case DoStopMany(ids, _) => id in ids && StalePid(r, n, id)
                 case DoCycle(t) => GoesDown(s, id, t) && ExitSeen(s, id, t)
                 case _ => false
  {
    assert |r.states| == |r.steps| + 1;
    if id in r.states[n].procs {
      StaleIsGone(r, n, id);
      RunInvariant(r, n);
      if r.steps[n].DoCycle? { TargetsAreUp(r.states[n], r.steps[n].tick, id); }
    }
    hide IsRun, ChildGone, FailedWhileDown, Invariant, Stop, GoesDown, IsTargeted, ExitSeen;
  }

  /** The fail-fast phase signals nobody whose child is gone: whom it removes it finds Running. */
  lemma FailFastSignalsLive(s: State, order: seq<ProcessId>, id: ProcessId)
    requires Invariant(s) && id in s.procs && id !in FailFast(s, order).procs
    ensures s.procs[id].state.Running? && s.procs[id].child.Some? && s.procs[id].pid != 0
  {
    RunningWithDepsAreRunning(s.procs, order);
    FailDependentsThorough(s, RunningWithDeps(s.procs, order));
    assert WellFormed(s.procs[id]);
  }
}
