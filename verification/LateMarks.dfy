/** The deadline of a blocking start that finds the process up. */
module LateMarks {
  import opened Basics
  import opened Processes
  import opened Resolution
  import opened Reaper
  import opened Manager
  import opened Invariants
  import opened ReapPhase
  import opened LaterPhases
  import opened FailFastPhase
  import opened Movement
  import opened Cascades
  import opened Runs

  /** Failed, it stays Failed through phases 1 to 5 unless its child is seen to exit. */
  lemma FailedStays(s: State, t: Tick, id: ProcessId)
    requires Invariant(s) && Faithful(t, s.procs.Keys) && id in s.procs && s.procs[id].state.Failed? && !ExitSeen(s, id, t)
    ensures var s5 := Waiters(Restarts(Reap(s, t), t), t); id in s5.procs && s5.procs[id].state.Failed?
  {
    FailedReaped(s, t, id);
    ReapInvariant(s, t);
    hide ExitSeen, Reap;
    LaterUntouched(Reap(s, t), t, id);
  }

  lemma FailedReaped(s: State, t: Tick, id: ProcessId)
    requires id in s.procs && s.procs[id].state.Failed? && !ExitSeen(s, id, t)
    ensures id in Reap(s, t).procs && Reap(s, t).procs[id] == s.procs[id]
  {
  }

  /** Phases 4 and 5 at most poll whoever is neither due for a restart nor Waiting. */
  lemma LaterUntouched(s: State, t: Tick, id: ProcessId)
    requires Invariant(s) && Faithful(t, s.procs.Keys) && id in s.procs
    requires !s.procs[id].state.Restarting? && !s.procs[id].state.Waiting?
    ensures var s5 := Waiters(Restarts(s, t), t); id in s5.procs && PolledInto(s.procs[id], s5.procs[id])
  {
    NotDuePolled(s, t, id);
    RestartsAdvance(s, t);
    FaithfulShrinks(t, s.procs.Keys, Restarts(s, t).procs.Keys);
    WaitersShape(Restarts(s, t), t);
    hide Restarts, Waiters, VerdictOn, Invariant, Faithful, DueForRestart;
  }

  lemma RunningReaped(s: State, t: Tick, id: ProcessId)
    requires Reachable(s) && Faithful(t, s.procs.Keys) && id in s.procs && s.procs[id].state.Running?
    requires !ExitSeen(s, id, t) && !GoesDown(s, id, t)
    ensures id in Reap(s, t).procs && Reap(s, t).procs[id].state.Running?
    ensures Reap(s, t).procs[id].resolvedDeps == s.procs[id].resolvedDeps
  {
    CascadeExact(s, id, t);
    ReachableInvariant(s);
    assert WellFormed(s.procs[id]);
    ReapedShape(s, id, t);
    hide GoesDown, ExitSeen, Reachable, Invariant, Faithful, WellFormed, Seen, Reaped;
  }

  /** `d` is Running and bound to `id`, which is Failed, and the cycle sees neither exit
      nor takes `d` down with a group. */
  ghost predicate LeansOnFailed(s: State, t: Tick, id: ProcessId, d: ProcessId) {
    && id in s.procs && s.procs[id].state.Failed? && !ExitSeen(s, id, t)
    && d in s.procs && s.procs[d].state.Running? && id in s.procs[d].resolvedDeps
    && !ExitSeen(s, d, t) && !GoesDown(s, d, t)
  }

  /** A tracked process that is Failed takes down, in the next cycle, every Running process
      bound to it, except those whose own end this cycle sees. */
  lemma FailedTakesDown(s: State, t: Tick, id: ProcessId, d: ProcessId)
    requires Reachable(s) && Faithful(t, s.procs.Keys) && LeansOnFailed(s, t, id, d)
    ensures d in Cycle(s, t).procs ==> Cycle(s, t).procs[d].state.IsTerminated()
  {
    var s3 := Reap(s, t);
    var s5 := Waiters(Restarts(s3, t), t);
    var order := t.order(AtFailFast);
    ReachableInvariant(s);
    ReapInvariant(s, t);
    FailedStays(s, t, id);
    RunningReaped(s, t, d);
    LaterUntouched(s3, t, d);
    LaterKeys(s3, t);
    assert Enumerates(order, s5.procs.Keys);
    AfterReapIs(s, t);
    hide Reap, Restarts, Waiters, Cycle, FailFast, Reachable, Invariant, Faithful, ExitSeen, GoesDown;
    FailFastKeepsEntries(s5, order);
    if s5.procs[d].state.Running? {
      BoundToFailed(s5.procs, d, id);
      TerminalGoes(s5, order, d);
    }
  }

  lemma LaterKeys(s: State, t: Tick)
    requires Invariant(s) && Faithful(t, s.procs.Keys)
    ensures Waiters(Restarts(s, t), t).procs.Keys <= s.procs.Keys
  {
    hide *;
    RestartsAdvance(s, t);
    AdvancesEvolves(s, Restarts(s, t));
    FaithfulShrinks(t, s.procs.Keys, Restarts(s, t).procs.Keys);
    WaitersTracked(Restarts(s, t), t);
  }

  lemma BoundToFailed(procs: ProcessMap, d: ProcessId, id: ProcessId)
    requires d in procs && id in procs && procs[id].state.Failed? && id in procs[d].resolvedDeps
    ensures HasTerminal(procs, procs[d].resolvedDeps)
  {
  }

  lemma TerminalGoes(s: State, order: seq<ProcessId>, d: ProcessId)
    requires Enumerates(order, s.procs.Keys) && d in s.procs && s.procs[d].state.Running? && HasTerminal(s.procs, s.procs[d].resolvedDeps)
    ensures d !in FailFast(s, order).procs
  {
    RunningWithDepsAreRunning(s.procs, order);
    FailDependentsThorough(s, RunningWithDeps(s.procs, order));
  }

  /** The deadline marks the process whatever it has become meanwhile: come up just before,
      it is Failed with its child alive, and in the next cycle that does not see that child
      exit every Running process bound to it fails. */
  lemma LateMarkTakesDown(s: State, t: Tick, id: ProcessId, d: ProcessId)
    requires Reachable(s) && id in s.procs && (s.procs[id].state.Starting? || s.procs[id].state.Running?)
    ensures var s' := DependencyTimeout(s, id);
            && s'.procs[id].state.Failed? && s'.procs[id].child.Some?
            && (Faithful(t, s.procs.Keys) && LeansOnFailed(s', t, id, d) && d in Cycle(s', t).procs ==>
                  Cycle(s', t).procs[d].state.IsTerminated())
  {
    var s' := DependencyTimeout(s, id);
    assert WellFormed(s.procs[id]) by { ReachableInvariant(s); }
    assert s'.procs.Keys == s.procs.Keys;
    hide Reachable, Faithful, LeansOnFailed, Cycle, WellFormed;
    ReachableStep(s, DoDependencyTimeout(id));
    if Faithful(t, s.procs.Keys) && LeansOnFailed(s', t, id, d) { FailedTakesDown(s', t, id, d); }
  }
}
