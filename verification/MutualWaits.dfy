/** Processes that wait for each other. */
module MutualWaits {
  import opened Basics
  import opened Processes
  import opened Reaper
  import opened Invariants
  import opened LaterPhases
  import opened WaitingPhase
  import opened Movement
  import opened Runs
  import opened Undisturbed
  import opened Starvation

  /** Only members of `d` can meet the reference. */
  ghost predicate OnlyWithin(procs: ProcessMap, d: set<ProcessId>, ref: DependencyRef) {
    match ref
    case OnId(x) => x in d
    case OnLabel(tag) => forall x :: x in procs && procs[x].tag == tag ==> x in d
  }

  /** `p` needs something that only members of `d` can provide. */
  ghost predicate Locked(procs: ProcessMap, d: set<ProcessId>, p: Process) {
    exists ref :: ref in p.config.dependsOn && OnlyWithin(procs, d, ref)
  }

  ghost predicate AllLocked(procs: ProcessMap, d: set<ProcessId>) {
    forall id :: id in d && id in procs ==> Locked(procs, d, procs[id])
  }

  ghost predicate AllIdle(procs: ProcessMap, d: set<ProcessId>) {
    forall id :: id in d && id in procs ==> Idle(procs[id])
  }

  /** Nobody locked has its dependencies met while the whole set is idle. */
  lemma LockedUnmet(procs: ProcessMap, d: set<ProcessId>, p: Process)
    requires AllIdle(procs, d) && Locked(procs, d, p)
    ensures !AllMet(p.config.dependsOn, RunningLabels(procs))
  {
    var ref :| ref in p.config.dependsOn && OnlyWithin(procs, d, ref);
    var i :| 0 <= i < |p.config.dependsOn| && p.config.dependsOn[i] == ref;
    var running := RunningLabels(procs);
    forall x | x in d && x in procs ensures x !in running {
      assert Idle(procs[x]);
    }
    assert !Met(p.config.dependsOn[i], running);
  }

  lemma LockedIn(procs: ProcessMap, d: set<ProcessId>, id: ProcessId)
    requires AllLocked(procs, d) && id in d && id in procs
    ensures Locked(procs, d, procs[id])
  {
  }

  lemma IdleIn(procs: ProcessMap, d: set<ProcessId>, id: ProcessId)
    requires AllIdle(procs, d) && id in d && id in procs
    ensures Idle(procs[id])
  {
  }

  // --------------------------------------------------------------- one cycle

  /** Phase 5 spawns no member. */
  lemma WaitersKeepIdle(s: State, t: Tick, d: set<ProcessId>, id: ProcessId)
    requires Invariant(s) && Faithful(t, s.procs.Keys) && AllIdle(s.procs, d) && AllLocked(s.procs, d) && id in d && id in s.procs
    ensures id in Waiters(s, t).procs ==> Idle(Waiters(s, t).procs[id])
  {
    WaitersShape(s, t);
    IdleIn(s.procs, d, id);
    LockedIn(s.procs, d, id);
    LockedUnmet(s.procs, d, s.procs[id]);
    hide Waiters, VerdictOn, Invariant, Faithful, AllMet, RunningLabels, Locked, AllLocked, AllIdle;
    if s.procs[id].state.Waiting? && VerdictOn(s.procs, id, t).decision.ToSpawn? { ToSpawnIsReady(s, t, id); }
  }

  /** Who leaves the map cannot provide anything any more. */
  lemma LockedShrinks(before: ProcessMap, after: ProcessMap, d: set<ProcessId>)
    requires AllLocked(before, d)
    requires forall x :: x in after ==> x in before && after[x].tag == before[x].tag && after[x].config == before[x].config
    ensures AllLocked(after, d)
  {
    forall id | id in d && id in after ensures Locked(after, d, after[id]) {
      assert Locked(before, d, before[id]);
      var ref :| ref in before[id].config.dependsOn && OnlyWithin(before, d, ref);
      assert OnlyWithin(after, d, ref);
    }
  }

  lemma LockedEvolves(s: State, s': State, d: set<ProcessId>)
    requires AllLocked(s.procs, d) && Evolves(s, s') && s'.procs.Keys <= s.procs.Keys
    ensures AllLocked(s'.procs, d)
  {
    hide AllLocked;
    LockedShrinks(s.procs, s'.procs, d);
  }

  lemma AllIdleFrom(before: ProcessMap, after: ProcessMap, d: set<ProcessId>)
    requires AllIdle(before, d) && forall id :: id in d && id in after ==> id in before && after[id] == before[id]
    ensures AllIdle(after, d)
  {
  }

  lemma CycleKeepsIdle(s: State, t: Tick, d: set<ProcessId>)
    requires Invariant(s) && Faithful(t, s.procs.Keys) && AllIdle(s.procs, d) && AllLocked(s.procs, d)
    ensures AllIdle(Cycle(s, t).procs, d)
  {
    hide *;
    var s3 := Reap(s, t);
    var s4 := Restarts(s3, t);
    AfterReapIs(s, t);
    ReapInvariant(s, t);
    RestartsAdvance(s3, t);
    AdvancesEvolves(s3, s4);
    FaithfulShrinks(t, s3.procs.Keys, s4.procs.Keys);
    InvariantStructural(s);
    EvolvesTransitive(s, s3, s4);
    forall id | id in d && id in s4.procs ensures id in s.procs && s4.procs[id] == s.procs[id] {
      IdleIn(s.procs, d, id);
      IdleUntouched(s, t, id);
    }
    AllIdleFrom(s.procs, s4.procs, d);
    LockedEvolves(s, s4, d);
    LaterKeepIdle(s4, t, d);
  }

  lemma LaterKeepIdle(s: State, t: Tick, d: set<ProcessId>)
    requires Invariant(s) && Faithful(t, s.procs.Keys) && AllIdle(s.procs, d) && AllLocked(s.procs, d)
    ensures AllIdle(FailFast(Waiters(s, t), t.order(AtFailFast)).procs, d)
  {
    LaterEvolves(s, t);
    hide Invariant, Faithful, AllLocked, Waiters, FailFast, Evolves, Idle;
    forall id | id in d && id in FailFast(Waiters(s, t), t.order(AtFailFast)).procs
      ensures Idle(FailFast(Waiters(s, t), t.order(AtFailFast)).procs[id])
    {
      WaitersKeepIdle(s, t, d, id);
    }
  }

  // ------------------------------------------------------------ along a run

  /** The k-th step begins with each member locked, and restarts none by hand. */
  ghost predicate LockedAt(r: Run, k: nat, d: set<ProcessId>) {
    && k < |r.states| && AllLocked(r.states[k].procs, d)
    && forall id :: id in d ==> !ForcedAt(r, k, id)
  }

  lemma LockedIs(r: Run, k: nat, d: set<ProcessId>)
    requires k < |r.steps| && LockedAt(r, k, d)
    ensures AllLocked(r.states[k].procs, d) && forall id :: id in d ==> !Forces(r.states[k], r.steps[k], id)
  {
    hide Forces, AllLocked;
  }

  lemma CallKeepsAllIdle(s: State, step: Step, d: set<ProcessId>)
    requires Invariant(s) && Legal(s, step) && !step.DoCycle? && AllIdle(s.procs, d)
    requires forall id :: id in d ==> !Forces(s, step, id)
    requires forall id :: id in d ==> id < s.nextId
    ensures AllIdle(Apply(s, step).procs, d)
  {
    hide Invariant, Legal, Forces, Idle, Apply;
    StepKeeps(s, step);
    forall id | id in d && id in Apply(s, step).procs ensures Idle(Apply(s, step).procs[id]) {
      assert id in s.procs;
      CallKeepsIdle(s, step, id);
    }
  }

  lemma KnownOn(s: State, s': State, d: set<ProcessId>)
    requires Evolves(s, s') && forall id :: id in d ==> id < s.nextId
    ensures forall id :: id in d ==> id < s'.nextId
  {
  }

  /** Waiting for each other is for good: in every run, as long as no member of a set is
      restarted by hand and each needs something that only members can provide, none of
      them is ever spawned, whatever else happens. */
  lemma MutualWaitLasts(r: Run, m: nat, n: nat, d: set<ProcessId>)
    requires IsRun(r) && m <= n < |r.states|
    requires AllIdle(r.states[m].procs, d) && forall id :: id in d ==> id < r.states[m].nextId
    requires forall k :: m <= k < n ==> LockedAt(r, k, d)
    ensures AllIdle(r.states[n].procs, d)
    decreases n
  {
    hide *;
    if m < n {
      MutualWaitLasts(r, m, n - 1, d);
      LastStep(r, n);
      RunInvariant(r, n - 1);
      RunEvolves(r, m, n - 1);
      KnownOn(r.states[m], r.states[n - 1], d);
      assert LockedAt(r, n - 1, d);
      LockedIs(r, n - 1, d);
      var s, step := r.states[n - 1], r.steps[n - 1];
      if step.DoCycle? {
        CycleLegal(s, step);
        CycleKeepsIdle(s, step.tick, d);
      } else {
        CallKeepsAllIdle(s, step, d);
      }
    }
  }
}
