/** Waiting processes that phase 5 can never spawn. */
module Starvation {
  import opened Basics
  import opened Processes
  import opened Resolution
  import opened Reaper
  import opened Invariants
  import opened LaterPhases
  import opened WaitingPhase
  import opened FailFastPhase
  import opened Movement
  import opened Runs
  import opened Undisturbed
  import opened Cascades
  import opened LabelBinding
  import opened BindingCounts

  // ------------------------------------------------------- verdict and phase

  /** The exact condition on one verdict, whatever `p` is bound to: it is starved
      afterwards if and only if what it is bound to is less than what counts as resolved
      together with its overlaps, and it does not yet have as many bindings as references;
      and then it is not spawned. */
  lemma VerdictStarves(procs: ProcessMap, p: Process, order: seq<ProcessId>, at: Time)
    requires p.state.Waiting? && Enumerates(order, procs.Keys)
    ensures var v, bound, deps := Judge(procs, p, order, at), p.resolvedDeps, p.config.dependsOn;
            var q := p.(resolvedDeps := v.resolvedDeps);
            && (Starved(procs, q) <==>
                  if p.waitingSince.Some? && Elapsed(p.waitingSince.value, at) >= p.config.dependencyTimeout then Starved(procs, p)
                  else |bound| != |deps| && |bound| < ResolvedCount(procs, bound, deps) + OverlapCount(procs, bound, deps, deps))
            && (Starved(procs, q) ==> !v.decision.ToSpawn?)
  {
    var bound, deps := p.resolvedDeps, p.config.dependsOn;
    var all := bound + NewlyResolved(procs, order, bound, deps);
    CountLeaks(procs, order, bound, deps, all);
    LeakCountIs(procs, order, bound, deps, deps);
    ResolvedCountFull(procs, bound, deps);
    ResolvedCountFull(procs, all, deps);
    JudgedTo(procs, p, order, at);
    hide Judge, NewlyResolved, ResolvedCount, LeakCount, OverlapCount, Enumerates;
  }

  /** The bindings after a verdict, and how many there are if it is to spawn. */
  lemma JudgedTo(procs: ProcessMap, p: Process, order: seq<ProcessId>, at: Time)
    ensures var v, bound, deps := Judge(procs, p, order, at), p.resolvedDeps, p.config.dependsOn;
            && v.resolvedDeps == (if TimedOut(p, at) || |bound| == |deps| then bound
                                  else bound + NewlyResolved(procs, order, bound, deps))
            && (v.decision.ToSpawn? ==> |v.resolvedDeps| == |deps|)
  {
    hide NewlyResolved, TimedOut, AllRunning, HasTerminal;
    assert p.resolvedDeps + [] == p.resolvedDeps;
  }

  /** Bound to nothing dead, it is starved exactly if it was or has an overlap. */
  lemma SparingStarves(procs: ProcessMap, p: Process, order: seq<ProcessId>, at: Time)
    requires p.state.Waiting? && |p.resolvedDeps| <= ResolvedCount(procs, p.resolvedDeps, p.config.dependsOn)
    requires Enumerates(order, procs.Keys) && !TimedOut(p, at)
    ensures var v := Judge(procs, p, order, at);
            && (Starved(procs, p.(resolvedDeps := v.resolvedDeps)) <==> Starved(procs, p) || HasOverlap(procs, p))
            && (Starved(procs, p.(resolvedDeps := v.resolvedDeps)) ==> !v.decision.ToSpawn?)
  {
    var bound, deps := p.resolvedDeps, p.config.dependsOn;
    var all := bound + NewlyResolved(procs, order, bound, deps);
    VerdictStarves(procs, p, order, at);
    HasOverlapIs(procs, p);
    CountLeaks(procs, order, bound, deps, all);
    LeakCountIs(procs, order, bound, deps, deps);
    ResolvedCountFull(procs, bound, deps);
    ResolvedCountFull(procs, all, deps);
    hide Judge, NewlyResolved, ResolvedCount, LeakCount, OverlapCount, HasOverlap, Enumerates, TimedOut;
  }

  /** The exact condition on phase 5 as a whole, for every Waiting process that survives it. */
  lemma StarvesExactly(s: State, t: Tick, id: ProcessId)
    requires Invariant(s) && Faithful(t, s.procs.Keys) && id in s.procs && s.procs[id].state.Waiting?
    ensures var bound, deps := s.procs[id].resolvedDeps, s.procs[id].config.dependsOn;
            id in Waiters(s, t).procs ==>
              (Starved(s.procs, Waiters(s, t).procs[id]) <==>
                 |bound| != |deps| && |bound| < ResolvedCount(s.procs, bound, deps) + OverlapCount(s.procs, bound, deps, deps))
  {
    var p := s.procs[id];
    WaitersShape(s, t);
    assert Enumerates(t.order(AtLookup(id)), s.procs.Keys);
    VerdictStarves(s.procs, p, t.order(AtLookup(id)), t.clock(OnTimeoutCheck(id)));
    assert TimedOut(p, t.clock(OnTimeoutCheck(id))) ==> VerdictOn(s.procs, id, t).decision.ToFail?;
    hide Waiters, Judge, ResolvedCount, Invariant, Faithful, OverlapCount, TimedOut;
  }

  // ------------------------------------------------------------- for good

  ghost predicate AllIn(procs: ProcessMap, bound: seq<ProcessId>) {
    forall i :: 0 <= i < |bound| ==> bound[i] in procs
  }

  /** `id` and everything it is bound to are tracked. */
  ghost predicate Attached(s: State, id: ProcessId) {
    id in s.procs && AllIn(s.procs, s.procs[id].resolvedDeps)
  }

  lemma StarvedOn(s: State, s': State, p: Process)
    requires Evolves(s, s') && Starved(s.procs, p) && AllIn(s'.procs, p.resolvedDeps)
    ensures Starved(s'.procs, p)
  {
    ResolvedCountMonotone(s.procs, p.resolvedDeps, s'.procs, p.resolvedDeps, p.config.dependsOn);
  }

  lemma VerdictStaysStarved(s: State, t: Tick, id: ProcessId)
    requires Invariant(s) && Faithful(t, s.procs.Keys) && id in s.procs && Starved(s.procs, s.procs[id])
    requires id in Waiters(s, t).procs
    ensures Starved(s.procs, Waiters(s, t).procs[id]) && s.procs[id].resolvedDeps <= Waiters(s, t).procs[id].resolvedDeps
    ensures Waiters(s, t).procs[id].config == s.procs[id].config
  {
    var p := s.procs[id];
    WaitersShape(s, t);
    assert !TimedOut(p, t.clock(OnTimeoutCheck(id)));
    assert Enumerates(t.order(AtLookup(id)), s.procs.Keys);
    SparingStarves(s.procs, p, t.order(AtLookup(id)), t.clock(OnTimeoutCheck(id)));
    JudgedBinding(s.procs, p, t.order(AtLookup(id)), t.clock(OnTimeoutCheck(id)));
    hide Waiters, Judge, ResolvedCount, Invariant, Faithful, HasOverlap, TimedOut;
  }

  lemma StillWaiting(procs: ProcessMap, p: Process)
    requires Starved(procs, p)
    ensures p.state.Waiting?
  {
  }

  /** Phases 5 and 6 only evolve the state, and phase 6 only removes entries. */
  lemma LaterEvolves(s: State, t: Tick)
    requires Invariant(s) && Faithful(t, s.procs.Keys)
    ensures var s5 := Waiters(s, t);
            var s' := FailFast(s5, t.order(AtFailFast));
            && Evolves(s, s') && s'.procs.Keys <= s.procs.Keys
            && forall id :: id in s'.procs ==> id in s5.procs && s'.procs[id] == s5.procs[id]
  {
    var s5 := Waiters(s, t);
    WaitersAdvance(s, t);
    FailFastKeepsEntries(s5, t.order(AtFailFast));
    FailDependentsAdvance(s5, RunningWithDeps(s5.procs, t.order(AtFailFast)));
    InvariantStructural(s);
    hide Invariant, Advances, Faithful, Waiters, FailDependents, RunningWithDeps, WellFormed;
    AdvancesTransitive(s, s5, FailFast(s5, t.order(AtFailFast)));
    AdvancesEvolves(s, FailFast(s5, t.order(AtFailFast)));
  }

  lemma LaterStarves(s: State, t: Tick, id: ProcessId)
    requires Invariant(s) && Faithful(t, s.procs.Keys) && id in s.procs && Starved(s.procs, s.procs[id])
    ensures var s' := FailFast(Waiters(s, t), t.order(AtFailFast)); Attached(s', id) ==> Starved(s'.procs, s'.procs[id])
  {
    LaterEvolves(s, t);
    hide Invariant, Faithful, Waiters, FailFast, Starved, Evolves;
    var s' := FailFast(Waiters(s, t), t.order(AtFailFast));
    if Attached(s', id) {
      VerdictStaysStarved(s, t, id);
      StarvedOn(s, s', s'.procs[id]);
    }
  }

  /** What a Waiting process is bound to before phase 5 it is bound to afterwards. */
  lemma LaterAttached(s: State, t: Tick, id: ProcessId)
    requires Invariant(s) && Faithful(t, s.procs.Keys) && id in s.procs && s.procs[id].state.Waiting?
    ensures Attached(FailFast(Waiters(s, t), t.order(AtFailFast)), id) ==> AllIn(s.procs, s.procs[id].resolvedDeps)
  {
    LaterEvolves(s, t);
    WaitersExtend(s, t, id);
    var s' := FailFast(Waiters(s, t), t.order(AtFailFast));
    hide Invariant, Faithful, Waiters, FailFast;
    if Attached(s', id) {
      assert forall i :: 0 <= i < |s.procs[id].resolvedDeps| ==> s.procs[id].resolvedDeps[i] == s'.procs[id].resolvedDeps[i];
    }
  }

  /** A cycle leaves a starved process starved, unless it or something it is bound to goes. */
  lemma CycleStarves(s: State, t: Tick, id: ProcessId)
    requires Invariant(s) && Faithful(t, s.procs.Keys) && id in s.procs && Starved(s.procs, s.procs[id])
    ensures Attached(Cycle(s, t), id) ==> Starved(Cycle(s, t).procs, Cycle(s, t).procs[id])
  {
    hide *;
    var s3 := Reap(s, t);
    var s4 := Restarts(s3, t);
    AfterReapIs(s, t);
    ReapInvariant(s, t);
    RestartsAdvance(s3, t);
    AdvancesEvolves(s3, s4);
    FaithfulShrinks(t, s3.procs.Keys, s4.procs.Keys);
    InvariantStructural(s);
    EvolvesTransitive(s, s3, s4);
    StillWaiting(s.procs, s.procs[id]);
    WaitingIsIdle(s, id);
    IdleUntouched(s, t, id);
    LaterAttached(s4, t, id);
    if Attached(Cycle(s, t), id) {
      StarvedOn(s, s4, s.procs[id]);
      LaterStarves(s4, t, id);
    }
  }

  // ------------------------------------------------------------ along a run

  lemma UnnamedStarves(s: State, step: Step, id: ProcessId)
    requires Invariant(s) && Legal(s, step) && !step.DoCycle? && !Names(step, id)
    requires id in s.procs && Starved(s.procs, s.procs[id])
    ensures var s' := Apply(s, step); Attached(s', id) ==> Starved(s'.procs, s'.procs[id])
  {
    hide *;
    var s' := Apply(s, step);
    StillWaiting(s.procs, s.procs[id]);
    UnnamedPolls(s, step, id);
    if Attached(s', id) {
      AttachedIs(s', id);
      PolledInert(s.procs[id], s'.procs[id]);
      StepKeeps(s, step);
      StarvedOn(s, s', s.procs[id]);
    }
  }

  lemma AttachedIs(s: State, id: ProcessId)
    requires Attached(s, id)
    ensures id in s.procs && AllIn(s.procs, s.procs[id].resolvedDeps)
  {
  }

  /** The k-th step does not name `id`, and leaves it and what it is bound to tracked. */
  ghost predicate SparedAt(r: Run, k: nat, id: ProcessId) {
    k + 1 < |r.states| && !NamedAt(r, k, id) && Attached(r.states[k + 1], id)
  }

  lemma SparedIs(r: Run, k: nat, id: ProcessId)
    requires k < |r.steps| && SparedAt(r, k, id)
    ensures !Names(r.steps[k], id) && Attached(r.states[k + 1], id) && id in r.states[k + 1].procs
  {
    hide Names;
  }

  /** Starved for good: in every run, whatever else is called and whatever the cycles
      see, a starved process goes on waiting as long as no call names it and it and what
      it is bound to stay tracked, even while all its dependencies are Running. */
  lemma StarvedLasts(r: Run, m: nat, n: nat, id: ProcessId)
    requires IsRun(r) && m <= n < |r.states|
    requires id in r.states[m].procs && Starved(r.states[m].procs, r.states[m].procs[id])
    requires forall k :: m <= k < n ==> SparedAt(r, k, id)
    ensures id in r.states[n].procs && Starved(r.states[n].procs, r.states[n].procs[id])
    decreases n
  {
    hide *;
    if m < n {
      StarvedLasts(r, m, n - 1, id);
      LastStep(r, n);
      RunInvariant(r, n - 1);
      SparedIs(r, n - 1, id);
      var s, step := r.states[n - 1], r.steps[n - 1];
      if step.DoCycle? {
        CycleLegal(s, step);
        CycleStarves(s, step.tick, id);
      } else {
        UnnamedStarves(s, step, id);
      }
    }
  }

  /** A Waiting process that a cycle neither fails nor spawns has what its verdict bound. */
  lemma WaiterJudged(s: State, t: Tick, id: ProcessId)
    requires Invariant(s) && Faithful(t, s.procs.Keys) && id in s.procs && s.procs[id].state.Waiting?
    ensures var s4 := Restarts(Reap(s, t), t);
            && id in s4.procs && s4.procs[id] == s.procs[id]
            && s4.procs.Keys <= s.procs.Keys && (forall x :: x in s4.procs ==> s4.procs[x].tag == s.procs[x].tag)
            && (VerdictOn(s4.procs, id, t).decision.ToKeep? ==>
                  && id in Cycle(s, t).procs
                  && Cycle(s, t).procs[id] == s.procs[id].(resolvedDeps := VerdictOn(s4.procs, id, t).resolvedDeps))
  {
    hide *;
    var s3 := Reap(s, t);
    var s4 := Restarts(s3, t);
    AfterReapIs(s, t);
    ReapInvariant(s, t);
    RestartsAdvance(s3, t);
    AdvancesEvolves(s3, s4);
    FaithfulShrinks(t, s3.procs.Keys, s4.procs.Keys);
    InvariantStructural(s);
    EvolvesTransitive(s, s3, s4);
    TagsStay(s, s4);
    WaitingIsIdle(s, id);
    IdleUntouched(s, t, id);
    KeptInPhase(s4, t, id);
  }

  lemma TagsStay(s: State, s': State)
    requires Evolves(s, s') && s'.procs.Keys <= s.procs.Keys
    ensures forall x :: x in s'.procs ==> s'.procs[x].tag == s.procs[x].tag
  {
  }

  lemma KeptInPhase(s: State, t: Tick, id: ProcessId)
    requires Invariant(s) && Faithful(t, s.procs.Keys) && id in s.procs && s.procs[id].state.Waiting?
    ensures VerdictOn(s.procs, id, t).decision.ToKeep? ==>
              var s' := FailFast(Waiters(s, t), t.order(AtFailFast));
              id in s'.procs && s'.procs[id] == s.procs[id].(resolvedDeps := VerdictOn(s.procs, id, t).resolvedDeps)
  {
    WaitersShape(s, t);
    hide Waiters, VerdictOn, Invariant, Faithful, FailFast;
    if VerdictOn(s.procs, id, t).decision.ToKeep? {
      FailFastSparesOthers(Waiters(s, t), t.order(AtFailFast), id);
    }
  }
}
