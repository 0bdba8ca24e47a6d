/** Phase 5 spawns only whose references are all met. */
module WaitingPhase {
  import opened Basics
  import opened Processes
  import opened Resolution
  import opened Reaper
  import opened Invariants
  import opened LaterPhases

  // -------------------------------------------------- the counting argument

  lemma NewBindingResolves(procs: ProcessMap, order: seq<ProcessId>, bound: seq<ProcessId>, d: DependencyRef, all: seq<ProcessId>)
    requires bound <= all
    requires forall x :: x in NewBinding(procs, order, bound, d) ==> x in all
    ensures |NewBinding(procs, order, bound, d)| + (if Resolved(procs, bound, d) then 1 else 0)
         <= if Resolved(procs, all, d) then 1 else 0
  {
    var newly := NewBinding(procs, order, bound, d);
    if Resolved(procs, bound, d) {
      if d.OnLabel? {
        var i :| 0 <= i < |bound| && bound[i] in procs && procs[bound[i]].tag == d.tag;
        assert all[i] == bound[i];
      } else {
        var i :| 0 <= i < |bound| && bound[i] == d.id;
        assert all[i] == d.id;
      }
    } else if newly != [] {
      assert newly[0] in newly;
      var i :| 0 <= i < |all| && all[i] == newly[0];
    }
  }

  /** Each id that phase 5 adds resolves a reference that was not resolved before. */
  lemma NewlyResolvedSparing(procs: ProcessMap, order: seq<ProcessId>, bound: seq<ProcessId>, deps: seq<DependencyRef>, all: seq<ProcessId>)
    requires bound <= all
    requires forall x :: x in NewlyResolved(procs, order, bound, deps) ==> x in all
    ensures |NewlyResolved(procs, order, bound, deps)| + ResolvedCount(procs, bound, deps) <= ResolvedCount(procs, all, deps)
  {
    if deps != [] {
      var n := |deps| - 1;
      NewlyResolvedSparing(procs, order, bound, deps[..n], all);
      NewBindingResolves(procs, order, bound, deps[n], all);
    }
  }

  lemma VerdictSparing(s: State, p: Process, order: seq<ProcessId>, at: Time)
    requires BoundSparingly(s, p.resolvedDeps, p.config.dependsOn)
    ensures BoundSparingly(s, Judge(s.procs, p, order, at).resolvedDeps, p.config.dependsOn)
  {
    var bound, deps := p.resolvedDeps, p.config.dependsOn;
    var all := bound + NewlyResolved(s.procs, order, bound, deps);
    if HasDead(s, bound) {
      var i :| 0 <= i < |bound| && Dead(s, bound[i]);
      assert all[i] == bound[i];
    } else {
      NewlyResolvedSparing(s.procs, order, bound, deps, all);
    }
  }

  /** A sparing binding as long as the declaration, all of it Running, meets every reference:
      the code compares only lengths, the counting supplies the rest. */
  lemma FullAndRunningMeetsAll(s: State, bound: seq<ProcessId>, deps: seq<DependencyRef>)
    requires BoundSparingly(s, bound, deps) && |bound| == |deps| && AllRunning(s.procs, bound)
    ensures AllMet(deps, RunningLabels(s.procs))
  {
    assert !HasDead(s, bound);
    ResolvedCountFull(s.procs, bound, deps);
    forall i | 0 <= i < |deps| ensures Met(deps[i], RunningLabels(s.procs)) {
      assert Resolved(s.procs, bound, deps[i]);
      match deps[i] {
        case OnId(id) =>
        case OnLabel(tag) =>
          var k :| 0 <= k < |bound| && bound[k] in s.procs && s.procs[bound[k]].tag == tag;
          assert bound[k] in RunningLabels(s.procs);
      }
    }
  }

  // ------------------------------------------------------------ the phase

  lemma JudgedEntry(s: State, t: Tick, id: ProcessId)
    requires Invariant(s) && id in s.procs
    ensures var p, q := s.procs[id], JudgedMap(s.procs, t)[id];
            && q == p.(resolvedDeps := q.resolvedDeps) && WellFormed(q)
            && (p.state.Waiting? ==> BoundSparingly(s, q.resolvedDeps, p.config.dependsOn))
  {
    if s.procs[id].state.Waiting? {
      VerdictSparing(s, s.procs[id], t.order(AtLookup(id)), t.clock(OnTimeoutCheck(id)));
    }
  }

  /** Nothing but bindings changes from `before` to `after`. */
  ghost predicate OnlyRebound(before: ProcessMap, after: ProcessMap) {
    && after.Keys == before.Keys
    && forall id :: id in before ==> after[id] == before[id].(resolvedDeps := after[id].resolvedDeps) && WellFormed(after[id])
  }

  lemma ReboundSound(s: State, procs: ProcessMap)
    requires Sound(s) && OnlyRebound(s.procs, procs)
    ensures Sound(s.(procs := procs))
  {
    hide WellFormed, AllMet, ExitCount, SpawnCount;
  }

  lemma ReboundAdvances(s: State, procs: ProcessMap)
    requires OnlyRebound(s.procs, procs)
    ensures Advances(s, s.(procs := procs))
  {
    hide WellFormed, EventCount;
  }

  /** Only bindings change while the verdicts are collected. */
  lemma JudgingAdvances(s: State, t: Tick)
    requires Invariant(s)
    ensures var s1 := s.(procs := JudgedMap(s.procs, t)); Invariant(s1) && Advances(s, s1)
  {
    var s1 := s.(procs := JudgedMap(s.procs, t));
    forall id | id in s.procs
      ensures var p, q := s.procs[id], s1.procs[id];
              && q == p.(resolvedDeps := q.resolvedDeps) && WellFormed(q)
              && (p.state.Waiting? ==> BoundSparingly(s, q.resolvedDeps, p.config.dependsOn))
    {
      JudgedEntry(s, t, id);
    }
    assert OnlyRebound(s.procs, s1.procs);
    ReboundSound(s, s1.procs);
    ReboundAdvances(s, s1.procs);
    hide JudgedMap, WellFormed, Advances, Accounted, Evolves, Sound, BoundSparingly;
    forall id | id in s1.procs && s1.procs[id].state.Waiting?
      ensures BoundSparingly(s1, s1.procs[id].resolvedDeps, s1.procs[id].config.dependsOn)
    {
      InvariantStructural(s);
      AdvancesEvolves(s, s1);
      SparingEvolves(s, s1, s1.procs[id].resolvedDeps, s1.procs[id].config.dependsOn);
    }
  }

  lemma WaitingIdsAreJudged(procs: ProcessMap, order: seq<ProcessId>, d: Decision, t: Tick)
    requires Distinct(order)
    ensures var ids := WaitingIds(procs, order, d, t);
            && Distinct(ids)
            && (forall id :: id in ids <==>
                  id in order && id in procs && procs[id].state.Waiting? && VerdictOn(procs, id, t).decision == d)
  {
    hide Judge;
    if order != [] {
      var n := |order| - 1;
      WaitingIdsAreJudged(procs, order[..n], d, t);
      assert order == order[..n] + [order[n]];
      assert order[n] !in order[..n];
    }
  }

  /** A process judged ready is ready in the judged map, too. */
  lemma ToSpawnIsReady(s: State, t: Tick, id: ProcessId)
    requires Invariant(s) && id in s.procs && s.procs[id].state.Waiting?
    requires VerdictOn(s.procs, id, t).decision.ToSpawn?
    ensures AllMet(s.procs[id].config.dependsOn, RunningLabels(s.procs))
  {
    var p := s.procs[id];
    VerdictSparing(s, p, t.order(AtLookup(id)), t.clock(OnTimeoutCheck(id)));
    FullAndRunningMeetsAll(s, VerdictOn(s.procs, id, t).resolvedDeps, p.config.dependsOn);
  }

  lemma JudgingKeepsRunning(s: State, t: Tick)
    ensures RunningLabels(JudgedMap(s.procs, t)) == RunningLabels(s.procs)
  {
  }

  /** What spawning or failing Waiting processes leaves alone. */
  ghost predicate OthersKept(s: State, s': State, ids: seq<ProcessId>) {
    && s'.procs.Keys <= s.procs.Keys
    && forall x :: x in s.procs && x !in ids ==> x in s'.procs && s'.procs[x] == s.procs[x]
  }

  ghost predicate AllWaiting(s: State, ids: seq<ProcessId>) {
    forall i :: 0 <= i < |ids| ==> ids[i] in s.procs && s.procs[ids[i]].state.Waiting?
  }

  /** The processes in `ids` can all be spawned against what is Running now. */
  ghost predicate AllReady(s: State, ids: seq<ProcessId>) {
    AllWaiting(s, ids) && forall i :: 0 <= i < |ids| ==> AllMet(s.procs[ids[i]].config.dependsOn, RunningLabels(s.procs))
  }

  lemma MetMonotone(deps: seq<DependencyRef>, a: map<ProcessId, Label>, b: map<ProcessId, Label>)
    requires AllMet(deps, a)
    requires forall x :: x in a ==> x in b && b[x] == a[x]
    ensures AllMet(deps, b)
  {
    forall i | 0 <= i < |deps| ensures Met(deps[i], b) {
      assert Met(deps[i], a);
      if deps[i].OnLabel? {
        var x :| x in a && a[x] == deps[i].tag;
        assert x in b && b[x] == deps[i].tag;
      }
    }
  }

  lemma SpawnWaitingAdvances(s: State, id: ProcessId, t: Tick)
    requires Invariant(s) && id in s.procs && s.procs[id].state.Waiting?
    requires AllMet(s.procs[id].config.dependsOn, RunningLabels(s.procs))
    ensures var s' := SpawnWaiting(s, id, t); Invariant(s') && Advances(s, s') && OthersKept(s, s', [id])
  {
    assert s.procs[id].id == id;
    match t.spawn(id) {
      case Some(pid) => LaunchAdvances(s, Spawned(s.procs[id], pid, t.clock(OnSpawn(id))), OnDependenciesReady);
      case None => DiscardInvariant(s, id);
    }
  }

  lemma SpawnAllStep(s: State, ids: seq<ProcessId>, t: Tick)
    ensures SpawnAll(s, [], t) == s
    ensures ids != [] ==> SpawnAll(s, ids, t) == SpawnWaiting(SpawnAll(s, ids[..|ids| - 1], t), ids[|ids| - 1], t)
  {
  }

  /** The last of the list is still ready when the others have been served. */
  lemma LastReady(s: State, s1: State, ids: seq<ProcessId>)
    requires ids != [] && Distinct(ids) && AllReady(s, ids)
    ensures var n := |ids| - 1;
            && Distinct(ids[..n]) && AllReady(s, ids[..n])
            && (OthersKept(s, s1, ids[..n]) ==>
                  && ids[n] in s1.procs && s1.procs[ids[n]].state.Waiting?
                  && AllMet(s1.procs[ids[n]].config.dependsOn, RunningLabels(s1.procs)))
  {
    hide AllMet;
    var n := |ids| - 1;
    if OthersKept(s, s1, ids[..n]) {
      assert ids[n] !in ids[..n];
      forall x | x in RunningLabels(s.procs)
        ensures x in RunningLabels(s1.procs) && RunningLabels(s1.procs)[x] == RunningLabels(s.procs)[x]
      {
        assert x !in ids[..n];
      }
      MetMonotone(s.procs[ids[n]].config.dependsOn, RunningLabels(s.procs), RunningLabels(s1.procs));
    }
  }

  lemma OthersKeptOn(s: State, s1: State, s': State, ids: seq<ProcessId>)
    requires ids != [] && OthersKept(s, s1, ids[..|ids| - 1]) && OthersKept(s1, s', [ids[|ids| - 1]])
    ensures OthersKept(s, s', ids)
  {
    var n := |ids| - 1;
    forall x | x in s.procs && x !in ids ensures x in s'.procs && s'.procs[x] == s.procs[x] {
      assert x !in ids[..n] && x !in [ids[n]];
    }
  }

  lemma OthersKeptSelf(s: State)
    ensures OthersKept(s, s, [])
  {
  }

  lemma SpawnAllAdvances(s: State, ids: seq<ProcessId>, t: Tick)
    requires Invariant(s) && Distinct(ids) && AllReady(s, ids)
    ensures var s' := SpawnAll(s, ids, t); Invariant(s') && Advances(s, s') && OthersKept(s, s', ids)
  {
    hide *;
    SpawnAllStep(s, ids, t);
    if ids == [] {
      AdvancesSelf(s);
      OthersKeptSelf(s);
    } else {
      var n := |ids| - 1;
      var s1 := SpawnAll(s, ids[..n], t);
      LastReady(s, s1, ids);
      SpawnAllAdvances(s, ids[..n], t);
      SpawnWaitingAdvances(s1, ids[n], t);
      InvariantStructural(s);
      AdvancesTransitive(s, s1, SpawnAll(s, ids, t));
      OthersKeptOn(s, s1, SpawnAll(s, ids, t), ids);
    }
  }

  lemma FailAllAdvances(s: State, ids: seq<ProcessId>)
    requires Invariant(s)
    ensures var s' := FailAll(s, ids); Invariant(s') && Advances(s, s')
    ensures forall x :: x in FailAll(s, ids).procs ==> x in s.procs && x !in ids && FailAll(s, ids).procs[x] == s.procs[x]
    ensures forall x :: x in s.procs && x !in ids ==> x in FailAll(s, ids).procs
  {
    assert Structural(s);
    hide Invariant, Advances, WellFormed;
    if ids == [] {
      AdvancesSelf(s);
      return;
    }
    var n := |ids| - 1;
    FailAllAdvances(s, ids[..n]);
    var s1 := FailAll(s, ids[..n]);
    assert ids == ids[..n] + [ids[n]];
    if ids[n] in s1.procs {
      DiscardInvariant(s1, ids[n]);
      AdvancesTransitive(s, s1, FailAll(s, ids));
    }
  }

  lemma WaitersAdvance(s: State, t: Tick)
    requires Invariant(s) && Faithful(t, s.procs.Keys)
    ensures var s' := Waiters(s, t); Invariant(s') && Advances(s, s')
  {
    var order := t.order(AtWaiting);
    var s1 := s.(procs := JudgedMap(s.procs, t));
    var spawn := WaitingIds(s.procs, order, ToSpawn, t);
    JudgingAdvances(s, t);
    WaitingIdsAreJudged(s.procs, order, ToSpawn, t);
    JudgingKeepsRunning(s, t);
    forall i | 0 <= i < |spawn|
      ensures spawn[i] in s1.procs && s1.procs[spawn[i]].state.Waiting?
      ensures AllMet(s1.procs[spawn[i]].config.dependsOn, RunningLabels(s1.procs))
    {
      assert spawn[i] in spawn;
      ToSpawnIsReady(s, t, spawn[i]);
    }
    hide JudgedMap, WaitingIds, AllMet, RunningLabels, Advances, SpawnAll, FailAll;
    SpawnAllAdvances(s1, spawn, t);
    var s2 := SpawnAll(s1, spawn, t);
    FailAllAdvances(s2, WaitingIds(s.procs, order, ToFail, t));
    AdvancesTransitive(s, s1, s2);
    AdvancesTransitive(s, s2, Waiters(s, t));
  }
}
