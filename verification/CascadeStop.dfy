/** `stop` and its cascade: what it removes, reports and keeps. */
module CascadeStop {
  import opened Basics
  import opened Processes
  import opened Manager
  import opened Invariants
  import opened Changes
  import opened FailFastPhase

  /** The calls only remove entries, and report a Stopped event for each Waiting one. */
  ghost predicate Quiets(s: State, s': State) {
    && Shrinks(s.procs, s'.procs)
    && s'.nextId == s.nextId && s'.nextSequence == s.nextSequence && s'.spawns == s.spawns
    && s.log <= s'.log && s.dropped <= s'.dropped
    && (forall i :: |s.log| <= i < |s'.log| ==> s'.log[i].state.Stopped? && s'.log[i].exitStatus.None?)
    && (forall id: ProcessId ::
          EventCount(s'.log, id) == EventCount(s.log, id)
                                    + if id in s.procs && id !in s'.procs && s.procs[id].state.Waiting? then 1 else 0)
    && (forall id: ProcessId :: id in s'.procs || id !in s.procs ==> s'.dropped[id] == s.dropped[id])
  }

  lemma QuietsTransitive(a: State, b: State, c: State)
    requires Quiets(a, b) && Quiets(b, c)
    ensures Quiets(a, c)
  {
    hide EventCount;
  }

  lemma QuietEvolves(s: State, s': State)
    requires Quiets(s, s')
    ensures Evolves(s, s')
  {
  }

  lemma DiscardQuiets(s: State, id: ProcessId)
    requires Structural(s) && id in s.procs && s.procs[id].state.Waiting?
    ensures Quiets(s, Discard(s, id, Stopped))
  {
    hide EventCount, WellFormed;
    var s' := Discard(s, id, Stopped);
    assert s.procs[id].id == id;
    forall x: ProcessId ensures EventCount(s'.log, x) == EventCount(s.log, x) + if x == id then 1 else 0 {
      CountsPush(s.log, EventFor(s.procs[id], None, Stopped), x);
    }
  }

  lemma DropQuiets(s: State, id: ProcessId)
    requires Structural(s) && id in s.procs && !s.procs[id].state.Waiting?
    ensures Quiets(s, Drop(s, id))
  {
    hide EventCount, WellFormed;
    assert s.procs[id].id == id;
  }

  lemma RemoveOneKeeps(s: State, id: ProcessId)
    requires Sound(s) && id in s.procs
    ensures var s' := if s.procs[id].state.Waiting? then Discard(s, id, Stopped) else Drop(s, id);
            Sound(s') && Quiets(s, s')
  {
    hide Structural, Sequenced, Logged, Conserved, Ordered, Quiets, Evolves;
    if s.procs[id].state.Waiting? {
      DiscardKeeps(s, id, Stopped);
      DiscardQuiets(s, id);
    } else {
      DropKeeps(s, id);
      DropQuiets(s, id);
    }
  }

  /** Whatever the signals answer, a cascade leaves the invariants intact. */
  lemma StopKeeps(s: State, id: ProcessId, e: StopEnv)
    requires Sound(s)
    ensures Sound(Stop(s, id, e).state) && Quiets(s, Stop(s, id, e).state)
    decreases |s.procs|, 0
  {
    hide Sound, Quiets;
    if id !in s.procs {
      QuietsSelf(s);
    } else {
      var p := s.procs[id];
      var s1 := if p.state.Waiting? then Discard(s, id, Stopped) else Drop(s, id);
      RemoveOneKeeps(s, id);
      assert s1.procs.Keys == s.procs.Keys - {id};
      if PassesOn(p, e) {
        var ids := DependentsOf(s1.procs, e.order(id), id);
        StopEachKeeps(s1, ids, e);
        QuietsTransitive(s, s1, StopEach(s1, ids, e));
      }
    }
  }

  lemma StopEachKeeps(s: State, ids: seq<ProcessId>, e: StopEnv)
    requires Sound(s)
    ensures Sound(StopEach(s, ids, e)) && Quiets(s, StopEach(s, ids, e))
    decreases |s.procs|, |ids| + 1
  {
    hide *;
    StopEachStep(s, ids, e);
    if ids == [] {
      QuietsSelf(s);
    } else {
      var n := |ids| - 1;
      StopEachKeeps(s, ids[..n], e);
      StopKeeps(StopEach(s, ids[..n], e), ids[n], e);
      QuietsTransitive(s, StopEach(s, ids[..n], e), StopEach(s, ids, e));
    }
  }

  lemma QuietsSelf(s: State)
    ensures Quiets(s, s)
  {
    hide EventCount;
  }

  // -------------------------------------------------- the set a stop removes

  ghost predicate DependsOn(procs: ProcessMap, d: ProcessId, id: ProcessId) {
    d in procs && id in procs[d].resolvedDeps
  }

  /** `x` contains the direct dependents of each of its members that passes the stop on: one
      with `cascade_stop` that is Waiting, or is not in a backoff wait, has a pid, and has
      both signals delivered. */
  ghost predicate ClosedUnderStop(procs: ProcessMap, x: set<ProcessId>, e: StopEnv) {
    forall a, d | a in x && a in procs && DependsOn(procs, d, a) ::
      var p := procs[a];
      && p.config.cascadeStop
      && (p.state.Waiting? || (!p.state.Restarting? && p.pid != 0 && e.signal(p.id).Delivered? && e.kill(p.id).Delivered?))
      ==> d in x
  }

  /** The same in terms of the decision of the code. */
  ghost predicate ClosedUnderPassing(procs: ProcessMap, x: set<ProcessId>, e: StopEnv) {
    forall a, d :: a in x && a in procs && PassesOn(procs[a], e) && DependsOn(procs, d, a) ==> d in x
  }

  lemma ClosedUnderStopIs(procs: ProcessMap, x: set<ProcessId>, e: StopEnv)
    ensures ClosedUnderStop(procs, x, e) <==> ClosedUnderPassing(procs, x, e)
  {
    hide DependsOn;
  }

  lemma DependentsOfExact(procs: ProcessMap, order: seq<ProcessId>, id: ProcessId)
    ensures forall d :: d in DependentsOf(procs, order, id) <==> d in order && DependsOn(procs, d, id)
  {
    if order != [] {
      var n := |order| - 1;
      DependentsOfExact(procs, order[..n], id);
      assert order == order[..n] + [order[n]];
    }
  }

  lemma StopWithin(s0: State, s: State, id: ProcessId, x: set<ProcessId>, e: StopEnv)
    requires Shrinks(s0.procs, s.procs) && s0.procs.Keys - s.procs.Keys <= x
    requires id in x && ClosedUnderPassing(s0.procs, x, e)
    ensures var s' := Stop(s, id, e).state;
            Shrinks(s.procs, s'.procs) && s0.procs.Keys - s'.procs.Keys <= x
    decreases |s.procs|, 0
  {
    hide PassesOn;
    if id in s.procs {
      var p := s.procs[id];
      var s1 := if p.state.Waiting? then Discard(s, id, Stopped) else Drop(s, id);
      assert s1.procs.Keys == s.procs.Keys - {id};
      if PassesOn(p, e) {
        var ids := DependentsOf(s1.procs, e.order(id), id);
        DependentsOfExact(s1.procs, e.order(id), id);
        forall i | 0 <= i < |ids| ensures ids[i] in x {
          assert ids[i] in ids;
          assert DependsOn(s0.procs, ids[i], id);
        }
        StopEachWithin(s0, s1, ids, x, e);
      }
    }
  }

  lemma StopEachWithin(s0: State, s: State, ids: seq<ProcessId>, x: set<ProcessId>, e: StopEnv)
    requires Shrinks(s0.procs, s.procs) && s0.procs.Keys - s.procs.Keys <= x
    requires (forall i :: 0 <= i < |ids| ==> ids[i] in x) && ClosedUnderPassing(s0.procs, x, e)
    ensures var s' := StopEach(s, ids, e);
            Shrinks(s.procs, s'.procs) && s0.procs.Keys - s'.procs.Keys <= x
    decreases |s.procs|, |ids| + 1
  {
    hide PassesOn, ClosedUnderPassing;
    if ids != [] {
      var n := |ids| - 1;
      StopEachWithin(s0, s, ids[..n], x, e);
      var s1 := StopEach(s, ids[..n], e);
      CardinalityMonotone(s1.procs, s.procs);
      StopWithin(s0, s1, ids[n], x, e);
    }
  }

  // --------------------------------------------------- the pids a stop signals

  /** Who leaves the map with a pid, neither Waiting nor in a backoff wait: `stop` sends
      its kill signal to each of them and to nobody else. */
  ghost function TakenDown(before: ProcessMap, after: ProcessMap): set<ProcessId> {
    set id | id in before && id !in after && before[id].pid != 0 && !before[id].state.Waiting? && !before[id].state.Restarting?
  }

  lemma TakenDownOn(a: ProcessMap, b: ProcessMap, c: ProcessMap)
    requires Shrinks(a, b) && Shrinks(b, c)
    ensures TakenDown(a, c) == TakenDown(a, b) + TakenDown(b, c)
  {
  }

  lemma TakenDownOne(procs: ProcessMap, id: ProcessId)
    ensures TakenDown(procs, procs) == {}
    ensures TakenDown(procs, procs - {id}) ==
              if id in procs && procs[id].pid != 0 && !procs[id].state.Waiting? && !procs[id].state.Restarting? then {id} else {}
  {
  }

  lemma StopShrinks(s: State, id: ProcessId, e: StopEnv)
    ensures Shrinks(s.procs, Stop(s, id, e).state.procs)
  {
    StopWithin(s, s, id, s.procs.Keys + {id}, e);
  }

  ghost predicate Walks(e: StopEnv, keys: set<ProcessId>) {
    forall id :: Enumerates(e.order(id), keys)
  }

  /** Whoever left and passes the stop on left no dependent behind. */
  ghost predicate Exhausted(before: ProcessMap, after: ProcessMap, e: StopEnv) {
    forall a, d :: a in before && a !in after && PassesOn(before[a], e) && DependsOn(before, d, a) ==> d !in after
  }

  lemma ExhaustedTransitive(a: ProcessMap, b: ProcessMap, c: ProcessMap, e: StopEnv)
    requires Shrinks(a, b) && Shrinks(b, c) && Exhausted(a, b, e) && Exhausted(b, c, e)
    ensures Exhausted(a, c, e)
  {
    hide PassesOn;
    forall x, d | x in a && x !in c && PassesOn(a[x], e) && DependsOn(a, d, x) ensures d !in c {
      if x in b && d in b { assert DependsOn(b, d, x); }
    }
  }

  lemma StopExhausts(s: State, id: ProcessId, e: StopEnv)
    requires Walks(e, s.procs.Keys)
    ensures Shrinks(s.procs, Stop(s, id, e).state.procs)
    ensures Exhausted(s.procs, Stop(s, id, e).state.procs, e)
    decreases |s.procs|, 0
  {
    hide PassesOn, Exhausted;
    if id !in s.procs {
      ExhaustedSelf(s.procs, e);
    } else {
      var p := s.procs[id];
      var s1 := if p.state.Waiting? then Discard(s, id, Stopped) else Drop(s, id);
      assert s1.procs == s.procs - {id};
      if PassesOn(p, e) {
        var ids := DependentsOf(s1.procs, e.order(id), id);
        StopEachExhausts(s1, ids, e);
        DependentsAreStopped(s1, id, ids, e);
        ExhaustedAfterRemoval(s.procs, s1.procs, StopEach(s1, ids, e).procs, id, e);
      } else {
        ExhaustedSelf(s1.procs, e);
        ExhaustedAfterRemoval(s.procs, s1.procs, s1.procs, id, e);
      }
    }
  }

  lemma DependentsAreStopped(s: State, id: ProcessId, ids: seq<ProcessId>, e: StopEnv)
    requires Enumerates(e.order(id), s.procs.Keys) && ids == DependentsOf(s.procs, e.order(id), id)
    requires forall i :: 0 <= i < |ids| ==> ids[i] !in StopEach(s, ids, e).procs
    ensures forall d :: DependsOn(s.procs, d, id) ==> d !in StopEach(s, ids, e).procs
  {
    DependentsOfExact(s.procs, e.order(id), id);
    forall d | DependsOn(s.procs, d, id) ensures d !in StopEach(s, ids, e).procs {
      assert d in ids;
    }
  }

  lemma ExhaustedAfterRemoval(before: ProcessMap, mid: ProcessMap, after: ProcessMap, id: ProcessId, e: StopEnv)
    requires id in before && mid == before - {id} && Shrinks(mid, after) && Exhausted(mid, after, e)
    requires PassesOn(before[id], e) ==> forall d :: DependsOn(mid, d, id) ==> d !in after
    ensures Exhausted(before, after, e)
  {
    hide PassesOn;
    forall a, d | a in before && a !in after && PassesOn(before[a], e) && DependsOn(before, d, a) ensures d !in after {
      if d in mid { assert DependsOn(mid, d, a); }
    }
  }

  lemma StopEachExhausts(s: State, ids: seq<ProcessId>, e: StopEnv)
    requires Walks(e, s.procs.Keys)
    ensures Shrinks(s.procs, StopEach(s, ids, e).procs)
    ensures forall i :: 0 <= i < |ids| ==> ids[i] !in StopEach(s, ids, e).procs
    ensures Exhausted(s.procs, StopEach(s, ids, e).procs, e)
    decreases |s.procs|, |ids| + 1
  {
    hide *;
    StopEachStep(s, ids, e);
    if ids == [] {
      ExhaustedSelf(s.procs, e);
      ShrinksOn(s.procs, s.procs, s.procs);
    } else {
      var n := |ids| - 1;
      var s1, s' := StopEach(s, ids[..n], e), StopEach(s, ids, e);
      StopEachExhausts(s, ids[..n], e);
      WalksFewer(e, s.procs.Keys, s1.procs.Keys);
      StopExhausts(s1, ids[n], e);
      ExhaustedTransitive(s.procs, s1.procs, s'.procs, e);
      ShrinksOn(s.procs, s1.procs, s'.procs);
      forall i | 0 <= i < |ids| ensures ids[i] !in s'.procs {
        if i < n { assert ids[..n][i] == ids[i]; }
      }
    }
  }

  lemma StopEachStep(s: State, ids: seq<ProcessId>, e: StopEnv)
    ensures StopEach(s, [], e) == s
    ensures ids != [] ==>
              var n := |ids| - 1;
              var s1 := StopEach(s, ids[..n], e);
              && s1.procs.Keys <= s.procs.Keys && |s1.procs| <= |s.procs|
              && StopEach(s, ids, e) == Stop(s1, ids[n], e).state
              && StopEach(s, ids, e).procs.Keys <= s1.procs.Keys && ids[n] !in StopEach(s, ids, e).procs
  {
    if ids != [] { CardinalityMonotone(StopEach(s, ids[..|ids| - 1], e).procs, s.procs); }
  }

  lemma ShrinksOn(a: ProcessMap, b: ProcessMap, c: ProcessMap)
    ensures Shrinks(a, a)
    ensures Shrinks(a, b) && Shrinks(b, c) ==> Shrinks(a, c)
  {
  }

  lemma WalksFewer(e: StopEnv, keys: set<ProcessId>, fewer: set<ProcessId>)
    requires Walks(e, keys) && fewer <= keys
    ensures Walks(e, fewer)
  {
  }

  lemma ExhaustedSelf(procs: ProcessMap, e: StopEnv)
    ensures Exhausted(procs, procs, e)
  {
  }

  /** `stop` removes exactly the least set that contains its target and, with each
      member that passes the stop on, that member's direct dependents. */
  lemma StopExact(s: State, id: ProcessId, e: StopEnv)
    requires id in s.procs && Walks(e, s.procs.Keys)
    ensures var s' := Stop(s, id, e).state;
            var removed := s.procs.Keys - s'.procs.Keys;
            && Shrinks(s.procs, s'.procs)
            && id in removed && ClosedUnderStop(s.procs, removed, e)
            && (forall x :: id in x && ClosedUnderStop(s.procs, x, e) ==> removed <= x)
  {
    StopExhausts(s, id, e);
    forall x ensures ClosedUnderStop(s.procs, x, e) <==> ClosedUnderPassing(s.procs, x, e) {
      ClosedUnderStopIs(s.procs, x, e);
    }
    hide PassesOn, ClosedUnderStop;
    forall x | id in x && ClosedUnderPassing(s.procs, x, e)
      ensures s.procs.Keys - Stop(s, id, e).state.procs.Keys <= x
    {
      StopWithin(s, s, id, x, e);
    }
  }

  // ---------------------------------------------------------- the invariants

  /** Removing entries keeps the bindings of the others sparing. */
  lemma QuietBound(s: State, s': State)
    requires Invariant(s) && Quiets(s, s')
    ensures Bound(s')
  {
    QuietEvolves(s, s');
    hide BoundSparingly, Sequenced, Logged, Conserved, Ordered, WellFormed;
    forall x | x in s'.procs && s'.procs[x].state.Waiting?
      ensures BoundSparingly(s', s'.procs[x].resolvedDeps, s'.procs[x].config.dependsOn)
    {
      SparingEvolves(s, s', s.procs[x].resolvedDeps, s.procs[x].config.dependsOn);
    }
  }
}
