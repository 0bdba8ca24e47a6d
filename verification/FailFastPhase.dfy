/** Phase 6: failing the dependents of what is gone. */
module FailFastPhase {
  import opened Basics
  import opened Processes
  import opened Resolution
  import opened Reaper
  import opened Invariants
  import opened LaterPhases
  import opened Manager

  lemma FailDependentsAdvance(s: State, ids: seq<ProcessId>)
    requires Invariant(s)
    ensures var s' := FailDependents(s, ids); Invariant(s') && Advances(s, s')
  {
    assert Structural(s);
    hide Invariant, Advances, WellFormed;
    if ids == [] {
      AdvancesSelf(s);
    } else {
      var n := |ids| - 1;
      FailDependentsAdvance(s, ids[..n]);
      var s1 := FailDependents(s, ids[..n]);
      if FailDependent(s1, ids[n]) != s1 {
        DiscardInvariant(s1, ids[n]);
        AdvancesTransitive(s, s1, FailDependents(s, ids));
      }
    }
  }

  // ------------------------------------------- what repeated passes remove

  /** `id` is Running and depends on something that is lost once `x` is. */
  ghost predicate Loses(procs: ProcessMap, id: ProcessId, x: set<ProcessId>) {
    && id in procs && procs[id].state.Running?
    && exists i :: 0 <= i < |procs[id].resolvedDeps| && Lost(procs, procs[id].resolvedDeps[i], x)
  }

  /** `dep` is in `x` or not tracked, or it is Failed, or Stopped without being restarted on exit. */
  ghost predicate Lost(procs: ProcessMap, dep: ProcessId, x: set<ProcessId>) {
    || dep in x || dep !in procs
    || procs[dep].state.Failed? || (procs[dep].state.Stopped? && !procs[dep].config.restartOnExit)
  }

  /** Losing one dependency is enough for the code to give up on the bindings `ids`. */
  lemma TerminalIsLost(procs: ProcessMap, ids: seq<ProcessId>)
    ensures HasTerminal(procs, ids) <==> exists i :: 0 <= i < |ids| && Lost(procs, ids[i], {})
  {
    if HasTerminal(procs, ids) {
      var i :| 0 <= i < |ids| && (ids[i] !in procs || procs[ids[i]].IsTerminalDependency());
      assert Lost(procs, ids[i], {});
    }
  }

  ghost predicate ClosedUnderLoss(procs: ProcessMap, x: set<ProcessId>) {
    forall id :: Loses(procs, id, x) ==> id in x
  }

  /** The map after removing some entries and changing none. */
  ghost predicate Shrinks(before: ProcessMap, after: ProcessMap) {
    forall id :: id in after ==> id in before && after[id] == before[id]
  }

  ghost predicate RunningIn(procs: ProcessMap, ids: seq<ProcessId>) {
    forall i :: 0 <= i < |ids| ==> ids[i] in procs ==> procs[ids[i]].state.Running?
  }

  lemma RunningWithDepsAreRunning(procs: ProcessMap, order: seq<ProcessId>)
    ensures forall id :: id in RunningWithDeps(procs, order) <==>
              id in order && id in procs && procs[id].state.Running? && procs[id].resolvedDeps != []
  {
    if order != [] {
      var n := |order| - 1;
      RunningWithDepsAreRunning(procs, order[..n]);
      assert order == order[..n] + [order[n]];
    }
  }

  /** One walk removes only members of every closed set. */
  lemma FailDependentsWithin(s0: State, s: State, ids: seq<ProcessId>, x: set<ProcessId>)
    requires Shrinks(s0.procs, s.procs) && s0.procs.Keys - s.procs.Keys <= x
    requires ClosedUnderLoss(s0.procs, x) && RunningIn(s.procs, ids)
    ensures var s' := FailDependents(s, ids);
            && Shrinks(s.procs, s'.procs) && s0.procs.Keys - s'.procs.Keys <= x
  {
    if ids != [] {
      var n := |ids| - 1;
      FailDependentsWithin(s0, s, ids[..n], x);
      var s1 := FailDependents(s, ids[..n]);
      if ids[n] in s1.procs && HasTerminal(s1.procs, s1.procs[ids[n]].resolvedDeps) {
        var deps := s1.procs[ids[n]].resolvedDeps;
        var i :| 0 <= i < |deps| && (deps[i] !in s1.procs || s1.procs[deps[i]].IsTerminalDependency());
        assert Lost(s0.procs, deps[i], x);
        assert Loses(s0.procs, ids[n], x);
      }
    }
  }

  /** One walk leaves no process behind that had a terminal dependency when the walk began. */
  lemma FailDependentsThorough(s: State, ids: seq<ProcessId>)
    ensures var s' := FailDependents(s, ids);
            && Shrinks(s.procs, s'.procs)
            && (forall id :: id in s.procs && id !in ids ==> id in s'.procs)
            && (forall id :: id in ids && id in s.procs && HasTerminal(s.procs, s.procs[id].resolvedDeps) ==> id !in s'.procs)
            && ((forall id :: id in ids && id in s.procs ==> !HasTerminal(s.procs, s.procs[id].resolvedDeps)) ==> s' == s)
  {
    if ids != [] {
      var n := |ids| - 1;
      FailDependentsThorough(s, ids[..n]);
      assert ids == ids[..n] + [ids[n]];
      var s1 := FailDependents(s, ids[..n]);
      if ids[n] in s1.procs && HasTerminal(s.procs, s.procs[ids[n]].resolvedDeps) {
        var deps := s.procs[ids[n]].resolvedDeps;
        var i :| 0 <= i < |deps| && (deps[i] !in s.procs || s.procs[deps[i]].IsTerminalDependency());
        assert deps[i] !in s1.procs || s1.procs[deps[i]].IsTerminalDependency();
      }
    }
  }

  lemma FailFastKeepsEntries(s: State, order: seq<ProcessId>)
    ensures Shrinks(s.procs, FailFast(s, order).procs)
  {
    FailDependentsThorough(s, RunningWithDeps(s.procs, order));
  }

  /** No Running process has lost a dependency. */
  ghost predicate Stable(procs: ProcessMap) {
    forall id :: !Loses(procs, id, {})
  }

  lemma StableIs(procs: ProcessMap)
    ensures Stable(procs) <==> forall id :: id in procs && procs[id].state.Running? ==> !HasTerminal(procs, procs[id].resolvedDeps)
  {
    hide Lost, HasTerminal;
    forall id | id in procs ensures Loses(procs, id, {}) <==> procs[id].state.Running? && HasTerminal(procs, procs[id].resolvedDeps) {
      TerminalIsLost(procs, procs[id].resolvedDeps);
    }
  }

  /** One pass changes nothing exactly when no Running process has a terminal dependency. */
  lemma PassStable(s: State, order: seq<ProcessId>)
    requires Enumerates(order, s.procs.Keys)
    ensures FailFast(s, order) == s <==> Stable(s.procs)
    ensures !Stable(s.procs) ==> (exists id :: id in RunningDependents(s.procs) && id !in FailFast(s, order).procs)
  {
    StableIs(s.procs);
    hide Stable;
    var ids := RunningWithDeps(s.procs, order);
    RunningWithDepsAreRunning(s.procs, order);
    FailDependentsThorough(s, ids);
    if id :| id in s.procs && s.procs[id].state.Running? && HasTerminal(s.procs, s.procs[id].resolvedDeps) {
      assert id in ids;
      assert id !in FailFast(s, order).procs;
    }
  }

  /** What one pass makes of a Running process, whatever the order of its walk: it goes if
      something it is bound to is not tracked, Failed, or Stopped for good, and otherwise
      only if something it is bound to goes in the same pass. */
  lemma PassFate(s: State, order: seq<ProcessId>, id: ProcessId)
    requires Enumerates(order, s.procs.Keys) && id in s.procs && s.procs[id].state.Running?
    ensures var procs, after, deps := s.procs, FailFast(s, order).procs, s.procs[id].resolvedDeps;
            && (id in after ==> after[id] == procs[id])
            && (id in after ==> forall i :: 0 <= i < |deps| ==>
                  deps[i] in procs && !procs[deps[i]].state.Failed? && (procs[deps[i]].state.Stopped? ==> procs[deps[i]].config.restartOnExit))
            && (id !in after ==> exists i ::
                  && 0 <= i < |deps|
                  && (deps[i] in after ==>
                        after[deps[i]].state.Failed? || (after[deps[i]].state.Stopped? && !after[deps[i]].config.restartOnExit)))
  {
    var ids, deps, after := RunningWithDeps(s.procs, order), s.procs[id].resolvedDeps, FailFast(s, order).procs;
    RunningWithDepsAreRunning(s.procs, order);
    FailDependentsThorough(s, ids);
    if id !in after { FailDependentsCaused(s, ids, id); }
    forall i | id in after && 0 <= i < |deps| ensures !Lost(s.procs, deps[i], {}) {
      TerminalIsLost(s.procs, deps);
      assert deps != [] && id in ids;
    }
    hide FailDependents, RunningWithDeps, HasTerminal, Enumerates;
  }

  /** Whom a walk removes has lost something by the end of it. */
  lemma FailDependentsCaused(s: State, ids: seq<ProcessId>, id: ProcessId)
    requires id in s.procs && id !in FailDependents(s, ids).procs
    ensures HasTerminal(FailDependents(s, ids).procs, s.procs[id].resolvedDeps)
  {
    var n := |ids| - 1;
    var s1, s' := FailDependents(s, ids[..n]), FailDependents(s, ids);
    FailDependentsThorough(s, ids[..n]);
    if id !in s1.procs { FailDependentsCaused(s, ids[..n], id); }
    var deps := s.procs[id].resolvedDeps;
    var i :| 0 <= i < |deps| && (deps[i] !in s1.procs || s1.procs[deps[i]].IsTerminalDependency());
    assert deps[i] !in s'.procs || s'.procs[deps[i]].IsTerminalDependency();
  }

  // ------------------------------------------------ when one pass suffices

  /** The Running processes that have lost a dependency already. */
  ghost function AtRisk(procs: ProcessMap): set<ProcessId> {
    set id | id in procs && Loses(procs, id, {})
  }

  lemma FailDependentsFrom(s: State, id: ProcessId, ids: seq<ProcessId>)
    ensures FailDependents(s, [id] + ids) == FailDependents(FailDependent(s, id), ids)
  {
    hide FailDependent;
    if ids == [] {
      assert [id][..0] == [] && [id] + ids == [id];
      assert FailDependents(s, []) == s;
    } else {
      var n := |ids| - 1;
      FailDependentsFrom(s, id, ids[..n]);
      assert ([id] + ids)[..n + 1] == [id] + ids[..n];
    }
  }

  lemma RunningWithDepsFrom(procs: ProcessMap, id: ProcessId, order: seq<ProcessId>)
    ensures RunningWithDeps(procs, [id] + order) == RunningWithDeps(procs, [id]) + RunningWithDeps(procs, order)
  {
    if order == [] {
      assert [id] + order == [id];
    } else {
      var n := |order| - 1;
      RunningWithDepsFrom(procs, id, order[..n]);
      assert ([id] + order)[..n + 1] == [id] + order[..n];
    }
  }

  /** A walk that begins with a process not at risk spares it, whatever the others lose. */
  lemma FirstIsSpared(s: State, id: ProcessId, rest: seq<ProcessId>)
    requires id in s.procs && !HasTerminal(s.procs, s.procs[id].resolvedDeps) && id !in rest
    ensures id in FailFast(s, [id] + rest).procs
    ensures forall x :: x in rest && x in AtRisk(s.procs) ==> x !in FailFast(s, [id] + rest).procs
  {
    var head, ids := RunningWithDeps(s.procs, [id]), RunningWithDeps(s.procs, rest);
    assert [id][..0] == [] && RunningWithDeps(s.procs, []) == [];
    assert head == [] || head == [id];
    RunningWithDepsFrom(s.procs, id, rest);
    RunningWithDepsAreRunning(s.procs, rest);
    assert FailDependent(s, id) == s;
    FailDependentsFrom(s, id, ids);
    assert FailFast(s, [id] + rest) == FailDependents(s, ids) by { if head == [] { assert head + ids == ids; } }
    FailDependentsThorough(s, ids);
    hide FailFast, FailDependents, FailDependent, RunningWithDeps;
  }

  /** If those at risk are closed, a pass removes them and nobody else, and leaves nobody at risk. */
  lemma ClosedPassStable(s: State, order: seq<ProcessId>)
    requires Enumerates(order, s.procs.Keys) && ClosedUnderLoss(s.procs, AtRisk(s.procs))
    ensures Stable(FailFast(s, order).procs) && s.procs.Keys - FailFast(s, order).procs.Keys == AtRisk(s.procs)
  {
    var ids, x, s' := RunningWithDeps(s.procs, order), AtRisk(s.procs), FailFast(s, order);
    RunningWithDepsAreRunning(s.procs, order);
    forall i | 0 <= i < |ids| ensures ids[i] in s.procs ==> s.procs[ids[i]].state.Running? {
      assert ids[i] in ids;
    }
    FailDependentsWithin(s, s, ids, x);
    FailDependentsThorough(s, ids);
    hide FailFast, FailDependents, RunningWithDeps;
    forall id | id in s'.procs && s'.procs[id].state.Running? ensures !HasTerminal(s'.procs, s'.procs[id].resolvedDeps) {
      if HasTerminal(s'.procs, s'.procs[id].resolvedDeps) { TerminalIsLoss(s.procs, s'.procs, id, x); }
    }
  }

  lemma TerminalIsLoss(before: ProcessMap, after: ProcessMap, id: ProcessId, x: set<ProcessId>)
    requires Shrinks(before, after) && before.Keys - after.Keys <= x
    requires id in after && after[id].state.Running? && HasTerminal(after, after[id].resolvedDeps)
    ensures Loses(before, id, x)
  {
    var deps := after[id].resolvedDeps;
    var i :| 0 <= i < |deps| && (deps[i] !in after || after[deps[i]].IsTerminalDependency());
    assert Lost(before, deps[i], x);
  }

  /** Who depends on somebody at risk without being at risk itself can be left behind. */
  lemma LeftBehind(s: State, id: ProcessId) returns (order: seq<ProcessId>)
    requires Loses(s.procs, id, AtRisk(s.procs)) && id !in AtRisk(s.procs)
    ensures Enumerates(order, s.procs.Keys) && !Stable(FailFast(s, order).procs)
  {
    var rest := Enumeration(s.procs.Keys - {id});
    order := [id] + rest;
    FirstIsSpared(s, id, rest);
    FailFastKeepsEntries(s, order);
    var deps := s.procs[id].resolvedDeps;
    var i :| 0 <= i < |deps| && Lost(s.procs, deps[i], AtRisk(s.procs));
    hide FailFast;
    assert deps[i] in AtRisk(s.procs) && deps[i] in rest;
    assert Lost(FailFast(s, order).procs, deps[i], {});
    assert Loses(FailFast(s, order).procs, id, {});
  }

  /** The exact condition for one pass to be enough in whatever order it walks: nobody
      who is not at risk depends on somebody who is. */
  lemma OnePassSuffices(s: State)
    ensures (forall order :: Enumerates(order, s.procs.Keys) ==> Stable(FailFast(s, order).procs))
       <==> ClosedUnderLoss(s.procs, AtRisk(s.procs))
  {
    hide FailFast, Stable, Loses, AtRisk, Enumerates;
    if ClosedUnderLoss(s.procs, AtRisk(s.procs)) {
      forall order | Enumerates(order, s.procs.Keys) ensures Stable(FailFast(s, order).procs) {
        ClosedPassStable(s, order);
      }
    } else {
      var id :| Loses(s.procs, id, AtRisk(s.procs)) && id !in AtRisk(s.procs);
      var order := LeftBehind(s, id);
    }
  }

  // ------------------------------------------------------ repeated passes

  function Passes(s: State, orders: seq<seq<ProcessId>>): State {
    if orders == [] then s else FailFast(Passes(s, orders[..|orders| - 1]), orders[|orders| - 1])
  }

  function RunningDependents(procs: ProcessMap): set<ProcessId> {
    set id | id in procs && procs[id].state.Running? && procs[id].resolvedDeps != []
  }

  lemma PassesShrink(s: State, orders: seq<seq<ProcessId>>)
    ensures Shrinks(s.procs, Passes(s, orders).procs)
  {
    if orders != [] {
      var n := |orders| - 1;
      PassesShrink(s, orders[..n]);
      var s1 := Passes(s, orders[..n]);
      FailDependentsThorough(s1, RunningWithDeps(s1.procs, orders[n]));
    }
  }

  /** However often and in whatever order the walk is repeated, it stays within every closed set. */
  lemma PassesWithin(s: State, orders: seq<seq<ProcessId>>, x: set<ProcessId>)
    requires ClosedUnderLoss(s.procs, x)
    ensures s.procs.Keys - Passes(s, orders).procs.Keys <= x
  {
    if orders != [] {
      var n := |orders| - 1;
      PassesWithin(s, orders[..n], x);
      PassesShrink(s, orders[..n]);
      var s1 := Passes(s, orders[..n]);
      RunningWithDepsAreRunning(s1.procs, orders[n]);
      var ids := RunningWithDeps(s1.procs, orders[n]);
      forall i | 0 <= i < |ids| ensures ids[i] in s1.procs ==> s1.procs[ids[i]].state.Running? {
        assert ids[i] in ids;
      }
      FailDependentsWithin(s, s1, ids, x);
    }
  }

  /** Each pass that still removes something removes a Running dependent. */
  lemma PassesSettle(s: State, orders: seq<seq<ProcessId>>)
    requires forall i :: 0 <= i < |orders| ==> Enumerates(orders[i], s.procs.Keys)
    ensures var s' := Passes(s, orders);
            Stable(s'.procs) || |RunningDependents(s'.procs)| + |orders| <= |RunningDependents(s.procs)|
  {
    if orders != [] {
      var n := |orders| - 1;
      PassesSettle(s, orders[..n]);
      PassesShrink(s, orders[..n]);
      var s1 := Passes(s, orders[..n]);
      var s' := FailFast(s1, orders[n]);
      PassStable(s1, orders[n]);
      FailDependentsThorough(s1, RunningWithDeps(s1.procs, orders[n]));
      if !Stable(s1.procs) {
        var id :| id in RunningDependents(s1.procs) && id !in s'.procs;
        SubsetCardinality(RunningDependents(s'.procs), RunningDependents(s1.procs) - {id});
      }
    }
  }

  lemma UnstableHasDependents(procs: ProcessMap)
    ensures Stable(procs) || RunningDependents(procs) != {}
  {
    if id :| id in procs && procs[id].state.Running? && HasTerminal(procs, procs[id].resolvedDeps) {
      assert id in RunningDependents(procs);
    }
  }

  lemma LossIsTerminal(before: ProcessMap, after: ProcessMap, id: ProcessId)
    requires Shrinks(before, after) && id in after && Loses(before, id, before.Keys - after.Keys)
    ensures HasTerminal(after, after[id].resolvedDeps)
  {
    var deps := before[id].resolvedDeps;
    var i :| 0 <= i < |deps| && Lost(before, deps[i], before.Keys - after.Keys);
    assert deps[i] !in after || after[deps[i]].IsTerminalDependency();
  }

  /** Fail-fast is confluent: after as many passes as there are Running dependents
      the removed processes are the least set closed under losing a dependency,
      whatever the order of each pass, and further passes change nothing. */
  lemma FailFastConfluent(s: State, orders: seq<seq<ProcessId>>)
    requires forall i :: 0 <= i < |orders| ==> Enumerates(orders[i], s.procs.Keys)
    requires |orders| >= |RunningDependents(s.procs)|
    ensures var s' := Passes(s, orders);
            var removed := s.procs.Keys - s'.procs.Keys;
            && Stable(s'.procs) && Shrinks(s.procs, s'.procs)
            && ClosedUnderLoss(s.procs, removed)
            && (forall x :: ClosedUnderLoss(s.procs, x) ==> removed <= x)
  {
    var s' := Passes(s, orders);
    PassesSettle(s, orders);
    PassesShrink(s, orders);
    UnstableHasDependents(s'.procs);
    StableIs(s'.procs);
    hide Stable, Passes, Loses, Lost, HasTerminal;
    var removed := s.procs.Keys - s'.procs.Keys;
    forall id | Loses(s.procs, id, removed) ensures id in removed {
      if id in s'.procs { LossIsTerminal(s.procs, s'.procs, id); }
    }
    forall x | ClosedUnderLoss(s.procs, x) ensures removed <= x {
      PassesWithin(s, orders, x);
    }
  }

  lemma WalkTwo(s: State, a: ProcessId, b: ProcessId)
    requires forall x :: x == a || x == b ==> x in s.procs && s.procs[x].state.Running? && s.procs[x].resolvedDeps != []
    ensures FailFast(s, [a, b]) == FailDependent(FailDependent(s, a), b)
  {
    hide FailDependent;
    assert [a, b][..1] == [a] && [a][..0] == [];
    assert RunningWithDeps(s.procs, [a]) == [a];
    assert RunningWithDeps(s.procs, [a, b]) == [a, b];
    assert FailDependents(s, [a]) == FailDependent(s, a);
  }

  /** Process b depends on process a, which depends on a process that is gone. */
  ghost predicate IsChain(procs: ProcessMap, a: ProcessId, b: ProcessId, gone: ProcessId) {
    && a != b && gone != a && gone != b && procs.Keys == {a, b} && procs[a].state.Running? && procs[b].state.Running?
    && procs[a].resolvedDeps == [gone] && procs[b].resolvedDeps == [a]
  }

  lemma ChainLosesHead(s: State, a: ProcessId, b: ProcessId, gone: ProcessId)
    requires IsChain(s.procs, a, b, gone)
    ensures FailDependent(s, b) == s
    ensures FailDependent(s, a).procs == map[b := s.procs[b]]
    ensures HasTerminal(FailDependent(s, a).procs, s.procs[b].resolvedDeps)
  {
    assert HasTerminal(s.procs, s.procs[a].resolvedDeps) by { assert s.procs[a].resolvedDeps[0] == gone; }
    assert !HasTerminal(s.procs, s.procs[b].resolvedDeps);
    var s1 := FailDependent(s, a);
    assert HasTerminal(s1.procs, s.procs[b].resolvedDeps) by { assert s.procs[b].resolvedDeps[0] == a; }
  }

  /** One pass is not enough, and what it removes depends on the order of the walk:
      a walk from the end of the chain leaves a dependent of a removed process behind. */
  lemma OnePassOnChain(s: State, a: ProcessId, b: ProcessId, gone: ProcessId)
    requires IsChain(s.procs, a, b, gone)
    ensures FailFast(s, [a, b]).procs.Keys == {}
    ensures FailFast(s, [b, a]).procs.Keys == {b} && !Stable(FailFast(s, [b, a]).procs)
  {
    WalkTwo(s, a, b);
    WalkTwo(s, b, a);
    ChainLosesHead(s, a, b, gone);
    StableIs(FailFast(s, [b, a]).procs);
    hide FailFast, HasTerminal;
  }
}
