/** How long a dependency stays bound to what it was first resolved to. */
module LabelBinding {
  import opened Basics
  import opened Processes
  import opened Resolution
  import opened Reaper
  import opened Invariants
  import opened ReapPhase
  import opened LaterPhases
  import opened FailFastPhase
  import opened Movement
  import opened Runs
  import opened Undisturbed

  /** Phase 4 leaves alone the bindings of everybody whose restart is not due. */
  lemma NotDueKeepsBindings(s: State, t: Tick, id: ProcessId)
    requires Invariant(s) && Faithful(t, s.procs.Keys) && id in s.procs && !DueForRestart(s.procs, id, t.now)
    ensures var s4 := Restarts(s, t);
            && id in s4.procs && s4.procs[id].resolvedDeps == s.procs[id].resolvedDeps
            && (s4.procs[id].state.Waiting? <==> s.procs[id].state.Waiting?)
  {
    NotDuePolled(s, t, id);
    hide Restarts, Invariant, Faithful;
  }

  /** If `id` stays tracked, its bindings are at most extended, and not at all unless it
      was Waiting; and it does not begin to wait. */
  ghost predicate KeepsBindings(s: State, s': State, id: ProcessId) {
    id in s.procs && id in s'.procs ==>
      var p, q := s.procs[id], s'.procs[id];
      && (if p.state.Waiting? then p.resolvedDeps <= q.resolvedDeps else q.resolvedDeps == p.resolvedDeps)
      && (q.state.Waiting? ==> p.state.Waiting?)
  }

  /** A whole cycle only ever extends the bindings of a Waiting process and does not
      touch those of any other, unless the process restarts in this very cycle. */
  lemma BindingsPersist(s: State, t: Tick, id: ProcessId)
    requires Reachable(s) && Faithful(t, s.procs.Keys)
    ensures DueForRestart(Reap(s, t).procs, id, t.now) || KeepsBindings(s, Cycle(s, t), id)
  {
    ReachableInvariant(s);
    CycleAccounts(s, t, id);
    ReapInvariant(s, t);
    var s3 := Reap(s, t);
    if id in s.procs && id in Cycle(s, t).procs && !DueForRestart(s3.procs, id, t.now) {
      ReapedShape(s, id, t);
      assert s3.procs[id].resolvedDeps == s.procs[id].resolvedDeps;
      AfterReapIs(s, t);
      hide Reap, Restarts, Waiters, FailFast, Cycle, Invariant, Faithful, DueForRestart, EventCount, Reachable, Seen, PollEntry;
      var s4 := Restarts(s3, t);
      RestartsAdvance(s3, t);
      FaithfulShrinks(t, s3.procs.Keys, s4.procs.Keys);
      NotDueKeepsBindings(s3, t, id);
      WaitersExtend(s4, t, id);
    }
  }

  lemma WaitersExtend(s: State, t: Tick, id: ProcessId)
    requires Invariant(s) && Faithful(t, s.procs.Keys) && id in s.procs
    ensures KeepsBindings(s, FailFast(Waiters(s, t), t.order(AtFailFast)), id)
  {
    WaitersShape(s, t);
    FailFastKeepsEntries(Waiters(s, t), t.order(AtFailFast));
    VerdictExtends(s.procs, id, t);
    hide Waiters, FailFast, VerdictOn, Invariant, Faithful;
  }

  lemma VerdictExtends(procs: ProcessMap, id: ProcessId, t: Tick)
    requires id in procs
    ensures procs[id].resolvedDeps <= VerdictOn(procs, id, t).resolvedDeps
  {
  }

  /** An automatic restart looks every label up again: what was bound before has no say. */
  lemma RestartLooksUp(s: State, t: Tick, id: ProcessId)
    requires id in s.procs && s.procs[id].id == id && s.procs[id].config.dependsOn != []
    requires id in PerformRestart(s, id, t).procs
    ensures PerformRestart(s, id, t).procs[id].resolvedDeps
         == Bindings(s.procs, t.order(AtLookup(id)), s.procs[id].config.dependsOn)
  {
    RestartPollsOnlyPoll(s, id, t);
    hide Bindings, PollDeps;
  }

  // ------------------------------------------------------- over runs

  /** The k-th step binds `id` anew: a cycle that ends its backoff wait, or a restart by
      hand out of another state, which forgets the bindings. */
  ghost predicate RebindsAt(r: Run, k: nat, id: ProcessId) {
    ForcedAt(r, k, id) || (CycleAt(r, k) && DueForRestart(Reap(r.states[k], r.steps[k].tick).procs, id, r.steps[k].tick.now))
  }

  lemma RebindsIs(r: Run, k: nat, id: ProcessId)
    requires k < |r.steps| && k < |r.states| && !RebindsAt(r, k, id)
    ensures !Forces(r.states[k], r.steps[k], id)
    ensures r.steps[k].DoCycle? ==> !DueForRestart(Reap(r.states[k], r.steps[k].tick).procs, id, r.steps[k].tick.now)
  {
    hide Forces, DueForRestart, Reap;
  }

  lemma KeepsBindingsOn(a: State, b: State, c: State, id: ProcessId)
    requires id in b.procs && KeepsBindings(a, b, id) && KeepsBindings(b, c, id)
    ensures KeepsBindings(a, c, id) && KeepsBindings(a, a, id)
  {
  }

  lemma MarksKeepBindings(s: State, s': State, id: ProcessId)
    requires id in s.procs && (id in s'.procs ==> KeepsMarks(s.procs[id], s'.procs[id]))
    ensures KeepsBindings(s, s', id)
  {
  }

  /** How long a binding lasts in a run with calls and cycles of every kind: while the
      process stays tracked its bindings are only ever extended, and only while it is
      Waiting, until an automatic restart looks them up again or a restart by hand out
      of another state than the backoff wait forgets them. */
  lemma BindingsLast(r: Run, m: nat, n: nat, id: ProcessId)
    requires IsRun(r) && m <= n < |r.states| && id in r.states[m].procs && id in r.states[n].procs
    requires forall k :: m <= k < n ==> !RebindsAt(r, k, id)
    ensures KeepsBindings(r.states[m], r.states[n], id)
    decreases n
  {
    hide *;
    if m == n {
      KeepsBindingsSelf(r.states[m], id);
    } else {
      TrackedBetween(r, m, n - 1, n, id);
      BindingsLast(r, m, n - 1, id);
      LastStep(r, n);
      ReachableAt(r, n - 1);
      RunInvariant(r, n - 1);
      var s, step := r.states[n - 1], r.steps[n - 1];
      assert !RebindsAt(r, n - 1, id);
      RebindsIs(r, n - 1, id);
      if step.DoCycle? {
        CycleLegal(s, step);
        BindingsPersist(s, step.tick, id);
      } else {
        CallKeepsMarks(s, step, id);
        MarksKeepBindings(s, r.states[n], id);
      }
      KeepsBindingsOn(r.states[m], s, r.states[n], id);
    }
  }

  lemma KeepsBindingsSelf(s: State, id: ProcessId)
    ensures KeepsBindings(s, s, id)
  {
  }

  // ------------------------------------------------------- one restart

  /** `x` carries the label and is Running or Starting. */
  ghost predicate Bears(procs: ProcessMap, x: ProcessId, tag: Label) {
    x in procs && procs[x].tag == tag && (procs[x].state.Running? || procs[x].state.Starting?)
  }

  lemma BearsIs(procs: ProcessMap, x: ProcessId, tag: Label)
    ensures Bears(procs, x, tag) <==> Matches(procs, x, tag, true)
  {
  }

  /** `x` is what `d` is bound to in every walk: the very id, or the only live process with the label. */
  ghost predicate SoleBearer(procs: ProcessMap, d: DependencyRef, x: ProcessId) {
    match d
    case OnId(id) => x == id
    case OnLabel(tag) => Bears(procs, x, tag) && forall y :: Bears(procs, y, tag) ==> y == x
  }

  /** The bindings of `p` are those of a fresh look-up, whatever its walk. */
  ghost predicate BindingFixed(procs: ProcessMap, p: Process) {
    var bound, deps := p.resolvedDeps, p.config.dependsOn;
    || deps == []
    || (|bound| == |deps| && forall i :: 0 <= i < |deps| ==> SoleBearer(procs, deps[i], bound[i]))
    || (bound == [] && exists i :: 0 <= i < |deps| && deps[i].OnLabel? && forall y :: !Bears(procs, y, deps[i].tag))
  }

  lemma FixedBinds(procs: ProcessMap, order: seq<ProcessId>, p: Process)
    requires BindingFixed(procs, p) && Enumerates(order, procs.Keys) && p.config.dependsOn != []
    ensures Bindings(procs, order, p.config.dependsOn) == p.resolvedDeps
  {
    var bound, deps := p.resolvedDeps, p.config.dependsOn;
    var found := Resolve(procs, order, deps);
    hide Resolve;
    if found.Some? {
      forall i | 0 <= i < |deps|
        ensures Binds(procs, deps[i], found.value[i]) && (deps[i].OnLabel? ==> Bears(procs, found.value[i], deps[i].tag)) {}
      if |bound| == |deps| { assert found.value == bound; }
    } else {
      var i :| 0 <= i < |deps| && ResolveOne(procs, order, deps[i]).None?;
      forall y ensures !Bears(procs, y, deps[i].tag) {
        BearsIs(procs, y, deps[i].tag);
        assert y in procs.Keys ==> y in order;
      }
    }
  }

  lemma RestartStays(s: State, t: Tick, id: ProcessId)
    requires id in s.procs && s.procs[id].id == id && t.spawn(id).Some?
    ensures id in PerformRestart(s, id, t).procs
    ensures s.procs[id].config.dependsOn == [] ==> PerformRestart(s, id, t).procs[id].resolvedDeps == s.procs[id].resolvedDeps
  {
    hide Bindings, PollDeps, RunningLabels;
  }

  /** A cycle with the given walk, in which everything is alive and every spawn succeeds. */
  ghost function CalmTick(order: seq<ProcessId>): Tick {
    Tick(0.0, site => order, id => Alive, (id, n) => Alive, id => Some(1), reading => 0.0)
  }

  lemma FindsHead(procs: ProcessMap, y: ProcessId, rest: seq<ProcessId>, tag: Label)
    requires Matches(procs, y, tag, true)
    ensures Find(procs, [y] + rest, tag, true) == Some(y)
  {
  }

  /** A binding that is not fixed is changed by a restart with some walk. */
  lemma Wavers(s: State, id: ProcessId) returns (t: Tick)
    requires id in s.procs && s.procs[id].id == id && !BindingFixed(s.procs, s.procs[id])
    ensures Faithful(t, s.procs.Keys) && id in PerformRestart(s, id, t).procs
    ensures PerformRestart(s, id, t).procs[id].resolvedDeps != s.procs[id].resolvedDeps
  {
    var p := s.procs[id];
    var order := Enumeration(s.procs.Keys);
    if Bindings(s.procs, order, p.config.dependsOn) == p.resolvedDeps {
      order := OtherWalk(s.procs, order, p);
    }
    t := CalmTick(order);
    assert t.order(AtLookup(id)) == order;
    RestartStays(s, t, id);
    RestartLooksUp(s, t, id);
    hide Bindings, PerformRestart, BindingFixed;
  }

  /** A walk that begins with another live process of a label. */
  lemma OtherWalk(procs: ProcessMap, order: seq<ProcessId>, p: Process) returns (other: seq<ProcessId>)
    requires Enumerates(order, procs.Keys) && !BindingFixed(procs, p)
    requires Bindings(procs, order, p.config.dependsOn) == p.resolvedDeps
    ensures Enumerates(other, procs.Keys) && Bindings(procs, other, p.config.dependsOn) != p.resolvedDeps
  {
    var bound, deps := p.resolvedDeps, p.config.dependsOn;
    var i := UnfixedReference(procs, order, p);
    hide Bindings, Find, Enumerates;
    BearsIs(procs, bound[i], deps[i].tag);
    var y :| Bears(procs, y, deps[i].tag) && y != bound[i];
    BearsIs(procs, y, deps[i].tag);
    hide Matches, Bears, SoleBearer, BindingFixed;
    var rest := Enumeration(procs.Keys - {y});
    other := [y] + rest;
    Prepended(procs.Keys, y, rest);
    FindsHead(procs, y, rest, deps[i].tag);
    BoundAs(procs, other, deps, i, y);
  }

  /** A binding just looked up that is not fixed is full, and has a label with another live bearer. */
  lemma UnfixedReference(procs: ProcessMap, order: seq<ProcessId>, p: Process) returns (i: nat)
    requires Enumerates(order, procs.Keys) && !BindingFixed(procs, p)
    requires Bindings(procs, order, p.config.dependsOn) == p.resolvedDeps
    ensures var bound, deps := p.resolvedDeps, p.config.dependsOn;
            i < |deps| == |bound| && !SoleBearer(procs, deps[i], bound[i]) && Binds(procs, deps[i], bound[i])
  {
    var bound, deps := p.resolvedDeps, p.config.dependsOn;
    var found := Resolve(procs, order, deps);
    hide Find, Resolve;
    assert found == Some(bound);
    i :| 0 <= i < |deps| && !SoleBearer(procs, deps[i], bound[i]);
  }

  /** A full binding has at each place what the look-up there finds. */
  lemma BoundAs(procs: ProcessMap, order: seq<ProcessId>, deps: seq<DependencyRef>, i: nat, y: ProcessId)
    requires i < |deps| && ResolveOne(procs, order, deps[i]) == Some(y)
    ensures |Bindings(procs, order, deps)| == |deps| ==> Bindings(procs, order, deps)[i] == y
  {
    hide Resolve, Find;
  }

  lemma Prepended(keys: set<ProcessId>, y: ProcessId, rest: seq<ProcessId>)
    requires Enumerates(rest, keys - {y}) && forall x :: x in rest ==> x in keys - {y}
    ensures Enumerates([y] + rest, keys)
  {
  }

  /** A binding survives an automatic restart with every walk if and only if each
      reference is bound to what bears it alone (an id to itself, a label to the only
      live process with it), or there is none and some label has no live process. */
  lemma RebindingExact(s: State, id: ProcessId)
    requires id in s.procs && s.procs[id].id == id
    ensures (forall t :: Faithful(t, s.procs.Keys) && id in PerformRestart(s, id, t).procs ==>
                           PerformRestart(s, id, t).procs[id].resolvedDeps == s.procs[id].resolvedDeps)
       <==> BindingFixed(s.procs, s.procs[id])
  {
    var p := s.procs[id];
    if BindingFixed(s.procs, p) {
      forall t | Faithful(t, s.procs.Keys) && id in PerformRestart(s, id, t).procs
        ensures PerformRestart(s, id, t).procs[id].resolvedDeps == p.resolvedDeps
      {
        FixedSurvives(s, id, t);
      }
    } else {
      var t := Wavers(s, id);
    }
    hide PerformRestart, BindingFixed, Faithful;
  }

  lemma FixedSurvives(s: State, id: ProcessId, t: Tick)
    requires id in s.procs && s.procs[id].id == id && BindingFixed(s.procs, s.procs[id])
    requires Faithful(t, s.procs.Keys) && id in PerformRestart(s, id, t).procs
    ensures PerformRestart(s, id, t).procs[id].resolvedDeps == s.procs[id].resolvedDeps
  {
    if s.procs[id].config.dependsOn == [] {
      NoDepsNoRebinding(s, id, t);
    } else {
      RestartLooksUp(s, t, id);
      FixedBinds(s.procs, t.order(AtLookup(id)), s.procs[id]);
    }
    hide PerformRestart, BindingFixed, Bindings;
  }

  lemma NoDepsNoRebinding(s: State, id: ProcessId, t: Tick)
    requires id in s.procs && s.procs[id].id == id && s.procs[id].config.dependsOn == []
    requires id in PerformRestart(s, id, t).procs
    ensures PerformRestart(s, id, t).procs[id].resolvedDeps == s.procs[id].resolvedDeps
  {
    hide RunningLabels;
  }
}
