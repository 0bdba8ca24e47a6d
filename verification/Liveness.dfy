/** Start-up: dependency chains come up one level per cycle. */
module Liveness {
  import opened Basics
  import opened Processes
  import opened Resolution
  import opened Reaper
  import opened Manager
  import opened Invariants
  import opened ReapPhase
  import opened LaterPhases
  import opened WaitingPhase
  import opened FailFastPhase
  import opened Movement
  import opened Cascades
  import opened Calls
  import opened Runs
  import opened BindingCounts
  import opened Starvation

  /** Every process referred to by its id is tracked. */
  ghost predicate RefsTracked(procs: ProcessMap, deps: seq<DependencyRef>) {
    forall x :: OnId(x) in deps ==> x in procs
  }

  /** `x` is referred to by its id, or is spawned and carries a label that is referred to. */
  ghost predicate Declared(procs: ProcessMap, deps: seq<DependencyRef>, x: ProcessId) {
    x in procs && (OnId(x) in deps || (OnLabel(procs[x].tag) in deps && !procs[x].state.Waiting?))
  }

  ghost predicate BoundToDeclared(procs: ProcessMap, p: Process) {
    forall i :: 0 <= i < |p.resolvedDeps| ==> Declared(procs, p.config.dependsOn, p.resolvedDeps[i])
  }

  /** One entry during start-up: nobody has exited, and a Waiting process has at most
      one binding for each reference that counts as resolved. */
  ghost predicate ComingUp(procs: ProcessMap, p: Process) {
    && RefsTracked(procs, p.config.dependsOn)
    && (p.state.Waiting? || p.state.Starting? || p.state.Running?)
    && BoundToDeclared(procs, p)
    && (p.state.Waiting? ==> p.config.dependsOn != []
                             && |p.resolvedDeps| <= ResolvedCount(procs, p.resolvedDeps, p.config.dependsOn))
  }

  ghost predicate Launching(s: State) {
    forall id :: id in s.procs ==> ComingUp(s.procs, s.procs[id])
  }

  /** `after` has everybody of `before`, under the same label, and nobody waits again. */
  ghost predicate Onward(before: ProcessMap, after: ProcessMap) {
    && before.Keys <= after.Keys
    && forall id :: id in before ==>
         after[id].tag == before[id].tag && (!before[id].state.Waiting? ==> !after[id].state.Waiting?)
  }

  /** No exits, no failed spawns, no expired timeout. */
  ghost predicate Calm(s: State, t: Tick) {
    && Faithful(t, s.procs.Keys)
    && (forall id :: t.exit(id).Alive? && t.spawn(id).Some?)
    && (forall id :: id in s.procs && s.procs[id].state.Waiting? && s.procs[id].waitingSince.Some? ==>
          Elapsed(s.procs[id].waitingSince.value, t.clock(OnTimeoutCheck(id))) < s.procs[id].config.dependencyTimeout)
  }

  /** Every reference of `id` is to, or to the label of, a tracked process outside
      `stuck` from which dependency chains have less than `d` links. */
  ghost predicate DepsWithin(procs: ProcessMap, stuck: set<ProcessId>, id: ProcessId, d: nat): (bounded: bool)
    ensures bounded ==> id in procs
    decreases d, 0
  {
    && id in procs
    && (forall tag :: OnLabel(tag) in procs[id].config.dependsOn ==>
          d > 0 && exists x :: x in procs && procs[x].tag == tag && DepthAtMost(procs, stuck, x, d - 1))
    && (forall x :: OnId(x) in procs[id].config.dependsOn ==> d > 0 && DepthAtMost(procs, stuck, x, d - 1))
  }

  ghost predicate DepthAtMost(procs: ProcessMap, stuck: set<ProcessId>, id: ProcessId, d: nat): (bounded: bool)
    ensures bounded ==> id in procs
    decreases d, 1
  {
    id !in stuck && DepsWithin(procs, stuck, id, d)
  }

  // ------------------------------------------------------- phases 1 to 4

  /** Nothing happens in phase 1 but that Starting processes become Running. */
  lemma CalmReaped(s: State, t: Tick, id: ProcessId)
    requires Structural(s) && Launching(s) && Calm(s, t) && id in s.procs
    ensures var p, s3 := s.procs[id], Reap(s, t);
            && id in s3.procs
            && s3.procs[id].id == p.id && s3.procs[id].tag == p.tag && s3.procs[id].config == p.config
            && s3.procs[id].resolvedDeps == p.resolvedDeps && s3.procs[id].waitingSince == p.waitingSince
            && s3.procs[id].state == if p.state.Starting? then Running else p.state
  {
    assert forall x :: x in s.procs ==> !ExitSeen(s, x, t);
    NoNewCascade(s, t);
    TargetsExact(s, id, t);
    assert ComingUp(s.procs, s.procs[id]);
    hide GoesDown, IsTargeted, Faithful, ResolvedCount;
  }

  lemma CalmReap(s: State, t: Tick)
    requires Invariant(s) && Launching(s) && Calm(s, t)
    ensures var s3 := Reap(s, t);
            && s3.procs.Keys == s.procs.Keys && Invariant(s3) && Faithful(t, s3.procs.Keys)
            && (forall id :: id in s.procs ==>
                  && s3.procs[id].tag == s.procs[id].tag && s3.procs[id].config == s.procs[id].config
                  && s3.procs[id].resolvedDeps == s.procs[id].resolvedDeps
                  && s3.procs[id].waitingSince == s.procs[id].waitingSince
                  && s3.procs[id].state == if s.procs[id].state.Starting? then Running else s.procs[id].state)
  {
    ReapInvariant(s, t);
    forall id | id in s.procs
      ensures id in Reap(s, t).procs
              && Reap(s, t).procs[id].tag == s.procs[id].tag && Reap(s, t).procs[id].config == s.procs[id].config
              && Reap(s, t).procs[id].resolvedDeps == s.procs[id].resolvedDeps
              && Reap(s, t).procs[id].waitingSince == s.procs[id].waitingSince
              && Reap(s, t).procs[id].state == if s.procs[id].state.Starting? then Running else s.procs[id].state
    {
      CalmReaped(s, t, id);
    }
    hide Invariant, Launching, Calm, Faithful;
  }

  lemma NobodyDue(procs: ProcessMap, order: seq<ProcessId>, now: Time)
    requires forall id :: id in procs ==> !procs[id].state.Restarting?
    ensures RestartIds(procs, order, now) == []
  {
    if order != [] { NobodyDue(procs, order[..|order| - 1], now); }
  }

  // ------------------------------------------------------------- phase 5

  lemma SameResolved(a: ProcessMap, b: ProcessMap, bound: seq<ProcessId>, deps: seq<DependencyRef>)
    requires forall i :: 0 <= i < |bound| ==> bound[i] in a && bound[i] in b && a[bound[i]].tag == b[bound[i]].tag
    ensures ResolvedCount(a, bound, deps) == ResolvedCount(b, bound, deps)
  {
    ResolvedCountMonotone(a, bound, b, bound, deps);
    ResolvedCountMonotone(b, bound, a, bound, deps);
  }

  lemma NewBindingCompletes(procs: ProcessMap, order: seq<ProcessId>, bound: seq<ProcessId>, d: DependencyRef)
    requires Enumerates(order, procs.Keys) && (d.OnLabel? ==> Up(procs, d.tag))
    ensures |NewBinding(procs, order, bound, d)| + (if Resolved(procs, bound, d) then 1 else 0) == 1
  {
    if d.OnLabel? && !Resolved(procs, bound, d) { NothingFound(procs, order, bound, d.tag); }
    hide Resolved;
  }

  /** If every missing label has a Running process, nothing stays missing. */
  lemma NewlyResolvedCompletes(procs: ProcessMap, order: seq<ProcessId>, bound: seq<ProcessId>, deps: seq<DependencyRef>)
    requires Enumerates(order, procs.Keys)
    requires forall i :: 0 <= i < |deps| && deps[i].OnLabel? ==> Up(procs, deps[i].tag)
    ensures |NewlyResolved(procs, order, bound, deps)| + ResolvedCount(procs, bound, deps) == |deps|
  {
    hide NewBinding, Resolved, Up, Enumerates;
    if deps != [] {
      var n := |deps| - 1;
      assert forall i :: 0 <= i < n ==> deps[..n][i] == deps[i];
      NewlyResolvedCompletes(procs, order, bound, deps[..n]);
      NewBindingCompletes(procs, order, bound, deps[n]);
    }
  }

  /** Nobody coming up has lost a dependency. */
  lemma NothingTerminal(procs: ProcessMap, p: Process)
    requires forall id :: id in procs ==> ComingUp(procs, procs[id])
    requires BoundToDeclared(procs, p)
    ensures !HasTerminal(procs, p.resolvedDeps)
  {
    forall i | 0 <= i < |p.resolvedDeps|
      ensures p.resolvedDeps[i] in procs && !procs[p.resolvedDeps[i]].IsTerminalDependency()
    {
      assert ComingUp(procs, procs[p.resolvedDeps[i]]);
    }
  }

  /** Everything that `p` refers to is Running, every label by somebody. */
  ghost predicate DepsRunning(procs: ProcessMap, p: Process) {
    && (forall tag :: OnLabel(tag) in p.config.dependsOn ==> Up(procs, tag))
    && (forall x :: OnId(x) in p.config.dependsOn ==> x in procs && procs[x].state.Running?)
  }

  ghost predicate NobodyStarting(procs: ProcessMap) {
    forall id :: id in procs ==> !procs[id].state.Starting?
  }

  /** Then, once whoever was Starting is Running, so is whatever `p` is or becomes bound to. */
  lemma BoundRunning(procs: ProcessMap, p: Process)
    requires forall id :: id in procs ==> ComingUp(procs, procs[id])
    requires NobodyStarting(procs) && BoundToDeclared(procs, p) && DepsRunning(procs, p)
    ensures AllRunning(procs, p.resolvedDeps)
  {
    forall i | 0 <= i < |p.resolvedDeps| ensures p.resolvedDeps[i] in procs && procs[p.resolvedDeps[i]].state.Running? {
      assert ComingUp(procs, procs[p.resolvedDeps[i]]);
    }
  }

  /** What phase 5 binds is declared. */
  lemma NewlyDeclared(procs: ProcessMap, order: seq<ProcessId>, p: Process)
    requires BoundToDeclared(procs, p) && RefsTracked(procs, p.config.dependsOn)
    ensures var all := p.resolvedDeps + NewlyResolved(procs, order, p.resolvedDeps, p.config.dependsOn);
            BoundToDeclared(procs, p.(resolvedDeps := all))
  {
    var bound, deps := p.resolvedDeps, p.config.dependsOn;
    var newly := NewlyResolved(procs, order, bound, deps);
    forall i | 0 <= i < |newly| ensures Declared(procs, deps, newly[i]) {
      assert newly[i] in newly;
      NewlyFrom(procs, order, bound, deps, newly[i]);
    }
    hide NewlyResolved;
  }

  /** The verdict on a Waiting process during start-up: it is spawned if it is not
      starved and what it refers to is Running. */
  lemma CalmVerdict(s: State, id: ProcessId, t: Tick)
    requires Launching(s) && NobodyStarting(s.procs) && Faithful(t, s.procs.Keys) && id in s.procs && s.procs[id].state.Waiting?
    requires !TimedOut(s.procs[id], t.clock(OnTimeoutCheck(id)))
    ensures var p, v := s.procs[id], VerdictOn(s.procs, id, t);
            var q := p.(resolvedDeps := v.resolvedDeps);
            && !v.decision.ToFail? && BoundToDeclared(s.procs, q)
            && (DepsRunning(s.procs, p) && !Starved(s.procs, p) ==> v.decision.ToSpawn?)
            && |q.resolvedDeps| <= ResolvedCount(s.procs, q.resolvedDeps, p.config.dependsOn)
            && (Starved(s.procs, q) <==> Starved(s.procs, p) || HasOverlap(s.procs, p))
            && (Starved(s.procs, q) ==> !v.decision.ToSpawn?)
  {
    var p, order, at := s.procs[id], t.order(AtLookup(id)), t.clock(OnTimeoutCheck(id));
    var bound, deps := p.resolvedDeps, p.config.dependsOn;
    assert ComingUp(s.procs, p) && Enumerates(order, s.procs.Keys);
    NothingTerminal(s.procs, p);
    JudgedBinding(s.procs, p, order, at);
    SparingStarves(s.procs, p, order, at);
    var all := bound + NewlyResolved(s.procs, order, bound, deps);
    NewlyResolvedSparing(s.procs, order, bound, deps, all);
    NewlyDeclared(s.procs, order, p);
    hide NewlyResolved, HasTerminal, Faithful, Judge, AllRunning, TimedOut, HasOverlap, BoundToDeclared, ResolvedCount, Enumerates;
    if DepsRunning(s.procs, p) {
      forall i | 0 <= i < |deps| && deps[i].OnLabel? ensures Up(s.procs, deps[i].tag) {
        assert OnLabel(deps[i].tag) in deps;
      }
      hide Up;
      NewlyResolvedCompletes(s.procs, order, bound, deps);
      BoundRunning(s.procs, p.(resolvedDeps := all));
    }
  }

  // ------------------------------------------------------------ one cycle

  /** The map before phase 5. */
  lemma CalmBeforeWaiters(s: State, t: Tick)
    requires Invariant(s) && Launching(s) && Calm(s, t)
    ensures var s3 := Reap(s, t);
            && Restarts(s3, t) == s3 && Launching(s3) && Invariant(s3) && Faithful(t, s3.procs.Keys)
            && (forall id :: id in s3.procs && s3.procs[id].state.Waiting? ==>
                  !TimedOut(s3.procs[id], t.clock(OnTimeoutCheck(id))))
  {
    hide *;
    CalmReap(s, t);
    CalmWaitersTimely(s, Reap(s, t), t);
    LaunchingReaped(s, Reap(s, t));
    NoRestarts(Reap(s, t), t);
  }

  lemma CalmWaitersTimely(s: State, s3: State, t: Tick)
    requires Calm(s, t) && s3.procs.Keys == s.procs.Keys
    requires forall id :: id in s.procs ==>
               && s3.procs[id].config == s.procs[id].config && s3.procs[id].waitingSince == s.procs[id].waitingSince
               && s3.procs[id].state == if s.procs[id].state.Starting? then Running else s.procs[id].state
    ensures forall id :: id in s3.procs && s3.procs[id].state.Waiting? ==> !TimedOut(s3.procs[id], t.clock(OnTimeoutCheck(id)))
  {
    hide Faithful;
  }

  lemma LaunchingReaped(s: State, s3: State)
    requires Launching(s) && s3.procs.Keys == s.procs.Keys
    requires forall id :: id in s.procs ==>
               && s3.procs[id].tag == s.procs[id].tag && s3.procs[id].config == s.procs[id].config
               && s3.procs[id].resolvedDeps == s.procs[id].resolvedDeps
               && s3.procs[id].state == if s.procs[id].state.Starting? then Running else s.procs[id].state
    ensures Launching(s3)
  {
    assert Onward(s.procs, s3.procs);
    hide ComingUp, Onward;
    forall id | id in s3.procs ensures ComingUp(s3.procs, s3.procs[id]) {
      LaunchingState(s, id);
      EntryReaped(s.procs, s3.procs, s.procs[id], s3.procs[id]);
    }
  }

  lemma EntryReaped(a: ProcessMap, b: ProcessMap, p: Process, q: Process)
    requires ComingUp(a, p) && Onward(a, b)
    requires q.config == p.config && q.resolvedDeps == p.resolvedDeps && (q.state.Waiting? <==> p.state.Waiting?)
    requires q.state.Waiting? || q.state.Starting? || q.state.Running?
    ensures ComingUp(b, q)
  {
    SameResolved(a, b, p.resolvedDeps, p.config.dependsOn);
    hide ResolvedCount;
  }

  lemma NoRestarts(s: State, t: Tick)
    requires Launching(s)
    ensures Restarts(s, t) == s
  {
    forall id | id in s.procs ensures !s.procs[id].state.Restarting? {
      assert ComingUp(s.procs, s.procs[id]);
    }
    hide ComingUp;
    NobodyDue(s.procs, t.order(AtRestart), t.now);
  }

  /** Phase 5 on a launching state in which nobody is Starting: whoever is ready is
      spawned, nobody fails, and the starved are those that were or have an overlap. */
  lemma CalmWaiters(s: State, t: Tick)
    requires Invariant(s) && Launching(s) && NobodyStarting(s.procs) && Faithful(t, s.procs.Keys)
    requires forall id :: id in s.procs && s.procs[id].state.Waiting? ==> !TimedOut(s.procs[id], t.clock(OnTimeoutCheck(id)))
    requires forall id :: t.spawn(id).Some?
    ensures var s5 := Waiters(s, t);
            && s5.procs.Keys == s.procs.Keys && Launching(s5)
            && (forall id :: id in s.procs ==>
                  s5.procs[id].tag == s.procs[id].tag && s5.procs[id].config == s.procs[id].config)
            && (forall id :: id in s.procs && !s.procs[id].state.Waiting? ==> s5.procs[id].state == s.procs[id].state)
            && (forall id :: id in s.procs && Ready(s.procs, s.procs[id]) ==> s5.procs[id].state.Starting?)
            && (forall id :: id in s.procs ==>
                  (Starved(s5.procs, s5.procs[id]) <==> BecomesStarved(s.procs, s.procs[id])))
  {
    WaitersTracked(s, t);
    hide *;
    var s5 := Waiters(s, t);
    forall id | id in s.procs
      ensures id in s5.procs && s5.procs[id].tag == s.procs[id].tag && s5.procs[id].config == s.procs[id].config
      ensures !s.procs[id].state.Waiting? ==> s5.procs[id].state == s.procs[id].state
      ensures Ready(s.procs, s.procs[id]) ==> s5.procs[id].state.Starting?
      ensures ComingUp(s.procs, s5.procs[id]) && (Starved(s.procs, s5.procs[id]) <==> BecomesStarved(s.procs, s.procs[id]))
    {
      CalmWaiterInMap(s, t, id);
    }
    LaunchingKept(s, s5);
    forall id | id in s.procs ensures Starved(s5.procs, s5.procs[id]) <==> Starved(s.procs, s5.procs[id]) {
      SameStarved(s.procs, s5.procs, s5.procs[id]);
    }
  }

  ghost predicate Ready(procs: ProcessMap, p: Process) {
    p.state.Waiting? && DepsRunning(procs, p) && !Starved(procs, p)
  }

  ghost predicate BecomesStarved(procs: ProcessMap, p: Process) {
    p.state.Waiting? && (Starved(procs, p) || HasOverlap(procs, p))
  }

  lemma SameStarved(a: ProcessMap, b: ProcessMap, p: Process)
    requires ComingUp(a, p) && a.Keys <= b.Keys && forall id :: id in a ==> b[id].tag == a[id].tag
    ensures Starved(a, p) <==> Starved(b, p)
  {
    SameResolved(a, b, p.resolvedDeps, p.config.dependsOn);
  }

  lemma LaunchingKept(s: State, s5: State)
    requires Launching(s) && s5.procs.Keys == s.procs.Keys
    requires forall id :: id in s.procs ==> s5.procs[id].tag == s.procs[id].tag && ComingUp(s.procs, s5.procs[id])
    requires forall id :: id in s.procs && !s.procs[id].state.Waiting? ==> !s5.procs[id].state.Waiting?
    ensures Launching(s5)
  {
    hide ComingUp;
    forall id | id in s5.procs ensures ComingUp(s5.procs, s5.procs[id]) {
      ComingUpKept(s.procs, s5.procs, s5.procs[id]);
    }
  }

  lemma CalmWaiterInMap(s: State, t: Tick, id: ProcessId)
    requires Invariant(s) && Launching(s) && NobodyStarting(s.procs) && Faithful(t, s.procs.Keys) && id in s.procs && t.spawn(id).Some?
    requires s.procs[id].state.Waiting? ==> !TimedOut(s.procs[id], t.clock(OnTimeoutCheck(id)))
    ensures var s5 := Waiters(s, t);
            && id in s5.procs && s5.procs[id].tag == s.procs[id].tag && s5.procs[id].config == s.procs[id].config
            && (!s.procs[id].state.Waiting? ==> s5.procs[id].state == s.procs[id].state)
            && (Ready(s.procs, s.procs[id]) ==> s5.procs[id].state.Starting?)
            && ComingUp(s.procs, s5.procs[id])
            && (Starved(s.procs, s5.procs[id]) <==> BecomesStarved(s.procs, s.procs[id]))
  {
    WaitersShape(s, t);
    if s.procs[id].state.Waiting? { CalmVerdict(s, id, t); }
    hide Waiters, VerdictOn, Invariant, Launching, NobodyStarting, Faithful, Ready, BecomesStarved, Starved, ComingUp;
    CalmWaiter(s, t, id, Waiters(s, t).procs[id]);
  }

  lemma ComingUpKept(a: ProcessMap, b: ProcessMap, p: Process)
    requires ComingUp(a, p) && Onward(a, b)
    ensures ComingUp(b, p)
  {
    SameResolved(a, b, p.resolvedDeps, p.config.dependsOn);
  }

  lemma CalmWaiter(s: State, t: Tick, id: ProcessId, q: Process)
    requires Launching(s) && NobodyStarting(s.procs) && Faithful(t, s.procs.Keys) && id in s.procs && t.spawn(id).Some?
    requires s.procs[id].state.Waiting? ==> !TimedOut(s.procs[id], t.clock(OnTimeoutCheck(id)))
    requires s.procs[id].state.Waiting? ==> !VerdictOn(s.procs, id, t).decision.ToFail? ==>
               q == if VerdictOn(s.procs, id, t).decision.ToSpawn?
                    then Spawned(JudgedMap(s.procs, t)[id], t.spawn(id).value, t.clock(OnSpawn(id)))
                    else JudgedMap(s.procs, t)[id]
    requires !s.procs[id].state.Waiting? ==> q == s.procs[id]
    ensures q.tag == s.procs[id].tag && q.config == s.procs[id].config && ComingUp(s.procs, q)
    ensures !s.procs[id].state.Waiting? ==> q.state == s.procs[id].state
    ensures Ready(s.procs, s.procs[id]) ==> q.state.Starting?
    ensures Starved(s.procs, q) <==> BecomesStarved(s.procs, s.procs[id])
  {
    assert ComingUp(s.procs, s.procs[id]);
    if s.procs[id].state.Waiting? {
      CalmVerdict(s, id, t);
    }
    hide VerdictOn, NobodyStarting, Faithful, DepsRunning, ResolvedCount, HasOverlap;
  }

  /** One calm cycle: nobody leaves, Starting becomes Running, and a Waiting process
      that is not starved is spawned if what it refers to has been; starved are those
      that were, and those with a clash. */
  lemma CalmCycle(s: State, t: Tick)
    requires Invariant(s) && Launching(s) && Calm(s, t)
    ensures var s' := Cycle(s, t);
            && Invariant(s') && Launching(s') && s'.procs.Keys == s.procs.Keys
            && (forall id :: id in s.procs ==>
                  s'.procs[id].tag == s.procs[id].tag && s'.procs[id].config == s.procs[id].config)
            && (forall id :: id in s.procs && !s.procs[id].state.Waiting? ==> s'.procs[id].state.Running?)
            && (forall id :: id in s.procs && s.procs[id].state.Waiting? && DepsUp(s.procs, s.procs[id]) && !Starved(s.procs, s.procs[id]) ==>
                  s'.procs[id].state.Starting?)
            && (forall id :: id in s.procs ==>
                  (Starved(s'.procs, s'.procs[id]) <==> Starved(s.procs, s.procs[id]) || Clashes(s.procs, s.procs[id])))
  {
    hide *;
    CalmFacts(s, t);
    CycleKeeps(s, t);
    CalmReap(s, t);
    CalmBeforeWaiters(s, t);
    var s3 := Reap(s, t);
    NobodyStartingReaped(s, s3);
    CalmWaiters(s3, t);
    var s5 := Waiters(s3, t);
    CalmFailFast(s5, t.order(AtFailFast));
    CycleIs(s, t);
    forall id | id in s.procs
      ensures s.procs[id].state.Waiting? && DepsUp(s.procs, s.procs[id]) && !Starved(s.procs, s.procs[id]) ==> s5.procs[id].state.Starting?
      ensures Starved(s5.procs, s5.procs[id]) <==> Starved(s.procs, s.procs[id]) || Clashes(s.procs, s.procs[id])
    {
      ReadyReaped(s, s3, id);
    }
    forall id | id in s.procs && !s.procs[id].state.Waiting? ensures s5.procs[id].state.Running? {
      LaunchingState(s, id);
    }
  }

  lemma NobodyStartingReaped(s: State, s3: State)
    requires s3.procs.Keys == s.procs.Keys
    requires forall id :: id in s.procs ==> s3.procs[id].state == if s.procs[id].state.Starting? then Running else s.procs[id].state
    ensures NobodyStarting(s3.procs)
  {
  }

  /** What phase 5 will make of a process can be told from the map before the cycle. */
  lemma ReadyReaped(s: State, s3: State, id: ProcessId)
    requires Launching(s) && id in s.procs && s3.procs.Keys == s.procs.Keys
    requires forall x :: x in s.procs ==>
               && s3.procs[x].tag == s.procs[x].tag && s3.procs[x].config == s.procs[x].config
               && s3.procs[x].resolvedDeps == s.procs[x].resolvedDeps
               && s3.procs[x].state == if s.procs[x].state.Starting? then Running else s.procs[x].state
    ensures var p, q := s.procs[id], s3.procs[id];
            && (p.state.Waiting? && DepsUp(s.procs, p) && !Starved(s.procs, p) ==> Ready(s3.procs, q))
            && (BecomesStarved(s3.procs, q) <==> Starved(s.procs, p) || Clashes(s.procs, p))
  {
    var p, q := s.procs[id], s3.procs[id];
    LaunchingEntry(s, id);
    SameStarved(s.procs, s3.procs, p);
    UpReaped(s, s3);
    hide Launching, ComingUp, ResolvedCount, Up, SpawnedUnder;
    if p.state.Waiting? && DepsUp(s.procs, p) {
      forall x | OnId(x) in p.config.dependsOn ensures s3.procs[x].state.Running? { LaunchingState(s, x); }
    }
    ClashesReaped(s, s3, p);
    hide Clashes, HasOverlap, DepsUp, DepsRunning;
    assert Starved(s3.procs, q) <==> Starved(s3.procs, p);
    assert HasOverlap(s3.procs, q) <==> HasOverlap(s3.procs, p) by { SameOverlaps(s3.procs, p, q); }
  }

  lemma SameOverlaps(procs: ProcessMap, p: Process, q: Process)
    requires q.resolvedDeps == p.resolvedDeps && q.config == p.config
    ensures HasOverlap(procs, q) <==> HasOverlap(procs, p)
  {
    hide Overlaps;
  }

  lemma UpReaped(s: State, s3: State)
    requires Launching(s) && s3.procs.Keys == s.procs.Keys
    requires forall x :: x in s.procs ==>
               s3.procs[x].tag == s.procs[x].tag && s3.procs[x].state == if s.procs[x].state.Starting? then Running else s.procs[x].state
    ensures forall tag :: Up(s3.procs, tag) <==> SpawnedUnder(s.procs, tag)
  {
    hide Launching;
    forall x | x in s.procs ensures s3.procs[x].state.Running? <==> !s.procs[x].state.Waiting? {
      LaunchingState(s, x);
    }
  }

  lemma ClashesReaped(s: State, s3: State, p: Process)
    requires ComingUp(s.procs, p) && s3.procs.Keys == s.procs.Keys
    requires forall x :: x in s.procs ==> s3.procs[x].tag == s.procs[x].tag
    requires forall tag :: Up(s3.procs, tag) <==> SpawnedUnder(s.procs, tag)
    ensures p.state.Waiting? ==> (HasOverlap(s3.procs, p) <==> Clashes(s.procs, p))
  {
    assert forall d :: Resolved(s3.procs, p.resolvedDeps, d) <==> Resolved(s.procs, p.resolvedDeps, d);
    hide ComingUp, Resolved, Up, SpawnedUnder;
    if tag, x :| Overlaps(s3.procs, p.resolvedDeps, p.config.dependsOn, tag, x) {
      assert ClashesOver(s.procs, p, tag, x) || !p.state.Waiting?;
    }
    if tag, x :| ClashesOver(s.procs, p, tag, x) {
      assert Overlaps(s3.procs, p.resolvedDeps, p.config.dependsOn, tag, x);
    }
  }

  lemma CalmFacts(s: State, t: Tick)
    requires Calm(s, t)
    ensures Faithful(t, s.procs.Keys) && forall id :: t.spawn(id).Some?
  {
  }

  lemma CycleIs(s: State, t: Tick)
    requires Restarts(Reap(s, t), t) == Reap(s, t)
    ensures Cycle(s, t) == FailFast(Waiters(Reap(s, t), t), t.order(AtFailFast))
  {
  }

  lemma LaunchingState(s: State, id: ProcessId)
    requires Launching(s) && id in s.procs
    ensures s.procs[id].state.Waiting? || s.procs[id].state.Starting? || s.procs[id].state.Running?
  {
    assert ComingUp(s.procs, s.procs[id]);
  }

  ghost predicate SpawnedUnder(procs: ProcessMap, tag: Label) {
    exists x :: x in procs && procs[x].tag == tag && !procs[x].state.Waiting?
  }

  /** Everything that `p` refers to has been spawned, every label by somebody. */
  ghost predicate DepsUp(procs: ProcessMap, p: Process) {
    && (forall tag :: OnLabel(tag) in p.config.dependsOn ==> SpawnedUnder(procs, tag))
    && (forall x :: OnId(x) in p.config.dependsOn ==> x in procs && !procs[x].state.Waiting?)
  }

  /** `p` waits for `x` by its id and by its label, and has bound neither while
      everybody under that label is still Waiting. */
  ghost predicate ClashesOver(procs: ProcessMap, p: Process, tag: Label, x: ProcessId) {
    && p.state.Waiting?
    && OnLabel(tag) in p.config.dependsOn && OnId(x) in p.config.dependsOn
    && x in procs && procs[x].tag == tag
    && !Resolved(procs, p.resolvedDeps, OnLabel(tag)) && !Resolved(procs, p.resolvedDeps, OnId(x))
    && !SpawnedUnder(procs, tag)
  }

  ghost predicate Clashes(procs: ProcessMap, p: Process) {
    exists tag, x :: ClashesOver(procs, p, tag, x)
  }

  lemma CalmFailFast(s: State, order: seq<ProcessId>)
    requires Launching(s)
    ensures FailFast(s, order) == s
  {
    forall id | id in s.procs ensures !HasTerminal(s.procs, s.procs[id].resolvedDeps) {
      assert ComingUp(s.procs, s.procs[id]);
      NothingTerminal(s.procs, s.procs[id]);
    }
    FailDependentsThorough(s, RunningWithDeps(s.procs, order));
  }

  // ------------------------------------------------------------ the run

  /** Everybody stays under its label and configuration, and goes forward only. */
  ghost predicate Grows(s: State, s': State) {
    && s.procs.Keys <= s'.procs.Keys
    && forall id :: id in s.procs ==>
         && s'.procs[id].tag == s.procs[id].tag && s'.procs[id].config == s.procs[id].config
         && (!s.procs[id].state.Waiting? ==> !s'.procs[id].state.Waiting?)
         && (s.procs[id].state.Running? ==> s'.procs[id].state.Running?)
  }

  /** Who is starved. */
  ghost function StarvedIn(s: State): set<ProcessId> {
    set id | id in s.procs && Starved(s.procs, s.procs[id])
  }

  lemma StarvedAre(s: State)
    ensures forall id :: id in StarvedIn(s) <==> id in s.procs && Starved(s.procs, s.procs[id])
  {
  }

  lemma GrowsFrom(s: State, s': State)
    requires s'.procs.Keys == s.procs.Keys
    requires forall id :: id in s.procs ==>
               s'.procs[id].tag == s.procs[id].tag && s'.procs[id].config == s.procs[id].config
    requires forall id :: id in s.procs && !s.procs[id].state.Waiting? ==> s'.procs[id].state.Running?
    ensures Grows(s, s')
  {
  }

  /** What has come up in `s'` after n calm cycles since `s`: everything within n
      links of the bottom is spawned, and what is closer is Running. */
  ghost predicate Risen(s: State, s': State, stuck: set<ProcessId>, n: nat) {
    && Launching(s') && Grows(s, s')
    && (forall id :: DepthAtMost(s.procs, stuck, id, n) ==> id in s'.procs && !s'.procs[id].state.Waiting?)
    && (forall id, d: nat :: d < n && DepthAtMost(s.procs, stuck, id, d) ==> id in s'.procs && s'.procs[id].state.Running?)
  }

  lemma RisenNone(s: State, stuck: set<ProcessId>)
    requires Launching(s)
    ensures Risen(s, s, stuck, 0)
  {
    forall id | DepthAtMost(s.procs, stuck, id, 0) ensures !s.procs[id].state.Waiting? {
      NoDepsAtBottom(s.procs, stuck, id);
      LaunchingEntry(s, id);
    }
    hide Launching, DepthAtMost;
  }

  lemma NoDepsAtBottom(procs: ProcessMap, stuck: set<ProcessId>, id: ProcessId)
    requires DepsWithin(procs, stuck, id, 0)
    ensures procs[id].config.dependsOn == []
  {
    if procs[id].config.dependsOn != [] { FirstReference(procs[id].config.dependsOn); }
  }

  lemma FirstReference(deps: seq<DependencyRef>)
    requires deps != []
    ensures (exists tag :: OnLabel(tag) in deps) || exists x :: OnId(x) in deps
  {
    match deps[0] {
      case OnLabel(tag) => assert OnLabel(tag) in deps;
      case OnId(x) => assert OnId(x) in deps;
    }
  }

  lemma RisenOn(s: State, s1: State, s': State, stuck: set<ProcessId>, n: nat)
    requires Risen(s, s1, stuck, n) && Launching(s') && Grows(s1, s')
    ensures Risen(s, s', stuck, n)
  {
    hide Launching, DepthAtMost;
  }

  lemma ComesUpStep(s: State, s1: State, t: Tick, stuck: set<ProcessId>, n: nat)
    requires Invariant(s1) && Calm(s1, t) && Risen(s, s1, stuck, n) && StarvedIn(s1) <= stuck
    ensures Risen(s, Cycle(s1, t), stuck, n + 1)
  {
    hide Cycle, Invariant, Launching, Calm, DepthAtMost, DepsWithin, DepsUp, Clashes, Starved;
    CalmCycle(s1, t);
    var s' := Cycle(s1, t);
    forall id | DepthAtMost(s.procs, stuck, id, n + 1) ensures id in s'.procs && !s'.procs[id].state.Waiting? {
      DepthIs(s.procs, stuck, id, n + 1);
      DepsAreUp(s, s1, stuck, id, n);
      assert id !in StarvedIn(s1);
    }
    forall id, d: nat | d < n + 1 && DepthAtMost(s.procs, stuck, id, d) ensures id in s'.procs && s'.procs[id].state.Running? {
      DepthTracked(s.procs, stuck, id, d, n);
    }
  }

  lemma DepthIs(procs: ProcessMap, stuck: set<ProcessId>, id: ProcessId, d: nat)
    ensures DepthAtMost(procs, stuck, id, d) <==> id !in stuck && DepsWithin(procs, stuck, id, d)
  {
  }

  lemma DepthTracked(procs: ProcessMap, stuck: set<ProcessId>, id: ProcessId, d: nat, n: nat)
    requires d <= n && DepthAtMost(procs, stuck, id, d)
    ensures DepthAtMost(procs, stuck, id, n)
    decreases d
  {
    forall tag | OnLabel(tag) in procs[id].config.dependsOn
      ensures n > 0 && exists x :: x in procs && procs[x].tag == tag && DepthAtMost(procs, stuck, x, n - 1)
    {
      var x :| x in procs && procs[x].tag == tag && DepthAtMost(procs, stuck, x, d - 1);
      DepthTracked(procs, stuck, x, d - 1, n - 1);
    }
    forall x | OnId(x) in procs[id].config.dependsOn ensures n > 0 && DepthAtMost(procs, stuck, x, n - 1) {
      DepthTracked(procs, stuck, x, d - 1, n - 1);
    }
  }

  lemma DepsAreUp(s: State, s1: State, stuck: set<ProcessId>, id: ProcessId, n: nat)
    requires DepsWithin(s.procs, stuck, id, n + 1) && Grows(s, s1)
    requires forall x :: DepthAtMost(s.procs, stuck, x, n) ==> x in s1.procs && !s1.procs[x].state.Waiting?
    ensures id in s1.procs && DepsUp(s1.procs, s1.procs[id])
  {
    hide DepthAtMost;
    forall tag | OnLabel(tag) in s1.procs[id].config.dependsOn ensures SpawnedUnder(s1.procs, tag) {
      var x :| x in s.procs && s.procs[x].tag == tag && DepthAtMost(s.procs, stuck, x, n);
      assert s1.procs[x].tag == tag;
    }
  }

  // ------------------------------------------------------ how a run begins

  /** Polls that find every child alive can only turn Starting into Running. */
  lemma PollDepsAlive(procs: ProcessMap, ids: seq<ProcessId>, polls: nat -> Poll)
    requires forall n :: polls(n).Alive?
    requires forall id :: id in procs && (procs[id].state.Starting? || procs[id].state.Running?) ==> procs[id].child.Some?
    ensures var after := PollDeps(procs, ids, polls).procs;
            forall id :: id in procs ==>
              after[id] == procs[id] || (procs[id].state.Starting? && after[id] == procs[id].(state := Running))
  {
    if ids != [] { PollDepsAlive(procs, ids[..|ids| - 1], polls); }
  }

  /** The binding `start` makes has one id for each reference, or none at all. */
  lemma StartBinding(procs: ProcessMap, order: seq<ProcessId>, deps: seq<DependencyRef>)
    requires RefsTracked(procs, deps)
    ensures var bound := Bindings(procs, order, deps);
            && |bound| == ResolvedCount(procs, bound, deps)
            && forall i :: 0 <= i < |bound| ==> Declared(procs, deps, bound[i])
  {
    var bound := Bindings(procs, order, deps);
    if |bound| == |deps| {
      forall i | 0 <= i < |deps| ensures Resolved(procs, bound, deps[i]) && Declared(procs, deps, bound[i]) {
        assert Binds(procs, deps[i], bound[i]);
        assert deps[i] in deps;
      }
      ResolvedCountAll(procs, bound, deps);
    } else {
      NothingBound(procs, deps);
    }
  }

  lemma NothingBound(procs: ProcessMap, deps: seq<DependencyRef>)
    ensures ResolvedCount(procs, [], deps) == 0
  {
    if deps != [] { NothingBound(procs, deps[..|deps| - 1]); }
  }

  /** A `start` that finds nobody dead and refers by id to tracked processes only. */
  ghost predicate CalmStart(s: State, step: Step) {
    step.DoStart? && RefsTracked(s.procs, step.config.dependsOn) && forall n :: step.start.polls(n).Alive?
  }

  /** What a calm start does to the map. */
  lemma StartOutcome(s: State, step: Step)
    requires Invariant(s) && step.DoStart? && CalmStart(s, step)
    ensures var s1 := s.(nextId := s.nextId + 1);
            var polled := StartPolls(s1, step.config, step.start).procs;
            var p := StartEntry(s1, s.nextId, step.tag, step.config, step.start);
            var procs' := Apply(s, step).procs;
            && (procs' == s.procs || procs' == polled
                || (procs' == polled[s.nextId := p] && (p.state.Waiting? ==> step.config.dependsOn != [])))
            && p.tag == step.tag && p.config == step.config && s.nextId !in s.procs
            && WellFormed(p) && (p.state.Waiting? <==> p.child.None?) && (p.state.Waiting? || p.state.Starting?)
            && p.resolvedDeps == Bindings(s.procs, step.start.order, step.config.dependsOn)
  {
    hide *;
    var s1 := s.(nextId := s.nextId + 1);
    var p := StartEntry(s1, s.nextId, step.tag, step.config, step.start);
    StartShape(s1, s.nextId, step.tag, step.config, step.start);
    InvariantStructural(s);
    StartMap(s, step.tag, step.config, step.start);
    StartIs(s, step.tag, step.config, step.start);
    StartedProcs(s1.(procs := StartPolls(s1, step.config, step.start).procs), p, Apply(s, step));
    ApplyStart(s, step);
    EntryStarts(s1, s.nextId, step.tag, step.config, step.start);
  }

  lemma ApplyStart(s: State, step: Step)
    requires step.DoStart?
    ensures Apply(s, step) == Start(s, step.tag, step.config, step.start).state
  {
  }

  lemma StartPolled(s: State, step: Step)
    requires Structural(s) && CalmStart(s, step)
    ensures var polled := StartPolls(s.(nextId := s.nextId + 1), step.config, step.start).procs;
            && polled.Keys == s.procs.Keys
            && forall id :: id in s.procs ==>
                 (polled[id] == s.procs[id] || (s.procs[id].state.Starting? && polled[id] == s.procs[id].(state := Running)))
  {
    PollDepsAlive(s.procs, Bindings(s.procs, step.start.order, step.config.dependsOn), step.start.polls);
    hide Bindings, PollDeps;
  }

  lemma StartLaunches(s: State, step: Step)
    requires Invariant(s) && Launching(s) && step.DoStart? && CalmStart(s, step)
    ensures Launching(Apply(s, step)) && Grows(s, Apply(s, step)) && StarvedIn(Apply(s, step)) == StarvedIn(s)
  {
    hide *;
    InvariantStructural(s);
    CalmStartRefs(s, step);
    StartOutcome(s, step);
    StartPolled(s, step);
    StartBinding(s.procs, step.start.order, step.config.dependsOn);
    var s1 := s.(nextId := s.nextId + 1);
    var p := StartEntry(s1, s.nextId, step.tag, step.config, step.start);
    var s' := Apply(s, step);
    forall id | id in s'.procs
      ensures ComingUp(s.procs, s'.procs[id])
      ensures Starved(s.procs, s'.procs[id]) <==> id in s.procs && Starved(s.procs, s.procs[id])
    {
      if id in s.procs {
        LaunchingEntry(s, id);
        RunningComesUp(s.procs, s.procs[id], s'.procs[id]);
      } else {
        NewEntryComingUp(s.procs, p);
      }
    }
    GrowsByPolls(s, s');
    LaunchingGrows(s, s');
  }

  lemma GrowsByPolls(s: State, s': State)
    requires s.procs.Keys <= s'.procs.Keys
    requires forall id :: id in s.procs ==>
               s'.procs[id] == s.procs[id] || (s.procs[id].state.Starting? && s'.procs[id] == s.procs[id].(state := Running))
    ensures Grows(s, s')
  {
  }

  lemma CalmStartRefs(s: State, step: Step)
    requires CalmStart(s, step)
    ensures step.DoStart? && RefsTracked(s.procs, step.config.dependsOn)
  {
  }

  lemma LaunchingEntry(s: State, id: ProcessId)
    requires Launching(s) && id in s.procs
    ensures ComingUp(s.procs, s.procs[id])
  {
  }

  lemma LaunchingGrows(s: State, s': State)
    requires Grows(s, s') && forall id :: id in s'.procs ==> ComingUp(s.procs, s'.procs[id])
    requires forall id :: id in s'.procs ==>
               (Starved(s.procs, s'.procs[id]) <==> id in s.procs && Starved(s.procs, s.procs[id]))
    ensures Launching(s') && StarvedIn(s') == StarvedIn(s)
  {
    hide ComingUp, Starved;
    forall id | id in s'.procs ensures ComingUp(s'.procs, s'.procs[id]) {
      ComingUpKept(s.procs, s'.procs, s'.procs[id]);
    }
    forall id | id in s'.procs ensures Starved(s'.procs, s'.procs[id]) <==> Starved(s.procs, s'.procs[id]) {
      SameStarved(s.procs, s'.procs, s'.procs[id]);
    }
  }

  lemma RunningComesUp(procs: ProcessMap, p: Process, q: Process)
    requires ComingUp(procs, p) && (q == p || (p.state.Starting? && q == p.(state := Running)))
    ensures ComingUp(procs, q) && (Starved(procs, q) <==> Starved(procs, p))
  {
  }

  lemma NewEntryComingUp(procs: ProcessMap, p: Process)
    requires RefsTracked(procs, p.config.dependsOn)
    requires p.state.Waiting? || p.state.Starting?
    requires |p.resolvedDeps| == ResolvedCount(procs, p.resolvedDeps, p.config.dependsOn)
    requires forall i :: 0 <= i < |p.resolvedDeps| ==> Declared(procs, p.config.dependsOn, p.resolvedDeps[i])
    requires p.state.Waiting? ==> p.config.dependsOn != []
    ensures ComingUp(procs, p) && !Starved(procs, p)
  {
  }

  /** A query that finds the child alive. */
  lemma ObservedAlive(s: State, id: ProcessId, poll: Poll)
    requires Structural(s) && poll.Alive?
    ensures var s' := Observe(s, id, poll);
            && s'.procs.Keys == s.procs.Keys
            && forall x :: x in s.procs ==>
                 s'.procs[x] == s.procs[x] || (s.procs[x].state.Starting? && s'.procs[x] == s.procs[x].(state := Running))
                 || !(s.procs[x].state.Waiting? || s.procs[x].state.Starting? || s.procs[x].state.Running?)
  {
    if id in s.procs { assert WellFormed(s.procs[id]); }
  }

  lemma ObserveLaunches(s: State, id: ProcessId, poll: Poll)
    requires Structural(s) && Launching(s) && poll.Alive?
    ensures var s' := Observe(s, id, poll); Launching(s') && Grows(s, s') && StarvedIn(s') == StarvedIn(s)
  {
    hide *;
    var s' := Observe(s, id, poll);
    ObservedAlive(s, id, poll);
    forall x | x in s'.procs
      ensures s'.procs[x] == s.procs[x] || (s.procs[x].state.Starting? && s'.procs[x] == s.procs[x].(state := Running))
      ensures ComingUp(s.procs, s'.procs[x]) && (Starved(s.procs, s'.procs[x]) <==> Starved(s.procs, s.procs[x]))
    {
      LaunchingEntry(s, x);
      LaunchingState(s, x);
      RunningComesUp(s.procs, s.procs[x], s'.procs[x]);
    }
    GrowsByPolls(s, s');
    LaunchingGrows(s, s');
  }

  /** A step of an undisturbed start-up: a `start`, a cycle or a state query in which
      no child is found dead, no spawn of the reaper fails and no timeout expires. */
  ghost predicate CalmIn(s: State, step: Step) {
    match step
    case DoStart(_, _, _) => CalmStart(s, step)
    case DoCycle(t) => Calm(s, t)
    case DoObserve(_, poll) => poll.Alive?
    case _ => false
  }

  lemma ApplyIs(s: State, step: Step)
    requires CalmIn(s, step)
    ensures step.DoStart? || step.DoCycle? || step.DoObserve?
    ensures step.DoStart? ==> CalmStart(s, step)
    ensures step.DoCycle? ==> Calm(s, step.tick) && Apply(s, step) == Cycle(s, step.tick)
    ensures step.DoObserve? ==> step.poll.Alive? && Apply(s, step) == Observe(s, step.observed, step.poll)
  {
    hide Calm, Cycle, CalmStart, Observe;
  }

  /** Every calm step keeps what has come up; only cycles starve, by clashes. */
  lemma CalmStepGrows(s: State, step: Step)
    requires Invariant(s) && Launching(s) && CalmIn(s, step)
    ensures Launching(Apply(s, step)) && Grows(s, Apply(s, step))
    ensures forall id :: id in StarvedIn(Apply(s, step)) <==>
              id in StarvedIn(s) || (step.DoCycle? && id in s.procs && Clashes(s.procs, s.procs[id]))
  {
    hide *;
    InvariantStructural(s);
    ApplyIs(s, step);
    if step.DoStart? {
      StartLaunches(s, step);
    } else if step.DoCycle? {
      CalmCycle(s, step.tick);
      GrowsFrom(s, Cycle(s, step.tick));
      StarvedAre(s);
      StarvedAre(Cycle(s, step.tick));
    } else {
      ObserveLaunches(s, step.observed, step.poll);
    }
  }

  // ------------------------------------------------------------ the whole run

  /** The k-th step of the run is calm. */
  ghost predicate CalmAt(r: Run, k: nat) {
    k < |r.steps| && k < |r.states| && CalmIn(r.states[k], r.steps[k])
  }

  lemma CalmStepAt(r: Run, k: nat)
    requires CalmAt(r, k)
    ensures k < |r.steps| && k < |r.states| && CalmIn(r.states[k], r.steps[k])
  {
  }

  lemma InitialLaunches()
    ensures Invariant(INITIAL) && Launching(INITIAL)
  {
  }

  lemma LaunchingAt(r: Run, n: nat)
    requires IsRun(r) && n < |r.states| && forall k :: 0 <= k < n ==> CalmAt(r, k)
    ensures Launching(r.states[n])
    decreases n
  {
    hide *;
    if n == 0 {
      InitialInvariant(r);
      InitialLaunches();
    } else {
      LastStep(r, n);
      LaunchingAt(r, n - 1);
      RunInvariant(r, n - 1);
      CalmStepAt(r, n - 1);
      CalmStepGrows(r.states[n - 1], r.steps[n - 1]);
    }
  }

  /** How many of the steps from the m-th to the one before the n-th are reaper cycles. */
  ghost function CycleCount(r: Run, m: nat, n: nat): (c: nat)
    ensures n <= m ==> c == 0
  {
    if n <= m then 0 else CycleCount(r, m, n - 1) + if CycleAt(r, n - 1) then 1 else 0
  }

  lemma CycleCountStep(r: Run, m: nat, n: nat)
    requires m < n && n - 1 < |r.steps| && n - 1 < |r.states|
    ensures CycleCount(r, m, n) == CycleCount(r, m, n - 1) + if r.steps[n - 1].DoCycle? then 1 else 0
  {
  }

  /** With every cycle what is one link further from the bottom is spawned, unless it
      is starved or needs somebody starved. */
  lemma ComesUp(r: Run, m: nat, n: nat, stuck: set<ProcessId>)
    requires IsRun(r) && m <= n < |r.states| && forall k :: 0 <= k < n ==> CalmAt(r, k)
    requires StarvedIn(r.states[n]) <= stuck
    ensures Risen(r.states[m], r.states[n], stuck, CycleCount(r, m, n))
    decreases n
  {
    hide *;
    LaunchingAt(r, n);
    if m == n {
      RisenNone(r.states[m], stuck);
    } else {
      LaunchingAt(r, n - 1);
      LastStep(r, n);
      RunInvariant(r, n - 1);
      CalmStepAt(r, n - 1);
      CycleCountStep(r, m, n);
      var s, step := r.states[n - 1], r.steps[n - 1];
      CalmStepGrows(s, step);
      assert StarvedIn(s) <= StarvedIn(r.states[n]);
      ComesUp(r, m, n - 1, stuck);
      ApplyIs(s, step);
      if step.DoCycle? {
        ComesUpStep(r.states[m], s, step.tick, stuck, CycleCount(r, m, n - 1));
      } else {
        RisenOn(r.states[m], s, r.states[n], stuck, CycleCount(r, m, n - 1));
      }
    }
  }

  /** Start-up: in a run of starts, reaper cycles and state queries in any order in which
      nothing goes wrong, a process whose dependency chains lead to tracked processes that
      are not starved and have at most d links is Running once d + 1 cycles have passed,
      whatever else is started meanwhile, if and only if it is not starved itself. */
  lemma StartUp(r: Run, m: nat, n: nat, id: ProcessId, d: nat)
    requires IsRun(r) && m <= n < |r.states| && forall k :: 0 <= k < n ==> CalmAt(r, k)
    requires DepsWithin(r.states[m].procs, StarvedIn(r.states[n]), id, d) && d + 1 <= CycleCount(r, m, n)
    ensures id in r.states[n].procs && (r.states[n].procs[id].state.Running? <==> id !in StarvedIn(r.states[n]))
  {
    hide *;
    var stuck := StarvedIn(r.states[n]);
    ComesUp(r, m, n, stuck);
    RisenRuns(r.states[m], r.states[n], stuck, CycleCount(r, m, n), id, d);
    DepthIs(r.states[m].procs, stuck, id, d);
    StarvedAre(r.states[n]);
    if id in stuck { StillWaiting(r.states[n].procs, r.states[n].procs[id]); }
  }

  lemma RisenRuns(s: State, s': State, stuck: set<ProcessId>, n: nat, id: ProcessId, d: nat)
    requires Risen(s, s', stuck, n) && d < n && DepsWithin(s.procs, stuck, id, d)
    ensures id in s'.procs && (DepthAtMost(s.procs, stuck, id, d) ==> s'.procs[id].state.Running?)
  {
    hide Launching, DepthAtMost;
  }

  // ------------------------------------------------------------ who starves

  /** The k-th step is a cycle before which `id` waits for a process by its id and by its label. */
  ghost predicate ClashAt(r: Run, k: nat, id: ProcessId) {
    CycleAt(r, k) && id in r.states[k].procs && Clashes(r.states[k].procs, r.states[k].procs[id])
  }

  lemma ClashIs(r: Run, k: nat, id: ProcessId)
    requires k < |r.steps| && k < |r.states|
    ensures ClashAt(r, k, id) <==> r.steps[k].DoCycle? && id in r.states[k].procs && Clashes(r.states[k].procs, r.states[k].procs[id])
  {
    hide Clashes;
  }

  lemma NobodyStarvedAtFirst()
    ensures StarvedIn(INITIAL) == {}
  {
  }

  /** The exact condition over a run of starts, cycles and queries in which nothing goes
      wrong: the starved are those that some cycle found in a clash. */
  lemma StarvedExact(r: Run, n: nat, id: ProcessId)
    requires IsRun(r) && n < |r.states| && forall k :: 0 <= k < n ==> CalmAt(r, k)
    ensures id in StarvedIn(r.states[n]) <==> exists k :: 0 <= k < n && ClashAt(r, k, id)
  {
    hide *;
    if n == 0 {
      InitialInvariant(r);
      NobodyStarvedAtFirst();
    } else {
      StarvedExact(r, n - 1, id);
      LaunchingAt(r, n - 1);
      LastStep(r, n);
      RunInvariant(r, n - 1);
      CalmStepAt(r, n - 1);
      CalmStepGrows(r.states[n - 1], r.steps[n - 1]);
      ClashIs(r, n - 1, id);
    }
  }

  /** `p` refers to no process both by its id and by its label. */
  ghost predicate RefersOnce(procs: ProcessMap, p: Process) {
    forall x :: OnId(x) in p.config.dependsOn && x in procs ==> OnLabel(procs[x].tag) !in p.config.dependsOn
  }

  lemma NoClash(s: State, s': State, id: ProcessId)
    requires Evolves(s, s') && id in s.procs && id in s'.procs && s.procs.Keys <= s'.procs.Keys
    requires RefersOnce(s'.procs, s'.procs[id])
    ensures !Clashes(s.procs, s.procs[id])
  {
    hide Resolved, SpawnedUnder;
  }

  lemma LaunchingTracks(r: Run, m: nat, n: nat)
    requires IsRun(r) && m <= n < |r.states| && forall k :: 0 <= k < n ==> CalmAt(r, k)
    ensures r.states[m].procs.Keys <= r.states[n].procs.Keys
  {
    hide *;
    ComesUp(r, m, n, StarvedIn(r.states[n]));
    RisenKeys(r.states[m], r.states[n], StarvedIn(r.states[n]), CycleCount(r, m, n));
  }

  lemma RisenKeys(s: State, s': State, stuck: set<ProcessId>, n: nat)
    requires Risen(s, s', stuck, n)
    ensures s.procs.Keys <= s'.procs.Keys
  {
    hide Launching, DepthAtMost;
  }

  /** Who refers to nobody in both ways is never starved. */
  lemma RefersOnceNeverStarves(r: Run, n: nat, id: ProcessId)
    requires IsRun(r) && n < |r.states| && forall k :: 0 <= k < n ==> CalmAt(r, k)
    requires id in r.states[n].procs && RefersOnce(r.states[n].procs, r.states[n].procs[id])
    ensures id !in StarvedIn(r.states[n])
  {
    hide *;
    StarvedExact(r, n, id);
    forall k | 0 <= k < n ensures !ClashAt(r, k, id) {
      assert CalmAt(r, k);
      CalmStepAt(r, k);
      ClashIs(r, k, id);
      if id in r.states[k].procs {
        RunEvolves(r, k, n);
        LaunchingTracks(r, k, n);
        NoClash(r.states[k], r.states[n], id);
      }
    }
  }
}
