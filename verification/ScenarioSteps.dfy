/** The steps of the short runs in which a property fails: what single calls and cycles make
    of the few processes involved, from the empty manager on. Each lemma takes a reachable
    state to the next and says what its map is. */
module ScenarioSteps {
  import opened Basics
  import opened Backoff
  import opened Processes
  import opened Resolution
  import opened Reaper
  import opened Manager
  import opened Invariants
  import opened ReapPhase
  import opened LaterPhases
  import opened FailFastPhase
  import opened Runs
  import opened Cascades
  import opened BackoffRuns
  import opened AcyclicRuns
  import opened Movement
  import opened MutualWaits
  import opened StaleSignals
  import opened BindingCounts
  import opened Starvation
  import opened Liveness

  function Config(restarts: bool, policy: RestartPolicy, strategy: SupervisorStrategy, deps: seq<DependencyRef>): ProcessConfig {
    ProcessConfig("x", 0.0, restarts, CrashOnly, policy, strategy, deps, 1.0, false)
  }

  function Plain(deps: seq<DependencyRef>): ProcessConfig {
    Config(false, Immediate, OneForOne, deps)
  }

  /** A process as `start` puts it into the map at time 0. */
  function Started(id: ProcessId, pid: OsPid, tag: Label, config: ProcessConfig, sequence: nat, bound: seq<ProcessId>): Process {
    WithChild(Fresh(id, tag, config, sequence).(resolvedDeps := bound), pid, 0.0)
  }

  ghost function Env(order: seq<ProcessId>, pid: OsPid): StartEnv {
    StartEnv(order, n => Alive, Some(pid), 0.0)
  }

  // ------------------------------------------------------- single steps

  /** `start` of a process without dependencies. */
  lemma StartsPlain(s: State, tag: Label, config: ProcessConfig, order: seq<ProcessId>, pid: OsPid) returns (s': State)
    requires Reachable(s) && Enumerates(order, s.procs.Keys) && config.command != "" && config.dependsOn == []
    ensures Reachable(s') && s' == Apply(s, DoStart(tag, config, Env(order, pid)))
    ensures s'.nextId == s.nextId + 1 && s'.nextSequence == s.nextSequence + 1
    ensures s'.procs == s.procs[s.nextId := Started(s.nextId, pid, tag, config, s.nextSequence, [])]
  {
    var step := DoStart(tag, config, Env(order, pid));
    s' := Apply(s, step);
    ReachableStep(s, step);
    assert !Rejected(s, tag, config, Env(order, pid));
    hide Reachable, RunningLabels, Rejected;
  }

  /** `start` of a process whose one dependency has a live process. */
  lemma StartsBound(s: State, tag: Label, config: ProcessConfig, d: Label, order: seq<ProcessId>, x: ProcessId, pid: OsPid)
      returns (s': State)
    requires Reachable(s) && Enumerates(order, s.procs.Keys) && config.command != "" && config.dependsOn == [OnLabel(d)]
    requires Acyclic(Listed(s.procs, order, tag)) && AcyclicWith(Listed(s.procs, order, tag), tag, config.dependsOn)
    requires x in s.procs && s.procs[x].child.Some? && (s.procs[x].state.Starting? || s.procs[x].state.Running?)
    requires Find(s.procs, order, d, true) == Some(x)
    ensures Reachable(s') && s' == Apply(s, DoStart(tag, config, Env(order, pid)))
    ensures s'.nextId == s.nextId + 1 && s'.nextSequence == s.nextSequence + 1
    ensures s'.procs == s.procs[x := s.procs[x].(state := Running)][s.nextId := Started(s.nextId, pid, tag, config, s.nextSequence, [x])]
  {
    var e := Env(order, pid);
    var step := DoStart(tag, config, e);
    s' := Apply(s, step);
    ReachableStep(s, step);
    RejectedExactly(s, tag, config, e);
    BindsOne(s.procs, order, d, x);
    PollsOne(s.procs, x, e.polls);
    hide Reachable, RunningLabels, Rejected, Bindings, PollDeps, Find, Listed, Acyclic, AcyclicWith, Enumerates;
  }

  lemma BindsOne(procs: ProcessMap, order: seq<ProcessId>, d: Label, x: ProcessId)
    requires Find(procs, order, d, true) == Some(x)
    ensures Bindings(procs, order, [OnLabel(d)]) == [x]
  {
    hide Find;
    var deps := [OnLabel(d)];
    assert deps[..0] == [];
    assert Resolve(procs, order, []) == Some([]);
    assert ResolveOne(procs, order, deps[0]) == Some(x);
    assert Resolve(procs, order, deps) == Some([] + [x]);
  }

  lemma PollsOne(procs: ProcessMap, x: ProcessId, polls: nat -> Poll)
    requires x in procs && procs[x].child.Some? && (procs[x].state.Starting? || procs[x].state.Running?) && polls(0).Alive?
    ensures PollDeps(procs, [x], polls) == PollResult(procs[x := procs[x].(state := Running)], true)
  {
    assert [x][..0] == [];
    assert PollDeps(procs, [], polls) == PollResult(procs, true);
  }

  /** `start` of a process whose first dependency has no live process. */
  lemma StartsWaiting(s: State, tag: Label, config: ProcessConfig, d: Label, order: seq<ProcessId>) returns (s': State)
    requires Reachable(s) && Enumerates(order, s.procs.Keys) && config.command != ""
    requires config.dependsOn != [] && config.dependsOn[0] == OnLabel(d)
    requires Acyclic(Listed(s.procs, order, tag)) && AcyclicWith(Listed(s.procs, order, tag), tag, config.dependsOn)
    requires Find(s.procs, order, d, true).None?
    ensures Reachable(s') && s'.nextId == s.nextId + 1 && s'.nextSequence == s.nextSequence + 1
    ensures s'.procs == s.procs[s.nextId := Fresh(s.nextId, tag, config, s.nextSequence).(waitingSince := Some(0.0))]
  {
    var e := Env(order, 1);
    var step := DoStart(tag, config, e);
    s' := Apply(s, step);
    ReachableStep(s, step);
    RejectedExactly(s, tag, config, e);
    BindsNone(s.procs, order, config.dependsOn, d);
    hide Reachable, RunningLabels, Rejected, Bindings, PollDeps, Find, Listed, Acyclic, AcyclicWith, Enumerates;
  }

  lemma FindsSecond(procs: ProcessMap, tag: Label)
    requires 1 in procs && !Matches(procs, 1, tag, true) && Matches(procs, 2, tag, true)
    ensures Find(procs, [1, 2], tag, true) == Some(2)
  {
    assert [1, 2][1..] == [2];
  }

  lemma BindsNone(procs: ProcessMap, order: seq<ProcessId>, deps: seq<DependencyRef>, d: Label)
    requires deps != [] && deps[0] == OnLabel(d) && Find(procs, order, d, true).None?
    ensures Bindings(procs, order, deps) == []
  {
    hide Find;
    assert ResolveOne(procs, order, deps[0]).None?;
  }

  /** `stop` of a process that does not pass it on. */
  lemma StopsAlone(s: State, id: ProcessId, order: seq<ProcessId>) returns (s': State)
    requires Reachable(s) && Enumerates(order, s.procs.Keys)
    requires id in s.procs && !s.procs[id].state.Waiting? && !s.procs[id].config.cascadeStop
    ensures Reachable(s') && s'.nextId == s.nextId && s'.nextSequence == s.nextSequence && s'.procs == s.procs - {id}
  {
    var e := StopEnv(x => order, x => Delivered, x => Delivered);
    var step := DoStop(id, e);
    assert forall x :: e.order(x) == order;
    s' := Apply(s, step);
    ReachableStep(s, step);
    hide Reachable, Enumerates;
  }

  // -------------------------------------------------- graphs without cycles

  lemma RankFalls(procs: ProcessMap, tag: Label, deps: seq<DependencyRef>, rank: Label -> nat, w: seq<Label>, i: nat, j: nat)
    requires forall a, b :: JoinedEdge(procs, tag, deps, a, b) ==> rank(b) < rank(a)
    requires i < j < |w| && forall k :: 0 <= k < |w| - 1 ==> JoinedEdge(procs, tag, deps, w[k], w[k + 1])
    ensures rank(w[j]) < rank(w[i])
    decreases j
  {
    hide JoinedEdge;
    assert JoinedEdge(procs, tag, deps, w[j - 1], w[j - 1 + 1]);
    if i < j - 1 { RankFalls(procs, tag, deps, rank, w, i, j - 1); }
  }

  /** A graph whose edges all lead to a lower rank has no cycle. */
  lemma Ranked(procs: ProcessMap, tag: Label, deps: seq<DependencyRef>, rank: Label -> nat)
    requires forall a, b :: JoinedEdge(procs, tag, deps, a, b) ==> rank(b) < rank(a)
    ensures AcyclicWith(procs, tag, deps)
  {
    hide JoinedEdge;
    forall w ensures !JoinedLasso(procs, tag, deps, w) {
      if JoinedLasso(procs, tag, deps, w) {
        var i :| 0 <= i < |w| - 1 && w[..|w| - 1][i] == w[|w| - 1];
        RankFalls(procs, tag, deps, rank, w, i, |w| - 1);
      }
    }
  }

  // ---------------------------------------------------------- shared labels

  /** The only edge leads from `from` to `to`. */
  ghost predicate OneEdge(procs: ProcessMap, tag: Label, deps: seq<DependencyRef>, from: Label, to: Label) {
    from != to && forall a, b :: JoinedEdge(procs, tag, deps, a, b) ==> a == from && b == to
  }

  lemma OneEdgeAcyclic(procs: ProcessMap, tag: Label, deps: seq<DependencyRef>, from: Label, to: Label)
    requires OneEdge(procs, tag, deps, from, to)
    ensures AcyclicWith(procs, tag, deps)
  {
    hide JoinedEdge;
    Ranked(procs, tag, deps, l => if l == from then 1 else 0);
  }

  /** To processes without dependencies anything can be added that does not need itself. */
  lemma IndependentAccept(procs: ProcessMap, order: seq<ProcessId>, tag: Label, d: Label)
    requires tag != d && forall id :: id in procs ==> procs[id].config.dependsOn == []
    ensures Acyclic(Listed(procs, order, tag)) && AcyclicWith(Listed(procs, order, tag), tag, [OnLabel(d)])
  {
    var listed := Listed(procs, order, tag);
    assert forall id :: id in listed ==> listed[id].config.dependsOn == [];
    hide Listed;
    OneEdgeAcyclic(listed, tag, [OnLabel(d)], tag, d);
    OneEdgeAcyclic(listed, "", [], tag, d);
  }

  /** "a" waits for "b". */
  lemma FirstWaits() returns (s: State)
    ensures Reachable(s) && s.nextId == 2 && s.nextSequence == 2
    ensures s.procs == map[1 := Fresh(1, "a", Plain([OnLabel("b")]), 1).(waitingSince := Some(0.0))]
  {
    InitialReachable();
    var deps := [OnLabel("b")];
    assert OneEdge(Listed(map[], [], "a"), "a", deps, "a", "b") && OneEdge(Listed(map[], [], "a"), "", [], "a", "b");
    OneEdgeAcyclic(Listed(map[], [], "a"), "a", deps, "a", "b");
    OneEdgeAcyclic(Listed(map[], [], "a"), "", [], "a", "b");
    hide Reachable, Listed, AcyclicWith, OneEdge;
    s := StartsWaiting(INITIAL, "a", Plain(deps), "b", []);
  }

  /** Two processes labelled "a", the first with a dependency on "b". */
  lemma TwoNamedA() returns (s: State)
    ensures Reachable(s) && s.nextId == 3 && s.nextSequence == 3
    ensures s.procs == map[1 := Fresh(1, "a", Plain([OnLabel("b")]), 1).(waitingSince := Some(0.0)),
                           2 := Started(2, 7, "a", Plain([]), 2, [])]
  {
    hide Reachable;
    var s1 := FirstWaits();
    s := StartsPlain(s1, "a", Plain([]), [1], 7);
  }

  /** The snapshot for a newcomer "b" lists only the second of the two. */
  lemma OnlySecondListed(procs: ProcessMap)
    requires procs.Keys == {1, 2} && procs[1].tag == "a" && procs[2].tag == "a"
    ensures Listed(procs, [1, 2], "b") == map[2 := procs[2]]
  {
    IsLastStep(procs, [1], 2, 1);
    IsLastStep(procs, [1], 2, 2);
    assert [1, 2] == [1] + [2];
    hide IsLast;
  }

  lemma CloseLoop(procs: ProcessMap)
    requires TagEdge(procs, "a", "b") && TagEdge(procs, "b", "a")
    ensures !Acyclic(procs)
  {
    var loop := ["a", "b", "a"];
    assert loop[..2][0] == loop[2];
    assert JoinedLasso(procs, "", [], loop);
  }

  // ------------------------------------------------------- references by id

  /** `start` of a process that refers by id to one that is Waiting. */
  lemma StartsBehind(s: State, tag: Label, config: ProcessConfig, x: ProcessId, order: seq<ProcessId>) returns (step: Step)
    requires Reachable(s) && Enumerates(order, s.procs.Keys) && config.command != "" && config.dependsOn == [OnId(x)]
    requires x in s.procs && s.procs[x].state.Waiting? && Acyclic(Listed(s.procs, order, tag))
    ensures step == DoStart(tag, config, Env(order, 1)) && Legal(s, step) && !Rejected(s, tag, config, step.start)
    ensures Reachable(Apply(s, step))
    ensures Apply(s, step).procs
         == s.procs[s.nextId := Fresh(s.nextId, tag, config, s.nextSequence).(resolvedDeps := [x], waitingSince := Some(0.0))]
  {
    var e := Env(order, 1);
    step := DoStart(tag, config, e);
    ReachableStep(s, step);
    RejectedExactly(s, tag, config, e);
    OnlyIdsAcyclic(Listed(s.procs, order, tag), tag, config.dependsOn);
    BindsId(s.procs, order, x, e.polls);
    hide Reachable, RunningLabels, Rejected, Bindings, PollDeps, Find, Listed, Acyclic, AcyclicWith, Enumerates;
  }

  lemma OnlyIdsAcyclic(procs: ProcessMap, tag: Label, deps: seq<DependencyRef>)
    requires Acyclic(procs) && forall b :: OnLabel(b) !in deps
    ensures AcyclicWith(procs, tag, deps)
  {
    assert forall a, b :: JoinedEdge(procs, tag, deps, a, b) ==> JoinedEdge(procs, "", [], a, b);
    hide JoinedEdge;
    forall w ensures JoinedLasso(procs, tag, deps, w) ==> JoinedLasso(procs, "", [], w) {}
  }

  lemma BindsId(procs: ProcessMap, order: seq<ProcessId>, x: ProcessId, polls: nat -> Poll)
    requires x in procs && procs[x].state.Waiting?
    ensures Bindings(procs, order, [OnId(x)]) == [x] && PollDeps(procs, [x], polls) == PollResult(procs, false)
  {
    var deps := [OnId(x)];
    assert deps[..0] == [] && [x][..0] == [];
    assert Resolve(procs, order, []) == Some([]);
    assert ResolveOne(procs, order, deps[0]) == Some(x);
    assert Resolve(procs, order, deps) == Some([] + [x]);
    assert PollDeps(procs, [], polls) == PollResult(procs, true);
  }

  lemma OneLabelAcyclic(procs: ProcessMap)
    requires forall id :: id in procs ==> (forall b :: OnLabel(b) in procs[id].config.dependsOn ==> procs[id].tag == "a" && b == "b")
    ensures Acyclic(procs)
  {
    assert OneEdge(procs, "", [], "a", "b");
    OneEdgeAcyclic(procs, "", [], "a", "b");
  }

  lemma EachNeedsTheOther(before: ProcessMap, after: ProcessMap)
    requires before.Keys == {1} && before[1].tag == "a" && before[1].config.dependsOn == [OnLabel("b")]
    requires after.Keys == {1, 2} && after[1] == before[1] && after[2].tag == "b" && after[2].config.dependsOn == [OnId(1)]
    ensures AllLocked(after, {1, 2})
    ensures NeedsLasso(before, 2, "b", [OnId(1)], ["a", "b", "a"])
  {
    assert OnLabel("b") in after[1].config.dependsOn && OnlyWithin(after, {1, 2}, OnLabel("b"));
    assert OnId(1) in after[2].config.dependsOn && OnlyWithin(after, {1, 2}, OnId(1));
    var w := ["a", "b", "a"];
    assert w[..2][0] == w[2];
    assert TagEdge(before, "a", "b");
    assert Carries(before, 2, "b", 1, "a");
    assert NeedsEdge(before, 2, "b", [OnId(1)], w[0], w[1]) && NeedsEdge(before, 2, "b", [OnId(1)], w[1], w[2]);
  }

  lemma ListedOne(procs: ProcessMap)
    ensures forall id :: id in Listed(procs, [1], "b") ==> id in procs && Listed(procs, [1], "b")[id] == procs[id]
  {
  }

  // --------------------------------------------------------- a binding is lost

  function Dependent(): ProcessConfig {
    Config(true, Immediate, OneForOne, [OnLabel("a")])
  }

  lemma StartedIs(id: ProcessId, pid: OsPid, tag: Label, config: ProcessConfig, sequence: nat, bound: seq<ProcessId>)
    ensures var p := Started(id, pid, tag, config, sequence, bound);
            && p.id == id && p.tag == tag && p.config == config && p.child == Some(pid) && p.pid == pid
            && p.state.Starting? && p.resolvedDeps == bound && !p.cascadeFlag
  {
  }

  /** A process that depends on "a" is started and bound to process 1. */
  lemma DependencyBound(config: ProcessConfig) returns (s: State)
    requires config.command != "" && config.dependsOn == [OnLabel("a")]
    ensures Reachable(s) && s.nextId == 3 && s.nextSequence == 3
    ensures s.procs == map[1 := Started(1, 7, "a", Plain([]), 1, []).(state := Running), 2 := Started(2, 8, "b", config, 2, [1])]
  {
    InitialReachable();
    var s1 := StartsPlain(INITIAL, "a", Plain([]), [], 7);
    IndependentAccept(s1.procs, [1], "b", "a");
    StartedIs(1, 7, "a", Plain([]), 1, []);
    hide Reachable, Listed, AcyclicWith, Acyclic, Started;
    s := StartsBound(s1, "b", config, "a", [1], 1, 8);
  }

  /** Process 2 depends on "a" and is bound to process 1; that is stopped, and process 3
      is started with its label. */
  lemma DependencyReplaced() returns (s: State)
    ensures Reachable(s) && s.nextId == 4
    ensures s.procs == map[2 := Started(2, 8, "b", Dependent(), 2, [1]), 3 := Started(3, 9, "a", Plain([]), 3, [])]
  {
    hide Reachable, Started;
    var s2 := DependencyBound(Dependent());
    StartedIs(1, 7, "a", Plain([]), 1, []);
    var s3 := StopsAlone(s2, 1, [1, 2]);
    s := StartsPlain(s3, "a", Plain([]), [2], 9);
  }

  /** A cycle at time 0 that walks `order`, sees the given processes crash, and spawns with pid 10. */
  ghost function CrashTick(order: seq<ProcessId>, crashed: set<ProcessId>): Tick {
    Tick(0.0, site => order, id => if id in crashed then Exited(false) else Alive, (id, n) => Alive,
         id => Some(10), reading => 0.0)
  }

  lemma NowOfCrash(order: seq<ProcessId>, crashed: set<ProcessId>)
    ensures CrashTick(order, crashed).now == 0.0
  {
  }

  lemma CrashTickFaithful(order: seq<ProcessId>, crashed: set<ProcessId>, keys: set<ProcessId>)
    requires Enumerates(order, keys)
    ensures Faithful(CrashTick(order, crashed), keys)
  {
    var t := CrashTick(order, crashed);
    assert forall site :: t.order(site) == order;
  }

  /** Without group strategies nobody goes down with a crash. */
  lemma NobodyTargeted(s: State, t: Tick)
    requires forall id :: id in s.procs ==> s.procs[id].config.strategy.OneForOne?
    ensures forall id :: !IsTargeted(s.procs, id, t)
  {
    forall o | o in s.procs ensures PollEntry(s.procs[o], t.exit(o), t.now).origin.None? {}
    hide PollEntry;
  }

  /** The dependent has crashed, and "a" is Running. */
  lemma DependentCrashes(s: State, t: Tick)
    requires t == CrashTick([2, 3], {2})
    requires s.procs == map[2 := Started(2, 8, "b", Dependent(), 2, [1]), 3 := Started(3, 9, "a", Plain([]), 3, [])]
    ensures var s3 := Reap(s, t);
            && s3.procs.Keys == {2, 3} && s3.procs[3] == s.procs[3].(state := Running)
            && s3.procs[2] == Scheduled(s.procs[2], 0.0)
  {
    NobodyTargeted(s, t);
    hide IsTargeted, Scheduled;
  }

  lemma RestartsOne(s: State, t: Tick, order: seq<ProcessId>, id: ProcessId)
    requires t.order(AtRestart) == order && RestartIds(s.procs, order, t.now) == [id]
    ensures Restarts(s, t) == PerformRestart(s, id, t)
  {
    assert [id][..0] == [];
    assert RestartAll(s, [], t) == s;
    hide PerformRestart;
  }

  lemma DependentRestarts(s: State, t: Tick)
    requires t == CrashTick([2, 3], {2}) && s.procs.Keys == {2, 3}
    requires s.procs[3] == Started(3, 9, "a", Plain([]), 3, []).(state := Running)
    requires s.procs[2] == Scheduled(Started(2, 8, "b", Dependent(), 2, [1]), 0.0)
    ensures var s4 := Restarts(s, t);
            2 in s4.procs && s4.procs[2].state.Starting? && s4.procs[2].resolvedDeps == [3]
  {
    assert [2, 3][..1] == [2] && [2][..0] == [] && [2, 3][1..] == [3];
    assert RestartIds(s.procs, [2], 0.0) == [2];
    assert RestartIds(s.procs, [2, 3], 0.0) == [2];
    RestartsOne(s, t, [2, 3], 2);
    assert Find(s.procs, [2, 3], "a", true) == Some(3);
    BindsOne(s.procs, [2, 3], "a", 3);
    PollsOne(s.procs, 3, (n: nat) => t.recheck(2, n));
    hide Find, RestartIds, Restarts, Bindings, PollDeps, RunningLabels;
  }

  lemma CycleIsLegal(s: State, order: seq<ProcessId>, crashed: set<ProcessId>)
    requires Distinct(order) && forall k :: k in s.procs ==> k in order
    ensures var t := CrashTick(order, crashed); Legal(s, DoCycle(t)) && Faithful(t, s.procs.Keys)
  {
    CrashTickFaithful(order, crashed, s.procs.Keys);
  }

  /** Whoever is neither Waiting nor Running after phase 4 ends the cycle like that. */
  lemma EndsLike(s: State, t: Tick, id: ProcessId)
    requires Invariant(s) && Faithful(t, s.procs.Keys)
    requires var s4 := Restarts(Reap(s, t), t); id in s4.procs && !s4.procs[id].state.Waiting? && !s4.procs[id].state.Running?
    ensures id in Cycle(s, t).procs && Cycle(s, t).procs[id] == Restarts(Reap(s, t), t).procs[id]
  {
    hide *;
    var s3 := Reap(s, t);
    ReapInvariant(s, t);
    AfterReapIs(s, t);
    RestartsAdvance(s3, t);
    AdvancesEvolves(s3, Restarts(s3, t));
    FaithfulShrinks(t, s3.procs.Keys, Restarts(s3, t).procs.Keys);
    KeptAfterRestarts(Restarts(s3, t), t, id);
  }

  lemma BindingLostIn(s: State, t: Tick)
    requires Reachable(s) && Faithful(t, s.procs.Keys) && t == CrashTick([2, 3], {2})
    requires s.procs == map[2 := Started(2, 8, "b", Dependent(), 2, [1]), 3 := Started(3, 9, "a", Plain([]), 3, [])]
    ensures 2 in Cycle(s, t).procs && Cycle(s, t).procs[2].state.Starting? && Cycle(s, t).procs[2].resolvedDeps == [3]
  {
    hide *;
    ReachableInvariant(s);
    DependentCrashes(s, t);
    DependentRestarts(Reap(s, t), t);
    EndsLike(s, t, 2);
  }

  // -------------------------------------------------- a flag survives a restart

  function Group(policy: RestartPolicy): ProcessConfig {
    Config(true, policy, OneForAll, [])
  }

  /** Two members of a `OneForAll` group. */
  lemma TwoInGroup(policy: RestartPolicy) returns (s: State)
    ensures Reachable(s) && s.nextId == 3
    ensures s.procs == map[1 := Started(1, 7, "g", Group(policy), 1, []), 2 := Started(2, 8, "g", Group(policy), 2, [])]
  {
    InitialReachable();
    hide Reachable, Started;
    var s1 := StartsPlain(INITIAL, "g", Group(policy), [], 7);
    s := StartsPlain(s1, "g", Group(policy), [1], 8);
  }

  /** One restart, without delay. */
  const ONE_RESTART := BackoffConfig(0.0, 20, 0.0, 1, 10.0)

  /** Restarts in the cycle of the exit. */
  ghost predicate Prompt(policy: RestartPolicy) {
    policy.Immediate? || policy == RestartPolicy.Backoff(ONE_RESTART)
  }

  /** The policies of the runs below. */
  ghost predicate Restartable(policy: RestartPolicy) {
    Prompt(policy) || policy == RestartPolicy.Backoff(DOCUMENTED_EXAMPLE)
  }

  lemma EachTakesTheOtherDown(s: State, t: Tick, policy: RestartPolicy)
    requires Restartable(policy) && t == CrashTick([1, 2], {1, 2})
    requires s.procs == map[1 := Started(1, 7, "g", Group(policy), 1, []), 2 := Started(2, 8, "g", Group(policy), 2, [])]
    ensures forall x :: x == 1 || x == 2 ==> ExitSeen(s, x, t) && !Leaves(Seen(s, x, t)) && GoesDown(s, x, t)
    ensures forall x :: x == 1 || x == 2 ==> Seen(s, x, t).process == s.procs[x]
  {
    assert IsOrigin(s, 1, t) && IsOrigin(s, 2, t);
  }

  /** Both crash in the same cycle. */
  lemma GroupCrashes(s: State, t: Tick, policy: RestartPolicy)
    requires Reachable(s) && Restartable(policy) && t == CrashTick([1, 2], {1, 2})
    requires s.procs == map[1 := Started(1, 7, "g", Group(policy), 1, []), 2 := Started(2, 8, "g", Group(policy), 2, [])]
    ensures var s3 := Reap(s, t);
            && s3.procs.Keys == {1, 2}
            && s3.procs[1] == Scheduled(Flagged(s.procs[1]), 0.0) && s3.procs[2] == Scheduled(Flagged(s.procs[2]), 0.0)
  {
    hide Reachable, Invariant, Structural, IsTargeted, GoesDown, Scheduled, Flagged, Started, Restartable, CrashTick;
    ReachableInvariant(s);
    InvariantStructural(s);
    EachTakesTheOtherDown(s, t, policy);
    TargetsExact(s, 1, t);
    TargetsExact(s, 2, t);
    assert t.now == 0.0 by { NowOfCrash([1, 2], {1, 2}); }
    hide PollEntry;
  }

  /** What a crashed member looks like in its backoff wait. */
  lemma MemberWaits(id: ProcessId, pid: OsPid, policy: RestartPolicy, sequence: nat)
    requires Restartable(policy)
    ensures var p := Scheduled(Flagged(Started(id, pid, "g", Group(policy), sequence, [])), 0.0);
            && p.id == id && p.state.Restarting? && p.cascadeFlag && p.config == Group(policy) && p.restart.Some?
            && p.restart.value.nextEligibleRestart.Some? && RestartCount(p) == 1
            && (p.restart.value.nextEligibleRestart.value <= 0.0 <==> Prompt(policy))
  {
    DocumentedWaitMissed();
    WaitIsCapped(ONE_RESTART, 1);
    assert WaitBefore(DOCUMENTED_EXAMPLE, 1) == Capped(RawDelay(DOCUMENTED_EXAMPLE, 1), DOCUMENTED_EXAMPLE.maxDelay);
  }

  lemma WaitIsCapped(config: BackoffConfig, n: nat)
    requires 1 <= n
    ensures WaitBefore(config, n) == Capped(RawDelay(config, n), config.maxDelay)
    ensures config.maxDelay == 0.0 ==> WaitBefore(config, n) == 0.0
  {
  }

  /** A member after its first restart. */
  ghost predicate IsBack(p: Process, policy: RestartPolicy) {
    && p.state.Starting? && p.cascadeFlag && p.config == Group(policy) && p.pid == 10 && p.child.Some?
    && p.restart.Some? && RestartCount(p) == 1
  }

  lemma GroupRestarts(s: State, t: Tick, policy: RestartPolicy)
    requires t == CrashTick([1, 2], {1, 2}) && s.procs.Keys == {1, 2} && Prompt(policy)
    requires s.procs[1] == Scheduled(Flagged(Started(1, 7, "g", Group(policy), 1, [])), 0.0)
    requires s.procs[2] == Scheduled(Flagged(Started(2, 8, "g", Group(policy), 2, [])), 0.0)
    ensures var s4 := Restarts(s, t); s4.procs.Keys == {1, 2} && IsBack(s4.procs[1], policy) && IsBack(s4.procs[2], policy)
  {
    MemberWaits(1, 7, policy, 1);
    MemberWaits(2, 8, policy, 2);
    assert Group(policy).dependsOn == [];
    hide Scheduled, Flagged, Started, RunningLabels, Prompt, Group;
    assert [1, 2][..1] == [1] && [1][..0] == [];
    assert RestartIds(s.procs, [1], 0.0) == [1];
    assert RestartIds(s.procs, [1, 2], 0.0) == [1, 2];
    hide RestartIds;
    var s1 := PerformRestart(s, 1, t);
    assert RestartAll(s, [1], t) == s1;
    assert RestartAll(s, [1, 2], t) == PerformRestart(s1, 2, t);
    hide RestartAll;
    RestartsAtOnce(s, 1, t);
    RestartsAtOnce(s1, 2, t);
  }

  /** A restart without dependencies whose spawn succeeds. */
  lemma RestartsAtOnce(s: State, id: ProcessId, t: Tick)
    requires id in s.procs && s.procs[id].id == id && s.procs[id].config.dependsOn == [] && t.spawn(id).Some?
    ensures PerformRestart(s, id, t).procs == s.procs[id := Restarted(s.procs[id], t.spawn(id).value, t.clock(OnRestart(id)))]
  {
    hide RunningLabels;
  }

  lemma GroupWaits(s: State, t: Tick)
    requires t == CrashTick([1, 2], {1, 2}) && s.procs.Keys == {1, 2}
    requires s.procs[1] == Scheduled(Flagged(Started(1, 7, "g", Group(RestartPolicy.Backoff(DOCUMENTED_EXAMPLE)), 1, [])), 0.0)
    requires s.procs[2] == Scheduled(Flagged(Started(2, 8, "g", Group(RestartPolicy.Backoff(DOCUMENTED_EXAMPLE)), 2, [])), 0.0)
    ensures Restarts(s, t) == s && s.procs[1].state.Restarting? && s.procs[1].cascadeFlag
  {
    MemberWaits(1, 7, RestartPolicy.Backoff(DOCUMENTED_EXAMPLE), 1);
    MemberWaits(2, 8, RestartPolicy.Backoff(DOCUMENTED_EXAMPLE), 2);
    hide Scheduled, Flagged, Started;
    assert [1, 2][..1] == [1] && [1][..0] == [];
    assert RestartIds(s.procs, [1], 0.0) == [];
    assert RestartIds(s.procs, [1, 2], 0.0) == [];
  }

  lemma GroupCycle(s: State, t: Tick, policy: RestartPolicy)
    requires Reachable(s) && Restartable(policy) && Faithful(t, s.procs.Keys) && t == CrashTick([1, 2], {1, 2})
    requires s.procs == map[1 := Started(1, 7, "g", Group(policy), 1, []), 2 := Started(2, 8, "g", Group(policy), 2, [])]
    ensures 1 in Cycle(s, t).procs && Cycle(s, t).procs[1].cascadeFlag
    ensures Prompt(policy) ==> 2 in Cycle(s, t).procs && IsBack(Cycle(s, t).procs[1], policy) && IsBack(Cycle(s, t).procs[2], policy)
    ensures !Prompt(policy) ==> Cycle(s, t).procs[1].state.Restarting?
  {
    assert Prompt(policy) || policy == RestartPolicy.Backoff(DOCUMENTED_EXAMPLE);
    hide *;
    ReachableInvariant(s);
    GroupCrashes(s, t, policy);
    if Prompt(policy) {
      GroupRestarts(Reap(s, t), t, policy);
      BackIs(Restarts(Reap(s, t), t).procs[1], policy);
      BackIs(Restarts(Reap(s, t), t).procs[2], policy);
      EndsLike(s, t, 2);
    } else {
      GroupWaits(Reap(s, t), t);
    }
    EndsLike(s, t, 1);
  }

  lemma BackIs(p: Process, policy: RestartPolicy)
    requires IsBack(p, policy)
    ensures p.state.Starting? && p.cascadeFlag
  {
  }

  lemma RestartByHand(s: State, id: ProcessId, e: RestartEnv)
    requires Structural(s) && id in s.procs && s.procs[id].state.Restarting? && e.spawn.Some?
    ensures var s' := Apply(s, DoRestart(id, e));
            id in s'.procs && s'.procs[id].state.Starting? && s'.procs[id].cascadeFlag == s.procs[id].cascadeFlag
  {
    assert s.procs[id].id == id;
    hide Structural, RunningLabels;
  }

  lemma ApplyCycle(s: State, t: Tick)
    ensures Apply(s, DoCycle(t)) == Cycle(s, t)
  {
  }

  lemma EnvFor(s: State) returns (e: RestartEnv)
    ensures Legal(s, DoRestart(1, e)) && e.spawn.Some?
  {
    var order := Enumeration(s.procs.Keys);
    e := RestartEnv(StopEnv(x => order, x => Delivered, x => Delivered), Some(11), 0.0);
    assert forall x :: e.stop.order(x) == order;
  }

  // ------------------------------------------------ signals to who is gone

  /** A process is started and a query finds it dead. */
  lemma SeenCrashed() returns (s: State)
    ensures Reachable(s) && 1 in s.procs && s.procs[1].state.Crashed? && s.procs[1].pid != 0
  {
    InitialReachable();
    hide Reachable;
    var before := StartsPlain(INITIAL, "a", Plain([]), [], 7);
    var step := DoObserve(1, Exited(false));
    s := Apply(before, step);
    ReachableStep(before, step);
  }

  lemma CrashedIsStale(r: Run, n: nat, id: ProcessId)
    requires n < |r.states| && id in r.states[n].procs && r.states[n].procs[id].state.Crashed? && r.states[n].procs[id].pid != 0
    ensures StalePid(r, n, id)
  {
  }

  // -------------------------------------------------- more restarts than the limit

  /** The second crash of process 1 finds the limit spent and the flag set. */
  lemma ExcusedAtLimit(s: State, t: Tick)
    requires Structural(s) && s.procs.Keys == {1, 2} && t == CrashTick([1, 2], {1})
    requires IsBack(s.procs[1], RestartPolicy.Backoff(ONE_RESTART)) && IsBack(s.procs[2], RestartPolicy.Backoff(ONE_RESTART))
    ensures var s3 := Reap(s, t);
            && s3.procs.Keys == {1, 2} && s3.procs[1] == Scheduled(s.procs[1].(cascadeFlag := false), 0.0)
            && !s3.procs[2].state.Restarting? && s.procs[1].id == 1
  {
    assert s.procs[1].id == 1 && s.procs[2].id == 2;
    FlaggedAlone(s, t);
    hide IsTargeted, Scheduled, Structural;
  }

  lemma FlaggedAlone(s: State, t: Tick)
    requires t == CrashTick([1, 2], {1}) && s.procs.Keys == {1, 2} && s.procs[1].cascadeFlag
    requires s.procs[1].state.Starting? && s.procs[2].state.Starting?
    ensures forall id :: !IsTargeted(s.procs, id, t)
  {
    forall o | o in s.procs ensures PollEntry(s.procs[o], t.exit(o), t.now).origin.None? {}
    hide PollEntry;
  }

  lemma SecondRestart(s: State, t: Tick, p: Process)
    requires t == CrashTick([1, 2], {1}) && s.procs.Keys == {1, 2} && !s.procs[2].state.Restarting?
    requires p.id == 1 && IsBack(p.(cascadeFlag := true), RestartPolicy.Backoff(ONE_RESTART)) && s.procs[1] == Scheduled(p, 0.0)
    ensures var s4 := Restarts(s, t);
            && 1 in s4.procs && s4.procs[1].state.Starting? && s4.procs[1].config == Group(RestartPolicy.Backoff(ONE_RESTART))
            && RestartCount(s4.procs[1]) == 2
  {
    assert p.config == Group(RestartPolicy.Backoff(ONE_RESTART));
    assert RestartCount(s.procs[1]) == 2 && DueForRestart(s.procs, 1, 0.0) by { WaitIsCapped(ONE_RESTART, 2); }
    assert [1, 2][..1] == [1] && [1][..0] == [];
    assert RestartIds(s.procs, [], 0.0) == [];
    assert RestartIds(s.procs, [1], 0.0) == [1];
    assert RestartIds(s.procs, [1, 2], 0.0) == [1];
    RestartsOne(s, t, [1, 2], 1);
    assert s.procs[1].config.dependsOn == [];
    hide RestartIds, Restarts, RunningLabels, Scheduled;
  }

  lemma SecondCycle(s: State, t: Tick)
    requires Reachable(s) && Faithful(t, s.procs.Keys) && s.procs.Keys == {1, 2} && t == CrashTick([1, 2], {1})
    requires IsBack(s.procs[1], RestartPolicy.Backoff(ONE_RESTART)) && IsBack(s.procs[2], RestartPolicy.Backoff(ONE_RESTART))
    ensures var s' := Cycle(s, t);
            && 1 in s'.procs && s'.procs[1].config.restartPolicy == RestartPolicy.Backoff(ONE_RESTART)
            && RestartCount(s'.procs[1]) == 2
  {
    assert Group(RestartPolicy.Backoff(ONE_RESTART)).restartPolicy == RestartPolicy.Backoff(ONE_RESTART);
    assert s.procs[1].cascadeFlag;
    hide *;
    ReachableInvariant(s);
    InvariantStructural(s);
    ExcusedAtLimit(s, t);
    var p := s.procs[1].(cascadeFlag := false);
    assert p.(cascadeFlag := true) == s.procs[1];
    SecondRestart(Reap(s, t), t, p);
    EndsLike(s, t, 1);
  }

  /** Two members that have crashed together and are back. */
  lemma BothBack() returns (s: State)
    ensures Reachable(s) && s.procs.Keys == {1, 2}
    ensures IsBack(s.procs[1], RestartPolicy.Backoff(ONE_RESTART)) && IsBack(s.procs[2], RestartPolicy.Backoff(ONE_RESTART))
  {
    var policy := RestartPolicy.Backoff(ONE_RESTART);
    assert Prompt(policy) && Restartable(policy);
    assert Distinct([1 as ProcessId, 2]);
    hide *;
    var before := TwoInGroup(policy);
    var t := CrashTick([1, 2], {1, 2});
    CycleIsLegal(before, [1, 2], {1, 2});
    GroupCycle(before, t, policy);
    StillTwo(before, t);
    s := ReachableCycle(before, t);
  }

  lemma StillTwo(s: State, t: Tick)
    requires Reachable(s) && Faithful(t, s.procs.Keys) && s.procs.Keys == {1, 2}
    requires 1 in Cycle(s, t).procs && 2 in Cycle(s, t).procs
    ensures Cycle(s, t).procs.Keys == {1, 2}
  {
    hide *;
    ReachableInvariant(s);
    CycleTracksNobody(s, t);
  }

  lemma ReachableCycle(s: State, t: Tick) returns (s': State)
    requires Reachable(s) && Legal(s, DoCycle(t))
    ensures s' == Cycle(s, t) && Reachable(s')
  {
    s' := Cycle(s, t);
    ReachableStep(s, DoCycle(t));
    ApplyCycle(s, t);
  }

  // ----------------------------------------------------- one pass of fail-fast

  lemma ChainAccept(procs: ProcessMap, order: seq<ProcessId>)
    requires forall id :: id in procs ==> procs[id].config.dependsOn == [] || (procs[id].tag == "b" && procs[id].config.dependsOn == [OnLabel("a")])
    ensures Acyclic(Listed(procs, order, "c")) && AcyclicWith(Listed(procs, order, "c"), "c", [OnLabel("b")])
  {
    var listed := Listed(procs, order, "c");
    assert forall id :: id in listed ==> listed[id] == procs[id];
    var rank: Label -> nat := l => if l == "c" then 2 else if l == "b" then 1 else 0;
    forall a, b | JoinedEdge(listed, "c", [OnLabel("b")], a, b) ensures rank(b) < rank(a) {}
    forall a, b | JoinedEdge(listed, "", [], a, b) ensures rank(b) < rank(a) {}
    hide Listed, JoinedEdge;
    Ranked(listed, "c", [OnLabel("b")], rank);
    Ranked(listed, "", [], rank);
  }

  lemma ObserveAlive(s: State, id: ProcessId) returns (s': State)
    requires Reachable(s) && id in s.procs && s.procs[id].state.Starting? && s.procs[id].child.Some?
    ensures Reachable(s') && s'.procs == s.procs[id := s.procs[id].(state := Running)]
  {
    var step := DoObserve(id, Alive);
    s' := Apply(s, step);
    ReachableStep(s, step);
    hide Reachable;
  }

  lemma ThreeInChain() returns (s: State)
    ensures Reachable(s) && s.procs.Keys == {1, 2, 3}
    ensures s.procs[1] == Started(1, 7, "a", Plain([]), 1, []).(state := Running)
    ensures s.procs[2] == Started(2, 8, "b", Plain([OnLabel("a")]), 2, [1]).(state := Running)
    ensures s.procs[3] == Started(3, 9, "c", Plain([OnLabel("b")]), 3, [2])
  {
    hide Started, Reachable, Find, Listed, AcyclicWith, Acyclic, Apply;
    var s2 := DependencyBound(Plain([OnLabel("a")]));
    StartedIs(1, 7, "a", Plain([]), 1, []);
    StartedIs(2, 8, "b", Plain([OnLabel("a")]), 2, [1]);
    ChainAccept(s2.procs, [1, 2]);
    FindsSecond(s2.procs, "b");
    s := StartsBound(s2, "c", Plain([OnLabel("b")]), "b", [1, 2], 2, 9);
  }

  lemma ChainRuns() returns (s: State)
    ensures Reachable(s) && IsChain(s.procs, 2, 3, 1)
  {
    hide Reachable, Started;
    StartedIs(1, 7, "a", Plain([]), 1, []);
    StartedIs(2, 8, "b", Plain([OnLabel("a")]), 2, [1]);
    StartedIs(3, 9, "c", Plain([OnLabel("b")]), 3, [2]);
    var s3 := ThreeInChain();
    var s4 := ObserveAlive(s3, 3);
    s := StopsAlone(s4, 1, [1, 2, 3]);
  }

  // -------------------------------------------------- starved beside its dependencies

  /** A cycle at a time at which nothing goes wrong. */
  ghost function QuietTick(order: seq<ProcessId>, at: Time): Tick {
    Tick(at, site => order, id => Alive, (id, n) => Alive, id => Some(10), reading => at)
  }

  lemma QuietIsCalm(s: State, order: seq<ProcessId>, at: Time)
    requires Enumerates(order, s.procs.Keys)
    requires forall id :: id in s.procs && s.procs[id].state.Waiting? ==>
               s.procs[id].waitingSince == Some(at) && s.procs[id].config.dependencyTimeout > 0.0
    ensures Calm(s, QuietTick(order, at)) && Legal(s, DoCycle(QuietTick(order, at)))
  {
    var t := QuietTick(order, at);
    assert forall site :: t.order(site) == order;
    hide Enumerates;
  }

  function TwoWays(): seq<DependencyRef> {
    [OnLabel("a"), OnId(1)]
  }

  lemma TwoWaysAccept(procs: ProcessMap)
    requires procs.Keys == {1} && procs[1].tag == "a" && procs[1].config.dependsOn == [OnLabel("c")]
    ensures Acyclic(Listed(procs, [1], "b")) && AcyclicWith(Listed(procs, [1], "b"), "b", TwoWays())
  {
    var listed := Listed(procs, [1], "b");
    assert forall id :: id in listed ==> listed[id] == procs[1];
    var rank: Label -> nat := l => if l == "b" then 2 else if l == "a" then 1 else 0;
    forall x, y | JoinedEdge(listed, "b", TwoWays(), x, y) ensures rank(y) < rank(x) {}
    forall x, y | JoinedEdge(listed, "", [], x, y) ensures rank(y) < rank(x) {}
    hide Listed, JoinedEdge;
    Ranked(listed, "b", TwoWays(), rank);
    Ranked(listed, "", [], rank);
  }

  /** "a" waits for "c", "b" waits for "a" by label and by id, and "c" has just been started. */
  lemma TwoWait() returns (s: State)
    ensures Reachable(s)
    ensures s.procs == map[1 := Fresh(1, "a", Plain([OnLabel("c")]), 1).(waitingSince := Some(0.0)),
                           2 := Fresh(2, "b", Plain(TwoWays()), 2).(waitingSince := Some(0.0)),
                           3 := Started(3, 9, "c", Plain([]), 3, [])]
  {
    InitialReachable();
    var deps := [OnLabel("c")];
    assert OneEdge(Listed(map[], [], "a"), "a", deps, "a", "c") && OneEdge(Listed(map[], [], "a"), "", [], "a", "c");
    OneEdgeAcyclic(Listed(map[], [], "a"), "a", deps, "a", "c");
    OneEdgeAcyclic(Listed(map[], [], "a"), "", [], "a", "c");
    hide Reachable, Listed, AcyclicWith, Acyclic, OneEdge;
    var s1 := StartsWaiting(INITIAL, "a", Plain(deps), "c", []);
    TwoWaysAccept(s1.procs);
    var s2 := StartsWaiting(s1, "b", Plain(TwoWays()), "a", [1]);
    s := StartsPlain(s2, "c", Plain([]), [1, 2], 9);
  }

  lemma TwoWaitLaunching(s: State)
    requires s.procs == map[1 := Fresh(1, "a", Plain([OnLabel("c")]), 1).(waitingSince := Some(0.0)),
                            2 := Fresh(2, "b", Plain(TwoWays()), 2).(waitingSince := Some(0.0)),
                            3 := Started(3, 9, "c", Plain([]), 3, [])]
    ensures Launching(s) && s.procs[1].config.dependsOn == [OnLabel("c")] && s.procs[2].config.dependsOn == TwoWays()
    ensures s.procs[1].state.Waiting? && DepsUp(s.procs, s.procs[1]) && !Starved(s.procs, s.procs[1])
    ensures s.procs[3].state.Starting? && Clashes(s.procs, s.procs[2])
    ensures s.procs[1].tag == "a"
    ensures forall id :: id in s.procs && s.procs[id].state.Waiting? ==>
              s.procs[id].waitingSince == Some(0.0) && s.procs[id].config.dependencyTimeout > 0.0
  {
    NothingBound(s.procs, [OnLabel("c")]);
    assert s.procs[3].tag == "c";
    assert ClashesOver(s.procs, s.procs[2], "a", 1);
  }

  lemma QuietListed(s: State)
    requires s.procs.Keys == {1, 2, 3}
    ensures Enumerates([1, 2, 3], s.procs.Keys)
  {
  }

  lemma StarvedThoughMetAfter(s: State)
    requires Reachable(s) && Launching(s) && s.procs.Keys == {1, 2, 3}
    requires s.procs[1].state.Starting? && s.procs[3].state.Running? && Starved(s.procs, s.procs[2])
    requires s.procs[1].tag == "a" && s.procs[2].config == Plain(TwoWays())
    ensures exists s' ::
              && Reachable(s') && 2 in s'.procs && s'.procs[2].config.dependsOn == TwoWays()
              && AllMet(TwoWays(), RunningLabels(s'.procs)) && Starved(s'.procs, s'.procs[2])
  {
    hide *;
    ReachableInvariant(s);
    InvariantStructural(s);
    var at := WaitingSinceWhen(s);
    QuietListed(s);
    var t := QuietTick([1, 2, 3], at);
    QuietIsCalm(s, [1, 2, 3], at);
    CalmCycle(s, t);
    ApplyCycle(s, t);
    ReachableStep(s, DoCycle(t));
    MetTwoWays(Cycle(s, t).procs);
  }

  lemma WaitingSinceWhen(s: State) returns (at: Time)
    requires Structural(s) && s.procs.Keys == {1, 2, 3}
    requires s.procs[1].state.Starting? && s.procs[3].state.Running? && Starved(s.procs, s.procs[2])
    requires s.procs[2].config == Plain(TwoWays())
    ensures Plain(TwoWays()).dependsOn == TwoWays()
    ensures forall id :: id in s.procs && s.procs[id].state.Waiting? ==>
              s.procs[id].waitingSince == Some(at) && s.procs[id].config.dependencyTimeout > 0.0
  {
    assert WellFormed(s.procs[2]);
    at := s.procs[2].waitingSince.value;
  }

  lemma MetTwoWays(procs: ProcessMap)
    requires 1 in procs && procs[1].state.Running? && procs[1].tag == "a"
    ensures AllMet(TwoWays(), RunningLabels(procs))
  {
    assert 1 in RunningLabels(procs);
  }

  // ------------------------------------------------ waiting on after a loss

  function IdAndLabel(): seq<DependencyRef> {
    [OnLabel("c"), OnId(1)]
  }

  lemma IdAndLabelAccept(procs: ProcessMap)
    requires procs.Keys == {1} && procs[1].config.dependsOn == []
    ensures Acyclic(Listed(procs, [1], "b")) && AcyclicWith(Listed(procs, [1], "b"), "b", IdAndLabel())
  {
    var listed := Listed(procs, [1], "b");
    assert forall id :: id in listed ==> listed[id].config.dependsOn == [];
    hide Listed;
    assert OneEdge(listed, "b", IdAndLabel(), "b", "c") && OneEdge(listed, "", [], "b", "c");
    OneEdgeAcyclic(listed, "b", IdAndLabel(), "b", "c");
    OneEdgeAcyclic(listed, "", [], "b", "c");
  }

  /** "b" waits for the id of "a" and for the label "c", which nobody carries. */
  lemma WaitsForTwo() returns (s: State)
    ensures Reachable(s) && s.nextId == 3
    ensures s.procs == map[1 := Started(1, 7, "a", Plain([]), 1, []),
                           2 := Fresh(2, "b", Plain(IdAndLabel()), 2).(waitingSince := Some(0.0))]
  {
    InitialReachable();
    hide Reachable, Listed, AcyclicWith, Acyclic;
    var s1 := StartsPlain(INITIAL, "a", Plain([]), [], 7);
    IdAndLabelAccept(s1.procs);
    s := StartsWaiting(s1, "b", Plain(IdAndLabel()), "c", [1]);
  }

  lemma WaitsForTwoLaunching(s: State)
    requires s.procs == map[1 := Started(1, 7, "a", Plain([]), 1, []),
                            2 := Fresh(2, "b", Plain(IdAndLabel()), 2).(waitingSince := Some(0.0))]
    ensures Launching(s) && s.procs[1].state.Starting? && s.procs[1].config == Plain([]) && s.procs[2].state.Waiting?
    ensures s.procs[1].tag != "c" && s.procs[2].tag != "c" && s.procs[2].config == Plain(IdAndLabel()) && s.procs[2].resolvedDeps == []
    ensures forall id :: id in s.procs && s.procs[id].state.Waiting? ==>
              s.procs[id].waitingSince == Some(0.0) && s.procs[id].config.dependencyTimeout > 0.0
  {
  }

  /** The verdict on "b" binds the id, and leaves the label for later. */
  lemma BindsTheId(procs: ProcessMap, order: seq<ProcessId>, p: Process)
    requires p.resolvedDeps == [] && p.config == Plain(IdAndLabel()) && p.waitingSince == Some(0.0)
    requires forall x :: x in procs ==> procs[x].tag != "c"
    ensures Judge(procs, p, order, 0.0) == Verdict([1], ToKeep)
  {
    var deps := IdAndLabel();
    assert deps[..1] == [OnLabel("c")] && deps[..1][..0] == [];
    assert NewlyResolved(procs, order, [], []) == [];
    assert NewlyResolved(procs, order, [], deps[..1]) == [];
    assert NewlyResolved(procs, order, [], deps) == [1];
    assert [] + [1] == [1];
  }

  /** What the next cycle makes of the two. */
  lemma IdGetsBound(s: State, t: Tick)
    requires Invariant(s) && Launching(s) && Calm(s, t) && Faithful(t, s.procs.Keys) && t == QuietTick([1, 2], 0.0) && s.procs.Keys == {1, 2}
    requires s.procs[1].state.Starting? && s.procs[2].state.Waiting? && s.procs[2].resolvedDeps == []
    requires s.procs[1].tag != "c" && s.procs[2].tag != "c" && s.procs[2].config == Plain(IdAndLabel())
    requires s.procs[2].waitingSince == Some(0.0)
    ensures var s' := Cycle(s, t);
            && s'.procs.Keys == {1, 2} && s'.procs[1].state.Running? && s'.procs[1].config == s.procs[1].config
            && s'.procs[2] == s.procs[2].(resolvedDeps := [1])
  {
    hide *;
    CalmCycle(s, t);
    WaiterJudged(s, t, 2);
    var s4 := Restarts(Reap(s, t), t);
    QuietVerdict(s4.procs, 2, [1, 2]);
    BindsTheId(s4.procs, [1, 2], s.procs[2]);
  }

  /** One cycle later. */
  lemma IdIsBound() returns (s: State)
    ensures Reachable(s) && s.nextId == 3 && s.procs.Keys == {1, 2} && s.procs[1].state.Running? && s.procs[1].config == Plain([])
    ensures var p := s.procs[2]; p.state.Waiting? && p.resolvedDeps == [1] && p.config == Plain(IdAndLabel()) && p.waitingSince == Some(0.0)
  {
    assert Distinct([1 as ProcessId, 2]);
    hide *;
    var before := WaitsForTwo();
    WaitsForTwoLaunching(before);
    s := IdIsBoundAfter(before);
  }

  lemma IdIsBoundAfter(before: State) returns (s: State)
    requires Reachable(before) && Launching(before) && before.nextId == 3 && before.procs.Keys == {1, 2}
    requires before.procs[1].state.Starting? && before.procs[1].config == Plain([])
    requires before.procs[2].state.Waiting? && before.procs[2].resolvedDeps == [] && before.procs[2].config == Plain(IdAndLabel())
    requires before.procs[1].tag != "c" && before.procs[2].tag != "c"
    requires forall id :: id in before.procs && before.procs[id].state.Waiting? ==>
               before.procs[id].waitingSince == Some(0.0) && before.procs[id].config.dependencyTimeout > 0.0
    ensures Reachable(s) && s.nextId == 3 && s.procs.Keys == {1, 2} && s.procs[1].state.Running? && s.procs[1].config == Plain([])
    ensures var p := s.procs[2]; p.state.Waiting? && p.resolvedDeps == [1] && p.config == Plain(IdAndLabel()) && p.waitingSince == Some(0.0)
  {
    hide *;
    var t := QuietTick([1, 2], 0.0);
    ReachableInvariant(before);
    TwoListed(before);
    QuietIsCalm(before, [1, 2], 0.0);
    CalmFacts(before, t);
    IdGetsBound(before, t);
    s := ReachableCycle(before, t);
    SequencesStay(before, t, 2);
  }

  lemma TwoListed(s: State)
    requires s.procs.Keys == {1, 2}
    ensures Enumerates([1, 2], s.procs.Keys)
  {
  }

  lemma QuietVerdict(procs: ProcessMap, id: ProcessId, order: seq<ProcessId>)
    requires id in procs
    ensures VerdictOn(procs, id, QuietTick(order, 0.0)) == Judge(procs, procs[id], order, 0.0)
  {
    hide Judge;
  }

  /** "a" is stopped and "c" started. */
  lemma LossAndGain() returns (s: State)
    ensures Reachable(s) && s.procs.Keys == {2, 3} && s.procs[3] == Started(3, 9, "c", Plain([]), s.procs[3].spawnSequence, [])
    ensures var p := s.procs[2]; p.state.Waiting? && p.resolvedDeps == [1] && p.config == Plain(IdAndLabel()) && p.waitingSince == Some(0.0)
  {
    assert Distinct([1 as ProcessId, 2]) && Plain([]).dependsOn == [] && Plain([]).command != "" && !Plain([]).cascadeStop;
    assert Enumerates([2 as ProcessId], {2 as ProcessId});
    StartedIs(3, 9, "c", Plain([]), 0, []);
    hide Reachable, Started, Plain, Enumerates;
    var s1 := IdIsBound();
    TwoListed(s1);
    var s2 := StopsAlone(s1, 1, [1, 2]);
    assert s2.procs.Keys == {2};
    s := StartsPlain(s2, "c", Plain([]), [2], 9);
    StartedIs(3, 9, "c", Plain([]), s2.nextSequence, []);
    SequenceOf(3, 9, "c", Plain([]), s2.nextSequence);
  }

  lemma SequenceOf(id: ProcessId, pid: OsPid, tag: Label, config: ProcessConfig, sequence: nat)
    ensures Started(id, pid, tag, config, sequence, []).spawnSequence == sequence
  {
  }

  /** The verdict on "b" in a cycle that sees "c" Running. */
  lemma BindsTheLabel(procs: ProcessMap, p: Process)
    requires p.resolvedDeps == [1] && p.config == Plain(IdAndLabel()) && p.waitingSince == Some(0.0) && 1 !in procs
    requires procs.Keys <= {2, 3} && 3 in procs && procs[3].tag == "c" && procs[3].state.Running?
    ensures Judge(procs, p, [2, 3], 0.0).decision.ToKeep?
  {
    assert 1 !in procs && p.resolvedDeps[0] == 1;
    TerminalSpared(procs, p, [2, 3], 0.0);
    assert LostOne(procs, p.resolvedDeps);
    assert IdAndLabel()[0] == OnLabel("c") && !NothingToBind(procs, [1], OnLabel("c"));
    hide Judge;
  }

  /** "c" is Running when phase 4 is over. */
  lemma GainIsUp(s: State, t: Tick)
    requires Reachable(s) && Faithful(t, s.procs.Keys) && t == QuietTick([2, 3], 0.0) && s.procs.Keys == {2, 3}
    requires s.procs[2].state.Waiting? && s.procs[3].state.Starting?
    ensures var s4 := Restarts(Reap(s, t), t);
            3 in s4.procs && s4.procs[3].state.Running? && s4.procs[3].tag == s.procs[3].tag && s4.procs.Keys <= s.procs.Keys
  {
    var s3 := Reap(s, t);
    assert forall x :: !ExitSeen(s, x, t);
    NoNewCascade(s, t);
    ReachableInvariant(s);
    ReapInvariant(s, t);
    CascadeExact(s, 2, t);
    CascadeExact(s, 3, t);
    hide Reap, Reachable, Invariant, Faithful, ExitSeen, GoesDown, IsOrigin;
    TagsStay(s, s3);
    forall id | id in s3.procs ensures !s3.procs[id].state.Restarting? { assert id == 2 || id == 3; }
    NobodyDue(s3.procs, t.order(AtRestart), t.now);
    assert RestartAll(s3, [], t) == s3;
  }

  lemma LostListed(s: State)
    requires s.procs.Keys == {2, 3}
    ensures var t := QuietTick([2, 3], 0.0); Faithful(t, s.procs.Keys) && Legal(s, DoCycle(t))
  {
    var t := QuietTick([2, 3], 0.0);
    assert forall site :: t.order(site) == [2, 3];
  }
}
