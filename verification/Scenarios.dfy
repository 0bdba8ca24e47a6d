/** Runs of a few steps in which a property fails. */
module Scenarios {
  import opened Basics
  import opened Backoff
  import opened Processes
  import opened Resolution
  import opened Reaper
  import opened Manager
  import opened Invariants
  import opened ReapPhase
  import opened LaterPhases
  import opened FailFastPhase
  import opened Runs
  import opened Cascades
  import opened AcyclicRuns
  import opened Movement
  import opened MutualWaits
  import opened StaleSignals
  import opened BindingCounts
  import opened Starvation
  import opened Liveness
  import opened ScenarioSteps

  /** Two processes are started with the label "a", the first of them with a dependency
      on "b"; then "b" is started with a dependency on "a". The last `start` is accepted
      and closes a cycle. */
  lemma SharedLabelHidesCycle()
    ensures exists s, step ::
              && Reachable(s) && Legal(s, step) && step.DoStart? && Acyclic(s.procs)
              && Reachable(Apply(s, step)) && !Acyclic(Apply(s, step).procs)
  {
    hide Reachable, Listed, AcyclicWith, Find, Apply;
    var s := TwoNamedA();
    var deps := [OnLabel("a")];
    OnlySecondListed(s.procs);
    var listed: ProcessMap := map[2 := s.procs[2]];
    assert OneEdge(s.procs, "", [], "a", "b") && OneEdge(listed, "", [], "b", "a") && OneEdge(listed, "b", deps, "b", "a");
    OneEdgeAcyclic(s.procs, "", [], "a", "b");
    OneEdgeAcyclic(listed, "", [], "b", "a");
    OneEdgeAcyclic(listed, "b", deps, "b", "a");
    FindsSecond(s.procs, "a");
    var step := DoStart("b", Plain(deps), Env([1, 2], 8));
    assert Legal(s, step);
    hide Reachable, Listed, AcyclicWith, OneEdge, Find, Legal, Apply;
    var s' := StartsBound(s, "b", Plain(deps), "a", [1, 2], 2, 8);
    assert OnLabel("b") in s'.procs[1].config.dependsOn && OnLabel("a") in s'.procs[3].config.dependsOn;
    CloseLoop(s'.procs);
  }

  /** "a" is started with a need for the label "b", then "b" with a need for the id of "a".
      No label is shared and no label cycle is closed; the second start is accepted, and
      the two wait for each other. */
  lemma IdHidesCycle()
    ensures exists s, step ::
              && Reachable(s) && Legal(s, step) && step.DoStart? && !Rejected(s, step.tag, step.config, step.start)
              && Acyclic(s.procs) && Acyclic(Apply(s, step).procs)
              && NeedsLasso(s.procs, s.nextId, step.tag, step.config.dependsOn, ["a", "b", "a"])
              && Apply(s, step).procs.Keys == {1, 2}
              && AllIdle(Apply(s, step).procs, {1, 2}) && AllLocked(Apply(s, step).procs, {1, 2})
  {
    hide Reachable, Listed, Acyclic, AcyclicWith, Apply, Legal, Rejected, NeedsLasso, AllLocked;
    var s := FirstWaits();
    var config := Plain([OnId(1)]);
    ListedOne(s.procs);
    OneLabelAcyclic(s.procs);
    OneLabelAcyclic(Listed(s.procs, [1], "b"));
    var step := StartsBehind(s, "b", config, 1, [1]);
    OneLabelAcyclic(Apply(s, step).procs);
    EachNeedsTheOther(s.procs, Apply(s, step).procs);
  }

  /** The documented binding for life is lost: process 1 is stopped, process 3 is started
      with its label, and after its next crash the dependent is bound to process 3. */
  lemma BindingLost()
    ensures exists s, t: Tick ::
              && Reachable(s) && Legal(s, DoCycle(t)) && 1 < s.nextId && 1 !in s.procs
              && 2 in s.procs && s.procs[2].resolvedDeps == [1] && 3 in s.procs
              && 2 in Cycle(s, t).procs && Cycle(s, t).procs[2].state.Starting? && Cycle(s, t).procs[2].resolvedDeps == [3]
  {
    assert Distinct([2 as ProcessId, 3]);
    hide *;
    var s := DependencyReplaced();
    var t := CrashTick([2, 3], {2});
    StartedIs(2, 8, "b", Dependent(), 2, [1]);
    CycleIsLegal(s, [2, 3], {2});
    BindingLostIn(s, t);
  }

  /** Two members of a `OneForAll` group crash in one cycle. Each takes the other down
      although it has exited already, and after its automatic restart, in the same
      cycle and under a new pid, process 1 still carries the flag. */
  lemma FlagSurvivesRestart()
    ensures exists s, t: Tick ::
              && Reachable(s) && Legal(s, DoCycle(t)) && 1 in s.procs && !s.procs[1].cascadeFlag
              && 1 in Cycle(s, t).procs && Cycle(s, t).procs[1].state.Starting? && Cycle(s, t).procs[1].pid != s.procs[1].pid
              && Cycle(s, t).procs[1].cascadeFlag
  {
    hide Reachable, Cycle, Legal, Started;
    var s := TwoInGroup(Immediate);
    StartedIs(1, 7, "g", Group(Immediate), 1, []);
    CycleIsLegal(s, [1, 2], {1, 2});
    GroupCycle(s, CrashTick([1, 2], {1, 2}), Immediate);
  }

  /** The same with a backoff wait that a restart by hand cuts short. */
  lemma FlagSurvivesRestartByHand()
    ensures exists s, e ::
              && Reachable(s) && Legal(s, DoRestart(1, e)) && 1 in s.procs && s.procs[1].state.Restarting?
              && 1 in Apply(s, DoRestart(1, e)).procs && Apply(s, DoRestart(1, e)).procs[1].state.Starting?
              && Apply(s, DoRestart(1, e)).procs[1].cascadeFlag
  {
    hide Reachable, Cycle, Legal, Started, Apply, Structural, Invariant;
    var policy := RestartPolicy.Backoff(DOCUMENTED_EXAMPLE);
    var s := TwoInGroup(policy);
    var t := CrashTick([1, 2], {1, 2});
    CycleIsLegal(s, [1, 2], {1, 2});
    GroupCycle(s, t, policy);
    ReachableStep(s, DoCycle(t));
    var s' := Cycle(s, t);
    assert Apply(s, DoCycle(t)) == s' by { ApplyCycle(s, t); }
    var e := EnvFor(s');
    ReachableInvariant(s');
    InvariantStructural(s');
    RestartByHand(s', 1, e);
  }

  /** A state query has seen the process exit; then a batch stop, and just so a single
      stop, sends its signal to the pid, which may belong to another process by now. */
  lemma SeenExitSignalled()
    ensures exists r, n: nat :: IsRun(r) && n < |r.steps| && r.steps[n].DoStopMany? && SignalsGone(r, n, 1)
    ensures exists r, n: nat :: IsRun(r) && n < |r.steps| && r.steps[n].DoStop? && SignalsGone(r, n, 1)
  {
    hide Reachable, IsRun, SignalsGone, StalePid, Stop, Apply;
    var s := SeenCrashed();
    var batch, m := ExtendRun(s, DoStopMany([1], x => Delivered));
    CrashedIsStale(batch, m, 1);
    StaleSignalExact(batch, m, 1);
    assert SignalsGone(batch, m, 1);
    var order := Enumeration(s.procs.Keys);
    var e := StopEnv(x => order, x => Delivered, x => Delivered);
    assert Legal(s, DoStop(1, e)) by { assert forall x :: e.order(x) == order; }
    var single, n := ExtendRun(s, DoStop(1, e));
    CrashedIsStale(single, n, 1);
    StaleSignalExact(single, n, 1);
    assert SignalsGone(single, n, 1);
  }

  /** Two members of a group crash in one cycle, and each is signalled after its exit. */
  lemma CascadeSignalsGone()
    ensures exists r, n: nat :: IsRun(r) && n < |r.steps| && r.steps[n].DoCycle? && SignalsGone(r, n, 1)
  {
    hide Reachable, IsRun, SignalsGone, StalePid, Stop, Apply, Started, GoesDown, ExitSeen, Legal, Leaves, Seen, CrashTick;
    assert Restartable(Immediate);
    var s := TwoInGroup(Immediate);
    var t := CrashTick([1, 2], {1, 2});
    EachTakesTheOtherDown(s, t, Immediate);
    CycleIsLegal(s, [1, 2], {1, 2});
    var r, n := ExtendRun(s, DoCycle(t));
    StaleSignalExact(r, n, 1);
    assert SignalsGone(r, n, 1);
  }

  /** Two members of a group with a limit of one restart crash together, and the first
      crashes once more: the flag excuses the second exit, and a second restart follows. */
  lemma LimitExceeded()
    ensures exists s ::
              && Reachable(s) && 1 in s.procs && s.procs[1].config.restartPolicy == RestartPolicy.Backoff(ONE_RESTART)
              && RestartCount(s.procs[1]) == 2 > ONE_RESTART.maxRestarts
  {
    assert Distinct([1 as ProcessId, 2]) && ONE_RESTART.maxRestarts == 1;
    hide *;
    var s := BothBack();
    var t := CrashTick([1, 2], {1});
    CycleIsLegal(s, [1, 2], {1});
    SecondCycle(s, t);
    var s' := ReachableCycle(s, t);
  }

  /** Three processes are started in a chain and the first is stopped. What one pass of
      the fail-fast phase removes then depends on the order of its walk. */
  lemma OnePassDependsOnOrder()
    ensures exists s ::
              && Reachable(s) && s.procs.Keys == {2, 3}
              && FailFast(s, [2, 3]).procs.Keys == {}
              && FailFast(s, [3, 2]).procs.Keys == {3} && !Stable(FailFast(s, [3, 2]).procs)
  {
    hide Reachable, FailFast, Stable;
    var s := ChainRuns();
    OnePassOnChain(s, 2, 3, 1);
  }

  /** "a" is started and has to wait, then "b", which refers to it by its label and by its
      id, then what "a" waits for. Two cycles later "a" is Running, everything "b" refers
      to is met, and "b" will never be spawned. */
  lemma StarvedThoughMet()
    ensures exists s ::
              && Reachable(s) && 2 in s.procs && s.procs[2].config.dependsOn == TwoWays()
              && AllMet(TwoWays(), RunningLabels(s.procs)) && Starved(s.procs, s.procs[2])
  {
    assert Distinct([1 as ProcessId, 2, 3]);
    hide *;
    var s := TwoWait();
    TwoWaitLaunching(s);
    ReachableInvariant(s);
    QuietListed(s);
    QuietIsCalm(s, [1, 2, 3], 0.0);
    CalmCycle(s, QuietTick([1, 2, 3], 0.0));
    ApplyCycle(s, QuietTick([1, 2, 3], 0.0));
    ReachableStep(s, DoCycle(QuietTick([1, 2, 3], 0.0)));
    var s1 := Cycle(s, QuietTick([1, 2, 3], 0.0));
    StarvedThoughMetAfter(s1);
  }

  /** "b" refers to the id of "a" and to the label "c". The id is bound; "a" is stopped and
      "c" started; and the next cycle, which binds the label, does not fail "b" although
      what it is bound to is gone. */
  lemma SparedThoughLost()
    ensures exists s, t: Tick ::
              && Reachable(s) && Legal(s, DoCycle(t)) && 1 !in s.procs
              && 2 in s.procs && s.procs[2].state.Waiting? && s.procs[2].resolvedDeps == [1]
              && 2 in Cycle(s, t).procs && Cycle(s, t).procs[2].state.Waiting?
  {
    assert Distinct([2 as ProcessId, 3]);
    hide *;
    var s := LossAndGain();
    var t := QuietTick([2, 3], 0.0);
    StartedIs(3, 9, "c", Plain([]), s.procs[3].spawnSequence, []);
    LostListed(s);
    ReachableInvariant(s);
    WaiterJudged(s, t, 2);
    GainIsUp(s, t);
    var s4 := Restarts(Reap(s, t), t);
    QuietVerdict(s4.procs, 2, [2, 3]);
    BindsTheLabel(s4.procs, s4.procs[2]);
  }
}
