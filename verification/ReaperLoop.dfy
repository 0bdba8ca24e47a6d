/** The reaper cycle as methods. */
module ReaperLoop {
  import opened Basics
  import opened Processes
  import opened Resolution
  import Reaper
  import Invariants
  import opened ReapPhase
  import LaterPhases
  import Runs

  type Tick = Reaper.Tick
  type ExitedProcess = Reaper.ExitedProcess
  type Origin = Reaper.Origin

  /** The state behind the manager and the reaper thread. */
  class SharedState {
    var processes: ProcessMap
    var nextId: ProcessId
    var nextSpawnSequence: nat
    var log: seq<ExitEvent>
    ghost var spawns: seq<SpawnRecord>
    ghost var dropped: multiset<ProcessId>

    ghost function View(): State
      reads this
    {
      State(processes, nextId, nextSpawnSequence, log, spawns, dropped)
    }

    constructor ()
      ensures View() == INITIAL
    {
      processes, nextId, nextSpawnSequence, log := map[], 1, 1, [];
      spawns, dropped := [], multiset{};
    }

    /** Sends an event without exit status and forgets the process, child and all. */
    method Retire(id: ProcessId, state: ProcessState)
      requires id in processes
      modifies this
      ensures View() == Discard(old(View()), id, state)
    {
      var p := processes[id];
      processes := processes - {id};
      log := log + [EventFor(p, None, state)];
      dropped := dropped + DroppedChild(p);
    }

    /** Forgets the process without a word. */
    method Forget(id: ProcessId)
      requires id in processes
      modifies this
      ensures View() == Drop(old(View()), id)
    {
      dropped := dropped + DroppedChild(processes[id]);
      processes := processes - {id};
    }

    // -------------------------------------------------------------- phase 1

    /** Polls every entry; collects the exits, the cascade origins and the ids to remove. */
    method PollChildren(t: Tick) returns (found: Findings)
      requires Enumerates(t.order(Reaper.AtPoll), processes.Keys)
      modifies this`processes
      ensures processes == Reaper.PolledMap(old(processes), t)
      ensures found == FindingsOf(old(processes), t.order(Reaper.AtPoll), t)
    {
      hide Reaper.PollEntry, Reaper.PolledMap, FindingsOf, Outcome;
      found := Findings([], [], []);
      ghost var procs := processes;
      ghost var done: set<ProcessId> := {};
      var order := t.order(Reaper.AtPoll);
      NoFindings(procs, t);
      for i := 0 to |order|
        invariant processes.Keys == procs.Keys
        invariant forall id :: id in processes ==>
                    processes[id] == if id in done then Outcome(procs, id, t).process else procs[id]
        invariant forall k :: 0 <= k < |order| ==> (order[k] in done <==> k < i)
        invariant found == FindingsOf(procs, order[..i], t)
      {
        var id := order[i];
        FindingsStep(procs, order, i, t);
        done := done + {id};
        if id in processes {
          var p, gone, origin := PollChild(processes[id], t.exit(id), t.now);
          processes := processes[id := p];
          found := found.Noting(id, gone, origin);
        }
      }
      assert order[..|order|] == order;
      PolledIs(procs, t);
    }

    // ------------------------------------------------------------- phase 1b

    /** For each origin the members of its group that go down with it. */
    method CascadeTargets(origins: seq<Origin>, order: seq<ProcessId>) returns (targets: seq<ProcessId>)
      requires forall id :: id in processes ==> id in order
      ensures forall id :: id in targets <==> exists o :: o in origins && Reaper.IsTarget(processes, id, o)
    {
      targets := [];
      for i := 0 to |origins|
        invariant forall id :: id in targets <==> exists o :: o in origins[..i] && Reaper.IsTarget(processes, id, o)
      {
        var o := origins[i];
        var group := GroupTargets(o, order);
        assert origins[..i + 1] == origins[..i] + [o];
        targets := targets + group;
      }
      assert origins[..|origins|] == origins;
    }

    method GroupTargets(o: Origin, order: seq<ProcessId>) returns (targets: seq<ProcessId>)
      requires forall id :: id in processes ==> id in order
      ensures forall id :: id in targets <==> Reaper.IsTarget(processes, id, o)
    {
      targets := [];
      for j := 0 to |order|
        invariant forall id :: id in targets <==> id in order[..j] && Reaper.IsTarget(processes, id, o)
      {
        var id := order[j];
        assert order[..j + 1] == order[..j] + [id];
        if id in processes && id != o.id && processes[id].tag == o.tag
           && (processes[id].state.Running? || processes[id].state.Starting?) {
          match o.strategy {
            case OneForAll => targets := targets + [id];
            case RestForOne =>
              if processes[id].spawnSequence > o.spawnSequence { targets := targets + [id]; }
            case OneForOne =>
          }
        }
      }
    }

    /** Flags the targets; the outcome of the kill signal is not awaited. */
    method FlagTargets(targets: seq<ProcessId>)
      modifies this`processes
      ensures processes.Keys == old(processes).Keys
      ensures forall id :: id in processes ==>
                processes[id] == if id in targets then Reaper.Flagged(old(processes)[id]) else old(processes)[id]
    {
      for i := 0 to |targets|
        invariant processes.Keys == old(processes).Keys
        invariant forall id :: id in processes ==>
                    processes[id] == if id in targets[..i] then Reaper.Flagged(old(processes)[id]) else old(processes)[id]
      {
        var id := targets[i];
        if id in processes && processes[id].pid != 0 {
          processes := processes[id := processes[id].(cascadeFlag := true, state := Stopping)];
        }
      }
    }

    // --------------------------------------------------------- phases 2 and 3

    /** Forgets the processes that will not restart and reports every exit. */
    method RemoveAndReport(toRemove: seq<ProcessId>, exited: seq<ExitedProcess>)
      modifies this`processes, this`log
      ensures processes == map id | id in old(processes) && id !in toRemove :: old(processes)[id]
      ensures log == old(log) + Reaper.EventsOf(exited)
    {
      for i := 0 to |toRemove|
        invariant processes == map id | id in old(processes) && id !in toRemove[..i] :: old(processes)[id]
        invariant log == old(log)
      {
        processes := processes - {toRemove[i]};
      }
      assert exited[..0] == [] && log == old(log) + Reaper.EventsOf([]);
      for i := 0 to |exited|
        invariant processes == map id | id in old(processes) && id !in toRemove :: old(processes)[id]
        invariant log == old(log) + Reaper.EventsOf(exited[..i])
      {
        assert exited[..i + 1][..i] == exited[..i];
        log := log + [exited[i].event];
      }
      assert exited[..|exited|] == exited;
    }

    /** Releases the child of each process that restarts and starts its backoff wait. */
    method ScheduleRestarts(exited: seq<ExitedProcess>, now: Time)
      requires forall i, j :: 0 <= i < j < |exited| ==> exited[i].event.id != exited[j].event.id
      modifies this`processes
      ensures processes.Keys == old(processes).Keys
      ensures forall id :: id in processes ==>
                processes[id] == if RestartsIn(exited, id) then Reaper.Scheduled(old(processes)[id], now) else old(processes)[id]
    {
      hide Reaper.Scheduled, RestartsIn;
      NoneRestarts();
      for i := 0 to |exited|
        invariant processes.Keys == old(processes).Keys
        invariant forall id :: id in processes ==>
                    processes[id] == if RestartsIn(exited[..i], id) then Reaper.Scheduled(old(processes)[id], now) else old(processes)[id]
      {
        var id := exited[i].event.id;
        RestartsInStep(exited, i);
        if exited[i].restarts && id in processes {
          var p := ScheduleEntry(processes[id], now);
          processes := processes[id := p];
        }
      }
      assert exited[..|exited|] == exited;
    }

    /** Phases 1 to 3. */
    method Reap(t: Tick)
      requires Reaper.Faithful(t, processes.Keys) && Keyed(processes)
      modifies this
      ensures View() == Reaper.Reap(old(View()), t)
    {
      ghost var s := View();
      assert Enumerates(t.order(Reaper.AtPoll), processes.Keys) && Enumerates(t.order(Reaper.AtCascade), processes.Keys);
      hide Reaper.PollEntry, Reaper.Flagged, Reaper.Scheduled, Reaper.IsTargeted, Reaper.IsTarget, Reaper.PolledMap,
           Reaper.ExitsSeen, Reaper.EventsOf, Reaper.Reap, Reaper.Faithful, RestartsIn, FindingsOf;
      PolledKeys(processes, t);
      var found := PollChildren(t);
      var targets := CascadeTargets(found.origins, t.order(Reaper.AtCascade));
      FlagTargets(targets);
      ghost var flagged := processes;
      RemoveAndReport(found.toRemove, found.exited);
      FoundDistinct(s, t);
      ScheduleRestarts(found.exited, t.now);
      Assemble(s, t, found, targets, flagged, processes);
      ReapIs(s, t);
    }

    // -------------------------------------------------------------- phase 4

    /** `resolve_dependencies`: the first unresolvable label ends the walk. */
    method ResolveDependencies(order: seq<ProcessId>, deps: seq<DependencyRef>) returns (bound: Option<seq<ProcessId>>)
      ensures bound == Resolve(processes, order, deps)
    {
      var ids: seq<ProcessId> := [];
      for i := 0 to |deps|
        invariant Resolve(processes, order, deps[..i]) == Some(ids)
      {
        assert deps[..i + 1][..i] == deps[..i];
        match deps[i] {
          case OnId(id) => ids := ids + [id];
          case OnLabel(tag) =>
            var found := FirstWithLabel(order, tag, true);
            if found.None? {
              ResolveStops(processes, order, deps, i + 1);
              return None;
            }
            ids := ids + [found.value];
        }
      }
      assert deps[..|deps|] == deps;
      return Some(ids);
    }

    method FirstWithLabel(order: seq<ProcessId>, tag: Label, startingToo: bool) returns (found: Option<ProcessId>)
      ensures found == Find(processes, order, tag, startingToo)
    {
      for i := 0 to |order|
        invariant Find(processes, order, tag, startingToo) == Find(processes, order[i..], tag, startingToo)
      {
        assert order[i..][1..] == order[i + 1..];
        if Matches(processes, order[i], tag, startingToo) {
          return Some(order[i]);
        }
      }
      return None;
    }

    /** `all_deps_running`: polls until the first dependency that is not Running. */
    method AllDepsRunning(ids: seq<ProcessId>, polls: nat -> Poll) returns (ok: bool)
      modifies this`processes
      ensures PollResult(processes, ok) == PollDeps(old(processes), ids, polls)
    {
      for i := 0 to |ids|
        invariant PollResult(processes, true) == PollDeps(old(processes), ids[..i], polls)
      {
        assert ids[..i + 1][..i] == ids[..i];
        var id := ids[i];
        var running := false;
        if id in processes && !processes[id].state.Waiting? {
          processes := processes[id := processes[id].Polled(polls(i))];
          running := processes[id].state.Running?;
        }
        if !running {
          PollDepsStops(old(processes), ids, polls, i + 1);
          return false;
        }
      }
      assert ids[..|ids|] == ids;
      return true;
    }

    /** Attaches a child that has just been created and records the spawn. */
    method Attach(p: Process, cause: SpawnCause)
      modifies this
      ensures View() == Launch(old(View()), p, cause)
    {
      spawns := spawns + [SpawnRecord(p.id, cause, p.config.dependsOn, RunningLabels(processes))];
      processes := processes[p.id := p];
    }

    method PerformRestart(id: ProcessId, t: Tick)
      modifies this
      ensures View() == Reaper.PerformRestart(old(View()), id, t)
    {
      if id !in processes {
        return;
      }
      var deps := processes[id].config.dependsOn;
      if deps != [] {
        var resolved := ResolveDependencies(t.order(Reaper.AtLookup(id)), deps);
        var bound := if resolved.Some? then resolved.value else [];
        var running := false;
        if |bound| == |deps| {
          running := AllDepsRunning(bound, (n: nat) => t.recheck(id, n));
        }
        if !running {
          processes := processes[id := Reaper.BackToWaiting(processes[id], bound, t.clock(Reaper.OnRestart(id)))];
          return;
        }
        processes := processes[id := processes[id].(resolvedDeps := bound)];
      }
      var spawned := t.spawn(id);
      if spawned.Some? {
        Attach(Reaper.Restarted(processes[id], spawned.value, t.clock(Reaper.OnRestart(id))), OnAutoRestart);
      } else {
        Retire(id, Failed);
      }
    }

    method CollectDue(order: seq<ProcessId>, now: Time) returns (due: seq<ProcessId>)
      ensures due == Reaper.RestartIds(processes, order, now)
    {
      due := [];
      for i := 0 to |order|
        invariant due == Reaper.RestartIds(processes, order[..i], now)
      {
        assert order[..i + 1][..i] == order[..i];
        var id := order[i];
        if id in processes && processes[id].state.Restarting? && processes[id].restart.Some?
           && processes[id].restart.value.IsEligibleForRestart(now) {
          due := due + [id];
        }
      }
      assert order[..|order|] == order;
    }

    method RestartDue(t: Tick)
      modifies this
      ensures View() == Reaper.Restarts(old(View()), t)
    {
      var due := CollectDue(t.order(Reaper.AtRestart), t.now);
      ghost var s := View();
      assert Reaper.Restarts(s, t) == Reaper.RestartAll(s, due, t);
      hide *;
      LaterPhases.RestartAllStep(s, [], t);
      for i := 0 to |due|
        invariant View() == Reaper.RestartAll(s, due[..i], t)
      {
        assert due[..i + 1][..i] == due[..i];
        LaterPhases.RestartAllStep(s, due[..i + 1], t);
        PerformRestart(due[i], t);
      }
      assert due[..|due|] == due;
    }

    // -------------------------------------------------------------- phase 5

    /** Whether a stored-state check finds every bound dependency Running. */
    method AllRunningNow(ids: seq<ProcessId>) returns (ok: bool)
      ensures ok == AllRunning(processes, ids)
    {
      for i := 0 to |ids|
        invariant forall k :: 0 <= k < i ==> ids[k] in processes && processes[ids[k]].state.Running?
      {
        if ids[i] !in processes || !processes[ids[i]].state.Running? {
          return false;
        }
      }
      return true;
    }

    method BoundUnder(bound: seq<ProcessId>, tag: Label) returns (found: bool)
      ensures found == Reaper.Resolved(processes, bound, OnLabel(tag))
    {
      for i := 0 to |bound|
        invariant forall k :: 0 <= k < i ==> !(bound[k] in processes && processes[bound[k]].tag == tag)
      {
        if bound[i] in processes && processes[bound[i]].tag == tag {
          return true;
        }
      }
      return false;
    }

    /** The references without a binding, and then the ids that can be bound to them now. */
    method BindMissing(bound: seq<ProcessId>, deps: seq<DependencyRef>, order: seq<ProcessId>) returns (newly: seq<ProcessId>)
      ensures newly == Reaper.NewlyResolved(processes, order, bound, deps)
    {
      var missing: seq<DependencyRef> := [];
      for i := 0 to |deps|
        invariant missing == Missing(processes, bound, deps[..i])
      {
        assert deps[..i + 1][..i] == deps[..i];
        var resolved := deps[i].OnId? && deps[i].id in bound;
        if deps[i].OnLabel? {
          resolved := BoundUnder(bound, deps[i].tag);
        }
        if !resolved {
          missing := missing + [deps[i]];
        }
      }
      assert deps[..|deps|] == deps;
      newly := [];
      for i := 0 to |missing|
        invariant newly == BindAll(processes, order, missing[..i])
      {
        assert missing[..i + 1][..i] == missing[..i];
        match missing[i] {
          case OnId(id) => newly := newly + [id];
          case OnLabel(tag) =>
            var found := FirstWithLabel(order, tag, false);
            if found.Some? {
              newly := newly + [found.value];
            }
        }
      }
      assert missing[..|missing|] == missing;
      BindAllMissing(processes, order, bound, deps);
    }

    /** Decides about one Waiting process. */
    method Judge(p: Process, order: seq<ProcessId>, at: Time) returns (v: Reaper.Verdict)
      ensures v == Reaper.Judge(processes, p, order, at)
    {
      if p.waitingSince.Some? && Elapsed(p.waitingSince.value, at) >= p.config.dependencyTimeout {
        return Reaper.Verdict(p.resolvedDeps, Reaper.ToFail);
      }
      var bound := p.resolvedDeps;
      if |bound| != |p.config.dependsOn| {
        var newly := BindMissing(bound, p.config.dependsOn, order);
        if newly != [] {
          bound := bound + newly;
          var ready := AllRunningNow(bound);
          ready := ready && |bound| == |p.config.dependsOn|;
          return Reaper.Verdict(bound, if ready then Reaper.ToSpawn else Reaper.ToKeep);
        }
      } else {
        var ready := AllRunningNow(bound);
        if ready {
          return Reaper.Verdict(bound, Reaper.ToSpawn);
        }
      }
      var lost := AnyTerminal(bound);
      return Reaper.Verdict(bound, if lost then Reaper.ToFail else Reaper.ToKeep);
    }

    method CollectWaiting(order: seq<ProcessId>) returns (ids: seq<ProcessId>)
      ensures ids == WaitingOf(processes, order)
    {
      ids := [];
      for i := 0 to |order|
        invariant ids == WaitingOf(processes, order[..i])
      {
        assert order[..i + 1][..i] == order[..i];
        if order[i] in processes && processes[order[i]].state.Waiting? {
          ids := ids + [order[i]];
        }
      }
      assert order[..|order|] == order;
    }

    /** Decides about one Waiting process and stores its new bindings. */
    method JudgeEntry(id: ProcessId, t: Tick) returns (d: Reaper.Decision)
      requires id in processes
      modifies this`processes
      ensures processes == WithVerdict(old(processes), id, Reaper.VerdictOn(old(processes), id, t))
      ensures d == Reaper.VerdictOn(old(processes), id, t).decision
    {
      hide Reaper.Judge;
      var v := Judge(processes[id], t.order(Reaper.AtLookup(id)), t.clock(Reaper.OnTimeoutCheck(id)));
      processes := processes[id := processes[id].(resolvedDeps := v.resolvedDeps)];
      d := v.decision;
    }

    /** Goes through the Waiting processes, extends their bindings and sorts out who is spawned and who fails. */
    method JudgeWaiting(t: Tick) returns (toSpawn: seq<ProcessId>, toFail: seq<ProcessId>)
      requires Enumerates(t.order(Reaper.AtWaiting), processes.Keys)
      modifies this`processes
      ensures processes == Reaper.JudgedMap(old(processes), t)
      ensures toSpawn == Reaper.WaitingIds(old(processes), t.order(Reaper.AtWaiting), Reaper.ToSpawn, t)
      ensures toFail == Reaper.WaitingIds(old(processes), t.order(Reaper.AtWaiting), Reaper.ToFail, t)
    {
      hide *;
      var order := t.order(Reaper.AtWaiting);
      var ids := CollectWaiting(order);
      WaitingListed(processes, order);
      toSpawn, toFail := [], [];
      ghost var procs := processes;
      PartlyJudgedNone(procs, t);
      for i := 0 to |ids|
        invariant PartlyJudged(procs, processes, ids[..i], t)
        invariant toSpawn == Picked(procs, ids[..i], Reaper.ToSpawn, t)
        invariant toFail == Picked(procs, ids[..i], Reaper.ToFail, t)
      {
        var id := ids[i];
        assert ids[..i + 1] == ids[..i] + [id];
        PartlyJudgedStep(procs, processes, ids[..i], id, t);
        PickedStep(procs, ids[..i], id, t);
        var d := JudgeEntry(id, t);
        match d {
          case ToSpawn => toSpawn := toSpawn + [id];
          case ToFail => toFail := toFail + [id];
          case ToKeep =>
        }
      }
      assert ids[..|ids|] == ids;
      PartlyJudgedAll(procs, processes, ids, t);
      PickedWaiting(procs, order, Reaper.ToSpawn, t);
      PickedWaiting(procs, order, Reaper.ToFail, t);
    }

    method SpawnWaiting(id: ProcessId, t: Tick)
      modifies this
      ensures View() == Reaper.SpawnWaiting(old(View()), id, t)
    {
      if id !in processes {
        return;
      }
      var spawned := t.spawn(id);
      if spawned.Some? {
        Attach(Reaper.Spawned(processes[id], spawned.value, t.clock(Reaper.OnSpawn(id))), OnDependenciesReady);
      } else {
        Retire(id, Failed);
      }
    }

    method FailWaiting(id: ProcessId)
      modifies this
      ensures View() == Reaper.FailWaiting(old(View()), id)
    {
      if id in processes {
        Retire(id, Failed);
      }
    }

    method ServeWaiting(t: Tick)
      requires Enumerates(t.order(Reaper.AtWaiting), processes.Keys)
      modifies this
      ensures View() == Reaper.Waiters(old(View()), t)
    {
      hide Reaper.JudgedMap, Reaper.WaitingIds, Reaper.SpawnWaiting, Reaper.FailWaiting;
      ghost var s := View();
      var toSpawn, toFail := JudgeWaiting(t);
      ghost var s1 := View();
      for i := 0 to |toSpawn|
        invariant View() == Reaper.SpawnAll(s1, toSpawn[..i], t)
      {
        assert toSpawn[..i + 1][..i] == toSpawn[..i];
        SpawnWaiting(toSpawn[i], t);
      }
      assert toSpawn[..|toSpawn|] == toSpawn;
      ghost var s2 := View();
      for i := 0 to |toFail|
        invariant View() == Reaper.FailAll(s2, toFail[..i])
      {
        assert toFail[..i + 1][..i] == toFail[..i];
        FailWaiting(toFail[i]);
      }
      assert toFail[..|toFail|] == toFail;
    }

    // -------------------------------------------------------------- phase 6

    method CollectDependents(order: seq<ProcessId>) returns (dependents: seq<ProcessId>)
      ensures dependents == Reaper.RunningWithDeps(processes, order)
    {
      dependents := [];
      for i := 0 to |order|
        invariant dependents == Reaper.RunningWithDeps(processes, order[..i])
      {
        assert order[..i + 1][..i] == order[..i];
        var id := order[i];
        if id in processes && processes[id].state.Running? && processes[id].resolvedDeps != [] {
          dependents := dependents + [id];
        }
      }
      assert order[..|order|] == order;
    }

    method FailDependent(id: ProcessId)
      modifies this
      ensures View() == Reaper.FailDependent(old(View()), id)
    {
      if id in processes {
        var lost := AnyTerminal(processes[id].resolvedDeps);
        if lost { Retire(id, Failed); }
      }
    }

    /** Fails every Running process that has lost a dependency. */
    method FailFast(order: seq<ProcessId>)
      modifies this
      ensures View() == Reaper.FailFast(old(View()), order)
    {
      var dependents := CollectDependents(order);
      ghost var s := View();
      hide Reaper.FailDependent, Reaper.RunningWithDeps;
      for i := 0 to |dependents|
        invariant View() == Reaper.FailDependents(s, dependents[..i])
      {
        assert dependents[..i + 1][..i] == dependents[..i];
        FailDependent(dependents[i]);
      }
      assert dependents[..|dependents|] == dependents;
    }

    /** Whether some bound dependency is gone or in a terminal state. */
    method AnyTerminal(ids: seq<ProcessId>) returns (found: bool)
      ensures found == HasTerminal(processes, ids)
    {
      for i := 0 to |ids|
        invariant forall k :: 0 <= k < i ==> ids[k] in processes && !processes[ids[k]].IsTerminalDependency()
      {
        if ids[i] !in processes || processes[ids[i]].IsTerminalDependency() {
          return true;
        }
      }
      return false;
    }

    // ---------------------------------------------------------- the cycle

    /** One turn of the reaper thread. */
    method RunCycle(t: Tick)
      requires Reaper.Faithful(t, processes.Keys) && Invariants.Invariant(View())
      modifies this
      ensures View() == Reaper.Cycle(old(View()), t)
      ensures Invariants.Invariant(View())
    {
      ghost var s := View();
      KeysShrink(s, t);
      Runs.CycleKeeps(s, t);
      hide Reaper.Reap, Reaper.Restarts, Reaper.Waiters, Reaper.FailFast, Reaper.Faithful, Invariants.Invariant;
      Reap(t);
      RestartDue(t);
      ServeWaiting(t);
      FailFast(t.order(Reaper.AtFailFast));
    }

    /** The reaper thread: one cycle after another until it is told to stop. */
    method Watch(ticks: seq<Tick>)
      requires Invariants.Invariant(View()) && FaithfulCycles(View(), ticks)
      modifies this
      ensures View() == Cycles(old(View()), ticks)
      ensures Invariants.Invariant(View())
    {
      ghost var s := View();
      hide Reaper.Cycle, Reaper.Faithful, Invariants.Invariant, FaithfulCycles;
      for i := 0 to |ticks|
        invariant Invariants.Invariant(View()) && View() == Cycles(s, ticks[..i])
      {
        CyclesStep(s, ticks, i);
        RunCycle(ticks[i]);
      }
      assert ticks[..|ticks|] == ticks;
    }
  }

  /** One cycle after the other. */
  ghost function Cycles(s: State, ticks: seq<Tick>): State {
    if ticks == [] then s else Reaper.Cycle(Cycles(s, ticks[..|ticks| - 1]), ticks[|ticks| - 1])
  }

  ghost predicate FaithfulCycles(s: State, ticks: seq<Tick>) {
    forall n :: 0 <= n < |ticks| ==> Reaper.Faithful(ticks[n], Cycles(s, ticks[..n]).procs.Keys)
  }

  lemma CyclesStep(s: State, ticks: seq<Tick>, i: nat)
    requires i < |ticks| && FaithfulCycles(s, ticks)
    ensures Cycles(s, []) == s && Reaper.Faithful(ticks[i], Cycles(s, ticks[..i]).procs.Keys)
    ensures Cycles(s, ticks[..i + 1]) == Reaper.Cycle(Cycles(s, ticks[..i]), ticks[i])
  {
    hide Reaper.Cycle, Reaper.Faithful;
    assert ticks[..i + 1][..i] == ticks[..i];
  }

  lemma KeysShrink(s: State, t: Tick)
    requires Invariants.Invariant(s) && Reaper.Faithful(t, s.procs.Keys)
    ensures Keyed(s.procs)
    ensures Enumerates(t.order(Reaper.AtWaiting), Reaper.Restarts(Reaper.Reap(s, t), t).procs.Keys)
  {
    var s3 := Reaper.Reap(s, t);
    Runs.ReapInvariant(s, t);
    LaterPhases.RestartsAdvance(s3, t);
    Runs.FaithfulShrinks(t, s3.procs.Keys, Reaper.Restarts(s3, t).procs.Keys);
  }

  function Missing(procs: ProcessMap, bound: seq<ProcessId>, deps: seq<DependencyRef>): seq<DependencyRef> {
    if deps == [] then []
    else
      var n := |deps| - 1;
      Missing(procs, bound, deps[..n]) + if Reaper.Resolved(procs, bound, deps[n]) then [] else [deps[n]]
  }

  function BindAll(procs: ProcessMap, order: seq<ProcessId>, missing: seq<DependencyRef>): seq<ProcessId> {
    if missing == [] then []
    else
      var n := |missing| - 1;
      BindAll(procs, order, missing[..n]) +
      match missing[n]
      case OnId(id) => [id]
      case OnLabel(tag) =>
        var found := Find(procs, order, tag, false);
        if found.Some? then [found.value] else []
  }

  lemma BindAllMissing(procs: ProcessMap, order: seq<ProcessId>, bound: seq<ProcessId>, deps: seq<DependencyRef>)
    ensures BindAll(procs, order, Missing(procs, bound, deps)) == Reaper.NewlyResolved(procs, order, bound, deps)
  {
    if deps != [] {
      var n := |deps| - 1;
      BindAllMissing(procs, order, bound, deps[..n]);
      var earlier := Missing(procs, bound, deps[..n]);
      if !Reaper.Resolved(procs, bound, deps[n]) {
        assert (earlier + [deps[n]])[..|earlier|] == earlier;
      } else {
        assert earlier + [] == earlier;
      }
    }
  }

  function WaitingOf(procs: ProcessMap, order: seq<ProcessId>): seq<ProcessId> {
    if order == [] then []
    else
      var n := |order| - 1;
      WaitingOf(procs, order[..n]) + if order[n] in procs && procs[order[n]].state.Waiting? then [order[n]] else []
  }

  lemma WaitingOfExact(procs: ProcessMap, order: seq<ProcessId>)
    requires Distinct(order)
    ensures Distinct(WaitingOf(procs, order))
    ensures forall id :: id in WaitingOf(procs, order) <==> id in order && id in procs && procs[id].state.Waiting?
  {
    if order != [] {
      var n := |order| - 1;
      WaitingOfExact(procs, order[..n]);
      assert order == order[..n] + [order[n]];
      assert order[n] !in order[..n];
    }
  }

  lemma WaitingListed(procs: ProcessMap, order: seq<ProcessId>)
    requires Enumerates(order, procs.Keys)
    ensures var ids := WaitingOf(procs, order);
            && (forall i :: 0 <= i < |ids| ==> ids[i] !in ids[..i] && ids[i] in procs && procs[ids[i]].state.Waiting?)
            && (forall id :: id in procs && procs[id].state.Waiting? ==> id in ids)
  {
    WaitingOfExact(procs, order);
    var ids := WaitingOf(procs, order);
    hide WaitingOf;
    forall i | 0 <= i < |ids| ensures ids[i] !in ids[..i] && ids[i] in procs && procs[ids[i]].state.Waiting? {
      assert ids[i] in ids;
    }
  }

  /** The verdicts of the given kind on a list of Waiting processes. */
  function Picked(procs: ProcessMap, ids: seq<ProcessId>, d: Reaper.Decision, t: Tick): (picked: seq<ProcessId>)
    ensures ids == [] ==> picked == []
  {
    if ids == [] then []
    else
      var n := |ids| - 1;
      Picked(procs, ids[..n], d, t) +
      if ids[n] in procs && Reaper.VerdictOn(procs, ids[n], t).decision == d then [ids[n]] else []
  }

  lemma PickedStep(procs: ProcessMap, ids: seq<ProcessId>, id: ProcessId, t: Tick)
    requires id in procs
    ensures forall d :: Picked(procs, ids + [id], d, t)
                     == Picked(procs, ids, d, t) + if Reaper.VerdictOn(procs, id, t).decision == d then [id] else []
  {
    hide Reaper.VerdictOn;
    assert (ids + [id])[..|ids|] == ids;
  }

  lemma PickedWaiting(procs: ProcessMap, order: seq<ProcessId>, d: Reaper.Decision, t: Tick)
    ensures Picked(procs, WaitingOf(procs, order), d, t) == Reaper.WaitingIds(procs, order, d, t)
  {
    hide Reaper.VerdictOn;
    if order != [] {
      var n := |order| - 1;
      var earlier := WaitingOf(procs, order[..n]);
      PickedWaiting(procs, order[..n], d, t);
      if order[n] in procs && procs[order[n]].state.Waiting? {
        assert (earlier + [order[n]])[..|earlier|] == earlier;
      } else {
        assert earlier + [] == earlier;
      }
    }
  }

  function WithVerdict(procs: ProcessMap, id: ProcessId, v: Reaper.Verdict): ProcessMap
    requires id in procs
  {
    procs[id := procs[id].(resolvedDeps := v.resolvedDeps)]
  }

  lemma PartlyJudgedNone(procs: ProcessMap, t: Tick)
    ensures PartlyJudged(procs, procs, [], t)
  {
    hide Reaper.VerdictOn;
  }

  /** The next Waiting process gets the verdict it would have got first. */
  lemma PartlyJudgedStep(procs: ProcessMap, now: ProcessMap, ids: seq<ProcessId>, id: ProcessId, t: Tick)
    requires PartlyJudged(procs, now, ids, t) && id in procs && procs[id].state.Waiting? && id !in ids
    ensures id in now && Reaper.VerdictOn(now, id, t) == Reaper.VerdictOn(procs, id, t)
    ensures PartlyJudged(procs, WithVerdict(now, id, Reaper.VerdictOn(now, id, t)), ids + [id], t)
  {
    assert Reaper.VerdictOn(now, id, t) == Reaper.VerdictOn(procs, id, t) by {
      hide Reaper.Judge;
      JudgeUnaffected(procs, now, procs[id], t.order(Reaper.AtLookup(id)), t.clock(Reaper.OnTimeoutCheck(id)));
    }
    hide Reaper.VerdictOn;
  }

  lemma PartlyJudgedAll(procs: ProcessMap, now: ProcessMap, ids: seq<ProcessId>, t: Tick)
    requires PartlyJudged(procs, now, ids, t)
    requires forall id :: id in procs && procs[id].state.Waiting? ==> id in ids
    ensures now == Reaper.JudgedMap(procs, t)
  {
    hide Reaper.VerdictOn;
  }

  /** `now` differs from `procs` by the new bindings of the processes in `ids`. */
  ghost predicate PartlyJudged(procs: ProcessMap, now: ProcessMap, ids: seq<ProcessId>, t: Tick) {
    && now.Keys == procs.Keys
    && (forall i :: 0 <= i < |ids| ==> ids[i] in procs && procs[ids[i]].state.Waiting?)
    && forall id :: id in procs ==>
         now[id] == if id in ids then procs[id].(resolvedDeps := Reaper.VerdictOn(procs, id, t).resolvedDeps) else procs[id]
  }

  /** New bindings of others do not influence a verdict. */
  lemma JudgeUnaffected(a: ProcessMap, b: ProcessMap, p: Process, order: seq<ProcessId>, at: Time)
    requires a.Keys == b.Keys && forall id :: id in a ==> b[id] == a[id].(resolvedDeps := b[id].resolvedDeps)
    ensures Reaper.Judge(a, p, order, at) == Reaper.Judge(b, p, order, at)
  {
    NewlyResolvedUnaffected(a, b, order, p.resolvedDeps, p.config.dependsOn);
  }

  lemma FindUnaffected(a: ProcessMap, b: ProcessMap, order: seq<ProcessId>, tag: Label, startingToo: bool)
    requires a.Keys == b.Keys && forall id :: id in a ==> b[id] == a[id].(resolvedDeps := b[id].resolvedDeps)
    ensures Find(a, order, tag, startingToo) == Find(b, order, tag, startingToo)
  {
    if order != [] { FindUnaffected(a, b, order[1..], tag, startingToo); }
  }

  lemma NewlyResolvedUnaffected(a: ProcessMap, b: ProcessMap, order: seq<ProcessId>, bound: seq<ProcessId>, deps: seq<DependencyRef>)
    requires a.Keys == b.Keys && forall id :: id in a ==> b[id] == a[id].(resolvedDeps := b[id].resolvedDeps)
    ensures Reaper.NewlyResolved(a, order, bound, deps) == Reaper.NewlyResolved(b, order, bound, deps)
  {
    if deps != [] {
      var n := |deps| - 1;
      NewlyResolvedUnaffected(a, b, order, bound, deps[..n]);
      if deps[n].OnLabel? { FindUnaffected(a, b, order, deps[n].tag, false); }
    }
  }

  /** Once a prefix cannot be resolved, the whole list cannot. */
  lemma ResolveStops(procs: ProcessMap, order: seq<ProcessId>, deps: seq<DependencyRef>, n: nat)
    requires n <= |deps| && Resolve(procs, order, deps[..n]).None?
    ensures Resolve(procs, order, deps).None?
    decreases |deps| - n
  {
    if n < |deps| {
      assert deps[..n + 1][..n] == deps[..n];
      ResolveStops(procs, order, deps, n + 1);
    } else {
      assert deps[..n] == deps;
    }
  }

  lemma PollDepsStops(procs: ProcessMap, ids: seq<ProcessId>, polls: nat -> Poll, n: nat)
    requires n <= |ids| && !PollDeps(procs, ids[..n], polls).ok
    ensures PollDeps(procs, ids, polls) == PollDeps(procs, ids[..n], polls)
    decreases |ids| - n
  {
    if n < |ids| {
      assert ids[..n + 1][..n] == ids[..n];
      PollDepsStops(procs, ids, polls, n + 1);
    } else {
      assert ids[..n] == ids;
    }
  }

  lemma PolledKeys(procs: ProcessMap, t: Tick)
    ensures Reaper.PolledMap(procs, t).Keys == procs.Keys
  {
  }

  lemma ReapIs(s: State, t: Tick)
    ensures Reaper.Reap(s, t) == s.(procs := Reaper.Reap(s, t).procs,
                                    log := s.log + Reaper.EventsOf(Reaper.ExitsSeen(s.procs, t.order(Reaper.AtPoll), t)))
  {
  }

  lemma FoundDistinct(s: State, t: Tick)
    requires Keyed(s.procs) && Enumerates(t.order(Reaper.AtPoll), s.procs.Keys)
    ensures var exits := FindingsOf(s.procs, t.order(Reaper.AtPoll), t).exited;
            && exits == Reaper.ExitsSeen(s.procs, t.order(Reaper.AtPoll), t)
            && (forall i, j :: 0 <= i < j < |exits| ==> exits[i].event.id != exits[j].event.id)
  {
    FindingsExact(s.procs, t.order(Reaper.AtPoll), t);
    ExitsDistinct(s, t.order(Reaper.AtPoll), t);
  }

  /** The loops of phases 1 to 3 put together. */
  lemma Assemble(s: State, t: Tick, found: Findings, targets: seq<ProcessId>, flagged: ProcessMap, final: ProcessMap)
    requires Keyed(s.procs) && Enumerates(t.order(Reaper.AtPoll), s.procs.Keys)
    requires found == FindingsOf(s.procs, t.order(Reaper.AtPoll), t)
    requires forall id :: id in targets <==> exists o :: o in found.origins && Reaper.IsTarget(Reaper.PolledMap(s.procs, t), id, o)
    requires flagged.Keys == s.procs.Keys && forall id :: id in flagged ==>
               flagged[id] == if id in targets then Reaper.Flagged(Reaper.PolledMap(s.procs, t)[id]) else Reaper.PolledMap(s.procs, t)[id]
    requires final.Keys == (set id | id in flagged && id !in found.toRemove)
    requires forall id :: id in final ==>
               final[id] == if RestartsIn(found.exited, id) then Reaper.Scheduled(flagged[id], t.now) else flagged[id]
    ensures final == Reaper.Reap(s, t).procs
  {
    hide Reaper.PollEntry, Reaper.Flagged, Reaper.Scheduled, Reaper.IsTargeted, Reaper.IsTarget, Reaper.PolledMap, Reaper.Leaves;
    hide RestartsIn, FindingsOf, Reaper.Reaped, Reaper.Seen;
    forall id | id in s.procs
      ensures id in found.toRemove <==> Reaper.Leaves(Reaper.Seen(s, id, t))
      ensures id in final ==> final[id] == Reaper.Reaped(s, id, t)
    {
      AssembledEntry(s, t, found, id in targets, flagged[id], id);
    }
  }

  lemma AssembledEntry(s: State, t: Tick, found: Findings, targeted: bool, flagged: Process, id: ProcessId)
    requires Keyed(s.procs) && Enumerates(t.order(Reaper.AtPoll), s.procs.Keys) && id in s.procs
    requires found == FindingsOf(s.procs, t.order(Reaper.AtPoll), t)
    requires targeted <==> exists o :: o in found.origins && Reaper.IsTarget(Reaper.PolledMap(s.procs, t), id, o)
    requires flagged == if targeted then Reaper.Flagged(Reaper.PolledMap(s.procs, t)[id]) else Reaper.PolledMap(s.procs, t)[id]
    ensures id in found.toRemove <==> Reaper.Leaves(Reaper.Seen(s, id, t))
    ensures (if RestartsIn(found.exited, id) then Reaper.Scheduled(flagged, t.now) else flagged) == Reaper.Reaped(s, id, t)
         || id in found.toRemove
  {
    hide Reaper.PollEntry, Reaper.Flagged, Reaper.Scheduled, Reaper.IsTargeted, Reaper.IsTarget, RestartsIn, FindingsOf;
    FindingsExact(s.procs, t.order(Reaper.AtPoll), t);
    TargetedByOrigins(s.procs, id, found.origins, t);
    RestartsInExits(s, t.order(Reaper.AtPoll), id, t);
  }

  /** The body of the phase 3 loop for one entry. */
  method ScheduleEntry(p: Process, now: Time) returns (q: Process)
    ensures q == Reaper.Scheduled(p, now)
  {
    q := p.(child := None);
    if q.restart.Some? {
      var r := q.restart.value.RecordRestart();
      match Reaper.BackoffOf(q.config) {
        case Some(backoff) => r := r.ScheduleRestart(now + r.CurrentDelay(backoff));
        case None => r := r.ScheduleRestart(now);
      }
      q := q.(restart := Some(r));
    }
    q := q.(state := Restarting);
  }

  lemma NoneRestarts()
    ensures forall id :: !RestartsIn([], id)
  {
  }

  lemma RestartsInStep(exited: seq<ExitedProcess>, i: nat)
    requires i < |exited| && forall j, k :: 0 <= j < k < |exited| ==> exited[j].event.id != exited[k].event.id
    ensures !RestartsIn(exited[..i], exited[i].event.id)
    ensures forall id :: RestartsIn(exited[..i + 1], id) <==>
              RestartsIn(exited[..i], id) || (id == exited[i].event.id && exited[i].restarts)
  {
    assert exited[..i + 1] == exited[..i] + [exited[i]];
    forall id | RestartsIn(exited[..i], id) ensures RestartsIn(exited[..i + 1], id) {
      var k :| 0 <= k < i && exited[..i][k].event.id == id && exited[..i][k].restarts;
      assert exited[..i + 1][k] == exited[..i][k];
    }
    if exited[i].restarts { assert RestartsIn(exited[..i + 1], exited[i].event.id) by { assert exited[..i + 1][i] == exited[i]; } }
  }

  ghost predicate RestartsIn(exited: seq<ExitedProcess>, id: ProcessId) {
    exists i :: 0 <= i < |exited| && exited[i].event.id == id && exited[i].restarts
  }

  lemma TargetedByOrigins(procs: ProcessMap, id: ProcessId, origins: seq<Origin>, t: Tick)
    requires forall o :: o in origins <==> exists x :: x in procs && Outcome(procs, x, t).origin == Some(o)
    ensures (exists o :: o in origins && Reaper.IsTarget(Reaper.PolledMap(procs, t), id, o)) <==> Reaper.IsTargeted(procs, id, t)
  {
    hide Reaper.PollEntry, Reaper.IsTarget, Reaper.PolledMap;
    if o :| o in origins && Reaper.IsTarget(Reaper.PolledMap(procs, t), id, o) {
      var x :| x in procs && Outcome(procs, x, t).origin == Some(o);
      assert Reaper.IsTargeted(procs, id, t);
    }
    if x :| x in procs && Outcome(procs, x, t).origin.Some?
            && Reaper.IsTarget(Reaper.PolledMap(procs, t), id, Outcome(procs, x, t).origin.value) {
      assert Outcome(procs, x, t).origin.value in origins;
    }
  }

  /** The exits of a walk belong to different processes, and say what the poll said. */
  lemma ExitsDistinct(s: State, order: seq<ProcessId>, t: Tick)
    requires Keyed(s.procs) && Distinct(order)
    ensures var exits := Reaper.ExitsSeen(s.procs, order, t);
            && (forall i :: 0 <= i < |exits| ==>
                  && exits[i].event.id in order && ExitSeen(s, exits[i].event.id, t)
                  && exits[i] == Reaper.Seen(s, exits[i].event.id, t).exited.value)
            && (forall i, j :: 0 <= i < j < |exits| ==> exits[i].event.id != exits[j].event.id)
  {
    hide Reaper.PollEntry;
    if order != [] {
      var n := |order| - 1;
      ExitsDistinct(s, order[..n], t);
      if Reaper.ExitOf(s.procs, order[n], t) != [] { ExitedIsIt(s, order[n], t); }
    }
  }

  lemma ExitListed(s: State, order: seq<ProcessId>, id: ProcessId, t: Tick)
    requires Keyed(s.procs) && id in order && ExitSeen(s, id, t)
    ensures exists i :: 0 <= i < |Reaper.ExitsSeen(s.procs, order, t)|
                        && Reaper.ExitsSeen(s.procs, order, t)[i] == Reaper.Seen(s, id, t).exited.value
  {
    hide Reaper.PollEntry;
    var n := |order| - 1;
    var exits := Reaper.ExitsSeen(s.procs, order, t);
    if order[n] == id {
      assert exits[|exits| - 1] == Reaper.Seen(s, id, t).exited.value;
    } else {
      ExitListed(s, order[..n], id, t);
      var earlier := Reaper.ExitsSeen(s.procs, order[..n], t);
      var i :| 0 <= i < |earlier| && earlier[i] == Reaper.Seen(s, id, t).exited.value;
      assert exits[i] == earlier[i];
    }
  }

  lemma RestartsInExits(s: State, order: seq<ProcessId>, id: ProcessId, t: Tick)
    requires Keyed(s.procs) && Enumerates(order, s.procs.Keys) && id in s.procs
    ensures RestartsIn(Reaper.ExitsSeen(s.procs, order, t), id)
       <==> ExitSeen(s, id, t) && !Reaper.Leaves(Reaper.Seen(s, id, t))
  {
    hide Reaper.PollEntry, Reaper.ExitsSeen;
    ExitsDistinct(s, order, t);
    if ExitSeen(s, id, t) {
      ExitListed(s, order, id, t);
      ExitedIsIt(s, id, t);
    }
  }

  function Outcome(procs: ProcessMap, id: ProcessId, t: Tick): Reaper.Outcome
    requires id in procs
  {
    Reaper.PollEntry(procs[id], t.exit(id), t.now)
  }

  /** The three lists phase 1 fills. */
  datatype Findings = Findings(exited: seq<ExitedProcess>, origins: seq<Origin>, toRemove: seq<ProcessId>)
  {
    function Noting(id: ProcessId, gone: Option<ExitedProcess>, origin: Option<Origin>): Findings {
      Findings(
        exited + (if gone.Some? then [gone.value] else []),
        origins + (if origin.Some? then [origin.value] else []),
        toRemove + (if gone.Some? && !gone.value.restarts then [id] else []))
    }
  }

  function FindingsOf(procs: ProcessMap, order: seq<ProcessId>, t: Tick): Findings {
    if order == [] then Findings([], [], [])
    else
      var n := |order| - 1;
      var earlier := FindingsOf(procs, order[..n], t);
      if order[n] in procs
      then earlier.Noting(order[n], Outcome(procs, order[n], t).exited, Outcome(procs, order[n], t).origin)
      else earlier
  }

  lemma NoFindings(procs: ProcessMap, t: Tick)
    ensures FindingsOf(procs, [], t) == Findings([], [], [])
  {
  }

  lemma FindingsStep(procs: ProcessMap, order: seq<ProcessId>, i: nat, t: Tick)
    requires i < |order|
    ensures order[..i + 1] == order[..i] + [order[i]]
    ensures order[i] !in procs ==> FindingsOf(procs, order[..i + 1], t) == FindingsOf(procs, order[..i], t)
    ensures order[i] in procs ==>
              var o := Outcome(procs, order[i], t);
              && o == Reaper.PollEntry(procs[order[i]], t.exit(order[i]), t.now)
              && FindingsOf(procs, order[..i + 1], t) == FindingsOf(procs, order[..i], t).Noting(order[i], o.exited, o.origin)
  {
    hide Reaper.PollEntry;
    assert order[..i + 1][..i] == order[..i];
  }

  lemma PolledIs(procs: ProcessMap, t: Tick)
    ensures Reaper.PolledMap(procs, t).Keys == procs.Keys
    ensures forall id :: id in procs ==> Reaper.PolledMap(procs, t)[id] == Outcome(procs, id, t).process
  {
    hide Reaper.PollEntry;
  }

  lemma NotingExact(f: Findings, id: ProcessId, o: Reaper.Outcome)
    ensures forall x :: x in f.Noting(id, o.exited, o.origin).origins <==> x in f.origins || o.origin == Some(x)
    ensures forall x :: x in f.Noting(id, o.exited, o.origin).toRemove <==> x in f.toRemove || (x == id && Reaper.Leaves(o))
  {
  }

  /** The lists hold every exit in the order of the walk, every origin, and exactly the ids that leave. */
  lemma FindingsExact(procs: ProcessMap, order: seq<ProcessId>, t: Tick)
    ensures FindingsOf(procs, order, t).exited == Reaper.ExitsSeen(procs, order, t)
    ensures forall o :: o in FindingsOf(procs, order, t).origins <==>
              exists id :: id in order && id in procs && Outcome(procs, id, t).origin == Some(o)
    ensures forall id :: id in FindingsOf(procs, order, t).toRemove <==>
              id in order && id in procs && Reaper.Leaves(Outcome(procs, id, t))
  {
    hide Reaper.PollEntry, Reaper.Leaves;
    if order != [] {
      var n := |order| - 1;
      FindingsExact(procs, order[..n], t);
      assert order == order[..n] + [order[n]];
      if order[n] in procs {
        NotingExact(FindingsOf(procs, order[..n], t), order[n], Outcome(procs, order[n], t));
      }
    }
  }

  /** The body of the phase 1 loop for one entry. */
  method PollChild(p: Process, poll: Poll, now: Time)
      returns (q: Process, exited: Option<ExitedProcess>, origin: Option<Origin>)
    ensures Reaper.Outcome(q, exited, origin) == Reaper.PollEntry(p, poll, now)
  {
    q, exited, origin := p, None, None;
    if p.state.Restarting? {
      return;
    }
    var backoff := Reaper.BackoffOf(p.config);
    if p.state.Running? && p.restart.Some? && backoff.Some? {
      q := q.(restart := Some(q.restart.value.CheckStableUptime(backoff.value, now)));
    }
    var status := q.TryWaitExit(poll);
    if status.Some? {
      if q.cascadeFlag {
        exited := Some(Reaper.ExitedProcess(EventFor(q, status, Stopped), q.config.restartOnExit));
        q := q.(cascadeFlag := false);
        return;
      }
      var base := if status.value then Stopped else Crashed;
      var triggered := q.config.restartOnExit && Reaper.ShouldRestart(q.config.restartTrigger, base);
      var final := base;
      if triggered && q.restart.Some? && backoff.Some? && q.restart.value.IsRateLimited(backoff.value) {
        final := Failed;
      }
      var restarts := triggered && !final.Failed?;
      if restarts && !q.config.strategy.OneForOne? {
        origin := Some(Reaper.Origin(q.id, q.tag, q.spawnSequence, q.config.strategy));
      }
      exited := Some(Reaper.ExitedProcess(EventFor(q, status, final), restarts));
    } else if q.state.Starting? {
      q := q.(state := Running);
    }
  }
}
