/** The manager's calls as methods. */
module Supervisor {
  import opened Basics
  import opened Backoff
  import opened Processes
  import opened Resolution
  import opened ReaperLoop
  import ReapPhase
  import opened GracePeriods
  import opened FailFastPhase
  import opened CascadeStop
  import LabelGraph
  import Manager
  import Reaper
  import Invariants
  import Calls
  import Runs

  type Result = Manager.Result
  type StopEnv = Manager.StopEnv

  // -------------------------------------------------------- the blocking start

  /** What the other threads do while somebody waits: all their steps in one sequence,
      and how many of them fall into each pause. What a step learns from outside may
      depend on what is tracked. */
  datatype Schedule = Schedule(others: (nat, set<ProcessId>) -> Runs.Step, pauses: nat -> nat)

  /** Whatever is tracked, the walks of the steps enumerate it. */
  ghost predicate AlwaysLegal(w: Schedule) {
    forall n: nat, s: State :: Runs.Legal(s, w.others(n, s.procs.Keys))
  }

  /** The state after n of these steps. */
  ghost function Waited(s: State, w: Schedule, n: nat): State {
    if n == 0 then s
    else
      var before := Waited(s, w, n - 1);
      Runs.Apply(before, w.others(n - 1, before.procs.Keys))
  }

  /** How many steps the first k pauses hold. */
  function StepsBy(w: Schedule, k: nat): nat {
    if k == 0 then 0 else StepsBy(w, k - 1) + w.pauses(k - 1)
  }

  /** The state that the k-th look finds, one pause later than the one before. */
  ghost function AtLook(s: State, w: Schedule, k: nat): State {
    Waited(s, w, StepsBy(w, k + 1))
  }

  ghost predicate IsWaiting(s: State, id: ProcessId) {
    id in s.procs && s.procs[id].state.Waiting?
  }

  /** Each of the first looks came before the deadline and found the process Waiting. */
  ghost predicate WaitedFor(s: State, w: Schedule, reading: nat -> Time, deadline: Time, id: ProcessId, rounds: nat) {
    forall k :: 0 <= k < rounds ==> IsWaiting(AtLook(s, w, k), id) && reading(k) < deadline
  }

  lemma WaitedForStep(s: State, w: Schedule, reading: nat -> Time, deadline: Time, id: ProcessId, rounds: nat)
    ensures WaitedFor(s, w, reading, deadline, id, 0)
    ensures WaitedFor(s, w, reading, deadline, id, rounds) && IsWaiting(AtLook(s, w, rounds), id) && reading(rounds) < deadline ==>
              WaitedFor(s, w, reading, deadline, id, rounds + 1)
  {
    hide AtLook, IsWaiting;
  }

  /** The first look, before the wait, finds the process with a child or failed. */
  ghost predicate SettledAtOnce(s: State, id: ProcessId) {
    id in s.procs && !s.procs[id].state.Waiting?
  }

  function AnswerFor(state: ProcessState): Result {
    if state.Failed? then Manager.Err(Manager.DependencyTimedOut) else Manager.Ok
  }

  /** The wait ends with answer `r` at a look that finds the process gone, failed, or under way. */
  ghost predicate EndsWith(s: State, id: ProcessId, r: Result) {
    if id !in s.procs then r == Manager.Err(Manager.NotFound)
    else if s.procs[id].state.Failed? then r == Manager.Err(Manager.DependencyTimedOut)
    else !s.procs[id].state.Waiting? && r == Manager.Ok
  }

  lemma Keyed(s: State)
    requires Invariants.Invariant(s)
    ensures ReapPhase.Keyed(s.procs)
  {
  }

  lemma KeysOf(shared: SharedState)
    ensures shared.View().procs.Keys == shared.processes.Keys
  {
  }

  lemma LooksAtOnce(shared: SharedState, id: ProcessId)
    ensures SettledAtOnce(shared.View(), id) <==> id in shared.processes && !shared.processes[id].state.Waiting?
  {
  }

  lemma WaitedStep(s: State, w: Schedule, n: nat)
    requires AlwaysLegal(w)
    ensures var before := Waited(s, w, n);
            var step := w.others(n, before.procs.Keys);
            Waited(s, w, n + 1) == Runs.Apply(before, step) && Runs.Legal(before, step)
  {
    hide Runs.Apply, Runs.Legal;
  }

  lemma LookIs(s: State, w: Schedule, k: nat)
    ensures Waited(s, w, 0) == s && StepsBy(w, 0) == 0 && StepsBy(w, k + 1) == StepsBy(w, k) + w.pauses(k)
    ensures AtLook(s, w, k) == Waited(s, w, StepsBy(w, k) + w.pauses(k))
  {
    hide Runs.Apply;
  }

  lemma LooksAgain(shared: SharedState, id: ProcessId, r: Result)
    ensures EndsWith(shared.View(), id, r) <==>
              if id !in shared.processes then r == Manager.Err(Manager.NotFound)
              else !shared.processes[id].state.Waiting? && r == AnswerFor(shared.processes[id].state)
    ensures IsWaiting(shared.View(), id) <==> id in shared.processes && shared.processes[id].state.Waiting?
  {
  }

  /** What the waiting loops inside the calls of the other threads read and see. */
  datatype Outside = Outside(
    clock: Clock, polls: nat -> Poll,
    began: ProcessId -> Time, reading: nat -> Time, batch: (ProcessId, nat) -> Poll)

  ghost predicate GoesOn(o: Outside) {
    Ticking(o.clock) && Advancing(o.reading)
  }

  class ProcessManager {
    const shared: SharedState

    constructor ()
      ensures fresh(shared) && shared.View() == INITIAL
    {
      shared := new SharedState();
    }

    // ---------------------------------------------------------------- start

    /** Labels to dependency lists, with the newcomer's own entry put last. */
    method BuildDependencySnapshot(order: seq<ProcessId>, tag: Label, deps: seq<DependencyRef>)
        returns (graph: LabelGraph.DepGraph)
      ensures graph == Manager.Snapshot(shared.processes, order, tag, deps)
    {
      graph := map[];
      for i := 0 to |order|
        invariant graph == Manager.GraphOf(shared.processes, order[..i])
      {
        assert order[..i + 1][..i] == order[..i];
        if order[i] in shared.processes {
          var p := shared.processes[order[i]];
          graph := graph[p.tag := p.config.dependsOn];
        }
      }
      assert order[..|order|] == order;
      graph := graph[tag := deps];
    }

    /** Starts a process, or leaves it Waiting; a rejection for a cycle carries the walk that closes. */
    method Start(tag: Label, config: ProcessConfig, e: Manager.StartEnv)
        returns (r: Result, id: ProcessId, cycle: seq<DependencyRef>)
      modifies shared
      ensures Manager.Reply(shared.View(), r) == Manager.Start(old(shared.View()), tag, config, e)
      ensures r.Ok? ==> id == old(shared.nextId)
      ensures r == Manager.Err(Manager.DependencyCycle) ==>
                && LabelGraph.OnlyLabels(cycle)
                && LabelGraph.IsLasso(Manager.Snapshot(old(shared.processes), e.order, tag, config.dependsOn),
                                      LabelGraph.Labels(tag, cycle))
    {
      hide Manager.Snapshot, LabelGraph.IsLasso, LabelGraph.CycleReachable, LabelGraph.OnlyLabels, LabelGraph.Labels;
      r, id, cycle := Manager.Ok, 0, [];
      if config.command == "" {
        r := Manager.Err(Manager.EmptyCommand);
        return;
      }
      id := shared.nextId;
      shared.nextId := id + 1;
      var deps := config.dependsOn;
      if deps != [] {
        var graph := BuildDependencySnapshot(e.order, tag, deps);
        Manager.SnapshotHasNewcomer(shared.processes, e.order, tag, deps);
        var ok;
        ok, cycle := LabelGraph.DetectCycle(graph, tag, deps);
        if !ok {
          r := Manager.Err(Manager.DependencyCycle);
          return;
        }
      }
      r := Admit(id, tag, config, e);
    }

    /** The part of `start` after the cycle check. */
    method Admit(id: ProcessId, tag: Label, config: ProcessConfig, e: Manager.StartEnv) returns (r: Result)
      modifies shared
      ensures Manager.Reply(shared.View(), r) == Manager.StartAccepted(old(shared.View()), id, tag, config, e)
      ensures r.Err? ==> r.error.SpawnFailed?
    {
      hide PollDeps, Resolve, RunningLabels, Manager.Fresh;
      var resolved := shared.ResolveDependencies(e.order, config.dependsOn);
      var bound := if resolved.Some? then resolved.value else [];
      var ready := false;
      if |bound| == |config.dependsOn| {
        ready := shared.AllDepsRunning(bound, e.polls);
      }
      var p := Manager.Fresh(id, tag, config, shared.nextSpawnSequence).(resolvedDeps := bound);
      if !ready {
        shared.nextSpawnSequence := shared.nextSpawnSequence + 1;
        shared.processes := shared.processes[id := p.(waitingSince := Some(e.clock))];
        return Manager.Ok;
      }
      if e.spawn.None? {
        return Manager.Err(Manager.SpawnFailed);
      }
      shared.nextSpawnSequence := shared.nextSpawnSequence + 1;
      shared.Attach(Manager.WithChild(p, e.spawn.value, e.clock), OnStart);
      return Manager.Ok;
    }

    // ----------------------------------------------------------------- stop

    method Dependents(id: ProcessId, order: seq<ProcessId>) returns (ids: seq<ProcessId>)
      ensures ids == Manager.DependentsOf(shared.processes, order, id)
    {
      ids := [];
      for i := 0 to |order|
        invariant ids == Manager.DependentsOf(shared.processes, order[..i], id)
      {
        assert order[..i + 1][..i] == order[..i];
        if order[i] in shared.processes && id in shared.processes[order[i]].resolvedDeps {
          ids := ids + [order[i]];
        }
      }
      assert order[..|order|] == order;
    }

    /** Stops a process, waiting out its grace period, and goes on to its dependents;
        also the processes that got a kill signal on the way. */
    method Stop(id: ProcessId, e: StopEnv, c: Clock, polls: nat -> Poll) returns (r: Result, signalled: set<ProcessId>)
      requires Ticking(c)
      modifies shared
      ensures Manager.Reply(shared.View(), r) == Manager.Stop(old(shared.View()), id, e)
      ensures signalled == TakenDown(old(shared.processes), shared.processes)
      decreases shared.processes.Keys, 0
    {
      ghost var procs := shared.processes;
      hide TakenDown, Ticking;
      TakenDownOne(procs, id);
      signalled := {};
      if id !in shared.processes {
        return Manager.Err(Manager.NotFound), signalled;
      }
      var p := shared.processes[id];
      if p.state.Restarting? {
        shared.Forget(id);
        return Manager.Ok, signalled;
      }
      if p.state.Waiting? {
        shared.Retire(id, Stopped);
        if p.config.cascadeStop {
          signalled := StopDependents(id, e, c, polls);
          TakenDownOn(procs, procs - {id}, shared.processes);
        }
        return Manager.Ok, signalled;
      }
      shared.Forget(id);
      signalled := if p.pid == 0 then {} else {id};
      var answer, _ := Kill(p.(state := Stopping), e, c, polls);
      match answer {
        case NoSuchProcess => return Manager.Ok, signalled;
        case Refused => return Manager.Err(Manager.SignalFailed), signalled;
        case Delivered =>
      }
      if p.config.cascadeStop {
        var others := StopDependents(id, e, c, polls);
        TakenDownOn(procs, procs - {id}, shared.processes);
        signalled := signalled + others;
      }
      return Manager.Ok, signalled;
    }

    /** The kill signal, the grace period, and SIGKILL. Once the first signal is delivered,
        the whole grace period passes before the second, and no reading more. */
    method Kill(p: Process, e: StopEnv, c: Clock, polls: nat -> Poll) returns (answer: SignalResult, rounds: nat)
      requires Ticking(c) && p.state.Stopping?
      ensures answer == if p.pid == 0 then NoSuchProcess
                        else if e.signal(p.id).Delivered? then e.kill(p.id) else e.signal(p.id)
      ensures p.pid != 0 && e.signal(p.id).Delivered? ==>
                && c.reading(p.id)(rounds) >= c.began(p.id) + p.config.terminateTimeout
                && forall k :: 0 <= k < rounds ==> c.reading(p.id)(k) < c.began(p.id) + p.config.terminateTimeout
    {
      rounds := 0;
      answer := if p.pid == 0 then NoSuchProcess else e.signal(p.id);
      if answer.Delivered? {
        assert Advancing(c.reading(p.id));
        var deadline := c.began(p.id) + p.config.terminateTimeout;
        var exited, q;
        exited, q, rounds := AwaitExit(p, deadline, c.reading(p.id), polls);
        if exited {
          return NoSuchProcess, rounds;
        }
        answer := if q.pid == 0 then NoSuchProcess else e.kill(q.id);
      }
    }

    /** The cascade: a dependent that cannot be stopped does not end it. */
    method StopDependents(id: ProcessId, e: StopEnv, c: Clock, polls: nat -> Poll) returns (signalled: set<ProcessId>)
      requires Ticking(c)
      modifies shared
      ensures shared.View() == Manager.StopEach(old(shared.View()), Manager.DependentsOf(old(shared.processes), e.order(id), id), e)
      ensures signalled == TakenDown(old(shared.processes), shared.processes) && Shrinks(old(shared.processes), shared.processes)
      decreases shared.processes.Keys, 1
    {
      hide Ticking, TakenDown, Shrinks;
      var ids := Dependents(id, e.order(id));
      ghost var procs := shared.processes;
      TakenDownOne(procs, id);
      ShrinksOn(procs, procs, procs);
      signalled := {};
      for i := 0 to |ids|
        invariant shared.View() == Manager.StopEach(old(shared.View()), ids[..i], e)
        invariant signalled == TakenDown(procs, shared.processes) && Shrinks(procs, shared.processes)
      {
        assert ids[..i + 1][..i] == ids[..i];
        ghost var before := shared.View();
        var _, more := Stop(ids[i], e, c, polls);
        StopShrinks(before, ids[i], e);
        TakenDownOn(procs, before.procs, shared.processes);
        ShrinksOn(procs, before.procs, shared.processes);
        signalled := signalled + more;
      }
      assert ids[..|ids|] == ids;
    }

    // -------------------------------------------------------------- restart

    /** Brings a process back under its id: out of a backoff wait at once, else after a stop. */
    method Restart(id: ProcessId, e: Manager.RestartEnv, c: Clock, polls: nat -> Poll) returns (r: Result, signalled: set<ProcessId>)
      requires Ticking(c)
      modifies shared
      ensures Manager.Reply(shared.View(), r) == Manager.Restart(old(shared.View()), id, e)
      ensures signalled == if id in old(shared.processes) && old(shared.processes)[id].state.Restarting? then {}
                           else TakenDown(old(shared.processes), Manager.Stop(old(shared.View()), id, e.stop).state.procs)
    {
      TakenDownOne(shared.processes, id);
      hide TakenDown, Ticking;
      signalled := {};
      if id !in shared.processes {
        return Manager.Err(Manager.NotFound), signalled;
      }
      var p := shared.processes[id];
      if p.state.Restarting? {
        p := p.(child := None, restart := if p.restart.Some? then Some(FRESH) else None);
        shared.processes := shared.processes[id := p];
      } else {
        r, signalled := Stop(id, e.stop, c, polls);
        if r.Err? {
          return;
        }
        p := Manager.Fresh(id, p.tag, p.config, shared.nextSpawnSequence);
      }
      if e.spawn.None? {
        return Manager.Err(Manager.SpawnFailed), signalled;
      }
      shared.nextSpawnSequence := shared.nextSpawnSequence + 1;
      shared.Attach(Manager.WithChild(p, e.spawn.value, e.clock), OnManualRestart);
      return Manager.Ok, signalled;
    }

    // ------------------------------------------------------------ stop_many

    /** Takes the batch out of the map; who has no pid is let go at once. */
    method TakeOut(ids: seq<ProcessId>, began: ProcessId -> Time) returns (entries: seq<Entry>)
      requires ReapPhase.Keyed(shared.processes)
      modifies shared`processes
      ensures shared.processes == Without(old(shared.processes), ids)
      ensures EntryIds(entries) == multiset(Signalled(old(shared.processes), ids))
      ensures AllTaken(old(shared.processes), ids, began, entries)
    {
      entries := [];
      ghost var procs := shared.processes;
      assert Signalled(procs, ids[..0]) == {} && Without(procs, ids[..0]) == procs;
      hide EntryIds, Signalled, IsTaken, Without;
      for i := 0 to |ids|
        invariant shared.processes == Without(procs, ids[..i])
        invariant EntryIds(entries) == multiset(Signalled(procs, ids[..i]))
        invariant AllTaken(procs, ids[..i], began, entries)
      {
        var id := ids[i];
        assert ids[..i + 1] == ids[..i] + [id];
        SignalledStep(procs, ids[..i], id);
        WithoutStep(procs, ids[..i], id);
        TakenStep(procs, ids[..i], began, entries, id);
        if id in shared.processes {
          var p := shared.processes[id];
          shared.processes := shared.processes - {id};
          if p.pid != 0 {
            EntryIdsPush(entries, Entry(p, began(id) + p.config.terminateTimeout));
            entries := entries + [Entry(p, began(id) + p.config.terminateTimeout)];
          }
        }
      }
      assert ids[..|ids|] == ids;
    }

    /** Puts the processes that could not be killed back into the map. */
    method Reinsert(ps: seq<Process>)
      modifies shared`processes
      ensures PutBack(old(shared.processes), ps, shared.processes)
    {
      hide PutBack;
      NonePutBack(shared.processes);
      for i := 0 to |ps|
        invariant PutBack(old(shared.processes), ps[..i], shared.processes)
      {
        PutBackStep(old(shared.processes), ps[..i], shared.processes, ps[i]);
        assert ps[..i + 1] == ps[..i] + [ps[i]];
        shared.processes := shared.processes[ps[i].id := ps[i].(state := Failed)];
      }
      assert ps[..|ps|] == ps;
    }

    /** Stops a batch concurrently. There is one error for each process that goes
        back into the map; the polling loop takes no more rounds than it takes the
        clock to show the latest of the deadlines. */
    method StopMany(ids: seq<ProcessId>, kill: ProcessId -> SignalResult, began: ProcessId -> Time,
                    reading: nat -> Time, polls: (ProcessId, nat) -> Poll)
        returns (r: Result, errors: seq<nat>, signalled: seq<nat>, rounds: nat)
      requires ReapPhase.Keyed(shared.processes) && Advancing(reading)
      modifies shared
      ensures shared.View() == Manager.StopMany(old(shared.View()), ids, kill)
      ensures |errors| == |Kept(old(shared.processes), ids, kill)|
      ensures forall id :: id in shared.processes <==>
                id in old(shared.processes) && (id in ids ==> old(shared.processes)[id].pid != 0 && kill(id).Refused?)
      ensures r.Ok? <==> forall id :: id in ids && id in old(shared.processes) ==> old(shared.processes)[id].pid == 0 || !kill(id).Refused?
      ensures SignalsExactly(old(shared.processes), ids, signalled)
      ensures r == if errors == [] then Manager.Ok else Manager.Err(Manager.SignalFailed)
      ensures InTime(old(shared.processes), ids, began, reading, rounds)
      ensures AllWaitedOut(old(shared.processes), ids, began, reading, rounds)
    {
      ghost var s := shared.View();
      hide Advancing, EntryIds, AllTaken, AllWaitedOut, AreKept, InTime, Kept, PutBack, SignalsExactly, Signalled, Without;
      hide Manager.StopMany, Manager.DroppedBy, ReapPhase.Keyed;
      var entries := TakeOut(ids, began);
      var toReinsert;
      errors, toReinsert, signalled, rounds := TerminateBatch(s.procs, ids, began, entries, kill, reading, polls);
      Reinsert(toReinsert);
      Restored(s, ids, kill, shared.processes, toReinsert);
      shared.dropped := shared.dropped + Manager.DroppedBy(s.procs, ids, kill);
      BatchAnswer(s, ids, kill);
      r := if errors == [] then Manager.Ok else Manager.Err(Manager.SignalFailed);
    }

    // ---------------------------------------------------- smaller interactions

    /** At the deadline the entry is marked Failed and stays in the map. */
    method MarkLate(id: ProcessId)
      requires Invariants.Invariant(shared.View())
      modifies shared
      ensures shared.View() == Manager.DependencyTimeout(old(shared.View()), id) && Invariants.Invariant(shared.View())
    {
      Calls.TimeoutKeeps(shared.View(), id);
      hide Invariants.Invariant;
      if id in shared.processes {
        shared.processes := shared.processes[id := shared.processes[id].(state := Failed)];
      }
    }

    method ReadState(id: ProcessId, poll: Poll) returns (state: Option<ProcessState>)
      modifies shared
      ensures shared.View() == Manager.Observe(old(shared.View()), id, poll)
      ensures state == if id in shared.processes then Some(shared.processes[id].state) else None
    {
      if id !in shared.processes {
        return None;
      }
      shared.processes := shared.processes[id := shared.processes[id].Polled(poll)];
      return Some(shared.processes[id].state);
    }

    // ----------------------------------------------- any step, and the wait

    /** Every step of a run, carried out by the methods. */
    method Perform(step: Runs.Step, o: Outside)
      requires Invariants.Invariant(shared.View()) && Runs.Legal(shared.View(), step) && GoesOn(o)
      modifies shared
      ensures shared.View() == Runs.Apply(old(shared.View()), step) && Invariants.Invariant(shared.View())
    {
      ghost var s := shared.View();
      Keyed(s);
      Runs.StepKeeps(s, step);
      hide Invariants.Invariant, ReapPhase.Keyed, Manager.Start, Manager.Stop, Manager.StopMany, Manager.Restart, Reaper.Cycle;
      hide Manager.DependencyTimeout, Manager.Observe, Ticking, Advancing, Reaper.Faithful;
      match step {
        case DoStart(tag, config, e) => var _, _, _ := Start(tag, config, e);
        case DoStop(id, e) => var _, _ := Stop(id, e, o.clock, o.polls);
        case DoStopMany(ids, kill) => var _, _, _, _ := StopMany(ids, kill, o.began, o.reading, o.batch);
        case DoRestart(id, e) => var _, _ := Restart(id, e, o.clock, o.polls);
        case DoDependencyTimeout(id) => MarkLate(id);
        case DoObserve(id, poll) => var _ := ReadState(id, poll);
        case DoCycle(t) => shared.RunCycle(t);
      }
    }

    /** The steps of the k-th pause. */
    method Pause(ghost s: State, w: Schedule, k: nat, o: Outside)
      requires Invariants.Invariant(shared.View()) && AlwaysLegal(w) && GoesOn(o)
      requires shared.View() == Waited(s, w, StepsBy(w, k))
      modifies shared
      ensures shared.View() == AtLook(s, w, k) && Invariants.Invariant(shared.View())
    {
      hide *;
      LookIs(s, w, k);
      var n := StepsBy(w, k);
      for i := 0 to w.pauses(k)
        invariant shared.View() == Waited(s, w, n + i) && Invariants.Invariant(shared.View())
      {
        WaitedStep(s, w, n + i);
        ghost var before := shared.View();
        KeysOf(shared);
        Perform(w.others(n + i, shared.processes.Keys), o);
      }
    }

    /** The wait of `start_with_deps`. While it sleeps the other threads go on; every
        round but the last has found the process Waiting before the deadline. */
    method AwaitDependencies(ghost s: State, id: ProcessId, w: Schedule, deadline: Time, reading: nat -> Time, o: Outside)
        returns (r: Result, rounds: nat)
      requires Invariants.Invariant(shared.View()) && Reaches(reading, deadline) && AlwaysLegal(w) && GoesOn(o)
      requires shared.View() == AtLook(s, w, 0)
      modifies shared
      ensures Invariants.Invariant(shared.View())
      ensures WaitedFor(s, w, reading, deadline, id, rounds)
      ensures var found := AtLook(s, w, rounds);
              if reading(rounds) < deadline then shared.View() == found && EndsWith(found, id, r)
              else r == Manager.Err(Manager.DependencyTimedOut) && shared.View() == Manager.DependencyTimeout(found, id)
    {
      ghost var last: nat :| reading(last) >= deadline;
      hide *;
      rounds := 0;
      WaitedForStep(s, w, reading, deadline, id, 0);
      while reading(rounds) < deadline
        invariant rounds <= last && shared.View() == AtLook(s, w, rounds) && Invariants.Invariant(shared.View())
        invariant WaitedFor(s, w, reading, deadline, id, rounds)
        decreases last - rounds
      {
        LooksAgain(shared, id, if id in shared.processes then AnswerFor(shared.processes[id].state) else Manager.Err(Manager.NotFound));
        if id !in shared.processes {
          return Manager.Err(Manager.NotFound), rounds;
        }
        if !shared.processes[id].state.Waiting? {
          return AnswerFor(shared.processes[id].state), rounds;
        }
        WaitedForStep(s, w, reading, deadline, id, rounds);
        LookIs(s, w, rounds);
        Pause(s, w, rounds + 1, o);
        rounds := rounds + 1;
      }
      MarkLate(id);
      r := Manager.Err(Manager.DependencyTimedOut);
    }

    /** Starts a process and blocks until it is no longer Waiting or its dependency
        timeout, counted from `began`, is over. */
    method StartWithDeps(tag: Label, config: ProcessConfig, e: Manager.StartEnv, w: Schedule,
                         began: Time, reading: nat -> Time, o: Outside) returns (r: Result, id: ProcessId, rounds: nat)
      requires Invariants.Invariant(shared.View()) && Reaches(reading, began + config.dependencyTimeout)
      requires AlwaysLegal(w) && GoesOn(o)
      modifies shared
      ensures Invariants.Invariant(shared.View())
      ensures var started := Manager.Start(old(shared.View()), tag, config, e);
              var s, deadline := started.state, began + config.dependencyTimeout;
              if started.result.Err? then rounds == 0 && shared.View() == s && r == started.result
              else
                && id == old(shared.nextId)
                && if SettledAtOnce(AtLook(s, w, 0), id) then rounds == 0 && shared.View() == AtLook(s, w, 0) && r == Manager.Ok
                   else
                     && WaitedFor(s, w, reading, deadline, id, rounds)
                     && var found := AtLook(s, w, rounds);
                        if reading(rounds) < deadline then shared.View() == found && EndsWith(found, id, r)
                        else r == Manager.Err(Manager.DependencyTimedOut) && shared.View() == Manager.DependencyTimeout(found, id)
    {
      hide *;
      ghost var s0 := shared.View();
      var cycle;
      r, id, cycle := Start(tag, config, e);
      rounds := 0;
      Calls.StartKeeps(s0, tag, config, e);
      if r.Err? {
        return;
      }
      ghost var s := shared.View();
      LookIs(s, w, 0);
      Pause(s, w, 0, o);
      LooksAtOnce(shared, id);
      if id in shared.processes && !shared.processes[id].state.Waiting? {
        return;
      }
      r, rounds := AwaitDependencies(s, id, w, began + config.dependencyTimeout, reading, o);
    }
  }
}
