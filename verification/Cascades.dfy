/** Supervisor cascades. */
module Cascades {
  import opened Basics
  import opened Processes
  import opened Resolution
  import opened Reaper
  import opened Invariants
  import opened ReapPhase
  import opened LaterPhases
  import opened FailFastPhase
  import opened Movement
  import opened Runs
  import opened Undisturbed

  /** The restarts that count against the limit when `p` exits: those scheduled, and none any
      more once it has been Running for its minimum uptime. */
  function CountAtExit(p: Process, now: Time): nat {
    if p.restart.None? then 0
    else
      var r := p.restart.value;
      if p.state.Running? && p.config.restartPolicy.Backoff? && r.lastStartedAt.Some?
         && Elapsed(r.lastStartedAt.value, now) >= p.config.restartPolicy.config.minUptime
      then 0 else r.restartCount
  }

  /** `id` exits in this cycle in a way that triggers its own restart and its
      strategy reaches beyond itself. */
  ghost predicate IsOrigin(s: State, id: ProcessId, t: Tick) {
    && id in s.procs
    && var p := s.procs[id];
       && p.child.Some? && t.exit(id).Exited?
       && !p.state.Restarting? && !p.cascadeFlag
       && p.config.restartOnExit
       && (p.config.restartTrigger.Always? || !t.exit(id).success)
       && (p.config.restartPolicy.Backoff? ==> CountAtExit(p, t.now) < p.config.restartPolicy.config.maxRestarts)
       && !p.config.strategy.OneForOne?
  }

  /** What the supervisor model promises: a same-label Running or Starting process
      other than the origin, for `RestForOne` only if it was started later. */
  ghost predicate GoesDown(s: State, id: ProcessId, t: Tick) {
    && id in s.procs && (s.procs[id].state.Running? || s.procs[id].state.Starting?)
    && exists o :: o in s.procs && IsOrigin(s, o, t) && o != id && s.procs[o].tag == s.procs[id].tag
                   && (s.procs[o].config.strategy.RestForOne? ==> s.procs[id].spawnSequence > s.procs[o].spawnSequence)
  }

  lemma OriginsExact(s: State, id: ProcessId, t: Tick)
    requires id in s.procs && s.procs[id].id == id && WellFormed(s.procs[id])
    ensures IsOrigin(s, id, t) <==> Seen(s, id, t).origin.Some?
    ensures IsOrigin(s, id, t) ==>
              Seen(s, id, t).origin.value == Origin(id, s.procs[id].tag, s.procs[id].spawnSequence, s.procs[id].config.strategy)
  {
  }

  lemma PollKeepsGroup(s: State, id: ProcessId, t: Tick)
    requires id in s.procs
    ensures var p, q := s.procs[id], Seen(s, id, t).process;
            && q.tag == p.tag && q.spawnSequence == p.spawnSequence && q.pid == p.pid
            && (q.state.Running? || q.state.Starting? <==> p.state.Running? || p.state.Starting?)
  {
  }

  lemma TargetsExact(s: State, id: ProcessId, t: Tick)
    requires Structural(s)
    ensures IsTargeted(s.procs, id, t) <==> GoesDown(s, id, t)
  {
    hide PollEntry, WellFormed, IsOrigin;
    if id in s.procs { PollKeepsGroup(s, id, t); }
    if IsTargeted(s.procs, id, t) {
      var o :| o in s.procs && PollEntry(s.procs[o], t.exit(o), t.now).origin.Some?
               && IsTarget(PolledMap(s.procs, t), id, PollEntry(s.procs[o], t.exit(o), t.now).origin.value);
      assert Seen(s, o, t).origin.Some?;
      OriginsExact(s, o, t);
    }
    if GoesDown(s, id, t) {
      var o :| o in s.procs && IsOrigin(s, o, t) && o != id && s.procs[o].tag == s.procs[id].tag
               && (s.procs[o].config.strategy.RestForOne? ==> s.procs[id].spawnSequence > s.procs[o].spawnSequence);
      OriginsExact(s, o, t);
      OriginNotOneForOne(s, o, t);
      assert IsTarget(PolledMap(s.procs, t), id, Seen(s, o, t).origin.value);
    }
  }

  lemma OriginNotOneForOne(s: State, o: ProcessId, t: Tick)
    requires IsOrigin(s, o, t)
    ensures o in s.procs && !s.procs[o].config.strategy.OneForOne?
  {
  }

  /** The cascade is exact for any number of simultaneous crashes. A process that
      does not itself exit is Stopping and flagged after phases 1 to 3 if a crash
      takes it down, and otherwise keeps its state, but for Starting becoming Running. */
  lemma CascadeExact(s: State, id: ProcessId, t: Tick)
    requires Reachable(s) && Faithful(t, s.procs.Keys) && id in s.procs && !ExitSeen(s, id, t)
    ensures var p, s3 := s.procs[id], Reap(s, t);
            && id in s3.procs
            && if GoesDown(s, id, t) then s3.procs[id].state.Stopping? && s3.procs[id].cascadeFlag
               else s3.procs[id].cascadeFlag == p.cascadeFlag
                    && s3.procs[id].state == if p.state.Starting? then Running else p.state
  {
    ReachableInvariant(s);
    InvariantKeyed(s);
    TargetsExact(s, id, t);
    AliveOutcome(s, id, t);
    hide GoesDown, IsTargeted, Faithful, Invariant, Reachable, PollEntry, WellFormed, ExitSeen;
  }

  /** Phase 1 on an entry whose exit it does not see. */
  lemma AliveOutcome(s: State, id: ProcessId, t: Tick)
    requires id in s.procs && WellFormed(s.procs[id]) && !ExitSeen(s, id, t)
    ensures var p, o := s.procs[id], Seen(s, id, t);
            && o.exited.None? && o.process.cascadeFlag == p.cascadeFlag && o.process.pid == p.pid
            && o.process.state == (if p.state.Starting? then Running else p.state)
            && (p.state.Running? || p.state.Starting? ==> p.pid != 0)
  {
  }

  /** A flag outlives its cascade exactly on processes that had already exited when
      they were flagged: they go into a backoff wait with the flag still set. */
  lemma StaleFlagExact(s: State, id: ProcessId, t: Tick)
    requires Reachable(s) && id in s.procs && ExitSeen(s, id, t) && id in Reap(s, t).procs
    ensures Reap(s, t).procs[id].state.Restarting?
    ensures Reap(s, t).procs[id].cascadeFlag <==> GoesDown(s, id, t)
  {
    ReachableInvariant(s);
    InvariantKeyed(s);
    TargetsExact(s, id, t);
    var o := Seen(s, id, t);
    PollShape(s.procs[id], t.exit(id), t.now);
    if IsTargeted(s.procs, id, t) {
      TargetShape(s, id, t);
      FlaggedShape(o.process);
      ScheduledShape(Flagged(o.process), t.now);
    } else {
      ScheduledShape(o.process, t.now);
    }
    hide GoesDown, IsTargeted, Invariant, Reachable, PollEntry, Flagged, Scheduled, WellFormed;
  }

  /** A restart clears the flag if and only if it sends the process waiting. */
  lemma FlagThroughRestart(s: State, t: Tick, id: ProcessId)
    requires id in s.procs && s.procs[id].id == id && s.procs[id].state.Restarting?
    requires id in PerformRestart(s, id, t).procs
    ensures var p, q := s.procs[id], PerformRestart(s, id, t).procs[id];
            && (q.state.Waiting? || q.state.Starting?)
            && q.cascadeFlag == (p.cascadeFlag && !q.state.Waiting?)
  {
    RestartPollsOnlyPoll(s, id, t);
    assert PolledInto(s.procs[id], RestartPolls(s, id, t).procs[id]);
    hide Bindings, PollDeps;
  }

  /** If only flagged processes exit, nobody goes down with them. */
  lemma NoNewCascade(s: State, t: Tick)
    requires forall id :: ExitSeen(s, id, t) ==> id in s.procs && s.procs[id].cascadeFlag
    ensures forall id :: !IsOrigin(s, id, t) && !GoesDown(s, id, t)
  {
    forall id ensures !IsOrigin(s, id, t) {
      if id in s.procs && s.procs[id].child.Some? && t.exit(id).Exited? && !s.procs[id].state.Restarting? {
        assert ExitSeen(s, id, t);
      }
    }
  }

  /** A flagged exit is reported as one Stopped event, and the process is
      scheduled or removed as its own configuration says. */
  lemma FlaggedExit(s: State, id: ProcessId, t: Tick)
    requires Invariant(s) && Faithful(t, s.procs.Keys) && id in s.procs
    requires s.procs[id].cascadeFlag && ExitSeen(s, id, t)
    ensures var s3 := Reap(s, t);
            && EventCount(s3.log, id) == EventCount(s.log, id) + 1
            && (exists i :: |s.log| <= i < |s3.log| && s3.log[i].id == id && s3.log[i].state.Stopped?)
            && (id in s3.procs <==> s.procs[id].config.restartOnExit)
            && (id in s3.procs ==> s3.procs[id].state.Restarting?)
  {
    assert Enumerates(t.order(AtPoll), s.procs.Keys) && id in t.order(AtPoll);
    hide Invariant, Faithful, PollEntry, Reaped, IsTargeted;
    InvariantKeyed(s);
    FlaggedOutcome(s, id, t);
    ExitReported(s, t, id);
  }

  /** The one event that reports an exit. */
  lemma ExitReported(s: State, t: Tick, id: ProcessId)
    requires Keyed(s.procs) && Enumerates(t.order(AtPoll), s.procs.Keys) && id in t.order(AtPoll) && ExitSeen(s, id, t)
    ensures var s3 := Reap(s, t);
            && EventCount(s3.log, id) == EventCount(s.log, id) + 1
            && exists i :: |s.log| <= i < |s3.log| && s3.log[i].id == id && s3.log[i] == Seen(s, id, t).exited.value.event
  {
    assert Distinct(t.order(AtPoll));
    hide *;
    var s3, order := Reap(s, t), t.order(AtPoll);
    var ev := ReapEvents(s.procs, order, t);
    ReapLog(s, t);
    EventsCountExits(s, order, t, id);
    CountsAppend(s.log, ev, id);
    EventsReportExits(s, order, t);
    EventCountWitness(ev, id);
    var k :| 0 <= k < |ev| && ev[k].id == id;
    assert s3.log[|s.log| + k] == ev[k];
  }

  /** What phase 1 decides about an exit: the event it sends, and whether the process stays. */
  lemma ExitOutcome(s: State, id: ProcessId, t: Tick)
    requires id in s.procs && WellFormed(s.procs[id])
    ensures var p, success := s.procs[id], t.exit(id).Exited? && t.exit(id).success;
            var limited := p.config.restartPolicy.Backoff? && CountAtExit(p, t.now) >= p.config.restartPolicy.config.maxRestarts;
            var triggered := p.config.restartOnExit && (p.config.restartTrigger.Always? || !success);
            && (ExitSeen(s, id, t) <==> p.child.Some? && t.exit(id).Exited?)
            && (ExitSeen(s, id, t) ==>
                  && (!Leaves(Seen(s, id, t)) <==> if p.cascadeFlag then p.config.restartOnExit else triggered && !limited)
                  && Seen(s, id, t).exited.value.event
                     == ExitEvent(p.id, p.tag, p.pid, p.config.restartOnExit, Some(success),
                                  if p.cascadeFlag then Stopped else if triggered && limited then Failed
                                  else if success then Stopped else Crashed))
  {
  }

  /** The decision about an exit, from the fields of the process and the status alone. Phase
      1 sees the exit of whoever has a child that has one. A cascade target stays, to be
      restarted, if it is set to be restarted; any other process if moreover the status
      triggers it and, under backoff, the restarts since it last was up for its minimum
      uptime are below the limit. Who stays is in a backoff wait; who does not is gone. */
  lemma ExitDecided(s: State, t: Tick, id: ProcessId)
    requires Reachable(s) && Faithful(t, s.procs.Keys) && id in s.procs
    ensures var p, s3 := s.procs[id], Reap(s, t);
            && (p.config.restartOnExit ==> p.restart.Some? && (p.state.Running? ==> p.restart.value.lastStartedAt.Some?))
            && (ExitSeen(s, id, t) <==> p.child.Some? && t.exit(id).Exited?)
            && (!ExitSeen(s, id, t) ==> id in s3.procs)
            && (ExitSeen(s, id, t) && p.cascadeFlag ==> (id in s3.procs <==> p.config.restartOnExit))
            && (ExitSeen(s, id, t) && !p.cascadeFlag ==>
                  (id in s3.procs <==>
                    && p.config.restartOnExit && (p.config.restartTrigger.Always? || !t.exit(id).success)
                    && !(&& p.config.restartPolicy.Backoff?
                         && p.restart.value.restartCount >= p.config.restartPolicy.config.maxRestarts
                         && !(p.state.Running? && p.config.restartPolicy.config.maxRestarts > 0
                              && Elapsed(p.restart.value.lastStartedAt.value, t.now) >= p.config.restartPolicy.config.minUptime))))
            && (ExitSeen(s, id, t) && id in s3.procs ==> s3.procs[id].state.Restarting?)
  {
    ReachableInvariant(s);
    InvariantKeyed(s);
    ExitOutcome(s, id, t);
    if ExitSeen(s, id, t) && id in Reap(s, t).procs { StaleFlagExact(s, id, t); }
    hide Invariant, Reachable, Faithful, Seen, IsTargeted, GoesDown, ExitSeen, Reaped;
  }

  /** Every exit is reported by exactly one event, with the label, pid and setting the process
      had before the cycle and the status the child left: a cascade target has Stopped, a
      process that would be restarted but for its limit has Failed, and otherwise the status decides. */
  lemma ExitReportedExactly(s: State, t: Tick, id: ProcessId)
    requires Reachable(s) && Faithful(t, s.procs.Keys) && ExitSeen(s, id, t)
    ensures var p, s3 := s.procs[id], Reap(s, t);
            && t.exit(id).Exited? && EventCount(s3.log, id) == EventCount(s.log, id) + 1
            && exists i :: |s.log| <= i < |s3.log|
                 && s3.log[i] == ExitEvent(id, p.tag, p.pid, p.config.restartOnExit, Some(t.exit(id).success),
                                           if p.cascadeFlag then Stopped
                                           else if p.config.restartOnExit && (p.config.restartTrigger.Always? || !t.exit(id).success)
                                                   && p.config.restartPolicy.Backoff?
                                                   && CountAtExit(p, t.now) >= p.config.restartPolicy.config.maxRestarts
                                           then Failed
                                           else if t.exit(id).success then Stopped else Crashed)
  {
    ReachableInvariant(s);
    InvariantKeyed(s);
    ExitOutcome(s, id, t);
    assert Enumerates(t.order(AtPoll), s.procs.Keys) && id in t.order(AtPoll);
    hide Invariant, Reachable, Faithful, Reap, EventCount, ExitSeen, Seen;
    ExitReported(s, t, id);
  }

  /** `x` comes before `y` in the walk. */
  ghost predicate Precedes(order: seq<ProcessId>, x: ProcessId, y: ProcessId) {
    exists i, j :: 0 <= i < j < |order| && order[i] == x && order[j] == y
  }

  lemma PrecedesPush(order: seq<ProcessId>, last: ProcessId)
    ensures forall x, y :: Precedes(order, x, y) ==> Precedes(order + [last], x, y)
    ensures forall x :: x in order ==> Precedes(order + [last], x, last)
  {
    var all := order + [last];
    forall x, y | Precedes(order, x, y) ensures Precedes(all, x, y) {
      var i, j :| 0 <= i < j < |order| && order[i] == x && order[j] == y;
      assert all[i] == x && all[j] == y;
    }
    forall x | x in order ensures Precedes(all, x, last) {
      var i :| 0 <= i < |order| && order[i] == x;
      assert all[i] == x && all[|order|] == last;
    }
  }

  /** The exits are reported in the order of the walk. */
  lemma EventsInWalkOrder(s: State, order: seq<ProcessId>, t: Tick)
    requires Keyed(s.procs) && Distinct(order)
    ensures var ev := ReapEvents(s.procs, order, t);
            forall i, j :: 0 <= i < j < |ev| ==> Precedes(order, ev[i].id, ev[j].id)
  {
    hide PollEntry, ReapEvents, ExitOf, EventsOf, ExitSeen;
    if order == [] {
      NoEvents(s.procs, t);
    } else {
      var n := |order| - 1;
      EventsInWalkOrder(s, order[..n], t);
      EventsReportExits(s, order[..n], t);
      ReapEventsPush(s.procs, order, t);
      EventsOfOne(s, order[n], t);
      PrecedesPush(order[..n], order[n]);
      assert order == order[..n] + [order[n]];
      hide Precedes;
    }
  }

  lemma InvariantKeyed(s: State)
    requires Invariant(s)
    ensures Keyed(s.procs) && forall id :: id in s.procs ==> WellFormed(s.procs[id])
  {
  }

  lemma FlaggedOutcome(s: State, id: ProcessId, t: Tick)
    requires id in s.procs && s.procs[id].cascadeFlag && ExitSeen(s, id, t) && WellFormed(s.procs[id])
    ensures var e := Seen(s, id, t).exited.value;
            e.event.state.Stopped? && e.restarts == s.procs[id].config.restartOnExit
            && (e.restarts ==> Reaped(s, id, t).state.Restarting?)
  {
    hide IsTargeted;
  }

  lemma EventCountWitness(log: seq<ExitEvent>, id: ProcessId)
    requires EventCount(log, id) > 0
    ensures exists k :: 0 <= k < |log| && log[k].id == id
  {
    var n := |log| - 1;
    if log[n].id != id {
      EventCountWitness(log[..n], id);
      var k :| 0 <= k < |log[..n]| && log[..n][k].id == id;
      assert log[k].id == id;
    }
  }

  // ---------------------------------------------------- over runs of cycles

  /** Phases 4 to 6 do not touch a Stopping process. */
  lemma StoppingAfterReap(s: State, id: ProcessId, t: Tick)
    requires Invariant(s) && Faithful(t, s.procs.Keys) && id in s.procs && s.procs[id].state.Stopping?
    ensures id in AfterReap(s, t).procs && AfterReap(s, t).procs[id] == s.procs[id]
  {
    var s4 := Restarts(s, t);
    NotDuePolled(s, t, id);
    RestartsAdvance(s, t);
    FaithfulShrinks(t, s.procs.Keys, s4.procs.Keys);
    WaitersShape(s4, t);
    FailFastSparesOthers(Waiters(s4, t), t.order(AtFailFast), id);
    hide Restarts, Waiters, FailFast, Invariant, Faithful;
  }

  lemma FailFastSparesOthers(s: State, order: seq<ProcessId>, id: ProcessId)
    requires id in s.procs && !s.procs[id].state.Running?
    ensures id in FailFast(s, order).procs && FailFast(s, order).procs[id] == s.procs[id]
  {
    RunningWithDepsAreRunning(s.procs, order);
    FailDependentsThorough(s, RunningWithDeps(s.procs, order));
  }

  /** A Stopping process whose exit has not been seen is untouched by a whole cycle. */
  lemma StoppingKept(s: State, id: ProcessId, t: Tick)
    requires Invariant(s) && Faithful(t, s.procs.Keys)
    requires id in s.procs && s.procs[id].state.Stopping? && !ExitSeen(s, id, t)
    ensures id in Cycle(s, t).procs && Cycle(s, t).procs[id] == s.procs[id]
  {
    hide *;
    InvariantStructural(s);
    ReapInvariant(s, t);
    StoppingReaped(s, id, t);
    StoppingAfterReap(Reap(s, t), id, t);
    AfterReapIs(Reap(s, t), t);
    AfterReapIs(s, t);
  }

  lemma StoppingReaped(s: State, id: ProcessId, t: Tick)
    requires Structural(s) && id in s.procs && s.procs[id].state.Stopping? && !ExitSeen(s, id, t)
    ensures id in Reap(s, t).procs && Reap(s, t).procs[id] == s.procs[id]
  {
    TargetsExact(s, id, t);
    hide IsTargeted, WellFormed;
  }

  /** A process that a crash takes down is Stopping and flagged when the cycle is over. */
  lemma TargetAfterCycle(s: State, id: ProcessId, t: Tick)
    requires Invariant(s) && Faithful(t, s.procs.Keys) && GoesDown(s, id, t) && !ExitSeen(s, id, t)
    ensures id in Cycle(s, t).procs && Cycle(s, t).procs[id].state.Stopping? && Cycle(s, t).procs[id].cascadeFlag
  {
    assert id in s.procs;
    hide *;
    ReapInvariant(s, t);
    TargetReaped(s, id, t);
    StoppingAfterReap(Reap(s, t), id, t);
    AfterReapIs(Reap(s, t), t);
    AfterReapIs(s, t);
  }

  lemma TargetReaped(s: State, id: ProcessId, t: Tick)
    requires Invariant(s) && GoesDown(s, id, t) && !ExitSeen(s, id, t)
    ensures id in Reap(s, t).procs && Reap(s, t).procs[id].state.Stopping? && Reap(s, t).procs[id].cascadeFlag
  {
    InvariantKeyed(s);
    InvariantStructural(s);
    TargetsExact(s, id, t);
    AliveOutcome(s, id, t);
    assert id in s.procs && (s.procs[id].state.Running? || s.procs[id].state.Starting?);
    hide GoesDown, IsTargeted, Invariant, Structural, PollEntry, WellFormed, ExitSeen;
  }

  lemma QuietCycle(s: State, id: ProcessId, t: Tick)
    requires Invariant(s) && Faithful(t, s.procs.Keys)
    requires id in s.procs && s.procs[id].state.Stopping? && !ExitSeen(s, id, t)
    ensures EventCount(Cycle(s, t).log, id) == EventCount(s.log, id)
  {
    hide *;
    InvariantStructural(s);
    StoppingReaped(s, id, t);
    StoppingKept(s, id, t);
    CycleEvents(s, t, id);
  }

  /** Until its exit is seen, a Stopping process is neither changed nor reported, whatever
      cycles and calls that do not name it come by; a cascade stop may remove it. */
  lemma TargetWaits(r: Run, m: nat, n: nat, id: ProcessId)
    requires IsRun(r) && m <= n < |r.states| && id in r.states[m].procs && r.states[m].procs[id].state.Stopping?
    requires forall k :: m <= k < n ==> !NamedAt(r, k, id) && !SeenAt(r, k, id)
    ensures id in r.states[n].procs ==>
              && r.states[n].procs[id] == r.states[m].procs[id]
              && EventCount(r.states[n].log, id) == EventCount(r.states[m].log, id)
    decreases n
  {
    hide *;
    if m < n && id in r.states[n].procs {
      TrackedBetween(r, m, n - 1, n, id);
      TargetWaits(r, m, n - 1, id);
      LastStep(r, n);
      RunInvariant(r, n - 1);
      var s, step := r.states[n - 1], r.steps[n - 1];
      assert !NamedAt(r, n - 1, id) && !SeenAt(r, n - 1, id);
      if step.DoCycle? {
        SeenIs(r, n - 1, id);
        CycleLegal(s, step);
        StoppingKept(s, id, step.tick);
        QuietCycle(s, id, step.tick);
      } else {
        UnnamedAt(r, n - 1, id);
        UnnamedKeeps(s, step, id);
      }
    }
  }

  /** The life of a cascade target: however many cycles and calls that do not name it
      pass, it is untouched and unreported until its exit is seen; that cycle reports
      it with one Stopped event and schedules or removes it as its own configuration says. */
  lemma CascadeTargetFate(r: Run, m: nat, n: nat, id: ProcessId)
    requires IsRun(r) && m <= n && n + 1 < |r.states|
    requires id in r.states[m].procs && r.states[m].procs[id].state.Stopping? && r.states[m].procs[id].cascadeFlag
    requires (forall k :: m <= k < n ==> !NamedAt(r, k, id) && !SeenAt(r, k, id)) && SeenAt(r, n, id)
    ensures var p, before := r.states[m].procs[id], r.states[n];
            var after := Reap(before, r.steps[n].tick);
            && id in before.procs && before.procs[id] == p
            && EventCount(before.log, id) == EventCount(r.states[m].log, id)
            && EventCount(after.log, id) == EventCount(before.log, id) + 1
            && (exists i :: |before.log| <= i < |after.log| && after.log[i].id == id && after.log[i].state.Stopped?)
            && (id in after.procs <==> p.config.restartOnExit)
            && (id in after.procs ==> after.procs[id].state.Restarting?)
  {
    hide *;
    LastStep(r, n + 1);
    RunInvariant(r, n);
    SeenIs(r, n, id);
    CycleLegal(r.states[n], r.steps[n]);
    TargetWaits(r, m, n, id);
    FlaggedExit(r.states[n], id, r.steps[n].tick);
  }

  /** The k-th step is a cycle with `id` among its cascade origins, or its cascade targets. */
  ghost predicate OriginAt(r: Run, k: nat, id: ProcessId) {
    CycleAt(r, k) && IsOrigin(r.states[k], id, r.steps[k].tick)
  }

  ghost predicate DownAt(r: Run, k: nat, id: ProcessId) {
    CycleAt(r, k) && GoesDown(r.states[k], id, r.steps[k].tick)
  }

  lemma DownIs(r: Run, k: nat, id: ProcessId)
    requires k < |r.steps| && k < |r.states|
    ensures DownAt(r, k, id) <==> r.steps[k].DoCycle? && GoesDown(r.states[k], id, r.steps[k].tick)
    ensures OriginAt(r, k, id) <==> r.steps[k].DoCycle? && IsOrigin(r.states[k], id, r.steps[k].tick)
  {
  }

  /** Whoever went down with the crash at step m and has not exited since still carries the flag. */
  lemma StillFlagged(r: Run, m: nat, k: nat, id: ProcessId)
    requires IsRun(r) && m < k < |r.states| && DownAt(r, m, id) && !SeenAt(r, m, id) && id in r.states[k].procs
    requires forall j :: m < j < k ==> !NamedAt(r, j, id) && !SeenAt(r, j, id)
    ensures r.states[k].procs[id].cascadeFlag
  {
    hide *;
    LastStep(r, m + 1);
    RunInvariant(r, m);
    DownIs(r, m, id);
    SeenIs(r, m, id);
    CycleLegal(r.states[m], r.steps[m]);
    TargetAfterCycle(r.states[m], id, r.steps[m].tick);
    TargetWaits(r, m + 1, k, id);
  }

  /** After the crash at step m only processes exit that went down with it, each for the
      first time, and nobody restarts, batch-stops or times out such a process by hand. */
  ghost predicate OnlyTargetsExit(r: Run, m: nat, n: nat) {
    && (forall k, id :: m < k < n && SeenAt(r, k, id) ==>
          DownAt(r, m, id) && !SeenAt(r, m, id) && forall j :: m < j < k ==> !SeenAt(r, j, id))
    && (forall k, id :: m < k < n && DownAt(r, m, id) ==> !NamedAt(r, k, id))
  }

  lemma ExitIsFlagged(r: Run, m: nat, n: nat, k: nat, id: ProcessId)
    requires IsRun(r) && n < |r.states| && OnlyTargetsExit(r, m, n) && m < k < n && SeenAt(r, k, id)
    ensures id in r.states[k].procs && r.states[k].procs[id].cascadeFlag
  {
    assert DownAt(r, m, id) && !SeenAt(r, m, id);
    assert forall j :: m < j < k ==> !NamedAt(r, j, id) && !SeenAt(r, j, id);
    assert id in r.states[k].procs;
    hide *;
    StillFlagged(r, m, k, id);
  }

  /** No recursive cascade: as long as after a crash only its targets exit, no later
      cycle has a cascade origin, and nobody goes down any more, whatever is
      started, stopped or queried meanwhile. */
  lemma CascadeContained(r: Run, m: nat, n: nat, k: nat, id: ProcessId)
    requires IsRun(r) && n < |r.states| && OnlyTargetsExit(r, m, n) && m < k < n
    ensures !OriginAt(r, k, id) && !DownAt(r, k, id)
  {
    hide OnlyTargetsExit, SeenAt, OriginAt, DownAt, IsOrigin, GoesDown, ExitSeen;
    LastStep(r, k + 1);
    DownIs(r, k, id);
    if r.steps[k].DoCycle? {
      forall x | ExitSeen(r.states[k], x, r.steps[k].tick)
        ensures x in r.states[k].procs && r.states[k].procs[x].cascadeFlag
      {
        SeenIs(r, k, x);
        ExitIsFlagged(r, m, n, k, x);
      }
      NoNewCascade(r.states[k], r.steps[k].tick);
    }
  }
}
