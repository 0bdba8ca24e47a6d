/** Phases 1 to 3 keep the invariants: the shape of what the polls, the cascade and the
    backoff leave of each process, and the events, which account for the exits one by one. */
module ReapPhase {
  import opened Basics
  import opened Backoff
  import opened Processes
  import opened Reaper
  import opened Invariants

  ghost predicate Keyed(procs: ProcessMap) {
    forall id :: id in procs ==> procs[id].id == id
  }

  function ReapEvents(procs: ProcessMap, order: seq<ProcessId>, t: Tick): seq<ExitEvent> {
    EventsOf(ExitsSeen(procs, order, t))
  }

  ghost predicate ExitSeen(s: State, id: ProcessId, t: Tick) {
    id in s.procs && Seen(s, id, t).exited.Some?
  }

  lemma ReapEventsPush(procs: ProcessMap, order: seq<ProcessId>, t: Tick)
    requires order != []
    ensures var n := |order| - 1;
            ReapEvents(procs, order, t) == ReapEvents(procs, order[..n], t) + EventsOf(ExitOf(procs, order[n], t))
  {
    var n := |order| - 1;
    var earlier, last := ExitsSeen(procs, order[..n], t), ExitOf(procs, order[n], t);
    if last == [] {
      assert earlier + last == earlier;
    } else {
      assert (earlier + last)[..|earlier|] == earlier;
      assert last[..0] == [];
    }
  }

  /** Every event of the walk reports the exit of one tracked process, and no process twice. */
  lemma EventsReportExits(s: State, order: seq<ProcessId>, t: Tick)
    requires Keyed(s.procs) && Distinct(order)
    ensures var ev := ReapEvents(s.procs, order, t);
            && (forall i :: 0 <= i < |ev| ==> 
                 ev[i].id in order && ExitSeen(s, ev[i].id, t) && ev[i] == Seen(s, ev[i].id, t).exited.value.event)
            && (forall i, j :: 0 <= i < j < |ev| ==> ev[i].id != ev[j].id)
  {
    hide PollEntry, ReapEvents, ExitOf, EventsOf;
    if order == [] {
      NoEvents(s.procs, t);
    } else {
      var n := |order| - 1;
      EventsReportExits(s, order[..n], t);
      ReapEventsPush(s.procs, order, t);
      EventsOfOne(s, order[n], t);
      assert order == order[..n] + [order[n]];
    }
  }

  lemma NoEvents(procs: ProcessMap, t: Tick)
    ensures ReapEvents(procs, [], t) == []
  {
  }

  /** One entry contributes its exit, if it has one. */
  lemma EventsOfOne(s: State, id: ProcessId, t: Tick)
    requires Keyed(s.procs)
    ensures EventsOf(ExitOf(s.procs, id, t)) == if ExitSeen(s, id, t) then [Seen(s, id, t).exited.value.event] else []
    ensures ExitSeen(s, id, t) ==> Seen(s, id, t).exited.value.event.id == id
  {
    hide PollEntry;
    if ExitSeen(s, id, t) {
      ExitedIsIt(s, id, t);
      assert ExitOf(s.procs, id, t)[..0] == [];
    }
  }

  lemma ExitedIsIt(s: State, id: ProcessId, t: Tick)
    requires Keyed(s.procs) && ExitSeen(s, id, t)
    ensures var e := Seen(s, id, t).exited.value.event;
            e.id == id && e.exitStatus.Some? && s.procs[id].child.Some?
            && (e.state.Failed? ==> Leaves(Seen(s, id, t)))
  {
  }

  /** The walk emits one event with a status for an exited process it visits, and none for any other. */
  lemma EventsCountExits(s: State, order: seq<ProcessId>, t: Tick, id: ProcessId)
    requires Keyed(s.procs) && Distinct(order)
    ensures var ev := ReapEvents(s.procs, order, t);
            var n := if id in order && ExitSeen(s, id, t) then 1 else 0;
            ExitCount(ev, id) == n && EventCount(ev, id) == n
  {
    hide PollEntry;
    if order != [] {
      var n := |order| - 1;
      EventsCountExits(s, order[..n], t, id);
      ReapEventsPush(s.procs, order, t);
      assert id in order <==> id in order[..n] || id == order[n];
      var last := ExitOf(s.procs, order[n], t);
      if last != [] {
        assert last[..0] == [];
        ExitedIsIt(s, order[n], t);
        CountsPush(ReapEvents(s.procs, order[..n], t), last[0].event, id);
      } else {
        assert ReapEvents(s.procs, order, t) == ReapEvents(s.procs, order[..n], t);
      }
    }
  }

  /** The fate of a survivor, field by field. */
  lemma ReapedShape(s: State, id: ProcessId, t: Tick)
    requires id in s.procs && WellFormed(s.procs[id]) && !Leaves(Seen(s, id, t))
    ensures var p, q := s.procs[id], Reaped(s, id, t);
            && WellFormed(q)
            && q.id == p.id && q.tag == p.tag && q.config == p.config && q.spawnSequence == p.spawnSequence
            && q.resolvedDeps == p.resolvedDeps && q.waitingSince == p.waitingSince
            && (q.child.Some? <==> p.child.Some? && !ExitSeen(s, id, t))
            && (q.state.Waiting? <==> p.state.Waiting?)
  {
    var o := Seen(s, id, t);
    PollShape(s.procs[id], t.exit(id), t.now);
    var q := if IsTargeted(s.procs, id, t) then Flagged(o.process) else o.process;
    if IsTargeted(s.procs, id, t) {
      TargetShape(s, id, t);
      FlaggedShape(o.process);
    }
    if ExitSeen(s, id, t) { ScheduledShape(q, t.now); }
    hide IsTargeted, PollEntry, Flagged, Scheduled, WellFormed;
  }

  /** Same identity, bindings and waiting time. */
  ghost predicate SameEntry(p: Process, q: Process) {
    && q.id == p.id && q.tag == p.tag && q.config == p.config && q.spawnSequence == p.spawnSequence
    && q.resolvedDeps == p.resolvedDeps && q.waitingSince == p.waitingSince
  }

  lemma FlaggedShape(p: Process)
    requires WellFormed(p) && (p.state.Running? || p.state.Starting?)
    ensures var q := Flagged(p);
            WellFormed(q) && SameEntry(p, q) && q.child == p.child && q.state.Stopping? && q.cascadeFlag && p.pid != 0
  {
  }

  lemma ScheduledShape(p: Process, now: Time)
    requires WellFormed(p) && p.config.restartOnExit && p.child.Some?
    ensures var q := Scheduled(p, now);
            && WellFormed(q) && SameEntry(p, q) && q.child.None? && q.state.Restarting? && !p.state.Waiting?
            && q.cascadeFlag == p.cascadeFlag
  {
    hide Capped;
  }

  /** The fate of an entry in phase 1, field by field. */
  lemma PollShape(p: Process, poll: Poll, now: Time)
    requires WellFormed(p)
    ensures var o := PollEntry(p, poll, now);
            var q := o.process;
            && WellFormed(q)
            && q.id == p.id && q.tag == p.tag && q.config == p.config && q.spawnSequence == p.spawnSequence
            && q.resolvedDeps == p.resolvedDeps && q.waitingSince == p.waitingSince && q.child == p.child
            && (q.state.Waiting? <==> p.state.Waiting?)
            && (o.exited.Some? ==> q.child.Some? && !q.cascadeFlag && (o.exited.value.restarts ==> q.config.restartOnExit))
  {
  }

  lemma TargetShape(s: State, id: ProcessId, t: Tick)
    requires id in s.procs && IsTargeted(s.procs, id, t)
    ensures var q := Seen(s, id, t).process; q.state.Running? || q.state.Starting?
  {
    hide PollEntry;
  }

  lemma ReapLogged(s: State, t: Tick)
    requires Structural(s) && Logged(s) && Faithful(t, s.procs.Keys)
    ensures Logged(Reap(s, t))
  {
    hide WellFormed, Reaped, IsTargeted, ReapEvents, PollEntry;
    var order := t.order(AtPoll);
    var ev := ReapEvents(s.procs, order, t);
    EventsReportExits(s, order, t);
    var s' := Reap(s, t);
    assert s'.log == s.log + ev by { ReapLog(s, t); }
    forall i | 0 <= i < |s'.log| && s'.log[i].state.Failed? ensures s'.log[i].id !in s'.procs {
      if |s.log| <= i {
        var k := i - |s.log|;
        assert s'.log[i] == ev[k];
        ExitedIsIt(s, ev[k].id, t);
      }
    }
    forall i, j | 0 <= i < j < |s'.log| && s'.log[i].id == s'.log[j].id ensures !s'.log[i].state.Failed? {
      if i < |s.log| <= j {
        assert s'.log[j] == ev[j - |s.log|];
      }
    }
    forall i | 0 <= i < |s'.log| ensures s'.log[i].id < s'.nextId {
      if |s.log| <= i { assert s'.log[i] == ev[i - |s.log|]; }
    }
  }

  lemma ReapLog(s: State, t: Tick)
    ensures Reap(s, t).log == s.log + ReapEvents(s.procs, t.order(AtPoll), t)
  {
  }

  lemma ReapConserved(s: State, t: Tick)
    requires Structural(s) && Conserved(s) && Faithful(t, s.procs.Keys)
    ensures Conserved(Reap(s, t))
  {
    hide WellFormed, Reaped, IsTargeted, ReapEvents, PollEntry, ExitCount, SpawnCount;
    var s' := Reap(s, t);
    forall id: ProcessId
      ensures SpawnCount(s'.spawns, id) == ExitCount(s'.log, id) + s'.dropped[id] + Held(s', id)
    {
      ReapLog(s, t);
      CountsAppend(s.log, ReapEvents(s.procs, t.order(AtPoll), t), id);
      EventsCountExits(s, t.order(AtPoll), t, id);
      if id in s.procs {
        assert id in t.order(AtPoll);
        if ExitSeen(s, id, t) { ExitedIsIt(s, id, t); }
        if !Leaves(Seen(s, id, t)) { ReapedShape(s, id, t); }
      }
    }
  }

  lemma ReapKeeps(s: State, t: Tick)
    requires Sound(s) && Faithful(t, s.procs.Keys)
    ensures Sound(Reap(s, t)) && Evolves(s, Reap(s, t))
  {
    ReapLogged(s, t);
    ReapConserved(s, t);
    hide WellFormed, Reaped, IsTargeted, PollEntry, Logged, Conserved, Faithful;
    var s' := Reap(s, t);
    forall id | id in s'.procs
      ensures id in s.procs && s'.procs[id].id == id && WellFormed(s'.procs[id])
      ensures s'.procs[id].tag == s.procs[id].tag && s'.procs[id].config == s.procs[id].config
      ensures s'.procs[id].spawnSequence == s.procs[id].spawnSequence
    {
      ReapedShape(s, id, t);
    }
    assert Structural(s');
    assert Sequenced(s');
  }

  /** Waiting processes pass through phases 1 to 3 with their bindings. */
  lemma ReapBound(s: State, t: Tick)
    requires Invariant(s) && Faithful(t, s.procs.Keys)
    ensures Bound(Reap(s, t))
  {
    ReapKeeps(s, t);
    hide WellFormed, Reaped, IsTargeted, PollEntry, Logged, Conserved, Faithful, BoundSparingly, Sequenced, Ordered;
    var s' := Reap(s, t);
    forall id | id in s'.procs && s'.procs[id].state.Waiting?
      ensures BoundSparingly(s', s'.procs[id].resolvedDeps, s'.procs[id].config.dependsOn)
    {
      ReapedShape(s, id, t);
      SparingEvolves(s, s', s.procs[id].resolvedDeps, s.procs[id].config.dependsOn);
    }
  }
}
