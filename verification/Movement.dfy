/** What phases 4 to 6 can do to an entry that stays tracked: it keeps its identity, its
    place and its restart count, and only moves on to where its state allows. */
module Movement {
  import opened Basics
  import opened Processes
  import opened Resolution
  import opened Reaper
  import opened Manager
  import opened Invariants
  import opened ReapPhase
  import opened LaterPhases
  import opened WaitingPhase
  import opened FailFastPhase
  import opened Calls
  import opened Runs

  function RestartCount(p: Process): nat {
    if p.restart.Some? then p.restart.value.restartCount else 0
  }

  /** `p` before and `q` after: identity and restart count stay, nobody enters a backoff
      wait or is marked Failed, only those in backoff start to wait, and a Stopping
      process is left alone. */
  ghost predicate Moves(p: Process, q: Process) {
    && q.id == p.id && q.tag == p.tag && q.config == p.config && q.spawnSequence == p.spawnSequence
    && RestartCount(q) == RestartCount(p)
    && (q.state.Restarting? || q.state.Failed? ==> q == p)
    && (p.state.Stopping? ==> q == p)
    && (q.state.Waiting? ==> p.state.Waiting? || p.state.Restarting?)
  }

  ghost predicate AllMove(s: State, s': State) {
    forall x :: x in s'.procs ==> x in s.procs && Moves(s.procs[x], s'.procs[x])
  }

  lemma AllMoveTransitive(a: State, b: State, c: State)
    requires AllMove(a, b) && AllMove(b, c)
    ensures AllMove(a, c)
  {
    forall x | x in c.procs ensures x in a.procs && Moves(a.procs[x], c.procs[x]) {
      assert Moves(b.procs[x], c.procs[x]) && Moves(a.procs[x], b.procs[x]);
    }
  }

  lemma AllMoveSelf(s: State)
    ensures AllMove(s, s)
  {
  }

  lemma PolledMoves(p: Process, q: Process)
    requires PolledInto(p, q)
    ensures Moves(p, q)
  {
  }

  // ---------------------------------------------------------------- phase 4

  lemma RespawnMoves(s: State, id: ProcessId, t: Tick)
    requires id in s.procs && s.procs[id].id == id && s.procs[id].state.Restarting?
    ensures var s' := RespawnOrFail(s, id, t);
            AllMove(s, s') && (id in s'.procs ==> !s'.procs[id].state.Restarting?)
  {
  }

  lemma RespawnReboundMoves(s: State, s1: State, id: ProcessId, bound: seq<ProcessId>, t: Tick)
    requires id in s.procs && s.procs[id].id == id && s.procs[id].state.Restarting?
    requires OnlyPolled(s.procs, s1.procs) && s1.procs[id] == s.procs[id]
    ensures var s' := RespawnOrFail(s1.(procs := s1.procs[id := s1.procs[id].(resolvedDeps := bound)]), id, t);
            AllMove(s, s') && (id in s'.procs ==> !s'.procs[id].state.Restarting?)
  {
    var s' := RespawnOrFail(s1.(procs := s1.procs[id := s1.procs[id].(resolvedDeps := bound)]), id, t);
    forall x | x in s'.procs ensures x in s.procs && Moves(s.procs[x], s'.procs[x]) {
      assert PolledInto(s.procs[x], s1.procs[x]);
    }
  }

  lemma PerformRestartMoves(s: State, id: ProcessId, t: Tick)
    requires id in s.procs && s.procs[id].id == id && s.procs[id].state.Restarting?
    ensures var s' := PerformRestart(s, id, t);
            AllMove(s, s') && (id in s'.procs ==> !s'.procs[id].state.Restarting?)
  {
    hide AllMove, RespawnOrFail, Bindings, PollDeps;
    var p := s.procs[id];
    if p.config.dependsOn == [] {
      RespawnMoves(s, id, t);
    } else {
      var s1 := s.(procs := RestartPolls(s, id, t).procs);
      RestartPollsOnlyPoll(s, id, t);
      assert s1.procs[id] == p by { assert PolledInto(p, s1.procs[id]); }
      var bound := Bindings(s.procs, t.order(AtLookup(id)), p.config.dependsOn);
      if RestartPolls(s, id, t).ok {
        RespawnReboundMoves(s, s1, id, bound, t);
      } else {
        var s2 := s1.(procs := s1.procs[id := BackToWaiting(p, bound, t.clock(OnRestart(id)))]);
        PolledAndReplacedMove(s, s1, s2, id);
      }
    }
  }

  lemma PolledAndReplacedMove(s: State, s1: State, s2: State, id: ProcessId)
    requires id in s.procs && OnlyPolled(s.procs, s1.procs)
    requires s2.procs.Keys == s1.procs.Keys && forall x :: x in s1.procs && x != id ==> s2.procs[x] == s1.procs[x]
    requires Moves(s.procs[id], s2.procs[id])
    ensures AllMove(s, s2)
  {
    forall x | x in s2.procs ensures x in s.procs && Moves(s.procs[x], s2.procs[x]) {
      assert PolledInto(s.procs[x], s1.procs[x]);
      PolledMoves(s.procs[x], s1.procs[x]);
    }
  }

  lemma StaysOutOfBackoff(s: State, s': State, x: ProcessId)
    requires AllMove(s, s') && x in s'.procs
    ensures x in s.procs && (s'.procs[x].state.Restarting? ==> s.procs[x].state.Restarting?)
  {
    assert Moves(s.procs[x], s'.procs[x]);
  }

  lemma RestartAllMoves(s: State, ids: seq<ProcessId>, t: Tick)
    requires Invariant(s) && Distinct(ids) && AllRestarting(s, ids)
    ensures var s' := RestartAll(s, ids, t);
            AllMove(s, s') && forall x :: x in ids && x in s'.procs ==> !s'.procs[x].state.Restarting?
  {
    assert Structural(s);
    hide *;
    RestartAllStep(s, ids, t);
    if ids == [] {
      AllMoveSelf(s);
    } else {
      var n := |ids| - 1;
      var s1 := RestartAll(s, ids[..n], t);
      var s' := RestartAll(s, ids, t);
      LastRestarting(s, ids);
      RestartAllAdvances(s, ids[..n], t);
      RestartAllMoves(s, ids[..n], t);
      StillRestarting(s, s1, ids[..n], ids[n]);
      PerformRestartMoves(s1, ids[n], t);
      AllMoveTransitive(s, s1, s');
      forall x | x in ids && x in s'.procs ensures !s'.procs[x].state.Restarting? {
        if x in ids[..n] { StaysOutOfBackoff(s1, s', x); }
      }
    }
  }

  /** After phase 4 whoever is Restarting was so before and is not due yet. */
  lemma RestartsMove(s: State, t: Tick)
    requires Invariant(s) && Faithful(t, s.procs.Keys)
    ensures var s' := Restarts(s, t);
            && AllMove(s, s')
            && forall x :: x in s'.procs && s'.procs[x].state.Restarting? ==> !DueForRestart(s'.procs, x, t.now)
  {
    var ids := RestartIds(s.procs, t.order(AtRestart), t.now);
    RestartIdsAreDue(s.procs, t.order(AtRestart), t.now);
    forall i | 0 <= i < |ids| ensures ids[i] in s.procs && s.procs[ids[i]].state.Restarting? {
      assert ids[i] in ids;
    }
    RestartAllMoves(s, ids, t);
    var s' := Restarts(s, t);
    forall x | x in s'.procs && s'.procs[x].state.Restarting? ensures !DueForRestart(s'.procs, x, t.now) {
      assert Moves(s.procs[x], s'.procs[x]) && x !in ids;
    }
  }

  // ---------------------------------------------------------------- phase 5

  lemma SpawnWaitingShape(s: State, id: ProcessId, t: Tick)
    requires id in s.procs && s.procs[id].id == id
    ensures SpawnWaiting(s, id, t).procs
         == if t.spawn(id).Some? then s.procs[id := Spawned(s.procs[id], t.spawn(id).value, t.clock(OnSpawn(id)))] else s.procs - {id}
  {
    hide RunningLabels;
  }

  lemma SpawnAllShape(s: State, ids: seq<ProcessId>, t: Tick)
    requires Distinct(ids) && forall x :: x in s.procs ==> s.procs[x].id == x
    ensures var s' := SpawnAll(s, ids, t);
            && (forall x :: x in s'.procs <==> x in s.procs && (x in ids ==> t.spawn(x).Some?))
            && (forall x :: x in s'.procs ==>
                  s'.procs[x] == if x in ids then Spawned(s.procs[x], t.spawn(x).value, t.clock(OnSpawn(x))) else s.procs[x])
  {
    if ids != [] {
      var n := |ids| - 1;
      SpawnAllShape(s, ids[..n], t);
      assert ids == ids[..n] + [ids[n]];
      assert ids[n] !in ids[..n];
      if ids[n] in s.procs { SpawnWaitingShape(SpawnAll(s, ids[..n], t), ids[n], t); }
      hide Spawned, RunningLabels;
    }
  }

  /** The fate of every entry in phase 5. */
  lemma WaitersShape(s: State, t: Tick)
    requires Invariant(s) && Faithful(t, s.procs.Keys)
    ensures var s', m := Waiters(s, t), JudgedMap(s.procs, t);
            && (forall x :: x in s'.procs <==>
                  x in s.procs && (s.procs[x].state.Waiting? ==>
                    match VerdictOn(s.procs, x, t).decision
                    case ToSpawn => t.spawn(x).Some?
                    case ToFail => false
                    case ToKeep => true))
            && (forall x :: x in s'.procs ==>
                  s'.procs[x] == if s.procs[x].state.Waiting? && VerdictOn(s.procs, x, t).decision.ToSpawn?
                                 then Spawned(m[x], t.spawn(x).value, t.clock(OnSpawn(x))) else m[x])
  {
    hide *;
    var order := t.order(AtWaiting);
    var s1 := s.(procs := JudgedMap(s.procs, t));
    WaitersListed(s, t);
    SpawnAllShape(s1, WaitingIds(s.procs, order, ToSpawn, t), t);
    FailAllShape(SpawnAll(s1, WaitingIds(s.procs, order, ToSpawn, t), t), WaitingIds(s.procs, order, ToFail, t));
  }

  lemma WaitersTracked(s: State, t: Tick)
    requires Invariant(s) && Faithful(t, s.procs.Keys)
    ensures Waiters(s, t).procs.Keys <= s.procs.Keys
  {
    WaitersShape(s, t);
    hide VerdictOn, Waiters;
  }

  /** Phase 5 spelled out: the lists it fills and what it does with them. */
  lemma WaitersListed(s: State, t: Tick)
    requires Invariant(s) && Faithful(t, s.procs.Keys)
    ensures var order, m := t.order(AtWaiting), JudgedMap(s.procs, t);
            var spawn, fail := WaitingIds(s.procs, order, ToSpawn, t), WaitingIds(s.procs, order, ToFail, t);
            && Waiters(s, t) == FailAll(SpawnAll(s.(procs := m), spawn, t), fail)
            && m.Keys == s.procs.Keys && (forall x :: x in m ==> m[x].id == x) && Distinct(spawn)
            && (forall x :: x in spawn <==> x in s.procs && s.procs[x].state.Waiting? && VerdictOn(s.procs, x, t).decision.ToSpawn?)
            && (forall x :: x in fail <==> x in s.procs && s.procs[x].state.Waiting? && VerdictOn(s.procs, x, t).decision.ToFail?)
  {
    assert Structural(s) && Enumerates(t.order(AtWaiting), s.procs.Keys);
    hide Judge, Invariant, Faithful, SpawnAll, FailAll, WaitingIds;
    WaitingIdsAreJudged(s.procs, t.order(AtWaiting), ToSpawn, t);
    WaitingIdsAreJudged(s.procs, t.order(AtWaiting), ToFail, t);
  }

  lemma FailAllShape(s: State, ids: seq<ProcessId>)
    ensures forall x :: x in FailAll(s, ids).procs <==> x in s.procs && x !in ids
    ensures forall x :: x in FailAll(s, ids).procs ==> FailAll(s, ids).procs[x] == s.procs[x]
  {
    if ids != [] {
      var n := |ids| - 1;
      FailAllShape(s, ids[..n]);
      assert ids == ids[..n] + [ids[n]];
    }
  }

  lemma BoundMoves(p: Process, bound: seq<ProcessId>, pid: OsPid, at: Time)
    requires p.state.Waiting?
    ensures Moves(p, p.(resolvedDeps := bound)) && Moves(p, Spawned(p.(resolvedDeps := bound), pid, at))
    ensures Spawned(p.(resolvedDeps := bound), pid, at).state.Starting?
  {
  }

  lemma WaitersMove(s: State, t: Tick)
    requires Invariant(s) && Faithful(t, s.procs.Keys)
    ensures AllMove(s, Waiters(s, t))
    ensures forall x :: x in Waiters(s, t).procs && Waiters(s, t).procs[x].state.Restarting? ==>
              Waiters(s, t).procs[x] == s.procs[x]
  {
    var s' := Waiters(s, t);
    WaitersShape(s, t);
    hide Waiters, VerdictOn, Invariant, Faithful, Moves, Spawned;
    forall x | x in s'.procs
      ensures x in s.procs && Moves(s.procs[x], s'.procs[x]) && (s'.procs[x].state.Restarting? ==> s'.procs[x] == s.procs[x])
    {
      var p := s.procs[x];
      if !p.state.Waiting? {
        PolledMoves(p, p);
      } else if t.spawn(x).Some? {
        BoundMoves(p, VerdictOn(s.procs, x, t).resolvedDeps, t.spawn(x).value, t.clock(OnSpawn(x)));
      } else {
        BoundMoves(p, VerdictOn(s.procs, x, t).resolvedDeps, 1, 0.0);
      }
    }
  }

  // ----------------------------------------------------------- whole cycles

  lemma FailFastMoves(s: State, order: seq<ProcessId>)
    ensures Shrinks(s.procs, FailFast(s, order).procs) && AllMove(s, FailFast(s, order))
  {
    FailDependentsThorough(s, RunningWithDeps(s.procs, order));
  }

  /** Phases 4 to 6 together. */
  lemma AfterReapMoves(s: State, t: Tick)
    requires Invariant(s) && Faithful(t, s.procs.Keys)
    ensures AllMove(s, AfterReap(s, t))
  {
    var s4 := Restarts(s, t);
    RestartsAdvance(s, t);
    RestartsMove(s, t);
    FaithfulShrinks(t, s.procs.Keys, s4.procs.Keys);
    WaitersMove(s4, t);
    FailFastMoves(Waiters(s4, t), t.order(AtFailFast));
    hide *;
    AllMoveTransitive(s, s4, Waiters(s4, t));
    AllMoveTransitive(s, Waiters(s4, t), FailFast(Waiters(s4, t), t.order(AtFailFast)));
    AfterReapIs(s, t);
  }

  /** A cycle keeps the spawn sequence of whoever stays, whatever happens to it,
      and neither counter moves: the reaper restarts processes in their old place. */
  lemma SequencesStay(s: State, t: Tick, id: ProcessId)
    requires Reachable(s) && Faithful(t, s.procs.Keys) && id in Cycle(s, t).procs
    ensures var s' := Cycle(s, t);
            && id in s.procs && s'.procs[id].spawnSequence == s.procs[id].spawnSequence
            && s'.nextSequence == s.nextSequence && s'.nextId == s.nextId
  {
    ReachableInvariant(s);
    var s3 := Reap(s, t);
    assert s3.nextSequence == s.nextSequence && s3.nextId == s.nextId;
    ReapInvariant(s, t);
    AfterReapAdvances(s3, t);
    AfterReapMoves(s3, t);
    AfterReapIs(s3, t);
    AfterReapIs(s, t);
    ReapedSequence(s, t, id);
    hide Reap, Cycle, AfterReap, Invariant, Faithful, Evolves, EventCount, Restarts, Waiters, FailFast, Reachable;
    assert Moves(s3.procs[id], Cycle(s, t).procs[id]);
  }

  lemma ReapedSequence(s: State, t: Tick, id: ProcessId)
    requires Invariant(s)
    ensures id in Reap(s, t).procs ==> id in s.procs && Reap(s, t).procs[id].spawnSequence == s.procs[id].spawnSequence
  {
    if id in Reap(s, t).procs {
      assert WellFormed(s.procs[id]);
      ReapedShape(s, id, t);
    }
    hide Reaped, Seen, WellFormed;
  }

  // -------------------------------------------------------- who gets tracked

  lemma RestartTracksNobody(s: State, id: ProcessId, e: RestartEnv)
    requires Invariant(s)
    ensures Restart(s, id, e).state.procs.Keys <= s.procs.Keys
  {
    InvariantStructural(s);
    if id in s.procs && !s.procs[id].state.Restarting? { RestartShape(s, id, e); }
    hide Stop, Invariant, WellFormed, RunningLabels;
  }

  lemma CycleTracksNobody(s: State, t: Tick)
    requires Invariant(s) && Faithful(t, s.procs.Keys)
    ensures Cycle(s, t).procs.Keys <= s.procs.Keys
  {
    ReapInvariant(s, t);
    AfterReapMoves(Reap(s, t), t);
    AfterReapIs(Reap(s, t), t);
    AfterReapIs(s, t);
    hide Reap, AfterReap, Cycle, Invariant, Faithful, Moves, Restarts, Waiters, FailFast;
  }

  /** Nothing but `start` makes an id tracked that was not. */
  lemma OnlyStartTracks(s: State, step: Step)
    requires Invariant(s) && Legal(s, step) && !step.DoStart?
    ensures Apply(s, step).procs.Keys <= s.procs.Keys
  {
    hide Invariant, Stop, Restart, Cycle, Faithful;
    match step {
      case DoStop(x, e) => assert Stop(s, x, e).state.procs.Keys <= s.procs.Keys;
      case DoStopMany(ids, kill) =>
      case DoRestart(x, e) => RestartTracksNobody(s, x, e);
      case DoDependencyTimeout(x) =>
      case DoObserve(x, poll) =>
      case DoCycle(t) => CycleTracksNobody(s, t);
    }
  }
}
