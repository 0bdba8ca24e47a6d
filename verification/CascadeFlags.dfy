/** The cascade flag over whole runs. */
module CascadeFlags {
  import opened Basics
  import opened Processes
  import opened Resolution
  import opened Reaper
  import opened Manager
  import opened Invariants
  import opened ReapPhase
  import opened LaterPhases
  import opened FailFastPhase
  import opened Calls
  import opened Runs
  import opened Movement
  import opened Undisturbed
  import opened Cascades

  // ------------------------------------------------------- one cycle

  /** In this cycle the backoff wait of `id` ends and the restart sends it waiting for its dependencies. */
  ghost predicate SentWaiting(s: State, id: ProcessId, t: Tick) {
    var s3 := Reap(s, t);
    DueForRestart(s3.procs, id, t.now) && id in Restarts(s3, t).procs && Restarts(s3, t).procs[id].state.Waiting?
  }

  /** The flag after a restart of phase 4, given the flag before. */
  ghost predicate ClearedByWaiting(p: Process, q: Process) {
    q.cascadeFlag == (p.cascadeFlag && !q.state.Waiting?)
  }

  lemma OthersKeepCleared(s: State, s1: State, s': State, id: ProcessId, x: ProcessId)
    requires OthersPolled(s1, s', id) && x != id && x in s.procs && x in s1.procs
    requires ClearedByWaiting(s.procs[x], s1.procs[x])
    ensures x in s'.procs && ClearedByWaiting(s.procs[x], s'.procs[x])
  {
    assert PolledInto(s1.procs[x], s'.procs[x]);
  }

  lemma RestartAllFlags(s: State, ids: seq<ProcessId>, t: Tick, x: ProcessId)
    requires Invariant(s) && Distinct(ids) && AllRestarting(s, ids) && x in ids
    ensures x in s.procs
    ensures x in RestartAll(s, ids, t).procs ==> ClearedByWaiting(s.procs[x], RestartAll(s, ids, t).procs[x])
  {
    hide *;
    InvariantStructural(s);
    LastRestarting(s, ids);
    RestartAllStep(s, ids, t);
    var n := |ids| - 1;
    var s1, s' := RestartAll(s, ids[..n], t), RestartAll(s, ids, t);
    RestartAllAdvances(s, ids[..n], t);
    StillRestarting(s, s1, ids[..n], ids[n]);
    PerformRestartAdvances(s1, ids[n], t);
    if x == ids[n] {
      if x in s'.procs { FlagCleared(s1, t, x); }
    } else {
      RestartAllFlags(s, ids[..n], t, x);
      AdvancesShrinks(s1, s', x);
      if x in s'.procs { OthersKeepCleared(s, s1, s', ids[n], x); }
    }
  }

  lemma AdvancesShrinks(s: State, s': State, id: ProcessId)
    requires Advances(s, s')
    ensures id in s'.procs ==> id in s.procs
  {
    hide EventCount;
  }

  lemma FlagCleared(s: State, t: Tick, id: ProcessId)
    requires id in s.procs && s.procs[id].id == id && s.procs[id].state.Restarting?
    requires id in PerformRestart(s, id, t).procs
    ensures ClearedByWaiting(s.procs[id], PerformRestart(s, id, t).procs[id])
  {
    FlagThroughRestart(s, t, id);
    hide PerformRestart;
  }

  /** Phases 5 and 6 do not touch the flag. */
  lemma LaterKeepFlag(s: State, t: Tick, id: ProcessId)
    requires Invariant(s) && Faithful(t, s.procs.Keys)
    ensures var s' := FailFast(Waiters(s, t), t.order(AtFailFast));
            id in s'.procs ==> id in s.procs && s'.procs[id].cascadeFlag == s.procs[id].cascadeFlag
  {
    WaitersShape(s, t);
    FailFastKeepsEntries(Waiters(s, t), t.order(AtFailFast));
    hide Waiters, FailFast, Invariant, Faithful, VerdictOn;
  }

  /** Phase 4 clears the flag of whom it sends waiting, and of nobody else. */
  lemma RestartsFlag(s: State, t: Tick, id: ProcessId)
    requires Invariant(s) && Faithful(t, s.procs.Keys) && id in s.procs && id in Restarts(s, t).procs
    ensures Restarts(s, t).procs[id].cascadeFlag
       <==> s.procs[id].cascadeFlag && !(DueForRestart(s.procs, id, t.now) && Restarts(s, t).procs[id].state.Waiting?)
  {
    RestartIdsRestarting(s, t);
    var order := t.order(AtRestart);
    assert Enumerates(order, s.procs.Keys);
    RestartIdsAreDue(s.procs, order, t.now);
    hide Restarts, RestartAll, RestartIds, DueForRestart, Invariant, Faithful, PolledInto;
    if DueForRestart(s.procs, id, t.now) {
      RestartAllFlags(s, RestartIds(s.procs, order, t.now), t, id);
    } else {
      NotDuePolled(s, t, id);
      PolledKeepsMarks(s.procs[id], Restarts(s, t).procs[id]);
    }
  }

  /** Phases 1 to 3 set the flag of the cascade targets and clear it on the exits of the others. */
  lemma ReapFlag(s: State, t: Tick, id: ProcessId)
    requires Reachable(s) && Faithful(t, s.procs.Keys) && id in Reap(s, t).procs
    ensures id in s.procs
    ensures Reap(s, t).procs[id].cascadeFlag <==> GoesDown(s, id, t) || (s.procs[id].cascadeFlag && !ExitSeen(s, id, t))
  {
    assert id in s.procs;
    ReachableInvariant(s);
    hide Reap, GoesDown, ExitSeen, Faithful, Reachable, Invariant;
    if ExitSeen(s, id, t) {
      StaleFlagExact(s, id, t);
    } else {
      CascadeExact(s, id, t);
    }
  }

  /** What one cycle makes of the flag of a process that stays tracked. */
  lemma CycleFlag(s: State, t: Tick, id: ProcessId)
    requires Reachable(s) && Faithful(t, s.procs.Keys) && id in Cycle(s, t).procs
    ensures id in s.procs
    ensures Cycle(s, t).procs[id].cascadeFlag
       <==> (GoesDown(s, id, t) || (s.procs[id].cascadeFlag && !ExitSeen(s, id, t))) && !SentWaiting(s, id, t)
  {
    ReachableInvariant(s);
    var s3 := Reap(s, t);
    var s4 := Restarts(s3, t);
    assert SentWaiting(s, id, t) <==> DueForRestart(s3.procs, id, t.now) && id in s4.procs && s4.procs[id].state.Waiting?;
    hide *;
    ReapInvariant(s, t);
    AfterReapIs(s, t);
    RestartsAdvance(s3, t);
    AdvancesShrinks(s3, s4, id);
    AdvancesEvolves(s3, s4);
    FaithfulShrinks(t, s3.procs.Keys, s4.procs.Keys);
    LaterKeepFlag(s4, t, id);
    ReapFlag(s, t, id);
    RestartsFlag(s3, t, id);
  }

  // ------------------------------------------------------- every restart

  /** Which restarts reset the flag. An automatic one takes place in the cycle `step`:
      the flag stays if the process had it and its exit is not seen in this cycle, or
      if it exits and is itself taken down by another crash of the cycle, unless it is
      sent waiting first. A restart by hand keeps the flag if and only if it cuts a
      backoff wait short. */
  lemma RestartKeepsFlag(s: State, step: Step, id: ProcessId)
    requires Reachable(s) && Legal(s, step) && (step.DoCycle? || (step.DoRestart? && step.restarted == id))
    requires id in s.procs
    ensures id in Apply(s, step).procs ==>
              Apply(s, step).procs[id].cascadeFlag ==
                if step.DoCycle? then
                  (GoesDown(s, id, step.tick) || (s.procs[id].cascadeFlag && !ExitSeen(s, id, step.tick)))
                  && !SentWaiting(s, id, step.tick)
                else s.procs[id].cascadeFlag && s.procs[id].state.Restarting?
  {
    ReachableInvariant(s);
    hide Reachable, Invariant, Cycle, Restart, GoesDown, ExitSeen, SentWaiting, Faithful;
    if id !in Apply(s, step).procs {
    } else if step.DoCycle? {
      CycleLegal(s, step);
      CycleFlag(s, step.tick, id);
    } else if Forces(s, step, id) {
      ForcedStartsOver(s, step, id);
    } else {
      CallKeepsMarks(s, step, id);
    }
  }

  // ------------------------------------------------------- over runs

  ghost predicate SentWaitingAt(r: Run, k: nat, id: ProcessId) {
    CycleAt(r, k) && SentWaiting(r.states[k], id, r.steps[k].tick)
  }

  /** The k-th step clears the flag: it sees the exit of `id`, sends it waiting, or is a
      restart by hand that starts over. */
  ghost predicate ClearsAt(r: Run, k: nat, id: ProcessId) {
    SeenAt(r, k, id) || SentWaitingAt(r, k, id) || ForcedAt(r, k, id)
  }

  /** A crash took `id` down before state n, and nothing has cleared the flag since. */
  ghost predicate Marked(r: Run, n: nat, id: ProcessId) {
    exists k: nat :: k < n && DownAt(r, k, id) && !SentWaitingAt(r, k, id) && forall j: nat :: k < j < n ==> !ClearsAt(r, j, id)
  }

  lemma MarkedStep(r: Run, n: nat, id: ProcessId)
    requires 0 < n
    ensures Marked(r, n, id) <==>
              (DownAt(r, n - 1, id) && !SentWaitingAt(r, n - 1, id)) || (Marked(r, n - 1, id) && !ClearsAt(r, n - 1, id))
  {
    hide DownAt, SentWaitingAt, ClearsAt;
    if Marked(r, n - 1, id) && !ClearsAt(r, n - 1, id) {
      var k: nat :| k < n - 1 && DownAt(r, k, id) && !SentWaitingAt(r, k, id) && forall j: nat :: k < j < n - 1 ==> !ClearsAt(r, j, id);
      assert forall j: nat :: k < j < n ==> !ClearsAt(r, j, id);
    }
    if Marked(r, n, id) {
      var k: nat :| k < n && DownAt(r, k, id) && !SentWaitingAt(r, k, id) && forall j: nat :: k < j < n ==> !ClearsAt(r, j, id);
      if k < n - 1 { assert !ClearsAt(r, n - 1, id); }
    }
  }

  lemma ClearsIs(r: Run, k: nat, id: ProcessId)
    requires k < |r.steps| && k < |r.states|
    ensures SentWaitingAt(r, k, id) <==> r.steps[k].DoCycle? && SentWaiting(r.states[k], id, r.steps[k].tick)
    ensures ClearsAt(r, k, id) <==> SeenAt(r, k, id) || SentWaitingAt(r, k, id) || ForcedAt(r, k, id)
    ensures DownAt(r, k, id) ==> id in r.states[k].procs
  {
  }

  /** Nothing is marked that was not tracked all the time since. */
  lemma MarkedIsTracked(r: Run, n: nat, id: ProcessId)
    requires IsRun(r) && 0 < n < |r.states| && id !in r.states[n - 1].procs && id in r.states[n].procs
    ensures !Marked(r, n, id)
  {
    hide *;
    LastStep(r, n);
    forall k: nat | k < n ensures !DownAt(r, k, id) {
      ClearsIs(r, k, id);
      if DownAt(r, k, id) { TrackedBetween(r, k, n - 1, n, id); }
    }
    NotMarked(r, n, id);
  }

  lemma NotMarked(r: Run, n: nat, id: ProcessId)
    requires forall k: nat :: k < n ==> !DownAt(r, k, id)
    ensures !Marked(r, n, id)
  {
    hide DownAt;
  }

  /** A process that has just been started carries no flag. */
  lemma NewcomerUnflagged(s: State, step: Step, id: ProcessId)
    requires Invariant(s) && Legal(s, step) && id !in s.procs
    ensures id in Apply(s, step).procs ==> !Apply(s, step).procs[id].cascadeFlag
  {
    InvariantStructural(s);
    if step.DoStart? {
      StartMap(s, step.tag, step.config, step.start);
      PolledKeepsIdentity(s.procs, StartPolls(s.(nextId := s.nextId + 1), step.config, step.start).procs);
    } else {
      OnlyStartTracks(s, step);
    }
    hide Start, StartPolls, StartEntry, OnlyPolled, PolledInto, Rejected, Invariant, Structural, Stop, Restart, Cycle, Faithful;
  }

  /** The flag is exact over every run: a tracked process carries it if and only if at
      some earlier cycle a crash took it down, that cycle did not send it waiting, and no
      later step has seen it exit, sent it waiting, or restarted it by hand out of
      another state than its backoff wait. In particular a restart leaves the flag set,
      against its documentation, exactly when this still holds after it. */
  lemma FlagExact(r: Run, n: nat, id: ProcessId)
    requires IsRun(r) && n < |r.states| && id in r.states[n].procs
    ensures r.states[n].procs[id].cascadeFlag <==> Marked(r, n, id)
  {
    hide *;
    if n == 0 {
      InitialInvariant(r);
      NobodyAtFirst(id);
    } else {
      LastStep(r, n);
      RunInvariant(r, n - 1);
      ReachableAt(r, n - 1);
      var s, step := r.states[n - 1], r.steps[n - 1];
      if id !in s.procs {
        NewcomerUnflagged(s, step, id);
        MarkedIsTracked(r, n, id);
      } else {
        FlagExact(r, n - 1, id);
        MarkedStep(r, n, id);
        ClearsIs(r, n - 1, id);
        DownIs(r, n - 1, id);
        SeenIs(r, n - 1, id);
        ForcedIs(r, n - 1, id);
        if step.DoCycle? {
          CycleLegal(s, step);
          CycleFlag(s, step.tick, id);
        } else if Forces(s, step, id) {
          ForcedStartsOver(s, step, id);
        } else {
          CallKeepsMarks(s, step, id);
          MarksKept(s.procs[id], r.states[n].procs[id]);
        }
      }
    }
  }

  lemma MarksKept(p: Process, q: Process)
    requires KeepsMarks(p, q)
    ensures q.cascadeFlag == p.cascadeFlag
  {
  }

  lemma NobodyAtFirst(id: ProcessId)
    ensures id !in INITIAL.procs
  {
  }
}
