/** What the recorded times decide over a run. */
module Deadlines {
  import opened Basics
  import opened Backoff
  import opened Processes
  import opened Reaper
  import opened Invariants
  import opened ReapPhase
  import opened LaterPhases
  import opened FailFastPhase
  import opened BindingCounts
  import opened Movement
  import opened Cascades
  import opened Runs
  import opened Undisturbed
  import opened RateLimit
  import opened BackoffRuns
  import opened ChildHandles
  import opened StartTimes

  // ------------------------------------------------------ stable uptime

  /** The count after a cycle of a process that stays tracked through it. */
  lemma CountAfterCycle(s: State, t: Tick, id: ProcessId)
    requires Invariant(s) && Faithful(t, s.procs.Keys) && id in Cycle(s, t).procs
    ensures id in s.procs
    ensures var p, q := s.procs[id], Cycle(s, t).procs[id];
            RestartCount(q) == (if Resets(p, t.now) then 0 else RestartCount(p)) + if ExitSeen(s, id, t) && p.config.restartOnExit then 1 else 0
  {
    hide *;
    CycleParts(s, t, id);
    InvariantKeyed(s);
    ReapedCount(s, t, id);
    SettledCount(s.procs[id], t.now);
    MovesCount(Reap(s, t).procs[id], Cycle(s, t).procs[id]);
  }

  lemma MovesCount(p: Process, q: Process)
    requires Moves(p, q)
    ensures RestartCount(q) == RestartCount(p)
  {
  }

  /** The reset of the restart count over a run: a cycle forgets the count of a process
      exactly if it is Running under backoff and the minimum uptime has passed since the
      reading of the step that spawned it last; an exit the cycle sees adds one. */
  lemma ResetExact(r: Run, k: nat, id: ProcessId)
    requires IsRun(r) && k + 1 < |r.states| && CycleAt(r, k) && id in r.states[k].procs && id in r.states[k + 1].procs
    requires r.states[k].procs[id].config.restartOnExit
    ensures var p, q, t := r.states[k].procs[id], r.states[k + 1].procs[id], r.steps[k].tick;
            && p.restart.Some? && q.restart.Some?
            && var stable := p.state.Running? && p.config.restartPolicy.Backoff? && StartedAt(r, id, k).Some?
                             && Elapsed(StartedAt(r, id, k).value, t.now) >= p.config.restartPolicy.config.minUptime;
               q.restart.value.restartCount
               == (if stable then 0 else p.restart.value.restartCount) + if p.child.Some? && t.exit(id).Exited? then 1 else 0
  {
    var s, t := r.states[k], r.steps[k].tick;
    LastStep(r, k + 1);
    RunInvariant(r, k);
    RunInvariant(r, k + 1);
    RunEvolves(r, k, k + 1);
    CycleLegal(s, r.steps[k]);
    CountAfterCycle(s, t, id);
    assert WellFormed(s.procs[id]) && WellFormed(r.states[k + 1].procs[id]);
    ExitOutcome(s, id, t);
    if s.procs[id].state.Running? { StartTimeExact(r, id, k); }
    hide IsRun, Invariant, Legal, Cycle, Faithful, StartedAt, ExitSeen, Seen, Evolves, CountAtExit;
  }

  // ---------------------------------------- exits that come too soon after the start

  /** The k-th step is a cycle that sees `id` exit and schedules it for a restart. */
  ghost predicate ScheduledAt(r: Run, k: nat, id: ProcessId) {
    SeenAt(r, k, id) && id in Reap(r.states[k], r.steps[k].tick).procs
  }

  /** How often that happens in the first n steps. */
  ghost function Schedulings(r: Run, id: ProcessId, n: nat): nat {
    if n == 0 then 0 else Schedulings(r, id, n - 1) + if ScheduledAt(r, n - 1, id) then 1 else 0
  }

  /** If the k-th step sees `id` exit, it does so without the flag and less than the minimum
      uptime after the reading of its last spawn. */
  ghost predicate BriefAt(r: Run, k: nat, id: ProcessId, c: BackoffConfig)
    requires IsRun(r)
  {
    SeenAt(r, k, id) ==>
      && !r.states[k].procs[id].cascadeFlag
      && (StartedAt(r, id, k).Some? ==> Elapsed(StartedAt(r, id, k).value, NowAt(r, k)) < c.minUptime)
  }

  /** Nobody restarts `id` by hand in the k-th step. */
  ghost predicate LeftAlone(r: Run, k: nat, id: ProcessId) {
    k < |r.steps| && !(r.steps[k].DoRestart? && r.steps[k].restarted == id)
  }

  /** An earlier cycle has seen the minimum uptime pass since the last spawn of `id`. */
  ghost predicate Outlived(r: Run, id: ProcessId, n: nat, c: BackoffConfig)
    requires IsRun(r) && n < |r.states|
  {
    StartedAt(r, id, n).Some? && exists j :: 0 <= j < n && PastUptime(r, j, StartedAt(r, id, n).value, c)
  }

  ghost predicate PastUptime(r: Run, j: nat, since: Time, c: BackoffConfig) {
    CycleAt(r, j) && Elapsed(since, NowAt(r, j)) >= c.minUptime
  }

  /** The restarts scheduled so far are on the count, unless the child has outlived its
      minimum uptime since; before an id is handed out there are none. */
  ghost predicate OnCount(r: Run, id: ProcessId, n: nat, c: BackoffConfig)
    requires IsRun(r) && n < |r.states|
  {
    && Schedulings(r, id, n) <= c.maxRestarts
    && (id in r.states[n].procs ==>
          var p := r.states[n].procs[id];
          RestartCount(p) == Schedulings(r, id, n) || (p.child.Some? && Outlived(r, id, n, c)))
    && (id !in r.states[n].procs && r.states[n].nextId <= id ==> Schedulings(r, id, n) == 0)
  }

  /** A child whose exit is not seen outlasts the cycle, and nothing is spawned in its place. */
  lemma ChildOutlasts(s: State, t: Tick, id: ProcessId)
    requires Invariant(s) && Faithful(t, s.procs.Keys) && id in Cycle(s, t).procs
    requires id in s.procs && s.procs[id].child.Some? && !ExitSeen(s, id, t)
    ensures Cycle(s, t).procs[id].child.Some? && !IsSpawned(s, Cycle(s, t), id)
  {
    hide *;
    CycleParts(s, t, id);
    ReapedHandle(s, t, id);
    CycleKeeps(s, t);
    CountsMonotone(s, Cycle(s, t), id);
    HeldIs(Reap(s, t), id);
    HeldIs(Cycle(s, t), id);
    IsSpawnedIs(s, Cycle(s, t), id);
  }

  lemma StartedAtStep(r: Run, id: ProcessId, n: nat)
    requires IsRun(r) && 0 < n < |r.states|
    ensures !IsSpawned(r.states[n - 1], r.states[n], id) ==> StartedAt(r, id, n) == StartedAt(r, id, n - 1)
  {
    hide IsRun, IsSpawned;
  }

  lemma SchedulingsStep(r: Run, id: ProcessId, n: nat)
    requires 0 < n
    ensures Schedulings(r, id, n) == Schedulings(r, id, n - 1) + if ScheduledAt(r, n - 1, id) then 1 else 0
    ensures Schedulings(r, id, 0) == 0
  {
    hide ScheduledAt;
  }

  lemma OutlivedOn(r: Run, id: ProcessId, n: nat, c: BackoffConfig)
    requires IsRun(r) && 0 < n < |r.states| && StartedAt(r, id, n) == StartedAt(r, id, n - 1)
    requires Outlived(r, id, n - 1, c) || (StartedAt(r, id, n).Some? && PastUptime(r, n - 1, StartedAt(r, id, n).value, c))
    ensures Outlived(r, id, n, c)
  {
    hide IsRun, StartedAt, PastUptime;
  }

  /** The clock readings that open the cycles of the run never go back. */
  ghost predicate ClockGoesOn(r: Run) {
    forall j, k :: 0 <= j <= k && CycleAt(r, j) && CycleAt(r, k) ==> NowAt(r, j) <= NowAt(r, k)
  }

  /** An exit that comes so soon is not in such a cycle, and has none before it. */
  lemma BriefNotOutlived(r: Run, id: ProcessId, k: nat, c: BackoffConfig)
    requires IsRun(r) && k < |r.states| && CycleAt(r, k) && ClockGoesOn(r)
    requires BriefAt(r, k, id, c) && SeenAt(r, k, id)
    ensures StartedAt(r, id, k).Some? ==> !PastUptime(r, k, StartedAt(r, id, k).value, c)
    ensures !Outlived(r, id, k, c) && id in r.states[k].procs && !r.states[k].procs[id].cascadeFlag
  {
    SeenIs(r, k, id);
    hide IsRun, StartedAt, SeenAt, NowAt, CycleAt;
    forall j | 0 <= j <= k && StartedAt(r, id, k).Some? ensures !PastUptime(r, j, StartedAt(r, id, k).value, c) {
      assert CycleAt(r, j) ==> NowAt(r, j) <= NowAt(r, k);
    }
  }

  /** A reset tells that the minimum uptime has passed since the last spawn. */
  lemma ResetPastUptime(r: Run, id: ProcessId, k: nat, c: BackoffConfig)
    requires IsRun(r) && k < |r.states| && CycleAt(r, k) && id in r.states[k].procs
    requires r.states[k].procs[id].config.restartPolicy == RestartPolicy.Backoff(c) && Resets(r.states[k].procs[id], NowAt(r, k))
    ensures r.states[k].procs[id].child.Some? && StartedAt(r, id, k).Some? && PastUptime(r, k, StartedAt(r, id, k).value, c)
  {
    RunInvariant(r, k);
    assert WellFormed(r.states[k].procs[id]);
    StartTimeExact(r, id, k);
    hide IsRun, Invariant, StartedAt, NowAt, CycleAt;
  }

  lemma OnCountIs(r: Run, id: ProcessId, n: nat, c: BackoffConfig)
    requires IsRun(r) && n < |r.states| && id < r.states[n].nextId
    ensures OnCount(r, id, n, c) <==>
              && Schedulings(r, id, n) <= c.maxRestarts
              && (id in r.states[n].procs ==>
                    || RestartCount(r.states[n].procs[id]) == Schedulings(r, id, n)
                    || (r.states[n].procs[id].child.Some? && Outlived(r, id, n, c)))
  {
    hide Schedulings, RestartCount, Outlived, IsRun;
  }

  /** An exit without the flag is scheduled only below the limit. */
  lemma ScheduledBelowLimit(s: State, t: Tick, id: ProcessId, c: BackoffConfig)
    requires id in s.procs && WellFormed(s.procs[id]) && ExitSeen(s, id, t) && id in Reap(s, t).procs
    requires !s.procs[id].cascadeFlag && s.procs[id].config.restartPolicy == RestartPolicy.Backoff(c)
    ensures s.procs[id].config.restartOnExit
    ensures (if Resets(s.procs[id], t.now) then 0 else RestartCount(s.procs[id])) < c.maxRestarts
  {
    ExitOutcome(s, id, t);
    ReapIs(s, t, id);
    hide Seen, Leaves, Reap, ExitSeen;
  }

  lemma CycleOnCount(r: Run, id: ProcessId, n: nat, c: BackoffConfig)
    requires IsRun(r) && 0 < n < |r.states| && CycleAt(r, n - 1) && id in r.states[n - 1].procs
    requires r.states[n - 1].procs[id].config.restartPolicy == RestartPolicy.Backoff(c)
    requires ClockGoesOn(r) && BriefAt(r, n - 1, id, c) && OnCount(r, id, n - 1, c)
    ensures OnCount(r, id, n, c)
  {
    hide *;
    LastStep(r, n);
    RunInvariant(r, n - 1);
    NowIs(r, n - 1);
    var s, s', t := r.states[n - 1], r.states[n], r.steps[n - 1].tick;
    var p := s.procs[id];
    SeenIs(r, n - 1, id);
    CycleLegal(s, r.steps[n - 1]);
    SchedulingsStep(r, id, n);
    ScheduledIs(r, n - 1, id);
    InvariantKeyed(s);
    InvariantStructural(s);
    TrackedBelowNext(s, id);
    HandedOut(s, s', r.steps[n - 1], id);
    OnCountIs(r, id, n - 1, c);
    OnCountIs(r, id, n, c);
    if id in s'.procs {
      CycleParts(s, t, id);
      CountAfterCycle(s, t, id);
    }
    if Resets(p, t.now) { ResetPastUptime(r, id, n - 1, c); }
    if ExitSeen(s, id, t) {
      BriefNotOutlived(r, id, n - 1, c);
      if id in Reap(s, t).procs { ScheduledBelowLimit(s, t, id, c); }
    } else if id in s'.procs && p.child.Some? {
      ChildOutlasts(s, t, id);
      StartedAtStep(r, id, n);
      if Outlived(r, id, n - 1, c) || Resets(p, t.now) { OutlivedOn(r, id, n, c); }
    }
  }

  lemma ScheduledIs(r: Run, k: nat, id: ProcessId)
    requires k < |r.steps| && k < |r.states|
    ensures ScheduledAt(r, k, id) <==> SeenAt(r, k, id) && id in Reap(r.states[k], r.steps[k].tick).procs
  {
    hide Reap, ExitSeen;
  }

  lemma TrackedBelowNext(s: State, id: ProcessId)
    requires Structural(s) && id in s.procs
    ensures id < s.nextId
  {
  }

  lemma HandedOut(s: State, s': State, step: Step, id: ProcessId)
    requires Invariant(s) && Legal(s, step) && s' == Apply(s, step) && id in s.procs
    ensures id < s'.nextId
  {
    hide *;
    StepKeeps(s, step);
    InvariantStructural(s);
    BelowNext(s, s', id);
  }

  /** Calls put nothing on the count, except that a start begins with none. */
  lemma CallOnCount(r: Run, id: ProcessId, n: nat, c: BackoffConfig)
    requires IsRun(r) && 0 < n < |r.states| && !CycleAt(r, n - 1) && LeftAlone(r, n - 1, id) && id in r.states[n - 1].procs
    requires OnCount(r, id, n - 1, c)
    ensures OnCount(r, id, n, c)
  {
    hide *;
    LastStep(r, n);
    RunInvariant(r, n - 1);
    NowIs(r, n - 1);
    var s, s', step := r.states[n - 1], r.states[n], r.steps[n - 1];
    LeftAloneIs(r, n - 1, id);
    SeenIs(r, n - 1, id);
    SchedulingsStep(r, id, n);
    ScheduledIs(r, n - 1, id);
    InvariantStructural(s);
    TrackedBelowNext(s, id);
    HandedOut(s, s', step, id);
    OnCountIs(r, id, n - 1, c);
    OnCountIs(r, id, n, c);
    if id in s'.procs {
      OtherCallsKeepCount(s, step, id);
      CallKeepsTimes(s, step, id);
      KeepsChild(s.procs[id], s'.procs[id]);
      StartedAtStep(r, id, n);
      if Outlived(r, id, n - 1, c) { OutlivedOn(r, id, n, c); }
    }
  }

  lemma LeftAloneIs(r: Run, k: nat, id: ProcessId)
    requires LeftAlone(r, k, id)
    ensures k < |r.steps| && !(r.steps[k].DoRestart? && r.steps[k].restarted == id)
  {
  }

  lemma KeepsChild(p: Process, q: Process)
    requires KeepsTimes(p, q)
    ensures q.child == p.child
  {
  }

  /** Before it is tracked nothing is counted for an id, and once it is gone nothing more. */
  lemma UntrackedOnCount(r: Run, id: ProcessId, n: nat, c: BackoffConfig)
    requires IsRun(r) && 0 < n < |r.states| && id !in r.states[n - 1].procs && OnCount(r, id, n - 1, c)
    ensures OnCount(r, id, n, c)
  {
    hide *;
    LastStep(r, n);
    RunInvariant(r, n - 1);
    var s, step := r.states[n - 1], r.steps[n - 1];
    SeenIs(r, n - 1, id);
    SchedulingsStep(r, id, n);
    NotSeenNotScheduled(r, n - 1, id);
    StepKeeps(s, step);
    NextIdGrows(s, r.states[n]);
    if id in r.states[n].procs {
      NewlyTracked(s, step, id);
      NewlyTrackedCount(s, step, id);
    }
    UncountedStep(r, id, n, c);
  }

  lemma NotSeenNotScheduled(r: Run, k: nat, id: ProcessId)
    ensures ScheduledAt(r, k, id) ==> SeenAt(r, k, id)
  {
    hide SeenAt, Reap;
  }

  lemma NextIdGrows(s: State, s': State)
    requires Evolves(s, s')
    ensures s.nextId <= s'.nextId
  {
  }

  lemma UncountedStep(r: Run, id: ProcessId, n: nat, c: BackoffConfig)
    requires IsRun(r) && 0 < n < |r.states| && id !in r.states[n - 1].procs && OnCount(r, id, n - 1, c)
    requires Schedulings(r, id, n) == Schedulings(r, id, n - 1) && r.states[n - 1].nextId <= r.states[n].nextId
    requires id in r.states[n].procs ==> r.states[n - 1].nextId <= id && RestartCount(r.states[n].procs[id]) == 0
    ensures OnCount(r, id, n, c)
  {
    hide IsRun, Schedulings, RestartCount, Outlived;
  }

  /** Every exit of `id` in the run comes less than the minimum uptime after its spawn and
      without the flag, nobody restarts it by hand, and its policy is the backoff `c`. */
  ghost predicate AlwaysBrief(r: Run, id: ProcessId, c: BackoffConfig)
    requires IsRun(r)
  {
    && (forall k :: 0 <= k < |r.steps| ==> BriefAt(r, k, id, c) && LeftAlone(r, k, id))
    && (forall k :: 0 <= k < |r.states| ==> HasPolicy(r.states[k], id, c))
  }

  ghost predicate HasPolicy(s: State, id: ProcessId, c: BackoffConfig) {
    id in s.procs ==> s.procs[id].config.restartPolicy == RestartPolicy.Backoff(c)
  }

  lemma RunOnCount(r: Run, id: ProcessId, n: nat, c: BackoffConfig)
    requires IsRun(r) && n < |r.states| && ClockGoesOn(r) && AlwaysBrief(r, id, c)
    ensures OnCount(r, id, n, c)
  {
    hide *;
    if n == 0 {
      InitialInvariant(r);
      NothingOnCount(r, id, c);
    } else {
      RunOnCount(r, id, n - 1, c);
      LastStep(r, n);
      BriefHere(r, n - 1, id, c);
      if id !in r.states[n - 1].procs {
        UntrackedOnCount(r, id, n, c);
      } else if CycleAt(r, n - 1) {
        CycleOnCount(r, id, n, c);
      } else {
        CallOnCount(r, id, n, c);
      }
    }
  }

  lemma BriefHere(r: Run, k: nat, id: ProcessId, c: BackoffConfig)
    requires IsRun(r) && k < |r.steps| && k < |r.states| && AlwaysBrief(r, id, c)
    ensures BriefAt(r, k, id, c) && LeftAlone(r, k, id)
    ensures id in r.states[k].procs ==> r.states[k].procs[id].config.restartPolicy == RestartPolicy.Backoff(c)
  {
    assert HasPolicy(r.states[k], id, c);
    hide IsRun, BriefAt, LeftAlone;
  }

  lemma NothingOnCount(r: Run, id: ProcessId, c: BackoffConfig)
    requires IsRun(r) && r.states[0] == INITIAL
    ensures OnCount(r, id, 0, c)
  {
  }

  lemma SamePolicy(r: Run, id: ProcessId, m: nat, k: nat)
    requires IsRun(r) && m < |r.states| && k < |r.states| && id in r.states[m].procs && id in r.states[k].procs
    ensures r.states[k].procs[id].config == r.states[m].procs[id].config
  {
    if m <= k { RunEvolves(r, m, k); } else { RunEvolves(r, k, m); }
    hide IsRun;
  }

  /** The limit binds over a whole run: a process under backoff that never stays up for its
      minimum uptime, counted from the reading of each spawn, is scheduled for a restart at
      most as often as the limit says, if no exit is excused by the flag and nobody restarts it by hand. */
  lemma BriefLivesBounded(r: Run, id: ProcessId, m: nat, c: BackoffConfig)
    requires IsRun(r) && ClockGoesOn(r) && m < |r.states| && id in r.states[m].procs
    requires r.states[m].procs[id].config.restartPolicy == RestartPolicy.Backoff(c)
    requires forall k :: 0 <= k < |r.steps| ==> BriefAt(r, k, id, c) && LeftAlone(r, k, id)
    ensures Schedulings(r, id, |r.steps|) <= c.maxRestarts
  {
    forall k | 0 <= k < |r.states| ensures HasPolicy(r.states[k], id, c) {
      if id in r.states[k].procs { SamePolicy(r, id, m, k); }
    }
    assert |r.states| == |r.steps| + 1;
    hide IsRun, ClockGoesOn, BriefAt, LeftAlone, HasPolicy, Schedulings;
    RunOnCount(r, id, |r.steps|, c);
  }

  // ----------------------------------------------------- dependency timeouts

  /** When a cycle takes a Waiting process out of the map, exactly: its dependency timeout
      has passed since the reading of the step that sent it waiting; or a binding is lost and
      there is nothing new to bind; or it was ready and its spawn failed. */
  lemma TimeoutExact(r: Run, k: nat, id: ProcessId)
    requires IsRun(r) && k + 1 < |r.states| && CycleAt(r, k) && WaitingAt(r.states[k], id)
    ensures WaitingFrom(r, id, k).Some?
    ensures var p, t := r.states[k].procs[id], r.steps[k].tick;
            var procs := Restarts(Reap(r.states[k], t), t).procs;
            var v := Judge(procs, p, t.order(AtLookup(id)), t.clock(OnTimeoutCheck(id)));
            id !in r.states[k + 1].procs <==>
              || Elapsed(WaitingFrom(r, id, k).value, t.clock(OnTimeoutCheck(id))) >= p.config.dependencyTimeout
              || (LostOne(procs, p.resolvedDeps)
                  && (|p.resolvedDeps| == |p.config.dependsOn|
                      || forall i :: 0 <= i < |p.config.dependsOn| ==> NothingToBind(procs, p.resolvedDeps, p.config.dependsOn[i])))
              || (t.spawn(id).None? && |v.resolvedDeps| == |p.config.dependsOn|
                  && forall i :: 0 <= i < |v.resolvedDeps| ==>
                       v.resolvedDeps[i] in procs && procs[v.resolvedDeps[i]].state.Running?)
  {
    var s, t := r.states[k], r.steps[k].tick;
    LastStep(r, k + 1);
    RunInvariant(r, k);
    CycleLegal(s, r.steps[k]);
    WaitTimeExact(r, id, k);
    WaiterFate(s, t, id);
    hide IsRun, Invariant, Legal, Cycle, Faithful, Reap, Restarts, WaitingFrom, LostOne, NothingToBind, Judge;
  }

  lemma WaiterFate(s: State, t: Tick, id: ProcessId)
    requires Invariant(s) && Faithful(t, s.procs.Keys) && WaitingAt(s, id)
    ensures var p, procs := s.procs[id], Restarts(Reap(s, t), t).procs;
            var v := Judge(procs, p, t.order(AtLookup(id)), t.clock(OnTimeoutCheck(id)));
            id !in Cycle(s, t).procs <==>
              || (p.waitingSince.Some? && Elapsed(p.waitingSince.value, t.clock(OnTimeoutCheck(id))) >= p.config.dependencyTimeout)
              || (LostOne(procs, p.resolvedDeps)
                  && (|p.resolvedDeps| == |p.config.dependsOn|
                      || forall i :: 0 <= i < |p.config.dependsOn| ==> NothingToBind(procs, p.resolvedDeps, p.config.dependsOn[i])))
              || (t.spawn(id).None? && |v.resolvedDeps| == |p.config.dependsOn|
                  && forall i :: 0 <= i < |v.resolvedDeps| ==>
                       v.resolvedDeps[i] in procs && procs[v.resolvedDeps[i]].state.Running?)
  {
    var p, s3 := s.procs[id], Reap(s, t);
    var s4 := Restarts(s3, t);
    WaitingIsIdle(s, id);
    IdleUntouched(s, t, id);
    ReapInvariant(s, t);
    RestartsAdvance(s3, t);
    AdvancesEvolves(s3, s4);
    FaithfulShrinks(t, s3.procs.Keys, s4.procs.Keys);
    assert Enumerates(t.order(AtLookup(id)), s4.procs.Keys);
    TerminalSpared(s4.procs, p, t.order(AtLookup(id)), t.clock(OnTimeoutCheck(id)));
    ReadyExactly(s4.procs, p, t.order(AtLookup(id)), t.clock(OnTimeoutCheck(id)));
    WaitersShape(s4, t);
    AfterReapIs(s, t);
    hide Reap, Restarts, Waiters, FailFast, Cycle, Invariant, Faithful, Judge, LostOne, NothingToBind, Evolves, ResolvedCount;
    WaiterInPhase6(s4, t, id);
  }

  /** Phase 6 removes nobody that phase 5 has judged. */
  lemma WaiterInPhase6(s: State, t: Tick, id: ProcessId)
    requires Invariant(s) && Faithful(t, s.procs.Keys) && WaitingAt(s, id)
    ensures id in FailFast(Waiters(s, t), t.order(AtFailFast)).procs <==> id in Waiters(s, t).procs
  {
    WaitersShape(s, t);
    FailFastKeepsEntries(Waiters(s, t), t.order(AtFailFast));
    if id in Waiters(s, t).procs { FailFastSparesOthers(Waiters(s, t), t.order(AtFailFast), id); }
    hide Waiters, FailFast, Invariant, Faithful, VerdictOn;
  }
}
