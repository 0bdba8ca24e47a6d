/** When the reaper spawns, step by step. */
module SpawnConditions {
  import opened Basics
  import opened Processes
  import opened Resolution
  import opened Reaper
  import opened Invariants
  import opened LaterPhases
  import opened WaitingPhase
  import opened Movement
  import opened Answers

  /** An automatic restart, exactly. Every reference is bound to a live process, or none is.
      If everything bound is found up by its poll, every reference is met, and the process
      comes back with the child its spawn answers, or goes if the spawn fails. Otherwise it
      waits from that moment on. */
  lemma RestartDecided(s: State, t: Tick, id: ProcessId) returns (bound: seq<ProcessId>)
    requires Invariant(s) && Enumerates(t.order(AtLookup(id)), s.procs.Keys)
    requires id in s.procs && s.procs[id].state.Restarting? && s.procs[id].config.dependsOn != []
    ensures BindsAll(s.procs, s.procs[id].config.dependsOn, bound)
    ensures var after, deps := PerformRestart(s, id, t).procs, s.procs[id].config.dependsOn;
            && (id in after ==> after[id].resolvedDeps == bound)
            && if |bound| == |deps| && AllFoundUp(s.procs, bound, (n: nat) => t.recheck(id, n)) then
                 && AllUp(after, deps)
                 && (id in after <==> t.spawn(id).Some?)
                 && (id in after ==> after[id].state.Starting? && after[id].child == t.spawn(id))
               else
                 && id in after && after[id].state.Waiting? && after[id].child.None?
                 && after[id].waitingSince == Some(t.clock(OnRestart(id)))
  {
    var p, polled, after := s.procs[id], RestartPolls(s, id, t), PerformRestart(s, id, t).procs;
    bound := Bindings(s.procs, t.order(AtLookup(id)), p.config.dependsOn);
    BindingsBindAll(s.procs, t.order(AtLookup(id)), p.config.dependsOn);
    RestartIs(s, id, t);
    RestartPollsMet(s, id, t, bound);
    hide *;
    if polled.ok { AllUpGrows(polled.procs, after, p.config.dependsOn); }
  }

  lemma RestartPollsMet(s: State, id: ProcessId, t: Tick, bound: seq<ProcessId>)
    requires Invariant(s) && id in s.procs && s.procs[id].state.Restarting?
    requires bound == Bindings(s.procs, t.order(AtLookup(id)), s.procs[id].config.dependsOn)
    ensures var polled := RestartPolls(s, id, t);
            && id in polled.procs && polled.procs[id] == s.procs[id]
            && (polled.ok <==>
                  |bound| == |s.procs[id].config.dependsOn| && AllFoundUp(s.procs, bound, (n: nat) => t.recheck(id, n)))
            && (polled.ok ==> AllUp(polled.procs, s.procs[id].config.dependsOn))
  {
    RestartPollsOnlyPoll(s, id, t);
    assert PolledInto(s.procs[id], RestartPolls(s, id, t).procs[id]);
    PollDepsByAnswer(s.procs, bound, (n: nat) => t.recheck(id, n));
    hide Bindings, PollDeps, AllUp, Invariant, RunningLabels, AllMet, FoundUp;
    if RestartPolls(s, id, t).ok {
      RestartPollsMeet(s, id, t);
      AllUpIs(RestartPolls(s, id, t).procs, s.procs[id].config.dependsOn);
    }
  }

  /** What the restart leaves, field by field; nobody else changes after the polls. */
  lemma RestartIs(s: State, id: ProcessId, t: Tick)
    requires Invariant(s) && id in s.procs && s.procs[id].state.Restarting? && s.procs[id].config.dependsOn != []
    ensures var polled, after := RestartPolls(s, id, t), PerformRestart(s, id, t).procs;
            var bound := Bindings(s.procs, t.order(AtLookup(id)), s.procs[id].config.dependsOn);
            && (forall x :: x != id ==> (x in after <==> x in polled.procs) && (x in after ==> after[x] == polled.procs[x]))
            && (id in after ==> after[id].resolvedDeps == bound && !after[id].state.Running?)
            && if polled.ok then
                 && (id in after <==> t.spawn(id).Some?)
                 && (id in after ==> after[id].state.Starting? && after[id].child == t.spawn(id))
               else
                 && id in after && after[id].state.Waiting? && after[id].child.None?
                 && after[id].waitingSince == Some(t.clock(OnRestart(id)))
  {
    InvariantStructural(s);
    RestartPollsOnlyPoll(s, id, t);
    assert PolledInto(s.procs[id], RestartPolls(s, id, t).procs[id]);
    assert s.procs[id].id == id && s.procs[id].child.None?;
    hide Bindings, PollDeps, Invariant, Structural, RespawnOrFail, RunningLabels;
    if RestartPolls(s, id, t).ok { RespawnIsSeen(Rebound(s, id, t), id, t); }
  }

  lemma RespawnIsSeen(s: State, id: ProcessId, t: Tick)
    requires id in s.procs && s.procs[id].id == id
    ensures var after := RespawnOrFail(s, id, t).procs;
            && (forall x :: x != id ==> (x in after <==> x in s.procs) && (x in after ==> after[x] == s.procs[x]))
            && (id in after <==> t.spawn(id).Some?)
            && (id in after ==> after[id].state.Starting? && after[id].child == t.spawn(id) && after[id].resolvedDeps == s.procs[id].resolvedDeps)
  {
    hide RunningLabels;
  }

  /** Phase 5 gives a child only to whoever has every reference met by a process that is
      Running before it begins. */
  lemma ReadyWhenSpawned(s: State, t: Tick, id: ProcessId)
    requires Invariant(s) && Faithful(t, s.procs.Keys) && id in s.procs && s.procs[id].state.Waiting?
    requires id in Waiters(s, t).procs && Waiters(s, t).procs[id].child.Some?
    ensures AllUp(s.procs, s.procs[id].config.dependsOn)
  {
    assert WellFormed(s.procs[id]);
    WaitersShape(s, t);
    ToSpawnIsReady(s, t, id);
    AllUpIs(s.procs, s.procs[id].config.dependsOn);
    hide Waiters, VerdictOn, Invariant, Faithful, AllUp, AllMet, RunningLabels;
  }
}
