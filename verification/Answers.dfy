/** What the calls answer. */
module Answers {
  import opened Basics
  import opened Processes
  import opened Resolution
  import opened Manager
  import opened Invariants
  import opened CascadeStop
  import opened LaterPhases
  import opened Calls

  // ------------------------------------------------------------------ start

  /** When `start` answers what: Ok exactly if the new id is tracked afterwards. The others
      stay and are at most polled. */
  lemma StartAnswers(s: State, tag: Label, config: ProcessConfig, e: StartEnv)
    requires Structural(s)
    ensures var r := Start(s, tag, config, e);
            && (r.result == Ok <==> s.nextId in r.state.procs)
            && (r.result == Err(EmptyCommand) <==> config.command == "")
            && (r.result == Err(DependencyCycle) <==> config.command != "" && Rejected(s, tag, config, e))
            && (r.result == Err(SpawnFailed) ==> e.spawn.None?)
            && (r.result.Err? ==> r.result.error.EmptyCommand? || r.result.error.DependencyCycle? || r.result.error.SpawnFailed?)
            && (forall x :: x in r.state.procs ==> x == s.nextId || (x in s.procs && PolledInto(s.procs[x], r.state.procs[x])))
            && s.procs.Keys <= r.state.procs.Keys
            && r.state.nextId == s.nextId + (if config.command == "" then 0 else 1)
            && r.state.nextSequence == s.nextSequence + (if r.result.Ok? then 1 else 0)
  {
    NextIdUnused(s);
    StartPollsMeet(s.(nextId := s.nextId + 1), config, e);
    PolledIntoSelf(s.procs);
    hide Bindings, PollDeps, Rejected, WellFormed, RunningLabels, PolledInto;
  }

  /** Nobody with the label is Running or Starting. */
  ghost predicate NobodyLive(procs: ProcessMap, tag: Label) {
    forall x :: x in procs && procs[x].tag == tag ==> !procs[x].state.Running? && !procs[x].state.Starting?
  }

  /** A resolution binds each reference by id to that id and each by label to a process with
      the label that is Running or Starting, or it binds nothing, because some label has none. */
  ghost predicate BindsAll(procs: ProcessMap, deps: seq<DependencyRef>, bound: seq<ProcessId>) {
    if |bound| == |deps| then
      forall k :: 0 <= k < |deps| ==>
        match deps[k]
        case OnId(x) => bound[k] == x
        case OnLabel(tag) =>
          bound[k] in procs && procs[bound[k]].tag == tag && (procs[bound[k]].state.Running? || procs[bound[k]].state.Starting?)
    else
      bound == [] && exists k :: 0 <= k < |deps| && deps[k].OnLabel? && NobodyLive(procs, deps[k].tag)
  }

  lemma BindingsBindAll(procs: ProcessMap, order: seq<ProcessId>, deps: seq<DependencyRef>)
    requires Enumerates(order, procs.Keys)
    ensures BindsAll(procs, deps, Bindings(procs, order, deps))
  {
    var bound := Bindings(procs, order, deps);
    if |bound| == |deps| {
      forall k | 0 <= k < |deps| ensures Binds(procs, deps[k], bound[k]) { }
    } else {
      var k :| 0 <= k < |deps| && ResolveOne(procs, order, deps[k]).None?;
      assert deps[k].OnLabel?;
      forall x | x in procs && procs[x].tag == deps[k].tag ensures !procs[x].state.Running? && !procs[x].state.Starting? {
        assert x in order && !Matches(procs, x, deps[k].tag, true);
      }
    }
    hide Resolve, Find;
  }

  /** Each reference is met by a process that is Running. */
  ghost predicate AllUp(procs: ProcessMap, deps: seq<DependencyRef>) {
    forall k :: 0 <= k < |deps| ==>
      match deps[k]
      case OnId(x) => x in procs && procs[x].state.Running?
      case OnLabel(tag) => exists x :: x in procs && procs[x].tag == tag && procs[x].state.Running?
  }

  lemma AllUpIs(procs: ProcessMap, deps: seq<DependencyRef>)
    requires AllMet(deps, RunningLabels(procs))
    ensures AllUp(procs, deps)
  {
    forall k | 0 <= k < |deps| && deps[k].OnLabel?
      ensures exists x :: x in procs && procs[x].tag == deps[k].tag && procs[x].state.Running?
    {
      assert Met(deps[k], RunningLabels(procs));
      var x :| x in RunningLabels(procs) && RunningLabels(procs)[x] == deps[k].tag;
      assert x in procs && procs[x].tag == deps[k].tag && procs[x].state.Running?;
    }
    forall k | 0 <= k < |deps| && deps[k].OnId? ensures deps[k].id in procs && procs[deps[k].id].state.Running? {
      assert Met(deps[k], RunningLabels(procs));
    }
  }

  lemma AllUpGrows(procs: ProcessMap, after: ProcessMap, deps: seq<DependencyRef>)
    requires AllUp(procs, deps) && forall x :: x in procs && procs[x].state.Running? ==> x in after && after[x] == procs[x]
    ensures AllUp(after, deps)
  {
    forall k | 0 <= k < |deps| && deps[k].OnLabel?
      ensures exists x :: x in after && after[x].tag == deps[k].tag && after[x].state.Running?
    {
      var x :| x in procs && procs[x].tag == deps[k].tag && procs[x].state.Running?;
      assert x in after && after[x].tag == deps[k].tag && after[x].state.Running?;
    }
  }

  lemma AcceptedIs(s: State, tag: Label, config: ProcessConfig, e: StartEnv)
    requires Start(s, tag, config, e).result.Ok?
    ensures var s1 := s.(nextId := s.nextId + 1);
            var polled, p := StartPolls(s1, config, e), StartEntry(s1, s.nextId, tag, config, e);
            && Start(s, tag, config, e).state.procs == polled.procs[s.nextId := p]
            && p.tag == tag && p.config == config && !p.cascadeFlag && p.spawnSequence == s.nextSequence && p.id == s.nextId
            && p.resolvedDeps == Bindings(s.procs, e.order, config.dependsOn)
            && (if polled.ok then p.state.Starting? && p.child.Some? && p.child == e.spawn && p.pid == e.spawn.value
                else p.state.Waiting? && p.child.None? && p.waitingSince == Some(e.clock))
            && (polled.ok <==> |p.resolvedDeps| == |config.dependsOn| && AllFoundUp(s.procs, p.resolvedDeps, e.polls))
  {
    PollDepsByAnswer(s.procs, Bindings(s.procs, e.order, config.dependsOn), e.polls);
    hide Rejected, RunningLabels, FoundUp;
  }

  /** The poll of each process in `bound` finds it up. */
  ghost predicate AllFoundUp(procs: ProcessMap, bound: seq<ProcessId>, polls: nat -> Poll) {
    forall k :: 0 <= k < |bound| ==> FoundUp(procs, bound[k], polls(k))
  }

  /** An accepted newcomer has every reference bound to a live process, or no binding at all.
      It is spawned exactly if everything it is bound to is found up by its poll, and then
      every reference is met; otherwise it waits from that moment on. */
  lemma NewcomerFate(s: State, tag: Label, config: ProcessConfig, e: StartEnv)
    requires Structural(s) && Enumerates(e.order, s.procs.Keys) && Start(s, tag, config, e).result.Ok?
    ensures var after, deps := Start(s, tag, config, e).state.procs, config.dependsOn;
            && s.nextId in after
            && var q := after[s.nextId];
               && q.id == s.nextId && q.tag == tag && q.config == config && !q.cascadeFlag && q.spawnSequence == s.nextSequence
               && BindsAll(s.procs, deps, q.resolvedDeps)
               && (if |q.resolvedDeps| == |deps| && AllFoundUp(s.procs, q.resolvedDeps, e.polls)
                   then q.state.Starting? && q.child.Some? && q.child == e.spawn && AllUp(after, deps)
                   else q.state.Waiting? && q.child.None? && q.waitingSince == Some(e.clock))
  {
    hide *;
    var s1 := s.(nextId := s.nextId + 1);
    var polled, p := StartPolls(s1, config, e), StartEntry(s1, s.nextId, tag, config, e);
    AcceptedIs(s, tag, config, e);
    NextIdUnused(s);
    StartPollsMeet(s1, config, e);
    SameKeys(s.procs, polled.procs);
    BindingsBindAll(s.procs, e.order, config.dependsOn);
    if polled.ok {
      AllUpIs(polled.procs, config.dependsOn);
      AllUpGrows(polled.procs, Start(s, tag, config, e).state.procs, config.dependsOn);
    }
  }

  lemma SameKeys(before: ProcessMap, after: ProcessMap)
    requires OnlyPolled(before, after)
    ensures after.Keys == before.Keys
  {
    hide PolledInto;
  }

  // ------------------------------------------------------- stop and restart

  /** What `stop` answers, from the state of its target and the signals alone. */
  lemma StopAnswers(s: State, id: ProcessId, e: StopEnv)
    requires id in s.procs ==> s.procs[id].id == id
    ensures var r := Stop(s, id, e).result;
            && (r == Err(NotFound) <==> id !in s.procs)
            && (r == Err(SignalFailed) <==>
                  && id in s.procs && !s.procs[id].state.Waiting? && !s.procs[id].state.Restarting? && s.procs[id].pid != 0
                  && (e.signal(id).Refused? || (e.signal(id).Delivered? && e.kill(id).Refused?)))
            && (r.Err? ==> r.error.NotFound? || r.error.SignalFailed?)
  {
    hide StopEach, PassesOn;
  }

  /** When every signal is delivered and nobody is Failed without ever having had a child,
      these are the members with `cascade_stop` that are not in a backoff wait. */
  lemma StopReachesAll(s: State, id: ProcessId, e: StopEnv)
    requires Structural(s) && id in s.procs && Walks(e, s.procs.Keys)
    requires forall x :: x in s.procs ==> e.signal(x).Delivered? && e.kill(x).Delivered? && (s.procs[x].state.Failed? ==> s.procs[x].pid != 0)
    ensures var procs, after := s.procs, Stop(s, id, e).state.procs;
            && Stop(s, id, e).result.Ok? && id !in after
            && (forall a, d | a in procs && a !in after && d in procs && a in procs[d].resolvedDeps ::
                  procs[a].config.cascadeStop && !procs[a].state.Restarting? ==> d !in after)
            && (forall x: set<ProcessId> | id in x ::
                  (forall a, d | a in x && a in procs && d in procs && a in procs[d].resolvedDeps ::
                    procs[a].config.cascadeStop && !procs[a].state.Restarting? ==> d in x)
                  ==> procs.Keys - after.Keys <= x)
  {
    StopExact(s, id, e);
    StopAnswers(s, id, e);
    forall a | a in s.procs && !s.procs[a].state.Waiting? && !s.procs[a].state.Restarting?
      ensures s.procs[a].id == a && s.procs[a].pid != 0
    {
      assert WellFormed(s.procs[a]);
    }
    hide Stop, WellFormed;
    var after := Stop(s, id, e).state.procs;
    forall a, d | a in s.procs && a !in after && s.procs[a].config.cascadeStop && !s.procs[a].state.Restarting?
                  && d in s.procs && a in s.procs[d].resolvedDeps
      ensures d !in after
    {
      assert DependsOn(s.procs, d, a);
    }
  }

  /** The signals let a stop succeed: there is nothing to signal, or neither answer is an
      error other than "no such process". */
  ghost predicate StopSucceeds(p: Process, e: StopEnv) {
    || p.state.Waiting? || p.pid == 0
    || e.signal(p.id).NoSuchProcess? || (e.signal(p.id).Delivered? && !e.kill(p.id).Refused?)
  }

  /** When a restart by hand comes back, and with what answer: a process in a backoff wait
      stays tracked in any case; any other comes back if its stop succeeds and it can be spawned. */
  lemma RestartAnswers(s: State, id: ProcessId, e: RestartEnv)
    requires Structural(s)
    ensures var r := Restart(s, id, e);
            && (id in r.state.procs <==>
                  id in s.procs && (s.procs[id].state.Restarting? || (StopSucceeds(s.procs[id], e.stop) && e.spawn.Some?)))
            && (r.result == Ok <==> id in r.state.procs && e.spawn.Some?)
            && (r.result == Err(NotFound) <==> id !in s.procs)
            && (r.result == Err(SignalFailed) <==>
                  id in s.procs && !s.procs[id].state.Restarting? && !StopSucceeds(s.procs[id], e.stop))
            && (r.result.Ok? ==>
                  var p, q := s.procs[id], r.state.procs[id];
                  && q.state.Starting? && q.child == e.spawn && q.pid == e.spawn.value && q.tag == p.tag && q.config == p.config
                  && q.spawnSequence == if p.state.Restarting? then p.spawnSequence else s.nextSequence)
  {
    if id in s.procs && !s.procs[id].state.Restarting? { RestartShape(s, id, e); }
    StopAnswers(s, id, e.stop);
    hide Stop, WellFormed, RunningLabels;
  }

  // -------------------------------------------------------------- stop_many

  /** A batch stop by the answers to SIGKILL alone: of the batch those stay, as Failed, that
      have a pid and whose SIGKILL met another error than "no such process". */
  lemma StopManyExact(s: State, ids: seq<ProcessId>, kill: ProcessId -> SignalResult, id: ProcessId)
    requires Structural(s)
    ensures var s' := StopMany(s, ids, kill);
            && (id in s'.procs <==> id in s.procs && (id in ids ==> s.procs[id].pid != 0 && kill(id).Refused?))
            && (id in s'.procs ==> s'.procs[id] == if id in ids then s.procs[id].(state := Failed) else s.procs[id])
            && s'.nextId == s.nextId && s'.nextSequence == s.nextSequence && s'.log == s.log && s'.spawns == s.spawns
            && (!kill(id).Refused? && id in ids ==> id !in s'.procs)
  {
    hide WellFormed, DroppedBy;
  }

  // ---------------------------------------------------------------- queries

  /** A query takes over what the poll answers for a process that is Starting or Running,
      and changes nothing else. */
  lemma QueryAnswers(s: State, id: ProcessId, poll: Poll, x: ProcessId)
    requires Invariant(s) && x in s.procs
    ensures var s' := Observe(s, id, poll);
            && s' == s.(procs := s'.procs) && s'.procs.Keys == s.procs.Keys
            && s'.procs[x] == s.procs[x].(state := s'.procs[x].state)
            && s'.procs[x].state ==
                 if x != id || !(s.procs[x].state.Starting? || s.procs[x].state.Running?) then s.procs[x].state
                 else match poll
                      case Exited(success) => if success then Stopped else Crashed
                      case Alive => Running
                      case WaitFailed => Crashed
  {
    InvariantStructural(s);
    assert WellFormed(s.procs[x]);
    hide Invariant, Structural;
  }
}
