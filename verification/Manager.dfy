/** The manager's calls as functions of the state and of what the operating system answers. */
module Manager {
  import opened Basics
  import opened Backoff
  import opened Processes
  import opened Resolution
  import LabelGraph

  datatype ManagerError = NotFound | EmptyCommand | DependencyCycle | DependencyTimedOut | SpawnFailed | SignalFailed

  datatype Result = Ok | Err(error: ManagerError)

  datatype Reply = Reply(state: State, result: Result)

  // ------------------------------------------------------------------ start

  /** What `start` learns from outside: an order for its walks over the map, the
      polls of the bound dependencies, the spawn and the clock. */
  datatype StartEnv = StartEnv(order: seq<ProcessId>, polls: nat -> Poll, spawn: Option<OsPid>, clock: Time)

  /** Labels to dependency lists; of several processes with one label the last in the walk wins. */
  function GraphOf(procs: ProcessMap, order: seq<ProcessId>): LabelGraph.DepGraph {
    if order == [] then map[]
    else
      var n := |order| - 1;
      var g := GraphOf(procs, order[..n]);
      if order[n] in procs then g[procs[order[n]].tag := procs[order[n]].config.dependsOn] else g
  }

  function Snapshot(procs: ProcessMap, order: seq<ProcessId>, tag: Label, deps: seq<DependencyRef>): LabelGraph.DepGraph {
    GraphOf(procs, order)[tag := deps]
  }

  lemma SnapshotHasNewcomer(procs: ProcessMap, order: seq<ProcessId>, tag: Label, deps: seq<DependencyRef>)
    ensures tag in Snapshot(procs, order, tag, deps) && Snapshot(procs, order, tag, deps)[tag] == deps
  {
  }

  /** A process as `start` and `restart` build it, before the child is attached. */
  function Fresh(id: ProcessId, tag: Label, config: ProcessConfig, sequence: nat): Process {
    Process(id, 0, tag, config, None, Waiting, if config.restartOnExit then Some(FRESH) else None,
            sequence, false, [], None)
  }

  function WithChild(p: Process, pid: OsPid, at: Time): Process {
    p.(child := Some(pid), pid := pid, state := Starting,
       restart := if p.restart.Some? then Some(p.restart.value.MarkStarted(at)) else None)
  }

  ghost predicate Rejected(s: State, tag: Label, config: ProcessConfig, e: StartEnv) {
    config.dependsOn != []
    && LabelGraph.CycleReachable(Snapshot(s.procs, e.order, tag, config.dependsOn), tag)
  }

  ghost function Start(s: State, tag: Label, config: ProcessConfig, e: StartEnv): Reply {
    if config.command == "" then Reply(s, Err(EmptyCommand))
    else if Rejected(s, tag, config, e) then Reply(s.(nextId := s.nextId + 1), Err(DependencyCycle))
    else StartAccepted(s.(nextId := s.nextId + 1), s.nextId, tag, config, e)
  }

  function StartAccepted(s: State, id: ProcessId, tag: Label, config: ProcessConfig, e: StartEnv): Reply {
    var deps := config.dependsOn;
    var bound := Bindings(s.procs, e.order, deps);
    var polled := if |bound| == |deps| then PollDeps(s.procs, bound, e.polls) else PollResult(s.procs, false);
    var s1 := s.(procs := polled.procs);
    var p := Fresh(id, tag, config, s.nextSequence).(resolvedDeps := bound);
    if !polled.ok then
      Reply(s1.(procs := s1.procs[id := p.(waitingSince := Some(e.clock))], nextSequence := s.nextSequence + 1), Ok)
    else match e.spawn
      case None => Reply(s1, Err(SpawnFailed))
      case Some(pid) =>
        Reply(Launch(s1.(nextSequence := s.nextSequence + 1), WithChild(p, pid, e.clock), OnStart), Ok)
  }

  // ------------------------------------------------------------------- stop

  /** What `stop` learns from outside, for every process its cascade may reach. */
  datatype StopEnv = StopEnv(
    order: ProcessId -> seq<ProcessId>,
    signal: ProcessId -> SignalResult,
    kill: ProcessId -> SignalResult)

  /** The combined answer to the kill signal and, after the grace period, SIGKILL.
      A process with pid 0 is never signalled. */
  function KillAnswer(p: Process, e: StopEnv): SignalResult {
    if p.pid == 0 then NoSuchProcess
    else if e.signal(p.id).Delivered? then e.kill(p.id)
    else e.signal(p.id)
  }

  /** The direct dependents of `id` in the order of the walk. */
  function DependentsOf(procs: ProcessMap, order: seq<ProcessId>, id: ProcessId): seq<ProcessId> {
    if order == [] then []
    else
      var n := |order| - 1;
      DependentsOf(procs, order[..n], id) +
      if order[n] in procs && id in procs[order[n]].resolvedDeps then [order[n]] else []
  }

  /** Whether stopping `p` goes on to stop its dependents. */
  predicate PassesOn(p: Process, e: StopEnv) {
    p.config.cascadeStop && (p.state.Waiting? || (!p.state.Restarting? && KillAnswer(p, e).Delivered?))
  }

  function Stop(s: State, id: ProcessId, e: StopEnv): (r: Reply)
    ensures r.state.procs.Keys <= s.procs.Keys && id !in r.state.procs && r.state.nextSequence == s.nextSequence
    decreases |s.procs|, 0
  {
    if id !in s.procs then Reply(s, Err(NotFound))
    else
      var p := s.procs[id];
      var s1 := if p.state.Waiting? then Discard(s, id, Stopped) else Drop(s, id);
      assert s1.procs.Keys == s.procs.Keys - {id};
      var s2 := if PassesOn(p, e) then StopEach(s1, DependentsOf(s1.procs, e.order(id), id), e) else s1;
      Reply(s2, if !p.state.Waiting? && !p.state.Restarting? && KillAnswer(p, e).Refused? then Err(SignalFailed) else Ok)
  }

  /** The cascade: failures to stop a dependent are only logged. */
  function StopEach(s: State, ids: seq<ProcessId>, e: StopEnv): (s': State)
    ensures s'.procs.Keys <= s.procs.Keys && s'.nextSequence == s.nextSequence
    decreases |s.procs|, |ids| + 1
  {
    if ids == [] then s
    else
      var s1 := StopEach(s, ids[..|ids| - 1], e);
      CardinalityMonotone(s1.procs, s.procs);
      Stop(s1, ids[|ids| - 1], e).state
  }

  lemma CardinalityMonotone(a: ProcessMap, b: ProcessMap)
    requires a.Keys <= b.Keys
    ensures |a| <= |b|
  {
    SubsetCardinality(a.Keys, b.Keys);
    assert |a| == |a.Keys| && |b| == |b.Keys|;
  }

  lemma SubsetCardinality<T>(a: set<T>, b: set<T>)
    requires a <= b
    ensures |a| <= |b|
  {
    assert b == a + (b - a);
  }

  // -------------------------------------------------------------- stop_many

  /** SIGKILL failed for a process with a pid: it goes back into the map. */
  predicate Unkillable(p: Process, kill: ProcessId -> SignalResult) {
    p.pid != 0 && kill(p.id).Refused?
  }

  function DroppedBy(procs: ProcessMap, ids: seq<ProcessId>, kill: ProcessId -> SignalResult): multiset<ProcessId> {
    if ids == [] then multiset{}
    else
      var n := |ids| - 1;
      DroppedBy(procs, ids[..n], kill) +
      if ids[n] in procs && ids[n] !in ids[..n] && !Unkillable(procs[ids[n]], kill)
      then DroppedChild(procs[ids[n]]) else multiset{}
  }

  function StopMany(s: State, ids: seq<ProcessId>, kill: ProcessId -> SignalResult): State {
    s.(procs := map id | id in s.procs && (id !in ids || Unkillable(s.procs[id], kill)) ::
                  if id in ids then s.procs[id].(state := Failed) else s.procs[id],
       dropped := s.dropped + DroppedBy(s.procs, ids, kill))
  }

  // ---------------------------------------------------------------- restart

  datatype RestartEnv = RestartEnv(stop: StopEnv, spawn: Option<OsPid>, clock: Time)

  /** Cancelling a backoff wait: the tracking state starts over. */
  function Cancelled(p: Process): Process {
    p.(child := None, restart := if p.restart.Some? then Some(FRESH) else None)
  }

  function Restart(s: State, id: ProcessId, e: RestartEnv): Reply {
    if id !in s.procs then Reply(s, Err(NotFound))
    else
      var p := s.procs[id];
      if p.state.Restarting? then
        var s1 := s.(procs := s.procs[id := Cancelled(p)]);
        match e.spawn
        case None => Reply(s1, Err(SpawnFailed))
        case Some(pid) =>
          Reply(Launch(s1.(nextSequence := s.nextSequence + 1), WithChild(Cancelled(p), pid, e.clock), OnManualRestart), Ok)
      else
        var stopped := Stop(s, id, e.stop);
        if stopped.result.Err? then stopped
        else
          var s1 := stopped.state;
          match e.spawn
          case None => Reply(s1, Err(SpawnFailed))
          case Some(pid) =>
            Reply(Launch(s1.(nextSequence := s.nextSequence + 1),
                         WithChild(Fresh(id, p.tag, p.config, s.nextSequence), pid, e.clock), OnManualRestart), Ok)
  }

  // ---------------------------------------------------- smaller interactions

  /** The deadline of `start_with_deps`: the entry is marked Failed and stays in the map. */
  function DependencyTimeout(s: State, id: ProcessId): State {
    if id in s.procs then s.(procs := s.procs[id := s.procs[id].(state := Failed)]) else s
  }

  /** `state`, `is_running` and `get_info` poll the child of the process they are asked about. */
  function Observe(s: State, id: ProcessId, poll: Poll): State {
    if id in s.procs then s.(procs := s.procs[id := s.procs[id].Polled(poll)]) else s
  }
}
