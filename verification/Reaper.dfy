/** One reaper cycle, phase by phase, as functions of the state and of what the
    operating system answers during the cycle. */
module Reaper {
  import opened Basics
  import opened Backoff
  import opened Processes
  import opened Resolution

  /** The places where the cycle walks over the map, each in its own order. */
  datatype Site = AtPoll | AtCascade | AtRestart | AtWaiting | AtFailFast | AtLookup(requester: ProcessId)

  /** The places where the cycle reads the clock again after `now`. */
  datatype Reading = OnRestart(id: ProcessId) | OnTimeoutCheck(id: ProcessId) | OnSpawn(id: ProcessId)

  /** Everything a cycle learns from outside. */
  datatype Tick = Tick(
    now: Time,
    order: Site -> seq<ProcessId>,
    exit: ProcessId -> Poll,               // phase 1 try_wait
    recheck: (ProcessId, nat) -> Poll,     // try_wait on the n-th dependency of a restarting process
    spawn: ProcessId -> Option<OsPid>,     // at most one spawn attempt per process and cycle
    clock: Reading -> Time)

  /** Every walk visits each tracked process once, and the clock does not run backwards. */
  ghost predicate Faithful(t: Tick, keys: set<ProcessId>) {
    && (forall site :: Enumerates(t.order(site), keys))
    && (forall r :: t.now <= t.clock(r))
    && (forall id, other :: t.clock(OnRestart(other)) <= t.clock(OnTimeoutCheck(id)))
  }

  // ---------------------------------------------------------------- phase 1

  predicate ShouldRestart(trigger: RestartTrigger, state: ProcessState) {
    match trigger
    case CrashOnly => state.Crashed?
    case Always => true
  }

  function BackoffOf(config: ProcessConfig): Option<BackoffConfig> {
    match config.restartPolicy
    case Immediate => None
    case Backoff(c) => Some(c)
  }

  /** The stable-uptime check, made only on Running processes with a backoff policy. */
  function Settled(p: Process, now: Time): Process {
    if p.state.Running? && p.restart.Some? && BackoffOf(p.config).Some?
    then p.(restart := Some(p.restart.value.CheckStableUptime(BackoffOf(p.config).value, now)))
    else p
  }

  datatype Origin = Origin(id: ProcessId, tag: Label, spawnSequence: nat, strategy: SupervisorStrategy)

  datatype ExitedProcess = ExitedProcess(event: ExitEvent, restarts: bool)

  /** What phase 1 makes of one entry: the entry itself, and an exit if one was seen. */
  datatype Outcome = Outcome(process: Process, exited: Option<ExitedProcess>, origin: Option<Origin>)

  predicate RateLimited(p: Process) {
    p.restart.Some? && BackoffOf(p.config).Some? && p.restart.value.IsRateLimited(BackoffOf(p.config).value)
  }

  predicate RestartTriggered(p: Process, success: bool) {
    p.config.restartOnExit && ShouldRestart(p.config.restartTrigger, if success then Stopped else Crashed)
  }

  function PollEntry(p: Process, poll: Poll, now: Time): Outcome {
    if p.state.Restarting? then Outcome(p, None, None)
    else
      var q := Settled(p, now);
      match q.TryWaitExit(poll)
      case None => Outcome(if q.state.Starting? then q.(state := Running) else q, None, None)
      case Some(success) =>
        if q.cascadeFlag then
          Outcome(q.(cascadeFlag := false),
                  Some(ExitedProcess(EventFor(q, Some(success), Stopped), q.config.restartOnExit)), None)
        else
          var base := if success then Stopped else Crashed;
          var triggered := RestartTriggered(q, success);
          var final := if triggered && RateLimited(q) then Failed else base;
          var restarts := triggered && !final.Failed?;
          Outcome(q,
                  Some(ExitedProcess(EventFor(q, Some(success), final), restarts)),
                  if restarts && !q.config.strategy.OneForOne?
                  then Some(Origin(q.id, q.tag, q.spawnSequence, q.config.strategy)) else None)
  }

  function Seen(s: State, id: ProcessId, t: Tick): Outcome
    requires id in s.procs
  {
    PollEntry(s.procs[id], t.exit(id), t.now)
  }

  /** The map after phase 1. */
  function PolledMap(procs: ProcessMap, t: Tick): ProcessMap {
    map id | id in procs :: PollEntry(procs[id], t.exit(id), t.now).process
  }

  /** The exits of phase 1 in the order of the walk. */
  function ExitsSeen(procs: ProcessMap, order: seq<ProcessId>, t: Tick): seq<ExitedProcess> {
    if order == [] then []
    else
      var n := |order| - 1;
      ExitsSeen(procs, order[..n], t) + ExitOf(procs, order[n], t)
  }

  function ExitOf(procs: ProcessMap, id: ProcessId, t: Tick): seq<ExitedProcess> {
    if id !in procs then []
    else
      var o := PollEntry(procs[id], t.exit(id), t.now);
      if o.exited.Some? then [o.exited.value] else []
  }

  // --------------------------------------------------------------- phase 1b

  /** `id` has to go down with the crash described by `o`. */
  predicate IsTarget(procs: ProcessMap, id: ProcessId, o: Origin) {
    && id in procs && id != o.id
    && procs[id].tag == o.tag
    && (procs[id].state.Running? || procs[id].state.Starting?)
    && match o.strategy
       case OneForAll => true
       case RestForOne => procs[id].spawnSequence > o.spawnSequence
       case OneForOne => false
  }

  /** Some process whose exit phase 1 declared a cascade origin takes `id` down. */
  predicate IsTargeted(procs: ProcessMap, id: ProcessId, t: Tick) {
    exists o :: o in procs && PollEntry(procs[o], t.exit(o), t.now).origin.Some?
                && IsTarget(PolledMap(procs, t), id, PollEntry(procs[o], t.exit(o), t.now).origin.value)
  }

  function Flagged(p: Process): Process {
    if p.pid == 0 then p else p.(cascadeFlag := true, state := Stopping)
  }

  // ---------------------------------------------------------- phases 2 and 3

  /** The restart is counted before the delay is computed. */
  function Scheduled(p: Process, now: Time): Process {
    var q := p.(child := None, state := Restarting);
    if p.restart.None? then q
    else
      var r := p.restart.value.RecordRestart();
      match BackoffOf(p.config)
      case Some(c) => q.(restart := Some(r.ScheduleRestart(now + r.CurrentDelay(c))))
      case None => q.(restart := Some(r.ScheduleRestart(now)))
  }

  predicate Leaves(o: Outcome) {
    o.exited.Some? && !o.exited.value.restarts
  }

  /** The fate of one process that stays tracked through phases 1 to 3. */
  function Reaped(s: State, id: ProcessId, t: Tick): Process
    requires id in s.procs
  {
    var o := Seen(s, id, t);
    var q := if IsTargeted(s.procs, id, t) then Flagged(o.process) else o.process;
    if o.exited.Some? && o.exited.value.restarts then Scheduled(q, t.now) else q
  }

  function EventsOf(exits: seq<ExitedProcess>): seq<ExitEvent> {
    if exits == [] then [] else EventsOf(exits[..|exits| - 1]) + [exits[|exits| - 1].event]
  }

  /** Phases 1 to 3. */
  function Reap(s: State, t: Tick): State {
    s.(procs := map id | id in s.procs && !Leaves(Seen(s, id, t)) :: Reaped(s, id, t),
       log := s.log + EventsOf(ExitsSeen(s.procs, t.order(AtPoll), t)))
  }

  // ---------------------------------------------------------------- phase 4

  predicate DueForRestart(procs: ProcessMap, id: ProcessId, now: Time) {
    id in procs && procs[id].state.Restarting? && procs[id].restart.Some?
    && procs[id].restart.value.IsEligibleForRestart(now)
  }

  function RestartIds(procs: ProcessMap, order: seq<ProcessId>, now: Time): seq<ProcessId> {
    if order == [] then []
    else
      var n := |order| - 1;
      RestartIds(procs, order[..n], now) + if DueForRestart(procs, order[n], now) then [order[n]] else []
  }

  function Restarted(p: Process, pid: OsPid, at: Time): Process {
    p.(child := Some(pid), pid := pid, state := Starting,
       restart := if p.restart.Some? then Some(p.restart.value.MarkStarted(at).CancelPendingRestart()) else None)
  }

  /** The spawn at the end of `perform_restart`; a failed spawn is terminal. */
  function RespawnOrFail(s: State, id: ProcessId, t: Tick): State
    requires id in s.procs
  {
    match t.spawn(id)
    case Some(pid) => Launch(s, Restarted(s.procs[id], pid, t.clock(OnRestart(id))), OnAutoRestart)
    case None => Discard(s, id, Failed)
  }

  function BackToWaiting(p: Process, deps: seq<ProcessId>, at: Time): Process {
    p.(state := Waiting, waitingSince := Some(at), resolvedDeps := deps, cascadeFlag := false)
  }

  function PerformRestart(s: State, id: ProcessId, t: Tick): State {
    if id !in s.procs then s
    else
      var deps := s.procs[id].config.dependsOn;
      if deps == [] then RespawnOrFail(s, id, t)
      else
        var bound := Bindings(s.procs, t.order(AtLookup(id)), deps);
        var polled := if |bound| == |deps| then PollDeps(s.procs, bound, (n: nat) => t.recheck(id, n))
                      else PollResult(s.procs, false);
        var p := polled.procs[id];
        if !polled.ok then
          s.(procs := polled.procs[id := BackToWaiting(p, bound, t.clock(OnRestart(id)))])
        else
          RespawnOrFail(s.(procs := polled.procs[id := p.(resolvedDeps := bound)]), id, t)
  }

  function RestartAll(s: State, ids: seq<ProcessId>, t: Tick): State {
    if ids == [] then s else PerformRestart(RestartAll(s, ids[..|ids| - 1], t), ids[|ids| - 1], t)
  }

  function Restarts(s: State, t: Tick): State {
    RestartAll(s, RestartIds(s.procs, t.order(AtRestart), t.now), t)
  }

  // ---------------------------------------------------------------- phase 5

  datatype Decision = ToSpawn | ToFail | ToKeep

  datatype Verdict = Verdict(resolvedDeps: seq<ProcessId>, decision: Decision)

  predicate TimedOut(p: Process, at: Time) {
    p.waitingSince.Some? && Elapsed(p.waitingSince.value, at) >= p.config.dependencyTimeout
  }

  /** A reference counts as resolved if it is bound: a label by any bound process
      still tracked under it, an id by itself. */
  predicate Resolved(procs: ProcessMap, bound: seq<ProcessId>, d: DependencyRef) {
    match d
    case OnLabel(tag) => exists i :: 0 <= i < |bound| && bound[i] in procs && procs[bound[i]].tag == tag
    case OnId(id) => id in bound
  }

  /** The ids phase 5 adds for the references that are not resolved yet. */
  function NewlyResolved(procs: ProcessMap, order: seq<ProcessId>, bound: seq<ProcessId>, deps: seq<DependencyRef>)
      : seq<ProcessId>
  {
    if deps == [] then []
    else
      var n := |deps| - 1;
      NewlyResolved(procs, order, bound, deps[..n]) + NewBinding(procs, order, bound, deps[n])
  }

  function NewBinding(procs: ProcessMap, order: seq<ProcessId>, bound: seq<ProcessId>, d: DependencyRef): seq<ProcessId> {
    if Resolved(procs, bound, d) then []
    else match d
      case OnId(id) => [id]
      case OnLabel(tag) =>
        match Find(procs, order, tag, false)
        case Some(id) => [id]
        case None => []
  }

  function Judge(procs: ProcessMap, p: Process, order: seq<ProcessId>, at: Time): Verdict {
    var bound, deps := p.resolvedDeps, p.config.dependsOn;
    if TimedOut(p, at) then Verdict(bound, ToFail)
    else if |bound| != |deps| then
      var newly := NewlyResolved(procs, order, bound, deps);
      if newly != [] then
        var all := bound + newly;
        Verdict(all, if |all| == |deps| && AllRunning(procs, all) then ToSpawn else ToKeep)
      else
        Verdict(bound, if HasTerminal(procs, bound) then ToFail else ToKeep)
    else if AllRunning(procs, bound) then Verdict(bound, ToSpawn)
    else Verdict(bound, if HasTerminal(procs, bound) then ToFail else ToKeep)
  }

  function VerdictOn(procs: ProcessMap, id: ProcessId, t: Tick): Verdict
    requires id in procs
  {
    Judge(procs, procs[id], t.order(AtLookup(id)), t.clock(OnTimeoutCheck(id)))
  }

  /** The map once every Waiting process has its verdict and its new bindings. */
  function JudgedMap(procs: ProcessMap, t: Tick): ProcessMap {
    map id | id in procs ::
      if procs[id].state.Waiting? then procs[id].(resolvedDeps := VerdictOn(procs, id, t).resolvedDeps) else procs[id]
  }

  function WaitingIds(procs: ProcessMap, order: seq<ProcessId>, d: Decision, t: Tick): seq<ProcessId> {
    if order == [] then []
    else
      var n := |order| - 1;
      WaitingIds(procs, order[..n], d, t) +
      if order[n] in procs && procs[order[n]].state.Waiting? && VerdictOn(procs, order[n], t).decision == d
      then [order[n]] else []
  }

  function Spawned(p: Process, pid: OsPid, at: Time): Process {
    p.(child := Some(pid), pid := pid, state := Starting, waitingSince := None,
       restart := if p.restart.Some? then Some(p.restart.value.MarkStarted(at)) else None)
  }

  function SpawnWaiting(s: State, id: ProcessId, t: Tick): State {
    if id !in s.procs then s
    else match t.spawn(id)
      case Some(pid) => Launch(s, Spawned(s.procs[id], pid, t.clock(OnSpawn(id))), OnDependenciesReady)
      case None => Discard(s, id, Failed)
  }

  function FailWaiting(s: State, id: ProcessId): State {
    if id !in s.procs then s else Discard(s, id, Failed)
  }

  function SpawnAll(s: State, ids: seq<ProcessId>, t: Tick): State {
    if ids == [] then s else SpawnWaiting(SpawnAll(s, ids[..|ids| - 1], t), ids[|ids| - 1], t)
  }

  function FailAll(s: State, ids: seq<ProcessId>): State {
    if ids == [] then s else FailWaiting(FailAll(s, ids[..|ids| - 1]), ids[|ids| - 1])
  }

  function Waiters(s: State, t: Tick): State {
    var order := t.order(AtWaiting);
    FailAll(SpawnAll(s.(procs := JudgedMap(s.procs, t)), WaitingIds(s.procs, order, ToSpawn, t), t),
            WaitingIds(s.procs, order, ToFail, t))
  }

  // ---------------------------------------------------------------- phase 6

  function RunningWithDeps(procs: ProcessMap, order: seq<ProcessId>): seq<ProcessId> {
    if order == [] then []
    else
      var n := |order| - 1;
      RunningWithDeps(procs, order[..n]) +
      if order[n] in procs && procs[order[n]].state.Running? && procs[order[n]].resolvedDeps != []
      then [order[n]] else []
  }

  function FailDependent(s: State, id: ProcessId): State {
    if id in s.procs && HasTerminal(s.procs, s.procs[id].resolvedDeps) then Discard(s, id, Failed) else s
  }

  function FailDependents(s: State, ids: seq<ProcessId>): State {
    if ids == [] then s else FailDependent(FailDependents(s, ids[..|ids| - 1]), ids[|ids| - 1])
  }

  function FailFast(s: State, order: seq<ProcessId>): State {
    FailDependents(s, RunningWithDeps(s.procs, order))
  }

  function Cycle(s: State, t: Tick): State {
    FailFast(Waiters(Restarts(Reap(s, t), t), t), t.order(AtFailFast))
  }
}
