/** The tracked process, its configuration, and the state the manager and the reaper share. */
module Processes {
  import opened Basics
  import opened Backoff

  datatype ProcessState =
    | Starting | Running | Stopping | Stopped | Crashed | Restarting | Failed | Waiting
  {
    predicate IsAlive() {
      Starting? || Running? || Stopping? || Restarting? || Waiting?
    }

    predicate IsTerminated() {
      Stopped? || Crashed? || Failed?
    }
  }

  datatype DependencyRef = OnLabel(tag: Label) | OnId(id: ProcessId)

  datatype RestartTrigger = CrashOnly | Always

  datatype RestartPolicy = Immediate | Backoff(config: BackoffConfig)

  datatype SupervisorStrategy = OneForOne | OneForAll | RestForOne

  datatype ProcessConfig = ProcessConfig(
    command: string,
    terminateTimeout: Duration,
    restartOnExit: bool,
    restartTrigger: RestartTrigger,
    restartPolicy: RestartPolicy,
    strategy: SupervisorStrategy,
    dependsOn: seq<DependencyRef>,
    dependencyTimeout: Duration,
    cascadeStop: bool)

  datatype Process = Process(
    id: ProcessId,
    pid: nat,
    tag: Label,
    config: ProcessConfig,
    child: Option<OsPid>,
    state: ProcessState,
    restart: Option<RestartState>,
    spawnSequence: nat,
    cascadeFlag: bool,
    resolvedDeps: seq<ProcessId>,
    waitingSince: Option<Time>)
  {
    /** `Process::state`: polls the child of a Starting or Running process. */
    function Polled(poll: Poll): Process {
      if state.IsTerminated() || state.Stopping? || state.Restarting? || state.Waiting? then this
      else if child.None? then this.(state := Stopped)
      else match poll
        case Exited(success) => this.(state := if success then Stopped else Crashed)
        case Alive => this.(state := Running)
        case WaitFailed => this.(state := Crashed)
    }

    /** `Process::try_wait_exit`: an exit status, if there is a child and it has one. */
    function TryWaitExit(poll: Poll): Option<bool> {
      if child.Some? && poll.Exited? then Some(poll.success) else None
    }

    /** A dependency in this state will not come back. */
    predicate IsTerminalDependency() {
      state.Failed? || (state.Stopped? && !config.restartOnExit)
    }
  }

  type ProcessMap = map<ProcessId, Process>

  /** What the exit channel carries. */
  datatype ExitEvent = ExitEvent(
    id: ProcessId,
    tag: Label,
    pid: nat,
    restartOnExit: bool,
    exitStatus: Option<bool>,
    state: ProcessState)

  function EventFor(p: Process, status: Option<bool>, state: ProcessState): ExitEvent {
    ExitEvent(p.id, p.tag, p.pid, p.config.restartOnExit, status, state)
  }

  /** Which code path created an OS child. */
  datatype SpawnCause = OnStart | OnAutoRestart | OnDependenciesReady | OnManualRestart

  /** One entry of the spawn history: who was spawned and what was Running at that instant. */
  datatype SpawnRecord = SpawnRecord(
    id: ProcessId,
    cause: SpawnCause,
    dependsOn: seq<DependencyRef>,
    running: map<ProcessId, Label>)

  /** The manager's state. The last two fields are history variables: `spawns`
      lists every OS child ever created, and `dropped` counts the children the
      manager gave up on without an exit status (stop, batch stop, fail-fast). */
  datatype State = State(
    procs: ProcessMap,
    nextId: ProcessId,
    nextSequence: nat,
    log: seq<ExitEvent>,
    spawns: seq<SpawnRecord>,
    dropped: multiset<ProcessId>)

  const INITIAL := State(map[], 1, 1, [], [], multiset{})

  function RunningLabels(procs: ProcessMap): map<ProcessId, Label> {
    map id | id in procs && procs[id].state.Running? :: procs[id].tag
  }

  /** `child` is the handle of the OS process that was there when `p` left the map. */
  function DroppedChild(p: Process): multiset<ProcessId> {
    if p.child.Some? then multiset{p.id} else multiset{}
  }

  /** Removes `id` without an exit status and says so on the channel. */
  function Discard(s: State, id: ProcessId, state: ProcessState): State
    requires id in s.procs
  {
    var p := s.procs[id];
    s.(procs := s.procs - {id},
       log := s.log + [EventFor(p, None, state)],
       dropped := s.dropped + DroppedChild(p))
  }

  /** Removes `id` silently. */
  function Drop(s: State, id: ProcessId): State
    requires id in s.procs
  {
    s.(procs := s.procs - {id}, dropped := s.dropped + DroppedChild(s.procs[id]))
  }

  /** Puts `p`, whose child has just been created, into the map. */
  function Launch(s: State, p: Process, cause: SpawnCause): State {
    s.(procs := s.procs[p.id := p],
       spawns := s.spawns + [SpawnRecord(p.id, cause, p.config.dependsOn, RunningLabels(s.procs))])
  }

  /** An entry of `depends_on` is met by a Running process: the very id, or any process with the label. */
  ghost predicate Met(d: DependencyRef, running: map<ProcessId, Label>) {
    match d
    case OnId(id) => id in running
    case OnLabel(tag) => exists id :: id in running && running[id] == tag
  }

  ghost predicate AllMet(deps: seq<DependencyRef>, running: map<ProcessId, Label>) {
    forall i :: 0 <= i < |deps| ==> Met(deps[i], running)
  }
}
