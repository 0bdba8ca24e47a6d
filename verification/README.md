# A verified model of the process supervisor

This project models the supervisor of `process-manager`: the manager that starts, stops and
restarts child processes, the reaper thread that watches them, the dependency graph between them,
supervisor cascades, backoff and rate limiting. It states what the supervisor is meant to
guarantee over whole runs and proves it of the model.

The supervisor is a state machine. Its state (`Processes.State`) is the map of tracked processes,
the two counters, and the event log, plus two history variables: every OS child ever created with
what was Running at that instant, and how many children were given up without an exit status. A
step is one manager call or one reaper cycle. What a step learns from outside is a parameter of the
step: exits and their status, whether a spawn or a signal succeeds, every reading of the clock, and
the order of each walk over the map. All results hold for every such answer; only the assumption
that a walk visits each tracked process once and that clocks do not run backwards
(`Reaper.Faithful`) is made, and for the waiting loops of `stop` that the clock goes on.

Every operation appears twice. `Reaper.dfy`, `Manager.dfy` and `Resolution.dfy` say as functions
what a step makes of the state; all theorems are about these. `ReaperLoop.dfy` (class
`SharedState`), `Supervisor.dfy` (class `ProcessManager`), `GracePeriods.dfy` and `LabelGraph.dfy`
(class `CycleSearch`) hold the loops and in-place updates, each proved to do exactly what the
function says; `Perform` carries out any step of a run with them. The remaining files are the theorems: `Invariants`, `Changes`, `ReapPhase`,
`LaterPhases`, `WaitingPhase`, `FailFastPhase`, `CascadeStop`, `Calls` and `Runs` carry the
invariants through every step; `Movement` and `Undisturbed` say what a step leaves alone;
`Conservation`, `Cascades`, `CascadeFlags`, `BackoffRuns`, `RateLimit`, `LabelBinding`,
`AcyclicRuns`, `MutualWaits`, `ChildHandles`, `StaleSignals`, `LateMarks`, `Answers`, `SpawnConditions`,
`StartTimes`, `Deadlines`, `BindingCounts`, `Starvation` and `Liveness` hold the results built on them.
`Scenarios` holds runs of a few steps from the empty manager in which a property fails, put together
from the single steps in `ScenarioSteps`.

Where the code and its documentation disagree, the model follows the code. For a property that
fails there is an input or a run that shows it, and the exact condition under which it holds:

- A process whose dependencies are all Running is documented to be spawned. The code compares the
  number of bound ids with the number of references, and an id that is bound for a reference by id
  counts for a reference to its label, too: a process that refers to another in both ways can
  wait until its timeout beside Running dependencies (`StarvedThoughMet`). To a process with no lost
  binding it happens exactly when phase 5 binds the id while nobody is Running under the label
  (`SparingStarves`, and `StarvesExactly` for all), and then it is for good (`StarvedLasts`). Start-up succeeds exactly for the processes that escape it (`StartUp`).
- Label bindings are documented to last for the dependent's life. An automatic restart looks every
  label up again (`BindingLost`) and a manual one outside the backoff wait forgets them. Otherwise
  bindings last in every run (`BindingsLast`); a restart keeps them in every walk exactly if each
  label is bound to its only live bearer (`RebindingExact`).
- `cascade_flag` is documented to be reset on restart. A process that had already exited when its
  group was flagged keeps the flag through an automatic restart (`FlagSurvivesRestart`) and through
  a restart by hand out of its backoff wait (`FlagSurvivesRestartByHand`). `RestartKeepsFlag` says
  which restarts leave it set, `FlagExact` who carries it at any moment of any run.
- The cycle check sees one dependency list per label and no references by id, so it can accept a
  process that closes a cycle (`SharedLabelHidesCycle`, `IdHidesCycle`). It does so exactly if every
  cycle of needs that is closed has a link by id, or one of a process whose list was displaced
  (`AcceptedExactly`). Processes that wait for each other are never spawned (`MutualWaitLasts`).
- The first backoff wait already carries one multiplier, because the restart is counted before the
  delay is computed (`DocumentedWaitMissed`). `DocumentedWaitMet` says for which configurations the
  documented delay is met.
- One pass of the fail-fast phase does not always fail every dependent (`OnePassDependsOnOrder`). It
  does in every order exactly if nobody depends on a Running process with a terminal dependency
  without having one itself (`OnePassSuffices`).
- The restart limit can be exceeded (`LimitExceeded`), by exactly the exits that come at the limit and
  are excused by the cascade flag (`RestartsBounded`). Without flags it holds over whole runs
  (`BriefLivesBounded`).
- Signals go to pids whose process is gone and which may belong to another process by now
  (`SeenExitSignalled`, `CascadeSignalsGone`): by a stop exactly to whom it takes down after its exit
  was seen, by a batch stop also to who waits with the pid of an earlier child, and by a cycle to the
  cascade targets that have just exited (`StaleSignalExact`).
- A terminal dependency is documented to fail a Waiting process at once. In time and not yet fully
  bound, it is spared (`SparedThoughLost`) exactly if phase 5 binds something new for it just then
  (`TerminalSpared`, and `TimeoutExact` for the cycle as a whole).

Smaller disagreements:

- A comment calls cascade origins crashes. With the trigger `Always` a clean exit is one, too, and
  only Running and Starting members of the group go down, not "all processes in the group".
- The grace period of `stop` and of the batch stop is documented to end when the process exits. A
  process marked Stopping is not polled, so the whole period is always waited out (`AwaitExit`).
- The deadline of a blocking start marks the process Failed even if it has just come up, and its
  dependents fall with it (`LateMarkTakesDown`).

## Model

| member | source | states |
|---|---|---|
| LabelGraph.DetectCycle | process-manager/src/manager/dependency.rs:43-97 | the check accepts if and only if no label cycle can be reached from the start label; a rejection carries a real walk from the start label whose last label occurs on it before |
| LabelGraph.CycleSearch.Dfs | process-manager/src/manager/dependency.rs:52-97 | the recursion ends on every graph, restores `path` and `path_labels` on success, and only marks labels visited that reach no cycle |
| LabelGraph.LassoTail | process-manager/src/manager/dependency.rs:71-83 | dropping the first label of a walk into a cycle leaves a walk into a cycle; so a label none of whose successors reaches a cycle reaches none, and skipping visited labels loses nothing |
| Supervisor.ProcessManager.BuildDependencySnapshot | process-manager/src/manager/dependency.rs:25-37 | the snapshot holds, for each label, the list of the last process walked with it, and the newcomer's own list |
| AcyclicRuns.RejectedExactly | process-manager/src/manager/process.rs:113-118 | on every map, shared labels included, if the processes that the snapshot lists close no cycle yet, `start` rejects a newcomer exactly when it closes one with them anywhere, although the search begins at the new label only |
| AcyclicRuns.AcceptedExactly | process-manager/src/manager/dependency.rs:25-97 | on every map without label cycles `start` accepts a newcomer exactly when every cycle of needs it closes, over references by label and by id, has a link that is not a label reference of a process the snapshot lists |
| Scenarios.IdHidesCycle | process-manager/src/manager/dependency.rs:85-90 | two starts with unique labels, "a" needing the label "b" and "b" needing the id of "a": the second is accepted, no label cycle is closed, and the two wait for each other |
| MutualWaits.MutualWaitLasts | process-manager/src/reaper/loop.rs:303-454 | in every run, as long as each member of a set of idle processes needs something that only members can provide and none is restarted by hand, no member is spawned, whatever else happens |
| AcyclicRuns.RunsStayAcyclic | process-manager/src/manager/process.rs:108-191 | in every run in which processes with the same label agree on their dependencies, as groups of equal members and unique labels do, the graph of all tracked processes has no label cycle at any moment |
| Scenarios.SharedLabelHidesCycle | process-manager/src/manager/dependency.rs:30-36 | three starts from the empty manager, the last of which is accepted and closes a cycle in a map that had none |
| Resolution.Find | process-manager/src/manager/dependency.rs:116-121 | the first process of the walk that carries the label and is Running, or Starting where that is asked for; nothing found means nobody in the walk qualifies |
| Resolution.Resolve | process-manager/src/manager/dependency.rs:108-133 | either every reference gets an admissible binding in declaration order, or some label has no live process |
| Resolution.PollDeps | process-manager/src/manager/dependency.rs:141-152 | the answer is positive if and only if every listed process is tracked and Running afterwards |
| Resolution.PollDepsOnlyPolls | process-manager/src/manager/dependency.rs:141-152 | the check changes nothing but the states of Starting and Running processes it polled |
| Resolution.PollDepsByAnswer | process-manager/src/manager/dependency.rs:141-152 | the answer is positive if and only if each listed process is Starting or Running before with a child that its own poll finds alive, whatever is listed twice |
| Resolution.ReadyMeetsAll | process-manager/src/manager/process.rs:121-134 | a full binding that passes the check meets every declared reference by a Running process |
| Answers.BindingsBindAll | process-manager/src/manager/dependency.rs:108-133 | each reference by id is bound to that id and each by label to a Running or Starting process with it, or nothing is bound, because some label has no such process |
| ReaperLoop.SharedState.ResolveDependencies | process-manager/src/manager/dependency.rs:108-133 | the loop that stops at the first unresolvable label computes the resolution |
| ReaperLoop.SharedState.AllDepsRunning | process-manager/src/manager/dependency.rs:141-152 | the short-circuiting loop polls exactly the prefix up to the first dependency that is not Running |
| WaitingPhase.NewlyResolvedSparing | process-manager/src/reaper/loop.rs:340-377 | each id phase 5 adds makes one more reference count as resolved: ids and resolved references grow together |
| WaitingPhase.VerdictSparing | process-manager/src/reaper/loop.rs:338-430 | a verdict keeps the counting invariant: a bound id is dead, or there are no more bound ids than resolved references |
| WaitingPhase.FullAndRunningMeetsAll | process-manager/src/reaper/loop.rs:388-429 | "same length and all Running", which is all phase 5 compares, implies that every declared reference is met |
| LaterPhases.PerformRestartAdvances | process-manager/src/reaper/loop.rs:569-645 | a restart spawns only against met dependencies and otherwise waits, touches others only by polling, reports its removal with one Failed event, and keeps every invariant |
| SpawnConditions.RestartDecided | process-manager/src/reaper/loop.rs:569-645 | an automatic restart spawns if and only if everything it binds is found up by its poll, then with every reference met by a Running process and with the pid its spawn answers, and leaves the map if that spawn fails; otherwise it waits from that reading on |
| SpawnConditions.ReadyWhenSpawned | process-manager/src/reaper/loop.rs:338-477 | whom phase 5 gives a child has each reference by id met by that id and each by label by a process with it, Running before the phase begins |
| BindingCounts.ReadyExactly | process-manager/src/reaper/loop.rs:338-430 | a verdict is to spawn if and only if the process is in time, has as many ids bound as references, and all of them are tracked and Running |
| Runs.SpawnsRespectDependencies | process-manager/src/reaper/loop.rs:338-430 | in every run, whoever was spawned by `start`, by a restart of the reaper or by phase 5 had each reference met at that instant: an id by that id, a label by a process with it |
| LabelBinding.BindingsPersist | process-manager/src/reaper/loop.rs:289-449 | a cycle at most extends the bindings of a Waiting process and leaves all others alone, unless the backoff wait of the process ends in it |
| LabelBinding.BindingsLast | process-manager/src/process/process.rs:93-105 | in every run, with calls of every kind, the bindings of a process that stays tracked are only ever extended, and only while it is Waiting, until a cycle ends its backoff wait or a restart by hand hits it outside one |
| LabelBinding.RebindingExact | process-manager/src/reaper/loop.rs:583-600 | whatever labels are shared, the bindings survive an automatic restart in every walk order if and only if each reference by id is bound to that id and each label to the only live process that carries it |
| Scenarios.BindingLost | book/src/process/dependencies.md:42-48 | the documented binding for life fails: a run in which a dependent, bound to a process that was stopped, crashes and comes back bound to a newer one with its label |
| ReaperLoop.PollChild | process-manager/src/reaper/loop.rs:52-157 | the body of the polling loop makes of one entry the process, exit and cascade origin of phase 1; `ExitDecided` and `TargetsExact` say which these are |
| ReaperLoop.SharedState.PollChildren | process-manager/src/reaper/loop.rs:46-158 | the loop polls every entry once and collects exits, cascade origins and removals in walk order |
| ReaperLoop.SharedState.CascadeTargets | process-manager/src/reaper/loop.rs:163-194 | the collected ids are exactly the targets of some origin |
| ReaperLoop.SharedState.FlagTargets | process-manager/src/reaper/loop.rs:197-219 | exactly the targets with a pid are flagged and Stopping, however often they are listed |
| ReaperLoop.SharedState.RemoveAndReport | process-manager/src/reaper/loop.rs:222-240 | the listed ids leave the map and each exit is sent once, in order |
| ReaperLoop.SharedState.ScheduleRestarts | process-manager/src/reaper/loop.rs:243-286 | exactly the processes that restart lose their child and enter a backoff wait |
| ReaperLoop.SharedState.Reap | process-manager/src/reaper/loop.rs:46-286 | phases 1, 1b, 2 and 3 together have the effect that is stated entry by entry |
| ReaperLoop.SharedState.PerformRestart | process-manager/src/reaper/loop.rs:569-645 | the in-place restart has the stated effect on the whole map |
| ReaperLoop.SharedState.RestartDue | process-manager/src/reaper/loop.rs:289-301 | the due restarts are collected first and then performed one after the other |
| ReaperLoop.SharedState.BindMissing | process-manager/src/reaper/loop.rs:340-377 | collecting the unresolved references and then binding them gives the additions of phase 5 |
| ReaperLoop.SharedState.JudgeWaiting | process-manager/src/reaper/loop.rs:311-449 | extending bindings entry by entry gives everybody the verdict it would have got on the map before the loop |
| ReaperLoop.SharedState.ServeWaiting | process-manager/src/reaper/loop.rs:303-477 | phase 5 spawns the ready and removes the failed with a Failed event each |
| ReaperLoop.SharedState.FailFast | process-manager/src/reaper/loop.rs:479-542 | phase 6 removes dependents in the order of the walk, each judged against the map as it is then |
| ReaperLoop.SharedState.RunCycle | process-manager/src/reaper/loop.rs:43-543 | one turn of the loop has the effect of a cycle and keeps every invariant |
| ReaperLoop.SharedState.Watch | process-manager/src/reaper/loop.rs:42-545 | any number of turns is a run of cycles and keeps every invariant |
| Runs.StepKeeps | process-manager/src/reaper/loop.rs:43-543 | every call and every cycle keeps all invariants, rewrites no history, changes no label or configuration and revives no id |
| Runs.ReachableInvariant | process-manager/src/manager/process.rs:108-191 | the invariants hold in every state a run can reach |
| Runs.LifecycleStructure | process-manager/src/process/process.rs:128-152 | Starting, Running and Stopping have the child with the stored pid, Waiting and Restarting have none, so polling never takes the branch for a missing child; a supervised Starting or Running process has a start time to measure its uptime from |
| Runs.SequencesDistinct | process-manager/src/manager/process.rs:148-178 | tracked processes have pairwise distinct spawn sequences below the counter |
| Movement.SequencesStay | process-manager/src/reaper/loop.rs:605-622 | a cycle keeps the spawn sequence of whoever stays tracked and moves neither counter |
| Runs.ChildrenConserved | process-manager/src/reaper/loop.rs:68-153 | spawns of an id equal its exits with a status, plus the children given up, plus the one it holds |
| Conservation.TrackedBalance | process-manager/src/reaper/loop.rs:226-286 | for a tracked process never restarted by hand out of another state than its backoff wait, spawns equal exits with a status plus the child it holds |
| Runs.CycleAccounts | process-manager/src/reaper/loop.rs:221-240 | a cycle gives a tracked id one event for its exit and one, Failed, for a removal in phases 4 to 6, and no other id any; who leaves the map is exactly accounted for |
| Runs.FailedIsFinal | process-manager/src/reaper/loop.rs:624-643 | a Failed event is the last of its id, hence unique, and the id is not tracked any more |
| Runs.GoneForGood | process-manager/src/manager/process.rs:111 | an id that was handed out and is gone is never tracked again, and the log is never rewritten |
| Cascades.TargetsExact | process-manager/src/reaper/loop.rs:163-194 | the flagged set is the union over all simultaneous origins of the other Running or Starting processes with the same label, for `RestForOne` only the later ones |
| Cascades.CascadeExact | process-manager/src/reaper/loop.rs:160-219 | in every reachable state a process that does not exit ends phases 1 to 3 Stopping and flagged if it is a target and otherwise keeps flag and state, but for Starting becoming Running |
| Cascades.StaleFlagExact | process-manager/src/reaper/loop.rs:197-208 | a process that exits and restarts keeps the flag in its backoff wait if and only if another origin of the same cycle targets it |
| Cascades.ExitReportedExactly | process-manager/src/reaper/loop.rs:68-153 | every exit is reported by exactly one event with the label, pid and setting of the process and the status of the child: Stopped for a cascade target; Failed if the process is set to be restarted, the status triggers it, and the restarts since it was last up for its minimum uptime have reached the limit; otherwise by the status |
| Cascades.ExitDecided | process-manager/src/reaper/loop.rs:68-157 | phase 1 sees the exit of exactly those with a child that has one, and of these keeps, to be restarted, a cascade target if and only if it has `restart_on_exit`, and any other process, of every strategy, if and only if it has `restart_on_exit`, its trigger is `Always` or the status a failure, and it is not under backoff with the count at the limit and its minimum uptime not reached |
| Cascades.EventsInWalkOrder | process-manager/src/reaper/loop.rs:222-240 | exits are reported in the order of the walk |
| Cascades.FlagThroughRestart | process-manager/src/reaper/loop.rs:583-614 | a restart of phase 4 clears the flag if and only if it sends the process back to Waiting |
| CascadeFlags.RestartKeepsFlag | process-manager/src/process/process.rs:87-90 | the documented reset on restart, exactly: after a cycle the flag is set if and only if a crash took the process down in it, or it was set and the exit was not seen, and it was not sent Waiting; after a restart by hand if and only if it was set and cut a backoff wait short |
| CascadeFlags.FlagExact | process-manager/src/process/process.rs:87-90 | at any moment of any run a process carries the flag if and only if an earlier cycle took it down without sending it waiting and no later step has seen it exit, sent it waiting or restarted it by hand outside a backoff wait |
| Scenarios.FlagSurvivesRestart | process-manager/src/reaper/loop.rs:197-208 | two members of a `OneForAll` group crash in one cycle, and the first is restarted in it under a new pid with the flag still set |
| Scenarios.FlagSurvivesRestartByHand | process-manager/src/manager/process.rs:744-796 | the same with a backoff wait that a restart by hand cuts short |
| Undisturbed.UnnamedKeeps | process-manager/src/manager/process.rs:442-690 | a call that does not name a process leaves it exactly as it is while it is being stopped or waits out a backoff, or removes it by a cascade |
| Cascades.CascadeContained | process-manager/src/reaper/loop.rs:74-97 | no recursive cascade: if after the cycle of a crash only processes exit that went down with it, each for the first time, no later cycle of the stretch has a cascade origin or a target, whatever calls not naming them happen meanwhile |
| Cascades.CascadeTargetFate | process-manager/src/reaper/loop.rs:68-97 | a target is untouched and unreported for as long as its exit takes, through cycles and calls that do not name it; the cycle of its exit reports one Stopped event and schedules or removes it by its own `restart_on_exit` |
| Backoff.WaitMonotone | process-manager/src/process/restart_state.rs:65-70 | the wait does not shrink from one restart to the next if and only if the multiplier is at least 1.0, the delay is zero, or the next delay is capped |
| Backoff.CappedStaysCapped | process-manager/src/process/restart_state.rs:65-70 | with a multiplier of at least 1.0 a capped wait stays capped for all later restarts |
| Backoff.TotalWaitBounded | process-manager/src/reaper/loop.rs:266-270 | k restarts wait at most k times the cap in all |
| Backoff.TotalWaitGeometric | process-manager/src/reaper/loop.rs:266-270 | while no wait is capped the total is the geometric sum |
| Backoff.TotalWaitLevel | process-manager/src/reaper/loop.rs:266-270 | with the multiplier 1.0 k restarts wait k times the smaller of initial delay and cap |
| Backoff.DocumentedWaitMet | book/src/process/restart_policy.md:36-55 | the documented delay of restart k is the real one if and only if the multiplier is 1.0, the delay is zero, or both the delay and its predecessor are capped |
| Backoff.DocumentedWaitMissed | book/src/process/restart_policy.md:44-55 | the documented example, named in the contract, waits two seconds before the first restart, not one |
| BackoffRuns.CrashScheduled | process-manager/src/reaper/loop.rs:242-286 | an exit that restarts adds one to the count, or starts it over if the process was Running for its minimum uptime, and starts a wait of the capped geometric delay for the new count, at most the cap, or of nothing under the immediate policy |
| BackoffRuns.BackoffProgress | process-manager/src/reaper/loop.rs:288-301 | after a cycle everybody still in a backoff wait has a timer that is not due |
| BackoffRuns.BackoffEnds | process-manager/src/reaper/loop.rs:288-301 | a wait passes untouched through all cycles before its time and all calls that do not name the process, and is over after the first cycle at or after it |
| BackoffRuns.WaitingBounded | process-manager/src/reaper/loop.rs:320-336 | after a cycle nobody has been Waiting for its dependency timeout, those included that phase 4 has just sent waiting |
| StartTimes.WaitTimeExact | process-manager/src/reaper/loop.rs:597-614 | at any moment of any run the waiting time of a Waiting process is the clock reading of the step that sent it waiting, since when it has been Waiting |
| Deadlines.TimeoutExact | process-manager/src/reaper/loop.rs:320-477 | a cycle takes a Waiting process out of the map if and only if its dependency timeout has passed since the reading of the step that sent it waiting, or a binding is lost and it is fully bound or there is nothing new to bind, or it was ready and its spawn failed |
| RateLimit.RestartsBounded | process-manager/src/reaper/loop.rs:105-153 | over every run the count is the number of restarts scheduled since the last reset, and exceeds the limit by exactly the exits that came at the limit and were excused by the cascade flag; a reset comes in a cycle that finds the process Running under backoff, with restarts counted, its minimum uptime after its start time |
| StartTimes.StartTimeExact | process-manager/src/reaper/loop.rs:605-622 | at any moment of any run the start time of a supervised process that is Starting, Running or Stopping is the clock reading of the step that spawned it last |
| StartTimes.SpawnAnswerTaken | process-manager/src/reaper/loop.rs:605-622 | whoever a step spawns holds after it the child and the pid that its own spawn answered |
| Deadlines.ResetExact | process-manager/src/process/restart_state.rs:83-93 | over every run a cycle forgets the restart count of a process that stays tracked if and only if it is Running under backoff and its minimum uptime has passed since the reading of the step that spawned it last, and then adds one for an exit it sees |
| Deadlines.BriefLivesBounded | book/src/process/restart_policy.md:56-58 | over every run a process under backoff each of whose exits comes less than the minimum uptime after the reading of its last spawn is scheduled at most as often as the limit says, if no exit carries the flag and nobody restarts it by hand |
| Scenarios.LimitExceeded | book/src/process/restart_policy.md:56-58 | the documented limit fails: a group member with a limit of one restart is restarted twice without a reset |
| RateLimit.LimitIsFinal | process-manager/src/reaper/loop.rs:105-153 | at the limit the next unexcused exit that would restart is reported as Failed, once, and removes the process |
| FailFastPhase.PassStable | process-manager/src/reaper/loop.rs:484-541 | a pass changes nothing if and only if no Running process is bound to one that is missing, Failed, or Stopped without `restart_on_exit`, and otherwise removes a dependent |
| FailFastPhase.PassFate | process-manager/src/reaper/loop.rs:484-541 | in every walk order a Running process bound to one that is missing, Failed, or Stopped without `restart_on_exit` goes, and any other only if something it is bound to is such when the pass is over |
| FailFastPhase.PassesSettle | process-manager/src/reaper/loop.rs:484-541 | repeated passes are stable after at most as many as there are Running dependents |
| FailFastPhase.FailFastConfluent | process-manager/src/reaper/loop.rs:479-542 | in whatever order each pass walks, repeated passes remove exactly the least set of Running processes that holds whoever is bound to a member, or to one that is missing, Failed, or Stopped without `restart_on_exit` |
| FailFastPhase.OnePassSuffices | process-manager/src/reaper/loop.rs:479-542 | one pass leaves no Running process with a terminal dependency, in whatever order it walks, if and only if the Running processes with one are already closed under losing a dependency |
| Scenarios.OnePassDependsOnOrder | process-manager/src/reaper/loop.rs:484-541 | a single pass does not suffice: in a state reached by three starts, a query and a stop, what it removes depends on the order of the walk |
| CascadeStop.StopExact | process-manager/src/manager/process.rs:442-570 | on every dependents graph, cyclic ones included, `stop` removes exactly the least set that holds its target and the direct dependents of each member with `cascade_stop` that is Waiting, or is in no backoff wait, has a pid, and has both signals delivered |
| Answers.StopReachesAll | process-manager/src/manager/process.rs:442-570 | with every signal delivered and a pid for every Failed process, `stop` removes exactly the least set that holds its target and all direct dependents of members with `cascade_stop` outside a backoff wait |
| Answers.StopAnswers | process-manager/src/manager/process.rs:442-570 | `stop` answers NotFound exactly for an untracked id, and an error exactly if the target is neither Waiting nor in a backoff wait, has a pid, and one of its signals meets an error other than "no such process" |
| CascadeStop.StopKeeps | process-manager/src/manager/process.rs:442-570 | whatever the signals answer, a cascade only removes entries and sends exactly one Stopped event for each Waiting one, and keeps the invariants |
| Supervisor.ProcessManager.Dependents | process-manager/src/manager/process.rs:897-903 | the direct dependents in the order of the walk |
| Supervisor.ProcessManager.Stop | process-manager/src/manager/process.rs:442-570 | the recursive method ends, since its target leaves the map first, has the stated effect and answer, and signals exactly those it takes down that have a pid and are neither Waiting nor in a backoff wait |
| GracePeriods.AwaitExit | process-manager/src/manager/process.rs:517-526 | a grace period ends with the first reading at or past its deadline, or before it with the process gone; for a process marked Stopping never before |
| Supervisor.ProcessManager.Kill | process-manager/src/manager/process.rs:495-555 | a process with a pid gets SIGKILL exactly if the first signal was delivered, at the first reading at which its whole grace period is over, and the last signal sent gives the answer |
| Supervisor.ProcessManager.StopMany | process-manager/src/manager/process.rs:578-690 | the map afterwards is the old one without the batch, plus as Failed the members with a pid whose SIGKILL was refused, one error each, and the answer is Ok if and only if there are none; the pids signalled are those of the members that have one; each of these has its whole grace period, and the polling takes no more rounds than the clock needs to show the latest single deadline |
| GracePeriods.AwaitBatch | process-manager/src/manager/process.rs:617-636 | everybody in the batch is escalated once, nobody before its own deadline |
| GracePeriods.KeptExactly | process-manager/src/manager/process.rs:638-684 | the re-inserted processes are exactly the batch members with a pid whose SIGKILL was refused, each once, duplicates in the batch allowed |
| Answers.StopManyExact | process-manager/src/manager/process.rs:578-690 | after a batch stop a member is tracked if and only if it has a pid and its SIGKILL was refused, and then as Failed; everything else is as before |
| Calls.StopManyKeeps | process-manager/src/manager/process.rs:578-690 | a batch stop keeps every invariant |
| ChildHandles.GoneExact | process-manager/src/process/process.rs:128-152 | at any moment of any run the child of a tracked process is gone, its handle given up or its exit found by a poll since the last spawn, if and only if the process has a pid and is Waiting, in a backoff wait, Stopped, Crashed, or Failed since a moment at which it was not live |
| StaleSignals.StaleSignalExact | process-manager/src/manager/process.rs:442-612 | a step signals a process whose child is gone exactly so: a stop or restart by hand, and a batch stop, judged by pid and state before the call; a cycle, if it takes a process down whose exit it has just seen; no other step |
| StaleSignals.FailFastSignalsLive | process-manager/src/reaper/loop.rs:513-528 | whom the fail-fast phase signals is Running with a child |
| Scenarios.SeenExitSignalled | process-manager/src/manager/process.rs:509-612 | a run in which a query sees an exit and a batch stop, or a single stop, then signals the pid |
| Scenarios.CascadeSignalsGone | process-manager/src/reaper/loop.rs:197-215 | a run in which a cycle signals a process after it has seen it exit |
| Supervisor.ProcessManager.Start | process-manager/src/manager/process.rs:108-191 | `start` has the stated effect on every path, hands out the next id, and a rejection carries the closed walk |
| Answers.StartAnswers | process-manager/src/manager/process.rs:108-191 | `start` answers Ok if and only if the new id is tracked afterwards; each error has its own cause, only Ok uses up a spawn sequence, and the others stay and are at most polled |
| Answers.NewcomerFate | process-manager/src/manager/process.rs:120-191 | an accepted newcomer is spawned if and only if each reference is bound and everything bound is found up by its poll, then with every reference met by a Running process and the child its spawn answers; otherwise it waits from that reading on |
| Calls.StartKeeps | process-manager/src/manager/process.rs:108-191 | `start` keeps every invariant on every path, failed spawns and rejections included |
| Supervisor.ProcessManager.Restart | process-manager/src/manager/process.rs:736-812 | a restart out of a backoff wait or after a stop has the stated effect and answer |
| Answers.RestartAnswers | process-manager/src/manager/process.rs:736-812 | after a restart by hand the id is tracked if and only if it was and was in its backoff wait, or its stop succeeded by the signals alone and the spawn, too; the answer is Ok exactly if moreover the spawn succeeded, and then the process is Starting with the new child |
| Calls.RestartKeeps | process-manager/src/manager/process.rs:736-812 | a manual restart keeps every invariant and the identity of the process |
| LateMarks.LateMarkTakesDown | process-manager/src/manager/process.rs:865-871 | a process that has come up is marked Failed at the deadline with its child alive, and the next cycle that does not see that child exit leaves no process Running that was Running and bound to it |
| Supervisor.ProcessManager.AwaitDependencies | process-manager/src/manager/process.rs:863-890 | the wait, with any number of steps of other threads between its looks, ends at the first look at or past the deadline, leaving the process in the map as Failed, or at the first that does not find it Waiting, with NotFound for one that is gone, a timeout for one that is Failed, and Ok otherwise |
| Supervisor.ProcessManager.StartWithDeps | process-manager/src/manager/process.rs:848-891 | the blocking start, with steps of other threads before each look, answers at once where `start` fails or the first look finds no wait needed, and otherwise as the wait ends |
| Supervisor.ProcessManager.Perform | process-manager/src/manager/process.rs:108-891 | every step of a run, call or cycle, has as a method exactly the effect that the run ascribes to it |
| Supervisor.ProcessManager.ReadState | process-manager/src/process/process.rs:128-152 | reading a state polls the process asked about and nothing else |
| Answers.QueryAnswers | process-manager/src/process/process.rs:128-152 | a query takes over what the poll answers for a Starting or Running process and changes nothing else |
| Liveness.CalmCycle | process-manager/src/reaper/loop.rs:303-454 | in a cycle without exits, failed spawns or timeouts nobody leaves, Starting becomes Running, whoever waits only for spawned processes is spawned unless starved, and starved are exactly those that were and those that wait for a process by id and by label with everybody under the label still Waiting |
| Liveness.ComesUp | process-manager/src/reaper/loop.rs:303-454 | with n such cycles among any starts and queries everything within n links of the bottom is spawned, and everything below that is Running |
| Liveness.StartUp | process-manager/src/reaper/loop.rs:303-454 | in every run of starts, cycles and queries in any order in which nothing goes wrong, labels shared or not, a process all of whose dependency chains lead to tracked unstarved processes and have at most d links is Running after d + 1 cycles if and only if it is not starved itself |
| Liveness.StarvedExact | process-manager/src/reaper/loop.rs:338-386 | in such a run a process is starved if and only if some earlier cycle found it waiting for a process by its id and by its label, neither bound, with everybody under the label still Waiting |
| Liveness.RefersOnceNeverStarves | process-manager/src/reaper/loop.rs:340-377 | who refers to no process both by its id and by its label is never starved |
| Starvation.VerdictStarves | process-manager/src/reaper/loop.rs:338-430 | whatever a Waiting process is bound to, a verdict in time leaves more references counting as resolved than ids bound if and only if the ids do not yet match the references in number and are fewer than the resolved ones and the overlaps together: references to the label of a process also referred to by id, neither resolved and nobody Running under the label; and then the verdict is not to spawn |
| BindingCounts.TerminalSpared | process-manager/src/reaper/loop.rs:366-430 | a verdict fails a Waiting process if and only if it is out of time, or bound to one that is missing, Failed, or Stopped without `restart_on_exit` and at the same time fully bound or with nothing new to bind: each reference bound, or by a label under which nobody is Running; if it is spared in spite of such a binding, more of its references count as resolved than before |
| Scenarios.SparedThoughLost | book/src/process/dependencies.md:35-37 | the documented immediate failure fails: a run after which a process bound to one that is gone waits on through a cycle |
| Starvation.StarvesExactly | process-manager/src/reaper/loop.rs:303-454 | the same for phase 5 as a whole, for every Waiting process that survives it, counted on the map the phase begins with |
| Starvation.StarvedLasts | process-manager/src/reaper/loop.rs:338-430 | in every run a starved process stays Waiting and starved through all cycles and all calls that do not name it, as long as it and what it is bound to stay tracked |
| Scenarios.StarvedThoughMet | book/src/process/dependencies.md:13-21 | the documented spawn fails: a run of three starts and two cycles that leaves a process starved with every reference met by a Running process |

## Left out

- The manager without a reaper: the model always has an event channel, and it stays open.
- Interleaving finer than a step: a manager call never runs inside a reaper cycle, and map locks and guard lifetimes do not appear.
- Walk orders: all look-ups that one requester makes within one cycle or one call use one order of the map.
- Process and RestartState as objects: each is owned by its map entry alone, so they are values, and an update in place stores the new value in the map.
- Rounding and overflow: delays are exact rationals, and counters and identifiers do not wrap around.
- Liveness.StartUp: references by id are to tracked processes; one to an unknown id is a lost dependency, and the process fails as documented.
- Supervisor.ProcessManager.StopMany: the bounded wait after SIGKILL has no effect on the state and is not modelled, nor is it in `stop`.
- Backoff.RestartState: the panic of the conversion of a non-finite delay is not modelled.
- Which error a spawn fails with, command lookup, environment, `setsid`, standard streams and reader threads.
- `wait`, `send_signal`, `stop_label`, `stop_all`, `restart_label` and the getters: they only list ids and call what is modelled.
- The socket crate, signal names, serialisation, builders, thread start and shutdown.
