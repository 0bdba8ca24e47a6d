/** Binding and polling dependencies. */
module Resolution {
  import opened Basics
  import opened Processes

  predicate Matches(procs: ProcessMap, id: ProcessId, tag: Label, startingToo: bool) {
    id in procs && procs[id].tag == tag && (procs[id].state.Running? || (startingToo && procs[id].state.Starting?))
  }

  /** `id` is the first match of the walk. */
  ghost predicate IsFirst(procs: ProcessMap, order: seq<ProcessId>, tag: Label, startingToo: bool, id: ProcessId) {
    exists i :: 0 <= i < |order| && order[i] == id && Matches(procs, id, tag, startingToo)
                && forall j :: 0 <= j < i ==> !Matches(procs, order[j], tag, startingToo)
  }

  /** The first process of `order` with the label that is Running (or, if asked, Starting). */
  function Find(procs: ProcessMap, order: seq<ProcessId>, tag: Label, startingToo: bool): (found: Option<ProcessId>)
    ensures found.Some? ==> found.value in order && Matches(procs, found.value, tag, startingToo)
                            && IsFirst(procs, order, tag, startingToo, found.value)
    ensures found.None? ==> forall id :: id in order ==> !Matches(procs, id, tag, startingToo)
  {
    if order == [] then None
    else if Matches(procs, order[0], tag, startingToo) then Some(order[0])
    else
      var later := Find(procs, order[1..], tag, startingToo);
      if later.None? then None else FirstOfRest(procs, order, tag, startingToo, later.value); later
  }

  /** The first match of the rest is the first of the whole if the head does not match. */
  lemma FirstOfRest(procs: ProcessMap, order: seq<ProcessId>, tag: Label, startingToo: bool, id: ProcessId)
    requires order != [] && !Matches(procs, order[0], tag, startingToo) && IsFirst(procs, order[1..], tag, startingToo, id)
    ensures IsFirst(procs, order, tag, startingToo, id)
  {
    hide Matches;
    var i :| 0 <= i < |order| - 1 && order[1..][i] == id && forall j :: 0 <= j < i ==> !Matches(procs, order[1..][j], tag, startingToo);
    assert order[i + 1] == id;
    forall j | 0 <= j < i + 1 ensures !Matches(procs, order[j], tag, startingToo) {
      if 0 < j { assert order[1..][j - 1] == order[j]; }
    }
  }

  /** `r` is an admissible binding of `d`: the very id, or a live process with the label. */
  ghost predicate Binds(procs: ProcessMap, d: DependencyRef, r: ProcessId) {
    match d
    case OnId(id) => r == id
    case OnLabel(tag) => Matches(procs, r, tag, true)
  }

  function ResolveOne(procs: ProcessMap, order: seq<ProcessId>, d: DependencyRef): (found: Option<ProcessId>)
    ensures found.Some? ==> Binds(procs, d, found.value)
  {
    match d
    case OnId(id) => Some(id)
    case OnLabel(tag) => Find(procs, order, tag, true)
  }

  /** `resolve_dependencies`: all bindings in declaration order, or the first unresolvable reference. */
  function Resolve(procs: ProcessMap, order: seq<ProcessId>, deps: seq<DependencyRef>): (bound: Option<seq<ProcessId>>)
    ensures bound.Some? ==> |bound.value| == |deps|
                            && forall i :: 0 <= i < |deps| ==> Binds(procs, deps[i], bound.value[i])
                                                               && ResolveOne(procs, order, deps[i]) == Some(bound.value[i])
    ensures bound.None? ==> exists i :: 0 <= i < |deps| && ResolveOne(procs, order, deps[i]).None?
  {
    if deps == [] then Some([])
    else
      var n := |deps| - 1;
      match Resolve(procs, order, deps[..n])
      case None => None
      case Some(earlier) =>
        match ResolveOne(procs, order, deps[n])
        case None => None
        case Some(id) => Some(earlier + [id])
  }

  /** What `unwrap_or_default` makes of a resolution. */
  function Bindings(procs: ProcessMap, order: seq<ProcessId>, deps: seq<DependencyRef>): (bound: seq<ProcessId>)
    ensures |bound| == |deps| ==> forall i :: 0 <= i < |deps| ==> Binds(procs, deps[i], bound[i])
    ensures |bound| == |deps| || bound == []
  {
    match Resolve(procs, order, deps)
    case Some(ids) => ids
    case None => []
  }

  datatype PollResult = PollResult(procs: ProcessMap, ok: bool)

  /** One dependency is polled unless it is absent or Waiting. */
  function PollDep(procs: ProcessMap, id: ProcessId, poll: Poll): (r: PollResult)
    ensures r.procs.Keys == procs.Keys
  {
    if id !in procs || procs[id].state.Waiting? then PollResult(procs, false)
    else
      var p := procs[id].Polled(poll);
      PollResult(procs[id := p], p.state.Running?)
  }

  /** `all_deps_running`: polls in order and stops at the first dependency that is not Running. */
  function PollDeps(procs: ProcessMap, ids: seq<ProcessId>, polls: nat -> Poll): (r: PollResult)
    ensures r.procs.Keys == procs.Keys
    ensures r.ok <==> forall i :: 0 <= i < |ids| ==> ids[i] in r.procs && r.procs[ids[i]].state.Running?
  {
    if ids == [] then PollResult(procs, true)
    else
      var n := |ids| - 1;
      var earlier := PollDeps(procs, ids[..n], polls);
      if !earlier.ok then earlier
      else
        var r := PollDep(earlier.procs, ids[n], polls(n));
        assert r.ok ==> forall i :: 0 <= i < n ==> ids[..n][i] == ids[i];
        r
  }

  /** The stored-state check the reaper uses: no polling. */
  predicate AllRunning(procs: ProcessMap, ids: seq<ProcessId>) {
    forall i :: 0 <= i < |ids| ==> ids[i] in procs && procs[ids[i]].state.Running?
  }

  /** Some bound dependency is gone or terminal. */
  predicate HasTerminal(procs: ProcessMap, ids: seq<ProcessId>) {
    exists i :: 0 <= i < |ids| && (ids[i] !in procs || procs[ids[i]].IsTerminalDependency())
  }

  /** `q` is `p` after any number of polls. */
  ghost predicate PolledInto(p: Process, q: Process) {
    || q == p
    || (&& (p.state.Starting? || p.state.Running?)
        && q == p.(state := q.state)
        && if p.child.Some? then q.state.Running? || q.state.Stopped? || q.state.Crashed? else q.state.Stopped?)
  }

  /** Polling touches nothing but the state of processes that had a pollable one. */
  ghost predicate OnlyPolled(before: ProcessMap, after: ProcessMap) {
    && before.Keys == after.Keys
    && forall id :: id in before ==> PolledInto(before[id], after[id])
  }

  lemma PolledIntoStep(p: Process, q: Process, poll: Poll)
    requires PolledInto(p, q)
    ensures PolledInto(p, q.Polled(poll))
  {
  }

  lemma PollDepsOnlyPolls(procs: ProcessMap, ids: seq<ProcessId>, polls: nat -> Poll)
    ensures OnlyPolled(procs, PollDeps(procs, ids, polls).procs)
  {
    hide PolledInto;
    if ids == [] {
      assert forall id :: id in procs ==> PolledInto(procs[id], procs[id]) by { PolledIntoSelf(procs); }
    } else {
      var n := |ids| - 1;
      PollDepsOnlyPolls(procs, ids[..n], polls);
      var m := PollDeps(procs, ids[..n], polls).procs;
      if ids[n] in procs {
        PolledIntoStep(procs[ids[n]], m[ids[n]], polls(n));
      }
    }
  }

  /** Its own poll finds the process up. */
  ghost predicate FoundUp(procs: ProcessMap, id: ProcessId, poll: Poll) {
    id in procs && (procs[id].state.Starting? || procs[id].state.Running?) && procs[id].child.Some? && poll.Alive?
  }

  /** The answer of the check from the answers of the polls: positive exactly if each listed
      process is Starting or Running with a child that its own poll finds alive. */
  lemma PollDepsByAnswer(procs: ProcessMap, ids: seq<ProcessId>, polls: nat -> Poll)
    ensures PollDeps(procs, ids, polls).ok <==> forall k :: 0 <= k < |ids| ==> FoundUp(procs, ids[k], polls(k))
  {
    hide *;
    PollDepsStep(procs, ids, polls);
    if ids != [] {
      var n := |ids| - 1;
      var m := PollDeps(procs, ids[..n], polls);
      PollDepsByAnswer(procs, ids[..n], polls);
      if m.ok && ids[n] in procs {
        PollDepsOnlyPolls(procs, ids[..n], polls);
        PolledAt(procs, m.procs, ids[n]);
        if ids[n] !in ids[..n] { PollDepsUntouched(procs, ids[..n], polls, ids[n]); }
        PolledUp(procs, m.procs, ids[n], polls(n));
      }
      assert forall k :: 0 <= k < n ==> ids[..n][k] == ids[k];
    }
  }

  lemma PolledAt(before: ProcessMap, after: ProcessMap, id: ProcessId)
    requires OnlyPolled(before, after) && id in before
    ensures id in after && PolledInto(before[id], after[id])
  {
  }

  lemma PollDepsStep(procs: ProcessMap, ids: seq<ProcessId>, polls: nat -> Poll)
    ensures PollDeps(procs, [], polls).ok
    ensures ids != [] ==>
            var n := |ids| - 1;
            var m := PollDeps(procs, ids[..n], polls);
            && PollDeps(procs, ids, polls).ok == (m.ok && PollDep(m.procs, ids[n], polls(n)).ok)
            && (m.ok ==> PollDeps(procs, ids, polls) == PollDep(m.procs, ids[n], polls(n)))
            && (m.ok && ids[n] in ids[..n] ==> ids[n] in m.procs && m.procs[ids[n]].state.Running?)
            && (ids[n] !in procs ==> !PollDep(m.procs, ids[n], polls(n)).ok && !FoundUp(procs, ids[n], polls(n)))
  {
    hide PollDep;
    if ids != [] { PollDepAbsent(PollDeps(procs, ids[..|ids| - 1], polls).procs, ids[|ids| - 1], polls(|ids| - 1)); }
  }

  lemma PollDepAbsent(procs: ProcessMap, id: ProcessId, poll: Poll)
    ensures id !in procs ==> !PollDep(procs, id, poll).ok
  {
  }

  /** A process that is as it was, or Running by an earlier poll, is found up exactly if it answers so. */
  lemma PolledUp(procs: ProcessMap, polled: ProcessMap, id: ProcessId, poll: Poll)
    requires id in procs && id in polled && PolledInto(procs[id], polled[id])
    requires polled[id] == procs[id] || polled[id].state.Running?
    ensures PollDep(polled, id, poll).ok <==> FoundUp(procs, id, poll)
  {
  }

  lemma PollDepsUntouched(procs: ProcessMap, ids: seq<ProcessId>, polls: nat -> Poll, id: ProcessId)
    requires id in procs && id !in ids
    ensures PollDeps(procs, ids, polls).procs[id] == procs[id]
  {
    if ids != [] { PollDepsUntouched(procs, ids[..|ids| - 1], polls, id); }
  }

  lemma PolledIntoSelf(procs: ProcessMap)
    ensures forall id :: id in procs ==> PolledInto(procs[id], procs[id])
  {
  }

  /** A full binding whose polls all answer "running" meets every dependency. */
  lemma ReadyMeetsAll(procs: ProcessMap, order: seq<ProcessId>, deps: seq<DependencyRef>, polls: nat -> Poll)
    requires var ids := Bindings(procs, order, deps); |ids| == |deps| && PollDeps(procs, ids, polls).ok
    ensures AllMet(deps, RunningLabels(PollDeps(procs, Bindings(procs, order, deps), polls).procs))
  {
    var ids := Bindings(procs, order, deps);
    var after := PollDeps(procs, ids, polls).procs;
    PollDepsOnlyPolls(procs, ids, polls);
    hide PollDeps, Bindings;
    forall i | 0 <= i < |deps| ensures Met(deps[i], RunningLabels(after)) {
      assert Binds(procs, deps[i], ids[i]);
      assert ids[i] in RunningLabels(after);
    }
  }
}
