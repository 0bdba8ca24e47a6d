/** Bound ids against references. */
module BindingCounts {
  import opened Basics
  import opened Processes
  import opened Resolution
  import opened Reaper
  import opened Invariants
  import opened WaitingPhase

  /** `p` waits with fewer bound ids than references that count as resolved. The
      documentation promises a spawn as soon as all dependencies are Running; the code
      compares the number of bound ids with the number of references, and one bound id
      may count for two references. */
  ghost predicate Starved(procs: ProcessMap, p: Process) {
    p.state.Waiting? && |p.resolvedDeps| < ResolvedCount(procs, p.resolvedDeps, p.config.dependsOn)
  }

  ghost predicate Up(procs: ProcessMap, tag: Label) {
    exists x :: x in procs && procs[x].tag == tag && procs[x].state.Running?
  }

  /** `p` refers to `x` by its id and to the label of `x`, too; neither reference is
      resolved, and nobody is Running under the label. */
  ghost predicate Overlaps(procs: ProcessMap, bound: seq<ProcessId>, deps: seq<DependencyRef>, tag: Label, x: ProcessId) {
    && OnLabel(tag) in deps && OnId(x) in deps
    && x in procs && procs[x].tag == tag
    && !Resolved(procs, bound, OnLabel(tag)) && !Resolved(procs, bound, OnId(x)) && !Up(procs, tag)
  }

  ghost predicate HasOverlap(procs: ProcessMap, p: Process) {
    exists tag, x :: Overlaps(procs, p.resolvedDeps, p.config.dependsOn, tag, x)
  }

  // ------------------------------------------------------------- one verdict

  /** Phase 5 adds nothing for `d`, and yet `d` counts as resolved afterwards. */
  ghost predicate Leaks(procs: ProcessMap, order: seq<ProcessId>, bound: seq<ProcessId>, all: seq<ProcessId>, d: DependencyRef) {
    !Resolved(procs, bound, d) && NewBinding(procs, order, bound, d) == [] && Resolved(procs, all, d)
  }

  lemma LeakStep(procs: ProcessMap, order: seq<ProcessId>, bound: seq<ProcessId>, all: seq<ProcessId>, d: DependencyRef)
    requires bound <= all && forall x :: x in NewBinding(procs, order, bound, d) ==> x in all
    ensures |NewBinding(procs, order, bound, d)| + (if Resolved(procs, bound, d) then 1 else 0)
              + (if Leaks(procs, order, bound, all, d) then 1 else 0)
         == if Resolved(procs, all, d) then 1 else 0
  {
    NewBindingResolves(procs, order, bound, d, all);
    hide Resolved;
  }

  /** How many references leak. */
  ghost function LeakCount(procs: ProcessMap, order: seq<ProcessId>, bound: seq<ProcessId>, all: seq<ProcessId>, deps: seq<DependencyRef>): nat {
    if deps == [] then 0
    else
      var n := |deps| - 1;
      LeakCount(procs, order, bound, all, deps[..n]) + if Leaks(procs, order, bound, all, deps[n]) then 1 else 0
  }

  /** They are the difference between the two counts. */
  lemma CountLeaks(procs: ProcessMap, order: seq<ProcessId>, bound: seq<ProcessId>, deps: seq<DependencyRef>, all: seq<ProcessId>)
    requires bound <= all && forall x :: x in NewlyResolved(procs, order, bound, deps) ==> x in all
    ensures |NewlyResolved(procs, order, bound, deps)| + ResolvedCount(procs, bound, deps) + LeakCount(procs, order, bound, all, deps)
         == ResolvedCount(procs, all, deps)
  {
    hide NewBinding, Resolved, Leaks;
    if deps != [] {
      var n := |deps| - 1;
      CountLeaks(procs, order, bound, deps[..n], all);
      LeakStep(procs, order, bound, all, deps[n]);
    }
  }

  /** What phase 5 adds is an id referred to that was not bound, or Running under a label referred to. */
  lemma NewlyFrom(procs: ProcessMap, order: seq<ProcessId>, bound: seq<ProcessId>, deps: seq<DependencyRef>, x: ProcessId)
    ensures x in NewlyResolved(procs, order, bound, deps) ==>
              || (OnId(x) in deps && !Resolved(procs, bound, OnId(x)))
              || (x in procs && procs[x].state.Running? && OnLabel(procs[x].tag) in deps)
    ensures OnId(x) in deps && !Resolved(procs, bound, OnId(x)) ==> x in NewlyResolved(procs, order, bound, deps)
  {
    hide Resolved, NewBinding;
    if deps != [] {
      var n := |deps| - 1;
      NewlyFrom(procs, order, bound, deps[..n], x);
      NewFrom(procs, order, bound, deps[n], x);
      assert deps == deps[..n] + [deps[n]];
    }
  }

  lemma NewFrom(procs: ProcessMap, order: seq<ProcessId>, bound: seq<ProcessId>, d: DependencyRef, x: ProcessId)
    ensures x in NewBinding(procs, order, bound, d) ==>
              || (d == OnId(x) && !Resolved(procs, bound, d))
              || (x in procs && procs[x].state.Running? && d == OnLabel(procs[x].tag))
    ensures d == OnId(x) && !Resolved(procs, bound, d) ==> x in NewBinding(procs, order, bound, d)
  {
    hide Resolved;
  }

  lemma NothingFound(procs: ProcessMap, order: seq<ProcessId>, bound: seq<ProcessId>, tag: Label)
    requires Enumerates(order, procs.Keys) && !Resolved(procs, bound, OnLabel(tag))
    ensures NewBinding(procs, order, bound, OnLabel(tag)) == [] <==> !Up(procs, tag)
  {
    hide Resolved;
    if x :| x in procs && procs[x].tag == tag && procs[x].state.Running? {
      assert x in order && Matches(procs, x, tag, false);
    }
  }

  lemma LeakIsOverlap(procs: ProcessMap, order: seq<ProcessId>, bound: seq<ProcessId>, deps: seq<DependencyRef>, d: DependencyRef)
    requires Enumerates(order, procs.Keys) && d in deps
    requires Leaks(procs, order, bound, bound + NewlyResolved(procs, order, bound, deps), d)
    ensures d.OnLabel? && exists x :: Overlaps(procs, bound, deps, d.tag, x)
  {
    var newly := NewlyResolved(procs, order, bound, deps);
    var all := bound + newly;
    assert d.OnLabel?;
    NothingFound(procs, order, bound, d.tag);
    assert forall k :: 0 <= k < |bound| ==> all[k] == bound[k];
    var i :| 0 <= i < |all| && all[i] in procs && procs[all[i]].tag == d.tag;
    assert all[i] in newly;
    NewlyFrom(procs, order, bound, deps, all[i]);
    hide NewlyResolved, Resolved, Enumerates;
    assert Overlaps(procs, bound, deps, d.tag, all[i]);
  }

  lemma OverlapLeaks(procs: ProcessMap, order: seq<ProcessId>, bound: seq<ProcessId>, deps: seq<DependencyRef>, tag: Label, x: ProcessId)
    requires Enumerates(order, procs.Keys) && Overlaps(procs, bound, deps, tag, x)
    ensures OnLabel(tag) in deps && Leaks(procs, order, bound, bound + NewlyResolved(procs, order, bound, deps), OnLabel(tag))
  {
    var newly := NewlyResolved(procs, order, bound, deps);
    var all := bound + newly;
    NothingFound(procs, order, bound, tag);
    NewlyFrom(procs, order, bound, deps, x);
    var i :| 0 <= i < |newly| && newly[i] == x;
    assert all[|bound| + i] == x;
    assert Resolved(procs, all, OnLabel(tag));
    hide NewlyResolved, Resolved, Enumerates;
  }

  /** `d` is a label reference with an overlap among the references `deps`. */
  ghost predicate Overlapped(procs: ProcessMap, bound: seq<ProcessId>, deps: seq<DependencyRef>, d: DependencyRef) {
    d.OnLabel? && exists x :: Overlaps(procs, bound, deps, d.tag, x)
  }

  /** How many of the references in `part` are. */
  ghost function OverlapCount(procs: ProcessMap, bound: seq<ProcessId>, deps: seq<DependencyRef>, part: seq<DependencyRef>): nat {
    if part == [] then 0
    else
      var n := |part| - 1;
      OverlapCount(procs, bound, deps, part[..n]) + if Overlapped(procs, bound, deps, part[n]) then 1 else 0
  }

  lemma LeaksAreOverlaps(procs: ProcessMap, order: seq<ProcessId>, bound: seq<ProcessId>, deps: seq<DependencyRef>, d: DependencyRef)
    requires Enumerates(order, procs.Keys) && d in deps
    ensures Leaks(procs, order, bound, bound + NewlyResolved(procs, order, bound, deps), d) <==> Overlapped(procs, bound, deps, d)
  {
    hide Leaks, Overlaps, NewlyResolved, Enumerates;
    if Leaks(procs, order, bound, bound + NewlyResolved(procs, order, bound, deps), d) {
      LeakIsOverlap(procs, order, bound, deps, d);
    }
    if d.OnLabel? {
      if x :| Overlaps(procs, bound, deps, d.tag, x) { OverlapLeaks(procs, order, bound, deps, d.tag, x); }
    }
  }

  lemma LeakCountIs(procs: ProcessMap, order: seq<ProcessId>, bound: seq<ProcessId>, deps: seq<DependencyRef>, part: seq<DependencyRef>)
    requires Enumerates(order, procs.Keys) && forall d :: d in part ==> d in deps
    ensures LeakCount(procs, order, bound, bound + NewlyResolved(procs, order, bound, deps), part) == OverlapCount(procs, bound, deps, part)
  {
    hide Leaks, Overlapped, NewlyResolved, Enumerates;
    if part != [] {
      var n := |part| - 1;
      LeakCountIs(procs, order, bound, deps, part[..n]);
      LeaksAreOverlaps(procs, order, bound, deps, part[n]);
    }
  }

  lemma OverlapsCounted(procs: ProcessMap, bound: seq<ProcessId>, deps: seq<DependencyRef>, part: seq<DependencyRef>)
    ensures OverlapCount(procs, bound, deps, part) > 0 <==> exists d :: d in part && Overlapped(procs, bound, deps, d)
  {
    hide Overlapped;
    if part != [] {
      var n := |part| - 1;
      OverlapsCounted(procs, bound, deps, part[..n]);
      assert part == part[..n] + [part[n]];
    }
  }

  lemma HasOverlapIs(procs: ProcessMap, p: Process)
    ensures HasOverlap(procs, p) <==> OverlapCount(procs, p.resolvedDeps, p.config.dependsOn, p.config.dependsOn) > 0
  {
    var bound, deps := p.resolvedDeps, p.config.dependsOn;
    OverlapsCounted(procs, bound, deps, deps);
    if tag, x :| Overlaps(procs, bound, deps, tag, x) {
      assert OnLabel(tag) in deps && Overlapped(procs, bound, deps, OnLabel(tag));
    }
    hide OverlapCount, Resolved, Up;
  }

  /** A judged process has what it had and the additions, and whether it can be spawned
      is a matter of the numbers and of who is Running. */
  lemma JudgedBinding(procs: ProcessMap, p: Process, order: seq<ProcessId>, at: Time)
    requires |p.resolvedDeps| <= ResolvedCount(procs, p.resolvedDeps, p.config.dependsOn) && !TimedOut(p, at)
    ensures var v := Judge(procs, p, order, at);
            var all := p.resolvedDeps + NewlyResolved(procs, order, p.resolvedDeps, p.config.dependsOn);
            && v.resolvedDeps == all
            && (v.decision.ToSpawn? <==> |all| == |p.config.dependsOn| && AllRunning(procs, all))
            && (v.decision.ToFail? ==> HasTerminal(procs, p.resolvedDeps))
  {
    var bound, deps := p.resolvedDeps, p.config.dependsOn;
    var newly := NewlyResolved(procs, order, bound, deps);
    ResolvedCountFull(procs, bound, deps);
    NewlyResolvedSparing(procs, order, bound, deps, bound + newly);
    ResolvedCountFull(procs, bound + newly, deps);
    hide NewlyResolved, ResolvedCount, HasTerminal, TimedOut, AllRunning;
    if newly == [] { assert bound + newly == bound; }
  }

  /** Some id of `bound` is not tracked any more, Failed, or Stopped without being restarted on exit. */
  ghost predicate LostOne(procs: ProcessMap, bound: seq<ProcessId>) {
    exists i ::
      && 0 <= i < |bound|
      && (bound[i] in procs ==>
            procs[bound[i]].state.Failed? || (procs[bound[i]].state.Stopped? && !procs[bound[i]].config.restartOnExit))
  }

  /** There is nothing to bind for `d`: it refers to a bound id or to the label of one still
      tracked, or nobody is Running under its label. */
  ghost predicate NothingToBind(procs: ProcessMap, bound: seq<ProcessId>, d: DependencyRef) {
    match d
    case OnId(id) => id in bound
    case OnLabel(tag) =>
      || (exists i :: 0 <= i < |bound| && bound[i] in procs && procs[bound[i]].tag == tag)
      || (forall x :: x in procs && procs[x].tag == tag ==> !procs[x].state.Running?)
  }

  lemma NothingNew(procs: ProcessMap, order: seq<ProcessId>, bound: seq<ProcessId>, deps: seq<DependencyRef>)
    requires Enumerates(order, procs.Keys)
    ensures NewlyResolved(procs, order, bound, deps) == [] <==> forall k :: 0 <= k < |deps| ==> NothingToBind(procs, bound, deps[k])
  {
    hide NewBinding, NothingToBind, Enumerates;
    if deps != [] {
      var n := |deps| - 1;
      NothingNew(procs, order, bound, deps[..n]);
      NothingNewFor(procs, order, bound, deps[n]);
    }
  }

  lemma NothingNewFor(procs: ProcessMap, order: seq<ProcessId>, bound: seq<ProcessId>, d: DependencyRef)
    requires Enumerates(order, procs.Keys)
    ensures NewBinding(procs, order, bound, d) == [] <==> NothingToBind(procs, bound, d)
  {
    if d.OnLabel? && !Resolved(procs, bound, d) { NothingFound(procs, order, bound, d.tag); }
    hide Find, Enumerates;
  }

  lemma LostOneIs(procs: ProcessMap, bound: seq<ProcessId>)
    ensures HasTerminal(procs, bound) <==> LostOne(procs, bound)
  {
    if HasTerminal(procs, bound) {
      var i :| 0 <= i < |bound| && (bound[i] !in procs || procs[bound[i]].IsTerminalDependency());
      assert bound[i] in procs ==>
          procs[bound[i]].state.Failed? || (procs[bound[i]].state.Stopped? && !procs[bound[i]].config.restartOnExit);
    }
  }

  /** When phase 5 fails a Waiting process, exactly: out of time, or with a lost binding and
      either as many ids bound as it has references or nothing new to bind just then. With a
      lost binding it is not spawned, and if it is spared, more of its references count as
      resolved than before. */
  lemma TerminalSpared(procs: ProcessMap, p: Process, order: seq<ProcessId>, at: Time)
    requires Enumerates(order, procs.Keys)
    ensures var v, bound, deps := Judge(procs, p, order, at), p.resolvedDeps, p.config.dependsOn;
            && (v.decision.ToFail? <==>
                  || (p.waitingSince.Some? && Elapsed(p.waitingSince.value, at) >= p.config.dependencyTimeout)
                  || (LostOne(procs, bound) && (|bound| == |deps| || forall k :: 0 <= k < |deps| ==> NothingToBind(procs, bound, deps[k]))))
            && (LostOne(procs, bound) ==> !v.decision.ToSpawn?)
            && (LostOne(procs, bound) && !v.decision.ToFail? ==>
                  ResolvedCount(procs, v.resolvedDeps, deps) > ResolvedCount(procs, bound, deps))
  {
    var bound, deps := p.resolvedDeps, p.config.dependsOn;
    var all := bound + NewlyResolved(procs, order, bound, deps);
    NothingNew(procs, order, bound, deps);
    LostOneIs(procs, bound);
    if HasTerminal(procs, bound) {
      var i :| 0 <= i < |bound| && (bound[i] !in procs || procs[bound[i]].IsTerminalDependency());
      assert all[i] == bound[i];
      assert !AllRunning(procs, bound) && !AllRunning(procs, all);
    } else {
      assert AllRunning(procs, bound) ==> !HasTerminal(procs, bound);
    }
    NewlyResolvedSparing(procs, order, bound, deps, all);
    hide NewlyResolved, ResolvedCount, AllRunning, HasTerminal, LostOne, NothingToBind, Enumerates;
  }

  /** Whom phase 5 finds ready has everything it is bound to Running, and has time. */
  lemma ReadyExactly(procs: ProcessMap, p: Process, order: seq<ProcessId>, at: Time)
    ensures var v, deps := Judge(procs, p, order, at), p.config.dependsOn;
            v.decision.ToSpawn? <==>
              && !(p.waitingSince.Some? && Elapsed(p.waitingSince.value, at) >= p.config.dependencyTimeout)
              && |v.resolvedDeps| == |deps|
              && forall i :: 0 <= i < |v.resolvedDeps| ==>
                   v.resolvedDeps[i] in procs && procs[v.resolvedDeps[i]].state.Running?
  {
    hide NewlyResolved, HasTerminal;
  }
}
