/** Which cycles `start` rejects. */
module AcyclicRuns {
  import opened Basics
  import opened Processes
  import opened Manager
  import opened Invariants
  import opened LaterPhases
  import opened Calls
  import opened Movement
  import opened Runs
  import opened LabelGraph

  /** Some tracked process labelled `a` depends on the label `b`. */
  ghost predicate TagEdge(procs: ProcessMap, a: Label, b: Label) {
    exists id :: id in procs && procs[id].tag == a && OnLabel(b) in procs[id].config.dependsOn
  }

  /** The edges once a process labelled `tag` with dependencies `deps` has joined. */
  ghost predicate JoinedEdge(procs: ProcessMap, tag: Label, deps: seq<DependencyRef>, a: Label, b: Label) {
    TagEdge(procs, a, b) || (a == tag && OnLabel(b) in deps)
  }

  ghost predicate JoinedLasso(procs: ProcessMap, tag: Label, deps: seq<DependencyRef>, w: seq<Label>) {
    && 2 <= |w| && w[|w| - 1] in w[..|w| - 1]
    && forall i :: 0 <= i < |w| - 1 ==> JoinedEdge(procs, tag, deps, w[i], w[i + 1])
  }

  ghost predicate AcyclicWith(procs: ProcessMap, tag: Label, deps: seq<DependencyRef>) {
    forall w :: !JoinedLasso(procs, tag, deps, w)
  }

  /** No walk over the labels of tracked processes ever closes. */
  ghost predicate Acyclic(procs: ProcessMap) {
    AcyclicWith(procs, "", [])
  }

  /** Processes with the same label declare the same dependencies; label groups of
      identical members are like that, and so are processes with unique labels. */
  ghost predicate UniformTags(procs: ProcessMap) {
    forall a, b :: a in procs && b in procs && procs[a].tag == procs[b].tag ==> procs[a].config.dependsOn == procs[b].config.dependsOn
  }

  // ------------------------------------------------- what the snapshot contains

  /** `id` is the last process of the walk with its label. */
  ghost predicate IsLast(procs: ProcessMap, order: seq<ProcessId>, id: ProcessId) {
    id in procs && exists i :: 0 <= i < |order| && order[i] == id
                               && forall j :: i < j < |order| && order[j] in procs ==> procs[order[j]].tag != procs[id].tag
  }

  lemma IsLastStep(procs: ProcessMap, order: seq<ProcessId>, x: ProcessId, id: ProcessId)
    ensures IsLast(procs, order + [x], id) <==>
              (id == x && x in procs) || (IsLast(procs, order, id) && !(x in procs && procs[x].tag == procs[id].tag))
  {
    var all := order + [x];
    if IsLast(procs, all, id) {
      var i :| 0 <= i < |all| && all[i] == id && forall j :: i < j < |all| && all[j] in procs ==> procs[all[j]].tag != procs[id].tag;
      if i < |order| {
        assert all[|order|] == x && order[i] == id;
        assert forall j :: i < j < |order| ==> order[j] == all[j];
      }
    }
    if id == x && x in procs { assert all[|order|] == id; }
    if IsLast(procs, order, id) && !(x in procs && procs[x].tag == procs[id].tag) {
      var i :| 0 <= i < |order| && order[i] == id && forall j :: i < j < |order| && order[j] in procs ==> procs[order[j]].tag != procs[id].tag;
      assert all[i] == id;
    }
  }

  /** The snapshot of the map has, for each label, the dependencies of its last process. */
  lemma GraphOfExact(procs: ProcessMap, order: seq<ProcessId>, tag: Label)
    ensures tag in GraphOf(procs, order) <==> exists id :: id in procs && IsLast(procs, order, id) && procs[id].tag == tag
    ensures forall id :: IsLast(procs, order, id) && procs[id].tag == tag ==>
              tag in GraphOf(procs, order) && GraphOf(procs, order)[tag] == procs[id].config.dependsOn
  {
    if order == [] {
      assert forall id :: !IsLast(procs, [], id);
    } else {
      var n := |order| - 1;
      assert order == order[..n] + [order[n]];
      GraphOfExact(procs, order[..n], tag);
      forall id ensures IsLast(procs, order, id) <==>
          (id == order[n] && order[n] in procs)
          || (IsLast(procs, order[..n], id) && !(order[n] in procs && procs[order[n]].tag == procs[id].tag))
      {
        IsLastStep(procs, order[..n], order[n], id);
      }
      hide IsLast;
    }
  }

  /** The processes the check can see: the last of each label in the walk, without
      those whose label the newcomer's own list takes over. */
  ghost function Listed(procs: ProcessMap, order: seq<ProcessId>, tag: Label): ProcessMap {
    map id | id in procs && procs[id].tag != tag && IsLast(procs, order, id) :: procs[id]
  }

  /** The snapshot has exactly the edges of the listed processes plus the newcomer's. */
  lemma SnapshotExact(procs: ProcessMap, order: seq<ProcessId>, tag: Label, deps: seq<DependencyRef>, a: Label, b: Label)
    ensures Edge(Snapshot(procs, order, tag, deps), a, b) <==> JoinedEdge(Listed(procs, order, tag), tag, deps, a, b)
  {
    GraphOfExact(procs, order, a);
    var listed := Listed(procs, order, tag);
    hide IsLast, GraphOf;
    if a != tag && Edge(Snapshot(procs, order, tag, deps), a, b) {
      var id :| id in procs && IsLast(procs, order, id) && procs[id].tag == a;
      assert id in listed && OnLabel(b) in listed[id].config.dependsOn;
    }
    if TagEdge(listed, a, b) {
      var id :| id in listed && listed[id].tag == a && OnLabel(b) in listed[id].config.dependsOn;
      assert IsLast(procs, order, id);
    }
  }

  ghost predicate JoinedWalk(procs: ProcessMap, tag: Label, deps: seq<DependencyRef>, w: seq<Label>) {
    forall i :: 0 <= i < |w| - 1 ==> JoinedEdge(procs, tag, deps, w[i], w[i + 1])
  }

  /** The part of a closed walk that comes back to where it began. */
  lemma LoopOf(procs: ProcessMap, tag: Label, deps: seq<DependencyRef>, w: seq<Label>) returns (loop: seq<Label>)
    requires JoinedLasso(procs, tag, deps, w)
    ensures 2 <= |loop| && loop[0] == loop[|loop| - 1] && JoinedWalk(procs, tag, deps, loop)
  {
    hide JoinedEdge;
    var n := |w| - 1;
    var i :| 0 <= i < n && w[i] == w[n];
    loop := w[i..];
    forall j | 0 <= j < |loop| - 1 ensures JoinedEdge(procs, tag, deps, loop[j], loop[j + 1]) {
      assert JoinedEdge(procs, tag, deps, w[i + j], w[i + j + 1]);
    }
  }

  /** A loop can be read from any of its labels. */
  lemma TurnLoop(procs: ProcessMap, tag: Label, deps: seq<DependencyRef>, loop: seq<Label>, k: nat) returns (v: seq<Label>)
    requires 2 <= |loop| && loop[0] == loop[|loop| - 1] && JoinedWalk(procs, tag, deps, loop) && k < |loop| - 1
    ensures JoinedLasso(procs, tag, deps, v) && v[0] == loop[k]
  {
    hide JoinedEdge;
    var m := |loop| - 1 - k;
    v := loop[k..] + loop[1..k + 1];
    forall j | 0 <= j < |v| - 1 ensures JoinedEdge(procs, tag, deps, v[j], v[j + 1]) {
      if j < m {
        assert JoinedEdge(procs, tag, deps, loop[k + j], loop[k + j + 1]);
      } else {
        assert JoinedEdge(procs, tag, deps, loop[j - m], loop[j - m + 1]);
      }
    }
    assert v[|v| - 1] == loop[k] && v[..|v| - 1][0] == loop[k];
  }

  /** A loop that avoids the newcomer was there before. */
  lemma LoopWithout(procs: ProcessMap, tag: Label, deps: seq<DependencyRef>, loop: seq<Label>)
    requires 2 <= |loop| && loop[0] == loop[|loop| - 1] && JoinedWalk(procs, tag, deps, loop)
    requires forall j :: 0 <= j < |loop| - 1 ==> loop[j] != tag
    ensures JoinedLasso(procs, "", [], loop)
  {
    forall j | 0 <= j < |loop| - 1 ensures JoinedEdge(procs, "", [], loop[j], loop[j + 1]) {
      assert JoinedEdge(procs, tag, deps, loop[j], loop[j + 1]);
    }
    assert loop[..|loop| - 1][0] == loop[|loop| - 1];
  }

  lemma LoopHasNewcomer(procs: ProcessMap, tag: Label, deps: seq<DependencyRef>, loop: seq<Label>) returns (k: nat)
    requires Acyclic(procs)
    requires 2 <= |loop| && loop[0] == loop[|loop| - 1] && JoinedWalk(procs, tag, deps, loop)
    ensures k < |loop| - 1 && loop[k] == tag
  {
    if forall j :: 0 <= j < |loop| - 1 ==> loop[j] != tag { LoopWithout(procs, tag, deps, loop); }
    k :| k < |loop| - 1 && loop[k] == tag;
  }

  /** A closed walk can be read from the newcomer. */
  lemma CycleThroughNewcomer(procs: ProcessMap, tag: Label, deps: seq<DependencyRef>, w: seq<Label>) returns (v: seq<Label>)
    requires Acyclic(procs) && JoinedLasso(procs, tag, deps, w)
    ensures JoinedLasso(procs, tag, deps, v) && v[0] == tag
  {
    hide *;
    var loop := LoopOf(procs, tag, deps, w);
    var k := LoopHasNewcomer(procs, tag, deps, loop);
    v := TurnLoop(procs, tag, deps, loop, k);
  }

  /** The check is exact for what it can see, shared labels or not: `start` rejects a
      process if and only if its joining would close a cycle among the listed
      processes, anywhere, although it searches from the new label only. */
  lemma RejectedExactly(s: State, tag: Label, config: ProcessConfig, e: StartEnv)
    requires Acyclic(Listed(s.procs, e.order, tag))
    ensures Rejected(s, tag, config, e) <==> !AcyclicWith(Listed(s.procs, e.order, tag), tag, config.dependsOn)
  {
    var deps, listed := config.dependsOn, Listed(s.procs, e.order, tag);
    var g := Snapshot(s.procs, e.order, tag, deps);
    forall a, b ensures Edge(g, a, b) <==> JoinedEdge(listed, tag, deps, a, b) {
      SnapshotExact(s.procs, e.order, tag, deps, a, b);
    }
    assert forall id :: id in listed ==> listed[id].tag != tag;
    hide Snapshot, GraphOf, Listed, Edge, JoinedEdge;
    if !AcyclicWith(listed, tag, deps) {
      var w :| JoinedLasso(listed, tag, deps, w);
      var v := CycleThroughNewcomer(listed, tag, deps, w);
      assert IsLasso(g, v);
      if deps == [] { NothingLeaves(listed, tag, v); }
    }
    if Rejected(s, tag, config, e) {
      var w :| IsLasso(g, w) && w[0] == tag;
      assert JoinedLasso(listed, tag, deps, w);
    }
  }

  lemma NothingLeaves(procs: ProcessMap, tag: Label, v: seq<Label>)
    requires (forall id :: id in procs ==> procs[id].tag != tag) && 2 <= |v| && v[0] == tag
    ensures !JoinedEdge(procs, tag, [], v[0], v[1])
  {
  }

  lemma ListedEdges(procs: ProcessMap, order: seq<ProcessId>, tag: Label, deps: seq<DependencyRef>, a: Label, b: Label)
    ensures JoinedEdge(Listed(procs, order, tag), tag, deps, a, b) ==> JoinedEdge(procs, tag, deps, a, b)
    ensures TagEdge(Listed(procs, order, tag), a, b) ==> TagEdge(procs, a, b)
  {
  }

  lemma ListedAcyclic(procs: ProcessMap, order: seq<ProcessId>, tag: Label)
    requires Acyclic(procs)
    ensures Acyclic(Listed(procs, order, tag))
  {
    AcyclicShrinks(procs, Listed(procs, order, tag));
  }

  /** The closed walk takes an edge that only processes outside the snapshot have. */
  ghost predicate Escapes(procs: ProcessMap, order: seq<ProcessId>, tag: Label, deps: seq<DependencyRef>, w: seq<Label>) {
    exists i :: 0 <= i < |w| - 1 && !JoinedEdge(Listed(procs, order, tag), tag, deps, w[i], w[i + 1])
  }

  /** Among cycles over labels alone the check misses those that run through a process
      the snapshot does not list. */
  lemma LabelCyclesMissed(s: State, tag: Label, config: ProcessConfig, e: StartEnv)
    requires Acyclic(s.procs)
    ensures !Rejected(s, tag, config, e) <==>
              forall w :: JoinedLasso(s.procs, tag, config.dependsOn, w) ==> Escapes(s.procs, e.order, tag, config.dependsOn, w)
  {
    var deps, listed := config.dependsOn, Listed(s.procs, e.order, tag);
    ListedAcyclic(s.procs, e.order, tag);
    RejectedExactly(s, tag, config, e);
    hide Rejected, Listed, JoinedEdge, Acyclic;
    if !AcyclicWith(listed, tag, deps) {
      var w :| JoinedLasso(listed, tag, deps, w);
      forall i | 0 <= i < |w| - 1 ensures JoinedEdge(s.procs, tag, deps, w[i], w[i + 1]) {
        ListedEdges(s.procs, e.order, tag, deps, w[i], w[i + 1]);
      }
      assert JoinedLasso(s.procs, tag, deps, w) && !Escapes(s.procs, e.order, tag, deps, w);
    } else {
      forall w | JoinedLasso(s.procs, tag, deps, w) ensures Escapes(s.procs, e.order, tag, deps, w) {
        assert !JoinedLasso(listed, tag, deps, w);
      }
    }
  }

  // ------------------------------------------------------ references by id

  ghost predicate Carries(procs: ProcessMap, newcomer: ProcessId, tag: Label, x: ProcessId, b: Label) {
    (x in procs && procs[x].tag == b) || (x == newcomer && tag == b)
  }

  /** Once the newcomer has joined, somebody labelled `a` needs somebody labelled `b`,
      to whom it refers by the label or by the id. */
  ghost predicate NeedsEdge(procs: ProcessMap, newcomer: ProcessId, tag: Label, deps: seq<DependencyRef>, a: Label, b: Label) {
    || JoinedEdge(procs, tag, deps, a, b)
    || (exists id, x :: id in procs && procs[id].tag == a && OnId(x) in procs[id].config.dependsOn && Carries(procs, newcomer, tag, x, b))
    || (a == tag && exists x :: OnId(x) in deps && Carries(procs, newcomer, tag, x, b))
  }

  ghost predicate NeedsLasso(procs: ProcessMap, newcomer: ProcessId, tag: Label, deps: seq<DependencyRef>, w: seq<Label>) {
    && 2 <= |w| && w[|w| - 1] in w[..|w| - 1]
    && forall i :: 0 <= i < |w| - 1 ==> NeedsEdge(procs, newcomer, tag, deps, w[i], w[i + 1])
  }

  /** What the check misses: on a map without label cycles `start` accepts a process if
      and only if every cycle of needs that it closes has a link that is not a label
      reference of a listed process: one by id, or one of a displaced process. */
  lemma AcceptedExactly(s: State, tag: Label, config: ProcessConfig, e: StartEnv)
    requires Acyclic(s.procs)
    ensures !Rejected(s, tag, config, e) <==>
              forall w :: NeedsLasso(s.procs, s.nextId, tag, config.dependsOn, w) ==> Escapes(s.procs, e.order, tag, config.dependsOn, w)
  {
    var deps := config.dependsOn;
    LabelCyclesMissed(s, tag, config, e);
    hide Rejected, Listed, JoinedEdge, Acyclic;
    forall w ensures JoinedLasso(s.procs, tag, deps, w) ==> NeedsLasso(s.procs, s.nextId, tag, deps, w) {}
    forall w | NeedsLasso(s.procs, s.nextId, tag, deps, w) && !Escapes(s.procs, e.order, tag, deps, w)
      ensures JoinedLasso(s.procs, tag, deps, w)
    {
      forall i | 0 <= i < |w| - 1 ensures JoinedEdge(s.procs, tag, deps, w[i], w[i + 1]) {
        ListedEdges(s.procs, e.order, tag, deps, w[i], w[i + 1]);
      }
    }
  }

  // ---------------------------------------------------------- label groups

  /** The newcomer shares the dependencies of its group. */
  ghost predicate FitsGroup(procs: ProcessMap, tag: Label, deps: seq<DependencyRef>) {
    forall id :: id in procs && procs[id].tag == tag ==> procs[id].config.dependsOn == deps
  }

  lemma LastOfLabel(procs: ProcessMap, order: seq<ProcessId>, id: ProcessId) returns (last: ProcessId)
    requires id in order && id in procs
    ensures IsLast(procs, order, last) && last in procs && procs[last].tag == procs[id].tag
  {
    var n := |order| - 1;
    assert order == order[..n] + [order[n]];
    if order[n] in procs && procs[order[n]].tag == procs[id].tag {
      last := order[n];
    } else {
      last := LastOfLabel(procs, order[..n], id);
    }
    IsLastStep(procs, order[..n], order[n], last);
  }

  lemma UniformEdges(procs: ProcessMap, order: seq<ProcessId>, tag: Label, deps: seq<DependencyRef>, a: Label, b: Label)
    requires UniformTags(procs) && FitsGroup(procs, tag, deps) && Enumerates(order, procs.Keys)
    requires JoinedEdge(procs, tag, deps, a, b)
    ensures JoinedEdge(Listed(procs, order, tag), tag, deps, a, b)
  {
    if a != tag {
      var id :| id in procs && procs[id].tag == a && OnLabel(b) in procs[id].config.dependsOn;
      var last := LastOfLabel(procs, order, id);
      hide IsLast;
      assert last in Listed(procs, order, tag) && OnLabel(b) in Listed(procs, order, tag)[last].config.dependsOn;
    }
  }

  /** With uniform labels nothing is missed: the check accepts only what keeps the whole graph acyclic. */
  lemma AcceptedUniform(s: State, tag: Label, config: ProcessConfig, e: StartEnv)
    requires UniformTags(s.procs) && FitsGroup(s.procs, tag, config.dependsOn)
    requires Acyclic(s.procs) && Enumerates(e.order, s.procs.Keys)
    ensures Rejected(s, tag, config, e) <==> !AcyclicWith(s.procs, tag, config.dependsOn)
  {
    var deps := config.dependsOn;
    LabelCyclesMissed(s, tag, config, e);
    hide Rejected, Listed, JoinedEdge, Acyclic, UniformTags, FitsGroup, Enumerates;
    forall w | JoinedLasso(s.procs, tag, deps, w) ensures !Escapes(s.procs, e.order, tag, deps, w) {
      forall i | 0 <= i < |w| - 1 ensures JoinedEdge(Listed(s.procs, e.order, tag), tag, deps, w[i], w[i + 1]) {
        UniformEdges(s.procs, e.order, tag, deps, w[i], w[i + 1]);
      }
    }
  }

  lemma LassoCarries(after: ProcessMap, before: ProcessMap, tag: Label, deps: seq<DependencyRef>, w: seq<Label>)
    requires JoinedLasso(after, "", [], w)
    requires forall id :: id in after ==>
               if id in before then after[id].tag == before[id].tag && after[id].config == before[id].config
               else after[id].tag == tag && after[id].config.dependsOn == deps
    ensures JoinedLasso(before, tag, deps, w)
  {
    forall i | 0 <= i < |w| - 1 ensures JoinedEdge(before, tag, deps, w[i], w[i + 1]) {
      assert JoinedEdge(after, "", [], w[i], w[i + 1]);
    }
  }

  /** Fewer processes with the same labels and dependencies have fewer edges. */
  lemma AcyclicShrinks(before: ProcessMap, after: ProcessMap)
    requires Acyclic(before)
    requires forall id :: id in after ==> id in before && after[id].tag == before[id].tag && after[id].config == before[id].config
    ensures Acyclic(after)
  {
    forall w ensures !JoinedLasso(after, "", [], w) {
      if JoinedLasso(after, "", [], w) { LassoCarries(after, before, "", [], w); }
    }
  }

  /** What `start` adds to the map. */
  lemma StartAdds(s: State, tag: Label, config: ProcessConfig, e: StartEnv)
    requires Invariant(s)
    ensures var s' := Start(s, tag, config, e).state;
            && s'.procs.Keys <= s.procs.Keys + {s.nextId} && s.procs.Keys <= s'.procs.Keys && s.nextId !in s.procs
            && (forall id :: id in s.procs ==> s'.procs[id].tag == s.procs[id].tag && s'.procs[id].config == s.procs[id].config)
            && (s.nextId in s'.procs ==>
                  !Rejected(s, tag, config, e) && s'.procs[s.nextId].tag == tag && s'.procs[s.nextId].config == config)
  {
    hide *;
    InvariantStructural(s);
    StartMap(s, tag, config, e);
    PolledKeepsIdentity(s.procs, StartPolls(s.(nextId := s.nextId + 1), config, e).procs);
  }

  lemma UniformBefore(s: State, procs: ProcessMap, id: ProcessId)
    requires UniformTags(procs) && forall x :: x in s.procs ==> x in procs && procs[x].tag == s.procs[x].tag && procs[x].config == s.procs[x].config
    ensures UniformTags(s.procs)
    ensures id in procs && id !in s.procs ==> FitsGroup(s.procs, procs[id].tag, procs[id].config.dependsOn)
  {
  }

  lemma StartStaysAcyclic(s: State, tag: Label, config: ProcessConfig, e: StartEnv)
    requires Invariant(s) && Acyclic(s.procs) && Enumerates(e.order, s.procs.Keys)
    requires UniformTags(Start(s, tag, config, e).state.procs)
    ensures Acyclic(Start(s, tag, config, e).state.procs)
  {
    hide *;
    var s' := Start(s, tag, config, e).state;
    StartAdds(s, tag, config, e);
    UniformBefore(s, s'.procs, s.nextId);
    if s.nextId in s'.procs {
      AcceptedUniform(s, tag, config, e);
      AcyclicJoined(s.procs, s'.procs, tag, config, s.nextId);
    } else {
      AcyclicShrinks(s.procs, s'.procs);
    }
  }

  lemma AcyclicJoined(before: ProcessMap, after: ProcessMap, tag: Label, config: ProcessConfig, id: ProcessId)
    requires AcyclicWith(before, tag, config.dependsOn) && id !in before
    requires forall x :: x in after ==>
               if x == id then after[x].tag == tag && after[x].config == config
               else x in before && after[x].tag == before[x].tag && after[x].config == before[x].config
    ensures Acyclic(after)
  {
    forall w ensures !JoinedLasso(after, "", [], w) {
      if JoinedLasso(after, "", [], w) { LassoCarries(after, before, tag, config.dependsOn, w); }
    }
  }

  lemma StepStaysAcyclic(s: State, step: Step)
    requires Invariant(s) && Legal(s, step) && Acyclic(s.procs) && UniformTags(Apply(s, step).procs)
    ensures Acyclic(Apply(s, step).procs)
  {
    if step.DoStart? {
      StartStaysAcyclic(s, step.tag, step.config, step.start);
    } else {
      OnlyStartTracks(s, step);
      StepKeeps(s, step);
      AcyclicShrinks(s.procs, Apply(s, step).procs);
    }
  }

  /** At any point of the run processes with the same label declare the same dependencies. */
  ghost predicate AlwaysUniform(r: Run) {
    forall n :: 0 <= n < |r.states| ==> UniformTags(r.states[n].procs)
  }

  lemma UniformAt(r: Run, n: nat)
    requires AlwaysUniform(r) && n < |r.states|
    ensures UniformTags(r.states[n].procs)
  {
  }

  /** In every run in which processes with one label agree on their dependencies, as
      they do when no two ever share a label, the whole label graph is free of
      cycles at every moment. */
  lemma RunsStayAcyclic(r: Run, n: nat)
    requires IsRun(r) && AlwaysUniform(r) && n < |r.states|
    ensures Acyclic(r.states[n].procs)
  {
    hide *;
    if n == 0 {
      InitialInvariant(r);
      InitialAcyclic();
    } else {
      LastStep(r, n);
      RunsStayAcyclic(r, n - 1);
      RunInvariant(r, n - 1);
      UniformAt(r, n);
      StepStaysAcyclic(r.states[n - 1], r.steps[n - 1]);
    }
  }

  lemma InitialAcyclic()
    ensures Acyclic(INITIAL.procs)
  {
    EmptyIsAcyclic();
  }

  lemma EmptyIsAcyclic()
    ensures Acyclic(map[])
  {
    forall w ensures !JoinedLasso(map[], "", [], w) {
      if 2 <= |w| { assert !JoinedEdge(map[], "", [], w[0], w[1]); }
    }
  }
}
