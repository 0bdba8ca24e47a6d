/** Cycle detection on labels. */
module LabelGraph {
  import opened Basics
  import opened Processes

  type DepGraph = map<Label, seq<DependencyRef>>

  ghost predicate Edge(graph: DepGraph, a: Label, b: Label) {
    a in graph && OnLabel(b) in graph[a]
  }

  ghost predicate IsWalk(graph: DepGraph, w: seq<Label>) {
    forall i :: 0 <= i < |w| - 1 ==> Edge(graph, w[i], w[i + 1])
  }

  /** A walk whose last label already occurs earlier on it. */
  ghost predicate IsLasso(graph: DepGraph, w: seq<Label>) {
    2 <= |w| && IsWalk(graph, w) && w[|w| - 1] in w[..|w| - 1]
  }

  ghost predicate CycleReachable(graph: DepGraph, start: Label) {
    exists w :: IsLasso(graph, w) && w[0] == start
  }

  /** The label sequence of an error's path, read from the start label. */
  function Labels(start: Label, path: seq<DependencyRef>): (w: seq<Label>)
    ensures |w| == |path| + 1 && w[0] == start
    ensures forall i :: 0 <= i < |path| && path[i].OnLabel? ==> w[i + 1] == path[i].tag
  {
    [start] + seq(|path|, i requires 0 <= i < |path| => if path[i].OnLabel? then path[i].tag else "")
  }

  ghost predicate OnlyLabels(path: seq<DependencyRef>) {
    forall i :: 0 <= i < |path| ==> path[i].OnLabel?
  }

  ghost predicate SameLabels(labels: set<Label>, w: seq<Label>) {
    forall l :: l in labels <==> l in w
  }

  /** `path` spells a walk from `start` that ends in `last`. */
  ghost predicate WalksTo(graph: DepGraph, start: Label, path: seq<DependencyRef>, last: Label) {
    && OnlyLabels(path)
    && IsWalk(graph, Labels(start, path))
    && Labels(start, path)[|path|] == last
  }

  lemma WalkOn(graph: DepGraph, start: Label, path: seq<DependencyRef>, last: Label, d: DependencyRef)
    requires WalksTo(graph, start, path, last) && d.OnLabel? && Edge(graph, last, d.tag)
    ensures WalksTo(graph, start, path + [d], d.tag)
    ensures Labels(start, path + [d]) == Labels(start, path) + [d.tag]
  {
    var w := Labels(start, path);
    assert Labels(start, path + [d]) == w + [d.tag];
    forall i | 0 <= i < |w| ensures Edge(graph, (w + [d.tag])[i], (w + [d.tag])[i + 1]) {
      if i < |w| - 1 { assert Edge(graph, w[i], w[i + 1]); }
    }
  }

  lemma CloseLasso(graph: DepGraph, start: Label, path: seq<DependencyRef>, last: Label, d: DependencyRef)
    requires WalksTo(graph, start, path, last) && d.OnLabel? && Edge(graph, last, d.tag)
    requires d.tag in Labels(start, path)
    ensures OnlyLabels(path + [d]) && IsLasso(graph, Labels(start, path + [d]))
  {
    WalkOn(graph, start, path, last, d);
    var w := Labels(start, path + [d]);
    assert w[..|w| - 1] == Labels(start, path);
  }

  /** A walk into a cycle stays one after its first step: a cycle through the
      first label is rotated by one. */
  lemma LassoTail(graph: DepGraph, w: seq<Label>) returns (tail: seq<Label>)
    requires IsLasso(graph, w)
    ensures IsLasso(graph, tail) && tail[0] == w[1]
  {
    var n := |w|;
    var i :| 0 <= i < n - 1 && w[i] == w[n - 1];
    tail := if i == 0 then w[1..] + [w[1]] else w[1..];
    forall k | 0 <= k < |tail| - 1 ensures Edge(graph, tail[k], tail[k + 1]) {
      assert Edge(graph, w[0], w[1]);
      if k < n - 2 {
        assert Edge(graph, w[k + 1], w[k + 2]);
      }
    }
    var j := if i == 0 then 0 else i - 1;
    assert tail[..|tail| - 1][j] == tail[|tail| - 1];
  }

  lemma CycleStep(graph: DepGraph, a: Label)
    requires CycleReachable(graph, a)
    ensures exists b :: Edge(graph, a, b) && CycleReachable(graph, b)
  {
    var w :| IsLasso(graph, w) && w[0] == a;
    var tail := LassoTail(graph, w);
    assert Edge(graph, w[0], w[1]);
  }

  lemma SafeFromSuccessors(graph: DepGraph, a: Label)
    requires forall b :: Edge(graph, a, b) ==> !CycleReachable(graph, b)
    ensures !CycleReachable(graph, a)
  {
    if CycleReachable(graph, a) { CycleStep(graph, a); }
  }

  /** The search, with the three collections its recursion threads through. */
  class CycleSearch {
    const graph: DepGraph
    ghost const start: Label
    var visited: set<Label>
    var path: seq<DependencyRef>
    var pathLabels: set<Label>

    constructor (graph: DepGraph, start: Label)
      ensures this.graph == graph && this.start == start
      ensures visited == {} && path == [] && pathLabels == {}
    {
      this.graph, this.start := graph, start;
      visited, path, pathLabels := {}, [], {};
    }

    /** Nothing that was fully explored reaches a cycle. */
    ghost predicate Valid()
      reads this
    {
      forall v :: v in visited ==> !CycleReachable(graph, v)
    }

    method Dfs(current: Label, dependsOn: seq<DependencyRef>) returns (ok: bool)
      requires Valid() && current in graph && graph[current] == dependsOn
      requires WalksTo(graph, start, path, current)
      requires current !in pathLabels && SameLabels(pathLabels + {current}, Labels(start, path))
      modifies this
      ensures Valid() && old(visited) <= visited
      ensures ok ==> path == old(path) && pathLabels == old(pathLabels) && !CycleReachable(graph, current)
      ensures !ok ==> OnlyLabels(path) && IsLasso(graph, Labels(start, path))
      decreases graph.Keys - pathLabels
    {
      hide WalksTo, IsLasso, CycleReachable, Labels;
      pathLabels := pathLabels + {current};
      for i := 0 to |dependsOn|
        invariant Valid() && old(visited) <= visited
        invariant path == old(path) && pathLabels == old(pathLabels) + {current}
        invariant forall k :: 0 <= k < i && dependsOn[k].OnLabel? ==> !CycleReachable(graph, dependsOn[k].tag)
      {
        var dep := dependsOn[i];
        match dep {
          case OnLabel(target) =>
            if target in pathLabels {
              CloseLasso(graph, start, path, current, dep);
              path := path + [dep];
              return false;
            }
            if target in visited {
              continue;
            }
            WalkOn(graph, start, path, current, dep);
            path := path + [dep];
            if target in graph {
              var clean := Dfs(target, graph[target]);
              if !clean {
                return false;
              }
            } else {
              SafeFromSuccessors(graph, target);
            }
            path := path[..|path| - 1];
          case OnId(_) =>
        }
      }
      SafeFromSuccessors(graph, current);
      pathLabels := pathLabels - {current};
      visited := visited + {current};
      return true;
    }
  }

  /** `detect_cycle`: accepts exactly when no label cycle can be reached from the
      start label; a rejection carries a walk that closes on itself. */
  method DetectCycle(graph: DepGraph, start: Label, dependsOn: seq<DependencyRef>)
      returns (ok: bool, cycle: seq<DependencyRef>)
    requires start in graph && graph[start] == dependsOn
    ensures ok <==> !CycleReachable(graph, start)
    ensures !ok ==> OnlyLabels(cycle) && IsLasso(graph, Labels(start, cycle))
  {
    var search := new CycleSearch(graph, start);
    ok := search.Dfs(start, dependsOn);
    cycle := search.path;
  }
}
