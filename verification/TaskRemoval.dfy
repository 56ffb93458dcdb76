/** Removing tasks from a failing scenario: `_without_task` and `_remove_tasks`, with the model's `validate_dag`. */
module TaskRemoval {
  import opened Graph
  import opened Kahn
  import opened DslGraph
  import Shrinker

  datatype Verdict = Accepted(order: seq<string>) | Rejected

  /** The dependencies of a task are other tasks, each listed once. */
  ghost predicate DepsOk(g: Graph, b: string)
    requires b in g
  {
    NoDup(g[b]) && b !in g[b] && Elements(g[b]) <= g.Keys
  }

  /** What `validate_dag` demands. */
  ghost predicate ValidDag(tasks: seq<TaskNode>) {
    tasks != [] && UniqueIds(tasks) && ValidGraph(ById(tasks))
  }

  ghost predicate ValidGraph(g: Graph) {
    (forall b :: b in g ==> DepsOk(g, b)) && !HasCycle(g)
  }

  lemma ValidClosed(g: Graph)
    requires forall b :: b in g ==> DepsOk(g, b)
    ensures Closed(g)
  {
    forall a, b | Edge(g, a, b) ensures a in g {
      assert DepsOk(g, b);
      assert a in Elements(g[b]);
    }
  }

  // The graph edit

  function Expand(deps: seq<string>, target: string, targetDeps: seq<string>): (r: seq<string>)
    ensures forall a :: a in r <==> (a in deps && a != target) || (target in deps && a in targetDeps)
  {
    if deps == [] then []
    else (if deps[0] == target then targetDeps else [deps[0]]) + Expand(deps[1..], target, targetDeps)
  }

  /** `dict.fromkeys`: the first occurrence of each element, in order. */
  function Dedupe(s: seq<string>): (r: seq<string>)
    ensures NoDup(r) && forall a :: a in r <==> a in s
  {
    if s == [] then []
    else
      var r := Dedupe(s[..|s| - 1]);
      if s[|s| - 1] in r then r else r + [s[|s| - 1]]
  }

  function Rewired(deps: seq<string>, target: string, targetDeps: seq<string>): seq<string> {
    if target in deps then Dedupe(Expand(deps, target, targetDeps)) else deps
  }

  function Splice(g: Graph, target: string): (h: Graph)
    ensures h.Keys == g.Keys - {target}
  {
    SpliceWith(g, target, Lookup(g, target))
  }

  function SpliceWith(byId: map<string, seq<string>>, target: string,
      targetDeps: seq<string>): (h: map<string, seq<string>>)
    ensures h.Keys == byId.Keys - {target}
  {
    map b | b in byId && b != target :: Rewired(byId[b], target, targetDeps)
  }

  lemma SpliceEdge(g: Graph, target: string, a: string, b: string)
    ensures Edge(Splice(g, target), a, b) <==>
      b != target && ((target !in Lookup(g, b) && Edge(g, a, b))
                      || (Edge(g, target, b) && ((a != target && Edge(g, a, b)) || a in Lookup(g, target))))
  {
  }

  lemma CycleIsReach(g: Graph)
    ensures HasCycle(g) <==> exists a :: Reaches(g, a, a)
  {
    if HasCycle(g) {
      var p :| Cycle(g, p);
      assert Reaches(g, p[0], p[0]);
    }
    if a :| Reaches(g, a, a) {
      var p :| Path(g, p) && |p| >= 2 && p[0] == a && p[|p| - 1] == a;
      assert Cycle(g, p);
    }
  }

  lemma NoSelfEdge(g: Graph, a: string)
    requires Closed(g) && !HasCycle(g)
    ensures !Edge(g, a, a)
  {
    if Edge(g, a, a) {
      assert Cycle(g, [a, a]);
      assert false;
    }
  }

  /** A path of the spliced graph leads along one or two edges at a time of the old one. */
  lemma {:induction false} SplicedPathWas(g: Graph, target: string, p: seq<string>)
    requires Closed(g) && !HasCycle(g) && target in g && Path(Splice(g, target), p) && |p| >= 2
    ensures Reaches(g, p[0], p[|p| - 1])
  {
    var h := Splice(g, target);
    var n := |p|;
    var a, b := p[n - 2], p[n - 1];
    assert Edge(h, a, b) && a in h by {
      assert Edge(h, p[n - 2], p[n - 1]);
      PathSlice(h, p, n - 2, n);
    }
    SpliceEdge(g, target, a, b);
    if a in g[target] && Edge(g, target, b) {
      ReachesEdge(g, target, b);
      assert Edge(g, a, target);
      ReachesEdge(g, a, target);
      ReachesTransitive(g, a, target, b);
    } else {
      ReachesEdge(g, a, b);
    }
    if n > 2 {
      PathSlice(h, p, 0, n - 1);
      SplicedPathWas(g, target, p[0..n - 1]);
      ReachesTransitive(g, p[0], a, b);
    }
  }

  /** A path between remaining tasks survives: it steps over the removed task. */
  lemma {:induction false} PathSurvives(g: Graph, target: string, p: seq<string>)
    requires Closed(g) && !HasCycle(g) && target in g
    requires Path(g, p) && |p| >= 2 && p[0] != target && p[|p| - 1] != target
    ensures Reaches(Splice(g, target), p[0], p[|p| - 1])
    decreases |p|
  {
    var h := Splice(g, target);
    assert Edge(g, p[0], p[1]);
    NoSelfEdge(g, target);
    if p[1] != target {
      SpliceEdge(g, target, p[0], p[1]);
      SurvivesFrom(g, target, p, 1);
    } else {
      assert Edge(g, p[1], p[2]);
      SpliceEdge(g, target, p[0], p[2]);
      SurvivesFrom(g, target, p, 2);
    }
  }

  lemma {:induction false} SurvivesFrom(g: Graph, target: string, p: seq<string>, k: nat)
    requires Closed(g) && !HasCycle(g) && target in g
    requires Path(g, p) && 1 <= k < |p| && p[0] != target && p[|p| - 1] != target && p[k] != target
    requires Edge(Splice(g, target), p[0], p[k])
    ensures Reaches(Splice(g, target), p[0], p[|p| - 1])
    decreases |p|, 0
  {
    hide Splice, Reaches, HasCycle, Closed;
    ReachesEdge(Splice(g, target), p[0], p[k]);
    if k < |p| - 1 {
      PathSlice(g, p, k, |p|);
      PathSurvives(g, target, p[k..|p|]);
      ReachesTransitive(Splice(g, target), p[0], p[k], p[|p| - 1]);
    }
  }

  /** The remaining tasks `keep` reach each other in `h` exactly as they did in `g`. */
  ghost predicate SameReach(g: Graph, h: Graph) {
    && h.Keys <= g.Keys
    && forall a, b :: a in h && b in h ==> (Reaches(h, a, b) <==> Reaches(g, a, b))
  }

  lemma SpliceKeepsReach(g: Graph, target: string)
    requires Closed(g) && !HasCycle(g) && target in g
    ensures SameReach(g, Splice(g, target))
  {
    var h := Splice(g, target);
    forall a, b | a in h && b in h ensures Reaches(h, a, b) <==> Reaches(g, a, b) {
      if Reaches(h, a, b) {
        var p :| Path(h, p) && |p| >= 2 && p[0] == a && p[|p| - 1] == b;
        SplicedPathWas(g, target, p);
      }
      if Reaches(g, a, b) {
        var p :| Path(g, p) && |p| >= 2 && p[0] == a && p[|p| - 1] == b;
        PathSurvives(g, target, p);
      }
    }
  }

  /** Splicing keeps a valid graph valid. */
  lemma SpliceValid(g: Graph, target: string)
    requires ValidGraph(g) && target in g
    ensures ValidGraph(Splice(g, target))
  {
    var h := Splice(g, target);
    ValidClosed(g);
    SpliceKeepsReach(g, target);
    forall b | b in h ensures DepsOk(h, b) {
      assert DepsOk(g, b) && DepsOk(g, target);
      forall a | a in h[b] ensures a in h && a != b {
        SpliceEdge(g, target, a, b);
        assert Edge(h, a, b);
        if a in g[target] && Edge(g, target, b) {
          StepOver(g, target, a, b);
          assert a in Elements(g[target]);
        } else {
          NoSelfEdge(g, b);
          assert a in Elements(g[b]);
        }
      }
    }
    forall a ensures Reaches(h, a, a) ==> Reaches(g, a, a) {
      if Reaches(h, a, a) {
        var p :| Path(h, p) && |p| >= 2 && p[0] == a && p[|p| - 1] == a;
        assert a in h;
      }
    }
    CycleIsReach(g);
    CycleIsReach(h);
  }

  lemma StepOver(g: Graph, target: string, a: string, b: string)
    requires Closed(g) && !HasCycle(g) && Edge(g, a, target) && Edge(g, target, b)
    ensures a != b && a != target
  {
    NoSelfEdge(g, target);
    if a == b {
      assert Cycle(g, [a, target, a]);
      assert false;
    }
  }

  // _without_task

  function Spliced(tasks: seq<TaskNode>, target: string, targetDeps: seq<string>): seq<TaskNode> {
    if tasks == [] then []
    else
      var t := tasks[|tasks| - 1];
      Spliced(tasks[..|tasks| - 1], target, targetDeps)
      + if t.id == target then [] else [t.(dependsOn := Rewired(t.dependsOn, target, targetDeps))]
  }

  /** `deps` are the dependencies of the first task with the id, if there is one. */
  ghost predicate FirstDeps(tasks: seq<TaskNode>, target: string, deps: seq<string>) {
    if forall k :: 0 <= k < |tasks| ==> tasks[k].id != target then deps == []
    else
      exists k :: 0 <= k < |tasks| && tasks[k].id == target && tasks[k].dependsOn == deps
                  && forall j :: 0 <= j < k ==> tasks[j].id != target
  }

  method TargetDeps(tasks: seq<TaskNode>, target: string) returns (deps: seq<string>)
    ensures FirstDeps(tasks, target, deps)
    ensures UniqueIds(tasks) ==> deps == Lookup(ById(tasks), target)
  {
    for k := 0 to |tasks|
      invariant forall j :: 0 <= j < k ==> tasks[j].id != target
    {
      if tasks[k].id == target {
        if UniqueIds(tasks) { ByIdLookup(tasks, k); }
        return tasks[k].dependsOn;
      }
    }
    ByIdKeys(tasks);
    return [];
  }

  lemma {:induction false} ByIdLookup(tasks: seq<TaskNode>, k: nat)
    requires UniqueIds(tasks) && k < |tasks|
    ensures tasks[k].id in ById(tasks) && ById(tasks)[tasks[k].id] == tasks[k].dependsOn
  {
    var init := tasks[..|tasks| - 1];
    if k < |init| {
      assert IdList(init) == IdList(tasks)[..|init|];
      assert IdList(tasks)[k] != IdList(tasks)[|init|];
      ByIdLookup(init, k);
    }
  }

  method WithoutTask(tasks: seq<TaskNode>, target: string) returns (remaining: seq<TaskNode>)
    ensures exists deps :: FirstDeps(tasks, target, deps) && remaining == Spliced(tasks, target, deps)
    ensures UniqueIds(tasks) ==> remaining == Spliced(tasks, target, Lookup(ById(tasks), target))
  {
    hide UniqueIds, FirstDeps;
    var targetDeps := TargetDeps(tasks, target);
    remaining := [];
    for k := 0 to |tasks|
      invariant remaining == Spliced(tasks[..k], target, targetDeps)
    {
      var task := tasks[k];
      assert tasks[..k + 1][..k] == tasks[..k];
      if task.id == target { continue; }
      var copy := task;
      if target in copy.dependsOn {
        var expanded := [];
        for j := 0 to |task.dependsOn|
          invariant expanded == Expand(task.dependsOn[..j], target, targetDeps)
        {
          ExpandSnoc(task.dependsOn[..j], task.dependsOn[j], target, targetDeps);
          assert task.dependsOn[..j + 1] == task.dependsOn[..j] + [task.dependsOn[j]];
          expanded := expanded + if task.dependsOn[j] == target then targetDeps else [task.dependsOn[j]];
        }
        assert task.dependsOn[..|task.dependsOn|] == task.dependsOn;
        copy := copy.(dependsOn := Dedupe(expanded));
      }
      remaining := remaining + [copy];
    }
    assert tasks[..|tasks|] == tasks;
  }

  lemma {:induction false} ExpandSnoc(deps: seq<string>, x: string, target: string, targetDeps: seq<string>)
    ensures Expand(deps + [x], target, targetDeps)
         == Expand(deps, target, targetDeps) + if x == target then targetDeps else [x]
  {
    if deps == [] {
      assert Expand([x], target, targetDeps) == (if x == target then targetDeps else [x])
          + Expand([], target, targetDeps);
    } else {
      assert (deps + [x])[1..] == deps[1..] + [x];
      ExpandSnoc(deps[1..], x, target, targetDeps);
    }
  }

  lemma SplicedNothing(target: string, targetDeps: seq<string>)
    ensures Spliced([], target, targetDeps) == []
  {
  }

  lemma SplicedStep(tasks: seq<TaskNode>, target: string, targetDeps: seq<string>)
    requires tasks != []
    ensures var t, rest := tasks[|tasks| - 1], Spliced(tasks[..|tasks| - 1], target, targetDeps);
      Spliced(tasks, target, targetDeps) ==
      if t.id == target then rest else rest + [TaskNode(t.id, Rewired(t.dependsOn, target, targetDeps))]
  {
  }

  lemma SpliceUpdate(byId: map<string, seq<string>>, id: string, deps: seq<string>, target: string,
      targetDeps: seq<string>)
    ensures SpliceWith(byId[id := deps], target, targetDeps) ==
      if id == target then SpliceWith(byId, target, targetDeps)
      else SpliceWith(byId, target, targetDeps)[id := Rewired(deps, target, targetDeps)]
  {
  }

  lemma ByIdSnoc(tasks: seq<TaskNode>, t: TaskNode)
    ensures ById(tasks + [t]) == ById(tasks)[t.id := t.dependsOn]
  {
    assert (tasks + [t])[..|tasks|] == tasks;
  }

  lemma {:induction false} SplicedGraph(tasks: seq<TaskNode>, target: string, targetDeps: seq<string>)
    ensures ById(Spliced(tasks, target, targetDeps)) == SpliceWith(ById(tasks), target, targetDeps)
    ensures |Spliced(tasks, target, targetDeps)| <= |tasks|
  {
    hide Spliced, SpliceWith, Rewired;
    if tasks == [] {
      SplicedNothing(target, targetDeps);
      assert SpliceWith(map[], target, targetDeps) == map[];
    } else {
      var init, t := tasks[..|tasks| - 1], tasks[|tasks| - 1];
      SplicedGraph(init, target, targetDeps);
      SplicedStep(tasks, target, targetDeps);
      SpliceUpdate(ById(init), t.id, t.dependsOn, target, targetDeps);
      ByIdSnoc(Spliced(init, target, targetDeps), TaskNode(t.id, Rewired(t.dependsOn, target, targetDeps)));
    }
  }

  lemma {:induction false} SplicedUnique(tasks: seq<TaskNode>, target: string, targetDeps: seq<string>)
    requires UniqueIds(tasks)
    ensures UniqueIds(Spliced(tasks, target, targetDeps))
    ensures forall x :: x in IdList(Spliced(tasks, target, targetDeps)) ==> x in IdList(tasks)
  {
    if tasks != [] {
      var init, t := tasks[..|tasks| - 1], tasks[|tasks| - 1];
      assert IdList(tasks) == IdList(init) + [t.id];
      assert IdList(tasks)[..|init|] == IdList(init);
      SplicedUnique(init, target, targetDeps);
      SplicedStep(tasks, target, targetDeps);
      var rest, all := Spliced(init, target, targetDeps), Spliced(tasks, target, targetDeps);
      if t.id != target { assert IdList(all) == IdList(rest) + [t.id]; } else { assert all == rest; }
      assert t.id !in IdList(init) by { assert IdList(tasks)[|init|] == t.id; }
    }
  }

  /** Removing a task leaves a graph that `validate_dag` accepts, and the other tasks reach each other as before. */
  lemma RemovalKeepsMeaning(tasks: seq<TaskNode>, target: string)
    requires ValidDag(tasks) && |tasks| >= 2 && target in ById(tasks)
    ensures var remaining := Spliced(tasks, target, Lookup(ById(tasks), target));
      && ValidDag(remaining)
      && SameReach(ById(tasks), ById(remaining))
      && ById(remaining).Keys == ById(tasks).Keys - {target}
  {
    var g := ById(tasks);
    var remaining := Spliced(tasks, target, Lookup(g, target));
    SplicedGraph(tasks, target, Lookup(g, target));
    SplicedUnique(tasks, target, Lookup(g, target));
    assert ById(remaining) == Splice(g, target);
    ValidClosed(g);
    SpliceKeepsReach(g, target);
    SpliceValid(g, target);
    ByIdKeys(tasks);
    NoDupCardinality(IdList(tasks));
    assert |g.Keys - {target}| == |g.Keys| - 1;
    ByIdKeys(remaining);
  }

  lemma SameReachTransitive(g: Graph, h: Graph, k: Graph)
    requires SameReach(g, h) && SameReach(h, k)
    ensures SameReach(g, k)
  {
  }

  // validate_dag

  method ValidateDag(tasks: seq<TaskNode>) returns (v: Verdict)
    ensures v.Accepted? <==> ValidDag(tasks)
    ensures v.Accepted? ==> LeastTopological(ById(tasks), v.order)
  {
    if tasks == [] { return Rejected; }
    var byId: map<string, seq<string>> := map[];
    for k := 0 to |tasks|
      invariant byId == ById(tasks[..k]) && UniqueIds(tasks[..k])
    {
      ByIdKeys(tasks[..k]);
      assert tasks[..k + 1][..k] == tasks[..k];
      assert IdList(tasks[..k + 1]) == IdList(tasks[..k]) + [tasks[k].id];
      if tasks[k].id in byId {
        Duplicate(tasks, k);
        return Rejected;
      }
      byId := byId[tasks[k].id := tasks[k].dependsOn];
    }
    assert tasks[..|tasks|] == tasks;
    hide *;
    for k := 0 to |tasks|
      invariant forall j :: 0 <= j < k ==> tasks[j].id in byId && DepsOk(byId, tasks[j].id)
    {
      ByIdLookup(tasks, k);
      var ok := CheckDependencies(byId, tasks[k].id);
      if !ok {
        BadDependency(tasks, k);
        return Rejected;
      }
    }
    GoodDependencies(tasks);
    var r := TopologicalOrder(tasks);
    if r.Cyclic? { return Rejected; }
    return Accepted(r.order);
  }

  lemma Duplicate(tasks: seq<TaskNode>, k: nat)
    requires k < |tasks| && tasks[k].id in ById(tasks[..k])
    ensures !UniqueIds(tasks)
  {
    ByIdKeys(tasks[..k]);
    var j :| 0 <= j < k && IdList(tasks[..k])[j] == tasks[k].id;
    assert IdList(tasks)[j] == IdList(tasks)[k];
  }

  lemma BadDependency(tasks: seq<TaskNode>, k: nat)
    requires k < |tasks| && tasks[k].id in ById(tasks) && !DepsOk(ById(tasks), tasks[k].id)
    ensures !ValidDag(tasks)
  {
  }

  lemma GoodDependencies(tasks: seq<TaskNode>)
    requires tasks != [] && UniqueIds(tasks)
    requires forall j :: 0 <= j < |tasks| ==> tasks[j].id in ById(tasks) && DepsOk(ById(tasks), tasks[j].id)
    ensures ValidDag(tasks) <==> !HasCycle(ById(tasks))
    ensures KnownGraph(ById(tasks)) == ById(tasks)
  {
    var g := ById(tasks);
    forall b | b in g ensures DepsOk(g, b) {
      ByIdKeys(tasks);
      var j :| 0 <= j < |tasks| && IdList(tasks)[j] == b;
      assert tasks[j].id == b;
    }
    ValidClosed(g);
    ClosedIsKnown(g);
  }

  method CheckDependencies(byId: map<string, seq<string>>, id: string) returns (ok: bool)
    requires id in byId
    ensures ok <==> DepsOk(byId, id)
  {
    var deps := byId[id];
    var seen: set<string> := {};
    for j := 0 to |deps|
      invariant seen == Elements(deps[..j]) && NoDup(deps[..j]) && id !in deps[..j] && Elements(deps[..j]) <= byId.Keys
    {
      assert deps[..j + 1] == deps[..j] + [deps[j]];
      assert deps[j] in Elements(deps);
      if deps[j] == id || deps[j] in seen || deps[j] !in byId { return false; }
      seen := seen + {deps[j]};
    }
    assert deps[..|deps|] == deps;
    return true;
  }

  // _remove_tasks

  predicate Referenced(actions: seq<Shrinker.Action>, id: string) {
    exists k :: 0 <= k < |actions| && actions[k].taskId == id
  }

  /** What shrinking a valid workflow keeps: validity, reachability between what is left, and the referenced tasks. */
  ghost predicate Shrunk(tasks: seq<TaskNode>, smaller: seq<TaskNode>, actions: seq<Shrinker.Action>) {
    && ValidDag(smaller)
    && SameReach(ById(tasks), ById(smaller))
    && forall id :: id in ById(tasks) && Referenced(actions, id) ==> id in ById(smaller)
  }

  // Which removals are tried

  /** The list without one task, its dependencies spliced in. */
  function SpliceOut(tasks: seq<TaskNode>, target: string): seq<TaskNode> {
    Spliced(tasks, target, Lookup(ById(tasks), target))
  }

  /** The tasks `removed` are taken out one after the other. */
  function Peel(tasks: seq<TaskNode>, removed: seq<string>): seq<TaskNode> {
    if removed == [] then tasks else SpliceOut(Peel(tasks, removed[..|removed| - 1]), removed[|removed| - 1])
  }

  /** Taking `id` out was tried on one of the lists after the first `n` removals or fewer, and the failure went away. */
  ghost predicate TriedInVain(workflow: seq<TaskNode>, removed: seq<string>, n: nat, id: string,
      fails: seq<TaskNode> -> bool)
    requires n <= |removed|
  {
    exists k :: 0 <= k <= n && VainAt(workflow, removed, k, id, fails)
  }

  ghost predicate VainAt(workflow: seq<TaskNode>, removed: seq<string>, k: nat, id: string,
      fails: seq<TaskNode> -> bool)
    requires k <= |removed|
  {
    !fails(SpliceOut(Peel(workflow, removed[..k]), id))
  }

  /** Every task behind position `at` of the list after `n` removals is referenced, or was tried in vain. */
  ghost predicate SettledBehind(workflow: seq<TaskNode>, removed: seq<string>, n: nat, at: int,
                                actions: seq<Shrinker.Action>, fails: seq<TaskNode> -> bool)
    requires n <= |removed|
  {
    var tasks := Peel(workflow, removed[..n]);
    forall j :: at < j < |tasks| && 0 <= j ==>
      Referenced(actions, tasks[j].id) || TriedInVain(workflow, removed, n, tasks[j].id, fails)
  }

  /** The `n`th removal: an unreferenced task that is not the only one, whose removal keeps the failure, and behind
      which everything is settled. */
  ghost predicate RemovedAt(workflow: seq<TaskNode>, removed: seq<string>, n: nat,
                            actions: seq<Shrinker.Action>, fails: seq<TaskNode> -> bool)
    requires n < |removed|
  {
    var tasks := Peel(workflow, removed[..n]);
    exists at :: 0 <= at < |tasks| && |tasks| > 1 && tasks[at].id == removed[n] && !Referenced(actions, removed[n])
                 && fails(Peel(workflow, removed[..n + 1])) && SettledBehind(workflow, removed, n, at, actions, fails)
  }

  /** What the pass does: from the last task to the first, it takes out every unreferenced task whose removal keeps the
      failure, until all are settled or one is left. */
  ghost predicate Exhausted(workflow: seq<TaskNode>, tasks: seq<TaskNode>, removed: seq<string>,
                            actions: seq<Shrinker.Action>, fails: seq<TaskNode> -> bool) {
    && tasks == Peel(workflow, removed)
    && (forall n :: 0 <= n < |removed| ==> RemovedAt(workflow, removed, n, actions, fails))
    && (|tasks| <= 1 || SettledBehind(workflow, removed, |removed|, -1, actions, fails))
  }

  method RemoveTasks(workflow: seq<TaskNode>, actions: seq<Shrinker.Action>, fails: seq<TaskNode> -> bool)
    returns (tasks: seq<TaskNode>)
    requires ValidDag(workflow)
    ensures Shrunk(workflow, tasks, actions)
    ensures fails(workflow) ==> fails(tasks)
    ensures |tasks| <= |workflow|
    ensures exists removed :: Exhausted(workflow, tasks, removed, actions, fails)
  {
    hide *;
    tasks := workflow;
    ghost var removed: seq<string> := [];
    ShrunkRefl(workflow, actions);
    var index := |tasks| - 1;
    PeelStart(workflow, actions, fails);
    while index >= 0 && |tasks| > 1
      invariant -1 <= index < |tasks| <= |workflow|
      invariant Shrunk(workflow, tasks, actions)
      invariant fails(workflow) ==> fails(tasks)
      invariant Peeling(workflow, tasks, removed, index, actions, fails)
      decreases index
    {
      var target := tasks[index].id;
      if Referenced(actions, target) {
        SettleReferenced(workflow, tasks, removed, index, actions, fails);
        index := index - 1;
        continue;
      }
      ShrunkStep(workflow, tasks, actions, index);
      var candidate := WithoutTask(tasks, target);
      var verdict := ValidateDag(candidate);
      SpliceOutIs(tasks, target);
      ShrunkValid(workflow, candidate, actions);
      if verdict.Rejected? {
        index := index - 1;
        continue;
      }
      if fails(candidate) {
        PeelNext(workflow, tasks, removed, index, actions, fails);
        removed := removed + [target];
        tasks := candidate;
        index := if index - 1 < |tasks| - 1 then index - 1 else |tasks| - 1;
      } else {
        SettleVain(workflow, tasks, removed, index, actions, fails);
        index := index - 1;
      }
    }
    PeelEnd(workflow, tasks, removed, index, actions, fails);
  }

  lemma SpliceOutIs(tasks: seq<TaskNode>, target: string)
    ensures SpliceOut(tasks, target) == Spliced(tasks, target, Lookup(ById(tasks), target))
  {
  }

  lemma ShrunkValid(workflow: seq<TaskNode>, tasks: seq<TaskNode>, actions: seq<Shrinker.Action>)
    requires Shrunk(workflow, tasks, actions)
    ensures ValidDag(tasks)
  {
  }

  /** The pass has settled everything behind `index`. */
  ghost predicate Peeling(workflow: seq<TaskNode>, tasks: seq<TaskNode>, removed: seq<string>, index: int,
                          actions: seq<Shrinker.Action>, fails: seq<TaskNode> -> bool) {
    && tasks == Peel(workflow, removed)
    && (forall n :: 0 <= n < |removed| ==> RemovedAt(workflow, removed, n, actions, fails))
    && SettledBehind(workflow, removed, |removed|, index, actions, fails)
  }

  lemma PeelStart(workflow: seq<TaskNode>, actions: seq<Shrinker.Action>, fails: seq<TaskNode> -> bool)
    ensures Peeling(workflow, workflow, [], |workflow| - 1, actions, fails)
  {
  }

  lemma WholePeel(removed: seq<string>)
    ensures removed[..|removed|] == removed
  {
  }

  lemma SettleReferenced(workflow: seq<TaskNode>, tasks: seq<TaskNode>, removed: seq<string>, index: nat,
                         actions: seq<Shrinker.Action>, fails: seq<TaskNode> -> bool)
    requires Peeling(workflow, tasks, removed, index, actions, fails) && index < |tasks|
    requires Referenced(actions, tasks[index].id)
    ensures Peeling(workflow, tasks, removed, index - 1, actions, fails)
  {
    hide RemovedAt, TriedInVain;
    WholePeel(removed);
  }

  lemma SettleVain(workflow: seq<TaskNode>, tasks: seq<TaskNode>, removed: seq<string>, index: nat,
                   actions: seq<Shrinker.Action>, fails: seq<TaskNode> -> bool)
    requires Peeling(workflow, tasks, removed, index, actions, fails) && index < |tasks|
    requires !fails(SpliceOut(tasks, tasks[index].id))
    ensures Peeling(workflow, tasks, removed, index - 1, actions, fails)
  {
    hide RemovedAt, Peel, SpliceOut;
    WholePeel(removed);
    assert VainAt(workflow, removed, |removed|, tasks[index].id, fails);
    assert TriedInVain(workflow, removed, |removed|, tasks[index].id, fails);
  }

  lemma PeelEnd(workflow: seq<TaskNode>, tasks: seq<TaskNode>, removed: seq<string>, index: int,
                actions: seq<Shrinker.Action>, fails: seq<TaskNode> -> bool)
    requires Peeling(workflow, tasks, removed, index, actions, fails) && (index < 0 || |tasks| <= 1) && index >= -1
    ensures Exhausted(workflow, tasks, removed, actions, fails)
  {
    hide RemovedAt, TriedInVain;
  }

  lemma PeelMore(workflow: seq<TaskNode>, removed: seq<string>, x: string, n: nat)
    requires n <= |removed|
    ensures (removed + [x])[..n] == removed[..n]
    ensures Peel(workflow, removed + [x]) == SpliceOut(Peel(workflow, removed), x)
  {
    assert (removed + [x])[..|removed|] == removed;
  }

  lemma VainMore(workflow: seq<TaskNode>, removed: seq<string>, x: string, n: nat, id: string,
      fails: seq<TaskNode> -> bool)
    requires n <= |removed| && TriedInVain(workflow, removed, n, id, fails)
    ensures TriedInVain(workflow, removed + [x], n, id, fails)
    ensures TriedInVain(workflow, removed + [x], |removed| + 1, id, fails)
  {
    hide Peel, SpliceOut;
    var k :| 0 <= k <= n && VainAt(workflow, removed, k, id, fails);
    PeelMore(workflow, removed, x, k);
    assert VainAt(workflow, removed + [x], k, id, fails);
  }

  lemma SettledMore(workflow: seq<TaskNode>, removed: seq<string>, x: string, n: nat, at: int,
                    actions: seq<Shrinker.Action>, fails: seq<TaskNode> -> bool)
    requires n <= |removed| && SettledBehind(workflow, removed, n, at, actions, fails)
    ensures SettledBehind(workflow, removed + [x], n, at, actions, fails)
  {
    hide Peel, TriedInVain;
    PeelMore(workflow, removed, x, n);
    var tasks := Peel(workflow, removed[..n]);
    forall j | at < j < |tasks| && 0 <= j && !Referenced(actions, tasks[j].id)
      ensures TriedInVain(workflow, removed + [x], n, tasks[j].id, fails)
    {
      VainMore(workflow, removed, x, n, tasks[j].id, fails);
    }
  }

  lemma RemovedMore(workflow: seq<TaskNode>, removed: seq<string>, x: string, n: nat,
                    actions: seq<Shrinker.Action>, fails: seq<TaskNode> -> bool)
    requires n < |removed| && RemovedAt(workflow, removed, n, actions, fails)
    ensures RemovedAt(workflow, removed + [x], n, actions, fails)
  {
    hide Peel, SettledBehind;
    PeelMore(workflow, removed, x, n);
    PeelMore(workflow, removed, x, n + 1);
    var tasks := Peel(workflow, removed[..n]);
    var at :| 0 <= at < |tasks| && |tasks| > 1 && tasks[at].id == removed[n] && !Referenced(actions, removed[n])
              && fails(Peel(workflow, removed[..n + 1])) && SettledBehind(workflow, removed, n, at, actions, fails);
    SettledMore(workflow, removed, x, n, at, actions, fails);
  }

  /** Taking out the task at `index` moves those behind it forward by one. */
  lemma {:induction false} SpliceIds(tasks: seq<TaskNode>, index: nat, deps: seq<string>)
    requires UniqueIds(tasks) && index < |tasks|
    ensures |Spliced(tasks, tasks[index].id, deps)| == |tasks| - 1
    ensures
      forall j :: 0 <= j < |tasks| - 1 ==>
        Spliced(tasks, tasks[index].id, deps)[j].id == tasks[if j < index then j else j + 1].id
  {
    var init, target := tasks[..|tasks| - 1], tasks[index].id;
    assert IdList(init) == IdList(tasks)[..|init|];
    if index < |init| {
      assert IdList(tasks)[index] != IdList(tasks)[|init|];
      SpliceIds(init, index, deps);
    } else {
      forall k | 0 <= k < |init| ensures init[k].id != target { assert IdList(tasks)[k] != IdList(tasks)[|init|]; }
      NoSplice(init, target, deps);
    }
  }

  lemma {:induction false} NoSplice(tasks: seq<TaskNode>, target: string, deps: seq<string>)
    requires forall k :: 0 <= k < |tasks| ==> tasks[k].id != target
    ensures |Spliced(tasks, target, deps)| == |tasks|
    ensures forall j :: 0 <= j < |tasks| ==> Spliced(tasks, target, deps)[j].id == tasks[j].id
  {
    if tasks != [] { NoSplice(tasks[..|tasks| - 1], target, deps); }
  }

  lemma PeelNext(workflow: seq<TaskNode>, tasks: seq<TaskNode>, removed: seq<string>, index: nat,
                 actions: seq<Shrinker.Action>, fails: seq<TaskNode> -> bool)
    requires Peeling(workflow, tasks, removed, index, actions, fails) && index < |tasks| && |tasks| > 1
    requires UniqueIds(tasks) && !Referenced(actions, tasks[index].id) && fails(SpliceOut(tasks, tasks[index].id))
    ensures
      var candidate, later := SpliceOut(tasks, tasks[index].id), removed + [tasks[index].id];
      && |candidate| == |tasks| - 1
      && Peeling(workflow, candidate, later, index - 1, actions, fails)
  {
    hide Peel, TriedInVain, SettledBehind, UniqueIds;
    var x := tasks[index].id;
    var candidate, later := SpliceOut(tasks, x), removed + [x];
    WholePeel(removed);
    WholePeel(later);
    PeelMore(workflow, removed, x, |removed|);
    SpliceIds(tasks, index, Lookup(ById(tasks), x));
    forall n | 0 <= n < |later| ensures RemovedAt(workflow, later, n, actions, fails) {
      if n < |removed| {
        RemovedMore(workflow, removed, x, n, actions, fails);
      } else {
        SettledMore(workflow, removed, x, n, index, actions, fails);
        assert Peel(workflow, later[..n])[index].id == later[n];
      }
    }
    SettledNext(workflow, tasks, removed, index, actions, fails);
  }

  lemma SettledNext(workflow: seq<TaskNode>, tasks: seq<TaskNode>, removed: seq<string>, index: nat,
                    actions: seq<Shrinker.Action>, fails: seq<TaskNode> -> bool)
    requires tasks == Peel(workflow, removed) && SettledBehind(workflow, removed, |removed|, index, actions, fails)
    requires index < |tasks| && UniqueIds(tasks)
    ensures SettledBehind(workflow, removed + [tasks[index].id], |removed| + 1, index - 1, actions, fails)
  {
    hide Peel, TriedInVain, UniqueIds;
    var x := tasks[index].id;
    var candidate, later := SpliceOut(tasks, x), removed + [x];
    WholePeel(removed);
    WholePeel(later);
    PeelMore(workflow, removed, x, |removed|);
    SpliceIds(tasks, index, Lookup(ById(tasks), x));
    forall j | index - 1 < j < |candidate| && 0 <= j && !Referenced(actions, candidate[j].id)
      ensures TriedInVain(workflow, later, |later|, candidate[j].id, fails)
    {
      assert candidate[j].id == tasks[j + 1].id;
      VainMore(workflow, removed, x, |removed|, tasks[j + 1].id, fails);
    }
  }

  /** If no removal loses the failure, one task is left, or only referenced ones. */
  lemma RemovesAll(workflow: seq<TaskNode>, tasks: seq<TaskNode>, removed: seq<string>,
                   actions: seq<Shrinker.Action>, fails: seq<TaskNode> -> bool)
    requires Exhausted(workflow, tasks, removed, actions, fails) && forall list :: fails(list)
    ensures |tasks| <= 1 || forall j :: 0 <= j < |tasks| ==> Referenced(actions, tasks[j].id)
  {
    hide Peel, RemovedAt, SpliceOut;
    WholePeel(removed);
  }

  lemma ShrunkRefl(tasks: seq<TaskNode>, actions: seq<Shrinker.Action>)
    requires ValidDag(tasks)
    ensures Shrunk(tasks, tasks, actions)
  {
  }

  lemma ShrunkStep(workflow: seq<TaskNode>, tasks: seq<TaskNode>, actions: seq<Shrinker.Action>, index: nat)
    requires Shrunk(workflow, tasks, actions) && index < |tasks| && |tasks| >= 2
        && !Referenced(actions, tasks[index].id)
    ensures UniqueIds(tasks)
    ensures var candidate := Spliced(tasks, tasks[index].id, Lookup(ById(tasks), tasks[index].id));
      Shrunk(workflow, candidate, actions) && |candidate| <= |tasks|
  {
    var target := tasks[index].id;
    var candidate := Spliced(tasks, target, Lookup(ById(tasks), target));
    ByIdLookup(tasks, index);
    RemovalKeepsMeaning(tasks, target);
    SplicedGraph(tasks, target, Lookup(ById(tasks), target));
    SameReachTransitive(ById(workflow), ById(tasks), ById(candidate));
  }
}
