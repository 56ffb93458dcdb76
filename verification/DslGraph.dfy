/** The graph functions of the Python DSL: depth-first `find_cycle` and Kahn's `topological_order`. */
module DslGraph {
  import opened StringOrder
  import opened Graph
  import opened Kahn

  datatype TaskNode = TaskNode(id: string, dependsOn: seq<string>)

  datatype Order = Ordered(order: seq<string>) | Cyclic(cycle: seq<string>)

  /** The dependencies that name a task. */
  function Known(deps: seq<string>, ids: set<string>): (r: seq<string>)
    ensures forall a :: a in r <==> a in deps && a in ids
  {
    if deps == [] then []
    else (if deps[0] in ids then [deps[0]] else []) + Known(deps[1..], ids)
  }

  function IdList(tasks: seq<TaskNode>): seq<string> {
    seq(|tasks|, k requires 0 <= k < |tasks| => tasks[k].id)
  }

  ghost predicate UniqueIds(tasks: seq<TaskNode>) {
    NoDup(IdList(tasks))
  }

  /** `by_id`: of several tasks with one id the last counts. */
  function ById(tasks: seq<TaskNode>): map<string, seq<string>> {
    if tasks == [] then map[]
    else ById(tasks[..|tasks| - 1])[tasks[|tasks| - 1].id := tasks[|tasks| - 1].dependsOn]
  }

  /** The dependency graph on known tasks. */
  function KnownGraph(byId: map<string, seq<string>>): (g: Graph)
    ensures Closed(g) && g.Keys == byId.Keys
  {
    KnownTo(byId, byId.Keys)
  }

  function KnownTo(byId: map<string, seq<string>>, ids: set<string>): (g: Graph)
    ensures g.Keys == byId.Keys
  {
    map b | b in byId :: Known(byId[b], ids)
  }

  lemma {:induction false} KnownAll(deps: seq<string>, ids: set<string>)
    requires Elements(deps) <= ids
    ensures Known(deps, ids) == deps
  {
    if deps != [] {
      assert forall d :: d in deps[1..] ==> d in deps;
      KnownAll(deps[1..], ids);
      assert deps == [deps[0]] + deps[1..];
    }
  }

  lemma ClosedIsKnown(byId: map<string, seq<string>>)
    requires Closed(byId)
    ensures KnownGraph(byId) == byId
  {
    forall b | b in byId ensures Known(byId[b], byId.Keys) == byId[b] {
      forall d | d in byId[b] ensures d in byId { assert Edge(byId, d, b); }
      KnownAll(byId[b], byId.Keys);
    }
  }

  /** A list of ids, each a dependency of the one before, that ends where it began. */
  ghost predicate DependencyCycle(g: Graph, c: seq<string>) {
    && |c| >= 2 && c[0] == c[|c| - 1] && c[0] in g
    && forall i :: 0 < i < |c| ==> Edge(g, c[i], c[i - 1])
  }

  lemma {:induction false} ReversedPath(g: Graph, c: seq<string>) returns (p: seq<string>)
    requires DependencyCycle(g, c)
    ensures Cycle(g, p)
  {
    p := seq(|c|, i requires 0 <= i < |c| => c[|c| - 1 - i]);
    forall i | 0 < i < |p| ensures Edge(g, p[i - 1], p[i]) {
      assert Edge(g, c[|c| - i], c[|c| - i - 1]);
    }
  }

  // find_cycle

  class CycleFinder {
    const byId: map<string, seq<string>>
    var state: map<string, int>
    var stack: seq<string>
    var positions: map<string, nat>
    ghost var finished: seq<string>

    constructor (byId: map<string, seq<string>>)
      ensures this.byId == byId && state == map[] && stack == [] && positions == map[] && finished == []
      ensures Valid()
    {
      this.byId, this.state, this.stack, this.positions, this.finished := byId, map[], [], map[], [];
    }

    ghost function G(): Graph { KnownGraph(byId) }

    ghost predicate Valid()
      reads this
    {
      && StackOk(G(), stack, positions)
      && StatesOk(byId.Keys, state, stack, finished)
      && FinishedOk(G(), finished)
    }

    lemma KnownEdge(a: string, b: string)
      requires b in byId && a in byId[b] && a in byId
      ensures Edge(G(), a, b)
    {
    }

    lemma SearchedGraph()
      ensures G() == KnownGraph(byId)
    {
    }

    lemma NothingLeft(ids: seq<string>)
      requires Valid() && Visited(ids, |ids|, finished) && Lists(ids, byId)
      ensures !HasCycle(G())
    {
      AllVisited(G(), ids, state, stack, finished);
    }

    lemma CycleOnStack(taskId: string)
      requires Valid() && taskId in state && state[taskId] == 1
      requires stack != [] ==> Edge(G(), taskId, stack[|stack| - 1])
      ensures taskId in positions && positions[taskId] < |stack|
      ensures DependencyCycle(G(), stack[positions[taskId]..] + [taskId])
    {
      hide StackOk, FinishedOk, KnownGraph, DependencyCycle;
      assert taskId in stack;
      ClosingCycle(G(), stack, positions, taskId);
    }

    lemma KnownState(taskId: string)
      requires Valid() && taskId in state
      ensures state[taskId] == 1 || (state[taskId] == 2 && taskId in finished)
    {
      hide StackOk, FinishedOk, KnownGraph;
    }

    /** `visit`: an empty result means that no cycle is reachable from the task. */
    method Visit(taskId: string, ghost unvisited: nat) returns (cycle: seq<string>)
      requires Valid() && taskId in byId && |byId.Keys - state.Keys| <= unvisited
      requires stack != [] ==> Edge(G(), taskId, stack[|stack| - 1])
      modifies this
      ensures cycle != [] ==> DependencyCycle(G(), cycle)
      ensures cycle == [] ==> Valid() && stack == old(stack) && taskId in finished
      ensures cycle == [] ==> Kept(old(finished), finished) && |byId.Keys - state.Keys| <= unvisited
      decreases unvisited, 0
    {
      hide Valid, StackOk, StatesOk, FinishedOk, KnownGraph, NoDup, DependencyCycle;
      var current := if taskId in state then state[taskId] else 0;
      if taskId in state { KnownState(taskId); }
      if current == 2 { return []; }
      if current == 1 {
        CycleOnStack(taskId);
        var start := positions[taskId];
        return stack[start..] + [taskId];
      }
      Push(taskId);
      Smaller(byId.Keys, old(state.Keys), state.Keys, taskId);
      cycle := VisitDependencies(taskId, unvisited - 1);
      if cycle != [] { return cycle; }
      CoveredEdges(byId, taskId, finished);
      Pop(taskId);
      return [];
    }

    /** The loop of `visit` over the dependencies of the task on top of the stack. */
    method VisitDependencies(taskId: string, ghost unvisited: nat) returns (cycle: seq<string>)
      requires |byId.Keys - state.Keys| <= unvisited
      requires Valid() && taskId in byId && stack != [] && stack[|stack| - 1] == taskId
      modifies this
      ensures cycle != [] ==> DependencyCycle(G(), cycle)
      ensures cycle == [] ==> Valid() && stack == old(stack) && Covered(byId, byId[taskId], |byId[taskId]|, finished)
      ensures cycle == [] ==> Kept(old(finished), finished) && |byId.Keys - state.Keys| <= unvisited
      decreases unvisited, 1
    {
      hide *;
      var deps := byId[taskId];
      CoveredStart(byId, deps, finished);
      for k := 0 to |deps|
        invariant Valid() && stack == old(stack)
        invariant Kept(old(finished), finished) && Covered(byId, deps, k, finished)
        invariant |byId.Keys - state.Keys| <= unvisited
      {
        if deps[k] in byId {
          KnownEdge(deps[k], taskId);
          ghost var before := finished;
          cycle := Visit(deps[k], unvisited);
          if cycle != [] { return cycle; }
          KeptTransitive(old(finished), before, finished);
          CoveredKept(byId, deps, k, before, finished);
        }
        CoveredStep(byId, deps, k, finished);
      }
      return [];
    }

    method Push(taskId: string)
      requires Valid() && taskId in byId && taskId !in state
      requires stack != [] ==> Edge(G(), taskId, stack[|stack| - 1])
      modifies this`state, this`positions, this`stack
      ensures Valid() && stack == old(stack) + [taskId] && state.Keys == old(state.Keys) + {taskId}
    {
      hide KnownGraph, FinishedOk;
      assert taskId !in stack;
      state := state[taskId := 1];
      positions := positions[taskId := |stack|];
      stack := stack + [taskId];
    }

    method Pop(taskId: string)
      requires Valid() && stack != [] && stack[|stack| - 1] == taskId
      requires forall a :: Edge(G(), a, taskId) ==> a in finished
      modifies this`state, this`positions, this`stack, this`finished
      ensures Valid() && stack == old(stack)[..|old(stack)| - 1]
      ensures finished == old(finished) + [taskId] && state.Keys == old(state.Keys)
    {
      assert taskId in stack;
      PopStack(G(), stack, positions, taskId);
      PopStates(byId.Keys, state, stack, finished, taskId);
      PopFinished(G(), finished, taskId);
      hide StackOk, StatesOk, FinishedOk, KnownGraph;
      stack := stack[..|stack| - 1];
      positions := positions - {taskId};
      state := state[taskId := 2];
      finished := finished + [taskId];
    }
  }

  /** The stack is a chain of dependencies without repeats, and `positions` indexes it. */
  ghost predicate StackOk(g: Graph, stack: seq<string>, positions: map<string, nat>) {
    && NoDup(stack)
    && (forall i :: 0 < i < |stack| ==> Edge(g, stack[i], stack[i - 1]))
    && (forall i :: 0 <= i < |stack| ==> stack[i] in g && stack[i] in positions && positions[stack[i]] == i)
  }

  /** An edge back to a task on the stack closes a cycle. */
  lemma ClosingCycle(g: Graph, stack: seq<string>, positions: map<string, nat>, x: string)
    requires StackOk(g, stack, positions) && x in stack && Edge(g, x, stack[|stack| - 1])
    ensures x in positions && positions[x] < |stack| && DependencyCycle(g, stack[positions[x]..] + [x])
  {
    hide Edge, NoDup;
    var k :| 0 <= k < |stack| && stack[k] == x;
    var c := stack[k..] + [x];
    forall i | 0 < i < |c| ensures Edge(g, c[i], c[i - 1]) {
      if i < |stack| - k { assert Edge(g, stack[k + i], stack[k + i - 1]); }
    }
  }

  /** State 1 means on the stack, state 2 means finished. */
  ghost predicate StatesOk(ids: set<string>, state: map<string, int>, stack: seq<string>, finished: seq<string>) {
    && (forall t :: t in state ==> t in ids && state[t] in {1, 2})
    && (forall t :: t in stack <==> t in state && state[t] == 1)
    && (forall t :: t in finished <==> t in state && state[t] == 2)
  }

  /** Nothing is ever taken off the finished list. */
  ghost predicate Kept(before: seq<string>, after: seq<string>) {
    forall x :: x in before ==> x in after
  }

  /** Finished tasks are listed after their dependencies. */
  ghost predicate FinishedOk(g: Graph, finished: seq<string>) {
    && NoDup(finished)
    && forall i, a :: 0 <= i < |finished| && Edge(g, a, finished[i]) ==> a in finished[..i]
  }

  lemma PopStack(g: Graph, stack: seq<string>, positions: map<string, nat>, x: string)
    requires StackOk(g, stack, positions) && stack != [] && stack[|stack| - 1] == x
    ensures StackOk(g, stack[..|stack| - 1], positions - {x})
  {
  }

  lemma PopStates(ids: set<string>, state: map<string, int>, stack: seq<string>, finished: seq<string>, x: string)
    requires StatesOk(ids, state, stack, finished) && NoDup(stack) && stack != [] && stack[|stack| - 1] == x
    ensures x in state && StatesOk(ids, state[x := 2], stack[..|stack| - 1], finished + [x])
    ensures state[x := 2].Keys == state.Keys
  {
    var init := stack[..|stack| - 1];
    assert stack == init + [x];
    assert x in stack;
    assert forall t :: t in init <==> t in stack && t != x;
  }

  lemma PopFinished(g: Graph, finished: seq<string>, x: string)
    requires FinishedOk(g, finished) && x !in finished && forall a :: Edge(g, a, x) ==> a in finished
    ensures FinishedOk(g, finished + [x])
  {
    var f := finished + [x];
    forall i, a | 0 <= i < |f| && Edge(g, a, f[i]) ensures a in f[..i] {
      assert f[..i] == if i < |finished| then finished[..i] else finished;
    }
  }

  /** The first `k` of the dependencies are finished, as far as they name tasks. */
  ghost predicate Covered(byId: map<string, seq<string>>, deps: seq<string>, k: nat, finished: seq<string>)
    requires k <= |deps|
  {
    forall j :: 0 <= j < k && deps[j] in byId ==> deps[j] in finished
  }

  lemma CoveredStart(byId: map<string, seq<string>>, deps: seq<string>, finished: seq<string>)
    ensures Covered(byId, deps, 0, finished) && Kept(finished, finished)
  {
  }

  lemma CoveredStep(byId: map<string, seq<string>>, deps: seq<string>, k: nat, finished: seq<string>)
    requires k < |deps| && Covered(byId, deps, k, finished) && (deps[k] in byId ==> deps[k] in finished)
    ensures Covered(byId, deps, k + 1, finished)
  {
  }

  lemma CoveredKept(byId: map<string, seq<string>>, deps: seq<string>, k: nat, before: seq<string>, after: seq<string>)
    requires k <= |deps| && Covered(byId, deps, k, before) && Kept(before, after)
    ensures Covered(byId, deps, k, after)
  {
  }

  lemma KeptTransitive(a: seq<string>, b: seq<string>, c: seq<string>)
    requires Kept(a, b) && Kept(b, c)
    ensures Kept(a, c)
  {
  }

  lemma CoveredEdges(byId: map<string, seq<string>>, b: string, finished: seq<string>)
    requires b in byId && Covered(byId, byId[b], |byId[b]|, finished)
    ensures forall a :: Edge(KnownGraph(byId), a, b) ==> a in finished
  {
  }

  lemma Smaller(all: set<string>, a: set<string>, b: set<string>, x: string)
    requires x in all && x !in a && a + {x} <= b
    ensures |all - b| < |all - a|
  {
    SubsetCardinality(all - b, all - a - {x});
    assert |all - a - {x}| == |all - a| - 1;
  }

  /** The task ids in sorted order. */
  method SortedIds(byId: map<string, seq<string>>) returns (ids: seq<string>)
    ensures Sorted(ids) && NoDup(ids) && forall x :: x in ids <==> x in byId
  {
    ids := [];
    var todo := byId.Keys;
    while todo != {}
      invariant NoDup(ids)
      invariant todo <= byId.Keys && forall x :: x in ids <==> x in byId && x !in todo
      decreases todo
    {
      var x :| x in todo;
      todo, ids := todo - {x}, ids + [x];
    }
    NoDupMultiset(ids, Sort(ids));
    ids := Sort(ids);
  }

  ghost predicate Lists(ids: seq<string>, byId: map<string, seq<string>>) {
    forall x :: x in ids <==> x in byId
  }

  lemma ListedIsKnown(ids: seq<string>, byId: map<string, seq<string>>, k: nat)
    requires Lists(ids, byId) && k < |ids|
    ensures ids[k] in byId
  {
  }

  /** The first `k` of the listed tasks are finished. */
  ghost predicate Visited(ids: seq<string>, k: nat, finished: seq<string>)
    requires k <= |ids|
  {
    forall j :: 0 <= j < k ==> ids[j] in finished
  }

  lemma VisitedStep(ids: seq<string>, k: nat, before: seq<string>, after: seq<string>)
    requires k < |ids| && Visited(ids, k, before) && Kept(before, after) && ids[k] in after
    ensures Visited(ids, k + 1, after)
  {
  }

  lemma AllVisited(g: Graph, ids: seq<string>, state: map<string, int>, stack: seq<string>, finished: seq<string>)
    requires Visited(ids, |ids|, finished) && forall x :: x in ids <==> x in g.Keys
    requires StatesOk(g.Keys, state, stack, finished) && FinishedOk(g, finished)
    ensures !HasCycle(g)
  {
    forall i, a | 0 <= i < |finished| && finished[i] in g && a in g[finished[i]] ensures a in finished[..i] {
      assert Edge(g, a, finished[i]);
    }
    assert Topological(g, finished);
    TopologicalHasNoCycle(g, finished);
  }

  method FindCycle(tasks: seq<TaskNode>) returns (cycle: seq<string>)
    ensures cycle == [] <==> !HasCycle(KnownGraph(ById(tasks)))
    ensures cycle != [] ==> DependencyCycle(KnownGraph(ById(tasks)), cycle)
  {
    var byId := ById(tasks);
    var finder := new CycleFinder(byId);
    var ids := SortedIds(byId);
    assert Lists(ids, byId) && Visited(ids, 0, finder.finished);
    hide *;
    for k := 0 to |ids|
      invariant finder.byId == byId && finder.Valid() && finder.stack == []
      invariant Visited(ids, k, finder.finished)
    {
      ghost var before := finder.finished;
      ListedIsKnown(ids, byId, k);
      cycle := finder.Visit(ids[k], |byId.Keys - finder.state.Keys|);
      if cycle != [] {
        var p := ReversedPath(KnownGraph(byId), cycle);
        return cycle;
      }
      VisitedStep(ids, k, before, finder.finished);
    }
    finder.NothingLeft(ids);
    finder.SearchedGraph();
    return [];
  }

  // topological_order

  /** What `topological_order` sees: the known dependencies of all tasks with an id, in one list. */
  function Merged(tasks: seq<TaskNode>, ids: set<string>, n: nat): (g: Graph)
    requires n <= |tasks|
  {
    if n == 0 then map[]
    else Extended(Merged(tasks, ids, n - 1), tasks[n - 1], |tasks[n - 1].dependsOn|, ids)
  }

  /** The graph once the first `k` dependencies of a task have been added. */
  function Extended(g: Graph, t: TaskNode, k: nat, ids: set<string>): Graph
    requires k <= |t.dependsOn|
  {
    g[t.id := Lookup(g, t.id) + Known(t.dependsOn[..k], ids)]
  }

  function MergedGraph(tasks: seq<TaskNode>): Graph {
    Merged(tasks, ById(tasks).Keys, |tasks|)
  }

  lemma {:induction false} KnownSnoc(deps: seq<string>, x: string, ids: set<string>)
    ensures Known(deps + [x], ids) == Known(deps, ids) + if x in ids then [x] else []
  {
    if deps != [] {
      assert (deps + [x])[1..] == deps[1..] + [x];
      KnownSnoc(deps[1..], x, ids);
    }
  }

  lemma {:induction false} MergedKeys(tasks: seq<TaskNode>, ids: set<string>, n: nat)
    requires n <= |tasks|
    ensures Merged(tasks, ids, n).Keys == ById(tasks[..n]).Keys
    ensures forall b, a :: b in Merged(tasks, ids, n) && a in Merged(tasks, ids, n)[b] ==> a in ids
  {
    if n > 0 {
      MergedKeys(tasks, ids, n - 1);
      assert tasks[..n][..n - 1] == tasks[..n - 1];
      var t, g := tasks[n - 1], Merged(tasks, ids, n - 1);
      var deps := t.dependsOn[..|t.dependsOn|];
      var all := Lookup(g, t.id) + Known(deps, ids);
      assert Merged(tasks, ids, n) == g[t.id := all];
      assert forall a :: a in all ==> a in ids;
    }
  }

  lemma {:induction false} ByIdKeys(tasks: seq<TaskNode>)
    ensures ById(tasks).Keys == Elements(IdList(tasks))
  {
    if tasks != [] {
      var init := tasks[..|tasks| - 1];
      ByIdKeys(init);
      assert IdList(tasks) == IdList(init) + [tasks[|tasks| - 1].id];
    }
  }

  lemma FreshId(tasks: seq<TaskNode>, n: nat)
    requires n < |tasks| && UniqueIds(tasks)
    ensures tasks[n].id !in ById(tasks[..n]).Keys
  {
    ByIdKeys(tasks[..n]);
    var before := IdList(tasks[..n]);
    forall k | 0 <= k < n ensures before[k] != tasks[n].id {
      assert IdList(tasks)[k] != IdList(tasks)[n];
    }
  }

  /** With unique ids the merged graph is the graph that `find_cycle` searches. */
  lemma {:induction false} MergedIsKnown(tasks: seq<TaskNode>, ids: set<string>, n: nat)
    requires n <= |tasks| && UniqueIds(tasks)
    ensures Merged(tasks, ids, n) == KnownTo(ById(tasks[..n]), ids)
  {
    hide UniqueIds, Known, Extended;
    if n > 0 {
      MergedIsKnown(tasks, ids, n - 1);
      FreshId(tasks, n - 1);
      ByIdStep(tasks, n);
      var before, t := ById(tasks[..n - 1]), tasks[n - 1];
      assert Merged(tasks, ids, n) == Extended(KnownTo(before, ids), t, |t.dependsOn|, ids);
      NewTask(KnownTo(before, ids), t, ids);
      KnownToUpdate(before, t.id, t.dependsOn, ids);
    }
  }

  lemma ByIdStep(tasks: seq<TaskNode>, n: nat)
    requires 0 < n <= |tasks|
    ensures ById(tasks[..n]) == ById(tasks[..n - 1])[tasks[n - 1].id := tasks[n - 1].dependsOn]
  {
    assert tasks[..n][..n - 1] == tasks[..n - 1];
  }

  lemma NewTask(g: Graph, t: TaskNode, ids: set<string>)
    requires t.id !in g.Keys
    ensures Extended(g, t, |t.dependsOn|, ids) == g[t.id := Known(t.dependsOn, ids)]
  {
    assert t.dependsOn[..|t.dependsOn|] == t.dependsOn;
    assert [] + Known(t.dependsOn, ids) == Known(t.dependsOn, ids);
  }

  lemma KnownToUpdate(byId: map<string, seq<string>>, id: string, deps: seq<string>, ids: set<string>)
    ensures KnownTo(byId[id := deps], ids) == KnownTo(byId, ids)[id := Known(deps, ids)]
  {
  }

  lemma {:induction false} ElementsAtMost(s: seq<string>)
    ensures |Elements(s)| <= |s|
    ensures |Elements(s)| == |s| ==> NoDup(s)
  {
    if s != [] {
      var t := s[..|s| - 1];
      ElementsAtMost(t);
      assert Elements(s) == Elements(t) + {s[|s| - 1]};
    }
  }

  ghost predicate Degrees(indegree: map<string, int>, g: Graph, ids: set<string>) {
    && indegree.Keys == ids
    && forall b :: b in ids ==> indegree[b] == |Lookup(g, b)|
  }

  /** `children` reverses the edges of `g` between known tasks. */
  ghost predicate Mirrors(children: map<string, seq<string>>, g: Graph, ids: set<string>) {
    && (forall a, b :: a in ids ==> multiset(Lookup(children, a))[b] == multiset(Lookup(g, b))[a])
    && (forall a, b :: b in Lookup(children, a) ==> b in g)
  }

  lemma MirrorsStart(children: map<string, seq<string>>, ids: set<string>)
    requires children == map[]
    ensures Mirrors(children, map[], ids)
  {
  }

  lemma ExtendedStart(g: Graph, t: TaskNode, ids: set<string>, children: map<string, seq<string>>,
      indegree: map<string, int>)
    ensures Mirrors(children, g, ids) ==> Mirrors(children, Extended(g, t, 0, ids), ids)
    ensures Degrees(indegree, g, ids) ==> Degrees(indegree, Extended(g, t, 0, ids), ids)
  {
    var h := Extended(g, t, 0, ids);
    assert forall b :: Lookup(h, b) == Lookup(g, b);
  }

  lemma ExtendedStep(g: Graph, t: TaskNode, k: nat, ids: set<string>)
    requires k < |t.dependsOn|
    ensures var dep := t.dependsOn[k];
      var h, h' := Extended(g, t, k, ids), Extended(g, t, k + 1, ids);
      t.id in h && h' == if dep in ids then h[t.id := h[t.id] + [dep]] else h
  {
    assert t.dependsOn[..k + 1] == t.dependsOn[..k] + [t.dependsOn[k]];
    KnownSnoc(t.dependsOn[..k], t.dependsOn[k], ids);
    var dep, known := t.dependsOn[k], Known(t.dependsOn[..k], ids);
    var h, h' := Extended(g, t, k, ids), Extended(g, t, k + 1, ids);
    assert h'[t.id] == if dep in ids then h[t.id] + [dep] else h[t.id] by {
      assert Lookup(g, t.id) + (known + [dep]) == Lookup(g, t.id) + known + [dep];
      assert known + [] == known;
    }
    assert h' == g[t.id := h'[t.id]];
  }

  lemma MirrorStep(children: map<string, seq<string>>, g: Graph, ids: set<string>, id: string, dep: string)
    requires Mirrors(children, g, ids) && id in g
    ensures var children' := children[dep := Lookup(children, dep) + [id]];
      Mirrors(children', if dep in ids then g[id := g[id] + [dep]] else g, ids)
  {
    var children' := children[dep := Lookup(children, dep) + [id]];
    var g' := if dep in ids then g[id := g[id] + [dep]] else g;
    forall a, b | a in ids ensures multiset(Lookup(children', a))[b] == multiset(Lookup(g', b))[a] {
      assert multiset(Lookup(children, a))[b] == multiset(Lookup(g, b))[a];
    }
    forall a, b | b in Lookup(children', a) ensures b in g' {
      assert b in Lookup(children, a) || b == id;
    }
  }

  /** `reverse_edges`, whose lists also include ids that name no task. */
  method ReverseEdges(tasks: seq<TaskNode>) returns (children: map<string, seq<string>>)
    ensures Mirrors(children, MergedGraph(tasks), ById(tasks).Keys)
  {
    ghost var ids := ById(tasks).Keys;
    hide Mirrors, ById, Extended;
    children := map[];
    MirrorsStart(children, ids);
    assert Merged(tasks, ids, 0) == map[];
    for n := 0 to |tasks|
      invariant Mirrors(children, Merged(tasks, ids, n), ids)
    {
      var t := tasks[n];
      ghost var g := Merged(tasks, ids, n);
      ExtendedStart(g, t, ids, children, map[]);
      for k := 0 to |t.dependsOn|
        invariant Mirrors(children, Extended(g, t, k, ids), ids)
      {
        var dep := t.dependsOn[k];
        ExtendedStep(g, t, k, ids);
        MirrorStep(children, Extended(g, t, k, ids), ids, t.id, dep);
        children := children[dep := Lookup(children, dep) + [t.id]];
      }
    }
    SortedMirrors(children, Merged(tasks, ids, |tasks|), ids);
    children := map a | a in children :: Sort(children[a]);
  }

  lemma SortedMirrors(children: map<string, seq<string>>, g: Graph, ids: set<string>)
    requires Mirrors(children, g, ids)
    ensures Mirrors(map a | a in children :: Sort(children[a]), g, ids)
  {
    var sorted := map a | a in children :: Sort(children[a]);
    forall a ensures multiset(Lookup(sorted, a)) == multiset(Lookup(children, a)) {}
    forall a, b | b in Lookup(sorted, a) ensures b in g {
      SortMembers(children[a]);
      assert b in Lookup(children, a);
    }
  }

  method CountDependencies(tasks: seq<TaskNode>) returns (indegree: map<string, int>)
    ensures Degrees(indegree, MergedGraph(tasks), ById(tasks).Keys)
  {
    var byId := ById(tasks);
    ghost var ids := byId.Keys;
    indegree := map id | id in byId :: 0;
    assert Merged(tasks, ids, 0) == map[] && Degrees(indegree, map[], ids);
    hide Degrees, Extended, ById;
    for n := 0 to |tasks|
      invariant Degrees(indegree, Merged(tasks, ids, n), ids)
    {
      KnownTask(tasks, n);
      indegree := CountTask(tasks[n], byId, Merged(tasks, ids, n), indegree);
    }
  }

  method CountTask(t: TaskNode, byId: map<string, seq<string>>, ghost g: Graph, indegree0: map<string, int>)
    returns (indegree: map<string, int>)
    requires Degrees(indegree0, g, byId.Keys) && t.id in byId
    ensures Degrees(indegree, Extended(g, t, |t.dependsOn|, byId.Keys), byId.Keys)
  {
    ghost var ids := byId.Keys;
    indegree := indegree0;
    ExtendedStart(g, t, ids, map[], indegree);
    for k := 0 to |t.dependsOn|
      invariant Degrees(indegree, Extended(g, t, k, ids), ids)
    {
      ExtendedStep(g, t, k, ids);
      if t.dependsOn[k] in byId {
        DegreeStep(indegree, Extended(g, t, k, ids), ids, t.id, t.dependsOn[k]);
        indegree := indegree[t.id := indegree[t.id] + 1];
      }
    }
  }

  lemma DegreeStep(indegree: map<string, int>, g: Graph, ids: set<string>, id: string, dep: string)
    requires Degrees(indegree, g, ids) && id in g && id in ids
    ensures Degrees(indegree[id := indegree[id] + 1], g[id := g[id] + [dep]], ids)
  {
  }

  lemma KnownTask(tasks: seq<TaskNode>, n: nat)
    requires n < |tasks|
    ensures tasks[n].id in ById(tasks)
  {
    ByIdKeys(tasks);
    assert IdList(tasks)[n] == tasks[n].id;
  }

  lemma DegreesAreCounts(indegree: map<string, int>, g: Graph)
    requires Degrees(indegree, g, g.Keys)
    ensures Counts(indegree, g, {})
  {
    forall b | b in g ensures indegree[b] == Pending(g[b], {}) {
      PendingNone(g[b]);
    }
  }

  lemma MirrorsReverses(children: map<string, seq<string>>, g: Graph)
    requires Mirrors(children, g, g.Keys)
    ensures Reverses(children, g)
  {
    forall a, b | a in g && b in g ensures multiset(Lookup(children, a))[b] == multiset(g[b])[a] {
      assert multiset(Lookup(children, a))[b] == multiset(Lookup(g, b))[a];
    }
  }

  /** Succeeds exactly when the ids are unique and there is no cycle; the failure reports what `find_cycle` finds. */
  method TopologicalOrder(tasks: seq<TaskNode>) returns (r: Order)
    ensures r.Ordered? <==> UniqueIds(tasks) && !HasCycle(KnownGraph(ById(tasks)))
    ensures r.Ordered? ==> LeastTopological(KnownGraph(ById(tasks)), r.order)
    ensures r.Cyclic? ==> (r.cycle == [] <==> !HasCycle(KnownGraph(ById(tasks))))
    ensures r.Cyclic? && r.cycle != [] ==> DependencyCycle(KnownGraph(ById(tasks)), r.cycle)
  {
    hide *;
    var children := ReverseEdges(tasks);
    var indegree := CountDependencies(tasks);
    ghost var g := MergedGraph(tasks);
    OrderFacts(tasks, children, indegree);
    var ready := ReadyTasks(indegree);
    FrontierStart(g, indegree, ready);
    var order := Drain(g, children, indegree, ready);
    OrderComplete(tasks, order);
    if |order| != |tasks| {
      var cycle := FindCycle(tasks);
      return Cyclic(cycle);
    }
    return Ordered(order);
  }

  lemma OrderFacts(tasks: seq<TaskNode>, children: map<string, seq<string>>, indegree: map<string, int>)
    requires Mirrors(children, MergedGraph(tasks), ById(tasks).Keys)
        && Degrees(indegree, MergedGraph(tasks), ById(tasks).Keys)
    ensures Closed(MergedGraph(tasks)) && Reverses(children, MergedGraph(tasks))
        && Counts(indegree, MergedGraph(tasks), {})
  {
    MergedKeys(tasks, ById(tasks).Keys, |tasks|);
    assert tasks[..|tasks|] == tasks;
    DegreesAreCounts(indegree, MergedGraph(tasks));
    MirrorsReverses(children, MergedGraph(tasks));
  }

  lemma OrderComplete(tasks: seq<TaskNode>, order: seq<string>)
    requires NoDup(order) && Elements(order) <= MergedGraph(tasks).Keys
    ensures |order| == |tasks| ==> UniqueIds(tasks) && |order| == |MergedGraph(tasks)|
    ensures UniqueIds(tasks) ==> |MergedGraph(tasks)| == |tasks| && MergedGraph(tasks) == KnownGraph(ById(tasks))
  {
    var ids := ById(tasks).Keys;
    assert tasks[..|tasks|] == tasks;
    MergedKeys(tasks, ids, |tasks|);
    ByIdKeys(tasks);
    ElementsAtMost(IdList(tasks));
    NoDupCardinality(order);
    SubsetCardinality(Elements(order), ids);
    if UniqueIds(tasks) {
      NoDupCardinality(IdList(tasks));
      MergedIsKnown(tasks, ids, |tasks|);
    }
  }

  /** The tasks without known dependencies, sorted. */
  method ReadyTasks(indegree: map<string, int>) returns (ready: seq<string>)
    ensures Sorted(ready) && NoDup(ready) && forall x :: x in ready <==> x in indegree && indegree[x] == 0
  {
    var zero := map x | x in indegree && indegree[x] == 0 :: [];
    ready := SortedIds(zero);
  }

  lemma FrontierStart(g: Graph, indegree: map<string, int>, ready: seq<string>)
    requires Counts(indegree, g, {}) && Sorted(ready) && NoDup(ready)
    requires forall x :: x in ready <==> x in indegree && indegree[x] == 0
    ensures Frontier(ready, g, indegree, {})
  {
  }

  /** `find_cycle` finds nothing exactly when `topological_order` succeeds. */
  method Agreement(tasks: seq<TaskNode>) returns (cycle: seq<string>, r: Order)
    requires UniqueIds(tasks)
    ensures cycle == [] <==> r.Ordered?
  {
    cycle := FindCycle(tasks);
    r := TopologicalOrder(tasks);
  }
}
