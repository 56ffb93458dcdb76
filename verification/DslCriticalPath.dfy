/** The Python DSL's `critical_path`, and its agreement with the coordinator's `longestPath`. */
module DslCriticalPath {
  import opened StringOrder
  import opened Graph
  import opened Kahn
  import opened DslGraph
  import opened CriticalPath
  import LongestPath

  /** `Missing` stands for the lookup error on a parent that names no task. */
  datatype PathResult = Found(path: seq<string>, weight: int) | Missing(id: string) | Unordered(cycle: seq<string>)

  /** Missing weights count as one and negative weights as zero. */
  function Clamped(g: Graph, weights: map<string, int>): (w: Weights)
    ensures Weighted(g, w)
  {
    map x | x in g :: ClampedWeight(weights, x)
  }

  function ClampedWeight(weights: map<string, int>, x: string): (r: int)
    ensures r >= 0
  {
    var given := if x in weights then weights[x] else 1;
    if given > 0 then given else 0
  }

  /** The score of a dependency as the loop reads it: an unknown one scores zero. */
  function ScoreOf(score: map<string, int>, d: string): int {
    if d in score then score[d] else 0
  }

  function Filled(xs: seq<string>, score: map<string, int>): (r: map<string, int>)
    ensures r.Keys == Elements(xs) && forall d :: d in xs ==> r[d] == ScoreOf(score, d)
  {
    map d | d in Elements(xs) :: ScoreOf(score, d)
  }

  ghost predicate NotNegative(xs: seq<string>, score: map<string, int>) {
    forall d :: d in xs ==> ScoreOf(score, d) >= 0
  }

  /** The parent loop. */
  method BestDependency(dependencies: seq<string>, score: map<string, int>) returns (bestScore: int, bestParent: Option)
    ensures dependencies == [] ==> bestScore == 0 && bestParent == None
    ensures bestParent.Some? ==> bestParent.value in dependencies
    ensures dependencies != [] && NotNegative(dependencies, score) ==>
              && bestParent.Some? && BestOf(dependencies, Filled(dependencies, score), bestParent.value)
              && bestScore == ScoreOf(score, bestParent.value)
  {
    ghost var filled := Filled(dependencies, score);
    bestScore, bestParent := 0, None;
    for k := 0 to |dependencies|
      invariant k == 0 ==> bestScore == 0 && bestParent == None
      invariant bestParent.Some? ==> bestParent.value in dependencies
      invariant NotNegative(dependencies, score) ==> BestUpTo(dependencies, k, filled, bestScore, bestParent)
    {
      var dependency := dependencies[k];
      var candidate := if dependency in score then score[dependency] else 0;
      if NotNegative(dependencies, score) { BestStep(dependencies, k, filled, bestScore, bestParent); }
      if candidate > bestScore
         || (candidate == bestScore && (bestParent == None || Less(dependency, bestParent.value))) {
        bestParent := Some(dependency);
        bestScore := candidate;
      }
    }
    if dependencies != [] && NotNegative(dependencies, score) { BestAll(dependencies, filled, bestScore, bestParent); }
  }

  /** `min(score, key=...)`. */
  method BestEndTask(order: seq<string>, score: map<string, int>) returns (end: string)
    requires order != [] && forall x :: x in order ==> x in score
    ensures BestOf(order, score, end)
  {
    end := order[0];
    BestStep(order, 0, score, 0, None);
    for k := 1 to |order|
      invariant end in score && BestUpTo(order, k, score, score[end], Some(end))
    {
      BestStep(order, k, score, score[end], Some(end));
      if score[order[k]] > score[end] || (score[order[k]] == score[end] && Less(order[k], end)) {
        end := order[k];
      }
    }
    BestAll(order, score, score[end], Some(end));
  }

  /** Every parent is a dependency of its task, known or not. */
  ghost predicate ParentsAreDependencies(byId: map<string, seq<string>>, parent: map<string, Option>) {
    forall x :: x in parent && parent[x].Some? ==> x in byId && parent[x].value in byId[x]
  }

  // Unknown dependencies

  /** The inputs on which unknown dependencies do not disturb the scores: there are none, or known tasks outweigh
      them. */
  ghost predicate Plain(byId: map<string, seq<string>>, w: Weights) {
    Closed(byId) || Positive(byId, w)
  }

  function KnownParent(byId: map<string, seq<string>>, p: Option): Option {
    if p.Some? && p.value !in byId then None else p
  }

  function KnownOnly(byId: map<string, seq<string>>, parent: map<string, Option>): map<string, Option> {
    map x | x in parent :: KnownParent(byId, parent[x])
  }

  /** All dependencies of `x` are unknown, and `d` is the first of them. */
  ghost predicate FirstUnknown(byId: map<string, seq<string>>, x: string, d: string) {
    x in byId && d in byId[x] && forall e :: e in byId[x] ==> e !in byId && !Less(e, d)
  }

  /** Only a task without dependencies has no parent, and only a task without known ones has an unknown parent. */
  ghost predicate RootOk(byId: map<string, seq<string>>, parent: map<string, Option>, x: string) {
    && x in parent && x in byId
    && (parent[x] == None ==> byId[x] == [])
    && (parent[x].Some? && parent[x].value !in byId ==> FirstUnknown(byId, x, parent[x].value))
  }

  ghost predicate RootsOk(byId: map<string, seq<string>>, parent: map<string, Option>) {
    forall x :: x in parent ==> RootOk(byId, parent, x)
  }

  lemma KnownWeighted(byId: map<string, seq<string>>, w: Weights)
    requires Weighted(byId, w)
    ensures Weighted(KnownGraph(byId), w)
  {
  }

  /** The scores on the known tasks are those of the known graph. */
  ghost predicate ScoresUpTo(byId: map<string, seq<string>>, w: Weights, order: seq<string>, n: nat,
                             score: map<string, int>, parent: map<string, Option>)
    requires n <= |order| && Weighted(byId, w)
  {
    KnownWeighted(byId, w);
    ScoredUpTo(KnownGraph(byId), w, order, n, score, KnownOnly(byId, parent)) && RootsOk(byId, parent)
  }

  ghost predicate AllScores(byId: map<string, seq<string>>, w: Weights, score: map<string, int>,
      parent: map<string, Option>)
    requires Weighted(byId, w)
  {
    KnownWeighted(byId, w);
    AllScored(KnownGraph(byId), w, score, KnownOnly(byId, parent)) && RootsOk(byId, parent)
  }

  lemma KnownDependencies(byId: map<string, seq<string>>, x: string)
    requires x in byId
    ensures forall d :: d in KnownGraph(byId)[x] <==> d in byId[x] && d in byId
    ensures byId[x] == [] ==> KnownGraph(byId)[x] == []
  {
  }

  /** Known dependencies have been scored, and unknown ones have not. */
  lemma KnownScores(byId: map<string, seq<string>>, w: Weights, order: seq<string>, n: nat,
                    score: map<string, int>, parent: map<string, Option>)
    requires Topological(KnownGraph(byId), order) && n < |order| && Weighted(byId, w)
    requires ScoresUpTo(byId, w, order, n, score, parent)
    ensures order[n] in byId && score.Keys <= byId.Keys
    ensures forall d :: d in byId[order[n]] && d in byId ==> d in score && d in w && score[d] >= w[d] >= 0
    ensures NotNegative(Sort(byId[order[n]]), score)
  {
    hide Sort, RootsOk, KnownOnly, KnownGraph;
    var g := KnownGraph(byId);
    DependenciesScored(g, order, n);
    KnownDependencies(byId, order[n]);
    SortMembers(byId[order[n]]);
    OrderLists(byId, order);
    forall d | d in score ensures d in byId && d in w && score[d] >= w[d] >= 0 {
      assert d in Elements(order[..n]);
      var i :| 0 <= i < n && order[i] == d;
      assert Scored(g, w, score, KnownOnly(byId, parent), order[i]);
    }
  }

  /** The best of all dependencies is the best of the known ones, if there are any. */
  lemma BestIsKnown(byId: map<string, seq<string>>, w: Weights, x: string, score: map<string, int>, best: string)
    requires x in byId && score.Keys <= byId.Keys && Plain(byId, w)
    requires forall d :: d in byId[x] && d in byId ==> d in score && d in w && score[d] >= w[d] >= 0
    requires BestOf(byId[x], Filled(byId[x], score), best)
    ensures KnownGraph(byId)[x] != [] ==> best in byId && best in score && BestOf(KnownGraph(byId)[x], score, best)
    ensures KnownGraph(byId)[x] == [] ==> best !in byId && FirstUnknown(byId, x, best)
  {
    hide KnownGraph, Closed, Positive;
    var filled := Filled(byId[x], score);
    KnownDependencies(byId, x);
    var known := KnownGraph(byId)[x];
    if known != [] {
      assert known[0] in known && Prefers(filled, best, known[0]);
      if best !in byId { UnknownIsLight(byId, w, x, known[0], best); }
      forall d | d in known ensures Prefers(score, best, d) { assert Prefers(filled, best, d); }
    } else {
      forall d | d in byId[x] ensures d !in byId && !Less(d, best) { assert Prefers(filled, best, d); }
    }
  }

  /** An unknown dependency is possible only if weights are positive. */
  lemma UnknownIsLight(byId: map<string, seq<string>>, w: Weights, x: string, known: string, unknown: string)
    requires Plain(byId, w) && x in byId && known in byId && unknown in byId[x] && unknown !in byId
    ensures known in w && w[known] > 0
  {
    if Closed(byId) { assert Edge(byId, unknown, x); }
  }

  lemma NextScored(byId: map<string, seq<string>>, w: Weights, order: seq<string>, n: nat,
                   score: map<string, int>, parent: map<string, Option>, bestScore: int, bestParent: Option)
    requires Topological(KnownGraph(byId), order) && n < |order| && Weighted(byId, w) && Plain(byId, w)
        && order[n] in byId
    requires ScoresUpTo(byId, w, order, n, score, parent)
    requires byId[order[n]] == [] ==> bestScore == 0 && bestParent == None
    requires var deps := byId[order[n]];
      deps != [] ==>
        bestParent.Some? && BestOf(deps, Filled(deps, score), bestParent.value)
            && bestScore == ScoreOf(score, bestParent.value)
    ensures ScoresUpTo(byId, w, order, n + 1, score[order[n] := bestScore + w[order[n]]],
        parent[order[n] := bestParent])
  {
    hide KnownGraph, Plain, BestOf, FirstUnknown, ScoredUpTo, Topological, Sort;
    var x, g := order[n], KnownGraph(byId);
    KnownScores(byId, w, order, n, score, parent);
    KnownDependencies(byId, x);
    KnownWeighted(byId, w);
    if byId[x] != [] { BestIsKnown(byId, w, x, score, bestParent.value); }
    ScoreNext(g, w, order, n, score, KnownOnly(byId, parent), bestScore + w[x], KnownParent(byId, bestParent));
    assert KnownOnly(byId, parent[x := bestParent]) == KnownOnly(byId, parent)[x := KnownParent(byId, bestParent)];
    var parent' := parent[x := bestParent];
    forall y | y in parent' ensures RootOk(byId, parent', y) {
      if y != x { assert RootOk(byId, parent, y); }
    }
  }

  /** The scoring loop. */
  method ScoreTasks(order: seq<string>, byId: map<string, seq<string>>, weights: map<string, int>)
    returns (score: map<string, int>, parent: map<string, Option>)
    requires Topological(KnownGraph(byId), order)
    ensures score.Keys == parent.Keys == byId.Keys && ParentsAreDependencies(byId, parent)
    ensures Plain(byId, Clamped(byId, weights)) ==> AllScores(byId, Clamped(byId, weights), score, parent)
  {
    hide *;
    ghost var w := Clamped(byId, weights);
    score, parent := map[], map[];
    ScoringStart(byId, w, order, score, parent);
    for n := 0 to |order|
      invariant DomainUpTo(order, n, score, parent) && ParentsAreDependencies(byId, parent)
      invariant Plain(byId, w) ==> ScoresUpTo(byId, w, order, n, score, parent)
    {
      var taskId := order[n];
      OrderedIsTask(byId, order, n);
      var dependencies := Sort(byId[taskId]);
      var bestScore, bestParent := BestDependency(dependencies, score);
      var weight := ClampedWeight(weights, taskId);
      if Plain(byId, w) {
        KnownScores(byId, w, order, n, score, parent);
        Assign(byId, weights, order, n, score, parent, bestScore, bestParent);
      }
      DomainNext(byId, order, n, score, parent, bestScore + weight, bestParent);
      score := score[taskId := bestScore + weight];
      parent := parent[taskId := bestParent];
    }
    ScoringEnd(byId, w, order, score, parent);
  }

  ghost predicate DomainUpTo(order: seq<string>, n: nat, score: map<string, int>, parent: map<string, Option>)
    requires n <= |order|
  {
    && (forall x :: x in score <==> x in order[..n])
    && (forall x :: x in parent <==> x in order[..n])
  }

  lemma ScoringStart(byId: map<string, seq<string>>, w: Weights, order: seq<string>, score: map<string, int>,
      parent: map<string, Option>)
    requires Weighted(byId, w) && score == map[] && parent == map[]
    ensures DomainUpTo(order, 0, score, parent) && ParentsAreDependencies(byId, parent)
    ensures ScoresUpTo(byId, w, order, 0, score, parent)
  {
  }

  lemma OrderedIsTask(byId: map<string, seq<string>>, order: seq<string>, n: nat)
    requires Topological(KnownGraph(byId), order) && n < |order|
    ensures order[n] in byId
  {
    assert order[n] in Elements(order);
  }

  /** The sorted dependencies serve as well as the listed ones. */
  lemma Assign(byId: map<string, seq<string>>, weights: map<string, int>, order: seq<string>, n: nat,
               score: map<string, int>, parent: map<string, Option>, bestScore: int, bestParent: Option)
    requires Topological(KnownGraph(byId), order) && n < |order| && order[n] in byId
        && Plain(byId, Clamped(byId, weights))
    requires ScoresUpTo(byId, Clamped(byId, weights), order, n, score, parent)
    requires var deps := Sort(byId[order[n]]);
      && (deps == [] ==> bestScore == 0 && bestParent == None)
      && (deps != [] ==>
            && bestParent.Some? && BestOf(deps, Filled(deps, score), bestParent.value)
            && bestScore == ScoreOf(score, bestParent.value))
    ensures ScoresUpTo(byId, Clamped(byId, weights), order, n + 1,
      score[order[n] := bestScore + ClampedWeight(weights, order[n])], parent[order[n] := bestParent])
  {
    hide ScoresUpTo, Topological, Plain, BestOf, Sort, KnownGraph;
    var deps := byId[order[n]];
    SortMembers(deps);
    assert Elements(Sort(deps)) == Elements(deps);
    assert Filled(Sort(deps), score) == Filled(deps, score);
    LongestPath.SortedBest(deps, Filled(deps, score), if bestParent.Some? then bestParent.value else "");
    NextScored(byId, Clamped(byId, weights), order, n, score, parent, bestScore, bestParent);
  }

  lemma DomainNext(byId: map<string, seq<string>>, order: seq<string>, n: nat, score: map<string, int>,
                   parent: map<string, Option>, s: int, p: Option)
    requires n < |order| && order[n] in byId && (p.Some? ==> p.value in Sort(byId[order[n]]))
    requires DomainUpTo(order, n, score, parent) && ParentsAreDependencies(byId, parent)
    ensures DomainUpTo(order, n + 1, score[order[n] := s], parent[order[n] := p])
    ensures ParentsAreDependencies(byId, parent[order[n] := p])
  {
    hide Sort;
    SortMembers(byId[order[n]]);
    assert order[..n + 1] == order[..n] + [order[n]];
  }

  lemma ScoringEnd(byId: map<string, seq<string>>, w: Weights, order: seq<string>, score: map<string, int>,
      parent: map<string, Option>)
    requires Topological(KnownGraph(byId), order) && DomainUpTo(order, |order|, score, parent) && Weighted(byId, w)
    requires Plain(byId, w) ==> ScoresUpTo(byId, w, order, |order|, score, parent)
    ensures score.Keys == parent.Keys == byId.Keys
    ensures Plain(byId, w) ==> AllScores(byId, w, score, parent)
  {
    hide *;
    OrderLists(byId, order);
    ScoringKeys(byId, order, score, parent);
    if Plain(byId, w) { ScoresAll(byId, w, order, score, parent); }
  }

  lemma ScoresAll(byId: map<string, seq<string>>, w: Weights, order: seq<string>, score: map<string, int>,
      parent: map<string, Option>)
    requires Topological(KnownGraph(byId), order) && Weighted(byId, w)
        && ScoresUpTo(byId, w, order, |order|, score, parent)
    ensures AllScores(byId, w, score, parent)
  {
    hide Topological, ScoredUpTo, AllScored, KnownGraph, RootsOk, KnownOnly;
    KnownWeighted(byId, w);
    ScoredAll(KnownGraph(byId), w, order, score, KnownOnly(byId, parent));
  }

  lemma ScoringKeys(byId: map<string, seq<string>>, order: seq<string>, score: map<string, int>,
      parent: map<string, Option>)
    requires DomainUpTo(order, |order|, score, parent) && forall x :: x in order <==> x in byId
    ensures score.Keys == parent.Keys == byId.Keys
  {
    assert order[..|order|] == order;
  }

  lemma OrderLists(byId: map<string, seq<string>>, order: seq<string>)
    requires Topological(KnownGraph(byId), order)
    ensures forall x :: x in order <==> x in byId
  {
    forall x ensures x in order <==> x in byId { assert x in Elements(order) <==> x in byId; }
  }

  /** A dependency that names no task. */
  ghost predicate Dangling(byId: map<string, seq<string>>, id: string) {
    id !in byId && exists x :: x in byId && id in byId[x]
  }

  lemma DanglingOpen(byId: map<string, seq<string>>, id: string)
    requires Dangling(byId, id)
    ensures !Closed(byId)
  {
    var x :| x in byId && id in byId[x];
    assert Edge(byId, id, x);
  }

  /** The trace loop: `missing` names a parent that is not a task, and stands at the end of the path. */
  method TraceBack(byId: map<string, seq<string>>, ghost order: seq<string>, parent: map<string, Option>, end: string)
    returns (path: seq<string>, missing: Option)
    requires Topological(KnownGraph(byId), order) && parent.Keys == byId.Keys && ParentsAreDependencies(byId, parent)
    requires end in byId
    ensures missing.Some? ==> Dangling(byId, missing.value) && |path| >= 2 && path[|path| - 1] == missing.value
    ensures var back := if missing.Some? then path[..|path| - 1] else path;
      back != [] && back[0] == end && Following(parent, back, missing)
  {
    hide *;
    path, missing := [], None;
    var current := Some(end);
    ghost var at := PlaceOf(byId, order, end);
    FollowStart(parent, end);
    while current != None
      invariant Following(parent, path, current)
      invariant path == [] ==> current == Some(end)
      invariant path != [] ==> path[0] == end
      invariant current.Some? && current.value in byId ==> 0 <= at < |order| && order[at] == current.value
      invariant current.Some? && current.value !in byId ==> Dangling(byId, current.value)
      decreases if current == None then -2 else if current.value !in byId then -1 else at
    {
      var id := current.value;
      if id !in parent {
        assert (path + [id])[..|path|] == path;
        return path + [id], current;
      }
      FollowNext(parent, path, id);
      path := path + [id];
      if parent[id].Some? { at := EarlierParent(byId, order, parent, at); }
      current := parent[id];
    }
  }

  lemma FollowStart(parent: map<string, Option>, end: string)
    ensures Following(parent, [], Some(end))
  {
  }

  lemma PlaceOf(byId: map<string, seq<string>>, order: seq<string>, x: string) returns (at: nat)
    requires Topological(KnownGraph(byId), order) && x in byId
    ensures at < |order| && order[at] == x
  {
    assert x in Elements(order);
    at :| 0 <= at < |order| && order[at] == x;
  }

  lemma EarlierParent(byId: map<string, seq<string>>, order: seq<string>, parent: map<string, Option>, at: nat)
      returns (before: nat)
    requires Topological(KnownGraph(byId), order) && ParentsAreDependencies(byId, parent)
    requires at < |order| && order[at] in parent && parent[order[at]].Some?
    ensures parent[order[at]].value in byId ==> before < at && order[before] == parent[order[at]].value
    ensures parent[order[at]].value !in byId ==> Dangling(byId, parent[order[at]].value)
  {
    var x, d := order[at], parent[order[at]].value;
    before := 0;
    assert Edge(byId, d, x);
    if d in byId {
      assert d in KnownGraph(byId)[x];
      assert d in order[..at];
      before :| 0 <= before < at && order[before] == d;
    }
  }

  method FindCriticalPath(tasks: seq<TaskNode>, weights: map<string, int>) returns (r: PathResult)
    ensures r.Unordered? <==> !UniqueIds(tasks) || HasCycle(KnownGraph(ById(tasks)))
    ensures r.Missing? ==> Dangling(ById(tasks), r.id) && !Closed(ById(tasks))
    ensures r.Found? && tasks == [] ==> r.path == [] && r.weight == 0
    ensures r.Found? && tasks != [] && Closed(ById(tasks)) ==> Found(ById(tasks), weights, r)
    ensures !r.Unordered? && tasks != [] && Plain(ById(tasks), Clamped(ById(tasks), weights))
        ==> Outcome(ById(tasks), weights, r)
  {
    var byId := ById(tasks);
    var ordered := TopologicalOrder(tasks);
    if ordered.Cyclic? { return Unordered(ordered.cycle); }
    var order := ordered.order;
    EmptyOrder(tasks, order);
    hide *;
    var score, parent := ScoreTasks(order, byId, weights);
    if order == [] { return PathResult.Found([], 0); }
    EveryTaskScored(byId, order, score);
    var end := BestEndTask(order, score);
    var path, missing := TraceBack(byId, order, parent, end);
    if missing.Some? {
      DanglingOpen(byId, missing.value);
      r := Missing(missing.value);
      if Plain(byId, Clamped(byId, weights)) {
        TraceOutcome(byId, weights, order, score, parent, path[..|path| - 1], end, missing);
      }
      return;
    }
    ghost var back := path;
    path := LongestPath.ReversePath(path);
    r := PathResult.Found(path, score[end]);
    if Plain(byId, Clamped(byId, weights)) {
      TraceOutcome(byId, weights, order, score, parent, back, end, missing);
      OutcomeFound(byId, weights, r);
    }
    PlainClosed(byId, weights);
  }

  lemma PlainClosed(byId: map<string, seq<string>>, weights: map<string, int>)
    ensures Closed(byId) ==> Plain(byId, Clamped(byId, weights))
  {
  }

  /** A heaviest path from a root, with its weight; with positive weights, the critical path. */
  ghost predicate Found(g: Graph, weights: map<string, int>, r: PathResult)
    requires r.Found?
  {
    Traces(g, Clamped(g, weights), r.path) && r.weight == Weight(Clamped(g, weights), r.path)
  }

  ghost predicate Traces(g: Graph, w: Weights, p: seq<string>) {
    Heaviest(g, w, p) && g[p[0]] == [] && (Positive(g, w) ==> Critical(g, w, p))
  }

  /** What comes out, on the known graph: its heaviest path if that starts at a task without dependencies, and otherwise
      the error that names the first dependency of the task it starts at. */
  ghost predicate Outcome(byId: map<string, seq<string>>, weights: map<string, int>, r: PathResult) {
    exists p :: Traces(KnownGraph(byId), Clamped(byId, weights), p) && Reports(byId, weights, p, r)
  }

  ghost predicate Reports(byId: map<string, seq<string>>, weights: map<string, int>, p: seq<string>, r: PathResult) {
    p != [] && p[0] in byId &&
    if byId[p[0]] == [] then r == PathResult.Found(p, Weight(Clamped(byId, weights), p))
    else r.Missing? && FirstUnknown(byId, p[0], r.id)
  }

  lemma OutcomeFound(byId: map<string, seq<string>>, weights: map<string, int>, r: PathResult)
    requires Outcome(byId, weights, r) && r.Found?
    ensures Closed(byId) ==> Found(byId, weights, r)
  {
    hide KnownGraph, Traces, Closed, FirstUnknown;
    if Closed(byId) { ClosedIsKnown(byId); }
  }

  /** With positive weights the lookup error appears exactly if the critical path of the known graph starts at a task
      that lists dependencies, all of them unknown. */
  lemma MissingExactly(byId: map<string, seq<string>>, weights: map<string, int>, r: PathResult, p: seq<string>)
    requires Outcome(byId, weights, r) && Positive(byId, Clamped(byId, weights))
    requires Critical(KnownGraph(byId), Clamped(byId, weights), p)
    ensures p != [] && p[0] in byId
    ensures r.Missing? <==> byId[p[0]] != []
    ensures r.Found? <==> byId[p[0]] == []
    ensures r.Found? ==> r.path == p && r.weight == Weight(Clamped(byId, weights), p)
  {
    hide Critical, Heaviest, FirstUnknown;
    var q :| Traces(KnownGraph(byId), Clamped(byId, weights), q) && Reports(byId, weights, q, r);
    CriticalUnique(KnownGraph(byId), Clamped(byId, weights), p, q);
  }

  lemma EmptyOrder(tasks: seq<TaskNode>, order: seq<string>)
    requires LeastTopological(KnownGraph(ById(tasks)), order)
    ensures order == [] <==> tasks == []
    ensures Topological(KnownGraph(ById(tasks)), order)
  {
    TopologicalLength(KnownGraph(ById(tasks)), order);
    if tasks != [] { KnownTask(tasks, 0); }
  }

  lemma EveryTaskScored(byId: map<string, seq<string>>, order: seq<string>, score: map<string, int>)
    requires Topological(KnownGraph(byId), order) && score.Keys == byId.Keys
    ensures forall x :: x in order ==> x in score && x in byId
    ensures order == [] ==> byId == map[]
  {
    forall x | x in order ensures x in byId { assert x in Elements(order); }
    if order == [] { assert KnownGraph(byId).Keys == {}; }
  }

  lemma OrderElements(byId: map<string, seq<string>>, order: seq<string>)
    requires Topological(KnownGraph(byId), order)
    ensures Elements(order) == byId.Keys
  {
  }

  /** The trace, as far as it names tasks, follows the parents in the known graph. */
  lemma KnownFollowing(byId: map<string, seq<string>>, parent: map<string, Option>, back: seq<string>, missing: Option)
    requires parent.Keys == byId.Keys && back != [] && Following(parent, back, missing)
        && KnownParent(byId, missing) == None
    ensures Following(KnownOnly(byId, parent), back, None)
  {
    var known := KnownOnly(byId, parent);
    forall i | 0 <= i < |back| - 1 ensures ParentOf(known, back[i], back[i + 1]) {
      assert ParentOf(parent, back[i], back[i + 1]);
      if i + 1 < |back| - 1 { assert ParentOf(parent, back[i + 1], back[i + 2]); }
    }
  }

  lemma TraceRoot(byId: map<string, seq<string>>, parent: map<string, Option>, back: seq<string>, missing: Option)
    requires RootsOk(byId, parent) && back != [] && Following(parent, back, missing)
        && (missing.Some? ==> missing.value !in byId)
    ensures var root := back[|back| - 1];
      && root in byId && (missing == None ==> byId[root] == [])
      && (missing.Some? ==> byId[root] != [] && FirstUnknown(byId, root, missing.value))
  {
    assert RootOk(byId, parent, back[|back| - 1]);
  }

  lemma TraceOutcome(byId: map<string, seq<string>>, weights: map<string, int>, order: seq<string>,
      score: map<string, int>,
                     parent: map<string, Option>, back: seq<string>, end: string, missing: Option)
    requires Topological(KnownGraph(byId), order) && parent.Keys == byId.Keys
    requires AllScores(byId, Clamped(byId, weights), score, parent) && BestOf(order, score, end)
    requires end in byId && back != [] && back[0] == end && Following(parent, back, missing)
    requires missing.Some? ==> Dangling(byId, missing.value)
    ensures Outcome(byId, weights,
      if missing.Some? then Missing(missing.value) else PathResult.Found(Reversed(back), score[end]))
  {
    hide Traced, AllScored, Following, Topological, Critical, Heaviest, Positive, Closed, KnownGraph, RootsOk,
         FirstUnknown, KnownOnly;
    var g, w, p := KnownGraph(byId), Clamped(byId, weights), Reversed(back);
    KnownWeighted(byId, w);
    OrderElements(byId, order);
    KnownFollowing(byId, parent, back, missing);
    FollowedBack(g, KnownOnly(byId, parent), back);
    TracedCritical(g, w, order, score, KnownOnly(byId, parent), p);
    TraceRoot(byId, parent, back, missing);
    assert Traces(g, w, p);
    assert p[0] == back[|back| - 1];
    assert Reports(byId, weights, p, if missing.Some? then Missing(missing.value) else PathResult.Found(p, score[end]));
  }

  /** When every given weight is positive both programs report the same path and the same weight. */
  lemma PathsAgree(g: Graph, weights: map<string, int>, p: seq<string>, q: seq<string>)
    requires forall x :: x in g && x in weights ==> weights[x] > 0
    requires Critical(g, LongestPath.Normal(g, weights), p) && Critical(g, Clamped(g, weights), q)
    ensures p == q && Weight(LongestPath.Normal(g, weights), p) == Weight(Clamped(g, weights), q)
  {
    assert LongestPath.Normal(g, weights) == Clamped(g, weights);
    CriticalUnique(g, Clamped(g, weights), p, q);
  }
}
