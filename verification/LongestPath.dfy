/** `longestPath` and `descendantsCount` of the coordinator's graph analysis. */
module LongestPath {
  import opened StringOrder
  import opened Graph
  import opened Kahn
  import opened CriticalPath

  /** Missing and non-positive weights count as one. */
  function Normal(g: Graph, weights: map<string, int>): (w: Weights)
    ensures Positive(g, w) && Weighted(g, w)
  {
    map x | x in g :: NormalWeight(weights, x)
  }

  function NormalWeight(weights: map<string, int>, x: string): int {
    if x in weights && weights[x] > 0 then weights[x] else 1
  }

  /** The parent map with its sentinel, the empty id, read as "no parent". */
  function Lift(parent: map<string, string>): map<string, Option> {
    map x | x in parent :: Sentinel(parent[x])
  }

  function Sentinel(id: string): Option {
    if id == "" then None else Some(id)
  }

  lemma LiftUpdate(parent: map<string, string>, x: string, d: string)
    ensures Lift(parent[x := d]) == Lift(parent)[x := Sentinel(d)]
  {
  }

  lemma TopologicalClosed(g: Graph, order: seq<string>)
    requires Topological(g, order)
    ensures Closed(g)
  {
    forall a, b | Edge(g, a, b) ensures a in g {
      assert b in Elements(order);
      var i :| 0 <= i < |order| && order[i] == b;
      assert a in order[..i];
      assert a in Elements(order);
    }
  }

  ghost predicate PositiveScores(xs: seq<string>, score: map<string, int>) {
    forall x :: x in xs ==> x != "" && x in score && score[x] > 0
  }

  /** The parent loop: the least of the dependencies with the highest score. */
  method BestParent(dependencies: seq<string>, score: map<string, int>) returns (bestScore: int, bestParent: string)
    requires PositiveScores(dependencies, score)
    ensures dependencies == [] ==> bestScore == 0 && bestParent == ""
    ensures dependencies != [] ==>
              bestParent != "" && BestOf(dependencies, score, bestParent) && bestScore == score[bestParent]
  {
    bestScore, bestParent := 0, "";
    for k := 0 to |dependencies|
      invariant BestUpTo(dependencies, k, score, bestScore, Sentinel(bestParent))
      invariant k == 0 ==> bestScore == 0
    {
      var dependency := dependencies[k];
      var candidate := score[dependency];
      BestStep(dependencies, k, score, bestScore, Sentinel(bestParent));
      if candidate > bestScore || (candidate == bestScore && bestParent != "" && Less(dependency, bestParent)) {
        bestScore := candidate;
        bestParent := dependency;
      }
    }
    if dependencies != [] { BestAll(dependencies, score, bestScore, Sentinel(bestParent)); }
  }

  /** The end loop: the least of the tasks with the highest score. */
  method BestEndTask(order: seq<string>, score: map<string, int>) returns (best: int, end: string)
    requires PositiveScores(order, score)
    ensures order == [] ==> best == -1 && end == ""
    ensures order != [] ==> end != "" && BestOf(order, score, end) && best == score[end]
  {
    best, end := -1, "";
    for k := 0 to |order|
      invariant BestUpTo(order, k, score, best, Sentinel(end))
      invariant k == 0 ==> best == -1
    {
      var id := order[k];
      BestStep(order, k, score, best, Sentinel(end));
      if score[id] > best || (score[id] == best && (end == "" || Less(id, end))) {
        best := score[id];
        end := id;
      }
    }
    if order != [] { BestAll(order, score, best, Sentinel(end)); }
  }

  /** The trace loop, which lists a task, its parent, and so on to a root. */
  method TraceBack(ghost g: Graph, ghost w: Weights, ghost order: seq<string>, ghost score: map<string, int>,
                   parent: map<string, string>, end: string) returns (path: seq<string>)
    requires Topological(g, order) && Weighted(g, w) && AllScored(g, w, score, Lift(parent))
    requires end in g && "" !in g
    ensures path != [] && path[0] == end && Following(Lift(parent), path, None)
  {
    hide *;
    var current := end;
    path := [];
    ghost var at := PositionOf(g, order, end);
    TraceStart(g, Lift(parent), end);
    while current != ""
      invariant Following(Lift(parent), path, Sentinel(current))
      invariant path == [] ==> current == end
      invariant path != [] ==> path[0] == end
      invariant current != "" ==> 0 <= at < |order| && order[at] == current
      decreases if current == "" then -1 else at
    {
      TraceStep(g, w, order, score, parent, path, at);
      path := path + [current];
      if parent[current] != "" {
        at := ParentEarlier(g, w, order, score, Lift(parent), at);
      }
      current := parent[current];
    }
  }

  lemma TraceStart(g: Graph, parent: map<string, Option>, end: string)
    requires end in g && "" !in g
    ensures end != "" && Following(parent, [], Some(end)) && Sentinel(end) == Some(end) && Sentinel("") == None
  {
  }

  lemma TraceStep(g: Graph, w: Weights, order: seq<string>, score: map<string, int>, parent: map<string, string>,
                  path: seq<string>, at: nat)
    requires Topological(g, order) && Weighted(g, w) && AllScored(g, w, score, Lift(parent)) && "" !in g
    requires at < |order| && Following(Lift(parent), path, Sentinel(order[at]))
    ensures order[at] in parent && order[at] in Lift(parent) && Lift(parent)[order[at]] == Sentinel(parent[order[at]])
    ensures Following(Lift(parent), path + [order[at]], Sentinel(parent[order[at]]))
    ensures parent[order[at]] != "" ==> Sentinel(parent[order[at]]) == Some(parent[order[at]])
  {
    var x := order[at];
    assert x in Elements(order);
    assert Scored(g, w, score, Lift(parent), x);
    FollowNext(Lift(parent), path, x);
  }

  lemma PositionOf(g: Graph, order: seq<string>, x: string) returns (at: nat)
    requires Topological(g, order) && x in g
    ensures at < |order| && order[at] == x
  {
    assert x in Elements(order);
    at :| 0 <= at < |order| && order[at] == x;
  }

  /** The swapping loop. */
  method ReversePath(path: seq<string>) returns (r: seq<string>)
    ensures r == Reversed(path)
  {
    r := path;
    var left, right := 0, |path| - 1;
    while left < right
      invariant 0 <= left && right == |path| - 1 - left && left <= right + 1 && |r| == |path|
      invariant forall k :: 0 <= k < left || right < k < |path| ==> r[k] == path[|path| - 1 - k]
      invariant forall k :: left <= k <= right ==> r[k] == path[k]
    {
      r := r[left := r[right]][right := r[left]];
      left, right := left + 1, right - 1;
    }
  }

  lemma NormalWeightIs(weights: map<string, int>, id: string)
    ensures NormalWeight(weights, id) == if id in weights && weights[id] > 0 then weights[id] else 1
  {
  }

  /** The scoring loop. */
  method ScoreTasks(order: seq<string>, byID: Graph, weights: map<string, int>)
    returns (score: map<string, int>, parent: map<string, string>)
    requires Topological(byID, order) && "" !in byID
    ensures AllScored(byID, Normal(byID, weights), score, Lift(parent))
  {
    hide *;
    ghost var w := Normal(byID, weights);
    score, parent := map[], map[];
    StartScoring(byID, w, order);
    for n := 0 to |order|
      invariant ScoredUpTo(byID, w, order, n, score, Lift(parent))
    {
      var id := order[n];
      DependenciesScored(byID, order, n);
      var weight := if id in weights then weights[id] else 0;
      if weight <= 0 { weight := 1; }
      var dependencies := Sort(byID[id]);
      ReadyScores(byID, w, order, n, score, Lift(parent), dependencies);
      var bestScore, bestParent := BestParent(dependencies, score);
      SortedBest(byID[id], score, bestParent);
      AssignScore(byID, weights, order, n, score, parent, bestScore, bestParent);
      NormalWeightIs(weights, id);
      score := score[id := bestScore + weight];
      parent := parent[id := bestParent];
    }
    ScoredAll(byID, w, order, score, Lift(parent));
  }

  method LongestPath(order: seq<string>, byID: Graph, weights: map<string, int>)
      returns (path: seq<string>, weight: int)
    requires Topological(byID, order) && "" !in byID
    ensures order == [] ==> path == [] && weight == 0
    ensures order != [] ==> Critical(byID, Normal(byID, weights), path)
    ensures order != [] ==> weight == Weight(Normal(byID, weights), path)
  {
    hide *;
    ghost var w := Normal(byID, weights);
    var score, parent := ScoreTasks(order, byID, weights);
    TopologicalClosed(byID, order);
    FinalScores(byID, w, order, score, Lift(parent));
    var best, end := BestEndTask(order, score);
    if end == "" { return [], 0; }
    EndKnown(byID, order, score, end);
    path := TraceBack(byID, w, order, score, parent, end);
    FollowedBack(byID, Lift(parent), path);
    path := ReversePath(path);
    TracedCritical(byID, w, order, score, Lift(parent), path);
    weight := if best > 0 then best else 0;
  }

  lemma StartScoring(g: Graph, w: Weights, order: seq<string>)
    requires Weighted(g, w)
    ensures ScoredUpTo(g, w, order, 0, map[], Lift(map[]))
  {
    assert order[..0] == [];
  }

  lemma ReadyScores(g: Graph, w: Weights, order: seq<string>, n: nat, score: map<string, int>,
      parent: map<string, Option>,
                    dependencies: seq<string>)
    requires Topological(g, order) && Weighted(g, w) && Positive(g, w) && "" !in g && n < |order|
    requires ScoredUpTo(g, w, order, n, score, parent) && order[n] in g && dependencies == Sort(g[order[n]])
    ensures PositiveScores(dependencies, score)
  {
    SortMembers(g[order[n]]);
    DependenciesScored(g, order, n);
    forall d | d in dependencies ensures d != "" && d in score && score[d] > 0 {
      assert d in order[..n];
      var i :| 0 <= i < n && order[i] == d;
      assert Scored(g, w, score, parent, order[i]);
    }
  }

  lemma SortedBest(deps: seq<string>, score: map<string, int>, best: string)
    ensures Sort(deps) == [] <==> deps == []
    ensures BestOf(Sort(deps), score, best) ==> BestOf(deps, score, best)
  {
    SortMembers(deps);
    if deps != [] { assert deps[0] in Sort(deps); }
    if Sort(deps) != [] { assert Sort(deps)[0] in deps; }
  }

  lemma AssignScore(g: Graph, weights: map<string, int>, order: seq<string>, n: nat, score: map<string, int>,
                    parent: map<string, string>, bestScore: int, bestParent: string)
    requires Topological(g, order) && n < |order| && order[n] in g
    requires ScoredUpTo(g, Normal(g, weights), order, n, score, Lift(parent))
    requires g[order[n]] == [] ==> bestScore == 0 && bestParent == ""
    requires g[order[n]] != [] ==>
      bestParent != "" && BestOf(g[order[n]], score, bestParent) && bestScore == score[bestParent]
    ensures ScoredUpTo(g, Normal(g, weights), order, n + 1,
      score[order[n] := bestScore + NormalWeight(weights, order[n])], Lift(parent[order[n] := bestParent]))
  {
    hide ScoredUpTo, Lift, Topological;
    var x := order[n];
    LiftUpdate(parent, x, bestParent);
    ScoreNext(g, Normal(g, weights), order, n, score, Lift(parent), bestScore + NormalWeight(weights, x),
        Sentinel(bestParent));
  }

  lemma FinalScores(g: Graph, w: Weights, order: seq<string>, score: map<string, int>, parent: map<string, Option>)
    requires Topological(g, order) && Weighted(g, w) && Positive(g, w) && AllScored(g, w, score, parent) && "" !in g
    ensures PositiveScores(order, score) && Elements(order) == g.Keys
    ensures forall x :: x in order ==> x in score && score[x] > 0
  {
    forall x | x in order ensures x != "" && x in score && score[x] > 0 {
      assert x in Elements(order);
      assert Scored(g, w, score, parent, x);
    }
  }

  lemma EndKnown(g: Graph, order: seq<string>, score: map<string, int>, end: string)
    requires Elements(order) == g.Keys && BestOf(order, score, end)
    ensures end in g && end in order
  {
    assert end in Elements(order);
  }

  /** The reported path starts at a root, ends at a sink and is as heavy as any. */
  lemma CriticalMeans(g: Graph, weights: map<string, int>, path: seq<string>)
    requires Closed(g) && Critical(g, Normal(g, weights), path)
    ensures Path(g, path) && g[path[0]] == [] && Sink(g, path[|path| - 1])
    ensures forall q :: Path(g, q) ==> Weight(Normal(g, weights), q) <= Weight(Normal(g, weights), path)
  {
    HeaviestIsRootToSink(g, Normal(g, weights), path);
  }

  // descendantsCount

  /** The tasks that depend on `a`, directly or through others. */
  ghost predicate DescendantsOf(g: Graph, a: string, s: set<string>) {
    forall b :: b in s <==> Reaches(g, a, b)
  }

  /** `children[a]` lists the tasks that depend on `a`. */
  ghost predicate ChildLists(g: Graph, children: map<string, seq<string>>) {
    forall a, b :: b in Lookup(children, a) <==> Edge(g, a, b)
  }

  /** What lies below `a` is its children and what lies below them. */
  lemma ReachesUnfold(g: Graph, a: string, b: string)
    requires Closed(g)
    ensures Reaches(g, a, b) <==> exists c :: Edge(g, a, c) && (b == c || Reaches(g, c, b))
  {
    if Reaches(g, a, b) {
      var p :| Path(g, p) && |p| >= 2 && p[0] == a && p[|p| - 1] == b;
      var c := p[1];
      assert Edge(g, p[0], p[1]);
      if |p| > 2 {
        PathSlice(g, p, 1, |p|);
        assert p[1..|p|][|p| - 2] == b;
      }
    }
    if c :| Edge(g, a, c) && (b == c || Reaches(g, c, b)) {
      if b == c {
        assert Path(g, [a, b]);
      } else {
        var p :| Path(g, p) && |p| >= 2 && p[0] == c && p[|p| - 1] == b;
        PathCons(g, a, p);
        assert ([a] + p)[|p|] == b;
      }
    }
  }

  /** Every task from position `i` on has its set. */
  ghost predicate SetsFrom(g: Graph, order: seq<string>, i: nat, sets: map<string, set<string>>)
    requires i <= |order|
  {
    && (forall k :: i <= k < |order| ==> order[k] in sets && DescendantsOf(g, order[k], sets[order[k]]))
    && (forall a :: a in sets ==> exists k :: i <= k < |order| && order[k] == a)
  }

  /** After `j` children: those children and what lies below them. */
  ghost predicate Below(g: Graph, cs: seq<string>, j: nat, s: set<string>)
    requires j <= |cs|
  {
    && (forall b :: b in s ==> exists k :: 0 <= k < j && AtOrBelow(g, cs[k], b))
    && (forall b, k :: 0 <= k < j && AtOrBelow(g, cs[k], b) ==> b in s)
  }

  ghost predicate AtOrBelow(g: Graph, c: string, b: string) {
    b == c || Reaches(g, c, b)
  }

  lemma BelowStep(g: Graph, cs: seq<string>, j: nat, s: set<string>, t: set<string>)
    requires j < |cs| && Below(g, cs, j, s) && DescendantsOf(g, cs[j], t)
    ensures Below(g, cs, j + 1, s + {cs[j]} + t)
  {
    hide Reaches;
    var s' := s + {cs[j]} + t;
    forall b | b in s' ensures exists k :: 0 <= k < j + 1 && AtOrBelow(g, cs[k], b) {
      if b in s {
        var k :| 0 <= k < j && AtOrBelow(g, cs[k], b);
      } else {
        assert AtOrBelow(g, cs[j], b);
      }
    }
  }

  lemma BelowIsDescendants(g: Graph, children: map<string, seq<string>>, a: string, s: set<string>)
    requires Closed(g) && ChildLists(g, children)
    requires Below(g, Lookup(children, a), |Lookup(children, a)|, s)
    ensures DescendantsOf(g, a, s)
  {
    var cs := Lookup(children, a);
    forall b ensures b in s <==> Reaches(g, a, b) {
      ReachesUnfold(g, a, b);
      if b in s {
        var k :| 0 <= k < |cs| && AtOrBelow(g, cs[k], b);
        assert Edge(g, a, cs[k]);
      }
      if Reaches(g, a, b) {
        var c :| Edge(g, a, c) && (b == c || Reaches(g, c, b));
        assert c in cs;
        var k :| 0 <= k < |cs| && cs[k] == c;
        assert AtOrBelow(g, cs[k], b);
      }
    }
  }

  /** The children of a task come later in the order, so their sets are ready. */
  lemma ChildSet(g: Graph, order: seq<string>, i: nat, sets: map<string, set<string>>, child: string)
    requires Topological(g, order) && i < |order| && SetsFrom(g, order, i + 1, sets) && Edge(g, order[i], child)
    ensures child in sets && DescendantsOf(g, child, sets[child])
  {
    assert child in Elements(order);
    var k :| 0 <= k < |order| && order[k] == child;
    assert order[i] in order[..k];
    var m :| 0 <= m < k && order[m] == order[i];
    assert m == i;
  }

  method DescendantsCount(order: seq<string>, children: map<string, seq<string>>, ghost g: Graph)
    returns (result: map<string, nat>)
    requires Topological(g, order) && ChildLists(g, children)
    ensures result.Keys == g.Keys
    ensures forall a :: a in g ==> exists s :: DescendantsOf(g, a, s) && result[a] == |s|
  {
    hide *;
    TopologicalClosed(g, order);
    var sets: map<string, set<string>> := map[];
    SetsStart(g, order, sets);
    for i := |order| downto 0
      invariant SetsFrom(g, order, i, sets)
    {
      var below := CollectBelow(g, order, i, children, sets);
      SetsNext(g, order, i, children, sets, below);
      sets := sets[order[i] := below];
    }
    SetsEnd(g, order, sets);
    result := map id | id in sets :: |sets[id]|;
  }

  lemma SetsStart(g: Graph, order: seq<string>, sets: map<string, set<string>>)
    requires sets == map[]
    ensures SetsFrom(g, order, |order|, sets)
  {
  }

  lemma SetsEnd(g: Graph, order: seq<string>, sets: map<string, set<string>>)
    requires Topological(g, order) && SetsFrom(g, order, 0, sets)
    ensures sets.Keys == g.Keys && forall a :: a in g ==> DescendantsOf(g, a, sets[a])
  {
    forall a ensures a in sets <==> a in g {
      if a in sets {
        var k :| 0 <= k < |order| && order[k] == a;
        assert a in Elements(order);
      }
    }
    forall a | a in g ensures DescendantsOf(g, a, sets[a]) {
      var k := PositionOf(g, order, a);
      assert order[k] in sets;
    }
  }

  lemma SetsNext(g: Graph, order: seq<string>, i: nat, children: map<string, seq<string>>,
      sets: map<string, set<string>>, below: set<string>)
    requires Topological(g, order) && i < |order| && SetsFrom(g, order, i + 1, sets)
    requires DescendantsOf(g, order[i], below)
    ensures SetsFrom(g, order, i, sets[order[i] := below])
  {
  }

  /** The inner loops of `descendantsCount` for one task. */
  method CollectBelow(ghost g: Graph, order: seq<string>, i: nat, children: map<string, seq<string>>,
                      sets: map<string, set<string>>) returns (below: set<string>)
    requires Topological(g, order) && Closed(g) && ChildLists(g, children)
    requires i < |order| && SetsFrom(g, order, i + 1, sets)
    ensures DescendantsOf(g, order[i], below)
  {
    var cs := Lookup(children, order[i]);
    below := {};
    hide DescendantsOf, AtOrBelow, SetsFrom, Topological, Closed;
    for j := 0 to |cs|
      invariant Below(g, cs, j, below)
    {
      assert cs[j] in cs;
      assert Edge(g, order[i], cs[j]);
      ChildSet(g, order, i, sets, cs[j]);
      BelowStep(g, cs, j, below, sets[cs[j]]);
      below := below + {cs[j]} + sets[cs[j]];
    }
    BelowIsDescendants(g, children, order[i], below);
  }
}
