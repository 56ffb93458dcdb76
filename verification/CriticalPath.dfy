/** Heaviest dependency paths: what both `longestPath` and the DSL's `critical_path` compute. */
module CriticalPath {
  import opened StringOrder
  import opened Graph

  type Weights = map<string, int>

  /** Every task has a weight, and no weight is negative. */
  ghost predicate Weighted(g: Graph, w: Weights) {
    forall x :: x in g ==> x in w && w[x] >= 0
  }

  ghost predicate Positive(g: Graph, w: Weights) {
    forall x :: x in g ==> x in w && w[x] > 0
  }

  function Weight(w: Weights, p: seq<string>): int {
    if p == [] then 0
    else Weight(w, p[..|p| - 1]) + (if p[|p| - 1] in w then w[p[|p| - 1]] else 0)
  }

  /** No dependency path weighs more than `p`. */
  ghost predicate Heaviest(g: Graph, w: Weights, p: seq<string>) {
    Path(g, p) && forall q :: Path(g, q) ==> Weight(w, q) <= Weight(w, p)
  }

  /** Read from its end, `p` equals `q` or is the smaller where they first differ. */
  predicate BackNotAfter(p: seq<string>, q: seq<string>) {
    if p == [] || q == [] then p == [] && q == []
    else if p[|p| - 1] != q[|q| - 1] then Less(p[|p| - 1], q[|q| - 1])
    else BackNotAfter(p[..|p| - 1], q[..|q| - 1])
  }

  /** The heaviest path that comes first when heaviest paths are compared from their ends. */
  ghost predicate Critical(g: Graph, w: Weights, p: seq<string>) {
    && Heaviest(g, w, p)
    && forall q :: Path(g, q) && Weight(w, q) == Weight(w, p) ==> BackNotAfter(p, q)
  }

  lemma {:induction false} BackAntisymmetric(p: seq<string>, q: seq<string>)
    requires BackNotAfter(p, q) && BackNotAfter(q, p)
    ensures p == q
  {
    if p != [] && q != [] {
      if p[|p| - 1] != q[|q| - 1] {
        LessAsymmetric(p[|p| - 1], q[|q| - 1]);
        assert false;
      }
      BackAntisymmetric(p[..|p| - 1], q[..|q| - 1]);
      assert p == p[..|p| - 1] + [p[|p| - 1]] && q == q[..|q| - 1] + [q[|q| - 1]];
    }
  }

  /** There is only one critical path, so two programs that find one agree. */
  lemma CriticalUnique(g: Graph, w: Weights, p: seq<string>, q: seq<string>)
    requires Critical(g, w, p) && Critical(g, w, q)
    ensures p == q && Weight(w, p) == Weight(w, q)
  {
    BackAntisymmetric(p, q);
  }

  lemma WeightSnoc(w: Weights, p: seq<string>, x: string)
    ensures Weight(w, p + [x]) == Weight(w, p) + if x in w then w[x] else 0
  {
    assert (p + [x])[..|p|] == p;
  }

  lemma {:induction false} WeightCons(w: Weights, x: string, p: seq<string>)
    ensures Weight(w, [x] + p) == (if x in w then w[x] else 0) + Weight(w, p)
  {
    if p == [] {
      assert [x] + p == [x];
      assert [x][..0] == [];
    } else {
      var init := p[..|p| - 1];
      WeightCons(w, x, init);
      assert ([x] + p)[..|p|] == [x] + init;
    }
  }

  lemma PathCons(g: Graph, x: string, p: seq<string>)
    requires Path(g, p) && x in g && Edge(g, x, p[0])
    ensures Path(g, [x] + p)
  {
    var q := [x] + p;
    forall i | 0 < i < |q| ensures Edge(g, q[i - 1], q[i]) {
      if i > 1 { assert Edge(g, p[i - 2], p[i - 1]); }
    }
  }

  lemma PathInit(g: Graph, p: seq<string>)
    requires Path(g, p) && |p| >= 2
    ensures Path(g, p[..|p| - 1]) && Edge(g, p[|p| - 2], p[|p| - 1])
  {
    PathSlice(g, p, 0, |p| - 1);
    assert p[0..|p| - 1] == p[..|p| - 1];
  }

  ghost predicate Sink(g: Graph, a: string) {
    forall b :: !Edge(g, a, b)
  }

  /** With positive weights a heaviest path runs from a root to a sink. */
  lemma HeaviestIsRootToSink(g: Graph, w: Weights, p: seq<string>)
    requires Closed(g) && Positive(g, w) && Heaviest(g, w, p)
    ensures g[p[0]] == []
    ensures Sink(g, p[|p| - 1])
  {
    if g[p[0]] != [] {
      var x := g[p[0]][0];
      assert Edge(g, x, p[0]);
      PathCons(g, x, p);
      WeightCons(w, x, p);
      assert false;
    }
    var last := p[|p| - 1];
    forall x ensures !Edge(g, last, x) {
      if Edge(g, last, x) {
        PathSnoc(g, p, x);
        WeightSnoc(w, p, x);
        assert false;
      }
    }
  }

  // Dynamic programming over a topological order

  datatype Option = None | Some(value: string)

  /** `best` is the least of the dependencies `deps` with the highest score. */
  ghost predicate BestOf(deps: seq<string>, score: map<string, int>, best: string) {
    && best in deps && best in score
    && forall d :: d in deps ==> d in score && Prefers(score, best, d)
  }

  ghost predicate Prefers(score: map<string, int>, best: string, d: string)
    requires best in score && d in score
  {
    score[d] < score[best] || (score[d] == score[best] && !Less(d, best))
  }

  /** The score of `x` is its weight plus the best score of a dependency, which is its parent. */
  ghost predicate Scored(g: Graph, w: Weights, score: map<string, int>, parent: map<string, Option>, x: string)
  {
    && x in g && x in w && x in score && x in parent && score[x] >= w[x]
    && (g[x] == [] ==> parent[x] == None && score[x] == w[x])
    && (g[x] != [] ==>
          && parent[x].Some? && BestOf(g[x], score, parent[x].value)
          && score[x] == score[parent[x].value] + w[x])
  }

  /** The first `n` tasks of the order have been scored, and only those. */
  ghost predicate ScoredUpTo(g: Graph, w: Weights, order: seq<string>, n: nat,
                             score: map<string, int>, parent: map<string, Option>)
    requires n <= |order| && Weighted(g, w)
  {
    && score.Keys == Elements(order[..n]) == parent.Keys
    && forall i :: 0 <= i < n ==> Scored(g, w, score, parent, order[i])
  }

  ghost predicate AllScored(g: Graph, w: Weights, score: map<string, int>, parent: map<string, Option>)
    requires Weighted(g, w)
  {
    && score.Keys == g.Keys
    && forall x :: x in g ==> Scored(g, w, score, parent, x)
  }

  lemma ScoreNext(g: Graph, w: Weights, order: seq<string>, n: nat,
                  score: map<string, int>, parent: map<string, Option>, s: int, p: Option)
    requires Weighted(g, w) && Topological(g, order) && n < |order|
    requires ScoredUpTo(g, w, order, n, score, parent)
    requires order[n] in g
    requires g[order[n]] == [] ==> p == None && s == w[order[n]]
    requires g[order[n]] != [] ==> p.Some? && BestOf(g[order[n]], score, p.value) && s == score[p.value] + w[order[n]]
    ensures ScoredUpTo(g, w, order, n + 1, score[order[n] := s], parent[order[n] := p])
  {
    hide Scored, Weighted, BestOf;
    var x := order[n];
    var score', parent' := score[x := s], parent[x := p];
    if g[x] != [] { ScoreNotNegative(g, w, order, n, score, parent, p.value); }
    NewScore(g, w, score, parent, x, s, p);
    assert order[..n + 1] == order[..n] + [x];
    assert x !in order[..n];
    assert Elements(order[..n + 1]) == Elements(order[..n]) + {x};
    forall i | 0 <= i < n + 1 ensures Scored(g, w, score', parent', order[i]) {
      if i < n { KeepsScore(g, w, score, parent, x, s, p, order[i]); }
    }
  }

  lemma ScoreNotNegative(g: Graph, w: Weights, order: seq<string>, n: nat,
                         score: map<string, int>, parent: map<string, Option>, d: string)
    requires Weighted(g, w) && Topological(g, order) && n < |order| && ScoredUpTo(g, w, order, n, score, parent)
    requires order[n] in g && BestOf(g[order[n]], score, d)
    ensures d in score && score[d] >= 0 && order[n] in w && order[n] !in score
  {
    DependenciesScored(g, order, n);
    assert d in order[..n] && order[n] in Elements(order);
    var i :| 0 <= i < n && order[i] == d;
    assert Scored(g, w, score, parent, order[i]);
  }

  lemma NewScore(g: Graph, w: Weights, score: map<string, int>, parent: map<string, Option>, x: string, s: int,
      p: Option)
    requires Weighted(g, w) && x in g && x !in score
    requires g[x] == [] ==> p == None && s == w[x]
    requires g[x] != [] ==> p.Some? && BestOf(g[x], score, p.value) && s == score[p.value] + w[x] && score[p.value] >= 0
    ensures Scored(g, w, score[x := s], parent[x := p], x)
  {
    if g[x] != [] {
      forall d | d in g[x] ensures d in score[x := s] && Prefers(score[x := s], p.value, d) {
        assert d != x && Prefers(score, p.value, d);
      }
    }
  }

  lemma KeepsScore(g: Graph, w: Weights, score: map<string, int>, parent: map<string, Option>, x: string, s: int,
      p: Option, y: string)
    requires Scored(g, w, score, parent, y) && x !in score
    ensures Scored(g, w, score[x := s], parent[x := p], y)
  {
    if g[y] != [] {
      var best := parent[y].value;
      assert best != x;
      forall d | d in g[y] ensures d in score[x := s] && Prefers(score[x := s], best, d) {
        assert d != x && Prefers(score, best, d);
      }
    }
  }

  /** All dependencies of the next task have been scored already. */
  lemma DependenciesScored(g: Graph, order: seq<string>, n: nat)
    requires Topological(g, order) && n < |order|
    ensures order[n] in g
    ensures forall d :: d in g[order[n]] ==> d in order[..n] && d != order[n]
  {
    assert order[n] in Elements(order);
    forall d | d in g[order[n]] ensures d in order[..n] && d != order[n] {
      assert d in order[..n];
    }
  }

  lemma ScoredAll(g: Graph, w: Weights, order: seq<string>, score: map<string, int>, parent: map<string, Option>)
    requires Weighted(g, w) && Topological(g, order) && ScoredUpTo(g, w, order, |order|, score, parent)
    ensures AllScored(g, w, score, parent)
  {
    assert order[..|order|] == order;
    forall x | x in g ensures Scored(g, w, score, parent, x) {
      assert x in Elements(order);
      var i :| 0 <= i < |order| && order[i] == x;
    }
  }

  /** A score bounds the weight of every path that ends at its task. */
  lemma {:induction false} ScoreBounds(g: Graph, w: Weights, score: map<string, int>, parent: map<string, Option>,
      p: seq<string>)
    requires Weighted(g, w) && AllScored(g, w, score, parent) && Path(g, p)
    ensures p[|p| - 1] in score && Weight(w, p) <= score[p[|p| - 1]]
  {
    var x := p[|p| - 1];
    var q := p[..|p| - 1];
    if |p| == 1 {
      assert q == [] && Scored(g, w, score, parent, x);
    } else {
      PathInit(g, p);
      ScoreBounds(g, w, score, parent, q);
      assert Edge(g, q[|q| - 1], x) && x in g;
      assert Scored(g, w, score, parent, x);
      assert Prefers(score, parent[x].value, q[|q| - 1]);
    }
  }

  /** `p` follows the parents back from its end to a task without one. */
  ghost predicate Traced(g: Graph, parent: map<string, Option>, p: seq<string>) {
    && p != [] && p[|p| - 1] in g
    && p[0] in parent && parent[p[0]] == None
    && forall i :: 0 < i < |p| ==> ParentOf(parent, p[i], p[i - 1])
  }

  ghost predicate ParentOf(parent: map<string, Option>, x: string, d: string) {
    x in parent && parent[x] == Some(d)
  }

  lemma TracedInit(g: Graph, w: Weights, score: map<string, int>, parent: map<string, Option>, p: seq<string>)
    requires Closed(g) && Weighted(g, w) && AllScored(g, w, score, parent) && Traced(g, parent, p)
    ensures |p| == 1 ==> g[p[0]] == []
    ensures |p| >= 2 ==> Traced(g, parent, p[..|p| - 1])
    ensures |p| >= 2 ==> Edge(g, p[|p| - 2], p[|p| - 1]) && parent[p[|p| - 1]] == Some(p[|p| - 2])
  {
    var x := p[|p| - 1];
    assert Scored(g, w, score, parent, x);
    if |p| >= 2 {
      var q := p[..|p| - 1];
      assert ParentOf(parent, x, q[|q| - 1]);
      assert Edge(g, q[|q| - 1], x);
      forall i | 0 < i < |q| ensures ParentOf(parent, q[i], q[i - 1]) {
        assert ParentOf(parent, p[i], p[i - 1]);
      }
    }
  }

  lemma {:induction false} TracedPath(g: Graph, w: Weights, score: map<string, int>, parent: map<string, Option>,
      p: seq<string>)
    requires Closed(g) && Weighted(g, w) && AllScored(g, w, score, parent) && Traced(g, parent, p)
    ensures Path(g, p) && g[p[0]] == [] && Weight(w, p) == score[p[|p| - 1]]
  {
    TracedInit(g, w, score, parent, p);
    var x := p[|p| - 1];
    assert Scored(g, w, score, parent, x);
    if |p| == 1 {
      assert p[..0] == [];
    } else {
      var q := p[..|p| - 1];
      assert p == q + [x];
      TracedPath(g, w, score, parent, q);
      PathSnoc(g, q, x);
    }
  }

  /** Among the paths with its end and its score, the traced one comes first. */
  lemma {:induction false} TracedLeast(g: Graph, w: Weights, score: map<string, int>, parent: map<string, Option>,
                                       p: seq<string>, q: seq<string>)
    requires Closed(g) && Weighted(g, w) && Positive(g, w) && AllScored(g, w, score, parent) && Traced(g, parent, p)
    requires Path(g, q) && q[|q| - 1] == p[|p| - 1] && Weight(w, q) == score[p[|p| - 1]]
    ensures BackNotAfter(p, q)
  {
    TracedInit(g, w, score, parent, p);
    var x := p[|p| - 1];
    assert Scored(g, w, score, parent, x);
    var p', q' := p[..|p| - 1], q[..|q| - 1];
    if |p| >= 2 { assert Scored(g, w, score, parent, p'[|p'| - 1]); }
    if |q| == 1 {
      assert q' == [];
      assert |p| == 1;
    } else {
      PathInit(g, q);
      var d := q'[|q'| - 1];
      ScoreBounds(g, w, score, parent, q');
      assert |p| >= 2;
      var best := p'[|p'| - 1];
      assert Prefers(score, best, d);
      LessTotal(best, d);
      if d == best { TracedLeast(g, w, score, parent, p', q'); }
      assert BackNotAfter(p', q');
    }
  }

  lemma TracedCritical(g: Graph, w: Weights, order: seq<string>, score: map<string, int>, parent: map<string, Option>,
      p: seq<string>)
    requires Closed(g) && Weighted(g, w) && AllScored(g, w, score, parent) && Traced(g, parent, p)
    requires Elements(order) == g.Keys && BestOf(order, score, p[|p| - 1])
    ensures Heaviest(g, w, p) && g[p[0]] == [] && Weight(w, p) == score[p[|p| - 1]]
    ensures Positive(g, w) ==> Critical(g, w, p)
  {
    TracedPath(g, w, score, parent, p);
    var end := p[|p| - 1];
    forall q | Path(g, q) ensures Weight(w, q) <= Weight(w, p) {
      BestEnd(g, w, order, score, parent, end, q);
    }
    if Positive(g, w) {
      forall q | Path(g, q) && Weight(w, q) == Weight(w, p) ensures BackNotAfter(p, q) {
        BestEnd(g, w, order, score, parent, end, q);
        var e := q[|q| - 1];
        if e == end {
          TracedLeast(g, w, score, parent, p, q);
        } else {
          LessTotal(end, e);
        }
      }
    }
  }

  lemma BestEnd(g: Graph, w: Weights, order: seq<string>, score: map<string, int>, parent: map<string, Option>,
      end: string, q: seq<string>)
    requires Weighted(g, w) && AllScored(g, w, score, parent)
    requires Elements(order) == g.Keys && BestOf(order, score, end) && Path(g, q)
    ensures q[|q| - 1] in score && Weight(w, q) <= score[q[|q| - 1]] <= score[end]
    ensures score[q[|q| - 1]] == score[end] ==> !Less(q[|q| - 1], end)
  {
    ScoreBounds(g, w, score, parent, q);
    var e := q[|q| - 1];
    assert e in Elements(order);
    assert Prefers(score, end, e);
  }

  // Choosing the best of a list, one element at a time

  /** `best` is the best of the first `k` elements, and `bestScore` its score. */
  ghost predicate BestUpTo(xs: seq<string>, k: nat, score: map<string, int>, bestScore: int, best: Option)
    requires k <= |xs|
  {
    && (k == 0 ==> best == None && bestScore <= 0)
    && (k > 0 ==> best.Some? && best.value in xs && best.value in score && bestScore == score[best.value])
    && forall j :: 0 <= j < k
        ==> xs[j] in score && best.Some? && best.value in score && Prefers(score, best.value, xs[j])
  }

  lemma BestStep(xs: seq<string>, k: nat, score: map<string, int>, bestScore: int, best: Option)
    requires k < |xs| && BestUpTo(xs, k, score, bestScore, best) && xs[k] in score
    ensures
      var x := xs[k];
      if best == None || score[x] > bestScore || (score[x] == bestScore && Less(x, best.value)) then
        BestUpTo(xs, k + 1, score, score[x], Some(x))
      else
        BestUpTo(xs, k + 1, score, bestScore, best)
  {
    var x := xs[k];
    LessIrreflexive(x);
    if best.Some? && (score[x] > bestScore || (score[x] == bestScore && Less(x, best.value))) {
      forall j | 0 <= j < k ensures xs[j] in score && Prefers(score, x, xs[j]) {
        assert Prefers(score, best.value, xs[j]);
        if score[xs[j]] == score[x] && Less(xs[j], x) {
          LessTransitive(xs[j], x, best.value);
        }
      }
    }
  }

  lemma BestAll(xs: seq<string>, score: map<string, int>, bestScore: int, best: Option)
    requires xs != [] && BestUpTo(xs, |xs|, score, bestScore, best)
    ensures best.Some? && BestOf(xs, score, best.value) && bestScore == score[best.value]
  {
    forall d | d in xs ensures d in score && Prefers(score, best.value, d) {
      var j :| 0 <= j < |xs| && xs[j] == d;
      assert Prefers(score, best.value, xs[j]);
    }
  }

  // Following the parents back

  /** `r` lists a task, its parent and so on; `current` comes next. */
  ghost predicate Following(parent: map<string, Option>, r: seq<string>, current: Option) {
    && (forall i :: 0 <= i < |r| - 1 ==> ParentOf(parent, r[i], r[i + 1]))
    && (r != [] ==> r[|r| - 1] in parent && parent[r[|r| - 1]] == current)
  }

  lemma FollowNext(parent: map<string, Option>, r: seq<string>, x: string)
    requires Following(parent, r, Some(x)) && x in parent
    ensures Following(parent, r + [x], parent[x])
  {
    var r' := r + [x];
    forall i | 0 <= i < |r'| - 1 ensures ParentOf(parent, r'[i], r'[i + 1]) {
      if i < |r| - 1 { assert ParentOf(parent, r[i], r[i + 1]); }
    }
  }

  function Reversed(s: seq<string>): (r: seq<string>)
    ensures |r| == |s| && forall i :: 0 <= i < |s| ==> r[i] == s[|s| - 1 - i]
  {
    if s == [] then [] else Reversed(s[1..]) + [s[0]]
  }

  lemma FollowedBack(g: Graph, parent: map<string, Option>, r: seq<string>)
    requires r != [] && r[0] in g && Following(parent, r, None)
    ensures Traced(g, parent, Reversed(r)) && Reversed(r)[|r| - 1] == r[0]
  {
    var p := Reversed(r);
    forall i | 0 < i < |p| ensures ParentOf(parent, p[i], p[i - 1]) {
      assert ParentOf(parent, r[|r| - 1 - i], r[|r| - i]);
    }
  }

  /** A parent stands earlier in the order, which is why following the parents ends. */
  lemma ParentEarlier(g: Graph, w: Weights, order: seq<string>, score: map<string, int>, parent: map<string, Option>,
      n: nat) returns (m: nat)
    requires Topological(g, order) && Weighted(g, w) && AllScored(g, w, score, parent) && n < |order|
    requires order[n] in parent && parent[order[n]].Some?
    ensures m < n && order[m] == parent[order[n]].value
  {
    var x := order[n];
    assert x in Elements(order);
    assert Scored(g, w, score, parent, x);
    assert parent[x].value in order[..n];
    m :| 0 <= m < n && order[m] == parent[x].value;
  }
}
