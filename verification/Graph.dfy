/** Dependency graphs: every task id is mapped to the list of ids it depends on. */
module Graph {
  import opened StringOrder

  type Graph = map<string, seq<string>>

  function Elements<T>(s: seq<T>): set<T> {
    set x | x in s
  }

  ghost predicate NoDup<T>(s: seq<T>) {
    forall i, j :: 0 <= i < j < |s| ==> s[i] != s[j]
  }

  /** `b` lists `a` as a dependency. */
  predicate Edge(g: Graph, a: string, b: string) {
    b in g && a in g[b]
  }

  /** Every listed dependency is itself a task. */
  ghost predicate Closed(g: Graph) {
    forall a, b :: Edge(g, a, b) ==> a in g
  }

  /** `p` runs along dependency edges, from dependency to dependent. */
  ghost predicate Path(g: Graph, p: seq<string>) {
    && p != []
    && p[0] in g
    && forall i :: 0 < i < |p| ==> Edge(g, p[i - 1], p[i])
  }

  ghost predicate Cycle(g: Graph, p: seq<string>) {
    Path(g, p) && |p| >= 2 && p[0] == p[|p| - 1]
  }

  ghost predicate HasCycle(g: Graph) {
    exists p :: Cycle(g, p)
  }

  ghost predicate Reaches(g: Graph, a: string, b: string) {
    exists p :: Path(g, p) && |p| >= 2 && p[0] == a && p[|p| - 1] == b
  }

  /** `o` lists every task once, each after all of its dependencies. */
  ghost predicate Topological(g: Graph, o: seq<string>) {
    && NoDup(o)
    && Elements(o) == g.Keys
    && forall i, a :: 0 <= i < |o| && o[i] in g && a in g[o[i]] ==> a in o[..i]
  }

  /** `p` is not after `o`: it is a prefix of `o`, or smaller where they first differ. */
  ghost predicate NotAfter(p: seq<string>, o: seq<string>) {
    || p <= o
    || exists i :: FirstDifference(p, o, i) && Less(p[i], o[i])
  }

  ghost predicate FirstDifference(p: seq<string>, o: seq<string>, i: int) {
    0 <= i < |p| && i < |o| && p[..i] == o[..i] && p[i] != o[i]
  }

  /** The lexicographically least topological order. */
  ghost predicate LeastTopological(g: Graph, o: seq<string>) {
    && Topological(g, o)
    && forall o' :: Topological(g, o') ==> NotAfter(o, o')
  }

  lemma {:induction false} NoDupCardinality<T>(s: seq<T>)
    requires NoDup(s)
    ensures |Elements(s)| == |s|
  {
    if s == [] {
      assert Elements(s) == {};
    } else {
      var t, x := s[..|s| - 1], s[|s| - 1];
      NoDupCardinality(t);
      assert s == t + [x] && x !in t;
      assert Elements(s) == Elements(t) + {x};
    }
  }

  lemma NoDupMultiset<T>(a: seq<T>, b: seq<T>)
    requires multiset(a) == multiset(b) && NoDup(a)
    ensures NoDup(b) && forall x :: x in a <==> x in b
  {
    forall x ensures x in a <==> x in b {
      assert x in a <==> x in multiset(a);
      assert x in b <==> x in multiset(b);
    }
    if i, j :| 0 <= i < j < |b| && b[i] == b[j] {
      var x := b[i];
      assert b == b[..i] + [x] + b[i + 1..j] + [x] + b[j + 1..];
      assert multiset(a)[x] >= 2;
      AtMostOnce(a, x);
    }
  }

  lemma {:induction false} AtMostOnce<T>(s: seq<T>, x: T)
    requires NoDup(s)
    ensures multiset(s)[x] <= 1
  {
    if s != [] {
      var t := s[..|s| - 1];
      assert s == t + [s[|s| - 1]];
      AtMostOnce(t, x);
      if s[|s| - 1] == x { assert x !in t; assert x !in multiset(t); }
    }
  }

  lemma TopologicalLength(g: Graph, o: seq<string>)
    requires Topological(g, o)
    ensures |o| == |g|
  {
    NoDupCardinality(o);
  }

  /** A path never goes backwards in a topological order. */
  lemma {:induction false} PathFollowsOrder(g: Graph, o: seq<string>, p: seq<string>, j: nat) returns (i: nat)
    requires Topological(g, o) && Path(g, p) && |p| >= 2
    requires j < |o| && o[j] == p[|p| - 1]
    ensures i < j && o[i] == p[0]
  {
    var q := p[..|p| - 1];
    assert Edge(g, p[|p| - 2], p[|p| - 1]);
    assert q[|q| - 1] in o[..j];
    var k :| 0 <= k < j && o[k] == q[|q| - 1];
    if |q| == 1 {
      i := k;
    } else {
      assert Path(g, q);
      i := PathFollowsOrder(g, o, q, k);
    }
  }

  lemma TopologicalHasNoCycle(g: Graph, o: seq<string>)
    requires Topological(g, o)
    ensures !HasCycle(g)
  {
    forall p | Cycle(g, p) ensures false {
      assert Edge(g, p[|p| - 2], p[|p| - 1]);
      assert p[0] in Elements(o);
      var j :| 0 <= j < |o| && o[j] == p[0];
      var i := PathFollowsOrder(g, o, p, j);
    }
  }

  /** Some member of `stuck` is a dependency of `x`. */
  ghost predicate WaitsIn(g: Graph, stuck: set<string>, x: string) {
    exists a :: a in stuck && Edge(g, a, x)
  }

  /** Following dependencies backwards for `n` steps inside a set that never runs out of them. */
  lemma {:induction false} WalkBack(g: Graph, stuck: set<string>, b: string, n: nat) returns (p: seq<string>)
    requires b in stuck && stuck <= g.Keys
    requires forall x :: x in stuck ==> WaitsIn(g, stuck, x)
    ensures Path(g, p) && |p| == n + 1 && Elements(p) <= stuck
  {
    if n == 0 {
      p := [b];
    } else {
      var q := WalkBack(g, stuck, b, n - 1);
      assert q[0] in Elements(q);
      var a :| a in stuck && Edge(g, a, q[0]);
      p := [a] + q;
      forall i | 0 < i < |p| ensures Edge(g, p[i - 1], p[i]) {
        if i > 1 { assert Edge(g, q[i - 2], q[i - 1]); }
      }
      forall x | x in Elements(p) ensures x in stuck { assert x == a || x in Elements(q); }
    }
  }

  lemma PathSlice(g: Graph, p: seq<string>, i: nat, j: nat)
    requires Path(g, p) && i < j <= |p|
    ensures Path(g, p[i..j])
  {
    var q := p[i..j];
    forall k | 0 < k < |q| ensures Edge(g, q[k - 1], q[k]) {
      assert Edge(g, p[i + k - 1], p[i + k]);
    }
    assert i > 0 ==> Edge(g, p[i - 1], p[i]);
  }

  lemma PathSnoc(g: Graph, p: seq<string>, x: string)
    requires Path(g, p) && Edge(g, p[|p| - 1], x)
    ensures Path(g, p + [x])
  {
    var q := p + [x];
    forall i | 0 < i < |q| ensures Edge(g, q[i - 1], q[i]) {
      if i < |p| { assert Edge(g, p[i - 1], p[i]); }
    }
  }

  lemma ReachesTransitive(g: Graph, a: string, b: string, c: string)
    requires Reaches(g, a, b) && Reaches(g, b, c)
    ensures Reaches(g, a, c)
  {
    var p :| Path(g, p) && |p| >= 2 && p[0] == a && p[|p| - 1] == b;
    var q :| Path(g, q) && |q| >= 2 && q[0] == b && q[|q| - 1] == c;
    var r := p + q[1..];
    forall i | 0 < i < |r| ensures Edge(g, r[i - 1], r[i]) {
      if i < |p| { assert Edge(g, p[i - 1], p[i]); } else { assert Edge(g, q[i - |p|], q[i - |p| + 1]); }
    }
    assert Path(g, r) && r[|r| - 1] == c;
  }

  lemma ReachesEdge(g: Graph, a: string, b: string)
    requires Edge(g, a, b) && a in g
    ensures Reaches(g, a, b)
  {
    assert Path(g, [a, b]);
  }

  /** A nonempty set in which every task waits for another member contains a cycle. */
  lemma StuckSetHasCycle(g: Graph, stuck: set<string>)
    requires stuck != {} && stuck <= g.Keys
    requires forall x :: x in stuck ==> WaitsIn(g, stuck, x)
    ensures HasCycle(g)
  {
    hide WaitsIn, Path, HasCycle;
    var b :| b in stuck;
    var p := WalkBack(g, stuck, b, |stuck|);
    if NoDup(p) {
      NoDupCardinality(p);
      SubsetCardinality(Elements(p), stuck);
      assert false;
    }
    var i, j :| 0 <= i < j < |p| && p[i] == p[j];
    Return(g, p, i, j);
  }

  /** A path that comes back to a task contains a cycle. */
  lemma Return(g: Graph, p: seq<string>, i: nat, j: nat)
    requires Path(g, p) && i < j < |p| && p[i] == p[j]
    ensures HasCycle(g)
  {
    hide Path;
    PathSlice(g, p, i, j + 1);
    assert Cycle(g, p[i..j + 1]);
  }

  lemma SubsetCardinality<T>(a: set<T>, b: set<T>)
    requires a <= b
    ensures |a| <= |b|
  {
    if a != {} {
      var x :| x in a;
      SubsetCardinality(a - {x}, b - {x});
    }
  }

  lemma PrefixElements<T>(p: seq<T>, o: seq<T>, n: nat)
    requires n <= |p| && n <= |o| && p[..n] == o[..n]
    ensures forall k :: 0 <= k < n ==> p[k] == o[k]
  {
    forall k | 0 <= k < n ensures p[k] == o[k] {
      assert p[k] == p[..n][k];
    }
  }

  /** Two orders that are both least are the same. */
  lemma LeastTopologicalUnique(g: Graph, o: seq<string>, o': seq<string>)
    requires LeastTopological(g, o) && LeastTopological(g, o')
    ensures o == o'
  {
    hide *;
    LeastMeans(g, o, o');
    LeastMeans(g, o', o);
    TopologicalLength(g, o);
    TopologicalLength(g, o');
    NotAfterBoth(o, o');
  }

  lemma LeastMeans(g: Graph, o: seq<string>, o': seq<string>)
    requires LeastTopological(g, o) && LeastTopological(g, o')
    ensures Topological(g, o) && Topological(g, o') && NotAfter(o, o')
  {
    hide Topological, NotAfter;
  }

  lemma NotAfterBoth(o: seq<string>, o': seq<string>)
    requires |o| == |o'| && NotAfter(o, o') && NotAfter(o', o)
    ensures o == o'
  {
    hide Less;
    if o != o' {
      var i :| FirstDifference(o, o', i) && Less(o[i], o'[i]);
      var j :| FirstDifference(o', o, j) && Less(o'[j], o[j]);
      PrefixElements(o, o', i);
      PrefixElements(o, o', j);
      LessAsymmetric(o[i], o'[i]);
    }
  }

  /** Same tasks and same dependencies, whatever the order they are listed in. */
  ghost predicate SameEdges(g: Graph, h: Graph) {
    && g.Keys == h.Keys
    && forall b :: b in g ==> Elements(g[b]) == Elements(h[b])
  }

  lemma SameEdgesTopological(g: Graph, h: Graph, o: seq<string>)
    requires SameEdges(g, h) && Topological(g, o)
    ensures Topological(h, o)
  {
    forall i, a | 0 <= i < |o| && o[i] in h && a in h[o[i]] ensures a in o[..i] {
      assert a in Elements(h[o[i]]);
      assert a in g[o[i]];
    }
  }

  /** The least order depends only on the graph, not on how it is listed. */
  lemma LeastTopologicalListing(g: Graph, h: Graph, o: seq<string>, o': seq<string>)
    requires SameEdges(g, h)
    requires LeastTopological(g, o) && LeastTopological(h, o')
    ensures o == o'
  {
    SameEdgesTopological(g, h, o);
    forall p | Topological(h, p) ensures NotAfter(o, p) {
      SameEdgesTopological(h, g, p);
    }
    LeastTopologicalUnique(h, o, o');
  }
}
