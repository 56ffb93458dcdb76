/** Kahn's algorithm with a sorted frontier, shared by the coordinator's
    `ValidateSpec`, the Python DSL and the chaos laboratory. */
module Kahn {
  import opened StringOrder
  import opened Graph

  /** Occurrences in `deps` of tasks that are not in `done`. */
  function Pending(deps: seq<string>, done: set<string>): nat {
    if deps == [] then 0
    else (if deps[0] in done then 0 else 1) + Pending(deps[1..], done)
  }

  function Lookup(m: map<string, seq<string>>, id: string): seq<string> {
    if id in m then m[id] else []
  }

  lemma {:induction false} PendingZero(deps: seq<string>, done: set<string>)
    ensures Pending(deps, done) == 0 <==> Elements(deps) <= done
  {
    if deps != [] {
      PendingZero(deps[1..], done);
      assert Elements(deps) == Elements(deps[1..]) + {deps[0]};
    }
  }

  lemma {:induction false} PendingNone(deps: seq<string>)
    ensures Pending(deps, {}) == |deps|
  {
    if deps != [] { PendingNone(deps[1..]); }
  }

  lemma {:induction false} PendingAdd(deps: seq<string>, done: set<string>, x: string)
    requires x !in done
    ensures Pending(deps, done) == Pending(deps, done + {x}) + multiset(deps)[x]
  {
    if deps != [] {
      PendingAdd(deps[1..], done, x);
      assert deps == [deps[0]] + deps[1..];
    }
  }

  /** `children` is the reverse of the dependency lists, multiplicities included. */
  ghost predicate Reverses(children: map<string, seq<string>>, g: Graph) {
    && (forall a, b :: a in g && b in g ==> multiset(Lookup(children, a))[b] == multiset(g[b])[a])
    && (forall a, b :: b in Lookup(children, a) ==> b in g)
  }

  /** `indegree` counts the dependencies outside `done`. */
  ghost predicate Counts(indegree: map<string, int>, g: Graph, done: set<string>) {
    && indegree.Keys == g.Keys
    && forall b :: b in g ==> indegree[b] == Pending(g[b], done)
  }

  /** `queue` holds, once each, the tasks outside `out` with count zero. */
  ghost predicate Collected(queue: seq<string>, g: Graph, indegree: map<string, int>, out: set<string>) {
    && NoDup(queue)
    && forall x :: x in queue <==> x in g && x !in out && x in indegree && indegree[x] == 0
  }

  ghost predicate Frontier(queue: seq<string>, g: Graph, indegree: map<string, int>, out: set<string>) {
    Sorted(queue) && Collected(queue, g, indegree, out)
  }

  ghost predicate Settled(indegree: map<string, int>, done: set<string>) {
    forall x :: x in done && x in indegree ==> indegree[x] == 0
  }

  /** A prefix built by always taking the least available task. */
  ghost predicate GreedyPrefix(g: Graph, order: seq<string>) {
    && NoDup(order)
    && Elements(order) <= g.Keys
    && (forall i, a :: 0 <= i < |order| && Edge(g, a, order[i]) ==> a in order[..i])
    && (forall o :: Topological(g, o) ==> NotAfter(order, o))
  }

  lemma GreedyEmpty(g: Graph)
    ensures GreedyPrefix(g, [])
  {
    var p: seq<string> := [];
    assert GreedyPrefix(g, p);
  }

  lemma PrefixNext(g: Graph, order: seq<string>, o: seq<string>, x: string)
    requires order <= o && Topological(g, o)
    requires x in g && x !in order
    ensures |order| < |o| && o[|order|] in g && o[|order|] !in order
  {
    assert x in Elements(o);
    assert forall j :: 0 <= j < |order| ==> order[j] == o[j];
    assert o[|order|] in Elements(o);
  }

  lemma GreedyStep(g: Graph, order: seq<string>, x: string, o: seq<string>)
    requires NotAfter(order, o) && Topological(g, o)
    requires x in g && x !in order
    requires forall y :: y in g && y !in order && Elements(g[y]) <= Elements(order) ==> !Less(y, x)
    ensures NotAfter(order + [x], o)
  {
    var n := |order|;
    var p := order + [x];
    if order <= o {
      PrefixNext(g, order, o, x);
      var y := o[n];
      if y == x {
        assert p == o[..n + 1];
      } else {
        forall a | a in Elements(g[y]) ensures a in Elements(order) {
          assert a in o[..n];
        }
        LessTotal(x, y);
        assert p[..n] == order;
        assert FirstDifference(p, o, n);
      }
    } else {
      var i :| FirstDifference(order, o, i) && Less(order[i], o[i]);
      assert p[..i] == order[..i];
      assert FirstDifference(p, o, i);
    }
  }

  lemma GreedyExtend(g: Graph, order: seq<string>, x: string)
    requires GreedyPrefix(g, order)
    requires x in g && x !in order && Elements(g[x]) <= Elements(order)
    requires forall y :: y in g && y !in order && Elements(g[y]) <= Elements(order) ==> !Less(y, x)
    ensures GreedyPrefix(g, order + [x])
  {
    var p := order + [x];
    forall i, a | 0 <= i < |p| && Edge(g, a, p[i]) ensures a in p[..i] {
      if i < |order| {
        assert p[..i] == order[..i];
      } else {
        assert p[..i] == order;
        assert a in Elements(g[x]);
      }
    }
    forall o | Topological(g, o) ensures NotAfter(p, o) {
      GreedyStep(g, order, x, o);
    }
  }

  /** When the frontier is empty, either everything was output or a cycle remains. */
  lemma FrontierExhausted(g: Graph, order: seq<string>)
    requires Closed(g) && GreedyPrefix(g, order)
    requires forall y :: y in g && y !in order ==> !(Elements(g[y]) <= Elements(order))
    ensures |order| == |g| ==> LeastTopological(g, order)
    ensures |order| != |g| ==> HasCycle(g)
    ensures |order| == |g| <==> !HasCycle(g)
  {
    NoDupCardinality(order);
    var stuck := g.Keys - Elements(order);
    if stuck != {} {
      forall x | x in stuck ensures WaitsIn(g, stuck, x) {
        var a :| a in Elements(g[x]) && a !in Elements(order);
        assert Edge(g, a, x) && a in stuck;
      }
      StuckSetHasCycle(g, stuck);
      assert g.Keys == Elements(order) + stuck;
    } else {
      forall x | x in g ensures x in Elements(order) { assert x !in stuck; }
      assert Elements(order) == g.Keys;
      assert Topological(g, order);
      TopologicalHasNoCycle(g, order);
    }
  }

  /** The counts while the first `k` of the children `cs` of `id` have been released. */
  ghost predicate Releasing(indegree: map<string, int>, g: Graph, cs: seq<string>, k: nat, done: set<string>)
    requires k <= |cs|
  {
    && indegree.Keys == g.Keys
    && forall b :: b in g ==> indegree[b] == Pending(g[b], done) - multiset(cs[..k])[b]
  }

  /** `cs` lists each dependent of `id` as often as it lists `id`. */
  ghost predicate ChildList(cs: seq<string>, g: Graph, id: string) {
    && (forall b :: b in g ==> multiset(cs)[b] == multiset(g[b])[id])
    && (forall b :: b in cs ==> b in g)
  }

  lemma ReleaseStep(indegree: map<string, int>, g: Graph, cs: seq<string>, k: nat, id: string, done: set<string>)
    requires k < |cs| && id !in done && ChildList(cs, g, id) && Releasing(indegree, g, cs, k, done)
    ensures cs[k] in g && indegree[cs[k]] > 0
    ensures Releasing(indegree[cs[k] := indegree[cs[k]] - 1], g, cs, k + 1, done)
  {
    var child := cs[k];
    TakeOneMore(cs, k);
    assert child in cs;
    PendingAdd(g[child], done, id);
    var indegree' := indegree[child := indegree[child] - 1];
    forall b | b in g ensures indegree'[b] == Pending(g[b], done) - multiset(cs[..k + 1])[b] {
      assert indegree[b] == Pending(g[b], done) - multiset(cs[..k])[b];
    }
  }

  lemma TakeOneMore(cs: seq<string>, k: nat)
    requires k < |cs|
    ensures multiset(cs[..k + 1]) == multiset(cs[..k])[cs[k] := multiset(cs[..k])[cs[k]] + 1]
    ensures multiset(cs[..k])[cs[k]] < multiset(cs)[cs[k]]
  {
    assert cs[..k + 1] == cs[..k] + [cs[k]];
    assert cs == cs[..k] + [cs[k]] + cs[k + 1..];
  }

  lemma ReleaseEnd(indegree: map<string, int>, g: Graph, cs: seq<string>, id: string, done: set<string>)
    requires id !in done && ChildList(cs, g, id) && Releasing(indegree, g, cs, |cs|, done)
    ensures Counts(indegree, g, done + {id})
  {
    assert cs[..|cs|] == cs;
    forall b | b in g ensures indegree[b] == Pending(g[b], done + {id}) {
      PendingAdd(g[b], done, id);
    }
  }

  lemma ReleaseStart(indegree: map<string, int>, g: Graph, cs: seq<string>, done: set<string>)
    requires Counts(indegree, g, done)
    ensures Releasing(indegree, g, cs, 0, done)
  {
  }

  /** A child that still counts is not finished. */
  lemma ReleasedChild(indegree: map<string, int>, g: Graph, cs: seq<string>, k: nat, id: string, done: set<string>)
    requires k < |cs| && Releasing(indegree, g, cs, k, done) && cs[k] in g && indegree[cs[k]] > 0
    requires Settled(indegree, done + {id})
    ensures cs[k] in indegree && cs[k] !in done + {id} && indegree.Keys == g.Keys
    ensures Settled(indegree[cs[k] := indegree[cs[k]] - 1], done + {id})
  {
  }

  /** Pushing a task whose count just reached zero keeps the collection complete. */
  lemma CollectPush(queue: seq<string>, g: Graph, indegree: map<string, int>, out: set<string>, child: string)
    requires Collected(queue, g, indegree, out) && indegree.Keys == g.Keys
    requires child in g && child !in out && indegree[child] > 0
    ensures
      var indegree' := indegree[child := indegree[child] - 1];
      Collected(if indegree[child] == 1 then queue + [child] else queue, g, indegree', out)
  {
  }

  lemma SortCollected(queue: seq<string>, g: Graph, indegree: map<string, int>, out: set<string>)
    requires Collected(queue, g, indegree, out)
    ensures Frontier(Sort(queue), g, indegree, out)
  {
    NoDupMultiset(queue, Sort(queue));
  }

  lemma FrontierPush(queue: seq<string>, g: Graph, indegree: map<string, int>, out: set<string>, child: string)
    requires Frontier(queue, g, indegree, out) && indegree.Keys == g.Keys
    requires child in g && child !in out && indegree[child] > 0
    ensures
      var indegree' := indegree[child := indegree[child] - 1];
      Frontier(if indegree[child] == 1 then Sort(queue + [child]) else queue, g, indegree', out)
  {
    CollectPush(queue, g, indegree, out, child);
    if indegree[child] == 1 {
      SortCollected(queue + [child], g, indegree[child := 0], out);
    }
  }

  /** Decrements the count of every child of the task just output, queueing those that reach zero. */
  method ReleaseChildren(ghost g: Graph, cs: seq<string>, ghost id: string, ghost done: set<string>,
                         indegree0: map<string, int>, queue0: seq<string>)
    returns (indegree: map<string, int>, queue: seq<string>)
    requires id in g && id !in done && ChildList(cs, g, id)
    requires Counts(indegree0, g, done) && Frontier(queue0, g, indegree0, done + {id})
    requires Settled(indegree0, done + {id})
    ensures Counts(indegree, g, done + {id}) && Frontier(queue, g, indegree, done + {id})
    ensures Settled(indegree, done + {id})
  {
    hide *;
    indegree, queue := indegree0, queue0;
    ReleaseStart(indegree, g, cs, done);
    for k := 0 to |cs|
      invariant Releasing(indegree, g, cs, k, done)
      invariant Frontier(queue, g, indegree, done + {id})
      invariant Settled(indegree, done + {id})
    {
      var child := cs[k];
      ReleaseStep(indegree, g, cs, k, id, done);
      ReleasedChild(indegree, g, cs, k, id, done);
      FrontierPush(queue, g, indegree, done + {id}, child);
      indegree := indegree[child := indegree[child] - 1];
      if indegree[child] == 0 {
        queue := Sort(queue + [child]);
      }
    }
    ReleaseEnd(indegree, g, cs, id, done);
  }

  /** Outputting the head of the queue extends the greedy prefix and leaves the loop of its children to run. */
  lemma TakeHead(g: Graph, children: map<string, seq<string>>, indegree: map<string, int>, queue: seq<string>,
      order: seq<string>)
    requires Reverses(children, g) && GreedyPrefix(g, order) && queue != []
    requires Counts(indegree, g, Elements(order)) && Frontier(queue, g, indegree, Elements(order))
    requires Settled(indegree, Elements(order))
    ensures
      var id := queue[0];
      var done := Elements(order);
      && id in g && id !in done && ChildList(Sort(Lookup(children, id)), g, id)
      && Frontier(queue[1..], g, indegree, done + {id})
      && Settled(indegree, done + {id})
      && GreedyPrefix(g, order + [id])
      && Elements(order + [id]) == done + {id}
      && |order| < |g|
  {
    hide *;
    var id := queue[0];
    HeadIsNext(g, indegree, queue, order);
    GreedyExtend(g, order, id);
    HeadChildren(g, children, id);
    HeadLeaves(g, indegree, queue, Elements(order));
    RoomLeft(g, order, id);
  }

  /** The head of the queue is the least task whose dependencies have all been output. */
  lemma HeadIsNext(g: Graph, indegree: map<string, int>, queue: seq<string>, order: seq<string>)
    requires Counts(indegree, g, Elements(order)) && Frontier(queue, g, indegree, Elements(order)) && queue != []
    ensures queue[0] in g && queue[0] !in Elements(order) && queue[0] !in order
        && Elements(g[queue[0]]) <= Elements(order)
    ensures forall y :: y in g && y !in order && Elements(g[y]) <= Elements(order) ==> !Less(y, queue[0])
  {
    hide Less, Pending;
    ReadyIffCountZero(g, indegree, Elements(order));
    HeadIsLeast(queue);
  }

  lemma HeadChildren(g: Graph, children: map<string, seq<string>>, id: string)
    requires Reverses(children, g) && id in g
    ensures ChildList(Sort(Lookup(children, id)), g, id)
  {
    hide Sort;
    SortMembers(Lookup(children, id));
  }

  lemma HeadLeaves(g: Graph, indegree: map<string, int>, queue: seq<string>, done: set<string>)
    requires Frontier(queue, g, indegree, done) && Settled(indegree, done) && queue != []
    ensures Frontier(queue[1..], g, indegree, done + {queue[0]}) && Settled(indegree, done + {queue[0]})
  {
    hide Less;
    var id := queue[0];
    forall x ensures x in queue[1..] <==> x in queue && x != id {
      if x in queue && x != id {
        var k :| 0 <= k < |queue| && queue[k] == x;
        assert queue[1..][k - 1] == x;
      }
    }
  }

  lemma RoomLeft(g: Graph, order: seq<string>, id: string)
    requires GreedyPrefix(g, order + [id])
    ensures Elements(order + [id]) == Elements(order) + {id} && |order| < |g|
  {
    hide NotAfter;
    NoDupCardinality(order + [id]);
    SubsetCardinality(Elements(order + [id]), g.Keys);
  }

  /** The main loop: take the head of the sorted queue until it is empty. */
  method Drain(ghost g: Graph, children: map<string, seq<string>>, indegree0: map<string, int>, queue0: seq<string>)
    returns (order: seq<string>)
    requires Closed(g) && Reverses(children, g)
    requires Counts(indegree0, g, {}) && Frontier(queue0, g, indegree0, {})
    ensures |order| == |g| <==> !HasCycle(g)
    ensures |order| == |g| ==> LeastTopological(g, order)
    ensures NoDup(order) && Elements(order) <= g.Keys
  {
    var indegree, queue := indegree0, queue0;
    order := [];
    GreedyEmpty(g);
    assert Elements(order) == {};
    while |queue| > 0
      invariant GreedyPrefix(g, order)
      invariant Counts(indegree, g, Elements(order))
      invariant Frontier(queue, g, indegree, Elements(order))
      invariant Settled(indegree, Elements(order))
      decreases |g| - |order|
    {
      var id := queue[0];
      TakeHead(g, children, indegree, queue, order);
      ghost var done := Elements(order);
      queue := queue[1..];
      order := order + [id];
      indegree, queue := ReleaseChildren(g, Sort(Lookup(children, id)), id, done, indegree, queue);
    }
    ReadyIffCountZero(g, indegree, Elements(order));
    FrontierExhausted(g, order);
  }

  lemma SortMembers(s: seq<string>)
    ensures forall x :: x in Sort(s) <==> x in s
  {
    assert forall x :: x in s <==> x in multiset(s);
    assert forall x :: x in Sort(s) <==> x in multiset(Sort(s));
  }

  lemma HeadIsLeast(queue: seq<string>)
    requires Sorted(queue) && queue != []
    ensures forall y :: y in queue ==> !Less(y, queue[0])
  {
    LessIrreflexive(queue[0]);
  }

  lemma ReadyIffCountZero(g: Graph, indegree: map<string, int>, done: set<string>)
    requires Counts(indegree, g, done)
    ensures forall y :: y in g ==> (indegree[y] == 0 <==> Elements(g[y]) <= done)
  {
    forall y | y in g ensures indegree[y] == 0 <==> Elements(g[y]) <= done {
      PendingZero(g[y], done);
    }
  }
}
