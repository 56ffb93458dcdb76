/** Schedules of a dependency graph on identical worker slots, and the bounds that
    every work-conserving schedule obeys (Graham's list-scheduling bound). */
module Schedule {
  import opened Graph

  type Durations = map<string, int>

  /** A missing map entry reads as zero. */
  function Dur(d: Durations, t: string): int {
    if t in d then d[t] else 0
  }

  /** Total duration of a list of tasks. */
  function Weight(d: Durations, p: seq<string>): int {
    if p == [] then 0 else Weight(d, p[..|p| - 1]) + Dur(d, p[|p| - 1])
  }

  function Finish(d: Durations, start: map<string, int>, t: string): int
    requires t in start
  {
    start[t] + Dur(d, t)
  }

  /** The tasks that occupy a slot during the time unit beginning at `x`. */
  ghost function Active(d: Durations, start: map<string, int>, x: int): set<string> {
    set t | t in start && start[t] <= x < Finish(d, start, t)
  }

  ghost predicate Precedence(g: Graph, d: Durations, start: map<string, int>) {
    forall a, b :: Edge(g, a, b) && b in start ==> a in start && Finish(d, start, a) <= start[b]
  }

  ghost predicate Capacity(d: Durations, m: int, start: map<string, int>) {
    forall x :: |Active(d, start, x)| <= m
  }

  ghost predicate NonNegative(g: Graph, d: Durations) {
    forall t :: t in g ==> Dur(d, t) >= 0
  }

  /** Every task runs, after its dependencies, on one of `m` slots, inside `[0, makespan]`. */
  ghost predicate Feasible(g: Graph, d: Durations, m: int, start: map<string, int>, makespan: int) {
    && start.Keys == g.Keys
    && Precedence(g, d, start)
    && Capacity(d, m, start)
    && makespan >= 0
    && forall t :: t in g ==> 0 <= start[t] && Finish(d, start, t) <= makespan
  }

  /** All dependencies of `t` have finished by `x`. */
  ghost predicate ReadyAt(g: Graph, d: Durations, start: map<string, int>, t: string, x: int) {
    x >= 0 && forall a :: Edge(g, a, t) ==> a in start && Finish(d, start, a) <= x
  }

  /** A task waits past its release only while all `m` slots are occupied. */
  ghost predicate WorkConserving(g: Graph, d: Durations, m: int, start: map<string, int>) {
    forall t, x :: t in start && ReadyAt(g, d, start, t, x) && x < start[t] ==> |Active(d, start, x)| == m
  }

  ghost predicate Ends(g: Graph, p: seq<string>, t: string) {
    Path(g, p) && p[|p| - 1] == t
  }

  /** Slot-time used before `T`. */
  ghost function Used(d: Durations, start: map<string, int>, T: int): int
    decreases T
  {
    if T <= 0 then 0 else Used(d, start, T - 1) + |Active(d, start, T - 1)|
  }

  // Lower bounds, for every feasible schedule

  /** No chain of dependencies can be run faster than one task after the other. */
  lemma {:induction false} ChainBound(g: Graph, d: Durations, m: int, start: map<string, int>, makespan: int,
      p: seq<string>)
    requires Feasible(g, d, m, start, makespan) && Path(g, p)
    ensures p[|p| - 1] in g && Weight(d, p) <= Finish(d, start, p[|p| - 1]) <= makespan
  {
    var t := p[|p| - 1];
    var q := p[..|p| - 1];
    if q == [] {
      assert Weight(d, q) == 0;
    } else {
      assert Edge(g, p[|p| - 2], t);
      assert Path(g, q);
      ChainBound(g, d, m, start, makespan, q);
    }
  }

  /** The part of task `t` processed before time `T`. */
  function Processed(d: Durations, start: map<string, int>, t: string, T: int): int
    requires t in start
  {
    if T <= start[t] then 0 else if T <= Finish(d, start, t) then T - start[t] else Dur(d, t)
  }

  function TotalProcessed(d: Durations, start: map<string, int>, o: seq<string>, T: int): int
    requires Elements(o) <= start.Keys
  {
    if o == [] then 0
    else
      assert Elements(o[..|o| - 1]) <= Elements(o) && o[|o| - 1] in Elements(o);
      TotalProcessed(d, start, o[..|o| - 1], T) + Processed(d, start, o[|o| - 1], T)
  }

  lemma {:induction false} ProcessedStep(d: Durations, start: map<string, int>, o: seq<string>, T: int)
    requires NoDup(o) && Elements(o) <= start.Keys
    requires forall t :: t in o ==> Dur(d, t) >= 0
    ensures TotalProcessed(d, start, o, T + 1) - TotalProcessed(d, start, o, T) == |Active(d, start, T) * Elements(o)|
  {
    hide Active, Processed, Dur;
    if o == [] {
    } else {
      var t := o[|o| - 1];
      var q := o[..|o| - 1];
      assert Elements(o) == Elements(q) + {t};
      ProcessedStep(d, start, q, T);
      SplitLast(Active(d, start, T), Elements(q), t);
      ProcessedOne(d, start, t, T);
    }
  }

  lemma ProcessedOne(d: Durations, start: map<string, int>, t: string, T: int)
    requires t in start && Dur(d, t) >= 0
    ensures Processed(d, start, t, T + 1) - Processed(d, start, t, T) == if t in Active(d, start, T) then 1 else 0
  {
  }

  lemma SplitLast(A: set<string>, E: set<string>, t: string)
    requires t !in E
    ensures |A * (E + {t})| == |A * E| + if t in A then 1 else 0
  {
    assert A * (E + {t}) == if t in A then A * E + {t} else A * E;
  }

  lemma {:induction false} ProcessedEnds(d: Durations, start: map<string, int>, o: seq<string>, T: int)
    requires Elements(o) <= start.Keys
    requires forall t :: t in o ==> Dur(d, t) >= 0 && 0 <= start[t]
    ensures TotalProcessed(d, start, o, 0) == 0
    ensures (forall t :: t in o ==> Finish(d, start, t) <= T) ==> TotalProcessed(d, start, o, T) == Weight(d, o)
  {
    if o != [] {
      assert Elements(o) == Elements(o[..|o| - 1]) + {o[|o| - 1]};
      ProcessedEnds(d, start, o[..|o| - 1], T);
    }
  }

  lemma {:induction false} UsedIsProcessed(d: Durations, start: map<string, int>, o: seq<string>, T: nat)
    requires NoDup(o) && Elements(o) == start.Keys
    requires forall t :: t in o ==> Dur(d, t) >= 0 && 0 <= start[t]
    ensures Used(d, start, T) == TotalProcessed(d, start, o, T)
  {
    if T == 0 {
      ProcessedEnds(d, start, o, 0);
    } else {
      UsedIsProcessed(d, start, o, T - 1);
      UsedStep(d, start, o, T - 1);
    }
  }

  lemma UsedStep(d: Durations, start: map<string, int>, o: seq<string>, T: nat)
    requires NoDup(o) && Elements(o) == start.Keys
    requires forall t :: t in o ==> Dur(d, t) >= 0
    ensures Used(d, start, T + 1) - Used(d, start, T) == TotalProcessed(d, start, o, T + 1) - TotalProcessed(d, start,
        o, T)
  {
    ProcessedStep(d, start, o, T);
    ActiveStarted(d, start, T);
  }

  lemma ActiveStarted(d: Durations, start: map<string, int>, x: int)
    ensures Active(d, start, x) * start.Keys == Active(d, start, x)
  {
  }

  /** A complete schedule uses exactly the total work of slot-time. */
  lemma UsedIsWork(g: Graph, d: Durations, m: int, start: map<string, int>, makespan: int, o: seq<string>)
    requires Feasible(g, d, m, start, makespan) && NonNegative(g, d)
    requires NoDup(o) && Elements(o) == g.Keys
    ensures Used(d, start, makespan) == Weight(d, o)
  {
    assert forall t :: t in o ==> t in g;
    UsedIsProcessed(d, start, o, makespan);
    ProcessedEnds(d, start, o, makespan);
  }

  lemma {:induction false} UsedAtMost(d: Durations, m: int, start: map<string, int>, T: nat)
    requires Capacity(d, m, start)
    ensures Used(d, start, T) <= m * T
  {
    if T > 0 {
      UsedAtMost(d, m, start, T - 1);
      assert m * T == m * (T - 1) + m;
    }
  }

  /** No feasible schedule beats the total work spread over all slots. */
  lemma WorkBound(g: Graph, d: Durations, m: int, start: map<string, int>, makespan: int, o: seq<string>)
    requires Feasible(g, d, m, start, makespan) && NonNegative(g, d)
    requires NoDup(o) && Elements(o) == g.Keys
    ensures Weight(d, o) <= m * makespan
  {
    UsedIsWork(g, d, m, start, makespan, o);
    UsedAtMost(d, m, start, makespan);
  }

  // Upper bounds, for work-conserving schedules

  /** The dependency of `t` that finishes last. */
  lemma {:induction false} LatestDependency(d: Durations, start: map<string, int>, deps: seq<string>)
      returns (u: string)
    requires deps != [] && forall a :: a in deps ==> a in start
    ensures u in deps && forall a :: a in deps ==> Finish(d, start, a) <= Finish(d, start, u)
  {
    if |deps| == 1 {
      u := deps[0];
    } else {
      u := LatestDependency(d, start, deps[1..]);
      if Finish(d, start, u) < Finish(d, start, deps[0]) { u := deps[0]; }
      assert deps == [deps[0]] + deps[1..];
    }
  }

  /** `k` times the weight, summed task by task. */
  function Scaled(d: Durations, k: int, p: seq<string>): int {
    if p == [] then 0 else Scaled(d, k, p[..|p| - 1]) + k * Dur(d, p[|p| - 1])
  }

  lemma {:induction false} ScaledWeight(d: Durations, k: int, p: seq<string>)
    ensures Scaled(d, k, p) == k * Weight(d, p)
  {
    if p != [] {
      var q := p[..|p| - 1];
      ScaledWeight(d, k, q);
      assert k * (Weight(d, q) + Dur(d, p[|p| - 1])) == k * Weight(d, q) + k * Dur(d, p[|p| - 1]);
    }
  }

  lemma Ratio(m: int, makespan: int, work: int, chain: int, optimum: int)
    requires m > 0 && m * makespan <= work + (m - 1) * chain
    requires work <= m * optimum && chain <= optimum
    ensures m * makespan <= (2 * m - 1) * optimum
  {
    Monotone(m - 1, chain, optimum);
    Distribute(m, optimum);
  }

  lemma Monotone(k: int, a: int, b: int)
    requires k >= 0 && a <= b
    ensures k * a <= k * b
  {
  }

  lemma Distribute(m: int, x: int)
    ensures (2 * m - 1) * x == m * x + (m - 1) * x
  {
  }

  /** Slot-time left unused before `T`. */
  ghost function Idle(d: Durations, m: int, start: map<string, int>, T: int): int
    decreases T
  {
    if T <= 0 then 0 else Idle(d, m, start, T - 1) + (m - |Active(d, start, T - 1)|)
  }

  lemma {:induction false} UsedPlusIdle(d: Durations, m: int, start: map<string, int>, T: nat)
    ensures Used(d, start, T) + Idle(d, m, start, T) == m * T
  {
    if T > 0 {
      UsedPlusIdle(d, m, start, T - 1);
      assert m * T == m * (T - 1) + m;
    }
  }

  /** If at most `k` slots are idle throughout `[r, s)`. */
  lemma {:induction false} IdleBetween(d: Durations, m: int, start: map<string, int>, r: nat, s: nat, k: int)
    requires r <= s && forall x :: r <= x < s ==> m - |Active(d, start, x)| <= k
    ensures Idle(d, m, start, s) <= Idle(d, m, start, r) + k * (s - r)
    decreases s
  {
    if r < s {
      IdleBetween(d, m, start, r, s - 1, k);
      assert k * (s - r) == k * (s - 1 - r) + k;
    }
  }

  /** While `u` runs, at most `m - 1` slots are idle. */
  lemma IdleWhileRunning(d: Durations, m: int, start: map<string, int>, u: string)
    requires u in start && start[u] >= 0 && Dur(d, u) >= 0
    ensures Idle(d, m, start, Finish(d, start, u)) <= Idle(d, m, start, start[u]) + (m - 1) * Dur(d, u)
  {
    var s, f := start[u], Finish(d, start, u);
    forall x | s <= x < f ensures |Active(d, start, x)| >= 1 {
      assert u in Active(d, start, x);
      SubsetCardinality({u}, Active(d, start, x));
    }
    IdleBetween(d, m, start, s, f, m - 1);
  }

  lemma IdleWhileFull(d: Durations, m: int, start: map<string, int>, r: nat, s: nat)
    requires r <= s && forall x :: r <= x < s ==> |Active(d, start, x)| == m
    ensures Idle(d, m, start, s) <= Idle(d, m, start, r)
  {
    IdleBetween(d, m, start, r, s, 0);
  }

  /** The idle time before `t` starts is paid for by the chain `p` leading to it. */
  ghost predicate Pays(g: Graph, d: Durations, m: int, start: map<string, int>, t: string, p: seq<string>)
    requires t in start
  {
    && Ends(g, p, t)
    && Idle(d, m, start, start[t]) <= Scaled(d, m - 1, p[..|p| - 1])
    && (m >= |g| ==> start[t] == Weight(d, p) - Dur(d, t))
  }

  lemma PaysRoot(g: Graph, d: Durations, m: int, start: map<string, int>, makespan: int, t: string)
    requires Feasible(g, d, m, start, makespan) && WorkConserving(g, d, m, start)
    requires t in g && g[t] == []
    ensures Pays(g, d, m, start, t, [t])
  {
    assert Weight(d, [t]) == Weight(d, [t][..0]) + Dur(d, t);
    ReleasedFull(g, d, m, start, makespan, t, 0);
    IdleWhileFull(d, m, start, 0, start[t]);
  }

  lemma PaysStep(g: Graph, d: Durations, m: int, start: map<string, int>, makespan: int, u: string, q: seq<string>,
      t: string)
    requires Feasible(g, d, m, start, makespan) && WorkConserving(g, d, m, start) && NonNegative(g, d)
    requires Edge(g, u, t) && u in start && Pays(g, d, m, start, u, q)
    requires forall a :: a in g[t] ==> a in start && Finish(d, start, a) <= Finish(d, start, u)
    ensures Pays(g, d, m, start, t, q + [t])
  {
    var p := q + [t];
    assert p[..|p| - 1] == q;
    assert Weight(d, p) == Weight(d, q) + Dur(d, t);
    assert Scaled(d, m - 1, q) == Scaled(d, m - 1, q[..|q| - 1]) + (m - 1) * Dur(d, u);
    assert Ends(g, p, t) by { PathSnoc(g, q, t); }
    var f := Finish(d, start, u);
    assert Idle(d, m, start, start[t]) <= Idle(d, m, start, f) && (m >= |g| ==> start[t] == f) by {
      ReleasedFull(g, d, m, start, makespan, t, f);
      IdleWhileFull(d, m, start, f, start[t]);
    }
    IdleWhileRunning(d, m, start, u);
  }

  lemma {:induction false} IdleChain(g: Graph, d: Durations, m: int, start: map<string, int>, makespan: int,
      o: seq<string>, i: nat)
    returns (p: seq<string>)
    requires Feasible(g, d, m, start, makespan) && WorkConserving(g, d, m, start) && NonNegative(g, d)
    requires Topological(g, o) && i < |o|
    ensures o[i] in start && Pays(g, d, m, start, o[i], p)
  {
    var t := o[i];
    assert t in Elements(o);
    if g[t] == [] {
      p := [t];
      PaysRoot(g, d, m, start, makespan, t);
    } else {
      forall a | a in g[t] ensures a in start { assert Edge(g, a, t); }
      var u := LatestDependency(d, start, g[t]);
      assert u in o[..i];
      var k :| 0 <= k < i && o[k] == u;
      var q := IdleChain(g, d, m, start, makespan, o, k);
      p := q + [t];
      PaysStep(g, d, m, start, makespan, u, q, t);
    }
  }

  /** From its release `r` to its start a task sees only full slots; with a slot per task it starts at once. */
  lemma ReleasedFull(g: Graph, d: Durations, m: int, start: map<string, int>, makespan: int, t: string, r: nat)
    requires Feasible(g, d, m, start, makespan) && WorkConserving(g, d, m, start)
    requires t in g && r <= start[t] && ReadyAt(g, d, start, t, r)
    ensures forall x :: r <= x < start[t] ==> |Active(d, start, x)| == m
    ensures m >= |g| ==> start[t] == r
  {
    forall x | r <= x < start[t] ensures |Active(d, start, x)| == m {
      assert ReadyAt(g, d, start, t, x);
    }
    if r < start[t] && m >= |g| {
      var A := Active(d, start, r);
      assert t !in A && A <= g.Keys - {t};
      SubsetCardinality(A, g.Keys - {t});
      assert false;
    }
  }

  ghost predicate Attained(d: Durations, start: map<string, int>, makespan: int) {
    exists t :: t in start && Finish(d, start, t) == makespan
  }

  /** Graham's bound: some dependency chain pays for all idle slot-time. */
  lemma GrahamBound(g: Graph, d: Durations, m: int, start: map<string, int>, makespan: int, o: seq<string>)
    returns (p: seq<string>)
    requires m > 0 && Topological(g, o) && NonNegative(g, d)
    requires Feasible(g, d, m, start, makespan) && WorkConserving(g, d, m, start) && Attained(d, start, makespan)
    ensures Path(g, p)
    ensures m * makespan <= Weight(d, o) + (m - 1) * Weight(d, p)
    ensures m >= |g| ==> makespan == Weight(d, p)
  {
    hide Feasible, Topological, WorkConserving, Attained, NonNegative, Weight, Idle, Used, Active, NoDup;
    var t, i := LastTask(g, d, m, start, makespan, o);
    Complete(g, d, m, start, makespan, o);
    p := IdleChain(g, d, m, start, makespan, o, i);
    IdleWhileRunning(d, m, start, t);
    ScaledWeight(d, m - 1, p);
    UsedPlusIdle(d, m, start, makespan);
    UsedIsWork(g, d, m, start, makespan, o);
  }

  lemma Complete(g: Graph, d: Durations, m: int, start: map<string, int>, makespan: int, o: seq<string>)
    requires Topological(g, o) && Feasible(g, d, m, start, makespan)
    ensures makespan >= 0 && NoDup(o) && Elements(o) == g.Keys
  {
  }

  /** The task that finishes last, and its place in the order. */
  lemma LastTask(g: Graph, d: Durations, m: int, start: map<string, int>, makespan: int, o: seq<string>)
      returns (t: string, i: nat)
    requires Topological(g, o) && Feasible(g, d, m, start, makespan) && Attained(d, start, makespan)
    requires NonNegative(g, d)
    ensures t in start && Finish(d, start, t) == makespan && i < |o| && o[i] == t
    ensures start[t] >= 0 && Dur(d, t) >= 0
  {
    t :| t in start && Finish(d, start, t) == makespan;
    assert t in Elements(o);
    i :| 0 <= i < |o| && o[i] == t;
  }

  /** One worker: the makespan is the total work. */
  lemma SingleWorker(g: Graph, d: Durations, start: map<string, int>, makespan: int, o: seq<string>)
    requires Topological(g, o) && NonNegative(g, d)
    requires Feasible(g, d, 1, start, makespan) && WorkConserving(g, d, 1, start) && Attained(d, start, makespan)
    ensures makespan == Weight(d, o)
  {
    var p := GrahamBound(g, d, 1, start, makespan, o);
    WorkBound(g, d, 1, start, makespan, o);
  }

  /** Against any schedule whatever on the same slots: at most `2 - 1/m` times as long. */
  lemma CompetitiveRatio(g: Graph, d: Durations, m: int, start: map<string, int>, makespan: int,
                         best: map<string, int>, optimum: int, o: seq<string>)
    requires m > 0 && Topological(g, o) && NonNegative(g, d)
    requires Feasible(g, d, m, start, makespan) && WorkConserving(g, d, m, start) && Attained(d, start, makespan)
    requires Feasible(g, d, m, best, optimum)
    ensures m * makespan <= (2 * m - 1) * optimum
  {
    var p := GrahamBound(g, d, m, start, makespan, o);
    WorkBound(g, d, m, best, optimum, o);
    ChainBound(g, d, m, best, optimum, p);
    Ratio(m, makespan, Weight(d, o), Weight(d, p), optimum);
  }
}
