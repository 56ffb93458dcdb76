/** `EstimateMakespan`: event-driven list scheduling on identical worker slots. */
module Makespan {
  import opened StringOrder
  import opened Graph
  import opened Kahn
  import opened WorkflowSpec
  import opened Schedule
  import opened ListOrder

  datatype MakespanError =
    | WorkersNotPositive
    | InvalidSpec(error: SpecError)
    | NegativeDuration(id: string)
    | NoProgress

  datatype Run = Run(id: string, finish: int)

  /** The order of `running`: by finish time, then by id. */
  predicate Earlier(a: Run, b: Run) {
    a.finish < b.finish || (a.finish == b.finish && Less(a.id, b.id))
  }

  function InsertRun(x: Run, s: seq<Run>): (r: seq<Run>)
    ensures multiset(r) == multiset(s) + multiset{x}
  {
    if s == [] || Earlier(x, s[0]) then [x] + s
    else
      assert s == [s[0]] + s[1..];
      [s[0]] + InsertRun(x, s[1..])
  }

  function SortRuns(s: seq<Run>): (r: seq<Run>)
    ensures multiset(r) == multiset(s)
    ensures |r| == |s|
    ensures forall x :: x in r ==> r[0].finish <= x.finish
  {
    if s == [] then []
    else
      var t := SortRuns(s[1..]);
      InsertRunLeast(s[0], t);
      assert s == [s[0]] + s[1..];
      InsertRun(s[0], t)
  }

  lemma {:induction false} InsertRunLeast(x: Run, s: seq<Run>)
    requires forall y :: y in s ==> s[0].finish <= y.finish
    ensures |InsertRun(x, s)| == |s| + 1
    ensures forall y :: y in InsertRun(x, s) ==> InsertRun(x, s)[0].finish <= y.finish
  {
    var r := InsertRun(x, s);
    assert |r| == |multiset(r)| && |s| == |multiset(s)|;
    forall y | y in r ensures y == x || y in s {
      assert y in multiset(r);
      assert y in multiset(s) + multiset{x};
    }
    assert s != [] ==> r[0] == x || r[0] == s[0];
    assert s == [] ==> r == [x];
  }

  /** What has happened up to `now`: `start` are the tasks started, `done` those completed. */
  ghost predicate Progress(g: Graph, d: Durations, m: int, start: map<string, int>, done: set<string>, now: int) {
    && now >= 0
    && done <= start.Keys <= g.Keys
    && |start.Keys - done| <= m
    && Clocked(d, start, done, now)
    && Ordered(g, d, start, done)
    && PastCapacity(d, m, start, now)
    && PastFull(g, d, m, start, done, now)
  }

  lemma ProgressFacts(g: Graph, d: Durations, m: int, start: map<string, int>, done: set<string>, now: int)
    requires Progress(g, d, m, start, done, now)
    ensures done <= start.Keys <= g.Keys && |start.Keys - done| <= m
  {
  }

  ghost predicate Clocked(d: Durations, start: map<string, int>, done: set<string>, now: int) {
    forall t :: t in start ==>
      && 0 <= start[t] <= now && Dur(d, t) >= 0
      && if t in done then Finish(d, start, t) <= now else now <= Finish(d, start, t)
  }

  ghost predicate Ordered(g: Graph, d: Durations, start: map<string, int>, done: set<string>)
    requires done <= start.Keys
  {
    forall a, b :: Edge(g, a, b) && b in start ==> a in done && Finish(d, start, a) <= start[b]
  }

  ghost predicate PastCapacity(d: Durations, m: int, start: map<string, int>, now: int) {
    forall x :: x < now ==> |Active(d, start, x)| <= m
  }

  ghost predicate PastFull(g: Graph, d: Durations, m: int, start: map<string, int>, done: set<string>, now: int) {
    forall t, x :: WaitsAt(g, d, start, done, t, x, now) ==> |Active(d, start, x)| == m
  }

  /** At `x`, before `now`, task `t` could have been started but was not. */
  ghost predicate WaitsAt(g: Graph, d: Durations, start: map<string, int>, done: set<string>, t: string, x: int,
      now: int) {
    && t in g
    && 0 <= x < (if t in start then start[t] else now)
    && done <= start.Keys
    && forall a :: Edge(g, a, t) ==> a in done && Finish(d, start, a) <= x
  }

  ghost predicate Running(running: seq<Run>, d: Durations, start: map<string, int>, done: set<string>) {
    && NoDup(running)
    && forall r :: r in running <==> r.id in start && r.id !in done && r.finish == Finish(d, start, r.id)
  }

  lemma ActiveUnchanged(d: Durations, start: map<string, int>, id: string, now: int, x: int)
    requires id !in start && x < now
    ensures Active(d, start[id := now], x) == Active(d, start, x)
  {
  }

  lemma WaitsUnchanged(g: Graph, d: Durations, start: map<string, int>, done: set<string>, now: int, id: string,
      t: string, x: int)
    requires id !in start && done <= start.Keys && WaitsAt(g, d, start[id := now], done, t, x, now)
    ensures WaitsAt(g, d, start, done, t, x, now)
  {
    forall a | Edge(g, a, t) ensures a in done && Finish(d, start, a) <= x {
      assert Finish(d, start[id := now], a) <= x;
    }
  }

  lemma StartPast(g: Graph, d: Durations, m: int, start: map<string, int>, done: set<string>, now: int, id: string)
    requires id !in start && done <= start.Keys && forall t :: t in start ==> start[t] <= now
    requires PastCapacity(d, m, start, now) && PastFull(g, d, m, start, done, now)
    ensures PastCapacity(d, m, start[id := now], now) && PastFull(g, d, m, start[id := now], done, now)
  {
    var start' := start[id := now];
    forall x | x < now ensures |Active(d, start', x)| <= m {
      ActiveUnchanged(d, start, id, now, x);
    }
    forall t, x | WaitsAt(g, d, start', done, t, x, now) ensures |Active(d, start', x)| == m {
      WaitsUnchanged(g, d, start, done, now, id, t, x);
      ActiveUnchanged(d, start, id, now, x);
    }
  }

  lemma StartStep(g: Graph, d: Durations, m: int, start: map<string, int>, done: set<string>, now: int, id: string)
    requires Progress(g, d, m, start, done, now) && |start.Keys - done| < m
    requires id in g && id !in start && Elements(g[id]) <= done && Dur(d, id) >= 0
    ensures Progress(g, d, m, start[id := now], done, now)
  {
    hide *;
    ProgressParts(g, d, m, start, done, now);
    StartCounts(d, start, done, now, id);
    StartPast(g, d, m, start, done, now, id);
    StartOrdered(g, d, start, done, now, id);
    ProgressParts(g, d, m, start[id := now], done, now);
  }

  lemma ProgressParts(g: Graph, d: Durations, m: int, start: map<string, int>, done: set<string>, now: int)
    ensures Progress(g, d, m, start, done, now) <==>
      && now >= 0
      && done <= start.Keys <= g.Keys
      && |start.Keys - done| <= m
      && Clocked(d, start, done, now)
      && Ordered(g, d, start, done)
      && PastCapacity(d, m, start, now)
      && PastFull(g, d, m, start, done, now)
    ensures Clocked(d, start, done, now) ==> forall t :: t in start ==> start[t] <= now
  {
    hide Ordered, PastCapacity, PastFull;
  }

  lemma StartCounts(d: Durations, start: map<string, int>, done: set<string>, now: int, id: string)
    requires done <= start.Keys && Clocked(d, start, done, now) && id !in start && Dur(d, id) >= 0 && now >= 0
    ensures var start' := start[id := now];
      && start'.Keys == start.Keys + {id} && |start'.Keys - done| == |start.Keys - done| + 1
      && Clocked(d, start', done, now)
  {
    var start' := start[id := now];
    OneMore(start.Keys, done, id);
    assert start'.Keys == start.Keys + {id};
    forall t | t in start'
      ensures 0 <= start'[t] <= now && Dur(d, t) >= 0
      ensures if t in done then Finish(d, start', t) <= now else now <= Finish(d, start', t)
    {
      if t != id { assert start'[t] == start[t] && t in start; }
    }
  }

  lemma OneMore(keys: set<string>, done: set<string>, id: string)
    requires id !in keys && done <= keys
    ensures |(keys + {id}) - done| == |keys - done| + 1
  {
    assert (keys + {id}) - done == (keys - done) + {id};
  }

  lemma StartOrdered(g: Graph, d: Durations, start: map<string, int>, done: set<string>, now: int, id: string)
    requires done <= start.Keys && Ordered(g, d, start, done) && Clocked(d, start, done, now)
    requires id in g && id !in start && Elements(g[id]) <= done && done <= start[id := now].Keys
    ensures Ordered(g, d, start[id := now], done)
  {
    var start' := start[id := now];
    forall a, b | Edge(g, a, b) && b in start' ensures a in done && Finish(d, start', a) <= start'[b] {
      if b == id { assert a in Elements(g[id]); }
    }
  }

  /** Between events exactly the running tasks are active. */
  lemma ActiveBetween(g: Graph, d: Durations, m: int, start: map<string, int>, done: set<string>, now: int, next: int,
      x: int)
    requires Progress(g, d, m, start, done, now) && now <= x < next
    requires forall t :: t in start && t !in done ==> next <= Finish(d, start, t)
    ensures Active(d, start, x) == start.Keys - done
  {
  }

  lemma AdvanceStep(g: Graph, d: Durations, m: int, start: map<string, int>, done: set<string>, now: int, next: int)
    requires Progress(g, d, m, start, done, now) && now <= next
    requires forall t :: t in start && t !in done ==> next <= Finish(d, start, t)
    requires |start.Keys - done| < m ==> forall t :: t in g && t !in start ==> !(Elements(g[t]) <= done)
    ensures Progress(g, d, m, start, done, next)
  {
    forall x | x < next ensures |Active(d, start, x)| <= m {
      if x >= now { ActiveBetween(g, d, m, start, done, now, next, x); }
    }
    forall t, x | WaitsAt(g, d, start, done, t, x, next) ensures |Active(d, start, x)| == m {
      if x < now {
        assert WaitsAt(g, d, start, done, t, x, now);
      } else {
        assert t !in start;
        ActiveBetween(g, d, m, start, done, now, next, x);
        forall a | a in Elements(g[t]) ensures a in done { assert Edge(g, a, t); }
      }
    }
  }

  lemma FinishStep(g: Graph, d: Durations, m: int, start: map<string, int>, done: set<string>, now: int, id: string)
    requires Progress(g, d, m, start, done, now)
    requires id in start && id !in done && Finish(d, start, id) == now
    ensures Progress(g, d, m, start, done + {id}, now) && Attained(d, start, now)
  {
    assert start.Keys - (done + {id}) == (start.Keys - done) - {id};
    forall t, x | WaitsAt(g, d, start, done + {id}, t, x, now) ensures |Active(d, start, x)| == m {
      assert x < now;
      assert WaitsAt(g, d, start, done, t, x, now);
    }
  }

  lemma ProgressComplete(g: Graph, d: Durations, m: int, start: map<string, int>, done: set<string>, now: int)
    requires m > 0 && Progress(g, d, m, start, done, now) && done == g.Keys
    ensures NonNegative(g, d) && Feasible(g, d, m, start, now) && WorkConserving(g, d, m, start)
  {
    forall x ensures |Active(d, start, x)| <= m {
      if x >= now { assert Active(d, start, x) == {}; }
    }
    forall t, x | t in start && ReadyAt(g, d, start, t, x) && x < start[t] ensures |Active(d, start, x)| == m {
      assert WaitsAt(g, d, start, done, t, x, now);
    }
  }

  lemma RunningSize(running: seq<Run>, d: Durations, start: map<string, int>, done: set<string>)
    requires Running(running, d, start, done) && done <= start.Keys
    ensures |running| == |start.Keys - done|
  {
    var ids := seq(|running|, i requires 0 <= i < |running| => running[i].id);
    forall i, j | 0 <= i < j < |ids| ensures ids[i] != ids[j] {
      assert running[i] in running && running[j] in running;
    }
    NoDupCardinality(ids);
    assert forall i :: 0 <= i < |ids| ==> running[i] in running;
    forall t ensures t in Elements(ids) <==> t in start.Keys - done {
      if t in start.Keys - done {
        var r := Run(t, Finish(d, start, t));
        assert r in running;
        var i :| 0 <= i < |running| && running[i] == r;
        assert ids[i] == t;
      }
    }
    assert Elements(ids) == start.Keys - done;
  }

  // The scheduling loop

  lemma RunningStart(running: seq<Run>, d: Durations, start: map<string, int>, done: set<string>, id: string, now: int)
    requires Running(running, d, start, done) && id !in start && done <= start.Keys
    ensures Running(running + [Run(id, now + Dur(d, id))], d, start[id := now], done)
  {
  }

  lemma RunningRemove(r: Run, rest: seq<Run>, d: Durations, start: map<string, int>, done: set<string>)
    requires Running([r] + rest, d, start, done)
    ensures r.id in start && r.id !in done && r.finish == Finish(d, start, r.id)
    ensures Running(rest, d, start, done + {r.id})
  {
    var running := [r] + rest;
    assert r in running;
    assert forall x :: x in running <==> x == r || x in rest;
    forall i, j | 0 <= i < j < |rest| ensures rest[i] != rest[j] {
      assert running[i + 1] != running[j + 1];
    }
    forall x | x in rest ensures x.id != r.id {
      var i :| 0 <= i < |rest| && rest[i] == x;
      assert running[0] != running[i + 1];
    }
  }

  /** Fills free slots from the head of the ready list. */
  method StartReady(ghost g: Graph, d: Durations, m: int, now: int, remaining: map<string, int>,
                    ready0: seq<string>, running0: seq<Run>, ghost start0: map<string, int>, ghost done: set<string>,
                    ghost begin0: Begins, ghost here: Moment)
    returns (failed: Result<(), MakespanError>, ready: seq<string>, running: seq<Run>, ghost start: map<string, int>,
             ghost begin: Begins)
    requires Progress(g, d, m, start0, done, now) && Running(running0, d, start0, done) && here.time == now
    requires Counts(remaining, g, done) && Frontier(ready0, g, remaining, start0.Keys)
    requires Sequence(g, d, m, start0, begin0, done, here) && Strict(d, begin0, done, here)
    ensures failed.Success? ==> Progress(g, d, m, start, done, now) && Running(running, d, start, done)
    ensures failed.Success? ==> Collected(ready, g, remaining, start.Keys) && (ready == [] || |running| >= m)
    ensures failed.Success? ==> Sequence(g, d, m, start, begin, done, here) && Strict(d, begin, done, here)
    ensures failed.Failure? ==> failed.error.NegativeDuration? && failed.error.id in g && Dur(d, failed.error.id) < 0
  {
    hide *;
    ready, running, start, begin := ready0, running0, start0, begin0;
    FrontierCollected(ready, g, remaining, start.Keys);
    while |ready| > 0 && |running| < m
      invariant Progress(g, d, m, start, done, now) && Running(running, d, start, done)
      invariant Frontier(ready, g, remaining, start.Keys) && Collected(ready, g, remaining, start.Keys)
      invariant Sequence(g, d, m, start, begin, done, here) && Strict(d, begin, done, here)
      decreases |ready|
    {
      var id := ready[0];
      ProgressFacts(g, d, m, start, done, now);
      PopReady(g, remaining, ready, start, done, now);
      ready := ready[1..];
      var duration := Dur(d, id);
      if duration < 0 {
        return Failure(NegativeDuration(id)), ready, running, start, begin;
      }
      SequenceKeys(g, d, m, start, begin, done, here);
      StartHere(g, d, m, start, begin, done, here, id);
      begin := begin[id := here];
      RunningSize(running, d, start, done);
      StartStep(g, d, m, start, done, now, id);
      RunningStart(running, d, start, done, id, now);
      running := running + [Run(id, now + duration)];
      start := start[id := now];
    }
    failed := Success(());
  }

  lemma PopReady(g: Graph, remaining: map<string, int>, ready: seq<string>, start: map<string, int>, done: set<string>,
      now: int)
    requires Counts(remaining, g, done) && ready != [] && Frontier(ready, g, remaining, start.Keys)
    ensures ready[0] in g && ready[0] !in start && Elements(g[ready[0]]) <= done
    ensures forall u :: u in g && u !in start && Elements(g[u]) <= done ==> !Less(u, ready[0])
    ensures Collected(ready[1..], g, remaining, start[ready[0] := now].Keys)
    ensures Frontier(ready[1..], g, remaining, start[ready[0] := now].Keys)
  {
    ReadyIffCountZero(g, remaining, done);
    HeadIsLeast(ready);
    assert ready[0] in ready;
    assert ready == [ready[0]] + ready[1..];
  }

  lemma FrontierCollected(ready: seq<string>, g: Graph, remaining: map<string, int>, out: set<string>)
    requires Frontier(ready, g, remaining, out)
    ensures Collected(ready, g, remaining, out)
  {
  }

  lemma SequenceKeys(g: Graph, d: Durations, m: int, start: map<string, int>, begin: Begins, done: set<string>,
                     here: Moment)
    requires Sequence(g, d, m, start, begin, done, here)
    ensures begin.Keys == start.Keys && done <= begin.Keys
  {
    hide Timely, AfterDone, RoomBefore, FullBefore, SmallerFirst;
  }

  /** Splits off the runs that finish at `now`, keeping the order of the others. */
  method Partition(running: seq<Run>, now: int) returns (completed: seq<Run>, rest: seq<Run>)
    ensures multiset(running) == multiset(completed + rest)
    ensures forall r :: r in completed ==> r.finish == now
    ensures forall r :: r in rest ==> r.finish != now
    ensures (exists r :: r in running && r.finish == now) ==> completed != []
  {
    completed, rest := [], [];
    for i := 0 to |running|
      invariant multiset(running[..i]) == multiset(completed) + multiset(rest)
      invariant forall r :: r in completed ==> r.finish == now
      invariant forall r :: r in rest ==> r.finish != now
      invariant forall k :: 0 <= k < i && running[k].finish == now ==> completed != []
    {
      assert running[..i + 1] == running[..i] + [running[i]];
      if running[i].finish == now {
        completed := completed + [running[i]];
      } else {
        rest := rest + [running[i]];
      }
    }
    assert running[..|running|] == running;
  }

  /** Decrements the counts of the dependents `cs` of a completed task, collecting those released. */
  method ReleaseDependents(ghost g: Graph, cs: seq<string>, ghost id: string, ghost done: set<string>,
      ghost out: set<string>,
                           remaining0: map<string, int>, ready0: seq<string>)
    returns (remaining: map<string, int>, ready: seq<string>)
    requires id !in done && ChildList(cs, g, id)
    requires Counts(remaining0, g, done) && Collected(ready0, g, remaining0, out) && Settled(remaining0, out)
    ensures Counts(remaining, g, done + {id}) && Collected(ready, g, remaining, out) && Settled(remaining, out)
  {
    hide *;
    remaining, ready := remaining0, ready0;
    ReleaseBegin(remaining, g, cs, done);
    for k := 0 to |cs|
      invariant Releasing(remaining, g, cs, k, done)
      invariant Collected(ready, g, remaining, out)
      invariant Settled(remaining, out)
    {
      var child := cs[k];
      DependentStep(g, cs, k, id, done, out, remaining, ready);
      remaining := remaining[child := remaining[child] - 1];
      if remaining[child] == 0 {
        ready := ready + [child];
      }
    }
    ReleaseEnd(remaining, g, cs, id, done);
  }

  lemma ReleaseBegin(remaining: map<string, int>, g: Graph, cs: seq<string>, done: set<string>)
    requires Counts(remaining, g, done)
    ensures Releasing(remaining, g, cs, 0, done)
  {
    assert cs[..0] == [];
  }

  lemma DependentStep(g: Graph, cs: seq<string>, k: nat, id: string, done: set<string>, out: set<string>,
                      remaining: map<string, int>, ready: seq<string>)
    requires k < |cs| && id !in done && ChildList(cs, g, id) && Releasing(remaining, g, cs, k, done)
    requires Collected(ready, g, remaining, out) && Settled(remaining, out)
    ensures cs[k] in remaining
    ensures
      var remaining' := remaining[cs[k] := remaining[cs[k]] - 1];
      && Releasing(remaining', g, cs, k + 1, done)
      && Collected(if remaining[cs[k]] == 1 then ready + [cs[k]] else ready, g, remaining', out)
      && Settled(remaining', out)
  {
    ReleaseStep(remaining, g, cs, k, id, done);
    CollectPush(ready, g, remaining, out, cs[k]);
  }

  lemma DependentList(children: map<string, seq<string>>, g: Graph, id: string)
    requires Reverses(children, g) && id in g
    ensures ChildList(Lookup(children, id), g, id)
  {
  }

  lemma StartedSettled(g: Graph, d: Durations, m: int, start: map<string, int>, done: set<string>, now: int,
      remaining: map<string, int>)
    requires Progress(g, d, m, start, done, now) && Counts(remaining, g, done)
    ensures Settled(remaining, start.Keys)
  {
    forall x | x in start.Keys && x in remaining ensures remaining[x] == 0 {
      forall a | a in Elements(g[x]) ensures a in done { assert Edge(g, a, x); }
      PendingZero(g[x], done);
    }
  }

  /** Completes the runs that finish at `now` and releases their dependents. */
  method CompleteRuns(ghost g: Graph, ghost d: Durations, ghost m: int, ghost start: map<string, int>,
      ghost done0: set<string>, now: int,
                      ghost begin: Begins, ghost next: Moment,
                      children: map<string, seq<string>>, completed: seq<Run>, ghost rest: seq<Run>,
                      remaining0: map<string, int>, ready0: seq<string>, finished0: int)
    returns (remaining: map<string, int>, ready: seq<string>, finished: int, ghost done: set<string>)
    requires Progress(g, d, m, start, done0, now) && Running(completed + rest, d, start, done0)
    requires completed != [] && forall r :: r in completed ==> r.finish == now
    requires Reverses(children, g) && Counts(remaining0, g, done0) && Collected(ready0, g, remaining0, start.Keys)
    requires finished0 == |done0|
    requires Sequence(g, d, m, start, begin, done0, next)
    requires forall r :: r in completed ==> r.id in begin && End(d, begin, r.id) == next
    ensures Sequence(g, d, m, start, begin, done, next)
    ensures Progress(g, d, m, start, done, now) && Running(rest, d, start, done)
    ensures Counts(remaining, g, done) && Collected(ready, g, remaining, start.Keys)
    ensures finished == |done| > finished0 && Attained(d, start, now)
  {
    hide *;
    remaining, ready, finished, done := remaining0, ready0, finished0, done0;
    for k := 0 to |completed|
      invariant Progress(g, d, m, start, done, now) && Running(completed[k..] + rest, d, start, done)
      invariant Counts(remaining, g, done) && Collected(ready, g, remaining, start.Keys)
      invariant finished == |done| == finished0 + k
      invariant k > 0 ==> Attained(d, start, now)
      invariant Sequence(g, d, m, start, begin, done, next)
    {
      ghost var r := completed[k];
      assert completed[k..] + rest == [r] + (completed[k + 1..] + rest);
      RunningRemove(r, completed[k + 1..] + rest, d, start, done);
      assert r in completed;
      StartedSettled(g, d, m, start, done, now, remaining);
      FinishStep(g, d, m, start, done, now, r.id);
      FinishHere(g, d, m, start, begin, done, next, r.id);
      ProgressFacts(g, d, m, start, done, now);
      DependentList(children, g, r.id);
      finished := finished + 1;
      remaining, ready := ReleaseDependents(g, Lookup(children, completed[k].id), r.id, done, start.Keys, remaining,
          ready);
      done := done + {r.id};
    }
    assert completed[|completed|..] + rest == rest;
  }

  /** While tasks remain, something is running or ready. */
  lemma NoStall(g: Graph, order: seq<string>, remaining: map<string, int>, ready: seq<string>, running: seq<Run>,
                d: Durations, start: map<string, int>, done: set<string>)
    requires Topological(g, order) && Counts(remaining, g, done) && Collected(ready, g, remaining, start.Keys)
    requires Running(running, d, start, done) && done <= start.Keys <= g.Keys && |done| < |g|
    ensures running != [] || ready != []
  {
    assert done != g.Keys;
    var x := FirstOutside(g, order, done);
    PendingZero(g[x], done);
    assert x in start ==> Run(x, Finish(d, start, x)) in running;
    assert x !in start ==> x in ready;
  }

  /** The first task of a topological order that is outside `done` depends only on `done`. */
  lemma FirstOutside(g: Graph, order: seq<string>, done: set<string>) returns (x: string)
    requires Topological(g, order) && !(g.Keys <= done)
    ensures x in g && x !in done && Elements(g[x]) <= done
  {
    var y :| y in g && y !in done;
    assert y in Elements(order);
    var n :| 0 <= n < |order| && order[n] == y;
    var i := 0;
    while order[i] in done
      invariant 0 <= i <= n && forall k :: 0 <= k < i ==> order[k] in done
      decreases n - i
    {
      i := i + 1;
    }
    x := order[i];
    assert x in Elements(order);
  }

  /** Moves the clock to the earliest finish and completes everything that finishes then. */
  method CompleteNext(ghost g: Graph, ghost d: Durations, ghost m: int, ghost start: map<string, int>,
      ghost done0: set<string>, ghost begin: Begins, ghost here: Moment,
                      ghost now0: int, children: map<string, seq<string>>, running0: seq<Run>,
                      remaining0: map<string, int>, ready0: seq<string>, finished0: int)
    returns (now: int, running: seq<Run>, remaining: map<string, int>, ready: seq<string>, finished: int,
             ghost done: set<string>, ghost next: Moment)
    requires Progress(g, d, m, start, done0, now0) && Running(running0, d, start, done0) && running0 != []
    requires Reverses(children, g) && Counts(remaining0, g, done0) && Collected(ready0, g, remaining0, start.Keys)
    requires ready0 == [] || |running0| >= m
    requires finished0 == |done0| && here.time == now0
    requires Sequence(g, d, m, start, begin, done0, here) && Strict(d, begin, done0, here)
    ensures Progress(g, d, m, start, done, now) && Running(running, d, start, done)
    ensures Counts(remaining, g, done) && Frontier(ready, g, remaining, start.Keys)
    ensures finished == |done| > finished0 && Attained(d, start, now)
    ensures Sequence(g, d, m, start, begin, done, next) && Strict(d, begin, done, next) && next.time == now
  {
    hide *;
    var sorted := SortRuns(running0);
    ProgressFacts(g, d, m, start, done0, now0);
    RunningSize(running0, d, start, done0);
    RunningRearranged(running0, sorted, d, start, done0);
    NextEvent(g, d, m, start, done0, now0, sorted, remaining0, ready0);
    now := sorted[0].finish;
    next := if now == here.time then Moment(now, here.round + 1) else Moment(now, 0);
    NextMoment(g, d, m, start, begin, done0, here, next, sorted, remaining0, ready0);
    var completed;
    completed, running := Partition(sorted, now);
    RunningRearranged(sorted, completed + running, d, start, done0);
    EndsNow(g, d, m, start, begin, done0, here, next, sorted, completed, running);
    remaining, ready, finished, done :=
      CompleteRuns(g, d, m, start, done0, now, begin, next, children, completed, running, remaining0, ready0,
          finished0);
    RestStrict(g, d, m, start, begin, done, next, running);
    SortCollected(ready, g, remaining, start.Keys);
    ready := Sort(ready);
  }

  /** A task that is running ends at the next moment or later, and at the next moment exactly if it finishes then. */
  lemma RunningEnd(d: Durations, start: map<string, int>, begin: Begins, done: set<string>, here: Moment, next: Moment,
      t: string)
    requires Timed(start, begin) && Timely(d, begin, done, here) && Strict(d, begin, done, here)
    requires t in start && t !in done && next.time <= Finish(d, start, t) && here.time <= next.time
    requires next == if next.time == here.time then Moment(here.time, here.round + 1) else Moment(next.time, 0)
    ensures t in begin && NotAfterMoment(next, End(d, begin, t))
    ensures Finish(d, start, t) == next.time <==> End(d, begin, t) == next
  {
  }

  lemma SequenceTimes(g: Graph, d: Durations, m: int, start: map<string, int>, begin: Begins, done: set<string>,
      here: Moment)
    requires Sequence(g, d, m, start, begin, done, here)
    ensures Timed(start, begin) && Timely(d, begin, done, here) && begin.Keys == start.Keys
  {
    hide Timely, AfterDone, RoomBefore, FullBefore, SmallerFirst;
  }

  lemma NextMoment(g: Graph, d: Durations, m: int, start: map<string, int>, begin: Begins, done: set<string>,
                   here: Moment, next: Moment, running: seq<Run>, remaining: map<string, int>, ready: seq<string>)
    requires Sequence(g, d, m, start, begin, done, here) && Strict(d, begin, done, here)
    requires Running(running, d, start, done) && running != [] && |start.Keys - done| <= m
    requires forall x :: x in running ==> running[0].finish <= x.finish
    requires next.time == running[0].finish
    requires next == if next.time == here.time then Moment(here.time, here.round + 1) else Moment(next.time, 0)
    requires Counts(remaining, g, done) && Collected(ready, g, remaining, start.Keys)
    requires ready == [] || |start.Keys - done| >= m
    ensures Sequence(g, d, m, start, begin, done, next) && here.time <= next.time
  {
    hide Timely, Strict, Sequence, Timed, Dur, Counts;
    SequenceTimes(g, d, m, start, begin, done, here);
    assert running[0] in running;
    NotYet(d, start, begin, done, here, running[0].id);
    forall t | t in begin && t !in done ensures NotAfterMoment(next, End(d, begin, t)) {
      assert Run(t, Finish(d, start, t)) in running;
      RunningEnd(d, start, begin, done, here, next, t);
    }
    if ready == [] {
      ReadyIffCountZero(g, remaining, done);
      CountsKeys(remaining, g, done);
      forall t | t in g && t !in begin ensures !(Elements(g[t]) <= done) {
        assert t !in ready;
      }
    }
    Move(g, d, m, start, begin, done, here, next);
  }

  lemma CountsKeys(remaining: map<string, int>, g: Graph, done: set<string>)
    requires Counts(remaining, g, done)
    ensures remaining.Keys == g.Keys
  {
  }

  lemma NotYet(d: Durations, start: map<string, int>, begin: Begins, done: set<string>, here: Moment, t: string)
    requires Timed(start, begin) && Strict(d, begin, done, here) && t in start && t !in done
    ensures here.time <= Finish(d, start, t)
  {
  }

  /** The completed runs end at the next moment. */
  lemma EndsNow(g: Graph, d: Durations, m: int, start: map<string, int>, begin: Begins, done: set<string>,
                here: Moment, next: Moment, sorted: seq<Run>, completed: seq<Run>, rest: seq<Run>)
    requires Sequence(g, d, m, start, begin, done, here) && Strict(d, begin, done, here) && here.time <= next.time
    requires next == if next.time == here.time then Moment(here.time, here.round + 1) else Moment(next.time, 0)
    requires Running(completed + rest, d, start, done)
    requires forall r :: r in completed ==> r.finish == next.time
    ensures forall r :: r in completed ==> r.id in begin && End(d, begin, r.id) == next
  {
    hide Timely, Strict, Sequence, Timed, Dur;
    SequenceTimes(g, d, m, start, begin, done, here);
    forall r | r in completed ensures r.id in begin && End(d, begin, r.id) == next {
      assert r in completed + rest;
      RunningEnd(d, start, begin, done, here, next, r.id);
    }
  }

  lemma RestStrict(g: Graph, d: Durations, m: int, start: map<string, int>, begin: Begins, done: set<string>,
                   next: Moment, rest: seq<Run>)
    requires Sequence(g, d, m, start, begin, done, next) && Running(rest, d, start, done)
    requires forall r :: r in rest ==> r.finish != next.time
    ensures Strict(d, begin, done, next)
  {
    hide Timely, Sequence, Timed, Dur;
    SequenceTimes(g, d, m, start, begin, done, next);
    forall t | t in begin && t !in done ensures Before(next, End(d, begin, t)) {
      assert Run(t, Finish(d, start, t)) in rest;
      EndsAfter(d, start, begin, done, next, t);
    }
  }

  lemma EndsAfter(d: Durations, start: map<string, int>, begin: Begins, done: set<string>, next: Moment, t: string)
    requires Timed(start, begin) && Timely(d, begin, done, next) && t in start && t !in done
    requires Finish(d, start, t) != next.time
    ensures t in begin && Before(next, End(d, begin, t))
  {
  }

  lemma RunningRearranged(a: seq<Run>, b: seq<Run>, d: Durations, start: map<string, int>, done: set<string>)
    requires Running(a, d, start, done) && multiset(a) == multiset(b)
    ensures Running(b, d, start, done)
  {
    NoDupMultiset(a, b);
  }

  lemma CollectedRearranged(a: seq<string>, b: seq<string>, g: Graph, remaining: map<string, int>, out: set<string>)
    requires Collected(a, g, remaining, out) && multiset(a) == multiset(b)
    ensures Collected(b, g, remaining, out)
  {
    NoDupMultiset(a, b);
  }

  /** The main loop of `EstimateMakespan`, on a graph that has already been validated. */
  method ListSchedule(ghost g: Graph, order: seq<string>, children: map<string, seq<string>>,
      remaining0: map<string, int>,
                      d: Durations, m: int)
    returns (r: Result<int, MakespanError>, ghost start: map<string, int>, ghost begin: Begins)
    requires m > 0 && order != [] && Topological(g, order)
    requires Reverses(children, g) && Counts(remaining0, g, {})
    ensures r.Success? ==> NonNegative(g, d)
    ensures r.Success?
        ==> Feasible(g, d, m, start, r.value) && WorkConserving(g, d, m, start) && Attained(d, start, r.value)
    ensures r.Success? ==> ListSchedules(g, d, m, begin) && Timed(start, begin)
    ensures r.Failure? ==> r.error.NegativeDuration? && r.error.id in g && Dur(d, r.error.id) < 0
  {
    hide *;
    var remaining := remaining0;
    ProgressStart(g, d, m, remaining);
    var ready := InitialReady(g, order, remaining);
    var running: seq<Run> := [];
    var now, finished := 0, 0;
    start, begin := map[], map[];
    ghost var done: set<string> := {};
    ghost var here := ListOrder.ZERO;
    MomentZero();
    SequenceStart(g, d, m);
    TopologicalLength(g, order);
    while finished < |order|
      invariant Progress(g, d, m, start, done, now) && Running(running, d, start, done)
      invariant Counts(remaining, g, done) && Frontier(ready, g, remaining, start.Keys)
      invariant finished == |done| && here.time == now
      invariant finished > 0 ==> Attained(d, start, now)
      invariant Sequence(g, d, m, start, begin, done, here) && Strict(d, begin, done, here)
      decreases |order| - finished
    {
      var failed;
      failed, ready, running, start, begin :=
        StartReady(g, d, m, now, remaining, ready, running, start, done, begin, here);
      if failed.Failure? { return Failure(failed.error), start, begin; }
      ProgressFacts(g, d, m, start, done, now);
      NoStall(g, order, remaining, ready, running, d, start, done);
      now, running, remaining, ready, finished, done, here :=
        CompleteNext(g, d, m, start, done, begin, here, now, children, running, remaining, ready, finished);
      ProgressFacts(g, d, m, start, done, now);
      SubsetCardinality(done, g.Keys);
    }
    ProgressFacts(g, d, m, start, done, now);
    AllDone(g, done);
    ProgressComplete(g, d, m, start, done, now);
    AllStarted(g, d, m, start, done, now);
    SequenceTimes(g, d, m, start, begin, done, here);
    SequenceEnds(g, d, m, start, begin, done, here);
    r := Success(now);
  }

  lemma MomentZero()
    ensures ListOrder.ZERO == Moment(0, 0)
  {
  }

  lemma AllStarted(g: Graph, d: Durations, m: int, start: map<string, int>, done: set<string>, now: int)
    requires Progress(g, d, m, start, done, now) && done == g.Keys
    ensures start.Keys == g.Keys
  {
  }

  lemma ProgressStart(g: Graph, d: Durations, m: int, remaining: map<string, int>)
    requires m > 0 && Counts(remaining, g, {})
    ensures remaining.Keys == g.Keys
    ensures Progress(g, d, m, map[], {}, 0) && Running([], d, map[], {})
  {
    var start: map<string, int> := map[];
    assert forall x :: Active(d, start, x) == {};
    assert start.Keys - {} == {};
  }

  lemma AllDone(g: Graph, done: set<string>)
    requires done <= g.Keys && |done| >= |g|
    ensures done == g.Keys
  {
    if done != g.Keys {
      assert !(g.Keys <= done);
      var x :| x in g.Keys && x !in done;
      SubsetCardinality(done, g.Keys - {x});
      assert false;
    }
  }

  /** Moving the clock to the earliest finish is sound: the slots are full or nothing is ready. */
  lemma NextEvent(g: Graph, d: Durations, m: int, start: map<string, int>, done: set<string>, now: int,
                  running: seq<Run>, remaining: map<string, int>, ready: seq<string>)
    requires Progress(g, d, m, start, done, now) && Running(running, d, start, done) && running != []
    requires forall x :: x in running ==> running[0].finish <= x.finish
    requires Counts(remaining, g, done) && Collected(ready, g, remaining, start.Keys)
    requires ready == [] || |start.Keys - done| >= m
    ensures Progress(g, d, m, start, done, running[0].finish)
  {
    assert running[0] in running;
    forall t | t in start && t !in done ensures running[0].finish <= Finish(d, start, t) {
      assert Run(t, Finish(d, start, t)) in running;
    }
    if ready == [] {
      ReadyIffCountZero(g, remaining, done);
      forall t | t in g && t !in start ensures !(Elements(g[t]) <= done) {
        assert t !in ready;
      }
    }
    AdvanceStep(g, d, m, start, done, now, running[0].finish);
  }

  method InitialReady(ghost g: Graph, order: seq<string>, remaining: map<string, int>) returns (ready: seq<string>)
    requires Topological(g, order) && remaining.Keys == g.Keys
    ensures Frontier(ready, g, remaining, {})
  {
    ready := [];
    assert forall i :: 0 <= i < |order| ==> order[i] in Elements(order);
    for i := 0 to |order|
      invariant NoDup(ready)
      invariant forall x :: x in ready <==> x in order[..i] && remaining[x] == 0
    {
      if remaining[order[i]] == 0 { ready := ready + [order[i]]; }
    }
    assert order[..|order|] == order;
    assert forall x :: x in order <==> x in Elements(order);
    NoDupMultiset(ready, Sort(ready));
    ready := Sort(ready);
  }

  // The whole operation

  /** `makespan` is the completion time of the list schedule in ascending id order on `m` slots, which is a
      work-conserving schedule of the specification. */
  ghost predicate Estimates(spec: WorkflowSpec, d: Durations, m: int, makespan: int) {
    var g := GraphOf(spec.tasks);
    exists start, begin :: EstimatedBy(g, d, m, makespan, start, begin)
  }

  ghost predicate EstimatedBy(g: Graph, d: Durations, m: int, makespan: int, start: map<string, int>, begin: Begins) {
    && Feasible(g, d, m, start, makespan) && WorkConserving(g, d, m, start) && Attained(d, start, makespan)
    && ListSchedules(g, d, m, begin) && Timed(start, begin)
  }

  /** The estimate is determined: there is one list schedule in ascending id order. */
  lemma EstimateUnique(spec: WorkflowSpec, d: Durations, m: int, a: int, b: int)
    requires NonNegative(GraphOf(spec.tasks), d) && Estimates(spec, d, m, a) && Estimates(spec, d, m, b)
    ensures a == b
  {
    hide ListSchedules, WorkConserving, Precedence, Capacity;
    var g := GraphOf(spec.tasks);
    var s, p :| EstimatedBy(g, d, m, a, s, p);
    var t, q :| EstimatedBy(g, d, m, b, t, q);
    ListScheduleUnique(g, d, m, p, q);
    assert s == t;
  }

  method BuildChildren(tasks: seq<TaskSpec>) returns (children: map<string, seq<string>>, remaining: map<string, int>)
    requires UniqueIds(tasks) && EdgesValid(tasks)
    ensures Reverses(children, GraphOf(tasks)) && Counts(remaining, GraphOf(tasks), {})
  {
    hide *;
    children, remaining := map[], map[];
    BuildStart(tasks, children, remaining);
    for i := 0 to |tasks|
      invariant DegreesUpTo(tasks, i, remaining) && ReversesListed(tasks, i, 0, children)
    {
      var task := tasks[i];
      DegreesNext(tasks, i, remaining);
      remaining := remaining[task.id := |task.dependsOn|];
      for j := 0 to |task.dependsOn|
        invariant ReversesListed(tasks, i, j, children)
      {
        var dep := task.dependsOn[j];
        ReverseStep(tasks, i, j, children);
        children := children[dep := Lookup(children, dep) + [task.id]];
      }
      ReversesNext(tasks, i, children);
    }
    ListedEnd(tasks, remaining, children);
    ghost var unsorted := children;
    children := map id | id in children :: Sort(children[id]);
    SortedChildren(unsorted, GraphOf(tasks));
  }

  /** The counts of the first `n` tasks. */
  ghost predicate DegreesUpTo(tasks: seq<TaskSpec>, n: nat, remaining: map<string, int>)
    requires n <= |tasks|
  {
    && remaining.Keys == GraphOf(tasks[..n]).Keys
    && forall k :: 0 <= k < n ==> tasks[k].id in remaining && remaining[tasks[k].id] == |tasks[k].dependsOn|
  }

  lemma BuildStart(tasks: seq<TaskSpec>, children: map<string, seq<string>>, remaining: map<string, int>)
    requires children == map[] && remaining == map[]
    ensures ReversesListed(tasks, 0, 0, children) && DegreesUpTo(tasks, 0, remaining)
  {
  }

  lemma DegreesNext(tasks: seq<TaskSpec>, n: nat, remaining: map<string, int>)
    requires UniqueIds(tasks) && n < |tasks| && DegreesUpTo(tasks, n, remaining)
    ensures DegreesUpTo(tasks, n + 1, remaining[tasks[n].id := |tasks[n].dependsOn|])
  {
    assert tasks[..n + 1][..n] == tasks[..n];
  }

  lemma ListedEnd(tasks: seq<TaskSpec>, remaining: map<string, int>, children: map<string, seq<string>>)
    requires UniqueIds(tasks) && EdgesValid(tasks)
    requires DegreesUpTo(tasks, |tasks|, remaining) && ReversesListed(tasks, |tasks|, 0, children)
    ensures Reverses(children, GraphOf(tasks)) && Counts(remaining, GraphOf(tasks), {})
  {
    assert tasks[..|tasks|] == tasks;
    ListedDone(tasks, remaining, children);
  }

  lemma ReversesNext(tasks: seq<TaskSpec>, i: nat, children: map<string, seq<string>>)
    requires i < |tasks| && ReversesListed(tasks, i, |tasks[i].dependsOn|, children)
    ensures ReversesListed(tasks, i + 1, 0, children)
  {
    assert tasks[i].dependsOn[..|tasks[i].dependsOn|] == tasks[i].dependsOn;
    assert forall k :: 0 <= k < |tasks| ==> Listed(tasks, i + 1, 0, k) == Listed(tasks, i, |tasks[i].dependsOn|, k);
  }

  lemma ListedDone(tasks: seq<TaskSpec>, remaining: map<string, int>, children: map<string, seq<string>>)
    requires UniqueIds(tasks) && EdgesValid(tasks) && ReversesListed(tasks, |tasks|, 0, children)
    requires remaining.Keys == GraphOf(tasks).Keys
    requires forall k :: 0 <= k < |tasks| ==> tasks[k].id in remaining && remaining[tasks[k].id] == |tasks[k].dependsOn|
    ensures Reverses(children, GraphOf(tasks)) && Counts(remaining, GraphOf(tasks), {})
  {
    assert Building(tasks, |tasks|, 0, remaining, children);
    BuildingDone(tasks, remaining, children);
  }

  lemma SortedChildren(children: map<string, seq<string>>, g: Graph)
    requires Reverses(children, g)
    ensures Reverses(map id | id in children :: Sort(children[id]), g)
  {
    var sorted := map id | id in children :: Sort(children[id]);
    forall a ensures multiset(Lookup(sorted, a)) == multiset(Lookup(children, a)) { }
    forall a, b | b in Lookup(sorted, a) ensures b in g {
      SortMembers(Lookup(children, a));
    }
  }

  method EstimateMakespan(spec: WorkflowSpec, d: Durations, workers: int) returns (r: Result<int, MakespanError>)
    ensures workers <= 0 ==> r == Failure(WorkersNotPositive)
    ensures workers > 0 && !ValidSpec(spec) ==> r.Failure? && r.error.InvalidSpec? && Explains(spec, r.error.error)
    ensures workers > 0 && ValidSpec(spec) && !NonNegative(GraphOf(spec.tasks), d) ==>
              r.Failure? && r.error.NegativeDuration? && r.error.id in GraphOf(spec.tasks) && Dur(d, r.error.id) < 0
    ensures workers > 0 && ValidSpec(spec) && NonNegative(GraphOf(spec.tasks), d) ==>
              r.Success? && Estimates(spec, d, workers, r.value)
  {
    if workers <= 0 { return Failure(WorkersNotPositive); }
    var valid := ValidateSpec(spec);
    if valid.Failure? { return Failure(InvalidSpec(valid.error)); }
    var order := valid.value;
    ghost var g := GraphOf(spec.tasks);
    var children, remaining := BuildChildren(spec.tasks);
    TopologicalLength(g, order);
    GraphOfSize(spec.tasks);
    ghost var start, begin;
    r, start, begin := ListSchedule(g, order, children, remaining, d, workers);
    if r.Success? { assert EstimatedBy(g, d, workers, r.value, start, begin); }
  }

  /** Graham's bounds for the estimate, against every chain and every other schedule. */
  lemma EstimateBounds(spec: WorkflowSpec, d: Durations, m: int, makespan: int, o: seq<string>) returns (p: seq<string>)
    requires m > 0 && NonNegative(GraphOf(spec.tasks), d)
    requires Topological(GraphOf(spec.tasks), o) && Estimates(spec, d, m, makespan)
    ensures Path(GraphOf(spec.tasks), p)
    ensures forall q :: Path(GraphOf(spec.tasks), q) ==> Weight(d, q) <= makespan
    ensures Weight(d, o) <= m * makespan <= Weight(d, o) + (m - 1) * Weight(d, p)
    ensures m == 1 ==> makespan == Weight(d, o)
    ensures m >= |spec.tasks| ==> makespan == Weight(d, p)
    ensures
      forall best, optimum :: Feasible(GraphOf(spec.tasks), d, m, best, optimum) ==>
        m * makespan <= (2 * m - 1) * optimum
  {
    var g := GraphOf(spec.tasks);
    var start, begin :| EstimatedBy(g, d, m, makespan, start, begin);
    hide *;
    if m == 1 { SingleWorker(g, d, start, makespan, o); }
    p := GrahamBound(g, d, m, start, makespan, o);
    WorkBound(g, d, m, start, makespan, o);
    forall q | Path(g, q) ensures Weight(d, q) <= makespan {
      ChainBound(g, d, m, start, makespan, q);
    }
    forall best, optimum | Feasible(g, d, m, best, optimum) ensures m * makespan <= (2 * m - 1) * optimum {
      CompetitiveRatio(g, d, m, start, makespan, best, optimum, o);
    }
    GraphSizeAtMost(spec.tasks);
  }

  lemma {:induction false} GraphSizeAtMost(tasks: seq<TaskSpec>)
    ensures |GraphOf(tasks)| <= |tasks|
  {
    if tasks != [] {
      var init := tasks[..|tasks| - 1];
      GraphSizeAtMost(init);
      assert GraphOf(tasks).Keys == GraphOf(init).Keys + {tasks[|init|].id};
    }
  }
}
