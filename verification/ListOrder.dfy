/** List scheduling in ascending id order, as a property of a schedule: it has exactly one solution.
    Tasks without duration finish at the time at which they start and may release others then, so moments of the same
    time are told apart by a round. */
module ListOrder {
  import opened StringOrder
  import opened Graph
  import opened Schedule

  /** A moment of the schedule. */
  datatype Moment = Moment(time: int, round: nat)

  const ZERO := Moment(0, 0)

  predicate Before(p: Moment, q: Moment) {
    p.time < q.time || (p.time == q.time && p.round < q.round)
  }

  predicate NotAfterMoment(p: Moment, q: Moment) {
    p == q || Before(p, q)
  }

  /** When each task starts. */
  type Begins = map<string, Moment>

  /** A task without duration ends one round later, any other at the first round of its finish time. */
  function End(d: Durations, begin: Begins, t: string): Moment
    requires t in begin
  {
    if Dur(d, t) == 0 then Moment(begin[t].time, begin[t].round + 1) else Moment(begin[t].time + Dur(d, t), 0)
  }

  /** The tasks that hold a slot at `p`. */
  ghost function Busy(d: Durations, begin: Begins, p: Moment): set<string> {
    set t | t in begin && NotAfterMoment(begin[t], p) && Before(p, End(d, begin, t))
  }

  /** All dependencies of `t` have ended by `p`. */
  ghost predicate Released(g: Graph, d: Durations, begin: Begins, t: string, p: Moment) {
    t in g && forall a :: Edge(g, a, t) ==> a in begin && NotAfterMoment(End(d, begin, a), p)
  }

  ghost predicate AfterDependencies(g: Graph, d: Durations, begin: Begins) {
    forall t :: t in begin ==> NotAfterMoment(ZERO, begin[t]) && Released(g, d, begin, t, begin[t])
  }

  ghost predicate Room(d: Durations, m: int, begin: Begins) {
    forall p :: |Busy(d, begin, p)| <= m
  }

  /** `t` could start at `p` and does not start until later. */
  ghost predicate Waits(g: Graph, d: Durations, begin: Begins, t: string, p: Moment) {
    t in begin && NotAfterMoment(ZERO, p) && Before(p, begin[t]) && Released(g, d, begin, t, p)
  }

  /** A task waits only while all slots are taken. */
  ghost predicate NoIdling(g: Graph, d: Durations, m: int, begin: Begins) {
    forall t, p :: Waits(g, d, begin, t, p) ==> |Busy(d, begin, p)| == m
  }

  /** A task starts only if no released task with a smaller id is left waiting. */
  ghost predicate SmallerFirst(g: Graph, d: Durations, begin: Begins) {
    forall t, u :: t in begin && Less(u, t) && Released(g, d, begin, u, begin[t]) ==>
      u in begin && NotAfterMoment(begin[u], begin[t])
  }

  /** The list schedule in ascending id order. */
  ghost predicate ListSchedules(g: Graph, d: Durations, m: int, begin: Begins) {
    && begin.Keys == g.Keys
    && AfterDependencies(g, d, begin)
    && Room(d, m, begin)
    && NoIdling(g, d, m, begin)
    && SmallerFirst(g, d, begin)
  }

  ghost predicate Durable(d: Durations, begin: Begins) {
    forall t :: t in begin ==> Dur(d, t) >= 0
  }

  lemma EndsLater(d: Durations, begin: Begins, t: string)
    requires t in begin && Dur(d, t) >= 0
    ensures Before(begin[t], End(d, begin, t))
  {
  }

  // Uniqueness

  function Earliest(b: Begins, c: Begins, t: string): Moment
    requires t in b && t in c
  {
    if Before(b[t], c[t]) then b[t] else c[t]
  }

  /** The first moment at which one of the tasks starts in one of the schedules. */
  lemma {:induction false} FirstMoment(b: Begins, c: Begins, tasks: set<string>) returns (t: string)
    requires tasks != {} && tasks <= b.Keys && tasks <= c.Keys
    ensures t in tasks && forall u :: u in tasks ==> NotAfterMoment(Earliest(b, c, t), Earliest(b, c, u))
    decreases |tasks|
  {
    t :| t in tasks;
    var rest := tasks - {t};
    if rest == {} {
      assert tasks == {t};
    } else {
      var u := FirstMoment(b, c, rest);
      if Before(Earliest(b, c, u), Earliest(b, c, t)) { t := u; }
    }
  }

  /** Before `p` the two schedules agree. */
  ghost predicate AgreeBefore(b: Begins, c: Begins, p: Moment) {
    b.Keys == c.Keys && forall t :: t in b && (Before(b[t], p) || Before(c[t], p)) ==> b[t] == c[t]
  }

  /** The tasks started before `p` that still hold a slot at `p`, and those that start at `p`. */
  ghost function Carried(d: Durations, begin: Begins, p: Moment): set<string> {
    set t | t in begin && Before(begin[t], p) && Before(p, End(d, begin, t))
  }

  ghost function StartedAt(begin: Begins, p: Moment): set<string> {
    set t | t in begin && begin[t] == p
  }

  lemma BusySplit(d: Durations, begin: Begins, p: Moment)
    requires Durable(d, begin)
    ensures |Busy(d, begin, p)| == |Carried(d, begin, p)| + |StartedAt(begin, p)|
  {
    forall t | t in StartedAt(begin, p) ensures Before(p, End(d, begin, t)) { EndsLater(d, begin, t); }
    assert Busy(d, begin, p) == Carried(d, begin, p) + StartedAt(begin, p);
    assert Carried(d, begin, p) !! StartedAt(begin, p);
  }

  lemma SameCarried(d: Durations, b: Begins, c: Begins, p: Moment)
    requires AgreeBefore(b, c, p)
    ensures Carried(d, b, p) == Carried(d, c, p)
  {
  }

  lemma SameReleased(g: Graph, d: Durations, b: Begins, c: Begins, t: string, p: Moment)
    requires AgreeBefore(b, c, p) && Durable(d, b) && Durable(d, c) && Released(g, d, b, t, p)
    ensures Released(g, d, c, t, p)
  {
    forall a | Edge(g, a, t) ensures a in c && NotAfterMoment(End(d, c, a), p) {
      assert a in b && NotAfterMoment(End(d, b, a), p);
      EndsLater(d, b, a);
      BeforeNotAfter(b[a], End(d, b, a), p);
    }
  }

  lemma BeforeNotAfter(p: Moment, q: Moment, r: Moment)
    requires Before(p, q) && NotAfterMoment(q, r)
    ensures Before(p, r)
  {
  }

  /** A task that starts at `p` in one schedule and later in the other waits there, so the slots are taken there. */
  lemma WaitsInOther(g: Graph, d: Durations, m: int, b: Begins, c: Begins, p: Moment, t: string)
    requires ListSchedules(g, d, m, b) && ListSchedules(g, d, m, c) && Durable(d, b) && Durable(d, c)
    requires AgreeBefore(b, c, p) && t in b && b[t] == p && c[t] != p
    ensures |StartedAt(c, p)| >= |StartedAt(b, p)| && Released(g, d, c, t, p) && Before(p, c[t])
  {
    hide Released, Busy, SmallerFirst, Carried, StartedAt, Durable;
    assert Released(g, d, b, t, p);
    SameReleased(g, d, b, c, t, p);
    assert Before(p, c[t]);
    assert Waits(g, d, c, t, p);
    SameCarried(d, b, c, p);
    BusySplit(d, b, p);
    BusySplit(d, c, p);
  }

  /** Two tasks cannot take each other's place. */
  lemma NoExchange(g: Graph, d: Durations, m: int, b: Begins, c: Begins, p: Moment, t: string, u: string)
    requires ListSchedules(g, d, m, b) && ListSchedules(g, d, m, c) && Durable(d, b) && Durable(d, c)
    requires AgreeBefore(b, c, p) && t in b && u in b && b[t] == p == c[u]
    ensures b[u] == p || c[t] == p
  {
    hide Released, Busy, Carried, StartedAt, Durable, Room, NoIdling;
    if b[u] != p && c[t] != p {
      WaitsInOther(g, d, m, b, c, p, t);
      WaitsInOther(g, d, m, c, b, p, u);
      LessTotal(t, u);
    }
  }

  lemma MissingMember(a: set<string>, b: set<string>, t: string) returns (u: string)
    requires |b| >= |a| && t in a && t !in b
    ensures u in b && u !in a
  {
    SubsetCardinality(b * a, a - {t});
    assert b == (b - a) + (b * a);
    assert |b - a| > 0;
    u :| u in b - a;
  }

  lemma AgreeUpTo(b: Begins, c: Begins, t: string)
    requires b.Keys == c.Keys && t in b && b[t] != c[t]
    requires forall u :: u in b && b[u] != c[u] ==> NotAfterMoment(Earliest(b, c, t), Earliest(b, c, u))
    ensures AgreeBefore(b, c, Earliest(b, c, t))
  {
    var p := Earliest(b, c, t);
    forall u | u in b && (Before(b[u], p) || Before(c[u], p)) ensures b[u] == c[u] {
      NotEarlier(b, c, u, p);
    }
  }

  lemma NotEarlier(b: Begins, c: Begins, u: string, p: Moment)
    requires u in b && u in c && (Before(b[u], p) || Before(c[u], p))
    ensures !NotAfterMoment(p, Earliest(b, c, u))
  {
  }

  /** At the first moment of difference, a task that one schedule starts cannot be left out by the other. */
  lemma NoFirstDifference(g: Graph, d: Durations, m: int, b: Begins, c: Begins, p: Moment, t: string)
    requires ListSchedules(g, d, m, b) && ListSchedules(g, d, m, c) && Durable(d, b) && Durable(d, c)
    requires AgreeBefore(b, c, p) && t in b && b[t] == p
    ensures c[t] == p
  {
    hide Released, Busy, Carried, Durable, Room, NoIdling, SmallerFirst, AgreeBefore, AfterDependencies;
    AgreeKeys(b, c, p);
    if c[t] != p {
      WaitsInOther(g, d, m, b, c, p, t);
      var u := MissingMember(StartedAt(b, p), StartedAt(c, p), t);
      NoExchange(g, d, m, b, c, p, t, u);
    }
  }

  lemma AgreeKeys(b: Begins, c: Begins, p: Moment)
    requires AgreeBefore(b, c, p)
    ensures b.Keys == c.Keys
  {
  }

  /** There is one list schedule in ascending id order. */
  lemma ListScheduleUnique(g: Graph, d: Durations, m: int, b: Begins, c: Begins)
    requires NonNegative(g, d) && ListSchedules(g, d, m, b) && ListSchedules(g, d, m, c)
    ensures b == c
  {
    hide AfterDependencies, Room, NoIdling, SmallerFirst;
    assert Durable(d, b) && Durable(d, c);
    var differ := set t | t in b && b[t] != c[t];
    if differ == {} {
      forall t | t in b ensures b[t] == c[t] { assert t !in differ; }
    } else {
      var t := FirstMoment(b, c, differ);
      AgreeUpTo(b, c, t);
      var p := Earliest(b, c, t);
      AgreeSymmetric(b, c, p);
      if b[t] == p {
        NoFirstDifference(g, d, m, b, c, p, t);
      } else {
        NoFirstDifference(g, d, m, c, b, p, t);
      }
      assert false;
    }
  }

  lemma AgreeSymmetric(b: Begins, c: Begins, p: Moment)
    requires AgreeBefore(b, c, p)
    ensures AgreeBefore(c, b, p)
  {
  }

  // How a list schedule comes about, moment by moment

  /** The two ways to write down the starts agree. */
  ghost predicate Timed(start: map<string, int>, begin: Begins) {
    begin.Keys == start.Keys && forall t :: t in begin ==> begin[t].time == start[t]
  }

  ghost predicate Timely(d: Durations, begin: Begins, done: set<string>, here: Moment) {
    forall t :: t in begin ==>
      && NotAfterMoment(ZERO, begin[t]) && NotAfterMoment(begin[t], here) && Dur(d, t) >= 0
      && if t in done then NotAfterMoment(End(d, begin, t), here) else NotAfterMoment(here, End(d, begin, t))
  }

  ghost predicate AfterDone(g: Graph, d: Durations, begin: Begins, done: set<string>) {
    forall t :: t in begin ==> Released(g, d, begin, t, begin[t]) && (t in g ==> Elements(g[t]) <= done)
  }

  ghost predicate RoomBefore(d: Durations, m: int, begin: Begins, here: Moment) {
    forall p :: Before(p, here) ==> |Busy(d, begin, p)| <= m
  }

  ghost predicate WaitsBefore(g: Graph, d: Durations, begin: Begins, t: string, p: Moment, here: Moment) {
    && NotAfterMoment(ZERO, p) && Before(p, if t in begin then begin[t] else here)
    && Released(g, d, begin, t, p)
  }

  ghost predicate FullBefore(g: Graph, d: Durations, m: int, begin: Begins, here: Moment) {
    forall t, p :: WaitsBefore(g, d, begin, t, p, here) ==> |Busy(d, begin, p)| == m
  }

  /** What has happened up to the moment `here`. */
  ghost predicate Sequence(g: Graph, d: Durations, m: int, start: map<string, int>, begin: Begins, done: set<string>,
                           here: Moment) {
    && Timed(start, begin) && done <= begin.Keys && NotAfterMoment(ZERO, here)
    && Timely(d, begin, done, here) && AfterDone(g, d, begin, done)
    && RoomBefore(d, m, begin, here) && FullBefore(g, d, m, begin, here)
    && SmallerFirst(g, d, begin)
  }

  /** Everything that ends at `here` has been completed. */
  ghost predicate Strict(d: Durations, begin: Begins, done: set<string>, here: Moment) {
    forall t :: t in begin && t !in done ==> Before(here, End(d, begin, t))
  }

  lemma SequenceParts(g: Graph, d: Durations, m: int, start: map<string, int>, begin: Begins, done: set<string>,
      here: Moment)
    ensures Sequence(g, d, m, start, begin, done, here) <==>
      && Timed(start, begin) && done <= begin.Keys && NotAfterMoment(ZERO, here)
      && Timely(d, begin, done, here) && AfterDone(g, d, begin, done)
      && RoomBefore(d, m, begin, here) && FullBefore(g, d, m, begin, here)
      && SmallerFirst(g, d, begin)
  {
    hide Timely, AfterDone, RoomBefore, FullBefore, SmallerFirst;
  }

  // Starting a task

  /** What was released stays released, and nothing new was released by now. */
  lemma ReleasedUnchanged(g: Graph, d: Durations, begin: Begins, id: string, here: Moment, t: string, p: Moment)
    requires id !in begin && Dur(d, id) >= 0 && NotAfterMoment(p, here)
    ensures Released(g, d, begin[id := here], t, p) <==> Released(g, d, begin, t, p)
  {
    var begin' := begin[id := here];
    EndsLater(d, begin', id);
    assert !NotAfterMoment(End(d, begin', id), p);
    forall a | a in begin ensures End(d, begin', a) == End(d, begin, a) {}
  }

  lemma BusyUnchanged(d: Durations, begin: Begins, id: string, here: Moment, p: Moment)
    requires id !in begin && Before(p, here)
    ensures Busy(d, begin[id := here], p) == Busy(d, begin, p)
  {
  }

  lemma StartTimely(d: Durations, begin: Begins, done: set<string>, here: Moment, id: string)
    requires Timely(d, begin, done, here) && Strict(d, begin, done, here) && id !in begin && id !in done
        && Dur(d, id) >= 0
    requires NotAfterMoment(ZERO, here)
    ensures Timely(d, begin[id := here], done, here) && Strict(d, begin[id := here], done, here)
  {
    EndsLater(d, begin[id := here], id);
  }

  lemma StartAfterDone(g: Graph, d: Durations, begin: Begins, done: set<string>, here: Moment, id: string)
    requires AfterDone(g, d, begin, done) && Timely(d, begin, done, here) && done <= begin.Keys
    requires id in g && id !in begin && Dur(d, id) >= 0 && Elements(g[id]) <= done
    ensures AfterDone(g, d, begin[id := here], done)
  {
    hide Released;
    var begin' := begin[id := here];
    forall t | t in begin' ensures Released(g, d, begin', t, begin'[t]) && (t in g ==> Elements(g[t]) <= done) {
      if t == id { DoneReleases(g, d, begin, done, here, id); }
      ReleasedUnchanged(g, d, begin, id, here, t, begin'[t]);
    }
  }

  lemma DoneReleases(g: Graph, d: Durations, begin: Begins, done: set<string>, here: Moment, t: string)
    requires Timely(d, begin, done, here) && done <= begin.Keys && t in g && Elements(g[t]) <= done
    ensures Released(g, d, begin, t, here)
  {
    forall a | Edge(g, a, t) ensures a in begin && NotAfterMoment(End(d, begin, a), here) {
      assert a in Elements(g[t]);
    }
  }

  /** Only completed tasks have ended by now. */
  lemma ReleasedByDone(g: Graph, d: Durations, begin: Begins, done: set<string>, here: Moment, t: string, p: Moment)
    requires Timely(d, begin, done, here) && Strict(d, begin, done, here) && NotAfterMoment(p, here)
    requires Released(g, d, begin, t, p)
    ensures t in g && Elements(g[t]) <= done
  {
    forall a | a in Elements(g[t]) ensures a in done { assert Edge(g, a, t); }
  }

  lemma StartPastMoments(g: Graph, d: Durations, m: int, begin: Begins, here: Moment, id: string)
    requires id !in begin && Dur(d, id) >= 0 && (forall t :: t in begin ==> NotAfterMoment(begin[t], here))
    requires RoomBefore(d, m, begin, here) && FullBefore(g, d, m, begin, here)
    ensures RoomBefore(d, m, begin[id := here], here) && FullBefore(g, d, m, begin[id := here], here)
  {
    hide Released, Busy;
    var begin' := begin[id := here];
    forall p | Before(p, here) ensures |Busy(d, begin', p)| <= m { BusyUnchanged(d, begin, id, here, p); }
    forall t, p | WaitsBefore(g, d, begin', t, p, here) ensures |Busy(d, begin', p)| == m {
      ReleasedUnchanged(g, d, begin, id, here, t, p);
      assert WaitsBefore(g, d, begin, t, p, here);
      BusyUnchanged(d, begin, id, here, p);
    }
  }

  lemma StartSmallerFirst(g: Graph, d: Durations, begin: Begins, done: set<string>, here: Moment, id: string)
    requires SmallerFirst(g, d, begin) && Timely(d, begin, done, here) && Strict(d, begin, done, here)
    requires id in g && id !in begin && Dur(d, id) >= 0
    requires forall u :: u in g && u !in begin && Elements(g[u]) <= done ==> !Less(u, id)
    ensures SmallerFirst(g, d, begin[id := here])
  {
    hide Released;
    var begin' := begin[id := here];
    forall t, u | t in begin' && Less(u, t) && Released(g, d, begin', u, begin'[t])
      ensures u in begin' && NotAfterMoment(begin'[u], begin'[t])
    {
      ReleasedUnchanged(g, d, begin, id, here, u, begin'[t]);
      if t == id {
        ReleasedByDone(g, d, begin, done, here, u, here);
      } else {
        assert u in begin;
      }
    }
  }

  /** The least of the waiting tasks takes a free slot. */
  lemma StartHere(g: Graph, d: Durations, m: int, start: map<string, int>, begin: Begins, done: set<string>,
      here: Moment,
                  id: string)
    requires Sequence(g, d, m, start, begin, done, here) && Strict(d, begin, done, here)
    requires id in g && id !in begin && Dur(d, id) >= 0 && Elements(g[id]) <= done
    requires forall u :: u in g && u !in begin && Elements(g[u]) <= done ==> !Less(u, id)
    ensures Sequence(g, d, m, start[id := here.time], begin[id := here], done, here)
        && Strict(d, begin[id := here], done, here)
  {
    hide *;
    SequenceParts(g, d, m, start, begin, done, here);
    TimelyStarts(d, begin, done, here);
    StartTimed(start, begin, here, id);
    StartTimely(d, begin, done, here, id);
    StartAfterDone(g, d, begin, done, here, id);
    StartPastMoments(g, d, m, begin, here, id);
    StartSmallerFirst(g, d, begin, done, here, id);
    SequenceParts(g, d, m, start[id := here.time], begin[id := here], done, here);
  }

  lemma TimelyStarts(d: Durations, begin: Begins, done: set<string>, here: Moment)
    requires Timely(d, begin, done, here)
    ensures forall t :: t in begin ==> NotAfterMoment(begin[t], here)
  {
  }

  lemma StartTimed(start: map<string, int>, begin: Begins, here: Moment, id: string)
    requires Timed(start, begin)
    ensures Timed(start[id := here.time], begin[id := here])
  {
  }

  // Moving to the next moment

  lemma BusyBetween(d: Durations, begin: Begins, done: set<string>, here: Moment, next: Moment, p: Moment)
    requires Timely(d, begin, done, here) && NotAfterMoment(here, p) && Before(p, next)
    requires forall t :: t in begin && t !in done ==> NotAfterMoment(next, End(d, begin, t))
    ensures Busy(d, begin, p) == begin.Keys - done
  {
    forall t ensures t in Busy(d, begin, p) <==> t in begin.Keys - done {
      if t in begin { BusyOne(d, begin, done, here, next, p, t); }
    }
  }

  lemma BusyOne(d: Durations, begin: Begins, done: set<string>, here: Moment, next: Moment, p: Moment, t: string)
    requires Timely(d, begin, done, here) && NotAfterMoment(here, p) && Before(p, next) && t in begin
    requires t !in done ==> NotAfterMoment(next, End(d, begin, t))
    ensures t in Busy(d, begin, p) <==> t !in done
  {
  }

  lemma Move(g: Graph, d: Durations, m: int, start: map<string, int>, begin: Begins, done: set<string>,
             here: Moment, next: Moment)
    requires Sequence(g, d, m, start, begin, done, here) && Before(here, next) && |begin.Keys - done| <= m
    requires forall t :: t in begin && t !in done ==> NotAfterMoment(next, End(d, begin, t))
    requires |begin.Keys - done| < m ==> forall t :: t in g && t !in begin ==> !(Elements(g[t]) <= done)
    ensures Sequence(g, d, m, start, begin, done, next)
  {
    hide *;
    SequenceParts(g, d, m, start, begin, done, here);
    MoveTimely(d, begin, done, here, next);
    MoveRoom(d, m, begin, done, here, next);
    MoveFull(g, d, m, begin, done, here, next);
    SequenceParts(g, d, m, start, begin, done, next);
  }

  lemma MoveTimely(d: Durations, begin: Begins, done: set<string>, here: Moment, next: Moment)
    requires Timely(d, begin, done, here) && Before(here, next) && NotAfterMoment(ZERO, here)
    requires forall t :: t in begin && t !in done ==> NotAfterMoment(next, End(d, begin, t))
    ensures Timely(d, begin, done, next) && NotAfterMoment(ZERO, next)
  {
  }

  lemma MoveRoom(d: Durations, m: int, begin: Begins, done: set<string>, here: Moment, next: Moment)
    requires Timely(d, begin, done, here) && RoomBefore(d, m, begin, here) && |begin.Keys - done| <= m
    requires forall t :: t in begin && t !in done ==> NotAfterMoment(next, End(d, begin, t))
    ensures RoomBefore(d, m, begin, next)
  {
    hide Timely, Busy;
    forall p | Before(p, next) ensures |Busy(d, begin, p)| <= m {
      if NotAfterMoment(here, p) { BusyBetween(d, begin, done, here, next, p); }
    }
  }

  lemma MoveFull(g: Graph, d: Durations, m: int, begin: Begins, done: set<string>, here: Moment, next: Moment)
    requires Timely(d, begin, done, here) && FullBefore(g, d, m, begin, here) && |begin.Keys - done| <= m
    requires Before(here, next)
    requires forall t :: t in begin && t !in done ==> NotAfterMoment(next, End(d, begin, t))
    requires |begin.Keys - done| < m ==> forall t :: t in g && t !in begin ==> !(Elements(g[t]) <= done)
    ensures FullBefore(g, d, m, begin, next)
  {
    hide Released, Busy, Timely;
    TimelyStarts(d, begin, done, here);
    MoveTimelyIfZero(d, begin, done, here, next);
    forall t, p | WaitsBefore(g, d, begin, t, p, next) ensures |Busy(d, begin, p)| == m {
      if Before(p, here) {
        assert WaitsBefore(g, d, begin, t, p, here);
      } else {
        BusyBetween(d, begin, done, here, next, p);
        EndedIsDone(g, d, begin, done, next, t, p);
      }
    }
  }

  lemma MoveTimelyIfZero(d: Durations, begin: Begins, done: set<string>, here: Moment, next: Moment)
    requires Timely(d, begin, done, here) && Before(here, next)
    ensures forall t :: t in begin ==> !Before(next, begin[t]) && !(here != begin[t] && Before(here, begin[t]))
  {
  }

  lemma EndedIsDone(g: Graph, d: Durations, begin: Begins, done: set<string>, next: Moment, t: string, p: Moment)
    requires Released(g, d, begin, t, p) && Before(p, next)
    requires forall u :: u in begin && u !in done ==> NotAfterMoment(next, End(d, begin, u))
    ensures t in g && Elements(g[t]) <= done
  {
    forall a | a in Elements(g[t]) ensures a in done { assert Edge(g, a, t); }
  }

  // Completing a task, and the end

  lemma FinishHere(g: Graph, d: Durations, m: int, start: map<string, int>, begin: Begins, done: set<string>,
      here: Moment,
                   id: string)
    requires Sequence(g, d, m, start, begin, done, here) && id in begin && id !in done && End(d, begin, id) == here
    ensures Sequence(g, d, m, start, begin, done + {id}, here)
  {
    hide RoomBefore, FullBefore, SmallerFirst, Released;
    forall t | t in begin ensures t in g ==> Elements(g[t]) <= done + {id} {}
  }

  lemma SequenceEnds(g: Graph, d: Durations, m: int, start: map<string, int>, begin: Begins, done: set<string>,
      here: Moment)
    requires m > 0 && Sequence(g, d, m, start, begin, done, here) && done == g.Keys == start.Keys
    ensures ListSchedules(g, d, m, begin)
  {
    hide *;
    SequenceParts(g, d, m, start, begin, done, here);
    EndKeys(start, begin);
    EndAfterDependencies(g, d, begin, done, here);
    EndRoom(d, m, begin, done, here);
    EndNoIdling(g, d, m, begin, done, here);
    ListParts(g, d, m, begin);
  }

  lemma EndKeys(start: map<string, int>, begin: Begins)
    requires Timed(start, begin)
    ensures begin.Keys == start.Keys
  {
  }

  lemma ListParts(g: Graph, d: Durations, m: int, begin: Begins)
    requires begin.Keys == g.Keys && AfterDependencies(g, d, begin) && Room(d, m, begin)
    requires NoIdling(g, d, m, begin) && SmallerFirst(g, d, begin)
    ensures ListSchedules(g, d, m, begin)
  {
    hide AfterDependencies, Room, NoIdling, SmallerFirst;
  }

  lemma EndAfterDependencies(g: Graph, d: Durations, begin: Begins, done: set<string>, here: Moment)
    requires Timely(d, begin, done, here) && AfterDone(g, d, begin, done)
    ensures AfterDependencies(g, d, begin)
  {
    hide Released;
  }

  lemma EndRoom(d: Durations, m: int, begin: Begins, done: set<string>, here: Moment)
    requires m > 0 && Timely(d, begin, done, here) && begin.Keys == done && RoomBefore(d, m, begin, here)
    ensures Room(d, m, begin)
  {
    forall p ensures |Busy(d, begin, p)| <= m {
      if !Before(p, here) { assert Busy(d, begin, p) == {}; }
    }
  }

  lemma EndNoIdling(g: Graph, d: Durations, m: int, begin: Begins, done: set<string>, here: Moment)
    requires Timely(d, begin, done, here) && FullBefore(g, d, m, begin, here)
    ensures NoIdling(g, d, m, begin)
  {
    hide Released, Busy;
    forall t, p | Waits(g, d, begin, t, p) ensures |Busy(d, begin, p)| == m {
      assert WaitsBefore(g, d, begin, t, p, here);
    }
  }

  lemma SequenceStart(g: Graph, d: Durations, m: int)
    requires m > 0
    ensures Sequence(g, d, m, map[], map[], {}, ZERO) && Strict(d, map[], {}, ZERO)
  {
    var begin: Begins := map[];
    forall p ensures Busy(d, begin, p) == {} {}
    forall t, p | WaitsBefore(g, d, begin, t, p, ZERO) ensures false {}
  }

  // Without tasks of no duration

  ghost predicate Lasting(g: Graph, d: Durations) {
    forall t :: t in g ==> Dur(d, t) > 0
  }

  /** If every task takes time, rounds are not needed. */
  lemma RoundsZero(g: Graph, d: Durations, m: int, begin: Begins, t: string)
    requires Lasting(g, d) && ListSchedules(g, d, m, begin) && t in begin
    ensures begin[t].round == 0
  {
    hide SmallerFirst, Busy;
    var q := begin[t];
    assert |Busy(d, begin, q)| <= m;
    if q.round > 0 {
      var p := Moment(q.time, q.round - 1);
      assert Released(g, d, begin, t, q);
      assert Waits(g, d, begin, t, p);
      EndsLater(d, begin, t);
      StillBusy(g, d, begin, t, p, q);
      SubsetCardinality(Busy(d, begin, p) + {t}, Busy(d, begin, q));
      assert false;
    }
  }

  lemma StillBusy(g: Graph, d: Durations, begin: Begins, t: string, p: Moment, q: Moment)
    requires Lasting(g, d) && begin.Keys == g.Keys && t in begin && begin[t] == q && Before(q, End(d, begin, t))
    requires q.round > 0 && p == Moment(q.time, q.round - 1)
    ensures t !in Busy(d, begin, p) && Busy(d, begin, p) + {t} <= Busy(d, begin, q)
  {
  }

  /** Then a task that waits is started before any later one with a greater id. */
  lemma SmallerStartsFirst(g: Graph, d: Durations, m: int, start: map<string, int>, begin: Begins, t: string, u: string)
    requires Lasting(g, d) && ListSchedules(g, d, m, begin) && Timed(start, begin)
    requires t in g && u in g && Less(u, t) && ReadyAt(g, d, start, u, start[t])
    ensures start[u] <= start[t]
  {
    hide Room, NoIdling;
    RoundsZero(g, d, m, begin, t);
    forall a | Edge(g, a, u) ensures a in begin && NotAfterMoment(End(d, begin, a), begin[t]) {
      RoundsZero(g, d, m, begin, a);
    }
    assert Released(g, d, begin, u, begin[t]);
  }
}
