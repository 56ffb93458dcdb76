/** What a subscriber of the event log should see, and what the replaying delivery loop sends. */
module Delivery {

  datatype Event = Event(id: int, kind: string, workflowId: string, taskId: string, workerId: string)

  /** Event ids are positions in the log, counted from one. */
  ghost predicate Numbered(log: seq<Event>) {
    forall i :: 0 <= i < |log| ==> log[i].id == i + 1
  }

  /** The empty workflow id selects every event. */
  predicate Matches(e: Event, workflowId: string) {
    workflowId == "" || e.workflowId == workflowId
  }

  /** The events of a workflow with ids above `lo` and up to `hi`, in order. */
  function Between(log: seq<Event>, workflowId: string, lo: int, hi: int): (r: seq<Event>)
    ensures forall e :: e in r ==> lo < e.id <= hi && e in log && Matches(e, workflowId)
  {
    if log == [] then []
    else
      var e := log[|log| - 1];
      Between(log[..|log| - 1], workflowId, lo, hi)
      + if lo < e.id <= hi && Matches(e, workflowId) then [e] else []
  }

  /** The events of a workflow with ids above `after`. */
  function Since(log: seq<Event>, workflowId: string, after: int): (r: seq<Event>)
    ensures forall e :: e in r ==> e.id > after && e in log && Matches(e, workflowId)
  {
    if log == [] then []
    else
      var e := log[|log| - 1];
      Since(log[..|log| - 1], workflowId, after) + if e.id > after && Matches(e, workflowId) then [e] else []
  }

  /** The last `max` events. */
  function Tail(log: seq<Event>, max: nat): seq<Event> {
    if |log| <= max then log else log[|log| - max..]
  }

  /** Every matching event that has left the buffer was delivered before. */
  ghost predicate NothingLost(log: seq<Event>, max: nat, workflowId: string, lastSent: int) {
    forall i :: 0 <= i < |log| - max && Matches(log[i], workflowId) ==> log[i].id <= lastSent
  }

  lemma {:induction false} SinceBetween(log: seq<Event>, workflowId: string, lo: int, hi: int)
    requires Numbered(log) && hi >= |log|
    ensures Since(log, workflowId, lo) == Between(log, workflowId, lo, hi)
  {
    if log != [] { SinceBetween(log[..|log| - 1], workflowId, lo, hi); }
  }

  lemma {:induction false} BetweenMember(log: seq<Event>, workflowId: string, lo: int, hi: int, e: Event)
    requires e in log && Matches(e, workflowId) && lo < e.id <= hi
    ensures e in Between(log, workflowId, lo, hi)
  {
    var init := log[..|log| - 1];
    assert log == init + [log[|log| - 1]];
    if e in init { BetweenMember(init, workflowId, lo, hi, e); }
  }

  /** Delivery up to one id, continued from there, is delivery from the start: no gap and no repeat. */
  lemma {:induction false} BetweenJoins(log: seq<Event>, workflowId: string, lo: int, mid: int, hi: int)
    requires Numbered(log) && lo <= mid <= hi
    ensures Between(log, workflowId, lo, mid) + Between(log, workflowId, mid, hi) == Between(log, workflowId, lo, hi)
  {
    hide *;
    if log == [] {
      BetweenNothing(workflowId);
    } else {
      var init, e := log[..|log| - 1], log[|log| - 1];
      var a, b, c := Between(init, workflowId, lo, mid), Between(init, workflowId, mid, hi),
          Between(init, workflowId, lo, hi);
      NumberedInit(log);
      BetweenJoins(init, workflowId, lo, mid, hi);
      BetweenLast(log, workflowId, lo, mid);
      BetweenLast(log, workflowId, mid, hi);
      BetweenLast(log, workflowId, lo, hi);
      if e.id <= mid {
        NoneAbove(init, workflowId, mid, hi, |log| - 1);
        assert b == [] && c == a;
      } else if e.id <= hi && Matches(e, workflowId) {
        assert a + (b + [e]) == (a + b) + [e];
      }
    }
  }

  lemma BetweenNothing(workflowId: string)
    ensures forall lo, hi :: Between([], workflowId, lo, hi) == []
  {
  }

  lemma NumberedInit(log: seq<Event>)
    requires Numbered(log) && log != []
    ensures Numbered(log[..|log| - 1]) && log[|log| - 1].id == |log|
  {
  }

  lemma BetweenLast(log: seq<Event>, workflowId: string, lo: int, hi: int)
    requires log != []
    ensures var e, r := log[|log| - 1], Between(log[..|log| - 1], workflowId, lo, hi);
      Between(log, workflowId, lo, hi) == if lo < e.id <= hi && Matches(e, workflowId) then r + [e] else r
  {
  }

  lemma {:induction false} NoneAbove(log: seq<Event>, workflowId: string, lo: int, hi: int, n: int)
    requires Numbered(log) && |log| <= n
    ensures n <= lo ==> Between(log, workflowId, lo, hi) == []
    ensures n <= hi ==> Between(log, workflowId, lo, hi) == Between(log, workflowId, lo, n)
  {
    if log != [] { NoneAbove(log[..|log| - 1], workflowId, lo, hi, n); }
  }

  /** Events published later are above everything delivered so far. */
  lemma BetweenStable(log: seq<Event>, e: Event, workflowId: string, lo: int, hi: int)
    requires Numbered(log + [e]) && (hi <= |log| || e.id > hi)
    ensures Between(log + [e], workflowId, lo, hi) == Between(log, workflowId, lo, hi)
  {
    assert (log + [e])[..|log|] == log;
    assert (log + [e])[|log|].id == |log| + 1;
  }

  /** The first `n` events found are those up to the id of the `n`-th. */
  lemma {:induction false} SincePrefix(log: seq<Event>, workflowId: string, after: int, n: nat)
    requires Numbered(log) && 0 < n <= |Since(log, workflowId, after)|
    ensures var s := Since(log, workflowId, after); Between(log, workflowId, after, s[n - 1].id) == s[..n]
  {
    hide *;
    SinceLast(log, workflowId, after);
    var s := Since(log, workflowId, after);
    var init := log[..|log| - 1];
    var s' := Since(init, workflowId, after);
    if n <= |s'| {
      NumberedInit(log);
      SincePrefix(init, workflowId, after, n);
      assert s[n - 1] == s'[n - 1] && s'[n - 1] in s';
      EarlierId(init, s'[n - 1]);
      BetweenLast(log, workflowId, after, s[n - 1].id);
      assert s[..n] == s'[..n];
    } else {
      SinceWhole(log, workflowId, after);
      assert s[..n] == s;
    }
  }

  lemma SinceLast(log: seq<Event>, workflowId: string, after: int)
    ensures log == [] ==> Since(log, workflowId, after) == []
    ensures log != [] ==>
      var s, s' := Since(log, workflowId, after), Since(log[..|log| - 1], workflowId, after);
      s == s' || s == s' + [log[|log| - 1]]
  {
  }

  /** If the last event is found, all that is found lies up to its id. */
  lemma SinceWhole(log: seq<Event>, workflowId: string, after: int)
    requires Numbered(log) && log != []
    requires |Since(log, workflowId, after)| > |Since(log[..|log| - 1], workflowId, after)|
    ensures
      var s, e := Since(log, workflowId, after), log[|log| - 1];
      s[|s| - 1] == e && Between(log, workflowId, after, e.id) == s
  {
    SinceBetween(log[..|log| - 1], workflowId, after, log[|log| - 1].id);
  }

  lemma EarlierId(log: seq<Event>, e: Event)
    requires Numbered(log) && e in log
    ensures 1 <= e.id <= |log|
  {
  }

  lemma TailIds(log: seq<Event>, max: nat)
    requires Numbered(log)
    ensures forall k :: 0 <= k < |Tail(log, max)| ==> Tail(log, max)[k].id > |log| - max
  {
  }

  lemma {:induction false} SinceConcat(a: seq<Event>, b: seq<Event>, workflowId: string, after: int)
    ensures Since(a + b, workflowId, after) == Since(a, workflowId, after) + Since(b, workflowId, after)
  {
    if b == [] {
      assert a + b == a;
    } else {
      var init := b[..|b| - 1];
      assert (a + b)[..|a + b| - 1] == a + init;
      SinceConcat(a, init, workflowId, after);
    }
  }

  lemma {:induction false} SinceNone(log: seq<Event>, workflowId: string, after: int)
    requires forall i :: 0 <= i < |log| && Matches(log[i], workflowId) ==> log[i].id <= after
    ensures Since(log, workflowId, after) == []
  {
    if log != [] { SinceNone(log[..|log| - 1], workflowId, after); }
  }

  /** If nothing was lost, replaying the buffer is replaying the whole log. */
  lemma TailSuffices(log: seq<Event>, max: nat, workflowId: string, lastSent: int)
    requires Numbered(log) && NothingLost(log, max, workflowId, lastSent)
    ensures Since(Tail(log, max), workflowId, lastSent) == Since(log, workflowId, lastSent)
  {
    if |log| > max {
      var a, b := log[..|log| - max], log[|log| - max..];
      assert log == a + b;
      SinceConcat(a, b, workflowId, lastSent);
      SinceNone(a, workflowId, lastSent);
    }
  }

  // One connection

  /** A connection to the log: what the client asked for and what it has been sent. */
  datatype Conn = Conn(workflowId: string, after: int, lastSent: int, output: seq<Event>)

  /** Exactly once and in order: the output is what lies between `after` and `lastSent`. */
  ghost predicate Delivered(c: Conn, log: seq<Event>) {
    c.after <= c.lastSent && c.output == Between(log, c.workflowId, c.after, c.lastSent)
  }

  lemma {:induction false} BetweenRises(log: seq<Event>, workflowId: string, lo: int, hi: int)
    requires Numbered(log)
    ensures
      forall i, j :: 0 <= i < j < |Between(log, workflowId, lo, hi)| ==>
        Between(log, workflowId, lo, hi)[i].id < Between(log, workflowId, lo, hi)[j].id
  {
    if log != [] {
      var init, last := log[..|log| - 1], log[|log| - 1];
      BetweenRises(init, workflowId, lo, hi);
      var r := Between(init, workflowId, lo, hi);
      forall i | 0 <= i < |r| ensures r[i].id < last.id { assert r[i] in r && r[i] in init; }
    }
  }

  /** What delivery means, event by event: the output lists exactly the events of the workflow with ids above `after`
      and up to `lastSent`, in the order of their ids. */
  lemma DeliveredSpelled(c: Conn, log: seq<Event>)
    requires Numbered(log) && Delivered(c, log)
    ensures
      forall e :: e in c.output <==>
        e in log && c.after < e.id <= c.lastSent && (c.workflowId == "" || e.workflowId == c.workflowId)
    ensures forall i, j :: 0 <= i < j < |c.output| ==> c.output[i].id < c.output[j].id
  {
    BetweenRises(log, c.workflowId, c.after, c.lastSent);
    forall e | e in log && c.after < e.id <= c.lastSent && (c.workflowId == "" || e.workflowId == c.workflowId)
      ensures e in c.output
    {
      BetweenMember(log, c.workflowId, c.after, c.lastSent, e);
    }
  }

  /** The output is everything published since `after`. */
  ghost predicate CaughtUp(c: Conn, log: seq<Event>) {
    c.output == Since(log, c.workflowId, c.after)
  }

  function Least(a: nat, b: nat): nat { if a < b then a else b }

  /** Sending the first events of a replay, as far as the connection takes them. */
  function Send(c: Conn, replay: seq<Event>, writes: nat): Conn {
    var n := Least(writes, |replay|);
    c.(output := c.output + replay[..n], lastSent := if n == 0 then c.lastSent else replay[n - 1].id)
  }

  /** `flushReplay` on a connection that takes `writes` more events. */
  function Flush(c: Conn, log: seq<Event>, max: nat, writes: nat): Conn {
    Send(c, Since(Tail(log, max), c.workflowId, c.lastSent), writes)
  }

  lemma FlushDelivers(c: Conn, log: seq<Event>, max: nat, writes: nat)
    requires Numbered(log) && Delivered(c, log) && NothingLost(log, max, c.workflowId, c.lastSent)
    ensures Delivered(Flush(c, log, max, writes), log)
  {
    hide Since, Between, Numbered, NothingLost, Tail;
    TailSuffices(log, max, c.workflowId, c.lastSent);
    var replay := Since(log, c.workflowId, c.lastSent);
    var n := Least(writes, |replay|);
    if n == 0 {
      assert c.output + replay[..0] == c.output;
    } else {
      SincePrefix(log, c.workflowId, c.lastSent, n);
      assert replay[n - 1] in replay;
      BetweenJoins(log, c.workflowId, c.after, c.lastSent, replay[n - 1].id);
    }
  }

  /** A flush that is not cut short catches up exactly when no undelivered event had left the buffer. */
  lemma FlushCatchesUp(c: Conn, log: seq<Event>, max: nat, writes: nat)
    requires Numbered(log) && Delivered(c, log)
    requires writes >= |Since(Tail(log, max), c.workflowId, c.lastSent)|
    ensures CaughtUp(Flush(c, log, max, writes), log) <==> NothingLost(log, max, c.workflowId, c.lastSent)
  {
    var replay := Since(Tail(log, max), c.workflowId, c.lastSent);
    var c' := Flush(c, log, max, writes);
    assert replay[..|replay|] == replay;
    assert c'.output == c.output + replay;
    var top := if c.lastSent > |log| then c.lastSent else |log|;
    if NothingLost(log, max, c.workflowId, c.lastSent) {
      TailSuffices(log, max, c.workflowId, c.lastSent);
      SinceBetween(log, c.workflowId, c.lastSent, top);
      BetweenJoins(log, c.workflowId, c.after, c.lastSent, top);
      SinceBetween(log, c.workflowId, c.after, top);
    } else {
      var i :| 0 <= i < |log| - max && Matches(log[i], c.workflowId) && log[i].id > c.lastSent;
      SinceBetween(log, c.workflowId, c.after, top);
      BetweenMember(log, c.workflowId, c.after, top, log[i]);
      TailIds(log, max);
      assert log[i] !in c.output;
      assert log[i] !in replay;
    }
  }

  /** Two events of one workflow and a buffer for one: the first has left it, and no flush delivers it. */
  lemma FlushLoses(writes: nat)
    requires writes >= 1
    ensures
      var log := [Event(1, "", "w", "", ""), Event(2, "", "w", "", "")];
      var c := Conn("w", 0, 0, []);
      && Numbered(log) && Delivered(c, log) && !NothingLost(log, 1, "w", 0)
      && !CaughtUp(Flush(c, log, 1, writes), log)
  {
    hide Flush, CaughtUp, Since, Between;
    var log := [Event(1, "", "w", "", ""), Event(2, "", "w", "", "")];
    var c := Conn("w", 0, 0, []);
    BetweenSame(log, "w", 0);
    assert Matches(log[0], "w") && log[0].id > 0;
    assert Tail(log, 1) == [log[1]];
    SinceOne(log[1], "w", 0);
    FlushCatchesUp(c, log, 1, writes);
  }

  lemma SinceOne(e: Event, workflowId: string, after: int)
    ensures |Since([e], workflowId, after)| <= 1
  {
    assert [e][..0] == [];
  }

  // Runs: anything may be published between the steps of the loop

  datatype Step = Publish(e: Event) | Wake(writes: nat)

  datatype System = System(log: seq<Event>, conn: Conn)

  function Numbering(log: seq<Event>, e: Event): (r: Event)
    ensures r.id == |log| + 1
  {
    e.(id := |log| + 1)
  }

  function Apply(s: System, max: nat, step: Step): System {
    match step
    case Publish(e) => s.(log := s.log + [Numbering(s.log, e)])
    case Wake(writes) => s.(conn := Flush(s.conn, s.log, max, writes))
  }

  function Run(s: System, max: nat, steps: seq<Step>): System {
    if steps == [] then s else Apply(Run(s, max, steps[..|steps| - 1]), max, steps[|steps| - 1])
  }

  /** No undelivered event leaves the buffer before the loop wakes up. */
  ghost predicate Kept(s: System, max: nat, steps: seq<Step>) {
    forall n :: 0 <= n < |steps| && steps[n].Wake? ==> KeptAt(s, max, steps, n)
  }

  ghost predicate KeptAt(s: System, max: nat, steps: seq<Step>, n: nat)
    requires n <= |steps|
  {
    var now := Run(s, max, steps[..n]);
    NothingLost(now.log, max, now.conn.workflowId, now.conn.lastSent)
  }

  /** Nothing unpublished was sent. A client may still ask for events after an id the log has not reached,
      as it does when the coordinator has been restarted with an empty log. */
  ghost predicate Plausible(c: Conn, log: seq<Event>) {
    c.lastSent <= |log| || c.lastSent == c.after
  }

  /** At every moment of every run, from whatever `after` the client asked for, it has been sent each event
      up to `lastSent` exactly once, in order. */
  lemma {:induction false} RunDelivers(s: System, max: nat, steps: seq<Step>)
    requires Numbered(s.log) && Delivered(s.conn, s.log) && Plausible(s.conn, s.log) && Kept(s, max, steps)
    ensures var now := Run(s, max, steps);
      Numbered(now.log) && Delivered(now.conn, now.log) && Plausible(now.conn, now.log)
  {
    if steps != [] {
      var init, last := steps[..|steps| - 1], steps[|steps| - 1];
      forall n | 0 <= n < |init| && init[n].Wake? ensures KeptAt(s, max, init, n) {
        assert KeptAt(s, max, steps, n);
        assert steps[..n] == init[..n];
      }
      RunDelivers(s, max, init);
      var before := Run(s, max, init);
      match last {
        case Publish(e) =>
          var c := before.conn;
          if c.lastSent <= |before.log| {
            BetweenStable(before.log, Numbering(before.log, e), c.workflowId, c.after, c.lastSent);
          } else {
            BetweenSame(before.log, c.workflowId, c.after);
            BetweenSame(before.log + [Numbering(before.log, e)], c.workflowId, c.after);
          }
        case Wake(writes) =>
          assert KeptAt(s, max, steps, |steps| - 1);
          FlushDelivers(before.conn, before.log, max, writes);
          SentIdsExist(before.conn, before.log, max, writes);
      }
    }
  }

  lemma {:induction false} BetweenSame(log: seq<Event>, workflowId: string, lo: int)
    ensures Between(log, workflowId, lo, lo) == []
  {
    if log != [] { BetweenSame(log[..|log| - 1], workflowId, lo); }
  }

  /** A connection from its first replay on, for every `Last-Event-ID` the server accepts. */
  lemma ClientDelivered(log: seq<Event>, max: nat, workflowId: string, after: nat, steps: seq<Step>)
    requires Numbered(log) && Kept(System(log, Conn(workflowId, after, after, [])), max, steps)
    ensures
      var now := Run(System(log, Conn(workflowId, after, after, [])), max, steps);
      Delivered(now.conn, now.log) && Plausible(now.conn, now.log)
  {
    BetweenSame(log, workflowId, after);
    RunDelivers(System(log, Conn(workflowId, after, after, [])), max, steps);
  }

  lemma SentIdsExist(c: Conn, log: seq<Event>, max: nat, writes: nat)
    requires Numbered(log) && Plausible(c, log)
    ensures Plausible(Flush(c, log, max, writes), log)
  {
    var replay := Since(Tail(log, max), c.workflowId, c.lastSent);
    var n := Least(writes, |replay|);
    if n > 0 {
      assert replay[n - 1] in replay;
      EarlierId(log, replay[n - 1]);
    }
  }

  // Clients that reconnect

  /** What a connection asks for stays. */
  lemma {:induction false} RunConn(s: System, max: nat, steps: seq<Step>)
    ensures var now := Run(s, max, steps);
      now.conn.workflowId == s.conn.workflowId && now.conn.after == s.conn.after && |now.log| >= |s.log|
  {
    hide Flush;
    if steps != [] {
      var before := Run(s, max, steps[..|steps| - 1]);
      RunConn(s, max, steps[..|steps| - 1]);
      if steps[|steps| - 1].Wake? { FlushConn(before.conn, before.log, max, steps[|steps| - 1].writes); }
    }
  }

  lemma FlushConn(c: Conn, log: seq<Event>, max: nat, writes: nat)
    ensures Flush(c, log, max, writes).workflowId == c.workflowId && Flush(c, log, max, writes).after == c.after
  {
    hide Since, Tail;
  }

  /** What was published before a run is seen in the same way after it. */
  lemma {:induction false} RunStable(s: System, max: nat, steps: seq<Step>, workflowId: string, lo: int, hi: int)
    requires Numbered(s.log) && (hi <= |s.log| || hi == lo)
    ensures Numbered(Run(s, max, steps).log)
    ensures Between(Run(s, max, steps).log, workflowId, lo, hi) == Between(s.log, workflowId, lo, hi)
  {
    hide Flush, Between;
    if steps != [] {
      var init, last := steps[..|steps| - 1], steps[|steps| - 1];
      var before := Run(s, max, init);
      RunStable(s, max, init, workflowId, lo, hi);
      RunConn(s, max, init);
      if last.Publish? {
        var e := Numbering(before.log, last.e);
        assert Run(s, max, steps).log == before.log + [e];
        if hi == lo {
          BetweenSame(before.log, workflowId, lo);
          BetweenSame(before.log + [e], workflowId, lo);
        } else {
          BetweenStable(before.log, e, workflowId, lo, hi);
        }
      }
    }
  }

  /** The client connects again and names the last id it received. */
  function Reconnected(s: System): System {
    s.(conn := Conn(s.conn.workflowId, s.conn.lastSent, s.conn.lastSent, []))
  }

  /** One connection after the other: the system at the end, and all that the client has received. Events published
      while the client is away are the steps of the next connection before it wakes up for the first time. */
  function Visits(s: System, max: nat, visits: seq<seq<Step>>): (System, seq<Event>) {
    if visits == [] then (s, [])
    else
      var (before, received) := Visits(s, max, visits[..|visits| - 1]);
      var now := Run(Reconnected(before), max, visits[|visits| - 1]);
      (now, received + now.conn.output)
  }

  /** No undelivered event leaves the buffer before a connection wakes up. */
  ghost predicate VisitsKept(s: System, max: nat, visits: seq<seq<Step>>) {
    visits == [] || (
      && VisitsKept(s, max, visits[..|visits| - 1])
      && Kept(Reconnected(Visits(s, max, visits[..|visits| - 1]).0), max, visits[|visits| - 1]))
  }

  /** A client that always reconnects with the last id it received gets, over any number of connections and whatever is
      published during and between them, each event since its first request exactly once, in order. */
  lemma {:induction false} Reconnects(s: System, max: nat, visits: seq<seq<Step>>)
    requires Numbered(s.log) && s.conn == Conn(s.conn.workflowId, s.conn.after, s.conn.after, [])
        && VisitsKept(s, max, visits)
    ensures
      var (now, received) := Visits(s, max, visits);
      var whole := Conn(s.conn.workflowId, s.conn.after, now.conn.lastSent, received);
      && Numbered(now.log) && now.conn.workflowId == s.conn.workflowId
      && Delivered(whole, now.log) && Plausible(whole, now.log)
  {
    hide Run, Kept, Between, Numbered;
    if visits == [] {
      BetweenSame(s.log, s.conn.workflowId, s.conn.after);
    } else {
      var (before, received) := Visits(s, max, visits[..|visits| - 1]);
      Reconnects(s, max, visits[..|visits| - 1]);
      var whole := Conn(s.conn.workflowId, s.conn.after, before.conn.lastSent, received);
      VisitJoins(whole, before, max, visits[|visits| - 1]);
    }
  }

  lemma VisitJoins(whole: Conn, before: System, max: nat, steps: seq<Step>)
    requires Numbered(before.log) && Delivered(whole, before.log) && Plausible(whole, before.log)
    requires whole.workflowId == before.conn.workflowId && whole.lastSent == before.conn.lastSent
    requires Kept(Reconnected(before), max, steps)
    ensures
      var now := Run(Reconnected(before), max, steps);
      var joined := whole.(lastSent := now.conn.lastSent, output := whole.output + now.conn.output);
      && Numbered(now.log) && now.conn.workflowId == whole.workflowId
      && Delivered(joined, now.log) && Plausible(joined, now.log)
  {
    hide Run, Kept, Between, Numbered;
    var start := Reconnected(before);
    var now := Run(start, max, steps);
    BetweenSame(before.log, whole.workflowId, whole.lastSent);
    RunDelivers(start, max, steps);
    RunConn(start, max, steps);
    RunStable(start, max, steps, whole.workflowId, whole.after, whole.lastSent);
    BetweenJoins(now.log, whole.workflowId, whole.after, whole.lastSent, now.conn.lastSent);
  }

  /** When the last connection then flushes without being cut short, the client has everything published since its
      first request, exactly if nothing undelivered had left the buffer. */
  lemma ReconnectCatchesUp(s: System, max: nat, visits: seq<seq<Step>>, writes: nat)
    requires Numbered(s.log) && s.conn == Conn(s.conn.workflowId, s.conn.after, s.conn.after, [])
        && VisitsKept(s, max, visits)
    requires var now := Visits(s, max, visits).0;
      writes >= |Since(Tail(now.log, max), now.conn.workflowId, now.conn.lastSent)|
    ensures
      var (now, received) := Visits(s, max, visits);
      var whole := Conn(s.conn.workflowId, s.conn.after, now.conn.lastSent, received);
      && Flush(whole, now.log, max, writes).output == received
          + Flush(Reconnected(now).conn, now.log, max, writes).output
      && (CaughtUp(Flush(whole, now.log, max, writes), now.log)
          <==> NothingLost(now.log, max, whole.workflowId, whole.lastSent))
  {
    hide Visits, VisitsKept, Since, Between, Numbered, CaughtUp, NothingLost, Tail;
    Reconnects(s, max, visits);
    var (now, received) := Visits(s, max, visits);
    FlushCatchesUp(Conn(s.conn.workflowId, s.conn.after, now.conn.lastSent, received), now.log, max, writes);
  }
}
