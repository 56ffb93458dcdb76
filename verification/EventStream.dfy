/** The event bus with its bounded buffer and lossy subscriber channels, and the server's delivery loop. */
module EventStream {
  import opened Delivery

  /** A subscriber's bounded channel. */
  class Channel {
    const capacity: nat
    var queue: seq<Event>
    var open: bool

    constructor (capacity: nat)
      ensures this.capacity == capacity && queue == [] && open
    {
      this.capacity, queue, open := capacity, [], true;
    }
  }

  const DEFAULT_MAX := 50_000
  const DEFAULT_BUFFER := 128

  class EventBus {
    const max: nat
    var nextId: int
    var events: seq<Event>
    var subs: map<int, Channel>
    var nextSub: int
    /** Everything ever published. */
    ghost var log: seq<Event>

    ghost predicate Valid()
      reads this
    {
      && nextId == |log| && Numbered(log) && max > 0
      && events == Tail(log, max)
      && (forall i :: i in subs ==> i < nextSub)
      && (forall i, j :: i in subs && j in subs && subs[i] == subs[j] ==> i == j)
    }

    constructor (max: int)
      ensures Valid() && log == [] && subs == map[]
      ensures this.max == if max <= 0 then DEFAULT_MAX else max
    {
      this.max := if max <= 0 then DEFAULT_MAX else max;
      nextId, events, subs, nextSub, log := 0, [], map[], 0, [];
    }

    /** Appends to the log and offers the event to every subscriber without waiting for any. */
    method Publish(e: Event) returns (r: Event)
      requires Valid()
      modifies this`nextId, this`events, this`log, subs.Values
      ensures Valid() && log == old(log) + [r] && r == Numbering(old(log), e)
      ensures forall ch :: ch in subs.Values ==>
        ch.open == old(ch.open) && ch.queue == old(ch.queue) + if |old(ch.queue)| < ch.capacity then [r] else []
    {
      nextId := nextId + 1;
      r := e.(id := nextId);
      TailNext(log, max, r);
      events := events + [r];
      if |events| > max { events := events[|events| - max..]; }
      log := log + [r];
      Offer(r);
    }

    /** Sends to every channel that has room. */
    method Offer(e: Event)
      modifies subs.Values
      ensures forall ch :: ch in subs.Values ==>
        ch.open == old(ch.open) && ch.queue == old(ch.queue) + if |old(ch.queue)| < ch.capacity then [e] else []
    {
      var todo := subs.Values;
      while todo != {}
        invariant todo <= subs.Values
        invariant forall ch :: ch in todo ==> ch.queue == old(ch.queue) && ch.open == old(ch.open)
        invariant forall ch :: ch in subs.Values - todo ==>
          ch.open == old(ch.open) && ch.queue == old(ch.queue) + if |old(ch.queue)| < ch.capacity then [e] else []
        decreases todo
      {
        var ch :| ch in todo;
        if |ch.queue| < ch.capacity { ch.queue := ch.queue + [e]; }
        todo := todo - {ch};
      }
    }

    method Replay(workflowId: string, after: int) returns (out: seq<Event>)
      requires Valid()
      ensures out == Since(Tail(log, max), workflowId, after)
    {
      out := [];
      for k := 0 to |events|
        invariant out == Since(events[..k], workflowId, after)
      {
        assert events[..k + 1][..k] == events[..k];
        if events[k].id > after && Matches(events[k], workflowId) { out := out + [events[k]]; }
      }
      assert events[..|events|] == events;
    }

    /** Takes the replay and installs the subscription in one step. */
    method SubscribeReplay(workflowId: string, after: int, buffer: int)
        returns (id: int, replay: seq<Event>, ch: Channel)
      requires Valid()
      modifies this`subs, this`nextSub
      ensures Valid() && replay == Since(Tail(log, max), workflowId, after)
      ensures fresh(ch) && ch.queue == [] && ch.open && ch.capacity == if buffer <= 0 then DEFAULT_BUFFER else buffer
      ensures id !in old(subs) && subs == old(subs)[id := ch]
    {
      id := nextSub;
      nextSub := nextSub + 1;
      ch := new Channel(if buffer <= 0 then DEFAULT_BUFFER else buffer);
      replay := Replay(workflowId, after);
      subs := subs[id := ch];
    }

    method Cancel(id: int)
      requires Valid()
      modifies this`subs, subs.Values
      ensures Valid() && subs == old(subs) - {id}
      ensures id in old(subs) ==> !old(subs[id]).open && old(subs[id]).queue == old(subs[id].queue)
      ensures forall ch :: ch in subs.Values ==> ch.queue == old(ch.queue) && ch.open == old(ch.open)
    {
      if id in subs {
        var ch := subs[id];
        var rest := map i | i in subs && i != id :: subs[i];
        assert rest == subs - {id};
        forall other | other in rest.Values ensures other != ch {
          var j :| j in rest && rest[j] == other;
          assert subs[j] == other;
        }
        subs := rest;
        ch.open := false;
      }
    }
  }

  lemma TailNext(log: seq<Event>, max: nat, e: Event)
    ensures var all := Tail(log, max) + [e];
      Tail(log + [e], max) == if |all| > max then all[|all| - max..] else all
  {
  }

  ghost predicate Increasing(s: seq<Event>) {
    forall i, j :: 0 <= i < j < |s| ==> s[i].id < s[j].id
  }

  lemma IncreasingNext(s: seq<Event>, e: Event)
    requires Increasing(s) && forall x :: x in s ==> x.id < e.id
    ensures Increasing(s + [e])
  {
    var t := s + [e];
    forall i, j | 0 <= i < j < |t| ensures t[i].id < t[j].id {
      if j == |s| { assert t[i] in s; }
    }
  }

  lemma {:induction false} SinceIncreasing(log: seq<Event>, workflowId: string, after: int)
    requires Increasing(log)
    ensures Increasing(Since(log, workflowId, after))
  {
    if log != [] {
      var init, e := log[..|log| - 1], log[|log| - 1];
      SinceIncreasing(init, workflowId, after);
      forall x | x in Since(init, workflowId, after) ensures x.id < e.id {
        var i :| 0 <= i < |init| && init[i] == x;
        assert log[i] == x;
      }
      IncreasingNext(Since(init, workflowId, after), e);
    }
  }

  /** Each event of a replay is above `lastSent` and above the one before it. */
  lemma ReplayIncreasing(log: seq<Event>, max: nat, workflowId: string, lastSent: int)
    requires Numbered(log)
    ensures var s := Since(Tail(log, max), workflowId, lastSent);
      forall k :: 0 <= k < |s| ==> s[k].id > (if k == 0 then lastSent else s[k - 1].id)
  {
    SinceIncreasing(Tail(log, max), workflowId, lastSent);
    var s := Since(Tail(log, max), workflowId, lastSent);
    forall k | 0 <= k < |s| ensures s[k].id > (if k == 0 then lastSent else s[k - 1].id) {
      assert s[k] in s;
      if k > 0 { assert s[k - 1].id < s[k].id; }
    }
  }

  lemma SendNone(c: Conn, replay: seq<Event>)
    ensures Send(c, replay, 0) == c
  {
    assert c.output + replay[..0] == c.output;
  }

  lemma SendNext(c: Conn, replay: seq<Event>, k: nat)
    requires k < |replay|
    ensures Send(c, replay, k + 1)
         == Send(c, replay, k).(output := Send(c, replay, k).output + [replay[k]], lastSent := replay[k].id)
    ensures Send(c, replay, k).lastSent == if k == 0 then c.lastSent else replay[k - 1].id
  {
    assert replay[..k + 1] == replay[..k] + [replay[k]];
  }

  lemma SendFewer(c: Conn, replay: seq<Event>, writes: nat, k: nat)
    requires k == Least(writes, |replay|)
    ensures Send(c, replay, writes) == Send(c, replay, k)
  {
  }

  datatype Signal = Done | Message | Ping

  /** The state of `workflowEvents` for one client. */
  class EventStream {
    const bus: EventBus
    const workflowId: string
    const after: int
    const subscription: int
    const channel: Channel
    var lastSent: int
    var output: seq<Event>
    var open: bool

    ghost predicate Valid()
      reads this, bus
    {
      bus.Valid() && workflowId != ""
    }

    ghost function Conn(): Conn
      reads this
    {
      Delivery.Conn(workflowId, after, lastSent, output)
    }

    /** Connects with the `Last-Event-ID` of the client; the connection takes `writes` events. */
    constructor (bus: EventBus, workflowId: string, after: nat, writes: nat)
      requires bus.Valid() && workflowId != ""
      modifies bus`subs, bus`nextSub
      ensures Valid() && this.bus == bus && this.workflowId == workflowId && this.after == after
      ensures fresh(channel) && bus.subs == old(bus.subs)[subscription := channel]
      ensures Conn() == Flush(Delivery.Conn(workflowId, after, after, []), bus.log, bus.max, writes)
      ensures open <==> writes >= |Since(Tail(bus.log, bus.max), workflowId, after)|
    {
      var id, replay, ch := bus.SubscribeReplay(workflowId, after, 1024);
      this.bus, this.workflowId, this.after := bus, workflowId, after;
      subscription, channel := id, ch;
      lastSent, output, open := after, [], true;
      new;
      hide *;
      open := SendAll(replay, writes);
      Connected(replay, writes);
    }

    lemma Connected(replay: seq<Event>, writes: nat)
      requires bus.Valid() && workflowId != "" && replay == Since(Tail(bus.log, bus.max), workflowId, after)
      requires Conn() == Send(Delivery.Conn(workflowId, after, after, []), replay, writes)
      ensures Valid() && Conn() == Flush(Delivery.Conn(workflowId, after, after, []), bus.log, bus.max, writes)
    {
    }

    method SendAll(replay: seq<Event>, writes: nat) returns (ok: bool)
      modifies this`lastSent, this`output
      ensures Conn() == Send(old(Conn()), replay, writes)
      ensures ok <==> writes >= |replay|
    {
      var k := 0;
      while k < |replay|
        invariant 0 <= k <= |replay| && k <= writes
        invariant Conn() == Send(old(Conn()), replay, k)
      {
        if k == writes { return false; }
        assert replay[..k + 1] == replay[..k] + [replay[k]];
        output := output + [replay[k]];
        lastSent := replay[k].id;
        k := k + 1;
      }
      return true;
    }

    /** `flushReplay`: the guard against repeats never has to skip anything. */
    method FlushReplay(writes: nat) returns (ok: bool)
      requires Valid()
      modifies this`lastSent, this`output
      ensures Valid() && Conn() == Flush(old(Conn()), bus.log, bus.max, writes)
      ensures ok <==> writes >= |Since(Tail(bus.log, bus.max), workflowId, old(lastSent))|
    {
      hide Since, Tail, Send, Numbered;
      var replay := bus.Replay(workflowId, lastSent);
      ReplayIncreasing(bus.log, bus.max, workflowId, lastSent);
      SendNone(Conn(), replay);
      var k := 0;
      while k < |replay|
        invariant 0 <= k <= |replay| && k <= writes
        invariant Conn() == Send(old(Conn()), replay, k)
      {
        SendNext(old(Conn()), replay, k);
        if k == writes { SendFewer(old(Conn()), replay, writes, k); return false; }
        if replay[k].id <= lastSent {
          assert false;
        }
        output := output + [replay[k]];
        lastSent := replay[k].id;
        k := k + 1;
      }
      SendFewer(old(Conn()), replay, writes, k);
      return true;
    }

    /** A pass of the loop: only pings and new events of the workflow lead to a flush. */
    method Select(signal: Signal, writes: nat)
      requires Valid() && channel in bus.subs.Values
      modifies this`lastSent, this`output, this`open, channel`queue
      ensures Valid()
      ensures Conn() == if Wakes(signal, old(channel.queue), workflowId, old(lastSent))
                        then Flush(old(Conn()), bus.log, bus.max, writes) else old(Conn())
      ensures old(Delivered(Conn(), bus.log)) && NothingLost(bus.log, bus.max, workflowId, old(lastSent)) ==>
                Delivered(Conn(), bus.log)
      ensures open ==
        if signal == Done then false
        else if Wakes(signal, old(channel.queue), workflowId, old(lastSent)) then
          writes >= |Since(Tail(bus.log, bus.max), workflowId, old(lastSent))|
        else old(open) && !(signal == Message && old(channel.queue) == [] && !channel.open)
      ensures channel.queue ==
        if signal == Message && old(channel.queue) != [] then old(channel.queue)[1..] else old(channel.queue)
    {
      ghost var before := Conn();
      match signal {
        case Done =>
          open := false;
        case Message =>
          if channel.queue == [] {
            if !channel.open { open := false; }
            return;
          }
          var event := channel.queue[0];
          channel.queue := channel.queue[1..];
          if event.workflowId != workflowId || event.id <= lastSent { return; }
          open := FlushReplay(writes);
        case Ping =>
          open := FlushReplay(writes);
      }
      if Delivered(before, bus.log) && NothingLost(bus.log, bus.max, workflowId, before.lastSent) {
        FlushDelivers(before, bus.log, bus.max, writes);
      }
    }
  }

  /** A ping, or an event of the workflow that has not been sent yet. */
  predicate Wakes(signal: Signal, queue: seq<Event>, workflowId: string, lastSent: int) {
    signal == Ping || (signal == Message && queue != [] && queue[0].workflowId == workflowId && queue[0].id > lastSent)
  }
}
