/** When leases end and when waiting tasks wake: what the clock decides. */
module StoreTiming {
  import opened Graph
  import opened Runtime
  import opened Recompute
  import opened StoreModel
  import opened StoreInvariant
  import opened StoreOperations
  import StoreBudget

  // Expiry

  function One(b: bool): nat {
    if b then 1 else 0
  }

  /** The lease of a task has run out at `now`, and its token is among those visited. */
  ghost predicate Overdue(s: StoreState, tokens: seq<string>, i: string, t: string, now: Time)
    requires HasTask(s, i, t)
  {
    var k := TaskAt(s, i, t).leaseToken;
    k in tokens && k in s.leases && s.leases[k].workflowId == i && s.leases[k].taskId == t
        && s.leases[k].expiresAt <= now
  }

  /** The record of a task after its lease was taken back. */
  function HandedBack(rt: TaskRuntime): TaskRuntime {
    rt.(state := Ready, leaseToken := "", leaseOwner := "", leaseUntil := None, startedAt := None)
  }

  /** Exactly the visited leases that have run out are gone, their tasks are ready, and each is reported once. */
  ghost predicate Closed(s: StoreState, s': StoreState, tokens: seq<string>, now: Time) {
    && (forall k :: k in s'.leases <==> k in s.leases && !(k in tokens && s.leases[k].expiresAt <= now))
    && (forall k :: k in s'.leases ==> s'.leases[k] == s.leases[k])
    && (forall i, t :: HasTask(s', i, t) <==> HasTask(s, i, t))
    && (forall i, t :: HasTask(s, i, t) ==>
          && TaskAt(s', i, t) == (if Overdue(s, tokens, i, t, now) then HandedBack(TaskAt(s, i, t))
              else TaskAt(s, i, t))
          && StoreBudget.Tally(s'.log, LeaseExpired, i, t)
             == StoreBudget.Tally(s.log, LeaseExpired, i, t) + One(Overdue(s, tokens, i, t, now)))
  }

  /** One lease is taken back. */
  lemma ExpireOne(s: StoreState, token: string, now: Time, i: string, t: string)
    requires Inv(s) && token in s.leases && HasTask(s, i, t)
    ensures
      var s' := Expire(s, token, now);
      var hit := s.leases[token].workflowId == i && s.leases[token].taskId == t;
      && s'.leases == s.leases - {token}
      && (forall j, u :: HasTask(s', j, u) <==> HasTask(s, j, u))
      && HasTask(s', i, t)
      && TaskAt(s', i, t) == (if hit then HandedBack(TaskAt(s, i, t)) else TaskAt(s, i, t))
      && StoreBudget.Tally(s'.log, LeaseExpired, i, t)
         == StoreBudget.Tally(s.log, LeaseExpired, i, t) + One(hit)
      && (hit <==> TaskAt(s, i, t).leaseToken == token)
  {
    hide FlowOk, Expire, WorkerCounts;
    ExpireShape(s, token, now);
    LastTally(s.log, Event(LeaseExpired, s.leases[token].workflowId, s.leases[token].taskId, s.leases[token].workerId,
        now), i, t);
    assert TaskLinked(s, i, t, TaskAt(s, i, t));
  }

  lemma LastTally(log: seq<Event>, e: Event, i: string, t: string)
    requires e.kind == LeaseExpired
    ensures StoreBudget.Tally(log + [e], LeaseExpired, i, t)
         == StoreBudget.Tally(log, LeaseExpired, i, t) + if e.workflowId == i && e.taskId == t then 1 else 0
  {
    assert (log + [e])[..|log + [e]| - 1] == log;
  }

  lemma {:induction false} ExpireDueCloses(s: StoreState, tokens: seq<string>, now: Time)
    requires Inv(s) && NoDup(tokens)
    ensures Closed(s, ExpireDue(s, tokens, now), tokens, now)
  {
    hide Inv, Expire, StoreBudget.Tally, HandedBack;
    if tokens != [] {
      var init, k := tokens[..|tokens| - 1], tokens[|tokens| - 1];
      ExpireDueCloses(s, init, now);
      ExpireDueKeepsInv(s, init, now);
      assert k !in init;
      assert forall j :: j in tokens <==> j in init || j == k;
      ClosedNext(s, ExpireDue(s, init, now), init, k, tokens, now);
    }
  }

  lemma ClosedNext(s: StoreState, s1: StoreState, init: seq<string>, k: string, tokens: seq<string>, now: Time)
    requires Inv(s1) && Closed(s, s1, init, now) && k !in init && (forall j :: j in tokens <==> j in init || j == k)
    requires Inv(s)
    ensures Closed(s, if k in s1.leases && now >= s1.leases[k].expiresAt then Expire(s1, k, now) else s1, tokens, now)
  {
    hide Inv, Expire, StoreBudget.Tally, HandedBack;
    if k in s1.leases && now >= s1.leases[k].expiresAt {
      LeaseKnown(s1, k);
      ExpireOne(s1, k, now, s1.leases[k].workflowId, s1.leases[k].taskId);
      forall i, t | HasTask(s, i, t)
        ensures HasTask(s1, i, t) && NextTask(s, s1, Expire(s1, k, now), tokens, now, i, t)
      {
        ExpireOne(s1, k, now, i, t);
        LeaseKnown(s, k);
        NamedOnce(s, k, i, t);
      }
    } else {
      forall i, t | HasTask(s, i, t) ensures NextTask(s, s1, s1, tokens, now, i, t) {
        if Overdue(s, tokens, i, t, now) { assert Overdue(s, init, i, t, now); }
      }
    }
  }

  /** The clause of `Closed` about one task. */
  ghost predicate NextTask(s: StoreState, s1: StoreState, s': StoreState, tokens: seq<string>, now: Time, i: string,
      t: string)
    requires HasTask(s, i, t)
  {
    && HasTask(s', i, t)
    && TaskAt(s', i, t) == (if Overdue(s, tokens, i, t, now) then HandedBack(TaskAt(s, i, t)) else TaskAt(s, i, t))
    && StoreBudget.Tally(s'.log, LeaseExpired, i, t)
       == StoreBudget.Tally(s.log, LeaseExpired, i, t) + One(Overdue(s, tokens, i, t, now))
  }

  lemma LeaseKnown(s: StoreState, k: string)
    requires Inv(s) && k in s.leases
    ensures HasTask(s, s.leases[k].workflowId, s.leases[k].taskId)
    ensures TaskAt(s, s.leases[k].workflowId, s.leases[k].taskId).leaseToken == k
  {
    assert LeaseLinked(s, k);
  }

  /** A task carries the token of a lease exactly if the lease names it. */
  lemma NamedOnce(s: StoreState, k: string, i: string, t: string)
    requires Inv(s) && k in s.leases && HasTask(s, i, t)
    ensures TaskAt(s, i, t).leaseToken == k <==> s.leases[k].workflowId == i && s.leases[k].taskId == t
  {
    assert LeaseLinked(s, k) && TaskLinked(s, i, t, TaskAt(s, i, t));
  }

  // Sweeping

  /** A pass leaves a task alone that is neither pending nor waiting. */
  lemma PassLeaves(w: Snapshot, now: Time, t: string)
    requires Shape(w) && t in w.runtime && !w.runtime[t].state.Pending? && !w.runtime[t].state.RetryWait?
    ensures t in Recomputed(w, now).runtime && Recomputed(w, now).runtime[t] == w.runtime[t]
  {
    hide StepTasks, Topological;
    if !TerminalWorkflow(w.state) { PassRule(w, now, t); }
  }

  lemma PassKeys(w: Snapshot, now: Time)
    ensures Recomputed(w, now).runtime.Keys == w.runtime.Keys && Recomputed(w, now).tasks == w.tasks
  {
  }

  /** Every workflow that is visited is recomputed once; nothing else changes. */
  lemma {:induction false} RecomputeAllAt(s: StoreState, ids: seq<string>, now: Time)
    requires NoDup(ids)
    ensures
      var s' := RecomputeAll(s, ids, now);
      && s'.workflows.Keys == s.workflows.Keys && s'.leases == s.leases && s'.workers == s.workers
      && (forall i :: i in s.workflows ==>
            s'.workflows[i] == if i in ids then Recomputed(s.workflows[i], now) else s.workflows[i])
      && forall i, t :: StoreBudget.Tally(s'.log, LeaseExpired, i, t) == StoreBudget.Tally(s.log, LeaseExpired, i, t)
  {
    hide Recomputed, TerminalEvents, StoreBudget.Tally;
    if ids != [] {
      var init, id := ids[..|ids| - 1], ids[|ids| - 1];
      RecomputeAllAt(s, init, now);
      var s1 := RecomputeAll(s, init, now);
      assert id !in init && forall i :: i in ids <==> i in init || i == id;
      if id in s1.workflows {
        var w := Recomputed(s1.workflows[id], now);
        forall i, t ensures StoreBudget.Tally(RecomputeOne(s1, id, now).log, LeaseExpired, i, t)
                         == StoreBudget.Tally(s1.log, LeaseExpired, i, t) {
          NeutralTally(s1.log, TerminalEvents(w, s1.workflows[id].state, now), i, t);
          TerminalOnly(w, s1.workflows[id].state, now);
        }
      }
    }
  }

  lemma NeutralTally(log: seq<Event>, events: seq<Event>, i: string, t: string)
    ensures (forall k :: 0 <= k < |events| ==> events[k].kind != LeaseExpired) ==>
      StoreBudget.Tally(log + events, LeaseExpired, i, t) == StoreBudget.Tally(log, LeaseExpired, i, t)
  {
    StoreBudget.TallyConcat(log, events, LeaseExpired, i, t);
    if forall k :: 0 <= k < |events| ==> events[k].kind != LeaseExpired { NoTally(events, i, t); }
  }

  lemma {:induction false} NoTally(events: seq<Event>, i: string, t: string)
    requires forall k :: 0 <= k < |events| ==> events[k].kind != LeaseExpired
    ensures StoreBudget.Tally(events, LeaseExpired, i, t) == 0
  {
    if events != [] { NoTally(events[..|events| - 1], i, t); }
  }

  lemma TerminalOnly(w: Snapshot, before: WorkflowState, now: Time)
    ensures
        forall k :: 0 <= k < |TerminalEvents(w, before, now)| ==> TerminalEvents(w, before, now)[k].kind != LeaseExpired
  {
  }

  /** A task of a lease that has run out. */
  ghost predicate RunOut(s: StoreState, i: string, t: string, now: Time) {
    exists k :: k in s.leases && s.leases[k].workflowId == i && s.leases[k].taskId == t && s.leases[k].expiresAt <= now
  }

  /** A lease that has run out is closed; any other is kept, and so is the record of its task. */
  ghost predicate LeaseAt(s: StoreState, s': StoreState, now: Time, k: string)
    requires k in s.leases
  {
    var i, t := s.leases[k].workflowId, s.leases[k].taskId;
    && (k in s'.leases <==> now < s.leases[k].expiresAt)
    && HasTask(s, i, t) && HasTask(s', i, t)
    && (k in s'.leases ==> s'.leases[k] == s.leases[k] && TaskAt(s', i, t) == TaskAt(s, i, t))
  }

  /** An expiry is reported for a task exactly if its lease has run out. */
  ghost predicate ReportedAt(s: StoreState, s': StoreState, now: Time, i: string, t: string) {
    && HasTask(s', i, t)
    && StoreBudget.Tally(s'.log, LeaseExpired, i, t)
       == StoreBudget.Tally(s.log, LeaseExpired, i, t) + One(RunOut(s, i, t, now))
  }

  /** What the clock does to leases: at `now` those that have run out are closed, and all others are left alone. */
  ghost predicate LeasesAt(s: StoreState, s': StoreState, now: Time) {
    && (forall k :: k in s.leases ==> LeaseAt(s, s', now, k))
    && (forall i, t :: HasTask(s, i, t) ==> ReportedAt(s, s', now, i, t))
  }

  lemma OverdueIsRunOut(s: StoreState, tokens: seq<string>, i: string, t: string, now: Time)
    requires Inv(s) && HasTask(s, i, t) && forall k :: k in s.leases ==> k in tokens
    ensures Overdue(s, tokens, i, t, now) <==> RunOut(s, i, t, now)
  {
    hide Inv;
    if k :| k in s.leases && s.leases[k].workflowId == i && s.leases[k].taskId == t && s.leases[k].expiresAt <= now {
      NamedOnce(s, k, i, t);
    }
  }

  lemma LeasedState(s: StoreState, k: string)
    requires Inv(s) && k in s.leases
    ensures
      var i, t := s.leases[k].workflowId, s.leases[k].taskId;
      HasTask(s, i, t) && HoldsLease(TaskAt(s, i, t).state) && Shape(s.workflows[i])
  {
    assert LeaseLinked(s, k);
    WorkflowShaped(s, s.leases[k].workflowId);
  }

  /** A sweep closes exactly the leases that have run out, hands their tasks back as ready, reports each of them once,
      and leaves every other lease and its task alone. */
  lemma SweepCloses(s: StoreState, tokens: seq<string>, ids: seq<string>, now: Time)
    requires Inv(s) && Enumerates(tokens, s.leases.Keys) && NoDup(ids)
    ensures
      var s' := Sweep(s, tokens, ids, now);
      && (forall k :: k in s'.leases <==> k in s.leases && now < s.leases[k].expiresAt)
      && LeasesAt(s, s', now)
      && forall k :: k in s.leases && s.leases[k].expiresAt <= now ==>
           var i, t := s.leases[k].workflowId, s.leases[k].taskId;
           HasTask(s, i, t) && HasTask(s', i, t) && TaskAt(s', i, t) == HandedBack(TaskAt(s, i, t))
  {
    hide Inv, Recomputed, RecomputeAll, ExpireDue, Shape, Closed, LeaseAt, ReportedAt, HasTask;
    forall k | k in s.leases ensures k in tokens { assert k in Elements(tokens); }
    ExpireDueCloses(s, tokens, now);
    ExpireDueKeepsInv(s, tokens, now);
    var s1 := ExpireDue(s, tokens, now);
    RecomputeAllAt(s1, ids, now);
    var s' := Sweep(s, tokens, ids, now);
    ClosedLeases(s, s1, tokens, now);
    forall i, t | HasTask(s, i, t) ensures ReportedAt(s, s', now, i, t) {
      ReportedOnce(s, s1, s', tokens, ids, now, i, t);
    }
    forall k | k in s.leases
      ensures
        var i, t := s.leases[k].workflowId, s.leases[k].taskId;
        && LeaseAt(s, s', now, k)
        && (s.leases[k].expiresAt <= now ==>
              HasTask(s, i, t) && HasTask(s', i, t) && TaskAt(s', i, t) == HandedBack(TaskAt(s, i, t)))
    {
      SweptTask(s, s1, s', tokens, ids, now, k);
      SweptLease(s, s', now, k);
    }
  }

  lemma ClosedLeases(s: StoreState, s1: StoreState, tokens: seq<string>, now: Time)
    requires Closed(s, s1, tokens, now) && forall k :: k in s.leases ==> k in tokens
    ensures forall k :: k in s1.leases <==> k in s.leases && now < s.leases[k].expiresAt
    ensures forall k :: k in s1.leases ==> s1.leases[k] == s.leases[k]
  {
    hide StoreBudget.Tally, Overdue;
  }

  lemma SweptLease(s: StoreState, s': StoreState, now: Time, k: string)
    requires k in s.leases && (k in s'.leases <==> now < s.leases[k].expiresAt)
    requires k in s'.leases ==> s'.leases[k] == s.leases[k]
    requires
      var i, t := s.leases[k].workflowId, s.leases[k].taskId;
      && HasTask(s, i, t) && HasTask(s', i, t)
      && TaskAt(s', i, t) == if s.leases[k].expiresAt <= now then HandedBack(TaskAt(s, i, t)) else TaskAt(s, i, t)
    ensures LeaseAt(s, s', now, k)
  {
  }

  lemma ReportedOnce(s: StoreState, s1: StoreState, s': StoreState, tokens: seq<string>, ids: seq<string>, now: Time,
                     i: string, t: string)
    requires Inv(s) && Closed(s, s1, tokens, now) && HasTask(s, i, t) && forall k :: k in s.leases ==> k in tokens
    requires s'.workflows.Keys == s1.workflows.Keys
    requires StoreBudget.Tally(s'.log, LeaseExpired, i, t) == StoreBudget.Tally(s1.log, LeaseExpired, i, t)
    requires
      forall j :: j in s1.workflows ==>
        s'.workflows[j] == if j in ids then Recomputed(s1.workflows[j], now) else s1.workflows[j]
    ensures ReportedAt(s, s', now, i, t)
  {
    hide Inv, StoreBudget.Tally, Recomputed, Overdue, RunOut, HandedBack;
    OverdueIsRunOut(s, tokens, i, t, now);
    assert HasTask(s1, i, t);
    PassKeys(s1.workflows[i], now);
  }

  lemma SweptTask(s: StoreState, s1: StoreState, s': StoreState, tokens: seq<string>, ids: seq<string>, now: Time,
      k: string)
    requires Inv(s) && Inv(s1) && Closed(s, s1, tokens, now) && k in s.leases && k in tokens
    requires s'.workflows.Keys == s1.workflows.Keys
    requires
      forall i :: i in s1.workflows ==>
        s'.workflows[i] == if i in ids then Recomputed(s1.workflows[i], now) else s1.workflows[i]
    ensures
      var i, t := s.leases[k].workflowId, s.leases[k].taskId;
      && HasTask(s, i, t) && HasTask(s', i, t)
      && TaskAt(s', i, t) == if s.leases[k].expiresAt <= now then HandedBack(TaskAt(s, i, t)) else TaskAt(s, i, t)
  {
    hide Inv, StoreBudget.Tally, Recomputed, Shape;
    var i, t := s.leases[k].workflowId, s.leases[k].taskId;
    LeasedState(s, k);
    NamedOnce(s, k, i, t);
    WorkflowShaped(s1, i);
    PassKeys(s1.workflows[i], now);
    PassLeaves(s1.workflows[i], now, t);
  }

  // Polling

  /** What a scan does to leases: at most it adds the one it grants. */
  ghost predicate Scanned(s: StoreState, r: (StoreState, Outcome), token: string) {
    && (if r.1.Granted? then r.1.lease.token == token && r.0.leases == s.leases[token := r.1.lease]
        else r.0.leases == s.leases)
    && (forall i, t :: HasTask(s, i, t) ==>
          && HasTask(r.0, i, t)
          && (HoldsLease(TaskAt(s, i, t).state) ==> TaskAt(r.0, i, t) == TaskAt(s, i, t))
          && StoreBudget.Tally(r.0.log, LeaseExpired, i, t) == StoreBudget.Tally(s.log, LeaseExpired, i, t))
  }

  lemma SilentScanned(s: StoreState, id: string, now: Time, r: (StoreState, Outcome), token: string)
    requires Inv(s) && id in s.workflows && Scanned(WithWorkflow(s, id, Recomputed(s.workflows[id], now)), r, token)
    ensures Scanned(s, r, token)
  {
    hide Inv, StoreBudget.Tally, Recomputed, Shape;
    var s1 := WithWorkflow(s, id, Recomputed(s.workflows[id], now));
    WorkflowShaped(s, id);
    PassKeys(s.workflows[id], now);
    forall i, t | HasTask(s, i, t)
      ensures HasTask(s1, i, t) && (HoldsLease(TaskAt(s, i, t).state) ==> TaskAt(s1, i, t) == TaskAt(s, i, t))
    {
      if i == id && HoldsLease(TaskAt(s, i, t).state) { PassLeaves(s.workflows[id], now, t); }
    }
  }

  lemma GrantScanned(s: StoreState, i: string, t: string, workerId: string, now: Time, token: string)
    requires HasTask(s, i, t) && t in s.workflows[i].tasks && workerId in s.workers && TaskAt(s, i, t).state == Ready
    ensures Scanned(s, Grant(s, i, t, workerId, now, token), token)
  {
    var s' := Grant(s, i, t, workerId, now, token).0;
    forall j, u | HasTask(s, j, u)
      ensures StoreBudget.Tally(s'.log, LeaseExpired, j, u) == StoreBudget.Tally(s.log, LeaseExpired, j, u)
    {
      NeutralTally(s.log, [Event(TaskLeased, i, t, workerId, now)], j, u);
    }
  }

  lemma {:induction false} ScanScans(s: StoreState, candidates: seq<string>, workerId: string, now: Time, token: string)
    requires Inv(s) && workerId in s.workers
    ensures Scanned(s, Scan(s, candidates, workerId, now, token), token)
    decreases |candidates|
  {
    hide Inv, Grant, Recomputed, Offered, Scanned;
    if candidates == [] {
      NothingScanned(s, token);
    } else if candidates[0] !in s.workflows {
      ScanScans(s, candidates[1..], workerId, now, token);
    } else {
      var id := candidates[0];
      var w := Recomputed(s.workflows[id], now);
      var s1 := WithWorkflow(s, id, w);
      SilentRecomputeKeepsInv(s, id, now);
      FirstOfferedIs(w, s.workers[workerId].labels, 0);
      match FirstOffered(w, s.workers[workerId].labels, 0)
      case Some(t) =>
        OfferedIs(w, s.workers[workerId].labels, t);
        GrantScanned(s1, id, t, workerId, now, token);
        SilentScanned(s, id, now, Scan(s, candidates, workerId, now, token), token);
      case None =>
        ScanScans(s1, candidates[1..], workerId, now, token);
        SilentScanned(s, id, now, Scan(s, candidates, workerId, now, token), token);
    }
  }

  lemma NothingScanned(s: StoreState, token: string)
    ensures Scanned(s, (s, NothingToDo), token) && Scanned(s, (s, WorkerNotFound), token)
    ensures Scanned(s, (s, HeartbeatExpired), token)
  {
  }

  /** A poll closes exactly the leases that have run out, and adds at most the one it grants. */
  lemma PollCloses(s: StoreState, workerId: string, now: Time, token: string,
                   tokens: seq<string>, sweepIds: seq<string>, scanIds: seq<string>)
    requires Inv(s) && Enumerates(tokens, s.leases.Keys) && NoDup(sweepIds) && token !in s.leases
    ensures
      var (s', outcome) := LeaseNext(s, workerId, now, token, tokens, sweepIds, scanIds);
      && (forall k :: k in s'.leases <==>
            (k in s.leases && now < s.leases[k].expiresAt) || (k == token && outcome.Granted?))
      && (outcome.Granted? ==> outcome.lease.token == token && s'.leases[token] == outcome.lease)
      && LeasesAt(s, s', now)
  {
    hide Inv, Scan, Sweep, Scanned, LeasesAt;
    SweepCloses(s, tokens, sweepIds, now);
    SweepKeepsInv(s, tokens, sweepIds, now);
    var s1 := Sweep(s, tokens, sweepIds, now);
    NothingScanned(s1, token);
    if workerId in s1.workers { ScanScans(s1, Candidates(s1, scanIds), workerId, now, token); }
    ScannedLeases(s, s1, LeaseNext(s, workerId, now, token, tokens, sweepIds, scanIds), token, now);
  }

  lemma ScannedLeases(s: StoreState, s1: StoreState, r: (StoreState, Outcome), token: string, now: Time)
    requires Inv(s) && Inv(s1) && LeasesAt(s, s1, now) && Scanned(s1, r, token) && token !in s.leases
    requires forall k :: k in s1.leases <==> k in s.leases && now < s.leases[k].expiresAt
    ensures LeasesAt(s, r.0, now)
    ensures
        forall k :: k in r.0.leases <==> (k in s.leases && now < s.leases[k].expiresAt) || (k == token && r.1.Granted?)
    ensures r.1.Granted? ==> r.1.lease.token == token && r.0.leases[token] == r.1.lease
  {
    hide Inv, StoreBudget.Tally, RunOut, LeaseAt, ReportedAt, Scanned;
    ScannedMeans(s1, r, token);
    forall k | k in s.leases ensures LeaseAt(s, r.0, now, k) { ScannedLease(s, s1, r, token, now, k); }
    forall i, t | HasTask(s, i, t) ensures ReportedAt(s, r.0, now, i, t) {
      assert ReportedAt(s, s1, now, i, t);
      ScannedReport(s, s1, r, token, now, i, t);
    }
  }

  lemma ScannedMeans(s: StoreState, r: (StoreState, Outcome), token: string)
    requires Scanned(s, r, token)
    ensures
      if r.1.Granted? then r.1.lease.token == token && r.0.leases == s.leases[token := r.1.lease]
      else r.0.leases == s.leases
  {
  }

  lemma ScannedLease(s: StoreState, s1: StoreState, r: (StoreState, Outcome), token: string, now: Time, k: string)
    requires Inv(s) && k in s.leases && LeaseAt(s, s1, now, k) && Scanned(s1, r, token) && token !in s.leases
    ensures LeaseAt(s, r.0, now, k)
  {
    hide Inv, StoreBudget.Tally;
    LeasedState(s, k);
  }

  lemma ScannedReport(s: StoreState, s1: StoreState, r: (StoreState, Outcome), token: string, now: Time, i: string,
      t: string)
    requires ReportedAt(s, s1, now, i, t) && Scanned(s1, r, token)
    ensures ReportedAt(s, r.0, now, i, t)
  {
    hide StoreBudget.Tally, RunOut;
  }
}
