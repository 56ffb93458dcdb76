/** Every operation of the coordinator keeps the store invariant. */
module StoreOperations {
  import opened Graph
  import opened WorkflowSpec
  import opened Runtime
  import opened Recompute
  import opened StoreModel
  import opened StoreInvariant

  /** Rewriting an unfinished task without touching its lease. */
  lemma MoveKeepsInv(s: StoreState, i: string, t: string, rt: TaskRuntime)
    requires Inv(s) && HasTask(s, i, t) && ActiveTask(TaskAt(s, i, t).state) && ActiveTask(rt.state)
    requires SameLease(TaskAt(s, i, t), rt)
    ensures Inv(WithTask(s, i, t, rt))
  {
    hide FlowOk, LeasesLinked, TasksLinked, WorkerCounts;
    var w := s.workflows[i];
    ActiveMoveFlow(w, t, rt);
    assert SameLeases(w, Put(w, t, rt));
    ReplaceKeepsInv(s, i, Put(w, t, rt));
    assert WithWorkflow(s, i, Put(w, t, rt)) == WithTask(s, i, t, rt);
  }

  lemma GuardKeepsInv(s: StoreState, token: string, now: Time)
    requires Inv(s)
    ensures Guard(s, token, now).Some? ==> Inv(Guard(s, token, now).value.0)
    ensures Guard(s, token, now).None? ==> token in s.leases && LeaseLinked(s, token)
  {
    hide Expire, FlowOk, TasksLinked, WorkerCounts, Flows, LeaseFields;
    if token in s.leases { ExpireKeepsInv(s, token, now); }
  }

  lemma StartKeepsInv(s: StoreState, token: string, now: Time)
    requires Inv(s)
    ensures Inv(StartLease(s, token, now).0)
  {
    hide Inv, Expire;
    GuardKeepsInv(s, token, now);
    if Guard(s, token, now).None? {
      var l := s.leases[token];
      var rt := TaskAt(s, l.workflowId, l.taskId);
      if rt.state == Leased {
        var rt' := Transition(rt, Running).(startedAt := Some(now));
        MoveKeepsInv(s, l.workflowId, l.taskId, rt');
        PublishKeepsInv(WithTask(s, l.workflowId, l.taskId, rt'),
            [Event(TaskStarted, l.workflowId, l.taskId, l.workerId, now)]);
      }
    }
  }

  lemma LogKeepsInv(s: StoreState, token: string, stream: string, text: string, now: Time)
    requires Inv(s)
    ensures Inv(AppendLog(s, token, stream, text, now).0)
  {
    hide Inv, Expire;
    GuardKeepsInv(s, token, now);
    if Guard(s, token, now).None? {
      var l := s.leases[token];
      var rt := TaskAt(s, l.workflowId, l.taskId);
      var rt' := rt.(outputBytes := rt.outputBytes + Utf8Length(text));
      MoveKeepsInv(s, l.workflowId, l.taskId, rt');
      PublishKeepsInv(WithTask(s, l.workflowId, l.taskId, rt'),
          [Event(TaskLog, l.workflowId, l.taskId, l.workerId, now)]);
    }
  }

  /** The new expiry is written to both the lease and the task. */
  ghost function Renewed(s: StoreState, token: string, until: Time): StoreState
    requires token in s.leases && LeaseLinked(s, token)
  {
    var l := s.leases[token];
    WithTask(s.(leases := s.leases[token := l.(expiresAt := until)]), l.workflowId, l.taskId,
             TaskAt(s, l.workflowId, l.taskId).(leaseUntil := Some(until)))
  }

  lemma RenewedLinks(s: StoreState, token: string, until: Time)
    requires LeasesLinked(s) && TasksLinked(s) && token in s.leases && LeaseLinked(s, token)
    ensures LeasesLinked(Renewed(s, token, until)) && TasksLinked(Renewed(s, token, until))
  {
    var s' := Renewed(s, token, until);
    var l := s.leases[token];
    forall t | t in s'.leases ensures LeaseLinked(s', t) {
      assert LeaseLinked(s, t);
    }
    forall i, t | HasTask(s', i, t) ensures TaskLinked(s', i, t, TaskAt(s', i, t)) {
      assert HasTask(s, i, t) && TaskLinked(s, i, t, TaskAt(s, i, t));
    }
  }

  lemma RenewedRest(s: StoreState, token: string, until: Time)
    requires WorkerCounts(s) && Flows(s) && token in s.leases && LeaseLinked(s, token)
    ensures WorkerCounts(Renewed(s, token, until)) && Flows(Renewed(s, token, until))
  {
    hide FlowOk;
    var s' := Renewed(s, token, until);
    var l := s.leases[token];
    forall k | k in s'.workers
      ensures s'.workers[k].id == k && s'.workers[k].activeLeases == |HeldBy(s'.leases, k)| <= s'.workers[k].capacity
    {
      assert HeldBy(s'.leases, k) == HeldBy(s.leases, k);
    }
    ActiveMoveFlow(s.workflows[l.workflowId], l.taskId, TaskAt(s, l.workflowId, l.taskId).(leaseUntil := Some(until)));
    assert s'.workflows == s.workflows[l.workflowId := Put(s.workflows[l.workflowId], l.taskId,
        TaskAt(s, l.workflowId, l.taskId).(leaseUntil := Some(until)))];
  }

  lemma RenewKeepsInv(s: StoreState, token: string, now: Time)
    requires Inv(s)
    ensures Inv(RenewLease(s, token, now).0)
  {
    GuardKeepsInv(s, token, now);
    if Guard(s, token, now).None? {
      RenewedLinks(s, token, now + LEASE_DURATION);
      RenewedRest(s, token, now + LEASE_DURATION);
      assert RenewLease(s, token, now).0 == Renewed(s, token, now + LEASE_DURATION);
    }
  }

  // CompleteLease

  /** The workflow of a completed task, before and after `Recompute`. */
  lemma EndedFlow(w: Snapshot, t: string, rt: TaskRuntime, now: Time)
    requires FlowOk(w) && t in w.runtime && HoldsLease(w.runtime[t].state) && rt.state in {Succeeded, RetryWait, Failed}
    ensures Shape(Put(w, t, rt)) && !TerminalWorkflow(w.state)
    ensures FlowOk(Recomputed(Put(w, t, rt), now)) && Recomputed(Put(w, t, rt), now).id == w.id
  {
    assert !AllTerminal(w);
    PutKeepsDeps(w, t, rt);
    RecomputedFlow(Put(w, t, rt), now);
  }

  lemma CompletedInv(s: StoreState, token: string, rt: TaskRuntime, now: Time)
    requires Inv(s) && token in s.leases && LeaseLinked(s, token)
    requires rt.state in {Succeeded, RetryWait, Failed} && rt.leaseToken == "" && rt.leaseOwner == ""
        && rt.leaseUntil == None
    ensures Inv(AfterCompletion(s, token, rt, now))
  {
    hide FlowOk, Recomputed, WorkerCounts, LeasesLinked, TasksLinked;
    var l := s.leases[token];
    var s1 := Released(s, token, rt);
    var w1 := s1.workflows[l.workflowId];
    assert w1 == Put(s.workflows[l.workflowId], l.taskId, rt);
    ReleasedLinks(s, token, rt);
    EndedFlow(s.workflows[l.workflowId], l.taskId, rt, now);
    RecomputedSameLeases(w1, now);
    ReplaceKeepsLinks(s1, l.workflowId, Recomputed(w1, now));
    CompletedRest(s, token, rt, now);
  }

  lemma CompletedRest(s: StoreState, token: string, rt: TaskRuntime, now: Time)
    requires WorkerCounts(s) && Flows(s) && token in s.leases && LeaseLinked(s, token)
    requires FlowOk(Recomputed(Put(s.workflows[s.leases[token].workflowId], s.leases[token].taskId, rt), now))
    requires Recomputed(Put(s.workflows[s.leases[token].workflowId], s.leases[token].taskId, rt), now).id
        == s.leases[token].workflowId
    ensures
      var l := s.leases[token];
      var s1 := Released(s, token, rt);
      var s2 := WithWorkflow(s1, l.workflowId, Recomputed(s1.workflows[l.workflowId], now));
      WorkerCounts(s2) && Flows(s2)
  {
    hide FlowOk, Recomputed;
    ReleasedCounts(s, token);
    var l := s.leases[token];
    var s1 := Released(s, token, rt);
    var s2 := WithWorkflow(s1, l.workflowId, Recomputed(s1.workflows[l.workflowId], now));
    assert s2.workers == WithoutLease(s, token).workers && s2.leases == WithoutLease(s, token).leases;
    assert WorkerCounts(s2);
  }

  lemma LeasedTaskKnown(s: StoreState, token: string)
    requires Inv(s) && token in s.leases && LeaseLinked(s, token)
    ensures
      var w := s.workflows[s.leases[token].workflowId];
      w.id == s.leases[token].workflowId && s.leases[token].taskId in w.tasks && Shape(w)
  {
    assert Healthy(s.workflows[s.leases[token].workflowId]);
  }

  /** The record of the task of a live lease once it completes, and the event reporting it. */
  ghost function Ended(s: StoreState, token: string, exitCode: int, error: string, now: Time): (TaskRuntime, EventKind)
    requires token in s.leases && LeaseLinked(s, token)
        && s.leases[token].taskId in s.workflows[s.leases[token].workflowId].tasks
  {
    var l := s.leases[token];
    var rt := TaskAt(s, l.workflowId, l.taskId);
    Finish(s.workflows[l.workflowId].tasks[l.taskId],
           if rt.state == Leased then Transition(rt, Running).(startedAt := Some(now)) else rt, exitCode, error, now)
  }

  lemma EndedIs(s: StoreState, token: string, exitCode: int, error: string, now: Time)
    requires token in s.leases && LeaseLinked(s, token)
        && s.leases[token].taskId in s.workflows[s.leases[token].workflowId].tasks
    ensures
      var rt := Ended(s, token, exitCode, error, now).0;
      rt.state in {Succeeded, RetryWait, Failed} && rt.leaseToken == "" && rt.leaseOwner == "" && rt.leaseUntil == None
  {
  }

  /** An accepted completion releases the lease, recomputes the workflow and publishes `CompletionEvents`. */
  ghost function AfterCompletion(s: StoreState, token: string, rt: TaskRuntime, now: Time): StoreState
    requires token in s.leases && LeaseLinked(s, token)
  {
    var l := s.leases[token];
    var s1 := Released(s, token, rt);
    WithWorkflow(s1, l.workflowId, Recomputed(s1.workflows[l.workflowId], now))
  }

  ghost function CompletionEvents(s: StoreState, token: string, rt: TaskRuntime, kind: EventKind, now: Time): seq<Event>
    requires token in s.leases && LeaseLinked(s, token)
  {
    var l := s.leases[token];
    var w := AfterCompletion(s, token, rt, now).workflows[l.workflowId];
    [Event(kind, l.workflowId, l.taskId, l.workerId, now)]
    + TerminalEvents(w, s.workflows[l.workflowId].state, now) + ReadyEvents(w, |w.order|, now)
  }

  lemma CompleteShape(s: StoreState, token: string, exitCode: int, error: string, now: Time)
    requires Inv(s) && Guard(s, token, now).None? && token in s.leases && LeaseLinked(s, token)
    ensures s.leases[token].taskId in s.workflows[s.leases[token].workflowId].tasks
    ensures
      var (rt, kind) := Ended(s, token, exitCode, error, now);
      CompleteLease(s, token, exitCode, error, now)
        == (Publish(AfterCompletion(s, token, rt, now), CompletionEvents(s, token, rt, kind, now)), Done)
  {
    hide Inv, Shape, FlowOk, CompleteLease, Ended, AfterCompletion, CompletionEvents, Publish, RecomputeOne, Released,
        ReadyEvents;
    LeasedTaskKnown(s, token);
    var (rt, kind) := Ended(s, token, exitCode, error, now);
    CompleteUnfolded(s, token, exitCode, error, now);
    CompletionPublished(s, token, rt, kind, now);
  }

  lemma CompletionPublished(s: StoreState, token: string, rt: TaskRuntime, kind: EventKind, now: Time)
    requires token in s.leases && LeaseLinked(s, token)
    ensures
      var l := s.leases[token];
      var s2 := RecomputeOne(Publish(Released(s, token, rt), [Event(kind, l.workflowId, l.taskId, l.workerId, now)]),
          l.workflowId, now);
      Publish(s2, ReadyEvents(s2.workflows[l.workflowId], |s2.workflows[l.workflowId].order|, now))
        == Publish(AfterCompletion(s, token, rt, now), CompletionEvents(s, token, rt, kind, now))
  {
    hide Recomputed, TerminalEvents, ReadyEvents, FreeSlot;
    var l := s.leases[token];
    var s1 := Released(s, token, rt);
    var w := Recomputed(s1.workflows[l.workflowId], now);
    assert ((s.log + [Event(kind, l.workflowId, l.taskId, l.workerId, now)])
            + TerminalEvents(w, s1.workflows[l.workflowId].state, now)) + ReadyEvents(w, |w.order|, now)
        == s.log + CompletionEvents(s, token, rt, kind, now);
  }

  lemma CompleteUnfolded(s: StoreState, token: string, exitCode: int, error: string, now: Time)
    requires Guard(s, token, now).None? && token in s.leases && LeaseLinked(s, token)
    requires s.leases[token].taskId in s.workflows[s.leases[token].workflowId].tasks
    ensures
      var l := s.leases[token];
      var (rt, kind) := Ended(s, token, exitCode, error, now);
      var s1 := Publish(Released(s, token, rt), [Event(kind, l.workflowId, l.taskId, l.workerId, now)]);
      var s2 := RecomputeOne(s1, l.workflowId, now);
      CompleteLease(s, token, exitCode, error, now)
        == (Publish(s2, ReadyEvents(s2.workflows[l.workflowId], |s2.workflows[l.workflowId].order|, now)), Done)
  {
    hide Expire, Recomputed, Finish, TerminalEvents, ReadyEvents, FreeSlot;
  }

  lemma CompleteKeepsInv(s: StoreState, token: string, exitCode: int, error: string, now: Time)
    requires Inv(s)
    ensures Inv(CompleteLease(s, token, exitCode, error, now).0)
  {
    hide Inv, CompleteLease, Ended, AfterCompletion, CompletionEvents;
    GuardKeepsInv(s, token, now);
    if Guard(s, token, now).None? {
      CompleteShape(s, token, exitCode, error, now);
      EndedIs(s, token, exitCode, error, now);
      var (rt, kind) := Ended(s, token, exitCode, error, now);
      CompletedInv(s, token, rt, now);
      PublishKeepsInv(AfterCompletion(s, token, rt, now), CompletionEvents(s, token, rt, kind, now));
    } else {
      CompleteGuarded(s, token, exitCode, error, now);
    }
  }

  lemma CompleteGuarded(s: StoreState, token: string, exitCode: int, error: string, now: Time)
    requires Guard(s, token, now).Some?
    ensures CompleteLease(s, token, exitCode, error, now) == Guard(s, token, now).value
  {
  }

  // LeaseNext

  lemma {:induction false} FirstOfferedIs(w: Snapshot, labels: Labels, i: nat)
    requires i <= |w.order|
    ensures
      match FirstOffered(w, labels, i)
      case Some(t) => exists k :: i <= k < |w.order| && w.order[k] == t && Offered(w, labels, t)
                                  && forall j :: i <= j < k ==> !Offered(w, labels, w.order[j])
      case None => forall j :: i <= j < |w.order| ==> !Offered(w, labels, w.order[j])
    decreases |w.order| - i
  {
    if i < |w.order| && !Offered(w, labels, w.order[i]) {
      FirstOfferedIs(w, labels, i + 1);
    }
  }

  lemma LeasesIssued(s: StoreState)
    requires LeasesLinked(s)
    ensures s.leases.Keys <= s.issued
  {
    forall t | t in s.leases ensures t in s.issued { assert LeaseLinked(s, t); }
  }

  lemma GrantLinks(s: StoreState, i: string, t: string, workerId: string, now: Time, token: string)
    requires LeasesLinked(s) && TasksLinked(s) && HasTask(s, i, t) && t in s.workflows[i].tasks && workerId in s.workers
    requires TaskAt(s, i, t).state == Ready && token != "" && token !in s.issued
    ensures LeasesLinked(Grant(s, i, t, workerId, now, token).0) && TasksLinked(Grant(s, i, t, workerId, now, token).0)
  {
    hide *;
    LeasesIssued(s);
    GrantLeases(s, i, t, workerId, now, token);
    GrantTasks(s, i, t, workerId, now, token);
  }

  lemma GrantLeases(s: StoreState, i: string, t: string, workerId: string, now: Time, token: string)
    requires LeasesLinked(s) && HasTask(s, i, t) && t in s.workflows[i].tasks && workerId in s.workers
    requires TaskAt(s, i, t).state == Ready && token != ""
    ensures LeasesLinked(Grant(s, i, t, workerId, now, token).0)
  {
    var s' := Grant(s, i, t, workerId, now, token).0;
    forall k | k in s'.leases ensures LeaseLinked(s', k) {
      if k != token { assert LeaseLinked(s, k); }
    }
  }

  lemma GrantTasks(s: StoreState, i: string, t: string, workerId: string, now: Time, token: string)
    requires TasksLinked(s) && HasTask(s, i, t) && t in s.workflows[i].tasks && workerId in s.workers
    requires TaskAt(s, i, t).state == Ready && token !in s.leases
    ensures TasksLinked(Grant(s, i, t, workerId, now, token).0)
  {
    var s' := Grant(s, i, t, workerId, now, token).0;
    forall j, x | HasTask(s', j, x) ensures TaskLinked(s', j, x, TaskAt(s', j, x)) {
      assert HasTask(s, j, x) && TaskLinked(s, j, x, TaskAt(s, j, x));
    }
  }

  lemma GrantRest(s: StoreState, i: string, t: string, workerId: string, now: Time, token: string)
    requires WorkerCounts(s) && Flows(s) && HasTask(s, i, t) && t in s.workflows[i].tasks && workerId in s.workers
    requires TaskAt(s, i, t).state == Ready && token !in s.leases
    requires s.workers[workerId].activeLeases < s.workers[workerId].capacity
    ensures WorkerCounts(Grant(s, i, t, workerId, now, token).0) && Flows(Grant(s, i, t, workerId, now, token).0)
  {
    hide FlowOk;
    var s' := Grant(s, i, t, workerId, now, token).0;
    assert WorkerCounts(s') by { GrantCounts(s, i, t, workerId, now, token); }
    ActiveMoveFlow(s.workflows[i], t, TaskAt(s', i, t));
    assert s'.workflows == s.workflows[i := Put(s.workflows[i], t, TaskAt(s', i, t))];
    assert Flows(s') by { hide Grant; }
  }

  lemma GrantCounts(s: StoreState, i: string, t: string, workerId: string, now: Time, token: string)
    requires WorkerCounts(s) && HasTask(s, i, t) && t in s.workflows[i].tasks && workerId in s.workers
    requires token !in s.leases && s.workers[workerId].activeLeases < s.workers[workerId].capacity
    ensures WorkerCounts(Grant(s, i, t, workerId, now, token).0)
  {
    var s' := Grant(s, i, t, workerId, now, token).0;
    var l := s'.leases[token];
    assert s'.leases == s.leases[token := l] && l.workerId == workerId;
    forall k | k in s'.workers
      ensures s'.workers[k].id == k && s'.workers[k].activeLeases == |HeldBy(s'.leases, k)| <= s'.workers[k].capacity
    {
      HeldByInsert(s.leases, token, l, k);
    }
  }

  lemma HeldByInsert(leases: map<string, Lease>, token: string, l: Lease, k: string)
    requires token !in leases
    ensures |HeldBy(leases[token := l], k)| == |HeldBy(leases, k)| + if l.workerId == k then 1 else 0
  {
    assert HeldBy(leases[token := l], k) == if l.workerId == k then HeldBy(leases, k) + {token} else HeldBy(leases, k);
  }

  lemma GrantKeepsInv(s: StoreState, i: string, t: string, workerId: string, now: Time, token: string)
    requires Inv(s) && HasTask(s, i, t) && t in s.workflows[i].tasks && workerId in s.workers
    requires TaskAt(s, i, t).state == Ready && token != "" && token !in s.issued
    requires s.workers[workerId].activeLeases < s.workers[workerId].capacity
    ensures Inv(Grant(s, i, t, workerId, now, token).0)
  {
    LeasesIssued(s);
    GrantLinks(s, i, t, workerId, now, token);
    GrantRest(s, i, t, workerId, now, token);
  }

  lemma SilentRecomputeKeepsInv(s: StoreState, id: string, now: Time)
    requires Inv(s) && id in s.workflows
    ensures Inv(WithWorkflow(s, id, Recomputed(s.workflows[id], now)))
  {
    var w := s.workflows[id];
    RecomputedSameLeases(w, now);
    RecomputedFlow(w, now);
    ReplaceKeepsInv(s, id, Recomputed(w, now));
  }

  lemma {:induction false} ScanKeepsInv(s: StoreState, candidates: seq<string>, workerId: string, now: Time,
      token: string)
    requires Inv(s) && workerId in s.workers && token != "" && token !in s.issued
    requires s.workers[workerId].activeLeases < s.workers[workerId].capacity
    ensures Inv(Scan(s, candidates, workerId, now, token).0)
    decreases |candidates|
  {
    hide Inv, Grant, Recomputed, Offered;
    if candidates == [] {
    } else if candidates[0] !in s.workflows {
      ScanKeepsInv(s, candidates[1..], workerId, now, token);
    } else {
      var id := candidates[0];
      var w := Recomputed(s.workflows[id], now);
      var s1 := WithWorkflow(s, id, w);
      SilentRecomputeKeepsInv(s, id, now);
      FirstOfferedIs(w, s.workers[workerId].labels, 0);
      match FirstOffered(w, s.workers[workerId].labels, 0)
      case Some(t) =>
        OfferedIs(w, s.workers[workerId].labels, t);
        GrantKeepsInv(s1, id, t, workerId, now, token);
      case None =>
        ScanKeepsInv(s1, candidates[1..], workerId, now, token);
    }
  }

  lemma OfferedIs(w: Snapshot, labels: Labels, t: string)
    requires Offered(w, labels, t)
    ensures t in w.runtime && t in w.tasks && w.runtime[t].state == Ready
  {
  }

  lemma LeaseNextKeepsInv(s: StoreState, workerId: string, now: Time, token: string,
                          tokens: seq<string>, sweepIds: seq<string>, scanIds: seq<string>)
    requires Inv(s) && token != "" && token !in s.issued
    ensures Inv(LeaseNext(s, workerId, now, token, tokens, sweepIds, scanIds).0)
  {
    hide Inv, Scan, Candidates;
    SweepKeepsInv(s, tokens, sweepIds, now);
    var s1 := Sweep(s, tokens, sweepIds, now);
    SweepFrame(s, tokens, sweepIds, now);
    if workerId in s1.workers && s1.workers[workerId].activeLeases < s1.workers[workerId].capacity {
      ScanKeepsInv(s1, Candidates(s1, scanIds), workerId, now, token);
    }
  }

  /** A sweep issues no token, and keeps the set of workers and of workflows. */
  lemma SweepFrame(s: StoreState, tokens: seq<string>, ids: seq<string>, now: Time)
    ensures
      var s1 := Sweep(s, tokens, ids, now);
      s1.issued == s.issued && s1.workers.Keys == s.workers.Keys && s1.workflows.Keys == s.workflows.Keys
          && s1.idempotency == s.idempotency
  {
    ExpireDueFrame(s, tokens, now);
    RecomputeAllFrame(ExpireDue(s, tokens, now), ids, now);
  }

  lemma {:induction false} ExpireDueFrame(s: StoreState, tokens: seq<string>, now: Time)
    ensures
      var s1 := ExpireDue(s, tokens, now);
      s1.issued == s.issued && s1.workers.Keys == s.workers.Keys && s1.workflows.Keys == s.workflows.Keys
          && s1.idempotency == s.idempotency
  {
    hide Expire;
    if tokens != [] {
      var s1 := ExpireDue(s, tokens[..|tokens| - 1], now);
      ExpireDueFrame(s, tokens[..|tokens| - 1], now);
      if tokens[|tokens| - 1] in s1.leases { ExpireFrame(s1, tokens[|tokens| - 1], now); }
    }
  }

  lemma ExpireFrame(s: StoreState, token: string, now: Time)
    requires token in s.leases
    ensures
      var s1 := Expire(s, token, now);
      s1.issued == s.issued && s1.workers.Keys == s.workers.Keys && s1.workflows.Keys == s.workflows.Keys
          && s1.idempotency == s.idempotency
  {
  }

  lemma {:induction false} RecomputeAllFrame(s: StoreState, ids: seq<string>, now: Time)
    ensures
      var s1 := RecomputeAll(s, ids, now);
      s1.issued == s.issued && s1.workers == s.workers && s1.leases == s.leases
      && s1.workflows.Keys == s.workflows.Keys && s1.idempotency == s.idempotency
  {
    if ids != [] { RecomputeAllFrame(s, ids[..|ids| - 1], now); }
  }

  // CreateWorkflow, RegisterWorker, HeartbeatWorker

  lemma {:induction false} TaskMapGraph(tasks: seq<TaskSpec>)
    ensures DependencyGraph(TaskMap(tasks)) == GraphOf(tasks)
  {
    if tasks != [] {
      TaskMapGraph(tasks[..|tasks| - 1]);
    }
  }

  lemma EdgesClosed(tasks: seq<TaskSpec>)
    requires UniqueIds(tasks) && EdgesValid(tasks)
    ensures Closed(GraphOf(tasks))
  {
    var g := GraphOf(tasks);
    forall a, b | Edge(g, a, b) ensures a in g {
      var k := GraphOfIndex(tasks, b);
      GraphOfLookup(tasks, k);
      var j :| 0 <= j < |tasks[k].dependsOn| && tasks[k].dependsOn[j] == a;
    }
  }

  lemma NewSnapshotHealthy(id: string, spec: WorkflowSpec, order: seq<string>, now: Time)
    requires ValidSpec(spec) && LeastTopological(GraphOf(spec.tasks), order)
    ensures Healthy(NewSnapshot(id, spec, order, now))
  {
    hide Shape, ValidSpec, LeastTopological, TaskMap;
    NewSnapshotShape(id, spec, order, now);
  }

  lemma NewSnapshotShape(id: string, spec: WorkflowSpec, order: seq<string>, now: Time)
    requires ValidSpec(spec) && LeastTopological(GraphOf(spec.tasks), order)
    ensures Shape(NewSnapshot(id, spec, order, now))
  {
    hide HasCycle, ValidTask, NormalizeRetry, TaskMap, GraphOf;
    var w := NewSnapshot(id, spec, order, now);
    TaskMapGraph(spec.tasks);
    EdgesClosed(spec.tasks);
    GraphOfSize(spec.tasks);
    TopologicalLength(GraphOf(spec.tasks), order);
    forall i | 0 <= i < |order| ensures order[i] in w.tasks {
      assert order[i] in Elements(order);
      assert order[i] in DependencyGraph(w.tasks);
    }
  }

  lemma InsertKeepsLinks(s: StoreState, id: string, w: Snapshot)
    requires LeasesLinked(s) && TasksLinked(s) && id !in s.workflows
    requires
      forall t :: t in w.runtime ==>
        && !HoldsLease(w.runtime[t].state) && w.runtime[t].leaseToken == ""
        && w.runtime[t].leaseOwner == "" && w.runtime[t].leaseUntil == None
    ensures LeasesLinked(WithWorkflow(s, id, w)) && TasksLinked(WithWorkflow(s, id, w))
  {
    var s' := WithWorkflow(s, id, w);
    forall t | t in s'.leases ensures LeaseLinked(s', t) {
      assert LeaseLinked(s, t);
    }
    forall i, t | HasTask(s', i, t) ensures TaskLinked(s', i, t, TaskAt(s', i, t)) {
      if i != id { assert HasTask(s, i, t) && TaskLinked(s, i, t, TaskAt(s, i, t)); }
    }
  }

  lemma InsertKeepsInv(s: StoreState, id: string, spec: WorkflowSpec, order: seq<string>, now: Time)
    requires Inv(s) && id !in s.workflows && ValidSpec(spec) && LeastTopological(GraphOf(spec.tasks), order)
    ensures Inv(WithWorkflow(s, id, Recomputed(NewSnapshot(id, spec, order, now), now)))
  {
    hide *;
    var w := NewSnapshot(id, spec, order, now);
    var v := Recomputed(w, now);
    NewSnapshotHealthy(id, spec, order, now);
    NewSnapshotIs(id, spec, order, now);
    RecomputedFlow(w, now);
    HealthyShape(w);
    RecomputedSameLeases(w, now);
    UnleasedStays(w, v);
    InvParts(s);
    InsertKeepsLinks(s, id, v);
    InsertRest(s, id, v);
    InvParts(WithWorkflow(s, id, v));
  }

  lemma NewSnapshotIs(id: string, spec: WorkflowSpec, order: seq<string>, now: Time)
    ensures
      var w := NewSnapshot(id, spec, order, now);
      w.id == id && !TerminalWorkflow(w.state) && forall t :: t in w.runtime ==> w.runtime[t] == FRESH_RUNTIME
  {
  }

  lemma UnleasedStays(w: Snapshot, v: Snapshot)
    requires SameLeases(w, v) && forall t :: t in w.runtime ==> w.runtime[t] == FRESH_RUNTIME
    ensures forall t :: t in v.runtime ==>
      !HoldsLease(v.runtime[t].state) && v.runtime[t].leaseToken == "" && v.runtime[t].leaseOwner == ""
          && v.runtime[t].leaseUntil == None
  {
    forall t | t in v.runtime ensures SameLease(w.runtime[t], v.runtime[t]) { assert t in w.runtime; }
  }

  lemma InvParts(s: StoreState)
    ensures Inv(s) <==> LeasesLinked(s) && TasksLinked(s) && WorkerCounts(s) && Flows(s)
  {
    hide LeasesLinked, TasksLinked, WorkerCounts, Flows;
  }

  lemma InsertRest(s: StoreState, id: string, w: Snapshot)
    requires WorkerCounts(s) && Flows(s) && id !in s.workflows && w.id == id && FlowOk(w)
    ensures WorkerCounts(WithWorkflow(s, id, w)) && Flows(WithWorkflow(s, id, w))
  {
    hide FlowOk, HeldBy;
  }

  lemma CreateKeepsInv(s: StoreState, spec: WorkflowSpec, valid: Result<seq<string>, SpecError>, key: string,
      id: string, now: Time)
    requires Inv(s) && id !in s.workflows
    requires valid.Success? ==> ValidSpec(spec) && LeastTopological(GraphOf(spec.tasks), valid.value)
    ensures Inv(CreateWorkflow(s, spec, valid, key, id, now).0)
  {
    hide FlowOk, Recomputed, NewSnapshot, LeasesLinked, TasksLinked, HeldBy, CreationEvents;
    if !(key != "" && key in s.idempotency) && valid.Success? {
      var w := Recomputed(NewSnapshot(id, spec, valid.value, now), now);
      InsertKeepsInv(s, id, spec, valid.value, now);
      var s0 := WithWorkflow(s, id, w);
      var s1 := Added(s, id, w, key);
      SameLinks(s0, s1);
      assert WorkerCounts(s1) && Flows(s1);
      PublishKeepsInv(s1, CreationEvents(id, w, now));
    }
  }

  lemma RegisterKeepsInv(s: StoreState, name: string, version: string, labels: Labels, capacity: int, id: string,
      now: Time)
    requires Inv(s) && id !in s.workers
    ensures Inv(RegisterWorker(s, name, version, labels, capacity, id, now))
  {
    hide FlowOk, HeldBy, LeasesLinked, TasksLinked;
    var s' := RegisterWorker(s, name, version, labels, capacity, id, now);
    SameLinks(s, s');
    NothingHeld(s, id);
    assert WorkerCounts(s');
    assert Flows(s');
  }

  lemma NothingHeld(s: StoreState, id: string)
    requires LeasesLinked(s) && id !in s.workers
    ensures HeldBy(s.leases, id) == {}
  {
    assert forall t :: t in s.leases ==> LeaseLinked(s, t) && s.leases[t].workerId in s.workers;
  }

  lemma HeartbeatKeepsInv(s: StoreState, id: string, now: Time)
    requires Inv(s)
    ensures Inv(HeartbeatWorker(s, id, now).0)
  {
    hide FlowOk, HeldBy;
    var s' := HeartbeatWorker(s, id, now).0;
    SameLinks(s, s');
    assert WorkerCounts(s');
    assert Flows(s');
  }

  // CancelWorkflow

  /** The record of a task of a workflow being cancelled, once the leases in `dropped` have been deleted. */
  function CancelledTask(rt: TaskRuntime, dropped: set<string>, now: Time): TaskRuntime {
    if rt.leaseToken in dropped then ClearLease(CancelTask(rt, now)) else CancelTask(rt, now)
  }

  ghost function Undropped(leases: map<string, Lease>, id: string, dropped: set<string>): map<string, Lease> {
    map t | t in leases && !(t in dropped && leases[t].workflowId == id) :: leases[t]
  }

  /** The records of a workflow being cancelled. */
  ghost predicate DroppedTasks(w: Snapshot, w1: Snapshot, dropped: set<string>, now: Time) {
    && w1 == CancelledAt(w, now).(runtime := w1.runtime)
    && w1.runtime.Keys == w.runtime.Keys
    && forall t :: t in w.runtime ==> w1.runtime[t] == CancelledTask(w.runtime[t], dropped, now)
  }

  ghost predicate SameElse(s: StoreState, s1: StoreState, id: string) {
    && id in s.workflows && id in s1.workflows
    && s1.workflows == s.workflows[id := s1.workflows[id]]
    && s1.workers.Keys == s.workers.Keys
    && s1.issued == s.issued && s1.idempotency == s.idempotency && s1.log == s.log
  }

  ghost predicate Dropping(s: StoreState, s1: StoreState, id: string, dropped: set<string>, now: Time) {
    && SameElse(s, s1, id)
    && DroppedTasks(s.workflows[id], s1.workflows[id], dropped, now)
    && s1.leases == Undropped(s.leases, id, dropped)
    && WorkerCounts(s1)
  }

  lemma DroppingStart(s: StoreState, id: string, now: Time)
    requires Inv(s) && id in s.workflows && !TerminalWorkflow(s.workflows[id].state)
    ensures Dropping(s, WithWorkflow(s, id, CancelledAt(s.workflows[id], now)), id, {}, now)
  {
    hide FlowOk, HeldBy;
    var s1 := WithWorkflow(s, id, CancelledAt(s.workflows[id], now));
    assert s1.leases == Undropped(s.leases, id, {});
    assert WorkerCounts(s1);
    assert DroppedTasks(s.workflows[id], s1.workflows[id], {}, now);
  }

  lemma DroppingOther(s: StoreState, s1: StoreState, id: string, dropped: set<string>, t: string, now: Time)
    requires LeasesLinked(s) && TasksLinked(s) && Dropping(s, s1, id, dropped, now)
    requires t in s.leases && s.leases[t].workflowId != id
    ensures Dropping(s, s1, id, dropped + {t}, now)
  {
    hide WorkerCounts, CancelTask;
    assert LeaseLinked(s, t);
    assert Undropped(s.leases, id, dropped + {t}) == Undropped(s.leases, id, dropped);
    forall x | x in s.workflows[id].runtime ensures s.workflows[id].runtime[x].leaseToken != t {
      assert HasTask(s, id, x) && TaskLinked(s, id, x, TaskAt(s, id, x));
    }
  }

  lemma DroppingStep(s: StoreState, s1: StoreState, id: string, dropped: set<string>, t: string, now: Time)
    requires Inv(s) && Dropping(s, s1, id, dropped, now) && t !in dropped && t in s.leases
    ensures
      var s2 := if t !in s1.leases || s1.leases[t].workflowId != id then s1 else DropOne(s1, id, t);
      Dropping(s, s2, id, dropped + {t}, now)
  {
    hide FlowOk, DropOne, HeldBy, WorkerCounts, DroppedTasks;
    assert LeaseLinked(s, t);
    if s.leases[t].workflowId != id {
      DroppingOther(s, s1, id, dropped, t, now);
    } else {
      ReleasedCounts(s1, t);
      DropOneShape(s1, id, t);
      DroppedRecords(s, s1, id, dropped, t, now);
      assert Undropped(s.leases, id, dropped + {t}) == Undropped(s.leases, id, dropped) - {t};
      SameCounts(WithoutLease(s1, t), DropOne(s1, id, t));
    }
  }

  lemma SameCounts(s: StoreState, s': StoreState)
    requires WorkerCounts(s) && s.workers == s'.workers && s.leases == s'.leases
    ensures WorkerCounts(s')
  {
  }

  lemma DropOneShape(s1: StoreState, id: string, t: string)
    requires t in s1.leases && id in s1.workflows
    ensures
      var s2 := DropOne(s1, id, t);
      && SameElse(s1, s2, id)
      && s2.leases == WithoutLease(s1, t).leases && s2.workers == WithoutLease(s1, t).workers
      && s2.workflows[id] == s1.workflows[id].(runtime := s2.workflows[id].runtime)
  {
  }

  lemma DroppedRecords(s: StoreState, s1: StoreState, id: string, dropped: set<string>, t: string, now: Time)
    requires TasksLinked(s) && SameElse(s, s1, id) && DroppedTasks(s.workflows[id], s1.workflows[id], dropped, now)
        && t !in dropped
    requires t in s.leases && t in s1.leases && s1.leases[t] == s.leases[t] && LeaseLinked(s, t)
        && s.leases[t].workflowId == id
    ensures DroppedTasks(s.workflows[id], DropOne(s1, id, t).workflows[id], dropped + {t}, now)
  {
    var l := s.leases[t];
    var w, w1, w2 := s.workflows[id], s1.workflows[id], DropOne(s1, id, t).workflows[id];
    assert w1.runtime[l.taskId] == CancelTask(w.runtime[l.taskId], now);
    assert w2.runtime == w1.runtime[l.taskId := ClearLease(w1.runtime[l.taskId])];
    forall x | x in w.runtime ensures w2.runtime[x] == CancelledTask(w.runtime[x], dropped + {t}, now) {
      assert HasTask(s, id, x) && TaskLinked(s, id, x, TaskAt(s, id, x));
    }
  }

  ghost predicate Enumerates(order: seq<string>, keys: set<string>) {
    NoDup(order) && Elements(order) == keys
  }

  lemma {:induction false} DroppingAll(s: StoreState, id: string, tokens: seq<string>, n: nat, now: Time)
    requires Inv(s) && id in s.workflows && !TerminalWorkflow(s.workflows[id].state)
    requires Enumerates(tokens, s.leases.Keys) && n <= |tokens|
    ensures Dropping(s, DropLeases(WithWorkflow(s, id, CancelledAt(s.workflows[id], now)), id, tokens[..n]), id,
        Elements(tokens[..n]), now)
  {
    hide Dropping, DropOne, Inv, NoDup, CancelledAt, DropLeases;
    if n == 0 {
      DroppingStart(s, id, now);
      DropNothing(WithWorkflow(s, id, CancelledAt(s.workflows[id], now)), id, tokens);
    } else {
      DroppingAll(s, id, tokens, n - 1, now);
      var t := tokens[n - 1];
      LastElement(tokens, n, s.leases.Keys);
      var s1 := DropLeases(WithWorkflow(s, id, CancelledAt(s.workflows[id], now)), id, tokens[..n - 1]);
      DroppingStep(s, s1, id, Elements(tokens[..n - 1]), t, now);
      DropLeasesLast(WithWorkflow(s, id, CancelledAt(s.workflows[id], now)), id, tokens[..n]);
    }
  }

  lemma LastElement(tokens: seq<string>, n: nat, keys: set<string>)
    requires Enumerates(tokens, keys) && 0 < n <= |tokens|
    ensures tokens[..n][..n - 1] == tokens[..n - 1] && tokens[n - 1] !in Elements(tokens[..n - 1])
        && tokens[n - 1] in keys
    ensures Elements(tokens[..n]) == Elements(tokens[..n - 1]) + {tokens[n - 1]}
  {
    assert tokens[..n] == tokens[..n - 1] + [tokens[n - 1]];
    assert tokens[n - 1] in Elements(tokens);
  }

  lemma DropNothing(s: StoreState, id: string, tokens: seq<string>)
    ensures DropLeases(s, id, tokens[..0]) == s && Elements(tokens[..0]) == {}
  {
  }

  lemma DropLeasesLast(s: StoreState, id: string, tokens: seq<string>)
    requires tokens != []
    ensures
      var s1 := DropLeases(s, id, tokens[..|tokens| - 1]);
      var t := tokens[|tokens| - 1];
      DropLeases(s, id, tokens) == if t !in s1.leases || s1.leases[t].workflowId != id then s1 else DropOne(s1, id, t)
  {
  }

  lemma DroppedInv(s: StoreState, s1: StoreState, id: string, now: Time)
    requires Inv(s) && Dropping(s, s1, id, s.leases.Keys, now) && !TerminalWorkflow(s.workflows[id].state)
    ensures Inv(s1)
  {
    hide FlowOk, DroppedTasks, WorkerCounts, LeasesLinked, TasksLinked;
    DroppedLinks(s, s1, id, now);
    DroppedFlow(s.workflows[id], s1.workflows[id], s.leases.Keys, now);
    assert Flows(s1);
  }

  lemma DroppedLinks(s: StoreState, s1: StoreState, id: string, now: Time)
    requires Inv(s) && Dropping(s, s1, id, s.leases.Keys, now)
    ensures LeasesLinked(s1) && TasksLinked(s1)
  {
    hide FlowOk, WorkerCounts, LeaseLinked, TaskLinked;
    DroppedLeases(s, s1, id, now);
    DroppedTaskLinks(s, s1, id, now);
  }

  lemma DroppedLeases(s: StoreState, s1: StoreState, id: string, now: Time)
    requires LeasesLinked(s) && Dropping(s, s1, id, s.leases.Keys, now)
    ensures LeasesLinked(s1)
  {
    hide WorkerCounts, CancelledTask, DroppedTasks;
    forall t | t in s1.leases ensures LeaseLinked(s1, t) {
      assert LeaseLinked(s, t);
    }
  }

  lemma DroppedTaskLinks(s: StoreState, s1: StoreState, id: string, now: Time)
    requires LeasesLinked(s) && TasksLinked(s) && Dropping(s, s1, id, s.leases.Keys, now)
    ensures TasksLinked(s1)
  {
    hide WorkerCounts, CancelledAt;
    forall i, t | HasTask(s1, i, t) ensures TaskLinked(s1, i, t, TaskAt(s1, i, t)) {
      assert HasTask(s, i, t) && TaskLinked(s, i, t, TaskAt(s, i, t));
      if HoldsLease(TaskAt(s, i, t).state) { assert LeaseLinked(s, TaskAt(s, i, t).leaseToken); }
    }
  }

  lemma DroppedFlow(w: Snapshot, w1: Snapshot, dropped: set<string>, now: Time)
    requires FlowOk(w) && DroppedTasks(w, w1, dropped, now) && !TerminalWorkflow(w.state)
    ensures FlowOk(w1) && w1.id == w.id
  {
    hide DependencySafe, CancelledByDependency, Topological;
    assert Shape(w) && Shape(w1);
    assert AllTerminal(w1);
  }

  lemma CancelKeepsInv(s: StoreState, id: string, now: Time, tokens: seq<string>)
    requires Inv(s) && Enumerates(tokens, s.leases.Keys)
    ensures Inv(CancelWorkflow(s, id, now, tokens).0)
  {
    hide Inv, Dropping, CancelledAt, DropLeases;
    if id in s.workflows && !TerminalWorkflow(s.workflows[id].state) {
      var w := s.workflows[id];
      var s1 := WithWorkflow(s, id, CancelledAt(w, now));
      DroppingAll(s, id, tokens, |tokens|, now);
      assert tokens[..|tokens|] == tokens;
      var s2 := DropLeases(s1, id, tokens);
      DroppedInv(s, s2, id, now);
      PublishKeepsInv(s2, CancelEvents(w, |w.order|, now) + [Event(CancelledEvent, id, "", "", now)]);
    }
  }
}
