/** Leases, tasks and worker counters agree in every state, and every operation keeps it so. */
module StoreInvariant {
  import opened Runtime
  import opened Recompute
  import opened StoreModel

  // The invariant

  /** The lease stored under `t` names exactly the task that names it. */
  ghost predicate LeaseLinked(s: StoreState, t: string) {
    t in s.leases &&
    var l := s.leases[t];
    && l.token == t && t != "" && t in s.issued
    && l.workerId in s.workers
    && HasTask(s, l.workflowId, l.taskId)
    && LeaseFields(TaskAt(s, l.workflowId, l.taskId), l)
  }

  ghost predicate LeaseFields(rt: TaskRuntime, l: Lease) {
    && HoldsLease(rt.state)
    && rt.leaseToken == l.token && rt.leaseOwner == l.workerId
    && rt.leaseUntil == Some(l.expiresAt) && rt.attempt == l.attempt
  }

  /** A leased or running task is named by its lease; any other task has empty lease fields. */
  ghost predicate TaskLinked(s: StoreState, workflowId: string, taskId: string, rt: TaskRuntime) {
    if HoldsLease(rt.state) then
      rt.leaseToken in s.leases && s.leases[rt.leaseToken].workflowId == workflowId
          && s.leases[rt.leaseToken].taskId == taskId
    else rt.leaseToken == "" && rt.leaseOwner == "" && rt.leaseUntil == None
  }

  ghost predicate LeasesLinked(s: StoreState) {
    forall t :: t in s.leases ==> LeaseLinked(s, t)
  }

  ghost predicate TasksLinked(s: StoreState) {
    forall i, t :: HasTask(s, i, t) ==> TaskLinked(s, i, t, TaskAt(s, i, t))
  }

  /** The leases naming a worker. */
  ghost function HeldBy(leases: map<string, Lease>, workerId: string): set<string> {
    set t | t in leases && leases[t].workerId == workerId
  }

  ghost predicate WorkerCounts(s: StoreState) {
    forall k :: k in s.workers ==>
      s.workers[k].id == k && s.workers[k].activeLeases == |HeldBy(s.leases, k)| <= s.workers[k].capacity
  }

  /** A workflow is healthy, and its state says truly whether it is finished. */
  ghost predicate FlowOk(w: Snapshot) {
    && Healthy(w)
    && w.state != WorkflowPending
    && (TerminalWorkflow(w.state) ==> AllTerminal(w))
    && (!TerminalWorkflow(w.state) ==> HasActive(w))
    && (w.state == WorkflowSucceeded ==> forall t :: t in w.runtime ==> w.runtime[t].state == Succeeded)
  }

  ghost predicate Flows(s: StoreState) {
    forall i :: i in s.workflows ==> s.workflows[i].id == i && FlowOk(s.workflows[i])
  }

  ghost predicate Inv(s: StoreState) {
    LeasesLinked(s) && TasksLinked(s) && WorkerCounts(s) && Flows(s)
  }

  // One workflow at a time

  lemma FlowShape(w: Snapshot)
    requires FlowOk(w)
    ensures Shape(w)
  {
  }

  lemma WorkflowShaped(s: StoreState, id: string)
    requires Inv(s) && id in s.workflows
    ensures Shape(s.workflows[id]) && Healthy(s.workflows[id])
  {
    assert FlowOk(s.workflows[id]);
  }

  /** `rt` and `rt'` carry the same lease. */
  ghost predicate SameLease(rt: TaskRuntime, rt': TaskRuntime) {
    && HoldsLease(rt.state) == HoldsLease(rt'.state)
    && rt.leaseToken == rt'.leaseToken && rt.leaseOwner == rt'.leaseOwner
    && rt.leaseUntil == rt'.leaseUntil
    && (HoldsLease(rt.state) ==> rt.attempt == rt'.attempt)
  }

  ghost predicate SameLeases(w: Snapshot, w': Snapshot) {
    w.runtime.Keys == w'.runtime.Keys && forall t :: t in w.runtime ==> SameLease(w.runtime[t], w'.runtime[t])
  }

  function WithWorkflow(s: StoreState, id: string, w: Snapshot): StoreState {
    s.(workflows := s.workflows[id := w])
  }

  /** Rewriting a workflow without touching its leases keeps the links. */
  lemma ReplaceKeepsLinks(s: StoreState, id: string, w: Snapshot)
    requires LeasesLinked(s) && TasksLinked(s) && id in s.workflows && SameLeases(s.workflows[id], w)
    ensures LeasesLinked(WithWorkflow(s, id, w)) && TasksLinked(WithWorkflow(s, id, w))
  {
    var s' := WithWorkflow(s, id, w);
    forall t | t in s'.leases ensures LeaseLinked(s', t) {
      assert LeaseLinked(s, t);
      var l := s.leases[t];
      if l.workflowId == id { assert SameLease(s.workflows[id].runtime[l.taskId], w.runtime[l.taskId]); }
    }
    forall i, t | HasTask(s', i, t) ensures TaskLinked(s', i, t, TaskAt(s', i, t)) {
      assert HasTask(s, i, t) && TaskLinked(s, i, t, TaskAt(s, i, t));
      if i == id { assert SameLease(s.workflows[id].runtime[t], w.runtime[t]); }
    }
  }

  lemma ReplaceKeepsInv(s: StoreState, id: string, w: Snapshot)
    requires Inv(s) && id in s.workflows && SameLeases(s.workflows[id], w) && w.id == id && FlowOk(w)
    ensures Inv(WithWorkflow(s, id, w))
  {
    ReplaceKeepsLinks(s, id, w);
    assert WorkerCounts(WithWorkflow(s, id, w));
    assert Flows(WithWorkflow(s, id, w));
  }

  lemma StepTaskSameLease(deps: seq<string>, rt: TaskRuntime, r: map<string, TaskRuntime>, now: Time)
    ensures SameLease(rt, StepTask(deps, rt, r, now))
  {
  }

  lemma RecomputedSameLeases(w: Snapshot, now: Time)
    requires Shape(w)
    ensures SameLeases(w, Recomputed(w, now))
  {
    if !TerminalWorkflow(w.state) {
      forall t | t in w.runtime ensures SameLease(w.runtime[t], Recomputed(w, now).runtime[t]) {
        StepRule(w, now, t);
        StepTaskSameLease(Deps(w, t), w.runtime[t], Recomputed(w, now).runtime, now);
      }
    }
  }

  /** Recomputing a healthy unfinished workflow gives a sound verdict. */
  lemma RecomputedFlow(w: Snapshot, now: Time)
    requires Healthy(w) && (TerminalWorkflow(w.state) ==> FlowOk(w))
    ensures FlowOk(Recomputed(w, now)) && Recomputed(w, now).id == w.id
  {
    var v := Recomputed(w, now);
    if !TerminalWorkflow(w.state) {
      RecomputedHealthy(w, now);
      NoDeadlock(w, now);
      SuccessMeansAll(w, now);
      if v.state == WorkflowFailed {
        forall t | t in v.runtime ensures TerminalTask(v.runtime[t].state) { FailureClosure(w, now, t); }
      }
      assert w.state != WorkflowCancelled && v.state != WorkflowCancelled;
    }
  }

  lemma RecomputeKeepsInv(s: StoreState, id: string, now: Time)
    requires Inv(s) && id in s.workflows
    ensures Inv(RecomputeOne(s, id, now))
  {
    var w := s.workflows[id];
    RecomputedSameLeases(w, now);
    RecomputedFlow(w, now);
    ReplaceKeepsInv(s, id, Recomputed(w, now));
    var s' := WithWorkflow(s, id, Recomputed(w, now));
    PublishKeepsInv(s', TerminalEvents(Recomputed(w, now), w.state, now));
  }

  lemma PublishKeepsInv(s: StoreState, events: seq<Event>)
    requires Inv(s)
    ensures Inv(Publish(s, events))
  {
    var s' := Publish(s, events);
    SameLinks(s, s');
    assert WorkerCounts(s');
    assert Flows(s');
  }

  /** The links only depend on the workflows, leases, workers and issued tokens. */
  lemma SameLinks(s: StoreState, s': StoreState)
    requires LeasesLinked(s) && TasksLinked(s)
    requires s.workflows == s'.workflows && s.leases == s'.leases && s.workers.Keys <= s'.workers.Keys
        && s.issued <= s'.issued
    ensures LeasesLinked(s') && TasksLinked(s')
  {
    forall t | t in s'.leases ensures LeaseLinked(s', t) { assert LeaseLinked(s, t); }
    forall i, t | HasTask(s', i, t) ensures TaskLinked(s', i, t, TaskAt(s', i, t)) {
      assert HasTask(s, i, t) && TaskLinked(s, i, t, TaskAt(s, i, t));
    }
  }

  // Changing one task that is not finished

  ghost function Put(w: Snapshot, t: string, rt: TaskRuntime): Snapshot {
    w.(runtime := w.runtime[t := rt])
  }

  /** Moving a task between unfinished released states keeps the workflow sound. */
  lemma ActiveMoveFlow(w: Snapshot, t: string, rt: TaskRuntime)
    requires FlowOk(w) && t in w.runtime && ActiveTask(w.runtime[t].state) && ActiveTask(rt.state)
    ensures FlowOk(Put(w, t, rt))
  {
    var v := Put(w, t, rt);
    PutKeepsDeps(w, t, rt);
    assert HasActive(v) by { assert t in v.runtime; }
    assert w.state != WorkflowCancelled;
    assert !AllTerminal(w);
  }

  /** Neither success nor impossibility of any dependency list changes, unless `t` just ended. */
  lemma PutKeepsDeps(w: Snapshot, t: string, rt: TaskRuntime)
    requires Shape(w) && t in w.runtime && ActiveTask(w.runtime[t].state)
    requires rt.state !in {Pending, Cancelled}
    requires DependencySafe(w) && CancelledByDependency(w)
    ensures Shape(Put(w, t, rt)) && DependencySafe(Put(w, t, rt)) && CancelledByDependency(Put(w, t, rt))
  {
    var v := Put(w, t, rt);
    forall x | x in v.tasks && v.runtime[x].state !in {Pending, Cancelled} ensures AllSucceeded(Deps(v, x), v.runtime) {
      assert w.runtime[x].state !in {Pending, Cancelled};
      assert AllSucceeded(Deps(w, x), w.runtime);
    }
    forall x | x in v.tasks && v.runtime[x].state == Cancelled ensures SomeImpossible(Deps(v, x), v.runtime) {
      assert SomeImpossible(Deps(w, x), w.runtime);
      var i :| 0 <= i < |Deps(w, x)| && Deps(w, x)[i] in w.runtime
          && w.runtime[Deps(w, x)[i]].state in {Failed, Cancelled};
      assert v.runtime[Deps(v, x)[i]] == w.runtime[Deps(w, x)[i]];
    }
  }

  // Releasing a lease

  /** `WithoutLease` and a record that holds no lease: what expiry and completion have in common. */
  ghost function Released(s: StoreState, token: string, rt: TaskRuntime): StoreState
    requires token in s.leases && HasTask(s, s.leases[token].workflowId, s.leases[token].taskId)
  {
    WithTask(WithoutLease(s, token), s.leases[token].workflowId, s.leases[token].taskId, rt)
  }

  lemma ReleasedLinks(s: StoreState, token: string, rt: TaskRuntime)
    requires LeasesLinked(s) && TasksLinked(s) && token in s.leases && LeaseLinked(s, token)
    requires !HoldsLease(rt.state) && rt.leaseToken == "" && rt.leaseOwner == "" && rt.leaseUntil == None
    ensures LeasesLinked(Released(s, token, rt)) && TasksLinked(Released(s, token, rt))
  {
    hide *;
    ReleasedLeases(s, token, rt);
    ReleasedTasks(s, token, rt);
  }

  lemma ReleasedLeases(s: StoreState, token: string, rt: TaskRuntime)
    requires LeasesLinked(s) && token in s.leases && LeaseLinked(s, token)
    ensures LeasesLinked(Released(s, token, rt))
  {
    hide TasksLinked, HoldsLease;
    var s' := Released(s, token, rt);
    forall t | t in s'.leases ensures LeaseLinked(s', t) {
      assert LeaseLinked(s, t);
      assert t != token;
      assert s.workers.Keys == s'.workers.Keys;
    }
  }

  lemma ReleasedTasks(s: StoreState, token: string, rt: TaskRuntime)
    requires TasksLinked(s) && token in s.leases && LeaseLinked(s, token)
    requires !HoldsLease(rt.state) && rt.leaseToken == "" && rt.leaseOwner == "" && rt.leaseUntil == None
    ensures TasksLinked(Released(s, token, rt))
  {
    hide LeasesLinked, FreeSlot;
    var s' := Released(s, token, rt);
    forall i, t | HasTask(s', i, t) ensures TaskLinked(s', i, t, TaskAt(s', i, t)) {
      assert HasTask(s, i, t) && TaskLinked(s, i, t, TaskAt(s, i, t));
    }
  }

  lemma ReleasedCounts(s: StoreState, token: string)
    requires WorkerCounts(s) && token in s.leases
    ensures WorkerCounts(WithoutLease(s, token))
    ensures s.leases[token].workerId in s.workers ==> s.workers[s.leases[token].workerId].activeLeases > 0
  {
    var s' := WithoutLease(s, token);
    var l := s.leases[token];
    forall k | k in s'.workers
      ensures s'.workers[k].id == k && s'.workers[k].activeLeases == |HeldBy(s'.leases, k)| <= s'.workers[k].capacity
    {
      if k == l.workerId {
        assert token in HeldBy(s.leases, k);
        assert HeldBy(s'.leases, k) == HeldBy(s.leases, k) - {token};
      } else {
        assert HeldBy(s'.leases, k) == HeldBy(s.leases, k);
      }
    }
    assert token in HeldBy(s.leases, l.workerId);
  }

  lemma ExpireShape(s: StoreState, token: string, now: Time)
    requires Inv(s) && token in s.leases
    ensures
      var l := s.leases[token];
      && LeaseLinked(s, token)
      && Expire(s, token, now) == Publish(Released(s, token, Requeued(TaskAt(s, l.workflowId, l.taskId))),
                                          [Event(LeaseExpired, l.workflowId, l.taskId, l.workerId, now)])
  {
    assert LeaseLinked(s, token);
  }

  lemma ReleasedFlows(s: StoreState, token: string, rt: TaskRuntime)
    requires WorkerCounts(s) && Flows(s) && token in s.leases && LeaseLinked(s, token)
    requires FlowOk(Put(s.workflows[s.leases[token].workflowId], s.leases[token].taskId, rt))
    ensures Flows(Released(s, token, rt)) && WorkerCounts(Released(s, token, rt))
  {
    hide HeldBy, FlowOk;
    ReleasedCounts(s, token);
    var s' := Released(s, token, rt);
    assert forall i :: i in s'.workflows ==> i in s.workflows;
  }

  lemma ReleasedInv(s: StoreState, token: string, rt: TaskRuntime)
    requires Inv(s) && token in s.leases && LeaseLinked(s, token)
    requires !HoldsLease(rt.state) && rt.leaseToken == "" && rt.leaseOwner == "" && rt.leaseUntil == None
    requires FlowOk(Put(s.workflows[s.leases[token].workflowId], s.leases[token].taskId, rt))
    ensures Inv(Released(s, token, rt))
  {
    ReleasedLinks(s, token, rt);
    ReleasedFlows(s, token, rt);
  }

  /** The record an expired lease leaves behind. */
  ghost function Requeued(rt: TaskRuntime): (r: TaskRuntime)
    ensures !HoldsLease(r.state) && r.leaseToken == "" && r.leaseOwner == "" && r.leaseUntil == None
  {
    ClearLease(rt).(state := Ready, startedAt := None)
  }

  lemma RequeuedFlow(s: StoreState, token: string)
    requires Flows(s) && token in s.leases && LeaseLinked(s, token)
    ensures
      var l := s.leases[token];
      FlowOk(Put(s.workflows[l.workflowId], l.taskId, Requeued(TaskAt(s, l.workflowId, l.taskId))))
  {
    var l := s.leases[token];
    ActiveMoveFlow(s.workflows[l.workflowId], l.taskId, Requeued(TaskAt(s, l.workflowId, l.taskId)));
  }

  lemma ExpireKeepsInv(s: StoreState, token: string, now: Time)
    requires Inv(s) && token in s.leases
    ensures Inv(Expire(s, token, now))
  {
    hide FlowOk, HeldBy, Released, Expire, Publish, Requeued, LeaseFields, TaskLinked, WorkerCounts, LeasesLinked,
        TasksLinked;
    ExpireShape(s, token, now);
    RequeuedFlow(s, token);
    var l := s.leases[token];
    var rt := Requeued(TaskAt(s, l.workflowId, l.taskId));
    ReleasedInv(s, token, rt);
    PublishKeepsInv(Released(s, token, rt), [Event(LeaseExpired, l.workflowId, l.taskId, l.workerId, now)]);
  }

  lemma {:induction false} ExpireDueKeepsInv(s: StoreState, tokens: seq<string>, now: Time)
    requires Inv(s)
    ensures Inv(ExpireDue(s, tokens, now))
  {
    if tokens != [] {
      ExpireDueKeepsInv(s, tokens[..|tokens| - 1], now);
      var s1 := ExpireDue(s, tokens[..|tokens| - 1], now);
      var t := tokens[|tokens| - 1];
      if t in s1.leases { ExpireKeepsInv(s1, t, now); }
    }
  }

  lemma {:induction false} RecomputeAllKeepsInv(s: StoreState, ids: seq<string>, now: Time)
    requires Inv(s)
    ensures Inv(RecomputeAll(s, ids, now))
  {
    if ids != [] {
      RecomputeAllKeepsInv(s, ids[..|ids| - 1], now);
      var s1 := RecomputeAll(s, ids[..|ids| - 1], now);
      if ids[|ids| - 1] in s1.workflows { RecomputeKeepsInv(s1, ids[|ids| - 1], now); }
    }
  }

  lemma SweepKeepsInv(s: StoreState, tokens: seq<string>, ids: seq<string>, now: Time)
    requires Inv(s)
    ensures Inv(Sweep(s, tokens, ids, now))
  {
    ExpireDueKeepsInv(s, tokens, now);
    RecomputeAllKeepsInv(ExpireDue(s, tokens, now), ids, now);
  }
}
