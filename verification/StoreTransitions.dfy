/** Every assignment to a task state follows an edge of `validTaskTransitions`, including the assignments
    that expiry and cancellation make without asking, and no requested transition is ever refused. */
module StoreTransitions {
  import opened Graph
  import opened WorkflowSpec
  import opened Runtime
  import opened Recompute
  import opened StoreModel
  import opened StoreInvariant
  import opened StoreOperations
  import opened StoreRuns
  import opened StoreBudget

  /** At most one edge. */
  predicate Moved(a: TaskState, b: TaskState) {
    a == b || Allowed(a, b)
  }

  /** At most one edge, or the two edges through `via`. */
  predicate MovedVia(a: TaskState, via: TaskState, b: TaskState) {
    Moved(a, b) || (Allowed(a, via) && Allowed(via, b))
  }

  /** The edges one step may take a task along. A poll may expire or wake a task and lease it again;
      a completion may have to report the start of the task first. */
  predicate MovedBy(op: Op, a: TaskState, b: TaskState) {
    if op.Poll? then MovedVia(a, Ready, b)
    else if op.Complete? then MovedVia(a, Running, b)
    else Moved(a, b)
  }

  /** The state of a task; one that is not there yet counts as pending. */
  function StateOf(s: StoreState, i: string, t: string): TaskState {
    if HasTask(s, i, t) then TaskAt(s, i, t).state else Pending
  }

  /** No task disappears, only a creation adds tasks, and every state moves along edges. */
  ghost predicate FollowsEdges(op: Op, s: StoreState, s': StoreState) {
    forall i, t ::
      && (HasTask(s, i, t) ==> HasTask(s', i, t))
      && (HasTask(s', i, t) ==> (HasTask(s, i, t) || op.Create?) && MovedBy(op, StateOf(s, i, t), StateOf(s', i, t)))
  }

  // Sweeping

  /** What expiry and recomputation do to a task; unlike `Moved`, this composes. */
  predicate Settles(a: TaskState, b: TaskState) {
    || a == b
    || (HoldsLease(a) && b == Ready)
    || (a == Pending && b in {Ready, Cancelled})
    || (a == RetryWait && b == Ready)
  }

  lemma SettlesIsEdge(a: TaskState, b: TaskState)
    ensures Settles(a, b) ==> Moved(a, b)
  {
  }

  ghost predicate Settled(s: StoreState, s': StoreState) {
    forall i, t :: (HasTask(s, i, t) <==> HasTask(s', i, t)) && Settles(StateOf(s, i, t), StateOf(s', i, t))
  }

  lemma SettledTransitive(a: StoreState, b: StoreState, c: StoreState)
    requires Settled(a, b) && Settled(b, c)
    ensures Settled(a, c)
  {
    forall i, t ensures (HasTask(a, i, t) <==> HasTask(c, i, t)) && Settles(StateOf(a, i, t), StateOf(c, i, t)) {
      assert HasTask(b, i, t) <==> HasTask(c, i, t);
    }
  }

  lemma ExpireSettles(s: StoreState, token: string, now: Time)
    requires Inv(s) && token in s.leases
    ensures Settled(s, Expire(s, token, now))
    ensures forall i, t :: HasTask(s, i, t) ==>
      if i == s.leases[token].workflowId && t == s.leases[token].taskId
      then HoldsLease(TaskAt(s, i, t).state) && StateOf(Expire(s, token, now), i, t) == Ready
      else HasTask(Expire(s, token, now), i, t) && TaskAt(Expire(s, token, now), i, t) == TaskAt(s, i, t)
  {
    hide FlowOk, Expire, TasksLinked, WorkerCounts, Settled;
    ExpireShape(s, token, now);
    ExpiredSettled(s, token, now);
  }

  lemma ExpiredSettled(s: StoreState, token: string, now: Time)
    requires Inv(s) && token in s.leases
    ensures Settled(s, Expire(s, token, now))
  {
    hide FlowOk, Expire, TasksLinked, WorkerCounts;
    ExpireShape(s, token, now);
  }

  lemma {:induction false} ExpireDueSettles(s: StoreState, tokens: seq<string>, now: Time)
    requires Inv(s)
    ensures Settled(s, ExpireDue(s, tokens, now))
  {
    hide Inv, Settled, Expire;
    if tokens == [] {
      SettledSame(s, s);
    } else {
      var s1 := ExpireDue(s, tokens[..|tokens| - 1], now);
      ExpireDueSettles(s, tokens[..|tokens| - 1], now);
      ExpireDueKeepsInv(s, tokens[..|tokens| - 1], now);
      if tokens[|tokens| - 1] in s1.leases {
        ExpireSettles(s1, tokens[|tokens| - 1], now);
        SettledTransitive(s, s1, Expire(s1, tokens[|tokens| - 1], now));
      }
    }
  }

  lemma SettledSame(s: StoreState, s': StoreState)
    requires s.workflows == s'.workflows
    ensures Settled(s, s')
  {
  }

  lemma StepTaskSettles(deps: seq<string>, rt: TaskRuntime, r: map<string, TaskRuntime>, now: Time)
    ensures Settles(rt.state, StepTask(deps, rt, r, now).state)
  {
  }

  lemma RecomputedSettles(w: Snapshot, now: Time, t: string)
    requires Shape(w) && t in w.runtime
    ensures t in Recomputed(w, now).runtime && Settles(w.runtime[t].state, Recomputed(w, now).runtime[t].state)
  {
    hide Shape, StepTask, StepTasks, Settles;
    ShapeKeys(w);
    SettlesRefl(w.runtime[t].state);
    if !TerminalWorkflow(w.state) {
      StepRule(w, now, t);
      StepTaskSettles(Deps(w, t), w.runtime[t], Recomputed(w, now).runtime, now);
    }
  }

  lemma SettlesRefl(a: TaskState)
    ensures Settles(a, a)
  {
  }

  lemma ShapeKeys(w: Snapshot)
    requires Shape(w)
    ensures w.runtime.Keys == w.tasks.Keys
  {
  }

  lemma RecomputeSettles(s: StoreState, id: string, now: Time)
    requires Inv(s) && id in s.workflows
    ensures Settled(s, RecomputeOne(s, id, now))
    ensures Settled(s, WithWorkflow(s, id, Recomputed(s.workflows[id], now)))
  {
    hide Inv, Shape, Recomputed, TerminalEvents, Settles;
    var w := s.workflows[id];
    var s' := WithWorkflow(s, id, Recomputed(w, now));
    WorkflowShaped(s, id);
    RecomputedKeys(w, now);
    forall i, t ensures (HasTask(s, i, t) <==> HasTask(s', i, t)) && Settles(StateOf(s, i, t), StateOf(s', i, t)) {
      SettlesRefl(StateOf(s, i, t));
      if i == id && t in w.runtime { RecomputedSettles(w, now, t); }
    }
    SettledAlike(s, s', RecomputeOne(s, id, now));
  }

  lemma RecomputedKeys(w: Snapshot, now: Time)
    ensures Recomputed(w, now).runtime.Keys == w.runtime.Keys
  {
  }

  lemma SettledAlike(s: StoreState, s1: StoreState, s2: StoreState)
    requires Settled(s, s1) && s1.workflows == s2.workflows
    ensures Settled(s, s2)
  {
    forall i, t ensures (HasTask(s, i, t) <==> HasTask(s2, i, t)) && Settles(StateOf(s, i, t), StateOf(s2, i, t)) {
      assert HasTask(s1, i, t) <==> HasTask(s2, i, t);
    }
  }

  lemma {:induction false} RecomputeAllSettles(s: StoreState, ids: seq<string>, now: Time)
    requires Inv(s)
    ensures Settled(s, RecomputeAll(s, ids, now))
  {
    hide Inv, Settled, RecomputeOne;
    if ids == [] {
      SettledSame(s, s);
    } else {
      var s1 := RecomputeAll(s, ids[..|ids| - 1], now);
      RecomputeAllSettles(s, ids[..|ids| - 1], now);
      RecomputeAllKeepsInv(s, ids[..|ids| - 1], now);
      if ids[|ids| - 1] in s1.workflows {
        RecomputeSettles(s1, ids[|ids| - 1], now);
        SettledTransitive(s, s1, RecomputeOne(s1, ids[|ids| - 1], now));
      }
    }
  }

  lemma SweepSettles(s: StoreState, tokens: seq<string>, ids: seq<string>, now: Time)
    requires Inv(s)
    ensures Settled(s, Sweep(s, tokens, ids, now))
  {
    hide Inv, Settled, ExpireDue, RecomputeAll;
    var s1 := ExpireDue(s, tokens, now);
    ExpireDueSettles(s, tokens, now);
    ExpireDueKeepsInv(s, tokens, now);
    RecomputeAllSettles(s1, ids, now);
    SettledTransitive(s, s1, RecomputeAll(s1, ids, now));
  }

  // LeaseNext

  /** Settled, and perhaps leased after that. */
  predicate Polled(a: TaskState, b: TaskState) {
    Settles(a, b) || (Settles(a, Ready) && b == Leased)
  }

  ghost predicate PolledTasks(s: StoreState, s': StoreState) {
    forall i, t :: (HasTask(s, i, t) <==> HasTask(s', i, t)) && Polled(StateOf(s, i, t), StateOf(s', i, t))
  }

  lemma PolledIsEdges(a: TaskState, b: TaskState)
    requires Polled(a, b)
    ensures MovedVia(a, Ready, b)
  {
  }

  lemma SettledPolled(s: StoreState, s': StoreState)
    requires Settled(s, s')
    ensures PolledTasks(s, s')
  {
  }

  lemma SettledThenPolled(a: StoreState, b: StoreState, c: StoreState)
    requires Settled(a, b) && PolledTasks(b, c)
    ensures PolledTasks(a, c)
  {
    forall i, t ensures (HasTask(a, i, t) <==> HasTask(c, i, t)) && Polled(StateOf(a, i, t), StateOf(c, i, t)) {
      assert HasTask(b, i, t) <==> HasTask(c, i, t);
    }
  }

  /** Only a ready task is leased, and the request is honoured. */
  lemma GrantPolled(s: StoreState, i: string, t: string, workerId: string, now: Time, token: string)
    requires HasTask(s, i, t) && t in s.workflows[i].tasks && workerId in s.workers && TaskAt(s, i, t).state == Ready
    ensures PolledTasks(s, Grant(s, i, t, workerId, now, token).0)
    ensures GrantedLeased(Grant(s, i, t, workerId, now, token))
  {
  }

  ghost predicate GrantedLeased(r: (StoreState, Outcome)) {
    r.1.Granted? ==> HasTask(r.0, r.1.lease.workflowId, r.1.lease.taskId)
                     && TaskAt(r.0, r.1.lease.workflowId, r.1.lease.taskId).state == Leased
  }

  lemma {:induction false} ScanPolled(s: StoreState, candidates: seq<string>, workerId: string, now: Time,
      token: string)
    requires Inv(s) && workerId in s.workers
    ensures PolledTasks(s, Scan(s, candidates, workerId, now, token).0)
    ensures GrantedLeased(Scan(s, candidates, workerId, now, token))
    decreases |candidates|
  {
    hide Inv, Settled, PolledTasks, GrantedLeased, Grant, Recomputed, Offered;
    if candidates == [] {
      SettledSame(s, s);
      SettledPolled(s, s);
      NothingGranted(s);
    } else if candidates[0] !in s.workflows {
      ScanPolled(s, candidates[1..], workerId, now, token);
    } else {
      var id := candidates[0];
      var w := Recomputed(s.workflows[id], now);
      var s1 := WithWorkflow(s, id, w);
      SilentRecomputeKeepsInv(s, id, now);
      RecomputeSettles(s, id, now);
      FirstOfferedIs(w, s.workers[workerId].labels, 0);
      match FirstOffered(w, s.workers[workerId].labels, 0)
      case Some(t) =>
        OfferedIs(w, s.workers[workerId].labels, t);
        GrantPolled(s1, id, t, workerId, now, token);
        SettledThenPolled(s, s1, Grant(s1, id, t, workerId, now, token).0);
      case None =>
        ScanPolled(s1, candidates[1..], workerId, now, token);
        SettledThenPolled(s, s1, Scan(s1, candidates[1..], workerId, now, token).0);
    }
  }

  lemma NothingGranted(s: StoreState)
    ensures forall o: Outcome :: !o.Granted? ==> GrantedLeased((s, o))
  {
  }

  lemma LeaseNextPolled(s: StoreState, workerId: string, now: Time, token: string,
                        tokens: seq<string>, sweepIds: seq<string>, scanIds: seq<string>)
    requires Inv(s)
    ensures PolledTasks(s, LeaseNext(s, workerId, now, token, tokens, sweepIds, scanIds).0)
    ensures GrantedLeased(LeaseNext(s, workerId, now, token, tokens, sweepIds, scanIds))
  {
    hide Inv, Settled, PolledTasks, GrantedLeased, Scan, Candidates, Sweep;
    var s1 := Sweep(s, tokens, sweepIds, now);
    SweepSettles(s, tokens, sweepIds, now);
    SweepKeepsInv(s, tokens, sweepIds, now);
    SettledPolled(s, s1);
    NothingGranted(s1);
    if workerId in s1.workers {
      ScanPolled(s1, Candidates(s1, scanIds), workerId, now, token);
      SettledThenPolled(s, s1, Scan(s1, Candidates(s1, scanIds), workerId, now, token).0);
    }
  }

  lemma PollFollowsEdges(s: StoreState, op: Op, s': StoreState)
    requires op.Poll? && PolledTasks(s, s')
    ensures FollowsEdges(op, s, s')
  {
    hide Polled, MovedVia;
    forall i, t | HasTask(s, i, t) ensures HasTask(s', i, t) && MovedBy(op, StateOf(s, i, t), StateOf(s', i, t)) {
      PolledIsEdges(StateOf(s, i, t), StateOf(s', i, t));
    }
  }

  lemma SettledFollowsEdges(s: StoreState, op: Op, s': StoreState)
    requires Settled(s, s')
    ensures FollowsEdges(op, s, s')
  {
    hide Settles, Allowed;
    forall i, t | HasTask(s, i, t) ensures HasTask(s', i, t) && MovedBy(op, StateOf(s, i, t), StateOf(s', i, t)) {
      SettlesIsEdge(StateOf(s, i, t), StateOf(s', i, t));
    }
  }

  // One workflow rewritten

  lemma QuietIsEdge(rt: TaskRuntime, rt': TaskRuntime)
    requires QuietMove(rt, rt')
    ensures Moved(rt.state, rt'.state)
  {
  }

  lemma QuietFollowsEdges(s: StoreState, op: Op, s': StoreState, id: string)
    requires id in s.workflows && id in s'.workflows && s'.workflows == s.workflows[id := s'.workflows[id]]
    requires QuietWorkflow(s.workflows[id], s'.workflows[id])
    ensures FollowsEdges(op, s, s')
  {
    hide QuietMove, Allowed;
    forall i, t | HasTask(s, i, t) ensures HasTask(s', i, t) && MovedBy(op, StateOf(s, i, t), StateOf(s', i, t)) {
      if i == id { QuietIsEdge(s.workflows[id].runtime[t], s'.workflows[id].runtime[t]); }
    }
  }

  lemma QuietLeaseFollowsEdges(s: StoreState, op: Op, s': StoreState, token: string)
    requires token in s.leases && LeaseLinked(s, token) && QuietLeaseStep(s, s', token)
    ensures FollowsEdges(op, s, s')
  {
    hide QuietMove, QuietWorkflow;
    var l := s.leases[token];
    QuietPut(s.workflows[l.workflowId], l.taskId, TaskAt(s', l.workflowId, l.taskId));
    QuietFollowsEdges(s, op, s', l.workflowId);
  }

  lemma GuardFollowsEdges(s: StoreState, op: Op, token: string, now: Time)
    requires Inv(s) && Guard(s, token, now).Some?
    ensures FollowsEdges(op, s, Guard(s, token, now).value.0)
  {
    hide Inv, Expire, FollowsEdges, Settled;
    if token in s.leases {
      ExpireSettles(s, token, now);
    } else {
      SettledSame(s, s);
    }
    SettledFollowsEdges(s, op, Guard(s, token, now).value.0);
  }

  lemma LeaseOperationsFollowEdges(s: StoreState, op: Op, token: string, stream: string, text: string, now: Time)
    requires Inv(s)
    ensures FollowsEdges(op, s, StartLease(s, token, now).0)
    ensures FollowsEdges(op, s, RenewLease(s, token, now).0)
    ensures FollowsEdges(op, s, AppendLog(s, token, stream, text, now).0)
  {
    GuardKeepsInv(s, token, now);
    if Guard(s, token, now).Some? {
      GuardFollowsEdges(s, op, token, now);
    } else {
      hide Inv, FollowsEdges, QuietLeaseStep, StartLease, RenewLease, AppendLog, LeaseFields;
      StartQuiet(s, token, now);
      QuietLeaseFollowsEdges(s, op, StartLease(s, token, now).0, token);
      RenewQuiet(s, token, now);
      QuietLeaseFollowsEdges(s, op, RenewLease(s, token, now).0, token);
      LogQuiet(s, token, stream, text, now);
      QuietLeaseFollowsEdges(s, op, AppendLog(s, token, stream, text, now).0, token);
    }
  }

  lemma CancelFollowsEdges(s: StoreState, op: Op, id: string, now: Time, tokens: seq<string>)
    requires Inv(s) && Enumerates(tokens, s.leases.Keys)
    ensures FollowsEdges(op, s, CancelWorkflow(s, id, now, tokens).0)
  {
    hide FollowsEdges, DropLeases, Inv, DroppedTasks, QuietWorkflow, CancelEvents, WorkerCounts;
    if id in s.workflows && !TerminalWorkflow(s.workflows[id].state) {
      var w := s.workflows[id];
      DroppingAll(s, id, tokens, |tokens|, now);
      assert tokens[..|tokens|] == tokens;
      var s2 := DropLeases(WithWorkflow(s, id, CancelledAt(w, now)), id, tokens);
      DroppedQuiet(w, s2.workflows[id], s.leases.Keys, now);
      QuietFollowsEdges(s, op, CancelWorkflow(s, id, now, tokens).0, id);
    } else {
      SettledSame(s, s);
      SettledFollowsEdges(s, op, s);
    }
  }

  // CompleteLease

  /** The state in which a completion leaves its task. */
  function CompletionTarget(spec: TaskSpec, attempt: int, exitCode: int, error: string): TaskState {
    if exitCode == 0 && error == "" then Succeeded
    else if attempt < NormalizeRetry(spec.retry).maxAttempts then RetryWait
    else Failed
  }

  lemma {:induction false} Pow2Positive(n: nat)
    ensures Pow2(n) >= 1
  {
    if n > 0 { Pow2Positive(n - 1); }
  }

  lemma BackoffPositive(p: RetryPolicy, attempt: int)
    ensures Backoff(p, attempt) > 0
  {
    Pow2Positive(if attempt < 1 then 0 else attempt - 1);
  }

  /** Both requests of a completion are honoured, and a task that waits for a retry is not due yet. */
  lemma FinishHonoured(spec: TaskSpec, rt: TaskRuntime, exitCode: int, error: string, now: Time)
    requires rt.state == Running
    ensures
      var rt' := Finish(spec, rt, exitCode, error, now).0;
      && rt'.state == CompletionTarget(spec, rt.attempt, exitCode, error)
      && (rt'.state == RetryWait ==> !Due(rt', now))
  {
    hide Backoff, NormalizeRetry;
    BackoffPositive(NormalizeRetry(spec.retry), rt.attempt);
  }

  lemma EndedHonoured(s: StoreState, token: string, exitCode: int, error: string, now: Time)
    requires token in s.leases && LeaseLinked(s, token)
        && s.leases[token].taskId in s.workflows[s.leases[token].workflowId].tasks
    ensures
      var l := s.leases[token];
      var rt := Ended(s, token, exitCode, error, now).0;
      && rt.state == CompletionTarget(s.workflows[l.workflowId].tasks[l.taskId], l.attempt, exitCode, error)
      && (rt.state == RetryWait ==> !Due(rt, now))
  {
    hide Finish, Due, CompletionTarget;
    var l := s.leases[token];
    var rt := TaskAt(s, l.workflowId, l.taskId);
    FinishHonoured(s.workflows[l.workflowId].tasks[l.taskId],
                   if rt.state == Leased then Transition(rt, Running).(startedAt := Some(now))
                       else rt, exitCode, error, now);
  }

  /** Recomputing leaves the completed task alone. */
  lemma EndedStays(w: Snapshot, t: string, rt: TaskRuntime, now: Time)
    requires Shape(Put(w, t, rt)) && t in w.runtime
    requires rt.state in {Succeeded, Failed} || (rt.state == RetryWait && !Due(rt, now))
    ensures t in Recomputed(Put(w, t, rt), now).runtime && Recomputed(Put(w, t, rt), now).runtime[t] == rt
  {
    var v := Put(w, t, rt);
    hide Shape, StepTasks, Due;
    ShapeKeys(v);
    if !TerminalWorkflow(v.state) { StepRule(v, now, t); }
  }

  lemma CompletedTasks(s: StoreState, op: Op, token: string, rt: TaskRuntime, now: Time)
    requires Inv(s) && token in s.leases && LeaseLinked(s, token) && op.Complete?
    requires rt.state in {Succeeded, Failed} || (rt.state == RetryWait && !Due(rt, now))
    ensures FollowsEdges(op, s, AfterCompletion(s, token, rt, now))
    ensures
      var l := s.leases[token];
      && HasTask(AfterCompletion(s, token, rt, now), l.workflowId, l.taskId)
      && TaskAt(AfterCompletion(s, token, rt, now), l.workflowId, l.taskId) == rt
  {
    hide Inv, FlowOk, Shape, Recomputed, QuietMove, Due;
    var l := s.leases[token];
    var w := s.workflows[l.workflowId];
    var v := Put(w, l.taskId, rt);
    var s' := AfterCompletion(s, token, rt, now);
    CompletedShape(s, token, rt, now);
    EndedStays(w, l.taskId, rt, now);
    EndedQuiet(s, token, rt, now);
    forall i, t | HasTask(s, i, t) ensures HasTask(s', i, t) && MovedBy(op, StateOf(s, i, t), StateOf(s', i, t)) {
      if i == l.workflowId && t != l.taskId { QuietIsEdge(v.runtime[t], s'.workflows[i].runtime[t]); }
    }
  }

  lemma CompletedShape(s: StoreState, token: string, rt: TaskRuntime, now: Time)
    requires Inv(s) && token in s.leases && LeaseLinked(s, token) && rt.state in {Succeeded, RetryWait, Failed}
    ensures
      var l := s.leases[token];
      && Shape(Put(s.workflows[l.workflowId], l.taskId, rt))
      && AfterCompletion(s, token, rt, now).workflows
           == s.workflows[l.workflowId := Recomputed(Put(s.workflows[l.workflowId], l.taskId, rt), now)]
  {
    hide FlowOk, Shape, Recomputed;
    var l := s.leases[token];
    assert FlowOk(s.workflows[l.workflowId]);
    EndedFlow(s.workflows[l.workflowId], l.taskId, rt, now);
  }

  lemma CompleteFollowsEdges(s: StoreState, op: Op, token: string, exitCode: int, error: string, now: Time)
    requires Inv(s) && op.Complete?
    ensures FollowsEdges(op, s, CompleteLease(s, token, exitCode, error, now).0)
    ensures CompleteLease(s, token, exitCode, error, now).1 == Done ==>
      token in s.leases && CompletionHonoured(s, CompleteLease(s, token, exitCode, error, now).0, s.leases[token],
          exitCode, error)
  {
    hide Inv, FollowsEdges, CompleteLease, Ended, AfterCompletion, CompletionEvents, CompletionTarget, Due,
        CompletionHonoured;
    GuardKeepsInv(s, token, now);
    CompleteOutcome(s, token, exitCode, error, now);
    if Guard(s, token, now).None? {
      CompleteShape(s, token, exitCode, error, now);
      EndedIs(s, token, exitCode, error, now);
      EndedHonoured(s, token, exitCode, error, now);
      var (rt, kind) := Ended(s, token, exitCode, error, now);
      var s1 := AfterCompletion(s, token, rt, now);
      CompletedTasks(s, op, token, rt, now);
      PublishedFollows(op, s, s1, CompletionEvents(s, token, rt, kind, now));
      PublishedHonoured(s, s1, CompletionEvents(s, token, rt, kind, now), s.leases[token], exitCode, error);
    } else {
      CompleteGuarded(s, token, exitCode, error, now);
      GuardFollowsEdges(s, op, token, now);
    }
  }

  /** The completed task ends where the report, and the attempts left, say. */
  ghost predicate CompletionHonoured(s: StoreState, s': StoreState, l: Lease, exitCode: int, error: string) {
    && HasTask(s, l.workflowId, l.taskId) && HasTask(s', l.workflowId, l.taskId)
    && l.taskId in s.workflows[l.workflowId].tasks
    && TaskAt(s', l.workflowId, l.taskId).state
         == CompletionTarget(s.workflows[l.workflowId].tasks[l.taskId], l.attempt, exitCode, error)
  }

  lemma PublishedFollows(op: Op, s: StoreState, s1: StoreState, events: seq<Event>)
    requires FollowsEdges(op, s, s1)
    ensures FollowsEdges(op, s, Publish(s1, events))
  {
  }

  lemma PublishedHonoured(s: StoreState, s1: StoreState, events: seq<Event>, l: Lease, exitCode: int, error: string)
    requires HasTask(s, l.workflowId, l.taskId) && HasTask(s1, l.workflowId, l.taskId)
        && l.taskId in s.workflows[l.workflowId].tasks
    requires TaskAt(s1, l.workflowId, l.taskId).state == CompletionTarget(s.workflows[l.workflowId].tasks[l.taskId],
        l.attempt, exitCode, error)
    ensures CompletionHonoured(s, Publish(s1, events), l, exitCode, error)
  {
  }

  // Creation

  /** A new task starts pending and is moved on at most once. */
  lemma CreateFollowsEdges(s: StoreState, op: Op, spec: WorkflowSpec, valid: Result<seq<string>, SpecError>,
      key: string, id: string, now: Time)
    requires id !in s.workflows && op.Create?
    requires valid.Success? ==> ValidSpec(spec) && LeastTopological(GraphOf(spec.tasks), valid.value)
    ensures FollowsEdges(op, s, CreateWorkflow(s, spec, valid, key, id, now).0)
  {
    hide Recomputed, CreationEvents, ValidSpec, LeastTopological, Allowed, Shape;
    var s' := CreateWorkflow(s, spec, valid, key, id, now).0;
    if !(key != "" && key in s.idempotency) && valid.Success? {
      var w := NewSnapshot(id, spec, valid.value, now);
      NewSnapshotShape(id, spec, valid.value, now);
      NewTasksPending(id, spec, valid.value, now);
      RecomputedQuiet(w, now);
      forall t | t in Recomputed(w, now).runtime ensures Moved(Pending, Recomputed(w, now).runtime[t].state) {
        QuietIsEdge(w.runtime[t], Recomputed(w, now).runtime[t]);
      }
      assert s'.workflows == s.workflows[id := Recomputed(w, now)];
      forall i, t
        ensures (HasTask(s, i, t) ==> HasTask(s', i, t)) && (HasTask(s', i, t)
            ==> MovedBy(op, StateOf(s, i, t), StateOf(s', i, t)))
      {
        if i == id && t in Recomputed(w, now).runtime { assert StateOf(s, i, t) == Pending; }
      }
    }
  }

  lemma NewSnapshotShape(id: string, spec: WorkflowSpec, order: seq<string>, now: Time)
    requires ValidSpec(spec) && LeastTopological(GraphOf(spec.tasks), order)
    ensures Shape(NewSnapshot(id, spec, order, now))
  {
    hide Shape, ValidSpec, LeastTopological;
    NewSnapshotHealthy(id, spec, order, now);
  }

  lemma NewTasksPending(id: string, spec: WorkflowSpec, order: seq<string>, now: Time)
    ensures
      forall t :: t in NewSnapshot(id, spec, order, now).runtime ==>
        NewSnapshot(id, spec, order, now).runtime[t].state == Pending
  {
  }

  // Steps and runs

  /** No request of `TransitionTask` is refused: whenever an operation reports success, the task it
      names is in the state that was asked for. */
  ghost predicate RequestsHonoured(s: StoreState, c: Call, r: (StoreState, Outcome)) {
    match c.op
    case Poll(workerId, token, tokens, sweepIds, scanIds) => GrantedLeased(r)
    case Start(token) =>
      r.1 == Done ==>
        token in s.leases && HasTask(r.0, s.leases[token].workflowId, s.leases[token].taskId)
        && TaskAt(r.0, s.leases[token].workflowId, s.leases[token].taskId).state == Running
    case Complete(token, exitCode, error) =>
      r.1 == Done ==> token in s.leases && CompletionHonoured(s, r.0, s.leases[token], exitCode, error)
    case _ => true
  }

  lemma StartHonoured(s: StoreState, token: string, now: Time)
    requires Inv(s)
    ensures StartLease(s, token, now).1 == Done ==>
      token in s.leases && HasTask(StartLease(s, token, now).0, s.leases[token].workflowId, s.leases[token].taskId)
      && TaskAt(StartLease(s, token, now).0, s.leases[token].workflowId, s.leases[token].taskId).state == Running
  {
    hide Inv, Expire;
    GuardKeepsInv(s, token, now);
  }

  /** The recomputation requests only legal transitions: it could as well assign the states directly. */
  lemma RecomputeHonoured(deps: seq<string>, rt: TaskRuntime, runtime: map<string, TaskRuntime>, now: Time)
    ensures
      StepTask(deps, rt, runtime, now)
        == if rt.state == Pending && SomeImpossible(deps, runtime) then rt.(state := Cancelled)
           else if rt.state == Pending && AllSucceeded(deps, runtime) then rt.(state := Ready)
           else if rt.state == RetryWait && Due(rt, now) then rt.(state := Ready, nextRetryAt := None)
           else rt
  {
  }

  lemma StepFollowsEdges(s: StoreState, c: Call)
    requires Inv(s) && Enabled(s, c.op)
    ensures FollowsEdges(c.op, s, Step(s, c).0) && RequestsHonoured(s, c, Step(s, c))
  {
    hide Inv, FollowsEdges, GrantedLeased, CompletionHonoured, PolledTasks, Settled,
      CreateWorkflow, CancelWorkflow, LeaseNext, StartLease, RenewLease, AppendLog, CompleteLease, Sweep;
    var s' := Step(s, c).0;
    match c.op
    case Create(spec, valid, key, id) => CreateFollowsEdges(s, c.op, spec, valid, key, id, c.now);
    case Cancel(id, tokens) => CancelFollowsEdges(s, c.op, id, c.now, tokens);
    case Register(name, version, labels, capacity, id) =>
      SettledSame(s, s');
      SettledFollowsEdges(s, c.op, s');
    case Heartbeat(id) =>
      SettledSame(s, s');
      SettledFollowsEdges(s, c.op, s');
    case Poll(workerId, token, tokens, sweepIds, scanIds) =>
      LeaseNextPolled(s, workerId, c.now, token, tokens, sweepIds, scanIds);
      PollFollowsEdges(s, c.op, s');
    case Start(token) =>
      LeaseOperationsFollowEdges(s, c.op, token, "", "", c.now);
      StartHonoured(s, token, c.now);
    case Renew(token) => LeaseOperationsFollowEdges(s, c.op, token, "", "", c.now);
    case Log(token, stream, text) => LeaseOperationsFollowEdges(s, c.op, token, stream, text, c.now);
    case Complete(token, exitCode, error) => CompleteFollowsEdges(s, c.op, token, exitCode, error, c.now);
    case Tick(tokens, ids) =>
      SweepSettles(s, tokens, ids, c.now);
      SettledFollowsEdges(s, c.op, s');
  }

  /** In every run, every step moves every task along edges of the transition table, and no request
      for a transition is refused. */
  lemma RunFollowsEdges(run: seq<Call>, n: nat)
    requires Legal(run) && n < |run|
    ensures Legal(run[..n])
    ensures FollowsEdges(run[n].op, After(run[..n]), After(run[..n + 1]))
    ensures RequestsHonoured(After(run[..n]), run[n], Step(After(run[..n]), run[n]))
    decreases |run|
  {
    hide FollowsEdges, RequestsHonoured, Step, Enabled, After;
    var init := run[..|run| - 1];
    if n == |run| - 1 {
      assert run[..n] == init;
      assert run[..n + 1] == run;
      AfterAll(run);
      RunInv(init);
      StepFollowsEdges(After(init), run[n]);
    } else {
      RunFollowsEdges(init, n);
      assert init[..n] == run[..n];
      assert init[..n + 1] == run[..n + 1];
      assert init[n] == run[n];
    }
  }

  lemma AfterAll(run: seq<Call>)
    requires run != []
    ensures After(run) == Step(After(run[..|run| - 1]), run[|run| - 1]).0
  {
  }
}
