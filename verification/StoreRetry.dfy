/** A failed attempt waits exactly until its retry time, over any run. */
module StoreRetry {
  import opened Graph
  import opened WorkflowSpec
  import opened Runtime
  import opened Recompute
  import opened StoreModel
  import opened StoreInvariant
  import opened StoreOperations
  import opened StoreRuns
  import StoreTiming
  import StoreAnswers
  import StoreTransitions
  import StoreFinality
  import StoreBudget

  /** The task waits for a retry that is not due at `now`. */
  predicate Waiting(s: StoreState, i: string, t: string, now: Time) {
    && HasTask(s, i, t) && TaskAt(s, i, t).state.RetryWait?
    && TaskAt(s, i, t).nextRetryAt.Some? && now < TaskAt(s, i, t).nextRetryAt.value
  }

  /** Every task that waits and is not due goes on waiting, unless it belongs to the workflow `but`. */
  ghost predicate StillWaiting(s: StoreState, s': StoreState, now: Time, but: string) {
    forall i, t :: Waiting(s, i, t, now) && i != but ==> HasTask(s', i, t) && TaskAt(s', i, t) == TaskAt(s, i, t)
  }

  lemma StillTransitive(a: StoreState, b: StoreState, c: StoreState, now: Time, but: string)
    requires StillWaiting(a, b, now, but) && StillWaiting(b, c, now, but)
    ensures StillWaiting(a, c, now, but)
  {
  }

  lemma SameStill(s: StoreState, s': StoreState, now: Time, but: string)
    requires s'.workflows == s.workflows
    ensures StillWaiting(s, s', now, but)
  {
  }

  /** A change of one task that does not wait. */
  lemma TaskStill(s: StoreState, s': StoreState, i: string, t: string, rt: TaskRuntime, now: Time, but: string)
    requires HasTask(s, i, t) && !TaskAt(s, i, t).state.RetryWait?
    requires s'.workflows == s.workflows[i := s.workflows[i].(runtime := s.workflows[i].runtime[t := rt])]
    ensures StillWaiting(s, s', now, but)
  {
  }

  lemma ExpireStill(s: StoreState, token: string, now: Time, but: string)
    requires Inv(s) && token in s.leases
    ensures StillWaiting(s, Expire(s, token, now), now, but)
  {
    hide FlowOk, Expire, WorkerCounts, TasksLinked;
    ExpireShape(s, token, now);
    var l := s.leases[token];
    TaskStill(s, Expire(s, token, now), l.workflowId, l.taskId, Requeued(TaskAt(s, l.workflowId, l.taskId)), now, but);
  }

  lemma {:induction false} ExpireDueStill(s: StoreState, tokens: seq<string>, now: Time, but: string)
    requires Inv(s)
    ensures StillWaiting(s, ExpireDue(s, tokens, now), now, but)
  {
    hide Inv, Expire, StillWaiting;
    if tokens == [] {
      SameStill(s, s, now, but);
    } else {
      var s1, k := ExpireDue(s, tokens[..|tokens| - 1], now), tokens[|tokens| - 1];
      ExpireDueStill(s, tokens[..|tokens| - 1], now, but);
      ExpireDueKeepsInv(s, tokens[..|tokens| - 1], now);
      if k in s1.leases {
        ExpireStill(s1, k, now, but);
        StillTransitive(s, s1, Expire(s1, k, now), now, but);
      }
    }
  }

  lemma SilentStill(s: StoreState, id: string, now: Time, but: string)
    requires Inv(s) && id in s.workflows
    ensures StillWaiting(s, WithWorkflow(s, id, Recomputed(s.workflows[id], now)), now, but)
  {
    hide Inv, Recomputed, Shape;
    var s' := WithWorkflow(s, id, Recomputed(s.workflows[id], now));
    WorkflowShaped(s, id);
    forall i, t | Waiting(s, i, t, now) && i != but ensures HasTask(s', i, t) && TaskAt(s', i, t) == TaskAt(s, i, t) {
      if i == id { WaitingStays(s.workflows[id], t, now); }
    }
  }

  /** A pass before its retry time leaves a waiting task alone. */
  lemma WaitingStays(w: Snapshot, t: string, now: Time)
    requires Shape(w) && t in w.runtime && w.runtime[t].state.RetryWait?
    requires w.runtime[t].nextRetryAt.Some? && now < w.runtime[t].nextRetryAt.value
    ensures t in Recomputed(w, now).runtime && Recomputed(w, now).runtime[t] == w.runtime[t]
  {
    hide StepTasks, Topological;
    if !TerminalWorkflow(w.state) { PassRule(w, now, t); }
  }

  lemma RecomputeOneStill(s: StoreState, id: string, now: Time, but: string)
    requires Inv(s) && id in s.workflows
    ensures StillWaiting(s, RecomputeOne(s, id, now), now, but)
  {
    hide Inv, Recomputed, StillWaiting;
    var s1 := WithWorkflow(s, id, Recomputed(s.workflows[id], now));
    SilentStill(s, id, now, but);
    SameStill(s1, RecomputeOne(s, id, now), now, but);
    StillTransitive(s, s1, RecomputeOne(s, id, now), now, but);
  }

  lemma {:induction false} RecomputeAllStill(s: StoreState, ids: seq<string>, now: Time, but: string)
    requires Inv(s)
    ensures StillWaiting(s, RecomputeAll(s, ids, now), now, but)
  {
    hide Inv, RecomputeOne, StillWaiting;
    if ids == [] {
      SameStill(s, s, now, but);
    } else {
      var s1, id := RecomputeAll(s, ids[..|ids| - 1], now), ids[|ids| - 1];
      RecomputeAllStill(s, ids[..|ids| - 1], now, but);
      RecomputeAllKeepsInv(s, ids[..|ids| - 1], now);
      if id in s1.workflows {
        RecomputeOneStill(s1, id, now, but);
        StillTransitive(s, s1, RecomputeOne(s1, id, now), now, but);
      }
    }
  }

  lemma SweepStill(s: StoreState, tokens: seq<string>, ids: seq<string>, now: Time, but: string)
    requires Inv(s)
    ensures StillWaiting(s, Sweep(s, tokens, ids, now), now, but)
  {
    hide Inv, ExpireDue, RecomputeAll, StillWaiting;
    ExpireDueStill(s, tokens, now, but);
    ExpireDueKeepsInv(s, tokens, now);
    RecomputeAllStill(ExpireDue(s, tokens, now), ids, now, but);
    StillTransitive(s, ExpireDue(s, tokens, now), Sweep(s, tokens, ids, now), now, but);
  }

  lemma {:induction false} ScanStill(s: StoreState, candidates: seq<string>, workerId: string, now: Time, token: string,
      but: string)
    requires Inv(s) && workerId in s.workers
    ensures StillWaiting(s, Scan(s, candidates, workerId, now, token).0, now, but)
    decreases |candidates|
  {
    hide Inv, Grant, Recomputed, Offered, StillWaiting;
    if candidates == [] {
      SameStill(s, s, now, but);
    } else if candidates[0] !in s.workflows {
      ScanStill(s, candidates[1..], workerId, now, token, but);
    } else {
      var id := candidates[0];
      var w := Recomputed(s.workflows[id], now);
      var s1 := WithWorkflow(s, id, w);
      SilentRecomputeKeepsInv(s, id, now);
      SilentStill(s, id, now, but);
      FirstOfferedIs(w, s.workers[workerId].labels, 0);
      match FirstOffered(w, s.workers[workerId].labels, 0)
      case Some(t) =>
        OfferedIs(w, s.workers[workerId].labels, t);
        GrantStill(s1, id, t, workerId, now, token, but);
        StillTransitive(s, s1, Grant(s1, id, t, workerId, now, token).0, now, but);
      case None =>
        ScanStill(s1, candidates[1..], workerId, now, token, but);
        StillTransitive(s, s1, Scan(s1, candidates[1..], workerId, now, token).0, now, but);
    }
  }

  lemma GrantStill(s: StoreState, i: string, t: string, workerId: string, now: Time, token: string, but: string)
    requires HasTask(s, i, t) && t in s.workflows[i].tasks && workerId in s.workers && TaskAt(s, i, t).state == Ready
    ensures StillWaiting(s, Grant(s, i, t, workerId, now, token).0, now, but)
  {
    var s' := Grant(s, i, t, workerId, now, token).0;
    TaskStill(s, s', i, t, TaskAt(s', i, t), now, but);
  }

  lemma PollStill(s: StoreState, workerId: string, now: Time, token: string,
                  tokens: seq<string>, sweepIds: seq<string>, scanIds: seq<string>, but: string)
    requires Inv(s)
    ensures StillWaiting(s, LeaseNext(s, workerId, now, token, tokens, sweepIds, scanIds).0, now, but)
  {
    hide Inv, Scan, Sweep, Candidates, StillWaiting;
    var s1 := Sweep(s, tokens, sweepIds, now);
    var s' := LeaseNext(s, workerId, now, token, tokens, sweepIds, scanIds).0;
    SweepStill(s, tokens, sweepIds, now, but);
    SweepKeepsInv(s, tokens, sweepIds, now);
    if workerId in s1.workers {
      ScanStill(s1, Candidates(s1, scanIds), workerId, now, token, but);
      StillTransitive(s, s1, Scan(s1, Candidates(s1, scanIds), workerId, now, token).0, now, but);
    }
  }

  lemma GuardStill(s: StoreState, token: string, now: Time, but: string)
    requires Inv(s) && Guard(s, token, now).Some?
    ensures StillWaiting(s, Guard(s, token, now).value.0, now, but)
  {
    hide Inv, Expire, StillWaiting;
    SameStill(s, s, now, but);
    if token in s.leases { ExpireStill(s, token, now, but); }
  }

  /** An operation on a live lease rewrites at most its task, which does not wait. */
  lemma LeaseStill(s: StoreState, s': StoreState, token: string, rt: TaskRuntime, now: Time, but: string)
    requires Inv(s) && token in s.leases
    requires
      var i, t := s.leases[token].workflowId, s.leases[token].taskId;
      HasTask(s, i, t) && (s'.workflows == s.workflows
        || s'.workflows == s.workflows[i := s.workflows[i].(runtime := s.workflows[i].runtime[t := rt])])
    ensures StillWaiting(s, s', now, but)
  {
    hide Inv, StillWaiting;
    StoreAnswers.LiveTask(s, token);
    if s'.workflows == s.workflows {
      SameStill(s, s', now, but);
    } else {
      TaskStill(s, s', s.leases[token].workflowId, s.leases[token].taskId, rt, now, but);
    }
  }

  lemma StartStill(s: StoreState, token: string, now: Time, but: string)
    requires Inv(s) && StoreAnswers.Live(s, token, now)
    ensures StillWaiting(s, StartLease(s, token, now).0, now, but)
  {
    hide Inv, StillWaiting, StartLease, StoreAnswers.Refuses;
    StoreAnswers.StartAnswers(s, token, now);
    var rt := TaskAt(s, s.leases[token].workflowId, s.leases[token].taskId);
    LeaseStill(s, StartLease(s, token, now).0, token, rt.(state := Running, startedAt := Some(now)), now, but);
  }

  lemma RenewStill(s: StoreState, token: string, now: Time, but: string)
    requires Inv(s) && StoreAnswers.Live(s, token, now)
    ensures StillWaiting(s, RenewLease(s, token, now).0, now, but)
  {
    hide Inv, StillWaiting, RenewLease, StoreAnswers.Refuses;
    StoreAnswers.RenewAnswers(s, token, now);
    var rt := TaskAt(s, s.leases[token].workflowId, s.leases[token].taskId);
    LeaseStill(s, RenewLease(s, token, now).0, token, rt.(leaseUntil := Some(now + 20_000_000_000)), now, but);
  }

  lemma LogStill(s: StoreState, token: string, stream: string, text: string, now: Time, but: string)
    requires Inv(s) && StoreAnswers.Live(s, token, now)
    ensures StillWaiting(s, AppendLog(s, token, stream, text, now).0, now, but)
  {
    hide Inv, StillWaiting, AppendLog, StoreAnswers.Refuses, StoreAnswers.Utf8;
    StoreAnswers.LogAnswers(s, token, stream, text, now);
    var rt := TaskAt(s, s.leases[token].workflowId, s.leases[token].taskId);
    LeaseStill(s, AppendLog(s, token, stream, text, now).0, token,
               rt.(outputBytes := rt.outputBytes + |StoreAnswers.Utf8(text)|), now, but);
  }

  lemma LeaseOperationsStill(s: StoreState, token: string, stream: string, text: string, now: Time, but: string)
    requires Inv(s)
    ensures StillWaiting(s, StartLease(s, token, now).0, now, but)
    ensures StillWaiting(s, RenewLease(s, token, now).0, now, but)
    ensures StillWaiting(s, AppendLog(s, token, stream, text, now).0, now, but)
  {
    hide Inv, StillWaiting, Guard, StoreAnswers.Refuses;
    StoreAnswers.GuardAnswers(s, token, now);
    if StoreAnswers.Live(s, token, now) {
      StartStill(s, token, now, but);
      RenewStill(s, token, now, but);
      LogStill(s, token, stream, text, now, but);
    } else {
      GuardStill(s, token, now, but);
    }
  }

  lemma CompleteStill(s: StoreState, token: string, exitCode: int, error: string, now: Time, but: string)
    requires Inv(s)
    ensures StillWaiting(s, CompleteLease(s, token, exitCode, error, now).0, now, but)
  {
    hide Inv, StillWaiting, Guard, CompleteLease, Ended, AfterCompletion, CompletionEvents;
    StoreAnswers.GuardAnswers(s, token, now);
    if Guard(s, token, now).Some? {
      CompleteGuarded(s, token, exitCode, error, now);
      GuardStill(s, token, now, but);
    } else {
      LinkedLease(s, token);
      CompleteShape(s, token, exitCode, error, now);
      var (rt, kind) := Ended(s, token, exitCode, error, now);
      EndedIs(s, token, exitCode, error, now);
      CompletionStill(s, token, rt, now, but);
      SameStill(AfterCompletion(s, token, rt, now), CompleteLease(s, token, exitCode, error, now).0, now, but);
      StillTransitive(s, AfterCompletion(s, token, rt, now), CompleteLease(s, token, exitCode, error, now).0, now, but);
    }
  }

  lemma CompletionStill(s: StoreState, token: string, rt: TaskRuntime, now: Time, but: string)
    requires Inv(s) && token in s.leases && LeaseLinked(s, token) && rt.state in {Succeeded, RetryWait, Failed}
    ensures StillWaiting(s, AfterCompletion(s, token, rt, now), now, but)
  {
    hide Inv, Recomputed, Shape, AfterCompletion;
    var l := s.leases[token];
    var s' := AfterCompletion(s, token, rt, now);
    StoreAnswers.LiveTask(s, token);
    StoreTransitions.CompletedShape(s, token, rt, now);
    forall i, t | Waiting(s, i, t, now) && i != but ensures HasTask(s', i, t) && TaskAt(s', i, t) == TaskAt(s, i, t) {
      if i == l.workflowId { WaitingStays(Put(s.workflows[i], l.taskId, rt), t, now); }
    }
  }

  lemma CreateStill(s: StoreState, spec: WorkflowSpec, valid: Result<seq<string>, SpecError>, key: string, id: string,
                    now: Time, but: string)
    requires id !in s.workflows
    ensures StillWaiting(s, CreateWorkflow(s, spec, valid, key, id, now).0, now, but)
  {
    hide Recomputed, NewSnapshot, CreationEvents;
  }

  lemma CancelStill(s: StoreState, id: string, now: Time, tokens: seq<string>)
    requires Inv(s) && Enumerates(tokens, s.leases.Keys)
    ensures StillWaiting(s, CancelWorkflow(s, id, now, tokens).0, now, id)
  {
    hide DropLeases, Inv, DroppedTasks, CancelEvents;
    if id in s.workflows && !TerminalWorkflow(s.workflows[id].state) {
      DroppingAll(s, id, tokens, |tokens|, now);
      assert tokens[..|tokens|] == tokens;
    }
  }

  /** The workflow that a call cancels. */
  function CancelledBy(op: Op): string {
    if op.Cancel? then op.id else ""
  }

  /** Whatever is called before its retry time, a waiting task goes on waiting, unless its workflow is cancelled. */
  lemma StepStill(s: StoreState, c: Call)
    requires Inv(s) && Enabled(s, c.op)
    ensures StillWaiting(s, Step(s, c).0, c.now, CancelledBy(c.op))
  {
    hide Inv, StillWaiting, CreateWorkflow, CancelWorkflow, LeaseNext, StartLease, RenewLease, AppendLog, CompleteLease,
        Sweep;
    var but := CancelledBy(c.op);
    match c.op
    case Create(spec, valid, key, id) => CreateStill(s, spec, valid, key, id, c.now, but);
    case Cancel(id, tokens) => CancelStill(s, id, c.now, tokens);
    case Register(name, version, labels, capacity, id) => SameStill(s, Step(s, c).0, c.now, but);
    case Heartbeat(id) => SameStill(s, Step(s, c).0, c.now, but);
    case Poll(workerId, token, tokens, sweepIds, scanIds) =>
      PollStill(s, workerId, c.now, token, tokens, sweepIds, scanIds, but);
    case Start(token) => LeaseOperationsStill(s, token, "", "", c.now, but);
    case Renew(token) => LeaseOperationsStill(s, token, "", "", c.now, but);
    case Log(token, stream, text) => LeaseOperationsStill(s, token, stream, text, c.now, but);
    case Complete(token, exitCode, error) => CompleteStill(s, token, exitCode, error, c.now, but);
    case Tick(tokens, ids) => SweepStill(s, tokens, ids, c.now, but);
  }

  // Waking

  /** A sweep makes a waiting task ready exactly if its retry time has come. */
  lemma SweepWakes(s: StoreState, tokens: seq<string>, ids: seq<string>, now: Time, i: string, t: string)
    requires Inv(s) && Enumerates(ids, s.workflows.Keys) && HasTask(s, i, t)
    requires TaskAt(s, i, t).state.RetryWait? && TaskAt(s, i, t).nextRetryAt.Some?
    ensures
      var s', rt := Sweep(s, tokens, ids, now), TaskAt(s, i, t);
      && HasTask(s', i, t)
      && TaskAt(s', i, t) == if rt.nextRetryAt.value <= now then rt.(state := Ready, nextRetryAt := None) else rt
  {
    hide Inv, Recomputed, Shape, ExpireDue, RecomputeAll;
    var s1 := ExpireDue(s, tokens, now);
    ExpireDueKeepsInv(s, tokens, now);
    ExpireDueFrame(s, tokens, now);
    ExpiryLeavesWaiting(s, tokens, now, i, t);
    assert i in Elements(ids);
    StoreTiming.RecomputeAllAt(s1, ids, now);
    WorkflowShaped(s1, i);
    WaitingUnfinished(s1, i, t);
    StoreTiming.PassKeys(s1.workflows[i], now);
    ShapeTasks(s1.workflows[i]);
    PassRule(s1.workflows[i], now, t);
  }

  lemma ShapeTasks(w: Snapshot)
    requires Shape(w)
    ensures w.runtime.Keys == w.tasks.Keys
  {
  }

  lemma WaitingUnfinished(s: StoreState, i: string, t: string)
    requires Inv(s) && HasTask(s, i, t) && TaskAt(s, i, t).state.RetryWait?
    ensures !TerminalWorkflow(s.workflows[i].state)
  {
    assert FlowOk(s.workflows[i]);
  }

  lemma {:induction false} ExpiryLeavesWaiting(s: StoreState, tokens: seq<string>, now: Time, i: string, t: string)
    requires Inv(s) && HasTask(s, i, t) && TaskAt(s, i, t).state.RetryWait?
    ensures HasTask(ExpireDue(s, tokens, now), i, t) && TaskAt(ExpireDue(s, tokens, now), i, t) == TaskAt(s, i, t)
  {
    hide Inv, Expire;
    if tokens != [] {
      var s1, k := ExpireDue(s, tokens[..|tokens| - 1], now), tokens[|tokens| - 1];
      ExpiryLeavesWaiting(s, tokens[..|tokens| - 1], now, i, t);
      ExpireDueKeepsInv(s, tokens[..|tokens| - 1], now);
      if k in s1.leases {
        StoreTiming.ExpireOne(s1, k, now, i, t);
        StoreAnswers.LiveTask(s1, k);
      }
    }
  }

  // Runs

  /** From the completion that failed on, the task waits through any calls before its retry time, unless its workflow is
      cancelled, and the first sweep at or after that time makes it ready. */
  lemma {:induction false} WaitsThrough(run: seq<Call>, n: nat, i: string, t: string)
    requires Legal(run) && n <= |run| && HasTask(After(run[..n]), i, t)
    requires TaskAt(After(run[..n]), i, t).state.RetryWait? && TaskAt(After(run[..n]), i, t).nextRetryAt.Some?
    requires
      forall k :: n <= k < |run| ==>
        run[k].now < TaskAt(After(run[..n]), i, t).nextRetryAt.value && CancelledBy(run[k].op) != i
    ensures HasTask(After(run), i, t) && TaskAt(After(run), i, t) == TaskAt(After(run[..n]), i, t)
    decreases |run|
  {
    hide Step, Inv, Enabled, StillWaiting, HasTask;
    if n == |run| {
      assert run[..n] == run;
    } else {
      var init := run[..|run| - 1];
      assert init[..n] == run[..n];
      WaitsThrough(init, n, i, t);
      RunInv(init);
      NamedWorkflow(init, i, t);
      StepStill(After(init), run[|run| - 1]);
      StillOne(After(init), After(run), run[|run| - 1].now, CancelledBy(run[|run| - 1].op), i, t);
    }
  }

  lemma NamedWorkflow(run: seq<Call>, i: string, t: string)
    requires Legal(run) && HasTask(After(run), i, t)
    ensures i != ""
  {
    hide StoreBudget.WorkflowBalanced, StoreBudget.EventsKnown, Legal, After;
    StoreBudget.RunBudget(run);
  }

  lemma StillOne(s: StoreState, s': StoreState, now: Time, but: string, i: string, t: string)
    requires StillWaiting(s, s', now, but) && i != but && HasTask(s, i, t) && TaskAt(s, i, t).state.RetryWait?
    requires TaskAt(s, i, t).nextRetryAt.Some? && now < TaskAt(s, i, t).nextRetryAt.value
    ensures HasTask(s', i, t) && TaskAt(s', i, t) == TaskAt(s, i, t)
  {
  }

  /** The retry time of the attempt that a completion ends. */
  function RetryTime(s: StoreState, c: Call): Time
    requires c.op.Complete? && c.op.token in s.leases
    requires
      var l := s.leases[c.op.token];
      HasTask(s, l.workflowId, l.taskId) && l.taskId in s.workflows[l.workflowId].tasks
  {
    var l := s.leases[c.op.token];
    var policy := NormalizeRetry(s.workflows[l.workflowId].tasks[l.taskId].retry);
    c.now + Backoff(policy, TaskAt(s, l.workflowId, l.taskId).attempt) * 1_000_000
  }

  /** A live lease is reported as failed, and its task has attempts left. */
  ghost predicate Fails(s: StoreState, c: Call) {
    && c.op.Complete? && !(c.op.exitCode == 0 && c.op.error == "") && StoreAnswers.Live(s, c.op.token, c.now)
    && var l := s.leases[c.op.token];
       && HasTask(s, l.workflowId, l.taskId) && l.taskId in s.workflows[l.workflowId].tasks
       && TaskAt(s, l.workflowId, l.taskId).attempt
          < NormalizeRetry(s.workflows[l.workflowId].tasks[l.taskId].retry).maxAttempts
  }

  lemma FailureWaits(s: StoreState, c: Call)
    requires Inv(s) && Fails(s, c)
    ensures
      var l := s.leases[c.op.token];
      var s' := Step(s, c).0;
      && HasTask(s', l.workflowId, l.taskId) && TaskAt(s', l.workflowId, l.taskId).state.RetryWait?
      && TaskAt(s', l.workflowId, l.taskId).nextRetryAt == Some(RetryTime(s, c))
  {
    hide Inv, CompleteLease, Backoff, NormalizeRetry, StoreAnswers.Refuses;
    StoreAnswers.CompleteAnswers(s, c.op.token, c.op.exitCode, c.op.error, c.now);
    StepIsComplete(s, c);
  }

  /** The life of a retry. A completion that fails with attempts left makes its task wait until the retry time, which
      is the time of the completion plus the backoff of the attempt; until then nothing but a cancellation changes the
      task; and a sweep makes it ready exactly from then on. */
  lemma RetryLife(run: seq<Call>, n: nat, tick: Call)
    requires Legal(run + [tick]) && n < |run| && tick.op.Tick? && Fails(After(run[..n]), run[n])
    requires
      var s := After(run[..n]);
      forall k :: n < k < |run| ==>
        run[k].now < RetryTime(s, run[n]) && CancelledBy(run[k].op) != s.leases[run[n].op.token].workflowId
    ensures
      var s := After(run[..n]);
      var due, i, t := RetryTime(s, run[n]), s.leases[run[n].op.token].workflowId, s.leases[run[n].op.token].taskId;
      && HasTask(After(run), i, t) && TaskAt(After(run), i, t).state.RetryWait?
      && TaskAt(After(run), i, t).nextRetryAt == Some(due)
      && HasTask(After(run + [tick]), i, t)
      && TaskAt(After(run + [tick]), i, t) ==
           (if due <= tick.now then TaskAt(After(run), i, t).(state := Ready, nextRetryAt := None)
            else TaskAt(After(run), i, t))
  {
    hide Step, Inv, After, HasTask, Sweep, RetryTime, Legal, Fails, CancelledBy;
    var s := After(run[..n]);
    FailsMeans(s, run[n]);
    var i, t := s.leases[run[n].op.token].workflowId, s.leases[run[n].op.token].taskId;
    LegalParts(run, n, tick);
    RunInv(run[..n]);
    RunInv(run);
    FailureWaits(s, run[n]);
    WaitsThrough(run, n + 1, i, t);
    AfterLast(run, tick);
    SweepWakes(After(run), tick.op.tokens, tick.op.ids, tick.now, i, t);
  }

  lemma FailsMeans(s: StoreState, c: Call)
    requires Fails(s, c)
    ensures c.op.Complete? && c.op.token in s.leases
    ensures HasTask(s, s.leases[c.op.token].workflowId, s.leases[c.op.token].taskId)
    ensures s.leases[c.op.token].taskId in s.workflows[s.leases[c.op.token].workflowId].tasks
  {
  }

  lemma StepIsComplete(s: StoreState, c: Call)
    requires c.op.Complete?
    ensures Step(s, c).0 == CompleteLease(s, c.op.token, c.op.exitCode, c.op.error, c.now).0
  {
    hide CompleteLease;
  }

  lemma LegalParts(run: seq<Call>, n: nat, tick: Call)
    requires Legal(run + [tick]) && n < |run| && tick.op.Tick?
    ensures Legal(run) && Legal(run[..n]) && After(run[..n + 1]) == Step(After(run[..n]), run[n]).0
    ensures Enumerates(tick.op.ids, After(run).workflows.Keys)
    ensures Step(After(run), tick).0 == Sweep(After(run), tick.op.tokens, tick.op.ids, tick.now)
  {
    hide Sweep, After, Legal, Step;
    LastTick(run, tick);
    StoreFinality.LegalPrefix(run, n);
    StoreFinality.AfterNext(run, n);
  }

  lemma LastTick(run: seq<Call>, tick: Call)
    requires Legal(run + [tick]) && tick.op.Tick?
    ensures Legal(run) && Enumerates(tick.op.ids, After(run).workflows.Keys)
    ensures Step(After(run), tick).0 == Sweep(After(run), tick.op.tokens, tick.op.ids, tick.now)
  {
    hide Sweep, After;
    assert (run + [tick])[..|run|] == run;
  }
}
