/** Every reachable chaos `Model` keeps its invariant, whether or not completions follow starts. */
module ChaosInvariant {
  import opened Runtime
  import opened ChaosModel
  import opened ChaosReplay
  import opened ChaosAcceptance
  import opened ChaosSound
  import Graph
  import R = Replay

  // recompute

  lemma ReadyRecord(task: Task, now: Time, limit: int, c: Counts, f: Flags)
    requires RecordOk(task, now, limit, c, f) && task.state in {Pending, RetryWait}
    ensures RecordOk(task.(state := Ready, nextRetry := None, finished := None), now, limit, Bump(c, R.TaskReady), f)
  {
  }

  lemma GivenUpRecord(task: Task, now: Time, limit: int, c: Counts, f: Flags)
    requires RecordOk(task, now, limit, c, f) && task.state == Pending
    ensures RecordOk(task.(state := Cancelled, finished := Some(now)), now, limit, c, f)
  {
  }

  lemma Resting(task: Task, now: Time, limit: int, c: Counts, f: Flags)
    requires RecordOk(task, now, limit, c, f) && task.state == Pending
    ensures task.nextRetry == None && task.finished == None
  {
  }

  /** A task that becomes ready, or is given up. */
  lemma RecomputedTask(m: Model, m': Model, f: Flags, w: string, t: string, task': Task)
    requires Kept(m, f) && Has(m, w, t) && !TerminalWorkflow(m.workflows[w].state)
    requires m.workflows[w].tasks[t].state in {Pending, RetryWait}
        && task'.leaseToken == m.workflows[w].tasks[t].leaseToken
    requires task'.state in {Ready, Cancelled} && SafeMove(m.workflows[w], t, task') && Told(m, m', w, t)
    requires m' == PutTask(m, w, t, task').(events := m'.events)
    requires RecordOk(task', m.now, m.outputLimit, CountsOf(m'.events, w, t), f)
    ensures Kept(m', f)
  {
    hide Inv, Sound, SafeMove, Told, RecordOk, CountsOf;
    TokenOf(m, w, t);
    InvPutTask(m, w, t, task');
    InvSame(PutTask(m, w, t, task'), m');
    FreeStep(m, m', f, w, t, task');
  }

  /** The list of events does not matter to `Inv`. */
  lemma InvSame(m: Model, m': Model)
    requires Inv(m) && m'.workflows == m.workflows && m'.leases == m.leases && m'.workers.Keys == m.workers.Keys
    ensures Inv(m')
  {
    assert forall w, t :: Has(m', w, t) <==> Has(m, w, t);
    forall k | k in m'.leases ensures LeaseOk(m', k) { assert LeaseOk(m, k); }
    forall w, t | Has(m', w, t) ensures TokenOk(m', w, t) { assert TokenOk(m, w, t); }
  }

  lemma KeptRecord(m: Model, f: Flags, w: string, t: string)
    requires Kept(m, f) && Has(m, w, t)
    ensures RecordOk(m.workflows[w].tasks[t], m.now, m.outputLimit, CountsOf(m.events, w, t), f)
  {
    hide RecordOk, Inv;
    TheRecord(m, f, w, t);
  }

  lemma ReadyMove(wf: ChaosModel.Workflow, t: string, task': Task)
    requires t in wf.tasks && !TerminalWorkflow(wf.state)
    requires wf.tasks[t].state == RetryWait || (wf.tasks[t].state == Pending
        && Satisfied(wf.tasks, wf.tasks[t].dependsOn))
    requires task'.state == Ready && task'.dependsOn == wf.tasks[t].dependsOn
    ensures SafeMove(wf, t, task')
  {
  }

  lemma MakeReadyKept(m: Model, f: Flags, w: string, t: string, task': Task)
    requires Kept(m, f) && Has(m, w, t) && !TerminalWorkflow(m.workflows[w].state)
    requires var wf, task := m.workflows[w], m.workflows[w].tasks[t];
      && (task.state == RetryWait || (task.state == Pending && Satisfied(wf.tasks, task.dependsOn)))
      && task' == task.(state := Ready, nextRetry := None, finished := None)
    ensures Kept(Emit(PutTask(m, w, t, task'), R.TaskReady, w, t, "", R.Absent), f)
  {
    hide Kept, RecordOk, SafeMove, Satisfied, Told, CountsOf, Bump;
    var m' := Emit(PutTask(m, w, t, task'), R.TaskReady, w, t, "", R.Absent);
    KeptRecord(m, f, w, t);
    ReadyRecord(m.workflows[w].tasks[t], m.now, m.outputLimit, CountsOf(m.events, w, t), f);
    ReadyMove(m.workflows[w], t, task');
    LastCounts(m, m', R.TaskReady, w, t, "", R.Absent);
    RecomputedTask(m, m', f, w, t, task');
  }

  lemma GiveUpMove(wf: ChaosModel.Workflow, t: string, now: Time)
    requires t in wf.tasks && !TerminalWorkflow(wf.state) && wf.tasks[t].state == Pending
    ensures SafeMove(wf, t, wf.tasks[t].(state := Cancelled, finished := Some(now)))
  {
  }

  lemma QuietTold(m: Model, m': Model, w: string, t: string)
    requires m'.events == m.events
    ensures Told(m, m', w, t)
  {
  }

  lemma GiveUpKept(m: Model, f: Flags, w: string, t: string)
    requires Kept(m, f) && Has(m, w, t) && !TerminalWorkflow(m.workflows[w].state)
        && m.workflows[w].tasks[t].state == Pending
    ensures Kept(PutTask(m, w, t, m.workflows[w].tasks[t].(state := Cancelled, finished := Some(m.now))), f)
  {
    hide Kept, RecordOk, SafeMove, Told, CountsOf;
    var task' := m.workflows[w].tasks[t].(state := Cancelled, finished := Some(m.now));
    var m' := PutTask(m, w, t, task');
    KeptRecord(m, f, w, t);
    GivenUpRecord(m.workflows[w].tasks[t], m.now, m.outputLimit, CountsOf(m.events, w, t), f);
    GiveUpMove(m.workflows[w], t, m.now);
    QuietTold(m, m', w, t);
    RecomputedTask(m, m', f, w, t, task');
  }

  lemma PendingClean(m: Model, f: Flags, w: string, t: string)
    requires Kept(m, f) && Has(m, w, t) && m.workflows[w].tasks[t].state == Pending
    ensures m.workflows[w].tasks[t].nextRetry == None && m.workflows[w].tasks[t].finished == None
  {
    hide Kept, RecordOk;
    KeptRecord(m, f, w, t);
    Resting(m.workflows[w].tasks[t], m.now, m.outputLimit, CountsOf(m.events, w, t), f);
  }

  lemma RecomputeTaskKept(m: Model, f: Flags, w: string, t: string)
    requires Kept(m, f) && w in m.workflows && !TerminalWorkflow(m.workflows[w].state)
    ensures var m' := RecomputeTask(m, w, t);
      Kept(m', f) && w in m'.workflows && m'.workflows[w].state == m.workflows[w].state
  {
    hide Kept, Impossible, Satisfied;
    if t in m.workflows[w].tasks {
      var tasks, task := m.workflows[w].tasks, m.workflows[w].tasks[t];
      if task.state == Pending && Impossible(tasks, task.dependsOn) {
        GiveUpKept(m, f, w, t);
      } else if task.state == Pending && Satisfied(tasks, task.dependsOn) {
        PendingClean(m, f, w, t);
        MakeReadyKept(m, f, w, t, task.(state := Ready));
      } else if task.state == RetryWait && (task.nextRetry == None || task.nextRetry.value <= m.now) {
        MakeReadyKept(m, f, w, t, task.(state := Ready, nextRetry := None, finished := None));
      }
    }
  }

  lemma {:induction false} RecomputeTasksKept(m: Model, f: Flags, w: string, order: seq<string>, n: nat)
    requires Kept(m, f) && w in m.workflows && !TerminalWorkflow(m.workflows[w].state) && n <= |order|
    ensures var m' := RecomputeTasks(m, w, order, n);
      Kept(m', f) && m'.workflows[w].state == m.workflows[w].state
  {
    hide Kept, RecomputeTask;
    if n > 0 {
      RecomputeTasksKept(m, f, w, order, n - 1);
      RecomputeTaskKept(RecomputeTasks(m, w, order, n - 1), f, w, order[n - 1]);
    }
  }

  lemma StateAside(m: Model, m': Model, kind: R.Kind, w: string)
    requires w in m'.workflows && Neutral(kind) && m'.events == Emit(m, kind, w, "", "", R.Absent).events
    ensures Aside(m, m')
  {
    hide Neutral;
  }

  lemma NeutralState(state: WorkflowState)
    ensures Neutral(StateEvent(state))
  {
  }

  lemma RecomputeStateKept(m: Model, f: Flags, w: string)
    requires Kept(m, f) && w in m.workflows && !TerminalWorkflow(m.workflows[w].state)
    ensures Kept(RecomputeState(m, w), f)
  {
    hide Inv, Sound, NextState, StateEvent, Neutral, Aside;
    var wf := m.workflows[w];
    var next := NextState(wf);
    if next != wf.state {
      NextStates(wf);
      var m1 := m.(workflows := m.workflows[w := NextFlow(wf, m.now)]);
      NextStateInv(m, w, NextFlow(wf, m.now));
      InvEmit(m1, StateEvent(next), w, "", "", R.Absent);
      var m' := Emit(m1, StateEvent(next), w, "", "", R.Absent);
      NeutralState(next);
      StateAside(m, m', StateEvent(next), w);
      NextStateSound(m, m', f, w);
    }
  }

  lemma RecomputeKept(m: Model, f: Flags, w: string)
    requires Kept(m, f)
    ensures Kept(Recompute(m, w), f)
  {
    hide Kept, RecomputeTasks, RecomputeState;
    if w in m.workflows && !TerminalWorkflow(m.workflows[w].state) {
      RecomputeTasksKept(m, f, w, m.workflows[w].order, |m.workflows[w].order|);
      RecomputeStateKept(RecomputeTasks(m, w, m.workflows[w].order, |m.workflows[w].order|), f, w);
    }
  }

  // Ending and holding a lease

  lemma ExpiredRecord(task: Task, token: string, now: Time, limit: int, c: Counts, f: Flags)
    requires RecordOk(task, now, limit, c, f) && HoldsLease(task.state) && task.leaseToken == token
    ensures RecordOk(Reset(Released(task, token)), now, limit, Bump(c, R.LeaseExpired), f)
  {
  }

  lemma CompletedRecord(m: Model, task: Task, exitCode: int, error: string, c: Counts, f: Flags)
    requires RecordOk(task, m.now, m.outputLimit, c, f) && HoldsLease(task.state)
    ensures RecordOk(Completed(m, task, exitCode, error), m.now, m.outputLimit,
                     Bump(c, CompletionState(task, exitCode, error).1), f)
  {
    hide Delay;
  }

  /** A task with a lease, in a workflow that goes on. */
  lemma LeasedTask(m: Model, k: string)
    requires Inv(m) && k in m.leases
    ensures var l := m.leases[k];
      && Has(m, l.workflowId, l.taskId) && Carries(m, k) && !TerminalWorkflow(m.workflows[l.workflowId].state)
      && var task := m.workflows[l.workflowId].tasks[l.taskId];
         task.leaseToken == k && HoldsLease(task.state) && (l.started <==> task.state == Running)
  {
    hide *;
    LeaseNames(m, k);
    LeaseOkMeans(m, k);
  }

  lemma LeaseOkMeans(m: Model, k: string)
    requires k in m.leases && LeaseOk(m, k)
    ensures var l := m.leases[k];
      && Has(m, l.workflowId, l.taskId) && Carries(m, k) && !TerminalWorkflow(m.workflows[l.workflowId].state)
      && var task := m.workflows[l.workflowId].tasks[l.taskId];
         task.leaseToken == k && HoldsLease(task.state) && (l.started <==> task.state == Running)
  {
  }

  lemma LeasedMove(wf: ChaosModel.Workflow, t: string, task': Task)
    requires t in wf.tasks && !TerminalWorkflow(wf.state) && HoldsLease(wf.tasks[t].state)
        && task'.dependsOn == wf.tasks[t].dependsOn
    ensures SafeMove(wf, t, task')
  {
  }

  lemma EndKept(m: Model, f: Flags, k: string, task': Task, kind: R.Kind)
    requires Kept(m, f) && k in m.leases && Has(m, m.leases[k].workflowId, m.leases[k].taskId)
    requires !HoldsLease(task'.state) && task'.leaseToken == ""
    requires var w, t := m.leases[k].workflowId, m.leases[k].taskId;
      && task'.dependsOn == m.workflows[w].tasks[t].dependsOn
      && RecordOk(task', m.now, m.outputLimit, Bump(CountsOf(m.events, w, t), kind), f)
    ensures var l := m.leases[k];
      Kept(Emit(PutTask(DropLease(m, k), l.workflowId, l.taskId, task'), kind, l.workflowId, l.taskId, l.workerId,
          R.Absent), f)
  {
    hide Inv, Sound, RecordOk, SafeMove, Told, CountsOf, Bump, DropLease, HoldsLease, Discard;
    var w, t, x := m.leases[k].workflowId, m.leases[k].taskId, m.leases[k].workerId;
    LeasedTask(m, k);
    DropKeeps(m, k);
    DropShape(m, k);
    var m1 := PutTask(DropLease(m, k), w, t, task');
    var m' := Emit(m1, kind, w, t, x, R.Absent);
    InvDrop(m, k, task');
    InvEmit(m1, kind, w, t, x, R.Absent);
    LeasedMove(m.workflows[w], t, task');
    LastCounts(m, m', kind, w, t, x, R.Absent);
    DropConfig(m, k);
    EndStep(m, m', f, k, task');
  }

  lemma DropConfig(m: Model, k: string)
    requires k in m.leases
    ensures SameConfig(m, DropLease(m, k))
  {
  }

  lemma ExpireKept(m: Model, f: Flags, k: string)
    requires Kept(m, f)
    ensures Kept(ExpireLease(m, k), f)
  {
    hide Inv, Sound, RecordOk, CountsOf, Bump, DropLease;
    if k in m.leases && m.leases[k].expires <= m.now {
      LeasedTask(m, k);
      var w, t := m.leases[k].workflowId, m.leases[k].taskId;
      KeptRecord(m, f, w, t);
      ExpiredRecord(m.workflows[w].tasks[t], k, m.now, m.outputLimit, CountsOf(m.events, w, t), f);
      EndKept(m, f, k, Reset(Released(m.workflows[w].tasks[t], k)), R.LeaseExpired);
    }
  }

  lemma CompletedShape(m: Model, task: Task, exitCode: int, error: string)
    ensures var task' := Completed(m, task, exitCode, error);
      !HoldsLease(task'.state) && task'.leaseToken == "" && task'.dependsOn == task.dependsOn
  {
    hide Delay;
  }

  /** Settling keeps the invariant, started or not. */
  lemma SettleKept(m: Model, f: Flags, k: string, exitCode: int, error: string)
    requires Kept(m, f) && Carries(m, k)
    ensures Kept(Settle(m, k, exitCode, error), f)
  {
    hide Inv, Sound, RecordOk, CountsOf, Bump, DropLease, Completed, CompletionState;
    LeasedTask(m, k);
    var w, t := m.leases[k].workflowId, m.leases[k].taskId;
    KeptRecord(m, f, w, t);
    CompletedRecord(m, m.workflows[w].tasks[t], exitCode, error, CountsOf(m.events, w, t), f);
    CompletedShape(m, m.workflows[w].tasks[t], exitCode, error);
    EndKept(m, f, k, Completed(m, m.workflows[w].tasks[t], exitCode, error),
        CompletionState(m.workflows[w].tasks[t], exitCode, error).1);
  }

  lemma HoldKept(m: Model, m': Model, f: Flags, k: string, task': Task, lease': Lease)
    requires Kept(m, f) && Carries(m, k) && LeaseUpdate(m, k, lease', task')
    requires task'.leaseToken == k && HoldsLease(task'.state) && (lease'.started <==> task'.state == Running)
    requires var w, t := m.leases[k].workflowId, m.leases[k].taskId;
      && task'.dependsOn == m.workflows[w].tasks[t].dependsOn && Told(m, m', w, t)
      && RecordOk(task', m.now, m.outputLimit, CountsOf(m'.events, w, t), f)
      && m' == PutTask(m, w, t, task').(leases := m.leases[k := lease'], events := m'.events)
    ensures Kept(m', f)
  {
    hide Inv, Sound, RecordOk, SafeMove, Told, CountsOf, OwnerOf, OnlyTask;
    var w, t := m.leases[k].workflowId, m.leases[k].taskId;
    LeasedTask(m, k);
    InvHold(m, k, task', lease');
    InvSame(PutTask(m, w, t, task').(leases := m.leases[k := lease']), m');
    LeasedMove(m.workflows[w], t, task');
    HoldStep(m, m', f, k, task');
  }

  lemma LeaseRecord(m: Model, f: Flags, k: string)
    requires Kept(m, f) && k in m.leases && Has(m, m.leases[k].workflowId, m.leases[k].taskId)
    ensures var task := m.workflows[m.leases[k].workflowId].tasks[m.leases[k].taskId];
      task.leaseOwner == m.leases[k].workerId && task.leaseUntil == Some(m.leases[k].expires)
  {
    hide Inv;
    SoundParts(m, f);
    SoundWorker(m, k, f);
  }

  lemma StartedRecord(task: Task, now: Time, limit: int, c: Counts, f: Flags)
    requires RecordOk(task, now, limit, c, f) && task.state == Leased
    ensures RecordOk(task.(state := Running, started := Some(now)), now, limit, Bump(c, R.TaskStarted), f)
  {
  }

  lemma RenewedRecord(task: Task, until: Time, now: Time, limit: int, c: Counts, f: Flags)
    requires RecordOk(task, now, limit, c, f) && HoldsLease(task.state)
    ensures RecordOk(task.(leaseUntil := Some(until)), now, limit, c, f)
  {
  }

  lemma LoggedRecord(task: Task, size: nat, now: Time, limit: int, c: Counts, f: Flags)
    requires RecordOk(task, now, limit, c, f) && task.outputBytes + size <= limit
    ensures RecordOk(task.(outputBytes := task.outputBytes + size), now, limit, Bump(c, R.TaskLog), f)
  {
  }

  lemma StartKept(m: Model, f: Flags, k: string)
    requires Kept(m, f)
    ensures Kept(Start(m, k).model, f)
  {
    hide Kept, RecordOk, CountsOf, Bump, Told, ExpireLease;
    ExpireKept(m, f, k);
    if LeaseRefusal(m, k).None? && Carries(m, k) {
      KeptLease(m, f, k);
      var l := m.leases[k];
      var task := m.workflows[l.workflowId].tasks[l.taskId];
      if task.state == Leased {
        KeptRecord(m, f, l.workflowId, l.taskId);
        StartedRecord(task, m.now, m.outputLimit, CountsOf(m.events, l.workflowId, l.taskId), f);
        LastCounts(m, Start(m, k).model, R.TaskStarted, l.workflowId, l.taskId, l.workerId, R.Absent);
        HoldKept(m, Start(m, k).model, f, k, task.(state := Running, started := Some(m.now)), l.(started := true));
      }
    }
  }

  lemma KeptLease(m: Model, f: Flags, k: string)
    requires Kept(m, f) && k in m.leases
    ensures var l := m.leases[k];
      && Has(m, l.workflowId, l.taskId) && !TerminalWorkflow(m.workflows[l.workflowId].state)
      && var task := m.workflows[l.workflowId].tasks[l.taskId];
      && task.leaseToken == k && HoldsLease(task.state) && (l.started <==> task.state == Running)
      && task.leaseOwner == l.workerId && task.leaseUntil == Some(l.expires) && Carries(m, k)
  {
    hide Inv, Sound;
    LeasedTask(m, k);
    LeaseRecord(m, f, k);
  }

  lemma RenewKept(m: Model, f: Flags, k: string)
    requires Kept(m, f)
    ensures Kept(Renew(m, k).model, f)
  {
    hide Kept, RecordOk, CountsOf, Told, ExpireLease;
    ExpireKept(m, f, k);
    if LeaseRefusal(m, k).None? && Carries(m, k) {
      KeptLease(m, f, k);
      var l := m.leases[k];
      var task := m.workflows[l.workflowId].tasks[l.taskId];
      var until := m.now + m.leaseDuration;
      KeptRecord(m, f, l.workflowId, l.taskId);
      RenewedRecord(task, until, m.now, m.outputLimit, CountsOf(m.events, l.workflowId, l.taskId), f);
      QuietTold(m, Renew(m, k).model, l.workflowId, l.taskId);
      HoldKept(m, Renew(m, k).model, f, k, task.(leaseUntil := Some(until)), l.(expires := until));
    }
  }

  lemma LogKept(m: Model, f: Flags, k: string, size: nat, knownStream: bool)
    requires Kept(m, f)
    ensures Kept(AppendLog(m, k, size, knownStream).model, f)
  {
    hide Kept, RecordOk, CountsOf, Bump, Told, ExpireLease;
    ExpireKept(m, f, k);
    if LeaseRefusal(m, k).None? {
      KeptLease(m, f, k);
      var l := m.leases[k];
      var task := m.workflows[l.workflowId].tasks[l.taskId];
      var m' := AppendLog(m, k, size, knownStream).model;
      if knownStream && size <= m.chunkLimit && task.outputBytes + size <= m.outputLimit {
        KeptRecord(m, f, l.workflowId, l.taskId);
        LoggedRecord(task, size, m.now, m.outputLimit, CountsOf(m.events, l.workflowId, l.taskId), f);
        LastCounts(m, m', R.TaskLog, l.workflowId, l.taskId, l.workerId, R.Absent);
        assert m.leases[k := l] == m.leases;
        HoldKept(m, m', f, k, task.(outputBytes := task.outputBytes + size), l);
      }
    }
  }

  lemma CompleteKept(m: Model, f: Flags, k: string, exitCode: int, error: string)
    requires Kept(m, f)
    ensures Kept(Complete(m, k, exitCode, error).model, f)
  {
    hide Kept, Settle, Recompute, ExpireLease;
    ExpireKept(m, f, k);
    if LeaseRefusal(m, k).None? && Carries(m, k) {
      SettleKept(m, f, k, exitCode, error);
      RecomputeKept(Settle(m, k, exitCode, error), f, m.leases[k].workflowId);
    }
  }

  // Granting a lease

  lemma GrantKept(m: Model, f: Flags, x: string, w: string, t: string, token: string)
    requires Kept(m, f) && Candidate(m, x, w, t) && token != "" && token !in m.leases && token !in m.closed
    requires |m.workers[x].activeTokens| < m.workers[x].capacity
    requires f.budgeted ==> m.workflows[w].tasks[t].attempt < m.workflows[w].tasks[t].maxAttempts
    ensures Kept(Grant(m, x, w, t, token), f)
  {
    hide Inv, Sound, Grant, LabelsMatch, OnlyTask;
    CandidateFacts(m, x, w, t);
    GrantInv(m, x, w, t, token);
    GrantSound(m, f, x, w, t, token);
  }

  /** The task that a lease operation hands out has attempts left. */
  predicate AttemptLeft(m: Model, x: string, pick: Option<(string, string)>, token: string) {
    LeaseNext(m, x, pick, token).answer == Done && pick.Some? && Has(m, pick.value.0, pick.value.1) ==>
      var task := m.workflows[pick.value.0].tasks[pick.value.1];
      task.attempt < task.maxAttempts
  }

  lemma LeaseKept(m: Model, f: Flags, x: string, pick: Option<(string, string)>, token: string)
    requires Kept(m, f) && token != "" && token !in m.leases && token !in m.closed
    requires f.budgeted ==> AttemptLeft(m, x, pick, token)
    ensures Kept(LeaseNext(m, x, pick, token).model, f)
  {
    hide Kept, Grant, LabelsMatch;
    if LeaseNext(m, x, pick, token).answer == Done {
      GrantKept(m, f, x, pick.value.0, pick.value.1, token);
    }
  }

  // Sweeping

  lemma {:induction false} ExpireAllKept(m: Model, f: Flags, tokens: seq<string>)
    requires Kept(m, f)
    ensures Kept(ExpireAll(m, tokens), f)
    ensures Tokens(ExpireAll(m, tokens)) == Tokens(m) && SameConfig(m, ExpireAll(m, tokens))
  {
    hide Kept, ExpireLease, Tokens;
    if tokens != [] {
      var init := tokens[..|tokens| - 1];
      ExpireAllKept(m, f, init);
      ExpireKept(ExpireAll(m, init), f, tokens[|tokens| - 1]);
      ExpireTokens(ExpireAll(m, init), tokens[|tokens| - 1]);
    }
  }

  /** Every token that was ever handed out. */
  function Tokens(m: Model): set<string> {
    m.leases.Keys + m.closed.Keys
  }

  lemma ExpireTokens(m: Model, k: string)
    ensures Tokens(ExpireLease(m, k)) == Tokens(m) && SameConfig(m, ExpireLease(m, k))
  {
  }

  lemma {:induction false} RecomputeAllKept(m: Model, f: Flags, ids: seq<string>)
    requires Kept(m, f)
    ensures Kept(RecomputeAll(m, ids), f)
    ensures Tokens(RecomputeAll(m, ids)) == Tokens(m) && SameConfig(m, RecomputeAll(m, ids))
  {
    hide Kept, Recompute, Tokens;
    if ids != [] {
      var init := ids[..|ids| - 1];
      RecomputeAllKept(m, f, init);
      RecomputeKept(RecomputeAll(m, init), f, ids[|ids| - 1]);
      RecomputeTokens(RecomputeAll(m, init), ids[|ids| - 1]);
    }
  }

  lemma {:induction false} TasksTokens(m: Model, w: string, order: seq<string>, n: nat)
    requires w in m.workflows && n <= |order|
    ensures Tokens(RecomputeTasks(m, w, order, n)) == Tokens(m) && SameConfig(m, RecomputeTasks(m, w, order, n))
  {
    hide RecomputeTask, Tokens;
    if n > 0 {
      TasksTokens(m, w, order, n - 1);
      TaskTokens(RecomputeTasks(m, w, order, n - 1), w, order[n - 1]);
    }
  }

  lemma TaskTokens(m: Model, w: string, t: string)
    requires w in m.workflows
    ensures Tokens(RecomputeTask(m, w, t)) == Tokens(m) && SameConfig(m, RecomputeTask(m, w, t))
  {
    hide Impossible, Satisfied;
  }

  lemma RecomputeTokens(m: Model, w: string)
    ensures Tokens(Recompute(m, w)) == Tokens(m) && SameConfig(m, Recompute(m, w))
  {
    hide RecomputeTasks, NextState;
    if w in m.workflows && !TerminalWorkflow(m.workflows[w].state) {
      TasksTokens(m, w, m.workflows[w].order, |m.workflows[w].order|);
    }
  }

  lemma SweepKept(m: Model, f: Flags, tokens: seq<string>, ids: seq<string>)
    requires Kept(m, f)
    ensures Kept(Sweep(m, tokens, ids), f)
    ensures Tokens(Sweep(m, tokens, ids)) == Tokens(m) && SameConfig(m, Sweep(m, tokens, ids))
  {
    hide Kept, Tokens, ExpireAll, RecomputeAll;
    ExpireAllKept(m, f, tokens);
    RecomputeAllKept(ExpireAll(m, tokens), f, ids);
  }

  // Cancelling a workflow

  lemma CancelledRecordOk(task: Task, now: Time, limit: int, c: Counts, f: Flags)
    requires RecordOk(task, now, limit, c, f)
    ensures RecordOk(CancelledRecord(task, now), now, limit, c, f)
  {
  }

  lemma CancelRecords(m: Model, m': Model, f: Flags, w: string)
    requires RecordsOk(m, f) && w in m.workflows && CancelFacts(m, m', w) && Aside(m, m') && SameConfig(m, m')
    ensures RecordsOk(m', f)
  {
    hide RecordOk, CountsOf, Aside, CancelledRecord, HeldTokens;
    forall v, t | Has(m', v, t)
      ensures RecordOk(m'.workflows[v].tasks[t], m'.now, m'.outputLimit, CountsOf(m'.events, v, t), f)
    {
      assert Has(m, v, t);
      AsideCounts(m, m', v, t);
      CancelledRecordOk(m.workflows[v].tasks[t], m.now, m.outputLimit, CountsOf(m.events, v, t), f);
    }
  }

  lemma CancelFlow(wf: ChaosModel.Workflow, wf': ChaosModel.Workflow, now: Time)
    requires FlowOk(wf, now) && wf'.tasks.Keys == wf.tasks.Keys && wf'.created == wf.created
    requires forall t :: t in wf.tasks ==> wf'.tasks[t] == CancelledRecord(wf.tasks[t], now)
    requires wf'.state == WorkflowCancelled && wf'.finished == Some(now)
    ensures FlowOk(wf', now)
  {
    forall t | t in wf'.tasks && Advanced(wf'.tasks[t].state) ensures Satisfied(wf'.tasks, wf'.tasks[t].dependsOn) {
      assert Satisfied(wf.tasks, wf.tasks[t].dependsOn);
    }
  }

  lemma CancelFlows(m: Model, w: string)
    requires FlowsOk(m) && w in m.workflows
    ensures FlowsOk(CancelledModel(m, w))
  {
    hide FlowOk, HeldTokens, CancelledRecord;
    CancelFlow(m.workflows[w], CancelledModel(m, w).workflows[w], m.now);
  }

  lemma CancelLeases(m: Model, f: Flags, w: string)
    requires Inv(m) && LeasesSound(m, f) && w in m.workflows
    ensures LeasesSound(CancelledModel(m, w), f)
  {
    hide Inv, LeaseSound, HeldTokens, CancelledRecord;
    var m' := CancelledModel(m, w);
    forall k | k in m'.leases ensures LeaseSound(m', k, f) {
      HeldByWorkflow(m, w, k);
      LeaseNames(m, k);
      SoundWorker(m, k, f);
      UndisturbedSound(m, m', k, f);
    }
  }

  lemma CancelWorkers(m: Model, w: string)
    requires WorkersOk(m) && w in m.workflows
    ensures WorkersOk(CancelledModel(m, w))
  {
    hide HeldTokens, CancelledRecord;
    var m' := CancelledModel(m, w);
    forall x | x in m'.workers ensures WorkerOk(m'.workers[x], x, m'.leases) {
      assert WorkerOk(m.workers[x], x, m.leases);
      Graph.SubsetCardinality(m'.workers[x].activeTokens, m.workers[x].activeTokens);
    }
  }

  lemma CancelConfig(m: Model, w: string)
    requires w in m.workflows
    ensures SameConfig(m, CancelledModel(m, w))
  {
  }

  lemma CancelAside(m: Model, w: string)
    requires w in m.workflows
    ensures Aside(m, Emit(CancelledModel(m, w), R.WorkflowCancel, w, "", "", R.Absent))
  {
    hide HeldTokens, CancelledRecord;
    StateAside(m, Emit(CancelledModel(m, w), R.WorkflowCancel, w, "", "", R.Absent), R.WorkflowCancel, w);
  }

  /** An event on top changes only the list of events. */
  lemma EmitParts(m: Model, f: Flags, kind: R.Kind, w: string)
    requires FlowsOk(m) && LeasesSound(m, f) && WorkersOk(m)
    ensures var m' := Emit(m, kind, w, "", "", R.Absent);
      FlowsOk(m') && LeasesSound(m', f) && WorkersOk(m') && m'.now == m.now && m'.workflows == m.workflows
          && SameConfig(m, m')
  {
    var m' := Emit(m, kind, w, "", "", R.Absent);
    forall k | k in m'.leases ensures LeaseSound(m', k, f) { assert LeaseSound(m, k, f); }
  }

  lemma CancelFactsEmit(m: Model, w: string)
    requires Inv(m) && w in m.workflows
    ensures CancelFacts(m, Emit(CancelledModel(m, w), R.WorkflowCancel, w, "", "", R.Absent), w)
    ensures SameConfig(m, Emit(CancelledModel(m, w), R.WorkflowCancel, w, "", "", R.Absent))
  {
    hide Inv, HeldTokens, CancelledRecord;
    CancelShape(m, w);
    CancelConfig(m, w);
    var a, b := CancelledModel(m, w), Emit(CancelledModel(m, w), R.WorkflowCancel, w, "", "", R.Absent);
    assert forall v, t :: Has(b, v, t) <==> Has(a, v, t);
  }

  lemma CancelledNow(m: Model, w: string)
    requires w in m.workflows
    ensures CancelledModel(m, w).now == m.now && CancelledModel(m, w).workflows.Keys == m.workflows.Keys
  {
  }

  lemma CancelKept(m: Model, f: Flags, w: string)
    requires Kept(m, f) && w in m.workflows
    ensures Kept(Emit(CancelledModel(m, w), R.WorkflowCancel, w, "", "", R.Absent), f)
  {
    hide *;
    SoundParts(m, f);
    var m1 := CancelledModel(m, w);
    var m' := Emit(m1, R.WorkflowCancel, w, "", "", R.Absent);
    CancelledNow(m, w);
    CancelInv(m, w);
    InvEmit(m1, R.WorkflowCancel, w, "", "", R.Absent);
    CancelAside(m, w);
    CancelFlows(m, w);
    CancelLeases(m, f, w);
    CancelWorkers(m, w);
    EmitParts(m1, f, R.WorkflowCancel, w);
    AsideEvents(m, m');
    CancelFactsEmit(m, w);
    CancelRecords(m, m', f, w);
    GatherSound(m', f);
    GatherKept(m', f);
  }

  lemma GatherKept(m: Model, f: Flags)
    requires Inv(m) && Sound(m, f)
    ensures Kept(m, f)
  {
  }

  // Adding a workflow

  lemma FreshRecord(task: Task, now: Time, limit: int, f: Flags)
    requires FreshTask(task) && (f.budgeted ==> task.maxAttempts >= 1)
    ensures RecordOk(task, now, limit, Counts(0, 0, 0, 0, 0), f)
  {
    hide BalanceOk, PolicyOk, StampsOk, FieldsOk;
    FreshBalance(task);
    FreshPolicy(task);
    FreshTimes(task, now, limit);
  }

  lemma FreshBalance(task: Task)
    requires task.state == Pending && task.attempt == 0
    ensures BalanceOk(task, Counts(0, 0, 0, 0, 0))
  {
    hide EndedAttempts, Holding;
    NothingHeld(task.state);
    NothingEnded();
  }

  lemma NothingHeld(state: TaskState)
    requires state == Pending
    ensures Holding(state) == 0
  {
  }

  lemma NothingEnded()
    ensures EndedAttempts(Counts(0, 0, 0, 0, 0)) == 0
  {
  }

  lemma FreshPolicy(task: Task)
    requires task.state == Pending && task.attempt == 0
    ensures PolicyOk(task, Counts(0, 0, 0, 0, 0))
  {
  }

  lemma FreshTimes(task: Task, now: Time, limit: int)
    requires FreshTask(task)
    ensures StampsOk(task, now) && FieldsOk(task, limit)
  {
  }

  /** Retry policies are normalized. */
  predicate NormalTasks(tasks: map<string, Task>) {
    forall t :: t in tasks ==> tasks[t].maxAttempts >= 1
  }

  lemma AddedRecords(m: Model, f: Flags, w: string, tasks: map<string, Task>, order: seq<string>)
    requires EventsOk(m) && RecordsOk(m, f) && NewWorkflow(w, tasks) && w !in m.workflows
        && (f.budgeted ==> NormalTasks(tasks))
    ensures RecordsOk(Added(m, w, tasks, order), f)
  {
    hide RecordOk, CountsOf;
    var m' := Added(m, w, tasks, order);
    forall v, t | Has(m', v, t)
      ensures RecordOk(m'.workflows[v].tasks[t], m'.now, m'.outputLimit, CountsOf(m'.events, v, t), f)
    {
      if v == w {
        CountsUnknown(m.events, w, t);
        FreshRecord(tasks[t], m.now, m.outputLimit, f);
      } else {
        assert Has(m, v, t);
      }
    }
  }

  lemma AddedFlows(m: Model, w: string, tasks: map<string, Task>, order: seq<string>)
    requires FlowsOk(m) && NewWorkflow(w, tasks) && w !in m.workflows
    ensures FlowsOk(Added(m, w, tasks, order))
  {
    forall t | t in tasks ensures !Advanced(tasks[t].state) { assert FreshTask(tasks[t]); }
  }

  lemma AddedSame(m: Model, w: string, tasks: map<string, Task>, order: seq<string>)
    requires w !in m.workflows
    ensures var m' := Added(m, w, tasks, order);
      && m'.leases == m.leases && m'.closed == m.closed && m'.workers == m.workers && m'.now == m.now
      && SameConfig(m, m')
      && m'.events == m.events && m.workflows.Keys <= m'.workflows.Keys && w in m'.workflows
      && (forall v, t :: Has(m, v, t) ==> Has(m', v, t) && m'.workflows[v].tasks[t] == m.workflows[v].tasks[t])
  {
  }

  lemma AddedKept(m: Model, f: Flags, w: string, tasks: map<string, Task>, order: seq<string>)
    requires Kept(m, f) && NewWorkflow(w, tasks) && w !in m.workflows && (f.budgeted ==> NormalTasks(tasks))
    ensures Kept(Emit(Added(m, w, tasks, order), R.WorkflowCreated, w, "", "", R.Absent), f)
  {
    hide *;
    SoundParts(m, f);
    var m1 := Added(m, w, tasks, order);
    AddedInv(m, w, tasks, order);
    AddedSame(m, w, tasks, order);
    AddedRecords(m, f, w, tasks, order);
    AddedFlows(m, w, tasks, order);
    LeasesStay(m, m1, f);
    SameWorkers(m, m1);
    QuietEvents(m, m1);
    GatherSound(m1, f);
    AsideKept(m1, f, R.WorkflowCreated, w, "");
  }

  /** An event that counts no attempt. */
  lemma AsideKept(m: Model, f: Flags, kind: R.Kind, w: string, x: string)
    requires Inv(m) && Sound(m, f) && (w == "" || w in m.workflows)
    requires kind in {R.WorkflowCreated, R.WorkerRegistered, R.WorkerHeartbeat}
    ensures Kept(Emit(m, kind, w, "", x, R.Absent), f)
  {
    hide Inv, RecordOk, LeaseSound, FlowOk, Ordered, CountsOf, WorkerOk;
    var m' := Emit(m, kind, w, "", x, R.Absent);
    InvEmit(m, kind, w, "", x, R.Absent);
    assert Neutral(kind);
    assert Aside(m, m');
    AsideRecords(m, m', f);
    AsideEvents(m, m');
    LeasesStay(m, m', f);
    SameWorkers(m, m');
  }

  lemma AddKept(m: Model, f: Flags, w: string, tasks: map<string, Task>, order: Option<seq<string>>)
    requires Kept(m, f) && NewWorkflow(w, tasks) && (f.budgeted ==> NormalTasks(tasks))
    ensures Kept(AddWorkflow(m, w, tasks, order).model, f)
  {
    hide Kept, Recompute, NewWorkflow, NormalTasks;
    if w !in m.workflows && order.Some? {
      AddedKept(m, f, w, tasks, order.value);
      RecomputeKept(Emit(Added(m, w, tasks, order.value), R.WorkflowCreated, w, "", "", R.Absent), f, w);
    }
  }

  // Workers and the clock

  /** Only a worker changes, and perhaps the clock. */
  lemma WorkerStep(m: Model, m': Model, f: Flags)
    requires Kept(m, f) && m' == m.(workers := m'.workers, now := m'.now) && m'.now >= m.now && WorkersOk(m')
    requires m.workers.Keys <= m'.workers.Keys && forall x :: x in m'.workers ==> x != ""
    requires f.indexed ==> forall x :: x in m.workers ==> m.workers[x].activeTokens <= m'.workers[x].activeTokens
    ensures Kept(m', f)
  {
    hide *;
    SoundParts(m, f);
    WorkerSame(m, m');
    SameWorkInv(m, m');
    QuietEvents(m, m');
    AsideRecords(m, m', f);
    LaterFlows(m, m');
    WorkerLeases(m, m', f);
    GatherSound(m', f);
    GatherKept(m', f);
  }

  lemma WorkerSame(m: Model, m': Model)
    requires m' == m.(workers := m'.workers, now := m'.now) && m'.now >= m.now
    ensures SameWork(m, m') && Aside(m, m') && SameConfig(m, m')
    ensures forall w, t :: Has(m', w, t) ==> Has(m, w, t) && m'.workflows[w].tasks[t] == m.workflows[w].tasks[t]
  {
  }

  lemma LaterFlows(m: Model, m': Model)
    requires FlowsOk(m) && m'.workflows == m.workflows && m'.now >= m.now
    ensures FlowsOk(m')
  {
    hide FlowOk;
    forall w | w in m'.workflows ensures FlowOk(m'.workflows[w], m'.now) { LaterFlow(m.workflows[w], m.now, m'.now); }
  }

  lemma WorkerLeases(m: Model, m': Model, f: Flags)
    requires LeasesSound(m, f) && m' == m.(workers := m'.workers, now := m'.now) && m'.now >= m.now
    requires m.workers.Keys <= m'.workers.Keys
    requires f.indexed ==> forall x :: x in m.workers ==> m.workers[x].activeTokens <= m'.workers[x].activeTokens
    ensures LeasesSound(m', f)
  {
    forall k | k in m'.leases ensures LeaseSound(m', k, f) { assert LeaseSound(m, k, f); }
  }

  /** A dropped worker registers again only without leases; its new record starts with none. */
  predicate FreeRegistration(m: Model, op: Op) {
    op.OpRegister? && op.x in m.workers && RegisterWorker(m, op.x, op.capacity, op.labels).answer == Done ==>
      m.workers[op.x].activeTokens == {}
  }

  lemma RegisterKept(m: Model, f: Flags, x: string, capacity: int, labels: map<string, string>)
    requires Kept(m, f) && x != "" && (f.indexed ==> FreeRegistration(m, OpRegister(x, capacity, labels)))
    ensures Kept(RegisterWorker(m, x, capacity, labels).model, f)
  {
    hide Inv, RecordsOk, LeasesSound, FlowsOk, EventsOk;
    WorkersNamed(m);
    if RegisterWorker(m, x, capacity, labels).answer == Done {
      var m' := m.(workers := m.workers[x := ChaosModel.Worker(capacity, labels, m.now, {}, false)]);
      WorkerStep(m, m', f);
      AsideKept(m', f, R.WorkerRegistered, "", x);
    }
  }

  lemma PlainKept(m: Model, f: Flags, op: Op)
    requires Kept(m, f) && FormedOp(m, op) && PlainOp(op) && (f.indexed ==> FreeRegistration(m, op))
    ensures Kept(Apply(m, op).model, f)
  {
    hide Inv, RecordsOk, LeasesSound, FlowsOk, EventsOk, NewWorkflow, FreeRegistration, RegisterWorker;
    WorkersNamed(m);
    match op {
      case OpRegister(x, capacity, labels) => RegisterKept(m, f, x, capacity, labels);
      case OpHeartbeat(x) =>
        if x in m.workers && !m.workers[x].dropped {
          var m' := m.(workers := m.workers[x := m.workers[x].(heartbeat := m.now)]);
          WorkerStep(m, m', f);
          AsideKept(m', f, R.WorkerHeartbeat, "", x);
        }
      case OpDrop(x) =>
        if x in m.workers { WorkerStep(m, m.(workers := m.workers[x := m.workers[x].(dropped := true)]), f); }
      case OpAdvance(milliseconds) =>
        if milliseconds >= 0 { WorkerStep(m, m.(now := m.now + milliseconds), f); }
      case _ =>
    }
  }

  // Runs

  /** A lease operation hands out only tasks with attempts left, and new policies are normalized. */
  predicate Budgeted(m: Model, op: Op) {
    match op
    case OpAddWorkflow(_, tasks, _) => NormalTasks(tasks)
    case OpLease(x, pick, token, tokens, ids) => AttemptLeft(Sweep(m, tokens, ids), x, pick, token)
    case _ => true
  }

  predicate Asked(m: Model, op: Op, f: Flags) {
    (f.indexed ==> FreeRegistration(m, op)) && (f.budgeted ==> Budgeted(m, op))
  }

  lemma ApplyKept(m: Model, f: Flags, op: Op)
    requires Kept(m, f) && FormedOp(m, op) && Asked(m, op, f)
    ensures Kept(Apply(m, op).model, f) && SameConfig(m, Apply(m, op).model)
  {
    hide Kept, AddWorkflow, Start, Renew, AppendLog, Complete, Sweep, LeaseNext, NewWorkflow, NormalTasks, AttemptLeft,
         RegisterWorker, Heartbeat, DropWorker, Advance, CancelledModel, FreeRegistration;
    if !op.OpSweep? && !op.OpLease? { ApplyConfig(m, op); }
    match op {
      case OpAddWorkflow(w, tasks, order) => AddKept(m, f, w, tasks, order);
      case OpSweep(tokens, ids) => SweepKept(m, f, tokens, ids);
      case OpLease(x, pick, token, tokens, ids) =>
        SweepKept(m, f, tokens, ids);
        GrantConfig(Sweep(m, tokens, ids), x, pick, token);
        LeaseKept(Sweep(m, tokens, ids), f, x, pick, token);
      case OpStart(token) => StartKept(m, f, token);
      case OpRenew(token) => RenewKept(m, f, token);
      case OpLog(token, size, knownStream) => LogKept(m, f, token, size, knownStream);
      case OpComplete(token, exitCode, error) => CompleteKept(m, f, token, exitCode, error);
      case OpCancel(w) => if w in m.workflows && !TerminalWorkflow(m.workflows[w].state) { CancelKept(m, f, w); }
      case _ => PlainKept(m, f, op);
    }
  }

  /** The limits are set once. */
  lemma ApplyConfig(m: Model, op: Op)
    requires !op.OpSweep? && !op.OpLease?
    ensures SameConfig(m, Apply(m, op).model)
  {
    hide Recompute, ExpireLease, HeldTokens, CancelledRecord, Complete, Start, Renew, AppendLog, Tokens;
    match op {
      case OpAddWorkflow(w, tasks, order) =>
        if w !in m.workflows && order.Some? {
          RecomputeTokens(Emit(Added(m, w, tasks, order.value), R.WorkflowCreated, w, "", "", R.Absent), w);
        }
      case OpComplete(token, exitCode, error) => CompleteConfig(m, token, exitCode, error);
      case OpStart(token) => HoldConfig(m, token, 0, true);
      case OpRenew(token) => HoldConfig(m, token, 0, true);
      case OpLog(token, size, knownStream) => HoldConfig(m, token, size, knownStream);
      case _ =>
    }
  }

  lemma CompleteConfig(m: Model, token: string, exitCode: int, error: string)
    ensures SameConfig(m, Complete(m, token, exitCode, error).model)
  {
    hide Recompute, ExpireLease, Completed, CompletionState, Tokens;
    ExpireTokens(m, token);
    if Carries(m, token) { RecomputeTokens(Settle(m, token, exitCode, error), m.leases[token].workflowId); }
  }

  lemma HoldConfig(m: Model, token: string, size: nat, knownStream: bool)
    ensures SameConfig(m, Start(m, token).model) && SameConfig(m, Renew(m, token).model)
    ensures SameConfig(m, AppendLog(m, token, size, knownStream).model)
  {
    hide ExpireLease, Tokens;
    ExpireTokens(m, token);
  }

  lemma GrantConfig(m: Model, x: string, pick: Option<(string, string)>, token: string)
    ensures SameConfig(m, LeaseNext(m, x, pick, token).model)
  {
    hide LabelsMatch;
  }

  ghost predicate AskedRun(m: Model, ops: seq<Op>, f: Flags) {
    forall n :: 0 <= n < |ops| ==> Asked(After(m, ops[..n]), ops[n], f)
  }

  lemma EmptyKept(m: Model, f: Flags)
    requires Empty(m)
    ensures Kept(m, f)
  {
  }

  lemma {:induction false} RunKept(m: Model, f: Flags, ops: seq<Op>)
    requires Empty(m) && FormedRun(m, ops) && AskedRun(m, ops, f)
    ensures Kept(After(m, ops), f) && SameConfig(m, After(m, ops))
  {
    hide Kept, Apply, FormedOp, Asked, Empty;
    if ops == [] {
      EmptyKept(m, f);
    } else {
      var init := ops[..|ops| - 1];
      forall n | 0 <= n < |init|
        ensures FormedOp(After(m, init[..n]), init[n]) && Asked(After(m, init[..n]), init[n], f)
      {
        assert init[..n] == ops[..n];
      }
      RunKept(m, f, init);
      ApplyKept(After(m, init), f, ops[|ops| - 1]);
    }
  }

  /** The invariant of every reachable model; completions need not follow starts. */
  lemma RunInv(m: Model, ops: seq<Op>)
    requires Empty(m) && FormedRun(m, ops)
    ensures Inv(After(m, ops))
  {
    hide Inv, Sound, After, FormedRun, Empty;
    RunKept(m, Flags(false, false), ops);
  }
}
