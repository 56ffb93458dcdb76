/** What a trace without errors guarantees about leases, attempts and workers. */
module ReplaySoundness {
  import opened Runtime
  import opened Replay

  // When an event is free of errors

  predicate MoveLegal(task: TaskReplay, next: TaskState) {
    task.state == Known(next) || TransitionAllowed(task.state, next)
  }

  predicate TaskLegal(v: View, task: TaskReplay, e: Event) {
    match e.kind
    case TaskReady => task.lease == None && MoveLegal(task, Ready)
    case TaskLeased =>
      && task.lease == None && e.workerId != "" && AttemptOf(task, e) > task.attempt && MoveLegal(task, Leased)
      && Key(e.workflowId, e.taskId) !in WorkerOf(v, e.workerId).activeTasks
    case TaskStarted => task.lease.Some? && !OwnerMismatch(task, e) && MoveLegal(task, Running)
    case TaskSuccess => task.lease.Some? && !OwnerMismatch(task, e) && MoveLegal(task, Succeeded)
    case TaskFailure => task.lease.Some? && !OwnerMismatch(task, e) && MoveLegal(task, Failed)
    case TaskCancel => task.state == Known(Cancelled) || (!OwnerMismatch(task, e) && MoveLegal(task, Cancelled))
    case TaskRetry => task.lease.Some? && MoveLegal(task, RetryWait)
    case LeaseExpired => !OwnerMismatch(task, e) && MoveLegal(task, Ready)
    case _ => true
  }

  predicate Legal(v: View, e: Event) {
    if TaskEvent(e.kind) then
      e.workflowId != "" && e.taskId != "" && TaskLegal(v, TaskOf(v, e.workflowId, e.taskId), e)
    else
      var state := WorkflowOf(v, e.workflowId).state;
      match e.kind
      case WorkflowCreated => WorkflowOf(v, e.workflowId).createdSequence == 0
      case WorkflowStarted => !TerminalSeen(state)
      case WorkflowSuccess => !TerminalSeen(state) || state == WorkflowKnown(WorkflowSucceeded)
      case WorkflowFailure => !TerminalSeen(state) || state == WorkflowKnown(WorkflowFailed)
      case WorkflowCancel => !TerminalSeen(state) || state == WorkflowKnown(WorkflowCancelled)
      case WorkerRegistered => e.workerId != ""
      case WorkerHeartbeat => e.workerId != ""
      case _ => true
  }

  lemma CleanWhen(condition: bool, severity: Severity, code: Code)
    ensures Clean(When(condition, severity, code)) <==> !(condition && severity == Error)
  {
    if condition { assert When(condition, severity, code)[0].severity == severity; }
  }

  lemma CleanFirst(condition: bool, severity: Severity, code: Code, rest: seq<Problem>)
    ensures Clean(When(condition, severity, code) + rest) <==> !(condition && severity == Error) && Clean(rest)
  {
    CleanConcat(When(condition, severity, code), rest);
    CleanWhen(condition, severity, code);
  }

  lemma CleanLast(rest: seq<Problem>, condition: bool, severity: Severity, code: Code)
    ensures Clean(rest + When(condition, severity, code)) <==> Clean(rest) && !(condition && severity == Error)
  {
    CleanConcat(rest, When(condition, severity, code));
    CleanWhen(condition, severity, code);
  }

  lemma CleanMove(rest: seq<Problem>, task: TaskReplay, next: TaskState)
    ensures Clean(TransitionProblems(task, next)) <==> MoveLegal(task, next)
    ensures Clean(rest + TransitionProblems(task, next)) <==> Clean(rest) && MoveLegal(task, next)
  {
    CleanConcat(rest, TransitionProblems(task, next));
    CleanWhen(!TransitionAllowed(task.state, next), Error, TaskInvalidTransition);
  }

  lemma CleanLeased(v: View, task: TaskReplay, e: Event)
    requires e.kind.TaskLeased?
    ensures Clean(TaskProblems(v, task, e)) <==> TaskLegal(v, task, e)
  {
    hide Clean, When, TransitionProblems, MoveLegal;
    var p1 := When(task.lease.Some?, Error, OverlappingTaskLease);
    var p2 := p1 + When(e.workerId == "", Error, LeaseWithoutWorker);
    var p3 := p2 + When(e.attempt.Malformed?, Warning, InvalidEventNumber);
    var p4 := p3 + When(AttemptOf(task, e) <= task.attempt, Error, AttemptNotIncreasing);
    var p5 := p4 + TransitionProblems(task, Leased);
    var listed := e.workerId != "" && Key(e.workflowId, e.taskId) in WorkerOf(v, e.workerId).activeTasks;
    CleanWhen(task.lease.Some?, Error, OverlappingTaskLease);
    CleanLast(p1, e.workerId == "", Error, LeaseWithoutWorker);
    CleanLast(p2, e.attempt.Malformed?, Warning, InvalidEventNumber);
    CleanLast(p3, AttemptOf(task, e) <= task.attempt, Error, AttemptNotIncreasing);
    CleanMove(p4, task, Leased);
    CleanLast(p5, listed, Error, WorkerDuplicateActiveTask);
  }

  lemma CleanOwned(task: TaskReplay, e: Event, missing: Code, mismatch: Code, next: TaskState)
    ensures Clean(When(task.lease == None, Error, missing) + When(OwnerMismatch(task, e), Error, mismatch)
        + TransitionProblems(task, next))
      <==> task.lease.Some? && !OwnerMismatch(task, e) && MoveLegal(task, next)
  {
    var p1 := When(task.lease == None, Error, missing);
    CleanWhen(task.lease == None, Error, missing);
    CleanLast(p1, OwnerMismatch(task, e), Error, mismatch);
    CleanMove(p1 + When(OwnerMismatch(task, e), Error, mismatch), task, next);
  }

  lemma ReadyStays(task: TaskReplay)
    ensures task.state == Known(Ready) ==> MoveLegal(task, Ready)
  {
  }

  lemma CleanTask(v: View, task: TaskReplay, e: Event)
    requires TaskEvent(e.kind)
    ensures Clean(TaskProblems(v, task, e)) <==> TaskLegal(v, task, e)
  {
    hide Clean, When, TransitionProblems, MoveLegal, OwnerMismatch;
    CleanNothing();
    ReadyStays(task);
    match e.kind
    case TaskReady =>
      CleanFirst(task.lease.Some?, Error, TaskReadyWithActiveLease,
        if task.state == Known(Ready) && task.lease == None then [] else TransitionProblems(task, Ready));
      CleanMove([], task, Ready);
    case TaskLeased => CleanLeased(v, task, e);
    case TaskStarted => CleanOwned(task, e, TaskStartedWithoutLease, LeaseOwnerMismatch, Running);
    case TaskLog =>
      CleanWhen(task.state != Known(Running) && task.state != Known(Leased), Warning, LogOutsideActiveTask);
      CleanLast(When(task.state != Known(Running) && task.state != Known(Leased), Warning, LogOutsideActiveTask),
        !e.knownStream, Warning, UnknownLogStream);
    case TaskSuccess => CleanOwned(task, e, TaskCompletedWithoutLease, CompletionWorkerMismatch, Succeeded);
    case TaskFailure => CleanOwned(task, e, TaskCompletedWithoutLease, CompletionWorkerMismatch, Failed);
    case TaskCancel =>
      CleanFirst(OwnerMismatch(task, e), Error, CancellationWorkerMismatch, TransitionProblems(task, Cancelled));
      CleanMove([], task, Cancelled);
    case TaskRetry =>
      CleanFirst(task.lease == None, Error, RetryWithoutActiveLease, TransitionProblems(task, RetryWait));
      CleanMove([], task, RetryWait);
    case LeaseExpired =>
      var p1 := When(task.lease == None, Warning, ExpiredUnknownLease);
      CleanWhen(task.lease == None, Warning, ExpiredUnknownLease);
      CleanLast(p1, OwnerMismatch(task, e), Error, ExpiredLeaseWorkerMismatch);
      CleanMove(p1 + When(OwnerMismatch(task, e), Error, ExpiredLeaseWorkerMismatch), task, Ready);
    case _ =>
  }

  lemma CleanEnd(state: WorkflowSeen, terminal: WorkflowState)
    ensures Clean(EndProblems(state, terminal)) <==> !TerminalSeen(state) || state == WorkflowKnown(terminal)
  {
    CleanWhen(state == WorkflowKnown(terminal), Warning, WorkflowTerminalDuplicate);
    assert !Clean([Problem(Error, WorkflowTerminalStateChanged)]) by {
      assert [Problem(Error, WorkflowTerminalStateChanged)][0].severity == Error;
    }
  }

  /** A handler reports no error exactly for the events that are legal in the replayed state. */
  lemma CleanIffLegal(v: View, e: Event)
    ensures Clean(Problems(v, e)) <==> Legal(v, e)
  {
    hide Clean, When, TaskProblems, TaskLegal, EndProblems, TerminalSeen;
    var workflow, worker := WorkflowOf(v, e.workflowId), WorkerOf(v, e.workerId);
    if TaskEvent(e.kind) {
      var task := TaskOf(v, e.workflowId, e.taskId);
      CleanConcat(RequireTaskProblems(e), TaskProblems(v, task, e));
      CleanFirst(e.workflowId == "", Error, TaskEventWithoutWorkflow,
          When(e.taskId == "", Error, TaskEventWithoutTask));
      CleanWhen(e.taskId == "", Error, TaskEventWithoutTask);
      CleanTask(v, task, e);
    } else {
      CleanEnd(workflow.state, WorkflowSucceeded);
      CleanEnd(workflow.state, WorkflowFailed);
      CleanEnd(workflow.state, WorkflowCancelled);
      if !e.kind.WorkflowSuccess? && !e.kind.WorkflowFailure? && !e.kind.WorkflowCancel? { CleanOther(v, e); }
    }
  }

  lemma CleanOther(v: View, e: Event)
    requires !TaskEvent(e.kind) && !e.kind.WorkflowSuccess? && !e.kind.WorkflowFailure? && !e.kind.WorkflowCancel?
    ensures Clean(Problems(v, e)) <==> Legal(v, e)
  {
    hide Clean, When, TerminalSeen;
    var workflow, worker := WorkflowOf(v, e.workflowId), WorkerOf(v, e.workerId);
    match e.kind
    case WorkflowCreated => CleanWhen(workflow.createdSequence != 0, Error, WorkflowCreatedTwice);
    case WorkflowStarted =>
      CleanFirst(TerminalSeen(workflow.state), Error, WorkflowRestartedAfterTerminal,
        When(workflow.state == WorkflowUnknown, Warning, WorkflowStartedBeforeCreated));
      CleanWhen(workflow.state == WorkflowUnknown, Warning, WorkflowStartedBeforeCreated);
    case WorkerRegistered =>
      CleanWhen(worker.registeredAt.Some?, Warning, WorkerRegisteredTwice);
      assert !Clean([Problem(Error, WorkerEventWithoutId)]) by { Single(Problem(Error, WorkerEventWithoutId)); }
    case WorkerHeartbeat =>
      var late := worker.lastHeartbeat.Some? && e.at < worker.lastHeartbeat.value;
      CleanFirst(worker.registeredAt == None, Warning, HeartbeatBeforeRegistration,
        When(late, Warning, WorkerHeartbeatBackwards));
      CleanWhen(late, Warning, WorkerHeartbeatBackwards);
      Single(Problem(Error, HeartbeatWithoutWorker));
    case Other(_) => Single(Problem(Info, UnknownEventType));
    case _ =>
  }

  lemma Single(p: Problem)
    ensures Clean([p]) <==> p.severity != Error
  {
    assert [p][0] == p;
  }

  // What the replayed state keeps

  /** The worker `x` owns the lease of the task. */
  predicate Owns(v: View, x: string, w: string, t: string) {
    TaskOf(v, w, t).lease.Some? && TaskOf(v, w, t).lease.value.workerId == x
  }

  predicate Active(v: View, x: string, k: string) {
    x in v.workers && k in v.workers[x].activeTasks
  }

  /** A task has a lease exactly while it is leased or running, and the lease has an owner. */
  predicate LeaseOk(task: TaskReplay) {
    && (task.lease.Some? <==> task.state == Known(Leased) || task.state == Known(Running))
    && (task.lease.Some? ==> task.lease.value.workerId != "")
  }

  ghost predicate TasksOk(v: View) {
    forall w, t :: LeaseOk(TaskOf(v, w, t))
  }

  /** The active tasks of a worker are exactly those whose lease it owns. */
  ghost predicate Agree(v: View) {
    && (forall x, w, t :: Owns(v, x, w, t) ==> Active(v, x, Key(w, t)))
    && (forall x, k :: Active(v, x, k) ==> Explained(v, x, k))
  }

  ghost predicate Explained(v: View, x: string, k: string) {
    exists w, t :: k == Key(w, t) && Owns(v, x, w, t)
  }

  /** Workflow ids hold no slash, so that a key determines its task. */
  ghost predicate Slashless(v: View) {
    forall w :: w in v.workflows ==> '/' !in w
  }

  ghost predicate Inv(v: View) {
    Slashless(v) && TasksOk(v) && Agree(v)
  }

  lemma KeyInjective(w: string, t: string, w': string, t': string)
    requires '/' !in w && '/' !in w' && Key(w, t) == Key(w', t')
    ensures w == w' && t == t'
  {
    var k := Key(w, t);
    assert k[|w|] == '/' && Key(w', t')[|w'|] == '/';
    assert forall i :: 0 <= i < |w| ==> k[i] == w[i] && w[i] in w;
    assert forall i :: 0 <= i < |w'| ==> k[i] == w'[i] && w'[i] in w';
    assert |w| == |w'|;
    assert w == k[..|w|] && w' == k[..|w|];
    assert t == k[|w| + 1..] && t' == k[|w| + 1..];
  }

  lemma OwnedIsKnown(v: View, x: string, w: string, t: string)
    requires Slashless(v) && Owns(v, x, w, t)
    ensures '/' !in w && HasTask(v, w, t)
  {
  }

  /** Nothing but the record and the key of one task differs. */
  ghost predicate OnlyTask(v: View, v': View, w: string, t: string) {
    && (forall w', t' :: (w' != w || t' != t) ==> TaskOf(v', w', t') == TaskOf(v, w', t'))
    && (forall x, k :: k != Key(w, t) ==> (Active(v', x, k) <==> Active(v, x, k)))
    && v'.workflows.Keys == v.workflows.Keys + {w}
  }

  /** The key of the task is listed with its owner and nobody else. */
  ghost predicate KeyMatches(v: View, w: string, t: string) {
    forall x :: Active(v, x, Key(w, t)) <==> Owns(v, x, w, t)
  }

  lemma OwnsSame(v: View, v': View, x: string, w: string, t: string)
    requires Owns(v, x, w, t) && TaskOf(v', w, t) == TaskOf(v, w, t)
    ensures Owns(v', x, w, t)
  {
  }

  lemma AgreeUpdate(v: View, v': View, w: string, t: string)
    requires Inv(v) && '/' !in w && OnlyTask(v, v', w, t) && KeyMatches(v', w, t) && LeaseOk(TaskOf(v', w, t))
    ensures Inv(v')
  {
    hide LeaseOk, Owns, Active, TaskOf, Key;
    forall x, w', t' | Owns(v', x, w', t') ensures Active(v', x, Key(w', t')) {
      if w' != w || t' != t {
        assert TaskOf(v', w', t') == TaskOf(v, w', t');
        OwnsSame(v', v, x, w', t');
        OwnedIsKnown(v, x, w', t');
        if Key(w', t') == Key(w, t) { KeyInjective(w', t', w, t); }
      }
    }
    forall x, k | Active(v', x, k) ensures Explained(v', x, k) {
      if k == Key(w, t) {
        assert Owns(v', x, w, t);
      } else {
        assert Active(v, x, k) && Explained(v, x, k);
        var w', t' :| k == Key(w', t') && Owns(v, x, w', t');
        assert TaskOf(v', w', t') == TaskOf(v, w', t');
        OwnsSame(v, v', x, w', t');
      }
    }
    forall w', t' ensures LeaseOk(TaskOf(v', w', t')) {
      if w' != w || t' != t { assert LeaseOk(TaskOf(v, w', t')); }
    }
  }

  lemma PutTaskFrame(v: View, w: string, t: string, task: TaskReplay)
    ensures var v' := PutTask(v, w, t, task);
      && TaskOf(v', w, t) == task && v'.workers == v.workers && OnlyTask(v, v', w, t)
  {
  }

  /** Changing the active tasks of one worker. */
  lemma PutWorkerFrame(v: View, x: string, worker: WorkerReplay)
    ensures var v' := PutWorker(v, x, worker);
      && v'.workflows == v.workflows
      && (forall w, t :: TaskOf(v', w, t) == TaskOf(v, w, t))
      && forall y, k :: Active(v', y, k) <==> if y == x then k in worker.activeTasks else Active(v, y, k)
  {
  }

  lemma TouchFrame(v: View, x: string)
    ensures var v' := Touch(v, x);
      && v'.workflows == v.workflows
      && (forall w, t :: TaskOf(v', w, t) == TaskOf(v, w, t))
      && forall y, k :: Active(v', y, k) <==> Active(v, y, k)
  {
    if x != "" { PutWorkerFrame(v, x, WorkerOf(v, x)); }
  }

  /** The key of a task is listed with the owner of its lease only. */
  lemma KeyOwner(v: View, w: string, t: string)
    requires Inv(v) && '/' !in w
    ensures KeyMatches(v, w, t)
  {
    forall x ensures Active(v, x, Key(w, t)) <==> Owns(v, x, w, t) {
      if Active(v, x, Key(w, t)) {
        assert Explained(v, x, Key(w, t));
        var w', t' :| Key(w, t) == Key(w', t') && Owns(v, x, w', t');
        OwnedIsKnown(v, x, w', t');
        KeyInjective(w, t, w', t');
      }
    }
  }

  lemma ActiveSame(v: View, v': View)
    requires v'.workers == v.workers
    ensures forall y, k :: Active(v', y, k) <==> Active(v, y, k)
  {
  }

  lemma OwnerNamed(v: View, w: string, t: string)
    requires Inv(v)
    ensures TaskOf(v, w, t).lease.Some? ==> TaskOf(v, w, t).lease.value.workerId != ""
  {
    assert LeaseOk(TaskOf(v, w, t));
  }

  /** A record change that keeps the owner of the lease. */
  lemma KeepOwner(v: View, w: string, t: string, task: TaskReplay, x: string)
    requires Inv(v) && '/' !in w && LeaseOk(task)
    requires task.lease.Some? == TaskOf(v, w, t).lease.Some?
    requires task.lease.Some? ==> task.lease.value.workerId == TaskOf(v, w, t).lease.value.workerId
    ensures var v' := Touch(PutTask(v, w, t, task), x);
      Inv(v') && OnlyTask(v, v', w, t) && TaskOf(v', w, t) == task
  {
    hide TaskOf, Key, PutTask, Touch, LeaseOk, Active, Inv;
    var v1 := PutTask(v, w, t, task);
    var v' := Touch(v1, x);
    PutTaskFrame(v, w, t, task);
    TouchFrame(v1, x);
    KeyOwner(v, w, t);
    ActiveSame(v, v1);
    assert KeyMatches(v', w, t);
    AgreeUpdate(v, v', w, t);
  }

  lemma GrantOwner(v: View, task: TaskReplay, e: Event)
    requires Inv(v) && '/' !in e.workflowId && task == TaskOf(v, e.workflowId, e.taskId)
    requires e.kind.TaskLeased? && TaskLegal(v, task, e)
    ensures var v' := Granted(v, task, e);
      && Inv(v') && OnlyTask(v, v', e.workflowId, e.taskId)
      && var task' := TaskOf(v', e.workflowId, e.taskId);
      && task'.lease == Some(LeaseState(e.workerId, AttemptOf(task, e), e.sequence, false))
      && task'.state == Known(Leased) && task'.attempt == AttemptOf(task, e)
      && task'.startedAt == task.startedAt && task'.finishedAt == task.finishedAt
  {
    var w, t := e.workflowId, e.taskId;
    var attempt := AttemptOf(task, e);
    var lease := LeaseState(e.workerId, attempt, e.sequence, false);
    var task' := Moved(task.(attempt := attempt, lease := Some(lease)), Leased, e.at);
    assert task.state != Known(Leased) by { assert LeaseOk(task); }
    assert LeaseOk(task');
    GrantFrame(v, w, t, task', e.workerId);
    hide TaskOf, PutTask, LeaseOk, Active, Inv, Key;
    AgreeUpdate(v, Granted(v, task, e), w, t);
  }

  lemma GrantFrame(v: View, w: string, t: string, task: TaskReplay, x: string)
    requires Inv(v) && '/' !in w && x != "" && TaskOf(v, w, t).lease == None
    requires task.lease.Some? && task.lease.value.workerId == x
    ensures var v1 := PutTask(v, w, t, task);
      var v' := PutWorker(v1, x, WorkerOf(v1, x).(activeTasks := WorkerOf(v1, x).activeTasks + {Key(w, t)}));
      OnlyTask(v, v', w, t) && KeyMatches(v', w, t) && TaskOf(v', w, t) == task
  {
    hide TaskOf, PutTask, Inv, Key, PutWorker;
    var v1 := PutTask(v, w, t, task);
    var worker := WorkerOf(v1, x).(activeTasks := WorkerOf(v1, x).activeTasks + {Key(w, t)});
    PutTaskFrame(v, w, t, task);
    PutWorkerFrame(v1, x, worker);
    KeyOwner(v, w, t);
    var v' := PutWorker(v1, x, worker);
    assert TaskOf(v', w, t) == task;
    forall y ensures Active(v', y, Key(w, t)) <==> Owns(v', y, w, t) {
      assert Active(v1, y, Key(w, t)) <==> Active(v, y, Key(w, t));
      assert Active(v, y, Key(w, t)) <==> Owns(v, y, w, t);
    }
  }

  lemma CloseFrame(v: View, task: TaskReplay, e: Event, task': TaskReplay)
    requires Inv(v) && '/' !in e.workflowId && task == TaskOf(v, e.workflowId, e.taskId)
    requires task'.lease == None && LeaseOk(task')
    ensures var v' := PutTask(Freed(v, task, e), e.workflowId, e.taskId, task');
      Inv(v') && OnlyTask(v, v', e.workflowId, e.taskId) && TaskOf(v', e.workflowId, e.taskId) == task'
  {
    hide TaskOf, PutTask, Inv, Key, PutWorker, LeaseOk;
    var w, t := e.workflowId, e.taskId;
    var x := if task.lease.Some? then task.lease.value.workerId else e.workerId;
    var v1 := Freed(v, task, e);
    KeyOwner(v, w, t);
    if x != "" {
      PutWorkerFrame(v, x, WorkerOf(v, x).(activeTasks := WorkerOf(v, x).activeTasks - {Key(w, t)}));
    }
    var v' := PutTask(v1, w, t, task');
    PutTaskFrame(v1, w, t, task');
    OwnerNamed(v, w, t);
    forall y ensures Active(v', y, Key(w, t)) <==> Owns(v', y, w, t) {
      assert Active(v', y, Key(w, t)) <==> Active(v1, y, Key(w, t));
      assert Active(v, y, Key(w, t)) <==> Owns(v, y, w, t);
    }
    AgreeUpdate(v, v', w, t);
  }

  /** A legal task event keeps the invariant, changes one task only, and is what the trace says about its lease. */
  lemma TaskStep(v: View, e: Event)
    requires Inv(v) && '/' !in e.workflowId && TaskEvent(e.kind)
    requires TaskLegal(v, TaskOf(v, e.workflowId, e.taskId), e)
    ensures var v' := HandleTask(v, TaskOf(v, e.workflowId, e.taskId), e);
      && Inv(v') && OnlyTask(v, v', e.workflowId, e.taskId)
      && LeaseAfter(TaskOf(v, e.workflowId, e.taskId), TaskOf(v', e.workflowId, e.taskId), e)
  {
    var w, t := e.workflowId, e.taskId;
    var task := TaskOf(v, w, t);
    assert LeaseOk(task);
    hide TaskOf, PutTask, Inv, Key, PutWorker, Granted, OnlyTask;
    match e.kind
    case TaskReady =>
      KeepOwner(v, w, t, if task.state == Known(Ready) && task.lease == None then task
          else Moved(task, Ready, e.at), "");
    case TaskLeased => GrantOwner(v, task, e);
    case TaskStarted =>
      var task' := if task.lease.Some? then task.(lease := Some(task.lease.value.(started := true))) else task;
      KeepOwner(v, w, t, Moved(task', Running, e.at), e.workerId);
    case TaskLog => KeepOwner(v, w, t, task, "");
    case TaskSuccess => CloseStep(v, task, e, Succeeded, e.workerId);
    case TaskFailure => CloseStep(v, task, e, Failed, e.workerId);
    case TaskCancel =>
      if task.state == Known(Cancelled) {
        KeepOwner(v, w, t, task, "");
      } else if task.lease.Some? {
        CloseStep(v, task, e, Cancelled, "");
      } else {
        KeepOwner(v, w, t, Moved(task, Cancelled, e.at), "");
      }
    case TaskRetry => CloseStep(v, task, e, RetryWait, "");
    case LeaseExpired => CloseStep(v, task, e, Ready, "");
    case _ =>
  }

  lemma CloseStep(v: View, task: TaskReplay, e: Event, next: TaskState, x: string)
    requires Inv(v) && '/' !in e.workflowId && task == TaskOf(v, e.workflowId, e.taskId)
    requires next != Leased && next != Running && (task.lease.Some? || task.state != Known(next) || !HoldsLease(next))
    requires MoveLegal(task, next)
    ensures var v' := Touch(Closed(v, task, e, next), x);
      && Inv(v') && OnlyTask(v, v', e.workflowId, e.taskId)
      && TaskOf(v', e.workflowId, e.taskId) == Moved(task.(lease := None), next, e.at)
  {
    var w, t := e.workflowId, e.taskId;
    var task' := Moved(task.(lease := None), next, e.at);
    var v1 := Closed(v, task, e, next);
    CloseFrame(v, task, e, task');
    assert TaskOf(v1, w, t) == task';
    hide TaskOf, PutTask, Key, PutWorker, Touch, OnlyTask, Active, Closed;
    TouchTransfer(v, v1, w, t, x);
  }

  lemma TouchTransfer(v: View, v1: View, w: string, t: string, x: string)
    requires Inv(v1) && OnlyTask(v, v1, w, t)
    ensures var v' := Touch(v1, x);
      Inv(v') && OnlyTask(v, v', w, t) && TaskOf(v', w, t) == TaskOf(v1, w, t)
  {
    hide TaskOf, Key, Touch, Active;
    var v' := Touch(v1, x);
    TouchFrame(v1, x);
    forall y, w', t' | Owns(v', y, w', t') ensures Active(v', y, Key(w', t')) {
      assert Owns(v1, y, w', t');
    }
    forall y, k | Active(v', y, k) ensures Explained(v', y, k) {
      assert Active(v1, y, k) && Explained(v1, y, k);
      var w', t' :| k == Key(w', t') && Owns(v1, y, w', t');
      assert Owns(v', y, w', t');
    }
    forall w', t' ensures LeaseOk(TaskOf(v', w', t')) {
      assert LeaseOk(TaskOf(v1, w', t'));
    }
  }

  // Leases as the trace tells them

  predicate About(e: Event, w: string, t: string) {
    e.workflowId == w && e.taskId == t
  }

  predicate Opens(e: Event, w: string, t: string) {
    e.kind.TaskLeased? && About(e, w, t)
  }

  /** The event ends the lease of the task, if it has one. */
  predicate Closes(e: Event, w: string, t: string) {
    || (About(e, w, t) && (e.kind.TaskSuccess? || e.kind.TaskFailure? || e.kind.TaskRetry? || e.kind.TaskCancel?
    || e.kind.LeaseExpired?))
    || (e.kind.WorkflowCancel? && e.workflowId == w)
  }

  /** How a legal event about a task changes its lease and its attempt. */
  ghost predicate LeaseAfter(task: TaskReplay, task': TaskReplay, e: Event) {
    && (e.kind.TaskLeased? ==>
          && task.lease == None && task'.lease.Some? && task'.lease.value.workerId == e.workerId
          && task'.attempt == AttemptOf(task, e) > task.attempt)
    && (!e.kind.TaskLeased? ==> task'.attempt == task.attempt)
    && (Closes(e, e.workflowId, e.taskId) ==> task'.lease == None)
    && (!e.kind.TaskLeased? && !Closes(e, e.workflowId, e.taskId) ==> SameOwner(task, task'))
  }

  predicate SameOwner(task: TaskReplay, task': TaskReplay) {
    && task'.lease.Some? == task.lease.Some?
    && (task.lease.Some? ==> task'.lease.value.workerId == task.lease.value.workerId)
  }

  // The other events

  /** All records and all lists of active tasks are as before. */
  ghost predicate SameTasks(v: View, v': View) {
    && (forall w, t :: TaskOf(v', w, t) == TaskOf(v, w, t))
    && (forall x, k :: Active(v', x, k) <==> Active(v, x, k))
  }

  lemma SameTasksInv(v: View, v': View)
    requires Inv(v) && SameTasks(v, v') && Slashless(v')
    ensures Inv(v')
  {
    hide TaskOf, Key, Active;
    forall y, w', t' | Owns(v', y, w', t') ensures Active(v', y, Key(w', t')) {
      assert Owns(v, y, w', t');
    }
    forall y, k | Active(v', y, k) ensures Explained(v', y, k) {
      assert Active(v, y, k) && Explained(v, y, k);
      var w', t' :| k == Key(w', t') && Owns(v, y, w', t');
      assert Owns(v', y, w', t');
    }
    forall w', t' ensures LeaseOk(TaskOf(v', w', t')) {
      assert LeaseOk(TaskOf(v, w', t'));
    }
  }

  lemma EnteredStep(v: View, e: Event)
    requires Inv(v) && '/' !in e.workflowId
    ensures Inv(Entered(v, e)) && SameTasks(v, Entered(v, e))
  {
    SameTasksInv(v, Entered(v, e));
  }

  lemma SameWorkflowTasks(v: View, w: string, replay: WorkflowReplay)
    requires replay.tasks == WorkflowOf(v, w).tasks
    ensures SameTasks(v, PutWorkflow(v, w, replay)) && (Slashless(v) && '/' !in w
        ==> Slashless(PutWorkflow(v, w, replay)))
  {
  }

  lemma SameActiveTasks(v: View, x: string, worker: WorkerReplay)
    requires worker.activeTasks == WorkerOf(v, x).activeTasks
    ensures SameTasks(v, PutWorker(v, x, worker)) && (Slashless(v) ==> Slashless(PutWorker(v, x, worker)))
  {
    PutWorkerFrame(v, x, worker);
  }

  lemma SameTasksRefl(v: View)
    ensures SameTasks(v, v)
  {
  }

  lemma OtherStep(v: View, e: Event)
    requires Inv(v) && '/' !in e.workflowId && !TaskEvent(e.kind) && !e.kind.WorkflowCancel?
    ensures Inv(Handle(v, e)) && SameTasks(v, Handle(v, e))
  {
    hide PutWorkflow, PutWorker, SameTasks, TasksOk, Agree, Slashless;
    var w, x := e.workflowId, e.workerId;
    var workflow, worker := WorkflowOf(v, w), WorkerOf(v, x);
    match e.kind {
      case WorkflowCreated =>
        SameWorkflowTasks(v, w, if workflow.createdSequence != 0 then workflow
          else workflow.(createdSequence := e.sequence, state := WorkflowKnown(WorkflowPending)));
      case WorkflowStarted => SameWorkflowTasks(v, w, workflow.(state := WorkflowKnown(WorkflowRunning)));
      case WorkflowSuccess => SameWorkflowTasks(v, w, workflow.(state := WorkflowKnown(WorkflowSucceeded)));
      case WorkflowFailure => SameWorkflowTasks(v, w, workflow.(state := WorkflowKnown(WorkflowFailed)));
      case WorkerRegistered => SameActiveTasks(v, x, worker.(registeredAt := Some(e.at), lastHeartbeat := Some(e.at)));
      case WorkerHeartbeat => SameActiveTasks(v, x, worker.(lastHeartbeat := Some(e.at)));
      case _ =>
    }
    SameTasksRefl(v);
    SameTasksInv(v, Handle(v, e));
  }

  /** Cancelling a workflow changes the tasks of that workflow only. */
  ghost predicate Dropped(v: View, v': View, w: string, at: Time) {
    && (forall w', t' :: w' != w ==> TaskOf(v', w', t') == TaskOf(v, w', t'))
    && (forall t' :: TaskOf(v', w, t') == if HasTask(v, w, t') then CancelledTask(TaskOf(v, w, t'), at) else FRESH_TASK)
  }

  lemma CancelStep(v: View, e: Event)
    requires Inv(v) && '/' !in e.workflowId && e.kind.WorkflowCancel?
    ensures Inv(Handle(v, e)) && Dropped(v, Handle(v, e), e.workflowId, e.at)
  {
    var w, v' := e.workflowId, Handle(v, e);
    assert Dropped(v, v', w, e.at);
    forall x, k ensures Active(v', x, k)
        <==> Active(v, x, k) && k !in OwnedKeys(w, WorkflowOf(v, w).tasks, WorkflowOf(v, w).tasks.Keys, x) {}
    assert Slashless(v');
    forall t' ensures LeaseOk(TaskOf(v', w, t')) {}
    hide CancelAll, Handle, Key;
    CancelAgree(v, v', w, e.at);
  }

  lemma OwnedListed(v: View, x: string, w: string, t: string)
    requires Owns(v, x, w, t) && LeaseOk(TaskOf(v, w, t))
    ensures Key(w, t) in OwnedKeys(w, WorkflowOf(v, w).tasks, WorkflowOf(v, w).tasks.Keys, x)
  {
  }

  lemma CancelAgree(v: View, v': View, w: string, at: Time)
    requires Inv(v) && '/' !in w && Dropped(v, v', w, at) && Slashless(v')
    requires forall t' :: LeaseOk(TaskOf(v', w, t'))
    requires
      forall x, k :: Active(v', x, k) <==>
        Active(v, x, k) && k !in OwnedKeys(w, WorkflowOf(v, w).tasks, WorkflowOf(v, w).tasks.Keys, x)
    ensures Inv(v')
  {
    hide LeaseOk, Active, Key;
    forall x, w', t' | Owns(v', x, w', t') ensures Active(v', x, Key(w', t')) {
      assert w' != w;
      assert Owns(v, x, w', t');
      OwnedIsKnown(v, x, w', t');
      var owned := OwnedKeys(w, WorkflowOf(v, w).tasks, WorkflowOf(v, w).tasks.Keys, x);
      if Key(w', t') in owned {
        var t :| t in WorkflowOf(v, w).tasks && Key(w, t) == Key(w', t');
        KeyInjective(w, t, w', t');
      }
    }
    forall x, k | Active(v', x, k) ensures Explained(v', x, k) {
      assert Active(v, x, k) && Explained(v, x, k);
      var w', t' :| k == Key(w', t') && Owns(v, x, w', t');
      assert LeaseOk(TaskOf(v, w', t'));
      OwnedListed(v, x, w', t');
      assert w' != w;
      assert Owns(v', x, w', t');
    }
    forall w', t' ensures LeaseOk(TaskOf(v', w', t')) {
      if w' != w { assert LeaseOk(TaskOf(v, w', t')); }
    }
  }

  // The theorem over traces

  ghost predicate SlashFree(trace: seq<Event>) {
    forall i :: 0 <= i < |trace| ==> '/' !in trace[i].workflowId
  }

  /** The event that opened the lease the task holds after the trace. */
  function Holder(trace: seq<Event>, w: string, t: string): Option<nat> {
    if trace == [] then None
    else if Opens(trace[|trace| - 1], w, t) then Some(|trace| - 1)
    else if Closes(trace[|trace| - 1], w, t) then None
    else Holder(trace[..|trace| - 1], w, t)
  }

  /** The replayed lease is the one the trace last opened and has not closed. */
  ghost predicate Mirrors(v: View, trace: seq<Event>, w: string, t: string) {
    var task, holder := TaskOf(v, w, t), Holder(trace, w, t);
    && (task.lease.Some? <==> holder.Some?)
    && (holder.Some? ==> holder.value < |trace| && task.lease.value.workerId == trace[holder.value].workerId)
  }

  /** The attempt a task has reached after the trace: a lease gives the number it carries, or else one more. */
  function AttemptAfter(trace: seq<Event>, w: string, t: string): int {
    if trace == [] then 0
    else
      var before, e := AttemptAfter(trace[..|trace| - 1], w, t), trace[|trace| - 1];
      if !Opens(e, w, t) then before else if e.attempt.Number? then e.attempt.value else before + 1
  }

  ghost predicate CountsAttempts(v: View, trace: seq<Event>, w: string, t: string) {
    TaskOf(v, w, t).attempt == AttemptAfter(trace, w, t)
  }

  /** What one more event does to the lease and the attempt of any task. */
  ghost predicate Steps(v: View, v': View, e: Event, w: string, t: string) {
    var task, task' := TaskOf(v, w, t), TaskOf(v', w, t);
    if About(e, w, t) && TaskEvent(e.kind) then LeaseAfter(task, task', e)
    else if e.kind.WorkflowCancel? && e.workflowId == w then task'.lease == None && task'.attempt == task.attempt
    else task' == task
  }

  lemma DroppedLease(v: View, v': View, w: string, t: string, at: Time)
    requires Dropped(v, v', w, at)
    ensures TaskOf(v', w, t).lease == None && TaskOf(v', w, t).attempt == TaskOf(v, w, t).attempt
  {
  }

  lemma HandleStep(v: View, e: Event)
    requires Inv(v) && '/' !in e.workflowId && Legal(v, e)
    ensures Inv(Handle(v, e))
    ensures forall w, t :: Steps(v, Handle(v, e), e, w, t)
  {
    hide Inv, HandleTask, TaskLegal, LeaseAfter, TaskOf;
    if TaskEvent(e.kind) {
      TaskStep(v, e);
    } else if e.kind.WorkflowCancel? {
      CancelStep(v, e);
      forall t ensures Steps(v, Handle(v, e), e, e.workflowId, t) {
        DroppedLease(v, Handle(v, e), e.workflowId, t, e.at);
      }
    } else {
      OtherStep(v, e);
    }
  }

  lemma HolderNext(trace: seq<Event>, e: Event, w: string, t: string)
    ensures Holder(trace + [e], w, t) ==
      if Opens(e, w, t) then Some(|trace|) else if Closes(e, w, t) then None else Holder(trace, w, t)
  {
    assert (trace + [e])[..|trace|] == trace;
  }

  lemma MirrorsNext(v: View, v': View, trace: seq<Event>, e: Event, w: string, t: string)
    requires Mirrors(v, trace, w, t) && Steps(v, v', e, w, t)
    ensures Mirrors(v', trace + [e], w, t)
  {
    hide Holder, TaskOf;
    HolderNext(trace, e, w, t);
  }

  lemma AttemptsNext(v: View, v': View, trace: seq<Event>, e: Event, w: string, t: string)
    requires CountsAttempts(v, trace, w, t) && Steps(v, v', e, w, t)
    ensures CountsAttempts(v', trace + [e], w, t)
  {
    hide TaskOf;
    assert (trace + [e])[..|trace|] == trace;
  }

  /** The replayed tasks are what the trace says they are. */
  ghost predicate Told(v: View, trace: seq<Event>) {
    forall w, t :: Mirrors(v, trace, w, t) && CountsAttempts(v, trace, w, t)
  }

  lemma ToldNext(v: View, v': View, trace: seq<Event>, e: Event)
    requires Told(v, trace) && forall w, t :: Steps(v, v', e, w, t)
    ensures Told(v', trace + [e])
  {
    hide Mirrors, CountsAttempts, Steps;
    forall w, t ensures Mirrors(v', trace + [e], w, t) && CountsAttempts(v', trace + [e], w, t) {
      MirrorsNext(v, v', trace, e, w, t);
      AttemptsNext(v, v', trace, e, w, t);
    }
  }

  lemma ToldSame(v: View, v': View, trace: seq<Event>)
    requires SameTasks(v, v') && Told(v, trace)
    ensures Told(v', trace)
  {
    hide Mirrors, CountsAttempts;
    forall w, t ensures Mirrors(v', trace, w, t) && CountsAttempts(v', trace, w, t) {
      SameMirrors(v, v', trace, w, t);
    }
  }

  lemma ToldStart(o: Options)
    ensures Inv(Replayed(o, []).view) && Told(Replayed(o, []).view, [])
  {
  }

  /** A trace replayed without errors, one event at a time. */
  lemma {:induction false} TraceInv(o: Options, trace: seq<Event>)
    requires o.workflowFilter == "" && SlashFree(trace) && Replayed(o, trace).errors == 0
    ensures Inv(Replayed(o, trace).view) && Told(Replayed(o, trace).view, trace)
  {
    hide *;
    if trace == [] {
      ToldStart(o);
    } else {
      var init, e := trace[..|trace| - 1], trace[|trace| - 1];
      assert trace == init + [e];
      TraceStep(o, init, e);
      TraceInv(o, init);
      var v := Replayed(o, init).view;
      EnteredStep(v, e);
      ToldSame(v, Entered(v, e), init);
      HandleStep(Entered(v, e), e);
      ToldNext(Entered(v, e), Handle(Entered(v, e), e), init, e);
    }
  }

  lemma SameMirrors(v: View, v': View, trace: seq<Event>, w: string, t: string)
    requires SameTasks(v, v') && Mirrors(v, trace, w, t) && CountsAttempts(v, trace, w, t)
    ensures Mirrors(v', trace, w, t) && CountsAttempts(v', trace, w, t)
  {
    assert TaskOf(v', w, t) == TaskOf(v, w, t);
  }

  /** The last event of a trace without errors is legal. */
  lemma TraceStep(o: Options, init: seq<Event>, e: Event)
    requires o.workflowFilter == "" && Replayed(o, init + [e]).errors == 0
    ensures Replayed(o, init).errors == 0
    ensures Legal(Entered(Replayed(o, init).view, e), e)
    ensures Replayed(o, init + [e]).view == Handle(Entered(Replayed(o, init).view, e), e)
    ensures SlashFree(init + [e]) ==> SlashFree(init) && '/' !in e.workflowId
  {
    hide Handle, Legal, Entered, Problems;
    var trace := init + [e];
    assert trace[..|trace| - 1] == init && trace[|trace| - 1] == e;
    AcceptClean(Replayed(o, init), o, e);
    CleanIffLegal(Entered(Replayed(o, init).view, e), e);
    if SlashFree(trace) {
      forall i | 0 <= i < |init| ensures '/' !in init[i].workflowId { assert init[i] == trace[i]; }
    }
  }

  /** Between two leases of a task there is an event that ended the first. */
  ghost predicate LeasesDisjoint(trace: seq<Event>) {
    forall w, t, i, j :: 0 <= i < j < |trace| && Opens(trace[i], w, t) && Opens(trace[j], w, t)
        ==> ClosedBetween(trace, i, j, w, t)
  }

  ghost predicate ClosedBetween(trace: seq<Event>, i: int, j: int, w: string, t: string)
    requires 0 <= i < j <= |trace|
  {
    exists k :: i < k < j && Closes(trace[k], w, t)
  }

  /** Each lease of a task starts a higher attempt than all leases of the task before it. */
  ghost predicate AttemptsIncrease(trace: seq<Event>) {
    forall w, t, i, j :: 0 <= i < j < |trace| && Opens(trace[i], w, t) && Opens(trace[j], w, t) ==>
      AttemptAfter(trace[..i + 1], w, t) < AttemptAfter(trace[..j + 1], w, t)
  }

  /** The events that need a lease. */
  predicate Acts(e: Event) {
    e.kind.TaskStarted? || e.kind.TaskSuccess? || e.kind.TaskFailure?
  }

  /** An event that starts, completes, cancels or expires a leased task and names a worker names the one
      that holds the lease; starting and completing need a lease. */
  ghost predicate OwnersAct(trace: seq<Event>) {
    forall k :: 0 <= k < |trace| && (Acts(trace[k]) || trace[k].kind.TaskCancel? || trace[k].kind.LeaseExpired?)
        ==> OwnerActs(trace, k)
  }

  ghost predicate OwnerActs(trace: seq<Event>, k: nat)
    requires k < |trace|
  {
    var e := trace[k];
    var holder := Holder(trace[..k], e.workflowId, e.taskId);
    && (Acts(e) ==> holder.Some?)
    && (holder.Some? ==> holder.value < k && (e.workerId != "" ==> e.workerId == trace[holder.value].workerId))
  }

  lemma {:induction false} NoHolder(trace: seq<Event>, w: string, t: string, i: nat)
    requires i < |trace| && Opens(trace[i], w, t) && Holder(trace, w, t) == None
    ensures ClosedBetween(trace, i, |trace|, w, t)
  {
    var last := |trace| - 1;
    if i == last || Closes(trace[last], w, t) {
      assert Closes(trace[last], w, t);
    } else {
      var init := trace[..last];
      assert init[i] == trace[i];
      NoHolder(init, w, t, i);
      var k :| i < k < last && Closes(init[k], w, t);
      assert Closes(trace[k], w, t);
    }
  }

  lemma SlashFreePrefix(trace: seq<Event>, n: nat)
    requires SlashFree(trace) && n <= |trace|
    ensures SlashFree(trace[..n])
  {
  }

  /** What the trace up to `j` says at a legal event. */
  lemma AtEvent(o: Options, trace: seq<Event>, j: nat)
    requires o.workflowFilter == "" && SlashFree(trace) && Replayed(o, trace).errors == 0 && j < |trace|
    ensures
      var v := Entered(Replayed(o, trace[..j]).view, trace[j]);
      Inv(v) && Legal(v, trace[j]) && Told(v, trace[..j])
  {
    hide *;
    var before := trace[..j];
    assert trace[..j + 1] == before + [trace[j]];
    ErrorsGrow(o, trace, j + 1);
    SlashFreePrefix(trace, j + 1);
    TraceStep(o, before, trace[j]);
    TraceInv(o, before);
    var v := Replayed(o, before).view;
    EnteredStep(v, trace[j]);
    ToldSame(v, Entered(v, trace[j]), before);
  }

  /** Soundness: a trace that replays without errors, with no workflow filter and no slash in a workflow id. */
  lemma TraceSound(o: Options, trace: seq<Event>)
    requires o.workflowFilter == "" && SlashFree(trace) && Replayed(o, trace).errors == 0
    ensures LeasesDisjoint(trace) && AttemptsIncrease(trace) && OwnersAct(trace)
    ensures Agree(Replayed(o, trace).view) && Told(Replayed(o, trace).view, trace)
  {
    hide Replayed, Opens, ClosedBetween, OwnerActs, SlashFree, Told, Agree, TasksOk;
    TraceInv(o, trace);
    forall w, t, i, j | 0 <= i < j < |trace| && Opens(trace[i], w, t) && Opens(trace[j], w, t)
      ensures ClosedBetween(trace, i, j, w, t)
      ensures AttemptAfter(trace[..i + 1], w, t) < AttemptAfter(trace[..j + 1], w, t)
    {
      TwoLeases(o, trace, w, t, i, j);
      AttemptsGrow(o, trace, w, t, i + 1, j);
      AttemptStep(o, trace, w, t, j);
    }
    forall k | 0 <= k < |trace| && (Acts(trace[k]) || trace[k].kind.TaskCancel? || trace[k].kind.LeaseExpired?)
      ensures OwnerActs(trace, k)
    {
      OwnerAt(o, trace, k);
    }
  }

  lemma AttemptStep(o: Options, trace: seq<Event>, w: string, t: string, j: nat)
    requires o.workflowFilter == "" && SlashFree(trace) && Replayed(o, trace).errors == 0 && j < |trace|
    ensures AttemptAfter(trace[..j], w, t) <= AttemptAfter(trace[..j + 1], w, t)
    ensures Opens(trace[j], w, t) ==> AttemptAfter(trace[..j], w, t) < AttemptAfter(trace[..j + 1], w, t)
  {
    hide Replayed, Holder, Entered, SlashFree, TaskOf, Mirrors;
    AtEvent(o, trace, j);
    assert trace[..j + 1][..j] == trace[..j];
    assert CountsAttempts(Entered(Replayed(o, trace[..j]).view, trace[j]), trace[..j], w, t);
  }

  lemma {:induction false} AttemptsGrow(o: Options, trace: seq<Event>, w: string, t: string, i: nat, j: nat)
    requires o.workflowFilter == "" && SlashFree(trace) && Replayed(o, trace).errors == 0 && i <= j <= |trace|
    ensures AttemptAfter(trace[..i], w, t) <= AttemptAfter(trace[..j], w, t)
    decreases j - i
  {
    hide *;
    if i < j {
      AttemptStep(o, trace, w, t, j - 1);
      AttemptsGrow(o, trace, w, t, i, j - 1);
    }
  }

  lemma OwnerAt(o: Options, trace: seq<Event>, k: nat)
    requires o.workflowFilter == "" && SlashFree(trace) && Replayed(o, trace).errors == 0
    requires k < |trace| && (Acts(trace[k]) || trace[k].kind.TaskCancel? || trace[k].kind.LeaseExpired?)
    ensures OwnerActs(trace, k)
  {
    hide Replayed, Holder, Entered, SlashFree, TaskOf, CountsAttempts;
    AtEvent(o, trace, k);
    var v, e := Entered(Replayed(o, trace[..k]).view, trace[k]), trace[k];
    assert Mirrors(v, trace[..k], e.workflowId, e.taskId);
    assert LeaseOk(TaskOf(v, e.workflowId, e.taskId));
  }

  lemma TwoLeases(o: Options, trace: seq<Event>, w: string, t: string, i: nat, j: nat)
    requires o.workflowFilter == "" && SlashFree(trace) && Replayed(o, trace).errors == 0
    requires i < j < |trace| && Opens(trace[i], w, t) && Opens(trace[j], w, t)
    ensures ClosedBetween(trace, i, j, w, t)
  {
    hide Replayed, Holder, Entered, SlashFree, TaskOf, Closes;
    AtEvent(o, trace, j);
    var v, before := Entered(Replayed(o, trace[..j]).view, trace[j]), trace[..j];
    assert Mirrors(v, before, w, t);
    assert before[i] == trace[i];
    NoHolder(before, w, t, i);
    var k :| i < k < |before| && Closes(before[k], w, t);
    assert Closes(trace[k], w, t);
  }
}
