/** What the replayed records say about the trace: each task's state, times and lease after every event, and the
    events that count as errors. */
module ReplayRecords {
  import opened Runtime
  import opened Replay
  import opened ReplaySoundness

  // One event about a task

  /** The record that a task event leaves. */
  function NewRecord(task: TaskReplay, e: Event): TaskReplay {
    match e.kind
    case TaskReady => if task.state == Known(Ready) && task.lease == None then task else Moved(task, Ready, e.at)
    case TaskLeased =>
      var attempt := AttemptOf(task, e);
      Moved(task.(attempt := if attempt > task.attempt then attempt else task.attempt,
                    lease := Some(LeaseState(e.workerId, attempt, e.sequence, false))), Leased, e.at)
    case TaskStarted =>
      Moved(if task.lease.Some? then task.(lease := Some(task.lease.value.(started := true)))
          else task, Running, e.at)
    case TaskSuccess => Moved(task.(lease := None), Succeeded, e.at)
    case TaskFailure => Moved(task.(lease := None), Failed, e.at)
    case TaskCancel => if task.state == Known(Cancelled) then task else Moved(task.(lease := None), Cancelled, e.at)
    case TaskRetry => Moved(task.(lease := None), RetryWait, e.at)
    case LeaseExpired => Moved(task.(lease := None), Ready, e.at)
    case _ => task
  }

  lemma TaskEventRecord(v: View, e: Event)
    requires TaskEvent(e.kind)
    ensures var task := TaskOf(v, e.workflowId, e.taskId);
      HandleTask(v, task, e).workflows == PutTask(v, e.workflowId, e.taskId, NewRecord(task, e)).workflows
  {
    hide Moved, TaskOf, Key;
    var task := TaskOf(v, e.workflowId, e.taskId);
    if e.kind.TaskCancel? && task.lease == None { assert task.(lease := None) == task; }
  }

  /** The rest of the replayed workflows is as before. */
  lemma PutTaskRest(v: View, w: string, t: string, task: TaskReplay, v': View)
    requires w in v.workflows && v'.workflows == PutTask(v, w, t, task).workflows
    ensures v'.workflows.Keys == v.workflows.Keys
    ensures forall w' :: w' in v.workflows ==>
      v'.workflows[w'].state == v.workflows[w'].state && v'.workflows[w'].createdSequence
          == v.workflows[w'].createdSequence
    ensures forall w', t' :: HasTask(v', w', t') <==> HasTask(v, w', t') || (w' == w && t' == t)
    ensures forall w', t' :: TaskOf(v', w', t') == if w' == w && t' == t then task else TaskOf(v, w', t')
  {
  }

  /** The state a task event puts its task in; a log line names none. */
  function Named(kind: Kind): Option<TaskState> {
    match kind
    case TaskReady => Some(Ready)
    case LeaseExpired => Some(Ready)
    case TaskLeased => Some(Leased)
    case TaskStarted => Some(Running)
    case TaskSuccess => Some(Succeeded)
    case TaskFailure => Some(Failed)
    case TaskRetry => Some(RetryWait)
    case TaskCancel => Some(Cancelled)
    case _ => None
  }

  /** The record after a task event, field by field. */
  ghost predicate Recorded(task: TaskReplay, task': TaskReplay, e: Event) {
    var next := Named(e.kind);
    var entered := next.Some? && task.state != Known(next.value);
    && task'.state == (if next.Some? then Known(next.value) else task.state)
    && task'.startedAt == (if e.kind.TaskStarted? && entered && task.startedAt == None then Some(e.at)
        else task.startedAt)
    && task'.finishedAt == (if entered && next.value in {Succeeded, Failed, Cancelled} then Some(e.at)
        else task.finishedAt)
  }

  /** The lease and the attempt after a task event. */
  ghost predicate Leasing(task: TaskReplay, task': TaskReplay, e: Event) {
    match e.kind
    case TaskLeased =>
      var attempt := if e.attempt.Number? then e.attempt.value else task.attempt + 1;
      && task'.lease == Some(LeaseState(e.workerId, attempt, e.sequence, false))
      && task'.attempt >= task.attempt && task'.attempt >= attempt && task'.attempt in {task.attempt, attempt}
    case TaskStarted =>
      && task'.attempt == task.attempt && (task'.lease.Some? <==> task.lease.Some?)
      && (task.lease.Some? ==> task'.lease == Some(task.lease.value.(started := true)))
    case TaskReady => task'.attempt == task.attempt && task'.lease == task.lease
    case TaskLog => task' == task
    case TaskCancel =>
      && task'.attempt == task.attempt
      && task'.lease == if task.state == Known(Cancelled) then task.lease else None
    case _ => task'.attempt == task.attempt && task'.lease == None
  }

  /** A task event changes the record of its task as its kind says, and no other record. */
  lemma TaskRecorded(v: View, e: Event)
    requires TaskEvent(e.kind)
    ensures var task, task' := TaskOf(v, e.workflowId, e.taskId), TaskOf(Handle(v, e), e.workflowId, e.taskId);
      Recorded(task, task', e) && Leasing(task, task', e)
    ensures HasTask(Handle(v, e), e.workflowId, e.taskId)
    ensures forall w, t :: !About(e, w, t) ==>
      TaskOf(Handle(v, e), w, t) == TaskOf(v, w, t) && (HasTask(Handle(v, e), w, t) <==> HasTask(v, w, t))
  {
    hide HandleTask, NewRecord, Recorded, Leasing;
    TaskEventRecord(v, e);
    RecordFields(TaskOf(v, e.workflowId, e.taskId), e);
  }

  lemma RecordFields(task: TaskReplay, e: Event)
    requires TaskEvent(e.kind)
    ensures Recorded(task, NewRecord(task, e), e) && Leasing(task, NewRecord(task, e), e)
  {
  }

  // Any event

  /** A cancellation of the workflow cancels its unfinished tasks and takes every lease. */
  ghost predicate Dropping(task: TaskReplay, task': TaskReplay, e: Event) {
    var open := task.state !in {Known(Succeeded), Known(Failed), Known(Cancelled)};
    && task'.state == (if open then Known(Cancelled) else task.state)
    && task'.finishedAt == (if open then Some(e.at) else task.finishedAt)
    && task'.startedAt == task.startedAt && task'.attempt == task.attempt && task'.lease == None
  }

  /** What one more event does to the record of any task. */
  ghost predicate RecordStep(v: View, v': View, e: Event, w: string, t: string) {
    var task, task' := TaskOf(v, w, t), TaskOf(v', w, t);
    if TaskEvent(e.kind) && About(e, w, t) then HasTask(v', w, t) && Recorded(task, task', e) && Leasing(task, task', e)
    else
      && (HasTask(v', w, t) <==> HasTask(v, w, t))
      && if e.kind.WorkflowCancel? && e.workflowId == w && HasTask(v, w, t) then Dropping(task, task', e)
         else task' == task
  }

  /** Every event changes the records as its kind says, legal or not. */
  lemma Records(v: View, e: Event, w: string, t: string)
    ensures RecordStep(v, Handle(v, e), e, w, t)
  {
    hide Handle, Recorded, Leasing, Dropping;
    if TaskEvent(e.kind) {
      TaskRecorded(v, e);
    } else if e.kind.WorkflowCancel? {
      CancelRecords(v, e, w, t);
    } else {
      OtherRecords(v, e, w, t);
    }
  }

  lemma CancelRecords(v: View, e: Event, w: string, t: string)
    requires e.kind.WorkflowCancel?
    ensures HasTask(Handle(v, e), w, t) <==> HasTask(v, w, t)
    ensures var task, task' := TaskOf(v, w, t), TaskOf(Handle(v, e), w, t);
      if e.workflowId == w && HasTask(v, w, t) then Dropping(task, task', e) else task' == task
  {
    hide HandleTask, OwnedKeys, Owners, PutWorker;
  }

  lemma OtherRecords(v: View, e: Event, w: string, t: string)
    requires !TaskEvent(e.kind) && !e.kind.WorkflowCancel?
    ensures HasTask(Handle(v, e), w, t) <==> HasTask(v, w, t)
    ensures TaskOf(Handle(v, e), w, t) == TaskOf(v, w, t)
  {
    hide HandleTask, CancelAll;
  }

  /** The state a workflow event puts its workflow in, whatever the state before. */
  function Declared(kind: Kind): Option<WorkflowState> {
    match kind
    case WorkflowStarted => Some(WorkflowRunning)
    case WorkflowSuccess => Some(WorkflowSucceeded)
    case WorkflowFailure => Some(WorkflowFailed)
    case WorkflowCancel => Some(WorkflowCancelled)
    case _ => None
  }

  /** Only a first creation and the workflow's own events change its state, and only a first creation its number. */
  lemma WorkflowRecords(v: View, e: Event, w: string)
    ensures var workflow, workflow' := WorkflowOf(v, w), WorkflowOf(Handle(v, e), w);
      var created := e.kind.WorkflowCreated? && e.workflowId == w && workflow.createdSequence == 0;
      && workflow'.createdSequence == (if created then e.sequence else workflow.createdSequence)
      && workflow'.state ==
        (if created then WorkflowKnown(WorkflowPending)
         else if e.workflowId == w && Declared(e.kind).Some? then WorkflowKnown(Declared(e.kind).value)
         else workflow.state)
  {
    hide HandleTask, NewRecord, OwnedKeys, Owners, CancelledTask, Moved;
    if TaskEvent(e.kind) { TaskEventRecord(v, e); }
  }

  /** A worker's registration and last heartbeat are the times of its own events. */
  lemma WorkerRecords(v: View, e: Event, x: string)
    ensures var worker, worker' := WorkerOf(v, x), WorkerOf(Handle(v, e), x);
      var own := e.workerId == x != "";
      && worker'.registeredAt == (if own && e.kind.WorkerRegistered? then Some(e.at) else worker.registeredAt)
      && worker'.lastHeartbeat ==
        (if own && (e.kind.WorkerRegistered? || e.kind.WorkerHeartbeat?) then Some(e.at) else worker.lastHeartbeat)
  {
    hide HandleTask, OwnedKeys, Owners, CancelledTask;
    if TaskEvent(e.kind) { TaskWorkers(v, TaskOf(v, e.workflowId, e.taskId), e, x); }
  }

  /** Task events only change the lists of active tasks. */
  lemma TaskWorkers(v: View, task: TaskReplay, e: Event, x: string)
    requires TaskEvent(e.kind)
    ensures var worker, worker' := WorkerOf(v, x), WorkerOf(HandleTask(v, task, e), x);
      worker'.registeredAt == worker.registeredAt && worker'.lastHeartbeat == worker.lastHeartbeat
  {
    hide Key, Moved, AttemptOf, PutTask, TaskOf;
    forall u: View, w, t, task' ensures PutTask(u, w, t, task').workers == u.workers { PutTaskWorkers(u, w, t, task'); }
  }

  lemma PutTaskWorkers(v: View, w: string, t: string, task: TaskReplay)
    ensures PutTask(v, w, t, task).workers == v.workers
  {
  }

  // Whole traces

  /** The state a task has reached: the one its last event named, unless its workflow was cancelled since. */
  ghost function StateAfter(trace: seq<Event>, w: string, t: string): Seen {
    if trace == [] then Unknown
    else
      var before, e := StateAfter(trace[..|trace| - 1], w, t), trace[|trace| - 1];
      if About(e, w, t) && Named(e.kind).Some? then Known(Named(e.kind).value)
      else if e.kind.WorkflowCancel? && e.workflowId == w && Mentioned(trace, w, t)
          && before !in {Known(Succeeded), Known(Failed), Known(Cancelled)} then Known(Cancelled)
      else before
  }

  /** Some task event was about the task. */
  ghost predicate Mentioned(trace: seq<Event>, w: string, t: string) {
    exists i :: 0 <= i < |trace| && TaskEvent(trace[i].kind) && About(trace[i], w, t)
  }

  /** The events of the workflow are not filtered out. */
  predicate Watched(o: Options, w: string) {
    o.workflowFilter in {"", w} || w == ""
  }

  /** The replayed states are those the trace tells. */
  ghost predicate StatesTold(v: View, trace: seq<Event>, w: string, t: string) {
    TaskOf(v, w, t).state == StateAfter(trace, w, t) && (HasTask(v, w, t) <==> Mentioned(trace, w, t))
  }

  lemma MentionedNext(init: seq<Event>, e: Event, w: string, t: string)
    ensures Mentioned(init + [e], w, t) <==> Mentioned(init, w, t) || (TaskEvent(e.kind) && About(e, w, t))
  {
    var trace := init + [e];
    if Mentioned(init, w, t) {
      var i :| 0 <= i < |init| && TaskEvent(init[i].kind) && About(init[i], w, t);
      assert trace[i] == init[i];
    }
    if TaskEvent(e.kind) && About(e, w, t) { assert trace[|init|] == e; }
  }

  lemma StateNext(init: seq<Event>, e: Event, w: string, t: string)
    ensures StateAfter(init + [e], w, t) ==
      if About(e, w, t) && Named(e.kind).Some? then Known(Named(e.kind).value)
      else if e.kind.WorkflowCancel? && e.workflowId == w && Mentioned(init + [e], w, t)
          && StateAfter(init, w, t) !in {Known(Succeeded), Known(Failed), Known(Cancelled)} then Known(Cancelled)
      else StateAfter(init, w, t)
  {
    hide Mentioned;
    assert (init + [e])[..|init|] == init;
  }

  lemma ToldStep(v: View, v': View, init: seq<Event>, e: Event, w: string, t: string)
    requires StatesTold(v, init, w, t) && RecordStep(v, v', e, w, t)
    ensures StatesTold(v', init + [e], w, t)
  {
    hide Mentioned, HasTask, TaskOf, StateAfter, Leasing;
    MentionedNext(init, e, w, t);
    StateNext(init, e, w, t);
  }

  /** Events that are filtered out concern neither the task nor its workflow. */
  lemma ToldIgnored(v: View, init: seq<Event>, e: Event, w: string, t: string)
    requires StatesTold(v, init, w, t) && e.workflowId != w
    ensures StatesTold(v, init + [e], w, t)
  {
    hide Mentioned, HasTask, TaskOf, StateAfter;
    MentionedNext(init, e, w, t);
    StateNext(init, e, w, t);
  }

  lemma ToldEntered(v: View, e: Event, trace: seq<Event>, w: string, t: string)
    requires StatesTold(v, trace, w, t)
    ensures StatesTold(Entered(v, e), trace, w, t)
  {
    hide Mentioned, StateAfter;
  }

  /** After any trace, with errors or without, exactly the tasks that task events name are known, each in the state
      its events tell. */
  lemma {:induction false} TraceStates(o: Options, trace: seq<Event>, w: string, t: string)
    requires Watched(o, w)
    ensures StatesTold(Replayed(o, trace).view, trace, w, t)
  {
    hide Handle, Entered, StatesTold, RecordStep, Problems, StreamProblems;
    if trace == [] {
      NothingTold(o, w, t);
    } else {
      var init, e := trace[..|trace| - 1], trace[|trace| - 1];
      var s := Replayed(o, init);
      assert trace == init + [e];
      TraceStates(o, init, w, t);
      AcceptView(s, o, e);
      if Ignored(o, e) {
        ToldIgnored(s.view, init, e, w, t);
      } else {
        ToldEntered(s.view, e, init, w, t);
        Records(Entered(s.view, e), e, w, t);
        ToldStep(Entered(s.view, e), Handle(Entered(s.view, e), e), init, e, w, t);
      }
    }
  }

  lemma NothingTold(o: Options, w: string, t: string)
    ensures StatesTold(Replayed(o, []).view, [], w, t)
  {
  }

  lemma AcceptView(s: State, o: Options, e: Event)
    ensures Accept(s, o, e).view == if Ignored(o, e) then s.view else Handle(Entered(s.view, e), e)
    ensures Accept(s, o, e).observed == s.observed + {e.sequence} && Accept(s, o, e).previousSequence == e.sequence
  {
    hide Handle, Problems, StreamProblems, Entered;
    var s' := if Ignored(o, e) then s.(ignored := s.ignored + 1) else s.(view := Handle(Entered(s.view, e), e));
    ReportCounts(Noted(s', e), o.maxFindings, AllProblems(s, o, e), e.workflowId, e.taskId);
  }

  // Errors

  lemma {:induction false} SequencesSeen(o: Options, trace: seq<Event>, n: int)
    ensures n in Replayed(o, trace).observed <==> exists i :: 0 <= i < |trace| && trace[i].sequence == n
    ensures Replayed(o, trace).previousSequence == if trace == [] then 0 else trace[|trace| - 1].sequence
  {
    hide Accept;
    if trace != [] {
      var init, e := trace[..|trace| - 1], trace[|trace| - 1];
      SequencesSeen(o, init, n);
      AcceptView(Replayed(o, init), o, e);
      assert trace == init + [e];
    }
  }

  lemma StreamErrors(s: State, o: Options, e: Event)
    ensures Clean(StreamProblems(s, o, e))
        <==> e.sequence !in s.observed && (s.previousSequence == 0 || e.sequence > s.previousSequence)
  {
    hide Clean, When;
    var p1 := When(e.sequence in s.observed, Error, DuplicateSequence);
    var backwards := s.previousSequence != 0 && e.sequence <= s.previousSequence;
    var p2 := p1 + When(backwards, Error, NonMonotonicSequence);
    var gap := !o.allowGaps && s.previousSequence != 0 && e.sequence != s.previousSequence + 1;
    CleanWhen(e.sequence in s.observed, Error, DuplicateSequence);
    CleanLast(p1, backwards, Error, NonMonotonicSequence);
    CleanLast(p2, gap, Warning, SequenceGap);
    CleanLast(p2 + When(gap, Warning, SequenceGap), s.previousAt.Some? && e.at < s.previousAt.value - 5000, Warning,
      ClockMovedBackwards);
  }

  /** The next event draws no error exactly when its sequence number is new and above the last one, and, unless it
      is filtered out, the rule book allows it. */
  lemma NextAccepted(o: Options, trace: seq<Event>, e: Event)
    ensures Replayed(o, trace + [e]).errors == Replayed(o, trace).errors
        <==> && (forall i :: 0 <= i < |trace| ==> trace[i].sequence != e.sequence)
             && (trace == [] || trace[|trace| - 1].sequence == 0 || e.sequence > trace[|trace| - 1].sequence)
             && (Ignored(o, e) || Legal(Entered(Replayed(o, trace).view, e), e))
  {
    hide Accept, Legal, Problems, StreamProblems, Entered, Clean;
    assert (trace + [e])[..|trace|] == trace;
    var s := Replayed(o, trace);
    SequencesSeen(o, trace, e.sequence);
    StreamErrors(s, o, e);
    AcceptClean(s, o, e);
    CleanIffLegal(Entered(s.view, e), e);
  }
}
