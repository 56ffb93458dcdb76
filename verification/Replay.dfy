/** Event replay: what the Java `Verifier` reconstructs from a trace and what it objects to. */
module Replay {
  import opened Runtime

  // Events and the replayed state

  datatype Kind =
    | WorkflowCreated | WorkflowStarted | WorkflowSuccess | WorkflowFailure | WorkflowCancel
    | TaskReady | TaskLeased | TaskStarted | TaskLog | TaskSuccess | TaskFailure | TaskRetry | TaskCancel
    | LeaseExpired | WorkerRegistered | WorkerHeartbeat | Other(name: string)

  /** The `attempt` entry of an event's data, as `parseInt` reads it. */
  datatype Number = Absent | Malformed | Number(value: int)

  datatype Event = Event(
    sequence: int, kind: Kind, workflowId: string, taskId: string, workerId: string, at: Time,
    attempt: Number, knownStream: bool)

  datatype Seen = Unknown | Known(state: TaskState)
  datatype WorkflowSeen = WorkflowUnknown | WorkflowKnown(state: WorkflowState)

  datatype LeaseState = LeaseState(workerId: string, attempt: int, acquired: int, started: bool)

  datatype TaskReplay = TaskReplay(
    state: Seen, attempt: int, lease: Option<LeaseState>, startedAt: Option<Time>, finishedAt: Option<Time>)

  datatype WorkflowReplay = WorkflowReplay(state: WorkflowSeen, createdSequence: int, tasks: map<string, TaskReplay>)

  datatype WorkerReplay = WorkerReplay(registeredAt: Option<Time>, lastHeartbeat: Option<Time>,
      activeTasks: set<string>)

  datatype View = View(workflows: map<string, WorkflowReplay>, workers: map<string, WorkerReplay>)

  const FRESH_TASK := TaskReplay(Unknown, 0, None, None, None)
  const FRESH_WORKFLOW := WorkflowReplay(WorkflowUnknown, 0, map[])
  const FRESH_WORKER := WorkerReplay(None, None, {})

  function WorkflowOf(v: View, w: string): WorkflowReplay {
    if w in v.workflows then v.workflows[w] else FRESH_WORKFLOW
  }

  predicate HasTask(v: View, w: string, t: string) {
    w in v.workflows && t in v.workflows[w].tasks
  }

  function TaskOf(v: View, w: string, t: string): TaskReplay {
    if HasTask(v, w, t) then v.workflows[w].tasks[t] else FRESH_TASK
  }

  function WorkerOf(v: View, x: string): WorkerReplay {
    if x in v.workers then v.workers[x] else FRESH_WORKER
  }

  function PutWorkflow(v: View, w: string, replay: WorkflowReplay): View {
    v.(workflows := v.workflows[w := replay])
  }

  function PutTask(v: View, w: string, t: string, task: TaskReplay): View {
    PutWorkflow(v, w, WorkflowOf(v, w).(tasks := WorkflowOf(v, w).tasks[t := task]))
  }

  function PutWorker(v: View, x: string, worker: WorkerReplay): View {
    v.(workers := v.workers[x := worker])
  }

  /** `computeIfAbsent` on the workers, for a named worker. */
  function Touch(v: View, x: string): View {
    if x == "" then v else PutWorker(v, x, WorkerOf(v, x))
  }

  /** How an active task is listed with its worker. */
  function Key(w: string, t: string): string {
    w + "/" + t
  }

  // Findings

  datatype Severity = Info | Warning | Error

  datatype Code =
    | DuplicateSequence | NonMonotonicSequence | SequenceGap | ClockMovedBackwards
    | TaskEventWithoutWorkflow | TaskEventWithoutTask | WorkflowCreatedTwice
    | WorkflowRestartedAfterTerminal | WorkflowStartedBeforeCreated
    | WorkflowTerminalStateChanged | WorkflowTerminalDuplicate
    | TaskReadyWithActiveLease | OverlappingTaskLease | LeaseWithoutWorker | InvalidEventNumber | AttemptNotIncreasing
    | WorkerDuplicateActiveTask | TaskStartedWithoutLease | LeaseOwnerMismatch | LogOutsideActiveTask | UnknownLogStream
    | TaskCompletedWithoutLease | CompletionWorkerMismatch | CancellationWorkerMismatch | RetryWithoutActiveLease
    | ExpiredUnknownLease | ExpiredLeaseWorkerMismatch | WorkerEventWithoutId | WorkerRegisteredTwice
    | HeartbeatWithoutWorker | HeartbeatBeforeRegistration | WorkerHeartbeatBackwards | UnknownEventType
    | TaskDuplicateState | TaskInvalidTransition
    | WorkflowNeverCreated | SucceededWorkflowHasIncompleteTask | CancelledWorkflowHasActiveLease
    | TraceEndsWithActiveLease | TaskFinishedBeforeStarted | TraceEndsWithWorkerActivity

  datatype Problem = Problem(severity: Severity, code: Code)

  function When(condition: bool, severity: Severity, code: Code): seq<Problem> {
    if condition then [Problem(severity, code)] else []
  }

  /** Nothing worse than a warning. */
  predicate Clean(problems: seq<Problem>) {
    forall k :: 0 <= k < |problems| ==> problems[k].severity != Error
  }

  // State transitions

  predicate TerminalSeen(s: WorkflowSeen) {
    s.WorkflowKnown? && TerminalWorkflow(s.state)
  }

  predicate TransitionAllowed(from: Seen, to: TaskState) {
    match from
    case Unknown => to != RetryWait
    case Known(state) => Allowed(state, to)
  }

  function TransitionProblems(task: TaskReplay, next: TaskState): seq<Problem> {
    if task.state == Known(next) then [Problem(Warning, TaskDuplicateState)]
    else When(!TransitionAllowed(task.state, next), Error, TaskInvalidTransition)
  }

  /** `TaskReplay.transition`, which moves even where it objects. */
  function Moved(task: TaskReplay, next: TaskState, at: Time): TaskReplay {
    if task.state == Known(next) then task
    else
      task.(state := Known(next),
            startedAt := if next == Running && task.startedAt == None then Some(at) else task.startedAt,
            finishedAt := if TerminalTask(next) then Some(at) else task.finishedAt)
  }

  // The handlers: what each objects to, and the state it leaves

  function RequireTaskProblems(e: Event): seq<Problem> {
    When(e.workflowId == "", Error, TaskEventWithoutWorkflow) + When(e.taskId == "", Error, TaskEventWithoutTask)
  }

  function AttemptOf(task: TaskReplay, e: Event): int {
    if e.attempt.Number? then e.attempt.value else task.attempt + 1
  }

  predicate OwnerMismatch(task: TaskReplay, e: Event) {
    task.lease.Some? && e.workerId != "" && e.workerId != task.lease.value.workerId
  }

  function TaskProblems(v: View, task: TaskReplay, e: Event): seq<Problem> {
    match e.kind
    case TaskReady =>
      When(task.lease.Some?, Error, TaskReadyWithActiveLease)
      + if task.state == Known(Ready) && task.lease == None then [] else TransitionProblems(task, Ready)
    case TaskLeased =>
      When(task.lease.Some?, Error, OverlappingTaskLease)
      + When(e.workerId == "", Error, LeaseWithoutWorker)
      + When(e.attempt.Malformed?, Warning, InvalidEventNumber)
      + When(AttemptOf(task, e) <= task.attempt, Error, AttemptNotIncreasing)
      + TransitionProblems(task, Leased)
      + When(e.workerId != "" && Key(e.workflowId, e.taskId) in WorkerOf(v, e.workerId).activeTasks, Error,
          WorkerDuplicateActiveTask)
    case TaskStarted =>
      When(task.lease == None, Error, TaskStartedWithoutLease)
      + When(OwnerMismatch(task, e), Error, LeaseOwnerMismatch)
      + TransitionProblems(task, Running)
    case TaskLog =>
      When(task.state != Known(Running) && task.state != Known(Leased), Warning, LogOutsideActiveTask)
      + When(!e.knownStream, Warning, UnknownLogStream)
    case TaskSuccess =>
      When(task.lease == None, Error, TaskCompletedWithoutLease)
      + When(OwnerMismatch(task, e), Error, CompletionWorkerMismatch)
      + TransitionProblems(task, Succeeded)
    case TaskFailure =>
      When(task.lease == None, Error, TaskCompletedWithoutLease)
      + When(OwnerMismatch(task, e), Error, CompletionWorkerMismatch)
      + TransitionProblems(task, Failed)
    case TaskCancel =>
      if task.state == Known(Cancelled) then []
      else When(OwnerMismatch(task, e), Error, CancellationWorkerMismatch) + TransitionProblems(task, Cancelled)
    case TaskRetry =>
      When(task.lease == None, Error, RetryWithoutActiveLease) + TransitionProblems(task, RetryWait)
    case LeaseExpired =>
      When(task.lease == None, Warning, ExpiredUnknownLease)
      + When(OwnerMismatch(task, e), Error, ExpiredLeaseWorkerMismatch)
      + TransitionProblems(task, Ready)
    case _ => []
  }

  predicate TaskEvent(kind: Kind) {
    kind.TaskReady? || kind.TaskLeased? || kind.TaskStarted? || kind.TaskLog? || kind.TaskSuccess? || kind.TaskFailure?
    || kind.TaskCancel? || kind.TaskRetry? || kind.LeaseExpired?
  }

  function EndProblems(state: WorkflowSeen, terminal: WorkflowState): seq<Problem> {
    if TerminalSeen(state) && state != WorkflowKnown(terminal) then [Problem(Error, WorkflowTerminalStateChanged)]
    else When(state == WorkflowKnown(terminal), Warning, WorkflowTerminalDuplicate)
  }

  function Problems(v: View, e: Event): seq<Problem> {
    if TaskEvent(e.kind) then RequireTaskProblems(e) + TaskProblems(v, TaskOf(v, e.workflowId, e.taskId), e)
    else
      match e.kind
      case WorkflowCreated => When(WorkflowOf(v, e.workflowId).createdSequence != 0, Error, WorkflowCreatedTwice)
      case WorkflowStarted =>
        When(TerminalSeen(WorkflowOf(v, e.workflowId).state), Error, WorkflowRestartedAfterTerminal)
        + When(WorkflowOf(v, e.workflowId).state == WorkflowUnknown, Warning, WorkflowStartedBeforeCreated)
      case WorkflowSuccess => EndProblems(WorkflowOf(v, e.workflowId).state, WorkflowSucceeded)
      case WorkflowFailure => EndProblems(WorkflowOf(v, e.workflowId).state, WorkflowFailed)
      case WorkflowCancel => EndProblems(WorkflowOf(v, e.workflowId).state, WorkflowCancelled)
      case WorkerRegistered =>
        if e.workerId == "" then [Problem(Error, WorkerEventWithoutId)]
        else When(WorkerOf(v, e.workerId).registeredAt.Some?, Warning, WorkerRegisteredTwice)
      case WorkerHeartbeat =>
        if e.workerId == "" then [Problem(Error, HeartbeatWithoutWorker)]
        else
          When(WorkerOf(v, e.workerId).registeredAt == None, Warning, HeartbeatBeforeRegistration)
          + When(WorkerOf(v, e.workerId).lastHeartbeat.Some? && e.at < WorkerOf(v, e.workerId).lastHeartbeat.value,
                 Warning, WorkerHeartbeatBackwards)
      case _ => [Problem(Info, UnknownEventType)]
  }

  /** `releaseLease` on the side of the worker: the owner of the lease, or without one the worker of the event. */
  function Freed(v: View, task: TaskReplay, e: Event): View {
    var x := if task.lease.Some? then task.lease.value.workerId else e.workerId;
    if x == "" then v
    else PutWorker(v, x, WorkerOf(v, x).(activeTasks := WorkerOf(v, x).activeTasks - {Key(e.workflowId, e.taskId)}))
  }

  /** A task event that ends the lease. */
  function Closed(v: View, task: TaskReplay, e: Event, next: TaskState): View {
    PutTask(Freed(v, task, e), e.workflowId, e.taskId, Moved(task.(lease := None), next, e.at))
  }

  function Granted(v: View, task: TaskReplay, e: Event): View {
    var attempt := AttemptOf(task, e);
    var lease := LeaseState(e.workerId, attempt, e.sequence, false);
    var task' := task.(attempt := if attempt > task.attempt then attempt else task.attempt, lease := Some(lease));
    var v' := PutTask(v, e.workflowId, e.taskId, Moved(task', Leased, e.at));
    if e.workerId == "" then v'
    else
      PutWorker(v', e.workerId,
        WorkerOf(v', e.workerId).(activeTasks := WorkerOf(v', e.workerId).activeTasks + {Key(e.workflowId, e.taskId)}))
  }

  function HandleTask(v: View, task: TaskReplay, e: Event): View {
    var w, t := e.workflowId, e.taskId;
    match e.kind
    case TaskReady =>
      PutTask(v, w, t, if task.state == Known(Ready) && task.lease == None then task else Moved(task, Ready, e.at))
    case TaskLeased => Granted(v, task, e)
    case TaskStarted =>
      var task' := if task.lease.Some? then task.(lease := Some(task.lease.value.(started := true))) else task;
      Touch(PutTask(v, w, t, Moved(task', Running, e.at)), e.workerId)
    case TaskLog => PutTask(v, w, t, task)
    case TaskSuccess => Touch(Closed(v, task, e, Succeeded), e.workerId)
    case TaskFailure => Touch(Closed(v, task, e, Failed), e.workerId)
    case TaskCancel =>
      if task.state == Known(Cancelled) then PutTask(v, w, t, task)
      else if task.lease.Some? then Closed(v, task, e, Cancelled)
      else PutTask(v, w, t, Moved(task, Cancelled, e.at))
    case TaskRetry => Closed(v, task, e, RetryWait)
    case LeaseExpired => Closed(v, task, e, Ready)
    case _ => v
  }

  /** What cancelling a workflow does to one of its tasks. */
  function CancelledTask(task: TaskReplay, at: Time): TaskReplay {
    var task' := task.(lease := None);
    if task.state.Known? && TerminalTask(task.state.state) then task' else Moved(task', Cancelled, at)
  }

  /** The keys of those of the tasks `ids` of a workflow that a worker owns. */
  function OwnedKeys(w: string, tasks: map<string, TaskReplay>, ids: set<string>, x: string): set<string> {
    set t | t in tasks && t in ids && x != "" && tasks[t].lease.Some? && tasks[t].lease.value.workerId == x :: Key(w, t)
  }

  function Owners(tasks: map<string, TaskReplay>, ids: set<string>): set<string> {
    set t | t in tasks && t in ids && tasks[t].lease.Some? && tasks[t].lease.value.workerId != "" ::
        tasks[t].lease.value.workerId
  }

  /** The cancellation of the tasks `ids` of a workflow. */
  function CancelSome(v: View, w: string, ids: set<string>, at: Time): View {
    var tasks := WorkflowOf(v, w).tasks;
    PutWorkflow(v, w, WorkflowOf(v, w).(tasks := map t | t in tasks :: if t in ids then CancelledTask(tasks[t], at)
        else tasks[t]))
    .(workers := map x | x in v.workers.Keys + Owners(tasks, ids) ::
        WorkerOf(v, x).(activeTasks := WorkerOf(v, x).activeTasks - OwnedKeys(w, tasks, ids, x)))
  }

  function CancelAll(v: View, w: string, at: Time): View {
    CancelSome(v, w, WorkflowOf(v, w).tasks.Keys, at)
  }

  function End(v: View, w: string, terminal: WorkflowState): View {
    PutWorkflow(v, w, WorkflowOf(v, w).(state := WorkflowKnown(terminal)))
  }

  function Handle(v: View, e: Event): View {
    if TaskEvent(e.kind) then HandleTask(v, TaskOf(v, e.workflowId, e.taskId), e)
    else
      var workflow, worker := WorkflowOf(v, e.workflowId), WorkerOf(v, e.workerId);
      match e.kind
      case WorkflowCreated =>
        PutWorkflow(v, e.workflowId,
          if workflow.createdSequence != 0 then workflow
          else workflow.(createdSequence := e.sequence, state := WorkflowKnown(WorkflowPending)))
      case WorkflowStarted => PutWorkflow(v, e.workflowId, workflow.(state := WorkflowKnown(WorkflowRunning)))
      case WorkflowSuccess => End(v, e.workflowId, WorkflowSucceeded)
      case WorkflowFailure => End(v, e.workflowId, WorkflowFailed)
      case WorkflowCancel => End(CancelAll(v, e.workflowId, e.at), e.workflowId, WorkflowCancelled)
      case WorkerRegistered =>
        if e.workerId == "" then v
        else PutWorker(v, e.workerId, worker.(registeredAt := Some(e.at), lastHeartbeat := Some(e.at)))
      case WorkerHeartbeat =>
        if e.workerId == "" then v else PutWorker(v, e.workerId, worker.(lastHeartbeat := Some(e.at)))
      case _ => v
  }

  // The verifier as a whole

  datatype Options = Options(allowGaps: bool, workflowFilter: string, maxFindings: nat)

  datatype Finding = Finding(problem: Problem, workflowId: string, taskId: string)

  datatype State = State(
    view: View, observed: set<int>, previousSequence: int, previousAt: Option<Time>, ignored: nat,
    errors: nat, warnings: nat, infos: nat, findings: seq<Finding>)

  const START := State(View(map[], map[]), {}, 0, None, 0, 0, 0, 0, [])

  function Count(problems: seq<Problem>, severity: Severity): nat {
    if problems == [] then 0
    else Count(problems[..|problems| - 1], severity) + if problems[|problems| - 1].severity == severity then 1 else 0
  }

  /** One finding: always counted, kept while there is room. */
  function Report(s: State, max: nat, p: Problem, w: string, t: string): State {
    s.(errors := s.errors + (if p.severity == Error then 1 else 0),
       warnings := s.warnings + (if p.severity == Warning then 1 else 0),
       infos := s.infos + (if p.severity == Info then 1 else 0),
       findings := if |s.findings| < max then s.findings + [Finding(p, w, t)] else s.findings)
  }

  function ReportAll(s: State, max: nat, problems: seq<Problem>, w: string, t: string): State {
    if problems == [] then s
    else Report(ReportAll(s, max, problems[..|problems| - 1], w, t), max, problems[|problems| - 1], w, t)
  }

  /** The checks on sequence numbers and the clock. */
  function StreamProblems(s: State, o: Options, e: Event): seq<Problem> {
    When(e.sequence in s.observed, Error, DuplicateSequence)
    + When(s.previousSequence != 0 && e.sequence <= s.previousSequence, Error, NonMonotonicSequence)
    + When(!o.allowGaps && s.previousSequence != 0 && e.sequence != s.previousSequence + 1, Warning, SequenceGap)
    + When(s.previousAt.Some? && e.at < s.previousAt.value - 5000, Warning, ClockMovedBackwards)
  }

  predicate Ignored(o: Options, e: Event) {
    o.workflowFilter != "" && o.workflowFilter != e.workflowId && e.workflowId != ""
  }

  /** Any event of a workflow makes the workflow known. */
  function Entered(v: View, e: Event): View {
    if e.workflowId == "" then v else PutWorkflow(v, e.workflowId, WorkflowOf(v, e.workflowId))
  }

  function Noted(s: State, e: Event): State {
    s.(observed := s.observed + {e.sequence}, previousSequence := e.sequence, previousAt := Some(e.at))
  }

  /** Everything that `accept` reports about an event. */
  function AllProblems(s: State, o: Options, e: Event): seq<Problem> {
    StreamProblems(s, o, e) + if Ignored(o, e) then [] else Problems(Entered(s.view, e), e)
  }

  function Accept(s: State, o: Options, e: Event): State {
    var s' := if Ignored(o, e) then s.(ignored := s.ignored + 1) else s.(view := Handle(Entered(s.view, e), e));
    ReportAll(Noted(s', e), o.maxFindings, AllProblems(s, o, e), e.workflowId, e.taskId)
  }

  function Replayed(o: Options, trace: seq<Event>): State {
    if trace == [] then START else Accept(Replayed(o, trace[..|trace| - 1]), o, trace[|trace| - 1])
  }

  // The final checks

  ghost predicate FinishError(v: View, w: string, t: string) {
    HasTask(v, w, t) &&
    var workflow, task := v.workflows[w], v.workflows[w].tasks[t];
    || (workflow.state == WorkflowKnown(WorkflowSucceeded) && task.state != Known(Succeeded))
    || (workflow.state == WorkflowKnown(WorkflowCancelled) && task.lease.Some?)
    || (task.startedAt.Some? && task.finishedAt.Some? && task.finishedAt.value < task.startedAt.value)
  }

  // Counting

  lemma {:induction false} CleanCount(problems: seq<Problem>)
    ensures Clean(problems) <==> Count(problems, Error) == 0
  {
    if problems != [] {
      var init := problems[..|problems| - 1];
      CleanCount(init);
      assert forall k :: 0 <= k < |init| ==> init[k] == problems[k];
    }
  }

  lemma {:induction false} ReportCounts(s: State, max: nat, problems: seq<Problem>, w: string, t: string)
    ensures var s' := ReportAll(s, max, problems, w, t);
      && s'.errors == s.errors + Count(problems, Error)
      && s'.view == s.view && s'.observed == s.observed && s'.previousSequence == s.previousSequence
      && s'.previousAt == s.previousAt && s'.ignored == s.ignored
  {
    if problems != [] { ReportCounts(s, max, problems[..|problems| - 1], w, t); }
  }

  lemma CleanNothing()
    ensures Clean([])
  {
  }

  lemma CleanConcat(a: seq<Problem>, b: seq<Problem>)
    ensures Clean(a + b) <==> Clean(a) && Clean(b)
  {
    var c := a + b;
    if Clean(c) {
      forall k | 0 <= k < |a| ensures a[k].severity != Error { assert c[k] == a[k]; }
      forall k | 0 <= k < |b| ensures b[k].severity != Error { assert c[|a| + k] == b[k]; }
    }
  }

  /** An event is accepted without error exactly when nothing reported about it is one. */
  lemma AcceptClean(s: State, o: Options, e: Event)
    ensures Accept(s, o, e).errors >= s.errors
    ensures Accept(s, o, e).errors == s.errors
        <==> Clean(StreamProblems(s, o, e)) && (!Ignored(o, e) ==> Clean(Problems(Entered(s.view, e), e)))
    ensures Accept(s, o, e).observed == s.observed + {e.sequence} && Accept(s, o, e).previousSequence == e.sequence
    ensures !Ignored(o, e) ==> Accept(s, o, e).view == Handle(Entered(s.view, e), e)
  {
    hide Handle, Problems, StreamProblems, Entered, Clean;
    var s' := if Ignored(o, e) then s.(ignored := s.ignored + 1) else s.(view := Handle(Entered(s.view, e), e));
    var problems := AllProblems(s, o, e);
    ReportCounts(Noted(s', e), o.maxFindings, problems, e.workflowId, e.taskId);
    CleanCount(problems);
    CleanConcat(StreamProblems(s, o, e), if Ignored(o, e) then [] else Problems(Entered(s.view, e), e));
    CleanNothing();
  }

  lemma {:induction false} ErrorsGrow(o: Options, trace: seq<Event>, n: nat)
    requires n <= |trace|
    ensures Replayed(o, trace[..n]).errors <= Replayed(o, trace).errors
    decreases |trace|
  {
    if n < |trace| {
      var init := trace[..|trace| - 1];
      assert init[..n] == trace[..n];
      ErrorsGrow(o, init, n);
      AcceptClean(Replayed(o, init), o, trace[|trace| - 1]);
    } else {
      assert trace[..n] == trace;
    }
  }
}
