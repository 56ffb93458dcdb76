/** The chaos laboratory's reference `Model`: each operation as a function on the whole model.
    Fresh ids, the order in which expired leases are taken and the order in which workflows are
    recomputed are parameters, so results hold for every choice. */
module ChaosModel {
  import opened Runtime
  import Replay

  datatype Task = Task(
    dependsOn: seq<string>, labels: map<string, string>, maxAttempts: int, baseDelayMs: int, maxDelayMs: int,
    state: TaskState, attempt: int, leaseToken: string, leaseOwner: string, leaseUntil: Option<Time>,
    nextRetry: Option<Time>, started: Option<Time>, finished: Option<Time>, exitCode: Option<int>, error: string,
    outputBytes: int)

  datatype Workflow = Workflow(
    tasks: map<string, Task>, order: seq<string>, created: Time, state: WorkflowState, finished: Option<Time>)

  datatype Worker = Worker(
    capacity: int, labels: map<string, string>, heartbeat: Time, activeTokens: set<string>, dropped: bool)

  datatype Lease = Lease(
    workflowId: string, taskId: string, workerId: string, attempt: int, acquired: Time, expires: Time, started: bool)

  datatype Model = Model(
    now: Time, leaseDuration: Time, workerTtl: Time, outputLimit: int, chunkLimit: int,
    workflows: map<string, Workflow>, workers: map<string, Worker>,
    leases: map<string, Lease>, closed: map<string, Lease>, events: seq<Replay.Event>)

  datatype Refusal =
    | UnknownWorkflow | WorkflowExists | InvalidGraph | BadCapacity | WorkerExists | UnknownWorker | WorkerDropped
    | WorkerExpired | UnknownLease | StaleLease | LeaseHasExpired | InvalidStartState | InvalidCompleteState
    | InvalidStream | LogChunkTooLarge | TaskOutputLimit | TimeBackwards

  datatype Answer = Done | NoLease | Refused(reason: Refusal)

  datatype Outcome = Outcome(model: Model, answer: Answer)

  function Emit(m: Model, kind: Replay.Kind, w: string, t: string, x: string, attempt: Replay.Number): Model {
    m.(events := m.events + [Replay.Event(|m.events| + 1, kind, w, t, x, m.now, attempt, true)])
  }

  function PutTask(m: Model, w: string, t: string, task: Task): Model
    requires w in m.workflows
  {
    m.(workflows := m.workflows[w := m.workflows[w].(tasks := m.workflows[w].tasks[t := task])])
  }

  predicate Has(m: Model, w: string, t: string) {
    w in m.workflows && t in m.workflows[w].tasks
  }

  function Unleased(task: Task): Task {
    task.(leaseToken := "", leaseOwner := "", leaseUntil := None)
  }

  function Discard(workers: map<string, Worker>, x: string, token: string): map<string, Worker> {
    if x in workers then workers[x := workers[x].(activeTokens := workers[x].activeTokens - {token})] else workers
  }

  /** A lease leaves the books. */
  function DropLease(m: Model, token: string): Model
    requires token in m.leases
  {
    m.(leases := m.leases - {token}, closed := m.closed[token := m.leases[token]],
       workers := Discard(m.workers, m.leases[token].workerId, token))
  }

  // recompute

  predicate Impossible(tasks: map<string, Task>, deps: seq<string>) {
    exists i :: 0 <= i < |deps| && deps[i] in tasks && tasks[deps[i]].state in {Failed, Cancelled}
  }

  predicate Satisfied(tasks: map<string, Task>, deps: seq<string>) {
    forall i :: 0 <= i < |deps| ==> deps[i] in tasks && tasks[deps[i]].state == Succeeded
  }

  function RecomputeTask(m: Model, w: string, t: string): Model
    requires w in m.workflows
  {
    if t !in m.workflows[w].tasks then m
    else
      var tasks, task := m.workflows[w].tasks, m.workflows[w].tasks[t];
      if task.state == Pending && Impossible(tasks, task.dependsOn) then
        PutTask(m, w, t, task.(state := Cancelled, finished := Some(m.now)))
      else if task.state == Pending && Satisfied(tasks, task.dependsOn) then
        Emit(PutTask(m, w, t, task.(state := Ready)), Replay.TaskReady, w, t, "", Replay.Absent)
      else if task.state == RetryWait && (task.nextRetry == None || task.nextRetry.value <= m.now) then
        Emit(PutTask(m, w, t, task.(state := Ready, nextRetry := None, finished := None)), Replay.TaskReady, w, t, "",
            Replay.Absent)
      else m
  }

  /** The first `n` tasks of the order have been looked at. */
  function RecomputeTasks(m: Model, w: string, order: seq<string>, n: nat): (r: Model)
    requires w in m.workflows && n <= |order|
    ensures w in r.workflows
  {
    if n == 0 then m else RecomputeTask(RecomputeTasks(m, w, order, n - 1), w, order[n - 1])
  }

  function NextState(wf: Workflow): WorkflowState {
    if forall t :: t in wf.tasks ==> wf.tasks[t].state == Succeeded then WorkflowSucceeded
    else if (exists t :: t in wf.tasks && wf.tasks[t].state == Failed)
        && !(exists t :: t in wf.tasks && ActiveTask(wf.tasks[t].state))
    then WorkflowFailed
    else if wf.state == WorkflowPending then WorkflowRunning
    else wf.state
  }

  function StateEvent(state: WorkflowState): Replay.Kind {
    match state
    case WorkflowRunning => Replay.WorkflowStarted
    case WorkflowSucceeded => Replay.WorkflowSuccess
    case _ => Replay.WorkflowFailure
  }

  function RecomputeState(m: Model, w: string): Model
    requires w in m.workflows
  {
    var wf := m.workflows[w];
    var next := NextState(wf);
    if next == wf.state then m
    else
      var finished := if next == WorkflowRunning then wf.finished else Some(m.now);
      Emit(m.(workflows := m.workflows[w := wf.(state := next, finished := finished)]), StateEvent(next), w, "", "",
          Replay.Absent)
  }

  function Recompute(m: Model, w: string): Model {
    if w !in m.workflows || TerminalWorkflow(m.workflows[w].state) then m
    else RecomputeState(RecomputeTasks(m, w, m.workflows[w].order, |m.workflows[w].order|), w)
  }

  // Leases

  /** The lease fields are cleared only by the lease that set them. */
  function Released(task: Task, token: string): Task {
    if task.leaseToken == token then Unleased(task) else task
  }

  function Reset(task: Task): Task {
    task.(state := Ready, started := None, finished := None, exitCode := None, error := "")
  }

  function ExpireLease(m: Model, token: string): Model {
    if token !in m.leases || m.leases[token].expires > m.now then m
    else
      var l := m.leases[token];
      if !Has(m, l.workflowId, l.taskId) then m
      else
        var wf, task := m.workflows[l.workflowId], m.workflows[l.workflowId].tasks[l.taskId];
        if HoldsLease(task.state) && !TerminalWorkflow(wf.state) then
          Emit(PutTask(DropLease(m, token), l.workflowId, l.taskId, Reset(Released(task, token))),
               Replay.LeaseExpired, l.workflowId, l.taskId, l.workerId, Replay.Absent)
        else PutTask(DropLease(m, token), l.workflowId, l.taskId, Released(task, token))
  }

  function ExpireAll(m: Model, tokens: seq<string>): Model {
    if tokens == [] then m else ExpireLease(ExpireAll(m, tokens[..|tokens| - 1]), tokens[|tokens| - 1])
  }

  function RecomputeAll(m: Model, ids: seq<string>): Model {
    if ids == [] then m else Recompute(RecomputeAll(m, ids[..|ids| - 1]), ids[|ids| - 1])
  }

  /** `sweep`: the expired leases in some order, then every workflow in some order. */
  function Sweep(m: Model, tokens: seq<string>, ids: seq<string>): Model {
    RecomputeAll(ExpireAll(m, tokens), ids)
  }

  predicate LabelsMatch(worker: map<string, string>, task: map<string, string>) {
    forall k :: k in task ==> k in worker && worker[k] == task[k]
  }

  predicate Candidate(m: Model, x: string, w: string, t: string) {
    && x in m.workers && Has(m, w, t) && !TerminalWorkflow(m.workflows[w].state)
    && t in m.workflows[w].order && m.workflows[w].tasks[t].state == Ready
    && LabelsMatch(m.workers[x].labels, m.workflows[w].tasks[t].labels)
  }

  function Grant(m: Model, x: string, w: string, t: string, token: string): Model
    requires Has(m, w, t) && x in m.workers
  {
    var task := m.workflows[w].tasks[t];
    var until := m.now + m.leaseDuration;
    var task' := task.(attempt := task.attempt + 1, state := Leased, leaseToken := token, leaseOwner := x,
                       leaseUntil := Some(until), nextRetry := None);
    var lease := Lease(w, t, x, task.attempt + 1, m.now, until, false);
    var m' := PutTask(m, w, t, task')
      .(leases := m.leases[token := lease],
        workers := m.workers[x := m.workers[x].(activeTokens := m.workers[x].activeTokens + {token})]);
    Emit(m', Replay.TaskLeased, w, t, x, Replay.Number(task.attempt + 1))
  }

  /** `lease_next`, after the sweep and the recomputation; `pick` is the first candidate, if there is one. */
  function LeaseNext(m: Model, x: string, pick: Option<(string, string)>, token: string): Outcome {
    if x !in m.workers then Outcome(m, Refused(UnknownWorker))
    else if m.workers[x].dropped then Outcome(m, Refused(WorkerDropped))
    else if m.now - m.workers[x].heartbeat > m.workerTtl then Outcome(m, Refused(WorkerExpired))
    else if |m.workers[x].activeTokens| >= m.workers[x].capacity then Outcome(m, NoLease)
    else if pick == None || !Candidate(m, x, pick.value.0, pick.value.1) then Outcome(m, NoLease)
    else Outcome(Grant(m, x, pick.value.0, pick.value.1, token), Done)
  }

  /** The refusal of a token that is not an active, live lease. */
  function LeaseRefusal(m: Model, token: string): Option<Refusal> {
    if token !in m.leases then Some(if token in m.closed then StaleLease else UnknownLease)
    else if m.leases[token].expires <= m.now then Some(LeaseHasExpired)
    else None
  }

  /** A refused token may still have expired on the way. */
  function RefuseLease(m: Model, token: string): Outcome
    requires LeaseRefusal(m, token).Some?
  {
    Outcome(ExpireLease(m, token), Refused(LeaseRefusal(m, token).value))
  }

  /** The task a lease names, if the task still carries the token. */
  predicate Carries(m: Model, token: string) {
    && token in m.leases && Has(m, m.leases[token].workflowId, m.leases[token].taskId)
    && m.workflows[m.leases[token].workflowId].tasks[m.leases[token].taskId].leaseToken == token
  }

  function Start(m: Model, token: string): Outcome {
    if LeaseRefusal(m, token).Some? then RefuseLease(m, token)
    else if !Carries(m, token) then Outcome(m, Refused(StaleLease))
    else
      var l := m.leases[token];
      var task := m.workflows[l.workflowId].tasks[l.taskId];
      if task.state == Leased then
        var m' := PutTask(m, l.workflowId, l.taskId, task.(state := Running, started := Some(m.now)))
          .(leases := m.leases[token := l.(started := true)]);
        Outcome(Emit(m', Replay.TaskStarted, l.workflowId, l.taskId, l.workerId, Replay.Absent), Done)
      else if task.state == Running then Outcome(m, Done)
      else Outcome(m, Refused(InvalidStartState))
  }

  function Renew(m: Model, token: string): Outcome {
    if LeaseRefusal(m, token).Some? then RefuseLease(m, token)
    else if !Carries(m, token) then Outcome(m, Refused(StaleLease))
    else
      var l := m.leases[token];
      var until := m.now + m.leaseDuration;
      var task := m.workflows[l.workflowId].tasks[l.taskId];
      Outcome(PutTask(m, l.workflowId, l.taskId, task.(leaseUntil := Some(until)))
              .(leases := m.leases[token := l.(expires := until)]), Done)
  }

  function AppendLog(m: Model, token: string, size: nat, knownStream: bool): Outcome {
    if LeaseRefusal(m, token).Some? then RefuseLease(m, token)
    else
      var l := m.leases[token];
      if !Has(m, l.workflowId, l.taskId) then Outcome(m, Refused(UnknownWorkflow))
      else if !knownStream then Outcome(m, Refused(InvalidStream))
      else if size > m.chunkLimit then Outcome(m, Refused(LogChunkTooLarge))
      else
        var task := m.workflows[l.workflowId].tasks[l.taskId];
        if task.outputBytes + size > m.outputLimit then Outcome(m, Refused(TaskOutputLimit))
        else
          Outcome(Emit(PutTask(m, l.workflowId, l.taskId, task.(outputBytes := task.outputBytes + size)),
                       Replay.TaskLog, l.workflowId, l.taskId, l.workerId, Replay.Absent), Done)
  }

  /** Doubling from the base delay, capped. */
  function Delay(base: int, maximum: int, attempt: int): int
    decreases attempt
  {
    if attempt <= 1 then base
    else
      var d := Delay(base, maximum, attempt - 1);
      if d * 2 < maximum then d * 2 else maximum
  }

  predicate SuccessReport(exitCode: int, error: string) {
    exitCode == 0 && error == ""
  }

  /** Where a completion leads, with the event that reports it. */
  function CompletionState(task: Task, exitCode: int, error: string): (TaskState, Replay.Kind) {
    if SuccessReport(exitCode, error) then (Succeeded, Replay.TaskSuccess)
    else if task.attempt < task.maxAttempts then (RetryWait, Replay.TaskRetry)
    else (Failed, Replay.TaskFailure)
  }

  function Completed(m: Model, task: Task, exitCode: int, error: string): Task {
    var next := CompletionState(task, exitCode, error).0;
    Unleased(task).(state := next, finished := Some(m.now), exitCode := Some(exitCode), error := error,
      started := if task.state == Leased then Some(m.now) else task.started,
      nextRetry := if next == RetryWait then Some(m.now + Delay(task.baseDelayMs, task.maxDelayMs, task.attempt))
          else task.nextRetry)
  }

  /** The completion itself; a task that was never reported as started is completed all the same. */
  function Settle(m: Model, token: string, exitCode: int, error: string): Model
    requires Carries(m, token)
  {
    var l := m.leases[token];
    var task := m.workflows[l.workflowId].tasks[l.taskId];
    Emit(PutTask(DropLease(m, token), l.workflowId, l.taskId, Completed(m, task, exitCode, error)),
         CompletionState(task, exitCode, error).1, l.workflowId, l.taskId, l.workerId, Replay.Absent)
  }

  function Complete(m: Model, token: string, exitCode: int, error: string): Outcome {
    if LeaseRefusal(m, token).Some? then RefuseLease(m, token)
    else if !Carries(m, token) then Outcome(m, Refused(StaleLease))
    else
      var l := m.leases[token];
      var task := m.workflows[l.workflowId].tasks[l.taskId];
      if !HoldsLease(task.state) then Outcome(m, Refused(InvalidCompleteState))
      else Outcome(Recompute(Settle(m, token, exitCode, error), l.workflowId), Done)
  }

  // cancel_workflow

  function CancelledRecord(task: Task, now: Time): Task {
    if TerminalTask(task.state) then task
    else Unleased(task).(state := Cancelled, nextRetry := None, finished := Some(now))
  }

  /** The tokens held by the unfinished tasks of a workflow. */
  function HeldTokens(m: Model, w: string): set<string>
    requires w in m.workflows
  {
    set t | t in m.workflows[w].tasks && !TerminalTask(m.workflows[w].tasks[t].state)
        && m.workflows[w].tasks[t].leaseToken in m.leases
      :: m.workflows[w].tasks[t].leaseToken
  }

  function CancelledModel(m: Model, w: string): Model
    requires w in m.workflows
  {
    var wf, tokens := m.workflows[w], HeldTokens(m, w);
    var tasks := map t | t in wf.tasks :: CancelledRecord(wf.tasks[t], m.now);
    m.(workflows := m.workflows[w := wf.(tasks := tasks, state := WorkflowCancelled, finished := Some(m.now))],
       leases := m.leases - tokens,
       closed := m.closed + map k | k in tokens && k in m.leases :: m.leases[k],
       workers := map x | x in m.workers :: m.workers[x].(activeTokens :=
         m.workers[x].activeTokens - set k | k in tokens && k in m.leases && m.leases[k].workerId == x))
  }

  function CancelWorkflow(m: Model, w: string): Outcome {
    if w !in m.workflows then Outcome(m, Refused(UnknownWorkflow))
    else if TerminalWorkflow(m.workflows[w].state) then Outcome(m, Done)
    else Outcome(Emit(CancelledModel(m, w), Replay.WorkflowCancel, w, "", "", Replay.Absent), Done)
  }

  // The other operations

  predicate FreshTask(task: Task) {
    && task.state == Pending && task.attempt == 0 && task.leaseToken == "" && task.leaseOwner == ""
    && task.leaseUntil == None
    && task.nextRetry == None && task.started == None && task.finished == None && task.exitCode == None
    && task.error == ""
    && task.outputBytes == 0
  }

  /** `order` is what `validate_dag` answers, if it accepts. */
  function AddWorkflow(m: Model, w: string, tasks: map<string, Task>, order: Option<seq<string>>): Outcome {
    if w in m.workflows then Outcome(m, Refused(WorkflowExists))
    else if order == None then Outcome(m, Refused(InvalidGraph))
    else
      var m' := m.(workflows := m.workflows[w := Workflow(tasks, order.value, m.now, WorkflowPending, None)]);
      Outcome(Recompute(Emit(m', Replay.WorkflowCreated, w, "", "", Replay.Absent), w), Done)
  }

  function RegisterWorker(m: Model, x: string, capacity: int, labels: map<string, string>): Outcome {
    if capacity < 1 || capacity > 256 then Outcome(m, Refused(BadCapacity))
    else if x in m.workers && !m.workers[x].dropped then Outcome(m, Refused(WorkerExists))
    else
      Outcome(Emit(m.(workers := m.workers[x := Worker(capacity, labels, m.now, {}, false)]),
                   Replay.WorkerRegistered, "", "", x, Replay.Absent), Done)
  }

  function Heartbeat(m: Model, x: string): Outcome {
    if x !in m.workers then Outcome(m, Refused(UnknownWorker))
    else if m.workers[x].dropped then Outcome(m, Refused(WorkerDropped))
    else
      Outcome(Emit(m.(workers := m.workers[x := m.workers[x].(heartbeat := m.now)]),
                   Replay.WorkerHeartbeat, "", "", x, Replay.Absent), Done)
  }

  function DropWorker(m: Model, x: string): Outcome {
    if x !in m.workers then Outcome(m, Refused(UnknownWorker))
    else Outcome(m.(workers := m.workers[x := m.workers[x].(dropped := true)]), Done)
  }

  function Advance(m: Model, milliseconds: int): Outcome {
    if milliseconds < 0 then Outcome(m, Refused(TimeBackwards)) else Outcome(m.(now := m.now + milliseconds), Done)
  }

  // Runs

  datatype Op =
    | OpAddWorkflow(w: string, tasks: map<string, Task>, order: Option<seq<string>>)
    | OpRegister(x: string, capacity: int, labels: map<string, string>)
    | OpHeartbeat(x: string)
    | OpDrop(x: string)
    | OpAdvance(milliseconds: int)
    | OpSweep(tokens: seq<string>, ids: seq<string>)
    | OpLease(x: string, pick: Option<(string, string)>, token: string, tokens: seq<string>, ids: seq<string>)
    | OpStart(token: string)
    | OpRenew(token: string)
    | OpLog(token: string, size: nat, knownStream: bool)
    | OpComplete(token: string, exitCode: int, error: string)
    | OpCancel(w: string)

  function Apply(m: Model, op: Op): Outcome {
    match op
    case OpAddWorkflow(w, tasks, order) => AddWorkflow(m, w, tasks, order)
    case OpRegister(x, capacity, labels) => RegisterWorker(m, x, capacity, labels)
    case OpHeartbeat(x) => Heartbeat(m, x)
    case OpDrop(x) => DropWorker(m, x)
    case OpAdvance(milliseconds) => Advance(m, milliseconds)
    case OpSweep(tokens, ids) => Outcome(Sweep(m, tokens, ids), Done)
    case OpLease(x, pick, token, tokens, ids) => LeaseNext(Sweep(m, tokens, ids), x, pick, token)
    case OpStart(token) => Start(m, token)
    case OpRenew(token) => Renew(m, token)
    case OpLog(token, size, knownStream) => AppendLog(m, token, size, knownStream)
    case OpComplete(token, exitCode, error) => Complete(m, token, exitCode, error)
    case OpCancel(w) => CancelWorkflow(m, w)
  }

  function After(m: Model, ops: seq<Op>): Model {
    if ops == [] then m else Apply(After(m, ops[..|ops| - 1]), ops[|ops| - 1]).model
  }

  predicate Empty(m: Model) {
    m.workflows == map[] && m.workers == map[] && m.leases == map[] && m.closed == map[] && m.events == []
  }
}
