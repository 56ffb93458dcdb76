/** The coordinator's operations as functions on the whole store. Each operation holds one
    mutex, so each is an atomic step. The clock, fresh random ids and the iteration order of
    Go maps are parameters: `tokens` and the id lists stand for one order of a range loop. */
module StoreModel {
  import opened WorkflowSpec
  import opened Runtime

  const LEASE_DURATION: Time := 20_000_000_000
  const WORKER_TTL: Time := 45_000_000_000
  const MILLISECOND: Time := 1_000_000
  const MAX_CHUNK := 64 * 1024
  const MAX_OUTPUT := 32 * 1024 * 1024

  type Labels = map<string, string>

  datatype WorkerValue = WorkerValue(
    id: string, name: string, version: string, labels: Labels,
    capacity: int, activeLeases: int, registeredAt: Time, lastHeartbeat: Time)

  datatype Lease = Lease(
    token: string, workflowId: string, taskId: string, workerId: string,
    attempt: int, expiresAt: Time, spec: TaskSpec)

  datatype EventKind =
    | CreatedEvent | StartedEvent | SucceededEvent | FailedEvent | CancelledEvent
    | TaskReady | TaskLeased | TaskStarted | TaskLog | TaskSucceeded | TaskFailed | TaskRetry | TaskCancelled
    | LeaseExpired | WorkerRegistered | WorkerHeartbeat

  datatype Event = Event(kind: EventKind, workflowId: string, taskId: string, workerId: string, at: Time)

  datatype StoreState = StoreState(
    workflows: map<string, Snapshot>,
    workers: map<string, WorkerValue>,
    leases: map<string, Lease>,
    idempotency: map<string, string>,
    log: seq<Event>,
    issued: set<string>)

  datatype Outcome =
    | Done
    | LeaseNotFound | LeaseExpiredError | StaleLease | NotRunning
    | BadStream | ChunkTooLarge | OutputLimitExceeded
    | WorkflowNotFound | WorkerNotFound | HeartbeatExpired
    | NothingToDo
    | Granted(lease: Lease)
    | Created(id: string) | Existing(id: string) | Rejected(error: SpecError)

  function Publish(s: StoreState, events: seq<Event>): StoreState {
    s.(log := s.log + events)
  }

  function FreeSlot(workers: map<string, WorkerValue>, id: string): map<string, WorkerValue> {
    if id in workers && workers[id].activeLeases > 0 then
      workers[id := workers[id].(activeLeases := workers[id].activeLeases - 1)]
    else workers
  }

  function ClearLease(rt: TaskRuntime): TaskRuntime {
    rt.(leaseToken := "", leaseOwner := "", leaseUntil := None)
  }

  predicate HasTask(s: StoreState, workflowId: string, taskId: string) {
    workflowId in s.workflows && taskId in s.workflows[workflowId].runtime
  }

  function TaskAt(s: StoreState, workflowId: string, taskId: string): TaskRuntime
    requires HasTask(s, workflowId, taskId)
  {
    s.workflows[workflowId].runtime[taskId]
  }

  function WithTask(s: StoreState, workflowId: string, taskId: string, rt: TaskRuntime): StoreState
    requires HasTask(s, workflowId, taskId)
  {
    var w := s.workflows[workflowId];
    s.(workflows := s.workflows[workflowId := w.(runtime := w.runtime[taskId := rt])])
  }

  function WithoutLease(s: StoreState, token: string): StoreState
    requires token in s.leases
  {
    s.(leases := s.leases - {token}, workers := FreeSlot(s.workers, s.leases[token].workerId))
  }

  // expireLeaseLocked and sweepLocked

  /** Hands the task of a deleted lease back, if it still names that lease. */
  function Returned(s: StoreState, l: Lease, token: string, now: Time): StoreState {
    if !HasTask(s, l.workflowId, l.taskId) || TaskAt(s, l.workflowId, l.taskId).leaseToken != token then s
    else
      var rt := TaskAt(s, l.workflowId, l.taskId);
      if HoldsLease(rt.state) then
        Publish(WithTask(s, l.workflowId, l.taskId, ClearLease(rt).(state := Ready, startedAt := None)),
                [Event(LeaseExpired, l.workflowId, l.taskId, l.workerId, now)])
      else WithTask(s, l.workflowId, l.taskId, ClearLease(rt))
  }

  function Expire(s: StoreState, token: string, now: Time): StoreState
    requires token in s.leases
  {
    Returned(WithoutLease(s, token), s.leases[token], token, now)
  }

  function ExpireDue(s: StoreState, tokens: seq<string>, now: Time): StoreState {
    if tokens == [] then s
    else
      var s1 := ExpireDue(s, tokens[..|tokens| - 1], now);
      var t := tokens[|tokens| - 1];
      if t in s1.leases && now >= s1.leases[t].expiresAt then Expire(s1, t, now) else s1
  }

  /** `emitWorkflowTerminalLocked`. */
  function TerminalEvents(w: Snapshot, before: WorkflowState, now: Time): seq<Event> {
    if w.state == before then []
    else match w.state
      case WorkflowSucceeded => [Event(SucceededEvent, w.id, "", "", now)]
      case WorkflowFailed => [Event(FailedEvent, w.id, "", "", now)]
      case WorkflowCancelled => [Event(CancelledEvent, w.id, "", "", now)]
      case _ => []
  }

  function RecomputeOne(s: StoreState, id: string, now: Time): StoreState
    requires id in s.workflows
  {
    var w := Recomputed(s.workflows[id], now);
    Publish(s.(workflows := s.workflows[id := w]), TerminalEvents(w, s.workflows[id].state, now))
  }

  function RecomputeAll(s: StoreState, ids: seq<string>, now: Time): StoreState {
    if ids == [] then s
    else
      var s1 := RecomputeAll(s, ids[..|ids| - 1], now);
      var id := ids[|ids| - 1];
      if id in s1.workflows then RecomputeOne(s1, id, now) else s1
  }

  function Sweep(s: StoreState, tokens: seq<string>, ids: seq<string>, now: Time): StoreState {
    RecomputeAll(ExpireDue(s, tokens, now), ids, now)
  }

  // LeaseNext

  /** A label the worker lacks reads as the empty string. */
  predicate LabelsMatch(worker: Labels, task: Labels) {
    forall k :: k in task ==> (if k in worker then worker[k] else "") == task[k]
  }

  predicate Offered(w: Snapshot, labels: Labels, t: string) {
    t in w.runtime && t in w.tasks && w.runtime[t].state == Ready && LabelsMatch(labels, w.tasks[t].labels)
  }

  /** The first task of `order[i..]` that is ready and matches the labels. */
  function FirstOffered(w: Snapshot, labels: Labels, i: nat): (r: Option<string>)
    requires i <= |w.order|
    decreases |w.order| - i
  {
    if i == |w.order| then None
    else if Offered(w, labels, w.order[i]) then Some(w.order[i])
    else FirstOffered(w, labels, i + 1)
  }

  predicate Schedulable(s: StoreState, id: string) {
    id in s.workflows && s.workflows[id].state in {WorkflowPending, WorkflowRunning}
  }

  function CreatedAt(s: StoreState, id: string): Time {
    if id in s.workflows then s.workflows[id].createdAt else 0
  }

  function InsertByCreation(s: StoreState, id: string, ids: seq<string>): (r: seq<string>)
    ensures multiset(r) == multiset(ids) + multiset{id}
  {
    if ids == [] || CreatedAt(s, id) <= CreatedAt(s, ids[0]) then [id] + ids
    else
      assert ids == [ids[0]] + ids[1..];
      [ids[0]] + InsertByCreation(s, id, ids[1..])
  }

  /** The schedulable workflows among `ids`, oldest first; ties keep the order of `ids`. */
  function Candidates(s: StoreState, ids: seq<string>): seq<string> {
    if ids == [] then []
    else
      var rest := Candidates(s, ids[1..]);
      if Schedulable(s, ids[0]) then InsertByCreation(s, ids[0], rest) else rest
  }

  function NewLease(s: StoreState, workflowId: string, taskId: string, workerId: string, now: Time,
      token: string): Lease
    requires HasTask(s, workflowId, taskId) && taskId in s.workflows[workflowId].tasks
  {
    Lease(token, workflowId, taskId, workerId, TaskAt(s, workflowId, taskId).attempt + 1, now + LEASE_DURATION,
          s.workflows[workflowId].tasks[taskId])
  }

  /** The task is marked as leased and the worker's slot as taken. */
  function Occupied(s: StoreState, l: Lease): StoreState
    requires HasTask(s, l.workflowId, l.taskId) && l.workerId in s.workers
  {
    var rt := TaskAt(s, l.workflowId, l.taskId);
    var worker := s.workers[l.workerId];
    WithTask(s, l.workflowId, l.taskId,
             Transition(rt, Leased).(attempt := l.attempt, leaseToken := l.token, leaseOwner := l.workerId,
                 leaseUntil := Some(l.expiresAt)))
      .(workers := s.workers[l.workerId := worker.(activeLeases := worker.activeLeases + 1)])
  }

  function Installed(s: StoreState, l: Lease): StoreState {
    s.(leases := s.leases[l.token := l], issued := s.issued + {l.token})
  }

  function Grant(s: StoreState, workflowId: string, taskId: string, workerId: string, now: Time,
      token: string): (StoreState, Outcome)
    requires HasTask(s, workflowId, taskId) && taskId in s.workflows[workflowId].tasks && workerId in s.workers
  {
    var l := NewLease(s, workflowId, taskId, workerId, now, token);
    (Publish(Installed(Occupied(s, l), l), [Event(TaskLeased, workflowId, taskId, workerId, now)]), Granted(l))
  }

  function Scan(s: StoreState, candidates: seq<string>, workerId: string, now: Time, token: string): (StoreState,
      Outcome)
    requires workerId in s.workers
    decreases |candidates|
  {
    if candidates == [] then (s, NothingToDo)
    else if candidates[0] !in s.workflows then Scan(s, candidates[1..], workerId, now, token)
    else
      var id := candidates[0];
      var w := Recomputed(s.workflows[id], now);
      var s1 := s.(workflows := s.workflows[id := w]);
      match FirstOffered(w, s.workers[workerId].labels, 0)
      case Some(t) =>
        if t in w.runtime && t in w.tasks then Grant(s1, id, t, workerId, now, token) else (s1, NothingToDo)
      case None => Scan(s1, candidates[1..], workerId, now, token)
  }

  function LeaseNext(s: StoreState, workerId: string, now: Time, token: string,
                     tokens: seq<string>, sweepIds: seq<string>, scanIds: seq<string>): (StoreState, Outcome) {
    Serve(Sweep(s, tokens, sweepIds, now), workerId, now, token, scanIds)
  }

  /** `LeaseNext` after its sweep. */
  function Serve(s: StoreState, workerId: string, now: Time, token: string, scanIds: seq<string>): (StoreState,
      Outcome) {
    if workerId !in s.workers then (s, WorkerNotFound)
    else if now - s.workers[workerId].lastHeartbeat > WORKER_TTL then (s, HeartbeatExpired)
    else if s.workers[workerId].activeLeases >= s.workers[workerId].capacity then (s, NothingToDo)
    else Scan(s, Candidates(s, scanIds), workerId, now, token)
  }

  // Operations on one lease

  /** The checks shared by every operation on a token: `None` means the lease is live. */
  function Guard(s: StoreState, token: string, now: Time): Option<(StoreState, Outcome)> {
    if token !in s.leases then Some((s, LeaseNotFound))
    else if now >= s.leases[token].expiresAt then Some((Expire(s, token, now), LeaseExpiredError))
    else None
  }

  function StartLease(s: StoreState, token: string, now: Time): (StoreState, Outcome) {
    match Guard(s, token, now)
    case Some(r) => r
    case None =>
      var l := s.leases[token];
      if !HasTask(s, l.workflowId, l.taskId) || TaskAt(s, l.workflowId, l.taskId).leaseToken != token
          then (s, StaleLease)
      else
        var rt := TaskAt(s, l.workflowId, l.taskId);
        if rt.state == Leased then
          (Publish(WithTask(s, l.workflowId, l.taskId, Transition(rt, Running).(startedAt := Some(now))),
                   [Event(TaskStarted, l.workflowId, l.taskId, l.workerId, now)]), Done)
        else (s, Done)
  }

  /** No stale check: the store relies on every lease naming the task that names it. */
  function RenewLive(s: StoreState, token: string, now: Time): (StoreState, Outcome)
    requires token in s.leases
  {
    var l := s.leases[token].(expiresAt := now + LEASE_DURATION);
    var s1 := s.(leases := s.leases[token := l]);
    (if HasTask(s1, l.workflowId, l.taskId)
     then WithTask(s1, l.workflowId, l.taskId, TaskAt(s1, l.workflowId, l.taskId).(leaseUntil := Some(l.expiresAt)))
     else s1,
     Granted(l))
  }

  function RenewLease(s: StoreState, token: string, now: Time): (StoreState, Outcome) {
    match Guard(s, token, now)
    case Some(r) => r
    case None => RenewLive(s, token, now)
  }

  /** Length of the text in UTF-8. */
  function Utf8Length(text: string): nat {
    if text == [] then 0
    else
      var c := text[0] as int;
      (if c < 0x80 then 1 else if c < 0x800 then 2 else if c < 0x10000 then 3 else 4) + Utf8Length(text[1..])
  }

  function LogLive(s: StoreState, token: string, stream: string, text: string, now: Time): (StoreState, Outcome)
    requires token in s.leases
  {
    var l := s.leases[token];
    if !HasTask(s, l.workflowId, l.taskId) || TaskAt(s, l.workflowId, l.taskId).leaseToken != token then (s, StaleLease)
    else if stream != "stdout" && stream != "stderr" then (s, BadStream)
    else if Utf8Length(text) > MAX_CHUNK then (s, ChunkTooLarge)
    else
      var rt := TaskAt(s, l.workflowId, l.taskId);
      if rt.outputBytes > MAX_OUTPUT - Utf8Length(text) then (s, OutputLimitExceeded)
      else
        (Publish(WithTask(s, l.workflowId, l.taskId, rt.(outputBytes := rt.outputBytes + Utf8Length(text))),
                 [Event(TaskLog, l.workflowId, l.taskId, l.workerId, now)]), Done)
  }

  function AppendLog(s: StoreState, token: string, stream: string, text: string, now: Time): (StoreState, Outcome) {
    match Guard(s, token, now)
    case Some(r) => r
    case None => LogLive(s, token, stream, text, now)
  }

  /** The record of a task whose running attempt ended, and the event that reports it. */
  function Finish(spec: TaskSpec, rt: TaskRuntime, exitCode: int, error: string, now: Time): (TaskRuntime, EventKind) {
    var ended := ClearLease(rt).(exitCode := Some(exitCode), error := error, finishedAt := Some(now));
    if exitCode == 0 && error == "" then (Transition(ended, Succeeded), TaskSucceeded)
    else if rt.attempt < NormalizeRetry(spec.retry).maxAttempts then
      (Transition(ended, RetryWait).(nextRetryAt := Some(now
          + Backoff(NormalizeRetry(spec.retry), rt.attempt) * MILLISECOND)), TaskRetry)
    else (Transition(ended, Failed), TaskFailed)
  }

  function ReadyEvents(w: Snapshot, n: nat, now: Time): seq<Event>
    requires n <= |w.order|
  {
    if n == 0 then []
    else
      ReadyEvents(w, n - 1, now) +
      if w.order[n - 1] in w.runtime && w.runtime[w.order[n - 1]].state == Ready
      then [Event(TaskReady, w.id, w.order[n - 1], "", now)] else []
  }

  function CompleteLease(s: StoreState, token: string, exitCode: int, error: string, now: Time): (StoreState, Outcome) {
    match Guard(s, token, now)
    case Some(r) => r
    case None =>
      var l := s.leases[token];
      if !HasTask(s, l.workflowId, l.taskId) || l.taskId !in s.workflows[l.workflowId].tasks
         || TaskAt(s, l.workflowId, l.taskId).leaseToken != token then (s, StaleLease)
      else
        var rt0 := TaskAt(s, l.workflowId, l.taskId);
        var rt := if rt0.state == Leased then Transition(rt0, Running).(startedAt := Some(now)) else rt0;
        if rt.state != Running then (s, NotRunning)
        else
          var (rt', kind) := Finish(s.workflows[l.workflowId].tasks[l.taskId], rt, exitCode, error, now);
          var s1 := Publish(WithTask(WithoutLease(s, token), l.workflowId, l.taskId, rt'),
                            [Event(kind, l.workflowId, l.taskId, l.workerId, now)]);
          var s2 := RecomputeOne(s1, l.workflowId, now);
          var w := s2.workflows[l.workflowId];
          (Publish(s2, ReadyEvents(w, |w.order|, now)), Done)
  }

  // Workflows and workers

  function Added(s: StoreState, id: string, w: Snapshot, key: string): StoreState {
    s.(workflows := s.workflows[id := w],
       idempotency := if key != "" then s.idempotency[key := id] else s.idempotency)
  }

  function CreationEvents(id: string, w: Snapshot, now: Time): seq<Event> {
    [Event(CreatedEvent, id, "", "", now)]
    + (if w.state == WorkflowRunning then [Event(StartedEvent, id, "", "", now)] else [])
    + ReadyEvents(w, |w.order|, now)
  }

  function CreateWorkflow(s: StoreState, spec: WorkflowSpec, valid: Result<seq<string>, SpecError>, key: string,
      id: string, now: Time): (StoreState, Outcome) {
    if key != "" && key in s.idempotency then (s, Existing(s.idempotency[key]))
    else match valid
      case Failure(e) => (s, Rejected(e))
      case Success(order) =>
        var w := Recomputed(NewSnapshot(id, spec, order, now), now);
        (Publish(Added(s, id, w, key), CreationEvents(id, w, now)), Created(id))
  }

  /** Deletes the leases of one workflow, visiting the leases in the order of `tokens`. */
  function DropLeases(s: StoreState, id: string, tokens: seq<string>): StoreState {
    if tokens == [] then s
    else
      var s1 := DropLeases(s, id, tokens[..|tokens| - 1]);
      var t := tokens[|tokens| - 1];
      if t !in s1.leases || s1.leases[t].workflowId != id then s1
      else DropOne(s1, id, t)
  }

  /** One iteration of the lease loop of `CancelWorkflow`, on a lease of that workflow. */
  function DropOne(s: StoreState, id: string, token: string): StoreState
    requires token in s.leases
  {
    Detached(WithoutLease(s, token), id, s.leases[token].taskId, token)
  }

  /** Clears the lease fields of a task that still names a deleted lease. */
  function Detached(s: StoreState, id: string, taskId: string, token: string): StoreState {
    if HasTask(s, id, taskId) && TaskAt(s, id, taskId).leaseToken == token
    then WithTask(s, id, taskId, ClearLease(TaskAt(s, id, taskId)))
    else s
  }

  function CancelEvents(w: Snapshot, n: nat, now: Time): seq<Event>
    requires n <= |w.order|
  {
    if n == 0 then []
    else
      CancelEvents(w, n - 1, now) +
      if w.order[n - 1] in w.runtime && !TerminalTask(w.runtime[w.order[n - 1]].state)
      then [Event(TaskCancelled, w.id, w.order[n - 1], "", now)] else []
  }

  function CancelWorkflow(s: StoreState, id: string, now: Time, tokens: seq<string>): (StoreState, Outcome) {
    if id !in s.workflows then (s, WorkflowNotFound)
    else
      if TerminalWorkflow(s.workflows[id].state) then (s, Done) else (CancelLive(s, id, now, tokens), Done)
  }

  /** Cancels an unfinished workflow. */
  function CancelLive(s: StoreState, id: string, now: Time, tokens: seq<string>): StoreState
    requires id in s.workflows
  {
    var w := s.workflows[id];
    Publish(DropLeases(s.(workflows := s.workflows[id := CancelledAt(w, now)]), id, tokens),
            CancelEvents(w, |w.order|, now) + [Event(CancelledEvent, id, "", "", now)])
  }

  function RegisterWorker(s: StoreState, name: string, version: string, labels: Labels, capacity: int, id: string,
      now: Time): StoreState {
    var c := if capacity <= 0 then 1 else if capacity > 256 then 256 else capacity;
    Publish(s.(workers := s.workers[id := WorkerValue(id, name, version, labels, c, 0, now, now)]),
            [Event(WorkerRegistered, "", "", id, now)])
  }

  function HeartbeatWorker(s: StoreState, id: string, now: Time): (StoreState, Outcome) {
    if id !in s.workers then (s, WorkerNotFound)
    else
      (Publish(s.(workers := s.workers[id := s.workers[id].(lastHeartbeat := now)]),
               [Event(WorkerHeartbeat, "", "", id, now)]), Done)
  }
}
