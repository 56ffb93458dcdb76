/** Runs of the coordinator: any sequence of operations, with any clock readings. */
module StoreRuns {
  import opened Graph
  import opened WorkflowSpec
  import opened Runtime
  import opened Recompute
  import opened StoreModel
  import opened StoreInvariant
  import opened StoreOperations

  datatype Op =
    | Create(spec: WorkflowSpec, valid: Result<seq<string>, SpecError>, key: string, id: string)
    | Cancel(id: string, tokens: seq<string>)
    | Register(name: string, version: string, labels: Labels, capacity: int, id: string)
    | Heartbeat(id: string)
    | Poll(workerId: string, token: string, tokens: seq<string>, sweepIds: seq<string>, scanIds: seq<string>)
    | Start(token: string)
    | Renew(token: string)
    | Log(token: string, stream: string, text: string)
    | Complete(token: string, exitCode: int, error: string)
    | Tick(tokens: seq<string>, ids: seq<string>)

  datatype Call = Call(op: Op, now: Time)

  function Step(s: StoreState, c: Call): (StoreState, Outcome) {
    match c.op
    case Create(spec, valid, key, id) => CreateWorkflow(s, spec, valid, key, id, c.now)
    case Cancel(id, tokens) => CancelWorkflow(s, id, c.now, tokens)
    case Register(name, version, labels, capacity, id) => (RegisterWorker(s, name, version, labels, capacity, id,
        c.now), Done)
    case Heartbeat(id) => HeartbeatWorker(s, id, c.now)
    case Poll(workerId, token, tokens, sweepIds, scanIds) =>
        LeaseNext(s, workerId, c.now, token, tokens, sweepIds, scanIds)
    case Start(token) => StartLease(s, token, c.now)
    case Renew(token) => RenewLease(s, token, c.now)
    case Log(token, stream, text) => AppendLog(s, token, stream, text, c.now)
    case Complete(token, exitCode, error) => CompleteLease(s, token, exitCode, error, c.now)
    case Tick(tokens, ids) => (Sweep(s, tokens, ids, c.now), Done)
  }

  /** What the environment guarantees: `newID` never repeats itself, a range over a map visits
      each key once, and a specification was validated before a workflow is built from it. */
  ghost predicate Enabled(s: StoreState, op: Op) {
    match op
    case Create(spec, valid, key, id) =>
      && id != "" && id !in s.workflows
      && (valid.Success? ==> ValidSpec(spec) && LeastTopological(GraphOf(spec.tasks), valid.value))
    case Cancel(id, tokens) => Enumerates(tokens, s.leases.Keys)
    case Register(name, version, labels, capacity, id) => id !in s.workers
    case Poll(workerId, token, tokens, sweepIds, scanIds) =>
      && token != "" && token !in s.issued
      && Enumerates(tokens, s.leases.Keys)
      && Enumerates(sweepIds, s.workflows.Keys) && Enumerates(scanIds, s.workflows.Keys)
    case Tick(tokens, ids) => Enumerates(tokens, s.leases.Keys) && Enumerates(ids, s.workflows.Keys)
    case _ => true
  }

  const EMPTY := StoreState(map[], map[], map[], map[], [], {})

  /** The store after a run. */
  function After(run: seq<Call>): StoreState {
    if run == [] then EMPTY else Step(After(run[..|run| - 1]), run[|run| - 1]).0
  }

  ghost predicate Legal(run: seq<Call>) {
    run == [] || (Legal(run[..|run| - 1]) && Enabled(After(run[..|run| - 1]), run[|run| - 1].op))
  }

  lemma AfterLast(run: seq<Call>, c: Call)
    ensures After(run + [c]) == Step(After(run), c).0
    ensures Legal(run) && Enabled(After(run), c.op) ==> Legal(run + [c])
  {
    assert (run + [c])[..|run|] == run;
  }

  lemma StepKeepsInv(s: StoreState, c: Call)
    requires Inv(s) && Enabled(s, c.op)
    ensures Inv(Step(s, c).0)
  {
    hide Inv, CreateWorkflow, CancelWorkflow, LeaseNext, StartLease, RenewLease, AppendLog, CompleteLease, Sweep;
    match c.op
    case Create(spec, valid, key, id) => CreateKeepsInv(s, spec, valid, key, id, c.now);
    case Cancel(id, tokens) => CancelKeepsInv(s, id, c.now, tokens);
    case Register(name, version, labels, capacity, id) => RegisterKeepsInv(s, name, version, labels, capacity, id,
        c.now);
    case Heartbeat(id) => HeartbeatKeepsInv(s, id, c.now);
    case Poll(workerId, token, tokens, sweepIds, scanIds) =>
        LeaseNextKeepsInv(s, workerId, c.now, token, tokens, sweepIds, scanIds);
    case Start(token) => StartKeepsInv(s, token, c.now);
    case Renew(token) => RenewKeepsInv(s, token, c.now);
    case Log(token, stream, text) => LogKeepsInv(s, token, stream, text, c.now);
    case Complete(token, exitCode, error) => CompleteKeepsInv(s, token, exitCode, error, c.now);
    case Tick(tokens, ids) => SweepKeepsInv(s, tokens, ids, c.now);
  }

  /** Every reachable store satisfies the invariant. */
  lemma {:induction false} RunInv(run: seq<Call>)
    requires Legal(run)
    ensures Inv(After(run))
  {
    if run == [] {
      assert forall t :: t !in EMPTY.leases;
    } else {
      RunInv(run[..|run| - 1]);
      StepKeepsInv(After(run[..|run| - 1]), run[|run| - 1]);
    }
  }

  // Agreement, read off the invariant

  ghost function LeasedTasks(s: StoreState): set<(string, string)> {
    set i, t | i in s.workflows && t in s.workflows[i].runtime && HoldsLease(s.workflows[i].runtime[t].state) :: (i, t)
  }

  /** There are as many leases as leased or running tasks. */
  lemma LeasesMatchTasks(s: StoreState)
    requires Inv(s)
    ensures |s.leases| == |LeasedTasks(s)|
  {
    hide WorkerCounts, Flows;
    forall t | t in s.leases ensures (s.leases[t].workflowId, s.leases[t].taskId) in LeasedTasks(s) {
      assert LeaseLinked(s, t);
    }
    forall p | p in LeasedTasks(s)
      ensures exists t :: t in s.leases && (s.leases[t].workflowId, s.leases[t].taskId) == p
    {
      assert HasTask(s, p.0, p.1) && TaskLinked(s, p.0, p.1, TaskAt(s, p.0, p.1));
    }
    forall t, t' | t in s.leases && t' in s.leases && (s.leases[t].workflowId, s.leases[t].taskId)
        == (s.leases[t'].workflowId, s.leases[t'].taskId)
      ensures t == t'
    {
      assert LeaseLinked(s, t) && LeaseLinked(s, t');
    }
    BijectionSize(s.leases, LeasedTasks(s));
  }

  lemma {:induction false} BijectionSize(leases: map<string, Lease>, tasks: set<(string, string)>)
    requires forall t :: t in leases ==> (leases[t].workflowId, leases[t].taskId) in tasks
    requires forall p :: p in tasks ==> exists t :: t in leases && (leases[t].workflowId, leases[t].taskId) == p
    requires
      forall t, t' ::
        && t in leases && t' in leases
        && (leases[t].workflowId, leases[t].taskId) == (leases[t'].workflowId, leases[t'].taskId)
        ==> t == t'
    ensures |leases| == |tasks|
    decreases |leases|
  {
    if leases == map[] {
      assert tasks == {} by { if p :| p in tasks { assert false; } }
    } else {
      var t :| t in leases;
      var p := (leases[t].workflowId, leases[t].taskId);
      var rest := leases - {t};
      assert rest.Keys == leases.Keys - {t};
      forall q | q in tasks - {p} ensures exists u :: u in rest && (rest[u].workflowId, rest[u].taskId) == q {
        var u :| u in leases && (leases[u].workflowId, leases[u].taskId) == q;
        assert u in rest;
      }
      BijectionSize(rest, tasks - {p});
    }
  }

  /** Slots in use over a set of workers. */
  ghost function SlotsUsed(workers: map<string, WorkerValue>): int
  {
    if workers == map[] then 0
    else
      var k :| k in workers;
      workers[k].activeLeases + SlotsUsed(workers - {k})
  }

  /** The worker counters add up to the number of leases. */
  lemma SlotsMatchLeases(s: StoreState)
    requires Inv(s)
    ensures SlotsUsed(s.workers) == |s.leases|
  {
    hide TasksLinked, Flows;
    forall t | t in s.leases ensures s.leases[t].workerId in s.workers { assert LeaseLinked(s, t); }
    CountBySlots(s.workers, s.leases);
  }

  lemma {:induction false} CountBySlots(workers: map<string, WorkerValue>, leases: map<string, Lease>)
    requires forall t :: t in leases ==> leases[t].workerId in workers
    requires forall k :: k in workers ==> workers[k].activeLeases == |HeldBy(leases, k)|
    ensures SlotsUsed(workers) == |leases|
    decreases |workers|
  {
    if workers == map[] {
      assert leases == map[];
    } else {
      var k := SlotsPick(workers);
      var rest := leases - HeldBy(leases, k);
      forall j | j in workers - {k} ensures (workers - {k})[j].activeLeases == |HeldBy(rest, j)| {
        assert HeldBy(rest, j) == HeldBy(leases, j);
      }
      CountBySlots(workers - {k}, rest);
      HeldSplit(leases, k);
    }
  }

  lemma SlotsPick(workers: map<string, WorkerValue>) returns (k: string)
    requires workers != map[]
    ensures k in workers && SlotsUsed(workers) == workers[k].activeLeases + SlotsUsed(workers - {k})
  {
    k :| k in workers && SlotsUsed(workers) == workers[k].activeLeases + SlotsUsed(workers - {k});
  }

  lemma HeldSplit(leases: map<string, Lease>, k: string)
    ensures |leases| == |leases - HeldBy(leases, k)| + |HeldBy(leases, k)|
  {
    var rest := leases - HeldBy(leases, k);
    assert leases.Keys == rest.Keys + HeldBy(leases, k);
    assert |leases.Keys| == |rest.Keys| + |HeldBy(leases, k)|;
  }

  /** What a live lease guarantees: the defensive checks of the operations never fire. */
  lemma LiveLease(s: StoreState, token: string)
    requires Inv(s) && token in s.leases
    ensures
      var l := s.leases[token];
      && HasTask(s, l.workflowId, l.taskId)
      && LeaseFields(TaskAt(s, l.workflowId, l.taskId), l)
      && l.workerId in s.workers && s.workers[l.workerId].activeLeases > 0
      && !TerminalWorkflow(s.workflows[l.workflowId].state)
  {
    assert LeaseLinked(s, token);
    ReleasedCounts(s, token);
    var w := s.workflows[s.leases[token].workflowId];
    assert FlowOk(w);
  }

  /** No run ever reports a stale lease or a task that is not running. */
  lemma NeverStale(run: seq<Call>, c: Call)
    requires Legal(run) && Enabled(After(run), c.op)
    ensures Step(After(run), c).1 !in {StaleLease, NotRunning}
  {
    RunInv(run);
    StepNeverStale(After(run), c);
  }

  lemma StepNeverStale(s: StoreState, c: Call)
    requires Inv(s)
    ensures Step(s, c).1 !in {StaleLease, NotRunning}
  {
    hide *;
    StepIs(s, c);
    match c.op
    case Create(spec, valid, key, id) => CreateOutcome(s, spec, valid, key, id, c.now);
    case Cancel(id, tokens) => CancelOutcome(s, id, c.now, tokens);
    case Register(name, version, labels, capacity, id) =>
    case Heartbeat(id) => HeartbeatOutcome(s, id, c.now);
    case Poll(workerId, token, tokens, sweepIds, scanIds) =>
        PollOutcome(s, workerId, c.now, token, tokens, sweepIds, scanIds);
    case Start(token) => StartOutcome(s, token, c.now);
    case Renew(token) => RenewOutcome(s, token, c.now);
    case Log(token, stream, text) => LogOutcome(s, token, stream, text, c.now);
    case Complete(token, exitCode, error) => CompleteOutcome(s, token, exitCode, error, c.now);
    case Tick(tokens, ids) =>
  }

  /** The outcome of a step, operation by operation. */
  lemma StepIs(s: StoreState, c: Call)
    ensures Step(s, c).1 ==
      match c.op
      case Create(spec, valid, key, id) => CreateWorkflow(s, spec, valid, key, id, c.now).1
      case Cancel(id, tokens) => CancelWorkflow(s, id, c.now, tokens).1
      case Register(name, version, labels, capacity, id) => Done
      case Heartbeat(id) => HeartbeatWorker(s, id, c.now).1
      case Poll(workerId, token, tokens, sweepIds, scanIds) =>
          LeaseNext(s, workerId, c.now, token, tokens, sweepIds, scanIds).1
      case Start(token) => StartLease(s, token, c.now).1
      case Renew(token) => RenewLease(s, token, c.now).1
      case Log(token, stream, text) => AppendLog(s, token, stream, text, c.now).1
      case Complete(token, exitCode, error) => CompleteLease(s, token, exitCode, error, c.now).1
      case Tick(tokens, ids) => Done
  {
  }

  lemma HeartbeatOutcome(s: StoreState, id: string, now: Time)
    ensures HeartbeatWorker(s, id, now).1 in {Done, WorkerNotFound}
  {
  }

  lemma CreateOutcome(s: StoreState, spec: WorkflowSpec, valid: Result<seq<string>, SpecError>, key: string, id: string,
      now: Time)
    ensures CreateWorkflow(s, spec, valid, key, id, now).1 !in {StaleLease, NotRunning}
  {
    hide Publish, Recomputed, NewSnapshot;
  }

  lemma CancelOutcome(s: StoreState, id: string, now: Time, tokens: seq<string>)
    ensures CancelWorkflow(s, id, now, tokens).1 !in {StaleLease, NotRunning}
  {
    hide Publish, DropLeases;
  }

  lemma PollOutcome(s: StoreState, workerId: string, now: Time, token: string, tokens: seq<string>,
      sweepIds: seq<string>, scanIds: seq<string>)
    ensures LeaseNext(s, workerId, now, token, tokens, sweepIds, scanIds).1 !in {StaleLease, NotRunning}
  {
    hide Scan, Sweep, Candidates;
    var s1 := Sweep(s, tokens, sweepIds, now);
    if workerId in s1.workers { ScanOutcome(s1, Candidates(s1, scanIds), workerId, now, token); }
  }

  lemma StartOutcome(s: StoreState, token: string, now: Time)
    requires Inv(s)
    ensures StartLease(s, token, now).1 in {Done, LeaseNotFound, LeaseExpiredError}
  {
    hide Expire, Publish, Inv;
    if token in s.leases { LinkedLease(s, token); }
  }

  /** A lease names a task that is leased or running and carries its token. */
  lemma LinkedLease(s: StoreState, token: string)
    requires Inv(s) && token in s.leases
    ensures LeaseLinked(s, token)
  {
  }

  lemma RenewOutcome(s: StoreState, token: string, now: Time)
    ensures RenewLease(s, token, now).1.Granted? || RenewLease(s, token, now).1 in {LeaseNotFound, LeaseExpiredError}
  {
    hide Expire;
  }

  lemma LogOutcome(s: StoreState, token: string, stream: string, text: string, now: Time)
    requires Inv(s)
    ensures AppendLog(s, token, stream, text, now).1
              in {Done, LeaseNotFound, LeaseExpiredError, BadStream, ChunkTooLarge, OutputLimitExceeded}
  {
    hide Inv, Expire, Publish, Utf8Length, WithTask;
    if token in s.leases { LinkedLease(s, token); }
  }

  lemma CompleteOutcome(s: StoreState, token: string, exitCode: int, error: string, now: Time)
    requires Inv(s)
    ensures CompleteLease(s, token, exitCode, error, now).1 in {Done, LeaseNotFound, LeaseExpiredError}
    ensures CompleteLease(s, token, exitCode, error, now).1 == Done <==> Guard(s, token, now).None?
  {
    hide Inv, Expire, Publish, CompleteLease;
    GuardKeepsInv(s, token, now);
    if Guard(s, token, now).None? {
      CompleteShape(s, token, exitCode, error, now);
    } else {
      CompleteGuarded(s, token, exitCode, error, now);
    }
  }

  lemma {:induction false} ScanOutcome(s: StoreState, candidates: seq<string>, workerId: string, now: Time,
      token: string)
    requires workerId in s.workers
    ensures Scan(s, candidates, workerId, now, token).1 == NothingToDo
        || Scan(s, candidates, workerId, now, token).1.Granted?
    decreases |candidates|
  {
    if candidates != [] {
      if candidates[0] !in s.workflows {
        ScanOutcome(s, candidates[1..], workerId, now, token);
      } else {
        var id := candidates[0];
        ScanOutcome(WithWorkflow(s, id, Recomputed(s.workflows[id], now)), candidates[1..], workerId, now, token);
      }
    }
  }

  /** No deadlock, in any reachable store: an unfinished workflow has a task that can make progress. */
  lemma RunsNeverStall(run: seq<Call>, i: string)
    requires Legal(run) && i in After(run).workflows && !TerminalWorkflow(After(run).workflows[i].state)
    ensures HasActive(After(run).workflows[i])
  {
    RunInv(run);
  }
}
