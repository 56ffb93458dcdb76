/** What the chaos `Model` keeps besides its leases: the checks of `check_invariants`, and an account of attempts. */
module ChaosSound {
  import opened Runtime
  import opened ChaosModel
  import opened ChaosReplay
  import Graph
  import R = Replay

  // The account of attempts

  /** How often an event was emitted for a task. */
  function Tally(events: seq<R.Event>, kind: R.Kind, w: string, t: string): nat {
    if events == [] then 0
    else
      var e := events[|events| - 1];
      Tally(events[..|events| - 1], kind, w, t) + if e.kind == kind && e.workflowId == w && e.taskId == t then 1 else 0
  }

  datatype Counts = Counts(leased: nat, succeeded: nat, failed: nat, retried: nat, expired: nat)

  function CountsOf(events: seq<R.Event>, w: string, t: string): Counts {
    Counts(Tally(events, R.TaskLeased, w, t), Tally(events, R.TaskSuccess, w, t), Tally(events, R.TaskFailure, w, t),
           Tally(events, R.TaskRetry, w, t), Tally(events, R.LeaseExpired, w, t))
  }

  /** Counts after one more event. */
  function Bump(c: Counts, kind: R.Kind): Counts {
    match kind
    case TaskLeased => c.(leased := c.leased + 1)
    case TaskSuccess => c.(succeeded := c.succeeded + 1)
    case TaskFailure => c.(failed := c.failed + 1)
    case TaskRetry => c.(retried := c.retried + 1)
    case LeaseExpired => c.(expired := c.expired + 1)
    case _ => c
  }

  lemma CountsEvent(events: seq<R.Event>, e: R.Event, w: string, t: string)
    ensures CountsOf(events + [e], w, t) ==
      if e.workflowId == w && e.taskId == t then Bump(CountsOf(events, w, t), e.kind) else CountsOf(events, w, t)
  {
    assert (events + [e])[..|events + [e]| - 1] == events;
  }

  lemma {:induction false} CountsUnknown(events: seq<R.Event>, w: string, t: string)
    requires forall k :: 0 <= k < |events| ==> events[k].workflowId != w
    ensures CountsOf(events, w, t) == Counts(0, 0, 0, 0, 0)
  {
    if events != [] { CountsUnknown(events[..|events| - 1], w, t); }
  }

  /** How many attempts have ended. A cancelled attempt ends without an event of its own. */
  function EndedAttempts(c: Counts): nat {
    c.succeeded + c.failed + c.retried + c.expired
  }

  function Holding(state: TaskState): nat {
    if HoldsLease(state) then 1 else 0
  }

  /** Every grant is accounted for. */
  ghost predicate BalanceOk(task: Task, c: Counts) {
    && task.attempt == c.leased
    && EndedAttempts(c) + Holding(task.state) <= c.leased <= EndedAttempts(c) + 1
    && (task.state != Cancelled ==> c.leased == EndedAttempts(c) + Holding(task.state))
    && c.succeeded == (if task.state == Succeeded then 1 else 0)
    && c.failed == (if task.state == Failed then 1 else 0)
    && (task.state == Pending ==> task.attempt == 0)
  }

  /** What the retry policy says about the attempts made. */
  ghost predicate PolicyOk(task: Task, c: Counts) {
    && (task.state == RetryWait ==> task.attempt < task.maxAttempts)
    && (task.state == Failed ==> task.attempt >= task.maxAttempts)
    && (task.maxAttempts >= 1 ==>
          && c.retried < task.maxAttempts && task.attempt <= task.maxAttempts + c.expired
          && (task.state in {Pending, Ready, RetryWait} ==> task.attempt < task.maxAttempts + c.expired))
  }

  ghost predicate AttemptsOk(task: Task, c: Counts) {
    BalanceOk(task, c) && PolicyOk(task, c)
  }

  // Records

  /** The states in which an attempt, or the task itself, has an end. */
  predicate Rested(state: TaskState) {
    TerminalTask(state) || state == RetryWait
  }

  ghost predicate StampsOk(task: Task, now: Time) {
    && (task.nextRetry.Some? <==> task.state == RetryWait)
    && (task.finished.Some? <==> Rested(task.state))
    && (task.started.Some? ==> task.started.value <= now)
    && (task.finished.Some? ==> task.finished.value <= now)
    && (task.started.Some? && task.finished.Some? ==> task.started.value <= task.finished.value)
  }

  ghost predicate FieldsOk(task: Task, limit: int) {
    && (!HoldsLease(task.state) ==> task.leaseOwner == "" && task.leaseUntil == None)
    && 0 <= task.outputBytes && (task.outputBytes == 0 || task.outputBytes <= limit)
  }

  /** The policy is normalized and the budget is kept. */
  predicate WithinBudget(task: Task) {
    task.maxAttempts >= 1 && task.attempt <= task.maxAttempts
  }

  /** What may be asked of a run besides well-formedness. */
  datatype Flags = Flags(indexed: bool, budgeted: bool)

  ghost predicate RecordOk(task: Task, now: Time, limit: int, c: Counts, f: Flags) {
    AttemptsOk(task, c) && StampsOk(task, now) && FieldsOk(task, limit) && (f.budgeted ==> WithinBudget(task))
  }

  ghost predicate RecordsOk(m: Model, f: Flags) {
    forall w, t :: Has(m, w, t) ==> RecordOk(m.workflows[w].tasks[t], m.now, m.outputLimit, CountsOf(m.events, w, t), f)
  }

  // Workflows, leases, workers and events

  /** A task that needs its dependencies done. */
  predicate Advanced(state: TaskState) {
    state in {Ready, Leased, Running, Succeeded, RetryWait}
  }

  ghost predicate DependenciesSafe(wf: ChaosModel.Workflow) {
    forall t :: t in wf.tasks && Advanced(wf.tasks[t].state) ==> Satisfied(wf.tasks, wf.tasks[t].dependsOn)
  }

  ghost predicate FlowOk(wf: ChaosModel.Workflow, now: Time) {
    && DependenciesSafe(wf)
    && (wf.finished.Some? <==> TerminalWorkflow(wf.state))
    && wf.created <= now && (wf.finished.Some? ==> wf.created <= wf.finished.value)
    && (wf.state == WorkflowCancelled ==> forall t :: t in wf.tasks ==> TerminalTask(wf.tasks[t].state))
  }

  ghost predicate FlowsOk(m: Model) {
    forall w :: w in m.workflows ==> FlowOk(m.workflows[w], m.now)
  }

  ghost predicate LeaseSound(m: Model, k: string, f: Flags)
    requires k in m.leases
  {
    var l := m.leases[k];
    && k !in m.closed && l.acquired <= m.now && (m.leaseDuration > 0 ==> l.acquired < l.expires)
    && l.workerId in m.workers && (f.indexed ==> k in m.workers[l.workerId].activeTokens)
    && Has(m, l.workflowId, l.taskId)
    && m.workflows[l.workflowId].tasks[l.taskId].leaseOwner == l.workerId
    && m.workflows[l.workflowId].tasks[l.taskId].leaseUntil == Some(l.expires)
  }

  ghost predicate LeasesSound(m: Model, f: Flags) {
    forall k :: k in m.leases ==> LeaseSound(m, k, f)
  }

  ghost predicate WorkerOk(worker: ChaosModel.Worker, x: string, leases: map<string, Lease>) {
    && |worker.activeTokens| <= worker.capacity
    && forall k :: k in worker.activeTokens ==> k in leases && leases[k].workerId == x
  }

  ghost predicate WorkersOk(m: Model) {
    forall x :: x in m.workers ==> WorkerOk(m.workers[x], x, m.leases)
  }

  ghost predicate Ordered(events: seq<R.Event>, now: Time) {
    && (forall k :: 0 <= k < |events| ==> events[k].sequence == k + 1 && events[k].at <= now)
    && (forall j, k :: 0 <= j <= k < |events| ==> events[j].at <= events[k].at)
  }

  ghost predicate EventsOk(m: Model) {
    && Ordered(m.events, m.now)
    && forall k :: 0 <= k < |m.events| ==> m.events[k].workflowId == "" || m.events[k].workflowId in m.workflows
  }

  ghost predicate Sound(m: Model, f: Flags) {
    EventsOk(m) && RecordsOk(m, f) && FlowsOk(m) && LeasesSound(m, f) && WorkersOk(m)
  }

  ghost predicate Kept(m: Model, f: Flags) {
    Inv(m) && Sound(m, f)
  }

  // Steps

  ghost predicate SameConfig(m: Model, m': Model) {
    m'.outputLimit == m.outputLimit && m'.leaseDuration == m.leaseDuration
  }

  /** One task of one workflow is rewritten. */
  ghost predicate TaskStep(m: Model, m': Model, w: string, t: string, task: Task) {
    && Has(m, w, t) && m'.now == m.now && SameConfig(m, m')
    && m'.workflows == PutTask(m, w, t, task).workflows
  }

  /** At most one event, about that task. */
  ghost predicate Told(m: Model, m': Model, w: string, t: string) {
    || m'.events == m.events
    || (exists kind, x, attempt :: m'.events == Emit(m, kind, w, t, x, attempt).events)
  }

  lemma EmitEvents(m: Model, m': Model, e: R.Event)
    requires EventsOk(m) && m'.events == m.events + [e] && e.sequence == |m.events| + 1 && e.at == m.now
        && m'.now == m.now
    requires e.workflowId == "" || e.workflowId in m'.workflows
    requires m.workflows.Keys <= m'.workflows.Keys
    ensures EventsOk(m')
  {
  }

  lemma QuietEvents(m: Model, m': Model)
    requires EventsOk(m) && m'.events == m.events && m'.now >= m.now && m.workflows.Keys <= m'.workflows.Keys
    ensures EventsOk(m')
  {
  }

  lemma TaskStepHas(m: Model, m': Model, w: string, t: string, task: Task)
    requires TaskStep(m, m', w, t, task)
    ensures m'.workflows.Keys == m.workflows.Keys && Has(m', w, t) && m'.workflows[w].tasks[t] == task
    ensures forall w', t' :: Has(m', w', t') <==> Has(m, w', t')
    ensures forall w', t' :: Has(m, w', t') && (w' != w || t' != t) ==>
      Has(m', w', t') && m'.workflows[w'].tasks[t'] == m.workflows[w'].tasks[t']
  {
  }

  lemma ToldEvents(m: Model, m': Model, w: string, t: string, task: Task)
    requires EventsOk(m) && TaskStep(m, m', w, t, task) && Told(m, m', w, t)
    ensures EventsOk(m')
  {
    hide EventsOk, Has;
    TaskStepHas(m, m', w, t, task);
    if m'.events == m.events {
      QuietEvents(m, m');
    } else {
      var kind, x, attempt :| m'.events == Emit(m, kind, w, t, x, attempt).events;
      EmitEvents(m, m', LastEvent(m, kind, w, t, x, attempt));
    }
  }

  lemma ToldCounts(m: Model, m': Model, w: string, t: string, w': string, t': string)
    requires Told(m, m', w, t) && (w' != w || t' != t)
    ensures CountsOf(m'.events, w', t') == CountsOf(m.events, w', t')
  {
    hide CountsOf;
    if m'.events != m.events {
      var kind, x, attempt :| m'.events == Emit(m, kind, w, t, x, attempt).events;
      CountsEvent(m.events, LastEvent(m, kind, w, t, x, attempt), w', t');
    }
  }

  lemma StepRecords(m: Model, m': Model, f: Flags, w: string, t: string, task: Task)
    requires RecordsOk(m, f) && TaskStep(m, m', w, t, task) && Told(m, m', w, t)
    requires RecordOk(task, m.now, m.outputLimit, CountsOf(m'.events, w, t), f)
    ensures RecordsOk(m', f)
  {
    hide RecordOk, CountsOf, Told;
    TaskStepHas(m, m', w, t, task);
    forall w', t' | Has(m', w', t')
      ensures RecordOk(m'.workflows[w'].tasks[t'], m'.now, m'.outputLimit, CountsOf(m'.events, w', t'), f)
    {
      if w' != w || t' != t {
        assert Has(m, w', t');
        ToldCounts(m, m', w, t, w', t');
      }
    }
  }

  /** A task moves on without disturbing the tasks that build on it. */
  ghost predicate SafeMove(wf: ChaosModel.Workflow, t: string, task: Task)
    requires t in wf.tasks
  {
    && !TerminalWorkflow(wf.state) && wf.tasks[t].state != Succeeded && task.dependsOn == wf.tasks[t].dependsOn
    && (Advanced(task.state) ==> Advanced(wf.tasks[t].state) || Satisfied(wf.tasks, task.dependsOn))
  }

  lemma MoveFlow(wf: ChaosModel.Workflow, t: string, task: Task, now: Time)
    requires t in wf.tasks && FlowOk(wf, now) && SafeMove(wf, t, task)
    ensures FlowOk(wf.(tasks := wf.tasks[t := task]), now)
  {
    var tasks := wf.tasks[t := task];
    forall u | u in tasks && Advanced(tasks[u].state) ensures Satisfied(tasks, tasks[u].dependsOn) {
      assert Satisfied(wf.tasks, tasks[u].dependsOn);
    }
  }

  lemma StepFlows(m: Model, m': Model, w: string, t: string, task: Task)
    requires FlowsOk(m) && TaskStep(m, m', w, t, task) && SafeMove(m.workflows[w], t, task)
    ensures FlowsOk(m')
  {
    hide FlowOk, SafeMove;
    MoveFlow(m.workflows[w], t, task, m.now);
  }

  /** The lease, its task and its worker are as before. */
  ghost predicate LeaseUndisturbed(m: Model, m': Model, k: string) {
    && k in m.leases && k in m'.leases && m'.leases[k] == m.leases[k] && k !in m'.closed
    && m'.now >= m.now && SameConfig(m, m')
    && var l := m.leases[k];
       && Has(m, l.workflowId, l.taskId) && Has(m', l.workflowId, l.taskId)
       && m'.workflows[l.workflowId].tasks[l.taskId] == m.workflows[l.workflowId].tasks[l.taskId]
       && l.workerId in m'.workers
       && (l.workerId in m.workers && k in m.workers[l.workerId].activeTokens
           ==> k in m'.workers[l.workerId].activeTokens)
  }

  lemma UndisturbedSound(m: Model, m': Model, k: string, f: Flags)
    requires LeaseUndisturbed(m, m', k) && LeaseSound(m, k, f)
    ensures LeaseSound(m', k, f)
  {
  }

  /** A task without a lease is rewritten; leases and workers stay. */
  lemma FreeStep(m: Model, m': Model, f: Flags, w: string, t: string, task: Task)
    requires Kept(m, f) && TaskStep(m, m', w, t, task) && Told(m, m', w, t) && SafeMove(m.workflows[w], t, task)
    requires RecordOk(task, m.now, m.outputLimit, CountsOf(m'.events, w, t), f)
    requires m'.leases == m.leases && m'.closed == m.closed && m'.workers == m.workers
        && !HoldsLease(m.workflows[w].tasks[t].state)
    ensures Sound(m', f)
  {
    hide *;
    SoundParts(m, f);
    ToldEvents(m, m', w, t, task);
    StepRecords(m, m', f, w, t, task);
    StepFlows(m, m', w, t, task);
    FreeLeases(m, m', f, w, t, task);
    SameWorkers(m, m');
    GatherSound(m', f);
  }

  lemma SoundParts(m: Model, f: Flags)
    requires Kept(m, f)
    ensures Inv(m) && EventsOk(m) && RecordsOk(m, f) && FlowsOk(m) && LeasesSound(m, f) && WorkersOk(m)
  {
  }

  lemma GatherSound(m: Model, f: Flags)
    requires EventsOk(m) && RecordsOk(m, f) && FlowsOk(m) && LeasesSound(m, f) && WorkersOk(m)
    ensures Sound(m, f)
  {
  }

  lemma SameWorkers(m: Model, m': Model)
    requires WorkersOk(m) && m'.workers == m.workers && m'.leases == m.leases
    ensures WorkersOk(m')
  {
  }

  lemma FreeLeases(m: Model, m': Model, f: Flags, w: string, t: string, task: Task)
    requires Inv(m) && LeasesSound(m, f) && TaskStep(m, m', w, t, task) && !HoldsLease(m.workflows[w].tasks[t].state)
    requires m'.leases == m.leases && m'.closed == m.closed && m'.workers == m.workers
    ensures LeasesSound(m', f)
  {
    hide Inv, LeaseSound, TaskStep;
    TaskStepNow(m, m', w, t, task);
    TaskStepHas(m, m', w, t, task);
    forall k | k in m'.leases ensures LeaseSound(m', k, f) {
      LeasedElsewhere(m, w, t, k);
      SoundWorker(m, k, f);
      UndisturbedSound(m, m', k, f);
    }
  }

  lemma TaskStepNow(m: Model, m': Model, w: string, t: string, task: Task)
    requires TaskStep(m, m', w, t, task)
    ensures m'.now == m.now && SameConfig(m, m') && Has(m, w, t)
  {
  }

  /** A lease names a task that holds it. */
  lemma LeasedElsewhere(m: Model, w: string, t: string, k: string)
    requires Inv(m) && Has(m, w, t) && k in m.leases && !HoldsLease(m.workflows[w].tasks[t].state)
    ensures var l := m.leases[k]; Has(m, l.workflowId, l.taskId) && (l.workflowId != w || l.taskId != t)
  {
    LeaseNames(m, k);
  }

  lemma SoundWorker(m: Model, k: string, f: Flags)
    requires LeasesSound(m, f) && k in m.leases
    ensures LeaseSound(m, k, f) && m.leases[k].workerId in m.workers && k !in m.closed
  {
  }

  // Ending a lease

  lemma DropWorkers(m: Model, k: string)
    requires k in m.leases && WorkersOk(m)
    ensures WorkersOk(DropLease(m, k))
  {
    var m' := DropLease(m, k);
    forall x | x in m'.workers ensures WorkerOk(m'.workers[x], x, m'.leases) {
      assert WorkerOk(m.workers[x], x, m.leases);
      if x == m.leases[k].workerId { FewerTokens(m.workers[x].activeTokens, k); }
    }
  }

  lemma FewerTokens(tokens: set<string>, k: string)
    ensures |tokens - {k}| <= |tokens|
  {
    assert tokens - {k} <= tokens;
    Graph.SubsetCardinality(tokens - {k}, tokens);
  }

  /** The other leases and workers do not notice that one lease ends. */
  lemma EndLeases(m: Model, m': Model, f: Flags, k: string, task: Task)
    requires Inv(m) && LeasesSound(m, f) && k in m.leases
    requires TaskStep(m, m', m.leases[k].workflowId, m.leases[k].taskId, task)
    requires m'.leases == m.leases - {k} && m'.closed == m.closed[k := m.leases[k]]
    requires m'.workers == Discard(m.workers, m.leases[k].workerId, k)
    ensures LeasesSound(m', f)
  {
    hide Inv, LeaseSound, TaskStep, Discard;
    var w, t := m.leases[k].workflowId, m.leases[k].taskId;
    TaskStepNow(m, m', w, t, task);
    TaskStepHas(m, m', w, t, task);
    forall j | j in m'.leases ensures LeaseSound(m', j, f) {
      OtherLease(m, k, j);
      LeaseNames(m, j);
      SoundWorker(m, j, f);
      DiscardOther(m.workers, m.leases[k].workerId, k, m.leases[j].workerId, j);
      UndisturbedSound(m, m', j, f);
    }
  }

  lemma DiscardOther(workers: map<string, ChaosModel.Worker>, x: string, k: string, y: string, j: string)
    requires j != k && y in workers
    ensures var workers' := Discard(workers, x, k);
      y in workers' && (j in workers[y].activeTokens ==> j in workers'[y].activeTokens)
  {
  }

  /** A lease ends and its task moves on. */
  lemma EndStep(m: Model, m': Model, f: Flags, k: string, task: Task)
    requires Kept(m, f) && k in m.leases
    requires var w, t := m.leases[k].workflowId, m.leases[k].taskId;
      && TaskStep(m, m', w, t, task) && Told(m, m', w, t) && SafeMove(m.workflows[w], t, task)
      && RecordOk(task, m.now, m.outputLimit, CountsOf(m'.events, w, t), f)
    requires m'.leases == m.leases - {k} && m'.closed == m.closed[k := m.leases[k]]
    requires m'.workers == Discard(m.workers, m.leases[k].workerId, k)
    ensures Sound(m', f)
  {
    hide *;
    var w, t := m.leases[k].workflowId, m.leases[k].taskId;
    SoundParts(m, f);
    ToldEvents(m, m', w, t, task);
    StepRecords(m, m', f, w, t, task);
    StepFlows(m, m', w, t, task);
    EndLeases(m, m', f, k, task);
    DropWorkers(m, k);
    DropShape(m, k);
    SameWorkers(DropLease(m, k), m');
    GatherSound(m', f);
  }

  lemma DropShape(m: Model, k: string)
    requires k in m.leases
    ensures var m' := DropLease(m, k);
      m'.leases == m.leases - {k} && m'.workers == Discard(m.workers, m.leases[k].workerId, k)
          && m'.closed == m.closed[k := m.leases[k]]
  {
  }

  // Keeping a lease

  /** A new record for a lease: same task and owner, and an expiry that the task knows. */
  ghost predicate LeaseUpdate(m: Model, k: string, lease: Lease, task: Task)
    requires k in m.leases
  {
    var l := m.leases[k];
    && lease.workflowId == l.workflowId && lease.taskId == l.taskId && lease.workerId == l.workerId
    && lease.acquired == l.acquired
    && (lease.expires == l.expires || lease.expires == m.now + m.leaseDuration)
    && task.leaseOwner == l.workerId && task.leaseUntil == Some(lease.expires)
  }

  lemma HeldLease(m: Model, m': Model, f: Flags, k: string, task: Task)
    requires k in m.leases && LeaseSound(m, k, f) && k in m'.leases && LeaseUpdate(m, k, m'.leases[k], task)
    requires TaskStep(m, m', m.leases[k].workflowId, m.leases[k].taskId, task)
    requires m'.closed == m.closed && m'.workers == m.workers
    ensures LeaseSound(m', k, f)
  {
  }

  lemma HoldLeases(m: Model, m': Model, f: Flags, k: string, task: Task)
    requires Inv(m) && LeasesSound(m, f) && k in m.leases && k in m'.leases && LeaseUpdate(m, k, m'.leases[k], task)
    requires TaskStep(m, m', m.leases[k].workflowId, m.leases[k].taskId, task)
    requires m'.leases == m.leases[k := m'.leases[k]] && m'.closed == m.closed && m'.workers == m.workers
    ensures LeasesSound(m', f)
  {
    hide Inv, LeaseSound, TaskStep, LeaseUpdate;
    var w, t := m.leases[k].workflowId, m.leases[k].taskId;
    TaskStepNow(m, m', w, t, task);
    TaskStepHas(m, m', w, t, task);
    SoundWorker(m, k, f);
    HeldLease(m, m', f, k, task);
    forall j | j in m'.leases && j != k ensures LeaseSound(m', j, f) {
      OtherLease(m, k, j);
      LeaseNames(m, j);
      SoundWorker(m, j, f);
      UndisturbedSound(m, m', j, f);
    }
  }

  lemma SameOwners(m: Model, m': Model)
    requires WorkersOk(m) && m'.workers == m.workers && m'.leases.Keys == m.leases.Keys
    requires forall k :: k in m.leases ==> m'.leases[k].workerId == m.leases[k].workerId
    ensures WorkersOk(m')
  {
  }

  lemma UpdateOwner(m: Model, k: string, lease: Lease, task: Task)
    requires k in m.leases && LeaseUpdate(m, k, lease, task)
    ensures lease.workerId == m.leases[k].workerId
  {
  }

  lemma HoldStep(m: Model, m': Model, f: Flags, k: string, task: Task)
    requires Kept(m, f) && k in m.leases && k in m'.leases && LeaseUpdate(m, k, m'.leases[k], task)
    requires var w, t := m.leases[k].workflowId, m.leases[k].taskId;
      && TaskStep(m, m', w, t, task) && Told(m, m', w, t) && SafeMove(m.workflows[w], t, task)
      && RecordOk(task, m.now, m.outputLimit, CountsOf(m'.events, w, t), f)
    requires m'.leases == m.leases[k := m'.leases[k]] && m'.closed == m.closed && m'.workers == m.workers
    ensures Sound(m', f)
  {
    hide *;
    var w, t := m.leases[k].workflowId, m.leases[k].taskId;
    SoundParts(m, f);
    ToldEvents(m, m', w, t, task);
    StepRecords(m, m', f, w, t, task);
    StepFlows(m, m', w, t, task);
    HoldLeases(m, m', f, k, task);
    UpdateOwner(m, k, m'.leases[k], task);
    SameOwners(m, m');
    GatherSound(m', f);
  }

  // Granting a lease

  lemma GrantLeases(m: Model, f: Flags, x: string, w: string, t: string, token: string)
    requires Inv(m) && LeasesSound(m, f) && Candidate(m, x, w, t) && token !in m.leases && token !in m.closed
    ensures LeasesSound(Grant(m, x, w, t, token), f)
  {
    hide Inv, LeaseSound, LabelsMatch;
    var m' := Grant(m, x, w, t, token);
    GrantedLease(m, f, x, w, t, token);
    forall k | k in m.leases ensures LeaseSound(m', k, f) {
      LeasedElsewhere(m, w, t, k);
      SoundWorker(m, k, f);
      GrantUndisturbed(m, x, w, t, token, k);
      UndisturbedSound(m, m', k, f);
    }
  }

  lemma GrantedLease(m: Model, f: Flags, x: string, w: string, t: string, token: string)
    requires Has(m, w, t) && x in m.workers && token !in m.closed
    ensures var m' := Grant(m, x, w, t, token); token in m'.leases && LeaseSound(m', token, f)
  {
  }

  lemma GrantUndisturbed(m: Model, x: string, w: string, t: string, token: string, k: string)
    requires Has(m, w, t) && x in m.workers && token !in m.leases && k in m.leases && k !in m.closed
    requires
      var l := m.leases[k];
      Has(m, l.workflowId, l.taskId) && (l.workflowId != w || l.taskId != t) && l.workerId in m.workers
    ensures LeaseUndisturbed(m, Grant(m, x, w, t, token), k)
  {
  }

  lemma GrantWorkers(m: Model, x: string, w: string, t: string, token: string)
    requires WorkersOk(m) && Has(m, w, t) && x in m.workers && token !in m.leases
    requires |m.workers[x].activeTokens| < m.workers[x].capacity
    ensures WorkersOk(Grant(m, x, w, t, token))
  {
    var m' := Grant(m, x, w, t, token);
    forall y | y in m'.workers ensures WorkerOk(m'.workers[y], y, m'.leases) {
      assert WorkerOk(m.workers[y], y, m.leases);
    }
  }

  function GrantedTask(m: Model, task: Task, x: string, token: string): Task {
    task.(attempt := task.attempt + 1, state := Leased, leaseToken := token, leaseOwner := x,
          leaseUntil := Some(m.now + m.leaseDuration), nextRetry := None)
  }

  lemma GrantTaskStep(m: Model, x: string, w: string, t: string, token: string)
    requires Has(m, w, t) && x in m.workers
    ensures var m', task := Grant(m, x, w, t, token), m.workflows[w].tasks[t];
      && TaskStep(m, m', w, t, GrantedTask(m, task, x, token))
      && m'.events == Emit(m, R.TaskLeased, w, t, x, R.Number(task.attempt + 1)).events
  {
  }

  lemma GrantRecord(m: Model, task: Task, x: string, token: string, c: Counts, f: Flags)
    requires RecordOk(task, m.now, m.outputLimit, c, f) && task.state == Ready
    requires f.budgeted ==> task.attempt < task.maxAttempts
    ensures RecordOk(GrantedTask(m, task, x, token), m.now, m.outputLimit, Bump(c, R.TaskLeased), f)
  {
  }

  lemma LastCounts(m: Model, m': Model, kind: R.Kind, w: string, t: string, x: string, attempt: R.Number)
    requires m'.events == Emit(m, kind, w, t, x, attempt).events
    ensures CountsOf(m'.events, w, t) == Bump(CountsOf(m.events, w, t), kind)
    ensures Told(m, m', w, t)
  {
    CountsEvent(m.events, LastEvent(m, kind, w, t, x, attempt), w, t);
  }

  lemma GrantSafe(m: Model, x: string, w: string, t: string, token: string)
    requires Candidate(m, x, w, t)
    ensures SafeMove(m.workflows[w], t, GrantedTask(m, m.workflows[w].tasks[t], x, token))
  {
  }

  lemma TheRecord(m: Model, f: Flags, w: string, t: string)
    requires RecordsOk(m, f) && Has(m, w, t)
    ensures RecordOk(m.workflows[w].tasks[t], m.now, m.outputLimit, CountsOf(m.events, w, t), f)
  {
  }

  lemma GrantSound(m: Model, f: Flags, x: string, w: string, t: string, token: string)
    requires Kept(m, f) && Candidate(m, x, w, t) && token !in m.leases && token !in m.closed
    requires |m.workers[x].activeTokens| < m.workers[x].capacity
    requires f.budgeted ==> m.workflows[w].tasks[t].attempt < m.workflows[w].tasks[t].maxAttempts
    ensures Sound(Grant(m, x, w, t, token), f)
  {
    hide *;
    SoundParts(m, f);
    CandidateFacts(m, x, w, t);
    var m', task := Grant(m, x, w, t, token), m.workflows[w].tasks[t];
    var task' := GrantedTask(m, task, x, token);
    GrantTaskStep(m, x, w, t, token);
    LastCounts(m, m', R.TaskLeased, w, t, x, R.Number(task.attempt + 1));
    TheRecord(m, f, w, t);
    GrantRecord(m, task, x, token, CountsOf(m.events, w, t), f);
    GrantSafe(m, x, w, t, token);
    ToldEvents(m, m', w, t, task');
    StepRecords(m, m', f, w, t, task');
    StepFlows(m, m', w, t, task');
    GrantLeases(m, f, x, w, t, token);
    GrantWorkers(m, x, w, t, token);
    GatherSound(m', f);
  }

  // Steps without a task

  lemma {:induction false} LaterRecord(task: Task, now: Time, now': Time, limit: int, c: Counts, f: Flags)
    requires RecordOk(task, now, limit, c, f) && now <= now'
    ensures RecordOk(task, now', limit, c, f)
  {
  }

  /** An event about no task. */
  lemma OtherEvent(m: Model, m': Model, e: R.Event, w: string, t: string)
    requires m'.events == m.events + [e] && Bump(CountsOf(m.events, w, t), e.kind) == CountsOf(m.events, w, t)
    ensures CountsOf(m'.events, w, t) == CountsOf(m.events, w, t)
  {
    CountsEvent(m.events, e, w, t);
  }

  lemma EmitLast(m: Model, kind: R.Kind, w: string, x: string)
    ensures Emit(m, kind, w, "", x, R.Absent).events == m.events + [LastEvent(m, kind, w, "", x, R.Absent)]
    ensures LastEvent(m, kind, w, "", x, R.Absent).kind == kind
  {
  }

  /** The kinds of event that count no attempt. */
  predicate Neutral(kind: R.Kind) {
    kind !in {R.TaskLeased, R.TaskSuccess, R.TaskFailure, R.TaskRetry, R.LeaseExpired}
  }

  lemma NeutralBump(c: Counts, kind: R.Kind)
    requires Neutral(kind)
    ensures Bump(c, kind) == c
  {
  }

  /** At most one event that counts no attempt. */
  ghost predicate Aside(m: Model, m': Model) {
    || m'.events == m.events
    || exists kind, w, x :: Neutral(kind) && (w == "" || w in m'.workflows)
        && m'.events == Emit(m, kind, w, "", x, R.Absent).events
  }

  lemma AsideCounts(m: Model, m': Model, w: string, t: string)
    requires Aside(m, m')
    ensures CountsOf(m'.events, w, t) == CountsOf(m.events, w, t)
  {
    hide CountsOf, Neutral, Bump;
    if m'.events != m.events {
      var kind, v, x :| Neutral(kind) && m'.events == Emit(m, kind, v, "", x, R.Absent).events;
      NeutralBump(CountsOf(m.events, w, t), kind);
      EmitLast(m, kind, v, x);
      OtherEvent(m, m', LastEvent(m, kind, v, "", x, R.Absent), w, t);
    }
  }

  lemma AsideEvents(m: Model, m': Model)
    requires EventsOk(m) && Aside(m, m') && m'.now == m.now && m.workflows.Keys <= m'.workflows.Keys
    ensures EventsOk(m')
  {
    hide EventsOk, Neutral;
    if m'.events == m.events {
      QuietEvents(m, m');
    } else {
      var kind, w, x :| Neutral(kind) && (w == "" || w in m'.workflows)
          && m'.events == Emit(m, kind, w, "", x, R.Absent).events;
      EmitEvents(m, m', LastEvent(m, kind, w, "", x, R.Absent));
    }
  }

  lemma AsideRecords(m: Model, m': Model, f: Flags)
    requires RecordsOk(m, f) && Aside(m, m') && m'.now >= m.now && m'.outputLimit == m.outputLimit
    requires forall w, t :: Has(m', w, t) ==> Has(m, w, t) && m'.workflows[w].tasks[t] == m.workflows[w].tasks[t]
    ensures RecordsOk(m', f)
  {
    hide RecordOk, CountsOf, Aside;
    forall w, t | Has(m', w, t)
      ensures RecordOk(m'.workflows[w].tasks[t], m'.now, m'.outputLimit, CountsOf(m'.events, w, t), f)
    {
      AsideCounts(m, m', w, t);
      LaterRecord(m.workflows[w].tasks[t], m.now, m'.now, m.outputLimit, CountsOf(m.events, w, t), f);
    }
  }

  lemma LaterFlow(wf: ChaosModel.Workflow, now: Time, now': Time)
    requires FlowOk(wf, now) && now <= now'
    ensures FlowOk(wf, now')
  {
  }

  /** A workflow changes its state; tasks, leases and workers stay. */
  lemma NextStateSound(m: Model, m': Model, f: Flags, w: string)
    requires Kept(m, f) && w in m.workflows && !TerminalWorkflow(m.workflows[w].state) && Aside(m, m')
    requires m' == m.(events := m'.events, workflows := m.workflows[w := NextFlow(m.workflows[w], m.now)])
    ensures Sound(m', f)
  {
    hide *;
    SoundParts(m, f);
    FlowTasks(m, m', w);
    AsideEvents(m, m');
    AsideRecords(m, m', f);
    NextFlows(m, m', w);
    LeasesStay(m, m', f);
    SameWorkers(m, m');
    GatherSound(m', f);
  }

  function NextFlow(wf: ChaosModel.Workflow, now: Time): ChaosModel.Workflow {
    wf.(state := NextState(wf), finished := if NextState(wf) == WorkflowRunning then wf.finished else Some(now))
  }

  lemma FlowTasks(m: Model, m': Model, w: string)
    requires w in m.workflows && m'.workflows == m.workflows[w := NextFlow(m.workflows[w], m.now)]
    requires m' == m.(events := m'.events, workflows := m'.workflows)
    ensures SameConfig(m, m')
    ensures m'.workflows.Keys == m.workflows.Keys
    ensures forall v, t :: Has(m', v, t) <==> Has(m, v, t)
    ensures forall v, t :: Has(m, v, t) ==> Has(m', v, t) && m'.workflows[v].tasks[t] == m.workflows[v].tasks[t]
  {
    hide NextState;
  }

  lemma NextFlows(m: Model, m': Model, w: string)
    requires FlowsOk(m) && w in m.workflows && !TerminalWorkflow(m.workflows[w].state) && m'.now == m.now
    requires m'.workflows == m.workflows[w := NextFlow(m.workflows[w], m.now)]
    ensures FlowsOk(m')
  {
    hide FlowOk, NextState;
    NextFlowOk(m.workflows[w], m.now);
  }

  lemma NextFlowOk(wf: ChaosModel.Workflow, now: Time)
    requires FlowOk(wf, now) && !TerminalWorkflow(wf.state)
    ensures FlowOk(NextFlow(wf, now), now)
  {
    hide DependenciesSafe;
    NextTerminal(wf);
    SameDependencies(wf, NextFlow(wf, now));
  }

  lemma NextTerminal(wf: ChaosModel.Workflow)
    requires !TerminalWorkflow(wf.state)
    ensures NextState(wf) in {WorkflowRunning, WorkflowSucceeded, WorkflowFailed}
  {
  }

  lemma SameDependencies(wf: ChaosModel.Workflow, wf': ChaosModel.Workflow)
    requires DependenciesSafe(wf) && wf'.tasks == wf.tasks
    ensures DependenciesSafe(wf')
  {
  }

  /** Leases stay sound while their tasks and workers stay. */
  lemma LeasesStay(m: Model, m': Model, f: Flags)
    requires Inv(m) && LeasesSound(m, f) && m'.leases == m.leases && m'.closed == m.closed && m'.now >= m.now
        && SameConfig(m, m')
    requires m.workers.Keys <= m'.workers.Keys
    requires forall x :: x in m.workers ==> m.workers[x].activeTokens <= m'.workers[x].activeTokens
    requires forall w, t :: Has(m, w, t) ==> Has(m', w, t) && m'.workflows[w].tasks[t] == m.workflows[w].tasks[t]
    ensures LeasesSound(m', f)
  {
    hide Inv, LeaseSound, Has;
    forall k | k in m'.leases ensures LeaseSound(m', k, f) {
      LeaseNames(m, k);
      SoundWorker(m, k, f);
      UndisturbedSound(m, m', k, f);
    }
  }
}
