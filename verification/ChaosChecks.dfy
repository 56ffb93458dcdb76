/** `check_invariants` of the chaos `Model`, check by check, over all runs: eight of the ten checks never fail, and the
    two that can fail do so exactly when a run re-registers a worker with leases or hands out a task beyond its
    budget. */
module ChaosChecks {
  import opened Runtime
  import opened ChaosModel
  import opened ChaosReplay
  import opened ChaosAcceptance
  import opened ChaosSound
  import opened ChaosInvariant

  // The checks

  ghost predicate EventSequence(m: Model) {
    && (forall k :: 0 <= k < |m.events| ==> m.events[k].sequence == k + 1)
    && (forall j, k :: 0 <= j <= k < |m.events| ==> m.events[j].at <= m.events[k].at)
  }

  ghost predicate WorkerCapacity(m: Model) {
    forall x :: x in m.workers ==>
      && |m.workers[x].activeTokens| <= m.workers[x].capacity
      && forall k :: k in m.workers[x].activeTokens ==> k in m.leases && m.leases[k].workerId == x
  }

  /** No task has two leases, and an active lease is not closed and lasts. */
  ghost predicate LeasesApart(m: Model) {
    && (forall j, k :: j in m.leases && k in m.leases && j != k ==>
          m.leases[j].workflowId != m.leases[k].workflowId || m.leases[j].taskId != m.leases[k].taskId)
    && (forall k :: k in m.leases ==> k !in m.closed && m.leases[k].acquired < m.leases[k].expires)
  }

  /** The worker of a lease lists it. */
  ghost predicate LeasesIndexed(m: Model) {
    forall k :: k in m.leases ==>
      m.leases[k].workerId in m.workers && k in m.workers[m.leases[k].workerId].activeTokens
  }

  ghost predicate LeaseBijection(m: Model) {
    LeasesApart(m) && LeasesIndexed(m)
  }

  ghost predicate LeaseFieldsOk(m: Model, w: string, t: string)
    requires Has(m, w, t)
  {
    var task := m.workflows[w].tasks[t];
    if HoldsLease(task.state) then
      && task.leaseToken != "" && task.leaseToken in m.leases
      && var l := m.leases[task.leaseToken];
         l.workflowId == w && l.taskId == t && task.leaseOwner == l.workerId && task.leaseUntil == Some(l.expires)
    else task.leaseToken == "" && task.leaseOwner == "" && task.leaseUntil == None
  }

  ghost predicate TaskLeaseFields(m: Model) {
    forall w, t :: Has(m, w, t) ==> LeaseFieldsOk(m, w, t)
  }

  ghost predicate DependencySafety(m: Model) {
    forall w :: w in m.workflows ==> DependenciesSafe(m.workflows[w])
  }

  ghost predicate TerminalOk(m: Model, w: string)
    requires w in m.workflows
  {
    var wf := m.workflows[w];
    && (wf.state == WorkflowSucceeded ==> forall t :: t in wf.tasks ==> wf.tasks[t].state == Succeeded)
    && (wf.state == WorkflowCancelled ==>
          && (forall t :: t in wf.tasks ==> TerminalTask(wf.tasks[t].state))
          && (forall k :: k in m.leases ==> m.leases[k].workflowId != w))
    && (TerminalWorkflow(wf.state) <==> wf.finished.Some?)
  }

  ghost predicate TerminalWorkflows(m: Model) {
    forall w :: w in m.workflows ==> TerminalOk(m, w)
  }

  ghost predicate AttemptBudget(m: Model) {
    forall w, t :: Has(m, w, t) ==> m.workflows[w].tasks[t].attempt <= m.workflows[w].tasks[t].maxAttempts
  }

  ghost predicate AttemptSane(task: Task) {
    && task.attempt >= 0 && (task.state == Pending ==> task.attempt == 0)
    && (HoldsLease(task.state) ==> task.attempt >= 1)
  }

  ghost predicate Attempts(m: Model) {
    AttemptBudget(m) && forall w, t :: Has(m, w, t) ==> AttemptSane(m.workflows[w].tasks[t])
  }

  ghost predicate RetryTimes(m: Model) {
    forall w, t :: Has(m, w, t) ==> (m.workflows[w].tasks[t].state == RetryWait
        <==> m.workflows[w].tasks[t].nextRetry.Some?)
  }

  ghost predicate TimestampsOk(task: Task, now: Time) {
    && (task.started.Some? ==> task.started.value <= now)
    && (task.finished.Some? ==> task.finished.value <= now)
    && (task.started.Some? && task.finished.Some? ==> task.started.value <= task.finished.value)
  }

  ghost predicate Timestamps(m: Model) {
    && (forall w :: w in m.workflows ==>
          m.workflows[w].created <= m.now && (m.workflows[w].finished.Some?
              ==> m.workflows[w].created <= m.workflows[w].finished.value))
    && (forall w, t :: Has(m, w, t) ==> TimestampsOk(m.workflows[w].tasks[t], m.now))
  }

  ghost predicate OutputLimits(m: Model) {
    forall w, t :: Has(m, w, t) ==> 0 <= m.workflows[w].tasks[t].outputBytes <= m.outputLimit
  }

  /** The checks that the code keeps without any condition. */
  ghost predicate OtherChecks(m: Model) {
    && EventSequence(m) && WorkerCapacity(m) && LeasesApart(m) && TaskLeaseFields(m) && DependencySafety(m)
    && TerminalWorkflows(m) && (forall w, t :: Has(m, w, t) ==> AttemptSane(m.workflows[w].tasks[t]))
    && RetryTimes(m) && Timestamps(m) && OutputLimits(m)
  }

  /** `check_invariants` raises nothing. */
  ghost predicate CheckInvariants(m: Model) {
    && EventSequence(m) && WorkerCapacity(m) && LeaseBijection(m) && TaskLeaseFields(m) && DependencySafety(m)
    && TerminalWorkflows(m) && Attempts(m) && RetryTimes(m) && Timestamps(m) && OutputLimits(m)
  }

  lemma SplitChecks(m: Model)
    ensures CheckInvariants(m) <==> OtherChecks(m) && LeasesIndexed(m) && AttemptBudget(m)
  {
    hide EventSequence, WorkerCapacity, LeasesApart, TaskLeaseFields, DependencySafety, TerminalWorkflows, RetryTimes,
         Timestamps, OutputLimits, LeasesIndexed, AttemptBudget, AttemptSane;
  }

  // What the invariant says about them

  lemma LeaseChecks(m: Model, f: Flags)
    requires Kept(m, f) && m.leaseDuration > 0
    ensures LeasesApart(m)
  {
    hide Inv, RecordsOk, FlowsOk, EventsOk, WorkersOk;
    forall j, k | j in m.leases && k in m.leases && j != k
      ensures m.leases[j].workflowId != m.leases[k].workflowId || m.leases[j].taskId != m.leases[k].taskId
    {
      OtherLease(m, k, j);
    }
    forall k | k in m.leases ensures k !in m.closed && m.leases[k].acquired < m.leases[k].expires {
      assert LeaseSound(m, k, f);
    }
  }

  lemma WorkerChecks(m: Model, f: Flags)
    requires Kept(m, f)
    ensures WorkerCapacity(m)
  {
    hide Inv, RecordsOk, FlowsOk, EventsOk, LeasesSound;
    forall x | x in m.workers ensures WorkerOk(m.workers[x], x, m.leases) {}
  }

  lemma FieldChecks(m: Model, f: Flags, w: string, t: string)
    requires Kept(m, f) && Has(m, w, t)
    ensures LeaseFieldsOk(m, w, t)
  {
    hide Kept, RecordOk;
    KeptRecord(m, f, w, t);
    KeptParts(m, f);
    TokenOf(m, w, t);
    var task := m.workflows[w].tasks[t];
    if HoldsLease(task.state) {
      KeptLease(m, f, task.leaseToken);
      NoEmptyToken(m);
    } else {
      FreeFields(task, m.now, m.outputLimit, CountsOf(m.events, w, t), f);
    }
  }

  lemma KeptParts(m: Model, f: Flags)
    requires Kept(m, f)
    ensures Inv(m) && Sound(m, f)
  {
  }

  lemma FreeFields(task: Task, now: Time, limit: int, c: Counts, f: Flags)
    requires RecordOk(task, now, limit, c, f) && !HoldsLease(task.state)
    ensures task.leaseOwner == "" && task.leaseUntil == None
  {
  }

  lemma FlowChecks(m: Model, f: Flags, w: string)
    requires Kept(m, f) && w in m.workflows
    ensures DependenciesSafe(m.workflows[w]) && TerminalOk(m, w)
    ensures m.workflows[w].created <= m.now
    ensures m.workflows[w].finished.Some? ==> m.workflows[w].created <= m.workflows[w].finished.value
  {
    hide DependenciesSafe, RecordsOk, LeasesSound, WorkersOk, EventsOk, LeaseOk, TokenOk, IdsOk;
    assert SuccessOk(m.workflows[w]) && FlowOk(m.workflows[w], m.now);
    forall k | k in m.leases && TerminalWorkflow(m.workflows[w].state) ensures m.leases[k].workflowId != w {
      LeasedTask(m, k);
    }
  }

  lemma RecordChecks(task: Task, now: Time, limit: int, c: Counts, f: Flags)
    requires RecordOk(task, now, limit, c, f) && limit >= 0
    ensures AttemptSane(task) && (task.state == RetryWait <==> task.nextRetry.Some?) && TimestampsOk(task, now)
    ensures 0 <= task.outputBytes <= limit
    ensures f.budgeted ==> task.attempt <= task.maxAttempts
  {
  }

  lemma KeptChecks(m: Model, f: Flags)
    requires Kept(m, f) && m.leaseDuration > 0 && m.outputLimit >= 0
    ensures OtherChecks(m) && (f.indexed ==> LeasesIndexed(m)) && (f.budgeted ==> AttemptBudget(m))
  {
    hide Kept, RecordOk, LeaseFieldsOk, TerminalOk, DependenciesSafe, TimestampsOk, AttemptSane, LeasesApart,
        WorkerCapacity,
         CountsOf, EventSequence;
    LeaseChecks(m, f);
    WorkerChecks(m, f);
    EventChecks(m, f);
    IndexCheck(m, f);
    forall w, t | Has(m, w, t)
      ensures LeaseFieldsOk(m, w, t) && AttemptSane(m.workflows[w].tasks[t])
          && TimestampsOk(m.workflows[w].tasks[t], m.now)
      ensures m.workflows[w].tasks[t].state == RetryWait <==> m.workflows[w].tasks[t].nextRetry.Some?
      ensures 0 <= m.workflows[w].tasks[t].outputBytes <= m.outputLimit
      ensures f.budgeted ==> m.workflows[w].tasks[t].attempt <= m.workflows[w].tasks[t].maxAttempts
    {
      FieldChecks(m, f, w, t);
      KeptRecord(m, f, w, t);
      RecordChecks(m.workflows[w].tasks[t], m.now, m.outputLimit, CountsOf(m.events, w, t), f);
    }
    forall w | w in m.workflows
      ensures DependenciesSafe(m.workflows[w]) && TerminalOk(m, w) && m.workflows[w].created <= m.now
      ensures m.workflows[w].finished.Some? ==> m.workflows[w].created <= m.workflows[w].finished.value
    {
      FlowChecks(m, f, w);
    }
  }

  lemma EventChecks(m: Model, f: Flags)
    requires Kept(m, f)
    ensures EventSequence(m)
  {
    hide Inv, RecordsOk, FlowsOk, LeasesSound, WorkersOk;
  }

  lemma IndexCheck(m: Model, f: Flags)
    requires Kept(m, f)
    ensures f.indexed ==> LeasesIndexed(m)
  {
    hide Inv, RecordsOk, FlowsOk, EventsOk, WorkersOk;
    forall k | k in m.leases ensures LeaseSound(m, k, f) {}
  }

  // Runs

  ghost predicate Configured(m: Model) {
    Empty(m) && m.leaseDuration > 0 && m.outputLimit >= 0
  }

  /** In every reachable model the checks hold that are not about budgets or the index of a worker. */
  lemma RunChecks(m: Model, ops: seq<Op>)
    requires Configured(m) && FormedRun(m, ops)
    ensures OtherChecks(After(m, ops))
  {
    hide Kept, After, FormedRun, Empty, OtherChecks;
    RunKept(m, Flags(false, false), ops);
    KeptChecks(After(m, ops), Flags(false, false));
  }

  /** A negative output limit, which the constructor accepts, is exceeded by every task. */
  lemma OutputExact(m: Model, ops: seq<Op>)
    requires Empty(m) && FormedRun(m, ops)
    ensures OutputLimits(After(m, ops)) <==> m.outputLimit >= 0 || forall w, t :: !Has(After(m, ops), w, t)
  {
    hide Kept, After, FormedRun, Empty, RecordOk, CountsOf;
    var f := Flags(false, false);
    RunKept(m, f, ops);
    var s := After(m, ops);
    forall w, t | Has(s, w, t)
      ensures 0 <= s.workflows[w].tasks[t].outputBytes <= s.outputLimit <==> s.outputLimit >= 0
    {
      KeptRecord(s, f, w, t);
      RecordOutput(s.workflows[w].tasks[t], s.now, s.outputLimit, CountsOf(s.events, w, t), f);
    }
  }

  lemma RecordOutput(task: Task, now: Time, limit: int, c: Counts, f: Flags)
    requires RecordOk(task, now, limit, c, f)
    ensures 0 <= task.outputBytes <= limit <==> limit >= 0
  {
  }

  lemma PrefixFormed(m: Model, ops: seq<Op>, n: nat)
    requires FormedRun(m, ops) && n <= |ops|
    ensures FormedRun(m, ops[..n])
  {
    hide FormedOp, After;
    forall k | 0 <= k < n ensures FormedOp(After(m, ops[..n][..k]), ops[..n][k]) { assert ops[..n][..k] == ops[..k]; }
  }

  lemma PrefixAsked(m: Model, ops: seq<Op>, f: Flags, n: nat)
    requires AskedRun(m, ops, f) && n <= |ops|
    ensures AskedRun(m, ops[..n], f)
  {
    hide Asked, After;
    forall k | 0 <= k < n ensures Asked(After(m, ops[..n][..k]), ops[..n][k], f) { assert ops[..n][..k] == ops[..k]; }
  }

  /** No registration of a run resets a worker that holds leases. */
  ghost predicate FreeRegistrations(m: Model, ops: seq<Op>) {
    forall n :: 0 <= n < |ops| ==> FreeRegistration(After(m, ops[..n]), ops[n])
  }

  /** No lease operation of a run hands out a task whose attempts are used up. */
  ghost predicate GrantsInBudget(m: Model, ops: seq<Op>) {
    forall n :: 0 <= n < |ops| ==> GrantInBudget(After(m, ops[..n]), ops[n])
  }

  predicate GrantInBudget(m: Model, op: Op) {
    op.OpLease? ==> AttemptLeft(Sweep(m, op.tokens, op.ids), op.x, op.pick, op.token)
  }

  /** Retry policies are normalized when a task is built. */
  ghost predicate NormalRun(ops: seq<Op>) {
    forall n :: 0 <= n < |ops| && ops[n].OpAddWorkflow? ==> NormalTasks(ops[n].tasks)
  }

  lemma FlagsAsked(m: Model, ops: seq<Op>, f: Flags)
    requires f.indexed ==> FreeRegistrations(m, ops)
    requires f.budgeted ==> GrantsInBudget(m, ops) && NormalRun(ops)
    ensures AskedRun(m, ops, f)
  {
    hide After, FreeRegistration, AttemptLeft, NormalTasks, Sweep;
    forall n | 0 <= n < |ops| ensures Asked(After(m, ops[..n]), ops[n], f) {
      assert f.indexed ==> FreeRegistration(After(m, ops[..n]), ops[n]);
      assert f.budgeted ==> GrantInBudget(After(m, ops[..n]), ops[n]);
    }
  }

  lemma ChecksAt(m: Model, ops: seq<Op>, f: Flags, n: nat)
    requires Configured(m) && FormedRun(m, ops) && AskedRun(m, ops, f) && n <= |ops|
    ensures OtherChecks(After(m, ops[..n]))
    ensures (f.indexed ==> LeasesIndexed(After(m, ops[..n]))) && (f.budgeted ==> AttemptBudget(After(m, ops[..n])))
  {
    hide Kept, After, FormedRun, AskedRun, Empty, OtherChecks, LeasesIndexed, AttemptBudget;
    PrefixFormed(m, ops, n);
    PrefixAsked(m, ops, f, n);
    RunKept(m, f, ops[..n]);
    KeptChecks(After(m, ops[..n]), f);
  }

  /** A registration that resets a worker with leases leaves a lease without its entry. */
  lemma ResetBreaksIndex(m: Model, f: Flags, op: Op)
    requires Kept(m, f) && !FreeRegistration(m, op)
    ensures !LeasesIndexed(Apply(m, op).model)
  {
    hide Inv, RecordsOk, FlowsOk, EventsOk, LeasesSound;
    var x := op.x;
    assert WorkerOk(m.workers[x], x, m.leases);
    var k :| k in m.workers[x].activeTokens;
    var m' := Apply(m, op).model;
    assert k in m'.leases && m'.leases[k].workerId == x && k !in m'.workers[x].activeTokens;
  }

  /** Handing out a task whose attempts are used up breaks its budget. */
  lemma GrantBreaksBudget(m: Model, x: string, pick: Option<(string, string)>, token: string)
    requires !AttemptLeft(m, x, pick, token)
    ensures !AttemptBudget(LeaseNext(m, x, pick, token).model)
  {
    hide LabelsMatch;
    var w, t := pick.value.0, pick.value.1;
    var m' := LeaseNext(m, x, pick, token).model;
    assert m' == Grant(m, x, w, t, token);
    assert Has(m', w, t) && m'.workflows[w].tasks[t].attempt == m.workflows[w].tasks[t].attempt + 1;
  }

  lemma LeaseIs(m: Model, op: Op)
    requires op.OpLease?
    ensures Apply(m, op).model == LeaseNext(Sweep(m, op.tokens, op.ids), op.x, op.pick, op.token).model
  {
  }

  lemma BrokenGrant(m: Model, op: Op)
    requires !GrantInBudget(m, op)
    ensures !AttemptBudget(Apply(m, op).model)
  {
    hide AttemptBudget, Sweep, LeaseNext, AttemptLeft, Apply;
    LeaseIs(m, op);
    GrantBreaksBudget(Sweep(m, op.tokens, op.ids), op.x, op.pick, op.token);
  }

  /** The checks hold at every point of a run. */
  ghost predicate AlwaysChecked(m: Model, ops: seq<Op>) {
    forall n :: 0 <= n <= |ops| ==> CheckInvariants(After(m, ops[..n]))
  }

  /** The index check fails in a run exactly if a registration resets a worker that holds leases. */
  lemma IndexExact(m: Model, ops: seq<Op>)
    requires Configured(m) && FormedRun(m, ops)
    ensures (forall n :: 0 <= n <= |ops| ==> LeasesIndexed(After(m, ops[..n]))) <==> FreeRegistrations(m, ops)
  {
    hide Kept, After, Apply, FormedRun, AskedRun, LeasesIndexed, FreeRegistration, OtherChecks, AttemptBudget;
    if FreeRegistrations(m, ops) {
      FlagsAsked(m, ops, Flags(true, false));
      forall n | 0 <= n <= |ops| ensures LeasesIndexed(After(m, ops[..n])) { ChecksAt(m, ops, Flags(true, false), n); }
    } else {
      var n :| 0 <= n < |ops| && !FreeRegistration(After(m, ops[..n]), ops[n]);
      PrefixFormed(m, ops, n);
      FlagsAsked(m, ops[..n], Flags(false, false));
      RunKept(m, Flags(false, false), ops[..n]);
      ResetBreaksIndex(After(m, ops[..n]), Flags(false, false), ops[n]);
      AfterNext(m, ops, n);
      assert !LeasesIndexed(After(m, ops[..n + 1]));
    }
  }

  /** The budget check fails in a run exactly if a lease operation hands out a task whose attempts are used up. */
  lemma BudgetExact(m: Model, ops: seq<Op>)
    requires Configured(m) && FormedRun(m, ops) && NormalRun(ops)
    ensures (forall n :: 0 <= n <= |ops| ==> AttemptBudget(After(m, ops[..n]))) <==> GrantsInBudget(m, ops)
  {
    hide Kept, After, Apply, FormedRun, AskedRun, LeasesIndexed, GrantInBudget, OtherChecks, AttemptBudget, NormalRun;
    if GrantsInBudget(m, ops) {
      FlagsAsked(m, ops, Flags(false, true));
      forall n | 0 <= n <= |ops| ensures AttemptBudget(After(m, ops[..n])) { ChecksAt(m, ops, Flags(false, true), n); }
    } else {
      var n :| 0 <= n < |ops| && !GrantInBudget(After(m, ops[..n]), ops[n]);
      BrokenGrant(After(m, ops[..n]), ops[n]);
      AfterNext(m, ops, n);
      assert !AttemptBudget(After(m, ops[..n + 1]));
    }
  }

  /** `check_invariants` never raises in a run exactly under these two conditions. */
  lemma ChecksExact(m: Model, ops: seq<Op>)
    requires Configured(m) && FormedRun(m, ops) && NormalRun(ops)
    ensures AlwaysChecked(m, ops) <==> FreeRegistrations(m, ops) && GrantsInBudget(m, ops)
  {
    hide Kept, After, FormedRun, LeasesIndexed, OtherChecks, AttemptBudget, NormalRun, CheckInvariants,
         FreeRegistrations, GrantsInBudget, Empty;
    IndexExact(m, ops);
    BudgetExact(m, ops);
    forall n | 0 <= n <= |ops|
      ensures CheckInvariants(After(m, ops[..n]))
          <==> LeasesIndexed(After(m, ops[..n])) && AttemptBudget(After(m, ops[..n]))
    {
      PrefixFormed(m, ops, n);
      RunChecks(m, ops[..n]);
      SplitChecks(After(m, ops[..n]));
    }
  }

  // Budgets

  /** Whether the current attempt of a task was not handed back: it runs, or it has ended for good. */
  function LastAttempt(state: TaskState): nat {
    if HoldsLease(state) || state in {Succeeded, Failed} then 1 else 0
  }

  lemma RecordBudget(task: Task, c: Counts)
    requires AttemptsOk(task, c)
    ensures task.attempt == c.leased
    ensures task.state != Cancelled ==> task.attempt == c.retried + c.expired + LastAttempt(task.state)
    ensures task.maxAttempts >= 1 ==> task.attempt <= task.maxAttempts + c.expired && c.retried < task.maxAttempts
    ensures task.state == RetryWait ==> task.attempt < task.maxAttempts
    ensures task.state == Failed ==> task.attempt >= task.maxAttempts
  {
  }

  lemma RecordAttempts(m: Model, f: Flags, w: string, t: string)
    requires Kept(m, f) && Has(m, w, t)
    ensures AttemptsOk(m.workflows[w].tasks[t], CountsOf(m.events, w, t))
  {
    hide Kept, AttemptsOk, StampsOk, FieldsOk, WithinBudget, CountsOf;
    KeptRecord(m, f, w, t);
  }

  /** The account of every task in every run, and exactly when its attempts exceed its budget. */
  lemma BudgetExceeded(m: Model, ops: seq<Op>, w: string, t: string)
    requires Empty(m) && FormedRun(m, ops) && Has(After(m, ops), w, t)
    ensures
      var task := After(m, ops).workflows[w].tasks[t];
      var c := CountsOf(After(m, ops).events, w, t);
      && task.attempt == c.leased
      && (task.maxAttempts >= 1 ==> task.attempt <= task.maxAttempts + c.expired && c.retried < task.maxAttempts)
      && (task.state == RetryWait ==> task.attempt < task.maxAttempts)
      && (task.state == Failed ==> task.attempt >= task.maxAttempts)
      && (task.state != Cancelled ==>
            (task.attempt > task.maxAttempts <==> c.retried + c.expired + LastAttempt(task.state) > task.maxAttempts))
  {
    hide Kept, After, FormedRun, Empty, AttemptsOk, CountsOf, LastAttempt;
    RunKept(m, Flags(false, false), ops);
    RecordAttempts(After(m, ops), Flags(false, false), w, t);
    RecordBudget(After(m, ops).workflows[w].tasks[t], CountsOf(After(m, ops).events, w, t));
  }
}
