/** Concrete runs of the chaos `Model` in which a promise fails. */
module ChaosExamples {
  import opened Runtime
  import opened ChaosModel
  import opened ChaosAcceptance
  import opened ChaosSound
  import opened ChaosInvariant
  import opened ChaosChecks
  import R = Replay

  /** A task that may be attempted once. */
  const ONCE := Task([], map[], 1, 250, 30000, Pending, 0, "", "", None, None, None, None, None, "", 0)

  const ADD := OpAddWorkflow("w", map["t" := ONCE], Some(["t"]))
  const REGISTER := OpRegister("a", 1, map[])
  const LEASE := OpLease("a", Some(("w", "t")), "k", [], [])

  /** A workflow of one task is added, a worker registered, and the task leased. */
  const SETUP: seq<Op> := [ADD] + [REGISTER] + [LEASE]

  ghost predicate Timed(m: Model) {
    Empty(m) && 0 < m.leaseDuration <= m.workerTtl && m.outputLimit >= 0
  }

  lemma AfterLast(m: Model, ops: seq<Op>, op: Op)
    ensures After(m, ops + [op]) == Apply(After(m, ops), op).model
  {
    assert (ops + [op])[..|ops|] == ops;
  }

  lemma FormedLast(m: Model, ops: seq<Op>, op: Op)
    requires FormedRun(m, ops) && FormedOp(After(m, ops), op)
    ensures FormedRun(m, ops + [op])
  {
    hide FormedOp, After;
    var longer := ops + [op];
    forall n | 0 <= n < |longer| ensures FormedOp(After(m, longer[..n]), longer[n]) {
      if n < |ops| { assert longer[..n] == ops[..n]; } else { assert longer[..n] == ops; }
    }
  }

  /** The workflow after it was added: its task is ready. */
  function Running1(now: Time): ChaosModel.Workflow {
    ChaosModel.Workflow(map["t" := ONCE.(state := Ready)], ["t"], now, WorkflowRunning, None)
  }

  lemma AddOne(m: Model)
    requires Empty(m)
    ensures var m' := Apply(m, ADD).model;
      && m'.workflows == map["w" := Running1(m.now)] && m'.workers == map[] && m'.leases == map[] && m'.closed == map[]
      && m'.now == m.now && m'.leaseDuration == m.leaseDuration && m'.workerTtl == m.workerTtl
      && m'.outputLimit == m.outputLimit
  {
    var m1 := Emit(Added(m, "w", map["t" := ONCE], ["t"]), R.WorkflowCreated, "w", "", "", R.Absent);
    RecomputeOne(m1);
  }

  lemma RecomputeOne(m: Model)
    requires m.workflows == map["w" := ChaosModel.Workflow(map["t" := ONCE], ["t"], m.now, WorkflowPending, None)]
    ensures var m' := Recompute(m, "w");
      && m'.workflows == map["w" := Running1(m.now)] && m'.workers == m.workers && m'.leases == m.leases
      && m'.closed == m.closed
      && m'.now == m.now && m'.leaseDuration == m.leaseDuration && m'.workerTtl == m.workerTtl
      && m'.outputLimit == m.outputLimit
  {
    var order := ["t"];
    var m1 := RecomputeTask(m, "w", "t");
    assert RecomputeTasks(m, "w", order, 0) == m;
    assert RecomputeTasks(m, "w", order, 1) == m1;
    ReadyOne(m);
    StartOne(m1.workflows["w"]);
  }

  lemma ReadyOne(m: Model)
    requires m.workflows == map["w" := ChaosModel.Workflow(map["t" := ONCE], ["t"], m.now, WorkflowPending, None)]
    ensures RecomputeTask(m, "w", "t").workflows == map["w" := Running1(m.now).(state := WorkflowPending)]
  {
    var tasks := m.workflows["w"].tasks;
    assert !Impossible(tasks, []) && Satisfied(tasks, []);
    assert tasks["t" := ONCE.(state := Ready)] == map["t" := ONCE.(state := Ready)];
  }

  lemma StartOne(wf: ChaosModel.Workflow)
    requires wf.tasks == map["t" := ONCE.(state := Ready)] && wf.state == WorkflowPending
    ensures NextState(wf) == WorkflowRunning
  {
    assert "t" in wf.tasks && wf.tasks["t"].state == Ready;
  }

  /** The task while its only lease, granted at time zero of the run, is out. */
  function Held(m: Model): Task {
    GrantedTask(m, ONCE.(state := Ready), "a", "k")
  }

  ghost predicate SetUp(m: Model, s: Model) {
    && s.workflows == map["w" := Running1(m.now).(tasks := map["t" := Held(m)])]
    && s.workers == map["a" := ChaosModel.Worker(1, map[], m.now, {"k"}, false)]
    && s.leases == map["k" := Lease("w", "t", "a", 1, m.now, m.now + m.leaseDuration, false)] && s.closed == map[]
    && s.now == m.now && s.leaseDuration == m.leaseDuration && s.workerTtl == m.workerTtl
  }

  lemma RegisterOne(m: Model, s: Model)
    requires s.workers == map[]
    ensures var s' := Apply(s, REGISTER).model;
      && s' == s.(workers := map["a" := ChaosModel.Worker(1, map[], s.now, {}, false)], events := s'.events)
  {
  }

  lemma LeaseOne(m: Model, s: Model)
    requires s.workflows == map["w" := Running1(m.now)] && s.leases == map[] && s.closed == map[]
    requires s.workers == map["a" := ChaosModel.Worker(1, map[], m.now, {}, false)]
    requires s.now == m.now && s.leaseDuration == m.leaseDuration && s.workerTtl == m.workerTtl && 0 < m.workerTtl
    ensures SetUp(m, Apply(s, LEASE).model)
  {
    assert Sweep(s, [], []) == s;
    assert Candidate(s, "a", "w", "t");
    var s' := Grant(s, "a", "w", "t", "k");
    assert Apply(s, LEASE).model == s';
    var tasks := s.workflows["w"].tasks;
    assert tasks["t" := Held(m)] == map["t" := Held(m)];
    assert s'.workflows["w"] == Running1(m.now).(tasks := map["t" := Held(m)]);
    assert s.workers["a"].activeTokens + {"k"} == {"k"};
  }

  lemma SetupRun(m: Model)
    requires Timed(m)
    ensures FormedRun(m, SETUP) && SetUp(m, After(m, SETUP))
  {
    hide Apply, SetUp, FormedOp;
    AddOne(m);
    assert FormedRun(m, []) && After(m, []) == m;
    SetupFormed(m, Apply(Apply(m, ADD).model, REGISTER).model);
    FormedLast(m, [], ADD);
    AfterLast(m, [], ADD);
    assert [] + [ADD] == [ADD];
    RegisterOne(m, Apply(m, ADD).model);
    FormedLast(m, [ADD], REGISTER);
    AfterLast(m, [ADD], REGISTER);
    LeaseOne(m, After(m, [ADD] + [REGISTER]));
    FormedLast(m, [ADD] + [REGISTER], LEASE);
    AfterLast(m, [ADD] + [REGISTER], LEASE);
  }

  lemma SetupFormed(m: Model, s: Model)
    ensures FormedOp(m, ADD) && (forall s1 :: FormedOp(s1, REGISTER))
        && (s.leases == map[] && s.closed == map[] ==> FormedOp(s, LEASE))
  {
  }

  /** A lease that was never started is completed, and the verifier objects to the trace. */
  lemma UnstartedCompletion(m: Model, o: R.Options)
    requires Timed(m) && o.workflowFilter == ""
    ensures var ops := SETUP + [OpComplete("k", 0, "")];
      && FormedRun(m, ops) && !StartsFirst(m, ops)
      && R.Replayed(o, After(m, ops).events).errors > 0
  {
    hide After, FormedRun, R.Replayed, R.FinishError;
    var last := OpComplete("k", 0, "");
    var ops := SETUP + [last];
    SetupRun(m);
    FormedLast(m, SETUP, last);
    assert ops[..|SETUP|] == SETUP && ops[|SETUP|] == last;
    assert !StartedFirst(After(m, ops[..|SETUP|]), ops[|SETUP|]);
    AcceptedIffStarted(m, o, ops);
  }

  /** A task that may be attempted once is attempted again after its lease expired. */
  lemma SecondAttempt(m: Model)
    requires Timed(m)
    ensures var ops := SETUP + [OpAdvance(m.leaseDuration)] + [OpLease("a", Some(("w", "t")), "k2", ["k"], [])];
      && FormedRun(m, ops) && Has(After(m, ops), "w", "t")
      && After(m, ops).workflows["w"].tasks["t"].attempt == 2
      && After(m, ops).workflows["w"].tasks["t"].maxAttempts == 1
      && !GrantsInBudget(m, ops) && !CheckInvariants(After(m, ops))
  {
    hide After, FormedRun, SetUp, Apply, FormedOp, Attempts, EventSequence, WorkerCapacity, LeaseBijection,
        TaskLeaseFields,
         DependencySafety, TerminalWorkflows, RetryTimes, Timestamps, OutputLimits, GrantInBudget;
    var advance, again := OpAdvance(m.leaseDuration), OpLease("a", Some(("w", "t")), "k2", ["k"], []);
    var s := After(m, SETUP);
    SetupRun(m);
    AdvanceFormed(s, m.leaseDuration);
    FormedLast(m, SETUP, advance);
    AfterLast(m, SETUP, advance);
    var s1 := After(m, SETUP + [advance]);
    ExpireOne(m, s, s1);
    FormedLast(m, SETUP + [advance], again);
    var ops := SETUP + [advance] + [again];
    AfterLast(m, SETUP + [advance], again);
    assert ops[..|SETUP| + 1] == SETUP + [advance] && ops[|SETUP| + 1] == again;
    assert !GrantInBudget(After(m, ops[..|SETUP| + 1]), ops[|SETUP| + 1]);
    assert !Attempts(After(m, ops)) by { OverBudget(After(m, ops), "w", "t"); }
  }

  lemma OverBudget(m: Model, w: string, t: string)
    requires Has(m, w, t) && m.workflows[w].tasks[t].attempt > m.workflows[w].tasks[t].maxAttempts
    ensures !Attempts(m)
  {
  }

  lemma AdvanceFormed(s: Model, milliseconds: int)
    requires milliseconds >= 0
    ensures FormedOp(s, OpAdvance(milliseconds)) && Apply(s, OpAdvance(milliseconds)).model
        == s.(now := s.now + milliseconds)
  {
  }

  /** The sweep of the next lease operation hands the task back, and the operation hands it out again. */
  lemma ExpireOne(m: Model, s: Model, s1: Model)
    requires Timed(m) && SetUp(m, s) && s1 == s.(now := s.now + m.leaseDuration)
    ensures var again := OpLease("a", Some(("w", "t")), "k2", ["k"], []);
      var s2 := Apply(s1, again).model;
      && FormedOp(s1, again) && !GrantInBudget(s1, again)
      && Has(s2, "w", "t") && s2.workflows["w"].tasks["t"].attempt == 2 && s2.workflows["w"].tasks["t"].maxAttempts == 1
  {
    SweepOne(m, s1);
    var swept := Sweep(s1, ["k"], []);
    assert Candidate(swept, "a", "w", "t");
    assert LeaseNext(swept, "a", Some(("w", "t")), "k2") == Outcome(Grant(swept, "a", "w", "t", "k2"), Done);
  }

  lemma SweepOne(m: Model, s1: Model)
    requires Timed(m) && SetUp(m, s1.(now := m.now)) && s1.now == m.now + m.leaseDuration
    ensures var swept := Sweep(s1, ["k"], []);
      && Has(swept, "w", "t") && swept.workflows["w"].order == ["t"] && swept.workflows["w"].state == WorkflowRunning
      && swept.workflows["w"].tasks["t"].state == Ready && swept.workflows["w"].tasks["t"].labels == map[]
      && swept.workflows["w"].tasks["t"].attempt == 1 && swept.workflows["w"].tasks["t"].maxAttempts == 1
      && swept.workers == map["a" := ChaosModel.Worker(1, map[], m.now, {}, false)]
      && swept.now == s1.now && swept.workerTtl == m.workerTtl
  {
    var tokens := ["k"];
    assert tokens[..0] == [];
    assert ExpireAll(s1, tokens) == ExpireLease(s1, "k");
    var worker := s1.workers["a"];
    assert {"k"} - {"k"} == {};
    assert Discard(s1.workers, "a", "k") == map["a" := worker.(activeTokens := {})];
  }

  /** A dropped worker that registers again forgets the lease it holds. */
  lemma ForgottenLease(m: Model)
    requires Timed(m)
    ensures var ops := SETUP + [OpDrop("a")] + [REGISTER];
      && FormedRun(m, ops) && !FreeRegistrations(m, ops) && !CheckInvariants(After(m, ops))
  {
    hide After, FormedRun, SetUp, Apply, FormedOp, Attempts, EventSequence, WorkerCapacity, TaskLeaseFields,
        LeasesApart,
         DependencySafety, TerminalWorkflows, RetryTimes, Timestamps, OutputLimits, FreeRegistration, LeasesIndexed;
    var drop := OpDrop("a");
    var s := After(m, SETUP);
    SetupRun(m);
    DropOne(m, s);
    FormedLast(m, SETUP, drop);
    AfterLast(m, SETUP, drop);
    FormedLast(m, SETUP + [drop], REGISTER);
    AfterLast(m, SETUP + [drop], REGISTER);
    var ops := SETUP + [drop] + [REGISTER];
    assert ops[..|SETUP| + 1] == SETUP + [drop] && ops[|SETUP| + 1] == REGISTER;
    assert !FreeRegistration(After(m, ops[..|SETUP| + 1]), ops[|SETUP| + 1]);
  }

  lemma DropOne(m: Model, s: Model)
    requires SetUp(m, s)
    ensures var s1 := Apply(s, OpDrop("a")).model;
      && FormedOp(s, OpDrop("a")) && FormedOp(s1, REGISTER) && !FreeRegistration(s1, REGISTER)
      && !LeasesIndexed(Apply(s1, REGISTER).model)
  {
    var s1 := Apply(s, OpDrop("a")).model;
    var s2 := Apply(s1, REGISTER).model;
    assert "k" in s1.workers["a"].activeTokens;
    assert "k" in s2.leases && s2.leases["k"].workerId == "a" && s2.workers["a"].activeTokens == {};
  }
}
