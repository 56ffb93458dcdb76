/** A concrete run of the coordinator in which a task is attempted more often than its policy allows. */
module StoreExamples {
  import opened Graph
  import opened Specs = WorkflowSpec
  import opened Runtime
  import opened StoreModel
  import opened StoreOperations
  import opened StoreRuns
  import opened StoreBudget

  /** A task that may be attempted once. */
  const ONCE := TaskSpec("t", [], ["c"], map[], 0, RetryPolicy(1, 0, 0), map[])
  /** The same task with its policy normalized. */
  const STORED := ONCE.(retry := RetryPolicy(1, 250, 30_000))
  const SPEC := WorkflowSpec("n", map[], [ONCE])

  const CREATE := Call(Create(SPEC, Success(["t"]), "", "w"), 0)
  const REGISTER := Call(Register("", "", map[], 1, "a"), 0)
  const POLL := Call(Poll("a", "k", [], ["w"], ["w"]), 0)
  const AGAIN := Call(Poll("a", "k2", ["k"], ["w"], ["w"]), LEASE_DURATION)

  /** One workflow with one task, created and registered at time zero. */
  const RUN: seq<Call> := [CREATE] + [REGISTER] + [POLL] + [AGAIN]

  // The specification

  lemma OnceValid()
    ensures ValidTask(ONCE)
  {
    assert !IsSpace('t') && !IsSpace('c');
    assert ONCE.id[0] == 't' && ONCE.command[0][0] == 'c';
  }

  lemma OneGraph()
    ensures GraphOf(SPEC.tasks) == map["t" := []]
  {
    var tasks := SPEC.tasks;
    assert tasks[..0] == [] && tasks[0] == ONCE;
    assert GraphOf(tasks) == GraphOf(tasks[..0])["t" := []];
  }

  lemma SpecValid()
    ensures ValidSpec(SPEC) && GraphOf(SPEC.tasks) == map["t" := []]
  {
    hide ValidTask;
    OnceValid();
    OneGraph();
    assert SPEC.name[0] == 'n' && !IsSpace('n');
    var g := GraphOf(SPEC.tasks);
    forall p ensures !Cycle(g, p) {
      if |p| >= 2 { assert !Edge(g, p[0], p[1]); }
    }
  }

  lemma OnlyOrder()
    ensures LeastTopological(map["t" := []], ["t"])
  {
    var g: Graph := map["t" := []];
    assert Elements(["t"]) == {"t"};
    forall o | Topological(g, o) ensures NotAfter(["t"], o) {
      NoDupCardinality(o);
      assert Elements(o) == {"t"};
      assert |o| == 1 && o[0] in Elements(o);
    }
  }

  // The steps

  /** The task is ready after `n` attempts, and the worker is free. */
  ghost predicate Idle(s: StoreState, n: int) {
    && s.workflows.Keys == {"w"} && s.workflows["w"].order == ["t"] && s.workflows["w"].tasks == map["t" := STORED]
    && s.workflows["w"].state == WorkflowRunning && s.workflows["w"].id == "w"
    && s.workflows["w"].runtime.Keys == {"t"}
    && s.workflows["w"].runtime["t"].state == Ready && s.workflows["w"].runtime["t"].attempt == n
    && s.workers == map["a" := WorkerValue("a", "", "", map[], 1, 0, 0, 0)] && s.leases == map[]
  }

  lemma IdleRecomputed(w: Snapshot, now: Time)
    requires w.order == ["t"] && w.tasks == map["t" := STORED] && w.runtime.Keys == {"t"} && w.state == WorkflowRunning
    requires w.runtime["t"].state == Ready
    ensures Recomputed(w, now) == w.(updatedAt := now)
  {
    assert StepTasks(w, now, 0) == w.runtime;
    assert StepTasks(w, now, 1) == w.runtime["t" := w.runtime["t"]];
    assert w.runtime["t" := w.runtime["t"]] == w.runtime;
    assert w.order[0] == "t";
    assert SomeActive(w.order, 1, w.runtime);
  }

  lemma IdleSwept(s: StoreState, n: int, now: Time)
    requires Idle(s, n)
    ensures Idle(RecomputeAll(s, ["w"], now), n)
  {
    hide Recomputed;
    IdleRecomputed(s.workflows["w"], now);
    assert ["w"][..0] == [];
    assert RecomputeAll(s, ["w"], now) == RecomputeOne(s, "w", now);
  }

  /** The task is leased for the `n`th time, since time `now`. */
  ghost predicate Taken(s: StoreState, n: int, now: Time, token: string) {
    && s.workflows.Keys == {"w"} && s.workflows["w"].order == ["t"] && s.workflows["w"].tasks == map["t" := STORED]
    && s.workflows["w"].state == WorkflowRunning && s.workflows["w"].id == "w"
    && s.workflows["w"].runtime.Keys == {"t"} && s.workflows["w"].runtime["t"].state == Leased
    && s.workflows["w"].runtime["t"].attempt == n && s.workflows["w"].runtime["t"].leaseToken == token
    && s.workers == map["a" := WorkerValue("a", "", "", map[], 1, 1, 0, 0)]
    && s.leases == map[token := Lease(token, "w", "t", "a", n, now + LEASE_DURATION, STORED)]
  }

  lemma Served(s: StoreState, n: int, now: Time, token: string)
    requires Idle(s, n) && now <= WORKER_TTL
    ensures Taken(Serve(s, "a", now, token, ["w"]).0, n + 1, now, token)
    ensures Serve(s, "a", now, token, ["w"]).0.issued == s.issued + {token}
  {
    hide Recomputed;
    var w := s.workflows["w"];
    IdleRecomputed(w, now);
    assert ["w"][1..] == [];
    assert Candidates(s, []) == [];
    assert Candidates(s, ["w"]) == ["w"];
    var v := w.(updatedAt := now);
    assert Offered(v, map[], "t");
    assert FirstOffered(v, map[], 0) == Some("t");
    var s1 := s.(workflows := s.workflows["w" := v]);
    assert Scan(s, ["w"], "a", now, token) == Grant(s1, "w", "t", "a", now, token);
  }

  lemma Expired(s: StoreState, n: int)
    requires Taken(s, n, 0, "k")
    ensures Idle(ExpireDue(s, ["k"], LEASE_DURATION), n) && ExpireDue(s, ["k"], LEASE_DURATION).issued == s.issued
  {
    assert ["k"][..0] == [];
    assert ExpireDue(s, ["k"], LEASE_DURATION) == Expire(s, "k", LEASE_DURATION);
  }

  lemma Created1()
    ensures var s := Step(EMPTY, CREATE).0;
      Idle(s.(workers := map["a" := WorkerValue("a", "", "", map[], 1, 0, 0, 0)]), 0) && s.workers == map[]
          && s.issued == {}
  {
    hide ReadyEvents;
    FreshSnapshot();
    FirstRecomputed();
  }

  lemma FreshSnapshot()
    ensures var w := NewSnapshot("w", SPEC, ["t"], 0);
      w.tasks == map["t" := STORED] && w.runtime == map["t" := FRESH_RUNTIME] && w.order == ["t"]
          && w.state == WorkflowPending
  {
    assert SPEC.tasks[..0] == [];
    assert NormalizeRetry(ONCE.retry) == RetryPolicy(1, 250, 30_000);
    assert TaskMap(SPEC.tasks) == map["t" := STORED];
  }

  lemma FirstRecomputed()
    ensures var w := Recomputed(NewSnapshot("w", SPEC, ["t"], 0), 0);
      && w.tasks == map["t" := STORED] && w.order == ["t"] && w.id == "w" && w.state == WorkflowRunning
      && w.runtime == map["t" := FRESH_RUNTIME.(state := Ready)]
  {
    hide NewSnapshot;
    FreshSnapshot();
    var w := NewSnapshot("w", SPEC, ["t"], 0);
    var r := FRESH_RUNTIME.(state := Ready);
    assert StepTasks(w, 0, 0) == w.runtime;
    assert StepTask([], FRESH_RUNTIME, w.runtime, 0) == r;
    assert StepTasks(w, 0, 1) == w.runtime["t" := r];
    assert w.runtime["t" := r] == map["t" := r];
    assert w.order[0] == "t";
    SnapshotId();
  }

  lemma SnapshotId()
    ensures NewSnapshot("w", SPEC, ["t"], 0).id == "w"
  {
  }

  /** The second poll comes when the first lease has just expired: attempt two of a task that may be attempted once. */
  lemma SecondAttempt()
    ensures Legal(RUN) && HasTask(After(RUN), "w", "t") && "t" in After(RUN).workflows["w"].tasks
    ensures TaskAt(After(RUN), "w", "t").attempt == 2 && MaxAttempts(After(RUN).workflows["w"], "t") == 1
  {
    hide After, Idle, Taken, Legal, Enabled, Step;
    Beginning();
    AfterLast([], CREATE);
    assert [] + [CREATE] == [CREATE];
    AfterLast([CREATE], REGISTER);
    AfterLast([CREATE] + [REGISTER], POLL);
    AfterLast([CREATE] + [REGISTER] + [POLL], AGAIN);
    var s1 := After([CREATE]);
    EnabledCreate();
    Created1();
    Registered(s1);
    var s2 := After([CREATE] + [REGISTER]);
    Polled(s2);
    var s3 := After([CREATE] + [REGISTER] + [POLL]);
    PolledAgain(s3);
    TakenMeans(After(RUN), 2, LEASE_DURATION, "k2");
  }

  lemma Beginning()
    ensures After([]) == EMPTY && Legal([])
  {
  }

  lemma TakenMeans(s: StoreState, n: int, now: Time, token: string)
    requires Taken(s, n, now, token)
    ensures HasTask(s, "w", "t") && "t" in s.workflows["w"].tasks
    ensures TaskAt(s, "w", "t").attempt == n && MaxAttempts(s.workflows["w"], "t") == 1
  {
  }

  lemma EnabledCreate()
    ensures Enabled(EMPTY, CREATE.op)
  {
    hide ValidSpec;
    SpecValid();
    OnlyOrder();
  }

  lemma Registered(s: StoreState)
    requires Idle(s.(workers := map["a" := WorkerValue("a", "", "", map[], 1, 0, 0, 0)]), 0) && s.workers == map[]
        && s.issued == {}
    ensures Enabled(s, REGISTER.op) && Idle(Step(s, REGISTER).0, 0) && Step(s, REGISTER).0.issued == {}
  {
  }

  lemma Enumerated()
    ensures Enumerates([], {}) && Enumerates(["w"], {"w"}) && Enumerates(["k"], {"k"})
  {
    assert Elements<string>([]) == {} && Elements(["w"]) == {"w"} && Elements(["k"]) == {"k"};
  }

  lemma Polled(s: StoreState)
    requires Idle(s, 0) && s.issued == {}
    ensures Enabled(s, POLL.op) && Taken(Step(s, POLL).0, 1, 0, "k") && Step(s, POLL).0.issued == {"k"}
  {
    hide Serve, RecomputeAll, Taken;
    Enumerated();
    assert s.leases.Keys == {};
    assert ExpireDue(s, [], 0) == s;
    IdleSwept(s, 0, 0);
    Unissued(s, 0);
    Served(RecomputeAll(s, ["w"], 0), 0, 0, "k");
    assert {} + {"k"} == {"k"};
  }

  lemma Unissued(s: StoreState, now: Time)
    requires s.workflows.Keys == {"w"}
    ensures RecomputeAll(s, ["w"], now).issued == s.issued
  {
    assert ["w"][..0] == [];
    assert RecomputeAll(s, ["w"], now) == RecomputeOne(s, "w", now);
  }

  lemma PolledAgain(s: StoreState)
    requires Taken(s, 1, 0, "k") && s.issued == {"k"}
    ensures Enabled(s, AGAIN.op) && Taken(Step(s, AGAIN).0, 2, LEASE_DURATION, "k2")
  {
    hide Serve, RecomputeAll, ExpireDue, Idle;
    Enumerated();
    assert s.leases.Keys == {"k"};
    Expired(s, 1);
    var s1 := ExpireDue(s, ["k"], LEASE_DURATION);
    IdleSwept(s1, 1, LEASE_DURATION);
    Served(RecomputeAll(s1, ["w"], LEASE_DURATION), 1, LEASE_DURATION, "k2");
  }
}
