/** The verifier accepts every run of the chaos `Model` in which completions follow starts, and no other completion. */
module ChaosAcceptance {
  import opened Runtime
  import opened ChaosModel
  import opened ChaosReplay
  import R = Replay
  import S = ReplaySoundness

  // Adding a workflow

  ghost predicate NewWorkflow(w: string, tasks: map<string, Task>) {
    w != "" && '/' !in w && forall t :: t in tasks ==> t != "" && FreshTask(tasks[t])
  }

  function Added(m: Model, w: string, tasks: map<string, Task>, order: seq<string>): Model {
    m.(workflows := m.workflows[w := ChaosModel.Workflow(tasks, order, m.now, WorkflowPending, None)])
  }

  lemma AddedInv(m: Model, w: string, tasks: map<string, Task>, order: seq<string>)
    requires Inv(m) && NewWorkflow(w, tasks) && w !in m.workflows
    ensures Inv(Added(m, w, tasks, order))
  {
    var m' := Added(m, w, tasks, order);
    assert forall w', t' :: Has(m', w', t') <==> if w' == w then t' in tasks else Has(m, w', t');
    forall k | k in m'.leases ensures LeaseOk(m', k) { assert LeaseOk(m, k); }
    forall w', t' | Has(m', w', t') ensures TokenOk(m', w', t') {
      if w' != w { assert TokenOk(m, w', t'); }
    }
  }

  lemma AddedRel(m: Model, m': Model, w: string, v: R.View, v': R.View, w': string, t': string)
    requires w' != w && Has(m, w', t') && Has(m', w', t') && TaskRel(m, v, w', t')
    requires m'.workflows[w'] == m.workflows[w'] && m'.leases == m.leases && m'.now == m.now
    requires R.HasTask(v', w', t') == R.HasTask(v, w', t') && R.TaskOf(v', w', t') == R.TaskOf(v, w', t')
    ensures TaskRel(m', v', w', t')
  {
  }

  lemma CreatedView(v: R.View, e: R.Event)
    requires e.workflowId != "" && e.workflowId !in v.workflows && e.kind.WorkflowCreated? && e.sequence > 0
    ensures S.Legal(R.Entered(v, e), e)
    ensures var v', w := R.Handle(R.Entered(v, e), e), e.workflowId;
      && v'.workflows.Keys == v.workflows.Keys + {w}
      && (forall w' :: w' in v.workflows ==> v'.workflows[w'] == v.workflows[w'])
      && v'.workflows[w].state == R.WorkflowKnown(WorkflowPending) && v'.workflows[w].createdSequence == e.sequence
      && v'.workflows[w].tasks == map[]
  {
  }

  lemma FreshRel(m: Model, v: R.View, w: string, t: string)
    requires Has(m, w, t) && !R.HasTask(v, w, t) && FreshTask(m.workflows[w].tasks[t])
    ensures TaskRel(m, v, w, t)
  {
  }

  lemma AddedSim(m: Model, o: R.Options, w: string, tasks: map<string, Task>, order: seq<string>)
    requires Good(m, o) && NewWorkflow(w, tasks) && w !in m.workflows
    ensures Sim(Emit(Added(m, w, tasks, order), R.WorkflowCreated, w, "", "", R.Absent), o)
  {
    hide R.Replayed, S.Inv, StreamOk, TaskRel, R.Handle, R.Entered, S.Legal, Inv;
    var m' := Added(m, w, tasks, order);
    var after := Emit(m', R.WorkflowCreated, w, "", "", R.Absent);
    var e := LastEvent(m, R.WorkflowCreated, w, "", "", R.Absent);
    var v := R.Replayed(o, m.events).view;
    CreatedView(v, e);
    EmitAccepted(o, m.events, e);
    var v' := R.Handle(R.Entered(v, e), e);
    assert v' == R.Replayed(o, after.events).view;
    forall w', t' | Has(after, w', t') ensures TaskRel(after, v', w', t') {
      if w' == w {
        assert FreshTask(tasks[t']);
        FreshRel(after, v', w, t');
      } else {
        assert Has(m, w', t') && TaskRel(m, v, w', t');
        AddedRel(m, after, w, v, v', w', t');
      }
    }
    forall w' | w' in after.workflows ensures WorkflowRel(after, v', w') {
      if w' != w { assert WorkflowRel(m, v, w'); }
    }
    forall w', t' | R.HasTask(v', w', t') ensures Has(after, w', t') {
      if w' != w { assert R.HasTask(v, w', t') && Has(m, w', t'); }
    }
  }

  lemma AddGood(m: Model, o: R.Options, w: string, tasks: map<string, Task>, order: Option<seq<string>>)
    requires Good(m, o) && NewWorkflow(w, tasks)
    ensures Good(AddWorkflow(m, w, tasks, order).model, o)
  {
    hide Inv, Sim, Recompute, NewWorkflow;
    if w !in m.workflows && order.Some? {
      AddedSim(m, o, w, tasks, order.value);
      AddedInv(m, w, tasks, order.value);
      InvEmit(Added(m, w, tasks, order.value), R.WorkflowCreated, w, "", "", R.Absent);
      RecomputeGood(Emit(Added(m, w, tasks, order.value), R.WorkflowCreated, w, "", "", R.Absent), o, w);
    }
  }

  // Sweeping

  lemma {:induction false} ExpireAllGood(m: Model, o: R.Options, tokens: seq<string>)
    requires Good(m, o)
    ensures Good(ExpireAll(m, tokens), o) && ExpireAll(m, tokens).leases.Keys <= m.leases.Keys
  {
    hide Good, ExpireLease;
    if tokens != [] {
      var init := tokens[..|tokens| - 1];
      ExpireAllGood(m, o, init);
      ExpireGood(ExpireAll(m, init), o, tokens[|tokens| - 1]);
      ExpireDrops(ExpireAll(m, init), tokens[|tokens| - 1]);
    }
  }

  lemma ExpireDrops(m: Model, k: string)
    ensures ExpireLease(m, k).leases.Keys <= m.leases.Keys
  {
  }

  lemma {:induction false} RecomputeAllGood(m: Model, o: R.Options, ids: seq<string>)
    requires Good(m, o)
    ensures Good(RecomputeAll(m, ids), o) && RecomputeAll(m, ids).leases == m.leases
  {
    hide Good, Recompute;
    if ids != [] {
      var init := ids[..|ids| - 1];
      RecomputeAllGood(m, o, init);
      RecomputeGood(RecomputeAll(m, init), o, ids[|ids| - 1]);
      RecomputeKeeps(RecomputeAll(m, init), ids[|ids| - 1]);
    }
  }

  /** `later` continues the list of events. */
  ghost predicate Extends(events: seq<R.Event>, later: seq<R.Event>) {
    |events| <= |later| && later[..|events|] == events
  }

  lemma {:induction false} TasksKeep(m: Model, w: string, order: seq<string>, n: nat)
    requires w in m.workflows && n <= |order|
    ensures RecomputeTasks(m, w, order, n).leases == m.leases
    ensures Extends(m.events, RecomputeTasks(m, w, order, n).events)
  {
    hide Impossible, Satisfied;
    if n > 0 { TasksKeep(m, w, order, n - 1); }
  }

  lemma RecomputeKeeps(m: Model, w: string)
    ensures Recompute(m, w).leases == m.leases && Extends(m.events, Recompute(m, w).events)
  {
    hide RecomputeTasks, NextState;
    if w in m.workflows && !TerminalWorkflow(m.workflows[w].state) {
      TasksKeep(m, w, m.workflows[w].order, |m.workflows[w].order|);
    }
  }

  lemma SweepGood(m: Model, o: R.Options, tokens: seq<string>, ids: seq<string>)
    requires Good(m, o)
    ensures Good(Sweep(m, tokens, ids), o) && Sweep(m, tokens, ids).leases.Keys <= m.leases.Keys
  {
    hide Good, ExpireAll, RecomputeAll;
    ExpireAllGood(m, o, tokens);
    RecomputeAllGood(ExpireAll(m, tokens), o, ids);
  }

  // Runs

  /** New ids are fresh and well formed. */
  ghost predicate FormedOp(m: Model, op: Op) {
    match op
    case OpAddWorkflow(w, tasks, _) => NewWorkflow(w, tasks)
    case OpRegister(x, _, _) => x != ""
    case OpLease(_, _, token, _, _) => token != "" && token !in m.leases && token !in m.closed
    case _ => true
  }

  /** A completion that is accepted follows a start. */
  predicate StartedFirst(m: Model, op: Op) {
    op.OpComplete? && op.token in m.leases && m.leases[op.token].expires > m.now ==> m.leases[op.token].started
  }

  ghost predicate LegalOp(m: Model, op: Op) {
    FormedOp(m, op) && StartedFirst(m, op)
  }

  lemma WorkersNamed(m: Model)
    requires Inv(m)
    ensures forall x :: x in m.workers ==> x != ""
  {
  }

  /** The operations on workers and the clock. */
  predicate PlainOp(op: Op) {
    op.OpRegister? || op.OpHeartbeat? || op.OpDrop? || op.OpAdvance?
  }

  lemma PlainGood(m: Model, o: R.Options, op: Op)
    requires Good(m, o) && LegalOp(m, op) && PlainOp(op)
    ensures Good(Apply(m, op).model, o)
  {
    hide Good, Inv, NewWorkflow;
    assert forall x :: x in m.workers ==> x != "" by { GoodWorkersNamed(m, o); }
    match op {
      case OpRegister(x, capacity, labels) =>
        WorkerEventGood(m, m.(workers := m.workers[x := ChaosModel.Worker(capacity, labels, m.now, {}, false)]), o,
            R.WorkerRegistered, x);
      case OpHeartbeat(x) =>
        if x in m.workers {
          WorkerEventGood(m, m.(workers := m.workers[x := m.workers[x].(heartbeat := m.now)]), o, R.WorkerHeartbeat, x);
        }
      case OpDrop(x) =>
        if x in m.workers { QuietGood(m, m.(workers := m.workers[x := m.workers[x].(dropped := true)]), o); }
      case OpAdvance(milliseconds) =>
        if milliseconds >= 0 { QuietGood(m, m.(now := m.now + milliseconds), o); }
      case _ =>
    }
  }

  lemma GoodWorkersNamed(m: Model, o: R.Options)
    requires Good(m, o)
    ensures forall x :: x in m.workers ==> x != ""
  {
    hide Sim;
    WorkersNamed(m);
  }

  lemma ApplyGood(m: Model, o: R.Options, op: Op)
    requires Good(m, o) && LegalOp(m, op)
    ensures Good(Apply(m, op).model, o)
  {
    hide Good, AddWorkflow, Start, Renew, AppendLog, Complete, CancelWorkflow, Sweep, LeaseNext, NewWorkflow,
         RegisterWorker, Heartbeat, DropWorker, Advance;
    match op {
      case OpAddWorkflow(w, tasks, order) => AddGood(m, o, w, tasks, order);
      case OpSweep(tokens, ids) => SweepGood(m, o, tokens, ids);
      case OpLease(x, pick, token, tokens, ids) =>
        SweepGood(m, o, tokens, ids);
        LeaseGood(Sweep(m, tokens, ids), o, x, pick, token);
      case OpStart(token) => StartGood(m, o, token);
      case OpRenew(token) => RenewGood(m, o, token);
      case OpLog(token, size, knownStream) => LogGood(m, o, token, size, knownStream);
      case OpComplete(token, exitCode, error) => CompleteGood(m, o, token, exitCode, error);
      case OpCancel(w) => CancelGood(m, o, w);
      case _ => PlainGood(m, o, op);
    }
  }

  lemma LeaseGood(m: Model, o: R.Options, x: string, pick: Option<(string, string)>, token: string)
    requires Good(m, o) && token != "" && token !in m.leases
    ensures Good(LeaseNext(m, x, pick, token).model, o)
  {
    hide Good, Grant;
    if pick.Some? && Candidate(m, x, pick.value.0, pick.value.1) {
      GrantGood(m, o, x, pick.value.0, pick.value.1, token);
    }
  }

  ghost predicate FormedRun(m: Model, ops: seq<Op>) {
    forall n :: 0 <= n < |ops| ==> FormedOp(After(m, ops[..n]), ops[n])
  }

  ghost predicate StartsFirst(m: Model, ops: seq<Op>) {
    forall n :: 0 <= n < |ops| ==> StartedFirst(After(m, ops[..n]), ops[n])
  }

  ghost predicate LegalRun(m: Model, ops: seq<Op>) {
    forall n :: 0 <= n < |ops| ==> LegalOp(After(m, ops[..n]), ops[n])
  }

  lemma {:induction false} RunGood(m: Model, o: R.Options, ops: seq<Op>)
    requires Good(m, o) && LegalRun(m, ops)
    ensures Good(After(m, ops), o)
  {
    hide Good, Apply, LegalOp;
    if ops != [] {
      var init := ops[..|ops| - 1];
      forall n | 0 <= n < |init| ensures LegalOp(After(m, init[..n]), init[n]) {
        assert init[..n] == ops[..n];
      }
      RunGood(m, o, init);
      assert LegalOp(After(m, ops[..|ops| - 1]), ops[|ops| - 1]);
      ApplyGood(After(m, init), o, ops[|ops| - 1]);
    }
  }

  lemma EmptyGood(m: Model, o: R.Options)
    requires Empty(m) && o.workflowFilter == ""
    ensures Good(m, o)
  {
    assert R.Replayed(o, []) == R.START;
  }

  lemma TaskOfKnown(v: R.View, w: string, t: string)
    requires R.HasTask(v, w, t)
    ensures R.TaskOf(v, w, t) == v.workflows[w].tasks[t]
  {
  }

  lemma FinishClean(m: Model, o: R.Options)
    requires Good(m, o)
    ensures forall w, t :: !R.FinishError(R.Replayed(o, m.events).view, w, t)
  {
    hide R.Replayed, R.TaskOf, StreamOk;
    var v := R.Replayed(o, m.events).view;
    forall w, t ensures !R.FinishError(v, w, t) {
      if R.HasTask(v, w, t) {
        assert Has(m, w, t) && TaskRel(m, v, w, t) && WorkflowRel(m, v, w) && SuccessOk(m.workflows[w])
            && TokenOk(m, w, t);
        TaskOfKnown(v, w, t);
        assert S.LeaseOk(R.TaskOf(v, w, t));
        if TerminalWorkflow(m.workflows[w].state) { NoLeaseWhenEnded(m, w, t); }
      }
    }
  }

  lemma NoLeaseWhenEnded(m: Model, w: string, t: string)
    requires Inv(m) && Has(m, w, t) && TerminalWorkflow(m.workflows[w].state)
    ensures !HoldsLease(m.workflows[w].tasks[t].state)
  {
    assert TokenOk(m, w, t);
    var k := m.workflows[w].tasks[t].leaseToken;
    if k in m.leases { assert LeaseOk(m, k); }
  }

  /** Simulation: replaying what any legal run has emitted, and then the final checks, find no error. */
  lemma RunAccepted(m: Model, o: R.Options, ops: seq<Op>)
    requires Empty(m) && o.workflowFilter == "" && LegalRun(m, ops)
    ensures R.Replayed(o, After(m, ops).events).errors == 0
    ensures forall w, t :: !R.FinishError(R.Replayed(o, After(m, ops).events).view, w, t)
  {
    hide R.Replayed, Inv, After, LegalRun, R.FinishError, Mirrored;
    EmptyGood(m, o);
    RunGood(m, o, ops);
    FinishClean(After(m, ops), o);
  }

  // The converse for one completion

  lemma ReplayedLast(o: R.Options, events: seq<R.Event>, e: R.Event)
    ensures R.Replayed(o, events + [e]) == R.Accept(R.Replayed(o, events), o, e)
  {
    assert (events + [e])[..|events|] == events;
  }

  /** A completion of a lease that was granted but not started draws an error. */
  lemma UnstartedSettle(m: Model, o: R.Options, k: string, exitCode: int, error: string)
    requires Good(m, o) && k in m.leases && Carries(m, k) && !m.leases[k].started
    ensures R.Replayed(o, Settle(m, k, exitCode, error).events).errors > 0
  {
    hide R.Replayed, S.Inv, Inv, R.Problems, S.TaskLegal, RecordOf, DropLease, Completed;
    LeaseFacts(m, o, k);
    var l := m.leases[k];
    var task := m.workflows[l.workflowId].tasks[l.taskId];
    var kind := CompletionState(task, exitCode, error).1;
    var e := LastEvent(m, kind, l.workflowId, l.taskId, l.workerId, R.Absent);
    var s := R.Replayed(o, m.events);
    assert l.workflowId in s.view.workflows;
    EnteredSame(s.view, e);
    LeasedNotDone(task, l.workerId, R.TaskOf(s.view, l.workflowId, l.taskId), m.now, e, s.view);
    R.AcceptClean(s, o, e);
    S.CleanIffLegal(s.view, e);
    ReplayedLast(o, m.events, e);
    DropKeeps(m, k);
  }

  lemma LeasedNotDone(task: Task, owner: string, r: R.TaskReplay, now: Time, e: R.Event, v: R.View)
    requires RecordOf(task, owner, r, now) && task.state == Leased
    requires e.kind.TaskSuccess? || e.kind.TaskFailure? || e.kind.TaskRetry?
    ensures !S.TaskLegal(v, r, e)
  {
  }

  /** A live lease can be completed without drawing an error exactly when it was started. */
  lemma CompletionNeedsStart(m: Model, o: R.Options, k: string, exitCode: int, error: string)
    requires Good(m, o) && k in m.leases && m.leases[k].expires > m.now
    ensures R.Replayed(o, Complete(m, k, exitCode, error).model.events).errors == 0 <==> m.leases[k].started
  {
    hide R.Replayed, Inv, Settle, Recompute, RecordOf, Mirrored, S.Inv;
    LeaseFacts(m, o, k);
    if m.leases[k].started {
      CompleteGood(m, o, k, exitCode, error);
    } else {
      UnstartedSettle(m, o, k, exitCode, error);
      var settled := Settle(m, k, exitCode, error);
      RecomputeKeeps(settled, m.leases[k].workflowId);
      R.ErrorsGrow(o, Recompute(settled, m.leases[k].workflowId).events, |settled.events|);
    }
  }

  // The converse for runs

  /** `Apply` only appends to the list of events. */
  lemma ApplyExtends(m: Model, op: Op)
    ensures Extends(m.events, Apply(m, op).model.events)
  {
    hide Extends, AddWorkflow, Start, Renew, AppendLog, Complete, CancelWorkflow, Sweep, LeaseNext, RegisterWorker,
        Heartbeat, DropWorker, Advance;
    match op {
      case OpAddWorkflow(w, tasks, order) => AddExtends(m, w, tasks, order);
      case OpSweep(tokens, ids) => SweepExtends(m, tokens, ids);
      case OpLease(x, pick, token, tokens, ids) =>
        SweepExtends(m, tokens, ids);
        LeaseExtends(Sweep(m, tokens, ids), x, pick, token);
        ExtendsTransitive(m.events, Sweep(m, tokens, ids).events, Apply(m, op).model.events);
      case OpStart(token) => LeaseOpsExtend(m, token, 0, true);
      case OpRenew(token) => LeaseOpsExtend(m, token, 0, true);
      case OpLog(token, size, knownStream) => LeaseOpsExtend(m, token, size, knownStream);
      case OpComplete(token, exitCode, error) => CompleteExtends(m, token, exitCode, error);
      case OpCancel(w) => CancelExtends(m, w);
      case _ => PlainExtends(m, op);
    }
  }

  lemma ExtendsTransitive(a: seq<R.Event>, b: seq<R.Event>, c: seq<R.Event>)
    requires Extends(a, b) && Extends(b, c)
    ensures Extends(a, c)
  {
  }

  lemma AddExtends(m: Model, w: string, tasks: map<string, Task>, order: Option<seq<string>>)
    ensures Extends(m.events, AddWorkflow(m, w, tasks, order).model.events)
  {
    hide Recompute;
    if w !in m.workflows && order.Some? {
      RecomputeKeeps(Emit(Added(m, w, tasks, order.value), R.WorkflowCreated, w, "", "", R.Absent), w);
    }
  }

  lemma ExpireExtends(m: Model, k: string)
    ensures Extends(m.events, ExpireLease(m, k).events)
  {
  }

  lemma {:induction false} ExpireAllExtends(m: Model, tokens: seq<string>)
    ensures Extends(m.events, ExpireAll(m, tokens).events)
  {
    hide ExpireLease;
    if tokens != [] {
      var init := tokens[..|tokens| - 1];
      ExpireAllExtends(m, init);
      ExpireExtends(ExpireAll(m, init), tokens[|tokens| - 1]);
    }
  }

  lemma {:induction false} RecomputeAllExtends(m: Model, ids: seq<string>)
    ensures Extends(m.events, RecomputeAll(m, ids).events)
  {
    hide Recompute;
    if ids != [] {
      var init := ids[..|ids| - 1];
      RecomputeAllExtends(m, init);
      RecomputeKeeps(RecomputeAll(m, init), ids[|ids| - 1]);
    }
  }

  lemma SweepExtends(m: Model, tokens: seq<string>, ids: seq<string>)
    ensures Extends(m.events, Sweep(m, tokens, ids).events)
  {
    hide ExpireAll, RecomputeAll;
    ExpireAllExtends(m, tokens);
    RecomputeAllExtends(ExpireAll(m, tokens), ids);
  }

  lemma LeaseExtends(m: Model, x: string, pick: Option<(string, string)>, token: string)
    ensures Extends(m.events, LeaseNext(m, x, pick, token).model.events)
  {
    hide LabelsMatch;
  }

  lemma LeaseOpsExtend(m: Model, k: string, size: nat, knownStream: bool)
    ensures Extends(m.events, Start(m, k).model.events) && Extends(m.events, Renew(m, k).model.events)
    ensures Extends(m.events, AppendLog(m, k, size, knownStream).model.events)
  {
    hide ExpireLease;
    ExpireExtends(m, k);
  }

  lemma CompleteExtends(m: Model, k: string, exitCode: int, error: string)
    ensures Extends(m.events, Complete(m, k, exitCode, error).model.events)
  {
    hide ExpireLease, Recompute, Completed, CompletionState;
    ExpireExtends(m, k);
    if LeaseRefusal(m, k).None? && Carries(m, k) {
      RecomputeKeeps(Settle(m, k, exitCode, error), m.leases[k].workflowId);
    }
  }

  lemma CancelExtends(m: Model, w: string)
    ensures Extends(m.events, CancelWorkflow(m, w).model.events)
  {
  }

  lemma PlainExtends(m: Model, op: Op)
    requires PlainOp(op)
    ensures Extends(m.events, Apply(m, op).model.events)
  {
  }

  lemma {:induction false} RunExtends(m: Model, ops: seq<Op>, n: nat)
    requires n <= |ops|
    ensures Extends(After(m, ops[..n]).events, After(m, ops).events)
    decreases |ops|
  {
    hide Apply;
    if n == |ops| {
      assert ops[..n] == ops;
    } else {
      var init := ops[..|ops| - 1];
      assert init[..n] == ops[..n];
      RunExtends(m, init, n);
      ApplyExtends(After(m, init), ops[|ops| - 1]);
    }
  }

  lemma AfterNext(m: Model, ops: seq<Op>, n: nat)
    requires n < |ops|
    ensures After(m, ops[..n + 1]) == Apply(After(m, ops[..n]), ops[n]).model
  {
    assert ops[..n + 1][..n] == ops[..n];
  }

  /** The first completion without a start draws an error that no later event removes. */
  lemma {:induction false} FirstUnstarted(m: Model, o: R.Options, ops: seq<Op>, n: nat)
    requires Empty(m) && o.workflowFilter == "" && FormedRun(m, ops) && n < |ops|
    requires LegalRun(m, ops[..n]) && !StartedFirst(After(m, ops[..n]), ops[n])
    ensures R.Replayed(o, After(m, ops).events).errors > 0
  {
    hide R.Replayed, Good, Complete, After, LegalRun, FormedRun, Empty;
    var before, op := After(m, ops[..n]), ops[n];
    EmptyGood(m, o);
    RunGood(m, o, ops[..n]);
    CompletionNeedsStart(before, o, op.token, op.exitCode, op.error);
    AfterNext(m, ops, n);
    RunExtends(m, ops, n + 1);
    R.ErrorsGrow(o, After(m, ops).events, |After(m, ops[..n + 1]).events|);
  }

  lemma {:induction false} LegalUpTo(m: Model, ops: seq<Op>, n: nat)
    requires FormedRun(m, ops) && n <= |ops|
    requires forall k :: 0 <= k < n ==> StartedFirst(After(m, ops[..k]), ops[k])
    ensures LegalRun(m, ops[..n])
  {
    hide FormedOp, StartedFirst, Apply;
    forall k | 0 <= k < n ensures LegalOp(After(m, ops[..n][..k]), ops[..n][k]) {
      assert ops[..n][..k] == ops[..k];
    }
  }

  /** The trace of a run is accepted exactly when every accepted completion followed a start. */
  lemma AcceptedIffStarted(m: Model, o: R.Options, ops: seq<Op>)
    requires Empty(m) && o.workflowFilter == "" && FormedRun(m, ops)
    ensures R.Replayed(o, After(m, ops).events).errors == 0 <==> StartsFirst(m, ops)
    ensures StartsFirst(m, ops) ==> forall w, t :: !R.FinishError(R.Replayed(o, After(m, ops).events).view, w, t)
  {
    hide R.Replayed, R.FinishError, StartedFirst, After, FormedRun, LegalRun, Empty;
    if StartsFirst(m, ops) {
      LegalUpTo(m, ops, |ops|);
      assert ops[..|ops|] == ops;
      RunAccepted(m, o, ops);
    } else {
      var n := FirstViolation(m, ops);
      LegalUpTo(m, ops, n);
      FirstUnstarted(m, o, ops, n);
    }
  }

  lemma FirstViolation(m: Model, ops: seq<Op>) returns (n: nat)
    requires !StartsFirst(m, ops)
    ensures n < |ops| && !StartedFirst(After(m, ops[..n]), ops[n])
    ensures forall k :: 0 <= k < n ==> StartedFirst(After(m, ops[..k]), ops[k])
  {
    hide StartedFirst, After;
    n := 0;
    while n < |ops| && StartedFirst(After(m, ops[..n]), ops[n])
      invariant n <= |ops| && forall k :: 0 <= k < n ==> StartedFirst(After(m, ops[..k]), ops[k])
    {
      n := n + 1;
    }
  }
}
