/** Every trace the chaos `Model` emits is accepted by the replay verifier, when each completion follows a start. */
module ChaosReplay {
  import opened Runtime
  import opened ChaosModel
  import R = Replay
  import S = ReplaySoundness
  import opened ReplayRecords

  // What the model keeps

  ghost predicate IdsOk(m: Model) {
    && (forall w :: w in m.workflows ==> w != "" && '/' !in w)
    && (forall w, t :: Has(m, w, t) ==> t != "")
    && (forall x :: x in m.workers ==> x != "")
  }

  /** A lease names a task that carries its token and is leased or running, in a workflow that has not ended. */
  ghost predicate LeaseOk(m: Model, k: string)
    requires k in m.leases
  {
    var l := m.leases[k];
    && k != "" && l.workerId != "" && Carries(m, k)
    && !TerminalWorkflow(m.workflows[l.workflowId].state)
    && var task := m.workflows[l.workflowId].tasks[l.taskId];
       HoldsLease(task.state) && (l.started <==> task.state == Running)
  }

  /** A task that is leased or running has a lease; any other task carries no token. */
  ghost predicate TokenOk(m: Model, w: string, t: string)
    requires Has(m, w, t)
  {
    var task := m.workflows[w].tasks[t];
    if HoldsLease(task.state) then
      task.leaseToken in m.leases && m.leases[task.leaseToken].workflowId == w && m.leases[task.leaseToken].taskId == t
    else task.leaseToken == ""
  }

  ghost predicate SuccessOk(wf: ChaosModel.Workflow) {
    wf.state == WorkflowSucceeded ==> forall t :: t in wf.tasks ==> wf.tasks[t].state == Succeeded
  }

  ghost predicate Inv(m: Model) {
    && IdsOk(m)
    && (forall k :: k in m.leases ==> LeaseOk(m, k))
    && (forall w, t :: Has(m, w, t) ==> TokenOk(m, w, t))
    && (forall w :: w in m.workflows ==> SuccessOk(m.workflows[w]))
  }

  // How the replayed state mirrors the model

  function OwnerOf(m: Model, task: Task): string {
    if task.leaseToken in m.leases then m.leases[task.leaseToken].workerId else ""
  }

  ghost predicate TimesOk(r: R.TaskReplay, now: Time) {
    && (r.startedAt.Some? ==> r.startedAt.value <= now)
    && (r.finishedAt.Some? ==>
          r.state.Known? && TerminalTask(r.state.state) && (r.startedAt.Some?
              ==> r.startedAt.value <= r.finishedAt.value))
  }

  /** The replayed record of a task that has been mentioned in the trace. */
  ghost predicate Shown(task: Task, owner: string, r: R.TaskReplay, now: Time) {
    && task.state != Pending && r.state == R.Known(task.state) && r.attempt == task.attempt
    && (HoldsLease(task.state) ==> r.lease.Some? && r.lease.value.workerId == owner)
    && TimesOk(r, now)
  }

  /** A task that the trace has not mentioned. */
  predicate Hidden(task: Task) {
    task.state in {Pending, Cancelled} && task.attempt == 0
  }

  ghost predicate TaskRel(m: Model, v: R.View, w: string, t: string)
    requires Has(m, w, t)
  {
    var task := m.workflows[w].tasks[t];
    if R.HasTask(v, w, t) then Shown(task, OwnerOf(m, task), R.TaskOf(v, w, t), m.now) else Hidden(task)
  }

  ghost predicate WorkflowRel(m: Model, v: R.View, w: string)
    requires w in m.workflows && w in v.workflows
  {
    v.workflows[w].state == R.WorkflowKnown(m.workflows[w].state) && v.workflows[w].createdSequence != 0
  }

  ghost predicate Mirrored(m: Model, v: R.View) {
    && v.workflows.Keys == m.workflows.Keys
    && (forall w :: w in m.workflows ==> WorkflowRel(m, v, w))
    && (forall w, t :: R.HasTask(v, w, t) ==> Has(m, w, t))
    && (forall w, t :: Has(m, w, t) ==> TaskRel(m, v, w, t))
  }

  /** The sequence numbers so far are one to `n`. */
  ghost predicate StreamOk(s: R.State, n: nat) {
    s.errors == 0 && s.previousSequence == n && forall k :: k in s.observed ==> 1 <= k <= n
  }

  ghost predicate Sim(m: Model, o: R.Options) {
    var s := R.Replayed(o, m.events);
    StreamOk(s, |m.events|) && S.Inv(s.view) && Mirrored(m, s.view)
  }

  // Emitting one event

  lemma EmitAccepted(o: R.Options, events: seq<R.Event>, e: R.Event)
    requires o.workflowFilter == "" && StreamOk(R.Replayed(o, events), |events|) && S.Inv(R.Replayed(o, events).view)
    requires e.sequence == |events| + 1 && '/' !in e.workflowId
    requires S.Legal(R.Entered(R.Replayed(o, events).view, e), e)
    ensures var s, s' := R.Replayed(o, events), R.Replayed(o, events + [e]);
      && StreamOk(s', |events| + 1) && S.Inv(s'.view)
      && s'.view == R.Handle(R.Entered(s.view, e), e)
  {
    hide R.Handle, R.Entered, S.Legal, S.Inv, R.Problems;
    var s := R.Replayed(o, events);
    assert (events + [e])[..|events|] == events;
    R.AcceptClean(s, o, e);
    S.CleanIffLegal(R.Entered(s.view, e), e);
    CleanStream(s, o, e);
    S.EnteredStep(s.view, e);
    S.HandleStep(R.Entered(s.view, e), e);
  }

  lemma CleanStream(s: R.State, o: R.Options, e: R.Event)
    requires e.sequence !in s.observed && (s.previousSequence != 0 ==> e.sequence > s.previousSequence)
    ensures R.Clean(R.StreamProblems(s, o, e))
  {
    hide R.Clean;
    var p1 := R.When(e.sequence in s.observed, R.Error, R.DuplicateSequence);
    var p2 := p1 + R.When(s.previousSequence != 0 && e.sequence <= s.previousSequence, R.Error, R.NonMonotonicSequence);
    var gap := !o.allowGaps && s.previousSequence != 0 && e.sequence != s.previousSequence + 1;
    S.CleanWhen(e.sequence in s.observed, R.Error, R.DuplicateSequence);
    S.CleanLast(p1, s.previousSequence != 0 && e.sequence <= s.previousSequence, R.Error, R.NonMonotonicSequence);
    S.CleanLast(p2, gap, R.Warning, R.SequenceGap);
    S.CleanLast(p2 + R.When(gap, R.Warning, R.SequenceGap),
      s.previousAt.Some? && e.at < s.previousAt.value - 5000, R.Warning, R.ClockMovedBackwards);
  }

  /** A known workflow is not entered again. */
  lemma EnteredSame(v: R.View, e: R.Event)
    requires e.workflowId == "" || e.workflowId in v.workflows
    ensures R.Entered(v, e) == v
  {
  }

  // Task events

  /** Between `m` and `m'` only one task has changed, and no other task has changed hands. */
  ghost predicate OnlyTask(m: Model, m': Model, w: string, t: string) {
    && m'.workflows.Keys == m.workflows.Keys && m'.now == m.now
    && (forall w' :: w' in m.workflows ==> m'.workflows[w'].state == m.workflows[w'].state)
    && (forall w', t' :: Has(m', w', t') <==> Has(m, w', t'))
    && (forall w', t' :: Has(m, w', t') && (w' != w || t' != t) ==> SameTask(m, m', w', t'))
  }

  ghost predicate SameTask(m: Model, m': Model, w: string, t: string)
    requires Has(m, w, t) && Has(m', w, t)
  {
    var task := m.workflows[w].tasks[t];
    m'.workflows[w].tasks[t] == task && (HoldsLease(task.state) ==> OwnerOf(m', task) == OwnerOf(m, task))
  }

  function LastEvent(m: Model, kind: R.Kind, w: string, t: string, x: string, attempt: R.Number): R.Event {
    R.Event(|m.events| + 1, kind, w, t, x, m.now, attempt, true)
  }

  lemma TaskEventSim(m: Model, m': Model, o: R.Options, kind: R.Kind, w: string, t: string, x: string,
      attempt: R.Number)
    requires o.workflowFilter == "" && Sim(m, o) && Has(m, w, t) && w != "" && '/' !in w && t != "" && R.TaskEvent(kind)
    requires m'.events == m.events && OnlyTask(m, m', w, t)
    requires var e, task := LastEvent(m, kind, w, t, x, attempt), m'.workflows[w].tasks[t];
      var r := R.TaskOf(R.Replayed(o, m.events).view, w, t);
      && S.TaskLegal(R.Replayed(o, m.events).view, r, e)
      && Shown(task, OwnerOf(m', task), NewRecord(r, e), m.now)
    ensures Sim(Emit(m', kind, w, t, x, attempt), o)
  {
    hide S.TaskLegal, NewRecord, Shown, S.Inv, R.Replayed, R.HandleTask, Hidden, OwnerOf, StreamOk, R.TaskOf, R.HasTask;
    var e := LastEvent(m, kind, w, t, x, attempt);
    var v := R.Replayed(o, m.events).view;
    EnteredSame(v, e);
    EmitAccepted(o, m.events, e);
    var v' := R.Handle(v, e);
    TaskEventRecord(v, e);
    PutTaskRest(v, w, t, NewRecord(R.TaskOf(v, w, t), e), v');
    var after := Emit(m', kind, w, t, x, attempt);
    assert v' == R.Replayed(o, after.events).view;
    forall w', t' | Has(after, w', t') ensures TaskRel(after, v', w', t') {
      assert Has(m', w', t') && Has(m, w', t');
      if w' != w || t' != t {
        assert SameTask(m, m', w', t') && TaskRel(m, v, w', t');
        TaskRelSame(m, m', v, v', w', t');
      }
      assert TaskRel(m', v', w', t');
      SameOwnerAfterEmit(m', after, v', w', t');
    }
    forall w' | w' in after.workflows ensures WorkflowRel(after, v', w') {
      assert WorkflowRel(m, v, w');
    }
  }

  lemma SameOwnerAfterEmit(m: Model, m': Model, v: R.View, w: string, t: string)
    requires m'.workflows == m.workflows && m'.leases == m.leases && m'.now == m.now && Has(m, w, t)
        && TaskRel(m, v, w, t)
    ensures TaskRel(m', v, w, t)
  {
  }

  lemma TaskRelSame(m: Model, m': Model, v: R.View, v': R.View, w: string, t: string)
    requires Has(m, w, t) && Has(m', w, t) && SameTask(m, m', w, t) && m'.now == m.now && TaskRel(m, v, w, t)
    requires R.TaskOf(v', w, t) == R.TaskOf(v, w, t) && R.HasTask(v', w, t) == R.HasTask(v, w, t)
    ensures TaskRel(m', v', w, t)
  {
  }

  // The invariant and the mirror together

  ghost predicate Good(m: Model, o: R.Options) {
    o.workflowFilter == "" && Inv(m) && Sim(m, o)
  }

  /** What is known about the replayed record of a task. */
  ghost predicate RecordOf(task: Task, owner: string, r: R.TaskReplay, now: Time) {
    && (Shown(task, owner, r, now) || (Hidden(task) && r == R.FRESH_TASK))
    && S.LeaseOk(r)
  }

  lemma Record(m: Model, o: R.Options, w: string, t: string)
    requires Good(m, o) && Has(m, w, t)
    ensures RecordOf(m.workflows[w].tasks[t], OwnerOf(m, m.workflows[w].tasks[t]),
        R.TaskOf(R.Replayed(o, m.events).view, w, t), m.now)
    ensures w != "" && '/' !in w && t != "" && TokenOk(m, w, t)
  {
    hide R.Replayed, S.LeaseOk, Shown, Hidden, TokenOk;
    var v := R.Replayed(o, m.events).view;
    assert TaskRel(m, v, w, t);
    assert S.LeaseOk(R.TaskOf(v, w, t));
  }

  lemma OnlyPut(m: Model, w: string, t: string, task: Task)
    requires Has(m, w, t)
    ensures OnlyTask(m, PutTask(m, w, t, task), w, t)
  {
  }

  lemma InvEmit(m: Model, kind: R.Kind, w: string, t: string, x: string, attempt: R.Number)
    requires Inv(m)
    ensures Inv(Emit(m, kind, w, t, x, attempt))
  {
    var m' := Emit(m, kind, w, t, x, attempt);
    assert forall w', t' :: Has(m', w', t') <==> Has(m, w', t');
    forall k | k in m'.leases ensures LeaseOk(m', k) { assert LeaseOk(m, k); }
    forall w', t' | Has(m', w', t') ensures TokenOk(m', w', t') { assert Has(m, w', t'); }
  }

  /** Rewriting a task without a lease, in a workflow that has not succeeded. */
  lemma InvPutTask(m: Model, w: string, t: string, task: Task)
    requires Inv(m) && Has(m, w, t) && m.workflows[w].state != WorkflowSucceeded
    requires !HoldsLease(m.workflows[w].tasks[t].state) && !HoldsLease(task.state) && task.leaseToken == ""
    ensures Inv(PutTask(m, w, t, task))
  {
    hide LeaseOk, TokenOk, HoldsLease;
    var m' := PutTask(m, w, t, task);
    assert forall w', t' :: Has(m', w', t') <==> Has(m, w', t');
    PutKeepsLeases(m, w, t, task);
    PutKeepsTokens(m, w, t, task);
  }

  lemma PutKeepsLeases(m: Model, w: string, t: string, task: Task)
    requires (forall k :: k in m.leases ==> LeaseOk(m, k)) && Has(m, w, t) && !HoldsLease(m.workflows[w].tasks[t].state)
    ensures forall k :: k in m.leases ==> LeaseOk(PutTask(m, w, t, task), k)
  {
    forall k | k in m.leases ensures LeaseOk(PutTask(m, w, t, task), k) { assert LeaseOk(m, k); }
  }

  lemma PutKeepsTokens(m: Model, w: string, t: string, task: Task)
    requires (forall w', t' :: Has(m, w', t') ==> TokenOk(m, w', t')) && Has(m, w, t) && !HoldsLease(task.state)
        && task.leaseToken == ""
    ensures
      forall w', t' :: Has(m, w', t') ==>
        Has(PutTask(m, w, t, task), w', t') && TokenOk(PutTask(m, w, t, task), w', t')
  {
    var m' := PutTask(m, w, t, task);
    forall w', t' | Has(m, w', t') ensures Has(m', w', t') && TokenOk(m', w', t') {
      if w' != w || t' != t { assert TokenOk(m, w', t'); }
    }
  }

  // recompute

  /** A task becomes ready: it was pending and perhaps never mentioned, or it waited for a retry. */
  lemma ReadyLegal(task: Task, owner: string, r: R.TaskReplay, now: Time, e: R.Event, v: R.View, task': Task)
    requires RecordOf(task, owner, r, now) && task.state in {Pending, RetryWait} && e.kind.TaskReady? && e.at == now
    requires task'.state == Ready && task'.attempt == task.attempt
    ensures S.TaskLegal(v, r, e) && Shown(task', "", NewRecord(r, e), now)
  {
  }

  lemma MakeReady(m: Model, o: R.Options, w: string, t: string, task': Task)
    requires Good(m, o) && Has(m, w, t) && !TerminalWorkflow(m.workflows[w].state)
    requires var task := m.workflows[w].tasks[t];
      task.state in {Pending, RetryWait} && task'.state == Ready && task'.attempt == task.attempt
          && task'.leaseToken == task.leaseToken
    ensures Good(Emit(PutTask(m, w, t, task'), R.TaskReady, w, t, "", R.Absent), o)
  {
    hide R.Replayed, Sim, Inv, S.TaskLegal, Shown, NewRecord, OnlyTask;
    var task := m.workflows[w].tasks[t];
    var v := R.Replayed(o, m.events).view;
    Record(m, o, w, t);
    ReadyLegal(task, OwnerOf(m, task), R.TaskOf(v, w, t), m.now, LastEvent(m, R.TaskReady, w, t, "", R.Absent), v,
        task');
    OnlyPut(m, w, t, task');
    var m' := PutTask(m, w, t, task');
    assert "" !in m.leases by { NoEmptyToken(m); }
    assert OwnerOf(m', task') == "";
    TaskEventSim(m, m', o, R.TaskReady, w, t, "", R.Absent);
    InvPutTask(m, w, t, task');
    InvEmit(m', R.TaskReady, w, t, "", R.Absent);
  }

  lemma NoEmptyToken(m: Model)
    requires Inv(m)
    ensures "" !in m.leases
  {
    forall k | k in m.leases ensures k != "" { assert LeaseOk(m, k); }
  }

  /** A change that the trace does not show. */
  lemma SilentSim(m: Model, m': Model, o: R.Options)
    requires Sim(m, o) && m'.events == m.events && m'.workflows.Keys == m.workflows.Keys
    requires forall w :: w in m.workflows ==> m'.workflows[w].state == m.workflows[w].state
    requires forall w, t :: Has(m', w, t) <==> Has(m, w, t)
    requires forall w, t :: Has(m, w, t) ==> Quiet(m, m', w, t)
    requires m'.now >= m.now
    ensures Sim(m', o)
  {
    hide R.Replayed, S.Inv, StreamOk, R.TaskOf, R.HasTask, Shown, Hidden, OwnerOf;
    var v := R.Replayed(o, m.events).view;
    forall w, t | Has(m', w, t) ensures TaskRel(m', v, w, t) {
      assert Quiet(m, m', w, t) && TaskRel(m, v, w, t);
      QuietRel(m, m', v, w, t);
    }
    forall w | w in m'.workflows ensures WorkflowRel(m', v, w) {
      assert WorkflowRel(m, v, w);
    }
  }

  /** State, attempt and owner of a task are as before, or an unmentioned task was cancelled. */
  ghost predicate Quiet(m: Model, m': Model, w: string, t: string)
    requires Has(m, w, t) && Has(m', w, t)
  {
    var task, task' := m.workflows[w].tasks[t], m'.workflows[w].tasks[t];
    && task'.attempt == task.attempt
    && (task'.state == task.state || (task.state == Pending && task'.state == Cancelled))
    && (HoldsLease(task.state) ==> OwnerOf(m', task') == OwnerOf(m, task))
  }

  lemma QuietRel(m: Model, m': Model, v: R.View, w: string, t: string)
    requires Has(m, w, t) && Has(m', w, t) && Quiet(m, m', w, t) && TaskRel(m, v, w, t) && m'.now >= m.now
    ensures TaskRel(m', v, w, t)
  {
  }

  lemma GiveUp(m: Model, o: R.Options, w: string, t: string)
    requires Good(m, o) && Has(m, w, t) && !TerminalWorkflow(m.workflows[w].state)
        && m.workflows[w].tasks[t].state == Pending
    ensures Good(PutTask(m, w, t, m.workflows[w].tasks[t].(state := Cancelled, finished := Some(m.now))), o)
  {
    hide R.Replayed, Sim, Inv;
    var task := m.workflows[w].tasks[t];
    var task' := task.(state := Cancelled, finished := Some(m.now));
    TokenOf(m, w, t);
    InvPutTask(m, w, t, task');
    SilentSim(m, PutTask(m, w, t, task'), o);
  }

  lemma RecomputeTaskGood(m: Model, o: R.Options, w: string, t: string)
    requires Good(m, o) && w in m.workflows && !TerminalWorkflow(m.workflows[w].state)
    ensures Good(RecomputeTask(m, w, t), o)
    ensures w in RecomputeTask(m, w, t).workflows && RecomputeTask(m, w, t).workflows[w].state == m.workflows[w].state
  {
    hide Good, Impossible, Satisfied;
    if t in m.workflows[w].tasks {
      var tasks, task := m.workflows[w].tasks, m.workflows[w].tasks[t];
      if task.state == Pending && Impossible(tasks, task.dependsOn) {
        GiveUp(m, o, w, t);
      } else if task.state == Pending && Satisfied(tasks, task.dependsOn) {
        MakeReady(m, o, w, t, task.(state := Ready));
      } else if task.state == RetryWait && (task.nextRetry == None || task.nextRetry.value <= m.now) {
        MakeReady(m, o, w, t, task.(state := Ready, nextRetry := None, finished := None));
      }
    }
  }

  lemma {:induction false} RecomputeTasksGood(m: Model, o: R.Options, w: string, order: seq<string>, n: nat)
    requires Good(m, o) && w in m.workflows && !TerminalWorkflow(m.workflows[w].state) && n <= |order|
    ensures var m' := RecomputeTasks(m, w, order, n);
      Good(m', o) && m'.workflows[w].state == m.workflows[w].state
  {
    hide Good, RecomputeTask;
    if n > 0 {
      RecomputeTasksGood(m, o, w, order, n - 1);
      RecomputeTaskGood(RecomputeTasks(m, w, order, n - 1), o, w, order[n - 1]);
    }
  }

  // Workflow events

  /** Between `m` and `m'` only the state of one workflow has changed. */
  ghost predicate OnlyState(m: Model, m': Model, w: string, state: WorkflowState) {
    && w in m.workflows && m'.workflows.Keys == m.workflows.Keys && m'.now == m.now && m'.leases == m.leases
    && (forall w' :: w' in m.workflows ==> m'.workflows[w'].tasks == m.workflows[w'].tasks)
    && (forall w' :: w' in m.workflows ==> m'.workflows[w'].state == if w' == w then state else m.workflows[w'].state)
  }

  lemma SameOwner(m: Model, m': Model, task: Task)
    requires m'.leases == m.leases
    ensures OwnerOf(m', task) == OwnerOf(m, task)
  {
  }

  lemma StateEventSim(m: Model, m': Model, o: R.Options, w: string, next: WorkflowState)
    requires Good(m, o) && m'.events == m.events && w in m.workflows && !TerminalWorkflow(m.workflows[w].state)
    requires next in {WorkflowRunning, WorkflowSucceeded, WorkflowFailed} && OnlyState(m, m', w, next)
    ensures Sim(Emit(m', StateEvent(next), w, "", "", R.Absent), o)
  {
    hide R.Replayed, R.Handle, S.Inv, StreamOk, R.TaskOf, R.HasTask, Shown, Hidden, OwnerOf;
    var e := LastEvent(m, StateEvent(next), w, "", "", R.Absent);
    var v := R.Replayed(o, m.events).view;
    assert WorkflowRel(m, v, w) && w != "" && '/' !in w;
    EnteredSame(v, e);
    EmitAccepted(o, m.events, e);
    var v' := R.Handle(v, e);
    var after := Emit(m', StateEvent(next), w, "", "", R.Absent);
    assert v' == R.Replayed(o, after.events).view;
    StateEventView(v, e, next);
    forall w', t' | Has(after, w', t') ensures TaskRel(after, v', w', t') {
      assert Has(m, w', t') && TaskRel(m, v, w', t');
      SameOwner(m, after, m.workflows[w'].tasks[t']);
    }
    forall w' | w' in after.workflows ensures WorkflowRel(after, v', w') {
      assert WorkflowRel(m, v, w');
    }
    forall w', t' | R.HasTask(v', w', t') ensures Has(after, w', t') {
      assert R.HasTask(v, w', t');
    }
  }

  lemma StateEventView(v: R.View, e: R.Event, next: WorkflowState)
    requires e.workflowId in v.workflows && e.kind == StateEvent(next)
        && next in {WorkflowRunning, WorkflowSucceeded, WorkflowFailed}
    ensures var v' := R.Handle(v, e);
      && v'.workflows.Keys == v.workflows.Keys
      && (forall w' :: w' in v.workflows ==> v'.workflows[w'].createdSequence == v.workflows[w'].createdSequence)
      && (forall w' :: w' in v.workflows ==>
            v'.workflows[w'].state == if w' == e.workflowId then R.WorkflowKnown(next) else v.workflows[w'].state)
      && (forall w', t' :: R.HasTask(v', w', t') <==> R.HasTask(v, w', t'))
      && (forall w', t' :: R.TaskOf(v', w', t') == R.TaskOf(v, w', t'))
  {
  }

  lemma CarriesSame(m: Model, m': Model, k: string)
    requires Carries(m, k) && m'.leases == m.leases && m'.workflows.Keys == m.workflows.Keys
    requires forall w :: w in m.workflows ==> m'.workflows[w].tasks == m.workflows[w].tasks
    ensures Carries(m', k) && Has(m, m.leases[k].workflowId, m.leases[k].taskId)
  {
  }

  lemma NextStates(wf: ChaosModel.Workflow)
    requires NextState(wf) != wf.state
    ensures NextState(wf) in {WorkflowRunning, WorkflowSucceeded, WorkflowFailed}
  {
  }

  lemma NextStateInv(m: Model, w: string, wf: ChaosModel.Workflow)
    requires Inv(m) && w in m.workflows && !TerminalWorkflow(m.workflows[w].state)
    requires wf.tasks == m.workflows[w].tasks && wf.state == NextState(m.workflows[w])
    ensures Inv(m.(workflows := m.workflows[w := wf]))
  {
    hide LeaseOk, TokenOk, NextState;
    var m' := m.(workflows := m.workflows[w := wf]);
    assert forall w', t' :: Has(m', w', t') <==> Has(m, w', t');
    NextStateLeases(m, m', w);
    forall w', t' | Has(m', w', t') ensures TokenOk(m', w', t') { SameToken(m, m', w', t'); }
    NextStateSuccess(m.workflows[w]);
  }

  lemma SameToken(m: Model, m': Model, w: string, t: string)
    requires Has(m, w, t) && Has(m', w, t) && m'.workflows[w].tasks[t] == m.workflows[w].tasks[t]
        && m'.leases == m.leases
    ensures TokenOk(m, w, t) <==> TokenOk(m', w, t)
  {
  }

  lemma NextStateSuccess(wf: ChaosModel.Workflow)
    requires !TerminalWorkflow(wf.state)
    ensures NextState(wf) == WorkflowSucceeded ==> forall t :: t in wf.tasks ==> wf.tasks[t].state == Succeeded
  {
  }

  lemma NextStateLeases(m: Model, m': Model, w: string)
    requires (forall k :: k in m.leases ==> LeaseOk(m, k)) && w in m.workflows
        && !TerminalWorkflow(m.workflows[w].state)
    requires w in m'.workflows && m'.workflows == m.workflows[w := m'.workflows[w]] && m'.leases == m.leases
    requires m'.workflows[w].tasks == m.workflows[w].tasks && m'.workflows[w].state == NextState(m.workflows[w])
    ensures forall k :: k in m'.leases ==> LeaseOk(m', k)
  {
    hide Carries;
    forall k | k in m'.leases ensures LeaseOk(m', k) {
      assert LeaseOk(m, k);
      CarriesSame(m, m', k);
    }
  }

  lemma RecomputeStateGood(m: Model, o: R.Options, w: string)
    requires Good(m, o) && w in m.workflows && !TerminalWorkflow(m.workflows[w].state)
    ensures Good(RecomputeState(m, w), o)
  {
    hide Inv, Sim, NextState, StateEvent;
    var wf := m.workflows[w];
    var next := NextState(wf);
    if next != wf.state {
      NextStates(wf);
      var finished := if next == WorkflowRunning then wf.finished else Some(m.now);
      var wf' := wf.(state := next, finished := finished);
      NextStateInv(m, w, wf');
      var m' := m.(workflows := m.workflows[w := wf']);
      StateEventSim(m, m', o, w, next);
      InvEmit(m', StateEvent(next), w, "", "", R.Absent);
    }
  }

  lemma RecomputeGood(m: Model, o: R.Options, w: string)
    requires Good(m, o)
    ensures Good(Recompute(m, w), o)
  {
    hide Good, RecomputeTasks, RecomputeState;
    if w in m.workflows && !TerminalWorkflow(m.workflows[w].state) {
      RecomputeTasksGood(m, o, w, m.workflows[w].order, |m.workflows[w].order|);
      RecomputeStateGood(RecomputeTasks(m, w, m.workflows[w].order, |m.workflows[w].order|), o, w);
    }
  }

  // Events that end a lease

  lemma DropKeeps(m: Model, k: string)
    requires k in m.leases
    ensures var m' := DropLease(m, k); m'.workflows == m.workflows && m'.events == m.events && m'.now == m.now
  {
  }

  lemma CarriedLease(m: Model, k: string)
    requires Carries(m, k)
    ensures k in m.leases
  {
  }

  /** The task of a lease, and its owner. */
  lemma LeaseFacts(m: Model, o: R.Options, k: string)
    requires Good(m, o) && k in m.leases
    ensures var l := m.leases[k];
      && Has(m, l.workflowId, l.taskId) && Carries(m, k) && l.workerId != ""
      && !TerminalWorkflow(m.workflows[l.workflowId].state)
      && var task := m.workflows[l.workflowId].tasks[l.taskId];
      && task.leaseToken == k && OwnerOf(m, task) == l.workerId && HoldsLease(task.state)
      && (l.started <==> task.state == Running)
      && RecordOf(task, l.workerId, R.TaskOf(R.Replayed(o, m.events).view, l.workflowId, l.taskId), m.now)
      && l.workflowId != "" && '/' !in l.workflowId && l.taskId != ""
  {
    hide R.Replayed, Sim, RecordOf;
    assert LeaseOk(m, k);
    Record(m, o, m.leases[k].workflowId, m.leases[k].taskId);
  }

  /** Outside one task, workflows and tasks are as before. */
  ghost predicate Elsewhere(m: Model, m': Model, w: string, t: string) {
    && m'.workflows.Keys == m.workflows.Keys
    && (forall w' :: w' in m.workflows ==> m'.workflows[w'].state == m.workflows[w'].state)
    && (forall w', t' :: Has(m', w', t') <==> Has(m, w', t'))
    && (forall w', t' :: Has(m, w', t') && (w' != w || t' != t) ==>
          m'.workflows[w'].tasks[t'] == m.workflows[w'].tasks[t'])
  }

  lemma PutElsewhere(m: Model, w: string, t: string, task: Task)
    requires Has(m, w, t)
    ensures var m' := PutTask(m, w, t, task);
      && Elsewhere(m, m', w, t) && Has(m', w, t) && m'.workflows[w].tasks[t] == task
      && m'.leases == m.leases && m'.workers == m.workers && m'.events == m.events && m'.now == m.now
  {
  }

  lemma LeaseKept(m: Model, m': Model, w: string, t: string, k: string)
    requires Elsewhere(m, m', w, t) && k in m.leases && k in m'.leases && m'.leases[k] == m.leases[k] && LeaseOk(m, k)
    requires m.leases[k].workflowId != w || m.leases[k].taskId != t
    ensures LeaseOk(m', k)
  {
  }

  lemma TokenKept(m: Model, m': Model, w: string, t: string, w': string, t': string)
    requires Elsewhere(m, m', w, t) && Has(m, w', t') && (w' != w || t' != t) && TokenOk(m, w', t')
    requires
      var k := m.workflows[w'].tasks[t'].leaseToken;
      k in m.leases ==> k in m'.leases && m'.leases[k] == m.leases[k]
    ensures Has(m', w', t') && TokenOk(m', w', t')
  {
  }

  /** The token of a lease is carried by no other task. */
  lemma OtherToken(m: Model, k: string, w: string, t: string)
    requires Inv(m) && k in m.leases && Has(m, w, t) && (m.leases[k].workflowId != w || m.leases[k].taskId != t)
    ensures m.workflows[w].tasks[t].leaseToken != k
  {
    assert LeaseOk(m, k) && TokenOk(m, w, t);
  }

  /** Two leases name two tasks. */
  lemma OtherLease(m: Model, k: string, k': string)
    requires Inv(m) && k in m.leases && k' in m.leases && k' != k
    ensures m.leases[k'].workflowId != m.leases[k].workflowId || m.leases[k'].taskId != m.leases[k].taskId
  {
    assert LeaseOk(m, k) && LeaseOk(m, k');
  }

  lemma SuccessElsewhere(m: Model, m': Model, w: string, t: string)
    requires Inv(m) && Elsewhere(m, m', w, t) && w in m.workflows && m.workflows[w].state != WorkflowSucceeded
    ensures forall w' :: w' in m'.workflows ==> SuccessOk(m'.workflows[w'])
  {
    forall w' | w' in m'.workflows ensures SuccessOk(m'.workflows[w']) {
      assert SuccessOk(m.workflows[w']);
      if m'.workflows[w'].state == WorkflowSucceeded {
        forall t' | t' in m'.workflows[w'].tasks ensures m'.workflows[w'].tasks[t'].state == Succeeded {
          assert Has(m', w', t') && Has(m, w', t');
        }
      }
    }
  }

  lemma IdsElsewhere(m: Model, m': Model, w: string, t: string)
    requires IdsOk(m) && Elsewhere(m, m', w, t) && m'.workers.Keys == m.workers.Keys
    ensures IdsOk(m')
  {
    forall w', t' | Has(m', w', t') ensures t' != "" { assert Has(m, w', t'); }
  }

  lemma LeaseNames(m: Model, k: string)
    requires Inv(m) && k in m.leases
    ensures LeaseOk(m, k) && Has(m, m.leases[k].workflowId, m.leases[k].taskId)
    ensures m.leases[k].workflowId in m.workflows && m.workflows[m.leases[k].workflowId].state != WorkflowSucceeded
    ensures IdsOk(m)
  {
    assert LeaseOk(m, k);
  }

  lemma TokenOf(m: Model, w: string, t: string)
    requires Inv(m) && Has(m, w, t)
    ensures TokenOk(m, w, t)
  {
  }

  lemma GatherInv(m: Model)
    requires IdsOk(m) && (forall w :: w in m.workflows ==> SuccessOk(m.workflows[w]))
    requires forall k :: k in m.leases ==> LeaseOk(m, k)
    requires forall w, t :: Has(m, w, t) ==> TokenOk(m, w, t)
    ensures Inv(m)
  {
  }

  lemma ElsewhereHas(m: Model, m': Model, w: string, t: string)
    requires Elsewhere(m, m', w, t)
    ensures forall w', t' :: Has(m', w', t') <==> Has(m, w', t')
  {
  }

  lemma DropElsewhere(m: Model, k: string, task: Task)
    requires k in m.leases && Has(m, m.leases[k].workflowId, m.leases[k].taskId)
    ensures var w, t := m.leases[k].workflowId, m.leases[k].taskId;
      var m' := PutTask(DropLease(m, k), w, t, task);
      && Elsewhere(m, m', w, t) && Has(m', w, t) && m'.workflows[w].tasks[t] == task
      && m'.leases == m.leases - {k} && m'.workers.Keys == m.workers.Keys && m'.events == m.events && m'.now == m.now
  {
    PutElsewhere(DropLease(m, k), m.leases[k].workflowId, m.leases[k].taskId, task);
  }

  lemma FreeToken(m: Model, w: string, t: string)
    requires Has(m, w, t) && !HoldsLease(m.workflows[w].tasks[t].state) && m.workflows[w].tasks[t].leaseToken == ""
    ensures TokenOk(m, w, t)
  {
  }

  lemma InvDrop(m: Model, k: string, task: Task)
    requires Inv(m) && k in m.leases && !HoldsLease(task.state) && task.leaseToken == ""
    ensures Has(m, m.leases[k].workflowId, m.leases[k].taskId)
    ensures Inv(PutTask(DropLease(m, k), m.leases[k].workflowId, m.leases[k].taskId, task))
  {
    hide *;
    LeaseNames(m, k);
    DropKeeps(m, k);
    var w, t := m.leases[k].workflowId, m.leases[k].taskId;
    var m' := PutTask(DropLease(m, k), w, t, task);
    DropElsewhere(m, k, task);
    ElsewhereHas(m, m', w, t);
    IdsElsewhere(m, m', w, t);
    SuccessElsewhere(m, m', w, t);
    forall k' | k' in m'.leases ensures LeaseOk(m', k') {
      LeaseNames(m, k');
      OtherLease(m, k, k');
      LeaseKept(m, m', w, t, k');
    }
    forall w', t' | Has(m', w', t') ensures TokenOk(m', w', t') {
      if w' != w || t' != t {
        TokenOf(m, w', t');
        OtherToken(m, k, w', t');
        TokenKept(m, m', w, t, w', t');
      } else {
        FreeToken(m', w, t);
      }
    }
    GatherInv(m');
  }

  lemma OnlyElsewhere(m: Model, m': Model, w: string, t: string)
    requires Elsewhere(m, m', w, t) && m'.now == m.now
    requires forall w', t' :: Has(m, w', t') && Has(m', w', t') && (w' != w || t' != t) ==> SameTask(m, m', w', t')
    ensures OnlyTask(m, m', w, t)
  {
  }

  /** A task keeps its owner when another task's lease changes. */
  lemma SameElsewhere(m: Model, m': Model, w: string, t: string, w': string, t': string)
    requires Elsewhere(m, m', w, t) && Has(m, w', t') && Has(m', w', t') && (w' != w || t' != t)
    requires var k := m.workflows[w'].tasks[t'].leaseToken;
      (k in m.leases <==> k in m'.leases) && (k in m.leases ==> m'.leases[k] == m.leases[k])
    ensures SameTask(m, m', w', t')
  {
  }

  lemma OnlyDrop(m: Model, k: string, task: Task)
    requires Inv(m) && k in m.leases
    ensures Has(m, m.leases[k].workflowId, m.leases[k].taskId)
    ensures OnlyTask(m, PutTask(DropLease(m, k), m.leases[k].workflowId, m.leases[k].taskId, task),
        m.leases[k].workflowId, m.leases[k].taskId)
  {
    hide *;
    LeaseNames(m, k);
    DropKeeps(m, k);
    var w, t := m.leases[k].workflowId, m.leases[k].taskId;
    var m' := PutTask(DropLease(m, k), w, t, task);
    DropElsewhere(m, k, task);
    forall w', t' | Has(m, w', t') && Has(m', w', t') && (w' != w || t' != t) ensures SameTask(m, m', w', t') {
      OtherToken(m, k, w', t');
      SameElsewhere(m, m', w, t, w', t');
    }
    OnlyElsewhere(m, m', w, t);
  }

  /** The events that end a lease, with the state they lead to. */
  predicate Ending(kind: R.Kind, from: TaskState, to: TaskState) {
    || (kind.LeaseExpired? && to == Ready && HoldsLease(from))
    || (kind.TaskSuccess? && to == Succeeded && from == Running)
    || (kind.TaskFailure? && to == Failed && from == Running)
    || (kind.TaskRetry? && to == RetryWait && from == Running)
  }

  lemma EndingLegal(task: Task, owner: string, r: R.TaskReplay, now: Time, e: R.Event, v: R.View, task': Task)
    requires RecordOf(task, owner, r, now) && HoldsLease(task.state) && Ending(e.kind, task.state, task'.state)
    requires e.at == now && e.workerId == owner && task'.attempt == task.attempt
    ensures S.TaskLegal(v, r, e) && Shown(task', "", NewRecord(r, e), now)
  {
  }

  lemma EndLease(m: Model, o: R.Options, k: string, task': Task, kind: R.Kind)
    requires Good(m, o) && k in m.leases && Carries(m, k)
    requires var task := m.workflows[m.leases[k].workflowId].tasks[m.leases[k].taskId];
      Ending(kind, task.state, task'.state) && task'.attempt == task.attempt && task'.leaseToken == ""
    ensures var l := m.leases[k];
      Good(Emit(PutTask(DropLease(m, k), l.workflowId, l.taskId, task'), kind, l.workflowId, l.taskId, l.workerId,
          R.Absent), o)
  {
    hide R.Replayed, Sim, Inv, S.TaskLegal, Shown, NewRecord, OnlyTask, DropLease, RecordOf;
    var l := m.leases[k];
    var task := m.workflows[l.workflowId].tasks[l.taskId];
    var v := R.Replayed(o, m.events).view;
    LeaseFacts(m, o, k);
    EndingLegal(task, l.workerId, R.TaskOf(v, l.workflowId, l.taskId), m.now,
      LastEvent(m, kind, l.workflowId, l.taskId, l.workerId, R.Absent), v, task');
    OnlyDrop(m, k, task');
    InvDrop(m, k, task');
    DropKeeps(m, k);
    var m' := PutTask(DropLease(m, k), l.workflowId, l.taskId, task');
    assert OwnerOf(m', task') == "" by { NoEmptyToken(m'); }
    TaskEventSim(m, m', o, kind, l.workflowId, l.taskId, l.workerId, R.Absent);
    InvEmit(m', kind, l.workflowId, l.taskId, l.workerId, R.Absent);
  }

  lemma ExpireGood(m: Model, o: R.Options, k: string)
    requires Good(m, o)
    ensures Good(ExpireLease(m, k), o)
  {
    hide Good, DropLease;
    if k in m.leases && m.leases[k].expires <= m.now {
      LeaseFacts(m, o, k);
      var task := m.workflows[m.leases[k].workflowId].tasks[m.leases[k].taskId];
      EndLease(m, o, k, Reset(Released(task, k)), R.LeaseExpired);
    }
  }

  /** With a start before it, a completion is accepted. */
  lemma SettleGood(m: Model, o: R.Options, k: string, exitCode: int, error: string)
    requires Good(m, o) && Carries(m, k) && m.leases[k].started
    ensures Good(Settle(m, k, exitCode, error), o)
  {
    hide Good, DropLease, Delay;
    LeaseFacts(m, o, k);
    var task := m.workflows[m.leases[k].workflowId].tasks[m.leases[k].taskId];
    EndLease(m, o, k, Completed(m, task, exitCode, error), CompletionState(task, exitCode, error).1);
  }

  // Events of a live lease

  /** Replacing a leased task and its lease, whose owner stays. */
  lemma InvHold(m: Model, k: string, task: Task, lease: Lease)
    requires Inv(m) && Carries(m, k)
    requires task.leaseToken == k && HoldsLease(task.state)
    requires lease.workflowId == m.leases[k].workflowId && lease.taskId == m.leases[k].taskId
    requires lease.workerId == m.leases[k].workerId && (lease.started <==> task.state == Running)
    ensures var m' := PutTask(m, lease.workflowId, lease.taskId, task).(leases := m.leases[k := lease]);
      Inv(m') && OnlyTask(m, m', lease.workflowId, lease.taskId) && OwnerOf(m', task) == lease.workerId
  {
    hide *;
    var w, t := lease.workflowId, lease.taskId;
    CarriedLease(m, k);
    LeaseNames(m, k);
    var m' := PutTask(m, w, t, task).(leases := m.leases[k := lease]);
    HoldElsewhere(m, k, task, lease);
    ElsewhereHas(m, m', w, t);
    IdsElsewhere(m, m', w, t);
    SuccessElsewhere(m, m', w, t);
    forall k' | k' in m'.leases ensures LeaseOk(m', k') {
      if k' != k {
        LeaseNames(m, k');
        OtherLease(m, k, k');
        LeaseKept(m, m', w, t, k');
      }
    }
    forall w', t' | Has(m', w', t') ensures TokenOk(m', w', t') && (w' != w || t' != t ==> SameTask(m, m', w', t')) {
      if w' != w || t' != t {
        TokenOf(m, w', t');
        OtherToken(m, k, w', t');
        TokenKept(m, m', w, t, w', t');
        SameElsewhere(m, m', w, t, w', t');
      }
    }
    GatherInv(m');
    OnlyElsewhere(m, m', w, t);
  }

  lemma HoldElsewhere(m: Model, k: string, task: Task, lease: Lease)
    requires k in m.leases && LeaseOk(m, k) && Has(m, lease.workflowId, lease.taskId)
    requires task.leaseToken == k && HoldsLease(task.state)
    requires lease.workflowId == m.leases[k].workflowId && lease.taskId == m.leases[k].taskId
    requires lease.workerId == m.leases[k].workerId && (lease.started <==> task.state == Running)
    ensures var w, t := lease.workflowId, lease.taskId;
      var m' := PutTask(m, w, t, task).(leases := m.leases[k := lease]);
      && Elsewhere(m, m', w, t) && m'.workers == m.workers && m'.now == m.now
      && LeaseOk(m', k) && Has(m', w, t) && TokenOk(m', w, t) && OwnerOf(m', task) == lease.workerId
  {
    hide PutTask;
    PutElsewhere(m, lease.workflowId, lease.taskId, task);
  }

  lemma StartLegal(task: Task, owner: string, r: R.TaskReplay, now: Time, e: R.Event, v: R.View, task': Task)
    requires RecordOf(task, owner, r, now) && task.state == Leased && e.kind.TaskStarted?
    requires e.at == now && e.workerId == owner && task'.attempt == task.attempt && task'.state == Running
    ensures S.TaskLegal(v, r, e) && Shown(task', owner, NewRecord(r, e), now)
  {
  }

  lemma LogLegal(task: Task, owner: string, r: R.TaskReplay, now: Time, e: R.Event, v: R.View, task': Task)
    requires RecordOf(task, owner, r, now) && HoldsLease(task.state) && e.kind.TaskLog?
    requires task'.attempt == task.attempt && task'.state == task.state
    ensures S.TaskLegal(v, r, e) && Shown(task', owner, NewRecord(r, e), now)
  {
  }

  lemma HoldEvent(m: Model, o: R.Options, k: string, task': Task, lease': Lease, kind: R.Kind)
    requires Good(m, o) && Carries(m, k)
    requires task'.leaseToken == k && lease'.workflowId == m.leases[k].workflowId && lease'.taskId == m.leases[k].taskId
    requires lease'.workerId == m.leases[k].workerId && (lease'.started <==> task'.state == Running)
    requires var task := m.workflows[m.leases[k].workflowId].tasks[m.leases[k].taskId];
      && task'.attempt == task.attempt
      && ((kind.TaskStarted? && task.state == Leased && task'.state == Running)
          || (kind.TaskLog? && task'.state == task.state))
    ensures var m' := PutTask(m, lease'.workflowId, lease'.taskId, task').(leases := m.leases[k := lease']);
      Good(Emit(m', kind, lease'.workflowId, lease'.taskId, lease'.workerId, R.Absent), o)
  {
    hide R.Replayed, Sim, Inv, S.TaskLegal, Shown, NewRecord, OnlyTask, RecordOf, OwnerOf;
    var w, t, x := lease'.workflowId, lease'.taskId, lease'.workerId;
    var task := m.workflows[w].tasks[t];
    var v := R.Replayed(o, m.events).view;
    LeaseFacts(m, o, k);
    var e := LastEvent(m, kind, w, t, x, R.Absent);
    if kind.TaskStarted? {
      StartLegal(task, x, R.TaskOf(v, w, t), m.now, e, v, task');
    } else {
      LogLegal(task, x, R.TaskOf(v, w, t), m.now, e, v, task');
    }
    InvHold(m, k, task', lease');
    var m' := PutTask(m, w, t, task').(leases := m.leases[k := lease']);
    TaskEventSim(m, m', o, kind, w, t, x, R.Absent);
    InvEmit(m', kind, w, t, x, R.Absent);
  }

  lemma RefuseGood(m: Model, o: R.Options, k: string)
    requires Good(m, o) && LeaseRefusal(m, k).Some?
    ensures Good(RefuseLease(m, k).model, o)
  {
    ExpireGood(m, o, k);
  }

  lemma StartGood(m: Model, o: R.Options, k: string)
    requires Good(m, o)
    ensures Good(Start(m, k).model, o)
  {
    hide Good;
    if LeaseRefusal(m, k).Some? {
      RefuseGood(m, o, k);
    } else if Carries(m, k) {
      var l := m.leases[k];
      var task := m.workflows[l.workflowId].tasks[l.taskId];
      if task.state == Leased {
        HoldEvent(m, o, k, task.(state := Running, started := Some(m.now)), l.(started := true), R.TaskStarted);
      }
    }
  }

  lemma LogEvent(m: Model, o: R.Options, k: string, task': Task)
    requires Good(m, o) && Carries(m, k) && task'.leaseToken == k
    requires var l := m.leases[k];
      var task := m.workflows[l.workflowId].tasks[l.taskId];
      task'.attempt == task.attempt && task'.state == task.state && (l.started <==> task.state == Running)
    ensures var l := m.leases[k];
      Good(Emit(PutTask(m, l.workflowId, l.taskId, task'), R.TaskLog, l.workflowId, l.taskId, l.workerId, R.Absent), o)
  {
    hide Good, PutTask;
    var l := m.leases[k];
    HoldEvent(m, o, k, task', l, R.TaskLog);
    PutElsewhere(m, l.workflowId, l.taskId, task');
    var m' := PutTask(m, l.workflowId, l.taskId, task');
    assert m'.(leases := m.leases[k := l]) == m' by { assert m.leases[k := l] == m.leases; }
  }

  lemma LogGood(m: Model, o: R.Options, k: string, size: nat, knownStream: bool)
    requires Good(m, o)
    ensures Good(AppendLog(m, k, size, knownStream).model, o)
  {
    hide Good, PutTask, RecordOf, ExpireLease, OwnerOf, R.TaskOf;
    if LeaseRefusal(m, k).Some? {
      RefuseGood(m, o, k);
    } else {
      LeaseFacts(m, o, k);
      var task := m.workflows[m.leases[k].workflowId].tasks[m.leases[k].taskId];
      LogEvent(m, o, k, task.(outputBytes := task.outputBytes + size));
    }
  }

  lemma RenewGood(m: Model, o: R.Options, k: string)
    requires Good(m, o)
    ensures Good(Renew(m, k).model, o)
  {
    hide R.Replayed, Sim, Inv, RecordOf;
    if LeaseRefusal(m, k).Some? {
      RefuseGood(m, o, k);
    } else if Carries(m, k) {
      LeaseFacts(m, o, k);
      var l := m.leases[k];
      var task := m.workflows[l.workflowId].tasks[l.taskId];
      var until := m.now + m.leaseDuration;
      var task', l' := task.(leaseUntil := Some(until)), l.(expires := until);
      InvHold(m, k, task', l');
      var m' := PutTask(m, l.workflowId, l.taskId, task').(leases := m.leases[k := l']);
      forall w, t | Has(m, w, t) ensures Quiet(m, m', w, t) {
        if w != l.workflowId || t != l.taskId { assert SameTask(m, m', w, t); }
      }
      SilentSim(m, m', o);
    }
  }

  lemma CompleteGood(m: Model, o: R.Options, k: string, exitCode: int, error: string)
    requires Good(m, o) && (k in m.leases && m.leases[k].expires > m.now ==> m.leases[k].started)
    ensures Good(Complete(m, k, exitCode, error).model, o)
  {
    hide Good, Settle, Recompute;
    if LeaseRefusal(m, k).Some? {
      RefuseGood(m, o, k);
    } else if Carries(m, k) {
      SettleGood(m, o, k, exitCode, error);
      RecomputeGood(Settle(m, k, exitCode, error), o, m.leases[k].workflowId);
    }
  }

  // Granting a lease

  lemma GrantElsewhere(m: Model, x: string, w: string, t: string, token: string)
    requires Has(m, w, t) && x in m.workers && x != "" && token != "" && token !in m.leases
        && !TerminalWorkflow(m.workflows[w].state)
    ensures var m' := Grant(m, x, w, t, token);
      && Elsewhere(m, m', w, t) && m'.workers.Keys == m.workers.Keys && m'.now == m.now && Has(m', w, t)
      && m'.leases == m.leases[token := m'.leases[token]] && LeaseOk(m', token) && TokenOk(m', w, t)
      && OwnerOf(m', m'.workflows[w].tasks[t]) == x
  {
  }

  lemma GrantInv(m: Model, x: string, w: string, t: string, token: string)
    requires Inv(m) && Candidate(m, x, w, t) && x != "" && token != "" && token !in m.leases
    ensures Inv(Grant(m, x, w, t, token)) && OnlyTask(m, Grant(m, x, w, t, token), w, t)
  {
    hide *;
    CandidateFacts(m, x, w, t);
    var m' := Grant(m, x, w, t, token);
    GrantElsewhere(m, x, w, t, token);
    ElsewhereHas(m, m', w, t);
    IdsElsewhere(m, m', w, t);
    SuccessElsewhere(m, m', w, t);
    forall k | k in m'.leases ensures LeaseOk(m', k) {
      if k != token {
        LeaseNames(m, k);
        ReadyIsFree(m, w, t, k);
        LeaseKept(m, m', w, t, k);
      }
    }
    forall w', t' | Has(m', w', t') ensures TokenOk(m', w', t') && (w' != w || t' != t ==> SameTask(m, m', w', t')) {
      if w' != w || t' != t {
        TokenOf(m, w', t');
        FreshToken(m, w', t', token);
        TokenKept(m, m', w, t, w', t');
        SameElsewhere(m, m', w, t, w', t');
      }
    }
    GatherInv(m');
    OnlyElsewhere(m, m', w, t);
  }

  lemma ReadyIsFree(m: Model, w: string, t: string, k: string)
    requires Inv(m) && Has(m, w, t) && m.workflows[w].tasks[t].state == Ready && k in m.leases
    ensures m.leases[k].workflowId != w || m.leases[k].taskId != t
  {
    assert LeaseOk(m, k);
  }

  lemma FreshToken(m: Model, w: string, t: string, token: string)
    requires Inv(m) && Has(m, w, t) && token != "" && token !in m.leases
    ensures m.workflows[w].tasks[t].leaseToken != token
  {
    assert TokenOk(m, w, t);
  }

  lemma GrantLegal(task: Task, owner: string, r: R.TaskReplay, now: Time, e: R.Event, v: R.View, task': Task)
    requires RecordOf(task, owner, r, now) && task.state == Ready && e.kind.TaskLeased? && e.workerId != ""
    requires e.at == now && e.attempt == R.Number(task.attempt + 1) && task'.state == Leased
        && task'.attempt == task.attempt + 1
    requires R.Key(e.workflowId, e.taskId) !in R.WorkerOf(v, e.workerId).activeTasks
    ensures S.TaskLegal(v, r, e) && Shown(task', e.workerId, NewRecord(r, e), now)
  {
  }

  /** The worker does not list a task that nobody owns. */
  lemma NotListed(v: R.View, w: string, t: string, x: string)
    requires S.Inv(v) && '/' !in w && R.TaskOf(v, w, t).lease == None
    ensures R.Key(w, t) !in R.WorkerOf(v, x).activeTasks
  {
    S.KeyOwner(v, w, t);
    assert S.Active(v, x, R.Key(w, t)) <==> S.Owns(v, x, w, t);
  }

  lemma ReadyRecord(task: Task, owner: string, r: R.TaskReplay, now: Time)
    requires RecordOf(task, owner, r, now) && task.state == Ready
    ensures r.lease == None
  {
  }

  lemma CandidateFacts(m: Model, x: string, w: string, t: string)
    requires Inv(m) && Candidate(m, x, w, t)
    ensures x in m.workers && x != "" && w in m.workflows && Has(m, w, t) && m.workflows[w].tasks[t].state == Ready
    ensures !TerminalWorkflow(m.workflows[w].state) && m.workflows[w].state != WorkflowSucceeded && IdsOk(m)
  {
  }

  lemma GrantShape(m: Model, x: string, w: string, t: string, token: string)
    requires Has(m, w, t) && x in m.workers && OnlyTask(m, Grant(m, x, w, t, token), w, t)
    ensures var m' := Grant(m, x, w, t, token);
      var before := m'.(events := m.events);
      && OnlyTask(m, before, w, t)
      && w in m'.workflows && t in m'.workflows[w].tasks
      && OwnerOf(before, m'.workflows[w].tasks[t]) == OwnerOf(m', m'.workflows[w].tasks[t])
      && m'.workflows[w].tasks[t].state == Leased && m'.workflows[w].tasks[t].attempt == m.workflows[w].tasks[t].attempt
          + 1
      && Emit(before, R.TaskLeased, w, t, x, R.Number(m.workflows[w].tasks[t].attempt + 1)) == m'
  {
  }

  lemma GoodParts(m: Model, o: R.Options)
    requires Good(m, o)
    ensures o.workflowFilter == "" && Inv(m) && Sim(m, o) && S.Inv(R.Replayed(o, m.events).view)
  {
  }

  lemma GoodFrom(m: Model, o: R.Options)
    requires o.workflowFilter == "" && Inv(m) && Sim(m, o)
    ensures Good(m, o)
  {
  }

  lemma LeasedEvent(m: Model, w: string, t: string, x: string, attempt: R.Number)
    ensures var e := LastEvent(m, R.TaskLeased, w, t, x, attempt);
      && e.workflowId == w && e.taskId == t && e.workerId == x && e.kind.TaskLeased? && e.at == m.now
      && e.attempt == attempt
      && R.TaskEvent(R.TaskLeased)
  {
  }

  lemma GrantGood(m: Model, o: R.Options, x: string, w: string, t: string, token: string)
    requires Good(m, o) && Candidate(m, x, w, t) && token != "" && token !in m.leases
    ensures Good(Grant(m, x, w, t, token), o)
  {
    hide *;
    GoodParts(m, o);
    CandidateFacts(m, x, w, t);
    var task := m.workflows[w].tasks[t];
    var v := R.Replayed(o, m.events).view;
    Record(m, o, w, t);
    var e := LastEvent(m, R.TaskLeased, w, t, x, R.Number(task.attempt + 1));
    ReadyRecord(task, OwnerOf(m, task), R.TaskOf(v, w, t), m.now);
    NotListed(v, w, t, x);
    GrantElsewhere(m, x, w, t, token);
    GrantInv(m, x, w, t, token);
    GrantShape(m, x, w, t, token);
    var m' := Grant(m, x, w, t, token);
    LeasedEvent(m, w, t, x, R.Number(task.attempt + 1));
    GrantLegal(task, OwnerOf(m, task), R.TaskOf(v, w, t), m.now, e, v, m'.workflows[w].tasks[t]);
    TaskEventSim(m, m'.(events := m.events), o, R.TaskLeased, w, t, x, R.Number(task.attempt + 1));
    GoodFrom(m', o);
  }

  // The operations without a task

  /** The workflows, and who owns what, are as before. */
  ghost predicate SameWork(m: Model, m': Model) {
    m'.workflows == m.workflows && m'.leases == m.leases && m'.now >= m.now
  }

  lemma SameWorkInv(m: Model, m': Model)
    requires Inv(m) && SameWork(m, m') && forall x :: x in m'.workers ==> x != ""
    ensures Inv(m')
  {
    assert forall w, t :: Has(m', w, t) <==> Has(m, w, t);
    forall k | k in m'.leases ensures LeaseOk(m', k) { assert LeaseOk(m, k); }
    forall w, t | Has(m', w, t) ensures TokenOk(m', w, t) { assert TokenOk(m, w, t); }
  }

  lemma SameWorkMirrored(m: Model, m': Model, v: R.View, v': R.View)
    requires Mirrored(m, v) && SameWork(m, m') && v'.workflows == v.workflows
    ensures Mirrored(m', v')
  {
    hide Shown, Hidden;
    forall w, t | Has(m', w, t) ensures TaskRel(m', v', w, t) {
      assert Has(m, w, t) && TaskRel(m, v, w, t);
      assert R.HasTask(v', w, t) == R.HasTask(v, w, t) && R.TaskOf(v', w, t) == R.TaskOf(v, w, t);
      LaterShown(m, m', v, w, t);
    }
    forall w | w in m'.workflows ensures WorkflowRel(m', v', w) { assert WorkflowRel(m, v, w); }
    forall w, t | R.HasTask(v', w, t) ensures Has(m', w, t) { assert R.HasTask(v, w, t); }
  }

  lemma LaterShown(m: Model, m': Model, v: R.View, w: string, t: string)
    requires SameWork(m, m') && Has(m, w, t) && Has(m', w, t) && TaskRel(m, v, w, t)
    ensures TaskRel(m', v, w, t)
  {
  }

  lemma WorkerEventGood(m: Model, m': Model, o: R.Options, kind: R.Kind, x: string)
    requires Good(m, o) && SameWork(m, m') && m'.events == m.events && m'.now == m.now && x != ""
    requires forall y :: y in m'.workers ==> y != ""
    requires kind.WorkerRegistered? || kind.WorkerHeartbeat?
    ensures Good(Emit(m', kind, "", "", x, R.Absent), o)
  {
    hide R.Replayed, S.Inv, StreamOk, Mirrored, Inv;
    var e := LastEvent(m, kind, "", "", x, R.Absent);
    var v := R.Replayed(o, m.events).view;
    EnteredSame(v, e);
    EmitAccepted(o, m.events, e);
    var after := Emit(m', kind, "", "", x, R.Absent);
    SameWorkMirrored(m, after, v, R.Replayed(o, after.events).view);
    SameWorkInv(m, after);
  }

  lemma QuietGood(m: Model, m': Model, o: R.Options)
    requires Good(m, o) && SameWork(m, m') && m'.events == m.events && forall y :: y in m'.workers ==> y != ""
    ensures Good(m', o)
  {
    hide R.Replayed, S.Inv, StreamOk, Mirrored, Inv;
    SameWorkMirrored(m, m', R.Replayed(o, m.events).view, R.Replayed(o, m.events).view);
    SameWorkInv(m, m');
  }

  // Cancelling a workflow

  lemma CancelEventView(v: R.View, e: R.Event)
    requires e.workflowId in v.workflows && e.kind.WorkflowCancel?
    ensures var v', w := R.Handle(v, e), e.workflowId;
      && v'.workflows.Keys == v.workflows.Keys
      && (forall w' :: w' in v.workflows ==> v'.workflows[w'].createdSequence == v.workflows[w'].createdSequence)
      && (forall w' :: w' in v.workflows ==>
            v'.workflows[w'].state == if w' == w then R.WorkflowKnown(WorkflowCancelled) else v.workflows[w'].state)
      && (forall w', t' :: R.HasTask(v', w', t') <==> R.HasTask(v, w', t'))
      && (forall w', t' :: w' != w ==> R.TaskOf(v', w', t') == R.TaskOf(v, w', t'))
      && (forall t' :: R.HasTask(v, w, t') ==> R.TaskOf(v', w, t') == R.CancelledTask(R.TaskOf(v, w, t'), e.at))
  {
    hide R.CancelledTask;
    assert R.Handle(v, e).workflows == R.End(R.CancelAll(v, e.workflowId, e.at), e.workflowId,
        WorkflowCancelled).workflows;
  }

  lemma CancelledShown(task: Task, owner: string, r: R.TaskReplay, now: Time)
    requires RecordOf(task, owner, r, now) && Shown(task, owner, r, now)
    ensures Shown(CancelledRecord(task, now), "", R.CancelledTask(r, now), now)
  {
  }

  /** What cancelling a workflow does to tasks and leases. */
  ghost predicate CancelFacts(m: Model, m': Model, w: string)
    requires w in m.workflows
  {
    && m'.workflows.Keys == m.workflows.Keys && m'.now == m.now && m'.workers.Keys == m.workers.Keys
    && (forall w' :: w' in m.workflows ==> m'.workflows[w'].state == if w' == w then WorkflowCancelled
        else m.workflows[w'].state)
    && (forall w', t' :: Has(m', w', t') <==> Has(m, w', t'))
    && (forall w', t' :: Has(m, w', t') ==>
          m'.workflows[w'].tasks[t'] == if w' == w then CancelledRecord(m.workflows[w].tasks[t'], m.now)
              else m.workflows[w'].tasks[t'])
    && m'.leases == m.leases - HeldTokens(m, w)
  }

  lemma CancelShape(m: Model, w: string)
    requires Inv(m) && w in m.workflows
    ensures CancelFacts(m, CancelledModel(m, w), w) && CancelledModel(m, w).events == m.events
  {
  }

  lemma LeaseSurvives(m: Model, m': Model, w: string, k: string)
    requires w in m.workflows && CancelFacts(m, m', w) && k in m.leases && k in m'.leases && LeaseOk(m, k)
        && m.leases[k].workflowId != w
    ensures LeaseOk(m', k)
  {
  }

  lemma TokenSurvives(m: Model, m': Model, w: string, w': string, t': string)
    requires w in m.workflows && CancelFacts(m, m', w) && Has(m, w', t') && Has(m', w', t') && TokenOk(m, w', t')
    requires
      var k := m.workflows[w'].tasks[t'].leaseToken;
      k in m.leases && m.leases[k].workflowId != w ==> k in m'.leases
    ensures TokenOk(m', w', t')
  {
    hide HeldTokens;
  }

  lemma SuccessSurvives(m: Model, m': Model, w: string, w': string)
    requires w in m.workflows && CancelFacts(m, m', w) && w' in m.workflows && SuccessOk(m.workflows[w'])
    ensures SuccessOk(m'.workflows[w'])
  {
    hide HeldTokens;
    if w' != w {
      forall t' | t' in m'.workflows[w'].tasks
        ensures t' in m.workflows[w'].tasks && m'.workflows[w'].tasks[t'] == m.workflows[w'].tasks[t']
      {
        assert Has(m', w', t') && Has(m, w', t');
      }
    }
  }

  /** The held tokens are those of the leases of the workflow. */
  lemma HeldByWorkflow(m: Model, w: string, k: string)
    requires Inv(m) && w in m.workflows && k in m.leases
    ensures k in HeldTokens(m, w) <==> m.leases[k].workflowId == w
  {
    assert LeaseOk(m, k);
    if m.leases[k].workflowId == w {
      assert m.workflows[w].tasks[m.leases[k].taskId].leaseToken == k;
    }
    if k in HeldTokens(m, w) {
      var t :| t in m.workflows[w].tasks && m.workflows[w].tasks[t].leaseToken == k;
      assert Has(m, w, t) && TokenOk(m, w, t);
    }
  }

  lemma CancelInv(m: Model, w: string)
    requires Inv(m) && w in m.workflows
    ensures Inv(CancelledModel(m, w))
  {
    hide CancelledModel, HeldTokens, LeaseOk, TokenOk, SuccessOk;
    var m' := CancelledModel(m, w);
    CancelShape(m, w);
    forall k | k in m'.leases ensures LeaseOk(m', k) {
      HeldByWorkflow(m, w, k);
      LeaseSurvives(m, m', w, k);
    }
    forall w', t' | Has(m', w', t') ensures TokenOk(m', w', t') {
      var k := m.workflows[w'].tasks[t'].leaseToken;
      if k in m.leases { HeldByWorkflow(m, w, k); }
      TokenSurvives(m, m', w, w', t');
    }
    forall w' | w' in m'.workflows ensures SuccessOk(m'.workflows[w']) { SuccessSurvives(m, m', w, w'); }
  }

  lemma CancelRel(m: Model, o: R.Options, w: string, m': Model, v': R.View, w': string, t': string)
    requires Good(m, o) && w in m.workflows && !TerminalWorkflow(m.workflows[w].state)
    requires m'.workflows == CancelledModel(m, w).workflows && m'.leases == CancelledModel(m, w).leases
        && m'.now == m.now
    requires Has(m, w', t') && Has(m', w', t')
    requires var v := R.Replayed(o, m.events).view;
      && R.HasTask(v', w', t') == R.HasTask(v, w', t')
      && (w' != w ==> R.TaskOf(v', w', t') == R.TaskOf(v, w', t'))
      && (w' == w && R.HasTask(v, w', t') ==> R.TaskOf(v', w, t') == R.CancelledTask(R.TaskOf(v, w, t'), m.now))
    ensures TaskRel(m', v', w', t')
  {
    hide CancelledModel, HeldTokens, R.Replayed, R.CancelledTask, Shown, R.TaskOf, R.HasTask, RecordOf;
    var v := R.Replayed(o, m.events).view;
    var task := m.workflows[w'].tasks[t'];
    CancelShape(m, w);
    Record(m, o, w', t');
    assert TaskRel(m, v, w', t');
    if w' == w {
      if R.HasTask(v, w, t') { CancelledShown(task, OwnerOf(m, task), R.TaskOf(v, w, t'), m.now); }
      CancelledHoldsNothing(task, OwnerOf(m', m'.workflows[w].tasks[t']), v', w, t', m.now);
    } else if HoldsLease(task.state) {
      HeldByWorkflow(m, w, task.leaseToken);
    } else {
      AnyOwner(task, OwnerOf(m, task), OwnerOf(m', task), R.TaskOf(v, w', t'), m.now);
    }
  }

  lemma AnyOwner(task: Task, owner: string, owner': string, r: R.TaskReplay, now: Time)
    requires !HoldsLease(task.state)
    ensures Shown(task, owner, r, now) <==> Shown(task, owner', r, now)
  {
  }

  lemma CancelledHoldsNothing(task: Task, owner: string, v: R.View, w: string, t: string, now: Time)
    ensures !HoldsLease(CancelledRecord(task, now).state)
    ensures Shown(CancelledRecord(task, now), owner, R.TaskOf(v, w, t), now)
        <==> Shown(CancelledRecord(task, now), "", R.TaskOf(v, w, t), now)
    ensures Hidden(task) ==> Hidden(CancelledRecord(task, now))
  {
  }

  lemma CancelGood(m: Model, o: R.Options, w: string)
    requires Good(m, o)
    ensures Good(CancelWorkflow(m, w).model, o)
  {
    if w in m.workflows && !TerminalWorkflow(m.workflows[w].state) {
      CancelSim(m, o, w);
      CancelInv(m, w);
      InvEmit(CancelledModel(m, w), R.WorkflowCancel, w, "", "", R.Absent);
    }
  }

  lemma CancelSim(m: Model, o: R.Options, w: string)
    requires Good(m, o) && w in m.workflows && !TerminalWorkflow(m.workflows[w].state)
    ensures Sim(Emit(CancelledModel(m, w), R.WorkflowCancel, w, "", "", R.Absent), o)
  {
    hide R.Replayed, S.Inv, StreamOk, R.TaskOf, R.HasTask, TaskRel, CancelledModel, R.Handle, R.CancelledTask;
    var m' := CancelledModel(m, w);
    var after := Emit(m', R.WorkflowCancel, w, "", "", R.Absent);
    var e := LastEvent(m, R.WorkflowCancel, w, "", "", R.Absent);
    var v := R.Replayed(o, m.events).view;
    CancelShape(m, w);
    assert WorkflowRel(m, v, w) && w != "" && '/' !in w;
    EnteredSame(v, e);
    EmitAccepted(o, m.events, e);
    var v' := R.Handle(v, e);
    assert v' == R.Replayed(o, after.events).view;
    CancelEventView(v, e);
    forall w', t' | Has(after, w', t') ensures TaskRel(after, v', w', t') {
      assert Has(m', w', t') && Has(m, w', t');
      CancelRel(m, o, w, after, v', w', t');
    }
    forall w' | w' in after.workflows ensures WorkflowRel(after, v', w') { assert WorkflowRel(m, v, w'); }
    forall w', t' | R.HasTask(v', w', t') ensures Has(after, w', t') { assert R.HasTask(v, w', t') && Has(m', w', t'); }
  }
}
