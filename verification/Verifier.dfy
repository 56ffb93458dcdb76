/** The `Verifier` object: one handler per event type, each updating the replayed state in place. */
module Verifier {
  import opened Runtime
  import opened Replay

  /** The state after some findings have been reported and the view has become `v`. */
  function Outcome(s: State, o: Options, v: View, problems: seq<Problem>, e: Event): State {
    ReportAll(s.(view := v), o.maxFindings, problems, e.workflowId, e.taskId)
  }

  lemma {:induction false} ReportView(s: State, max: nat, problems: seq<Problem>, w: string, t: string, v: View)
    ensures ReportAll(s.(view := v), max, problems, w, t) == ReportAll(s, max, problems, w, t).(view := v)
  {
    if problems != [] { ReportView(s, max, problems[..|problems| - 1], w, t, v); }
  }

  lemma OutcomeView(s: State, o: Options, v: View, problems: seq<Problem>, e: Event, v': View)
    ensures Outcome(s, o, v, problems, e).(view := v') == Outcome(s, o, v', problems, e)
    ensures Outcome(s, o, v, problems, e).view == v
  {
    ReportView(s, o.maxFindings, problems, e.workflowId, e.taskId, v);
    ReportView(s, o.maxFindings, problems, e.workflowId, e.taskId, v');
  }

  /** The end of a workflow, as the handlers treat it. */
  lemma EndHandling(v: View, e: Event, terminal: WorkflowState)
    requires (e.kind.WorkflowSuccess? && terminal == WorkflowSucceeded)
        || (e.kind.WorkflowFailure? && terminal == WorkflowFailed)
      || (e.kind.WorkflowCancel? && terminal == WorkflowCancelled)
    ensures Problems(v, e) == EndProblems(WorkflowOf(v, e.workflowId).state, terminal)
    ensures
      var v' := if terminal == WorkflowCancelled then CancelAll(v, e.workflowId, e.at) else v;
      Handle(v, e) == PutWorkflow(v', e.workflowId, WorkflowOf(v', e.workflowId).(state := WorkflowKnown(terminal)))
  {
    hide CancelAll, EndProblems;
  }

  lemma OutcomeIsReport(s: State, o: Options, problems: seq<Problem>, e: Event)
    ensures Outcome(s, o, s.view, problems, e) == ReportAll(s, o.maxFindings, problems, e.workflowId, e.taskId)
  {
  }

  lemma OutcomeReport(s: State, o: Options, v: View, problems: seq<Problem>, e: Event, p: Problem)
    ensures Report(Outcome(s, o, v, problems, e), o.maxFindings, p, e.workflowId, e.taskId)
         == Outcome(s, o, v, problems + [p], e)
  {
    var more := problems + [p];
    assert more[..|more| - 1] == problems;
  }

  lemma SameTransition(a: TaskReplay, b: TaskReplay, next: TaskState)
    requires a.state == b.state
    ensures TransitionProblems(a, next) == TransitionProblems(b, next)
  {
  }

  lemma PutTaskWorkers(v: View, w: string, t: string, task: TaskReplay)
    ensures PutTask(v, w, t, task).workers == v.workers
  {
  }

  class Verifier {
    const options: Options
    var workflows: map<string, WorkflowReplay>
    var workers: map<string, WorkerReplay>
    var findings: seq<Finding>
    var errors: nat
    var warnings: nat
    var infos: nat
    var observedSequences: set<int>
    var previousSequence: int
    var previousTimestamp: Option<Time>
    var ignoredEvents: nat

    constructor (options: Options)
      ensures this.options == options && State() == START
    {
      this.options := options;
      workflows, workers, findings, errors, warnings, infos := map[], map[], [], 0, 0, 0;
      observedSequences, previousSequence, previousTimestamp, ignoredEvents := {}, 0, None, 0;
    }

    ghost function View(): View
      reads this
    {
      Replay.View(workflows, workers)
    }

    ghost function State(): State
      reads this
    {
      Replay.State(View(), observedSequences, previousSequence, previousTimestamp, ignoredEvents, errors, warnings,
          infos, findings)
    }

    /** Since `s`, the view has become `v` and `problems` have been reported. */
    ghost predicate Reached(s: State, v: View, problems: seq<Problem>, e: Event)
      reads this
    {
      State() == Outcome(s, options, v, problems, e)
    }

    method Note(e: Event, severity: Severity, code: Code, ghost s: State, ghost v: View, ghost problems: seq<Problem>)
      requires Reached(s, v, problems, e)
      modifies this`errors, this`warnings, this`infos, this`findings
      ensures Reached(s, v, problems + [Problem(severity, code)], e)
    {
      OutcomeReport(s, options, v, problems, e, Problem(severity, code));
      if severity == Error { errors := errors + 1; }
      if severity == Warning { warnings := warnings + 1; }
      if severity == Info { infos := infos + 1; }
      if |findings| < options.maxFindings {
        findings := findings + [Finding(Problem(severity, code), e.workflowId, e.taskId)];
      }
    }

    /** Reports unless all is well. */
    method Check(bad: bool, e: Event, severity: Severity, code: Code, ghost s: State, ghost v: View,
        ghost problems: seq<Problem>)
      requires Reached(s, v, problems, e)
      modifies this`errors, this`warnings, this`infos, this`findings
      ensures Reached(s, v, problems + When(bad, severity, code), e)
    {
      if bad {
        Note(e, severity, code, s, v, problems);
      } else {
        assert problems + [] == problems;
      }
    }

    method SetTask(e: Event, task: TaskReplay, ghost s: State, ghost v: View, ghost problems: seq<Problem>)
      requires Reached(s, v, problems, e)
      modifies this`workflows
      ensures Reached(s, PutTask(v, e.workflowId, e.taskId, task), problems, e)
    {
      OutcomeView(s, options, v, problems, e, PutTask(v, e.workflowId, e.taskId, task));
      var workflow := if e.workflowId in workflows then workflows[e.workflowId] else FRESH_WORKFLOW;
      workflows := workflows[e.workflowId := workflow.(tasks := workflow.tasks[e.taskId := task])];
    }

    method SetWorkflow(e: Event, replay: WorkflowReplay, ghost s: State, ghost v: View, ghost problems: seq<Problem>)
      requires Reached(s, v, problems, e)
      modifies this`workflows
      ensures Reached(s, PutWorkflow(v, e.workflowId, replay), problems, e)
    {
      OutcomeView(s, options, v, problems, e, PutWorkflow(v, e.workflowId, replay));
      workflows := workflows[e.workflowId := replay];
    }

    method SetWorker(x: string, worker: WorkerReplay, e: Event, ghost s: State, ghost v: View,
        ghost problems: seq<Problem>)
      requires Reached(s, v, problems, e)
      modifies this`workers
      ensures Reached(s, PutWorker(v, x, worker), problems, e)
    {
      OutcomeView(s, options, v, problems, e, PutWorker(v, x, worker));
      workers := workers[x := worker];
    }

    /** `workers.computeIfAbsent`. */
    method WorkerFor(x: string) returns (worker: WorkerReplay)
      ensures worker == WorkerOf(View(), x)
    {
      worker := if x in workers then workers[x] else FRESH_WORKER;
    }

    method TouchWorker(e: Event, ghost s: State, ghost v: View, ghost problems: seq<Problem>)
      requires Reached(s, v, problems, e)
      modifies this`workers
      ensures Reached(s, Touch(v, e.workerId), problems, e)
    {
      OutcomeView(s, options, v, problems, e, v);
      if e.workerId != "" {
        var worker := WorkerFor(e.workerId);
        SetWorker(e.workerId, worker, e, s, v, problems);
      }
    }

    method RequireTask(e: Event, ghost s: State) returns (task: TaskReplay)
      requires State() == s
      modifies this`errors, this`warnings, this`infos, this`findings
      ensures task == TaskOf(s.view, e.workflowId, e.taskId)
      ensures Reached(s, s.view, RequireTaskProblems(e), e)
    {
      assert Reached(s, s.view, [], e);
      Check(e.workflowId == "", e, Error, TaskEventWithoutWorkflow, s, s.view, []);
      Check(e.taskId == "", e, Error, TaskEventWithoutTask, s, s.view,
          [] + When(e.workflowId == "", Error, TaskEventWithoutWorkflow));
      assert [] + When(e.workflowId == "", Error, TaskEventWithoutWorkflow)
          == When(e.workflowId == "", Error, TaskEventWithoutWorkflow);
      task := FRESH_TASK;
      if e.workflowId in workflows && e.taskId in workflows[e.workflowId].tasks {
        task := workflows[e.workflowId].tasks[e.taskId];
      }
    }

    /** `transition`, storing the record. */
    method Move(task: TaskReplay, next: TaskState, e: Event, ghost s: State, ghost v: View,
        ghost problems: seq<Problem>)
      requires Reached(s, v, problems, e)
      modifies this`workflows, this`errors, this`warnings, this`infos, this`findings
      ensures Reached(s, PutTask(v, e.workflowId, e.taskId, Moved(task, next, e.at)),
          problems + TransitionProblems(task, next), e)
    {
      if task.state == Known(next) {
        Note(e, Warning, TaskDuplicateState, s, v, problems);
        SetTask(e, task, s, v, problems + TransitionProblems(task, next));
        return;
      }
      Check(!TransitionAllowed(task.state, next), e, Error, TaskInvalidTransition, s, v, problems);
      var moved := task.(state := Known(next));
      if next == Running && moved.startedAt == None { moved := moved.(startedAt := Some(e.at)); }
      if TerminalTask(next) { moved := moved.(finishedAt := Some(e.at)); }
      SetTask(e, moved, s, v, problems + TransitionProblems(task, next));
    }

    /** `releaseLease` on the side of the worker. */
    method Release(task: TaskReplay, e: Event, ghost s: State, ghost v: View, ghost problems: seq<Problem>)
      requires Reached(s, v, problems, e)
      modifies this`workers
      ensures Reached(s, Freed(v, task, e), problems, e)
    {
      OutcomeView(s, options, v, problems, e, v);
      var x := if task.lease.Some? then task.lease.value.workerId else e.workerId;
      if x != "" {
        var worker := WorkerFor(x);
        SetWorker(x, worker.(activeTasks := worker.activeTasks - {Key(e.workflowId, e.taskId)}), e, s, v, problems);
      }
    }

    /** What a handler for task events must achieve. */
    ghost predicate TaskHandled(s: State, e: Event)
      reads this
    {
      var task := TaskOf(s.view, e.workflowId, e.taskId);
      Reached(s, HandleTask(s.view, task, e), RequireTaskProblems(e) + TaskProblems(s.view, task, e), e)
    }

    method TaskState(e: Event)
      requires e.kind.TaskReady?
      modifies this`workflows, this`errors, this`warnings, this`infos, this`findings
      ensures TaskHandled(old(State()), e)
    {
      hide Outcome, TransitionProblems, Moved, PutTask, TaskOf, When, RequireTaskProblems;
      ghost var s := State();
      var task := RequireTask(e, s);
      ghost var p0 := RequireTaskProblems(e);
      Check(task.lease.Some?, e, Error, TaskReadyWithActiveLease, s, s.view, p0);
      ghost var p1 := p0 + When(task.lease.Some?, Error, TaskReadyWithActiveLease);
      if task.state == Known(Ready) && task.lease == None {
        SetTask(e, task, s, s.view, p1);
        assert p1 == p0 + (When(task.lease.Some?, Error, TaskReadyWithActiveLease) + []);
        return;
      }
      Move(task, Ready, e, s, s.view, p1);
      assert p1 + TransitionProblems(task, Ready)
          == p0 + (When(task.lease.Some?, Error, TaskReadyWithActiveLease) + TransitionProblems(task, Ready));
    }

    method TaskLeased(e: Event)
      requires e.kind.TaskLeased?
      modifies this`workflows, this`workers, this`errors, this`warnings, this`infos, this`findings
      ensures TaskHandled(old(State()), e)
    {
      hide Outcome, TransitionProblems, Moved, PutTask, PutWorker, TaskOf, WorkerOf, When, RequireTaskProblems, Key;
      ghost var s := State();
      ghost var v := s.view;
      var task := RequireTask(e, s);
      ghost var p0 := RequireTaskProblems(e);
      Check(task.lease.Some?, e, Error, OverlappingTaskLease, s, v, p0);
      ghost var p1 := p0 + When(task.lease.Some?, Error, OverlappingTaskLease);
      Check(e.workerId == "", e, Error, LeaseWithoutWorker, s, v, p1);
      ghost var p2 := p1 + When(e.workerId == "", Error, LeaseWithoutWorker);
      var attempt := ParseAttempt(e, task.attempt + 1, s, v, p2);
      ghost var p3 := p2 + When(e.attempt.Malformed?, Warning, InvalidEventNumber);
      Check(attempt <= task.attempt, e, Error, AttemptNotIncreasing, s, v, p3);
      ghost var p4 := p3 + When(AttemptOf(task, e) <= task.attempt, Error, AttemptNotIncreasing);
      var leased := task.(attempt := if attempt > task.attempt then attempt else task.attempt,
                          lease := Some(LeaseState(e.workerId, attempt, e.sequence, false)));
      Move(leased, Leased, e, s, v, p4);
      ghost var p5 := p4 + TransitionProblems(task, Leased);
      SameTransition(leased, task, Leased);
      PutTaskWorkers(v, e.workflowId, e.taskId, Moved(leased, Leased, e.at));
      Enlist(e, s, v, PutTask(v, e.workflowId, e.taskId, Moved(leased, Leased, e.at)), p5);
      LeasedList(v, task, e);
    }

    method ParseAttempt(e: Event, fallback: int, ghost s: State, ghost v: View, ghost problems: seq<Problem>)
        returns (attempt: int)
      requires Reached(s, v, problems, e)
      modifies this`errors, this`warnings, this`infos, this`findings
      ensures Reached(s, v, problems + When(e.attempt.Malformed?, Warning, InvalidEventNumber), e)
      ensures attempt == if e.attempt.Number? then e.attempt.value else fallback
    {
      Check(e.attempt.Malformed?, e, Warning, InvalidEventNumber, s, v, problems);
      attempt := match e.attempt case Number(n) => n case _ => fallback;
    }

    /** Lists the task with its new owner. */
    method Enlist(e: Event, ghost s: State, ghost v: View, ghost v': View, ghost problems: seq<Problem>)
      requires Reached(s, v', problems, e) && v'.workers == v.workers
      modifies this`workers, this`errors, this`warnings, this`infos, this`findings
      ensures Reached(s,
        if e.workerId == "" then v'
        else PutWorker(v', e.workerId,
               WorkerOf(v', e.workerId).(activeTasks := WorkerOf(v', e.workerId).activeTasks
                   + {Key(e.workflowId, e.taskId)})),
        problems + When(e.workerId != "" && Key(e.workflowId, e.taskId) in WorkerOf(v, e.workerId).activeTasks,
                        Error, WorkerDuplicateActiveTask), e)
    {
      if e.workerId == "" {
        assert problems + [] == problems;
        return;
      }
      OutcomeView(s, options, v', problems, e, v');
      var worker := WorkerFor(e.workerId);
      var key := Key(e.workflowId, e.taskId);
      SetWorker(e.workerId, worker.(activeTasks := worker.activeTasks + {key}), e, s, v', problems);
      Check(key in worker.activeTasks, e, Error, WorkerDuplicateActiveTask, s,
        PutWorker(v', e.workerId, worker.(activeTasks := worker.activeTasks + {key})), problems);
    }

    method TaskStarted(e: Event)
      requires e.kind.TaskStarted?
      modifies this`workflows, this`workers, this`errors, this`warnings, this`infos, this`findings
      ensures TaskHandled(old(State()), e)
    {
      hide Outcome, TransitionProblems, Moved, PutTask, PutWorker, Touch, TaskOf, When, RequireTaskProblems;
      ghost var s := State();
      ghost var v := s.view;
      var task := RequireTask(e, s);
      ghost var p0 := RequireTaskProblems(e);
      Check(task.lease == None, e, Error, TaskStartedWithoutLease, s, v, p0);
      ghost var p1 := p0 + When(task.lease == None, Error, TaskStartedWithoutLease);
      Check(OwnerMismatch(task, e), e, Error, LeaseOwnerMismatch, s, v, p1);
      ghost var p2 := p1 + When(OwnerMismatch(task, e), Error, LeaseOwnerMismatch);
      var started := if task.lease.Some? then task.(lease := Some(task.lease.value.(started := true))) else task;
      Move(started, Running, e, s, v, p2);
      SameTransition(started, task, Running);
      TouchWorker(e, s, PutTask(v, e.workflowId, e.taskId, Moved(started, Running, e.at)),
          p2 + TransitionProblems(task, Running));
      assert p2 + TransitionProblems(task, Running) == p0 + (When(task.lease == None, Error, TaskStartedWithoutLease)
        + When(OwnerMismatch(task, e), Error, LeaseOwnerMismatch) + TransitionProblems(task, Running));
    }

    method TaskLog(e: Event)
      requires e.kind.TaskLog?
      modifies this`workflows, this`errors, this`warnings, this`infos, this`findings
      ensures TaskHandled(old(State()), e)
    {
      hide Outcome, PutTask, TaskOf, When, RequireTaskProblems;
      ghost var s := State();
      ghost var v := s.view;
      var task := RequireTask(e, s);
      ghost var p0 := RequireTaskProblems(e);
      var outside := task.state != Known(Running) && task.state != Known(Leased);
      Check(outside, e, Warning, LogOutsideActiveTask, s, v, p0);
      ghost var p1 := p0 + When(outside, Warning, LogOutsideActiveTask);
      Check(!e.knownStream, e, Warning, UnknownLogStream, s, v, p1);
      ghost var p2 := p1 + When(!e.knownStream, Warning, UnknownLogStream);
      SetTask(e, task, s, v, p2);
      assert p2 == p0 + (When(outside, Warning, LogOutsideActiveTask)
          + When(!e.knownStream, Warning, UnknownLogStream));
    }

    /** `taskCompleted` for either outcome. */
    method TaskCompleted(e: Event, terminal: TaskState)
      requires (e.kind.TaskSuccess? && terminal == Succeeded) || (e.kind.TaskFailure? && terminal == Failed)
      modifies this`workflows, this`workers, this`errors, this`warnings, this`infos, this`findings
      ensures TaskHandled(old(State()), e)
    {
      hide Outcome, TransitionProblems, Moved, PutTask, PutWorker, Touch, Freed, TaskOf, When, RequireTaskProblems,
          OwnerMismatch,
           HandleTask, TaskProblems;
      ghost var s := State();
      ghost var v := s.view;
      var task := RequireTask(e, s);
      ghost var p0 := RequireTaskProblems(e);
      Check(task.lease == None, e, Error, TaskCompletedWithoutLease, s, v, p0);
      ghost var p1 := p0 + When(task.lease == None, Error, TaskCompletedWithoutLease);
      Check(OwnerMismatch(task, e), e, Error, CompletionWorkerMismatch, s, v, p1);
      ghost var p2 := p1 + When(OwnerMismatch(task, e), Error, CompletionWorkerMismatch);
      Release(task, e, s, v, p2);
      Move(task.(lease := None), terminal, e, s, Freed(v, task, e), p2);
      CompletedList(v, task, e, terminal);
      TouchWorker(e, s, Closed(v, task, e, terminal), p2 + TransitionProblems(task, terminal));
    }

    method TaskCancelled(e: Event)
      requires e.kind.TaskCancel?
      modifies this`workflows, this`workers, this`errors, this`warnings, this`infos, this`findings
      ensures TaskHandled(old(State()), e)
    {
      hide Outcome, TransitionProblems, Moved, PutTask, PutWorker, Freed, TaskOf, When, RequireTaskProblems;
      ghost var s := State();
      ghost var v := s.view;
      var task := RequireTask(e, s);
      ghost var p0 := RequireTaskProblems(e);
      if task.state == Known(Cancelled) {
        SetTask(e, task, s, v, p0);
        assert p0 + [] == p0;
        return;
      }
      Check(OwnerMismatch(task, e), e, Error, CancellationWorkerMismatch, s, v, p0);
      ghost var p1 := p0 + When(OwnerMismatch(task, e), Error, CancellationWorkerMismatch);
      SameTransition(task.(lease := None), task, Cancelled);
      if task.lease.Some? {
        Release(task, e, s, v, p1);
        Move(task.(lease := None), Cancelled, e, s, Freed(v, task, e), p1);
      } else {
        Move(task, Cancelled, e, s, v, p1);
      }
      assert p1 + TransitionProblems(task, Cancelled)
          == p0 + (When(OwnerMismatch(task, e), Error, CancellationWorkerMismatch)
              + TransitionProblems(task, Cancelled));
    }

    method TaskRetry(e: Event)
      requires e.kind.TaskRetry?
      modifies this`workflows, this`workers, this`errors, this`warnings, this`infos, this`findings
      ensures TaskHandled(old(State()), e)
    {
      hide Outcome, TransitionProblems, Moved, PutTask, PutWorker, Freed, TaskOf, When, RequireTaskProblems;
      ghost var s := State();
      ghost var v := s.view;
      var task := RequireTask(e, s);
      ghost var p0 := RequireTaskProblems(e);
      Check(task.lease == None, e, Error, RetryWithoutActiveLease, s, v, p0);
      ghost var p1 := p0 + When(task.lease == None, Error, RetryWithoutActiveLease);
      Release(task, e, s, v, p1);
      Move(task.(lease := None), RetryWait, e, s, Freed(v, task, e), p1);
      SameTransition(task.(lease := None), task, RetryWait);
      assert p1 + TransitionProblems(task, RetryWait)
          == p0 + (When(task.lease == None, Error, RetryWithoutActiveLease) + TransitionProblems(task, RetryWait));
    }

    method LeaseExpired(e: Event)
      requires e.kind.LeaseExpired?
      modifies this`workflows, this`workers, this`errors, this`warnings, this`infos, this`findings
      ensures TaskHandled(old(State()), e)
    {
      hide Outcome, TransitionProblems, Moved, PutTask, PutWorker, Freed, TaskOf, When, RequireTaskProblems;
      ghost var s := State();
      ghost var v := s.view;
      var task := RequireTask(e, s);
      ghost var p0 := RequireTaskProblems(e);
      Check(task.lease == None, e, Warning, ExpiredUnknownLease, s, v, p0);
      ghost var p1 := p0 + When(task.lease == None, Warning, ExpiredUnknownLease);
      Check(OwnerMismatch(task, e), e, Error, ExpiredLeaseWorkerMismatch, s, v, p1);
      ghost var p2 := p1 + When(OwnerMismatch(task, e), Error, ExpiredLeaseWorkerMismatch);
      Release(task, e, s, v, p2);
      Move(task.(lease := None), Ready, e, s, Freed(v, task, e), p2);
      SameTransition(task.(lease := None), task, Ready);
      assert p2 + TransitionProblems(task, Ready) == p0 + (When(task.lease == None, Warning, ExpiredUnknownLease)
        + When(OwnerMismatch(task, e), Error, ExpiredLeaseWorkerMismatch) + TransitionProblems(task, Ready));
    }

    // Workflow and worker events

    ghost predicate Handled(s: State, e: Event)
      reads this
    {
      Reached(s, Handle(s.view, e), Problems(s.view, e), e)
    }

    method WorkflowFor(e: Event) returns (workflow: WorkflowReplay)
      ensures workflow == WorkflowOf(View(), e.workflowId)
    {
      workflow := if e.workflowId in workflows then workflows[e.workflowId] else FRESH_WORKFLOW;
    }

    method WorkflowCreated(e: Event)
      requires e.kind.WorkflowCreated?
      modifies this`workflows, this`errors, this`warnings, this`infos, this`findings
      ensures Handled(old(State()), e)
    {
      hide Outcome, PutWorkflow;
      ghost var s := State();
      Start(s, e);
      var workflow := WorkflowFor(e);
      if workflow.createdSequence != 0 {
        Note(e, Error, WorkflowCreatedTwice, s, s.view, []);
        SetWorkflow(e, workflow, s, s.view, [] + [Problem(Error, WorkflowCreatedTwice)]);
        assert [] + [Problem(Error, WorkflowCreatedTwice)] == [Problem(Error, WorkflowCreatedTwice)];
        return;
      }
      SetWorkflow(e, workflow.(createdSequence := e.sequence, state := WorkflowKnown(WorkflowPending)), s, s.view, []);
    }

    lemma Start(s: State, e: Event)
      requires State() == s
      ensures Reached(s, s.view, [], e)
    {
    }

    method WorkflowStarted(e: Event)
      requires e.kind.WorkflowStarted?
      modifies this`workflows, this`errors, this`warnings, this`infos, this`findings
      ensures Handled(old(State()), e)
    {
      hide Outcome, PutWorkflow, When;
      ghost var s := State();
      Start(s, e);
      var workflow := WorkflowFor(e);
      Check(TerminalSeen(workflow.state), e, Error, WorkflowRestartedAfterTerminal, s, s.view, []);
      ghost var p1 := When(TerminalSeen(workflow.state), Error, WorkflowRestartedAfterTerminal);
      assert [] + p1 == p1;
      Check(workflow.state == WorkflowUnknown, e, Warning, WorkflowStartedBeforeCreated, s, s.view, p1);
      SetWorkflow(e, workflow.(state := WorkflowKnown(WorkflowRunning)), s, s.view,
        p1 + When(workflow.state == WorkflowUnknown, Warning, WorkflowStartedBeforeCreated));
    }

    method WorkflowEnd(e: Event, terminal: WorkflowState)
      requires (e.kind.WorkflowSuccess? && terminal == WorkflowSucceeded)
          || (e.kind.WorkflowFailure? && terminal == WorkflowFailed)
        || (e.kind.WorkflowCancel? && terminal == WorkflowCancelled)
      modifies this`workflows, this`workers, this`errors, this`warnings, this`infos, this`findings
      ensures Handled(old(State()), e)
    {
      hide Outcome, PutWorkflow, CancelAll, TerminalSeen, Handle, Problems;
      ghost var s := State();
      ghost var v := s.view;
      EndHandling(v, e, terminal);
      Start(s, e);
      var workflow := WorkflowFor(e);
      ghost var p := EndProblems(workflow.state, terminal);
      if TerminalSeen(workflow.state) && workflow.state != WorkflowKnown(terminal) {
        Note(e, Error, WorkflowTerminalStateChanged, s, v, []);
        assert [] + [Problem(Error, WorkflowTerminalStateChanged)] == p;
      } else {
        Check(workflow.state == WorkflowKnown(terminal), e, Warning, WorkflowTerminalDuplicate, s, v, []);
        assert [] + p == p;
      }
      ghost var v' := v;
      if terminal == WorkflowCancelled {
        CancelTasks(e, s, v, p);
        v' := CancelAll(v, e.workflowId, e.at);
      }
      assert View() == v' by { OutcomeView(s, options, v', p, e, v'); }
      workflow := WorkflowFor(e);
      SetWorkflow(e, workflow.(state := WorkflowKnown(terminal)), s, v', p);
    }

    /** Cancelling a workflow releases its leases and cancels its unfinished tasks. */
    method CancelTasks(e: Event, ghost s: State, ghost v: View, ghost problems: seq<Problem>)
      requires Reached(s, v, problems, e) && e.kind.WorkflowCancel?
      modifies this`workflows, this`workers, this`errors, this`warnings, this`infos, this`findings
      ensures Reached(s, CancelAll(v, e.workflowId, e.at), problems, e)
    {
      hide Outcome, CancelSome, TransitionProblems;
      OutcomeView(s, options, v, problems, e, CancelSome(v, e.workflowId, {}, e.at));
      var workflow := WorkflowFor(e);
      var tasks := workflow.tasks;
      SetWorkflow(e, workflow, s, v, problems);
      CancelNone(v, e.workflowId, e.at);
      ghost var done: set<string> := {};
      var todo := tasks.Keys;
      while todo != {}
        invariant tasks == WorkflowOf(v, e.workflowId).tasks && done !! todo && done + todo == tasks.Keys
        invariant Reached(s, CancelSome(v, e.workflowId, done, e.at), problems, e)
        decreases todo
      {
        var t :| t in todo;
        ghost var now := CancelSome(v, e.workflowId, done, e.at);
        CancelTask(e.(taskId := t), tasks[t], e, s, now, problems);
        CancelOneMore(v, e.workflowId, done, t, e);
        todo, done := todo - {t}, done + {t};
      }
      assert done == tasks.Keys;
    }

    method CancelTask(te: Event, task: TaskReplay, e: Event, ghost s: State, ghost v: View,
        ghost problems: seq<Problem>)
      requires Reached(s, v, problems, e) && te == e.(taskId := te.taskId)
      modifies this`workflows, this`workers, this`errors, this`warnings, this`infos, this`findings
      ensures Reached(s, CancelledView(v, te, task), problems, e)
    {
      OutcomeView(s, options, v, problems, e, v);
      ghost var v1 := if task.lease.Some? then Freed(v, task, te) else v;
      if task.lease.Some? && task.lease.value.workerId != "" {
        var x := task.lease.value.workerId;
        var worker := WorkerFor(x);
        SetWorker(x, worker.(activeTasks := worker.activeTasks - {Key(te.workflowId, te.taskId)}), e, s, v, problems);
      }
      var task' := task.(lease := None);
      if !(task.state.Known? && TerminalTask(task.state.state)) {
        task' := task'.(state := Known(Cancelled), finishedAt := Some(e.at));
      }
      OutcomeView(s, options, v1, problems, e, PutTask(v1, te.workflowId, te.taskId, task'));
      var workflow := WorkflowFor(e);
      workflows := workflows[e.workflowId := workflow.(tasks := workflow.tasks[te.taskId := task'])];
    }

    method WorkerRegistered(e: Event)
      requires e.kind.WorkerRegistered?
      modifies this`workers, this`errors, this`warnings, this`infos, this`findings
      ensures Handled(old(State()), e)
    {
      hide Outcome, PutWorker, When;
      ghost var s := State();
      Start(s, e);
      if e.workerId == "" {
        Note(e, Error, WorkerEventWithoutId, s, s.view, []);
        assert [] + [Problem(Error, WorkerEventWithoutId)] == [Problem(Error, WorkerEventWithoutId)];
        return;
      }
      var worker := WorkerFor(e.workerId);
      Check(worker.registeredAt.Some?, e, Warning, WorkerRegisteredTwice, s, s.view, []);
      ghost var p := When(worker.registeredAt.Some?, Warning, WorkerRegisteredTwice);
      assert [] + p == p;
      SetWorker(e.workerId, worker.(registeredAt := Some(e.at), lastHeartbeat := Some(e.at)), e, s, s.view, p);
    }

    method WorkerHeartbeat(e: Event)
      requires e.kind.WorkerHeartbeat?
      modifies this`workers, this`errors, this`warnings, this`infos, this`findings
      ensures Handled(old(State()), e)
    {
      hide Outcome, PutWorker, When;
      ghost var s := State();
      Start(s, e);
      if e.workerId == "" {
        Note(e, Error, HeartbeatWithoutWorker, s, s.view, []);
        assert [] + [Problem(Error, HeartbeatWithoutWorker)] == [Problem(Error, HeartbeatWithoutWorker)];
        return;
      }
      var worker := WorkerFor(e.workerId);
      Check(worker.registeredAt == None, e, Warning, HeartbeatBeforeRegistration, s, s.view, []);
      ghost var p := When(worker.registeredAt == None, Warning, HeartbeatBeforeRegistration);
      assert [] + p == p;
      var backwards := worker.lastHeartbeat.Some? && e.at < worker.lastHeartbeat.value;
      Check(backwards, e, Warning, WorkerHeartbeatBackwards, s, s.view, p);
      SetWorker(e.workerId, worker.(lastHeartbeat := Some(e.at)), e, s, s.view,
        p + When(backwards, Warning, WorkerHeartbeatBackwards));
    }

    method Interpret(e: Event)
      modifies this`workflows, this`workers, this`errors, this`warnings, this`infos, this`findings
      ensures Handled(old(State()), e)
    {
      hide Outcome, HandleTask, TaskProblems, RequireTaskProblems, CancelAll, TaskOf, EndProblems;
      ghost var s := State();
      match e.kind {
        case WorkflowCreated => WorkflowCreated(e);
        case WorkflowStarted => WorkflowStarted(e);
        case WorkflowSuccess => WorkflowEnd(e, WorkflowSucceeded);
        case WorkflowFailure => WorkflowEnd(e, WorkflowFailed);
        case WorkflowCancel => WorkflowEnd(e, WorkflowCancelled);
        case TaskReady => TaskState(e);
        case TaskLeased => TaskLeased(e);
        case TaskStarted => TaskStarted(e);
        case TaskLog => TaskLog(e);
        case TaskSuccess => TaskCompleted(e, Succeeded);
        case TaskFailure => TaskCompleted(e, Failed);
        case TaskRetry => TaskRetry(e);
        case TaskCancel => TaskCancelled(e);
        case LeaseExpired => LeaseExpired(e);
        case WorkerRegistered => WorkerRegistered(e);
        case WorkerHeartbeat => WorkerHeartbeat(e);
        case Other(_) =>
          Start(s, e);
          Note(e, Info, UnknownEventType, s, s.view, []);
          assert [] + [Problem(Info, UnknownEventType)] == [Problem(Info, UnknownEventType)];
      }
    }

    method Accept(e: Event)
      modifies this`workflows, this`workers, this`errors, this`warnings, this`infos, this`findings,
               this`observedSequences, this`previousSequence, this`previousTimestamp, this`ignoredEvents
      ensures State() == Replay.Accept(old(State()), options, e)
    {
      hide Outcome, When, ReportAll, Handle, Problems;
      ghost var s := State();
      CheckStream(e);
      ghost var a := StreamProblems(s, options, e);
      StreamFields(s, options, a, e);
      observedSequences := observedSequences + {e.sequence};
      previousSequence := e.sequence;
      previousTimestamp := Some(e.at);
      if options.workflowFilter != "" && options.workflowFilter != e.workflowId && e.workflowId != "" {
        ignoredEvents := ignoredEvents + 1;
        AcceptIgnored(s, options, a, e);
        return;
      }
      if e.workflowId != "" {
        var workflow := WorkflowFor(e);
        workflows := workflows[e.workflowId := workflow];
      }
      ghost var s' := State();
      assert s' == Noted(ReportAll(s, options.maxFindings, a, e.workflowId, e.taskId), e).(view := Entered(s.view, e));
      Interpret(e);
      AcceptOutcome(s, options, a, Problems(Entered(s.view, e), e), e, Handle(Entered(s.view, e), e));
    }

    method CheckStream(e: Event)
      modifies this`errors, this`warnings, this`infos, this`findings
      ensures State() == ReportAll(old(State()), options.maxFindings, StreamProblems(old(State()), options, e),
          e.workflowId, e.taskId)
    {
      hide When, ReportAll, Outcome;
      ghost var s := State();
      Start(s, e);
      Check(e.sequence in observedSequences, e, Error, DuplicateSequence, s, s.view, []);
      ghost var p1 := When(e.sequence in s.observed, Error, DuplicateSequence);
      assert [] + p1 == p1;
      Check(previousSequence != 0 && e.sequence <= previousSequence, e, Error, NonMonotonicSequence, s, s.view, p1);
      ghost var p2 := p1 + When(s.previousSequence != 0 && e.sequence <= s.previousSequence, Error,
          NonMonotonicSequence);
      Check(!options.allowGaps && previousSequence != 0 && e.sequence != previousSequence + 1, e, Warning, SequenceGap,
          s, s.view, p2);
      ghost var p3 := p2 + When(!options.allowGaps && s.previousSequence != 0
          && e.sequence != s.previousSequence + 1, Warning, SequenceGap);
      Check(previousTimestamp.Some? && e.at < previousTimestamp.value - 5000, e, Warning, ClockMovedBackwards, s,
          s.view, p3);
      OutcomeIsReport(s, options, p3 + When(s.previousAt.Some?
          && e.at < s.previousAt.value - 5000, Warning, ClockMovedBackwards), e);
    }

    /** The final checks: there is an error exactly when some replayed task shows one. */
    method Finish() returns (found: nat)
      modifies this`errors
      ensures View() == old(View()) && errors == old(errors) + found
      ensures found == 0 <==> forall w, t :: !FinishError(View(), w, t)
    {
      found := 0;
      var todo := workflows.Keys;
      while todo != {}
        invariant todo <= workflows.Keys && View() == old(View()) && errors == old(errors) + found
        invariant found == 0 <==> forall w, t :: w !in todo ==> !FinishError(View(), w, t)
        decreases todo
      {
        var w :| w in todo;
        var some := FinishWorkflow(w);
        todo, found := todo - {w}, found + some;
      }
    }

    method FinishWorkflow(w: string) returns (found: nat)
      requires w in workflows
      modifies this`errors
      ensures View() == old(View()) && errors == old(errors) + found
      ensures found == 0 <==> forall t :: !FinishError(View(), w, t)
    {
      found := 0;
      var workflow := workflows[w];
      var todo := workflow.tasks.Keys;
      while todo != {}
        invariant todo <= workflow.tasks.Keys && View() == old(View()) && errors == old(errors) + found
        invariant found == 0 <==> forall t :: t !in todo ==> !FinishError(View(), w, t)
        decreases todo
      {
        var t :| t in todo;
        var task := workflow.tasks[t];
        if workflow.state == WorkflowKnown(WorkflowSucceeded) && task.state != Known(Succeeded) {
          errors, found := errors + 1, found + 1;
        }
        if workflow.state == WorkflowKnown(WorkflowCancelled) && task.lease.Some? {
          errors, found := errors + 1, found + 1;
        }
        if task.startedAt.Some? && task.finishedAt.Some? && task.finishedAt.value < task.startedAt.value {
          errors, found := errors + 1, found + 1;
        }
        todo := todo - {t};
      }
    }
  }

  // Cancelling the tasks of a workflow one at a time

  /** One task of a cancelled workflow: its lease is released, then it is cancelled unless it has ended. */
  function CancelledView(v: View, te: Event, task: TaskReplay): View {
    PutTask(if task.lease.Some? then Freed(v, task, te) else v, te.workflowId, te.taskId, CancelledTask(task, te.at))
  }

  lemma CancelNone(v: View, w: string, at: Time)
    ensures CancelSome(v, w, {}, at) == PutWorkflow(v, w, WorkflowOf(v, w))
  {
    var tasks := WorkflowOf(v, w).tasks;
    assert Owners(tasks, {}) == {};
    assert forall x :: OwnedKeys(w, tasks, {}, x) == {};
    var same := CancelSome(v, w, {}, at);
    assert same.workflows[w].tasks == tasks;
    assert same.workers == v.workers by {
      assert same.workers.Keys == v.workers.Keys;
      forall x | x in v.workers ensures same.workers[x] == v.workers[x] {
        assert v.workers[x].activeTasks - OwnedKeys(w, tasks, {}, x) == v.workers[x].activeTasks;
      }
    }
  }

  lemma CancelOneMore(v: View, w: string, done: set<string>, t: string, e: Event)
    requires e.workflowId == w && t in WorkflowOf(v, w).tasks && t !in done
    ensures CancelledView(CancelSome(v, w, done, e.at), e.(taskId := t), WorkflowOf(v, w).tasks[t])
         == CancelSome(v, w, done + {t}, e.at)
  {
    var tasks := WorkflowOf(v, w).tasks;
    var now, next := CancelSome(v, w, done, e.at), CancelSome(v, w, done + {t}, e.at);
    var after := CancelledView(now, e.(taskId := t), tasks[t]);
    assert after.workflows[w].tasks == next.workflows[w].tasks;
    assert after.workflows == next.workflows;
    CancelWorkers(v, w, done, t, e);
  }

  lemma CancelWorkers(v: View, w: string, done: set<string>, t: string, e: Event)
    requires e.workflowId == w && t in WorkflowOf(v, w).tasks && t !in done
    ensures CancelledView(CancelSome(v, w, done, e.at), e.(taskId := t), WorkflowOf(v, w).tasks[t]).workers
         == CancelSome(v, w, done + {t}, e.at).workers
  {
    hide Owners, OwnedKeys, Key, Moved;
    var tasks := WorkflowOf(v, w).tasks;
    var now, next := CancelSome(v, w, done, e.at), CancelSome(v, w, done + {t}, e.at);
    var after := CancelledView(now, e.(taskId := t), tasks[t]);
    var lease := tasks[t].lease;
    OneMoreOwner(w, tasks, done, t);
    assert after.workers.Keys == next.workers.Keys;
    forall x | x in next.workers ensures after.workers[x].activeTasks == next.workers[x].activeTasks {
      OneMoreKey(w, tasks, done, t, x);
    }
    forall x | x in next.workers ensures after.workers[x] == next.workers[x] {}
  }

  lemma OneMoreOwner(w: string, tasks: map<string, TaskReplay>, done: set<string>, t: string)
    requires t in tasks
    ensures var lease := tasks[t].lease;
      Owners(tasks, done + {t}) ==
      Owners(tasks, done) + (if lease.Some? && lease.value.workerId != "" then {lease.value.workerId} else {})
  {
    var lease := tasks[t].lease;
    var more := Owners(tasks, done) + (if lease.Some? && lease.value.workerId != "" then {lease.value.workerId}
        else {});
    forall x ensures x in Owners(tasks, done + {t}) <==> x in more {}
  }

  lemma OneMoreKey(w: string, tasks: map<string, TaskReplay>, done: set<string>, t: string, x: string)
    requires t in tasks
    ensures var lease := tasks[t].lease;
      OwnedKeys(w, tasks, done + {t}, x) ==
      OwnedKeys(w, tasks, done, x) + (if x != "" && lease.Some? && lease.value.workerId == x then {Key(w, t)} else {})
  {
    hide Key;
    var lease := tasks[t].lease;
    var more := OwnedKeys(w, tasks, done, x) + (if x != "" && lease.Some? && lease.value.workerId == x then {Key(w, t)}
        else {});
    forall k ensures k in OwnedKeys(w, tasks, done + {t}, x) <==> k in more {}
  }

  // Putting the two halves of `accept` together

  lemma {:induction false} ReportConcat(s: State, max: nat, a: seq<Problem>, b: seq<Problem>, w: string, t: string)
    ensures ReportAll(s, max, a + b, w, t) == ReportAll(ReportAll(s, max, a, w, t), max, b, w, t)
  {
    if b == [] {
      assert a + b == a;
    } else {
      var init := b[..|b| - 1];
      assert (a + b)[..|a + b| - 1] == a + init;
      ReportConcat(s, max, a, init, w, t);
    }
  }

  lemma {:induction false} ReportNoted(s: State, max: nat, a: seq<Problem>, w: string, t: string, e: Event, v: View)
    ensures ReportAll(Noted(s.(view := v), e), max, a, w, t) == Noted(ReportAll(s, max, a, w, t), e).(view := v)
    ensures ReportAll(Noted(s.(ignored := s.ignored + 1), e), max, a, w, t)
         == Noted(ReportAll(s, max, a, w, t), e).(ignored := s.ignored + 1)
  {
    if a != [] { ReportNoted(s, max, a[..|a| - 1], w, t, e, v); }
  }

  lemma StreamFields(s: State, o: Options, a: seq<Problem>, e: Event)
    ensures var s' := ReportAll(s, o.maxFindings, a, e.workflowId, e.taskId);
      && s'.view == s.view && s'.observed == s.observed && s'.previousSequence == s.previousSequence
      && s'.previousAt == s.previousAt && s'.ignored == s.ignored
  {
    ReportCounts(s, o.maxFindings, a, e.workflowId, e.taskId);
  }

  lemma AcceptIgnored(s: State, o: Options, a: seq<Problem>, e: Event)
    requires Ignored(o, e) && a == StreamProblems(s, o, e)
    ensures Noted(ReportAll(s, o.maxFindings, a, e.workflowId, e.taskId), e).(ignored := s.ignored + 1)
        == Replay.Accept(s, o, e)
  {
    hide StreamProblems, ReportAll, Problems;
    assert AllProblems(s, o, e) == a;
    ReportNoted(s, o.maxFindings, a, e.workflowId, e.taskId, e, s.view);
  }

  lemma AcceptOutcome(s: State, o: Options, a: seq<Problem>, b: seq<Problem>, e: Event, v: View)
    requires !Ignored(o, e) && a == StreamProblems(s, o, e) && b == Problems(Entered(s.view, e), e)
    requires v == Handle(Entered(s.view, e), e)
    ensures Outcome(Noted(ReportAll(s, o.maxFindings, a, e.workflowId, e.taskId), e).(view := Entered(s.view, e)), o, v,
        b, e)
         == Replay.Accept(s, o, e)
  {
    hide StreamProblems, Problems, Handle, Entered;
    ReportNoted(s, o.maxFindings, a, e.workflowId, e.taskId, e, v);
    ReportConcat(Noted(s.(view := v), e), o.maxFindings, a, b, e.workflowId, e.taskId);
  }

  lemma CompletedList(v: View, task: TaskReplay, e: Event, terminal: TaskState)
    requires (e.kind.TaskSuccess? && terminal == Succeeded) || (e.kind.TaskFailure? && terminal == Failed)
    ensures TransitionProblems(task.(lease := None), terminal) == TransitionProblems(task, terminal)
    ensures HandleTask(v, task, e) == Touch(Closed(v, task, e, terminal), e.workerId)
    ensures var p0 := RequireTaskProblems(e);
      p0 + When(task.lease == None, Error, TaskCompletedWithoutLease)
          + When(OwnerMismatch(task, e), Error, CompletionWorkerMismatch)
      + TransitionProblems(task, terminal) == p0 + TaskProblems(v, task, e)
  {
    hide When, RequireTaskProblems, OwnerMismatch, Closed, Touch;
  }

  lemma LeasedList(v: View, task: TaskReplay, e: Event)
    requires e.kind.TaskLeased?
    ensures var p0 := RequireTaskProblems(e);
      p0 + When(task.lease.Some?, Error, OverlappingTaskLease) + When(e.workerId == "", Error, LeaseWithoutWorker)
      + When(e.attempt.Malformed?, Warning, InvalidEventNumber)
          + When(AttemptOf(task, e) <= task.attempt, Error, AttemptNotIncreasing)
      + TransitionProblems(task, Leased)
      + When(e.workerId != "" && Key(e.workflowId, e.taskId) in WorkerOf(v, e.workerId).activeTasks, Error,
          WorkerDuplicateActiveTask)
      == p0 + TaskProblems(v, task, e)
  {
    hide When, TransitionProblems, RequireTaskProblems, WorkerOf, Key;
  }
}
