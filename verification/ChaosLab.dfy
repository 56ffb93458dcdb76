/** The chaos laboratory's `Model` as an object whose dictionaries are updated step by step. Every method takes
    the step of its function in `ChaosModel`, and `transition_task` is never asked for an illegal transition. */
module ChaosLab {
  import opened StringOrder
  import opened Graph
  import opened Runtime
  import C = ChaosModel
  import R = Replay
  import DslGraph
  import TaskRemoval
  import ChaosReplay
  import ChaosAcceptance
  import ChaosInvariant

  /** A task as it is submitted, with its retry policy already normalized. */
  datatype Submitted = Submitted(
    node: DslGraph.TaskNode, labels: map<string, string>, maxAttempts: int, baseDelayMs: int, maxDelayMs: int)

  function Fresh(t: Submitted): (r: C.Task)
    ensures C.FreshTask(r)
  {
    C.Task(t.node.dependsOn, t.labels, t.maxAttempts, t.baseDelayMs, t.maxDelayMs,
           Pending, 0, "", "", None, None, None, None, None, "", 0)
  }

  function Nodes(tasks: seq<Submitted>): (r: seq<DslGraph.TaskNode>)
    ensures |r| == |tasks| && forall k :: 0 <= k < |r| ==> r[k] == tasks[k].node
  {
    seq(|tasks|, k requires 0 <= k < |tasks| => tasks[k].node)
  }

  /** The task map, later tasks replacing earlier ones. */
  function TasksById(tasks: seq<Submitted>): map<string, C.Task> {
    if tasks == [] then map[]
    else TasksById(tasks[..|tasks| - 1])[tasks[|tasks| - 1].node.id := Fresh(tasks[|tasks| - 1])]
  }

  /** The order lists the tasks, and dependencies are tasks. */
  ghost predicate Formed(wf: C.Workflow) {
    && NoDup(wf.order) && Elements(wf.order) == wf.tasks.Keys
    && forall t :: t in wf.tasks ==> Elements(wf.tasks[t].dependsOn) <= wf.tasks.Keys
  }

  ghost predicate AllFormed(workflows: map<string, C.Workflow>) {
    forall w :: w in workflows ==> Formed(workflows[w])
  }

  /** A task record change that keeps the graph. */
  lemma PutFormed(m: C.Model, w: string, t: string, task: C.Task)
    requires AllFormed(m.workflows) && C.Has(m, w, t) && task.dependsOn == m.workflows[w].tasks[t].dependsOn
    ensures AllFormed(C.PutTask(m, w, t, task).workflows)
  {
    var m' := C.PutTask(m, w, t, task);
    assert m'.workflows[w].tasks.Keys == m.workflows[w].tasks.Keys;
    forall w' | w' in m'.workflows ensures Formed(m'.workflows[w']) { assert Formed(m.workflows[w']); }
  }

  lemma PutTwice(m: C.Model, w: string, t: string, a: C.Task, b: C.Task)
    requires C.Has(m, w, t)
    ensures C.Has(C.PutTask(m, w, t, a), w, t) && C.PutTask(m, w, t, a).workflows[w].tasks[t] == a
    ensures C.PutTask(C.PutTask(m, w, t, a), w, t, b) == C.PutTask(m, w, t, b)
    ensures C.PutTask(m, w, t, m.workflows[w].tasks[t]) == m
  {
    assert m.workflows[w].tasks[t := a][t := b] == m.workflows[w].tasks[t := b];
    assert m.workflows[w].tasks[t := m.workflows[w].tasks[t]] == m.workflows[w].tasks;
    assert m.workflows[w := m.workflows[w]] == m.workflows;
    var x := m.workflows[w].(tasks := m.workflows[w].tasks[t := a]);
    var y := m.workflows[w].(tasks := m.workflows[w].tasks[t := b]);
    assert m.workflows[w := x][w := y] == m.workflows[w := y];
  }

  class Model {
    const leaseDuration: Time
    const workerTtl: Time
    const outputLimit: int
    const chunkLimit: int
    var now: Time
    var workflows: map<string, C.Workflow>
    var workers: map<string, C.Worker>
    var leases: map<string, C.Lease>
    var closed: map<string, C.Lease>
    var events: seq<R.Event>
    var sequence: int

    ghost function State(): C.Model
      reads this
    {
      C.Model(now, leaseDuration, workerTtl, outputLimit, chunkLimit, workflows, workers, leases, closed, events)
    }

    ghost predicate Valid()
      reads this
    {
      sequence == |events| && AllFormed(workflows)
    }

    constructor (leaseDuration: Time, workerTtl: Time, outputLimit: int, chunkLimit: int)
      requires leaseDuration > 0 && workerTtl > 0
      ensures Valid() && C.Empty(State()) && now == 0
    {
      this.leaseDuration, this.workerTtl, this.outputLimit, this.chunkLimit := leaseDuration, workerTtl, outputLimit,
          chunkLimit;
      now, workflows, workers, leases, closed, events, sequence := 0, map[], map[], map[], map[], [], 0;
    }

    // Small steps

    method Emit(kind: R.Kind, w: string, t: string, x: string, attempt: R.Number)
      requires Valid()
      modifies this`events, this`sequence
      ensures Valid() && State() == C.Emit(old(State()), kind, w, t, x, attempt)
    {
      sequence := sequence + 1;
      events := events + [R.Event(sequence, kind, w, t, x, now, attempt, true)];
    }

    method SetTask(w: string, t: string, task: C.Task)
      requires Valid() && C.Has(State(), w, t) && task.dependsOn == workflows[w].tasks[t].dependsOn
      modifies this`workflows
      ensures Valid() && State() == C.PutTask(old(State()), w, t, task)
    {
      PutFormed(State(), w, t, task);
      workflows := workflows[w := workflows[w].(tasks := workflows[w].tasks[t := task])];
    }

    /** Raises, without effect, on a transition that the table does not allow. */
    method TransitionTask(w: string, t: string, next: TaskState) returns (ok: bool)
      requires Valid() && C.Has(State(), w, t)
      modifies this`workflows
      ensures Valid() && (ok
          <==> next == old(workflows[w].tasks[t].state) || Allowed(old(workflows[w].tasks[t].state), next))
      ensures State() == if ok then C.PutTask(old(State()), w, t, old(workflows[w].tasks[t]).(state := next))
          else old(State())
    {
      var task := workflows[w].tasks[t];
      if next == task.state {
        PutTwice(State(), w, t, task, task);
        return true;
      }
      if !Allowed(task.state, next) { return false; }
      SetTask(w, t, task.(state := next));
      return true;
    }

    // recompute

    /** `any` and `all` over the dependencies. */
    static method ScanDependencies(tasks: map<string, C.Task>, dependencies: seq<string>)
        returns (impossible: bool, ready: bool)
      requires Elements(dependencies) <= tasks.Keys
      ensures impossible == C.Impossible(tasks, dependencies) && ready == C.Satisfied(tasks, dependencies)
    {
      impossible, ready := false, true;
      for k := 0 to |dependencies|
        invariant impossible == C.Impossible(tasks, dependencies[..k]) && ready == C.Satisfied(tasks, dependencies[..k])
      {
        assert dependencies[k] in Elements(dependencies);
        var state := tasks[dependencies[k]].state;
        assert dependencies[..k + 1] == dependencies[..k] + [dependencies[k]];
        if state == Failed || state == Cancelled { impossible := true; }
        if state != Succeeded { ready := false; }
      }
      assert dependencies[..|dependencies|] == dependencies;
    }

    /** The body of the loop of `recompute`. */
    method RecomputeTask(w: string, t: string)
      requires Valid() && C.Has(State(), w, t)
      modifies this`workflows, this`events, this`sequence
      ensures Valid() && State() == C.RecomputeTask(old(State()), w, t)
    {
      hide Valid, C.Emit, C.PutTask, C.Impossible, C.Satisfied;
      ghost var m := State();
      var task := workflows[w].tasks[t];
      if task.state == Pending {
        FormedDependencies(w, t);
        var impossible, ready := ScanDependencies(workflows[w].tasks, task.dependsOn);
        if impossible {
          SetTask(w, t, task.(finished := Some(now)));
          PutTwice(m, w, t, task.(finished := Some(now)), task.(finished := Some(now), state := Cancelled));
          var ok := TransitionTask(w, t, Cancelled);
          assert ok;
        } else if ready {
          var ok := TransitionTask(w, t, Ready);
          assert ok;
          Emit(R.TaskReady, w, t, "", R.Absent);
        }
      } else if task.state == RetryWait {
        if task.nextRetry == None || task.nextRetry.value <= now {
          SetTask(w, t, task.(nextRetry := None, finished := None));
          PutTwice(m, w, t, task.(nextRetry := None, finished := None),
              task.(state := Ready, nextRetry := None, finished := None));
          var ok := TransitionTask(w, t, Ready);
          assert ok;
          Emit(R.TaskReady, w, t, "", R.Absent);
        }
      }
    }

    lemma FormedDependencies(w: string, t: string)
      requires Valid() && C.Has(State(), w, t)
      ensures Elements(workflows[w].tasks[t].dependsOn) <= workflows[w].tasks.Keys
    {
      assert Formed(workflows[w]);
    }

    method Recompute(w: string)
      requires Valid() && w in workflows
      modifies this`workflows, this`events, this`sequence
      ensures Valid() && State() == C.Recompute(old(State()), w) && workflows.Keys == old(workflows.Keys)
    {
      hide Valid, C.RecomputeTask, C.NextState, C.Emit;
      if TerminalWorkflow(workflows[w].state) { return; }
      ghost var m := State();
      var order := workflows[w].order;
      for n := 0 to |order|
        invariant Valid() && w in workflows && State() == C.RecomputeTasks(m, w, order, n)
        invariant SameGraph(m.workflows, workflows) && workflows[w].state == m.workflows[w].state
      {
        OrderKnown(w, n);
        RecomputeKeepsGraph(State(), w, order[n]);
        SameGraphTransitive(m.workflows, workflows, C.RecomputeTask(State(), w, order[n]).workflows);
        RecomputeTask(w, order[n]);
      }
      Conclude(w);
    }

    lemma OrderKnown(w: string, n: nat)
      requires Valid() && w in workflows && n < |workflows[w].order|
      ensures C.Has(State(), w, workflows[w].order[n])
    {
      assert Formed(workflows[w]);
      assert workflows[w].order[n] in Elements(workflows[w].order);
    }

    /** The second half of `recompute`: the state of the workflow, and the event that reports a change. */
    method Conclude(w: string)
      requires Valid() && w in workflows && !TerminalWorkflow(workflows[w].state)
      modifies this`workflows, this`events, this`sequence
      ensures Valid() && State() == C.RecomputeState(old(State()), w) && workflows.Keys == old(workflows.Keys)
    {
      hide Formed;
      var before := workflows[w].state;
      var wf := workflows[w];
      if forall t :: t in wf.tasks ==> wf.tasks[t].state == Succeeded {
        wf := wf.(state := WorkflowSucceeded, finished := Some(now));
      } else if (exists t :: t in wf.tasks && wf.tasks[t].state == Failed)
          && !(exists t :: t in wf.tasks && ActiveTask(wf.tasks[t].state)) {
        wf := wf.(state := WorkflowFailed, finished := Some(now));
      } else if wf.state == WorkflowPending {
        wf := wf.(state := WorkflowRunning);
      }
      SameFormed(workflows[w], wf);
      assert wf.state == before ==> workflows[w := wf] == workflows;
      workflows := workflows[w := wf];
      if wf.state != before {
        if wf.state == WorkflowRunning {
          Emit(R.WorkflowStarted, w, "", "", R.Absent);
        } else if wf.state == WorkflowSucceeded {
          Emit(R.WorkflowSuccess, w, "", "", R.Absent);
        } else if wf.state == WorkflowFailed {
          Emit(R.WorkflowFailure, w, "", "", R.Absent);
        }
      }
    }

    // Leases

    /** `close_lease`, on a lease whose task exists. */
    method CloseLease(token: string)
      requires Valid() && token in leases && C.Has(State(), leases[token].workflowId, leases[token].taskId)
      modifies this`workflows, this`workers, this`leases, this`closed
      ensures Valid()
      ensures
        var l, m := old(leases[token]), old(State());
        State() == C.PutTask(C.DropLease(m, token), l.workflowId, l.taskId,
            C.Released(m.workflows[l.workflowId].tasks[l.taskId], token))
    {
      hide C.PutTask, Formed;
      var lease := leases[token];
      leases := leases - {token};
      if lease.workerId in workers {
        workers := workers[lease.workerId := workers[lease.workerId].(activeTokens :=
            workers[lease.workerId].activeTokens - {token})];
      }
      closed := closed[token := lease];
      var task := workflows[lease.workflowId].tasks[lease.taskId];
      if task.leaseToken == token {
        SetTask(lease.workflowId, lease.taskId, task.(leaseToken := "", leaseOwner := "", leaseUntil := None));
      } else {
        PutTwice(State(), lease.workflowId, lease.taskId, task, task);
      }
    }

    /** `expire_lease`; a lease that is still live or whose task is unknown is left alone. */
    method ExpireLease(token: string)
      requires Valid()
      modifies this`workflows, this`workers, this`leases, this`closed, this`events, this`sequence
      ensures Valid() && State() == C.ExpireLease(old(State()), token) && SameGraph(old(workflows), workflows)
    {
      hide Valid, C.PutTask, C.DropLease, C.Emit, SameGraph;
      SameGraphRefl(workflows);
      if token !in leases || leases[token].expires > now { return; }
      var lease := leases[token];
      var w, t := lease.workflowId, lease.taskId;
      if w !in workflows || t !in workflows[w].tasks { return; }
      ghost var m := State();
      ghost var dropped := C.DropLease(m, token);
      var state, ended := workflows[w].tasks[t].state, TerminalWorkflow(workflows[w].state);
      ClosedParts(m, token);
      CloseLease(token);
      ghost var released := C.Released(m.workflows[w].tasks[t], token);
      PutTwice(dropped, w, t, released, released);
      PutKeepsGraph(dropped, w, t, released);
      if (state == Leased || state == Running) && !ended {
        var task := workflows[w].tasks[t];
        var reset := task.(started := None, finished := None, exitCode := None, error := "");
        PutTwice(dropped, w, t, task, reset);
        PutTwice(dropped, w, t, reset, reset.(state := Ready));
        PutKeepsGraph(dropped, w, t, reset.(state := Ready));
        SetTask(w, t, reset);
        var ok := TransitionTask(w, t, Ready);
        assert ok;
        Emit(R.LeaseExpired, w, t, lease.workerId, R.Absent);
        EmitKeeps(C.PutTask(dropped, w, t, reset.(state := Ready)), R.LeaseExpired, w, t, lease.workerId, R.Absent);
      }
    }

    /** `require_active_lease` and `ensure_live_lease`; `None` means that the lease is live. */
    method CheckLease(token: string) returns (refused: Option<C.Refusal>)
      requires Valid()
      modifies this`workflows, this`workers, this`leases, this`closed, this`events, this`sequence
      ensures Valid() && SameGraph(old(workflows), workflows)
      ensures refused == C.LeaseRefusal(old(State()), token)
      ensures State() == if refused.Some? then C.ExpireLease(old(State()), token) else old(State())
    {
      hide Valid, SameGraph, C.DropLease, C.PutTask;
      SameGraphRefl(workflows);
      if token !in leases {
        return Some(if token in closed then C.StaleLease else C.UnknownLease);
      }
      if leases[token].expires <= now {
        ExpireLease(token);
        return Some(C.LeaseHasExpired);
      }
      return None;
    }

    method Start(token: string) returns (answer: C.Answer)
      requires Valid()
      modifies this`workflows, this`workers, this`leases, this`closed, this`events, this`sequence
      ensures Valid() && C.Outcome(State(), answer) == C.Start(old(State()), token)
    {
      hide Valid, SameGraph, C.ExpireLease, C.PutTask, C.Emit;
      ghost var m := State();
      var refused := CheckLease(token);
      if refused.Some? { return C.Refused(refused.value); }
      var lease := leases[token];
      var w, t := lease.workflowId, lease.taskId;
      if w !in workflows || t !in workflows[w].tasks || workflows[w].tasks[t].leaseToken != token {
        return C.Refused(C.StaleLease);
      }
      var task := workflows[w].tasks[t];
      if task.state == Leased {
        var ok := TransitionTask(w, t, Running);
        assert ok;
        PutTwice(m, w, t, task.(state := Running), task.(state := Running, started := Some(now)));
        SetTask(w, t, task.(state := Running, started := Some(now)));
        SetLease(token, lease.(started := true));
        Emit(R.TaskStarted, w, t, lease.workerId, R.Absent);
      } else if task.state != Running {
        return C.Refused(C.InvalidStartState);
      }
      return C.Done;
    }

    method SetLease(token: string, lease: C.Lease)
      requires Valid()
      modifies this`leases
      ensures Valid() && State() == old(State()).(leases := old(leases)[token := lease])
    {
      hide Formed;
      leases := leases[token := lease];
    }

    method Renew(token: string) returns (answer: C.Answer)
      requires Valid()
      modifies this`workflows, this`workers, this`leases, this`closed, this`events, this`sequence
      ensures Valid() && C.Outcome(State(), answer) == C.Renew(old(State()), token)
    {
      hide Valid, SameGraph, C.ExpireLease, C.PutTask;
      ghost var m := State();
      var refused := CheckLease(token);
      if refused.Some? { return C.Refused(refused.value); }
      var lease := leases[token];
      var w, t := lease.workflowId, lease.taskId;
      if w !in workflows || t !in workflows[w].tasks || workflows[w].tasks[t].leaseToken != token {
        return C.Refused(C.StaleLease);
      }
      var until := now + leaseDuration;
      SetTask(w, t, workflows[w].tasks[t].(leaseUntil := Some(until)));
      PutLeases(m, w, t, m.workflows[w].tasks[t].(leaseUntil := Some(until)));
      SetLease(token, lease.(expires := until));
      return C.Done;
    }

    method AppendLog(token: string, size: nat, knownStream: bool) returns (answer: C.Answer)
      requires Valid()
      modifies this`workflows, this`workers, this`leases, this`closed, this`events, this`sequence
      ensures Valid() && C.Outcome(State(), answer) == C.AppendLog(old(State()), token, size, knownStream)
    {
      hide Valid, SameGraph, C.ExpireLease, C.PutTask, C.Emit;
      var refused := CheckLease(token);
      if refused.Some? { return C.Refused(refused.value); }
      var lease := leases[token];
      var w, t := lease.workflowId, lease.taskId;
      if w !in workflows || t !in workflows[w].tasks { return C.Refused(C.UnknownWorkflow); }
      if !knownStream { return C.Refused(C.InvalidStream); }
      if size > chunkLimit { return C.Refused(C.LogChunkTooLarge); }
      var task := workflows[w].tasks[t];
      if task.outputBytes + size > outputLimit { return C.Refused(C.TaskOutputLimit); }
      SetTask(w, t, task.(outputBytes := task.outputBytes + size));
      Emit(R.TaskLog, w, t, lease.workerId, R.Absent);
      return C.Done;
    }

    // complete

    method Complete(token: string, exitCode: int, error: string) returns (answer: C.Answer)
      requires Valid()
      modifies this`workflows, this`workers, this`leases, this`closed, this`events, this`sequence
      ensures Valid() && C.Outcome(State(), answer) == C.Complete(old(State()), token, exitCode, error)
    {
      hide Valid, SameGraph, C.ExpireLease, C.Settle, C.Recompute;
      ghost var m := State();
      var refused := CheckLease(token);
      if refused.Some? { return C.Refused(refused.value); }
      var lease := leases[token];
      var w, t := lease.workflowId, lease.taskId;
      if w !in workflows || t !in workflows[w].tasks || workflows[w].tasks[t].leaseToken != token {
        return C.Refused(C.StaleLease);
      }
      var state := workflows[w].tasks[t].state;
      if state != Leased && state != Running { return C.Refused(C.InvalidCompleteState); }
      SettleTask(token, exitCode, error);
      SameKeys(m.workflows, workflows);
      Recompute(w);
      return C.Done;
    }

    /** A task that was never started is moved to running first. */
    method ReportStart(w: string, t: string) returns (task: C.Task)
      requires Valid() && C.Has(State(), w, t) && HoldsLease(workflows[w].tasks[t].state)
      modifies this`workflows
      ensures Valid() && State() == C.PutTask(old(State()), w, t, task)
      ensures
        var task0 := old(workflows[w].tasks[t]);
        task == task0.(state := Running, started := if task0.state == Leased then Some(now) else task0.started)
    {
      hide Valid, C.PutTask;
      ghost var m := State();
      task := workflows[w].tasks[t];
      if task.state == Leased {
        ghost var task0 := task;
        var ok := TransitionTask(w, t, Running);
        assert ok;
        task := task.(state := Running, started := Some(now));
        PutTwice(m, w, t, task0.(state := Running), task);
        SetTask(w, t, task);
      } else {
        PutTwice(m, w, t, task, task);
      }
    }

    /** The completion itself: reports the start if it is still missing, closes the lease and ends the attempt. */
    method SettleTask(token: string, exitCode: int, error: string)
      requires Valid() && C.Carries(State(), token)
      requires HoldsLease(workflows[leases[token].workflowId].tasks[leases[token].taskId].state)
      modifies this`workflows, this`workers, this`leases, this`closed, this`events, this`sequence
      ensures Valid() && State() == C.Settle(old(State()), token, exitCode, error)
      ensures SameGraph(old(workflows), workflows)
    {
      hide Valid, SameGraph, C.PutTask, C.DropLease, C.Emit, C.Delay;
      ghost var m := State();
      var lease := leases[token];
      var w, t := lease.workflowId, lease.taskId;
      var task := workflows[w].tasks[t];
      ghost var task0 := task;
      task := ReportStart(w, t);
      PutTwice(m, w, t, task, task.(finished := Some(now), exitCode := Some(exitCode), error := error));
      task := task.(finished := Some(now), exitCode := Some(exitCode), error := error);
      SetTask(w, t, task);
      ClosedAfterPut(m, token, task);
      CloseLease(token);
      ghost var dropped := C.DropLease(m, token);
      task := C.Unleased(task);
      ClosedParts(m, token);
      assert State() == C.PutTask(dropped, w, t, task);
      PutTwice(dropped, w, t, task, C.Completed(m, task0, exitCode, error));
      PutLeases(dropped, w, t, task);
      EndAttempt(w, t, task, exitCode, error, lease.workerId, m, token);
      PutKeepsGraph(dropped, w, t, C.Completed(m, task0, exitCode, error));
      EmitKeeps(C.PutTask(dropped, w, t, C.Completed(m, task0, exitCode, error)),
          C.CompletionState(task0, exitCode, error).1, w, t, lease.workerId, R.Absent);
    }

    /** The three ways an attempt ends. */
    method EndAttempt(w: string, t: string, task: C.Task, exitCode: int, error: string, x: string, ghost m: C.Model,
        ghost token: string)
      requires Valid() && C.Has(State(), w, t) && workflows[w].tasks[t] == task && task.state == Running && now == m.now
      modifies this`workflows, this`events, this`sequence
      ensures Valid()
      ensures
        var next := C.CompletionState(task, exitCode, error);
        var task' := task.(state := next.0,
          nextRetry := if next.0 == RetryWait then Some(m.now
              + C.Delay(task.baseDelayMs, task.maxDelayMs, task.attempt)) else task.nextRetry);
        State() == C.Emit(C.PutTask(old(State()), w, t, task'), next.1, w, t, x, R.Absent)
    {
      hide Valid, C.PutTask, C.Emit, C.Delay;
      ghost var m0 := State();
      if exitCode == 0 && error == "" {
        var ok := TransitionTask(w, t, Succeeded);
        assert ok;
        Emit(R.TaskSuccess, w, t, x, R.Absent);
      } else if task.attempt < task.maxAttempts {
        var ok := TransitionTask(w, t, RetryWait);
        assert ok;
        var waiting := task.(state := RetryWait, nextRetry :=
            Some(now + C.Delay(task.baseDelayMs, task.maxDelayMs, task.attempt)));
        PutTwice(m0, w, t, task.(state := RetryWait), waiting);
        SetTask(w, t, waiting);
        Emit(R.TaskRetry, w, t, x, R.Absent);
      } else {
        var ok := TransitionTask(w, t, Failed);
        assert ok;
        Emit(R.TaskFailure, w, t, x, R.Absent);
      }
    }

    // sweep

    method ListExpired() returns (tokens: seq<string>)
      ensures NoDup(tokens) && Elements(tokens) == ExpiredTokens(State()) && TokensSorted(leases, tokens)
    {
      var rest := set k | k in leases && leases[k].expires <= now;
      tokens := [];
      while rest != {}
        invariant rest <= ExpiredTokens(State()) && Elements(tokens) == ExpiredTokens(State()) - rest
        invariant NoDup(tokens) && TokensSorted(leases, tokens)
        decreases rest
      {
        hide Less;
        var k :| k in rest;
        InsertedToken(leases, k, tokens);
        tokens, rest := InsertToken(leases, k, tokens), rest - {k};
      }
    }

    method Sweep() returns (ghost tokens: seq<string>, ghost ids: seq<string>)
      requires Valid()
      modifies this`workflows, this`workers, this`leases, this`closed, this`events, this`sequence
      ensures Valid() && State() == C.Sweep(old(State()), tokens, ids) && workflows.Keys == old(workflows.Keys)
      ensures Swept(old(State()), tokens, ids) && leases.Keys <= old(leases.Keys)
    {
      hide Valid, C.ExpireLease, C.Recompute, SameGraph, TokensSorted, ExpiredTokens, Sorted, NoDup;
      ghost var m := State();
      var expired := ListExpired();
      SameGraphRefl(workflows);
      for k := 0 to |expired|
        invariant Valid() && State() == C.ExpireAll(m, expired[..k]) && SameGraph(m.workflows, workflows)
        invariant leases.Keys <= m.leases.Keys
      {
        assert expired[..k + 1][..k] == expired[..k];
        ghost var before := workflows;
        ExpireKeepsKeys(State(), expired[k]);
        ExpireLease(expired[k]);
        SameGraphTransitive(m.workflows, before, workflows);
      }
      assert expired[..|expired|] == expired;
      SameKeys(m.workflows, workflows);
      var sorted := SortedSet(workflows.Keys);
      ghost var m1 := State();
      for k := 0 to |sorted|
        invariant Valid() && State() == C.RecomputeAll(m1, sorted[..k]) && workflows.Keys == m.workflows.Keys
            && leases == m1.leases
      {
        assert sorted[..k + 1][..k] == sorted[..k];
        assert sorted[k] in Elements(sorted);
        Recompute(sorted[k]);
      }
      assert sorted[..|sorted|] == sorted;
      tokens, ids := expired, sorted;
    }

    // lease_next

    /** The candidates of one workflow that has just been recomputed. */
    method WorkflowCandidates(w: string, labels: map<string, string>) returns (found: seq<Candidacy>)
      requires Valid() && w in workflows
      ensures forall c :: c in found <==> c.w == w && OffersAt(workflows, labels, c)
    {
      hide C.LabelsMatch;
      found := [];
      var wf := workflows[w];
      for index := 0 to |wf.order|
        invariant forall c :: c in found <==> c.w == w && c.index < index && OffersAt(workflows, labels, c)
      {
        OrderKnown(w, index);
        var task := wf.tasks[wf.order[index]];
        if task.state == Ready && C.LabelsMatch(labels, task.labels) {
          found := found + [Candidacy(wf.created, w, index)];
        }
      }
    }

    /** The loop of `lease_next` over the workflows, in the order of the dictionary. */
    method ListCandidates(x: string, listing: seq<string>) returns (found: seq<Candidacy>)
      requires Valid() && x in workers && NoDup(listing) && Elements(listing) == workflows.Keys
      modifies this`workflows, this`events, this`sequence
      ensures Valid() && State() == C.RecomputeAll(old(State()), listing)
      ensures forall c :: c in found <==> Open(workflows, c.w) && OffersAt(workflows, workers[x].labels, c)
    {
      hide Valid, C.Recompute, OffersAt, NoDup;
      found := [];
      var labels := workers[x].labels;
      ghost var m := State();
      for n := 0 to |listing|
        invariant Valid() && State() == C.RecomputeAll(m, listing[..n]) && workflows.Keys == m.workflows.Keys
        invariant Collected(workflows, labels, listing[..n], found)
      {
        var w := listing[n];
        assert listing[..n + 1][..n] == listing[..n];
        assert w in Elements(listing);
        ghost var before := workflows;
        RecomputeLocal(State(), w);
        if workflows[w].state == WorkflowPending || workflows[w].state == WorkflowRunning {
          Recompute(w);
          var more := WorkflowCandidates(w, labels);
          if workflows[w].state != WorkflowPending && workflows[w].state != WorkflowRunning {
            NothingReady(workflows, labels, w, more);
          }
          CollectMore(before, workflows, labels, listing, n, found, more);
          found := found + more;
        } else {
          CollectMore(before, workflows, labels, listing, n, found, []);
          assert found + [] == found;
        }
      }
      assert listing[..|listing|] == listing;
      CollectedAll(workflows, labels, listing, found);
    }

    /** `candidates.sort()` and its first element. */
    static method Earliest(found: seq<Candidacy>) returns (best: Candidacy)
      requires found != []
      ensures best in found && forall c :: c in found ==> !Earlier(c, best)
    {
      hide Earlier;
      best := found[0];
      EarlierIrreflexive(best);
      for k := 1 to |found|
        invariant best in found && forall j :: 0 <= j < k ==> !Earlier(found[j], best)
      {
        if Earlier(found[k], best) {
          forall j | 0 <= j < k ensures !Earlier(found[j], found[k]) {
            if Earlier(found[j], found[k]) { EarlierTransitive(found[j], found[k], best); }
          }
          best := found[k];
          EarlierIrreflexive(best);
        }
      }
    }

    /** `lease_next`; `listing` is the order of the workflow dictionary, `token` a fresh id. */
    method LeaseNext(x: string, token: string, listing: seq<string>)
      returns (answer: C.Answer, ghost tokens: seq<string>, ghost ids: seq<string>,
          ghost pick: Option<(string, string)>)
      requires Valid() && token != "" && NoDup(listing) && Elements(listing) == workflows.Keys
      modifies this`workflows, this`workers, this`leases, this`closed, this`events, this`sequence
      ensures Valid()
      ensures C.Outcome(State(), answer) == C.LeaseNext(C.Sweep(old(State()), tokens, ids), x, pick, token)
      ensures Serves(C.Sweep(old(State()), tokens, ids), x) ==> FirstPick(C.Sweep(old(State()), tokens, ids), x, pick)
    {
      hide Valid, C.Sweep, NoDup, Swept, FirstPick, C.Grant, C.RecomputeAll, C.Candidate, OffersAt, Open, Earlier;
      ghost var m := State();
      pick := None;
      tokens, ids := Sweep();
      if x !in workers { return C.Refused(C.UnknownWorker), tokens, ids, pick; }
      if workers[x].dropped { return C.Refused(C.WorkerDropped), tokens, ids, pick; }
      if now - workers[x].heartbeat > workerTtl { return C.Refused(C.WorkerExpired), tokens, ids, pick; }
      if |workers[x].activeTokens| >= workers[x].capacity { return C.NoLease, tokens, ids, pick; }
      ghost var m1 := State();
      RecomputeAllWorkers(m1, listing);
      var found := ListCandidates(x, listing);
      SweepMore(m, tokens, ids, listing);
      ids := ids + listing;
      if found == [] {
        NothingFound(State(), x, found);
        return C.NoLease, tokens, ids, pick;
      }
      var best := Earliest(found);
      FoundFirst(State(), x, found, best);
      var w := best.w;
      var t := workflows[w].order[best.index];
      pick := Some((w, t));
      GrantLease(x, w, t, token);
      return C.Done, tokens, ids, pick;
    }

    method GrantLease(x: string, w: string, t: string, token: string)
      requires Valid() && token != "" && x in workers && C.Candidate(State(), x, w, t)
      modifies this`workflows, this`workers, this`leases, this`events, this`sequence
      ensures Valid() && State() == C.Grant(old(State()), x, w, t, token)
    {
      hide Formed, C.PutTask;
      ghost var m := State();
      var task := workflows[w].tasks[t];
      var until := now + leaseDuration;
      PutTwice(m, w, t, task.(attempt := task.attempt + 1), task.(attempt := task.attempt + 1, state := Leased));
      SetTask(w, t, task.(attempt := task.attempt + 1));
      var ok := TransitionTask(w, t, Leased);
      assert ok;
      task := task.(attempt := task.attempt + 1, state := Leased);
      PutTwice(m, w, t, task, task.(leaseToken := token, leaseOwner := x, leaseUntil := Some(until),
          nextRetry := None));
      task := task.(leaseToken := token, leaseOwner := x, leaseUntil := Some(until), nextRetry := None);
      SetTask(w, t, task);
      PutElse(m, w, t, task);
      leases := leases[token := C.Lease(w, t, x, task.attempt, now, until, false)];
      workers := workers[x := workers[x].(activeTokens := workers[x].activeTokens + {token})];
      Emit(R.TaskLeased, w, t, x, R.Number(task.attempt));
    }

    // add_workflow

    method AddWorkflow(w: string, tasks: seq<Submitted>) returns (answer: C.Answer, ghost order: Option<seq<string>>)
      requires Valid()
      modifies this`workflows, this`events, this`sequence
      ensures Valid() && C.Outcome(State(), answer) == C.AddWorkflow(old(State()), w, TasksById(tasks), order)
      ensures w !in old(workflows) ==> (order.Some? <==> TaskRemoval.ValidDag(Nodes(tasks)))
      ensures order.Some? ==> LeastTopological(DslGraph.ById(Nodes(tasks)), order.value)
    {
      hide Formed, C.Recompute, C.Emit, TasksById, LeastTopological;
      order := None;
      if w in workflows { return C.Refused(C.WorkflowExists), order; }
      var verdict := TaskRemoval.ValidateDag(Nodes(tasks));
      if verdict.Rejected? { return C.Refused(C.InvalidGraph), order; }
      order := Some(verdict.order);
      var byId: map<string, C.Task> := map[];
      ghost var m := State();
      NoTasks(tasks);
      for k := 0 to |tasks|
        invariant byId == TasksById(tasks[..k]) && Valid() && State() == m
      {
        NextTask(tasks, k);
        byId := byId[tasks[k].node.id := Fresh(tasks[k])];
      }
      assert tasks[..|tasks|] == tasks;
      var wf := C.Workflow.Workflow(byId, verdict.order, now, WorkflowPending, None);
      NewFormed(tasks, wf);
      workflows := workflows[w := wf];
      Emit(R.WorkflowCreated, w, "", "", R.Absent);
      EmitKeeps(m.(workflows := m.workflows[w := wf]), R.WorkflowCreated, w, "", "", R.Absent);
      Recompute(w);
      return C.Done, order;
    }

    // Workers and the clock

    method RegisterWorker(x: string, capacity: int, labels: map<string, string>) returns (answer: C.Answer)
      requires Valid()
      modifies this`workers, this`events, this`sequence
      ensures Valid() && C.Outcome(State(), answer) == C.RegisterWorker(old(State()), x, capacity, labels)
    {
      hide Formed;
      if capacity < 1 || capacity > 256 { return C.Refused(C.BadCapacity); }
      if x in workers && !workers[x].dropped { return C.Refused(C.WorkerExists); }
      workers := workers[x := C.Worker.Worker(capacity, labels, now, {}, false)];
      Emit(R.WorkerRegistered, "", "", x, R.Absent);
      return C.Done;
    }

    method Heartbeat(x: string) returns (answer: C.Answer)
      requires Valid()
      modifies this`workers, this`events, this`sequence
      ensures Valid() && C.Outcome(State(), answer) == C.Heartbeat(old(State()), x)
    {
      hide Formed;
      if x !in workers { return C.Refused(C.UnknownWorker); }
      if workers[x].dropped { return C.Refused(C.WorkerDropped); }
      workers := workers[x := workers[x].(heartbeat := now)];
      Emit(R.WorkerHeartbeat, "", "", x, R.Absent);
      return C.Done;
    }

    method DropWorker(x: string) returns (answer: C.Answer)
      requires Valid()
      modifies this`workers
      ensures Valid() && C.Outcome(State(), answer) == C.DropWorker(old(State()), x)
    {
      hide Formed;
      if x !in workers { return C.Refused(C.UnknownWorker); }
      workers := workers[x := workers[x].(dropped := true)];
      return C.Done;
    }

    /** `advance`, followed by its sweep unless the clock is asked to run backwards. */
    method Advance(milliseconds: int) returns (answer: C.Answer, ghost tokens: seq<string>, ghost ids: seq<string>)
      requires Valid()
      modifies this
      ensures Valid() && answer == C.Advance(old(State()), milliseconds).answer
      ensures State() == if milliseconds < 0 then old(State())
          else C.Sweep(C.Advance(old(State()), milliseconds).model, tokens, ids)
    {
      hide Formed, C.Sweep, Swept;
      tokens, ids := [], [];
      if milliseconds < 0 { return C.Refused(C.TimeBackwards), tokens, ids; }
      now := now + milliseconds;
      tokens, ids := Sweep();
      return C.Done, tokens, ids;
    }

    // cancel_workflow

    /** The body of the loop of `cancel_workflow`. */
    method CancelTask(ghost m: C.Model, w: string, ghost done: set<string>, t: string)
      requires Valid() && w in m.workflows && Linked(m, w) && State() == Cancelling(m, w, done)
      requires t in m.workflows[w].tasks && t !in done
      modifies this`workflows, this`workers, this`leases, this`closed
      ensures Valid() && State() == Cancelling(m, w, done + {t})
    {
      hide Valid, Cancelling, C.PutTask, C.DropLease, Linked, C.CancelledRecord;
      CancellingParts(m, w, done);
      var task := workflows[w].tasks[t];
      if TerminalTask(task.state) {
        CancellingTerminal(m, w, done, t);
        return;
      }
      ghost var m1 := State();
      ghost var base := Unleasing(m1, w, t);
      CancellingToken(m, w, done, t);
      DetachTask(w, t);
      var detached := workflows[w].tasks[t];
      var cleared := detached.(nextRetry := None, leaseToken := "", leaseOwner := "", leaseUntil := None,
          finished := Some(now));
      SetTask(w, t, cleared);
      PutTwice(base, w, t, detached, cleared);
      PutTwice(base, w, t, cleared, cleared.(state := Cancelled));
      var ok := TransitionTask(w, t, Cancelled);
      assert ok;
      RecordCancelled(task, detached, now);
      CancellingStep(m, w, done, t);
    }

    /** Closes the lease that a task holds, if it holds one. */
    method DetachTask(w: string, t: string)
      requires Valid() && C.Has(State(), w, t)
      requires OwnLease(State(), w, t)
      modifies this`workflows, this`workers, this`leases, this`closed
      ensures Valid() && C.Has(State(), w, t) && now == old(now)
      ensures C.Has(Unleasing(old(State()), w, t), w, t) && State()
          == C.PutTask(Unleasing(old(State()), w, t), w, t, workflows[w].tasks[t])
      ensures workflows[w].tasks[t] == C.Unleased(old(workflows[w].tasks[t]))
          || workflows[w].tasks[t] == old(workflows[w].tasks[t])
    {
      hide Valid, C.PutTask, C.DropLease;
      ghost var m := State();
      var task := workflows[w].tasks[t];
      if task.leaseToken != "" && task.leaseToken in leases {
        ghost var k := task.leaseToken;
        CloseLease(task.leaseToken);
        ClosedParts(m, k);
        PutTwice(C.DropLease(m, k), w, t, C.Released(task, k), C.Released(task, k));
      } else {
        PutTwice(m, w, t, task, task);
      }
    }

    /** Requires what every run of the model keeps: a lease held by an unfinished task names that task. */
    method CancelWorkflow(w: string) returns (answer: C.Answer)
      requires Valid() && (w in workflows ==> Linked(State(), w))
      modifies this`workflows, this`workers, this`leases, this`closed, this`events, this`sequence
      ensures Valid() && C.Outcome(State(), answer) == C.CancelWorkflow(old(State()), w)
    {
      hide Formed, Cancelling, C.CancelledModel, C.Emit, Linked;
      if w !in workflows { return C.Refused(C.UnknownWorkflow); }
      if TerminalWorkflow(workflows[w].state) { return C.Done; }
      ghost var m := State();
      var order := workflows[w].order;
      var wf := workflows[w].(state := WorkflowCancelled, finished := Some(now));
      SameFormed(workflows[w], wf);
      workflows := workflows[w := wf];
      CancellingStart(m, w);
      ghost var done: set<string> := {};
      for n := 0 to |order|
        invariant Valid() && done == Elements(order[..n]) && State() == Cancelling(m, w, done)
      {
        OrderPlace(m.workflows[w], n);
        assert Elements(order[..n + 1]) == Elements(order[..n]) + {order[n]};
        CancelTask(m, w, done, order[n]);
        done := done + {order[n]};
      }
      assert order[..|order|] == order;
      OrderAll(m.workflows[w]);
      CancellingEnd(m, w, done);
      Emit(R.WorkflowCancel, w, "", "", R.Absent);
      return C.Done;
    }
  }

  lemma SameFormed(wf: C.Workflow, wf': C.Workflow)
    requires wf'.tasks == wf.tasks && wf'.order == wf.order
    ensures Formed(wf') <==> Formed(wf)
  {
  }

  /** The same workflows with the same tasks and orders. */
  ghost predicate SameGraph(a: map<string, C.Workflow>, b: map<string, C.Workflow>) {
    a.Keys == b.Keys && forall w :: w in a ==> a[w].order == b[w].order && a[w].tasks.Keys == b[w].tasks.Keys
  }

  lemma SameKeys(a: map<string, C.Workflow>, b: map<string, C.Workflow>)
    requires SameGraph(a, b)
    ensures a.Keys == b.Keys
  {
  }

  lemma SameGraphTransitive(a: map<string, C.Workflow>, b: map<string, C.Workflow>, c: map<string, C.Workflow>)
    requires SameGraph(a, b) && SameGraph(b, c)
    ensures SameGraph(a, c)
  {
  }

  lemma RecomputeKeepsGraph(m: C.Model, w: string, t: string)
    requires w in m.workflows
    ensures SameGraph(m.workflows, C.RecomputeTask(m, w, t).workflows)
    ensures C.RecomputeTask(m, w, t).workflows[w].state == m.workflows[w].state
    ensures forall v :: v in m.workflows && v != w ==> C.RecomputeTask(m, w, t).workflows[v] == m.workflows[v]
  {
    hide C.Impossible, C.Satisfied, SameGraph;
    if t in m.workflows[w].tasks {
      forall task: C.Task
        ensures SameGraph(m.workflows, C.PutTask(m, w, t, task).workflows)
        ensures C.PutTask(m, w, t, task).workflows[w].state == m.workflows[w].state
        ensures forall v :: v in m.workflows && v != w ==> C.PutTask(m, w, t, task).workflows[v] == m.workflows[v]
      {
        PutKeepsGraph(m, w, t, task);
      }
    }
    SameGraphRefl(m.workflows);
  }

  lemma EmitKeeps(m: C.Model, kind: R.Kind, w: string, t: string, x: string, attempt: R.Number)
    ensures C.Emit(m, kind, w, t, x, attempt).workflows == m.workflows
  {
  }

  lemma ClosedParts(m: C.Model, token: string)
    requires token in m.leases
    ensures C.DropLease(m, token).workflows == m.workflows && C.DropLease(m, token).now == m.now
  {
  }

  /** Rewriting a task touches no lease. */
  lemma PutLeases(m: C.Model, w: string, t: string, task: C.Task)
    requires C.Has(m, w, t)
    ensures C.PutTask(m, w, t, task).leases == m.leases && C.PutTask(m, w, t, task).now == m.now
    ensures forall leases: map<string, C.Lease> ::
      C.PutTask(m, w, t, task).(leases := leases) == C.PutTask(m.(leases := leases), w, t, task)
  {
  }

  /** Closing a lease after rewriting its task. */
  lemma ClosedAfterPut(m: C.Model, token: string, task: C.Task)
    requires token in m.leases && C.Has(m, m.leases[token].workflowId, m.leases[token].taskId)
        && task.leaseToken == token
    ensures
      var w, t := m.leases[token].workflowId, m.leases[token].taskId;
      var put := C.PutTask(m, w, t, task);
      && token in put.leases && put.leases[token] == m.leases[token]
      && C.Has(put, w, t) && put.workflows[w].tasks[t] == task
      && C.PutTask(C.DropLease(put, token), w, t, C.Released(task, token))
          == C.PutTask(C.DropLease(m, token), w, t, C.Unleased(task))
  {
    var w, t := m.leases[token].workflowId, m.leases[token].taskId;
    PutTwice(C.DropLease(m, token), w, t, task, C.Unleased(task));
    assert C.DropLease(C.PutTask(m, w, t, task), token) == C.PutTask(C.DropLease(m, token), w, t, task);
  }

  lemma SameGraphRefl(a: map<string, C.Workflow>)
    ensures SameGraph(a, a)
  {
  }

  lemma PutKeepsGraph(m: C.Model, w: string, t: string, task: C.Task)
    requires C.Has(m, w, t)
    ensures SameGraph(m.workflows, C.PutTask(m, w, t, task).workflows)
    ensures C.PutTask(m, w, t, task).workflows[w].state == m.workflows[w].state
    ensures forall v :: v in m.workflows && v != w ==> C.PutTask(m, w, t, task).workflows[v] == m.workflows[v]
  {
    assert m.workflows[w].tasks[t := task].Keys == m.workflows[w].tasks.Keys;
  }

  // Sweeping and leasing, as values

  ghost function ExpiredTokens(m: C.Model): set<string> {
    set k | k in m.leases && m.leases[k].expires <= m.now
  }

  /** By expiry, then by token. */
  predicate Before(leases: map<string, C.Lease>, a: string, b: string) {
    a in leases && b in leases
    && (leases[a].expires < leases[b].expires || (leases[a].expires == leases[b].expires && Less(a, b)))
  }

  ghost predicate TokensSorted(leases: map<string, C.Lease>, tokens: seq<string>) {
    forall i, j :: 0 <= i < j < |tokens| ==> !Before(leases, tokens[j], tokens[i])
  }

  function InsertToken(leases: map<string, C.Lease>, k: string, tokens: seq<string>): (r: seq<string>)
    ensures |r| == |tokens| + 1 && forall x :: x in r <==> x == k || x in tokens
  {
    if tokens == [] || Before(leases, k, tokens[0]) then [k] + tokens
    else
      assert tokens == [tokens[0]] + tokens[1..];
      [tokens[0]] + InsertToken(leases, k, tokens[1..])
  }

  lemma BeforeTransitive(leases: map<string, C.Lease>, a: string, b: string, c: string)
    requires Before(leases, a, b) && Before(leases, b, c)
    ensures Before(leases, a, c)
  {
    if leases[a].expires == leases[c].expires { LessTransitive(a, b, c); }
  }

  lemma BeforeIrreflexive(leases: map<string, C.Lease>, a: string)
    ensures !Before(leases, a, a)
  {
    LessIrreflexive(a);
  }

  lemma {:induction false} InsertedToken(leases: map<string, C.Lease>, k: string, tokens: seq<string>)
    requires NoDup(tokens) && k !in tokens && TokensSorted(leases, tokens)
    ensures NoDup(InsertToken(leases, k, tokens)) && TokensSorted(leases, InsertToken(leases, k, tokens))
    ensures Elements(InsertToken(leases, k, tokens)) == Elements(tokens) + {k}
    decreases |tokens|
  {
    hide Before;
    var r := InsertToken(leases, k, tokens);
    if tokens != [] && !Before(leases, k, tokens[0]) {
      InsertedToken(leases, k, tokens[1..]);
      var rest := InsertToken(leases, k, tokens[1..]);
      assert r == [tokens[0]] + rest;
      forall i, j | 0 <= i < j < |r| ensures !Before(leases, r[j], r[i]) && r[i] != r[j] {
        assert r[j] == rest[j - 1] && rest[j - 1] in rest;
        if i > 0 { assert r[i] == rest[i - 1]; }
      }
    } else if tokens != [] {
      forall i, j | 0 <= i < j < |r| ensures !Before(leases, r[j], r[i]) && r[i] != r[j] {
        assert r[j] == tokens[j - 1];
        if i == 0 && Before(leases, tokens[j - 1], k) {
          BeforeTransitive(leases, tokens[j - 1], k, tokens[0]);
          BeforeIrreflexive(leases, tokens[0]);
        }
        if i > 0 { assert r[i] == tokens[i - 1]; }
      }
    }
  }

  /** `sorted(keys)`. */
  method SortedSet(keys: set<string>) returns (r: seq<string>)
    ensures Sorted(r) && NoDup(r) && Elements(r) == keys
  {
    hide Sorted, Insert;
    var rest := keys;
    r := [];
    SortedNothing();
    while rest != {}
      invariant rest <= keys && Sorted(r) && NoDup(r) && Elements(r) == keys - rest
      decreases rest
    {
      var k :| k in rest;
      InsertSorted(k, r);
      InsertMembers(k, r);
      r, rest := Insert(k, r), rest - {k};
    }
  }

  lemma SortedNothing()
    ensures Sorted([])
  {
  }

  lemma InsertMembers(k: string, s: seq<string>)
    requires NoDup(s) && k !in s
    ensures NoDup(Insert(k, s)) && Elements(Insert(k, s)) == Elements(s) + {k}
  {
    var r := Insert(k, s);
    forall x ensures x in r <==> x == k || x in s {
      assert x in r <==> x in multiset(r);
      assert x in s <==> x in multiset(s);
    }
    forall i, j | 0 <= i < j < |r| ensures r[i] != r[j] {
      if r[i] == r[j] {
        Repeated(r, i, j);
        SingleCount(s, r[i]);
      }
    }
  }

  lemma Repeated(r: seq<string>, i: nat, j: nat)
    requires i < j < |r| && r[i] == r[j]
    ensures multiset(r)[r[i]] >= 2
  {
    assert r == r[..i] + [r[i]] + r[i + 1..j] + [r[j]] + r[j + 1..];
  }

  lemma {:induction false} SingleCount(s: seq<string>, x: string)
    requires NoDup(s)
    ensures multiset(s)[x] <= 1
  {
    if s != [] {
      var init := s[..|s| - 1];
      SingleCount(init, x);
      assert s == init + [s[|s| - 1]];
      if x == s[|s| - 1] { assert x !in init; }
    }
  }

  /** What a sweep goes through: the expired leases, oldest first, and then every workflow, by id. */
  ghost predicate Swept(m: C.Model, tokens: seq<string>, ids: seq<string>) {
    && NoDup(tokens) && Elements(tokens) == ExpiredTokens(m) && TokensSorted(m.leases, tokens)
    && NoDup(ids) && Elements(ids) == m.workflows.Keys && Sorted(ids)
  }

  lemma ExpireKeepsKeys(m: C.Model, k: string)
    ensures C.ExpireLease(m, k).leases.Keys <= m.leases.Keys
  {
  }

  datatype Candidacy = Candidacy(created: Time, w: string, index: nat)

  predicate Earlier(c: Candidacy, d: Candidacy) {
    || c.created < d.created
    || (c.created == d.created && (Less(c.w, d.w) || (c.w == d.w && c.index < d.index)))
  }

  lemma EarlierIrreflexive(c: Candidacy)
    ensures !Earlier(c, c)
  {
    LessIrreflexive(c.w);
  }

  lemma EarlierTransitive(c: Candidacy, d: Candidacy, e: Candidacy)
    requires Earlier(c, d) && Earlier(d, e)
    ensures Earlier(c, e)
  {
    if Less(c.w, d.w) && Less(d.w, e.w) { LessTransitive(c.w, d.w, e.w); }
  }

  ghost predicate Open(workflows: map<string, C.Workflow>, w: string) {
    w in workflows && !TerminalWorkflow(workflows[w].state)
  }

  /** The task at that place is ready and matches the labels. */
  ghost predicate OffersAt(workflows: map<string, C.Workflow>, labels: map<string, string>, c: Candidacy) {
    && c.w in workflows && c.created == workflows[c.w].created && c.index < |workflows[c.w].order|
    && workflows[c.w].order[c.index] in workflows[c.w].tasks
    && workflows[c.w].tasks[workflows[c.w].order[c.index]].state == Ready
    && C.LabelsMatch(labels, workflows[c.w].tasks[workflows[c.w].order[c.index]].labels)
  }

  ghost predicate Collected(workflows: map<string, C.Workflow>, labels: map<string, string>, seen: seq<string>,
      found: seq<Candidacy>) {
    forall c :: c in found <==> c.w in seen && Open(workflows, c.w) && OffersAt(workflows, labels, c)
  }

  /** Recomputing a workflow touches no other, and a workflow that it ends has no ready task. */
  lemma RecomputeLocal(m: C.Model, w: string)
    requires w in m.workflows
    ensures
      var m' := C.Recompute(m, w);
      && m'.workflows.Keys == m.workflows.Keys && m'.workers == m.workers
      && (forall v :: v in m.workflows && v != w ==> m'.workflows[v] == m.workflows[v])
      && (TerminalWorkflow(m.workflows[w].state) ==> m' == m)
      && (TerminalWorkflow(m'.workflows[w].state) && !TerminalWorkflow(m.workflows[w].state) ==>
            forall t :: t in m'.workflows[w].tasks ==> m'.workflows[w].tasks[t].state != Ready)
  {
    hide C.RecomputeTasks, C.RecomputeState;
    if !TerminalWorkflow(m.workflows[w].state) {
      var order := m.workflows[w].order;
      RecomputeTasksLocal(m, w, order, |order|);
      RecomputeStateLocal(C.RecomputeTasks(m, w, order, |order|), w);
    }
  }

  lemma RecomputeStateLocal(m: C.Model, w: string)
    requires w in m.workflows && !TerminalWorkflow(m.workflows[w].state)
    ensures
      var m' := C.RecomputeState(m, w);
      && m'.workflows.Keys == m.workflows.Keys && m'.workers == m.workers
      && (forall v :: v in m.workflows && v != w ==> m'.workflows[v] == m.workflows[v])
      && (TerminalWorkflow(m'.workflows[w].state) ==>
          forall t :: t in m'.workflows[w].tasks ==> m'.workflows[w].tasks[t].state != Ready)
  {
  }

  lemma {:induction false} RecomputeTasksLocal(m: C.Model, w: string, order: seq<string>, n: nat)
    requires w in m.workflows && n <= |order|
    ensures
      var m' := C.RecomputeTasks(m, w, order, n);
      && m'.workflows.Keys == m.workflows.Keys && m'.workers == m.workers
      && m'.workflows[w].state == m.workflows[w].state
      && forall v :: v in m.workflows && v != w ==> m'.workflows[v] == m.workflows[v]
  {
    hide C.RecomputeTask, SameGraph;
    if n > 0 {
      RecomputeTasksLocal(m, w, order, n - 1);
      var m1 := C.RecomputeTasks(m, w, order, n - 1);
      RecomputeKeepsGraph(m1, w, order[n - 1]);
      SameKeys(m1.workflows, C.RecomputeTask(m1, w, order[n - 1]).workflows);
      RecomputeTaskWorkers(m1, w, order[n - 1]);
    }
  }

  lemma RecomputeTaskWorkers(m: C.Model, w: string, t: string)
    requires w in m.workflows
    ensures C.RecomputeTask(m, w, t).workers == m.workers
  {
    hide C.Impossible, C.Satisfied;
  }

  lemma {:induction false} RecomputeAllWorkers(m: C.Model, ids: seq<string>)
    requires Elements(ids) <= m.workflows.Keys
    ensures C.RecomputeAll(m, ids).workers == m.workers && C.RecomputeAll(m, ids).workflows.Keys == m.workflows.Keys
    ensures C.RecomputeAll(m, ids).now == m.now
  {
    hide C.Recompute;
    if ids != [] {
      var init, last := ids[..|ids| - 1], ids[|ids| - 1];
      assert last in Elements(ids) && Elements(init) <= Elements(ids);
      RecomputeAllWorkers(m, init);
      RecomputeLocal(C.RecomputeAll(m, init), last);
      RecomputeClock(C.RecomputeAll(m, init), last);
    }
  }

  lemma RecomputeClock(m: C.Model, w: string)
    ensures C.Recompute(m, w).now == m.now
  {
    hide C.NextState;
    if w in m.workflows { TasksClock(m, w, m.workflows[w].order, |m.workflows[w].order|); }
  }

  lemma {:induction false} TasksClock(m: C.Model, w: string, order: seq<string>, n: nat)
    requires w in m.workflows && n <= |order|
    ensures C.RecomputeTasks(m, w, order, n).now == m.now
  {
    hide C.Impossible, C.Satisfied;
    if n > 0 { TasksClock(m, w, order, n - 1); }
  }

  lemma {:induction false} RecomputeMore(m: C.Model, a: seq<string>, b: seq<string>)
    ensures C.RecomputeAll(m, a + b) == C.RecomputeAll(C.RecomputeAll(m, a), b)
  {
    hide C.Recompute;
    if b == [] {
      assert a + b == a;
    } else {
      RecomputeMore(m, a, b[..|b| - 1]);
      assert (a + b)[..|a + b| - 1] == a + b[..|b| - 1];
    }
  }

  lemma SweepMore(m: C.Model, tokens: seq<string>, ids: seq<string>, more: seq<string>)
    ensures C.Sweep(m, tokens, ids + more) == C.RecomputeAll(C.Sweep(m, tokens, ids), more)
  {
    hide C.RecomputeAll, C.ExpireAll;
    RecomputeMore(C.ExpireAll(m, tokens), ids, more);
  }

  lemma NothingReady(workflows: map<string, C.Workflow>, labels: map<string, string>, w: string, more: seq<Candidacy>)
    requires w in workflows && forall t :: t in workflows[w].tasks ==> workflows[w].tasks[t].state != Ready
    requires forall c :: c in more <==> c.w == w && OffersAt(workflows, labels, c)
    ensures forall c :: c !in more
  {
  }

  lemma CollectMore(before: map<string, C.Workflow>, workflows: map<string, C.Workflow>, labels: map<string, string>,
                    listing: seq<string>, n: nat, found: seq<Candidacy>, more: seq<Candidacy>)
    requires NoDup(listing) && n < |listing| && Collected(before, labels, listing[..n], found)
    requires forall v :: v in before && v != listing[n] ==> v in workflows && workflows[v] == before[v]
    requires workflows.Keys == before.Keys
    requires forall c :: c in more <==> c.w == listing[n] && Open(workflows, c.w) && OffersAt(workflows, labels, c)
    ensures Collected(workflows, labels, listing[..n + 1], found + more)
  {
    hide Open, OffersAt;
    var seen := listing[..n + 1];
    assert seen == listing[..n] + [listing[n]];
    assert listing[n] !in listing[..n];
    forall c ensures c in found + more <==> c.w in seen && Open(workflows, c.w) && OffersAt(workflows, labels, c) {
      if c.w != listing[n] { SameOffer(before, workflows, labels, c); }
    }
  }

  lemma SameOffer(before: map<string, C.Workflow>, workflows: map<string, C.Workflow>, labels: map<string, string>,
      c: Candidacy)
    requires before.Keys == workflows.Keys && (c.w in before ==> workflows[c.w] == before[c.w])
    ensures Open(before, c.w) <==> Open(workflows, c.w)
    ensures OffersAt(before, labels, c) <==> OffersAt(workflows, labels, c)
  {
    hide C.LabelsMatch;
  }

  lemma CollectedAll(workflows: map<string, C.Workflow>, labels: map<string, string>, listing: seq<string>,
      found: seq<Candidacy>)
    requires Collected(workflows, labels, listing, found) && Elements(listing) == workflows.Keys
    ensures forall c :: c in found <==> Open(workflows, c.w) && OffersAt(workflows, labels, c)
  {
    forall c ensures c in found <==> Open(workflows, c.w) && OffersAt(workflows, labels, c) {
      assert c.w in listing <==> c.w in Elements(listing);
    }
  }

  /** The worker gets as far as asking for a task. */
  ghost predicate Serves(m: C.Model, x: string) {
    && x in m.workers && !m.workers[x].dropped && m.now - m.workers[x].heartbeat <= m.workerTtl
    && |m.workers[x].activeTokens| < m.workers[x].capacity
  }

  /** The pick is the earliest candidate; there is none only if there is no candidate. */
  ghost predicate FirstPick(m: C.Model, x: string, pick: Option<(string, string)>) {
    match pick
    case None => forall w, t :: !C.Candidate(m, x, w, t)
    case Some(p) => exists index :: FirstAt(m, x, p.0, p.1, index)
  }

  ghost predicate FirstAt(m: C.Model, x: string, w: string, t: string, index: nat) {
    && C.Candidate(m, x, w, t) && index < |m.workflows[w].order| && m.workflows[w].order[index] == t
    && forall v, k ::
         v in m.workflows && 0 <= k < |m.workflows[v].order| && C.Candidate(m, x, v, m.workflows[v].order[k]) ==>
         !Earlier(Candidacy(m.workflows[v].created, v, k), Candidacy(m.workflows[w].created, w, index))
  }

  /** Candidates of the model are what the loop collects. */
  lemma CandidateOffers(m: C.Model, x: string, c: Candidacy)
    requires x in m.workers && c.w in m.workflows && c.index < |m.workflows[c.w].order|
        && c.created == m.workflows[c.w].created
    ensures C.Candidate(m, x, c.w, m.workflows[c.w].order[c.index]) <==>
            Open(m.workflows, c.w) && OffersAt(m.workflows, m.workers[x].labels, c)
  {
    hide C.LabelsMatch;
  }

  lemma NothingFound(m: C.Model, x: string, found: seq<Candidacy>)
    requires x in m.workers && found == []
    requires forall c :: c in found <==> Open(m.workflows, c.w) && OffersAt(m.workflows, m.workers[x].labels, c)
    ensures FirstPick(m, x, None)
  {
    hide Open, OffersAt, C.LabelsMatch;
    forall w, t ensures !C.Candidate(m, x, w, t) {
      if C.Candidate(m, x, w, t) {
        var k :| 0 <= k < |m.workflows[w].order| && m.workflows[w].order[k] == t;
        CandidateOffers(m, x, Candidacy(m.workflows[w].created, w, k));
        assert false;
      }
    }
  }

  lemma FoundFirst(m: C.Model, x: string, found: seq<Candidacy>, best: Candidacy)
    requires x in m.workers && best in found && forall c :: c in found ==> !Earlier(c, best)
    requires forall c :: c in found <==> Open(m.workflows, c.w) && OffersAt(m.workflows, m.workers[x].labels, c)
    ensures best.w in m.workflows && best.index < |m.workflows[best.w].order|
    ensures C.Candidate(m, x, best.w, m.workflows[best.w].order[best.index])
    ensures FirstPick(m, x, Some((best.w, m.workflows[best.w].order[best.index])))
  {
    OfferPlace(m, x, best);
    hide Open, OffersAt, C.Candidate, Earlier;
    CandidateOffers(m, x, best);
    forall v, k | v in m.workflows && 0 <= k < |m.workflows[v].order| && C.Candidate(m, x, v, m.workflows[v].order[k])
      ensures !Earlier(Candidacy(m.workflows[v].created, v, k),
          Candidacy(m.workflows[best.w].created, best.w, best.index))
    {
      CandidateOffers(m, x, Candidacy(m.workflows[v].created, v, k));
      assert Candidacy(m.workflows[v].created, v, k) in found;
    }
    assert FirstAt(m, x, best.w, m.workflows[best.w].order[best.index], best.index);
  }

  lemma OfferPlace(m: C.Model, x: string, c: Candidacy)
    requires x in m.workers && OffersAt(m.workflows, m.workers[x].labels, c)
    ensures c.w in m.workflows && c.index < |m.workflows[c.w].order| && c.created == m.workflows[c.w].created
    ensures c == Candidacy(m.workflows[c.w].created, c.w, c.index)
  {
    hide C.LabelsMatch;
  }

  lemma PutElse(m: C.Model, w: string, t: string, task: C.Task)
    requires C.Has(m, w, t)
    ensures
      var put := C.PutTask(m, w, t, task);
      put.workers == m.workers && put.leases == m.leases && put.now == m.now && put.events == m.events
    ensures forall leases: map<string, C.Lease>, workers: map<string, C.Worker> ::
      C.PutTask(m, w, t, task).(leases := leases, workers := workers)
          == C.PutTask(m, w, t, task).(leases := leases).(workers := workers)
  {
  }

  // Submitted tasks

  lemma NoTasks(tasks: seq<Submitted>)
    ensures TasksById(tasks[..0]) == map[]
  {
  }

  lemma NextTask(tasks: seq<Submitted>, k: nat)
    requires k < |tasks|
    ensures TasksById(tasks[..k + 1]) == TasksById(tasks[..k])[tasks[k].node.id := Fresh(tasks[k])]
  {
    assert tasks[..k + 1][..k] == tasks[..k];
  }

  lemma {:induction false} TasksByIdGraph(tasks: seq<Submitted>)
    ensures TasksById(tasks).Keys == DslGraph.ById(Nodes(tasks)).Keys
    ensures forall t :: t in TasksById(tasks) ==> TasksById(tasks)[t].dependsOn == DslGraph.ById(Nodes(tasks))[t]
  {
    if tasks != [] {
      var init := tasks[..|tasks| - 1];
      TasksByIdGraph(init);
      assert Nodes(tasks)[..|tasks| - 1] == Nodes(init);
    }
  }

  lemma NewFormed(tasks: seq<Submitted>, wf: C.Workflow)
    requires wf.tasks == TasksById(tasks) && TaskRemoval.ValidDag(Nodes(tasks))
    requires LeastTopological(DslGraph.ById(Nodes(tasks)), wf.order)
    ensures Formed(wf)
  {
    TasksByIdGraph(tasks);
    var g := DslGraph.ById(Nodes(tasks));
    assert Topological(g, wf.order);
    forall t | t in wf.tasks ensures Elements(wf.tasks[t].dependsOn) <= wf.tasks.Keys {
      assert TaskRemoval.DepsOk(g, t);
    }
  }

  // cancel_workflow, as values

  /** An unfinished task that holds a lease is the one the lease names. */
  ghost predicate Linked(m: C.Model, w: string)
    requires w in m.workflows
  {
    forall t :: t in m.workflows[w].tasks && !TerminalTask(m.workflows[w].tasks[t].state) ==> OwnLease(m, w, t)
  }

  ghost predicate OwnLease(m: C.Model, w: string, t: string)
    requires C.Has(m, w, t)
  {
    var k := m.workflows[w].tasks[t].leaseToken;
    k in m.leases ==> k != "" && m.leases[k].workflowId == w && m.leases[k].taskId == t
  }

  /** Every reachable model is linked, so a workflow can be cancelled at any point of a run. */
  lemma RunLinked(m: C.Model, ops: seq<C.Op>, w: string)
    requires C.Empty(m) && ChaosAcceptance.FormedRun(m, ops) && w in C.After(m, ops).workflows
    ensures Linked(C.After(m, ops), w)
  {
    hide ChaosReplay.Inv, C.After, C.Empty, ChaosAcceptance.FormedRun;
    ChaosInvariant.RunInv(m, ops);
    InvLinked(C.After(m, ops), w);
  }

  lemma InvLinked(m: C.Model, w: string)
    requires ChaosReplay.Inv(m) && w in m.workflows
    ensures Linked(m, w)
  {
    forall t | t in m.workflows[w].tasks && !TerminalTask(m.workflows[w].tasks[t].state) ensures OwnLease(m, w, t) {
      assert C.Has(m, w, t) && ChaosReplay.TokenOk(m, w, t);
      var k := m.workflows[w].tasks[t].leaseToken;
      if k in m.leases { assert ChaosReplay.LeaseOk(m, k); }
    }
  }

  /** The model without the lease that a task holds. */
  ghost function Unleasing(m: C.Model, w: string, t: string): C.Model
    requires C.Has(m, w, t)
  {
    var k := m.workflows[w].tasks[t].leaseToken;
    if k != "" && k in m.leases then C.DropLease(m, k) else m
  }

  ghost function Freed(m: C.Model, w: string, done: set<string>): set<string>
    requires w in m.workflows
  {
    set t | t in m.workflows[w].tasks && t in done && !TerminalTask(m.workflows[w].tasks[t].state)
            && m.workflows[w].tasks[t].leaseToken in m.leases :: m.workflows[w].tasks[t].leaseToken
  }

  ghost function CancelledTasks(tasks: map<string, C.Task>, done: set<string>, now: Time): map<string, C.Task> {
    map t | t in tasks :: if t in done then C.CancelledRecord(tasks[t], now) else tasks[t]
  }

  ghost function FreedWorkers(m: C.Model, tokens: set<string>): map<string, C.Worker> {
    map x | x in m.workers :: m.workers[x].(activeTokens :=
      m.workers[x].activeTokens - set k | k in tokens && k in m.leases && m.leases[k].workerId == x)
  }

  ghost function FreedLeases(m: C.Model, tokens: set<string>): map<string, C.Lease> {
    map k | k in tokens && k in m.leases :: m.leases[k]
  }

  /** A cancellation that has dealt with the tasks `done`. */
  ghost function Cancelling(m: C.Model, w: string, done: set<string>): C.Model
    requires w in m.workflows
  {
    var wf, tokens := m.workflows[w], Freed(m, w, done);
    m.(workflows := m.workflows[w := wf.(tasks := CancelledTasks(wf.tasks, done, m.now), state := WorkflowCancelled,
        finished := Some(m.now))],
       leases := m.leases - tokens, closed := m.closed + FreedLeases(m, tokens), workers := FreedWorkers(m, tokens))
  }

  lemma CancellingStart(m: C.Model, w: string)
    requires w in m.workflows
    ensures Cancelling(m, w, {}) ==
      m.(workflows := m.workflows[w := m.workflows[w].(state := WorkflowCancelled, finished := Some(m.now))])
  {
    assert Freed(m, w, {}) == {};
    assert CancelledTasks(m.workflows[w].tasks, {}, m.now) == m.workflows[w].tasks;
    assert m.leases - {} == m.leases;
    assert m.closed + FreedLeases(m, {}) == m.closed;
    NothingFreed(m);
  }

  lemma NothingFreed(m: C.Model)
    ensures FreedWorkers(m, {}) == m.workers
  {
    forall x | x in m.workers ensures FreedWorkers(m, {})[x] == m.workers[x] {
      var a, b := FreedWorkers(m, {})[x].activeTokens, m.workers[x].activeTokens;
      assert a == b by {
        forall k ensures k in a <==> k in b {}
      }
    }
  }

  lemma CancellingEnd(m: C.Model, w: string, done: set<string>)
    requires w in m.workflows && done == m.workflows[w].tasks.Keys
    ensures Cancelling(m, w, done) == C.CancelledModel(m, w)
  {
    assert Freed(m, w, done) == C.HeldTokens(m, w);
    assert CancelledTasks(m.workflows[w].tasks, done, m.now)
        == map t | t in m.workflows[w].tasks :: C.CancelledRecord(m.workflows[w].tasks[t], m.now);
  }

  lemma CancellingParts(m: C.Model, w: string, done: set<string>)
    requires w in m.workflows
    ensures
      var m1 := Cancelling(m, w, done);
      && w in m1.workflows && m1.now == m.now && m1.workflows[w].tasks.Keys == m.workflows[w].tasks.Keys
      && forall t :: t in m.workflows[w].tasks && t !in done ==> m1.workflows[w].tasks[t] == m.workflows[w].tasks[t]
  {
    hide Freed, FreedLeases, FreedWorkers, C.CancelledRecord;
  }

  lemma CancellingTerminal(m: C.Model, w: string, done: set<string>, t: string)
    requires C.Has(m, w, t) && t !in done && TerminalTask(m.workflows[w].tasks[t].state)
    ensures Cancelling(m, w, done + {t}) == Cancelling(m, w, done)
  {
    assert Freed(m, w, done + {t}) == Freed(m, w, done);
    assert CancelledTasks(m.workflows[w].tasks, done + {t}, m.now) == CancelledTasks(m.workflows[w].tasks, done, m.now);
  }

  /** The lease of the next task is still there, if the task has one. */
  lemma CancellingToken(m: C.Model, w: string, done: set<string>, t: string)
    requires C.Has(m, w, t) && Linked(m, w) && t !in done && !TerminalTask(m.workflows[w].tasks[t].state)
    ensures
      var m1, k := Cancelling(m, w, done), m.workflows[w].tasks[t].leaseToken;
      && C.Has(m1, w, t) && m1.workflows[w].tasks[t] == m.workflows[w].tasks[t]
      && (k in m1.leases <==> k in m.leases) && (k in m.leases ==> m1.leases[k] == m.leases[k])
      && OwnLease(m1, w, t)
      && Freed(m, w, done + {t}) == (if k in m.leases then Freed(m, w, done) + {k} else Freed(m, w, done))
  {
    hide FreedLeases, FreedWorkers, C.CancelledRecord;
    var k := m.workflows[w].tasks[t].leaseToken;
    assert OwnLease(m, w, t);
    forall u | u in m.workflows[w].tasks && u in done && !TerminalTask(m.workflows[w].tasks[u].state)
        && m.workflows[w].tasks[u].leaseToken in m.leases
      ensures m.workflows[w].tasks[u].leaseToken != k
    {
      assert OwnLease(m, w, u);
    }
    assert k !in Freed(m, w, done);
  }

  lemma RecordCancelled(task: C.Task, detached: C.Task, now: Time)
    requires !TerminalTask(task.state) && (detached == task || detached == C.Unleased(task))
    ensures detached.(nextRetry := None, leaseToken := "", leaseOwner := "", leaseUntil := None, finished := Some(now),
        state := Cancelled)
         == C.CancelledRecord(task, now)
  {
  }

  lemma CancellingStep(m: C.Model, w: string, done: set<string>, t: string)
    requires C.Has(m, w, t) && Linked(m, w) && t !in done && !TerminalTask(m.workflows[w].tasks[t].state)
    ensures
      var m1, task := Cancelling(m, w, done), m.workflows[w].tasks[t];
      && C.Has(m1, w, t) && C.Has(Unleasing(m1, w, t), w, t)
      && C.PutTask(Unleasing(m1, w, t), w, t, C.CancelledRecord(task, m.now)) == Cancelling(m, w, done + {t})
  {
    hide C.CancelledRecord, Linked, Freed, FreedLeases, FreedWorkers;
    var m1, k := Cancelling(m, w, done), m.workflows[w].tasks[t].leaseToken;
    CancellingToken(m, w, done, t);
    CancelledNext(m.workflows[w].tasks, done, t, m.now);
    NoToken(m, w, t);
    if k in m.leases {
      FreedNext(m, Freed(m, w, done), k);
    }
  }

  lemma NoToken(m: C.Model, w: string, t: string)
    requires C.Has(m, w, t) && Linked(m, w) && !TerminalTask(m.workflows[w].tasks[t].state)
    ensures m.workflows[w].tasks[t].leaseToken in m.leases ==> m.workflows[w].tasks[t].leaseToken != ""
  {
    assert OwnLease(m, w, t);
  }

  lemma CancelledNext(tasks: map<string, C.Task>, done: set<string>, t: string, now: Time)
    requires t in tasks && t !in done
    ensures CancelledTasks(tasks, done, now)[t := C.CancelledRecord(tasks[t], now)]
        == CancelledTasks(tasks, done + {t}, now)
  {
    hide C.CancelledRecord;
  }

  lemma FreedNext(m: C.Model, tokens: set<string>, k: string)
    requires k in m.leases && k !in tokens
    ensures (m.leases - tokens) - {k} == m.leases - (tokens + {k})
    ensures (m.closed + FreedLeases(m, tokens))[k := m.leases[k]] == m.closed + FreedLeases(m, tokens + {k})
    ensures C.Discard(FreedWorkers(m, tokens), m.leases[k].workerId, k) == FreedWorkers(m, tokens + {k})
  {
    FreedWorkersNext(m, tokens, k);
  }

  lemma FreedWorkersNext(m: C.Model, tokens: set<string>, k: string)
    requires k in m.leases && k !in tokens
    ensures C.Discard(FreedWorkers(m, tokens), m.leases[k].workerId, k) == FreedWorkers(m, tokens + {k})
  {
    var a, b := C.Discard(FreedWorkers(m, tokens), m.leases[k].workerId, k), FreedWorkers(m, tokens + {k});
    assert a.Keys == b.Keys;
    forall x | x in b ensures a[x] == b[x] {
      var before := set j | j in tokens && j in m.leases && m.leases[j].workerId == x;
      var after := set j | j in tokens + {k} && j in m.leases && m.leases[j].workerId == x;
      assert after == if m.leases[k].workerId == x then before + {k} else before;
      assert m.workers[x].activeTokens - after == if m.leases[k].workerId == x
          then (m.workers[x].activeTokens - before) - {k} else m.workers[x].activeTokens - before;
    }
  }

  lemma OrderAll(wf: C.Workflow)
    requires Formed(wf)
    ensures Elements(wf.order) == wf.tasks.Keys
  {
  }

  lemma OrderPlace(wf: C.Workflow, n: nat)
    requires Formed(wf) && n < |wf.order|
    ensures wf.order[n] in wf.tasks && wf.order[n] !in Elements(wf.order[..n])
  {
    assert wf.order[n] in Elements(wf.order);
  }
}
