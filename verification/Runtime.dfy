/** Task and workflow state, and the two operations that rewrite it: `Recompute` and `Cancel`. */
module Runtime {
  import opened Graph
  import opened WorkflowSpec

  datatype Option<+T> = None | Some(value: T)

  datatype TaskState = Pending | Ready | Leased | Running | Succeeded | Failed | RetryWait | Cancelled
  datatype WorkflowState = WorkflowPending | WorkflowRunning | WorkflowSucceeded | WorkflowFailed | WorkflowCancelled

  type Time = int

  datatype TaskRuntime = TaskRuntime(
    state: TaskState,
    attempt: int,
    leaseToken: string,
    leaseOwner: string,
    leaseUntil: Option<Time>,
    startedAt: Option<Time>,
    finishedAt: Option<Time>,
    nextRetryAt: Option<Time>,
    exitCode: Option<int>,
    error: string,
    outputBytes: int)

  const FRESH_RUNTIME := TaskRuntime(Pending, 0, "", "", None, None, None, None, None, "", 0)

  /** The fields of a workflow. */
  datatype Snapshot = Snapshot(
    id: string,
    name: string,
    state: WorkflowState,
    createdAt: Time,
    updatedAt: Time,
    finishedAt: Option<Time>,
    tasks: map<string, TaskSpec>,
    runtime: map<string, TaskRuntime>,
    order: seq<string>)

  /** `validTaskTransitions`. */
  predicate Allowed(from: TaskState, to: TaskState) {
    match from
    case Pending => to in {Ready, Cancelled}
    case Ready => to in {Leased, Cancelled}
    case Leased => to in {Running, Ready, Cancelled}
    case Running => to in {Succeeded, Failed, RetryWait, Ready, Cancelled}
    case RetryWait => to in {Ready, Cancelled}
    case Failed => false
    case Succeeded => false
    case Cancelled => false
  }

  /** `TransitionTask` with its error ignored: an illegal request leaves the record alone. */
  function Transition(rt: TaskRuntime, next: TaskState): TaskRuntime {
    if Allowed(rt.state, next) then rt.(state := next) else rt
  }

  predicate TerminalTask(s: TaskState) { s in {Succeeded, Failed, Cancelled} }

  predicate ActiveTask(s: TaskState) { s in {Ready, Leased, Running, RetryWait} }

  predicate HoldsLease(s: TaskState) { s in {Leased, Running} }

  predicate TerminalWorkflow(s: WorkflowState) { s in {WorkflowSucceeded, WorkflowFailed, WorkflowCancelled} }

  function DependencyGraph(tasks: map<string, TaskSpec>): Graph {
    map id | id in tasks :: tasks[id].dependsOn
  }

  /** What every workflow built from a validated specification looks like. */
  ghost predicate Shape(w: Snapshot) {
    && w.runtime.Keys == w.tasks.Keys
    && Topological(DependencyGraph(w.tasks), w.order)
    && Closed(DependencyGraph(w.tasks))
    && w.order != []
    && OrderKnown(w)
  }

  predicate OrderKnown(w: Snapshot) {
    forall i :: 0 <= i < |w.order| ==> w.order[i] in w.tasks
  }

  // Recompute

  predicate SomeImpossible(deps: seq<string>, runtime: map<string, TaskRuntime>) {
    exists i :: 0 <= i < |deps| && deps[i] in runtime && runtime[deps[i]].state in {Failed, Cancelled}
  }

  predicate AllSucceeded(deps: seq<string>, runtime: map<string, TaskRuntime>) {
    forall i :: 0 <= i < |deps| ==> deps[i] in runtime && runtime[deps[i]].state == Succeeded
  }

  predicate Due(rt: TaskRuntime, now: Time) {
    rt.nextRetryAt == None || now >= rt.nextRetryAt.value
  }

  /** The record of one task after `Recompute` has looked at it, given the records of its dependencies. */
  function StepTask(deps: seq<string>, rt: TaskRuntime, runtime: map<string, TaskRuntime>, now: Time): TaskRuntime {
    match rt.state
    case Pending =>
      if SomeImpossible(deps, runtime) then Transition(rt, Cancelled)
      else if AllSucceeded(deps, runtime) then Transition(rt, Ready)
      else rt
    case RetryWait =>
      if Due(rt, now) then Transition(rt.(nextRetryAt := None), Ready) else rt
    case _ => rt
  }

  /** The records after the first `n` tasks of the order have been looked at. */
  function StepTasks(w: Snapshot, now: Time, n: nat): (r: map<string, TaskRuntime>)
    requires n <= |w.order|
    ensures r.Keys == w.runtime.Keys
  {
    if n == 0 then w.runtime
    else
      var r := StepTasks(w, now, n - 1);
      var id := w.order[n - 1];
      if id in w.tasks && id in r then r[id := StepTask(w.tasks[id].dependsOn, r[id], r, now)] else r
  }

  /** All, respectively some, of the first `n` tasks of the order. */
  predicate EverySucceeded(order: seq<string>, n: nat, runtime: map<string, TaskRuntime>)
    requires n <= |order|
  {
    forall i :: 0 <= i < n ==> order[i] in runtime && runtime[order[i]].state == Succeeded
  }

  predicate SomeActive(order: seq<string>, n: nat, runtime: map<string, TaskRuntime>)
    requires n <= |order|
  {
    exists i :: 0 <= i < n && order[i] in runtime && ActiveTask(runtime[order[i]].state)
  }

  predicate SomeFailed(order: seq<string>, n: nat, runtime: map<string, TaskRuntime>)
    requires n <= |order|
  {
    exists i :: 0 <= i < n && order[i] in runtime && runtime[order[i]].state == Failed
  }

  /** The workflow state that the task states call for. */
  function Verdict(w: Snapshot, runtime: map<string, TaskRuntime>): WorkflowState {
    if EverySucceeded(w.order, |w.order|, runtime) then WorkflowSucceeded
    else if SomeFailed(w.order, |w.order|, runtime) && !SomeActive(w.order, |w.order|, runtime) then WorkflowFailed
    else if w.state == WorkflowPending then WorkflowRunning
    else w.state
  }

  function Recomputed(w: Snapshot, now: Time): Snapshot {
    if TerminalWorkflow(w.state) then w
    else
      var runtime := StepTasks(w, now, |w.order|);
      var state := Verdict(w, runtime);
      w.(runtime := runtime, updatedAt := now, state := state,
         finishedAt := if state in {WorkflowSucceeded, WorkflowFailed} then Some(now) else w.finishedAt)
  }

  function CancelTask(rt: TaskRuntime, now: Time): TaskRuntime {
    if TerminalTask(rt.state) then rt else rt.(state := Cancelled, finishedAt := Some(now))
  }

  function CancelledAt(w: Snapshot, now: Time): Snapshot {
    if TerminalWorkflow(w.state) then w
    else
      w.(state := WorkflowCancelled, updatedAt := now, finishedAt := Some(now),
         runtime := CancelTasks(w.runtime, now))
  }

  function CancelTasks(runtime: map<string, TaskRuntime>, now: Time): map<string, TaskRuntime> {
    map id | id in runtime :: CancelTask(runtime[id], now)
  }

  class Workflow {
    const id: string
    const name: string
    const createdAt: Time
    const tasks: map<string, TaskSpec>
    const order: seq<string>
    var state: WorkflowState
    var updatedAt: Time
    var finishedAt: Option<Time>
    var runtime: map<string, TaskRuntime>

    ghost function Value(): Snapshot
      reads this
    {
      Snapshot(id, name, state, createdAt, updatedAt, finishedAt, tasks, runtime, order)
    }

    /** `NewWorkflow`, once `ValidateSpec` has returned `order`. */
    constructor (id: string, spec: WorkflowSpec, order: seq<string>, now: Time)
      ensures Value() == NewSnapshot(id, spec, order, now)
    {
      this.id, this.name, this.createdAt := id, spec.name, now;
      this.state, this.updatedAt, this.finishedAt := WorkflowPending, now, None;
      this.tasks := TaskMap(spec.tasks);
      this.runtime := map t | t in TaskMap(spec.tasks) :: FRESH_RUNTIME;
      this.order := order;
    }

    method Recompute(now: Time)
      requires Shape(Value())
      modifies this`state, this`updatedAt, this`finishedAt, this`runtime
      ensures Value() == Recomputed(old(Value()), now)
    {
      if TerminalWorkflow(state) { return; }
      var allSucceeded, anyActive, terminalFailure := RecomputeTasks(now);
      updatedAt := now;
      if allSucceeded {
        state, finishedAt := WorkflowSucceeded, Some(now);
        return;
      }
      if terminalFailure && !anyActive {
        state, finishedAt := WorkflowFailed, Some(now);
        return;
      }
      if state == WorkflowPending {
        state := WorkflowRunning;
      }
    }

    lemma Fields()
      ensures Value().order == order && Value().runtime == runtime && Value().tasks == tasks
    {
    }

    /** The loop of `Recompute`, collecting the flags that decide the workflow state. */
    method RecomputeTasks(now: Time) returns (allSucceeded: bool, anyActive: bool, terminalFailure: bool)
      requires Shape(Value())
      modifies this`runtime
      ensures runtime == StepTasks(old(Value()), now, |order|)
      ensures allSucceeded == EverySucceeded(order, |order|, runtime)
      ensures anyActive == SomeActive(order, |order|, runtime)
      ensures terminalFailure == SomeFailed(order, |order|, runtime)
    {
      hide *;
      ghost var w := Value();
      Fields();
      allSucceeded, anyActive, terminalFailure := true, false, false;
      FlagsStart(w, now);
      for n := 0 to |order|
        invariant runtime == StepTasks(w, now, n)
        invariant allSucceeded == EverySucceeded(order, n, runtime)
        invariant anyActive == SomeActive(order, n, runtime)
        invariant terminalFailure == SomeFailed(order, n, runtime)
      {
        var task := order[n];
        LoopStep(w, now, n);
        var rt := Advance(tasks[task].dependsOn, runtime[task], runtime, now);
        runtime := runtime[task := rt];
        if rt.state != Succeeded { allSucceeded := false; }
        if ActiveTask(rt.state) { anyActive := true; }
        if rt.state == Failed { terminalFailure := true; }
      }
    }

    /** The body of the loop of `Recompute` for one task. */
    static method Advance(deps: seq<string>, rt0: TaskRuntime, runtime: map<string, TaskRuntime>, now: Time)
        returns (rt: TaskRuntime)
      requires forall a :: a in deps ==> a in runtime
      ensures rt == StepTask(deps, rt0, runtime, now)
    {
      rt := rt0;
      match rt.state {
        case Pending =>
          var depsOK, depsImpossible := ScanDeps(deps, runtime);
          if depsImpossible {
            rt := Transition(rt, Cancelled);
          } else if depsOK {
            rt := Transition(rt, Ready);
          }
        case RetryWait =>
          if Due(rt, now) {
            rt := Transition(rt.(nextRetryAt := None), Ready);
          }
        case _ =>
      }
    }

    static method ScanDeps(deps: seq<string>, runtime: map<string, TaskRuntime>)
        returns (depsOK: bool, depsImpossible: bool)
      requires forall a :: a in deps ==> a in runtime
      ensures depsOK == AllSucceeded(deps, runtime)
      ensures depsImpossible == SomeImpossible(deps, runtime)
    {
      depsOK, depsImpossible := true, false;
      for i := 0 to |deps|
        invariant depsOK == AllSucceeded(deps[..i], runtime)
        invariant depsImpossible == SomeImpossible(deps[..i], runtime)
      {
        var s := runtime[deps[i]].state;
        assert deps[..i + 1] == deps[..i] + [deps[i]];
        if s != Succeeded { depsOK := false; }
        if s == Failed || s == Cancelled { depsImpossible := true; }
      }
      assert deps[..|deps|] == deps;
    }

    /** Visits the tasks in the arbitrary order of a Go map. */
    method Cancel(now: Time)
      modifies this`state, this`updatedAt, this`finishedAt, this`runtime
      ensures Value() == CancelledAt(old(Value()), now)
    {
      if TerminalWorkflow(state) { return; }
      state, updatedAt, finishedAt := WorkflowCancelled, now, Some(now);
      var todo := runtime.Keys;
      ghost var before := runtime;
      while todo != {}
        invariant state == WorkflowCancelled && updatedAt == now && finishedAt == Some(now)
        invariant runtime.Keys == before.Keys && todo <= runtime.Keys
        invariant forall t :: t in runtime ==> runtime[t] == if t in todo then before[t] else CancelTask(before[t], now)
        decreases todo
      {
        var t :| t in todo;
        todo := todo - {t};
        var rt := runtime[t];
        if rt.state != Succeeded && rt.state != Failed && rt.state != Cancelled {
          runtime := runtime[t := rt.(state := Cancelled, finishedAt := Some(now))];
        }
      }
      assert runtime == CancelTasks(before, now);
    }
  }

  function TaskMap(tasks: seq<TaskSpec>): map<string, TaskSpec> {
    if tasks == [] then map[]
    else
      var last := tasks[|tasks| - 1];
      TaskMap(tasks[..|tasks| - 1])[last.id := last.(retry := NormalizeRetry(last.retry))]
  }

  function NewSnapshot(id: string, spec: WorkflowSpec, order: seq<string>, now: Time): Snapshot {
    var tasks := TaskMap(spec.tasks);
    Snapshot(id, spec.name, WorkflowPending, now, now, None, tasks, map t | t in tasks :: FRESH_RUNTIME, order)
  }

  lemma FlagsStart(w: Snapshot, now: Time)
    requires Shape(w)
    ensures EverySucceeded(w.order, 0, w.runtime) && !SomeActive(w.order, 0, w.runtime)
        && !SomeFailed(w.order, 0, w.runtime)
    ensures StepTasks(w, now, 0) == w.runtime
  {
  }

  /** One iteration of the loop of `Recompute`. */
  lemma LoopStep(w: Snapshot, now: Time, n: nat)
    requires Shape(w) && n < |w.order|
    ensures
      var id := w.order[n];
      var r := StepTasks(w, now, n);
      && id in w.tasks && id in r
      && (forall a :: a in w.tasks[id].dependsOn ==> a in r)
      && var rt := StepTask(w.tasks[id].dependsOn, r[id], r, now);
      && StepTasks(w, now, n + 1) == r[id := rt]
      && EverySucceeded(w.order, n + 1, r[id := rt]) == (EverySucceeded(w.order, n, r) && rt.state == Succeeded)
      && SomeActive(w.order, n + 1, r[id := rt]) == (SomeActive(w.order, n, r) || ActiveTask(rt.state))
      && SomeFailed(w.order, n + 1, r[id := rt]) == (SomeFailed(w.order, n, r) || rt.state == Failed)
  {
    var id := w.order[n];
    var r := StepTasks(w, now, n);
    forall a | a in w.tasks[id].dependsOn ensures a in r {
      assert Edge(DependencyGraph(w.tasks), a, id);
    }
    FlagsStep(w.order, n, r, StepTask(w.tasks[id].dependsOn, r[id], r, now));
  }

  lemma FlagsStep(order: seq<string>, n: nat, runtime: map<string, TaskRuntime>, rt: TaskRuntime)
    requires NoDup(order) && n < |order| && forall i :: 0 <= i < |order| ==> order[i] in runtime
    ensures
      var runtime' := runtime[order[n] := rt];
      && EverySucceeded(order, n + 1, runtime') == (EverySucceeded(order, n, runtime) && rt.state == Succeeded)
      && SomeActive(order, n + 1, runtime') == (SomeActive(order, n, runtime) || ActiveTask(rt.state))
      && SomeFailed(order, n + 1, runtime') == (SomeFailed(order, n, runtime) || rt.state == Failed)
  {
    var runtime' := runtime[order[n] := rt];
    assert forall i :: 0 <= i < n ==> runtime'[order[i]] == runtime[order[i]];
    assert runtime'[order[n]] == rt;
  }
}
