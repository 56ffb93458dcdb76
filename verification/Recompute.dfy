/** What one pass of `Recompute` over a topological order achieves. */
module Recompute {
  import opened Graph
  import opened Runtime

  ghost function Deps(w: Snapshot, t: string): seq<string>
    requires t in w.tasks
  {
    w.tasks[t].dependsOn
  }

  lemma DependencyBefore(w: Snapshot, k: nat, a: string)
    requires Shape(w) && k < |w.order| && a in Deps(w, w.order[k])
    ensures a in w.order[..k] && a in w.tasks
  {
    assert Edge(DependencyGraph(w.tasks), a, w.order[k]);
    assert w.order[k] in DependencyGraph(w.tasks) && a in DependencyGraph(w.tasks)[w.order[k]];
  }

  lemma StepTaskFrame(deps: seq<string>, rt: TaskRuntime, r: map<string, TaskRuntime>, r': map<string, TaskRuntime>,
      now: Time)
    requires forall a :: a in deps ==> a in r && a in r' && r[a] == r'[a]
    ensures StepTask(deps, rt, r, now) == StepTask(deps, rt, r', now)
  {
    assert SomeImpossible(deps, r) == SomeImpossible(deps, r');
    assert AllSucceeded(deps, r) == AllSucceeded(deps, r');
  }

  /** After `n` tasks, the first `n` are settled with respect to each other and the rest are untouched. */
  lemma {:induction false} StepAt(w: Snapshot, now: Time, n: nat, k: nat)
    requires Shape(w) && n <= |w.order| && k < |w.order|
    ensures
      var r := StepTasks(w, now, n);
      var t := w.order[k];
      r[t] == if k < n then StepTask(Deps(w, t), w.runtime[t], r, now) else w.runtime[t]
  {
    hide StepTask, SomeImpossible, AllSucceeded;
    if n > 0 {
      StepAt(w, now, n - 1, k);
      if k < n {
        var t := w.order[k];
        var last := w.order[n - 1];
        var q, r := StepTasks(w, now, n - 1), StepTasks(w, now, n);
        forall a | a in Deps(w, t) ensures a in q && a in r && q[a] == r[a] {
          DependencyBefore(w, k, a);
          EarlierOther(w, k, n - 1, a);
        }
        StepTaskFrame(Deps(w, t), w.runtime[t], q, r, now);
      }
    }
  }

  /** A task before place `k` is not the one at a place from `k` on. */
  lemma EarlierOther(w: Snapshot, k: nat, n: nat, a: string)
    requires Shape(w) && k <= n < |w.order| && a in w.order[..k]
    ensures a != w.order[n] && a in w.tasks
  {
    var j :| 0 <= j < k && w.order[j] == a;
  }

  lemma Listed(w: Snapshot, t: string) returns (k: nat)
    requires Shape(w) && t in w.tasks
    ensures k < |w.order| && w.order[k] == t
  {
    assert t in Elements(w.order);
    k :| 0 <= k < |w.order| && w.order[k] == t;
  }

  /** Every task ends up where the rule puts it, judged by the final records of its dependencies. */
  lemma StepRule(w: Snapshot, now: Time, t: string)
    requires Shape(w) && t in w.tasks
    ensures
      var r := StepTasks(w, now, |w.order|);
      t in r && r[t] == StepTask(Deps(w, t), w.runtime[t], r, now)
  {
    var k := Listed(w, t);
    StepAt(w, now, |w.order|, k);
  }

  lemma StepTaskFixed(deps: seq<string>, rt: TaskRuntime, r: map<string, TaskRuntime>, now: Time)
    ensures
      var rt' := StepTask(deps, rt, r, now);
      StepTask(deps, rt', r, now) == rt'
  {
  }

  lemma {:induction false} SecondPass(w: Snapshot, now: Time, n: nat)
    requires Shape(w) && n <= |w.order|
    requires forall t :: t in w.tasks ==> StepTask(Deps(w, t), w.runtime[t], w.runtime, now) == w.runtime[t]
    ensures StepTasks(w, now, n) == w.runtime
  {
    if n > 0 {
      SecondPass(w, now, n - 1);
    }
  }

  /** One pass reaches a fixpoint: recomputing again at the same time changes nothing. */
  lemma RecomputeFixpoint(w: Snapshot, now: Time)
    requires Shape(w)
    ensures Shape(Recomputed(w, now)) && Recomputed(Recomputed(w, now), now) == Recomputed(w, now)
  {
    var v := Recomputed(w, now);
    if !TerminalWorkflow(v.state) {
      forall t | t in v.tasks ensures StepTask(Deps(v, t), v.runtime[t], v.runtime, now) == v.runtime[t] {
        StepRule(w, now, t);
        StepTaskFixed(Deps(w, t), w.runtime[t], v.runtime, now);
      }
      SecondPass(v, now, |v.order|);
    }
  }

  // Invariants of a workflow

  /** A task that was ever released has only successful dependencies. */
  ghost predicate DependencySafe(w: Snapshot) {
    forall t :: t in w.tasks && t in w.runtime && w.runtime[t].state !in {Pending, Cancelled}
        ==> AllSucceeded(Deps(w, t), w.runtime)
  }

  /** Outside a cancelled workflow, only a failed or cancelled dependency cancels a task. */
  ghost predicate CancelledByDependency(w: Snapshot) {
    forall t :: t in w.tasks && t in w.runtime && w.runtime[t].state == Cancelled
        ==> SomeImpossible(Deps(w, t), w.runtime)
  }

  ghost predicate AllTerminal(w: Snapshot) {
    forall t :: t in w.runtime ==> TerminalTask(w.runtime[t].state)
  }

  ghost predicate HasActive(w: Snapshot) {
    exists t :: t in w.runtime && ActiveTask(w.runtime[t].state)
  }

  ghost predicate Healthy(w: Snapshot) {
    && Shape(w)
    && (w.state != WorkflowCancelled ==> DependencySafe(w) && CancelledByDependency(w))
    && (w.state == WorkflowCancelled ==> AllTerminal(w))
  }

  lemma HealthyShape(w: Snapshot)
    requires Healthy(w)
    ensures Shape(w)
  {
  }

  lemma RecomputedHealthy(w: Snapshot, now: Time)
    requires Healthy(w)
    ensures Healthy(Recomputed(w, now))
  {
    hide AllSucceeded, SomeImpossible, Topological, StepTasks;
    var v := Recomputed(w, now);
    if !TerminalWorkflow(w.state) {
      forall t | t in v.tasks && t in v.runtime ensures TaskHealthy(v, t) {
        RecomputedTask(w, now, t);
      }
    }
  }

  /** A released task had its dependencies finished; a cancelled one had a dependency lost. */
  ghost predicate TaskHealthy(w: Snapshot, t: string)
    requires t in w.tasks && t in w.runtime
  {
    && (w.runtime[t].state !in {Pending, Cancelled} ==> AllSucceeded(Deps(w, t), w.runtime))
    && (w.runtime[t].state == Cancelled ==> SomeImpossible(Deps(w, t), w.runtime))
  }

  lemma RecomputedTask(w: Snapshot, now: Time, t: string)
    requires Healthy(w) && !TerminalWorkflow(w.state) && t in w.tasks
    ensures t in Recomputed(w, now).runtime && TaskHealthy(Recomputed(w, now), t)
  {
    hide AllSucceeded, SomeImpossible, Topological, StepTasks;
    StepRule(w, now, t);
    if w.runtime[t].state == Cancelled {
      ImpossibleKept(w, now, t);
    } else if w.runtime[t].state != Pending {
      SucceededKept(w, now, t);
    }
  }

  /** Dependencies that have succeeded, or have become impossible, stay so. */
  lemma SucceededKept(w: Snapshot, now: Time, t: string)
    requires Shape(w) && t in w.tasks && AllSucceeded(Deps(w, t), w.runtime)
    ensures AllSucceeded(Deps(w, t), StepTasks(w, now, |w.order|))
  {
    var r := StepTasks(w, now, |w.order|);
    forall i | 0 <= i < |Deps(w, t)| ensures Deps(w, t)[i] in r && r[Deps(w, t)[i]].state == Succeeded {
      StepRule(w, now, Deps(w, t)[i]);
    }
  }

  lemma ImpossibleKept(w: Snapshot, now: Time, t: string)
    requires Shape(w) && t in w.tasks && SomeImpossible(Deps(w, t), w.runtime)
    ensures SomeImpossible(Deps(w, t), StepTasks(w, now, |w.order|))
  {
    var i :| 0 <= i < |Deps(w, t)| && Deps(w, t)[i] in w.runtime
        && w.runtime[Deps(w, t)[i]].state in {Failed, Cancelled};
    StepRule(w, now, Deps(w, t)[i]);
  }

  /** With every task pending or finished, the rule leaves no task pending. */
  lemma FinishedDependencies(deps: seq<string>, r: map<string, TaskRuntime>)
    requires forall i :: 0 <= i < |deps| ==> deps[i] in r && TerminalTask(r[deps[i]].state)
    ensures SomeImpossible(deps, r) || AllSucceeded(deps, r)
  {
  }

  lemma ListedTask(w: Snapshot, k: nat)
    requires Shape(w) && k < |w.order|
    ensures w.order[k] in w.tasks && w.order[k] in w.runtime
  {
  }

  /** A task that the rule leaves pending has no impossible dependency, and not all have succeeded. */
  lemma StaysPending(deps: seq<string>, rt: TaskRuntime, r: map<string, TaskRuntime>, now: Time)
    requires StepTask(deps, rt, r, now).state == Pending
    ensures !SomeImpossible(deps, r) && !AllSucceeded(deps, r)
  {
    hide SomeImpossible, AllSucceeded;
  }

  lemma {:induction false} NoPendingUpTo(w: Snapshot, now: Time, k: nat)
    requires Shape(w) && k <= |w.order|
    requires
      var r := StepTasks(w, now, |w.order|);
      forall t :: t in w.tasks ==> r[t].state == Pending || TerminalTask(r[t].state)
    ensures forall j :: 0 <= j < k ==> StepTasks(w, now, |w.order|)[w.order[j]].state != Pending
  {
    hide SomeImpossible, AllSucceeded, StepTasks, StepTask, Shape, Deps;
    if k > 0 {
      NoPendingUpTo(w, now, k - 1);
      var t := w.order[k - 1];
      var r := StepTasks(w, now, |w.order|);
      ListedTask(w, k - 1);
      StepRule(w, now, t);
      if r[t].state == Pending {
        StaysPending(Deps(w, t), w.runtime[t], r, now);
        forall i | 0 <= i < |Deps(w, t)| ensures Deps(w, t)[i] in r && TerminalTask(r[Deps(w, t)[i]].state) {
          DependencyBefore(w, k - 1, Deps(w, t)[i]);
          var j :| 0 <= j < k - 1 && w.order[j] == Deps(w, t)[i];
          ListedTask(w, j);
        }
        FinishedDependencies(Deps(w, t), r);
        assert false;
      }
    }
  }

  /** If nothing is active after a pass, every task is finished. */
  lemma QuietMeansFinished(w: Snapshot, now: Time)
    requires Shape(w)
    requires !SomeActive(w.order, |w.order|, StepTasks(w, now, |w.order|))
    ensures
      forall t :: t in w.tasks ==>
        t in StepTasks(w, now, |w.order|) && TerminalTask(StepTasks(w, now, |w.order|)[t].state)
  {
    var r := StepTasks(w, now, |w.order|);
    forall t | t in w.tasks ensures r[t].state == Pending || TerminalTask(r[t].state) {
      var k := Listed(w, t);
    }
    NoPendingUpTo(w, now, |w.order|);
    forall t | t in w.tasks ensures TerminalTask(r[t].state) {
      var k := Listed(w, t);
    }
  }

  /** A cancelled task traces back along dependencies to a failed one. */
  lemma {:induction false} CancelledHasFailedAncestor(w: Snapshot, k: nat) returns (f: string)
    requires Shape(w) && CancelledByDependency(w) && k < |w.order| && w.runtime[w.order[k]].state == Cancelled
    ensures f in w.runtime && w.runtime[f].state == Failed && Reaches(DependencyGraph(w.tasks), f, w.order[k])
  {
    hide Reaches, Topological;
    var t := w.order[k];
    var g := DependencyGraph(w.tasks);
    var a := ImpossibleDependency(w, t);
    DependencyBefore(w, k, a);
    ReachesEdge(g, a, t);
    if w.runtime[a].state == Failed {
      f := a;
    } else {
      var j :| 0 <= j < k && w.order[j] == a;
      f := CancelledHasFailedAncestor(w, j);
      ReachesTransitive(g, f, a, t);
    }
  }

  lemma ImpossibleDependency(w: Snapshot, t: string) returns (a: string)
    requires Shape(w) && CancelledByDependency(w) && t in w.order && w.runtime[t].state == Cancelled
    ensures a in Deps(w, t) && a in w.runtime && a in w.tasks && w.runtime[a].state in {Failed, Cancelled}
    ensures Edge(DependencyGraph(w.tasks), a, t)
  {
    var i :| 0 <= i < |Deps(w, t)| && Deps(w, t)[i] in w.runtime
        && w.runtime[Deps(w, t)[i]].state in {Failed, Cancelled};
    a := Deps(w, t)[i];
  }

  /** Everything downstream of a failed task is neither released nor finished by running. */
  lemma {:induction false} DependentsCancelled(w: Snapshot, p: seq<string>)
    requires Shape(w) && DependencySafe(w) && Path(DependencyGraph(w.tasks), p) && |p| >= 2
    requires w.runtime[p[0]].state == Failed
    ensures p[|p| - 1] in w.runtime && w.runtime[p[|p| - 1]].state in {Pending, Cancelled}
  {
    var g := DependencyGraph(w.tasks);
    var a, t := p[|p| - 2], p[|p| - 1];
    assert Edge(g, a, t);
    var q := p[..|p| - 1];
    if |q| >= 2 {
      assert Path(g, q);
      DependentsCancelled(w, q);
    }
    assert w.runtime[a].state != Succeeded;
    var i :| 0 <= i < |Deps(w, t)| && Deps(w, t)[i] == a;
    assert !AllSucceeded(Deps(w, t), w.runtime);
  }

  /** No deadlock: a workflow that `Recompute` leaves unfinished has a task that can make progress. */
  lemma NoDeadlock(w: Snapshot, now: Time)
    requires Healthy(w) && !TerminalWorkflow(w.state)
    ensures
      var v := Recomputed(w, now);
      !TerminalWorkflow(v.state) ==> v.state == WorkflowRunning && HasActive(v)
  {
    var v := Recomputed(w, now);
    var r := v.runtime;
    RecomputedHealthy(w, now);
    if SomeActive(w.order, |w.order|, r) {
      var i :| 0 <= i < |w.order| && w.order[i] in r && ActiveTask(r[w.order[i]].state);
      assert HasActive(v);
    } else if !TerminalWorkflow(v.state) {
      QuietMeansFinished(w, now);
      UnsuccessfulHasFailure(v);
      assert false;
    }
  }

  /** A finished workflow that did not fully succeed has a failed task. */
  lemma UnsuccessfulHasFailure(v: Snapshot)
    requires Shape(v) && CancelledByDependency(v) && AllTerminal(v) && !EverySucceeded(v.order, |v.order|, v.runtime)
    ensures SomeFailed(v.order, |v.order|, v.runtime)
  {
    var k :| 0 <= k < |v.order| && v.runtime[v.order[k]].state != Succeeded;
    if v.runtime[v.order[k]].state == Cancelled {
      var f := CancelledHasFailedAncestor(v, k);
      var j := Listed(v, f);
    }
  }

  /** Success is success of every task. */
  lemma SuccessMeansAll(w: Snapshot, now: Time)
    requires Healthy(w) && !TerminalWorkflow(w.state)
    ensures
      var v := Recomputed(w, now);
      v.state == WorkflowSucceeded <==> forall t :: t in v.runtime ==> v.runtime[t].state == Succeeded
  {
    var v := Recomputed(w, now);
    if v.state == WorkflowSucceeded {
      forall t | t in v.runtime ensures v.runtime[t].state == Succeeded {
        var k := Listed(v, t);
      }
    }
  }

  /** A workflow that becomes FAILED is finished, and lost exactly the dependents of its failed tasks. */
  lemma FailureClosure(w: Snapshot, now: Time, t: string)
    requires Healthy(w) && !TerminalWorkflow(w.state) && Recomputed(w, now).state == WorkflowFailed && t in w.tasks
    ensures
      var v := Recomputed(w, now);
      && t in v.runtime && TerminalTask(v.runtime[t].state)
      && (v.runtime[t].state == Cancelled <==>
          exists f :: f in v.runtime && v.runtime[f].state == Failed && Reaches(DependencyGraph(v.tasks), f, t))
  {
    var v := Recomputed(w, now);
    RecomputedHealthy(w, now);
    QuietMeansFinished(w, now);
    LostExactly(v, t);
  }

  /** In a healthy workflow the cancelled tasks are the dependents of the failed ones. */
  lemma LostExactly(v: Snapshot, t: string)
    requires Healthy(v) && v.state == WorkflowFailed && t in v.tasks && t in v.runtime
        && TerminalTask(v.runtime[t].state)
    ensures v.runtime[t].state == Cancelled <==>
      exists f :: f in v.runtime && v.runtime[f].state == Failed && Reaches(DependencyGraph(v.tasks), f, t)
  {
    if v.runtime[t].state == Cancelled {
      var k := Listed(v, t);
      var f := CancelledHasFailedAncestor(v, k);
    }
    forall f | f in v.runtime && v.runtime[f].state == Failed && Reaches(DependencyGraph(v.tasks), f, t)
      ensures v.runtime[t].state == Cancelled
    {
      var p :| Path(DependencyGraph(v.tasks), p) && |p| >= 2 && p[0] == f && p[|p| - 1] == t;
      DependentsCancelled(v, p);
    }
  }

  // The pass, spelled out

  /** Some dependency of `t` has failed or was cancelled. */
  ghost predicate Blocked(w: Snapshot, v: Snapshot, t: string)
    requires t in w.tasks
  {
    exists a :: a in w.tasks[t].dependsOn && a in v.runtime && (v.runtime[a].state.Failed?
        || v.runtime[a].state.Cancelled?)
  }

  /** All dependencies of `t` have succeeded. */
  ghost predicate Unblocked(w: Snapshot, v: Snapshot, t: string)
    requires t in w.tasks
  {
    forall a :: a in w.tasks[t].dependsOn ==> a in v.runtime && v.runtime[a].state.Succeeded?
  }

  /** A waiting task wakes exactly when the clock has reached its retry time; a pending task is cancelled exactly if a
      dependency has failed or was cancelled, and becomes ready exactly if all have succeeded; no other record
      changes. */
  lemma PassRule(w: Snapshot, now: Time, t: string)
    requires Shape(w) && t in w.tasks && !TerminalWorkflow(w.state)
    ensures
      var v := Recomputed(w, now);
      && t in w.runtime && t in v.runtime
      && var rt, rt' := w.runtime[t], v.runtime[t];
      && (rt.state.RetryWait? ==>
            if rt.nextRetryAt.None? || rt.nextRetryAt.value <= now then rt' == rt.(state := Ready, nextRetryAt := None)
            else rt' == rt)
      && (rt.state.Pending? ==>
            if Blocked(w, v, t) then rt' == rt.(state := Cancelled)
            else if Unblocked(w, v, t) then rt' == rt.(state := Ready)
            else rt' == rt)
      && (!rt.state.RetryWait? && !rt.state.Pending? ==> rt' == rt)
  {
    hide StepTasks, Shape;
    StepRule(w, now, t);
    PassTask(w, Recomputed(w, now), t, now);
  }

  lemma PassTask(w: Snapshot, v: Snapshot, t: string, now: Time)
    requires t in w.tasks && t in w.runtime && t in v.runtime
    requires v.runtime[t] == StepTask(Deps(w, t), w.runtime[t], v.runtime, now)
    ensures
      var rt, rt' := w.runtime[t], v.runtime[t];
      && (rt.state.RetryWait? ==>
            if rt.nextRetryAt.None? || rt.nextRetryAt.value <= now then rt' == rt.(state := Ready, nextRetryAt := None)
            else rt' == rt)
      && (rt.state.Pending? ==>
            if Blocked(w, v, t) then rt' == rt.(state := Cancelled)
            else if Unblocked(w, v, t) then rt' == rt.(state := Ready)
            else rt' == rt)
      && (!rt.state.RetryWait? && !rt.state.Pending? ==> rt' == rt)
  {
    hide SomeImpossible, AllSucceeded, Blocked, Unblocked;
    DependenciesSpelled(w, v, t);
  }

  lemma DependenciesSpelled(w: Snapshot, v: Snapshot, t: string)
    requires t in w.tasks
    ensures SomeImpossible(Deps(w, t), v.runtime) <==> Blocked(w, v, t)
    ensures AllSucceeded(Deps(w, t), v.runtime) <==> Unblocked(w, v, t)
  {
    var deps := Deps(w, t);
    if Blocked(w, v, t) {
      var a :| a in deps && a in v.runtime && (v.runtime[a].state.Failed? || v.runtime[a].state.Cancelled?);
      var i :| 0 <= i < |deps| && deps[i] == a;
    }
    if AllSucceeded(deps, v.runtime) {
      forall a | a in deps ensures a in v.runtime && v.runtime[a].state.Succeeded? {
        var i :| 0 <= i < |deps| && deps[i] == a;
      }
    }
  }

  /** The verdict of a pass: success, failure or running, as the tasks stand after it. */
  lemma PassVerdict(w: Snapshot, now: Time)
    requires Shape(w) && !TerminalWorkflow(w.state)
    ensures
      var v := Recomputed(w, now);
      var some := (x: TaskState) => exists t :: t in v.runtime && v.runtime[t].state == x;
      && (v.state == WorkflowSucceeded <==> forall t :: t in v.runtime ==> v.runtime[t].state == Succeeded)
      && (v.state == WorkflowFailed
          <==> some(Failed) && !some(Ready) && !some(Leased) && !some(Running) && !some(RetryWait))
      && v.state in {WorkflowRunning, WorkflowSucceeded, WorkflowFailed}
      && v.finishedAt == if v.state == WorkflowRunning then w.finishedAt else Some(now)
  {
    hide StepTasks, Topological;
    var v := Recomputed(w, now);
    var order, runtime := w.order, v.runtime;
    assert v.runtime.Keys == w.tasks.Keys == w.runtime.Keys;
    forall t | t in v.runtime ensures exists k :: 0 <= k < |order| && order[k] == t { var k := Listed(w, t); }
    if EverySucceeded(order, |order|, runtime) {
      forall t | t in v.runtime ensures v.runtime[t].state == Succeeded {
        var k :| 0 <= k < |order| && order[k] == t;
      }
    }
    forall t | t in v.runtime && ActiveTask(v.runtime[t].state) ensures SomeActive(order, |order|, runtime) {
      var k :| 0 <= k < |order| && order[k] == t;
    }
    forall t | t in v.runtime && v.runtime[t].state == Failed ensures SomeFailed(order, |order|, runtime) {
      var k :| 0 <= k < |order| && order[k] == t;
    }
    assert OrderKnown(w);
  }

  /** Cancelling ends exactly the tasks that had not ended, spelled out. */
  lemma CancelRule(w: Snapshot, now: Time, t: string)
    requires t in w.runtime && !TerminalWorkflow(w.state)
    ensures
      var v := CancelledAt(w, now);
      && v.state == WorkflowCancelled && v.finishedAt == Some(now) && v.runtime.Keys == w.runtime.Keys
      && var rt := w.runtime[t];
         v.runtime[t] ==
           if rt.state.Succeeded? || rt.state.Failed? || rt.state.Cancelled? then rt
           else rt.(state := Cancelled, finishedAt := Some(now))
  {
  }

  lemma EndedWorkflows(w: Snapshot, now: Time)
    requires w.state.WorkflowSucceeded? || w.state.WorkflowFailed? || w.state.WorkflowCancelled?
    ensures Recomputed(w, now) == w && CancelledAt(w, now) == w
  {
  }
}
