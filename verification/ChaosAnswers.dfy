/** What each operation of the chaos `Model` answers and changes, and what the clock decides, spelled out. */
module ChaosAnswers {
  import opened Runtime
  import opened ChaosModel
  import opened ChaosReplay
  import opened ChaosSound
  import opened ChaosInvariant

  // Expiry

  /** The record of a task whose lease was taken back. */
  function HandedBack(task: Task): Task {
    task.(state := Ready, leaseToken := "", leaseOwner := "", leaseUntil := None, started := None, finished := None,
          exitCode := None, error := "")
  }

  /** Every other task, and the list of workflows, is as before. */
  ghost predicate OthersKept(m: Model, m': Model, w: string, t: string) {
    && m'.workflows.Keys == m.workflows.Keys && m'.now == m.now
    && (forall v, u :: Has(m', v, u) <==> Has(m, v, u))
    && forall v, u :: Has(m, v, u) && (v != w || u != t)
        ==> Has(m', v, u) && m'.workflows[v].tasks[u] == m.workflows[v].tasks[u]
  }

  /** A lease is closed exactly if it has run out; its task is handed back, and its worker no longer lists it. */
  lemma ExpireAnswers(m: Model, k: string)
    requires Inv(m)
    ensures k !in m.leases || m.now < m.leases[k].expires ==> ExpireLease(m, k) == m
    ensures k in m.leases && m.leases[k].expires <= m.now ==>
      var m', l := ExpireLease(m, k), m.leases[k];
      && m'.leases == m.leases - {k} && m'.closed == m.closed[k := l]
      && Has(m, l.workflowId, l.taskId) && OthersKept(m, m', l.workflowId, l.taskId) && Has(m', l.workflowId, l.taskId)
      && m'.workflows[l.workflowId].tasks[l.taskId] == HandedBack(m.workflows[l.workflowId].tasks[l.taskId])
      && (l.workerId in m.workers ==> l.workerId in m'.workers && k !in m'.workers[l.workerId].activeTokens)
      && |m'.events| == |m.events| + 1
  {
    hide Inv;
    if k in m.leases { LeasedTask(m, k); }
  }

  /** Of the leases visited, a sweep closes exactly those that have run out; every other lease, and its task, is left
      alone. */
  lemma SweepCloses(m: Model, tokens: seq<string>, ids: seq<string>)
    requires Inv(m)
    ensures
      var m' := Sweep(m, tokens, ids);
      && (forall k :: k in m'.leases <==> k in m.leases && !(k in tokens && m.leases[k].expires <= m.now))
      && forall k :: k in m'.leases ==> KeepsLease(m, m', k)
  {
    hide Inv, ExpireAll, RecomputeAll, KeepsLease;
    ExpireAllCloses(m, tokens);
    ExpireAllInv(m, tokens);
    var m1 := ExpireAll(m, tokens);
    RecomputeAllKeepsLeases(m1, ids);
    forall k | k in Sweep(m, tokens, ids).leases ensures KeepsLease(m, Sweep(m, tokens, ids), k) {
      KeepsTransitive(m, m1, Sweep(m, tokens, ids), k);
    }
  }

  /** The lease `k` and the record of its task are the same in both models. */
  ghost predicate KeepsLease(m: Model, m': Model, k: string) {
    && k in m.leases && k in m'.leases && m'.leases[k] == m.leases[k]
    && var l := m.leases[k];
       && Has(m, l.workflowId, l.taskId) && Has(m', l.workflowId, l.taskId)
       && m'.workflows[l.workflowId].tasks[l.taskId] == m.workflows[l.workflowId].tasks[l.taskId]
  }

  lemma KeepsTransitive(a: Model, b: Model, c: Model, k: string)
    requires KeepsLease(a, b, k) && KeepsLease(b, c, k)
    ensures KeepsLease(a, c, k)
  {
  }

  lemma KeepsRefl(m: Model, k: string)
    requires Inv(m) && k in m.leases
    ensures KeepsLease(m, m, k)
  {
    hide Inv;
    LeasedTask(m, k);
  }

  lemma ExpireInv(m: Model, k: string)
    requires Inv(m)
    ensures Inv(ExpireLease(m, k))
  {
    hide Inv, DropLease;
    if k in m.leases && m.leases[k].expires <= m.now {
      LeasedTask(m, k);
      DropKeeps(m, k);
      var l := m.leases[k];
      var task := m.workflows[l.workflowId].tasks[l.taskId];
      InvDrop(m, k, Reset(Released(task, k)));
      InvEmit(PutTask(DropLease(m, k), l.workflowId, l.taskId, Reset(Released(task, k))),
              R.LeaseExpired, l.workflowId, l.taskId, l.workerId, R.Absent);
    }
  }

  lemma {:induction false} ExpireAllInv(m: Model, tokens: seq<string>)
    requires Inv(m)
    ensures Inv(ExpireAll(m, tokens)) && ExpireAll(m, tokens).now == m.now
  {
    hide Inv, ExpireLease;
    if tokens != [] {
      ExpireAllInv(m, tokens[..|tokens| - 1]);
      ExpireInv(ExpireAll(m, tokens[..|tokens| - 1]), tokens[|tokens| - 1]);
      ExpireNow(ExpireAll(m, tokens[..|tokens| - 1]), tokens[|tokens| - 1]);
    }
  }

  lemma ExpireNow(m: Model, k: string)
    ensures ExpireLease(m, k).now == m.now
  {
  }

  lemma ExpireKeeps(m: Model, k: string, j: string)
    requires Inv(m) && j in m.leases && j != k
    ensures KeepsLease(m, ExpireLease(m, k), j)
  {
    hide Inv, ExpireLease;
    ExpireAnswers(m, k);
    LeasedTask(m, j);
    if k in m.leases { OtherLease(m, k, j); }
  }

  lemma {:induction false} ExpireAllCloses(m: Model, tokens: seq<string>)
    requires Inv(m)
    ensures
      var m' := ExpireAll(m, tokens);
      && (forall k :: k in m'.leases <==> k in m.leases && !(k in tokens && m.leases[k].expires <= m.now))
      && forall k :: k in m'.leases ==> KeepsLease(m, m', k)
  {
    hide Inv, ExpireLease, KeepsLease;
    if tokens == [] {
      forall k | k in m.leases ensures KeepsLease(m, m, k) { KeepsRefl(m, k); }
    } else {
      var init, x := tokens[..|tokens| - 1], tokens[|tokens| - 1];
      var m1 := ExpireAll(m, init);
      ExpireAllCloses(m, init);
      ExpireAllInv(m, init);
      ExpireAnswers(m1, x);
      assert forall k :: k in tokens <==> k in init || k == x;
      forall k | k in m1.leases ensures m1.leases[k] == m.leases[k] { SameLeaseKept(m, m1, k); }
      forall k | k in ExpireLease(m1, x).leases ensures KeepsLease(m, ExpireLease(m1, x), k) {
        if k != x {
          ExpireKeeps(m1, x, k);
          KeepsTransitive(m, m1, ExpireLease(m1, x), k);
        }
      }
    }
  }

  lemma SameLeaseKept(m: Model, m': Model, k: string)
    requires KeepsLease(m, m', k)
    ensures k in m.leases && k in m'.leases && m'.leases[k] == m.leases[k]
  {
  }

  // Recomputing

  /** Recomputing one task touches no other, and only a pending or waiting one. */
  lemma TaskPass(m: Model, w: string, t: string)
    requires w in m.workflows
    ensures
      var m' := RecomputeTask(m, w, t);
      && OthersKept(m, m', w, t) && m'.leases == m.leases && m'.workflows[w].state == m.workflows[w].state
      && m'.workflows[w].order == m.workflows[w].order
      && (t in m.workflows[w].tasks ==> Has(m', w, t) && TaskRule(m.workflows[w].tasks, t, m'.workflows[w].tasks[t],
          m.now))
  {
    hide Impossible, Satisfied, PutTask, Blocked, Unblocked, OthersKept;
    NothingPut(m, w, t);
    if t in m.workflows[w].tasks {
      var task := m.workflows[w].tasks[t];
      DependenciesSpelled(m.workflows[w].tasks, task.dependsOn);
      OnePut(m, w, t, task.(state := Cancelled, finished := Some(m.now)));
      OnePut(m, w, t, task.(state := Ready));
      OnePut(m, w, t, task.(state := Ready, nextRetry := None, finished := None));
    }
  }

  lemma NothingPut(m: Model, w: string, t: string)
    ensures OthersKept(m, m, w, t)
  {
  }

  lemma OnePut(m: Model, w: string, t: string, task: Task)
    requires Has(m, w, t)
    ensures
      var m' := PutTask(m, w, t, task);
      && OthersKept(m, m', w, t) && OthersKept(m, Emit(m', R.TaskReady, w, t, "", R.Absent), w, t)
      && m'.leases == m.leases && m'.workflows[w].state == m.workflows[w].state
      && m'.workflows[w].order == m.workflows[w].order && Has(m', w, t) && m'.workflows[w].tasks[t] == task
  {
  }

  ghost predicate Blocked(tasks: map<string, Task>, deps: seq<string>) {
    exists a :: a in deps && a in tasks && (tasks[a].state.Failed? || tasks[a].state.Cancelled?)
  }

  ghost predicate Unblocked(tasks: map<string, Task>, deps: seq<string>) {
    forall a :: a in deps ==> a in tasks && tasks[a].state.Succeeded?
  }

  lemma DependenciesSpelled(tasks: map<string, Task>, deps: seq<string>)
    ensures Impossible(tasks, deps) <==> Blocked(tasks, deps)
    ensures Satisfied(tasks, deps) <==> Unblocked(tasks, deps)
  {
    if Blocked(tasks, deps) {
      var a :| a in deps && a in tasks && (tasks[a].state.Failed? || tasks[a].state.Cancelled?);
      var i :| 0 <= i < |deps| && deps[i] == a;
    }
    if Satisfied(tasks, deps) {
      forall a | a in deps ensures a in tasks && tasks[a].state.Succeeded? { var i :| 0 <= i < |deps| && deps[i] == a; }
    }
  }

  /** A pending task is cancelled if a dependency has failed or was cancelled, and becomes ready if all have
      succeeded; a task that waits for a retry becomes ready exactly if its time has come; no other record changes. */
  ghost predicate TaskRule(tasks: map<string, Task>, t: string, after: Task, now: Time)
    requires t in tasks
  {
    var task := tasks[t];
    && (task.state.Pending? ==>
          after == if Blocked(tasks, task.dependsOn) then task.(state := Cancelled, finished := Some(now))
                   else if Unblocked(tasks, task.dependsOn) then task.(state := Ready)
                   else task)
    && (task.state.RetryWait? ==>
          after == if task.nextRetry.None? || task.nextRetry.value <= now
                   then task.(state := Ready, nextRetry := None, finished := None) else task)
    && (!task.state.Pending? && !task.state.RetryWait? ==> after == task)
  }

  /** What one pass makes of a task that does not depend on the others: it was waiting, or in neither of the two
      states. */
  ghost predicate OwnRule(task: Task, after: Task, now: Time) {
    && (task.state.RetryWait? ==>
          after == if task.nextRetry.None? || task.nextRetry.value <= now
                   then task.(state := Ready, nextRetry := None, finished := None) else task)
    && (!task.state.Pending? && !task.state.RetryWait? ==> after == task)
  }

  /** Between two models with the same workflows and leases, only tasks of `w` have changed. */
  ghost predicate PassFrame(m: Model, m': Model, w: string)
    requires w in m.workflows
  {
    && m'.workflows.Keys == m.workflows.Keys && m'.now == m.now && m'.leases == m.leases
    && m'.workflows[w].state == m.workflows[w].state && m'.workflows[w].order == m.workflows[w].order
    && (forall v, u :: Has(m', v, u) <==> Has(m, v, u))
    && (forall v, u :: Has(m, v, u) && v != w ==> m'.workflows[v].tasks[u] == m.workflows[v].tasks[u])
  }

  lemma {:induction false} TasksFrame(m: Model, w: string, order: seq<string>, n: nat)
    requires w in m.workflows && n <= |order|
    ensures PassFrame(m, RecomputeTasks(m, w, order, n), w)
  {
    hide RecomputeTask;
    if n > 0 {
      TasksFrame(m, w, order, n - 1);
      TaskPass(RecomputeTasks(m, w, order, n - 1), w, order[n - 1]);
    }
  }

  lemma {:induction false} TasksPass(m: Model, w: string, order: seq<string>, n: nat, t: string)
    requires w in m.workflows && n <= |order| && t in m.workflows[w].tasks
    ensures PassFrame(m, RecomputeTasks(m, w, order, n), w)
    ensures
      var m' := RecomputeTasks(m, w, order, n);
      && Has(m', w, t) && (t in order[..n] ==> OwnRule(m.workflows[w].tasks[t], m'.workflows[w].tasks[t], m.now))
      && (t !in order[..n] ==> m'.workflows[w].tasks[t] == m.workflows[w].tasks[t])
  {
    hide RecomputeTask, OwnRule, TaskRule;
    TasksFrame(m, w, order, n);
    if n > 0 {
      var before, after := RecomputeTasks(m, w, order, n - 1), RecomputeTasks(m, w, order, n);
      TasksFrame(m, w, order, n - 1);
      TasksPass(m, w, order, n - 1, t);
      TaskPass(before, w, order[n - 1]);
      assert order[..n] == order[..n - 1] + [order[n - 1]];
      if order[n - 1] == t {
        if t in order[..n - 1] {
          SecondPass(m.workflows[w].tasks[t], before.workflows[w].tasks, t, after.workflows[w].tasks[t], m.now);
        } else {
          FirstPass(before.workflows[w].tasks, t, after.workflows[w].tasks[t], m.now);
        }
      }
    }
  }

  lemma FirstPass(tasks: map<string, Task>, t: string, after: Task, now: Time)
    requires t in tasks && TaskRule(tasks, t, after, now)
    ensures OwnRule(tasks[t], after, now)
  {
    hide Blocked, Unblocked;
  }

  lemma SecondPass(task: Task, tasks: map<string, Task>, t: string, after: Task, now: Time)
    requires t in tasks && OwnRule(task, tasks[t], now) && TaskRule(tasks, t, after, now)
    ensures OwnRule(task, after, now)
  {
    hide Blocked, Unblocked;
  }

  /** A pass over an unfinished workflow: a task that waits for a retry wakes exactly if its time has come, and a task
      that is neither pending nor waiting keeps its record. */
  lemma PassWakes(m: Model, w: string, t: string)
    requires Has(m, w, t) && t in m.workflows[w].order && !TerminalWorkflow(m.workflows[w].state)
    ensures Has(Recompute(m, w), w, t)
    ensures OwnRule(m.workflows[w].tasks[t], Recompute(m, w).workflows[w].tasks[t], m.now)
    ensures Recompute(m, w).leases == m.leases
  {
    hide RecomputeTasks, NextState, OwnRule;
    var order := m.workflows[w].order;
    TasksPass(m, w, order, |order|, t);
    assert order[..|order|] == order;
  }

  lemma RecomputeKeepsLease(m: Model, w: string, k: string)
    requires Inv(m) && k in m.leases
    ensures KeepsLease(m, Recompute(m, w), k)
  {
    hide Inv, RecomputeTasks, NextState;
    LeasedTask(m, k);
    var l := m.leases[k];
    if w in m.workflows && !TerminalWorkflow(m.workflows[w].state) {
      var order := m.workflows[w].order;
      LeasedPass(m, w, order, k);
    }
  }

  lemma LeasedPass(m: Model, w: string, order: seq<string>, k: string)
    requires w in m.workflows && k in m.leases && Has(m, m.leases[k].workflowId, m.leases[k].taskId)
    requires HoldsLease(m.workflows[m.leases[k].workflowId].tasks[m.leases[k].taskId].state)
    ensures KeepsLease(m, RecomputeTasks(m, w, order, |order|), k)
    ensures RecomputeTasks(m, w, order, |order|).workflows.Keys == m.workflows.Keys
  {
    hide RecomputeTasks;
    LeasedPassTo(m, w, order, |order|, k);
  }

  lemma {:induction false} LeasedPassTo(m: Model, w: string, order: seq<string>, n: nat, k: string)
    requires w in m.workflows && n <= |order| && k in m.leases && Has(m, m.leases[k].workflowId, m.leases[k].taskId)
    requires HoldsLease(m.workflows[m.leases[k].workflowId].tasks[m.leases[k].taskId].state)
    ensures KeepsLease(m, RecomputeTasks(m, w, order, n), k)
    ensures RecomputeTasks(m, w, order, n).workflows.Keys == m.workflows.Keys
  {
    hide RecomputeTask;
    if n > 0 {
      LeasedPassTo(m, w, order, n - 1, k);
      TaskPass(RecomputeTasks(m, w, order, n - 1), w, order[n - 1]);
    }
  }

  lemma {:induction false} RecomputeAllKeepsLeases(m: Model, ids: seq<string>)
    requires Inv(m)
    ensures RecomputeAll(m, ids).leases == m.leases
    ensures forall k :: k in m.leases ==> KeepsLease(m, RecomputeAll(m, ids), k)
    ensures Inv(RecomputeAll(m, ids))
  {
    hide Inv, Recompute, KeepsLease;
    if ids == [] {
      forall k | k in m.leases ensures KeepsLease(m, m, k) { KeepsRefl(m, k); }
    } else {
      var init, w := ids[..|ids| - 1], ids[|ids| - 1];
      var m1 := RecomputeAll(m, init);
      RecomputeAllKeepsLeases(m, init);
      RecomputeInv(m1, w);
      forall k | k in m1.leases ensures KeepsLease(m, Recompute(m1, w), k) {
        RecomputeKeepsLease(m1, w, k);
        KeepsTransitive(m, m1, Recompute(m1, w), k);
      }
      RecomputeLeases(m1, w);
    }
  }

  lemma RecomputeLeases(m: Model, w: string)
    ensures Recompute(m, w).leases == m.leases
  {
    hide RecomputeTasks, NextState;
    if w in m.workflows && !TerminalWorkflow(m.workflows[w].state) {
      TasksLeases(m, w, m.workflows[w].order, |m.workflows[w].order|);
    }
  }

  lemma {:induction false} TasksLeases(m: Model, w: string, order: seq<string>, n: nat)
    requires w in m.workflows && n <= |order|
    ensures RecomputeTasks(m, w, order, n).leases == m.leases
  {
    hide RecomputeTask;
    if n > 0 {
      TasksLeases(m, w, order, n - 1);
      TaskPass(RecomputeTasks(m, w, order, n - 1), w, order[n - 1]);
    }
  }

  lemma TaskInv(m: Model, w: string, t: string)
    requires Inv(m) && w in m.workflows && !TerminalWorkflow(m.workflows[w].state)
    ensures Inv(RecomputeTask(m, w, t))
  {
    hide Inv, Impossible, Satisfied, HoldsLease;
    if t in m.workflows[w].tasks {
      var task := m.workflows[w].tasks[t];
      TokenOf(m, w, t);
      FreeState(m, w, t);
      if task.state == Pending || task.state == RetryWait {
        InvPutTask(m, w, t, task.(state := Cancelled, finished := Some(m.now)));
        InvPutTask(m, w, t, task.(state := Ready));
        InvPutTask(m, w, t, task.(state := Ready, nextRetry := None, finished := None));
        InvEmit(PutTask(m, w, t, task.(state := Ready)), R.TaskReady, w, t, "", R.Absent);
        InvEmit(PutTask(m, w, t, task.(state := Ready, nextRetry := None, finished := None)), R.TaskReady, w, t, "",
            R.Absent);
      }
    }
  }

  lemma FreeState(m: Model, w: string, t: string)
    requires Has(m, w, t) && TokenOk(m, w, t)
    ensures !HoldsLease(Ready) && !HoldsLease(Cancelled)
    ensures m.workflows[w].tasks[t].state in {Pending, RetryWait} ==>
      !HoldsLease(m.workflows[w].tasks[t].state) && m.workflows[w].tasks[t].leaseToken == ""
  {
  }

  lemma {:induction false} TasksInv(m: Model, w: string, order: seq<string>, n: nat)
    requires Inv(m) && w in m.workflows && !TerminalWorkflow(m.workflows[w].state) && n <= |order|
    ensures Inv(RecomputeTasks(m, w, order, n)) && RecomputeTasks(m, w, order, n).workflows[w].state
        == m.workflows[w].state
  {
    hide Inv, RecomputeTask;
    if n > 0 {
      TasksInv(m, w, order, n - 1);
      TaskInv(RecomputeTasks(m, w, order, n - 1), w, order[n - 1]);
      TaskPass(RecomputeTasks(m, w, order, n - 1), w, order[n - 1]);
    }
  }

  lemma RecomputeInv(m: Model, w: string)
    requires Inv(m)
    ensures Inv(Recompute(m, w))
  {
    hide Inv, RecomputeTasks, NextState, StateEvent;
    if w in m.workflows && !TerminalWorkflow(m.workflows[w].state) {
      var order := m.workflows[w].order;
      TasksInv(m, w, order, |order|);
      var m1 := RecomputeTasks(m, w, order, |order|);
      if NextState(m1.workflows[w]) != m1.workflows[w].state {
        NextStateInv(m1, w, NextFlow(m1.workflows[w], m1.now));
        InvEmit(m1.(workflows := m1.workflows[w := NextFlow(m1.workflows[w], m1.now)]),
                StateEvent(NextState(m1.workflows[w])), w, "", "", R.Absent);
      }
    }
  }

  /** A task is left alone once the pass has visited it. */
  lemma {:induction false} VisitedStays(m: Model, w: string, order: seq<string>, k: nat, n: nat, u: string)
    requires w in m.workflows && k <= n <= |order| && u !in order[k..n] && u in m.workflows[w].tasks
    ensures u in RecomputeTasks(m, w, order, k).workflows[w].tasks
        && u in RecomputeTasks(m, w, order, n).workflows[w].tasks
    ensures RecomputeTasks(m, w, order, n).workflows[w].tasks[u] == RecomputeTasks(m, w, order, k).workflows[w].tasks[u]
    decreases n
  {
    hide RecomputeTask;
    TasksPass(m, w, order, k, u);
    if k < n {
      assert order[k..n] == order[k..n - 1] + [order[n - 1]];
      VisitedStays(m, w, order, k, n - 1, u);
      TaskPass(RecomputeTasks(m, w, order, n - 1), w, order[n - 1]);
      assert Has(RecomputeTasks(m, w, order, n - 1), w, u);
    }
  }

  /** The pass in dependency order settles a pending task by what has become of its dependencies. */
  lemma PassSettles(m: Model, w: string, k: nat)
    requires w in m.workflows && !TerminalWorkflow(m.workflows[w].state) && k < |m.workflows[w].order|
    requires
      var wf := m.workflows[w];
      var t := wf.order[k];
      && Graph.NoDup(wf.order) && t in wf.tasks && wf.tasks[t].state.Pending?
      && forall a :: a in wf.tasks[t].dependsOn ==> a in wf.order[..k] && a in wf.tasks
    ensures
      var wf, after := m.workflows[w], Recompute(m, w).workflows;
      var t := wf.order[k];
      && w in after && t in after[w].tasks
      && var task, tasks := wf.tasks[t], after[w].tasks;
         tasks[t] == if Blocked(tasks, task.dependsOn) then task.(state := Cancelled, finished := Some(m.now))
                     else if Unblocked(tasks, task.dependsOn) then task.(state := Ready)
                     else task
  {
    hide RecomputeTask, RecomputeTasks, NextState, Blocked, Unblocked;
    var wf := m.workflows[w];
    var order, t := wf.order, wf.order[k];
    var before, here, after := RecomputeTasks(m, w, order, k), RecomputeTasks(m, w, order, k + 1),
        RecomputeTasks(m, w, order, |order|);
    VisitNext(m, w, order, k);
    TasksPass(m, w, order, k, t);
    assert t !in order[..k];
    TaskPass(before, w, t);
    forall i | k + 1 <= i < |order| ensures order[i] != t {}
    VisitedStays(m, w, order, k + 1, |order|, t);
    forall a | a in wf.tasks[t].dependsOn
      ensures a in before.workflows[w].tasks && a in after.workflows[w].tasks
      ensures after.workflows[w].tasks[a] == before.workflows[w].tasks[a]
    {
      var i :| 0 <= i < k && order[i] == a;
      VisitedStays(m, w, order, k, |order|, a);
    }
    SameDependenciesSpelled(before.workflows[w].tasks, after.workflows[w].tasks, wf.tasks[t].dependsOn);
    TasksPass(m, w, order, |order|, t);
  }

  lemma VisitNext(m: Model, w: string, order: seq<string>, k: nat)
    requires w in m.workflows && k < |order|
    ensures RecomputeTasks(m, w, order, k + 1) == RecomputeTask(RecomputeTasks(m, w, order, k), w, order[k])
  {
  }

  lemma SameDependenciesSpelled(a: map<string, Task>, b: map<string, Task>, deps: seq<string>)
    requires forall d :: d in deps ==> d in a && d in b && a[d] == b[d]
    ensures Blocked(a, deps) <==> Blocked(b, deps)
    ensures Unblocked(a, deps) <==> Unblocked(b, deps)
  {
  }

  /** The verdict on an unfinished workflow, spelled out. */
  lemma VerdictSpelled(wf: ChaosModel.Workflow)
    requires !TerminalWorkflow(wf.state)
    ensures
      var some := (x: TaskState) => exists t :: t in wf.tasks && wf.tasks[t].state == x;
      && (NextState(wf) == WorkflowSucceeded <==> forall t :: t in wf.tasks ==> wf.tasks[t].state == Succeeded)
      && (NextState(wf) == WorkflowFailed <==>
            some(Failed) && !some(Ready) && !some(Leased) && !some(Running) && !some(RetryWait))
      && NextState(wf) in {WorkflowRunning, WorkflowSucceeded, WorkflowFailed}
  {
  }

  // Retry delays

  lemma {:induction false} DelayWithin(base: int, maximum: int, attempt: int)
    requires 1 <= base <= maximum
    ensures 1 <= Delay(base, maximum, attempt) <= maximum
    decreases attempt
  {
    if attempt > 1 { DelayWithin(base, maximum, attempt - 1); }
  }

  lemma {:induction false} PowerPositive(n: nat)
    ensures WorkflowSpec.Pow2(n) >= 1
  {
    if n > 0 { PowerPositive(n - 1); }
  }

  /** The delay after an attempt: the base, doubled for each earlier attempt, up to the maximum. */
  lemma {:induction false} DelaySpelled(base: int, maximum: int, attempt: int)
    requires 1 <= base <= maximum && attempt >= 1
    ensures
      var doubled := base * WorkflowSpec.Pow2(attempt - 1);
      Delay(base, maximum, attempt) == if doubled < maximum then doubled else maximum
    decreases attempt
  {
    PowerPositive(attempt - 1);
    if attempt > 1 {
      DelaySpelled(base, maximum, attempt - 1);
      PowerPositive(attempt - 2);
      Twice(base, WorkflowSpec.Pow2(attempt - 2), WorkflowSpec.Pow2(attempt - 1));
    }
  }

  lemma Twice(base: int, p: int, q: int)
    requires q == 2 * p
    ensures base * q == 2 * (base * p)
  {
  }

  // Operations on a lease

  predicate Live(m: Model, k: string) {
    k in m.leases && m.now < m.leases[k].expires
  }

  /** The answer to a token that is not live. */
  ghost predicate Refuses(m: Model, r: Outcome, k: string) {
    && r.model == ExpireLease(m, k)
    && r.answer == Refused(if k in m.leases then LeaseHasExpired else if k in m.closed then StaleLease
        else UnknownLease)
  }

  lemma RefusalSpelled(m: Model, k: string)
    ensures LeaseRefusal(m, k).None? <==> Live(m, k)
    ensures LeaseRefusal(m, k).Some? ==> Refuses(m, RefuseLease(m, k), k)
  {
    hide ExpireLease;
  }

  /** Only the record of the task of lease `k`, and the lease itself, have changed. */
  ghost predicate OnlyLease(m: Model, m': Model, k: string, lease: Lease, task: Task) {
    && k in m.leases && Has(m, m.leases[k].workflowId, m.leases[k].taskId)
    && m'.workflows == PutTask(m, m.leases[k].workflowId, m.leases[k].taskId, task).workflows
    && m'.leases == m.leases[k := lease] && m'.closed == m.closed && m'.workers == m.workers && m'.now == m.now
  }

  lemma StartSpelled(m: Model, k: string)
    requires Inv(m)
    ensures !Live(m, k) ==> Refuses(m, Start(m, k), k)
    ensures Live(m, k) ==>
      var l, r := m.leases[k], Start(m, k);
      && Has(m, l.workflowId, l.taskId) && r.answer == Done
      && var task := m.workflows[l.workflowId].tasks[l.taskId];
         if task.state.Leased? then
           OnlyLease(m, r.model, k, l.(started := true), task.(state := Running, started := Some(m.now)))
         else r.model == m
  {
    hide Inv, ExpireLease, Refuses;
    RefusalSpelled(m, k);
    if k in m.leases { LeasedTask(m, k); }
  }

  lemma RenewSpelled(m: Model, k: string)
    requires Inv(m)
    ensures !Live(m, k) ==> Refuses(m, Renew(m, k), k)
    ensures Live(m, k) ==>
      var l, r := m.leases[k], Renew(m, k);
      && Has(m, l.workflowId, l.taskId) && r.answer == Done && r.model.events == m.events
      && OnlyLease(m, r.model, k, l.(expires := m.now + m.leaseDuration),
           m.workflows[l.workflowId].tasks[l.taskId].(leaseUntil := Some(m.now + m.leaseDuration)))
  {
    hide Inv, ExpireLease, Refuses;
    RefusalSpelled(m, k);
    if k in m.leases { LeasedTask(m, k); }
  }

  /** A chunk is refused for its stream, its own size, or the output in all, in this order. */
  lemma LogSpelled(m: Model, k: string, size: nat, knownStream: bool)
    requires Inv(m)
    ensures !Live(m, k) ==> Refuses(m, AppendLog(m, k, size, knownStream), k)
    ensures Live(m, k) ==>
      var l, r := m.leases[k], AppendLog(m, k, size, knownStream);
      && Has(m, l.workflowId, l.taskId)
      && var task := m.workflows[l.workflowId].tasks[l.taskId];
         if !knownStream then r == Outcome(m, Refused(InvalidStream))
         else if m.chunkLimit < size then r == Outcome(m, Refused(LogChunkTooLarge))
         else if m.outputLimit < task.outputBytes + size then r == Outcome(m, Refused(TaskOutputLimit))
         else r.answer == Done && OnlyLease(m, r.model, k, l, task.(outputBytes := task.outputBytes + size))
  {
    hide Inv, ExpireLease, Refuses;
    RefusalSpelled(m, k);
    if k in m.leases {
      LeasedTask(m, k);
      assert m.leases[k := m.leases[k]] == m.leases;
    }
  }

  /** The record of a completed attempt. */
  function Reported(m: Model, task: Task, exitCode: int, error: string): Task {
    var ended := task.(leaseToken := "", leaseOwner := "", leaseUntil := None, exitCode := Some(exitCode),
        error := error,
                       finished := Some(m.now), started := if task.state.Leased? then Some(m.now) else task.started);
    if exitCode == 0 && error == "" then ended.(state := Succeeded)
    else if task.attempt < task.maxAttempts then
      ended.(state := RetryWait, nextRetry := Some(m.now + Delay(task.baseDelayMs, task.maxDelayMs, task.attempt)))
    else ended.(state := Failed)
  }

  lemma CompletedReports(m: Model, task: Task, exitCode: int, error: string)
    requires task.state.Leased? || task.state.Running?
    ensures Completed(m, task, exitCode, error) == Reported(m, task, exitCode, error)
  {
    hide Delay;
  }

  /** A completion closes the lease, frees the slot of its worker and records the report; the pass over the workflow
      that follows is that of `Recompute`. */
  lemma CompleteSpelled(m: Model, k: string, exitCode: int, error: string)
    requires Inv(m)
    ensures !Live(m, k) ==> Refuses(m, Complete(m, k, exitCode, error), k)
    ensures Live(m, k) ==>
      var l := m.leases[k];
      && Has(m, l.workflowId, l.taskId) && Carries(m, k)
      && var task, settled := m.workflows[l.workflowId].tasks[l.taskId], Settle(m, k, exitCode, error);
      && Complete(m, k, exitCode, error) == Outcome(Recompute(settled, l.workflowId), Done)
      && settled.workflows == PutTask(m, l.workflowId, l.taskId, Reported(m, task, exitCode, error)).workflows
      && settled.leases == m.leases - {k} && settled.closed == m.closed[k := l]
      && (l.workerId in m.workers ==>
            settled.workers == m.workers[l.workerId := m.workers[l.workerId].(activeTokens :=
                m.workers[l.workerId].activeTokens - {k})])
  {
    hide Inv, ExpireLease, Refuses, Recompute, Completed, Reported;
    RefusalSpelled(m, k);
    if k in m.leases {
      LeasedTask(m, k);
      CompletedReports(m, m.workflows[m.leases[k].workflowId].tasks[m.leases[k].taskId], exitCode, error);
    }
  }

  // Workers, polls and the clock

  lemma WorkersSpelled(m: Model, x: string, capacity: int, labels: map<string, string>, milliseconds: int)
    ensures
      RegisterWorker(m, x, capacity, labels).answer ==
        if !(1 <= capacity <= 256) then Refused(BadCapacity)
        else if x in m.workers && !m.workers[x].dropped then Refused(WorkerExists) else Done
    ensures RegisterWorker(m, x, capacity, labels).answer == Done ==>
      RegisterWorker(m, x, capacity, labels).model.workers == m.workers[x := Worker(capacity, labels, m.now, {}, false)]
    ensures
      Heartbeat(m, x).answer ==
        if x !in m.workers then Refused(UnknownWorker) else if m.workers[x].dropped then Refused(WorkerDropped)
            else Done
    ensures Heartbeat(m, x).answer == Done ==>
      Heartbeat(m, x).model.workers == m.workers[x := m.workers[x].(heartbeat := m.now)]
    ensures Advance(m, milliseconds) ==
      if 0 <= milliseconds then Outcome(m.(now := m.now + milliseconds), Done) else Outcome(m, Refused(TimeBackwards))
  {
  }

  /** A candidate is a ready task, in the order of an unfinished workflow, whose every label the worker has. */
  lemma CandidateSpelled(m: Model, x: string, w: string, t: string)
    ensures Candidate(m, x, w, t) <==>
      && x in m.workers && w in m.workflows && t in m.workflows[w].tasks && t in m.workflows[w].order
      && (m.workflows[w].state.WorkflowPending? || m.workflows[w].state.WorkflowRunning?)
      && m.workflows[w].tasks[t].state.Ready?
      && forall k :: k in m.workflows[w].tasks[t].labels ==>
           k in m.workers[x].labels && m.workers[x].labels[k] == m.workflows[w].tasks[t].labels[k]
  {
  }

  /** Whether a poll is served, and the lease that it grants. */
  lemma PollSpelled(m: Model, x: string, w: string, t: string, token: string)
    requires Candidate(m, x, w, t)
    ensures
      LeaseNext(m, x, Some((w, t)), token).answer ==
        if m.workers[x].dropped then Refused(WorkerDropped)
        else if m.workerTtl < m.now - m.workers[x].heartbeat then Refused(WorkerExpired)
        else if m.workers[x].capacity <= |m.workers[x].activeTokens| then NoLease
        else Done
    ensures LeaseNext(m, x, Some((w, t)), token).answer == Done ==>
      var m', task := LeaseNext(m, x, Some((w, t)), token).model, m.workflows[w].tasks[t];
      && m'.leases == m.leases[token := Lease(w, t, x, task.attempt + 1, m.now, m.now + m.leaseDuration, false)]
      && m'.workers == m.workers[x := m.workers[x].(activeTokens := m.workers[x].activeTokens + {token})]
      && OthersKept(m, m', w, t) && Has(m', w, t)
      && m'.workflows[w].tasks[t] == task.(attempt := task.attempt + 1, state := Leased, leaseToken := token,
          leaseOwner := x,
                                           leaseUntil := Some(m.now + m.leaseDuration), nextRetry := None)
  {
    hide LabelsMatch;
  }
}
