/** What no later operation can undo: finished tasks and workflows, and closed leases. */
module StoreFinality {
  import opened WorkflowSpec
  import opened Runtime
  import opened Recompute
  import opened StoreModel
  import opened StoreInvariant
  import opened StoreOperations
  import opened StoreRuns

  ghost predicate TokensFinal(s: StoreState, s': StoreState) {
    && s.issued <= s'.issued
    && forall t :: t in s.issued && t !in s.leases ==> t !in s'.leases
  }

  ghost predicate WorkflowsFinal(s: StoreState, s': StoreState) {
    forall i :: i in s.workflows ==>
      i in s'.workflows && (TerminalWorkflow(s.workflows[i].state) ==> s'.workflows[i] == s.workflows[i])
  }

  ghost predicate TasksFinal(s: StoreState, s': StoreState) {
    forall i, t :: HasTask(s, i, t) ==>
      HasTask(s', i, t) && (TerminalTask(TaskAt(s, i, t).state) ==> TaskAt(s', i, t) == TaskAt(s, i, t))
  }

  ghost predicate Final(s: StoreState, s': StoreState) {
    TokensFinal(s, s') && WorkflowsFinal(s, s') && TasksFinal(s, s')
  }

  lemma FinalSame(s: StoreState, s': StoreState)
    requires s.workflows == s'.workflows && s.leases.Keys >= s'.leases.Keys && s.issued <= s'.issued
    ensures Final(s, s')
  {
  }

  lemma FinalTransitive(a: StoreState, b: StoreState, c: StoreState)
    requires Final(a, b) && Final(b, c)
    ensures Final(a, c)
  {
    forall i | i in a.workflows
      ensures i in c.workflows && (TerminalWorkflow(a.workflows[i].state) ==> c.workflows[i] == a.workflows[i])
    {
      assert i in b.workflows;
    }
    forall i, t | HasTask(a, i, t)
      ensures HasTask(c, i, t) && (TerminalTask(TaskAt(a, i, t).state) ==> TaskAt(c, i, t) == TaskAt(a, i, t))
    {
      assert HasTask(b, i, t);
    }
  }

  /** Rewriting one unfinished workflow, leaving its finished tasks alone. */
  lemma FinalReplace(s: StoreState, s': StoreState, i: string)
    requires i in s.workflows && i in s'.workflows && s'.workflows == s.workflows[i := s'.workflows[i]]
    requires s'.leases.Keys <= s.leases.Keys + (s'.issued - s.issued) && s.issued <= s'.issued
    requires KeepsFinished(s.workflows[i], s'.workflows[i])
    ensures Final(s, s')
  {
    forall j, t | HasTask(s, j, t)
      ensures HasTask(s', j, t) && (TerminalTask(TaskAt(s, j, t).state) ==> TaskAt(s', j, t) == TaskAt(s, j, t))
    {
    }
  }

  ghost predicate KeepsFinished(w: Snapshot, w': Snapshot) {
    && w.runtime.Keys == w'.runtime.Keys
    && (TerminalWorkflow(w.state) ==> w' == w)
    && forall t :: t in w.runtime && TerminalTask(w.runtime[t].state) ==> w'.runtime[t] == w.runtime[t]
  }

  lemma PutKeepsFinished(w: Snapshot, t: string, rt: TaskRuntime)
    requires FlowOk(w) && t in w.runtime && ActiveTask(w.runtime[t].state)
    ensures KeepsFinished(w, Put(w, t, rt))
  {
    assert !AllTerminal(w);
  }

  lemma RecomputeKeepsFinished(w: Snapshot, now: Time)
    requires Shape(w)
    ensures KeepsFinished(w, Recomputed(w, now))
  {
    if !TerminalWorkflow(w.state) {
      forall t | t in w.runtime && TerminalTask(w.runtime[t].state)
        ensures Recomputed(w, now).runtime[t] == w.runtime[t]
      {
        StepRule(w, now, t);
      }
    }
  }

  lemma KeepsFinishedTransitive(a: Snapshot, b: Snapshot, c: Snapshot)
    requires KeepsFinished(a, b) && KeepsFinished(b, c)
    ensures KeepsFinished(a, c)
  {
  }

  // The operations

  lemma ExpireFinal(s: StoreState, token: string, now: Time)
    requires Inv(s) && token in s.leases
    ensures Final(s, Expire(s, token, now))
  {
    hide FlowOk, Requeued, Expire;
    ExpireShape(s, token, now);
    var l := s.leases[token];
    PutKeepsFinished(s.workflows[l.workflowId], l.taskId, Requeued(TaskAt(s, l.workflowId, l.taskId)));
    FinalReplace(s, Expire(s, token, now), l.workflowId);
  }

  lemma {:induction false} ExpireDueFinal(s: StoreState, tokens: seq<string>, now: Time)
    requires Inv(s)
    ensures Final(s, ExpireDue(s, tokens, now))
  {
    hide Inv, Final, Expire;
    if tokens == [] {
      FinalSame(s, s);
    } else {
      var s1 := ExpireDue(s, tokens[..|tokens| - 1], now);
      var t := tokens[|tokens| - 1];
      ExpireDueFinal(s, tokens[..|tokens| - 1], now);
      ExpireDueKeepsInv(s, tokens[..|tokens| - 1], now);
      if t in s1.leases {
        ExpireFinal(s1, t, now);
        FinalTransitive(s, s1, Expire(s1, t, now));
      }
    }
  }

  lemma RecomputeOneFinal(s: StoreState, id: string, now: Time)
    requires Inv(s) && id in s.workflows
    ensures Final(s, RecomputeOne(s, id, now))
    ensures Final(s, WithWorkflow(s, id, Recomputed(s.workflows[id], now)))
  {
    hide FlowOk, Recomputed;
    assert FlowOk(s.workflows[id]);
    FlowShape(s.workflows[id]);
    RecomputeKeepsFinished(s.workflows[id], now);
    FinalReplace(s, WithWorkflow(s, id, Recomputed(s.workflows[id], now)), id);
    FinalReplace(s, RecomputeOne(s, id, now), id);
  }

  lemma {:induction false} RecomputeAllFinal(s: StoreState, ids: seq<string>, now: Time)
    requires Inv(s)
    ensures Final(s, RecomputeAll(s, ids, now))
  {
    hide Inv, Final, RecomputeOne;
    if ids == [] {
      FinalSame(s, s);
    } else {
      var s1 := RecomputeAll(s, ids[..|ids| - 1], now);
      var id := ids[|ids| - 1];
      RecomputeAllFinal(s, ids[..|ids| - 1], now);
      RecomputeAllKeepsInv(s, ids[..|ids| - 1], now);
      if id in s1.workflows {
        RecomputeOneFinal(s1, id, now);
        FinalTransitive(s, s1, RecomputeOne(s1, id, now));
      }
    }
  }

  lemma SweepFinal(s: StoreState, tokens: seq<string>, ids: seq<string>, now: Time)
    requires Inv(s)
    ensures Final(s, Sweep(s, tokens, ids, now))
  {
    var s1 := ExpireDue(s, tokens, now);
    hide Inv, Final, ExpireDue, RecomputeAll;
    ExpireDueFinal(s, tokens, now);
    ExpireDueKeepsInv(s, tokens, now);
    RecomputeAllFinal(s1, ids, now);
    FinalTransitive(s, s1, RecomputeAll(s1, ids, now));
  }

  lemma GrantFinal(s: StoreState, i: string, t: string, workerId: string, now: Time, token: string)
    requires Inv(s) && HasTask(s, i, t) && t in s.workflows[i].tasks && workerId in s.workers
    requires TaskAt(s, i, t).state == Ready && token !in s.issued
    ensures Final(s, Grant(s, i, t, workerId, now, token).0)
  {
    hide FlowOk;
    var s' := Grant(s, i, t, workerId, now, token).0;
    assert s'.workflows[i] == Put(s.workflows[i], t, TaskAt(s', i, t));
    PutKeepsFinished(s.workflows[i], t, TaskAt(s', i, t));
    FinalReplace(s, s', i);
  }

  lemma {:induction false} ScanFinal(s: StoreState, candidates: seq<string>, workerId: string, now: Time, token: string)
    requires Inv(s) && workerId in s.workers && token != "" && token !in s.issued
    ensures Final(s, Scan(s, candidates, workerId, now, token).0)
    decreases |candidates|
  {
    hide Inv, Final, Grant, Recomputed, Offered;
    if candidates == [] {
      FinalSame(s, s);
    } else if candidates[0] !in s.workflows {
      ScanFinal(s, candidates[1..], workerId, now, token);
    } else {
      var id := candidates[0];
      var w := Recomputed(s.workflows[id], now);
      var s1 := WithWorkflow(s, id, w);
      SilentRecomputeKeepsInv(s, id, now);
      RecomputeOneFinal(s, id, now);
      FirstOfferedIs(w, s.workers[workerId].labels, 0);
      match FirstOffered(w, s.workers[workerId].labels, 0)
      case Some(t) =>
        OfferedIs(w, s.workers[workerId].labels, t);
        GrantFinal(s1, id, t, workerId, now, token);
        FinalTransitive(s, s1, Grant(s1, id, t, workerId, now, token).0);
      case None =>
        ScanFinal(s1, candidates[1..], workerId, now, token);
        FinalTransitive(s, s1, Scan(s1, candidates[1..], workerId, now, token).0);
    }
  }

  lemma LeaseNextFinal(s: StoreState, workerId: string, now: Time, token: string,
                       tokens: seq<string>, sweepIds: seq<string>, scanIds: seq<string>)
    requires Inv(s) && token != "" && token !in s.issued
    ensures Final(s, LeaseNext(s, workerId, now, token, tokens, sweepIds, scanIds).0)
  {
    hide Inv, Final, Scan, Candidates, Sweep;
    var s1 := Sweep(s, tokens, sweepIds, now);
    SweepFinal(s, tokens, sweepIds, now);
    SweepKeepsInv(s, tokens, sweepIds, now);
    SweepFrame(s, tokens, sweepIds, now);
    if workerId in s1.workers {
      ScanFinal(s1, Candidates(s1, scanIds), workerId, now, token);
      FinalTransitive(s, s1, Scan(s1, Candidates(s1, scanIds), workerId, now, token).0);
    }
  }

  lemma GuardFinal(s: StoreState, token: string, now: Time)
    requires Inv(s) && Guard(s, token, now).Some?
    ensures Final(s, Guard(s, token, now).value.0)
  {
    if token in s.leases { ExpireFinal(s, token, now); } else { FinalSame(s, s); }
  }

  /** Only the record of the task of a live lease was rewritten, if anything. */
  ghost predicate LeasedPut(s: StoreState, s': StoreState, token: string)
    requires token in s.leases && LeaseLinked(s, token)
  {
    var l := s.leases[token];
    && HasTask(s', l.workflowId, l.taskId)
    && s'.workflows == s.workflows[l.workflowId := Put(s.workflows[l.workflowId], l.taskId,
        TaskAt(s', l.workflowId, l.taskId))]
    && s'.leases.Keys == s.leases.Keys && s'.issued == s.issued
  }

  lemma LeasedPutFinal(s: StoreState, s': StoreState, token: string)
    requires Inv(s) && token in s.leases && LeaseLinked(s, token) && LeasedPut(s, s', token)
    ensures Final(s, s')
  {
    hide FlowOk;
    var l := s.leases[token];
    assert FlowOk(s.workflows[l.workflowId]);
    PutKeepsFinished(s.workflows[l.workflowId], l.taskId, TaskAt(s', l.workflowId, l.taskId));
    FinalReplace(s, s', l.workflowId);
  }

  lemma StartPut(s: StoreState, token: string, now: Time)
    requires Guard(s, token, now).None? && token in s.leases && LeaseLinked(s, token)
    ensures LeasedPut(s, StartLease(s, token, now).0, token)
  {
    hide Expire;
    var l := s.leases[token];
    assert s.workflows[l.workflowId].runtime == s.workflows[l.workflowId].runtime[l.taskId :=
        TaskAt(s, l.workflowId, l.taskId)];
  }

  lemma LogPut(s: StoreState, token: string, stream: string, text: string, now: Time)
    requires Guard(s, token, now).None? && token in s.leases && LeaseLinked(s, token)
    ensures LeasedPut(s, AppendLog(s, token, stream, text, now).0, token)
  {
    hide Expire, Utf8Length;
    var l := s.leases[token];
    assert s.workflows[l.workflowId].runtime == s.workflows[l.workflowId].runtime[l.taskId :=
        TaskAt(s, l.workflowId, l.taskId)];
  }

  lemma RenewPut(s: StoreState, token: string, now: Time)
    requires Guard(s, token, now).None? && token in s.leases && LeaseLinked(s, token)
    ensures LeasedPut(s, RenewLease(s, token, now).0, token)
  {
    hide Expire;
  }

  lemma LeaseOperationsFinal(s: StoreState, token: string, stream: string, text: string, now: Time)
    requires Inv(s)
    ensures Final(s, StartLease(s, token, now).0)
    ensures Final(s, RenewLease(s, token, now).0)
    ensures Final(s, AppendLog(s, token, stream, text, now).0)
  {
    GuardKeepsInv(s, token, now);
    if Guard(s, token, now).Some? {
      GuardFinal(s, token, now);
    } else {
      hide Inv, Final, LeasedPut, StartLease, RenewLease, AppendLog, LeaseFields;
      StartPut(s, token, now);
      LeasedPutFinal(s, StartLease(s, token, now).0, token);
      RenewPut(s, token, now);
      LeasedPutFinal(s, RenewLease(s, token, now).0, token);
      LogPut(s, token, stream, text, now);
      LeasedPutFinal(s, AppendLog(s, token, stream, text, now).0, token);
    }
  }

  lemma CompleteFinal(s: StoreState, token: string, exitCode: int, error: string, now: Time)
    requires Inv(s)
    ensures Final(s, CompleteLease(s, token, exitCode, error, now).0)
  {
    hide Final, CompleteLease, Ended, CompletionEvents, Recomputed, FlowOk;
    GuardKeepsInv(s, token, now);
    if Guard(s, token, now).Some? {
      CompleteGuarded(s, token, exitCode, error, now);
      GuardFinal(s, token, now);
    } else {
      CompleteShape(s, token, exitCode, error, now);
      EndedIs(s, token, exitCode, error, now);
      CompletedFinal(s, token, Ended(s, token, exitCode, error, now).0, now);
      var s' := AfterCompletion(s, token, Ended(s, token, exitCode, error, now).0, now);
      FinalSame(s', CompleteLease(s, token, exitCode, error, now).0);
      FinalTransitive(s, s', CompleteLease(s, token, exitCode, error, now).0);
    }
  }

  lemma CompletedFinal(s: StoreState, token: string, rt: TaskRuntime, now: Time)
    requires Inv(s) && token in s.leases && LeaseLinked(s, token) && rt.state in {Succeeded, RetryWait, Failed}
    ensures Final(s, AfterCompletion(s, token, rt, now))
  {
    hide Final, FlowOk, Recomputed, LeasesLinked, TasksLinked, WorkerCounts;
    var l := s.leases[token];
    var w := s.workflows[l.workflowId];
    assert FlowOk(w);
    PutKeepsFinished(w, l.taskId, rt);
    EndedFlow(w, l.taskId, rt, now);
    RecomputeKeepsFinished(Put(w, l.taskId, rt), now);
    KeepsFinishedTransitive(w, Put(w, l.taskId, rt), Recomputed(Put(w, l.taskId, rt), now));
    FinalReplace(s, AfterCompletion(s, token, rt, now), l.workflowId);
  }

  lemma CancelFinal(s: StoreState, id: string, now: Time, tokens: seq<string>)
    requires Inv(s) && Enumerates(tokens, s.leases.Keys)
    ensures Final(s, CancelWorkflow(s, id, now, tokens).0)
  {
    hide Final, DropLeases, Inv, DroppedTasks;
    if id in s.workflows && !TerminalWorkflow(s.workflows[id].state) {
      DroppingAll(s, id, tokens, |tokens|, now);
      assert tokens[..|tokens|] == tokens;
      var s2 := DropLeases(WithWorkflow(s, id, CancelledAt(s.workflows[id], now)), id, tokens);
      DroppedKeepsFinished(s, id, s2.workflows[id], now);
      FinalReplace(s, CancelWorkflow(s, id, now, tokens).0, id);
    } else {
      FinalSame(s, s);
    }
  }

  lemma DroppedKeepsFinished(s: StoreState, id: string, w1: Snapshot, now: Time)
    requires Inv(s) && id in s.workflows && !TerminalWorkflow(s.workflows[id].state)
    requires DroppedTasks(s.workflows[id], w1, s.leases.Keys, now)
    ensures KeepsFinished(s.workflows[id], w1)
  {
    hide FlowOk, WorkerCounts;
    var w := s.workflows[id];
    forall t | t in w.runtime && TerminalTask(w.runtime[t].state) ensures w1.runtime[t] == w.runtime[t] {
      assert HasTask(s, id, t) && TaskLinked(s, id, t, TaskAt(s, id, t));
      assert forall k :: k in s.leases ==> LeaseLinked(s, k) && k != "";
    }
  }

  lemma CreateFinal(s: StoreState, spec: WorkflowSpec, valid: Result<seq<string>, SpecError>, key: string, id: string,
      now: Time)
    requires id !in s.workflows
    ensures Final(s, CreateWorkflow(s, spec, valid, key, id, now).0)
  {
    hide Recomputed, NewSnapshot, CreationEvents;
    var s' := CreateWorkflow(s, spec, valid, key, id, now).0;
    assert forall i :: i in s.workflows ==> i in s'.workflows && s'.workflows[i] == s.workflows[i];
  }

  lemma StepFinal(s: StoreState, c: Call)
    requires Inv(s) && Enabled(s, c.op)
    ensures Final(s, Step(s, c).0)
  {
    hide Inv, Final, CreateWorkflow, CancelWorkflow, LeaseNext, StartLease, RenewLease, AppendLog, CompleteLease, Sweep;
    match c.op
    case Create(spec, valid, key, id) => CreateFinal(s, spec, valid, key, id, c.now);
    case Cancel(id, tokens) => CancelFinal(s, id, c.now, tokens);
    case Register(name, version, labels, capacity, id) => FinalSame(s, Step(s, c).0);
    case Heartbeat(id) => FinalSame(s, Step(s, c).0);
    case Poll(workerId, token, tokens, sweepIds, scanIds) =>
        LeaseNextFinal(s, workerId, c.now, token, tokens, sweepIds, scanIds);
    case Start(token) => LeaseOperationsFinal(s, token, "", "", c.now);
    case Renew(token) => LeaseOperationsFinal(s, token, "", "", c.now);
    case Log(token, stream, text) => LeaseOperationsFinal(s, token, stream, text, c.now);
    case Complete(token, exitCode, error) => CompleteFinal(s, token, exitCode, error, c.now);
    case Tick(tokens, ids) => SweepFinal(s, tokens, ids, c.now);
  }

  /** Along a run, everything finished by an earlier point is still as it was. */
  lemma {:induction false} RunFinal(run: seq<Call>, n: nat)
    requires Legal(run) && n <= |run|
    ensures Legal(run[..n]) && Final(After(run[..n]), After(run))
    decreases |run|
  {
    hide Final, Step, Enabled;
    if n == |run| {
      assert run[..n] == run;
      FinalSame(After(run), After(run));
    } else {
      var init := run[..|run| - 1];
      RunFinal(init, n);
      assert init[..n] == run[..n];
      RunInv(init);
      StepFinal(After(init), run[|run| - 1]);
      FinalTransitive(After(run[..n]), After(init), After(run));
    }
  }

  /** An accepted completion closes its token. */
  lemma CompletionCloses(s: StoreState, token: string, exitCode: int, error: string, now: Time)
    requires Inv(s) && CompleteLease(s, token, exitCode, error, now).1 == Done
    ensures var s' := CompleteLease(s, token, exitCode, error, now).0; token in s'.issued && token !in s'.leases
  {
    hide Inv, CompleteLease, Ended, CompletionEvents, Recomputed;
    CompleteOutcome(s, token, exitCode, error, now);
    GuardKeepsInv(s, token, now);
    CompleteShape(s, token, exitCode, error, now);
  }

  /** At most one completion per token is ever accepted. */
  lemma CompletionAcceptedOnce(run: seq<Call>, i: nat, j: nat)
    requires Legal(run) && i < j < |run| && run[i].op.Complete? && run[j].op.Complete?
        && run[i].op.token == run[j].op.token
    requires Step(After(run[..i]), run[i]).1 == Done
    ensures Step(After(run[..j]), run[j]).1 == LeaseNotFound
  {
    hide *;
    var token := run[i].op.token;
    LegalPrefix(run, i);
    LegalPrefix(run, j);
    RunInv(run[..i]);
    StepComplete(After(run[..i]), run[i]);
    CompletionCloses(After(run[..i]), token, run[i].op.exitCode, run[i].op.error, run[i].now);
    AfterNext(run, i);
    assert run[..j][..i + 1] == run[..i + 1];
    RunFinal(run[..j], i + 1);
    StaysClosed(After(run[..i + 1]), After(run[..j]), token);
    StepComplete(After(run[..j]), run[j]);
    NoLeaseToComplete(After(run[..j]), token, run[j].op.exitCode, run[j].op.error, run[j].now);
  }

  lemma LegalPrefix(run: seq<Call>, n: nat)
    requires Legal(run) && n <= |run|
    ensures Legal(run[..n])
  {
    assert run[..|run|] == run;
    RunFinal(run, n);
  }

  lemma StepComplete(s: StoreState, c: Call)
    requires c.op.Complete?
    ensures Step(s, c) == CompleteLease(s, c.op.token, c.op.exitCode, c.op.error, c.now)
  {
    hide CompleteLease;
  }

  lemma AfterNext(run: seq<Call>, n: nat)
    requires n < |run|
    ensures After(run[..n + 1]) == Step(After(run[..n]), run[n]).0
  {
    hide Step;
    assert run[..n + 1][..n] == run[..n];
  }

  lemma StaysClosed(s: StoreState, s': StoreState, token: string)
    requires Final(s, s') && token in s.issued && token !in s.leases
    ensures token !in s'.leases
  {
  }

  lemma NoLeaseToComplete(s: StoreState, token: string, exitCode: int, error: string, now: Time)
    requires token !in s.leases
    ensures CompleteLease(s, token, exitCode, error, now).1 == LeaseNotFound
  {
  }
}
