/** What the coordinator announces: the events of a workflow tell its life, and what creating and cancelling a
    workflow do, spelled out. */
module StoreEvents {
  import opened Graph
  import opened WorkflowSpec
  import opened Runtime
  import opened Recompute
  import opened StoreModel
  import opened StoreInvariant
  import opened StoreOperations
  import opened StoreRuns
  import StoreScheduling

  // The milestones of a workflow

  predicate Milestone(kind: EventKind) {
    kind in {CreatedEvent, StartedEvent, SucceededEvent, FailedEvent, CancelledEvent}
  }

  /** The milestones of one workflow, in the order they were published. */
  function Marks(log: seq<Event>, i: string): seq<EventKind> {
    if log == [] then []
    else
      var e := log[|log| - 1];
      Marks(log[..|log| - 1], i) + if e.workflowId == i && Milestone(e.kind) then [e.kind] else []
  }

  /** What is published about a workflow until it is in the given state. */
  function Story(state: WorkflowState): seq<EventKind> {
    match state
    case WorkflowPending => [CreatedEvent]
    case WorkflowRunning => [CreatedEvent, StartedEvent]
    case WorkflowSucceeded => [CreatedEvent, StartedEvent, SucceededEvent]
    case WorkflowFailed => [CreatedEvent, StartedEvent, FailedEvent]
    case WorkflowCancelled => [CreatedEvent, StartedEvent, CancelledEvent]
  }

  ghost predicate ToldOf(s: StoreState, i: string) {
    if i in s.workflows then
      && s.workflows[i].id == i && s.workflows[i].state != WorkflowPending
      && Marks(s.log, i) == Story(s.workflows[i].state)
    else Marks(s.log, i) == []
  }

  ghost predicate Told(s: StoreState) {
    forall i :: ToldOf(s, i)
  }

  lemma {:induction false} MarksConcat(a: seq<Event>, b: seq<Event>, i: string)
    ensures Marks(a + b, i) == Marks(a, i) + Marks(b, i)
    decreases |b|
  {
    if b == [] {
      assert a + b == a;
    } else {
      var init, e := b[..|b| - 1], b[|b| - 1];
      assert (a + b)[..|a + b| - 1] == a + init;
      MarksConcat(a, init, i);
    }
  }

  predicate Minor(events: seq<Event>) {
    forall k :: 0 <= k < |events| ==> !Milestone(events[k].kind)
  }

  lemma {:induction false} MinorMarks(events: seq<Event>, i: string)
    requires Minor(events)
    ensures Marks(events, i) == []
  {
    if events != [] { MinorMarks(events[..|events| - 1], i); }
  }

  ghost predicate SameStates(s: StoreState, s': StoreState) {
    && s'.workflows.Keys == s.workflows.Keys
    && forall i :: i in s.workflows ==>
         s'.workflows[i].state == s.workflows[i].state && s'.workflows[i].id == s.workflows[i].id
  }

  lemma MinorKeeps(s: StoreState, s': StoreState, events: seq<Event>)
    requires Told(s) && SameStates(s, s') && s'.log == s.log + events && Minor(events)
    ensures Told(s')
  {
    hide Marks, Minor;
    forall i ensures ToldOf(s', i) {
      assert ToldOf(s, i);
      MarksConcat(s.log, events, i);
      MinorMarks(events, i);
    }
  }

  lemma SilentKeeps(s: StoreState, s': StoreState)
    requires Told(s) && SameStates(s, s') && s'.log == s.log
    ensures Told(s')
  {
    hide SameStates, Told;
    assert s.log + [] == s.log;
    MinorKeeps(s, s', []);
  }

  // One workflow moves on

  lemma OneMark(e: Event, i: string)
    ensures Marks([e], i) == if e.workflowId == i && Milestone(e.kind) then [e.kind] else []
  {
    assert [e][..0] == [];
  }

  lemma MarkKeeps(s: StoreState, s': StoreState, id: string, e: Event)
    requires Told(s) && id in s.workflows && s'.workflows.Keys == s.workflows.Keys && s'.log == s.log + [e]
    requires forall i :: i in s.workflows && i != id ==> s'.workflows[i] == s.workflows[i]
    requires e.workflowId == id == s'.workflows[id].id && Milestone(e.kind)
    requires Story(s'.workflows[id].state) == Story(s.workflows[id].state) + [e.kind]
    ensures Told(s')
  {
    hide Marks, Milestone, Story;
    forall i ensures ToldOf(s', i) {
      assert ToldOf(s, i);
      MarksConcat(s.log, [e], i);
      OneMark(e, i);
      NotPending(s'.workflows[id].state, s.workflows[id].state, e.kind);
    }
  }

  lemma NotPending(state: WorkflowState, before: WorkflowState, kind: EventKind)
    requires Story(state) == Story(before) + [kind]
    ensures state != WorkflowPending
  {
    assert |Story(before)| >= 1;
  }

  lemma RecomputeTold(s: StoreState, id: string, now: Time)
    requires Told(s) && id in s.workflows
    ensures Told(RecomputeOne(s, id, now))
  {
    hide Told, StepTasks, EverySucceeded, SomeFailed, SomeActive;
    var w, v, s' := s.workflows[id], Recomputed(s.workflows[id], now), RecomputeOne(s, id, now);
    assert ToldOf(s, id) by { ToldAt(s, id); }
    if v.state == w.state {
      MinorKeeps(s, s', TerminalEvents(v, w.state, now));
    } else {
      MarkKeeps(s, s', id, TerminalEvents(v, w.state, now)[0]);
    }
  }

  lemma ToldAt(s: StoreState, i: string)
    requires Told(s)
    ensures ToldOf(s, i)
  {
  }

  // Every operation

  lemma ExpireTold(s: StoreState, token: string, now: Time)
    requires Told(s) && token in s.leases
    ensures Told(Expire(s, token, now))
  {
    hide Told, Returned;
    var l, s1 := s.leases[token], WithoutLease(s, token);
    SilentKeeps(s, s1);
    ReturnedTold(s1, l, token, now);
  }

  lemma ReturnedTold(s: StoreState, l: Lease, token: string, now: Time)
    requires Told(s)
    ensures Told(Returned(s, l, token, now))
  {
    hide Told;
    var s' := Returned(s, l, token, now);
    if s'.log == s.log {
      SilentKeeps(s, s');
    } else {
      MinorKeeps(s, s', [Event(LeaseExpired, l.workflowId, l.taskId, l.workerId, now)]);
    }
  }

  lemma GuardTold(s: StoreState, token: string, now: Time)
    requires Told(s) && Guard(s, token, now).Some?
    ensures Told(Guard(s, token, now).value.0)
  {
    hide Told, Expire;
    if token in s.leases { ExpireTold(s, token, now); }
  }

  lemma {:induction false} ExpireDueTold(s: StoreState, tokens: seq<string>, now: Time)
    requires Told(s)
    ensures Told(ExpireDue(s, tokens, now))
  {
    hide Told, Expire;
    if tokens != [] {
      ExpireDueTold(s, tokens[..|tokens| - 1], now);
      var s1, t := ExpireDue(s, tokens[..|tokens| - 1], now), tokens[|tokens| - 1];
      if t in s1.leases { ExpireTold(s1, t, now); }
    }
  }

  lemma {:induction false} RecomputeAllTold(s: StoreState, ids: seq<string>, now: Time)
    requires Told(s)
    ensures Told(RecomputeAll(s, ids, now))
  {
    hide Told, RecomputeOne;
    if ids != [] {
      RecomputeAllTold(s, ids[..|ids| - 1], now);
      var s1, id := RecomputeAll(s, ids[..|ids| - 1], now), ids[|ids| - 1];
      if id in s1.workflows { RecomputeTold(s1, id, now); }
    }
  }

  lemma SweepTold(s: StoreState, tokens: seq<string>, ids: seq<string>, now: Time)
    requires Told(s)
    ensures Told(Sweep(s, tokens, ids, now))
  {
    hide Told, ExpireDue, RecomputeAll;
    ExpireDueTold(s, tokens, now);
    RecomputeAllTold(ExpireDue(s, tokens, now), ids, now);
  }

  lemma GrantTold(s: StoreState, i: string, t: string, workerId: string, now: Time, token: string)
    requires Told(s) && HasTask(s, i, t) && t in s.workflows[i].tasks && workerId in s.workers
    ensures Told(Grant(s, i, t, workerId, now, token).0)
  {
    hide Told;
    MinorKeeps(s, Grant(s, i, t, workerId, now, token).0, [Event(TaskLeased, i, t, workerId, now)]);
  }

  /** On settled workflows a scan changes no workflow's state. */
  lemma PollTold(s: StoreState, workerId: string, now: Time, token: string,
                 tokens: seq<string>, sweepIds: seq<string>, scanIds: seq<string>)
    requires Told(s) && Inv(s) && Enumerates(tokens, s.leases.Keys)
    requires Enumerates(sweepIds, s.workflows.Keys) && Enumerates(scanIds, s.workflows.Keys)
    ensures Told(LeaseNext(s, workerId, now, token, tokens, sweepIds, scanIds).0)
  {
    hide Told, Inv, Sweep, Scan, Candidates, StoreScheduling.AllSettled, Grant, Offered;
    var s1 := Sweep(s, tokens, sweepIds, now);
    SweepTold(s, tokens, sweepIds, now);
    SweepKeepsInv(s, tokens, sweepIds, now);
    StoreScheduling.SweepSettles(s, tokens, sweepIds, now);
    SweepFrame(s, tokens, sweepIds, now);
    if workerId in s1.workers {
      var candidates := Candidates(s1, scanIds);
      CandidatesKnown(s1, scanIds);
      StoreScheduling.ScanPicks(s1, candidates, workerId, now, token);
      var labels := s1.workers[workerId].labels;
      if k, t :| StoreScheduling.Picks(s1, candidates, labels, k, t)
                 && Scan(s1, candidates, workerId, now, token) == Grant(s1, candidates[k], t, workerId, now, token) {
        PickGrants(s1, candidates, labels, k, t);
        GrantTold(s1, candidates[k], t, workerId, now, token);
      }
    }
  }

  lemma PickGrants(s: StoreState, candidates: seq<string>, labels: Labels, k: int, t: string)
    requires StoreScheduling.Picks(s, candidates, labels, k, t)
    ensures 0 <= k < |candidates| && HasTask(s, candidates[k], t) && t in s.workflows[candidates[k]].tasks
  {
  }

  lemma {:induction false} CandidatesKnown(s: StoreState, ids: seq<string>)
    ensures forall i :: i in Candidates(s, ids) ==> i in s.workflows
  {
    if ids != [] {
      CandidatesKnown(s, ids[1..]);
      var rest := Candidates(s, ids[1..]);
      if Schedulable(s, ids[0]) {
        assert forall i :: i in InsertByCreation(s, ids[0], rest) ==> i in multiset(rest) + multiset{ids[0]};
      }
    }
  }

  lemma StartTold(s: StoreState, token: string, now: Time)
    requires Told(s)
    ensures Told(StartLease(s, token, now).0)
  {
    hide Told, Guard;
    var s' := StartLease(s, token, now).0;
    if Guard(s, token, now).Some? {
      GuardTold(s, token, now);
    } else if s'.log == s.log {
      LiveKnown(s, token, now);
      SilentKeeps(s, s');
    } else {
      LiveKnown(s, token, now);
      var l := s.leases[token];
      MinorKeeps(s, s', [Event(TaskStarted, l.workflowId, l.taskId, l.workerId, now)]);
    }
  }

  lemma LiveKnown(s: StoreState, token: string, now: Time)
    requires Guard(s, token, now).None?
    ensures token in s.leases
  {
  }

  lemma RenewTold(s: StoreState, token: string, now: Time)
    requires Told(s)
    ensures Told(RenewLease(s, token, now).0)
  {
    hide Told, Guard;
    if Guard(s, token, now).Some? {
      GuardTold(s, token, now);
    } else {
      LiveKnown(s, token, now);
      SilentKeeps(s, RenewLease(s, token, now).0);
    }
  }

  lemma LogTold(s: StoreState, token: string, stream: string, text: string, now: Time)
    requires Told(s)
    ensures Told(AppendLog(s, token, stream, text, now).0)
  {
    hide Told, Guard, Utf8Length;
    var s' := AppendLog(s, token, stream, text, now).0;
    if Guard(s, token, now).Some? {
      GuardTold(s, token, now);
    } else if s' != s {
      LiveKnown(s, token, now);
      var l := s.leases[token];
      MinorKeeps(s, s', [Event(TaskLog, l.workflowId, l.taskId, l.workerId, now)]);
    }
  }

  lemma {:induction false} ReadyMinor(w: Snapshot, n: nat, now: Time)
    requires n <= |w.order|
    ensures Minor(ReadyEvents(w, n, now))
  {
    if n > 0 { ReadyMinor(w, n - 1, now); }
  }

  lemma CompletionTold(s: StoreState, token: string, rt: TaskRuntime, kind: EventKind, now: Time)
    requires Told(s) && token in s.leases && HasTask(s, s.leases[token].workflowId, s.leases[token].taskId)
    requires !Milestone(kind)
    ensures
      var l := s.leases[token];
      var s1 := Publish(WithTask(WithoutLease(s, token), l.workflowId, l.taskId, rt),
                        [Event(kind, l.workflowId, l.taskId, l.workerId, now)]);
      var s2 := RecomputeOne(s1, l.workflowId, now);
      var w := s2.workflows[l.workflowId];
      Told(Publish(s2, ReadyEvents(w, |w.order|, now)))
  {
    hide Told, RecomputeOne, ReadyEvents, Milestone, Minor;
    var l := s.leases[token];
    var e := Event(kind, l.workflowId, l.taskId, l.workerId, now);
    var s1 := Publish(WithTask(WithoutLease(s, token), l.workflowId, l.taskId, rt), [e]);
    OneMinor(e);
    MinorKeeps(s, s1, [e]);
    RecomputeTold(s1, l.workflowId, now);
    var s2 := RecomputeOne(s1, l.workflowId, now);
    RecomputeOneKeys(s1, l.workflowId, now);
    var w := s2.workflows[l.workflowId];
    ReadyMinor(w, |w.order|, now);
    MinorKeeps(s2, Publish(s2, ReadyEvents(w, |w.order|, now)), ReadyEvents(w, |w.order|, now));
  }

  lemma OneMinor(e: Event)
    requires !Milestone(e.kind)
    ensures Minor([e])
  {
  }

  lemma RecomputeOneKeys(s: StoreState, id: string, now: Time)
    requires id in s.workflows
    ensures RecomputeOne(s, id, now).workflows.Keys == s.workflows.Keys
  {
    hide Recomputed;
  }

  lemma CompleteTold(s: StoreState, token: string, exitCode: int, error: string, now: Time)
    requires Told(s)
    ensures Told(CompleteLease(s, token, exitCode, error, now).0)
  {
    hide Told, Guard, RecomputeOne, ReadyEvents, WithoutLease, WithTask, NormalizeRetry, Backoff;
    if Guard(s, token, now).Some? {
      GuardTold(s, token, now);
    } else {
      LiveKnown(s, token, now);
      var l := s.leases[token];
      if HasTask(s, l.workflowId, l.taskId) && l.taskId in s.workflows[l.workflowId].tasks {
        var rt0 := TaskAt(s, l.workflowId, l.taskId);
        var rt := if rt0.state == Leased then Transition(rt0, Running).(startedAt := Some(now)) else rt0;
        var (rt', kind) := Finish(s.workflows[l.workflowId].tasks[l.taskId], rt, exitCode, error, now);
        CompletionTold(s, token, rt', kind, now);
      }
    }
  }

  // Creation

  /** A new workflow runs: its tasks without dependencies are ready, the others are pending. */
  lemma CreatedTasks(id: string, spec: WorkflowSpec, order: seq<string>, now: Time)
    requires ValidSpec(spec) && LeastTopological(GraphOf(spec.tasks), order)
    ensures
      var v := Recomputed(NewSnapshot(id, spec, order, now), now);
      && v.id == id && v.order == order && v.createdAt == now && v.state == WorkflowRunning
      && v.tasks == TaskMap(spec.tasks) && v.runtime.Keys == v.tasks.Keys
      && forall t :: t in v.runtime ==>
           v.runtime[t] == FRESH_RUNTIME.(state := if v.tasks[t].dependsOn == [] then Ready else Pending)
  {
    hide ValidSpec, LeastTopological, StepTasks, Topological, TaskMap, Shape;
    var w := NewSnapshot(id, spec, order, now);
    var v := Recomputed(w, now);
    NewSnapshotShape(id, spec, order, now);
    PassKeys(w, now);
    assert forall t :: t in w.runtime ==> w.runtime[t] == FRESH_RUNTIME;
    forall t | t in w.tasks
      ensures v.runtime[t] == FRESH_RUNTIME.(state := if v.tasks[t].dependsOn == [] then Ready else Pending)
    {
      FirstPass(w, now, t);
    }
    NotAllDone(w, now);
  }

  lemma PassKeys(w: Snapshot, now: Time)
    requires Shape(w)
    ensures w.runtime.Keys == w.tasks.Keys == Recomputed(w, now).runtime.Keys
  {
    hide StepTasks, Topological;
  }

  /** Among tasks that are all fresh, nothing has failed or succeeded, so a pass readies those that wait for nothing. */
  lemma FirstPass(w: Snapshot, now: Time, t: string)
    requires Shape(w) && !TerminalWorkflow(w.state) && t in w.tasks
    requires forall u :: u in w.runtime ==> w.runtime[u] == FRESH_RUNTIME
    ensures
      var v := Recomputed(w, now);
      t in v.runtime && v.runtime[t] == FRESH_RUNTIME.(state := if w.tasks[t].dependsOn == [] then Ready else Pending)
  {
    hide StepTasks, Topological, Shape;
    var v := Recomputed(w, now);
    PassKeys(w, now);
    PassRule(w, now, t);
    NothingFails(w, now);
    if w.tasks[t].dependsOn != [] {
      var a := w.tasks[t].dependsOn[0];
      assert a in w.tasks[t].dependsOn;
    }
  }

  /** No task of a fresh workflow succeeds, fails or is cancelled by its first pass. */
  lemma NothingFails(w: Snapshot, now: Time)
    requires Shape(w) && !TerminalWorkflow(w.state)
    requires forall u :: u in w.runtime ==> w.runtime[u] == FRESH_RUNTIME
    ensures forall t :: t in Recomputed(w, now).runtime ==> Recomputed(w, now).runtime[t].state in {Pending, Ready}
  {
    hide Shape;
    PassesStayFresh(w, now, |w.order|);
    PassKeys(w, now);
  }

  lemma {:induction false} PassesStayFresh(w: Snapshot, now: Time, n: nat)
    requires n <= |w.order|
    requires forall u :: u in w.runtime ==> w.runtime[u] == FRESH_RUNTIME
    ensures forall t :: t in StepTasks(w, now, n) ==> StepTasks(w, now, n)[t].state in {Pending, Ready}
  {
    if n > 0 { PassesStayFresh(w, now, n - 1); }
  }

  lemma NotAllDone(w: Snapshot, now: Time)
    requires Shape(w) && w.state == WorkflowPending
    requires forall u :: u in w.runtime ==> w.runtime[u] == FRESH_RUNTIME
    ensures Recomputed(w, now).state == WorkflowRunning
  {
    hide StepTasks, Topological;
    PassVerdict(w, now);
    NothingFails(w, now);
    PassKeys(w, now);
    assert w.order[0] in Recomputed(w, now).runtime;
  }

  lemma {:induction false} FreshMarks(log: seq<Event>, id: string, now: Time)
    ensures Marks(log + [Event(CreatedEvent, id, "", "", now), Event(StartedEvent, id, "", "", now)], id)
         == Marks(log, id) + [CreatedEvent, StartedEvent]
    ensures forall i :: i != id ==>
      Marks(log + [Event(CreatedEvent, id, "", "", now), Event(StartedEvent, id, "", "", now)], i) == Marks(log, i)
  {
    hide Marks;
    var a, b := Event(CreatedEvent, id, "", "", now), Event(StartedEvent, id, "", "", now);
    forall i ensures Marks(log + [a, b], i) == Marks(log, i) + (Marks([a], i) + Marks([b], i)) {
      assert [a, b] == [a] + [b];
      MarksConcat(log, [a, b], i);
      MarksConcat([a], [b], i);
    }
    forall i ensures Marks([a], i) == (if id == i then [CreatedEvent] else []) {
      OneMark(a, i);
    }
    forall i ensures Marks([b], i) == (if id == i then [StartedEvent] else []) {
      OneMark(b, i);
    }
  }

  lemma CreateTold(s: StoreState, spec: WorkflowSpec, valid: Result<seq<string>, SpecError>, key: string, id: string,
                   now: Time)
    requires Told(s) && id !in s.workflows
    requires valid.Success? ==> ValidSpec(spec) && LeastTopological(GraphOf(spec.tasks), valid.value)
    ensures Told(CreateWorkflow(s, spec, valid, key, id, now).0)
  {
    hide Recomputed, NewSnapshot, ReadyEvents, Marks, Minor, ValidSpec, LeastTopological;
    if !(key != "" && key in s.idempotency) && valid.Success? {
      var w := Recomputed(NewSnapshot(id, spec, valid.value, now), now);
      CreatedTasks(id, spec, valid.value, now);
      var marks := [Event(CreatedEvent, id, "", "", now), Event(StartedEvent, id, "", "", now)];
      var s1 := Publish(Added(s, id, w, key), marks);
      FreshMarks(s.log, id, now);
      forall i ensures ToldOf(s1, i) { assert ToldOf(s, i); }
      ReadyMinor(w, |w.order|, now);
      assert CreationEvents(id, w, now) == marks + ReadyEvents(w, |w.order|, now);
      assert s.log + CreationEvents(id, w, now) == s.log + marks + ReadyEvents(w, |w.order|, now);
      MinorKeeps(s1, CreateWorkflow(s, spec, valid, key, id, now).0, ReadyEvents(w, |w.order|, now));
    }
  }

  // Cancellation

  lemma {:induction false} CancelMinor(w: Snapshot, n: nat, now: Time)
    requires n <= |w.order|
    ensures Minor(CancelEvents(w, n, now))
  {
    if n > 0 { CancelMinor(w, n - 1, now); }
  }

  lemma {:induction false} DropStates(s: StoreState, id: string, tokens: seq<string>)
    ensures SameStates(s, DropLeases(s, id, tokens)) && DropLeases(s, id, tokens).log == s.log
  {
    if tokens != [] { DropStates(s, id, tokens[..|tokens| - 1]); }
  }

  lemma CancelTold(s: StoreState, id: string, now: Time, tokens: seq<string>)
    requires Told(s)
    ensures Told(CancelWorkflow(s, id, now, tokens).0)
  {
    hide DropLeases, CancelEvents, Marks, Minor, CancelTasks, Told;
    if id in s.workflows && !TerminalWorkflow(s.workflows[id].state) {
      var w := s.workflows[id];
      ToldAt(s, id);
      var s1 := s.(workflows := s.workflows[id := CancelledAt(w, now)]);
      var s2 := DropLeases(s1, id, tokens);
      DropStates(s1, id, tokens);
      var events, e := CancelEvents(w, |w.order|, now), Event(CancelledEvent, id, "", "", now);
      CancelMinor(w, |w.order|, now);
      var before := Publish(s, events);
      MinorKeeps(s, before, events);
      MarkKeeps(before, s1.(log := before.log + [e]), id, e);
      assert s2.log + (events + [e]) == before.log + [e];
      SilentKeeps(s1.(log := before.log + [e]), CancelWorkflow(s, id, now, tokens).0);
    }
  }

  // Whole runs

  lemma StepTold(s: StoreState, c: Call)
    requires Told(s) && Inv(s) && Enabled(s, c.op)
    ensures Told(Step(s, c).0)
  {
    hide Told, Inv, CreateWorkflow, CancelWorkflow, LeaseNext, StartLease, RenewLease, AppendLog, CompleteLease, Sweep;
    match c.op
    case Create(spec, valid, key, id) => CreateTold(s, spec, valid, key, id, c.now);
    case Cancel(id, tokens) => CancelTold(s, id, c.now, tokens);
    case Register(_, _, _, _, id) => MinorKeeps(s, Step(s, c).0, [Event(WorkerRegistered, "", "", id, c.now)]);
    case Heartbeat(id) =>
      if id in s.workers { MinorKeeps(s, Step(s, c).0, [Event(WorkerHeartbeat, "", "", id, c.now)]); }
    case Poll(workerId, token, tokens, sweepIds, scanIds) =>
      PollTold(s, workerId, c.now, token, tokens, sweepIds, scanIds);
    case Start(token) => StartTold(s, token, c.now);
    case Renew(token) => RenewTold(s, token, c.now);
    case Log(token, stream, text) => LogTold(s, token, stream, text, c.now);
    case Complete(token, exitCode, error) => CompleteTold(s, token, exitCode, error, c.now);
    case Tick(tokens, ids) => SweepTold(s, tokens, ids, c.now);
  }

  /** After every run the events of each workflow tell its state: created and started once, then, exactly if it has
      ended, the one event that says how. */
  lemma {:induction false} RunTold(run: seq<Call>, i: string)
    requires Legal(run)
    ensures var s := After(run);
      Marks(s.log, i) == if i in s.workflows then Story(s.workflows[i].state) else []
  {
    hide Marks, Story;
    AllTold(run);
    ToldAt(After(run), i);
  }

  lemma {:induction false} AllTold(run: seq<Call>)
    requires Legal(run)
    ensures Told(After(run))
  {
    hide Inv, Enabled, Told;
    if run == [] {
      NothingTold();
    } else {
      var init := run[..|run| - 1];
      AllTold(init);
      RunInv(init);
      StepTold(After(init), run[|run| - 1]);
    }
  }

  lemma NothingTold()
    ensures Told(EMPTY)
  {
  }

  // Announcements

  /** Event `a` is about the task at place `x` of the order. */
  predicate At(events: seq<Event>, a: int, order: seq<string>, x: int) {
    0 <= a < |events| && 0 <= x < |order| && order[x] == events[a].taskId
  }

  /** The events announce exactly the tasks in `ts`, in the order of the workflow. */
  ghost predicate Announces(events: seq<Event>, kind: EventKind, i: string, now: Time, order: seq<string>,
      ts: set<string>) {
    && (forall k :: 0 <= k < |events| ==>
          events[k] == Event(kind, i, events[k].taskId, "", now) && events[k].taskId in ts && events[k].taskId in order)
    && (forall t :: t in order && t in ts ==> exists k :: 0 <= k < |events| && events[k].taskId == t)
    && (forall a, b, x, y :: 0 <= a < b < |events| && At(events, a, order, x) && At(events, b, order, y) ==> x < y)
  }

  lemma NothingAnnounced(kind: EventKind, i: string, now: Time, ts: set<string>)
    ensures Announces([], kind, i, now, [], ts)
  {
  }

  lemma OrderPrefix(order: seq<string>, n: nat)
    requires NoDup(order) && 0 < n <= |order|
    ensures NoDup(order[..n]) && order[..n] == order[..n - 1] + [order[n - 1]]
  {
  }

  /** One more task of the order. */
  lemma AnnounceNext(events: seq<Event>, kind: EventKind, i: string, now: Time, order: seq<string>, ts: set<string>,
      t: string)
    requires NoDup(order + [t]) && Announces(events, kind, i, now, order, ts)
    ensures Announces(events + if t in ts then [Event(kind, i, t, "", now)] else [], kind, i, now, order + [t], ts)
  {
    hide NoDup, At;
    var more := events + if t in ts then [Event(kind, i, t, "", now)] else [];
    var longer := order + [t];
    forall u | u in longer && u in ts ensures exists k :: 0 <= k < |more| && more[k].taskId == u {
      if u == t {
        assert more[|events|].taskId == t;
      } else {
        var k :| 0 <= k < |events| && events[k].taskId == u;
        assert more[k].taskId == u;
      }
    }
    forall a, b, x, y | 0 <= a < b < |more| && At(more, a, longer, x) && At(more, b, longer, y) ensures x < y {
      AnnouncedOrder(events, kind, i, now, order, ts, t, a, b, x, y);
    }
  }

  lemma AnnouncedOrder(events: seq<Event>, kind: EventKind, i: string, now: Time, order: seq<string>, ts: set<string>,
                       t: string, a: int, b: int, x: int, y: int)
    requires NoDup(order + [t]) && Announces(events, kind, i, now, order, ts) && 0 <= a < b
    requires var more := events + if t in ts then [Event(kind, i, t, "", now)] else [];
      b < |more| && At(more, a, order + [t], x) && At(more, b, order + [t], y)
    ensures x < y
  {
    hide Announces, NoDup;
    AnnouncedLower(events, kind, i, now, order, ts, t, a, x);
    if b < |events| {
      AnnouncedLower(events, kind, i, now, order, ts, t, b, y);
      AnnouncedBefore(events, kind, i, now, order, ts, a, b, x, y);
    } else {
      AnnouncedLast(order, t, y);
    }
  }

  lemma AnnouncedBefore(events: seq<Event>, kind: EventKind, i: string, now: Time, order: seq<string>, ts: set<string>,
                        a: int, b: int, x: int, y: int)
    requires Announces(events, kind, i, now, order, ts) && 0 <= a < b < |events|
    requires At(events, a, order, x) && At(events, b, order, y)
    ensures x < y
  {
  }

  lemma AnnouncedLast(order: seq<string>, t: string, y: int)
    requires NoDup(order + [t]) && 0 <= y <= |order| && (order + [t])[y] == t
    ensures y == |order|
  {
    assert (order + [t])[|order|] == t;
  }

  lemma AnnouncedLower(events: seq<Event>, kind: EventKind, i: string, now: Time, order: seq<string>, ts: set<string>,
                       t: string, a: int, x: int)
    requires NoDup(order + [t]) && Announces(events, kind, i, now, order, ts) && 0 <= a < |events| && 0 <= x <= |order|
    requires (order + [t])[x] == events[a].taskId
    ensures At(events, a, order, x)
  {
    var longer := order + [t];
    assert events[a].taskId in order;
    var z :| 0 <= z < |order| && order[z] == events[a].taskId;
    assert longer[z] == longer[x];
  }

  lemma {:induction false} ReadyAnnounces(w: Snapshot, n: nat, now: Time)
    requires NoDup(w.order) && n <= |w.order|
    ensures Announces(ReadyEvents(w, n, now), TaskReady, w.id, now, w.order[..n],
                      set t | t in w.runtime && w.runtime[t].state.Ready?)
  {
    hide Announces, NoDup;
    var ts := set t | t in w.runtime && w.runtime[t].state.Ready?;
    if n == 0 {
      NothingAnnounced(TaskReady, w.id, now, ts);
      assert w.order[..0] == [];
    } else {
      OrderPrefix(w.order, n);
      ReadyAnnounces(w, n - 1, now);
      AnnounceNext(ReadyEvents(w, n - 1, now), TaskReady, w.id, now, w.order[..n - 1], ts, w.order[n - 1]);
    }
  }

  lemma {:induction false} CancelAnnounces(w: Snapshot, n: nat, now: Time)
    requires NoDup(w.order) && n <= |w.order|
    ensures Announces(CancelEvents(w, n, now), TaskCancelled, w.id, now, w.order[..n],
                      set t | t in w.runtime && w.runtime[t].state !in {Succeeded, Failed, Cancelled})
  {
    hide Announces, NoDup;
    var ts := set t | t in w.runtime && w.runtime[t].state !in {Succeeded, Failed, Cancelled};
    if n == 0 {
      NothingAnnounced(TaskCancelled, w.id, now, ts);
      assert w.order[..0] == [];
    } else {
      OrderPrefix(w.order, n);
      CancelAnnounces(w, n - 1, now);
      AnnounceNext(CancelEvents(w, n - 1, now), TaskCancelled, w.id, now, w.order[..n - 1], ts, w.order[n - 1]);
    }
  }

  // The two operations, spelled out

  /** Creating a workflow under a new key adds it, running, and remembers the key; nothing else changes. */
  lemma CreateAnswers(s: StoreState, spec: WorkflowSpec, order: seq<string>, key: string, id: string, now: Time)
    requires ValidSpec(spec) && LeastTopological(GraphOf(spec.tasks), order) && (key == "" || key !in s.idempotency)
    ensures
      var (s', outcome) := CreateWorkflow(s, spec, Success(order), key, id, now);
      && outcome == Created(id) && s'.workers == s.workers && s'.leases == s.leases
      && s'.workflows.Keys == s.workflows.Keys + {id}
      && (forall i :: i in s.workflows && i != id ==> s'.workflows[i] == s.workflows[i])
      && (forall k :: k in s'.idempotency <==> k in s.idempotency || (k == key && key != ""))
      && (forall k :: k in s'.idempotency ==> s'.idempotency[k] == if k == key != "" then id else s.idempotency[k])
      && Newborn(s'.workflows[id], id, spec, order)
  {
    hide Recomputed, NewSnapshot, CreationEvents, ValidSpec, LeastTopological, Newborn;
    var v := Recomputed(NewSnapshot(id, spec, order, now), now);
    NewbornPass(id, spec, order, now);
  }

  /** A workflow as it is created: its tasks wait for their dependencies, or are ready if they have none. */
  ghost predicate Newborn(v: Snapshot, id: string, spec: WorkflowSpec, order: seq<string>) {
    && v.id == id && v.order == order && v.state == WorkflowRunning && v.runtime.Keys == v.tasks.Keys
    && (forall k :: 0 <= k < |spec.tasks| ==>
          && spec.tasks[k].id in v.tasks
          && v.tasks[spec.tasks[k].id] == spec.tasks[k].(retry := NormalizeRetry(spec.tasks[k].retry)))
    && (forall t :: t in v.tasks ==>
          v.runtime[t] == FRESH_RUNTIME.(state := if v.tasks[t].dependsOn == [] then Ready else Pending))
  }

  lemma NewbornPass(id: string, spec: WorkflowSpec, order: seq<string>, now: Time)
    requires ValidSpec(spec) && LeastTopological(GraphOf(spec.tasks), order)
    ensures Newborn(Recomputed(NewSnapshot(id, spec, order, now), now), id, spec, order)
  {
    hide Recomputed, NewSnapshot, LeastTopological, TaskMap, NormalizeRetry, HasCycle, EdgesValid;
    CreatedTasks(id, spec, order, now);
    TasksListed(spec.tasks);
  }

  /** The log of a creation: the workflow, its start, and the tasks without dependencies. */
  lemma CreateLog(s: StoreState, spec: WorkflowSpec, order: seq<string>, key: string, id: string, now: Time)
    requires ValidSpec(spec) && LeastTopological(GraphOf(spec.tasks), order) && (key == "" || key !in s.idempotency)
    ensures
      var s' := CreateWorkflow(s, spec, Success(order), key, id, now).0;
      var n, tasks := |s.log|, s'.workflows[id].tasks;
      && |s'.log| >= n + 2 && s'.log[..n] == s.log
      && s'.log[n] == Event(CreatedEvent, id, "", "", now) && s'.log[n + 1] == Event(StartedEvent, id, "", "", now)
      && Announces(s'.log[n + 2..], TaskReady, id, now, order, set t | t in tasks && tasks[t].dependsOn == [])
  {
    hide Recomputed, NewSnapshot, ReadyEvents, ValidSpec, Announces, TaskMap;
    var v := Recomputed(NewSnapshot(id, spec, order, now), now);
    CreatedTasks(id, spec, order, now);
    var ready := ReadyEvents(v, |order|, now);
    assert NoDup(order);
    ReadyAnnounces(v, |order|, now);
    assert order[..|order|] == order;
    assert (set t | t in v.runtime && v.runtime[t].state.Ready?) == set t | t in v.tasks && v.tasks[t].dependsOn == [];
    var log := s.log + CreationEvents(id, v, now);
    assert log[|s.log| + 2..] == ready;
    assert log[..|s.log|] == s.log;
  }

  lemma {:induction false} TasksListed(tasks: seq<TaskSpec>)
    requires UniqueIds(tasks)
    ensures forall k :: 0 <= k < |tasks| ==>
      tasks[k].id in TaskMap(tasks) && TaskMap(tasks)[tasks[k].id] == tasks[k].(retry := NormalizeRetry(tasks[k].retry))
  {
    hide NormalizeRetry;
    if tasks != [] { TasksListed(tasks[..|tasks| - 1]); }
  }

  /** Cancelling a workflow that has not ended ends its unfinished tasks, closes exactly its leases, and announces the
      tasks it ends and then the cancellation. */
  lemma CancelAnswers(s: StoreState, id: string, now: Time, tokens: seq<string>)
    requires Inv(s) && Enumerates(tokens, s.leases.Keys) && id in s.workflows
        && !TerminalWorkflow(s.workflows[id].state)
    ensures
      var (s', outcome) := CancelWorkflow(s, id, now, tokens);
      && outcome == Done && id in s'.workflows && s'.workflows == s.workflows[id := s'.workflows[id]]
      && (forall k :: k in s'.leases <==> k in s.leases && s.leases[k].workflowId != id)
      && (forall k :: k in s'.leases ==> s'.leases[k] == s.leases[k])
      && var w, w' := s.workflows[id], s'.workflows[id];
      && w'.state == WorkflowCancelled && w'.finishedAt == Some(now) && w'.runtime.Keys == w.runtime.Keys
      && (forall t :: t in w.runtime ==>
            && w'.runtime[t].leaseToken == "" && w'.runtime[t].leaseOwner == "" && w'.runtime[t].leaseUntil == None
            && w'.runtime[t].state ==
                 (if w.runtime[t].state in {Succeeded, Failed, Cancelled} then w.runtime[t].state else Cancelled))
  {
    hide Inv, DropLeases, CancelEvents;
    DroppingAll(s, id, tokens, |tokens|, now);
    assert tokens[..|tokens|] == tokens;
    var s2 := DropLeases(WithWorkflow(s, id, CancelledAt(s.workflows[id], now)), id, tokens);
    CancelledLeases(s, s2, id, now);
    CancelledTasks(s, s2, id, now);
  }

  lemma CancelledLeases(s: StoreState, s2: StoreState, id: string, now: Time)
    requires Dropping(s, s2, id, s.leases.Keys, now)
    ensures s2.workflows == s.workflows[id := s2.workflows[id]]
    ensures forall k :: k in s2.leases <==> k in s.leases && s.leases[k].workflowId != id
    ensures forall k :: k in s2.leases ==> s2.leases[k] == s.leases[k]
  {
    hide DroppedTasks, WorkerCounts;
  }

  lemma CancelledTasks(s: StoreState, s2: StoreState, id: string, now: Time)
    requires Inv(s) && Dropping(s, s2, id, s.leases.Keys, now) && !TerminalWorkflow(s.workflows[id].state)
    ensures
      var w, w' := s.workflows[id], s2.workflows[id];
      && w'.state == WorkflowCancelled && w'.finishedAt == Some(now) && w'.runtime.Keys == w.runtime.Keys
      && (forall t :: t in w.runtime ==>
            && w'.runtime[t].leaseToken == "" && w'.runtime[t].leaseOwner == "" && w'.runtime[t].leaseUntil == None
            && w'.runtime[t].state ==
                 (if w.runtime[t].state in {Succeeded, Failed, Cancelled} then w.runtime[t].state else Cancelled))
  {
    hide WorkerCounts, FlowOk;
    var w := s.workflows[id];
    forall t | t in w.runtime
      ensures w.runtime[t].leaseToken in s.leases
        || (w.runtime[t].leaseToken == "" && w.runtime[t].leaseOwner == "" && w.runtime[t].leaseUntil == None)
    {
      assert HasTask(s, id, t) && TaskLinked(s, id, t, TaskAt(s, id, t));
      if HoldsLease(w.runtime[t].state) { assert LeaseLinked(s, w.runtime[t].leaseToken); }
    }
  }

  /** The log of a cancellation: the unfinished tasks, then the workflow. */
  lemma CancelLog(s: StoreState, id: string, now: Time, tokens: seq<string>)
    requires Inv(s) && id in s.workflows && !TerminalWorkflow(s.workflows[id].state)
    ensures
      var w, log := s.workflows[id], CancelWorkflow(s, id, now, tokens).0.log;
      && |log| > |s.log| && log[..|s.log|] == s.log && log[|log| - 1] == Event(CancelledEvent, id, "", "", now)
      && Announces(log[|s.log|..|log| - 1], TaskCancelled, id, now, w.order,
                   set t | t in w.runtime && w.runtime[t].state !in {Succeeded, Failed, Cancelled})
  {
    hide DropLeases, CancelEvents, Announces, Inv;
    var w := s.workflows[id];
    DropStates(s.(workflows := s.workflows[id := CancelledAt(w, now)]), id, tokens);
    OrderedOnce(s, id);
    CancelAnnounces(w, |w.order|, now);
    assert w.order[..|w.order|] == w.order;
    var events := CancelEvents(w, |w.order|, now);
    var log := s.log + (events + [Event(CancelledEvent, id, "", "", now)]);
    assert log[|s.log|..|log| - 1] == events;
    assert log[..|s.log|] == s.log;
  }

  lemma OrderedOnce(s: StoreState, id: string)
    requires Inv(s) && id in s.workflows
    ensures NoDup(s.workflows[id].order) && s.workflows[id].id == id
  {
    WorkflowShaped(s, id);
  }
}
