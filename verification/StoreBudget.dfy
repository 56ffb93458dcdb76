/** Attempts, retries and events of every task balance over any run. */
module StoreBudget {
  import opened Graph
  import opened WorkflowSpec
  import opened Runtime
  import opened Recompute
  import opened StoreModel
  import opened StoreInvariant
  import opened StoreOperations
  import opened StoreRuns

  /** How often an event was published for a task. */
  function Tally(log: seq<Event>, kind: EventKind, i: string, t: string): nat {
    if log == [] then 0
    else
      var e := log[|log| - 1];
      Tally(log[..|log| - 1], kind, i, t) + if e.kind == kind && e.workflowId == i && e.taskId == t then 1 else 0
  }

  /** The kinds of event that the balance counts. */
  predicate Counted(kind: EventKind) {
    kind in {TaskLeased, TaskSucceeded, TaskFailed, TaskRetry, LeaseExpired}
  }

  function MaxAttempts(w: Snapshot, t: string): int
    requires t in w.tasks
  {
    NormalizeRetry(w.tasks[t].retry).maxAttempts
  }

  datatype Counts = Counts(leased: nat, succeeded: nat, failed: nat, retried: nat, expired: nat)

  function CountsOf(log: seq<Event>, i: string, t: string): Counts {
    Counts(Tally(log, TaskLeased, i, t), Tally(log, TaskSucceeded, i, t), Tally(log, TaskFailed, i, t),
           Tally(log, TaskRetry, i, t), Tally(log, LeaseExpired, i, t))
  }

  /** How many attempts have ended. A cancelled attempt ends without an event of its own. */
  function EndedAttempts(c: Counts): nat {
    c.succeeded + c.failed + c.retried + c.expired
  }

  /** The balance of one task. */
  ghost predicate Balanced(rt: TaskRuntime, limit: int, c: Counts) {
    && limit >= 1
    && rt.attempt == c.leased
    && EndedAttempts(c) + (if HoldsLease(rt.state) then 1 else 0) <= c.leased <= EndedAttempts(c) + 1
    && (rt.state != Cancelled ==> c.leased == EndedAttempts(c) + if HoldsLease(rt.state) then 1 else 0)
    && c.succeeded == (if rt.state == Succeeded then 1 else 0)
    && c.failed == (if rt.state == Failed then 1 else 0)
    && c.retried <= limit - 1
    && c.leased <= limit + c.expired
    && (rt.state in {Pending, Ready, RetryWait} ==> c.leased < limit + c.expired)
    && (rt.state == RetryWait ==> rt.attempt < limit)
    && (rt.state == Failed ==> rt.attempt >= limit)
  }

  ghost predicate WorkflowBalanced(w: Snapshot, log: seq<Event>, i: string) {
    forall t :: t in w.runtime && t in w.tasks ==> Balanced(w.runtime[t], MaxAttempts(w, t), CountsOf(log, i, t))
  }

  /** Only known workflows have events. */
  ghost predicate EventsKnown(s: StoreState) {
    forall k :: 0 <= k < |s.log| ==> s.log[k].workflowId == "" || s.log[k].workflowId in s.workflows
  }

  ghost predicate Budget(s: StoreState) {
    EventsKnown(s) && forall i :: i in s.workflows ==> i != "" && WorkflowBalanced(s.workflows[i], s.log, i)
  }

  // Tallies

  lemma {:induction false} TallyConcat(a: seq<Event>, b: seq<Event>, kind: EventKind, i: string, t: string)
    ensures Tally(a + b, kind, i, t) == Tally(a, kind, i, t) + Tally(b, kind, i, t)
  {
    if b == [] {
      assert a + b == a;
    } else {
      TallyConcat(a, b[..|b| - 1], kind, i, t);
      assert (a + b)[..|a + b| - 1] == a + b[..|b| - 1];
    }
  }

  lemma {:induction false} TallyNeutral(events: seq<Event>, kind: EventKind, i: string, t: string)
    requires Counted(kind) && forall k :: 0 <= k < |events| ==> !Counted(events[k].kind)
    ensures Tally(events, kind, i, t) == 0
  {
    if events != [] { TallyNeutral(events[..|events| - 1], kind, i, t); }
  }

  lemma {:induction false} TallyUnknown(log: seq<Event>, kind: EventKind, i: string, t: string)
    requires forall k :: 0 <= k < |log| ==> log[k].workflowId != i
    ensures Tally(log, kind, i, t) == 0
  {
    if log != [] { TallyUnknown(log[..|log| - 1], kind, i, t); }
  }

  ghost predicate Neutral(events: seq<Event>) {
    forall k :: 0 <= k < |events| ==> !Counted(events[k].kind)
  }

  lemma CountsNeutral(log: seq<Event>, events: seq<Event>, i: string, t: string)
    requires Neutral(events)
    ensures CountsOf(log + events, i, t) == CountsOf(log, i, t)
  {
    forall kind | Counted(kind) ensures Tally(log + events, kind, i, t) == Tally(log, kind, i, t) {
      TallyConcat(log, events, kind, i, t);
      TallyNeutral(events, kind, i, t);
    }
  }

  /** Counts after one more event. */
  function Bump(c: Counts, kind: EventKind): Counts {
    match kind
    case TaskLeased => c.(leased := c.leased + 1)
    case TaskSucceeded => c.(succeeded := c.succeeded + 1)
    case TaskFailed => c.(failed := c.failed + 1)
    case TaskRetry => c.(retried := c.retried + 1)
    case LeaseExpired => c.(expired := c.expired + 1)
    case _ => c
  }

  lemma CountsEvent(log: seq<Event>, e: Event, i: string, t: string)
    ensures CountsOf(log + [e], i, t) == if e.workflowId == i && e.taskId == t then Bump(CountsOf(log, i, t), e.kind)
        else CountsOf(log, i, t)
  {
    assert (log + [e])[..|log + [e]| - 1] == log;
  }

  // Moves that keep the balance

  /** One event about task `t` of workflow `i`, with the record that goes with it. */
  lemma EventKeepsBudget(s: StoreState, s': StoreState, i: string, t: string, e: Event)
    requires Budget(s) && HasTask(s, i, t) && t in s.workflows[i].tasks
    requires HasTask(s', i, t) && s'.workflows == s.workflows[i := Put(s.workflows[i], t, TaskAt(s', i, t))]
    requires s'.log == s.log + [e] && e.workflowId == i && e.taskId == t
    requires Balanced(TaskAt(s', i, t), MaxAttempts(s.workflows[i], t), Bump(CountsOf(s.log, i, t), e.kind))
    ensures Budget(s')
  {
    hide Balanced;
    forall j | j in s'.workflows ensures WorkflowBalanced(s'.workflows[j], s'.log, j) {
      assert WorkflowBalanced(s.workflows[j], s.log, j);
      forall x | x in s'.workflows[j].runtime && x in s'.workflows[j].tasks
        ensures Balanced(s'.workflows[j].runtime[x], MaxAttempts(s'.workflows[j], x), CountsOf(s'.log, j, x))
      {
        CountsEvent(s.log, e, j, x);
      }
    }
    assert EventsKnown(s');
  }

  lemma NeutralKeepsBudget(s: StoreState, s': StoreState, events: seq<Event>)
    requires Budget(s) && s'.workflows == s.workflows && s'.log == s.log + events && Neutral(events)
    requires forall k :: 0 <= k < |events| ==> events[k].workflowId == "" || events[k].workflowId in s.workflows
    ensures Budget(s')
  {
    hide Balanced;
    forall j | j in s'.workflows ensures WorkflowBalanced(s'.workflows[j], s'.log, j) {
      assert WorkflowBalanced(s.workflows[j], s.log, j);
      forall x | x in s'.workflows[j].runtime && x in s'.workflows[j].tasks
        ensures Balanced(s'.workflows[j].runtime[x], MaxAttempts(s'.workflows[j], x), CountsOf(s'.log, j, x))
      {
        CountsNeutral(s.log, events, j, x);
      }
    }
    assert EventsKnown(s');
  }

  /** Rewriting one workflow without counted events. */
  lemma ReplaceKeepsBudget(s: StoreState, s': StoreState, i: string)
    requires Budget(s) && i in s.workflows && i in s'.workflows && s'.log == s.log
    requires s'.workflows == s.workflows[i := s'.workflows[i]]
    requires WorkflowBalanced(s'.workflows[i], s.log, i)
    ensures Budget(s')
  {
    hide Balanced;
  }

  /** Moves that no counted event accompanies. */
  ghost predicate QuietMove(rt: TaskRuntime, rt': TaskRuntime) {
    && rt'.attempt == rt.attempt
    && (|| rt'.state == rt.state
        || (rt.state in {Pending, RetryWait} && rt'.state == Ready)
        || (rt.state == Leased && rt'.state == Running)
        || (!TerminalTask(rt.state) && rt'.state == Cancelled))
  }

  ghost predicate QuietWorkflow(w: Snapshot, w': Snapshot) {
    && w'.tasks == w.tasks && w'.runtime.Keys == w.runtime.Keys
    && forall t :: t in w.runtime ==> QuietMove(w.runtime[t], w'.runtime[t])
  }

  lemma QuietKeepsBudget(s: StoreState, s': StoreState, i: string)
    requires Budget(s) && i in s.workflows && i in s'.workflows && s'.log == s.log
    requires s'.workflows == s.workflows[i := s'.workflows[i]] && QuietWorkflow(s.workflows[i], s'.workflows[i])
    ensures Budget(s')
  {
    assert WorkflowBalanced(s.workflows[i], s.log, i);
    forall t | t in s'.workflows[i].runtime && t in s'.workflows[i].tasks
      ensures Balanced(s'.workflows[i].runtime[t], MaxAttempts(s'.workflows[i], t), CountsOf(s.log, i, t))
    {
      assert QuietMove(s.workflows[i].runtime[t], s'.workflows[i].runtime[t]);
      QuietBalanced(s.workflows[i].runtime[t], s'.workflows[i].runtime[t], MaxAttempts(s.workflows[i], t),
          CountsOf(s.log, i, t));
    }
    assert WorkflowBalanced(s'.workflows[i], s.log, i);
    ReplaceKeepsBudget(s, s', i);
  }

  lemma QuietBalanced(rt: TaskRuntime, rt': TaskRuntime, limit: int, c: Counts)
    requires Balanced(rt, limit, c) && QuietMove(rt, rt')
    ensures Balanced(rt', limit, c)
  {
  }

  lemma RecomputedQuiet(w: Snapshot, now: Time)
    requires Shape(w)
    ensures QuietWorkflow(w, Recomputed(w, now))
  {
    if !TerminalWorkflow(w.state) {
      forall t | t in w.runtime ensures QuietMove(w.runtime[t], Recomputed(w, now).runtime[t]) {
        StepRule(w, now, t);
        StepTaskQuiet(Deps(w, t), w.runtime[t], Recomputed(w, now).runtime, now);
      }
    }
  }

  lemma StepTaskQuiet(deps: seq<string>, rt: TaskRuntime, r: map<string, TaskRuntime>, now: Time)
    ensures QuietMove(rt, StepTask(deps, rt, r, now))
  {
  }

  lemma TerminalEventsNeutral(w: Snapshot, before: WorkflowState, now: Time)
    ensures Neutral(TerminalEvents(w, before, now))
    ensures
        forall k :: 0 <= k < |TerminalEvents(w, before, now)| ==> TerminalEvents(w, before, now)[k].workflowId == w.id
  {
  }

  lemma {:induction false} ReadyEventsNeutral(w: Snapshot, n: nat, now: Time)
    requires n <= |w.order|
    ensures Neutral(ReadyEvents(w, n, now))
    ensures forall k :: 0 <= k < |ReadyEvents(w, n, now)| ==> ReadyEvents(w, n, now)[k].workflowId == w.id
  {
    if n > 0 { ReadyEventsNeutral(w, n - 1, now); }
  }

  lemma {:induction false} CancelEventsNeutral(w: Snapshot, n: nat, now: Time)
    requires n <= |w.order|
    ensures Neutral(CancelEvents(w, n, now))
    ensures forall k :: 0 <= k < |CancelEvents(w, n, now)| ==> CancelEvents(w, n, now)[k].workflowId == w.id
  {
    if n > 0 { CancelEventsNeutral(w, n - 1, now); }
  }

  // The operations

  lemma SilentRecomputeBudget(s: StoreState, id: string, now: Time)
    requires Budget(s) && Inv(s) && id in s.workflows
    ensures Budget(WithWorkflow(s, id, Recomputed(s.workflows[id], now)))
  {
    hide FlowOk, Recomputed, QuietWorkflow, Budget, LeasesLinked, TasksLinked, WorkerCounts;
    assert FlowOk(s.workflows[id]);
    FlowShape(s.workflows[id]);
    RecomputedQuiet(s.workflows[id], now);
    QuietKeepsBudget(s, WithWorkflow(s, id, Recomputed(s.workflows[id], now)), id);
  }

  lemma RecomputeBudget(s: StoreState, id: string, now: Time)
    requires Budget(s) && Inv(s) && id in s.workflows
    ensures Budget(RecomputeOne(s, id, now))
  {
    hide Budget, Recomputed, TerminalEvents, FlowOk, Neutral;
    var w := Recomputed(s.workflows[id], now);
    SilentRecomputeBudget(s, id, now);
    RecomputedId(s.workflows[id], now);
    TerminalEventsNeutral(w, s.workflows[id].state, now);
    NeutralKeepsBudget(WithWorkflow(s, id, w), RecomputeOne(s, id, now), TerminalEvents(w, s.workflows[id].state, now));
  }

  lemma RecomputedId(w: Snapshot, now: Time)
    ensures Recomputed(w, now).id == w.id && Recomputed(w, now).order == w.order
  {
  }

  lemma ExpireBudget(s: StoreState, token: string, now: Time)
    requires Budget(s) && Inv(s) && token in s.leases
    ensures Budget(Expire(s, token, now))
  {
    hide Budget, FlowOk, Balanced, Expire, Inv, Requeued, Shape;
    ExpireShape(s, token, now);
    var l := s.leases[token];
    var w := s.workflows[l.workflowId];
    var rt := TaskAt(s, l.workflowId, l.taskId);
    LeasedTaskKnown(s, token);
    TaskBalance(s, l.workflowId, l.taskId);
    ExpiryBalanced(rt, MaxAttempts(w, l.taskId), CountsOf(s.log, l.workflowId, l.taskId));
    EventKeepsBudget(s, Expire(s, token, now), l.workflowId, l.taskId,
        Event(LeaseExpired, l.workflowId, l.taskId, l.workerId, now));
  }

  lemma TaskBalance(s: StoreState, i: string, t: string)
    requires Budget(s) && HasTask(s, i, t) && t in s.workflows[i].tasks
    ensures Balanced(TaskAt(s, i, t), MaxAttempts(s.workflows[i], t), CountsOf(s.log, i, t))
  {
    assert WorkflowBalanced(s.workflows[i], s.log, i);
  }

  lemma ExpiryBalanced(rt: TaskRuntime, limit: int, c: Counts)
    requires Balanced(rt, limit, c) && HoldsLease(rt.state)
    ensures Balanced(Requeued(rt), limit, Bump(c, LeaseExpired))
  {
  }

  lemma GrantBalanced(rt: TaskRuntime, rt': TaskRuntime, limit: int, c: Counts)
    requires Balanced(rt, limit, c) && rt.state == Ready && rt'.state == Leased && rt'.attempt == rt.attempt + 1
    ensures Balanced(rt', limit, Bump(c, TaskLeased))
  {
  }

  lemma FinishBalanced(spec: TaskSpec, rt: TaskRuntime, exitCode: int, error: string, now: Time, c: Counts)
    requires rt.state == Running && Balanced(rt, NormalizeRetry(spec.retry).maxAttempts, c)
    ensures
      var (rt', kind) := Finish(spec, rt, exitCode, error, now);
      Balanced(rt', NormalizeRetry(spec.retry).maxAttempts, Bump(c, kind))
  {
  }

  lemma {:induction false} ExpireDueBudget(s: StoreState, tokens: seq<string>, now: Time)
    requires Budget(s) && Inv(s)
    ensures Budget(ExpireDue(s, tokens, now))
  {
    hide Inv, Budget, Expire;
    if tokens != [] {
      var s1 := ExpireDue(s, tokens[..|tokens| - 1], now);
      ExpireDueBudget(s, tokens[..|tokens| - 1], now);
      ExpireDueKeepsInv(s, tokens[..|tokens| - 1], now);
      if tokens[|tokens| - 1] in s1.leases { ExpireBudget(s1, tokens[|tokens| - 1], now); }
    }
  }

  lemma {:induction false} RecomputeAllBudget(s: StoreState, ids: seq<string>, now: Time)
    requires Budget(s) && Inv(s)
    ensures Budget(RecomputeAll(s, ids, now))
  {
    hide Inv, Budget, RecomputeOne;
    if ids != [] {
      var s1 := RecomputeAll(s, ids[..|ids| - 1], now);
      RecomputeAllBudget(s, ids[..|ids| - 1], now);
      RecomputeAllKeepsInv(s, ids[..|ids| - 1], now);
      if ids[|ids| - 1] in s1.workflows { RecomputeBudget(s1, ids[|ids| - 1], now); }
    }
  }

  lemma SweepBudget(s: StoreState, tokens: seq<string>, ids: seq<string>, now: Time)
    requires Budget(s) && Inv(s)
    ensures Budget(Sweep(s, tokens, ids, now))
  {
    hide Inv, Budget;
    ExpireDueBudget(s, tokens, now);
    ExpireDueKeepsInv(s, tokens, now);
    RecomputeAllBudget(ExpireDue(s, tokens, now), ids, now);
  }

  lemma GrantBudget(s: StoreState, i: string, t: string, workerId: string, now: Time, token: string)
    requires Budget(s) && HasTask(s, i, t) && t in s.workflows[i].tasks && workerId in s.workers
        && TaskAt(s, i, t).state == Ready
    ensures Budget(Grant(s, i, t, workerId, now, token).0)
  {
    hide Budget, Balanced;
    var s' := Grant(s, i, t, workerId, now, token).0;
    TaskBalance(s, i, t);
    GrantBalanced(TaskAt(s, i, t), TaskAt(s', i, t), MaxAttempts(s.workflows[i], t), CountsOf(s.log, i, t));
    EventKeepsBudget(s, s', i, t, Event(TaskLeased, i, t, workerId, now));
  }

  lemma {:induction false} ScanBudget(s: StoreState, candidates: seq<string>, workerId: string, now: Time,
      token: string)
    requires Budget(s) && Inv(s) && workerId in s.workers
    ensures Budget(Scan(s, candidates, workerId, now, token).0)
    decreases |candidates|
  {
    hide Inv, Budget, Grant, Recomputed, Offered;
    if candidates == [] {
    } else if candidates[0] !in s.workflows {
      ScanBudget(s, candidates[1..], workerId, now, token);
    } else {
      var id := candidates[0];
      var w := Recomputed(s.workflows[id], now);
      var s1 := WithWorkflow(s, id, w);
      SilentRecomputeKeepsInv(s, id, now);
      SilentRecomputeBudget(s, id, now);
      FirstOfferedIs(w, s.workers[workerId].labels, 0);
      match FirstOffered(w, s.workers[workerId].labels, 0)
      case Some(t) =>
        OfferedIs(w, s.workers[workerId].labels, t);
        GrantBudget(s1, id, t, workerId, now, token);
      case None =>
        ScanBudget(s1, candidates[1..], workerId, now, token);
    }
  }

  lemma LeaseNextBudget(s: StoreState, workerId: string, now: Time, token: string,
                        tokens: seq<string>, sweepIds: seq<string>, scanIds: seq<string>)
    requires Budget(s) && Inv(s)
    ensures Budget(LeaseNext(s, workerId, now, token, tokens, sweepIds, scanIds).0)
  {
    hide Inv, Budget, Scan, Candidates, Sweep;
    var s1 := Sweep(s, tokens, sweepIds, now);
    SweepBudget(s, tokens, sweepIds, now);
    SweepKeepsInv(s, tokens, sweepIds, now);
    if workerId in s1.workers { ScanBudget(s1, Candidates(s1, scanIds), workerId, now, token); }
  }

  lemma GuardBudget(s: StoreState, token: string, now: Time)
    requires Budget(s) && Inv(s) && Guard(s, token, now).Some?
    ensures Budget(Guard(s, token, now).value.0)
  {
    if token in s.leases { ExpireBudget(s, token, now); }
  }

  /** A live lease operation that only rewrites its task quietly, with at most one neutral event. */
  ghost predicate QuietLeaseStep(s: StoreState, s': StoreState, token: string)
    requires token in s.leases && LeaseLinked(s, token)
  {
    var l := s.leases[token];
    && HasTask(s', l.workflowId, l.taskId)
    && s'.workflows == s.workflows[l.workflowId := Put(s.workflows[l.workflowId], l.taskId,
        TaskAt(s', l.workflowId, l.taskId))]
    && QuietMove(TaskAt(s, l.workflowId, l.taskId), TaskAt(s', l.workflowId, l.taskId))
    && (s'.log == s.log || exists e: Event :: s'.log == s.log + [e] && !Counted(e.kind) && e.workflowId == l.workflowId)
  }

  lemma QuietLeaseBudget(s: StoreState, s': StoreState, token: string)
    requires Budget(s) && token in s.leases && LeaseLinked(s, token) && QuietLeaseStep(s, s', token)
    ensures Budget(s')
  {
    hide Budget, QuietMove;
    var l := s.leases[token];
    var s1 := s'.(log := s.log);
    var w := s.workflows[l.workflowId];
    assert s1.workflows[l.workflowId] == Put(w, l.taskId, TaskAt(s', l.workflowId, l.taskId));
    QuietPut(w, l.taskId, TaskAt(s', l.workflowId, l.taskId));
    QuietKeepsBudget(s, s1, l.workflowId);
    if s'.log == s.log {
      assert s1 == s';
    } else {
      var e :| s'.log == s.log + [e] && !Counted(e.kind) && e.workflowId == l.workflowId;
      NeutralKeepsBudget(s1, s', [e]);
    }
  }

  lemma QuietPut(w: Snapshot, t: string, rt: TaskRuntime)
    requires t in w.runtime && QuietMove(w.runtime[t], rt)
    ensures QuietWorkflow(w, Put(w, t, rt))
  {
  }

  lemma StartQuiet(s: StoreState, token: string, now: Time)
    requires Guard(s, token, now).None? && token in s.leases && LeaseLinked(s, token)
    ensures QuietLeaseStep(s, StartLease(s, token, now).0, token)
  {
    hide Expire;
    var l := s.leases[token];
    assert s.workflows[l.workflowId].runtime == s.workflows[l.workflowId].runtime[l.taskId :=
        TaskAt(s, l.workflowId, l.taskId)];
    assert s.log + [Event(TaskStarted, l.workflowId, l.taskId, l.workerId, now)] == s.log
        + [Event(TaskStarted, l.workflowId, l.taskId, l.workerId, now)];
  }

  lemma LogQuiet(s: StoreState, token: string, stream: string, text: string, now: Time)
    requires Guard(s, token, now).None? && token in s.leases && LeaseLinked(s, token)
    ensures QuietLeaseStep(s, AppendLog(s, token, stream, text, now).0, token)
  {
    hide Expire, Utf8Length;
    var l := s.leases[token];
    assert s.workflows[l.workflowId].runtime == s.workflows[l.workflowId].runtime[l.taskId :=
        TaskAt(s, l.workflowId, l.taskId)];
  }

  lemma RenewQuiet(s: StoreState, token: string, now: Time)
    requires Guard(s, token, now).None? && token in s.leases && LeaseLinked(s, token)
    ensures QuietLeaseStep(s, RenewLease(s, token, now).0, token)
  {
    hide Expire;
  }

  lemma LeaseOperationsBudget(s: StoreState, token: string, stream: string, text: string, now: Time)
    requires Budget(s) && Inv(s)
    ensures Budget(StartLease(s, token, now).0)
    ensures Budget(RenewLease(s, token, now).0)
    ensures Budget(AppendLog(s, token, stream, text, now).0)
  {
    GuardKeepsInv(s, token, now);
    if Guard(s, token, now).Some? {
      GuardBudget(s, token, now);
    } else {
      hide Inv, Budget, QuietLeaseStep, StartLease, RenewLease, AppendLog, LeaseFields;
      StartQuiet(s, token, now);
      QuietLeaseBudget(s, StartLease(s, token, now).0, token);
      RenewQuiet(s, token, now);
      QuietLeaseBudget(s, RenewLease(s, token, now).0, token);
      LogQuiet(s, token, stream, text, now);
      QuietLeaseBudget(s, AppendLog(s, token, stream, text, now).0, token);
    }
  }

  lemma RunningBalanced(rt: TaskRuntime, limit: int, c: Counts, now: Time)
    requires Balanced(rt, limit, c) && rt.state == Leased
    ensures Balanced(Transition(rt, Running).(startedAt := Some(now)), limit, c)
  {
  }

  lemma EndedBalanced(s: StoreState, token: string, exitCode: int, error: string, now: Time)
    requires Budget(s) && token in s.leases && LeaseLinked(s, token)
    requires s.leases[token].taskId in s.workflows[s.leases[token].workflowId].tasks
    ensures
      var l := s.leases[token];
      var (rt, kind) := Ended(s, token, exitCode, error, now);
      Balanced(rt, MaxAttempts(s.workflows[l.workflowId], l.taskId),
          Bump(CountsOf(s.log, l.workflowId, l.taskId), kind))
  {
    hide Budget, Balanced, Finish;
    var l := s.leases[token];
    var rt := TaskAt(s, l.workflowId, l.taskId);
    var spec := s.workflows[l.workflowId].tasks[l.taskId];
    var c := CountsOf(s.log, l.workflowId, l.taskId);
    TaskBalance(s, l.workflowId, l.taskId);
    if rt.state == Leased {
      RunningBalanced(rt, NormalizeRetry(spec.retry).maxAttempts, c, now);
      FinishBalanced(spec, Transition(rt, Running).(startedAt := Some(now)), exitCode, error, now, c);
    } else {
      FinishBalanced(spec, rt, exitCode, error, now, c);
    }
  }

  lemma CompleteBudget(s: StoreState, token: string, exitCode: int, error: string, now: Time)
    requires Budget(s) && Inv(s)
    ensures Budget(CompleteLease(s, token, exitCode, error, now).0)
  {
    hide Budget, Inv, CompleteLease, Ended, Released, CompletionEvents, AfterCompletion;
    GuardKeepsInv(s, token, now);
    if Guard(s, token, now).Some? {
      CompleteGuarded(s, token, exitCode, error, now);
      GuardBudget(s, token, now);
    } else {
      CompleteShape(s, token, exitCode, error, now);
      EndedBalanced(s, token, exitCode, error, now);
      EndedIs(s, token, exitCode, error, now);
      var (rt, kind) := Ended(s, token, exitCode, error, now);
      CompletedBudget(s, token, rt, kind, now);
    }
  }

  lemma CompletedBudget(s: StoreState, token: string, rt: TaskRuntime, kind: EventKind, now: Time)
    requires Budget(s) && Inv(s) && token in s.leases && LeaseLinked(s, token)
        && rt.state in {Succeeded, RetryWait, Failed}
    requires s.leases[token].taskId in s.workflows[s.leases[token].workflowId].tasks
    requires Balanced(rt, MaxAttempts(s.workflows[s.leases[token].workflowId], s.leases[token].taskId),
                      Bump(CountsOf(s.log, s.leases[token].workflowId, s.leases[token].taskId), kind))
    ensures Budget(Publish(AfterCompletion(s, token, rt, now), CompletionEvents(s, token, rt, kind, now)))
  {
    hide Budget, Balanced, Recomputed, Shape, TerminalEvents, ReadyEvents, Neutral, Inv, FlowOk;
    var l := s.leases[token];
    var i, t := l.workflowId, l.taskId;
    var w := s.workflows[i];
    var s1 := Publish(WithTask(s, i, t, rt), [Event(kind, i, t, l.workerId, now)]);
    EventKeepsBudget(s, s1, i, t, Event(kind, i, t, l.workerId, now));
    var v := Recomputed(Put(w, t, rt), now);
    EndedQuiet(s, token, rt, now);
    var s2 := WithWorkflow(s1, i, v);
    QuietKeepsBudget(s1, s2, i);
    CompletionLog(s, token, rt, kind, now);
    var rest := TerminalEvents(v, w.state, now) + ReadyEvents(v, |v.order|, now);
    CompletionRest(v, w.state, now);
    NeutralKeepsBudget(s2, Publish(AfterCompletion(s, token, rt, now), CompletionEvents(s, token, rt, kind, now)),
        rest);
  }

  lemma EndedQuiet(s: StoreState, token: string, rt: TaskRuntime, now: Time)
    requires Inv(s) && token in s.leases && LeaseLinked(s, token) && rt.state in {Succeeded, RetryWait, Failed}
    ensures
      var l := s.leases[token];
      var v := Put(s.workflows[l.workflowId], l.taskId, rt);
      QuietWorkflow(v, Recomputed(v, now)) && Recomputed(v, now).id == l.workflowId
  {
    hide FlowOk, Recomputed, QuietWorkflow, Shape;
    var l := s.leases[token];
    assert FlowOk(s.workflows[l.workflowId]);
    EndedFlow(s.workflows[l.workflowId], l.taskId, rt, now);
    RecomputedQuiet(Put(s.workflows[l.workflowId], l.taskId, rt), now);
  }

  lemma CompletionLog(s: StoreState, token: string, rt: TaskRuntime, kind: EventKind, now: Time)
    requires token in s.leases && LeaseLinked(s, token)
    ensures
      var l := s.leases[token];
      var w := s.workflows[l.workflowId];
      var v := Recomputed(Put(w, l.taskId, rt), now);
      var s' := Publish(AfterCompletion(s, token, rt, now), CompletionEvents(s, token, rt, kind, now));
      && s'.workflows == s.workflows[l.workflowId := v]
      && s'.log == (s.log + [Event(kind, l.workflowId, l.taskId, l.workerId, now)])
                    + (TerminalEvents(v, w.state, now) + ReadyEvents(v, |v.order|, now))
  {
    hide Recomputed, TerminalEvents, ReadyEvents;
  }

  lemma CompletionRest(v: Snapshot, before: WorkflowState, now: Time)
    ensures
      var rest := TerminalEvents(v, before, now) + ReadyEvents(v, |v.order|, now);
      Neutral(rest) && forall k :: 0 <= k < |rest| ==> rest[k].workflowId == v.id
  {
    TerminalEventsNeutral(v, before, now);
    ReadyEventsNeutral(v, |v.order|, now);
  }

  lemma DroppedQuiet(w: Snapshot, w1: Snapshot, dropped: set<string>, now: Time)
    requires DroppedTasks(w, w1, dropped, now) && !TerminalWorkflow(w.state)
    ensures QuietWorkflow(w, w1)
  {
  }

  lemma CancelBudget(s: StoreState, id: string, now: Time, tokens: seq<string>)
    requires Budget(s) && Inv(s) && Enumerates(tokens, s.leases.Keys)
    ensures Budget(CancelWorkflow(s, id, now, tokens).0)
  {
    hide Budget, DropLeases, Inv, DroppedTasks, QuietWorkflow, CancelEvents, Neutral, WorkerCounts;
    if id in s.workflows && !TerminalWorkflow(s.workflows[id].state) {
      var w := s.workflows[id];
      DroppingAll(s, id, tokens, |tokens|, now);
      assert tokens[..|tokens|] == tokens;
      var s2 := DropLeases(WithWorkflow(s, id, CancelledAt(w, now)), id, tokens);
      DroppedQuiet(w, s2.workflows[id], s.leases.Keys, now);
      QuietKeepsBudget(s, s2, id);
      var events := CancelEvents(w, |w.order|, now) + [Event(CancelledEvent, id, "", "", now)];
      CancelEventsAll(w, id, now);
      FlowId(s, id);
      NeutralKeepsBudget(s2, Publish(s2, events), events);
    }
  }

  lemma FlowId(s: StoreState, id: string)
    requires Inv(s) && id in s.workflows
    ensures s.workflows[id].id == id
  {
  }

  lemma CancelEventsAll(w: Snapshot, id: string, now: Time)
    ensures
      var events := CancelEvents(w, |w.order|, now) + [Event(CancelledEvent, id, "", "", now)];
      Neutral(events) && forall k :: 0 <= k < |events| ==> events[k].workflowId in {w.id, id}
  {
    CancelEventsNeutral(w, |w.order|, now);
  }

  lemma FreshBalanced(id: string, spec: WorkflowSpec, order: seq<string>, now: Time, log: seq<Event>)
    requires forall k :: 0 <= k < |log| ==> log[k].workflowId != id
    ensures WorkflowBalanced(NewSnapshot(id, spec, order, now), log, id)
  {
    hide Balanced;
    var w := NewSnapshot(id, spec, order, now);
    forall t | t in w.runtime && t in w.tasks ensures Balanced(w.runtime[t], MaxAttempts(w, t), CountsOf(log, id, t)) {
      forall kind ensures Tally(log, kind, id, t) == 0 { TallyUnknown(log, kind, id, t); }
      FreshTaskBalanced(MaxAttempts(w, t));
    }
  }

  lemma FreshTaskBalanced(limit: int)
    requires limit >= 1
    ensures Balanced(FRESH_RUNTIME, limit, Counts(0, 0, 0, 0, 0))
  {
    hide EndedAttempts;
    NothingEnded();
  }

  lemma NothingEnded()
    ensures EndedAttempts(Counts(0, 0, 0, 0, 0)) == 0
  {
  }

  lemma InsertBudget(s: StoreState, id: string, w: Snapshot)
    requires Budget(s) && id !in s.workflows && id != "" && WorkflowBalanced(w, s.log, id)
    ensures Budget(WithWorkflow(s, id, w))
  {
    hide Balanced;
  }

  lemma CreateBudget(s: StoreState, spec: WorkflowSpec, valid: Result<seq<string>, SpecError>, key: string, id: string,
      now: Time)
    requires Budget(s) && id !in s.workflows && id != ""
    requires valid.Success? ==> ValidSpec(spec) && LeastTopological(GraphOf(spec.tasks), valid.value)
    ensures Budget(CreateWorkflow(s, spec, valid, key, id, now).0)
  {
    hide Budget, Recomputed, NewSnapshot, CreationEvents, Neutral, QuietWorkflow, ValidSpec, LeastTopological;
    if !(key != "" && key in s.idempotency) && valid.Success? {
      var w := NewSnapshot(id, spec, valid.value, now);
      var v := Recomputed(w, now);
      NewWorkflowBudget(s, id, spec, valid.value, now);
      var s0 := WithWorkflow(s, id, w);
      var s1 := Added(s, id, v, key);
      assert s1.workflows == s0.workflows[id := v];
      QuietKeepsBudget(s0, s1, id);
      CreationNeutral(id, v, now);
      NewSnapshotId(id, spec, valid.value, now);
      NeutralKeepsBudget(s1, CreateWorkflow(s, spec, valid, key, id, now).0, CreationEvents(id, v, now));
    }
  }

  lemma NewWorkflowBudget(s: StoreState, id: string, spec: WorkflowSpec, order: seq<string>, now: Time)
    requires Budget(s) && id !in s.workflows && id != "" && ValidSpec(spec)
        && LeastTopological(GraphOf(spec.tasks), order)
    ensures Budget(WithWorkflow(s, id, NewSnapshot(id, spec, order, now)))
    ensures QuietWorkflow(NewSnapshot(id, spec, order, now), Recomputed(NewSnapshot(id, spec, order, now), now))
  {
    hide Budget, Recomputed, WorkflowBalanced, Shape, QuietWorkflow;
    var w := NewSnapshot(id, spec, order, now);
    NewSnapshotHealthy(id, spec, order, now);
    UnknownId(s, id);
    FreshBalanced(id, spec, order, now, s.log);
    InsertBudget(s, id, w);
    RecomputedQuiet(w, now);
  }

  lemma UnknownId(s: StoreState, id: string)
    requires Budget(s) && id !in s.workflows && id != ""
    ensures forall k :: 0 <= k < |s.log| ==> s.log[k].workflowId != id
  {
  }

  lemma NewSnapshotId(id: string, spec: WorkflowSpec, order: seq<string>, now: Time)
    ensures Recomputed(NewSnapshot(id, spec, order, now), now).id == id
  {
  }

  lemma CreationNeutral(id: string, v: Snapshot, now: Time)
    ensures Neutral(CreationEvents(id, v, now))
    ensures forall k :: 0 <= k < |CreationEvents(id, v, now)| ==> CreationEvents(id, v, now)[k].workflowId in {v.id, id}
  {
    ReadyEventsNeutral(v, |v.order|, now);
  }

  lemma StepKeepsBudget(s: StoreState, c: Call)
    requires Budget(s) && Inv(s) && Enabled(s, c.op)
    ensures Budget(Step(s, c).0)
  {
    hide Inv, Budget, CreateWorkflow, CancelWorkflow, LeaseNext, StartLease, RenewLease, AppendLog, CompleteLease,
        Sweep;
    match c.op
    case Create(spec, valid, key, id) => CreateBudget(s, spec, valid, key, id, c.now);
    case Cancel(id, tokens) => CancelBudget(s, id, c.now, tokens);
    case Register(name, version, labels, capacity, id) =>
      NeutralKeepsBudget(s, Step(s, c).0, [Event(WorkerRegistered, "", "", id, c.now)]);
    case Heartbeat(id) =>
      if id in s.workers { NeutralKeepsBudget(s, Step(s, c).0, [Event(WorkerHeartbeat, "", "", id, c.now)]); }
    case Poll(workerId, token, tokens, sweepIds, scanIds) =>
        LeaseNextBudget(s, workerId, c.now, token, tokens, sweepIds, scanIds);
    case Start(token) => LeaseOperationsBudget(s, token, "", "", c.now);
    case Renew(token) => LeaseOperationsBudget(s, token, "", "", c.now);
    case Log(token, stream, text) => LeaseOperationsBudget(s, token, stream, text, c.now);
    case Complete(token, exitCode, error) => CompleteBudget(s, token, exitCode, error, c.now);
    case Tick(tokens, ids) => SweepBudget(s, tokens, ids, c.now);
  }

  lemma {:induction false} RunBudget(run: seq<Call>)
    requires Legal(run)
    ensures Budget(After(run))
  {
    if run != [] {
      RunBudget(run[..|run| - 1]);
      RunInv(run[..|run| - 1]);
      StepKeepsBudget(After(run[..|run| - 1]), run[|run| - 1]);
    }
  }

  /** The accounting of every task in every run. */
  lemma Accounting(run: seq<Call>, i: string, t: string)
    requires Legal(run) && HasTask(After(run), i, t)
    ensures
      var s := After(run);
      t in s.workflows[i].tasks &&
      var rt := TaskAt(s, i, t);
      var limit := MaxAttempts(s.workflows[i], t);
      var c := CountsOf(s.log, i, t);
      && rt.attempt == c.leased <= limit + c.expired
      && c.failed + c.retried <= limit
      && c.succeeded <= 1
      && (rt.state == RetryWait ==> rt.attempt < limit)
      && (rt.state == Failed ==> rt.attempt >= limit)
  {
    RunInv(run);
    RunBudget(run);
    assert FlowOk(After(run).workflows[i]);
    TaskBalance(After(run), i, t);
  }

  /** Whether the current attempt of a task was not handed back: it runs, or it has ended for good. */
  function LastAttempt(state: TaskState): nat {
    if HoldsLease(state) || state in {Succeeded, Failed} then 1 else 0
  }

  /** Exactly when a task has been attempted more often than its policy allows: `expireLeaseLocked` hands a task back
      without a look at its budget, so each expiry uses up one attempt that a completion would have counted. */
  lemma BudgetExceeded(run: seq<Call>, i: string, t: string)
    requires Legal(run) && HasTask(After(run), i, t) && TaskAt(After(run), i, t).state != Cancelled
    ensures
      var s := After(run);
      t in s.workflows[i].tasks &&
      var rt := TaskAt(s, i, t);
      var c := CountsOf(s.log, i, t);
      && rt.attempt == c.retried + c.expired + LastAttempt(rt.state)
      && (rt.attempt > MaxAttempts(s.workflows[i], t)
          <==> c.retried + c.expired + LastAttempt(rt.state) > MaxAttempts(s.workflows[i], t))
  {
    RunInv(run);
    RunBudget(run);
    assert FlowOk(After(run).workflows[i]);
    TaskBalance(After(run), i, t);
  }

  lemma {:induction false} ScanGrants(s: StoreState, candidates: seq<string>, workerId: string, now: Time,
      token: string)
    requires workerId in s.workers
    ensures var (s', outcome) := Scan(s, candidates, workerId, now, token);
      outcome.Granted? ==> outcome.lease.token in s'.leases && s'.leases[outcome.lease.token] == outcome.lease
    decreases |candidates|
  {
    hide Recomputed, Offered;
    if candidates != [] && candidates[0] !in s.workflows {
      ScanGrants(s, candidates[1..], workerId, now, token);
    } else if candidates != [] {
      var id := candidates[0];
      ScanGrants(s.(workflows := s.workflows[id := Recomputed(s.workflows[id], now)]), candidates[1..], workerId, now,
          token);
    }
  }

  lemma PollGrants(s: StoreState, c: Call)
    requires c.op.Poll?
    ensures var (s', outcome) := Step(s, c);
      outcome.Granted? ==> outcome.lease.token in s'.leases && s'.leases[outcome.lease.token] == outcome.lease
  {
    hide Scan, Candidates, Sweep;
    var s1 := Sweep(s, c.op.tokens, c.op.sweepIds, c.now);
    if c.op.workerId in s1.workers { ScanGrants(s1, Candidates(s1, c.op.scanIds), c.op.workerId, c.now, c.op.token); }
  }

  /** A poll hands out an attempt beyond the budget exactly if retries and expiries had used the budget up. */
  lemma GrantExceeds(run: seq<Call>, c: Call)
    requires Legal(run + [c]) && c.op.Poll? && Step(After(run), c).1.Granted?
    ensures
      var l, s := Step(After(run), c).1.lease, After(run + [c]);
      && HasTask(s, l.workflowId, l.taskId) && l.taskId in s.workflows[l.workflowId].tasks
      && var limit, counts := MaxAttempts(s.workflows[l.workflowId], l.taskId), CountsOf(s.log, l.workflowId, l.taskId);
         l.attempt > limit <==> counts.retried + counts.expired >= limit
  {
    hide Step, Legal, Inv, CountsOf, After;
    AfterLast(run, c);
    var l, s := Step(After(run), c).1.lease, After(run + [c]);
    PollGrants(After(run), c);
    RunInv(run + [c]);
    LiveLease(s, l.token);
    BudgetExceeded(run + [c], l.workflowId, l.taskId);
  }
}
