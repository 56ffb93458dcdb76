/** The coordinator's store as an object: maps of workflow and worker objects updated in place.
    Every method is proved to take the same step as its function in `StoreModel`. */
module Store {
  import opened Graph
  import opened WorkflowSpec
  import opened Runtime
  import opened StoreModel
  import opened StoreInvariant
  import opened StoreOperations

  class Worker {
    const id: string
    const name: string
    const version: string
    const labels: Labels
    const capacity: int
    const registeredAt: Time
    var activeLeases: int
    var lastHeartbeat: Time

    constructor (id: string, name: string, version: string, labels: Labels, capacity: int, now: Time)
      ensures this.id == id && Value() == WorkerValue(id, name, version, labels, capacity, 0, now, now)
    {
      this.id, this.name, this.version, this.labels, this.capacity := id, name, version, labels, capacity;
      this.registeredAt, this.activeLeases, this.lastHeartbeat := now, 0, now;
    }

    ghost function Value(): WorkerValue
      reads this
    {
      WorkerValue(id, name, version, labels, capacity, activeLeases, registeredAt, lastHeartbeat)
    }
  }

  class Store {
    var workflows: map<string, Workflow>
    var workers: map<string, Worker>
    var leases: map<string, Lease>
    var idempotency: map<string, string>
    var log: seq<Event>
    ghost var issued: set<string>

    /** The abstract state. */
    ghost function State(): (s: StoreState)
      reads this, workflows.Values, workers.Values
      ensures s.workflows.Keys == workflows.Keys && s.workers.Keys == workers.Keys
      ensures s.leases == leases && s.idempotency == idempotency && s.log == log && s.issued == issued
      ensures forall k :: k in workflows ==> s.workflows[k] == workflows[k].Value()
      ensures forall k :: k in workers ==> s.workers[k] == workers[k].Value()
    {
      StoreState(map k | k in workflows :: workflows[k].Value(), map k | k in workers :: workers[k].Value(),
                 leases, idempotency, log, issued)
    }

    /** Objects are stored under their own ids, so no two keys share one. */
    ghost predicate Named()
      reads this, workflows.Values, workers.Values
    {
      && (forall k :: k in workflows ==> workflows[k].id == k)
      && (forall k :: k in workers ==> workers[k].id == k)
    }

    ghost predicate Valid()
      reads this, workflows.Values, workers.Values
    {
      Named() && Inv(State())
    }

    /** The maps hold the same objects as before. */
    ghost predicate SameObjects(workflows0: map<string, Workflow>, workers0: map<string, Worker>)
      reads this
    {
      workflows == workflows0 && workers == workers0
    }

    constructor ()
      ensures Valid() && State() == StoreState(map[], map[], map[], map[], [], {})
    {
      workflows, workers, leases, idempotency, log, issued := map[], map[], map[], map[], [], {};
      new;
      EmptyInv(State());
    }

    // What a change of one object means for the abstract state

    twostate lemma SameWorkers()
      requires workers == old(workers) && forall k :: k in workers ==> workers[k].Value() == old(workers[k].Value())
      ensures State().workers == old(State()).workers
    {
      hide *;
    }

    twostate lemma SameWorkflows()
      requires workflows == old(workflows) &&
          forall k :: k in workflows ==> workflows[k].Value() == old(workflows[k].Value())
      ensures State().workflows == old(State()).workflows
    {
      hide *;
    }

    twostate lemma OneWorkflow(i: string)
      requires workflows == old(workflows) && i in workflows
      requires forall k :: k in workflows && k != i ==> workflows[k].Value() == old(workflows[k].Value())
      ensures State().workflows == old(State()).workflows[i := workflows[i].Value()]
    {
      hide *;
    }

    twostate lemma OneWorker(i: string)
      requires workers == old(workers) && i in workers
      requires forall k :: k in workers && k != i ==> workers[k].Value() == old(workers[k].Value())
      ensures State().workers == old(State()).workers[i := workers[i].Value()]
    {
      hide *;
    }

    twostate lemma MoreWorkflows(i: string, new w: Workflow)
      requires workflows == old(workflows)[i := w] && i !in old(workflows)
      requires forall k :: k in old(workflows) ==> workflows[k].Value() == old(workflows[k].Value())
      ensures State().workflows == old(State()).workflows[i := w.Value()]
    {
      hide *;
    }

    twostate lemma MoreWorkers(i: string, new w: Worker)
      requires workers == old(workers)[i := w] && i !in old(workers)
      requires forall k :: k in old(workers) ==> workers[k].Value() == old(workers[k].Value())
      ensures State().workers == old(State()).workers[i := w.Value()]
    {
      hide *;
    }

    // Small steps

    method Emit(events: seq<Event>)
      requires Named()
      modifies this`log
      ensures Named() && State() == Publish(old(State()), events)
      ensures SameObjects(old(workflows), old(workers))
    {
      log := log + events;
    }

    method SetTask(i: string, t: string, rt: TaskRuntime)
      requires Named() && HasTask(State(), i, t)
      modifies workflows[i]
      ensures Named() && State() == WithTask(old(State()), i, t, rt)
      ensures SameObjects(old(workflows), old(workers))
    {
      hide State;
      var w := workflows[i];
      w.runtime := w.runtime[t := rt];
      OneWorkflow(i);
      SameWorkers();
    }

    method RecomputeLocked(i: string, now: Time)
      requires Named() && i in workflows && Shape(workflows[i].Value())
      modifies workflows[i]
      ensures Named() && State() == WithWorkflow(old(State()), i, Recomputed(old(workflows[i].Value()), now))
      ensures SameObjects(old(workflows), old(workers))
    {
      hide State, Recomputed, Shape;
      workflows[i].Recompute(now);
      OneWorkflow(i);
      SameWorkers();
    }

    method FreeWorkerSlot(id: string)
      requires Named()
      modifies if id in workers then {workers[id]} else {}
      ensures Named() && State() == old(State()).(workers := FreeSlot(old(State()).workers, id))
      ensures SameObjects(old(workflows), old(workers))
    {
      hide State;
      if id in workers && workers[id].activeLeases > 0 {
        workers[id].activeLeases := workers[id].activeLeases - 1;
        OneWorker(id);
      }
      SameWorkflows();
    }

    method DeleteLease(token: string)
      requires Named() && token in leases
      modifies this`leases, workers.Values
      ensures Named() && State() == WithoutLease(old(State()), token)
      ensures SameObjects(old(workflows), old(workers))
    {
      hide FreeSlot;
      ghost var before := State();
      var lease := leases[token];
      leases := leases - {token};
      assert State() == before.(leases := before.leases - {token});
      FreeWorkerSlot(lease.workerId);
    }

    // expireLeaseLocked and sweepLocked

    method ExpireLeaseLocked(token: string, now: Time)
      requires Named() && token in leases
      modifies this`leases, this`log, workflows.Values, workers.Values
      ensures Named() && State() == Expire(old(State()), token, now)
      ensures SameObjects(old(workflows), old(workers))
    {
      ghost var before := State();
      var lease := leases[token];
      DeleteLease(token);
      if lease.workflowId in workflows {
        ReturnTask(lease, token, now);
      }
      hide FreeSlot, Returned;
    }

    /** The second half of `expireLeaseLocked`: hands the task of a deleted lease back. */
    method ReturnTask(lease: Lease, token: string, now: Time)
      requires Named() && lease.workflowId in workflows
      modifies this`log, workflows.Values
      ensures Named() && State() == Returned(old(State()), lease, token, now)
      ensures SameObjects(old(workflows), old(workers))
    {
      hide State, Publish, WithTask;
      var w := workflows[lease.workflowId];
      if lease.taskId !in w.runtime || w.runtime[lease.taskId].leaseToken != token { return; }
      var rt := w.runtime[lease.taskId];
      if rt.state == Leased || rt.state == Running {
        SetTask(lease.workflowId, lease.taskId, ClearLease(rt).(state := Ready, startedAt := None));
        Emit([Event(LeaseExpired, lease.workflowId, lease.taskId, lease.workerId, now)]);
      } else {
        SetTask(lease.workflowId, lease.taskId, ClearLease(rt));
      }
    }

    method RecomputeAndReport(i: string, now: Time)
      requires Valid() && i in workflows
      modifies this`log, workflows.Values
      ensures Valid() && State() == RecomputeOne(old(State()), i, now)
      ensures SameObjects(old(workflows), old(workers))
    {
      hide Inv, State, Named, Recomputed, Shape, Publish, RecomputeOne, TerminalEvents;
      WorkflowShaped(State(), i);
      RecomputeKeepsInv(State(), i, now);
      RecomputeReport(i, now);
    }

    method RecomputeReport(i: string, now: Time)
      requires Named() && i in workflows && Shape(State().workflows[i])
      modifies this`log, workflows.Values
      ensures Named() && State() == RecomputeOne(old(State()), i, now)
      ensures SameObjects(old(workflows), old(workers))
    {
      hide State, Named, Recomputed, Shape, Publish, RecomputeOne, TerminalEvents, WithWorkflow;
      ghost var s := State();
      var before := workflows[i].state;
      RecomputeLocked(i, now);
      RecomputeOneIs(s, i, now);
      var _ := EmitTerminal(i, before, now);
    }

    /** `emitWorkflowTerminalLocked`. */
    method EmitTerminal(i: string, before: WorkflowState, now: Time) returns (ghost events: seq<Event>)
      requires Named() && i in workflows
      modifies this`log
      ensures Named() && State() == Publish(old(State()), events)
      ensures events == TerminalEvents(workflows[i].Value(), before, now)
      ensures SameObjects(old(workflows), old(workers))
    {
      var w := workflows[i];
      var published: seq<Event> := [];
      if w.state != before {
        match w.state {
          case WorkflowSucceeded => published := [Event(SucceededEvent, w.id, "", "", now)];
          case WorkflowFailed => published := [Event(FailedEvent, w.id, "", "", now)];
          case WorkflowCancelled => published := [Event(CancelledEvent, w.id, "", "", now)];
          case _ =>
        }
      }
      Emit(published);
      events := published;
    }

    method SweepLocked(tokens: seq<string>, ids: seq<string>, now: Time)
      requires Valid()
      modifies this`leases, this`log, workflows.Values, workers.Values
      ensures Valid() && State() == StoreModel.Sweep(old(State()), tokens, ids, now)
      ensures SameObjects(old(workflows), old(workers))
    {
      hide Inv, State, Named, Expire, RecomputeOne;
      ghost var s := State();
      for n := 0 to |tokens|
        invariant Valid() && State() == ExpireDue(s, tokens[..n], now)
        invariant SameObjects(old(workflows), old(workers))
      {
        assert tokens[..n + 1][..n] == tokens[..n];
        if tokens[n] in leases && now >= leases[tokens[n]].expiresAt {
          ExpireKeepsInv(State(), tokens[n], now);
          ExpireLeaseLocked(tokens[n], now);
        }
      }
      assert tokens[..|tokens|] == tokens;
      ghost var s1 := State();
      for n := 0 to |ids|
        invariant Valid() && State() == RecomputeAll(s1, ids[..n], now)
        invariant SameObjects(old(workflows), old(workers))
      {
        assert ids[..n + 1][..n] == ids[..n];
        if ids[n] in workflows {
          RecomputeAndReport(ids[n], now);
        }
      }
      assert ids[..|ids|] == ids;
    }

    method Sweep(tokens: seq<string>, ids: seq<string>, now: Time)
      requires Valid()
      modifies this`leases, this`log, workflows.Values, workers.Values
      ensures Valid() && State() == StoreModel.Sweep(old(State()), tokens, ids, now)
    {
      SweepLocked(tokens, ids, now);
    }

    // StartLease, RenewLease, AppendLog

    /** The checks shared by every operation on a token; `None` means that the lease is live. */
    method CheckLease(token: string, now: Time) returns (failed: Option<Outcome>)
      requires Valid()
      modifies this`leases, this`log, workflows.Values, workers.Values
      ensures Valid() && SameObjects(old(workflows), old(workers))
      ensures failed.Some? <==> Guard(old(State()), token, now).Some?
      ensures failed.Some? ==> Guard(old(State()), token, now) == Some((State(), failed.value))
      ensures failed.None? ==> State() == old(State()) && token in leases && LeaseLinked(State(), token)
    {
      hide Inv, State, Named, Expire;
      GuardKeepsInv(State(), token, now);
      if token !in leases { return Some(LeaseNotFound); }
      if now >= leases[token].expiresAt {
        ExpireKeepsInv(State(), token, now);
        ExpireLeaseLocked(token, now);
        return Some(LeaseExpiredError);
      }
      return None;
    }

    method StartLease(token: string, now: Time) returns (outcome: Outcome)
      requires Valid()
      modifies this`leases, this`log, workflows.Values, workers.Values
      ensures Valid() && (State(), outcome) == StoreModel.StartLease(old(State()), token, now)
    {
      hide Inv, State, Named, Guard, LeaseFields;
      ghost var s := State();
      StartKeepsInv(s, token, now);
      var failed := CheckLease(token, now);
      if failed.Some? { return failed.value; }
      var lease := leases[token];
      var rt := workflows[lease.workflowId].runtime[lease.taskId];
      if rt.leaseToken != token { return StaleLease; }
      if rt.state == Leased {
        SetTask(lease.workflowId, lease.taskId, Transition(rt, Running).(startedAt := Some(now)));
        Emit([Event(TaskStarted, lease.workflowId, lease.taskId, lease.workerId, now)]);
      }
      return Done;
    }

    method RenewLease(token: string, now: Time) returns (outcome: Outcome)
      requires Valid()
      modifies this`leases, this`log, workflows.Values, workers.Values
      ensures Valid() && (State(), outcome) == StoreModel.RenewLease(old(State()), token, now)
    {
      hide Inv, State, Named, Guard, LeaseFields, RenewLive;
      RenewKeepsInv(State(), token, now);
      var failed := CheckLease(token, now);
      if failed.Some? { return failed.value; }
      outcome := Extend(token, now);
    }

    method Extend(token: string, now: Time) returns (outcome: Outcome)
      requires Named() && token in leases
      modifies this`leases, workflows.Values
      ensures Named() && (State(), outcome) == RenewLive(old(State()), token, now)
    {
      ghost var s := State();
      var lease := leases[token].(expiresAt := now + LEASE_DURATION);
      leases := leases[token := lease];
      assert State() == s.(leases := s.leases[token := lease]);
      if lease.workflowId in workflows && lease.taskId in workflows[lease.workflowId].runtime {
        SetTask(lease.workflowId, lease.taskId,
                workflows[lease.workflowId].runtime[lease.taskId].(leaseUntil := Some(lease.expiresAt)));
      }
      return Granted(lease);
    }

    method AppendLog(token: string, stream: string, text: string, now: Time) returns (outcome: Outcome)
      requires Valid()
      modifies this`leases, this`log, workflows.Values, workers.Values
      ensures Valid() && (State(), outcome) == StoreModel.AppendLog(old(State()), token, stream, text, now)
    {
      hide Inv, State, Named, Guard, LeaseFields, LogLive;
      LogKeepsInv(State(), token, stream, text, now);
      var failed := CheckLease(token, now);
      if failed.Some? { return failed.value; }
      outcome := AppendChunk(token, stream, text, now);
    }

    method AppendChunk(token: string, stream: string, text: string, now: Time) returns (outcome: Outcome)
      requires Named() && token in leases && LeaseLinked(State(), token)
      modifies this`log, workflows.Values
      ensures Named() && (State(), outcome) == LogLive(old(State()), token, stream, text, now)
    {
      hide State, Named, LeaseFields, Utf8Length, Publish, WithTask;
      var lease := leases[token];
      var rt := workflows[lease.workflowId].runtime[lease.taskId];
      if rt.leaseToken != token { return StaleLease; }
      if stream != "stdout" && stream != "stderr" { return BadStream; }
      var size := Utf8Length(text);
      if size > MAX_CHUNK { return ChunkTooLarge; }
      if rt.outputBytes > MAX_OUTPUT - size { return OutputLimitExceeded; }
      assert LogLive(State(), token, stream, text, now) ==
        (Publish(WithTask(State(), lease.workflowId, lease.taskId, rt.(outputBytes := rt.outputBytes + size)),
                 [Event(TaskLog, lease.workflowId, lease.taskId, lease.workerId, now)]), Done);
      hide LogLive, LeaseLinked;
      SetTask(lease.workflowId, lease.taskId, rt.(outputBytes := rt.outputBytes + size));
      Emit([Event(TaskLog, lease.workflowId, lease.taskId, lease.workerId, now)]);
      return Done;
    }

    // CompleteLease

    method EmitReady(i: string, now: Time)
      requires Named() && i in workflows
      modifies this`log
      ensures Named() && State() == Publish(old(State()), ReadyEvents(old(State()).workflows[i], |workflows[i].order|,
          now))
      ensures SameObjects(old(workflows), old(workers))
    {
      var w := workflows[i];
      ghost var v := w.Value();
      var events: seq<Event> := [];
      for n := 0 to |w.order|
        invariant events == ReadyEvents(v, n, now)
      {
        if w.order[n] in w.runtime && w.runtime[w.order[n]].state == Ready {
          events := events + [Event(TaskReady, w.id, w.order[n], "", now)];
        }
      }
      Emit(events);
    }

    method CompleteLease(token: string, exitCode: int, error: string, now: Time) returns (outcome: Outcome)
      requires Valid()
      modifies this`leases, this`log, workflows.Values, workers.Values
      ensures Valid() && (State(), outcome) == StoreModel.CompleteLease(old(State()), token, exitCode, error, now)
    {
      hide Inv, State, Named, Guard, LeaseFields, StoreModel.CompleteLease, Finish, RecomputeOne, Released, ReadyEvents,
          Publish;
      ghost var s := State();
      CompleteKeepsInv(s, token, exitCode, error, now);
      var failed := CheckLease(token, now);
      if failed.Some? {
        CompleteGuarded(s, token, exitCode, error, now);
        return failed.value;
      }
      CompleteShape(s, token, exitCode, error, now);
      var lease := leases[token];
      var i, t := lease.workflowId, lease.taskId;
      CompleteRefused(s, token, exitCode, error, now);
      var rt0 := workflows[i].runtime[t];
      if rt0.leaseToken != token { return StaleLease; }
      var rt := if rt0.state == Leased then Transition(rt0, Running).(startedAt := Some(now)) else rt0;
      if rt.state != Running { return NotRunning; }
      CompleteUnfolded(s, token, exitCode, error, now);
      var (ended, kind) := Finish(workflows[i].tasks[t], rt, exitCode, error, now);
      ShapeAfterCompletion(s, token, exitCode, error, now);
      SettleTask(token, ended, kind, now);
      return Done;
    }

    /** The second half of `CompleteLease`: releases the lease, recomputes and reports. */
    method SettleTask(token: string, ended: TaskRuntime, kind: EventKind, now: Time)
      requires Named() && token in leases && LeaseLinked(State(), token)
      requires Shape(Released(State(), token, ended).workflows[leases[token].workflowId])
      modifies this`leases, this`log, workflows.Values, workers.Values
      ensures Named() && SameObjects(old(workflows), old(workers))
      ensures
        var l := old(leases[token]);
        var s1 := Publish(Released(old(State()), token, ended), [Event(kind, l.workflowId, l.taskId, l.workerId, now)]);
        var s2 := RecomputeOne(s1, l.workflowId, now);
        State() == Publish(s2, ReadyEvents(s2.workflows[l.workflowId], |s2.workflows[l.workflowId].order|, now))
    {
      hide State, Named, Publish, Released, RecomputeOne, Shape, ReadyEvents, LeaseFields;
      ghost var s := State();
      var lease := leases[token];
      ReleasedParts(s, token, ended);
      ReleaseTask(token, ended, kind, now);
      PublishedWorkflows(Released(s, token, ended), [Event(kind, lease.workflowId, lease.taskId, lease.workerId, now)]);
      RecomputeReport(lease.workflowId, now);
      EmitReady(lease.workflowId, now);
    }

    method ReleaseTask(token: string, ended: TaskRuntime, kind: EventKind, now: Time)
      requires Named() && token in leases && LeaseLinked(State(), token)
      modifies this`leases, this`log, workflows.Values, workers.Values
      ensures Named() && SameObjects(old(workflows), old(workers))
      ensures
        var l := old(leases[token]);
        State() == Publish(Released(old(State()), token, ended), [Event(kind, l.workflowId, l.taskId, l.workerId, now)])
    {
      hide State, Named, Publish, WithTask, WithoutLease, Released, LeaseFields;
      var lease := leases[token];
      ReleasedParts(State(), token, ended);
      DeleteLease(token);
      SetTask(lease.workflowId, lease.taskId, ended);
      Emit([Event(kind, lease.workflowId, lease.taskId, lease.workerId, now)]);
    }

    // LeaseNext

    /** The schedulable workflows, oldest first. */
    method ListCandidates(ids: seq<string>) returns (candidates: seq<string>)
      requires Named()
      ensures candidates == Candidates(State(), ids)
    {
      hide *;
      candidates := [];
      var n := |ids|;
      CandidatesNone(State(), ids);
      while n > 0
        invariant 0 <= n <= |ids|
        invariant candidates == Candidates(State(), ids[n..])
      {
        n := n - 1;
        CandidatesStep(State(), ids, n);
        if ids[n] in workflows { SchedulableIs(ids[n]); }
        if ids[n] in workflows && workflows[ids[n]].state in {WorkflowPending, WorkflowRunning} {
          candidates := InsertCandidate(ids[n], candidates);
        }
      }
      assert ids[0..] == ids;
    }

    lemma SchedulableIs(i: string)
      requires i in workflows
      ensures Schedulable(State(), i) <==> workflows[i].state in {WorkflowPending, WorkflowRunning}
    {
      hide State;
    }

    method InsertCandidate(id: string, ids: seq<string>) returns (r: seq<string>)
      requires Named() && id in workflows
      ensures r == InsertByCreation(State(), id, ids)
      decreases |ids|
    {
      if |ids| == 0 || workflows[id].createdAt <= (if ids[0] in workflows then workflows[ids[0]].createdAt else 0) {
        return [id] + ids;
      }
      var rest := InsertCandidate(id, ids[1..]);
      return [ids[0]] + rest;
    }

    /** The first ready task of a workflow that matches the labels. */
    method FindOffered(w: Workflow, labels: Labels) returns (r: Option<string>)
      ensures r == FirstOffered(w.Value(), labels, 0)
    {
      for n := 0 to |w.order|
        invariant FirstOffered(w.Value(), labels, 0) == FirstOffered(w.Value(), labels, n)
      {
        var t := w.order[n];
        if t in w.runtime && t in w.tasks && w.runtime[t].state == Ready && LabelsMatch(labels, w.tasks[t].labels) {
          return Some(t);
        }
      }
      return None;
    }

    method GrantLocked(i: string, t: string, workerId: string, now: Time, token: string) returns (outcome: Outcome)
      requires Named() && HasTask(State(), i, t) && t in workflows[i].tasks && workerId in workers
      modifies this`leases, this`log, this`issued, workflows.Values, workers.Values
      ensures Named() && (State(), outcome) == Grant(old(State()), i, t, workerId, now, token)
    {
      hide State, Named, Occupied, Installed, Publish;
      var w := workflows[i];
      var lease := Lease(token, i, t, workerId, w.runtime[t].attempt + 1, now + LEASE_DURATION, w.tasks[t]);
      assert lease == NewLease(State(), i, t, workerId, now, token);
      hide NewLease, TaskAt;
      Occupy(lease);
      InstallLease(lease);
      Emit([Event(TaskLeased, i, t, workerId, now)]);
      return Granted(lease);
    }

    method Occupy(l: Lease)
      requires Named() && HasTask(State(), l.workflowId, l.taskId) && l.workerId in workers
      modifies workflows.Values, workers.Values
      ensures Named() && SameObjects(old(workflows), old(workers))
      ensures State() == Occupied(old(State()), l)
    {
      hide State, Named, Transition;
      var rt := workflows[l.workflowId].runtime[l.taskId];
      SetTask(l.workflowId, l.taskId,
              Transition(rt, Leased).(attempt := l.attempt, leaseToken := l.token, leaseOwner := l.workerId,
                  leaseUntil := Some(l.expiresAt)));
      TakeSlot(l.workerId);
    }

    method TakeSlot(workerId: string)
      requires Named() && workerId in workers
      modifies workers[workerId]
      ensures Named() && SameObjects(old(workflows), old(workers))
      ensures State() == old(State()).(workers := old(State()).workers[workerId :=
                           old(State()).workers[workerId].(activeLeases :=
                               old(State()).workers[workerId].activeLeases + 1)])
    {
      hide State;
      var worker := workers[workerId];
      worker.activeLeases := worker.activeLeases + 1;
      OneWorker(workerId);
      SameWorkflows();
    }

    method InstallLease(lease: Lease)
      requires Named()
      modifies this`leases, this`issued
      ensures Named() && SameObjects(old(workflows), old(workers))
      ensures State() == Installed(old(State()), lease)
    {
      leases := leases[lease.token := lease];
      issued := issued + {lease.token};
      assert State().workflows == old(State()).workflows && State().workers == old(State()).workers;
    }

    /** One iteration of the scan: recompute a candidate and hand out its first offer, if any. */
    method TryCandidate(i: string, workerId: string, now: Time, token: string) returns (outcome: Option<Outcome>)
      requires Valid() && i in workflows && workerId in workers
      modifies this`leases, this`log, this`issued, workflows.Values, workers.Values
      ensures
        var s1 := WithWorkflow(old(State()), i, Recomputed(old(State()).workflows[i], now));
        match FirstOffered(s1.workflows[i], old(State()).workers[workerId].labels, 0)
        case Some(t) => Named() && HasTask(s1, i, t) && t in s1.workflows[i].tasks && outcome.Some?
                        && (State(), outcome.value) == Grant(s1, i, t, workerId, now, token)
        case None => Valid() && outcome.None? && State() == s1 && SameObjects(old(workflows), old(workers))
    {
      hide Inv, State, Named, Grant, Recomputed, Shape, Offered, FirstOffered, WithWorkflow;
      ghost var s0 := State();
      ghost var s1 := WithWorkflow(s0, i, Recomputed(s0.workflows[i], now));
      WorkflowShaped(s0, i);
      SilentRecomputeKeepsInv(s0, i, now);
      RecomputeLocked(i, now);
      assert State() == s1;
      outcome := OfferCandidate(i, workerId, now, token);
    }

    method OfferCandidate(i: string, workerId: string, now: Time, token: string) returns (outcome: Option<Outcome>)
      requires Named() && i in workflows && workerId in workers
      modifies this`leases, this`log, this`issued, workflows.Values, workers.Values
      ensures
        match FirstOffered(old(State()).workflows[i], old(State()).workers[workerId].labels, 0)
        case Some(t) => Named() && HasTask(old(State()), i, t) && t in old(State()).workflows[i].tasks && outcome.Some?
                        && (State(), outcome.value) == Grant(old(State()), i, t, workerId, now, token)
        case None => Named() && outcome.None? && State() == old(State()) && SameObjects(old(workflows), old(workers))
    {
      hide State, Named, Grant, Offered, FirstOffered;
      var t := FindOffered(workflows[i], workers[workerId].labels);
      OfferedKnown(State().workflows[i], workers[workerId].labels);
      if t.None? { return None; }
      var granted := GrantLocked(i, t.value, workerId, now, token);
      return Some(granted);
    }

    method ScanCandidates(candidates: seq<string>, workerId: string, now: Time, token: string)
        returns (outcome: Outcome)
      requires Valid() && workerId in workers
      modifies this`leases, this`log, this`issued, workflows.Values, workers.Values
      ensures Named() && (State(), outcome) == Scan(old(State()), candidates, workerId, now, token)
    {
      hide Inv, State, Named, Grant, Recomputed, FirstOffered, Scan;
      ghost var s := State();
      assert candidates[0..] == candidates;
      for n := 0 to |candidates|
        invariant Valid() && SameObjects(old(workflows), old(workers))
        invariant Scan(s, candidates, workerId, now, token) == Scan(State(), candidates[n..], workerId, now, token)
      {
        assert candidates[n..][0] == candidates[n] && candidates[n..][1..] == candidates[n + 1..];
        ghost var s0 := State();
        ScanUnfolds(s0, candidates[n..], workerId, now, token);
        if candidates[n] in workflows {
          var served := TryCandidate(candidates[n], workerId, now, token);
          if served.Some? { return served.value; }
        }
      }
      ScanNothing(State(), candidates[|candidates|..], workerId, now, token);
      return NothingToDo;
    }

    method LeaseNext(workerId: string, now: Time, token: string, tokens: seq<string>, sweepIds: seq<string>,
        scanIds: seq<string>)
      returns (outcome: Outcome)
      requires Valid() && token != "" && token !in issued
      modifies this`leases, this`log, this`issued, workflows.Values, workers.Values
      ensures Valid() && (State(), outcome) == StoreModel.LeaseNext(old(State()), workerId, now, token, tokens,
          sweepIds, scanIds)
    {
      hide Inv, State, Named, Serve, StoreModel.Sweep;
      LeaseNextKeepsInv(State(), workerId, now, token, tokens, sweepIds, scanIds);
      SweepLocked(tokens, sweepIds, now);
      outcome := ServeLocked(workerId, now, token, scanIds);
    }

    lemma WorkerSeen(id: string)
      requires id in workers
      ensures var w := State().workers[id];
        w.lastHeartbeat == workers[id].lastHeartbeat && w.activeLeases == workers[id].activeLeases
            && w.capacity == workers[id].capacity
    {
    }

    lemma WellNamed()
      requires Valid()
      ensures Named()
    {
    }

    method ServeLocked(workerId: string, now: Time, token: string, scanIds: seq<string>) returns (outcome: Outcome)
      requires Valid()
      modifies this`leases, this`log, this`issued, workflows.Values, workers.Values
      ensures Named() && (State(), outcome) == Serve(old(State()), workerId, now, token, scanIds)
    {
      hide *;
      ghost var s := State();
      WellNamed();
      ServeIs(s, workerId, now, token, scanIds);
      if workerId !in workers { return WorkerNotFound; }
      var worker := workers[workerId];
      WorkerSeen(workerId);
      if now - worker.lastHeartbeat > WORKER_TTL { return HeartbeatExpired; }
      if worker.activeLeases >= worker.capacity { return NothingToDo; }
      var candidates := ListCandidates(scanIds);
      assert candidates == Candidates(s, scanIds);
      outcome := ScanCandidates(candidates, workerId, now, token);
    }

    // Workflows and workers

    method CreateWorkflow(spec: WorkflowSpec, key: string, id: string, now: Time)
      returns (outcome: Outcome, ghost valid: Result<seq<string>, SpecError>)
      requires Valid() && id !in workflows
      modifies this`workflows, this`idempotency, this`log
      ensures Valid() && workers == old(workers)
      ensures if outcome.Created? then id in workflows && fresh(workflows[id])
          && workflows == old(workflows)[id := workflows[id]]
              else workflows == old(workflows)
      ensures key == "" || key !in old(idempotency) ==> valid.Success? == ValidSpec(spec)
      ensures valid.Success? ==> ValidSpec(spec) && LeastTopological(GraphOf(spec.tasks), valid.value)
      ensures (State(), outcome) == StoreModel.CreateWorkflow(old(State()), spec, valid, key, id, now)
    {
      hide *;
      ghost var s := State();
      if key != "" && key in idempotency {
        CreateExisting(s, spec, Failure(NameRequired), key, id, now);
        return Existing(idempotency[key]), Failure(NameRequired);
      }
      var checked := ValidateSpec(spec);
      valid := checked;
      outcome := CreateChecked(spec, checked, key, id, now);
    }

    /** `CreateWorkflow` for a new key, once the specification has been checked. */
    method CreateChecked(spec: WorkflowSpec, checked: Result<seq<string>, SpecError>, key: string, id: string,
        now: Time) returns (outcome: Outcome)
      requires Valid() && id !in workflows && (key == "" || key !in idempotency)
      requires checked.Success? ==> ValidSpec(spec) && LeastTopological(GraphOf(spec.tasks), checked.value)
      modifies this`workflows, this`idempotency, this`log
      ensures Valid() && workers == old(workers)
      ensures if outcome.Created? then id in workflows && fresh(workflows[id])
          && workflows == old(workflows)[id := workflows[id]]
              else workflows == old(workflows)
      ensures (State(), outcome) == StoreModel.CreateWorkflow(old(State()), spec, checked, key, id, now)
    {
      hide Inv, State, Named, Recomputed, NewSnapshot, ValidSpec, LeastTopological, CreationEvents, Publish, GraphOf,
           StoreModel.CreateWorkflow, Added;
      ghost var s := State();
      CreateNew(s, spec, checked, key, id, now);
      CreateKeepsInv(s, spec, checked, key, id, now);
      if checked.Failure? { return Rejected(checked.error); }
      AddAndPublish(id, spec, checked.value, key, now);
      return Created(id);
    }

    method AddAndPublish(id: string, spec: WorkflowSpec, order: seq<string>, key: string, now: Time)
      requires Named() && id !in workflows && ValidSpec(spec) && LeastTopological(GraphOf(spec.tasks), order)
      modifies this`workflows, this`idempotency, this`log
      ensures Named() && workers == old(workers)
      ensures id in workflows && fresh(workflows[id]) && workflows == old(workflows)[id := workflows[id]]
      ensures var w := Recomputed(NewSnapshot(id, spec, order, now), now);
        State() == Publish(Added(old(State()), id, w, key), CreationEvents(id, w, now))
    {
      hide State, Named, Recomputed, NewSnapshot, ValidSpec, LeastTopological, CreationEvents, Publish, GraphOf;
      AddWorkflow(id, spec, order, key, now);
      PublishCreation(id, now);
    }

    method AddWorkflow(id: string, spec: WorkflowSpec, order: seq<string>, key: string, now: Time)
      requires Named() && id !in workflows && ValidSpec(spec) && LeastTopological(GraphOf(spec.tasks), order)
      modifies this`workflows, this`idempotency
      ensures Named() && workers == old(workers)
      ensures id in workflows && fresh(workflows[id]) && workflows == old(workflows)[id := workflows[id]]
      ensures State() == Added(old(State()), id, Recomputed(NewSnapshot(id, spec, order, now), now), key)
    {
      hide State, Named, Recomputed, NewSnapshot, ValidSpec, LeastTopological, GraphOf;
      var w := BuildWorkflow(id, spec, order, now);
      InstallWorkflow(w, key);
    }

    /** `NewWorkflow` followed by its first `Recompute`. */
    static method BuildWorkflow(id: string, spec: WorkflowSpec, order: seq<string>, now: Time) returns (w: Workflow)
      requires ValidSpec(spec) && LeastTopological(GraphOf(spec.tasks), order)
      ensures fresh(w) && w.id == id && w.Value() == Recomputed(NewSnapshot(id, spec, order, now), now)
    {
      hide Recomputed, ValidSpec, LeastTopological, Shape;
      w := new Workflow(id, spec, order, now);
      NewSnapshotHealthy(id, spec, order, now);
      Recompute.HealthyShape(w.Value());
      w.Recompute(now);
    }

    method InstallWorkflow(w: Workflow, key: string)
      requires Named() && w.id !in workflows
      modifies this`workflows, this`idempotency
      ensures Named() && workers == old(workers) && workflows == old(workflows)[w.id := w]
      ensures State() == Added(old(State()), w.id, w.Value(), key)
    {
      hide State, Workflow.Value;
      workflows := workflows[w.id := w];
      if key != "" { idempotency := idempotency[key := w.id]; }
      MoreWorkflows(w.id, w);
      SameWorkers();
    }

    method AddWorker(id: string, name: string, version: string, labels: Labels, capacity: int, now: Time)
      requires Named() && id !in workers
      modifies this`workers
      ensures Named() && workflows == old(workflows)
      ensures id in workers && fresh(workers[id]) && workers == old(workers)[id := workers[id]]
      ensures State() == old(State()).(workers := old(State()).workers[id :=
          WorkerValue(id, name, version, labels, capacity, 0, now, now)])
    {
      hide State, Worker.Value;
      var w := new Worker(id, name, version, labels, capacity, now);
      workers := workers[id := w];
      MoreWorkers(id, w);
      SameWorkflows();
    }

    method PublishCreation(id: string, now: Time)
      requires Named() && id in workflows
      modifies this`log
      ensures Named() && SameObjects(old(workflows), old(workers))
      ensures State() == Publish(old(State()), CreationEvents(id, old(State()).workflows[id], now))
    {
      hide State, Named, ReadyEvents, Publish, CreationEvents;
      ghost var s, w := State(), State().workflows[id];
      CreationPublished(s, id, w, now);
      Emit([Event(CreatedEvent, id, "", "", now)]);
      if workflows[id].state == WorkflowRunning {
        Emit([Event(StartedEvent, id, "", "", now)]);
      } else {
        Emit([]);
      }
      ghost var started := if w.state == WorkflowRunning then [Event(StartedEvent, id, "", "", now)] else [];
      assert State() == Publish(Publish(s, [Event(CreatedEvent, id, "", "", now)]), started);
      assert State().workflows[id] == w && |workflows[id].order| == |w.order|;
      EmitReady(id, now);
      assert State() == Publish(Publish(Publish(s, [Event(CreatedEvent, id, "", "", now)]), started),
          ReadyEvents(w, |w.order|, now));
      assert State() == Publish(s, CreationEvents(id, w, now));
    }

    lemma CreationPublished(s: StoreState, id: string, w: Snapshot, now: Time)
      ensures
        var started := if w.state == WorkflowRunning then [Event(StartedEvent, id, "", "", now)] else [];
        Publish(s, CreationEvents(id, w, now))
          == Publish(Publish(Publish(s, [Event(CreatedEvent, id, "", "", now)]), started),
              ReadyEvents(w, |w.order|, now))
      ensures
        var started := if w.state == WorkflowRunning then [Event(StartedEvent, id, "", "", now)] else [];
        Publish(Publish(s, [Event(CreatedEvent, id, "", "", now)]), started).workflows == s.workflows
    {
      hide ReadyEvents;
    }

    method RegisterWorker(name: string, version: string, labels: Labels, capacity0: int, id: string, now: Time)
      requires Valid() && id !in workers
      modifies this`workers, this`log
      ensures Valid() && workflows == old(workflows)
      ensures id in workers && fresh(workers[id]) && workers == old(workers)[id := workers[id]]
      ensures State() == StoreModel.RegisterWorker(old(State()), name, version, labels, capacity0, id, now)
    {
      hide Inv, State, Named, Publish;
      ghost var s := State();
      RegisterKeepsInv(s, name, version, labels, capacity0, id, now);
      var capacity := capacity0;
      if capacity <= 0 { capacity := 1; }
      if capacity > 256 { capacity := 256; }
      AddWorker(id, name, version, labels, capacity, now);
      Emit([Event(WorkerRegistered, "", "", id, now)]);
    }

    method HeartbeatWorker(id: string, now: Time) returns (outcome: Outcome)
      requires Valid()
      modifies this`log, workers.Values
      ensures Valid() && (State(), outcome) == StoreModel.HeartbeatWorker(old(State()), id, now)
    {
      hide Inv, State;
      ghost var s := State();
      HeartbeatKeepsInv(s, id, now);
      if id !in workers { return WorkerNotFound; }
      workers[id].lastHeartbeat := now;
      OneWorker(id);
      SameWorkflows();
      Emit([Event(WorkerHeartbeat, "", "", id, now)]);
      return Done;
    }

    // CancelWorkflow

    method CancelLocked(i: string, now: Time)
      requires Named() && i in workflows
      modifies workflows[i]
      ensures Named() && State() == WithWorkflow(old(State()), i, CancelledAt(old(workflows[i].Value()), now))
      ensures SameObjects(old(workflows), old(workers))
    {
      hide State, CancelledAt;
      workflows[i].Cancel(now);
      OneWorkflow(i);
      SameWorkers();
    }

    /** The lease loop of `CancelWorkflow`. */
    method DropWorkflowLeases(id: string, tokens: seq<string>)
      requires Named() && id in workflows
      modifies this`leases, workflows.Values, workers.Values
      ensures Named() && State() == DropLeases(old(State()), id, tokens)
      ensures SameObjects(old(workflows), old(workers))
    {
      hide State, Named, DropOne;
      ghost var s := State();
      assert tokens[..0] == [];
      assert DropLeases(s, id, []) == s;
      hide DropLeases;
      for n := 0 to |tokens|
        invariant Named() && State() == DropLeases(s, id, tokens[..n])
        invariant SameObjects(old(workflows), old(workers))
      {
        assert tokens[..n + 1][..n] == tokens[..n];
        DropLeasesLast(s, id, tokens[..n + 1]);
        if tokens[n] in leases && leases[tokens[n]].workflowId == id {
          DropLease(id, tokens[n]);
        }
      }
      assert tokens[..|tokens|] == tokens;
    }

    method DropLease(id: string, token: string)
      requires Named() && id in workflows && token in leases
      modifies this`leases, workflows.Values, workers.Values
      ensures Named() && State() == DropOne(old(State()), id, token)
      ensures SameObjects(old(workflows), old(workers))
    {
      hide State, Named, Detached, WithoutLease;
      var lease := leases[token];
      DeleteLease(token);
      Detach(id, lease.taskId, token);
    }

    method Detach(id: string, taskId: string, token: string)
      requires Named() && id in workflows
      modifies workflows.Values
      ensures Named() && State() == Detached(old(State()), id, taskId, token)
      ensures SameObjects(old(workflows), old(workers))
    {
      hide State, Named, WithTask;
      var w := workflows[id];
      if taskId in w.runtime && w.runtime[taskId].leaseToken == token {
        SetTask(id, taskId, ClearLease(w.runtime[taskId]));
      }
    }

    method CancelWorkflow(id: string, now: Time, tokens: seq<string>) returns (outcome: Outcome)
      requires Valid() && Enumerates(tokens, leases.Keys)
      modifies this`leases, this`log, workflows.Values, workers.Values
      ensures Valid() && (State(), outcome) == StoreModel.CancelWorkflow(old(State()), id, now, tokens)
    {
      hide Inv, State, Named, CancelLive, Enumerates;
      CancelKeepsInv(State(), id, now, tokens);
      if id !in workflows { return WorkflowNotFound; }
      if TerminalWorkflow(workflows[id].state) { return Done; }
      StopWorkflow(id, now, tokens);
      return Done;
    }

    method StopWorkflow(id: string, now: Time, tokens: seq<string>)
      requires Named() && id in workflows
      modifies this`leases, this`log, workflows.Values, workers.Values
      ensures Named() && State() == CancelLive(old(State()), id, now, tokens)
    {
      hide State, Named, CancelledAt, CancelEvents, DropLeases, CancelLive, Publish, WithWorkflow;
      ghost var s := State();
      ghost var w := s.workflows[id];
      CancelLiveIs(s, id, now, tokens);
      var events := ListCancelled(workflows[id], now);
      assert events == CancelEvents(w, |w.order|, now);
      CancelLocked(id, now);
      assert State() == WithWorkflow(s, id, CancelledAt(w, now));
      DropWorkflowLeases(id, tokens);
      Emit(events + [Event(CancelledEvent, id, "", "", now)]);
    }

    lemma CancelLiveIs(s: StoreState, id: string, now: Time, tokens: seq<string>)
      requires id in s.workflows
      ensures
        var w := s.workflows[id];
        CancelLive(s, id, now, tokens) ==
          Publish(DropLeases(WithWorkflow(s, id, CancelledAt(w, now)), id, tokens),
                  CancelEvents(w, |w.order|, now) + [Event(CancelledEvent, id, "", "", now)])
    {
    }

    /** The events for the tasks that a cancellation will stop, in task order. */
    static method ListCancelled(w: Workflow, now: Time) returns (events: seq<Event>)
      ensures events == CancelEvents(w.Value(), |w.order|, now)
    {
      events := [];
      for n := 0 to |w.order|
        invariant events == CancelEvents(w.Value(), n, now)
      {
        var t := w.order[n];
        if t in w.runtime && w.runtime[t].state != Succeeded && w.runtime[t].state != Failed
            && w.runtime[t].state != Cancelled {
          events := events + [Event(TaskCancelled, w.id, t, "", now)];
        }
      }
    }
  }

  lemma OfferedKnown(w: Snapshot, labels: Labels)
    ensures
      match FirstOffered(w, labels, 0)
      case Some(t) => t in w.runtime && t in w.tasks
      case None => true
  {
    FirstOfferedIs(w, labels, 0);
  }

  lemma ScanUnfolds(s: StoreState, candidates: seq<string>, workerId: string, now: Time, token: string)
    requires workerId in s.workers && candidates != []
    ensures candidates[0] !in s.workflows ==>
              Scan(s, candidates, workerId, now, token) == Scan(s, candidates[1..], workerId, now, token)
    ensures candidates[0] in s.workflows ==>
              var s1 := WithWorkflow(s, candidates[0], Recomputed(s.workflows[candidates[0]], now));
              var w := s1.workflows[candidates[0]];
              Scan(s, candidates, workerId, now, token) ==
                match FirstOffered(w, s.workers[workerId].labels, 0)
                case Some(t) => if t in w.runtime && t in w.tasks then Grant(s1, candidates[0], t, workerId, now, token)
                    else (s1, NothingToDo)
                case None => Scan(s1, candidates[1..], workerId, now, token)
  {
    hide Grant, Recomputed, FirstOffered;
  }

  lemma ServeIs(s: StoreState, workerId: string, now: Time, token: string, scanIds: seq<string>)
    ensures Serve(s, workerId, now, token, scanIds) ==
      if workerId !in s.workers then (s, WorkerNotFound)
      else if now - s.workers[workerId].lastHeartbeat > WORKER_TTL then (s, HeartbeatExpired)
      else if s.workers[workerId].activeLeases >= s.workers[workerId].capacity then (s, NothingToDo)
      else Scan(s, Candidates(s, scanIds), workerId, now, token)
  {
  }

  lemma ScanNothing(s: StoreState, candidates: seq<string>, workerId: string, now: Time, token: string)
    requires workerId in s.workers && candidates == []
    ensures Scan(s, candidates, workerId, now, token) == (s, NothingToDo)
  {
  }

  /** The workflow of a live lease can be recomputed once its task has ended. */
  lemma ShapeAfterCompletion(s: StoreState, token: string, exitCode: int, error: string, now: Time)
    requires Inv(s) && token in s.leases && LeaseLinked(s, token)
    requires s.leases[token].taskId in s.workflows[s.leases[token].workflowId].tasks
    ensures
      var l := s.leases[token];
      var rt := Ended(s, token, exitCode, error, now).0;
      l.workflowId in Released(s, token, rt).workflows && Shape(Released(s, token, rt).workflows[l.workflowId])
  {
    hide Inv, Ended, LeaseFields, Topological, Closed;
    WorkflowShaped(s, s.leases[token].workflowId);
    var l := s.leases[token];
    var rt := Ended(s, token, exitCode, error, now).0;
    assert Released(s, token, rt).workflows[l.workflowId] == Put(s.workflows[l.workflowId], l.taskId, rt);
  }

  lemma RecomputeOneIs(s: StoreState, i: string, now: Time)
    requires i in s.workflows
    ensures
      var w := Recomputed(s.workflows[i], now);
      && RecomputeOne(s, i, now) == Publish(WithWorkflow(s, i, w), TerminalEvents(w, s.workflows[i].state, now))
      && i in WithWorkflow(s, i, w).workflows && WithWorkflow(s, i, w).workflows[i] == w
  {
  }

  lemma EmptyInv(s: StoreState)
    requires s.workflows == map[] && s.workers == map[] && s.leases == map[]
    ensures Inv(s)
  {
    assert forall t :: t !in s.leases;
  }

  lemma CreateExisting(s: StoreState, spec: WorkflowSpec, valid: Result<seq<string>, SpecError>, key: string,
      id: string, now: Time)
    requires key != "" && key in s.idempotency
    ensures StoreModel.CreateWorkflow(s, spec, valid, key, id, now) == (s, Existing(s.idempotency[key]))
  {
  }

  lemma CandidatesNone(s: StoreState, ids: seq<string>)
    ensures Candidates(s, ids[|ids|..]) == []
  {
  }

  lemma CandidatesStep(s: StoreState, ids: seq<string>, n: nat)
    requires n < |ids|
    ensures Candidates(s, ids[n..]) ==
      if Schedulable(s, ids[n]) then InsertByCreation(s, ids[n], Candidates(s, ids[n + 1..]))
          else Candidates(s, ids[n + 1..])
    ensures Schedulable(s, ids[n]) ==> ids[n] in s.workflows
  {
    hide InsertByCreation;
    assert ids[n..][1..] == ids[n + 1..];
  }

  /** The answers of `CompleteLease` that change nothing. */
  lemma CompleteRefused(s: StoreState, token: string, exitCode: int, error: string, now: Time)
    requires Guard(s, token, now).None? && token in s.leases && LeaseLinked(s, token)
    requires s.leases[token].taskId in s.workflows[s.leases[token].workflowId].tasks
    ensures
      var rt := TaskAt(s, s.leases[token].workflowId, s.leases[token].taskId);
      && (rt.leaseToken != token ==> StoreModel.CompleteLease(s, token, exitCode, error, now) == (s, StaleLease))
      && (rt.leaseToken == token && rt.state != Leased && rt.state != Running ==>
            StoreModel.CompleteLease(s, token, exitCode, error, now) == (s, NotRunning))
  {
    hide Expire, Finish, Recomputed, Publish, ReadyEvents, TerminalEvents, WithoutLease;
  }

  lemma ReleasedParts(s: StoreState, token: string, rt: TaskRuntime)
    requires token in s.leases && LeaseLinked(s, token)
    ensures
      var l := s.leases[token];
      && HasTask(WithoutLease(s, token), l.workflowId, l.taskId)
      && Released(s, token, rt) == WithTask(WithoutLease(s, token), l.workflowId, l.taskId, rt)
      && l.workflowId in Released(s, token, rt).workflows
  {
    hide FreeSlot;
  }

  lemma PublishedWorkflows(s: StoreState, events: seq<Event>)
    ensures Publish(s, events).workflows == s.workflows
  {
  }

  lemma CreateNew(s: StoreState, spec: WorkflowSpec, valid: Result<seq<string>, SpecError>, key: string, id: string,
      now: Time)
    requires key == "" || key !in s.idempotency
    ensures valid.Failure? ==> StoreModel.CreateWorkflow(s, spec, valid, key, id, now) == (s, Rejected(valid.error))
    ensures valid.Success? ==>
      var w := Recomputed(NewSnapshot(id, spec, valid.value, now), now);
      StoreModel.CreateWorkflow(s, spec, valid, key, id, now)
          == (Publish(Added(s, id, w, key), CreationEvents(id, w, now)), Created(id))
  {
    hide Recomputed, NewSnapshot, Publish, Added, CreationEvents;
  }
}
