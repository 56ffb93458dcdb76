/** What each request on a lease or a worker is answered with, and what it changes, spelled out. */
module StoreAnswers {
  import opened WorkflowSpec
  import opened Runtime
  import opened StoreModel
  import opened StoreInvariant
  import opened StoreOperations
  import opened StoreRuns
  import StoreTiming
  import StoreTransitions

  /** A lease that is known and has not run out. */
  predicate Live(s: StoreState, token: string, now: Time) {
    token in s.leases && now < s.leases[token].expiresAt
  }

  /** Nothing but the record of one task, and the log, has changed. */
  ghost predicate OnlyTask(s: StoreState, s': StoreState, i: string, t: string, rt: TaskRuntime) {
    && HasTask(s, i, t)
    && s'.workflows == s.workflows[i := s.workflows[i].(runtime := s.workflows[i].runtime[t := rt])]
    && s'.workers == s.workers && s'.leases == s.leases && s'.idempotency == s.idempotency && s'.issued == s.issued
  }

  /** The answer to a token that is not live: unknown tokens change nothing, and a lease that has run out is closed and
      its task handed back. */
  ghost predicate Refuses(s: StoreState, r: (StoreState, Outcome), token: string) {
    if token !in s.leases then r == (s, LeaseNotFound)
    else
      var i, t := s.leases[token].workflowId, s.leases[token].taskId;
      && r.1 == LeaseExpiredError && r.0.leases == s.leases - {token}
      && HasTask(s, i, t) && HasTask(r.0, i, t) && TaskAt(r.0, i, t) == StoreTiming.HandedBack(TaskAt(s, i, t))
  }

  lemma GuardAnswers(s: StoreState, token: string, now: Time)
    requires Inv(s)
    ensures Guard(s, token, now).None? <==> Live(s, token, now)
    ensures Guard(s, token, now).Some? ==> Refuses(s, Guard(s, token, now).value, token)
  {
    hide Inv, Expire;
    if token in s.leases {
      StoreTiming.LeaseKnown(s, token);
      StoreTiming.ExpireOne(s, token, now, s.leases[token].workflowId, s.leases[token].taskId);
    }
  }

  /** A live lease names a task that is leased or running. */
  lemma LiveTask(s: StoreState, token: string)
    requires Inv(s) && token in s.leases
    ensures
      var i, t := s.leases[token].workflowId, s.leases[token].taskId;
      && HasTask(s, i, t) && TaskAt(s, i, t).leaseToken == token
      && (TaskAt(s, i, t).state.Leased? || TaskAt(s, i, t).state.Running?)
  {
    assert LeaseLinked(s, token);
  }

  /** Starting marks a leased task as running since now; starting it again changes nothing. */
  lemma StartAnswers(s: StoreState, token: string, now: Time)
    requires Inv(s)
    ensures !Live(s, token, now) ==> Refuses(s, StartLease(s, token, now), token)
    ensures Live(s, token, now) ==>
      var (s', outcome) := StartLease(s, token, now);
      var i, t := s.leases[token].workflowId, s.leases[token].taskId;
      && HasTask(s, i, t) && outcome == Done
      && (TaskAt(s, i, t).state.Leased? ==>
            OnlyTask(s, s', i, t, TaskAt(s, i, t).(state := Running, startedAt := Some(now))))
      && (!TaskAt(s, i, t).state.Leased? ==> s' == s)
  {
    hide Inv, Guard, Refuses;
    GuardAnswers(s, token, now);
    if token in s.leases { LiveTask(s, token); }
  }

  /** Renewing moves the expiry of the lease to twenty seconds from now, in the lease and in its task. */
  lemma RenewAnswers(s: StoreState, token: string, now: Time)
    requires Inv(s)
    ensures !Live(s, token, now) ==> Refuses(s, RenewLease(s, token, now), token)
    ensures Live(s, token, now) ==>
      var (s', outcome) := RenewLease(s, token, now);
      var l := s.leases[token].(expiresAt := now + 20_000_000_000);
      && HasTask(s, l.workflowId, l.taskId) && outcome == Granted(l)
      && OnlyTask(s, s'.(leases := s.leases), l.workflowId, l.taskId,
                  TaskAt(s, l.workflowId, l.taskId).(leaseUntil := Some(now + 20_000_000_000)))
      && s'.leases == s.leases[token := l] && s'.log == s.log
  {
    hide Inv, Guard, Refuses;
    GuardAnswers(s, token, now);
    if token in s.leases { LiveTask(s, token); }
  }

  // Log chunks

  /** A character in UTF-8. */
  function Utf8Char(c: char): seq<int> {
    var n := c as int;
    if n < 0x80 then [n]
    else if n < 0x800 then [0xC0 + n / 64, 0x80 + n % 64]
    else if n < 0x10000 then [0xE0 + n / 4096, 0x80 + n / 64 % 64, 0x80 + n % 64]
    else [0xF0 + n / 262144, 0x80 + n / 4096 % 64, 0x80 + n / 64 % 64, 0x80 + n % 64]
  }

  function Utf8(text: string): seq<int> {
    if text == [] then [] else Utf8Char(text[0]) + Utf8(text[1..])
  }

  /** The code of the first character of UTF-8 bytes. */
  function FirstCode(bytes: seq<int>): int {
    if |bytes| >= 1 && bytes[0] < 0x80 then bytes[0]
    else if |bytes| >= 2 && bytes[0] < 0xE0 then (bytes[0] - 0xC0) * 64 + (bytes[1] - 0x80)
    else if |bytes| >= 3 && bytes[0] < 0xF0 then (bytes[0] - 0xE0) * 4096 + (bytes[1] - 0x80) * 64 + (bytes[2] - 0x80)
    else if |bytes| >= 4 then
      (bytes[0] - 0xF0) * 262144 + (bytes[1] - 0x80) * 4096 + (bytes[2] - 0x80) * 64 + (bytes[3] - 0x80)
    else -1
  }

  lemma FirstCodeBack(c: char, rest: seq<int>)
    ensures FirstCode(Utf8Char(c) + rest) == c as int
    ensures forall k :: 0 <= k < |Utf8Char(c)| ==> 0 <= Utf8Char(c)[k] < 256
  {
    var n := c as int;
    assert n / 262144 * 262144 + n / 4096 % 64 * 4096 + n / 64 % 64 * 64 + n % 64 == n;
  }

  /** The size that is accounted for is the number of bytes of the text in UTF-8. */
  lemma {:induction false} SizeIsUtf8(text: string)
    ensures Utf8Length(text) == |Utf8(text)|
  {
    if text != [] { SizeIsUtf8(text[1..]); }
  }

  /** A chunk is refused for its stream, for more than 64 KiB, or for more than 32 MiB in all, in this order; otherwise
      its bytes are added to the output of the task. */
  lemma LogAnswers(s: StoreState, token: string, stream: string, text: string, now: Time)
    requires Inv(s)
    ensures !Live(s, token, now) ==> Refuses(s, AppendLog(s, token, stream, text, now), token)
    ensures Live(s, token, now) ==>
      var (s', outcome) := AppendLog(s, token, stream, text, now);
      var i, t := s.leases[token].workflowId, s.leases[token].taskId;
      && HasTask(s, i, t)
      && var rt, size := TaskAt(s, i, t), |Utf8(text)|;
         if stream != "stdout" && stream != "stderr" then (s', outcome) == (s, BadStream)
         else if size > 65_536 then (s', outcome) == (s, ChunkTooLarge)
         else if rt.outputBytes + size > 33_554_432 then (s', outcome) == (s, OutputLimitExceeded)
         else outcome == Done && OnlyTask(s, s', i, t, rt.(outputBytes := rt.outputBytes + size))
  {
    hide Inv, Guard, Refuses, Utf8, Utf8Length;
    GuardAnswers(s, token, now);
    SizeIsUtf8(text);
    if token in s.leases { LiveTask(s, token); }
  }

  // Completion

  /** The retry policy in force: missing numbers get defaults, and all are capped. */
  lemma PolicySpelled(p: RetryPolicy)
    ensures
      var q := NormalizeRetry(p);
      && q.maxAttempts == (if p.maxAttempts <= 0 then 1 else if p.maxAttempts > 100 then 100 else p.maxAttempts)
      && q.baseDelayMs == (if p.baseDelayMs <= 0 then 250
                           else if p.baseDelayMs > 3_600_000 then 3_600_000 else p.baseDelayMs)
      && var cap := if p.maxDelayMs <= 0 then 30_000 else if p.maxDelayMs > 86_400_000 then 86_400_000
          else p.maxDelayMs;
         q.maxDelayMs == if cap < q.baseDelayMs then q.baseDelayMs else cap
  {
  }

  /** The delay after an attempt: the base, doubled for each earlier attempt, up to the cap. */
  lemma DelaySpelled(p: RetryPolicy, attempt: int)
    requires attempt >= 1
    ensures
      var q := NormalizeRetry(p);
      Backoff(q, attempt) ==
        if q.baseDelayMs * Pow2(attempt - 1) < q.maxDelayMs then q.baseDelayMs * Pow2(attempt - 1) else q.maxDelayMs
  {
    hide Pow2;
  }

  /** The record of a completed attempt: the report, the time, and where it leads; a failure with attempts left waits
      for the backoff of the attempt. */
  function Reported(spec: TaskSpec, rt: TaskRuntime, exitCode: int, error: string, now: Time): TaskRuntime {
    var q := NormalizeRetry(spec.retry);
    var ended := rt.(leaseToken := "", leaseOwner := "", leaseUntil := None, exitCode := Some(exitCode), error := error,
                     finishedAt := Some(now), startedAt := if rt.state.Leased? then Some(now) else rt.startedAt);
    if exitCode == 0 && error == "" then ended.(state := Succeeded)
    else if rt.attempt < q.maxAttempts then
      ended.(state := RetryWait, nextRetryAt := Some(now + Backoff(q, rt.attempt) * 1_000_000))
    else ended.(state := Failed)
  }

  lemma FinishReports(spec: TaskSpec, rt: TaskRuntime, exitCode: int, error: string, now: Time)
    requires rt.state.Leased? || rt.state.Running?
    ensures
      var running := if rt.state == Leased then Transition(rt, Running).(startedAt := Some(now)) else rt;
      Finish(spec, running, exitCode, error, now).0 == Reported(spec, rt, exitCode, error, now)
  {
    hide NormalizeRetry, Backoff;
  }

  lemma CompletedRecord(s: StoreState, token: string, exitCode: int, error: string, now: Time)
    requires Inv(s) && token in s.leases && LeaseLinked(s, token)
    requires s.leases[token].taskId in s.workflows[s.leases[token].workflowId].tasks
    ensures
      var i, t := s.leases[token].workflowId, s.leases[token].taskId;
      var s1 := AfterCompletion(s, token, Ended(s, token, exitCode, error, now).0, now);
      && s1.leases == s.leases - {token} && HasTask(s1, i, t)
      && TaskAt(s1, i, t) == Reported(s.workflows[i].tasks[t], TaskAt(s, i, t), exitCode, error, now)
  {
    hide Inv, AfterCompletion, Finish, Reported, Due, StoreTransitions.FollowsEdges, StoreTransitions.CompletionTarget;
    var l := s.leases[token];
    var rt := Ended(s, token, exitCode, error, now).0;
    LiveTask(s, token);
    FinishReports(s.workflows[l.workflowId].tasks[l.taskId], TaskAt(s, l.workflowId, l.taskId), exitCode, error, now);
    EndedIs(s, token, exitCode, error, now);
    StoreTransitions.EndedHonoured(s, token, exitCode, error, now);
    StoreTransitions.CompletedTasks(s, Complete(token, exitCode, error), token, rt, now);
    CompletionLeases(s, token, rt, now);
  }

  lemma CompletionLeases(s: StoreState, token: string, rt: TaskRuntime, now: Time)
    requires token in s.leases && LeaseLinked(s, token)
    ensures AfterCompletion(s, token, rt, now).leases == s.leases - {token}
  {
    hide Recomputed;
  }

  /** A completion closes the lease and records the report. */
  lemma CompleteAnswers(s: StoreState, token: string, exitCode: int, error: string, now: Time)
    requires Inv(s)
    ensures !Live(s, token, now) ==> Refuses(s, CompleteLease(s, token, exitCode, error, now), token)
    ensures Live(s, token, now) ==>
      var (s', outcome) := CompleteLease(s, token, exitCode, error, now);
      var i, t := s.leases[token].workflowId, s.leases[token].taskId;
      && outcome == Done && s'.leases == s.leases - {token}
      && HasTask(s, i, t) && t in s.workflows[i].tasks && HasTask(s', i, t)
      && TaskAt(s', i, t) == Reported(s.workflows[i].tasks[t], TaskAt(s, i, t), exitCode, error, now)
  {
    hide Inv, Guard, Refuses, CompleteLease, Ended, Reported;
    GuardAnswers(s, token, now);
    if Live(s, token, now) {
      CompleteOutcome(s, token, exitCode, error, now);
      LinkedLease(s, token);
      CompleteShape(s, token, exitCode, error, now);
      LiveTask(s, token);
      CompletedRecord(s, token, exitCode, error, now);
    } else {
      CompleteGuarded(s, token, exitCode, error, now);
    }
  }

  // Workers

  /** Registering a worker gives it between one and 256 slots, all free, and a heartbeat. */
  lemma RegisterAnswers(s: StoreState, name: string, version: string, labels: Labels, capacity: int, id: string,
      now: Time)
    ensures
      var s' := RegisterWorker(s, name, version, labels, capacity, id, now);
      && s'.workers.Keys == s.workers.Keys + {id} &&
          (forall x :: x in s.workers && x != id ==> s'.workers[x] == s.workers[x])
      && s'.workers[id] == WorkerValue(id, name, version, labels,
           if capacity < 1 then 1 else if capacity <= 256 then capacity else 256, 0, now, now)
      && s'.workflows == s.workflows && s'.leases == s.leases
  {
  }

  /** A heartbeat renews the time of a known worker, and nothing else. */
  lemma HeartbeatAnswers(s: StoreState, id: string, now: Time)
    ensures
      var (s', outcome) := HeartbeatWorker(s, id, now);
      if id !in s.workers then (s', outcome) == (s, WorkerNotFound)
      else
        && outcome == Done && s'.workflows == s.workflows && s'.leases == s.leases
        && s'.workers.Keys == s.workers.Keys
        && (forall x :: x in s.workers && x != id ==> s'.workers[x] == s.workers[x])
        && s'.workers[id].lastHeartbeat == now && s'.workers[id] == s.workers[id].(lastHeartbeat := now)
  {
  }

  /** A poll is refused for an unknown worker and after 45 seconds without a heartbeat; a full worker gets nothing. In
      all three cases only the sweep has happened. */
  lemma PollAnswers(s: StoreState, workerId: string, now: Time, token: string,
                    tokens: seq<string>, sweepIds: seq<string>, scanIds: seq<string>)
    ensures
      var s1 := Sweep(s, tokens, sweepIds, now);
      var r := LeaseNext(s, workerId, now, token, tokens, sweepIds, scanIds);
      && (workerId !in s.workers ==> r == (s1, WorkerNotFound))
      && (workerId in s.workers ==>
            && workerId in s1.workers && s1.workers[workerId].lastHeartbeat == s.workers[workerId].lastHeartbeat
            && s1.workers[workerId].capacity == s.workers[workerId].capacity
            && (now - s.workers[workerId].lastHeartbeat > 45_000_000_000 ==> r == (s1, HeartbeatExpired))
            && (now - s.workers[workerId].lastHeartbeat > 45_000_000_000
                || s1.workers[workerId].activeLeases < s1.workers[workerId].capacity || r == (s1, NothingToDo)))
  {
    hide Sweep, Scan, Candidates;
    SweepFrame(s, tokens, sweepIds, now);
    if workerId in s.workers { SweepKeepsWorker(s, tokens, sweepIds, now, workerId); }
  }

  lemma SweepKeepsWorker(s: StoreState, tokens: seq<string>, ids: seq<string>, now: Time, x: string)
    requires x in s.workers
    ensures x in Sweep(s, tokens, ids, now).workers
    ensures
      var before, after := s.workers[x], Sweep(s, tokens, ids, now).workers[x];
      after == before.(activeLeases := after.activeLeases)
  {
    hide ExpireDue, RecomputeAll;
    ExpireDueKeepsWorker(s, tokens, now, x);
    RecomputeAllFrame(ExpireDue(s, tokens, now), ids, now);
  }

  lemma {:induction false} ExpireDueKeepsWorker(s: StoreState, tokens: seq<string>, now: Time, x: string)
    requires x in s.workers
    ensures x in ExpireDue(s, tokens, now).workers
    ensures
      var before, after := s.workers[x], ExpireDue(s, tokens, now).workers[x];
      after == before.(activeLeases := after.activeLeases)
  {
    hide Expire;
    if tokens != [] {
      ExpireDueKeepsWorker(s, tokens[..|tokens| - 1], now, x);
      var s1, k := ExpireDue(s, tokens[..|tokens| - 1], now), tokens[|tokens| - 1];
      if k in s1.leases { ExpireKeepsWorker(s1, k, now, x); }
    }
  }

  lemma ExpireKeepsWorker(s: StoreState, k: string, now: Time, x: string)
    requires k in s.leases && x in s.workers
    ensures x in Expire(s, k, now).workers
    ensures
      var before, after := s.workers[x], Expire(s, k, now).workers[x];
      after == before.(activeLeases := after.activeLeases)
  {
  }

  /** A task is offered to a worker that has every label the task asks for, with that value; a label that the worker
      lacks counts as empty. */
  lemma OfferSpelled(w: Snapshot, labels: Labels, t: string)
    requires t in w.runtime && t in w.tasks
    ensures Offered(w, labels, t) <==>
      && w.runtime[t].state.Ready?
      && forall k :: k in w.tasks[t].labels ==>
           if k in labels then labels[k] == w.tasks[t].labels[k] else w.tasks[t].labels[k] == ""
  {
  }

  /** A lease lasts twenty seconds, and a grant counts one more attempt. */
  lemma GrantAnswers(s: StoreState, i: string, t: string, workerId: string, now: Time, token: string)
    requires HasTask(s, i, t) && t in s.workflows[i].tasks && workerId in s.workers && TaskAt(s, i, t).state == Ready
    ensures
      var (s', outcome) := Grant(s, i, t, workerId, now, token);
      var rt, worker := TaskAt(s, i, t), s.workers[workerId];
      var l := Lease(token, i, t, workerId, rt.attempt + 1, now + 20_000_000_000, s.workflows[i].tasks[t]);
      && outcome == Granted(l) && s'.leases == s.leases[token := l]
      && HasTask(s', i, t)
      && TaskAt(s', i, t) == rt.(state := Leased, attempt := rt.attempt + 1, leaseToken := token,
          leaseOwner := workerId,
                                 leaseUntil := Some(now + 20_000_000_000))
      && s'.workers == s.workers[workerId := worker.(activeLeases := worker.activeLeases + 1)]
      && forall j, u :: HasTask(s, j, u) && (j != i || u != t)
          ==> HasTask(s', j, u) && TaskAt(s', j, u) == TaskAt(s, j, u)
  {
  }
}
