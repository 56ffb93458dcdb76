/** Idempotency keys: in any run, one key stands for one workflow. */
module StoreIdempotency {
  import opened Runtime
  import opened StoreModel
  import opened StoreInvariant
  import opened StoreOperations
  import opened StoreRuns
  import StoreFinality

  /** Every key stands for a workflow of its own, which exists. */
  ghost predicate KeysOk(s: StoreState) {
    && (forall k :: k in s.idempotency ==> k != "" && s.idempotency[k] in s.workflows)
    && (forall j, k :: j in s.idempotency && k in s.idempotency && j != k ==> s.idempotency[j] != s.idempotency[k])
  }

  // Only creation touches the keys

  lemma {:induction false} ScanKeys(s: StoreState, candidates: seq<string>, workerId: string, now: Time, token: string)
    requires workerId in s.workers
    ensures Scan(s, candidates, workerId, now, token).0.idempotency == s.idempotency
    decreases |candidates|
  {
    hide Recomputed, Offered;
    if candidates != [] && candidates[0] !in s.workflows {
      ScanKeys(s, candidates[1..], workerId, now, token);
    } else if candidates != [] {
      var id := candidates[0];
      ScanKeys(s.(workflows := s.workflows[id := Recomputed(s.workflows[id], now)]), candidates[1..], workerId, now,
          token);
    }
  }

  lemma PollKeys(s: StoreState, workerId: string, now: Time, token: string,
                 tokens: seq<string>, sweepIds: seq<string>, scanIds: seq<string>)
    ensures LeaseNext(s, workerId, now, token, tokens, sweepIds, scanIds).0.idempotency == s.idempotency
  {
    hide Scan, Candidates, Sweep;
    SweepFrame(s, tokens, sweepIds, now);
    var s1 := Sweep(s, tokens, sweepIds, now);
    if workerId in s1.workers { ScanKeys(s1, Candidates(s1, scanIds), workerId, now, token); }
  }

  lemma {:induction false} DropKeys(s: StoreState, id: string, tokens: seq<string>)
    ensures DropLeases(s, id, tokens).idempotency == s.idempotency
  {
    if tokens != [] { DropKeys(s, id, tokens[..|tokens| - 1]); }
  }

  lemma CancelKeys(s: StoreState, id: string, now: Time, tokens: seq<string>)
    ensures CancelWorkflow(s, id, now, tokens).0.idempotency == s.idempotency
  {
    hide DropLeases, CancelledAt;
    if id in s.workflows {
      DropKeys(s.(workflows := s.workflows[id := CancelledAt(s.workflows[id], now)]), id, tokens);
    }
  }

  lemma GuardKeys(s: StoreState, token: string, now: Time)
    ensures Guard(s, token, now).Some? ==> Guard(s, token, now).value.0.idempotency == s.idempotency
  {
    if token in s.leases { ExpireFrame(s, token, now); }
  }

  lemma LeaseKeys(s: StoreState, token: string, stream: string, text: string, now: Time)
    ensures StartLease(s, token, now).0.idempotency == s.idempotency
    ensures RenewLease(s, token, now).0.idempotency == s.idempotency
    ensures AppendLog(s, token, stream, text, now).0.idempotency == s.idempotency
  {
    hide Guard, Utf8Length;
    GuardKeys(s, token, now);
    GuardNone(s, token, now);
  }

  lemma GuardNone(s: StoreState, token: string, now: Time)
    ensures Guard(s, token, now).None? ==> token in s.leases
  {
  }

  lemma CompleteKeys(s: StoreState, token: string, exitCode: int, error: string, now: Time)
    ensures CompleteLease(s, token, exitCode, error, now).0.idempotency == s.idempotency
  {
    hide Guard, Finish, Recomputed, TerminalEvents, ReadyEvents;
    GuardKeys(s, token, now);
    GuardNone(s, token, now);
  }

  lemma OtherKeys(s: StoreState, c: Call)
    requires !c.op.Create?
    ensures Step(s, c).0.idempotency == s.idempotency
  {
    hide CancelWorkflow, LeaseNext, StartLease, RenewLease, AppendLog, CompleteLease, Sweep;
    match c.op
    case Create(spec, valid, key, id) =>
    case Cancel(id, tokens) => CancelKeys(s, id, c.now, tokens);
    case Register(name, version, labels, capacity, id) =>
    case Heartbeat(id) =>
    case Poll(workerId, token, tokens, sweepIds, scanIds) =>
        PollKeys(s, workerId, c.now, token, tokens, sweepIds, scanIds);
    case Start(token) => LeaseKeys(s, token, "", "", c.now);
    case Renew(token) => LeaseKeys(s, token, "", "", c.now);
    case Log(token, stream, text) => LeaseKeys(s, token, stream, text, c.now);
    case Complete(token, exitCode, error) => CompleteKeys(s, token, exitCode, error, c.now);
    case Tick(tokens, ids) => SweepFrame(s, tokens, ids, c.now);
  }

  /** What a creation does to keys and workflows, and what it answers. */
  lemma CreateKeys(s: StoreState, c: Call)
    requires c.op.Create?
    ensures
      var (s', outcome) := Step(s, c);
      var key := c.op.key;
      if key != "" && key in s.idempotency then s' == s && outcome == Existing(s.idempotency[key])
      else if c.op.valid.Failure? then s' == s && outcome == Rejected(c.op.valid.error)
      else
        && outcome == Created(c.op.id) && s'.workflows.Keys == s.workflows.Keys + {c.op.id}
        && s'.idempotency == if key != "" then s.idempotency[key := c.op.id] else s.idempotency
  {
    hide Recomputed, NewSnapshot, CreationEvents;
  }

  /** Keys are added, never changed. */
  ghost predicate KeysKept(s: StoreState, s': StoreState) {
    forall k :: k in s.idempotency ==> k in s'.idempotency && s'.idempotency[k] == s.idempotency[k]
  }

  lemma StepKeys(s: StoreState, c: Call)
    requires Inv(s) && KeysOk(s) && Enabled(s, c.op)
    ensures KeysOk(Step(s, c).0) && KeysKept(s, Step(s, c).0)
  {
    hide Inv, Step, KeysOk, KeysKept;
    WorkflowsStay(s, c);
    var s' := Step(s, c).0;
    if c.op.Create? { CreateKeys(s, c); EnabledId(s, c.op); } else { OtherKeys(s, c); }
    if s'.idempotency == s.idempotency { SameKeys(s, s'); } else { NewKey(s, s', c.op.key, c.op.id); }
  }

  lemma SameKeys(s: StoreState, s': StoreState)
    requires KeysOk(s) && s'.idempotency == s.idempotency && s.workflows.Keys <= s'.workflows.Keys
    ensures KeysOk(s') && KeysKept(s, s')
  {
  }

  lemma NewKey(s: StoreState, s': StoreState, key: string, id: string)
    requires KeysOk(s) && key != "" && key !in s.idempotency && s'.idempotency == s.idempotency[key := id]
    requires s.workflows.Keys <= s'.workflows.Keys && id in s'.workflows && id !in s.workflows
    ensures KeysOk(s') && KeysKept(s, s')
  {
  }

  lemma EnabledId(s: StoreState, op: Op)
    requires Enabled(s, op) && op.Create?
    ensures op.id !in s.workflows
  {
  }

  lemma WorkflowsStay(s: StoreState, c: Call)
    requires Inv(s) && Enabled(s, c.op)
    ensures s.workflows.Keys <= Step(s, c).0.workflows.Keys
  {
    hide Inv, Step, StoreFinality.TokensFinal, StoreFinality.TasksFinal;
    StoreFinality.StepFinal(s, c);
  }

  lemma {:induction false} RunKeys(run: seq<Call>)
    requires Legal(run)
    ensures KeysOk(After(run))
  {
    hide Step, Enabled, Inv;
    if run != [] {
      var init := run[..|run| - 1];
      RunKeys(init);
      RunInv(init);
      StepKeys(After(init), run[|run| - 1]);
    }
  }

  lemma {:induction false} RunKeysKept(run: seq<Call>, n: nat)
    requires Legal(run) && n <= |run|
    ensures KeysKept(After(run[..n]), After(run))
    decreases |run|
  {
    hide Step, Enabled, Inv;
    if n == |run| {
      assert run[..n] == run;
    } else {
      var init := run[..|run| - 1];
      RunKeysKept(init, n);
      assert init[..n] == run[..n];
      RunKeys(init);
      RunInv(init);
      StepKeys(After(init), run[|run| - 1]);
    }
  }

  /** What the client sees: the id that a request was answered with. */
  function AnswerId(outcome: Outcome): Option<string> {
    match outcome
    case Created(id) => Some(id)
    case Existing(id) => Some(id)
    case _ => None
  }

  /** Once a request with a key was answered with a workflow, every later request with that key is answered with the
      same workflow, which exists, and changes nothing, whatever specification it carries. */
  lemma CreatedOnce(run: seq<Call>, i: nat, j: nat)
    requires Legal(run) && i < j < |run| && run[i].op.Create? && run[j].op.Create?
    requires run[i].op.key == run[j].op.key != "" && AnswerId(Step(After(run[..i]), run[i]).1).Some?
    ensures
      var id := AnswerId(Step(After(run[..i]), run[i]).1).value;
      && id in After(run[..j]).workflows
      && Step(After(run[..j]), run[j]) == (After(run[..j]), Existing(id))
  {
    hide Step, Legal, After, Inv;
    var key := run[i].op.key;
    StoreFinality.LegalPrefix(run, j);
    StoreFinality.AfterNext(run, i);
    CreateKeys(After(run[..i]), run[i]);
    assert key in After(run[..i + 1]).idempotency;
    assert run[..j][..i + 1] == run[..i + 1];
    RunKeysKept(run[..j], i + 1);
    RunKeys(run[..j]);
    CreateKeys(After(run[..j]), run[j]);
  }
}
