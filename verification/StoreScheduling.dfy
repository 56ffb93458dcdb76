/** `LeaseNext` wastes no slot and serves the oldest workflow first. */
module StoreScheduling {
  import opened Graph
  import opened Runtime
  import opened Recompute
  import opened StoreModel
  import opened StoreInvariant
  import opened StoreOperations

  /** Recomputing workflow `i` again would change nothing. */
  ghost predicate SettledAt(s: StoreState, i: string, now: Time) {
    i in s.workflows && Recomputed(s.workflows[i], now) == s.workflows[i]
  }

  ghost predicate AllSettled(s: StoreState, now: Time) {
    forall i :: i in s.workflows ==> SettledAt(s, i, now)
  }

  lemma {:induction false} RecomputeAllSettles(s: StoreState, ids: seq<string>, now: Time)
    requires Inv(s)
    ensures forall i :: i in ids && i in s.workflows ==> SettledAt(RecomputeAll(s, ids, now), i, now)
  {
    hide Inv, Recomputed;
    if ids != [] {
      var init := ids[..|ids| - 1];
      var id := ids[|ids| - 1];
      var s1 := RecomputeAll(s, init, now);
      RecomputeAllSettles(s, init, now);
      RecomputeAllKeepsInv(s, init, now);
      RecomputeAllFrame(s, init, now);
      if id in s1.workflows {
        WorkflowShaped(s1, id);
        RecomputeFixpoint(s1.workflows[id], now);
      }
      forall i | i in ids && i in s.workflows ensures SettledAt(RecomputeAll(s, ids, now), i, now) {
        assert i == id || i in init;
      }
    }
  }

  /** A sweep that visits every workflow leaves all of them at a fixpoint. */
  lemma SweepSettles(s: StoreState, tokens: seq<string>, ids: seq<string>, now: Time)
    requires Inv(s) && Enumerates(ids, s.workflows.Keys)
    ensures AllSettled(Sweep(s, tokens, ids, now), now)
  {
    hide Inv;
    var s1 := ExpireDue(s, tokens, now);
    ExpireDueKeepsInv(s, tokens, now);
    ExpireDueFrame(s, tokens, now);
    RecomputeAllSettles(s1, ids, now);
    RecomputeAllFrame(s1, ids, now);
    forall i | i in Sweep(s, tokens, ids, now).workflows ensures SettledAt(Sweep(s, tokens, ids, now), i, now) {
      assert i in Elements(ids);
    }
  }

  // The candidate list

  ghost predicate ByCreation(s: StoreState, ids: seq<string>) {
    forall a, b :: 0 <= a < b < |ids| ==> CreatedAt(s, ids[a]) <= CreatedAt(s, ids[b])
  }

  lemma {:induction false} InsertByCreationSorted(s: StoreState, id: string, ids: seq<string>)
    requires ByCreation(s, ids)
    ensures ByCreation(s, InsertByCreation(s, id, ids))
  {
    if ids == [] || CreatedAt(s, id) <= CreatedAt(s, ids[0]) {
    } else {
      InsertByCreationSorted(s, id, ids[1..]);
      var t := InsertByCreation(s, id, ids[1..]);
      forall b | 0 <= b < |t| ensures CreatedAt(s, ids[0]) <= CreatedAt(s, t[b]) {
        assert t[b] in multiset(t);
        assert t[b] in multiset(ids[1..]) + multiset{id};
        assert t[b] == id || t[b] in ids[1..];
      }
    }
  }

  lemma {:induction false} CandidatesAre(s: StoreState, ids: seq<string>)
    ensures ByCreation(s, Candidates(s, ids))
    ensures forall i :: i in Candidates(s, ids) <==> i in ids && Schedulable(s, i)
  {
    if ids != [] {
      CandidatesAre(s, ids[1..]);
      var rest := Candidates(s, ids[1..]);
      if Schedulable(s, ids[0]) {
        InsertByCreationSorted(s, ids[0], rest);
        var r := InsertByCreation(s, ids[0], rest);
        forall i ensures i in r <==> i == ids[0] || i in rest {
          assert i in r <==> i in multiset(r);
          assert i in rest <==> i in multiset(rest);
        }
      }
      assert forall i :: i in ids <==> i == ids[0] || i in ids[1..];
    }
  }

  /** Workflow `i` has a task that could be handed out. */
  ghost predicate HasOffer(s: StoreState, i: string, labels: Labels) {
    i in s.workflows && exists t :: Offered(s.workflows[i], labels, t)
  }

  /** `t` is the first task in the order of workflow `i` that could be handed out. */
  ghost predicate FirstOffer(s: StoreState, i: string, labels: Labels, t: string) {
    && i in s.workflows && Offered(s.workflows[i], labels, t)
    && exists k :: 0 <= k < |s.workflows[i].order| && s.workflows[i].order[k] == t
         && forall j :: 0 <= j < k ==> !Offered(s.workflows[i], labels, s.workflows[i].order[j])
  }

  lemma NoOffer(s: StoreState, i: string, labels: Labels)
    requires i in s.workflows && Shape(s.workflows[i]) && FirstOffered(s.workflows[i], labels, 0).None?
    ensures !HasOffer(s, i, labels)
  {
    var w := s.workflows[i];
    FirstOfferedIs(w, labels, 0);
    forall t | Offered(w, labels, t) ensures false {
      var k := Recompute.Listed(w, t);
    }
  }

  lemma SettledMeans(s: StoreState, id: string, now: Time)
    requires id in s.workflows && SettledAt(s, id, now)
    ensures Recomputed(s.workflows[id], now) == s.workflows[id]
  {
  }

  /** On settled workflows the scan stops at the first candidate with an offer. */
  lemma {:induction false} ScanPicks(s: StoreState, candidates: seq<string>, workerId: string, now: Time, token: string)
    requires Inv(s) && AllSettled(s, now) && workerId in s.workers
    requires forall i :: i in candidates ==> i in s.workflows
    ensures
      var labels := s.workers[workerId].labels;
      var r := Scan(s, candidates, workerId, now, token);
      || (r == (s, NothingToDo) && forall i :: i in candidates ==> !HasOffer(s, i, labels))
      || exists k, t :: Picks(s, candidates, labels, k, t) && r == Grant(s, candidates[k], t, workerId, now, token)
    decreases |candidates|
  {
    hide Inv, Grant, Offered, HasOffer, Recomputed;
    var labels := s.workers[workerId].labels;
    if candidates != [] {
      var id := candidates[0];
      assert SettledAt(s, id, now);
      var w := s.workflows[id];
      SettledMeans(s, id, now);
      assert s.(workflows := s.workflows[id := w]) == s;
      WorkflowShaped(s, id);
      FirstOfferedIs(w, labels, 0);
      match FirstOffered(w, labels, 0)
      case Some(t) =>
        OfferedIs(w, labels, t);
        assert Picks(s, candidates, labels, 0, t);
        assert Scan(s, candidates, workerId, now, token) == Grant(s, id, t, workerId, now, token);
      case None =>
        NoOffer(s, id, labels);
        ScanPicks(s, candidates[1..], workerId, now, token);
        assert Scan(s, candidates, workerId, now, token) == Scan(s, candidates[1..], workerId, now, token);
        if k, t :| Picks(s, candidates[1..], labels, k, t)
                   && Scan(s, candidates[1..], workerId, now, token)
                       == Grant(s, candidates[1..][k], t, workerId, now, token) {
          PicksLater(s, candidates, labels, k, t);
        }
    }
  }

  lemma PicksLater(s: StoreState, candidates: seq<string>, labels: Labels, k: int, t: string)
    requires candidates != [] && !HasOffer(s, candidates[0], labels) && Picks(s, candidates[1..], labels, k, t)
    ensures Picks(s, candidates, labels, k + 1, t) && candidates[1..][k] == candidates[k + 1]
  {
    hide HasOffer, FirstOffer;
  }

  ghost predicate Picks(s: StoreState, candidates: seq<string>, labels: Labels, k: int, t: string) {
    && 0 <= k < |candidates|
    && (forall j :: 0 <= j < k ==> !HasOffer(s, candidates[j], labels))
    && FirstOffer(s, candidates[k], labels, t)
    && HasTask(s, candidates[k], t) && t in s.workflows[candidates[k]].tasks
  }

  /** What a poll by a live, registered worker with a free slot does. */
  lemma LeaseNextServes(s: StoreState, workerId: string, now: Time, token: string,
                        tokens: seq<string>, sweepIds: seq<string>, scanIds: seq<string>)
    requires Inv(s) && Enumerates(sweepIds, s.workflows.Keys) && Enumerates(scanIds, s.workflows.Keys)
    ensures
      var s1 := Sweep(s, tokens, sweepIds, now);
      var (s', outcome) := LeaseNext(s, workerId, now, token, tokens, sweepIds, scanIds);
      workerId in s1.workers && now - s1.workers[workerId].lastHeartbeat <= WORKER_TTL ==>
        var worker := s1.workers[workerId];
        if worker.activeLeases >= worker.capacity ||
            (forall i :: Schedulable(s1, i) ==> !HasOffer(s1, i, worker.labels)) then
          (s', outcome) == (s1, NothingToDo)
        else
          exists i, t :: Serves(s1, worker.labels, i, t) && (s', outcome) == Grant(s1, i, t, workerId, now, token)
  {
    hide Inv, Scan, Candidates, Sweep, Grant, HasOffer, FirstOffer;
    var s1 := Sweep(s, tokens, sweepIds, now);
    if workerId in s1.workers {
      SweepKeepsInv(s, tokens, sweepIds, now);
      SweepSettles(s, tokens, sweepIds, now);
      SweepFrame(s, tokens, sweepIds, now);
      CandidatesAre(s1, scanIds);
      var candidates := Candidates(s1, scanIds);
      var labels := s1.workers[workerId].labels;
      ScanPicks(s1, candidates, workerId, now, token);
      forall i | Schedulable(s1, i) ensures i in candidates { assert i in Elements(scanIds); }
      if k, t :| Picks(s1, candidates, labels, k, t)
                 && Scan(s1, candidates, workerId, now, token) == Grant(s1, candidates[k], t, workerId, now, token) {
        PickServes(s1, candidates, labels, k, t);
        assert HasOffer(s1, candidates[k], labels) by { OfferIs(s1, candidates[k], labels, t); }
      }
    }
  }

  lemma OfferIs(s: StoreState, i: string, labels: Labels, t: string)
    requires FirstOffer(s, i, labels, t)
    ensures HasOffer(s, i, labels)
  {
  }

  /** The task handed out: first in its order, in an oldest workflow with an offer, and with every dependency done. */
  ghost predicate Serves(s: StoreState, labels: Labels, i: string, t: string) {
    && Schedulable(s, i) && FirstOffer(s, i, labels, t)
    && HasTask(s, i, t) && t in s.workflows[i].tasks
    && (forall j :: Schedulable(s, j) && HasOffer(s, j, labels) ==>
          s.workflows[i].createdAt <= s.workflows[j].createdAt)
    && AllSucceeded(s.workflows[i].tasks[t].dependsOn, s.workflows[i].runtime)
  }

  lemma PickServes(s: StoreState, candidates: seq<string>, labels: Labels, k: int, t: string)
    requires Inv(s) && ByCreation(s, candidates) && Picks(s, candidates, labels, k, t)
    requires forall i :: i in candidates <==> Schedulable(s, i)
    ensures Serves(s, labels, candidates[k], t)
  {
    hide HasOffer, FlowOk;
    var i := candidates[k];
    forall j | Schedulable(s, j) && HasOffer(s, j, labels)
      ensures s.workflows[i].createdAt <= s.workflows[j].createdAt
    {
      var n :| 0 <= n < |candidates| && candidates[n] == j;
      assert n >= k;
    }
    WorkflowShaped(s, i);
    assert s.workflows[i].runtime[t].state == Ready;
    assert i in candidates;
    assert DependencySafe(s.workflows[i]);
  }
}
