/** The delta debugger of the chaos laboratory: `_ddmin_actions`. */
module Shrinker {

  datatype Action = Action(kind: string, workflowId: string, taskId: string, workerId: string, token: string,
                           amount: int, text: string)

  /** One attempt: `width` actions from `start` on were left out. */
  datatype Attempt = Attempt(start: nat, width: nat, before: nat, after: nat, accepted: bool)

  /** `t` is `s` with some elements left out: element `i` of `t` stands at position `at[i]` of `s`. */
  ghost predicate Embeds<T>(t: seq<T>, s: seq<T>, at: seq<nat>) {
    && |at| == |t|
    && (forall i :: 0 <= i < |t| ==> at[i] < |s| && t[i] == s[at[i]])
    && (forall i, j :: 0 <= i < j < |t| ==> at[i] < at[j])
  }

  ghost predicate Subsequence<T>(t: seq<T>, s: seq<T>) {
    exists at :: Embeds(t, s, at)
  }

  /** Leaving out `width` elements from `start` on. */
  function Without<T>(s: seq<T>, start: nat, width: nat): seq<T>
    requires start <= |s|
  {
    s[..start] + s[(if start + width <= |s| then start + width else |s|)..]
  }

  /** No single element can be left out. */
  ghost predicate OneMinimal<T>(s: seq<T>, fails: seq<T> -> bool) {
    forall k :: 0 <= k < |s| ==> !fails(s[..k] + s[k + 1..])
  }

  lemma SubsequenceRefl<T>(s: seq<T>)
    ensures Subsequence(s, s)
  {
    assert Embeds(s, s, seq(|s|, i requires 0 <= i => i));
  }

  lemma SubsequenceTransitive<T>(u: seq<T>, t: seq<T>, s: seq<T>)
    requires Subsequence(u, t) && Subsequence(t, s)
    ensures Subsequence(u, s)
  {
    var inner :| Embeds(u, t, inner);
    var outer :| Embeds(t, s, outer);
    assert Embeds(u, s, seq(|u|, i requires 0 <= i < |u| => outer[inner[i]]));
  }

  lemma WithoutSubsequence<T>(s: seq<T>, start: nat, width: nat)
    requires start <= |s|
    ensures Subsequence(Without(s, start, width), s)
    ensures start < |s| && width > 0 ==> |Without(s, start, width)| < |s|
  {
    var resume := if start + width <= |s| then start + width else |s|;
    var t := Without(s, start, width);
    assert Embeds(t, s, seq(|t|, i requires 0 <= i < |t| => if i < start then i else resume + i - start));
  }

  /** The size of a chunk: at least one action, never all of them, and one at full granularity. */
  function ChunkSize(count: nat, granularity: nat): (r: nat)
    requires count >= 2 && granularity >= 2
    ensures 1 <= r < count
    ensures granularity >= count ==> r == 1
  {
    ChunkBounds(count, granularity);
    var chunk := (count + granularity - 1) / granularity;
    if chunk > 1 then chunk else 1
  }

  lemma ChunkBounds(count: nat, granularity: nat)
    requires count >= 2 && granularity >= 2
    ensures (count + granularity - 1) / granularity < count
    ensures granularity >= count ==> (count + granularity - 1) / granularity == 1
  {
    ProductBound(count, granularity);
    QuotientBelow(count + granularity - 1, granularity, count);
    if granularity >= count { QuotientOne(count + granularity - 1, granularity); }
  }

  lemma ProductBound(count: nat, granularity: nat)
    requires count >= 2 && granularity >= 2
    ensures count + granularity - 1 < granularity * count
  {
    assert granularity * count == (granularity - 1) * (count - 1) + granularity + count - 1;
    Product(granularity - 1, count - 1);
  }

  lemma Product(a: int, b: int)
    requires a >= 1 && b >= 1
    ensures a * b >= 1
  {
  }

  lemma QuotientBelow(n: nat, g: nat, c: nat)
    requires g >= 1 && n < g * c
    ensures n / g < c
  {
  }

  lemma QuotientOne(n: nat, g: nat)
    requires 1 <= g <= n < g + g
    ensures n / g == 1
  {
  }

  /** None of the first `n` elements can be left out alone. */
  ghost predicate Needed<T>(s: seq<T>, n: nat, fails: seq<T> -> bool) {
    forall k :: 0 <= k < n && k < |s| ==> !fails(s[..k] + s[k + 1..])
  }

  /** One pass over the chunks: the first that can go is taken out. */
  method RemoveChunk(actions: seq<Action>, chunk: nat, fails: seq<Action> -> bool)
    returns (removed: bool, result: seq<Action>, passes: seq<Attempt>)
    requires 1 <= chunk < |actions|
    ensures !removed ==> result == actions && (chunk == 1 ==> OneMinimal(actions, fails))
    ensures removed ==> fails(result) && Subsequence(result, actions) && 1 <= |result| < |actions|
    ensures removed <==> exists p :: p in passes && p.accepted
  {
    passes := [];
    var start := 0;
    while start < |actions|
      invariant start >= 0
      invariant chunk == 1 ==> Needed(actions, start, fails)
      invariant forall p :: p in passes ==> !p.accepted
      decreases |actions| - start
    {
      var candidate := Without(actions, start, chunk);
      if chunk == 1 { assert candidate == actions[..start] + actions[start + 1..]; }
      var accepted := fails(candidate);
      passes := passes + [Attempt(start, chunk, |actions|, |candidate|, accepted)];
      if accepted {
        WithoutSubsequence(actions, start, chunk);
        assert passes[|passes| - 1].accepted;
        return true, candidate, passes;
      }
      start := start + chunk;
    }
    return false, actions, passes;
  }

  /** Shrinks a failing action list until it has one action or is 1-minimal. */
  method Ddmin(scenario: seq<Action>, fails: seq<Action> -> bool) returns (actions: seq<Action>, passes: seq<Attempt>)
    ensures Subsequence(actions, scenario)
    ensures fails(scenario) ==> fails(actions)
    ensures |scenario| >= 1 ==> |actions| >= 1
    ensures |actions| <= 1 || OneMinimal(actions, fails)
    ensures (exists p :: p in passes && p.accepted) <==> |actions| < |scenario|
  {
    actions, passes := scenario, [];
    SubsequenceRefl(scenario);
    if |actions| <= 1 { return; }
    var granularity := 2;
    while |actions| >= 2
      invariant Subsequence(actions, scenario) && (fails(scenario) ==> fails(actions))
      invariant 1 <= |actions| <= |scenario| && granularity >= 2
      invariant (exists p :: p in passes && p.accepted) <==> |actions| < |scenario|
      decreases |actions|, |actions| - granularity
    {
      var chunk := ChunkSize(|actions|, granularity);
      var removed, result, tried := RemoveChunk(actions, chunk, fails);
      passes := passes + tried;
      if removed {
        SubsequenceTransitive(result, actions, scenario);
        actions := result;
        granularity := if granularity - 1 > 2 then granularity - 1 else 2;
      } else {
        if granularity >= |actions| {
          break;
        }
        granularity := if granularity * 2 < |actions| then granularity * 2 else |actions|;
      }
    }
  }
}
