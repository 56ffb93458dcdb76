/** Workflow specifications: retry policies and `ValidateSpec`. */
module WorkflowSpec {
  import opened StringOrder
  import opened Graph
  import opened Kahn

  datatype Result<+T, +E> = Success(value: T) | Failure(error: E)

  const MAX_RETRY_BASE_DELAY_MS := 3_600_000
  const MAX_RETRY_DELAY_MS := 86_400_000

  datatype RetryPolicy = RetryPolicy(maxAttempts: int, baseDelayMs: int, maxDelayMs: int)

  datatype TaskSpec = TaskSpec(
    id: string,
    dependsOn: seq<string>,
    command: seq<string>,
    env: map<string, string>,
    timeoutSeconds: int,
    retry: RetryPolicy,
    labels: map<string, string>)

  datatype WorkflowSpec = WorkflowSpec(name: string, metadata: map<string, string>, tasks: seq<TaskSpec>)

  datatype SpecError =
    | NameRequired
    | NameTooLong
    | InvalidMetadata
    | NoTasks
    | TooManyTasks
    | InvalidTask(index: nat)
    | DuplicateTask(id: string)
    | SelfDependency(id: string)
    | RepeatedDependency(id: string, dep: string)
    | UnknownDependency(id: string, dep: string)
    | DependencyCycle

  function Min(a: int, b: int): int { if a < b then a else b }

  function NormalizeRetry(p: RetryPolicy): RetryPolicy {
    var attempts := if p.maxAttempts <= 0 then 1 else p.maxAttempts;
    var base := Min(if p.baseDelayMs <= 0 then 250 else p.baseDelayMs, MAX_RETRY_BASE_DELAY_MS);
    var cap := Min(if p.maxDelayMs <= 0 then 30_000 else p.maxDelayMs, MAX_RETRY_DELAY_MS);
    RetryPolicy(Min(attempts, 100), base, if cap < base then base else cap)
  }

  function Pow2(n: nat): nat { if n == 0 then 1 else 2 * Pow2(n - 1) }

  /** Exponential backoff in milliseconds: the base delay doubled for every earlier attempt, capped. */
  function Backoff(p: RetryPolicy, attempt: int): int {
    var q := NormalizeRetry(p);
    Min(q.baseDelayMs * Pow2(if attempt < 1 then 0 else attempt - 1), q.maxDelayMs)
  }

  method RetryDelay(p: RetryPolicy, attempt0: int) returns (ms: int)
    ensures ms == Backoff(p, attempt0)
    ensures 0 < ms <= MAX_RETRY_DELAY_MS
  {
    var q := NormalizeRetry(p);
    var attempt := if attempt0 < 1 then 1 else attempt0;
    ms := q.baseDelayMs;
    var i := 1;
    while i < attempt
      invariant 1 <= i <= attempt
      invariant ms == Min(q.baseDelayMs * Pow2(i - 1), q.maxDelayMs)
      invariant 0 < ms <= q.maxDelayMs
    {
      Doubling(q.baseDelayMs, i - 1, attempt - 1);
      if ms >= q.maxDelayMs {
        ms := q.maxDelayMs;
        break;
      }
      ms := ms * 2;
      if ms > q.maxDelayMs {
        ms := q.maxDelayMs;
      }
      i := i + 1;
    }
  }

  lemma {:induction false} Doubling(base: int, i: nat, n: nat)
    requires base > 0 && i <= n
    ensures base * Pow2(i) <= base * Pow2(n)
    ensures base * Pow2(i + 1) == 2 * (base * Pow2(i))
    decreases n - i
  {
    assert Pow2(i + 1) == 2 * Pow2(i);
    if i < n {
      Doubling(base, i + 1, n);
    }
  }

  // Field checks

  /** White space as `strings.TrimSpace` understands it. */
  predicate IsSpace(c: char) {
    || '\t' <= c <= '\r' || c == ' ' || c == '\U{85}' || c == '\U{A0}' || c == '\U{1680}'
    || '\U{2000}' <= c <= '\U{200A}' || c == '\U{2028}' || c == '\U{2029}' || c == '\U{202F}'
    || c == '\U{205F}' || c == '\U{3000}'
  }

  /** The string is empty once trimmed. */
  predicate Blank(s: string) {
    forall i :: 0 <= i < |s| ==> IsSpace(s[i])
  }

  predicate Alphanumeric(c: char) {
    'A' <= c <= 'Z' || 'a' <= c <= 'z' || '0' <= c <= '9'
  }

  predicate ValidTaskId(id: string) {
    && 1 <= |id| <= 200
    && Alphanumeric(id[0])
    && forall i :: 1 <= i < |id| ==> Alphanumeric(id[i]) || id[i] in {'.', '_', ':', '-'}
  }

  predicate ValidStringMap(m: map<string, string>, maxProperties: nat) {
    && |m| <= maxProperties
    && forall k :: k in m ==> !Blank(k) && |k| <= 128 && |m[k]| <= 4096
  }

  predicate ValidTask(t: TaskSpec) {
    && !Blank(t.id) && ValidTaskId(t.id)
    && t.command != [] && !Blank(t.command[0]) && |t.command| <= 4096
    && (forall i :: 0 <= i < |t.command| ==> |t.command[i]| <= 65536)
    && |t.dependsOn| <= 10_000
    && ValidStringMap(t.env, 4096) && ValidStringMap(t.labels, 128)
    && 0 <= t.timeoutSeconds <= 86_400
    && 0 <= t.retry.maxAttempts <= 100
    && 0 <= t.retry.baseDelayMs <= MAX_RETRY_BASE_DELAY_MS
    && 0 <= t.retry.maxDelayMs <= MAX_RETRY_DELAY_MS
    && !(t.retry.baseDelayMs > 0 && t.retry.maxDelayMs > 0 && t.retry.maxDelayMs < t.retry.baseDelayMs)
  }

  ghost predicate UniqueIds(tasks: seq<TaskSpec>) {
    UniqueUpTo(tasks, |tasks|)
  }

  /** All checks that precede the dependency graph. */
  ghost predicate FieldsValid(spec: WorkflowSpec) {
    && !Blank(spec.name) && |spec.name| <= 200
    && ValidStringMap(spec.metadata, 4096)
    && 1 <= |spec.tasks| <= 10_000
    && UniqueIds(spec.tasks)
    && forall i :: 0 <= i < |spec.tasks| ==> ValidTask(spec.tasks[i])
  }

  // The dependency graph

  /** `byID`, restricted to the dependency lists. */
  function GraphOf(tasks: seq<TaskSpec>): Graph {
    if tasks == [] then map[]
    else
      var last := tasks[|tasks| - 1];
      GraphOf(tasks[..|tasks| - 1])[last.id := last.dependsOn]
  }

  lemma {:induction false} GraphOfIndex(tasks: seq<TaskSpec>, id: string) returns (i: nat)
    requires id in GraphOf(tasks)
    ensures i < |tasks| && tasks[i].id == id
  {
    if tasks[|tasks| - 1].id == id {
      i := |tasks| - 1;
    } else {
      i := GraphOfIndex(tasks[..|tasks| - 1], id);
    }
  }

  lemma {:induction false} GraphOfHas(tasks: seq<TaskSpec>, i: nat)
    requires i < |tasks|
    ensures tasks[i].id in GraphOf(tasks)
  {
    if i < |tasks| - 1 {
      GraphOfHas(tasks[..|tasks| - 1], i);
    }
  }

  /** The first `n` task ids are distinct. */
  ghost predicate UniqueUpTo(tasks: seq<TaskSpec>, n: nat)
    requires n <= |tasks|
  {
    forall i, j :: 0 <= i < j < n ==> tasks[i].id != tasks[j].id
  }

  lemma UniqueNext(tasks: seq<TaskSpec>, n: nat)
    requires n < |tasks| && UniqueUpTo(tasks, n) && tasks[n].id !in GraphOf(tasks[..n])
    ensures UniqueUpTo(tasks, n + 1)
  {
    forall i | 0 <= i < n ensures tasks[i].id != tasks[n].id {
      GraphOfHas(tasks[..n], i);
    }
  }

  lemma {:induction false} GraphOfLookup(tasks: seq<TaskSpec>, i: nat)
    requires UniqueIds(tasks) && i < |tasks|
    ensures tasks[i].id in GraphOf(tasks) && GraphOf(tasks)[tasks[i].id] == tasks[i].dependsOn
  {
    if i < |tasks| - 1 {
      GraphOfLookup(tasks[..|tasks| - 1], i);
    }
  }

  lemma {:induction false} GraphOfSize(tasks: seq<TaskSpec>)
    requires UniqueIds(tasks)
    ensures |GraphOf(tasks)| == |tasks|
  {
    if tasks != [] {
      var init := tasks[..|tasks| - 1];
      GraphOfSize(init);
      if tasks[|init|].id in GraphOf(init) {
        var k := GraphOfIndex(init, tasks[|init|].id);
        assert false;
      }
      assert GraphOf(tasks).Keys == GraphOf(init).Keys + {tasks[|tasks| - 1].id};
    }
  }

  /** One dependency list: no self reference, no repeats, only known tasks. */
  ghost predicate DepsValid(g: Graph, id: string, deps: seq<string>) {
    && NoDup(deps)
    && forall j :: 0 <= j < |deps| ==> deps[j] != id && deps[j] in g
  }

  ghost predicate EdgesValid(tasks: seq<TaskSpec>) {
    forall i :: 0 <= i < |tasks| ==> DepsValid(GraphOf(tasks), tasks[i].id, tasks[i].dependsOn)
  }

  /** The specifications the coordinator accepts. */
  ghost predicate ValidSpec(spec: WorkflowSpec) {
    FieldsValid(spec) && EdgesValid(spec.tasks) && !HasCycle(GraphOf(spec.tasks))
  }

  /** The dependency list of `t` has the defect named by `e`. */
  ghost predicate DepDefect(g: Graph, t: TaskSpec, e: SpecError) {
    match e
    case SelfDependency(id) => t.id == id && id in t.dependsOn
    case RepeatedDependency(id, dep) => t.id == id &&
        exists i, j :: 0 <= i < j < |t.dependsOn| && t.dependsOn[i] == t.dependsOn[j] == dep
    case UnknownDependency(id, dep) => t.id == id && dep in t.dependsOn && dep !in g
    case _ => false
  }

  /** The defect an error names is really there. */
  ghost predicate Explains(spec: WorkflowSpec, e: SpecError) {
    match e
    case NameRequired => Blank(spec.name)
    case NameTooLong => |spec.name| > 200
    case InvalidMetadata => !ValidStringMap(spec.metadata, 4096)
    case NoTasks => spec.tasks == []
    case TooManyTasks => |spec.tasks| > 10_000
    case InvalidTask(i) => i < |spec.tasks| && !ValidTask(spec.tasks[i])
    case DuplicateTask(id) => exists i, j :: 0 <= i < j < |spec.tasks| && spec.tasks[i].id == spec.tasks[j].id == id
    case SelfDependency(id) => exists i :: 0 <= i < |spec.tasks| && DepDefect(GraphOf(spec.tasks), spec.tasks[i], e)
    case RepeatedDependency(id, dep) =>
        exists i :: 0 <= i < |spec.tasks| && DepDefect(GraphOf(spec.tasks), spec.tasks[i], e)
    case UnknownDependency(id, dep) =>
        exists i :: 0 <= i < |spec.tasks| && DepDefect(GraphOf(spec.tasks), spec.tasks[i], e)
    case DependencyCycle => FieldsValid(spec) && EdgesValid(spec.tasks) && HasCycle(GraphOf(spec.tasks))
  }

  method CheckTasks(tasks: seq<TaskSpec>) returns (r: Result<Graph, SpecError>)
    ensures r.Success? <==> UniqueIds(tasks) && forall i :: 0 <= i < |tasks| ==> ValidTask(tasks[i])
    ensures r.Success? ==> r.value == GraphOf(tasks)
    ensures r.Failure? ==>
              || (r.error.InvalidTask? && r.error.index < |tasks| && !ValidTask(tasks[r.error.index]))
              || (r.error.DuplicateTask? &&
                  exists i, j :: 0 <= i < j < |tasks| && tasks[i].id == tasks[j].id == r.error.id)
  {
    var byID: Graph := map[];
    for i := 0 to |tasks|
      invariant byID == GraphOf(tasks[..i])
      invariant UniqueUpTo(tasks, i)
      invariant forall k :: 0 <= k < i ==> ValidTask(tasks[k])
    {
      var t := tasks[i];
      if Blank(t.id) || !ValidTaskId(t.id) { return Failure(InvalidTask(i)); }
      if t.id in byID {
        ghost var k := GraphOfIndex(tasks[..i], t.id);
        assert tasks[k].id == tasks[i].id;
        return Failure(DuplicateTask(t.id));
      }
      if !ValidTask(t) { return Failure(InvalidTask(i)); }
      assert tasks[..i + 1][..i] == tasks[..i];
      UniqueNext(tasks, i);
      byID := byID[t.id := t.dependsOn];
    }
    assert tasks[..|tasks|] == tasks;
    return Success(byID);
  }

  method CheckFields(spec: WorkflowSpec) returns (r: Result<Graph, SpecError>)
    ensures r.Success? <==> FieldsValid(spec)
    ensures r.Success? ==> r.value == GraphOf(spec.tasks)
    ensures r.Failure? ==> Explains(spec, r.error) && r.error != DependencyCycle
  {
    if Blank(spec.name) { return Failure(NameRequired); }
    if |spec.name| > 200 { return Failure(NameTooLong); }
    if !ValidStringMap(spec.metadata, 4096) { return Failure(InvalidMetadata); }
    if |spec.tasks| == 0 { return Failure(NoTasks); }
    if |spec.tasks| > 10_000 { return Failure(TooManyTasks); }
    r := CheckTasks(spec.tasks);
  }

  // Building the in-degrees and the reverse adjacency

  /** The dependencies of task `k` seen after the lists of `tasks[..i]` and the first `j` entries of list `i`. */
  ghost function Listed(tasks: seq<TaskSpec>, i: nat, j: nat, k: nat): seq<string>
    requires k < |tasks| && i <= |tasks| && (i < |tasks| ==> j <= |tasks[i].dependsOn|)
  {
    if k < i then tasks[k].dependsOn else if k == i then tasks[k].dependsOn[..j] else []
  }

  ghost predicate CountsListed(tasks: seq<TaskSpec>, i: nat, j: nat, indegree: map<string, int>)
    requires i <= |tasks| && (i < |tasks| ==> j <= |tasks[i].dependsOn|)
  {
    && indegree.Keys == GraphOf(tasks).Keys
    && forall k :: 0 <= k < |tasks| ==> tasks[k].id in indegree && indegree[tasks[k].id] == |Listed(tasks, i, j, k)|
  }

  ghost predicate ReversesListed(tasks: seq<TaskSpec>, i: nat, j: nat, children: map<string, seq<string>>)
    requires i <= |tasks| && (i < |tasks| ==> j <= |tasks[i].dependsOn|)
  {
    && (forall a, k :: 0 <= k < |tasks| ==>
          multiset(Lookup(children, a))[tasks[k].id] == multiset(Listed(tasks, i, j, k))[a])
    && (forall a, b :: b in Lookup(children, a) ==> b in GraphOf(tasks))
  }

  ghost predicate Building(tasks: seq<TaskSpec>, i: nat, j: nat, indegree: map<string, int>,
      children: map<string, seq<string>>)
    requires i <= |tasks| && (i < |tasks| ==> j <= |tasks[i].dependsOn|)
  {
    CountsListed(tasks, i, j, indegree) && ReversesListed(tasks, i, j, children)
  }

  lemma BuildingStart(tasks: seq<TaskSpec>, indegree: map<string, int>, children: map<string, seq<string>>)
    requires children == map[] && indegree.Keys == GraphOf(tasks).Keys
    requires forall id :: id in indegree ==> indegree[id] == 0
    ensures Building(tasks, 0, 0, indegree, children)
  {
    forall k | 0 <= k < |tasks| ensures tasks[k].id in indegree { GraphOfHas(tasks, k); }
  }

  lemma CountStep(tasks: seq<TaskSpec>, i: nat, j: nat, indegree: map<string, int>)
    requires UniqueIds(tasks) && i < |tasks| && j < |tasks[i].dependsOn| && CountsListed(tasks, i, j, indegree)
    ensures tasks[i].id in indegree
    ensures CountsListed(tasks, i, j + 1, indegree[tasks[i].id := indegree[tasks[i].id] + 1])
  {
    var indegree' := indegree[tasks[i].id := indegree[tasks[i].id] + 1];
    forall k | 0 <= k < |tasks|
      ensures tasks[k].id in indegree' && indegree'[tasks[k].id] == |Listed(tasks, i, j + 1, k)|
    {
      ListedStep(tasks, i, j, k, tasks[i].dependsOn[j]);
    }
  }

  lemma ReverseStep(tasks: seq<TaskSpec>, i: nat, j: nat, children: map<string, seq<string>>)
    requires UniqueIds(tasks) && i < |tasks| && j < |tasks[i].dependsOn| && ReversesListed(tasks, i, j, children)
    ensures
      var dep := tasks[i].dependsOn[j];
      ReversesListed(tasks, i, j + 1, children[dep := Lookup(children, dep) + [tasks[i].id]])
  {
    var dep := tasks[i].dependsOn[j];
    var children' := children[dep := Lookup(children, dep) + [tasks[i].id]];
    GraphOfHas(tasks, i);
    forall a, k | 0 <= k < |tasks|
      ensures multiset(Lookup(children', a))[tasks[k].id] == multiset(Listed(tasks, i, j + 1, k))[a]
    {
      ListedStep(tasks, i, j, k, a);
      assert multiset(Lookup(children, a))[tasks[k].id] == multiset(Listed(tasks, i, j, k))[a];
      LookupAppend(children, dep, tasks[i].id, a);
    }
    forall a, b | b in Lookup(children', a) ensures b in GraphOf(tasks) {
      LookupAppend(children, dep, tasks[i].id, a);
      assert b in multiset(Lookup(children', a));
      assert b == tasks[i].id || b in Lookup(children, a);
    }
  }

  lemma LookupAppend(children: map<string, seq<string>>, dep: string, id: string, a: string)
    ensures
      var before := multiset(Lookup(children, a));
      multiset(Lookup(children[dep := Lookup(children, dep) + [id]], a)) == if a == dep then before + multiset{id}
          else before
  {
  }

  lemma ListedStep(tasks: seq<TaskSpec>, i: nat, j: nat, k: nat, a: string)
    requires i < |tasks| && j < |tasks[i].dependsOn| && k < |tasks|
    ensures |Listed(tasks, i, j + 1, k)| == |Listed(tasks, i, j, k)| + if k == i then 1 else 0
    ensures multiset(Listed(tasks, i, j + 1, k))[a]
         == multiset(Listed(tasks, i, j, k))[a] + if k == i && a == tasks[i].dependsOn[j] then 1 else 0
  {
    assert tasks[i].dependsOn[..j + 1] == tasks[i].dependsOn[..j] + [tasks[i].dependsOn[j]];
  }

  lemma BuildingStep(tasks: seq<TaskSpec>, i: nat, j: nat, indegree: map<string, int>,
      children: map<string, seq<string>>)
    requires UniqueIds(tasks) && i < |tasks| && j < |tasks[i].dependsOn| && Building(tasks, i, j, indegree, children)
    ensures tasks[i].id in indegree
    ensures
      var dep := tasks[i].dependsOn[j];
      Building(tasks, i, j + 1, indegree[tasks[i].id := indegree[tasks[i].id] + 1],
               children[dep := Lookup(children, dep) + [tasks[i].id]])
  {
    hide CountsListed, ReversesListed;
    CountStep(tasks, i, j, indegree);
    ReverseStep(tasks, i, j, children);
  }

  lemma SeenStart(g: Graph, id: string, deps: seq<string>)
    ensures Elements(deps[..0]) == {} && DepsValid(g, id, deps[..0])
  {
  }

  lemma SeenStep(deps: seq<string>, j: nat, seen: set<string>)
    requires j < |deps| && seen == Elements(deps[..j])
    ensures seen + {deps[j]} == Elements(deps[..j + 1])
  {
    assert deps[..j + 1] == deps[..j] + [deps[j]];
  }

  lemma BadDeps(tasks: seq<TaskSpec>, i: nat)
    requires i < |tasks| && !DepsValid(GraphOf(tasks), tasks[i].id, tasks[i].dependsOn)
    ensures !EdgesValid(tasks)
  {
  }

  lemma ScannedAll(tasks: seq<TaskSpec>)
    requires forall k :: 0 <= k < |tasks| ==> DepsValid(GraphOf(tasks), tasks[k].id, tasks[k].dependsOn)
    ensures EdgesValid(tasks)
  {
  }

  lemma BuildingNext(tasks: seq<TaskSpec>, i: nat, indegree: map<string, int>, children: map<string, seq<string>>)
    requires i < |tasks| && Building(tasks, i, |tasks[i].dependsOn|, indegree, children)
    ensures Building(tasks, i + 1, 0, indegree, children)
  {
    assert tasks[i].dependsOn[..|tasks[i].dependsOn|] == tasks[i].dependsOn;
    if i + 1 < |tasks| { assert tasks[i + 1].dependsOn[..0] == []; }
    assert forall k :: 0 <= k < |tasks| ==> Listed(tasks, i + 1, 0, k) == Listed(tasks, i, |tasks[i].dependsOn|, k);
  }

  lemma BuildingDone(tasks: seq<TaskSpec>, indegree: map<string, int>, children: map<string, seq<string>>)
    requires UniqueIds(tasks) && EdgesValid(tasks) && Building(tasks, |tasks|, 0, indegree, children)
    ensures Closed(GraphOf(tasks)) && Reverses(children, GraphOf(tasks)) && Counts(indegree, GraphOf(tasks), {})
  {
    var g := GraphOf(tasks);
    forall b | b in g
      ensures indegree[b] == Pending(g[b], {})
      ensures forall a :: multiset(Lookup(children, a))[b] == multiset(g[b])[a]
      ensures forall a :: a in g[b] ==> a in g
    {
      var k := GraphOfIndex(tasks, b);
      GraphOfLookup(tasks, k);
      PendingNone(g[b]);
      assert Listed(tasks, |tasks|, 0, k) == g[b];
    }
  }

  /** Collects the ids with no dependencies, in the arbitrary order of a Go map, and sorts them. */
  method Roots(indegree: map<string, int>) returns (queue: seq<string>)
    ensures Sorted(queue) && NoDup(queue)
    ensures forall x :: x in queue <==> x in indegree && indegree[x] == 0
  {
    queue := [];
    var todo := indegree.Keys;
    while todo != {}
      invariant todo <= indegree.Keys && NoDup(queue)
      invariant forall x :: x in queue <==> x in indegree && x !in todo && indegree[x] == 0
      decreases todo
    {
      var id :| id in todo;
      todo := todo - {id};
      if indegree[id] == 0 { queue := queue + [id]; }
    }
    NoDupMultiset(queue, Sort(queue));
    queue := Sort(queue);
  }

  /** The checks on dependency `j` of task `t`, whose earlier dependencies passed. */
  method CheckDependency(t: TaskSpec, j: nat, seen: set<string>, byID: Graph) returns (r: Result<(), SpecError>)
    requires j < |t.dependsOn| && seen == Elements(t.dependsOn[..j])
    requires DepsValid(byID, t.id, t.dependsOn[..j])
    ensures r.Success? ==> DepsValid(byID, t.id, t.dependsOn[..j + 1])
    ensures r.Failure? ==> DepDefect(byID, t, r.error) && !DepsValid(byID, t.id, t.dependsOn)
  {
    var deps := t.dependsOn;
    var dep := deps[j];
    if dep == t.id {
      return Failure(SelfDependency(t.id));
    }
    if dep in seen {
      ghost var k :| 0 <= k < j && deps[..j][k] == dep;
      assert deps[k] == deps[j] == dep;
      return Failure(RepeatedDependency(t.id, dep));
    }
    if dep !in byID {
      return Failure(UnknownDependency(t.id, dep));
    }
    assert deps[..j + 1] == deps[..j] + [dep];
    return Success(());
  }

  /** Scans the dependency lists; `byID` is the graph built by the field checks. */
  method ScanDependencies(tasks: seq<TaskSpec>, byID: Graph)
    returns (r: Result<(map<string, int>, map<string, seq<string>>), SpecError>)
    requires UniqueIds(tasks) && byID == GraphOf(tasks)
    ensures r.Success? <==> EdgesValid(tasks)
    ensures r.Success? ==> Building(tasks, |tasks|, 0, r.value.0, r.value.1)
    ensures r.Failure? ==> exists i :: 0 <= i < |tasks| && DepDefect(byID, tasks[i], r.error)
  {
    hide *;
    var indegree: map<string, int> := map id | id in byID :: 0;
    var children: map<string, seq<string>> := map[];
    BuildingStart(tasks, indegree, children);
    for i := 0 to |tasks|
      invariant Building(tasks, i, 0, indegree, children)
      invariant forall k :: 0 <= k < i ==> DepsValid(byID, tasks[k].id, tasks[k].dependsOn)
    {
      var t := tasks[i];
      var seen: set<string> := {};
      SeenStart(byID, t.id, t.dependsOn);
      for j := 0 to |t.dependsOn|
        invariant seen == Elements(t.dependsOn[..j])
        invariant DepsValid(byID, t.id, t.dependsOn[..j])
        invariant Building(tasks, i, j, indegree, children)
      {
        var check := CheckDependency(t, j, seen, byID);
        if check.Failure? {
          BadDeps(tasks, i);
          return Failure(check.error);
        }
        var dep := t.dependsOn[j];
        SeenStep(t.dependsOn, j, seen);
        seen := seen + {dep};
        BuildingStep(tasks, i, j, indegree, children);
        indegree := indegree[t.id := indegree[t.id] + 1];
        children := children[dep := Lookup(children, dep) + [t.id]];
      }
      assert t.dependsOn[..|t.dependsOn|] == t.dependsOn;
      BuildingNext(tasks, i, indegree, children);
    }
    ScannedAll(tasks);
    return Success((indegree, children));
  }

  method ValidateSpec(spec: WorkflowSpec) returns (r: Result<seq<string>, SpecError>)
    ensures r.Success? <==> ValidSpec(spec)
    ensures r.Success? ==> LeastTopological(GraphOf(spec.tasks), r.value)
    ensures r.Failure? ==> Explains(spec, r.error)
  {
    var fields := CheckFields(spec);
    if fields.Failure? { return Failure(fields.error); }
    var g := fields.value;
    var edges := ScanDependencies(spec.tasks, g);
    if edges.Failure? { return Failure(edges.error); }
    var (indegree, children) := edges.value;
    BuildingDone(spec.tasks, indegree, children);
    var queue := Roots(indegree);
    var order := Drain(g, children, indegree, queue);
    GraphOfSize(spec.tasks);
    if |order| != |spec.tasks| { return Failure(DependencyCycle); }
    return Success(order);
  }

  ghost predicate Rearranges(tasks: seq<TaskSpec>, tasks': seq<TaskSpec>) {
    multiset(tasks) == multiset(tasks')
  }

  /** Listing the tasks in another order changes neither the graph nor the order returned. */
  lemma ListingOrderIrrelevant(tasks: seq<TaskSpec>, tasks': seq<TaskSpec>, o: seq<string>, o': seq<string>)
    requires UniqueIds(tasks) && UniqueIds(tasks') && Rearranges(tasks, tasks')
    requires LeastTopological(GraphOf(tasks), o) && LeastTopological(GraphOf(tasks'), o')
    ensures GraphOf(tasks) == GraphOf(tasks') && o == o'
  {
    var g, h := GraphOf(tasks), GraphOf(tasks');
    forall b | b in g ensures b in h && g[b] == h[b] { SameEntry(tasks, tasks', b); }
    forall b | b in h ensures b in g { SameEntry(tasks', tasks, b); }
    assert SameEdges(g, h);
    LeastTopologicalListing(g, h, o, o');
  }

  lemma SameEntry(tasks: seq<TaskSpec>, tasks': seq<TaskSpec>, b: string)
    requires UniqueIds(tasks) && UniqueIds(tasks') && Rearranges(tasks, tasks') && b in GraphOf(tasks)
    ensures b in GraphOf(tasks') && GraphOf(tasks)[b] == GraphOf(tasks')[b]
  {
    var i := GraphOfIndex(tasks, b);
    assert tasks[i] in multiset(tasks');
    var j :| 0 <= j < |tasks'| && tasks'[j] == tasks[i];
    GraphOfLookup(tasks, i);
    GraphOfLookup(tasks', j);
  }
}
