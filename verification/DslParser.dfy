/** The parser of the workflow DSL as a function of the token list, and the formatter. */
module DslParser {
  import opened StringOrder
  import opened DslLexer

  datatype Retry = Retry(attempts: int, baseMs: int, maxMs: int)

  const DEFAULT_RETRY := Retry(1, 250, 30_000)
  const DAY_MS := 86_400_000

  datatype TaskNode = TaskNode(
    id: string, command: seq<string>, dependsOn: seq<string>, env: map<string, string>, labels: map<string, string>,
    timeoutSeconds: int, retry: Retry)

  /** Line numbers are left out. */
  datatype WorkflowNode = WorkflowNode(name: string, metadata: map<string, string>, tasks: seq<TaskNode>)

  datatype Got<T> = Got(value: T, next: nat) | Rejected

  /** `shlex.split` on a command written as one string. */
  datatype Split = Words(words: seq<string>) | BadSyntax
  type Splitter = string -> Split

  /** What the lexer produces: the end marker comes last and nowhere else. */
  ghost predicate Stream(ts: seq<Token>) {
    |ts| > 0 && ts[|ts| - 1].kind == EOF && forall k :: 0 <= k < |ts| - 1 ==> ts[k].kind != EOF
  }

  // Small parsers

  /** `_advance`, which stays on the last token. */
  function Next(ts: seq<Token>, i: nat): nat {
    if i + 1 < |ts| then i + 1 else i
  }

  function SkipNewlines(ts: seq<Token>, i: nat): (j: nat)
    requires i < |ts|
    ensures i <= j < |ts|
    decreases |ts| - i
  {
    if ts[i].kind == NEWLINE && i + 1 < |ts| then SkipNewlines(ts, i + 1) else i
  }

  function Expect(ts: seq<Token>, i: nat, kind: Kind): (r: Got<string>)
    requires i < |ts|
    ensures r.Got? ==> i <= r.next < |ts| && (i + 1 < |ts| ==> r.next == i + 1)
  {
    if ts[i].kind == kind then Got(ts[i].value, Next(ts, i)) else Rejected
  }

  predicate IsScalar(kind: Kind) {
    kind == STRING || kind == IDENT || kind == INTEGER || kind == DURATION || kind.KEYWORD?
  }

  function Scalar(ts: seq<Token>, i: nat): (r: Got<string>)
    requires Stream(ts) && i < |ts|
    ensures r.Got? ==> i < r.next < |ts|
  {
    if IsScalar(ts[i].kind) then Got(ts[i].value, i + 1) else Rejected
  }

  /** A name, an equals sign and a value. */
  function Pair(ts: seq<Token>, i: nat): (r: Got<(string, string)>)
    requires Stream(ts) && i < |ts|
    ensures r.Got? ==> i < r.next < |ts|
  {
    match Scalar(ts, i)
    case Rejected => Rejected
    case Got(name, j) =>
      match Expect(ts, j, SYMBOL('='))
      case Rejected => Rejected
      case Got(_, k) =>
        match Scalar(ts, k)
        case Rejected => Rejected
        case Got(value, next) => Got((name, value), next)
  }

  predicate FieldWord(kind: Kind) {
    kind.KEYWORD? && kind.word in {"run", "needs", "env", "labels", "timeout", "retry"}
  }

  function LineEnd(ts: seq<Token>, i: nat): (r: Got<()>)
    requires i < |ts|
    ensures r.Got? ==> i <= r.next < |ts|
  {
    if ts[i].kind == NEWLINE then Got((), SkipNewlines(ts, i))
    else if ts[i].kind == SYMBOL('}') || ts[i].kind == EOF || FieldWord(ts[i].kind) then Got((), i)
    else Rejected
  }

  /** The list after its opening bracket and `out`. */
  function ListRest(ts: seq<Token>, i: nat, out: seq<string>): (r: Got<seq<string>>)
    requires Stream(ts) && i < |ts|
    ensures r.Got? ==> i < r.next < |ts|
    decreases |ts| - i
  {
    match Scalar(ts, i)
    case Rejected => Rejected
    case Got(value, j) =>
      if ts[j].kind == SYMBOL(']') then Got(out + [value], j + 1)
      else if ts[j].kind == SYMBOL(',') then ListRest(ts, j + 1, out + [value])
      else Rejected
  }

  function List(ts: seq<Token>, i: nat): (r: Got<seq<string>>)
    requires Stream(ts) && i < |ts|
    ensures r.Got? ==> i < r.next < |ts|
  {
    if ts[i].kind != SYMBOL('[') then Rejected
    else if ts[i + 1].kind == SYMBOL(']') then Got([], i + 2)
    else ListRest(ts, i + 1, [])
  }

  function Command(ts: seq<Token>, i: nat, split: Splitter): (r: Got<seq<string>>)
    requires Stream(ts) && i < |ts|
    ensures r.Got? ==> i < r.next < |ts|
  {
    if ts[i].kind == SYMBOL('[') then List(ts, i)
    else
      match Scalar(ts, i)
      case Rejected => Rejected
      case Got(value, next) =>
        match split(value)
        case BadSyntax => Rejected
        case Words(words) => if words == [] then Rejected else Got(words, next)
  }

  // Durations

  function NumberOf(ds: string): nat {
    if ds == [] || !IsDigit(ds[|ds| - 1]) then 0
    else 10 * NumberOf(ds[..|ds| - 1]) + (ds[|ds| - 1] as int - '0' as int)
  }

  /** Milliseconds in one time unit, or zero if there is no such unit. */
  function Multiplier(unit: string): nat {
    if unit == "ms" then 1 else if unit == "s" then 1_000 else if unit == "m" then 60_000 else if unit == "h"
        then 3_600_000 else 0
  }

  /** `duration_to_milliseconds`: at most a day. */
  function DurationMs(value: string): Got<nat> {
    var n := DigitsEnd(value, 0);
    var unit := Multiplier(value[n..]);
    if n == 0 || unit == 0 || NumberOf(value[..n]) * unit > DAY_MS then Rejected
    else Got(NumberOf(value[..n]) * unit, 0)
  }

  /** `duration_to_seconds`: whole seconds only. */
  function DurationSeconds(value: string): Got<nat> {
    match DurationMs(value)
    case Rejected => Rejected
    case Got(ms, _) => if ms % 1000 != 0 then Rejected else Got(ms / 1000, 0)
  }

  // Retry policies

  /** One option of a retry policy with the comma that may follow it. */
  function RetryOption(ts: seq<Token>, i: nat, r: Retry, consumed: set<string>): (got: Got<(Retry, set<string>)>)
    requires Stream(ts) && i < |ts|
    ensures got.Got? ==> i < got.next < |ts|
  {
    var kind := ts[i].kind;
    if !kind.KEYWORD? || kind.word !in {"attempts", "base", "max"} || kind.word in consumed then Rejected
    else if ts[i + 1].kind != SYMBOL('=') then Rejected
    else
      var j := i + 2;
      var after := if Next(ts, j) < |ts| && ts[Next(ts, j)].kind == SYMBOL(',') then Next(ts, j) + 1 else Next(ts, j);
      if kind.word == "attempts" then
        if ts[j].kind != INTEGER then Rejected
        else Got((r.(attempts := NumberOf(ts[j].value)), consumed + {kind.word}), after)
      else if ts[j].kind != DURATION then Rejected
      else
        match DurationMs(ts[j].value)
        case Rejected => Rejected
        case Got(ms, _) =>
          Got((if kind.word == "base" then r.(baseMs := ms) else r.(maxMs := ms), consumed + {kind.word}), after)
  }

  function RetryOptions(ts: seq<Token>, i: nat, r: Retry, consumed: set<string>): (got: Got<Retry>)
    requires Stream(ts) && i < |ts|
    ensures got.Got? ==> i <= got.next < |ts|
    decreases |ts| - i
  {
    if ts[i].kind == NEWLINE || ts[i].kind == SYMBOL('}') || ts[i].kind == EOF then Got(r, i)
    else
      match RetryOption(ts, i, r, consumed)
      case Rejected => Rejected
      case Got(next, j) => RetryOptions(ts, j, next.0, next.1)
  }

  predicate RetryOk(r: Retry) {
    1 <= r.attempts <= 100 && r.baseMs >= 1 && r.maxMs >= r.baseMs
  }

  function RetryPolicy(ts: seq<Token>, i: nat): (got: Got<Retry>)
    requires Stream(ts) && i < |ts|
    ensures got.Got? ==> i <= got.next < |ts|
  {
    match RetryOptions(ts, i, DEFAULT_RETRY, {})
    case Rejected => Rejected
    case Got(r, next) => if RetryOk(r) then Got(r, next) else Rejected
  }

  // Tasks

  const ONCE: set<string> := {"run", "needs", "timeout", "retry"}

  /** One field, without the end of its line. */
  function Field(ts: seq<Token>, i: nat, t: TaskNode, seen: set<string>, split: Splitter): (got: Got<TaskNode>)
    requires Stream(ts) && i < |ts|
    ensures got.Got? ==> i < got.next < |ts|
  {
    if !ts[i].kind.KEYWORD? || ts[i].kind.word in seen then Rejected
    else
      var word := ts[i].kind.word;
      if word == "run" then
        match Command(ts, i + 1, split) case Rejected => Rejected case Got(c, n) => Got(t.(command := c), n)
      else if word == "needs" then
        match List(ts, i + 1) case Rejected => Rejected case Got(deps, n) => Got(t.(dependsOn := deps), n)
      else if word == "env" then
        match Pair(ts, i + 1) case Rejected => Rejected
        case Got(p, n) => if p.0 in t.env then Rejected else Got(t.(env := t.env[p.0 := p.1]), n)
      else if word == "labels" then
        match Pair(ts, i + 1) case Rejected => Rejected
        case Got(p, n) => if p.0 in t.labels then Rejected else Got(t.(labels := t.labels[p.0 := p.1]), n)
      else if word == "timeout" then
        if ts[i + 1].kind != DURATION then Rejected
        else match DurationSeconds(ts[i + 1].value) case Rejected => Rejected
             case Got(seconds, _) => Got(t.(timeoutSeconds := seconds), i + 2)
      else if word == "retry" then
        match RetryPolicy(ts, i + 1) case Rejected => Rejected case Got(r, n) => Got(t.(retry := r), n)
      else Rejected
  }

  function Seen(seen: set<string>, word: string): set<string> {
    if word in ONCE then seen + {word} else seen
  }

  /** The fields up to the closing brace, which is not consumed. */
  function Fields(ts: seq<Token>, i: nat, t: TaskNode, seen: set<string>, split: Splitter): (got: Got<TaskNode>)
    requires Stream(ts) && i < |ts|
    ensures got.Got? ==> i <= got.next < |ts| && ts[got.next].kind == SYMBOL('}')
    decreases |ts| - i
  {
    if ts[i].kind == SYMBOL('}') then Got(t, i)
    else
      match Field(ts, i, t, seen, split)
      case Rejected => Rejected
      case Got(t', j) =>
        match LineEnd(ts, j)
        case Rejected => Rejected
        case Got(_, k) => Fields(ts, SkipNewlines(ts, k), t', Seen(seen, ts[i].kind.word), split)
  }

  /** A name in braces: the position after the opening brace and the newlines that follow it. */
  function Opening(ts: seq<Token>, i: nat, word: string): (got: Got<string>)
    requires Stream(ts) && i < |ts|
    ensures got.Got? ==> i < got.next < |ts|
  {
    match Expect(ts, i, KEYWORD(word))
    case Rejected => Rejected
    case Got(_, j) =>
      match Scalar(ts, j)
      case Rejected => Rejected
      case Got(name, k) =>
        match Expect(ts, SkipNewlines(ts, k), SYMBOL('{'))
        case Rejected => Rejected
        case Got(_, n) => Got(name, SkipNewlines(ts, n))
  }

  function BlankTask(id: string): TaskNode {
    TaskNode(id, [], [], map[], map[], 0, DEFAULT_RETRY)
  }

  function Task(ts: seq<Token>, i: nat, split: Splitter): (got: Got<TaskNode>)
    requires Stream(ts) && i < |ts|
    ensures got.Got? ==> i < got.next < |ts|
  {
    match Opening(ts, i, "task")
    case Rejected => Rejected
    case Got(id, j) =>
      match Fields(ts, j, BlankTask(id), {}, split)
      case Rejected => Rejected
      case Got(t, k) => if t.command == [] then Rejected else Got(t, k + 1)
  }

  // Workflows

  predicate HasId(tasks: seq<TaskNode>, id: string) {
    exists k :: 0 <= k < |tasks| && tasks[k].id == id
  }

  /** A metadata line or a task. */
  function Entry(ts: seq<Token>, i: nat, w: WorkflowNode, split: Splitter): (got: Got<WorkflowNode>)
    requires Stream(ts) && i < |ts|
    ensures got.Got? ==> i < got.next < |ts|
  {
    if ts[i].kind == KEYWORD("meta") then
      match Pair(ts, i + 1)
      case Rejected => Rejected
      case Got(p, j) =>
        if p.0 in w.metadata then Rejected
        else match LineEnd(ts, j) case Rejected => Rejected case Got(_, k) =>
            Got(w.(metadata := w.metadata[p.0 := p.1]), k)
    else if ts[i].kind == KEYWORD("task") then
      match Task(ts, i, split)
      case Rejected => Rejected
      case Got(t, j) => if HasId(w.tasks, t.id) then Rejected else Got(w.(tasks := w.tasks + [t]), j)
    else Rejected
  }

  function Entries(ts: seq<Token>, i: nat, w: WorkflowNode, split: Splitter): (got: Got<WorkflowNode>)
    requires Stream(ts) && i < |ts|
    ensures got.Got? ==> i <= got.next < |ts| && ts[got.next].kind == SYMBOL('}')
    decreases |ts| - i
  {
    if ts[i].kind == SYMBOL('}') then Got(w, i)
    else
      match Entry(ts, i, w, split)
      case Rejected => Rejected
      case Got(w', j) => Entries(ts, SkipNewlines(ts, j), w', split)
  }

  lemma ClosingFollowed(ts: seq<Token>, i: nat)
    requires Stream(ts) && i < |ts| && ts[i].kind == SYMBOL('}')
    ensures i + 1 < |ts|
  {
  }

  /** `Parser.parse`. */
  function ParseTokens(ts: seq<Token>, split: Splitter): Got<WorkflowNode>
    requires Stream(ts)
  {
    match Opening(ts, SkipNewlines(ts, 0), "workflow")
    case Rejected => Rejected
    case Got(name, i) =>
      match Entries(ts, i, WorkflowNode(name, map[], []), split)
      case Rejected => Rejected
      case Got(w, j) =>
        ClosingFollowed(ts, j);
        var end := SkipNewlines(ts, j + 1);
        if ts[end].kind == EOF then Got(w, end) else Rejected
  }

  lemma {:induction false} LexStream(s: string, i: nat)
    ensures Lex(s, i).Tokens? ==> Stream(Lex(s, i).tokens)
    decreases |s| - i
  {
    if i < |s| {
      if IsBlank(s[i]) {
        LexStream(s, i + 1);
      } else if s[i] == '#' {
        assert CommentEnd(s, i) == CommentEnd(s, i + 1);
        LexStream(s, CommentEnd(s, i));
      } else {
        var (t, j) := TokenAt(s, i);
        if j > i {
          LexStream(s, j);
          TokenKind(s, i);
        }
      }
    }
  }

  lemma TokenKind(s: string, i: nat)
    requires i < |s| && TokenAt(s, i).1 > i
    ensures TokenAt(s, i).0.kind != EOF
  {
  }

  /** `parse`. */
  function Parse(source: string, split: Splitter): Got<WorkflowNode> {
    match Lex(source, 0)
    case Unreadable => Rejected
    case Tokens(tokens) =>
      LexStream(source, 0);
      ParseTokens(tokens, split)
  }

  // The formatter

  /** `quote_if_needed`. */
  function ScalarPiece(v: string): Piece {
    if IdentText(v) && v !in KEYWORDS then Word(v) else Quoted(v)
  }

  /** `format_duration`: the largest unit that divides. */
  function SpanPiece(ms: int): Piece {
    if ms % 3_600_000 == 0 then Span(ms / 3_600_000, Hours)
    else if ms % 60_000 == 0 then Span(ms / 60_000, Minutes)
    else if ms % 1_000 == 0 then Span(ms / 1_000, Seconds)
    else Span(ms, Milliseconds)
  }

  lemma LeastExists(keys: set<string>)
    requires keys != {}
    ensures exists k :: k in keys && Least(keys, k)
  {
    var x :| x in keys;
    if keys == {x} {
      assert Least(keys, x);
    } else {
      LeastExists(keys - {x});
      var y :| y in keys - {x} && Least(keys - {x}, y);
      LessTotal(x, y);
      if Less(x, y) {
        forall z | z in keys && z != x ensures Less(x, z) {
          if z != y { LessTransitive(x, y, z); }
        }
        assert Least(keys, x);
      } else {
        assert Least(keys, y);
      }
    }
  }

  ghost predicate Least(keys: set<string>, k: string) {
    forall x :: x in keys && x != k ==> Less(k, x)
  }

  /** `sorted(keys)`. */
  ghost function SortedKeys(keys: set<string>): (r: seq<string>)
    ensures forall k :: k in r <==> k in keys
    ensures forall i, j :: 0 <= i < j < |r| ==> r[i] != r[j]
    decreases |keys|
  {
    if keys == {} then []
    else
      LeastExists(keys);
      var k :| k in keys && Least(keys, k);
      [k] + SortedKeys(keys - {k})
  }

  function OpeningItems(lead: nat, word: string, name: string): seq<Item> {
    [Item(lead, Word(word)), Item(1, ScalarPiece(name)), Item(1, Symbol('{')), Item(0, Newline)]
  }

  function PairItems(lead: nat, word: string, key: string, value: string): seq<Item> {
    [Item(lead, Word(word)), Item(1, ScalarPiece(key)), Item(1, Symbol('=')), Item(1, Quoted(value)), Item(0, Newline)]
  }

  function PairLines(lead: nat, word: string, keys: seq<string>, m: map<string, string>): seq<Item>
    requires forall k :: k in keys ==> k in m
  {
    if keys == [] then [] else PairItems(lead, word, keys[0], m[keys[0]]) + PairLines(lead, word, keys[1..], m)
  }

  /** The elements of a list and its closing bracket. */
  function ListItems(pieces: seq<Piece>): seq<Item> {
    if pieces == [] then [Item(0, Symbol(']'))]
    else if |pieces| == 1 then [Item(0, pieces[0]), Item(0, Symbol(']'))]
    else [Item(0, pieces[0]), Item(0, Symbol(','))] + MoreItems(pieces[1..])
  }

  /** The further elements, each after a comma and a blank. */
  function MoreItems(pieces: seq<Piece>): seq<Item>
    requires pieces != []
  {
    if |pieces| == 1 then [Item(1, pieces[0]), Item(0, Symbol(']'))]
    else [Item(1, pieces[0]), Item(0, Symbol(','))] + MoreItems(pieces[1..])
  }

  function QuotedPieces(values: seq<string>): seq<Piece> {
    seq(|values|, k requires 0 <= k < |values| => Quoted(values[k]))
  }

  function ScalarPieces(values: seq<string>): seq<Piece> {
    seq(|values|, k requires 0 <= k < |values| => ScalarPiece(values[k]))
  }

  function ListLine(word: string, pieces: seq<Piece>): seq<Item> {
    [Item(4, Word(word)), Item(1, Symbol('['))] + ListItems(pieces) + [Item(0, Newline)]
  }

  function TimeoutLine(seconds: int): seq<Item> {
    if seconds == 0 then [] else [Item(4, Word("timeout")), Item(1, SpanPiece(seconds * 1000)), Item(0, Newline)]
  }

  function RetryLine(r: Retry): seq<Item> {
    if r == DEFAULT_RETRY then []
    else
      [Item(4, Word("retry")),
       Item(1, Word("attempts")), Item(0, Symbol('=')), Item(0, Numeral(r.attempts)), Item(0, Symbol(',')),
       Item(1, Word("base")), Item(0, Symbol('=')), Item(0, SpanPiece(r.baseMs)), Item(0, Symbol(',')),
       Item(1, Word("max")), Item(0, Symbol('=')), Item(0, SpanPiece(r.maxMs)), Item(0, Newline)]
  }

  function ClosingItems(lead: nat): seq<Item> {
    [Item(lead, Symbol('}')), Item(0, Newline)]
  }

  ghost function FieldItems(t: TaskNode): seq<Item> {
    ListLine("run", QuotedPieces(t.command))
    + (if t.dependsOn == [] then [] else ListLine("needs", ScalarPieces(t.dependsOn)))
    + PairLines(4, "env", SortedKeys(t.env.Keys), t.env)
    + PairLines(4, "labels", SortedKeys(t.labels.Keys), t.labels)
    + TimeoutLine(t.timeoutSeconds)
    + RetryLine(t.retry)
  }

  ghost function TaskItems(t: TaskNode): seq<Item> {
    OpeningItems(2, "task", t.id) + FieldItems(t) + ClosingItems(2)
  }

  /** The tasks, with an empty line between them. */
  ghost function TasksItems(tasks: seq<TaskNode>): seq<Item> {
    if tasks == [] then []
    else if |tasks| == 1 then TaskItems(tasks[0])
    else TaskItems(tasks[0]) + [Item(0, Newline)] + TasksItems(tasks[1..])
  }

  ghost function NodeItems(w: WorkflowNode): seq<Item> {
    OpeningItems(0, "workflow", w.name)
    + PairLines(2, "meta", SortedKeys(w.metadata.Keys), w.metadata)
    + (if w.metadata != map[] && w.tasks != [] then [Item(0, Newline)] else [])
    + TasksItems(w.tasks)
    + ClosingItems(0)
  }

  /** `format_source`. */
  ghost function Format(w: WorkflowNode): string {
    Flatten(NodeItems(w))
  }
}
