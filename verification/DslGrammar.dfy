/** The grammar of the workflow DSL: which token lists the parser accepts, and as which workflow. */
module DslGrammar {
  import opened DslLexer
  import opened DslParser
  import opened DslSpelling

  // Tokens

  function Sym(c: char): Token { Token(SYMBOL(c), [c]) }

  function Kw(word: string): Token { Token(KEYWORD(word), word) }

  function NewLines(n: nat): (r: seq<Token>)
    ensures |r| == n && forall k :: 0 <= k < n ==> r[k] == Token(NEWLINE, "\n")
  {
    if n == 0 then [] else [Token(NEWLINE, "\n")] + NewLines(n - 1)
  }

  /** A name or a value: a string, a word, a number or a duration. */
  predicate Atom(t: Token) {
    t.kind.STRING? || t.kind.IDENT? || t.kind.KEYWORD? || t.kind.INTEGER? || t.kind.DURATION?
  }

  /** Tokens carry the text they were read from, and the end marker comes last and nowhere else. */
  ghost predicate Read(ts: seq<Token>) {
    && |ts| > 0 && ts[|ts| - 1].kind == EOF && (forall k :: 0 <= k < |ts| - 1 ==> ts[k].kind != EOF)
    && (forall k :: 0 <= k < |ts| ==> Faithful(ts[k]))
  }

  ghost predicate Faithful(t: Token) {
    && (t.kind.SYMBOL? ==> t == Sym(t.kind.c))
    && (t.kind.NEWLINE? ==> t == Token(NEWLINE, "\n"))
    && (t.kind.KEYWORD? ==> t == Kw(t.kind.word))
    && (t.kind.INTEGER? ==> AllDigits(t.value))
  }

  // Numbers and durations

  predicate Says(digits: string, n: int) {
    if digits == [] then n == 0
    else n >= 0 && digits[|digits| - 1] as int - '0' as int == n % 10 && Says(digits[..|digits| - 1], n / 10)
  }

  const UNITS: map<string, int> := map["ms" := 1, "s" := 1_000, "m" := 60_000, "h" := 3_600_000]

  predicate SpansAt(value: string, k: nat, n: int, ms: int) {
    && k <= |value| && AllDigits(value[..k]) && Says(value[..k], n)
    && value[k..] in UNITS && ms == n * UNITS[value[k..]] <= 86_400_000
  }

  /** The text is a number and a unit, together `ms` milliseconds and at most a day. */
  ghost predicate Spans(value: string, ms: int) {
    exists k: nat, n :: SpansAt(value, k, n, ms)
  }

  // Lists

  function Commas(items: seq<Token>): seq<Token> {
    if |items| <= 1 then items else [items[0], Sym(',')] + Commas(items[1..])
  }

  function Listed(items: seq<Token>): seq<Token> {
    [Sym('[')] + Commas(items) + [Sym(']')]
  }

  function Values(items: seq<Token>): seq<string> {
    if items == [] then [] else [items[0].value] + Values(items[1..])
  }

  predicate Atoms(items: seq<Token>) {
    forall k :: 0 <= k < |items| ==> Atom(items[k])
  }

  // Retry options

  datatype Option = Option(word: string, value: Token, number: int, comma: bool)

  function OptionText(o: Option): seq<Token> {
    [Kw(o.word), Sym('='), o.value] + if o.comma then [Sym(',')] else []
  }

  ghost predicate OptionOk(o: Option) {
    || (o.word == "attempts" && o.value.kind == INTEGER && Says(o.value.value, o.number))
    || (o.word in {"base", "max"} && o.value.kind == DURATION && Spans(o.value.value, o.number))
  }

  function Set(r: Retry, o: Option): Retry {
    if o.word == "attempts" then Retry(o.number, r.baseMs, r.maxMs)
    else if o.word == "base" then Retry(r.attempts, o.number, r.maxMs)
    else Retry(r.attempts, r.baseMs, o.number)
  }

  function OptionsText(options: seq<Option>): seq<Token> {
    if options == [] then [] else OptionText(options[0]) + OptionsText(options[1..])
  }

  function SetAll(r: Retry, options: seq<Option>): Retry
    decreases |options|
  {
    if options == [] then r else SetAll(Set(r, options[0]), options[1..])
  }

  ghost predicate OptionsOk(options: seq<Option>) {
    && (forall i :: 0 <= i < |options| ==> OptionOk(options[i]))
    && (forall i, j :: 0 <= i < j < |options| ==> options[i].word != options[j].word)
  }

  /** What a retry line stands for. */
  function PolicyOf(options: seq<Option>): Retry {
    SetAll(Retry(1, 250, 30_000), options)
  }

  predicate PolicyOk(r: Retry) {
    1 <= r.attempts <= 100 && 1 <= r.baseMs <= r.maxMs
  }

  // Fields

  datatype FieldTree =
    | RunList(items: seq<Token>) | RunText(text: Token, words: seq<string>) | Needs(items: seq<Token>)
    | Env(key: Token, value: Token) | Labels(key: Token, value: Token)
    | Timeout(duration: Token, seconds: int) | RetryLine(options: seq<Option>)

  function FieldName(f: FieldTree): string {
    match f
    case RunList(_) => "run"
    case RunText(_, _) => "run"
    case Needs(_) => "needs"
    case Env(_, _) => "env"
    case Labels(_, _) => "labels"
    case Timeout(_, _) => "timeout"
    case RetryLine(_) => "retry"
  }

  function FieldRest(f: FieldTree): seq<Token> {
    match f
    case RunList(items) => Listed(items)
    case RunText(text, _) => [text]
    case Needs(items) => Listed(items)
    case Env(key, value) => [key, Sym('='), value]
    case Labels(key, value) => [key, Sym('='), value]
    case Timeout(duration, _) => [duration]
    case RetryLine(options) => OptionsText(options)
  }

  function FieldText(f: FieldTree): seq<Token> {
    [Kw(FieldName(f))] + FieldRest(f)
  }

  ghost predicate FieldOk(f: FieldTree, split: Splitter) {
    match f
    case RunList(items) => Atoms(items)
    case RunText(text, words) => Atom(text) && split(text.value) == Words(words) && words != []
    case Needs(items) => Atoms(items)
    case Env(key, value) => Atom(key) && Atom(value)
    case Labels(key, value) => Atom(key) && Atom(value)
    case Timeout(duration, seconds) => duration.kind == DURATION && Spans(duration.value, 1000 * seconds)
    case RetryLine(options) => OptionsOk(options) && PolicyOk(PolicyOf(options))
  }

  function Put(t: TaskNode, f: FieldTree): TaskNode {
    match f
    case RunList(items) => t.(command := Values(items))
    case RunText(_, words) => t.(command := words)
    case Needs(items) => t.(dependsOn := Values(items))
    case Env(key, value) => t.(env := t.env[key.value := value.value])
    case Labels(key, value) => t.(labels := t.labels[key.value := value.value])
    case Timeout(_, seconds) => t.(timeoutSeconds := seconds)
    case RetryLine(options) => t.(retry := PolicyOf(options))
  }

  /** A field and the ends of line after it. */
  datatype LineTree = LineTree(field: FieldTree, newlines: nat)

  function LinesText(lines: seq<LineTree>): seq<Token> {
    if lines == [] then [] else FieldText(lines[0].field) + NewLines(lines[0].newlines) + LinesText(lines[1..])
  }

  function PutAll(t: TaskNode, lines: seq<LineTree>): TaskNode
    decreases |lines|
  {
    if lines == [] then t else PutAll(Put(t, lines[0].field), lines[1..])
  }

  /** Two fields that may not both occur: the same variable or label twice, or any other field twice. */
  predicate Clash(f: FieldTree, g: FieldTree) {
    && FieldName(f) == FieldName(g)
    && (f.Env? && g.Env? ==> f.key.value == g.key.value)
    && (f.Labels? && g.Labels? ==> f.key.value == g.key.value)
  }

  /** Fields may share a line, except that nothing follows the options of a retry policy on theirs. */
  ghost predicate LinesOk(lines: seq<LineTree>, split: Splitter) {
    && (forall i :: 0 <= i < |lines| ==> FieldOk(lines[i].field, split))
    && (forall i :: 0 <= i < |lines| - 1 && lines[i].newlines == 0 ==> !lines[i].field.RetryLine?)
    && (forall i, j :: 0 <= i < j < |lines| ==> !Clash(lines[i].field, lines[j].field))
  }

  // Workflows

  function OpeningText(word: string, name: Token, before: nat, after: nat): seq<Token> {
    [Kw(word), name] + NewLines(before) + [Sym('{')] + NewLines(after)
  }

  datatype EntryTree =
    | Meta(key: Token, value: Token, newlines: nat)
    | Block(id: Token, before: nat, after: nat, lines: seq<LineTree>, newlines: nat)

  function EntryText(e: EntryTree): seq<Token> {
    match e
    case Meta(key, value, newlines) => [Kw("meta"), key, Sym('='), value] + NewLines(newlines)
    case Block(id, before, after, lines, newlines) =>
      OpeningText("task", id, before, after) + LinesText(lines) + [Sym('}')] + NewLines(newlines)
  }

  function TaskOf(id: string, lines: seq<LineTree>): TaskNode {
    PutAll(TaskNode(id, [], [], map[], map[], 0, Retry(1, 250, 30_000)), lines)
  }

  ghost predicate EntryOk(e: EntryTree, split: Splitter) {
    match e
    case Meta(key, value, _) => Atom(key) && Atom(value)
    case Block(id, _, _, lines, _) => Atom(id) && LinesOk(lines, split) && TaskOf(id.value, lines).command != []
  }

  function Append(w: WorkflowNode, e: EntryTree): WorkflowNode {
    match e
    case Meta(key, value, _) => w.(metadata := w.metadata[key.value := value.value])
    case Block(id, _, _, lines, _) => w.(tasks := w.tasks + [TaskOf(id.value, lines)])
  }

  function EntriesText(entries: seq<EntryTree>): seq<Token> {
    if entries == [] then [] else EntryText(entries[0]) + EntriesText(entries[1..])
  }

  function AppendAll(w: WorkflowNode, entries: seq<EntryTree>): WorkflowNode
    decreases |entries|
  {
    if entries == [] then w else AppendAll(Append(w, entries[0]), entries[1..])
  }

  predicate SameEntry(e: EntryTree, d: EntryTree) {
    || (e.Meta? && d.Meta? && e.key.value == d.key.value)
    || (e.Block? && d.Block? && e.id.value == d.id.value)
  }

  /** A metadata line ends its line, or the workflow. */
  ghost predicate EntriesOk(entries: seq<EntryTree>, split: Splitter) {
    && (forall i :: 0 <= i < |entries| ==> EntryOk(entries[i], split))
    && (forall i :: 0 <= i < |entries| - 1 && entries[i].newlines == 0 ==> entries[i].Block?)
    && (forall i, j :: 0 <= i < j < |entries| ==> !SameEntry(entries[i], entries[j]))
  }

  datatype SourceTree = SourceTree(lead: nat, name: Token, before: nat, after: nat, entries: seq<EntryTree>, trail: nat)

  function SourceText(x: SourceTree): seq<Token> {
    NewLines(x.lead) + OpeningText("workflow", x.name, x.before, x.after) + EntriesText(x.entries) + [Sym('}')]
    + NewLines(x.trail)
  }

  ghost predicate SourceOk(x: SourceTree, split: Splitter) {
    Atom(x.name) && EntriesOk(x.entries, split)
  }

  function NodeOf(x: SourceTree): WorkflowNode {
    AppendAll(WorkflowNode(x.name.value, map[], []), x.entries)
  }

  /** The tokens are a workflow of the grammar that stands for `w`. */
  ghost predicate Derives(ts: seq<Token>, x: SourceTree, split: Splitter, w: WorkflowNode) {
    ts == SourceText(x) && SourceOk(x, split) && NodeOf(x) == w
  }

  // Tokens in front of others

  predicate Here(ts: seq<Token>, i: nat, w: seq<Token>) {
    i + |w| <= |ts| && ts[i..i + |w|] == w
  }

  lemma HereSplit(ts: seq<Token>, i: nat, a: seq<Token>, b: seq<Token>)
    requires Here(ts, i, a + b)
    ensures Here(ts, i, a) && Here(ts, i + |a|, b)
  {
    assert ts[i..i + |a|] == ts[i..i + |a + b|][..|a|];
    assert ts[i + |a|..i + |a| + |b|] == ts[i..i + |a + b|][|a|..];
  }

  lemma HereAt(ts: seq<Token>, i: nat, w: seq<Token>, k: nat)
    requires Here(ts, i, w) && k < |w|
    ensures i + k < |ts| && ts[i + k] == w[k]
  {
    assert ts[i..i + |w|][k] == w[k];
  }

  lemma HereJoin(ts: seq<Token>, i: nat, j: nat, k: nat, a: seq<Token>, b: seq<Token>)
    requires i <= j <= k <= |ts| && ts[i..j] == a && ts[j..k] == b
    ensures ts[i..k] == a + b
  {
  }

  lemma {:induction false} NewLinesHere(ts: seq<Token>, i: nat, n: nat)
    requires Here(ts, i, NewLines(n)) && i + n < |ts| && ts[i + n].kind != NEWLINE
    ensures SkipNewlines(ts, i) == i + n
    decreases n
  {
    if n > 0 {
      HereAt(ts, i, NewLines(n), 0);
      HereSplit(ts, i, [Token(NEWLINE, "\n")], NewLines(n - 1));
      NewLinesHere(ts, i + 1, n - 1);
    }
  }

  lemma {:induction false} NewLinesBack(ts: seq<Token>, i: nat)
    requires Read(ts) && i < |ts|
    ensures var j := SkipNewlines(ts, i);
      i <= j < |ts| && ts[i..j] == NewLines(j - i) && ts[j].kind != NEWLINE
    decreases |ts| - i
  {
    if ts[i].kind == NEWLINE {
      assert Faithful(ts[i]);
      NewLinesBack(ts, i + 1);
      var j := SkipNewlines(ts, i);
      assert ts[i..j] == [ts[i]] + ts[i + 1..j];
    }
  }

  // Numbers and durations

  lemma {:induction false} NumberSays(digits: string, n: int)
    requires forall k :: 0 <= k < |digits| ==> '0' <= digits[k] <= '9'
    ensures Says(digits, n) <==> n == NumberOf(digits)
    decreases |digits|
  {
    if digits != [] {
      NumberSays(digits[..|digits| - 1], n / 10);
    }
  }

  lemma DigitsCut(value: string, k: nat)
    requires k <= |value| && AllDigits(value[..k]) && (k < |value| ==> !IsDigit(value[k]))
    ensures DigitsEnd(value, 0) == k
  {
    assert At(value, 0, value[..k]);
    DigitsEndAt(value, 0, value[..k]);
  }

  lemma UnitNumber(unit: string)
    ensures Multiplier(unit) == if unit in UNITS then UNITS[unit] else 0
    ensures unit in UNITS ==> unit != [] && !IsDigit(unit[0])
  {
  }

  /** A duration is accepted exactly when it spells that many milliseconds. */
  lemma DurationSays(value: string, ms: nat)
    ensures DurationMs(value) == Got(ms, 0) <==> Spans(value, ms)
  {
    hide Multiplier, NumberOf, Says;
    var k := DigitsEnd(value, 0);
    DigitsBack(value, 0);
    UnitNumber(value[k..]);
    if DurationMs(value) == Got(ms, 0) {
      NumberSays(value[..k], NumberOf(value[..k]));
      assert SpansAt(value, k, NumberOf(value[..k]), ms);
    }
    if Spans(value, ms) {
      var k': nat, n :| SpansAt(value, k', n, ms);
      UnitNumber(value[k'..]);
      DigitsCut(value, k');
      NumberSays(value[..k], n);
    }
  }

  lemma SecondsSay(value: string, seconds: nat)
    ensures DurationSeconds(value) == Got(seconds, 0) <==> Spans(value, 1000 * seconds)
  {
    hide Spans, DurationMs;
    DurationSays(value, 1000 * seconds);
    match DurationMs(value)
    case Rejected =>
    case Got(ms, next) => DurationNext(value);
  }

  lemma DurationNext(value: string)
    ensures DurationMs(value).Got? ==> DurationMs(value).next == 0
  {
  }

  // Lists

  lemma StreamOf(ts: seq<Token>)
    requires Read(ts)
    ensures Stream(ts)
  {
  }

  lemma AtomScalar(ts: seq<Token>, i: nat)
    requires Read(ts) && i < |ts|
    ensures Stream(ts) && Scalar(ts, i) == if Atom(ts[i]) then Got(ts[i].value, i + 1) else Rejected
  {
  }

  lemma {:induction false} CommasHere(ts: seq<Token>, i: nat, items: seq<Token>, out: seq<string>)
    requires Read(ts) && Stream(ts) && i < |ts| && items != [] && Atoms(items)
        && Here(ts, i, Commas(items) + [Sym(']')])
    ensures ListRest(ts, i, out) == Got(out + Values(items), i + |Commas(items)| + 1)
    decreases |items|
  {
    hide Read;
    var w := Commas(items) + [Sym(']')];
    HereAt(ts, i, w, 0);
    HereAt(ts, i, w, 1);
    AtomScalar(ts, i);
    if |items| > 1 {
      var rest := items[1..];
      assert w == [items[0], Sym(',')] + (Commas(rest) + [Sym(']')]);
      HereSplit(ts, i, [items[0], Sym(',')], Commas(rest) + [Sym(']')]);
      CommasHere(ts, i + 2, rest, out + [items[0].value]);
      assert out + [items[0].value] + Values(rest) == out + ([items[0].value] + Values(rest));
    } else {
      assert Values(items) == [items[0].value];
    }
  }

  lemma ListHere(ts: seq<Token>, i: nat, items: seq<Token>)
    requires Read(ts) && Stream(ts) && i < |ts| && Atoms(items) && Here(ts, i, Listed(items))
    ensures List(ts, i) == Got(Values(items), i + |Listed(items)|)
  {
    hide Read, ListRest;
    HereAt(ts, i, Listed(items), 0);
    HereAt(ts, i, Listed(items), 1);
    assert Listed(items) == [Sym('[')] + (Commas(items) + [Sym(']')]);
    HereSplit(ts, i, [Sym('[')], Commas(items) + [Sym(']')]);
    if items != [] {
      CommasHere(ts, i + 1, items, []);
      assert [] + Values(items) == Values(items);
      FirstItem(items);
    }
  }

  lemma FirstItem(items: seq<Token>)
    requires items != []
    ensures Commas(items) != [] && Commas(items)[0] == items[0]
  {
  }

  lemma {:induction false} CommasBack(ts: seq<Token>, i: nat, out: seq<string>) returns (items: seq<Token>)
    requires Read(ts) && Stream(ts) && i < |ts| && ListRest(ts, i, out).Got?
    ensures var r := ListRest(ts, i, out);
      items != [] && Atoms(items) && r.value == out + Values(items) && ts[i..r.next] == Commas(items) + [Sym(']')]
    decreases |ts| - i
  {
    hide Read, Stream, Scalar, Atom, Commas, Values;
    AtomScalar(ts, i);
    Punctuation(ts, i + 1);
    OneItem(ts[i]);
    assert ts[i..i + 2] == [ts[i], ts[i + 1]];
    if ts[i + 1].kind == SYMBOL(']') {
      items := [ts[i]];
      assert [ts[i], ts[i + 1]] == [ts[i]] + [ts[i + 1]];
    } else {
      items := CommasBack(ts, i + 2, out + [ts[i].value]);
      var next := ListRest(ts, i, out).next;
      HereJoin(ts, i, i + 2, next, [ts[i], Sym(',')], Commas(items) + [Sym(']')]);
      assert out + [ts[i].value] + Values(items) == out + ([ts[i].value] + Values(items));
      MoreItem(ts[i], items);
      assert [ts[i], Sym(',')] + (Commas(items) + [Sym(']')]) == [ts[i], Sym(',')] + Commas(items) + [Sym(']')];
      items := [ts[i]] + items;
    }
  }

  lemma OneItem(t: Token)
    ensures Commas([t]) == [t] && Values([t]) == [t.value]
  {
  }

  lemma MoreItem(t: Token, items: seq<Token>)
    requires items != []
    ensures Commas([t] + items) == [t, Sym(',')] + Commas(items) && Values([t] + items) == [t.value] + Values(items)
  {
    assert ([t] + items)[1..] == items;
  }

  lemma Punctuation(ts: seq<Token>, i: nat)
    requires Read(ts) && i < |ts|
    ensures ts[i].kind.SYMBOL? ==> ts[i] == Sym(ts[i].kind.c)
    ensures ts[i].kind.KEYWORD? ==> ts[i] == Kw(ts[i].kind.word)
    ensures ts[i].kind == EOF <==> i == |ts| - 1
  {
    assert Faithful(ts[i]);
  }

  lemma ListBack(ts: seq<Token>, i: nat) returns (items: seq<Token>)
    requires Read(ts) && Stream(ts) && i < |ts| && List(ts, i).Got?
    ensures var r := List(ts, i);
      Atoms(items) && r.value == Values(items) && ts[i..r.next] == Listed(items)
  {
    hide Read, ListRest, Atom, Commas, Values;
    Punctuation(ts, i);
    Punctuation(ts, i + 1);
    assert ts[i..i + 1] == [Sym('[')];
    if ts[i + 1].kind == SYMBOL(']') {
      items := [];
      NoItems();
      assert ts[i..i + 2] == [Sym('[')] + [] + [Sym(']')];
    } else {
      items := CommasBack(ts, i + 1, []);
      assert [] + Values(items) == Values(items);
      HereJoin(ts, i, i + 1, List(ts, i).next, [Sym('[')], Commas(items) + [Sym(']')]);
      assert [Sym('[')] + (Commas(items) + [Sym(']')]) == [Sym('[')] + Commas(items) + [Sym(']')];
    }
  }

  lemma NoItems()
    ensures Commas([]) == [] && Values([]) == []
  {
  }

  // Retry options

  lemma OptionHere(ts: seq<Token>, i: nat, o: Option, r: Retry, consumed: set<string>)
    requires Read(ts) && Stream(ts) && i < |ts| && OptionOk(o) && o.word !in consumed && Here(ts, i, OptionText(o))
    requires !o.comma ==> ts[i + 3].kind != SYMBOL(',')
    ensures RetryOption(ts, i, r, consumed) == Got((Set(r, o), consumed + {o.word}), i + |OptionText(o)|)
  {
    hide Spans, Says, DurationMs, NumberOf;
    HereAt(ts, i, OptionText(o), 0);
    HereAt(ts, i, OptionText(o), 1);
    HereAt(ts, i, OptionText(o), 2);
    if o.comma { HereAt(ts, i, OptionText(o), 3); }
    assert Faithful(ts[i + 2]);
    if o.word == "attempts" {
      NumberSays(o.value.value, o.number);
    } else {
      SpansNat(o.value.value, o.number);
      DurationSays(o.value.value, o.number);
    }
  }

  lemma SpansNat(value: string, ms: int)
    requires Spans(value, ms)
    ensures ms >= 0
  {
    var k: nat, n :| SpansAt(value, k, n, ms);
  }

  lemma OptionBack(ts: seq<Token>, i: nat, r: Retry, consumed: set<string>) returns (o: Option)
    requires Read(ts) && Stream(ts) && i < |ts| && RetryOption(ts, i, r, consumed).Got?
    ensures var got := RetryOption(ts, i, r, consumed);
      && OptionOk(o) && o.word !in consumed && ts[i..got.next] == OptionText(o)
      && got.value == (Set(r, o), consumed + {o.word})
  {
    hide Spans, Says, DurationMs, NumberOf;
    var word, value, comma := ts[i].kind.word, ts[i + 2], ts[i + 3].kind == SYMBOL(',');
    Punctuation(ts, i);
    Punctuation(ts, i + 1);
    Punctuation(ts, i + 3);
    assert Faithful(value);
    if word == "attempts" {
      o := Option(word, value, NumberOf(value.value), comma);
      NumberSays(value.value, o.number);
    } else {
      var ms := DurationMs(value.value).value;
      o := Option(word, value, ms, comma);
      DurationNext(value.value);
      DurationSays(value.value, ms);
    }
    var next := RetryOption(ts, i, r, consumed).next;
    assert ts[i..next] == OptionText(o);
  }

  ghost predicate Unused(options: seq<Option>, consumed: set<string>) {
    forall i :: 0 <= i < |options| ==> options[i].word !in consumed
  }

  lemma OptionsStep(o: Option, rest: seq<Option>, consumed: set<string>)
    ensures OptionsOk([o] + rest) && Unused([o] + rest, consumed)
        <==> OptionOk(o) && o.word !in consumed && OptionsOk(rest) && Unused(rest, consumed + {o.word})
    ensures OptionsText([o] + rest) == OptionText(o) + OptionsText(rest)
    ensures forall r :: SetAll(r, [o] + rest) == SetAll(Set(r, o), rest)
  {
    hide OptionOk, OptionText, Set;
    var options := [o] + rest;
    assert options[1..] == rest;
    if OptionsOk(options) && Unused(options, consumed) {
      assert options[0] == o;
      forall i | 0 <= i < |rest| ensures OptionOk(rest[i]) && rest[i].word !in consumed + {o.word} {
        assert rest[i] == options[i + 1];
      }
      forall i, j | 0 <= i < j < |rest| ensures rest[i].word != rest[j].word {
        assert rest[i] == options[i + 1] && rest[j] == options[j + 1];
      }
    }
    if OptionOk(o) && o.word !in consumed && OptionsOk(rest) && Unused(rest, consumed + {o.word}) {
      forall i | 0 <= i < |options| ensures OptionOk(options[i]) && options[i].word !in consumed {
        if i > 0 { assert rest[i - 1] == options[i]; }
      }
      forall i, j | 0 <= i < j < |options| ensures options[i].word != options[j].word {
        assert rest[j - 1] == options[j];
        if i > 0 { assert rest[i - 1] == options[i]; }
      }
    }
  }

  /** The options of a retry policy end with their line or with the task. */
  predicate Ends(ts: seq<Token>, i: nat) {
    i < |ts| && (ts[i].kind == NEWLINE || ts[i].kind == SYMBOL('}') || ts[i].kind == EOF)
  }

  lemma NoCommaNext(ts: seq<Token>, i: nat, options: seq<Option>)
    requires Here(ts, i, OptionsText(options)) && Ends(ts, i + |OptionsText(options)|)
    ensures i < |ts| && ts[i].kind != SYMBOL(',')
  {
    if options != [] { HereAt(ts, i, OptionsText(options), 0); }
  }

  lemma {:induction false} OptionsHere(ts: seq<Token>, i: nat, options: seq<Option>, r: Retry, consumed: set<string>)
    requires Read(ts) && Stream(ts) && i < |ts| && OptionsOk(options) && Unused(options, consumed)
    requires Here(ts, i, OptionsText(options)) && Ends(ts, i + |OptionsText(options)|)
    ensures RetryOptions(ts, i, r, consumed) == Got(SetAll(r, options), i + |OptionsText(options)|)
    decreases |options|
  {
    hide Read, Stream, OptionOk, RetryOption, OptionsOk, Unused, Here;
    if options != [] {
      var o, rest := options[0], options[1..];
      assert options == [o] + rest;
      OptionsStep(o, rest, consumed);
      HereSplit(ts, i, OptionText(o), OptionsText(rest));
      HereAt(ts, i, OptionText(o), 0);
      NoCommaNext(ts, i + |OptionText(o)|, rest);
      OptionHere(ts, i, o, r, consumed);
      OptionsHere(ts, i + |OptionText(o)|, rest, Set(r, o), consumed + {o.word});
    }
  }

  lemma {:induction false} OptionsBack(ts: seq<Token>, i: nat, r: Retry, consumed: set<string>)
    returns (options: seq<Option>)
    requires Read(ts) && Stream(ts) && i < |ts| && RetryOptions(ts, i, r, consumed).Got?
    ensures var got := RetryOptions(ts, i, r, consumed);
      && OptionsOk(options) && Unused(options, consumed) && ts[i..got.next] == OptionsText(options)
      && got.value == SetAll(r, options) && Ends(ts, got.next)
    decreases |ts| - i
  {
    hide Read, OptionOk, RetryOption, OptionText;
    if ts[i].kind == NEWLINE || ts[i].kind == SYMBOL('}') || ts[i].kind == EOF {
      options := [];
    } else {
      hide OptionsOk, Unused, OptionsText, SetAll;
      var o := OptionBack(ts, i, r, consumed);
      var j := RetryOption(ts, i, r, consumed).next;
      var rest := OptionsBack(ts, j, Set(r, o), consumed + {o.word});
      OptionsStep(o, rest, consumed);
      HereJoin(ts, i, j, RetryOptions(ts, i, r, consumed).next, OptionText(o), OptionsText(rest));
      options := [o] + rest;
    }
  }

  lemma PolicyHere(ts: seq<Token>, i: nat, options: seq<Option>)
    requires Read(ts) && Stream(ts) && i < |ts| && OptionsOk(options) && PolicyOk(PolicyOf(options))
    requires Here(ts, i, OptionsText(options)) && Ends(ts, i + |OptionsText(options)|)
    ensures RetryPolicy(ts, i) == Got(PolicyOf(options), i + |OptionsText(options)|)
  {
    hide RetryOptions, SetAll, OptionsText, Read, Here, Ends;
    OptionsHere(ts, i, options, DEFAULT_RETRY, {});
  }

  lemma PolicyBack(ts: seq<Token>, i: nat) returns (options: seq<Option>)
    requires Read(ts) && Stream(ts) && i < |ts| && RetryPolicy(ts, i).Got?
    ensures var got := RetryPolicy(ts, i);
      && OptionsOk(options) && PolicyOk(PolicyOf(options)) && ts[i..got.next] == OptionsText(options)
      && got.value == PolicyOf(options) && Ends(ts, got.next)
  {
    hide RetryOptions, SetAll, OptionsText, Read, Ends, OptionsOk;
    options := OptionsBack(ts, i, DEFAULT_RETRY, {});
  }

  // Fields

  /** The field may follow those that made `t` and are noted in `seen`. */
  predicate Fresh(f: FieldTree, t: TaskNode, seen: set<string>) {
    && (f.Env? ==> f.key.value !in t.env) && (f.Labels? ==> f.key.value !in t.labels)
    && FieldName(f) !in seen
  }

  lemma PairHere(ts: seq<Token>, i: nat, key: Token, value: Token)
    requires Read(ts) && Stream(ts) && i < |ts| && Atom(key) && Atom(value) && Here(ts, i, [key, Sym('='), value])
    ensures Pair(ts, i) == Got((key.value, value.value), i + 3)
  {
    hide Read;
    var w := [key, Sym('='), value];
    HereAt(ts, i, w, 0);
    HereAt(ts, i, w, 1);
    HereAt(ts, i, w, 2);
    AtomScalar(ts, i);
    AtomScalar(ts, i + 2);
  }

  lemma PairBack(ts: seq<Token>, i: nat)
    requires Read(ts) && Stream(ts) && i < |ts| && Pair(ts, i).Got?
    ensures i + 2 < |ts| && Atom(ts[i]) && Atom(ts[i + 2]) && ts[i..i + 3] == [ts[i], Sym('='), ts[i + 2]]
    ensures Pair(ts, i) == Got((ts[i].value, ts[i + 2].value), i + 3)
  {
    hide Read;
    AtomScalar(ts, i);
    Punctuation(ts, i + 1);
    AtomScalar(ts, i + 2);
  }

  lemma CommandHere(ts: seq<Token>, i: nat, f: FieldTree, split: Splitter)
    requires Read(ts) && Stream(ts) && i < |ts| && FieldOk(f, split) && (f.RunList? || f.RunText?)
    requires Here(ts, i, FieldRest(f))
    ensures Command(ts, i, split) == Got(if f.RunList? then Values(f.items) else f.words, i + |FieldRest(f)|)
  {
    hide Read, List;
    HereAt(ts, i, FieldRest(f), 0);
    if f.RunList? {
      ListHere(ts, i, f.items);
    } else {
      AtomScalar(ts, i);
    }
  }

  lemma CommandBack(ts: seq<Token>, i: nat, split: Splitter) returns (f: FieldTree)
    requires Read(ts) && Stream(ts) && i < |ts| && Command(ts, i, split).Got?
    ensures var got := Command(ts, i, split);
      && (f.RunList? || f.RunText?) && FieldOk(f, split) && ts[i..got.next] == FieldRest(f)
      && got.value == if f.RunList? then Values(f.items) else f.words
  {
    hide Read, List;
    if ts[i].kind == SYMBOL('[') {
      var items := ListBack(ts, i);
      f := RunList(items);
    } else {
      AtomScalar(ts, i);
      f := RunText(ts[i], split(ts[i].value).words);
      assert ts[i..i + 1] == [ts[i]];
    }
  }

  /** A field of the grammar is parsed as what it stands for. */
  lemma FieldHere(ts: seq<Token>, i: nat, f: FieldTree, t: TaskNode, seen: set<string>, split: Splitter)
    requires Read(ts) && Stream(ts) && i + 1 < |ts| && FieldOk(f, split) && Fresh(f, t, seen)
    requires ts[i] == Kw(FieldName(f)) && Here(ts, i + 1, FieldRest(f))
    requires f.RetryLine? ==> Ends(ts, i + 1 + |FieldRest(f)|)
    ensures Field(ts, i, t, seen, split) == Got(Put(t, f), i + 1 + |FieldRest(f)|)
  {
    hide Read, Stream, Here, List, Command, Pair, RetryPolicy, DurationSeconds, OptionsOk, PolicyOk, PolicyOf, Listed,
        Values,
      OptionsText, Ends, Atoms, Spans;
    match f
    case RunList(_) => CommandHere(ts, i + 1, f, split);
    case RunText(_, _) => CommandHere(ts, i + 1, f, split);
    case Needs(items) => ListHere(ts, i + 1, items);
    case Env(key, value) => PairHere(ts, i + 1, key, value);
    case Labels(key, value) => PairHere(ts, i + 1, key, value);
    case Timeout(duration, seconds) =>
      HereAt(ts, i + 1, [duration], 0);
      SpansNat(duration.value, 1000 * seconds);
      SecondsSay(duration.value, seconds);
    case RetryLine(options) => PolicyHere(ts, i + 1, options);
  }

  lemma FieldBack(ts: seq<Token>, i: nat, t: TaskNode, seen: set<string>, split: Splitter) returns (f: FieldTree)
    requires Read(ts) && Stream(ts) && i < |ts| && Field(ts, i, t, seen, split).Got?
    ensures var got := Field(ts, i, t, seen, split);
      && FieldOk(f, split) && Fresh(f, t, seen) && ts[i] == Kw(FieldName(f)) && got.value == Put(t, f)
      && ts[i + 1..got.next] == FieldRest(f)
      && (f.RetryLine? ==> Ends(ts, got.next))
  {
    hide Read, List, Command, Pair, RetryPolicy, DurationSeconds, OptionsOk, PolicyOk, PolicyOf, Listed, Values,
      OptionsText, Ends, Atoms, Spans, Stream;
    Punctuation(ts, i);
    Punctuation(ts, i + 1);
    var word := ts[i].kind.word;
    if word == "run" {
      f := CommandBack(ts, i + 1, split);
    } else if word == "needs" {
      var items := ListBack(ts, i + 1);
      f := Needs(items);
    } else if word == "env" {
      PairBack(ts, i + 1);
      f := Env(ts[i + 1], ts[i + 3]);
    } else if word == "labels" {
      PairBack(ts, i + 1);
      f := Labels(ts[i + 1], ts[i + 3]);
    } else if word == "timeout" {
      var seconds := DurationSeconds(ts[i + 1].value).value;
      SecondsNext(ts[i + 1].value);
      SecondsSay(ts[i + 1].value, seconds);
      f := Timeout(ts[i + 1], seconds);
      assert ts[i + 1..i + 2] == [ts[i + 1]];
    } else {
      var options := PolicyBack(ts, i + 1);
      f := RetryLine(options);
    }
  }

  lemma SecondsNext(value: string)
    ensures DurationSeconds(value).Got? ==> DurationSeconds(value).next == 0
  {
    hide DurationMs;
  }

  // Tasks

  ghost predicate AllFresh(lines: seq<LineTree>, t: TaskNode, seen: set<string>) {
    forall i :: 0 <= i < |lines| ==> Fresh(lines[i].field, t, seen)
  }

  lemma FreshAfter(f: FieldTree, g: FieldTree, t: TaskNode, seen: set<string>)
    ensures Fresh(g, t, seen) && !Clash(f, g) <==> Fresh(g, Put(t, f), Seen(seen, FieldName(f)))
  {
  }

  /** The lines may follow the fields that made `t` and are noted in `seen`. */
  ghost predicate Admitted(lines: seq<LineTree>, t: TaskNode, seen: set<string>, split: Splitter) {
    LinesOk(lines, split) && AllFresh(lines, t, seen)
  }

  ghost predicate FirstOk(l: LineTree, rest: seq<LineTree>, t: TaskNode, seen: set<string>, split: Splitter) {
    && FieldOk(l.field, split) && Fresh(l.field, t, seen)
    && (rest != [] && l.newlines == 0 ==> !l.field.RetryLine?)
  }

  lemma LinesSplit(l: LineTree, rest: seq<LineTree>, t: TaskNode, seen: set<string>, split: Splitter)
    requires Admitted([l] + rest, t, seen, split)
    ensures FirstOk(l, rest, t, seen, split)
    ensures Admitted(rest, Put(t, l.field), Seen(seen, FieldName(l.field)), split)
  {
    hide FieldOk, Fresh, Put, Seen, Clash, FieldName;
    var lines := [l] + rest;
    assert lines[0] == l;
    forall i | 0 <= i < |rest|
      ensures FieldOk(rest[i].field, split)
      ensures Fresh(rest[i].field, Put(t, l.field), Seen(seen, FieldName(l.field)))
      ensures i < |rest| - 1 && rest[i].newlines == 0 ==> !rest[i].field.RetryLine?
    {
      assert lines[i + 1] == rest[i];
      FreshAfter(l.field, rest[i].field, t, seen);
    }
    forall i, j | 0 <= i < j < |rest| ensures !Clash(rest[i].field, rest[j].field) {
      assert lines[i + 1] == rest[i] && lines[j + 1] == rest[j];
    }
  }

  lemma LinesAdd(l: LineTree, rest: seq<LineTree>, t: TaskNode, seen: set<string>, split: Splitter)
    requires FirstOk(l, rest, t, seen, split)
    requires Admitted(rest, Put(t, l.field), Seen(seen, FieldName(l.field)), split)
    ensures Admitted([l] + rest, t, seen, split)
  {
    hide FieldOk, Fresh, Put, Seen, Clash, FieldName;
    var lines := [l] + rest;
    forall j | 0 <= j < |rest| ensures Fresh(rest[j].field, t, seen) && !Clash(l.field, rest[j].field) {
      FreshAfter(l.field, rest[j].field, t, seen);
    }
    forall i | 0 <= i < |lines|
      ensures FieldOk(lines[i].field, split) && Fresh(lines[i].field, t, seen)
      ensures i < |lines| - 1 && lines[i].newlines == 0 ==> !lines[i].field.RetryLine?
    {
      if i > 0 { assert lines[i] == rest[i - 1]; }
    }
    forall i, j | 0 <= i < j < |lines| ensures !Clash(lines[i].field, lines[j].field) {
      assert lines[j] == rest[j - 1];
      if i > 0 { assert lines[i] == rest[i - 1]; }
    }
  }

  lemma LinesText1(l: LineTree, rest: seq<LineTree>)
    ensures LinesText([l] + rest) == [Kw(FieldName(l.field))]
        + (FieldRest(l.field) + (NewLines(l.newlines) + LinesText(rest)))
    ensures forall t :: PutAll(t, [l] + rest) == PutAll(Put(t, l.field), rest)
  {
    hide FieldRest, FieldName, NewLines, Put;
    assert ([l] + rest)[1..] == rest;
  }

  /** What follows the fields read so far: a field, or the closing brace. */
  lemma LineFollows(ts: seq<Token>, i: nat, lines: seq<LineTree>)
    requires Here(ts, i, LinesText(lines)) && Here(ts, i + |LinesText(lines)|, [Sym('}')])
    ensures i < |ts| && ts[i].kind != NEWLINE
    ensures lines == [] ==> ts[i].kind == SYMBOL('}')
    ensures lines != [] ==> FieldWord(ts[i].kind)
  {
    HereAt(ts, i + |LinesText(lines)|, [Sym('}')], 0);
    if lines != [] { HereAt(ts, i, LinesText(lines), 0); }
  }

  lemma LineEndHere(ts: seq<Token>, i: nat, n: nat)
    requires Read(ts) && Here(ts, i, NewLines(n)) && i + n < |ts|
    requires ts[i + n].kind == SYMBOL('}') || FieldWord(ts[i + n].kind)
    ensures LineEnd(ts, i) == Got((), i + n) && SkipNewlines(ts, i + n) == i + n
  {
    NewLinesHere(ts, i, n);
    if n > 0 { HereAt(ts, i, NewLines(n), 0); }
  }

  /** The options of a retry policy end with their line. */
  lemma EndsHere(ts: seq<Token>, i: nat, n: nat)
    requires Here(ts, i, NewLines(n)) && i + n < |ts| && (n == 0 ==> ts[i].kind == SYMBOL('}'))
    ensures Ends(ts, i)
  {
    if n > 0 { HereAt(ts, i, NewLines(n), 0); }
  }

  lemma LinePieces(ts: seq<Token>, i: nat, l: LineTree, rest: seq<LineTree>)
    requires Here(ts, i, LinesText([l] + rest))
    ensures i < |ts| && ts[i] == Kw(FieldName(l.field)) && Here(ts, i + 1, FieldRest(l.field))
    ensures var j := i + 1 + |FieldRest(l.field)|;
      && Here(ts, j, NewLines(l.newlines)) && Here(ts, j + l.newlines, LinesText(rest))
      && i + |LinesText([l] + rest)| == j + l.newlines + |LinesText(rest)|
  {
    hide Here, FieldRest, NewLines, LinesText, FieldName;
    LinesText1(l, rest);
    LinesLength(l.newlines);
    var f, n, name := l.field, l.newlines, Kw(FieldName(l.field));
    var tail := NewLines(n) + LinesText(rest);
    HereSplit(ts, i, [name], FieldRest(f) + tail);
    HereAt(ts, i, [name], 0);
    HereSplit(ts, i + 1, FieldRest(f), tail);
    HereSplit(ts, i + 1 + |FieldRest(f)|, NewLines(n), LinesText(rest));
  }

  lemma {:induction false} FieldsHere(ts: seq<Token>, i: nat, lines: seq<LineTree>, t: TaskNode, seen: set<string>,
                                      split: Splitter)
    requires Read(ts) && Stream(ts) && i < |ts| && Admitted(lines, t, seen, split)
    requires Here(ts, i, LinesText(lines)) && Here(ts, i + |LinesText(lines)|, [Sym('}')])
    ensures Fields(ts, i, t, seen, split) == Got(PutAll(t, lines), i + |LinesText(lines)|)
    decreases |lines|
  {
    hide Read, Stream, Here, Admitted, LinesText, PutAll, Field, LineEnd, FieldRest, FieldWord, Put, Fresh, FieldOk,
        Ends;
    LineFollows(ts, i, lines);
    if lines == [] {
      NoLines(t);
    } else {
      var l, rest := lines[0], lines[1..];
      assert lines == [l] + rest;
      LinesSplit(l, rest, t, seen, split);
      LinesText1(l, rest);
      LinePieces(ts, i, l, rest);
      var f, n := l.field, l.newlines;
      var j := i + 1 + |FieldRest(f)|;
      LineFollows(ts, j + n, rest);
      if f.RetryLine? { EndsHere(ts, j, n); }
      FieldHere(ts, i, f, t, seen, split);
      LineEndHere(ts, j, n);
      FieldsHere(ts, j + n, rest, Put(t, f), Seen(seen, FieldName(f)), split);
    }
  }

  lemma NoLines(t: TaskNode)
    ensures LinesText([]) == [] && PutAll(t, []) == t
  {
  }

  /** The end of a line is some ends of line, or what may follow a field on its line. */
  lemma LineEndBack(ts: seq<Token>, i: nat)
    requires Read(ts) && i < |ts| && LineEnd(ts, i).Got?
    ensures var j := LineEnd(ts, i).next;
      && i <= j < |ts| && ts[i..j] == NewLines(j - i) && SkipNewlines(ts, j) == j
      && (j == i ==> ts[i].kind == SYMBOL('}') || ts[i].kind == EOF || FieldWord(ts[i].kind))
  {
    NewLinesBack(ts, i);
  }

  lemma {:induction false} FieldsBack(ts: seq<Token>, i: nat, t: TaskNode, seen: set<string>, split: Splitter)
    returns (lines: seq<LineTree>)
    requires Read(ts) && Stream(ts) && i < |ts| && Fields(ts, i, t, seen, split).Got?
    ensures var got := Fields(ts, i, t, seen, split);
      && Admitted(lines, t, seen, split) && ts[i..got.next] == LinesText(lines) && got.value == PutAll(t, lines)
      && (lines != [] ==> FieldWord(ts[i].kind))
    decreases |ts| - i
  {
    hide Read, Admitted, LinesText, PutAll, Field, LineEnd, FieldRest, FieldWord, Put, Fresh, FieldOk, Seen, Ends;
    if ts[i].kind == SYMBOL('}') {
      lines := [];
      NoLines(t);
      NothingAdmitted(t, seen, split);
    } else {
      var f := FieldBack(ts, i, t, seen, split);
      var j := Field(ts, i, t, seen, split).next;
      var k := LineEnd(ts, j).next;
      LineEndBack(ts, j);
      var rest := FieldsBack(ts, k, Put(t, f), Seen(seen, FieldName(f)), split);
      var l := LineTree(f, k - j);
      NextLine(ts, j, k, l, rest, t, seen, split);
      LinesAdd(l, rest, t, seen, split);
      LinesText1(l, rest);
      var next := Fields(ts, i, t, seen, split).next;
      HereJoin(ts, j, k, next, NewLines(k - j), LinesText(rest));
      HereJoin(ts, i + 1, j, next, FieldRest(f), NewLines(k - j) + LinesText(rest));
      HereJoin(ts, i, i + 1, next, [ts[i]], FieldRest(f) + (NewLines(k - j) + LinesText(rest)));
      NameIsWord(ts[i], f);
      lines := [l] + rest;
    }
  }

  lemma NameIsWord(t: Token, f: FieldTree)
    requires t == Kw(FieldName(f))
    ensures FieldWord(t.kind)
  {
  }

  lemma NothingAdmitted(t: TaskNode, seen: set<string>, split: Splitter)
    ensures Admitted([], t, seen, split)
  {
  }

  lemma NextLine(ts: seq<Token>, j: nat, k: nat, l: LineTree, rest: seq<LineTree>, t: TaskNode, seen: set<string>,
                 split: Splitter)
    requires j <= k < |ts| && l.newlines == k - j && FieldOk(l.field, split) && Fresh(l.field, t, seen)
    requires l.field.RetryLine? ==> Ends(ts, j)
    requires rest != [] ==> FieldWord(ts[k].kind)
    ensures FirstOk(l, rest, t, seen, split)
  {
    hide FieldOk, Fresh;
  }

  lemma OpeningPieces(ts: seq<Token>, i: nat, word: string, name: Token, before: nat, after: nat)
    requires Here(ts, i, OpeningText(word, name, before, after))
    ensures i + 2 + before < |ts| && ts[i] == Kw(word) && ts[i + 1] == name && ts[i + 2 + before] == Sym('{')
    ensures Here(ts, i + 2, NewLines(before)) && Here(ts, i + 3 + before, NewLines(after))
    ensures |OpeningText(word, name, before, after)| == 3 + before + after
  {
    hide Here, NewLines;
    var tail := [Sym('{')] + NewLines(after);
    LinesLength(before);
    LinesLength(after);
    assert OpeningText(word, name, before, after) == [Kw(word), name] + (NewLines(before) + tail);
    HereSplit(ts, i, [Kw(word), name], NewLines(before) + tail);
    HereAt(ts, i, [Kw(word), name], 0);
    HereAt(ts, i, [Kw(word), name], 1);
    HereSplit(ts, i + 2, NewLines(before), tail);
    HereSplit(ts, i + 2 + before, [Sym('{')], NewLines(after));
    HereAt(ts, i + 2 + before, [Sym('{')], 0);
  }

  lemma LinesLength(n: nat)
    ensures |NewLines(n)| == n
  {
  }

  lemma OpeningHere(ts: seq<Token>, i: nat, word: string, name: Token, before: nat, after: nat)
    requires Read(ts) && Stream(ts) && i < |ts| && Atom(name)
    requires Here(ts, i, OpeningText(word, name, before, after))
    requires var j := i + |OpeningText(word, name, before, after)|; j < |ts| && ts[j].kind != NEWLINE
    ensures Opening(ts, i, word) == Got(name.value, i + |OpeningText(word, name, before, after)|)
  {
    hide Read, Here, OpeningText, NewLines, Scalar, SkipNewlines;
    OpeningPieces(ts, i, word, name, before, after);
    AtomScalar(ts, i + 1);
    NewLinesHere(ts, i + 2, before);
    NewLinesHere(ts, i + 3 + before, after);
  }

  lemma OpeningBack(ts: seq<Token>, i: nat, word: string) returns (name: Token, before: nat, after: nat)
    requires Read(ts) && Stream(ts) && i < |ts| && Opening(ts, i, word).Got?
    ensures var got := Opening(ts, i, word);
      Atom(name) && got.value == name.value && ts[i..got.next] == OpeningText(word, name, before, after)
  {
    hide Read, NewLines, Scalar, SkipNewlines;
    Punctuation(ts, i);
    AtomScalar(ts, i + 1);
    NewLinesBack(ts, i + 2);
    var j := SkipNewlines(ts, i + 2);
    Punctuation(ts, j);
    NewLinesBack(ts, j + 1);
    var k := SkipNewlines(ts, j + 1);
    name, before, after := ts[i + 1], j - i - 2, k - j - 1;
    assert ts[i..i + 2] == [ts[i], ts[i + 1]];
    assert ts[j..j + 1] == [ts[j]];
    OpeningJoin(ts, i, j, k, word, name);
  }

  lemma OpeningJoin(ts: seq<Token>, i: nat, j: nat, k: nat, word: string, name: Token)
    requires i + 2 <= j < k <= |ts| && ts[i..i + 2] == [Kw(word), name] && ts[i + 2..j] == NewLines(j - i - 2)
    requires ts[j..j + 1] == [Sym('{')] && ts[j + 1..k] == NewLines(k - j - 1)
    ensures ts[i..k] == OpeningText(word, name, j - i - 2, k - j - 1)
  {
    hide NewLines;
    var before, after := NewLines(j - i - 2), NewLines(k - j - 1);
    HereJoin(ts, i, i + 2, j, [Kw(word), name], before);
    HereJoin(ts, i, j, j + 1, [Kw(word), name] + before, [Sym('{')]);
    HereJoin(ts, i, j + 1, k, [Kw(word), name] + before + [Sym('{')], after);
  }

  lemma StartAdmitted(lines: seq<LineTree>, id: string, split: Splitter)
    ensures Admitted(lines, BlankTask(id), {}, split) <==> LinesOk(lines, split)
    ensures PutAll(BlankTask(id), lines) == TaskOf(id, lines)
  {
    hide LinesOk, PutAll;
  }

  /** The text of a task up to and including its closing brace. */
  function BlockText(id: Token, before: nat, after: nat, lines: seq<LineTree>): seq<Token> {
    OpeningText("task", id, before, after) + LinesText(lines) + [Sym('}')]
  }

  lemma BlockHere(ts: seq<Token>, i: nat, id: Token, before: nat, after: nat, lines: seq<LineTree>, split: Splitter)
    requires Read(ts) && Stream(ts) && i < |ts| && Atom(id) && LinesOk(lines, split)
    requires Here(ts, i, BlockText(id, before, after, lines)) && TaskOf(id.value, lines).command != []
    ensures Task(ts, i, split) == Got(TaskOf(id.value, lines), i + |BlockText(id, before, after, lines)|)
  {
    hide Read, Stream, Here, Opening, OpeningText, LinesText, LinesOk, Fields, TaskOf, Admitted;
    var open := OpeningText("task", id, before, after);
    var j := i + |open|;
    assert BlockText(id, before, after, lines) == open + (LinesText(lines) + [Sym('}')]);
    HereSplit(ts, i, open, LinesText(lines) + [Sym('}')]);
    HereSplit(ts, j, LinesText(lines), [Sym('}')]);
    LineFollows(ts, j, lines);
    OpeningHere(ts, i, "task", id, before, after);
    StartAdmitted(lines, id.value, split);
    FieldsHere(ts, j, lines, BlankTask(id.value), {}, split);
  }

  lemma BlockBack(ts: seq<Token>, i: nat, split: Splitter)
    returns (id: Token, before: nat, after: nat, lines: seq<LineTree>)
    requires Read(ts) && Stream(ts) && i < |ts| && Task(ts, i, split).Got?
    ensures var got := Task(ts, i, split);
      && Atom(id) && LinesOk(lines, split) && ts[i..got.next] == BlockText(id, before, after, lines)
      && got.value == TaskOf(id.value, lines) && TaskOf(id.value, lines).command != []
  {
    hide Read, Stream, Opening, OpeningText, LinesText, LinesOk, Fields, TaskOf, Admitted;
    id, before, after := OpeningBack(ts, i, "task");
    var j := Opening(ts, i, "task").next;
    lines := FieldsBack(ts, j, BlankTask(id.value), {}, split);
    StartAdmitted(lines, id.value, split);
    var k := Fields(ts, j, BlankTask(id.value), {}, split).next;
    Punctuation(ts, k);
    assert ts[k..k + 1] == [Sym('}')];
    HereJoin(ts, i, j, k, OpeningText("task", id, before, after), LinesText(lines));
    HereJoin(ts, i, k, k + 1, OpeningText("task", id, before, after) + LinesText(lines), [Sym('}')]);
  }

  // Workflows

  /** The entry may follow those that made `w`. */
  ghost predicate New(e: EntryTree, w: WorkflowNode) {
    && (e.Meta? ==> e.key.value !in w.metadata)
    && (e.Block? ==> !HasId(w.tasks, e.id.value))
  }

  lemma NewAfter(e: EntryTree, d: EntryTree, w: WorkflowNode)
    ensures New(d, w) && !SameEntry(e, d) <==> New(d, Append(w, e))
  {
    if e.Block? && d.Block? {
      var tasks := w.tasks + [TaskOf(e.id.value, e.lines)];
      IdKept(e.id.value, e.lines);
      assert tasks[|w.tasks|].id == e.id.value;
      if HasId(w.tasks, d.id.value) {
        var k :| 0 <= k < |w.tasks| && w.tasks[k].id == d.id.value;
        assert tasks[k].id == d.id.value;
      }
    }
  }

  lemma IdKept(id: string, lines: seq<LineTree>)
    ensures TaskOf(id, lines).id == id
  {
    PutAllId(BlankTask(id), lines);
  }

  lemma {:induction false} PutAllId(t: TaskNode, lines: seq<LineTree>)
    ensures PutAll(t, lines).id == t.id
    decreases |lines|
  {
    if lines != [] { PutAllId(Put(t, lines[0].field), lines[1..]); }
  }

  ghost predicate AllNew(entries: seq<EntryTree>, w: WorkflowNode) {
    forall i :: 0 <= i < |entries| ==> New(entries[i], w)
  }

  /** The entries may follow those that made `w`. */
  ghost predicate Extends(entries: seq<EntryTree>, w: WorkflowNode, split: Splitter) {
    EntriesOk(entries, split) && AllNew(entries, w)
  }

  ghost predicate FirstEntry(e: EntryTree, rest: seq<EntryTree>, w: WorkflowNode, split: Splitter) {
    EntryOk(e, split) && New(e, w) && (rest != [] && e.newlines == 0 ==> e.Block?)
  }

  lemma EntriesSplit(e: EntryTree, rest: seq<EntryTree>, w: WorkflowNode, split: Splitter)
    requires Extends([e] + rest, w, split)
    ensures FirstEntry(e, rest, w, split) && Extends(rest, Append(w, e), split)
  {
    hide EntryOk, New, Append, SameEntry;
    var entries := [e] + rest;
    assert entries[0] == e;
    forall i | 0 <= i < |rest|
      ensures EntryOk(rest[i], split) && New(rest[i], Append(w, e))
      ensures i < |rest| - 1 && rest[i].newlines == 0 ==> rest[i].Block?
    {
      assert entries[i + 1] == rest[i];
      NewAfter(e, rest[i], w);
    }
    forall i, j | 0 <= i < j < |rest| ensures !SameEntry(rest[i], rest[j]) {
      assert entries[i + 1] == rest[i] && entries[j + 1] == rest[j];
    }
  }

  lemma EntriesAdd(e: EntryTree, rest: seq<EntryTree>, w: WorkflowNode, split: Splitter)
    requires FirstEntry(e, rest, w, split) && Extends(rest, Append(w, e), split)
    ensures Extends([e] + rest, w, split)
  {
    hide EntryOk, New, Append, SameEntry;
    var entries := [e] + rest;
    forall j | 0 <= j < |rest| ensures New(rest[j], w) && !SameEntry(e, rest[j]) { NewAfter(e, rest[j], w); }
    forall i | 0 <= i < |entries|
      ensures EntryOk(entries[i], split) && New(entries[i], w)
      ensures i < |entries| - 1 && entries[i].newlines == 0 ==> entries[i].Block?
    {
      if i > 0 { assert entries[i] == rest[i - 1]; }
    }
    forall i, j | 0 <= i < j < |entries| ensures !SameEntry(entries[i], entries[j]) {
      assert entries[j] == rest[j - 1];
      if i > 0 { assert entries[i] == rest[i - 1]; }
    }
  }

  /** An entry without the ends of line after it. */
  function EntryCore(e: EntryTree): seq<Token> {
    match e
    case Meta(key, value, _) => [Kw("meta")] + [key, Sym('='), value]
    case Block(id, before, after, lines, _) => BlockText(id, before, after, lines)
  }

  lemma EntryCoreFirst(e: EntryTree)
    ensures EntryText(e) == EntryCore(e) + NewLines(e.newlines)
    ensures EntryCore(e) != [] && EntryCore(e)[0] == if e.Meta? then Kw("meta") else Kw("task")
  {
    hide LinesText;
    if e.Meta? { assert [Kw("meta"), e.key, Sym('='), e.value] == EntryCore(e); }
  }

  lemma EntriesText1(e: EntryTree, rest: seq<EntryTree>)
    ensures EntriesText([e] + rest) == EntryCore(e) + (NewLines(e.newlines) + EntriesText(rest))
    ensures forall w :: AppendAll(w, [e] + rest) == AppendAll(Append(w, e), rest)
  {
    hide EntryText, NewLines, Append, EntryCore;
    EntryCoreFirst(e);
    assert ([e] + rest)[1..] == rest;
  }

  /** What follows the entries read so far: an entry, or the closing brace. */
  lemma EntryFollows(ts: seq<Token>, i: nat, entries: seq<EntryTree>)
    requires Here(ts, i, EntriesText(entries)) && Here(ts, i + |EntriesText(entries)|, [Sym('}')])
    ensures i < |ts| && ts[i].kind != NEWLINE
    ensures entries == [] ==> ts[i].kind == SYMBOL('}')
    ensures entries != [] ==> ts[i].kind != SYMBOL('}')
  {
    hide EntryCore, EntryText;
    HereAt(ts, i + |EntriesText(entries)|, [Sym('}')], 0);
    if entries != [] {
      EntryCoreFirst(entries[0]);
      HereAt(ts, i, EntriesText(entries), 0);
    }
  }

  /** An entry of the grammar, with the ends of line after it. */
  lemma EntryHere(ts: seq<Token>, i: nat, e: EntryTree, w: WorkflowNode, split: Splitter)
    requires Read(ts) && Stream(ts) && i < |ts| && EntryOk(e, split) && New(e, w)
    requires Here(ts, i, EntryCore(e)) && Here(ts, i + |EntryCore(e)|, NewLines(e.newlines))
    requires var j := i + |EntryCore(e)| + e.newlines;
      j < |ts| && ts[j].kind != NEWLINE && (e.Meta? && e.newlines == 0 ==> ts[j].kind == SYMBOL('}'))
    ensures var got := Entry(ts, i, w, split);
      && got.Got? && got.value == Append(w, e)
      && SkipNewlines(ts, got.next) == i + |EntryCore(e)| + e.newlines
  {
    hide *;
    if e.Meta? {
      MetaLength(e);
      MetaHere(ts, i, e, w, split);
    } else {
      BlockParsed(ts, i, e, w, split);
      NewLinesHere(ts, i + |EntryCore(e)|, e.newlines);
      BlockEntry(ts, i, e, w, split);
    }
  }

  lemma MetaLength(e: EntryTree)
    ensures e.Meta? ==> |EntryCore(e)| == 4
  {
    hide BlockText;
  }

  lemma BlockParsed(ts: seq<Token>, i: nat, e: EntryTree, w: WorkflowNode, split: Splitter)
    requires Read(ts) && Stream(ts) && i < |ts| && e.Block? && EntryOk(e, split) && Here(ts, i, EntryCore(e))
    ensures Task(ts, i, split) == Got(TaskOf(e.id.value, e.lines), i + |EntryCore(e)|)
    ensures TaskOf(e.id.value, e.lines).id == e.id.value
  {
    hide Read, Stream, Here, LinesOk, BlockText, TaskOf, Task;
    BlockHere(ts, i, e.id, e.before, e.after, e.lines, split);
    IdKept(e.id.value, e.lines);
  }

  lemma BlockEntry(ts: seq<Token>, i: nat, e: EntryTree, w: WorkflowNode, split: Splitter)
    requires Stream(ts) && i < |ts| && e.Block? && Here(ts, i, EntryCore(e)) && New(e, w)
    requires TaskOf(e.id.value, e.lines).id == e.id.value
    requires Task(ts, i, split) == Got(TaskOf(e.id.value, e.lines), i + |EntryCore(e)|)
    ensures Entry(ts, i, w, split) == Got(Append(w, e), i + |EntryCore(e)|)
  {
    hide Here, Task, BlockText, TaskOf, HasId, EntryCore;
    HereAt(ts, i, EntryCore(e), 0) by { EntryCoreFirst(e); }
    EntryCoreFirst(e);
  }

  lemma MetaHere(ts: seq<Token>, i: nat, e: EntryTree, w: WorkflowNode, split: Splitter)
    requires Read(ts) && Stream(ts) && i < |ts| && e.Meta? && EntryOk(e, split) && New(e, w)
    requires Here(ts, i, EntryCore(e)) && Here(ts, i + 4, NewLines(e.newlines))
    requires var j := i + 4 + e.newlines;
      j < |ts| && ts[j].kind != NEWLINE && (e.newlines == 0 ==> ts[j].kind == SYMBOL('}'))
    ensures var got := Entry(ts, i, w, split);
      got.Got? && got.value == Append(w, e) && SkipNewlines(ts, got.next) == i + 4 + e.newlines
  {
    hide Read, Stream, Here, Pair, SkipNewlines, NewLines;
    var j, n := i + 4, e.newlines;
    MetaLength(e);
    HereSplit(ts, i, [Kw("meta")], [e.key, Sym('='), e.value]);
    HereAt(ts, i, [Kw("meta")], 0);
    PairHere(ts, i + 1, e.key, e.value);
    LinesLength(n);
    NewLinesHere(ts, j, n);
    if n > 0 {
      FirstLine(n);
      HereAt(ts, j, NewLines(n), 0);
    }
    SkippedAll(ts, j + n);
  }

  lemma FirstLine(n: nat)
    requires n > 0
    ensures |NewLines(n)| > 0 && NewLines(n)[0].kind == NEWLINE
  {
  }

  lemma SkippedAll(ts: seq<Token>, j: nat)
    requires j < |ts| && ts[j].kind != NEWLINE
    ensures SkipNewlines(ts, j) == j
  {
  }

  lemma {:induction false} EntriesHere(ts: seq<Token>, i: nat, entries: seq<EntryTree>, w: WorkflowNode,
      split: Splitter)
    requires Read(ts) && Stream(ts) && i < |ts| && Extends(entries, w, split)
    requires Here(ts, i, EntriesText(entries)) && Here(ts, i + |EntriesText(entries)|, [Sym('}')])
    ensures Entries(ts, i, w, split) == Got(AppendAll(w, entries), i + |EntriesText(entries)|)
    decreases |entries|
  {
    hide Read, Stream, Here, Extends, EntriesText, EntryCore, AppendAll, Entry, EntryOk, New, Append;
    EntryFollows(ts, i, entries);
    if entries == [] {
      NoEntries(w);
    } else {
      var e, rest := entries[0], entries[1..];
      assert entries == [e] + rest;
      EntriesSplit(e, rest, w, split);
      EntriesText1(e, rest);
      HereSplit(ts, i, EntryCore(e), NewLines(e.newlines) + EntriesText(rest));
      var j := i + |EntryCore(e)|;
      HereSplit(ts, j, NewLines(e.newlines), EntriesText(rest));
      EntryFollows(ts, j + e.newlines, rest);
      EntryHere(ts, i, e, w, split);
      EntriesHere(ts, j + e.newlines, rest, Append(w, e), split);
    }
  }

  lemma NoEntries(w: WorkflowNode)
    ensures EntriesText([]) == [] && AppendAll(w, []) == w
  {
  }

  lemma EntryBack(ts: seq<Token>, i: nat, w: WorkflowNode, split: Splitter) returns (e: EntryTree, j: nat)
    requires Read(ts) && Stream(ts) && i < |ts| && Entry(ts, i, w, split).Got?
    ensures var got := Entry(ts, i, w, split);
      && EntryOk(e, split) && New(e, w) && got.value == Append(w, e)
      && i < j <= SkipNewlines(ts, got.next) && ts[i..j] == EntryCore(e)
      && SkipNewlines(ts, got.next) - j == e.newlines
      && ts[j..SkipNewlines(ts, got.next)] == NewLines(e.newlines)
      && (e.Meta? && e.newlines == 0 ==>
            ts[j].kind == SYMBOL('}') || ts[j].kind == EOF || FieldWord(ts[j].kind))
  {
    hide Read, Stream, Pair, Task, LinesOk, BlockText, TaskOf, HasId, FieldWord, LineEnd;
    Punctuation(ts, i);
    var next := Entry(ts, i, w, split).next;
    var end := SkipNewlines(ts, next);
    if ts[i].kind == KEYWORD("meta") {
      PairBack(ts, i + 1);
      j := i + 4;
      LineEndBack(ts, j);
      e := Meta(ts[i + 1], ts[i + 3], end - j);
      HereJoin(ts, i, i + 1, j, [Kw("meta")], [ts[i + 1], Sym('='), ts[i + 3]]);
    } else {
      var id, before, after, lines := BlockBack(ts, i, split);
      j := Task(ts, i, split).next;
      NewLinesBack(ts, j);
      e := Block(id, before, after, lines, end - j);
      IdKept(id.value, lines);
    }
  }

  lemma {:induction false} EntriesBack(ts: seq<Token>, i: nat, w: WorkflowNode, split: Splitter)
    returns (entries: seq<EntryTree>)
    requires Read(ts) && Stream(ts) && i < |ts| && Entries(ts, i, w, split).Got?
    ensures var got := Entries(ts, i, w, split);
      && Extends(entries, w, split) && ts[i..got.next] == EntriesText(entries) && got.value == AppendAll(w, entries)
      && (entries != [] ==> ts[i].kind == KEYWORD("meta") || ts[i].kind == KEYWORD("task"))
    decreases |ts| - i
  {
    hide Read, Stream, Extends, EntriesText, EntryCore, AppendAll, Entry, EntryOk, New, Append;
    if ts[i].kind == SYMBOL('}') {
      entries := [];
      NoEntries(w);
      NothingExtends(w, split);
    } else {
      var e, j := EntryBack(ts, i, w, split);
      var k := SkipNewlines(ts, Entry(ts, i, w, split).next);
      var rest := EntriesBack(ts, k, Append(w, e), split);
      EntriesText1(e, rest);
      EntriesAdd(e, rest, w, split);
      var next := Entries(ts, i, w, split).next;
      HereJoin(ts, j, k, next, NewLines(k - j), EntriesText(rest));
      HereJoin(ts, i, j, next, EntryCore(e), NewLines(k - j) + EntriesText(rest));
      EntryWord(ts, i, w, split);
      entries := [e] + rest;
    }
  }

  lemma EntryWord(ts: seq<Token>, i: nat, w: WorkflowNode, split: Splitter)
    requires Stream(ts) && i < |ts| && Entry(ts, i, w, split).Got?
    ensures ts[i].kind == KEYWORD("meta") || ts[i].kind == KEYWORD("task")
  {
    hide Pair, Task, LineEnd;
  }

  lemma NothingExtends(w: WorkflowNode, split: Splitter)
    ensures Extends([], w, split)
  {
  }

  // The whole source

  lemma SourcePieces(ts: seq<Token>, x: SourceTree) returns (i: nat, j: nat)
    requires ts == SourceText(x) + [Token(EOF, "")]
    ensures Here(ts, 0, NewLines(x.lead)) && Here(ts, x.lead, OpeningText("workflow", x.name, x.before, x.after))
    ensures i == x.lead + |OpeningText("workflow", x.name, x.before, x.after)| && Here(ts, i, EntriesText(x.entries))
    ensures j == i + |EntriesText(x.entries)| && Here(ts, j, [Sym('}')]) && Here(ts, j + 1, NewLines(x.trail))
    ensures j + 1 + x.trail == |ts| - 1
  {
    hide Here, OpeningText, EntriesText, NewLines;
    LinesLength(x.lead);
    LinesLength(x.trail);
    var open, body := OpeningText("workflow", x.name, x.before, x.after), EntriesText(x.entries);
    var end := NewLines(x.trail) + [Token(EOF, "")];
    assert ts == NewLines(x.lead) + (open + (body + ([Sym('}')] + end)));
    AllHere(ts);
    HereSplit(ts, 0, NewLines(x.lead), open + (body + ([Sym('}')] + end)));
    HereSplit(ts, x.lead, open, body + ([Sym('}')] + end));
    i := x.lead + |open|;
    HereSplit(ts, i, body, [Sym('}')] + end);
    j := i + |body|;
    HereSplit(ts, j, [Sym('}')], end);
    HereSplit(ts, j + 1, NewLines(x.trail), [Token(EOF, "")]);
  }

  lemma SourceHere(ts: seq<Token>, x: SourceTree, split: Splitter)
    requires Read(ts) && Stream(ts) && ts == SourceText(x) + [Token(EOF, "")] && SourceOk(x, split)
    ensures ParseTokens(ts, split).Got? && ParseTokens(ts, split).value == NodeOf(x)
  {
    hide Read, Stream, Here, Opening, OpeningText, EntriesText, Entries, Extends, EntriesOk, AppendAll, NewLines,
      SkipNewlines;
    var i, j := SourcePieces(ts, x);
    assert ts[j + 1 + x.trail].kind == EOF;
    EntryFollows(ts, i, x.entries);
    OpeningFirst(ts, x.lead, x.name, x.before, x.after);
    NewLinesHere(ts, 0, x.lead);
    OpeningHere(ts, x.lead, "workflow", x.name, x.before, x.after);
    StartExtends(x.entries, x.name.value, split);
    EntriesHere(ts, i, x.entries, WorkflowNode(x.name.value, map[], []), split);
    NewLinesHere(ts, j + 1, x.trail);
    HereAt(ts, j, [Sym('}')], 0);
    assert SkipNewlines(ts, 0) == x.lead;
    assert SkipNewlines(ts, j + 1) == |ts| - 1;
  }

  lemma AllHere(ts: seq<Token>)
    ensures Here(ts, 0, ts)
  {
    assert ts[0..0 + |ts|] == ts;
  }

  lemma OpeningFirst(ts: seq<Token>, i: nat, name: Token, before: nat, after: nat)
    requires Here(ts, i, OpeningText("workflow", name, before, after))
    ensures i < |ts| && ts[i].kind != NEWLINE
  {
    HereAt(ts, i, OpeningText("workflow", name, before, after), 0);
  }

  lemma StartExtends(entries: seq<EntryTree>, name: string, split: Splitter)
    ensures Extends(entries, WorkflowNode(name, map[], []), split) <==> EntriesOk(entries, split)
  {
    hide EntriesOk;
  }

  lemma SourceBack(ts: seq<Token>, split: Splitter) returns (x: SourceTree)
    requires Read(ts) && Stream(ts) && ParseTokens(ts, split).Got?
    ensures ts[..|ts| - 1] == SourceText(x) && SourceOk(x, split) && ParseTokens(ts, split).value == NodeOf(x)
  {
    hide Read, Opening, OpeningText, EntriesText, Entries, Extends, EntriesOk, AppendAll;
    NewLinesBack(ts, 0);
    var lead := SkipNewlines(ts, 0);
    var name, before, after := OpeningBack(ts, lead, "workflow");
    var i := Opening(ts, lead, "workflow").next;
    var w := WorkflowNode(name.value, map[], []);
    var entries := EntriesBack(ts, i, w, split);
    var j := Entries(ts, i, w, split).next;
    Punctuation(ts, j);
    NewLinesBack(ts, j + 1);
    var end := SkipNewlines(ts, j + 1);
    Punctuation(ts, end);
    StartExtends(entries, name.value, split);
    x := SourceTree(lead, name, before, after, entries, end - j - 1);
    var open, body := OpeningText("workflow", name, before, after), EntriesText(entries);
    assert ts[j..j + 1] == [Sym('}')];
    HereJoin(ts, 0, lead, i, NewLines(lead), open);
    HereJoin(ts, 0, i, j, NewLines(lead) + open, body);
    HereJoin(ts, 0, j, j + 1, NewLines(lead) + open + body, [Sym('}')]);
    HereJoin(ts, 0, j + 1, end, NewLines(lead) + open + body + [Sym('}')], NewLines(end - j - 1));
    assert ts[..|ts| - 1] == ts[0..end];
  }

  // Source texts

  lemma {:induction false} MeaningRead(ls: seq<Lexeme>)
    requires Legible(ls)
    ensures Read(Meaning(ls) + [Token(EOF, "")])
    decreases |ls|
  {
    hide LexemeOk, LexemeTokens, Join;
    if ls == [] {
      assert Meaning(ls) + [Token(EOF, "")] == [Token(EOF, "")];
    } else {
      MeaningRead(ls[1..]);
      AtMostOne(ls[0]);
      LexemeFaithful(ls[0], Join(ls[1..]));
      ReadMore(LexemeTokens(ls[0]), Meaning(ls[1..]) + [Token(EOF, "")]);
      assert Meaning(ls) + [Token(EOF, "")] == LexemeTokens(ls[0]) + (Meaning(ls[1..]) + [Token(EOF, "")]);
    }
  }

  lemma LexemeFaithful(l: Lexeme, next: string)
    requires LexemeOk(l, next)
    ensures forall k :: 0 <= k < |LexemeTokens(l)| ==> Faithful(LexemeTokens(l)[k]) && LexemeTokens(l)[k].kind != EOF
  {
  }

  lemma ReadMore(ts: seq<Token>, rest: seq<Token>)
    requires Read(rest) && forall k :: 0 <= k < |ts| ==> Faithful(ts[k]) && ts[k].kind != EOF
    ensures Read(ts + rest)
  {
    hide Faithful;
  }

  /** The text is a workflow of the grammar that stands for `w`. */
  ghost predicate Denotes(source: string, split: Splitter, w: WorkflowNode) {
    exists ls, x :: Spells(source, ls, SourceText(x)) && SourceOk(x, split) && NodeOf(x) == w
  }

  /** The parser accepts exactly the texts of the grammar, as the workflows they stand for: whatever the blanks,
      comments, ends of line and spellings of strings, and with a command as a list or as one string. */
  lemma ParsesExactly(source: string, split: Splitter, w: WorkflowNode)
    ensures Parse(source, split).Got? && Parse(source, split).value == w <==> Denotes(source, split, w)
  {
    hide Lex, ParseTokens, Read, SourceText, SourceOk, NodeOf, Legible, Join, Meaning;
    if Denotes(source, split, w) {
      var ls, x :| Spells(source, ls, SourceText(x)) && SourceOk(x, split) && NodeOf(x) == w;
      LexesExactly(source, SourceText(x));
      MeaningRead(ls);
      StreamOf(SourceText(x) + [Token(EOF, "")]);
      SourceHere(SourceText(x) + [Token(EOF, "")], x, split);
    }
    if Parse(source, split).Got? && Parse(source, split).value == w {
      var ls := LexBack(source, 0);
      assert source[0..] == source;
      var ts := Meaning(ls) + [Token(EOF, "")];
      MeaningRead(ls);
      StreamOf(ts);
      var x := SourceBack(ts, split);
      assert ts[..|ts| - 1] == Meaning(ls);
      assert Spells(source, ls, SourceText(x));
    }
  }

  /** A text denotes at most one workflow. */
  lemma DenotesOne(source: string, split: Splitter, w: WorkflowNode, w': WorkflowNode)
    requires Denotes(source, split, w) && Denotes(source, split, w')
    ensures w == w'
  {
    hide Denotes, Parse;
    ParsesExactly(source, split, w);
    ParsesExactly(source, split, w');
  }
}
