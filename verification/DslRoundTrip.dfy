/** Parsing formatted workflow source gives the workflow back. */
module DslRoundTrip {
  import opened DslLexer
  import opened DslParser

  /** What the parser checks of a workflow, which leaves its strings open; `ParsedOk` shows that it checks all of
      this. */
  ghost predicate NodeOk(w: WorkflowNode) {
    && (forall i, j :: 0 <= i < j < |w.tasks| ==> w.tasks[i].id != w.tasks[j].id)
    && forall k :: 0 <= k < |w.tasks| ==> TaskOk(w.tasks[k])
  }

  predicate TaskOk(t: TaskNode) {
    t.command != [] && 0 <= t.timeoutSeconds <= 86_400 && RetryOk(t.retry) && t.retry.maxMs <= DAY_MS
  }

  /** No string holds a backspace or a form feed. */
  ghost predicate StringsReadable(w: WorkflowNode) {
    && Readable(w.name)
    && PairsReadable(w.metadata)
    && forall k :: 0 <= k < |w.tasks| ==> TaskReadable(w.tasks[k])
  }

  ghost predicate PairsReadable(m: map<string, string>) {
    forall k :: k in m ==> Readable(k) && Readable(m[k])
  }

  ghost predicate ListReadable(values: seq<string>) {
    forall k :: 0 <= k < |values| ==> Readable(values[k])
  }

  ghost predicate TaskReadable(t: TaskNode) {
    Readable(t.id) && ListReadable(t.command) && ListReadable(t.dependsOn) && PairsReadable(t.env)
        && PairsReadable(t.labels)
  }

  // Tokens of items

  /** The tokens of the items stand at `i`, and more tokens follow. */
  ghost predicate IAt(ts: seq<Token>, i: nat, items: seq<Item>) {
    i + |items| < |ts| && forall k :: 0 <= k < |items| ==> ts[i + k] == TokenOf(items[k].piece)
  }

  lemma ISplit(ts: seq<Token>, i: nat, a: seq<Item>, b: seq<Item>)
    requires IAt(ts, i, a + b)
    ensures IAt(ts, i, a) && IAt(ts, i + |a|, b)
  {
    hide TokenOf;
    forall k | 0 <= k < |a| ensures ts[i + k] == TokenOf(a[k].piece) { assert (a + b)[k] == a[k]; }
    forall k | 0 <= k < |b| ensures ts[i + |a| + k] == TokenOf(b[k].piece) { assert (a + b)[|a| + k] == b[k]; }
  }

  lemma IToken(ts: seq<Token>, i: nat, items: seq<Item>, k: nat)
    requires IAt(ts, i, items) && k < |items|
    ensures ts[i + k] == TokenOf(items[k].piece)
  {
  }

  lemma NewlineSkipped(ts: seq<Token>, i: nat)
    requires i + 1 < |ts| && ts[i].kind == NEWLINE
    ensures SkipNewlines(ts, i) == SkipNewlines(ts, i + 1)
  {
  }

  lemma NothingSkipped(ts: seq<Token>, i: nat)
    requires i < |ts| && ts[i].kind != NEWLINE
    ensures SkipNewlines(ts, i) == i
  {
  }

  lemma {:induction false} SkipTwice(ts: seq<Token>, i: nat)
    requires i < |ts|
    ensures SkipNewlines(ts, SkipNewlines(ts, i)) == SkipNewlines(ts, i)
    decreases |ts| - i
  {
    if ts[i].kind == NEWLINE && i + 1 < |ts| { SkipTwice(ts, i + 1); }
  }

  /** The token of a written scalar is a scalar with that value. */
  lemma ScalarToken(v: string)
    ensures TokenOf(ScalarPiece(v)).value == v && IsScalar(TokenOf(ScalarPiece(v)).kind)
  {
  }

  lemma ScalarBack(ts: seq<Token>, i: nat, v: string)
    requires Stream(ts) && i < |ts| && ts[i] == TokenOf(ScalarPiece(v))
    ensures Scalar(ts, i) == Got(v, i + 1)
  {
    hide TokenOf, ScalarPiece;
    ScalarToken(v);
  }

  lemma QuotedBack(ts: seq<Token>, i: nat, v: string)
    requires Stream(ts) && i < |ts| && ts[i] == TokenOf(Quoted(v))
    ensures Scalar(ts, i) == Got(v, i + 1)
  {
  }

  /** The tokens of keywords and marks. */
  lemma MarkTokens()
    ensures TokenOf(Newline).kind == NEWLINE
    ensures forall c :: TokenOf(Symbol(c)).kind == SYMBOL(c)
    ensures forall w :: w in KEYWORDS ==> TokenOf(Word(w)).kind == KEYWORD(w)
  {
  }

  lemma KeywordSet(w: string)
    requires w in {"workflow", "meta", "task", "run", "needs", "env", "labels", "timeout", "retry", "attempts", "base",
        "max"}
    ensures w in KEYWORDS
  {
  }

  // Pairs and openings

  lemma PairBack(ts: seq<Token>, i: nat, lead: nat, word: string, key: string, value: string)
    requires Stream(ts) && IAt(ts, i, PairItems(lead, word, key, value)) && word in KEYWORDS
    ensures ts[i].kind == KEYWORD(word) && Pair(ts, i + 1) == Got((key, value), i + 4) && ts[i + 4].kind == NEWLINE
  {
    hide TokenOf, ScalarPiece, KEYWORDS;
    var items := PairItems(lead, word, key, value);
    MarkTokens();
    IToken(ts, i, items, 0);
    IToken(ts, i, items, 1);
    IToken(ts, i, items, 2);
    IToken(ts, i, items, 3);
    IToken(ts, i, items, 4);
    ScalarBack(ts, i + 1, key);
    QuotedBack(ts, i + 3, value);
  }

  lemma {:induction false} OpeningBack(ts: seq<Token>, i: nat, lead: nat, word: string, name: string)
    requires Stream(ts) && IAt(ts, i, OpeningItems(lead, word, name)) && word in KEYWORDS
    ensures ts[i].kind == KEYWORD(word) && Opening(ts, i, word) == Got(name, SkipNewlines(ts, i + 4))
  {
    hide TokenOf, ScalarPiece, KEYWORDS;
    var items := OpeningItems(lead, word, name);
    MarkTokens();
    IToken(ts, i, items, 0);
    IToken(ts, i, items, 1);
    IToken(ts, i, items, 2);
    IToken(ts, i, items, 3);
    ScalarBack(ts, i + 1, name);
    NothingSkipped(ts, i + 2);
    NewlineSkipped(ts, i + 3);
  }

  // Lists

  /** Pieces that are read as the scalars `values`. */
  ghost predicate Denote(pieces: seq<Piece>, values: seq<string>) {
    |pieces| == |values| && forall k :: 0 <= k < |pieces| ==> DenotesOne(pieces[k], values[k])
  }

  ghost predicate DenotesOne(p: Piece, v: string) {
    TokenOf(p).value == v && IsScalar(TokenOf(p).kind)
  }

  lemma DenoteScalars(values: seq<string>)
    ensures Denote(ScalarPieces(values), values) && Denote(QuotedPieces(values), values)
  {
    hide TokenOf, ScalarPiece, IsScalar;
    forall k | 0 <= k < |values|
      ensures DenotesOne(ScalarPiece(values[k]), values[k]) && DenotesOne(Quoted(values[k]), values[k])
    {
      ScalarToken(values[k]);
      QuotedToken(values[k]);
    }
  }

  lemma QuotedToken(v: string)
    ensures TokenOf(Quoted(v)).value == v && IsScalar(TokenOf(Quoted(v)).kind)
  {
  }

  /** One element with what follows it. */
  lemma ElementBack(ts: seq<Token>, i: nat, p: Piece, v: string, out: seq<string>)
    requires Stream(ts) && i + 1 < |ts| && ts[i] == TokenOf(p) && DenotesOne(p, v)
    ensures ts[i + 1].kind == SYMBOL(']') ==> ListRest(ts, i, out) == Got(out + [v], i + 2)
    ensures ts[i + 1].kind == SYMBOL(',') && i + 2 < |ts| ==> ListRest(ts, i, out) == ListRest(ts, i + 2, out + [v])
  {
    hide TokenOf;
  }

  lemma {:induction false} MoreBack(ts: seq<Token>, i: nat, pieces: seq<Piece>, values: seq<string>, out: seq<string>)
    requires Stream(ts) && pieces != [] && Denote(pieces, values) && IAt(ts, i, MoreItems(pieces))
    ensures ListRest(ts, i, out) == Got(out + values, i + |MoreItems(pieces)|)
    decreases |pieces|
  {
    hide TokenOf, DenotesOne, ListRest;
    var items := MoreItems(pieces);
    MarkTokens();
    IToken(ts, i, items, 0);
    IToken(ts, i, items, 1);
    ElementBack(ts, i, pieces[0], values[0], out);
    if |pieces| == 1 {
      assert values == [values[0]];
    } else {
      ISplit(ts, i, items[..2], MoreItems(pieces[1..]));
      MoreBack(ts, i + 2, pieces[1..], values[1..], out + [values[0]]);
      assert out + [values[0]] + values[1..] == out + values;
    }
  }

  /** The list `[`, elements, `]` from its opening bracket. */
  lemma ListBack(ts: seq<Token>, i: nat, pieces: seq<Piece>, values: seq<string>)
    requires Stream(ts) && Denote(pieces, values) && i < |ts| && ts[i].kind == SYMBOL('[')
        && IAt(ts, i + 1, ListItems(pieces))
    ensures List(ts, i) == Got(values, i + 1 + |ListItems(pieces)|)
  {
    hide TokenOf, DenotesOne, ListRest;
    var items := ListItems(pieces);
    MarkTokens();
    IToken(ts, i + 1, items, 0);
    if pieces == [] {
      assert values == [];
    } else {
      FirstIsScalar(pieces, values);
      IToken(ts, i + 1, items, 1);
      ElementBack(ts, i + 1, pieces[0], values[0], []);
      if |pieces| == 1 {
        assert [] + [values[0]] == values;
      } else {
        ISplit(ts, i + 1, items[..2], MoreItems(pieces[1..]));
        MoreBack(ts, i + 3, pieces[1..], values[1..], [] + [values[0]]);
        assert [] + [values[0]] + values[1..] == values;
      }
    }
  }

  lemma FirstIsScalar(pieces: seq<Piece>, values: seq<string>)
    requires Denote(pieces, values) && pieces != []
    ensures TokenOf(pieces[0]).kind != SYMBOL(']')
  {
    assert DenotesOne(pieces[0], values[0]);
  }

  // Durations

  lemma {:induction false} NumberBack(n: nat)
    ensures NumberOf(Decimal(n)) == n
  {
    var ds := Decimal(n);
    if n >= 10 {
      NumberBack(n / 10);
      assert ds[..|ds| - 1] == Decimal(n / 10);
    } else {
      assert ds[..0] == [];
    }
  }

  function UnitMs(u: Unit): nat {
    match u case Milliseconds => 1 case Seconds => 1_000 case Minutes => 60_000 case Hours => 3_600_000
  }

  lemma UnitBack(u: Unit)
    ensures Multiplier(UnitText(u)) == UnitMs(u) && UnitText(u) != [] && !IsDigit(UnitText(u)[0])
  {
  }

  lemma DurationBack(n: nat, u: Unit)
    requires n * UnitMs(u) <= DAY_MS
    ensures DurationMs(Decimal(n) + UnitText(u)) == Got(n * UnitMs(u), 0)
  {
    hide Decimal, UnitText, NumberOf, Multiplier;
    var text := Decimal(n) + UnitText(u);
    UnitBack(u);
    assert text[0..|Decimal(n)|] == Decimal(n);
    DigitsEndAt(text, 0, Decimal(n));
    assert text[|Decimal(n)|..] == UnitText(u) && text[..|Decimal(n)|] == Decimal(n);
    NumberBack(n);
  }

  /** A formatted duration is read back as itself. */
  lemma SpanBack(ms: nat)
    requires ms <= DAY_MS
    ensures TokenOf(SpanPiece(ms)).kind == DURATION && DurationMs(TokenOf(SpanPiece(ms)).value) == Got(ms, 0)
  {
    hide DurationMs, Decimal, UnitText;
    var p := SpanPiece(ms);
    Divides(ms);
    DurationBack(p.n, p.unit);
  }

  lemma Divides(ms: nat)
    ensures SpanPiece(ms).Span? && SpanPiece(ms).n * UnitMs(SpanPiece(ms).unit) == ms
  {
  }

  // Retry policies

  lemma RetryOptionBack(ts: seq<Token>, i: nat, word: string, p: Piece, r: Retry, consumed: set<string>, r': Retry)
    requires Stream(ts) && i + 3 < |ts| && ts[i].kind == KEYWORD(word) && ts[i + 1].kind == SYMBOL('=')
        && ts[i + 2] == TokenOf(p)
    requires word in {"attempts", "base", "max"} && word !in consumed
    requires word == "attempts" ==> p.Numeral? && p.n >= 0 && r' == r.(attempts := p.n)
    requires word != "attempts" ==>
      TokenOf(p).kind == DURATION && DurationMs(TokenOf(p).value).Got?
      && r' == if word == "base" then r.(baseMs := DurationMs(TokenOf(p).value).value)
          else r.(maxMs := DurationMs(TokenOf(p).value).value)
    ensures ts[i + 3].kind == SYMBOL(',') && i + 4 < |ts| ==>
        RetryOption(ts, i, r, consumed) == Got((r', consumed + {word}), i + 4)
    ensures ts[i + 3].kind != SYMBOL(',') ==> RetryOption(ts, i, r, consumed) == Got((r', consumed + {word}), i + 3)
  {
    hide DurationMs, NumberOf, Decimal, UnitText, Dumps;
    if word == "attempts" { NumberBack(p.n); }
  }

  lemma OptionsStep(ts: seq<Token>, i: nat, r: Retry, consumed: set<string>)
    requires Stream(ts) && i < |ts| && RetryOption(ts, i, r, consumed).Got? && ts[i].kind.KEYWORD?
    ensures var got := RetryOption(ts, i, r, consumed);
      RetryOptions(ts, i, r, consumed) == RetryOptions(ts, got.next, got.value.0, got.value.1)
  {
    hide RetryOption;
  }

  lemma OptionsEnd(ts: seq<Token>, i: nat, r: Retry, consumed: set<string>)
    requires Stream(ts) && i < |ts| && ts[i].kind == NEWLINE
    ensures RetryOptions(ts, i, r, consumed) == Got(r, i)
  {
  }

  lemma RetryBack(ts: seq<Token>, i: nat, r: Retry)
    requires Stream(ts) && IAt(ts, i, RetryLine(r)) && RetryLine(r) != [] && RetryOk(r) && r.maxMs <= DAY_MS
    ensures ts[i].kind == KEYWORD("retry") && RetryPolicy(ts, i + 1) == Got(r, i + 12) && ts[i + 12].kind == NEWLINE
    ensures |RetryLine(r)| == 13
  {
    hide TokenOf, SpanPiece, DurationMs, RetryOption, RetryOptions, KEYWORDS;
    var items := RetryLine(r);
    MarkTokens();
    KeywordSet("retry");
    KeywordSet("attempts");
    KeywordSet("base");
    KeywordSet("max");
    RetryTokens(ts, i, r);
    SpanBack(r.baseMs);
    SpanBack(r.maxMs);
    var r1 := DEFAULT_RETRY.(attempts := r.attempts);
    var r2 := r1.(baseMs := r.baseMs);
    RetryOptionBack(ts, i + 1, "attempts", Numeral(r.attempts), DEFAULT_RETRY, {}, r1);
    OptionsStep(ts, i + 1, DEFAULT_RETRY, {});
    RetryOptionBack(ts, i + 5, "base", SpanPiece(r.baseMs), r1, {} + {"attempts"}, r2);
    OptionsStep(ts, i + 5, r1, {} + {"attempts"});
    RetryOptionBack(ts, i + 9, "max", SpanPiece(r.maxMs), r2, {} + {"attempts"} + {"base"}, r);
    OptionsStep(ts, i + 9, r2, {} + {"attempts"} + {"base"});
    OptionsEnd(ts, i + 12, r, {} + {"attempts"} + {"base"} + {"max"});
  }

  lemma RetryTokens(ts: seq<Token>, i: nat, r: Retry)
    requires IAt(ts, i, RetryLine(r)) && RetryLine(r) != []
    ensures |RetryLine(r)| == 13 && i + 13 < |ts|
    ensures ts[i] == TokenOf(Word("retry")) && ts[i + 1] == TokenOf(Word("attempts"))
        && ts[i + 2] == TokenOf(Symbol('='))
    ensures ts[i + 3] == TokenOf(Numeral(r.attempts)) && ts[i + 4] == TokenOf(Symbol(','))
        && ts[i + 5] == TokenOf(Word("base"))
    ensures ts[i + 6] == TokenOf(Symbol('=')) && ts[i + 7] == TokenOf(SpanPiece(r.baseMs))
        && ts[i + 8] == TokenOf(Symbol(','))
    ensures ts[i + 9] == TokenOf(Word("max")) && ts[i + 10] == TokenOf(Symbol('='))
        && ts[i + 11] == TokenOf(SpanPiece(r.maxMs))
    ensures ts[i + 12] == TokenOf(Newline)
  {
    hide TokenOf, SpanPiece;
    var items := RetryLine(r);
    IToken(ts, i, items, 0);
    IToken(ts, i, items, 1);
    IToken(ts, i, items, 2);
    IToken(ts, i, items, 3);
    IToken(ts, i, items, 4);
    IToken(ts, i, items, 5);
    IToken(ts, i, items, 6);
    IToken(ts, i, items, 7);
    IToken(ts, i, items, 8);
    IToken(ts, i, items, 9);
    IToken(ts, i, items, 10);
    IToken(ts, i, items, 11);
    IToken(ts, i, items, 12);
  }

  // The lines of a task

  /** Reading the fields from the next line on. */
  function FieldsFrom(ts: seq<Token>, i: nat, t: TaskNode, seen: set<string>, split: Splitter): Got<TaskNode>
    requires Stream(ts) && i < |ts|
  {
    Fields(ts, SkipNewlines(ts, i), t, seen, split)
  }

  /** A field that ends at a newline is followed by the fields of the next line. */
  lemma FieldStep(ts: seq<Token>, i: nat, n: nat, t: TaskNode, t': TaskNode, seen: set<string>, split: Splitter)
    requires Stream(ts) && i < n && n + 1 < |ts| && ts[i].kind.KEYWORD? && ts[n].kind == NEWLINE
    requires Field(ts, i, t, seen, split) == Got(t', n)
    ensures FieldsFrom(ts, i, t, seen, split) == FieldsFrom(ts, n + 1, t', Seen(seen, ts[i].kind.word), split)
  {
    hide Field, Seen;
    NothingSkipped(ts, i);
    NewlineSkipped(ts, n);
    SkipTwice(ts, n);
  }

  lemma RunBack(ts: seq<Token>, i: nat, t: TaskNode, command: seq<string>, seen: set<string>, split: Splitter)
    requires Stream(ts) && IAt(ts, i, ListLine("run", QuotedPieces(command))) && "run" !in seen
    ensures FieldsFrom(ts, i, t, seen, split)
         == FieldsFrom(ts, i + |ListLine("run", QuotedPieces(command))|, t.(command := command), Seen(seen, "run"),
             split)
  {
    hide TokenOf, List, Fields, KEYWORDS, ListItems, QuotedPieces, FieldsFrom;
    ListLineBack(ts, i, "run", QuotedPieces(command), command);
    var n := i + |ListLine("run", QuotedPieces(command))| - 1;
    FieldStep(ts, i, n, t, t.(command := command), seen, split);
  }

  lemma ListLineBack(ts: seq<Token>, i: nat, word: string, pieces: seq<Piece>, values: seq<string>)
    requires Stream(ts) && IAt(ts, i, ListLine(word, pieces)) && word in {"run", "needs"}
    requires pieces == QuotedPieces(values) || pieces == ScalarPieces(values)
    ensures var n := i + |ListLine(word, pieces)| - 1;
      i < n && n + 1 < |ts| && ts[i].kind == KEYWORD(word) && ts[i + 1].kind == SYMBOL('[')
      && List(ts, i + 1) == Got(values, n) && ts[n].kind == NEWLINE
  {
    hide TokenOf, List, KEYWORDS, ListItems, QuotedPieces, ScalarPieces, Denote;
    MarkTokens();
    KeywordSet(word);
    DenoteScalars(values);
    var head := [Item(4, Word(word)), Item(1, Symbol('['))];
    var tail := ListItems(pieces) + [Item(0, Newline)];
    assert ListLine(word, pieces) == head + tail;
    ISplit(ts, i, head, tail);
    ISplit(ts, i + 2, ListItems(pieces), [Item(0, Newline)]);
    IToken(ts, i, head, 0);
    IToken(ts, i, head, 1);
    IToken(ts, i + 2 + |ListItems(pieces)|, [Item(0, Newline)], 0);
    ListBack(ts, i + 1, pieces, values);
  }

  lemma NeedsBack(ts: seq<Token>, i: nat, t: TaskNode, deps: seq<string>, seen: set<string>, split: Splitter)
    requires Stream(ts) && IAt(ts, i, ListLine("needs", ScalarPieces(deps))) && "needs" !in seen
    ensures FieldsFrom(ts, i, t, seen, split)
         == FieldsFrom(ts, i + |ListLine("needs", ScalarPieces(deps))|, t.(dependsOn := deps), Seen(seen, "needs"),
             split)
  {
    hide TokenOf, List, Fields, KEYWORDS, ListItems, ScalarPieces, FieldsFrom;
    ListLineBack(ts, i, "needs", ScalarPieces(deps), deps);
    var n := i + |ListLine("needs", ScalarPieces(deps))| - 1;
    FieldStep(ts, i, n, t, t.(dependsOn := deps), seen, split);
  }

  /** The map with the pairs of `keys` added. */
  function WithPairs(base: map<string, string>, keys: seq<string>, m: map<string, string>): map<string, string>
    requires forall k :: k in keys ==> k in m
    decreases |keys|
  {
    if keys == [] then base else WithPairs(base[keys[0] := m[keys[0]]], keys[1..], m)
  }

  lemma {:induction false} WithPairsMeans(base: map<string, string>, keys: seq<string>, m: map<string, string>)
    requires forall k :: k in keys ==> k in m
    ensures forall k :: k in WithPairs(base, keys, m) <==> k in base || k in keys
    ensures forall k :: k in keys ==> WithPairs(base, keys, m)[k] == m[k]
    ensures forall k :: k in base && k !in keys ==> WithPairs(base, keys, m)[k] == base[k]
    decreases |keys|
  {
    if keys != [] {
      assert keys == [keys[0]] + keys[1..];
      WithPairsMeans(base[keys[0] := m[keys[0]]], keys[1..], m);
    }
  }

  lemma WithAllPairs(m: map<string, string>)
    ensures WithPairs(map[], SortedKeys(m.Keys), m) == m
  {
    WithPairsMeans(map[], SortedKeys(m.Keys), m);
  }

  ghost predicate Distinct(keys: seq<string>) {
    forall i, j :: 0 <= i < j < |keys| ==> keys[i] != keys[j]
  }

  /** A task with its environment, or its labels, replaced. */
  function WithMap(t: TaskNode, word: string, m: map<string, string>): TaskNode {
    if word == "env" then t.(env := m) else t.(labels := m)
  }

  function MapOf(t: TaskNode, word: string): map<string, string> {
    if word == "env" then t.env else t.labels
  }

  lemma PairField(ts: seq<Token>, i: nat, word: string, t: TaskNode, key: string, value: string, seen: set<string>,
      split: Splitter)
    requires Stream(ts) && i + 4 < |ts| && word in {"env", "labels"} && ts[i].kind == KEYWORD(word) && word !in seen
    requires Pair(ts, i + 1) == Got((key, value), i + 4) && key !in MapOf(t, word)
    ensures Field(ts, i, t, seen, split) == Got(WithMap(t, word, MapOf(t, word)[key := value]), i + 4)
    ensures Seen(seen, word) == seen
  {
    hide Pair;
  }

  lemma {:induction false} PairsBack(ts: seq<Token>, i: nat, word: string, keys: seq<string>, m: map<string, string>,
      t: TaskNode,
                                     seen: set<string>, split: Splitter)
    requires Stream(ts) && word in {"env", "labels"} && word !in seen && Distinct(keys)
    requires (forall k :: k in keys ==> k in m && k !in MapOf(t, word)) && IAt(ts, i, PairLines(4, word, keys, m))
    ensures FieldsFrom(ts, i, t, seen, split)
         == FieldsFrom(ts, i + |PairLines(4, word, keys, m)|, WithMap(t, word, WithPairs(MapOf(t, word), keys, m)),
             seen, split)
    decreases |keys|
  {
    hide TokenOf, Fields, FieldsFrom, Field, Pair, KEYWORDS, PairItems, Seen;
    if keys == [] {
      assert WithMap(t, word, MapOf(t, word)) == t;
    } else {
      var key := keys[0];
      var line := PairItems(4, word, key, m[key]);
      var t' := WithMap(t, word, MapOf(t, word)[key := m[key]]);
      KeywordSet(word);
      PairLength(4, word, key, m[key]);
      ISplit(ts, i, line, PairLines(4, word, keys[1..], m));
      PairBack(ts, i, 4, word, key, m[key]);
      PairField(ts, i, word, t, key, m[key], seen, split);
      FieldStep(ts, i, i + 4, t, t', seen, split);
      PairsBack(ts, i + 5, word, keys[1..], m, t', seen, split);
    }
  }

  lemma PairLength(lead: nat, word: string, key: string, value: string)
    ensures |PairItems(lead, word, key, value)| == 5
  {
  }

  lemma TimeoutBack(ts: seq<Token>, i: nat, seconds: nat, t: TaskNode, seen: set<string>, split: Splitter)
    requires Stream(ts) && i < |ts| && IAt(ts, i, TimeoutLine(seconds)) && seconds <= 86_400 && "timeout" !in seen
        && t.timeoutSeconds == 0
    ensures FieldsFrom(ts, i, t, seen, split)
         == FieldsFrom(ts, i + |TimeoutLine(seconds)|, t.(timeoutSeconds := seconds),
                       if seconds > 0 then Seen(seen, "timeout") else seen, split)
  {
    hide TokenOf, Fields, FieldsFrom, KEYWORDS, SpanPiece, DurationMs, Seen;
    if seconds > 0 {
      var items := TimeoutLine(seconds);
      MarkTokens();
      KeywordSet("timeout");
      IToken(ts, i, items, 0);
      IToken(ts, i, items, 1);
      IToken(ts, i, items, 2);
      SpanBack(seconds * 1000);
      WholeSeconds(ts[i + 1].value, seconds);
      FieldStep(ts, i, i + 2, t, t.(timeoutSeconds := seconds), seen, split);
    } else {
      assert t.(timeoutSeconds := 0) == t;
    }
  }

  lemma WholeSeconds(value: string, seconds: nat)
    requires DurationMs(value) == Got(seconds * 1000, 0)
    ensures DurationSeconds(value) == Got(seconds, 0)
  {
    hide DurationMs;
  }

  lemma RetryFieldBack(ts: seq<Token>, i: nat, r: Retry, t: TaskNode, seen: set<string>, split: Splitter)
    requires Stream(ts) && i < |ts| && IAt(ts, i, RetryLine(r)) && RetryOk(r) && r.maxMs <= DAY_MS && "retry" !in seen
        && t.retry == DEFAULT_RETRY
    ensures FieldsFrom(ts, i, t, seen, split)
         == FieldsFrom(ts, i + |RetryLine(r)|, t.(retry := r), if r != DEFAULT_RETRY then Seen(seen, "retry")
             else seen, split)
  {
    hide TokenOf, Fields, FieldsFrom, RetryPolicy, KEYWORDS, SpanPiece, Seen;
    if r != DEFAULT_RETRY {
      RetryBack(ts, i, r);
      FieldStep(ts, i, i + 12, t, t.(retry := r), seen, split);
    } else {
      assert t.(retry := DEFAULT_RETRY) == t;
    }
  }

  /** All the fields of a task, up to its closing brace. */
  lemma AllFieldsBack(ts: seq<Token>, i: nat, t: TaskNode, split: Splitter)
    requires Stream(ts) && TaskOk(t) && IAt(ts, i, FieldItems(t)) && ts[i + |FieldItems(t)|].kind == SYMBOL('}')
    ensures FieldsFrom(ts, i, BlankTask(t.id), {}, split) == Got(t, i + |FieldItems(t)|)
  {
    hide TokenOf, Fields, FieldsFrom, KEYWORDS, IAt, ListLine, PairLines, TimeoutLine, RetryLine, SortedKeys, Seen;
    var run, needs := ListLine("run", QuotedPieces(t.command)), if t.dependsOn == [] then []
        else ListLine("needs", ScalarPieces(t.dependsOn));
    var env, labels := PairLines(4, "env", SortedKeys(t.env.Keys), t.env),
        PairLines(4, "labels", SortedKeys(t.labels.Keys), t.labels);
    var timeout, retry := TimeoutLine(t.timeoutSeconds), RetryLine(t.retry);
    FieldSplit(ts, i, run, needs, env, labels, timeout, retry);
    var i1 := i + |run|;
    var i2 := i1 + |needs|;
    var i3 := i2 + |env|;
    var i4 := i3 + |labels|;
    var i5 := i4 + |timeout|;
    var t0 := BlankTask(t.id);
    var t1 := t0.(command := t.command);
    var t2 := t1.(dependsOn := t.dependsOn);
    var t3 := t2.(env := t.env);
    var t4 := t3.(labels := t.labels);
    var t5 := t4.(timeoutSeconds := t.timeoutSeconds);
    var s1 := Seen({}, "run");
    var s2 := if t.dependsOn == [] then s1 else Seen(s1, "needs");
    var s5 := if t.timeoutSeconds > 0 then Seen(s2, "timeout") else s2;
    SeenFacts(t);
    RunBack(ts, i, t0, t.command, {}, split);
    if t.dependsOn != [] { NeedsBack(ts, i1, t1, t.dependsOn, s1, split); } else { assert t2 == t1; }
    WithAllPairs(t.env);
    PairsBack(ts, i2, "env", SortedKeys(t.env.Keys), t.env, t2, s2, split);
    WithAllPairs(t.labels);
    PairsBack(ts, i3, "labels", SortedKeys(t.labels.Keys), t.labels, t3, s2, split);
    TimeoutBack(ts, i4, t.timeoutSeconds, t4, s2, split);
    RetryFieldBack(ts, i5, t.retry, t5, s5, split);
    FieldsEnd(ts, i5 + |retry|, t, if t.retry != DEFAULT_RETRY then Seen(s5, "retry") else s5, split);
  }

  /** No field is refused for having been seen. */
  lemma SeenFacts(t: TaskNode)
    ensures var s1 := Seen({}, "run");
      var s2 := if t.dependsOn == [] then s1 else Seen(s1, "needs");
      var s5 := if t.timeoutSeconds > 0 then Seen(s2, "timeout") else s2;
      && "run" !in {} && "needs" !in s1 && "env" !in s2 && "labels" !in s2 && "timeout" !in s2 && "retry" !in s5
  {
  }

  lemma FieldSplit(ts: seq<Token>, i: nat, run: seq<Item>, needs: seq<Item>, env: seq<Item>, labels: seq<Item>,
                   timeout: seq<Item>, retry: seq<Item>)
    requires IAt(ts, i, run + needs + env + labels + timeout + retry)
    ensures IAt(ts, i, run) && IAt(ts, i + |run|, needs) && IAt(ts, i + |run| + |needs|, env)
    ensures IAt(ts, i + |run| + |needs| + |env|, labels) && IAt(ts, i + |run| + |needs| + |env| + |labels|, timeout)
    ensures IAt(ts, i + |run| + |needs| + |env| + |labels| + |timeout|, retry)
    ensures i + |run| + |needs| + |env| + |labels| + |timeout| + |retry| < |ts|
  {
    hide TokenOf;
    ISplit(ts, i, run + needs + env + labels + timeout, retry);
    ISplit(ts, i, run + needs + env + labels, timeout);
    ISplit(ts, i, run + needs + env, labels);
    ISplit(ts, i, run + needs, env);
    ISplit(ts, i, run, needs);
  }

  lemma FieldsEnd(ts: seq<Token>, i: nat, t: TaskNode, seen: set<string>, split: Splitter)
    requires Stream(ts) && i < |ts| && ts[i].kind == SYMBOL('}')
    ensures FieldsFrom(ts, i, t, seen, split) == Got(t, i)
  {
  }

  lemma TaskBack(ts: seq<Token>, i: nat, t: TaskNode, split: Splitter)
    requires Stream(ts) && TaskOk(t) && IAt(ts, i, TaskItems(t))
    ensures ts[i].kind == KEYWORD("task") && Task(ts, i, split) == Got(t, i + |TaskItems(t)| - 1)
    ensures ts[i + |TaskItems(t)| - 1].kind == NEWLINE
  {
    hide TokenOf, Fields, KEYWORDS, FieldItems, OpeningItems, Opening;
    var opening, fields, closing := OpeningItems(2, "task", t.id), FieldItems(t), ClosingItems(2);
    KeywordSet("task");
    MarkTokens();
    ISplit(ts, i, opening + fields, closing);
    ISplit(ts, i, opening, fields);
    IToken(ts, i + |opening| + |fields|, closing, 0);
    IToken(ts, i + |opening| + |fields|, closing, 1);
    OpeningLength(2, "task", t.id);
    OpeningBack(ts, i, 2, "task", t.id);
    AllFieldsBack(ts, i + 4, t, split);
  }

  lemma OpeningLength(lead: nat, word: string, name: string)
    ensures |OpeningItems(lead, word, name)| == 4
  {
  }

  // The workflow

  function EntriesFrom(ts: seq<Token>, i: nat, w: WorkflowNode, split: Splitter): Got<WorkflowNode>
    requires Stream(ts) && i < |ts|
  {
    Entries(ts, SkipNewlines(ts, i), w, split)
  }

  /** An entry that ends before or at a newline is followed by the next entry. */
  lemma EntryStep(ts: seq<Token>, i: nat, n: nat, w: WorkflowNode, w': WorkflowNode, split: Splitter)
    requires Stream(ts) && i < |ts| && ts[i].kind.KEYWORD? && Entry(ts, i, w, split).Got?
        && Entry(ts, i, w, split).value == w'
    requires n < |ts| && SkipNewlines(ts, Entry(ts, i, w, split).next) == SkipNewlines(ts, n)
    ensures EntriesFrom(ts, i, w, split) == EntriesFrom(ts, n, w', split)
  {
    hide Entry;
    NothingSkipped(ts, i);
  }

  lemma MetaEntry(ts: seq<Token>, i: nat, w: WorkflowNode, key: string, value: string, split: Splitter)
    requires Stream(ts) && IAt(ts, i, PairItems(2, "meta", key, value)) && key !in w.metadata
    ensures EntriesFrom(ts, i, w, split) == EntriesFrom(ts, i + 5, w.(metadata := w.metadata[key := value]), split)
  {
    hide TokenOf, Pair, KEYWORDS, Task, Entries, EntriesFrom;
    KeywordSet("meta");
    PairLength(2, "meta", key, value);
    PairBack(ts, i, 2, "meta", key, value);
    SkipTwice(ts, i + 4);
    NewlineSkipped(ts, i + 4);
    EntryStep(ts, i, i + 5, w, w.(metadata := w.metadata[key := value]), split);
  }

  lemma {:induction false} MetasBack(ts: seq<Token>, i: nat, keys: seq<string>, m: map<string, string>, w: WorkflowNode,
      split: Splitter)
    requires Stream(ts) && Distinct(keys) && (forall k :: k in keys ==> k in m && k !in w.metadata)
    requires IAt(ts, i, PairLines(2, "meta", keys, m))
    ensures EntriesFrom(ts, i, w, split)
         == EntriesFrom(ts, i + |PairLines(2, "meta", keys, m)|, w.(metadata := WithPairs(w.metadata, keys, m)), split)
    decreases |keys|
  {
    hide TokenOf, Entries, EntriesFrom, KEYWORDS, PairItems;
    if keys == [] {
      assert w.(metadata := w.metadata) == w;
    } else {
      var key := keys[0];
      PairLength(2, "meta", key, m[key]);
      ISplit(ts, i, PairItems(2, "meta", key, m[key]), PairLines(2, "meta", keys[1..], m));
      MetaEntry(ts, i, w, key, m[key], split);
      MetasBack(ts, i + 5, keys[1..], m, w.(metadata := w.metadata[key := m[key]]), split);
    }
  }

  lemma TaskEntry(ts: seq<Token>, i: nat, w: WorkflowNode, t: TaskNode, split: Splitter)
    requires Stream(ts) && TaskOk(t) && IAt(ts, i, TaskItems(t)) && !HasId(w.tasks, t.id)
    ensures EntriesFrom(ts, i, w, split) == EntriesFrom(ts, i + |TaskItems(t)|, w.(tasks := w.tasks + [t]), split)
  {
    hide TokenOf, Task, KEYWORDS, TaskItems, HasId, Entries, EntriesFrom, Pair;
    TaskBack(ts, i, t, split);
    NewlineSkipped(ts, i + |TaskItems(t)| - 1);
    EntryStep(ts, i, i + |TaskItems(t)|, w, w.(tasks := w.tasks + [t]), split);
  }

  ghost predicate NewTasks(w: WorkflowNode, tasks: seq<TaskNode>) {
    && (forall k :: 0 <= k < |tasks| ==> TaskOk(tasks[k]) && !HasId(w.tasks, tasks[k].id))
    && (forall i, j :: 0 <= i < j < |tasks| ==> tasks[i].id != tasks[j].id)
  }

  lemma NewTasksRest(w: WorkflowNode, tasks: seq<TaskNode>)
    requires NewTasks(w, tasks) && tasks != []
    ensures NewTasks(w.(tasks := w.tasks + [tasks[0]]), tasks[1..])
  {
    var w' := w.(tasks := w.tasks + [tasks[0]]);
    forall k | 0 <= k < |tasks[1..]| ensures TaskOk(tasks[1..][k]) && !HasId(w'.tasks, tasks[1..][k].id) {
      assert tasks[1..][k] == tasks[k + 1] && !HasId(w.tasks, tasks[k + 1].id);
      OtherTask(w.tasks, tasks[0], tasks[k + 1].id);
    }
  }

  lemma OtherTask(tasks: seq<TaskNode>, t: TaskNode, id: string)
    requires !HasId(tasks, id) && t.id != id
    ensures !HasId(tasks + [t], id)
  {
    forall k | 0 <= k < |tasks + [t]| ensures (tasks + [t])[k].id != id {
      assert k < |tasks| ==> (tasks + [t])[k] == tasks[k];
    }
  }

  lemma {:induction false} TasksBack(ts: seq<Token>, i: nat, tasks: seq<TaskNode>, w: WorkflowNode, split: Splitter)
    requires Stream(ts) && NewTasks(w, tasks) && IAt(ts, i, TasksItems(tasks))
    ensures EntriesFrom(ts, i, w, split) == EntriesFrom(ts, i + |TasksItems(tasks)|, w.(tasks := w.tasks + tasks),
        split)
    decreases |tasks|
  {
    hide TokenOf, Entries, EntriesFrom, KEYWORDS, TaskItems, NewTasks, TaskOk, HasId;
    if tasks == [] {
      assert w.tasks + tasks == w.tasks;
    } else {
      FirstNew(w, tasks);
      var w' := w.(tasks := w.tasks + [tasks[0]]);
      if |tasks| == 1 {
        TaskEntry(ts, i, w, tasks[0], split);
        assert tasks == [tasks[0]];
      } else {
        var n := i + |TaskItems(tasks[0])|;
        ISplit(ts, i, TaskItems(tasks[0]) + [Item(0, Newline)], TasksItems(tasks[1..]));
        ISplit(ts, i, TaskItems(tasks[0]), [Item(0, Newline)]);
        TaskEntry(ts, i, w, tasks[0], split);
        IToken(ts, n, [Item(0, Newline)], 0);
        MarkTokens();
        GapSkipped(ts, n, w', split);
        NewTasksRest(w, tasks);
        TasksBack(ts, n + 1, tasks[1..], w', split);
        assert w.tasks + [tasks[0]] + tasks[1..] == w.tasks + tasks;
      }
    }
  }

  lemma FirstNew(w: WorkflowNode, tasks: seq<TaskNode>)
    requires NewTasks(w, tasks) && tasks != []
    ensures TaskOk(tasks[0]) && !HasId(w.tasks, tasks[0].id)
  {
  }

  lemma GapSkipped(ts: seq<Token>, i: nat, w: WorkflowNode, split: Splitter)
    requires Stream(ts) && i + 1 < |ts| && ts[i].kind == NEWLINE
    ensures EntriesFrom(ts, i, w, split) == EntriesFrom(ts, i + 1, w, split)
  {
    hide Entries;
    NewlineSkipped(ts, i);
  }

  lemma EntriesEnd(ts: seq<Token>, i: nat, w: WorkflowNode, split: Splitter)
    requires Stream(ts) && i < |ts| && ts[i].kind == SYMBOL('}')
    ensures EntriesFrom(ts, i, w, split) == Got(w, i)
  {
  }

  /** The parser reads the tokens of a formatted workflow back into the workflow. */
  lemma NodeBack(ts: seq<Token>, w: WorkflowNode, split: Splitter)
    requires Stream(ts) && NodeOk(w) && IAt(ts, 0, NodeItems(w)) && |ts| == |NodeItems(w)| + 1
    ensures ParseTokens(ts, split) == Got(w, |ts| - 1)
  {
    hide *;
    NodeParts(w);
    var opening, metas := OpeningItems(0, "workflow", w.name),
        PairLines(2, "meta", SortedKeys(w.metadata.Keys), w.metadata);
    var gap := if w.metadata != map[] && w.tasks != [] then [Item(0, Newline)] else [];
    var tasks, closing := TasksItems(w.tasks), ClosingItems(0);
    MarkTokens();
    KeywordSet("workflow");
    ISplit(ts, 0, opening + metas + gap + tasks, closing);
    ISplit(ts, 0, opening + metas + gap, tasks);
    ISplit(ts, 0, opening + metas, gap);
    ISplit(ts, 0, opening, metas);
    OpeningLength(0, "workflow", w.name);
    OpeningBack(ts, 0, 0, "workflow", w.name);
    NothingSkipped(ts, 0);
    var w0 := WorkflowNode(w.name, map[], []);
    var w1 := w0.(metadata := w.metadata);
    var n := 4 + |metas|;
    var n' := n + |gap|;
    WithAllPairs(w.metadata);
    SortedDistinct(w.metadata.Keys);
    StreamEnd(ts);
    MetasBack(ts, 4, SortedKeys(w.metadata.Keys), w.metadata, w0, split);
    if gap != [] {
      IToken(ts, n, gap, 0);
      GapSkipped(ts, n, w1, split);
    }
    AllNew(w1, w);
    TasksBack(ts, n', w.tasks, w1, split);
    assert [] + w.tasks == w.tasks;
    var end := n' + |tasks|;
    IToken(ts, end, closing, 0);
    IToken(ts, end, closing, 1);
    EntriesEnd(ts, end, w, split);
    NewlineSkipped(ts, end + 1);
    NothingSkipped(ts, end + 2);
    Finished(ts, w.name, w, end, split);
  }

  lemma SortedDistinct(keys: set<string>)
    ensures Distinct(SortedKeys(keys))
  {
  }

  lemma StreamEnd(ts: seq<Token>)
    requires Stream(ts)
    ensures |ts| > 0 && ts[|ts| - 1].kind == EOF
  {
  }

  lemma NodeParts(w: WorkflowNode)
    ensures NodeItems(w) ==
      OpeningItems(0, "workflow", w.name) + PairLines(2, "meta", SortedKeys(w.metadata.Keys), w.metadata)
      + (if w.metadata != map[] && w.tasks != [] then [Item(0, Newline)] else []) + TasksItems(w.tasks)
          + ClosingItems(0)
    ensures |ClosingItems(0)| == 2 && ClosingItems(0)[0].piece == Symbol('}') && ClosingItems(0)[1].piece == Newline
  {
    hide OpeningItems, PairLines, TasksItems;
  }

  lemma AllNew(w1: WorkflowNode, w: WorkflowNode)
    requires NodeOk(w) && w1.tasks == []
    ensures NewTasks(w1, w.tasks)
  {
    hide TaskOk;
  }

  lemma Finished(ts: seq<Token>, name: string, w: WorkflowNode, end: nat, split: Splitter)
    requires Stream(ts) && 5 < |ts| && SkipNewlines(ts, 0) == 0
        && Opening(ts, 0, "workflow") == Got(name, SkipNewlines(ts, 4))
    requires EntriesFrom(ts, 4, WorkflowNode(name, map[], []), split) == Got(w, end)
    requires end + 2 == |ts| - 1 && SkipNewlines(ts, end + 1) == end + 2
    ensures ParseTokens(ts, split) == Got(w, |ts| - 1)
  {
    hide Entries, Opening, SkipNewlines;
  }

  // The text

  /** Whole lines of well spaced pieces. */
  ghost predicate Lines(items: seq<Item>) {
    Spaced(items) && (items == [] || items[|items| - 1].piece.Newline?)
  }

  lemma LinesConcat(a: seq<Item>, b: seq<Item>)
    requires Lines(a) && Lines(b)
    ensures Lines(a + b)
  {
    hide Sound, Glues, Separate;
    var c := a + b;
    forall k | 0 <= k < |c| ensures Sound(c[k].piece) {
      assert c[k] == if k < |a| then a[k] else b[k - |a|];
    }
    forall k | 0 < k < |c| && Glues(c[k - 1].piece) ensures Separate(c[k]) {
      if k < |a| {
        assert c[k] == a[k] && c[k - 1] == a[k - 1];
      } else if k > |a| {
        assert c[k] == b[k - |a|] && c[k - 1] == b[k - 1 - |a|];
      } else {
        NewlineFree(c[k - 1].piece);
      }
    }
  }

  lemma NewlineFree(p: Piece)
    ensures p.Newline? ==> !Glues(p)
  {
  }

  lemma SoundKeyword(word: string)
    requires word in {"workflow", "meta", "task", "run", "needs", "env", "labels", "timeout", "retry", "attempts",
        "base", "max"}
    ensures Sound(Word(word))
  {
  }

  lemma SoundScalar(v: string)
    ensures Sound(ScalarPiece(v)) && Sound(Quoted(v))
  {
  }

  lemma PairLinesSound(lead: nat, word: string, key: string, value: string)
    requires word in {"meta", "env", "labels"} && lead > 0
    ensures Lines(PairItems(lead, word, key, value))
  {
    hide IdentText, ScalarPiece;
    SoundKeyword(word);
    SoundScalar(key);
  }

  lemma {:induction false} PairsSound(lead: nat, word: string, keys: seq<string>, m: map<string, string>)
    requires word in {"meta", "env", "labels"} && lead > 0 && forall k :: k in keys ==> k in m
    ensures Lines(PairLines(lead, word, keys, m))
    decreases |keys|
  {
    hide Lines, PairItems;
    if keys == [] {
      NoLines();
    } else {
      PairLinesSound(lead, word, keys[0], m[keys[0]]);
      PairsSound(lead, word, keys[1..], m);
      LinesConcat(PairItems(lead, word, keys[0], m[keys[0]]), PairLines(lead, word, keys[1..], m));
    }
  }

  lemma NoLines()
    ensures Lines([]) && Lines([Item(0, Newline)])
  {
  }

  lemma OpeningSound(lead: nat, word: string, name: string)
    requires word in {"workflow", "task"}
    ensures Lines(OpeningItems(lead, word, name))
  {
    hide IdentText, ScalarPiece;
    SoundKeyword(word);
    SoundScalar(name);
  }

  ghost predicate ScalarsOnly(pieces: seq<Piece>) {
    forall k :: 0 <= k < |pieces| ==> Sound(pieces[k]) && (pieces[k].Word? || pieces[k].Quoted?)
  }

  lemma {:induction false} MoreSound(pieces: seq<Piece>)
    requires pieces != [] && ScalarsOnly(pieces)
    ensures MoreItems(pieces) != [] && Spaced(MoreItems(pieces)) && Separate(MoreItems(pieces)[0])
    ensures MoreItems(pieces)[|MoreItems(pieces)| - 1] == Item(0, Symbol(']'))
    decreases |pieces|
  {
    hide IdentText;
    if |pieces| > 1 {
      var rest := MoreItems(pieces[1..]);
      MoreSound(pieces[1..]);
      SpacedConcat([Item(1, pieces[0]), Item(0, Symbol(','))], rest);
      assert MoreItems(pieces) == [Item(1, pieces[0]), Item(0, Symbol(','))] + rest;
    }
  }

  lemma ListLineSound(word: string, pieces: seq<Piece>)
    requires word in {"run", "needs"} && ScalarsOnly(pieces)
    ensures Lines(ListLine(word, pieces))
  {
    hide *;
    SoundKeyword(word);
    if |pieces| > 1 {
      var head, rest, end := ListHead(word, pieces[0]), MoreItems(pieces[1..]), [Item(0, Newline)];
      FirstScalar(pieces);
      MoreSound(pieces[1..]);
      HeadSound(word, pieces[0]);
      SpacedConcat(head, rest);
      SpacedConcat(head + rest, end);
      ListLineParts(word, pieces);
      WholeLines(head + rest, end);
    } else {
      ShortListSound(word, pieces);
    }
  }

  lemma FirstScalar(pieces: seq<Piece>)
    requires |pieces| > 1 && ScalarsOnly(pieces)
    ensures Sound(pieces[0]) && ScalarsOnly(pieces[1..])
  {
  }

  lemma ListLineParts(word: string, pieces: seq<Piece>)
    requires |pieces| > 1
    ensures ListLine(word, pieces) == ListHead(word, pieces[0]) + MoreItems(pieces[1..]) + [Item(0, Newline)]
  {
    hide MoreItems;
  }

  lemma WholeLines(a: seq<Item>, b: seq<Item>)
    requires Spaced(a + b) && b == [Item(0, Newline)]
    ensures Lines(a + b)
  {
    hide Spaced;
  }

  lemma ShortListSound(word: string, pieces: seq<Piece>)
    requires |pieces| <= 1 && ScalarsOnly(pieces) && Sound(Word(word))
    ensures Lines(ListLine(word, pieces))
  {
    hide IdentText, MoreItems;
  }

  function ListHead(word: string, p: Piece): seq<Item> {
    [Item(4, Word(word)), Item(1, Symbol('[')), Item(0, p), Item(0, Symbol(','))]
  }

  lemma HeadSound(word: string, p: Piece)
    requires Sound(Word(word)) && Sound(p)
    ensures Spaced(ListHead(word, p)) && Spaced([Item(0, Newline)])
    ensures |ListHead(word, p)| == 4 && !Glues(ListHead(word, p)[3].piece) && Separate(Item(0, Newline))
  {
    hide IdentText;
  }

  lemma SpacedConcat(a: seq<Item>, b: seq<Item>)
    requires Spaced(a) && Spaced(b) && a != [] && b != [] && (Glues(a[|a| - 1].piece) ==> Separate(b[0]))
    ensures Spaced(a + b)
  {
    hide Sound, Glues, Separate;
    var c := a + b;
    forall k | 0 <= k < |c| ensures Sound(c[k].piece) {
      assert c[k] == if k < |a| then a[k] else b[k - |a|];
    }
    forall k | 0 < k < |c| && Glues(c[k - 1].piece) ensures Separate(c[k]) {
      if k < |a| {
        assert c[k] == a[k] && c[k - 1] == a[k - 1];
      } else if k > |a| {
        assert c[k] == b[k - |a|] && c[k - 1] == b[k - 1 - |a|];
      }
    }
  }

  lemma ScalarsAre(values: seq<string>)
    ensures ScalarsOnly(ScalarPieces(values)) && ScalarsOnly(QuotedPieces(values))
  {
    forall k | 0 <= k < |values| ensures Sound(ScalarPiece(values[k])) && Sound(Quoted(values[k])) {
      SoundScalar(values[k]);
    }
  }

  lemma TimeoutSound(seconds: nat)
    ensures Lines(TimeoutLine(seconds))
  {
    hide IdentText;
    SoundKeyword("timeout");
  }

  lemma RetrySound(r: Retry)
    requires RetryOk(r)
    ensures Lines(RetryLine(r))
  {
    hide IdentText;
    SoundKeyword("retry");
    SoundKeyword("attempts");
    SoundKeyword("base");
    SoundKeyword("max");
    if RetryLine(r) != [] {
      SpanSound(r.baseMs);
      SpanSound(r.maxMs);
    }
  }

  lemma SpanSound(ms: int)
    ensures SpanPiece(ms).Span? && (ms >= 0 ==> Sound(SpanPiece(ms)))
  {
  }

  lemma TaskSound(t: TaskNode)
    requires TaskOk(t)
    ensures Lines(TaskItems(t))
  {
    hide Lines, ListLine, PairLines, TimeoutLine, RetryLine, OpeningItems, SortedKeys, ScalarPieces, QuotedPieces;
    var run, needs := ListLine("run", QuotedPieces(t.command)), if t.dependsOn == [] then []
        else ListLine("needs", ScalarPieces(t.dependsOn));
    var env, labels := PairLines(4, "env", SortedKeys(t.env.Keys), t.env),
        PairLines(4, "labels", SortedKeys(t.labels.Keys), t.labels);
    NoLines();
    ScalarsAre(t.command);
    ScalarsAre(t.dependsOn);
    ListLineSound("run", QuotedPieces(t.command));
    if t.dependsOn != [] { ListLineSound("needs", ScalarPieces(t.dependsOn)); }
    PairsSound(4, "env", SortedKeys(t.env.Keys), t.env);
    PairsSound(4, "labels", SortedKeys(t.labels.Keys), t.labels);
    TimeoutSound(t.timeoutSeconds);
    RetrySound(t.retry);
    LinesConcat(run, needs);
    LinesConcat(run + needs, env);
    LinesConcat(run + needs + env, labels);
    LinesConcat(run + needs + env + labels, TimeoutLine(t.timeoutSeconds));
    LinesConcat(run + needs + env + labels + TimeoutLine(t.timeoutSeconds), RetryLine(t.retry));
    OpeningSound(2, "task", t.id);
    ClosingSound(2);
    LinesConcat(OpeningItems(2, "task", t.id), FieldItems(t));
    LinesConcat(OpeningItems(2, "task", t.id) + FieldItems(t), ClosingItems(2));
  }

  lemma ClosingSound(lead: nat)
    ensures Lines(ClosingItems(lead))
  {
  }

  lemma {:induction false} TasksSound(tasks: seq<TaskNode>)
    requires forall k :: 0 <= k < |tasks| ==> TaskOk(tasks[k])
    ensures Lines(TasksItems(tasks))
    decreases |tasks|
  {
    hide Lines, TaskItems;
    NoLines();
    if tasks != [] {
      TaskSound(tasks[0]);
      if |tasks| > 1 {
        TasksSound(tasks[1..]);
        LinesConcat(TaskItems(tasks[0]), [Item(0, Newline)]);
        LinesConcat(TaskItems(tasks[0]) + [Item(0, Newline)], TasksItems(tasks[1..]));
      }
    }
  }

  lemma NodeSound(w: WorkflowNode)
    requires NodeOk(w)
    ensures Lines(NodeItems(w))
  {
    hide Lines, PairLines, OpeningItems, SortedKeys, TasksItems, ClosingItems;
    var opening, metas := OpeningItems(0, "workflow", w.name),
        PairLines(2, "meta", SortedKeys(w.metadata.Keys), w.metadata);
    var gap := if w.metadata != map[] && w.tasks != [] then [Item(0, Newline)] else [];
    NoLines();
    OpeningSound(0, "workflow", w.name);
    PairsSound(2, "meta", SortedKeys(w.metadata.Keys), w.metadata);
    TasksSound(w.tasks);
    ClosingSound(0);
    LinesConcat(opening, metas);
    LinesConcat(opening + metas, gap);
    LinesConcat(opening + metas + gap, TasksItems(w.tasks));
    LinesConcat(opening + metas + gap + TasksItems(w.tasks), ClosingItems(0));
  }

  // Which strings stop the lexer

  lemma ReadableConcat(a: seq<Item>, b: seq<Item>)
    ensures AllReadable(a + b) <==> AllReadable(a) && AllReadable(b)
  {
    hide Readable;
    var c := a + b;
    if AllReadable(c) {
      forall k | 0 <= k < |a| && a[k].piece.Quoted? ensures Readable(a[k].piece.value) { assert c[k] == a[k]; }
      forall k | 0 <= k < |b| && b[k].piece.Quoted? ensures Readable(b[k].piece.value) { assert c[|a| + k] == b[k]; }
    }
    if AllReadable(a) && AllReadable(b) {
      forall k | 0 <= k < |c| && c[k].piece.Quoted? ensures Readable(c[k].piece.value) {
        assert c[k] == if k < |a| then a[k] else b[k - |a|];
      }
    }
  }

  /** An identifier holds neither of the two characters. */
  lemma ScalarReadable(v: string)
    ensures ScalarPiece(v).Quoted? ==> ScalarPiece(v).value == v
    ensures !ScalarPiece(v).Quoted? ==> Readable(v)
  {
  }

  lemma PairReadable(lead: nat, word: string, key: string, value: string)
    ensures AllReadable(PairItems(lead, word, key, value)) <==> Readable(key) && Readable(value)
  {
    hide Readable, ScalarPiece;
    ScalarReadable(key);
    var items := PairItems(lead, word, key, value);
    assert items[3].piece == Quoted(value) && items[1].piece == ScalarPiece(key);
  }

  lemma {:induction false} PairLinesReadable(lead: nat, word: string, keys: seq<string>, m: map<string, string>)
    requires forall k :: k in keys ==> k in m
    ensures AllReadable(PairLines(lead, word, keys, m)) <==> forall k :: k in keys ==> Readable(k) && Readable(m[k])
    decreases |keys|
  {
    hide Readable, PairItems, AllReadable;
    if keys == [] {
      NothingReadable();
    } else {
      PairReadable(lead, word, keys[0], m[keys[0]]);
      PairLinesReadable(lead, word, keys[1..], m);
      ReadableConcat(PairItems(lead, word, keys[0], m[keys[0]]), PairLines(lead, word, keys[1..], m));
      assert keys == [keys[0]] + keys[1..];
    }
  }

  lemma NothingReadable()
    ensures AllReadable([]) && AllReadable([Item(0, Newline)]) && forall lead :: AllReadable(ClosingItems(lead))
  {
  }

  lemma OpeningReadable(lead: nat, word: string, name: string)
    ensures AllReadable(OpeningItems(lead, word, name)) <==> Readable(name)
  {
    hide Readable, ScalarPiece;
    ScalarReadable(name);
    assert OpeningItems(lead, word, name)[1].piece == ScalarPiece(name);
  }

  ghost predicate PiecesReadable(pieces: seq<Piece>) {
    forall k :: 0 <= k < |pieces| && pieces[k].Quoted? ==> Readable(pieces[k].value)
  }

  lemma {:induction false} MoreReadable(pieces: seq<Piece>)
    requires pieces != []
    ensures AllReadable(MoreItems(pieces)) <==> PiecesReadable(pieces)
    decreases |pieces|
  {
    hide Readable;
    if |pieces| > 1 {
      MoreReadable(pieces[1..]);
      var first := [Item(1, pieces[0]), Item(0, Symbol(','))];
      ReadableConcat(first, MoreItems(pieces[1..]));
      assert first[0].piece == pieces[0];
      assert pieces == [pieces[0]] + pieces[1..];
      PiecesStep(pieces);
    } else {
      assert MoreItems(pieces)[0].piece == pieces[0];
    }
  }

  lemma PiecesStep(pieces: seq<Piece>)
    requires pieces != []
    ensures PiecesReadable(pieces) <==> (pieces[0].Quoted? ==> Readable(pieces[0].value)) && PiecesReadable(pieces[1..])
  {
    hide Readable;
    var rest := pieces[1..];
    if PiecesReadable(rest) && (pieces[0].Quoted? ==> Readable(pieces[0].value)) {
      forall k | 0 <= k < |pieces| && pieces[k].Quoted? ensures Readable(pieces[k].value) {
        if k > 0 { assert rest[k - 1] == pieces[k]; }
      }
    }
    if PiecesReadable(pieces) {
      forall k | 0 <= k < |rest| && rest[k].Quoted? ensures Readable(rest[k].value) { assert pieces[k + 1] == rest[k]; }
    }
  }

  lemma ListLineReadable(word: string, pieces: seq<Piece>)
    ensures AllReadable(ListLine(word, pieces)) <==> PiecesReadable(pieces)
  {
    hide Readable, MoreItems;
    var head, list, tail := [Item(4, Word(word)), Item(1, Symbol('['))], ListItems(pieces), [Item(0, Newline)];
    ReadableConcat(head + list, tail);
    ReadableConcat(head, list);
    if |pieces| > 1 {
      var first := [Item(0, pieces[0]), Item(0, Symbol(','))];
      MoreReadable(pieces[1..]);
      ReadableConcat(first, MoreItems(pieces[1..]));
      assert first[0].piece == pieces[0];
      PiecesStep(pieces);
    } else if |pieces| == 1 {
      assert list[0].piece == pieces[0];
    }
  }

  lemma ScalarsReadable(values: seq<string>)
    ensures PiecesReadable(ScalarPieces(values)) <==> ListReadable(values)
    ensures PiecesReadable(QuotedPieces(values)) <==> ListReadable(values)
  {
    hide Readable, ScalarPiece;
    forall k | 0 <= k < |values| ensures (ScalarPiece(values[k]).Quoted? ==> ScalarPiece(values[k]).value == values[k])
                                      && (!ScalarPiece(values[k]).Quoted? ==> Readable(values[k])) {
      ScalarReadable(values[k]);
    }
    if PiecesReadable(ScalarPieces(values)) {
      forall k | 0 <= k < |values| ensures Readable(values[k]) {
        assert ScalarPieces(values)[k] == ScalarPiece(values[k]);
      }
    }
    if PiecesReadable(QuotedPieces(values)) {
      forall k | 0 <= k < |values| ensures Readable(values[k]) { assert QuotedPieces(values)[k] == Quoted(values[k]); }
    }
  }

  lemma PlainLines(seconds: int, r: Retry)
    ensures AllReadable(TimeoutLine(seconds)) && AllReadable(RetryLine(r))
  {
    SpanSound(seconds * 1000);
    if RetryLine(r) != [] {
      SpanSound(r.baseMs);
      SpanSound(r.maxMs);
    }
  }

  lemma TaskItemsReadable(t: TaskNode)
    ensures AllReadable(TaskItems(t)) <==> TaskReadable(t)
  {
    hide AllReadable, Readable, ListLine, PairLines, TimeoutLine, RetryLine, OpeningItems, SortedKeys, ScalarPieces,
        QuotedPieces,
         PiecesReadable, ListReadable, ClosingItems;
    var run, needs := ListLine("run", QuotedPieces(t.command)), if t.dependsOn == [] then []
        else ListLine("needs", ScalarPieces(t.dependsOn));
    var env, labels := PairLines(4, "env", SortedKeys(t.env.Keys), t.env),
        PairLines(4, "labels", SortedKeys(t.labels.Keys), t.labels);
    NothingReadable();
    ScalarsReadable(t.command);
    ScalarsReadable(t.dependsOn);
    EmptyReadable();
    ListLineReadable("run", QuotedPieces(t.command));
    ListLineReadable("needs", ScalarPieces(t.dependsOn));
    PairLinesReadable(4, "env", SortedKeys(t.env.Keys), t.env);
    PairLinesReadable(4, "labels", SortedKeys(t.labels.Keys), t.labels);
    PlainLines(t.timeoutSeconds, t.retry);
    ReadableConcat(run, needs);
    ReadableConcat(run + needs, env);
    ReadableConcat(run + needs + env, labels);
    ReadableConcat(run + needs + env + labels, TimeoutLine(t.timeoutSeconds));
    ReadableConcat(run + needs + env + labels + TimeoutLine(t.timeoutSeconds), RetryLine(t.retry));
    OpeningReadable(2, "task", t.id);
    ReadableConcat(OpeningItems(2, "task", t.id), FieldItems(t));
    ReadableConcat(OpeningItems(2, "task", t.id) + FieldItems(t), ClosingItems(2));
  }

  lemma EmptyReadable()
    ensures ListReadable([])
  {
  }

  lemma {:induction false} TasksReadable(tasks: seq<TaskNode>)
    ensures AllReadable(TasksItems(tasks)) <==> forall k :: 0 <= k < |tasks| ==> TaskReadable(tasks[k])
    decreases |tasks|
  {
    hide AllReadable, TaskItems, TaskReadable;
    NothingReadable();
    if tasks != [] {
      TaskItemsReadable(tasks[0]);
      if |tasks| > 1 {
        TasksReadable(tasks[1..]);
        ReadableConcat(TaskItems(tasks[0]), [Item(0, Newline)]);
        ReadableConcat(TaskItems(tasks[0]) + [Item(0, Newline)], TasksItems(tasks[1..]));
        RestReadable(tasks);
      }
    }
  }

  lemma RestReadable(tasks: seq<TaskNode>)
    requires tasks != []
    ensures (forall k :: 0 <= k < |tasks| ==> TaskReadable(tasks[k]))
      <==> TaskReadable(tasks[0]) && forall k :: 0 <= k < |tasks[1..]| ==> TaskReadable(tasks[1..][k])
  {
    hide TaskReadable;
    if TaskReadable(tasks[0]) && forall k :: 0 <= k < |tasks[1..]| ==> TaskReadable(tasks[1..][k]) {
      forall k | 0 <= k < |tasks| ensures TaskReadable(tasks[k]) { if k > 0 { assert tasks[1..][k - 1] == tasks[k]; } }
    }
  }

  lemma NodeReadable(w: WorkflowNode)
    ensures AllReadable(NodeItems(w)) <==> StringsReadable(w)
  {
    hide AllReadable, Readable, PairLines, OpeningItems, SortedKeys, TasksItems, ClosingItems, TaskReadable;
    var opening, metas := OpeningItems(0, "workflow", w.name),
        PairLines(2, "meta", SortedKeys(w.metadata.Keys), w.metadata);
    var gap := if w.metadata != map[] && w.tasks != [] then [Item(0, Newline)] else [];
    NothingReadable();
    OpeningReadable(0, "workflow", w.name);
    PairLinesReadable(2, "meta", SortedKeys(w.metadata.Keys), w.metadata);
    TasksReadable(w.tasks);
    ReadableConcat(opening, metas);
    ReadableConcat(opening + metas, gap);
    ReadableConcat(opening + metas + gap, TasksItems(w.tasks));
    ReadableConcat(opening + metas + gap + TasksItems(w.tasks), ClosingItems(0));
  }

  // The theorem

  lemma TokensAt(items: seq<Item>)
    ensures IAt(TokensOf(items) + [Token(EOF, "")], 0, items)
  {
  }

  /** Formatting and parsing gives the workflow back if and only if no string in it holds a backspace or a form feed:
      the formatter escapes these two, and the lexer knows no such escape. */
  lemma RoundTrip(w: WorkflowNode, split: Splitter)
    requires NodeOk(w)
    ensures StringsReadable(w) ==> Parse(Format(w), split).Got? && Parse(Format(w), split).value == w
    ensures !StringsReadable(w) ==> Parse(Format(w), split) == Rejected
  {
    hide ParseTokens, Flatten, NodeItems, AllReadable, StringsReadable, NodeOk, Lex, TokensOf, IAt, Spaced;
    var s, items := Format(w), NodeItems(w);
    NodeSound(w);
    NodeReadable(w);
    assert s[0..|s|] == s;
    LexItems(s, 0, items);
    LexStream(s, 0);
    if AllReadable(items) {
      TokensAt(items);
      NodeBack(TokensOf(items) + [Token(EOF, "")], w, split);
    }
  }

  /** Formatting what was parsed from formatted text changes nothing. */
  lemma FormattingIsStable(w: WorkflowNode, split: Splitter)
    requires NodeOk(w) && StringsReadable(w)
    ensures Parse(Format(w), split).Got? && Format(Parse(Format(w), split).value) == Format(w)
  {
    RoundTrip(w, split);
  }

  /** A name that the formatter escapes as `\b`, which the lexer does not read. */
  lemma BackspaceRejected(split: Splitter)
    ensures var w := WorkflowNode("\U{08}", map[], []);
      NodeOk(w) && !StringsReadable(w) && Parse(Format(w), split) == Rejected
  {
    hide Parse, Format;
    var w := WorkflowNode("\U{08}", map[], []);
    assert w.name[0] == '\U{08}';
    RoundTrip(w, split);
  }

  // What the parser accepts

  lemma DurationBound(value: string)
    ensures DurationMs(value).Got? ==> DurationMs(value).value <= DAY_MS
    ensures DurationSeconds(value).Got? ==> DurationSeconds(value).value <= 86_400
  {
  }

  lemma OptionBound(ts: seq<Token>, i: nat, r: Retry, consumed: set<string>)
    requires Stream(ts) && i < |ts| && r.maxMs <= DAY_MS
    ensures RetryOption(ts, i, r, consumed).Got? ==> RetryOption(ts, i, r, consumed).value.0.maxMs <= DAY_MS
  {
    hide DurationMs;
    if i + 2 < |ts| { DurationBound(ts[i + 2].value); }
  }

  lemma {:induction false} OptionsBound(ts: seq<Token>, i: nat, r: Retry, consumed: set<string>)
    requires Stream(ts) && i < |ts| && r.maxMs <= DAY_MS
    ensures RetryOptions(ts, i, r, consumed).Got? ==> RetryOptions(ts, i, r, consumed).value.maxMs <= DAY_MS
    decreases |ts| - i
  {
    hide Stream, RetryOption;
    if ts[i].kind != NEWLINE && ts[i].kind != SYMBOL('}') && ts[i].kind != EOF && RetryOption(ts, i, r, consumed).Got? {
      OptionBound(ts, i, r, consumed);
      var got := RetryOption(ts, i, r, consumed);
      OptionsBound(ts, got.next, got.value.0, got.value.1);
    }
  }

  /** A task as far as its fields have been read. */
  predicate FieldsOk(t: TaskNode) {
    0 <= t.timeoutSeconds <= 86_400 && RetryOk(t.retry) && t.retry.maxMs <= DAY_MS
  }

  lemma FieldOk(ts: seq<Token>, i: nat, t: TaskNode, seen: set<string>, split: Splitter)
    requires Stream(ts) && i < |ts| && FieldsOk(t)
    ensures Field(ts, i, t, seen, split).Got? ==> ts[i].kind.KEYWORD? && FieldsOk(Field(ts, i, t, seen, split).value)
  {
    hide Stream, Pair, List, Command, DurationSeconds, RetryOptions;
    if i + 1 < |ts| {
      DurationBound(ts[i + 1].value);
      OptionsBound(ts, i + 1, DEFAULT_RETRY, {});
    }
  }

  lemma {:induction false} FieldsParsed(ts: seq<Token>, i: nat, t: TaskNode, seen: set<string>, split: Splitter)
    requires Stream(ts) && i < |ts| && FieldsOk(t)
    ensures Fields(ts, i, t, seen, split).Got? ==> FieldsOk(Fields(ts, i, t, seen, split).value)
    decreases |ts| - i
  {
    hide Stream, Field, LineEnd, FieldsOk;
    if ts[i].kind != SYMBOL('}') && Field(ts, i, t, seen, split).Got? {
      FieldOk(ts, i, t, seen, split);
      var got := Field(ts, i, t, seen, split);
      if LineEnd(ts, got.next).Got? {
        var k := SkipNewlines(ts, LineEnd(ts, got.next).next);
        FieldsParsed(ts, k, got.value, Seen(seen, ts[i].kind.word), split);
      }
    }
  }

  lemma TaskParsed(ts: seq<Token>, i: nat, split: Splitter)
    requires Stream(ts) && i < |ts|
    ensures Task(ts, i, split).Got? ==> TaskOk(Task(ts, i, split).value)
  {
    hide Stream, Opening, Fields;
    match Opening(ts, i, "task")
    case Rejected =>
    case Got(id, j) => FieldsParsed(ts, j, BlankTask(id), {}, split);
  }

  lemma EntryParsed(ts: seq<Token>, i: nat, w: WorkflowNode, split: Splitter)
    requires Stream(ts) && i < |ts| && NodeOk(w)
    ensures Entry(ts, i, w, split).Got? ==> NodeOk(Entry(ts, i, w, split).value)
  {
    hide Stream, Pair, LineEnd, Task, TaskOk;
    TaskParsed(ts, i, split);
  }

  lemma {:induction false} EntriesParsed(ts: seq<Token>, i: nat, w: WorkflowNode, split: Splitter)
    requires Stream(ts) && i < |ts| && NodeOk(w)
    ensures Entries(ts, i, w, split).Got? ==> NodeOk(Entries(ts, i, w, split).value)
    decreases |ts| - i
  {
    hide Stream, Entry, NodeOk;
    if ts[i].kind != SYMBOL('}') && Entry(ts, i, w, split).Got? {
      EntryParsed(ts, i, w, split);
      var got := Entry(ts, i, w, split);
      EntriesParsed(ts, SkipNewlines(ts, got.next), got.value, split);
    }
  }

  lemma TokensParsed(ts: seq<Token>, split: Splitter)
    requires Stream(ts)
    ensures ParseTokens(ts, split).Got? ==> NodeOk(ParseTokens(ts, split).value)
  {
    hide Opening, Entries;
    assert |ts| > 0;
    match Opening(ts, SkipNewlines(ts, 0), "workflow")
    case Rejected =>
    case Got(name, i) => EntriesParsed(ts, i, WorkflowNode(name, map[], []), split);
  }

  /** Whatever the parser accepts meets the conditions of the round trip. */
  lemma ParsedOk(source: string, split: Splitter)
    ensures Parse(source, split).Got? ==> NodeOk(Parse(source, split).value)
  {
    hide Lex, ParseTokens, NodeOk;
    if Lex(source, 0).Tokens? {
      LexStream(source, 0);
      TokensParsed(Lex(source, 0).tokens, split);
    }
  }

  /** Any source that the parser accepts can be formatted and parsed again, with the same result, if and only if the
      workflow in it holds no backspace and no form feed; formatting it once more then changes nothing. */
  lemma AcceptedReparses(source: string, split: Splitter)
    requires Parse(source, split).Got?
    ensures
      var w := Parse(source, split).value;
      && (Parse(Format(w), split).Got? <==> StringsReadable(w))
      && (StringsReadable(w)
          ==> Parse(Format(w), split).value == w && Format(Parse(Format(w), split).value) == Format(w))
  {
    hide Parse, Format, StringsReadable, NodeOk;
    ParsedOk(source, split);
    RoundTrip(Parse(source, split).value, split);
  }

  /** The round trip on all workflow nodes, printable as source or not: formatting and parsing gives `w` back exactly if
      `w` passes the checks of the parser and all its strings are readable. */
  lemma RoundTripExactly(w: WorkflowNode, split: Splitter)
    ensures Parse(Format(w), split).Got? && Parse(Format(w), split).value == w <==> NodeOk(w) && StringsReadable(w)
  {
    hide Parse, Format, StringsReadable, NodeOk;
    if NodeOk(w) { RoundTrip(w, split); }
    ParsedOk(Format(w), split);
  }
}
