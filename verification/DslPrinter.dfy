/** The program text of `format_source`: lines appended to a list, which is joined at the end. */
module DslPrinter {
  import opened StringOrder
  import opened DslLexer
  import opened DslParser

  /** `quote_if_needed`. */
  function QuoteIfNeeded(v: string): (r: string)
    ensures r == PieceText(ScalarPiece(v))
  {
    if IdentText(v) && v !in KEYWORDS then v else Dumps(v)
  }

  /** `format_duration`. */
  function FormatDuration(ms: int): (r: string)
    ensures r == PieceText(SpanPiece(ms))
  {
    if ms % 3_600_000 == 0 then Decimal(ms / 3_600_000) + "h"
    else if ms % 60_000 == 0 then Decimal(ms / 60_000) + "m"
    else if ms % 1_000 == 0 then Decimal(ms / 1_000) + "s"
    else Decimal(ms) + "ms"
  }

  /** The lines joined, each ended by a newline. */
  function Joined(lines: seq<string>): string {
    if lines == [] then "" else Joined(lines[..|lines| - 1]) + lines[|lines| - 1] + "\n"
  }

  /** `", ".join(parts)`. */
  function CommaJoined(parts: seq<string>): string {
    if parts == [] then "" else if |parts| == 1 then parts[0] else parts[0] + ", " + CommaJoined(parts[1..])
  }

  // The lines, without their newlines

  function OpeningLine(indent: string, word: string, name: string): string {
    indent + word + " " + QuoteIfNeeded(name) + " {"
  }

  function PairLine(indent: string, word: string, key: string, value: string): string {
    indent + word + " " + QuoteIfNeeded(key) + " = " + Dumps(value)
  }

  function ListLineOf(word: string, parts: seq<string>): string {
    "    " + word + " [" + CommaJoined(parts) + "]"
  }

  function TimeoutLineOf(seconds: int): string {
    "    timeout " + FormatDuration(seconds * 1000)
  }

  function RetryLineOf(attempts: int, baseMs: int, maxMs: int): string {
    "    retry" + " attempts=" + Decimal(attempts) + "," + " base=" + FormatDuration(baseMs) + "," + " max="
        + FormatDuration(maxMs)
  }

  lemma JoinedLine(lines: seq<string>, line: string)
    ensures Joined(lines + [line]) == Joined(lines) + (line + "\n")
  {
    assert (lines + [line])[..|lines|] == lines;
  }

  // Texts of items

  lemma FlattenOne(item: Item)
    ensures Flatten([item]) == Spaces(item.lead) + PieceText(item.piece)
  {
    hide PieceText, Spaces;
    assert Flatten([item][1..]) == "";
  }

  lemma {:induction false} FlattenConcat(a: seq<Item>, b: seq<Item>)
    ensures Flatten(a + b) == Flatten(a) + Flatten(b)
  {
    hide *;
    if a == [] {
      assert a + b == b;
      NothingFlat();
      assert "" + Flatten(b) == Flatten(b);
    } else {
      FlattenStep(a);
      FlattenStep(a + b);
      assert (a + b)[0] == a[0] && (a + b)[1..] == a[1..] + b;
      FlattenConcat(a[1..], b);
      Nested(Spaces(a[0].lead), PieceText(a[0].piece), Flatten(a[1..]), Flatten(b));
    }
  }

  lemma Nested(a: string, b: string, c: string, d: string)
    ensures a + (b + (c + d)) == (a + (b + c)) + d
  {
  }

  lemma FlattenMore(item: Item, rest: seq<Item>)
    ensures Flatten([item] + rest) == Spaces(item.lead) + PieceText(item.piece) + Flatten(rest)
  {
    hide *;
    FlattenOne(item);
    FlattenConcat([item], rest);
  }

  lemma Blanks()
    ensures Spaces(0) == "" && Spaces(1) == " " && Spaces(2) == "  " && Spaces(4) == "    "
  {
    assert Spaces(1) == [' '] + Spaces(0) && Spaces(2) == [' '] + Spaces(1);
    assert Spaces(3) == [' '] + Spaces(2) && Spaces(4) == [' '] + Spaces(3);
  }

  lemma NothingFlat()
    ensures Flatten([]) == "" && Flatten([Item(0, Newline)]) == "\n"
  {
    FlattenOne(Item(0, Newline));
  }

  lemma Marks(c: char, w: string, v: string, n: int)
    ensures PieceText(Symbol(c)) == [c] && PieceText(Newline) == "\n" && PieceText(Word(w)) == w
    ensures PieceText(Quoted(v)) == Dumps(v) && PieceText(Numeral(n)) == Decimal(n)
  {
    hide Dumps, Decimal;
  }

  lemma OpeningText(lead: nat, word: string, name: string)
    ensures Flatten(OpeningItems(lead, word, name)) == OpeningLine(Spaces(lead), word, name) + "\n"
  {
    hide Flatten, Spaces, PieceText, ScalarPiece, QuoteIfNeeded;
    var a, b, c, d := Item(lead, Word(word)), Item(1, ScalarPiece(name)), Item(1, Symbol('{')), Item(0, Newline);
    assert OpeningItems(lead, word, name) == [a] + ([b] + ([c] + [d]));
    Blanks();
    NothingFlat();
    Marks('{', word, "", 0);
    FlattenMore(c, [d]);
    FlattenMore(b, [c] + [d]);
    FlattenMore(a, [b] + ([c] + [d]));
  }

  lemma PairText(lead: nat, word: string, key: string, value: string)
    ensures Flatten(PairItems(lead, word, key, value)) == PairLine(Spaces(lead), word, key, value) + "\n"
  {
    hide Flatten, Spaces, PieceText, ScalarPiece, Dumps, QuoteIfNeeded;
    var a, b, c, d, e := Item(lead, Word(word)), Item(1, ScalarPiece(key)), Item(1, Symbol('=')),
        Item(1, Quoted(value)), Item(0, Newline);
    assert PairItems(lead, word, key, value) == [a] + ([b] + ([c] + ([d] + [e])));
    Blanks();
    NothingFlat();
    Marks('=', word, value, 0);
    FlattenMore(d, [e]);
    FlattenMore(c, [d] + [e]);
    FlattenMore(b, [c] + ([d] + [e]));
    FlattenMore(a, [b] + ([c] + ([d] + [e])));
  }

  lemma ClosingText(lead: nat)
    ensures Flatten(ClosingItems(lead)) == (Spaces(lead) + "}") + "\n"
  {
    hide Flatten, Spaces, PieceText;
    var a, b := Item(lead, Symbol('}')), Item(0, Newline);
    assert ClosingItems(lead) == [a] + [b];
    NothingFlat();
    Marks('}', "", "", 0);
    FlattenMore(a, [b]);
  }

  function Texts(pieces: seq<Piece>): (r: seq<string>)
    ensures |r| == |pieces| && forall k :: 0 <= k < |r| ==> r[k] == PieceText(pieces[k])
  {
    seq(|pieces|, k requires 0 <= k < |pieces| => PieceText(pieces[k]))
  }

  lemma TextsStep(pieces: seq<Piece>)
    requires |pieces| > 1
    ensures CommaJoined(Texts(pieces)) == PieceText(pieces[0]) + ", " + CommaJoined(Texts(pieces[1..]))
  {
    hide PieceText;
    assert Texts(pieces)[1..] == Texts(pieces[1..]);
  }

  lemma TextsOne(pieces: seq<Piece>)
    requires |pieces| == 1
    ensures CommaJoined(Texts(pieces)) == PieceText(pieces[0])
  {
    hide PieceText;
  }

  /** The last element of a list, and its closing bracket. */
  lemma LastText(lead: nat, p: Piece)
    ensures Flatten([Item(lead, p), Item(0, Symbol(']'))]) == Spaces(lead) + PieceText(p) + "]"
  {
    hide Flatten, PieceText;
    var end := Item(0, Symbol(']'));
    assert [Item(lead, p), end] == [Item(lead, p)] + [end];
    Marks(']', "", "", 0);
    FlattenOne(end);
    FlattenMore(Item(lead, p), [end]);
  }

  /** An earlier element, with its comma. */
  lemma NextText(lead: nat, p: Piece, rest: seq<Item>, t: string)
    requires Flatten(rest) == " " + t + "]"
    ensures Flatten([Item(lead, p), Item(0, Symbol(','))] + rest) == Spaces(lead) + (PieceText(p) + ", " + t) + "]"
  {
    hide *;
    var comma := Item(0, Symbol(','));
    assert [Item(lead, p), comma] + rest == [Item(lead, p)] + ([comma] + rest);
    CommaText(rest);
    FlattenMore(Item(lead, p), [comma] + rest);
    assert "," + " " == ", ";
    Commas(Spaces(lead), PieceText(p), ",", " ", t, "]");
  }

  lemma Commas(a: string, p: string, c: string, b: string, t: string, e: string)
    ensures a + p + (c + (b + t + e)) == a + (p + (c + b) + t) + e
  {
  }

  lemma {:induction false} MoreText(pieces: seq<Piece>)
    requires pieces != []
    ensures Flatten(MoreItems(pieces)) == " " + CommaJoined(Texts(pieces)) + "]"
    decreases |pieces|
  {
    hide Flatten, Spaces, PieceText, CommaJoined, Texts;
    Blanks();
    if |pieces| == 1 {
      TextsOne(pieces);
      LastText(1, pieces[0]);
    } else {
      TextsStep(pieces);
      MoreText(pieces[1..]);
      NextText(1, pieces[0], MoreItems(pieces[1..]), CommaJoined(Texts(pieces[1..])));
    }
  }

  lemma ListText(pieces: seq<Piece>)
    ensures Flatten(ListItems(pieces)) == CommaJoined(Texts(pieces)) + "]"
  {
    hide Flatten, Spaces, PieceText, CommaJoined, Texts, MoreItems;
    Blanks();
    if pieces == [] {
      NoParts(pieces);
    } else if |pieces| == 1 {
      TextsOne(pieces);
      LastText(0, pieces[0]);
      NoBlank(CommaJoined(Texts(pieces)));
    } else {
      TextsStep(pieces);
      MoreText(pieces[1..]);
      NextText(0, pieces[0], MoreItems(pieces[1..]), CommaJoined(Texts(pieces[1..])));
      NoBlank(CommaJoined(Texts(pieces)));
    }
  }

  lemma NoBlank(t: string)
    ensures "" + t + "]" == t + "]"
  {
    assert "" + t == t;
  }

  lemma NoParts(pieces: seq<Piece>)
    requires pieces == []
    ensures Flatten(ListItems(pieces)) == CommaJoined(Texts(pieces)) + "]"
  {
    hide Spaces;
    Blanks();
    FlattenOne(Item(0, Symbol(']')));
  }

  lemma ListLineText(word: string, pieces: seq<Piece>)
    ensures Flatten(ListLine(word, pieces)) == ListLineOf(word, Texts(pieces)) + "\n"
  {
    hide Flatten, Spaces, PieceText, Texts, CommaJoined, ListItems;
    var a, b := Item(4, Word(word)), Item(1, Symbol('['));
    Blanks();
    NothingFlat();
    Marks('[', word, "", 0);
    ListText(pieces);
    FlattenConcat([a, b] + ListItems(pieces), [Item(0, Newline)]);
    FlattenConcat([a, b], ListItems(pieces));
    assert [a, b] == [a] + [b];
    FlattenOne(b);
    FlattenMore(a, [b]);
  }

  lemma TimeoutText(seconds: int)
    requires seconds != 0
    ensures Flatten(TimeoutLine(seconds)) == TimeoutLineOf(seconds) + "\n"
  {
    hide Flatten, Spaces, PieceText, SpanPiece, FormatDuration, TimeoutLineOf;
    var a, b, c := Item(4, Word("timeout")), Item(1, SpanPiece(seconds * 1000)), Item(0, Newline);
    assert TimeoutLine(seconds) == [a] + ([b] + [c]);
    TimeoutWords(seconds);
    Blanks();
    NothingFlat();
    Marks(' ', "timeout", "", 0);
    FlattenMore(b, [c]);
    FlattenMore(a, [b] + [c]);
  }

  lemma TimeoutWords(seconds: int)
    ensures Spaces(4) + "timeout" + (" " + FormatDuration(seconds * 1000) + "\n") == TimeoutLineOf(seconds) + "\n"
  {
    hide FormatDuration;
    var span := FormatDuration(seconds * 1000);
    Blanks();
    assert Spaces(4) + "timeout" + " " == "    timeout ";
    FourParts(Spaces(4) + "timeout", " ", span, "\n", "");
  }

  /** A word, an equals sign and a piece. */
  lemma OptionText(word: string, value: Piece, rest: seq<Item>)
    ensures Flatten([Item(1, Word(word)), Item(0, Symbol('=')), Item(0, value)] + rest) == (" " + word + "=")
        + (PieceText(value) + Flatten(rest))
  {
    hide Flatten, Spaces, PieceText;
    var a, b, c := Item(1, Word(word)), Item(0, Symbol('=')), Item(0, value);
    assert [a, b, c] + rest == [a] + ([b] + ([c] + rest));
    Blanks();
    Marks('=', word, "", 0);
    FlattenMore(c, rest);
    FlattenMore(b, [c] + rest);
    FlattenMore(a, [b] + ([c] + rest));
  }

  lemma RetryText(r: Retry)
    requires r != DEFAULT_RETRY
    ensures Flatten(RetryLine(r)) == RetryLineOf(r.attempts, r.baseMs, r.maxMs) + "\n"
  {
    hide Flatten, Spaces, PieceText, SpanPiece, FormatDuration, Decimal;
    var comma, end := Item(0, Symbol(',')), [Item(0, Newline)];
    var most := [Item(1, Word("max")), Item(0, Symbol('=')), Item(0, SpanPiece(r.maxMs))];
    var base := [Item(1, Word("base")), Item(0, Symbol('=')), Item(0, SpanPiece(r.baseMs))];
    var attempts := [Item(1, Word("attempts")), Item(0, Symbol('=')), Item(0, Numeral(r.attempts))];
    assert RetryLine(r) == [Item(4, Word("retry"))] + (attempts + ([comma] + (base + ([comma] + (most + end)))));
    RetryWords();
    NothingFlat();
    Marks(',', "retry", "", r.attempts);
    OptionText("max", SpanPiece(r.maxMs), end);
    CommaText(most + end);
    OptionText("base", SpanPiece(r.baseMs), [comma] + (most + end));
    CommaText(base + ([comma] + (most + end)));
    OptionText("attempts", Numeral(r.attempts), [comma] + (base + ([comma] + (most + end))));
    FlattenMore(Item(4, Word("retry")), attempts + ([comma] + (base + ([comma] + (most + end)))));
    Flattened("    retry", " attempts=", Decimal(r.attempts), ",", " base=", FormatDuration(r.baseMs), " max=",
        FormatDuration(r.maxMs), "\n");
  }

  lemma RetryWords()
    ensures Spaces(4) + "retry" == "    retry" && " " + "attempts" + "=" == " attempts="
        && " " + "base" + "=" == " base=" && " " + "max" + "=" == " max="
  {
    Blanks();
  }

  lemma CommaText(rest: seq<Item>)
    ensures Flatten([Item(0, Symbol(','))] + rest) == "," + Flatten(rest)
  {
    hide Flatten, Spaces, PieceText;
    Blanks();
    Marks(',', "", "", 0);
    FlattenMore(Item(0, Symbol(',')), rest);
  }

  lemma Flattened(a: string, b: string, c: string, d: string, e: string, f: string, g: string, h: string, i: string)
    ensures a + (b + (c + (d + (e + (f + (d + (g + (h + i)))))))) == a + b + c + d + e + f + d + g + h + i
  {
    FiveParts(f, d, g, h, i);
    FiveParts(b, c, d, e, f + d + g + h + i);
    var most, last := b + c + d + e, f + d + g + h + i;
    assert a + (most + last) == (a + most) + last;
    FourParts(a, b, c, d, e);
    SixParts(a + b + c + d + e, f, d, g, h, i);
  }

  lemma FiveParts(a: string, b: string, c: string, d: string, e: string)
    ensures a + (b + (c + (d + e))) == a + b + c + d + e
  {
  }

  lemma FourParts(a: string, b: string, c: string, d: string, e: string)
    ensures a + (b + c + d + e) == a + b + c + d + e
  {
  }

  lemma SixParts(a: string, b: string, c: string, d: string, e: string, f: string)
    ensures a + (b + c + d + e + f) == a + b + c + d + e + f
  {
  }

  // Sorted keys

  lemma LeastUnique(keys: set<string>, a: string, b: string)
    requires a in keys && b in keys && Least(keys, a) && Least(keys, b)
    ensures a == b
  {
    if a != b { LessAsymmetric(a, b); }
  }

  lemma SortedKeysStep(keys: set<string>, k: string)
    requires k in keys && Least(keys, k)
    ensures SortedKeys(keys) == [k] + SortedKeys(keys - {k})
  {
    var k' := SortedKeys(keys)[0];
    assert k' in keys && Least(keys, k') && SortedKeys(keys) == [k'] + SortedKeys(keys - {k'}) by {
      SortedKeysHead(keys);
    }
    LeastUnique(keys, k, k');
  }

  lemma SortedKeysHead(keys: set<string>)
    requires keys != {}
    ensures SortedKeys(keys) != []
    ensures
      var k := SortedKeys(keys)[0];
      k in keys && Least(keys, k) && SortedKeys(keys) == [k] + SortedKeys(keys - {k})
  {
    LeastExists(keys);
    assert exists k :: k in keys && Least(keys, k) && SortedKeys(keys) == [k] + SortedKeys(keys - {k});
  }

  method LeastKey(keys: set<string>) returns (k: string)
    requires keys != {}
    ensures k in keys && Least(keys, k)
  {
    k :| k in keys;
    var rest := keys - {k};
    ghost var seen := {k};
    while rest != {}
      invariant k in seen && seen !! rest && seen + rest == keys && Least(seen, k)
      decreases rest
    {
      var x :| x in rest;
      LessTotal(x, k);
      LeastStep(seen, k, x);
      if Less(x, k) { k := x; }
      rest, seen := rest - {x}, seen + {x};
    }
    assert seen == keys;
  }

  lemma LeastStep(keys: set<string>, k: string, x: string)
    requires k in keys && Least(keys, k) && x !in keys
    ensures Less(x, k) ==> Least(keys + {x}, x)
    ensures !Less(x, k) ==> Least(keys + {x}, k)
  {
    LessTotal(x, k);
    if Less(x, k) {
      forall y | y in keys + {x} && y != x ensures Less(x, y) {
        if y != k { LessTransitive(x, k, y); }
      }
    }
  }

  /** `sorted(keys)`. */
  method Sorted(keys: set<string>) returns (r: seq<string>)
    ensures r == SortedKeys(keys)
  {
    hide *;
    r := [];
    var rest := keys;
    assert [] + SortedKeys(keys) == SortedKeys(keys);
    while rest != {}
      invariant r + SortedKeys(rest) == SortedKeys(keys)
      decreases rest
    {
      var k := LeastKey(rest);
      SortedKeysStep(rest, k);
      assert r + ([k] + SortedKeys(rest - {k})) == (r + [k]) + SortedKeys(rest - {k});
      r, rest := r + [k], rest - {k};
    }
    NoKeys();
    assert r + [] == r;
  }

  lemma NoKeys()
    ensures SortedKeys({}) == []
  {
  }

  // The formatter

  /** The lines for the pairs of a map, in the order of their keys. */
  method AppendPairs(lines0: seq<string>, indent: string, word: string, m: map<string, string>)
      returns (lines: seq<string>)
    ensures Joined(lines) == Joined(lines0) + Flatten(PairLines(|indent|, word, SortedKeys(m.Keys), m))
    requires indent == Spaces(|indent|)
  {
    hide Joined, Flatten, PairLine, PairItems, PairLines, SortedKeys, Spaces;
    lines := lines0;
    var keys := Sorted(m.Keys);
    assert keys[0..] == keys;
    for k := 0 to |keys|
      invariant Joined(lines) + Flatten(PairLines(|indent|, word, keys[k..], m)) == Joined(lines0)
          + Flatten(PairLines(|indent|, word, keys, m))
    {
      var line := PairLine(indent, word, keys[k], m[keys[k]]);
      PairsFrom(|indent|, word, keys, m, k);
      PairText(|indent|, word, keys[k], m[keys[k]]);
      JoinedLine(lines, line);
      lines := lines + [line];
    }
    NoPairs(|indent|, word, m);
    assert keys[|keys|..] == [];
  }

  lemma PairsFrom(lead: nat, word: string, keys: seq<string>, m: map<string, string>, k: nat)
    requires k < |keys| && forall x :: x in keys ==> x in m
    ensures Flatten(PairLines(lead, word, keys[k..], m))
         == Flatten(PairItems(lead, word, keys[k], m[keys[k]])) + Flatten(PairLines(lead, word, keys[k + 1..], m))
  {
    hide Flatten, PairItems;
    assert keys[k..][1..] == keys[k + 1..] && keys[k..][0] == keys[k];
    FlattenConcat(PairItems(lead, word, keys[k], m[keys[k]]), PairLines(lead, word, keys[k + 1..], m));
  }

  lemma NoPairs(lead: nat, word: string, m: map<string, string>)
    ensures Flatten(PairLines(lead, word, [], m)) == ""
  {
  }

  method AppendTask(lines0: seq<string>, task: TaskNode) returns (lines: seq<string>)
    ensures Joined(lines) == Joined(lines0) + Flatten(TaskItems(task))
  {
    hide Joined, Flatten, OpeningLine, Spaces, FieldItems, OpeningItems, ClosingItems;
    Blanks();
    var line := OpeningLine("  ", "task", task.id);
    OpeningText(2, "task", task.id);
    JoinedLine(lines0, line);
    lines := lines0 + [line];
    lines := AppendFields(lines, task);
    ClosingText(2);
    assert "  " + "}" == "  }";
    JoinedLine(lines, "  }");
    lines := lines + ["  }"];
    FlattenConcat(OpeningItems(2, "task", task.id) + FieldItems(task), ClosingItems(2));
    FlattenConcat(OpeningItems(2, "task", task.id), FieldItems(task));
    assert Joined(lines) == Joined(lines0) + ((Flatten(OpeningItems(2, "task", task.id)) + Flatten(FieldItems(task)))
        + Flatten(ClosingItems(2)));
  }

  /** The fields of a task. */
  method AppendFields(lines0: seq<string>, task: TaskNode) returns (lines: seq<string>)
    ensures Joined(lines) == Joined(lines0) + Flatten(FieldItems(task))
  {
    hide Joined, Flatten, Spaces, ListLine, PairLines, TimeoutLine, RetryLine, QuotedPieces, ScalarPieces, SortedKeys;
    Blanks();
    var run, needs := ListLine("run", QuotedPieces(task.command)), if task.dependsOn == [] then []
        else ListLine("needs", ScalarPieces(task.dependsOn));
    var env, labels := PairLines(4, "env", SortedKeys(task.env.Keys), task.env),
        PairLines(4, "labels", SortedKeys(task.labels.Keys), task.labels);
    lines := AppendLists(lines0, task);
    lines := AppendPairs(lines, "    ", "env", task.env);
    lines := AppendPairs(lines, "    ", "labels", task.labels);
    lines := AppendLimits(lines, task);
    FlattenConcat(run + needs + env + labels + TimeoutLine(task.timeoutSeconds), RetryLine(task.retry));
    FlattenConcat(run + needs + env + labels, TimeoutLine(task.timeoutSeconds));
    FlattenConcat(run + needs + env, labels);
    FlattenConcat(run + needs, env);
    FlattenConcat(run, needs);
    Associate(Joined(lines0), Flatten(run), Flatten(needs), Flatten(env), Flatten(labels),
        Flatten(TimeoutLine(task.timeoutSeconds)), Flatten(RetryLine(task.retry)));
  }

  lemma Associate(a: string, b: string, c: string, d: string, e: string, f: string, g: string)
    ensures a + (b + c) + d + e + (f + g) == a + (((((b + c) + d) + e) + f) + g)
  {
  }

  method AppendLists(lines0: seq<string>, task: TaskNode) returns (lines: seq<string>)
    ensures Joined(lines) == Joined(lines0) + (Flatten(ListLine("run", QuotedPieces(task.command)))
                           + Flatten(if task.dependsOn == [] then []
                               else ListLine("needs", ScalarPieces(task.dependsOn))))
  {
    hide Joined, Flatten, ListLine, ListLineOf, PieceText, ScalarPiece, QuoteIfNeeded, Dumps;
    NothingFlat();
    var arguments := seq(|task.command|, k requires 0 <= k < |task.command| => Dumps(task.command[k]));
    var line := ListLineOf("run", arguments);
    QuotedTexts(task.command, arguments);
    ListLineText("run", QuotedPieces(task.command));
    JoinedLine(lines0, line);
    lines := lines0 + [line];
    if task.dependsOn != [] {
      var dependencies := seq(|task.dependsOn|, k requires 0 <= k < |task.dependsOn| =>
          QuoteIfNeeded(task.dependsOn[k]));
      line := ListLineOf("needs", dependencies);
      ScalarTexts(task.dependsOn, dependencies);
      ListLineText("needs", ScalarPieces(task.dependsOn));
      JoinedLine(lines, line);
      lines := lines + [line];
    }
  }

  lemma QuotedTexts(values: seq<string>, texts: seq<string>)
    requires |texts| == |values| && forall k :: 0 <= k < |values| ==> texts[k] == Dumps(values[k])
    ensures Texts(QuotedPieces(values)) == texts
  {
    hide Dumps;
  }

  lemma ScalarTexts(values: seq<string>, texts: seq<string>)
    requires |texts| == |values| && forall k :: 0 <= k < |values| ==> texts[k] == QuoteIfNeeded(values[k])
    ensures Texts(ScalarPieces(values)) == texts
  {
    hide QuoteIfNeeded, PieceText, ScalarPiece;
  }

  method AppendLimits(lines0: seq<string>, task: TaskNode) returns (lines: seq<string>)
    ensures Joined(lines) == Joined(lines0) + (Flatten(TimeoutLine(task.timeoutSeconds))
        + Flatten(RetryLine(task.retry)))
  {
    hide Joined, Flatten, TimeoutLineOf, RetryLineOf;
    NothingFlat();
    lines := lines0;
    if task.timeoutSeconds != 0 {
      TimeoutText(task.timeoutSeconds);
      JoinedLine(lines, TimeoutLineOf(task.timeoutSeconds));
      lines := lines + [TimeoutLineOf(task.timeoutSeconds)];
    }
    if task.retry != DEFAULT_RETRY {
      var retry := task.retry;
      RetryText(retry);
      JoinedLine(lines, RetryLineOf(retry.attempts, retry.baseMs, retry.maxMs));
      lines := lines + [RetryLineOf(retry.attempts, retry.baseMs, retry.maxMs)];
    }
  }

  method AppendTasks(lines0: seq<string>, tasks: seq<TaskNode>) returns (lines: seq<string>)
    ensures Joined(lines) == Joined(lines0) + Flatten(TasksItems(tasks))
  {
    hide Joined, Flatten, TaskItems, TasksItems;
    NothingFlat();
    lines := lines0;
    assert tasks[0..] == tasks;
    for k := 0 to |tasks|
      invariant Joined(lines) + Flatten(TasksItems(tasks[k..])) == Joined(lines0) + Flatten(TasksItems(tasks))
    {
      ghost var before := lines;
      TasksFrom(tasks, k);
      lines := AppendTask(lines, tasks[k]);
      if k != |tasks| - 1 {
        JoinedLine(lines, "");
        lines := lines + [""];
        assert "" + "\n" == "\n";
        Regroup(Joined(before), Flatten(TaskItems(tasks[k])), "\n", Flatten(TasksItems(tasks[k + 1..])));
      } else {
        Regroup(Joined(before), Flatten(TaskItems(tasks[k])), "", "");
      }
    }
    NoTasks();
    assert tasks[|tasks|..] == [];
  }

  lemma Regroup(a: string, b: string, c: string, d: string)
    ensures a + (b + c + d) == a + b + c + d
    ensures a + b + "" == a + b
  {
  }

  lemma NoTasks()
    ensures Flatten(TasksItems([])) == ""
  {
  }

  lemma TasksFrom(tasks: seq<TaskNode>, k: nat)
    requires k < |tasks|
    ensures Flatten(TasksItems(tasks[k..])) ==
      Flatten(TaskItems(tasks[k])) + (if k == |tasks| - 1 then "" else "\n") + Flatten(TasksItems(tasks[k + 1..]))
  {
    hide Flatten, TaskItems;
    NothingFlat();
    var from := tasks[k..];
    assert from[0] == tasks[k] && from[1..] == tasks[k + 1..];
    if k < |tasks| - 1 {
      FlattenConcat(TaskItems(tasks[k]) + [Item(0, Newline)], TasksItems(tasks[k + 1..]));
      FlattenConcat(TaskItems(tasks[k]), [Item(0, Newline)]);
    } else {
      assert tasks[k + 1..] == [];
      NoTasks();
    }
  }

  /** `format_source`. */
  method FormatSource(w: WorkflowNode) returns (text: string)
    ensures text == Format(w)
  {
    hide Joined, Flatten, OpeningLine, Spaces, OpeningItems, ClosingItems, PairLines, TasksItems, SortedKeys;
    Blanks();
    NothingFlat();
    var opening, metas := OpeningItems(0, "workflow", w.name),
        PairLines(2, "meta", SortedKeys(w.metadata.Keys), w.metadata);
    var gap := if w.metadata != map[] && w.tasks != [] then [Item(0, Newline)] else [];
    var line := OpeningLine("", "workflow", w.name);
    OpeningText(0, "workflow", w.name);
    JoinedLine([], line);
    NoLines();
    var lines := [] + [line];
    lines := AppendPairs(lines, "  ", "meta", w.metadata);
    if w.metadata != map[] && w.tasks != [] {
      JoinedLine(lines, "");
      assert "" + "\n" == "\n";
      lines := lines + [""];
    }
    lines := AppendTasks(lines, w.tasks);
    ClosingText(0);
    JoinedLine(lines, "}");
    assert "" + "}" == "}";
    lines := lines + ["}"];
    FlattenConcat(opening + metas + gap + TasksItems(w.tasks), ClosingItems(0));
    FlattenConcat(opening + metas + gap, TasksItems(w.tasks));
    FlattenConcat(opening + metas, gap);
    FlattenConcat(opening, metas);
    return Joined(lines);
  }

  lemma NoLines()
    ensures Joined([]) == ""
  {
  }
}
