/** The texts the lexer of the workflow DSL accepts: lexemes, what each may look like, and the token it stands for. */
module DslSpelling {
  import opened DslLexer

  // Strings

  /** The sixteen digits in either case. */
  predicate HexDigit(c: char, d: int) {
    0 <= d < 16 && (c == "0123456789abcdef"[d] || c == "0123456789ABCDEF"[d])
  }

  /** A character of a string as it is written: itself, a backslash and a letter, or a code. */
  datatype Written = Plain(c: char) | Short(letter: char) | Code(digits: string, values: seq<int>)

  function WrittenText(x: Written): (r: string)
    ensures r != []
  {
    match x
    case Plain(c) => [c]
    case Short(letter) => ['\\', letter]
    case Code(digits, _) => ['\\', 'u'] + digits
  }

  predicate Writes(x: Written, quote: char, c: char) {
    match x
    case Plain(p) => p == c && c !in {quote, '\n', '\\'}
    case Short(letter) =>
      || (letter == 'n' && c == '\n') || (letter == 'r' && c == '\r') || (letter == 't' && c == '\t')
      || (letter in {'\\', '"', '\''} && c == letter)
    case Code(digits, values) =>
      && |digits| == |values| == 4 && (forall k :: 0 <= k < 4 ==> HexDigit(digits[k], values[k]))
      && c as int == 4096 * values[0] + 256 * values[1] + 16 * values[2] + values[3]
  }

  function WrittenTexts(xs: seq<Written>): string {
    if xs == [] then [] else WrittenText(xs[0]) + WrittenTexts(xs[1..])
  }

  ghost predicate WritesAll(xs: seq<Written>, quote: char, v: string) {
    |xs| == |v| && forall k :: 0 <= k < |v| ==> Writes(xs[k], quote, v[k])
  }

  // Lexemes

  datatype Lexeme =
    | Blank(c: char) | Comment(text: string) | Line | Mark(c: char)
    | Text(quote: char, written: seq<Written>, value: string)
    | Count(digits: string) | Stretch(digits: string, unit: string) | Name(word: string)

  function LexemeText(l: Lexeme): string {
    match l
    case Blank(c) => [c]
    case Comment(text) => ['#'] + text
    case Line => ['\n']
    case Mark(c) => [c]
    case Text(quote, written, _) => [quote] + WrittenTexts(written) + [quote]
    case Count(digits) => digits
    case Stretch(digits, unit) => digits + unit
    case Name(word) => word
  }

  /** Blanks and comments leave no token. */
  function LexemeTokens(l: Lexeme): seq<Token> {
    match l
    case Blank(_) => []
    case Comment(_) => []
    case Line => [Token(NEWLINE, "\n")]
    case Mark(c) => [Token(SYMBOL(c), [c])]
    case Text(_, _, value) => [Token(STRING, value)]
    case Count(digits) => [Token(INTEGER, digits)]
    case Stretch(digits, unit) => [Token(DURATION, digits + unit)]
    case Name(word) => [Token(if word in RESERVED then KEYWORD(word) else IDENT, word)]
  }

  const RESERVED: set<string> :=
    {"workflow", "meta", "task", "run", "needs", "env", "labels", "timeout", "retry", "attempts", "base", "max"}

  predicate Starts(c: char) { 'a' <= c <= 'z' || 'A' <= c <= 'Z' || c == '_' }

  predicate Continues(c: char) { Starts(c) || '0' <= c <= '9' || c in {'.', ':', '-'} }

  predicate AllDigits(w: string) { w != [] && forall k :: 0 <= k < |w| ==> '0' <= w[k] <= '9' }

  /** The lexeme is well formed and cannot be read further into the text `next` that follows it. */
  ghost predicate LexemeOk(l: Lexeme, next: string) {
    match l
    case Blank(c) => c in {' ', '\t', '\r'}
    case Comment(text) => '\n' !in text && (next == [] || next[0] == '\n')
    case Line => true
    case Mark(c) => c in {'{', '}', '[', ']', '=', ','}
    case Text(quote, written, value) => quote in {'"', '\''} && WritesAll(written, quote, value)
    case Count(digits) =>
      AllDigits(digits) && (next == [] || !('0' <= next[0] <= '9' || next[0] in {'s', 'm', 'h'}))
    case Stretch(digits, unit) =>
      AllDigits(digits) && unit in {"ms", "s", "m", "h"} && (unit == "m" && next != [] ==> next[0] != 's')
    case Name(word) =>
      && word != [] && Starts(word[0]) && (forall k :: 0 < k < |word| ==> Continues(word[k]))
      && (next == [] || !Continues(next[0]))
  }

  function Join(ls: seq<Lexeme>): string {
    if ls == [] then [] else LexemeText(ls[0]) + Join(ls[1..])
  }

  function Meaning(ls: seq<Lexeme>): seq<Token> {
    if ls == [] then [] else LexemeTokens(ls[0]) + Meaning(ls[1..])
  }

  ghost predicate Legible(ls: seq<Lexeme>) {
    ls == [] || (LexemeOk(ls[0], Join(ls[1..])) && Legible(ls[1..]))
  }

  /** The text `s` is a sequence of lexemes that stand for the tokens `ts`. */
  ghost predicate Spells(s: string, ls: seq<Lexeme>, ts: seq<Token>) {
    Legible(ls) && Join(ls) == s && Meaning(ls) == ts
  }

  // Strings are read as they are written

  lemma HexValueOf(c: char, d: int)
    ensures HexDigit(c, d) <==> HexValue(c) == d >= 0
  {
    if 0 <= d < 16 {
      assert "0123456789abcdef"[d] == if d < 10 then '0' + d as char else 'a' + (d - 10) as char;
      assert "0123456789ABCDEF"[d] == if d < 10 then '0' + d as char else 'A' + (d - 10) as char;
    }
  }

  // A lexeme in front of a text

  lemma RestsAt(s: string, i: nat, w: string, rest: string)
    requires i <= |s| && s[i..] == w + rest
    ensures At(s, i, w) && s[i + |w|..] == rest
    ensures i + |w| < |s| <==> rest != []
    ensures rest != [] ==> s[i + |w|] == rest[0]
  {
    assert s[i..i + |w|] == s[i..][..|w|];
    assert s[i + |w|..] == s[i..][|w|..];
  }

  /** A character of a string is scanned as what it stands for. */
  lemma ScanWritten(s: string, i: nat, x: Written, quote: char, c: char, out: string)
    requires At(s, i, WrittenText(x)) && Writes(x, quote, c) && quote in {'"', '\''}
    ensures ScanString(s, i, quote, out) == ScanString(s, i + |WrittenText(x)|, quote, out + [c])
  {
    hide At;
    CharAt(s, i, WrittenText(x), 0);
    match x
    case Plain(_) =>
    case Short(_) => ScanShort(s, i, x, quote, c, out);
    case Code(digits, values) =>
      hide ScanUnicode;
      CharAt(s, i, WrittenText(x), 1);
      AtSplit(s, i, ['\\', 'u'], digits);
      ScanCode(s, i + 2, digits, values, c);
      EscapeScanned(s, i, quote, out, [c], i + 6);
  }

  lemma ScanShort(s: string, i: nat, x: Written, quote: char, c: char, out: string)
    requires x.Short? && At(s, i, WrittenText(x)) && Writes(x, quote, c) && quote in {'"', '\''}
    ensures ScanString(s, i, quote, out) == ScanString(s, i + 2, quote, out + [c])
  {
    hide At, ScanString;
    CharAt(s, i, WrittenText(x), 0);
    CharAt(s, i, WrittenText(x), 1);
    EscapeScanned(s, i, quote, out, [c], i + 2);
  }

  lemma EscapeScanned(s: string, i: nat, quote: char, out: string, c: string, j: nat)
    requires i < |s| && s[i] == '\\' != quote && ScanEscape(s, i + 1) == Scanned(c, j)
    ensures ScanString(s, i, quote, out) == ScanString(s, j, quote, out + c)
  {
    hide ScanEscape;
  }

  lemma ScanCode(s: string, i: nat, digits: string, values: seq<int>, c: char)
    requires At(s, i, digits) && Writes(Code(digits, values), '"', c)
    ensures ScanUnicode(s, i) == Scanned([c], i + 4)
  {
    hide HexDigit, HexValue;
    forall k | 0 <= k < 4 ensures HexValue(s[i + k]) == values[k] >= 0 {
      CharAt(s, i, digits, k);
      HexValueOf(digits[k], values[k]);
    }
    assert HexValue(s[i + 0]) == values[0] && HexValue(s[i + 1]) == values[1] && HexValue(s[i + 2]) == values[2];
    assert HexValue(s[i + 3]) == values[3];
  }

  lemma ScanQuote(s: string, i: nat, quote: char, out: string)
    requires At(s, i, [quote])
    ensures ScanString(s, i, quote, out) == Scanned(out, i + 1)
  {
    CharAt(s, i, [quote], 0);
  }

  lemma WritesRest(xs: seq<Written>, quote: char, v: string)
    requires xs != [] && WritesAll(xs, quote, v)
    ensures v != [] && Writes(xs[0], quote, v[0]) && WritesAll(xs[1..], quote, v[1..])
  {
    hide Writes;
    forall k | 0 <= k < |xs| - 1 ensures Writes(xs[1..][k], quote, v[1..][k]) {
      assert Writes(xs[k + 1], quote, v[k + 1]);
    }
  }

  lemma {:induction false} ScanText(s: string, i: nat, xs: seq<Written>, quote: char, v: string, out: string)
    requires At(s, i, WrittenTexts(xs) + [quote]) && WritesAll(xs, quote, v) && quote in {'"', '\''}
    ensures ScanString(s, i, quote, out) == Scanned(out + v, i + |WrittenTexts(xs)| + 1)
    decreases |xs|
  {
    hide Writes, WrittenText, ScanString, At;
    if xs == [] {
      assert WrittenTexts(xs) + [quote] == [quote] && out + v == out;
      ScanQuote(s, i, quote, out);
    } else {
      var x, rest := xs[0], xs[1..];
      assert WrittenTexts(xs) + [quote] == WrittenText(x) + (WrittenTexts(rest) + [quote]);
      AtSplit(s, i, WrittenText(x), WrittenTexts(rest) + [quote]);
      WritesRest(xs, quote, v);
      ScanWritten(s, i, x, quote, v[0], out);
      ScanText(s, i + |WrittenText(x)|, rest, quote, v[1..], out + [v[0]]);
      assert out + [v[0]] + v[1..] == out + v;
    }
  }

  // Lexing a lexeme

  /** What the lexer does at a lexeme: it skips it, or emits its token. */
  ghost predicate Consumed(s: string, i: nat, l: Lexeme) {
    var j := i + |LexemeText(l)|;
    if LexemeTokens(l) == [] then Lex(s, i) == Lex(s, j) else Lex(s, i) == Prepend(LexemeTokens(l)[0], Lex(s, j))
  }

  lemma LexBlankAt(s: string, i: nat, l: Lexeme, rest: string)
    requires i <= |s| && s[i..] == LexemeText(l) + rest && LexemeOk(l, rest) && (l.Blank? || l.Comment?)
    ensures Consumed(s, i, l)
  {
    hide At, CommentEnd;
    RestsAt(s, i, LexemeText(l), rest);
    CharAt(s, i, LexemeText(l), 0);
    if l.Comment? {
      CommentStart(s, i);
      AtSplit(s, i, ['#'], l.text);
      CommentEndAt(s, i + 1, l.text);
    }
  }

  lemma CommentStart(s: string, i: nat)
    requires i < |s| && s[i] == '#'
    ensures CommentEnd(s, i) == CommentEnd(s, i + 1)
  {
  }

  lemma {:induction false} CommentEndAt(s: string, i: nat, w: string)
    requires At(s, i, w) && '\n' !in w && (i + |w| == |s| || s[i + |w|] == '\n')
    ensures CommentEnd(s, i) == i + |w|
    decreases |w|
  {
    if w != [] {
      CharAt(s, i, w, 0);
      assert w == [w[0]] + w[1..];
      AtSplit(s, i, [w[0]], w[1..]);
      CommentEndAt(s, i + 1, w[1..]);
    }
  }

  lemma DigitsAt(s: string, i: nat, digits: string, unit: string, rest: string)
    requires i <= |s| && s[i..] == digits + unit + rest && AllDigits(digits)
    requires unit == "" || unit in {"ms", "s", "m", "h"}
    requires unit == "" ==> LexemeOk(Count(digits), rest)
    requires unit != "" ==> LexemeOk(Stretch(digits, unit), rest)
    ensures DigitsEnd(s, i) == i + |digits| && UnitLength(s, i + |digits|) == |unit|
    ensures At(s, i, digits) && i + |digits| + |unit| <= |s| && s[i..i + |digits| + |unit|] == digits + unit
  {
    hide UnitLength, DigitsEnd;
    RestsAt(s, i, digits + unit, rest);
    AtSplit(s, i, digits, unit);
    assert digits + unit + rest == digits + (unit + rest);
    RestsAt(s, i, digits, unit + rest);
    UnitFound(s, i + |digits|, unit, rest);
    DigitsEndAt(s, i, digits);
  }

  lemma UnitFound(s: string, j: nat, unit: string, rest: string)
    requires j <= |s| && s[j..] == unit + rest
    requires unit in {"", "ms", "s", "m", "h"}
    requires unit == "" && rest != [] ==> !('0' <= rest[0] <= '9' || rest[0] in {'s', 'm', 'h'})
    requires unit == "m" && rest != [] ==> rest[0] != 's'
    ensures UnitLength(s, j) == |unit| && (j < |s| ==> !IsDigit(s[j]))
  {
    RestsAt(s, j, unit, rest);
    if unit != "" { CharAt(s, j, unit, 0); }
    if unit == "ms" { CharAt(s, j, unit, 1); }
  }

  lemma TokenAtLexeme(s: string, i: nat, l: Lexeme, rest: string)
    requires i <= |s| && s[i..] == LexemeText(l) + rest && LexemeOk(l, rest) && !l.Blank? && !l.Comment?
    ensures |LexemeTokens(l)| == 1 && LexemeText(l) != []
    ensures i < |s| && !IsBlank(s[i]) && s[i] != '#'
    ensures TokenAt(s, i) == (LexemeTokens(l)[0], i + |LexemeText(l)|)
  {
    hide TokenAt, WritesAll, WrittenTexts;
    RestsAt(s, i, LexemeText(l), rest);
    match l
    case Line => CharToken(s, i, l);
    case Mark(_) => CharToken(s, i, l);
    case Text(quote, written, value) => TextAt(s, i, quote, written, value);
    case Count(digits) =>
      assert digits + "" + rest == digits + rest && digits + "" == digits;
      NumberToken(s, i, digits, "", rest);
    case Stretch(digits, unit) => NumberToken(s, i, digits, unit, rest);
    case Name(word) => NameAt(s, i, word, rest);
  }

  lemma CharToken(s: string, i: nat, l: Lexeme)
    requires (l.Line? || l.Mark?) && At(s, i, LexemeText(l)) && LexemeOk(l, "")
    ensures i < |s| && !IsBlank(s[i]) && s[i] != '#'
    ensures TokenAt(s, i) == (LexemeTokens(l)[0], i + 1)
  {
    CharAt(s, i, LexemeText(l), 0);
  }

  lemma NumberToken(s: string, i: nat, digits: string, unit: string, rest: string)
    requires i <= |s| && s[i..] == digits + unit + rest && AllDigits(digits)
    requires unit == "" || unit in {"ms", "s", "m", "h"}
    requires unit == "" ==> LexemeOk(Count(digits), rest)
    requires unit != "" ==> LexemeOk(Stretch(digits, unit), rest)
    ensures i < |s| && IsDigit(s[i])
    ensures TokenAt(s, i) == (Token(if unit != "" then DURATION else INTEGER, digits + unit), i + |digits| + |unit|)
  {
    hide TokenAt, LexemeOk;
    DigitsAt(s, i, digits, unit, rest);
    CharAt(s, i, digits, 0);
    DigitToken(s, i);
  }

  lemma TextAt(s: string, i: nat, quote: char, written: seq<Written>, value: string)
    requires At(s, i, LexemeText(Text(quote, written, value)))
    requires quote in {'"', '\''} && WritesAll(written, quote, value)
    ensures i < |s| && IsQuote(s[i])
    ensures TokenAt(s, i) == (Token(STRING, value), i + |WrittenTexts(written)| + 2)
  {
    hide ScanString, WritesAll, WrittenTexts, TokenAt, At;
    var w := WrittenTexts(written);
    assert [quote] + w + [quote] == [quote] + (w + [quote]);
    CharAt(s, i, [quote] + w + [quote], 0);
    AtSplit(s, i, [quote], w + [quote]);
    ScanText(s, i + 1, written, quote, value, "");
    assert "" + value == value;
    StringToken(s, i, value, i + |w| + 2);
  }

  lemma StringToken(s: string, i: nat, value: string, j: nat)
    requires i < |s| && IsQuote(s[i]) && ScanString(s, i + 1, s[i], "") == Scanned(value, j)
    ensures TokenAt(s, i) == (Token(STRING, value), j)
  {
    hide ScanString;
  }

  lemma DigitToken(s: string, i: nat)
    requires i < |s| && IsDigit(s[i])
    ensures var j := DigitsEnd(s, i);
      var n := UnitLength(s, j);
      j + n <= |s| && TokenAt(s, i) == (Token(if n > 0 then DURATION else INTEGER, s[i..j + n]), j + n)
  {
    hide DigitsEnd;
    assert i <= DigitsEnd(s, i) by { FirstDigit(s, i); }
  }

  lemma NameAt(s: string, i: nat, word: string, rest: string)
    requires i <= |s| && s[i..] == word + rest && LexemeOk(Name(word), rest)
    ensures i < |s| && IdentFirst(s[i]) && TokenAt(s, i) == (LexemeTokens(Name(word))[0], i + |word|)
  {
    RestsAt(s, i, word, rest);
    WordAt(s, i, word);
    CharAt(s, i, word, 0);
  }

  lemma LexLexeme(s: string, i: nat, l: Lexeme, rest: string)
    requires i <= |s| && s[i..] == LexemeText(l) + rest && LexemeOk(l, rest)
    ensures Consumed(s, i, l)
  {
    hide Lex, TokenAt, LexemeOk, Prepend;
    if l.Blank? || l.Comment? {
      LexBlankAt(s, i, l, rest);
    } else {
      TokenAtLexeme(s, i, l, rest);
      LexToken(s, i);
      assert |LexemeText(l)| > 0;
    }
  }

  /** A text made of lexemes lexes to their tokens. */
  lemma {:induction false} LexLegible(s: string, i: nat, ls: seq<Lexeme>)
    requires i <= |s| && s[i..] == Join(ls) && Legible(ls)
    ensures Lex(s, i) == Tokens(Meaning(ls) + [Token(EOF, "")])
    decreases |ls|
  {
    hide Lex, LexemeOk, LexemeText, LexemeTokens;
    if ls == [] {
      AtEnd(s, i);
      assert Meaning(ls) + [Token(EOF, "")] == [Token(EOF, "")];
    } else {
      var l, rest := ls[0], ls[1..];
      RestsAt(s, i, LexemeText(l), Join(rest));
      LexLexeme(s, i, l, Join(rest));
      LexLegible(s, i + |LexemeText(l)|, rest);
      AtMostOne(l);
      if LexemeTokens(l) == [] {
        assert Meaning(ls) == Meaning(rest);
      } else {
        Prepended(LexemeTokens(l)[0], Meaning(rest));
        assert LexemeTokens(l) == [LexemeTokens(l)[0]];
      }
    }
  }

  lemma AtEnd(s: string, i: nat)
    requires i <= |s| && s[i..] == []
    ensures Lex(s, i) == Tokens([Token(EOF, "")])
  {
  }

  lemma AtMostOne(l: Lexeme)
    ensures |LexemeTokens(l)| <= 1
  {
  }

  // Every text that lexes is made of lexemes

  lemma EscapeBack(s: string, i: nat, quote: char) returns (x: Written)
    requires i < |s| && s[i] == '\\' && quote in {'"', '\''} && ScanEscape(s, i + 1).Scanned?
    ensures var r := ScanEscape(s, i + 1);
      |r.value| == 1 && Writes(x, quote, r.value[0]) && s[i..r.next] == WrittenText(x)
  {
    if s[i + 1] == 'u' {
      x := CodeBack(s, i, quote);
    } else {
      x := Short(s[i + 1]);
    }
  }

  lemma CodeBack(s: string, i: nat, quote: char) returns (x: Written)
    requires i + 1 < |s| && s[i] == '\\' && s[i + 1] == 'u' && ScanUnicode(s, i + 2).Scanned?
    ensures var r := ScanUnicode(s, i + 2);
      |r.value| == 1 && Writes(x, quote, r.value[0]) && s[i..r.next] == WrittenText(x)
  {
    hide HexValue, HexDigit;
    var values := [HexValue(s[i + 2]), HexValue(s[i + 3]), HexValue(s[i + 4]), HexValue(s[i + 5])];
    var digits := s[i + 2..i + 6];
    assert forall k :: 0 <= k < 4 ==> digits[k] == s[i + 2 + k];
    assert values[0] < 16 && values[1] < 16 && values[2] < 16 && values[3] < 16 by {
      HexRange(s[i + 2]);
      HexRange(s[i + 3]);
      HexRange(s[i + 4]);
      HexRange(s[i + 5]);
    }
    assert ((values[0] * 16 + values[1]) * 16 + values[2]) * 16 + values[3]
        == 4096 * values[0] + 256 * values[1] + 16 * values[2] + values[3];
    forall k | 0 <= k < 4 ensures HexDigit(digits[k], values[k]) {
      HexValueOf(digits[k], values[k]);
    }
    assert s[i..i + 6] == ['\\', 'u'] + digits;
    x := Code(digits, values);
  }

  lemma HexRange(c: char)
    ensures HexValue(c) < 16
  {
  }

  lemma {:induction false} ScanBack(s: string, i: nat, quote: char, out: string) returns (xs: seq<Written>, w: string)
    requires quote in {'"', '\''} && ScanString(s, i, quote, out).Scanned?
    ensures var r := ScanString(s, i, quote, out);
      r.value == out + w && WritesAll(xs, quote, w) && s[i..r.next] == WrittenTexts(xs) + [quote]
    decreases |s| - i
  {
    hide Writes, WrittenText, ScanEscape;
    if s[i] == quote {
      xs, w := [], "";
      assert out + w == out;
      assert s[i..i + 1] == [quote];
    } else {
      var x, c, j := FirstBack(s, i, quote, out);
      xs, w := ScanBack(s, j, quote, out + [c]);
      assert out + [c] + w == out + ([c] + w);
      var r := ScanString(s, i, quote, out);
      assert s[i..r.next] == s[i..j] + s[j..r.next];
      MoreWritten(x, c, xs, w, quote);
      assert WrittenText(x) + (WrittenTexts(xs) + [quote]) == WrittenText(x) + WrittenTexts(xs) + [quote];
      xs, w := [x] + xs, [c] + w;
    }
  }

  lemma MoreWritten(x: Written, c: char, xs: seq<Written>, w: string, quote: char)
    requires Writes(x, quote, c) && WritesAll(xs, quote, w)
    ensures WritesAll([x] + xs, quote, [c] + w) && WrittenTexts([x] + xs) == WrittenText(x) + WrittenTexts(xs)
  {
    hide Writes, WrittenText;
    assert ([x] + xs)[1..] == xs;
  }

  /** The first character of the rest of a string. */
  lemma FirstBack(s: string, i: nat, quote: char, out: string) returns (x: Written, c: char, j: nat)
    requires i < |s| && s[i] != quote && quote in {'"', '\''} && ScanString(s, i, quote, out).Scanned?
    ensures i < j <= |s| && s[i..j] == WrittenText(x) && Writes(x, quote, c)
    ensures ScanString(s, i, quote, out) == ScanString(s, j, quote, out + [c])
  {
    hide ScanEscape;
    if s[i] == '\\' {
      x := EscapeBack(s, i, quote);
      var r := ScanEscape(s, i + 1);
      c, j := r.value[0], r.next;
      assert r.value == [c];
    } else {
      x, c, j := Plain(s[i]), s[i], i + 1;
    }
  }

  lemma {:induction false} DigitsBack(s: string, i: nat)
    requires i <= |s|
    ensures forall k :: i <= k < DigitsEnd(s, i) ==> '0' <= s[k] <= '9'
    ensures DigitsEnd(s, i) < |s| ==> !('0' <= s[DigitsEnd(s, i)] <= '9')
    decreases |s| - i
  {
    if i < |s| && IsDigit(s[i]) { DigitsBack(s, i + 1); }
  }

  lemma {:induction false} NameBack(s: string, i: nat)
    requires i <= |s|
    ensures forall k :: i <= k < IdentEnd(s, i) ==> Continues(s[k])
    ensures IdentEnd(s, i) < |s| ==> !Continues(s[IdentEnd(s, i)])
    decreases |s| - i
  {
    if i < |s| && IdentRest(s[i]) { NameBack(s, i + 1); }
  }

  lemma {:induction false} CommentBack(s: string, i: nat)
    requires i <= |s|
    ensures '\n' !in s[i..CommentEnd(s, i)]
    ensures CommentEnd(s, i) < |s| ==> s[CommentEnd(s, i)] == '\n'
    decreases |s| - i
  {
    if i < |s| && s[i] != '\n' {
      CommentBack(s, i + 1);
      assert s[i..CommentEnd(s, i)] == [s[i]] + s[i + 1..CommentEnd(s, i)];
    }
  }

  /** The lexeme at `i`, where no blank or comment begins. */
  lemma LexemeBack(s: string, i: nat) returns (l: Lexeme)
    requires i < |s| && !IsBlank(s[i]) && s[i] != '#' && TokenAt(s, i).1 > i
    ensures var (t, j) := TokenAt(s, i);
      LexemeTokens(l) == [t] && s[i..j] == LexemeText(l) && LexemeOk(l, s[j..])
  {
    hide ScanString, UnitLength, IdentEnd, DigitsEnd, WritesAll, WrittenTexts;
    var c := s[i];
    if c == '\n' {
      l := Line;
    } else if IsSymbol(c) {
      l := Mark(c);
    } else if IsQuote(c) {
      l := TextBack(s, i);
    } else if IsDigit(c) {
      l := NumberBack(s, i);
    } else {
      l := WordBack(s, i);
    }
  }

  lemma TextBack(s: string, i: nat) returns (l: Lexeme)
    requires i < |s| && IsQuote(s[i]) && TokenAt(s, i).1 > i
    ensures var (t, j) := TokenAt(s, i);
      LexemeTokens(l) == [t] && s[i..j] == LexemeText(l) && LexemeOk(l, s[j..])
  {
    hide ScanString, WritesAll, WrittenTexts;
    var quote := s[i];
    var xs, w := ScanBack(s, i + 1, quote, "");
    assert "" + w == w;
    l := Text(quote, xs, w);
    var j := TokenAt(s, i).1;
    assert s[i..j] == [quote] + s[i + 1..j];
    assert [quote] + (WrittenTexts(xs) + [quote]) == [quote] + WrittenTexts(xs) + [quote];
  }

  lemma NumberBack(s: string, i: nat) returns (l: Lexeme)
    requires i < |s| && IsDigit(s[i])
    ensures var (t, j) := TokenAt(s, i);
      LexemeTokens(l) == [t] && s[i..j] == LexemeText(l) && LexemeOk(l, s[j..])
  {
    hide UnitLength, DigitsEnd, TokenAt;
    DigitToken(s, i);
    var j := DigitsEnd(s, i);
    assert j > i by { FirstDigit(s, i); }
    DigitsBack(s, i);
    UnitBack(s, j);
    var n := UnitLength(s, j);
    var digits, unit := s[i..j], s[j..j + n];
    assert AllDigits(digits);
    assert s[i..j + n] == digits + unit;
    l := if n == 0 then Count(digits) else Stretch(digits, unit);
    if n == 0 { assert unit == ""; assert digits + unit == digits; }
  }

  lemma FirstDigit(s: string, i: nat)
    requires i < |s| && IsDigit(s[i])
    ensures DigitsEnd(s, i) > i
  {
    assert DigitsEnd(s, i) == DigitsEnd(s, i + 1);
  }

  lemma UnitBack(s: string, j: nat)
    requires j <= |s|
    ensures var n := UnitLength(s, j);
      && j + n <= |s|
      && (n == 0 && j < |s| ==> s[j] !in {'s', 'm', 'h'})
      && (n > 0 ==> s[j..j + n] in {"ms", "s", "m", "h"})
      && (n > 0 && s[j..j + n] == "m" && j + n < |s| ==> s[j + n] != 's')
  {
    var n := UnitLength(s, j);
    if n == 2 { assert s[j..j + n] == ['m', 's'] == "ms"; }
    if n == 1 { assert s[j..j + n] == [s[j]]; }
  }

  lemma WordBack(s: string, i: nat) returns (l: Lexeme)
    requires i < |s| && IdentFirst(s[i])
    ensures var j := IdentEnd(s, i);
      && i < j <= |s| && LexemeTokens(l) == [WordToken(s[i..j])] && s[i..j] == LexemeText(l) && LexemeOk(l, s[j..])
  {
    assert IdentEnd(s, i) == IdentEnd(s, i + 1);
    NameBack(s, i);
    l := Name(s[i..IdentEnd(s, i)]);
  }

  lemma LegibleNext(s: string, i: nat, j: nat, l: Lexeme, rest: seq<Lexeme>)
    requires i <= j <= |s| && s[i..j] == LexemeText(l) && LexemeOk(l, s[j..]) && s[j..] == Join(rest) && Legible(rest)
    ensures s[i..] == Join([l] + rest) && Legible([l] + rest)
    ensures Meaning([l] + rest) == LexemeTokens(l) + Meaning(rest)
  {
    hide LexemeOk, LexemeText, LexemeTokens;
    assert ([l] + rest)[1..] == rest;
    assert s[i..] == s[i..j] + s[j..];
  }

  /** A text that lexes is made of lexemes with those tokens. */
  lemma {:induction false} LexBack(s: string, i: nat) returns (ls: seq<Lexeme>)
    requires i <= |s| && Lex(s, i).Tokens?
    ensures s[i..] == Join(ls) && Legible(ls) && Lex(s, i) == Tokens(Meaning(ls) + [Token(EOF, "")])
    decreases |s| - i
  {
    hide TokenAt, LexemeOk, LexemeText, LexemeTokens, CommentEnd;
    if i == |s| {
      ls := [];
      assert Meaning(ls) + [Token(EOF, "")] == [Token(EOF, "")];
    } else {
      var l, j;
      if IsBlank(s[i]) || s[i] == '#' {
        l, j := SkippedBack(s, i);
        ls := LexBack(s, j);
        LegibleNext(s, i, j, l, ls);
        assert LexemeTokens(l) + Meaning(ls) == Meaning(ls);
      } else {
        l := LexemeBack(s, i);
        j := TokenAt(s, i).1;
        ls := LexBack(s, j);
        LegibleNext(s, i, j, l, ls);
        Prepended(TokenAt(s, i).0, Meaning(ls));
      }
      ls := [l] + ls;
    }
  }

  lemma SkippedBack(s: string, i: nat) returns (l: Lexeme, j: nat)
    requires i < |s| && (IsBlank(s[i]) || s[i] == '#')
    ensures i < j <= |s| && s[i..j] == LexemeText(l) && LexemeOk(l, s[j..]) && LexemeTokens(l) == []
    ensures Lex(s, i) == Lex(s, j)
  {
    if IsBlank(s[i]) {
      l, j := Blank(s[i]), i + 1;
    } else {
      CommentStart(s, i);
      CommentBack(s, i + 1);
      j := CommentEnd(s, i);
      l := Comment(s[i + 1..j]);
      assert s[i..j] == ['#'] + s[i + 1..j];
    }
  }

  /** The lexer reads exactly the texts made of lexemes, as the tokens these stand for: blanks and comments leave
      none, strings may use any spelling of their characters, and every lexeme is as long as it can be. */
  lemma LexesExactly(s: string, ts: seq<Token>)
    ensures Lex(s, 0) == Tokens(ts + [Token(EOF, "")]) <==> exists ls :: Spells(s, ls, ts)
  {
    hide Lex, Legible, Join, Meaning;
    assert s[0..] == s;
    if ls :| Spells(s, ls, ts) { LexLegible(s, 0, ls); }
    if Lex(s, 0) == Tokens(ts + [Token(EOF, "")]) {
      var ls := LexBack(s, 0);
      assert Meaning(ls) == (Meaning(ls) + [Token(EOF, "")])[..|Meaning(ls)|] == ts;
      assert Spells(s, ls, ts);
    }
  }

  /** The lexer rejects exactly the texts that are not made of lexemes. */
  lemma RejectsExactly(s: string)
    ensures Lex(s, 0).Unreadable? <==> !exists ls: seq<Lexeme> :: Legible(ls) && Join(ls) == s
  {
    hide Lex, Legible, Join, Meaning;
    assert s[0..] == s;
    if ls: seq<Lexeme> :| Legible(ls) && Join(ls) == s { LexLegible(s, 0, ls); }
    if Lex(s, 0).Tokens? {
      var ls := LexBack(s, 0);
      assert Legible(ls) && Join(ls) == s;
    }
  }
}
