/** The grammar of JSON texts (RFC 8259, sections 2 to 7) as a relation between text and value, and the parser against
    it. */
module JsonGrammar {
  import opened Json
  import opened JsonRoundTrip

  // The grammar: each predicate says what the text of `s` from `i` up to `j` denotes

  /** The character `c` stands at `i`. */
  predicate Mark(s: Text, i: nat, c: char) {
    i < |s| && s[i] == c as int
  }

  predicate Blank(c: int) {
    c == ' ' as int || c == '\t' as int || c == '\r' as int || c == '\n' as int
  }

  predicate Blanks(s: Text, i: nat, j: nat) {
    i <= j <= |s| && forall k :: i <= k < j ==> Blank(s[k])
  }

  predicate Word(s: Text, i: nat, j: nat, w: string) {
    i <= j <= |s| && j - i == |w| && forall k :: 0 <= k < |w| ==> s[i + k] == w[k] as int
  }

  predicate Digit(c: int) {
    '0' as int <= c <= '9' as int
  }

  predicate DigitsAt(s: Text, i: nat, j: nat) {
    i < j <= |s| && forall k :: i <= k < j ==> Digit(s[k])
  }

  /** Digits without a needless leading zero. */
  predicate WholeAt(s: Text, i: nat, j: nat) {
    DigitsAt(s, i, j) && (j == i + 1 || s[i] != '0' as int)
  }

  /** Nothing, or a point and digits. */
  predicate PartAt(s: Text, i: nat, j: nat) {
    i == j <= |s| || (Mark(s, i, '.') && DigitsAt(s, i + 1, j))
  }

  predicate Signed(s: Text, i: nat) {
    Mark(s, i, '+') || Mark(s, i, '-')
  }

  /** Nothing, or an `e` in either case, perhaps a sign, and digits. */
  predicate PowerAt(s: Text, i: nat, j: nat) {
    i == j <= |s|
    || ((Mark(s, i, 'e') || Mark(s, i, 'E')) && DigitsAt(s, if Signed(s, i + 1) then i + 2 else i + 1, j))
  }

  function PowerOf(s: Text, i: nat, j: nat): int
    requires PowerAt(s, i, j)
  {
    if i == j then 0
    else if Mark(s, i + 1, '-') then -Number(s[i + 2..j])
    else if Mark(s, i + 1, '+') then Number(s[i + 2..j])
    else Number(s[i + 1..j])
  }

  function AfterSign(s: Text, i: nat): nat {
    if Mark(s, i, '-') then i + 1 else i
  }

  /** A number with its whole part up to `p`, its fraction up to `q` and its exponent up to `j`. */
  predicate NumberWith(s: Text, i: nat, p: nat, q: nat, j: nat, d: Decimal) {
    && WholeAt(s, AfterSign(s, i), p) && PartAt(s, p, q) && PowerAt(s, q, j)
    && var digits := s[AfterSign(s, i)..p] + (if p == q then [] else s[p + 1..q]);
       var scale := (if p == q then 0 else q - p - 1) - PowerOf(s, q, j);
       && -0x8000_0000 <= scale <= 0x7FFF_FFFF
       && d == Decimal(if Mark(s, i, '-') then -Number(digits) else Number(digits), scale)
  }

  ghost predicate NumberAt(s: Text, i: nat, j: nat, d: Decimal) {
    exists p: nat, q: nat :: NumberWith(s, i, p, q, j, d)
  }

  /** The value of a hexadecimal digit in either case, or -1. */
  function Nibble(c: int): int {
    if '0' as int <= c <= '9' as int then c - '0' as int
    else if 'a' as int <= c <= 'f' as int then 10 + (c - 'a' as int)
    else if 'A' as int <= c <= 'F' as int then 10 + (c - 'A' as int)
    else -1
  }

  predicate HexAt(s: Text, i: nat) {
    i + 4 <= |s| && Nibble(s[i]) >= 0 && Nibble(s[i + 1]) >= 0 && Nibble(s[i + 2]) >= 0 && Nibble(s[i + 3]) >= 0
  }

  function HexOf(s: Text, i: nat): int
    requires HexAt(s, i)
  {
    4096 * Nibble(s[i]) + 256 * Nibble(s[i + 1]) + 16 * Nibble(s[i + 2]) + Nibble(s[i + 3])
  }

  /** The one-letter escapes. */
  predicate ShortEscape(letter: int, unit: int) {
    || (letter == '"' as int && unit == 0x22) || (letter == '\\' as int && unit == 0x5C)
    || (letter == '/' as int && unit == 0x2F) || (letter == 'b' as int && unit == 0x08)
    || (letter == 'f' as int && unit == 0x0C) || (letter == 'n' as int && unit == 0x0A)
    || (letter == 'r' as int && unit == 0x0D) || (letter == 't' as int && unit == 0x09)
  }

  /** One character of a string: as it stands, after a backslash, by its number, or as a pair of surrogates. */
  predicate CharAt(s: Text, i: nat, j: nat, units: Text) {
    || (j == i + 1 <= |s| && s[i] >= 0x20 && !Mark(s, i, '"') && !Mark(s, i, '\\') && units == [s[i]])
    || (j == i + 2 <= |s| && Mark(s, i, '\\') && |units| == 1 && ShortEscape(s[i + 1], units[0]))
    || (j == i + 6 <= |s| && Mark(s, i, '\\') && Mark(s, i + 1, 'u') && HexAt(s, i + 2)
        && !(0xD800 <= HexOf(s, i + 2) < 0xE000) && |units| == 1 && units[0] == HexOf(s, i + 2))
    || (j == i + 12 <= |s| && Mark(s, i, '\\') && Mark(s, i + 1, 'u') && HexAt(s, i + 2)
        && Mark(s, i + 6, '\\') && Mark(s, i + 7, 'u') && HexAt(s, i + 8)
        && 0xD800 <= HexOf(s, i + 2) < 0xDC00 && 0xDC00 <= HexOf(s, i + 8) < 0xE000
        && |units| == 2 && units[0] == HexOf(s, i + 2) && units[1] == HexOf(s, i + 8))
  }

  ghost predicate CharsAt(s: Text, i: nat, j: nat, text: Text)
    decreases |text|
  {
    if text == [] then i == j <= |s|
    else
      exists k: nat, n: nat :: 1 <= n <= |text| && CharAt(s, i, k, text[..n]) && CharsAt(s, k, j, text[n..])
  }

  ghost predicate StringAt(s: Text, i: nat, j: nat, text: Text) {
    i + 1 < j <= |s| && Mark(s, i, '"') && Mark(s, j - 1, '"') && CharsAt(s, i + 1, j - 1, text)
  }

  /** A value with nothing around it. */
  ghost predicate ValueAt(s: Text, i: nat, j: nat, v: Value)
    decreases v, 0
  {
    match v
    case Null => Word(s, i, j, "null")
    case Bool(truth) => Word(s, i, j, if truth then "true" else "false")
    case Num(number) => NumberAt(s, i, j, number)
    case Str(text) => StringAt(s, i, j, text)
    case Arr(values) =>
      && i + 1 < j <= |s| && Mark(s, i, '[') && Mark(s, j - 1, ']')
      && (if values == [] then Blanks(s, i + 1, j - 1) else ElementsAt(s, i + 1, j - 1, values))
    case Obj(members) =>
      && i + 1 < j <= |s| && Mark(s, i, '{') && Mark(s, j - 1, '}') && DistinctKeys(members)
      && (if members == [] then Blanks(s, i + 1, j - 1) else MembersAt(s, i + 1, j - 1, members))
  }

  /** A value with blanks around it. */
  ghost predicate PaddedAt(s: Text, i: nat, j: nat, v: Value)
    decreases v, 1
  {
    exists a: nat, b: nat :: Blanks(s, i, a) && ValueAt(s, a, b, v) && Blanks(s, b, j)
  }

  /** Values with a comma between any two. */
  ghost predicate ElementsAt(s: Text, i: nat, j: nat, values: seq<Value>)
    requires values != []
    decreases values
  {
    if |values| == 1 then PaddedAt(s, i, j, values[0])
    else exists k: nat :: Mark(s, k, ',') && PaddedAt(s, i, k, values[0]) && ElementsAt(s, k + 1, j, values[1..])
  }

  /** A key, a colon and a value, with blanks anywhere between them. */
  ghost predicate MemberAt(s: Text, i: nat, j: nat, m: Member)
    decreases m
  {
    exists a: nat, b: nat, c: nat ::
      Blanks(s, i, a) && StringAt(s, a, b, m.key) && Blanks(s, b, c) && Mark(s, c, ':')
          && PaddedAt(s, c + 1, j, m.value)
  }

  ghost predicate MembersAt(s: Text, i: nat, j: nat, members: seq<Member>)
    requires members != []
    decreases members
  {
    if |members| == 1 then MemberAt(s, i, j, members[0])
    else exists k: nat :: Mark(s, k, ',') && MemberAt(s, i, k, members[0]) && MembersAt(s, k + 1, j, members[1..])
  }

  /** The text `s` denotes `v`. */
  ghost predicate Denotes(s: Text, v: Value) {
    PaddedAt(s, 0, |s|, v)
  }

  // White space

  lemma BlankIsSpace(c: int)
    ensures Blank(c) <==> IsSpace(c)
  {
  }

  lemma {:induction false} SkipBlanks(s: Text, i: nat, j: nat)
    requires Blanks(s, i, j)
    ensures SkipSpace(s, i) == SkipSpace(s, j)
    decreases j - i
  {
    if i < j {
      assert Blank(s[i]);
      SkipBlanks(s, i + 1, j);
    }
  }

  lemma {:induction false} SkippedBlanks(s: Text, i: nat)
    requires i <= |s|
    ensures Blanks(s, i, SkipSpace(s, i)) && !IsSpace(Peek(s, SkipSpace(s, i)))
    decreases |s| - i
  {
    if i < |s| && IsSpace(s[i]) { SkippedBlanks(s, i + 1); }
  }

  lemma SkipTo(s: Text, i: nat, j: nat)
    requires Blanks(s, i, j) && !IsSpace(Peek(s, j))
    ensures SkipSpace(s, i) == j
  {
    SkipBlanks(s, i, j);
  }

  // Numbers

  lemma {:induction false} SkipDigitsTo(s: Text, i: nat, j: nat)
    requires i <= j <= |s| && (forall k :: i <= k < j ==> Digit(s[k])) && !IsDigit(Peek(s, j))
    ensures SkipDigits(s, i) == j
    decreases j - i
  {
    if i < j { SkipDigitsTo(s, i + 1, j); }
  }

  lemma {:induction false} SkippedDigits(s: Text, i: nat)
    requires i <= |s|
    ensures forall k :: i <= k < SkipDigits(s, i) ==> Digit(s[k])
    ensures !IsDigit(Peek(s, SkipDigits(s, i)))
    decreases |s| - i
  {
    if i < |s| && IsDigit(s[i]) { SkippedDigits(s, i + 1); }
  }

  lemma WholeComplete(s: Text, i: nat, p: nat)
    requires WholeAt(s, i, p) && !IsDigit(Peek(s, p))
    ensures ParseInteger(s, i) == Ok(s[i..p], p)
  {
    SkipDigitsTo(s, i, p);
    if s[i] == ZERO { assert s[i..p] == [ZERO]; }
  }

  lemma PartComplete(s: Text, p: nat, q: nat)
    requires PartAt(s, p, q) && !IsDigit(Peek(s, q)) && (p == q ==> Peek(s, p) != DOT)
    ensures ParseFraction(s, p) == Ok(if p == q then [] else s[p + 1..q], q)
  {
    if p != q { SkipDigitsTo(s, p + 1, q); }
  }

  lemma PowerComplete(s: Text, q: nat, j: nat)
    requires PowerAt(s, q, j) && Ends(s, j)
    ensures ParseExponent(s, q) == Ok(PowerOf(s, q, j), j)
  {
    if q != j { SkipDigitsTo(s, if Signed(s, q + 1) then q + 2 else q + 1, j); }
  }

  lemma NumberComplete(s: Text, i: nat, j: nat, d: Decimal)
    requires NumberAt(s, i, j, d) && Ends(s, j)
    ensures i < j <= |s| && ParseNumber(s, i) == Ok(d, j) && (s[i] == MINUS || IsDigit(s[i]))
  {
    hide ParseInteger, ParseFraction, ParseExponent, Number, PowerOf;
    var p: nat, q: nat :| NumberWith(s, i, p, q, j, d);
    WholeComplete(s, AfterSign(s, i), p);
    PartComplete(s, p, q);
    PowerComplete(s, q, j);
  }

  lemma WholeSound(s: Text, i: nat)
    requires i <= |s| && ParseInteger(s, i).Ok?
    ensures WholeAt(s, i, ParseInteger(s, i).next) && ParseInteger(s, i).value == s[i..ParseInteger(s, i).next]
  {
    SkippedDigits(s, i);
    assert SkipDigits(s, i) == SkipDigits(s, i + 1);
  }

  lemma PartSound(s: Text, p: nat)
    requires p <= |s| && ParseFraction(s, p).Ok?
    ensures
      var q := ParseFraction(s, p).next;
      PartAt(s, p, q) && ParseFraction(s, p).value == if p == q then [] else s[p + 1..q]
  {
    if Peek(s, p) == DOT { SkippedDigits(s, p + 1); }
  }

  lemma PowerSound(s: Text, q: nat)
    requires q <= |s| && ParseExponent(s, q).Ok?
    ensures PowerAt(s, q, ParseExponent(s, q).next) && ParseExponent(s, q).value
        == PowerOf(s, q, ParseExponent(s, q).next)
  {
    if Peek(s, q) == LOWER_E || Peek(s, q) == UPPER_E {
      var j := if Peek(s, q + 1) == PLUS || Peek(s, q + 1) == MINUS then q + 2 else q + 1;
      if j <= |s| { SkippedDigits(s, j); }
    }
  }

  lemma NumberSound(s: Text, i: nat)
    requires i < |s| && ParseNumber(s, i).Ok?
    ensures NumberAt(s, i, ParseNumber(s, i).next, ParseNumber(s, i).value)
  {
    hide ParseInteger, ParseFraction, ParseExponent, Number, PowerOf;
    var start := AfterSign(s, i);
    WholeSound(s, start);
    var p := ParseInteger(s, start).next;
    PartSound(s, p);
    var q := ParseFraction(s, p).next;
    PowerSound(s, q);
    assert NumberWith(s, i, p, q, ParseNumber(s, i).next, ParseNumber(s, i).value);
  }

  // Strings

  lemma NibbleIsHex(c: int)
    ensures Nibble(c) == HexDigit(c)
  {
  }

  lemma HexComplete(s: Text, i: nat)
    ensures ParseHex4(s, i).Ok? <==> HexAt(s, i)
    ensures HexAt(s, i) ==> ParseHex4(s, i) == Ok(HexOf(s, i), i + 4)
  {
    if i + 4 <= |s| {
      NibbleIsHex(s[i]);
      NibbleIsHex(s[i + 1]);
      NibbleIsHex(s[i + 2]);
      NibbleIsHex(s[i + 3]);
    }
  }

  lemma CharStep(s: Text, i: nat, k: nat, units: Text, out: Text)
    requires CharAt(s, i, k, units)
    ensures i < k <= |s| && !Mark(s, i, '"') && ParseChars(s, i, out) == ParseChars(s, k, out + units)
  {
    hide HexAt, HexOf, ParseHex4;
    if Mark(s, i, '\\') {
      HexComplete(s, i + 2);
      HexComplete(s, i + 8);
      EscapeStep(s, i, k, units);
      assert units == ParseEscape(s, i + 1).value;
    }
  }

  lemma EscapeStep(s: Text, i: nat, k: nat, units: Text)
    requires CharAt(s, i, k, units) && Mark(s, i, '\\')
    ensures ParseEscape(s, i + 1) == Ok(units, k)
  {
    hide HexAt, HexOf, ParseHex4;
    HexComplete(s, i + 2);
    HexComplete(s, i + 8);
    if k == i + 2 {
      assert units == [units[0]];
    } else if k == i + 6 {
      assert units == [units[0]];
    } else {
      assert units == [units[0], units[1]];
    }
  }

  lemma {:induction false} CharsComplete(s: Text, i: nat, j: nat, text: Text, out: Text)
    requires CharsAt(s, i, j, text) && Mark(s, j, '"')
    ensures ParseChars(s, i, out) == Ok(out + text, j + 1)
    decreases |text|
  {
    hide CharAt, ParseEscape;
    if text == [] {
      assert out + text == out;
    } else {
      var k: nat, n: nat :| 1 <= n <= |text| && CharAt(s, i, k, text[..n]) && CharsAt(s, k, j, text[n..]);
      CharStep(s, i, k, text[..n], out);
      CharsComplete(s, k, j, text[n..], out + text[..n]);
      assert out + text[..n] + text[n..] == out + text;
    }
  }

  lemma EscapeSound(s: Text, i: nat)
    requires Mark(s, i, '\\') && ParseEscape(s, i + 1).Ok?
    ensures CharAt(s, i, ParseEscape(s, i + 1).next, ParseEscape(s, i + 1).value)
  {
    hide HexAt, HexOf, ParseHex4;
    HexComplete(s, i + 2);
    HexComplete(s, i + 8);
  }

  lemma {:induction false} CharsSound(s: Text, i: nat, out: Text) returns (text: Text)
    requires ParseChars(s, i, out).Ok?
    ensures ParseChars(s, i, out).value == out + text
    ensures CharsAt(s, i, ParseChars(s, i, out).next - 1, text) && Mark(s, ParseChars(s, i, out).next - 1, '"')
    decreases |s| - i
  {
    hide CharAt, ParseEscape;
    if s[i] == QUOTE {
      text := [];
      assert out + text == out;
    } else if s[i] == BACKSLASH {
      var units, k := ParseEscape(s, i + 1).value, ParseEscape(s, i + 1).next;
      EscapeSound(s, i);
      var rest := CharsSound(s, k, out + units);
      text := CharsJoin(s, i, k, ParseChars(s, i, out).next - 1, units, rest);
      assert out + units + rest == out + text;
    } else {
      PlainChar(s, i);
      var rest := CharsSound(s, i + 1, out + [s[i]]);
      text := CharsJoin(s, i, i + 1, ParseChars(s, i, out).next - 1, [s[i]], rest);
      assert out + [s[i]] + rest == out + text;
    }
  }

  lemma PlainChar(s: Text, i: nat)
    requires i < |s| && s[i] != QUOTE && s[i] != BACKSLASH && s[i] >= 0x20
    ensures CharAt(s, i, i + 1, [s[i]])
  {
  }

  lemma CharsJoin(s: Text, i: nat, k: nat, j: nat, units: Text, rest: Text) returns (text: Text)
    requires CharAt(s, i, k, units) && CharsAt(s, k, j, rest)
    ensures text == units + rest && CharsAt(s, i, j, text)
  {
    hide CharAt;
    text := units + rest;
    CharUnits(s, i, k, units);
    assert text[..|units|] == units && text[|units|..] == rest;
  }

  lemma CharUnits(s: Text, i: nat, k: nat, units: Text)
    requires CharAt(s, i, k, units)
    ensures 1 <= |units| <= 2
  {
    hide HexAt, HexOf;
  }

  lemma StringComplete(s: Text, i: nat, j: nat, text: Text)
    requires StringAt(s, i, j, text)
    ensures ParseString(s, i) == Ok(text, j) && Peek(s, i) == QUOTE
  {
    hide CharsAt, ParseChars;
    CharsComplete(s, i + 1, j - 1, text, []);
    assert [] + text == text;
  }

  lemma StringSound(s: Text, i: nat)
    requires ParseString(s, i).Ok?
    ensures StringAt(s, i, ParseString(s, i).next, ParseString(s, i).value)
  {
    hide CharsAt, ParseChars;
    var text := CharsSound(s, i + 1, []);
    assert [] + text == text;
  }

  // Values: what the grammar allows is parsed

  /** How a value begins. */
  predicate Begins(c: int, v: Value) {
    match v
    case Null => c == NULL_TEXT[0]
    case Bool(truth) => c == if truth then TRUE_TEXT[0] else FALSE_TEXT[0]
    case Num(_) => c == MINUS || IsDigit(c)
    case Str(_) => c == QUOTE
    case Arr(_) => c == OPEN_BRACKET
    case Obj(_) => c == OPEN_BRACE
  }

  lemma ValueBegins(s: Text, a: nat, n: nat, v: Value)
    requires ValueAt(s, a, n, v)
    ensures a < n <= |s| && Begins(s[a], v) && !IsSpace(s[a])
  {
    hide ElementsAt, MembersAt, CharsAt, Blanks, Number, PowerOf, DistinctKeys;
    match v
    case Num(d) => var p: nat, q: nat :| NumberWith(s, a, p, q, n, d);
    case Null => assert s[a + 0] == "null"[0] as int;
    case Bool(truth) => assert s[a + 0] == (if truth then "true" else "false")[0] as int;
    case _ =>
  }

  lemma ParseAt(s: Text, i: nat, a: nat)
    requires SkipSpace(s, i) == a && a < |s|
    ensures s[a] == OPEN_BRACE ==> ParseValue(s, i) == ParseObject(s, a)
    ensures s[a] == OPEN_BRACKET ==> ParseValue(s, i) == ParseArray(s, a)
    ensures s[a] == QUOTE && ParseString(s, a).Ok? ==>
      ParseValue(s, i) == Ok(Str(ParseString(s, a).value), ParseString(s, a).next)
    ensures (s[a] == MINUS || IsDigit(s[a])) && ParseNumber(s, a).Ok? ==>
      ParseValue(s, i) == Ok(Num(ParseNumber(s, a).value), ParseNumber(s, a).next)
    ensures s[a] == TRUE_TEXT[0] ==> ParseValue(s, i) == ParseKeyword(s, a, TRUE_TEXT, Bool(true))
    ensures s[a] == FALSE_TEXT[0] ==> ParseValue(s, i) == ParseKeyword(s, a, FALSE_TEXT, Bool(false))
    ensures s[a] == NULL_TEXT[0] ==> ParseValue(s, i) == ParseKeyword(s, a, NULL_TEXT, Null)
  {
    hide ParseObject, ParseArray, ParseString, ParseNumber, ParseKeyword;
  }

  lemma WordComplete(s: Text, a: nat, n: nat, w: string, keyword: Text, v: Value)
    requires Word(s, a, n, w) && |keyword| == |w| > 0 && forall k :: 0 <= k < |w| ==> keyword[k] == w[k] as int
    ensures ParseKeyword(s, a, keyword, v) == Ok(v, n)
  {
    assert s[a..a + |keyword|] == keyword;
  }

  lemma LeafComplete(s: Text, i: nat, a: nat, n: nat, v: Value)
    requires !v.Arr? && !v.Obj? && SkipSpace(s, i) == a && ValueAt(s, a, n, v) && (v.Num? ==> Ends(s, n))
    ensures ParseValue(s, i) == Ok(v, n)
  {
    hide ParseObject, ParseArray, ParseString, ParseNumber, ParseKeyword, ParseValue, CharsAt, NumberAt, StringAt, Word;
    ValueBegins(s, a, n, v);
    ParseAt(s, i, a);
    match v
    case Null => WordComplete(s, a, n, "null", NULL_TEXT, Null);
    case Bool(truth) =>
      if truth { WordComplete(s, a, n, "true", TRUE_TEXT, v); } else { WordComplete(s, a, n, "false", FALSE_TEXT, v); }
    case Num(d) => NumberComplete(s, a, n, d);
    case Str(text) => StringComplete(s, a, n, text);
  }

  /** What follows a value inside an array or an object. */
  predicate Closes(s: Text, k: nat, close: char) {
    Mark(s, k, ',') || Mark(s, k, close)
  }

  lemma AfterValue(s: Text, b: nat, k: nat)
    requires Blanks(s, b, k) && (Closes(s, k, ']') || Closes(s, k, '}') || k == |s|)
    ensures Ends(s, b) && SkipSpace(s, b) == k
  {
    SkipTo(s, b, k);
    if b < k { assert Blank(s[b]); }
  }

  lemma {:induction false} ValueComplete(s: Text, i: nat, a: nat, n: nat, v: Value)
    requires Blanks(s, i, a) && ValueAt(s, a, n, v) && (v.Num? ==> Ends(s, n))
    ensures ParseValue(s, i) == Ok(v, n)
    decreases v, 1
  {
    hide *;
    ValueBegins(s, a, n, v);
    PeekIs(s, a);
    SkipTo(s, i, a);
    match v
    case Arr(values) =>
      ParseAt(s, i, a);
      ArrayBegins(s, a, n, values);
      ArrayComplete(s, a, n, values);
    case Obj(members) =>
      ParseAt(s, i, a);
      ObjectBegins(s, a, n, members);
      ObjectComplete(s, a, n, members);
    case _ => LeafComplete(s, i, a, n, v);
  }

  lemma PeekIs(s: Text, a: nat)
    ensures a < |s| ==> Peek(s, a) == s[a]
  {
  }

  lemma ArrayBegins(s: Text, a: nat, n: nat, values: seq<Value>)
    requires ValueAt(s, a, n, Arr(values))
    ensures a + 1 < n <= |s| && s[a] == OPEN_BRACKET && Mark(s, n - 1, ']')
    ensures if values == [] then Blanks(s, a + 1, n - 1) else ElementsAt(s, a + 1, n - 1, values)
  {
    hide ElementsAt;
  }

  lemma ObjectBegins(s: Text, a: nat, n: nat, members: seq<Member>)
    requires ValueAt(s, a, n, Obj(members))
    ensures a + 1 < n <= |s| && s[a] == OPEN_BRACE && Mark(s, n - 1, '}') && DistinctKeys(members)
    ensures if members == [] then Blanks(s, a + 1, n - 1) else MembersAt(s, a + 1, n - 1, members)
  {
    hide MembersAt;
  }

  /** The first element begins after the blanks, and not with a closing bracket. */
  lemma FirstElement(s: Text, i: nat, j: nat, values: seq<Value>)
    requires values != [] && ElementsAt(s, i, j, values)
    ensures i <= SkipSpace(s, i) < |s| && Blanks(s, i, SkipSpace(s, i)) && s[SkipSpace(s, i)] != CLOSE_BRACKET
  {
    hide ValueAt, SkipSpace;
    var k, a, b := ElementsParts(s, i, j, values);
    ValueBegins(s, a, b, values[0]);
    SkipTo(s, i, a);
  }

  lemma ArrayUnfolds(s: Text, a: nat)
    requires a < |s| && s[a] == OPEN_BRACKET
    ensures
      var j := SkipSpace(s, a + 1);
      ParseArray(s, a) ==
        if Peek(s, j) == CLOSE_BRACKET then Ok(Arr([]), j + 1)
        else match ParseElements(s, j, []) case Err => Err case Ok(values, next) => Ok(Arr(values), next)
  {
    hide ParseElements;
  }

  lemma MarkPeek(s: Text, k: nat)
    ensures Mark(s, k, ']') ==> Peek(s, k) == CLOSE_BRACKET && !IsSpace(Peek(s, k))
    ensures Mark(s, k, '}') ==> Peek(s, k) == CLOSE_BRACE && !IsSpace(Peek(s, k))
    ensures Mark(s, k, ',') ==> Peek(s, k) == COMMA && !IsSpace(Peek(s, k))
    ensures Mark(s, k, ':') ==> Peek(s, k) == COLON && !IsSpace(Peek(s, k))
    ensures k < |s| ==> Peek(s, k) == s[k]
    ensures COMMA != CLOSE_BRACKET && COMMA != CLOSE_BRACE && QUOTE != CLOSE_BRACE && !IsSpace(QUOTE)
  {
  }

  lemma {:induction false} ArrayComplete(s: Text, a: nat, n: nat, values: seq<Value>)
    requires a + 1 < n <= |s| && s[a] == OPEN_BRACKET && Mark(s, n - 1, ']')
    requires if values == [] then Blanks(s, a + 1, n - 1) else ElementsAt(s, a + 1, n - 1, values)
    ensures ParseArray(s, a) == Ok(Arr(values), n)
    decreases Arr(values), 0
  {
    hide *;
    ArrayUnfolds(s, a);
    MarkPeek(s, n - 1);
    if values == [] {
      SkipTo(s, a + 1, n - 1);
    } else {
      var j := SkipSpace(s, a + 1);
      FirstElement(s, a + 1, n - 1, values);
      MarkPeek(s, j);
      ElementsComplete(s, a + 1, j, n - 1, values, []);
      assert [] + values == values;
    }
  }

  lemma ElementsParts(s: Text, i: nat, j: nat, values: seq<Value>) returns (k: nat, a: nat, b: nat)
    requires values != [] && ElementsAt(s, i, j, values)
    ensures Blanks(s, i, a) && ValueAt(s, a, b, values[0]) && Blanks(s, b, k)
    ensures if |values| == 1 then k == j else Mark(s, k, ',') && ElementsAt(s, k + 1, j, values[1..])
  {
    hide ValueAt, Blanks, Mark;
    if |values| == 1 {
      k := j;
    } else {
      k :| Mark(s, k, ',') && PaddedAt(s, i, k, values[0]) && ElementsAt(s, k + 1, j, values[1..]);
    }
    assert PaddedAt(s, i, k, values[0]);
    a, b :| Blanks(s, i, a) && ValueAt(s, a, b, values[0]) && Blanks(s, b, k);
  }

  lemma ElementNext(s: Text, i: nat, out: seq<Value>, v: Value, b: nat, k: nat)
    requires ParseValue(s, i) == Ok(v, b) && SkipSpace(s, b) == k
    ensures Peek(s, k) == CLOSE_BRACKET ==> ParseElements(s, i, out) == Ok(out + [v], k + 1)
    ensures Peek(s, k) == COMMA ==> ParseElements(s, i, out) == ParseElements(s, k + 1, out + [v])
  {
    hide ParseValue;
  }

  lemma BlanksShift(s: Text, i: nat, m: nat, a: nat)
    requires Blanks(s, i, a) && i <= m <= a
    ensures Blanks(s, m, a)
  {
  }

  /** `m` is where the reading starts: at `i`, or at the first element if the blanks were skipped. */
  lemma {:induction false} ElementsComplete(s: Text, i: nat, m: nat, j: nat, values: seq<Value>, out: seq<Value>)
    requires values != [] && ElementsAt(s, i, j, values) && Mark(s, j, ']')
    requires m == i || m == SkipSpace(s, i)
    ensures ParseElements(s, m, out) == Ok(out + values, j + 1)
    decreases values
  {
    hide *;
    var k, a, b := ElementsParts(s, i, j, values);
    ValueBegins(s, a, b, values[0]);
    MarkPeek(s, a);
    SkipTo(s, i, a);
    BlanksBounds(s, i, a);
    BlanksShift(s, i, m, a);
    MarkCloses(s, k, j, ']');
    AfterValue(s, b, k);
    ValueComplete(s, m, a, b, values[0]);
    ElementNext(s, m, out, values[0], b, k);
    MarkPeek(s, k);
    if |values| == 1 {
      assert values == [values[0]];
    } else {
      ElementsComplete(s, k + 1, k + 1, j, values[1..], out + [values[0]]);
      assert out + [values[0]] + values[1..] == out + values;
    }
  }

  lemma BlanksBounds(s: Text, i: nat, a: nat)
    requires Blanks(s, i, a)
    ensures i <= a <= |s|
  {
  }

  lemma MarkCloses(s: Text, k: nat, j: nat, close: char)
    ensures k == j && Mark(s, j, close) ==> Closes(s, k, close)
    ensures Mark(s, k, ',') ==> Closes(s, k, close)
  {
  }

  lemma ObjectUnfolds(s: Text, a: nat)
    requires a < |s| && s[a] == OPEN_BRACE
    ensures
      var j := SkipSpace(s, a + 1);
      ParseObject(s, a) ==
        if Peek(s, j) == CLOSE_BRACE then Ok(Obj([]), j + 1)
        else match ParseMembers(s, j, []) case Err => Err case Ok(members, next) => Ok(Obj(members), next)
  {
    hide ParseMembers;
  }

  lemma MembersParts(s: Text, i: nat, j: nat, members: seq<Member>)
      returns (a: nat, b: nat, c: nat, d: nat, e: nat, k: nat)
    requires members != [] && MembersAt(s, i, j, members)
    ensures Blanks(s, i, a) && StringAt(s, a, b, members[0].key) && Blanks(s, b, c) && Mark(s, c, ':')
    ensures Blanks(s, c + 1, d) && ValueAt(s, d, e, members[0].value) && Blanks(s, e, k)
    ensures if |members| == 1 then k == j else Mark(s, k, ',') && MembersAt(s, k + 1, j, members[1..])
  {
    hide ValueAt, Blanks, Mark, StringAt;
    if |members| == 1 {
      k := j;
    } else {
      k :| Mark(s, k, ',') && MemberAt(s, i, k, members[0]) && MembersAt(s, k + 1, j, members[1..]);
    }
    var m := members[0];
    assert MemberAt(s, i, k, m);
    a, b, c :|
      Blanks(s, i, a) && StringAt(s, a, b, m.key) && Blanks(s, b, c) && Mark(s, c, ':')
          && PaddedAt(s, c + 1, k, m.value);
    d, e := PaddedParts(s, c + 1, k, m.value);
  }

  lemma PaddedParts(s: Text, i: nat, j: nat, v: Value) returns (a: nat, b: nat)
    requires PaddedAt(s, i, j, v)
    ensures Blanks(s, i, a) && ValueAt(s, a, b, v) && Blanks(s, b, j)
  {
    hide ValueAt, Blanks;
    a, b :| Blanks(s, i, a) && ValueAt(s, a, b, v) && Blanks(s, b, j);
  }

  lemma StringBegins(s: Text, a: nat, b: nat, text: Text)
    requires StringAt(s, a, b, text)
    ensures a < |s| && s[a] == QUOTE && Peek(s, a) == QUOTE && !IsSpace(Peek(s, a))
  {
    hide CharsAt;
  }

  lemma MemberNext(s: Text, m: nat, out: seq<Member>, a: nat, key: Text, b: nat, c: nat, v: Value, e: nat, k: nat)
    requires SkipSpace(s, m) == a && ParseString(s, a) == Ok(key, b) && SkipSpace(s, b) == c && Peek(s, c) == COLON
    requires !HasKey(out, key) && ParseValue(s, c + 1) == Ok(v, e) && SkipSpace(s, e) == k
    ensures Peek(s, k) == CLOSE_BRACE ==> ParseMembers(s, m, out) == Ok(out + [Member(key, v)], k + 1)
    ensures Peek(s, k) == COMMA ==> ParseMembers(s, m, out) == ParseMembers(s, k + 1, out + [Member(key, v)])
  {
    hide ParseValue, ParseString, HasKey;
  }

  lemma {:induction false} MembersComplete(s: Text, i: nat, m: nat, j: nat, members: seq<Member>, out: seq<Member>)
    requires members != [] && MembersAt(s, i, j, members) && Mark(s, j, '}')
    requires m == i || m == SkipSpace(s, i)
    requires DistinctKeys(members) && forall k :: 0 <= k < |members| ==> !HasKey(out, members[k].key)
    ensures ParseMembers(s, m, out) == Ok(out + members, j + 1)
    decreases members
  {
    hide *;
    var a, b, c, d, e, k := MembersParts(s, i, j, members);
    StringBegins(s, a, b, members[0].key);
    SkipTo(s, i, a);
    BlanksBounds(s, i, a);
    BlanksShift(s, i, m, a);
    SkipTo(s, m, a);
    StringComplete(s, a, b, members[0].key);
    MarkPeek(s, c);
    SkipTo(s, b, c);
    MarkCloses(s, k, j, '}');
    AfterValue(s, e, k);
    ValueComplete(s, c + 1, d, e, members[0].value);
    MemberNext(s, m, out, a, members[0].key, b, c, members[0].value, e, k);
    MarkPeek(s, k);
    assert members[0] == Member(members[0].key, members[0].value);
    if |members| == 1 {
      assert members == [members[0]];
    } else {
      NewKeys(members, out, members[0]);
      MembersComplete(s, k + 1, k + 1, j, members[1..], out + [members[0]]);
      assert out + [members[0]] + members[1..] == out + members;
    }
  }

  lemma FirstKey(s: Text, i: nat, j: nat, members: seq<Member>)
    requires members != [] && MembersAt(s, i, j, members)
    ensures SkipSpace(s, i) < |s| && s[SkipSpace(s, i)] == QUOTE
  {
    hide *;
    var a, b, c, d, e, k := MembersParts(s, i, j, members);
    StringBegins(s, a, b, members[0].key);
    SkipTo(s, i, a);
  }

  lemma NoKeysYet(members: seq<Member>)
    ensures forall k :: 0 <= k < |members| ==> !HasKey([], members[k].key)
  {
  }

  lemma {:induction false} ObjectComplete(s: Text, a: nat, n: nat, members: seq<Member>)
    requires a + 1 < n <= |s| && s[a] == OPEN_BRACE && Mark(s, n - 1, '}') && DistinctKeys(members)
    requires if members == [] then Blanks(s, a + 1, n - 1) else MembersAt(s, a + 1, n - 1, members)
    ensures ParseObject(s, a) == Ok(Obj(members), n)
    decreases Obj(members), 0
  {
    hide *;
    ObjectUnfolds(s, a);
    MarkPeek(s, n - 1);
    if members == [] {
      SkipTo(s, a + 1, n - 1);
    } else {
      var j := SkipSpace(s, a + 1);
      FirstKey(s, a + 1, n - 1, members);
      MarkPeek(s, j);
      NoKeysYet(members);
      MembersComplete(s, a + 1, j, n - 1, members, []);
      assert [] + members == members;
    }
  }

  // Values: what is parsed is allowed by the grammar

  lemma WordSound(s: Text, a: nat, w: string, keyword: Text, v: Value)
    requires |keyword| == |w| > 0 && (forall k :: 0 <= k < |w| ==> keyword[k] == w[k] as int)
    requires ParseKeyword(s, a, keyword, v).Ok?
    ensures Word(s, a, ParseKeyword(s, a, keyword, v).next, w) && ParseKeyword(s, a, keyword, v).value == v
  {
    forall k | 0 <= k < |w| ensures s[a + k] == w[k] as int { assert s[a..a + |keyword|][k] == keyword[k]; }
  }

  /** The kinds of value that a first character can begin. */
  lemma ParseCases(s: Text, i: nat)
    requires ParseValue(s, i).Ok?
    ensures
      var a := SkipSpace(s, i);
      a < |s| && var c, r := s[a], ParseValue(s, i);
      || (c == OPEN_BRACE && r == ParseObject(s, a)) || (c == OPEN_BRACKET && r == ParseArray(s, a))
      || (c == QUOTE && ParseString(s, a).Ok? && r == Ok(Str(ParseString(s, a).value), ParseString(s, a).next))
      || (ParseNumber(s, a).Ok? && r == Ok(Num(ParseNumber(s, a).value), ParseNumber(s, a).next))
      || r == ParseKeyword(s, a, TRUE_TEXT, Bool(true)) || r == ParseKeyword(s, a, FALSE_TEXT, Bool(false))
      || r == ParseKeyword(s, a, NULL_TEXT, Null)
  {
    hide ParseObject, ParseArray, ParseString, ParseNumber, ParseKeyword;
  }

  lemma {:induction false} ValueSound(s: Text, i: nat)
    requires i <= |s| && ParseValue(s, i).Ok?
    ensures Blanks(s, i, SkipSpace(s, i))
    ensures ValueAt(s, SkipSpace(s, i), ParseValue(s, i).next, ParseValue(s, i).value)
    decreases |s| - i, 2
  {
    hide *;
    var a, r := SkipSpace(s, i), ParseValue(s, i);
    SkippedBlanks(s, i);
    BlanksBounds(s, i, a);
    ParseCases(s, i);
    MarkPeek(s, a);
    if s[a] == OPEN_BRACE && r == ParseObject(s, a) {
      ObjectSound(s, a);
    } else if s[a] == OPEN_BRACKET && r == ParseArray(s, a) {
      ArraySound(s, a);
    } else {
      LeafSound(s, a, r);
    }
  }

  lemma LeafSound(s: Text, a: nat, r: Parsed<Value>)
    requires a < |s| && r.Ok?
    requires
      || (ParseString(s, a).Ok? && r == Ok(Str(ParseString(s, a).value), ParseString(s, a).next))
      || (ParseNumber(s, a).Ok? && r == Ok(Num(ParseNumber(s, a).value), ParseNumber(s, a).next))
      || r == ParseKeyword(s, a, TRUE_TEXT, Bool(true)) || r == ParseKeyword(s, a, FALSE_TEXT, Bool(false))
      || r == ParseKeyword(s, a, NULL_TEXT, Null)
    ensures ValueAt(s, a, r.next, r.value)
  {
    hide ParseString, ParseNumber, ParseKeyword, NumberAt, StringAt, Word;
    if ParseString(s, a).Ok? { StringSound(s, a); }
    if ParseNumber(s, a).Ok? { NumberSound(s, a); }
    if ParseKeyword(s, a, TRUE_TEXT, Bool(true)).Ok? { WordSound(s, a, "true", TRUE_TEXT, Bool(true)); }
    if ParseKeyword(s, a, FALSE_TEXT, Bool(false)).Ok? { WordSound(s, a, "false", FALSE_TEXT, Bool(false)); }
    if ParseKeyword(s, a, NULL_TEXT, Null).Ok? { WordSound(s, a, "null", NULL_TEXT, Null); }
  }

  lemma PeekMark(s: Text, k: nat)
    ensures Peek(s, k) == CLOSE_BRACKET ==> Mark(s, k, ']')
    ensures Peek(s, k) == CLOSE_BRACE ==> Mark(s, k, '}')
    ensures Peek(s, k) == COMMA ==> Mark(s, k, ',')
    ensures Peek(s, k) == COLON ==> Mark(s, k, ':')
    ensures Mark(s, k, ']') || Mark(s, k, '}') || Mark(s, k, ',') || Mark(s, k, ':') ==> k < |s|
  {
  }

  lemma ArrayIs(s: Text, a: nat, n: nat, values: seq<Value>)
    requires a + 1 < n <= |s| && s[a] == OPEN_BRACKET && Mark(s, n - 1, ']')
    requires if values == [] then Blanks(s, a + 1, n - 1) else ElementsAt(s, a + 1, n - 1, values)
    ensures ValueAt(s, a, n, Arr(values))
  {
    hide ElementsAt;
  }

  lemma {:induction false} ArraySound(s: Text, a: nat)
    requires a < |s| && s[a] == OPEN_BRACKET && Peek(s, a) == OPEN_BRACKET && ParseArray(s, a).Ok?
    ensures ValueAt(s, a, ParseArray(s, a).next, ParseArray(s, a).value)
    decreases |s| - a, 1
  {
    hide *;
    var j := SkipSpace(s, a + 1);
    ArrayUnfolds(s, a);
    SkippedBlanks(s, a + 1);
    BlanksBounds(s, a + 1, j);
    PeekMark(s, j);
    if Peek(s, j) == CLOSE_BRACKET {
      ArrayIs(s, a, j + 1, []);
    } else {
      var values := ElementsSound(s, j, []);
      assert [] + values == values;
      ElementsLonger(s, a + 1, j, ParseElements(s, j, []).next - 1, values);
      ElementsRoom(s, j, []);
      ArrayIs(s, a, ParseElements(s, j, []).next, values);
    }
  }

  lemma ElementsRoom(s: Text, i: nat, out: seq<Value>)
    requires ParseElements(s, i, out).Ok?
    ensures i < ParseElements(s, i, out).next <= |s|
  {
    hide ParseValue;
  }

  lemma BlanksJoin(s: Text, i: nat, m: nat, a: nat)
    requires Blanks(s, i, m) && Blanks(s, m, a)
    ensures Blanks(s, i, a)
  {
  }

  /** Blanks in front of the first element belong to it. */
  lemma ElementsLonger(s: Text, i: nat, m: nat, j: nat, values: seq<Value>)
    requires values != [] && ElementsAt(s, m, j, values) && Blanks(s, i, m)
    ensures ElementsAt(s, i, j, values)
  {
    hide ValueAt, Blanks, Mark;
    var k, a, b := ElementsParts(s, m, j, values);
    BlanksJoin(s, i, m, a);
    assert PaddedAt(s, i, k, values[0]);
    if |values| > 1 { assert Mark(s, k, ','); }
  }

  lemma ElementsBuilt(s: Text, i: nat, a: nat, b: nat, k: nat, j: nat, v: Value, rest: seq<Value>)
    requires Blanks(s, i, a) && ValueAt(s, a, b, v) && Blanks(s, b, k)
    requires if rest == [] then k == j else Mark(s, k, ',') && ElementsAt(s, k + 1, j, rest)
    ensures ElementsAt(s, i, j, [v] + rest)
  {
    hide ValueAt, Blanks, Mark;
    assert PaddedAt(s, i, k, v);
    var values := [v] + rest;
    assert values[0] == v && values[1..] == rest;
    if rest != [] { assert Mark(s, k, ',') && PaddedAt(s, i, k, values[0]) && ElementsAt(s, k + 1, j, values[1..]); }
  }

  lemma ElementsUnfold(s: Text, i: nat, out: seq<Value>)
    requires ParseElements(s, i, out).Ok?
    ensures
      ParseValue(s, i).Ok? && var v, n := ParseValue(s, i).value, ParseValue(s, i).next;
      var k := SkipSpace(s, n);
      && i < n <= k <= |s|
      && (Peek(s, k) == CLOSE_BRACKET || Peek(s, k) == COMMA)
      && ParseElements(s, i, out) ==
           if Peek(s, k) == CLOSE_BRACKET then Ok(out + [v], k + 1) else ParseElements(s, k + 1, out + [v])
  {
    hide ParseValue;
  }

  lemma {:induction false} ElementsSound(s: Text, i: nat, out: seq<Value>) returns (values: seq<Value>)
    requires i <= |s| && ParseElements(s, i, out).Ok?
    ensures values != [] && ParseElements(s, i, out).value == out + values && ParseElements(s, i, out).next >= 1
    ensures
      ElementsAt(s, i, ParseElements(s, i, out).next - 1, values) && Mark(s, ParseElements(s, i, out).next - 1, ']')
    decreases |s| - i, 3
  {
    hide *;
    ElementsUnfold(s, i, out);
    ElementsRoom(s, i, out);
    var v, n := ParseValue(s, i).value, ParseValue(s, i).next;
    var k := SkipSpace(s, n);
    ValueSound(s, i);
    SkippedBlanks(s, n);
    PeekMark(s, k);
    if Peek(s, k) == CLOSE_BRACKET {
      ElementsBuilt(s, i, SkipSpace(s, i), n, k, k, v, []);
      values := [v] + [];
      assert out + [v] == out + values;
    } else {
      var rest := ElementsSound(s, k + 1, out + [v]);
      ElementsBuilt(s, i, SkipSpace(s, i), n, k, ParseElements(s, i, out).next - 1, v, rest);
      values := [v] + rest;
      assert out + [v] + rest == out + values;
    }
  }

  lemma ObjectIs(s: Text, a: nat, n: nat, members: seq<Member>)
    requires a + 1 < n <= |s| && s[a] == OPEN_BRACE && Mark(s, n - 1, '}') && DistinctKeys(members)
    requires if members == [] then Blanks(s, a + 1, n - 1) else MembersAt(s, a + 1, n - 1, members)
    ensures ValueAt(s, a, n, Obj(members))
  {
    hide MembersAt;
  }

  lemma NoDuplicates()
    ensures DistinctKeys([])
  {
  }

  lemma {:induction false} ObjectSound(s: Text, a: nat)
    requires a < |s| && s[a] == OPEN_BRACE && Peek(s, a) == OPEN_BRACE && ParseObject(s, a).Ok?
    ensures ValueAt(s, a, ParseObject(s, a).next, ParseObject(s, a).value)
    decreases |s| - a, 1
  {
    hide *;
    var j := SkipSpace(s, a + 1);
    ObjectUnfolds(s, a);
    SkippedBlanks(s, a + 1);
    BlanksBounds(s, a + 1, j);
    PeekMark(s, j);
    NoDuplicates();
    if Peek(s, j) == CLOSE_BRACE {
      ObjectIs(s, a, j + 1, []);
    } else {
      var members := MembersSound(s, j, []);
      assert [] + members == members;
      MembersLonger(s, a + 1, j, ParseMembers(s, j, []).next - 1, members);
      MembersRoom(s, j, []);
      ObjectIs(s, a, ParseMembers(s, j, []).next, members);
    }
  }

  lemma MembersRoom(s: Text, i: nat, out: seq<Member>)
    requires ParseMembers(s, i, out).Ok?
    ensures i < ParseMembers(s, i, out).next <= |s|
  {
    hide ParseMember;
  }

  lemma MembersLonger(s: Text, i: nat, m: nat, j: nat, members: seq<Member>)
    requires members != [] && MembersAt(s, m, j, members) && Blanks(s, i, m)
    ensures MembersAt(s, i, j, members)
  {
    hide ValueAt, Blanks, Mark, StringAt;
    var a, b, c, d, e, k := MembersParts(s, m, j, members);
    BlanksJoin(s, i, m, a);
    assert PaddedAt(s, c + 1, k, members[0].value);
    assert MemberAt(s, i, k, members[0]);
    if |members| > 1 { assert Mark(s, k, ','); }
  }

  lemma MembersBuilt(s: Text, i: nat, a: nat, b: nat, c: nat, d: nat, e: nat, k: nat, j: nat, m: Member,
      rest: seq<Member>)
    requires Blanks(s, i, a) && StringAt(s, a, b, m.key) && Blanks(s, b, c) && Mark(s, c, ':')
    requires Blanks(s, c + 1, d) && ValueAt(s, d, e, m.value) && Blanks(s, e, k)
    requires if rest == [] then k == j else Mark(s, k, ',') && MembersAt(s, k + 1, j, rest)
    ensures MembersAt(s, i, j, [m] + rest)
  {
    hide ValueAt, Blanks, Mark, StringAt;
    assert PaddedAt(s, c + 1, k, m.value);
    assert MemberAt(s, i, k, m);
    var members := [m] + rest;
    assert members[0] == m && members[1..] == rest;
    if rest != [] { assert Mark(s, k, ',') && MemberAt(s, i, k, members[0]) && MembersAt(s, k + 1, j, members[1..]); }
  }

  lemma MembersUnfold(s: Text, i: nat, out: seq<Member>)
    requires i <= |s| && ParseMembers(s, i, out).Ok?
    ensures
      var a := SkipSpace(s, i);
      ParseString(s, a).Ok? && var key, b := ParseString(s, a).value, ParseString(s, a).next;
      var c := SkipSpace(s, b);
      && !HasKey(out, key) && Peek(s, c) == COLON && b <= |s| && i < c < |s| && ParseValue(s, c + 1).Ok?
      && var v, n := ParseValue(s, c + 1).value, ParseValue(s, c + 1).next;
         var k := SkipSpace(s, n);
         && c < n <= k <= |s| && (Peek(s, k) == CLOSE_BRACE || Peek(s, k) == COMMA)
         && ParseMembers(s, i, out) ==
              if Peek(s, k) == CLOSE_BRACE then Ok(out + [Member(key, v)], k + 1)
              else ParseMembers(s, k + 1, out + [Member(key, v)])
  {
    hide ParseValue, ParseString, HasKey;
  }

  lemma MoreDistinct(out: seq<Member>, m: Member)
    requires DistinctKeys(out) && !HasKey(out, m.key)
    ensures DistinctKeys(out + [m])
  {
  }

  lemma DistinctTail(out: seq<Member>, members: seq<Member>)
    requires DistinctKeys(out + members)
    ensures DistinctKeys(members)
  {
    forall i, j | 0 <= i < j < |members| ensures members[i].key != members[j].key {
      assert (out + members)[|out| + i] == members[i] && (out + members)[|out| + j] == members[j];
    }
  }

  lemma {:induction false} MembersSound(s: Text, i: nat, out: seq<Member>) returns (members: seq<Member>)
    requires i <= |s| && ParseMembers(s, i, out).Ok? && DistinctKeys(out)
    ensures members != [] && ParseMembers(s, i, out).value == out + members && ParseMembers(s, i, out).next >= 1
    ensures DistinctKeys(out + members) && DistinctKeys(members)
    ensures
      MembersAt(s, i, ParseMembers(s, i, out).next - 1, members) && Mark(s, ParseMembers(s, i, out).next - 1, '}')
    decreases |s| - i, 3
  {
    hide *;
    MembersUnfold(s, i, out);
    MembersRoom(s, i, out);
    var a := SkipSpace(s, i);
    var key, b := ParseString(s, a).value, ParseString(s, a).next;
    var c := SkipSpace(s, b);
    var v, n := ParseValue(s, c + 1).value, ParseValue(s, c + 1).next;
    var k, m := SkipSpace(s, n), Member(key, v);
    SkippedBlanks(s, i);
    StringSound(s, a);
    SkippedBlanks(s, b);
    PeekMark(s, c);
    ValueSound(s, c + 1);
    SkippedBlanks(s, n);
    PeekMark(s, k);
    MoreDistinct(out, m);
    if Peek(s, k) == CLOSE_BRACE {
      MembersBuilt(s, i, a, b, c, SkipSpace(s, c + 1), n, k, k, m, []);
      members := [m] + [];
      assert out + [m] == out + members;
    } else {
      var rest := MembersSound(s, k + 1, out + [m]);
      MembersBuilt(s, i, a, b, c, SkipSpace(s, c + 1), n, k, ParseMembers(s, i, out).next - 1, m, rest);
      members := [m] + rest;
      assert out + [m] + rest == out + members;
    }
    DistinctTail(out, members);
  }

  // The theorem

  /** The parser accepts exactly the texts of the grammar, and answers with the value that the text denotes. */
  lemma ParsesExactly(s: Text, v: Value)
    ensures Parse(s) == Ok(v, |s|) <==> Denotes(s, v)
  {
    hide ValueAt, ParseValue, SkipSpace;
    if Denotes(s, v) {
      var a, b := PaddedParts(s, 0, |s|, v);
      AfterValue(s, b, |s|);
      ValueComplete(s, 0, a, b, v);
      SkipEnd(s);
    }
    if Parse(s) == Ok(v, |s|) {
      ValueSound(s, 0);
      SkippedBlanks(s, ParseValue(s, 0).next);
    }
  }

  lemma SkipEnd(s: Text)
    ensures SkipSpace(s, |s|) == |s|
  {
  }

  /** A text denotes at most one value. */
  lemma DenotesOne(s: Text, v: Value, w: Value)
    requires Denotes(s, v) && Denotes(s, w)
    ensures v == w
  {
    ParsesExactly(s, v);
    ParsesExactly(s, w);
  }

  /** And what is rejected denotes nothing. */
  lemma RejectsExactly(s: Text)
    ensures Parse(s).Err? <==> forall v :: !Denotes(s, v)
  {
    hide Denotes, ParseValue;
    if Parse(s).Ok? {
      ParsesExactly(s, Parse(s).value);
    } else {
      forall v ensures !Denotes(s, v) { ParsesExactly(s, v); }
    }
  }
}
