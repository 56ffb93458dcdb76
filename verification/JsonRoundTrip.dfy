/** Reading back what the writer wrote: `Json.parse` after `Json.stringify`. */
module JsonRoundTrip {
  import opened Json

  /** The text `w` stands in `s` at `i`. */
  predicate At(s: Text, i: nat, w: Text) {
    i + |w| <= |s| && s[i..i + |w|] == w
  }

  lemma AtSplit(s: Text, i: nat, a: Text, b: Text)
    requires At(s, i, a + b)
    ensures At(s, i, a) && At(s, i + |a|, b)
  {
    assert s[i..i + |a|] == s[i..i + |a + b|][..|a|];
    assert s[i + |a|..i + |a| + |b|] == s[i..i + |a + b|][|a|..];
  }

  lemma PeekAt(s: Text, i: nat, w: Text, k: nat)
    requires At(s, i, w) && k < |w|
    ensures i + k < |s| && Peek(s, i + k) == s[i + k] == w[k]
  {
    assert s[i..i + |w|][k] == w[k];
  }

  /** Nothing that could continue a number. */
  predicate Ends(s: Text, i: nat) {
    var c := Peek(s, i);
    !IsDigit(c) && c != DOT && c != LOWER_E && c != UPPER_E
  }

  // Digits

  predicate AllDigits(ds: Text) {
    forall i :: 0 <= i < |ds| ==> IsDigit(ds[i])
  }

  lemma {:induction false} DigitsBack(n: nat)
    ensures AllDigits(Digits(n)) && Number(Digits(n)) == n
    ensures n > 0 ==> Digits(n)[0] != ZERO
    ensures n == 0 ==> Digits(n) == [ZERO]
  {
    var ds := Digits(n);
    if n < 10 {
      assert ds[..0] == [];
    } else {
      DigitsBack(n / 10);
      assert ds[..|ds| - 1] == Digits(n / 10);
    }
  }

  lemma NumberSnoc(ds: Text, x: Unit)
    ensures Number(ds + [x]) == 10 * Number(ds) + (x as int - 0x30)
  {
    assert (ds + [x])[..|ds|] == ds;
  }

  lemma {:induction false} ZerosValue(k: nat)
    ensures Number(Zeros(k)) == 0
  {
    if k > 0 {
      ZerosValue(k - 1);
      NumberSnoc(Zeros(k - 1), ZERO);
    }
  }

  lemma {:induction false} LeadingZeros(k: nat, ds: Text)
    ensures Number(Zeros(k) + ds) == Number(ds)
  {
    hide Number, Zeros;
    if ds == [] {
      ZerosValue(k);
      ZerosValue(0);
      assert Zeros(k) + ds == Zeros(k) && Zeros(0) == ds;
    } else {
      var init, x := ds[..|ds| - 1], ds[|ds| - 1];
      assert Zeros(k) + ds == (Zeros(k) + init) + [x] && ds == init + [x];
      NumberSnoc(Zeros(k) + init, x);
      NumberSnoc(init, x);
      LeadingZeros(k, init);
    }
  }

  lemma {:induction false} TrailingZeros(ds: Text, k: nat)
    ensures Number(ds + Zeros(k)) == Number(ds) * Pow10(k)
  {
    if k == 0 {
      assert ds + Zeros(0) == ds;
    } else {
      TrailingZeros(ds, k - 1);
      assert (ds + Zeros(k))[..|ds| + k - 1] == ds + Zeros(k - 1);
      assert Number(ds + Zeros(k)) == 10 * (Number(ds) * Pow10(k - 1));
      TenTimes(Number(ds), Pow10(k - 1));
    }
  }

  lemma TenTimes(a: int, b: int)
    ensures 10 * (a * b) == a * (10 * b) == (10 * a) * b
  {
  }

  lemma {:induction false} SkipDigitsAt(s: Text, i: nat, ds: Text)
    requires At(s, i, ds) && AllDigits(ds) && !IsDigit(Peek(s, i + |ds|))
    ensures SkipDigits(s, i) == i + |ds|
    decreases |ds|
  {
    if ds != [] {
      PeekAt(s, i, ds, 0);
      assert ds == [ds[0]] + ds[1..];
      AtSplit(s, i, [ds[0]], ds[1..]);
      SkipDigitsAt(s, i + 1, ds[1..]);
    }
  }

  lemma PaddedBack(n: nat, scale: nat)
    ensures AllDigits(Padded(n, scale)) && Number(Padded(n, scale)) == n
    ensures |Padded(n, scale)| == scale + 1 || Padded(n, scale)[0] != ZERO
  {
    var ds := Digits(n);
    DigitsBack(n);
    if |ds| <= scale { LeadingZeros(scale + 1 - |ds|, ds); }
  }

  // Numbers

  /** What reading the plain text of a stripped number yields. */
  function ReadBack(d: Decimal): Decimal {
    if d.scale <= 0 then Decimal(d.unscaled * Pow10(-d.scale), 0) else d
  }

  predicate Stripped(d: Decimal) {
    d == Decimal(0, 0) || d.unscaled % 10 != 0
  }

  /** The integer digits `ds` stand at `i`: they are read to their end. */
  lemma IntegerAt(s: Text, i: nat, ds: Text)
    requires At(s, i, ds) && ds != [] && AllDigits(ds) && !IsDigit(Peek(s, i + |ds|))
    requires ds == [ZERO] || ds[0] != ZERO
    ensures ParseInteger(s, i) == Ok(ds, i + |ds|)
  {
    PeekAt(s, i, ds, 0);
    SkipDigitsAt(s, i, ds);
  }

  lemma FractionAt(s: Text, i: nat, ds: Text)
    requires At(s, i, [DOT] + ds) && ds != [] && AllDigits(ds) && !IsDigit(Peek(s, i + 1 + |ds|))
    ensures ParseFraction(s, i) == Ok(ds, i + 1 + |ds|)
  {
    AtSplit(s, i, [DOT], ds);
    PeekAt(s, i, [DOT], 0);
    PeekAt(s, i + 1, ds, 0);
    SkipDigitsAt(s, i + 1, ds);
  }

  lemma SignAt(s: Text, i: nat, n: int, rest: Text)
    requires At(s, i, Sign(n) + rest) && rest != [] && IsDigit(rest[0])
    ensures i < |s| && (s[i] == MINUS <==> n < 0)
    ensures At(s, if s[i] == MINUS then i + 1 else i, rest)
  {
    AtSplit(s, i, Sign(n), rest);
    PeekAt(s, i, Sign(n) + rest, 0);
    if n >= 0 { assert Sign(n) + rest == rest; }
  }

  /** Without a fraction or an exponent the integer digits are the number; with a fraction both are. */
  lemma NumberParts(s: Text, i: nat, digits: Text, j: nat, fraction: Text, k: nat)
    requires i < |s|
    requires ParseInteger(s, if s[i] == MINUS then i + 1 else i) == Ok(digits, j)
    requires j <= |s| && ParseFraction(s, j) == Ok(fraction, k) && Ends(s, k)
    ensures ParseNumber(s, i) == MakeDecimal(s[i] == MINUS, digits + fraction, |fraction|, 0, k)
  {
    hide ParseInteger, ParseFraction, MakeDecimal;
  }

  lemma NoFraction(s: Text, i: nat)
    requires Ends(s, i) && i <= |s|
    ensures ParseFraction(s, i) == Ok([], i)
  {
  }

  lemma MadeWhole(d: Decimal, negative: bool, ds: Text, next: nat)
    requires d.scale <= 0 && (d.unscaled == 0 ==> d.scale == 0) && (negative <==> d.unscaled < 0)
    requires Number(ds) == Magnitude(d.unscaled) * Pow10(-d.scale)
    ensures MakeDecimal(negative, ds, 0, 0, next) == Ok(ReadBack(d), next)
  {
    Negated(Magnitude(d.unscaled), Pow10(-d.scale));
  }

  /** The digits of a whole number. */
  function WholeDigits(d: Decimal): Text {
    Digits(Magnitude(d.unscaled)) + Zeros(if d.scale <= 0 then -d.scale else 0)
  }

  lemma WholeDigitsBack(d: Decimal)
    requires Stripped(d) && d.scale <= 0
    ensures Plain(d) == Sign(d.unscaled) + WholeDigits(d)
    ensures var ds := WholeDigits(d);
      ds != [] && AllDigits(ds) && (ds == [ZERO] || ds[0] != ZERO)
          && Number(ds) == Magnitude(d.unscaled) * Pow10(-d.scale)
    ensures d.unscaled == 0 ==> d.scale == 0
  {
    hide Number, Digits, Zeros, Pow10;
    var a := Magnitude(d.unscaled);
    DigitsBack(a);
    TrailingZeros(Digits(a), -d.scale);
    assert Digits(a) + Zeros(-d.scale) == WholeDigits(d);
    assert a == 0 ==> Zeros(0) == [];
  }

  lemma WholeBack(s: Text, i: nat, d: Decimal)
    requires Stripped(d) && d.scale <= 0 && At(s, i, Plain(d)) && Ends(s, i + |Plain(d)|)
    ensures i < |s| && ParseNumber(s, i) == Ok(ReadBack(d), i + |Plain(d)|)
  {
    hide *;
    var ds := WholeDigits(d);
    WholeDigitsBack(d);
    FirstIsDigit(ds);
    SignAt(s, i, d.unscaled, ds);
    var start := if s[i] == MINUS then i + 1 else i;
    AtLength(s, start, ds);
    SignLength(s, i, d.unscaled);
    EndsNoDigit(s, start + |ds|);
    IntegerAt(s, start, ds);
    NoFraction(s, start + |ds|);
    NumberParts(s, i, ds, start + |ds|, [], start + |ds|);
    assert ds + [] == ds;
    MadeWhole(d, s[i] == MINUS, ds, start + |ds|);
  }

  lemma FirstIsDigit(ds: Text)
    requires ds != [] && AllDigits(ds)
    ensures IsDigit(ds[0])
  {
  }

  lemma AtLength(s: Text, i: nat, w: Text)
    requires At(s, i, w)
    ensures i + |w| <= |s|
  {
  }

  lemma SignLength(s: Text, i: nat, n: int)
    requires i < |s| && (s[i] == MINUS <==> n < 0)
    ensures |Sign(n)| == if s[i] == MINUS then 1 else 0
  {
  }

  lemma EndsNoDigit(s: Text, i: nat)
    requires Ends(s, i)
    ensures !IsDigit(Peek(s, i))
  {
  }

  lemma Negated(a: int, b: int)
    ensures -(a * b) == -a * b
  {
  }

  lemma MadeFraction(d: Decimal, negative: bool, ds: Text, next: nat)
    requires 0 < d.scale <= MAX_SCALE && (negative <==> d.unscaled < 0) && Number(ds) == Magnitude(d.unscaled)
    ensures MakeDecimal(negative, ds, d.scale, 0, next) == Ok(d, next)
  {
  }

  lemma FractionParts(d: Decimal) returns (whole: Text, fraction: Text)
    requires d.scale > 0
    ensures Plain(d) == Sign(d.unscaled) + (whole + ([DOT] + fraction))
    ensures whole != [] && AllDigits(whole) && (whole == [ZERO] || whole[0] != ZERO)
    ensures |fraction| == d.scale && AllDigits(fraction) && Number(whole + fraction) == Magnitude(d.unscaled)
  {
    hide Number, Padded;
    var ds := Padded(Magnitude(d.unscaled), d.scale);
    PaddedBack(Magnitude(d.unscaled), d.scale);
    whole, fraction := ds[..|ds| - d.scale], ds[|ds| - d.scale..];
    assert whole + fraction == ds;
    PaddedFirst(Magnitude(d.unscaled), d.scale);
  }

  lemma PaddedFirst(n: nat, scale: nat)
    ensures |Padded(n, scale)| == scale + 1 ==> Padded(n, scale)[0] == ZERO || n > 0
    ensures Padded(n, scale)[0] == ZERO ==> |Padded(n, scale)| == scale + 1
  {
    DigitsBack(n);
  }

  lemma FractionBack(s: Text, i: nat, d: Decimal)
    requires 0 < d.scale <= MAX_SCALE && At(s, i, Plain(d)) && Ends(s, i + |Plain(d)|)
    ensures i < |s| && ParseNumber(s, i) == Ok(d, i + |Plain(d)|)
  {
    hide *;
    var whole, fraction := FractionParts(d);
    var rest := [DOT] + fraction;
    FirstIsDigit(whole);
    SignAt(s, i, d.unscaled, whole + rest);
    var start := if s[i] == MINUS then i + 1 else i;
    SignLength(s, i, d.unscaled);
    AtLength(s, start, whole + rest);
    AtSplit(s, start, whole, rest);
    PeekAt(s, start + |whole|, rest, 0);
    DotNoDigit();
    IntegerAt(s, start, whole);
    EndsNoDigit(s, start + |whole| + 1 + |fraction|);
    FractionAt(s, start + |whole|, fraction);
    NumberParts(s, i, whole, start + |whole|, fraction, start + |whole| + 1 + |fraction|);
    MadeFraction(d, s[i] == MINUS, whole + fraction, start + |whole| + 1 + |fraction|);
  }

  lemma DotNoDigit()
    ensures !IsDigit(DOT)
  {
  }

  /** A power of ten high enough for both scales: the value as an integer. */
  function ValueAt(d: Decimal, k: int): int
    requires k >= d.scale
  {
    d.unscaled * Pow10(k - d.scale)
  }

  /** Equal as numbers, whatever the scales. */
  ghost predicate SameNumber(a: Decimal, b: Decimal) {
    forall k :: k >= a.scale && k >= b.scale ==> ValueAt(a, k) == ValueAt(b, k)
  }

  lemma {:induction false} StripFacts(d: Decimal, k: int)
    requires k >= d.scale && k >= 0
    ensures Stripped(Strip(d)) && (Strip(d).scale <= d.scale || Strip(d) == Decimal(0, 0))
    ensures ValueAt(Strip(d), k) == ValueAt(d, k)
    decreases Magnitude(d.unscaled)
  {
    if d.unscaled != 0 && d.unscaled % 10 == 0 {
      var e := Decimal(d.unscaled / 10, d.scale - 1);
      StripFacts(e, k);
      assert Pow10(k - e.scale) == 10 * Pow10(k - d.scale);
      TenTimes(e.unscaled, Pow10(k - d.scale));
    }
  }

  lemma {:induction false} PowAdd(a: nat, b: nat)
    ensures Pow10(a + b) == Pow10(a) * Pow10(b)
  {
    if a > 0 {
      PowAdd(a - 1, b);
      TenTimes(Pow10(a - 1), Pow10(b));
    }
  }

  lemma ReadBackValue(d: Decimal, k: int)
    requires k >= d.scale && k >= 0
    ensures ValueAt(ReadBack(d), k) == ValueAt(d, k)
  {
    if d.scale <= 0 {
      PowAdd(-d.scale, k);
      Associate(d.unscaled, Pow10(-d.scale), Pow10(k));
    }
  }

  lemma Associate(a: int, b: int, c: int)
    ensures (a * b) * c == a * (b * c)
  {
  }

  /** Values at some power of ten determine values at lower ones. */
  lemma {:induction false} Lower(a: Decimal, b: Decimal, k: int, j: nat)
    requires k >= a.scale && k >= b.scale && ValueAt(a, k + j) == ValueAt(b, k + j)
    ensures ValueAt(a, k) == ValueAt(b, k)
  {
    if j > 0 {
      TenTimes(a.unscaled, Pow10(k + j - 1 - a.scale));
      TenTimes(b.unscaled, Pow10(k + j - 1 - b.scale));
      Lower(a, b, k, j - 1);
    }
  }

  /** Reading a written number gives the same number. */
  lemma NumberSame(d: Decimal)
    ensures SameNumber(d, ReadBack(Strip(d)))
  {
    var e := ReadBack(Strip(d));
    forall k | k >= d.scale && k >= e.scale ensures ValueAt(d, k) == ValueAt(e, k) {
      var j := if k < 0 then -k else 0;
      StripFacts(d, k + j);
      ReadBackValue(Strip(d), k + j);
      Lower(d, e, k, j);
    }
  }

  lemma FractionReadsBack(d: Decimal)
    ensures d.scale > 0 ==> ReadBack(d) == d
  {
  }

  lemma NumberBack(s: Text, i: nat, d: Decimal)
    requires d.scale <= MAX_SCALE && At(s, i, Plain(Strip(d))) && Ends(s, i + |Plain(Strip(d))|)
    ensures i < |s| && ParseNumber(s, i) == Ok(ReadBack(Strip(d)), i + |Plain(Strip(d))|)
  {
    hide *;
    StripFacts(d, if d.scale > 0 then d.scale else 0);
    FractionReadsBack(Strip(d));
    if Strip(d).scale <= 0 { WholeBack(s, i, Strip(d)); } else { FractionBack(s, i, Strip(d)); }
  }

  // Strings

  lemma HexBack(n: int)
    requires 0 <= n < 16
    ensures HexDigit(Hex(n)) == n
  {
  }

  lemma ControlBack(s: Text, i: nat, c: Unit)
    requires c < 0x20 && At(s, i, [Hex(c / 4096 % 16), Hex(c / 256 % 16), Hex(c / 16 % 16), Hex(c % 16)])
    ensures ParseUnicode(s, i) == Ok([c], i + 4)
  {
    var w := [Hex(c / 4096 % 16), Hex(c / 256 % 16), Hex(c / 16 % 16), Hex(c % 16)];
    PeekAt(s, i, w, 0);
    PeekAt(s, i, w, 1);
    PeekAt(s, i, w, 2);
    PeekAt(s, i, w, 3);
    assert c / 4096 % 16 == 0 && c / 256 % 16 == 0 && c / 16 % 16 * 16 + c % 16 == c;
    HexBack(c / 16 % 16);
    HexBack(c % 16);
    assert HexDigit(s[i]) == 0 && HexDigit(s[i + 1]) == 0;
    assert ParseHex4(s, i) == Ok(c, i + 4);
  }

  /** One written character is read back as itself. */
  lemma CharBack(s: Text, i: nat, c: Unit, out: Text)
    requires At(s, i, Escape(c))
    ensures ParseChars(s, i, out) == ParseChars(s, i + |Escape(c)|, out + [c])
  {
    var w := Escape(c);
    PeekAt(s, i, w, 0);
    if |w| > 1 {
      PeekAt(s, i, w, 1);
      if |w| > 2 {
        assert w == [BACKSLASH, LOWER_U] + [Hex(c / 4096 % 16), Hex(c / 256 % 16), Hex(c / 16 % 16), Hex(c % 16)];
        AtSplit(s, i, [BACKSLASH, LOWER_U], [Hex(c / 4096 % 16), Hex(c / 256 % 16), Hex(c / 16 % 16), Hex(c % 16)]);
        ControlBack(s, i + 2, c);
      }
    }
  }

  lemma {:induction false} CharsBack(s: Text, i: nat, t: Text, out: Text)
    requires At(s, i, Escaped(t) + [QUOTE])
    ensures ParseChars(s, i, out) == Ok(out + t, i + |Escaped(t)| + 1)
    decreases |t|
  {
    hide *;
    if t == [] {
      NothingEscaped();
      assert [] + [QUOTE] == [QUOTE];
      PeekAt(s, i, [QUOTE], 0);
      CharsEnd(s, i, out);
      assert out + t == out;
    } else {
      EscapedStep(t);
      var rest := Escaped(t[1..]);
      assert Escaped(t) + [QUOTE] == Escape(t[0]) + (rest + [QUOTE]);
      AtSplit(s, i, Escape(t[0]), rest + [QUOTE]);
      CharBack(s, i, t[0], out);
      CharsBack(s, i + |Escape(t[0])|, t[1..], out + [t[0]]);
      assert out + [t[0]] + t[1..] == out + t;
    }
  }

  lemma NothingEscaped()
    ensures Escaped([]) == []
  {
  }

  lemma EscapedStep(t: Text)
    requires t != []
    ensures Escaped(t) == Escape(t[0]) + Escaped(t[1..])
  {
  }

  lemma CharsEnd(s: Text, i: nat, out: Text)
    requires i < |s| && s[i] == QUOTE
    ensures ParseChars(s, i, out) == Ok(out, i + 1)
  {
  }

  lemma StringBack(s: Text, i: nat, t: Text)
    requires At(s, i, WriteString(t))
    ensures ParseString(s, i) == Ok(t, i + |WriteString(t)|)
  {
    assert WriteString(t) == [QUOTE] + (Escaped(t) + [QUOTE]);
    AtSplit(s, i, [QUOTE], Escaped(t) + [QUOTE]);
    PeekAt(s, i, [QUOTE], 0);
    CharsBack(s, i + 1, t, []);
    assert [] + t == t;
  }

  // Values

  ghost predicate DistinctKeys(members: seq<Member>) {
    forall i, j :: 0 <= i < j < |members| ==> members[i].key != members[j].key
  }

  /** A value the program can hold: object keys are distinct, and scales fit in 32 bits. */
  ghost predicate Proper(v: Value)
    decreases v
  {
    match v
    case Obj(members) => DistinctKeys(members) && forall k :: 0 <= k < |members| ==> Proper(members[k].value)
    case Arr(values) => forall k :: 0 <= k < |values| ==> Proper(values[k])
    case Num(number) => -MAX_SCALE - 1 <= number.scale <= MAX_SCALE
    case _ => true
  }

  /** The value as it is read back: numbers may have another scale. */
  function Canon(v: Value): Value
    decreases v
  {
    match v
    case Obj(members) => Obj(CanonMembers(members))
    case Arr(values) => Arr(CanonValues(values))
    case Num(number) => Num(ReadBack(Strip(number)))
    case _ => v
  }

  function CanonValues(values: seq<Value>): (r: seq<Value>)
    ensures |r| == |values| && forall k :: 0 <= k < |values| ==> r[k] == Canon(values[k])
    decreases values
  {
    if values == [] then [] else [Canon(values[0])] + CanonValues(values[1..])
  }

  function CanonMembers(members: seq<Member>): (r: seq<Member>)
    ensures |r| == |members| &&
        forall k :: 0 <= k < |members| ==> r[k] == Member(members[k].key, Canon(members[k].value))
    decreases members
  {
    if members == [] then [] else [Member(members[0].key, Canon(members[0].value))] + CanonMembers(members[1..])
  }

  /** Equal, with numbers compared by value. */
  ghost predicate Similar(v: Value, w: Value)
    decreases v
  {
    match v
    case Obj(members) =>
      w.Obj? && |w.members| == |members|
      && forall k :: 0 <= k < |members|
          ==> w.members[k].key == members[k].key && Similar(members[k].value, w.members[k].value)
    case Arr(values) => w.Arr? && |w.values| == |values| &&
        forall k :: 0 <= k < |values| ==> Similar(values[k], w.values[k])
    case Num(number) => w.Num? && SameNumber(number, w.number)
    case _ => w == v
  }

  lemma {:induction false} CanonSimilar(v: Value)
    ensures Similar(v, Canon(v))
    decreases v
  {
    match v
    case Obj(members) =>
      forall k | 0 <= k < |members| ensures Similar(members[k].value, Canon(members[k].value)) {
        CanonSimilar(members[k].value);
      }
    case Arr(values) =>
      forall k | 0 <= k < |values| ensures Similar(values[k], Canon(values[k])) { CanonSimilar(values[k]); }
    case Num(number) => NumberSame(number);
    case _ =>
  }

  /** What a written value begins with. */
  lemma FirstUnit(v: Value)
    ensures Write(v) != [] && !IsSpace(Write(v)[0])
    ensures v.Num? ==> Write(v)[0] == MINUS || IsDigit(Write(v)[0])
    ensures Write(v)[0] != CLOSE_BRACKET
  {
    if v.Num? {
      var d := Strip(v.number);
      DigitsBack(Magnitude(d.unscaled));
      if d.scale > 0 { PaddedBack(Magnitude(d.unscaled), d.scale); }
    }
  }

  lemma NoSpace(s: Text, i: nat)
    requires !IsSpace(Peek(s, i))
    ensures SkipSpace(s, i) == i
  {
  }

  lemma {:induction false} ValueBack(s: Text, i: nat, v: Value)
    requires Proper(v) && At(s, i, Write(v)) && Ends(s, i + |Write(v)|)
    ensures ParseValue(s, i) == Ok(Canon(v), i + |Write(v)|)
    decreases v, 1
  {
    hide *;
    FirstUnit(v);
    PeekAt(s, i, Write(v), 0);
    NoSpace(s, i);
    match v
    case Obj(members) =>
      ObjectBack(s, i, members);
      ParseDispatch(s, i);
    case Arr(values) =>
      ArrayBack(s, i, values);
      ParseDispatch(s, i);
    case _ => LeafBack(s, i, v);
  }

  lemma ParseDispatch(s: Text, i: nat)
    requires SkipSpace(s, i) == i
    ensures Peek(s, i) == OPEN_BRACE ==> ParseValue(s, i) == ParseObject(s, i)
    ensures Peek(s, i) == OPEN_BRACKET ==> ParseValue(s, i) == ParseArray(s, i)
  {
    hide ParseObject, ParseArray, ParseString, ParseNumber, ParseKeyword;
  }

  lemma LeafBack(s: Text, i: nat, v: Value)
    requires !v.Obj? && !v.Arr? && Proper(v) && At(s, i, Write(v)) && Ends(s, i + |Write(v)|) && SkipSpace(s, i) == i
    ensures ParseValue(s, i) == Ok(Canon(v), i + |Write(v)|)
  {
    hide ParseNumber, ParseString, ParseObject, ParseArray, Plain, WriteString, Strip, ReadBack, Ends;
    FirstUnit(v);
    PeekAt(s, i, Write(v), 0);
    match v
    case Str(text) =>
      StringBack(s, i, text);
      StartsWithQuote(text);
    case Num(number) => NumberBack(s, i, number);
    case _ =>
  }

  lemma StartsWithQuote(t: Text)
    ensures WriteString(t)[0] == QUOTE
  {
  }

  lemma ArrayText(values: seq<Value>)
    ensures Write(Arr(values)) == [OPEN_BRACKET] + (WriteValues(values) + [CLOSE_BRACKET])
    ensures values == [] ==> WriteValues(values) == []
    ensures values != []
        ==> WriteValues(values) != [] && WriteValues(values)[0] == Write(values[0])[0] && Write(values[0]) != []
  {
    if values != [] { FirstUnit(values[0]); }
  }

  lemma ParseArrayStep(s: Text, i: nat)
    requires Peek(s, i) == OPEN_BRACKET && SkipSpace(s, i + 1) == i + 1
    ensures ParseArray(s, i) ==
      if Peek(s, i + 1) == CLOSE_BRACKET then Ok(Arr([]), i + 2)
      else match ParseElements(s, i + 1, []) case Err => Err case Ok(values, next) => Ok(Arr(values), next)
  {
    hide ParseElements;
  }

  lemma ProperArray(values: seq<Value>)
    requires Proper(Arr(values))
    ensures forall k :: 0 <= k < |values| ==> Proper(values[k])
    ensures Canon(Arr(values)) == Arr(CanonValues(values))
  {
  }

  lemma CloseNotSpace()
    ensures !IsSpace(CLOSE_BRACKET) && !IsSpace(CLOSE_BRACE) && !IsSpace(QUOTE) && QUOTE != CLOSE_BRACE
  {
  }

  lemma {:induction false} ArrayBack(s: Text, i: nat, values: seq<Value>)
    requires Proper(Arr(values)) && At(s, i, Write(Arr(values)))
    ensures Peek(s, i) == OPEN_BRACKET && ParseArray(s, i) == Ok(Canon(Arr(values)), i + |Write(Arr(values))|)
    decreases Arr(values), 0
  {
    hide *;
    var w := WriteValues(values) + [CLOSE_BRACKET];
    ArrayText(values);
    ProperArray(values);
    CloseNotSpace();
    AtSplit(s, i, [OPEN_BRACKET], w);
    PeekAt(s, i, [OPEN_BRACKET], 0);
    PeekAt(s, i + 1, w, 0);
    if values != [] { FirstUnit(values[0]); }
    NoSpace(s, i + 1);
    ParseArrayStep(s, i);
    if values != [] {
      ElementsBack(s, i + 1, values, []);
      assert [] + CanonValues(values) == CanonValues(values);
    } else {
      assert CanonValues(values) == [];
    }
  }

  lemma {:induction false} ElementsBack(s: Text, i: nat, values: seq<Value>, out: seq<Value>)
    requires values != [] && (forall k :: 0 <= k < |values| ==> Proper(values[k]))
    requires At(s, i, WriteValues(values) + [CLOSE_BRACKET])
    ensures ParseElements(s, i, out) == Ok(out + CanonValues(values), i + |WriteValues(values)| + 1)
    decreases values
  {
    hide *;
    var first := Write(values[0]);
    if |values| == 1 {
      OneValue(values);
      AtSplit(s, i, first, [CLOSE_BRACKET]);
      PeekAt(s, i + |first|, [CLOSE_BRACKET], 0);
      Delimiters(s, i + |first|);
      ValueBack(s, i, values[0]);
      ElementStep(s, i, out);
      assert CanonValues(values) == [Canon(values[0])];
    } else {
      MoreValues(values);
      var rest := WriteValues(values[1..]) + [CLOSE_BRACKET];
      assert WriteValues(values) + [CLOSE_BRACKET] == first + ([COMMA] + rest);
      AtSplit(s, i, first, [COMMA] + rest);
      AtSplit(s, i + |first|, [COMMA], rest);
      PeekAt(s, i + |first|, [COMMA], 0);
      Delimiters(s, i + |first|);
      ValueBack(s, i, values[0]);
      ElementStep(s, i, out);
      ElementsBack(s, i + |first| + 1, values[1..], out + [Canon(values[0])]);
      assert out + [Canon(values[0])] + CanonValues(values[1..]) == out + CanonValues(values);
      assert |WriteValues(values)| == |first| + 1 + |WriteValues(values[1..])|;
      CommaGoesOn();
    }
  }

  lemma CommaGoesOn()
    ensures COMMA != CLOSE_BRACKET && COMMA != CLOSE_BRACE
  {
  }

  lemma OneValue(values: seq<Value>)
    requires |values| == 1
    ensures WriteValues(values) == Write(values[0])
  {
    hide Write;
  }

  lemma MoreValues(values: seq<Value>)
    requires |values| > 1
    ensures WriteValues(values) == Write(values[0]) + [COMMA] + WriteValues(values[1..])
    ensures CanonValues(values) == [Canon(values[0])] + CanonValues(values[1..])
  {
    hide Write, Canon;
  }

  /** What stands between and after values is not white space and does not continue a number. */
  lemma Delimiters(s: Text, i: nat)
    requires Peek(s, i) == COMMA || Peek(s, i) == CLOSE_BRACKET || Peek(s, i) == CLOSE_BRACE
    ensures SkipSpace(s, i) == i && Ends(s, i)
  {
  }

  lemma ElementStep(s: Text, i: nat, out: seq<Value>)
    requires ParseValue(s, i).Ok?
    requires
      var n := ParseValue(s, i).next;
      SkipSpace(s, n) == n && (Peek(s, n) == CLOSE_BRACKET || Peek(s, n) == COMMA)
    ensures var v, n := ParseValue(s, i).value, ParseValue(s, i).next;
      ParseElements(s, i, out) ==
      if Peek(s, n) == CLOSE_BRACKET then Ok(out + [v], n + 1) else ParseElements(s, n + 1, out + [v])
  {
    hide ParseValue;
  }

  lemma ObjectText(members: seq<Member>)
    ensures Write(Obj(members)) == [OPEN_BRACE] + (WriteMembers(members) + [CLOSE_BRACE])
    ensures members == [] ==> WriteMembers(members) == []
  {
    hide WriteMember;
  }

  lemma ParseObjectStep(s: Text, i: nat)
    requires Peek(s, i) == OPEN_BRACE && SkipSpace(s, i + 1) == i + 1
    ensures ParseObject(s, i) ==
      if Peek(s, i + 1) == CLOSE_BRACE then Ok(Obj([]), i + 2)
      else match ParseMembers(s, i + 1, []) case Err => Err case Ok(members, next) => Ok(Obj(members), next)
  {
    hide ParseMembers;
  }

  lemma ProperObject(members: seq<Member>)
    requires Proper(Obj(members))
    ensures DistinctKeys(members) &&
        forall k :: 0 <= k < |members| ==> Proper(members[k].value) && !HasKey([], members[k].key)
    ensures Canon(Obj(members)) == Obj(CanonMembers(members))
  {
  }

  lemma {:induction false} ObjectBack(s: Text, i: nat, members: seq<Member>)
    requires Proper(Obj(members)) && At(s, i, Write(Obj(members)))
    ensures Peek(s, i) == OPEN_BRACE && ParseObject(s, i) == Ok(Canon(Obj(members)), i + |Write(Obj(members))|)
    decreases Obj(members), 0
  {
    hide *;
    var w := WriteMembers(members) + [CLOSE_BRACE];
    ObjectText(members);
    ProperObject(members);
    CloseNotSpace();
    AtSplit(s, i, [OPEN_BRACE], w);
    PeekAt(s, i, [OPEN_BRACE], 0);
    PeekAt(s, i + 1, w, 0);
    if members != [] { FirstMember(members); }
    NoSpace(s, i + 1);
    ParseObjectStep(s, i);
    if members != [] {
      MembersBack(s, i + 1, members, []);
      assert [] + CanonMembers(members) == CanonMembers(members);
    } else {
      assert CanonMembers(members) == [];
    }
  }

  /** Reading one member, up to what follows it. */
  lemma {:induction false} MemberBack(s: Text, i: nat, m: Member)
    requires Proper(m.value) && At(s, i, WriteMember(m)) && Ends(s, i + |WriteMember(m)|)
    ensures SkipSpace(s, i) == i
    ensures var j := i + |WriteString(m.key)|;
      && ParseString(s, i) == Ok(m.key, j) && SkipSpace(s, j) == j && Peek(s, j) == COLON
      && ParseValue(s, j + 1) == Ok(Canon(m.value), i + |WriteMember(m)|)
    decreases m.value, 2
  {
    hide *;
    var j := i + |WriteString(m.key)|;
    MemberText(m);
    PeekAt(s, i, WriteMember(m), 0);
    Marks(s, i);
    AtSplit(s, i, WriteString(m.key), [COLON] + Write(m.value));
    StringBack(s, i, m.key);
    AtSplit(s, j, [COLON], Write(m.value));
    PeekAt(s, j, [COLON], 0);
    Marks(s, j);
    ValueBack(s, j + 1, m.value);
  }

  lemma MemberText(m: Member)
    ensures WriteMember(m) == WriteString(m.key) + ([COLON] + Write(m.value)) && WriteMember(m)[0] == QUOTE
  {
    hide Write, Escaped;
  }

  lemma Marks(s: Text, i: nat)
    requires Peek(s, i) == QUOTE || Peek(s, i) == COLON
    ensures SkipSpace(s, i) == i
  {
  }

  lemma {:induction false} MembersBack(s: Text, i: nat, members: seq<Member>, out: seq<Member>)
    requires members != [] && DistinctKeys(members) && (forall k :: 0 <= k < |members| ==> Proper(members[k].value))
    requires forall k :: 0 <= k < |members| ==> !HasKey(out, members[k].key)
    requires At(s, i, WriteMembers(members) + [CLOSE_BRACE])
    ensures ParseMembers(s, i, out) == Ok(out + CanonMembers(members), i + |WriteMembers(members)| + 1)
    decreases members
  {
    hide *;
    var first, m := WriteMember(members[0]), Member(members[0].key, Canon(members[0].value));
    if |members| == 1 {
      OneMember(members);
      AtSplit(s, i, first, [CLOSE_BRACE]);
      PeekAt(s, i + |first|, [CLOSE_BRACE], 0);
      Delimiters(s, i + |first|);
      MemberBack(s, i, members[0]);
      MemberStep(s, i, out, members[0].key, i + |WriteString(members[0].key)|);
      assert CanonMembers(members) == [m];
    } else {
      MoreMembers(members);
      var rest := WriteMembers(members[1..]) + [CLOSE_BRACE];
      assert WriteMembers(members) + [CLOSE_BRACE] == first + ([COMMA] + rest);
      AtSplit(s, i, first, [COMMA] + rest);
      AtSplit(s, i + |first|, [COMMA], rest);
      PeekAt(s, i + |first|, [COMMA], 0);
      Delimiters(s, i + |first|);
      MemberBack(s, i, members[0]);
      MemberStep(s, i, out, members[0].key, i + |WriteString(members[0].key)|);
      NewKeys(members, out, m);
      MembersBack(s, i + |first| + 1, members[1..], out + [m]);
      assert out + [m] + CanonMembers(members[1..]) == out + CanonMembers(members);
      CommaGoesOn();
    }
  }

  lemma FirstMember(members: seq<Member>)
    requires members != []
    ensures WriteMembers(members) != [] && WriteMembers(members)[0] == QUOTE
  {
    MemberText(members[0]);
    if |members| > 1 { MoreMembers(members); } else { OneMember(members); }
  }

  lemma OneMember(members: seq<Member>)
    requires |members| == 1
    ensures WriteMembers(members) == WriteMember(members[0])
  {
    hide WriteMember;
  }

  lemma MoreMembers(members: seq<Member>)
    requires |members| > 1
    ensures WriteMembers(members) == WriteMember(members[0]) + [COMMA] + WriteMembers(members[1..])
    ensures CanonMembers(members) == [Member(members[0].key, Canon(members[0].value))] + CanonMembers(members[1..])
  {
    hide WriteMember, Canon;
  }

  lemma MemberStep(s: Text, i: nat, out: seq<Member>, key: Text, j: nat)
    requires SkipSpace(s, i) == i && ParseString(s, i) == Ok(key, j) && SkipSpace(s, j) == j && Peek(s, j) == COLON
    requires !HasKey(out, key) && ParseValue(s, j + 1).Ok?
    requires
      var n := ParseValue(s, j + 1).next;
      SkipSpace(s, n) == n && (Peek(s, n) == CLOSE_BRACE || Peek(s, n) == COMMA)
    ensures var m, n := Member(key, ParseValue(s, j + 1).value), ParseValue(s, j + 1).next;
      ParseMembers(s, i, out) ==
      if Peek(s, n) == CLOSE_BRACE then Ok(out + [m], n + 1) else ParseMembers(s, n + 1, out + [m])
  {
    hide ParseValue, ParseString, HasKey;
  }

  lemma NewKeys(members: seq<Member>, out: seq<Member>, m: Member)
    requires members != [] && DistinctKeys(members) && m.key == members[0].key
    requires forall k :: 0 <= k < |members| ==> !HasKey(out, members[k].key)
    ensures DistinctKeys(members[1..])
    ensures forall k :: 0 <= k < |members[1..]| ==> !HasKey(out + [m], members[1..][k].key)
  {
    forall k | 0 <= k < |members[1..]| ensures !HasKey(out + [m], members[1..][k].key) {
      assert !HasKey(out, members[k + 1].key);
      OtherKey(out, m, members[k + 1].key);
    }
  }

  lemma OtherKey(out: seq<Member>, m: Member, key: Text)
    requires !HasKey(out, key) && m.key != key
    ensures !HasKey(out + [m], key)
  {
    forall j | 0 <= j < |out + [m]| ensures (out + [m])[j].key != key {
      assert j < |out| ==> (out + [m])[j] == out[j];
    }
  }

  /** Parsing what was written gives back the value: same structure, same strings, same keys in the
      same order, and numbers equal by value. */
  lemma RoundTrip(v: Value)
    requires Proper(v)
    ensures Parse(Write(v)) == Ok(Canon(v), |Write(v)|) && Similar(v, Canon(v))
  {
    var s := Write(v);
    assert s[0..|s|] == s;
    ValueBack(s, 0, v);
    CanonSimilar(v);
  }
}
