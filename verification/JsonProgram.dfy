/** The program text of `Json`: the parser with its one-character lookahead, and the appending writer. */
module JsonProgram {
  import opened Json

  const UNSET := -2
  const END := -1

  /** The result of a method that throws `JsonException`. */
  datatype Outcome<+T> = Value(value: T) | Failure

  function HexValue(s: Text, i: nat, k: nat): int
    requires i + k <= |s|
  {
    if k == 0 then 0 else HexValue(s, i, k - 1) * 16 + HexDigit(s[i + k - 1])
  }

  ghost predicate HexRun(s: Text, i: nat, k: nat)
    requires i + k <= |s|
  {
    forall j :: i <= j < i + k ==> HexDigit(s[j]) >= 0
  }

  lemma BadHex(s: Text, i: nat, k: nat)
    requires k < 4 && (i + k < |s| ==> HexDigit(s[i + k]) < 0)
    ensures ParseHex4(s, i).Err?
  {
  }

  lemma GoodHex(s: Text, i: nat)
    requires i + 4 <= |s| && HexRun(s, i, 4)
    ensures ParseHex4(s, i) == Ok(HexValue(s, i, 4), i + 4)
  {
    assert HexValue(s, i, 0) == 0 && HexValue(s, i, 1) == HexDigit(s[i]);
    assert HexValue(s, i, 2) == HexDigit(s[i]) * 16 + HexDigit(s[i + 1]);
    assert HexValue(s, i, 4) == (HexValue(s, i, 2) * 16 + HexDigit(s[i + 2])) * 16 + HexDigit(s[i + 3]);
  }

  class Parser {
    const input: Text
    /** Units taken from the reader. */
    var taken: nat
    var lookahead: int

    constructor (input: Text)
      ensures Valid() && this.input == input && Position() == 0
    {
      this.input, taken, lookahead := input, 0, UNSET;
    }

    ghost predicate Valid()
      reads this
    {
      && taken <= |input|
      && (lookahead == UNSET || (lookahead == END && taken == |input|) || (taken > 0 && lookahead == input[taken - 1]))
    }

    /** The units consumed so far. */
    ghost function Position(): nat
      reads this
      requires Valid()
    {
      if lookahead >= 0 then taken - 1 else taken
    }

    /** The result of a parsing function: it fails, or yields the value and stops at `next`. */
    ghost predicate Yields<T(!new)>(r: Outcome<T>, p: Parsed<T>)
      reads this
    {
      && Valid()
      && (p.Err? ==> r == Failure)
      && (p.Ok? ==> r == Value(p.value) && Position() == p.next)
    }

    method PeekUnit() returns (c: int)
      requires Valid()
      modifies this
      ensures Valid() && Position() == old(Position()) && c == Peek(input, Position())
    {
      if lookahead == UNSET {
        if taken < |input| {
          lookahead := input[taken];
          taken := taken + 1;
        } else {
          lookahead := END;
        }
      }
      c := lookahead;
    }

    method Read() returns (c: int)
      requires Valid()
      modifies this
      ensures Valid() && c == Peek(input, old(Position()))
      ensures Position() == if old(Position()) < |input| then old(Position()) + 1 else old(Position())
    {
      if lookahead != UNSET {
        c := lookahead;
        lookahead := UNSET;
      } else if taken < |input| {
        c := input[taken];
        taken := taken + 1;
      } else {
        c := END;
      }
    }

    method ConsumeIf(expected: Unit) returns (consumed: bool)
      requires Valid()
      modifies this
      ensures Valid() && (consumed <==> Peek(input, old(Position())) == expected)
      ensures Position() == if consumed then old(Position()) + 1 else old(Position())
    {
      var c := PeekUnit();
      if c != expected { return false; }
      c := Read();
      return true;
    }

    method SkipWhitespace()
      requires Valid()
      modifies this
      ensures Valid() && Position() == SkipSpace(input, old(Position()))
    {
      while true
        invariant Valid() && SkipSpace(input, Position()) == SkipSpace(input, old(Position()))
        decreases |input| - Position()
      {
        var c := PeekUnit();
        if !IsSpace(c) { return; }
        c := Read();
      }
    }

    method Keyword(keyword: Text, v: Json.Value) returns (r: Outcome<Json.Value>)
      requires Valid() && keyword != []
      modifies this
      ensures Yields(r, ParseKeyword(input, old(Position()), keyword, v))
    {
      ghost var start := Position();
      for k := 0 to |keyword|
        invariant Valid() && Position() == start + k && start + k <= |input|
        invariant input[start..start + k] == keyword[..k]
      {
        var c := Read();
        if c != keyword[k] {
          if start + |keyword| <= |input| { assert input[start..start + |keyword|][k] == input[start + k]; }
          return Failure;
        }
        assert input[start..start + k + 1] == input[start..start + k] + [keyword[k]];
        assert keyword[..k + 1] == keyword[..k] + [keyword[k]];
      }
      assert keyword[..|keyword|] == keyword;
      return Value(v);
    }

    method Hex4() returns (r: Outcome<Unit>)
      requires Valid()
      modifies this
      ensures Yields(r, ParseHex4(input, old(Position())))
    {
      ghost var start := Position();
      var value := 0;
      for k := 0 to 4
        invariant Valid() && Position() == start + k && start + k <= |input|
        invariant HexRun(input, start, k) && value == HexValue(input, start, k)
      {
        var c := Read();
        var digit := HexDigit(c);
        if digit < 0 {
          BadHex(input, start, k);
          return Failure;
        }
        value := value * 16 + digit;
      }
      GoodHex(input, start);
      return Value(value);
    }

    method Unicode() returns (r: Outcome<Text>)
      requires Valid()
      modifies this
      ensures Yields(r, ParseUnicode(input, old(Position())))
    {
      hide ParseHex4;
      var first := Hex4();
      if first.Failure? { return Failure; }
      if HighSurrogate(first.value) {
        var c := Read();
        if c != BACKSLASH { return Failure; }
        c := Read();
        if c != LOWER_U { return Failure; }
        var second := Hex4();
        if second.Failure? || !LowSurrogate(second.value) { return Failure; }
        return Value([first.value, second.value]);
      }
      if LowSurrogate(first.value) { return Failure; }
      return Value([first.value]);
    }

    method EscapeSequence() returns (r: Outcome<Text>)
      requires Valid()
      modifies this
      ensures Yields(r, ParseEscape(input, old(Position())))
    {
      hide ParseUnicode;
      var c := Read();
      if c == QUOTE || c == BACKSLASH || c == SLASH { return Value([c]); }
      if c == 0x62 { return Value([0x08]); }
      if c == 0x66 { return Value([0x0C]); }
      if c == 0x6E { return Value([0x0A]); }
      if c == 0x72 { return Value([0x0D]); }
      if c == 0x74 { return Value([0x09]); }
      if c != LOWER_U { return Failure; }
      r := Unicode();
    }

    method String() returns (r: Outcome<Text>)
      requires Valid()
      modifies this
      ensures Yields(r, ParseString(input, old(Position())))
    {
      hide ParseEscape;
      var c := Read();
      if c != QUOTE { return Failure; }
      var out: Text := [];
      while true
        invariant Valid() && Peek(input, old(Position())) == QUOTE
        invariant ParseChars(input, Position(), out) == ParseString(input, old(Position()))
        decreases |input| - Position()
      {
        c := Read();
        if c == END { return Failure; }
        if c == QUOTE { return Value(out); }
        if c == BACKSLASH {
          var units := EscapeSequence();
          if units.Failure? { return Failure; }
          out := out + units.value;
        } else {
          if c < 0x20 { return Failure; }
          out := out + [c];
        }
      }
    }

    /** Appends the digits that come next. */
    method DigitRun() returns (digits: Text)
      requires Valid()
      modifies this
      ensures Valid() && Position() == SkipDigits(input, old(Position()))
      ensures old(Position()) <= Position() <= |input| && digits == input[old(Position())..Position()]
    {
      ghost var start := Position();
      digits := [];
      while true
        invariant Valid() && start <= Position() <= |input| && digits == input[start..Position()]
        invariant SkipDigits(input, Position()) == SkipDigits(input, start)
        decreases |input| - Position()
      {
        var c := PeekUnit();
        if !IsDigit(c) { return; }
        assert input[start..Position() + 1] == input[start..Position()] + [c];
        c := Read();
        digits := digits + [c];
      }
    }

    method IntegerDigits() returns (r: Outcome<Text>)
      requires Valid()
      modifies this
      ensures Yields(r, ParseInteger(input, old(Position())))
    {
      var c := PeekUnit();
      if c == ZERO {
        c := Read();
        c := PeekUnit();
        if IsDigit(c) { return Failure; }
        return Value([ZERO]);
      }
      if !IsDigit(c) { return Failure; }
      var digits := DigitRun();
      return Value(digits);
    }

    method FractionDigits() returns (r: Outcome<Text>)
      requires Valid()
      modifies this
      ensures Yields(r, ParseFraction(input, old(Position())))
    {
      var dot := ConsumeIf(DOT);
      if !dot { return Value([]); }
      var c := PeekUnit();
      if !IsDigit(c) { return Failure; }
      var digits := DigitRun();
      return Value(digits);
    }

    method ExponentValue() returns (r: Outcome<int>)
      requires Valid()
      modifies this
      ensures Yields(r, ParseExponent(input, old(Position())))
    {
      var c := PeekUnit();
      if c != LOWER_E && c != UPPER_E { return Value(0); }
      c := Read();
      var sign := PeekUnit();
      if sign == PLUS || sign == MINUS { c := Read(); }
      c := PeekUnit();
      if !IsDigit(c) { return Failure; }
      var digits := DigitRun();
      return Value(if sign == MINUS then -Number(digits) else Number(digits));
    }

    method ParseNum() returns (r: Outcome<Decimal>)
      requires Valid() && Position() < |input|
      modifies this
      ensures Yields(r, ParseNumber(input, old(Position())))
    {
      hide ParseInteger, ParseFraction, ParseExponent;
      var negative := ConsumeIf(MINUS);
      var digits := IntegerDigits();
      if digits.Failure? { return Failure; }
      var fraction := FractionDigits();
      if fraction.Failure? { return Failure; }
      var exponent := ExponentValue();
      if exponent.Failure? { return Failure; }
      var made := MakeDecimal(negative, digits.value + fraction.value, |fraction.value|, exponent.value, 0);
      return if made.Ok? then Value(made.value) else Failure;
    }

    method ParseAny() returns (r: Outcome<Json.Value>)
      requires Valid()
      modifies this
      ensures Yields(r, ParseValue(input, old(Position())))
      decreases |input| - Position(), 2
    {
      hide ParseObject, ParseArray, ParseString, ParseNumber, ParseKeyword;
      SkipWhitespace();
      var c := PeekUnit();
      if c == OPEN_BRACE {
        r := ParseObj();
      } else if c == OPEN_BRACKET {
        r := ParseArr();
      } else if c == QUOTE {
        var text := String();
        r := if text.Value? then Value(Str(text.value)) else Failure;
      } else if c == TRUE_TEXT[0] {
        r := Keyword(TRUE_TEXT, Bool(true));
      } else if c == FALSE_TEXT[0] {
        r := Keyword(FALSE_TEXT, Bool(false));
      } else if c == NULL_TEXT[0] {
        r := Keyword(NULL_TEXT, Null);
      } else if c == MINUS || IsDigit(c) {
        var number := ParseNum();
        r := if number.Value? then Value(Num(number.value)) else Failure;
      } else {
        r := Failure;
      }
    }

    method ParseObj() returns (r: Outcome<Json.Value>)
      requires Valid() && Peek(input, Position()) == OPEN_BRACE
      modifies this
      ensures Yields(r, ParseObject(input, old(Position())))
      decreases |input| - Position(), 1
    {
      hide ParseMember;
      var c := Read();
      SkipWhitespace();
      var members: seq<Member> := [];
      var done := ConsumeIf(CLOSE_BRACE);
      if done { return Value(Obj([])); }
      ghost var start := Position();
      while true
        invariant Valid() && old(Position()) < Position()
        invariant ParseMembers(input, Position(), members) == ParseMembers(input, start, [])
        decreases |input| - Position()
      {
        var m := NextMember(members);
        if m.Failure? { return Failure; }
        members := members + [m.value];
        SkipWhitespace();
        done := ConsumeIf(CLOSE_BRACE);
        if done { return Value(Obj(members)); }
        c := Read();
        if c != COMMA { return Failure; }
      }
    }

    method NextMember(members: seq<Member>) returns (r: Outcome<Member>)
      requires Valid()
      modifies this
      ensures Yields(r, ParseMember(input, old(Position()), members))
      decreases |input| - Position(), 0
    {
      hide ParseValue, ParseString, HasKey;
      SkipWhitespace();
      var key := String();
      if key.Failure? || HasKey(members, key.value) { return Failure; }
      SkipWhitespace();
      var c := Read();
      if c != COLON { return Failure; }
      var v := ParseAny();
      if v.Failure? { return Failure; }
      return Value(Member(key.value, v.value));
    }

    method ParseArr() returns (r: Outcome<Json.Value>)
      requires Valid() && Peek(input, Position()) == OPEN_BRACKET
      modifies this
      ensures Yields(r, ParseArray(input, old(Position())))
      decreases |input| - Position(), 1
    {
      hide ParseValue;
      var c := Read();
      SkipWhitespace();
      var values: seq<Json.Value> := [];
      var done := ConsumeIf(CLOSE_BRACKET);
      if done { return Value(Arr([])); }
      ghost var start := Position();
      while true
        invariant Valid() && old(Position()) < Position()
        invariant ParseElements(input, Position(), values) == ParseElements(input, start, [])
        decreases |input| - Position()
      {
        var v := ParseAny();
        if v.Failure? { return Failure; }
        values := values + [v.value];
        SkipWhitespace();
        done := ConsumeIf(CLOSE_BRACKET);
        if done { return Value(Arr(values)); }
        c := Read();
        if c != COMMA { return Failure; }
      }
    }
  }

  /** `Json.parse`. */
  method ParseText(source: Text) returns (r: Outcome<Json.Value>)
    ensures Parse(source).Ok? ==> r == Value(Parse(source).value)
    ensures Parse(source).Err? ==> r == Failure
  {
    hide ParseValue;
    var parser := new Parser(source);
    r := parser.ParseAny();
    if r.Failure? { return; }
    parser.SkipWhitespace();
    var c := parser.PeekUnit();
    if c != END { return Failure; }
  }

  // The writer

  method AppendString(out0: Text, t: Text) returns (out: Text)
    ensures out == out0 + WriteString(t)
  {
    hide Escape;
    out := out0 + [QUOTE];
    assert t[0..] == t;
    for i := 0 to |t|
      invariant out + Escaped(t[i..]) == out0 + [QUOTE] + Escaped(t)
    {
      assert t[i..][1..] == t[i + 1..];
      assert out + Escaped(t[i..]) == (out + Escape(t[i])) + Escaped(t[i + 1..]);
      out := out + Escape(t[i]);
    }
    assert out + Escaped([]) == out;
    out := out + [QUOTE];
    assert out == out0 + WriteString(t);
  }

  /** What is still to be written before element `i`. */
  function ValuesFrom(values: seq<Json.Value>, i: nat): Text
    requires i <= |values|
  {
    (if i == |values| then [] else if i == 0 then WriteValues(values) else [COMMA] + WriteValues(values[i..]))
        + [CLOSE_BRACKET]
  }

  function MembersFrom(members: seq<Member>, i: nat): Text
    requires i <= |members|
  {
    (if i == |members| then [] else if i == 0 then WriteMembers(members) else [COMMA] + WriteMembers(members[i..]))
        + [CLOSE_BRACE]
  }

  lemma ValuesStep(values: seq<Json.Value>, i: nat)
    requires i < |values|
    ensures ValuesFrom(values, i) == (if i > 0 then [COMMA] else []) + Write(values[i]) + ValuesFrom(values, i + 1)
  {
    hide Write;
    assert values[0..] == values && values[i..][1..] == values[i + 1..];
  }

  lemma MembersStep(members: seq<Member>, i: nat)
    requires i < |members|
    ensures MembersFrom(members, i) == (if i > 0 then [COMMA] else []) + WriteMember(members[i])
        + MembersFrom(members, i + 1)
  {
    hide WriteMember;
    assert members[0..] == members && members[i..][1..] == members[i + 1..];
  }

  method AppendValue(out0: Text, v: Json.Value) returns (out: Text)
    ensures out == out0 + Write(v)
    decreases v
  {
    match v
    case Obj(members) => out := AppendObject(out0, members);
    case Arr(values) => out := AppendArray(out0, values);
    case Str(text) => out := AppendString(out0, text);
    case Num(number) => out := out0 + Plain(Strip(number));
    case Bool(truth) => out := out0 + if truth then TRUE_TEXT else FALSE_TEXT;
    case Null => out := out0 + NULL_TEXT;
  }

  method AppendArray(out0: Text, values: seq<Json.Value>) returns (out: Text)
    ensures out == out0 + Write(Arr(values))
    decreases values
  {
    hide ValuesFrom;
    WriteArr(values);
    out := out0 + [OPEN_BRACKET];
    assert out + ValuesFrom(values, 0) == out0 + Write(Arr(values));
    for i := 0 to |values|
      invariant out + ValuesFrom(values, i) == out0 + Write(Arr(values))
    {
      ValuesStep(values, i);
      if i > 0 { out := out + [COMMA]; }
      out := AppendValue(out, values[i]);
    }
    ValuesEnd(values);
    out := out + [CLOSE_BRACKET];
  }

  lemma WriteArr(values: seq<Json.Value>)
    ensures Write(Arr(values)) == [OPEN_BRACKET] + ValuesFrom(values, 0)
  {
  }

  lemma ValuesEnd(values: seq<Json.Value>)
    ensures ValuesFrom(values, |values|) == [CLOSE_BRACKET]
  {
  }

  method AppendObject(out0: Text, members: seq<Member>) returns (out: Text)
    ensures out == out0 + Write(Obj(members))
    decreases members
  {
    hide MembersFrom;
    WriteObj(members);
    out := out0 + [OPEN_BRACE];
    assert out + MembersFrom(members, 0) == out0 + Write(Obj(members));
    var first := true;
    for i := 0 to |members|
      invariant first <==> i == 0
      invariant out + MembersFrom(members, i) == out0 + Write(Obj(members))
    {
      MembersStep(members, i);
      if !first { out := out + [COMMA]; }
      first := false;
      out := AppendMember(out, members[i]);
    }
    MembersEnd(members);
    out := out + [CLOSE_BRACE];
  }

  /** A member of an object: the key, a colon and the value. */
  method AppendMember(out0: Text, m: Member) returns (out: Text)
    ensures out == out0 + WriteMember(m)
    decreases m, 0
  {
    hide Write, WriteString;
    out := AppendString(out0, m.key);
    out := out + [COLON];
    out := AppendValue(out, m.value);
  }

  lemma WriteObj(members: seq<Member>)
    ensures Write(Obj(members)) == [OPEN_BRACE] + MembersFrom(members, 0)
  {
  }

  lemma MembersEnd(members: seq<Member>)
    ensures MembersFrom(members, |members|) == [CLOSE_BRACE]
  {
  }
}
