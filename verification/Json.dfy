/** The verifier's JSON: values, the writer, and the parser as functions of the text (RFC 8259, sections 4 to 7). */
module Json {

  /** A UTF-16 code unit. */
  type Unit = x: int | 0 <= x < 0x10000
  type Text = seq<Unit>

  /** `BigDecimal`: the unscaled value times ten to the minus scale. */
  datatype Decimal = Decimal(unscaled: int, scale: int)

  datatype Value =
    | Obj(members: seq<Member>)
    | Arr(values: seq<Value>)
    | Str(text: Text)
    | Num(number: Decimal)
    | Bool(truth: bool)
    | Null

  datatype Member = Member(key: Text, value: Value)

  datatype Parsed<T> = Ok(value: T, next: nat) | Err

  const QUOTE: Unit := 0x22
  const BACKSLASH: Unit := 0x5C
  const SLASH: Unit := 0x2F
  const COMMA: Unit := 0x2C
  const COLON: Unit := 0x3A
  const OPEN_BRACE: Unit := 0x7B
  const CLOSE_BRACE: Unit := 0x7D
  const OPEN_BRACKET: Unit := 0x5B
  const CLOSE_BRACKET: Unit := 0x5D
  const MINUS: Unit := 0x2D
  const PLUS: Unit := 0x2B
  const DOT: Unit := 0x2E
  const ZERO: Unit := 0x30
  const LOWER_E: Unit := 0x65
  const UPPER_E: Unit := 0x45
  const LOWER_U: Unit := 0x75
  const MAX_SCALE := 0x7FFF_FFFF

  const TRUE_TEXT: Text := [0x74, 0x72, 0x75, 0x65]
  const FALSE_TEXT: Text := [0x66, 0x61, 0x6C, 0x73, 0x65]
  const NULL_TEXT: Text := [0x6E, 0x75, 0x6C, 0x6C]

  // Numbers

  function Pow10(n: nat): nat {
    if n == 0 then 1 else 10 * Pow10(n - 1)
  }

  function Digits(n: nat): (r: Text)
    ensures |r| >= 1
  {
    if n < 10 then [ZERO + n] else Digits(n / 10) + [ZERO + n % 10]
  }

  function Zeros(n: nat): (r: Text)
    ensures |r| == n && forall i :: 0 <= i < n ==> r[i] == ZERO
  {
    if n == 0 then [] else Zeros(n - 1) + [ZERO]
  }

  predicate IsDigit(c: int) {
    0x30 <= c <= 0x39
  }

  /** The number that a list of digits denotes. */
  function Number(ds: Text): int {
    if ds == [] then 0 else 10 * Number(ds[..|ds| - 1]) + (ds[|ds| - 1] as int - 0x30)
  }

  /** `stripTrailingZeros`. */
  function Strip(d: Decimal): Decimal
    decreases if d.unscaled < 0 then -d.unscaled else d.unscaled
  {
    if d.unscaled == 0 then Decimal(0, 0)
    else if d.unscaled % 10 == 0 then Strip(Decimal(d.unscaled / 10, d.scale - 1))
    else d
  }

  function Magnitude(n: int): nat {
    if n < 0 then -n else n
  }

  function Sign(n: int): Text {
    if n < 0 then [MINUS] else []
  }

  /** The digits with as many leading zeros as a fraction of `scale` digits needs. */
  function Padded(n: nat, scale: nat): (r: Text)
    ensures |r| > scale
  {
    var ds := Digits(n);
    if |ds| > scale then ds else Zeros(scale + 1 - |ds|) + ds
  }

  /** `toPlainString` of a number without trailing zeros. */
  function Plain(d: Decimal): Text {
    if d.scale <= 0 then Sign(d.unscaled) + Digits(Magnitude(d.unscaled))
        + Zeros(if d.unscaled == 0 then 0 else -d.scale)
    else
      var ds := Padded(Magnitude(d.unscaled), d.scale);
      Sign(d.unscaled) + ds[..|ds| - d.scale] + [DOT] + ds[|ds| - d.scale..]
  }

  // Writing

  function Hex(n: int): Unit
    requires 0 <= n < 16
  {
    if n < 10 then 0x30 + n else 0x61 + n - 10
  }

  function Escape(c: Unit): Text {
    if c == QUOTE then [BACKSLASH, QUOTE]
    else if c == BACKSLASH then [BACKSLASH, BACKSLASH]
    else if c == 0x08 then [BACKSLASH, 0x62]
    else if c == 0x0C then [BACKSLASH, 0x66]
    else if c == 0x0A then [BACKSLASH, 0x6E]
    else if c == 0x0D then [BACKSLASH, 0x72]
    else if c == 0x09 then [BACKSLASH, 0x74]
    else if c < 0x20 then [BACKSLASH, LOWER_U, Hex(c / 4096 % 16), Hex(c / 256 % 16), Hex(c / 16 % 16), Hex(c % 16)]
    else [c]
  }

  function Escaped(t: Text): Text {
    if t == [] then [] else Escape(t[0]) + Escaped(t[1..])
  }

  function WriteString(t: Text): Text {
    [QUOTE] + Escaped(t) + [QUOTE]
  }

  function Write(v: Value): Text
    decreases v
  {
    match v
    case Obj(members) => [OPEN_BRACE] + WriteMembers(members) + [CLOSE_BRACE]
    case Arr(values) => [OPEN_BRACKET] + WriteValues(values) + [CLOSE_BRACKET]
    case Str(text) => WriteString(text)
    case Num(number) => Plain(Strip(number))
    case Bool(truth) => if truth then TRUE_TEXT else FALSE_TEXT
    case Null => NULL_TEXT
  }

  function WriteValues(values: seq<Value>): Text
    decreases values
  {
    if values == [] then []
    else if |values| == 1 then Write(values[0])
    else Write(values[0]) + [COMMA] + WriteValues(values[1..])
  }

  function WriteMember(m: Member): Text
    decreases m
  {
    WriteString(m.key) + [COLON] + Write(m.value)
  }

  function WriteMembers(members: seq<Member>): Text
    decreases members
  {
    if members == [] then []
    else if |members| == 1 then WriteMember(members[0])
    else WriteMember(members[0]) + [COMMA] + WriteMembers(members[1..])
  }

  // Parsing

  function Peek(s: Text, i: nat): int {
    if i < |s| then s[i] else -1
  }

  predicate IsSpace(c: int) {
    c == 0x20 || c == 0x09 || c == 0x0D || c == 0x0A
  }

  function SkipSpace(s: Text, i: nat): (j: nat)
    ensures i <= j && (i <= |s| ==> j <= |s|)
    decreases |s| - i
  {
    if i < |s| && IsSpace(s[i]) then SkipSpace(s, i + 1) else i
  }

  function SkipDigits(s: Text, i: nat): (j: nat)
    ensures i <= j && (i <= |s| ==> j <= |s|)
    decreases |s| - i
  {
    if i < |s| && IsDigit(s[i]) then SkipDigits(s, i + 1) else i
  }

  /** The exponent, if there is one. */
  function ParseExponent(s: Text, i: nat): (r: Parsed<int>)
    requires i <= |s|
    ensures r.Ok? ==> i <= r.next <= |s|
  {
    if Peek(s, i) != LOWER_E && Peek(s, i) != UPPER_E then Ok(0, i)
    else
      var j := if Peek(s, i + 1) == PLUS || Peek(s, i + 1) == MINUS then i + 2 else i + 1;
      if !IsDigit(Peek(s, j)) then Err
      else
        var k := SkipDigits(s, j);
        Ok(if Peek(s, i + 1) == MINUS then -Number(s[j..k]) else Number(s[j..k]), k)
  }

  /** The fraction digits, if there are any. */
  function ParseFraction(s: Text, i: nat): (r: Parsed<Text>)
    requires i <= |s|
    ensures r.Ok? ==> i <= r.next <= |s|
  {
    if Peek(s, i) != DOT then Ok([], i)
    else if !IsDigit(Peek(s, i + 1)) then Err
    else Ok(s[i + 1..SkipDigits(s, i + 1)], SkipDigits(s, i + 1))
  }

  /** The integer digits: a zero stands alone. */
  function ParseInteger(s: Text, i: nat): (r: Parsed<Text>)
    requires i <= |s|
    ensures r.Ok? ==> i < r.next <= |s|
  {
    if !IsDigit(Peek(s, i)) then Err
    else if s[i] == ZERO then (if IsDigit(Peek(s, i + 1)) then Err else Ok([ZERO], i + 1))
    else
      assert SkipDigits(s, i) == SkipDigits(s, i + 1);
      Ok(s[i..SkipDigits(s, i)], SkipDigits(s, i))
  }

  /** `new BigDecimal(text)`, which refuses a scale beyond 32 bits. */
  function MakeDecimal(negative: bool, digits: Text, fraction: nat, exponent: int, next: nat): Parsed<Decimal> {
    var scale := fraction - exponent;
    if -MAX_SCALE - 1 <= scale <= MAX_SCALE then Ok(Decimal(if negative then -Number(digits)
        else Number(digits), scale), next)
    else Err
  }

  function ParseNumber(s: Text, i: nat): (r: Parsed<Decimal>)
    requires i < |s|
    ensures r.Ok? ==> i < r.next <= |s|
  {
    var start := if s[i] == MINUS then i + 1 else i;
    match ParseInteger(s, start)
    case Err => Err
    case Ok(digits, j) =>
      match ParseFraction(s, j)
      case Err => Err
      case Ok(fraction, k) =>
        match ParseExponent(s, k)
        case Err => Err
        case Ok(exponent, next) => MakeDecimal(s[i] == MINUS, digits + fraction, |fraction|, exponent, next)
  }

  function HexDigit(c: int): int {
    if 0x30 <= c <= 0x39 then c - 0x30
    else if 0x61 <= c <= 0x66 then c - 0x61 + 10
    else if 0x41 <= c <= 0x46 then c - 0x41 + 10
    else -1
  }

  function ParseHex4(s: Text, i: nat): (r: Parsed<Unit>)
    ensures r.Ok? ==> r.next == i + 4 <= |s|
  {
    if i + 4 > |s| then Err
    else
      var a, b, c, d := HexDigit(s[i]), HexDigit(s[i + 1]), HexDigit(s[i + 2]), HexDigit(s[i + 3]);
      if a < 0 || b < 0 || c < 0 || d < 0 then Err else Ok(((a * 16 + b) * 16 + c) * 16 + d, i + 4)
  }

  predicate HighSurrogate(c: int) { 0xD800 <= c <= 0xDBFF }
  predicate LowSurrogate(c: int) { 0xDC00 <= c <= 0xDFFF }

  /** After `\u`: one unit, or a surrogate pair written as two escapes. */
  function ParseUnicode(s: Text, i: nat): (r: Parsed<Text>)
    ensures r.Ok? ==> i < r.next <= |s|
  {
    match ParseHex4(s, i)
    case Err => Err
    case Ok(first, j) =>
      if HighSurrogate(first) then
        if Peek(s, j) != BACKSLASH || Peek(s, j + 1) != LOWER_U then Err
        else
          match ParseHex4(s, j + 2)
          case Err => Err
          case Ok(second, k) => if LowSurrogate(second) then Ok([first, second], k) else Err
      else if LowSurrogate(first) then Err
      else Ok([first], j)
  }

  /** After a backslash. */
  function ParseEscape(s: Text, i: nat): (r: Parsed<Text>)
    ensures r.Ok? ==> i < r.next <= |s|
  {
    var c := Peek(s, i);
    if c == QUOTE || c == BACKSLASH || c == SLASH then Ok([c], i + 1)
    else if c == 0x62 then Ok([0x08], i + 1)
    else if c == 0x66 then Ok([0x0C], i + 1)
    else if c == 0x6E then Ok([0x0A], i + 1)
    else if c == 0x72 then Ok([0x0D], i + 1)
    else if c == 0x74 then Ok([0x09], i + 1)
    else if c == LOWER_U then ParseUnicode(s, i + 1)
    else Err
  }

  /** The inside of a string, up to and including the closing quote; `out` has been read already. */
  function ParseChars(s: Text, i: nat, out: Text): (r: Parsed<Text>)
    ensures r.Ok? ==> i < r.next <= |s|
    decreases |s| - i
  {
    if i >= |s| then Err
    else if s[i] == QUOTE then Ok(out, i + 1)
    else if s[i] == BACKSLASH then
      match ParseEscape(s, i + 1)
      case Err => Err
      case Ok(units, j) => ParseChars(s, j, out + units)
    else if s[i] < 0x20 then Err
    else ParseChars(s, i + 1, out + [s[i]])
  }

  function ParseString(s: Text, i: nat): (r: Parsed<Text>)
    ensures r.Ok? ==> i < r.next <= |s|
  {
    if Peek(s, i) != QUOTE then Err else ParseChars(s, i + 1, [])
  }

  function ParseKeyword(s: Text, i: nat, keyword: Text, v: Value): (r: Parsed<Value>)
    requires keyword != []
    ensures r.Ok? ==> i < r.next <= |s|
  {
    if i + |keyword| <= |s| && s[i..i + |keyword|] == keyword then Ok(v, i + |keyword|) else Err
  }

  predicate HasKey(members: seq<Member>, key: Text) {
    exists k :: 0 <= k < |members| && members[k].key == key
  }

  function ParseValue(s: Text, i: nat): (r: Parsed<Value>)
    ensures r.Ok? ==> i < r.next <= |s|
    decreases |s| - i, 2
  {
    var j := SkipSpace(s, i);
    var c := Peek(s, j);
    if c == OPEN_BRACE then ParseObject(s, j)
    else if c == OPEN_BRACKET then ParseArray(s, j)
    else if c == QUOTE then (match ParseString(s, j) case Err => Err case Ok(text, next) => Ok(Str(text), next))
    else if c == TRUE_TEXT[0] then ParseKeyword(s, j, TRUE_TEXT, Bool(true))
    else if c == FALSE_TEXT[0] then ParseKeyword(s, j, FALSE_TEXT, Bool(false))
    else if c == NULL_TEXT[0] then ParseKeyword(s, j, NULL_TEXT, Null)
    else if c == MINUS || IsDigit(c) then (match ParseNumber(s, j) case Err => Err case Ok(number, next) =>
        Ok(Num(number), next))
    else Err
  }

  function ParseObject(s: Text, i: nat): (r: Parsed<Value>)
    requires Peek(s, i) == OPEN_BRACE
    ensures r.Ok? ==> i < r.next <= |s|
    decreases |s| - i, 1
  {
    var j := SkipSpace(s, i + 1);
    if Peek(s, j) == CLOSE_BRACE then Ok(Obj([]), j + 1)
    else match ParseMembers(s, j, []) case Err => Err case Ok(members, next) => Ok(Obj(members), next)
  }

  /** A key that is not among `members`, a colon and a value. */
  function ParseMember(s: Text, i: nat, members: seq<Member>): (r: Parsed<Member>)
    ensures r.Ok? ==> i < r.next <= |s|
    decreases |s| - i, 0
  {
    match ParseString(s, SkipSpace(s, i))
    case Err => Err
    case Ok(key, j) =>
      if HasKey(members, key) || Peek(s, SkipSpace(s, j)) != COLON then Err
      else
        match ParseValue(s, SkipSpace(s, j) + 1)
        case Err => Err
        case Ok(v, next) => Ok(Member(key, v), next)
  }

  /** The members from here to the closing brace; `members` have been read already. */
  function ParseMembers(s: Text, i: nat, members: seq<Member>): (r: Parsed<seq<Member>>)
    ensures r.Ok? ==> i < r.next <= |s|
    decreases |s| - i, 1
  {
    match ParseMember(s, i, members)
    case Err => Err
    case Ok(m, n) =>
      var next := SkipSpace(s, n);
      if Peek(s, next) == CLOSE_BRACE then Ok(members + [m], next + 1)
      else if Peek(s, next) == COMMA then ParseMembers(s, next + 1, members + [m])
      else Err
  }

  function ParseArray(s: Text, i: nat): (r: Parsed<Value>)
    requires Peek(s, i) == OPEN_BRACKET
    ensures r.Ok? ==> i < r.next <= |s|
    decreases |s| - i, 1
  {
    var j := SkipSpace(s, i + 1);
    if Peek(s, j) == CLOSE_BRACKET then Ok(Arr([]), j + 1)
    else match ParseElements(s, j, []) case Err => Err case Ok(values, next) => Ok(Arr(values), next)
  }

  function ParseElements(s: Text, i: nat, values: seq<Value>): (r: Parsed<seq<Value>>)
    ensures r.Ok? ==> i < r.next <= |s|
    decreases |s| - i, 3
  {
    match ParseValue(s, i)
    case Err => Err
    case Ok(v, n) =>
      var next := SkipSpace(s, n);
      if Peek(s, next) == CLOSE_BRACKET then Ok(values + [v], next + 1)
      else if Peek(s, next) == COMMA then ParseElements(s, next + 1, values + [v])
      else Err
  }

  /** `parse`: one value and nothing but white space after it. */
  function Parse(s: Text): Parsed<Value> {
    match ParseValue(s, 0)
    case Err => Err
    case Ok(v, next) => if SkipSpace(s, next) == |s| then Ok(v, |s|) else Err
  }
}
