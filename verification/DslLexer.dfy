/** The tokens of the workflow DSL: the lexer as a function of the source text, and the pieces of text that
    the formatter writes. */
module DslLexer {

  datatype Kind = NEWLINE | SYMBOL(c: char) | STRING | DURATION | INTEGER | IDENT | KEYWORD(word: string) | EOF

  datatype Token = Token(kind: Kind, value: string)

  datatype Lexed = Tokens(tokens: seq<Token>) | Unreadable

  const KEYWORDS: set<string> :=
    {"workflow", "meta", "task", "run", "needs", "env", "labels", "timeout", "retry", "attempts", "base", "max"}

  // Character classes

  predicate IsDigit(c: char) { '0' <= c <= '9' }

  predicate IsLetter(c: char) { 'a' <= c <= 'z' || 'A' <= c <= 'Z' }

  predicate IdentFirst(c: char) { IsLetter(c) || c == '_' }

  predicate IdentRest(c: char) { IdentFirst(c) || IsDigit(c) || c == '.' || c == ':' || c == '-' }

  predicate IsBlank(c: char) { c == ' ' || c == '\t' || c == '\r' }

  predicate IsSymbol(c: char) { c == '{' || c == '}' || c == '[' || c == ']' || c == '=' || c == ',' }

  predicate IsQuote(c: char) { c == '"' || c == '\'' }

  /** The end of the longest run of digits. */
  function DigitsEnd(s: string, i: nat): (j: nat)
    ensures i <= j && (i <= |s| ==> j <= |s|)
    decreases |s| - i
  {
    if i < |s| && IsDigit(s[i]) then DigitsEnd(s, i + 1) else i
  }

  function IdentEnd(s: string, i: nat): (j: nat)
    ensures i <= j && (i <= |s| ==> j <= |s|)
    decreases |s| - i
  {
    if i < |s| && IdentRest(s[i]) then IdentEnd(s, i + 1) else i
  }

  function CommentEnd(s: string, i: nat): (j: nat)
    ensures i <= j && (i <= |s| ==> j <= |s|)
    decreases |s| - i
  {
    if i < |s| && s[i] != '\n' then CommentEnd(s, i + 1) else i
  }

  /** The length of the time unit at `i`: `ms`, `s`, `m` or `h`. */
  function UnitLength(s: string, i: nat): nat {
    if i + 1 < |s| && s[i] == 'm' && s[i + 1] == 's' then 2
    else if i < |s| && (s[i] == 's' || s[i] == 'm' || s[i] == 'h') then 1
    else 0
  }

  // Strings

  datatype Scanned = Scanned(value: string, next: nat) | Unterminated

  function HexValue(c: char): int {
    if '0' <= c <= '9' then c as int - '0' as int
    else if 'a' <= c <= 'f' then c as int - 'a' as int + 10
    else if 'A' <= c <= 'F' then c as int - 'A' as int + 10
    else -1
  }

  /** After `\u`: four hexadecimal digits. */
  function ScanUnicode(s: string, i: nat): (r: Scanned)
    ensures r.Scanned? ==> i < r.next <= |s|
  {
    if i + 4 > |s| then Unterminated
    else
      var a, b, c, d := HexValue(s[i]), HexValue(s[i + 1]), HexValue(s[i + 2]), HexValue(s[i + 3]);
      if a < 0 || b < 0 || c < 0 || d < 0 then Unterminated
      else
        var code := ((a * 16 + b) * 16 + c) * 16 + d;
        if 0xD800 <= code < 0xE000 then Unterminated else Scanned([code as char], i + 4)
  }

  /** After a backslash. */
  function ScanEscape(s: string, i: nat): (r: Scanned)
    ensures r.Scanned? ==> i < r.next <= |s|
  {
    if i >= |s| then Unterminated
    else if s[i] == 'u' then ScanUnicode(s, i + 1)
    else if s[i] == 'n' then Scanned("\n", i + 1)
    else if s[i] == 'r' then Scanned("\r", i + 1)
    else if s[i] == 't' then Scanned("\t", i + 1)
    else if s[i] == '\\' || s[i] == '"' || s[i] == '\'' then Scanned([s[i]], i + 1)
    else Unterminated
  }

  /** The inside of a string up to and including the closing quote; `out` has been read already. */
  function ScanString(s: string, i: nat, quote: char, out: string): (r: Scanned)
    ensures r.Scanned? ==> i < r.next <= |s|
    decreases |s| - i
  {
    if i >= |s| then Unterminated
    else if s[i] == quote then Scanned(out, i + 1)
    else if s[i] == '\n' then Unterminated
    else if s[i] != '\\' then ScanString(s, i + 1, quote, out + [s[i]])
    else
      match ScanEscape(s, i + 1)
      case Unterminated => Unterminated
      case Scanned(c, j) => ScanString(s, j, quote, out + c)
  }

  // The lexer

  function WordToken(w: string): Token {
    Token(if w in KEYWORDS then KEYWORD(w) else IDENT, w)
  }

  /** The token at `i`, where no blank or comment begins. */
  function TokenAt(s: string, i: nat): (r: (Token, nat))
    requires i < |s|
    ensures i <= r.1 <= |s|
    ensures r.1 == i ==> r.0.kind == EOF
  {
    var c := s[i];
    if c == '\n' then (Token(NEWLINE, "\n"), i + 1)
    else if IsSymbol(c) then (Token(SYMBOL(c), [c]), i + 1)
    else if IsQuote(c) then
      (match ScanString(s, i + 1, c, "") case Scanned(value, j) => (Token(STRING, value), j) case Unterminated =>
          (Token(EOF, ""), i))
    else if IsDigit(c) then
      assert DigitsEnd(s, i) == DigitsEnd(s, i + 1);
      var j := DigitsEnd(s, i);
      var n := UnitLength(s, j);
      (Token(if n > 0 then DURATION else INTEGER, s[i..j + n]), j + n)
    else if IdentFirst(c) then
      assert IdentEnd(s, i) == IdentEnd(s, i + 1);
      (WordToken(s[i..IdentEnd(s, i)]), IdentEnd(s, i))
    else (Token(EOF, ""), i)
  }

  function Prepend(t: Token, rest: Lexed): Lexed {
    match rest case Tokens(tokens) => Tokens([t] + tokens) case Unreadable => Unreadable
  }

  function Lex(s: string, i: nat): Lexed
    decreases |s| - i
  {
    if i >= |s| then Tokens([Token(EOF, "")])
    else if IsBlank(s[i]) then Lex(s, i + 1)
    else if s[i] == '#' then
      assert CommentEnd(s, i) == CommentEnd(s, i + 1);
      Lex(s, CommentEnd(s, i))
    else
      var (t, j) := TokenAt(s, i);
      if j == i then Unreadable else Prepend(t, Lex(s, j))
  }

  // What the formatter writes

  function Hex(n: int): char
    requires 0 <= n < 16
  {
    if n < 10 then '0' + n as char else 'a' + (n - 10) as char
  }

  /** `json.dumps` of one character. */
  function DumpChar(c: char): string {
    if c == '"' then "\\\""
    else if c == '\\' then "\\\\"
    else if c == '\n' then "\\n"
    else if c == '\r' then "\\r"
    else if c == '\t' then "\\t"
    else if c == '\U{08}' then "\\b"
    else if c == '\U{0C}' then "\\f"
    else if c < ' ' then ['\\', 'u', '0', '0', Hex(c as int / 16), Hex(c as int % 16)]
    else [c]
  }

  function DumpChars(v: string): string {
    if v == [] then [] else DumpChar(v[0]) + DumpChars(v[1..])
  }

  function Dumps(v: string): string {
    ['"'] + DumpChars(v) + ['"']
  }

  /** The lexer knows no escape for backspace and form feed. */
  predicate Readable(v: string) {
    '\U{08}' !in v && '\U{0C}' !in v
  }

  function Decimal(n: int): (r: string)
    ensures |r| >= 1 && (n >= 0 ==> forall k :: 0 <= k < |r| ==> IsDigit(r[k]))
    decreases n < 0, n
  {
    if n < 0 then ['-'] + Decimal(-n)
    else if n < 10 then ['0' + n as char] else Decimal(n / 10) + ['0' + (n % 10) as char]
  }

  predicate IdentText(w: string) {
    w != [] && IdentFirst(w[0]) && forall k :: 0 < k < |w| ==> IdentRest(w[k])
  }

  datatype Unit = Milliseconds | Seconds | Minutes | Hours

  function UnitText(u: Unit): string {
    match u case Milliseconds => "ms" case Seconds => "s" case Minutes => "m" case Hours => "h"
  }

  /** A piece of formatted text. */
  datatype Piece =
    | Symbol(c: char) | Newline | Word(text: string) | Quoted(value: string) | Numeral(n: int) | Span(n: int,
        unit: Unit)

  /** A piece with the blanks in front of it. */
  datatype Item = Item(lead: nat, piece: Piece)

  function Spaces(n: nat): (r: string)
    ensures |r| == n && forall k :: 0 <= k < n ==> r[k] == ' '
  {
    if n == 0 then [] else [' '] + Spaces(n - 1)
  }

  function PieceText(p: Piece): string {
    match p
    case Symbol(c) => [c]
    case Newline => "\n"
    case Word(text) => text
    case Quoted(value) => Dumps(value)
    case Numeral(n) => Decimal(n)
    case Span(n, unit) => Decimal(n) + UnitText(unit)
  }

  function TokenOf(p: Piece): Token {
    match p
    case Symbol(c) => Token(SYMBOL(c), [c])
    case Newline => Token(NEWLINE, "\n")
    case Word(text) => WordToken(text)
    case Quoted(value) => Token(STRING, value)
    case Numeral(n) => Token(INTEGER, Decimal(n))
    case Span(n, unit) => Token(DURATION, Decimal(n) + UnitText(unit))
  }

  function Flatten(items: seq<Item>): string {
    if items == [] then [] else Spaces(items[0].lead) + (PieceText(items[0].piece) + Flatten(items[1..]))
  }

  function TokensOf(items: seq<Item>): (r: seq<Token>)
    ensures |r| == |items| && forall k :: 0 <= k < |items| ==> r[k] == TokenOf(items[k].piece)
  {
    seq(|items|, k requires 0 <= k < |items| => TokenOf(items[k].piece))
  }

  /** Pieces whose text would run into a following letter or digit. */
  predicate Glues(p: Piece) { p.Word? || p.Numeral? || p.Span? }

  predicate Sound(p: Piece) {
    && (p.Word? ==> IdentText(p.text))
    && (p.Numeral? ==> p.n >= 0) && (p.Span? ==> p.n >= 0)
    && (p.Symbol? ==> IsSymbol(p.c))
  }

  /** What may follow a gluing piece. */
  predicate Separate(item: Item) {
    item.lead > 0 || item.piece.Newline? || item.piece.Symbol?
  }

  /** Every piece is well formed, and no two gluing pieces touch. */
  ghost predicate Spaced(items: seq<Item>) {
    && (forall k :: 0 <= k < |items| ==> Sound(items[k].piece))
    && (forall k :: 0 < k < |items| && Glues(items[k - 1].piece) ==> Separate(items[k]))
  }

  ghost predicate AllReadable(items: seq<Item>) {
    forall k :: 0 <= k < |items| && items[k].piece.Quoted? ==> Readable(items[k].piece.value)
  }

  // Lexing a piece

  predicate At(s: string, i: nat, w: string) {
    i + |w| <= |s| && s[i..i + |w|] == w
  }

  lemma AtSplit(s: string, i: nat, a: string, b: string)
    requires At(s, i, a + b)
    ensures At(s, i, a) && At(s, i + |a|, b)
  {
    assert s[i..i + |a|] == s[i..i + |a + b|][..|a|];
    assert s[i + |a|..i + |a| + |b|] == s[i..i + |a + b|][|a|..];
  }

  lemma CharAt(s: string, i: nat, w: string, k: nat)
    requires At(s, i, w) && k < |w|
    ensures i + k < |s| && s[i + k] == w[k]
  {
    assert s[i..i + |w|][k] == w[k];
  }

  /** The text after a gluing piece does not continue it. */
  predicate Breaks(s: string, i: nat) {
    i >= |s| || !IdentRest(s[i])
  }

  lemma {:induction false} LexBlank(s: string, i: nat, n: nat)
    requires At(s, i, Spaces(n))
    ensures Lex(s, i) == Lex(s, i + n)
    decreases n
  {
    if n > 0 {
      CharAt(s, i, Spaces(n), 0);
      AtSplit(s, i, [' '], Spaces(n - 1));
      LexBlank(s, i + 1, n - 1);
    }
  }

  lemma {:induction false} IdentEndAt(s: string, i: nat, w: string)
    requires At(s, i, w) && (forall k :: 0 <= k < |w| ==> IdentRest(w[k])) && Breaks(s, i + |w|)
    ensures IdentEnd(s, i) == i + |w|
    decreases |w|
  {
    if w != [] {
      CharAt(s, i, w, 0);
      assert w == [w[0]] + w[1..];
      AtSplit(s, i, [w[0]], w[1..]);
      IdentEndAt(s, i + 1, w[1..]);
    }
  }

  lemma {:induction false} DigitsEndAt(s: string, i: nat, w: string)
    requires At(s, i, w) && (forall k :: 0 <= k < |w| ==> IsDigit(w[k])) && (i + |w| >= |s| || !IsDigit(s[i + |w|]))
    ensures DigitsEnd(s, i) == i + |w|
    decreases |w|
  {
    if w != [] {
      CharAt(s, i, w, 0);
      assert w == [w[0]] + w[1..];
      AtSplit(s, i, [w[0]], w[1..]);
      DigitsEndAt(s, i + 1, w[1..]);
    }
  }

  lemma WordAt(s: string, i: nat, w: string)
    requires At(s, i, w) && IdentText(w) && Breaks(s, i + |w|)
    ensures i < |s| && TokenAt(s, i) == (WordToken(w), i + |w|) && !IsBlank(s[i]) && s[i] != '#' && w != []
  {
    CharAt(s, i, w, 0);
    IdentEndAt(s, i, w);
  }

  lemma NumeralAt(s: string, i: nat, n: nat)
    requires At(s, i, Decimal(n)) && Breaks(s, i + |Decimal(n)|)
    ensures i < |s| && TokenAt(s, i) == (Token(INTEGER, Decimal(n)), i + |Decimal(n)|) && !IsBlank(s[i]) && s[i] != '#'
  {
    CharAt(s, i, Decimal(n), 0);
    DigitsEndAt(s, i, Decimal(n));
  }

  lemma SpanAt(s: string, i: nat, n: nat, u: Unit)
    requires At(s, i, Decimal(n) + UnitText(u)) && Breaks(s, i + |Decimal(n) + UnitText(u)|)
    ensures i < |s| && !IsBlank(s[i]) && s[i] != '#'
    ensures TokenAt(s, i) == (Token(DURATION, Decimal(n) + UnitText(u)), i + |Decimal(n) + UnitText(u)|)
  {
    hide Decimal, UnitLength, UnitText;
    var j := i + |Decimal(n)|;
    AtSplit(s, i, Decimal(n), UnitText(u));
    CharAt(s, i, Decimal(n), 0);
    UnitAt(s, j, u);
    DigitsEndAt(s, i, Decimal(n));
  }

  lemma UnitAt(s: string, i: nat, u: Unit)
    requires At(s, i, UnitText(u)) && Breaks(s, i + |UnitText(u)|)
    ensures UnitLength(s, i) == |UnitText(u)| > 0 && i < |s| && !IsDigit(s[i])
  {
    CharAt(s, i, UnitText(u), 0);
    if u.Milliseconds? { CharAt(s, i, UnitText(u), 1); }
  }

  lemma HexBack(n: int)
    requires 0 <= n < 16
    ensures HexValue(Hex(n)) == n
  {
  }

  lemma ControlAt(s: string, i: nat, c: char)
    requires c < ' ' && At(s, i, ['0', '0', Hex(c as int / 16), Hex(c as int % 16)])
    ensures ScanUnicode(s, i) == Scanned([c], i + 4)
  {
    var w := ['0', '0', Hex(c as int / 16), Hex(c as int % 16)];
    CharAt(s, i, w, 0);
    CharAt(s, i, w, 1);
    CharAt(s, i, w, 2);
    CharAt(s, i, w, 3);
    HexBack(c as int / 16);
    HexBack(c as int % 16);
    assert c as int / 16 * 16 + c as int % 16 == c as int;
  }

  /** A dumped character is scanned as itself, unless it is a backspace or a form feed. */
  lemma DumpedChar(s: string, i: nat, c: char, out: string)
    requires At(s, i, DumpChar(c))
    ensures ScanString(s, i, '"', out) ==
      if Readable([c]) then ScanString(s, i + |DumpChar(c)|, '"', out + [c]) else Unterminated
  {
    var w := DumpChar(c);
    CharAt(s, i, w, 0);
    if |w| > 1 {
      CharAt(s, i, w, 1);
      if |w| > 2 {
        assert w == ['\\', 'u'] + ['0', '0', Hex(c as int / 16), Hex(c as int % 16)];
        AtSplit(s, i, ['\\', 'u'], ['0', '0', Hex(c as int / 16), Hex(c as int % 16)]);
        ControlAt(s, i + 2, c);
      }
    }
  }

  lemma DumpCharsStep(v: string)
    requires v != []
    ensures DumpChars(v) == DumpChar(v[0]) + DumpChars(v[1..])
    ensures Readable(v) <==> Readable([v[0]]) && Readable(v[1..])
  {
    assert v == [v[0]] + v[1..];
  }

  lemma ScanEnd(s: string, i: nat, out: string)
    requires At(s, i, ['"'])
    ensures ScanString(s, i, '"', out) == Scanned(out, i + 1)
  {
    CharAt(s, i, ['"'], 0);
  }

  lemma {:induction false} DumpedChars(s: string, i: nat, v: string, out: string)
    requires At(s, i, DumpChars(v) + ['"'])
    ensures ScanString(s, i, '"', out) == if Readable(v) then Scanned(out + v, i + |DumpChars(v)| + 1) else Unterminated
    decreases |v|
  {
    hide *;
    if v == [] {
      NothingDumped();
      assert [] + ['"'] == ['"'] && out + v == out;
      ScanEnd(s, i, out);
    } else {
      DumpCharsStep(v);
      var rest := DumpChars(v[1..]);
      assert DumpChars(v) + ['"'] == DumpChar(v[0]) + (rest + ['"']);
      AtSplit(s, i, DumpChar(v[0]), rest + ['"']);
      DumpedChar(s, i, v[0], out);
      if Readable([v[0]]) {
        DumpedChars(s, i + |DumpChar(v[0])|, v[1..], out + [v[0]]);
        assert out + [v[0]] + v[1..] == out + v;
      }
    }
  }

  lemma NothingDumped()
    ensures DumpChars([]) == [] && Readable([])
  {
  }

  /** Lexing what `json.dumps` wrote succeeds exactly when the string has no backspace and no form feed. */
  lemma QuotedAt(s: string, i: nat, v: string)
    requires At(s, i, Dumps(v))
    ensures i < |s| && !IsBlank(s[i]) && s[i] != '#' && Dumps(v) != []
    ensures Readable(v) ==> TokenAt(s, i) == (Token(STRING, v), i + |Dumps(v)|)
    ensures !Readable(v) ==> TokenAt(s, i).1 == i
  {
    hide ScanString, DumpChars, Readable;
    assert Dumps(v) == ['"'] + (DumpChars(v) + ['"']);
    AtSplit(s, i, ['"'], DumpChars(v) + ['"']);
    CharAt(s, i, ['"'], 0);
    DumpedChars(s, i + 1, v, "");
    assert "" + v == v;
  }

  lemma LexToken(s: string, i: nat)
    requires i < |s| && !IsBlank(s[i]) && s[i] != '#'
    ensures Lex(s, i) == if TokenAt(s, i).1 == i then Unreadable else Prepend(TokenAt(s, i).0, Lex(s, TokenAt(s, i).1))
  {
    hide TokenAt;
  }

  /** One piece of text becomes its token, or stops the lexer. */
  lemma LexPiece(s: string, i: nat, p: Piece)
    requires At(s, i, PieceText(p)) && Sound(p) && (Glues(p) ==> Breaks(s, i + |PieceText(p)|))
    ensures Lex(s, i) ==
      if p.Quoted? && !Readable(p.value) then Unreadable else Prepend(TokenOf(p), Lex(s, i + |PieceText(p)|))
  {
    hide Lex, Breaks, Decimal, Readable, Dumps, IdentText, Prepend, TokenAt, WordToken, UnitText;
    match p
    case Word(text) =>
      WordAt(s, i, text);
      LexToken(s, i);
    case Numeral(n) =>
      NumeralAt(s, i, n);
      LexToken(s, i);
    case Span(n, unit) =>
      SpanAt(s, i, n, unit);
      LexToken(s, i);
    case Quoted(value) =>
      QuotedAt(s, i, value);
      LexToken(s, i);
    case _ =>
      MarkAt(s, i, p);
      LexToken(s, i);
  }

  lemma MarkAt(s: string, i: nat, p: Piece)
    requires (p.Symbol? || p.Newline?) && Sound(p) && At(s, i, PieceText(p))
    ensures i < |s| && !IsBlank(s[i]) && s[i] != '#' && |PieceText(p)| == 1
    ensures TokenAt(s, i) == (TokenOf(p), i + 1)
  {
    CharAt(s, i, PieceText(p), 0);
  }

  /** Text that follows a gluing piece breaks it off. */
  lemma AfterGlue(s: string, i: nat, items: seq<Item>)
    requires At(s, i, Flatten(items)) && i + |Flatten(items)| == |s| && Spaced(items)
    requires items != [] ==> Separate(items[0])
    ensures Breaks(s, i)
  {
    if items != [] {
      CharAt(s, i, Flatten(items), 0);
      assert Sound(items[0].piece);
    }
  }

  lemma FlattenStep(items: seq<Item>)
    requires items != []
    ensures Flatten(items) == Spaces(items[0].lead) + (PieceText(items[0].piece) + Flatten(items[1..]))
    ensures TokensOf(items) == [TokenOf(items[0].piece)] + TokensOf(items[1..])
  {
    hide PieceText, TokenOf;
  }

  lemma SpacedStep(items: seq<Item>)
    requires items != [] && Spaced(items)
    ensures Sound(items[0].piece) && Spaced(items[1..])
    ensures Glues(items[0].piece) && items[1..] != [] ==> Separate(items[1..][0])
  {
    hide Sound, Glues, Separate;
    var rest := items[1..];
    forall k | 0 <= k < |rest| ensures Sound(rest[k].piece) { assert rest[k] == items[k + 1]; }
    forall k | 0 < k < |rest| && Glues(rest[k - 1].piece) ensures Separate(rest[k]) {
      assert rest[k] == items[k + 1] && rest[k - 1] == items[k];
    }
  }

  lemma ReadableStep(items: seq<Item>)
    requires items != []
    ensures AllReadable(items)
        <==> (items[0].piece.Quoted? ==> Readable(items[0].piece.value)) && AllReadable(items[1..])
  {
    hide Readable;
    var rest := items[1..];
    if AllReadable(rest) && (items[0].piece.Quoted? ==> Readable(items[0].piece.value)) {
      forall k | 0 <= k < |items| && items[k].piece.Quoted? ensures Readable(items[k].piece.value) {
        if k > 0 { assert rest[k - 1] == items[k]; }
      }
    }
    if AllReadable(items) {
      forall k | 0 <= k < |rest| && rest[k].piece.Quoted? ensures Readable(rest[k].piece.value) {
        assert items[k + 1] == rest[k];
      }
    }
  }

  lemma FlattenNothing(s: string)
    ensures Flatten([]) == [] && TokensOf([]) == [] && AllReadable([]) && Lex(s, |s|) == Tokens([Token(EOF, "")])
  {
  }

  /** Lexing formatted text gives the tokens of its pieces, provided that every string in it is readable. */
  lemma {:induction false} LexItems(s: string, i: nat, items: seq<Item>)
    requires At(s, i, Flatten(items)) && i + |Flatten(items)| == |s| && Spaced(items)
    ensures Lex(s, i) == if AllReadable(items) then Tokens(TokensOf(items) + [Token(EOF, "")]) else Unreadable
    decreases |items|
  {
    hide *;
    if items == [] {
      FlattenNothing(s);
      assert [] + [Token(EOF, "")] == [Token(EOF, "")];
    } else {
      FlattenStep(items);
      SpacedStep(items);
      ReadableStep(items);
      var lead, p, rest := items[0].lead, items[0].piece, items[1..];
      AtSplit(s, i, Spaces(lead), PieceText(p) + Flatten(rest));
      AtSplit(s, i + lead, PieceText(p), Flatten(rest));
      LexBlank(s, i, lead);
      if Glues(p) { AfterGlue(s, i + lead + |PieceText(p)|, rest); }
      LexPiece(s, i + lead, p);
      LexItems(s, i + lead + |PieceText(p)|, rest);
      Prepended(TokenOf(p), TokensOf(rest));
    }
  }

  lemma Prepended(t: Token, rest: seq<Token>)
    ensures Prepend(t, Tokens(rest + [Token(EOF, "")])) == Tokens([t] + rest + [Token(EOF, "")])
    ensures Prepend(t, Unreadable) == Unreadable
  {
    assert [t] + (rest + [Token(EOF, "")]) == [t] + rest + [Token(EOF, "")];
  }
}
