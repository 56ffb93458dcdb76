/** The program text of the workflow DSL: the lexer and the parser as objects that advance an index. */
module DslProgram {
  import opened DslLexer
  import opened DslParser

  /** The result of a method that raises `DSLError`. */
  datatype Result<+T> = Value(value: T) | Failure

  // The lexer

  const ESCAPES: map<char, char> := map['n' := '\n', 'r' := '\r', 't' := '\t', '\\' := '\\', '"' := '"', '\'' := '\'']

  /** Tokens already yielded, followed by what the rest of the source gives. */
  function Continue(out: seq<Token>, rest: Lexed): Lexed {
    match rest case Tokens(tokens) => Tokens(out + tokens) case Unreadable => Unreadable
  }

  lemma ContinueNext(out: seq<Token>, t: Token, rest: Lexed)
    ensures Continue(out + [t], rest) == Continue(out, Prepend(t, rest))
  {
    if rest.Tokens? { assert out + [t] + rest.tokens == out + ([t] + rest.tokens); }
  }

  class Lexer {
    const source: string
    var index: nat

    constructor (source: string)
      ensures this.source == source && index == 0
    {
      this.source, index := source, 0;
    }

    ghost predicate Valid()
      reads this
    {
      index <= |source|
    }

    /** The string literal was scanned as `s` says. */
    ghost predicate Scans(r: Result<Token>, s: Scanned)
      reads this
    {
      && Valid()
      && (s.Unterminated? ==> r == Failure)
      && (s.Scanned? ==> r == Value(Token(STRING, s.value)) && index == s.next)
    }

    method SkipComment()
      requires Valid()
      modifies this
      ensures Valid() && index == CommentEnd(source, old(index))
    {
      while index < |source| && source[index] != '\n'
        invariant Valid() && CommentEnd(source, index) == CommentEnd(source, old(index))
      {
        index := index + 1;
      }
    }

    /** The digits after `\u`. */
    method UnicodeDigits() returns (r: Result<char>)
      requires Valid()
      modifies this
      ensures Valid() && (r.Value? <==> ScanUnicode(source, old(index)).Scanned?)
      ensures r.Value? ==> ScanUnicode(source, old(index)) == Scanned([r.value], index)
    {
      hide ScanUnicode, HexUpTo, HexValue;
      if index + 4 > |source| {
        BadHex(source, index, 0);
        return Failure;
      }
      var start, code := index, 0;
      NoHex(source, start);
      while index < start + 4
        invariant start <= index <= start + 4 && start + 4 <= |source|
        invariant HexRun(source, start, index - start) && code == HexUpTo(source, start, index - start)
      {
        var digit := HexValue(source[index]);
        if digit < 0 {
          BadHex(source, start, index - start);
          return Failure;
        }
        HexNext(source, start, index - start);
        code := code * 16 + digit;
        index := index + 1;
      }
      GoodHex(source, start);
      if 0xD800 <= code < 0xE000 { return Failure; }
      return Value(code as char);
    }

    method StringToken(quote: char) returns (r: Result<Token>)
      requires index < |source| && source[index] == quote
      modifies this
      ensures Scans(r, ScanString(source, old(index) + 1, quote, ""))
    {
      hide ScanUnicode;
      index := index + 1;
      var out := "";
      while index < |source|
        invariant Valid() && ScanString(source, index, quote, out) == ScanString(source, old(index) + 1, quote, "")
        decreases |source| - index
      {
        var c := source[index];
        if c == quote {
          index := index + 1;
          return Value(Token(STRING, out));
        }
        if c == '\n' { return Failure; }
        if c != '\\' {
          out := out + [c];
          index := index + 1;
          continue;
        }
        index := index + 1;
        if index >= |source| { break; }
        var escaped := source[index];
        if escaped == 'u' {
          index := index + 1;
          var unit := UnicodeDigits();
          if unit.Failure? { return Failure; }
          out := out + [unit.value];
          continue;
        }
        if escaped !in ESCAPES { return Failure; }
        out := out + [ESCAPES[escaped]];
        index := index + 1;
      }
      return Failure;
    }

    /** The longest run of digits. */
    method Digits() returns (digits: string)
      requires Valid()
      modifies this
      ensures Valid() && old(index) <= index == DigitsEnd(source, old(index)) && digits == source[old(index)..index]
    {
      var start := index;
      while index < |source| && IsDigit(source[index])
        invariant start <= index <= |source| && DigitsEnd(source, index) == DigitsEnd(source, start)
      {
        index := index + 1;
      }
      digits := source[start..index];
    }

    method Identifier() returns (text: string)
      requires Valid()
      modifies this
      ensures Valid() && old(index) <= index == IdentEnd(source, old(index)) && text == source[old(index)..index]
    {
      var start := index;
      while index < |source| && IdentRest(source[index])
        invariant start <= index <= |source| && IdentEnd(source, index) == IdentEnd(source, start)
      {
        index := index + 1;
      }
      text := source[start..index];
    }

    /** One token, where no blank and no comment begins. */
    method NextToken() returns (r: Result<Token>)
      requires index < |source| && !IsBlank(source[index]) && source[index] != '#'
      modifies this
      ensures Valid() && (r.Value? <==> TokenAt(source, old(index)).1 > old(index))
      ensures r.Value? ==> TokenAt(source, old(index)) == (r.value, index)
    {
      hide ScanString, UnitLength, WordToken;
      var start := index;
      var c := source[index];
      if c == '\n' {
        index := index + 1;
        return Value(Token(NEWLINE, "\n"));
      }
      if IsSymbol(c) {
        index := index + 1;
        return Value(Token(SYMBOL(c), [c]));
      }
      if IsQuote(c) {
        r := StringToken(c);
        return;
      }
      if IsDigit(c) {
        assert DigitsEnd(source, index) == DigitsEnd(source, index + 1);
        var digits := Digits();
        UnitFits(source, index);
        var unit := UnitLength(source, index);
        index := index + unit;
        return Value(Token(if unit > 0 then DURATION else INTEGER, source[start..index]));
      }
      if IdentFirst(c) {
        assert IdentEnd(source, index) == IdentEnd(source, index + 1);
        var text := Identifier();
        return Value(WordToken(text));
      }
      return Failure;
    }

    method AllTokens() returns (r: Lexed)
      requires index == 0
      modifies this
      ensures r == Lex(source, 0)
    {
      hide TokenAt, Continue, Prepend;
      var out: seq<Token> := [];
      ContinueNone(Lex(source, 0));
      while index < |source|
        invariant Valid() && Lex(source, 0) == Continue(out, Lex(source, index))
        decreases |source| - index
      {
        var c := source[index];
        if IsBlank(c) {
          index := index + 1;
          continue;
        }
        if c == '#' {
          assert CommentEnd(source, index) == CommentEnd(source, index + 1);
          SkipComment();
          continue;
        }
        ghost var start := index;
        LexToken(source, start);
        var t := NextToken();
        if t.Failure? {
          NothingContinues(out);
          return Unreadable;
        }
        ContinueNext(out, t.value, Lex(source, index));
        out := out + [t.value];
      }
      AllRead(out);
      return Tokens(out + [Token(EOF, "")]);
    }

    lemma AllRead(out: seq<Token>)
      ensures Continue(out, Lex(source, |source|)) == Tokens(out + [Token(EOF, "")])
    {
    }
  }

  lemma ContinueNone(rest: Lexed)
    ensures Continue([], rest) == rest
  {
    if rest.Tokens? { assert [] + rest.tokens == rest.tokens; }
  }

  lemma NothingContinues(out: seq<Token>)
    ensures Continue(out, Unreadable) == Unreadable
  {
  }

  lemma UnitFits(s: string, i: nat)
    requires i <= |s|
    ensures i + UnitLength(s, i) <= |s|
  {
  }

  function HexUpTo(s: string, i: nat, n: nat): int
    requires i + n <= |s|
  {
    if n == 0 then 0 else HexUpTo(s, i, n - 1) * 16 + HexValue(s[i + n - 1])
  }

  ghost predicate HexRun(s: string, i: nat, n: nat)
    requires i + n <= |s|
  {
    forall k :: i <= k < i + n ==> HexValue(s[k]) >= 0
  }

  lemma NoHex(s: string, i: nat)
    requires i <= |s|
    ensures HexRun(s, i, 0) && HexUpTo(s, i, 0) == 0
  {
  }

  lemma HexNext(s: string, i: nat, n: nat)
    requires i + n < |s|
    ensures HexUpTo(s, i, n + 1) == HexUpTo(s, i, n) * 16 + HexValue(s[i + n])
  {
  }

  lemma BadHex(s: string, i: nat, n: nat)
    requires n < 4 && (i + 4 <= |s| ==> HexValue(s[i + n]) < 0)
    ensures ScanUnicode(s, i) == Unterminated
  {
    hide HexValue;
  }

  lemma GoodHex(s: string, i: nat)
    requires i + 4 <= |s| && HexRun(s, i, 4)
    ensures
      var code := HexUpTo(s, i, 4);
      && 0 <= code < 0x10000
      && ScanUnicode(s, i) == if 0xD800 <= code < 0xE000 then Unterminated else Scanned([code as char], i + 4)
  {
    hide HexValue;
    HexDigits(s[i]);
    HexDigits(s[i + 1]);
    HexDigits(s[i + 2]);
    HexDigits(s[i + 3]);
    assert HexUpTo(s, i, 1) == HexValue(s[i]);
    assert HexUpTo(s, i, 2) == HexValue(s[i]) * 16 + HexValue(s[i + 1]);
    assert HexUpTo(s, i, 3) == (HexValue(s[i]) * 16 + HexValue(s[i + 1])) * 16 + HexValue(s[i + 2]);
  }

  lemma HexDigits(c: char)
    ensures HexValue(c) < 16
  {
  }

  // The parser

  class Parser {
    const tokens: seq<Token>
    var index: nat

    constructor (tokens: seq<Token>)
      requires Stream(tokens)
      ensures Valid() && this.tokens == tokens && index == 0
    {
      this.tokens, index := tokens, 0;
    }

    ghost predicate Valid()
      reads this
    {
      Stream(tokens) && index < |tokens|
    }

    /** The method did what the parsing function says: it failed, or returned the value and moved to `next`. */
    ghost predicate Yields<T(!new)>(r: Result<T>, got: Got<T>)
      reads this
    {
      && Valid()
      && (got.Rejected? ==> r == Failure)
      && (got.Got? ==> r == Value(got.value) && index == got.next)
    }

    function Current(): Token
      requires Valid()
      reads this
    {
      tokens[index]
    }

    method Advance()
      requires Valid()
      modifies this
      ensures Valid() && index == Next(tokens, old(index))
    {
      if index < |tokens| - 1 { index := index + 1; }
    }

    method SkipNewlines()
      requires Valid()
      modifies this
      ensures Valid() && index == DslParser.SkipNewlines(tokens, old(index))
    {
      while Current().kind == NEWLINE
        invariant Valid() && DslParser.SkipNewlines(tokens, index) == DslParser.SkipNewlines(tokens, old(index))
        decreases |tokens| - index
      {
        Advance();
      }
    }

    method Expect(kind: Kind) returns (r: Result<string>)
      requires Valid()
      modifies this
      ensures Yields(r, DslParser.Expect(tokens, old(index), kind))
    {
      var token := Current();
      if token.kind != kind { return Failure; }
      Advance();
      return Value(token.value);
    }

    method Scalar() returns (r: Result<string>)
      requires Valid()
      modifies this
      ensures Yields(r, DslParser.Scalar(tokens, old(index)))
    {
      var token := Current();
      if IsScalar(token.kind) {
        Advance();
        return Value(token.value);
      }
      return Failure;
    }

    /** A name, an equals sign and a value, as `meta`, `env` and `labels` have it. */
    method Pair() returns (r: Result<(string, string)>)
      requires Valid()
      modifies this
      ensures Yields(r, DslParser.Pair(tokens, old(index)))
    {
      hide Stream;
      var name := Scalar();
      if name.Failure? { return Failure; }
      var equals := Expect(SYMBOL('='));
      if equals.Failure? { return Failure; }
      var value := Scalar();
      if value.Failure? { return Failure; }
      return Value((name.value, value.value));
    }

    method LineEnd() returns (r: Result<()>)
      requires Valid()
      modifies this
      ensures Yields(r, DslParser.LineEnd(tokens, old(index)))
    {
      if Current().kind == NEWLINE {
        SkipNewlines();
        return Value(());
      }
      if Current().kind == SYMBOL('}') || Current().kind == EOF { return Value(()); }
      if FieldWord(Current().kind) { return Value(()); }
      return Failure;
    }

    method ListOfScalars() returns (r: Result<seq<string>>)
      requires Valid()
      modifies this
      ensures Yields(r, List(tokens, old(index)))
    {
      var opening := Expect(SYMBOL('['));
      if opening.Failure? { return Failure; }
      var values: seq<string> := [];
      if Current().kind == SYMBOL(']') {
        Advance();
        return Value(values);
      }
      ghost var start := index;
      while true
        invariant Valid() && ListRest(tokens, index, values) == ListRest(tokens, start, [])
        decreases |tokens| - index
      {
        var value := Scalar();
        if value.Failure? { return Failure; }
        values := values + [value.value];
        if Current().kind == SYMBOL(']') {
          Advance();
          return Value(values);
        }
        var comma := Expect(SYMBOL(','));
        if comma.Failure? { return Failure; }
      }
    }

    method CommandWords(split: Splitter) returns (r: Result<seq<string>>)
      requires Valid()
      modifies this
      ensures Yields(r, Command(tokens, old(index), split))
    {
      if Current().kind == SYMBOL('[') {
        r := ListOfScalars();
        return;
      }
      var value := Scalar();
      if value.Failure? { return Failure; }
      var command := split(value.value);
      if command.BadSyntax? || command.words == [] { return Failure; }
      return Value(command.words);
    }

    method RetryPolicy() returns (r: Result<Retry>)
      requires Valid()
      modifies this
      ensures Yields(r, DslParser.RetryPolicy(tokens, old(index)))
    {
      hide RetryOption;
      var retry := DEFAULT_RETRY;
      var consumed: set<string> := {};
      while Current().kind != NEWLINE && Current().kind != SYMBOL('}') && Current().kind != EOF
        invariant Valid()
        invariant RetryOptions(tokens, index, retry, consumed) == RetryOptions(tokens, old(index), DEFAULT_RETRY, {})
        decreases |tokens| - index
      {
        var option := ReadOption(retry, consumed);
        if option.Failure? { return Failure; }
        retry, consumed := option.value.0, option.value.1;
      }
      if retry.attempts < 1 || retry.attempts > 100 || retry.baseMs < 1 || retry.maxMs < retry.baseMs {
        return Failure;
      }
      return Value(retry);
    }

    /** The body of the loop of `_retry_policy`. */
    method ReadOption(retry: Retry, consumed: set<string>) returns (r: Result<(Retry, set<string>)>)
      requires Valid()
      modifies this
      ensures Yields(r, RetryOption(tokens, old(index), retry, consumed))
    {
      hide DurationMs, NumberOf;
      var kind := Current().kind;
      if !kind.KEYWORD? || kind.word !in {"attempts", "base", "max"} || kind.word in consumed { return Failure; }
      Advance();
      var equals := Expect(SYMBOL('='));
      if equals.Failure? { return Failure; }
      var retry' := retry;
      if kind.word == "attempts" {
        var number := Expect(INTEGER);
        if number.Failure? { return Failure; }
        retry' := retry.(attempts := NumberOf(number.value));
      } else {
        var duration := Expect(DURATION);
        if duration.Failure? { return Failure; }
        var ms := DurationMs(duration.value);
        if ms.Rejected? { return Failure; }
        retry' := if kind.word == "base" then retry.(baseMs := ms.value) else retry.(maxMs := ms.value);
      }
      if Current().kind == SYMBOL(',') { Advance(); }
      return Value((retry', consumed + {kind.word}));
    }

    /** One field of a task, as the loop of `_parse_task` reads it. */
    method ReadField(t: TaskNode, seen: set<string>, split: Splitter) returns (r: Result<TaskNode>)
      requires Valid()
      modifies this
      ensures Yields(r, Field(tokens, old(index), t, seen, split))
    {
      hide Stream, Command, List, DslParser.Pair, DurationSeconds, DslParser.RetryPolicy;
      var key := Current().kind;
      NotLast(tokens, index);
      if !key.KEYWORD? || key.word in seen { return Failure; }
      Advance();
      if key.word == "run" {
        var command := CommandWords(split);
        return if command.Value? then Value(t.(command := command.value)) else Failure;
      }
      if key.word == "needs" {
        var dependencies := ListOfScalars();
        return if dependencies.Value? then Value(t.(dependsOn := dependencies.value)) else Failure;
      }
      if key.word == "env" {
        var pair := Pair();
        if pair.Failure? || pair.value.0 in t.env { return Failure; }
        return Value(t.(env := t.env[pair.value.0 := pair.value.1]));
      }
      if key.word == "labels" {
        var pair := Pair();
        if pair.Failure? || pair.value.0 in t.labels { return Failure; }
        return Value(t.(labels := t.labels[pair.value.0 := pair.value.1]));
      }
      if key.word == "timeout" {
        NotLast(tokens, index);
        var duration := Expect(DURATION);
        if duration.Failure? { return Failure; }
        var seconds := DurationSeconds(duration.value);
        return if seconds.Got? then Value(t.(timeoutSeconds := seconds.value)) else Failure;
      }
      if key.word == "retry" {
        var retry := RetryPolicy();
        return if retry.Value? then Value(t.(retry := retry.value)) else Failure;
      }
      return Failure;
    }

    /** A keyword, a name and an opening brace, with the newlines allowed between and after them. */
    method ReadOpening(word: string) returns (r: Result<string>)
      requires Valid()
      modifies this
      ensures Yields(r, Opening(tokens, old(index), word))
    {
      hide Stream;
      var keyword := Expect(KEYWORD(word));
      if keyword.Failure? { return Failure; }
      var name := Scalar();
      if name.Failure? { return Failure; }
      SkipNewlines();
      var brace := Expect(SYMBOL('{'));
      if brace.Failure? { return Failure; }
      SkipNewlines();
      return Value(name.value);
    }

    method ParseTask(split: Splitter) returns (r: Result<TaskNode>)
      requires Valid()
      modifies this
      ensures Yields(r, DslParser.Task(tokens, old(index), split))
    {
      hide Stream, Field, DslParser.LineEnd, Opening, DslParser.SkipNewlines;
      var id := ReadOpening("task");
      if id.Failure? { return Failure; }
      var task := BlankTask(id.value);
      var seen: set<string> := {};
      ghost var start := index;
      while Current().kind != SYMBOL('}')
        invariant Valid()
        invariant Fields(tokens, index, task, seen, split) == Fields(tokens, start, BlankTask(id.value), {}, split)
        decreases |tokens| - index
      {
        var key := Current().kind;
        FieldKeyword(tokens, index, task, seen, split);
        var read := ReadField(task, seen, split);
        if read.Failure? { return Failure; }
        task := read.value;
        if key.word in ONCE { seen := seen + {key.word}; }
        var end := LineEnd();
        if end.Failure? { return Failure; }
        SkipNewlines();
      }
      NotLast(tokens, index);
      Advance();
      if task.command == [] { return Failure; }
      return Value(task);
    }

    /** `_parse_meta`. */
    method ParseMeta(metadata: map<string, string>) returns (r: Result<map<string, string>>)
      requires Valid() && Current().kind == KEYWORD("meta")
      modifies this
      ensures Valid()
      ensures r.Failure? <==> MetaRead(tokens, old(index), metadata).Rejected?
      ensures r.Value? ==> MetaRead(tokens, old(index), metadata) == Got(r.value, index)
    {
      hide Stream, DslParser.LineEnd, DslParser.Pair;
      NotLast(tokens, index);
      Advance();
      var pair := Pair();
      if pair.Failure? || pair.value.0 in metadata { return Failure; }
      var end := LineEnd();
      if end.Failure? { return Failure; }
      return Value(metadata[pair.value.0 := pair.value.1]);
    }

    /** `Parser.parse`. */
    method Parse(split: Splitter) returns (r: Result<WorkflowNode>)
      requires Valid() && index == 0
      modifies this
      ensures Yields(r, ParseTokens(tokens, split))
    {
      hide Stream, Entry, Opening, DslParser.Task, MetaRead;
      SkipNewlines();
      var name := ReadOpening("workflow");
      if name.Failure? { return Failure; }
      var workflow := WorkflowNode(name.value, map[], []);
      var taskIds: set<string> := {};
      ghost var start := index;
      while Current().kind != SYMBOL('}')
        invariant Valid() && IdsOf(workflow.tasks, taskIds)
        invariant Entries(tokens, index, workflow, split) == Entries(tokens, start, WorkflowNode(name.value, map[], []),
            split)
        decreases |tokens| - index
      {
        EntryIs(tokens, index, workflow, split);
        if Current().kind == EOF { return Failure; }
        if Current().kind == KEYWORD("meta") {
          var metadata := ParseMeta(workflow.metadata);
          if metadata.Failure? { return Failure; }
          workflow := workflow.(metadata := metadata.value);
        } else if Current().kind == KEYWORD("task") {
          var task := ParseTask(split);
          if task.Failure? || task.value.id in taskIds { return Failure; }
          NewId(workflow.tasks, taskIds, task.value);
          taskIds := taskIds + {task.value.id};
          workflow := workflow.(tasks := workflow.tasks + [task.value]);
        } else {
          return Failure;
        }
        SkipNewlines();
      }
      NotLast(tokens, index);
      Advance();
      SkipNewlines();
      AtEnd(tokens, index);
      var end := Expect(EOF);
      if end.Failure? { return Failure; }
      return Value(workflow);
    }
  }

  ghost predicate IdsOf(tasks: seq<TaskNode>, ids: set<string>) {
    forall id :: id in ids <==> HasId(tasks, id)
  }

  lemma NewId(tasks: seq<TaskNode>, ids: set<string>, t: TaskNode)
    requires IdsOf(tasks, ids)
    ensures IdsOf(tasks + [t], ids + {t.id})
  {
    var more := tasks + [t];
    forall id ensures id in ids + {t.id} <==> HasId(more, id) {
      if id == t.id { assert more[|tasks|].id == id; }
      if HasId(tasks, id) {
        var k :| 0 <= k < |tasks| && tasks[k].id == id;
        assert more[k].id == id;
      }
    }
  }

  lemma NotLast(ts: seq<Token>, i: nat)
    requires Stream(ts) && i < |ts|
    ensures ts[i].kind != EOF ==> i + 1 < |ts| && Next(ts, i) == i + 1
  {
  }

  lemma AtEnd(ts: seq<Token>, i: nat)
    requires Stream(ts) && i < |ts|
    ensures ts[i].kind == EOF ==> Next(ts, i) == i == |ts| - 1
  {
  }

  lemma FieldKeyword(ts: seq<Token>, i: nat, t: TaskNode, seen: set<string>, split: Splitter)
    requires Stream(ts) && i < |ts|
    ensures Field(ts, i, t, seen, split).Got? ==> ts[i].kind.KEYWORD?
  {
  }

  /** A metadata line. */
  function MetaRead(ts: seq<Token>, i: nat, metadata: map<string, string>): Got<map<string, string>>
    requires Stream(ts) && i + 1 < |ts|
  {
    match Pair(ts, i + 1)
    case Rejected => Rejected
    case Got(p, j) =>
      if p.0 in metadata then Rejected
      else match LineEnd(ts, j) case Rejected => Rejected case Got(_, k) => Got(metadata[p.0 := p.1], k)
  }

  lemma EntryIs(ts: seq<Token>, i: nat, w: WorkflowNode, split: Splitter)
    requires Stream(ts) && i < |ts|
    ensures ts[i].kind == KEYWORD("meta") ==>
      i + 1 < |ts| && Entry(ts, i, w, split) ==
        match MetaRead(ts, i, w.metadata) case Rejected => Rejected case Got(m, j) => Got(w.(metadata := m), j)
    ensures ts[i].kind == KEYWORD("task") ==>
      Entry(ts, i, w, split) ==
        match Task(ts, i, split)
        case Rejected => Rejected
        case Got(t, j) => if HasId(w.tasks, t.id) then Rejected else Got(w.(tasks := w.tasks + [t]), j)
    ensures ts[i].kind != KEYWORD("meta") && ts[i].kind != KEYWORD("task") ==> Entry(ts, i, w, split) == Rejected
  {
    hide Task, LineEnd, HasId;
  }

  /** `parse`. */
  method ParseSource(source: string, split: Splitter) returns (r: Result<WorkflowNode>)
    ensures DslParser.Parse(source, split).Got? ==> r == Value(DslParser.Parse(source, split).value)
    ensures DslParser.Parse(source, split).Rejected? ==> r == Failure
  {
    hide Lex, ParseTokens, Stream;
    var lexer := new Lexer(source);
    var tokens := lexer.AllTokens();
    LexStream(source, 0);
    if tokens.Unreadable? { return Failure; }
    var parser := new Parser(tokens.tokens);
    r := parser.Parse(split);
  }
}
