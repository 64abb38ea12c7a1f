/** `Scanner` (src/scanner.rs): a cursor over the source characters that
    pushes tokens as it goes. Each method is proved against the reference
    lexer of module ScanSpec. */
module Scanning {
  import opened Wrappers
  import opened Errors
  import opened Variant
  import opened TokenTypes
  import opened Tokens
  import opened Lexicon
  import opened ScanSpec
  import ScanLaws

  class Scanner {
    const source: string
    /** AsWritten follows src/scanner.rs; Corrected fixes `is_match` at the
        end of input and the `_` test of the identifier loop. */
    const rule: Rule
    var tokens: seq<Token>
    var start: nat
    var current: nat
    var line: nat

    ghost predicate Valid()
      reads this
    {
      start <= current <= |source|
    }

    /** `Scanner::new`. */
    constructor (source: string, rule: Rule)
      ensures Valid()
      ensures this.source == source && this.rule == rule
      ensures tokens == [] && start == 0 && current == 0 && line == 1
    {
      this.source := source;
      this.rule := rule;
      tokens := [];
      start := 0;
      current := 0;
      line := 1;
    }

    predicate IsAtEnd()
      reads this
    {
      current >= |source|
    }

    /** `peek`: the character under the cursor, `'\0'` at the end. */
    function Peek(): (c: char)
      reads this
      ensures c == PeekAt(source, current)
    {
      if IsAtEnd() then '\0' else source[current]
    }

    /** `peek_next`: the character after the cursor, `'\0'` past the end. */
    function PeekNext(): (c: char)
      reads this
      ensures c == PeekAt(source, current + 1)
    {
      if current + 1 >= |source| then '\0' else source[current + 1]
    }

    /** `advance`: the character under the cursor, which moves one on. The
        source indexes without a check; every call here is at a position
        inside the buffer. */
    method Advance() returns (c: char)
      requires Valid() && current < |source|
      modifies this`current
      ensures Valid()
      ensures c == source[old(current)] && current == old(current) + 1
    {
      c := source[current];
      current := current + 1;
    }

    /** `add_token`: pushes the token whose lexeme is `source[start..current]`. */
    method AddToken(kind: TokenType, literal: Option<Object>)
      requires Valid()
      modifies this`tokens
      ensures tokens == old(tokens) + [Token(kind, source[start..current], literal, line)]
    {
      tokens := tokens + [Token(kind, source[start..current], literal, line)];
    }

    /** `is_match`: consumes `expected` when it is under the cursor. As
        written, `source[current]` is read before the end test, so at the end
        of input it panics; corrected, it reports no match there. */
    method IsMatch(expected: char) returns (r: Result<bool, Fault>)
      requires Valid()
      modifies this`current
      ensures Valid()
      ensures old(current) == |source| ==>
        current == old(current) && r == if rule == AsWritten then Failure(IndexPanic) else Success(false)
      ensures old(current) < |source| ==>
        r == Success(source[old(current)] == expected)
        && current == if source[old(current)] == expected then old(current) + 1 else old(current)
    {
      if current >= |source| {
        if rule == AsWritten {
          return Failure(IndexPanic);
        }
        return Success(false);
      }
      if source[current] != expected {
        return Success(false);
      }
      current := current + 1;
      return Success(true);
    }

    /** The loop of `string`: runs to the closing quote or the end of the
        input, adding one to the line for every newline it passes. */
    method SkipToQuote()
      requires Valid()
      modifies this`current, this`line
      ensures Valid()
      ensures current == Span(source, old(current), NotQuote)
      ensures line == old(line) + Newlines(source[old(current)..current])
    {
      ghost var e := Span(source, current, NotQuote);
      while Peek() != '"' && !IsAtEnd()
        invariant Valid() && old(current) <= current <= e
        invariant Span(source, current, NotQuote) == e
        invariant line == old(line) + Newlines(source[old(current)..current])
        decreases |source| - current
      {
        NewlinesExtend(source, old(current), current);
        if Peek() == '\n' {
          line := line + 1;
        }
        var c := Advance();
        assert line == old(line) + Newlines(source[old(current)..current - 1]) + if c == '\n' then 1 else 0;
      }
    }

    /** `string`, after the opening quote: runs to the closing quote,
        counting newlines, and returns the text between the quotes, or
        "Unterminated string" when the input ends first. */
    method String() returns (r: Result<Object, Fault>)
      requires Valid() && start + 1 == current
      modifies this`current, this`line
      ensures Valid()
      ensures var e := Span(source, old(current), NotQuote);
        if e == |source| then
          r == Failure(Lox(ErrorAt(UnterminatedString)))
        else
          && r == Success(Str(source[old(current)..e]))
          && current == e + 1
          && line == old(line) + Newlines(source[old(current)..e])
    {
      SkipToQuote();
      if IsAtEnd() {
        return Failure(Lox(ErrorAt(UnterminatedString)));
      }
      var _ := Advance();
      r := Success(Str(source[start + 1..current - 1]));
    }

    /** `number`, after the first digit: the digit run, then a `.` and a
        second digit run only when a digit follows the `.`. The text always
        parses as a number, so the parse-failure path is not reached. */
    method Number() returns (o: Object)
      requires Valid() && start + 1 == current
      modifies this`current
      ensures Valid()
      ensures current == NumberEnd(source, old(current)) && o == Num(source[start..current])
    {
      ghost var d := Span(source, current, IsDigit);
      while IsDigit(Peek())
        invariant Valid() && old(current) <= current <= d
        invariant Span(source, current, IsDigit) == d
        decreases |source| - current
      {
        var _ := Advance();
      }
      assert current == d;
      assert NumberEnd(source, old(current))
        == if PeekAt(source, d) == '.' && IsDigit(PeekAt(source, d + 1)) then Span(source, d + 1, IsDigit) else d;
      if Peek() == '.' && IsDigit(PeekNext()) {
        var _ := Advance();
        ghost var f := Span(source, current, IsDigit);
        while IsDigit(Peek())
          invariant Valid() && d + 1 <= current <= f
          invariant Span(source, current, IsDigit) == f
          decreases |source| - current
        {
          var _ := Advance();
        }
        assert current == f == Span(source, d + 1, IsDigit);
      }
      o := Num(source[start..current]);
    }

    /** `divider`: a second `ch` makes a comment, skipped up to the next
        newline (Unknown); anything else is a Slash. */
    method Divider(ch: char) returns (r: Result<TokenType, Fault>)
      requires Valid()
      modifies this`current
      ensures Valid()
      ensures old(current) == |source| ==>
        current == old(current) && r == if rule == AsWritten then Failure(IndexPanic) else Success(Slash)
      ensures old(current) < |source| && source[old(current)] == ch ==>
        r == Success(Unknown) && current == Span(source, old(current) + 1, NotNewline)
      ensures old(current) < |source| && source[old(current)] != ch ==>
        r == Success(Slash) && current == old(current)
    {
      var matched :- IsMatch(ch);
      if matched {
        ghost var e := Span(source, current, NotNewline);
        while Peek() != '\n' && !IsAtEnd()
          invariant Valid() && old(current) < current
          invariant Span(source, current, NotNewline) == e
          decreases |source| - current
        {
          var _ := Advance();
        }
        return Success(Unknown);
      }
      return Success(Slash);
    }

    /** `identifier(c)`, after the first character `c`. As written the loop
        continues while the peeked character is alphanumeric or `c` is `_`,
        so a word starting with `_` advances past the end and panics;
        corrected, it continues while the peeked character is alphanumeric
        or `_`. The word is looked up in the keyword table. */
    method Identifier(c: char) returns (r: Result<TokenType, Fault>)
      requires Valid() && start + 1 == current
      modifies this`current
      ensures Valid()
      ensures rule == AsWritten && c == '_' ==> r == Failure(IndexPanic)
      ensures !(rule == AsWritten && c == '_') ==>
        && current == (if rule == AsWritten then Span(source, old(current), IsAlphaNumeric)
                       else Span(source, old(current), IsWordChar))
        && r == Success(if Keyword(source[start..current]).Some? then Keyword(source[start..current]).value
                        else TokenType.Identifier)
    {
      ghost var e := if rule == AsWritten then Span(source, current, IsAlphaNumeric) else Span(source, current, IsWordChar);
      while IsAlphaNumeric(Peek()) || (rule == AsWritten && c == '_') || (rule == Corrected && Peek() == '_')
        invariant Valid() && old(current) <= current
        invariant !(rule == AsWritten && c == '_') ==>
          e == if rule == AsWritten then Span(source, current, IsAlphaNumeric) else Span(source, current, IsWordChar)
        decreases |source| - current
      {
        if IsAtEnd() {
          return Failure(IndexPanic);
        }
        var _ := Advance();
      }
      var text := source[start..current];
      match Keyword(text)
      case Some(kind) => return Success(kind);
      case None => return Success(TokenType.Identifier);
    }

    /** `scan_token`: one step from `start == current`, as ScanTokenAt says:
        the kind and literal, with `current` and `line` moved on. */
    method ScanToken() returns (r: Result<(TokenType, Option<Object>), Fault>)
      requires Valid() && start == current < |source|
      modifies this`current, this`line
      ensures Valid()
      ensures var spec := ScanTokenAt(rule, source, old(current), old(line));
        match spec
        case Success(lexed) =>
          r == Success((lexed.kind, lexed.literal)) && current == lexed.next && line == lexed.line
        case Failure(f) => r == Failure(f)
    {
      var c := Advance();
      if c == ' ' || c == '\t' || c == '\r' {
        return Success((Unknown, None));
      } else if c == '\n' {
        line := line + 1;
        return Success((Unknown, None));
      } else if SingleCharKind(c).Some? {
        return Success((SingleCharKind(c).value, None));
      } else if OperatorKinds(c).Some? {
        var (one, two) := OperatorKinds(c).value;
        var matched :- IsMatch('=');
        return Success((if matched then two else one, None));
      } else if c == '"' {
        var s :- String();
        return Success((TokenType.String, Some(s)));
      } else if IsDigit(c) {
        var n := Number();
        return Success((TokenType.Number, Some(n)));
      } else if c == '/' {
        var kind :- Divider('/');
        return Success((kind, None));
      } else if IsAlpha(c) || c == '_' {
        var kind :- Identifier(c);
        return Success((kind, None));
      } else {
        return Failure(Lox(ErrorAt(UnexpectedCharacter)));
      }
    }

    /** `scan_tokens`: steps until the end of input, pushing every token
        that is not Unknown, stops at the first failure, and pushes
        `Token::eof(line)` at the end. The result is the reference scan from
        the state the call starts in. */
    method ScanTokens() returns (r: Result<seq<Token>, Fault>)
      requires Valid()
      modifies this
      ensures Valid()
      ensures r == ScanFrom(rule, source, old(current), old(line), old(tokens))
      ensures r.Success? ==> tokens == r.value
      ensures r.Success? ==> current == |source| && line == old(line) + Newlines(source[old(current)..])
      ensures old(start) <= start && old(current) <= current
    {
      while !IsAtEnd()
        invariant Valid() && old(start) <= start && old(current) <= current
        invariant ScanFrom(rule, source, current, line, tokens) == ScanFrom(rule, source, old(current), old(line), old(tokens))
        decreases |source| - current
      {
        start := current;
        var step := ScanToken();
        if step.Failure? {
          return Failure(step.error);
        }
        var (kind, literal) := step.value;
        if kind != Unknown {
          AddToken(kind, literal);
        }
      }
      ScanLaws.LineAtEnd(rule, source, old(current), old(line), old(tokens), line, tokens);
      tokens := tokens + [EofToken(line)];
      r := Success(tokens);
    }
  }

  /** `Scanner::new(source).scan_tokens()`, as `run` in src/main.rs calls
      it: the reference scan of the whole source. */
  method Tokenize(source: string, rule: Rule) returns (r: Result<seq<Token>, Fault>)
    ensures r == Scan(rule, source)
  {
    var scanner := new Scanner(source, rule);
    r := scanner.ScanTokens();
  }
}
