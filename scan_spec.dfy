/** A reference lexer: what one call of `Scanner::scan_token` and the
    whole `Scanner::scan_tokens` loop (src/scanner.rs) compute, as
    functions of the source text and the cursor. The `Scanner` class in
    module Scanning is proved against these functions. */
module ScanSpec {
  import opened Wrappers
  import opened Errors
  import opened Variant
  import opened TokenTypes
  import opened Tokens
  import opened Lexicon

  /** How a scan stops short: with the scanner's own error value, or with
      the out-of-bounds panic of indexing `source[current]` past the end. */
  datatype Fault = Lox(error: LoxError) | IndexPanic

  predicate IsAlpha(c: char) {
    'a' <= c <= 'z' || 'A' <= c <= 'Z'
  }

  predicate IsAlphaNumeric(c: char) {
    IsAlpha(c) || IsDigit(c)
  }

  /** What the identifier loop continues on once `_` is tested on the
      peeked character rather than on the first one. */
  predicate IsWordChar(c: char) {
    IsAlphaNumeric(c) || c == '_'
  }

  predicate NotQuote(c: char) {
    c != '"'
  }

  predicate NotNewline(c: char) {
    c != '\n'
  }

  /** `peek` at position i (and `peek_next` at i + 1): the character there,
      or `'\0'` past the end. */
  function PeekAt(src: string, i: nat): char {
    if i < |src| then src[i] else '\0'
  }

  /** The number of newline characters in s. */
  function Newlines(s: string): nat {
    if s == [] then 0 else Newlines(s[..|s| - 1]) + if s[|s| - 1] == '\n' then 1 else 0
  }

  /** Reading one more character adds one line exactly when it is a newline. */
  lemma NewlinesSnoc(s: string, c: char)
    ensures Newlines(s + [c]) == Newlines(s) + if c == '\n' then 1 else 0
  {
    assert (s + [c])[..|s|] == s;
  }
  /** Extending a slice of src by one character adds one newline exactly
      when that character is one. */
  lemma NewlinesExtend(src: string, a: nat, b: nat)
    requires a <= b < |src|
    ensures Newlines(src[a..b + 1]) == Newlines(src[a..b]) + if src[b] == '\n' then 1 else 0
  {
    assert src[a..b + 1] == src[a..b] + [src[b]];
    NewlinesSnoc(src[a..b], src[b]);
  }


  /** The end of the longest run of characters satisfying inRun that starts
      at i: every loop of the scanner that advances while the peeked
      character qualifies stops there. */
  function Span(src: string, i: nat, inRun: char -> bool): (e: nat)
    requires i <= |src|
    ensures i <= e <= |src|
    ensures forall k :: i <= k < e ==> inRun(src[k])
    ensures e == |src| || !inRun(src[e])
    decreases |src| - i
  {
    if i < |src| && inRun(src[i]) then Span(src, i + 1, inRun) else i
  }

  /** Where a number that starts before i ends (`Scanner::number`): the
      digit run, then a `.` and a second digit run only when a digit
      follows the `.`. */
  function NumberEnd(src: string, i: nat): (e: nat)
    requires i <= |src|
    ensures i <= e <= |src|
  {
    var d := Span(src, i, IsDigit);
    if PeekAt(src, d) == '.' && IsDigit(PeekAt(src, d + 1)) then Span(src, d + 1, IsDigit) else d
  }

  /** The outcome of one `scan_token` call that starts at position i: the
      kind (Unknown for what emits no token), the literal, and the new
      `current` and `line`. */
  datatype Lexed = Lexed(kind: TokenType, literal: Option<Object>, next: nat, line: nat)

  /** `scan_token` with `start == current == i`. Under AsWritten, an
      operator or a slash as the last character panics in `is_match`
      (src/scanner.rs:57), and so does every identifier that starts with
      `_` (its loop tests the first character, src/scanner.rs:132); under
      Corrected, `is_match` reports no match at the end and the identifier
      loop tests the peeked character for `_`. */
  function ScanTokenAt(rule: Rule, src: string, i: nat, line: nat): (r: Result<Lexed, Fault>)
    requires i < |src|
    ensures r.Success? ==> i < r.value.next <= |src| && r.value.kind != Eof
    ensures r == Failure(IndexPanic) ==> rule == AsWritten
  {
    var c := src[i];
    if c == ' ' || c == '\t' || c == '\r' then
      Success(Lexed(Unknown, None, i + 1, line))
    else if c == '\n' then
      Success(Lexed(Unknown, None, i + 1, line + 1))
    else if SingleCharKind(c).Some? then
      Success(Lexed(SingleCharKind(c).value, None, i + 1, line))
    else if OperatorKinds(c).Some? then
      var (one, two) := OperatorKinds(c).value;
      if i + 1 == |src| then
        if rule == AsWritten then Failure(IndexPanic) else Success(Lexed(one, None, i + 1, line))
      else if src[i + 1] == '=' then Success(Lexed(two, None, i + 2, line))
      else Success(Lexed(one, None, i + 1, line))
    else if c == '"' then
      var e := Span(src, i + 1, NotQuote);
      if e == |src| then Failure(Lox(ErrorAt(UnterminatedString)))
      else Success(Lexed(String, Some(Str(src[i + 1..e])), e + 1, line + Newlines(src[i + 1..e])))
    else if IsDigit(c) then
      var e := NumberEnd(src, i + 1);
      Success(Lexed(Number, Some(Num(src[i..e])), e, line))
    else if c == '/' then
      if i + 1 == |src| then
        if rule == AsWritten then Failure(IndexPanic) else Success(Lexed(Slash, None, i + 1, line))
      else if src[i + 1] == '/' then Success(Lexed(Unknown, None, Span(src, i + 2, NotNewline), line))
      else Success(Lexed(Slash, None, i + 1, line))
    else if IsAlpha(c) || c == '_' then
      if rule == AsWritten && c == '_' then Failure(IndexPanic)
      else
        var e := if rule == AsWritten then Span(src, i + 1, IsAlphaNumeric) else Span(src, i + 1, IsWordChar);
        var kind := if Keyword(src[i..e]).Some? then Keyword(src[i..e]).value else Identifier;
        Success(Lexed(kind, None, e, line))
    else
      Failure(Lox(ErrorAt(UnexpectedCharacter)))
  }

  /** The token `add_token` pushes for a step that emits one. */
  function Emitted(src: string, i: nat, lexed: Lexed): Token
    requires i <= lexed.next <= |src|
  {
    Token(lexed.kind, src[i..lexed.next], lexed.literal, lexed.line)
  }

  /** The `scan_tokens` loop from cursor i and line `line` with `acc`
      already pushed: Unknown steps push nothing, the first failure is the
      result, and the end of input pushes `Token::eof(line)`. */
  function ScanFrom(rule: Rule, src: string, i: nat, line: nat, acc: seq<Token>): Result<seq<Token>, Fault>
    requires i <= |src|
    decreases |src| - i
  {
    if i == |src| then Success(acc + [EofToken(line)])
    else
      match ScanTokenAt(rule, src, i, line)
      case Failure(f) => Failure(f)
      case Success(lexed) =>
        var acc' := if lexed.kind == Unknown then acc else acc + [Emitted(src, i, lexed)];
        ScanFrom(rule, src, lexed.next, lexed.line, acc')
  }

  /** `Scanner::new(src).scan_tokens()`. */
  function Scan(rule: Rule, src: string): Result<seq<Token>, Fault> {
    ScanFrom(rule, src, 0, 1, [])
  }
}
