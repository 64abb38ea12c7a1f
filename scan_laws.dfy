/** What the reference lexer of module ScanSpec promises: the shape of a
    scanned token list, line counting, the rule for each kind of lexeme,
    the error cases, and how the corrected reading relates to the code as
    written. */
module ScanLaws {
  import opened Wrappers
  import opened Errors
  import opened Variant
  import opened TokenTypes
  import opened Tokens
  import opened Lexicon
  import opened ScanSpec

  lemma {:induction false} NoNewlines(s: string)
    requires forall k :: 0 <= k < |s| ==> s[k] != '\n'
    ensures Newlines(s) == 0
  {
    if s != [] {
      NoNewlines(s[..|s| - 1]);
    }
  }

  /** Newlines counts the newline characters: it is their multiplicity. */
  lemma {:induction false} NewlinesCounts(s: string)
    ensures Newlines(s) == multiset(s)['\n']
  {
    if s != [] {
      NewlinesCounts(s[..|s| - 1]);
      assert s == s[..|s| - 1] + [s[|s| - 1]];
      assert multiset(s) == multiset(s[..|s| - 1]) + multiset{s[|s| - 1]};
    }
  }

  lemma NewlinesSplit(s: string, k: nat)
    requires k <= |s|
    ensures Newlines(s) == Newlines(s[..k]) + Newlines(s[k..])
  {
    NewlinesCounts(s);
    NewlinesCounts(s[..k]);
    NewlinesCounts(s[k..]);
    assert s == s[..k] + s[k..];
  }

  /** The newlines of a suffix of src split at any later cursor. */
  lemma NewlinesSuffixSplit(src: string, i: nat, j: nat)
    requires i <= j <= |src|
    ensures Newlines(src[i..]) == Newlines(src[i..j]) + Newlines(src[j..])
  {
    NewlinesSplit(src[i..], j - i);
    assert src[i..][..j - i] == src[i..j];
    assert src[i..][j - i..] == src[j..];
  }

  lemma NewlinesEmptySuffix(src: string, i: nat)
    requires i == |src|
    ensures Newlines(src[i..]) == 0
  {
    assert src[i..] == [];
  }

  /** The quotes around a string literal hold no newline. */
  lemma NewlinesBetweenQuotes(text: string, inner: string)
    requires text == ['"'] + inner + ['"']
    ensures Newlines(text) == Newlines(inner)
  {
    NewlinesCounts(text);
    NewlinesCounts(inner);
  }

  /** One step moves `line` on by exactly the newlines of the text it
      consumed: a `\n` outside a string, or those inside a string literal;
      a comment stops before its newline. */
  lemma StepLines(rule: Rule, src: string, i: nat, line: nat)
    requires i < |src| && ScanTokenAt(rule, src, i, line).Success?
    ensures ScanTokenAt(rule, src, i, line).value.line == line + Newlines(src[i..ScanTokenAt(rule, src, i, line).value.next])
  {
    var lexed := ScanTokenAt(rule, src, i, line).value;
    var text := src[i..lexed.next];
    var c := src[i];
    if c == '\n' {
      assert text == ['\n'];
    } else if c == '"' {
      var e := lexed.next - 1;
      assert text == [c] + src[i + 1..e] + [src[e]];
      assert src[e] == '"';
      NewlinesBetweenQuotes(text, src[i + 1..e]);
    } else {
      StepKeepsLine(rule, src, i, line);
      NoNewlines(text);
    }
  }

  /** Outside newlines and strings, a step reads no newline and keeps the line. */
  lemma StepKeepsLine(rule: Rule, src: string, i: nat, line: nat)
    requires i < |src| && ScanTokenAt(rule, src, i, line).Success?
    requires src[i] != '\n' && src[i] != '"'
    ensures var lexed := ScanTokenAt(rule, src, i, line).value;
      lexed.line == line && forall k :: i <= k < lexed.next ==> src[k] != '\n'
  {
    var lexed := ScanTokenAt(rule, src, i, line).value;
    var c := src[i];
    forall k | i < k < lexed.next ensures src[k] != '\n' {
      if IsDigit(c) {
        var d := Span(src, i + 1, IsDigit);
        assert k < d || src[k] == '.' || IsDigit(src[k]);
      }
    }
  }

  /** One successful turn of the `scan_tokens` loop seen from outside: the
      cursor moves on, the line grows by the newlines read, and at most one
      token is pushed, which is neither Eof nor Unknown. */
  lemma ScanFromNext(rule: Rule, src: string, i: nat, line: nat, acc: seq<Token>)
      returns (next: nat, line': nat, acc': seq<Token>)
    requires i < |src| && ScanFrom(rule, src, i, line, acc).Success?
    ensures i < next <= |src| && ScanFrom(rule, src, next, line', acc') == ScanFrom(rule, src, i, line, acc)
    ensures line' == line + Newlines(src[i..next])
    ensures |acc| <= |acc'| <= |acc| + 1 && acc'[..|acc|] == acc
    ensures forall k :: |acc| <= k < |acc'| ==> acc'[k].kind != Eof && acc'[k].kind != Unknown
  {
    var lexed := ScanTokenAt(rule, src, i, line).value;
    next, line' := lexed.next, lexed.line;
    acc' := if lexed.kind == Unknown then acc else acc + [Emitted(src, i, lexed)];
    ScanFromStep(rule, src, i, line, acc, lexed);
    StepLines(rule, src, i, line);
  }

  /** The loop from cursor i only appends to what was already pushed, and
      appends at least the Eof token. */
  lemma {:induction false} ScanFromKeepsPushed(rule: Rule, src: string, i: nat, line: nat, acc: seq<Token>)
    requires i <= |src| && ScanFrom(rule, src, i, line, acc).Success?
    ensures var ts := ScanFrom(rule, src, i, line, acc).value;
      |ts| > |acc| && ts[..|acc|] == acc
    decreases |src| - i
  {
    if i < |src| {
      var next, line', acc' := ScanFromNext(rule, src, i, line, acc);
      ScanFromKeepsPushed(rule, src, next, line', acc');
      var ts := ScanFrom(rule, src, i, line, acc).value;
      assert ts[..|acc|] == ts[..|acc'|][..|acc|];
    }
  }

  /** The last token of the loop from cursor i is Eof, on the starting
      line plus the newlines still to read. */
  lemma {:induction false} ScanFromEofLine(rule: Rule, src: string, i: nat, line: nat, acc: seq<Token>)
    requires i <= |src| && ScanFrom(rule, src, i, line, acc).Success?
    ensures var ts := ScanFrom(rule, src, i, line, acc).value;
      |ts| > 0 && ts[|ts| - 1] == EofToken(line + Newlines(src[i..]))
    decreases |src| - i
  {
    if i < |src| {
      var next, line', acc' := ScanFromNext(rule, src, i, line, acc);
      ScanFromEofLine(rule, src, next, line', acc');
      EofLineShift(ScanFrom(rule, src, next, line', acc').value, src, i, next, line, line');
    } else {
      ScanFromEnd(rule, src, line, acc);
      NewlinesEmptySuffix(src, i);
    }
  }

  /** An Eof on the line reached after `src[i..next]` is on the starting
      line plus the newlines of `src[i..]`. */
  lemma EofLineShift(ts: seq<Token>, src: string, i: nat, next: nat, line: nat, line': nat)
    requires i <= next <= |src| && line' == line + Newlines(src[i..next])
    requires |ts| > 0 && ts[|ts| - 1] == EofToken(line' + Newlines(src[next..]))
    ensures ts[|ts| - 1] == EofToken(line + Newlines(src[i..]))
  {
    NewlinesSuffixSplit(src, i, next);
  }

  /** The loop from cursor i pushes no Eof and no Unknown token before its
      last one. */
  lemma {:induction false} ScanFromKinds(rule: Rule, src: string, i: nat, line: nat, acc: seq<Token>)
    requires i <= |src| && ScanFrom(rule, src, i, line, acc).Success?
    ensures var ts := ScanFrom(rule, src, i, line, acc).value;
      forall k :: |acc| <= k < |ts| - 1 ==> ts[k].kind != Eof && ts[k].kind != Unknown
    decreases |src| - i
  {
    if i < |src| {
      var next, line', acc' := ScanFromNext(rule, src, i, line, acc);
      ScanFromKinds(rule, src, next, line', acc');
      ScanFromKeepsPushed(rule, src, next, line', acc');
      var ts := ScanFrom(rule, src, i, line, acc).value;
      forall k | |acc| <= k < |acc'|
        ensures ts[k].kind != Eof && ts[k].kind != Unknown
      {
        assert ts[k] == ts[..|acc'|][k];
      }
    }
  }

  /** `scan_tokens`: a successful scan returns a list whose only Eof token
      is the last one, carrying the line count 1 + the number of newlines
      in the source, and which holds no Unknown token. */
  lemma ScanEndsWithEof(rule: Rule, src: string)
    requires Scan(rule, src).Success?
    ensures var ts := Scan(rule, src).value;
      |ts| >= 1 && ts[|ts| - 1] == EofToken(1 + Newlines(src))
      && forall k :: 0 <= k < |ts| - 1 ==> ts[k].kind != Eof && ts[k].kind != Unknown
  {
    ScanFromEofLine(rule, src, 0, 1, []);
    ScanFromKinds(rule, src, 0, 1, []);
    assert src[0..] == src;
  }

  /** `!`, `=`, `<`, `>`: followed by `=` they consume two characters and
      yield the two-character kind, followed by anything else one character
      and the one-character kind; as the last character they panic as
      written and yield the one-character kind when corrected. */
  lemma OperatorLexing(rule: Rule, src: string, i: nat, line: nat)
    requires i < |src| && OperatorKinds(src[i]).Some?
    ensures var (one, two) := OperatorKinds(src[i]).value;
      ScanTokenAt(rule, src, i, line) ==
        if i + 1 < |src| && src[i + 1] == '=' then Success(Lexed(two, None, i + 2, line))
        else if i + 1 < |src| || rule == Corrected then Success(Lexed(one, None, i + 1, line))
        else Failure(IndexPanic)
  {
  }

  /** A string literal's value is the text strictly between its quotes,
      which holds no quote; without a closing quote the step fails with
      "Unterminated string". */
  lemma StringLexing(rule: Rule, src: string, i: nat, line: nat)
    requires i < |src| && src[i] == '"'
    ensures var r := ScanTokenAt(rule, src, i, line);
      && (r.Success? <==> '"' in src[i + 1..])
      && (r.Failure? ==> r.error == Lox(ErrorAt(UnterminatedString)))
      && (r.Success? ==>
            && r.value.kind == String
            && src[r.value.next - 1] == '"'
            && r.value.literal == Some(Str(src[i + 1..r.value.next - 1]))
            && '"' !in src[i + 1..r.value.next - 1])
  {
    var e := Span(src, i + 1, NotQuote);
    if e < |src| {
      assert src[i + 1..][e - i - 1] == '"';
    } else {
      var rest := src[i + 1..];
      forall k | 0 <= k < |rest| ensures rest[k] != '"' {
        assert rest[k] == src[i + 1 + k];
      }
    }
  }

  predicate Digits(t: string) {
    |t| > 0 && forall k :: 0 <= k < |t| ==> IsDigit(t[k])
  }

  /** A number's text: a digit run, then optionally `.` and a second digit
      run. */
  predicate NumberText(t: string) {
    Digits(t) || exists p :: 0 < p < |t| && t[p] == '.' && Digits(t[..p]) && Digits(t[p + 1..])
  }

  lemma NumberStep(rule: Rule, src: string, i: nat, line: nat)
    requires i < |src| && IsDigit(src[i])
    ensures ScanTokenAt(rule, src, i, line) == Success(Lexed(Number, Some(Num(src[i..NumberEnd(src, i + 1)])), NumberEnd(src, i + 1), line))
  {
    assert SingleCharKind(src[i]).None? && OperatorKinds(src[i]).None?;
  }

  lemma NumberEndShape(src: string, i: nat)
    requires i < |src| && IsDigit(src[i])
    ensures var e := NumberEnd(src, i + 1);
      && NumberText(src[i..e])
      && (e < |src| ==> !IsDigit(src[e]))
      && (e < |src| && src[e] == '.' && '.' !in src[i..e] ==> !IsDigit(PeekAt(src, e + 1)))
  {
    var d := Span(src, i + 1, IsDigit);
    var e := NumberEnd(src, i + 1);
    var t := src[i..e];
    assert Digits(src[i..d]);
    if e == d {
      assert forall k :: i <= k < d ==> IsDigit(src[k]);
    } else {
      assert t[d - i] == '.' && t[..d - i] == src[i..d] && t[d - i + 1..] == src[d + 1..e];
      assert Digits(src[d + 1..e]);
    }
  }

  /** A letter, or `_`, starts a word. As written, `_` panics (the loop
      runs to the end of the buffer and indexes past it) and a word is a
      maximal run of letters and digits; corrected, a word is a maximal run
      of letters, digits and `_`. A word that spells a keyword gets that
      keyword's kind, any other word is an Identifier; words carry no
      literal. */
  lemma WordLexing(rule: Rule, src: string, i: nat, line: nat)
    requires i < |src| && (IsAlpha(src[i]) || src[i] == '_')
    ensures var r := ScanTokenAt(rule, src, i, line);
      if rule == AsWritten && src[i] == '_' then r == Failure(IndexPanic)
      else
        && r.Success? && r.value.literal == None && r.value.line == line
        && var w := src[i..r.value.next];
           && (forall k :: i < k < r.value.next ==> if rule == AsWritten then IsAlphaNumeric(src[k]) else IsWordChar(src[k]))
           && (r.value.next < |src| ==> !(if rule == AsWritten then IsAlphaNumeric(src[r.value.next]) else IsWordChar(src[r.value.next])))
           && ((r.value.kind == Identifier && Keyword(w) == None)
               || (Group(r.value.kind) == KeywordGroup && Spelling(r.value.kind) == w))
  {
    var c := src[i];
    assert SingleCharKind(c).None? && OperatorKinds(c).None?;
    if !(rule == AsWritten && c == '_') {
      var r := ScanTokenAt(rule, src, i, line);
      var w := src[i..r.value.next];
      if Keyword(w).Some? {
        KeywordTable(w, Keyword(w).value);
      }
    }
  }

  /** A `//` comment runs up to, and not including, the next newline or the
      end of input, and emits nothing. */
  lemma CommentLexing(rule: Rule, src: string, i: nat, line: nat)
    requires i + 1 < |src| && src[i] == '/' && src[i + 1] == '/'
    ensures var r := ScanTokenAt(rule, src, i, line);
      && r.Success? && r.value.kind == Unknown && r.value.line == line
      && '\n' !in src[i..r.value.next]
      && (r.value.next == |src| || src[r.value.next] == '\n')
  {
    var r := ScanTokenAt(rule, src, i, line);
    var text := src[i..r.value.next];
    forall k | 0 <= k < |text| ensures text[k] != '\n' {
      assert text[k] == src[i + k];
    }
  }

  /** The characters `scan_token` has a rule for. */
  predicate Recognized(c: char) {
    c == ' ' || c == '\t' || c == '\r' || c == '\n' || SingleCharKind(c).Some? || OperatorKinds(c).Some?
    || c == '"' || IsDigit(c) || c == '/' || IsAlpha(c) || c == '_'
  }

  /** A step emits nothing exactly on whitespace, a newline or a comment. */
  lemma SilentLexing(rule: Rule, src: string, i: nat, line: nat)
    requires i < |src|
    ensures var r := ScanTokenAt(rule, src, i, line);
      r.Success? && r.value.kind == Unknown
      <==> src[i] in {' ', '\t', '\r', '\n'} || (src[i] == '/' && i + 1 < |src| && src[i + 1] == '/')
  {
    var c := src[i];
    if IsAlpha(c) || c == '_' {
      WordLexing(rule, src, i, line);
    }
  }

  /** The three ways a step fails: "Unexpected character" exactly on a
      character without a rule, "Unterminated string" exactly on a quote
      with no closing quote after it, and the index panic exactly on an
      operator or slash as the last character, or on `_`, as written. */
  lemma StepFailures(rule: Rule, src: string, i: nat, line: nat)
    requires i < |src|
    ensures var r := ScanTokenAt(rule, src, i, line);
      && (r == Failure(Lox(ErrorAt(UnexpectedCharacter))) <==> !Recognized(src[i]))
      && (r == Failure(Lox(ErrorAt(UnterminatedString))) <==> src[i] == '"' && '"' !in src[i + 1..])
      && (r == Failure(IndexPanic) <==>
            rule == AsWritten && (src[i] == '_' || (i + 1 == |src| && (OperatorKinds(src[i]).Some? || src[i] == '/'))))
      && (r.Failure? ==> r.error in {Lox(ErrorAt(UnexpectedCharacter)), Lox(ErrorAt(UnterminatedString)), IndexPanic})
  {
    var c := src[i];
    if c == '"' {
      StringLexing(rule, src, i, line);
    } else if IsAlpha(c) || c == '_' {
      WordLexing(rule, src, i, line);
    }
  }

  /** With the corrected `is_match` and identifier loop, scanning never
      reads past the end of the buffer: it returns tokens or a LoxError. */
  lemma {:induction false} CorrectedNeverPanics(src: string, i: nat, line: nat, acc: seq<Token>)
    requires i <= |src|
    ensures ScanFrom(Corrected, src, i, line, acc) != Failure(IndexPanic)
    decreases |src| - i
  {
    if i < |src| && ScanTokenAt(Corrected, src, i, line).Success? {
      var lexed := ScanTokenAt(Corrected, src, i, line).value;
      var acc' := if lexed.kind == Unknown then acc else acc + [Emitted(src, i, lexed)];
      CorrectedNeverPanics(src, lexed.next, lexed.line, acc');
    }
  }

  lemma {:induction false} SpanAgrees(src: string, i: nat, p: char -> bool, q: char -> bool)
    requires i <= |src|
    requires forall k :: i <= k < Span(src, i, p) ==> q(src[k])
    requires Span(src, i, p) == |src| || !q(src[Span(src, i, p)])
    ensures Span(src, i, q) == Span(src, i, p)
    decreases |src| - i
  {
    if i < |src| && p(src[i]) {
      SpanAgrees(src, i + 1, p, q);
    }
  }

  /** Where the step as written succeeds and is not followed by `_` (which
      would panic next), the corrected step does the same. */
  lemma StepAgrees(src: string, i: nat, line: nat)
    requires i < |src| && ScanTokenAt(AsWritten, src, i, line).Success?
    requires var n := ScanTokenAt(AsWritten, src, i, line).value.next; n < |src| ==> src[n] != '_'
    ensures ScanTokenAt(Corrected, src, i, line) == ScanTokenAt(AsWritten, src, i, line)
  {
    var c := src[i];
    if IsAlpha(c) {
      assert SingleCharKind(c).None? && OperatorKinds(c).None?;
      SpanAgrees(src, i + 1, IsAlphaNumeric, IsWordChar);
    }
  }

  /** A step that fails as written without panicking (an unexpected
      character or an unclosed string) fails the same way corrected. */
  lemma StepFailureAgrees(src: string, i: nat, line: nat)
    requires i < |src| && ScanTokenAt(AsWritten, src, i, line).Failure?
    requires ScanTokenAt(AsWritten, src, i, line).error != IndexPanic
    ensures ScanTokenAt(Corrected, src, i, line) == ScanTokenAt(AsWritten, src, i, line)
  {
    var c := src[i];
    assert !IsAlpha(c) && SingleCharKind(c).None? && OperatorKinds(c).None?;
  }

  /** The correction changes only the inputs the code as written panics
      on: wherever the scan as written does not panic, the corrected scan
      returns the same tokens, or fails with the same error. */
  lemma {:induction false} CorrectedAgreesFrom(src: string, i: nat, line: nat, acc: seq<Token>)
    requires i <= |src| && ScanFrom(AsWritten, src, i, line, acc) != Failure(IndexPanic)
    ensures ScanFrom(Corrected, src, i, line, acc) == ScanFrom(AsWritten, src, i, line, acc)
    decreases |src| - i
  {
    if i < |src| {
      var step := ScanTokenAt(AsWritten, src, i, line);
      if step.Failure? {
        StepFailureAgrees(src, i, line);
      } else {
        var lexed := step.value;
        var acc' := if lexed.kind == Unknown then acc else acc + [Emitted(src, i, lexed)];
        assert ScanFrom(AsWritten, src, i, line, acc) == ScanFrom(AsWritten, src, lexed.next, lexed.line, acc');
        StepAgrees(src, i, line);
        CorrectedAgreesFrom(src, lexed.next, lexed.line, acc');
      }
    }
  }

  /** A scan that has reached the end of the source has added to `line`
      exactly the newlines it read. */
  lemma LineAtEnd(rule: Rule, src: string, i: nat, line: nat, acc: seq<Token>, line': nat, acc': seq<Token>)
    requires i <= |src| && ScanFrom(rule, src, |src|, line', acc') == ScanFrom(rule, src, i, line, acc)
    ensures line' == line + Newlines(src[i..])
  {
    ScanFromEofLine(rule, src, i, line, acc);
  }

  /** One turn of the `scan_tokens` loop. */
  lemma ScanFromStep(rule: Rule, src: string, i: nat, line: nat, acc: seq<Token>, lexed: Lexed)
    requires i < |src| && ScanTokenAt(rule, src, i, line) == Success(lexed)
    ensures ScanFrom(rule, src, i, line, acc)
         == ScanFrom(rule, src, lexed.next, lexed.line, if lexed.kind == Unknown then acc else acc + [Emitted(src, i, lexed)])
  {
  }

  /** The end of the `scan_tokens` loop. */
  lemma ScanFromEnd(rule: Rule, src: string, line: nat, acc: seq<Token>)
    ensures ScanFrom(rule, src, |src|, line, acc) == Success(acc + [EofToken(line)])
  {
  }

  /** A single-character lexeme is one token of its kind. */
  lemma SingleCharStep(rule: Rule, src: string, i: nat, line: nat)
    requires i < |src| && SingleCharKind(src[i]).Some?
    ensures ScanTokenAt(rule, src, i, line) == Success(Lexed(SingleCharKind(src[i]).value, None, i + 1, line))
  {
  }

  lemma TrailingDotNumber(rule: Rule, src: string)
    requires src == "123."
    ensures ScanTokenAt(rule, src, 0, 1) == Success(Lexed(Number, Some(Num("123")), 3, 1))
  {
    assert |src| == 4;
    assert Span(src, 1, IsDigit) == 3 by {
      assert Span(src, 3, IsDigit) == 3;
      assert Span(src, 2, IsDigit) == 3;
    }
    assert PeekAt(src, 3) == '.' && !IsDigit(PeekAt(src, 4));
    assert NumberEnd(src, 1) == 3;
    NumberStep(rule, src, 0, 1);
    assert src[0..3] == "123";
  }

  /** `123.`: the `.` is not followed by a digit, so it is not part of the
      number; it scans as a Dot of its own. */
  lemma TrailingDotExample(rule: Rule, src: string)
    requires src == "123."
    ensures Scan(rule, src) == Success([Token(Number, "123", Some(Num("123")), 1), Token(Dot, ".", None, 1), EofToken(1)])
  {
    var n := Lexed(Number, Some(Num("123")), 3, 1);
    TrailingDotNumber(rule, src);
    ScanFromStep(rule, src, 0, 1, [], n);
    var t1 := Token(Number, "123", Some(Num("123")), 1);
    assert src[0..3] == "123";
    assert [] + [Emitted(src, 0, n)] == [t1];
    var d := Lexed(Dot, None, 4, 1);
    assert SingleCharKind(src[3]) == Some(Dot);
    SingleCharStep(rule, src, 3, 1);
    ScanFromStep(rule, src, 3, 1, [t1], d);
    var t2 := Token(Dot, ".", None, 1);
    assert src[3..4] == ".";
    assert [t1] + [Emitted(src, 3, d)] == [t1, t2];
    ScanFromEnd(rule, src, 1, [t1, t2]);
    assert [t1, t2] + [EofToken(1)] == [t1, t2, EofToken(1)];
  }

  lemma MultilineStringSpan(src: string)
    requires src == "\"a\nb\""
    ensures Span(src, 1, NotQuote) == 4 && src[1..4] == "a\nb"
  {
    assert Span(src, 4, NotQuote) == 4;
    assert Span(src, 3, NotQuote) == 4;
    assert Span(src, 2, NotQuote) == 4;
  }

  lemma MultilineStringLines(w: string)
    requires w == "a\nb"
    ensures Newlines(w) == 1
  {
    NewlinesSnoc([], 'a');
    NewlinesSnoc("a", '\n');
    NewlinesSnoc("a\n", 'b');
    assert [] + ['a'] == "a" && "a" + ['\n'] == "a\n" && "a\n" + ['b'] == w;
  }

  lemma MultilineStringToken(rule: Rule, src: string)
    requires src == "\"a\nb\""
    ensures ScanTokenAt(rule, src, 0, 1) == Success(Lexed(String, Some(Str("a\nb")), 5, 2))
  {
    MultilineStringSpan(src);
    MultilineStringLines(src[1..4]);
    assert |src| == 5 && src[0] == '"';
  }

  /** A newline inside a string literal counts: the token and Eof are on
      line 2. */
  lemma MultilineStringExample(rule: Rule, src: string)
    requires src == "\"a\nb\""
    ensures Scan(rule, src) == Success([Token(String, "\"a\nb\"", Some(Str("a\nb")), 2), EofToken(2)])
  {
    var l := Lexed(String, Some(Str("a\nb")), 5, 2);
    MultilineStringToken(rule, src);
    ScanFromStep(rule, src, 0, 1, [], l);
    var t := Token(String, "\"a\nb\"", Some(Str("a\nb")), 2);
    assert src[0..5] == src;
    assert [] + [Emitted(src, 0, l)] == [t];
    ScanFromEnd(rule, src, 2, [t]);
    assert [t] + [EofToken(2)] == [t, EofToken(2)];
  }

  /** `!` as the last character: an index panic as written, a Bang token
      when corrected. */
  lemma OperatorAtEndExample(src: string)
    requires src == "!"
    ensures Scan(AsWritten, src) == Failure(IndexPanic)
    ensures Scan(Corrected, src) == Success([Token(Bang, "!", None, 1), EofToken(1)])
  {
    var l := Lexed(Bang, None, 1, 1);
    OperatorLexing(Corrected, src, 0, 1);
    OperatorLexing(AsWritten, src, 0, 1);
    ScanFromStep(Corrected, src, 0, 1, [], l);
    var t := Emitted(src, 0, l);
    assert [] + [t] == [t];
    assert ScanFrom(Corrected, src, 0, 1, []) == ScanFrom(Corrected, src, 1, 1, [t]);
    ScanFromEnd(Corrected, src, 1, [t]);
    assert |src| == 1;
    assert [t] + [EofToken(1)] == [t, EofToken(1)];
    assert ScanFrom(Corrected, src, 1, 1, [t]) == Success([t, EofToken(1)]);
    assert src[0..1] == "!";
    assert t == Token(Bang, "!", None, 1);
  }

  /** `a_b`: as written `a` is a word of its own and `_` then panics; when
      corrected it is the single identifier `a_b`. */
  lemma UnderscoreExample(src: string)
    requires src == "a_b"
    ensures Scan(AsWritten, src) == Failure(IndexPanic)
    ensures Scan(Corrected, src) == Success([Token(Identifier, "a_b", None, 1), EofToken(1)])
  {
    assert |src| == 3;
    assert Span(src, 1, IsAlphaNumeric) == 1;
    assert src[0..1] == "a";
    assert Keyword("a") == None;
    var a := Lexed(Identifier, None, 1, 1);
    assert ScanTokenAt(AsWritten, src, 0, 1) == Success(a);
    ScanFromStep(AsWritten, src, 0, 1, [], a);
    assert ScanTokenAt(AsWritten, src, 1, 1) == Failure(IndexPanic);
    assert Span(src, 1, IsWordChar) == 3 by {
      assert Span(src, 3, IsWordChar) == 3;
      assert Span(src, 2, IsWordChar) == 3;
    }
    assert src[0..3] == src;
    assert Keyword(src) == None;
    var w := Lexed(Identifier, None, 3, 1);
    assert ScanTokenAt(Corrected, src, 0, 1) == Success(w);
    ScanFromStep(Corrected, src, 0, 1, [], w);
    var t := Token(Identifier, "a_b", None, 1);
    assert Emitted(src, 0, w) == t;
    assert [] + [t] == [t];
    ScanFromEnd(Corrected, src, 1, [t]);
    assert [t] + [EofToken(1)] == [t, EofToken(1)];
  }

  /** The corrected scanner never panics. */
  lemma CorrectedScanNeverPanics(src: string)
    ensures Scan(Corrected, src) != Failure(IndexPanic)
  {
    CorrectedNeverPanics(src, 0, 1, []);
  }

  /** Wherever the scanner as written does not panic, the corrected one
      returns the same tokens, or fails with the same error. */
  lemma CorrectedScanAgrees(src: string)
    requires Scan(AsWritten, src) != Failure(IndexPanic)
    ensures Scan(Corrected, src) == Scan(AsWritten, src)
  {
    CorrectedAgreesFrom(src, 0, 1, []);
  }
}
