/** `run` (src/main.rs:69-83): scan the source, parse one expression and
    print its tree. `Perser::parse`, which `run` calls, is not defined in
    src/perser.rs; it is taken here to be `expression` with a parse error
    giving no tree, so that nothing is printed. */
module Driver {
  import opened Wrappers
  import opened Variant
  import opened TokenTypes
  import opened Tokens
  import Ast
  import ScanSpec
  import Lexicon
  import ScanLaws
  import Scanning
  import ParseSpec
  import ParseLaws
  import Parsing
  import Printer

  /** The text `println!` writes before the tree. */
  const Banner: string := "AST Printr: \n"

  /** What `run` writes to standard output, if anything, or the scanner's
      error or panic. */
  function RunSpec(rule: Rule, src: string): (r: Result<Option<string>, ScanSpec.Fault>)
  {
    match ScanSpec.Scan(rule, src)
    case Failure(f) => Failure(f)
    case Success(ts) =>
      ScanLaws.ScanEndsWithEof(rule, src);
      match ParseSpec.ParseExpression(rule, ts, 0)
      case Failure(_) => Success(None)
      case Success(p) => Success(Some(Banner + Printer.Render(p.expr) + "\n"))
  }

  /** `run`, built from the Scanner and Perser classes and the printer. */
  method Run(source: string, rule: Rule) returns (r: Result<Option<string>, ScanSpec.Fault>)
    ensures r == RunSpec(rule, source)
  {
    var scanned := Scanning.Tokenize(source, rule);
    if scanned.Failure? {
      return Failure(scanned.error);
    }
    var tokens := scanned.value;
    ScanLaws.ScanEndsWithEof(rule, source);
    var parser := new Parsing.Perser(tokens, rule);
    var expr := parser.Expression();
    if expr.Failure? {
      return Success(None);
    }
    var text := Printer.Print(expr.value).value;
    return Success(Some(Banner + text + "\n"));
  }

  /** With the `check` as written, `run` never prints a tree: every
      source either fails to scan or fails to parse. */
  lemma AsWrittenPrintsNothing(src: string)
    ensures RunSpec(AsWritten, src).Success? ==> RunSpec(AsWritten, src).value == None
  {
    if ScanSpec.Scan(AsWritten, src).Success? {
      ScanLaws.ScanEndsWithEof(AsWritten, src);
      ParseLaws.AsWrittenExpressionFails(ScanSpec.Scan(AsWritten, src).value, 0);
    }
  }

  /** With both corrections `run` never panics. */
  lemma CorrectedNeverPanics(src: string)
    ensures RunSpec(Corrected, src) != Failure(ScanSpec.IndexPanic)
  {
    ScanLaws.CorrectedScanNeverPanics(src);
  }

  /** `-1+2` end to end, corrected: the tree `-(1 + 2)` printed as
      `(- (+ 1 2))`. */
  lemma NegatedSumRun(src: string)
    requires src == "-1+2"
    ensures RunSpec(Corrected, src) == Success(Some("AST Printr: \n(- (+ 1 2))\n"))
  {
    var ts := [Token(Minus, "-", None, 1), ParseLaws.NumberToken("1"), Token(Plus, "+", None, 1),
               ParseLaws.NumberToken("2"), EofToken(1)];
    NegatedSumScan(src);
    assert ParseLaws.NegatedSumTokens(ts);
    ParseLaws.NegatedSumExample(ts);
    var neg := Ast.Unary(ts[0], Ast.Binary(ParseLaws.NumberLiteral("1"), ts[2], ParseLaws.NumberLiteral("2")));
    assert ParseSpec.ParseExpression(Corrected, ts, 0) == Success(ParseSpec.Parsed(neg, 4));
    var text := Printer.Render(neg);
    assert RunSpec(Corrected, src) == Success(Some(Banner + text + "\n"));
    NegatedSumText(ts, text);
    BannerLine(text);
  }

  lemma NegatedSumText(ts: seq<Token>, text: string)
    requires ParseLaws.NegatedSumTokens(ts)
    requires text == Printer.Render(Ast.Unary(ts[0], Ast.Binary(ParseLaws.NumberLiteral("1"), ts[2], ParseLaws.NumberLiteral("2"))))
    ensures text == "(- (+ 1 2))"
  {
    var sum := Ast.Binary(ParseLaws.NumberLiteral("1"), ts[2], ParseLaws.NumberLiteral("2"));
    assert Printer.Render(ParseLaws.NumberLiteral("1")) == "1";
    assert Printer.Render(ParseLaws.NumberLiteral("2")) == "2";
    calc {
      text;
      Printer.Wrap("-", Printer.Render(sum));
      { assert Printer.Render(sum) == Printer.Wrap("+", "1" + " " + "2") == "(+ 1 2)"; }
      Printer.Wrap("-", "(+ 1 2)");
      "(- (+ 1 2))";
    }
  }

  lemma BannerLine(text: string)
    requires text == "(- (+ 1 2))"
    ensures Banner + text + "\n" == "AST Printr: \n(- (+ 1 2))\n"
  {
  }

  /** A one-digit number at position i that no digit or `.` follows. */
  lemma DigitToken(src: string, i: nat)
    requires i < |src| && IsDigit(src[i])
    requires i + 1 == |src| || (!IsDigit(src[i + 1]) && src[i + 1] != '.')
    ensures ScanSpec.ScanTokenAt(Corrected, src, i, 1)
         == Success(ScanSpec.Lexed(Number, Some(Object.Num(src[i..i + 1])), i + 1, 1))
  {
    assert ScanSpec.Span(src, i + 1, IsDigit) == i + 1;
    assert ScanSpec.NumberEnd(src, i + 1) == i + 1;
    ScanLaws.NumberStep(Corrected, src, i, 1);
  }

  /** The first step over `-1+2` pushes `-`. */
  lemma NegatedSumMinus(src: string, ts: seq<Token>)
    requires src == "-1+2" && ParseLaws.NegatedSumTokens(ts)
    ensures ScanSpec.ScanFrom(Corrected, src, 0, 1, []) == ScanSpec.ScanFrom(Corrected, src, 1, 1, ts[..1])
  {
    assert |src| == 4 && src[0..1] == "-";
    assert Lexicon.SingleCharKind(src[0]) == Some(Minus);
    ScanLaws.SingleCharStep(Corrected, src, 0, 1);
    var minus := ScanSpec.Lexed(Minus, None, 1, 1);
    ScanLaws.ScanFromStep(Corrected, src, 0, 1, [], minus);
    assert [] + [ScanSpec.Emitted(src, 0, minus)] == ts[..1];
  }

  /** The second step pushes `1`. */
  lemma NegatedSumOne(src: string, ts: seq<Token>)
    requires src == "-1+2" && ParseLaws.NegatedSumTokens(ts)
    ensures ScanSpec.ScanFrom(Corrected, src, 1, 1, ts[..1])
         == ScanSpec.ScanFrom(Corrected, src, 2, 1, ts[..2])
  {
    assert |src| == 4 && src[1..2] == "1";
    DigitToken(src, 1);
    var one := ScanSpec.Lexed(Number, Some(Object.Num("1")), 2, 1);
    ScanLaws.ScanFromStep(Corrected, src, 1, 1, ts[..1], one);
    assert ts[..1] + [ScanSpec.Emitted(src, 1, one)] == ts[..2];
  }

  /** The third step pushes `+`. */
  lemma NegatedSumPlus(src: string, ts: seq<Token>)
    requires src == "-1+2" && ParseLaws.NegatedSumTokens(ts)
    ensures ScanSpec.ScanFrom(Corrected, src, 2, 1, ts[..2])
         == ScanSpec.ScanFrom(Corrected, src, 3, 1, ts[..3])
  {
    assert |src| == 4 && src[2..3] == "+";
    assert Lexicon.SingleCharKind(src[2]) == Some(Plus);
    ScanLaws.SingleCharStep(Corrected, src, 2, 1);
    var plus := ScanSpec.Lexed(Plus, None, 3, 1);
    ScanLaws.ScanFromStep(Corrected, src, 2, 1, ts[..2], plus);
    assert ts[..2] + [ScanSpec.Emitted(src, 2, plus)] == ts[..3];
  }

  /** The last step pushes `2`, and the end of input pushes Eof. */
  lemma NegatedSumTwo(src: string, ts: seq<Token>)
    requires src == "-1+2" && ParseLaws.NegatedSumTokens(ts)
    ensures ScanSpec.ScanFrom(Corrected, src, 3, 1, ts[..3])
         == Success(ts)
  {
    assert |src| == 4 && src[3..4] == "2";
    DigitToken(src, 3);
    var two := ScanSpec.Lexed(Number, Some(Object.Num("2")), 4, 1);
    ScanLaws.ScanFromStep(Corrected, src, 3, 1, ts[..3], two);
    assert ts[..3] + [ScanSpec.Emitted(src, 3, two)] == ts[..4];
    ScanLaws.ScanFromEnd(Corrected, src, 1, ts[..4]);
    assert ts[..4] + [EofToken(1)] == ts;
  }

  /** The tokens of `-1+2`. */
  lemma NegatedSumScan(src: string)
    requires src == "-1+2"
    ensures ScanSpec.Scan(Corrected, src)
         == Success([Token(Minus, "-", None, 1), ParseLaws.NumberToken("1"), Token(Plus, "+", None, 1),
                     ParseLaws.NumberToken("2"), EofToken(1)])
  {
    var ts := [Token(Minus, "-", None, 1), ParseLaws.NumberToken("1"), Token(Plus, "+", None, 1),
               ParseLaws.NumberToken("2"), EofToken(1)];
    NegatedSumMinus(src, ts);
    NegatedSumOne(src, ts);
    NegatedSumPlus(src, ts);
    NegatedSumTwo(src, ts);
  }
}
