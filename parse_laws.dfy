/** What the reference parser of module ParseSpec promises: the match
    primitives under each reading of `check`, the parse that always fails
    as written, and the shape of what the corrected parser builds. */
module ParseLaws {
  import opened Wrappers
  import opened Errors
  import opened Variant
  import opened TokenTypes
  import opened Tokens
  import opened Ast
  import opened ParseSpec

  /** As written, `is_match` succeeds only at Eof and only when Eof is one
      of the kinds; corrected, it succeeds exactly before the end on a token
      of one of the kinds. */
  lemma MatchesByRule(rule: Rule, ts: seq<Token>, pos: nat, kinds: seq<TokenType>)
    requires pos < |ts|
    ensures rule == AsWritten ==> (Matches(rule, ts, pos, kinds) <==> AtEnd(ts, pos) && Eof in kinds)
    ensures rule == Corrected ==> (Matches(rule, ts, pos, kinds) <==> !AtEnd(ts, pos) && ts[pos].kind in kinds)
  {
    if ts[pos].kind in kinds {
      var i :| 0 <= i < |kinds| && kinds[i] == ts[pos].kind;
      assert Check(rule, ts, pos, kinds[i]) <==> (rule == AsWritten) == AtEnd(ts, pos);
    }
  }

  /** As written nothing in the grammar ever matches, so `primary` falls
      through to its last line. */
  lemma AsWrittenPrimaryFails(ts: seq<Token>, pos: nat)
    requires ValidTokens(ts) && pos < |ts|
    ensures ParsePrimary(AsWritten, ts, pos) == Failure(ErrorAt(UnknownTokenType))
  {
    MatchesByRule(AsWritten, ts, pos, [TokenType.False]);
    MatchesByRule(AsWritten, ts, pos, [TokenType.True]);
    MatchesByRule(AsWritten, ts, pos, [TokenType.Nil]);
    MatchesByRule(AsWritten, ts, pos, [Number, String]);
    MatchesByRule(AsWritten, ts, pos, [LeftParen]);
  }

  lemma AsWrittenUnaryFails(ts: seq<Token>, pos: nat)
    requires ValidTokens(ts) && pos < |ts|
    ensures ParseUnary(AsWritten, ts, pos) == Failure(ErrorAt(UnknownTokenType))
  {
    MatchesByRule(AsWritten, ts, pos, [Bang, Minus]);
    AsWrittenPrimaryFails(ts, pos);
  }

  lemma {:induction false} AsWrittenLevelFails(ts: seq<Token>, pos: nat, level: Level)
    requires ValidTokens(ts) && pos < |ts|
    ensures ParseLevel(AsWritten, ts, pos, level) == Failure(ErrorAt(UnknownTokenType))
    decreases Rank(level)
  {
    match level
    case Equality => AsWrittenLevelFails(ts, pos, Comparison);
    case Comparison => AsWrittenLevelFails(ts, pos, Term);
    case Term => AsWrittenLevelFails(ts, pos, Factor);
    case Factor => AsWrittenUnaryFails(ts, pos);
  }

  /** With `check` as written, `expression` fails with "Unknown token type"
      on every token list, wherever it starts. */
  lemma AsWrittenExpressionFails(ts: seq<Token>, pos: nat)
    requires ValidTokens(ts) && pos < |ts|
    ensures ParseExpression(AsWritten, ts, pos) == Failure(ErrorAt(UnknownTokenType))
  {
    AsWrittenLevelFails(ts, pos, Equality);
  }

  /** `e`, read up to position `end`, is `base`, read up to `start`, with
      the level's operators folded on from the left at the positions `ms`:
      the last spine node `Binary(left, op, right)` has as `op` the token
      matched at the last position m, where `left` ends, and as `right`
      exactly what the level's operand parser reads from m + 1, ending at
      `end`; `left` is the same kind of fold up to m. */
  predicate LeftFold(rule: Rule, ts: seq<Token>, level: Level, e: Expr, end: nat, base: Expr, start: nat, ms: seq<nat>)
    requires ValidTokens(ts)
    decreases |ms|
  {
    if ms == [] then e == base && end == start
    else
      var m := ms[|ms| - 1];
      FoldNode(rule, ts, level, e, end, m) && LeftFold(rule, ts, level, e.left, m, base, start, ms[..|ms| - 1])
  }

  /** One spine node of a fold: `e` is `Binary(_, ts[m], right)`, where
      `ts[m]` matches one of the level's operators and `right` is what the
      level's operand parser reads from m + 1, ending at `end`. */
  predicate FoldNode(rule: Rule, ts: seq<Token>, level: Level, e: Expr, end: nat, m: nat)
    requires ValidTokens(ts)
  {
    && m + 1 < |ts| && Matches(rule, ts, m, Operators(level))
    && e.Binary? && e.operator == ts[m]
    && ParseOperand(rule, ts, m + 1, level) == Success(Parsed(e.right, end))
  }

  /** A fold is determined by its base and its positions: the tree and
      where it ends leave no choice. */
  lemma {:induction false} FoldDetermined(rule: Rule, ts: seq<Token>, level: Level, e1: Expr, end1: nat,
                                          e2: Expr, end2: nat, base: Expr, start: nat, ms: seq<nat>)
    requires ValidTokens(ts)
    requires LeftFold(rule, ts, level, e1, end1, base, start, ms)
    requires LeftFold(rule, ts, level, e2, end2, base, start, ms)
    ensures e1 == e2 && end1 == end2
    decreases |ms|
  {
    if ms != [] {
      var m := ms[|ms| - 1];
      assert FoldNode(rule, ts, level, e1, end1, m) && FoldNode(rule, ts, level, e2, end2, m);
      FoldDetermined(rule, ts, level, e1.left, m, e2.left, m, base, start, ms[..|ms| - 1]);
    }
  }

  /** A binary level's loop folds to the left: its result is what it
      started with, with each matched operator and the operand parsed after
      it applied on the left, and it stops where no operator matches. */
  lemma {:induction false} LoopFoldsLeft(rule: Rule, ts: seq<Token>, level: Level, expr: Expr, pos: nat)
    requires ValidTokens(ts) && pos < |ts| && ParseLoop(rule, ts, level, expr, pos).Success?
    ensures var r := ParseLoop(rule, ts, level, expr, pos).value;
      && !Matches(rule, ts, r.pos, Operators(level))
      && exists ms :: LeftFold(rule, ts, level, r.expr, r.pos, expr, pos, ms)
    decreases |ts| - pos
  {
    var r := ParseLoop(rule, ts, level, expr, pos).value;
    if Matches(rule, ts, pos, Operators(level)) {
      ParseLoopStep(rule, ts, level, expr, pos);
      var right := ParseOperand(rule, ts, pos + 1, level).value;
      var folded := Binary(expr, ts[pos], right.expr);
      assert r == ParseLoop(rule, ts, level, folded, right.pos).value;
      LoopFoldsLeft(rule, ts, level, folded, right.pos);
      FoldOnto(rule, ts, level, r.expr, r.pos, expr, pos, right.expr, right.pos);
    } else {
      assert LeftFold(rule, ts, level, r.expr, r.pos, expr, pos, []);
    }
  }

  /** A fold over `Binary(base, ts[start], right)`, where `ts[start]`
      matched and `right` is the operand read after it, is a fold over
      `base` with `start` as its first position. */
  lemma {:induction false} LeftFoldPrepend(rule: Rule, ts: seq<Token>, level: Level, e: Expr, end: nat,
                                           base: Expr, start: nat, right: Expr, mid: nat, ms: seq<nat>)
    requires ValidTokens(ts) && start + 1 < |ts| && Matches(rule, ts, start, Operators(level))
    requires ParseOperand(rule, ts, start + 1, level) == Success(Parsed(right, mid))
    requires LeftFold(rule, ts, level, e, end, Binary(base, ts[start], right), mid, ms)
    ensures LeftFold(rule, ts, level, e, end, base, start, [start] + ms)
    decreases |ms|
  {
    var ms' := [start] + ms;
    if ms == [] {
      assert FoldNode(rule, ts, level, e, end, start);
      assert ms'[..|ms'| - 1] == [];
    } else {
      var m := ms[|ms| - 1];
      assert ms'[|ms'| - 1] == m;
      assert FoldNode(rule, ts, level, e, end, m);
      LeftFoldPrepend(rule, ts, level, e.left, m, base, start, right, mid, ms[..|ms| - 1]);
      assert ms'[..|ms'| - 1] == [start] + ms[..|ms| - 1];
    }
  }

  /** LeftFoldPrepend for some positions. */
  lemma FoldOnto(rule: Rule, ts: seq<Token>, level: Level, e: Expr, end: nat,
                 base: Expr, start: nat, right: Expr, mid: nat)
    requires ValidTokens(ts) && start + 1 < |ts| && Matches(rule, ts, start, Operators(level))
    requires ParseOperand(rule, ts, start + 1, level) == Success(Parsed(right, mid))
    requires exists ms :: LeftFold(rule, ts, level, e, end, Binary(base, ts[start], right), mid, ms)
    ensures exists ms :: LeftFold(rule, ts, level, e, end, base, start, ms)
  {
    var ms :| LeftFold(rule, ts, level, e, end, Binary(base, ts[start], right), mid, ms);
    LeftFoldPrepend(rule, ts, level, e, end, base, start, right, mid, ms);
  }

  /** A binary level's result is its first operand with the level's
      matched operators and their operands folded on from the left. */
  lemma LevelFoldsLeft(rule: Rule, ts: seq<Token>, pos: nat, level: Level)
    requires ValidTokens(ts) && pos < |ts| && ParseLevel(rule, ts, pos, level).Success?
    ensures ParseOperand(rule, ts, pos, level).Success?
    ensures var first := ParseOperand(rule, ts, pos, level).value;
      var r := ParseLevel(rule, ts, pos, level).value;
      && !Matches(rule, ts, r.pos, Operators(level))
      && exists ms :: LeftFold(rule, ts, level, r.expr, r.pos, first.expr, first.pos, ms)
  {
    var first := ParseOperand(rule, ts, pos, level).value;
    LoopFoldsLeft(rule, ts, level, first.expr, first.pos);
  }

  /** Corrected `primary` by the kind under the cursor: `false` gives the
      literal `true`, `true` and `nil` the literal `nil`, a number or string
      the token's own literal; `(` needs `)` at once and then yields the
      next expression, with no Grouping node; anything else fails with
      "Unknown token type". */
  lemma PrimaryByKind(ts: seq<Token>, pos: nat)
    requires ValidTokens(ts) && pos < |ts|
    ensures var r := ParsePrimary(Corrected, ts, pos);
      match ts[pos].kind
      case False => r == Success(Parsed(Literal(Some(Object.True)), pos + 1))
      case True => r == Success(Parsed(Literal(Some(Object.Nil)), pos + 1))
      case Nil => r == Success(Parsed(Literal(Some(Object.Nil)), pos + 1))
      case Number => r == Success(Parsed(Literal(ts[pos].literal), pos + 1))
      case String => r == Success(Parsed(Literal(ts[pos].literal), pos + 1))
      case LeftParen =>
        pos + 1 < |ts| &&
        r == if ts[pos + 1].kind == RightParen then ParseExpression(Corrected, ts, pos + 2)
             else Failure(ErrorAt(ExpectRightParen))
      case _ => r == Failure(ErrorAt(UnknownTokenType))
  {
    MatchesByRule(Corrected, ts, pos, [TokenType.False]);
    MatchesByRule(Corrected, ts, pos, [TokenType.True]);
    MatchesByRule(Corrected, ts, pos, [TokenType.Nil]);
    MatchesByRule(Corrected, ts, pos, [Number, String]);
    MatchesByRule(Corrected, ts, pos, [LeftParen]);
  }

  /** Corrected `unary`: on `!` or `-` the result is a Unary node over a
      `term` (not over another `unary`); on any other kind it is `primary`. */
  lemma UnaryByKind(ts: seq<Token>, pos: nat)
    requires ValidTokens(ts) && pos < |ts|
    ensures ts[pos].kind in {Bang, Minus} ==>
      && pos + 1 < |ts|
      && ParseUnary(Corrected, ts, pos) ==
           (match ParseLevel(Corrected, ts, pos + 1, Term)
            case Failure(e) => Failure(e)
            case Success(right) => Success(Parsed(Unary(ts[pos], right.expr), right.pos)))
    ensures ts[pos].kind !in {Bang, Minus} ==> ParseUnary(Corrected, ts, pos) == ParsePrimary(Corrected, ts, pos)
  {
    MatchesByRule(Corrected, ts, pos, [Bang, Minus]);
  }

  /** No tree the parser builds holds a Grouping node. */
  predicate NoGrouping(e: Expr) {
    match e
    case Binary(l, _, r) => NoGrouping(l) && NoGrouping(r)
    case Grouping(_) => false
    case Literal(_) => true
    case Unary(_, r) => NoGrouping(r)
  }

  lemma {:induction false} LevelNoGrouping(rule: Rule, ts: seq<Token>, pos: nat, level: Level)
    requires ValidTokens(ts) && pos < |ts| && ParseLevel(rule, ts, pos, level).Success?
    ensures NoGrouping(ParseLevel(rule, ts, pos, level).value.expr)
    decreases |ts| - pos, 3 * Rank(level) + 2
  {
    OperandNoGrouping(rule, ts, pos, level);
    var first := ParseOperand(rule, ts, pos, level).value;
    LoopNoGrouping(rule, ts, level, first.expr, first.pos);
  }

  lemma {:induction false} OperandNoGrouping(rule: Rule, ts: seq<Token>, pos: nat, level: Level)
    requires ValidTokens(ts) && pos < |ts| && ParseOperand(rule, ts, pos, level).Success?
    ensures NoGrouping(ParseOperand(rule, ts, pos, level).value.expr)
    decreases |ts| - pos, 3 * Rank(level)
  {
    match level
    case Equality => LevelNoGrouping(rule, ts, pos, Comparison);
    case Comparison => LevelNoGrouping(rule, ts, pos, Term);
    case Term => LevelNoGrouping(rule, ts, pos, Factor);
    case Factor => UnaryNoGrouping(rule, ts, pos);
  }

  lemma {:induction false} LoopNoGrouping(rule: Rule, ts: seq<Token>, level: Level, expr: Expr, pos: nat)
    requires ValidTokens(ts) && pos < |ts| && NoGrouping(expr) && ParseLoop(rule, ts, level, expr, pos).Success?
    ensures NoGrouping(ParseLoop(rule, ts, level, expr, pos).value.expr)
    decreases |ts| - pos, 3 * Rank(level) + 1
  {
    if Matches(rule, ts, pos, Operators(level)) {
      MatchMoves(rule, ts, pos, Operators(level));
      OperandNoGrouping(rule, ts, pos + 1, level);
      var right := ParseOperand(rule, ts, pos + 1, level).value;
      LoopNoGrouping(rule, ts, level, Binary(expr, ts[pos], right.expr), right.pos);
    }
  }

  lemma {:induction false} UnaryNoGrouping(rule: Rule, ts: seq<Token>, pos: nat)
    requires ValidTokens(ts) && pos < |ts| && ParseUnary(rule, ts, pos).Success?
    ensures NoGrouping(ParseUnary(rule, ts, pos).value.expr)
    decreases |ts| - pos, 1
  {
    if Matches(rule, ts, pos, [Bang, Minus]) {
      MatchMoves(rule, ts, pos, [Bang, Minus]);
      LevelNoGrouping(rule, ts, pos + 1, Term);
    } else {
      PrimaryNoGrouping(rule, ts, pos);
    }
  }

  lemma {:induction false} PrimaryNoGrouping(rule: Rule, ts: seq<Token>, pos: nat)
    requires ValidTokens(ts) && pos < |ts| && ParsePrimary(rule, ts, pos).Success?
    ensures NoGrouping(ParsePrimary(rule, ts, pos).value.expr)
    decreases |ts| - pos, 0
  {
    if !Matches(rule, ts, pos, [TokenType.False]) && !Matches(rule, ts, pos, [TokenType.True])
       && !Matches(rule, ts, pos, [TokenType.Nil]) && !Matches(rule, ts, pos, [Number, String])
    {
      MatchMoves(rule, ts, pos, [LeftParen]);
      LevelNoGrouping(rule, ts, AdvancePos(ts, pos + 1), Equality);
    }
  }

  /** Parenthesised source text never yields a Grouping node: `(` is
      consumed together with the `)` that must follow it. */
  lemma ExpressionNoGrouping(rule: Rule, ts: seq<Token>, pos: nat)
    requires ValidTokens(ts) && pos < |ts| && ParseExpression(rule, ts, pos).Success?
    ensures NoGrouping(ParseExpression(rule, ts, pos).value.expr)
  {
    LevelNoGrouping(rule, ts, pos, Equality);
  }

  /** Corrected loop of a binary level by the kind under the cursor: one of
      the level's operators folds in the next operand, anything else ends
      the loop where it is. */
  lemma LoopByKind(ts: seq<Token>, level: Level, expr: Expr, pos: nat)
    requires ValidTokens(ts) && pos < |ts|
    ensures ts[pos].kind in Operators(level) ==>
      && pos + 1 < |ts|
      && var right := ParseOperand(Corrected, ts, pos + 1, level);
         ParseLoop(Corrected, ts, level, expr, pos) ==
           if right.Failure? then Failure(right.error)
           else ParseLoop(Corrected, ts, level, Binary(expr, ts[pos], right.value.expr), right.value.pos)
    ensures ts[pos].kind !in Operators(level) ==> ParseLoop(Corrected, ts, level, expr, pos) == Success(Parsed(expr, pos))
  {
    MatchesByRule(Corrected, ts, pos, Operators(level));
  }

  /** A number token on line 1 and the literal it parses to. */
  function NumberToken(text: string): Token {
    Token(Number, text, Some(Object.Num(text)), 1)
  }

  function NumberLiteral(text: string): Expr {
    Literal(Some(Object.Num(text)))
  }

  /** The tokens of `1 + 2 * 3`. */
  predicate SampleTokens(ts: seq<Token>) {
    ts == [NumberToken("1"), Token(Plus, "+", None, 1), NumberToken("2"), Token(Star, "*", None, 1), NumberToken("3"), EofToken(1)]
  }

  lemma LiteralAt(ts: seq<Token>, pos: nat)
    requires ValidTokens(ts) && pos < |ts| && ts[pos].kind == Number
    ensures ParseUnary(Corrected, ts, pos) == Success(Parsed(Literal(ts[pos].literal), pos + 1))
  {
    UnaryByKind(ts, pos);
    PrimaryByKind(ts, pos);
  }

  /** A number token not followed by `*` or `/` is a factor on its own. */
  lemma NumberFactor(ts: seq<Token>, pos: nat)
    requires ValidTokens(ts) && pos + 1 < |ts| && ts[pos].kind == Number
    requires ts[pos + 1].kind !in Operators(Factor)
    ensures ParseLevel(Corrected, ts, pos, Factor) == Success(Parsed(Literal(ts[pos].literal), pos + 1))
  {
    LiteralAt(ts, pos);
    LoopByKind(ts, Factor, Literal(ts[pos].literal), pos + 1);
  }

  lemma ProductPart(ts: seq<Token>)
    requires SampleTokens(ts)
    ensures ParseLevel(Corrected, ts, 2, Factor) == Success(Parsed(Binary(NumberLiteral("2"), ts[3], NumberLiteral("3")), 5))
  {
    assert ValidTokens(ts);
    assert ts[2].kind == Number && ts[2].literal == Some(Object.Num("2"));
    assert ts[4].kind == Number && ts[4].literal == Some(Object.Num("3"));
    assert ts[3].kind == Star && ts[5].kind == Eof;
    var prod := Binary(NumberLiteral("2"), ts[3], NumberLiteral("3"));
    LiteralAt(ts, 2);
    LiteralAt(ts, 4);
    assert ParseOperand(Corrected, ts, 2, Factor) == Success(Parsed(NumberLiteral("2"), 3));
    assert ParseOperand(Corrected, ts, 4, Factor) == Success(Parsed(NumberLiteral("3"), 5));
    LoopByKind(ts, Factor, NumberLiteral("2"), 3);
    LoopByKind(ts, Factor, prod, 5);
    assert ParseLoop(Corrected, ts, Factor, prod, 5) == Success(Parsed(prod, 5));
    assert ParseLoop(Corrected, ts, Factor, NumberLiteral("2"), 3) == Success(Parsed(prod, 5));
  }

  lemma SumPart(ts: seq<Token>)
    requires SampleTokens(ts)
    ensures ParseLevel(Corrected, ts, 0, Term) == Success(Parsed(Binary(NumberLiteral("1"), ts[1], Binary(NumberLiteral("2"), ts[3], NumberLiteral("3"))), 5))
  {
    var sum := Binary(NumberLiteral("1"), ts[1], Binary(NumberLiteral("2"), ts[3], NumberLiteral("3")));
    LiteralAt(ts, 0);
    LoopByKind(ts, Factor, NumberLiteral("1"), 1);
    assert ParseLevel(Corrected, ts, 0, Factor) == Success(Parsed(NumberLiteral("1"), 1));
    ProductPart(ts);
    LoopByKind(ts, Term, NumberLiteral("1"), 1);
    LoopByKind(ts, Term, sum, 5);
  }

  /** `1 + 2 * 3` parses, with the corrected `check`, as `1 + (2 * 3)`. */
  lemma PrecedenceExample(ts: seq<Token>)
    requires SampleTokens(ts)
    ensures ParseExpression(Corrected, ts, 0)
         == Success(Parsed(Binary(NumberLiteral("1"), ts[1], Binary(NumberLiteral("2"), ts[3], NumberLiteral("3"))), 5))
  {
    var sum := Binary(NumberLiteral("1"), ts[1], Binary(NumberLiteral("2"), ts[3], NumberLiteral("3")));
    SumPart(ts);
    LoopByKind(ts, Comparison, sum, 5);
    assert ParseLevel(Corrected, ts, 0, Comparison) == Success(Parsed(sum, 5));
    LoopByKind(ts, Equality, sum, 5);
    assert ParseLevel(Corrected, ts, 0, Equality) == Success(Parsed(sum, 5));
  }

  /** The tokens of `8 - 4 - 2`. */
  predicate DifferenceTokens(ts: seq<Token>) {
    ts == [NumberToken("8"), Token(Minus, "-", None, 1), NumberToken("4"), Token(Minus, "-", None, 1), NumberToken("2"), EofToken(1)]
  }

  /** The three operands of `8 - 4 - 2`, each a factor on its own. */
  lemma DifferenceOperands(ts: seq<Token>)
    requires DifferenceTokens(ts)
    ensures ValidTokens(ts) && ts[1].kind == Minus && ts[3].kind == Minus && ts[5].kind == Eof
    ensures ParseLevel(Corrected, ts, 0, Factor) == Success(Parsed(NumberLiteral("8"), 1))
    ensures ParseLevel(Corrected, ts, 2, Factor) == Success(Parsed(NumberLiteral("4"), 3))
    ensures ParseLevel(Corrected, ts, 4, Factor) == Success(Parsed(NumberLiteral("2"), 5))
  {
    assert ValidTokens(ts);
    assert ts[0].kind == Number && ts[0].literal == Some(Object.Num("8"));
    assert ts[2].kind == Number && ts[2].literal == Some(Object.Num("4"));
    assert ts[4].kind == Number && ts[4].literal == Some(Object.Num("2"));
    NumberFactor(ts, 0);
    NumberFactor(ts, 2);
    NumberFactor(ts, 4);
  }

  lemma DifferencePart(ts: seq<Token>)
    requires DifferenceTokens(ts)
    ensures ParseLevel(Corrected, ts, 0, Term)
         == Success(Parsed(Binary(Binary(NumberLiteral("8"), ts[1], NumberLiteral("4")), ts[3], NumberLiteral("2")), 5))
  {
    DifferenceOperands(ts);
    var first := Binary(NumberLiteral("8"), ts[1], NumberLiteral("4"));
    var both := Binary(first, ts[3], NumberLiteral("2"));
    LoopByKind(ts, Term, NumberLiteral("8"), 1);
    LoopByKind(ts, Term, first, 3);
    LoopByKind(ts, Term, both, 5);
  }

  /** `8 - 4 - 2` parses, with the corrected `check`, as `(8 - 4) - 2`:
      a level's operators associate to the left. */
  lemma DifferenceExample(ts: seq<Token>)
    requires DifferenceTokens(ts)
    ensures ParseExpression(Corrected, ts, 0)
         == Success(Parsed(Binary(Binary(NumberLiteral("8"), ts[1], NumberLiteral("4")), ts[3], NumberLiteral("2")), 5))
  {
    var both := Binary(Binary(NumberLiteral("8"), ts[1], NumberLiteral("4")), ts[3], NumberLiteral("2"));
    DifferencePart(ts);
    assert ValidTokens(ts) && ts[5].kind == Eof;
    LoopByKind(ts, Comparison, both, 5);
    assert ParseLevel(Corrected, ts, 0, Comparison) == Success(Parsed(both, 5));
    LoopByKind(ts, Equality, both, 5);
    assert ParseLevel(Corrected, ts, 0, Equality) == Success(Parsed(both, 5));
  }

  /** The tokens of `-1+2`. */
  predicate NegatedSumTokens(ts: seq<Token>) {
    ts == [Token(Minus, "-", None, 1), NumberToken("1"), Token(Plus, "+", None, 1), NumberToken("2"), EofToken(1)]
  }

  lemma NegatedSumOperand(ts: seq<Token>)
    requires NegatedSumTokens(ts)
    ensures ParseLevel(Corrected, ts, 1, Term) == Success(Parsed(Binary(NumberLiteral("1"), ts[2], NumberLiteral("2")), 4))
  {
    assert ValidTokens(ts);
    assert ts[1].kind == Number && ts[1].literal == Some(Object.Num("1"));
    assert ts[3].kind == Number && ts[3].literal == Some(Object.Num("2"));
    assert ts[2].kind == Plus && ts[4].kind == Eof;
    var sum := Binary(NumberLiteral("1"), ts[2], NumberLiteral("2"));
    LiteralAt(ts, 1);
    LiteralAt(ts, 3);
    LoopByKind(ts, Factor, NumberLiteral("1"), 2);
    assert ParseLevel(Corrected, ts, 1, Factor) == Success(Parsed(NumberLiteral("1"), 2));
    LoopByKind(ts, Factor, NumberLiteral("2"), 4);
    assert ParseLevel(Corrected, ts, 3, Factor) == Success(Parsed(NumberLiteral("2"), 4));
    LoopByKind(ts, Term, NumberLiteral("1"), 2);
    LoopByKind(ts, Term, sum, 4);
  }

  /** `-1 + 2` parses, with the corrected `check`, as `-(1 + 2)`: the
      operand of a prefix operator is a whole `term`. */
  lemma NegatedSumExample(ts: seq<Token>)
    requires NegatedSumTokens(ts)
    ensures ParseExpression(Corrected, ts, 0)
         == Success(Parsed(Unary(ts[0], Binary(NumberLiteral("1"), ts[2], NumberLiteral("2"))), 4))
  {
    var neg := Unary(ts[0], Binary(NumberLiteral("1"), ts[2], NumberLiteral("2")));
    assert ValidTokens(ts) && ts[0].kind == Minus && ts[4].kind == Eof;
    NegatedSumOperand(ts);
    UnaryByKind(ts, 0);
    assert ParseUnary(Corrected, ts, 0) == Success(Parsed(neg, 4));
    LoopByKind(ts, Factor, neg, 4);
    assert ParseLevel(Corrected, ts, 0, Factor) == Success(Parsed(neg, 4));
    LoopByKind(ts, Term, neg, 4);
    assert ParseLevel(Corrected, ts, 0, Term) == Success(Parsed(neg, 4));
    LoopByKind(ts, Comparison, neg, 4);
    assert ParseLevel(Corrected, ts, 0, Comparison) == Success(Parsed(neg, 4));
    LoopByKind(ts, Equality, neg, 4);
    assert ParseLevel(Corrected, ts, 0, Equality) == Success(Parsed(neg, 4));
  }
}
