/** A reference parser: what the recursive-descent methods of `Perser`
    (src/perser.rs) compute, as functions of the token list and the cursor
    position. Under AsWritten, `check` is the inverted test of
    src/perser.rs:191-197; under Corrected it is the evidently intended one.
    The `Perser` class in module Parsing is proved against these functions. */
module ParseSpec {
  import opened Wrappers
  import opened Errors
  import opened Variant
  import opened TokenTypes
  import opened Tokens
  import opened Ast

  /** What every token list handed to the parser looks like: it ends with
      Eof (the scanner always pushes one last). */
  predicate ValidTokens(ts: seq<Token>) {
    |ts| > 0 && ts[|ts| - 1].kind == Eof
  }

  /** `is_at_end`: the token under the cursor is Eof. */
  predicate AtEnd(ts: seq<Token>, pos: nat)
    requires pos < |ts|
  {
    ts[pos].kind == Eof
  }

  /** `check(k)`. As written it answers false before the end and tests
      `k == Eof` at the end; corrected, it answers false at the end and
      tests the kind of the token under the cursor before it. */
  predicate Check(rule: Rule, ts: seq<Token>, pos: nat, k: TokenType)
    requires pos < |ts|
  {
    match rule
    case AsWritten => if !AtEnd(ts, pos) then false else ts[pos].kind == k
    case Corrected => if AtEnd(ts, pos) then false else ts[pos].kind == k
  }

  /** The cursor after `advance`: one on, except at Eof. */
  function AdvancePos(ts: seq<Token>, pos: nat): (p: nat)
    requires pos < |ts|
    ensures pos <= p <= pos + 1
  {
    if !AtEnd(ts, pos) then pos + 1 else pos
  }

  /** `is_match(kinds)` succeeds: `check` holds for one of the kinds. */
  predicate Matches(rule: Rule, ts: seq<Token>, pos: nat, kinds: seq<TokenType>)
    requires pos < |ts|
  {
    exists i :: 0 <= i < |kinds| && Check(rule, ts, pos, kinds[i])
  }

  /** When Eof is not among the kinds, a match happens only before the end,
      so `advance` moves the cursor one on. */
  lemma MatchMoves(rule: Rule, ts: seq<Token>, pos: nat, kinds: seq<TokenType>)
    requires pos < |ts| && Eof !in kinds && Matches(rule, ts, pos, kinds)
    ensures rule == Corrected && !AtEnd(ts, pos) && ts[pos].kind in kinds
    ensures AdvancePos(ts, pos) == pos + 1
  {
    var i :| 0 <= i < |kinds| && Check(rule, ts, pos, kinds[i]);
    assert kinds[i] != Eof;
  }

  /** The kinds `synchronize` stops in front of: those that begin a
      statement. */
  const StatementStarts: set<TokenType> := {Class, Fun, Var, For, If, While, Print, Return}

  /** The four binary precedence levels, loosest first. */
  datatype Level = Equality | Comparison | Term | Factor

  /** The operators each level folds. */
  function Operators(level: Level): (ks: seq<TokenType>)
    ensures Eof !in ks
  {
    match level
    case Equality => [BangEqual, EqualEqual]
    case Comparison => [Greater, GreaterEqual, Less, LessEqual]
    case Term => [Minus, Plus]
    case Factor => [Slash, Star]
  }

  function Rank(level: Level): nat {
    match level
    case Equality => 4
    case Comparison => 3
    case Term => 2
    case Factor => 1
  }

  /** The parse of a rule: the tree and the cursor after it. */
  datatype Parsed = Parsed(expr: Expr, pos: nat)

  /** `expression`, which is `equality`. */
  function ParseExpression(rule: Rule, ts: seq<Token>, pos: nat): (r: Result<Parsed, LoxError>)
    requires ValidTokens(ts) && pos < |ts|
    ensures r.Success? ==> pos < r.value.pos < |ts|
    decreases |ts| - pos, 15
  {
    ParseLevel(rule, ts, pos, Equality)
  }

  /** One binary level (`equality`, `comparison`, `term`, `factor`): an
      operand, then the left fold of ParseLoop. */
  function ParseLevel(rule: Rule, ts: seq<Token>, pos: nat, level: Level): (r: Result<Parsed, LoxError>)
    requires ValidTokens(ts) && pos < |ts|
    ensures r.Success? ==> pos < r.value.pos < |ts|
    decreases |ts| - pos, 3 * Rank(level) + 2
  {
    match ParseOperand(rule, ts, pos, level)
    case Failure(e) => Failure(e)
    case Success(first) => ParseLoop(rule, ts, level, first.expr, first.pos)
  }

  /** The operand of a level: the next tighter level, and `unary` below
      `factor`. */
  function ParseOperand(rule: Rule, ts: seq<Token>, pos: nat, level: Level): (r: Result<Parsed, LoxError>)
    requires ValidTokens(ts) && pos < |ts|
    ensures r.Success? ==> pos < r.value.pos < |ts|
    decreases |ts| - pos, 3 * Rank(level)
  {
    match level
    case Equality => ParseLevel(rule, ts, pos, Comparison)
    case Comparison => ParseLevel(rule, ts, pos, Term)
    case Term => ParseLevel(rule, ts, pos, Factor)
    case Factor => ParseUnary(rule, ts, pos)
  }

  /** The loop of a binary level with `expr` parsed so far: while one of
      the level's operators matches, `expr := Binary(expr, operator,
      operand)`. */
  function ParseLoop(rule: Rule, ts: seq<Token>, level: Level, expr: Expr, pos: nat): (r: Result<Parsed, LoxError>)
    requires ValidTokens(ts) && pos < |ts|
    ensures r.Success? ==> pos <= r.value.pos < |ts|
    decreases |ts| - pos, 3 * Rank(level) + 1
  {
    if Matches(rule, ts, pos, Operators(level)) then
      MatchMoves(rule, ts, pos, Operators(level));
      var operator := ts[pos];
      match ParseOperand(rule, ts, pos + 1, level)
      case Failure(e) => Failure(e)
      case Success(right) => ParseLoop(rule, ts, level, Binary(expr, operator, right.expr), right.pos)
    else
      Success(Parsed(expr, pos))
  }

  /** One turn of the loop of a binary level: a matched operator and the
      operand after it either fail the loop or extend `expr`. */
  lemma ParseLoopStep(rule: Rule, ts: seq<Token>, level: Level, expr: Expr, pos: nat)
    requires ValidTokens(ts) && pos < |ts| && Matches(rule, ts, pos, Operators(level))
    ensures pos + 1 < |ts|
    ensures var right := ParseOperand(rule, ts, pos + 1, level);
      ParseLoop(rule, ts, level, expr, pos)
        == if right.Failure? then Failure(right.error)
           else ParseLoop(rule, ts, level, Binary(expr, ts[pos], right.value.expr), right.value.pos)
  {
    MatchMoves(rule, ts, pos, Operators(level));
  }

  /** `unary`: `!` or `-` followed by a `term`, or else a `primary`. */
  function ParseUnary(rule: Rule, ts: seq<Token>, pos: nat): (r: Result<Parsed, LoxError>)
    requires ValidTokens(ts) && pos < |ts|
    ensures r.Success? ==> pos < r.value.pos < |ts|
    decreases |ts| - pos, 1
  {
    if Matches(rule, ts, pos, [Bang, Minus]) then
      MatchMoves(rule, ts, pos, [Bang, Minus]);
      var operator := ts[pos];
      match ParseLevel(rule, ts, pos + 1, Term)
      case Failure(e) => Failure(e)
      case Success(right) => Success(Parsed(Unary(operator, right.expr), right.pos))
    else
      ParsePrimary(rule, ts, pos)
  }

  /** `primary`: `false` gives the literal `true`, `true` and `nil` give
      `nil`, a number or string gives its token's literal, and `(` must be
      followed at once by `)`, after which the next expression is the result
      (no Grouping node). Anything else is "Unknown token type". */
  function ParsePrimary(rule: Rule, ts: seq<Token>, pos: nat): (r: Result<Parsed, LoxError>)
    requires ValidTokens(ts) && pos < |ts|
    ensures r.Success? ==> pos < r.value.pos < |ts|
    decreases |ts| - pos, 0
  {
    if Matches(rule, ts, pos, [TokenType.False]) then
      MatchMoves(rule, ts, pos, [TokenType.False]);
      Success(Parsed(Literal(Some(Object.True)), pos + 1))
    else if Matches(rule, ts, pos, [TokenType.True]) then
      MatchMoves(rule, ts, pos, [TokenType.True]);
      Success(Parsed(Literal(Some(Object.Nil)), pos + 1))
    else if Matches(rule, ts, pos, [TokenType.Nil]) then
      MatchMoves(rule, ts, pos, [TokenType.Nil]);
      Success(Parsed(Literal(Some(Object.Nil)), pos + 1))
    else if Matches(rule, ts, pos, [Number, String]) then
      MatchMoves(rule, ts, pos, [Number, String]);
      Success(Parsed(Literal(ts[pos].literal), pos + 1))
    else if Matches(rule, ts, pos, [LeftParen]) then
      MatchMoves(rule, ts, pos, [LeftParen]);
      if Check(rule, ts, pos + 1, RightParen) then
        ParseExpression(rule, ts, AdvancePos(ts, pos + 1))
      else
        Failure(ErrorAt(ExpectRightParen))
    else
      Failure(ErrorAt(UnknownTokenType))
  }
}
