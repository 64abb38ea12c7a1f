/** `Perser` (src/perser.rs): a cursor over a token list and the
    recursive-descent methods that move it. Each parsing method is proved
    against the reference parser of module ParseSpec, and under the `check`
    as written each leaves the cursor where it found it. */
module Parsing {
  import opened Wrappers
  import opened Errors
  import opened Variant
  import opened TokenTypes
  import opened Tokens
  import opened Ast
  import opened ParseSpec

  /** A method's result and final cursor are those of the reference parse. */
  predicate Outcome(r: Result<Expr, LoxError>, pos: nat, spec: Result<Parsed, LoxError>) {
    match spec
    case Success(p) => r == Success(p.expr) && pos == p.pos
    case Failure(e) => r == Failure(e)
  }

  class Perser {
    const tokens: seq<Token>
    /** AsWritten uses the inverted `check` of src/perser.rs:191-197;
        Corrected the evidently intended one. */
    const rule: Rule
    var current: nat

    ghost predicate Valid()
      reads this
    {
      ValidTokens(tokens) && current < |tokens|
    }

    /** `Perser::new`. */
    constructor (tokens: seq<Token>, rule: Rule)
      requires ValidTokens(tokens)
      ensures Valid() && this.tokens == tokens && this.rule == rule && current == 0
    {
      this.tokens := tokens;
      this.rule := rule;
      current := 0;
    }

    /** `peek`. */
    method Peek() returns (t: Token)
      requires Valid()
      ensures t == tokens[current]
    {
      t := tokens[current];
    }

    /** `previous`, which underflows at `current == 0`. */
    method Previous() returns (t: Token)
      requires Valid() && current >= 1
      ensures t == tokens[current - 1]
    {
      t := tokens[current - 1];
    }

    /** `is_at_end`. */
    method IsAtEnd() returns (b: bool)
      requires Valid()
      ensures b <==> tokens[current].kind == Eof
    {
      var t := Peek();
      b := t.kind == Eof;
    }

    /** `check`, as the rule reads it. */
    method Check(k: TokenType) returns (b: bool)
      requires Valid()
      ensures b == ParseSpec.Check(rule, tokens, current, k)
    {
      var end := IsAtEnd();
      if (rule == AsWritten && !end) || (rule == Corrected && end) {
        return false;
      }
      var t := Peek();
      b := t.kind == k;
    }

    /** `advance`: moves on unless at Eof and returns the token before the
        cursor; that read underflows when the cursor stays at 0. */
    method Advance() returns (t: Token)
      requires Valid() && (current >= 1 || tokens[current].kind != Eof)
      modifies this`current
      ensures Valid()
      ensures current == AdvancePos(tokens, old(current)) && current >= 1
      ensures t == tokens[current - 1]
    {
      var end := IsAtEnd();
      if !end {
        current := current + 1;
      }
      t := Previous();
    }

    /** `is_match`: tries the kinds in order and advances on the first that
        `check` accepts. */
    method IsMatch(kinds: seq<TokenType>) returns (b: bool)
      requires Valid() && (current >= 1 || Eof !in kinds)
      modifies this`current
      ensures Valid()
      ensures b == Matches(rule, tokens, old(current), kinds)
      ensures current == if b then AdvancePos(tokens, old(current)) else old(current)
    {
      for i := 0 to |kinds|
        invariant current == old(current)
        invariant forall j :: 0 <= j < i ==> !ParseSpec.Check(rule, tokens, current, kinds[j])
      {
        var c := Check(kinds[i]);
        if c {
          var _ := Advance();
          return true;
        }
      }
      return false;
    }

    /** `consume`: advances past a token of kind `k` if `check` accepts it. */
    method Consume(k: TokenType) returns (r: Option<Token>)
      requires Valid() && (current >= 1 || k != Eof)
      modifies this`current
      ensures Valid()
      ensures ParseSpec.Check(rule, tokens, old(current), k) ==>
        current == AdvancePos(tokens, old(current)) && r == Some(tokens[current - 1])
      ensures !ParseSpec.Check(rule, tokens, old(current), k) ==> current == old(current) && r == None
    {
      var c := Check(k);
      if c {
        var t := Advance();
        return Some(t);
      }
      return None;
    }

    /** `synchronize`: nothing after a `;`; otherwise skips tokens up to the
        first that begins a statement, or up to Eof, never past it. */
    method Synchronize()
      requires Valid() && current >= 1
      modifies this`current
      ensures Valid()
      ensures tokens[old(current) - 1].kind == Semicolon ==> current == old(current)
      ensures tokens[old(current) - 1].kind != Semicolon ==>
        && old(current) <= current
        && (tokens[current].kind == Eof || tokens[current].kind in StatementStarts)
        && forall k :: old(current) <= k < current ==> tokens[k].kind != Eof && tokens[k].kind !in StatementStarts
    {
      var prev := Previous();
      if prev.kind == Semicolon {
        return;
      }
      var end := IsAtEnd();
      while !end
        invariant Valid() && old(current) <= current
        invariant end <==> tokens[current].kind == Eof
        invariant forall k :: old(current) <= k < current ==> tokens[k].kind != Eof && tokens[k].kind !in StatementStarts
        decreases |tokens| - current
      {
        var t := Peek();
        if t.kind in StatementStarts {
          return;
        }
        var _ := Advance();
        end := IsAtEnd();
      }
    }

    /** `expression`, which is `equality`. */
    method Expression() returns (r: Result<Expr, LoxError>)
      requires Valid()
      modifies this`current
      ensures Valid()
      ensures Outcome(r, current, ParseExpression(rule, tokens, old(current)))
      ensures rule == AsWritten ==> current == old(current)
      decreases |tokens| - current, 20
    {
      r := BinaryLevel(Equality);
    }

    /** `equality`, `comparison`, `term` and `factor`: an operand, then the
        level's operator loop. */
    method BinaryLevel(level: Level) returns (r: Result<Expr, LoxError>)
      requires Valid()
      modifies this`current
      ensures Valid()
      ensures Outcome(r, current, ParseLevel(rule, tokens, old(current), level))
      ensures rule == AsWritten ==> current == old(current)
      decreases |tokens| - current, 4 * Rank(level) + 3
    {
      var first := Operand(level);
      if first.Failure? {
        return Failure(first.error);
      }
      r := OperatorLoop(level, first.value);
    }

    /** The `while` loop of a binary level, entered with `expr` parsed so
        far: while one of the level's operators matches, `expr :=
        Binary(expr, operator, operand)`. */
    method OperatorLoop(level: Level, left: Expr) returns (r: Result<Expr, LoxError>)
      requires Valid()
      modifies this`current
      ensures Valid()
      ensures Outcome(r, current, ParseLoop(rule, tokens, level, left, old(current)))
      ensures rule == AsWritten ==> current == old(current)
      decreases |tokens| - current, 4 * Rank(level) + 2
    {
      var expr := left;
      ghost var p: nat := current;
      var matched := IsMatch(Operators(level));
      while matched
        invariant Valid() && p < |tokens|
        invariant ParseLoop(rule, tokens, level, expr, p) == ParseLoop(rule, tokens, level, left, old(current))
        invariant matched == Matches(rule, tokens, p, Operators(level))
        invariant current == if matched then p + 1 else p
        invariant rule == AsWritten ==> current == old(current)
        decreases |tokens| - current
      {
        ParseLoopStep(rule, tokens, level, expr, p);
        var next := LoopTurn(level, expr, p);
        if next.Failure? {
          return Failure(next.error);
        }
        expr := next.value;
        p := current;
        matched := IsMatch(Operators(level));
      }
      return Success(expr);
    }

    /** One turn of that loop, entered just after an operator matched at
        `p`: the operator is the previous token, and the operand parsed
        after it is folded into `expr`. */
    method LoopTurn(level: Level, expr: Expr, ghost p: nat) returns (r: Result<Expr, LoxError>)
      requires Valid() && p + 1 < |tokens| && current == p + 1
      requires Matches(rule, tokens, p, Operators(level))
      modifies this`current
      ensures Valid()
      ensures var right := ParseOperand(rule, tokens, p + 1, level);
        if right.Failure? then r == Failure(right.error)
        else r == Success(Binary(expr, tokens[p], right.value.expr)) && current == right.value.pos
      decreases |tokens| - current, 4 * Rank(level) + 1
    {
      MatchMoves(rule, tokens, p, Operators(level));
      var operator := Previous();
      var right := Operand(level);
      if right.Failure? {
        return Failure(right.error);
      }
      r := Success(Expr.Binary(expr, operator, right.value));
    }

    /** The operand of a level: the next tighter level, `unary` below
        `factor`. */
    method Operand(level: Level) returns (r: Result<Expr, LoxError>)
      requires Valid()
      modifies this`current
      ensures Valid()
      ensures Outcome(r, current, ParseOperand(rule, tokens, old(current), level))
      ensures rule == AsWritten ==> current == old(current)
      decreases |tokens| - current, 4 * Rank(level)
    {
      match level
      case Equality => r := BinaryLevel(Comparison);
      case Comparison => r := BinaryLevel(Term);
      case Term => r := BinaryLevel(Factor);
      case Factor => r := Unary();
    }

    /** `unary`: its `while` returns from the first iteration, so it runs at
        most once; the operand of `!` or `-` is parsed by `term`. */
    method Unary() returns (r: Result<Expr, LoxError>)
      requires Valid()
      modifies this`current
      ensures Valid()
      ensures Outcome(r, current, ParseUnary(rule, tokens, old(current)))
      ensures rule == AsWritten ==> current == old(current)
      decreases |tokens| - current, 1
    {
      var matched := IsMatch([Bang, Minus]);
      if matched {
        MatchMoves(rule, tokens, old(current), [Bang, Minus]);
        var operator := Previous();
        var right := BinaryLevel(Term);
        if right.Failure? {
          return Failure(right.error);
        }
        return Success(Expr.Unary(operator, right.value));
      }
      r := Primary();
    }

    /** `primary`. */
    method Primary() returns (r: Result<Expr, LoxError>)
      requires Valid()
      modifies this`current
      ensures Valid()
      ensures Outcome(r, current, ParsePrimary(rule, tokens, old(current)))
      ensures rule == AsWritten ==> current == old(current)
      decreases |tokens| - current, 0
    {
      var matched := IsMatch([TokenType.False]);
      if matched {
        MatchMoves(rule, tokens, old(current), [TokenType.False]);
        return Success(Literal(Some(Object.True)));
      }
      matched := IsMatch([TokenType.True]);
      if matched {
        MatchMoves(rule, tokens, old(current), [TokenType.True]);
        return Success(Literal(Some(Object.Nil)));
      }
      matched := IsMatch([TokenType.Nil]);
      if matched {
        MatchMoves(rule, tokens, old(current), [TokenType.Nil]);
        return Success(Literal(Some(Object.Nil)));
      }
      matched := IsMatch([Number, String]);
      if matched {
        MatchMoves(rule, tokens, old(current), [Number, String]);
        var prev := Previous();
        return Success(Literal(prev.literal));
      }
      matched := IsMatch([LeftParen]);
      if matched {
        MatchMoves(rule, tokens, old(current), [LeftParen]);
        var closing := Consume(RightParen);
        if closing.Some? {
          r := Expression();
          return;
        }
        return Failure(ErrorAt(ExpectRightParen));
      }
      return Failure(ErrorAt(UnknownTokenType));
    }
  }
}
