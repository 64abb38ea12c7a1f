/** `AstPrinter` (src/printer.rs; ast-printer/src/main.rs holds a copy with
    the same rendering, differing only in visibility and in the type of the
    child slice): renders a tree in fully parenthesised prefix form. */
module Printer {
  import opened Wrappers
  import opened Errors
  import opened TokenTypes
  import opened Tokens
  import opened Ast

  /** The reference rendering: Binary as `(lexeme left right)`, Grouping as
      `(group inner)`, Unary as `(lexeme right)`, a literal as its value's
      display or `nil`. */
  function Render(e: Expr): string {
    match e
    case Binary(l, op, r) => Wrap(op.lexeme, Render(l) + " " + Render(r))
    case Grouping(x) => Wrap("group", Render(x))
    case Literal(v) => LiteralText(v)
    case Unary(op, r) => Wrap(op.lexeme, Render(r))
  }

  /** `(name body)`. */
  function Wrap(name: string, body: string): string {
    "(" + name + " " + body + ")"
  }

  function LiteralText(v: Option<Object>): string {
    match v
    case Some(o) => ObjectDisplay(o)
    case None => "nil"
  }

  /** Each child's rendering preceded by one space, in order. */
  function Spaced(es: seq<Expr>): string {
    if es == [] then "" else " " + Render(es[0]) + Spaced(es[1..])
  }

  /** `AstPrinter::print`, which is `expr.eccept(self)`: never an error, and
      always the reference rendering. */
  function Print(e: Expr): (r: Result<string, LoxError>)
    ensures r == Success(Render(e))
    decreases Size(e), 2
  {
    match e
    case Binary(l, op, r) => VisitBinary(l, op, r)
    case Grouping(x) => VisitGrouping(x)
    case Literal(v) => VisitLiteral(v)
    case Unary(op, r) => VisitUnary(op, r)
  }

  /** `visitor_binary_expr`: `(operator left right)`. */
  function VisitBinary(left: Expr, operator: Token, right: Expr): (r: Result<string, LoxError>)
    ensures r == Success(Wrap(operator.lexeme, Render(left) + " " + Render(right)))
    decreases Size(Binary(left, operator, right)), 1
  {
    assert [left, right][1..] == [right];
    assert SizeAll([left, right]) == Size(left) + Size(right) by {
      assert SizeAll([right]) == Size(right) + SizeAll([]);
    }
    SpacedPair(left, right);
    WrapSpaced(operator.lexeme, Render(left) + " " + Render(right));
    Parenthesize(operator.lexeme, [left, right])
  }

  lemma SpacedPair(left: Expr, right: Expr)
    ensures Spaced([left, right]) == " " + (Render(left) + " " + Render(right))
  {
    assert [left, right][1..] == [right];
    assert Spaced([right]) == " " + Render(right) + Spaced([]);
  }

  lemma WrapSpaced(name: string, body: string)
    ensures "(" + name + (" " + body) + ")" == Wrap(name, body)
  {
  }

  /** `visitor_grouping_expr`: `(group expression)`. */
  function VisitGrouping(expression: Expr): (r: Result<string, LoxError>)
    ensures r == Success(Wrap("group", Render(expression)))
    decreases Size(Grouping(expression)), 1
  {
    assert SizeAll([expression]) == Size(expression) + SizeAll([]);
    assert Spaced([expression]) == " " + Render(expression) + Spaced([]);
    assert "(" + "group" + Spaced([expression]) + ")" == Wrap("group", Render(expression));
    Parenthesize("group", [expression])
  }

  /** `visitor_literal_expr`: the value's display, or `nil` when absent. */
  function VisitLiteral(value: Option<Object>): (r: Result<string, LoxError>)
    ensures r.Success?
    ensures value.None? ==> r.value == "nil"
    ensures value.Some? ==> r.value == ObjectDisplay(value.value)
  {
    match value
    case Some(v) => Success(ObjectDisplay(v))
    case None => Success("nil")
  }

  /** `visitor_unary_expr`: `(operator right)`. */
  function VisitUnary(operator: Token, right: Expr): (r: Result<string, LoxError>)
    ensures r == Success(Wrap(operator.lexeme, Render(right)))
    decreases Size(Unary(operator, right)), 1
  {
    assert SizeAll([right]) == Size(right) + SizeAll([]);
    assert Spaced([right]) == " " + Render(right) + Spaced([]);
    assert "(" + operator.lexeme + Spaced([right]) + ")" == Wrap(operator.lexeme, Render(right));
    Parenthesize(operator.lexeme, [right])
  }

  /** `AstPrinter::parenthesize`: `(`, the name, each child after one space,
      then `)`. */
  function Parenthesize(name: string, exprs: seq<Expr>): (r: Result<string, LoxError>)
    ensures r == Success("(" + name + Spaced(exprs) + ")")
    decreases SizeAll(exprs), 4
  {
    Build("(" + name, exprs)
  }

  /** The `for` loop of `parenthesize`, folding the children into `builder`;
      a child's error would end the fold (`?`). */
  function Build(builder: string, exprs: seq<Expr>): (r: Result<string, LoxError>)
    ensures r == Success(builder + Spaced(exprs) + ")")
    decreases SizeAll(exprs), 3
  {
    if exprs == [] then
      assert builder + Spaced(exprs) == builder;
      Success(builder + ")")
    else
      match Print(exprs[0])
      case Failure(err) => Failure(err)
      case Success(s) =>
        assert builder + Spaced(exprs) + ")" == (builder + " " + s) + Spaced(exprs[1..]) + ")";
        Build(builder + " " + s, exprs[1..])
  }

  /** The printer as a visitor: one handler per node kind. */
  function PrinterVisitor(): ExprVisitor<string> {
    ExprVisitor(
      (l, op, r) => VisitBinary(l, op, r),
      x => VisitGrouping(x),
      v => VisitLiteral(v),
      (op, r) => VisitUnary(op, r))
  }

  /** `print` is the double dispatch of the printer visitor. */
  lemma PrintIsAccept(e: Expr)
    ensures Print(e) == Accept(e, PrinterVisitor())
  {
  }

  /** The tree that `main` (and `_print` in src/printer.rs) builds:
      `-123 * (45.67)`. */
  function SampleTree(): Expr {
    Binary(
      Unary(Token(TokenType.Minus, "-", None, 1), Literal(Some(Num("123")))),
      Token(TokenType.Star, "*", None, 1),
      Grouping(Literal(Some(Num("45.67")))))
  }

  lemma SampleRendering()
    ensures Print(SampleTree()) == Success("(* (- 123) (group 45.67))")
  {
    var t := SampleTree();
    var minus := Render(t.left);
    var group := Render(t.right);
    SampleOperands(t, minus, group);
    SampleText(minus, group);
  }

  /** The sample's two operands render as `(- 123)` and `(group 45.67)`. */
  lemma SampleOperands(t: Expr, minus: string, group: string)
    requires t == SampleTree() && minus == Render(t.left) && group == Render(t.right)
    ensures minus == "(- 123)" && group == "(group 45.67)"
    ensures Render(t) == Wrap("*", minus + " " + group)
  {
    assert Render(Literal(Some(Num("123")))) == "123";
    assert Render(Literal(Some(Num("45.67")))) == "45.67";
  }

  lemma SampleText(minus: string, group: string)
    requires minus == "(- 123)" && group == "(group 45.67)"
    ensures Wrap("*", minus + " " + group) == "(* (- 123) (group 45.67))"
  {
  }

  // Parentheses in the output

  function Opens(s: string): nat {
    multiset(s)['(']
  }

  function Closes(s: string): nat {
    multiset(s)[')']
  }

  /** As many `)` as `(`, and no prefix closes more than it opens. */
  ghost predicate Balanced(s: string) {
    Opens(s) == Closes(s) && forall k :: 0 <= k <= |s| ==> Closes(s[..k]) <= Opens(s[..k])
  }

  predicate ParenFreeText(t: string) {
    '(' !in t && ')' !in t
  }

  /** No operator lexeme and no literal display in the tree holds a parenthesis. */
  predicate ParenFree(e: Expr) {
    match e
    case Binary(l, op, r) => ParenFreeText(op.lexeme) && ParenFree(l) && ParenFree(r)
    case Grouping(x) => ParenFree(x)
    case Literal(v) => ParenFreeText(LiteralText(v))
    case Unary(op, r) => ParenFreeText(op.lexeme) && ParenFree(r)
  }

  lemma FlatBalanced(t: string)
    requires ParenFreeText(t)
    ensures Balanced(t) && Opens(t) == 0
  {
  }

  lemma {:induction false} ConcatBalanced(a: string, b: string)
    requires Balanced(a) && Balanced(b)
    ensures Balanced(a + b) && Opens(a + b) == Opens(a) + Opens(b)
  {
    var s := a + b;
    forall k | 0 <= k <= |s|
      ensures Closes(s[..k]) <= Opens(s[..k])
    {
      if k <= |a| {
        assert s[..k] == a[..k];
      } else {
        assert s[..k] == a + b[..k - |a|];
        assert Closes(b[..k - |a|]) <= Opens(b[..k - |a|]);
      }
    }
  }

  lemma {:induction false} WrapBalanced(name: string, body: string)
    requires ParenFreeText(name) && Balanced(body)
    ensures Balanced(Wrap(name, body)) && Opens(Wrap(name, body)) == Opens(body) + 1
  {
    FlatBalanced(name + " ");
    ConcatBalanced(name + " ", body);
    var a := name + " " + body;
    var s := "(" + a + ")";
    assert Wrap(name, body) == s;
    forall k | 0 <= k <= |s|
      ensures Closes(s[..k]) <= Opens(s[..k])
    {
      if k == 0 {
        assert s[..k] == [];
      } else if k <= |a| + 1 {
        assert s[..k] == "(" + a[..k - 1];
        assert Closes(a[..k - 1]) <= Opens(a[..k - 1]);
      } else {
        assert s[..k] == s;
      }
    }
  }

  lemma BinaryBalanced(l: Expr, op: Token, r: Expr)
    requires ParenFreeText(op.lexeme)
    requires Balanced(Render(l)) && Opens(Render(l)) == Composites(l)
    requires Balanced(Render(r)) && Opens(Render(r)) == Composites(r)
    ensures Balanced(Render(Binary(l, op, r)))
    ensures Opens(Render(Binary(l, op, r))) == Composites(Binary(l, op, r))
  {
    var a, b := Render(l), Render(r);
    assert ParenFreeText(" ");
    FlatBalanced(" ");
    ConcatBalanced(a, " ");
    ConcatBalanced(a + " ", b);
    WrapBalanced(op.lexeme, a + " " + b);
  }

  lemma GroupingBalanced(x: Expr)
    requires Balanced(Render(x)) && Opens(Render(x)) == Composites(x)
    ensures Balanced(Render(Grouping(x))) && Opens(Render(Grouping(x))) == Composites(Grouping(x))
  {
    GroupWordParenFree("group");
    WrapBalanced("group", Render(x));
  }

  lemma GroupWordParenFree(w: string)
    requires w == "group"
    ensures ParenFreeText(w)
  {
    assert w == ['g', 'r', 'o', 'u', 'p'];
  }

  lemma UnaryBalanced(op: Token, r: Expr)
    requires ParenFreeText(op.lexeme)
    requires Balanced(Render(r)) && Opens(Render(r)) == Composites(r)
    ensures Balanced(Render(Unary(op, r))) && Opens(Render(Unary(op, r))) == Composites(Unary(op, r))
  {
    WrapBalanced(op.lexeme, Render(r));
  }

  /** When no lexeme or literal display holds a parenthesis, the output is
      balanced and holds one pair per Binary, Grouping and Unary node. */
  lemma {:induction false} RenderBalanced(e: Expr)
    requires ParenFree(e)
    ensures Balanced(Render(e)) && Opens(Render(e)) == Composites(e)
  {
    match e
    case Binary(l, op, r) =>
      RenderBalanced(l);
      RenderBalanced(r);
      BinaryBalanced(l, op, r);
    case Grouping(x) =>
      RenderBalanced(x);
      GroupingBalanced(x);
    case Literal(v) =>
      FlatBalanced(LiteralText(v));
    case Unary(op, r) =>
      RenderBalanced(r);
      UnaryBalanced(op, r);
  }
}
