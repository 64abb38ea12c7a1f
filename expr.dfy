/** The expression tree and its visitor dispatch (ast-printer/src/expr.rs). */
module Ast {
  import opened Wrappers
  import opened Errors
  import opened Tokens

  /** The closed set of node kinds; each node owns its children. */
  datatype Expr =
    | Binary(left: Expr, operator: Token, right: Expr)
    | Grouping(expression: Expr)
    | Literal(value: Option<Object>)
    | Unary(operator: Token, right: Expr)

  /** `ExprVisitor<T>`: one handler per node kind, each given the node's fields. */
  datatype ExprVisitor<T> = ExprVisitor(
    visitBinary: (Expr, Token, Expr) -> Result<T, LoxError>,
    visitGrouping: Expr -> Result<T, LoxError>,
    visitLiteral: Option<Object> -> Result<T, LoxError>,
    visitUnary: (Token, Expr) -> Result<T, LoxError>)

  /** `Expr::eccept` followed by the node's own `eccept`: the handler for the
      node's kind is called and its result is returned unchanged. */
  function Accept<T>(e: Expr, visitor: ExprVisitor<T>): Result<T, LoxError> {
    match e
    case Binary(l, op, r) => visitor.visitBinary(l, op, r)
    case Grouping(x) => visitor.visitGrouping(x)
    case Literal(v) => visitor.visitLiteral(v)
    case Unary(op, r) => visitor.visitUnary(op, r)
  }

  /** Dispatch consults only the handler of the node's own kind, calls it
      with the node's fields and returns its result unchanged: two visitors
      that agree on that handler give the same result. */
  lemma AcceptUsesOwnHandler<T>(e: Expr, v: ExprVisitor<T>, w: ExprVisitor<T>)
    requires e.Binary? ==> v.visitBinary == w.visitBinary
    requires e.Grouping? ==> v.visitGrouping == w.visitGrouping
    requires e.Literal? ==> v.visitLiteral == w.visitLiteral
    requires e.Unary? ==> v.visitUnary == w.visitUnary
    ensures e.Binary? ==> Accept(e, v) == v.visitBinary(e.left, e.operator, e.right)
    ensures e.Grouping? ==> Accept(e, v) == v.visitGrouping(e.expression)
    ensures e.Literal? ==> Accept(e, v) == v.visitLiteral(e.value)
    ensures e.Unary? ==> Accept(e, v) == v.visitUnary(e.operator, e.right)
    ensures Accept(e, v) == Accept(e, w)
  {
  }

  /** Number of nodes; the measure for recursion over trees. */
  function Size(e: Expr): nat {
    match e
    case Binary(l, _, r) => 1 + Size(l) + Size(r)
    case Grouping(x) => 1 + Size(x)
    case Literal(_) => 1
    case Unary(_, r) => 1 + Size(r)
  }

  function SizeAll(es: seq<Expr>): nat {
    if es == [] then 0 else Size(es[0]) + SizeAll(es[1..])
  }

  /** Number of Binary, Grouping and Unary nodes: those that print a pair
      of parentheses. */
  function Composites(e: Expr): nat {
    match e
    case Binary(l, _, r) => 1 + Composites(l) + Composites(r)
    case Grouping(x) => 1 + Composites(x)
    case Literal(_) => 0
    case Unary(_, r) => 1 + Composites(r)
  }
}
