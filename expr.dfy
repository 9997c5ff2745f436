/** The expression tree built by the parser. Children are owned outright. */
module Ast {
  import opened Tokens

  datatype Expr =
    | Binary(left: Expr, operator: Token, right: Expr)
    | Unary(operator: Token, right: Expr)
    | Literal(value: Tokens.Literal)
    | Grouping(expr: Expr)
}
