/** The syntax tree of the Bases formula language. */
module Syntax {
  import opened Platforms

  datatype Expr =
    | Literal(value: Value)
    | Identifier(name: string)
    | ListOf(items: seq<Expr>)
    | Unary(operator: string, operand: Expr)
    | Binary(operator: string, left: Expr, right: Expr)
    | Member(owner: Expr, key: Expr, computed: bool)
    | Call(callee: Expr, args: seq<Expr>)
}
