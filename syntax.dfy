/** Expression and statement trees built by the parser. */
module Syntax {
  import opened Numbers
  import opened Tokens

  datatype Expr =
    | Binary(left: Expr, op: Token, right: Expr)
    | Grouping(inner: Expr)
    | Literal(value: Num)
    | Variable(name: Token)
    | Unary(op: Token, right: Expr)
    | Call(callee: Expr, args: seq<Expr>)

  /** A user function declaration: `name(params) = body`. */
  datatype Fnc = Fnc(name: Token, params: seq<Token>, body: Expr)

  datatype Stmt =
    | Print(expr: Expr)
    | Expression(expr: Expr)
    | Function(fnc: Fnc)
    | Variable(name: Token, initializer: Expr)
}
