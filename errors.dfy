/** Every abort of the source, as a value. */
module Errors {
  import opened Tokens

  datatype Error =
    | UnexpectedCharacter(ch: char)          // lexer: a character no rule handles
    | ExpectedExpression                     // parser: `primary` found no operand
    | ExpectedToken(expected: TokenKind)     // parser: `consume` did not find its token
    | MissingLiteral                         // parser: a Number token without a value
    | ImplicitProductArity(count: nat)       // parser: `3(...)` with other than one argument
    | DeclarationNotSupported                // parser: `=` after an unsupported shape
    | NoPreviousToken                        // parser: `previous` before the first token
    | NotANumber                             // arithmetic, `sin` or `factors` on a non-Number
    | UnsupportedOperator(op: TokenKind)     // evaluator: an operator token it has no rule for
    | NotAFunction                           // a call of a non-Function, or `plot` of one
    | ArityMismatch(arity: nat, given: nat)  // a call with the wrong number of arguments
    | MissingArgument(index: nat)            // a parameter without an argument (only via `plot`)
    | DepthExceeded                          // calls nested deeper than the model's bound

  datatype Result<+T> = Ok(value: T) | Err(error: Error)
}
