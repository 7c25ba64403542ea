/** Tokens produced by the scanner. */
module Tokens {
  import opened Wrappers
  import opened Numbers

  datatype TokenKind =
    | LeftParen | RightParen | Dot | Minus | Plus | Slash | Star | Caret | Comma
    | Bang | Equal | Greater | GreaterEqual | Less | LessEqual
    | Identifier | Number | Eof | Print

  /** A token: its kind, the source text it came from and, for numbers, the value. */
  datatype Token = Token(kind: TokenKind, lexeme: string, literal: Option<Num>)

  /** `Token::eof()`: the end-of-input sentinel. */
  const EofToken: Token := Token(Eof, "", None)

  /** The multiplication token the scanner and the parser synthesise. */
  const StarToken: Token := Token(Star, "*", None)
}
