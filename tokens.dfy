/** The token model shared by the scanner and the parser: literal values,
    token categories and tokens themselves. Pure data. */
module Tokens {

  /** A literal value attached to a token or to a literal expression node.
      Numbers keep the digit text they were scanned from instead of a float. */
  datatype Literal =
    | String(text: string)
    | Number(lexeme: string)
    | Bool(value: bool)
    | Nil
    | None

  /** The closed set of token categories. */
  datatype TokenType =
    // One character tokens
    | LeftParen | RightParen | LeftBrace | RightBrace
    | Comma | Dot | Minus | Plus | SemiColon | Slash | Star
    // One or two character tokens
    | Bang | BangEqual | Equal | EqualEqual
    | Greater | GreaterEqual | Less | LessEqual
    // Literals
    | Identifier | String | Number
    // Keywords
    | And | Class | Else | False | Fun | For | If | Nil
    | Or | Print | Return | Super | This | True | Var | While
    | EOF

  /** One scanned token: its category, the source text it came from, its
      literal value (None unless it is a string or number) and its line. */
  datatype Token = Token(tokenType: TokenType, lexeme: string, literal: Literal, line: nat)

  /** The sixteen reserved words. */
  predicate IsKeyword(t: TokenType) {
    t in {TokenType.And, TokenType.Class, TokenType.Else, TokenType.False,
          TokenType.Fun, TokenType.For, TokenType.If, TokenType.Nil,
          TokenType.Or, TokenType.Print, TokenType.Return, TokenType.Super,
          TokenType.This, TokenType.True, TokenType.Var, TokenType.While}
  }
}
