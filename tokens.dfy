/** Tokens (lib/grongigo/token.rb) and the parse error (lib/grongigo/parse_error.rb). */
module Tokens {
  import Text

  datatype TokenKind =
    | TypeKeyword | ControlKeyword | OtherKeyword | Operator | Number | Identifier
    | StringLiteral | CharLiteral
    | OpenBrace | CloseBrace | OpenParen | CloseParen | OpenBracket | CloseBracket
    | Comma | Semicolon | Colon | Eof | Unknown

  /** A token's value: a string, an integer, a floating literal (kept as its text) or nil. */
  datatype TokenValue = Str(s: string) | Int(i: int) | Float(text: string) | Nil

  datatype Token = Token(kind: TokenKind, value: TokenValue, line: int, column: int)

  /** Ruby's `to_s` of a value, which is how the parser's strings are built from token values. */
  function ValueText(v: TokenValue): string {
    match v
    case Str(s) => s
    case Int(i) => Text.IntToString(i)
    case Float(t) => t
    case Nil => ""
  }

  /**
   * A `ParseError` carries the token at which the parser stopped. `Diverges` marks the one
   * input on which the source parser never returns (a switch clause body running into eof).
   */
  datatype ParseError = Expected(token: Token) | Diverges(token: Token)
}
