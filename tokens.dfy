/**
 * The token vocabulary of Lox as the scanner produces it: a kind, the
 * lexeme (the exact source text), an optional literal and the line.
 * The kinds are those the scanner, parser and keyword table refer to.
 */
module Tokens {

  datatype TokenType =
    // single-character punctuation
    | LEFT_PAREN | RIGHT_PAREN | LEFT_BRACE | RIGHT_BRACE
    | COMMA | DOT | MINUS | PLUS | SEMICOLON | SLASH | STAR
    // one- or two-character operators
    | BANG | BANG_EQUAL | EQUAL | EQUAL_EQUAL
    | GREATER | GREATER_EQUAL | LESS | LESS_EQUAL
    // literals
    | IDENTIFIER | STRING | NUMBER
    // keywords
    | AND | CLASS | ELSE | FALSE | FUN | FOR | IF | NIL | OR
    | PRINT | RETURN | SUPER | THIS | TRUE | VAR | WHILE
    // end of input
    | EOF

  /**
   * The `Object literal` of a token: null, the value of a string literal,
   * or a number literal. The number's double value (`Double.parseDouble`
   * of its lexeme) is not modelled; the literal keeps the lexeme text.
   */
  datatype Literal =
    | NoLiteral
    | StringLiteral(value: string)
    | NumberLiteral(text: string)

  datatype Token = Token(kind: TokenType, lexeme: string, literal: Literal, line: int)
}
