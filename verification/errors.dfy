/** The diagnostics of the compiler (lox/errors.py), as values rather than exceptions. */
module Errors {
  import opened Tokens
  import opened Wrappers

  /** Why the parser gave up: the message the source builds, without its wording. */
  datatype Reason =
    | Expected(kind: TokenType)  // `eat` found a token of another kind
    | ExpectedFactor             // `factor` found neither a number nor '('
    | TrailingInput              // `parse` found tokens after a complete expression

  datatype CompilerError =
    | LexerError(column: nat)                // unknown character at this offset
    | ParserError(reason: Reason, found: Token)  // the lookahead token when parsing failed
    | EmptyText                              // `Lexer("")` fails reading `text[0]`
    | UnknownOperator(op: Token)             // code generation met an operator it cannot emit

  type Outcome<T> = Result<T, CompilerError>
}
