/** Token kinds and tokens produced by the lexer (lox/lexer.py, `TokenType` and `Token`). */
module Tokens {

  /** The eight token kinds; `NEG` is the subtraction operator (there is no unary minus). */
  datatype TokenType = PLUS | NEG | MULTIPLY | DIVIDE | LPAREN | RPAREN | INTEGER | EOF

  /** A token. Only `Int` carries a value; the value the source stores for the other
      kinds is the character they were read from (`SurfaceChar`), or `None` for `Eof`. */
  datatype Token = Plus | Neg | Multiply | Divide | LParen | RParen | Int(value: nat) | Eof {

    function Kind(): TokenType {
      match this
      case Plus => PLUS
      case Neg => NEG
      case Multiply => MULTIPLY
      case Divide => DIVIDE
      case LParen => LPAREN
      case RParen => RPAREN
      case Int(_) => INTEGER
      case Eof => EOF
    }

    /** True for the six tokens spelled by a single character. */
    predicate IsSymbol() {
      !Int? && !Eof?
    }

    /** The character a single-character token is read from. */
    function SurfaceChar(): char
      requires IsSymbol()
    {
      match this
      case Plus => '+'
      case Neg => '-'
      case Multiply => '*'
      case Divide => '/'
      case LParen => '('
      case RParen => ')'
    }

    /** The binary operators a `BinOp` node may carry. */
    predicate IsOperator() {
      Plus? || Neg? || Multiply? || Divide?
    }

    predicate IsAdditive() {
      Plus? || Neg?
    }

    predicate IsMultiplicative() {
      Multiply? || Divide?
    }
  }
}
