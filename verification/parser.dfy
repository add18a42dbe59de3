/** The recursive-descent parser of lox/parser.py. It pulls tokens from the lexer one
    at a time, holding exactly one token of lookahead, and builds `Num`/`BinOp` trees. */
module Parsing {
  import opened Wrappers
  import opened Tokens
  import opened Errors
  import opened Lexing

  /** AST nodes. A `Num` keeps the value of its `INTEGER` token; a `BinOp` keeps its
      operator token, as the source does. */
  datatype Ast = Num(value: nat) | BinOp(left: Ast, op: Token, right: Ast)

  /** Every operator in the tree is one of the four binary operators. */
  predicate WellFormed(e: Ast) {
    match e
    case Num(_) => true
    case BinOp(l, op, r) => op.IsOperator() && WellFormed(l) && WellFormed(r)
  }

  /** The parser's state: the lexer it pulls from and the lookahead `current_token`. */
  datatype ParserState = ParserState(lex: Lexer, current: Token)

  /** Characters left to read, plus one while the lookahead is not `Eof`. Eating any
      token other than `Eof` makes it smaller. */
  function Measure(p: ParserState): nat {
    (|p.lex.text| - p.lex.pos) + (if p.current == Eof then 0 else 1)
  }

  /** A parser diagnostic that is genuine for a parser whose lexer started at `lx`: a
      lexical error names the first unrecognised character from the cursor of `lx` on,
      and a syntax error names a lookahead token that really violates what was
      expected. */
  predicate Genuine(lx: LexState, err: CompilerError) {
    match err
    case LexerError(column) => Unrecognised(lx.text, column) && Recognised(lx.text, lx.pos, column)
    case ParserError(reason, found) =>
      (match reason
       case Expected(kind) => found.Kind() != kind
       case ExpectedFactor => !found.Int? && found != LParen
       case TrailingInput => found != Eof)
    case EmptyText => false
    case UnknownOperator(_) => false
  }

  /** `Parser(lexer)`: reads the first lookahead token. */
  function NewParser(lx: Lexer): (r: Outcome<ParserState>)
    ensures r.Ok? ==> r.value.lex.text == lx.text
    ensures r.Ok? ==> NextToken(lx) == Ok((r.value.current, r.value.lex))
    ensures r.Err? ==> NextToken(lx).Err? && r.error == NextToken(lx).error
    ensures r.Err? ==> Genuine(lx, r.error)
  {
    NextTokenRecognised(lx);
    var (tok, lx') :- NextToken(lx);
    Ok(ParserState(lx', tok))
  }

  /** `eat`: consumes the lookahead if it has the expected kind, reading the next token
      from the lexer; otherwise fails naming the expected kind and the token found. */
  function Eat(p: ParserState, kind: TokenType): (r: Outcome<ParserState>)
    ensures p.current.Kind() != kind ==> r == Err(ParserError(Expected(kind), p.current))
    ensures p.current.Kind() == kind ==> (r.Ok? <==> NextToken(p.lex).Ok?)
    ensures r.Ok? ==> NextToken(p.lex) == Ok((r.value.current, r.value.lex))
    ensures r.Ok? && kind != EOF ==> Measure(r.value) < Measure(p)
    ensures r.Ok? ==> r.value.lex.text == p.lex.text
    ensures p.current.Kind() == kind && r.Err? ==> r.error == NextToken(p.lex).error
    ensures r.Ok? ==> Recognised(p.lex.text, p.lex.pos, r.value.lex.pos)
    ensures r.Err? ==> Genuine(p.lex, r.error)
  {
    if p.current.Kind() == kind then
      NextTokenRecognised(p.lex);
      var (tok, lx') :- NextToken(p.lex);
      Ok(ParserState(lx', tok))
    else
      Err(ParserError(Expected(kind), p.current))
  }

  /** `factor := INTEGER | '(' expr ')'`. A parenthesised expression yields the inner
      tree itself. */
  function Factor(p: ParserState): (r: Outcome<(Ast, ParserState)>)
    decreases Measure(p), 1
    ensures r.Ok? ==> Measure(r.value.1) < Measure(p) && r.value.1.lex.text == p.lex.text
    ensures r.Ok? ==> WellFormed(r.value.0)
    ensures r.Ok? ==> Recognised(p.lex.text, p.lex.pos, r.value.1.lex.pos)
    ensures r.Err? ==> Genuine(p.lex, r.error)
    ensures !p.current.Int? && p.current != LParen
            <==> r == Err(ParserError(ExpectedFactor, p.current))
  {
    match p.current
    case Int(v) =>
      var q :- Eat(p, INTEGER);
      Ok((Num(v), q))
    case LParen =>
      var q :- Eat(p, LPAREN);
      var inner :- Expr(q);
      var q' :- Eat(inner.1, RPAREN);
      Ok((inner.0, q'))
    case _ => Err(ParserError(ExpectedFactor, p.current))
  }

  /** The loop of `term`: while the lookahead is `*` or `/`, eat it, parse a factor and
      fold it onto the tree built so far as its right operand. */
  function TermLoop(p: ParserState, node: Ast): (r: Outcome<(Ast, ParserState)>)
    decreases Measure(p), 0
    ensures r.Ok? ==> Measure(r.value.1) <= Measure(p) && r.value.1.lex.text == p.lex.text
    ensures r.Ok? && WellFormed(node) ==> WellFormed(r.value.0)
    ensures r.Ok? ==> !r.value.1.current.IsMultiplicative()
    ensures r.Ok? ==> Recognised(p.lex.text, p.lex.pos, r.value.1.lex.pos)
    ensures r.Err? ==> Genuine(p.lex, r.error)
  {
    if p.current.IsMultiplicative() then
      var q :- Eat(p, p.current.Kind());
      var right :- Factor(q);
      TermLoop(right.1, BinOp(node, p.current, right.0))
    else
      Ok((node, p))
  }

  /** `term := factor (('*' | '/') factor)*`, folded to the left. */
  function Term(p: ParserState): (r: Outcome<(Ast, ParserState)>)
    decreases Measure(p), 2
    ensures r.Ok? ==> Measure(r.value.1) < Measure(p) && r.value.1.lex.text == p.lex.text
    ensures r.Ok? ==> WellFormed(r.value.0)
    ensures r.Ok? ==> !r.value.1.current.IsMultiplicative()
    ensures r.Ok? ==> Recognised(p.lex.text, p.lex.pos, r.value.1.lex.pos)
    ensures r.Err? ==> Genuine(p.lex, r.error)
  {
    var first :- Factor(p);
    TermLoop(first.1, first.0)
  }

  /** The loop of `expr`: while the lookahead is `+` or `-`, eat it, parse a term and
      fold it onto the tree built so far as its right operand. */
  function ExprLoop(p: ParserState, node: Ast): (r: Outcome<(Ast, ParserState)>)
    decreases Measure(p), 0
    ensures r.Ok? ==> Measure(r.value.1) <= Measure(p) && r.value.1.lex.text == p.lex.text
    ensures r.Ok? && WellFormed(node) ==> WellFormed(r.value.0)
    ensures r.Ok? ==> !r.value.1.current.IsAdditive()
    ensures r.Ok? && r.value.1.current.IsMultiplicative() ==> r.value == (node, p)
    ensures r.Ok? ==> Recognised(p.lex.text, p.lex.pos, r.value.1.lex.pos)
    ensures r.Err? ==> Genuine(p.lex, r.error)
  {
    if p.current.IsAdditive() then
      var q :- Eat(p, p.current.Kind());
      var right :- Term(q);
      ExprLoop(right.1, BinOp(node, p.current, right.0))
    else
      Ok((node, p))
  }

  /** `expr := term (('+' | '-') term)*`, folded to the left. On success the lookahead
      is none of the four operators. */
  function Expr(p: ParserState): (r: Outcome<(Ast, ParserState)>)
    decreases Measure(p), 3
    ensures r.Ok? ==> Measure(r.value.1) < Measure(p) && r.value.1.lex.text == p.lex.text
    ensures r.Ok? ==> WellFormed(r.value.0)
    ensures r.Ok? ==> !r.value.1.current.IsOperator()
    ensures r.Ok? ==> Recognised(p.lex.text, p.lex.pos, r.value.1.lex.pos)
    ensures r.Err? ==> Genuine(p.lex, r.error)
  {
    var first :- Term(p);
    ExprLoop(first.1, first.0)
  }

  /** `parse`: an expression that must be followed by `Eof`. */
  function ParseTokens(p: ParserState): (r: Outcome<Ast>)
    ensures r.Ok? ==> WellFormed(r.value)
    ensures r.Ok? ==> exists q: ParserState :: Expr(p) == Ok((r.value, q)) && q.current == Eof
    ensures r.Err? ==> Genuine(p.lex, r.error)
  {
    var e :- Expr(p);
    if e.1.current != Eof then Err(ParserError(TrailingInput, e.1.current)) else Ok(e.0)
  }

  /** `Parser(Lexer(text)).parse()`. */
  function Parse(text: string): (r: Outcome<Ast>)
    ensures r.Ok? ==> WellFormed(r.value)
    ensures (r.Err? && r.error == EmptyText) <==> text == []
    ensures r.Err? && text != [] ==> Genuine(LexState(text, 0), r.error)
  {
    var lx :- NewLexer(text);
    var p :- NewParser(lx);
    ParseTokens(p)
  }
}
