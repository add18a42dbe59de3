/** The round trip through the parser: the tokens of a tree, printed with any
    parentheses that keep its grouping, parse back to that same tree, which pins down
    precedence, left associativity and the transparency of parentheses; and each kind of
    failure of the parser, stated over the tokens read before it. */
module ParserRoundTrip {
  import opened Wrappers
  import opened Tokens
  import opened Errors
  import opened Lexing
  import opened Parsing
  import opened RoundTrip

  /** A parse tree that keeps the parentheses of its text, redundant pairs included. */
  datatype Syntax = Lit(value: nat) | Infix(left: Syntax, op: Token, right: Syntax) | Group(inner: Syntax)

  /** How tightly an operator binds: 1 for `+`/`-`, 2 for `*`/`/`. */
  function OpLevel(op: Token): nat {
    if op.IsAdditive() then 1 else 2
  }

  /** Precedence level of a syntax tree's root; a number or a group binds tightest. */
  function Rank(s: Syntax): nat {
    match s
    case Infix(_, op, _) => OpLevel(op)
    case _ => 3
  }

  /** Every operator is binary and the parentheses present are enough to group the
      operands as the tree does: a left operand binds at least as tightly as its
      operator, a right operand strictly more tightly. */
  predicate Readable(s: Syntax) {
    match s
    case Lit(_) => true
    case Infix(l, op, r) =>
      op.IsOperator() && Rank(l) >= OpLevel(op) && Rank(r) > OpLevel(op) && Readable(l) && Readable(r)
    case Group(inner) => Readable(inner)
  }

  /** The tokens of a syntax tree, with exactly its parentheses. */
  function Print(s: Syntax): (ts: seq<Token>)
    requires Readable(s)
    ensures |ts| > 0 && NoEof(ts)
  {
    match s
    case Lit(v) => [Int(v)]
    case Infix(l, op, r) => Print(l) + ([op] + Print(r))
    case Group(inner) => [LParen] + Print(inner) + [RParen]
  }

  /** The tree a syntax tree stands for: its parentheses dropped. */
  function Strip(s: Syntax): (e: Ast)
    ensures Readable(s) ==> WellFormed(e)
  {
    match s
    case Lit(v) => Num(v)
    case Infix(l, op, r) => BinOp(Strip(l), op, Strip(r))
    case Group(inner) => Strip(inner)
  }

  /** The syntax tree printed by `Flat`: parentheses only where precedence demands
      them, so that it stands for `e` and prints as `Flat(e)`. */
  function Minimal(e: Ast): (s: Syntax)
    requires WellFormed(e)
    ensures Readable(s) && Strip(s) == e && Rank(s) == Level(e) && Print(s) == Flat(e)
    decreases e, 0
  {
    match e
    case Num(v) => Lit(v)
    case BinOp(l, op, r) => Infix(MinimalAt(l, OpLevel(op)), op, MinimalAt(r, OpLevel(op) + 1))
  }

  function MinimalAt(e: Ast, level: nat): (s: Syntax)
    requires WellFormed(e) && level <= 3
    ensures Readable(s) && Strip(s) == e && Rank(s) >= level && Print(s) == FlatAt(e, level)
    decreases e, 1
  {
    if Level(e) >= level then Minimal(e) else Group(Minimal(e))
  }

  /** The tokens read so far at a point where an operand must start: the beginning of
      an expression, just inside an opening parenthesis, or after a complete left
      operand and an operator, where the operand may itself open parentheses. */
  datatype Slot = Start | Open(inner: Slot) | After(left: Syntax, op: Token, operand: Slot)

  predicate Placed(c: Slot) {
    match c
    case Start => true
    case Open(inner) => Placed(inner)
    case After(l, op, operand) => Readable(l) && op.IsOperator() && !operand.After? && Placed(operand)
  }

  function PrintSlot(c: Slot): (ts: seq<Token>)
    requires Placed(c)
    ensures NoEof(ts)
  {
    match c
    case Start => []
    case Open(inner) => [LParen] + PrintSlot(inner)
    case After(l, op, operand) => Print(l) + ([op] + PrintSlot(operand))
  }


  /** Eating the tokens `ts` one after another, each having to be the lookahead:
      the state reached, if every step succeeds. */
  function Walk(p: ParserState, ts: seq<Token>): Option<ParserState>
    decreases |ts|
  {
    if ts == [] then Some(p)
    else if p.current != ts[0] then None
    else match Eat(p, ts[0].Kind())
      case Ok(q) => Walk(q, ts[1..])
      case Err(_) => None
  }

  lemma {:induction false} WalkAppend(p: ParserState, a: seq<Token>, b: seq<Token>)
    ensures Walk(p, a + b) == match Walk(p, a) case Some(m) => Walk(m, b) case None => None
    decreases |a|
  {
    if a == [] {
      assert a + b == b;
    } else {
      assert (a + b)[0] == a[0];
      assert (a + b)[1..] == a[1..] + b;
      if p.current == a[0] && Eat(p, a[0].Kind()).Ok? {
        WalkAppend(Eat(p, a[0].Kind()).value, a[1..], b);
      }
    }
  }

  /** What one step of a successful `Tokenize` says about `NextToken`. */
  lemma {:induction false} TokenizeUnfold(lx: Lexer, ts: seq<Token>)
    requires Tokenize(lx) == Ok(ts)
    ensures NextToken(lx).Ok? && |ts| > 0 && NextToken(lx).value.0 == ts[0]
    ensures ts[0] == Eof ==> ts == [Eof]
    ensures ts[0] != Eof ==> Tokenize(NextToken(lx).value.1) == Ok(ts[1..])
  {
  }

  /** A parser whose lookahead and remaining input produce the tokens `ts` walks
      through all of them and ends with `Eof` as the lookahead. */
  lemma {:induction false} WalkTokens(p: ParserState, ts: seq<Token>)
    requires NoEof(ts) && |ts| > 0 && p.current == ts[0]
    requires Tokenize(p.lex) == Ok(ts[1..] + [Eof])
    ensures Walk(p, ts).Some? && Walk(p, ts).value.current == Eof
    decreases |ts|
  {
    TokenizeUnfold(p.lex, ts[1..] + [Eof]);
    var q := ParserState(NextToken(p.lex).value.1, NextToken(p.lex).value.0);
    assert Eat(p, ts[0].Kind()) == Ok(q);
    assert Walk(p, ts) == Walk(q, ts[1..]);
    if |ts| > 1 {
      assert (ts[1..] + [Eof])[1..] == ts[2..] + [Eof];
      WalkTokens(q, ts[1..]);
    }
  }

  /** The parser built on a text whose tokens are `ts` starts in a state `p` from which
      parsing proceeds, and it can walk through all of `ts`, ending on `Eof`. A blank
      text has no tokens but `Eof`; only the empty text has no parser at all. */
  lemma {:induction false} StartTokens(text: string, ts: seq<Token>) returns (p: ParserState)
    requires NoEof(ts) && (|ts| > 0 || text != []) && Tokenize(LexState(text, 0)) == Ok(ts + [Eof])
    ensures Parse(text) == ParseTokens(p)
    ensures Walk(p, ts).Some? && Walk(p, ts).value.current == Eof
  {
    var lx := LexState(text, 0);
    TokenizeUnfold(lx, ts + [Eof]);
    assert NewLexer(text) == Ok(lx);
    p := NewParser(lx).value;
    if |ts| > 0 {
      assert (ts + [Eof])[1..] == ts[1..] + [Eof];
      WalkTokens(p, ts);
    }
  }

  /** One turn of the loop in `term`. */
  lemma {:induction false} TermLoopStep(m1: ParserState, node: Ast, m2: ParserState, right: Ast, m: ParserState)
    requires m1.current.IsMultiplicative() && Eat(m1, m1.current.Kind()) == Ok(m2)
    requires Factor(m2) == Ok((right, m))
    ensures TermLoop(m1, node) == TermLoop(m, BinOp(node, m1.current, right))
  {
  }

  /** One turn of the loop in `expr`. */
  lemma {:induction false} ExprLoopStep(m1: ParserState, node: Ast, m2: ParserState, right: Ast, m: ParserState)
    requires m1.current.IsAdditive() && Eat(m1, m1.current.Kind()) == Ok(m2)
    requires Term(m2) == Ok((right, m))
    ensures ExprLoop(m1, node) == ExprLoop(m, BinOp(node, m1.current, right))
  {
  }

  /** Walking one token is one `eat`. */
  lemma {:induction false} WalkOne(m1: ParserState, t: Token, rest: seq<Token>)
    requires Walk(m1, [t] + rest).Some?
    ensures m1.current == t && Eat(m1, t.Kind()).Ok?
    ensures Walk(m1, [t] + rest) == Walk(Eat(m1, t.Kind()).value, rest)
  {
    assert ([t] + rest)[0] == t && ([t] + rest)[1..] == rest;
  }

  /** Walking `a`, then an operator or other token `op`, then `b`: the states before
      and after `op`. */
  lemma {:induction false} WalkSplit(p: ParserState, a: seq<Token>, op: Token, b: seq<Token>) returns (m1: ParserState, m2: ParserState)
    requires Walk(p, a + ([op] + b)).Some?
    ensures Walk(p, a) == Some(m1) && m1.current == op && Eat(m1, op.Kind()) == Ok(m2)
    ensures Walk(m2, b) == Walk(p, a + ([op] + b))
  {
    WalkAppend(p, a, [op] + b);
    m1 := Walk(p, a).value;
    WalkOne(m1, op, b);
    m2 := Eat(m1, op.Kind()).value;
  }

  /** After reading the tokens of a syntax tree of term level, `term` is in its loop
      with that tree folded so far, whatever token comes next. */
  lemma {:induction false} TermReads(s: Syntax, p: ParserState)
    requires Readable(s) && Rank(s) >= 2 && Walk(p, Print(s)).Some?
    ensures Term(p) == TermLoop(Walk(p, Print(s)).value, Strip(s))
    decreases s, 1
  {
    var m := Walk(p, Print(s)).value;
    if !s.Infix? {
      FactorReads(s, p);
    } else {
      var Infix(l, op, r) := s;
      var m1, m2 := WalkSplit(p, Print(l), op, Print(r));
      TermReads(l, p);
      FactorReads(r, m2);
      TermLoopStep(m1, Strip(l), m2, Strip(r), m);
    }
  }

  /** A syntax tree of factor level, a number or a group, is read back by `factor`; a
      group is read as the tree inside it, with no node for the parentheses. */
  lemma {:induction false} FactorReads(s: Syntax, p: ParserState)
    requires Readable(s) && Rank(s) == 3 && Walk(p, Print(s)).Some?
    ensures Factor(p) == Ok((Strip(s), Walk(p, Print(s)).value))
    decreases s, 0
  {
    if s.Lit? {
      assert Print(s) == [Int(s.value)] + [];
      WalkOne(p, Int(s.value), []);
    } else {
      GroupReads(s.inner, p);
    }
  }

  /** `'(' s ')'` is read by `factor` as the tree `s` stands for. */
  lemma {:induction false} GroupReads(s: Syntax, p: ParserState)
    requires Readable(s) && Walk(p, [LParen] + Print(s) + [RParen]).Some?
    ensures Factor(p) == Ok((Strip(s), Walk(p, [LParen] + Print(s) + [RParen]).value))
    decreases s, 3
  {
    var p1, m, q := GroupWalk(p, Print(s));
    ExprReads(s, p1);
    GroupCloses(p, p1, Strip(s), m, q);
  }

  /** Walking `(`, then `ts`, then `)`: the states after each part. */
  lemma {:induction false} GroupWalk(p: ParserState, ts: seq<Token>) returns (p1: ParserState, m: ParserState, q: ParserState)
    requires Walk(p, [LParen] + ts + [RParen]).Some?
    ensures p.current == LParen && Eat(p, LPAREN) == Ok(p1)
    ensures Walk(p1, ts) == Some(m) && m.current == RParen && Eat(m, RPAREN) == Ok(q)
    ensures Walk(p, [LParen] + ts + [RParen]) == Some(q)
  {
    Bracketed(ts);
    WalkOne(p, LParen, ts + ([RParen] + []));
    p1 := Eat(p, LPAREN).value;
    m, q := WalkSplit(p1, ts, RParen, []);
  }

  /** `factor` on `(`, when `expr` stops on `)`. */
  lemma {:induction false} GroupCloses(p: ParserState, p1: ParserState, e: Ast, m: ParserState, q: ParserState)
    requires p.current == LParen && Eat(p, LPAREN) == Ok(p1) && Expr(p1) == ExprLoop(m, e)
    requires m.current == RParen && Eat(m, RPAREN) == Ok(q)
    ensures Factor(p) == Ok((e, q))
  {
    assert Expr(p1) == Ok((e, m));
    FactorGroup(p, p1, e, m);
  }

  /** `factor` on `(`: the expression inside is read by `expr`, and `factor` then
      succeeds exactly when `)` follows it. */
  lemma {:induction false} FactorGroup(p: ParserState, p1: ParserState, e: Ast, m: ParserState)
    requires p.current == LParen && Eat(p, LPAREN) == Ok(p1) && Expr(p1) == Ok((e, m))
    ensures Factor(p) == match Eat(m, RPAREN) case Ok(q) => Ok((e, q)) case Err(x) => Err(x)
  {
  }

  /** After reading any syntax tree's tokens, `expr` is in its loop with that tree
      folded so far, provided the next token does not continue a term. */
  lemma {:induction false} ExprReads(s: Syntax, p: ParserState)
    requires Readable(s) && Walk(p, Print(s)).Some?
    requires !Walk(p, Print(s)).value.current.IsMultiplicative()
    ensures Expr(p) == ExprLoop(Walk(p, Print(s)).value, Strip(s))
    decreases s, 2
  {
    if Rank(s) >= 2 {
      TermReads(s, p);
    } else {
      SumReads(s, p);
    }
  }

  /** The additive case of `ExprReads`: the left operand is read by `expr` itself, the
      right one by one turn of its loop. */
  lemma {:induction false} SumReads(s: Syntax, p: ParserState)
    requires Readable(s) && Rank(s) == 1 && Walk(p, Print(s)).Some?
    requires !Walk(p, Print(s)).value.current.IsMultiplicative()
    ensures Expr(p) == ExprLoop(Walk(p, Print(s)).value, Strip(s))
    decreases s, 1
  {
    var m := Walk(p, Print(s)).value;
    var Infix(l, op, r) := s;
    var m1, m2 := WalkSplit(p, Print(l), op, Print(r));
    ExprReads(l, p);
    TermReads(r, m2);
    ExprLoopStep(m1, Strip(l), m2, Strip(r), m);
  }

  /** A parser whose tokens print the syntax tree `s` and then end yields the tree `s`
      denotes. */
  lemma {:induction false} ParsesSyntax(p: ParserState, s: Syntax)
    requires Readable(s) && Walk(p, Print(s)).Some? && Walk(p, Print(s)).value.current == Eof
    ensures ParseTokens(p) == Ok(Strip(s))
  {
    var m := Walk(p, Print(s)).value;
    ExprReads(s, p);
    assert ExprLoop(m, Strip(s)) == Ok((Strip(s), m));
  }

  /** `factor` on `(` and the tokens of `s`, then a token that can neither continue
      the expression nor close it, fails where `)` is expected, naming that token. */
  lemma {:induction false} FactorUnclosed(p: ParserState, s: Syntax)
    requires Readable(s) && Walk(p, [LParen] + Print(s)).Some?
    requires !Walk(p, [LParen] + Print(s)).value.current.IsOperator()
    requires Walk(p, [LParen] + Print(s)).value.current != RParen
    ensures Factor(p) == Err(ParserError(Expected(RPAREN), Walk(p, [LParen] + Print(s)).value.current))
  {
    var p1 := OpenWalk(p, Print(s));
    ExprReads(s, p1);
    GroupUnclosed(p, p1, Strip(s), Walk(p1, Print(s)).value);
  }

  /** Walking `(` and then `ts`: the state after the `(`. */
  lemma {:induction false} OpenWalk(p: ParserState, ts: seq<Token>) returns (p1: ParserState)
    requires Walk(p, [LParen] + ts).Some?
    ensures p.current == LParen && Eat(p, LPAREN) == Ok(p1)
    ensures Walk(p1, ts) == Walk(p, [LParen] + ts)
  {
    WalkOne(p, LParen, ts);
    p1 := Eat(p, LPAREN).value;
  }

  /** `factor` on `(`, when `expr` stops on a token that is not `)`. */
  lemma {:induction false} GroupUnclosed(p: ParserState, p1: ParserState, e: Ast, m: ParserState)
    requires p.current == LParen && Eat(p, LPAREN) == Ok(p1) && Expr(p1) == ExprLoop(m, e)
    requires !m.current.IsOperator() && m.current != RParen
    ensures Factor(p) == Err(ParserError(Expected(RPAREN), m.current))
  {
    assert Expr(p1) == Ok((e, m));
    FactorGroup(p, p1, e, m);
  }

  /** After the tokens of a complete operand and an operator, parsing fails exactly as
      `factor` fails on what follows the operator, whichever operator it is and however
      the operand is built. */
  lemma {:induction false} FailsAfterOperator(p: ParserState, l: Syntax, op: Token, err: CompilerError)
    requires Readable(l) && op.IsOperator()
    requires Walk(p, Print(l) + [op]).Some?
    requires Factor(Walk(p, Print(l) + [op]).value) == Err(err)
    ensures Expr(p) == Err(err)
  {
    WalkAppend(p, Print(l), [op]);
    var m1 := Walk(p, Print(l)).value;
    WalkOne(m1, op, []);
    var m2 := Eat(m1, op.Kind()).value;
    if op.IsAdditive() {
      SumOperandFails(p, l, m1, m2, err);
    } else if Rank(l) >= 2 {
      ProductOperandFails(p, l, m1, m2, err);
      assert Expr(p) == Err(err);
    } else {
      SumThenProductFails(p, l, m1, m2, err);
    }
  }

  /** After a complete expression and `+` or `-`, a failing operand fails `expr`. */
  lemma {:induction false} SumOperandFails(p: ParserState, l: Syntax, m1: ParserState, m2: ParserState, err: CompilerError)
    requires Readable(l) && Walk(p, Print(l)) == Some(m1)
    requires m1.current.IsAdditive() && Eat(m1, m1.current.Kind()) == Ok(m2)
    requires Factor(m2) == Err(err)
    ensures Expr(p) == Err(err)
  {
    ExprReads(l, p);
    assert Term(m2) == Err(err);
  }

  /** After a complete term and `*` or `/`, a failing operand fails `term`. */
  lemma {:induction false} ProductOperandFails(p: ParserState, l: Syntax, m1: ParserState, m2: ParserState, err: CompilerError)
    requires Readable(l) && Rank(l) >= 2 && Walk(p, Print(l)) == Some(m1)
    requires m1.current.IsMultiplicative() && Eat(m1, m1.current.Kind()) == Ok(m2)
    requires Factor(m2) == Err(err)
    ensures Term(p) == Err(err)
  {
    TermReads(l, p);
  }

  /** After a sum `a + b` (or a difference) and `*` or `/`, the operator takes `b` as
      its left operand: a failing right operand fails the term that `b` starts, and with
      it `expr`. */
  lemma {:induction false} SumThenProductFails(p: ParserState, s: Syntax, m1: ParserState, m2: ParserState, err: CompilerError)
    requires Readable(s) && Rank(s) == 1 && Walk(p, Print(s)) == Some(m1)
    requires m1.current.IsMultiplicative() && Eat(m1, m1.current.Kind()) == Ok(m2)
    requires Factor(m2) == Err(err)
    ensures Expr(p) == Err(err)
  {
    var Infix(l, op, r) := s;
    var n1, n2 := WalkSplit(p, Print(l), op, Print(r));
    ExprReads(l, p);
    ProductOperandFails(n2, r, m1, m2, err);
    assert ExprLoop(n1, Strip(l)) == Err(err);
  }

  /** `factor` in front of the tokens of a slot that does not start with an operand
      fails as soon as `factor` fails at the slot's end: every `(` on the way leaves its
      `expr` unfinished. */
  lemma {:induction false} FactorSlotFails(c: Slot, p: ParserState, err: CompilerError)
    requires Placed(c) && !c.After? && Walk(p, PrintSlot(c)).Some?
    requires Factor(Walk(p, PrintSlot(c)).value) == Err(err)
    ensures Factor(p) == Err(err)
    decreases c, 0
  {
    if c.Open? {
      WalkOne(p, LParen, PrintSlot(c.inner));
      var p1 := Eat(p, LPAREN).value;
      ExprSlotFails(c.inner, p1, err);
      GroupFails(p, p1, err);
    }
  }

  /** `factor` on `(` fails as `expr` fails after it. */
  lemma {:induction false} GroupFails(p: ParserState, p1: ParserState, err: CompilerError)
    requires p.current == LParen && Eat(p, LPAREN) == Ok(p1) && Expr(p1) == Err(err)
    ensures Factor(p) == Err(err)
  {
  }

  /** `expr` in front of the tokens of a slot fails as soon as `factor` fails at the
      slot's end, with the same error. */
  lemma {:induction false} ExprSlotFails(c: Slot, p: ParserState, err: CompilerError)
    requires Placed(c) && Walk(p, PrintSlot(c)).Some?
    requires Factor(Walk(p, PrintSlot(c)).value) == Err(err)
    ensures Expr(p) == Err(err)
    decreases c, 1
  {
    if c.After? {
      var After(l, op, operand) := c;
      assert PrintSlot(c) == (Print(l) + [op]) + PrintSlot(operand);
      WalkAppend(p, Print(l) + [op], PrintSlot(operand));
      FactorSlotFails(operand, Walk(p, Print(l) + [op]).value, err);
      FailsAfterOperator(p, l, op, err);
    } else {
      FactorSlotFails(c, p, err);
      assert Term(p) == Err(err);
    }
  }

  /** A text whose tokens are those of a slot followed by `rest` fails exactly as
      `factor` fails at the slot's end. */
  lemma {:induction false} FailsAtSlot(text: string, c: Slot, rest: seq<Token>, t: Token) returns (m: ParserState)
    requires Placed(c) && NoEof(rest) && (|PrintSlot(c) + rest| > 0 || t != Eof || text != [])
    requires Leads(LexState(text, 0), PrintSlot(c) + rest + [t])
    ensures Walk(m, rest).Some? && Walk(m, rest).value.current == t
    ensures Factor(m).Err? ==> Parse(text) == Err(Factor(m).error)
  {
    NoEofJoin(PrintSlot(c), rest);
    var p := StartLeads(text, PrintSlot(c) + rest, t);
    WalkAppend(p, PrintSlot(c), rest);
    m := Walk(p, PrintSlot(c)).value;
    if Factor(m).Err? {
      ExprSlotFails(c, p, Factor(m).error);
    }
  }

  /** Parsing a text the lexer starts with the tokens `ts` and then `t`: the parser
      walks `ts` and then has `t` as its lookahead, having read nothing after it. */
  lemma {:induction false} StartLeads(text: string, ts: seq<Token>, t: Token) returns (p: ParserState)
    requires NoEof(ts) && (|ts| > 0 || t != Eof || text != [])
    requires Leads(LexState(text, 0), ts + [t])
    ensures Parse(text) == ParseTokens(p)
    ensures Walk(p, ts).Some? && Walk(p, ts).value.current == t
  {
    var lx := LexState(text, 0);
    if (ts + [t])[0] != Eof {
      LeadsNonEmpty(text, ts + [t]);
    }
    p := NewParser(lx).value;
    LeadsWalk(lx, p, ts, t);
  }

  /** The parser, started on the first token the lexer reads, walks the tokens the
      lexer reads first. */
  lemma {:induction false} LeadsWalk(lx: Lexer, p: ParserState, ts: seq<Token>, t: Token)
    requires NextToken(lx) == Ok((p.current, p.lex)) && Leads(lx, ts + [t])
    ensures Walk(p, ts).Some? && Walk(p, ts).value.current == t
    decreases |ts|
  {
    if ts == [] {
      assert (ts + [t])[0] == t;
    } else {
      assert (ts + [t])[0] == ts[0] && (ts + [t])[1..] == ts[1..] + [t];
      var q := Eat(p, ts[0].Kind()).value;
      LeadsWalk(p.lex, q, ts[1..], t);
    }
  }

  /** A parser whose tokens print `s`, then a token that cannot follow a complete
      expression, fails on that token as trailing input. */
  lemma {:induction false} FailsTrailing(p: ParserState, s: Syntax, t: Token)
    requires Readable(s) && (t.Int? || t == LParen || t == RParen)
    requires Walk(p, Print(s)).Some? && Walk(p, Print(s)).value.current == t
    ensures ParseTokens(p) == Err(ParserError(TrailingInput, t))
  {
    var m := Walk(p, Print(s)).value;
    ExprReads(s, p);
    assert ExprLoop(m, Strip(s)) == Ok((Strip(s), m));
  }

  /** A text whose tokens print the syntax tree `s` parses to the tree `s` denotes,
      whatever redundant parentheses it carries: operators group to the left, `*` and
      `/` bind tighter than `+` and `-`, and parentheses override both. */
  lemma {:induction false} ParseSyntax(text: string, s: Syntax)
    requires Readable(s) && Tokenize(LexState(text, 0)) == Ok(Print(s) + [Eof])
    ensures Parse(text) == Ok(Strip(s))
  {
    var p := StartTokens(text, Print(s));
    ParsesSyntax(p, s);
  }

  /** A text whose tokens print the tree `e` with the fewest parentheses parses to `e`. */
  lemma {:induction false} ParseTokenized(text: string, e: Ast)
    requires WellFormed(e) && Tokenize(LexState(text, 0)) == Ok(Flat(e) + [Eof])
    ensures Parse(text) == Ok(e)
  {
    ParseSyntax(text, Minimal(e));
  }

  /** Parser round trip: printing a tree and parsing the text gives the tree back. */
  lemma {:induction false} ParseUnparse(e: Ast)
    requires WellFormed(e)
    ensures Parse(Unparse(e)) == Ok(e)
  {
    TokenizeSpell(LexState(Unparse(e), 0), Flat(e));
    ParseTokenized(Unparse(e), e);
  }

  /** `(s)` parses to the same tree as `s`, however deeply nested: parentheses leave no
      node of their own. */
  lemma {:induction false} ParenTransparent(text: string, s: Syntax)
    requires Readable(s)
    requires Tokenize(LexState(text, 0)) == Ok([LParen] + Print(s) + [RParen] + [Eof])
    ensures Parse(text) == Ok(Strip(s))
  {
    ParseSyntax(text, Group(s));
  }

  /** A complete expression followed by a number or a parenthesis is rejected as
      trailing input, naming that token; the parser reads nothing after it, so the text
      may go on with anything, unrecognised characters included. */
  lemma {:induction false} TrailingInputRejected(text: string, s: Syntax, t: Token)
    requires Readable(s) && (t.Int? || t == LParen || t == RParen)
    requires Leads(LexState(text, 0), Print(s) + [t])
    ensures Parse(text) == Err(ParserError(TrailingInput, t))
  {
    var p := StartLeads(text, Print(s), t);
    FailsTrailing(p, s, t);
  }

  /** Wherever an operand must start, another operator or `)` fails in `factor`,
      naming that token, whatever the text holds after it. */
  lemma {:induction false} MissingOperand(text: string, c: Slot, t: Token)
    requires Placed(c) && (t.IsOperator() || t == RParen)
    requires Leads(LexState(text, 0), PrintSlot(c) + [t])
    ensures Parse(text) == Err(ParserError(ExpectedFactor, t))
  {
    assert PrintSlot(c) + [] + [t] == PrintSlot(c) + [t];
    var m := FailsAtSlot(text, c, [], t);
  }

  /** A non-empty text that ends where an operand must start fails in `factor`, naming
      `Eof`. */
  lemma {:induction false} MissingOperandAtEnd(text: string, c: Slot)
    requires Placed(c) && text != []
    requires Tokenize(LexState(text, 0)) == Ok(PrintSlot(c) + [Eof])
    ensures Parse(text) == Err(ParserError(ExpectedFactor, Eof))
  {
    assert PrintSlot(c) + [Eof] + [] == PrintSlot(c) + [Eof] == PrintSlot(c) + [] + [Eof];
    TokenizeLeads(LexState(text, 0), PrintSlot(c) + [Eof], []);
    var m := FailsAtSlot(text, c, [], Eof);
  }

  /** An opening parenthesis, wherever an operand may start, with a complete expression
      after it and then the end of input fails where `)` is expected, naming `Eof`. */
  lemma {:induction false} UnclosedParen(text: string, c: Slot, s: Syntax)
    requires Placed(c) && Readable(s)
    requires Tokenize(LexState(text, 0)) == Ok(PrintSlot(c) + [LParen] + Print(s) + [Eof])
    ensures Parse(text) == Err(ParserError(Expected(RPAREN), Eof))
  {
    assert PrintSlot(c) + [LParen] + Print(s) + [Eof] + [] == PrintSlot(c) + [LParen] + Print(s) + [Eof];
    TokenizeLeads(LexState(text, 0), PrintSlot(c) + [LParen] + Print(s) + [Eof], []);
    var m := FailsAtGroup(text, c, s, Eof);
    UnclosedAt(text, m, s);
  }

  /** An opening parenthesis, wherever an operand may start, with a complete expression
      after it and then a number or another `(` fails where `)` is expected, naming that
      token, whatever the text holds after it. */
  lemma {:induction false} UnclosedBeforeOperand(text: string, c: Slot, s: Syntax, t: Token)
    requires Placed(c) && Readable(s) && (t.Int? || t == LParen)
    requires Leads(LexState(text, 0), PrintSlot(c) + [LParen] + Print(s) + [t])
    ensures Parse(text) == Err(ParserError(Expected(RPAREN), t))
  {
    var m := FailsAtGroup(text, c, s, t);
    UnclosedAt(text, m, s);
  }

  /** A text the lexer starts with the tokens of a slot, `(`, a complete expression and
      then `t`: the state `factor` reads that `(` from. */
  lemma {:induction false} FailsAtGroup(text: string, c: Slot, s: Syntax, t: Token) returns (m: ParserState)
    requires Placed(c) && Readable(s)
    requires Leads(LexState(text, 0), PrintSlot(c) + [LParen] + Print(s) + [t])
    ensures Walk(m, [LParen] + Print(s)).Some? && Walk(m, [LParen] + Print(s)).value.current == t
    ensures Factor(m).Err? ==> Parse(text) == Err(Factor(m).error)
  {
    Regroup(PrintSlot(c), [LParen], Print(s), [t]);
    m := FailsAtSlot(text, c, [LParen] + Print(s), t);
  }

  /** The parse fails at the token after `(` and a complete expression, from wherever
      `factor` reads that `(`. */
  lemma {:induction false} UnclosedAt(text: string, m: ParserState, s: Syntax)
    requires Readable(s) && Walk(m, [LParen] + Print(s)).Some?
    requires !Walk(m, [LParen] + Print(s)).value.current.IsOperator()
    requires Walk(m, [LParen] + Print(s)).value.current != RParen
    requires Factor(m).Err? ==> Parse(text) == Err(Factor(m).error)
    ensures Parse(text) == Err(ParserError(Expected(RPAREN), Walk(m, [LParen] + Print(s)).value.current))
  {
    FactorUnclosed(m, s);
  }

  /** The converse of the reading lemmas: whatever `factor` accepts is the printed
      form of a readable tree of factor level standing for the tree it returns. */
  lemma {:induction false} FactorSyntax(p: ParserState) returns (s: Syntax)
    requires Factor(p).Ok?
    ensures Readable(s) && Rank(s) == 3 && Strip(s) == Factor(p).value.0
    ensures Walk(p, Print(s)) == Some(Factor(p).value.1)
    decreases Measure(p), 1
  {
    var q := Eat(p, p.current.Kind()).value;
    if p.current.Int? {
      s := Lit(p.current.value);
      WalkCons(p, p.current, []);
      assert [p.current] + [] == Print(s);
    } else {
      var inner := ExprSyntax(q);
      var m := Expr(q).value.1;
      s := Group(inner);
      Bracketed(Print(inner));
      WalkCons(p, LParen, Print(inner) + ([RParen] + []));
      WalkAppend(q, Print(inner), [RParen] + []);
      WalkCons(m, RParen, []);
    }
  }

  /** The converse for the loop of `term`: each operand it folds on extends a readable
      tree of term level by one multiplicative node. */
  lemma {:induction false} TermLoopSyntax(p0: ParserState, s0: Syntax, p: ParserState) returns (s: Syntax)
    requires Readable(s0) && Rank(s0) >= 2 && Walk(p0, Print(s0)) == Some(p)
    requires TermLoop(p, Strip(s0)).Ok?
    ensures Readable(s) && Rank(s) >= 2 && Strip(s) == TermLoop(p, Strip(s0)).value.0
    ensures Walk(p0, Print(s)) == Some(TermLoop(p, Strip(s0)).value.1)
    decreases Measure(p), 0
  {
    if p.current.IsMultiplicative() {
      var op := p.current;
      var q := Eat(p, op.Kind()).value;
      var r := FactorSyntax(q);
      var m := Factor(q).value.1;
      var s1 := Infix(s0, op, r);
      InfixWalk(p0, s1, p, q, m);
      TermLoopStep(p, Strip(s0), q, Strip(r), m);
      s := TermLoopSyntax(p0, s1, m);
    } else {
      s := s0;
    }
  }

  lemma {:induction false} TermSyntax(p: ParserState) returns (s: Syntax)
    requires Term(p).Ok?
    ensures Readable(s) && Rank(s) >= 2 && Strip(s) == Term(p).value.0
    ensures Walk(p, Print(s)) == Some(Term(p).value.1)
    decreases Measure(p), 2
  {
    var s0 := FactorSyntax(p);
    s := TermLoopSyntax(p, s0, Factor(p).value.1);
  }

  /** The converse for the loop of `expr`: each operand it folds on extends a readable
      tree by one additive node. */
  lemma {:induction false} ExprLoopSyntax(p0: ParserState, s0: Syntax, p: ParserState) returns (s: Syntax)
    requires Readable(s0) && Walk(p0, Print(s0)) == Some(p)
    requires ExprLoop(p, Strip(s0)).Ok?
    ensures Readable(s) && Strip(s) == ExprLoop(p, Strip(s0)).value.0
    ensures Walk(p0, Print(s)) == Some(ExprLoop(p, Strip(s0)).value.1)
    decreases Measure(p), 0
  {
    if p.current.IsAdditive() {
      var op := p.current;
      var q := Eat(p, op.Kind()).value;
      var r := TermSyntax(q);
      var m := Term(q).value.1;
      var s1 := Infix(s0, op, r);
      InfixWalk(p0, s1, p, q, m);
      ExprLoopStep(p, Strip(s0), q, Strip(r), m);
      s := ExprLoopSyntax(p0, s1, m);
    } else {
      s := s0;
    }
  }

  lemma {:induction false} ExprSyntax(p: ParserState) returns (s: Syntax)
    requires Expr(p).Ok?
    ensures Readable(s) && Strip(s) == Expr(p).value.0
    ensures Walk(p, Print(s)) == Some(Expr(p).value.1)
    decreases Measure(p), 3
  {
    var s0 := TermSyntax(p);
    s := ExprLoopSyntax(p, s0, Term(p).value.1);
  }

  /** Walking the tokens of an infix node: its left operand, its operator, then its
      right operand. */
  lemma {:induction false} InfixWalk(p0: ParserState, s: Syntax, p: ParserState, q: ParserState, m: ParserState)
    requires s.Infix? && Readable(s)
    requires Walk(p0, Print(s.left)) == Some(p) && p.current == s.op && Eat(p, s.op.Kind()) == Ok(q)
    requires Walk(q, Print(s.right)) == Some(m)
    ensures Walk(p0, Print(s)) == Some(m)
  {
    WalkAppend(p0, Print(s.left), [s.op] + Print(s.right));
    WalkCons(p, s.op, Print(s.right));
  }

  lemma {:induction false} WalkCons(p: ParserState, t: Token, rest: seq<Token>)
    requires p.current == t && Eat(p, t.Kind()).Ok?
    ensures Walk(p, [t] + rest) == Walk(Eat(p, t.Kind()).value, rest)
  {
    assert ([t] + rest)[0] == t && ([t] + rest)[1..] == rest;
  }

  /** Tokens walked by the parser up to `Eof` are what the lexer reads from the state
      the first of them came from. */
  lemma {:induction false} WalkTokenize(lx: Lexer, p: ParserState, ts: seq<Token>, m: ParserState)
    requires NextToken(lx) == Ok((p.current, p.lex)) && NoEof(ts)
    requires Walk(p, ts) == Some(m) && m.current == Eof
    ensures Tokenize(lx) == Ok(ts + [Eof])
    decreases |ts|
  {
    if ts == [] {
      assert ts + [Eof] == [Eof];
    } else {
      var q := Eat(p, ts[0].Kind()).value;
      assert NoEof(ts[1..]) by {
        forall i | 0 <= i < |ts[1..]| ensures ts[1..][i] != Eof {
          assert ts[1..][i] == ts[i + 1];
        }
      }
      WalkTokenize(p.lex, q, ts[1..], m);
      TokenizeStep(lx, ts[0], p.lex);
      ConsEof(ts);
    }
  }

  /** Every text the parser accepts is the printed form of a readable tree, with some
      parentheses, that stands for the tree returned. */
  lemma {:induction false} ParsedSyntax(text: string) returns (s: Syntax)
    requires Parse(text).Ok?
    ensures Readable(s) && Strip(s) == Parse(text).value
    ensures Tokenize(LexState(text, 0)) == Ok(Print(s) + [Eof])
  {
    var lx := LexState(text, 0);
    var p := NewParser(lx).value;
    s := ExprSyntax(p);
    WalkTokenize(lx, p, Print(s), Expr(p).value.1);
  }

  /** The parser accepts a text, with result `e`, exactly when its tokens print a
      readable tree that stands for `e`. */
  lemma {:induction false} ParseAccepts(text: string, e: Ast)
    ensures Parse(text) == Ok(e)
            <==> exists s :: Readable(s) && Strip(s) == e
                             && Tokenize(LexState(text, 0)) == Ok(Print(s) + [Eof])
  {
    if Parse(text) == Ok(e) {
      var s := ParsedSyntax(text);
    }
    if exists s :: Readable(s) && Strip(s) == e && Tokenize(LexState(text, 0)) == Ok(Print(s) + [Eof]) {
      var s :| Readable(s) && Strip(s) == e && Tokenize(LexState(text, 0)) == Ok(Print(s) + [Eof]);
      ParseSyntax(text, s);
    }
  }

  lemma Bracketed(a: seq<Token>)
    ensures [LParen] + a + [RParen] == [LParen] + (a + ([RParen] + []))
  {
  }

  lemma Regroup(a: seq<Token>, b: seq<Token>, c: seq<Token>, d: seq<Token>)
    ensures a + b + c + d == a + (b + c) + d
  {
  }
}
