/** The inputs and expected outcomes that the repository's tests and the code
    generator's usage examples check, proved of the model. Each lemma takes the text as
    a parameter equal to the literal, and the lexer's behaviour on it is established
    through a trace: the offsets of every token, checked character by character. The
    facts about one example are split into small lemmas (a trace in chunks of four
    tokens, a listing in halves, one lemma per operator node) because reasoning about
    long literal sequences is costly and each proof obligation has to stay within a
    fixed resource bound of the verifier. */
module Examples {
  import opened Wrappers
  import opened Decimal
  import opened Tokens
  import opened Errors
  import opened Lexing
  import opened Parsing
  import opened CodeGeneration
  import opened RoundTrip
  import opened ParserRoundTrip
  import opened Traces
  import opened Pipeline

  /** The offsets at which the lexer meets the tokens of "5", for
      `LexSingleDigit` (tests/test_lexer.py:17-22). */
  lemma TraceSingleDigit(text: string)
    requires text == "5"
    ensures Traced(text, [Int(5)], [Mark(0, 1)], 1)
  {
    var ts, marks := [Int(5)], [Mark(0, 1)];
    forall i | 0 <= i < |ts| ensures Local(text, ts, marks, i) {
      if i == 0 {
        assert text[0..1] == "5";
      }
    }
  }

  /** A single digit is one integer token. */
  lemma LexSingleDigit(text: string)
    requires text == "5"
    ensures Tokenize(LexState(text, 0)) == Ok([Int(5), Eof])
  {
    assert [Int(5)] + [Eof] == [Int(5), Eof];
    TraceSingleDigit(text);
    TokenizeTraced(text, [Int(5)], [Mark(0, 1)], 1, 0);
  }

  /** The offsets at which the lexer meets the tokens of "123", for
      `LexMultiDigit` (tests/test_lexer.py:24-29). */
  lemma TraceMultiDigit(text: string)
    requires text == "123"
    ensures Traced(text, [Int(123)], [Mark(0, 3)], 3)
  {
    var ts, marks := [Int(123)], [Mark(0, 3)];
    forall i | 0 <= i < |ts| ensures Local(text, ts, marks, i) {
      if i == 0 {
        assert text[0..3] == "123";
        assert "123"[..2] == "12";
        assert "12"[..1] == "1";
      }
    }
  }

  /** Consecutive digits make one integer token. */
  lemma LexMultiDigit(text: string)
    requires text == "123"
    ensures Tokenize(LexState(text, 0)) == Ok([Int(123), Eof])
  {
    assert [Int(123)] + [Eof] == [Int(123), Eof];
    TraceMultiDigit(text);
    TokenizeTraced(text, [Int(123)], [Mark(0, 3)], 3, 0);
  }

  /** The offsets at which the lexer meets the tokens of "+ - * /", for
      `LexOperators` (tests/test_lexer.py:31-38). */
  lemma TraceOperators(text: string)
    requires text == "+ - * /"
    ensures Traced(text, [Plus, Neg, Multiply, Divide], [Mark(0, 1), Mark(2, 3), Mark(4, 5), Mark(6, 7)], 7)
  {
    var ts, marks := [Plus, Neg, Multiply, Divide], [Mark(0, 1), Mark(2, 3), Mark(4, 5), Mark(6, 7)];
    forall i | 0 <= i < |ts| ensures Local(text, ts, marks, i) {
      if i == 0 {
      } else if i == 1 {
      } else if i == 2 {
      } else if i == 3 {
      }
    }
  }

  /** Each operator character is its own token. */
  lemma LexOperators(text: string)
    requires text == "+ - * /"
    ensures Tokenize(LexState(text, 0)) == Ok([Plus, Neg, Multiply, Divide, Eof])
  {
    assert [Plus, Neg, Multiply, Divide] + [Eof] == [Plus, Neg, Multiply, Divide, Eof];
    TraceOperators(text);
    TokenizeTraced(text, [Plus, Neg, Multiply, Divide], [Mark(0, 1), Mark(2, 3), Mark(4, 5), Mark(6, 7)], 7, 0);
  }

  /** The offsets at which the lexer meets the tokens of "()", for
      `LexParentheses` (tests/test_lexer.py:40-45). */
  lemma TraceParentheses(text: string)
    requires text == "()"
    ensures Traced(text, [LParen, RParen], [Mark(0, 1), Mark(1, 2)], 2)
  {
    var ts, marks := [LParen, RParen], [Mark(0, 1), Mark(1, 2)];
    forall i | 0 <= i < |ts| ensures Local(text, ts, marks, i) {
      if i == 0 {
      } else if i == 1 {
      }
    }
  }

  /** Each parenthesis is its own token. */
  lemma LexParentheses(text: string)
    requires text == "()"
    ensures Tokenize(LexState(text, 0)) == Ok([LParen, RParen, Eof])
  {
    assert [LParen, RParen] + [Eof] == [LParen, RParen, Eof];
    TraceParentheses(text);
    TokenizeTraced(text, [LParen, RParen], [Mark(0, 1), Mark(1, 2)], 2, 0);
  }

  /** The offsets at which the lexer meets the tokens of "  10   + \t 5", for
      `LexWhitespace` (tests/test_lexer.py:47-61). */
  lemma TraceWhitespace(text: string)
    requires text == "  10   + \t 5"
    ensures Traced(text, [Int(10), Plus, Int(5)], [Mark(2, 4), Mark(7, 8), Mark(11, 12)], 12)
  {
    var ts, marks := [Int(10), Plus, Int(5)], [Mark(2, 4), Mark(7, 8), Mark(11, 12)];
    forall i | 0 <= i < |ts| ensures Local(text, ts, marks, i) {
      if i == 0 {
        assert text[2] == '1' && text[3] == '0';
        assert text[2..4] == "10";
        assert "10"[..1] == "1";
      } else if i == 1 {
      } else if i == 2 {
        assert text[11..12] == "5";
      }
    }
  }

  /** Spaces and tabs separate tokens and are skipped. */
  lemma LexWhitespace(text: string)
    requires text == "  10   + \t 5"
    ensures Tokenize(LexState(text, 0)) == Ok([Int(10), Plus, Int(5), Eof])
  {
    assert [Int(10), Plus, Int(5)] + [Eof] == [Int(10), Plus, Int(5), Eof];
    TraceWhitespace(text);
    TokenizeTraced(text, [Int(10), Plus, Int(5)], [Mark(2, 4), Mark(7, 8), Mark(11, 12)], 12, 0);
  }

  /** Tokens 0 to 3 of the trace of "10 + 2 * (5 - 1) / 3", for
      `LexComplex` (tests/test_lexer.py:63-84). */
  lemma TraceComplex0(text: string)
    requires text == "10 + 2 * (5 - 1) / 3"
    ensures forall i :: 0 <= i < 4 ==> Local(text, [Int(10), Plus, Int(2), Multiply, LParen, Int(5), Neg, Int(1), RParen, Divide, Int(3)], [Mark(0, 2), Mark(3, 4), Mark(5, 6), Mark(7, 8), Mark(9, 10), Mark(10, 11), Mark(12, 13), Mark(14, 15), Mark(15, 16), Mark(17, 18), Mark(19, 20)], i)
  {
    var ts, marks := [Int(10), Plus, Int(2), Multiply, LParen, Int(5), Neg, Int(1), RParen, Divide, Int(3)], [Mark(0, 2), Mark(3, 4), Mark(5, 6), Mark(7, 8), Mark(9, 10), Mark(10, 11), Mark(12, 13), Mark(14, 15), Mark(15, 16), Mark(17, 18), Mark(19, 20)];
    forall i | 0 <= i < 4 ensures Local(text, ts, marks, i) {
      if i == 0 {
        assert text[0..2] == "10";
        assert "10"[..1] == "1";
      } else if i == 1 {
      } else if i == 2 {
        assert text[5..6] == "2";
      } else if i == 3 {
      }
    }
  }

  /** Tokens 4 to 7 of the trace of "10 + 2 * (5 - 1) / 3", for
      `LexComplex` (tests/test_lexer.py:63-84). */
  lemma TraceComplex1(text: string)
    requires text == "10 + 2 * (5 - 1) / 3"
    ensures forall i :: 4 <= i < 8 ==> Local(text, [Int(10), Plus, Int(2), Multiply, LParen, Int(5), Neg, Int(1), RParen, Divide, Int(3)], [Mark(0, 2), Mark(3, 4), Mark(5, 6), Mark(7, 8), Mark(9, 10), Mark(10, 11), Mark(12, 13), Mark(14, 15), Mark(15, 16), Mark(17, 18), Mark(19, 20)], i)
  {
    var ts, marks := [Int(10), Plus, Int(2), Multiply, LParen, Int(5), Neg, Int(1), RParen, Divide, Int(3)], [Mark(0, 2), Mark(3, 4), Mark(5, 6), Mark(7, 8), Mark(9, 10), Mark(10, 11), Mark(12, 13), Mark(14, 15), Mark(15, 16), Mark(17, 18), Mark(19, 20)];
    forall i | 4 <= i < 8 ensures Local(text, ts, marks, i) {
      if i == 4 {
      } else if i == 5 {
        assert text[10..11] == "5";
      } else if i == 6 {
      } else if i == 7 {
        assert text[14..15] == "1";
      }
    }
  }

  /** Tokens 8 to 10 of the trace of "10 + 2 * (5 - 1) / 3", for
      `LexComplex` (tests/test_lexer.py:63-84). */
  lemma TraceComplex2(text: string)
    requires text == "10 + 2 * (5 - 1) / 3"
    ensures forall i :: 8 <= i < 11 ==> Local(text, [Int(10), Plus, Int(2), Multiply, LParen, Int(5), Neg, Int(1), RParen, Divide, Int(3)], [Mark(0, 2), Mark(3, 4), Mark(5, 6), Mark(7, 8), Mark(9, 10), Mark(10, 11), Mark(12, 13), Mark(14, 15), Mark(15, 16), Mark(17, 18), Mark(19, 20)], i)
  {
    var ts, marks := [Int(10), Plus, Int(2), Multiply, LParen, Int(5), Neg, Int(1), RParen, Divide, Int(3)], [Mark(0, 2), Mark(3, 4), Mark(5, 6), Mark(7, 8), Mark(9, 10), Mark(10, 11), Mark(12, 13), Mark(14, 15), Mark(15, 16), Mark(17, 18), Mark(19, 20)];
    forall i | 8 <= i < 11 ensures Local(text, ts, marks, i) {
      if i == 8 {
      } else if i == 9 {
      } else if i == 10 {
        assert text[19..20] == "3";
      }
    }
  }

  /** The offsets at which the lexer meets the tokens of "10 + 2 * (5 - 1) / 3", for
      `LexComplex` (tests/test_lexer.py:63-84). */
  lemma TraceComplex(text: string)
    requires text == "10 + 2 * (5 - 1) / 3"
    ensures Traced(text, [Int(10), Plus, Int(2), Multiply, LParen, Int(5), Neg, Int(1), RParen, Divide, Int(3)], [Mark(0, 2), Mark(3, 4), Mark(5, 6), Mark(7, 8), Mark(9, 10), Mark(10, 11), Mark(12, 13), Mark(14, 15), Mark(15, 16), Mark(17, 18), Mark(19, 20)], 20)
  {
    TraceComplex0(text);
    TraceComplex1(text);
    TraceComplex2(text);
  }

  /** A longer expression with every kind of token. */
  lemma LexComplex(text: string)
    requires text == "10 + 2 * (5 - 1) / 3"
    ensures Tokenize(LexState(text, 0)) == Ok([Int(10), Plus, Int(2), Multiply, LParen, Int(5), Neg, Int(1), RParen, Divide, Int(3), Eof])
  {
    assert [Int(10), Plus, Int(2), Multiply, LParen, Int(5), Neg, Int(1), RParen, Divide, Int(3)] + [Eof] == [Int(10), Plus, Int(2), Multiply, LParen, Int(5), Neg, Int(1), RParen, Divide, Int(3), Eof];
    TraceComplex(text);
    TokenizeTraced(text, [Int(10), Plus, Int(2), Multiply, LParen, Int(5), Neg, Int(1), RParen, Divide, Int(3)], [Mark(0, 2), Mark(3, 4), Mark(5, 6), Mark(7, 8), Mark(9, 10), Mark(10, 11), Mark(12, 13), Mark(14, 15), Mark(15, 16), Mark(17, 18), Mark(19, 20)], 20, 0);
  }

  /** The offsets at which the lexer meets the tokens of "10 + #", for
      `LexInvalidCharacter` (tests/test_lexer.py:86-96). */
  lemma TraceInvalidCharacter(text: string)
    requires text == "10 + #"
    ensures Traced(text, [Int(10), Plus], [Mark(0, 2), Mark(3, 4)], 5)
  {
    var ts, marks := [Int(10), Plus], [Mark(0, 2), Mark(3, 4)];
    forall i | 0 <= i < |ts| ensures Local(text, ts, marks, i) {
      if i == 0 {
        assert text[0..2] == "10";
        assert "10"[..1] == "1";
      } else if i == 1 {
      }
    }
  }

  /** An unknown character fails at its own column, after the tokens before it. */
  lemma LexInvalidCharacter(text: string)
    requires text == "10 + #"
    ensures Tokenize(LexState(text, 0)) == Err(LexerError(5))
  {
    TraceInvalidCharacter(text);
    TokenizeTraced(text, [Int(10), Plus], [Mark(0, 2), Mark(3, 4)], 5, 0);
  }

  /** The tokens the tree of "5" is printed as. */
  lemma FlatSingleInteger()
    ensures Flat(Num(5)) + [Eof] == [Int(5), Eof]
  {
    assert [Int(5)] + [Eof] == [Int(5), Eof];
  }

  /** A lone integer is a number node. */
  lemma ParseSingleInteger(text: string)
    requires text == "5"
    ensures Parse(text) == Ok(Num(5))
  {
    LexSingleDigit(text);
    FlatSingleInteger();
    ParseTokenized(text, Num(5));
  }

  /** The offsets at which the lexer meets the tokens of "3 + 5", for
      `ParseSimpleAddition` (tests/test_parser.py:23-32). */
  lemma TraceSimpleAddition(text: string)
    requires text == "3 + 5"
    ensures Traced(text, [Int(3), Plus, Int(5)], [Mark(0, 1), Mark(2, 3), Mark(4, 5)], 5)
  {
    var ts, marks := [Int(3), Plus, Int(5)], [Mark(0, 1), Mark(2, 3), Mark(4, 5)];
    forall i | 0 <= i < |ts| ensures Local(text, ts, marks, i) {
      if i == 0 {
        assert text[0..1] == "3";
      } else if i == 1 {
      } else if i == 2 {
        assert text[4..5] == "5";
      }
    }
  }

  /** The tokens of "3 + 5". */
  lemma LexSimpleAddition(text: string)
    requires text == "3 + 5"
    ensures Tokenize(LexState(text, 0)) == Ok([Int(3), Plus, Int(5), Eof])
  {
    assert [Int(3), Plus, Int(5)] + [Eof] == [Int(3), Plus, Int(5), Eof];
    TraceSimpleAddition(text);
    TokenizeTraced(text, [Int(3), Plus, Int(5)], [Mark(0, 1), Mark(2, 3), Mark(4, 5)], 5, 0);
  }

  /** The tokens the tree of "3 + 5" is printed as. */
  lemma FlatSimpleAddition()
    ensures Flat(BinOp(Num(3), Plus, Num(5))) + [Eof] == [Int(3), Plus, Int(5), Eof]
  {
    assert Flat(BinOp(Num(3), Plus, Num(5))) == [Int(3), Plus, Int(5)];
    assert [Int(3), Plus, Int(5)] + [Eof] == [Int(3), Plus, Int(5), Eof];
  }

  /** One addition is one binary node. */
  lemma ParseSimpleAddition(text: string)
    requires text == "3 + 5"
    ensures Parse(text) == Ok(BinOp(Num(3), Plus, Num(5)))
  {
    LexSimpleAddition(text);
    FlatSimpleAddition();
    ParseTokenized(text, BinOp(Num(3), Plus, Num(5)));
  }

  /** The offsets at which the lexer meets the tokens of "10 - 2", for
      `ParseSimpleSubtraction` (tests/test_parser.py:34-41). */
  lemma TraceSimpleSubtraction(text: string)
    requires text == "10 - 2"
    ensures Traced(text, [Int(10), Neg, Int(2)], [Mark(0, 2), Mark(3, 4), Mark(5, 6)], 6)
  {
    var ts, marks := [Int(10), Neg, Int(2)], [Mark(0, 2), Mark(3, 4), Mark(5, 6)];
    forall i | 0 <= i < |ts| ensures Local(text, ts, marks, i) {
      if i == 0 {
        assert text[0..2] == "10";
        assert "10"[..1] == "1";
      } else if i == 1 {
      } else if i == 2 {
        assert text[5..6] == "2";
      }
    }
  }

  /** The tokens of "10 - 2". */
  lemma LexSimpleSubtraction(text: string)
    requires text == "10 - 2"
    ensures Tokenize(LexState(text, 0)) == Ok([Int(10), Neg, Int(2), Eof])
  {
    assert [Int(10), Neg, Int(2)] + [Eof] == [Int(10), Neg, Int(2), Eof];
    TraceSimpleSubtraction(text);
    TokenizeTraced(text, [Int(10), Neg, Int(2)], [Mark(0, 2), Mark(3, 4), Mark(5, 6)], 6, 0);
  }

  /** The tokens the tree of "10 - 2" is printed as. */
  lemma FlatSimpleSubtraction()
    ensures Flat(BinOp(Num(10), Neg, Num(2))) + [Eof] == [Int(10), Neg, Int(2), Eof]
  {
    assert Flat(BinOp(Num(10), Neg, Num(2))) == [Int(10), Neg, Int(2)];
    assert [Int(10), Neg, Int(2)] + [Eof] == [Int(10), Neg, Int(2), Eof];
  }

  /** One subtraction is one binary node. */
  lemma ParseSimpleSubtraction(text: string)
    requires text == "10 - 2"
    ensures Parse(text) == Ok(BinOp(Num(10), Neg, Num(2)))
  {
    LexSimpleSubtraction(text);
    FlatSimpleSubtraction();
    ParseTokenized(text, BinOp(Num(10), Neg, Num(2)));
  }

  /** The offsets at which the lexer meets the tokens of "2 + 3 * 4", for
      `ParseMultiplicationPrecedence` (tests/test_parser.py:43-55). */
  lemma TraceMultiplicationPrecedence(text: string)
    requires text == "2 + 3 * 4"
    ensures Traced(text, [Int(2), Plus, Int(3), Multiply, Int(4)], [Mark(0, 1), Mark(2, 3), Mark(4, 5), Mark(6, 7), Mark(8, 9)], 9)
  {
    var ts, marks := [Int(2), Plus, Int(3), Multiply, Int(4)], [Mark(0, 1), Mark(2, 3), Mark(4, 5), Mark(6, 7), Mark(8, 9)];
    forall i | 0 <= i < |ts| ensures Local(text, ts, marks, i) {
      if i == 0 {
        assert text[0..1] == "2";
      } else if i == 1 {
      } else if i == 2 {
        assert text[4..5] == "3";
      } else if i == 3 {
      } else if i == 4 {
        assert text[8..9] == "4";
      }
    }
  }

  /** The tokens of "2 + 3 * 4". */
  lemma LexMultiplicationPrecedence(text: string)
    requires text == "2 + 3 * 4"
    ensures Tokenize(LexState(text, 0)) == Ok([Int(2), Plus, Int(3), Multiply, Int(4), Eof])
  {
    assert [Int(2), Plus, Int(3), Multiply, Int(4)] + [Eof] == [Int(2), Plus, Int(3), Multiply, Int(4), Eof];
    TraceMultiplicationPrecedence(text);
    TokenizeTraced(text, [Int(2), Plus, Int(3), Multiply, Int(4)], [Mark(0, 1), Mark(2, 3), Mark(4, 5), Mark(6, 7), Mark(8, 9)], 9, 0);
  }

  /** The tokens the tree of "2 + 3 * 4" is printed as. */
  lemma FlatMultiplicationPrecedence()
    ensures Flat(BinOp(Num(2), Plus, BinOp(Num(3), Multiply, Num(4)))) + [Eof] == [Int(2), Plus, Int(3), Multiply, Int(4), Eof]
  {
    assert Flat(BinOp(Num(3), Multiply, Num(4))) == [Int(3), Multiply, Int(4)];
    assert Flat(BinOp(Num(2), Plus, BinOp(Num(3), Multiply, Num(4)))) == [Int(2), Plus, Int(3), Multiply, Int(4)];
    assert [Int(2), Plus, Int(3), Multiply, Int(4)] + [Eof] == [Int(2), Plus, Int(3), Multiply, Int(4), Eof];
  }

  /** `*` binds tighter than `+`. */
  lemma ParseMultiplicationPrecedence(text: string)
    requires text == "2 + 3 * 4"
    ensures Parse(text) == Ok(BinOp(Num(2), Plus, BinOp(Num(3), Multiply, Num(4))))
  {
    LexMultiplicationPrecedence(text);
    FlatMultiplicationPrecedence();
    ParseTokenized(text, BinOp(Num(2), Plus, BinOp(Num(3), Multiply, Num(4))));
  }

  /** Tokens 0 to 3 of the trace of "(7 - 2) * 5", for
      `ParseParenthesesFirst` (tests/test_parser.py:57-69). */
  lemma TraceParenthesesFirst0(text: string)
    requires text == "(7 - 2) * 5"
    ensures forall i :: 0 <= i < 4 ==> Local(text, [LParen, Int(7), Neg, Int(2), RParen, Multiply, Int(5)], [Mark(0, 1), Mark(1, 2), Mark(3, 4), Mark(5, 6), Mark(6, 7), Mark(8, 9), Mark(10, 11)], i)
  {
    var ts, marks := [LParen, Int(7), Neg, Int(2), RParen, Multiply, Int(5)], [Mark(0, 1), Mark(1, 2), Mark(3, 4), Mark(5, 6), Mark(6, 7), Mark(8, 9), Mark(10, 11)];
    forall i | 0 <= i < 4 ensures Local(text, ts, marks, i) {
      if i == 0 {
      } else if i == 1 {
        assert text[1..2] == "7";
      } else if i == 2 {
      } else if i == 3 {
        assert text[5..6] == "2";
      }
    }
  }

  /** Tokens 4 to 6 of the trace of "(7 - 2) * 5", for
      `ParseParenthesesFirst` (tests/test_parser.py:57-69). */
  lemma TraceParenthesesFirst1(text: string)
    requires text == "(7 - 2) * 5"
    ensures forall i :: 4 <= i < 7 ==> Local(text, [LParen, Int(7), Neg, Int(2), RParen, Multiply, Int(5)], [Mark(0, 1), Mark(1, 2), Mark(3, 4), Mark(5, 6), Mark(6, 7), Mark(8, 9), Mark(10, 11)], i)
  {
    var ts, marks := [LParen, Int(7), Neg, Int(2), RParen, Multiply, Int(5)], [Mark(0, 1), Mark(1, 2), Mark(3, 4), Mark(5, 6), Mark(6, 7), Mark(8, 9), Mark(10, 11)];
    forall i | 4 <= i < 7 ensures Local(text, ts, marks, i) {
      if i == 4 {
      } else if i == 5 {
      } else if i == 6 {
        assert text[10..11] == "5";
      }
    }
  }

  /** The offsets at which the lexer meets the tokens of "(7 - 2) * 5", for
      `ParseParenthesesFirst` (tests/test_parser.py:57-69). */
  lemma TraceParenthesesFirst(text: string)
    requires text == "(7 - 2) * 5"
    ensures Traced(text, [LParen, Int(7), Neg, Int(2), RParen, Multiply, Int(5)], [Mark(0, 1), Mark(1, 2), Mark(3, 4), Mark(5, 6), Mark(6, 7), Mark(8, 9), Mark(10, 11)], 11)
  {
    TraceParenthesesFirst0(text);
    TraceParenthesesFirst1(text);
  }

  /** The tokens of "(7 - 2) * 5". */
  lemma LexParenthesesFirst(text: string)
    requires text == "(7 - 2) * 5"
    ensures Tokenize(LexState(text, 0)) == Ok([LParen, Int(7), Neg, Int(2), RParen, Multiply, Int(5), Eof])
  {
    assert [LParen, Int(7), Neg, Int(2), RParen, Multiply, Int(5)] + [Eof] == [LParen, Int(7), Neg, Int(2), RParen, Multiply, Int(5), Eof];
    TraceParenthesesFirst(text);
    TokenizeTraced(text, [LParen, Int(7), Neg, Int(2), RParen, Multiply, Int(5)], [Mark(0, 1), Mark(1, 2), Mark(3, 4), Mark(5, 6), Mark(6, 7), Mark(8, 9), Mark(10, 11)], 11, 0);
  }

  /** The tokens the tree of "(7 - 2) * 5" is printed as. */
  lemma FlatParenthesesFirst()
    ensures Flat(BinOp(BinOp(Num(7), Neg, Num(2)), Multiply, Num(5))) + [Eof] == [LParen, Int(7), Neg, Int(2), RParen, Multiply, Int(5), Eof]
  {
    assert Flat(BinOp(Num(7), Neg, Num(2))) == [Int(7), Neg, Int(2)];
    assert Flat(BinOp(BinOp(Num(7), Neg, Num(2)), Multiply, Num(5))) == [LParen, Int(7), Neg, Int(2), RParen, Multiply, Int(5)];
    assert [LParen, Int(7), Neg, Int(2), RParen, Multiply, Int(5)] + [Eof] == [LParen, Int(7), Neg, Int(2), RParen, Multiply, Int(5), Eof];
  }

  /** Parentheses override precedence. */
  lemma ParseParenthesesFirst(text: string)
    requires text == "(7 - 2) * 5"
    ensures Parse(text) == Ok(BinOp(BinOp(Num(7), Neg, Num(2)), Multiply, Num(5)))
  {
    LexParenthesesFirst(text);
    FlatParenthesesFirst();
    ParseTokenized(text, BinOp(BinOp(Num(7), Neg, Num(2)), Multiply, Num(5)));
  }

  /** The offsets at which the lexer meets the tokens of "10 - 2 - 3", for
      `ParseSubtractionChain` (lox/parser.py:130-140). */
  lemma TraceSubtractionChain(text: string)
    requires text == "10 - 2 - 3"
    ensures Traced(text, [Int(10), Neg, Int(2), Neg, Int(3)], [Mark(0, 2), Mark(3, 4), Mark(5, 6), Mark(7, 8), Mark(9, 10)], 10)
  {
    var ts, marks := [Int(10), Neg, Int(2), Neg, Int(3)], [Mark(0, 2), Mark(3, 4), Mark(5, 6), Mark(7, 8), Mark(9, 10)];
    forall i | 0 <= i < |ts| ensures Local(text, ts, marks, i) {
      if i == 0 {
        assert text[0..2] == "10";
        assert "10"[..1] == "1";
      } else if i == 1 {
      } else if i == 2 {
        assert text[5..6] == "2";
      } else if i == 3 {
      } else if i == 4 {
        assert text[9..10] == "3";
      }
    }
  }

  /** The tokens of "10 - 2 - 3". */
  lemma LexSubtractionChain(text: string)
    requires text == "10 - 2 - 3"
    ensures Tokenize(LexState(text, 0)) == Ok([Int(10), Neg, Int(2), Neg, Int(3), Eof])
  {
    assert [Int(10), Neg, Int(2), Neg, Int(3)] + [Eof] == [Int(10), Neg, Int(2), Neg, Int(3), Eof];
    TraceSubtractionChain(text);
    TokenizeTraced(text, [Int(10), Neg, Int(2), Neg, Int(3)], [Mark(0, 2), Mark(3, 4), Mark(5, 6), Mark(7, 8), Mark(9, 10)], 10, 0);
  }

  /** The tokens the tree of "10 - 2 - 3" is printed as. */
  lemma FlatSubtractionChain()
    ensures Flat(BinOp(BinOp(Num(10), Neg, Num(2)), Neg, Num(3))) + [Eof] == [Int(10), Neg, Int(2), Neg, Int(3), Eof]
  {
    assert Flat(BinOp(Num(10), Neg, Num(2))) == [Int(10), Neg, Int(2)];
    assert Flat(BinOp(BinOp(Num(10), Neg, Num(2)), Neg, Num(3))) == [Int(10), Neg, Int(2), Neg, Int(3)];
    assert [Int(10), Neg, Int(2), Neg, Int(3)] + [Eof] == [Int(10), Neg, Int(2), Neg, Int(3), Eof];
  }

  /** A chain of `-` folds to the left. */
  lemma ParseSubtractionChain(text: string)
    requires text == "10 - 2 - 3"
    ensures Parse(text) == Ok(BinOp(BinOp(Num(10), Neg, Num(2)), Neg, Num(3)))
  {
    LexSubtractionChain(text);
    FlatSubtractionChain();
    ParseTokenized(text, BinOp(BinOp(Num(10), Neg, Num(2)), Neg, Num(3)));
  }

  /** The offsets at which the lexer meets the tokens of "8 / 4 / 2", for
      `ParseDivisionChain` (lox/parser.py:109-119). */
  lemma TraceDivisionChain(text: string)
    requires text == "8 / 4 / 2"
    ensures Traced(text, [Int(8), Divide, Int(4), Divide, Int(2)], [Mark(0, 1), Mark(2, 3), Mark(4, 5), Mark(6, 7), Mark(8, 9)], 9)
  {
    var ts, marks := [Int(8), Divide, Int(4), Divide, Int(2)], [Mark(0, 1), Mark(2, 3), Mark(4, 5), Mark(6, 7), Mark(8, 9)];
    forall i | 0 <= i < |ts| ensures Local(text, ts, marks, i) {
      if i == 0 {
        assert text[0..1] == "8";
      } else if i == 1 {
      } else if i == 2 {
        assert text[4..5] == "4";
      } else if i == 3 {
      } else if i == 4 {
        assert text[8..9] == "2";
      }
    }
  }

  /** The tokens of "8 / 4 / 2". */
  lemma LexDivisionChain(text: string)
    requires text == "8 / 4 / 2"
    ensures Tokenize(LexState(text, 0)) == Ok([Int(8), Divide, Int(4), Divide, Int(2), Eof])
  {
    assert [Int(8), Divide, Int(4), Divide, Int(2)] + [Eof] == [Int(8), Divide, Int(4), Divide, Int(2), Eof];
    TraceDivisionChain(text);
    TokenizeTraced(text, [Int(8), Divide, Int(4), Divide, Int(2)], [Mark(0, 1), Mark(2, 3), Mark(4, 5), Mark(6, 7), Mark(8, 9)], 9, 0);
  }

  /** The tokens the tree of "8 / 4 / 2" is printed as. */
  lemma FlatDivisionChain()
    ensures Flat(BinOp(BinOp(Num(8), Divide, Num(4)), Divide, Num(2))) + [Eof] == [Int(8), Divide, Int(4), Divide, Int(2), Eof]
  {
    assert Flat(BinOp(Num(8), Divide, Num(4))) == [Int(8), Divide, Int(4)];
    assert Flat(BinOp(BinOp(Num(8), Divide, Num(4)), Divide, Num(2))) == [Int(8), Divide, Int(4), Divide, Int(2)];
    assert [Int(8), Divide, Int(4), Divide, Int(2)] + [Eof] == [Int(8), Divide, Int(4), Divide, Int(2), Eof];
  }

  /** A chain of `/` folds to the left. */
  lemma ParseDivisionChain(text: string)
    requires text == "8 / 4 / 2"
    ensures Parse(text) == Ok(BinOp(BinOp(Num(8), Divide, Num(4)), Divide, Num(2)))
  {
    LexDivisionChain(text);
    FlatDivisionChain();
    ParseTokenized(text, BinOp(BinOp(Num(8), Divide, Num(4)), Divide, Num(2)));
  }

  /** Tokens 0 to 3 of the trace of "10 + 5 * (2 - 1)", for
      `ParseComplexExpression` (tests/test_parser.py:71-92). */
  lemma TraceComplexExpression0(text: string)
    requires text == "10 + 5 * (2 - 1)"
    ensures forall i :: 0 <= i < 4 ==> Local(text, [Int(10), Plus, Int(5), Multiply, LParen, Int(2), Neg, Int(1), RParen], [Mark(0, 2), Mark(3, 4), Mark(5, 6), Mark(7, 8), Mark(9, 10), Mark(10, 11), Mark(12, 13), Mark(14, 15), Mark(15, 16)], i)
  {
    var ts, marks := [Int(10), Plus, Int(5), Multiply, LParen, Int(2), Neg, Int(1), RParen], [Mark(0, 2), Mark(3, 4), Mark(5, 6), Mark(7, 8), Mark(9, 10), Mark(10, 11), Mark(12, 13), Mark(14, 15), Mark(15, 16)];
    forall i | 0 <= i < 4 ensures Local(text, ts, marks, i) {
      if i == 0 {
        assert text[0..2] == "10";
        assert "10"[..1] == "1";
      } else if i == 1 {
      } else if i == 2 {
        assert text[5..6] == "5";
      } else if i == 3 {
      }
    }
  }

  /** Tokens 4 to 7 of the trace of "10 + 5 * (2 - 1)", for
      `ParseComplexExpression` (tests/test_parser.py:71-92). */
  lemma TraceComplexExpression1(text: string)
    requires text == "10 + 5 * (2 - 1)"
    ensures forall i :: 4 <= i < 8 ==> Local(text, [Int(10), Plus, Int(5), Multiply, LParen, Int(2), Neg, Int(1), RParen], [Mark(0, 2), Mark(3, 4), Mark(5, 6), Mark(7, 8), Mark(9, 10), Mark(10, 11), Mark(12, 13), Mark(14, 15), Mark(15, 16)], i)
  {
    var ts, marks := [Int(10), Plus, Int(5), Multiply, LParen, Int(2), Neg, Int(1), RParen], [Mark(0, 2), Mark(3, 4), Mark(5, 6), Mark(7, 8), Mark(9, 10), Mark(10, 11), Mark(12, 13), Mark(14, 15), Mark(15, 16)];
    forall i | 4 <= i < 8 ensures Local(text, ts, marks, i) {
      if i == 4 {
      } else if i == 5 {
        assert text[10..11] == "2";
      } else if i == 6 {
      } else if i == 7 {
        assert text[14..15] == "1";
      }
    }
  }

  /** Tokens 8 to 8 of the trace of "10 + 5 * (2 - 1)", for
      `ParseComplexExpression` (tests/test_parser.py:71-92). */
  lemma TraceComplexExpression2(text: string)
    requires text == "10 + 5 * (2 - 1)"
    ensures forall i :: 8 <= i < 9 ==> Local(text, [Int(10), Plus, Int(5), Multiply, LParen, Int(2), Neg, Int(1), RParen], [Mark(0, 2), Mark(3, 4), Mark(5, 6), Mark(7, 8), Mark(9, 10), Mark(10, 11), Mark(12, 13), Mark(14, 15), Mark(15, 16)], i)
  {
    var ts, marks := [Int(10), Plus, Int(5), Multiply, LParen, Int(2), Neg, Int(1), RParen], [Mark(0, 2), Mark(3, 4), Mark(5, 6), Mark(7, 8), Mark(9, 10), Mark(10, 11), Mark(12, 13), Mark(14, 15), Mark(15, 16)];
    forall i | 8 <= i < 9 ensures Local(text, ts, marks, i) {
      if i == 8 {
      }
    }
  }

  /** The offsets at which the lexer meets the tokens of "10 + 5 * (2 - 1)", for
      `ParseComplexExpression` (tests/test_parser.py:71-92). */
  lemma TraceComplexExpression(text: string)
    requires text == "10 + 5 * (2 - 1)"
    ensures Traced(text, [Int(10), Plus, Int(5), Multiply, LParen, Int(2), Neg, Int(1), RParen], [Mark(0, 2), Mark(3, 4), Mark(5, 6), Mark(7, 8), Mark(9, 10), Mark(10, 11), Mark(12, 13), Mark(14, 15), Mark(15, 16)], 16)
  {
    TraceComplexExpression0(text);
    TraceComplexExpression1(text);
    TraceComplexExpression2(text);
  }

  /** The tokens of "10 + 5 * (2 - 1)". */
  lemma LexComplexExpression(text: string)
    requires text == "10 + 5 * (2 - 1)"
    ensures Tokenize(LexState(text, 0)) == Ok([Int(10), Plus, Int(5), Multiply, LParen, Int(2), Neg, Int(1), RParen, Eof])
  {
    assert [Int(10), Plus, Int(5), Multiply, LParen, Int(2), Neg, Int(1), RParen] + [Eof] == [Int(10), Plus, Int(5), Multiply, LParen, Int(2), Neg, Int(1), RParen, Eof];
    TraceComplexExpression(text);
    TokenizeTraced(text, [Int(10), Plus, Int(5), Multiply, LParen, Int(2), Neg, Int(1), RParen], [Mark(0, 2), Mark(3, 4), Mark(5, 6), Mark(7, 8), Mark(9, 10), Mark(10, 11), Mark(12, 13), Mark(14, 15), Mark(15, 16)], 16, 0);
  }

  /** The tokens the tree of "10 + 5 * (2 - 1)" is printed as. */
  lemma FlatComplexExpression()
    ensures Flat(BinOp(Num(10), Plus, BinOp(Num(5), Multiply, BinOp(Num(2), Neg, Num(1))))) + [Eof] == [Int(10), Plus, Int(5), Multiply, LParen, Int(2), Neg, Int(1), RParen, Eof]
  {
    assert Flat(BinOp(Num(2), Neg, Num(1))) == [Int(2), Neg, Int(1)];
    assert Flat(BinOp(Num(5), Multiply, BinOp(Num(2), Neg, Num(1)))) == [Int(5), Multiply, LParen, Int(2), Neg, Int(1), RParen];
    assert Flat(BinOp(Num(10), Plus, BinOp(Num(5), Multiply, BinOp(Num(2), Neg, Num(1))))) == [Int(10), Plus, Int(5), Multiply, LParen, Int(2), Neg, Int(1), RParen];
    assert [Int(10), Plus, Int(5), Multiply, LParen, Int(2), Neg, Int(1), RParen] + [Eof] == [Int(10), Plus, Int(5), Multiply, LParen, Int(2), Neg, Int(1), RParen, Eof];
  }

  /** Precedence and parentheses nest. */
  lemma ParseComplexExpression(text: string)
    requires text == "10 + 5 * (2 - 1)"
    ensures Parse(text) == Ok(BinOp(Num(10), Plus, BinOp(Num(5), Multiply, BinOp(Num(2), Neg, Num(1)))))
  {
    LexComplexExpression(text);
    FlatComplexExpression();
    ParseTokenized(text, BinOp(Num(10), Plus, BinOp(Num(5), Multiply, BinOp(Num(2), Neg, Num(1)))));
  }

  /** The code generated for the tree of "3 + 5". */
  lemma CodeSum()
    ensures Generate(CodeGenerator([]), BinOp(Num(3), Plus, Num(5))) == Ok([Push(3), Push(5), Add])
  {
    var g := CodeGenerator([]);
    GenerateBinOp(g, Num(3), Plus, Num(5));
    assert Generate(g, BinOp(Num(3), Plus, Num(5))).value == [Push(3), Push(5), Add];
  }

  /** The lines printed for the code of "3 + 5". */
  lemma ListingSum()
    ensures Listing([Push(3), Push(5), Add]) == ["PUSH 3", "PUSH 5", "ADD"]
  {
    assert Render(Push(3)) == "PUSH 3" by { assert NatToString(3) == "3"; }
    assert Render(Push(5)) == "PUSH 5" by { assert NatToString(5) == "5"; }
    var lines := Listing([Push(3), Push(5), Add]);
    assert lines[0] == "PUSH 3";
    assert lines[1] == "PUSH 5";
    assert lines[2] == "ADD";
  }

  /** Compiling "3 + 5" yields the tree and the listing that the usage example expects. */
  lemma CompileSum(text: string)
    requires text == "3 + 5"
    ensures Compile(text).Ok? && Compile(text).value.tree == BinOp(Num(3), Plus, Num(5))
    ensures Listing(Compile(text).value.code) == ["PUSH 3", "PUSH 5", "ADD"]
  {
    LexSimpleAddition(text);
    TokenizeVerdict(LexState(text, 0));
    ParseSimpleAddition(text);
    CodeSum();
    ListingSum();
  }

  /** The offsets at which the lexer meets the tokens of "10 + 2 * 3", for
      `CompileSumOfProduct` (lox/code_generator.py:110-126). */
  lemma TraceSumOfProduct(text: string)
    requires text == "10 + 2 * 3"
    ensures Traced(text, [Int(10), Plus, Int(2), Multiply, Int(3)], [Mark(0, 2), Mark(3, 4), Mark(5, 6), Mark(7, 8), Mark(9, 10)], 10)
  {
    var ts, marks := [Int(10), Plus, Int(2), Multiply, Int(3)], [Mark(0, 2), Mark(3, 4), Mark(5, 6), Mark(7, 8), Mark(9, 10)];
    forall i | 0 <= i < |ts| ensures Local(text, ts, marks, i) {
      if i == 0 {
        assert text[0..2] == "10";
        assert "10"[..1] == "1";
      } else if i == 1 {
      } else if i == 2 {
        assert text[5..6] == "2";
      } else if i == 3 {
      } else if i == 4 {
        assert text[9..10] == "3";
      }
    }
  }

  /** The tokens of "10 + 2 * 3". */
  lemma LexSumOfProduct(text: string)
    requires text == "10 + 2 * 3"
    ensures Tokenize(LexState(text, 0)) == Ok([Int(10), Plus, Int(2), Multiply, Int(3), Eof])
  {
    assert [Int(10), Plus, Int(2), Multiply, Int(3)] + [Eof] == [Int(10), Plus, Int(2), Multiply, Int(3), Eof];
    TraceSumOfProduct(text);
    TokenizeTraced(text, [Int(10), Plus, Int(2), Multiply, Int(3)], [Mark(0, 2), Mark(3, 4), Mark(5, 6), Mark(7, 8), Mark(9, 10)], 10, 0);
  }

  /** The tokens the tree of "10 + 2 * 3" is printed as. */
  lemma FlatSumOfProduct()
    ensures Flat(BinOp(Num(10), Plus, BinOp(Num(2), Multiply, Num(3)))) + [Eof] == [Int(10), Plus, Int(2), Multiply, Int(3), Eof]
  {
    assert Flat(BinOp(Num(2), Multiply, Num(3))) == [Int(2), Multiply, Int(3)];
    assert Flat(BinOp(Num(10), Plus, BinOp(Num(2), Multiply, Num(3)))) == [Int(10), Plus, Int(2), Multiply, Int(3)];
    assert [Int(10), Plus, Int(2), Multiply, Int(3)] + [Eof] == [Int(10), Plus, Int(2), Multiply, Int(3), Eof];
  }

  /** The tree of "10 + 2 * 3". */
  lemma ParseSumOfProduct(text: string)
    requires text == "10 + 2 * 3"
    ensures Parse(text) == Ok(BinOp(Num(10), Plus, BinOp(Num(2), Multiply, Num(3))))
  {
    LexSumOfProduct(text);
    FlatSumOfProduct();
    ParseTokenized(text, BinOp(Num(10), Plus, BinOp(Num(2), Multiply, Num(3))));
  }

  /** The code generated for the tree of "10 + 2 * 3". */
  lemma CodeSumOfProduct()
    ensures Generate(CodeGenerator([]), BinOp(Num(10), Plus, BinOp(Num(2), Multiply, Num(3)))) == Ok([Push(10), Push(2), Push(3), Mul, Add])
  {
    var g := CodeGenerator([]);
    GenerateBinOp(g, Num(2), Multiply, Num(3));
    assert Generate(g, BinOp(Num(2), Multiply, Num(3))).value == [Push(2), Push(3), Mul];
    GenerateBinOp(g, Num(10), Plus, BinOp(Num(2), Multiply, Num(3)));
    assert Generate(g, BinOp(Num(10), Plus, BinOp(Num(2), Multiply, Num(3)))).value == [Push(10), Push(2), Push(3), Mul, Add];
  }

  /** The lines printed for the code of "10 + 2 * 3". */
  lemma ListingSumOfProduct()
    ensures Listing([Push(10), Push(2), Push(3), Mul, Add]) == ["PUSH 10", "PUSH 2", "PUSH 3", "MUL", "ADD"]
  {
    assert Render(Push(10)) == "PUSH 10" by { assert NatToString(10) == "10"; }
    assert Render(Push(2)) == "PUSH 2" by { assert NatToString(2) == "2"; }
    assert Render(Push(3)) == "PUSH 3" by { assert NatToString(3) == "3"; }
    var lines := Listing([Push(10), Push(2), Push(3), Mul, Add]);
    assert lines[0] == "PUSH 10";
    assert lines[1] == "PUSH 2";
    assert lines[2] == "PUSH 3";
    assert lines[3] == "MUL";
    assert lines[4] == "ADD";
  }

  /** Compiling "10 + 2 * 3" yields the tree and the listing that the usage example
      expects. */
  lemma CompileSumOfProduct(text: string)
    requires text == "10 + 2 * 3"
    ensures Compile(text).Ok? && Compile(text).value.tree == BinOp(Num(10), Plus, BinOp(Num(2), Multiply, Num(3)))
    ensures Listing(Compile(text).value.code) == ["PUSH 10", "PUSH 2", "PUSH 3", "MUL", "ADD"]
  {
    LexSumOfProduct(text);
    TokenizeVerdict(LexState(text, 0));
    ParseSumOfProduct(text);
    CodeSumOfProduct();
    ListingSumOfProduct();
  }

  /** Tokens 0 to 3 of the trace of "(7 - 2) / 5", for
      `CompileQuotientOfDifference` (lox/code_generator.py:128-144). */
  lemma TraceQuotientOfDifference0(text: string)
    requires text == "(7 - 2) / 5"
    ensures forall i :: 0 <= i < 4 ==> Local(text, [LParen, Int(7), Neg, Int(2), RParen, Divide, Int(5)], [Mark(0, 1), Mark(1, 2), Mark(3, 4), Mark(5, 6), Mark(6, 7), Mark(8, 9), Mark(10, 11)], i)
  {
    var ts, marks := [LParen, Int(7), Neg, Int(2), RParen, Divide, Int(5)], [Mark(0, 1), Mark(1, 2), Mark(3, 4), Mark(5, 6), Mark(6, 7), Mark(8, 9), Mark(10, 11)];
    forall i | 0 <= i < 4 ensures Local(text, ts, marks, i) {
      if i == 0 {
      } else if i == 1 {
        assert text[1..2] == "7";
      } else if i == 2 {
      } else if i == 3 {
        assert text[5..6] == "2";
      }
    }
  }

  /** Tokens 4 to 6 of the trace of "(7 - 2) / 5", for
      `CompileQuotientOfDifference` (lox/code_generator.py:128-144). */
  lemma TraceQuotientOfDifference1(text: string)
    requires text == "(7 - 2) / 5"
    ensures forall i :: 4 <= i < 7 ==> Local(text, [LParen, Int(7), Neg, Int(2), RParen, Divide, Int(5)], [Mark(0, 1), Mark(1, 2), Mark(3, 4), Mark(5, 6), Mark(6, 7), Mark(8, 9), Mark(10, 11)], i)
  {
    var ts, marks := [LParen, Int(7), Neg, Int(2), RParen, Divide, Int(5)], [Mark(0, 1), Mark(1, 2), Mark(3, 4), Mark(5, 6), Mark(6, 7), Mark(8, 9), Mark(10, 11)];
    forall i | 4 <= i < 7 ensures Local(text, ts, marks, i) {
      if i == 4 {
      } else if i == 5 {
      } else if i == 6 {
        assert text[10..11] == "5";
      }
    }
  }

  /** The offsets at which the lexer meets the tokens of "(7 - 2) / 5", for
      `CompileQuotientOfDifference` (lox/code_generator.py:128-144). */
  lemma TraceQuotientOfDifference(text: string)
    requires text == "(7 - 2) / 5"
    ensures Traced(text, [LParen, Int(7), Neg, Int(2), RParen, Divide, Int(5)], [Mark(0, 1), Mark(1, 2), Mark(3, 4), Mark(5, 6), Mark(6, 7), Mark(8, 9), Mark(10, 11)], 11)
  {
    TraceQuotientOfDifference0(text);
    TraceQuotientOfDifference1(text);
  }

  /** The tokens of "(7 - 2) / 5". */
  lemma LexQuotientOfDifference(text: string)
    requires text == "(7 - 2) / 5"
    ensures Tokenize(LexState(text, 0)) == Ok([LParen, Int(7), Neg, Int(2), RParen, Divide, Int(5), Eof])
  {
    assert [LParen, Int(7), Neg, Int(2), RParen, Divide, Int(5)] + [Eof] == [LParen, Int(7), Neg, Int(2), RParen, Divide, Int(5), Eof];
    TraceQuotientOfDifference(text);
    TokenizeTraced(text, [LParen, Int(7), Neg, Int(2), RParen, Divide, Int(5)], [Mark(0, 1), Mark(1, 2), Mark(3, 4), Mark(5, 6), Mark(6, 7), Mark(8, 9), Mark(10, 11)], 11, 0);
  }

  /** The tokens the tree of "(7 - 2) / 5" is printed as. */
  lemma FlatQuotientOfDifference()
    ensures Flat(BinOp(BinOp(Num(7), Neg, Num(2)), Divide, Num(5))) + [Eof] == [LParen, Int(7), Neg, Int(2), RParen, Divide, Int(5), Eof]
  {
    assert Flat(BinOp(Num(7), Neg, Num(2))) == [Int(7), Neg, Int(2)];
    assert Flat(BinOp(BinOp(Num(7), Neg, Num(2)), Divide, Num(5))) == [LParen, Int(7), Neg, Int(2), RParen, Divide, Int(5)];
    assert [LParen, Int(7), Neg, Int(2), RParen, Divide, Int(5)] + [Eof] == [LParen, Int(7), Neg, Int(2), RParen, Divide, Int(5), Eof];
  }

  /** The tree of "(7 - 2) / 5". */
  lemma ParseQuotientOfDifference(text: string)
    requires text == "(7 - 2) / 5"
    ensures Parse(text) == Ok(BinOp(BinOp(Num(7), Neg, Num(2)), Divide, Num(5)))
  {
    LexQuotientOfDifference(text);
    FlatQuotientOfDifference();
    ParseTokenized(text, BinOp(BinOp(Num(7), Neg, Num(2)), Divide, Num(5)));
  }

  /** The code generated for the tree of "(7 - 2) / 5". */
  lemma CodeQuotientOfDifference()
    ensures Generate(CodeGenerator([]), BinOp(BinOp(Num(7), Neg, Num(2)), Divide, Num(5))) == Ok([Push(7), Push(2), Sub, Push(5), Div])
  {
    var g := CodeGenerator([]);
    GenerateBinOp(g, Num(7), Neg, Num(2));
    assert Generate(g, BinOp(Num(7), Neg, Num(2))).value == [Push(7), Push(2), Sub];
    GenerateBinOp(g, BinOp(Num(7), Neg, Num(2)), Divide, Num(5));
    assert Generate(g, BinOp(BinOp(Num(7), Neg, Num(2)), Divide, Num(5))).value == [Push(7), Push(2), Sub, Push(5), Div];
  }

  /** The lines printed for the code of "(7 - 2) / 5". */
  lemma ListingQuotientOfDifference()
    ensures Listing([Push(7), Push(2), Sub, Push(5), Div]) == ["PUSH 7", "PUSH 2", "SUB", "PUSH 5", "DIV"]
  {
    assert Render(Push(7)) == "PUSH 7" by { assert NatToString(7) == "7"; }
    assert Render(Push(2)) == "PUSH 2" by { assert NatToString(2) == "2"; }
    assert Render(Push(5)) == "PUSH 5" by { assert NatToString(5) == "5"; }
    var lines := Listing([Push(7), Push(2), Sub, Push(5), Div]);
    assert lines[0] == "PUSH 7";
    assert lines[1] == "PUSH 2";
    assert lines[2] == "SUB";
    assert lines[3] == "PUSH 5";
    assert lines[4] == "DIV";
  }

  /** Compiling "(7 - 2) / 5" yields the tree and the listing that the usage example
      expects. */
  lemma CompileQuotientOfDifference(text: string)
    requires text == "(7 - 2) / 5"
    ensures Compile(text).Ok? && Compile(text).value.tree == BinOp(BinOp(Num(7), Neg, Num(2)), Divide, Num(5))
    ensures Listing(Compile(text).value.code) == ["PUSH 7", "PUSH 2", "SUB", "PUSH 5", "DIV"]
  {
    LexQuotientOfDifference(text);
    TokenizeVerdict(LexState(text, 0));
    ParseQuotientOfDifference(text);
    CodeQuotientOfDifference();
    ListingQuotientOfDifference();
  }

  /** Tokens 0 to 3 of the trace of "(10 + 2) * (5 - 1) / 3", for
      `CompileMixed` (lox/code_generator.py:146-166). */
  lemma TraceMixed0(text: string)
    requires text == "(10 + 2) * (5 - 1) / 3"
    ensures forall i :: 0 <= i < 4 ==> Local(text, [LParen, Int(10), Plus, Int(2), RParen, Multiply, LParen, Int(5), Neg, Int(1), RParen, Divide, Int(3)], [Mark(0, 1), Mark(1, 3), Mark(4, 5), Mark(6, 7), Mark(7, 8), Mark(9, 10), Mark(11, 12), Mark(12, 13), Mark(14, 15), Mark(16, 17), Mark(17, 18), Mark(19, 20), Mark(21, 22)], i)
  {
    var ts, marks := [LParen, Int(10), Plus, Int(2), RParen, Multiply, LParen, Int(5), Neg, Int(1), RParen, Divide, Int(3)], [Mark(0, 1), Mark(1, 3), Mark(4, 5), Mark(6, 7), Mark(7, 8), Mark(9, 10), Mark(11, 12), Mark(12, 13), Mark(14, 15), Mark(16, 17), Mark(17, 18), Mark(19, 20), Mark(21, 22)];
    forall i | 0 <= i < 4 ensures Local(text, ts, marks, i) {
      if i == 0 {
      } else if i == 1 {
        assert text[1] == '1' && text[2] == '0';
        assert text[1..3] == "10";
        assert "10"[..1] == "1";
      } else if i == 2 {
      } else if i == 3 {
        assert text[6..7] == "2";
      }
    }
  }

  /** Tokens 4 to 7 of the trace of "(10 + 2) * (5 - 1) / 3", for
      `CompileMixed` (lox/code_generator.py:146-166). */
  lemma TraceMixed1(text: string)
    requires text == "(10 + 2) * (5 - 1) / 3"
    ensures forall i :: 4 <= i < 8 ==> Local(text, [LParen, Int(10), Plus, Int(2), RParen, Multiply, LParen, Int(5), Neg, Int(1), RParen, Divide, Int(3)], [Mark(0, 1), Mark(1, 3), Mark(4, 5), Mark(6, 7), Mark(7, 8), Mark(9, 10), Mark(11, 12), Mark(12, 13), Mark(14, 15), Mark(16, 17), Mark(17, 18), Mark(19, 20), Mark(21, 22)], i)
  {
    var ts, marks := [LParen, Int(10), Plus, Int(2), RParen, Multiply, LParen, Int(5), Neg, Int(1), RParen, Divide, Int(3)], [Mark(0, 1), Mark(1, 3), Mark(4, 5), Mark(6, 7), Mark(7, 8), Mark(9, 10), Mark(11, 12), Mark(12, 13), Mark(14, 15), Mark(16, 17), Mark(17, 18), Mark(19, 20), Mark(21, 22)];
    forall i | 4 <= i < 8 ensures Local(text, ts, marks, i) {
      if i == 4 {
      } else if i == 5 {
      } else if i == 6 {
      } else if i == 7 {
        assert text[12..13] == "5";
      }
    }
  }

  /** Tokens 8 to 11 of the trace of "(10 + 2) * (5 - 1) / 3", for
      `CompileMixed` (lox/code_generator.py:146-166). */
  lemma TraceMixed2(text: string)
    requires text == "(10 + 2) * (5 - 1) / 3"
    ensures forall i :: 8 <= i < 12 ==> Local(text, [LParen, Int(10), Plus, Int(2), RParen, Multiply, LParen, Int(5), Neg, Int(1), RParen, Divide, Int(3)], [Mark(0, 1), Mark(1, 3), Mark(4, 5), Mark(6, 7), Mark(7, 8), Mark(9, 10), Mark(11, 12), Mark(12, 13), Mark(14, 15), Mark(16, 17), Mark(17, 18), Mark(19, 20), Mark(21, 22)], i)
  {
    var ts, marks := [LParen, Int(10), Plus, Int(2), RParen, Multiply, LParen, Int(5), Neg, Int(1), RParen, Divide, Int(3)], [Mark(0, 1), Mark(1, 3), Mark(4, 5), Mark(6, 7), Mark(7, 8), Mark(9, 10), Mark(11, 12), Mark(12, 13), Mark(14, 15), Mark(16, 17), Mark(17, 18), Mark(19, 20), Mark(21, 22)];
    forall i | 8 <= i < 12 ensures Local(text, ts, marks, i) {
      if i == 8 {
      } else if i == 9 {
        assert text[16..17] == "1";
      } else if i == 10 {
      } else if i == 11 {
      }
    }
  }

  /** Tokens 12 to 12 of the trace of "(10 + 2) * (5 - 1) / 3", for
      `CompileMixed` (lox/code_generator.py:146-166). */
  lemma TraceMixed3(text: string)
    requires text == "(10 + 2) * (5 - 1) / 3"
    ensures forall i :: 12 <= i < 13 ==> Local(text, [LParen, Int(10), Plus, Int(2), RParen, Multiply, LParen, Int(5), Neg, Int(1), RParen, Divide, Int(3)], [Mark(0, 1), Mark(1, 3), Mark(4, 5), Mark(6, 7), Mark(7, 8), Mark(9, 10), Mark(11, 12), Mark(12, 13), Mark(14, 15), Mark(16, 17), Mark(17, 18), Mark(19, 20), Mark(21, 22)], i)
  {
    var ts, marks := [LParen, Int(10), Plus, Int(2), RParen, Multiply, LParen, Int(5), Neg, Int(1), RParen, Divide, Int(3)], [Mark(0, 1), Mark(1, 3), Mark(4, 5), Mark(6, 7), Mark(7, 8), Mark(9, 10), Mark(11, 12), Mark(12, 13), Mark(14, 15), Mark(16, 17), Mark(17, 18), Mark(19, 20), Mark(21, 22)];
    forall i | 12 <= i < 13 ensures Local(text, ts, marks, i) {
      if i == 12 {
        assert text[21..22] == "3";
      }
    }
  }

  /** The offsets at which the lexer meets the tokens of "(10 + 2) * (5 - 1) / 3", for
      `CompileMixed` (lox/code_generator.py:146-166). */
  lemma TraceMixed(text: string)
    requires text == "(10 + 2) * (5 - 1) / 3"
    ensures Traced(text, [LParen, Int(10), Plus, Int(2), RParen, Multiply, LParen, Int(5), Neg, Int(1), RParen, Divide, Int(3)], [Mark(0, 1), Mark(1, 3), Mark(4, 5), Mark(6, 7), Mark(7, 8), Mark(9, 10), Mark(11, 12), Mark(12, 13), Mark(14, 15), Mark(16, 17), Mark(17, 18), Mark(19, 20), Mark(21, 22)], 22)
  {
    TraceMixed0(text);
    TraceMixed1(text);
    TraceMixed2(text);
    TraceMixed3(text);
  }

  /** The tokens of "(10 + 2) * (5 - 1) / 3". */
  lemma LexMixed(text: string)
    requires text == "(10 + 2) * (5 - 1) / 3"
    ensures Tokenize(LexState(text, 0)) == Ok([LParen, Int(10), Plus, Int(2), RParen, Multiply, LParen, Int(5), Neg, Int(1), RParen, Divide, Int(3), Eof])
  {
    assert [LParen, Int(10), Plus, Int(2), RParen, Multiply, LParen, Int(5), Neg, Int(1), RParen, Divide, Int(3)] + [Eof] == [LParen, Int(10), Plus, Int(2), RParen, Multiply, LParen, Int(5), Neg, Int(1), RParen, Divide, Int(3), Eof];
    TraceMixed(text);
    TokenizeTraced(text, [LParen, Int(10), Plus, Int(2), RParen, Multiply, LParen, Int(5), Neg, Int(1), RParen, Divide, Int(3)], [Mark(0, 1), Mark(1, 3), Mark(4, 5), Mark(6, 7), Mark(7, 8), Mark(9, 10), Mark(11, 12), Mark(12, 13), Mark(14, 15), Mark(16, 17), Mark(17, 18), Mark(19, 20), Mark(21, 22)], 22, 0);
  }

  /** The tokens the tree of "(10 + 2) * (5 - 1) / 3" is printed as. */
  lemma FlatMixed()
    ensures Flat(BinOp(BinOp(BinOp(Num(10), Plus, Num(2)), Multiply, BinOp(Num(5), Neg, Num(1))), Divide, Num(3))) + [Eof] == [LParen, Int(10), Plus, Int(2), RParen, Multiply, LParen, Int(5), Neg, Int(1), RParen, Divide, Int(3), Eof]
  {
    assert Flat(BinOp(Num(10), Plus, Num(2))) == [Int(10), Plus, Int(2)];
    assert Flat(BinOp(Num(5), Neg, Num(1))) == [Int(5), Neg, Int(1)];
    assert Flat(BinOp(BinOp(Num(10), Plus, Num(2)), Multiply, BinOp(Num(5), Neg, Num(1)))) == [LParen, Int(10), Plus, Int(2), RParen, Multiply, LParen, Int(5), Neg, Int(1), RParen];
    assert Flat(BinOp(BinOp(BinOp(Num(10), Plus, Num(2)), Multiply, BinOp(Num(5), Neg, Num(1))), Divide, Num(3))) == [LParen, Int(10), Plus, Int(2), RParen, Multiply, LParen, Int(5), Neg, Int(1), RParen, Divide, Int(3)];
    assert [LParen, Int(10), Plus, Int(2), RParen, Multiply, LParen, Int(5), Neg, Int(1), RParen, Divide, Int(3)] + [Eof] == [LParen, Int(10), Plus, Int(2), RParen, Multiply, LParen, Int(5), Neg, Int(1), RParen, Divide, Int(3), Eof];
  }

  /** The tree of "(10 + 2) * (5 - 1) / 3". */
  lemma ParseMixed(text: string)
    requires text == "(10 + 2) * (5 - 1) / 3"
    ensures Parse(text) == Ok(BinOp(BinOp(BinOp(Num(10), Plus, Num(2)), Multiply, BinOp(Num(5), Neg, Num(1))), Divide, Num(3)))
  {
    LexMixed(text);
    FlatMixed();
    ParseTokenized(text, BinOp(BinOp(BinOp(Num(10), Plus, Num(2)), Multiply, BinOp(Num(5), Neg, Num(1))), Divide, Num(3)));
  }

  lemma CodeMixed0()
    ensures Generate(CodeGenerator([]), BinOp(Num(10), Plus, Num(2))) == Ok([Push(10), Push(2), Add])
  {
    GenerateBinOp(CodeGenerator([]), Num(10), Plus, Num(2));
    assert [Push(10)] + [Push(2)] + [Add] == [Push(10), Push(2), Add];
  }

  lemma CodeMixed1()
    ensures Generate(CodeGenerator([]), BinOp(Num(5), Neg, Num(1))) == Ok([Push(5), Push(1), Sub])
  {
    GenerateBinOp(CodeGenerator([]), Num(5), Neg, Num(1));
    assert [Push(5)] + [Push(1)] + [Sub] == [Push(5), Push(1), Sub];
  }

  lemma CodeMixed2()
    ensures Generate(CodeGenerator([]), BinOp(BinOp(Num(10), Plus, Num(2)), Multiply, BinOp(Num(5), Neg, Num(1)))) == Ok([Push(10), Push(2), Add, Push(5), Push(1), Sub, Mul])
  {
    CodeMixed0();
    CodeMixed1();
    GenerateBinOp(CodeGenerator([]), BinOp(Num(10), Plus, Num(2)), Multiply, BinOp(Num(5), Neg, Num(1)));
    assert [Push(10), Push(2), Add] + [Push(5), Push(1), Sub] + [Mul] == [Push(10), Push(2), Add, Push(5), Push(1), Sub, Mul];
  }

  /** The code generated for the tree of "(10 + 2) * (5 - 1) / 3". */
  lemma CodeMixed()
    ensures Generate(CodeGenerator([]), BinOp(BinOp(BinOp(Num(10), Plus, Num(2)), Multiply, BinOp(Num(5), Neg, Num(1))), Divide, Num(3))) == Ok([Push(10), Push(2), Add, Push(5), Push(1), Sub, Mul, Push(3), Div])
  {
    CodeMixed2();
    GenerateBinOp(CodeGenerator([]), BinOp(BinOp(Num(10), Plus, Num(2)), Multiply, BinOp(Num(5), Neg, Num(1))), Divide, Num(3));
    assert [Push(10), Push(2), Add, Push(5), Push(1), Sub, Mul] + [Push(3)] + [Div] == [Push(10), Push(2), Add, Push(5), Push(1), Sub, Mul, Push(3), Div];
  }

  lemma ListingMixed0()
    ensures Listing([Push(10), Push(2), Add, Push(5), Push(1), Sub, Mul, Push(3), Div])[0] == "PUSH 10" && Listing([Push(10), Push(2), Add, Push(5), Push(1), Sub, Mul, Push(3), Div])[1] == "PUSH 2" && Listing([Push(10), Push(2), Add, Push(5), Push(1), Sub, Mul, Push(3), Div])[2] == "ADD" && Listing([Push(10), Push(2), Add, Push(5), Push(1), Sub, Mul, Push(3), Div])[3] == "PUSH 5"
  {
    assert Render(Push(10)) == "PUSH 10" by { assert NatToString(10) == "10"; }
    assert Render(Push(2)) == "PUSH 2" by { assert NatToString(2) == "2"; }
    assert Render(Push(5)) == "PUSH 5" by { assert NatToString(5) == "5"; }
  }

  lemma ListingMixed1()
    ensures Listing([Push(10), Push(2), Add, Push(5), Push(1), Sub, Mul, Push(3), Div])[4] == "PUSH 1" && Listing([Push(10), Push(2), Add, Push(5), Push(1), Sub, Mul, Push(3), Div])[5] == "SUB" && Listing([Push(10), Push(2), Add, Push(5), Push(1), Sub, Mul, Push(3), Div])[6] == "MUL" && Listing([Push(10), Push(2), Add, Push(5), Push(1), Sub, Mul, Push(3), Div])[7] == "PUSH 3" && Listing([Push(10), Push(2), Add, Push(5), Push(1), Sub, Mul, Push(3), Div])[8] == "DIV"
  {
    assert Render(Push(1)) == "PUSH 1" by { assert NatToString(1) == "1"; }
    assert Render(Push(3)) == "PUSH 3" by { assert NatToString(3) == "3"; }
  }

  /** The lines printed for the code of "(10 + 2) * (5 - 1) / 3". */
  lemma ListingMixed()
    ensures Listing([Push(10), Push(2), Add, Push(5), Push(1), Sub, Mul, Push(3), Div]) == ["PUSH 10", "PUSH 2", "ADD", "PUSH 5", "PUSH 1", "SUB", "MUL", "PUSH 3", "DIV"]
  {
    ListingMixed0();
    ListingMixed1();
  }

  /** Compiling "(10 + 2) * (5 - 1) / 3" yields the tree and the listing that the usage
      example expects. */
  lemma CompileMixed(text: string)
    requires text == "(10 + 2) * (5 - 1) / 3"
    ensures Compile(text).Ok? && Compile(text).value.tree == BinOp(BinOp(BinOp(Num(10), Plus, Num(2)), Multiply, BinOp(Num(5), Neg, Num(1))), Divide, Num(3))
    ensures Listing(Compile(text).value.code) == ["PUSH 10", "PUSH 2", "ADD", "PUSH 5", "PUSH 1", "SUB", "MUL", "PUSH 3", "DIV"]
  {
    LexMixed(text);
    TokenizeVerdict(LexState(text, 0));
    ParseMixed(text);
    CodeMixed();
    ListingMixed();
  }

  /** The offsets at which the lexer meets the tokens of "2 * (3 + 4", for
      `ParseMissingRightParen` (tests/test_parser.py:94-99). */
  lemma TraceMissingRightParen(text: string)
    requires text == "2 * (3 + 4"
    ensures Traced(text, [Int(2), Multiply, LParen, Int(3), Plus, Int(4)], [Mark(0, 1), Mark(2, 3), Mark(4, 5), Mark(5, 6), Mark(7, 8), Mark(9, 10)], 10)
  {
    var ts, marks := [Int(2), Multiply, LParen, Int(3), Plus, Int(4)], [Mark(0, 1), Mark(2, 3), Mark(4, 5), Mark(5, 6), Mark(7, 8), Mark(9, 10)];
    forall i | 0 <= i < |ts| ensures Local(text, ts, marks, i) {
      if i == 0 {
        assert text[0..1] == "2";
      } else if i == 1 {
      } else if i == 2 {
      } else if i == 3 {
        assert text[5..6] == "3";
      } else if i == 4 {
      } else if i == 5 {
        assert text[9..10] == "4";
      }
    }
  }

  /** The tokens of "2 * (3 + 4". */
  lemma LexMissingRightParen(text: string)
    requires text == "2 * (3 + 4"
    ensures Tokenize(LexState(text, 0)) == Ok([Int(2), Multiply, LParen, Int(3), Plus, Int(4), Eof])
  {
    assert [Int(2), Multiply, LParen, Int(3), Plus, Int(4)] + [Eof] == [Int(2), Multiply, LParen, Int(3), Plus, Int(4), Eof];
    TraceMissingRightParen(text);
    TokenizeTraced(text, [Int(2), Multiply, LParen, Int(3), Plus, Int(4)], [Mark(0, 1), Mark(2, 3), Mark(4, 5), Mark(5, 6), Mark(7, 8), Mark(9, 10)], 10, 0);
  }

  /** How the tokens of "2 * (3 + 4" split around the failure. */
  lemma ShapeMissingRightParen()
    ensures PrintSlot(After(Lit(2), Multiply, Start)) + [LParen] + Print(Infix(Lit(3), Plus, Lit(4))) + [Eof] == [Int(2), Multiply, LParen, Int(3), Plus, Int(4), Eof]
  {
    assert PrintSlot(After(Lit(2), Multiply, Start)) == [Int(2), Multiply];
    assert Print(Infix(Lit(3), Plus, Lit(4))) == [Int(3), Plus, Int(4)];
  }

  /** An unclosed parenthesis fails where `)` is expected and `Eof` is found. */
  lemma ParseMissingRightParen(text: string)
    requires text == "2 * (3 + 4"
    ensures Parse(text) == Err(ParserError(Expected(RPAREN), Eof))
  {
    LexMissingRightParen(text);
    ShapeMissingRightParen();
    UnclosedParen(text, After(Lit(2), Multiply, Start), Infix(Lit(3), Plus, Lit(4)));
  }

  /** The offsets at which the lexer meets the tokens of "2 + * 3", for
      `ParseUnexpectedToken` (tests/test_parser.py:101-106). */
  lemma TraceUnexpectedToken(text: string)
    requires text == "2 + * 3"
    ensures Traced(text, [Int(2), Plus, Multiply, Int(3)], [Mark(0, 1), Mark(2, 3), Mark(4, 5), Mark(6, 7)], 7)
  {
    var ts, marks := [Int(2), Plus, Multiply, Int(3)], [Mark(0, 1), Mark(2, 3), Mark(4, 5), Mark(6, 7)];
    forall i | 0 <= i < |ts| ensures Local(text, ts, marks, i) {
      if i == 0 {
        assert text[0..1] == "2";
      } else if i == 1 {
      } else if i == 2 {
      } else if i == 3 {
        assert text[6..7] == "3";
      }
    }
  }

  /** The tokens of "2 + * 3". */
  lemma LexUnexpectedToken(text: string)
    requires text == "2 + * 3"
    ensures Tokenize(LexState(text, 0)) == Ok([Int(2), Plus, Multiply, Int(3), Eof])
  {
    assert [Int(2), Plus, Multiply, Int(3)] + [Eof] == [Int(2), Plus, Multiply, Int(3), Eof];
    TraceUnexpectedToken(text);
    TokenizeTraced(text, [Int(2), Plus, Multiply, Int(3)], [Mark(0, 1), Mark(2, 3), Mark(4, 5), Mark(6, 7)], 7, 0);
  }

  /** How the tokens of "2 + * 3" split around the failure. */
  lemma ShapeUnexpectedToken()
    ensures PrintSlot(After(Lit(2), Plus, Start)) + [Multiply] + ([Int(3)] + [Eof]) == [Int(2), Plus, Multiply, Int(3), Eof]
  {
    assert PrintSlot(After(Lit(2), Plus, Start)) == [Int(2), Plus];
  }

  /** An operator where an operand should start fails in `factor`, naming that operator. */
  lemma ParseUnexpectedToken(text: string)
    requires text == "2 + * 3"
    ensures Parse(text) == Err(ParserError(ExpectedFactor, Multiply))
  {
    LexUnexpectedToken(text);
    ShapeUnexpectedToken();
    TokenizeLeads(LexState(text, 0), PrintSlot(After(Lit(2), Plus, Start)) + [Multiply], [Int(3)] + [Eof]);
    MissingOperand(text, After(Lit(2), Plus, Start), Multiply);
  }

  /** The offsets at which the lexer meets the tokens of "((1))", for
      `ParseNestedGroup` (lox/parser.py:93-97). */
  lemma TraceNestedGroup(text: string)
    requires text == "((1))"
    ensures Traced(text, [LParen, LParen, Int(1), RParen, RParen], [Mark(0, 1), Mark(1, 2), Mark(2, 3), Mark(3, 4), Mark(4, 5)], 5)
  {
    var ts, marks := [LParen, LParen, Int(1), RParen, RParen], [Mark(0, 1), Mark(1, 2), Mark(2, 3), Mark(3, 4), Mark(4, 5)];
    forall i | 0 <= i < |ts| ensures Local(text, ts, marks, i) {
      if i == 0 {
      } else if i == 1 {
      } else if i == 2 {
        assert text[2..3] == "1";
      } else if i == 3 {
      } else if i == 4 {
      }
    }
  }

  /** The tokens of "((1))". */
  lemma LexNestedGroup(text: string)
    requires text == "((1))"
    ensures Tokenize(LexState(text, 0)) == Ok([LParen, LParen, Int(1), RParen, RParen, Eof])
  {
    assert [LParen, LParen, Int(1), RParen, RParen] + [Eof] == [LParen, LParen, Int(1), RParen, RParen, Eof];
    TraceNestedGroup(text);
    TokenizeTraced(text, [LParen, LParen, Int(1), RParen, RParen], [Mark(0, 1), Mark(1, 2), Mark(2, 3), Mark(3, 4), Mark(4, 5)], 5, 0);
  }

  /** How the tokens of "((1))" split for the general lemma. */
  lemma ShapeNestedGroup()
    ensures [LParen] + Print(Group(Lit(1))) + [RParen] + [Eof] == [LParen, LParen, Int(1), RParen, RParen, Eof]
  {
    assert Print(Lit(1)) == [Int(1)];
    assert Print(Group(Lit(1))) == [LParen, Int(1), RParen];
  }

  /** Parentheses inside parentheses leave no node of their own. */
  lemma ParseNestedGroup(text: string)
    requires text == "((1))"
    ensures Parse(text) == Ok(Num(1))
  {
    LexNestedGroup(text);
    ShapeNestedGroup();
    ParenTransparent(text, Group(Lit(1)));
  }

  /** The offsets at which the lexer meets the tokens of "((1)", for
      `ParseUnclosedNested` (lox/parser.py:93-96). */
  lemma TraceUnclosedNested(text: string)
    requires text == "((1)"
    ensures Traced(text, [LParen, LParen, Int(1), RParen], [Mark(0, 1), Mark(1, 2), Mark(2, 3), Mark(3, 4)], 4)
  {
    var ts, marks := [LParen, LParen, Int(1), RParen], [Mark(0, 1), Mark(1, 2), Mark(2, 3), Mark(3, 4)];
    forall i | 0 <= i < |ts| ensures Local(text, ts, marks, i) {
      if i == 0 {
      } else if i == 1 {
      } else if i == 2 {
        assert text[2..3] == "1";
      } else if i == 3 {
      }
    }
  }

  /** The tokens of "((1)". */
  lemma LexUnclosedNested(text: string)
    requires text == "((1)"
    ensures Tokenize(LexState(text, 0)) == Ok([LParen, LParen, Int(1), RParen, Eof])
  {
    assert [LParen, LParen, Int(1), RParen] + [Eof] == [LParen, LParen, Int(1), RParen, Eof];
    TraceUnclosedNested(text);
    TokenizeTraced(text, [LParen, LParen, Int(1), RParen], [Mark(0, 1), Mark(1, 2), Mark(2, 3), Mark(3, 4)], 4, 0);
  }

  /** How the tokens of "((1)" split for the general lemma. */
  lemma ShapeUnclosedNested()
    ensures PrintSlot(Start) + [LParen] + Print(Group(Lit(1))) + [Eof] == [LParen, LParen, Int(1), RParen, Eof]
  {
    assert Print(Lit(1)) == [Int(1)];
    assert Print(Group(Lit(1))) == [LParen, Int(1), RParen];
  }

  /** An outer parenthesis left open around a closed one fails at the end of the text. */
  lemma ParseUnclosedNested(text: string)
    requires text == "((1)"
    ensures Parse(text) == Err(ParserError(Expected(RPAREN), Eof))
  {
    LexUnclosedNested(text);
    ShapeUnclosedNested();
    UnclosedParen(text, Start, Group(Lit(1)));
  }

  /** The offsets at which the lexer meets the tokens of "1 + 2 * )", for
      `ParseMissingFactorAfterSum` (lox/parser.py:98-99). */
  lemma TraceMissingFactorAfterSum(text: string)
    requires text == "1 + 2 * )"
    ensures Traced(text, [Int(1), Plus, Int(2), Multiply, RParen], [Mark(0, 1), Mark(2, 3), Mark(4, 5), Mark(6, 7), Mark(8, 9)], 9)
  {
    var ts, marks := [Int(1), Plus, Int(2), Multiply, RParen], [Mark(0, 1), Mark(2, 3), Mark(4, 5), Mark(6, 7), Mark(8, 9)];
    forall i | 0 <= i < |ts| ensures Local(text, ts, marks, i) {
      if i == 0 {
        assert text[0..1] == "1";
      } else if i == 1 {
      } else if i == 2 {
        assert text[4..5] == "2";
      } else if i == 3 {
      } else if i == 4 {
      }
    }
  }

  /** The tokens of "1 + 2 * )". */
  lemma LexMissingFactorAfterSum(text: string)
    requires text == "1 + 2 * )"
    ensures Tokenize(LexState(text, 0)) == Ok([Int(1), Plus, Int(2), Multiply, RParen, Eof])
  {
    assert [Int(1), Plus, Int(2), Multiply, RParen] + [Eof] == [Int(1), Plus, Int(2), Multiply, RParen, Eof];
    TraceMissingFactorAfterSum(text);
    TokenizeTraced(text, [Int(1), Plus, Int(2), Multiply, RParen], [Mark(0, 1), Mark(2, 3), Mark(4, 5), Mark(6, 7), Mark(8, 9)], 9, 0);
  }

  /** How the tokens of "1 + 2 * )" split for the general lemma. */
  lemma ShapeMissingFactorAfterSum()
    ensures PrintSlot(After(Infix(Lit(1), Plus, Lit(2)), Multiply, Start)) + [RParen] + ([] + [Eof]) == [Int(1), Plus, Int(2), Multiply, RParen, Eof]
  {
    assert Print(Infix(Lit(1), Plus, Lit(2))) == [Int(1), Plus, Int(2)];
    assert PrintSlot(After(Infix(Lit(1), Plus, Lit(2)), Multiply, Start)) == [Int(1), Plus, Int(2), Multiply];
  }

  /** A missing operand after `*` that follows a sum fails in `factor`, naming the `)`. */
  lemma ParseMissingFactorAfterSum(text: string)
    requires text == "1 + 2 * )"
    ensures Parse(text) == Err(ParserError(ExpectedFactor, RParen))
  {
    LexMissingFactorAfterSum(text);
    ShapeMissingFactorAfterSum();
    TokenizeLeads(LexState(text, 0), PrintSlot(After(Infix(Lit(1), Plus, Lit(2)), Multiply, Start)) + [RParen], [] + [Eof]);
    MissingOperand(text, After(Infix(Lit(1), Plus, Lit(2)), Multiply, Start), RParen);
  }

  /** The offsets at which the lexer meets the tokens of "(1) 2", for
      `ParseTrailingAfterGroup` (lox/parser.py:152-155). */
  lemma TraceTrailingAfterGroup(text: string)
    requires text == "(1) 2"
    ensures Traced(text, [LParen, Int(1), RParen, Int(2)], [Mark(0, 1), Mark(1, 2), Mark(2, 3), Mark(4, 5)], 5)
  {
    var ts, marks := [LParen, Int(1), RParen, Int(2)], [Mark(0, 1), Mark(1, 2), Mark(2, 3), Mark(4, 5)];
    forall i | 0 <= i < |ts| ensures Local(text, ts, marks, i) {
      if i == 0 {
      } else if i == 1 {
        assert text[1..2] == "1";
      } else if i == 2 {
      } else if i == 3 {
        assert text[4..5] == "2";
      }
    }
  }

  /** The tokens of "(1) 2". */
  lemma LexTrailingAfterGroup(text: string)
    requires text == "(1) 2"
    ensures Tokenize(LexState(text, 0)) == Ok([LParen, Int(1), RParen, Int(2), Eof])
  {
    assert [LParen, Int(1), RParen, Int(2)] + [Eof] == [LParen, Int(1), RParen, Int(2), Eof];
    TraceTrailingAfterGroup(text);
    TokenizeTraced(text, [LParen, Int(1), RParen, Int(2)], [Mark(0, 1), Mark(1, 2), Mark(2, 3), Mark(4, 5)], 5, 0);
  }

  /** How the tokens of "(1) 2" split for the general lemma. */
  lemma ShapeTrailingAfterGroup()
    ensures Print(Group(Lit(1))) + [Int(2)] + ([] + [Eof]) == [LParen, Int(1), RParen, Int(2), Eof]
  {
    assert Print(Lit(1)) == [Int(1)];
    assert Print(Group(Lit(1))) == [LParen, Int(1), RParen];
  }

  /** A number after a complete parenthesised expression is trailing input. */
  lemma ParseTrailingAfterGroup(text: string)
    requires text == "(1) 2"
    ensures Parse(text) == Err(ParserError(TrailingInput, Int(2)))
  {
    LexTrailingAfterGroup(text);
    ShapeTrailingAfterGroup();
    TokenizeLeads(LexState(text, 0), Print(Group(Lit(1))) + [Int(2)], [] + [Eof]);
    TrailingInputRejected(text, Group(Lit(1)), Int(2));
  }

  /** The offsets at which the lexer meets the tokens of "2 + * #", for
      `ParseLazyMissingOperand` (lox/parser.py:81-99). */
  lemma TraceLazyMissingOperand(text: string)
    requires text == "2 + * #"
    ensures Traced(text, [Int(2), Plus, Multiply], [Mark(0, 1), Mark(2, 3), Mark(4, 5)], 6)
  {
    var ts, marks := [Int(2), Plus, Multiply], [Mark(0, 1), Mark(2, 3), Mark(4, 5)];
    forall i | 0 <= i < |ts| ensures Local(text, ts, marks, i) {
      if i == 0 {
        assert text[0..1] == "2";
      } else if i == 1 {
      } else if i == 2 {
      }
    }
  }

  /** The tokens the lexer reads first from "2 + * #". */
  lemma LeadsLazyMissingOperand(text: string)
    requires text == "2 + * #"
    ensures Leads(LexState(text, 0), [Int(2), Plus, Multiply])
  {
    TraceLazyMissingOperand(text);
    LeadsTraced(text, [Int(2), Plus, Multiply], [Mark(0, 1), Mark(2, 3), Mark(4, 5)], 6, 0);
    assert [Int(2), Plus, Multiply][0..] == [Int(2), Plus, Multiply];
  }

  /** How the tokens the lexer reads first from "2 + * #" split for the general lemma. */
  lemma ShapeLazyMissingOperand()
    ensures PrintSlot(After(Lit(2), Plus, Start)) + [Multiply] == [Int(2), Plus, Multiply]
  {
    assert PrintSlot(After(Lit(2), Plus, Start)) == [Int(2), Plus];
  }

  /** The parser fails at the `*` before the lexer reaches the unknown `#`. */
  lemma ParseLazyMissingOperand(text: string)
    requires text == "2 + * #"
    ensures Parse(text) == Err(ParserError(ExpectedFactor, Multiply))
  {
    LeadsLazyMissingOperand(text);
    ShapeLazyMissingOperand();
    MissingOperand(text, After(Lit(2), Plus, Start), Multiply);
  }

  /** The driver lists every token before it parses, so it reports the unknown character
      of "2 + * #" instead. */
  lemma CompileLazyMissingOperand(text: string)
    requires text == "2 + * #"
    ensures Compile(text) == Err(LexerError(6))
  {
    TraceLazyMissingOperand(text);
    TokenizeTraced(text, [Int(2), Plus, Multiply], [Mark(0, 1), Mark(2, 3), Mark(4, 5)], 6, 0);
    TokenizeVerdict(LexState(text, 0));
  }

  /** The offsets at which the lexer meets the tokens of "(1) 2 #", for
      `ParseLazyTrailing` (lox/parser.py:142-155). */
  lemma TraceLazyTrailing(text: string)
    requires text == "(1) 2 #"
    ensures Traced(text, [LParen, Int(1), RParen, Int(2)], [Mark(0, 1), Mark(1, 2), Mark(2, 3), Mark(4, 5)], 6)
  {
    var ts, marks := [LParen, Int(1), RParen, Int(2)], [Mark(0, 1), Mark(1, 2), Mark(2, 3), Mark(4, 5)];
    forall i | 0 <= i < |ts| ensures Local(text, ts, marks, i) {
      if i == 0 {
      } else if i == 1 {
        assert text[1..2] == "1";
      } else if i == 2 {
      } else if i == 3 {
        assert text[4..5] == "2";
      }
    }
  }

  /** The tokens the lexer reads first from "(1) 2 #". */
  lemma LeadsLazyTrailing(text: string)
    requires text == "(1) 2 #"
    ensures Leads(LexState(text, 0), [LParen, Int(1), RParen, Int(2)])
  {
    TraceLazyTrailing(text);
    LeadsTraced(text, [LParen, Int(1), RParen, Int(2)], [Mark(0, 1), Mark(1, 2), Mark(2, 3), Mark(4, 5)], 6, 0);
    assert [LParen, Int(1), RParen, Int(2)][0..] == [LParen, Int(1), RParen, Int(2)];
  }

  /** How the tokens the lexer reads first from "(1) 2 #" split for the general lemma. */
  lemma ShapeLazyTrailing()
    ensures Print(Group(Lit(1))) + [Int(2)] == [LParen, Int(1), RParen, Int(2)]
  {
    assert Print(Lit(1)) == [Int(1)];
    assert Print(Group(Lit(1))) == [LParen, Int(1), RParen];
  }

  /** The parser rejects the `2` as trailing input before the lexer reaches the unknown
      `#`. */
  lemma ParseLazyTrailing(text: string)
    requires text == "(1) 2 #"
    ensures Parse(text) == Err(ParserError(TrailingInput, Int(2)))
  {
    LeadsLazyTrailing(text);
    ShapeLazyTrailing();
    TrailingInputRejected(text, Group(Lit(1)), Int(2));
  }

  /** The driver lists every token before it parses, so it reports the unknown character
      of "(1) 2 #" instead. */
  lemma CompileLazyTrailing(text: string)
    requires text == "(1) 2 #"
    ensures Compile(text) == Err(LexerError(6))
  {
    TraceLazyTrailing(text);
    TokenizeTraced(text, [LParen, Int(1), RParen, Int(2)], [Mark(0, 1), Mark(1, 2), Mark(2, 3), Mark(4, 5)], 6, 0);
    TokenizeVerdict(LexState(text, 0));
  }

  /** The driver stops at the first unknown character, before parsing starts. */
  lemma CompileInvalidCharacter(text: string)
    requires text == "10 + #"
    ensures Compile(text) == Err(LexerError(5))
  {
    LexInvalidCharacter(text);
    TokenizeVerdict(LexState(text, 0));
  }
}
