/** The lexer of lox/lexer.py: a cursor over the source text that hands out one
    token per call to `NextToken`. */
module Lexing {
  import opened Wrappers
  import opened Decimal
  import opened Tokens
  import opened Errors

  /** The lexer's state: the text and the cursor `pos`. The source also keeps
      `current_char`, which is always the character at `pos`, or `None` past the end;
      here it is computed by `CurrentChar`. */
  datatype LexState = LexState(text: string, pos: nat)

  type Lexer = lx: LexState | lx.pos <= |lx.text| witness LexState("", 0)

  /** ASCII whitespace as Python's `isspace` sees it: tab, newline, vertical tab,
      form feed, carriage return, the four separators 0x1C..0x1F, and space. */
  predicate IsSpace(c: char) {
    (9 <= c as int <= 13) || (28 <= c as int <= 32)
  }

  predicate SpaceBetween(text: string, i: nat, j: nat)
    requires i <= j <= |text|
  {
    forall m :: i <= m < j ==> IsSpace(text[m])
  }

  predicate DigitsBetween(text: string, i: nat, j: nat)
    requires i <= j <= |text|
  {
    forall m :: i <= m < j ==> IsDigit(text[m])
  }

  /** `Lexer(text)`: the cursor starts at 0, and reading `text[0]` fails on empty text. */
  function NewLexer(text: string): (r: Outcome<Lexer>)
    ensures r.Ok? <==> |text| > 0
    ensures r.Ok? ==> r.value.text == text && r.value.pos == 0
    ensures r.Err? ==> r.error == EmptyText
  {
    if |text| == 0 then Err(EmptyText) else Ok(LexState(text, 0))
  }

  function CurrentChar(lx: Lexer): Option<char> {
    if lx.pos < |lx.text| then Some(lx.text[lx.pos]) else None
  }

  /** `advance`: the cursor moves forward by exactly one character. The source only
      calls it while `current_char` is not `None`. */
  function Advance(lx: Lexer): (r: Lexer)
    requires lx.pos < |lx.text|
    ensures r.text == lx.text && r.pos == lx.pos + 1
  {
    LexState(lx.text, lx.pos + 1)
  }

  /** `skip_whitespace`: moves the cursor over the whole run of whitespace at it,
      and over nothing else. */
  function SkipWhitespace(lx: Lexer): (r: Lexer)
    decreases |lx.text| - lx.pos
    ensures r.text == lx.text && lx.pos <= r.pos
    ensures SpaceBetween(lx.text, lx.pos, r.pos)
    ensures r.pos == |r.text| || !IsSpace(r.text[r.pos])
  {
    match CurrentChar(lx)
    case Some(c) => if IsSpace(c) then SkipWhitespace(Advance(lx)) else lx
    case None => lx
  }

  /** The loop of `integer`: appends digits to `result` while the current character
      is a digit. It consumes exactly the maximal run of digits at the cursor. */
  function IntegerLoop(lx: Lexer, result: string): (r: (string, Lexer))
    decreases |lx.text| - lx.pos
    ensures r.1.text == lx.text && lx.pos <= r.1.pos
    ensures r.0 == result + lx.text[lx.pos..r.1.pos]
    ensures DigitsBetween(lx.text, lx.pos, r.1.pos)
    ensures r.1.pos == |lx.text| || !IsDigit(lx.text[r.1.pos])
  {
    match CurrentChar(lx)
    case Some(c) =>
      if IsDigit(c) then
        var r := IntegerLoop(Advance(lx), result + [c]);
        assert c == lx.text[lx.pos];
        assert lx.text[lx.pos..r.1.pos] == [c] + lx.text[lx.pos + 1..r.1.pos];
        assert r.0 == result + lx.text[lx.pos..r.1.pos];
        r
      else (result, lx)
    case None => (result, lx)
  }

  /** `integer`: reads the maximal run of digits at the cursor and returns its
      decimal value. The source only calls it when the current character is a digit. */
  function Integer(lx: Lexer): (r: (nat, Lexer))
    requires lx.pos < |lx.text| && IsDigit(lx.text[lx.pos])
    ensures r.1.text == lx.text && lx.pos < r.1.pos
    ensures DigitsBetween(lx.text, lx.pos, r.1.pos)
    ensures r.1.pos == |lx.text| || !IsDigit(lx.text[r.1.pos])
    ensures r.0 == DecimalValue(lx.text[lx.pos..r.1.pos])
  {
    var (digits, lx') := IntegerLoop(lx, "");
    assert digits == lx.text[lx.pos..lx'.pos];
    (DecimalValue(digits), lx')
  }

  /** `error`: the diagnostic names the cursor position as its column. */
  function Error(lx: Lexer): (e: CompilerError)
    ensures e.LexerError? && e.column == lx.pos
  {
    LexerError(lx.pos)
  }

  /** How the token `tok` is spelled at offset `k` of `text`, ending at offset `j`:
      end of input for `Eof`, the maximal run of digits (with its decimal value) for
      `Int`, and exactly one character for the other kinds. */
  predicate Scans(text: string, k: nat, tok: Token, j: nat) {
    k <= j <= |text| &&
    match tok
    case Eof => k == |text| && j == k
    case Int(v) =>
      k < j && DigitsBetween(text, k, j) && (j == |text| || !IsDigit(text[j]))
      && v == DecimalValue(text[k..j])
    case _ => j == k + 1 && text[k] == tok.SurfaceChar()
  }

  /** The character at `k` starts no token. */
  predicate Unrecognised(text: string, k: nat) {
    k < |text| && !IsSpace(text[k]) && !IsDigit(text[k]) && text[k] !in "+-*/()"
  }

  /** `get_next_token`: skips whitespace, then reads one token at the first
      non-whitespace character, or fails there. */
  function NextToken(lx: Lexer): (r: Outcome<(Token, Lexer)>)
    decreases |lx.text| - lx.pos
    ensures r.Ok? ==> r.value.1.text == lx.text && lx.pos <= r.value.1.pos
    ensures r.Ok? && r.value.0 != Eof ==> lx.pos < r.value.1.pos
    ensures r.Ok? ==> Scans(lx.text, SkipWhitespace(lx).pos, r.value.0, r.value.1.pos)
    ensures r.Err? ==> r.error == LexerError(SkipWhitespace(lx).pos)
                       && Unrecognised(lx.text, SkipWhitespace(lx).pos)
  {
    match CurrentChar(lx)
    case None => Ok((Eof, lx))
    case Some(c) =>
      if IsSpace(c) then NextToken(SkipWhitespace(lx))
      else if IsDigit(c) then
        var (v, lx') := Integer(lx);
        Ok((Int(v), lx'))
      else if c == '+' then Ok((Plus, Advance(lx)))
      else if c == '-' then Ok((Neg, Advance(lx)))
      else if c == '*' then Ok((Multiply, Advance(lx)))
      else if c == '/' then Ok((Divide, Advance(lx)))
      else if c == '(' then Ok((LParen, Advance(lx)))
      else if c == ')' then Ok((RParen, Advance(lx)))
      else Err(Error(lx))
  }

  /** The loop of the source's driver (lox/main.py) that asks for tokens until `EOF`:
      the tokens read, ending with the first `Eof`. */
  function Tokenize(lx: Lexer): (r: Outcome<seq<Token>>)
    decreases |lx.text| - lx.pos
    ensures r.Ok? ==> |r.value| > 0 && r.value[|r.value| - 1] == Eof
    ensures r.Ok? ==> forall i :: 0 <= i < |r.value| - 1 ==> r.value[i] != Eof
  {
    var (tok, lx') :- NextToken(lx);
    if tok == Eof then Ok([Eof])
    else
      var rest :- Tokenize(lx');
      Ok([tok] + rest)
  }

  /** A token's spelling at a given offset is unique: maximal munch leaves no choice. */
  lemma ScansUnique(text: string, k: nat, t1: Token, j1: nat, t2: Token, j2: nat)
    requires Scans(text, k, t1, j1) && Scans(text, k, t2, j2)
    ensures t1 == t2 && j1 == j2
  {
    if t1.Int? {
      assert k < |text| && IsDigit(text[k]);
      assert t2.Int?;
      var m1 := if j1 < j2 then j1 else k;
      assert IsDigit(text[m1]);
      var m2 := if j2 < j1 then j2 else k;
      assert IsDigit(text[m2]);
    }
  }

  /** Whitespace skipping stops exactly at the first non-whitespace offset. */
  lemma {:induction false} SkipWhitespaceStopsAt(lx: Lexer, k: nat)
    requires lx.pos <= k <= |lx.text| && SpaceBetween(lx.text, lx.pos, k)
    requires k == |lx.text| || !IsSpace(lx.text[k])
    ensures SkipWhitespace(lx).pos == k
    decreases k - lx.pos
  {
    if lx.pos < k {
      assert IsSpace(lx.text[lx.pos]);
      SkipWhitespaceStopsAt(Advance(lx), k);
    }
  }

  /** No token is spelled at an unrecognised character. */
  lemma ScansExcludesUnrecognised(text: string, k: nat, tok: Token, j: nat)
    requires Scans(text, k, tok, j)
    ensures !Unrecognised(text, k)
  {
    if tok.IsSymbol() {
      assert text[k] == tok.SurfaceChar();
      assert text[k] in "+-*/()";
    }
  }

  /** `NextToken` fails exactly when the first non-whitespace character starts no token,
      and then reports that character's offset. */
  lemma NextTokenFailsIff(lx: Lexer)
    ensures NextToken(lx).Err? <==> Unrecognised(lx.text, SkipWhitespace(lx).pos)
    ensures NextToken(lx).Err? ==> NextToken(lx).error == LexerError(SkipWhitespace(lx).pos)
  {
    if NextToken(lx).Ok? {
      var (t, lx') := NextToken(lx).value;
      ScansExcludesUnrecognised(lx.text, SkipWhitespace(lx).pos, t, lx'.pos);
    }
  }

  /** Completeness of `NextToken`: whatever token is spelled at the first
      non-whitespace offset is the token returned, with the cursor right after it. */
  lemma NextTokenComplete(lx: Lexer, tok: Token, j: nat)
    requires Scans(lx.text, SkipWhitespace(lx).pos, tok, j)
    ensures NextToken(lx) == Ok((tok, LexState(lx.text, j)))
  {
    var k := SkipWhitespace(lx).pos;
    ScansExcludesUnrecognised(lx.text, k, tok, j);
    NextTokenFailsIff(lx);
    var (t, lx') := NextToken(lx).value;
    ScansUnique(lx.text, k, t, lx'.pos, tok, j);
  }

  /** Each of the six symbol characters yields its own token and moves the cursor past
      exactly that one character; in particular '-' is always a `Neg` token of its own. */
  lemma SymbolToken(lx: Lexer, tok: Token)
    requires tok.IsSymbol()
    requires SkipWhitespace(lx).pos < |lx.text|
    requires lx.text[SkipWhitespace(lx).pos] == tok.SurfaceChar()
    ensures NextToken(lx).Ok? && NextToken(lx).value.0 == tok
    ensures NextToken(lx).Ok? && NextToken(lx).value.1.pos == SkipWhitespace(lx).pos + 1
  {
    var k := SkipWhitespace(lx).pos;
    SymbolScans(lx.text, k, tok);
    NextTokenComplete(lx, tok, k + 1);
  }

  lemma SymbolScans(text: string, k: nat, tok: Token)
    requires tok.IsSymbol() && k < |text| && text[k] == tok.SurfaceChar()
    ensures Scans(text, k, tok, k + 1)
  {
  }

  /** At the end of input `NextToken` returns `Eof` without moving, so every later call
      returns `Eof` again. */
  lemma EofRepeats(lx: Lexer, lx': Lexer)
    requires NextToken(lx) == Ok((Eof, lx'))
    ensures lx'.pos == |lx.text|
    ensures NextToken(lx') == Ok((Eof, lx'))
  {
    assert Scans(lx.text, SkipWhitespace(lx).pos, Eof, lx'.pos);
    assert CurrentChar(lx') == None;
  }

  /** No character between offsets `i` and `j` is unrecognised. */
  predicate Recognised(text: string, i: nat, j: nat) {
    forall m :: i <= m < j ==> !Unrecognised(text, m)
  }

  /** The characters a token is spelled with are all recognised. */
  lemma ScannedRecognised(text: string, k: nat, tok: Token, j: nat)
    requires Scans(text, k, tok, j)
    ensures Recognised(text, k, j)
  {
    if tok.IsSymbol() {
      assert text[k] in "+-*/()";
    }
  }

  /** One call of `get_next_token` passes over recognised characters only: up to the
      cursor it leaves behind, or up to the character it fails at. */
  lemma NextTokenRecognised(lx: Lexer)
    ensures NextToken(lx).Ok? ==> Recognised(lx.text, lx.pos, NextToken(lx).value.1.pos)
    ensures NextToken(lx).Err? ==> Recognised(lx.text, lx.pos, NextToken(lx).error.column)
  {
    var k := SkipWhitespace(lx).pos;
    assert Recognised(lx.text, lx.pos, k);
    if NextToken(lx).Ok? {
      ScannedRecognised(lx.text, k, NextToken(lx).value.0, NextToken(lx).value.1.pos);
    }
  }

  /** Tokenizing the rest of the text succeeds exactly when no character left in it is
      unrecognised; when it fails, it names the first unrecognised character. */
  lemma {:induction false} TokenizeVerdict(lx: Lexer)
    ensures Tokenize(lx).Ok? <==> Recognised(lx.text, lx.pos, |lx.text|)
    ensures Tokenize(lx).Err? ==> Tokenize(lx).error.LexerError?
    ensures Tokenize(lx).Err? ==> Unrecognised(lx.text, Tokenize(lx).error.column)
    ensures Tokenize(lx).Err? ==> Recognised(lx.text, lx.pos, Tokenize(lx).error.column)
    decreases |lx.text| - lx.pos
  {
    var k := SkipWhitespace(lx).pos;
    assert Recognised(lx.text, lx.pos, k);
    NextTokenFailsIff(lx);
    if NextToken(lx).Ok? {
      var (tok, lx') := NextToken(lx).value;
      ScannedRecognised(lx.text, k, tok, lx'.pos);
      if tok != Eof {
        TokenizeVerdict(lx');
        if Tokenize(lx').Err? {
          assert Unrecognised(lx.text, Tokenize(lx').error.column);
        } else {
          assert Recognised(lx.text, lx.pos, |lx.text|);
        }
      }
    } else {
      assert !Recognised(lx.text, lx.pos, |lx.text|) by {
        assert Unrecognised(lx.text, k);
      }
    }
  }
}
