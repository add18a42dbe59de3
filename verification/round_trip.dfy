/** Printing trees and token sequences back to text, and the round trip through the
    lexer: text laid out from tokens, with any whitespace between them, is read back as
    those same tokens. */
module RoundTrip {
  import opened Wrappers
  import opened Decimal
  import opened Tokens
  import opened Errors
  import opened Lexing
  import opened Parsing

  predicate NoEof(ts: seq<Token>) {
    forall i :: 0 <= i < |ts| ==> ts[i] != Eof
  }

  lemma NoEofJoin(a: seq<Token>, b: seq<Token>)
    requires NoEof(a) && NoEof(b)
    ensures NoEof(a + b)
  {
    assert forall i :: 0 <= i < |a + b| ==> (a + b)[i] == if i < |a| then a[i] else b[i - |a|];
  }

  /** The characters a token is read from. */
  function Lexeme(t: Token): (s: string)
    requires t != Eof
    ensures |s| > 0 && !IsSpace(s[0])
  {
    if t.Int? then NatToString(t.value) else [t.SurfaceChar()]
  }

  /** A token sequence as text: each token preceded by one space. */
  function Spell(ts: seq<Token>): string
    requires NoEof(ts)
  {
    if ts == [] then "" else " " + Lexeme(ts[0]) + Spell(ts[1..])
  }

  /** Precedence level of a tree's root: 1 for `+`/`-`, 2 for `*`/`/`, 3 for a number. */
  function Level(e: Ast): nat {
    match e
    case Num(_) => 3
    case BinOp(_, op, _) => if op.IsAdditive() then 1 else 2
  }

  /** The tokens of a tree with the fewest parentheses: a left operand is bracketed
      when it binds more loosely than its parent, a right operand also when it binds
      equally loosely, since both operator levels group to the left. */
  function Flat(e: Ast): (ts: seq<Token>)
    requires WellFormed(e)
    decreases e, 0
    ensures |ts| > 0 && NoEof(ts)
  {
    match e
    case Num(v) => [Int(v)]
    case BinOp(l, op, r) =>
      if op.IsAdditive() then FlatAt(l, 1) + ([op] + FlatAt(r, 2))
      else FlatAt(l, 2) + ([op] + FlatAt(r, 3))
  }

  function FlatAt(e: Ast, level: nat): (ts: seq<Token>)
    requires WellFormed(e)
    decreases e, 1
    ensures |ts| > 0 && NoEof(ts)
  {
    if Level(e) >= level then Flat(e) else [LParen] + Flat(e) + [RParen]
  }

  function Unparse(e: Ast): string
    requires WellFormed(e)
  {
    Spell(Flat(e))
  }

  /** A string of whitespace only. */
  predicate Blank(s: string) {
    forall m :: 0 <= m < |s| ==> IsSpace(s[m])
  }

  /** Tokens laid out as text: `gaps[i]` is the whitespace in front of token `i`, and
      the last gap trails the last token. */
  function Layout(gaps: seq<string>, ts: seq<Token>): string
    requires NoEof(ts) && |gaps| == |ts| + 1
    decreases |ts|
  {
    if ts == [] then gaps[0] else gaps[0] + Lexeme(ts[0]) + Layout(gaps[1..], ts[1..])
  }

  /** Every gap is whitespace, and two numbers in a row have some between them (else
      the lexer would read them as one number). */
  predicate Separated(gaps: seq<string>, ts: seq<Token>)
    requires |gaps| == |ts| + 1
  {
    (forall i :: 0 <= i < |gaps| ==> Blank(gaps[i])) &&
    (forall i :: 0 < i < |ts| && ts[i - 1].Int? && ts[i].Int? ==> gaps[i] != [])
  }

  /** The gaps of `Spell`: one space before each of `n` tokens, nothing after them. */
  function SingleSpaces(n: nat): (gaps: seq<string>)
    ensures |gaps| == n + 1
  {
    seq(n, _ => " ") + [""]
  }

  lemma {:induction false} SpellLayout(ts: seq<Token>)
    requires NoEof(ts)
    ensures Spell(ts) == Layout(SingleSpaces(|ts|), ts)
    ensures Separated(SingleSpaces(|ts|), ts)
    decreases |ts|
  {
    var gaps := SingleSpaces(|ts|);
    if ts != [] {
      SpellLayout(ts[1..]);
      assert gaps[1..] == SingleSpaces(|ts| - 1);
    }
  }

  /** Laid-out text followed by `rest` begins with a digit only when its first token is a
      number with no whitespace in front of it. */
  lemma {:induction false} LayoutHead(gaps: seq<string>, ts: seq<Token>, rest: string)
    requires NoEof(ts) && |gaps| == |ts| + 1 && Separated(gaps, ts)
    requires rest == [] || Unrecognised(rest, 0)
    ensures |Layout(gaps, ts) + rest| > 0 && IsDigit((Layout(gaps, ts) + rest)[0])
            ==> gaps[0] == [] && ts != [] && ts[0].Int?
  {
    var s := Layout(gaps, ts) + rest;
    if |s| > 0 && gaps[0] == [] && ts != [] {
      assert s[0] == Lexeme(ts[0])[0];
    } else if |s| > 0 && gaps[0] != [] {
      assert s[0] == gaps[0][0];
    }
  }

  /** The whitespace in front of the first token (or of `rest`) is skipped. */
  lemma {:induction false} SkipGap(lx: Lexer, gap: string, tail: string)
    requires Blank(gap) && lx.text[lx.pos..] == gap + tail
    requires tail == [] || !IsSpace(tail[0])
    ensures SkipWhitespace(lx).pos == lx.pos + |gap|
  {
    var k := lx.pos + |gap|;
    assert SpaceBetween(lx.text, lx.pos, k) by {
      forall m | lx.pos <= m < k ensures IsSpace(lx.text[m]) {
        assert lx.text[m] == (gap + tail)[m - lx.pos] == gap[m - lx.pos];
      }
    }
    assert k < |lx.text| ==> lx.text[k] == tail[0];
    SkipWhitespaceStopsAt(lx, k);
  }

  /** Once the tokens of laid-out text are used up, `NextToken` returns `Eof` at the end
      of the text, or fails at `rest`. */
  lemma {:induction false} LexLayoutEnd(lx: Lexer, gap: string, rest: string)
    requires Blank(gap) && (rest == [] || Unrecognised(rest, 0))
    requires lx.text[lx.pos..] == gap + rest
    ensures rest == [] ==> NextToken(lx) == Ok((Eof, LexState(lx.text, |lx.text|)))
    ensures rest != [] ==> NextToken(lx) == Err(LexerError(|lx.text| - |rest|))
  {
    SkipGap(lx, gap, rest);
    if rest == [] {
      NextTokenComplete(lx, Eof, |lx.text|);
    } else {
      assert lx.text[lx.pos + |gap|] == rest[0];
      NextTokenFailsIff(lx);
    }
  }

  /** A lexeme followed by text that does not extend a number scans as its token. */
  lemma {:induction false} LexemeScans(text: string, k: nat, t: Token, after: string)
    requires t != Eof && k <= |text| && text[k..] == Lexeme(t) + after
    requires t.Int? ==> after == [] || !IsDigit(after[0])
    ensures Scans(text, k, t, k + |Lexeme(t)|)
  {
    var lexeme := Lexeme(t);
    var j := k + |lexeme|;
    assert text[k..j] == lexeme;
    if t.Int? {
      ValueOfNatToString(t.value);
      assert DigitsBetween(text, k, j) by {
        forall m | k <= m < j ensures IsDigit(text[m]) {
          assert text[m] == lexeme[m - k];
        }
      }
      assert j < |text| ==> text[j] == after[0];
    } else {
      assert text[k] == lexeme[0];
    }
  }

  lemma {:induction false} SeparatedTail(gaps: seq<string>, ts: seq<Token>)
    requires |gaps| == |ts| + 1 && Separated(gaps, ts) && ts != []
    ensures Separated(gaps[1..], ts[1..])
  {
    forall i | 0 < i < |ts| - 1 && ts[1..][i - 1].Int? && ts[1..][i].Int?
      ensures gaps[1..][i] != []
    {
      assert ts[i].Int? && ts[i + 1].Int?;
    }
  }

  lemma {:induction false} LayoutCons(gaps: seq<string>, ts: seq<Token>, rest: string)
    requires NoEof(ts) && |gaps| == |ts| + 1 && ts != []
    ensures Layout(gaps, ts) + rest
            == gaps[0] + (Lexeme(ts[0]) + (Layout(gaps[1..], ts[1..]) + rest))
  {
  }

  /** The lexer stands in front of laid-out text followed by `rest`, which is empty or
      starts with a character no token starts with. */
  predicate LaidOut(lx: Lexer, gaps: seq<string>, ts: seq<Token>, rest: string) {
    NoEof(ts) && |gaps| == |ts| + 1 && Separated(gaps, ts) &&
    (rest == [] || Unrecognised(rest, 0)) &&
    lx.text[lx.pos..] == Layout(gaps, ts) + rest
  }

  /** Reading laid-out text that is followed by `rest`, which is empty or starts with a
      character no token starts with: the whitespace in front of the first token is
      skipped, the token scans, and the remaining layout follows it. */
  lemma {:induction false} LexLayoutStep(lx: Lexer, gaps: seq<string>, ts: seq<Token>, rest: string, k: nat, j: nat)
    requires LaidOut(lx, gaps, ts, rest) && ts != []
    requires k == lx.pos + |gaps[0]| && j == k + |Lexeme(ts[0])|
    ensures SkipWhitespace(lx).pos == k && Scans(lx.text, k, ts[0], j)
    ensures j <= |lx.text| && lx.text[j..] == Layout(gaps[1..], ts[1..]) + rest
  {
    LayoutCons(gaps, ts, rest);
    LayoutSkip(lx, gaps, ts, rest, k, j);
    LayoutScan(lx, gaps, ts, rest, k, j);
  }

  lemma {:induction false} LayoutSkip(lx: Lexer, gaps: seq<string>, ts: seq<Token>, rest: string, k: nat, j: nat)
    requires LaidOut(lx, gaps, ts, rest) && ts != []
    requires k == lx.pos + |gaps[0]| && j == k + |Lexeme(ts[0])|
    ensures SkipWhitespace(lx).pos == k
  {
    LayoutCons(gaps, ts, rest);
    assert Blank(gaps[0]);
    SkipGap(lx, gaps[0], Lexeme(ts[0]) + (Layout(gaps[1..], ts[1..]) + rest));
  }

  lemma {:induction false} LayoutScan(lx: Lexer, gaps: seq<string>, ts: seq<Token>, rest: string, k: nat, j: nat)
    requires LaidOut(lx, gaps, ts, rest) && ts != []
    requires k == lx.pos + |gaps[0]| && j == k + |Lexeme(ts[0])|
    ensures Scans(lx.text, k, ts[0], j)
  {
    var after := Layout(gaps[1..], ts[1..]) + rest;
    LayoutCons(gaps, ts, rest);
    SeparatedTail(gaps, ts);
    LayoutHead(gaps[1..], ts[1..], rest);
    assert lx.text[k..] == Lexeme(ts[0]) + after;
    LexemeScans(lx.text, k, ts[0], after);
  }

  /** `Tokenize` on a lexer whose next token is `tok`, not `Eof`, ending at `j`: `tok`,
      then the tokens of the rest, or the error the rest fails with. */
  lemma {:induction false} TokenizeCons(lx: Lexer, k: nat, tok: Token, j: nat, more: Outcome<seq<Token>>)
    requires SkipWhitespace(lx).pos == k && Scans(lx.text, k, tok, j) && tok != Eof
    requires j <= |lx.text| && Tokenize(LexState(lx.text, j)) == more
    ensures Tokenize(lx) == if more.Ok? then Ok([tok] + more.value) else more
  {
    NextTokenComplete(lx, tok, j);
  }

  lemma {:induction false} LaidOutTail(lx: Lexer, gaps: seq<string>, ts: seq<Token>, rest: string, j: nat)
    requires LaidOut(lx, gaps, ts, rest) && ts != []
    requires j <= |lx.text| && lx.text[j..] == Layout(gaps[1..], ts[1..]) + rest
    ensures LaidOut(LexState(lx.text, j), gaps[1..], ts[1..], rest)
  {
    SeparatedTail(gaps, ts);
  }

  /** `Tokenize` stops at the first failure or at the first `Eof`. */
  lemma {:induction false} TokenizeStops(lx: Lexer)
    ensures NextToken(lx).Err? ==> Tokenize(lx) == Err(NextToken(lx).error)
    ensures NextToken(lx).Ok? && NextToken(lx).value.0 == Eof ==> Tokenize(lx) == Ok([Eof])
  {
  }

  /** Lexer round trip: tokenizing laid-out text gives its tokens back, followed by
      `Eof`; when an unrecognised character follows, tokenizing fails there. */
  lemma {:induction false} TokenizeLayout(lx: Lexer, gaps: seq<string>, ts: seq<Token>, rest: string)
    requires LaidOut(lx, gaps, ts, rest)
    ensures rest == [] ==> Tokenize(lx) == Ok(ts + [Eof])
    ensures rest != [] ==> Tokenize(lx) == Err(LexerError(|lx.text| - |rest|))
    decreases |ts|, 1
  {
    if ts != [] {
      var j := LaidOutNext(lx, gaps, ts, rest);
      TokenizeStep(lx, ts[0], LexState(lx.text, j));
      TokenizeLayoutNext(lx, ts, rest, gaps[1..], j);
    } else {
      TokenizeLayoutEnd(lx, gaps, ts, rest);
    }
  }

  /** The step of `TokenizeLayout` past the first token, which ends at `j`. */
  lemma {:induction false} TokenizeLayoutNext(lx: Lexer, ts: seq<Token>, rest: string, gaps: seq<string>, j: nat)
    requires ts != [] && j <= |lx.text| && |rest| <= |lx.text|
    requires Tokenize(lx) == match Tokenize(LexState(lx.text, j)) case Ok(more) => Ok([ts[0]] + more) case Err(e) => Err(e)
    requires LaidOut(LexState(lx.text, j), gaps, ts[1..], rest)
    ensures rest == [] ==> Tokenize(lx) == Ok(ts + [Eof])
    ensures rest != [] ==> Tokenize(lx) == Err(LexerError(|lx.text| - |rest|))
    decreases |ts|, 0
  {
    TokenizeLayout(LexState(lx.text, j), gaps, ts[1..], rest);
    ConsEof(ts);
  }

  /** The first token of laid-out text is the lexer's next token, and the rest of the
      layout follows it. */
  lemma {:induction false} LaidOutNext(lx: Lexer, gaps: seq<string>, ts: seq<Token>, rest: string) returns (j: nat)
    requires LaidOut(lx, gaps, ts, rest) && ts != []
    ensures j <= |lx.text| && NextToken(lx) == Ok((ts[0], LexState(lx.text, j))) && ts[0] != Eof
    ensures LaidOut(LexState(lx.text, j), gaps[1..], ts[1..], rest) && |rest| <= |lx.text|
  {
    var k := lx.pos + |gaps[0]|;
    j := k + |Lexeme(ts[0])|;
    LexLayoutStep(lx, gaps, ts, rest, k, j);
    NextTokenComplete(lx, ts[0], j);
    LaidOutTail(lx, gaps, ts, rest, j);
  }

  /** One step of `Tokenize` past a token other than `Eof`. */
  lemma {:induction false} TokenizeStep(lx: Lexer, tok: Token, next: Lexer)
    requires NextToken(lx) == Ok((tok, next)) && tok != Eof
    ensures Tokenize(lx) == match Tokenize(next) case Ok(more) => Ok([tok] + more) case Err(e) => Err(e)
  {
  }

  lemma ConsEof(ts: seq<Token>)
    requires ts != []
    ensures [ts[0]] + (ts[1..] + [Eof]) == ts + [Eof]
  {
  }

  lemma {:induction false} TokenizeLayoutEnd(lx: Lexer, gaps: seq<string>, ts: seq<Token>, rest: string)
    requires LaidOut(lx, gaps, ts, rest) && ts == []
    ensures rest == [] ==> Tokenize(lx) == Ok(ts + [Eof])
    ensures rest != [] ==> Tokenize(lx) == Err(LexerError(|lx.text| - |rest|))
  {
    assert Blank(gaps[0]);
    LexLayoutEnd(lx, gaps[0], rest);
    TokenizeStops(lx);
    assert ts + [Eof] == [Eof];
  }

  /** Lexer round trip for spelled tokens: tokenizing gives the sequence back, followed
      by `Eof`. */
  lemma {:induction false} TokenizeSpell(lx: Lexer, ts: seq<Token>)
    requires NoEof(ts) && lx.text[lx.pos..] == Spell(ts)
    ensures Tokenize(lx) == Ok(ts + [Eof])
  {
    SpellLayout(ts);
    assert Spell(ts) + "" == Spell(ts);
    TokenizeLayout(lx, SingleSpaces(|ts|), ts, "");
  }

  /** The lexer, started at `lx`, reads the tokens `ts` first, whatever the text holds
      after them. The parser pulls tokens one at a time, so this is all it sees of a
      text before it acts on the last of them. */
  predicate Leads(lx: Lexer, ts: seq<Token>)
    decreases |ts|
  {
    ts == [] || (NextToken(lx).Ok? && NextToken(lx).value.0 == ts[0] && Leads(NextToken(lx).value.1, ts[1..]))
  }

  /** Tokens the driver's loop lists are tokens the lexer reads first. */
  lemma {:induction false} TokenizeLeads(lx: Lexer, ts: seq<Token>, rest: seq<Token>)
    requires Tokenize(lx) == Ok(ts + rest)
    ensures Leads(lx, ts)
    decreases |ts|
  {
    if ts != [] {
      var next := NextToken(lx).value.1;
      assert (ts + rest)[0] == ts[0];
      if NextToken(lx).value.0 == Eof {
        assert |ts + rest| == 1;
        assert ts[1..] == [];
      } else {
        assert (ts + rest)[1..] == ts[1..] + rest;
        TokenizeLeads(next, ts[1..], rest);
      }
    }
  }

  /** Reading one more token in front of tokens read first. */
  lemma {:induction false} LeadsCons(lx: Lexer, tok: Token, next: Lexer, ts: seq<Token>)
    requires NextToken(lx) == Ok((tok, next)) && Leads(next, ts)
    ensures Leads(lx, [tok] + ts)
  {
    assert ([tok] + ts)[0] == tok && ([tok] + ts)[1..] == ts;
  }

  /** A text whose first token is not `EOF` is not empty. */
  lemma LeadsNonEmpty(text: string, ts: seq<Token>)
    requires |ts| > 0 && ts[0] != Eof && Leads(LexState(text, 0), ts)
    ensures text != []
  {
    assert NextToken(LexState(text, 0)).Ok?;
  }
}
