/** The lexer described by the offsets it passes through: where each token starts and
    ends, with only whitespace in between, and where reading stops. */
module Traces {
  import opened Wrappers
  import opened Tokens
  import opened Errors
  import opened Lexing
  import opened RoundTrip

  /** The offsets a token starts and ends at. */
  datatype Mark = Mark(start: nat, end: nat)

  /** Where the token before the `i`-th one ends: the start of the text for the first. */
  function Prev(marks: seq<Mark>, i: nat): nat
    requires i <= |marks|
  {
    if i == 0 then 0 else marks[i - 1].end
  }

  /** The `i`-th token follows a run of whitespace after the previous token and is
      spelled from its start mark to its end mark. */
  predicate Local(text: string, ts: seq<Token>, marks: seq<Mark>, i: nat)
    requires i < |ts| == |marks|
  {
    Prev(marks, i) <= marks[i].start < |text| && SpaceBetween(text, Prev(marks, i), marks[i].start)
    && !IsSpace(text[marks[i].start]) && ts[i] != Eof
    && Scans(text, marks[i].start, ts[i], marks[i].end)
  }

  /** `text` holds the tokens `ts` at the offsets `marks`; after the last one there is
      only whitespace up to `stop`, which is the end of the text or an unrecognised
      character. */
  predicate Traced(text: string, ts: seq<Token>, marks: seq<Mark>, stop: nat) {
    |ts| == |marks| && (forall i :: 0 <= i < |ts| ==> Local(text, ts, marks, i))
    && Prev(marks, |ts|) <= stop <= |text| && SpaceBetween(text, Prev(marks, |ts|), stop)
    && (stop == |text| || Unrecognised(text, stop))
  }

  /** The outcome the driver's token loop has on a traced text, from token `i` on. */
  function TracedOutcome(text: string, ts: seq<Token>, stop: nat, i: nat): Outcome<seq<Token>>
    requires i <= |ts|
  {
    if stop == |text| then Ok(ts[i..] + [Eof]) else Err(LexerError(stop))
  }

  /** From the end of each traced token on, the lexer reads the remaining traced tokens
      and then `Eof`, or fails at the unrecognised character where the trace stops. */
  lemma {:induction false} TokenizeTraced(text: string, ts: seq<Token>, marks: seq<Mark>, stop: nat, i: nat)
    requires Traced(text, ts, marks, stop) && i <= |ts|
    ensures Prev(marks, i) <= |text|
    ensures Tokenize(LexState(text, Prev(marks, i))) == TracedOutcome(text, ts, stop, i)
    decreases |ts| - i
  {
    if i == |ts| {
      TracedEnd(text, ts, marks, stop);
    } else {
      TokenizeTraced(text, ts, marks, stop, i + 1);
      TracedStep(text, ts, marks, stop, i);
    }
  }

  lemma TracedEnd(text: string, ts: seq<Token>, marks: seq<Mark>, stop: nat)
    requires Traced(text, ts, marks, stop)
    ensures Tokenize(LexState(text, Prev(marks, |ts|))) == TracedOutcome(text, ts, stop, |ts|)
  {
    var lx := LexState(text, Prev(marks, |ts|));
    SkipWhitespaceStopsAt(lx, stop);
    if stop == |text| {
      NextTokenComplete(lx, Eof, |text|);
      assert ts[|ts|..] + [Eof] == [Eof];
    } else {
      NextTokenFailsIff(lx);
    }
  }

  lemma TracedStep(text: string, ts: seq<Token>, marks: seq<Mark>, stop: nat, i: nat)
    requires Traced(text, ts, marks, stop) && i < |ts| && Prev(marks, i + 1) <= |text|
    requires Tokenize(LexState(text, Prev(marks, i + 1))) == TracedOutcome(text, ts, stop, i + 1)
    ensures Prev(marks, i) <= |text|
    ensures Tokenize(LexState(text, Prev(marks, i))) == TracedOutcome(text, ts, stop, i)
  {
    assert Local(text, ts, marks, i);
    assert ts[i..] + [Eof] == [ts[i]] + (ts[i + 1..] + [Eof]);
    var lx := LexState(text, Prev(marks, i));
    SkipWhitespaceStopsAt(lx, marks[i].start);
    TokenizeCons(lx, marks[i].start, ts[i], marks[i].end, TracedOutcome(text, ts, stop, i + 1));
  }

  /** From the end of each traced token on, the lexer reads the remaining traced tokens
      first, whether the text then ends or holds an unrecognised character. */
  lemma {:induction false} LeadsTraced(text: string, ts: seq<Token>, marks: seq<Mark>, stop: nat, i: nat)
    requires Traced(text, ts, marks, stop) && i <= |ts|
    ensures Prev(marks, i) <= |text|
    ensures Leads(LexState(text, Prev(marks, i)), ts[i..])
    decreases |ts| - i
  {
    if i == |ts| {
      assert ts[i..] == [];
    } else {
      LeadsTraced(text, ts, marks, stop, i + 1);
      LeadsStep(text, ts, marks, stop, i);
    }
  }

  lemma LeadsStep(text: string, ts: seq<Token>, marks: seq<Mark>, stop: nat, i: nat)
    requires Traced(text, ts, marks, stop) && i < |ts| && Prev(marks, i + 1) <= |text|
    requires Leads(LexState(text, Prev(marks, i + 1)), ts[i + 1..])
    ensures Prev(marks, i) <= |text|
    ensures Leads(LexState(text, Prev(marks, i)), ts[i..])
  {
    assert Local(text, ts, marks, i);
    assert ts[i..] == [ts[i]] + ts[i + 1..];
    var lx := LexState(text, Prev(marks, i));
    SkipWhitespaceStopsAt(lx, marks[i].start);
    NextTokenComplete(lx, ts[i], marks[i].end);
    LeadsCons(lx, ts[i], LexState(text, marks[i].end), ts[i + 1..]);
  }
}
