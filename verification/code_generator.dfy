/** The code generator of lox/code_generator.py: a post-order walk of the tree that
    appends stack-machine instructions to a buffer. */
module CodeGeneration {
  import opened Wrappers
  import opened Decimal
  import opened Tokens
  import opened Errors
  import opened Parsing

  /** The instructions `PUSH n`, `ADD`, `SUB`, `MUL`, `DIV`. */
  datatype Instr = Push(value: nat) | Add | Sub | Mul | Div

  /** The text the source emits for an instruction. */
  function Render(i: Instr): string {
    match i
    case Push(v) => "PUSH " + NatToString(v)
    case Add => "ADD"
    case Sub => "SUB"
    case Mul => "MUL"
    case Div => "DIV"
  }

  /** Reads one line of generated code back into an instruction. */
  function ReadInstr(s: string): Option<Instr> {
    if s == "ADD" then Some(Add)
    else if s == "SUB" then Some(Sub)
    else if s == "MUL" then Some(Mul)
    else if s == "DIV" then Some(Div)
    else if |s| > 5 && s[..5] == "PUSH " && AllDigits(s[5..]) then Some(Push(DecimalValue(s[5..])))
    else None
  }

  /** Every emitted line reads back as the instruction it was emitted for, so no two
      instructions are emitted as the same text. */
  lemma ReadRender(i: Instr)
    ensures ReadInstr(Render(i)) == Some(i)
  {
    if i.Push? {
      var s := Render(i);
      assert s[..5] == "PUSH " && s[5..] == NatToString(i.value);
      ValueOfNatToString(i.value);
    }
  }

  /** The lines `generate` returns for some code. */
  function Listing(code: seq<Instr>): (lines: seq<string>)
    ensures |lines| == |code|
    ensures forall k :: 0 <= k < |code| ==> lines[k] == Render(code[k])
  {
    if code == [] then [] else [Render(code[0])] + Listing(code[1..])
  }

  /** Reads a listing back line by line; fails on the first line that is not an
      instruction. */
  function ReadListing(lines: seq<string>): (r: Option<seq<Instr>>)
    ensures r.Some? ==> |r.value| == |lines|
    ensures r.Some? <==> forall k :: 0 <= k < |lines| ==> ReadInstr(lines[k]).Some?
  {
    if lines == [] then Some([])
    else match ReadInstr(lines[0])
      case None => None
      case Some(i) =>
        match ReadListing(lines[1..])
        case None => None
        case Some(rest) => Some([i] + rest)
  }

  /** A listing reads back as the code it lists. */
  lemma {:induction false} ReadListingOfListing(code: seq<Instr>)
    ensures ReadListing(Listing(code)) == Some(code)
    decreases |code|
  {
    if code != [] {
      ReadRender(code[0]);
      ReadListingOfListing(code[1..]);
      assert Listing(code)[1..] == Listing(code[1..]);
      assert [code[0]] + code[1..] == code;
    }
  }

  function NumCount(e: Ast): nat {
    match e
    case Num(_) => 1
    case BinOp(l, _, r) => NumCount(l) + NumCount(r)
  }

  function OpCount(e: Ast): nat {
    match e
    case Num(_) => 0
    case BinOp(l, _, r) => OpCount(l) + 1 + OpCount(r)
  }

  /** The instruction for an operator token: PLUS->ADD, NEG->SUB, MULTIPLY->MUL,
      DIVIDE->DIV, and none for any other token. */
  function OperatorInstr(op: Token): (r: Option<Instr>)
    ensures r.Some? <==> op.IsOperator()
    ensures r.Some? ==> !r.value.Push? && OperatorOf(r.value) == op
  {
    match op
    case Plus => Some(Add)
    case Neg => Some(Sub)
    case Multiply => Some(Mul)
    case Divide => Some(Div)
    case _ => None
  }

  /** The operator token an arithmetic instruction stands for. */
  function OperatorOf(i: Instr): Token
    requires !i.Push?
  {
    match i
    case Add => Plus
    case Sub => Neg
    case Mul => Multiply
    case Div => Divide
  }

  /** `_visit`: appends the code of `e` to `buf`, left operand first, then right
      operand, then the operator. An operator without an instruction fails. */
  function Visit(buf: seq<Instr>, e: Ast): (r: Outcome<seq<Instr>>)
    decreases e
    ensures r.Ok? <==> WellFormed(e)
    ensures r.Ok? ==> |r.value| == |buf| + NumCount(e) + OpCount(e)
    ensures r.Ok? ==> r.value[..|buf|] == buf
    ensures r.Err? ==> r.error.UnknownOperator? && !r.error.op.IsOperator()
  {
    match e
    case Num(v) => Ok(buf + [Push(v)])
    case BinOp(l, op, r) =>
      var afterLeft :- Visit(buf, l);
      var afterRight :- Visit(afterLeft, r);
      match OperatorInstr(op)
      case Some(i) =>
        assert (afterRight + [i])[..|buf|] == afterRight[..|buf|] by {
          assert afterLeft[..|buf|] == buf;
          assert afterRight[..|afterLeft|] == afterLeft;
        }
        Ok(afterRight + [i])
      case None => Err(UnknownOperator(op))
  }

  /** The code generator object; its only state is the instruction buffer. */
  datatype CodeGenerator = CodeGenerator(instructions: seq<Instr>)

  /** `generate`: clears the buffer, then visits the root. */
  function Generate(g: CodeGenerator, e: Ast): (r: Outcome<seq<Instr>>)
    ensures r.Ok? <==> WellFormed(e)
    ensures r.Ok? ==> |r.value| == NumCount(e) + OpCount(e)
    ensures r.Ok? ==> Exec(r.value, []) == Some([e])
    ensures e.Num? ==> r == Ok([Push(e.value)])
  {
    var r := Visit([], e);
    if r.Ok? then
      VisitDecompiles(e, [], []);
      assert r.value + [] == r.value;
      assert [] + [e] == [e];
      r
    else r
  }

  /** A symbolic stack machine: `PUSH v` pushes the tree `Num(v)`, and an arithmetic
      instruction pops the right and then the left operand and pushes the tree that
      combines them. Running generated code rebuilds the tree it came from. */
  function Exec(code: seq<Instr>, stack: seq<Ast>): Option<seq<Ast>>
    decreases |code|
  {
    if code == [] then Some(stack)
    else match code[0]
      case Push(v) => Exec(code[1..], stack + [Num(v)])
      case _ =>
        if |stack| < 2 then None
        else
          var n := |stack|;
          Exec(code[1..], stack[..n - 2] + [BinOp(stack[n - 2], OperatorOf(code[0]), stack[n - 1])])
  }

  /** Visiting into a non-empty buffer appends to it exactly the code that visiting
      into an empty buffer produces: the buffer carries nothing into the result. */
  lemma {:induction false} VisitFromBuffer(buf: seq<Instr>, e: Ast)
    requires WellFormed(e)
    ensures Visit(buf, e).Ok? && Visit([], e).Ok?
    ensures Visit(buf, e).value == buf + Visit([], e).value
    decreases e
  {
    match e
    case Num(v) =>
    case BinOp(l, op, r) =>
      VisitFromBuffer(buf, l);
      VisitFromBuffer([], l);
      var codeL := Visit([], l).value;
      VisitFromBuffer(buf + codeL, r);
      VisitFromBuffer(codeL, r);
      var codeR := Visit([], r).value;
      var i := OperatorInstr(op).value;
      Regroup(buf, codeL, codeR, [i]);
  }

  /** Concatenation regrouped, stated once for the proofs about the buffer. */
  lemma Regroup(a: seq<Instr>, b: seq<Instr>, c: seq<Instr>, d: seq<Instr>)
    ensures a + b + c + d == a + (b + c + d)
  {
  }

  /** The code of a binary node is the code of its left operand, then the code of its
      right operand, then the operator's instruction. */
  lemma GenerateBinOp(g: CodeGenerator, l: Ast, op: Token, r: Ast)
    requires WellFormed(BinOp(l, op, r))
    ensures Generate(g, BinOp(l, op, r)).Ok?
    ensures Generate(g, BinOp(l, op, r)).value
            == Generate(g, l).value + Generate(g, r).value + [OperatorInstr(op).value]
  {
    VisitFromBuffer(Visit([], l).value, r);
  }

  /** Running the code generated for a tree, followed by any code and on any stack,
      behaves as pushing exactly that one tree. */
  lemma {:induction false} VisitDecompiles(e: Ast, rest: seq<Instr>, stack: seq<Ast>)
    requires WellFormed(e)
    ensures Visit([], e).Ok?
    ensures Exec(Visit([], e).value + rest, stack) == Exec(rest, stack + [e])
  {
    match e
    case Num(v) =>
      assert Visit([], e).value + rest == [Push(v)] + rest;
      assert ([Push(v)] + rest)[1..] == rest;
    case BinOp(l, op, r) =>
      VisitFromBuffer(Visit([], l).value, r);
      var codeL := Visit([], l).value;
      var codeR := Visit([], r).value;
      var i := OperatorInstr(op).value;
      assert Visit([], e).value + rest == codeL + (codeR + ([i] + rest));
      VisitDecompiles(l, codeR + ([i] + rest), stack);
      VisitDecompiles(r, [i] + rest, stack + [l]);
      var s := stack + [l] + [r];
      assert s[..|s| - 2] == stack && s[|s| - 2] == l && s[|s| - 1] == r;
      assert ([i] + rest)[1..] == rest;
  }
}
