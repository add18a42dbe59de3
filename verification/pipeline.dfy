/** The driver `run_compiler` of lox/main.py: it lists the tokens of the text, then
    parses the text afresh and generates code for the tree. A lexical error anywhere in
    the text stops it before parsing starts. */
module Pipeline {
  import opened Wrappers
  import opened Tokens
  import opened Errors
  import opened Lexing
  import opened Parsing
  import opened CodeGeneration
  import opened RoundTrip
  import opened ParserRoundTrip

  /** What the driver reports for a text it compiles: the token listing (ending with
      `Eof`), the tree, and the generated code. */
  datatype Compilation = Compilation(tokens: seq<Token>, tree: Ast, code: seq<Instr>)

  function Compile(text: string): (r: Outcome<Compilation>)
    ensures r.Ok? <==> text != [] && Recognised(text, 0, |text|) && Parse(text).Ok?
    ensures r.Ok? ==> Tokenize(LexState(text, 0)) == Ok(r.value.tokens)
    ensures r.Ok? ==> Parse(text) == Ok(r.value.tree)
    ensures r.Ok? ==> Exec(r.value.code, []) == Some([r.value.tree])
    ensures (r.Err? && r.error == EmptyText) <==> text == []
    ensures r.Err? && text != [] && !Recognised(text, 0, |text|) ==>
              r.error.LexerError? && Unrecognised(text, r.error.column)
              && Recognised(text, 0, r.error.column)
    ensures r.Err? && Recognised(text, 0, |text|) && text != [] ==>
              r.error.ParserError? && Parse(text) == Err(r.error)
  {
    var lx :- NewLexer(text);
    TokenizeVerdict(lx);
    var tokens :- Tokenize(lx);
    var tree :- Parse(text);
    var code := Generate(CodeGenerator([]), tree).value;
    Ok(Compilation(tokens, tree, code))
  }

  /** The text printed from any tree compiles: its tokens are the tree's tokens, the
      tree read back is the tree itself, and the code rebuilds it. */
  lemma CompileUnparse(e: Ast)
    requires WellFormed(e)
    ensures Compile(Unparse(e)).Ok?
    ensures Compile(Unparse(e)).value.tokens == Flat(e) + [Eof]
    ensures Compile(Unparse(e)).value.tree == e
    ensures Exec(Compile(Unparse(e)).value.code, []) == Some([e])
  {
    var text := Unparse(e);
    TokenizeSpell(LexState(text, 0), Flat(e));
    ParseUnparse(e);
    TokenizeVerdict(LexState(text, 0));
  }
}
