# A verified model of the `lox` arithmetic-expression compiler

The `lox` package compiles integer arithmetic such as `(10 + 2) * (5 - 1) / 3` into
instructions for a stack machine. It works in three stages:

- a cursor-driven lexer (`lox/lexer.py`) that skips whitespace, reads maximal runs of
  digits as `INTEGER` tokens, maps `+ - * / ( )` to one token each and fails on any
  other character;
- a recursive-descent parser (`lox/parser.py`) with one token of lookahead for
  `expr := term ((PLUS|NEG) term)*`, `term := factor ((MULTIPLY|DIVIDE) factor)*` and
  `factor := INTEGER | '(' expr ')'`, folding both levels to the left and requiring
  `EOF` at the end;
- a code generator (`lox/code_generator.py`) that walks the tree in post-order and
  emits `PUSH n`, `ADD`, `SUB`, `MUL` and `DIV`.

The driver `run_compiler` in `lox/main.py` lists the tokens, parses and generates
code.

The Dafny modules follow that structure:

| file | module | contents |
|---|---|---|
| `wrappers.dfy` | `Wrappers` | `Option`, `Result` with `:-` propagation |
| `decimal.dfy` | `Decimal` | ASCII digits, `int(s)` and `str(n)` |
| `tokens.dfy` | `Tokens` | `TokenType`, `Token` |
| `errors.dfy` | `Errors` | the diagnostics as a datatype |
| `lexer.dfy` | `Lexing` | the lexer: `Advance`, `SkipWhitespace`, `Integer`, `NextToken`, the driver's token loop `Tokenize` |
| `parser.dfy` | `Parsing` | the AST, `Eat`, `Factor`, `Term`, `Expr`, `Parse` |
| `code_generator.dfy` | `CodeGeneration` | instructions, `Visit`, `Generate`, the printed listing, and a symbolic stack machine |
| `round_trip.dfy` | `RoundTrip` | printing tokens and trees as text; the lexer round trip |
| `parse_round_trip.dfy` | `ParserRoundTrip` | syntax trees with their parentheses; the parser round trip in both directions; each way the parser fails |
| `traces.dfy` | `Traces` | the lexer's behaviour on a text described by the offsets of its tokens |
| `pipeline.dfy` | `Pipeline` | `run_compiler` as a function `Compile` |
| `examples.dfy` | `Examples` | the repository's test inputs and usage examples, proved of the model |

Exceptions become values: every stage returns `Result<T, CompilerError>`. The lexer
and parser are pure functions of their state. The lexer's state is the text plus the
cursor. The parser's state is the lexer plus the lookahead token. The parser pulls
tokens from the lexer lazily, as the source does, so a syntax error that comes before
an unknown character is the error reported. `Leads(lx, ts)` says that the lexer, from
`lx`, reads the tokens `ts` first, whatever the text holds after them. The parser's
error lemmas ask only that of the text, up to the token the parser fails on. The code generator's partner is a
symbolic stack machine `Exec`. `PUSH v` pushes the tree `Num(v)` on it. An operator
pops two trees and pushes the node that joins them. Running generated code rebuilds
the tree, so the code is correct and in post-order. The parser's partner is
`Unparse`, which prints a tree with the fewest parentheses. Parsing that text gives
the tree back.

To speak of every way of writing an expression, `ParserRoundTrip` keeps the
parentheses: a `Syntax` is a number, an infix node or a parenthesised group. It is
`Readable` when its parentheses are enough to keep its grouping under the parser's
precedence and left folding, and `Strip` maps it to the `Ast` it stands for. The
parser accepts a text exactly when its tokens print some readable `Syntax`, and the
tree returned is that `Syntax` stripped. A `Slot` describes a place where an operand
may begin: the start, inside an open parenthesis, or after a complete operand and an
operator, nested to any depth. Each parser failure is stated at an arbitrary slot.

## Model

| member | source | states |
|---|---|---|
| `Decimal.NatToString` | lox/code_generator.py:85 | `str(n)` of a natural number is a non-empty string of ASCII digits without a leading zero |
| `Decimal.ValueOfNatToString` | lox/lexer.py:77 | `int(str(n)) == n`: reading back the printed value of a `PUSH` gives the number |
| `Lexing.NewLexer` | lox/lexer.py:40-48 | the lexer starts at position 0; on empty text the constructor fails (the source raises `IndexError` reading `text[0]`) |
| `Lexing.Error` | lox/lexer.py:50-52 | a lexical error reports the cursor position as its column |
| `Lexing.Advance` | lox/lexer.py:54-60 | the cursor moves forward by exactly one and the text is unchanged |
| `Lexing.SkipWhitespace` | lox/lexer.py:62-65 | the cursor only moves forward, over whitespace only, and stops at the end or at a non-whitespace character |
| `Lexing.IntegerLoop` | lox/lexer.py:73-76 | the loop appends exactly the characters it passes, all digits, and stops at the end or at a non-digit |
| `Lexing.Integer` | lox/lexer.py:67-77 | `integer` reads a non-empty maximal run of digits and returns its decimal value |
| `Lexing.NextToken` | lox/lexer.py:79-125 | the token returned is spelled at the first non-whitespace offset and ends at the new cursor; the cursor never moves back and strictly advances for every token but `EOF`; an unknown character fails with its own offset as column |
| `Lexing.Tokenize` | lox/main.py:30-35 | the tokens the driver reads and prints end with `EOF`, with no `EOF` before that |
| `Lexing.ScansUnique` | lox/lexer.py:96-121 | maximal munch leaves one choice: at a given offset at most one token with one end is spelled |
| `Lexing.SkipWhitespaceStopsAt` | lox/lexer.py:62-65 | whitespace skipping stops exactly at the first non-whitespace offset |
| `Lexing.ScansExcludesUnrecognised` | lox/lexer.py:96-123 | no token starts at a character the lexer rejects |
| `Lexing.NextTokenFailsIff` | lox/lexer.py:91-123 | `get_next_token` fails exactly when the first non-whitespace character is none of digit, `+ - * / ( )`, and then reports that offset |
| `Lexing.NextTokenComplete` | lox/lexer.py:91-121 | whatever token is spelled at the first non-whitespace offset is the token returned, and the cursor ends after it |
| `Lexing.SymbolToken` | lox/lexer.py:99-121 | each of `+ - * / ( )` yields its own token and advances the cursor by exactly one; `-` is always a separate `NEG` token |
| `Lexing.EofRepeats` | lox/lexer.py:91-125 | at the end of input `EOF` is returned without moving, so every later call returns `EOF` again |
| `Lexing.NextTokenRecognised` | lox/lexer.py:91-125 | one `get_next_token` call passes over recognised characters only, up to where it leaves the cursor or up to the character it fails at |
| `Lexing.TokenizeVerdict` | lox/main.py:29-35 | listing the tokens succeeds exactly when every remaining character is recognised; otherwise it fails at an unknown character with only recognised characters before it |
| `Parsing.NewParser` | lox/parser.py:46-54 | the parser's first lookahead is the lexer's first token; a lexical error there is the lexer's own error, unchanged, at the first unknown character |
| `Parsing.Eat` | lox/parser.py:67-79 | `eat(t)` advances exactly when the lookahead has kind `t`, reading the next token; otherwise it fails naming `t` and the token found; when the lexer fails, its error passes through unchanged; it reads recognised characters only; eating shrinks the termination measure |
| `Parsing.Factor` | lox/parser.py:81-99 | `factor` fails with "expected a number or `(`" exactly when the lookahead is neither; results are well-formed trees; the lexer only passes recognised characters, so a lexical error is at the first unknown character after the lexer's starting cursor |
| `Parsing.TermLoop` | lox/parser.py:111-118 | the `term` loop ends at a lookahead that is not `*` or `/` |
| `Parsing.Term` | lox/parser.py:101-119 | `term` consumes input, returns a well-formed tree and stops at a lookahead other than `*` or `/` |
| `Parsing.ExprLoop` | lox/parser.py:132-139 | the `expr` loop ends at a lookahead that is not `+` or `-` |
| `Parsing.Expr` | lox/parser.py:121-140 | `expr` consumes input, returns a well-formed tree, and stops at a lookahead that is no operator |
| `Parsing.ParseTokens` | lox/parser.py:142-155 | `parse` succeeds only when `expr` succeeds and is followed by `EOF`; every operator in the tree is one of the four |
| `Parsing.Parse` | lox/main.py:38-43 | parsing fresh text gives a well-formed tree or a genuine error; a lexical error names an unknown character with only recognised characters before it, that is the first unknown character of the text; the empty text is the only one that fails in the constructor |
| `CodeGeneration.ReadRender` | lox/code_generator.py:67-85 | each emitted line reads back as the instruction it was emitted for, so the listing is unambiguous |
| `CodeGeneration.Listing` | lox/code_generator.py:67-85 | line `k` of the listing is the text of instruction `k` |
| `CodeGeneration.ReadListingOfListing` | lox/code_generator.py:13-24 | the list of strings `generate` returns reads back as the instruction sequence |
| `CodeGeneration.OperatorInstr` | lox/code_generator.py:67-77 | PLUS→ADD, NEG→SUB, MULTIPLY→MUL, DIVIDE→DIV, and no instruction exactly for the other tokens |
| `CodeGeneration.Visit` | lox/code_generator.py:26-85 | visiting succeeds exactly on well-formed trees, keeps the buffer as a prefix, and appends one instruction per `Num` and per `BinOp`; otherwise it fails naming the operator |
| `CodeGeneration.Generate` | lox/code_generator.py:13-24 | whatever the prior buffer: the code has one instruction per node, `Num(v)` gives exactly `[PUSH v]`, and running the code on an empty stack leaves exactly the tree |
| `CodeGeneration.VisitFromBuffer` | lox/code_generator.py:22-24 | visiting into a non-empty buffer appends the same code as into an empty one, so clearing the buffer is what keeps calls independent |
| `CodeGeneration.GenerateBinOp` | lox/code_generator.py:63-74 | the code of `BinOp(l, op, r)` is the code of `l`, then of `r`, then the operator's instruction |
| `CodeGeneration.VisitDecompiles` | lox/code_generator.py:52-85 | running a tree's code, then any code, on any stack is a net push of exactly that tree |
| `RoundTrip.TokenizeLayout` | lox/lexer.py:79-125 | tokens laid out with any whitespace between them (some between two numbers) are read back, then `EOF`; trailing unknown text fails at its first character |
| `RoundTrip.TokenizeSpell` | lox/lexer.py:79-125 | tokens printed with single spaces are read back, then `EOF` |
| `ParserRoundTrip.FactorReads` | lox/parser.py:89-97 | `factor` reads the tokens of a number, or of a readable tree in any number of parentheses, back as the tree it stands for |
| `ParserRoundTrip.GroupReads` | lox/parser.py:93-97 | `factor` on `(`, the tokens of any readable tree and `)` returns the tree inside, having consumed exactly the closing `)` |
| `ParserRoundTrip.TermReads` | lox/parser.py:109-119 | after the tokens of a readable tree of term level, `term` is in its loop holding exactly the tree it stands for |
| `ParserRoundTrip.ExprReads` | lox/parser.py:130-140 | after the tokens of any readable tree, `expr` is in its loop holding exactly that tree: both levels fold to the left, `*` and `/` bind tighter, and parentheses leave no node |
| `ParserRoundTrip.ParseSyntax` | lox/parser.py:142-155 | text whose tokens print a readable tree, with any parentheses that keep its grouping, parses to the tree it stands for |
| `ParserRoundTrip.ParsedSyntax` | lox/parser.py:81-155 | conversely, every text the parser accepts prints a readable tree that stands for the result, so precedence, left folding and parentheses are the only ways the parser groups |
| `ParserRoundTrip.ParseAccepts` | lox/parser.py:81-155 | `parse` returns `e` exactly when the text's tokens print a readable tree that stands for `e` |
| `ParserRoundTrip.ParseTokenized` | lox/parser.py:101-155 | text whose tokens print a tree with the fewest parentheses parses to that tree |
| `ParserRoundTrip.ParseUnparse` | lox/parser.py:81-155 | printing a tree and parsing the text gives the tree back |
| `ParserRoundTrip.ParenTransparent` | lox/parser.py:93-97 | `(s)` parses to the same tree as `s`, for any readable `s`, itself parenthesised to any depth |
| `ParserRoundTrip.ExprSlotFails` | lox/parser.py:89-140 | when `factor` fails where an operand may begin, at any depth of parentheses and after any operands and operators, `expr` fails from the start with that same error |
| `ParserRoundTrip.MissingOperand` | lox/parser.py:98-99 | an operator or `)` wherever an operand may begin makes the parse fail expecting a number or `(`, naming that token; only the tokens up to it need to lex, so the text may go on with anything |
| `ParserRoundTrip.MissingOperandAtEnd` | lox/parser.py:98-99 | non-empty text that ends where an operand may begin fails expecting a number or `(` and finding `EOF` |
| `ParserRoundTrip.UnclosedParen` | lox/parser.py:93-96 | a `(` wherever an operand may begin, then a complete expression and the end of the text, fails expecting `RPAREN` and finding `EOF` |
| `ParserRoundTrip.UnclosedBeforeOperand` | lox/parser.py:93-96 | a `(` wherever an operand may begin, then a complete expression and then a number or `(`, fails expecting `RPAREN` and naming that token, whatever the text holds after it |
| `ParserRoundTrip.TrailingInputRejected` | lox/parser.py:152-155 | a complete readable expression followed by a number or a parenthesis is rejected as trailing input, naming that token, whatever the text holds after it |
| `RoundTrip.TokenizeLeads` | lox/main.py:30-35 | the tokens the driver's loop lists are the tokens the lexer reads first, one call at a time |
| `Traces.LeadsTraced` | lox/lexer.py:91-125 | on a text given by the offsets of its tokens, the lexer reads those tokens first, whether the text then ends or holds an unknown character |
| `Traces.TokenizeTraced` | lox/lexer.py:91-125 | on a text given by the offsets of its tokens, with whitespace between, the lexer returns those tokens then `EOF`, or fails at the unknown character the offsets stop at |
| `Pipeline.Compile` | lox/main.py:25-53 | compilation succeeds exactly on non-empty text with only recognised characters that parses; the tokens, the tree and the code are those of the stages; a lexical error is reported at the first unknown character, before any parsing |
| `Pipeline.CompileUnparse` | lox/main.py:25-53 | the printed text of any well-formed tree compiles, with that tree's tokens, the tree itself, and code that rebuilds it |
| `Examples.LexSingleDigit` | tests/test_lexer.py:17-22 | `"5"` lexes to `INTEGER 5, EOF` |
| `Examples.LexMultiDigit` | tests/test_lexer.py:24-29 | `"123"` lexes to `INTEGER 123, EOF` |
| `Examples.LexOperators` | tests/test_lexer.py:31-38 | `"+ - * /"` lexes to `PLUS, NEG, MULTIPLY, DIVIDE, EOF` |
| `Examples.LexParentheses` | tests/test_lexer.py:40-45 | `"()"` lexes to `LPAREN, RPAREN, EOF` |
| `Examples.LexWhitespace` | tests/test_lexer.py:47-61 | spaces and a tab around `10 + 5` are skipped |
| `Examples.LexComplex` | tests/test_lexer.py:63-84 | `"10 + 2 * (5 - 1) / 3"` lexes to the eleven tokens the test lists, then `EOF` |
| `Examples.LexInvalidCharacter` | tests/test_lexer.py:86-96 | `"10 + #"` fails with a lexical error at column 5, after reading `10` and `+` |
| `Examples.ParseSingleInteger` | tests/test_parser.py:16-21 | `"5"` parses to `Num(5)` |
| `Examples.ParseSimpleAddition` | tests/test_parser.py:23-32 | `"3 + 5"` parses to `BinOp(Num(3), PLUS, Num(5))` |
| `Examples.ParseSimpleSubtraction` | tests/test_parser.py:34-41 | `"10 - 2"` parses to `BinOp(Num(10), NEG, Num(2))` |
| `Examples.ParseMultiplicationPrecedence` | tests/test_parser.py:43-55 | `"2 + 3 * 4"` has root `+` with right child `3 * 4` |
| `Examples.ParseParenthesesFirst` | tests/test_parser.py:57-69 | `"(7 - 2) * 5"` has root `*` with left child `7 - 2` |
| `Examples.ParseSubtractionChain` | lox/parser.py:130-140 | `"10 - 2 - 3"` folds to the left |
| `Examples.ParseDivisionChain` | lox/parser.py:109-119 | `"8 / 4 / 2"` folds to the left |
| `Examples.ParseComplexExpression` | tests/test_parser.py:71-92 | `"10 + 5 * (2 - 1)"` parses to the nested tree the test checks |
| `Examples.ParseMissingRightParen` | tests/test_parser.py:94-99 | `"2 * (3 + 4"` fails expecting `RPAREN` and finding `EOF` |
| `Examples.ParseUnexpectedToken` | tests/test_parser.py:101-106 | `"2 + * 3"` fails in `factor` at the `*` |
| `Examples.ParseNestedGroup` | lox/parser.py:93-97 | `"((1))"` parses to `Num(1)` |
| `Examples.ParseUnclosedNested` | lox/parser.py:93-96 | `"((1)"` fails expecting `RPAREN` and finding `EOF` |
| `Examples.ParseMissingFactorAfterSum` | lox/parser.py:98-99 | `"1 + 2 * )"` fails in `factor` at the `)` |
| `Examples.ParseTrailingAfterGroup` | lox/parser.py:152-155 | `"(1) 2"` is rejected as trailing input at the `2` |
| `Examples.CompileSum` | lox/code_generator.py:94-108 | `"3 + 5"` compiles to `PUSH 3, PUSH 5, ADD` |
| `Examples.CompileSumOfProduct` | lox/code_generator.py:110-126 | `"10 + 2 * 3"` compiles to `PUSH 10, PUSH 2, PUSH 3, MUL, ADD` |
| `Examples.CompileQuotientOfDifference` | lox/code_generator.py:128-144 | `"(7 - 2) / 5"` compiles to `PUSH 7, PUSH 2, SUB, PUSH 5, DIV` |
| `Examples.CompileMixed` | lox/code_generator.py:146-166 | `"(10 + 2) * (5 - 1) / 3"` compiles to `PUSH 10, PUSH 2, ADD, PUSH 5, PUSH 1, SUB, MUL, PUSH 3, DIV` |
| `Examples.ParseLazyMissingOperand` | lox/parser.py:81-99 | `"2 + * #"` fails in `factor` at the `*`: the parser stops before the lexer reaches `#` |
| `Examples.CompileLazyMissingOperand` | lox/main.py:29-35 | the driver lists every token first, so for `"2 + * #"` it reports the lexical error at column 6 |
| `Examples.ParseLazyTrailing` | lox/parser.py:142-155 | `"(1) 2 #"` is rejected as trailing input at the `2`: the parser stops before the lexer reaches `#` |
| `Examples.CompileLazyTrailing` | lox/main.py:29-35 | the driver reports the lexical error of `"(1) 2 #"` at column 6 |
| `Examples.CompileInvalidCharacter` | lox/main.py:25-56 | the driver reports the lexical error of `"10 + #"` at column 5 |

## Left out

- Input and output: the command line, file reading, the interactive loop, and all
  printing in `lox/main.py`. The `__main__` demo blocks are print-only; their expected
  outputs appear as the `Examples.Compile*` lemmas.
- Message texts. `CompilerError` keeps what a message says (the offset, the expected
  kind, the token found) but not its Portuguese wording. The `line` field of
  `lox/errors.py` is never set by the lexer or the parser and is not modelled.
- The tests' message regexes. Those at `tests/test_parser.py:98` and
  `tests/test_parser.py:105` expect the prefix `Erro de sintaxe:`. The message is
  `[Erro] …` followed by the text of `lox/parser.py:65` (`lox/errors.py:13`), so neither
  matches. Only the tests' structural assertions are modelled.
- Unicode classification. `str.isdigit` and `str.isspace` accept non-ASCII
  characters. The model uses the ASCII digits `0`-`9` and the ASCII characters
  `isspace` accepts (codes 9-13 and 28-32).
- The `value` of symbol tokens. The source stores `'+'` and so on, and `None` for
  `EOF`. Here `Token.SurfaceChar` gives that character, and only `Int` carries a value.
- Evaluation of the instructions, including division semantics. The source only
  generates code; `Exec` rebuilds trees rather than computing numbers.
- `_generic_visit` (lox/code_generator.py:41-50). The `Ast` datatype has only the two
  node kinds, so the dynamic dispatch of `_visit` becomes a `match` with no third case.
- The code generator's unknown-operator branch calls `self.error`
  (lox/code_generator.py:77). `CodeGenerator` has no such method, so the source raises
  `AttributeError`, which `run_compiler` reports as an unexpected error. It is
  modelled as the error value `UnknownOperator`. `Parse` only returns well-formed
  trees, so compiled text never reaches it.
- CodeGeneration.Visit / Parsing.Factor: Python's recursion limit is not modelled.
  `_visit` and `_visit_BinOp` call each other, two frames per level of the tree
  (lox/code_generator.py:39 and 63-64). `factor`, `expr` and `term` take three frames
  per `(` (lox/parser.py:93-96). Under CPython's default limit of 1000 frames, a chain
  like `1+1+…+1` with about 500 operators, or about 330 nested parentheses, raises
  `RecursionError`. `lox/main.py:59-60` reports that as an unexpected error, where
  `Pipeline.Compile` returns `Ok`.
- Empty input. The code fails in the lexer's constructor (`text[0]` on an empty
  string, lox/lexer.py:48), so the model returns `EmptyText`.
- Lexing.Integer: reads a digit run of any length as an unbounded number. On CPython
  3.11 and later, `int()` at lox/lexer.py:77 refuses strings of more than 4300 digits
  with `ValueError`, which lox/main.py:59-60 reports as an unexpected error; that
  limit is not modelled.
- Decimal.NatToString: prints a number of any size. The same 4300-digit limit
  applies to formatting the `PUSH` value at lox/code_generator.py:85; the lexer's
  limit is reached first, so compiled text never gets there.
- `run_compiler` lexes the text twice: once for the token listing and once inside the
  parser. `Compile` does the same. The listing comes first, so a lexical error
  anywhere in the text is reported before parsing starts.
