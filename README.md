# A verified model of a small interpreter pipeline

The system is a tiny scripting language in two generations. Each has a
tokenizer (text to tokens), a recursive-descent parser (tokens to a syntax
tree) and, for the first generation, a tree-walking evaluator with a scope
stack utility beside it.

- **First generation** (`src/`):
  - The tokenizer knows letters-only words, numerals and single-character symbols.
  - The parser builds right-associative `+ - * /` expressions, `print e;` and `name = e;`.
  - The evaluator runs those trees over one mutable variable map.
- **Second generation** (`backend/src/`):
  - The tokenizer adds `//` comments, two-character symbols and identifiers with digits and `_`.
  - The parser is flat and left-associative with twelve operators.
  - Its grammar adds prefix `!`, booleans, fn-expressions, calls, arrays, index access, `let`, `return`, `while`, `if`/`else`, `break`, `continue` and indexed assignment.

The modules follow the source files:

| module | source |
|---|---|
| `Tokens` | `src/lexer/constants.ts`: the token record and the keyword and symbol tables |
| `Chars` | the regular-expression character classes both tokenizers use |
| `Numerals` | numeral text and its value: `Number`/`parseFloat` on the numerals the tokenizers accept, and the decimal text of a number |
| `SrcTokenizer` | `src/lexer/tokenizer.ts` |
| `BackendTokenizer` | `backend/src/lexer/tokenizer.ts` |
| `SrcAst` | `src/parser/ast.ts` |
| `BackendAst` | `backend/src/parser/ast.ts` |
| `SrcParser` | `src/parser/parser.ts` |
| `BackendParser` | `backend/src/parser/parser.ts` |
| `EnvUtils` | `src/runtime/env_utils.ts` |
| `Interpreter` | `src/runtime/interpreter.ts` |
| `Wrappers` | `Option` and `Result` |

The imperative code keeps its imperative form.

- **Tokenizers.** Each `Tokenize` is a cursor loop with inner accumulation loops. It is proved equal to a recursive specification function `Lex`. The properties are lemmas about `Lex`:
  - the tokens spell the input minus whitespace and comments;
  - every token is well formed;
  - maximal munch;
  - exactly which inputs fail, and what each error reports.
- **Parsers.** Each parser is a `Parser` class holding the token list and the shared cursor `current`. There is one method per inner function of `parse`, and each method is proved to return exactly what a specification function (`PExpr`, `PPrimary`, `PStatement`, …) returns for the starting cursor. The shape, associativity and round-trip results are lemmas about those functions.
- **Scope stack.** It is an `array` of scope maps, and the three operations loop down it as the source does. Each is proved to agree with a function on the stack's contents.
- **Evaluator.** The expression cases of `evalNode` are a pure function `EvalExpr`, and statements are specified by `Exec`/`ExecSeq` on a state. `EvalNode`, the block loop and `evaluate` mutate a `RuntimeContext` object and are proved to end in the state `Exec` describes.

The model keeps these behaviours of the code, which a user of the language might not expect:

- A call on its own (`f();`) is not a statement in the second-generation parser. A statement starting with a name is always an assignment, so `f();` fails where `=` is expected (`BackendParser.ExampleCallStatementRejected`).
- An indexed assignment target is the string `name[<index>]` built from the index node's `value` field. This is the number's text, the name, or `true`/`false` for those nodes. It is `[object Object]` for the nodes whose `value` is itself a node (assignment, `let`, `return`), and `undefined` for every other index expression.
- The first-generation keyword table lists `let` and `return` twice; only membership is ever asked.

## Model

| member | source | states |
|---|---|---|
| Tokens.SymbolsAreSingleCharacters | src/lexer/constants.ts:15-30 | every entry of `SYMBOLS` is one character long |
| Tokens.MultiCharSymbolsShape | src/lexer/constants.ts:32 | `MULTI_CHAR_SYMBOLS` is exactly `== != >= <=`, each two characters starting with a single symbol |
| Tokens.KeywordSet | src/lexer/constants.ts:1-13 | the table has eleven entries and denotes exactly nine distinct words |
| Tokens.KeywordsAreLowerCaseWords | src/lexer/constants.ts:1-13 | every keyword is a non-empty run of lower-case letters |
| Tokens.MissingEntries | src/lexer/constants.ts:1-30 | `true`/`false` are not keywords; `[ ] . & \|` are not symbols |
| Tokens.SymbolCharactersAreDistinct | src/lexer/constants.ts:15-30 | no symbol character is whitespace, a word character or a dot, so the tokenizer branches never compete |
| Tokens.ValuesAppend | src/lexer/constants.ts:36-39 | the concatenated token texts of two lists is the texts of each, joined |
| Chars.RunEnd | src/lexer/tokenizer.ts:24-26 | the end of the maximal run from `i`: every character before it satisfies the class and the one at it does not |
| Chars.RunEndUnique | src/lexer/tokenizer.ts:24-26 | a position with those two properties is the run end |
| Numerals.NumeralValue | src/parser/parser.ts:68 | the value of a numeral is non-negative |
| Numerals.DotIndex | src/lexer/tokenizer.ts:40 | the position of a numeral's only dot, or none, and no dot before it |
| Numerals.SplitAtDot | src/lexer/tokenizer.ts:40-42 | a numeral splits at its dot into two digit runs |
| Numerals.NatText | backend/src/parser/parser.ts:316 | the decimal text of a natural number is digits without a leading zero |
| Numerals.NatTextValue | backend/src/parser/parser.ts:316 | reading back the digits of `n` gives `n` |
| Numerals.NatNumeral | backend/src/parser/parser.ts:133 | the text of a natural number is a numeral that `parseFloat` reads as that number |
| Numerals.NumberText | backend/src/parser/parser.ts:316 | the text of a non-negative number starts with a digit |
| Numerals.NumberTextOfNat | backend/src/parser/parser.ts:316 | a whole number prints as its digits, with no dot; this matches JavaScript only below 10^21, where its exponent form starts |
| Numerals.NumberTextRoundTrip | backend/src/parser/parser.ts:309-317 | printing a whole number and parsing the text back gives the number |
| Numerals.FractionDigitsDenote | backend/src/parser/parser.ts:316 | the fraction digits printed for a fraction of at most `fuel` decimal places, read front to back, denote exactly that fraction |
| Numerals.FractionTextRoundTrip | backend/src/parser/parser.ts:309-317 | a non-negative number of at most 20 decimal places prints as a numeral, and parsing that text back gives the number |
| SrcTokenizer.WordKind | src/lexer/tokenizer.ts:28 | a word is a keyword iff it is in `KEYWORDS`, otherwise an identifier |
| SrcTokenizer.LexFrom | src/lexer/tokenizer.ts:14-56 | the scan of the loop from `i`, its branches in the source's order: each token covers at least one character, so the scan yields at most as many tokens as characters remain |
| SrcTokenizer.Lex | src/lexer/tokenizer.ts:7-59 | tokenizing yields at most one token per input character |
| SrcTokenizer.ReadWord | src/lexer/tokenizer.ts:23-26 | the letter loop stops at the end of the maximal run of letters and returns exactly that text |
| SrcTokenizer.ReadNumeral | src/lexer/tokenizer.ts:34-37 | the numeral loop stops at the end of the maximal run of digits and dots and returns exactly that text |
| SrcTokenizer.Tokenize | src/lexer/tokenizer.ts:7-59 | the cursor loop returns exactly `Lex(input)`: the token list, or the first error |
| SrcTokenizer.SpaceStep | src/lexer/tokenizer.ts:17-20 | whitespace yields no token; the scan resumes after it |
| SrcTokenizer.WordStep | src/lexer/tokenizer.ts:22-31 | maximal munch for words: a word is the maximal run of letters, tagged by `WordKind` |
| SrcTokenizer.NumeralStep | src/lexer/tokenizer.ts:33-46 | a numeral is the maximal run of digits and dots; more than one dot fails with that run |
| SrcTokenizer.SymbolStep | src/lexer/tokenizer.ts:49-53 | a character in `SYMBOLS` is a one-character symbol token |
| SrcTokenizer.BadCharacterStep | src/lexer/tokenizer.ts:55 | any other character fails with that character |
| SrcTokenizer.LexOk | src/lexer/tokenizer.ts:7-59 | on success the token texts, in order, spell the input without its whitespace, and every token is well formed (a letters-only word tagged by `KEYWORDS`, a numeral, or a listed symbol) |
| SrcTokenizer.LexSucceedsIff | src/lexer/tokenizer.ts:7-59 | tokenizing succeeds iff every character is allowed and every run of digits and dots starts with a digit and holds at most one dot |
| SrcTokenizer.LexFromError | src/lexer/tokenizer.ts:40-55 | an error reports a character that starts no token or a whole run with more than one dot, found in the input |
| SrcTokenizer.WordScansAsOneToken | src/lexer/tokenizer.ts:22-31 | a run of letters on its own is one token, tagged by `KEYWORDS` |
| SrcTokenizer.KeywordsScanAsKeywords | src/lexer/tokenizer.ts:22-31 | every keyword can be scanned, and comes out as a keyword token |
| SrcTokenizer.ShortWordsAreNotKeywords | src/lexer/constants.ts:1-13 | no word shorter than two letters is a keyword |
| SrcTokenizer.ExampleLet | src/lexer/tokenizer.ts:7-59 | `let x = 5;` is keyword, identifier, `=`, numeral, `;` |
| SrcTokenizer.ExampleLettersOnly | src/lexer/tokenizer.ts:22-46 | `x1` is the identifier `x` and then the numeral `1` |
| SrcTokenizer.ExampleSingleCharSymbols | src/lexer/tokenizer.ts:49-53 | `==` and `//` are two symbol tokens each |
| SrcTokenizer.ExampleTrailingDot | src/lexer/tokenizer.ts:33-46 | `1.` is one numeral |
| SrcTokenizer.ExampleTwoDots | src/lexer/tokenizer.ts:40-42 | `1.2.3` fails with the whole run |
| SrcTokenizer.ExampleUnderscore | src/lexer/tokenizer.ts:22-55 | `x_1` fails at `_`, an unexpected character |
| BackendTokenizer.LexFrom | backend/src/lexer/tokenizer.ts:20-87 | the scan of the loop from `i`, its branches in the source's order (whitespace, comment, two-character symbol, symbol, identifier, numeral): at most as many tokens as characters remain |
| BackendTokenizer.Lex | backend/src/lexer/tokenizer.ts:13-90 | tokenizing yields at most one token per input character |
| BackendTokenizer.TwoChar | backend/src/lexer/tokenizer.ts:39 | `input.slice(i, i + 2)`: two characters, or one at the end |
| BackendTokenizer.WordKind | backend/src/lexer/tokenizer.ts:60-62 | a word is a keyword iff it is in the keyword table |
| BackendTokenizer.SkipComment | backend/src/lexer/tokenizer.ts:32-34 | the comment loop stops at the next newline or the end of the input |
| BackendTokenizer.ReadWord | backend/src/lexer/tokenizer.ts:55-58 | the identifier loop stops at the end of the maximal run of letters, digits and `_` |
| BackendTokenizer.ReadNumeral | backend/src/lexer/tokenizer.ts:70-76 | the numeral loop stops at the end of the maximal run of digits and dots |
| BackendTokenizer.Tokenize | backend/src/lexer/tokenizer.ts:13-90 | the cursor loop returns exactly `Lex(lx, input)` |
| BackendTokenizer.SpaceStep | backend/src/lexer/tokenizer.ts:24-27 | whitespace yields no token |
| BackendTokenizer.CommentStep | backend/src/lexer/tokenizer.ts:30-36 | `//` skips up to, not including, the next newline or the end of input |
| BackendTokenizer.MultiCharStep | backend/src/lexer/tokenizer.ts:39-44 | a two-character symbol is one token, tried before any one-character symbol |
| BackendTokenizer.SymbolStep | backend/src/lexer/tokenizer.ts:47-51 | otherwise a listed character is a one-character symbol |
| BackendTokenizer.WordStep | backend/src/lexer/tokenizer.ts:54-65 | maximal munch for identifiers starting with a letter or `_` |
| BackendTokenizer.NumeralStep | backend/src/lexer/tokenizer.ts:69-84 | a numeral is the maximal run of digits and dots; more than one dot fails |
| BackendTokenizer.BadCharacterStep | backend/src/lexer/tokenizer.ts:86 | any other character fails with that character |
| BackendTokenizer.LexOk | backend/src/lexer/tokenizer.ts:13-90 | on success, with tables whose two-character symbols do not end in whitespace or `/`, the token texts spell the input without whitespace and comments, and every token is well formed |
| BackendTokenizer.LexFromError | backend/src/lexer/tokenizer.ts:78-86 | an error reports a character that starts no token or a whole run with more than one dot |
| BackendTokenizer.StepEnd | backend/src/lexer/tokenizer.ts:20-87 | where one turn of the loop leaves the cursor when it does not fail: always past it, never past the end |
| BackendTokenizer.ScannedAfter | backend/src/lexer/tokenizer.ts:20-87 | the positions the loop steps to from `i` are never before `i` |
| BackendTokenizer.ScannedChain | backend/src/lexer/tokenizer.ts:20-87 | of two positions the loop reaches, the later one is reached from the earlier |
| BackendTokenizer.CommentsAreSkipped | backend/src/lexer/tokenizer.ts:30-36 | once the loop reaches a `//`, it next stops at or after the end of that line: no character inside a comment is ever examined |
| BackendTokenizer.StepOutcome | backend/src/lexer/tokenizer.ts:20-87 | a failing turn fails the scan with its own error; any other turn succeeds iff the scan from where it leaves the cursor does, with the same error |
| BackendTokenizer.LexFromSucceedsIff | backend/src/lexer/tokenizer.ts:20-87 | the scan from `i` succeeds iff no position it steps to holds a failing turn |
| BackendTokenizer.LexSucceedsIff | backend/src/lexer/tokenizer.ts:13-90 | tokenizing succeeds iff no position the loop reaches holds an unexpected character or a digit starting a run with more than one dot; characters inside comments never count |
| BackendTokenizer.LexFromFirstFailure | backend/src/lexer/tokenizer.ts:78-86 | a failed scan reports the error of a failing position it reaches, and no position it reached before that one fails |
| BackendTokenizer.LexFirstFailure | backend/src/lexer/tokenizer.ts:13-90 | a failed tokenization reports the error of the first failing position the loop reaches |
| BackendTokenizer.DesignLexiconSeparates | backend/src/lexer/tokenizer.ts:30-44 | the documented tables meet the condition `LexOk` needs |
| BackendTokenizer.DesignWordCharIsNoSymbol | backend/src/lexer/tokenizer.ts:39-54 | under the documented tables no symbol starts with a word character, so words are never split by the symbol checks |
| BackendTokenizer.DesignKeywordsAreLong | backend/src/lexer/tokenizer.ts:60-62 | every documented keyword has at least two characters |
| BackendTokenizer.ExampleTwoCharFirst | backend/src/lexer/tokenizer.ts:39-51 | `a==b` gives `==` as one symbol |
| BackendTokenizer.ExampleComment | backend/src/lexer/tokenizer.ts:30-36 | a comment is dropped up to the newline and what follows is scanned |
| BackendTokenizer.ExampleTwoDots | backend/src/lexer/tokenizer.ts:69-80 | `1.2.3` fails as a whole, although `.` is a symbol |
| SrcAst.OpSymbolRoundTrip | src/parser/ast.ts:20 | each of the ten operators is recovered from its spelling |
| SrcAst.OperatorSpellings | src/parser/ast.ts:20 | exactly ten spellings are operators; `&&` and `\|\|` are not |
| BackendAst.OpSymbolRoundTrip | backend/src/parser/ast.ts:30 | each of the twelve operators is recovered from its spelling |
| BackendAst.OperatorSpellings | backend/src/parser/ast.ts:30 | exactly twelve spellings are binary operators |
| BackendAst.UnarySymbolRoundTrip | backend/src/parser/ast.ts:53-57 | each of the two prefix operators `-` and `!` is recovered from its spelling |
| SrcParser.NonOperators | src/parser/parser.ts:35 | closing brackets, `;`, `=` and comparisons do not continue an expression |
| SrcParser.ExpectAt | src/parser/parser.ts:23-29 | `expect` succeeds iff the token has the kind and, when given, the text; it consumes one token; otherwise the error names what was expected and what was found |
| SrcParser.PExpr | src/parser/parser.ts:31-47 | a parsed expression consumes at least one token and stays within the input |
| SrcParser.PPrimary | src/parser/parser.ts:49-89 | a parsed primary (unary minus, numeral, name or parenthesised expression) consumes at least one token and stays within the input |
| SrcParser.PStatement | src/parser/parser.ts:92-121 | a parsed `print e;` or `name = e;` consumes at least one token and stays within the input |
| SrcParser.Program | src/parser/parser.ts:124-128 | the main loop from `i` parses statements until the tokens run out; each takes at least one token, so there are at most as many statements as tokens left |
| SrcParser.Parser.Peek | src/parser/parser.ts:15-17 | the token at the cursor, or none past the end |
| SrcParser.Parser.Consume | src/parser/parser.ts:19-21 | the token at the cursor, and the cursor advances by one |
| SrcParser.Parser.Expect | src/parser/parser.ts:23-29 | returns and advances exactly as `ExpectAt` says |
| SrcParser.Parser.ParseExpression | src/parser/parser.ts:31-47 | result and final cursor are exactly `PExpr` at the starting cursor |
| SrcParser.Parser.ParsePrimary | src/parser/parser.ts:49-89 | result and final cursor are exactly `PPrimary` at the starting cursor |
| SrcParser.Parser.ParseStatement | src/parser/parser.ts:92-121 | result and final cursor are exactly `PStatement` at the starting cursor |
| SrcParser.Parse | src/parser/parser.ts:11-129 | the main loop returns exactly `Program(tokens, 0)`: every statement until the tokens run out, or the first error |
| SrcParser.ExprShape | src/parser/parser.ts:31-47 | every parsed expression uses only `+ - * /`, unary minus, names and non-negative literals |
| SrcParser.PrimaryShape | src/parser/parser.ts:49-89 | the same for every parsed primary |
| SrcParser.ProgramShape | src/parser/parser.ts:92-128 | every statement of a successful parse is `print e;` or `name = e;` over such an expression |
| SrcParser.PrimaryOfParentheses | src/parser/parser.ts:81-86 | parentheses yield the inner expression with no node of their own |
| SrcParser.PrimaryOfMinus | src/parser/parser.ts:54-62 | unary minus wraps exactly the one primary after it |
| SrcParser.ExprOfOperator | src/parser/parser.ts:34-44 | an operator after a primary makes a node whose right operand is the whole rest of the expression (right association) |
| SrcParser.ExprOfPrimary | src/parser/parser.ts:34-46 | with no operator after it, an expression is its primary |
| SrcParser.OperatorSymbols | src/parser/parser.ts:35 | each of the four arithmetic operators continues an expression |
| SrcParser.LiteralRoundTrip | src/parser/parser.ts:64-78 | a printed number or name parses back as itself |
| SrcParser.UnaryRoundTrip | src/parser/parser.ts:54-62 | `-` followed by a printed primary parses back as its negation |
| SrcParser.BinaryRoundTrip | src/parser/parser.ts:81-86 | a parenthesised printed infix expression parses back as itself |
| SrcParser.InfixRoundTrip | src/parser/parser.ts:31-47 | a printed primary, an operator and a printed expression, followed by a non-operator, parse back as one infix node |
| SrcParser.PrimaryRoundTrip | src/parser/parser.ts:49-89 | parsing the printed (fully parenthesised) form of a primary gives it back and stops right after it |
| SrcParser.ExprRoundTrip | src/parser/parser.ts:31-47 | the same for an expression followed by a non-operator |
| SrcParser.StatementOfPrint | src/parser/parser.ts:96-104 | `print`, an expression and `;` make a print statement ending after the `;` |
| SrcParser.StatementOfAssignment | src/parser/parser.ts:107-118 | a name, `=`, an expression and `;` make an assignment ending after the `;` |
| SrcParser.PrintRoundTrip | src/parser/parser.ts:96-104 | the printed form of `print e;` parses back as itself |
| SrcParser.AssignmentRoundTrip | src/parser/parser.ts:107-118 | the printed form of `x = e;` parses back as itself |
| SrcParser.ProgramOfStatement | src/parser/parser.ts:124-128 | a statement followed by a parsed rest makes the program of both |
| SrcParser.StatementRoundTrip | src/parser/parser.ts:92-121 | the same for `print` and assignment statements |
| SrcParser.ProgramRoundTrip | src/parser/parser.ts:11-129 | parsing the printed form of any printable program gives the program back |
| SrcParser.ExampleRightAssociative | src/parser/parser.ts:31-47 | `a - b - c` parses as `a - (b - c)` |
| SrcParser.ExampleUnaryMinus | src/parser/parser.ts:49-89 | `-a + b` is `(-a) + b`; `(a)` is `a` |
| SrcParser.ExampleComparisonEndsExpression | src/parser/parser.ts:31-104 | `print a > b;` fails where `;` is expected, at `>` |
| SrcParser.ExampleUnrecognizedStatement | src/parser/parser.ts:120 | a statement starting with a numeral is unrecognized |
| BackendParser.OperatorList | backend/src/parser/parser.ts:55 | the listed symbols are exactly the spellings of the twelve binary operators |
| BackendParser.ValueAt | backend/src/parser/parser.ts:103 | `peek()?.value`: the text of the token at `i`, or none past the end |
| BackendParser.ExpectAt | backend/src/parser/parser.ts:37-45 | `expect` succeeds iff kind and (when given) text match, consuming one token; otherwise it names what was expected and found |
| BackendParser.PExpr | backend/src/parser/parser.ts:47-73 | a parsed expression consumes at least one token |
| BackendParser.PExprTail | backend/src/parser/parser.ts:50-72 | the operator loop with the left operand built so far ends at or after the cursor and within the input |
| BackendParser.PPrimary | backend/src/parser/parser.ts:75-194 | a parsed primary consumes at least one token and stays within the input |
| BackendParser.PName | backend/src/parser/parser.ts:158-191 | a call, index access or name after the name at `i` consumes at least that name |
| BackendParser.PParams | backend/src/parser/parser.ts:102-107 | the parameter loop never moves the cursor backwards or past the end |
| BackendParser.PItems | backend/src/parser/parser.ts:146-167 | the argument and element loop never moves the cursor backwards or past the end |
| BackendParser.PBlock | backend/src/parser/parser.ts:196-207 | a parsed block consumes at least one token and stays within the input |
| BackendParser.PStatements | backend/src/parser/parser.ts:199-201 | the statements of a block never move the cursor backwards or past the end |
| BackendParser.PStatement | backend/src/parser/parser.ts:209-331 | a parsed statement consumes at least one token and stays within the input |
| BackendParser.PKeywordStatement | backend/src/parser/parser.ts:212-307 | a parsed keyword statement consumes at least its keyword |
| BackendParser.IndexKey | backend/src/parser/parser.ts:316 | `${value}` of an index node: a number prints as a digit string, with `-` before a negative one |
| BackendParser.PTarget | backend/src/parser/parser.ts:309-317 | the target `name` or `name[key]` consumes at least the name |
| BackendParser.PAssignment | backend/src/parser/parser.ts:309-326 | a parsed assignment consumes at least one token and stays within the input |
| BackendParser.Program | backend/src/parser/parser.ts:333-337 | the main loop parses statements until the tokens run out, at most one per token left |
| BackendParser.Parser.Peek | backend/src/parser/parser.ts:29-31 | the token at the cursor, or none |
| BackendParser.Parser.Consume | backend/src/parser/parser.ts:33-35 | the token at the cursor, and the cursor advances by one |
| BackendParser.Parser.Expect | backend/src/parser/parser.ts:37-45 | returns and advances exactly as `ExpectAt` says |
| BackendParser.Parser.ParseExpression | backend/src/parser/parser.ts:47-73 | the operator loop returns exactly `PExpr` at the starting cursor |
| BackendParser.Parser.ParsePrimary | backend/src/parser/parser.ts:75-194 | result and final cursor are exactly `PPrimary` |
| BackendParser.Parser.ParseName | backend/src/parser/parser.ts:158-191 | a call, an index access or a name, exactly as `PName` |
| BackendParser.Parser.ParseFunctionExpression | backend/src/parser/parser.ts:98-117 | the `fn` case of `parsePrimary`: parameters in parentheses and a block, exactly as `PPrimary` |
| BackendParser.Parser.ParseParenthesised | backend/src/parser/parser.ts:137-142 | the `(` case of `parsePrimary`: the inner expression and the `)`, exactly as `PPrimary` |
| BackendParser.Parser.ParseArrayLiteral | backend/src/parser/parser.ts:144-156 | the `[` case of `parsePrimary`: the elements and the `]`, exactly as `PPrimary` |
| BackendParser.Parser.ParseParams | backend/src/parser/parser.ts:102-107 | the parameter loop returns exactly `PParams` |
| BackendParser.Parser.ParseItems | backend/src/parser/parser.ts:146-167 | the argument and element loops return exactly `PItems` |
| BackendParser.Parser.ParseBlock | backend/src/parser/parser.ts:196-207 | the block loop returns exactly `PBlock` |
| BackendParser.Parser.ParseStatement | backend/src/parser/parser.ts:209-331 | result and final cursor are exactly `PStatement` |
| BackendParser.Parser.ParseKeywordStatement | backend/src/parser/parser.ts:212-307 | the keyword statements, exactly as `PKeywordStatement` |
| BackendParser.Parser.ParseFunctionDeclaration | backend/src/parser/parser.ts:212-230 | the `fn` statement: a name, parameters and a block, exactly as `PKeywordStatement` |
| BackendParser.Parser.ParseLet | backend/src/parser/parser.ts:242-253 | `let name = e;`, exactly as `PKeywordStatement` |
| BackendParser.Parser.ParseIf | backend/src/parser/parser.ts:278-293 | a condition, a block and the `else` block when `else` follows, exactly as `PKeywordStatement` |
| BackendParser.Parser.ParseAssignment | backend/src/parser/parser.ts:309-326 | the (indexed) assignment, exactly as `PAssignment` |
| BackendParser.Parse | backend/src/parser/parser.ts:25-338 | the main loop returns exactly `Program(tokens, 0)` |
| BackendParser.ExprIsMaximal | backend/src/parser/parser.ts:50-69 | the token after a parsed expression never continues it; it is left unconsumed |
| BackendParser.ExprHead | backend/src/parser/parser.ts:47-49 | an expression starts with its first primary and continues with the operator loop |
| BackendParser.ExprHeadAt | backend/src/parser/parser.ts:47-49 | once the first primary is known, the expression is the operator loop started after it |
| BackendParser.TailStep | backend/src/parser/parser.ts:52-66 | an operator and a primary fold into the left operand and the loop continues after them |
| BackendParser.LoopTurn | backend/src/parser/parser.ts:52-66 | one turn of the loop seen from the start of the expression: a failing primary fails the expression, a parsed one folds into the left operand |
| BackendParser.TailEnd | backend/src/parser/parser.ts:67-72 | the loop ends at a token that is not an operator, leaving it unconsumed |
| BackendParser.LoopEnds | backend/src/parser/parser.ts:67-72 | an expression whose loop reaches a non-operator is parsed up to that token |
| BackendParser.NameExprStep | backend/src/parser/parser.ts:158-191 | a name followed by neither `(`, `[` nor an operator is a whole expression of one token |
| BackendParser.TailFails | backend/src/parser/parser.ts:59-60 | a primary that fails after an operator fails the whole expression with its error |
| BackendParser.TailIsMaximal | backend/src/parser/parser.ts:50-69 | the operator loop stops only where no operator follows |
| BackendParser.NumberStep | backend/src/parser/parser.ts:129-135 | a numeral token is one number literal of its value |
| BackendParser.BooleanStep | backend/src/parser/parser.ts:88-96 | `true` and `false` are one boolean literal each |
| BackendParser.UnaryStep | backend/src/parser/parser.ts:78-86 | `-` or `!` wraps exactly the one primary after it |
| BackendParser.ParenthesesStep | backend/src/parser/parser.ts:137-142 | parentheses yield the inner expression and end after the `)` |
| BackendParser.Unparse | backend/src/parser/parser.ts:47-73 | the flat token form of an expression, with only a binary right operand in parentheses, is never empty |
| BackendParser.OperatorEndsName | backend/src/parser/parser.ts:158-191 | no operator symbol opens a call or an index, or closes parentheses |
| BackendParser.InfixPieces | backend/src/parser/parser.ts:50-66 | the flat form of `l op r` is the form of `l`, the operator symbol, then the operand form of `r` |
| BackendParser.PrimaryRoundTrip | backend/src/parser/parser.ts:75-194 | the flat form of a leaf or prefix expression parses back as one primary and ends right after it |
| BackendParser.OperandRoundTrip | backend/src/parser/parser.ts:75-194 | the operand form of any printable expression parses back as one primary |
| BackendParser.ParenthesesRoundTrip | backend/src/parser/parser.ts:137-142 | a binary operand printed in parentheses parses back as one primary ending after the `)` |
| BackendParser.PrefixRoundTrip | backend/src/parser/parser.ts:47-73 | parsing the flat form of `e` is running the operator loop with `e` as its left operand: the loop folds from the left |
| BackendParser.LeafPrefixRoundTrip | backend/src/parser/parser.ts:47-73 | the flat form of a leaf or prefix expression is one primary, after which the loop starts |
| BackendParser.InfixPrefixRoundTrip | backend/src/parser/parser.ts:50-66 | the flat form of `l op r` leaves the loop after `l`, and one more turn folds in `op r` |
| BackendParser.ExprRoundTrip | backend/src/parser/parser.ts:47-73 | the flat form of any printable expression, followed by a non-operator, parses back to exactly that tree |
| BackendParser.UnparseRoundTrip | backend/src/parser/parser.ts:47-73 | parsing the flat form on its own gives the expression back and consumes every token |
| BackendParser.ChainPrintsFlat | backend/src/parser/parser.ts:47-73 | a left-nested chain of leaves `p0 op1 p1 … opn pn` is printable and its flat form has no parentheses, so the round trip reads it as the left fold |
| BackendParser.ExprIsExpressionNode | backend/src/parser/parser.ts:47-194 | `parseExpression` only returns value nodes |
| BackendParser.PrimaryIsExpressionNode | backend/src/parser/parser.ts:75-194 | `parsePrimary` only returns value nodes |
| BackendParser.StatementIsStatementNode | backend/src/parser/parser.ts:209-331 | `parseStatement` only returns statement nodes |
| BackendParser.ProgramIsStatements | backend/src/parser/parser.ts:333-337 | a successful parse is a list of statements; a failed one fails with the error of a statement the loop reached |
| BackendParser.ExampleNoPrecedence | backend/src/parser/parser.ts:47-73 | `a + b * c` is `(a + b) * c` |
| BackendParser.ExampleLeftAssociative | backend/src/parser/parser.ts:47-73 | `a - b - c` is `(a - b) - c` |
| BackendParser.ChainOfThree | backend/src/parser/parser.ts:47-73 | any three names joined by any two operators parse as `(a op1 b) op2 c`: left association and no precedence, whatever the operators |
| BackendParser.ExampleNegationBindsTightly | backend/src/parser/parser.ts:78-86 | `-a + b` is `(-a) + b` |
| BackendParser.ExampleNotBindsTightly | backend/src/parser/parser.ts:78-86 | `!a && b` is `(!a) && b` |
| BackendParser.ExampleExpressionEnds | backend/src/parser/parser.ts:67-69 | a non-operator ends an expression unconsumed |
| BackendParser.ExampleEmptyArguments | backend/src/parser/parser.ts:161-173 | `f()` is a call with no arguments |
| BackendParser.ExampleTrailingComma | backend/src/parser/parser.ts:164-167 | a trailing comma after the last argument is skipped |
| BackendParser.ExampleMissingComma | backend/src/parser/parser.ts:164-167 | `f(a b)` is a call with two arguments |
| BackendParser.ExampleUnclosedCall | backend/src/parser/parser.ts:164-168 | an unclosed argument list fails at the end of input |
| BackendParser.ExampleArrayLiteral | backend/src/parser/parser.ts:144-156 | `[a, b,]` is an array of two elements |
| BackendParser.ExampleParams | backend/src/parser/parser.ts:98-117 | `fn(x y) {}` has the parameters `x` and `y` |
| BackendParser.ExampleIfWithoutElse | backend/src/parser/parser.ts:278-293 | without `else` the alternate is absent |
| BackendParser.ExampleIfElse | backend/src/parser/parser.ts:278-293 | `else` attaches its block to the `if` just parsed |
| BackendParser.ExampleIndexedByName | backend/src/parser/parser.ts:309-326 | `a[i] = b;` assigns to the target `"a[i]"` |
| BackendParser.ExampleIndexedByExpression | backend/src/parser/parser.ts:309-326 | `a[i + j] = b;` assigns to the target `"a[undefined]"` |
| BackendParser.ExampleIndexedByNumber | backend/src/parser/parser.ts:309-326 | `a[2] = b;` assigns to the target `"a[2]"` |
| BackendParser.ExampleCallStatementRejected | backend/src/parser/parser.ts:309-318 | `f();` fails where `=` is expected |
| EnvUtils.FindBelow | src/runtime/env_utils.ts:4-6 | a found scope index is below the bound and holds the name |
| EnvUtils.FindBelowInnermost | src/runtime/env_utils.ts:4-7 | the downward search fails iff no scope below the bound holds the name, and otherwise finds the highest one |
| EnvUtils.Lookup | src/runtime/env_utils.ts:3-8 | `lookup` answers with the value of some scope holding the name, or fails with `UndefinedVariable` of that name |
| EnvUtils.LookupIn | src/runtime/env_utils.ts:3-8 | the loop returns exactly `Lookup` of the stack |
| EnvUtils.AssignIn | src/runtime/env_utils.ts:10-18 | the stack afterwards is exactly `Assign`'s, and unchanged on an error |
| EnvUtils.DeclareIn | src/runtime/env_utils.ts:20-26 | the stack afterwards is exactly `Declare`'s, and unchanged on an error |
| EnvUtils.Assign | src/runtime/env_utils.ts:10-18 | `assign` keeps the number of scopes |
| EnvUtils.Declare | src/runtime/env_utils.ts:20-26 | `declare` keeps the number of scopes |
| EnvUtils.LookupInnermost | src/runtime/env_utils.ts:3-8 | `lookup` fails iff no scope holds the name; otherwise it answers from the innermost scope holding it |
| EnvUtils.Shadowing | src/runtime/env_utils.ts:3-8 | a binding further in hides one further out |
| EnvUtils.AssignEffect | src/runtime/env_utils.ts:10-18 | `assign` succeeds iff `lookup` does; afterwards the name reads the new value, every other name reads as before, every scope keeps its names, and only the innermost scope holding the name changes |
| EnvUtils.DeclareEffect | src/runtime/env_utils.ts:20-26 | `declare` succeeds iff the innermost scope lacks the name, even if an outer one has it; afterwards `lookup` returns the new value, other names read as before, and only the innermost scope changes |
| EnvUtils.DeclareTwiceFails | src/runtime/env_utils.ts:22-24 | declaring the same name twice in a scope fails |
| Interpreter.Truthy | src/runtime/interpreter.ts:93 | the falsy values are exactly `0` and `false` |
| Interpreter.Apply | src/runtime/interpreter.ts:50-60 | `==` and `!=` always give a boolean; the result is `Coercion` iff another operator meets a boolean, and `DivisionByZero` iff `/` divides a number by zero; no other error |
| Interpreter.EvalExpr | src/runtime/interpreter.ts:24-66 | only value nodes yield values; an undefined-variable error names a variable the map lacks |
| Interpreter.Exec | src/runtime/interpreter.ts:23-97 | running a node only appends to the output and never removes a variable |
| Interpreter.ExecSeq | src/runtime/interpreter.ts:16-21 | the same for nodes run in order until the first error |
| Interpreter.RuntimeContext.constructor | src/runtime/interpreter.ts:16 | the default context has no variables |
| Interpreter.EvalNode | src/runtime/interpreter.ts:23-104 | the context ends as `Exec` says; a value node answers with its value and a statement with nothing |
| Interpreter.EvalBody | src/runtime/interpreter.ts:85-87 | the block loop ends as `ExecSeq` says |
| Interpreter.Evaluate | src/runtime/interpreter.ts:16-21 | runs the nodes in order as `ExecSeq` says and returns the very context it was given |
| Interpreter.EvaluateFresh | src/runtime/interpreter.ts:16-21 | with the default context, a new context in the state `ExecSeq` reaches from empty |
| Interpreter.RunsCompose | src/runtime/interpreter.ts:16-21 | running two node lists one after the other is running their concatenation, so state persists between calls |
| Interpreter.BlockOpensNoScope | src/runtime/interpreter.ts:83-89 | a block runs its statements in the same context: no scope is opened |
| Interpreter.IfRunsConsequenceIffTruthy | src/runtime/interpreter.ts:91-97 | the consequence runs iff the condition is truthy; otherwise nothing changes |
| Interpreter.ExecOnlyWrites | src/runtime/interpreter.ts:69-74 | a node writes only the names it assigns, keeps every variable and only appends to the output |
| Interpreter.ExecSeqOnlyWrites | src/runtime/interpreter.ts:16-89 | the same for a list of nodes |
| Interpreter.AssignmentThenPrint | src/runtime/interpreter.ts:69-81 | after `x = e;`, `print x;` prints the value of `e` and no other name changed |
| Interpreter.EvalExprReadsOnlyFreeVars | src/runtime/interpreter.ts:28-66 | an expression's value depends only on the variables it names |
| Interpreter.LeftOperandFirst | src/runtime/interpreter.ts:45-48 | the left operand is evaluated first: its error wins over the right operand's and the operator's |
| Interpreter.StrictEquality | src/runtime/interpreter.ts:57-58 | `==`/`!=` never fail on values, a number never equals a boolean, and exactly one of them is true |
| Interpreter.ParsedExpressionIsNumber | src/runtime/interpreter.ts:25-66 | a parsed expression over numeric variables is a number, or fails on an undefined name or division by zero |
| Interpreter.ParsedProgramStaysNumeric | src/runtime/interpreter.ts:16-81 | a parsed program keeps every variable a number and never needs a coercion |
| Interpreter.ParseThenEvaluate | src/runtime/interpreter.ts:16-21 | a parse evaluated from the default context stops only on an undefined name or division by zero |

## Left out

- `src/index.ts` and `src/repl.ts` are not part of this model. They are file reading, console output and the read-eval loop.
- `console.log` in `print` is modelled as appending the value to an output sequence. JavaScript's textual formatting of numbers is not modelled there.
- The second-generation tokenizer imports its keyword and symbol tables from a constants file that is not part of this model. `BackendTokenizer` takes them as a `Lexicon` parameter. `DESIGN_LEXICON` holds the keyword and symbol tables of src/lexer/constants.ts, extended with what backend/src/parser/parser.ts reads beyond them: the keywords `true` and `false` and the symbols `[`, `]`, `&&` and `||`, plus the symbol `.`. It is used only by the examples.
- Character classes are ASCII predicates. Unicode whitespace and letters outside ASCII are not modelled.
- Interpreter.Apply: numbers are exact reals. Arithmetic or ordering with a boolean operand, and negation of a boolean, return the error `Coercion` instead of JavaScript's coercion. Division by zero returns `DivisionByZero` instead of an infinity or NaN. Floating-point rounding is not modelled.
- Interpreter.EvalExpr: a statement node used where a value is needed gives `StatementInExpression`; JavaScript would use `undefined`. Neither parser builds such a tree.
- Interpreter.Exec: an error stops the run with the state reached so far, as a thrown exception does. The message text is not modelled.
- Interpreter.Truthy: truthiness is defined on numbers and booleans only, the values the model has.
- EnvUtils.AssignIn: scopes are values in an array, so aliasing between scope objects shared elsewhere is not modelled.
- EnvUtils.Lookup: JavaScript's `in` also sees names inherited from `Object.prototype` (such as `toString`). Scopes are maps, so that quirk is not modelled.
- Interpreter.EvalExpr: the same quirk of `in` affects reading a name (src/runtime/interpreter.ts:30): `toString` never fails as undefined in the source, while the model's variable map only holds what was assigned.
- EnvUtils.DeclareIn: on an empty stack the source would throw a `TypeError` when reading from `undefined`. The model reports `NoScope`.
- Errors of the tokenizers and parsers are tags carrying the offending character, token or text, not the message strings.
- Reading past the last token gives `undefined` in the source, and dereferencing it throws a `TypeError`. The parsers model this as the same parse error the surrounding check would report, with `None` for the missing token.
- The second `-` branch of `parsePrimary` (backend/src/parser/parser.ts:119-127) is unreachable, because the first branch already takes every `-`. It is not modelled.
- Numerals.NumeralValue: `Number`/`parseFloat` are modelled exactly on the decimal numerals the tokenizers accept. Binary floating-point rounding is not modelled.
- Numerals.NumberText: the decimal text of a number, used by `${value}` in an indexed assignment target, never uses exponent form. JavaScript uses exponent form in two ranges. At 10^21 and above, `a[1000000000000000000000] = b;` targets `a[1e+21]` in the source and the full digits in the model. For non-zero numbers below 10^-6, `a[0.0000001] = b;` targets `a[1e-7]` in the source and `a[0.0000001]` in the model.
- Numerals.NumberText: the model prints at most 20 fraction digits (`MAX_FRACTION_DIGITS`). A number below 10^-20, such as 10^-25, prints as `0.` and twenty zeros, where JavaScript prints `1e-25`. A number with more than 20 decimal places is cut off, where JavaScript prints the shortest digits that read back as the same binary floating-point number.
- Numerals.NumberText: its own contract states only that the text starts with a digit. What the text denotes is stated by `NumberTextRoundTrip` for whole numbers and by `FractionTextRoundTrip` for numbers of at most 20 decimal places. Nothing is stated about the text of a number with more decimal places.
- Numerals.NumberTextOfNat: states the digit text for every whole number; JavaScript agrees only below 10^21, for the reason above.
- BackendParser.IndexKey: inherits the differences of `NumberText` for number indexes: exponent form at 10^21 and above and below 10^-6 in the source, and the cut after 20 fraction digits in the model.
- SrcParser.PPrimary: a number token whose text is not a numeral fails with `NotANumeral`. The source has no such error: `Number` gives NaN and parsing goes on. The tokenizer never produces such a token (`SrcTokenizer.LexOk`: every number token is a numeral), so only hand-built token lists differ.
- BackendParser.PPrimary: the same `NotANumeral` error, where `parseFloat` gives the value of the numeric prefix or NaN. The tokenizer never produces such a token (`BackendTokenizer.LexOk`).
- The AST declarations of `src/parser/ast.ts` and `backend/src/parser/ast.ts` are the datatypes `SrcAst.Node` and `BackendAst.Node`. They carry no contracts of their own. `SrcAst.IfStatement` holds the consequence block's statement list rather than a `BlockStatementNode`; running it is the same, since a block opens no scope (`Interpreter.BlockOpensNoScope`). In the same way, the block fields of `BackendAst.IfStatement`, `WhileStatement`, `FunctionDeclaration` and `FunctionExpression` are a `seq<Node>` of statements, where backend/src/parser/ast.ts:59-112 types them as a `BlockStatementNode`. `BackendAst.BlockStatement` is that node, and it too holds a `seq<Node>` as its `body`. `parseBlock` (backend/src/parser/parser.ts:196-207) wraps the statement list in that node and adds nothing else, so no information is lost.
- No evaluator for the second-generation tree (closures, `while`, `break`, arrays) exists in the source, so none is modelled.
