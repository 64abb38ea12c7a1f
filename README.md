# lox-ast front end in Dafny

This project models the expression front end of the `lox-ast` interpreter. The front end has three stages:

- **Scanner.** It turns source text into tokens.
- **Parser (`Perser`).** It turns tokens into an expression tree by recursive descent.
- **Printer (`AstPrinter`).** It turns the tree into fully parenthesised prefix text, through the `eccept`/`ExprVisitor` double dispatch.

The project also models the token model these stages share: `TokenType` and its `Display`, the literal `Object`, and `Token`.

Each stateful piece keeps the source's form.

- **`Scanner` and `Perser` are classes.** Their fields are updated in place, and their loops carry invariants. Every method is proved against a pure reference definition:
  - the scanner against `ScanSpec.ScanTokenAt` and `ScanSpec.ScanFrom`;
  - the parser against `ParseSpec.ParseExpression` and its mutually recursive companions.
- **The properties are lemmas** about those definitions, in modules `ScanLaws` and `ParseLaws`.
- **The printer, the tree and the tables are pure functions.**

The source as written has three defects. Two make the scanner panic by indexing past the end of its buffer, and one makes the parser reject every input. Every operation that contains one of these defects takes a `Rule` argument:

- `AsWritten` follows the code as written. A panic becomes the explicit result `Fault.IndexPanic`.
- `Corrected` follows the evident intent.

Both versions are proved to behave as described under "## Findings". The scanner is also proved to agree with its corrected version wherever the version as written does not panic: both return the same tokens, or fail with the same error.

The project also models the following quirks as written, because that is what the code does. The first three change what a parse returns and look like defects: `-1 + 2` parses as `-(1 + 2)`, `false` reads as true, and `(1)` is rejected. They are not corrected: the `Corrected` variant fixes only the three defects above, which panic or reject every input, and leaves the rest of the code as it is:

- `primary` turns the token `false` into the literal `true`, and `true` into `nil`.
- `unary` parses its operand with `term`.
- `(` must be followed at once by `)`, and no Grouping node is built.
- `LeftParen` displays as `')'`, so the kind display is not injective.
- `Let` displays as `'Let'`.

## Model

| member | source | states |
|---|---|---|
| Tokens.UnquoteDisplay | src/tokens.rs:14-24 | a string displays as its text between double quotes, and no other value displays in quotes |
| Tokens.ObjectDisplayInjective | src/tokens.rs:14-24 | distinct literal values (numbers starting with a digit) have distinct displays |
| Tokens.EofTokenShape | src/tokens.rs:44-66 | the end token of line l has kind Eof, an empty lexeme, no literal and line l, and displays as `Eof  None` |
| TokenTypes.KindsAreEnumerated | src/token_type.rs:3-59 | helper, one unfolding step: the enum has exactly 44 kinds, each at its own position of the list of all kinds |
| TokenTypes.OrdinalOfPosition | src/token_type.rs:3-59 | helper, one unfolding step: the position of a kind in the enum reads back the kind |
| TokenTypes.AllKindsDistinct | src/token_type.rs:3-59 | no kind appears twice in the enum |
| TokenTypes.GroupOfPosition | src/token_type.rs:3-59 | the kind groups are consecutive stretches of the enum: 13 single-character kinds, 8 one-or-two-character kinds, 3 literal kinds, 18 keywords, then Eof and Unknown |
| TokenTypeDisplay.DisplayReadsBack | src/token_type.rs:61-114 | every kind except LeftParen is recovered from its display; LeftParen reads back as RightParen |
| TokenTypeDisplay.DisplayCollidesOnlyOnParens | src/token_type.rs:67-68 | two kinds display alike if and only if they are equal or are the two parentheses |
| Lexicon.DisplayQuotesSpelling | src/token_type.rs:67-108 | an operator, punctuation or keyword kind displays as its scanned spelling in single quotes, except LeftParen, Nil (bare `nil`) and Let (`'Let'`) |
| Lexicon.SingleCharTable | src/scanner.rs:177-188 | a character yields a kind in the single-character table if and only if the kind is a single-character kind spelled by that character, Slash excepted |
| Lexicon.OperatorTable | src/scanner.rs:191-206 | `!`, `=`, `<` and `>` yield a one-character kind spelled by that character and a two-character kind spelled with a trailing `=` |
| Lexicon.OperatorTableCovers | src/scanner.rs:191-206 | every one-or-two-character kind is reached from its first character |
| Lexicon.KeywordTable | src/scanner.rs:144-166 | a word is mapped to kind k if and only if k is one of the 18 keywords and the word is its spelling |
| Ast.AcceptUsesOwnHandler | ast-printer/src/expr.rs:11-20 | `eccept` calls the handler of the node's own kind with the node's fields and returns its result unchanged, so it consults no other handler |
| ScanSpec.Span | src/scanner.rs:66-71 | the run of characters a scanning loop skips is the maximal run satisfying its test |
| ScanSpec.NumberEnd | src/scanner.rs:85-97 | the end of a number lies between its start and the end of the source |
| ScanSpec.ScanTokenAt | src/scanner.rs:168-216 | one `scan_token` step consumes at least one character, never yields Eof, and panics only in the version as written |
| ScanLaws.NewlinesCounts | src/scanner.rs:66-70 | the line count added over a text is the number of `\n` characters in it |
| ScanLaws.StepLines | src/scanner.rs:65-83 | after one step, `line` has grown by exactly the number of newlines consumed |
| ScanLaws.ScanFromNext | src/scanner.rs:26-32 | one successful turn of the loop moves the cursor forward, adds the newlines read to `line`, and pushes at most one token, which is neither Eof nor Unknown |
| ScanLaws.ScanFromKeepsPushed | src/scanner.rs:25-37 | the scanning loop only appends to the tokens already pushed |
| ScanLaws.ScanFromEofLine | src/scanner.rs:25-37 | a successful loop ends with the Eof token carrying the starting line plus the newlines of the rest of the source |
| ScanLaws.ScanFromKinds | src/scanner.rs:25-37 | no token the loop pushes before Eof is Eof or Unknown |
| ScanLaws.LineAtEnd | src/scanner.rs:25-37 | when the loop reaches the end of the source, `line` has grown by exactly the newlines read since it started |
| ScanLaws.ScanEndsWithEof | src/scanner.rs:25-37 | a successful scan ends in exactly one Eof token, on line 1 plus the number of newlines in the source |
| ScanLaws.OperatorLexing | src/scanner.rs:56-63 | helper, one unfolding step: an operator followed by `=` yields its two-character kind and consumes two characters; otherwise it yields its one-character kind, except that at the end of input the version as written panics |
| ScanLaws.StringLexing | src/scanner.rs:65-83 | a string succeeds if and only if a closing quote follows; its value is the text strictly between the quotes; otherwise the error is "Unterminated string" |
| ScanLaws.NumberStep | src/scanner.rs:85-104 | helper, one unfolding step: a digit yields a Number whose value is the text up to the end of the number |
| ScanLaws.NumberEndShape | src/scanner.rs:85-97 | a number is a digit run with at most one `.` followed by digits, and is maximal: `.` is taken only when a digit follows |
| ScanLaws.WordLexing | src/scanner.rs:131-166 | a word is a maximal run of word characters and is a keyword kind exactly when it spells one, else Identifier; as written, `_` at the start panics and `_` inside ends the word |
| ScanLaws.CommentLexing | src/scanner.rs:106-115 | `//` emits nothing and skips up to, not including, the next newline |
| ScanLaws.SilentLexing | src/scanner.rs:171-175 | a step emits no token if and only if it reads whitespace, a newline or a comment |
| ScanLaws.StepFailures | src/scanner.rs:209-214 | each failure occurs exactly on its input: an unrecognised character, an unclosed string, or (as written) `_` or a final operator or `/` |
| ScanLaws.CorrectedNeverPanics | src/scanner.rs:25-37 | the corrected scanning loop never panics |
| ScanLaws.SpanAgrees | src/scanner.rs:131-134 | two run tests that agree on a run and on the character after it give the same run |
| ScanLaws.StepAgrees | src/scanner.rs:131-134 | a step that succeeds as written and is not followed by `_` is the same in the corrected scanner |
| ScanLaws.StepFailureAgrees | src/scanner.rs:209-214 | a step that fails as written without panicking (an unexpected character or an unclosed string) fails the same way when corrected |
| ScanLaws.CorrectedAgreesFrom | src/scanner.rs:25-37 | wherever the loop as written does not panic, the corrected loop gives the same tokens or the same error |
| ScanLaws.ScanFromStep | src/scanner.rs:26-33 | helper, one unfolding step: one loop iteration pushes the step's token unless it is Unknown |
| ScanLaws.ScanFromEnd | src/scanner.rs:35-36 | helper, one unfolding step: at the end of input the loop pushes Eof on the current line |
| ScanLaws.TrailingDotExample | src/scanner.rs:91 | `123.` scans as Number `123`, Dot, Eof |
| ScanLaws.MultilineStringExample | src/scanner.rs:66-70 | a string that spans a newline is one token on line 2, and Eof is on line 2 |
| ScanLaws.OperatorAtEndExample | src/scanner.rs:57 | the source `!` panics as written and scans as Bang, Eof when corrected |
| ScanLaws.UnderscoreExample | src/scanner.rs:132 | the source `a_b` panics as written and scans as one Identifier when corrected |
| ScanLaws.CorrectedScanNeverPanics | src/scanner.rs:25-37 | the corrected scanner never panics |
| ScanLaws.CorrectedScanAgrees | src/scanner.rs:25-37 | wherever the scanner as written does not panic, the corrected one gives the same tokens or the same error |
| Scanning.Scanner.constructor | src/scanner.rs:16-24 | a new scanner has no tokens, `start` and `current` 0 and `line` 1 |
| Scanning.Scanner.Peek | src/scanner.rs:124-129 | the current character, or `'\0'` at the end |
| Scanning.Scanner.PeekNext | src/scanner.rs:117-122 | the character after the current one, or `'\0'` past the end |
| Scanning.Scanner.Advance | src/scanner.rs:43-47 | returns the current character and moves on by one |
| Scanning.Scanner.AddToken | src/scanner.rs:49-54 | appends a token whose lexeme is exactly `source[start..current]`, on the current line |
| Scanning.Scanner.IsMatch | src/scanner.rs:56-63 | consumes the expected character if it is next; at the end of input it panics as written and fails when corrected |
| Scanning.Scanner.SkipToQuote | src/scanner.rs:66-71 | stops at the first quote at or after the cursor (or at the end of input), having added to `line` exactly the newlines it passed |
| Scanning.Scanner.String | src/scanner.rs:65-83 | consumes up to and including the closing quote, counting newlines, and returns the text between the quotes, or "Unterminated string" |
| Scanning.Scanner.Number | src/scanner.rs:85-104 | consumes exactly to the end of the number and returns its text |
| Scanning.Scanner.Divider | src/scanner.rs:106-115 | a second `/` skips to the end of the line and yields Unknown; otherwise the result is Slash; at the end of input it panics as written |
| Scanning.Scanner.Identifier | src/scanner.rs:131-141 | consumes the word and returns its keyword kind or Identifier; as written, a word starting with `_` panics |
| Scanning.Scanner.ScanToken | src/scanner.rs:168-216 | one step has exactly the outcome, cursor and line of the reference step |
| Scanning.Scanner.ScanTokens | src/scanner.rs:25-37 | the loop returns the reference scan from the current state, leaves it in `tokens`, and never moves `start` or `current` back; on success `current` is at the end of the source and `line` has grown by the newlines read |
| Scanning.Tokenize | src/scanner.rs:16-37 | a new scanner's `scan_tokens` is the reference scan of the source |
| ParseSpec.AdvancePos | src/perser.rs:203-209 | `advance` moves the cursor by at most one |
| ParseSpec.MatchMoves | src/perser.rs:181-209 | a kind list without Eof matches only with the corrected `check`, only on a token of one of those kinds, and the cursor then moves by one |
| ParseSpec.Operators | src/perser.rs:20-87 | no level's operator set contains Eof |
| ParseSpec.ParseExpression | src/perser.rs:16-18 | a successful parse consumes at least one token and stops before the end of the list |
| ParseSpec.ParseLevel | src/perser.rs:20-87 | a successful binary level consumes at least one token and stays in bounds |
| ParseSpec.ParseOperand | src/perser.rs:21-25 | a successful operand consumes at least one token and stays in bounds |
| ParseSpec.ParseLoop | src/perser.rs:23-31 | the operator loop never moves the cursor back and stays in bounds |
| ParseSpec.ParseUnary | src/perser.rs:89-105 | a successful `unary` consumes at least one token and stays in bounds |
| ParseSpec.ParsePrimary | src/perser.rs:107-143 | a successful `primary` consumes at least one token and stays in bounds |
| ParseLaws.MatchesByRule | src/perser.rs:191-197 | as written, `is_match` succeeds exactly at Eof on a list holding Eof; corrected, exactly on a non-Eof token of a listed kind |
| ParseLaws.AsWrittenPrimaryFails | src/perser.rs:107-143 | as written, `primary` always fails with "Unknown token type" |
| ParseLaws.AsWrittenUnaryFails | src/perser.rs:89-105 | as written, `unary` always fails with "Unknown token type" |
| ParseLaws.AsWrittenLevelFails | src/perser.rs:20-87 | as written, every binary level always fails with "Unknown token type" |
| ParseLaws.AsWrittenExpressionFails | src/perser.rs:16-143 | as written, `expression` fails with "Unknown token type" on every token list |
| ParseLaws.LoopFoldsLeft | src/perser.rs:23-31 | the operator loop stops where no operator of the level matches, and its result is the expression it started with, folded on the left: each Binary node's operator is a matched token, its left side ends at that token, and its right side is exactly the operand parsed after it |
| ParseLaws.LeftFoldPrepend | src/perser.rs:23-31 | a fold that starts with one turn of the loop is a fold over the expression before that turn |
| ParseLaws.FoldDetermined | src/perser.rs:23-31 | a fold's tree and end are fixed by its start and its operator positions, so a fold is left-leaning and no other tree fits |
| ParseLaws.LevelFoldsLeft | src/perser.rs:20-87 | every binary level's result is its first operand with the matched operators and the operands parsed after them folded on from the left, ending where no operator of the level matches |
| ParseLaws.PrimaryByKind | src/perser.rs:107-143 | with the corrected `check`, `false` gives literal true, `true` and `nil` give nil, a number or string gives its literal, and `(` demands `)` next and returns the following expression, else "Expect ')' after expression." |
| ParseLaws.UnaryByKind | src/perser.rs:89-105 | with the corrected `check`, `!` or `-` builds Unary over a `term`, and anything else falls through to `primary` |
| ParseLaws.LevelNoGrouping | src/perser.rs:20-87 | no parsed binary level contains a Grouping node |
| ParseLaws.OperandNoGrouping | src/perser.rs:21-25 | no parsed operand contains a Grouping node |
| ParseLaws.LoopNoGrouping | src/perser.rs:23-31 | the operator loop adds no Grouping node |
| ParseLaws.UnaryNoGrouping | src/perser.rs:89-105 | no parsed unary contains a Grouping node |
| ParseLaws.PrimaryNoGrouping | src/perser.rs:131-134 | parentheses build no Grouping node |
| ParseLaws.ExpressionNoGrouping | src/perser.rs:16-143 | the parser never builds a Grouping node |
| ParseLaws.LoopByKind | src/perser.rs:23-31 | with the corrected `check`, the loop continues exactly when the next token is one of the level's operators |
| ParseLaws.LiteralAt | src/perser.rs:127-130 | with the corrected `check`, a number token is a unary operand that is its own literal |
| ParseLaws.NumberFactor | src/perser.rs:73-87 | with the corrected `check`, a number token not followed by `*` or `/` is a whole factor, its own literal |
| ParseLaws.ProductPart | src/perser.rs:73-87 | `2 * 3` is one factor |
| ParseLaws.SumPart | src/perser.rs:57-71 | `1 + 2 * 3` is one term, with the product as the right operand |
| ParseLaws.PrecedenceExample | src/perser.rs:16-87 | with the corrected `check`, `1 + 2 * 3` parses as `1 + (2 * 3)` |
| ParseLaws.DifferenceOperands | src/perser.rs:73-87 | each number of `8 - 4 - 2` is a factor on its own, because `-` is not a factor operator |
| ParseLaws.DifferencePart | src/perser.rs:57-71 | `8 - 4 - 2` is one term whose left operand is `8 - 4` |
| ParseLaws.DifferenceExample | src/perser.rs:16-87 | with the corrected `check`, `8 - 4 - 2` parses as `(8 - 4) - 2` |
| ParseLaws.NegatedSumOperand | src/perser.rs:57-71 | with the corrected `check`, the operand of `-` in `-1 + 2` is the term `1 + 2` |
| ParseLaws.NegatedSumExample | src/perser.rs:89-105 | with the corrected `check`, `-1 + 2` parses as `-(1 + 2)`, because `unary` parses its operand with `term` |
| Parsing.Perser.constructor | src/perser.rs:12-14 | a new parser starts at token 0 of a list ending in Eof |
| Parsing.Perser.Peek | src/perser.rs:211-213 | the token under the cursor |
| Parsing.Perser.Previous | src/perser.rs:215-217 | the token before the cursor |
| Parsing.Perser.IsAtEnd | src/perser.rs:199-201 | whether the token under the cursor is Eof |
| Parsing.Perser.Check | src/perser.rs:191-197 | the reference `check`: as written, false on every token but Eof |
| Parsing.Perser.Advance | src/perser.rs:203-209 | moves on unless at Eof, so the cursor stays in bounds, and returns the token before the cursor |
| Parsing.Perser.IsMatch | src/perser.rs:181-189 | tries the kinds in order, is true exactly when one matches, and advances only then |
| Parsing.Perser.Consume | src/perser.rs:145-151 | advances and returns the token only when `check` accepts it; otherwise changes nothing |
| Parsing.Perser.Synchronize | src/perser.rs:157-179 | after `;` it stays put; otherwise it stops at the first statement keyword or at Eof, never passing Eof, and skips only other tokens |
| Parsing.Perser.Expression | src/perser.rs:16-18 | the result and final cursor of the reference parse; as written, the cursor is unchanged |
| Parsing.Perser.BinaryLevel | src/perser.rs:20-87 | `equality`, `comparison`, `term` and `factor` give the reference level's result and cursor |
| Parsing.Perser.OperatorLoop | src/perser.rs:23-31 | the level's `while` loop gives the reference loop's result and cursor |
| Parsing.Perser.LoopTurn | src/perser.rs:24-30 | one turn of the loop, after an operator matched: the operator is the matched token, and the result is the operand's error or the `Binary` of the expression so far, the operator and the operand, with the cursor after the operand |
| Parsing.Perser.Operand | src/perser.rs:21-25 | the next tighter level gives the reference operand's result and cursor |
| Parsing.Perser.Unary | src/perser.rs:89-105 | the reference `unary`'s result and cursor |
| Parsing.Perser.Primary | src/perser.rs:107-143 | the reference `primary`'s result and cursor |
| Printer.Print | src/printer.rs:10-12 | `print` never fails and returns the prefix rendering of the tree |
| Printer.VisitBinary | src/printer.rs:26-28 | a Binary node renders as `(op left right)` |
| Printer.VisitGrouping | src/printer.rs:30-32 | a Grouping node renders as `(group inner)` |
| Printer.VisitLiteral | src/printer.rs:33-39 | a literal renders as its value's display, or `nil` when absent |
| Printer.VisitUnary | src/printer.rs:40-42 | a Unary node renders as `(op right)` |
| Printer.Parenthesize | src/printer.rs:14-22 | `(`, the name, each child's rendering preceded by one space in order, then `)` |
| Printer.Build | src/printer.rs:16-19 | the `for` loop appends each child's rendering after a space, then the closing `)` |
| Printer.PrintIsAccept | ast-printer/src/main.rs:14-16 | `print` is `eccept` with the printer's four handlers |
| Printer.SampleRendering | ast-printer/src/main.rs:49-77 | the sample tree renders as `(* (- 123) (group 45.67))` |
| Printer.FlatBalanced | src/printer.rs:14-22 | text without parentheses is balanced and opens none |
| Printer.ConcatBalanced | src/printer.rs:14-22 | joining balanced texts stays balanced and adds up their opening parentheses |
| Printer.WrapBalanced | src/printer.rs:14-22 | `(name body)` with a balanced body is balanced and opens one more |
| Printer.BinaryBalanced | src/printer.rs:26-28 | a Binary node adds one balanced pair |
| Printer.GroupingBalanced | src/printer.rs:30-32 | a Grouping node adds one balanced pair |
| Printer.UnaryBalanced | src/printer.rs:40-42 | a Unary node adds one balanced pair |
| Printer.RenderBalanced | src/printer.rs:14-43 | when no lexeme or literal has a parenthesis, the rendering is balanced with one pair per Binary, Grouping or Unary node |
| Driver.Run | src/main.rs:69-83 | `run` scans, parses and prints exactly as the composition of the reference stages |
| Driver.AsWrittenPrintsNothing | src/main.rs:69-83 | as written, `run` never prints a tree |
| Driver.CorrectedNeverPanics | src/main.rs:69-83 | with both corrections, `run` never panics |
| Driver.NegatedSumScan | src/scanner.rs:25-37 | `-1+2` scans as Minus, Number 1, Plus, Number 2, Eof |
| Driver.NegatedSumText | src/printer.rs:14-42 | the tree `-(1 + 2)` renders as `(- (+ 1 2))` |
| Driver.NegatedSumRun | src/main.rs:69-83 | corrected, `run` on `-1+2` prints `(- (+ 1 2))` after its banner |

## Left out

- **Floating point.** `Object::Num` holds an `f64` that the scanner parses and `Display` prints. The model keeps the number's text instead. The float conversion and its rounding are not modelled. The "Unable to parse number" error is not modelled either, since the scanned text always parses.
- **I/O.** Not modelled:
  - the command line, file reading, the REPL and `process::exit` in src/main.rs;
  - `LoxError::report`, which writes to stderr;
  - the two code generators, which write Rust source to files.
- **The `println!` in `run`.** It is modelled by the text it would write; `Driver.RunSpec` holds that text.
- **Error lines.** Every `LoxError` built by the scanner and the parser has no line, because each caller passes `None`.
- **Snapshot mismatches.** The source does not compile as one crate. The model takes a single `Token` whose fields are kind, lexeme, literal and line, and reads `is(k)` as kind equality. `Token::new` is the datatype constructor.
- **`Perser::parse`.** It is called by `run` but not defined. `Driver` takes it to be `expression`, with a failure giving no tree. Tokens after the first expression are therefore ignored: with the corrected `check`, `1 2` prints `1`.
- **`Perser::error`.** It only wraps `LoxError::error`, which `Errors.ErrorAt` models.
- **Escape sequences in strings.** The source does not implement them.
- **Generic visitors.** The visitor trait is modelled as a record of four handlers (`Ast.ExprVisitor`). Only the printer's visitor exists in the source.
- **`ast-printer/src/main.rs` printer.** Its `AstPrinter` has the same rendering as the printer of src/printer.rs. The two differ only in visibility (`pub fn` or `fn`) and in the type of the child slice (`&[&Expr]` or `&[&Box<Expr>]`, passed as `&[..]` or `&vec![..]`). So one model, `Printer`, covers both, and both printers agree on every tree.
- Parsing.Perser.Previous: requires `current >= 1`, because at 0 the source's `current - 1` underflows and panics.
- Scanning.Scanner.ScanTokens: after a failure it states only the returned error and the cursor's monotonicity, not the other fields, because `?` abandons the scanner in the source.
- Parsing.Perser.Expression: on a failed parse with the corrected `check` it states only the returned error, not where the cursor stopped, because the source discards the parser. The same holds for `BinaryLevel`, `OperatorLoop`, `LoopTurn`, `Operand`, `Unary` and `Primary`.

## Findings

| source | as written | input that shows it | evidently intended | confidence | as-written member | corrected member |
|---|---|---|---|---|---|---|
| src/perser.rs:191-197 | `check` returns false unless the current token is Eof, so no grammar token ever matches | any token list, e.g. `1 + 2 * 3` | return false at Eof, otherwise compare the kind | not executed | ParseLaws.AsWrittenExpressionFails | ParseLaws.PrecedenceExample |
| src/scanner.rs:57 | `is_match` indexes `source[current]` before testing for the end | the source `!` (also a final `=`, `<`, `>` or `/`) | test for the end first and report no match | not executed | ScanLaws.OperatorAtEndExample | ScanLaws.CorrectedScanNeverPanics |
| src/scanner.rs:132 | the identifier loop tests the first character `c` for `_` instead of the next one | the source `a_b`: `_` stops the word, then the word starting at `_` runs past the end | continue while the next character is alphanumeric or `_` | not executed | ScanLaws.UnderscoreExample | ScanLaws.WordLexing |
