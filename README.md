# Lox: scanner, error reporting, AST printer and test runner, in Dafny

This project models the core of the Lox tree-walking interpreter (JLox)
and of the Rust test runner that checks Lox interpreters against the
expectation comments in `.lox` test files.

- **Scanner** (`lexing.dfy`, `scanner.dfy`). `lexing.dfy` states the scanning
  rules of `Scanner.java` as functions: one `scanToken` call (`ScanStep`) and
  the whole `scanTokens` loop (`Lex`, `ScanAll`). `scanner.dfy` holds the
  `Scanner` class itself: a cursor (`start`, `current`), a line counter and a
  token list, updated in place by `advance`, `match`, `addToken`,
  `identifier`, `number`, `string` and the comment loops. Each method is
  proved to compute exactly what the rules say. The lemmas state what the
  rules guarantee:
  - one EOF token, last;
  - line numbers equal to one plus the newlines before them;
  - tokens that are the source slices they came from, in order;
  - the keyword table;
  - number and string lexemes;
  - nested block comments;
  - the two "Unterminated" errors.

  The token kinds are those `Scanner.java` assigns, including its unusual
  ones: `}` gives RIGHT_PAREN, a bare `!` gives EQUAL, and `<` and `>` give
  GREATER and LESS.
- **Error reporting** (`errors.dfy`). This is the static state of `Lox.java`:
  the `hadError` and `hadRuntimeError` flags and the diagnostics printed on
  standard error. It covers `report`, both `error` overloads, `runtimeError`,
  and the exit status `runFile` derives from the flags (65, then 70).
- **The run gate** (`driver.dfy`). `run` scans, parses, resolves and
  interprets, and stops after parsing or after resolving when `hadError` is
  set. The parser, resolver and interpreter are function parameters.
- **The REPL's continuation heuristic** (`prompt.dfy`): `needsMultipleLines`.
- **The AST printer** (`printer.dfy`): the Lisp-style rendering of
  `ASTPrinter.java`, with its sample expression.
- **The test runner** (`runner_rules.dfy`, `runner.dfy`).
  - `runner_rules.dfy` states its rules as functions:
    - the state a test path gets from its suite;
    - what the expectation comments promise, including the exit code (the
      last 65/70 wins);
    - which failures the output, exit-code and compile-error comparisons
      record.
  - `runner.dfy` holds the `Test` and `RunnerState` structures as classes
    whose methods update their fields in place, proved against those
    functions.

Regular-expression matching is represented by classified lines. A test file
line is a `LineKind`, and a stderr line is a `StderrLine`; each stands for
the first pattern that matched, tried in the runner's order.

## Model

| member | source | states |
|---|---|---|
| Text.Trim | JLox/lox/Lox.java:185 | the trimmed line is a slice of the input; every character dropped before or after it is at or below a space, and the slice neither starts nor ends with one |
| Text.TrimStart | JLox/lox/Lox.java:185 | the leading part dropped is all characters at or below a space, and what remains does not start with one |
| Text.TrimEnd | JLox/lox/Lox.java:185 | the trailing part dropped is all characters at or below a space, and what remains does not end with one |
| Text.TrimIdempotent | JLox/lox/Lox.java:185 | trimming an already trimmed line changes nothing |
| Text.IntToString | JLox/lox/Lox.java:291 | an int is printed with a leading '-' exactly when it is negative, followed by decimal digits that read back to its magnitude and start with '0' only for zero |
| Text.ParseNatToString | test-runner/src/main.rs:458 | a printed line number reads back as the same number |
| Text.SplitPieces | test-runner/src/main.rs:390 | splitting on '/' gives one more piece than there are separators, and no piece holds a separator |
| Text.JoinSplit | test-runner/src/main.rs:390-407 | joining the pieces of a split with the separator gives back the original path |
| Lexing.KeywordTable | JLox/lox/Scanner.java:13-32 | every word gets IDENTIFIER or a keyword kind; only identifier-shaped words get keyword kinds, and no two distinct words share one |
| Lexing.RunEnd | JLox/lox/Scanner.java:92-94 | a `while (p(peek()) && !isAtEnd()) advance()` loop stops at the first character outside the run, or at the end |
| Lexing.BlockComment | JLox/lox/Scanner.java:98-113 | the nesting loop ends at the end of the source, or at depth 0 just after a `*/` |
| Lexing.BlockCommentNewlines | JLox/lox/Scanner.java:110 | the comment loop counts exactly the newlines it skips |
| Lexing.ScanStep | JLox/lox/Scanner.java:63-144 | each `scanToken` call consumes at least one character and stays within the source |
| Lexing.ScanAll | JLox/lox/Scanner.java:51-60 | `scanTokens` returns exactly one EOF token, last, with an empty lexeme, on line one plus the number of newlines |
| Lexing.StepLine | JLox/lox/Scanner.java:63-144 | the line after a `scanToken` call is the line before it plus the newlines it consumed |
| Lexing.SlashLine | JLox/lox/Scanner.java:89-123 | the same for the slash and comment branch |
| Lexing.StringLine | JLox/lox/Scanner.java:186-207 | the same for a string literal, newlines inside the string included |
| Lexing.NumberLine | JLox/lox/Scanner.java:165-183 | a number lexeme holds no newline |
| Lexing.LexLine | JLox/lox/Scanner.java:51-60 | after the loop the line is the start line plus all the newlines that follow the start |
| Lexing.StepKind | JLox/lox/Scanner.java:63-144 | no `scanToken` call emits EOF, BANG or RIGHT_BRACE |
| Lexing.WordKindIsWord | JLox/lox/Scanner.java:153-159 | a word's kind is a word kind, never EOF, BANG or RIGHT_BRACE |
| Lexing.LexKinds | JLox/lox/Scanner.java:51-60 | no token before the final EOF has kind EOF, BANG or RIGHT_BRACE |
| Lexing.LexTokens | JLox/lox/Scanner.java:51-60 | every token is the source slice its `scanToken` call consumed, with that call's kind and literal, on the line reached at the end of the slice; the slices are in source order and do not overlap |
| Lexing.ProducedAtEarlier | JLox/lox/Scanner.java:51-60 | a token produced from a later cursor is described the same way from an earlier one |
| Lexing.LexTokensHead | JLox/lox/Scanner.java:51-56 | a call that emits a token contributes the first token, whose span starts at the cursor |
| Lexing.StepWord | JLox/lox/Scanner.java:137-138 | a word kind is emitted exactly when the first character is a letter or `_`; the lexeme is then the longest identifier run, with the keyword-table kind, on the same line |
| Lexing.WordLexeme | JLox/lox/Scanner.java:147-162 | `identifier` consumes a maximal identifier-shaped lexeme and gives it a word kind |
| Lexing.OtherKinds | JLox/lox/Scanner.java:66-142 | only a letter or `_` gives a word kind, only a digit gives NUMBER, and only a quote gives STRING |
| Lexing.StepNumber | JLox/lox/Scanner.java:135-136 | NUMBER is emitted exactly when the first character is a digit; the lexeme is digits with at most one inner dot; a dot not followed by a digit is left for a DOT token |
| Lexing.NumberLexeme | JLox/lox/Scanner.java:165-183 | `number` consumes digits, then a dot and more digits only when a digit follows the dot |
| Lexing.StepString | JLox/lox/Scanner.java:186-207 | a string runs to the next quote, and its literal is the text between the quotes; without a closing quote the scan reaches the end and reports "Unterminated string." |
| Lexing.StepComment | JLox/lox/Scanner.java:89-119 | `//` skips to the newline without consuming it; `/*` skips to its matching `*/`, or to the end with "Unterminated multi-line comment."; neither emits a token |
| Lexing.StepBlank | JLox/lox/Scanner.java:124-132 | a blank is skipped; a newline is skipped and increments the line |
| Lexing.StepUnexpected | JLox/lox/Scanner.java:139-141 | any other character is consumed and reports "Unexpected character." |
| Lexing.StepOperator | JLox/lox/Scanner.java:70-88 | `}` gives RIGHT_PAREN; `!`, `=`, `<` and `>` take a following `=` exactly when there is one, giving the kinds the switch assigns |
| Lexing.LexUnterminated | JLox/lox/Scanner.java:116-198 | after an unterminated string or comment, no token follows and the error is the last one |
| Scanning.Diagnoses | JLox/lox/Lox.java:285-287 | one printed diagnostic per scan error |
| Scanning.DiagnosesAppend | JLox/lox/Scanner.java:51-60 | diagnostics of consecutive errors print in order |
| Scanning.DiagnosesAt | JLox/lox/Lox.java:285-293 | each scan error prints `[line N] Error: message` |
| Scanning.Scanner.constructor | JLox/lox/Scanner.java:35-48 | a new scanner has no tokens, both cursors at 0, and line 1 |
| Scanning.Scanner.ScanTokens | JLox/lox/Scanner.java:51-60 | the returned list is the tokens the rules give plus a final EOF on the last line; one diagnostic per scan error is printed; `hadError` is set exactly when there was one |
| Scanning.Scanner.ScanLexemes | JLox/lox/Scanner.java:52-56 | the loop appends the rules' tokens and prints their errors |
| Scanning.Scanner.ScanToken | JLox/lox/Scanner.java:63-144 | one call does exactly what `ScanStep` says to the cursor, the line, the tokens and the error state |
| Scanning.Scanner.Slash | JLox/lox/Scanner.java:89-123 | the slash branch as the rules say |
| Scanning.Scanner.SkipLineComment | JLox/lox/Scanner.java:92-94 | the cursor moves to the newline or the end |
| Scanning.Scanner.SkipNestedComment | JLox/lox/Scanner.java:98-118 | the cursor and line move as `BlockComment` says, and the error is printed exactly when the comment is left open |
| Scanning.Scanner.CommentStep | JLox/lox/Scanner.java:101-112 | one turn of the nesting loop preserves where the comment ends, its depth and its newline count |
| Scanning.Scanner.ScanString | JLox/lox/Scanner.java:186-207 | the string branch as the rules say |
| Scanning.Scanner.SkipStringBody | JLox/lox/Scanner.java:187-193 | the cursor moves to the closing quote or the end, counting newlines |
| Scanning.Scanner.Number | JLox/lox/Scanner.java:165-183 | the number branch as the rules say |
| Scanning.Scanner.SkipDigits | JLox/lox/Scanner.java:167-179 | the cursor moves past a run of digits |
| Scanning.Scanner.Identifier | JLox/lox/Scanner.java:147-162 | the identifier branch as the rules say |
| Scanning.Scanner.Peek | JLox/lox/Scanner.java:210-216 | the current character, or '\0' at the end |
| Scanning.Scanner.PeekNext | JLox/lox/Scanner.java:219-225 | the character after the current one, or '\0' past the end |
| Scanning.Scanner.Advance | JLox/lox/Scanner.java:260-262 | returns the current character and moves the cursor by one |
| Scanning.Scanner.Match | JLox/lox/Scanner.java:245-257 | consumes the expected character exactly when it is next |
| Scanning.Scanner.AddToken | JLox/lox/Scanner.java:265-273 | appends a token whose lexeme is the source from `start` to `current`, on the current line |
| ErrorReporting.ExitCode | JLox/lox/Lox.java:50-55 | the exit code is 65 exactly when `hadError` is set, 70 exactly when only `hadRuntimeError` is, and the process exits normally otherwise |
| ErrorReporting.ReadLineTag | JLox/lox/Lox.java:291 | a text read back as a line marker starts with `[line ` and has `]` before the rest |
| ErrorReporting.ReadReportText | JLox/lox/Lox.java:290-293 | a report line reads back to its line number and its ` Error<where>: message` text |
| ErrorReporting.ReadTagged | JLox/lox/Lox.java:291 | a line marker followed by any text reads back to that line and text |
| ErrorReporting.RuntimeErrorLines | JLox/lox/Lox.java:295-299 | a runtime error prints its message lines and then a final `[line N]` line that reads back to the token's line |
| ErrorReporting.WhereQuotes | JLox/lox/Lox.java:302-308 | the location is " at end" exactly for EOF, and otherwise the lexeme in quotes |
| ErrorReporting.Lox.constructor | JLox/lox/Lox.java:26-27 | both flags start clear and nothing is printed |
| ErrorReporting.Lox.Report | JLox/lox/Lox.java:290-293 | prints one compile error and sets `hadError`, leaving `hadRuntimeError` |
| ErrorReporting.Lox.Error | JLox/lox/Lox.java:285-287 | `error(line, message)` reports with an empty location |
| ErrorReporting.Lox.ErrorAt | JLox/lox/Lox.java:302-308 | `error(token, message)` reports at the token's line with its location |
| ErrorReporting.Lox.ReportRuntimeError | JLox/lox/Lox.java:295-299 | prints the runtime error and sets `hadRuntimeError`, leaving `hadError` |
| Driver.Located | JLox/lox/Lox.java:290-293 | one printed diagnostic per stage error, in order: the i-th is the compile error at the i-th error's token line, with that token's location and the error's message |
| Driver.LocatedAt | JLox/lox/Lox.java:290-293 | the i-th printed line is the `report` text `[line N] Error<where>: message` of the i-th stage error |
| Driver.ReportAll | JLox/lox/Lox.java:290-293 | a stage's errors are printed in order; `hadError` is set exactly when there was one |
| Driver.Run | JLox/lox/Lox.java:260-282 | the pipeline stops after parsing exactly when `hadError` was already set or the scanner or parser reported; it interprets exactly when no compile error was reported; it prints the scan, parse and resolve errors and any runtime error, in that order |
| Driver.RunFile | JLox/lox/Lox.java:46-56 | a file exits with 65 exactly when a compile error was reported, with 70 exactly when none was and the interpreter failed, and normally otherwise |
| Prompt.CountTo | JLox/lox/Lox.java:205-229 | an open string's delimiter is always a quote |
| Prompt.NeedsMultipleLines | JLox/lox/Lox.java:183-232 | the answer is true exactly when the trimmed line opens a declaration, opens a control statement, or leaves a brace, a parenthesis or a string open |
| Prompt.CountWithoutQuotes | JLox/lox/Lox.java:210-229 | without quotes, the counters are the `{` minus `}` and `(` minus `)` counts, and no string is open |
| Prompt.QuotedSpan | JLox/lox/Lox.java:213-228 | a complete quoted span leaves the counters as they were |
| Prompt.InsideString | JLox/lox/Lox.java:226-228 | inside a string, nothing but the matching quote changes the state |
| Prompt.EscapedQuote | JLox/lox/Lox.java:226 | a backslash before the delimiter keeps the string open |
| AstPrinter.Rendered | JLox/lox/ASTPrinter.java:21-57 | every compound node is rendered inside a pair of parentheses |
| AstPrinter.Parenthesized | JLox/lox/ASTPrinter.java:60-71 | `parenthesize` opens with `(` and closes with `)` |
| AstPrinter.Print | JLox/lox/ASTPrinter.java:21-23 | `print` returns the node's rendering |
| AstPrinter.Parenthesize | JLox/lox/ASTPrinter.java:60-71 | the builder loop produces `(name`, a space and each child's rendering, then `)` |
| AstPrinter.RenderBinary | JLox/lox/ASTPrinter.java:26-28 | a binary node renders as `(op left right)` |
| AstPrinter.RenderGrouping | JLox/lox/ASTPrinter.java:31-33 | a grouping renders as `(group inner)` |
| AstPrinter.RenderUnary | JLox/lox/ASTPrinter.java:45-47 | a unary node renders as `(op right)` |
| AstPrinter.RenderAssign | JLox/lox/ASTPrinter.java:55-57 | an assignment renders as `(assign name value)` |
| AstPrinter.ParenCount | JLox/lox/ASTPrinter.java:21-71 | when no operator, name or literal holds a parenthesis, the rendering has exactly one `(` and one `)` per compound node |
| AstPrinter.SampleRendering | JLox/lox/ASTPrinter.java:73-85 | the sample expression prints as `(* (- 123) (group 45.67))` |
| RunnerRules.Longest | test-runner/src/main.rs:398-407 | the lookup finds nothing exactly when no prefix is listed, and otherwise the state of the longest listed prefix |
| RunnerRules.StateOf | test-runner/src/main.rs:398-411 | the state is "run" unless some prefix of the path is listed; when one is, it is the state of the longest listed prefix |
| RunnerRules.PathIsLastCandidate | test-runner/src/main.rs:390-402 | for a relative path the candidates are its '/'-joined prefixes, the last being the path itself |
| RunnerRules.FirstNonTest | test-runner/src/main.rs:438-440 | parsing stops at the first `// nontest` line, or reads every line |
| RunnerRules.LastExitCodeWins | test-runner/src/main.rs:459-496 | the expected exit code is the one set by the last line that sets one: 65 for a compile error, 70 for a runtime error |
| RunnerRules.ExitCodeKept | test-runner/src/main.rs:383 | without such a line the exit code stays as it was |
| RunnerRules.ErrorsCollected | test-runner/src/main.rs:455-489 | the expected errors are the `[line N] Error...` keys of the error comments, language-specific ones only for the suite's language |
| RunnerRules.ErrorKeysStep | test-runner/src/main.rs:455-489 | one line adds at most its own key |
| RunnerRules.OutputsInOrder | test-runner/src/main.rs:443-452 | one expected output per `// expect:` line, in file order, each recording its own line number and text |
| RunnerRules.LastRuntimeErrorWins | test-runner/src/main.rs:492-499 | the last runtime-error comment decides the expected message and line |
| RunnerRules.ExitCodeAgrees | test-runner/src/main.rs:455-507 | the expected code is 0 exactly when nothing is expected; when a test does not expect both error kinds, 65 means compile errors and 70 a runtime error |
| RunnerRules.Raws | test-runner/src/main.rs:721-725 | one failure per listed line |
| RunnerRules.Outputs | test-runner/src/main.rs:689 | one expected text per expected output |
| RunnerRules.Mismatches | test-runner/src/main.rs:687-698 | at most one failure per compared line, and none exactly when every compared line matches |
| RunnerRules.MismatchesCover | test-runner/src/main.rs:687-698 | every compared position whose line differs gives its failure, with the expected text, its line and the line got |
| RunnerRules.MismatchesFrom | test-runner/src/main.rs:687-698 | every recorded failure comes from a compared position whose line differs |
| RunnerRules.MissingOutputs | test-runner/src/main.rs:700-707 | one failure per expected output left over |
| RunnerRules.OutputVerdict | test-runner/src/main.rs:674-715 | the output check records nothing exactly when the lines are the expected outputs |
| RunnerRules.OutputFailureCount | test-runner/src/main.rs:684-714 | mismatches, then one per missing output, then at most one extra line |
| RunnerRules.Display | test-runner/src/main.rs:659-665 | at most ten stderr lines are shown, plus a truncation marker |
| RunnerRules.ExitCodeVerdict | test-runner/src/main.rs:652-672 | nothing is recorded exactly when the codes agree (a missing code is -1); otherwise a header, the first ten stderr lines, and "(truncated...)" exactly when there were more |
| RunnerRules.TallyMeaning | test-runner/src/main.rs:611-638 | the found set is the expected keys that appear on stderr; the unexpected count is the unmatched non-empty lines and the unexpected syntax errors; two failures are recorded for each of the first ten |
| RunnerRules.SeenKeysStep | test-runner/src/main.rs:615-619 | each syntax-error line adds its own key |
| RunnerRules.UnexpectedAt | test-runner/src/main.rs:611-638 | lists one position per unexpected stderr line, each below the bound and holding an unexpected line |
| RunnerRules.UnexpectedAtInOrder | test-runner/src/main.rs:611-638 | the positions are increasing, so they follow stderr order, and every unexpected line among those read is listed |
| RunnerRules.TallyPair | test-runner/src/main.rs:623-635 | for each of the first ten unexpected lines, the m-th recorded pair is the header for that line's kind ("Unexpected error:" for a syntax error, "Unexpected output on stderr:" otherwise) followed by the whole line |
| RunnerRules.TallyReportsLines | test-runner/src/main.rs:623-635 | the same for every m at once: pairs `2m` and `2m+1` report the m-th unexpected line, with its kind's header and its whole text |
| RunnerRules.CompileVerdict | test-runner/src/main.rs:609-650 | the compile-error check records nothing exactly when stderr has no unexpected line and every expected error appears |
| RunnerRules.MissingOnce | test-runner/src/main.rs:645-649 | each expected error is reported missing at most once, and only expected errors are |
| TestRunner.RunnerState.constructor | test-runner/src/main.rs:64-70 | all counters start at zero |
| TestRunner.RunnerState.Skip | test-runner/src/main.rs:413-415 | a skipped test increments only the skipped counter |
| TestRunner.RunnerState.Expect | test-runner/src/main.rs:449-497 | an expectation increments only the expectation counter |
| TestRunner.RunnerState.Record | test-runner/src/main.rs:362-372 | a run test counts once: as passed without failures, as failed with some |
| TestRunner.Test.constructor | test-runner/src/main.rs:376-386 | a new test expects nothing, exit code 0, and has no failures |
| TestRunner.Test.Fail | test-runner/src/main.rs:717-719 | appends one failure |
| TestRunner.Test.FailList | test-runner/src/main.rs:721-725 | appends the lines as failures, in order |
| TestRunner.Test.FindState | test-runner/src/main.rs:390-407 | the loop finds the state of the longest listed prefix of the path |
| TestRunner.Test.ReadExpectations | test-runner/src/main.rs:434-500 | the loop reads lines up to the first `// nontest`, says whether it met one, and updates the expectations and the counter as the rules say |
| TestRunner.Test.Parse | test-runner/src/main.rs:388-510 | a skipped test only counts as skipped; otherwise the expectations are read, and the test runs exactly when no `// nontest` line was met and it does not expect both error kinds |
| TestRunner.Test.ValidateOutputLines | test-runner/src/main.rs:674-715 | after dropping one trailing empty line, the failures recorded are those `OutputFailures` gives |
| TestRunner.Test.CompareLines | test-runner/src/main.rs:684-698 | compares the common prefix and records each mismatch |
| TestRunner.Test.ReportMissingOutputs | test-runner/src/main.rs:700-707 | records each expected output left over |
| TestRunner.Test.ValidateExitCode | test-runner/src/main.rs:652-672 | records what `ExitCodeFailures` gives |
| TestRunner.Test.ValidateCompileErrors | test-runner/src/main.rs:609-650 | records the unexpected-line pairs and the truncation count, then one missing-error failure per expected error not found, in some order |
| TestRunner.Test.ReportMissing | test-runner/src/main.rs:644-649 | records one missing-error failure per expected error not found, in some order |

## Left out

- The parser, resolver and interpreter are not part of this model. `Driver.Run` takes them as function parameters. `Interpreter` and `Resolver` state across REPL runs is not modelled.
- Reading the script file, the REPL loop, its commands, the logo, help and screen clearing are console I/O and are left out. So are the reset of `hadError` after each REPL line and the usage exit 64.
- `Double.parseDouble` in `number()` is left out: a NUMBER token's literal carries its lexeme text.
- The AST printer's `Double.toString` and `Integer.toString` are not reproduced in full: a double literal carries the text it prints as, and an integer prints in plain decimal.
- Lexing.KeywordTable: the table is a `match` on the word, not a `HashMap`.
- The test runner's regular expressions are not modelled. Lines arrive classified as `LineKind` and `StderrLine`, and the captured texts arrive as fields.
- Reading a test file, "Failed to read file", spawning the interpreter and splitting its output into lines are I/O and are left out.
- `validate_runtime_error`, `validate_output`, `Test::run`, the suite table, the command line and the benchmark runner are not part of this model.
- The "TEST ERROR" lines printed for a test that expects both error kinds are console output. Only the outcome (the test does not run) is modelled.
- The `run_test` path filter and its printing of failures are console output and are left out. Only the counters are modelled.
- TestRunner.Test.ValidateCompileErrors: the order of the missing-error failures follows `HashSet` iteration, which is unspecified, so the contract states their multiset.
- TestRunner.RunnerState.Record: the `usize` counters are unbounded naturals, since overflow is not reachable in practice. The same holds for the `int` line counter of the scanner.
- Java strings are sequences of UTF-16 code units. The model works on Dafny `char` sequences, whose elements are Unicode scalar values. For `needsMultipleLines` this changes nothing, since no surrogate is a quote, a brace, a parenthesis or a character at or below a space.
- Scanning.Scanner.ScanTokens: for the scanner the difference is visible. A character outside the Basic Multilingual Plane (such as U+1F600) outside a string is two code units to `Scanner.java`, which reports "Unexpected character." once for each. The model reports it once. Likewise, cursor positions and lexeme lengths count scalar values, not code units. Inside strings and comments the two agree, because no surrogate is a quote, a slash, a star or a newline.
- CLox and the AST generator are not part of this model.
