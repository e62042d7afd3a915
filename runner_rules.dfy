/**
 * The rules of the test runner (`test-runner/src/main.rs`) as functions:
 * which state a test path gets from its suite, what the expectation
 * comments of a test file promise, and which failures each comparison
 * between those promises and an interpreter's output records.
 *
 * The runner matches lines against regular expressions; here each line
 * comes already classified (`LineKind` for a line of the test file,
 * `StderrLine` for a line the interpreter wrote to stderr), and a
 * classification stands for the first pattern that matched, in the order
 * the runner tries them.
 */
module RunnerRules {
  import opened Text

  /** One `// expect: ...` comment: its line in the test file and the output it promises. */
  datatype ExpectedOutput = ExpectedOutput(line: nat, output: string)

  /** The part of a suite the checks read: its language and the state of each listed path. */
  datatype Suite = Suite(language: string, tests: map<string, string>)

  // ---------------------------------------------------------------------
  // The state of a test path

  /**
   * The candidate key after the first `k` components of a path: the
   * components joined with '/', where a leading empty component adds no
   * separator (the runner only pushes '/' onto a non-empty key).
   */
  function Subpath(parts: seq<string>, k: nat): string
    requires k <= |parts|
  {
    if k == 0 then ""
    else
      var p := Subpath(parts, k - 1);
      (if |p| > 0 then p + ['/'] else p) + parts[k - 1]
  }

  /**
   * The state listed for the longest of the first `k` candidate keys, or
   * `None` when none of them is listed.
   */
  function Longest(parts: seq<string>, tests: map<string, string>, k: nat): (found: Option<string>)
    requires k <= |parts|
    ensures found.None? ==> forall j :: 1 <= j <= k ==> Subpath(parts, j) !in tests
    ensures (forall j :: 1 <= j <= k ==> Subpath(parts, j) !in tests) ==> found.None?
    ensures found.Some? ==>
      exists j :: 1 <= j <= k && Subpath(parts, j) in tests && found.value == tests[Subpath(parts, j)]
        && forall i :: j < i <= k ==> Subpath(parts, i) !in tests
  {
    if k == 0 then None
    else if Subpath(parts, k) in tests then Some(tests[Subpath(parts, k)])
    else Longest(parts, tests, k - 1)
  }

  /** The state of a test: the most specific listed prefix of its path, else "run". */
  function StateOf(path: string, suite: Suite): (state: string)
    ensures var parts := Split(path, '/');
      state == "run" || exists j :: 1 <= j <= |parts| && Subpath(parts, j) in suite.tests && state == suite.tests[Subpath(parts, j)]
    ensures var parts := Split(path, '/');
      (exists j :: 1 <= j <= |parts| && Subpath(parts, j) in suite.tests) ==>
        exists j :: 1 <= j <= |parts| && Subpath(parts, j) in suite.tests && state == suite.tests[Subpath(parts, j)]
          && forall i :: j < i <= |parts| ==> Subpath(parts, i) !in suite.tests
  {
    var parts := Split(path, '/');
    var found := Longest(parts, suite.tests, |parts|);
    assert found.Some? ==>
      exists j :: 1 <= j <= |parts| && Subpath(parts, j) in suite.tests && found.value == suite.tests[Subpath(parts, j)];
    if found.None? then "run" else found.value
  }

  /**
   * When the first component is not empty, the candidate keys are exactly
   * the first `k` components joined with '/'.
   */
  lemma {:induction false} SubpathJoin(parts: seq<string>, k: nat)
    requires 1 <= k <= |parts| && |parts[0]| > 0
    ensures Subpath(parts, k) == Join(parts[..k], '/')
    ensures |Subpath(parts, k)| > 0
  {
    if k == 1 {
      assert parts[..1] == [parts[0]];
    } else {
      SubpathJoin(parts, k - 1);
      assert parts[..k - 1] + [parts[k - 1]] == parts[..k];
      JoinSnoc(parts[..k - 1], '/', parts[k - 1]);
    }
  }

  /** A string that does not start with the separator has a non-empty first piece. */
  lemma {:induction false} SplitFirstPiece(s: string, sep: char)
    requires |s| > 0 && s[0] != sep
    ensures |Split(s, sep)[0]| > 0
  {
    var init := s[..|s| - 1];
    var c := s[|s| - 1];
    if |init| == 0 {
      assert Split(init, sep) == [""];
      SplitLastPiece(s, sep);
    } else {
      assert init[0] == s[0];
      SplitFirstPiece(init, sep);
      var rest := Split(init, sep);
      if c == sep {
        SplitLastSep(s, sep);
      } else {
        SplitLastPiece(s, sep);
      }
    }
  }

  /**
   * For a relative path the longest candidate key is the path itself, and
   * every candidate is a '/'-prefix of it.
   */
  lemma PathIsLastCandidate(path: string)
    requires |path| > 0 && path[0] != '/'
    ensures var parts := Split(path, '/');
      && Subpath(parts, |parts|) == path
      && forall k :: 1 <= k <= |parts| ==> Subpath(parts, k) == Join(parts[..k], '/')
  {
    var parts := Split(path, '/');
    SplitFirstPiece(path, '/');
    forall k | 1 <= k <= |parts|
      ensures Subpath(parts, k) == Join(parts[..k], '/')
    {
      SubpathJoin(parts, k);
    }
    assert parts[..|parts|] == parts;
    JoinSplit(path, '/');
  }

  // ---------------------------------------------------------------------
  // The expectation comments of a test file

  /**
   * A line of a test file, by the first pattern it matches: `// nontest`,
   * `// expect: `, `// Error...`, `// [java line N] Error...` (language
   * and line number as written), `// expect runtime error: `, or none.
   */
  datatype LineKind =
    | NonTest
    | ExpectOutput(output: string)
    | ExpectError(error: string)
    | ErrorLine(language: Option<string>, lineText: string, error: string)
    | ExpectRuntimeError(error: string)
    | Plain

  /** The text an expected or reported compile error is compared by: "[line N] Error...". */
  function ErrorKey(lineText: string, error: string): string {
    "[line " + lineText + "] " + error
  }

  /** An `ErrorLine` counts for a suite when it names no language, or the suite's own. */
  predicate LanguageMatches(language: Option<string>, suiteLanguage: string) {
    language.None? || |language.value| == 0 || language.value == suiteLanguage
  }

  /** What a test expects: the fields `parse` fills in. */
  datatype Expected = Expected(outputs: seq<ExpectedOutput>, errors: set<string>,
                               runtimeError: Option<string>, runtimeLine: nat, exitCode: int)

  /** The fields of a new test. */
  const NoExpectations := Expected([], {}, None, 0, 0)

  /** One turn of the parsing loop, for the line numbered `lineNum` (from 1). */
  function Absorb(e: Expected, kind: LineKind, lineNum: nat, language: string): Expected {
    match kind
    case ExpectOutput(output) => e.(outputs := e.outputs + [ExpectedOutput(lineNum, output)])
    case ExpectError(error) =>
      e.(errors := e.errors + {ErrorKey(NatToString(lineNum), error)}, exitCode := 65)
    case ErrorLine(lang, lineText, error) =>
      if LanguageMatches(lang, language) then
        e.(errors := e.errors + {ErrorKey(lineText, error)}, exitCode := 65)
      else e
    case ExpectRuntimeError(error) =>
      e.(runtimeLine := lineNum, runtimeError := Some(error), exitCode := 70)
    case _ => e
  }

  /** The expectations after the first `k` lines, starting from `start`. */
  function ExpectedFrom(start: Expected, lines: seq<LineKind>, k: nat, language: string): Expected
    requires k <= |lines|
  {
    if k == 0 then start
    else Absorb(ExpectedFrom(start, lines, k - 1, language), lines[k - 1], k, language)
  }

  /** The index of the first `// nontest` line, or the number of lines. */
  function FirstNonTest(lines: seq<LineKind>): (n: nat)
    ensures n <= |lines|
    ensures forall j :: 0 <= j < n ==> !lines[j].NonTest?
    ensures n < |lines| ==> lines[n].NonTest?
  {
    if |lines| == 0 then 0
    else if lines[0].NonTest? then 0
    else 1 + FirstNonTest(lines[1..])
  }

  /** A line that counts as an expectation (and adds one to the suite's count). */
  predicate IsExpectation(kind: LineKind, language: string) {
    kind.ExpectOutput? || kind.ExpectError? || kind.ExpectRuntimeError?
    || (kind.ErrorLine? && LanguageMatches(kind.language, language))
  }

  /** The number of expectation lines among the first `k`. */
  function Expectations(lines: seq<LineKind>, k: nat, language: string): nat
    requires k <= |lines|
  {
    if k == 0 then 0
    else Expectations(lines, k - 1, language) + (if IsExpectation(lines[k - 1], language) then 1 else 0)
  }

  /** A line that sets the expected exit code, and the code it sets. */
  predicate SetsExitCode(kind: LineKind, language: string) {
    IsExpectation(kind, language) && !kind.ExpectOutput?
  }

  function CodeOf(kind: LineKind): int {
    if kind.ExpectRuntimeError? then 70 else 65
  }

  /** The last line that sets the exit code decides it: 65 for a compile error, 70 for a runtime error. */
  lemma {:induction false} LastExitCodeWins(start: Expected, lines: seq<LineKind>, k: nat, language: string, j: nat)
    requires j < k <= |lines|
    requires SetsExitCode(lines[j], language)
    requires forall i :: j < i < k ==> !SetsExitCode(lines[i], language)
    ensures ExpectedFrom(start, lines, k, language).exitCode == CodeOf(lines[j])
  {
    if k > j + 1 {
      LastExitCodeWins(start, lines, k - 1, language, j);
    }
  }

  /** Without a line that sets it, the exit code stays as it was. */
  lemma {:induction false} ExitCodeKept(start: Expected, lines: seq<LineKind>, k: nat, language: string)
    requires k <= |lines|
    requires forall i :: 0 <= i < k ==> !SetsExitCode(lines[i], language)
    ensures ExpectedFrom(start, lines, k, language).exitCode == start.exitCode
  {
    if k > 0 {
      ExitCodeKept(start, lines, k - 1, language);
    }
  }

  /** The key a line adds to the expected compile errors, if any. */
  function KeyOf(kind: LineKind, lineNum: nat, language: string): Option<string> {
    match kind
    case ExpectError(error) => Some(ErrorKey(NatToString(lineNum), error))
    case ErrorLine(lang, lineText, error) =>
      if LanguageMatches(lang, language) then Some(ErrorKey(lineText, error)) else None
    case _ => None
  }

  /** The keys of all error lines among the first `k`. */
  function ErrorKeys(lines: seq<LineKind>, k: nat, language: string): set<string>
    requires k <= |lines|
  {
    set j | 0 <= j < k && KeyOf(lines[j], j + 1, language).Some? :: KeyOf(lines[j], j + 1, language).value
  }

  /** The expected compile errors are exactly the keys of the error lines (a set: repeats collapse). */
  lemma {:induction false} ErrorsCollected(start: Expected, lines: seq<LineKind>, k: nat, language: string)
    requires k <= |lines|
    ensures ExpectedFrom(start, lines, k, language).errors == start.errors + ErrorKeys(lines, k, language)
  {
    if k > 0 {
      ErrorsCollected(start, lines, k - 1, language);
      ErrorKeysStep(lines, k, language);
    }
  }

  lemma ErrorKeysStep(lines: seq<LineKind>, k: nat, language: string)
    requires 0 < k <= |lines|
    ensures var key := KeyOf(lines[k - 1], k, language);
      ErrorKeys(lines, k, language)
        == ErrorKeys(lines, k - 1, language) + (if key.Some? then {key.value} else {})
  {
  }

  /** The number of `// expect: ` lines among the first `k`. */
  function OutputLines(lines: seq<LineKind>, k: nat): nat
    requires k <= |lines|
  {
    if k == 0 then 0 else OutputLines(lines, k - 1) + (if lines[k - 1].ExpectOutput? then 1 else 0)
  }

  /**
   * The expected outputs are the `// expect: ` lines in file order, each
   * with its own line number and text.
   */
  lemma {:induction false} OutputsInOrder(start: Expected, lines: seq<LineKind>, k: nat, language: string)
    requires k <= |lines|
    requires forall i :: 0 <= i < |start.outputs| ==> start.outputs[i].line == 0
    ensures var outs := ExpectedFrom(start, lines, k, language).outputs;
      && |outs| == |start.outputs| + OutputLines(lines, k)
      && outs[..|start.outputs|] == start.outputs
      && (forall i :: |start.outputs| <= i < |outs| ==>
            1 <= outs[i].line <= k && lines[outs[i].line - 1] == ExpectOutput(outs[i].output))
      && (forall i, i' :: 0 <= i < i' < |outs| ==> outs[i].line < outs[i'].line || outs[i].line == 0)
  {
    if k > 0 {
      OutputsInOrder(start, lines, k - 1, language);
    }
  }

  /**
   * The last `// expect runtime error: ` line decides the expected runtime
   * error and its line.
   */
  lemma {:induction false} LastRuntimeErrorWins(start: Expected, lines: seq<LineKind>, k: nat, language: string, j: nat)
    requires j < k <= |lines|
    requires lines[j].ExpectRuntimeError?
    requires forall i :: j < i < k ==> !lines[i].ExpectRuntimeError?
    ensures var e := ExpectedFrom(start, lines, k, language);
      e.runtimeError == Some(lines[j].error) && e.runtimeLine == j + 1
  {
    if k > j + 1 {
      LastRuntimeErrorWins(start, lines, k - 1, language, j);
    }
  }

  /**
   * From a new test, the exit code and the two kinds of expected error
   * agree: 0 when nothing is expected to fail, and 65 exactly when compile
   * errors are expected once a test that expects both kinds is rejected.
   */
  lemma {:induction false} ExitCodeAgrees(lines: seq<LineKind>, k: nat, language: string)
    requires k <= |lines|
    ensures var e := ExpectedFrom(NoExpectations, lines, k, language);
      && (e.exitCode == 0 <==> e.errors == {} && e.runtimeError.None?)
      && (e.exitCode == 65 ==> e.errors != {})
      && (e.exitCode == 70 ==> e.runtimeError.Some?)
      && (e.exitCode == 0 || e.exitCode == 65 || e.exitCode == 70)
      && (!(e.errors != {} && e.runtimeError.Some?) ==>
            (e.exitCode == 65 <==> e.errors != {}) && (e.exitCode == 70 <==> e.runtimeError.Some?))
  {
    if k > 0 {
      ExitCodeAgrees(lines, k - 1, language);
    }
  }

  // ---------------------------------------------------------------------
  // Failures

  /** A failure a comparison records; `Message` gives the line the runner prints for it. */
  datatype Failure =
    | Raw(text: string)
    | UnexpectedError
    | UnexpectedOutput
    | TruncatedMore(count: nat)
    | MissingError(error: string)
    | ExitCodeMismatch(expectedCode: int, gotCode: int)
    | OutputMismatch(expected: string, line: nat, got: string)
    | MissingOutput(expected: string, line: nat)
    | ExtraOutput(got: string)

  /**
   * The text the runner prints for a failure. It is a table of fixed
   * texts and carries no contract of its own: what is recorded, and in
   * which order, is stated by the verdict lemmas (`ExitCodeVerdict`,
   * `TallyMeaning`, `TallyReportsLines`, `OutputVerdict`, `MissingOnce`).
   */
  function Message(f: Failure): string {
    match f
    case Raw(text) => text
    case UnexpectedError => "Unexpected error:"
    case UnexpectedOutput => "Unexpected output on stderr:"
    case TruncatedMore(count) => "(truncated " + NatToString(count) + " more...)"
    case MissingError(error) => "Missing expected error: " + error
    case ExitCodeMismatch(expectedCode, gotCode) =>
      "Expected return code " + IntToString(expectedCode) + " and got " + IntToString(gotCode) + ". Stderr:"
    case OutputMismatch(expected, line, got) =>
      "Expected output '" + expected + "' on line " + NatToString(line) + " and got '" + got + "'."
    case MissingOutput(expected, line) =>
      "Missing expected output '" + expected + "' on line " + NatToString(line) + "."
    case ExtraOutput(got) => "Got output '" + got + "' when none was expected."
  }

  /** Lines recorded as they are. */
  function Raws(lines: seq<string>): (fs: seq<Failure>)
    ensures |fs| == |lines|
  {
    seq(|lines|, i requires 0 <= i < |lines| => Raw(lines[i]))
  }

  // ---------------------------------------------------------------------
  // Output lines

  /** One trailing empty line is dropped before comparing. */
  function DropTrailingEmpty(lines: seq<string>): seq<string> {
    if |lines| > 0 && |lines[|lines| - 1]| == 0 then lines[..|lines| - 1] else lines
  }

  /** The texts the expected outputs promise, in order. */
  function Outputs(expected: seq<ExpectedOutput>): (texts: seq<string>)
    ensures |texts| == |expected|
  {
    seq(|expected|, i requires 0 <= i < |expected| => expected[i].output)
  }

  /** One failure per position among the first `n` where the output differs. */
  function Mismatches(expected: seq<ExpectedOutput>, lines: seq<string>, n: nat): (fs: seq<Failure>)
    requires n <= |expected| && n <= |lines|
    ensures |fs| <= n
    ensures |fs| == 0 <==> forall i :: 0 <= i < n ==> expected[i].output == lines[i]
  {
    if n == 0 then []
    else
      Mismatches(expected, lines, n - 1)
        + (if expected[n - 1].output != lines[n - 1]
           then [OutputMismatch(expected[n - 1].output, expected[n - 1].line, lines[n - 1])] else [])
  }

  /** The failure the comparison records at position `i`. */
  function MismatchAt(expected: seq<ExpectedOutput>, lines: seq<string>, i: nat): Failure
    requires i < |expected| && i < |lines|
  {
    OutputMismatch(expected[i].output, expected[i].line, lines[i])
  }

  /** Every position among the first `n` whose line differs gives its failure. */
  lemma {:induction false} MismatchesCover(expected: seq<ExpectedOutput>, lines: seq<string>, n: nat)
    requires n <= |expected| && n <= |lines|
    ensures forall i :: 0 <= i < n && expected[i].output != lines[i] ==>
      MismatchAt(expected, lines, i) in Mismatches(expected, lines, n)
  {
    if n > 0 {
      MismatchesCover(expected, lines, n - 1);
      var prev := Mismatches(expected, lines, n - 1);
      assert forall f :: f in prev ==> f in Mismatches(expected, lines, n);
    }
  }

  /** Every failure the comparison records comes from a position whose line differs. */
  lemma {:induction false} MismatchesFrom(expected: seq<ExpectedOutput>, lines: seq<string>, n: nat)
    requires n <= |expected| && n <= |lines|
    ensures forall f :: f in Mismatches(expected, lines, n) ==>
      exists i :: 0 <= i < n && expected[i].output != lines[i] && f == MismatchAt(expected, lines, i)
  {
    if n > 0 {
      MismatchesFrom(expected, lines, n - 1);
      var prev := Mismatches(expected, lines, n - 1);
      forall f | f in Mismatches(expected, lines, n)
        ensures exists i :: 0 <= i < n && expected[i].output != lines[i] && f == MismatchAt(expected, lines, i)
      {
        if f !in prev {
          assert expected[n - 1].output != lines[n - 1] && f == MismatchAt(expected, lines, n - 1);
        }
      }
    }
  }

  /** One failure for each expected output from `from` to `to`, which got no line at all. */
  function MissingOutputs(expected: seq<ExpectedOutput>, from: nat, to: nat): (fs: seq<Failure>)
    requires from <= to <= |expected|
    ensures |fs| == to - from
  {
    seq(to - from, i requires 0 <= i < to - from => MissingOutput(expected[from + i].output, expected[from + i].line))
  }

  /** What comparing the (trimmed) output lines with the expected outputs records. */
  function OutputFailures(expected: seq<ExpectedOutput>, lines: seq<string>): seq<Failure> {
    var m := if |lines| < |expected| then |lines| else |expected|;
    Mismatches(expected, lines, m) + MissingOutputs(expected, m, |expected|)
      + (if |lines| > |expected| then [ExtraOutput(lines[|expected|])] else [])
  }

  /** The output comparison records nothing exactly when the lines are the expected outputs. */
  lemma OutputVerdict(expected: seq<ExpectedOutput>, lines: seq<string>)
    ensures OutputFailures(expected, lines) == [] <==> lines == Outputs(expected)
  {
    var m := if |lines| < |expected| then |lines| else |expected|;
    if lines == Outputs(expected) {
      assert forall i :: 0 <= i < m ==> expected[i].output == lines[i];
    }
    if OutputFailures(expected, lines) == [] {
      assert |Mismatches(expected, lines, m)| == 0;
      assert |lines| == |expected|;
    }
  }

  /**
   * The shape of the output failures: one per mismatched position, one per
   * missing line, and at most one for the lines beyond the expected ones.
   */
  lemma OutputFailureCount(expected: seq<ExpectedOutput>, lines: seq<string>)
    ensures var m := if |lines| < |expected| then |lines| else |expected|;
      && |OutputFailures(expected, lines)|
           == |Mismatches(expected, lines, m)| + (|expected| - m) + (if |lines| > |expected| then 1 else 0)
      && |OutputFailures(expected, lines)| <= (if |lines| < |expected| then |expected| else |lines|)
  {
  }

  // ---------------------------------------------------------------------
  // Exit code

  /** The stderr lines shown after an exit-code failure: at most ten, then a marker. */
  function Display(lines: seq<string>): (shown: seq<string>)
    ensures |shown| == if |lines| > 10 then 11 else |lines|
  {
    if |lines| > 10 then lines[..10] + ["(truncated...)"] else lines
  }

  /** A process that reports no code counts as -1. */
  function CodeOrMinusOne(exitCode: Option<int>): int {
    match exitCode
    case None => -1
    case Some(c) => c
  }

  /** What the exit-code check records. */
  function ExitCodeFailures(expected: int, exitCode: Option<int>, errorLines: seq<string>): seq<Failure> {
    var got := CodeOrMinusOne(exitCode);
    if got == expected then [] else [ExitCodeMismatch(expected, got)] + Raws(Display(errorLines))
  }

  /**
   * Nothing is recorded when the codes agree; otherwise a header, then the
   * first ten stderr lines as they are, then "(truncated...)" exactly when
   * there were more than ten.
   */
  lemma ExitCodeVerdict(expected: int, exitCode: Option<int>, errorLines: seq<string>)
    ensures var fs := ExitCodeFailures(expected, exitCode, errorLines);
      var got := if exitCode.Some? then exitCode.value else -1;
      && (fs == [] <==> got == expected)
      && (got != expected ==>
            && fs[0] == ExitCodeMismatch(expected, got)
            && (forall i :: 0 <= i < |errorLines| && i < 10 ==> fs[i + 1] == Raw(errorLines[i]))
            && (|errorLines| > 10 ==> |fs| == 12 && fs[11] == Raw("(truncated...)"))
            && (|errorLines| <= 10 ==> |fs| == |errorLines| + 1))
  {
  }

  // ---------------------------------------------------------------------
  // Compile errors

  /**
   * A stderr line: one matching the syntax-error pattern, with its line
   * number and message as captured and the whole line; or any other line.
   */
  datatype StderrLine =
    | SyntaxError(lineText: string, error: string, text: string)
    | Unmatched(text: string)

  /** A line that is neither an expected error nor empty. */
  predicate IsUnexpected(line: StderrLine, expected: set<string>) {
    match line
    case SyntaxError(lineText, error, _) => ErrorKey(lineText, error) !in expected
    case Unmatched(text) => |text| > 0
  }

  /** The locals of the stderr loop: errors found, unexpected lines, failures recorded. */
  datatype Tally = Tally(found: set<string>, unexpected: nat, failures: seq<Failure>)

  /** An unexpected line: reported with its header only while fewer than ten were seen. */
  function Unexpected(t: Tally, header: Failure, text: string): Tally {
    t.(failures := if t.unexpected < 10 then t.failures + [header, Raw(text)] else t.failures,
       unexpected := t.unexpected + 1)
  }

  function TallyStep(t: Tally, expected: set<string>, line: StderrLine): Tally {
    match line
    case SyntaxError(lineText, error, text) =>
      var key := ErrorKey(lineText, error);
      if key in expected then t.(found := t.found + {key}) else Unexpected(t, UnexpectedError, text)
    case Unmatched(text) =>
      if |text| == 0 then t else Unexpected(t, UnexpectedOutput, text)
  }

  /** The loop over the first `k` stderr lines. */
  function TallyUpTo(expected: set<string>, lines: seq<StderrLine>, k: nat): Tally
    requires k <= |lines|
  {
    if k == 0 then Tally({}, 0, []) else TallyStep(TallyUpTo(expected, lines, k - 1), expected, lines[k - 1])
  }

  /** The line after the reported unexpected lines, when more than ten were seen. */
  function Truncation(unexpected: nat): seq<Failure> {
    if unexpected > 10 then [TruncatedMore(unexpected - 10)] else []
  }

  /** One failure per expected error that was never seen. */
  function MissingErrors(errors: set<string>): set<Failure> {
    set e | e in errors :: MissingError(e)
  }

  /** The keys of the syntax-error lines among the first `k`. */
  function SeenKeys(lines: seq<StderrLine>, k: nat): set<string>
    requires k <= |lines|
  {
    set j | 0 <= j < k && lines[j].SyntaxError? :: ErrorKey(lines[j].lineText, lines[j].error)
  }

  /** The number of unexpected lines among the first `k`. */
  function UnexpectedLines(expected: set<string>, lines: seq<StderrLine>, k: nat): nat
    requires k <= |lines|
  {
    if k == 0 then 0
    else UnexpectedLines(expected, lines, k - 1) + (if IsUnexpected(lines[k - 1], expected) then 1 else 0)
  }

  /**
   * The stderr loop finds exactly the expected errors that some line
   * reports, counts every unexpected line, and reports two failures (a
   * header and the line) for each of the first ten of them only.
   */
  lemma {:induction false} TallyMeaning(expected: set<string>, lines: seq<StderrLine>, k: nat)
    requires k <= |lines|
    ensures var t := TallyUpTo(expected, lines, k);
      && t.found == expected * SeenKeys(lines, k)
      && t.unexpected == UnexpectedLines(expected, lines, k)
      && |t.failures| == 2 * (if t.unexpected < 10 then t.unexpected else 10)
  {
    if k > 0 {
      TallyMeaning(expected, lines, k - 1);
      SeenKeysStep(lines, k);
    }
  }

  lemma SeenKeysStep(lines: seq<StderrLine>, k: nat)
    requires 0 < k <= |lines|
    ensures SeenKeys(lines, k) == SeenKeys(lines, k - 1)
      + (if lines[k - 1].SyntaxError? then {ErrorKey(lines[k - 1].lineText, lines[k - 1].error)} else {})
  {
  }

  /** The header reported before an unexpected line. */
  function Header(line: StderrLine): Failure {
    if line.SyntaxError? then UnexpectedError else UnexpectedOutput
  }

  /** The positions of the unexpected lines among the first `k`, in order. */
  function UnexpectedAt(expected: set<string>, lines: seq<StderrLine>, k: nat): (idx: seq<nat>)
    requires k <= |lines|
    ensures |idx| == UnexpectedLines(expected, lines, k)
    ensures forall m :: 0 <= m < |idx| ==> idx[m] < k && IsUnexpected(lines[idx[m]], expected)
  {
    if k == 0 then []
    else UnexpectedAt(expected, lines, k - 1) + (if IsUnexpected(lines[k - 1], expected) then [k - 1] else [])
  }

  predicate Increasing(xs: seq<nat>) {
    forall m, n :: 0 <= m < n < |xs| ==> xs[m] < xs[n]
  }

  /** Every unexpected line among the first `k` is listed, in increasing position. */
  lemma {:induction false} UnexpectedAtInOrder(expected: set<string>, lines: seq<StderrLine>, k: nat)
    requires k <= |lines|
    ensures Increasing(UnexpectedAt(expected, lines, k))
    ensures forall j :: 0 <= j < k && IsUnexpected(lines[j], expected) ==> j in UnexpectedAt(expected, lines, k)
  {
    if k > 0 {
      UnexpectedAtInOrder(expected, lines, k - 1);
      var prev := UnexpectedAt(expected, lines, k - 1);
      var idx := UnexpectedAt(expected, lines, k);
      if IsUnexpected(lines[k - 1], expected) {
        assert idx == prev + [k - 1];
        forall m, n | 0 <= m < n < |idx|
          ensures idx[m] < idx[n]
        {
          if n == |prev| {
            assert idx[m] == prev[m] && prev[m] < k - 1;
          } else {
            assert idx[m] == prev[m] && idx[n] == prev[n];
          }
        }
        assert idx[|prev|] == k - 1;
      } else {
        assert idx == prev;
      }
    }
  }

  /** The m-th recorded pair is the header for `line` followed by the whole of `line`. */
  predicate PairAt(fs: seq<Failure>, m: nat, line: StderrLine) {
    2 * m + 1 < |fs| && fs[2 * m] == Header(line) && fs[2 * m + 1] == Raw(line.text)
  }

  lemma StepUnexpected(t: Tally, expected: set<string>, line: StderrLine)
    requires IsUnexpected(line, expected)
    ensures TallyStep(t, expected, line) == Unexpected(t, Header(line), line.text)
  {
  }

  lemma StepExpected(t: Tally, expected: set<string>, line: StderrLine)
    requires !IsUnexpected(line, expected)
    ensures TallyStep(t, expected, line).failures == t.failures
  {
  }

  lemma PairKept(fs: seq<Failure>, added: seq<Failure>, m: nat, line: StderrLine)
    requires PairAt(fs, m, line)
    ensures PairAt(fs + added, m, line)
  {
  }

  lemma PairAdded(fs: seq<Failure>, m: nat, line: StderrLine)
    requires |fs| == 2 * m
    ensures PairAt(fs + [Header(line), Raw(line.text)], m, line)
  {
  }

  lemma {:induction false} TallyPair(expected: set<string>, lines: seq<StderrLine>, k: nat, m: nat)
    requires k <= |lines|
    requires m < |UnexpectedAt(expected, lines, k)| && m < 10
    ensures PairAt(TallyUpTo(expected, lines, k).failures, m, lines[UnexpectedAt(expected, lines, k)[m]])
  {
    var t := TallyUpTo(expected, lines, k - 1);
    var prev := UnexpectedAt(expected, lines, k - 1);
    var line := lines[k - 1];
    var idx := UnexpectedAt(expected, lines, k);
    if IsUnexpected(line, expected) {
      StepUnexpected(t, expected, line);
      assert idx == prev + [k - 1];
      TallyMeaning(expected, lines, k - 1);
      var added := if t.unexpected < 10 then [Header(line), Raw(line.text)] else [];
      if m < |prev| {
        TallyPair(expected, lines, k - 1, m);
        PairKept(t.failures, added, m, lines[prev[m]]);
      } else {
        PairAdded(t.failures, m, line);
      }
    } else {
      StepExpected(t, expected, line);
      assert idx == prev;
      TallyPair(expected, lines, k - 1, m);
    }
  }

  /**
   * The m-th recorded pair, for each of the first ten unexpected lines, is
   * the header for the kind of the m-th unexpected line followed by that
   * whole line.
   */
  lemma TallyReportsLines(expected: set<string>, lines: seq<StderrLine>, k: nat)
    requires k <= |lines|
    ensures var fs := TallyUpTo(expected, lines, k).failures;
      var idx := UnexpectedAt(expected, lines, k);
      forall m :: 0 <= m < |idx| && m < 10 ==> PairAt(fs, m, lines[idx[m]])
  {
    forall m | 0 <= m < |UnexpectedAt(expected, lines, k)| && m < 10
      ensures PairAt(TallyUpTo(expected, lines, k).failures, m, lines[UnexpectedAt(expected, lines, k)[m]])
    {
      TallyPair(expected, lines, k, m);
    }
  }

  /**
   * The compile-error check records nothing exactly when every line of
   * stderr is an expected error or empty, and every expected error shows up.
   */
  lemma CompileVerdict(expected: set<string>, lines: seq<StderrLine>)
    ensures var t := TallyUpTo(expected, lines, |lines|);
      (|t.failures| + |Truncation(t.unexpected)| + |MissingErrors(expected - t.found)| == 0)
        <==> UnexpectedLines(expected, lines, |lines|) == 0 && expected <= SeenKeys(lines, |lines|)
  {
    var t := TallyUpTo(expected, lines, |lines|);
    TallyMeaning(expected, lines, |lines|);
    if expected - t.found != {} {
      var e :| e in expected - t.found;
      assert MissingError(e) in MissingErrors(expected - t.found);
    }
  }

  /** Each expected error never seen is reported once; nothing else is. */
  lemma MissingOnce(tail: seq<Failure>, errors: set<string>, e: string)
    requires multiset(tail) == multiset(MissingErrors(errors))
    ensures multiset(tail)[MissingError(e)] == if e in errors then 1 else 0
    ensures forall f :: f in tail ==> f.MissingError? && f.error in errors
  {
    forall f | f in tail
      ensures f.MissingError? && f.error in errors
    {
      assert f in multiset(tail);
    }
  }
}
