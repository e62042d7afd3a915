/**
 * The test runner's per-test state and its counters: a `Test` collects
 * what its file expects and the failures found when the interpreter's
 * output is compared with that; `RunnerState` counts passed, failed and
 * skipped tests and the expectations seen. Each method is proved against
 * the rules in `RunnerRules`.
 */
module TestRunner {
  import opened Text
  import opened RunnerRules

  /** The counters of a run over the test suites. */
  class RunnerState {
    var passed: nat
    var failed: nat
    var skipped: nat
    var expectations: nat

    constructor()
      ensures passed == 0 && failed == 0 && skipped == 0 && expectations == 0
    {
      passed, failed, skipped, expectations := 0, 0, 0, 0;
    }

    /** A test whose state is "skip". */
    method Skip()
      modifies this
      ensures skipped == old(skipped) + 1
      ensures passed == old(passed) && failed == old(failed) && expectations == old(expectations)
    {
      skipped := skipped + 1;
    }

    /** One more expectation comment read. */
    method Expect()
      modifies this
      ensures expectations == old(expectations) + 1
      ensures passed == old(passed) && failed == old(failed) && skipped == old(skipped)
    {
      expectations := expectations + 1;
    }

    /**
     * The tally after a test ran: it passed when it recorded no failure,
     * else it failed; either way exactly one of the two counts grows.
     */
    method Record(failures: seq<Failure>)
      modifies this
      ensures passed + failed == old(passed) + old(failed) + 1
      ensures |failures| == 0 ==> passed == old(passed) + 1
      ensures |failures| > 0 ==> failed == old(failed) + 1
      ensures skipped == old(skipped) && expectations == old(expectations)
    {
      if |failures| == 0 {
        passed := passed + 1;
      } else {
        failed := failed + 1;
      }
    }
  }

  /** One test file: what it expects and the failures found so far. */
  class Test {
    const path: string
    var expectedOutput: seq<ExpectedOutput>
    var expectedErrors: set<string>
    var expectedRuntimeError: Option<string>
    var runtimeErrorLine: nat
    var expectedExitCode: int
    var failures: seq<Failure>

    /** The expectation fields together. */
    function Current(): Expected
      reads this
    {
      Expected(expectedOutput, expectedErrors, expectedRuntimeError, runtimeErrorLine, expectedExitCode)
    }

    /** `Test::new`: nothing expected, exit code 0, no failures. */
    constructor(path: string)
      ensures this.path == path && Current() == NoExpectations && failures == []
    {
      this.path := path;
      expectedOutput := [];
      expectedErrors := {};
      expectedRuntimeError := None;
      runtimeErrorLine := 0;
      expectedExitCode := 0;
      failures := [];
    }

    /** `fail`: records one failure after the ones already there. */
    method Fail(f: Failure)
      modifies this
      ensures failures == old(failures) + [f]
      ensures Current() == old(Current())
    {
      failures := failures + [f];
    }

    /** `fail_list`: records each line, in order, after the failures already there. */
    method FailList(lines: seq<string>)
      modifies this
      ensures failures == old(failures) + Raws(lines)
      ensures Current() == old(Current())
    {
      for k := 0 to |lines|
        invariant failures == old(failures) + Raws(lines[..k])
        invariant Current() == old(Current())
      {
        assert Raws(lines[..k + 1]) == Raws(lines[..k]) + [Raw(lines[k])];
        Fail(Raw(lines[k]));
      }
      assert lines[..|lines|] == lines;
    }

    /**
     * The state lookup at the start of `parse`: build the key one path
     * component at a time and keep the state of the last key listed.
     */
    method FindState(suite: Suite) returns (state: Option<string>)
      ensures var parts := Split(path, '/'); state == Longest(parts, suite.tests, |parts|)
    {
      var parts := Split(path, '/');
      var subpath := "";
      state := None;
      for k := 0 to |parts|
        invariant subpath == Subpath(parts, k)
        invariant state == Longest(parts, suite.tests, k)
      {
        if |subpath| > 0 {
          subpath := subpath + ['/'];
        }
        subpath := subpath + parts[k];
        if subpath in suite.tests {
          state := Some(suite.tests[subpath]);
        }
      }
    }

    /**
     * The loop of `parse` over the lines of the file: stops at the first
     * `// nontest` line (reporting it) and otherwise records every
     * expectation comment, counting each in `state`.
     */
    method ReadExpectations(suite: Suite, lines: seq<LineKind>, state: RunnerState) returns (nonTest: bool)
      modifies this, state
      ensures var n := FirstNonTest(lines);
        && (nonTest <==> n < |lines|)
        && Current() == ExpectedFrom(old(Current()), lines, n, suite.language)
        && state.expectations == old(state.expectations) + Expectations(lines, n, suite.language)
      ensures failures == old(failures)
      ensures state.passed == old(state.passed) && state.failed == old(state.failed)
      ensures state.skipped == old(state.skipped)
    {
      for k := 0 to |lines|
        invariant k <= FirstNonTest(lines)
        invariant Current() == ExpectedFrom(old(Current()), lines, k, suite.language)
        invariant state.expectations == old(state.expectations) + Expectations(lines, k, suite.language)
        invariant failures == old(failures)
        invariant state.passed == old(state.passed) && state.failed == old(state.failed)
        invariant state.skipped == old(state.skipped)
      {
        var lineNum := k + 1;
        match lines[k]
        case NonTest =>
          return true;
        case ExpectOutput(output) =>
          expectedOutput := expectedOutput + [ExpectedOutput(lineNum, output)];
          state.Expect();
        case ExpectError(error) =>
          expectedErrors := expectedErrors + {ErrorKey(NatToString(lineNum), error)};
          expectedExitCode := 65;
          state.Expect();
        case ErrorLine(language, lineText, error) =>
          if LanguageMatches(language, suite.language) {
            expectedErrors := expectedErrors + {ErrorKey(lineText, error)};
            expectedExitCode := 65;
            state.Expect();
          }
        case ExpectRuntimeError(error) =>
          runtimeErrorLine := lineNum;
          expectedRuntimeError := Some(error);
          expectedExitCode := 70;
          state.Expect();
        case Plain =>
      }
      return false;
    }

    /**
     * `parse`, after the file has been read into classified lines: a test
     * whose state is "skip" is counted as skipped; one with a `// nontest`
     * line, or that expects both compile errors and a runtime error, is
     * not run (`false`); any other is run (`true`).
     */
    method Parse(suite: Suite, lines: seq<LineKind>, state: RunnerState) returns (ok: bool)
      modifies this, state
      ensures StateOf(path, suite) == "skip" ==>
        && !ok && state.skipped == old(state.skipped) + 1
        && state.expectations == old(state.expectations) && Current() == old(Current())
      ensures StateOf(path, suite) != "skip" ==>
        var n := FirstNonTest(lines);
        var e := ExpectedFrom(old(Current()), lines, n, suite.language);
        && Current() == e
        && state.skipped == old(state.skipped)
        && state.expectations == old(state.expectations) + Expectations(lines, n, suite.language)
        && (ok <==> n == |lines| && !(e.errors != {} && e.runtimeError.Some?))
      ensures failures == old(failures)
      ensures state.passed == old(state.passed) && state.failed == old(state.failed)
    {
      var found := FindState(suite);
      var stateText := if found.Some? then found.value else "run";
      if stateText == "skip" {
        state.Skip();
        return false;
      }
      var nonTest := ReadExpectations(suite, lines, state);
      if nonTest {
        return false;
      }
      if expectedErrors != {} && expectedRuntimeError.Some? {
        return false;
      }
      return true;
    }

    /**
     * `validate_output_lines`: drop one trailing empty line, compare line
     * by line, then report the expected lines that are missing and the
     * first line beyond the expected ones.
     */
    method ValidateOutputLines(outputLines: seq<string>)
      modifies this
      ensures failures == old(failures) + OutputFailures(expectedOutput, DropTrailingEmpty(outputLines))
      ensures Current() == old(Current())
    {
      var lines := outputLines;
      if |lines| > 0 && |lines[|lines| - 1]| == 0 {
        lines := lines[..|lines| - 1];
      }
      assert lines == DropTrailingEmpty(outputLines);
      var common := CompareLines(lines);
      ghost var compared := failures;
      var index := ReportMissingOutputs(common);
      ghost var extra := if |lines| > |expectedOutput| then [ExtraOutput(lines[|expectedOutput|])] else [];
      ghost var mismatched := Mismatches(expectedOutput, lines, common);
      ghost var missing := MissingOutputs(expectedOutput, common, |expectedOutput|);
      assert OutputFailures(expectedOutput, lines) == mismatched + missing + extra;
      if index < |lines| {
        Fail(ExtraOutput(lines[index]));
      }
      assert failures == ((old(failures) + mismatched) + missing) + extra;
      Regroup(old(failures), mismatched, missing, extra);
    }

    /** The first loop of `validate_output_lines`: the positions both sides have. */
    method CompareLines(lines: seq<string>) returns (index: nat)
      modifies this
      ensures Current() == old(Current())
      ensures index == if |lines| < |expectedOutput| then |lines| else |expectedOutput|
      ensures failures == old(failures) + Mismatches(expectedOutput, lines, index)
    {
      index := 0;
      var expectedLen := |expectedOutput|;
      while index < |lines| && index < expectedLen
        invariant Current() == old(Current())
        invariant index <= |lines| && index <= expectedLen
        invariant failures == old(failures) + Mismatches(expectedOutput, lines, index)
      {
        var line := lines[index];
        var expected := expectedOutput[index];
        if expected.output != line {
          Fail(OutputMismatch(expected.output, expected.line, line));
        }
        index := index + 1;
      }
    }

    /** The second loop of `validate_output_lines`: the expected lines nothing was printed for. */
    method ReportMissingOutputs(from: nat) returns (index: nat)
      requires from <= |expectedOutput|
      modifies this
      ensures Current() == old(Current())
      ensures index == |expectedOutput|
      ensures failures == old(failures) + MissingOutputs(expectedOutput, from, index)
    {
      index := from;
      while index < |expectedOutput|
        invariant Current() == old(Current())
        invariant from <= index <= |expectedOutput|
        invariant failures == old(failures) + MissingOutputs(expectedOutput, from, index)
      {
        var expected := expectedOutput[index];
        assert MissingOutputs(expectedOutput, from, index + 1)
          == MissingOutputs(expectedOutput, from, index) + [MissingOutput(expected.output, expected.line)];
        Fail(MissingOutput(expected.output, expected.line));
        index := index + 1;
      }
    }

    /**
     * `validate_exit_code`: nothing when the code (-1 when there is none)
     * is the expected one; else a header and the stderr lines, cut to ten
     * and a marker.
     */
    method ValidateExitCode(exitCode: Option<int>, errorLines: seq<string>)
      modifies this
      ensures failures == old(failures) + ExitCodeFailures(expectedExitCode, exitCode, errorLines)
      ensures Current() == old(Current())
    {
      var code := if exitCode.Some? then exitCode.value else -1;
      if code == expectedExitCode {
        return;
      }
      var displayLines := if |errorLines| > 10 then errorLines[..10] + ["(truncated...)"] else errorLines;
      Fail(ExitCodeMismatch(expectedExitCode, code));
      FailList(displayLines);
    }

    /**
     * `validate_compile_errors`: mark each expected error that stderr
     * reports as found and report each other non-empty line (the first ten
     * only, then a count of the rest); then report each expected error that
     * was not found, in no particular order.
     */
    method ValidateCompileErrors(errorLines: seq<StderrLine>)
      modifies this
      ensures var t := TallyUpTo(expectedErrors, errorLines, |errorLines|);
        var head := old(failures) + t.failures + Truncation(t.unexpected);
        && |failures| >= |head| && failures[..|head|] == head
        && multiset(failures[|head|..]) == multiset(MissingErrors(expectedErrors - t.found))
      ensures Current() == old(Current())
    {
      var found: set<string> := {};
      var unexpectedCount: nat := 0;
      for k := 0 to |errorLines|
        invariant Current() == old(Current())
        invariant |failures| >= |old(failures)| && failures[..|old(failures)|] == old(failures)
        invariant Tally(found, unexpectedCount, failures[|old(failures)|..])
                  == TallyUpTo(expectedErrors, errorLines, k)
      {
        ghost var before := failures;
        match errorLines[k]
        case SyntaxError(lineText, error, text) =>
          var key := ErrorKey(lineText, error);
          if key in expectedErrors {
            found := found + {key};
          } else {
            if unexpectedCount < 10 {
              Fail(UnexpectedError);
              Fail(Raw(text));
            }
            unexpectedCount := unexpectedCount + 1;
          }
        case Unmatched(text) =>
          if |text| > 0 {
            if unexpectedCount < 10 {
              Fail(UnexpectedOutput);
              Fail(Raw(text));
            }
            unexpectedCount := unexpectedCount + 1;
          }
        assert failures[|old(failures)|..] == before[|old(failures)|..] + failures[|before|..];
      }
      if unexpectedCount > 10 {
        Fail(TruncatedMore(unexpectedCount - 10));
      }
      ghost var head := failures;
      ReportMissing(found);
      assert failures[..|head|] == head;
    }

    /** The last loop of `validate_compile_errors`, over a copy of the expected errors. */
    method ReportMissing(found: set<string>)
      modifies this
      ensures |failures| >= |old(failures)| && failures[..|old(failures)|] == old(failures)
      ensures multiset(failures[|old(failures)|..]) == multiset(MissingErrors(expectedErrors - found))
      ensures Current() == old(Current())
    {
      var pending := expectedErrors;
      ghost var done: set<string> := {};
      ghost var reported: seq<Failure> := [];
      while pending != {}
        invariant pending !! done && pending + done == expectedErrors
        invariant failures == old(failures) + reported
        invariant multiset(reported) == multiset(MissingErrors(done - found))
        invariant Current() == old(Current())
        decreases |pending|
      {
        var error :| error in pending;
        if error !in found {
          Fail(MissingError(error));
          reported := reported + [MissingError(error)];
        }
        MissingErrorsAdd(done, found, error);
        pending := pending - {error};
        done := done + {error};
      }
      assert done == expectedErrors;
      assert failures[|old(failures)|..] == reported;
    }
  }

  /** Concatenation regrouped: what was appended in three steps is the old value plus the three parts. */
  lemma Regroup<T>(a: seq<T>, b: seq<T>, c: seq<T>, d: seq<T>)
    ensures ((a + b) + c) + d == a + (b + c + d)
  {
  }

  /** Adding one more error to those looked at adds its failure when it was not found. */
  lemma MissingErrorsAdd(done: set<string>, found: set<string>, e: string)
    requires e !in done
    ensures multiset(MissingErrors((done + {e}) - found))
      == multiset(MissingErrors(done - found)) + (if e in found then multiset{} else multiset{MissingError(e)})
  {
    if e in found {
      assert (done + {e}) - found == done - found;
    } else {
      assert (done + {e}) - found == (done - found) + {e};
      assert MissingErrors((done + {e}) - found) == MissingErrors(done - found) + {MissingError(e)};
      assert MissingError(e) !in MissingErrors(done - found);
    }
  }
}
