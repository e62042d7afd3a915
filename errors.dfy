/**
 * Error reporting of JLox/lox/Lox.java: the `hadError` and
 * `hadRuntimeError` flags, the lines written to standard error by
 * `report`, both `error` overloads and `runtimeError`, and the exit code
 * `runFile` derives from the two flags.
 */
module ErrorReporting {
  import opened Text
  import opened Tokens

  /** A runtime error raised by the interpreter at `token`. */
  datatype RuntimeError = RuntimeError(message: string, token: Token)

  /** The line marker `[line N]` both kinds of report carry. */
  function LineTag(line: int): string {
    "[line " + IntToString(line) + "]"
  }

  /** The text `report` prints: `[line N] Error<where>: <message>`. */
  function ReportText(line: int, where: string, message: string): string {
    LineTag(line) + " Error" + where + ": " + message
  }

  /** The `where` part `error(Token, message)` passes to `report`. */
  function Where(token: Token): string {
    if token.kind == EOF then " at end" else " at '" + token.lexeme + "'"
  }

  /** The text `runtimeError` prints: the message, a newline, then the line marker. */
  function RuntimeErrorText(error: RuntimeError): string {
    error.message + "\n" + LineTag(error.token.line)
  }

  /**
   * Reads a leading `[line N]` marker back: the line number and the text
   * after the `]`, or None when the text does not start with a marker.
   */
  function ReadLineTag(s: string): (r: Option<(nat, string)>)
    ensures r.Some? ==> StartsWith(s, "[line ") && EndsWith(s, "]" + r.value.1)
  {
    if !StartsWith(s, "[line ") then None
    else
      var t := s[6..];
      var n := DigitPrefix(t);
      if 0 < n < |t| && t[n] == ']' then
        assert s[|s| - |t[n..]|..] == t[n..];
        Some((ParseDigits(t[..n]), t[n + 1..]))
      else None
  }

  /** The exit status `runFile` chooses: 65 wins over 70; no exit when neither flag is set. */
  function ExitCode(hadError: bool, hadRuntimeError: bool): (code: Option<int>)
    ensures code == Some(65) <==> hadError
    ensures code == Some(70) <==> !hadError && hadRuntimeError
    ensures code == None <==> !hadError && !hadRuntimeError
  {
    if hadError then Some(65) else if hadRuntimeError then Some(70) else None
  }

  /** The line number and the rest of a report are recovered from its text. */
  lemma {:induction false} ReadReportText(line: nat, where: string, message: string)
    ensures ReadLineTag(ReportText(line, where, message)) == Some((line, " Error" + where + ": " + message))
  {
    assert ReportText(line, where, message) == LineTag(line) + (" Error" + where + ": " + message);
    ReadTagged(line, " Error" + where + ": " + message);
  }

  /** Reading back a marker followed by any text. */
  lemma {:induction false} ReadTagged(line: nat, rest: string)
    ensures ReadLineTag(LineTag(line) + rest) == Some((line, rest))
  {
    var s := LineTag(line) + rest;
    var digits := NatToString(line);
    TagText(line, rest);
    var t := s[6..];
    DigitPrefixOf(digits, "]" + rest);
    assert t[..|digits|] == digits;
    assert t[|digits| + 1..] == rest;
    ParseNatToString(line);
  }

  /** A marker followed by text starts with `[line `, then the digits, then `]`. */
  lemma TagText(line: nat, rest: string)
    ensures var s := LineTag(line) + rest;
      StartsWith(s, "[line ") && s[6..] == NatToString(line) + ("]" + rest)
  {
    var digits := NatToString(line);
    assert IntToString(line) == digits;
    var s := LineTag(line) + rest;
    assert s == "[line " + (digits + ("]" + rest));
  }

  /**
   * The two lines `runtimeError` prints: the message (split at its own
   * newlines) and then a last line that is exactly the line marker.
   */
  lemma RuntimeErrorLines(error: RuntimeError)
    requires error.token.line >= 0
    ensures Split(RuntimeErrorText(error), '\n') == Split(error.message, '\n') + [LineTag(error.token.line)]
    ensures ReadLineTag(LineTag(error.token.line)) == Some((error.token.line as nat, ""))
  {
    var tag := LineTag(error.token.line);
    assert '\n' !in tag by {
      var digits := NatToString(error.token.line);
      assert tag == "[line " + digits + "]";
      forall k | 0 <= k < |tag| ensures tag[k] != '\n' {
        if 6 <= k < 6 + |digits| {
          assert tag[k] == digits[k - 6];
        }
      }
    }
    SplitConcat(error.message, tag, '\n');
    SplitNone(tag, '\n');
    ReadTagged(error.token.line, "");
    assert tag + "" == tag;
  }

  /** The report for an EOF token says "at end"; any other quotes the lexeme. */
  lemma WhereQuotes(token: Token)
    ensures Where(token) == " at end" <==> token.kind == EOF
    ensures token.kind != EOF ==>
      && StartsWith(Where(token), " at '") && EndsWith(Where(token), "'")
      && Where(token)[5..|Where(token)| - 1] == token.lexeme
  {
    if token.kind != EOF {
      assert Where(token)[4] == '\'';
    }
  }

  /** One line (or, for a runtime error, two lines) printed on standard error. */
  datatype Diagnostic =
    | CompileError(line: int, where: string, message: string)
    | RuntimeFailure(error: RuntimeError)

  /** The exact text `System.err.println` receives for a diagnostic. */
  function Render(d: Diagnostic): string {
    match d
    case CompileError(line, where, message) => ReportText(line, where, message)
    case RuntimeFailure(error) => RuntimeErrorText(error)
  }

  /** Everything printed on standard error, one `println` argument per element. */
  function StderrTexts(printed: seq<Diagnostic>): seq<string> {
    seq(|printed|, i requires 0 <= i < |printed| => Render(printed[i]))
  }

  /**
   * The static state of Lox.java that error reporting touches: the two
   * flags, and what has been printed on standard error, in order, as the
   * diagnostics whose `Render` text each `System.err.println` wrote.
   */
  class Lox {
    var hadError: bool
    var hadRuntimeError: bool
    var printed: seq<Diagnostic>

    constructor()
      ensures !hadError && !hadRuntimeError && printed == []
    {
      hadError := false;
      hadRuntimeError := false;
      printed := [];
    }

    /** `report`: print the formatted line and set `hadError`. */
    method Report(line: int, where: string, message: string)
      modifies this
      ensures printed == old(printed) + [CompileError(line, where, message)]
      ensures hadError && hadRuntimeError == old(hadRuntimeError)
    {
      printed := printed + [CompileError(line, where, message)];
      hadError := true;
    }

    /** `error(line, message)`: a report with an empty `where`. */
    method Error(line: int, message: string)
      modifies this
      ensures printed == old(printed) + [CompileError(line, "", message)]
      ensures hadError && hadRuntimeError == old(hadRuntimeError)
    {
      Report(line, "", message);
    }

    /** `error(token, message)`: a report located at the token. */
    method ErrorAt(token: Token, message: string)
      modifies this
      ensures printed == old(printed) + [CompileError(token.line, Where(token), message)]
      ensures hadError && hadRuntimeError == old(hadRuntimeError)
    {
      if token.kind == EOF {
        Report(token.line, " at end", message);
      } else {
        Report(token.line, " at '" + token.lexeme + "'", message);
      }
    }

    /** `runtimeError`: print the message and marker and set `hadRuntimeError`. */
    method ReportRuntimeError(error: RuntimeError)
      modifies this
      ensures printed == old(printed) + [RuntimeFailure(error)]
      ensures hadRuntimeError && hadError == old(hadError)
    {
      printed := printed + [RuntimeFailure(error)];
      hadRuntimeError := true;
    }
  }
}
