/**
 * The pipeline `Lox.run` drives: scan, parse, resolve, interpret, with the
 * `hadError` flag checked between the stages, and the exit status
 * `runFile` derives from the two error flags.
 *
 * The parser, the resolver and the interpreter are not part of this model.
 * They are parameters: each is a function from its input to what it
 * produces and to the errors it hands to `Lox.error(token, message)` (or,
 * for the interpreter, the `RuntimeError` it catches and hands to
 * `Lox.runtimeError`).
 */
module Driver {
  import opened Text
  import opened Tokens
  import opened Lexing
  import opened ErrorReporting
  import opened Scanning

  /** An error a later stage reports through `Lox.error(token, message)`. */
  datatype StageError = StageError(token: Token, message: string)

  /** What the parser returns (its statements) and the errors it reported on the way. */
  datatype Parsed<S> = Parsed(statements: seq<S>, errors: seq<StageError>)

  /** The last stage `run` started before it returned. */
  datatype Stage = Parsing | Resolving | Interpreting

  /** What `Lox.error(token, message)` prints for a stage error. */
  function Locate(e: StageError): Diagnostic {
    CompileError(e.token.line, Where(e.token), e.message)
  }

  /** What is printed for a batch of stage errors, in order. */
  function Located(errors: seq<StageError>): (printed: seq<Diagnostic>)
    ensures |printed| == |errors|
    ensures forall i :: 0 <= i < |errors| ==>
      printed[i] == CompileError(errors[i].token.line, Where(errors[i].token), errors[i].message)
  {
    if errors == [] then [] else Located(errors[..|errors| - 1]) + [Locate(errors[|errors| - 1])]
  }

  /**
   * The i-th line printed for a batch of stage errors is the `report` line
   * for the i-th error at its token: `[line N] Error at 'lexeme': message`,
   * or ` at end` for the EOF token (see `WhereQuotes`).
   */
  lemma LocatedAt(errors: seq<StageError>, i: nat)
    requires i < |errors|
    ensures Render(Located(errors)[i])
         == ReportText(errors[i].token.line, Where(errors[i].token), errors[i].message)
  {
  }

  /** A stage hands its errors to `Lox.error(token, message)` one by one. */
  method ReportAll(lox: Lox, errors: seq<StageError>)
    modifies lox
    ensures lox.printed == old(lox.printed) + Located(errors)
    ensures lox.hadError == (old(lox.hadError) || |errors| > 0)
    ensures lox.hadRuntimeError == old(lox.hadRuntimeError)
  {
    for k := 0 to |errors|
      invariant lox.printed == old(lox.printed) + Located(errors[..k])
      invariant lox.hadError == (old(lox.hadError) || k > 0)
      invariant lox.hadRuntimeError == old(lox.hadRuntimeError)
    {
      assert errors[..k + 1][..k] == errors[..k];
      lox.ErrorAt(errors[k].token, errors[k].message);
    }
    assert errors[..|errors|] == errors;
  }

  /** Whether anything was printed as a compile error before the interpreter would start. */
  predicate CompileFailed<S>(source: string, parse: seq<Token> -> Parsed<S>,
                             resolve: seq<S> -> seq<StageError>)
  {
    var parsed := parse(ScanAll(source));
    |ScanErrors(source)| > 0 || |parsed.errors| > 0 || |resolve(parsed.statements)| > 0
  }

  /**
   * `run`: scan, then parse; stop if `hadError` is set; resolve; stop if
   * `hadError` is set; interpret. The stages see the tokens of the whole
   * source, and `hadError` is not cleared on entry, so a flag left set by
   * an earlier run stops the pipeline after parsing.
   */
  method Run<S>(lox: Lox, source: string, parse: seq<Token> -> Parsed<S>,
                resolve: seq<S> -> seq<StageError>, interpret: seq<S> -> Option<RuntimeError>)
    returns (reached: Stage)
    modifies lox
    ensures var parsed := parse(ScanAll(source));
      var resolved := resolve(parsed.statements);
      var failure := interpret(parsed.statements);
      && (reached == Parsing <==> old(lox.hadError) || |ScanErrors(source)| > 0 || |parsed.errors| > 0)
      && (reached == Interpreting <==> !lox.hadError)
      && lox.hadError == (old(lox.hadError) || |ScanErrors(source)| > 0 || |parsed.errors| > 0 || |resolved| > 0)
      && lox.printed == old(lox.printed) + Diagnoses(ScanErrors(source)) + Located(parsed.errors)
                        + (if reached == Parsing then [] else Located(resolved))
                        + (if reached == Interpreting && failure.Some? then [RuntimeFailure(failure.value)] else [])
      && lox.hadRuntimeError == (old(lox.hadRuntimeError) || (reached == Interpreting && failure.Some?))
  {
    var scanner := new Scanner(source, lox);
    var tokens := scanner.ScanTokens();
    var parsed := parse(tokens);
    ReportAll(lox, parsed.errors);
    if lox.hadError {
      return Parsing;
    }
    var resolved := resolve(parsed.statements);
    ReportAll(lox, resolved);
    if lox.hadError {
      return Resolving;
    }
    var failure := interpret(parsed.statements);
    if failure.Some? {
      lox.ReportRuntimeError(failure.value);
    }
    return Interpreting;
  }

  /**
   * `runFile` after reading the file: run the source with both flags
   * clear, then exit with 65 after a compile error, else with 70 after a
   * runtime error, else normally (`None`).
   */
  method RunFile<S>(source: string, parse: seq<Token> -> Parsed<S>,
                    resolve: seq<S> -> seq<StageError>, interpret: seq<S> -> Option<RuntimeError>)
    returns (exit: Option<int>)
    ensures exit == Some(65) <==> CompileFailed(source, parse, resolve)
    ensures exit == Some(70) <==>
      !CompileFailed(source, parse, resolve) && interpret(parse(ScanAll(source)).statements).Some?
    ensures exit == None <==>
      !CompileFailed(source, parse, resolve) && interpret(parse(ScanAll(source)).statements).None?
  {
    var lox := new Lox();
    var reached := Run(lox, source, parse, resolve, interpret);
    exit := ExitCode(lox.hadError, lox.hadRuntimeError);
  }
}
