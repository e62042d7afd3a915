/**
 * The scanner class of JLox/lox/Scanner.java: a cursor (`start`,
 * `current`) over an immutable source string, a line counter and a token
 * buffer, advanced by `scanToken` until the source is used up. Every
 * method is proved to do exactly what the scanning rules in lexing.dfy
 * say, so the properties proved there hold for what this class computes.
 */
module Scanning {
  import opened Text
  import opened Tokens
  import opened Lexing
  import opened ErrorReporting

  /** What `Lox.error(line, message)` prints for one scan error. */
  function Diagnose(e: ScanError): Diagnostic {
    CompileError(e.line, "", e.message)
  }

  /** What is printed for the scan errors, in order. */
  function Diagnoses(errors: seq<ScanError>): (printed: seq<Diagnostic>)
    ensures |printed| == |errors|
  {
    if errors == [] then []
    else Diagnoses(errors[..|errors| - 1]) + [Diagnose(errors[|errors| - 1])]
  }

  class Scanner {
    const source: string
    /** The error reporter that `Lox.error` stands for. */
    const lox: Lox
    var tokens: seq<Token>
    var start: nat
    var current: nat
    var line: int

    predicate Valid()
      reads this
    {
      start <= current <= |source|
    }

    /**
     * The state after one lexeme that started at `s` with the tokens,
     * standard-error lines and flags `tokens0`, `printed0`, `hadError0`
     * and `hadRuntimeError0`: the cursor, line and token buffer are those
     * of the scanning step `st`, and exactly its errors were reported.
     */
    predicate Finished(st: Scanned, s: nat, tokens0: seq<Token>, printed0: seq<Diagnostic>,
                       hadError0: bool, hadRuntimeError0: bool)
      reads this, lox
      requires s <= st.next <= |source|
    {
      && Valid() && start == s && current == st.next && line == st.line
      && tokens == (if st.outcome.Emit? then tokens0 + [Token(st.outcome.kind, source[s..st.next], st.outcome.literal, st.line)]
                    else tokens0)
      && lox.printed == (if st.outcome.Report? then printed0 + [CompileError(st.line, "", st.outcome.message)]
                         else printed0)
      && lox.hadError == (hadError0 || st.outcome.Report?)
      && lox.hadRuntimeError == hadRuntimeError0
    }

    constructor(source: string, lox: Lox)
      ensures Valid() && this.source == source && this.lox == lox
      ensures tokens == [] && start == 0 && current == 0 && line == 1
    {
      this.source := source;
      this.lox := lox;
      tokens := [];
      start := 0;
      current := 0;
      line := 1;
    }

    /** `scanTokens`: scan every lexeme, then append the EOF token. */
    method ScanTokens() returns (result: seq<Token>)
      requires Valid()
      modifies this, lox
      ensures var lexed := Lex(source, old(current), old(line));
        && result == tokens == old(tokens) + lexed.tokens + [EofToken(lexed.line)]
        && Valid() && current == |source| && line == lexed.line
        && lox.printed == old(lox.printed) + Diagnoses(lexed.errors)
        && lox.hadError == (old(lox.hadError) || |lexed.errors| > 0)
        && lox.hadRuntimeError == old(lox.hadRuntimeError)
      ensures old(tokens) == [] && old(current) == 0 && old(line) == 1 ==>
        result == ScanAll(source) && lox.printed == old(lox.printed) + Diagnoses(ScanErrors(source))
    {
      ScanLexemes();
      tokens := tokens + [Token(EOF, "", NoLiteral, line)];
      result := tokens;
    }

    /** The `while (!isAtEnd())` loop of `scanTokens`. */
    method ScanLexemes()
      requires Valid()
      modifies this, lox
      ensures var lexed := Lex(source, old(current), old(line));
        && tokens == old(tokens) + lexed.tokens
        && Valid() && current == |source| && line == lexed.line
        && lox.printed == old(lox.printed) + Diagnoses(lexed.errors)
        && lox.hadError == (old(lox.hadError) || |lexed.errors| > 0)
        && lox.hadRuntimeError == old(lox.hadRuntimeError)
    {
      ghost var lexed := Lex(source, current, line);
      ghost var tokensIn, printedIn, hadErrorIn, hadRuntimeErrorIn := tokens, lox.printed, lox.hadError, lox.hadRuntimeError;
      ghost var reported: seq<ScanError> := [];
      while !IsAtEnd()
        invariant Valid()
        invariant var rest := Lex(source, current, line);
          && tokensIn + lexed.tokens == tokens + rest.tokens
          && lexed.errors == reported + rest.errors
          && lexed.line == rest.line
        invariant lox.printed == printedIn + Diagnoses(reported)
        invariant lox.hadError == (hadErrorIn || |reported| > 0)
        invariant lox.hadRuntimeError == hadRuntimeErrorIn
        decreases |source| - current
      {
        start := current;
        ghost var pos, ln, tokens0 := current, line, tokens;
        ghost var st := ScanStep(source, pos, ln);
        ghost var printed0 := lox.printed;
        ScanToken();
        EmittedStep(source, pos, st, tokens0, tokens);
        ScanLoopStep(source, pos, ln, lexed, tokensIn, tokens0, reported);
        PrintedStep(printedIn, reported, st, printed0, lox.printed);
        reported := reported + ReportedErrors(st);
      }
      ScanLoopDone(source, current, line, lexed, tokensIn, tokens, reported);
    }

    /** `scanToken`: consume one lexeme starting at `current`. */
    method ScanToken()
      requires Valid() && start == current < |source|
      modifies this, lox
      ensures Finished(ScanStep(source, old(current), old(line)), old(current), old(tokens),
                       old(lox.printed), old(lox.hadError), old(lox.hadRuntimeError))
    {
      var c := Advance();
      if IsPunctuation(c) {
        AddToken(PunctuationKind(c), NoLiteral);
      } else if IsOperatorStart(c) {
        var withEqual := Match('=');
        AddToken(if withEqual then OperatorKinds(c).0 else OperatorKinds(c).1, NoLiteral);
      } else if c == '/' {
        Slash();
      } else if IsBlank(c) {
      } else if c == '\n' {
        line := line + 1;
      } else if c == '"' {
        ScanString();
      } else if IsDigit(c) {
        Number();
      } else if IsAlpha(c) {
        Identifier();
      } else {
        lox.Error(line, "Unexpected character.");
      }
    }

    /** The `/` case: a line comment, a nested block comment, or SLASH. */
    method Slash()
      requires Valid() && current == start + 1 && source[start] == '/'
      modifies this, lox
      ensures Finished(SlashStep(source, old(start), old(line)), old(start), old(tokens),
                       old(lox.printed), old(lox.hadError), old(lox.hadRuntimeError))
    {
      var isLineComment := Match('/');
      if isLineComment {
        SkipLineComment();
      } else {
        var isBlockComment := Match('*');
        if isBlockComment {
          SkipNestedComment();
        } else {
          AddToken(SLASH, NoLiteral);
        }
      }
    }

    /** The line-comment loop: up to, not including, the next newline. */
    method SkipLineComment()
      requires Valid()
      modifies this
      ensures Valid() && current == RunEnd(source, old(current), NotNewline)
      ensures start == old(start) && tokens == old(tokens) && line == old(line)
    {
      while Peek() != '\n' && !IsAtEnd()
        invariant Valid() && old(current) <= current
        invariant start == old(start) && tokens == old(tokens) && line == old(line)
        invariant RunEnd(source, current, NotNewline) == RunEnd(source, old(current), NotNewline)
        decreases |source| - current
      {
        var _ := Advance();
      }
    }

    /** The nested-comment loop after slash-star, and its error report. */
    method SkipNestedComment()
      requires Valid() && current == start + 2 && source[start] == '/' && source[start + 1] == '*'
      modifies this, lox
      ensures var r := BlockComment(source, old(start) + 2, 1);
        && Valid() && start == old(start) && current == r.end && line == old(line) + r.newlines
        && tokens == old(tokens) && lox.hadRuntimeError == old(lox.hadRuntimeError)
        && lox.printed == old(lox.printed) + (if r.depth > 0 then [CompileError(line, "", "Unterminated multi-line comment.")] else [])
        && lox.hadError == (old(lox.hadError) || r.depth > 0)
    {
      var nesting: nat := 1;
      while nesting > 0 && !IsAtEnd()
        modifies this
        invariant Valid() && start == old(start) && start + 2 <= current
        invariant tokens == old(tokens)
        invariant var r := BlockComment(source, start + 2, 1);
          var q := BlockComment(source, current, nesting);
          r.end == q.end && r.depth == q.depth && r.newlines == (line - old(line)) + q.newlines
        decreases |source| - current
      {
        nesting := CommentStep(nesting);
      }
      if nesting > 0 {
        lox.Error(line, "Unterminated multi-line comment.");
      }
    }

    /** One turn of the nested-comment loop: an opener, a closer, or one other character. */
    method CommentStep(nesting: nat) returns (next: nat)
      requires Valid() && nesting > 0 && current < |source|
      modifies this
      ensures Valid() && old(current) < current && start == old(start) && tokens == old(tokens)
      ensures var r := BlockComment(source, old(current), nesting);
        var q := BlockComment(source, current, next);
        r.end == q.end && r.depth == q.depth && r.newlines == (line - old(line)) + q.newlines
    {
      if Peek() == '/' && PeekNext() == '*' {
        var _ := Advance();
        var _ := Advance();
        next := nesting + 1;
      } else if Peek() == '*' && PeekNext() == '/' {
        var _ := Advance();
        var _ := Advance();
        next := nesting - 1;
      } else {
        if Peek() == '\n' {
          line := line + 1;
        }
        var _ := Advance();
        next := nesting;
      }
    }

    /** `string()`: the rest of a string literal after its opening quote. */
    method ScanString()
      requires Valid() && current == start + 1 && source[start] == '"'
      modifies this, lox
      ensures Finished(StringStep(source, old(start), old(line)), old(start), old(tokens),
                       old(lox.printed), old(lox.hadError), old(lox.hadRuntimeError))
    {
      SkipStringBody();
      ghost var st := StringStep(source, start, old(line));
      assert current == RunEnd(source, start + 1, NotQuote);
      if IsAtEnd() {
        assert st == Scanned(current, line, Report("Unterminated string."));
        lox.Error(line, "Unterminated string.");
        return;
      }
      var _ := Advance();
      assert st == Scanned(current, line, Emit(STRING, StringLiteral(source[start + 1..current - 1])));
      AddToken(STRING, StringLiteral(source[start + 1..current - 1]));
    }

    /** The loop of `string()`: up to the closing quote, counting newlines. */
    method SkipStringBody()
      requires Valid()
      modifies this
      ensures Valid() && current == RunEnd(source, old(current), NotQuote)
      ensures line == old(line) + CountIn(source, '\n', old(current), current)
      ensures start == old(start) && tokens == old(tokens)
    {
      while Peek() != '"' && !IsAtEnd()
        invariant Valid() && old(current) <= current
        invariant start == old(start) && tokens == old(tokens)
        invariant RunEnd(source, current, NotQuote) == RunEnd(source, old(current), NotQuote)
        invariant line == old(line) + CountIn(source, '\n', old(current), current)
        decreases |source| - current
      {
        if Peek() == '\n' {
          line := line + 1;
        }
        var _ := Advance();
      }
    }

    /** `number()`: the digits, then a fraction when a digit follows the dot. */
    method Number()
      requires Valid() && current == start + 1 && IsDigit(source[start])
      modifies this
      ensures Finished(NumberStep(source, old(start), old(line)), old(start), old(tokens),
                       lox.printed, lox.hadError, lox.hadRuntimeError)
    {
      SkipDigits();
      if Peek() == '.' && IsDigit(PeekNext()) {
        var _ := Advance();
        SkipDigits();
      }
      assert current == NumberEnd(source, start + 1);
      AddToken(NUMBER, NumberLiteral(source[start..current]));
    }

    /** One `while (isDigit(peek())) advance();` loop of `number()`. */
    method SkipDigits()
      requires Valid()
      modifies this
      ensures Valid() && current == RunEnd(source, old(current), IsDigit)
      ensures start == old(start) && tokens == old(tokens) && line == old(line)
    {
      while IsDigit(Peek())
        invariant Valid() && old(current) <= current
        invariant start == old(start) && tokens == old(tokens) && line == old(line)
        invariant RunEnd(source, current, IsDigit) == RunEnd(source, old(current), IsDigit)
        decreases |source| - current
      {
        var _ := Advance();
      }
    }

    /** `identifier()`: the rest of a word, then its kind from the keyword table. */
    method Identifier()
      requires Valid() && current == start + 1 && IsAlpha(source[start])
      modifies this
      ensures Finished(IdentifierStep(source, old(start), old(line)), old(start), old(tokens),
                       lox.printed, lox.hadError, lox.hadRuntimeError)
    {
      while IsAlphaNumeric(Peek())
        invariant Valid() && start == old(start) && start + 1 <= current
        invariant tokens == old(tokens) && line == old(line)
        invariant RunEnd(source, current, IsAlphaNumeric) == RunEnd(source, start + 1, IsAlphaNumeric)
        decreases |source| - current
      {
        var _ := Advance();
      }
      var text := source[start..current];
      AddToken(IdentifierKind(text), NoLiteral);
    }

    /** `peek()`: the character under the cursor, '\0' at the end. */
    function Peek(): (c: char)
      reads this
      ensures c == CharAt(source, current)
      ensures c != '\0' ==> current < |source|
    {
      if IsAtEnd() then '\0' else source[current]
    }

    /** `peekNext()`: the character after it, '\0' when there is none. */
    function PeekNext(): (c: char)
      reads this
      ensures c == CharAt(source, current + 1)
      ensures c != '\0' ==> current + 1 < |source|
    {
      if current + 1 >= |source| then '\0' else source[current + 1]
    }

    function IsAtEnd(): bool
      reads this
    {
      current >= |source|
    }

    /** `advance()`: return the character under the cursor and step past it. */
    method Advance() returns (c: char)
      requires Valid() && current < |source|
      modifies this
      ensures Valid() && c == source[old(current)] && current == old(current) + 1
      ensures start == old(start) && tokens == old(tokens) && line == old(line)
    {
      c := source[current];
      current := current + 1;
    }

    /** `match(expected)`: step past the next character only when it is `expected`. */
    method Match(expected: char) returns (matched: bool)
      requires Valid()
      modifies this
      ensures Valid() && matched == Matches(source, old(current), expected)
      ensures current == if matched then old(current) + 1 else old(current)
      ensures start == old(start) && tokens == old(tokens) && line == old(line)
    {
      if IsAtEnd() {
        return false;
      }
      if source[current] != expected {
        return false;
      }
      current := current + 1;
      return true;
    }

    /** `addToken(type, literal)`: append the token for `source[start..current]`. */
    method AddToken(kind: TokenType, literal: Literal)
      requires Valid()
      modifies this
      ensures Valid() && start == old(start) && current == old(current) && line == old(line)
      ensures tokens == old(tokens) + [Token(kind, source[start..current], literal, line)]
    {
      var lexeme := source[start..current];
      tokens := tokens + [Token(kind, lexeme, literal, line)];
    }
  }

  /** One scanning step followed by the rest of the scan. */
  lemma LexStep(src: string, pos: nat, line: int)
    requires pos < |src|
    ensures var st := ScanStep(src, pos, line);
      var rest := Lex(src, st.next, st.line);
      var here := Lex(src, pos, line);
      && here.tokens == EmittedTokens(src, pos, st) + rest.tokens
      && here.errors == ReportedErrors(st) + rest.errors
      && here.line == rest.line
  {
  }

  /** The `scanTokens` loop invariant survives one call of `scanToken`. */
  lemma ScanLoopStep(src: string, pos: nat, line: int, lexed: Lexed, base: seq<Token>,
                     done: seq<Token>, reported: seq<ScanError>)
    requires pos < |src|
    requires var here := Lex(src, pos, line);
      && base + lexed.tokens == done + here.tokens
      && lexed.errors == reported + here.errors
      && lexed.line == here.line
    ensures var st := ScanStep(src, pos, line);
      var rest := Lex(src, st.next, st.line);
      && base + lexed.tokens == (done + EmittedTokens(src, pos, st)) + rest.tokens
      && lexed.errors == (reported + ReportedErrors(st)) + rest.errors
      && lexed.line == rest.line
      && (|reported + ReportedErrors(st)| > 0 <==> |reported| > 0 || st.outcome.Report?)
  {
    var st := ScanStep(src, pos, line);
    var rest := Lex(src, st.next, st.line);
    var here := Lex(src, pos, line);
    LexStep(src, pos, line);
    Regroup(base + lexed.tokens, done, here.tokens, EmittedTokens(src, pos, st), rest.tokens);
    Regroup(lexed.errors, reported, here.errors, ReportedErrors(st), rest.errors);
  }

  /** Moving the head of what is left onto what is done. */
  lemma Regroup<T>(whole: seq<T>, done: seq<T>, here: seq<T>, head: seq<T>, rest: seq<T>)
    requires whole == done + here && here == head + rest
    ensures whole == (done + head) + rest
  {
    assert done + (head + rest) == (done + head) + rest;
  }

  /** When the `scanTokens` loop stops, the whole scan has been done. */
  lemma ScanLoopDone(src: string, pos: nat, line: int, lexed: Lexed, base: seq<Token>,
                     done: seq<Token>, reported: seq<ScanError>)
    requires pos == |src|
    requires var rest := Lex(src, pos, line);
      && base + lexed.tokens == done + rest.tokens
      && lexed.errors == reported + rest.errors
      && lexed.line == rest.line
    ensures done == base + lexed.tokens && reported == lexed.errors && line == lexed.line
  {
    assert Lex(src, pos, line) == Lexed([], [], [], line);
  }

  /** The token list after one lexeme is the one before plus what the lexeme emits. */
  lemma EmittedStep(src: string, s: nat, st: Scanned, tokens0: seq<Token>, tokens1: seq<Token>)
    requires s <= st.next <= |src|
    requires tokens1 == (if st.outcome.Emit? then tokens0 + [Token(st.outcome.kind, src[s..st.next], st.outcome.literal, st.line)]
                         else tokens0)
    ensures tokens1 == tokens0 + EmittedTokens(src, s, st)
  {
    if !st.outcome.Emit? {
      assert tokens0 + [] == tokens0;
    }
  }

  /** The standard-error half of the `scanTokens` loop invariant survives one step. */
  lemma PrintedStep(printedIn: seq<Diagnostic>, reported: seq<ScanError>, st: Scanned,
                    printed0: seq<Diagnostic>, printed1: seq<Diagnostic>)
    requires printed0 == printedIn + Diagnoses(reported)
    requires printed1 == (if st.outcome.Report? then printed0 + [CompileError(st.line, "", st.outcome.message)]
                          else printed0)
    ensures printed1 == printedIn + Diagnoses(reported + ReportedErrors(st))
  {
    DiagnosesAppend(reported, ReportedErrors(st));
    if st.outcome.Report? {
      assert [ScanError(st.line, st.outcome.message)][..0] == [];
    } else {
      assert Diagnoses([]) == [];
      assert Diagnoses(reported) + [] == Diagnoses(reported);
    }
  }

  /** The report lines of two batches of errors are those of each batch in turn. */
  lemma {:induction false} DiagnosesAppend(a: seq<ScanError>, b: seq<ScanError>)
    ensures Diagnoses(a + b) == Diagnoses(a) + Diagnoses(b)
    decreases |b|
  {
    if b == [] {
      assert a + b == a;
    } else {
      var init := b[..|b| - 1];
      assert (a + b)[..|a + b| - 1] == a + init;
      DiagnosesAppend(a, init);
    }
  }

  /** Each error is printed as `[line N] Error: <message>`, at its own position. */
  lemma {:induction false} DiagnosesAt(errors: seq<ScanError>, i: nat)
    requires i < |errors|
    ensures Diagnoses(errors)[i] == CompileError(errors[i].line, "", errors[i].message)
    ensures Render(Diagnoses(errors)[i]) == ReportText(errors[i].line, "", errors[i].message)
    decreases |errors|
  {
    if i < |errors| - 1 {
      DiagnosesAt(errors[..|errors| - 1], i);
    }
  }
}
