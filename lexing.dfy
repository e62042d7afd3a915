/**
 * The scanning rules of JLox/lox/Scanner.java stated as functions: what one
 * call of `scanToken` does when the cursor stands at index `s` on line
 * `line` (`ScanStep`), and what the whole `scanTokens` loop produces
 * (`Lex`, `ScanAll`). The class in scanner.dfy is proved to do exactly this;
 * the lemmas below state what the rules guarantee.
 *
 * The token kinds are those Scanner.java assigns, including `}` giving
 * RIGHT_PAREN, a bare `!` giving EQUAL, and `<`/`>` giving GREATER/LESS.
 */
module Lexing {
  import opened Text
  import opened Tokens

  // ---------------------------------------------------------------------
  // Character classes and the keyword table
  // ---------------------------------------------------------------------

  predicate IsAlpha(c: char) {
    ('a' <= c <= 'z') || ('A' <= c <= 'Z') || c == '_'
  }

  predicate IsAlphaNumeric(c: char) {
    IsDigit(c) || IsAlpha(c)
  }

  predicate NotNewline(c: char) {
    c != '\n'
  }

  predicate NotQuote(c: char) {
    c != '"'
  }

  /**
   * The keyword table: the kind of each of the sixteen reserved words, and
   * IDENTIFIER for every other word (`keywords.get(text)` returning null).
   */
  function IdentifierKind(text: string): TokenType {
    match text
    case "and" => AND
    case "class" => CLASS
    case "else" => ELSE
    case "false" => FALSE
    case "for" => FOR
    case "fun" => FUN
    case "if" => IF
    case "nil" => NIL
    case "or" => OR
    case "print" => PRINT
    case "return" => RETURN
    case "super" => SUPER
    case "this" => THIS
    case "true" => TRUE
    case "var" => VAR
    case "while" => WHILE
    case _ => IDENTIFIER
  }

  /** `[A-Za-z_][A-Za-z0-9_]*` */
  predicate IsIdentifierLexeme(t: string) {
    |t| >= 1 && IsAlpha(t[0]) && forall k :: 1 <= k < |t| ==> IsAlphaNumeric(t[k])
  }

  /** `[0-9]+(\.[0-9]+)?`: digits and at most one dot, with a digit at both ends. */
  predicate IsNumberLexeme(t: string) {
    && |t| >= 1 && IsDigit(t[0]) && IsDigit(t[|t| - 1])
    && (forall k :: 0 <= k < |t| ==> IsDigit(t[k]) || t[k] == '.')
    && (forall j, k :: 0 <= j < k < |t| && t[j] == '.' ==> t[k] != '.')
  }

  predicate IsKeywordKind(k: TokenType) {
    k.AND? || k.CLASS? || k.ELSE? || k.FALSE? || k.FUN? || k.FOR? || k.IF? || k.NIL? ||
    k.OR? || k.PRINT? || k.RETURN? || k.SUPER? || k.THIS? || k.TRUE? || k.VAR? || k.WHILE?
  }

  /** The kinds a word can get: IDENTIFIER or one of the keyword kinds. */
  predicate IsWordKind(k: TokenType) {
    k.IDENTIFIER? || IsKeywordKind(k)
  }

  /**
   * Every word gets a word kind; the reserved words are all spelled like
   * identifiers; and two different reserved words never share a kind.
   */
  lemma KeywordTable(t: string, u: string)
    ensures IsWordKind(IdentifierKind(t))
    ensures IdentifierKind(t) != IDENTIFIER ==> IsIdentifierLexeme(t)
    ensures IdentifierKind(t) != IDENTIFIER && IdentifierKind(t) == IdentifierKind(u) ==> t == u
  {
  }

  // ---------------------------------------------------------------------
  // The cursor primitives
  // ---------------------------------------------------------------------

  /** `peek()` at index `i` (and `peekNext()` at `i + 1`): '\0' past the end. */
  function CharAt(src: string, i: nat): char {
    if i < |src| then src[i] else '\0'
  }

  /** Whether `match(expected)` succeeds with the cursor at `i`. */
  predicate Matches(src: string, i: nat, expected: char) {
    i < |src| && src[i] == expected
  }

  /**
   * Where a loop `while (inRun(peek()) && !isAtEnd()) advance();` started
   * at `i` stops: the first index at or after `i` outside the run.
   */
  function RunEnd(src: string, i: nat, inRun: char -> bool): (e: nat)
    requires i <= |src|
    ensures i <= e <= |src|
    ensures forall k :: i <= k < e ==> inRun(src[k])
    ensures e == |src| || !inRun(src[e])
    decreases |src| - i
  {
    if i < |src| && inRun(src[i]) then RunEnd(src, i + 1, inRun) else i
  }

  /** Where `number()` stops when the first digit ends just before `i`. */
  function NumberEnd(src: string, i: nat): nat
    requires i <= |src|
  {
    var d := RunEnd(src, i, IsDigit);
    if CharAt(src, d) == '.' && IsDigit(CharAt(src, d + 1)) then RunEnd(src, d + 1, IsDigit) else d
  }

  /** Where the nested-comment loop stops, its final depth, and the newlines it counted. */
  datatype CommentScan = CommentScan(end: nat, depth: nat, newlines: nat)

  /**
   * The block-comment loop of `scanToken` from index `i` at nesting `depth`:
   * slash-star opens one more level, star-slash closes one, any other character is
   * skipped (and counted when it is a newline).
   */
  function BlockComment(src: string, i: nat, depth: nat): (r: CommentScan)
    requires i <= |src|
    ensures i <= r.end <= |src|
    ensures r.depth == 0 || r.end == |src|
    ensures depth > 0 && r.depth == 0 ==> i + 2 <= r.end && src[r.end - 2] == '*' && src[r.end - 1] == '/'
    ensures depth == 0 ==> r == CommentScan(i, 0, 0)
    decreases |src| - i
  {
    if depth == 0 || i == |src| then CommentScan(i, depth, 0)
    else if src[i] == '/' && CharAt(src, i + 1) == '*' then BlockComment(src, i + 2, depth + 1)
    else if src[i] == '*' && CharAt(src, i + 1) == '/' then BlockComment(src, i + 2, depth - 1)
    else
      var r := BlockComment(src, i + 1, depth);
      CommentScan(r.end, r.depth, r.newlines + if src[i] == '\n' then 1 else 0)
  }

  // ---------------------------------------------------------------------
  // One call of scanToken
  // ---------------------------------------------------------------------

  /** What one lexeme produces: a token, nothing, or a reported error. */
  datatype Outcome =
    | Emit(kind: TokenType, literal: Literal)
    | Silent
    | Report(message: string)

  /** The cursor and line after one lexeme, and what it produced. */
  datatype Scanned = Scanned(next: nat, line: int, outcome: Outcome)

  function Single(s: nat, line: int, kind: TokenType): Scanned {
    Scanned(s + 1, line, Emit(kind, NoLiteral))
  }

  /** `addToken(match('=') ? withEqual : alone)` after the first character at `s`. */
  function Operator(src: string, s: nat, line: int, withEqual: TokenType, alone: TokenType): Scanned {
    if Matches(src, s + 1, '=') then Scanned(s + 2, line, Emit(withEqual, NoLiteral))
    else Single(s, line, alone)
  }

  function SlashStep(src: string, s: nat, line: int): (st: Scanned)
    requires s < |src| && src[s] == '/'
  {
    if Matches(src, s + 1, '/') then Scanned(RunEnd(src, s + 2, NotNewline), line, Silent)
    else if Matches(src, s + 1, '*') then
      var r := BlockComment(src, s + 2, 1);
      Scanned(r.end, line + r.newlines,
              if r.depth > 0 then Report("Unterminated multi-line comment.") else Silent)
    else Single(s, line, SLASH)
  }

  function StringStep(src: string, s: nat, line: int): (st: Scanned)
    requires s < |src| && src[s] == '"'
  {
    var e := RunEnd(src, s + 1, NotQuote);
    var newLine := line + CountIn(src, '\n', s + 1, e);
    if e == |src| then Scanned(e, newLine, Report("Unterminated string."))
    else Scanned(e + 1, newLine, Emit(STRING, StringLiteral(src[s + 1..e])))
  }

  function NumberStep(src: string, s: nat, line: int): (st: Scanned)
    requires s < |src|
  {
    var e := NumberEnd(src, s + 1);
    Scanned(e, line, Emit(NUMBER, NumberLiteral(src[s..e])))
  }

  function IdentifierStep(src: string, s: nat, line: int): (st: Scanned)
    requires s < |src|
  {
    var e := RunEnd(src, s + 1, IsAlphaNumeric);
    Scanned(e, line, Emit(IdentifierKind(src[s..e]), NoLiteral))
  }

  predicate IsPunctuation(c: char) {
    c == '(' || c == ')' || c == '{' || c == '}' || c == ',' ||
    c == '.' || c == '-' || c == '+' || c == ';' || c == '*'
  }

  /** The kind of a one-character token, as the `switch` of `scanToken` assigns it. */
  function PunctuationKind(c: char): TokenType
    requires IsPunctuation(c)
  {
    match c
    case '(' => LEFT_PAREN
    case ')' => RIGHT_PAREN
    case '{' => LEFT_BRACE
    case '}' => RIGHT_PAREN
    case ',' => COMMA
    case '.' => DOT
    case '-' => MINUS
    case '+' => PLUS
    case ';' => SEMICOLON
    case '*' => STAR
  }

  predicate IsOperatorStart(c: char) {
    c == '!' || c == '=' || c == '<' || c == '>'
  }

  /** The kinds `scanToken` assigns to `c=` and to a lone `c`. */
  function OperatorKinds(c: char): (kinds: (TokenType, TokenType))
    requires IsOperatorStart(c)
  {
    match c
    case '!' => (BANG_EQUAL, EQUAL)
    case '=' => (EQUAL_EQUAL, EQUAL)
    case '<' => (GREATER_EQUAL, GREATER)
    case '>' => (LESS_EQUAL, LESS)
  }

  predicate IsBlank(c: char) {
    c == ' ' || c == '\t' || c == '\r'
  }

  /** One call of `scanToken` with `start == current == s`. */
  function ScanStep(src: string, s: nat, line: int): (st: Scanned)
    requires s < |src|
    ensures s < st.next <= |src|
  {
    var c := src[s];
    if IsPunctuation(c) then Single(s, line, PunctuationKind(c))
    else if IsOperatorStart(c) then Operator(src, s, line, OperatorKinds(c).0, OperatorKinds(c).1)
    else if c == '/' then SlashStep(src, s, line)
    else if IsBlank(c) then Scanned(s + 1, line, Silent)
    else if c == '\n' then Scanned(s + 1, line + 1, Silent)
    else if c == '"' then StringStep(src, s, line)
    else if IsDigit(c) then NumberStep(src, s, line)
    else if IsAlpha(c) then IdentifierStep(src, s, line)
    else Scanned(s + 1, line, Report("Unexpected character."))
  }

  // ---------------------------------------------------------------------
  // The whole scan
  // ---------------------------------------------------------------------

  /** The source range `[start, end)` a token was sliced from. */
  datatype Span = Span(start: nat, end: nat)

  /** An error handed to `Lox.error(line, message)`. */
  datatype ScanError = ScanError(line: int, message: string)

  datatype Lexed = Lexed(tokens: seq<Token>, spans: seq<Span>, errors: seq<ScanError>, line: int)

  /** The token `addToken` appends for a lexeme `[s, st.next)`, if any. */
  function EmittedTokens(src: string, s: nat, st: Scanned): seq<Token>
    requires s <= st.next <= |src|
  {
    if st.outcome.Emit? then [Token(st.outcome.kind, src[s..st.next], st.outcome.literal, st.line)] else []
  }

  /** The error a lexeme reports, if any. */
  function ReportedErrors(st: Scanned): seq<ScanError> {
    if st.outcome.Report? then [ScanError(st.line, st.outcome.message)] else []
  }

  /** The `scanTokens` loop from cursor `pos` on line `line` to the end. */
  function Lex(src: string, pos: nat, line: int): Lexed
    requires pos <= |src|
    decreases |src| - pos
  {
    if pos == |src| then Lexed([], [], [], line)
    else
      var st := ScanStep(src, pos, line);
      var rest := Lex(src, st.next, st.line);
      Lexed(EmittedTokens(src, pos, st) + rest.tokens,
            (if st.outcome.Emit? then [Span(pos, st.next)] else []) + rest.spans,
            ReportedErrors(st) + rest.errors,
            rest.line)
  }

  function EofToken(line: int): Token {
    Token(EOF, "", NoLiteral, line)
  }

  /**
   * The list `scanTokens` returns: exactly one EOF token, last, with an
   * empty lexeme and the line number one more than the source's newlines.
   */
  function ScanAll(src: string): (r: seq<Token>)
    ensures |r| >= 1 && r[|r| - 1] == Token(EOF, "", NoLiteral, 1 + multiset(src)['\n'])
    ensures forall i :: 0 <= i < |r| - 1 ==> r[i].kind != EOF
  {
    var lexed := Lex(src, 0, 1);
    LexLine(src, 0, 1);
    CountInMultiset(src, '\n', |src|);
    assert src[..|src|] == src;
    LexKinds(src, 0, 1);
    lexed.tokens + [EofToken(lexed.line)]
  }

  /** The errors a whole scan reports, in order. */
  function ScanErrors(src: string): seq<ScanError> {
    Lex(src, 0, 1).errors
  }

  // ---------------------------------------------------------------------
  // Line counting
  // ---------------------------------------------------------------------

  /** The newlines the comment loop counts are exactly those it skips over. */
  lemma {:induction false} BlockCommentNewlines(src: string, i: nat, depth: nat)
    requires i <= |src|
    ensures BlockComment(src, i, depth).newlines == CountIn(src, '\n', i, BlockComment(src, i, depth).end)
    decreases |src| - i
  {
    var r := BlockComment(src, i, depth);
    if depth == 0 || i == |src| {
    } else if src[i] == '/' && CharAt(src, i + 1) == '*' {
      BlockCommentNewlines(src, i + 2, depth + 1);
      CountInNone(src, '\n', i, i + 2);
      CountInSplit(src, '\n', i, i + 2, r.end);
    } else if src[i] == '*' && CharAt(src, i + 1) == '/' {
      BlockCommentNewlines(src, i + 2, depth - 1);
      CountInNone(src, '\n', i, i + 2);
      CountInSplit(src, '\n', i, i + 2, r.end);
    } else {
      BlockCommentNewlines(src, i + 1, depth);
      CountInSplit(src, '\n', i, i + 1, r.end);
    }
  }

  /** One lexeme moves the line counter by the newlines it spans. */
  lemma StepLine(src: string, s: nat, line: int)
    requires s < |src|
    ensures ScanStep(src, s, line).line == line + CountIn(src, '\n', s, ScanStep(src, s, line).next)
  {
    var st := ScanStep(src, s, line);
    var c := src[s];
    if IsPunctuation(c) || IsOperatorStart(c) {
      CountInNone(src, '\n', s, st.next);
    } else if c == '/' {
      SlashLine(src, s, line);
    } else if IsBlank(c) {
      CountInNone(src, '\n', s, s + 1);
    } else if c == '\n' {
    } else if c == '"' {
      StringLine(src, s, line);
    } else if IsDigit(c) {
      NumberLine(src, s, line);
    } else if IsAlpha(c) {
      CountInNone(src, '\n', s, st.next);
    } else {
      CountInNone(src, '\n', s, s + 1);
    }
  }

  /** `StepLine` for a lexeme starting with `/`. */
  lemma SlashLine(src: string, s: nat, line: int)
    requires s < |src| && src[s] == '/'
    ensures SlashStep(src, s, line).line == line + CountIn(src, '\n', s, SlashStep(src, s, line).next)
  {
    var st := SlashStep(src, s, line);
    CountInNone(src, '\n', s, s + 1);
    if Matches(src, s + 1, '/') {
      CountInNone(src, '\n', s + 2, st.next);
      CountInNone(src, '\n', s, s + 2);
      CountInSplit(src, '\n', s, s + 2, st.next);
    } else if Matches(src, s + 1, '*') {
      BlockCommentNewlines(src, s + 2, 1);
      CountInNone(src, '\n', s, s + 2);
      CountInSplit(src, '\n', s, s + 2, st.next);
    }
  }

  /** `StepLine` for a string literal. */
  lemma StringLine(src: string, s: nat, line: int)
    requires s < |src| && src[s] == '"'
    ensures StringStep(src, s, line).line == line + CountIn(src, '\n', s, StringStep(src, s, line).next)
  {
    var e := RunEnd(src, s + 1, NotQuote);
    CountInSplit(src, '\n', s, s + 1, e);
    if e < |src| {
      CountInSplit(src, '\n', s, e, e + 1);
    }
  }

  /** A number lexeme spans no newline. */
  lemma NumberLine(src: string, s: nat, line: int)
    requires s < |src| && IsDigit(src[s])
    ensures CountIn(src, '\n', s, NumberStep(src, s, line).next) == 0
  {
    var d := RunEnd(src, s + 1, IsDigit);
    var e := NumberEnd(src, s + 1);
    if CharAt(src, d) == '.' && IsDigit(CharAt(src, d + 1)) {
      forall k | s <= k < e ensures src[k] != '\n' {
        if k > d { assert IsDigit(src[k]); } else if k < d { assert k == s || IsDigit(src[k]); }
      }
    }
    CountInNone(src, '\n', s, e);
  }

  /** The final line is the starting line plus the newlines still ahead. */
  lemma {:induction false} LexLine(src: string, pos: nat, line: int)
    requires pos <= |src|
    ensures Lex(src, pos, line).line == line + CountIn(src, '\n', pos, |src|)
    decreases |src| - pos
  {
    if pos < |src| {
      var st := ScanStep(src, pos, line);
      StepLine(src, pos, line);
      LexLine(src, st.next, st.line);
      CountInSplit(src, '\n', pos, st.next, |src|);
    }
  }

  // ---------------------------------------------------------------------
  // Token kinds
  // ---------------------------------------------------------------------

  /**
   * A scan never produces EOF (only `scanTokens` appends it), nor BANG or
   * RIGHT_BRACE, which no branch of `scanToken` assigns.
   */
  lemma StepKind(src: string, s: nat, line: int)
    requires s < |src|
    ensures ScanStep(src, s, line).outcome.Emit? ==> ScanStep(src, s, line).outcome.kind !in {EOF, BANG, RIGHT_BRACE}
  {
    var c := src[s];
    if IsPunctuation(c) {
      assert PunctuationKind(c) !in {EOF, BANG, RIGHT_BRACE};
    } else if IsOperatorStart(c) {
      assert OperatorKinds(c).0 !in {EOF, BANG, RIGHT_BRACE};
      assert OperatorKinds(c).1 !in {EOF, BANG, RIGHT_BRACE};
    } else if IsAlpha(c) && !IsDigit(c) {
      var e := RunEnd(src, s + 1, IsAlphaNumeric);
      WordKindIsWord(src[s..e]);
    }
  }

  lemma WordKindIsWord(t: string)
    ensures IsWordKind(IdentifierKind(t)) && IdentifierKind(t) !in {EOF, BANG, RIGHT_BRACE}
  {
    KeywordTable(t, t);
  }

  lemma {:induction false} LexKinds(src: string, pos: nat, line: int)
    requires pos <= |src|
    ensures forall t :: t in Lex(src, pos, line).tokens ==> t.kind !in {EOF, BANG, RIGHT_BRACE}
    decreases |src| - pos
  {
    if pos < |src| {
      var st := ScanStep(src, pos, line);
      LexKinds(src, st.next, st.line);
      StepKind(src, pos, line);
    }
  }

  // ---------------------------------------------------------------------
  // Where each token comes from
  // ---------------------------------------------------------------------

  /**
   * Token `t` with span `sp` was appended by one `scanToken` call that
   * started at `sp.start` on the line reached there, and stopped at `sp.end`.
   */
  predicate ProducedAt(src: string, pos: nat, line: int, t: Token, sp: Span) {
    && pos <= sp.start < sp.end <= |src|
    && var st := ScanStep(src, sp.start, line + CountIn(src, '\n', pos, sp.start));
    && st.next == sp.end
    && st.outcome == Emit(t.kind, t.literal)
    && t.lexeme == src[sp.start..sp.end]
    && t.line == st.line == line + CountIn(src, '\n', pos, sp.end)
  }

  /**
   * Every token is the slice of source its `scanToken` call consumed, on
   * the line reached at the end of that slice; the spans appear in source
   * order and do not overlap.
   */
  lemma {:induction false} LexTokens(src: string, pos: nat, line: int)
    requires pos <= |src|
    ensures var r := Lex(src, pos, line);
      && |r.tokens| == |r.spans|
      && (forall i :: 0 <= i < |r.spans| ==> ProducedAt(src, pos, line, r.tokens[i], r.spans[i]))
      && (forall i, j :: 0 <= i < j < |r.spans| ==> r.spans[i].end <= r.spans[j].start)
    decreases |src| - pos
  {
    if pos < |src| {
      var st := ScanStep(src, pos, line);
      var r := Lex(src, pos, line);
      var rest := Lex(src, st.next, st.line);
      LexTokens(src, st.next, st.line);
      forall i | 0 <= i < |rest.spans|
        ensures ProducedAt(src, pos, line, rest.tokens[i], rest.spans[i])
      {
        ProducedAtEarlier(src, pos, line, rest.tokens[i], rest.spans[i]);
      }
      if st.outcome.Emit? {
        LexTokensHead(src, pos, line);
        forall i | 0 <= i < |r.spans| ensures ProducedAt(src, pos, line, r.tokens[i], r.spans[i]) {
          if i > 0 {
            assert r.tokens[i] == rest.tokens[i - 1] && r.spans[i] == rest.spans[i - 1];
          }
        }
      }
    }
  }

  /** A token produced after the first step is also produced counting from before it. */
  lemma ProducedAtEarlier(src: string, pos: nat, line: int, t: Token, sp: Span)
    requires pos < |src|
    requires ProducedAt(src, ScanStep(src, pos, line).next, ScanStep(src, pos, line).line, t, sp)
    ensures ProducedAt(src, pos, line, t, sp)
  {
    var st := ScanStep(src, pos, line);
    StepLine(src, pos, line);
    CountInSplit(src, '\n', pos, st.next, sp.start);
    CountInSplit(src, '\n', pos, st.next, sp.end);
  }

  /** The token of an emitting first step is produced by that step. */
  lemma LexTokensHead(src: string, pos: nat, line: int)
    requires pos < |src| && ScanStep(src, pos, line).outcome.Emit?
    ensures var r := Lex(src, pos, line);
      && |r.tokens| >= 1 && |r.spans| >= 1
      && r.spans[0] == Span(pos, ScanStep(src, pos, line).next)
      && ProducedAt(src, pos, line, r.tokens[0], r.spans[0])
  {
    var st := ScanStep(src, pos, line);
    StepLine(src, pos, line);
    CountInNone(src, '\n', pos, pos);
  }

  // ---------------------------------------------------------------------
  // What one lexeme produces, by its first character
  // ---------------------------------------------------------------------

  /**
   * A step emits IDENTIFIER or a keyword kind exactly when it starts at a
   * letter or `_`; the lexeme is then a maximal `[A-Za-z_][A-Za-z0-9_]*`
   * run whose kind is looked up in the keyword table.
   */
  lemma StepWord(src: string, s: nat, line: int)
    requires s < |src|
    ensures var st := ScanStep(src, s, line);
      (st.outcome.Emit? && IsWordKind(st.outcome.kind)) <==> IsAlpha(src[s])
    ensures var st := ScanStep(src, s, line); var text := src[s..st.next];
      IsAlpha(src[s]) ==>
        && IsIdentifierLexeme(text)
        && st.outcome == Emit(IdentifierKind(text), NoLiteral)
        && st.line == line
        && (st.next == |src| || !IsAlphaNumeric(src[st.next]))
  {
    var c := src[s];
    if IsAlpha(c) {
      assert !IsDigit(c) && !IsPunctuation(c) && !IsOperatorStart(c);
      WordLexeme(src, s, line);
    } else if !IsDigit(c) && c != '"' {
      OtherKinds(src, s, line);
    }
  }

  /** Punctuation and operators emit neither a word kind, NUMBER nor STRING. */
  lemma OtherKinds(src: string, s: nat, line: int)
    requires s < |src| && !IsAlpha(src[s]) && !IsDigit(src[s]) && src[s] != '"'
    ensures var st := ScanStep(src, s, line);
      st.outcome.Emit? ==> !IsWordKind(st.outcome.kind) && st.outcome.kind != NUMBER && st.outcome.kind != STRING
  {
    var c := src[s];
    if IsPunctuation(c) {
      assert !IsWordKind(PunctuationKind(c));
    } else if IsOperatorStart(c) {
      assert !IsWordKind(OperatorKinds(c).0) && !IsWordKind(OperatorKinds(c).1);
    }
  }

  /** The text an identifier step consumes is a word that no letter or digit follows. */
  lemma WordLexeme(src: string, s: nat, line: int)
    requires s < |src| && IsAlpha(src[s])
    ensures var st := IdentifierStep(src, s, line); var text := src[s..st.next];
      && IsIdentifierLexeme(text)
      && IsWordKind(st.outcome.kind)
      && (st.next == |src| || !IsAlphaNumeric(src[st.next]))
  {
    var e := RunEnd(src, s + 1, IsAlphaNumeric);
    var text := src[s..e];
    forall k | 1 <= k < |text| ensures IsAlphaNumeric(text[k]) {
      assert text[k] == src[s + k];
    }
    WordKindIsWord(text);
  }

  /**
   * A step emits NUMBER exactly when it starts at a digit. The lexeme is
   * `[0-9]+(\.[0-9]+)?`, its literal keeps that text, no digit follows it,
   * and a `.` after a fraction-less lexeme is not followed by a digit (it is
   * left for the next step, which makes it a DOT token).
   */
  lemma StepNumber(src: string, s: nat, line: int)
    requires s < |src|
    ensures var st := ScanStep(src, s, line);
      (st.outcome.Emit? && st.outcome.kind == NUMBER) <==> IsDigit(src[s])
    ensures var st := ScanStep(src, s, line); var text := src[s..st.next];
      IsDigit(src[s]) ==>
        && IsNumberLexeme(text)
        && st.outcome == Emit(NUMBER, NumberLiteral(text))
        && st.line == line
        && (st.next == |src| || !IsDigit(src[st.next]))
        && ('.' !in text && CharAt(src, st.next) == '.' ==> !IsDigit(CharAt(src, st.next + 1)))
        && (CharAt(src, st.next) == '.' ==>
              ScanStep(src, st.next, line) == Scanned(st.next + 1, line, Emit(DOT, NoLiteral)))
  {
    var c := src[s];
    var st := ScanStep(src, s, line);
    if IsDigit(c) {
      assert !IsPunctuation(c) && !IsOperatorStart(c) && !IsBlank(c) && c != '/' && c != '"' && c != '\n';
      NumberLexeme(src, s);
      if CharAt(src, st.next) == '.' {
        assert IsPunctuation(src[st.next]) && PunctuationKind('.') == DOT;
      }
    } else if IsAlpha(c) {
      WordKindIsWord(src[s..st.next]);
    } else if c != '"' {
      OtherKinds(src, s, line);
    }
  }

  /** The text a number step consumes is a number lexeme that no digit follows. */
  lemma NumberLexeme(src: string, s: nat)
    requires s < |src| && IsDigit(src[s])
    ensures var e := NumberEnd(src, s + 1); var text := src[s..e];
      && IsNumberLexeme(text)
      && (e == |src| || !IsDigit(src[e]))
      && ('.' !in text && CharAt(src, e) == '.' ==> !IsDigit(CharAt(src, e + 1)))
  {
    var text := src[s..NumberEnd(src, s + 1)];
    var d := RunEnd(src, s + 1, IsDigit);
    if CharAt(src, d) == '.' && IsDigit(CharAt(src, d + 1)) {
      assert text[d - s] == '.';
      forall k | 0 <= k < |text| ensures IsDigit(text[k]) || text[k] == '.' {
        assert text[k] == src[s + k];
        if s + k < d { assert s + k == s || IsDigit(src[s + k]); }
        else if s + k > d { assert IsDigit(src[s + k]); }
      }
      forall j, k | 0 <= j < k < |text| && text[j] == '.' ensures text[k] != '.' {
        assert text[j] == src[s + j] && text[k] == src[s + k];
        assert s + j == d;
        assert IsDigit(src[s + k]);
      }
    } else {
      forall k | 0 <= k < |text| ensures IsDigit(text[k]) {
        assert text[k] == src[s + k];
        assert s + k == s || IsDigit(src[s + k]);
      }
      assert '.' !in text;
    }
  }

  /**
   * A step at `"` consumes up to and including the next `"`, counting the
   * newlines in between, and emits STRING with the text strictly between
   * the quotes; with no closing `"` it consumes the rest of the source and
   * reports "Unterminated string." instead of emitting a token. STRING is
   * emitted only from a step at `"`.
   */
  lemma StepString(src: string, s: nat, line: int)
    requires s < |src|
    ensures var st := ScanStep(src, s, line);
      (st.outcome.Emit? && st.outcome.kind == STRING) ==> src[s] == '"'
    ensures var st := ScanStep(src, s, line);
      src[s] == '"' ==>
        && st.line == line + CountIn(src, '\n', s, st.next)
        && if '"' in src[s + 1..] then
             && s + 2 <= st.next && src[st.next - 1] == '"'
             && '"' !in src[s + 1..st.next - 1]
             && st.outcome == Emit(STRING, StringLiteral(src[s + 1..st.next - 1]))
           else
             st.next == |src| && st.outcome == Report("Unterminated string.")
  {
    var c := src[s];
    var st := ScanStep(src, s, line);
    StepLine(src, s, line);
    if c == '"' {
      assert !IsPunctuation(c) && !IsOperatorStart(c) && !IsBlank(c);
      var e := RunEnd(src, s + 1, NotQuote);
      if e < |src| {
        assert '"' in src[s + 1..] by { assert src[s + 1..][e - s - 1] == '"'; }
        assert forall k :: s + 1 <= k < e ==> src[k] != '"';
      } else {
        assert forall k :: s + 1 <= k < |src| ==> src[k] != '"';
      }
    } else if IsPunctuation(c) {
      assert PunctuationKind(c) != STRING;
    } else if IsOperatorStart(c) {
      assert OperatorKinds(c).0 != STRING && OperatorKinds(c).1 != STRING;
    } else if IsAlpha(c) && !IsDigit(c) {
      WordKindIsWord(src[s..st.next]);
    }
  }

  /**
   * Line comments and block comments emit no token. A line comment stops before the
   * next newline. A block comment nests; it either ends right after the
   * star-slash that brings the depth back to zero, or runs to the end of the
   * source and reports "Unterminated multi-line comment.".
   */
  lemma StepComment(src: string, s: nat, line: int)
    requires s + 1 < |src| && src[s] == '/' && (src[s + 1] == '/' || src[s + 1] == '*')
    ensures var st := ScanStep(src, s, line);
      && !st.outcome.Emit?
      && st.line == line + CountIn(src, '\n', s, st.next)
      && (src[s + 1] == '/' ==>
            st.outcome == Silent && (st.next == |src| || src[st.next] == '\n')
            && forall k :: s <= k < st.next ==> src[k] != '\n')
      && (src[s + 1] == '*' ==>
            var r := BlockComment(src, s + 2, 1);
            && st.next == r.end
            && (r.depth == 0 ==> st.outcome == Silent && src[st.next - 2..st.next] == "*/")
            && (r.depth > 0 ==>
                  st.next == |src| && st.outcome == Report("Unterminated multi-line comment.")))
  {
    StepLine(src, s, line);
    var st := ScanStep(src, s, line);
    var c := src[s];
    assert !IsPunctuation(c) && !IsOperatorStart(c);
  }

  /** Space, tab and carriage return are skipped; a newline only bumps the line. */
  lemma StepBlank(src: string, s: nat, line: int)
    requires s < |src| && (IsBlank(src[s]) || src[s] == '\n')
    ensures ScanStep(src, s, line) == Scanned(s + 1, if src[s] == '\n' then line + 1 else line, Silent)
  {
  }

  /**
   * A character that starts no lexeme is reported as "Unexpected character."
   * and scanning resumes at the next character.
   */
  lemma StepUnexpected(src: string, s: nat, line: int)
    requires s < |src|
    requires !IsPunctuation(src[s]) && !IsOperatorStart(src[s]) && !IsBlank(src[s])
    requires src[s] !in "/\n\"" && !IsAlphaNumeric(src[s])
    ensures ScanStep(src, s, line) == Scanned(s + 1, line, Report("Unexpected character."))
  {
  }

  /**
   * Maximal munch: `!`, `=`, `<` and `>` take a following `=` into the
   * token and only then. The kinds are those Scanner.java assigns: a lone
   * `!` is EQUAL, `<`/`<=` are GREATER/GREATER_EQUAL and `>`/`>=` are
   * LESS/LESS_EQUAL; `}` is RIGHT_PAREN.
   */
  lemma StepOperator(src: string, s: nat, line: int)
    requires s < |src| && (IsOperatorStart(src[s]) || src[s] == '}')
    ensures var st := ScanStep(src, s, line);
      && st.line == line
      && (src[s] == '}' ==> st == Scanned(s + 1, line, Emit(RIGHT_PAREN, NoLiteral)))
      && (IsOperatorStart(src[s]) ==>
            && (Matches(src, s + 1, '=') <==> st.next == s + 2)
            && (Matches(src, s + 1, '=') ==> st.outcome == Emit(OperatorKinds(src[s]).0, NoLiteral))
            && (!Matches(src, s + 1, '=') ==> st.next == s + 1 && st.outcome == Emit(OperatorKinds(src[s]).1, NoLiteral)))
    ensures OperatorKinds('!') == (BANG_EQUAL, EQUAL) && OperatorKinds('=') == (EQUAL_EQUAL, EQUAL)
    ensures OperatorKinds('<') == (GREATER_EQUAL, GREATER) && OperatorKinds('>') == (LESS_EQUAL, LESS)
  {
  }

  // ---------------------------------------------------------------------
  // Errors
  // ---------------------------------------------------------------------

  /**
   * An unterminated string or block comment is reported once, on the line
   * where the source ends, and nothing is scanned after it.
   */
  lemma LexUnterminated(src: string, pos: nat, line: int)
    requires pos < |src|
    requires ScanStep(src, pos, line).outcome in
      {Report("Unterminated string."), Report("Unterminated multi-line comment.")}
    ensures var st := ScanStep(src, pos, line);
      Lex(src, pos, line) == Lexed([], [], [ScanError(line + CountIn(src, '\n', pos, |src|), st.outcome.message)], st.line)
  {
    var st := ScanStep(src, pos, line);
    var c := src[pos];
    StepLine(src, pos, line);
    if c == '"' {
      StepString(src, pos, line);
    } else if c == '/' {
      assert !IsPunctuation(c) && !IsOperatorStart(c);
    } else {
      assert false;
    }
  }
}
