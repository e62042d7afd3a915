/**
 * The REPL's guess whether a line it has read is the start of a longer
 * statement (`needsMultipleLines`): a declaration or a control statement
 * without its closing brace, or a line whose braces or parentheses are
 * left open, or whose string literal is left open. Quotes of either kind
 * open a string; characters inside it are ignored; a quote preceded by a
 * backslash does not close it.
 */
module Prompt {
  import opened Text

  /** The locals of the counting loop: `openBraces`, `openParens`, `inString`, `stringDelim`. */
  datatype Delimiters = Delimiters(braces: int, parens: int, inString: bool, delim: char)

  const Initial := Delimiters(0, 0, false, '\0')

  predicate IsQuote(c: char) {
    c == '"' || c == '\''
  }

  /** One turn of the counting loop, at index `i` of `t`. */
  function Count(t: string, i: nat, d: Delimiters): Delimiters
    requires i < |t|
  {
    var c := t[i];
    if !d.inString then
      if IsQuote(c) then d.(inString := true, delim := c)
      else if c == '{' then d.(braces := d.braces + 1)
      else if c == '}' then d.(braces := d.braces - 1)
      else if c == '(' then d.(parens := d.parens + 1)
      else if c == ')' then d.(parens := d.parens - 1)
      else d
    else if c == d.delim && (i == 0 || t[i - 1] != '\\') then d.(inString := false)
    else d
  }

  /** The counting loop over the first `k` characters of `t`. */
  function CountTo(t: string, k: nat): (d: Delimiters)
    requires k <= |t|
    ensures d.inString ==> IsQuote(d.delim)
  {
    if k == 0 then Initial else Count(t, k - 1, CountTo(t, k - 1))
  }

  /** The declaration rule: `fun ` or `class ` without a closing `}`. */
  predicate OpensDeclaration(t: string) {
    (StartsWith(t, "fun ") || StartsWith(t, "class ")) && !EndsWith(t, "}")
  }

  /** The control rule: `if `, `while `, `for ` or `else` ending in neither `}` nor `;`. */
  predicate OpensControl(t: string) {
    && (StartsWith(t, "if ") || StartsWith(t, "while ") || StartsWith(t, "for ") || StartsWith(t, "else"))
    && !EndsWith(t, "}") && !EndsWith(t, ";")
  }

  /** The counting rule: an open brace, an open parenthesis, or an open string at the end. */
  predicate Unbalanced(t: string) {
    var d := CountTo(t, |t|);
    d.braces > 0 || d.parens > 0 || d.inString
  }

  /** `needsMultipleLines`: the three rules, applied to the trimmed line. */
  method NeedsMultipleLines(line: string) returns (needs: bool)
    ensures var t := Trim(line);
      needs <==> OpensDeclaration(t) || OpensControl(t) || Unbalanced(t)
  {
    var t := Trim(line);
    if StartsWith(t, "fun ") && !EndsWith(t, "}") {
      return true;
    }
    if StartsWith(t, "class ") && !EndsWith(t, "}") {
      return true;
    }
    if (StartsWith(t, "if ") || StartsWith(t, "while ") || StartsWith(t, "for ") || StartsWith(t, "else"))
       && !EndsWith(t, "}") && !EndsWith(t, ";") {
      return true;
    }
    var openBraces := 0;
    var openParens := 0;
    var inString := false;
    var stringDelim := '\0';
    for i := 0 to |t|
      invariant Delimiters(openBraces, openParens, inString, stringDelim) == CountTo(t, i)
    {
      var c := t[i];
      if !inString {
        if c == '"' || c == '\'' {
          inString := true;
          stringDelim := c;
        } else if c == '{' {
          openBraces := openBraces + 1;
        } else if c == '}' {
          openBraces := openBraces - 1;
        } else if c == '(' {
          openParens := openParens + 1;
        } else if c == ')' {
          openParens := openParens - 1;
        }
      } else if c == stringDelim && (i == 0 || t[i - 1] != '\\') {
        inString := false;
      }
    }
    return openBraces > 0 || openParens > 0 || inString;
  }

  /**
   * Without quotes the loop is a plain count: the open braces are the `{`
   * minus the `}`, the open parentheses the `(` minus the `)`, and no
   * string is open.
   */
  lemma {:induction false} CountWithoutQuotes(t: string, k: nat)
    requires k <= |t|
    requires forall j :: 0 <= j < k ==> !IsQuote(t[j])
    ensures CountTo(t, k).braces == CountIn(t, '{', 0, k) - CountIn(t, '}', 0, k)
    ensures CountTo(t, k).parens == CountIn(t, '(', 0, k) - CountIn(t, ')', 0, k)
    ensures !CountTo(t, k).inString
  {
    if k > 0 {
      CountWithoutQuotes(t, k - 1);
    }
  }

  /**
   * A quoted span leaves the counts as they were: from an opening quote at
   * `i` (outside any string) to the first matching quote at `j` that is not
   * preceded by a backslash, every brace and parenthesis is ignored, and
   * after it no string is open.
   */
  lemma QuotedSpan(t: string, i: nat, j: nat)
    requires i < j < |t|
    requires !CountTo(t, i).inString && IsQuote(t[i])
    requires forall k :: i < k < j ==> t[k] != t[i]
    requires t[j] == t[i] && t[j - 1] != '\\'
    ensures CountTo(t, j + 1) == CountTo(t, i).(delim := t[i])
  {
    InsideString(t, i, j);
  }

  /** Inside a string, up to the first matching quote, nothing changes. */
  lemma {:induction false} InsideString(t: string, i: nat, k: nat)
    requires i < k <= |t|
    requires !CountTo(t, i).inString && IsQuote(t[i])
    requires forall m :: i < m < k ==> t[m] != t[i]
    ensures CountTo(t, k) == CountTo(t, i).(inString := true, delim := t[i])
    decreases k
  {
    if k > i + 1 {
      InsideString(t, i, k - 1);
    }
  }

  /** A backslash followed by the delimiter does not close the open string. */
  lemma EscapedQuote(t: string, k: nat)
    requires k + 1 < |t|
    requires CountTo(t, k).inString
    requires t[k] == '\\' && t[k + 1] == CountTo(t, k).delim
    ensures CountTo(t, k + 2).inString && CountTo(t, k + 2) == CountTo(t, k)
  {
  }
}
