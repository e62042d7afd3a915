/**
 * Character and string helpers shared by the scanner, the error reporter,
 * the REPL heuristics and the test runner: decimal rendering of integers
 * (Java's and Rust's `+ int` / `{}` formatting), Java's `String.trim`,
 * prefix and suffix tests, and splitting a string on one separator
 * character (Rust's `str::split` with a `char` pattern).
 */
module Text {

  datatype Option<T> = None | Some(value: T)

  predicate IsDigit(c: char) {
    '0' <= c <= '9'
  }

  function DigitChar(d: nat): (c: char)
    requires d < 10
    ensures IsDigit(c) && DigitValue(c) == d
  {
    ['0', '1', '2', '3', '4', '5', '6', '7', '8', '9'][d]
  }

  function DigitValue(c: char): nat
    requires IsDigit(c)
  {
    (c as int - '0' as int) as nat
  }

  predicate AllDigits(s: string) {
    forall i :: 0 <= i < |s| ==> IsDigit(s[i])
  }

  /** Decimal rendering of a natural number, most significant digit first. */
  function NatToString(n: nat): (s: string)
    ensures 1 <= |s| && AllDigits(s)
    ensures n < 10 <==> |s| == 1
    ensures s[0] == '0' ==> n == 0
    decreases n
  {
    if n < 10 then [DigitChar(n)] else NatToString(n / 10) + [DigitChar(n % 10)]
  }

  /**
   * Decimal rendering of an integer (Java's `Integer.toString`): a '-'
   * exactly when negative, then the digits of the magnitude, which read
   * back to it and have no leading zero.
   */
  function IntToString(i: int): (s: string)
    ensures 1 <= |s|
    ensures (s[0] == '-') <==> i < 0
    ensures i < 0 ==> |s| >= 2 && AllDigits(s[1..]) && ParseDigits(s[1..]) == -i
    ensures i >= 0 ==> AllDigits(s) && ParseDigits(s) == i
    ensures s[if i < 0 then 1 else 0] == '0' ==> i == 0
  {
    var m: nat := if i < 0 then -i else i;
    ParseNatToString(m);
    var digits := NatToString(m);
    if i < 0 then
      assert ("-" + digits)[1..] == digits;
      "-" + digits
    else digits
  }

  /** The value of a run of decimal digits. */
  function ParseDigits(s: string): nat
    requires AllDigits(s)
  {
    if s == [] then 0 else ParseDigits(s[..|s| - 1]) * 10 + DigitValue(s[|s| - 1])
  }

  /** Reading back the decimal rendering of a number gives that number. */
  lemma {:induction false} ParseNatToString(n: nat)
    ensures ParseDigits(NatToString(n)) == n
    decreases n
  {
    if n >= 10 {
      var s := NatToString(n);
      assert s[..|s| - 1] == NatToString(n / 10);
      ParseNatToString(n / 10);
    }
  }

  /** Java's `Character <= ' '` test used by `String.trim`. */
  predicate IsTrimmed(c: char) {
    c <= ' '
  }

  function TrimStart(s: string): (t: string)
    ensures |t| <= |s| && t == s[|s| - |t|..]
    ensures t == [] || !IsTrimmed(t[0])
    ensures forall k :: 0 <= k < |s| - |t| ==> IsTrimmed(s[k])
  {
    if s != [] && IsTrimmed(s[0]) then TrimStart(s[1..]) else s
  }

  function TrimEnd(s: string): (t: string)
    ensures |t| <= |s| && t == s[..|t|]
    ensures t == [] || !IsTrimmed(t[|t| - 1])
    ensures forall k :: |t| <= k < |s| ==> IsTrimmed(s[k])
  {
    if s != [] && IsTrimmed(s[|s| - 1]) then TrimEnd(s[..|s| - 1]) else s
  }

  /**
   * `t` is the part of `s` that starts at index `i`, and every character
   * of `s` before or after that part is <= ' '.
   */
  predicate TrimsTo(s: string, t: string, i: nat) {
    && i + |t| <= |s| && t == s[i..i + |t|]
    && (forall k :: 0 <= k < i ==> IsTrimmed(s[k]))
    && (forall k :: i + |t| <= k < |s| ==> IsTrimmed(s[k]))
  }

  /**
   * Java's `String.trim`: drop every leading and trailing character <= ' '
   * and nothing else, so the result is a slice of the input that neither
   * starts nor ends with such a character.
   */
  function Trim(s: string): (t: string)
    ensures |t| <= |s|
    ensures t == [] || (!IsTrimmed(t[0]) && !IsTrimmed(t[|t| - 1]))
    ensures exists i :: TrimsTo(s, t, i)
  {
    var u := TrimStart(s);
    var t := TrimEnd(u);
    assert TrimsTo(s, t, |s| - |u|);
    t
  }

  /** Trimming a trimmed string changes nothing. */
  lemma TrimIdempotent(s: string)
    ensures Trim(Trim(s)) == Trim(s)
  {
    var t := Trim(s);
    if t != [] {
      assert TrimStart(t) == t;
      assert TrimEnd(t) == t;
    }
  }

  predicate StartsWith(s: string, prefix: string) {
    |prefix| <= |s| && s[..|prefix|] == prefix
  }

  predicate EndsWith(s: string, suffix: string) {
    |suffix| <= |s| && s[|s| - |suffix|..] == suffix
  }

  /**
   * Rust's `s.split(sep)`: the maximal pieces between separators, so that
   * "" gives [""], "a/" gives ["a", ""] and "a//b" gives ["a", "", "b"].
   */
  function Split(s: string, sep: char): (parts: seq<string>)
    ensures |parts| >= 1
  {
    if s == [] then [""]
    else
      var rest := Split(s[..|s| - 1], sep);
      var c := s[|s| - 1];
      assert s == s[..|s| - 1] + [c];
      if c == sep then rest + [""]
      else rest[..|rest| - 1] + [rest[|rest| - 1] + [c]]
  }

  /** The pieces hold no separator, and there is one more piece than separators. */
  lemma {:induction false} SplitPieces(s: string, sep: char)
    ensures forall i :: 0 <= i < |Split(s, sep)| ==> sep !in Split(s, sep)[i]
    ensures |Split(s, sep)| == 1 + multiset(s)[sep]
  {
    if s != [] {
      var init := s[..|s| - 1];
      assert s == init + [s[|s| - 1]];
      SplitPieces(init, sep);
    }
  }

  /** The pieces glued back together with the separator between them. */
  function Join(parts: seq<string>, sep: char): string
    requires |parts| >= 1
  {
    if |parts| == 1 then parts[0]
    else Join(parts[..|parts| - 1], sep) + [sep] + parts[|parts| - 1]
  }

  /** Joining one more piece appends the separator and that piece. */
  lemma JoinSnoc(parts: seq<string>, sep: char, x: string)
    requires |parts| >= 1
    ensures Join(parts + [x], sep) == Join(parts, sep) + [sep] + x
  {
    assert (parts + [x])[..|parts|] == parts;
  }

  /** Extending the last piece by one character extends the joined string by it. */
  lemma {:induction false} JoinExtendLast(parts: seq<string>, sep: char, c: char)
    requires |parts| >= 1
    ensures Join(parts[..|parts| - 1] + [parts[|parts| - 1] + [c]], sep) == Join(parts, sep) + [c]
  {
    var n := |parts|;
    var ext := parts[..n - 1] + [parts[n - 1] + [c]];
    if n > 1 {
      var init := parts[..n - 1];
      JoinSnoc(init, sep, parts[n - 1] + [c]);
      JoinSnoc(init, sep, parts[n - 1]);
      assert init + [parts[n - 1]] == parts;
    }
  }

  /** Splitting and joining again gives back the original string. */
  lemma {:induction false} JoinSplit(s: string, sep: char)
    ensures Join(Split(s, sep), sep) == s
  {
    if s != [] {
      var init := s[..|s| - 1];
      var c := s[|s| - 1];
      assert s == init + [c];
      var rest := Split(init, sep);
      JoinSplit(init, sep);
      if c == sep {
        JoinSnoc(rest, sep, "");
      } else {
        JoinExtendLast(rest, sep, c);
      }
    }
  }

  /** The number of occurrences of `c` among the first `k` characters. */
  function CountIn(s: string, c: char, lo: nat, hi: nat): nat
    requires lo <= hi <= |s|
    decreases hi
  {
    if hi == lo then 0 else CountIn(s, c, lo, hi - 1) + (if s[hi - 1] == c then 1 else 0)
  }

  /** Counting over [lo, mid) and [mid, hi) adds up to counting over [lo, hi). */
  lemma {:induction false} CountInSplit(s: string, c: char, lo: nat, mid: nat, hi: nat)
    requires lo <= mid <= hi <= |s|
    ensures CountIn(s, c, lo, hi) == CountIn(s, c, lo, mid) + CountIn(s, c, mid, hi)
    decreases hi
  {
    if hi > mid {
      CountInSplit(s, c, lo, mid, hi - 1);
    }
  }

  /** A range without `c` holds no occurrence of it. */
  lemma {:induction false} CountInNone(s: string, c: char, lo: nat, hi: nat)
    requires lo <= hi <= |s|
    requires forall k :: lo <= k < hi ==> s[k] != c
    ensures CountIn(s, c, lo, hi) == 0
    decreases hi
  {
    if hi > lo {
      CountInNone(s, c, lo, hi - 1);
    }
  }

  /** Counting over the whole string agrees with the multiset of its characters. */
  lemma {:induction false} CountInMultiset(s: string, c: char, hi: nat)
    requires hi <= |s|
    ensures CountIn(s, c, 0, hi) == multiset(s[..hi])[c]
    decreases hi
  {
    if hi > 0 {
      CountInMultiset(s, c, hi - 1);
      assert s[..hi] == s[..hi - 1] + [s[hi - 1]];
    }
  }

  /** Splitting at a separator splits the two sides independently. */
  lemma {:induction false} SplitConcat(a: string, b: string, sep: char)
    ensures Split(a + [sep] + b, sep) == Split(a, sep) + Split(b, sep)
    decreases |b|
  {
    if b == [] {
      var s := a + [sep];
      SplitLastSep(s, sep);
      assert s[..|s| - 1] == a;
      assert a + [sep] + b == s;
      assert Split(b, sep) == [""];
    } else {
      var init := b[..|b| - 1];
      assert b == init + [b[|b| - 1]];
      SplitConcat(a, init, sep);
      SplitConcatStep(a, init, b[|b| - 1], sep);
    }
  }

  /** The inductive step of `SplitConcat`: one more character on the right. */
  lemma {:induction false} SplitConcatStep(a: string, init: string, c: char, sep: char)
    requires Split(a + [sep] + init, sep) == Split(a, sep) + Split(init, sep)
    ensures Split(a + [sep] + (init + [c]), sep) == Split(a, sep) + Split(init + [c], sep)
  {
    var s := a + [sep] + (init + [c]);
    var b := init + [c];
    assert s[..|s| - 1] == a + [sep] + init;
    assert b[..|b| - 1] == init;
    if c != sep {
      SplitConcatPiece(a, init, c, sep);
    } else {
      SplitLastSep(s, sep);
      SplitLastSep(b, sep);
    }
  }

  /** `SplitConcatStep` when the new character extends the last piece. */
  lemma {:induction false} SplitConcatPiece(a: string, init: string, c: char, sep: char)
    requires c != sep
    requires Split(a + [sep] + init, sep) == Split(a, sep) + Split(init, sep)
    ensures Split(a + [sep] + (init + [c]), sep) == Split(a, sep) + Split(init + [c], sep)
  {
    var s := a + [sep] + (init + [c]);
    var b := init + [c];
    assert s[..|s| - 1] == a + [sep] + init && s[|s| - 1] == c;
    assert b[..|b| - 1] == init && b[|b| - 1] == c;
    SplitLastPiece(s, sep);
    SplitLastPiece(b, sep);
    SnocLast(Split(a, sep), Split(init, sep), c);
  }

  /** Extending the last piece of `x + y` extends the last piece of `y`. */
  lemma {:induction false} SnocLast(x: seq<string>, y: seq<string>, c: char)
    requires |y| >= 1
    ensures var r := x + y;
      r[..|r| - 1] + [r[|r| - 1] + [c]] == x + (y[..|y| - 1] + [y[|y| - 1] + [c]])
  {
    var r := x + y;
    assert r[..|r| - 1] == x + y[..|y| - 1];
  }

  /** A string ending in a non-separator extends the last piece of its prefix. */
  lemma SplitLastPiece(s: string, sep: char)
    requires s != [] && s[|s| - 1] != sep
    ensures var rest := Split(s[..|s| - 1], sep);
      Split(s, sep) == rest[..|rest| - 1] + [rest[|rest| - 1] + [s[|s| - 1]]]
  {
  }

  /** A string ending in the separator adds one empty piece. */
  lemma SplitLastSep(s: string, sep: char)
    requires s != [] && s[|s| - 1] == sep
    ensures Split(s, sep) == Split(s[..|s| - 1], sep) + [""]
  {
  }

  /** A string without the separator is a single piece. */
  lemma SplitNone(s: string, sep: char)
    requires sep !in s
    ensures Split(s, sep) == [s]
  {
    assert multiset(s)[sep] == 0;
    SplitPieces(s, sep);
    JoinSplit(s, sep);
  }

  /** The length of the longest run of decimal digits at the front of `s`. */
  function DigitPrefix(s: string): (n: nat)
    ensures n <= |s| && AllDigits(s[..n])
    ensures n == |s| || !IsDigit(s[n])
  {
    if s == [] || !IsDigit(s[0]) then 0
    else
      var n := 1 + DigitPrefix(s[1..]);
      assert forall i :: 1 <= i < n ==> s[..n][i] == s[1..][..n - 1][i - 1];
      n
  }

  /** Digits followed by a non-digit: the digit prefix is exactly the digits. */
  lemma {:induction false} DigitPrefixOf(digits: string, rest: string)
    requires AllDigits(digits)
    requires rest != [] && !IsDigit(rest[0])
    ensures DigitPrefix(digits + rest) == |digits|
    decreases |digits|
  {
    var s := digits + rest;
    if digits == [] {
      assert s == rest;
    } else {
      assert IsDigit(s[0]) by {
        assert s[0] == digits[0];
      }
      assert s[1..] == digits[1..] + rest;
      assert AllDigits(digits[1..]) by {
        forall i | 0 <= i < |digits| - 1
          ensures IsDigit(digits[1..][i])
        {
          assert digits[1..][i] == digits[i + 1];
        }
      }
      DigitPrefixOf(digits[1..], rest);
    }
  }
}
