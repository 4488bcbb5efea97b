/**
 * The small pieces of the Java platform that the modelled code leans on:
 * truncating integer division, `Math.min`/`Math.max`, `String.endsWith`,
 * `String.repeat`, `%Ns` padding, `Long.toString`, the `(int)` cast and
 * `%.0f` formatting of a double, and `String.split`.
 */
module JavaLang {

  function Min(a: int, b: int): int { if a <= b then a else b }

  function Max(a: int, b: int): int { if a >= b then a else b }

  /** Java's `/` on integers: the quotient is truncated toward zero. */
  function TruncDiv(a: int, b: int): (q: int)
    requires b > 0
    ensures a >= 0 ==> q == a / b
    ensures a >= 0 ==> b * q <= a <= b * q + (b - 1)
    ensures a < 0 ==> b * q - (b - 1) <= a <= b * q
  {
    if a >= 0 then a / b else -((-a) / b)
  }

  /** Java's `%` on integers: the remainder takes the sign of the dividend. */
  function TruncRem(a: int, b: int): (r: int)
    requires b > 0
    ensures a == b * TruncDiv(a, b) + r
    ensures -b < r < b
    ensures a >= 0 ==> r >= 0
    ensures a <= 0 ==> r <= 0
  {
    a - b * TruncDiv(a, b)
  }

  /** `s.endsWith(suffix)`. */
  predicate EndsWith(s: string, suffix: string)
  {
    |suffix| <= |s| && s[|s| - |suffix|..] == suffix
  }

  lemma {:induction false} EndsWithAppend(s: string, suffix: string)
    ensures EndsWith(s + suffix, suffix)
  {
    assert (s + suffix)[|s|..] == suffix;
  }

  /** `String.valueOf(c).repeat(n)`. */
  function Repeat(c: char, n: nat): (r: string)
    ensures |r| == n
    ensures forall i :: 0 <= i < n ==> r[i] == c
  {
    if n == 0 then "" else Repeat(c, n - 1) + [c]
  }

  /** `String.format("%<width>s", s)`: left-padded with spaces, never truncated. */
  function PadLeft(s: string, width: nat): (r: string)
    ensures |r| == Max(|s|, width)
    ensures r[|r| - |s|..] == s
    ensures forall i :: 0 <= i < |r| - |s| ==> r[i] == ' '
  {
    if |s| >= width then s else Repeat(' ', width - |s|) + s
  }

  predicate IsDigit(c: char) { '0' <= c <= '9' }

  function DigitValue(c: char): (n: int)
    requires IsDigit(c)
    ensures 0 <= n <= 9
  {
    (c as int) - ('0' as int)
  }

  function DigitChar(n: int): (c: char)
    requires 0 <= n <= 9
    ensures IsDigit(c) && DigitValue(c) == n
  {
    ((('0' as int) + n) as char)
  }

  /** Decimal digits of a natural number, as `Long.toString` writes them. */
  function NatToString(n: nat): (s: string)
    ensures |s| > 0
    ensures forall i :: 0 <= i < |s| ==> IsDigit(s[i])
    ensures DecimalValue(s) == n
    ensures s[0] == '0' ==> |s| == 1
  {
    if n < 10 then [DigitChar(n)] else NatToString(n / 10) + [DigitChar(n % 10)]
  }

  /** The value of a string of decimal digits, most significant first. */
  function DecimalValue(s: string): nat
    requires forall i :: 0 <= i < |s| ==> IsDigit(s[i])
  {
    if s == [] then 0 else 10 * DecimalValue(s[..|s| - 1]) + DigitValue(s[|s| - 1])
  }

  /** `Long.toString(n)`: a minus sign for negative numbers, then the digits. */
  function IntToString(n: int): (s: string)
    ensures n >= 0 ==> s == NatToString(n)
    ensures n < 0 ==> s == "-" + NatToString(-n)
  {
    if n >= 0 then NatToString(n) else "-" + NatToString(-n)
  }

  /** The `(int)` cast of a double: the fraction is dropped, rounding toward zero. */
  function DoubleToInt(x: real): (n: int)
    ensures x >= 0.0 ==> 0 <= n && n as real <= x < n as real + 1.0
    ensures x < 0.0 ==> n <= 0 && n as real - 1.0 < x <= n as real
  {
    if x >= 0.0 then x.Floor else -((-x).Floor)
  }

  /**
   * `String.format("%.0f", x)`: the magnitude rounded half up to a whole
   * number, without leading zeros, with a minus sign when `x` is negative.
   * The half-open interval pins the tie: `k + 0.5` gives `k + 1`.
   */
  function FormatNoDecimals(x: real): (s: string)
    ensures x >= 0.0 ==> |s| > 0 && (s[0] == '0' ==> |s| == 1)
    ensures x >= 0.0 ==> forall i :: 0 <= i < |s| ==> IsDigit(s[i])
    ensures x >= 0.0 ==> x - 0.5 < DecimalValue(s) as real <= x + 0.5
    ensures x < 0.0 ==> |s| > 1 && s[0] == '-' && (s[1] == '0' ==> |s| == 2)
    ensures x < 0.0 ==> forall i :: 1 <= i < |s| ==> IsDigit(s[i])
    ensures x < 0.0 ==> -x - 0.5 < DecimalValue(s[1..]) as real <= -x + 0.5
  {
    var magnitude := if x >= 0.0 then x else -x;
    var digits := NatToString((magnitude + 0.5).Floor);
    if x < 0.0 then "-" + digits else digits
  }

  // ---------------------------------------------------------------------
  // String.split with a literal (metacharacter-free) delimiter
  // ---------------------------------------------------------------------

  /** `delim` occurs in `s` starting at index `i`. */
  predicate OccursAt(s: string, delim: string, i: int)
  {
    0 <= i && i + |delim| <= |s| && s[i..i + |delim|] == delim
  }

  predicate Contains(s: string, delim: string)
  {
    exists i :: 0 <= i <= |s| && OccursAt(s, delim, i)
  }

  /** The first occurrence of `delim` in `s` at or after `from`. */
  function IndexOfFrom(s: string, delim: string, from: nat): (r: Option<nat>)
    requires |delim| > 0
    ensures r.Some? ==> from <= r.value && OccursAt(s, delim, r.value)
    decreases |s| - from
  {
    if from + |delim| > |s| then None
    else if s[from..from + |delim|] == delim then Some(from)
    else IndexOfFrom(s, delim, from + 1)
  }

  /** No occurrence is skipped: there is none between `from` and the one found, nor after `from` when none is found. */
  lemma {:induction false} IndexOfFromIsFirst(s: string, delim: string, from: nat)
    requires |delim| > 0
    ensures var r := IndexOfFrom(s, delim, from);
      forall i :: from <= i && (r.None? || i < r.value) ==> !OccursAt(s, delim, i)
    decreases |s| - from
  {
    if from + |delim| <= |s| && s[from..from + |delim|] != delim {
      IndexOfFromIsFirst(s, delim, from + 1);
    }
  }

  /**
   * The pieces of `s` between the non-overlapping occurrences of `delim`,
   * found from left to right, trailing empty pieces included.
   */
  function Split(s: string, delim: string): (pieces: seq<string>)
    requires |delim| > 0
    ensures |pieces| > 0
    decreases |s|
  {
    match IndexOfFrom(s, delim, 0)
    case None => [s]
    case Some(i) => [s[..i]] + Split(s[i + |delim|..], delim)
  }

  function Join(pieces: seq<string>, delim: string): string
  {
    if |pieces| == 0 then ""
    else if |pieces| == 1 then pieces[0]
    else pieces[0] + delim + Join(pieces[1..], delim)
  }

  /** Joining the pieces with the delimiter gives back the original string. */
  lemma {:induction false} JoinSplit(s: string, delim: string)
    requires |delim| > 0
    ensures Join(Split(s, delim), delim) == s
    decreases |s|
  {
    match IndexOfFrom(s, delim, 0)
    case None =>
    case Some(i) =>
      var rest := s[i + |delim|..];
      JoinSplit(rest, delim);
      assert Split(s, delim) == [s[..i]] + Split(rest, delim);
      assert s == s[..i] + delim + rest;
  }

  /** The text before the first occurrence of the delimiter does not contain it. */
  lemma BeforeFirstLacksDelimiter(s: string, delim: string, i: nat)
    requires |delim| > 0 && IndexOfFrom(s, delim, 0) == Some(i)
    ensures !Contains(s[..i], delim)
  {
    var head := s[..i];
    IndexOfFromIsFirst(s, delim, 0);
    forall j | OccursAt(head, delim, j)
      ensures false
    {
      assert head[j..j + |delim|] == s[j..j + |delim|];
      assert OccursAt(s, delim, j);
    }
  }

  /** No piece contains the delimiter. */
  lemma {:induction false} SplitPiecesLackDelimiter(s: string, delim: string)
    requires |delim| > 0
    ensures forall k :: 0 <= k < |Split(s, delim)| ==> !Contains(Split(s, delim)[k], delim)
    decreases |s|
  {
    match IndexOfFrom(s, delim, 0)
    case None =>
      IndexOfFromIsFirst(s, delim, 0);
      assert !Contains(s, delim);
      assert Split(s, delim) == [s];
    case Some(i) =>
      var rest := s[i + |delim|..];
      SplitPiecesLackDelimiter(rest, delim);
      BeforeFirstLacksDelimiter(s, delim, i);
      var pieces := Split(s, delim);
      var tail := Split(rest, delim);
      assert pieces == [s[..i]] + tail;
      forall k | 0 <= k < |pieces|
        ensures !Contains(pieces[k], delim)
      {
        if k > 0 {
          assert pieces[k] == tail[k - 1];
        }
      }
  }

  function DropTrailingEmpty(pieces: seq<string>): (r: seq<string>)
    ensures |r| <= |pieces| && r == pieces[..|r|]
    ensures |r| > 0 ==> r[|r| - 1] != ""
    ensures forall k :: |r| <= k < |pieces| ==> pieces[k] == ""
  {
    if |pieces| == 0 || pieces[|pieces| - 1] != "" then pieces
    else DropTrailingEmpty(pieces[..|pieces| - 1])
  }

  /**
   * `s.split(delim)` for a delimiter without regular-expression
   * metacharacters: when the delimiter does not occur the result is `[s]`,
   * otherwise the pieces with trailing empty strings removed.
   */
  function JavaSplit(s: string, delim: string): seq<string>
    requires |delim| > 0
  {
    match IndexOfFrom(s, delim, 0)
    case None => [s]
    case Some(_) => DropTrailingEmpty(Split(s, delim))
  }

  /**
   * Without an occurrence the string comes back whole; otherwise the
   * pieces come back without the trailing empty ones, and none of them
   * contains the delimiter.
   */
  lemma JavaSplitCases(s: string, delim: string)
    requires |delim| > 0
    ensures !Contains(s, delim) ==> JavaSplit(s, delim) == [s]
    ensures Contains(s, delim) ==> JavaSplit(s, delim) == DropTrailingEmpty(Split(s, delim))
    ensures forall k :: 0 <= k < |JavaSplit(s, delim)| ==> !Contains(JavaSplit(s, delim)[k], delim)
  {
    match IndexOfFrom(s, delim, 0)
    case None =>
      IndexOfFromIsFirst(s, delim, 0);
    case Some(i) =>
      assert OccursAt(s, delim, i);
      SplitPiecesLackDelimiter(s, delim);
  }

  import opened Wrappers
}
