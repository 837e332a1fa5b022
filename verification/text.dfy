/**
 * Character classes, maximal runs and decimal numerals, as the regular
 * expressions `/[A-Z]/`, `/[a-z]/`, `/\d/` and `parseInt` of JavaScript use
 * them. Without the `u` flag `\d` is the ASCII class [0-9]: a Unicode
 * subscript such as U+2082 is not a digit.
 */
module Text {

  predicate IsUpper(c: char) { 'A' <= c <= 'Z' }

  predicate IsLower(c: char) { 'a' <= c <= 'z' }

  predicate IsDigit(c: char) { '0' <= c <= '9' }

  /** Length of the longest prefix of `s` whose characters all satisfy `p`. */
  function Run(s: string, p: char -> bool): (n: nat)
    ensures n <= |s|
    ensures forall k | 0 <= k < n :: p(s[k])
    ensures n == |s| || !p(s[n])
  {
    if s != [] && p(s[0]) then 1 + Run(s[1..], p) else 0
  }

  /** A run is determined by where it stops. */
  lemma {:induction false} RunIs(s: string, p: char -> bool, n: nat)
    requires n <= |s|
    requires forall k | 0 <= k < n :: p(s[k])
    requires n == |s| || !p(s[n])
    ensures Run(s, p) == n
  {
    if n > 0 {
      RunIs(s[1..], p, n - 1);
    }
  }

  /**
   * The loop `while (i < s.length && p(s[i])) { run += s[i]; i++; }`: the
   * maximal run of characters satisfying `p` from `i` on, and where it ends.
   */
  method TakeRun(s: string, i: nat, p: char -> bool) returns (run: string, j: nat)
    requires i <= |s|
    ensures i <= j <= |s| && run == s[i..j]
    ensures forall k | i <= k < j :: p(s[k])
    ensures j == |s| || !p(s[j])
    ensures j - i == Run(s[i..], p)
  {
    run, j := "", i;
    while j < |s| && p(s[j])
      invariant i <= j <= |s| && run == s[i..j]
      invariant forall k | i <= k < j :: p(s[k])
    {
      run := run + [s[j]];
      j := j + 1;
    }
    RunIs(s[i..], p, j - i);
  }

  predicate AllDigits(s: string) { forall k | 0 <= k < |s| :: IsDigit(s[k]) }

  function DigitValue(c: char): nat
    requires IsDigit(c)
  {
    (c as int - '0' as int) as nat
  }

  function DigitChar(d: nat): (c: char)
    requires d < 10
    ensures IsDigit(c) && DigitValue(c) == d
  {
    ('0' as int + d) as char
  }

  /** The value of a run of ASCII digits, most significant first, as `parseInt(s, 10)` reads it. */
  function DecimalValue(s: string): nat
    requires AllDigits(s)
  {
    if s == [] then 0 else DecimalValue(s[..|s| - 1]) * 10 + DigitValue(s[|s| - 1])
  }

  /** The shortest decimal numeral of `n`, as JavaScript prints a non-negative integer. */
  function Decimal(n: nat): (s: string)
    ensures |s| >= 1 && AllDigits(s) && DecimalValue(s) == n
    ensures s[0] != '0' || n == 0
  {
    if n < 10 then [DigitChar(n)] else Decimal(n / 10) + [DigitChar(n % 10)]
  }

  /** A number in a template literal: `${n}`. */
  function IntToString(n: int): (s: string)
    ensures |s| >= 1
    ensures n < 0 <==> s[0] == '-'
  {
    if n < 0 then "-" + Decimal(-n) else Decimal(n)
  }

  /** `parseInt(digits) || 1`: an empty run (NaN) and a run worth 0 both count as 1. */
  function CountOrOne(digits: string): (n: nat)
    requires AllDigits(digits)
    ensures n >= 1
    ensures DecimalValue(digits) >= 1 ==> n == DecimalValue(digits)
    ensures digits == [] || DecimalValue(digits) == 0 ==> n == 1
  {
    if digits == [] || DecimalValue(digits) == 0 then 1 else DecimalValue(digits)
  }

  lemma {:induction false} DecimalValueZeros(s: string)
    requires AllDigits(s) && s != [] && s[0] == '0'
    requires forall k | 0 <= k < |s| :: s[k] == '0'
    ensures DecimalValue(s) == 0
  {
    if |s| > 1 {
      DecimalValueZeros(s[..|s| - 1]);
    }
  }

  /** Strict lexicographic order on strings by code point. */
  predicate Less(a: string, b: string)
  {
    if a == [] then b != []
    else if b == [] then false
    else a[0] < b[0] || (a[0] == b[0] && Less(a[1..], b[1..]))
  }

  lemma {:induction false} LessIrreflexive(a: string)
    ensures !Less(a, a)
  {
    if a != [] {
      LessIrreflexive(a[1..]);
    }
  }

  lemma {:induction false} LessTransitive(a: string, b: string, c: string)
    requires Less(a, b) && Less(b, c)
    ensures Less(a, c)
  {
    if a != [] && b != [] && c != [] && a[0] == b[0] && b[0] == c[0] {
      LessTransitive(a[1..], b[1..], c[1..]);
    }
  }

  lemma {:induction false} LessTotal(a: string, b: string)
    requires a != b
    ensures Less(a, b) || Less(b, a)
  {
    if a != [] && b != [] && a[0] == b[0] {
      LessTotal(a[1..], b[1..]);
    }
  }

  /** Slices of a concatenation that start inside its first part. */
  lemma AppendSlices(a: string, b: string, i: nat, j: nat)
    requires i <= j <= |a|
    ensures (a + b)[..i] == a[..i] && (a + b)[i..j] == a[i..j]
    ensures (a + b)[i..] == a[i..] + b && (a + b)[j..] == a[j..] + b
  {
  }
}
