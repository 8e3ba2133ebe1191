/**
 * The JavaScript value semantics the controllers rely on: request fields that
 * may be absent, truthiness and the `||` default idiom, `Math.round`, and the
 * few string operations used (`toLowerCase`, `includes`, `toString` on a
 * non-negative integer, `padStart`).
 */
module Js {

  datatype Option<+T> = None | Some(value: T)

  datatype Result<+T, +E> = Ok(value: T) | Err(error: E)

  /** A number field is truthy when it is present and not 0. */
  predicate TruthyNumber(x: Option<real>) {
    x.Some? && x.value != 0.0
  }

  /** `x || d` on a number field. */
  function OrNumber(x: Option<real>, d: real): real {
    if TruthyNumber(x) then x.value else d
  }

  /** A string field is truthy when it is present and not empty. */
  predicate TruthyString(s: Option<string>) {
    s.Some? && s.value != ""
  }

  /** `s || d` on a string field. */
  function OrString(s: Option<string>, d: string): string {
    if TruthyString(s) then s.value else d
  }

  function Min(x: real, y: real): real {
    if x <= y then x else y
  }

  function Max(x: real, y: real): real {
    if x >= y then x else y
  }

  // ---------------------------------------------------------------------------
  // Math.round, on exact reals: the nearest integer, halves rounded up.

  function MathRound(x: real): int {
    (x + 0.5).Floor
  }

  /** `Math.round(x * 10) / 10` */
  function RoundToTenths(x: real): real {
    MathRound(x * 10.0) as real / 10.0
  }

  /** `Math.round(x * 100) / 100` */
  function RoundToHundredths(x: real): real {
    MathRound(x * 100.0) as real / 100.0
  }

  lemma MathRoundMonotone(x: real, y: real)
    requires x <= y
    ensures MathRound(x) <= MathRound(y)
  {
    assert MathRound(x) as real <= x + 0.5 <= y + 0.5 < MathRound(y) as real + 1.0;
  }

  lemma MathRoundOfInteger(n: int)
    ensures MathRound(n as real) == n
  {
  }

  /** Rounding to tenths moves a value by at most half a tenth. */
  lemma RoundToTenthsClose(x: real)
    ensures x - 0.05 < RoundToTenths(x) <= x + 0.05
  {
    var m := MathRound(x * 10.0);
    assert x * 10.0 - 0.5 < m as real <= x * 10.0 + 0.5;
  }

  /** Rounding to hundredths keeps a value inside any integer bounds it lies in. */
  lemma RoundToHundredthsWithin(x: real, lo: int, hi: int)
    requires lo as real <= x <= hi as real
    ensures lo as real <= RoundToHundredths(x) <= hi as real
  {
    MathRoundMonotone((lo * 100) as real, x * 100.0);
    MathRoundMonotone(x * 100.0, (hi * 100) as real);
    MathRoundOfInteger(lo * 100);
    MathRoundOfInteger(hi * 100);
  }

  /** Rounding to hundredths never turns a non-negative value negative. */
  lemma RoundToHundredthsNonNegative(x: real)
    requires 0.0 <= x
    ensures 0.0 <= RoundToHundredths(x)
  {
    MathRoundMonotone(0.0, x * 100.0);
    MathRoundOfInteger(0);
  }

  // ---------------------------------------------------------------------------
  // Strings

  /** `toLowerCase` on one character; only the ASCII letters are mapped. */
  function LowerChar(c: char): char {
    if 'A' <= c <= 'Z' then (c as int + 32) as char else c
  }

  function ToLowerCase(s: string): string {
    seq(|s|, i requires 0 <= i < |s| => LowerChar(s[i]))
  }

  /** `s.includes(p)` */
  function Includes(s: string, p: string): bool
    decreases |s|
  {
    if |p| > |s| then false
    else if s[..|p|] == p then true
    else Includes(s[1..], p)
  }

  /** `p` occurs in `s` starting at position `i`. */
  predicate OccursAt(s: string, p: string, i: int) {
    0 <= i <= |s| - |p| && s[i..i + |p|] == p
  }

  /** `Includes` holds exactly when `p` occurs at some position of `s`. */
  lemma {:induction false} IncludesOccurrence(s: string, p: string)
    ensures Includes(s, p) <==> exists i :: OccursAt(s, p, i)
    decreases |s|
  {
    if |p| > |s| {
    } else if s[..|p|] == p {
      assert OccursAt(s, p, 0);
    } else {
      IncludesOccurrence(s[1..], p);
      if Includes(s[1..], p) {
        var i :| OccursAt(s[1..], p, i);
        assert s[i + 1..i + 1 + |p|] == s[1..][i..i + |p|];
        assert OccursAt(s, p, i + 1);
      }
      if i :| OccursAt(s, p, i) {
        assert i != 0;
        assert s[1..][i - 1..i - 1 + |p|] == s[i..i + |p|];
        assert OccursAt(s[1..], p, i - 1);
      }
    }
  }

  /**
   * A string containing a longer phrase contains each part of it: a message
   * that mentions "timer" mentions "time".
   */
  lemma IncludesPart(s: string, p: string, q: string, k: nat)
    requires Includes(s, p)
    requires k + |q| <= |p| && p[k..k + |q|] == q
    ensures Includes(s, q)
  {
    IncludesOccurrence(s, p);
    var i :| OccursAt(s, p, i);
    assert s[i..i + |p|] == p;
    forall j | 0 <= j < |q|
      ensures s[i + k..i + k + |q|][j] == q[j]
    {
      assert s[i + k + j] == s[i..i + |p|][k + j] == p[k + j];
    }
    assert OccursAt(s, q, i + k);
    IncludesOccurrence(s, q);
  }

  function DigitChar(d: nat): char
    requires d < 10
  {
    ('0' as int + d) as char
  }

  predicate IsDigit(c: char) {
    '0' <= c <= '9'
  }

  function DigitValue(c: char): nat
    requires IsDigit(c)
  {
    c as int - '0' as int
  }

  /** `n.toString()` for a non-negative integer: its decimal digits, no leading zero. */
  function NatToString(n: nat): (s: string)
    ensures |s| >= 1
    decreases n
  {
    if n < 10 then [DigitChar(n)] else NatToString(n / 10) + [DigitChar(n % 10)]
  }

  /** The number a string of decimal digits denotes (leading zeros allowed). */
  function DigitsValue(s: string): nat
    requires forall i :: 0 <= i < |s| ==> IsDigit(s[i])
  {
    if s == [] then 0 else DigitsValue(s[..|s| - 1]) * 10 + DigitValue(s[|s| - 1])
  }

  lemma {:induction false} NatToStringDigits(n: nat)
    ensures forall i :: 0 <= i < |NatToString(n)| ==> IsDigit(NatToString(n)[i])
    ensures DigitsValue(NatToString(n)) == n
    decreases n
  {
    if n >= 10 {
      NatToStringDigits(n / 10);
      var s := NatToString(n);
      assert s[..|s| - 1] == NatToString(n / 10);
    }
  }

  /** A leading '0' does not change the value of a digit string. */
  lemma {:induction false} LeadingZeroValue(s: string)
    requires forall i :: 0 <= i < |s| ==> IsDigit(s[i])
    ensures DigitsValue(['0'] + s) == DigitsValue(s)
    decreases |s|
  {
    if s != [] {
      var t := ['0'] + s;
      assert t[..|t| - 1] == ['0'] + s[..|s| - 1];
      LeadingZeroValue(s[..|s| - 1]);
    }
  }

  /** `s.padStart(width, fill)` with a one-character fill string. */
  function PadStart(s: string, width: nat, fill: char): (r: string)
    ensures |r| == if |s| >= width then |s| else width
    ensures r[|r| - |s|..] == s
    ensures forall i :: 0 <= i < |r| - |s| ==> r[i] == fill
  {
    if |s| >= width then s else seq(width - |s|, _ => fill) + s
  }
}
