/**
 * The few JavaScript built-ins the application leans on, restated over
 * Dafny's unbounded integers: `Math.round` of a quotient, the truncating
 * `%` operator, `String(n)` for integers, ASCII `toLowerCase`, and the
 * one-argument `Array.prototype.slice`.
 */
module Js {

  datatype Option<T> = None | Some(value: T) {
    /** `x ?? d` */
    function GetOr(default: T): T {
      match this
      case Some(v) => v
      case None => default
    }
  }

  function Min(a: int, b: int): int { if a <= b then a else b }
  function Max(a: int, b: int): int { if a >= b then a else b }

  /** `Math.round(a / b)` for a positive divisor: the nearest integer, halves rounded up. */
  function Round(a: int, b: int): (q: int)
    requires b > 0
    ensures q * (2 * b) - b <= 2 * a < q * (2 * b) + b
  {
    var n, d := 2 * a + b, 2 * b;
    assert n == (n / d) * d + n % d;
    n / d
  }

  /** `a % b` for a positive divisor: the remainder takes the sign of the dividend. */
  function Rem(a: int, b: int): (r: int)
    requires b > 0
    ensures -b < r < b
    ensures a >= 0 ==> r == a % b
    ensures a <= 0 ==> r == -((-a) % b)
  {
    if a >= 0 then a % b else -((-a) % b)
  }

  // ---------------------------------------------------------------------
  // Decimal text of integers, and reading it back

  predicate IsDigit(c: char) { '0' <= c <= '9' }

  predicate AllDigits(s: string) { forall i :: 0 <= i < |s| ==> IsDigit(s[i]) }

  function DigitChar(d: int): (c: char)
    requires 0 <= d < 10
    ensures IsDigit(c)
  {
    (48 + d) as char
  }

  /** The value of a string of decimal digits (leading zeros allowed). */
  function DigitsValue(s: string): nat
    requires AllDigits(s)
  {
    if s == [] then 0 else DigitsValue(s[..|s| - 1]) * 10 + (s[|s| - 1] as int - 48)
  }

  /** `String(n)` for a non-negative integer: shortest decimal text. */
  function NatToString(n: nat): (s: string)
    ensures 1 <= |s| && AllDigits(s) && DigitsValue(s) == n
    ensures s[0] == '0' ==> n == 0
    ensures n < 10 <==> |s| == 1
    ensures 10 <= n < 100 ==> |s| == 2
  {
    if n < 10 then [DigitChar(n)]
    else
      var prefix := NatToString(n / 10);
      var s := prefix + [DigitChar(n % 10)];
      assert s[..|s| - 1] == prefix;
      s
  }

  /** `String(n)` for any integer: a minus sign before the magnitude when negative. */
  function IntToString(n: int): (s: string)
    ensures n >= 0 ==> 1 <= |s| && AllDigits(s) && DigitsValue(s) == n
    ensures n < 0 ==> 2 <= |s| && s[0] == '-' && AllDigits(s[1..]) && DigitsValue(s[1..]) == -n
  {
    if n < 0 then "-" + NatToString(-n) else NatToString(n)
  }

  lemma {:induction false} LeadingZeroIgnored(s: string)
    requires AllDigits(s)
    ensures AllDigits("0" + s) && DigitsValue("0" + s) == DigitsValue(s)
  {
    if s != [] {
      var t := "0" + s;
      assert t[..|t| - 1] == "0" + s[..|s| - 1];
      LeadingZeroIgnored(s[..|s| - 1]);
    }
  }

  /** `n < 10 ? "0" + n : String(n)`, the zero padding both clocks use. */
  function PadTwo(n: int): (s: string)
    ensures n >= 0 ==> 2 <= |s| && AllDigits(s) && DigitsValue(s) == n
    ensures 0 <= n < 100 ==> |s| == 2
  {
    if n < 10 then
      var s := "0" + IntToString(n);
      if n >= 0 then LeadingZeroIgnored(IntToString(n)); s else s
    else IntToString(n)
  }

  // ---------------------------------------------------------------------
  // Strings and arrays

  function LowerChar(c: char): char {
    if 'A' <= c <= 'Z' then (c as int + 32) as char else c
  }

  /** `s.toLowerCase()`, restricted to the ASCII letters. */
  function ToLowerCase(s: string): (r: string)
    ensures |r| == |s| && forall i :: 0 <= i < |s| ==> r[i] == LowerChar(s[i])
  {
    seq(|s|, i requires 0 <= i < |s| => LowerChar(s[i]))
  }

  /** The index `s.slice(start)` starts from. */
  function SliceFrom(len: nat, start: int): (k: nat)
    ensures k <= len
  {
    if start < 0 then Max(len + start, 0) else Min(start, len)
  }

  /** `s.slice(start)` with a single argument. */
  function Slice<T>(s: seq<T>, start: int): (r: seq<T>)
    ensures |r| <= |s| && r == s[|s| - |r|..]
    ensures start < 0 ==> |r| == Min(-start, |s|)
    ensures start >= 0 ==> |r| == Max(|s| - start, 0)
  {
    s[SliceFrom(|s|, start)..]
  }
}
