// Shared helpers: optional values, Go's truncating integer arithmetic,
// real-valued min/max/clamp and decimal rendering of integers.

module Wrappers {
  datatype Option<T> = None | Some(value: T)

  datatype Result<T, E> = Ok(value: T) | Err(error: E)
}

module GoInt {
  /** Absolute value of an integer. */
  function Abs(x: int): (r: nat)
    ensures r == x || r == -x
  {
    if x < 0 then -x else x
  }

  /** Go's integer `/`: the quotient truncated toward zero. */
  function GoDiv(a: int, b: int): (q: int)
    requires b != 0
    ensures a >= 0 && b > 0 ==> q == a / b
    ensures a < 0 && b > 0 ==> q == -((-a) / b)
  {
    var m := Abs(a) / Abs(b);
    if (a < 0) != (b < 0) then -m else m
  }

  /** Go's integer `%`: the remainder takes the sign of the dividend. */
  function GoRem(a: int, b: int): (r: int)
    requires b != 0
    ensures a >= 0 && b > 0 ==> r == a % b
    ensures a < 0 && b > 0 ==> r == -((-a) % b)
  {
    a - b * GoDiv(a, b)
  }
}

module Reals {
  function Min(a: real, b: real): (r: real)
    ensures r <= a && r <= b && (r == a || r == b)
  {
    if a <= b then a else b
  }

  function Max(a: real, b: real): (r: real)
    ensures r >= a && r >= b && (r == a || r == b)
  {
    if a >= b then a else b
  }

  /** `math.Max(lo, math.Min(hi, x))`. */
  function Clamp(x: real, lo: real, hi: real): (r: real)
    requires lo <= hi
    ensures lo <= r <= hi
    ensures lo <= x <= hi ==> r == x
  {
    Max(lo, Min(hi, x))
  }

  /** A non-negative amount scaled by a share in [0, 1] stays between 0 and the amount. */
  lemma ScaleWithin(x: real, k: real)
    ensures x >= 0.0 && 0.0 <= k <= 1.0 ==> 0.0 <= x * k <= x
  {
    if x >= 0.0 && 0.0 <= k <= 1.0 {
      assert x * k <= x * 1.0;
    }
  }

  /** Sum of a sequence of reals, left to right. */
  function Sum(s: seq<real>): real
  {
    if s == [] then 0.0 else Sum(s[..|s| - 1]) + s[|s| - 1]
  }

  /** Arithmetic mean; 0 for an empty sequence. */
  function Mean(s: seq<real>): real
  {
    if s == [] then 0.0 else Sum(s) / (|s| as real)
  }
}

module Text {
  /** The character of a decimal digit. */
  function DigitChar(d: nat): (c: char)
    requires d < 10
    ensures '0' <= c <= '9'
  {
    "0123456789"[d]
  }

  /** `%d` of a natural number. */
  function NatToString(n: nat): (s: string)
    ensures |s| >= 1
    ensures forall i :: 0 <= i < |s| ==> '0' <= s[i] <= '9'
  {
    if n < 10 then [DigitChar(n)] else NatToString(n / 10) + [DigitChar(n % 10)]
  }

  /** `%d` of an integer. */
  function IntToString(n: int): (s: string)
    ensures |s| >= 1
  {
    if n < 0 then "-" + NatToString(-n) else NatToString(n)
  }

  predicate StartsWith(s: string, prefix: string)
  {
    |prefix| <= |s| && s[..|prefix|] == prefix
  }
}
