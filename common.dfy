/** Option values, used where the source returns or stores a nullable reference. */
module Wrappers {
  datatype Option<T> = None | Some(value: T)
}

/**
 * Java numeric conversions the game relies on, made explicit because Dafny's
 * reals and integers neither round nor truncate on their own.
 */
module Numerics {
  /**
   * Java's `(int) x` for a double: truncation toward zero.  (Saturation at the
   * 32-bit bounds and NaN are not modelled.)
   */
  function TruncateToInt(x: real): (r: int)
    ensures 0.0 <= x ==> r as real <= x < r as real + 1.0
    ensures x < 0.0 ==> r as real - 1.0 < x <= r as real
    ensures (x < 0.0) == (r < 0) || r == 0
  {
    if x >= 0.0 then x.Floor else -((-x).Floor)
  }

  /** Java's `Math.floor` followed by an int cast. */
  function FloorToInt(x: real): (r: int)
    ensures r as real <= x < r as real + 1.0
  {
    x.Floor
  }

  function Min(a: real, b: real): (r: real)
    ensures r <= a && r <= b && (r == a || r == b)
  {
    if a <= b then a else b
  }

  function Max(a: real, b: real): (r: real)
    ensures r >= a && r >= b && (r == a || r == b)
  {
    if a >= b then a else b
  }

  function MinInt(a: int, b: int): (r: int)
    ensures r <= a && r <= b && (r == a || r == b)
  {
    if a <= b then a else b
  }

  lemma ProductNonNegative(x: real, y: real)
    requires x >= 0.0 && y >= 0.0
    ensures x * y >= 0.0
  {
  }

  /** A share of a positive whole that is at most the whole lies in [0, 1]. */
  lemma QuotientInUnit(n: real, d: real)
    requires d > 0.0 && 0.0 <= n <= d
    ensures 0.0 <= n / d <= 1.0
  {
    var q := n / d;
    assert q * d == n;
    assert (1.0 - q) * d == d - n;
  }

  /** Converting a product to a real multiplies the converted factors. */
  lemma {:induction false} CastProduct(a: int, b: nat)
    ensures (a * b) as real == a as real * b as real
  {
    if b > 0 {
      CastProduct(a, b - 1);
      assert a * b == a * (b - 1) + a;
      assert a as real * b as real == a as real * (b - 1) as real + a as real;
    }
  }

  /** Truncating the exact quotient of a non-negative `n * d + e` by `d` gives back `n`. */
  lemma TruncateCellCentre(n: int, d: real, e: real)
    requires n >= 0 && d > 0.0 && 0.0 <= e < d
    ensures TruncateToInt((n as real * d + e) / d) == n
  {
    var f := e / d;
    assert f * d == e;
    if f >= 1.0 {
      assert false;
    }
    assert (n as real * d + e) / d == n as real + f;
  }
}


/** Java string helpers used by the game's case-insensitive type names. */
module Text {
  /** `Character.toLowerCase` restricted to ASCII letters. */
  function LowerChar(c: char): (r: char)
    ensures 'A' <= c <= 'Z' ==> r as int == c as int + 32
    ensures !('A' <= c <= 'Z') ==> r == c
  {
    if 'A' <= c <= 'Z' then (c as int + 32) as char else c
  }

  /** `String.toLowerCase` on ASCII text. */
  function ToLower(s: string): (r: string)
    ensures |r| == |s|
    ensures forall i :: 0 <= i < |s| ==> r[i] == LowerChar(s[i])
  {
    if s == [] then [] else [LowerChar(s[0])] + ToLower(s[1..])
  }

  /** Text without upper-case letters is its own lower-case form. */
  lemma ToLowerKeepsLowerCase(s: string)
    requires forall i :: 0 <= i < |s| ==> !('A' <= s[i] <= 'Z')
    ensures ToLower(s) == s
  {
  }

  /** Lower-casing twice is lower-casing once. */
  lemma ToLowerIdempotent(s: string)
    ensures ToLower(ToLower(s)) == ToLower(s)
  {
    assert forall i :: 0 <= i < |s| ==> LowerChar(LowerChar(s[i])) == LowerChar(s[i]);
  }
}
