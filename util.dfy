/** Numeric helpers the channel relies on: the two-point linear remap, the
    clamp, and the truncating conversion to a 16-bit converter code. */
module Util {

  type Int16 = x: int | -32768 <= x <= 32767

  function Abs(x: real): real { if x < 0.0 then -x else x }

  /** The line through (x1, y1) and (x2, y2), evaluated at x. */
  function Remap(x: real, x1: real, y1: real, x2: real, y2: real): (r: real)
    requires x1 != x2
    ensures x == x1 ==> r == y1
    ensures x == x2 ==> r == y2
  {
    var slope := (y2 - y1) / (x2 - x1);
    assert x == x2 ==> (x - x1) * slope == y2 - y1;
    y1 + (x - x1) * slope
  }

  /** Bounds x to the closed interval [lo, hi]. */
  function Clamp(x: real, lo: real, hi: real): (r: real)
    requires lo <= hi
    ensures lo <= r <= hi
    ensures lo <= x <= hi ==> r == x
    ensures x < lo ==> r == lo
    ensures x > hi ==> r == hi
  {
    if x < lo then lo else if x > hi then hi else x
  }

  /** A float-to-integer cast: the fraction is dropped, rounding toward zero. */
  function Truncate(x: real): (n: int)
    ensures 0.0 <= x ==> n as real <= x < n as real + 1.0
    ensures x < 0.0 ==> n as real - 1.0 < x <= n as real
  {
    if x >= 0.0 then x.Floor else -((-x).Floor)
  }

  /** Remapping through a line and then through its mirror image gives the
      starting point back: the two directions of the remap are inverses. */
  lemma RemapRoundTrip(x: real, x1: real, y1: real, x2: real, y2: real)
    requires x1 != x2 && y1 != y2
    ensures Remap(Remap(x, x1, y1, x2, y2), y1, x1, y2, x2) == x
  {
    var y := Remap(x, x1, y1, x2, y2);
    var a := (y2 - y1) / (x2 - x1);
    var b := (x2 - x1) / (y2 - y1);
    assert a * b == 1.0;
    assert y - y1 == (x - x1) * a;
    calc {
      Remap(y, y1, x1, y2, x2);
      x1 + (y - y1) * b;
      x1 + (x - x1) * (a * b);
      x;
    }
  }

  /** The midpoint of the input interval is sent to the midpoint of the
      output interval. */
  lemma RemapMidpoint(x1: real, y1: real, x2: real, y2: real)
    requires x1 != x2
    ensures Remap((x1 + x2) / 2.0, x1, y1, x2, y2) == (y1 + y2) / 2.0
  {
    var slope := (y2 - y1) / (x2 - x1);
    assert ((x1 + x2) / 2.0 - x1) * slope == (x2 - x1) * slope / 2.0;
    assert (x2 - x1) * slope == y2 - y1;
  }

  /** On an increasing line, a point between the two inputs is sent between
      the two outputs. */
  lemma RemapBetween(x: real, x1: real, y1: real, x2: real, y2: real)
    requires x1 < x2 && y1 <= y2 && x1 <= x <= x2
    ensures y1 <= Remap(x, x1, y1, x2, y2) <= y2
  {
    var slope := (y2 - y1) / (x2 - x1);
    assert 0.0 <= slope;
    assert (x - x1) * slope <= (x2 - x1) * slope;
    assert (x2 - x1) * slope == y2 - y1;
  }

  /** A line whose two points lie on the diagonal is the identity. */
  lemma RemapDiagonal(x: real, lo: real, hi: real)
    requires lo != hi
    ensures Remap(x, lo, lo, hi, hi) == x
  {
    assert (hi - lo) / (hi - lo) == 1.0;
  }

  /** The quotient of two positive numbers is positive. */
  lemma PositiveQuotient(p: real, q: real)
    requires 0.0 < p && 0.0 < q
    ensures 0.0 < p / q
  {
  }

  /** A factor of size below one shrinks a positive b. */
  lemma ScaledBelowOne(d: real, b: real)
    requires -1.0 < d < 1.0 && 0.0 < b
    ensures Abs(d * b) < b
  {
    if d >= 0.0 {
      assert d * b < 1.0 * b;
    } else {
      assert (-d) * b < 1.0 * b;
    }
  }

  /** Sending x through an increasing line, truncating the result to a whole
      number and sending that back through the mirror line lands within one
      output step of x: the truncation loses less than one unit. */
  lemma RemapTruncateReadBack(x: real, x1: real, y1: real, x2: real, y2: real)
    requires x1 < x2 && y1 < y2
    ensures Abs(Remap(Truncate(Remap(x, x1, y1, x2, y2)) as real, y1, x1, y2, x2) - x) < (x2 - x1) / (y2 - y1)
  {
    var y := Remap(x, x1, y1, x2, y2);
    var n := Truncate(y) as real;
    var b := (x2 - x1) / (y2 - y1);
    assert -1.0 < n - y < 1.0;
    RemapRoundTrip(x, x1, y1, x2, y2);
    assert Remap(y, y1, x1, y2, x2) == x1 + (y - y1) * b;
    assert Remap(n, y1, x1, y2, x2) - x == (n - y) * b;
    PositiveQuotient(x2 - x1, y2 - y1);
    var d := n - y;
    assert Remap(n, y1, x1, y2, x2) - x == d * b;
    ScaledBelowOne(d, b);
  }
}
