/** Arithmetic the firmware does with C++ operators, written out so that
    Dafny's Euclidean division and unbounded integers do not hide a difference. */
module CArith {

  /** C++ integer division: the quotient is truncated toward zero for either
      sign of the divisor (Dafny's `/` is Euclidean). For a non-negative
      dividend q * b lies in [0, a] within |b| of it; for a negative one in
      [a, 0]. */
  function TruncDiv(a: int, b: int): (q: int)
    requires b != 0
    ensures var m := if b > 0 then b else -b;
      && (a >= 0 ==> 0 <= q * b <= a < q * b + m)
      && (a < 0 ==> q * b - m < a <= q * b <= 0)
    decreases if b < 0 then 1 else 0
  {
    if b < 0 then
      var q' := TruncDiv(a, -b);
      assert (-q') * b == q' * (-b);
      -q'
    else if a >= 0 then
      FloorDivBounds(a, b);
      a / b
    else
      FloorDivBounds(-a, b);
      -((-a) / b)
  }

  /** Negating the divisor negates the C++ quotient. */
  lemma TruncDivNegated(a: int, b: int)
    requires b != 0
    ensures TruncDiv(a, -b) == -TruncDiv(a, b)
  {
  }

  /** The quotient of Dafny's division of a non-negative number brackets it. */
  lemma FloorDivBounds(a: int, b: int)
    requires a >= 0 && b > 0
    ensures 0 <= (a / b) * b <= a < (a / b) * b + b
  {
    var q, r := a / b, a % b;
    assert a == q * b + r && 0 <= r < b;
    assert q >= 0;
  }

  /** std::min on prices. */
  function Min(a: real, b: real): (m: real)
    ensures m <= a && m <= b && (m == a || m == b)
  {
    if b < a then b else a
  }

  /** std::max on prices. */
  function Max(a: real, b: real): (m: real)
    ensures a <= m && b <= m && (m == a || m == b)
  {
    if a < b then b else a
  }

  /** std::min on ints (Min above is on prices; Dafny has no ordering
      shared by int and real without a trait). */
  function MinInt(a: int, b: int): (m: int)
    ensures m <= a && m <= b && (m == a || m == b)
  {
    if b < a then b else a
  }

  /** std::max on ints. */
  function MaxInt(a: int, b: int): (m: int)
    ensures a <= m && b <= m && (m == a || m == b)
  {
    if a < b then b else a
  }

  /** Multiples of n that differ in the multiplier are at least n apart. */
  lemma MulGap(x: int, y: int, n: int)
    requires x > y && n > 0
    ensures x * n >= y * n + n
  {
    MulAtLeast(x - y, n);
    Distribute(x, y, n);
  }

  lemma {:induction false} MulAtLeast(d: int, n: int)
    requires d >= 1 && n > 0
    ensures d * n >= n
    decreases d
  {
    if d > 1 {
      MulAtLeast(d - 1, n);
      assert d * n == (d - 1) * n + n;
    }
  }

  lemma Distribute(x: int, y: int, n: int)
    ensures (x - y) * n == x * n - y * n
  {
  }

  /** A multiple of n leaves no remainder. */
  lemma MultipleMod(q: int, n: int)
    requires n > 0
    ensures (q * n) % n == 0
  {
    var d, r := (q * n) / n, (q * n) % n;
    assert q * n == d * n + r && 0 <= r < n;
    if q > d {
      MulGap(q, d, n);
      assert false;
    } else if q < d {
      MulGap(d, q, n);
      assert false;
    }
  }
}
