/** Shared vocabulary: a value that may be absent, and Python's rounding over exact reals. */
module Common {
  datatype Option<+T> = None | Some(value: T)

  function Min(x: real, y: real): (r: real)
    ensures r <= x && r <= y && (r == x || r == y)
  {
    if x <= y then x else y
  }

  function Max(x: real, y: real): (r: real)
    ensures x <= r && y <= r && (r == x || r == y)
  {
    if x <= y then y else x
  }

  function Abs(x: real): (r: real)
    ensures r >= 0.0 && (r == x || r == -x)
  {
    if x < 0.0 then -x else x
  }
}

/** `round(x, digits)` of the source, on exact reals: to the nearest grid point, ties to the even one. */
module Rounding {
  function RoundHalfEven(x: real): (n: int)
    ensures x - 0.5 <= n as real <= x + 0.5
  {
    var floor := x.Floor;
    var fraction := x - floor as real;
    if fraction < 0.5 || (fraction == 0.5 && floor % 2 == 0) then floor else floor + 1
  }

  lemma RoundHalfEvenMonotone(x: real, y: real)
    requires x <= y
    ensures RoundHalfEven(x) <= RoundHalfEven(y)
  {
    if RoundHalfEven(x) > RoundHalfEven(y) {
      assert false;
    }
  }

  function Pow10(digits: nat): (p: real)
    ensures p >= 1.0
  {
    if digits == 0 then 1.0 else 10.0 * Pow10(digits - 1)
  }

  /** The grid point count of a value, `x * 10^digits`. */
  function Scaled(x: real, digits: nat): real {
    x * Pow10(digits)
  }

  function RoundTo(x: real, digits: nat): real {
    RoundHalfEven(Scaled(x, digits)) as real / Pow10(digits)
  }

  /** Half the distance between neighbouring grid points. */
  function HalfUnit(digits: nat): (h: real)
    ensures h > 0.0
  {
    0.5 / Pow10(digits)
  }

  predicate OnGrid(x: real, digits: nat) {
    Scaled(x, digits).Floor as real == Scaled(x, digits)
  }

  lemma DivideMonotone(x: real, y: real, p: real)
    requires p > 0.0
    ensures x <= y <==> x / p <= y / p
    ensures x == y <==> x / p == y / p
  {
    var u, v := x / p, y / p;
    assert u * p == x && v * p == y;
  }

  lemma ScaledInverse(x: real, digits: nat)
    ensures Scaled(x, digits) / Pow10(digits) == x
    ensures Scaled(x / Pow10(digits), digits) == x
  {
  }

  lemma DivideDifference(x: real, y: real, p: real)
    requires p > 0.0
    ensures (x + y) / p == x / p + y / p && (x - y) / p == x / p - y / p
  {
  }

  lemma QuotientBetween(sum: real, n: real, lo: real, hi: real)
    requires n > 0.0 && lo * n <= sum <= hi * n
    ensures lo <= sum / n <= hi
  {
    DivideMonotone(lo * n, sum, n);
    DivideMonotone(sum, hi * n, n);
    assert lo * n / n == lo && hi * n / n == hi;
  }

  lemma RoundToWithin(x: real, digits: nat)
    ensures x - HalfUnit(digits) <= RoundTo(x, digits) <= x + HalfUnit(digits)
  {
    var p, s := Pow10(digits), Scaled(x, digits);
    var n := RoundHalfEven(s) as real;
    DivideMonotone(s - 0.5, n, p);
    DivideMonotone(n, s + 0.5, p);
    DivideDifference(s, 0.5, p);
    ScaledInverse(x, digits);
  }

  lemma RoundToMonotone(x: real, y: real, digits: nat)
    requires x <= y
    ensures RoundTo(x, digits) <= RoundTo(y, digits)
  {
    var p := Pow10(digits);
    DivideMonotone(Scaled(x, digits), Scaled(y, digits), p);
    ScaledInverse(x, digits);
    ScaledInverse(y, digits);
    RoundHalfEvenMonotone(Scaled(x, digits), Scaled(y, digits));
    DivideMonotone(RoundHalfEven(Scaled(x, digits)) as real, RoundHalfEven(Scaled(y, digits)) as real, p);
  }

  /** Rounding lands on the grid and leaves exactly the grid points where they are. */
  lemma RoundToGrid(x: real, digits: nat)
    ensures OnGrid(RoundTo(x, digits), digits)
    ensures OnGrid(x, digits) <==> RoundTo(x, digits) == x
  {
    ScaledInverse(x, digits);
    ScaledInverse(RoundHalfEven(Scaled(x, digits)) as real, digits);
  }

  lemma SumOnGrid(x: real, y: real, digits: nat)
    requires OnGrid(x, digits) && OnGrid(y, digits)
    ensures OnGrid(x + y, digits) && OnGrid(x - y, digits)
  {
    var m, n := Scaled(x, digits).Floor, Scaled(y, digits).Floor;
    assert Scaled(x + y, digits) == (m + n) as real;
    assert Scaled(x - y, digits) == (m - n) as real;
  }

  /** `n` steps of size `step`. */
  function Steps(n: int, step: real): real {
    n as real * step
  }

  lemma MultipleOnGrid(n: int, step: real, digits: nat)
    requires OnGrid(step, digits)
    ensures OnGrid(Steps(n, step), digits)
  {
    var k := Scaled(step, digits).Floor;
    assert Scaled(Steps(n, step), digits) == n as real * Scaled(step, digits) == (n * k) as real;
  }

  lemma IntegerGap(s: real, t: real)
    requires s.Floor as real == s && t.Floor as real == t && s < t
    ensures s + 1.0 <= t
  {
    var m, n := s.Floor, t.Floor;
    assert (n - m) as real == t - s;
    assert n - m >= 1;
  }

  /** Two different grid points are at least a whole unit apart. */
  lemma GridGap(x: real, y: real, digits: nat)
    requires OnGrid(x, digits) && OnGrid(y, digits) && x < y
    ensures x + HalfUnit(digits) + HalfUnit(digits) <= y
  {
    var p, s, t := Pow10(digits), Scaled(x, digits), Scaled(y, digits);
    ScaledInverse(x, digits);
    ScaledInverse(y, digits);
    IntegerGap(s, t) by { DivideMonotone(t, s, p); }
    DivideMonotone(s + 1.0, t, p);
    DivideDifference(s, 1.0, p);
    DivideDifference(0.5, 0.5, p);
  }
}
