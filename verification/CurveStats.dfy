/** Reference definitions for figures that the source computes in one pass: sums, peaks, drawdowns and streaks. */
module CurveStats {
  function Sum(xs: seq<real>): real {
    if xs == [] then 0.0 else Sum(xs[..|xs| - 1]) + xs[|xs| - 1]
  }

  lemma SumAppend(xs: seq<real>, x: real)
    ensures Sum(xs + [x]) == Sum(xs) + x
  {
    assert (xs + [x])[..|xs|] == xs;
  }

  /** The curve after the first `k` changes. */
  function Curve(start: real, xs: seq<real>, k: nat): real
    requires k <= |xs|
  {
    start + Sum(xs[..k])
  }

  lemma CurveAppend(start: real, xs: seq<real>, x: real)
    ensures forall k :: 0 <= k <= |xs| ==> Curve(start, xs + [x], k) == Curve(start, xs, k)
    ensures Curve(start, xs + [x], |xs| + 1) == Curve(start, xs, |xs|) + x
  {
    forall k | 0 <= k <= |xs| ensures Curve(start, xs + [x], k) == Curve(start, xs, k) {
      assert (xs + [x])[..k] == xs[..k];
    }
    assert (xs + [x])[..|xs| + 1] == xs + [x] && xs[..|xs|] == xs;
    SumAppend(xs, x);
  }

  lemma CurveEnd(start: real, xs: seq<real>, x: real)
    ensures Curve(start, xs + [x], |xs| + 1) == Curve(start, xs, |xs|) + x
  {
    CurveAppend(start, xs, x);
  }

  /** The highest point of the curve so far, its start included. */
  ghost predicate IsPeak(start: real, xs: seq<real>, p: real) {
    && (forall k :: 0 <= k <= |xs| ==> Curve(start, xs, k) <= p)
    && exists k :: 0 <= k <= |xs| && Curve(start, xs, k) == p
  }

  lemma PeakAppend(start: real, xs: seq<real>, x: real, p: real, p': real)
    requires IsPeak(start, xs, p)
    requires p' == if Curve(start, xs, |xs|) + x > p then Curve(start, xs, |xs|) + x else p
    ensures IsPeak(start, xs + [x], p')
  {
    CurveAppend(start, xs, x);
    var k :| 0 <= k <= |xs| && Curve(start, xs, k) == p;
    assert Curve(start, xs + [x], k) == p;
    assert Curve(start, xs + [x], |xs + [x]|) == Curve(start, xs, |xs|) + x;
  }

  /** How far the curve falls from one point to a later one. */
  function Fall(start: real, xs: seq<real>, i: nat, j: nat): real
    requires i <= j <= |xs|
  {
    Curve(start, xs, i) - Curve(start, xs, j)
  }

  /** The deepest fall from any earlier point of the curve to any later one. */
  ghost predicate IsMaxDrawdown(start: real, xs: seq<real>, d: real) {
    && (forall i: nat, j: nat :: i <= j <= |xs| ==> Fall(start, xs, i, j) <= d)
    && exists i: nat, j: nat :: i <= j <= |xs| && Fall(start, xs, i, j) == d
  }

  lemma DrawdownAppend(start: real, xs: seq<real>, x: real, p: real, d: real, d': real)
    requires IsPeak(start, xs + [x], p) && IsMaxDrawdown(start, xs, d)
    requires d' == if p - (Curve(start, xs, |xs|) + x) > d then p - (Curve(start, xs, |xs|) + x) else d
    ensures IsMaxDrawdown(start, xs + [x], d')
  {
    CurveAppend(start, xs, x);
    var ys := xs + [x];
    forall i: nat, j: nat | i <= j <= |ys| ensures Fall(start, ys, i, j) <= d' {
      if j <= |xs| { assert Fall(start, ys, i, j) == Fall(start, xs, i, j) <= d; }
    }
    if d' == d {
      var i: nat, j: nat :| i <= j <= |xs| && Fall(start, xs, i, j) == d;
      assert Fall(start, ys, i, j) == d;
    } else {
      var k :| 0 <= k <= |ys| && Curve(start, ys, k) == p;
      assert Fall(start, ys, k, |ys|) == d';
    }
  }

  lemma EmptyCurve(start: real)
    ensures IsPeak(start, [], start) && IsMaxDrawdown(start, [], 0.0)
  {
    assert Curve(start, [], 0) == start && Fall(start, [], 0, 0) == 0.0;
  }

  /** How far, in percent, the curve is below its running peak after `k` changes; 0 for a peak of 0 or less. */
  ghost predicate IsFallBelowPeak(start: real, xs: seq<real>, k: nat, d: real)
    requires k <= |xs|
  {
    exists p :: IsPeak(start, xs[..k], p) && d == FallPct(p, Curve(start, xs, k))
  }

  function FallPct(peak: real, value: real): real {
    if peak > 0.0 then (peak - value) / peak * 100.0 else 0.0
  }

  /** The largest percentage fall below the running peak at any point of the curve. */
  ghost predicate IsMaxDrawdownPct(start: real, xs: seq<real>, d: real) {
    && (forall k, f :: 0 <= k <= |xs| && IsFallBelowPeak(start, xs, k, f) ==> f <= d)
    && exists k :: 0 <= k <= |xs| && IsFallBelowPeak(start, xs, k, d)
  }

  lemma PeakUnique(start: real, xs: seq<real>, p: real, q: real)
    requires IsPeak(start, xs, p) && IsPeak(start, xs, q)
    ensures p == q
  {
  }

  lemma FallAppend(start: real, xs: seq<real>, x: real, k: nat, f: real)
    requires k <= |xs|
    ensures IsFallBelowPeak(start, xs + [x], k, f) <==> IsFallBelowPeak(start, xs, k, f)
  {
    assert (xs + [x])[..k] == xs[..k];
    CurveAppend(start, xs, x);
  }

  lemma DrawdownPctAppend(start: real, xs: seq<real>, x: real, p: real, d: real, d': real)
    requires IsPeak(start, xs + [x], p) && IsMaxDrawdownPct(start, xs, d)
    requires var f := FallPct(p, Curve(start, xs, |xs|) + x); d' == if f > d then f else d
    ensures IsMaxDrawdownPct(start, xs + [x], d')
  {
    var ys := xs + [x];
    var last := FallPct(p, Curve(start, xs, |xs|) + x);
    CurveAppend(start, xs, x);
    assert ys[..|ys|] == ys;
    assert IsFallBelowPeak(start, ys, |ys|, last);
    forall k, f | 0 <= k <= |ys| && IsFallBelowPeak(start, ys, k, f) ensures f <= d' {
      if k <= |xs| {
        FallAppend(start, xs, x, k, f);
      } else {
        var q :| IsPeak(start, ys[..k], q) && f == FallPct(q, Curve(start, ys, k));
        PeakUnique(start, ys, p, q);
      }
    }
    if d' == d {
      var k :| 0 <= k <= |xs| && IsFallBelowPeak(start, xs, k, d);
      FallAppend(start, xs, x, k, d);
    }
  }

  lemma EmptyDrawdownPct(start: real)
    ensures IsMaxDrawdownPct(start, [], 0.0)
  {
    EmptyCurve(start);
    assert IsFallBelowPeak(start, [], 0, 0.0);
    forall k, f | 0 <= k <= 0 && IsFallBelowPeak(start, [], k, f) ensures f <= 0.0 {
      var q :| IsPeak(start, [], q) && f == FallPct(q, Curve(start, [], 0));
      PeakUnique(start, [], q, start);
    }
  }

  /** What the drawdown loop knows: where the curve is, its peak and its deepest fall. */
  ghost predicate Tracked(start: real, xs: seq<real>, value: real, peak: real, drawdown: real) {
    && value == Curve(start, xs, |xs|) && IsPeak(start, xs, peak)
    && IsMaxDrawdownPct(start, xs, drawdown)
  }

  lemma TrackedStart(start: real)
    ensures Tracked(start, [], start, start, 0.0)
  {
    EmptyCurve(start);
    EmptyDrawdownPct(start);
  }

  lemma TrackedAppend(start: real, xs: seq<real>, x: real, value: real, peak: real, drawdown: real, peak': real,
                      fall: real)
    requires Tracked(start, xs, value, peak, drawdown)
    requires peak' == if value + x > peak then value + x else peak
    requires fall == FallPct(peak', value + x)
    ensures Tracked(start, xs + [x], value + x, peak', if fall > drawdown then fall else drawdown)
  {
    CurveAppend(start, xs, x);
    PeakAppend(start, xs, x, peak, peak');
    DrawdownPctAppend(start, xs, x, peak', drawdown, if fall > drawdown then fall else drawdown);
  }

  /** How many entries qualify. */
  function Count(xs: seq<real>, qualifies: real -> bool): nat
    decreases xs
  {
    if xs == [] then 0 else Count(xs[..|xs| - 1], qualifies) + if qualifies(xs[|xs| - 1]) then 1 else 0
  }

  lemma CountAppend(xs: seq<real>, x: real, qualifies: real -> bool)
    ensures Count(xs + [x], qualifies) == Count(xs, qualifies) + if qualifies(x) then 1 else 0
  {
    assert (xs + [x])[..|xs|] == xs;
  }

  // ---- Streaks ----------------------------------------------------------------------------------------------------

  ghost predicate RunOf(xs: seq<real>, losing: real -> bool, from: nat, n: nat) {
    from + n <= |xs| && forall i :: from <= i < from + n ==> losing(xs[i])
  }

  /** The longest stretch of consecutive losing entries has length `n`. */
  ghost predicate IsLongestRun(xs: seq<real>, losing: real -> bool, n: nat) {
    && (exists from: nat :: RunOf(xs, losing, from, n))
    && forall from: nat, m: nat :: RunOf(xs, losing, from, m) ==> m <= n
  }

  /** The losing stretch that ends the sequence has length `n`. */
  ghost predicate IsTrailingRun(xs: seq<real>, losing: real -> bool, n: nat) {
    && n <= |xs| && RunOf(xs, losing, |xs| - n, n)
    && (n < |xs| ==> !losing(xs[|xs| - n - 1]))
  }

  lemma RunAppend(xs: seq<real>, x: real, losing: real -> bool, trailing: nat, longest: nat)
    returns (trailing': nat, longest': nat)
    requires IsTrailingRun(xs, losing, trailing) && IsLongestRun(xs, losing, longest)
    ensures trailing' == if losing(x) then trailing + 1 else 0
    ensures longest' == if trailing' > longest then trailing' else longest
    ensures IsTrailingRun(xs + [x], losing, trailing') && IsLongestRun(xs + [x], losing, longest')
  {
    trailing' := if losing(x) then trailing + 1 else 0;
    longest' := if trailing' > longest then trailing' else longest;
    var ys := xs + [x];
    assert RunOf(ys, losing, |ys| - trailing', trailing');
    // No stretch that reaches the end can cross the entry just before the trailing one.
    assert trailing' < |ys| ==> !losing(ys[|ys| - trailing' - 1]);
    forall from: nat, m: nat | RunOf(ys, losing, from, m) ensures m <= longest' {
      if from + m <= |xs| {
        assert forall i :: from <= i < from + m ==> ys[i] == xs[i];
        assert RunOf(xs, losing, from, m);
      }
    }
    if longest' == longest {
      var from: nat :| RunOf(xs, losing, from, longest);
      assert forall i :: from <= i < from + longest ==> ys[i] == xs[i];
      assert RunOf(ys, losing, from, longest);
    }
  }

  lemma EmptyRun(losing: real -> bool)
    ensures IsTrailingRun([], losing, 0) && IsLongestRun([], losing, 0)
  {
    assert RunOf([], losing, 0, 0);
  }
}
