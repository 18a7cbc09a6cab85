/** Equity curves: bucket edges, the newest usable observation per account at every edge, and their sum. */
module EquityCurve {
  import opened Common
  import opened Rounding

  /** Times are in microseconds, bucket and freshness settings in seconds. */
  const SECOND := 1_000_000
  const MONEY_DIGITS: nat := 2

  datatype Snap = Snap(account: int, at: int, equity: Option<real>, currency: string)

  ghost predicate Chronological(snaps: seq<Snap>) {
    forall i, j :: 0 <= i < j < |snaps| ==> snaps[i].at <= snaps[j].at
  }

  // ---- Edges ------------------------------------------------------------------------------------------------------

  ghost predicate StrictlyIncreasing(xs: seq<int>) {
    forall i, j :: 0 <= i < j < |xs| ==> xs[i] < xs[j]
  }

  function Times(k: int, step: int): int { k * step }

  lemma TimesMonotone(k: int, m: int, step: int)
    requires step > 0
    ensures k < m <==> Times(k, step) < Times(m, step)
  {
    if k < m { assert (m - k) * step > 0; } else { assert (k - m) * step >= 0; }
  }

  /** The step is the bucket, or, when that would give too many edges, whole seconds that keep the number down. */
  function StepFor(span: int, bucketSeconds: int, maxPoints: int): (step: int)
    requires span >= 0 && bucketSeconds > 0 && maxPoints > 0
    ensures step > 0
  {
    var buckets := span / (bucketSeconds * SECOND) + 1;
    if buckets > maxPoints then (span / (maxPoints * SECOND) + 1) * SECOND else bucketSeconds * SECOND
  }

  lemma QuotientBound(span: int, d: int, k: int)
    requires span >= 0 && d > 0 && k >= 0 && k * d <= span
    ensures k <= span / d
  {
    assert span < (span / d + 1) * d;
    if k > span / d {
      TimesMonotone(k, span / d + 1, d);
    }
  }

  /** However long the history, edge number `maxPoints` would already lie beyond it. */
  lemma FewEdges(span: int, bucketSeconds: int, maxPoints: int, k: int)
    requires span >= 0 && bucketSeconds > 0 && maxPoints > 0 && k >= 0
    requires Times(k, StepFor(span, bucketSeconds, maxPoints)) <= span
    ensures k < maxPoints
  {
    var step, bucket := StepFor(span, bucketSeconds, maxPoints), bucketSeconds * SECOND;
    if span / bucket + 1 > maxPoints {
      var d, q := maxPoints * SECOND, span / (maxPoints * SECOND);
      assert span < (q + 1) * d;
      assert Times(maxPoints, step) == (q + 1) * d;
      TimesMonotone(k, maxPoints, step);
    } else {
      QuotientBound(span, bucket, k);
    }
  }

  ghost predicate Evenly(edges: seq<int>, t0: int, step: int) {
    forall k :: 0 <= k < |edges| ==> edges[k] == t0 + Times(k, step)
  }

  lemma EvenlyIncreases(edges: seq<int>, t0: int, step: int)
    requires step > 0 && Evenly(edges, t0, step)
    ensures StrictlyIncreasing(edges)
    ensures forall k :: 0 <= k < |edges| - 1 ==> edges[k + 1] - edges[k] == step
  {
    forall i, j | 0 <= i < j < |edges| ensures edges[i] < edges[j] {
      TimesMonotone(i, j, step);
    }
    forall k | 0 <= k < |edges| - 1 ensures edges[k + 1] - edges[k] == step {
      assert Times(k + 1, step) == Times(k, step) + step;
    }
  }

  /** Every step from the first observation that does not pass the last one. */
  method March(t0: int, tN: int, step: int) returns (edges: seq<int>)
    requires t0 <= tN && step > 0
    ensures edges != [] && Evenly(edges, t0, step) && edges[|edges| - 1] <= tN < edges[|edges| - 1] + step
  {
    edges := [];
    var t := t0;
    assert Times(0, step) == 0;
    while t <= tN
      invariant t == t0 + Times(|edges|, step) && Evenly(edges, t0, step)
      invariant if edges == [] then t == t0 else edges[|edges| - 1] <= tN && t == edges[|edges| - 1] + step
      decreases tN - t
    {
      assert Times(|edges| + 1, step) == Times(|edges|, step) + step;
      edges := edges + [t];
      t := t + step;
    }
  }

  /** From the first observation to the last, strictly increasing, evenly spaced but for the last gap, and few. */
  method Edges(t0: int, tN: int, bucketSeconds: int, maxPoints: int) returns (edges: seq<int>)
    requires t0 <= tN && bucketSeconds > 0 && maxPoints > 0
    ensures 1 <= |edges| <= maxPoints + 1 && edges[0] == t0 && edges[|edges| - 1] == tN
    ensures StrictlyIncreasing(edges)
    ensures var step := StepFor(tN - t0, bucketSeconds, maxPoints);
            && Evenly(edges[..|edges| - 1], t0, step)
            && forall k :: 0 <= k < |edges| - 1 ==> edges[k + 1] - edges[k] <= step
  {
    var step := StepFor(tN - t0, bucketSeconds, maxPoints);
    edges := March(t0, tN, step);
    assert Times(0, step) == 0;
    FewEdges(tN - t0, bucketSeconds, maxPoints, |edges| - 1);
    EvenlyIncreases(edges, t0, step);
    if edges[|edges| - 1] != tN {
      assert forall i :: 0 <= i < |edges| ==> edges[i] <= edges[|edges| - 1];
      edges := edges + [tN];
      assert edges[..|edges| - 1] + [tN] == edges;
    }
  }

  // ---- The newest usable observation ------------------------------------------------------------------------------

  /** A full scan, newest first, for an observation of the account that carries equity and lies in the window. */
  function Scan(snaps: seq<Snap>, account: int, at: int, window: int): Option<Snap> {
    if snaps == [] then None
    else
      var last := snaps[|snaps| - 1];
      if last.account == account && last.equity.Some? && at - window <= last.at <= at then Some(last)
      else Scan(snaps[..|snaps| - 1], account, at, window)
  }

  /** What the scan finds is the newest usable observation of the window; it finds nothing only if there is none. */
  lemma {:induction false} ScanFindsNewest(snaps: seq<Snap>, account: int, at: int, window: int)
    requires Chronological(snaps)
    ensures var r := Scan(snaps, account, at, window);
            && (r.Some? ==> r.value in snaps && r.value.account == account && r.value.equity.Some?
                            && at - window <= r.value.at <= at)
            && forall s :: s in snaps && s.account == account && s.equity.Some? && at - window <= s.at <= at ==>
                 r.Some? && s.at <= r.value.at
  {
    if snaps != [] {
      var front, last := snaps[..|snaps| - 1], snaps[|snaps| - 1];
      ScanFindsNewest(front, account, at, window);
      forall s | s in snaps ensures s in front || s == last {}
      forall s | s in front ensures s.at <= last.at {
        var i :| 0 <= i < |front| && front[i] == s;
      }
    }
  }

  /** The equity-bearing observations of one account, in order. */
  function Of(snaps: seq<Snap>, account: int): (r: seq<Snap>)
    ensures forall i :: 0 <= i < |r| ==> r[i].account == account && r[i].equity.Some?
  {
    if snaps == [] then []
    else
      var front, last := Of(snaps[..|snaps| - 1], account), snaps[|snaps| - 1];
      if last.account == account && last.equity.Some? then front + [last] else front
  }

  lemma {:induction false} OfIsChronological(snaps: seq<Snap>, account: int)
    requires Chronological(snaps)
    ensures Chronological(Of(snaps, account))
    ensures forall s :: s in Of(snaps, account) ==> s in snaps
  {
    if snaps != [] {
      var front, last := snaps[..|snaps| - 1], snaps[|snaps| - 1];
      OfIsChronological(front, account);
      forall s | s in Of(front, account) ensures s in snaps && s.at <= last.at {
        var i :| 0 <= i < |front| && front[i] == s;
        assert snaps[i] == s;
      }
    }
  }

  lemma {:induction false} ScanOf(snaps: seq<Snap>, account: int, at: int, window: int)
    ensures Scan(snaps, account, at, window) == Scan(Of(snaps, account), account, at, window)
  {
    if snaps != [] {
      ScanOf(snaps[..|snaps| - 1], account, at, window);
      var last := snaps[|snaps| - 1];
      if last.account == account && last.equity.Some? {
        assert Of(snaps, account)[..|Of(snaps, account)| - 1] == Of(snaps[..|snaps| - 1], account);
      }
    }
  }

  /** Observations after the edge, and one just before the window, decide the scan of a chronological list. */
  lemma {:induction false} ScanAtBoundary(list: seq<Snap>, account: int, at: int, window: int, k: nat)
    requires Chronological(list) && k <= |list|
    requires forall i :: 0 <= i < |list| ==> list[i].account == account && list[i].equity.Some?
    requires forall i :: 0 <= i < k ==> list[i].at <= at
    requires forall i :: k <= i < |list| ==> list[i].at > at
    ensures Scan(list, account, at, window)
         == if k > 0 && list[k - 1].at >= at - window then Some(list[k - 1]) else None
  {
    if list != [] {
      var n := |list| - 1;
      if k == |list| {
        if list[n].at < at - window {
          StaleScan(list, account, at, window);
        }
      } else {
        ScanAtBoundary(list[..n], account, at, window, k);
      }
    }
  }

  lemma {:induction false} StaleScan(list: seq<Snap>, account: int, at: int, window: int)
    requires forall i :: 0 <= i < |list| ==> list[i].at < at - window
    ensures Scan(list, account, at, window) == None
  {
    if list != [] { StaleScan(list[..|list| - 1], account, at, window); }
  }

  /** The position after the last time that is not later than `at`. */
  method BisectRight(times: seq<int>, at: int) returns (k: nat)
    requires forall i, j :: 0 <= i < j < |times| ==> times[i] <= times[j]
    ensures k <= |times|
    ensures (forall i :: 0 <= i < k ==> times[i] <= at) && forall i :: k <= i < |times| ==> times[i] > at
  {
    var lo, hi := 0, |times|;
    while lo < hi
      invariant 0 <= lo <= hi <= |times|
      invariant forall i :: 0 <= i < lo ==> times[i] <= at
      invariant forall i :: hi <= i < |times| ==> times[i] > at
    {
      var mid := (lo + hi) / 2;
      if at < times[mid] {
        hi := mid;
      } else {
        lo := mid + 1;
      }
    }
    k := lo;
  }

  /** The index: per account its equity-bearing observations, and their times. */
  ghost predicate Indexed(snaps: seq<Snap>, byAccount: map<int, seq<Snap>>) {
    && (forall a :: a in byAccount <==> Of(snaps, a) != [])
    && forall a :: a in byAccount ==> byAccount[a] == Of(snaps, a)
  }

  method BuildIndex(snaps: seq<Snap>) returns (byAccount: map<int, seq<Snap>>)
    ensures Indexed(snaps, byAccount)
  {
    byAccount := map[];
    for i := 0 to |snaps|
      invariant Indexed(snaps[..i], byAccount)
    {
      var s := snaps[i];
      assert snaps[..i + 1][..i] == snaps[..i];
      if s.equity.None? {
        continue;
      }
      if s.account !in byAccount {
        byAccount := byAccount[s.account := []];
      }
      byAccount := byAccount[s.account := byAccount[s.account] + [s]];
    }
    assert snaps[..|snaps|] == snaps;
  }

  function TimesOf(list: seq<Snap>): (r: seq<int>)
    ensures |r| == |list| && forall i :: 0 <= i < |r| ==> r[i] == list[i].at
  {
    seq(|list|, i requires 0 <= i < |list| => list[i].at)
  }

  /** The bisect lookup returns exactly what the full scan returns. */
  method LatestValid(ghost snaps: seq<Snap>, byAccount: map<int, seq<Snap>>, account: int, at: int, window: int)
    returns (r: Option<Snap>)
    requires Chronological(snaps) && Indexed(snaps, byAccount)
    ensures r == Scan(snaps, account, at, window)
  {
    ScanOf(snaps, account, at, window);
    if account !in byAccount {
      return None;
    }
    OfIsChronological(snaps, account);
    var list := byAccount[account];
    var k := BisectRight(TimesOf(list), at);
    ScanAtBoundary(list, account, at, window, k);
    if k == 0 {
      return None;
    }
    var s := list[k - 1];
    r := if s.at >= at - window then Some(s) else None;
  }

  // ---- Points -----------------------------------------------------------------------------------------------------

  /** Equity and currency to dollars, when a rate is known. */
  type Convert = (real, string) -> Option<real>

  /** The dollar value of an account's newest usable observation, if there is one and it converts. */
  function ValueAt(snaps: seq<Snap>, account: int, at: int, window: int, convert: Convert): Option<real> {
    var s := Scan(snaps, account, at, window);
    if s.Some? && s.value.equity.Some? then convert(s.value.equity.value, s.value.currency) else None
  }

  datatype Point = Point(at: int, equity: real, complete: bool, present: nat, total: nat, stale: seq<int>)

  function Present(snaps: seq<Snap>, ids: seq<int>, at: int, window: int, convert: Convert): nat
    decreases ids
  {
    if ids == [] then 0
    else Present(snaps, ids[..|ids| - 1], at, window, convert)
         + if ValueAt(snaps, ids[|ids| - 1], at, window, convert).Some? then 1 else 0
  }

  function TotalAt(snaps: seq<Snap>, ids: seq<int>, at: int, window: int, convert: Convert): real
    decreases ids
  {
    if ids == [] then 0.0
    else
      var v := ValueAt(snaps, ids[|ids| - 1], at, window, convert);
      TotalAt(snaps, ids[..|ids| - 1], at, window, convert) + if v.Some? then v.value else 0.0
  }

  /** A point accounts for every account once: those that count add up to the total, the others are named as stale. */
  ghost predicate GoodPoint(p: Point, snaps: seq<Snap>, ids: seq<int>, window: int, convert: Convert) {
    && p.present == Present(snaps, ids, p.at, window, convert) > 0 && p.total == |ids| == p.present + |p.stale|
    && p.equity == RoundTo(TotalAt(snaps, ids, p.at, window, convert), MONEY_DIGITS)
    && (forall a :: a in p.stale <==> a in ids && ValueAt(snaps, a, p.at, window, convert).None?)
    && (p.complete <==> p.stale == [])
  }

  method SumAt(ghost snaps: seq<Snap>, byAccount: map<int, seq<Snap>>, ids: seq<int>, at: int, window: int,
               convert: Convert)
    returns (total: real, present: nat, stale: seq<int>)
    requires Chronological(snaps) && Indexed(snaps, byAccount)
    ensures total == TotalAt(snaps, ids, at, window, convert) && present == Present(snaps, ids, at, window, convert)
    ensures present + |stale| == |ids|
    ensures forall a :: a in stale <==> a in ids && ValueAt(snaps, a, at, window, convert).None?
  {
    total, present, stale := 0.0, 0, [];
    for i := 0 to |ids|
      invariant total == TotalAt(snaps, ids[..i], at, window, convert)
      invariant present == Present(snaps, ids[..i], at, window, convert) && present + |stale| == i
      invariant forall a :: a in stale <==> a in ids[..i] && ValueAt(snaps, a, at, window, convert).None?
    {
      assert ids[..i + 1] == ids[..i] + [ids[i]] && ids[..i + 1][..i] == ids[..i];
      var s := LatestValid(snaps, byAccount, ids[i], at, window);
      if s.None? {
        stale := stale + [ids[i]];
        continue;
      }
      ScanFindsNewest(snaps, ids[i], at, window);
      var usd := convert(s.value.equity.value, s.value.currency);
      if usd.Some? {
        total, present := total + usd.value, present + 1;
      } else {
        stale := stale + [ids[i]];
      }
    }
    assert ids[..|ids|] == ids;
  }

  /** The points drawn for the edges handled so far: good, in order, on an edge, and none missing. */
  ghost predicate Drawn(points: seq<Point>, edges: seq<int>, snaps: seq<Snap>, ids: seq<int>, window: int,
                        convert: Convert) {
    && |points| <= |edges|
    && (forall k :: 0 <= k < |points| ==> GoodPoint(points[k], snaps, ids, window, convert) && points[k].at in edges)
    && (forall j, k :: 0 <= j < k < |points| ==> points[j].at < points[k].at)
    && forall t :: t in edges && Present(snaps, ids, t, window, convert) > 0 ==> exists p :: p in points && p.at == t
  }

  lemma DrawnAppend(points: seq<Point>, p: Point, edges: seq<int>, edge: int, snaps: seq<Snap>, ids: seq<int>,
                    window: int, convert: Convert)
    requires Drawn(points, edges, snaps, ids, window, convert) && forall t :: t in edges ==> t < edge
    ensures Present(snaps, ids, edge, window, convert) == 0 ==>
        Drawn(points, edges + [edge], snaps, ids, window, convert)
    ensures p.at == edge && GoodPoint(p, snaps, ids, window, convert) ==>
              Drawn(points + [p], edges + [edge], snaps, ids, window, convert)
  {
    if p.at == edge && GoodPoint(p, snaps, ids, window, convert) {
      var more := points + [p];
      assert more[|points|] == p;
      forall t | t in edges + [edge] && Present(snaps, ids, t, window, convert) > 0
        ensures exists q :: q in more && q.at == t
      {
        if t in edges {
          var q :| q in points && q.at == t;
          assert q in more;
        } else {
          assert p in more;
        }
      }
      forall k | 0 <= k < |more|
        ensures GoodPoint(more[k], snaps, ids, window, convert) && more[k].at in edges + [edge] {}
    }
  }

  method PortfolioEquityCurve(snaps: seq<Snap>, ids: seq<int>, bucketSeconds: int, freshSeconds: int, maxPoints: int,
                              convert: Convert)
    returns (points: seq<Point>, ghost edges: seq<int>)
    requires Chronological(snaps) && bucketSeconds > 0 && maxPoints > 0
    ensures forall k :: 0 <= k < |points| ==> GoodPoint(points[k], snaps, ids, freshSeconds * SECOND, convert)
    ensures |points| <= maxPoints + 1 && forall j, k :: 0 <= j < k < |points| ==> points[j].at < points[k].at
    ensures Drawn(points, edges, snaps, ids, freshSeconds * SECOND, convert)
    ensures |edges| <= maxPoints + 1
    ensures snaps != [] && ids != [] ==>
              |edges| > 0 && edges[0] == snaps[0].at && edges[|edges| - 1] == snaps[|snaps| - 1].at
  {
    points, edges := [], [];
    if ids == [] || snaps == [] {
      return;
    }
    var window := freshSeconds * SECOND;
    var marks := Edges(snaps[0].at, snaps[|snaps| - 1].at, bucketSeconds, maxPoints);
    edges := marks;
    var byAccount := BuildIndex(snaps);
    for i := 0 to |marks|
      invariant Drawn(points, marks[..i], snaps, ids, window, convert)
    {
      assert marks[..i + 1] == marks[..i] + [marks[i]];
      var total, present, stale := SumAt(snaps, byAccount, ids, marks[i], window, convert);
      var p := Point(marks[i], RoundTo(total, MONEY_DIGITS), stale == [], present, |ids|, stale);
      DrawnAppend(points, p, marks[..i], marks[i], snaps, ids, window, convert);
      if present == 0 {
        continue;
      }
      assert GoodPoint(p, snaps, ids, window, convert);
      points := points + [p];
    }
    assert marks[..|marks|] == marks;
  }

  // ---- One account's curve is thinned, never interpolated ---------------------------------------------------------

  function EveryNth(rows: seq<Snap>, step: int): seq<Snap>
    requires step > 0
    decreases |rows|
  {
    if rows == [] then [] else [rows[0]] + if step < |rows| then EveryNth(rows[step..], step) else []
  }

  function Thinned(rows: seq<Snap>, maxPoints: int): seq<Snap>
    requires maxPoints > 0
  {
    if |rows| <= maxPoints then rows
    else
      var kept := EveryNth(rows, (|rows| + maxPoints - 1) / maxPoints);
      if rows[|rows| - 1] in kept then kept else kept + [rows[|rows| - 1]]
  }

  lemma {:induction false} EveryNthIsSmall(rows: seq<Snap>, step: int, n: int)
    requires step > 0 && n >= 0 && |rows| <= Times(n, step)
    ensures |EveryNth(rows, step)| <= n
    decreases |rows|
  {
    if rows != [] {
      assert Times(0, step) == 0;
      assert Times(n - 1, step) == Times(n, step) - step;
      if step < |rows| { EveryNthIsSmall(rows[step..], step, n - 1); }
    }
  }

  ghost predicate InOrder(snaps: seq<Snap>) {
    forall i, j :: 0 <= i < j < |snaps| ==> snaps[i].at < snaps[j].at
  }

  lemma TailMembers(rows: seq<Snap>, step: nat, s: Snap)
    requires 0 < step < |rows| && InOrder(rows) && s in rows[step..]
    ensures s in rows && rows[0].at < s.at
  {
    var i :| 0 <= i < |rows| - step && rows[step..][i] == s;
    assert rows[step + i] == s;
  }

  lemma {:induction false} EveryNthFromRows(rows: seq<Snap>, step: int)
    requires step > 0
    ensures forall s :: s in EveryNth(rows, step) ==> s in rows
    decreases |rows|
  {
    if rows != [] && step < |rows| { EveryNthFromRows(rows[step..], step); }
  }

  lemma PrependKeepsOrder(first: Snap, rest: seq<Snap>)
    requires InOrder(rest) && forall s :: s in rest ==> first.at < s.at
    ensures InOrder([first] + rest)
  {
    assert forall i :: 0 <= i < |rest| ==> rest[i] in rest;
  }

  lemma {:induction false} EveryNthKeepsOrder(rows: seq<Snap>, step: int)
    requires step > 0 && InOrder(rows)
    ensures InOrder(EveryNth(rows, step))
    ensures rows != [] ==> EveryNth(rows, step) != [] && EveryNth(rows, step)[0] == rows[0]
    decreases |rows|
  {
    if rows != [] && step < |rows| {
      var rest := EveryNth(rows[step..], step);
      EveryNthKeepsOrder(rows[step..], step);
      EveryNthFromRows(rows[step..], step);
      forall s | s in rest ensures rows[0].at < s.at {
        TailMembers(rows, step, s);
      }
      PrependKeepsOrder(rows[0], rest);
    }
  }

  lemma StepCovers(n: nat, maxPoints: int)
    requires maxPoints > 0 && n > 0
    ensures (n + maxPoints - 1) / maxPoints > 0 && n <= Times(maxPoints, (n + maxPoints - 1) / maxPoints)
  {
    var m := n + maxPoints - 1;
    assert m == m / maxPoints * maxPoints + m % maxPoints;
  }

  lemma LastIsLatest(rows: seq<Snap>, s: Snap)
    requires InOrder(rows) && s in rows
    ensures s == rows[|rows| - 1] || s.at < rows[|rows| - 1].at
  {
    var i :| 0 <= i < |rows| && rows[i] == s;
  }

  /** Adding the last row, unless it was kept, keeps the order. */
  lemma LastAddedKeepsOrder(rows: seq<Snap>, kept: seq<Snap>)
    requires InOrder(rows) && rows != [] && InOrder(kept) && kept != [] && forall s :: s in kept ==> s in rows
    ensures var last := rows[|rows| - 1];
            if last in kept then kept[|kept| - 1] == last else InOrder(kept + [last])
  {
    var last := rows[|rows| - 1];
    forall i | 0 <= i < |kept| ensures kept[i] == last || kept[i].at < last.at {
      assert kept[i] in kept;
      LastIsLatest(rows, kept[i]);
    }
    if last in kept {
      var i :| 0 <= i < |kept| && kept[i] == last;
      assert i < |kept| - 1 ==> kept[i].at < kept[|kept| - 1].at;
    } else {
      assert forall i :: 0 <= i < |kept| ==> kept[i] in kept;
    }
  }

  lemma ThinnedIs(rows: seq<Snap>, maxPoints: int)
    requires 0 < maxPoints < |rows|
    ensures (|rows| + maxPoints - 1) / maxPoints > 0
    ensures var kept, last := EveryNth(rows, (|rows| + maxPoints - 1) / maxPoints), rows[|rows| - 1];
            Thinned(rows, maxPoints) == if last in kept then kept else kept + [last]
  {
    hide EveryNth;
    StepCovers(|rows|, maxPoints);
  }

  lemma ThinnedSize(rows: seq<Snap>, maxPoints: int)
    requires maxPoints > 0
    ensures |Thinned(rows, maxPoints)| <= maxPoints + 1
  {
    if |rows| > maxPoints {
      StepCovers(|rows|, maxPoints);
      EveryNthIsSmall(rows, (|rows| + maxPoints - 1) / maxPoints, maxPoints);
    }
  }

  ghost predicate KeepsEnds(rows: seq<Snap>, r: seq<Snap>) {
    && rows != [] && r != [] && r[0] == rows[0] && r[|r| - 1] == rows[|rows| - 1]
    && InOrder(r) && forall s :: s in r ==> s in rows
  }

  lemma LastAddedKeepsEnds(rows: seq<Snap>, kept: seq<Snap>)
    requires InOrder(rows) && rows != [] && InOrder(kept) && kept != [] && kept[0] == rows[0]
    requires forall s :: s in kept ==> s in rows
    ensures var last := rows[|rows| - 1]; KeepsEnds(rows, if last in kept then kept else kept + [last])
  {
    LastAddedKeepsOrder(rows, kept);
    assert rows[|rows| - 1] in rows;
  }

  /** At most one more than the limit, first and last observation kept, nothing invented, still in order. */
  lemma ThinnedKeepsEnds(rows: seq<Snap>, maxPoints: int)
    requires maxPoints > 0 && InOrder(rows) && rows != []
    ensures KeepsEnds(rows, Thinned(rows, maxPoints)) && |Thinned(rows, maxPoints)| <= maxPoints + 1
  {
    ThinnedSize(rows, maxPoints);
    if |rows| > maxPoints {
      var step := (|rows| + maxPoints - 1) / maxPoints;
      StepCovers(|rows|, maxPoints);
      EveryNthKeepsOrder(rows, step);
      EveryNthFromRows(rows, step);
      LastAddedKeepsEnds(rows, EveryNth(rows, step));
      ThinnedIs(rows, maxPoints);
    }
  }
}
