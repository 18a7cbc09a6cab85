/**
 `fetch_bars`: page backwards through a server's price history while new bars keep arriving. Positions are counted from
 the newest bar, so every arrival shifts the pages still to come.
 */
module FetchBars {
  import opened Common

  const BATCH: int := 1000

  datatype Quote = Quote(open: real, high: real, low: real, close: real, tickVolume: int)
  datatype Bar = Bar(time: int, quote: Quote)

  ghost predicate Increasing(s: seq<int>) {
    forall i, j :: 0 <= i < j < |s| ==> s[i] < s[j]
  }

  function Times(bars: seq<Bar>): (s: seq<int>)
    ensures |s| == |bars| && forall i :: 0 <= i < |s| ==> s[i] == bars[i].time
  {
    seq(|bars|, i requires 0 <= i < |bars| => bars[i].time)
  }

  function Clip(x: int): nat { if x < 0 then 0 else x }

  /** The page of `count` bars that ends `start` positions before the newest of `visible` bars. */
  function PageEnd(visible: nat, start: nat): nat { Clip(visible - start) }
  function PageBegin(visible: nat, start: nat, count: nat): nat { Clip(PageEnd(visible, start) - count) }

  /** The bridge's history: `timeline` is every bar there will ever be, of which the first `visible` exist so far. */
  class RateServer {
    const timeline: seq<int>
    const quotes: (nat, int) -> Quote
    var visible: nat
    var requests: nat
    var pending: nat

    ghost predicate Valid()
      reads this
    {
      Increasing(timeline) && visible + pending <= |timeline|
    }

    constructor (timeline: seq<int>, quotes: (nat, int) -> Quote, visible: nat, pending: nat)
      requires Increasing(timeline) && visible + pending <= |timeline|
      ensures Valid() && this.visible == visible && this.pending == pending && requests == 0
      ensures this.timeline == timeline && this.quotes == quotes
    {
      this.timeline, this.quotes := timeline, quotes;
      this.visible, this.pending, this.requests := visible, pending, 0;
    }

    /** Some of the pending bars arrive, then the page is served or the request fails; an empty page is a failure. */
    method Rates(start: nat, count: nat) returns (page: Option<seq<Bar>>)
      requires Valid()
      modifies this
      ensures Valid() && requests == old(requests) + 1
      ensures visible >= old(visible) && visible + pending == old(visible + pending)
      ensures page.Some? ==> page.value != [] && Times(page.value)
                               == timeline[PageBegin(visible, start, count)..PageEnd(visible, start)]
      ensures page.Some? ==> forall b :: b in page.value ==> b.quote == quotes(requests, b.time)
    {
      var arrived: nat :| arrived <= pending;
      visible, pending, requests := visible + arrived, pending - arrived, requests + 1;
      var fails: bool := *;
      var lo, hi := PageBegin(visible, start, count), PageEnd(visible, start);
      if fails || lo == hi { return None; }
      var n, ts, qs := requests, timeline, quotes;
      page := Some(seq(hi - lo, i requires 0 <= i < hi - lo && hi <= |ts| => Bar(ts[lo + i], qs(n, ts[lo + i]))));
    }
  }

  /** The bar carries the quote that one of the requests of numbers `after + 1` to `last` was answered with. */
  ghost predicate WasServed(bar: Bar, quotes: (nat, int) -> Quote, after: nat, last: nat) {
    exists n: nat :: after < n <= last && bar.quote == quotes(n, bar.time)
  }

  /** A run of the history, keyed by time. */
  ghost predicate Covers(bars: map<int, Bar>, timeline: seq<int>, lo: nat, hi: nat) {
    && lo <= hi <= |timeline|
    && (forall t :: t in bars <==> t in timeline[lo..hi])
    && (forall t :: t in bars ==> bars[t].time == t)
  }

  lemma SliceUnion(timeline: seq<int>, lo: nat, hi: nat, lo': nat, hi': nat)
    requires lo <= hi <= |timeline| && lo' <= hi' <= hi && lo <= hi'
    ensures var low := if lo' < lo then lo' else lo;
            forall t :: t in timeline[low..hi] <==> t in timeline[lo..hi] || t in timeline[lo'..hi']
  {
    var low := if lo' < lo then lo' else lo;
    forall t | t in timeline[low..hi] ensures t in timeline[lo..hi] || t in timeline[lo'..hi'] {
      var i :| low <= i < hi && timeline[i] == t;
      if i >= lo { assert timeline[lo..hi][i - lo] == t; } else { assert timeline[lo'..hi'][i - lo'] == t; }
    }
    forall t | t in timeline[lo..hi] ensures t in timeline[low..hi] {
      var i :| lo <= i < hi && timeline[i] == t;
      assert timeline[low..hi][i - low] == t;
    }
    forall t | t in timeline[lo'..hi'] ensures t in timeline[low..hi] {
      var i :| lo' <= i < hi' && timeline[i] == t;
      assert timeline[low..hi][i - low] == t;
    }
  }

  /** Keeps the first bar seen for a time. */
  method Merge(bars: map<int, Bar>, page: seq<Bar>) returns (merged: map<int, Bar>)
    ensures forall t :: t in merged <==> t in bars || t in Times(page)
    ensures forall t :: t in merged ==> if t in bars then merged[t] == bars[t] else merged[t] in page
    ensures (forall t :: t in bars ==> bars[t].time == t) ==> forall t :: t in merged ==> merged[t].time == t
  {
    merged := bars;
    for i := 0 to |page|
      invariant forall t :: t in merged <==> t in bars || t in Times(page[..i])
      invariant forall t :: t in merged ==> if t in bars then merged[t] == bars[t] else merged[t] in page
      invariant (forall t :: t in bars ==> bars[t].time == t) ==> forall t :: t in merged ==> merged[t].time == t
    {
      assert Times(page[..i + 1]) == Times(page[..i]) + [page[i].time];
      if page[i].time !in merged { merged := merged[page[i].time := page[i]]; }
    }
    assert page[..|page|] == page;
  }

  lemma SmallestExists(keys: set<int>) returns (m: int)
    requires keys != {}
    ensures m in keys && forall k :: k in keys ==> m <= k
    decreases keys
  {
    assert (forall k :: k !in keys) ==> keys == {};
    m :| m in keys;
    var others := keys - {m};
    if others != {} {
      var rest := SmallestExists(others);
      assert keys == others + {m};
      m := if rest < m then rest else m;
    } else {
      assert keys == {m};
    }
  }

  method SortedByTime(bars: map<int, Bar>) returns (r: seq<Bar>)
    requires forall t :: t in bars ==> bars[t].time == t
    ensures Increasing(Times(r))
    ensures forall t :: t in Times(r) <==> t in bars
    ensures forall i :: 0 <= i < |r| ==> r[i].time in bars && bars[r[i].time] == r[i]
  {
    r := [];
    var left := bars.Keys;
    while left != {}
      invariant left <= bars.Keys
      invariant Increasing(Times(r))
      invariant forall t :: t in Times(r) <==> t in bars.Keys - left
      invariant forall i, t :: 0 <= i < |r| && t in left ==> r[i].time < t
      invariant forall i :: 0 <= i < |r| ==> r[i].time in bars && bars[r[i].time] == r[i]
      decreases left
    {
      ghost var smallest := SmallestExists(left);
      var t :| t in left && forall u :: u in left ==> t <= u;
      assert Times(r + [bars[t]]) == Times(r) + [t];
      r, left := r + [bars[t]], left - {t};
    }
  }

  lemma {:induction false} IncreasingUnique(s: seq<int>, t: seq<int>)
    requires Increasing(s) && Increasing(t) && forall x :: x in s <==> x in t
    ensures s == t
  {
    assert s != [] ==> s[0] in s;
    assert t != [] ==> t[0] in t;
    if s != [] {
      var m, n := |s| - 1, |t| - 1;
      assert s[m] in t && t[n] in s;
      assert s[m] == t[n];
      forall x ensures x in s[..m] <==> x in t[..n] {
        if x in s[..m] { assert x in s && x < s[m] && x in t; }
        if x in t[..n] { assert x in t && x < t[n] && x in s; }
      }
      IncreasingUnique(s[..m], t[..n]);
    }
  }

  /** Consecutive bars of the history, oldest first, the last of them at index `end - 1`. */
  ghost predicate IsRunEndingAt(bars: seq<Bar>, timeline: seq<int>, end: nat) {
    |bars| <= end <= |timeline| && Times(bars) == timeline[end - |bars|..end]
  }

  method SortedRun(all: map<int, Bar>, ghost timeline: seq<int>, ghost lo: nat, ghost end: nat)
    returns (sorted: seq<Bar>)
    requires Covers(all, timeline, lo, end) && Increasing(timeline)
    ensures |sorted| == end - lo && IsRunEndingAt(sorted, timeline, end)
    ensures forall b :: b in sorted ==> b.time in all && all[b.time] == b
  {
    sorted := SortedByTime(all);
    IncreasingUnique(Times(sorted), timeline[lo..end]);
  }

  /** Requests that `count` bars take at most: ceil(count / 1000). */
  function MaxRequests(count: int): nat {
    if count <= 0 then 0 else (count + BATCH - 1) / BATCH
  }

  lemma OneMorePage(count: int, pages: nat)
    requires count > pages * BATCH
    ensures pages + 1 <= MaxRequests(count)
  {
  }

  /** The page at `start` overlaps or adjoins the run collected so far, so the run only grows downwards. */
  lemma PageExtendsRun(all: map<int, Bar>, merged: map<int, Bar>, timeline: seq<int>, lo: nat, end: nat,
                       before: nat, visible: nat, start: nat, batch: nat)
    requires Covers(all, timeline, lo, end)
    requires before <= visible <= |timeline| && lo <= Clip(before - start)
    requires PageEnd(visible, start) <= end
    requires forall t :: t in merged <==> t in all || t in timeline[PageBegin(visible, start, batch)..PageEnd(visible,
        start)]
    requires forall t :: t in merged ==> merged[t].time == t
    ensures var lo' := PageBegin(visible, start, batch);
            Covers(merged, timeline, if lo' < lo then lo' else lo, end)
  {
    SliceUnion(timeline, lo, end, PageBegin(visible, start, batch), PageEnd(visible, start));
  }

  /** The first page is a run by itself. */
  lemma PageIsRun(merged: map<int, Bar>, timeline: seq<int>, visible: nat, batch: nat)
    requires visible <= |timeline| && forall t :: t in merged ==> merged[t].time == t
    requires forall t :: t in merged <==> t in timeline[PageBegin(visible, 0, batch)..PageEnd(visible, 0)]
    ensures Covers(merged, timeline, PageBegin(visible, 0, batch), visible)
  {
  }

  lemma TimesMatch(bars: map<int, Bar>, timeline: seq<int>, lo: nat, hi: nat)
    requires Covers(bars, timeline, lo, hi)
    ensures lo <= hi <= |timeline| && forall t :: t in bars ==> bars[t].time == t
  {
  }

  /** One request merged into the run; `served` is the page's length, or `None` if the request failed. */
  method FetchPage(server: RateServer, all: map<int, Bar>, start: nat, batch: nat, ghost lo: nat, ghost end: nat)
    returns (served: Option<nat>, merged: map<int, Bar>, ghost lo': nat, ghost end': nat)
    requires server.Valid() && Covers(all, server.timeline, lo, end)
    requires start == 0 ==> all == map[]
    requires start > 0 ==> lo <= Clip(server.visible - start) && server.visible + server.pending - start <= end
    modifies server
    ensures server.Valid() && server.requests == old(server.requests) + 1
    ensures server.visible >= old(server.visible)
    ensures server.visible + server.pending == old(server.visible + server.pending)
    ensures Covers(merged, server.timeline, lo', end')
    ensures served.None? ==> merged == all && lo' == lo && end' == end
    ensures forall t :: t in merged ==>
              if t in all then merged[t] == all[t] else merged[t].quote == server.quotes(server.requests, t)
    ensures served.Some? ==> && lo' <= Clip(server.visible - (start + batch)) && (served.value < batch ==> lo' == 0)
                             && end' == (if start == 0 then server.visible else end)
                             && (lo' >= server.visible - (start + batch) || (start > 0 && lo' == lo))
  {
    hide Covers, Increasing;
    ghost var before := server.visible;
    TimesMatch(all, server.timeline, lo, end);
    var page := server.Rates(start, batch);
    if page.None? { return None, all, lo, end; }
    merged := Merge(all, page.value);
    served := Some(|page.value|);
    lo', end' := PageBegin(server.visible, start, batch), end;
    if start == 0 {
      end' := server.visible;
      PageIsRun(merged, server.timeline, server.visible, batch);
    } else {
      PageExtendsRun(all, merged, server.timeline, lo, end, before, server.visible, start, batch);
      lo' := if lo' < lo then lo' else lo;
    }
  }

  lemma StillServed(all: map<int, Bar>, merged: map<int, Bar>, quotes: (nat, int) -> Quote, after: nat, last: nat)
    requires last > after && forall t :: t in merged ==> merged[t].time == t
    requires forall t :: t in all ==> WasServed(all[t], quotes, after, last - 1)
    requires forall t :: t in merged ==> if t in all then merged[t] == all[t] else merged[t].quote == quotes(last, t)
    ensures forall t :: t in merged ==> WasServed(merged[t], quotes, after, last)
  {
    forall t | t in merged ensures WasServed(merged[t], quotes, after, last) {
      if t in all {
        var n: nat :| after < n <= last - 1 && all[t].quote == quotes(n, all[t].time);
        assert merged[t].quote == quotes(n, merged[t].time);
      } else {
        assert merged[t].quote == quotes(last, merged[t].time);
      }
    }
  }

  /**
   While at most one page of bars arrives in all, the result is a gap-free, strictly ordered run of the history that
   ends where the history ended at the first request, and every bar carries a quote that was served for its time. `None`
   is the error of a failed first request. `complete` says
   that no later request failed.
   */
  method FetchBars(server: RateServer, count: int)
    returns (bars: Option<seq<Bar>>, ghost end: nat, ghost complete: bool)
    requires server.Valid() && server.pending <= BATCH
    modifies server
    ensures server.Valid() && server.requests <= old(server.requests) + MaxRequests(count)
    ensures count <= 0 ==> bars == Some([])
    ensures bars.Some? && count > 0 ==> |bars.value| <= count
    ensures bars.Some? ==> IsRunEndingAt(bars.value, server.timeline, end)
    ensures bars.Some? ==>
              forall b :: b in bars.value ==> WasServed(b, server.quotes, old(server.requests), server.requests)
    ensures bars.Some? && count > 0 ==> old(server.visible) <= end <= server.visible
    ensures bars.Some? && complete ==> |bars.value| >= count - (server.visible - end) || |bars.value| == end
  {
    var all: map<int, Bar> := map[];
    var remaining, start := count, 0;
    ghost var lo: nat, pages: nat := 0, 0;
    ghost var final := server.visible + server.pending;
    end, complete := 0, false;
    while remaining > 0
      invariant server.Valid() && server.visible + server.pending == final && server.visible >= old(server.visible)
      invariant 0 <= start && remaining == count - start
      invariant remaining > 0 ==> start == pages * BATCH
      invariant server.requests == old(server.requests) + pages && pages <= MaxRequests(count)
      invariant start == 0 ==> all == map[] && lo == end == 0 && pages == 0
      invariant start > 0 ==>
                count > 0 && remaining >= 0 && old(server.visible) <= end <= server.visible
                && final <= end + BATCH
      invariant Covers(all, server.timeline, lo, end)
      invariant forall t :: t in all ==> WasServed(all[t], server.quotes, old(server.requests), server.requests)
      invariant start > 0 ==> end - start <= lo <= Clip(server.visible - start)
      decreases remaining
    {
      var batch := if remaining < BATCH then remaining else BATCH;
      OneMorePage(count, pages);
      pages := pages + 1;
      var served;
      ghost var before := all;
      served, all, lo, end := FetchPage(server, all, start, batch, lo, end);
      StillServed(before, all, server.quotes, old(server.requests), server.requests);
      if served.None? {
        if all != map[] { break; }
        return None, 0, false;
      }
      remaining, start := remaining - batch, start + batch;
      if served.value < batch {
        complete := true;
        break;
      }
    }
    var sorted := SortedRun(all, server.timeline, lo, end);
    bars := Some(sorted);
    complete := complete || remaining <= 0;
  }
}
