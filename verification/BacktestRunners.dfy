/** Exponential moving average of closing prices. */
module Ema {
  import opened Common
  import opened Rounding
  import opened CurveStats

  /** Undefined before the period is filled, then the mean of the first period, then the smoothed value. */
  function EmaAt(closes: seq<real>, period: nat, i: nat): (r: Option<real>)
    requires period > 0 && i < |closes|
    ensures r.Some? <==> i >= period - 1
  {
    if i < period - 1 then None
    else if i == period - 1 then Some(Sum(closes[..period]) / period as real)
    else
      var prev := EmaAt(closes, period, i - 1).value;
      Some(Smoothed(closes[i], prev, period))
  }

  function Smoothed(price: real, prev: real, period: nat): real {
    (price - prev) * (2.0 / (period + 1) as real) + prev
  }

  method ComputeEma(closes: seq<real>, period: nat) returns (result: seq<Option<real>>)
    requires period > 0
    ensures |result| == |closes| && forall i :: 0 <= i < |closes| ==> result[i] == EmaAt(closes, period, i)
  {
    result := [];
    for i := 0 to |closes|
      invariant |result| == i && forall j :: 0 <= j < i ==> result[j] == EmaAt(closes, period, j)
    {
      if i < period - 1 {
        result := result + [None];
      } else if i == period - 1 {
        var total := Total(closes[..period]);
        result := result + [Some(total / period as real)];
      } else {
        var prev := result[i - 1].value;
        result := result + [Some(Smoothed(closes[i], prev, period))];
      }
    }
  }

  method Total(xs: seq<real>) returns (total: real)
    ensures total == Sum(xs)
  {
    total := 0.0;
    for i := 0 to |xs|
      invariant total == Sum(xs[..i])
    {
      assert xs[..i + 1][..i] == xs[..i];
      total := total + xs[i];
    }
    assert xs[..|xs|] == xs;
  }

  lemma {:induction false} SumBetween(xs: seq<real>, lo: real, hi: real)
    requires forall i :: 0 <= i < |xs| ==> lo <= xs[i] <= hi
    ensures lo * |xs| as real <= Sum(xs) <= hi * |xs| as real
  {
    if xs != [] {
      var n := |xs| - 1;
      SumBetween(xs[..n], lo, hi);
      assert lo * |xs| as real == lo * n as real + lo && hi * |xs| as real == hi * n as real + hi;
    }
  }

  /** The average never leaves the range of the prices it is made of. */
  lemma {:induction false} EmaBetweenPrices(closes: seq<real>, period: nat, i: nat, lo: real, hi: real)
    requires period > 0 && period - 1 <= i < |closes|
    requires forall j :: 0 <= j <= i ==> lo <= closes[j] <= hi
    ensures lo <= EmaAt(closes, period, i).value <= hi
  {
    if i == period - 1 {
      SumBetween(closes[..period], lo, hi);
      QuotientBetween(Sum(closes[..period]), period as real, lo, hi);
    } else {
      EmaBetweenPrices(closes, period, i - 1, lo, hi);
      MixBetween(closes[i], EmaAt(closes, period, i - 1).value, period, lo, hi);
    }
  }

  lemma ProductNonNegative(x: real, y: real)
    requires x >= 0.0 && y >= 0.0
    ensures x * y >= 0.0
  {
  }

  lemma MixBetween(x: real, prev: real, period: nat, lo: real, hi: real)
    requires period > 0 && lo <= x <= hi && lo <= prev <= hi
    ensures lo <= Smoothed(x, prev, period) <= hi
  {
    var n := (period + 1) as real;
    var w := 2.0 / n;
    DivideMonotone(2.0, n, n);
    assert n / n == 1.0 && 0.0 < w <= 1.0;
    ProductNonNegative(x - lo, w);
    ProductNonNegative(prev - lo, 1.0 - w);
    ProductNonNegative(hi - x, w);
    ProductNonNegative(hi - prev, 1.0 - w);
    var mixed := Smoothed(x, prev, period);
    assert mixed == (x - prev) * w + prev;
    assert mixed - lo == (x - lo) * w + (prev - lo) * (1.0 - w);
    assert hi - mixed == (hi - x) * w + (hi - prev) * (1.0 - w);
  }
}

/** The two runners on top of the shared loop. */
module BacktestRunners {
  import opened Common
  import opened Rounding
  import opened CurveStats
  import opened Backtest
  import opened Ema

  datatype Params = Params(fast: nat, slow: nat, slPips: real, tpPips: real, spreadPips: real)

  /** The strategy's distances as prices: so many pips of a given size. */
  datatype Distances = Distances(sl: real, tp: real, spread: real)

  function ToPrices(params: Params, pip: real): Distances {
    Distances(params.slPips * pip, params.tpPips * pip, params.spreadPips * pip)
  }

  function Slower(params: Params): nat {
    if params.fast < params.slow then params.slow else params.fast
  }

  function Closes(bars: seq<Bar>): (xs: seq<real>)
    ensures |xs| == |bars| && forall i :: 0 <= i < |xs| ==> xs[i] == bars[i].close
  {
    seq(|bars|, i requires 0 <= i < |bars| => bars[i].close)
  }

  predicate Defined(fast: seq<Option<real>>, slow: seq<Option<real>>, i: nat) {
    0 < i < |fast| && i < |slow| && fast[i - 1].Some? && slow[i - 1].Some? && fast[i].Some? && slow[i].Some?
  }

  /** The fast average crosses the slow one on bar `i`. */
  predicate CrossesUp(fast: seq<Option<real>>, slow: seq<Option<real>>, i: nat) {
    Defined(fast, slow, i) && fast[i].value > slow[i].value && fast[i - 1].value <= slow[i - 1].value
  }

  predicate CrossesDown(fast: seq<Option<real>>, slow: seq<Option<real>>, i: nat) {
    Defined(fast, slow, i) && fast[i].value < slow[i].value && fast[i - 1].value >= slow[i - 1].value
  }

  /** The level exits of a bar: the stop is looked at before the target. */
  function LevelExit(entry: Entry, bar: Bar): (r: Option<Exit>)
    ensures r.Some? ==> r.value.reason != EndOfData
  {
    if entry.side == Buy then
      if bar.low <= entry.sl then Some(Exit(entry.sl, StopLoss))
      else if bar.high >= entry.tp then Some(Exit(entry.tp, TakeProfit)) else None
    else
      if bar.high >= entry.sl then Some(Exit(entry.sl, StopLoss))
      else if bar.low <= entry.tp then Some(Exit(entry.tp, TakeProfit)) else None
  }

  /** Leaving at the close costs the spread once more. */
  function MarketExit(side: Side, bar: Bar, spread: real): real {
    if side == Buy then bar.close - spread else bar.close + spread
  }

  function EmaExit(bars: seq<Bar>, fast: seq<Option<real>>, slow: seq<Option<real>>, spread: real, p: Position, i: nat)
    : (r: Option<Exit>)
    ensures r.Some? ==> r.value.reason != EndOfData
  {
    if i >= |bars| || !Defined(fast, slow, i) then None
    else if LevelExit(p.entry, bars[i]).Some? then LevelExit(p.entry, bars[i])
    else if (if p.entry.side == Buy then CrossesDown(fast, slow, i) else CrossesUp(fast, slow, i)) then
      Some(Exit(MarketExit(p.entry.side, bars[i], spread), SignalExit))
    else None
  }

  function EmaEntry(bars: seq<Bar>, fast: seq<Option<real>>, slow: seq<Option<real>>, d: Distances,
                    i: nat): Option<Entry> {
    if i >= |bars| then None
    else if CrossesUp(fast, slow, i) then
      var price := bars[i].close + d.spread;
      Some(Entry(Buy, price, price - d.sl, price + d.tp))
    else if CrossesDown(fast, slow, i) then
      var price := bars[i].close - d.spread;
      Some(Entry(Sell, price, price + d.sl, price - d.tp))
    else None
  }

  function EmaRules(bars: seq<Bar>, fast: seq<Option<real>>, slow: seq<Option<real>>, d: Distances): Rules
    requires bars != []
  {
    Rules((p: Position, i: nat) => EmaExit(bars, fast, slow, d.spread, p, i),
          (i: nat) => EmaEntry(bars, fast, slow, d, i),
          (p: Position) => MarketExit(p.entry.side, bars[|bars| - 1], d.spread))
  }

  datatype Outcome = NotEnoughBars(balance: real) | Finished(trades: seq<Trade>, balance: real)

  /** Everything a finished run promises about its trades and its balance. */
  ghost predicate Sound(rules: Rules, o: Outcome, first: nat, n: nat, money: Money, initial: real)
    requires money.pipSize != 0.0 && o.Finished?
  {
    && (forall k :: 0 <= k < |o.trades| ==> GoodTrade(rules, o.trades[k], first, n, money))
    && InSequence(o.trades) && NoSignalMissed(rules, o.trades, first, n)
    && o.balance == RoundTo(initial + Sum(PnLs(o.trades)), MONEY_DIGITS)
  }

  method RunRules(rules: Rules, first: nat, n: nat, money: Money, initial: real) returns (o: Outcome)
    requires first < n && money.Valid()
    requires forall p, j :: rules.exits(p, j).Some? ==> rules.exits(p, j).value.reason != EndOfData
    ensures o.Finished? && Sound(rules, o, first, n, money, initial)
  {
    var trades, balance := Simulate(rules, first, n, money, initial);
    o := Finished(trades, RoundTo(balance, MONEY_DIGITS));
  }

  lemma EmaRulesNeverForceOut(bars: seq<Bar>, fast: seq<Option<real>>, slow: seq<Option<real>>, d: Distances,
                              p: Position, j: nat)
    requires bars != []
    ensures var rules := EmaRules(bars, fast, slow, d);
            rules.exits(p, j).Some? ==> rules.exits(p, j).value.reason != EndOfData
  {
  }

  method RunBacktest(bars: seq<Bar>, params: Params, money: Money, initial: real)
    returns (o: Outcome, ghost fast: seq<Option<real>>, ghost slow: seq<Option<real>>)
    requires params.fast > 0 && params.slow > 0 && money.Valid()
    ensures o == NotEnoughBars(initial) || o.Finished?
    ensures o.NotEnoughBars? <==> |bars| < Slower(params) + 5
    ensures |fast| == |slow| == |bars|
    ensures forall i :: 0 <= i < |bars| ==> fast[i] == EmaAt(Closes(bars), params.fast, i)
                                            && slow[i] == EmaAt(Closes(bars), params.slow, i)
    ensures o.Finished? ==>
              Sound(EmaRules(bars, fast, slow, ToPrices(params, money.pipSize)), o, Slower(params) + 1, |bars|, money,
                  initial)
  {
    var closes := Closes(bars);
    var quick := ComputeEma(closes, params.fast);
    var steady := ComputeEma(closes, params.slow);
    fast, slow := quick, steady;
    if |bars| < Slower(params) + 5 { return NotEnoughBars(initial), fast, slow; }
    var d := ToPrices(params, money.pipSize);
    var rules := EmaRules(bars, quick, steady, d);
    forall p, j: nat ensures rules.exits(p, j).Some? ==> rules.exits(p, j).value.reason != EndOfData {
      EmaRulesNeverForceOut(bars, quick, steady, d, p, j);
    }
    o := RunRules(rules, Slower(params) + 1, |bars|, money, initial);
  }

  // ---- A template's rules come from its signals -------------------------------------------------------------------

  datatype Signal = Hold | Enter(side: Side, sl: real, tp: real) | Close

  function TemplateExit(bars: seq<Bar>, signal: (nat, Option<Position>) -> Signal, spread: real, p: Position, i: nat)
    : (r: Option<Exit>)
    ensures r.Some? ==> r.value.reason != EndOfData
  {
    if i >= |bars| then None
    else if LevelExit(p.entry, bars[i]).Some? then LevelExit(p.entry, bars[i])
    else if signal(i, Some(p)).Close? then Some(Exit(MarketExit(p.entry.side, bars[i], spread), SignalExit))
    else None
  }

  function TemplateEntry(bars: seq<Bar>, signal: (nat, Option<Position>) -> Signal, spread: real,
                         i: nat): Option<Entry> {
    var s := signal(i, None);
    if i >= |bars| || !s.Enter? then None
    else Some(Entry(s.side, if s.side == Buy then bars[i].close + spread else bars[i].close - spread, s.sl, s.tp))
  }

  function TemplateRules(bars: seq<Bar>, signal: (nat, Option<Position>) -> Signal, spread: real): Rules
    requires bars != []
  {
    Rules((p: Position, i: nat) => TemplateExit(bars, signal, spread, p, i),
          (i: nat) => TemplateEntry(bars, signal, spread, i),
          (p: Position) => MarketExit(p.entry.side, bars[|bars| - 1], spread))
  }

  lemma TemplateNeverForcesOut(bars: seq<Bar>, signal: (nat, Option<Position>) -> Signal, spread: real, p: Position,
                               j: nat)
    requires bars != []
    ensures var rules := TemplateRules(bars, signal, spread);
            rules.exits(p, j).Some? ==> rules.exits(p, j).value.reason != EndOfData
  {
  }

  method RunTemplateBacktest(bars: seq<Bar>, signal: (nat, Option<Position>) -> Signal, minBars: nat, spreadPips: real,
                             money: Money, initial: real)
    returns (o: Outcome)
    requires money.Valid()
    ensures o == NotEnoughBars(initial) || o.Finished?
    ensures o.NotEnoughBars? <==> |bars| < minBars + 5
    ensures o.Finished? ==>
              Sound(TemplateRules(bars, signal, spreadPips * money.pipSize), o, minBars, |bars|, money, initial)
  {
    if |bars| < minBars + 5 { return NotEnoughBars(initial); }
    var spread := spreadPips * money.pipSize;
    var rules := TemplateRules(bars, signal, spread);
    forall p, j: nat ensures rules.exits(p, j).Some? ==> rules.exits(p, j).value.reason != EndOfData {
      TemplateNeverForcesOut(bars, signal, spread, p, j);
    }
    o := RunRules(rules, minBars, |bars|, money, initial);
  }

  // ---- What one trade can cost or bring ---------------------------------------------------------------------------

  ghost predicate WellFormed(bars: seq<Bar>) {
    forall i :: 0 <= i < |bars| ==> bars[i].low <= bars[i].close <= bars[i].high
  }

  /** How far the exit is from the entry, in the trade's favour. */
  function Gain(t: Trade): real {
    if t.entry.side == Buy then t.exit.price - t.entry.price else t.entry.price - t.exit.price
  }

  /** In price terms: at most the target won, at most the spread plus the larger of stop and spread lost. */
  lemma TradeStaysInRange(bars: seq<Bar>, fast: seq<Option<real>>, slow: seq<Option<real>>, d: Distances, money: Money,
                          t: Trade, first: nat)
    requires bars != [] && money.Valid() && WellFormed(bars) && |fast| == |slow| == |bars|
    requires d.spread >= 0.0 && d.sl >= 0.0 && d.tp >= 0.0
    requires 0 < first && forall i :: first <= i < |bars| ==> Defined(fast, slow, i)
    requires GoodTrade(EmaRules(bars, fast, slow, d), t, first, |bars|, money)
    ensures -(d.spread + Max(d.sl, d.spread)) <= Gain(t) <= d.tp
  {
    var rules := EmaRules(bars, fast, slow, d);
    var p, n := Position(t.entry, t.entryBar), |bars|;
    assert EmaEntry(bars, fast, slow, d, t.entryBar) == Some(t.entry);
    if t.exit.reason == EndOfData {
      if t.entryBar < n - 1 {
        assert rules.exits(p, n - 1).None?;
        assert LevelExit(t.entry, bars[n - 1]).None?;
      }
    } else {
      assert EmaExit(bars, fast, slow, d.spread, p, t.exitBar) == Some(t.exit);
    }
  }

  lemma WorthMonotone(money: Money, x: real, y: real)
    requires money.Valid() && x <= y
    ensures money.Worth(x) <= money.Worth(y)
  {
    assert (y - x) * money.pipValue >= 0.0;
    assert (y - x) * money.pipValue * money.lots >= 0.0;
    assert (y - x) * money.pipValue * money.lots == money.Worth(y) - money.Worth(x);
  }

  lemma GainInPips(x: real, y: real, pip: real)
    requires pip > 0.0
    ensures x * pip <= y ==> x <= y / pip
    ensures y <= x * pip ==> y / pip <= x
  {
    DivideMonotone(x * pip, y, pip);
    DivideMonotone(y, x * pip, pip);
    assert x * pip / pip == x;
  }

  /** No distance is negative. */
  ghost predicate Sensible(params: Params) {
    params.slPips >= 0.0 && params.tpPips >= 0.0 && params.spreadPips >= 0.0
  }

  /** The most a trade can lose, in pips. */
  function WorstPips(params: Params): real {
    params.spreadPips + Max(params.slPips, params.spreadPips)
  }

  lemma DistancesInPips(params: Params, pip: real)
    requires pip > 0.0 && Sensible(params)
    ensures var d := ToPrices(params, pip);
            d.spread >= 0.0 && d.sl >= 0.0 && d.tp >= 0.0 && d.spread + Max(d.sl, d.spread) == WorstPips(params) * pip
  {
    ProductNonNegative(params.spreadPips, pip);
    ProductNonNegative(params.tpPips, pip);
    ProductNonNegative(params.slPips, pip);
    if params.slPips <= params.spreadPips {
      ProductNonNegative(params.spreadPips - params.slPips, pip);
    } else {
      ProductNonNegative(params.slPips - params.spreadPips, pip);
    }
  }

  ghost predicate MoneyBounded(pnl: real, params: Params, money: Money) {
    && pnl >= money.Worth(-WorstPips(params)) - HalfUnit(MONEY_DIGITS)
    && pnl <= money.Worth(params.tpPips) + HalfUnit(MONEY_DIGITS)
  }

  /** From a gain in price to the booked result: in pips, then in money, then rounded. */
  lemma GainInMoney(params: Params, money: Money, gain: real, pnl: real)
    requires money.Valid() && Sensible(params)
    requires var d := ToPrices(params, money.pipSize); -(d.spread + Max(d.sl, d.spread)) <= gain <= d.tp
    requires pnl == RoundTo(money.Worth(gain / money.pipSize), MONEY_DIGITS)
    ensures MoneyBounded(pnl, params, money)
  {
    var pip, worst := money.pipSize, WorstPips(params);
    DistancesInPips(params, pip);
    assert (-worst) * pip == -(worst * pip);
    GainInPips(-worst, gain, pip);
    GainInPips(params.tpPips, gain, pip);
    var pips := gain / pip;
    WorthMonotone(money, -worst, pips);
    WorthMonotone(money, pips, params.tpPips);
    RoundToWithin(money.Worth(pips), MONEY_DIGITS);
  }

  lemma BookedGain(t: Trade, money: Money)
    requires money.Valid() && t == Closed(t.number, Position(t.entry, t.entryBar), t.exitBar, t.exit, money)
    ensures t.pnl == RoundTo(money.Worth(Gain(t) / money.pipSize), MONEY_DIGITS)
  {
  }

  /** In money: the same bounds, up to the half cent of rounding the result. */
  lemma TradeMoneyBounds(bars: seq<Bar>, fast: seq<Option<real>>, slow: seq<Option<real>>, params: Params, money: Money,
                         t: Trade, first: nat)
    requires bars != [] && money.Valid() && WellFormed(bars) && |fast| == |slow| == |bars|
    requires Sensible(params)
    requires 0 < first && forall i :: first <= i < |bars| ==> Defined(fast, slow, i)
    requires GoodTrade(EmaRules(bars, fast, slow, ToPrices(params, money.pipSize)), t, first, |bars|, money)
    ensures MoneyBounded(t.pnl, params, money)
  {
    var d := ToPrices(params, money.pipSize);
    DistancesInPips(params, money.pipSize);
    TradeStaysInRange(bars, fast, slow, d, money, t, first);
    BookedGain(t, money);
    GainInMoney(params, money, Gain(t), t.pnl);
  }

  /** Every trade of every finished run is within the bounds. */
  method RunWithBoundedTrades(bars: seq<Bar>, params: Params, money: Money, initial: real) returns (o: Outcome)
    requires params.fast > 0 && params.slow > 0 && money.Valid() && WellFormed(bars)
    requires Sensible(params)
    ensures o.Finished? ==> forall k :: 0 <= k < |o.trades| ==> MoneyBounded(o.trades[k].pnl, params, money)
  {
    ghost var fast, slow;
    o, fast, slow := RunBacktest(bars, params, money, initial);
    if o.Finished? {
      forall k | 0 <= k < |o.trades| ensures MoneyBounded(o.trades[k].pnl, params, money) {
        TradeMoneyBounds(bars, fast, slow, params, money, o.trades[k], Slower(params) + 1);
      }
    }
  }

  // ---- Metrics ----------------------------------------------------------------------------------------------------

  datatype Metrics = Metrics(wins: nat, losses: nat, grossProfit: real, grossLoss: real, net: real,
                             maxDrawdownPct: real, maxLosingStreak: nat)

  function Losing(x: real): bool { x <= 0.0 }

  ghost predicate CountsAndSums(pnls: seq<real>, m: Metrics) {
    && m.wins + m.losses == |pnls|
    && m.net == Sum(pnls) == m.grossProfit - m.grossLoss && m.grossProfit >= 0.0 && m.grossLoss >= 0.0
    && (m.wins == 0 <==> forall i :: 0 <= i < |pnls| ==> Losing(pnls[i])) && (m.wins == 0 <==> m.grossProfit == 0.0)
  }

  lemma CountsAndSumsAppend(pnls: seq<real>, p: real, m: Metrics, m': Metrics)
    requires CountsAndSums(pnls, m) && m'.net == m.net + p
    requires if p > 0.0 then m'.wins == m.wins + 1 && m'.grossProfit == m.grossProfit + p
                             && m'.losses == m.losses && m'.grossLoss == m.grossLoss
             else m'.losses == m.losses + 1 && m'.grossLoss == m.grossLoss - p
                  && m'.wins == m.wins && m'.grossProfit == m.grossProfit
    ensures CountsAndSums(pnls + [p], m')
  {
    SumAppend(pnls, p);
    assert (pnls + [p])[|pnls|] == p;
    assert forall i :: 0 <= i < |pnls| ==> (pnls + [p])[i] == pnls[i];
  }

  /** One pass over the results; a result of exactly 0 counts as a loss here. */
  method ComputeMetrics(pnls: seq<real>, initial: real) returns (m: Metrics)
    ensures CountsAndSums(pnls, m)
    ensures IsMaxDrawdownPct(initial, pnls, m.maxDrawdownPct)
    ensures IsLongestRun(pnls, Losing, m.maxLosingStreak)
  {
    m := Metrics(0, 0, 0.0, 0.0, 0.0, 0.0, 0);
    for i := 0 to |pnls|
      invariant CountsAndSums(pnls[..i], m)
    {
      var p := pnls[i];
      assert pnls[..i + 1] == pnls[..i] + [p];
      ghost var before := m;
      m := m.(net := m.net + p);
      m := if p > 0.0 then m.(wins := m.wins + 1, grossProfit := m.grossProfit + p)
           else m.(losses := m.losses + 1, grossLoss := m.grossLoss - p);
      CountsAndSumsAppend(pnls[..i], p, before, m);
    }
    assert pnls[..|pnls|] == pnls;
    var drawdown := MaxDrawdownPct(pnls, initial);
    var streak := MaxLosingStreak(pnls);
    m := m.(maxDrawdownPct := drawdown, maxLosingStreak := streak);
  }

  method MaxDrawdownPct(pnls: seq<real>, initial: real) returns (drawdown: real)
    ensures IsMaxDrawdownPct(initial, pnls, drawdown)
  {
    var peak, equity := initial, initial;
    drawdown := 0.0;
    TrackedStart(initial);
    for i := 0 to |pnls|
      invariant Tracked(initial, pnls[..i], equity, peak, drawdown)
    {
      assert pnls[..i + 1] == pnls[..i] + [pnls[i]];
      ghost var equity', peak' := equity, peak;
      equity := equity + pnls[i];
      peak := if equity > peak then equity else peak;
      var fall := FallPct(peak, equity);
      TrackedAppend(initial, pnls[..i], pnls[i], equity', peak', drawdown, peak, fall);
      drawdown := if fall > drawdown then fall else drawdown;
    }
    assert pnls[..|pnls|] == pnls;
  }

  method MaxLosingStreak(pnls: seq<real>) returns (longest: nat)
    ensures IsLongestRun(pnls, Losing, longest)
  {
    var streak := 0;
    longest := 0;
    EmptyRun(Losing);
    for i := 0 to |pnls|
      invariant IsTrailingRun(pnls[..i], Losing, streak) && IsLongestRun(pnls[..i], Losing, longest)
    {
      assert pnls[..i + 1] == pnls[..i] + [pnls[i]];
      ghost var _, _ := RunAppend(pnls[..i], pnls[i], Losing, streak, longest);
      if pnls[i] <= 0.0 {
        streak := streak + 1;
        longest := if streak > longest then streak else longest;
      } else {
        streak := 0;
      }
    }
    assert pnls[..|pnls|] == pnls;
  }
}
