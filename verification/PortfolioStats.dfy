/** Portfolio performance from closed trades: one pass over their net results, and its conversion at a single rate. */
module PortfolioStats {
  import opened Common
  import opened Rounding
  import opened CurveStats

  const MONEY_DIGITS: nat := 2
  const FACTOR_DIGITS: nat := 3
  const USD := "USD"

  datatype Stats = Stats(total: nat, wins: nat, losses: nat, breakeven: nat, grossProfit: real, grossLoss: real,
                         net: real, maxDrawdown: real)

  function Won(x: real): bool { x > 0.0 }
  function Lost(x: real): bool { x < 0.0 }
  function Even(x: real): bool { x == 0.0 }

  /** What the winners won, or, as a positive figure, what the losers lost. */
  function Gross(xs: seq<real>, counts: real -> bool): real
    decreases xs
  {
    if xs == [] then 0.0
    else Gross(xs[..|xs| - 1], counts) + if counts(xs[|xs| - 1]) then Abs(xs[|xs| - 1]) else 0.0
  }

  ghost predicate CountsAndSums(s: Stats, nets: seq<real>) {
    && s.total == |nets| && s.wins == Count(nets, Won) && s.losses == Count(nets, Lost)
        && s.breakeven == Count(nets, Even)
    && s.grossProfit == Gross(nets, Won) && s.grossLoss == Gross(nets, Lost) && s.net == Sum(nets)
  }

  /** Every figure by its definition; the drawdown is the deepest fall between two points of the cumulative curve. */
  ghost predicate Describes(s: Stats, nets: seq<real>) {
    CountsAndSums(s, nets) && IsMaxDrawdown(0.0, nets, s.maxDrawdown)
  }

  // ---- The one-pass computation -----------------------------------------------------------------------------------

  lemma GrossAppend(xs: seq<real>, x: real, counts: real -> bool)
    ensures Gross(xs + [x], counts) == Gross(xs, counts) + if counts(x) then Abs(x) else 0.0
  {
    assert (xs + [x])[..|xs|] == xs;
  }

  /** One more trade: the counters and sums of the longer list. */
  function Added(s: Stats, x: real): Stats {
    Stats(s.total + 1, if x > 0.0 then s.wins + 1 else s.wins, if x < 0.0 then s.losses + 1 else s.losses,
          if x == 0.0 then s.breakeven + 1 else s.breakeven, if x > 0.0 then s.grossProfit + x else s.grossProfit,
          if x < 0.0 then s.grossLoss - x else s.grossLoss, s.net + x, s.maxDrawdown)
  }

  lemma SumsAppend(nets: seq<real>, x: real, s: Stats)
    requires CountsAndSums(s, nets)
    ensures CountsAndSums(Added(s, x), nets + [x])
  {
    SumAppend(nets, x);
    CountAppend(nets, x, Won);
    CountAppend(nets, x, Lost);
    CountAppend(nets, x, Even);
    GrossAppend(nets, x, Won);
    GrossAppend(nets, x, Lost);
  }

  /** Where the cumulative curve is, its highest point and its deepest fall. */
  ghost predicate Falls(nets: seq<real>, cum: real, peak: real, drawdown: real) {
    cum == Curve(0.0, nets, |nets|) && IsPeak(0.0, nets, peak) && IsMaxDrawdown(0.0, nets, drawdown)
  }

  lemma FallsAppend(nets: seq<real>, x: real, cum: real, peak: real, drawdown: real, peak': real, drawdown': real)
    requires Falls(nets, cum, peak, drawdown) && peak' == if cum + x > peak then cum + x else peak
    requires drawdown' == if peak' - (cum + x) > drawdown then peak' - (cum + x) else drawdown
    ensures Falls(nets + [x], cum + x, peak', drawdown')
  {
    CurveEnd(0.0, nets, x);
    PeakAppend(0.0, nets, x, peak, peak');
    DrawdownAppend(0.0, nets, x, peak', drawdown, drawdown');
  }

  /** The counting part of the loop body; a result of exactly 0 is neither won nor lost. */
  method Tally(ghost nets: seq<real>, n: real, s0: Stats) returns (s: Stats)
    requires CountsAndSums(s0.(total := |nets|), nets)
    ensures CountsAndSums(s.(total := |nets| + 1), nets + [n]) && s.total == s0.total
  {
    SumsAppend(nets, n, s0.(total := |nets|));
    s := s0.(net := s0.net + n);
    if n > 0.0 {
      s := s.(wins := s.wins + 1, grossProfit := s.grossProfit + n);
    } else if n < 0.0 {
      s := s.(losses := s.losses + 1, grossLoss := s.grossLoss - n);
    } else {
      s := s.(breakeven := s.breakeven + 1);
    }
    assert s.(total := |nets| + 1) == Added(s0.(total := |nets|), n);
  }

  /** What the loop knows after some of the trades. */
  ghost predicate Progress(nets: seq<real>, s: Stats, cum: real, peak: real, drawdown: real) {
    CountsAndSums(s.(total := |nets|), nets) && Falls(nets, cum, peak, drawdown)
  }

  /** The drawdown part of the loop body. */
  method TrackDrawdown(ghost nets: seq<real>, n: real, cum0: real, peak0: real, drawdown0: real)
    returns (cum: real, peak: real, drawdown: real)
    requires Falls(nets, cum0, peak0, drawdown0)
    ensures Falls(nets + [n], cum, peak, drawdown)
  {
    cum := cum0 + n;
    peak := if cum > peak0 then cum else peak0;
    drawdown := if peak - cum > drawdown0 then peak - cum else drawdown0;
    FallsAppend(nets, n, cum0, peak0, drawdown0, peak, drawdown);
  }

  /** What the loop knows after the first `i` trades. */
  ghost predicate ProgressAt(nets: seq<real>, i: nat, s: Stats, cum: real, peak: real, drawdown: real) {
    i <= |nets| && s.total == |nets| && Progress(nets[..i], s, cum, peak, drawdown)
  }

  lemma NoTradesYet(nets: seq<real>, s: Stats)
    requires s == Stats(|nets|, 0, 0, 0, 0.0, 0.0, 0.0, 0.0)
    ensures ProgressAt(nets, 0, s, 0.0, 0.0, 0.0)
  {
    assert nets[..0] == [];
    EmptyCurve(0.0);
  }

  lemma AllTrades(nets: seq<real>, s: Stats, cum: real, peak: real, drawdown: real)
    requires ProgressAt(nets, |nets|, s, cum, peak, drawdown)
    ensures Describes(s.(maxDrawdown := drawdown), nets)
  {
    assert nets[..|nets|] == nets;
  }

  method Step(nets: seq<real>, i: nat, s0: Stats, cum0: real, peak0: real, drawdown0: real)
    returns (s: Stats, cum: real, peak: real, drawdown: real)
    requires i < |nets| && ProgressAt(nets, i, s0, cum0, peak0, drawdown0)
    ensures ProgressAt(nets, i + 1, s, cum, peak, drawdown)
  {
    assert nets[..i + 1] == nets[..i] + [nets[i]];
    s := Tally(nets[..i], nets[i], s0);
    cum, peak, drawdown := TrackDrawdown(nets[..i], nets[i], cum0, peak0, drawdown0);
  }

  method WalkTrades(nets: seq<real>) returns (s: Stats, cum: real, peak: real, drawdown: real)
    ensures ProgressAt(nets, |nets|, s, cum, peak, drawdown)
  {
    s := Stats(|nets|, 0, 0, 0, 0.0, 0.0, 0.0, 0.0);
    cum, peak, drawdown := 0.0, 0.0, 0.0;
    NoTradesYet(nets, s);
    for i := 0 to |nets|
      invariant ProgressAt(nets, i, s, cum, peak, drawdown)
    {
      s, cum, peak, drawdown := Step(nets, i, s, cum, peak, drawdown);
    }
  }

  method ClosedTradeStats(nets: seq<real>) returns (s: Stats)
    ensures Describes(s, nets)
  {
    var cum, peak, drawdown;
    s, cum, peak, drawdown := WalkTrades(nets);
    AllTrades(nets, s, cum, peak, drawdown);
    s := s.(maxDrawdown := drawdown);
  }

  /** The definitions leave no choice: two computations of the same trades agree on every figure. */
  lemma DescribesIsUnique(s: Stats, s': Stats, nets: seq<real>)
    requires Describes(s, nets) && Describes(s', nets)
    ensures s == s'
  {
    var i: nat, j: nat :| i <= j <= |nets| && Fall(0.0, nets, i, j) == s.maxDrawdown;
    var k: nat, m: nat :| k <= m <= |nets| && Fall(0.0, nets, k, m) == s'.maxDrawdown;
    assert s.maxDrawdown <= s'.maxDrawdown && s'.maxDrawdown <= s.maxDrawdown;
  }

  // ---- Conversion at one rate -------------------------------------------------------------------------------------

  function Times(x: real, rate: real): real { x * rate }

  lemma TimesLaws(x: real, y: real, rate: real)
    requires rate > 0.0
    ensures Times(x + y, rate) == Times(x, rate) + Times(y, rate)
        && Times(x - y, rate) == Times(x, rate) - Times(y, rate)
    ensures x <= y <==> Times(x, rate) <= Times(y, rate)
    ensures x < y <==> Times(x, rate) < Times(y, rate)
  {
    if x < y {
      assert (y - x) * rate > 0.0;
    } else {
      assert (x - y) * rate >= 0.0;
    }
  }

  lemma TimesKeepsSign(x: real, rate: real)
    requires rate > 0.0
    ensures Won(Times(x, rate)) == Won(x) && Lost(Times(x, rate)) == Lost(x) && Even(Times(x, rate)) == Even(x)
    ensures Abs(Times(x, rate)) == Times(Abs(x), rate)
  {
    TimesLaws(0.0, x, rate);
    TimesLaws(x, 0.0, rate);
    assert Times(0.0, rate) == 0.0 && Times(-x, rate) == -Times(x, rate);
  }

  function Converted(nets: seq<real>, rate: real): (r: seq<real>)
    ensures |r| == |nets| && forall i :: 0 <= i < |r| ==> r[i] == Times(nets[i], rate)
  {
    seq(|nets|, i requires 0 <= i < |nets| => Times(nets[i], rate))
  }

  lemma ConvertedPrefix(nets: seq<real>, rate: real, k: nat)
    requires k <= |nets|
    ensures Converted(nets, rate)[..k] == Converted(nets[..k], rate)
  {
  }

  /** Counts and sign classes survive the conversion, sums scale with it. */
  lemma {:induction false} ConvertedSums(nets: seq<real>, rate: real)
    requires rate > 0.0
    ensures var c := Converted(nets, rate);
            && Sum(c) == Times(Sum(nets), rate)
            && Gross(c, Won) == Times(Gross(nets, Won), rate) && Gross(c, Lost) == Times(Gross(nets, Lost), rate)
            && Count(c, Won) == Count(nets, Won) && Count(c, Lost) == Count(nets, Lost)
                && Count(c, Even) == Count(nets, Even)
  {
    if nets == [] {
      assert Times(0.0, rate) == 0.0;
    } else {
      var n := |nets| - 1;
      var x := nets[n];
      ConvertedSums(nets[..n], rate);
      ConvertedPrefix(nets, rate, n);
      TimesKeepsSign(x, rate);
      TimesLaws(Sum(nets[..n]), x, rate);
      TimesLaws(Gross(nets[..n], Won), Abs(x), rate);
      TimesLaws(Gross(nets[..n], Lost), Abs(x), rate);
    }
  }

  lemma ConvertedCurve(nets: seq<real>, rate: real, k: nat)
    requires rate > 0.0 && k <= |nets|
    ensures Curve(0.0, Converted(nets, rate), k) == Times(Curve(0.0, nets, k), rate)
  {
    ConvertedPrefix(nets, rate, k);
    ConvertedSums(nets[..k], rate);
  }

  lemma ConvertedFall(nets: seq<real>, rate: real, i: nat, j: nat)
    requires rate > 0.0 && i <= j <= |nets|
    ensures Fall(0.0, Converted(nets, rate), i, j) == Times(Fall(0.0, nets, i, j), rate)
  {
    ConvertedCurve(nets, rate, i);
    ConvertedCurve(nets, rate, j);
    TimesLaws(Curve(0.0, nets, i), Curve(0.0, nets, j), rate);
  }

  lemma ConvertedDrawdown(nets: seq<real>, rate: real, d: real)
    requires rate > 0.0 && IsMaxDrawdown(0.0, nets, d)
    ensures IsMaxDrawdown(0.0, Converted(nets, rate), Times(d, rate))
  {
    var c := Converted(nets, rate);
    forall i: nat, j: nat | i <= j <= |c| ensures Fall(0.0, c, i, j) <= Times(d, rate) {
      ConvertedFall(nets, rate, i, j);
      TimesLaws(Fall(0.0, nets, i, j), d, rate);
    }
    var i: nat, j: nat :| i <= j <= |nets| && Fall(0.0, nets, i, j) == d;
    ConvertedFall(nets, rate, i, j);
  }

  function AtRate(s: Stats, rate: real): Stats {
    s.(grossProfit := Times(s.grossProfit, rate), grossLoss := Times(s.grossLoss, rate), net := Times(s.net, rate),
       maxDrawdown := Times(s.maxDrawdown, rate))
  }

  /** The statistics of the converted trades are the converted statistics: counts fixed, money scaled. */
  lemma StatsCommuteWithConversion(s: Stats, nets: seq<real>, rate: real)
    requires rate > 0.0 && Describes(s, nets)
    ensures Describes(AtRate(s, rate), Converted(nets, rate))
  {
    ConvertedSums(nets, rate);
    ConvertedDrawdown(nets, rate, s.maxDrawdown);
  }

  // ---- The reported figures ---------------------------------------------------------------------------------------

  datatype Factor = NoTrades | Infinite | Ratio(value: real)

  datatype Figures = Figures(total: nat, wins: nat, losses: nat, breakeven: nat, winRatePct: real, factor: Factor,
                             expectancy: real, net: real, grossProfit: real, grossLoss: real, maxDrawdown: real)

  function ProfitFactor(grossProfit: real, grossLoss: real): Factor {
    if grossLoss > 0.0 then Ratio(RoundTo(grossProfit / grossLoss, FACTOR_DIGITS))
    else if grossProfit > 0.0 then Infinite else NoTrades
  }

  function Assemble(s: Stats, rate: real): Figures {
    var t := AtRate(s, rate);
    Figures(t.total, t.wins, t.losses, t.breakeven,
            if t.total > 0 then RoundTo(t.wins as real / t.total as real * 100.0, 2) else 0.0,
            ProfitFactor(t.grossProfit, t.grossLoss),
            if t.total > 0 then RoundTo(t.net / t.total as real, MONEY_DIGITS) else 0.0,
            RoundTo(t.net, MONEY_DIGITS), RoundTo(t.grossProfit, MONEY_DIGITS), RoundTo(t.grossLoss, MONEY_DIGITS),
            RoundTo(t.maxDrawdown, MONEY_DIGITS))
  }

  lemma QuotientIgnoresRate(x: real, y: real, rate: real)
    requires rate > 0.0 && y > 0.0
    ensures Times(y, rate) > 0.0 && Times(x, rate) / Times(y, rate) == x / y
  {
    TimesLaws(0.0, y, rate);
    var q := x / y;
    assert x == q * y;
    assert Times(x, rate) == q * Times(y, rate);
  }

  /** No positive rate changes the profit factor. */
  lemma FactorIgnoresRate(grossProfit: real, grossLoss: real, rate: real)
    requires rate > 0.0
    ensures ProfitFactor(Times(grossProfit, rate), Times(grossLoss, rate)) == ProfitFactor(grossProfit, grossLoss)
  {
    TimesKeepsSign(grossProfit, rate);
    TimesKeepsSign(grossLoss, rate);
    if grossLoss > 0.0 { QuotientIgnoresRate(grossProfit, grossLoss, rate); }
  }

  lemma UnitRate(s: Stats)
    ensures AtRate(s, 1.0) == s
  {
  }

  /** Converting the statistics or converting every trade first: the same report, with the same counts, win rate and
      profit factor as in the native currency. */
  lemma ReportCommutesWithConversion(s: Stats, c: Stats, nets: seq<real>, rate: real)
    requires rate > 0.0 && Describes(s, nets) && Describes(c, Converted(nets, rate))
    ensures Assemble(s, rate) == Assemble(c, 1.0)
    ensures Assemble(s, rate).factor == Assemble(s, 1.0).factor
        && Assemble(s, rate).winRatePct == Assemble(s, 1.0).winRatePct
  {
    StatsCommuteWithConversion(s, nets, rate);
    DescribesIsUnique(AtRate(s, rate), c, Converted(nets, rate));
    UnitRate(c);
    UnitRate(s);
    FactorIgnoresRate(s.grossProfit, s.grossLoss, rate);
  }

  // ---- Whole portfolios -------------------------------------------------------------------------------------------

  /** `currency` is the stored one; blank counts as dollars. */
  datatype Account = Account(id: int, currency: string)
  datatype ClosedTrade = ClosedTrade(account: int, net: real, allUsd: bool)
  datatype Health = Complete | Partial | Unavailable
  datatype Metrics = Withheld(total: Option<nat>, health: Health, excluded: seq<int>)
                   | Measured(figures: Figures, health: Health, excluded: seq<int>, rate: Option<real>)

  function Normalise(currency: string): string {
    if currency == "" then USD else currency
  }

  predicate IsUsd(a: Account, observedNonUsd: set<int>) {
    Normalise(a.currency) == USD && a.id !in observedNonUsd
  }

  function Ids(accounts: seq<Account>, observedNonUsd: set<int>, usd: bool): seq<int> {
    if accounts == [] then []
    else
      var front, last := Ids(accounts[..|accounts| - 1], observedNonUsd, usd), accounts[|accounts| - 1];
      if IsUsd(last, observedNonUsd) == usd then front + [last.id] else front
  }

  function NetsOf(trades: seq<ClosedTrade>, ids: seq<int>): seq<real> {
    if trades == [] then []
    else
      var front, last := NetsOf(trades[..|trades| - 1], ids), trades[|trades| - 1];
      if last.account in ids then front + [last.net] else front
  }

  predicate AllUsd(trades: seq<ClosedTrade>, ids: seq<int>) {
    forall t :: t in trades && t.account in ids ==> t.allUsd
  }

  function ObservedCurrency(observed: map<int, string>, id: int): string {
    if id in observed then Normalise(observed[id]) else USD
  }

  /** A foreign currency that all these accounts share and that has a positive rate. */
  ghost predicate UsableCurrency(ids: seq<int>, observed: map<int, string>, rates: string -> Option<real>, c: string) {
    && c != USD && (forall id :: id in ids ==> ObservedCurrency(observed, id) == c)
    && rates(c).Some? && rates(c).value > 0.0
  }

  /** The rate of the one foreign currency that all the accounts share, when it has a usable one. */
  function SingleCurrencyRate(ids: seq<int>, observed: map<int, string>,
                              rates: string -> Option<real>): (r: Option<real>)
    ensures r.Some? ==> r.value > 0.0 && forall id :: id in ids ==> rates(ObservedCurrency(observed, id)) == r
    ensures r.Some? <==> ids != [] && observed != map[] && exists c :: UsableCurrency(ids, observed, rates, c)
  {
    assert forall c :: ids != [] && UsableCurrency(ids, observed, rates, c) ==> c == ObservedCurrency(observed, ids[0]);
    if ids == [] || observed == map[] then None
    else
      var currency := ObservedCurrency(observed, ids[0]);
      if currency == USD || exists id :: id in ids && ObservedCurrency(observed, id) != currency then None
      else
        var rate := rates(currency);
        assert UsableCurrency(ids, observed, rates, currency) <==> rate.Some? && rate.value > 0.0;
        if rate.Some? && rate.value > 0.0 then rate else None
  }

  /** Money is only reported in one denomination: dollar accounts whose trades are all in dollars, or accounts that
      share one foreign currency, converted at its rate. Everything else withholds its figures. */
  ghost predicate Honest(m: Metrics, accounts: seq<Account>, observedNonUsd: set<int>, observed: map<int, string>,
                         rates: string -> Option<real>, trades: seq<ClosedTrade>) {
    var usd, foreign := Ids(accounts, observedNonUsd, true), Ids(accounts, observedNonUsd, false);
    match m
    case Measured(figures, health, excluded, None) =>
      && (usd != [] || foreign == []) && AllUsd(trades, usd) && excluded == foreign
      && (health == if foreign == [] then Complete else Partial)
      && exists s :: Describes(s, NetsOf(trades, usd)) && figures == Assemble(s, 1.0)
    case Measured(figures, health, excluded, Some(rate)) =>
      && usd == [] && foreign != [] && SingleCurrencyRate(foreign, observed, rates) == Some(rate)
      && excluded == [] && health == Complete
      && exists s :: Describes(s, Converted(NetsOf(trades, foreign), rate)) && figures == Assemble(s, 1.0)
    case Withheld(total, health, excluded) =>
      && excluded == foreign
      && if usd == [] && foreign != [] then
           total == None && health == Unavailable && SingleCurrencyRate(foreign, observed, rates).None?
         else !AllUsd(trades, usd) && total == Some(|NetsOf(trades, usd)|) && health == Partial
  }

  lemma NextTrade(nets: seq<real>, i: nat, s: Stats, cum: real, peak: real, drawdown: real)
    requires i < |nets| && ProgressAt(nets, i, s, cum, peak, drawdown)
    ensures var n := nets[i];
            var peak' := Max(peak, cum + n);
            ProgressAt(nets, i + 1, Added(s, n).(total := s.total), cum + n, peak', Max(drawdown, peak' - (cum + n)))
  {
    hide CountsAndSums, Falls;
    var n := nets[i];
    var peak' := Max(peak, cum + n);
    assert nets[..i + 1] == nets[..i] + [n];
    SumsAppend(nets[..i], n, s.(total := i));
    FallsAppend(nets[..i], n, cum, peak, drawdown, peak', Max(drawdown, peak' - (cum + n)));
  }

  /** The branch for dollar accounts has a loop of its own, with plain variables, and assembles its figures inline. */
  method InlineFigures(nets: seq<real>) returns (f: Figures)
    ensures exists s :: Describes(s, nets) && f == Assemble(s, 1.0)
  {
    hide RoundTo, Describes, Progress;
    var total, wins, losses, breakeven := |nets|, 0, 0, 0;
    var grossProfit, grossLoss, netTotal := 0.0, 0.0, 0.0;
    var peak, cum, maxDrawdown := 0.0, 0.0, 0.0;
    NoTradesYet(nets, Stats(total, 0, 0, 0, 0.0, 0.0, 0.0, 0.0));
    for i := 0 to |nets|
      invariant ProgressAt(nets, i, Stats(total, wins, losses, breakeven, grossProfit, grossLoss, netTotal, 0.0), cum,
                           peak, maxDrawdown)
    {
      NextTrade(nets, i, Stats(total, wins, losses, breakeven, grossProfit, grossLoss, netTotal, 0.0), cum, peak,
                maxDrawdown);
      var n := nets[i];
      netTotal := netTotal + n;
      if n > 0.0 {
        wins, grossProfit := wins + 1, grossProfit + n;
      } else if n < 0.0 {
        losses, grossLoss := losses + 1, grossLoss + -n;
      } else {
        breakeven := breakeven + 1;
      }
      cum := cum + n;
      peak := Max(peak, cum);
      maxDrawdown := Max(maxDrawdown, peak - cum);
    }
    ghost var s := Stats(total, wins, losses, breakeven, grossProfit, grossLoss, netTotal, maxDrawdown);
    AllTrades(nets, s.(maxDrawdown := 0.0), cum, peak, maxDrawdown);
    hide ProgressAt;
    UnitRate(s);
    var factor: Factor;
    if grossLoss > 0.0 {
      factor := Ratio(RoundTo(grossProfit / grossLoss, FACTOR_DIGITS));
    } else if grossProfit > 0.0 {
      factor := Infinite;
    } else {
      factor := NoTrades;
    }
    f := Figures(total, wins, losses, breakeven,
                 if total > 0 then RoundTo(wins as real / total as real * 100.0, 2) else 0.0, factor,
                 if total > 0 then RoundTo(netTotal / total as real, MONEY_DIGITS) else 0.0,
                 RoundTo(netTotal, MONEY_DIGITS), RoundTo(grossProfit, MONEY_DIGITS), RoundTo(grossLoss, MONEY_DIGITS),
                 RoundTo(maxDrawdown, MONEY_DIGITS));
    assert f == Assemble(s, 1.0);
  }

  method ConvertedFigures(nets: seq<real>, rate: real) returns (f: Figures)
    requires rate > 0.0
    ensures exists s :: Describes(s, Converted(nets, rate)) && f == Assemble(s, 1.0)
  {
    var s := ClosedTradeStats(nets);
    StatsCommuteWithConversion(s, nets, rate);
    ReportCommutesWithConversion(s, AtRate(s, rate), nets, rate);
    f := Assemble(s, rate);
  }

  method PortfolioMetrics(accounts: seq<Account>, observedNonUsd: set<int>, observed: map<int, string>,
                          rates: string -> Option<real>, trades: seq<ClosedTrade>)
    returns (m: Metrics)
    ensures Honest(m, accounts, observedNonUsd, observed, rates, trades)
  {
    var ids, excluded := Ids(accounts, observedNonUsd, true), Ids(accounts, observedNonUsd, false);
    if ids == [] && excluded != [] {
      var rate := SingleCurrencyRate(excluded, observed, rates);
      if rate.Some? {
        var f := ConvertedFigures(NetsOf(trades, excluded), rate.value);
        return Measured(f, Complete, [], rate);
      }
      return Withheld(None, Unavailable, excluded);
    }
    if !AllUsd(trades, ids) {
      return Withheld(Some(|NetsOf(trades, ids)|), Partial, excluded);
    }
    var f := InlineFigures(NetsOf(trades, ids));
    m := Measured(f, if excluded != [] then Partial else Complete, excluded, None);
  }
}
