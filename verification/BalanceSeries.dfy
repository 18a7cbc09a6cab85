/** The balance curve of an account from its completed round trips and, when the books reconcile, its cash flows. */
module BalanceSeries {
  import opened Common
  import opened Rounding
  import opened CurveStats

  const MONEY_DIGITS: nat := 2
  const DEFAULT_OPENING: real := 10000.0
  const CREDIT_LIMIT: real := 0.01

  datatype RoundTrip = RoundTrip(openTime: Option<int>, closeTime: Option<int>, pnl: real)
  datatype CashOp = CashOp(time: Option<int>, amount: real)
  datatype Event = TradeAt(when: int, amount: real) | FundingAt(when: int, amount: real)
  datatype Source = ReconciledLedger | LastUsed | Fallback

  // ---- A stable sort by time --------------------------------------------------------------------------------------

  /** After every event that is not later. */
  function Insert(sorted: seq<Event>, e: Event): seq<Event> {
    if sorted != [] && sorted[|sorted| - 1].when > e.when then
      Insert(sorted[..|sorted| - 1], e) + [sorted[|sorted| - 1]]
    else sorted + [e]
  }

  function StableSort(events: seq<Event>): seq<Event> {
    if events == [] then [] else Insert(StableSort(events[..|events| - 1]), events[|events| - 1])
  }

  ghost predicate InTimeOrder(events: seq<Event>) {
    forall i, j :: 0 <= i < j < |events| ==> events[i].when <= events[j].when
  }

  lemma {:induction false} InsertMembers(sorted: seq<Event>, e: Event)
    ensures |Insert(sorted, e)| == |sorted| + 1
    ensures forall x :: x in Insert(sorted, e) <==> x in sorted || x == e
  {
    if sorted != [] && sorted[|sorted| - 1].when > e.when {
      InsertMembers(sorted[..|sorted| - 1], e);
      assert sorted == sorted[..|sorted| - 1] + [sorted[|sorted| - 1]];
    }
  }

  lemma AppendKeepsOrder(events: seq<Event>, last: Event)
    requires InTimeOrder(events) && forall x :: x in events ==> x.when <= last.when
    ensures InTimeOrder(events + [last])
  {
    assert forall i :: 0 <= i < |events| ==> events[i] in events;
  }

  lemma {:induction false} InsertSorts(sorted: seq<Event>, e: Event)
    requires InTimeOrder(sorted)
    ensures InTimeOrder(Insert(sorted, e))
  {
    if sorted != [] && sorted[|sorted| - 1].when > e.when {
      var front, last := sorted[..|sorted| - 1], sorted[|sorted| - 1];
      InsertSorts(front, e);
      InsertMembers(front, e);
      AppendKeepsOrder(Insert(front, e), last);
    } else {
      AppendKeepsOrder(sorted, e);
    }
  }

  lemma {:induction false} StableSortSorts(events: seq<Event>)
    ensures InTimeOrder(StableSort(events))
  {
    if events != [] {
      StableSortSorts(events[..|events| - 1]);
      InsertSorts(StableSort(events[..|events| - 1]), events[|events| - 1]);
    }
  }

  lemma {:induction false} StableSortMembers(events: seq<Event>)
    ensures |StableSort(events)| == |events|
    ensures forall x :: x in StableSort(events) <==> x in events
  {
    if events != [] {
      var front, last := events[..|events| - 1], events[|events| - 1];
      StableSortMembers(front);
      InsertMembers(StableSort(front), last);
      assert events == front + [last];
    }
  }

  lemma {:induction false} SortedStays(events: seq<Event>)
    requires InTimeOrder(events)
    ensures StableSort(events) == events
  {
    if events != [] { SortedStays(events[..|events| - 1]); }
  }

  function Trades(events: seq<Event>): seq<Event> {
    if events == [] then []
    else
      var front, last := Trades(events[..|events| - 1]), events[|events| - 1];
      if last.TradeAt? then front + [last] else front
  }

  lemma TradesAppend(events: seq<Event>, e: Event)
    ensures Trades(events + [e]) == if e.TradeAt? then Trades(events) + [e] else Trades(events)
  {
    assert (events + [e])[..|events|] == events;
  }

  lemma {:induction false} TradesKeepTimeOrder(events: seq<Event>)
    requires InTimeOrder(events)
    ensures InTimeOrder(Trades(events))
    ensures forall e :: e in Trades(events) ==> e in events
  {
    if events != [] {
      var front, last := events[..|events| - 1], events[|events| - 1];
      TradesKeepTimeOrder(front);
      forall e | e in Trades(front) ensures e in events && e.when <= last.when {
        var i :| 0 <= i < |front| && front[i] == e;
        assert events[i] == e;
      }
    }
  }

  /** A cash flow leaves the trades alone when inserted; a trade goes where a trades-only list would have it. */
  lemma {:induction false} TradesOfInsert(sorted: seq<Event>, e: Event)
    requires InTimeOrder(sorted)
    ensures Trades(Insert(sorted, e)) == if e.TradeAt? then Insert(Trades(sorted), e) else Trades(sorted)
  {
    if sorted != [] && sorted[|sorted| - 1].when > e.when {
      var front, last := sorted[..|sorted| - 1], sorted[|sorted| - 1];
      TradesOfInsert(front, e);
      TradesAppend(Insert(front, e), last);
      if e.TradeAt? && last.TradeAt? {
        assert Trades(sorted)[..|Trades(sorted)| - 1] == Trades(front);
      } else if e.TradeAt? {
        assert Trades(sorted) == Trades(front);
      }
    } else {
      TradesAppend(sorted, e);
      TradesKeepTimeOrder(sorted);
      if Trades(sorted) != [] {
        var t := Trades(sorted)[|Trades(sorted)| - 1];
        assert t in Trades(sorted);
        var i :| 0 <= i < |sorted| && sorted[i] == t;
        assert sorted[i].when <= sorted[|sorted| - 1].when;
      }
    }
  }

  /** Merging cash flows in never reorders the trades. */
  lemma {:induction false} MergingKeepsTrades(events: seq<Event>)
    ensures Trades(StableSort(events)) == StableSort(Trades(events))
  {
    if events != [] {
      var front, last := events[..|events| - 1], events[|events| - 1];
      MergingKeepsTrades(front);
      StableSortSorts(front);
      TradesOfInsert(StableSort(front), last);
      assert last.TradeAt? ==> Trades(events)[..|Trades(events)| - 1] == Trades(front);
    }
  }

  // ---- The plan: opening balance and event stream -----------------------------------------------------------------

  /** Completed round trips as trade events. */
  function Completed(trips: seq<RoundTrip>): (r: seq<Event>)
    ensures forall e :: e in r ==> e.TradeAt?
  {
    if trips == [] then []
    else
      var front, last := Completed(trips[..|trips| - 1]), trips[|trips| - 1];
      if last.closeTime.Some? then front + [TradeAt(last.closeTime.value, last.pnl)] else front
  }

  function Amounts(events: seq<Event>): (r: seq<real>)
    ensures |r| == |events| && forall i :: 0 <= i < |r| ==> r[i] == events[i].amount
  {
    seq(|events|, i requires 0 <= i < |events| => events[i].amount)
  }

  function NetFunding(ops: seq<CashOp>): real {
    if ops == [] then 0.0 else NetFunding(ops[..|ops| - 1]) + ops[|ops| - 1].amount
  }

  /** The earliest opening of a completed trade, its closing when the opening is unknown. */
  function FirstActivity(trips: seq<RoundTrip>): Option<int> {
    if trips == [] then None
    else
      var front, last := FirstActivity(trips[..|trips| - 1]), trips[|trips| - 1];
      if last.closeTime.None? then front
      else
        var began := if last.openTime.Some? then last.openTime.value else last.closeTime.value;
        if front.Some? && front.value <= began then front else Some(began)
  }

  /** A cash flow after trading began is a dated step; everything else, untimed flows included, is opening capital. */
  predicate IsStep(op: CashOp, first: int) {
    op.time.Some? && op.time.value > first
  }

  function Opening(ops: seq<CashOp>, first: int): real {
    if ops == [] then 0.0
    else
      var front, last := Opening(ops[..|ops| - 1], first), ops[|ops| - 1];
      if IsStep(last, first) then front else front + last.amount
  }

  function Steps(ops: seq<CashOp>, first: int): (r: seq<Event>)
    ensures forall e :: e in r ==> e.FundingAt? && e.when > first
  {
    if ops == [] then []
    else
      var front, last := Steps(ops[..|ops| - 1], first), ops[|ops| - 1];
      if IsStep(last, first) then front + [FundingAt(last.time.value, last.amount)] else front
  }

  function Tolerance(n: nat): real {
    Max(0.05, n as real * 0.0001)
  }

  predicate Reconciles(trades: seq<Event>, broker: Option<real>, ops: seq<CashOp>, credit: real) {
    && ops != [] && broker.Some? && Abs(credit) < CREDIT_LIMIT
    && Abs(broker.value - (NetFunding(ops) + Sum(Amounts(trades)))) <= Tolerance(|trades|)
  }

  datatype Plan = Plan(opening: real, source: Source, events: seq<Event>)

  function MakePlan(trips: seq<RoundTrip>, broker: Option<real>, ops: seq<CashOp>, credit: real): Plan {
    var trades, first := StableSort(Completed(trips)), FirstActivity(trips);
    if Reconciles(trades, broker, ops, credit) && first.Some? then
      Plan(Opening(ops, first.value), ReconciledLedger, StableSort(trades + Steps(ops, first.value)))
    else if broker.Some? then Plan(broker.value - Sum(Amounts(trades)), LastUsed, trades)
    else Plan(DEFAULT_OPENING, Fallback, trades)
  }

  /** The balance after the last event, before rounding. */
  function LastBalance(plan: Plan): real {
    Curve(plan.opening, Amounts(plan.events), |plan.events|)
  }

  lemma {:induction false} FirstActivityKnown(trips: seq<RoundTrip>)
    ensures FirstActivity(trips).Some? <==> Completed(trips) != []
  {
    if trips != [] { FirstActivityKnown(trips[..|trips| - 1]); }
  }

  /** Opening funding and dated steps partition net funding. */
  lemma {:induction false} FundingIsPartitioned(ops: seq<CashOp>, first: int)
    ensures Opening(ops, first) + Sum(Amounts(Steps(ops, first))) == NetFunding(ops)
  {
    if ops != [] {
      var front, last := ops[..|ops| - 1], ops[|ops| - 1];
      FundingIsPartitioned(front, first);
      if IsStep(last, first) {
        AmountsAppend(Steps(front, first), FundingAt(last.time.value, last.amount));
      }
    }
  }

  lemma AmountsAppend(events: seq<Event>, e: Event)
    ensures Amounts(events + [e]) == Amounts(events) + [e.amount]
    ensures Sum(Amounts(events + [e])) == Sum(Amounts(events)) + e.amount
  {
    assert Amounts(events + [e]) == Amounts(events) + [e.amount];
    SumAppend(Amounts(events), e.amount);
  }

  lemma {:induction false} SumOfInsert(sorted: seq<Event>, e: Event)
    ensures Sum(Amounts(Insert(sorted, e))) == Sum(Amounts(sorted)) + e.amount
  {
    if sorted != [] && sorted[|sorted| - 1].when > e.when {
      var front, last := sorted[..|sorted| - 1], sorted[|sorted| - 1];
      SumOfInsert(front, e);
      AmountsAppend(Insert(front, e), last);
      AmountsAppend(front, last);
      assert sorted == front + [last];
    } else {
      AmountsAppend(sorted, e);
    }
  }

  lemma {:induction false} SumOfSort(events: seq<Event>)
    ensures Sum(Amounts(StableSort(events))) == Sum(Amounts(events))
  {
    if events != [] {
      var front, last := events[..|events| - 1], events[|events| - 1];
      SumOfSort(front);
      SumOfInsert(StableSort(front), last);
      AmountsAppend(front, last);
      assert events == front + [last];
    }
  }

  lemma {:induction false} SumOfConcat(xs: seq<Event>, ys: seq<Event>)
    ensures Sum(Amounts(xs + ys)) == Sum(Amounts(xs)) + Sum(Amounts(ys))
  {
    if ys == [] {
      assert xs + ys == xs;
    } else {
      var front, last := ys[..|ys| - 1], ys[|ys| - 1];
      SumOfConcat(xs, front);
      assert xs + ys == (xs + front) + [last] && ys == front + [last];
      AmountsAppend(xs + front, last);
      AmountsAppend(front, last);
    }
  }

  lemma LastBalanceIsSum(plan: Plan)
    ensures LastBalance(plan) == plan.opening + Sum(Amounts(plan.events))
  {
    assert Amounts(plan.events)[..|plan.events|] == Amounts(plan.events);
  }

  /** Opening capital, trades and dated steps end where net funding and trading end. */
  lemma LedgerEndsAtFundingPlusTrading(trades: seq<Event>, ops: seq<CashOp>, first: int)
    ensures Opening(ops, first) + Sum(Amounts(StableSort(trades + Steps(ops,
        first)))) == NetFunding(ops) + Sum(Amounts(trades))
  {
    SumOfSort(trades + Steps(ops, first));
    SumOfConcat(trades, Steps(ops, first));
    FundingIsPartitioned(ops, first);
  }

  /** Where every curve ends: in ledger mode at net funding plus trading result, which is within the tolerance of the
      broker's balance; otherwise exactly at the broker's balance when there is one. */
  lemma LastBalanceReconciles(trips: seq<RoundTrip>, broker: Option<real>, ops: seq<CashOp>, credit: real)
    requires Completed(trips) != []
    ensures var plan, net := MakePlan(trips, broker, ops, credit), Sum(Amounts(Completed(trips)));
            match plan.source
            case ReconciledLedger =>
              && LastBalance(plan) == NetFunding(ops) + net
              && broker.Some? && Abs(broker.value - LastBalance(plan)) <= Tolerance(|Completed(trips)|)
            case LastUsed => broker.Some? && LastBalance(plan) == broker.value
            case Fallback => broker.None? && LastBalance(plan) == DEFAULT_OPENING + net
  {
    var trades, plan := StableSort(Completed(trips)), MakePlan(trips, broker, ops, credit);
    SumOfSort(Completed(trips));
    StableSortMembers(Completed(trips));
    FirstActivityKnown(trips);
    LastBalanceIsSum(plan);
    if plan.source == ReconciledLedger {
      LedgerEndsAtFundingPlusTrading(trades, ops, FirstActivity(trips).value);
    }
  }

  lemma SortIsIdempotent(events: seq<Event>)
    ensures StableSort(StableSort(events)) == StableSort(events)
  {
    StableSortSorts(events);
    SortedStays(StableSort(events));
  }

  lemma NoStepsMeansAllOpening(ops: seq<CashOp>, first: int)
    requires Steps(ops, first) == []
    ensures Opening(ops, first) == NetFunding(ops)
  {
    FundingIsPartitioned(ops, first);
    assert Amounts([]) == [];
  }

  lemma PlanWithoutSteps(trips: seq<RoundTrip>, broker: Option<real>, ops: seq<CashOp>, credit: real)
    requires MakePlan(trips, broker, ops, credit).source == ReconciledLedger
    requires Steps(ops, FirstActivity(trips).value) == []
    ensures MakePlan(trips, broker, ops, credit)
         == Plan(NetFunding(ops), ReconciledLedger, StableSort(Completed(trips)))
  {
    var trades, first := StableSort(Completed(trips)), FirstActivity(trips).value;
    NoStepsMeansAllOpening(ops, first);
    assert trades + Steps(ops, first) == trades;
    SortIsIdempotent(Completed(trips));
  }

  lemma PlanWithoutOps(trips: seq<RoundTrip>, balance: real, credit: real)
    ensures MakePlan(trips, Some(balance), [], credit)
         == Plan(balance - Sum(Amounts(StableSort(Completed(trips)))), LastUsed, StableSort(Completed(trips)))
  {
  }

  /** When all funding predates trading the ledger curve has the events of the older reconstruction and lies within the
      tolerance of it; it is the same curve exactly when the books reconcile without any difference. */
  lemma FundingBeforeTradingShiftsWithinTolerance(trips: seq<RoundTrip>, broker: Option<real>, ops: seq<CashOp>,
                                                  credit: real)
    requires MakePlan(trips, broker, ops, credit).source == ReconciledLedger
    requires Steps(ops, FirstActivity(trips).value) == []
    ensures var plan, older := MakePlan(trips, broker, ops, credit), MakePlan(trips, broker, [], credit);
            && older.source == LastUsed && plan.events == older.events
            && Abs(plan.opening - older.opening) <= Tolerance(|older.events|)
            && (plan.opening == older.opening <==>
                broker.value == NetFunding(ops) + Sum(Amounts(Completed(trips))))
  {
    PlanWithoutSteps(trips, broker, ops, credit);
    PlanWithoutOps(trips, broker.value, credit);
    SumOfSort(Completed(trips));
  }

  lemma {:induction false} NoTrades(events: seq<Event>)
    requires forall e :: e in events ==> e.FundingAt?
    ensures Trades(events) == []
  {
    if events != [] {
      NoTrades(events[..|events| - 1]);
      assert events[|events| - 1] in events;
    }
  }

  lemma {:induction false} OnlyTrades(events: seq<Event>)
    requires forall e :: e in events ==> e.TradeAt?
    ensures Trades(events) == events
  {
    if events != [] {
      OnlyTrades(events[..|events| - 1]);
      assert events[|events| - 1] in events;
    }
  }

  lemma {:induction false} TradesOfConcat(xs: seq<Event>, ys: seq<Event>)
    ensures Trades(xs + ys) == Trades(xs) + Trades(ys)
  {
    if ys == [] {
      assert xs + ys == xs;
    } else {
      TradesOfConcat(xs, ys[..|ys| - 1]);
      assert xs + ys == (xs + ys[..|ys| - 1]) + [ys[|ys| - 1]];
      TradesAppend(xs + ys[..|ys| - 1], ys[|ys| - 1]);
    }
  }

  lemma MergedTrades(trades: seq<Event>, steps: seq<Event>)
    requires InTimeOrder(trades) && (forall e :: e in trades ==> e.TradeAt?) && forall e :: e in steps ==> e.FundingAt?
    ensures Trades(StableSort(trades + steps)) == trades
  {
    MergingKeepsTrades(trades + steps);
    TradesOfConcat(trades, steps);
    OnlyTrades(trades);
    NoTrades(steps);
    SortedStays(trades);
    assert Trades(trades) + Trades(steps) == trades;
  }

  /** The trades of the merged stream are the completed trades by closing time: no cash flow, balance or credit changes
      which trades there are or their order, hence none changes a statistic computed from them. */
  lemma TradesIgnoreCashFlows(trips: seq<RoundTrip>, broker: Option<real>, ops: seq<CashOp>, credit: real)
    ensures Trades(MakePlan(trips, broker, ops, credit).events) == StableSort(Completed(trips))
    ensures InTimeOrder(MakePlan(trips, broker, ops, credit).events)
  {
    var plan, trades := MakePlan(trips, broker, ops, credit), StableSort(Completed(trips));
    StableSortSorts(Completed(trips));
    StableSortMembers(Completed(trips));
    if plan.source == ReconciledLedger {
      var steps := Steps(ops, FirstActivity(trips).value);
      MergedTrades(trades, steps);
      StableSortSorts(trades + steps);
      assert plan.events == StableSort(trades + steps);
    } else {
      OnlyTrades(trades);
      assert plan.events == trades;
    }
  }

  // ---- The loop ---------------------------------------------------------------------------------------------------

  datatype Point = Point(index: nat, when: int, pnl: real, balance: real, funding: Option<real>)
  datatype Stats = Stats(total: nat, wins: nat, losses: nat, longestLossStreak: nat, maxDrawdownPct: real, net: real)

  /** The point an event leaves on the curve; a cash flow never shows as a trading result. */
  function PointAt(i: nat, e: Event, balance: real): Point {
    if e.TradeAt? then Point(i, e.when, RoundTo(e.amount, MONEY_DIGITS), RoundTo(balance, MONEY_DIGITS), None)
    else Point(i, e.when, 0.0, RoundTo(balance, MONEY_DIGITS), Some(RoundTo(e.amount, MONEY_DIGITS)))
  }

  function PointOf(plan: Plan, i: nat): Point
    requires i < |plan.events|
  {
    PointAt(i, plan.events[i], Curve(plan.opening, Amounts(plan.events), i + 1))
  }

  /** The points drawn so far are right, and the running balance is that of the curve. */
  ghost predicate Plotted(plan: Plan, series: seq<Point>, balance: real) {
    && |series| <= |plan.events| && balance == Curve(plan.opening, Amounts(plan.events), |series|)
    && forall j :: 0 <= j < |series| ==> series[j] == PointOf(plan, j)
  }

  lemma PlottedAppend(plan: Plan, series: seq<Point>, balance: real)
    requires Plotted(plan, series, balance) && |series| < |plan.events|
    ensures var i := |series|;
            var after := balance + plan.events[i].amount;
            Plotted(plan, series + [PointAt(i, plan.events[i], after)], after)
  {
    var i, xs := |series|, Amounts(plan.events);
    assert xs[..i + 1] == xs[..i] + [plan.events[i].amount];
    SumAppend(xs[..i], plan.events[i].amount);
  }

  function Losing(x: real): bool { x < 0.0 }
  function Winning(x: real): bool { x >= 0.0 }

  /** The statistics by their definitions, over the trade results alone; only the drawdown knows the opening balance. */
  ghost predicate StatsOf(s: Stats, pnls: seq<real>, opening: real) {
    && s.total == |pnls| && s.wins == Count(pnls, Winning) && s.losses == Count(pnls, Losing)
        && s.wins + s.losses == s.total
    && IsLongestRun(pnls, Losing, s.longestLossStreak) && s.net == RoundTo(Sum(pnls), MONEY_DIGITS)
    && exists d :: IsMaxDrawdownPct(opening, pnls, d) && s.maxDrawdownPct == RoundTo(d, MONEY_DIGITS)
  }

  /** What the loop knows about the trades handled so far. */
  ghost predicate Tally(pnls: seq<real>, wins: nat, losses: nat, streak: nat, longest: nat) {
    && wins == Count(pnls, Winning) && losses == Count(pnls, Losing) && wins + losses == |pnls|
    && IsTrailingRun(pnls, Losing, streak) && IsLongestRun(pnls, Losing, longest)
  }

  lemma TallyAppend(pnls: seq<real>, x: real, wins: nat, losses: nat, streak: nat, longest: nat)
    requires Tally(pnls, wins, losses, streak, longest)
    ensures x >= 0.0 ==> Tally(pnls + [x], wins + 1, losses, 0, longest)
    ensures x < 0.0 ==> Tally(pnls + [x], wins, losses + 1, streak + 1,
        if streak + 1 > longest then streak + 1 else longest)
  {
    CountAppend(pnls, x, Winning);
    CountAppend(pnls, x, Losing);
    var _, _ := RunAppend(pnls, x, Losing, streak, longest);
  }

  lemma TallyStart()
    ensures Tally([], 0, 0, 0, 0)
  {
    EmptyRun(Losing);
  }

  /** The running variables of the loop. */
  datatype Walk = Walk(series: seq<Point>, balance: real, trading: real, peak: real, drawdown: real, wins: nat,
                       losses: nat, streak: nat, longest: nat)

  ghost predicate TradesDone(opening: real, pnls: seq<real>, w: Walk) {
    Tally(pnls, w.wins, w.losses, w.streak, w.longest) && Tracked(opening, pnls, w.trading, w.peak, w.drawdown)
  }

  function Pnls(events: seq<Event>, i: nat): seq<real>
    requires i <= |events|
  {
    Amounts(Trades(events[..i]))
  }

  /** What the loop knows after the first `i` events. */
  ghost predicate WalkedTo(plan: Plan, i: nat, w: Walk) {
    && i == |w.series| && i <= |plan.events| && Plotted(plan, w.series, w.balance)
    && TradesDone(plan.opening, Pnls(plan.events, i), w)
  }

  lemma WalkStart(plan: Plan)
    ensures WalkedTo(plan, 0, Walk([], plan.opening, plan.opening, plan.opening, 0.0, 0, 0, 0, 0))
  {
    TallyStart();
    TrackedStart(plan.opening);
    assert plan.events[..0] == [] && Amounts([]) == [];
  }

  lemma PnlsStep(events: seq<Event>, i: nat)
    requires i < |events|
    ensures Pnls(events, i + 1) == if events[i].TradeAt? then Pnls(events, i) + [events[i].amount] else Pnls(events, i)
  {
    assert events[..i + 1] == events[..i] + [events[i]];
    TradesAppend(events[..i], events[i]);
    AmountsAppend(Trades(events[..i]), events[i]);
  }

  method CountTrade(opening: real, ghost pnls: seq<real>, pnl: real, w0: Walk) returns (w: Walk)
    requires TradesDone(opening, pnls, w0)
    ensures TradesDone(opening, pnls + [pnl], w) && w.series == w0.series && w.balance == w0.balance
  {
    var wins, losses, streak, longest := TallyTrade(pnls, pnl, w0.wins, w0.losses, w0.streak, w0.longest);
    var trading, peak, drawdown := TrackTrade(opening, pnls, pnl, w0.trading, w0.peak, w0.drawdown);
    w := w0.(wins := wins, losses := losses, streak := streak, longest := longest);
    w := w.(trading := trading, peak := peak, drawdown := drawdown);
  }

  method HandleEvent(plan: Plan, i: nat, w0: Walk) returns (w: Walk)
    requires i < |plan.events| && WalkedTo(plan, i, w0)
    ensures WalkedTo(plan, i + 1, w)
  {
    var e := plan.events[i];
    PnlsStep(plan.events, i);
    PlottedAppend(plan, w0.series, w0.balance);
    w := w0;
    if e.TradeAt? {
      w := CountTrade(plan.opening, Pnls(plan.events, i), e.amount, w);
    }
    var balance := w0.balance + e.amount;
    w := w.(balance := balance, series := w0.series + [PointAt(i, e, balance)]);
  }

  method WalkEvents(plan: Plan) returns (w: Walk)
    ensures WalkedTo(plan, |plan.events|, w)
  {
    w := Walk([], plan.opening, plan.opening, plan.opening, 0.0, 0, 0, 0, 0);
    WalkStart(plan);
    for i := 0 to |plan.events|
      invariant WalkedTo(plan, i, w)
    {
      w := HandleEvent(plan, i, w);
    }
  }

  /** The counting part of the loop body; a result of exactly 0 counts as a win here. */
  method TallyTrade(ghost pnls: seq<real>, pnl: real, wins0: nat, losses0: nat, streak0: nat, longest0: nat)
    returns (wins: nat, losses: nat, streak: nat, longest: nat)
    requires Tally(pnls, wins0, losses0, streak0, longest0)
    ensures Tally(pnls + [pnl], wins, losses, streak, longest)
  {
    TallyAppend(pnls, pnl, wins0, losses0, streak0, longest0);
    wins, losses, longest := wins0, losses0, longest0;
    if pnl >= 0.0 {
      wins, streak := wins + 1, 0;
    } else {
      losses, streak := losses + 1, streak0 + 1;
      longest := if streak > longest then streak else longest;
    }
  }

  /** The drawdown part of the loop body, on the trade-only curve. */
  method TrackTrade(opening: real, ghost pnls: seq<real>, pnl: real, trading0: real, peak0: real, drawdown0: real)
    returns (trading: real, peak: real, drawdown: real)
    requires Tracked(opening, pnls, trading0, peak0, drawdown0)
    ensures Tracked(opening, pnls + [pnl], trading, peak, drawdown)
  {
    trading := trading0 + pnl;
    peak := if trading > peak0 then trading else peak0;
    TrackedAppend(opening, pnls, pnl, trading0, peak0, drawdown0, peak, FallPct(peak, trading));
    drawdown := drawdown0;
    DrawdownNeverNegative(opening, pnls, drawdown);
    if peak > 0.0 {
      var fall := FallPct(peak, trading);
      drawdown := if fall > drawdown then fall else drawdown;
    }
  }

  lemma DrawdownNeverNegative(opening: real, pnls: seq<real>, drawdown: real)
    requires IsMaxDrawdownPct(opening, pnls, drawdown)
    ensures drawdown >= 0.0
  {
    EmptyCurve(opening);
    assert pnls[..0] == [];
    assert IsFallBelowPeak(opening, pnls, 0, FallPct(opening, Curve(opening, pnls, 0)));
  }

  datatype Report = Report(series: seq<Point>, stats: Stats, opening: real, source: Source)

  /** What is reported for a history: the points of its plan, and statistics over its trades by their definitions. */
  ghost predicate Reports(r: Report, trips: seq<RoundTrip>, broker: Option<real>, ops: seq<CashOp>, credit: real) {
    var plan := MakePlan(trips, broker, ops, credit);
    if Completed(trips) == [] then
      r == Report([], Stats(0, 0, 0, 0, 0.0, 0.0), DEFAULT_OPENING, Fallback)
    else
      && r.source == plan.source && r.opening == RoundTo(plan.opening, MONEY_DIGITS)
      && |r.series| == |plan.events| && (forall i :: 0 <= i < |r.series| ==> r.series[i] == PointOf(plan, i))
      && StatsOf(r.stats, Amounts(StableSort(Completed(trips))), plan.opening)
  }

  method ComputeBalanceSeries(trips: seq<RoundTrip>, broker: Option<real>, ops: seq<CashOp>, credit: real)
    returns (series: seq<Point>, stats: Stats, opening: real, source: Source)
    ensures Reports(Report(series, stats, opening, source), trips, broker, ops, credit)
  {
    hide MakePlan, StableSort, Completed, RoundTo, PointOf, Trades;
    if Completed(trips) == [] {
      return [], Stats(0, 0, 0, 0, 0.0, 0.0), DEFAULT_OPENING, Fallback;
    }
    var plan, trades := MakePlan(trips, broker, ops, credit), StableSort(Completed(trips));
    TradesIgnoreCashFlows(trips, broker, ops, credit);
    var w := WalkEvents(plan);
    assert plan.events[..|plan.events|] == plan.events;
    series := w.series;
    stats := Stats(|trades|, w.wins, w.losses, w.longest, RoundTo(w.drawdown, MONEY_DIGITS),
                   RoundTo(Sum(Amounts(trades)), MONEY_DIGITS));
    opening, source := RoundTo(plan.opening, MONEY_DIGITS), plan.source;
  }

  lemma SameTradesSameStats(s: Stats, s': Stats, pnls: seq<real>, opening: real, opening': real)
    requires StatsOf(s, pnls, opening) && StatsOf(s', pnls, opening')
    ensures s.(maxDrawdownPct := s'.maxDrawdownPct) == s'
    ensures opening == opening' ==> s == s'
  {
    var from: nat :| RunOf(pnls, Losing, from, s.longestLossStreak);
    var from': nat :| RunOf(pnls, Losing, from', s'.longestLossStreak);
    if opening == opening' {
      var d :| IsMaxDrawdownPct(opening, pnls, d) && s.maxDrawdownPct == RoundTo(d, MONEY_DIGITS);
      var d' :| IsMaxDrawdownPct(opening, pnls, d') && s'.maxDrawdownPct == RoundTo(d', MONEY_DIGITS);
      assert d <= d' && d' <= d;
    }
  }

  /** The reports of one history of trades under any two sets of cash flows, broker balances and credits agree on every
      statistic but the drawdown; on that too when the curves open at the same balance. */
  lemma StatsIgnoreCashFlows(r: Report, r': Report, trips: seq<RoundTrip>, broker: Option<real>, ops: seq<CashOp>,
                             credit: real, broker': Option<real>, ops': seq<CashOp>, credit': real)
    requires Reports(r, trips, broker, ops, credit) && Reports(r', trips, broker', ops', credit')
    ensures r.stats.(maxDrawdownPct := r'.stats.maxDrawdownPct) == r'.stats
    ensures MakePlan(trips, broker, ops, credit).opening == MakePlan(trips, broker', ops', credit').opening ==>
              r.stats == r'.stats
  {
    hide MakePlan, StatsOf, PointOf;
    if Completed(trips) != [] {
      SameTradesSameStats(r.stats, r'.stats, Amounts(StableSort(Completed(trips))),
                          MakePlan(trips, broker, ops, credit).opening,
                          MakePlan(trips, broker', ops', credit').opening);
    }
  }

  predicate Cents(amount: real) { OnGrid(amount, MONEY_DIGITS) }

  /** Every figure of the history is a whole number of cents. */
  ghost predicate InCents(trips: seq<RoundTrip>, broker: real, ops: seq<CashOp>) {
    && Cents(broker) && (forall op :: op in ops ==> Cents(op.amount))
    && forall e :: e in Completed(trips) ==> Cents(e.amount)
  }

  lemma CentsAddUp(x: real, y: real)
    requires Cents(x) && Cents(y)
    ensures Cents(x + y) && Cents(x - y)
  {
    SumOnGrid(x, y, MONEY_DIGITS);
  }

  lemma NothingInCents()
    ensures Cents(0.0)
  {
  }

  lemma {:induction false} NetFundingInCents(ops: seq<CashOp>)
    requires forall op :: op in ops ==> Cents(op.amount)
    ensures Cents(NetFunding(ops))
  {
    hide Cents;
    if ops == [] {
      NothingInCents();
    } else {
      NetFundingInCents(ops[..|ops| - 1]);
      assert ops[|ops| - 1] in ops;
      CentsAddUp(NetFunding(ops[..|ops| - 1]), ops[|ops| - 1].amount);
    }
  }

  lemma {:induction false} SumInCents(events: seq<Event>)
    requires forall e :: e in events ==> Cents(e.amount)
    ensures Cents(Sum(Amounts(events)))
  {
    hide Cents;
    if events == [] {
      NothingInCents();
    } else {
      var front, last := events[..|events| - 1], events[|events| - 1];
      SumInCents(front);
      assert last in events && events == front + [last];
      AmountsAppend(front, last);
      CentsAddUp(Sum(Amounts(front)), last.amount);
    }
  }

  /** Two balances in cents show as the same point exactly when they are the same. */
  lemma FirstPointsAgree(plan: Plan, older: Plan)
    requires plan.events == older.events && plan.events != []
    requires Cents(plan.opening) && Cents(older.opening) && Cents(plan.events[0].amount)
    ensures PointOf(plan, 0) == PointOf(older, 0) <==> plan.opening == older.opening
    ensures RoundTo(plan.opening, MONEY_DIGITS) == RoundTo(older.opening, MONEY_DIGITS) <==>
              plan.opening == older.opening
  {
    var first, xs := plan.events[0].amount, Amounts(plan.events);
    assert xs[..1] == [] + [first];
    SumAppend([], first);
    SumOnGrid(plan.opening, first, MONEY_DIGITS);
    SumOnGrid(older.opening, first, MONEY_DIGITS);
    RoundToGrid(plan.opening, MONEY_DIGITS);
    RoundToGrid(older.opening, MONEY_DIGITS);
    RoundToGrid(plan.opening + first, MONEY_DIGITS);
    RoundToGrid(older.opening + first, MONEY_DIGITS);
  }

  lemma FundedFirstInCents(trips: seq<RoundTrip>, broker: Option<real>, ops: seq<CashOp>, credit: real)
    requires MakePlan(trips, broker, ops, credit).source == ReconciledLedger
    requires Steps(ops, FirstActivity(trips).value) == [] && InCents(trips, broker.value, ops)
    ensures Completed(trips) != []
    ensures var plan, older := MakePlan(trips, broker, ops, credit), MakePlan(trips, broker, [], credit);
            && plan.events == older.events && plan.events != []
            && Cents(plan.opening) && Cents(older.opening) && Cents(plan.events[0].amount)
  {
    hide Cents;
    var trades := StableSort(Completed(trips));
    PlanWithoutSteps(trips, broker, ops, credit);
    PlanWithoutOps(trips, broker.value, credit);
    FirstActivityKnown(trips);
    StableSortMembers(Completed(trips));
    SumInCents(trades);
    NetFundingInCents(ops);
    assert trades[0] in trades;
    CentsAddUp(broker.value, Sum(Amounts(trades)));
  }

  lemma CurvesAgreeFromTheFirstPoint(r: Report, older: Report, trips: seq<RoundTrip>, broker: Option<real>,
                                     ops: seq<CashOp>, credit: real)
    requires Reports(r, trips, broker, ops, credit) && Reports(older, trips, broker, [], credit)
    requires Completed(trips) != []
    ensures var plan, plan' := MakePlan(trips, broker, ops, credit), MakePlan(trips, broker, [], credit);
            && r.opening == RoundTo(plan.opening, MONEY_DIGITS) && older.opening == RoundTo(plan'.opening, MONEY_DIGITS)
            && (plan.events == plan'.events && plan.opening == plan'.opening ==> r.series == older.series)
            && (plan.events != [] && plan'.events != [] && r.series == older.series ==>
                PointOf(plan, 0) == PointOf(plan', 0))
  {
    hide MakePlan, StatsOf;
  }

  /** What an account funded before trading is shown with its cash flows and without them. To the cent, the two curves
      are the same point for point exactly when the broker's balance is net funding plus trading result. */
  lemma SameCurveExactlyWhenBooksClose(r: Report, older: Report, trips: seq<RoundTrip>, broker: Option<real>,
                                       ops: seq<CashOp>, credit: real)
    requires Reports(r, trips, broker, ops, credit) && Reports(older, trips, broker, [], credit)
    requires MakePlan(trips, broker, ops, credit).source == ReconciledLedger
    requires Steps(ops, FirstActivity(trips).value) == [] && InCents(trips, broker.value, ops)
    ensures var closes := broker.value == NetFunding(ops) + Sum(Amounts(Completed(trips)));
            && (r.series == older.series <==> closes) && (r.opening == older.opening <==> closes)
            && (closes ==> r.stats == older.stats)
  {
    hide Reports, MakePlan, PointOf, Cents, StatsOf, StableSort, Completed, Tolerance;
    var plan, plan' := MakePlan(trips, broker, ops, credit), MakePlan(trips, broker, [], credit);
    FundingBeforeTradingShiftsWithinTolerance(trips, broker, ops, credit);
    FundedFirstInCents(trips, broker, ops, credit);
    FirstPointsAgree(plan, plan');
    StatsIgnoreCashFlows(r, older, trips, broker, ops, credit, broker, [], credit);
    CurvesAgreeFromTheFirstPoint(r, older, trips, broker, ops, credit);
  }

  lemma OneTrip()
    ensures var trips, trade := [RoundTrip(Some(1), Some(2), 1.0)], [TradeAt(2, 1.0)];
            && Completed(trips) == trade && StableSort(trade) == trade && FirstActivity(trips) == Some(1)
            && Sum(Amounts(trade)) == 1.0
  {
    var trips, trade := [RoundTrip(Some(1), Some(2), 1.0)], [TradeAt(2, 1.0)];
    assert trips[..0] == [] && trade[..0] == [];
    assert Amounts(trade) == [] + [1.0];
    SumAppend([], 1.0);
  }

  lemma OneTripPlans()
    ensures var trips, trade := [RoundTrip(Some(1), Some(2), 1.0)], [TradeAt(2, 1.0)];
            && Completed(trips) == trade
            && MakePlan(trips, Some(101.04), [CashOp(Some(0), 100.0)], 0.0) == Plan(100.0, ReconciledLedger, trade)
            && MakePlan(trips, Some(101.04), [], 0.0) == Plan(100.04, LastUsed, trade)
  {
    var trips, trade, ops := [RoundTrip(Some(1), Some(2), 1.0)], [TradeAt(2, 1.0)], [CashOp(Some(0), 100.0)];
    OneTrip();
    assert ops[..0] == [] && NetFunding(ops) == 100.0 && Steps(ops, 1) == [];
    assert Reconciles(trade, Some(101.04), ops, 0.0);
    PlanWithoutSteps(trips, Some(101.04), ops, 0.0);
    PlanWithoutOps(trips, 101.04, 0.0);
  }

  lemma CentsStay(n: int)
    ensures RoundTo(n as real / 100.0, MONEY_DIGITS) == n as real / 100.0
  {
    assert Pow10(MONEY_DIGITS) == 100.0;
    assert Scaled(n as real / 100.0, MONEY_DIGITS) == n as real;
  }

  /** One deposit before one trade, and a broker balance four cents off: the books count as reconciled, and the curve
      starts and ends four cents below the one drawn without the deposit. */
  lemma FourCentsShiftTheCurve(r: Report, older: Report)
    requires var trips := [RoundTrip(Some(1), Some(2), 1.0)];
             && Reports(r, trips, Some(101.04), [CashOp(Some(0), 100.0)], 0.0)
             && Reports(older, trips, Some(101.04), [], 0.0)
    ensures r.source == ReconciledLedger && older.source == LastUsed
    ensures r.opening == 100.0 && older.opening == 100.04
    ensures |r.series| == |older.series| == 1 && r.series[0].balance == 101.0 && older.series[0].balance == 101.04
  {
    hide MakePlan, StatsOf;
    OneTripPlans();
    var trade := [TradeAt(2, 1.0)];
    assert Amounts(trade)[..1] == [1.0];
    SumAppend([], 1.0);
    assert [] + [1.0] == [1.0];
    CentsStay(10000);
    CentsStay(10004);
    CentsStay(10100);
    CentsStay(10104);
  }
}
