/**
 The bar-by-bar simulator: at most one position, exits checked before entries on every bar, whatever is open at the end
 closed on the last bar. Both runners share the loop; they differ in the rules that say when to enter and to exit.
 */
module Backtest {
  import opened Common
  import opened Rounding
  import opened CurveStats

  const MONEY_DIGITS: nat := 2
  const PRICE_DIGITS: nat := 5

  datatype Bar = Bar(open: real, high: real, low: real, close: real)
  datatype Side = Buy | Sell
  datatype Reason = StopLoss | TakeProfit | SignalExit | EndOfData
  datatype Entry = Entry(side: Side, price: real, sl: real, tp: real)
  datatype Position = Position(entry: Entry, bar: nat)
  datatype Exit = Exit(price: real, reason: Reason)
  datatype Trade = Trade(number: nat, entryBar: nat, exitBar: nat, entry: Entry, exit: Exit, pnl: real,
                         shownEntry: real, shownExit: real)

  /** What one pip move of a position is worth. */
  datatype Money = Money(pipSize: real, pipValue: real, lots: real) {
    ghost predicate Valid() { pipSize > 0.0 && pipValue >= 0.0 && lots >= 0.0 }

    function Pips(side: Side, entry: real, exit: real): real
      requires pipSize != 0.0
    {
      if side == Buy then (exit - entry) / pipSize else (entry - exit) / pipSize
    }

    function Worth(pips: real): real { pips * pipValue * lots }

    function PnL(side: Side, entry: real, exit: real): real
      requires pipSize != 0.0
    {
      RoundTo(Worth(Pips(side, entry, exit)), MONEY_DIGITS)
    }
  }

  /** When a runner leaves a position at a bar, what it enters there, and its price for the forced exit at the end. */
  datatype Rules = Rules(exits: (Position, nat) -> Option<Exit>, enters: nat -> Option<Entry>, last: Position -> real)

  function Closed(number: nat, p: Position, bar: nat, exit: Exit, money: Money): Trade
    requires money.pipSize != 0.0
  {
    Trade(number, p.bar, bar, p.entry, exit, money.PnL(p.entry.side, p.entry.price, exit.price),
          RoundTo(p.entry.price, PRICE_DIGITS), RoundTo(exit.price, PRICE_DIGITS))
  }

  function PnLs(trades: seq<Trade>): (xs: seq<real>)
    ensures |xs| == |trades| && forall i :: 0 <= i < |xs| ==> xs[i] == trades[i].pnl
  {
    seq(|trades|, i requires 0 <= i < |trades| => trades[i].pnl)
  }

  // ---- What a correct list of trades is, independent of the loop --------------------------------------------------

  /** No exit rule fires on the bars strictly between entry and `bar`. */
  ghost predicate HeldUntil(rules: Rules, p: Position, bar: nat) {
    forall j :: p.bar < j < bar ==> rules.exits(p, j).None?
  }

  /** Entered where the entry rule says so, left at the first bar whose exit rule fires, or forced out at the end. */
  ghost predicate GoodTrade(rules: Rules, t: Trade, first: nat, n: nat, money: Money)
    requires money.pipSize != 0.0
  {
    var p := Position(t.entry, t.entryBar);
    && first <= t.entryBar <= t.exitBar < n
    && rules.enters(t.entryBar) == Some(t.entry)
    && HeldUntil(rules, p, t.exitBar)
    && t == Closed(t.number, p, t.exitBar, t.exit, money)
    && if t.exit.reason == EndOfData then
         t.exitBar == n - 1 && HeldUntil(rules, p, n) && t.exit.price == rules.last(p)
       else t.entryBar < t.exitBar && rules.exits(p, t.exitBar) == Some(t.exit)
  }

  /** Numbered from 1, ordered, and never overlapping: a trade may at most start on the bar its predecessor ended. */
  ghost predicate InSequence(trades: seq<Trade>) {
    && (forall k :: 0 <= k < |trades| ==> trades[k].number == k + 1)
    && (forall k, m :: 0 <= k < m < |trades| ==> trades[k].exitBar <= trades[m].entryBar)
    && (forall k :: 0 <= k < |trades| - 1 ==> trades[k].exit.reason != EndOfData)
  }

  /** The trade is open when bar `i` ends, or was opened or forced out there. */
  predicate Spans(t: Trade, i: nat) {
    t.entryBar <= i && (i < t.exitBar || i == t.entryBar || (i == t.exitBar && t.exit.reason == EndOfData))
  }

  ghost predicate InMarket(trades: seq<Trade>, i: nat) {
    exists k :: 0 <= k < |trades| && Spans(trades[k], i)
  }

  /** No entry signal is missed while flat. */
  ghost predicate NoSignalMissed(rules: Rules, trades: seq<Trade>, first: nat, n: nat) {
    forall i :: first <= i < n && rules.enters(i).Some? ==> InMarket(trades, i)
  }

  // ---- The loop ---------------------------------------------------------------------------------------------------

  /** The trades booked so far are good, in sequence, and all left before bar `bound`. */
  ghost predicate Booked(rules: Rules, trades: seq<Trade>, first: nat, n: nat, money: Money, bound: nat)
    requires money.pipSize != 0.0
  {
    && (forall k :: 0 <= k < |trades| ==> GoodTrade(rules, trades[k], first, n, money) && trades[k].exitBar < bound
                                          && trades[k].exit.reason != EndOfData)
    && InSequence(trades)
  }

  /** The open position was entered by rule after every booked trade, and no exit has fired before bar `i`. */
  ghost predicate Holding(rules: Rules, trades: seq<Trade>, p: Position, first: nat, i: nat) {
    && first <= p.bar < i && HeldUntil(rules, p, i) && rules.enters(p.bar) == Some(p.entry)
    && forall k :: 0 <= k < |trades| ==> trades[k].exitBar <= p.bar
  }

  /** Every signal before bar `i` is covered by a trade or by the open position. */
  ghost predicate Covered(rules: Rules, trades: seq<Trade>, position: Option<Position>, first: nat, i: nat) {
    forall j: nat :: first <= j < i && rules.enters(j).Some? ==>
      InMarket(trades, j) || (position.Some? && position.value.bar <= j)
  }

  lemma InMarketGrows(trades: seq<Trade>, t: Trade, i: nat)
    requires InMarket(trades, i) || Spans(t, i)
    ensures InMarket(trades + [t], i)
  {
    if InMarket(trades, i) {
      var k :| 0 <= k < |trades| && Spans(trades[k], i);
      assert (trades + [t])[k] == trades[k];
    } else {
      assert (trades + [t])[|trades|] == t;
    }
  }

  /** The trade that leaves the open position at bar `i`, by rule or by force, keeps the books in order. */
  lemma ClosingKeepsBooks(rules: Rules, trades: seq<Trade>, p: Position, t: Trade, first: nat, i: nat, n: nat,
                          money: Money)
    requires money.pipSize != 0.0 && Booked(rules, trades, first, n, money, i) && Holding(rules, trades, p, first, i)
    requires Covered(rules, trades, Some(p), first, i)
    requires t == Closed(|trades| + 1, p, t.exitBar, t.exit, money) && p.bar <= t.exitBar < n
    requires t.exitBar == i || (t.exitBar == i - 1 && t.exit.reason == EndOfData)
    requires if t.exit.reason == EndOfData then i == n && t.exit.price == rules.last(p)
             else rules.exits(p, i) == Some(t.exit)
    ensures GoodTrade(rules, t, first, n, money) && InSequence(trades + [t])
    ensures t.exit.reason != EndOfData ==> Booked(rules, trades + [t], first, n, money, i + 1)
    ensures Covered(rules, trades + [t], None, first, i)
  {
    forall j: nat | first <= j < i && rules.enters(j).Some? ensures InMarket(trades + [t], j) {
      InMarketGrows(trades, t, j);
    }
  }

  /** A bar on which the open position stays open; an entry signal there is covered by that position. */
  lemma HoldingKeepsBooks(rules: Rules, trades: seq<Trade>, p: Position, first: nat, i: nat, n: nat, money: Money)
    requires money.pipSize != 0.0 && Booked(rules, trades, first, n, money, i) && Holding(rules, trades, p, first, i)
    requires Covered(rules, trades, Some(p), first, i) && rules.exits(p, i).None?
    ensures Booked(rules, trades, first, n, money, i + 1) && Holding(rules, trades, p, first, i + 1)
    ensures Covered(rules, trades, Some(p), first, i + 1)
  {
  }

  function Enter(entry: Option<Entry>, i: nat): Option<Position> {
    if entry.Some? then Some(Position(entry.value, i)) else None
  }

  /** A bar that is flat once its exit was checked: the entry rule decides. */
  lemma EnteringKeepsBooks(rules: Rules, trades: seq<Trade>, first: nat, i: nat, n: nat, money: Money)
    requires money.pipSize != 0.0 && first <= i && Booked(rules, trades, first, n, money, i + 1)
    requires Covered(rules, trades, None, first, i)
    ensures var position := Enter(rules.enters(i), i);
            && (position.Some? ==> Holding(rules, trades, position.value, first, i + 1))
            && Covered(rules, trades, position, first, i + 1)
  {
  }

  lemma PnLsAppend(trades: seq<Trade>, t: Trade)
    ensures Sum(PnLs(trades + [t])) == Sum(PnLs(trades)) + t.pnl
  {
    assert PnLs(trades + [t]) == PnLs(trades) + [t.pnl];
    SumAppend(PnLs(trades), t.pnl);
  }

  method Simulate(rules: Rules, first: nat, n: nat, money: Money, initial: real)
    returns (trades: seq<Trade>, balance: real)
    requires first < n && money.Valid()
    requires forall p, j :: rules.exits(p, j).Some? ==> rules.exits(p, j).value.reason != EndOfData
    ensures forall k :: 0 <= k < |trades| ==> GoodTrade(rules, trades[k], first, n, money)
    ensures InSequence(trades) && NoSignalMissed(rules, trades, first, n)
    ensures balance == initial + Sum(PnLs(trades))
  {
    trades, balance := [], initial;
    var position: Option<Position> := None;
    var i := first;
    while i < n
      invariant first <= i <= n
      invariant Booked(rules, trades, first, n, money, i)
      invariant position.Some? ==> Holding(rules, trades, position.value, first, i)
      invariant Covered(rules, trades, position, first, i)
      invariant balance == initial + Sum(PnLs(trades))
    {
      if position.Some? {
        var exit := rules.exits(position.value, i);
        if exit.Some? {
          var t := Closed(|trades| + 1, position.value, i, exit.value, money);
          ClosingKeepsBooks(rules, trades, position.value, t, first, i, n, money);
          PnLsAppend(trades, t);
          trades, balance, position := trades + [t], balance + t.pnl, None;
        } else {
          HoldingKeepsBooks(rules, trades, position.value, first, i, n, money);
        }
      }
      if position.None? {
        EnteringKeepsBooks(rules, trades, first, i, n, money);
        position := Enter(rules.enters(i), i);
      }
      i := i + 1;
    }
    if position.Some? {
      var t := Closed(|trades| + 1, position.value, n - 1, Exit(rules.last(position.value), EndOfData), money);
      ClosingKeepsBooks(rules, trades, position.value, t, first, n, n, money);
      PnLsAppend(trades, t);
      trades, balance := trades + [t], balance + t.pnl;
    }
  }
}
