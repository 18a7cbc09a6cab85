/** Dollar totals over items in several currencies: what cannot be converted is left out of the sum and named. */
module UsdTotals {
  import opened Common
  import opened Rounding

  const USD := "USD"
  const MONEY_DIGITS: nat := 2

  datatype Item = Item(account: int, amount: Option<real>, currency: string)
  datatype Reason = RateUnavailable | AmountUnavailable | StaleRead
  datatype Category = CurrencyUnconvertible | MissingSnapshot | StaleObservation
  datatype Exclusion = Exclusion(account: int, native: Option<real>, currency: string, reason: Reason)
  datatype State = Ok | Partial | Unavailable | Empty
  datatype Why = Nothing | Only(category: Category) | Mixed

  /** An account's currency, blank meaning dollars; and the rate to dollars, when the source has one. */
  type Rates = string -> Option<real>

  function Normalise(currency: string): string {
    if currency == "" then USD else currency
  }

  datatype Conversion = Converted(usd: real) | Refused(reason: Reason)

  function AtRate(amount: real, rate: real): real { amount * rate }

  function ToUsd(amount: Option<real>, currency: string, rates: Rates): Conversion {
    if amount.None? then Refused(AmountUnavailable)
    else if Normalise(currency) == USD then Converted(amount.value)
    else
      var rate := rates(Normalise(currency));
      if rate.Some? && rate.value > 0.0 then Converted(AtRate(amount.value, rate.value)) else Refused(RateUnavailable)
  }

  function CategoryOf(reason: Reason): Category {
    match reason
    case RateUnavailable => CurrencyUnconvertible
    case AmountUnavailable => MissingSnapshot
    case StaleRead => StaleObservation
  }

  /** The value of an aggregate. */
  datatype Aggregate = Aggregate(total: real, partial: bool, converted: nat, unconverted: seq<Exclusion>) {
    function State(): State {
      if converted > 0 then if unconverted != [] then Partial else Ok
      else if unconverted != [] then Unavailable else Empty
    }

    /** The category all exclusions share, when they share one. */
    function Why(): Why {
      if unconverted == [] then Nothing
      else if forall e :: e in unconverted ==> CategoryOf(e.reason) == CategoryOf(unconverted[0].reason) then
        Only(CategoryOf(unconverted[0].reason))
      else Mixed
    }

    /** Partial exactly when something was left out. */
    ghost predicate Consistent() {
      partial <==> unconverted != []
    }
  }

  const NONE_YET := Aggregate(0.0, false, 0, [])

  function Excluded(item: Item, reason: Reason): Exclusion {
    Exclusion(item.account, item.amount, Normalise(item.currency), reason)
  }

  function Added(agg: Aggregate, item: Item, rates: Rates): Aggregate {
    match ToUsd(item.amount, item.currency, rates)
    case Converted(usd) => agg.(total := agg.total + usd, converted := agg.converted + 1)
    case Refused(reason) => agg.(partial := true, unconverted := agg.unconverted + [Excluded(item, reason)])
  }

  function Aggregated(items: seq<Item>, rates: Rates): (r: Aggregate)
    ensures r.converted + |r.unconverted| == |items| && r.Consistent()
    decreases items
  {
    if items == [] then NONE_YET else Added(Aggregated(items[..|items| - 1], rates), items[|items| - 1], rates)
  }

  /** The mutable record the source fills item by item. */
  class UsdAggregate {
    var totalUsd: real
    var partial: bool
    var convertedCount: nat
    var unconverted: seq<Exclusion>

    constructor ()
      ensures Value() == NONE_YET
    {
      totalUsd, partial, convertedCount, unconverted := 0.0, false, 0, [];
    }

    function Value(): Aggregate
      reads this
    {
      Aggregate(totalUsd, partial, convertedCount, unconverted)
    }
  }

  method AggregateUsd(items: seq<Item>, rates: Rates) returns (agg: UsdAggregate)
    ensures fresh(agg) && agg.Value() == Aggregated(items, rates)
  {
    hide ToUsd, Excluded;
    agg := new UsdAggregate();
    for i := 0 to |items|
      invariant fresh(agg) && agg.Value() == Aggregated(items[..i], rates)
    {
      assert items[..i + 1][..i] == items[..i];
      var it := items[i];
      match ToUsd(it.amount, it.currency, rates)
      case Converted(usd) =>
        agg.totalUsd := agg.totalUsd + usd;
        agg.convertedCount := agg.convertedCount + 1;
      case Refused(reason) =>
        agg.partial := true;
        agg.unconverted := agg.unconverted + [Excluded(it, reason)];
    }
    assert items[..|items|] == items;
  }

  // ---- Aggregating in parts ---------------------------------------------------------------------------------------

  function Combined(a: Aggregate, b: Aggregate): Aggregate {
    Aggregate(a.total + b.total, a.partial || b.partial, a.converted + b.converted, a.unconverted + b.unconverted)
  }

  lemma CombinedThenAdded(a: Aggregate, b: Aggregate, item: Item, rates: Rates)
    ensures Combined(a, Added(b, item, rates)) == Added(Combined(a, b), item, rates)
  {
    match ToUsd(item.amount, item.currency, rates)
    case Converted(usd) =>
    case Refused(reason) =>
      assert a.unconverted + (b.unconverted + [Excluded(item,
          reason)]) == a.unconverted + b.unconverted + [Excluded(item, reason)];
  }

  lemma AggregatedAppend(items: seq<Item>, last: Item, rates: Rates)
    ensures Aggregated(items + [last], rates) == Added(Aggregated(items, rates), last, rates)
  {
    assert (items + [last])[..|items|] == items;
  }

  lemma EmptyIsNeutral(a: Aggregate)
    ensures Combined(a, NONE_YET) == a
  {
  }

  /** Aggregating all items at once is combining the aggregates of any two parts. */
  lemma {:induction false} AggregationIsHomomorphic(xs: seq<Item>, ys: seq<Item>, rates: Rates)
    ensures Aggregated(xs + ys, rates) == Combined(Aggregated(xs, rates), Aggregated(ys, rates))
    decreases ys
  {
    if ys == [] {
      assert xs + ys == xs;
      EmptyIsNeutral(Aggregated(xs, rates));
    } else {
      var front, last := ys[..|ys| - 1], ys[|ys| - 1];
      assert ys == front + [last] && xs + ys == xs + front + [last];
      AggregationIsHomomorphic(xs, front, rates);
      AggregatedAppend(xs + front, last, rates);
      AggregatedAppend(front, last, rates);
      CombinedThenAdded(Aggregated(xs, rates), Aggregated(front, rates), last, rates);
    }
  }

  /** Every item is either in the sum at a positive rate or named among the exclusions. */
  lemma {:induction false} NoItemIsLost(items: seq<Item>, rates: Rates)
    ensures forall it :: it in items && ToUsd(it.amount, it.currency, rates).Refused? ==>
              Excluded(it, ToUsd(it.amount, it.currency, rates).reason) in Aggregated(items, rates).unconverted
    ensures Aggregated(items, rates).State() == Ok <==>
              items != [] && forall it :: it in items ==> ToUsd(it.amount, it.currency, rates).Converted?
    decreases items
  {
    if items != [] {
      var front, last := items[..|items| - 1], items[|items| - 1];
      NoItemIsLost(front, rates);
      assert forall it :: it in items <==> it in front || it == last;
      assert Aggregated(front, rates).unconverted == [] <==>
        forall it :: it in front ==> ToUsd(it.amount, it.currency, rates).Converted?;
    }
  }

  // ---- Open profit and loss of a portfolio ------------------------------------------------------------------------

  /** What one account's position read gave: its positions in native currency, or nothing. */
  datatype AccountOpen = Stale(account: int) | Read(account: int, items: seq<Item>)

  function ItemsOf(accounts: seq<AccountOpen>): seq<Item> {
    if accounts == [] then []
    else
      var front, last := ItemsOf(accounts[..|accounts| - 1]), accounts[|accounts| - 1];
      if last.Read? then front + last.items else front
  }

  function StaleIds(accounts: seq<AccountOpen>): seq<int> {
    if accounts == [] then []
    else
      var front, last := StaleIds(accounts[..|accounts| - 1]), accounts[|accounts| - 1];
      if last.Stale? then front + [last.account] else front
  }

  function StaleExclusions(ids: seq<int>): (r: seq<Exclusion>)
    ensures |r| == |ids|
  {
    seq(|ids|, i requires 0 <= i < |ids| => Exclusion(ids[i], None, "", StaleRead))
  }

  function WithStale(agg: Aggregate, staleIds: seq<int>): Aggregate {
    if staleIds == [] then agg else agg.(partial := true, unconverted := agg.unconverted + StaleExclusions(staleIds))
  }

  function OpenPl(accounts: seq<AccountOpen>, rates: Rates): Aggregate {
    WithStale(Aggregated(ItemsOf(accounts), rates), StaleIds(accounts))
  }

  /** The stale accounts join the exclusions of an aggregate, which is then partial. */
  method AddStale(agg: UsdAggregate, staleIds: seq<int>)
    modifies agg
    ensures agg.Value() == WithStale(old(agg.Value()), staleIds)
  {
    if staleIds != [] {
      agg.partial := true;
      for i := 0 to |staleIds|
        invariant agg.Value() == old(agg.Value()).(partial := true,
                                                   unconverted := old(agg.unconverted) + StaleExclusions(staleIds)[..i])
      {
        agg.unconverted := agg.unconverted + [Exclusion(staleIds[i], None, "", StaleRead)];
      }
    }
  }

  method PortfolioOpenPl(accounts: seq<AccountOpen>, rates: Rates) returns (agg: UsdAggregate, staleIds: seq<int>)
    ensures fresh(agg) && agg.Value() == OpenPl(accounts, rates) && staleIds == StaleIds(accounts)
  {
    var items: seq<Item> := [];
    staleIds := [];
    for i := 0 to |accounts|
      invariant items == ItemsOf(accounts[..i]) && staleIds == StaleIds(accounts[..i])
    {
      assert accounts[..i + 1][..i] == accounts[..i];
      if accounts[i].Stale? {
        staleIds := staleIds + [accounts[i].account];
        continue;
      }
      items := items + accounts[i].items;
    }
    assert accounts[..|accounts|] == accounts;
    agg := AggregateUsd(items, rates);
    AddStale(agg, staleIds);
  }

  /** One account's own aggregate, as its card shows it. */
  function AccountTotal(a: AccountOpen, rates: Rates): Aggregate {
    if a.Read? then Aggregated(a.items, rates) else NONE_YET
  }

  /** The per-account aggregates put together. */
  function AllAccounts(accounts: seq<AccountOpen>, rates: Rates): Aggregate
    decreases accounts
  {
    if accounts == [] then NONE_YET
    else Combined(AllAccounts(accounts[..|accounts| - 1], rates), AccountTotal(accounts[|accounts| - 1], rates))
  }

  lemma OneMoreAccount(items: seq<Item>, last: AccountOpen, rates: Rates)
    ensures Aggregated(if last.Read? then items + last.items else items, rates)
         == Combined(Aggregated(items, rates), AccountTotal(last, rates))
  {
    if last.Read? {
      AggregationIsHomomorphic(items, last.items, rates);
    } else {
      EmptyIsNeutral(Aggregated(items, rates));
    }
  }

  lemma {:induction false} ItemsAggregateLikeAccounts(accounts: seq<AccountOpen>, rates: Rates)
    ensures Aggregated(ItemsOf(accounts), rates) == AllAccounts(accounts, rates)
    decreases accounts
  {
    if accounts != [] {
      var front, last := accounts[..|accounts| - 1], accounts[|accounts| - 1];
      ItemsAggregateLikeAccounts(front, rates);
      OneMoreAccount(ItemsOf(front), last, rates);
    }
  }

  function SumOfTotals(accounts: seq<AccountOpen>, rates: Rates): real
    decreases accounts
  {
    if accounts == [] then 0.0
    else SumOfTotals(accounts[..|accounts| - 1], rates) + AccountTotal(accounts[|accounts| - 1], rates).total
  }

  ghost predicate Incomplete(a: AccountOpen, rates: Rates) {
    a.Stale? || AccountTotal(a, rates).partial
  }

  lemma {:induction false} AccountsTogether(accounts: seq<AccountOpen>, rates: Rates)
    ensures AllAccounts(accounts, rates).total == SumOfTotals(accounts, rates)
    ensures AllAccounts(accounts, rates).partial || StaleIds(accounts) != [] <==>
              exists a :: a in accounts && Incomplete(a, rates)
    decreases accounts
  {
    if accounts != [] {
      var front, last := accounts[..|accounts| - 1], accounts[|accounts| - 1];
      AccountsTogether(front, rates);
      assert forall a :: a in accounts <==> a in front || a == last;
      assert (exists a :: a in accounts && Incomplete(a, rates))
        <==> (exists a :: a in front && Incomplete(a, rates)) || Incomplete(last, rates) by {
        assert last in accounts;
      }
      assert AllAccounts(accounts, rates) == Combined(AllAccounts(front, rates), AccountTotal(last, rates));
      assert StaleIds(accounts) != [] <==> StaleIds(front) != [] || last.Stale?;
    }
  }

  /** The top-level figure is the sum of the per-account figures, and it is partial exactly when some account was
      stale or itself partial: re-aggregating never hides an exclusion. */
  lemma TopLevelIsSumOfAccounts(accounts: seq<AccountOpen>, rates: Rates)
    ensures OpenPl(accounts, rates).total == SumOfTotals(accounts, rates)
    ensures OpenPl(accounts, rates).Consistent()
    ensures OpenPl(accounts, rates).partial <==> exists a :: a in accounts && Incomplete(a, rates)
  {
    ItemsAggregateLikeAccounts(accounts, rates);
    AccountsTogether(accounts, rates);
  }

  lemma {:induction false} StaleIdsNamesAll(accounts: seq<AccountOpen>)
    ensures forall a :: a in accounts && a.Stale? ==> a.account in StaleIds(accounts)
  {
    if accounts != [] {
      StaleIdsNamesAll(accounts[..|accounts| - 1]);
      assert forall a :: a in accounts <==> a in accounts[..|accounts| - 1] || a == accounts[|accounts| - 1];
    }
  }

  /** A stale account is always named, and the total is then never shown as complete. */
  lemma StaleAccountsAreNamed(accounts: seq<AccountOpen>, rates: Rates, a: AccountOpen)
    requires a in accounts && a.Stale?
    ensures var agg := OpenPl(accounts, rates);
            && Exclusion(a.account, None, "", StaleRead) in agg.unconverted
            && (agg.State() == Partial || agg.State() == Unavailable) && agg.Why() != Nothing
  {
    StaleIdsNamesAll(accounts);
    var ids := StaleIds(accounts);
    var i :| 0 <= i < |ids| && ids[i] == a.account;
    assert StaleExclusions(ids)[i] == Exclusion(a.account, None, "", StaleRead);
    assert StaleExclusions(ids)[i] in StaleExclusions(ids);
  }

  function SumOfShown(accounts: seq<AccountOpen>, rates: Rates): real
    decreases accounts
  {
    if accounts == [] then 0.0
    else SumOfShown(accounts[..|accounts| - 1], rates) + RoundTo(AccountTotal(accounts[|accounts| - 1], rates).total,
        MONEY_DIGITS)
  }

  /** The rounded figures on the cards add up to the sum of the exact ones within half a cent per card. */
  lemma {:induction false} CardsAddUp(accounts: seq<AccountOpen>, rates: Rates)
    ensures var slack := Steps(|accounts|, HalfUnit(MONEY_DIGITS));
            SumOfShown(accounts, rates) - slack <= SumOfTotals(accounts, rates) <= SumOfShown(accounts, rates) + slack
    decreases accounts
  {
    if accounts == [] {
      assert Steps(0, HalfUnit(MONEY_DIGITS)) == 0.0;
    } else {
      var n := |accounts| - 1;
      CardsAddUp(accounts[..n], rates);
      RoundToWithin(AccountTotal(accounts[n], rates).total, MONEY_DIGITS);
      OneMoreStep(n, HalfUnit(MONEY_DIGITS));
    }
  }

  lemma OneMoreStep(n: int, step: real)
    ensures Steps(n + 1, step) == Steps(n, step) + step
  {
  }
}
