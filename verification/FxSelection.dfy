/** Which stored FX observation is used: the newest accepted one up to yesterday, unless it is too old. Dates are
    days. */
module FxSelection {
  import opened Common

  const MAX_STALENESS_DAYS := 7
  const BASE := "GBP"
  const QUOTE := "USD"

  datatype Row = Row(id: nat, base: string, quote: string, source: string, date: int, revision: nat, rate: real,
                     accepted: bool)

  /** The row used, and how many days before the target date it is. */
  datatype Selected = Selected(row: Row, ageDays: int)

  predicate Later(a: Row, b: Row) {
    a.date > b.date || (a.date == b.date && a.revision > b.revision)
  }

  predicate Accepted(r: Row, base: string, quote: string, source: string) {
    r.accepted && r.base == base && r.quote == quote && r.source == source
  }

  /** The first accepted row by descending date and revision, up to a date when one is given. */
  function Newest(rows: seq<Row>, base: string, quote: string, source: string, upTo: Option<int>): Option<Row> {
    if rows == [] then None
    else
      var best, last := Newest(rows[..|rows| - 1], base, quote, source, upTo), rows[|rows| - 1];
      if Accepted(last, base, quote, source) && (upTo.Some? ==> last.date <= upTo.value)
         && (best.None? || Later(last, best.value))
      then Some(last) else best
  }

  predicate Candidate(r: Row, base: string, quote: string, source: string, upTo: Option<int>) {
    Accepted(r, base, quote, source) && (upTo.Some? ==> r.date <= upTo.value)
  }

  lemma {:induction false} NewestIsMaximum(rows: seq<Row>, base: string, quote: string, source: string,
                                           upTo: Option<int>)
    ensures var n := Newest(rows, base, quote, source, upTo);
            && (n.Some? ==> n.value in rows && Candidate(n.value, base, quote, source, upTo))
            && forall r :: r in rows && Candidate(r, base, quote, source, upTo) ==> n.Some? && !Later(r, n.value)
  {
    if rows != [] {
      NewestIsMaximum(rows[..|rows| - 1], base, quote, source, upTo);
      assert forall r :: r in rows <==> r in rows[..|rows| - 1] || r == rows[|rows| - 1];
    }
  }

  function SelectObservation(rows: seq<Row>, base: string, quote: string, today: int,
                             source: string): Option<Selected> {
    var target := today - 1;
    var row := Newest(rows, base, quote, source, Some(target));
    if row.None? then None
    else if target - row.value.date > MAX_STALENESS_DAYS then None
    else Some(Selected(row.value, target - row.value.date))
  }

  /** A row the selection may use: accepted, and dated within the week that ends yesterday. */
  predicate Usable(r: Row, base: string, quote: string, today: int, source: string) {
    Accepted(r, base, quote, source) && today - 1 - MAX_STALENESS_DAYS <= r.date <= today - 1
  }

  /** The selection is the (date, revision) maximum of the usable rows, and refuses exactly when there is none. */
  lemma SelectionIsNewestUsable(rows: seq<Row>, base: string, quote: string, today: int, source: string)
    ensures var s := SelectObservation(rows, base, quote, today, source);
            && (s.Some? <==> exists r :: r in rows && Usable(r, base, quote, today, source))
            && (s.Some? ==> s.value.row in rows && Usable(s.value.row, base, quote, today, source)
                            && s.value.ageDays == today - 1 - s.value.row.date
                            && forall r :: r in rows && Accepted(r, base, quote, source) && r.date < today ==>
                                 !Later(r, s.value.row))
  {
    NewestIsMaximum(rows, base, quote, source, Some(today - 1));
    var n := Newest(rows, base, quote, source, Some(today - 1));
    forall r | r in rows && Usable(r, base, quote, today, source)
      ensures SelectObservation(rows, base, quote, today, source).Some?
    {
      assert Candidate(r, base, quote, source, Some(today - 1));
      assert !Later(r, n.value);
    }
    assert forall r :: Candidate(r, base, quote, source, Some(today - 1)) <==>
      Accepted(r, base, quote, source) && r.date < today;
  }

  /** Appending a row can only move the selection to a later one; revisions that are not accepted never move it. */
  lemma AppendingMovesForward(rows: seq<Row>, r: Row, base: string, quote: string, today: int, source: string)
    ensures var s, s' := SelectObservation(rows, base, quote, today, source),
                         SelectObservation(rows + [r], base, quote, today, source);
            && (s.Some? ==> s'.Some? && (s' == s || Later(s'.value.row, s.value.row)))
            && (!Usable(r, base, quote, today, source) ==> s' == s)
  {
    assert (rows + [r])[..|rows|] == rows;
  }

  // ---- Source priority --------------------------------------------------------------------------------------------

  /** The first source in order whose own selection yields a row. */
  function Prioritised(rows: seq<Row>, base: string, quote: string, today: int,
                       priority: seq<string>): Option<Selected> {
    if priority == [] then None
    else
      var s := SelectObservation(rows, base, quote, today, priority[0]);
      if s.Some? then s else Prioritised(rows, base, quote, today, priority[1..])
  }

  method SelectPrioritised(rows: seq<Row>, base: string, quote: string, today: int, priority: seq<string>)
    returns (s: Option<Selected>)
    ensures s == Prioritised(rows, base, quote, today, priority)
  {
    for i := 0 to |priority|
      invariant Prioritised(rows, base, quote, today, priority) == Prioritised(rows, base, quote, today, priority[i..])
    {
      var one := SelectObservation(rows, base, quote, today, priority[i]);
      if one.Some? {
        return one;
      }
      assert priority[i..][1..] == priority[i + 1..];
    }
    return None;
  }

  /** Exactly one source speaks: the first one that can; every source before it had nothing usable. */
  lemma {:induction false} FirstUsableSourceWins(rows: seq<Row>, base: string, quote: string, today: int,
                                                 priority: seq<string>)
    returns (i: nat)
    ensures i <= |priority|
    ensures forall j :: 0 <= j < i ==> SelectObservation(rows, base, quote, today, priority[j]).None?
    ensures var s := Prioritised(rows, base, quote, today, priority);
            if i == |priority| then s.None?
            else
              && s.Some? && s == SelectObservation(rows, base, quote, today, priority[i])
              && s.value.row.source == priority[i]
  {
    if priority == [] {
      i := 0;
    } else if SelectObservation(rows, base, quote, today, priority[0]).Some? {
      NewestIsMaximum(rows, base, quote, priority[0], Some(today - 1));
      i := 0;
    } else {
      var k := FirstUsableSourceWins(rows, base, quote, today, priority[1..]);
      i := k + 1;
      assert forall j :: 0 < j < i ==> priority[j] == priority[1..][j - 1];
    }
  }

  // ---- Health -----------------------------------------------------------------------------------------------------

  datatype Status = Healthy | Stale | Empty
  datatype Health = Health(status: Status, source: string, latest: Option<Row>, ageDays: Option<int>)

  function Latest(rows: seq<Row>, source: string): Option<Row> {
    Newest(rows, BASE, QUOTE, source, None)
  }

  function Convertible(rows: seq<Row>, today: int, source: string): bool {
    SelectObservation(rows, BASE, QUOTE, today, source).Some?
  }

  lemma ConvertibleHasLatest(rows: seq<Row>, today: int, source: string)
    requires Convertible(rows, today, source)
    ensures Latest(rows, source).Some?
  {
    NewestIsMaximum(rows, BASE, QUOTE, source, Some(today - 1));
    NewestIsMaximum(rows, BASE, QUOTE, source, None);
    var r := Newest(rows, BASE, QUOTE, source, Some(today - 1)).value;
    assert Candidate(r, BASE, QUOTE, source, None);
  }

  /** The first convertible source among the given ones. */
  ghost predicate FirstConvertible(rows: seq<Row>, today: int, sources: seq<string>, pick: Option<string>) {
    if pick.None? then forall i :: 0 <= i < |sources| ==> !Convertible(rows, today, sources[i])
    else exists i :: 0 <= i < |sources| && sources[i] == pick.value && Convertible(rows, today, sources[i])
                     && forall j :: 0 <= j < i ==> !Convertible(rows, today, sources[j])
  }

  /** A source with the freshest latest row of all, when any has one. */
  ghost predicate Freshest(rows: seq<Row>, sources: seq<string>, pick: Option<string>) {
    if pick.None? then forall i :: 0 <= i < |sources| ==> Latest(rows, sources[i]).None?
    else
      && pick.value in sources && Latest(rows, pick.value).Some?
      && forall i :: 0 <= i < |sources| && Latest(rows, sources[i]).Some? ==>
           Latest(rows, sources[i]).value.date <= Latest(rows, pick.value).value.date
  }

  method IngestionHealth(rows: seq<Row>, today: int, order: seq<string>) returns (h: Health)
    requires order != []
    ensures h.status == Healthy <==> Prioritised(rows, BASE, QUOTE, today, order).Some?
    ensures h.status == Healthy ==> h.source == Prioritised(rows, BASE, QUOTE, today, order).value.row.source
    ensures h.status == Empty <==> forall s :: s in order ==> Latest(rows, s).None?
    ensures h.status == Stale ==> Freshest(rows, order, Some(h.source))
    ensures h.status == Empty ==> h.source == order[0]
    ensures h.status != Empty ==> h.latest == Latest(rows, h.source) && h.latest.Some?
                                  && h.ageDays == Some(today - 1 - h.latest.value.date)
  {
    var convertible, freshest: Option<string> := None, None;
    for i := 0 to |order|
      invariant FirstConvertible(rows, today, order[..i], convertible) && Freshest(rows, order[..i], freshest)
    {
      assert order[..i + 1] == order[..i] + [order[i]];
      var source := order[i];
      var latest := Latest(rows, source);
      if latest.None? {
        assert !Convertible(rows, today, source) by {
          if Convertible(rows, today, source) { ConvertibleHasLatest(rows, today, source); }
        }
        continue;
      }
      if freshest.None? || latest.value.date > Latest(rows, freshest.value).value.date {
        freshest := Some(source);
      }
      if convertible.None? && Convertible(rows, today, source) {
        assert order[..i + 1][i] == source;
        convertible := Some(source);
      }
    }
    assert order[..|order|] == order;
    PickIsPrioritised(rows, today, order, convertible);
    if convertible.Some? { ConvertibleHasLatest(rows, today, convertible.value); }
    if convertible.None? && freshest.None? {
      return Health(Empty, order[0], None, None);
    }
    var picked := if convertible.Some? then convertible.value else freshest.value;
    var latest := Latest(rows, picked);
    h := Health(if convertible.Some? then Healthy else Stale, picked, latest, Some(today - 1 - latest.value.date));
  }

  /** The loop's pick is the source that prioritised selection uses. */
  lemma PickIsPrioritised(rows: seq<Row>, today: int, order: seq<string>, pick: Option<string>)
    requires FirstConvertible(rows, today, order, pick)
    ensures pick.Some? <==> Prioritised(rows, BASE, QUOTE, today, order).Some?
    ensures pick.Some? ==>
            pick.value == Prioritised(rows, BASE, QUOTE, today, order).value.row.source
            && pick.value in order
    ensures pick.Some? ==> Convertible(rows, today, pick.value)
  {
    var i := FirstUsableSourceWins(rows, BASE, QUOTE, today, order);
    if pick.Some? {
      var k :| 0 <= k < |order| && order[k] == pick.value && Convertible(rows, today, order[k])
               && forall j :: 0 <= j < k ==> !Convertible(rows, today, order[j]);
      assert i == k;
    } else if i < |order| {
      assert Convertible(rows, today, order[i]);
    }
  }

  /** The age in a healthy report is that of the rate in use exactly when the source holds no accepted row dated today
      or later: the report looks at the newest row of all, the selection only up to yesterday. */
  lemma HealthAgeIsSelectionAge(rows: seq<Row>, today: int, source: string)
    requires Convertible(rows, today, source)
    ensures Latest(rows, source).Some?
    ensures today - 1 - Latest(rows, source).value.date == SelectObservation(rows, BASE, QUOTE, today,
        source).value.ageDays
       <==> forall r :: r in rows && Accepted(r, BASE, QUOTE, source) ==> r.date < today
  {
    ConvertibleHasLatest(rows, today, source);
    NewestIsMaximum(rows, BASE, QUOTE, source, Some(today - 1));
    NewestIsMaximum(rows, BASE, QUOTE, source, None);
    var used, newest := SelectObservation(rows, BASE, QUOTE, today, source).value.row, Latest(rows, source).value;
    assert Candidate(newest, BASE, QUOTE, source, None) && Candidate(used, BASE, QUOTE, source, None);
    assert newest.date < today ==> Candidate(newest, BASE, QUOTE, source, Some(today - 1));
    assert newest.date < today ==> !Later(newest, used);
    assert !Later(used, newest);
    if newest.date == used.date {
      forall r | r in rows && Accepted(r, BASE, QUOTE, source) ensures r.date < today {
        assert Candidate(r, BASE, QUOTE, source, None);
        assert !Later(r, newest);
      }
    }
  }

  /** An observation dated today or later makes the report give its own age, which is negative, and not that of the row
      in use. */
  lemma TodaysRowChangesTheAge(usable: Row, newer: Row, today: int, source: string)
    requires Usable(usable, BASE, QUOTE, today, source) && Accepted(newer, BASE, QUOTE, source) && newer.date >= today
    ensures var rows := [usable, newer];
            && SelectObservation(rows, BASE, QUOTE, today, source) == Some(Selected(usable, today - 1 - usable.date))
            && Latest(rows, source) == Some(newer) && today - 1 - newer.date < 0 <= today - 1 - usable.date
  {
    assert [usable, newer][..1] == [usable] && [usable][..0] == [];
    assert Newest([usable], BASE, QUOTE, source, Some(today - 1)) == Some(usable);
    assert Newest([usable], BASE, QUOTE, source, None) == Some(usable);
  }

  // ---- The per-request rate source --------------------------------------------------------------------------------

  function Normalise(currency: string): string {
    if currency == "" then "USD" else currency
  }

  datatype Rate = Identity | Observed(selected: Selected)

  /** Selects once per pair and answers from its cache afterwards, whatever happens to the store meanwhile. */
  class StoredDbFxRateSource {
    const today: int
    const priority: seq<string>
    var cache: map<(string, string), Option<Selected>>

    constructor (today: int, priority: seq<string>)
      ensures this.today == today && this.priority == priority && cache == map[]
    {
      this.today, this.priority, cache := today, priority, map[];
    }

    /** What a pair selects from a store; a failing read selects nothing. */
    function Selection(pair: (string, string), rows: seq<Row>, fails: bool): Option<Selected> {
      if pair == (BASE, QUOTE) && !fails then Prioritised(rows, pair.0, pair.1, today, priority) else None
    }

    method Select(pair: (string, string), rows: seq<Row>, fails: bool) returns (s: Option<Selected>)
      modifies this
      ensures s == if pair in old(cache) then old(cache)[pair] else Selection(pair, rows, fails)
      ensures cache == old(cache)[pair := s]
    {
      if pair !in cache {
        s := None;
        if pair == (BASE, QUOTE) && !fails {
          s := SelectPrioritised(rows, pair.0, pair.1, today, priority);
        }
        cache := cache[pair := s];
      }
      s := cache[pair];
      assert cache == cache[pair := s];
    }

    /** The same currency converts at 1 without a lookup; every other pair at its selection, if it has one. */
    method GetRate(base: string, quote: string, rows: seq<Row>, fails: bool) returns (r: Option<Rate>)
      modifies this
      ensures Normalise(base) == Normalise(quote) ==> r == Some(Identity) && cache == old(cache)
      ensures Normalise(base) != Normalise(quote) ==>
                var pair := (Normalise(base), Normalise(quote));
                var s := if pair in old(cache) then old(cache)[pair] else Selection(pair, rows, fails);
                cache == old(cache)[pair := s] && r == if s.Some? then Some(Observed(s.value)) else None
      ensures forall pair :: pair in old(cache) ==> pair in cache && cache[pair] == old(cache)[pair]
    {
      var b, q := Normalise(base), Normalise(quote);
      if b == q {
        return Some(Identity);
      }
      var s := Select((b, q), rows, fails);
      r := if s.Some? then Some(Observed(s.value)) else None;
    }
  }

  /** Two conversions of one pair in one request use the same observation even if the store changed in between. */
  method AskTwice(source: StoredDbFxRateSource, base: string, quote: string, rows: seq<Row>, later: seq<Row>,
                  fails: bool, failsLater: bool)
    returns (first: Option<Rate>, second: Option<Rate>)
    modifies source
    ensures first == second
  {
    first := source.GetRate(base, quote, rows, fails);
    second := source.GetRate(base, quote, later, failsLater);
  }
}
