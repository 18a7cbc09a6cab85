/** Raw broker deals become one position record each; prices, profit and costs come from the position's own legs. */
module DealIngest {
  import opened Common
  import opened Rounding

  const OPENING := 0
  const CLOSING := 1
  const REVERSING := 2
  const CLOSING_BY := 3
  const VOLUME_SLACK: real := 0.000000001
  const PRICE_DIGITS: nat := 5

  /** A deal as the worker reads it: a missing or unreadable number counts as 0, a missing time as none. */
  datatype Deal = Deal(positionId: string, ticket: Option<int>, entry: Option<int>, buy: bool, volume: real,
                       price: real,
                       profit: real, commission: real, swap: real, time: Option<int>, symbol: string, comment: string,
                       magic: Option<int>)

  datatype Position = Position(id: string, symbol: string, buy: bool, volume: real, openTime: Option<int>,
                               openPrice: real, closeTime: Option<int>, closePrice: Option<real>, profit: real,
                               commission: real, swap: real, comment: string, magic: Option<int>)

  predicate Opens(d: Deal) { d.entry == Some(OPENING) }
  predicate Closes(d: Deal) { d.entry == Some(CLOSING) || d.entry == Some(CLOSING_BY) }
  predicate Reverses(d: Deal) { d.entry == Some(REVERSING) }

  /** The worth of a volume at a price. */
  function Worth(price: real, volume: real): real { price * volume }

  function Volume(d: Deal): real { d.volume }
  function Turnover(d: Deal): real { Worth(d.price, d.volume) }
  function Profit(d: Deal): real { d.profit }
  function Commission(d: Deal): real { d.commission }
  function Swap(d: Deal): real { d.swap }

  function Filter(deals: seq<Deal>, keep: Deal -> bool): seq<Deal>
    decreases deals
  {
    if deals == [] then []
    else
      var front, last := Filter(deals[..|deals| - 1], keep), deals[|deals| - 1];
      if keep(last) then front + [last] else front
  }

  predicate AnyOf(deals: seq<Deal>, keep: Deal -> bool) {
    exists d :: d in deals && keep(d)
  }

  lemma {:induction false} FilterMembers(deals: seq<Deal>, keep: Deal -> bool)
    ensures forall d :: d in Filter(deals, keep) <==> d in deals && keep(d)
    ensures Filter(deals, keep) != [] <==> AnyOf(deals, keep)
    decreases deals
  {
    if deals != [] {
      var front, last := deals[..|deals| - 1], deals[|deals| - 1];
      FilterMembers(front, keep);
      assert forall d :: d in deals <==> d in front || d == last;
      if Filter(deals, keep) != [] { assert Filter(deals, keep)[0] in Filter(deals, keep); }
    }
  }

  function SumOf(deals: seq<Deal>, field: Deal -> real): real
    decreases deals
  {
    if deals == [] then 0.0 else SumOf(deals[..|deals| - 1], field) + field(deals[|deals| - 1])
  }

  lemma SumOfAppend(deals: seq<Deal>, d: Deal, field: Deal -> real)
    ensures SumOf(deals + [d], field) == SumOf(deals, field) + field(d)
  {
    assert (deals + [d])[..|deals|] == deals;
  }

  // ---- One deal, one identity -------------------------------------------------------------------------------------

  /** The same MT5 deal seen again: same position, ticket and entry. A deal without a ticket never repeats another. */
  predicate Same(d: Deal, e: Deal) {
    d.ticket.Some? && d.ticket == e.ticket && d.entry == e.entry && d.positionId == e.positionId
  }

  predicate Repeats(deals: seq<Deal>, d: Deal) {
    exists e :: e in deals && Same(d, e)
  }

  /** The first sighting of every deal, in order. */
  function Dedup(deals: seq<Deal>): seq<Deal> {
    if deals == [] then []
    else
      var front, last := deals[..|deals| - 1], deals[|deals| - 1];
      if Repeats(front, last) then Dedup(front) else Dedup(front) + [last]
  }

  lemma DedupAppend(deals: seq<Deal>, d: Deal)
    ensures Dedup(deals + [d]) == if Repeats(deals, d) then Dedup(deals) else Dedup(deals) + [d]
  {
    assert (deals + [d])[..|deals|] == deals;
  }

  ghost predicate NoRepeats(deals: seq<Deal>) {
    forall i, j :: 0 <= i < j < |deals| ==> !Same(deals[j], deals[i])
  }

  /** No deal is counted twice, and no deal is lost: every deal is kept or repeats one that is. */
  lemma {:induction false} DedupKeepsEachOnce(deals: seq<Deal>)
    ensures NoRepeats(Dedup(deals))
    ensures forall d :: d in Dedup(deals) ==> d in deals
    ensures forall d :: d in deals ==> d in Dedup(deals) || Repeats(Dedup(deals), d)
  {
    if deals != [] {
      var front, last := deals[..|deals| - 1], deals[|deals| - 1];
      DedupKeepsEachOnce(front);
      var r := Dedup(front);
      assert forall d :: d in deals ==> d in front || d == last;
      if Repeats(front, last) {
        var e :| e in front && Same(last, e);
        if e !in r {
          var f :| f in r && Same(e, f);
          assert Same(last, f);
        }
      } else {
        assert forall i :: 0 <= i < |r| ==> r[i] in front;
      }
    }
  }

  /** The legs of one position, in the order of the snapshot. */
  function Of(deals: seq<Deal>, id: string): seq<Deal> {
    if deals == [] then []
    else
      var front, last := Of(deals[..|deals| - 1], id), deals[|deals| - 1];
      if last.positionId == id then front + [last] else front
  }

  lemma OfAppend(deals: seq<Deal>, d: Deal, id: string)
    ensures Of(deals + [d], id) == if d.positionId == id then Of(deals, id) + [d] else Of(deals, id)
  {
    assert (deals + [d])[..|deals|] == deals;
  }

  lemma {:induction false} OfMembers(deals: seq<Deal>, id: string)
    ensures forall d :: d in Of(deals, id) <==> d in deals && d.positionId == id
  {
    if deals != [] {
      var front, last := deals[..|deals| - 1], deals[|deals| - 1];
      OfMembers(front, id);
      assert forall d :: d in deals <==> d in front || d == last;
    }
  }

  /** Whether a deal repeats another is decided within its position. */
  lemma RepeatsWithinPosition(deals: seq<Deal>, d: Deal)
    ensures Repeats(deals, d) <==> Repeats(Of(deals, d.positionId), d)
  {
    OfMembers(deals, d.positionId);
    if Repeats(deals, d) {
      var e :| e in deals && Same(d, e);
      assert e in Of(deals, d.positionId);
    }
  }

  /** Dropping repeats position by position is dropping them from the whole snapshot. */
  lemma {:induction false} OfDedup(deals: seq<Deal>, id: string)
    ensures Of(Dedup(deals), id) == Dedup(Of(deals, id))
  {
    if deals != [] {
      var front, last := deals[..|deals| - 1], deals[|deals| - 1];
      OfDedup(front, id);
      assert deals == front + [last];
      DedupAppend(front, last);
      OfAppend(front, last, id);
      if last.positionId == id {
        RepeatsWithinPosition(front, last);
        DedupAppend(Of(front, id), last);
      }
      OfAppend(Dedup(front), last, id);
    }
  }

  // ---- One position -----------------------------------------------------------------------------------------------

  predicate IsId(id: string) { id != "" && id != "0" }

  /** Positions are handled in the order in which they first appear. */
  function Ids(deals: seq<Deal>): (r: seq<string>)
    ensures forall i, j :: 0 <= i < j < |r| ==> r[i] != r[j]
  {
    if deals == [] then []
    else
      var front, id := Ids(deals[..|deals| - 1]), deals[|deals| - 1].positionId;
      if IsId(id) && id !in front then front + [id] else front
  }

  lemma {:induction false} IdsMembers(deals: seq<Deal>)
    ensures forall id :: id in Ids(deals) ==> IsId(id)
    ensures forall d :: d in deals && IsId(d.positionId) ==> d.positionId in Ids(deals)
    ensures forall id :: id in Ids(deals) ==> Of(deals, id) != []
    ensures forall id :: IsId(id) && Of(deals, id) != [] ==> id in Ids(deals)
  {
    if deals != [] {
      var front, last := deals[..|deals| - 1], deals[|deals| - 1];
      IdsMembers(front);
      assert forall d :: d in deals <==> d in front || d == last;
    }
  }

  function Earliest(legs: seq<Deal>): Option<int> {
    if legs == [] then None
    else
      var rest, d := Earliest(legs[..|legs| - 1]), legs[|legs| - 1];
      if d.time.Some? && (rest.None? || d.time.value < rest.value) then d.time else rest
  }

  function Latest(legs: seq<Deal>): Option<int> {
    if legs == [] then None
    else
      var rest, d := Latest(legs[..|legs| - 1]), legs[|legs| - 1];
      if d.time.Some? && (rest.None? || rest.value < d.time.value) then d.time else rest
  }

  /** The open time is the earliest known leg time, the close time the latest; unknown only when every leg's is. */
  lemma {:induction false} TimesAreExtremes(legs: seq<Deal>)
    ensures forall d :: d in legs && d.time.Some? ==>
              Earliest(legs).Some? && Earliest(legs).value <= d.time.value
              && Latest(legs).Some? && d.time.value <= Latest(legs).value
    ensures Earliest(legs).Some? ==> exists d :: d in legs && d.time == Earliest(legs)
    ensures Latest(legs).Some? ==> exists d :: d in legs && d.time == Latest(legs)
  {
    if legs != [] {
      var front, last := legs[..|legs| - 1], legs[|legs| - 1];
      TimesAreExtremes(front);
      assert forall d :: d in legs <==> d in front || d == last;
    }
  }

  /** The opening volume; when the legs cancel to 0 the first leg's own volume stands in. */
  function InVolume(ins: seq<Deal>): real
    requires ins != []
  {
    if SumOf(ins, Volume) != 0.0 then SumOf(ins, Volume) else ins[0].volume
  }

  /** Volume-weighted price of some legs; without volume, the price of a fallback leg. */
  function Weighted(legs: seq<Deal>, volume: real, fallback: real): real {
    if volume != 0.0 then SumOf(legs, Turnover) / volume else fallback
  }

  /** Out volume covers in volume; a partial close leaves the position open. */
  predicate Covers(ins: seq<Deal>, outs: seq<Deal>)
    requires ins != []
  {
    outs != [] && SumOf(outs, Volume) + VOLUME_SLACK >= InVolume(ins)
  }

  function Record(id: string, legs: seq<Deal>, ins: seq<Deal>, outs: seq<Deal>): Position
    requires ins != []
  {
    var closed := Covers(ins, outs);
    Position(id, ins[0].symbol, ins[0].buy, InVolume(ins),
             Earliest(ins), RoundTo(Weighted(ins, InVolume(ins), ins[0].price), PRICE_DIGITS),
             if closed then Latest(outs) else None,
             if closed then Some(RoundTo(Weighted(outs, SumOf(outs, Volume), outs[|outs| - 1].price),
                 PRICE_DIGITS)) else None,
             SumOf(if closed then outs else legs, Profit), SumOf(legs, Commission), SumOf(legs, Swap),
             ins[0].comment, ins[0].magic)
  }

  /** A reversal on a netting account is quarantined; a position without an opening leg is no trade. */
  function BuildOne(id: string, legs: seq<Deal>): Option<Position> {
    var ins := Filter(legs, Opens);
    if Filter(legs, Reverses) != [] || ins == [] then None
    else Some(Record(id, legs, ins, Filter(legs, Closes)))
  }

  function BuildAll(ids: seq<string>, deals: seq<Deal>): seq<Position> {
    if ids == [] then []
    else
      var front, last := BuildAll(ids[..|ids| - 1], deals), BuildOne(ids[|ids| - 1], Dedup(Of(deals, ids[|ids| - 1])));
      if last.Some? then front + [last.value] else front
  }

  function Build(deals: seq<Deal>): seq<Position> {
    BuildAll(Ids(deals), deals)
  }

  // ---- The loops --------------------------------------------------------------------------------------------------

  method DropRepeats(deals: seq<Deal>, id: string) returns (kept: seq<Deal>)
    requires forall d :: d in deals ==> d.positionId == id
    ensures kept == Dedup(deals)
  {
    kept := [];
    var seen: set<(int, Option<int>)> := {};
    for i := 0 to |deals|
      invariant kept == Dedup(deals[..i])
      invariant forall d :: d in deals && d.ticket.Some? ==>
                  ((d.ticket.value, d.entry) in seen <==> Repeats(deals[..i], d))
    {
      var d := deals[i];
      assert deals[..i + 1] == deals[..i] + [d];
      DedupAppend(deals[..i], d);
      assert forall e :: e in deals && e.ticket.Some? ==>
        (Repeats(deals[..i + 1], e) <==> Repeats(deals[..i], e) || Same(e, d));
      if d.ticket.Some? {
        if (d.ticket.value, d.entry) in seen {
          continue;
        }
        seen := seen + {(d.ticket.value, d.entry)};
      }
      kept := kept + [d];
    }
    assert deals[..|deals|] == deals;
  }

  ghost predicate Grouped(deals: seq<Deal>, order: seq<string>, byPosition: map<string, seq<Deal>>) {
    && order == Ids(deals) && (forall id :: id in byPosition <==> id in order)
    && forall id :: id in byPosition ==> byPosition[id] == Of(deals, id)
  }

  lemma GroupedAppend(deals: seq<Deal>, d: Deal, order: seq<string>, byPosition: map<string, seq<Deal>>)
    requires Grouped(deals, order, byPosition)
    ensures !IsId(d.positionId) ==> Grouped(deals + [d], order, byPosition)
    ensures IsId(d.positionId) ==>
              var id := d.positionId;
              if id in byPosition then Grouped(deals + [d], order, byPosition[id := byPosition[id] + [d]])
              else Grouped(deals + [d], order + [id], byPosition[id := [d]])
  {
    assert (deals + [d])[..|deals|] == deals;
    forall id ensures Of(deals + [d], id) == if d.positionId == id then Of(deals, id) + [d] else Of(deals, id) {
      OfAppend(deals, d, id);
    }
    IdsMembers(deals);
  }

  method Group(deals: seq<Deal>) returns (order: seq<string>, byPosition: map<string, seq<Deal>>)
    ensures Grouped(deals, order, byPosition)
  {
    order, byPosition := [], map[];
    for i := 0 to |deals|
      invariant Grouped(deals[..i], order, byPosition)
    {
      var d := deals[i];
      assert deals[..i + 1] == deals[..i] + [d];
      GroupedAppend(deals[..i], d, order, byPosition);
      if IsId(d.positionId) {
        if d.positionId !in byPosition {
          order, byPosition := order + [d.positionId], byPosition[d.positionId := []];
        }
        byPosition := byPosition[d.positionId := byPosition[d.positionId] + [d]];
      }
    }
    assert deals[..|deals|] == deals;
  }

  /** One position from its legs, repeats included. */
  method BuildPosition(id: string, legs: seq<Deal>) returns (p: Option<Position>)
    requires forall d :: d in legs ==> d.positionId == id
    ensures p == BuildOne(id, Dedup(legs))
  {
    var kept := DropRepeats(legs, id);
    var ins, outs := Filter(kept, Opens), Filter(kept, Closes);
    if Filter(kept, Reverses) != [] {
      return None;
    }
    if ins == [] {
      return None;
    }
    return Some(Record(id, kept, ins, outs));
  }

  lemma BuildAllNext(order: seq<string>, i: nat, deals: seq<Deal>)
    requires i < |order|
    ensures var one, front := BuildOne(order[i], Dedup(Of(deals, order[i]))), BuildAll(order[..i], deals);
            BuildAll(order[..i + 1], deals) == if one.Some? then front + [one.value] else front
  {
    assert order[..i + 1][..i] == order[..i];
  }

  method BuildPositionsFromDeals(deals: seq<Deal>) returns (positions: seq<Position>)
    ensures positions == Build(deals)
  {
    var order, byPosition := Group(deals);
    positions := [];
    for i := 0 to |order|
      invariant positions == BuildAll(order[..i], deals)
    {
      assert order[i] in byPosition;
      OfMembers(deals, order[i]);
      BuildAllNext(order, i, deals);
      var p := BuildPosition(order[i], byPosition[order[i]]);
      positions := if p.Some? then positions + [p.value] else positions;
    }
    assert order[..|order|] == order;
  }

  // ---- Replays ----------------------------------------------------------------------------------------------------

  lemma {:induction false} BuildAllDependsOnLegs(ids: seq<string>, deals: seq<Deal>, deals': seq<Deal>)
    requires forall id :: id in ids ==> Dedup(Of(deals, id)) == Dedup(Of(deals', id))
    ensures BuildAll(ids, deals) == BuildAll(ids, deals')
  {
    if ids != [] {
      BuildAllDependsOnLegs(ids[..|ids| - 1], deals, deals');
      assert ids[|ids| - 1] in ids;
    }
  }

  lemma SeenDealChangesNothing(deals: seq<Deal>, d: Deal)
    requires Repeats(deals, d)
    ensures Build(deals + [d]) == Build(deals)
  {
    assert (deals + [d])[..|deals|] == deals;
    RepeatsWithinPosition(deals, d);
    IdsMembers(deals);
    assert Ids(deals + [d]) == Ids(deals);
    forall id ensures Dedup(Of(deals + [d], id)) == Dedup(Of(deals, id)) {
      OfAppend(deals, d, id);
      if d.positionId == id { DedupAppend(Of(deals, id), d); }
    }
    BuildAllDependsOnLegs(Ids(deals), deals + [d], deals);
  }

  /** Appending deals that were already seen, whatever they now say, leaves every built position unchanged. */
  lemma {:induction false} ReplayedDealsChangeNothing(deals: seq<Deal>, again: seq<Deal>)
    requires forall d :: d in again ==> Repeats(deals, d)
    ensures Build(deals + again) == Build(deals)
  {
    if again == [] {
      assert deals + again == deals;
    } else {
      var front, last := again[..|again| - 1], again[|again| - 1];
      ReplayedDealsChangeNothing(deals, front);
      assert deals + again == deals + front + [last];
      assert last in again;
      var e :| e in deals && Same(last, e);
      assert e in deals + front;
      SeenDealChangesNothing(deals + front, last);
    }
  }

  // ---- Conservation -----------------------------------------------------------------------------------------------

  predicate Emitted(deals: seq<Deal>, id: string) {
    IsId(id) && AnyOf(Of(deals, id), Opens) && !AnyOf(Of(deals, id), Reverses)
  }

  lemma {:induction false} DedupKeepsKinds(deals: seq<Deal>, kind: Deal -> bool)
    requires forall d, e :: Same(d, e) ==> kind(d) == kind(e)
    ensures AnyOf(Dedup(deals), kind) <==> AnyOf(deals, kind)
  {
    DedupKeepsEachOnce(deals);
    if AnyOf(deals, kind) {
      var d :| d in deals && kind(d);
      if d !in Dedup(deals) {
        var e :| e in Dedup(deals) && Same(d, e);
        assert kind(e);
      }
    }
  }

  lemma EmittedExactlyWhenBuilt(deals: seq<Deal>, id: string)
    requires IsId(id)
    ensures BuildOne(id, Dedup(Of(deals, id))).Some? <==> Emitted(deals, id)
  {
    var legs := Of(deals, id);
    DedupKeepsKinds(legs, Opens);
    DedupKeepsKinds(legs, Reverses);
    FilterMembers(Dedup(legs), Opens);
    FilterMembers(Dedup(legs), Reverses);
  }

  ghost predicate DistinctIds(ps: seq<Position>) {
    forall i, j :: 0 <= i < j < |ps| ==> ps[i].id != ps[j].id
  }

  /** Exactly the positions with an opening leg and no reversal are built, each once. */
  lemma {:induction false} BuildAllIds(ids: seq<string>, deals: seq<Deal>)
    requires forall i, j :: 0 <= i < j < |ids| ==> ids[i] != ids[j]
    requires forall id :: id in ids ==> IsId(id)
    ensures forall p :: p in BuildAll(ids, deals) ==> p.id in ids && Emitted(deals, p.id)
    ensures forall p :: p in BuildAll(ids, deals) ==> BuildOne(p.id, Dedup(Of(deals, p.id))) == Some(p)
    ensures forall id :: id in ids && Emitted(deals, id) ==> exists p :: p in BuildAll(ids, deals) && p.id == id
    ensures DistinctIds(BuildAll(ids, deals))
  {
    if ids != [] {
      var front, id := ids[..|ids| - 1], ids[|ids| - 1];
      assert id in ids;
      BuildAllIds(front, deals);
      EmittedExactlyWhenBuilt(deals, id);
      assert id !in front;
      var one := BuildOne(id, Dedup(Of(deals, id)));
      if one.Some? {
        assert BuildAll(ids, deals)[|BuildAll(front, deals)|] == one.value;
      }
    }
  }

  lemma BuildIds(deals: seq<Deal>)
    ensures forall p :: p in Build(deals) ==> Emitted(deals, p.id) && BuildOne(p.id, Dedup(Of(deals, p.id))) == Some(p)
    ensures forall id :: Emitted(deals, id) ==> exists p :: p in Build(deals) && p.id == id
    ensures DistinctIds(Build(deals))
  {
    IdsMembers(deals);
    BuildAllIds(Ids(deals), deals);
  }

  function SumPositions(ps: seq<Position>, field: Position -> real): real
    decreases ps
  {
    if ps == [] then 0.0 else SumPositions(ps[..|ps| - 1], field) + field(ps[|ps| - 1])
  }

  /** The deals of some positions whose position is built. */
  function EmittedDeals(deals: seq<Deal>, ids: seq<string>, all: seq<Deal>): seq<Deal> {
    if deals == [] then []
    else
      var front, last := EmittedDeals(deals[..|deals| - 1], ids, all), deals[|deals| - 1];
      if last.positionId in ids && Emitted(all, last.positionId) then front + [last] else front
  }

  /** Taking one more position into account adds exactly its own deals. */
  lemma {:induction false} OneMorePosition(deals: seq<Deal>, ids: seq<string>, id: string, all: seq<Deal>,
                                           field: Deal -> real)
    requires id !in ids
    ensures SumOf(EmittedDeals(deals, ids + [id], all), field)
         == SumOf(EmittedDeals(deals, ids, all), field) + if Emitted(all, id) then SumOf(Of(deals, id), field) else 0.0
    decreases deals
  {
    if deals != [] {
      var front, last := deals[..|deals| - 1], deals[|deals| - 1];
      OneMorePosition(front, ids, id, all, field);
      SumOfAppend(EmittedDeals(front, ids, all), last, field);
      SumOfAppend(EmittedDeals(front, ids + [id], all), last, field);
      SumOfAppend(Of(front, id), last, field);
      assert last.positionId in ids + [id] <==> last.positionId in ids || last.positionId == id;
    }
  }

  lemma {:induction false} NoPositionsNoDeals(deals: seq<Deal>, all: seq<Deal>)
    ensures EmittedDeals(deals, [], all) == []
  {
    if deals != [] { NoPositionsNoDeals(deals[..|deals| - 1], all); }
  }

  lemma {:induction false} CostsAddUp(ids: seq<string>, deals: seq<Deal>, cost: Position -> real, field: Deal -> real)
    requires forall i, j :: 0 <= i < j < |ids| ==> ids[i] != ids[j]
    requires forall id :: id in ids ==> IsId(id)
    requires forall id, legs :: BuildOne(id, legs).Some? ==> cost(BuildOne(id, legs).value) == SumOf(legs, field)
    ensures SumPositions(BuildAll(ids, deals), cost) == SumOf(EmittedDeals(Dedup(deals), ids, deals), field)
    decreases ids
  {
    if ids == [] {
      NoPositionsNoDeals(Dedup(deals), deals);
    } else {
      var front, id := ids[..|ids| - 1], ids[|ids| - 1];
      assert ids == front + [id] && id in ids && id !in front;
      CostsAddUp(front, deals, cost, field);
      OneMorePosition(Dedup(deals), front, id, deals, field);
      OfDedup(deals, id);
      EmittedExactlyWhenBuilt(deals, id);
      var one := BuildOne(id, Dedup(Of(deals, id)));
      if one.Some? {
        assert BuildAll(ids, deals)[..|BuildAll(ids, deals)| - 1] == BuildAll(front, deals);
      }
    }
  }

  function PositionCommission(p: Position): real { p.commission }
  function PositionSwap(p: Position): real { p.swap }

  /** Commission and swap of all built positions are those of the de-duplicated deals of these positions: none is lost
      and none is counted twice, however often the snapshot repeats a deal. */
  lemma CostsAreConserved(deals: seq<Deal>)
    ensures SumPositions(Build(deals), PositionCommission) == SumOf(EmittedDeals(Dedup(deals), Ids(deals), deals),
        Commission)
    ensures SumPositions(Build(deals), PositionSwap) == SumOf(EmittedDeals(Dedup(deals), Ids(deals), deals), Swap)
  {
    IdsMembers(deals);
    CostsAddUp(Ids(deals), deals, PositionCommission, Commission);
    CostsAddUp(Ids(deals), deals, PositionSwap, Swap);
  }

  // ---- Open, closed, and at which price ---------------------------------------------------------------------------

  ghost predicate LegsWithin(legs: seq<Deal>, lo: real, hi: real) {
    forall d :: d in legs ==> d.volume >= 0.0 && lo <= d.price <= hi
  }

  lemma WorthLaws(lo: real, price: real, v: real, w: real)
    requires v >= 0.0 && lo <= price
    ensures Worth(lo, v) <= Worth(price, v)
    ensures Worth(lo, w + v) == Worth(lo, w) + Worth(lo, v)
  {
    assert (price - lo) * v >= 0.0;
  }

  lemma {:induction false} TurnoverWithin(legs: seq<Deal>, lo: real, hi: real)
    requires LegsWithin(legs, lo, hi)
    ensures SumOf(legs, Volume) >= 0.0
    ensures Worth(lo, SumOf(legs, Volume)) <= SumOf(legs, Turnover) <= Worth(hi, SumOf(legs, Volume))
  {
    if legs == [] {
      assert Worth(lo, 0.0) == 0.0 == Worth(hi, 0.0);
    } else {
      var front, d := legs[..|legs| - 1], legs[|legs| - 1];
      TurnoverWithin(front, lo, hi);
      assert d in legs;
      WorthLaws(lo, d.price, d.volume, SumOf(front, Volume));
      WorthLaws(d.price, hi, d.volume, SumOf(front, Volume));
      WorthLaws(hi, hi, d.volume, SumOf(front, Volume));
    }
  }

  lemma WorthRatio(sum: real, v: real, lo: real, hi: real)
    requires v > 0.0 && Worth(lo, v) <= sum <= Worth(hi, v)
    ensures lo <= sum / v <= hi
  {
    QuotientBetween(sum, v, lo, hi);
  }

  lemma RatioWithin(legs: seq<Deal>, lo: real, hi: real)
    requires LegsWithin(legs, lo, hi) && SumOf(legs, Volume) != 0.0
    ensures lo <= SumOf(legs, Turnover) / SumOf(legs, Volume) <= hi
  {
    TurnoverWithin(legs, lo, hi);
    WorthRatio(SumOf(legs, Turnover), SumOf(legs, Volume), lo, hi);
  }

  lemma WeightedWithin(legs: seq<Deal>, fallback: real, lo: real, hi: real)
    requires LegsWithin(legs, lo, hi) && lo <= fallback <= hi
    ensures RoundTo(lo, PRICE_DIGITS) <= RoundTo(Weighted(legs, SumOf(legs, Volume), fallback), PRICE_DIGITS)
            <= RoundTo(hi, PRICE_DIGITS)
  {
    var w := Weighted(legs, SumOf(legs, Volume), fallback);
    if SumOf(legs, Volume) != 0.0 { RatioWithin(legs, lo, hi); }
    RoundToMonotone(lo, w, PRICE_DIGITS);
    RoundToMonotone(w, hi, PRICE_DIGITS);
  }

  /** A built position's open price lies between those of its in legs and its close price between those of its out legs,
      rounded as the source rounds; on grid prices exactly. */
  lemma PricesWithinLegs(deals: seq<Deal>, p: Position, low: real, high: real, lowest: real, highest: real)
    requires p in Build(deals)
    requires LegsWithin(Filter(Of(deals, p.id), Opens), low, high)
    requires LegsWithin(Filter(Of(deals, p.id), Closes), lowest, highest)
    ensures RoundTo(low, PRICE_DIGITS) <= p.openPrice <= RoundTo(high, PRICE_DIGITS)
    ensures p.closePrice.Some? ==> RoundTo(lowest, PRICE_DIGITS) <= p.closePrice.value <= RoundTo(highest, PRICE_DIGITS)
  {
    hide Build, Dedup, RoundTo;
    BuildIds(deals);
    var legs := Dedup(Of(deals, p.id));
    var ins, outs := Filter(legs, Opens), Filter(legs, Closes);
    FirstSightingsWithin(Of(deals, p.id), Opens, low, high);
    FirstSightingsWithin(Of(deals, p.id), Closes, lowest, highest);
    assert ins[0] in ins;
    TurnoverWithin(ins, low, high);
    WeightedWithin(ins, ins[0].price, low, high);
    if SumOf(ins, Volume) == 0.0 { SumZero(ins); }
    if p.closePrice.Some? {
      assert outs[|outs| - 1] in outs;
      WeightedWithin(outs, outs[|outs| - 1].price, lowest, highest);
    }
  }

  lemma FirstSightingsWithin(legs: seq<Deal>, kind: Deal -> bool, low: real, high: real)
    requires LegsWithin(Filter(legs, kind), low, high)
    ensures LegsWithin(Filter(Dedup(legs), kind), low, high)
  {
    DedupKeepsEachOnce(legs);
    FilterMembers(legs, kind);
    FilterMembers(Dedup(legs), kind);
  }

  lemma {:induction false} SumZero(legs: seq<Deal>)
    requires SumOf(legs, Volume) <= 0.0 && forall d :: d in legs ==> d.volume >= 0.0
    ensures forall d :: d in legs ==> d.volume == 0.0
  {
    if legs != [] {
      var front, d := legs[..|legs| - 1], legs[|legs| - 1];
      assert d in legs;
      SumNonNegative(front);
      SumZero(front);
      assert forall e :: e in legs ==> e in front || e == d;
    }
  }

  lemma {:induction false} SumNonNegative(legs: seq<Deal>)
    requires forall d :: d in legs ==> d.volume >= 0.0
    ensures SumOf(legs, Volume) >= 0.0
  {
    if legs != [] {
      assert legs[|legs| - 1] in legs;
      SumNonNegative(legs[..|legs| - 1]);
    }
  }

  /** A position is closed exactly when what left it covers what entered it; only then does it carry close figures, and
      only then does its profit stop counting the opening legs. */
  lemma ClosedExactlyWhenCovered(deals: seq<Deal>, p: Position)
    requires p in Build(deals) && forall d :: d in deals ==> d.volume >= 0.0
    ensures var legs := Of(Dedup(deals), p.id);
            var outs := Filter(legs, Closes);
            && p.volume == SumOf(Filter(legs, Opens), Volume)
            && (p.closePrice.Some? <==> outs != [] && SumOf(outs, Volume) + VOLUME_SLACK >= p.volume)
            && p.profit == SumOf(if p.closePrice.Some? then outs else legs, Profit)
            && p.closeTime == if p.closePrice.Some? then Latest(outs) else None
  {
    BuildIds(deals);
    OfDedup(deals, p.id);
    var legs := Dedup(Of(deals, p.id));
    var ins := Filter(legs, Opens);
    OfMembers(deals, p.id);
    DedupKeepsEachOnce(Of(deals, p.id));
    FilterMembers(legs, Opens);
    assert ins[0] in ins;
    SumNonNegative(ins);
    if SumOf(ins, Volume) == 0.0 { SumZero(ins); }
  }
}
