/** The stored trades of one account, keyed by position id, kept up to date by replaying snapshots of deals. */
module TradeStore {
  import opened Common
  import opened DealIngest

  datatype Stage = Unknown | Test | Live

  datatype Row = Row(symbol: string, buy: bool, volume: real, openTime: Option<int>, openPrice: real,
                     closeTime: Option<int>,
                     closePrice: Option<real>, profit: real, commission: real, swap: real, magic: Option<int>,
                     comment: string, stage: Stage, closeIngestedAt: Option<int>)

  type Rows = map<string, Row>

  /** One sync: the positions built from the snapshot, and the instant the clock shows when each of them is handled. */
  datatype Snapshot = Snapshot(positions: seq<Position>, now: nat -> int)

  /** What a sync reads besides the deals: the account's cutover and the stage it infers from a comment. */
  datatype Settings = Settings(cutover: Option<int>, stageOf: string -> Stage)

  function Or<T>(x: Option<T>, y: Option<T>): Option<T> {
    if x.Some? then x else y
  }

  /** A position that opened before the account's cutover is not ingested. */
  predicate Skipped(settings: Settings, p: Position) {
    var at := Or(p.openTime, p.closeTime);
    settings.cutover.Some? && at.Some? && at.value < settings.cutover.value
  }

  function NewRow(settings: Settings, p: Position, now: int): Row {
    Row(p.symbol, p.buy, p.volume, Or(p.openTime, p.closeTime), p.openPrice, p.closeTime, p.closePrice, p.profit,
        p.commission, p.swap, p.magic, p.comment, settings.stageOf(p.comment),
            if p.closeTime.Some? then Some(now) else None)
  }

  /** Known values replace stored ones, unknown ones never do; the first closing observation is stamped. */
  function Refreshed(settings: Settings, row: Row, p: Position, now: int): Row {
    var closeTime := Or(p.closeTime, row.closeTime);
    var stamp := row.closeTime.None? && closeTime.Some? && row.closeIngestedAt.None?;
    Row(row.symbol, row.buy, row.volume, Or(p.openTime, row.openTime), p.openPrice, closeTime, Or(p.closePrice,
        row.closePrice),
        p.profit, p.commission, p.swap, Or(p.magic, row.magic), p.comment,
        if row.stage == Unknown then settings.stageOf(p.comment) else row.stage,
        if stamp then Some(now) else row.closeIngestedAt)
  }

  function Upserted(settings: Settings, rows: Rows, p: Position, now: int): Rows {
    if Skipped(settings, p) then rows
    else if p.id !in rows then rows[p.id := NewRow(settings, p, now)]
    else rows[p.id := Refreshed(settings, rows[p.id], p, now)]
  }

  function Synced(settings: Settings, rows: Rows, positions: seq<Position>, now: nat -> int): Rows
    decreases positions
  {
    if positions == [] then rows
    else
      var n := |positions| - 1;
      Upserted(settings, Synced(settings, rows, positions[..n], now), positions[n], now(n))
  }

  lemma SyncedNext(settings: Settings, rows: Rows, positions: seq<Position>, now: nat -> int, i: nat)
    requires i < |positions|
    ensures Synced(settings, rows, positions[..i + 1], now)
         == Upserted(settings, Synced(settings, rows, positions[..i], now), positions[i], now(i))
  {
    assert positions[..i + 1][..i] == positions[..i];
  }

  /** One field of a row and the value that a position has for it. */
  datatype Field =
    | OpenTime(time: Option<int>)
    | OpenPrice(price: real)
    | CloseTime(closed: Option<int>)
    | ClosePrice(closePrice: Option<real>)
    | ProfitIs(money: real)
    | CommissionIs(fee: real)
    | SwapIs(interest: real)
    | MagicIs(magic: Option<int>)
    | CommentIs(text: string)
  {
    predicate Known() {
      match this
      case OpenTime(t) => t.Some?
      case CloseTime(t) => t.Some?
      case ClosePrice(p) => p.Some?
      case MagicIs(m) => m.Some?
      case _ => true
    }

    /** What a row stores in this field. */
    function In(row: Row): Field {
      match this
      case OpenTime(_) => OpenTime(row.openTime)
      case OpenPrice(_) => OpenPrice(row.openPrice)
      case CloseTime(_) => CloseTime(row.closeTime)
      case ClosePrice(_) => ClosePrice(row.closePrice)
      case ProfitIs(_) => ProfitIs(row.profit)
      case CommissionIs(_) => CommissionIs(row.commission)
      case SwapIs(_) => SwapIs(row.swap)
      case MagicIs(_) => MagicIs(row.magic)
      case CommentIs(_) => CommentIs(row.comment)
    }

    function Put(row: Row): Row {
      match this
      case OpenTime(t) => row.(openTime := t)
      case OpenPrice(p) => row.(openPrice := p)
      case CloseTime(t) => row.(closeTime := t)
      case ClosePrice(p) => row.(closePrice := p)
      case ProfitIs(x) => row.(profit := x)
      case CommissionIs(x) => row.(commission := x)
      case SwapIs(x) => row.(swap := x)
      case MagicIs(m) => row.(magic := m)
      case CommentIs(c) => row.(comment := c)
    }
  }

  function FieldsOf(p: Position): seq<Field> {
    [OpenTime(p.openTime), OpenPrice(p.openPrice), CloseTime(p.closeTime), ClosePrice(p.closePrice), ProfitIs(p.profit),
     CommissionIs(p.commission), SwapIs(p.swap), MagicIs(p.magic), CommentIs(p.comment)]
  }

  /** Writing one field changes that field only. */
  lemma PutOne(fields: seq<Field>, p: Position, i: nat, row: Row)
    requires fields == FieldsOf(p) && i < |fields|
    ensures fields[i].In(fields[i].Put(row)) == fields[i]
    ensures forall j :: 0 <= j < |fields| && j != i ==> fields[j].In(fields[i].Put(row)) == fields[j].In(row)
  {
  }

  /** The first `i` fields are refreshed, the others are still those of `row`, and so is everything that is no field. */
  ghost predicate RefreshedUpTo(fields: seq<Field>, row: Row, obj: Row, i: nat)
    requires i <= |fields|
  {
    && (forall j :: 0 <= j < i ==> fields[j].In(obj) == if fields[j].Known() then fields[j] else fields[j].In(row))
    && (forall j :: i <= j < |fields| ==> fields[j].In(obj) == fields[j].In(row))
    && obj.symbol == row.symbol && obj.buy == row.buy && obj.volume == row.volume && obj.stage == row.stage
    && obj.closeIngestedAt == row.closeIngestedAt
  }

  lemma RefreshedFields(p: Position, row: Row, obj: Row)
    requires RefreshedUpTo(FieldsOf(p), row, obj, 9)
    ensures obj == row.(openTime := Or(p.openTime, row.openTime), openPrice := p.openPrice,
                        closeTime := Or(p.closeTime, row.closeTime), closePrice := Or(p.closePrice, row.closePrice),
                        profit := p.profit, commission := p.commission, swap := p.swap,
                        magic := Or(p.magic, row.magic), comment := p.comment)
  {
    var f := FieldsOf(p);
    assert f[0].In(obj).OpenTime? && f[1].In(obj).OpenPrice? && f[2].In(obj).CloseTime? && f[3].In(obj).ClosePrice?;
    assert f[4].In(obj).ProfitIs? && f[5].In(obj).CommissionIs? && f[6].In(obj).SwapIs?;
    assert f[7].In(obj).MagicIs? && f[8].In(obj).CommentIs?;
  }

  /** The field-by-field refresh of a stored row; the flag raised on the way tells whether anything is different now. */
  method Refresh(settings: Settings, row: Row, p: Position, now: int) returns (obj: Row, changed: bool)
    ensures obj == Refreshed(settings, row, p, now) && (changed <==> obj != row)
  {
    obj, changed := row, false;
    var stage := settings.stageOf(p.comment);
    var wasOpen := obj.closeTime.None?;
    var fields := FieldsOf(p);
    for i := 0 to |fields|
      invariant RefreshedUpTo(fields, row, obj, i)
      invariant changed <==> obj != row
    {
      PutOne(fields, p, i, obj);
      if fields[i].Known() && fields[i].In(obj) != fields[i] {
        obj := fields[i].Put(obj);
        changed := true;
      }
    }
    RefreshedFields(p, row, obj);
    if obj.stage == Unknown && stage != Unknown {
      obj := obj.(stage := stage);
      changed := true;
    }
    if wasOpen && obj.closeTime.Some? && obj.closeIngestedAt.None? {
      obj := obj.(closeIngestedAt := Some(now));
      changed := true;
    }
  }

  /** The store of one account. */
  class Trades {
    var rows: Rows

    constructor ()
      ensures rows == map[]
    {
      rows := map[];
    }

    /** One position: skipped, inserted, or refreshed and saved when something changed. */
    method UpsertOne(settings: Settings, p: Position, now: int) returns (skipped: bool, inserted: bool, updated: bool)
      modifies this
      ensures rows == Upserted(settings, old(rows), p, now)
      ensures |rows| == |old(rows)| + if inserted then 1 else 0
      ensures !(skipped && inserted) && !(skipped && updated) && !(inserted && updated)
      ensures !inserted && !updated ==> rows == old(rows)
    {
      skipped, inserted, updated := Skipped(settings, p), false, false;
      if skipped {
        return;
      }
      if p.id !in rows {
        rows := rows[p.id := NewRow(settings, p, now)];
        inserted := true;
        return;
      }
      var obj, changed := Refresh(settings, rows[p.id], p, now);
      if changed {
        rows := rows[p.id := obj];
        updated := true;
      } else {
        assert rows[p.id := obj] == rows;
      }
    }

    /** One sync; what the counters do not mention was already up to date. */
    method Upsert(settings: Settings, deals: seq<Deal>, now: nat -> int)
      returns (inserted: nat, updated: nat, skipped: nat)
      modifies this
      ensures rows == Synced(settings, old(rows), Build(deals), now)
      ensures inserted == |rows| - |old(rows)| && inserted + updated + skipped <= |Build(deals)|
      ensures updated == 0 && inserted == 0 ==> rows == old(rows)
    {
      inserted, updated, skipped := 0, 0, 0;
      var positions := BuildPositionsFromDeals(deals);
      for i := 0 to |positions|
        invariant rows == Synced(settings, old(rows), positions[..i], now)
        invariant inserted == |rows| - |old(rows)| && inserted + updated + skipped <= i
        invariant updated == 0 && inserted == 0 ==> rows == old(rows)
      {
        SyncedNext(settings, old(rows), positions, now, i);
        var skip, insert, update := UpsertOne(settings, positions[i], now(i));
        skipped := if skip then skipped + 1 else skipped;
        inserted := if insert then inserted + 1 else inserted;
        updated := if update then updated + 1 else updated;
      }
      assert positions[..|positions|] == positions;
    }
  }

  // ---- A replay changes nothing -----------------------------------------------------------------------------------

  /** Handling the position again, at any instant, would change nothing. */
  ghost predicate Settled(settings: Settings, rows: Rows, p: Position) {
    forall now :: Upserted(settings, rows, p, now) == rows
  }

  lemma UpsertSettles(settings: Settings, rows: Rows, p: Position, now: int)
    ensures Settled(settings, Upserted(settings, rows, p, now), p)
  {
    var after := Upserted(settings, rows, p, now);
    forall again ensures Upserted(settings, after, p, again) == after {
      if !Skipped(settings, p) {
        assert Refreshed(settings, after[p.id], p, again) == after[p.id];
        assert after[p.id := after[p.id]] == after;
      }
    }
  }

  lemma OtherPositionsStaySettled(settings: Settings, rows: Rows, p: Position, q: Position, now: int)
    requires Settled(settings, rows, p) && p.id != q.id
    ensures Settled(settings, Upserted(settings, rows, q, now), p)
  {
    var after := Upserted(settings, rows, q, now);
    forall again ensures Upserted(settings, after, p, again) == after {
      assert Upserted(settings, rows, p, again) == rows;
      if !Skipped(settings, p) {
        assert p.id in rows && after[p.id] == rows[p.id];
        assert rows[p.id := Refreshed(settings, rows[p.id], p, again)][p.id] == rows[p.id];
        assert after[p.id := after[p.id]] == after;
      }
    }
  }

  lemma {:induction false} SyncSettles(settings: Settings, rows: Rows, positions: seq<Position>, now: nat -> int)
    requires DistinctIds(positions)
    ensures forall p :: p in positions ==> Settled(settings, Synced(settings, rows, positions, now), p)
    decreases positions
  {
    if positions != [] {
      var n := |positions| - 1;
      var before := Synced(settings, rows, positions[..n], now);
      SyncSettles(settings, rows, positions[..n], now);
      UpsertSettles(settings, before, positions[n], now(n));
      forall p | p in positions ensures Settled(settings, Synced(settings, rows, positions, now), p) {
        if p in positions[..n] {
          OtherPositionsStaySettled(settings, before, p, positions[n], now(n));
        }
      }
    }
  }

  lemma {:induction false} SettledSyncIsIdentity(settings: Settings, rows: Rows, positions: seq<Position>,
                                                 now: nat -> int)
    requires forall p :: p in positions ==> Settled(settings, rows, p)
    ensures Synced(settings, rows, positions, now) == rows
    decreases positions
  {
    if positions != [] {
      SettledSyncIsIdentity(settings, rows, positions[..|positions| - 1], now);
      assert positions[|positions| - 1] in positions;
    }
  }

  /** Replaying a snapshot, even one that repeats some of its deals, leaves any store unchanged. */
  lemma ReplayChangesNothing(settings: Settings, rows: Rows, deals: seq<Deal>, again: seq<Deal>, now: nat -> int,
                             later: nat -> int)
    requires forall d :: d in again ==> Repeats(deals, d)
    ensures var once := Synced(settings, rows, Build(deals), now);
            Synced(settings, once, Build(deals + again), later) == once
  {
    ReplayedDealsChangeNothing(deals, again);
    BuildIds(deals);
    SyncSettles(settings, rows, Build(deals), now);
    SettledSyncIsIdentity(settings, Synced(settings, rows, Build(deals), now), Build(deals), later);
  }

  // ---- Over any sequence of syncs ---------------------------------------------------------------------------------

  function History(settings: Settings, rows: Rows, snapshots: seq<Snapshot>): Rows {
    if snapshots == [] then rows
    else
      var n := |snapshots| - 1;
      Synced(settings, History(settings, rows, snapshots[..n]), snapshots[n].positions, snapshots[n].now)
  }

  /** A row may gain close fields but never loses one, and the instant it was stamped stays. */
  predicate CloseKept(row: Row, later: Row) {
    && (row.closeTime.Some? ==> later.closeTime.Some?) && (row.closePrice.Some? ==> later.closePrice.Some?)
    && (row.closeIngestedAt.Some? ==> later.closeIngestedAt == row.closeIngestedAt)
    && later.symbol == row.symbol && later.buy == row.buy && later.volume == row.volume
  }

  ghost predicate AllKept(rows: Rows, later: Rows) {
    forall id :: id in rows ==> id in later && CloseKept(rows[id], later[id])
  }

  /** Stamped exactly when closed. */
  ghost predicate StampedWhenClosed(rows: Rows) {
    forall id :: id in rows ==> (rows[id].closeIngestedAt.Some? <==> rows[id].closeTime.Some?)
  }

  lemma UpsertKeepsCloses(settings: Settings, rows: Rows, p: Position, now: int)
    ensures AllKept(rows, Upserted(settings, rows, p, now))
    ensures StampedWhenClosed(rows) ==> StampedWhenClosed(Upserted(settings, rows, p, now))
  {
  }

  lemma {:induction false} SyncKeepsCloses(settings: Settings, rows: Rows, positions: seq<Position>, now: nat -> int)
    ensures AllKept(rows, Synced(settings, rows, positions, now))
    ensures StampedWhenClosed(rows) ==> StampedWhenClosed(Synced(settings, rows, positions, now))
    decreases positions
  {
    hide Upserted;
    if positions != [] {
      var n := |positions| - 1;
      SyncKeepsCloses(settings, rows, positions[..n], now);
      UpsertKeepsCloses(settings, Synced(settings, rows, positions[..n], now), positions[n], now(n));
    }
  }

  /** Whatever snapshots arrive, close time, close price and the ingestion stamp never return to null; the stamp is set
      once; and in a store that started empty it is there exactly when the close time is. */
  lemma {:induction false} HistoryKeepsCloses(settings: Settings, rows: Rows, snapshots: seq<Snapshot>)
    ensures AllKept(rows, History(settings, rows, snapshots))
    ensures StampedWhenClosed(rows) ==> StampedWhenClosed(History(settings, rows, snapshots))
    ensures StampedWhenClosed(History(settings, map[], snapshots))
  {
    if snapshots != [] {
      var n := |snapshots| - 1;
      HistoryKeepsCloses(settings, rows, snapshots[..n]);
      SyncKeepsCloses(settings, History(settings, rows, snapshots[..n]), snapshots[n].positions, snapshots[n].now);
      SyncKeepsCloses(settings, History(settings, map[], snapshots[..n]), snapshots[n].positions, snapshots[n].now);
    }
  }
}
