/**
 The profit of a stored trade over repeated syncs. Unlike the close fields it is not protected: what each sync reports
 replaces it. When that keeps it, and when it loses it, is decided by the deals that the snapshots still contain.
 */
module TradeProfit {
  import opened Common
  import opened DealIngest
  import opened TradeStore

  // ---- What a snapshot reports for a position ---------------------------------------------------------------------

  function Legs(deals: seq<Deal>, id: string): seq<Deal> { Of(Dedup(deals), id) }
  function InLegs(deals: seq<Deal>, id: string): seq<Deal> { Filter(Legs(deals, id), Opens) }
  function OutLegs(deals: seq<Deal>, id: string): seq<Deal> { Filter(Legs(deals, id), Closes) }

  /** The snapshot shows the position as closed: its out legs cover its in legs. */
  predicate ShownClosed(deals: seq<Deal>, id: string) {
    InLegs(deals, id) != [] && Covers(InLegs(deals, id), OutLegs(deals, id))
  }

  /** The profit that the snapshot has for a position: of its out legs when they cover, of all its legs otherwise. */
  function ReportedProfit(deals: seq<Deal>, id: string): real {
    SumOf(if ShownClosed(deals, id) then OutLegs(deals, id) else Legs(deals, id), Profit)
  }

  function ShownCloseTime(deals: seq<Deal>, id: string): Option<int> {
    if ShownClosed(deals, id) then Latest(OutLegs(deals, id)) else None
  }

  /** The sync handles the position: it has an opening leg and no reversal, and it did not open before the cutover. */
  predicate Ingests(settings: Settings, deals: seq<Deal>, id: string) {
    var at := Or(Earliest(InLegs(deals, id)), ShownCloseTime(deals, id));
    Emitted(deals, id) && !(settings.cutover.Some? && at.Some? && at.value < settings.cutover.value)
  }

  /** A position that is built carries exactly these figures. */
  lemma BuiltFigures(deals: seq<Deal>, p: Position)
    requires p in Build(deals)
    ensures p.profit == ReportedProfit(deals, p.id) && p.closeTime == ShownCloseTime(deals, p.id)
    ensures p.openTime == Earliest(InLegs(deals, p.id)) && Emitted(deals, p.id)
  {
    BuildIds(deals);
    OfDedup(deals, p.id);
  }

  // ---- One sync ---------------------------------------------------------------------------------------------------

  /** Both stores have the same to say about one trade. */
  predicate SameRow(rows: Rows, later: Rows, id: string) {
    (id in later <==> id in rows) && (id in rows ==> later[id] == rows[id])
  }

  lemma {:induction false} SyncOfOthers(settings: Settings, rows: Rows, positions: seq<Position>, now: nat -> int,
                                        id: string)
    requires forall p :: p in positions ==> p.id != id
    ensures SameRow(rows, Synced(settings, rows, positions, now), id)
    decreases positions
  {
    hide Refreshed, NewRow, Skipped;
    if positions != [] {
      var n := |positions| - 1;
      assert positions[n] in positions && forall p :: p in positions[..n] ==> p in positions;
      SyncOfOthers(settings, rows, positions[..n], now, id);
    }
  }

  /** What one position does to its own row. */
  predicate RowAfter(settings: Settings, rows: Rows, later: Rows, p: Position, now: int) {
    if Skipped(settings, p) then SameRow(rows, later, p.id)
    else
      && p.id in later
      && later[p.id] == if p.id in rows then Refreshed(settings, rows[p.id], p, now) else NewRow(settings, p, now)
  }

  /** What a sync does to one row is what the one position with its id does. */
  lemma {:induction false} SyncOfRow(settings: Settings, rows: Rows, positions: seq<Position>, now: nat -> int, i: nat)
    requires DistinctIds(positions) && i < |positions|
    ensures RowAfter(settings, rows, Synced(settings, rows, positions, now), positions[i], now(i))
    decreases positions
  {
    hide Refreshed, NewRow, Skipped;
    var n := |positions| - 1;
    if i == n {
      SyncOfOthers(settings, rows, positions[..n], now, positions[i].id);
    } else {
      SyncOfRow(settings, rows, positions[..n], now, i);
      assert positions[..n][i] == positions[i] && positions[n].id != positions[i].id;
    }
  }

  /** After a sync that handles a position, its trade is stored with the reported profit and no close time is lost. */
  lemma RowAfterSync(settings: Settings, rows: Rows, deals: seq<Deal>, now: nat -> int, id: string)
    ensures var after := Synced(settings, rows, Build(deals), now);
            if Ingests(settings, deals, id) then
              && id in after && after[id].profit == ReportedProfit(deals, id)
              && after[id].closeTime == Or(ShownCloseTime(deals, id), if id in rows then rows[id].closeTime else None)
            else SameRow(rows, after, id)
  {
    hide Synced, Build, ReportedProfit, ShownCloseTime, InLegs;
    BuildIds(deals);
    if i :| 0 <= i < |Build(deals)| && Build(deals)[i].id == id {
      assert Build(deals)[i] in Build(deals);
      BuiltFigures(deals, Build(deals)[i]);
      SyncOfRow(settings, rows, Build(deals), now, i);
    } else {
      assert forall p :: p in Build(deals) ==> p.id != id;
      SyncOfOthers(settings, rows, Build(deals), now, id);
    }
  }

  /** The profit of a stored trade stays, if and only if the snapshot does not handle it or still reports just that. */
  lemma ProfitStaysExactlyWhenReported(settings: Settings, rows: Rows, deals: seq<Deal>, now: nat -> int, id: string)
    requires id in rows
    ensures var after := Synced(settings, rows, Build(deals), now);
            && id in after
            && (after[id].profit == rows[id].profit <==>
                  (Ingests(settings, deals, id) ==> ReportedProfit(deals, id) == rows[id].profit))
  {
    RowAfterSync(settings, rows, deals, now, id);
  }

  // ---- Over any sequence of syncs ---------------------------------------------------------------------------------

  datatype Sync = Sync(deals: seq<Deal>, now: nat -> int)

  function Snapshots(syncs: seq<Sync>): seq<Snapshot> {
    seq(|syncs|, i requires 0 <= i < |syncs| => Snapshot(Build(syncs[i].deals), syncs[i].now))
  }

  function After(settings: Settings, rows: Rows, syncs: seq<Sync>): Rows {
    History(settings, rows, Snapshots(syncs))
  }

  lemma AfterNext(settings: Settings, rows: Rows, syncs: seq<Sync>)
    requires syncs != []
    ensures var n := |syncs| - 1;
            After(settings, rows, syncs)
              == Synced(settings, After(settings, rows, syncs[..n]), Build(syncs[n].deals), syncs[n].now)
  {
    hide Build, Synced;
    var n := |syncs| - 1;
    assert Snapshots(syncs)[..n] == Snapshots(syncs[..n]);
  }

  /** What the last sync that handled the position reported for it. */
  function LastReport(settings: Settings, syncs: seq<Sync>, id: string): Option<real> {
    if syncs == [] then None
    else
      var n := |syncs| - 1;
      if Ingests(settings, syncs[n].deals, id) then Some(ReportedProfit(syncs[n].deals, id))
      else LastReport(settings, syncs[..n], id)
  }

  /** The stored profit is what was reported last, and the first profit as long as nothing was reported. */
  lemma {:induction false} ProfitAfterHistory(settings: Settings, rows: Rows, syncs: seq<Sync>, id: string)
    requires id in rows
    ensures var after, last := After(settings, rows, syncs), LastReport(settings, syncs, id);
            id in after && after[id].profit == if last.Some? then last.value else rows[id].profit
    decreases |syncs|
  {
    hide Build, Synced, Ingests, ReportedProfit;
    if syncs != [] {
      var n := |syncs| - 1;
      ProfitAfterHistory(settings, rows, syncs[..n], id);
      AfterNext(settings, rows, syncs);
      RowAfterSync(settings, After(settings, rows, syncs[..n]), syncs[n].deals, syncs[n].now, id);
    }
  }

  /** What every sync that handles the position reports for it. */
  ghost predicate AlwaysReported(settings: Settings, syncs: seq<Sync>, id: string, profit: real) {
    forall i :: 0 <= i < |syncs| && Ingests(settings, syncs[i].deals, id) ==>
      ReportedProfit(syncs[i].deals, id) == profit
  }

  ghost predicate ProfitAfterEach(settings: Settings, rows: Rows, syncs: seq<Sync>, id: string, profit: real) {
    forall n :: 0 <= n <= |syncs| ==> StoredProfitIs(After(settings, rows, syncs[..n]), id, profit)
  }

  predicate StoredProfitIs(rows: Rows, id: string, profit: real) {
    id in rows && rows[id].profit == profit
  }

  lemma {:induction false} LastOfAlways(settings: Settings, syncs: seq<Sync>, id: string, profit: real)
    requires AlwaysReported(settings, syncs, id, profit)
    ensures LastReport(settings, syncs, id).Some? ==> LastReport(settings, syncs, id).value == profit
    decreases |syncs|
  {
    hide Ingests, ReportedProfit;
    if syncs != [] { LastOfAlways(settings, syncs[..|syncs| - 1], id, profit); }
  }

  /** Over any sequence of syncs: the stored profit stays after each of them, if and only if every sync that handles the
      position reports just that profit. */
  lemma ProfitStaysThroughoutExactly(settings: Settings, rows: Rows, syncs: seq<Sync>, id: string)
    requires id in rows
    ensures ProfitAfterEach(settings, rows, syncs, id, rows[id].profit) <==>
              AlwaysReported(settings, syncs, id, rows[id].profit)
  {
    hide After, LastReport, Ingests, ReportedProfit;
    var profit := rows[id].profit;
    if AlwaysReported(settings, syncs, id, profit) {
      forall n | 0 <= n <= |syncs| ensures StoredProfitIs(After(settings, rows, syncs[..n]), id, profit) {
        ProfitAfterHistory(settings, rows, syncs[..n], id);
        LastOfAlways(settings, syncs[..n], id, profit);
      }
    } else {
      var i :|
        0 <= i < |syncs| && Ingests(settings, syncs[i].deals, id) && ReportedProfit(syncs[i].deals, id) != profit;
      ProfitAfterHistory(settings, rows, syncs[..i + 1], id);
      LastIs(settings, syncs[..i + 1], id);
      assert !StoredProfitIs(After(settings, rows, syncs[..i + 1]), id, profit);
    }
  }

  lemma LastIs(settings: Settings, syncs: seq<Sync>, id: string)
    requires syncs != [] && Ingests(settings, syncs[|syncs| - 1].deals, id)
    ensures LastReport(settings, syncs, id) == Some(ReportedProfit(syncs[|syncs| - 1].deals, id))
  {
  }

  // ---- What a caller can check: the exit deals are still there ----------------------------------------------------

  /** The later snapshot has the same exit deals for the position; it may have lost some of the entry deals. */
  ghost predicate ExitsKept(deals: seq<Deal>, later: seq<Deal>, id: string) {
    && multiset(OutLegs(later, id)) == multiset(OutLegs(deals, id))
    && multiset(InLegs(later, id)) <= multiset(InLegs(deals, id))
    && forall d :: d in InLegs(deals, id) ==> d.volume >= 0.0
  }

  function Without(deals: seq<Deal>, i: nat): seq<Deal>
    requires i < |deals|
  {
    deals[..i] + deals[i + 1..]
  }

  lemma {:induction false} SumWithout(deals: seq<Deal>, i: nat, field: Deal -> real)
    requires i < |deals|
    ensures SumOf(deals, field) == SumOf(Without(deals, i), field) + field(deals[i])
    ensures multiset(deals) == multiset(Without(deals, i)) + multiset{deals[i]}
    decreases |deals|
  {
    assert deals == deals[..i] + [deals[i]] + deals[i + 1..];
    var n := |deals| - 1;
    if i < n {
      SumWithout(deals[..n], i, field);
      assert deals[..n][..i] + deals[..n][i + 1..] == Without(deals, i)[..n - 1];
      assert Without(deals, i)[n - 1] == deals[n];
    } else {
      assert Without(deals, i) == deals[..n];
    }
  }

  lemma Cancel(a: multiset<Deal>, b: multiset<Deal>, d: Deal)
    requires a + multiset{d} <= b + multiset{d}
    ensures a <= b
    ensures a + multiset{d} == b + multiset{d} ==> a == b
  {
    forall e ensures a[e] <= b[e] {
      assert (a + multiset{d})[e] <= (b + multiset{d})[e];
    }
    if a + multiset{d} == b + multiset{d} {
      forall e ensures a[e] == b[e] {
        assert (a + multiset{d})[e] == (b + multiset{d})[e];
      }
    }
  }

  /** A smaller collection of deals with non-negative figures sums to no more, and to the same when nothing is
      missing. */
  lemma {:induction false} SumOfFewer(some: seq<Deal>, all: seq<Deal>, field: Deal -> real)
    requires multiset(some) <= multiset(all)
    ensures (forall d :: d in all ==> field(d) >= 0.0) ==> SumOf(some, field) <= SumOf(all, field)
    ensures multiset(some) == multiset(all) ==> SumOf(some, field) == SumOf(all, field)
    decreases |all|
  {
    if some == [] {
      if multiset(some) == multiset(all) { assert |all| == |multiset(all)| == 0; }
      if forall d :: d in all ==> field(d) >= 0.0 { SumNotNegative(all, field); }
    } else {
      var n := |some| - 1;
      assert some[n] in multiset(some) && some[n] in multiset(all);
      var i :| 0 <= i < |all| && all[i] == some[n];
      SumWithout(all, i, field);
      SumWithout(some, n, field);
      assert Without(some, n) == some[..n];
      Cancel(multiset(some[..n]), multiset(Without(all, i)), some[n]);
      assert forall d :: d in Without(all, i) ==> d in all;
      SumOfFewer(some[..n], Without(all, i), field);
    }
  }

  lemma {:induction false} SumNotNegative(deals: seq<Deal>, field: Deal -> real)
    requires forall d :: d in deals ==> field(d) >= 0.0
    ensures SumOf(deals, field) >= 0.0
    decreases deals
  {
    if deals != [] {
      assert deals[|deals| - 1] in deals;
      SumNotNegative(deals[..|deals| - 1], field);
    }
  }

  lemma InVolumeOfFewer(some: seq<Deal>, all: seq<Deal>)
    requires some != [] && all != [] && multiset(some) <= multiset(all) && forall d :: d in all ==> d.volume >= 0.0
    ensures InVolume(some) <= InVolume(all)
  {
    SumOfFewer(some, all, Volume);
    forall d | d in some ensures d.volume >= 0.0 {
      assert d in multiset(some) && d in multiset(all);
    }
    SumNotNegative(some, Volume);
    if SumOf(some, Volume) == 0.0 {
      SumZero(some);
      assert some[0] in some;
      SumNotNegative(all, Volume);
      if SumOf(all, Volume) == 0.0 { assert all[0] in all; }
    }
  }

  lemma EmittedHasInLegs(deals: seq<Deal>, id: string)
    requires Emitted(deals, id)
    ensures InLegs(deals, id) != []
  {
    OfDedup(deals, id);
    DedupKeepsKinds(Of(deals, id), Opens);
    FilterMembers(Legs(deals, id), Opens);
  }

  /** While the exit deals are still there, the position is still shown as closed, with the same profit. */
  lemma KeptExitsReportTheSame(deals: seq<Deal>, later: seq<Deal>, id: string)
    requires ShownClosed(deals, id) && ExitsKept(deals, later, id) && Emitted(later, id)
    ensures ShownClosed(later, id) && ReportedProfit(later, id) == ReportedProfit(deals, id)
  {
    hide InLegs, OutLegs, Emitted;
    EmittedHasInLegs(later, id);
    InVolumeOfFewer(InLegs(later, id), InLegs(deals, id));
    SumOfFewer(OutLegs(later, id), OutLegs(deals, id), Volume);
    SumOfFewer(OutLegs(later, id), OutLegs(deals, id), Profit);
    assert |OutLegs(later, id)| == |multiset(OutLegs(later, id))| == |OutLegs(deals, id)|;
  }

  /** A closed trade keeps its profit through all syncs that still see its exit deals, or do not see the position. */
  lemma ProfitKeptWhileExitsAre(settings: Settings, rows: Rows, deals: seq<Deal>, syncs: seq<Sync>, id: string)
    requires id in rows && ShownClosed(deals, id) && rows[id].profit == ReportedProfit(deals, id)
    requires forall s :: s in syncs && Ingests(settings, s.deals, id) ==> ExitsKept(deals, s.deals, id)
    ensures ProfitAfterEach(settings, rows, syncs, id, rows[id].profit)
  {
    hide ShownClosed, ExitsKept, ReportedProfit, ProfitAfterEach;
    forall i | 0 <= i < |syncs| && Ingests(settings, syncs[i].deals, id)
      ensures ReportedProfit(syncs[i].deals, id) == rows[id].profit
    {
      assert syncs[i] in syncs;
      KeptExitsReportTheSame(deals, syncs[i].deals, id);
    }
    ProfitStaysThroughoutExactly(settings, rows, syncs, id);
  }

  // ---- ... and what is lost when they are not ---------------------------------------------------------------------

  /** A snapshot that no longer covers a closed position leaves it closed, but puts the profit of the legs that are
      left in place of the profit of its exit: the trade keeps its profit if and only if the two are equal. */
  lemma ProfitOfAClosedTradeIsLost(settings: Settings, rows: Rows, deals: seq<Deal>, later: seq<Deal>, now: nat -> int,
                                   again: nat -> int, id: string)
    requires Ingests(settings, deals, id) && Ingests(settings, later, id)
    requires ShownCloseTime(deals, id).Some? && !ShownClosed(later, id)
    ensures var once := Synced(settings, rows, Build(deals), now);
            var twice := Synced(settings, once, Build(later), again);
            && id in once && id in twice
            && once[id].closeTime == twice[id].closeTime == ShownCloseTime(deals, id)
            && once[id].profit == SumOf(OutLegs(deals, id), Profit)
            && twice[id].profit == SumOf(Legs(later, id), Profit)
  {
    hide Synced, Build, Ingests, OutLegs, Legs, InLegs;
    RowAfterSync(settings, rows, deals, now, id);
    RowAfterSync(settings, Synced(settings, rows, Build(deals), now), later, again, id);
  }

  /** A position of two deals: one that opens it, and one that closes all of it. */
  ghost predicate OpenAndClose(entry: Deal, exit: Deal) {
    && entry.positionId == exit.positionId && IsId(entry.positionId) && Opens(entry) && Closes(exit)
    && entry.ticket != exit.ticket && exit.volume + VOLUME_SLACK >= entry.volume && exit.time.Some?
  }

  lemma FilterTwo(a: Deal, b: Deal, keep: Deal -> bool)
    ensures Filter([a], keep) == if keep(a) then [a] else []
    ensures Filter([a, b], keep) == Filter([a], keep) + if keep(b) then [b] else []
  {
    assert [a][..0] == [] && [a, b][..1] == [a];
    assert Filter([], keep) == [];
  }

  lemma LegsOfTwo(entry: Deal, exit: Deal)
    requires OpenAndClose(entry, exit)
    ensures Legs([entry], entry.positionId) == [entry] && Legs([entry, exit], entry.positionId) == [entry, exit]
  {
    var id := entry.positionId;
    assert [entry][..0] == [] && [entry, exit][..1] == [entry];
    assert Of([], id) == [] && Dedup([]) == [];
    assert Of([entry], id) == [entry] && !Repeats([], entry) && !Repeats([entry], exit);
    assert Dedup([entry]) == [entry];
    assert Dedup([entry, exit]) == [entry, exit];
  }

  lemma SumOfOne(d: Deal, field: Deal -> real)
    ensures SumOf([d], field) == field(d)
  {
    assert [d][..0] == [];
    assert SumOf([], field) == 0.0;
  }

  lemma PairIsEmitted(entry: Deal, exit: Deal)
    requires OpenAndClose(entry, exit)
    ensures Emitted([entry], entry.positionId) && Emitted([entry, exit], entry.positionId)
  {
    OfMembers([entry], entry.positionId);
    OfMembers([entry, exit], entry.positionId);
    assert entry in Of([entry], entry.positionId) && entry in Of([entry, exit], entry.positionId);
  }

  /** For every such pair: the first sync stores the exit's profit, the second, having lost the exit deal, puts the
      entry's in its place and still shows the trade as closed. */
  lemma LostExitDealOverwritesProfit(settings: Settings, rows: Rows, entry: Deal, exit: Deal, now: nat -> int,
                                     again: nat -> int)
    requires OpenAndClose(entry, exit) && settings.cutover.None?
    ensures var id := entry.positionId;
            var once := Synced(settings, rows, Build([entry, exit]), now);
            var twice := Synced(settings, once, Build([entry]), again);
            && id in once && id in twice && once[id].profit == exit.profit && twice[id].profit == entry.profit
            && once[id].closeTime == twice[id].closeTime == exit.time
  {
    hide Synced, Build, Emitted;
    var id := entry.positionId;
    LegsOfTwo(entry, exit);
    FilterTwo(entry, exit, Opens);
    FilterTwo(entry, exit, Closes);
    PairIsEmitted(entry, exit);
    SumOfOne(entry, Volume);
    SumOfOne(exit, Volume);
    SumOfOne(entry, Profit);
    SumOfOne(exit, Profit);
    assert InLegs([entry, exit], id) == [entry] && OutLegs([entry, exit], id) == [exit] && OutLegs([entry], id) == [];
    assert [exit][..0] == [] && Latest([]) == None && Latest([exit]) == exit.time;
    ProfitOfAClosedTradeIsLost(settings, rows, [entry, exit], [entry], now, again, id);
  }
}
