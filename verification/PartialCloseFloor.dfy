/**
 What a partial close leaves behind: how much it may take in every environment, and exactly when it keeps the ticket at
 or above its minimum while others trade the same ticket.
 */
module PartialCloseFloor {
  import opened Common
  import opened Rounding
  import opened Mt5Terminal
  import opened PartialClose

  // ---- One order, as its trace records it -------------------------------------------------------------------------

  /** The position, the constraints and the order of the partial close whose send is at `i`. */
  function ReadAt(trace: seq<Event>, i: int): Position
    requires IsPartialOrder(trace, i)
  {
    trace[i - 5].found.value.value
  }

  function InfoAt(trace: seq<Event>, i: int): SymbolInfo
    requires IsPartialOrder(trace, i)
  {
    trace[i - 4].info.value
  }

  predicate IsPartialOrder(trace: seq<Event>, i: int) {
    && 6 <= i < |trace| && trace[i].Sent? && trace[i].order.Deal?
    && trace[i - 5].Read? && trace[i - 5].found.Some? && trace[i - 5].found.value.Some?
    && trace[i - 4].InfoRead? && trace[i - 4].info.Some?
  }

  function KeyAt(trace: seq<Event>, i: int): Key
    requires IsPartialOrder(trace, i)
  {
    Key(trace[i].sender, trace[i].order.ticket)
  }

  /** By how much the planned remainder exceeds the minimum. */
  function Slack(trace: seq<Event>, i: int): real
    requires IsPartialOrder(trace, i)
  {
    ReadAt(trace, i).volume - trace[i].order.volume - InfoAt(trace, i).volumeMin
  }

  /** The order goes to the account that its position was read on. */
  ghost predicate SteadyCall(env: Env, i: int) {
    i >= 6 && env(i - 5).active == env(i).active
  }

  /** What others take from the ticket between its read and the send is within the slack. */
  ghost predicate OthersWithinSlack(env: Env, trace: seq<Event>, i: int)
    requires IsPartialOrder(trace, i)
  {
    Survivor(env, KeyAt(trace, i), ReadAt(trace, i), i - 4, 5).Some? ==>
      TakenByOthers(env, KeyAt(trace, i), ReadAt(trace, i), i - 4, 5) <= Slack(trace, i)
  }

  /** If the order met the ticket, it left it open, on its side, at no less than `least`. */
  ghost predicate LeavesAtLeast(trace: seq<Event>, i: int, least: real)
    requires IsPartialOrder(trace, i)
  {
    trace[i].met.Some? ==>
      var left := Traded(trace[i].met.value, trace[i].order, trace[i].filled);
      left.Some? && left.value.side == trace[i].met.value.side && left.value.volume >= least
  }

  ghost predicate FloorKept(trace: seq<Event>, i: int)
    requires IsPartialOrder(trace, i)
  {
    LeavesAtLeast(trace, i, InfoAt(trace, i).volumeMin)
  }

  /** How the order at `i` came about: everything the floor depends on. */
  ghost predicate PartialOrderAt(env: Env, trace: seq<Event>, i: int) {
    && IsPartialOrder(trace, i)
    && var p, info, order := ReadAt(trace, i), InfoAt(trace, i), trace[i].order;
       && env(i - 6).active.hedging && trace[i].sender == env(i).active
       && order.side == p.side.Opposite()
       && 0.0 < info.volumeMin <= order.volume < p.volume
       && p.volume - order.volume >= info.volumeMin - HalfUnit(VOLUME_DIGITS)
       && (OnGrid(info.volumeStep, VOLUME_DIGITS) && OnGrid(p.volume, VOLUME_DIGITS) ==> Slack(trace, i) >= 0.0)
       && (SteadyCall(env, i) ==> trace[i].met == Survivor(env, KeyAt(trace, i), p, i - 4, 5))
       && trace[i].filled == if trace[i].met.Some? then Filled(trace[i].met.value, order, env(i)) else 0.0
  }

  /** The seven calls of a partial close that sends, and what the last of them records. */
  lemma CallTrace(env: Env, w: World, ticket: int, volume: real, pin: Pin, symbol: string) returns (calls: seq<Event>)
    requires |w.trace| == w.clock && Prepare(env, w, ticket, volume, pin, symbol).1.Ready?
    ensures var (w1, prep) := Prepare(env, w, ticket, volume, pin, symbol);
            var trace, m := PartiallyClosed(env, w, ticket, volume, pin, symbol).0.trace, env(w.clock + 6);
            var key, book := Key(m.active, prep.order.ticket), Disturbed(w1.book, m);
            var met := if key in book then Some(book[key]) else None;
            && Planned(prep, calls, ticket, volume, pin)
            && |trace| == w.clock + 7 && (forall k :: 0 <= k < 6 ==> trace[w.clock + k] == calls[k])
            && trace[w.clock + 6] == Sent(m.active, prep.order, m.reply, met,
                                          if met.Some? then Filled(met.value, prep.order, m) else 0.0)
  {
    hide Prepare, GatedAt, PlanReduction, Filled, Disturbed, AfterOrder;
    calls := PrepareCalls(env, w, ticket, volume, pin, symbol);
  }

  /** The send of a prepared order, in a world whose trace is its clock. */
  lemma OrderOfCall(env: Env, w: World, ticket: int, volume: real, pin: Pin, symbol: string)
    requires |w.trace| == w.clock && Prepare(env, w, ticket, volume, pin, symbol).1.Ready?
    ensures var trace, i := PartiallyClosed(env, w, ticket, volume, pin, symbol).0.trace, w.clock + 6;
            |trace| == i + 1 && trace[i].Sent? && PartialOrderAt(env, trace, i)
    ensures var trace, prep := PartiallyClosed(env, w, ticket, volume, pin, symbol).0.trace,
                               Prepare(env, w, ticket, volume, pin, symbol).1;
            && trace[w.clock + 6].order == prep.order && ReadAt(trace, w.clock + 6) == prep.read
            && InfoAt(trace, w.clock + 6) == prep.info && prep.order.ticket == ticket
  {
    hide Prepare, PartiallyClosed, GatedAt, PlanReduction, Survivor, Disturbed, Filled;
    var prep := Prepare(env, w, ticket, volume, pin, symbol).1;
    var calls := CallTrace(env, w, ticket, volume, pin, symbol);
    PlannedReductionIsPartial(volume, prep.read, prep.info);
    if env(w.clock + 1).active == env(w.clock + 6).active { MetIsSurvivor(env, w, ticket, volume, pin, symbol); }
    AccountOfCall(env, w, ticket, volume, pin, symbol);
    var trace, c := PartiallyClosed(env, w, ticket, volume, pin, symbol).0.trace, w.clock;
    assert trace[c + 1] == calls[1] && trace[c + 2] == calls[2];
  }

  /** The entry check saw the account that was then active, and it was a hedging one. */
  lemma AccountOfCall(env: Env, w: World, ticket: int, volume: real, pin: Pin, symbol: string)
    requires Prepare(env, w, ticket, volume, pin, symbol).1.Ready?
    ensures env(w.clock).active.hedging
  {
  }

  lemma ReadOfCall(env: Env, w: World, ticket: int, volume: real, pin: Pin, symbol: string)
    requires Prepare(env, w, ticket, volume, pin, symbol).1.Ready?
    ensures var book := Disturbed(Disturbed(w.book, env(w.clock)), env(w.clock + 1));
            var key := Key(env(w.clock + 1).active, ticket);
            key in book && book[key] == Prepare(env, w, ticket, volume, pin, symbol).1.read
  {
    hide SymbolInfoGet, SymbolInfoTick, VerifyMutationIdentity, PlanReduction, ReduceOrder;
  }

  /** The books a send meets, from the books that the position read saw. */
  lemma BooksFromRead(env: Env, book: Book, c: nat)
    ensures Disturbed(Books(env, book, c, 6), env(c + 6))
         == Books(env, Disturbed(Disturbed(book, env(c)), env(c + 1)), c + 2, 5)
  {
    hide Disturbed;
    BooksStep(env, book, c, 6);
    BooksInParts(env, book, c, 2, 5);
    BooksStep(env, book, c, 1);
    BooksStep(env, book, c, 0);
  }

  /** On a steady account the order meets what others left of the position that was read. */
  lemma MetIsSurvivor(env: Env, w: World, ticket: int, volume: real, pin: Pin, symbol: string)
    requires Prepare(env, w, ticket, volume, pin, symbol).1.Ready?
    requires env(w.clock + 1).active == env(w.clock + 6).active
    ensures var (w1, prep) := Prepare(env, w, ticket, volume, pin, symbol);
            var key, book := Key(env(w.clock + 6).active, ticket), Disturbed(w1.book, env(w.clock + 6));
            (if key in book then Some(book[key]) else None) == Survivor(env, key, prep.read, w.clock + 2, 5)
  {
    hide Prepare, Disturbed, Survivor, Books;
    var (w1, prep) := Prepare(env, w, ticket, volume, pin, symbol);
    var calls := PrepareCalls(env, w, ticket, volume, pin, symbol);
    var key, c := Key(env(w.clock + 6).active, ticket), w.clock;
    ReadOfCall(env, w, ticket, volume, pin, symbol);
    BooksFromRead(env, w.book, c);
    BooksSurvivor(env, key, Disturbed(Disturbed(w.book, env(c)), env(c + 1)), c + 2, 5);
  }

  // ---- When the floor holds ---------------------------------------------------------------------------------------

  lemma SmallShareKeepsFloor(env: Env, trace: seq<Event>, i: int)
    requires PartialOrderAt(env, trace, i) && SteadyCall(env, i) && OthersWithinSlack(env, trace, i)
    ensures FloorKept(trace, i)
  {
    SurvivorVolume(env, KeyAt(trace, i), ReadAt(trace, i), i - 4, 5);
  }

  lemma FullFillBreaksFloor(env: Env, trace: seq<Event>, i: int)
    requires PartialOrderAt(env, trace, i) && SteadyCall(env, i) && !OthersWithinSlack(env, trace, i)
    requires env(i).reply == Ret(RETCODE_DONE)
    ensures !FloorKept(trace, i)
  {
    SurvivorVolume(env, KeyAt(trace, i), ReadAt(trace, i), i - 4, 5);
  }

  /** What the broker does with one order: its answer, and what is filled behind an answer that is not DONE. */
  datatype Fill = Fill(reply: Reply, lots: real)

  /** The same outside world with other fills. */
  function Refill(env: Env, fills: nat -> Fill): Env {
    (k: nat) => env(k).(reply := fills(k).reply, fill := fills(k).lots)
  }

  lemma {:induction false} OthersIgnoreFills(env: Env, fills: nat -> Fill, key: Key, p: Position, from: nat, n: nat)
    ensures Survivor(Refill(env, fills), key, p, from, n) == Survivor(env, key, p, from, n)
    ensures TakenByOthers(Refill(env, fills), key, p, from, n) == TakenByOthers(env, key, p, from, n)
    decreases n
  {
    if n > 0 && key !in env(from).closed {
      OthersIgnoreFills(env, fills, key, DisturbedPosition(key, p, env(from)), from + 1, n - 1);
    }
  }

  lemma DisturbedIgnoresFills(env: Env, fills: nat -> Fill, book: Book, k: nat)
    ensures Disturbed(book, Refill(env, fills)(k)) == Disturbed(book, env(k))
  {
  }

  lemma PlannedIgnoresFills(env: Env, fills: nat -> Fill, w: World, ticket: int, volume: real, pin: Pin, p: Position)
    ensures PreparePlanned(Refill(env, fills), w, ticket, volume, pin, p)
         == PreparePlanned(env, w, ticket, volume, pin, p)
  {
    var (w1, info) := SymbolInfoGet(env, w, p.symbol);
    DisturbedIgnoresFills(env, fills, w.book, w.clock);
    assert SymbolInfoGet(Refill(env, fills), w, p.symbol) == (w1, info);
    if info.None? || PlanReduction(volume, p, info.value).Refuse? { return; }
    var (w2, tick) := SymbolInfoTick(env, w1);
    DisturbedIgnoresFills(env, fills, w1.book, w1.clock);
    assert SymbolInfoTick(Refill(env, fills), w1) == (w2, tick);
    if tick.None? { return; }
    var (w3, acc) := AccountInfo(env, w2);
    DisturbedIgnoresFills(env, fills, w2.book, w2.clock);
    assert AccountInfo(Refill(env, fills), w2) == (w3, acc);
    DisturbedIgnoresFills(env, fills, w3.book, w3.clock);
    assert TerminalInfo(Refill(env, fills), w3) == TerminalInfo(env, w3);
  }

  /** Everything before the send is decided without the fills. */
  lemma PrepareIgnoresFills(env: Env, fills: nat -> Fill, w: World, ticket: int, volume: real, pin: Pin, symbol: string)
    ensures Prepare(Refill(env, fills), w, ticket, volume, pin, symbol) == Prepare(env, w, ticket, volume, pin, symbol)
  {
    var (w1, acc) := AccountInfo(env, w);
    DisturbedIgnoresFills(env, fills, w.book, w.clock);
    assert AccountInfo(Refill(env, fills), w) == (w1, acc);
    if EntryRefusal(acc, volume, pin, symbol).Some? { return; }
    var (w2, found) := PositionsGet(env, w1, ticket);
    DisturbedIgnoresFills(env, fills, w1.book, w1.clock);
    assert PositionsGet(Refill(env, fills), w1, ticket) == (w2, found);
    if found.Some? && found.value.Some? && found.value.value.symbol == symbol {
      PlannedIgnoresFills(env, fills, w2, ticket, volume, pin, found.value.value);
    }
  }

  /** What others take from the position over the five calls from `from` on is at most what the planned remainder
      exceeds the minimum by; a position that they close is not the order's doing. */
  ghost predicate ShareFits(env: Env, key: Key, prep: Preparation, from: nat)
    requires prep.Ready?
  {
    && prep.order.Deal?
    && (Survivor(env, key, prep.read, from, 5).Some? ==>
          TakenByOthers(env, key, prep.read, from, 5) <= prep.read.volume - prep.order.volume - prep.info.volumeMin)
  }

  /** The call leaves the ticket at its minimum or above. */
  ghost predicate KeepsFloor(env: Env, w: World, ticket: int, volume: real, pin: Pin, symbol: string) {
    var trace := PartiallyClosed(env, w, ticket, volume, pin, symbol).0.trace;
    IsPartialOrder(trace, w.clock + 6) && FloorKept(trace, w.clock + 6)
  }

  lemma RefilledCall(env: Env, fills: nat -> Fill, w: World, ticket: int, volume: real, pin: Pin, symbol: string)
    requires |w.trace| == w.clock && SteadyCall(env, w.clock + 6)
    requires Prepare(env, w, ticket, volume, pin, symbol).1.Ready?
    ensures var prep, key := Prepare(env, w, ticket, volume, pin, symbol).1, Key(env(w.clock + 6).active, ticket);
            && (ShareFits(env, key, prep, w.clock + 2) ==>
                  KeepsFloor(Refill(env, fills), w, ticket, volume, pin, symbol))
            && (!ShareFits(env, key, prep, w.clock + 2) && fills(w.clock + 6).reply == Ret(RETCODE_DONE) ==>
                  !KeepsFloor(Refill(env, fills), w, ticket, volume, pin, symbol))
  {
    hide Prepare, PartiallyClosed;
    var other, i := Refill(env, fills), w.clock + 6;
    var prep, key := Prepare(env, w, ticket, volume, pin, symbol).1, Key(env(w.clock + 6).active, ticket);
    PrepareIgnoresFills(env, fills, w, ticket, volume, pin, symbol);
    OrderOfCall(other, w, ticket, volume, pin, symbol);
    OthersIgnoreFills(env, fills, key, prep.read, w.clock + 2, 5);
    var trace := PartiallyClosed(other, w, ticket, volume, pin, symbol).0.trace;
    if OthersWithinSlack(other, trace, i) {
      SmallShareKeepsFloor(other, trace, i);
    } else if fills(i).reply == Ret(RETCODE_DONE) {
      FullFillBreaksFloor(other, trace, i);
    }
  }

  /**
   A partial close that sends keeps the floor however the broker fills it, if and only if what others take from the
   ticket between the read and the send is at most what the planned remainder exceeds the minimum by.
   */
  lemma FloorHoldsExactlyWithinSlack(env: Env, w: World, ticket: int, volume: real, pin: Pin, symbol: string)
    requires |w.trace| == w.clock && SteadyCall(env, w.clock + 6)
    requires Prepare(env, w, ticket, volume, pin, symbol).1.Ready?
    ensures (forall fills: nat -> Fill :: KeepsFloor(Refill(env, fills), w, ticket, volume, pin, symbol))
       <==> ShareFits(env, Key(env(w.clock + 6).active, ticket), Prepare(env, w, ticket, volume, pin, symbol).1,
                      w.clock + 2)
  {
    hide Prepare, KeepsFloor, ShareFits;
    forall fills: nat -> Fill
      ensures ShareFits(env, Key(env(w.clock + 6).active, ticket), Prepare(env, w, ticket, volume, pin, symbol).1,
                        w.clock + 2) ==>
              KeepsFloor(Refill(env, fills), w, ticket, volume, pin, symbol)
    {
      RefilledCall(env, fills, w, ticket, volume, pin, symbol);
    }
    var full: nat -> Fill := (k: nat) => Fill(Ret(RETCODE_DONE), 0.0);
    RefilledCall(env, full, w, ticket, volume, pin, symbol);
  }

  /** Nobody else touches the ticket between its read and its send. */
  ghost predicate Undisturbed(env: Env, key: Key, i: int) {
    i >= 4 && forall k: nat :: i - 4 <= k <= i ==> key !in env(k).closed && key !in env(k).shrunk
  }

  lemma {:induction false} UndisturbedSurvives(env: Env, key: Key, p: Position, i: int, from: nat, n: nat)
    requires Undisturbed(env, key, i) && i - 4 <= from && from + n == i + 1
    ensures TakenByOthers(env, key, p, from, n) == 0.0
    decreases n
  {
    if n > 0 { UndisturbedSurvives(env, key, DisturbedPosition(key, p, env(from)), i, from + 1, n - 1); }
  }

  /** Undisturbed, every order leaves the minimum, up to half of the eighth digit; exactly for volumes on that grid. */
  lemma UndisturbedKeepsFloor(env: Env, trace: seq<Event>, i: int)
    requires PartialOrderAt(env, trace, i) && SteadyCall(env, i) && Undisturbed(env, KeyAt(trace, i), i)
    ensures LeavesAtLeast(trace, i, InfoAt(trace, i).volumeMin - HalfUnit(VOLUME_DIGITS))
    ensures OnGrid(InfoAt(trace, i).volumeStep, VOLUME_DIGITS) && OnGrid(ReadAt(trace, i).volume, VOLUME_DIGITS) ==>
              FloorKept(trace, i)
  {
    SurvivorVolume(env, KeyAt(trace, i), ReadAt(trace, i), i - 4, 5);
    UndisturbedSurvives(env, KeyAt(trace, i), ReadAt(trace, i), i, i - 4, 5);
  }

  // ---- A run in which the floor breaks ----------------------------------------------------------------------------

  const RACE_INFO: SymbolInfo := SymbolInfo(5, 0.00001, 0, 0, 1.0, 1.0, true)
  const RACE_KEY: Key := Key(Account("7", "S", DEMO, true), 1)

  /** Everything succeeds; during call 6, the send, someone else has already reduced the ticket to 2 lots. */
  function RaceEnv(): Env {
    (k: nat) => Move(RACE_KEY.account, true, true, true, true, Some(Tick(1.0, 1.0)), map["X" := RACE_INFO],
                     {}, if k == 6 then map[RACE_KEY := 2.0] else map[], map[], Ret(RETCODE_DONE), true, 0.0)
  }

  lemma ThreeOfFourIsPlanned(p: Position)
    requires p.volume == 4.0
    ensures PlanReduction(3.0, p, RACE_INFO) == Reduce(3.0)
  {
    OneOnGrid();
    NormalizeFloorsToStep(3.0, 1.0);
    RoundToGrid(1.0, VOLUME_DIGITS);
  }

  lemma OneOnGrid()
    ensures OnGrid(1.0, VOLUME_DIGITS)
  {
    assert Pow10(2) == 100.0;
    assert Pow10(4) == 10000.0;
    assert Pow10(6) == 1000000.0;
    assert Pow10(8) == 100000000.0;
  }

  lemma RaceBook(p: Position, k: nat)
    requires p.volume == 4.0
    ensures Disturbed(map[RACE_KEY := p], RaceEnv()(k)) == map[RACE_KEY := if k == 6 then p.(volume := 2.0) else p]
  {
  }

  /** The approach of the racing call. */
  lemma RacePrepare(p: Position) returns (w6: World)
    requires p == Position("X", Buy, 4.0, 0.0, 0.0)
    ensures Prepare(RaceEnv(), World(map[RACE_KEY := p], 0, []), 1, 3.0, Pin(true, "7", "S"), "X")
         == (w6, Ready(p, RACE_INFO, ReduceOrder(p, 1, 3.0, Tick(1.0, 1.0))))
    ensures w6.clock == 6 && w6.book == map[RACE_KEY := p]
  {
    hide PlanReduction, Disturbed;
    var env, pin, w := RaceEnv(), Pin(true, "7", "S"), World(map[RACE_KEY := p], 0, []);
    ThreeOfFourIsPlanned(p);
    forall k: nat | k < 6 ensures Disturbed(w.book, env(k)) == w.book { RaceBook(p, k); }
    var w1 := AccountInfo(env, w).0;
    var w2 := PositionsGet(env, w1, 1).0;
    var w3 := SymbolInfoGet(env, w2, "X").0;
    var w4 := SymbolInfoTick(env, w3).0;
    w6 := TerminalInfo(env, AccountInfo(env, w4).0).0;
    assert VerifyMutationIdentity(env, w4, pin) == (w6, Pass);
    assert PreparePlanned(env, w2, 1, 3.0, pin, p) == (w6, Ready(p, RACE_INFO, ReduceOrder(p, 1, 3.0, Tick(1.0, 1.0))));
  }

  /** Three of four lots are to be closed, two are left by others: the very same order closes the position. */
  lemma OthersCanBreakTheFloor()
    ensures var p := Position("X", Buy, 4.0, 0.0, 0.0);
            var w := World(map[RACE_KEY := p], 0, []);
            var (w', result) := PartiallyClosed(RaceEnv(), w, 1, 3.0, Pin(true, "7", "S"), "X");
            result.Mutated? && RACE_KEY !in w'.book
  {
    hide Prepare, Disturbed;
    var p := Position("X", Buy, 4.0, 0.0, 0.0);
    var w6 := RacePrepare(p);
    RaceBook(p, 6);
  }

  // ---- On a schedule of account switches --------------------------------------------------------------------------

  /** The order, if the call makes one, leaves the minimum up to half of the eighth digit. */
  ghost predicate LeavesMinimum(env: Env, w: World, ticket: int, volume: real, pin: Pin, symbol: string) {
    var trace, i := PartiallyClosed(env, w, ticket, volume, pin, symbol).0.trace, w.clock + 6;
    IsPartialOrder(trace, i) ==> LeavesAtLeast(trace, i, InfoAt(trace, i).volumeMin - HalfUnit(VOLUME_DIGITS))
  }

  /** Nobody else ever touches the ticket. */
  ghost predicate LeftAlone(env: Env, key: Key) {
    forall k: nat :: key !in env(k).closed && key !in env(k).shrunk
  }

  /** On this schedule a call leaves the minimum, whatever else happens while nobody else touches the ticket. */
  ghost predicate AlwaysLeavesMinimum(schedule: Schedule, ticket: int, volume: real, pin: Pin, symbol: string) {
    forall env: Env, w: World ::
      Follows(env, schedule) && w.clock == 0 && w.trace == [] && LeftAlone(env, Key(schedule(6), ticket)) ==>
        LeavesMinimum(env, w, ticket, volume, pin, symbol)
  }

  /** The entry checks and the gate let the call send. */
  predicate LetThrough(schedule: Schedule, volume: real, pin: Pin, symbol: string) {
    EntryRefusal(Some(schedule(0)), volume, pin, symbol).None? && Admits(pin.(required := true), schedule(4))
  }

  lemma PreparedIsLetThrough(schedule: Schedule, env: Env, w: World, ticket: int, volume: real, pin: Pin,
                             symbol: string)
    requires Follows(env, schedule) && w.clock == 0 && Prepare(env, w, ticket, volume, pin, symbol).1.Ready?
    ensures LetThrough(schedule, volume, pin, symbol)
  {
    hide Disturbed, PlanReduction, ReduceOrder;
  }

  /** An order that goes to the account that was read leaves the minimum. */
  lemma SentWhereReadLeavesMinimum(schedule: Schedule, env: Env, w: World, ticket: int, volume: real, pin: Pin,
                                   symbol: string)
    requires LetThrough(schedule, volume, pin, symbol) ==> schedule(6) == schedule(1)
    requires Follows(env, schedule) && w.clock == 0 && w.trace == [] && LeftAlone(env, Key(schedule(6), ticket))
    ensures LeavesMinimum(env, w, ticket, volume, pin, symbol)
  {
    hide Prepare, LetThrough, PartialOrderAt, Survivor, GatedAt;
    var calls := PrepareCalls(env, w, ticket, volume, pin, symbol);
    if Prepare(env, w, ticket, volume, pin, symbol).1.Ready? {
      PreparedIsLetThrough(schedule, env, w, ticket, volume, pin, symbol);
      OrderOfCall(env, w, ticket, volume, pin, symbol);
      UndisturbedKeepsFloor(env, PartiallyClosed(env, w, ticket, volume, pin, symbol).0.trace, 6);
    }
  }

  /** A symbol whose smallest lot and step are the volume that is asked for. */
  function OneLot(volume: real): SymbolInfo {
    SymbolInfo(5, 0.0, 0, 0, volume, volume, true)
  }

  lemma HalfIsPlanned(p: Position, volume: real)
    requires volume > 0.0 && OnGrid(volume, VOLUME_DIGITS) && p.volume == volume + volume
    ensures PlanReduction(volume, p, OneLot(volume)) == Reduce(volume)
  {
    assert volume / volume == 1.0;
    assert StepCount(volume, volume) == 1 && Steps(1, volume) == volume;
    RoundToGrid(volume, VOLUME_DIGITS);
  }

  /** The approach of a call in the calm environment, which reads twice the volume that it is to close. */
  lemma CalmPrepare(schedule: Schedule, book: Book, ticket: int, volume: real, pin: Pin, symbol: string)
    returns (w6: World)
    requires LetThrough(schedule, volume, pin, symbol) && OnGrid(volume, VOLUME_DIGITS)
    requires Key(schedule(1), ticket) in book
    requires book[Key(schedule(1), ticket)] == Position(symbol, Buy, volume + volume, 0.0, 0.0)
    ensures var p := Position(symbol, Buy, volume + volume, 0.0, 0.0);
            Prepare(CalmEnv(schedule, symbol, OneLot(volume)), World(book, 0, []), ticket, volume, pin, symbol)
              == (w6, Ready(p, OneLot(volume), ReduceOrder(p, ticket, volume, Tick(1.0, 1.0))))
    ensures w6.clock == 6 && w6.book == book
  {
    hide Disturbed, PlanReduction, OnGrid;
    var env, info, p := CalmEnv(schedule, symbol, OneLot(volume)), OneLot(volume), book[Key(schedule(1), ticket)];
    HalfIsPlanned(p, volume);
    CalmBook(schedule, symbol, info, book, 0);
    CalmBook(schedule, symbol, info, book, 1);
    CalmBook(schedule, symbol, info, book, 2);
    CalmBook(schedule, symbol, info, book, 3);
    CalmBook(schedule, symbol, info, book, 4);
    CalmBook(schedule, symbol, info, book, 5);
    var w := World(book, 0, []);
    var w1 := AccountInfo(env, w).0;
    var w2 := PositionsGet(env, w1, ticket).0;
    var w3 := SymbolInfoGet(env, w2, symbol).0;
    var w4 := SymbolInfoTick(env, w3).0;
    w6 := TerminalInfo(env, AccountInfo(env, w4).0).0;
    assert VerifyMutationIdentity(env, w4, pin.(required := true)) == (w6, Pass);
    assert PreparePlanned(env, w2, ticket, volume, pin, p)
        == (w6, Ready(p, info, ReduceOrder(p, ticket, volume, Tick(1.0, 1.0))));
  }

  /** Twice the volume is read on one account; the order closes a position of just that volume on another. */
  lemma OtherTicketIsClosed(schedule: Schedule, ticket: int, volume: real, pin: Pin, symbol: string)
    requires LetThrough(schedule, volume, pin, symbol) && OnGrid(volume, VOLUME_DIGITS) && schedule(6) != schedule(1)
    ensures !AlwaysLeavesMinimum(schedule, ticket, volume, pin, symbol)
  {
    hide Prepare, LetThrough, Disturbed, OnGrid, HalfUnit;
    var env, p := CalmEnv(schedule, symbol, OneLot(volume)), Position(symbol, Buy, volume + volume, 0.0, 0.0);
    var met := Key(schedule(6), ticket);
    var w := World(map[Key(schedule(1), ticket) := p, met := p.(volume := volume)], 0, []);
    var w6 := CalmPrepare(schedule, w.book, ticket, volume, pin, symbol);
    OrderOfCall(env, w, ticket, volume, pin, symbol);
    CalmBook(schedule, symbol, OneLot(volume), w.book, 6);
    assert LetThrough(schedule, volume, pin, symbol) ==> volume > 0.0;
    var trace := PartiallyClosed(env, w, ticket, volume, pin, symbol).0.trace;
    assert trace[6].met == Some(w.book[met]) && trace[6].filled == volume;
    assert !LeavesMinimum(env, w, ticket, volume, pin, symbol);
  }

  /**
   For any schedule, pin and volume on the eight-digit grid: while nobody else touches the ticket, a partial close
   leaves its minimum, whatever else happens, if and only if it is refused before its send, or its order goes to the
   account that was read.
   */
  lemma LeavesMinimumExactlyWhenSentWhereRead(schedule: Schedule, ticket: int, volume: real, pin: Pin, symbol: string)
    requires OnGrid(volume, VOLUME_DIGITS)
    ensures AlwaysLeavesMinimum(schedule, ticket, volume, pin, symbol) <==>
              (LetThrough(schedule, volume, pin, symbol) ==> schedule(6) == schedule(1))
  {
    hide LeavesMinimum, LetThrough, LeftAlone, OnGrid;
    if LetThrough(schedule, volume, pin, symbol) && schedule(6) != schedule(1) {
      OtherTicketIsClosed(schedule, ticket, volume, pin, symbol);
    } else {
      forall env: Env, w: World
        | Follows(env, schedule) && w.clock == 0 && w.trace == [] && LeftAlone(env, Key(schedule(6), ticket))
        ensures LeavesMinimum(env, w, ticket, volume, pin, symbol)
      {
        SentWhereReadLeavesMinimum(schedule, env, w, ticket, volume, pin, symbol);
      }
    }
  }
}
