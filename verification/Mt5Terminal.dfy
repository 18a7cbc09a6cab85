/**
 The MetaTrader 5 terminal as the bridge sees it: an open-position book per account that others keep changing, an
 account that may be switched between any two calls, reads that may fail, and sends that may land with or without an
 answer. `Env` fixes everything the outside world does, one `Move` per call; every statement is about every `Env`.
 */
module Mt5Terminal {
  import opened Common

  datatype Side = Buy | Sell {
    function Opposite(): Side {
      if this == Buy then Sell else Buy
    }
  }

  const DEMO: int := 0
  const RETCODE_DONE: int := 10009
  const RETCODE_DONE_PARTIAL: int := 10010

  datatype Account = Account(login: string, server: string, tradeMode: int, hedging: bool)
  datatype Position = Position(symbol: string, side: Side, volume: real, sl: real, tp: real)
  datatype Tick = Tick(bid: real, ask: real)
  datatype SymbolInfo = SymbolInfo(digits: nat, point: real, stopsLevel: int, freezeLevel: int,
                                   volumeMin: real, volumeStep: real, fillingSupported: bool)

  /** A position is identified by the account that holds it and its ticket. */
  datatype Key = Key(account: Account, ticket: int)
  type Book = map<Key, Position>

  datatype Order =
    | Deal(symbol: string, side: Side, volume: real, ticket: int, price: real)
    | StopMove(symbol: string, ticket: int, sl: real, tp: real)

  datatype Reply = NoReply | Ret(code: int)

  /** What the outside world does before and during one MT5 call. */
  datatype Move = Move(
    active: Account,
    connected: bool,
    accountReadable: bool,
    terminalReadable: bool,
    positionsReadable: bool,
    tick: Option<Tick>,
    symbols: map<string, SymbolInfo>,
    closed: set<Key>,
    shrunk: map<Key, real>,
    restopped: map<Key, real>,
    reply: Reply,
    landed: bool,
    fill: real)

  type Env = nat -> Move

  /** Which account is active at every call. */
  type Schedule = nat -> Account

  ghost predicate Follows(env: Env, schedule: Schedule) {
    forall k: nat :: env(k).active == schedule(k)
  }

  /** Everything succeeds and nobody interferes; only the account follows the schedule. */
  function CalmEnv(schedule: Schedule, symbol: string, info: SymbolInfo): Env {
    (k: nat) => Move(schedule(k), true, true, true, true, Some(Tick(1.0, 1.0)), map[symbol := info], {}, map[], map[],
                     Ret(RETCODE_DONE), true, 0.0)
  }

  datatype Event =
    | Read(account: Account, ticket: int, found: Option<Option<Position>>)
    | TickRead(tick: Option<Tick>)
    | InfoRead(symbol: string, info: Option<SymbolInfo>)
    | AccountRead(reported: Option<Account>)
    | TerminalRead(connected: Option<bool>)
    | Sent(sender: Account, order: Order, reply: Reply, met: Option<Position>, filled: real)

  datatype World = World(book: Book, clock: nat, trace: seq<Event>)

  /** Others may close a position, reduce it or move its stop; nobody else makes it larger or turns it around. */
  function DisturbedPosition(k: Key, p: Position, m: Move): Position {
    p.(volume := if k in m.shrunk && 0.0 < m.shrunk[k] < p.volume then m.shrunk[k] else p.volume,
       sl := if k in m.restopped then m.restopped[k] else p.sl)
  }

  function Disturbed(book: Book, m: Move): Book {
    map k | k in book && k !in m.closed :: DisturbedPosition(k, book[k], m)
  }

  lemma CalmBook(schedule: Schedule, symbol: string, info: SymbolInfo, book: Book, k: nat)
    ensures Disturbed(book, CalmEnv(schedule, symbol, info)(k)) == book
  {
  }

  /** One MT5 call: the outside world moves first, then the call is recorded. */
  function Tock(env: Env, w: World, e: Event): World {
    World(Disturbed(w.book, env(w.clock)), w.clock + 1, w.trace + [e])
  }

  function AccountInfo(env: Env, w: World): (World, Option<Account>) {
    var m := env(w.clock);
    var acc := if m.accountReadable then Some(m.active) else None;
    (Tock(env, w, AccountRead(acc)), acc)
  }

  function TerminalInfo(env: Env, w: World): (World, Option<bool>) {
    var m := env(w.clock);
    var term := if m.terminalReadable then Some(m.connected) else None;
    (Tock(env, w, TerminalRead(term)), term)
  }

  /** `None` is a failed query; `Some(None)` is a successful query that found nothing. */
  function PositionsGet(env: Env, w: World, ticket: int): (World, Option<Option<Position>>) {
    var m := env(w.clock);
    var book := Disturbed(w.book, m);
    var key := Key(m.active, ticket);
    var found := if !m.positionsReadable then None else Some(if key in book then Some(book[key]) else None);
    (Tock(env, w, Read(m.active, ticket, found)), found)
  }

  function SymbolInfoTick(env: Env, w: World): (World, Option<Tick>) {
    var tick := env(w.clock).tick;
    (Tock(env, w, TickRead(tick)), tick)
  }

  function SymbolInfoGet(env: Env, w: World, symbol: string): (World, Option<SymbolInfo>) {
    var symbols := env(w.clock).symbols;
    var info := if symbol in symbols then Some(symbols[symbol]) else None;
    (Tock(env, w, InfoRead(symbol, info)), info)
  }

  /** The most an order can trade at a position: a closing order is limited to it on a hedging account only. */
  function Most(p: Position, order: Order, hedging: bool): real
    requires order.Deal?
  {
    if hedging && order.side == p.side.Opposite() then Max(0.0, Min(order.volume, p.volume)) else Max(0.0, order.volume)
  }

  /** DONE fills the most; any other answer, or none, may hide a fill of anything up to that. */
  function Filled(p: Position, order: Order, m: Move): (filled: real)
    requires order.Deal?
  {
    var most := Most(p, order, m.active.hedging);
    if m.reply == Ret(RETCODE_DONE) then most else Max(0.0, Min(m.fill, most))
  }

  /** What a fill makes of the position: more of the same side, less of it, nothing, or the other side. */
  function Traded(p: Position, order: Order, filled: real): Option<Position>
    requires order.Deal?
  {
    if order.side == p.side then Some(p.(volume := p.volume + filled))
    else if filled < p.volume then Some(p.(volume := p.volume - filled))
    else if filled == p.volume then None
    else Some(p.(side := order.side, volume := filled - p.volume))
  }

  /** An order for a ticket that its account does not hold trades nothing. */
  function AfterOrder(book: Book, key: Key, order: Order, m: Move): Book {
    if key !in book then book
    else match order
      case Deal(_, _, _, _, _) =>
        var left := Traded(book[key], order, Filled(book[key], order, m));
        if left.None? then book - {key} else book[key := left.value]
      case StopMove(_, _, sl, tp) =>
        if m.reply == Ret(RETCODE_DONE) || m.landed then book[key := book[key].(sl := sl, tp := tp)] else book
  }

  /** The record of an order keeps the position it met and how much of it was filled. */
  function OrderSend(env: Env, w: World, order: Order): (World, Reply) {
    var m := env(w.clock);
    var book := Disturbed(w.book, m);
    var key := Key(m.active, order.ticket);
    var met := if key in book then Some(book[key]) else None;
    var filled := if order.Deal? && met.Some? then Filled(met.value, order, m) else 0.0;
    (World(AfterOrder(book, key, order, m), w.clock + 1, w.trace + [Sent(m.active, order, m.reply, met, filled)]),
     m.reply)
  }

  // ---- The identity gate in front of every close, partial close and stop move -------------------------------------

  /** The pin in force: from the request when `required`, from the process environment otherwise; "" means unset. */
  datatype Pin = Pin(required: bool, login: string, server: string)

  datatype Verdict =
    | Pass | PinRequired | TerminalUnavailable | NotConnected | AccountUnavailable | NotDemo | LoginMismatch
    | ServerMismatch
  {
    /** Mismatches that no retry can cure. */
    predicate Hard() {
      LoginMismatch? || ServerMismatch? || PinRequired? || NotDemo?
    }
  }

  /** Passing means exactly: connected, demo, and equal to every pin that is set. */
  function EvaluateMutationIdentity(acc: Option<Account>, term: Option<bool>, pin: Pin): (v: Verdict)
    ensures v.Pass? <==> term == Some(true) && acc.Some? && acc.value.tradeMode == DEMO
                         && (pin.login == "" || acc.value.login == pin.login)
                         && (pin.server == "" || acc.value.server == pin.server)
    ensures v.Hard() ==> term == Some(true) && acc.Some?
  {
    if term.None? then TerminalUnavailable
    else if !term.value then NotConnected
    else if acc.None? then AccountUnavailable
    else if acc.value.tradeMode != DEMO then NotDemo
    else if pin.login != "" && acc.value.login != pin.login then LoginMismatch
    else if pin.server != "" && acc.value.server != pin.server then ServerMismatch
    else Pass
  }

  function VerifyMutationIdentity(env: Env, w: World, pin: Pin): (World, Verdict) {
    var (w1, acc) := AccountInfo(env, w);
    var (w2, term) := TerminalInfo(env, w1);
    (w2, if pin.required && (pin.login == "" || pin.server == "") then PinRequired
         else EvaluateMutationIdentity(acc, term, pin))
  }

  /** The gate lets an order through while this account is active and the terminal answers. */
  predicate Admits(pin: Pin, a: Account) {
    EvaluateMutationIdentity(Some(a), Some(true), pin).Pass? && (pin.required ==> pin.login != "" && pin.server != "")
  }

  /** The two events in front of index `i` are a passing identity check. */
  ghost predicate GatedAt(trace: seq<Event>, i: int, pin: Pin) {
    && 2 <= i <= |trace|
    && trace[i - 2].AccountRead? && trace[i - 1].TerminalRead?
    && EvaluateMutationIdentity(trace[i - 2].reported, trace[i - 1].connected, pin).Pass?
    && (pin.required ==> pin.login != "" && pin.server != "")
  }

  // ---- What one call can and cannot do to the books ---------------------------------------------------------------

  /** Every position still there was there before, on the same side and no larger. */
  ghost predicate Shrunk(before: Book, after: Book) {
    forall k :: k in after ==> k in before && after[k].side == before[k].side && after[k].symbol == before[k].symbol
                               && after[k].volume <= before[k].volume
  }

  lemma DisturbedShrinks(book: Book, m: Move)
    ensures Shrunk(book, Disturbed(book, m))
  {
  }

  /** The books after some calls that send nothing. */
  function Books(env: Env, book: Book, from: nat, n: nat): Book
    decreases n
  {
    if n == 0 then book else Books(env, Disturbed(book, env(from)), from + 1, n - 1)
  }

  lemma {:induction false} BooksStep(env: Env, book: Book, from: nat, n: nat)
    ensures Books(env, book, from, n + 1) == Disturbed(Books(env, book, from, n), env(from + n))
    decreases n
  {
    if n > 0 { BooksStep(env, Disturbed(book, env(from)), from + 1, n - 1); }
  }

  /** From `start` only calls that send nothing led to `w`, recorded as `calls`. */
  ghost predicate After(env: Env, start: World, w: World, calls: seq<Event>) {
    && w.trace == start.trace + calls && w.clock == start.clock + |calls|
    && w.book == Books(env, start.book, start.clock, |calls|)
  }

  lemma AfterCall(env: Env, start: World, w: World, calls: seq<Event>, e: Event)
    requires After(env, start, w, calls)
    ensures After(env, start, Tock(env, w, e), calls + [e])
  {
    BooksStep(env, start.book, start.clock, |calls|);
  }

  /** What others leave of one position over some calls. */
  function Survivor(env: Env, key: Key, p: Position, from: nat, n: nat): Option<Position>
    decreases n
  {
    if n == 0 then Some(p)
    else if key in env(from).closed then None
    else Survivor(env, key, DisturbedPosition(key, p, env(from)), from + 1, n - 1)
  }

  /** How much others take from a position over some calls, until they close it. */
  function TakenByOthers(env: Env, key: Key, p: Position, from: nat, n: nat): real
    decreases n
  {
    if n == 0 || key in env(from).closed then 0.0
    else
      var q := DisturbedPosition(key, p, env(from));
      p.volume - q.volume + TakenByOthers(env, key, q, from + 1, n - 1)
  }

  lemma {:induction false} SurvivorVolume(env: Env, key: Key, p: Position, from: nat, n: nat)
    ensures TakenByOthers(env, key, p, from, n) >= 0.0
    ensures var q := Survivor(env, key, p, from, n);
            q.Some? ==> && q.value.volume == p.volume - TakenByOthers(env, key, p, from, n)
                        && q.value.side == p.side && q.value.symbol == p.symbol
                        && (p.volume > 0.0 ==> q.value.volume > 0.0)
    decreases n
  {
    if n > 0 && key !in env(from).closed {
      SurvivorVolume(env, key, DisturbedPosition(key, p, env(from)), from + 1, n - 1);
    }
  }

  lemma {:induction false} BooksSurvivor(env: Env, key: Key, book: Book, from: nat, n: nat)
    ensures key !in book ==> key !in Books(env, book, from, n)
    ensures key in book ==>
              var q := Survivor(env, key, book[key], from, n);
              if q.Some? then key in Books(env, book, from, n) && Books(env, book, from, n)[key] == q.value
              else key !in Books(env, book, from, n)
    decreases n
  {
    if n > 0 {
      BooksSurvivor(env, key, Disturbed(book, env(from)), from + 1, n - 1);
    }
  }

  lemma {:induction false} BooksInParts(env: Env, book: Book, from: nat, n: nat, m: nat)
    ensures Books(env, book, from, n + m) == Books(env, Books(env, book, from, n), from + n, m)
    decreases n
  {
    if n > 0 { BooksInParts(env, Disturbed(book, env(from)), from + 1, n - 1, m); }
  }

  ghost predicate NoSends(calls: seq<Event>) {
    forall e :: e in calls ==> !e.Sent?
  }

  function CountSends(trace: seq<Event>): (n: nat) {
    if trace == [] then 0 else CountSends(trace[..|trace| - 1]) + if trace[|trace| - 1].Sent? then 1 else 0
  }

  lemma CountSendsAppend(trace: seq<Event>, e: Event)
    ensures CountSends(trace + [e]) == CountSends(trace) + if e.Sent? then 1 else 0
  {
    assert (trace + [e])[..|trace|] == trace;
  }

  /** The running terminal the bridge calls into; each method is one MT5 call. */
  class Terminal {
    const env: Env
    var world: World

    constructor (env: Env, book: Book)
      ensures this.env == env && world == World(book, 0, [])
    {
      this.env := env;
      this.world := World(book, 0, []);
    }

    method ReadAccount() returns (acc: Option<Account>)
      modifies this
      ensures (world, acc) == AccountInfo(env, old(world))
    {
      var (w, r) := AccountInfo(env, world);
      world, acc := w, r;
    }

    method ReadPosition(ticket: int) returns (found: Option<Option<Position>>)
      modifies this
      ensures (world, found) == PositionsGet(env, old(world), ticket)
    {
      var (w, r) := PositionsGet(env, world, ticket);
      world, found := w, r;
    }

    method ReadTick() returns (tick: Option<Tick>)
      modifies this
      ensures (world, tick) == SymbolInfoTick(env, old(world))
    {
      var (w, r) := SymbolInfoTick(env, world);
      world, tick := w, r;
    }

    method ReadSymbol(symbol: string) returns (info: Option<SymbolInfo>)
      modifies this
      ensures (world, info) == SymbolInfoGet(env, old(world), symbol)
    {
      var (w, r) := SymbolInfoGet(env, world, symbol);
      world, info := w, r;
    }

    method CheckIdentity(pin: Pin) returns (v: Verdict)
      modifies this
      ensures (world, v) == VerifyMutationIdentity(env, old(world), pin)
    {
      var (w, r) := VerifyMutationIdentity(env, world, pin);
      world, v := w, r;
    }

    method Send(order: Order) returns (reply: Reply)
      modifies this
      ensures (world, reply) == OrderSend(env, old(world), order)
    {
      var (w, r) := OrderSend(env, world, order);
      world, reply := w, r;
    }
  }
}
