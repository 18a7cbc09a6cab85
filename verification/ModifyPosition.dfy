/** `modify_position`: move an open position's stop, never towards more risk, and verify the move on the broker. */
module ModifyPosition {
  import opened Common
  import opened Rounding
  import opened Mt5Terminal

  /** Assumed when the symbol cannot be read. */
  const DEFAULT_DIGITS: nat := 5

  datatype Result =
    | AccountInfoFailed
    | AccountNotDemo
    | PositionNotFound
    | Unchanged
    | WouldIncreaseRisk
    | WithinStopsLevel
    | IdentityRejected(verdict: Verdict)
    | SendNone
    | Rejected(code: int)
    | Verified
    | NotVerified
  {
    predicate Ok() { Unchanged? || Verified? }
  }

  function DigitsOf(info: Option<SymbolInfo>): nat {
    if info.Some? then info.value.digits else DEFAULT_DIGITS
  }

  datatype Decision = Keep | Refuse | Adjust

  /** Compare the rounded request with the stop in place; 0 means no stop is set. */
  function Decide(side: Side, current: real, requested: real, digits: nat): Decision {
    var eps := HalfUnit(digits);
    if Abs(current - requested) < eps then Keep
    else if current != 0.0 && side == Buy && requested < current - eps then Refuse
    else if current != 0.0 && side == Sell && requested > current + eps then Refuse
    else Adjust
  }

  function MaxInt(x: int, y: int): int { if x < y then y else x }

  /** The stop is inside the broker's stops/freeze/spread band; only checked with a tick and a point size. */
  function InsideBand(side: Side, requested: real, info: Option<SymbolInfo>, tick: Option<Tick>): bool {
    if tick.None? || info.None? || info.value.point <= 0.0 then false
    else
      var i, t := info.value, tick.value;
      var spread := RoundHalfEven((t.ask - t.bid) / i.point);
      var points := MaxInt(MaxInt(MaxInt(MaxInt(i.stopsLevel, 0), MaxInt(i.freezeLevel, 0)), spread), 0);
      var distance := if side == Buy then t.bid - requested else requested - t.ask;
      distance < points as real * i.point - HalfUnit(i.digits)
  }

  function Modify(env: Env, w: World, ticket: int, sl: real, tp: Option<real>, pin: Pin): (World, Result) {
    var (w1, acc) := AccountInfo(env, w);
    if acc.None? then (w1, AccountInfoFailed)
    else if acc.value.tradeMode != DEMO then (w1, AccountNotDemo)
    else
      var (w2, found) := PositionsGet(env, w1, ticket);
      if found.None? || found.value.None? then (w2, PositionNotFound)
      else
        var p := found.value.value;
        var (w3, info) := SymbolInfoGet(env, w2, p.symbol);
        var digits := DigitsOf(info);
        match Decide(p.side, p.sl, RoundTo(sl, digits), digits)
        case Keep => (w3, Unchanged)
        case Refuse => (w3, WouldIncreaseRisk)
        case Adjust => MoveStop(env, w3, ticket, p, StopOrder(p, ticket, sl, tp, digits), info, pin)
  }

  /** The stop asked for, and the take-profit asked for or else the one in place, both rounded. */
  function StopOrder(p: Position, ticket: int, sl: real, tp: Option<real>, digits: nat): Order {
    StopMove(p.symbol, ticket, RoundTo(sl, digits), RoundTo(if tp.Some? then tp.value else p.tp, digits))
  }

  function MoveStop(env: Env, w: World, ticket: int, p: Position, order: Order, info: Option<SymbolInfo>, pin: Pin)
    : (World, Result)
    requires order.StopMove?
  {
    var (w1, tick) := SymbolInfoTick(env, w);
    if InsideBand(p.side, order.sl, info, tick) then (w1, WithinStopsLevel)
    else
      var (w2, verdict) := VerifyMutationIdentity(env, w1, pin);
      if !verdict.Pass? then (w2, IdentityRejected(verdict))
      else
        var (w3, reply) := OrderSend(env, w2, order);
        if reply.NoReply? then (w3, SendNone) else Confirm(env, w3, ticket, order.sl, DigitsOf(info), reply.code)
  }

  function Confirm(env: Env, w: World, ticket: int, requested: real, digits: nat, code: int): (World, Result) {
    var (w1, found) := PositionsGet(env, w, ticket);
    if code != RETCODE_DONE then
      (w1, if found.None? || found.value.None? then PositionNotFound else Rejected(code))
    else
      (w1, if found.Some? && found.value.Some? && Abs(found.value.value.sl - requested) < HalfUnit(digits)
           then Verified else NotVerified)
  }

  method ModifyPosition(t: Terminal, ticket: int, sl: real, tp: Option<real>, pin: Pin) returns (result: Result)
    modifies t
    ensures (t.world, result) == Modify(t.env, old(t.world), ticket, sl, tp, pin)
  {
    var acc := t.ReadAccount();
    if acc.None? { return AccountInfoFailed; }
    if acc.value.tradeMode != DEMO { return AccountNotDemo; }
    var found := t.ReadPosition(ticket);
    if found.None? || found.value.None? { return PositionNotFound; }
    var p := found.value.value;
    var info := t.ReadSymbol(p.symbol);
    var digits := DigitsOf(info);
    var order := StopOrder(p, ticket, sl, tp, digits);
    var decision := Decide(p.side, p.sl, order.sl, digits);
    if decision.Keep? { return Unchanged; }
    if decision.Refuse? { return WouldIncreaseRisk; }
    result := AdjustStop(t, ticket, p, order, info, pin);
  }

  /** The second half of the call: band check, identity gate and one send. */
  method AdjustStop(t: Terminal, ticket: int, p: Position, order: Order, info: Option<SymbolInfo>, pin: Pin)
    returns (result: Result)
    requires order.StopMove?
    modifies t
    ensures (t.world, result) == MoveStop(t.env, old(t.world), ticket, p, order, info, pin)
  {
    var tick := t.ReadTick();
    if InsideBand(p.side, order.sl, info, tick) { return WithinStopsLevel; }
    var verdict := t.CheckIdentity(pin);
    if !verdict.Pass? { return IdentityRejected(verdict); }
    var reply := t.Send(order);
    if reply.NoReply? { return SendNone; }
    result := ConfirmStop(t, ticket, order.sl, DigitsOf(info), reply.code);
  }

  /** The broker-side verification: whatever the answer said, the position is read again. */
  method ConfirmStop(t: Terminal, ticket: int, requested: real, digits: nat, code: int) returns (result: Result)
    modifies t
    ensures (t.world, result) == Confirm(t.env, old(t.world), ticket, requested, digits, code)
  {
    var after := t.ReadPosition(ticket);
    if code != RETCODE_DONE {
      if after.None? || after.value.None? { return PositionNotFound; }
      return Rejected(code);
    }
    if after.Some? && after.value.Some? && Abs(after.value.value.sl - requested) < HalfUnit(digits) {
      return Verified;
    }
    return NotVerified;
  }

  // ---- The decision, on and off the price grid --------------------------------------------------------------------

  /** A stop that is set only moves towards the market, and stays set. */
  ghost predicate Tightened(side: Side, before: real, after: real) {
    before != 0.0 ==> if side == Buy then before <= after else 0.0 < after <= before
  }

  /** On the grid, only a strictly tighter stop is ever sent. */
  lemma MovesOnlyTighten(side: Side, current: real, sl: real, digits: nat)
    requires OnGrid(current, digits) && OnGrid(sl, digits) && sl > 0.0
    requires Decide(side, current, RoundTo(sl, digits), digits).Adjust?
    ensures RoundTo(sl, digits) == sl && sl != current && Tightened(side, current, sl)
  {
    RoundToGrid(sl, digits);
    if current < sl { GridGap(current, sl, digits); }
    if sl < current { GridGap(sl, current, digits); }
  }

  /** Off the grid there is exactly one value from which a BUY stop is lowered: half a unit above the request. */
  lemma BuyStopLoweredExactlyAtHalfUnit(current: real, sl: real, digits: nat)
    requires current != 0.0
    ensures var requested := RoundTo(sl, digits);
            (Decide(Buy, current, requested, digits).Adjust? && requested < current)
            <==> current == requested + HalfUnit(digits)
  {
  }

  /** ... and one from which a SELL stop is raised: half a unit below the request. */
  lemma SellStopRaisedExactlyAtHalfUnit(current: real, sl: real, digits: nat)
    requires current != 0.0
    ensures var requested := RoundTo(sl, digits);
            (Decide(Sell, current, requested, digits).Adjust? && requested > current)
            <==> current == requested - HalfUnit(digits)
  {
  }

  /**
   A SELL position's stop is safe for every tick exactly when the request is positive: without a tick there is no band
   check, and a request of 0 or less then removes the stop.
   */
  lemma SellStopSafeExactlyWhenPositive(current: real, sl: real, info: SymbolInfo)
    requires current > 0.0 && OnGrid(current, info.digits) && OnGrid(sl, info.digits)
    ensures sl > 0.0 <==>
              forall tick: Option<Tick> ::
                Decide(Sell, current, RoundTo(sl, info.digits), info.digits).Adjust?
                && !InsideBand(Sell, RoundTo(sl, info.digits), Some(info), tick)
                ==> 0.0 < RoundTo(sl, info.digits) <= current
  {
    RoundToGrid(sl, info.digits);
    if sl > 0.0 {
      if Decide(Sell, current, sl, info.digits).Adjust? { MovesOnlyTighten(Sell, current, sl, info.digits); }
    } else {
      GridGap(sl, current, info.digits);
      assert Decide(Sell, current, sl, info.digits).Adjust?;
      assert !InsideBand(Sell, sl, Some(info), None);
    }
  }

  lemma {:induction false} CoarserGrid(x: real, digits: nat, finer: nat)
    requires OnGrid(x, digits) && digits <= finer
    ensures OnGrid(x, finer)
    decreases finer - digits
  {
    if digits < finer {
      assert Scaled(x, digits + 1) == 10.0 * Scaled(x, digits);
      var n := Scaled(x, digits).Floor;
      assert Scaled(x, digits + 1) == (10 * n) as real;
      CoarserGrid(x, digits + 1, finer);
    }
  }

  /** The decision leads to a send only for an order that tightens the stop it read. */
  lemma SentOrderTightens(p: Position, ticket: int, sl: real, tp: Option<real>, digits: nat, used: nat)
    requires OnGrid(sl, digits) && OnGrid(p.sl, digits) && sl > 0.0 && digits <= used
    requires Decide(p.side, p.sl, RoundTo(sl, used), used).Adjust?
    ensures var order := StopOrder(p, ticket, sl, tp, used);
            order.sl == sl && order.ticket == ticket && Tightened(p.side, p.sl, order.sl)
  {
    CoarserGrid(sl, digits, used);
    CoarserGrid(p.sl, digits, used);
    MovesOnlyTighten(p.side, p.sl, sl, used);
  }

  // ---- Sequences of calls -----------------------------------------------------------------------------------------

  datatype Request = Request(ticket: int, sl: real, tp: Option<real>, pin: Pin)

  function ModifyAll(env: Env, w: World, requests: seq<Request>): World
    decreases |requests|
  {
    if requests == [] then w
    else
      var r := requests[0];
      ModifyAll(env, Modify(env, w, r.ticket, r.sl, r.tp, r.pin).0, requests[1..])
  }

  // ---- What "ok" proves -------------------------------------------------------------------------------------------

  /** The digits used by a call, from the symbol read it makes. */
  function DigitsUsed(env: Env, w: World, ticket: int): nat {
    var (w2, found) := PositionsGet(env, AccountInfo(env, w).0, ticket);
    if found.Some? && found.value.Some? then DigitsOf(SymbolInfoGet(env, w2, found.value.value.symbol).1)
    else DEFAULT_DIGITS
  }

  /** A stop move touches one position's stop and take-profit only; without an explicit target the take-profit stays. */
  lemma StopMoveKeepsTheRest(env: Env, w: World, ticket: int, p: Position, sl: real, digits: nat)
    requires Key(env(w.clock).active, ticket) in Disturbed(w.book, env(w.clock))
    requires OnGrid(p.tp, digits)
    ensures var key := Key(env(w.clock).active, ticket);
            var before := Disturbed(w.book, env(w.clock));
            var (w', reply) := OrderSend(env, w, StopOrder(p, ticket, sl, None, digits));
            var moved := before[key := before[key].(sl := RoundTo(sl, digits), tp := p.tp)];
            && (w'.book == before || w'.book == moved)
            && (reply == Ret(RETCODE_DONE) ==> w'.book == moved)
  {
    RoundToGrid(p.tp, digits);
  }
}
