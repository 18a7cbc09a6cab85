/**
 The stop-distance loop of `execute_mt5_trade`: widen the stops until the broker's pre-flight check accepts the order,
 a bounded number of times, then send exactly the request that was accepted.
 */
module StopClamp {
  import opened Common
  import opened Rounding
  import opened Mt5Terminal

  const MAX_RETRIES: nat := 3

  datatype Wanted = Wanted(side: Side, sl: real, tp: real)
  datatype Request = Request(side: Side, price: real, sl: real, tp: real)

  /** One pre-flight check: the request, and the distance in points it was built with. */
  datatype Check = Check(request: Request, buffer: int)

  function PriceOf(side: Side, t: Tick): real {
    if side == Buy then t.ask else t.bid
  }

  function SpreadPoints(t: Tick, point: real): int {
    if point > 0.0 then RoundHalfEven((t.ask - t.bid) / point) else 0
  }

  function MaxInt(x: int, y: int): int { if x < y then y else x }

  function BrokerMinimum(info: SymbolInfo, t: Tick): int {
    MaxInt(MaxInt(MaxInt(info.stopsLevel, 0), MaxInt(info.freezeLevel, 0)), SpreadPoints(t, info.point))
  }

  /** The request for a price and a distance; a wanted level of 0 or less means none was given. */
  function Clamped(w: Wanted, price: real, distance: real, digits: nat): Request {
    var below, above := RoundTo(price - distance, digits), RoundTo(price + distance, digits);
    if w.side == Buy then
      Request(Buy, price, RoundTo(if w.sl > 0.0 then Min(w.sl, below) else below, digits),
              RoundTo(if w.tp > 0.0 then Max(w.tp, above) else above, digits))
    else
      Request(Sell, price, RoundTo(if w.sl > 0.0 then Max(w.sl, above) else above, digits),
              RoundTo(if w.tp > 0.0 then Min(w.tp, below) else below, digits))
  }

  /** Everything fixed before the loop; `extra` is the configured safety margin in points. */
  datatype Setup = Setup(wanted: Wanted, info: SymbolInfo, extra: int, first: Tick)

  /** What the broker answers at each attempt: a refreshed tick, if any, and the verdict of the pre-flight check. */
  datatype Market = Market(refreshed: nat -> Option<Tick>, accepts: nat -> bool)

  /** The tick in use at attempt `k`: a failed refresh keeps the previous one. */
  function TickAt(s: Setup, m: Market, k: nat): Tick {
    if k == 0 then s.first else if m.refreshed(k).Some? then m.refreshed(k).value else TickAt(s, m, k - 1)
  }

  /** The distance at attempt `k`, in points: at least doubled each time. */
  function BufferAt(s: Setup, m: Market, k: nat): int {
    var initial := BrokerMinimum(s.info, s.first) + s.extra;
    if k == 0 then initial
    else Widened(BufferAt(s, m, k - 1), initial, k, SpreadPoints(TickAt(s, m, k - 1), s.info.point))
  }

  function Widened(buffer: int, initial: int, attempt: nat, spread: int): (b: int)
    ensures b >= 2 * buffer
  {
    MaxInt(buffer * 2, initial + attempt * spread)
  }

  function CheckWith(s: Setup, tick: Tick, buffer: int): Check {
    Check(Clamped(s.wanted, PriceOf(s.wanted.side, tick), Steps(buffer, s.info.point), s.info.digits), buffer)
  }

  function CheckAt(s: Setup, m: Market, k: nat): Check {
    CheckWith(s, TickAt(s, m, k), BufferAt(s, m, k))
  }

  /** The checks made so far; all were refused, but for the last one when the loop is done. */
  ghost predicate Tried(s: Setup, m: Market, checks: seq<Check>, done: bool) {
    && (forall k :: 0 <= k < |checks| ==> checks[k] == CheckAt(s, m, k))
    && (forall k :: 0 <= k < |checks| && !(done && k == |checks| - 1) ==> !m.accepts(k))
    && (done ==> checks != [] && m.accepts(|checks| - 1))
  }

  lemma TriedAppend(s: Setup, m: Market, checks: seq<Check>, check: Check)
    requires Tried(s, m, checks, false) && check == CheckAt(s, m, |checks|)
    ensures Tried(s, m, checks + [check], m.accepts(|checks|))
  {
  }

  /** Checks until one is accepted or the retries run out; sends the accepted request if the account still matches. */
  method ClampCheckSend(s: Setup, m: Market, bindingHolds: bool) returns (checks: seq<Check>, sent: Option<Request>)
    ensures 1 <= |checks| <= MAX_RETRIES + 1
    ensures forall k :: 0 <= k < |checks| ==> checks[k] == CheckAt(s, m, k)
    ensures forall k :: 0 <= k < |checks| - 1 ==> !m.accepts(k)
    ensures !m.accepts(|checks| - 1) ==> |checks| == MAX_RETRIES + 1
    ensures sent == if m.accepts(|checks| - 1) && bindingHolds then Some(checks[|checks| - 1].request) else None
  {
    var tick := s.first;
    var buffer := BrokerMinimum(s.info, tick) + s.extra;
    var initial := buffer;
    var ok := false;
    checks := [];
    while |checks| <= MAX_RETRIES && !ok
      invariant |checks| <= MAX_RETRIES + 1 && initial == BufferAt(s, m, 0)
      invariant Tried(s, m, checks, ok)
      invariant tick == TickAt(s, m, if checks == [] then 0 else |checks| - 1)
      invariant !ok && |checks| <= MAX_RETRIES ==> buffer == BufferAt(s, m, |checks|)
      decreases MAX_RETRIES + 1 - |checks|, !ok
    {
      var attempt := |checks|;
      if attempt > 0 && m.refreshed(attempt).Some? {
        tick := m.refreshed(attempt).value;
      }
      assert tick == TickAt(s, m, attempt);
      var check := CheckWith(s, tick, buffer);
      TriedAppend(s, m, checks, check);
      checks := checks + [check];
      if m.accepts(attempt) {
        ok := true;
      } else if attempt < MAX_RETRIES {
        buffer := Widened(buffer, initial, attempt + 1, SpreadPoints(tick, s.info.point));
      }
    }
    sent := if ok && bindingHolds then Some(checks[|checks| - 1].request) else None;
  }

  // ---- What a clamped request guarantees --------------------------------------------------------------------------

  /** Clear of the price by `distance` on both sides, up to `slack`. */
  ghost predicate Clear(r: Request, distance: real, slack: real) {
    if r.side == Buy then r.sl <= r.price - distance + slack && r.tp >= r.price + distance - slack
    else r.sl >= r.price + distance - slack && r.tp <= r.price - distance + slack
  }

  /**
   Every clamped request keeps its distance up to half a digit, exactly when price and distance are on the grid; a
   wanted level that already keeps the distance is left alone, and any other is moved no further than needed.
   */
  lemma ClampedKeepsDistance(w: Wanted, price: real, distance: real, digits: nat)
    ensures var r := Clamped(w, price, distance, digits); r.side == w.side && r.price == price
    ensures Clear(Clamped(w, price, distance, digits), distance, HalfUnit(digits))
    ensures OnGrid(price - distance, digits) && OnGrid(price + distance, digits) ==>
              Clear(Clamped(w, price, distance, digits), distance, 0.0)
  {
    var below, above := RoundTo(price - distance, digits), RoundTo(price + distance, digits);
    RoundToWithin(price - distance, digits);
    RoundToWithin(price + distance, digits);
    RoundToGrid(price - distance, digits);
    RoundToGrid(price + distance, digits);
    RoundToGrid(below, digits);
    RoundToGrid(above, digits);
    RoundToMonotone(Min(w.sl, below), below, digits);
    RoundToMonotone(Min(w.tp, below), below, digits);
    RoundToMonotone(above, Max(w.sl, above), digits);
    RoundToMonotone(above, Max(w.tp, above), digits);
  }

  /** On the grid the stop is the level closest to the wanted one among all that keep the distance. */
  lemma ClampedIsClosest(w: Wanted, price: real, distance: real, digits: nat, stop: real)
    requires OnGrid(price - distance, digits) && OnGrid(price + distance, digits) && OnGrid(w.sl, digits) && w.sl > 0.0
    requires if w.side == Buy then stop <= price - distance else stop >= price + distance
    ensures Abs(Clamped(w, price, distance, digits).sl - w.sl) <= Abs(stop - w.sl)
  {
    RoundToGrid(price - distance, digits);
    RoundToGrid(price + distance, digits);
    RoundToGrid(w.sl, digits);
  }

  function Pow2(k: nat): int {
    if k == 0 then 1 else 2 * Pow2(k - 1)
  }

  lemma BufferStep(s: Setup, m: Market, k: nat)
    requires k > 0
    ensures BufferAt(s, m, k) >= 2 * BufferAt(s, m, k - 1)
  {
  }

  /** The distance grows at least exponentially with the attempts. */
  lemma {:induction false} BufferDoubles(s: Setup, m: Market, k: nat)
    ensures BufferAt(s, m, k) >= Pow2(k) * BufferAt(s, m, 0)
  {
    if k > 0 {
      BufferDoubles(s, m, k - 1);
      BufferStep(s, m, k);
      Twice(Pow2(k - 1), BufferAt(s, m, 0));
    }
  }

  lemma Twice(x: int, y: int)
    ensures 2 * x * y == 2 * (x * y)
  {
  }

  ghost predicate TickOnGrid(t: Tick, digits: nat) {
    OnGrid(t.bid, digits) && OnGrid(t.ask, digits)
  }

  lemma TicksStayOnGrid(s: Setup, m: Market, k: nat, digits: nat)
    requires TickOnGrid(s.first, digits)
    requires forall i :: m.refreshed(i).Some? ==> TickOnGrid(m.refreshed(i).value, digits)
    ensures TickOnGrid(TickAt(s, m, k), digits)
  {
  }

  /** With prices and point size on the grid, the request of every attempt keeps the whole distance of that attempt. */
  lemma EveryCheckIsClear(s: Setup, m: Market, k: nat)
    requires OnGrid(s.info.point, s.info.digits) && TickOnGrid(s.first, s.info.digits)
    requires forall i :: m.refreshed(i).Some? ==> TickOnGrid(m.refreshed(i).value, s.info.digits)
    ensures var c := CheckAt(s, m, k);
            && c.request.side == s.wanted.side
            && c.request.price == PriceOf(s.wanted.side, TickAt(s, m, k))
            && Clear(c.request, Steps(c.buffer, s.info.point), 0.0)
  {
    var price := PriceOf(s.wanted.side, TickAt(s, m, k));
    var distance := Steps(BufferAt(s, m, k), s.info.point);
    TicksStayOnGrid(s, m, k, s.info.digits);
    MultipleOnGrid(BufferAt(s, m, k), s.info.point, s.info.digits);
    SumOnGrid(price, distance, s.info.digits);
    ClampedKeepsDistance(s.wanted, price, distance, s.info.digits);
  }
}
