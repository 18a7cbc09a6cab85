/** `partial_close_position`: reduce one ticket by an explicit volume, at most one order, never a full close. */
module PartialClose {
  import opened Common
  import opened Rounding
  import opened Mt5Terminal

  /** Decimal digits that volumes are rounded to. */
  const VOLUME_DIGITS: nat := 8

  /** How far, in steps, the floor may be lifted by the float guard. */
  const STEP_GUARD: real := 0.000000001

  function StepCount(volume: real, step: real): int
    requires step > 0.0
  {
    (volume / step + STEP_GUARD).Floor
  }

  function NormalizeVolumeDown(volume: real, step: real): Option<real> {
    if step <= 0.0 then None else Some(RoundTo(Steps(StepCount(volume, step), step), VOLUME_DIGITS))
  }

  lemma ProductOrder(x: real, y: real)
    requires y > 0.0
    ensures x >= 0.0 ==> x * y >= 0.0
    ensures x > 0.0 ==> x * y > 0.0
  {
  }

  lemma StepCountBounds(volume: real, step: real, n: int)
    requires step > 0.0 && n == StepCount(volume, step)
    ensures Steps(n, step) <= volume + STEP_GUARD * step
    ensures volume - step + STEP_GUARD * step < Steps(n, step)
  {
    var q, x, g := volume / step, n as real, STEP_GUARD;
    assert q * step == volume;
    assert x <= q + g < x + 1.0;
    var below, above := q + g - x, x + 1.0 - q - g;
    ProductOrder(below, step);
    ProductOrder(above, step);
    assert below * step == volume + g * step - Steps(n, step);
    assert above * step == Steps(n, step) + step - volume - g * step;
    assert above > 0.0;
    assert above * step > 0.0;
  }

  /**
   The normalised volume is the largest multiple of the step not above the request (give or take the guard); rounding to
   eight digits moves it by at most half a digit, and not at all when the step itself has at most eight digits.
   */
  lemma NormalizeFloorsToStep(volume: real, step: real)
    requires step > 0.0
    ensures var norm := NormalizeVolumeDown(volume, step).value;
            && volume - step + STEP_GUARD * step - HalfUnit(VOLUME_DIGITS) < norm
            && norm <= volume + STEP_GUARD * step + HalfUnit(VOLUME_DIGITS)
            && (OnGrid(step, VOLUME_DIGITS) ==>
                  && OnGrid(norm, VOLUME_DIGITS)
                  && volume - step + STEP_GUARD * step < norm <= volume + STEP_GUARD * step
                  && norm == Steps(StepCount(volume, step), step))
  {
    var n := StepCount(volume, step);
    StepCountBounds(volume, step, n);
    RoundToWithin(Steps(n, step), VOLUME_DIGITS);
    RoundToGrid(Steps(n, step), VOLUME_DIGITS);
    if OnGrid(step, VOLUME_DIGITS) {
      MultipleOnGrid(n, step, VOLUME_DIGITS);
    }
  }

  datatype Refusal =
    | AccountInfoFailed | AccountNotDemo | AccountNotHedging | VolumeNonPositive | SymbolRequired | IdentityPinRequired
    | PositionsGetFailed | PositionNotFound | SymbolChanged | SymbolInfoFailed | ConstraintsUnavailable
    | UnsupportedFilling | WouldBeFullClose | RoundsToZero | BelowMinReduction | RemainderBelowMin | TickFailed
    | IdentityRejected(verdict: Verdict)

  datatype Result =
    | Refused(why: Refusal)
    | NoAnswer(requested: real)
    | Mutated(code: int, requested: real)
    | Rejected(code: int, requested: real)

  datatype Plan = Refuse(why: Refusal) | Reduce(volume: real)

  /** The volume decision, from the position and the symbol constraints just read. */
  function PlanReduction(requested: real, p: Position, info: SymbolInfo): Plan {
    if info.volumeStep <= 0.0 || info.volumeMin <= 0.0 then Refuse(ConstraintsUnavailable)
    else if !info.fillingSupported then Refuse(UnsupportedFilling)
    else if requested >= p.volume then Refuse(WouldBeFullClose)
    else
      var norm := NormalizeVolumeDown(requested, info.volumeStep).value;
      if norm <= 0.0 then Refuse(RoundsToZero)
      else if norm < info.volumeMin then Refuse(BelowMinReduction)
      else if norm >= p.volume then Refuse(WouldBeFullClose)
      else if RoundTo(p.volume - norm, VOLUME_DIGITS) < info.volumeMin then Refuse(RemainderBelowMin)
      else Reduce(norm)
  }

  /** Any planned reduction is a real, partial one that leaves a tradable remainder. */
  lemma PlannedReductionIsPartial(requested: real, p: Position, info: SymbolInfo)
    requires PlanReduction(requested, p, info).Reduce?
    ensures var v := PlanReduction(requested, p, info).volume;
            && 0.0 < info.volumeMin <= v < p.volume
            && v <= requested + STEP_GUARD * info.volumeStep + HalfUnit(VOLUME_DIGITS)
            && p.volume - v >= info.volumeMin - HalfUnit(VOLUME_DIGITS)
            && (OnGrid(info.volumeStep, VOLUME_DIGITS) ==> v <= requested + STEP_GUARD * info.volumeStep)
            && (OnGrid(info.volumeStep, VOLUME_DIGITS) && OnGrid(p.volume, VOLUME_DIGITS) ==>
                  p.volume - v >= info.volumeMin)
  {
    var v := PlanReduction(requested, p, info).volume;
    NormalizeFloorsToStep(requested, info.volumeStep);
    RoundToWithin(p.volume - v, VOLUME_DIGITS);
    if OnGrid(info.volumeStep, VOLUME_DIGITS) && OnGrid(p.volume, VOLUME_DIGITS) {
      SumOnGrid(p.volume, v, VOLUME_DIGITS);
      RoundToGrid(p.volume - v, VOLUME_DIGITS);
    }
  }

  function ReduceOrder(p: Position, ticket: int, volume: real, tick: Tick): Order {
    Deal(p.symbol, p.side.Opposite(), volume, ticket, if p.side == Buy then tick.bid else tick.ask)
  }

  function Outcome(reply: Reply, volume: real): Result {
    if reply.NoReply? then NoAnswer(volume)
    else if reply.code == RETCODE_DONE || reply.code == RETCODE_DONE_PARTIAL then Mutated(reply.code, volume)
    else Rejected(reply.code, volume)
  }

  /** The checks made before the position is looked up. */
  function EntryRefusal(acc: Option<Account>, volume: real, pin: Pin, symbol: string): Option<Refusal> {
    if acc.None? then Some(AccountInfoFailed)
    else if acc.value.tradeMode != DEMO then Some(AccountNotDemo)
    else if !acc.value.hedging then Some(AccountNotHedging)
    else if volume <= 0.0 then Some(VolumeNonPositive)
    else if symbol == "" then Some(SymbolRequired)
    else if pin.login == "" || pin.server == "" then Some(IdentityPinRequired)
    else None
  }

  /** Everything before the send: a refusal, or the order with what it was planned from. */
  datatype Preparation = Stopped(why: Refusal) | Ready(read: Position, info: SymbolInfo, order: Order)

  function Prepare(env: Env, w: World, ticket: int, volume: real, pin: Pin, symbol: string): (World, Preparation) {
    var (w1, acc) := AccountInfo(env, w);
    var refusal := EntryRefusal(acc, volume, pin, symbol);
    if refusal.Some? then (w1, Stopped(refusal.value)) else PrepareFound(env, w1, ticket, volume, pin, symbol)
  }

  function PrepareFound(env: Env, w: World, ticket: int, volume: real, pin: Pin, symbol: string): (World, Preparation) {
    var (w1, found) := PositionsGet(env, w, ticket);
    if found.None? then (w1, Stopped(PositionsGetFailed))
    else if found.value.None? then (w1, Stopped(PositionNotFound))
    else if found.value.value.symbol != symbol then (w1, Stopped(SymbolChanged))
    else PreparePlanned(env, w1, ticket, volume, pin, found.value.value)
  }

  function PreparePlanned(env: Env, w: World, ticket: int, volume: real, pin: Pin, p: Position): (World, Preparation) {
    var (w1, info) := SymbolInfoGet(env, w, p.symbol);
    if info.None? then (w1, Stopped(SymbolInfoFailed))
    else
      var plan := PlanReduction(volume, p, info.value);
      if plan.Refuse? then (w1, Stopped(plan.why))
      else
        var (w2, tick) := SymbolInfoTick(env, w1);
        if tick.None? then (w2, Stopped(TickFailed))
        else
          var (w3, verdict) := VerifyMutationIdentity(env, w2, pin.(required := true));
          if !verdict.Pass? then (w3, Stopped(IdentityRejected(verdict)))
          else (w3, Ready(p, info.value, ReduceOrder(p, ticket, plan.volume, tick.value)))
  }

  function PartiallyClosed(env: Env, w: World, ticket: int, volume: real, pin: Pin, symbol: string): (World, Result) {
    var (w1, prep) := Prepare(env, w, ticket, volume, pin, symbol);
    if prep.Stopped? then (w1, Refused(prep.why))
    else
      var (w2, reply) := OrderSend(env, w1, prep.order);
      (w2, Outcome(reply, prep.order.volume))
  }

  method PartialClosePosition(t: Terminal, ticket: int, volume: real, pin: Pin, symbol: string) returns (result: Result)
    modifies t
    ensures (t.world, result) == PartiallyClosed(t.env, old(t.world), ticket, volume, pin, symbol)
  {
    var acc := t.ReadAccount();
    var refusal := EntryRefusal(acc, volume, pin, symbol);
    if refusal.Some? { return Refused(refusal.value); }

    var found := t.ReadPosition(ticket);
    if found.None? { return Refused(PositionsGetFailed); }
    if found.value.None? { return Refused(PositionNotFound); }
    var p := found.value.value;
    if p.symbol != symbol { return Refused(SymbolChanged); }

    var info := t.ReadSymbol(p.symbol);
    if info.None? { return Refused(SymbolInfoFailed); }
    var plan := PlanReduction(volume, p, info.value);
    if plan.Refuse? { return Refused(plan.why); }
    var tick := t.ReadTick();
    if tick.None? { return Refused(TickFailed); }
    var request := ReduceOrder(p, ticket, plan.volume, tick.value);
    var verdict := t.CheckIdentity(pin.(required := true));
    if !verdict.Pass? { return Refused(IdentityRejected(verdict)); }
    var reply := t.Send(request);
    return Outcome(reply, plan.volume);
  }

  // ---- At most one order, and it is the planned reduction of what was just read -----------------------------------

  /** The order follows a read of the ticket, its constraints, a tick and a pinned gate, and is the reduction planned
      from them. */
  ghost predicate Planned(prep: Preparation, calls: seq<Event>, ticket: int, volume: real, pin: Pin) {
    && prep.Ready? && prep.order.Deal? && |calls| == 6 && GatedAt(calls, 6, pin.(required := true))
    && calls[0].AccountRead? && calls[0].reported.Some? && calls[0].reported.value.hedging
    && calls[1].Read? && calls[1].ticket == ticket && calls[1].found == Some(Some(prep.read))
    && calls[2] == InfoRead(prep.read.symbol, Some(prep.info))
    && calls[3].TickRead? && calls[3].tick.Some?
    && PlanReduction(volume, prep.read, prep.info) == Reduce(prep.order.volume)
    && prep.order == Deal(prep.read.symbol, prep.read.side.Opposite(), prep.order.volume, ticket,
                          if prep.read.side == Buy then calls[3].tick.value.bid else calls[3].tick.value.ask)
  }

  lemma PlannedCalls(env: Env, start: World, w: World, head: seq<Event>, ticket: int, volume: real, pin: Pin,
                     p: Position)
    returns (calls: seq<Event>)
    requires After(env, start, w, head) && NoSends(head) && |head| == 2
    requires head[0].AccountRead? && head[0].reported.Some? && head[0].reported.value.hedging
    requires head[1].Read? && head[1].ticket == ticket && head[1].found == Some(Some(p))
    ensures var (w', prep) := PreparePlanned(env, w, ticket, volume, pin, p);
            && After(env, start, w', calls) && NoSends(calls) && 2 <= |calls| <= 6
            && (prep.Ready? ==> prep.read == p && Planned(prep, calls, ticket, volume, pin))
  {
    hide PlanReduction, Disturbed;
    var (w1, info) := SymbolInfoGet(env, w, p.symbol);
    calls := head + [InfoRead(p.symbol, info)];
    AfterCall(env, start, w, head, InfoRead(p.symbol, info));
    if info.None? || PlanReduction(volume, p, info.value).Refuse? { return; }
    var (w2, tick) := SymbolInfoTick(env, w1);
    AfterCall(env, start, w1, calls, TickRead(tick));
    calls := calls + [TickRead(tick)];
    if tick.None? { return; }
    var (w3, acc) := AccountInfo(env, w2);
    AfterCall(env, start, w2, calls, AccountRead(acc));
    calls := calls + [AccountRead(acc)];
    var (w4, term) := TerminalInfo(env, w3);
    AfterCall(env, start, w3, calls, TerminalRead(term));
    calls := calls + [TerminalRead(term)];
    assert VerifyMutationIdentity(env, w2, pin.(required := true)).0 == w4;
  }

  lemma FoundCalls(env: Env, start: World, w: World, head: seq<Event>, ticket: int, volume: real, pin: Pin,
                   symbol: string)
    returns (calls: seq<Event>)
    requires After(env, start, w, head) && NoSends(head) && |head| == 1
    requires head[0].AccountRead? && head[0].reported.Some? && head[0].reported.value.hedging
    ensures var (w', prep) := PrepareFound(env, w, ticket, volume, pin, symbol);
            && After(env, start, w', calls) && NoSends(calls) && 1 <= |calls| <= 6
            && (prep.Ready? ==> Planned(prep, calls, ticket, volume, pin))
  {
    var (w1, found) := PositionsGet(env, w, ticket);
    var read := Read(env(w.clock).active, ticket, found);
    AfterCall(env, start, w, head, read);
    calls := head + [read];
    if found.None? || found.value.None? || found.value.value.symbol != symbol { return; }
    calls := PlannedCalls(env, start, w1, calls, ticket, volume, pin, found.value.value);
    assert PrepareFound(env, w, ticket, volume, pin, symbol)
        == PreparePlanned(env, w1, ticket, volume, pin, found.value.value);
  }

  /** All calls before the send; if there is a send, there were exactly six. */
  lemma PrepareCalls(env: Env, w: World, ticket: int, volume: real, pin: Pin, symbol: string)
    returns (calls: seq<Event>)
    ensures var (w', prep) := Prepare(env, w, ticket, volume, pin, symbol);
            && After(env, w, w', calls) && NoSends(calls) && 1 <= |calls| <= 6
            && (prep.Ready? ==> Planned(prep, calls, ticket, volume, pin))
  {
    var (w1, acc) := AccountInfo(env, w);
    assert After(env, w, w, []);
    AfterCall(env, w, w, [], AccountRead(acc));
    calls := [AccountRead(acc)];
    assert [] + [AccountRead(acc)] == calls;
    if EntryRefusal(acc, volume, pin, symbol).Some? { return; }
    calls := FoundCalls(env, w, w1, calls, ticket, volume, pin, symbol);
  }

  /** All calls of one partial close: only the last of seven can be an order, the planned reduction of what was read; no
      more than its volume is filled. */
  ghost predicate PartialCalls(calls: seq<Event>, ticket: int, volume: real, pin: Pin) {
    && 1 <= |calls| <= 7 && NoSends(if |calls| == 7 then calls[..6] else calls)
    && (|calls| == 7 ==>
          && calls[6].Sent? && calls[6].order.Deal? && calls[6].filled <= calls[6].order.volume
          && exists p, info :: Planned(Ready(p, info, calls[6].order), calls[..6], ticket, volume, pin))
  }

  lemma PartialCloseCalls(env: Env, w: World, ticket: int, volume: real, pin: Pin, symbol: string)
    returns (calls: seq<Event>)
    ensures PartiallyClosed(env, w, ticket, volume, pin, symbol).0.trace == w.trace + calls
    ensures PartialCalls(calls, ticket, volume, pin)
  {
    hide Prepare, GatedAt, PlanReduction, ReduceOrder, Traded;
    var (w1, prep) := Prepare(env, w, ticket, volume, pin, symbol);
    calls := PrepareCalls(env, w, ticket, volume, pin, symbol);
    if prep.Ready? {
      PlannedReductionIsPartial(volume, prep.read, prep.info);
      var sent := OrderSend(env, w1, prep.order).0.trace[|w1.trace|];
      var all := calls + [sent];
      assert all[..6] == calls && all[6] == sent;
      calls := all;
    }
  }
}
