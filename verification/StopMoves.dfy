/**
 Every stop move of every sequence of `modify_position` calls, in every environment: what it was decided from, exactly
 when it loosens the stop that was read, and when the stop it meets is the one that was read.
 */
module StopMoves {
  import opened Common
  import opened Rounding
  import opened Mt5Terminal
  import opened ModifyPosition

  /** A call up to its send: its result without one, or the order with what it was decided from. */
  datatype Approach = Exit(result: Result) | Ready(read: Position, info: Option<SymbolInfo>, order: Order)

  function ApproachMove(env: Env, w: World, ticket: int, sl: real, tp: Option<real>, pin: Pin): (World, Approach) {
    var (w1, acc) := AccountInfo(env, w);
    if acc.None? then (w1, Exit(AccountInfoFailed))
    else if acc.value.tradeMode != DEMO then (w1, Exit(AccountNotDemo))
    else
      var (w2, found) := PositionsGet(env, w1, ticket);
      if found.None? || found.value.None? then (w2, Exit(PositionNotFound))
      else
        var p := found.value.value;
        var (w3, info) := SymbolInfoGet(env, w2, p.symbol);
        var digits := DigitsOf(info);
        match Decide(p.side, p.sl, RoundTo(sl, digits), digits)
        case Keep => (w3, Exit(Unchanged))
        case Refuse => (w3, Exit(WouldIncreaseRisk))
        case Adjust => ApproachSend(env, w3, p, StopOrder(p, ticket, sl, tp, digits), info, pin)
  }

  function ApproachSend(env: Env, w: World, p: Position, order: Order, info: Option<SymbolInfo>, pin: Pin)
    : (World, Approach)
    requires order.StopMove?
  {
    var (w1, tick) := SymbolInfoTick(env, w);
    if InsideBand(p.side, order.sl, info, tick) then (w1, Exit(WithinStopsLevel))
    else
      var (w2, verdict) := VerifyMutationIdentity(env, w1, pin);
      (w2, if verdict.Pass? then Ready(p, info, order) else Exit(IdentityRejected(verdict)))
  }

  /** The send and the read that confirms it. */
  function Finish(env: Env, w: World, ticket: int, order: Order, info: Option<SymbolInfo>): (World, Result)
    requires order.StopMove?
  {
    var (w1, reply) := OrderSend(env, w, order);
    if reply.NoReply? then (w1, SendNone) else Confirm(env, w1, ticket, order.sl, DigitsOf(info), reply.code)
  }

  lemma ModifyInParts(env: Env, w: World, ticket: int, sl: real, tp: Option<real>, pin: Pin)
    ensures var (w1, approach) := ApproachMove(env, w, ticket, sl, tp, pin);
            Modify(env, w, ticket, sl, tp, pin)
              == match approach
                 case Exit(result) => (w1, result)
                 case Ready(_, info, order) =>
                   if order.StopMove? then Finish(env, w1, ticket, order, info) else (w1, SendNone)
  {
    hide AccountInfo, PositionsGet, SymbolInfoGet, SymbolInfoTick, VerifyMutationIdentity, OrderSend, Confirm, Decide,
         InsideBand, RoundTo;
  }

  /** What a call that sends has called and decided. */
  ghost predicate Decided(approach: Approach, calls: seq<Event>, ticket: int, sl: real, tp: Option<real>, pin: Pin) {
    && approach.Ready? && |calls| == 6 && GatedAt(calls, 6, pin)
    && calls[1].Read? && calls[1].ticket == ticket && calls[1].found == Some(Some(approach.read))
    && calls[2] == InfoRead(approach.read.symbol, approach.info)
    && var digits := DigitsOf(approach.info);
       && approach.order == StopOrder(approach.read, ticket, sl, tp, digits)
       && Decide(approach.read.side, approach.read.sl, RoundTo(sl, digits), digits).Adjust?
  }

  lemma SendCalls(env: Env, start: World, w: World, head: seq<Event>, p: Position, order: Order,
                  info: Option<SymbolInfo>,
                  ticket: int, sl: real, tp: Option<real>, pin: Pin)
    returns (calls: seq<Event>)
    requires After(env, start, w, head) && NoSends(head) && |head| == 3
    requires head[1].Read? && head[1].ticket == ticket && head[1].found == Some(Some(p))
    requires head[2] == InfoRead(p.symbol, info) && order == StopOrder(p, ticket, sl, tp, DigitsOf(info))
    requires Decide(p.side, p.sl, RoundTo(sl, DigitsOf(info)), DigitsOf(info)).Adjust?
    ensures var (w', approach) := ApproachSend(env, w, p, order, info, pin);
            && After(env, start, w', calls) && NoSends(calls)
            && (approach.Ready? ==> Decided(approach, calls, ticket, sl, tp, pin))
  {
    hide Disturbed, Decide, InsideBand, RoundTo;
    var (w1, tick) := SymbolInfoTick(env, w);
    AfterCall(env, start, w, head, TickRead(tick));
    calls := head + [TickRead(tick)];
    if InsideBand(p.side, order.sl, info, tick) { return; }
    var (w2, acc) := AccountInfo(env, w1);
    AfterCall(env, start, w1, calls, AccountRead(acc));
    calls := calls + [AccountRead(acc)];
    var (w3, term) := TerminalInfo(env, w2);
    AfterCall(env, start, w2, calls, TerminalRead(term));
    calls := calls + [TerminalRead(term)];
    assert VerifyMutationIdentity(env, w1, pin).0 == w3;
  }

  lemma MoveCalls(env: Env, w: World, ticket: int, sl: real, tp: Option<real>, pin: Pin) returns (calls: seq<Event>)
    ensures var (w', approach) := ApproachMove(env, w, ticket, sl, tp, pin);
            && After(env, w, w', calls) && NoSends(calls)
            && (approach.Ready? ==> Decided(approach, calls, ticket, sl, tp, pin))
  {
    hide Disturbed, InsideBand, RoundTo, ApproachSend, Decide;
    var (w1, acc) := AccountInfo(env, w);
    assert After(env, w, w, []);
    AfterCall(env, w, w, [], AccountRead(acc));
    calls := [AccountRead(acc)];
    assert [] + [AccountRead(acc)] == calls;
    if acc.None? || acc.value.tradeMode != DEMO { return; }
    var (w2, found) := PositionsGet(env, w1, ticket);
    var read := Read(env(w1.clock).active, ticket, found);
    AfterCall(env, w, w1, calls, read);
    calls := calls + [read];
    if found.None? || found.value.None? { return; }
    var p := found.value.value;
    var (w3, info) := SymbolInfoGet(env, w2, p.symbol);
    AfterCall(env, w, w2, calls, InfoRead(p.symbol, info));
    calls := calls + [InfoRead(p.symbol, info)];
    var digits := DigitsOf(info);
    if Decide(p.side, p.sl, RoundTo(sl, digits), digits).Adjust? {
      calls := SendCalls(env, w, w3, calls, p, StopOrder(p, ticket, sl, tp, digits), info, ticket, sl, tp, pin);
    }
  }

  // ---- When an order loosens the stop it was decided from ---------------------------------------------------------

  /** The stop in place sits exactly half a unit on the safe side of the request, or a SELL's request removes it. */
  predicate HalfUnitOff(side: Side, current: real, requested: real, digits: nat) {
    current != 0.0 && if side == Buy then current == requested + HalfUnit(digits)
                      else current == requested - HalfUnit(digits) || requested <= 0.0
  }

  /** A decision to adjust loosens a set stop on exactly these values. */
  lemma AdjustLoosensExactly(side: Side, current: real, requested: real, digits: nat)
    requires Decide(side, current, requested, digits).Adjust?
    ensures !Tightened(side, current, requested) <==> HalfUnitOff(side, current, requested, digits)
  {
  }

  /** On the grid it never does, for a positive request. */
  lemma GridStopIsNotHalfUnitOff(side: Side, current: real, sl: real, digits: nat)
    requires OnGrid(current, digits) && RoundTo(sl, digits) > 0.0
    ensures !HalfUnitOff(side, current, RoundTo(sl, digits), digits)
  {
    RoundToGrid(sl, digits);
    var requested := RoundTo(sl, digits);
    if current < requested { GridGap(current, requested, digits); }
    if requested < current { GridGap(requested, current, digits); }
  }

  // ---- Every order of every sequence of calls ---------------------------------------------------------------------

  predicate IsMove(trace: seq<Event>, i: int) {
    && 6 <= i < |trace| && trace[i].Sent? && trace[i].order.StopMove?
    && trace[i - 5].Read? && trace[i - 5].found.Some? && trace[i - 5].found.value.Some?
    && trace[i - 4].InfoRead?
  }

  function ReadBefore(trace: seq<Event>, i: int): Position
    requires IsMove(trace, i)
  {
    trace[i - 5].found.value.value
  }

  function DigitsBefore(trace: seq<Event>, i: int): nat
    requires IsMove(trace, i)
  {
    DigitsOf(trace[i - 4].info)
  }

  /** The order went to the account that was read, and nobody else moved the ticket's stop in between. */
  ghost predicate StopKept(env: Env, ticket: int, i: int) {
    && i >= 5 && env(i - 5).active == env(i).active
    && forall k: nat :: i - 5 < k <= i ==> Key(env(i).active, ticket) !in env(k).restopped
  }

  /** The order at `i` asks for the rounded stop of request `r`, was decided from the read five calls before it, and
      meets the side and stop of that read when the stop was kept. */
  ghost predicate MoveOf(env: Env, trace: seq<Event>, i: int, r: Request) {
    && IsMove(trace, i)
    && var p, digits := ReadBefore(trace, i), DigitsBefore(trace, i);
       && trace[i].order == StopMove(p.symbol, r.ticket, RoundTo(r.sl, digits),
                                     RoundTo(if r.tp.Some? then r.tp.value else p.tp, digits))
       && Decide(p.side, p.sl, RoundTo(r.sl, digits), digits).Adjust?
       && (StopKept(env, r.ticket, i) && trace[i].met.Some? ==>
             trace[i].met.value.side == p.side && trace[i].met.value.sl == p.sl)
  }

  lemma {:induction false} KeptStopSurvives(env: Env, key: Key, p: Position, from: nat, n: nat)
    requires forall k: nat :: from <= k < from + n ==> key !in env(k).restopped
    ensures var q := Survivor(env, key, p, from, n); q.Some? ==> q.value.side == p.side && q.value.sl == p.sl
    decreases n
  {
    if n > 0 && key !in env(from).closed {
      KeptStopSurvives(env, key, DisturbedPosition(key, p, env(from)), from + 1, n - 1);
    }
  }

  /** What a call that sends has read, and from which account. */
  lemma ReadOfMove(env: Env, w: World, ticket: int, sl: real, tp: Option<real>, pin: Pin)
    requires ApproachMove(env, w, ticket, sl, tp, pin).1.Ready?
    ensures var book := Disturbed(Disturbed(w.book, env(w.clock)), env(w.clock + 1));
            var key := Key(env(w.clock + 1).active, ticket);
            key in book && book[key] == ApproachMove(env, w, ticket, sl, tp, pin).1.read
  {
    hide Disturbed, SymbolInfoGet, Decide, InsideBand, RoundTo, SymbolInfoTick, VerifyMutationIdentity;
  }

  lemma BooksFromRead(env: Env, book: Book, c: nat)
    ensures Disturbed(Books(env, book, c, 6), env(c + 6))
         == Books(env, Disturbed(Disturbed(book, env(c)), env(c + 1)), c + 2, 5)
  {
    hide Disturbed;
    BooksStep(env, book, c, 6);
    BooksInParts(env, book, c, 2, 5);
    BooksStep(env, book, c, 1);
    BooksStep(env, book, c, 0);
  }

  /** With the stop kept, the order meets it. */
  lemma MetByMove(env: Env, w: World, ticket: int, sl: real, tp: Option<real>, pin: Pin)
    requires ApproachMove(env, w, ticket, sl, tp, pin).1.Ready? && StopKept(env, ticket, w.clock + 6)
    ensures var (w1, approach) := ApproachMove(env, w, ticket, sl, tp, pin);
            var key, book := Key(env(w.clock + 6).active, ticket), Disturbed(w1.book, env(w.clock + 6));
            key in book ==> book[key].side == approach.read.side && book[key].sl == approach.read.sl
  {
    hide ApproachMove, Disturbed, Survivor, Books, Decide, RoundTo;
    var (w1, approach) := ApproachMove(env, w, ticket, sl, tp, pin);
    var calls := MoveCalls(env, w, ticket, sl, tp, pin);
    var key, c := Key(env(w.clock + 6).active, ticket), w.clock;
    ReadOfMove(env, w, ticket, sl, tp, pin);
    BooksFromRead(env, w.book, c);
    BooksSurvivor(env, key, Disturbed(Disturbed(w.book, env(c)), env(c + 1)), c + 2, 5);
    KeptStopSurvives(env, key, approach.read, c + 2, 5);
  }

  /** The send and the confirming read append one order and no other. */
  lemma FinishAppends(env: Env, w: World, ticket: int, order: Order, info: Option<SymbolInfo>)
    requires order.StopMove? && |w.trace| == w.clock
    ensures var w' := Finish(env, w, ticket, order, info).0;
            var key, book := Key(env(w.clock).active, order.ticket), Disturbed(w.book, env(w.clock));
            && |w'.trace| == w'.clock && w.trace < w'.trace && w'.trace[w.clock].Sent?
            && w'.trace[w.clock].order == order
            && w'.trace[w.clock].met == (if key in book then Some(book[key]) else None)
            && forall i :: w.clock < i < |w'.trace| ==> !w'.trace[i].Sent?
  {
    hide AfterOrder, Disturbed;
  }

  lemma MoveOfCall(env: Env, w: World, ticket: int, sl: real, tp: Option<real>, pin: Pin)
    requires |w.trace| == w.clock
    ensures var w' := Modify(env, w, ticket, sl, tp, pin).0;
            && |w'.trace| == w'.clock && w.trace <= w'.trace
            && forall i :: w.clock <= i < |w'.trace| && w'.trace[i].Sent? ==>
                 MoveOf(env, w'.trace, i, Request(ticket, sl, tp, pin))
  {
    hide Modify, ApproachMove, Disturbed, Decide, RoundTo, Finish, GatedAt, StopKept;
    ModifyInParts(env, w, ticket, sl, tp, pin);
    var (w1, approach) := ApproachMove(env, w, ticket, sl, tp, pin);
    var calls := MoveCalls(env, w, ticket, sl, tp, pin);
    assert forall i :: w.clock <= i < |w1.trace| ==> w1.trace[i] == calls[i - w.clock] && calls[i - w.clock] in calls;
    if approach.Ready? {
      FinishAppends(env, w1, ticket, approach.order, approach.info);
      if StopKept(env, ticket, w.clock + 6) { MetByMove(env, w, ticket, sl, tp, pin); }
    }
  }

  /** Every order from call `from` on is the stop move of one of the requests. */
  ghost predicate MovesFrom(env: Env, trace: seq<Event>, from: nat, requests: seq<Request>) {
    forall i :: from <= i < |trace| && trace[i].Sent? ==> exists r :: r in requests && MoveOf(env, trace, i, r)
  }

  lemma MovePersists(env: Env, trace: seq<Event>, longer: seq<Event>, i: nat, r: Request)
    requires trace <= longer && i < |trace| && MoveOf(env, trace, i, r)
    ensures MoveOf(env, longer, i, r)
  {
    hide Decide, RoundTo, StopKept;
    assert forall k :: 0 <= k < |trace| ==> longer[k] == trace[k];
  }

  lemma {:induction false} MovesOfAll(env: Env, w: World, requests: seq<Request>)
    requires |w.trace| == w.clock
    ensures var w' := ModifyAll(env, w, requests);
            |w'.trace| == w'.clock && w.trace <= w'.trace && MovesFrom(env, w'.trace, w.clock, requests)
    decreases |requests|
  {
    hide Modify, MoveOf;
    if requests != [] {
      var r, rest := requests[0], requests[1..];
      var w1 := Modify(env, w, r.ticket, r.sl, r.tp, r.pin).0;
      MoveOfCall(env, w, r.ticket, r.sl, r.tp, r.pin);
      MovesOfAll(env, w1, rest);
      var trace := ModifyAll(env, w1, rest).trace;
      assert r == Request(r.ticket, r.sl, r.tp, r.pin);
      forall i | w.clock <= i < |trace| && trace[i].Sent?
        ensures exists q :: q in requests && MoveOf(env, trace, i, q)
      {
        if i < |w1.trace| {
          assert w1.trace[i] == trace[i];
          MovePersists(env, w1.trace, trace, i, r);
          assert r in requests && MoveOf(env, trace, i, r);
        } else {
          var q :| q in rest && MoveOf(env, trace, i, q);
          assert q in requests && MoveOf(env, trace, i, q);
        }
      }
    }
  }

  /** What the order at `i` does to the stop it was decided from, and to the stop it meets when that is the same. */
  ghost predicate LoosensExactlyHalfUnitOff(env: Env, trace: seq<Event>, i: int) {
    && IsMove(trace, i)
    && var p, order, digits := ReadBefore(trace, i), trace[i].order, DigitsBefore(trace, i);
       && (!Tightened(p.side, p.sl, order.sl) <==> HalfUnitOff(p.side, p.sl, order.sl, digits))
       && (StopKept(env, order.ticket, i) && trace[i].met.Some? ==>
             var q := trace[i].met.value;
             !Tightened(q.side, q.sl, order.sl) <==> HalfUnitOff(q.side, q.sl, order.sl, digits))
       && (OnGrid(p.sl, digits) && order.sl > 0.0 ==> Tightened(p.side, p.sl, order.sl))
  }

  lemma MoveLoosensExactly(env: Env, trace: seq<Event>, i: int, r: Request)
    requires MoveOf(env, trace, i, r)
    ensures LoosensExactlyHalfUnitOff(env, trace, i)
  {
    hide RoundTo, OnGrid, Decide, StopKept, HalfUnitOff, Tightened;
    var p, digits := ReadBefore(trace, i), DigitsBefore(trace, i);
    AdjustLoosensExactly(p.side, p.sl, RoundTo(r.sl, digits), digits);
    if OnGrid(p.sl, digits) && RoundTo(r.sl, digits) > 0.0 { GridStopIsNotHalfUnitOff(p.side, p.sl, r.sl, digits); }
  }

  /**
   For every environment and every sequence of requests: a stop move loosens the set stop it was decided from if and
   only if that stop is exactly half a unit on the safe side of the rounded request, or a SELL's request is not
   positive; the same holds for the stop it meets while nobody moved it since the read; on the grid a positive request
   never does.
   */
  lemma EveryStopMoveLoosensExactly(env: Env, w: World, requests: seq<Request>)
    requires |w.trace| == w.clock
    ensures var trace := ModifyAll(env, w, requests).trace;
            forall i :: w.clock <= i < |trace| && trace[i].Sent? ==> LoosensExactlyHalfUnitOff(env, trace, i)
  {
    hide ModifyAll, MoveOf, LoosensExactlyHalfUnitOff;
    MovesOfAll(env, w, requests);
    var trace := ModifyAll(env, w, requests).trace;
    forall i | w.clock <= i < |trace| && trace[i].Sent? ensures LoosensExactlyHalfUnitOff(env, trace, i) {
      var r :| r in requests && MoveOf(env, trace, i, r);
      MoveLoosensExactly(env, trace, i, r);
    }
  }

  // ---- The ratchet over sequences of calls ------------------------------------------------------------------------

  /** The symbols that are held and the number of digits of each symbol's prices. */
  datatype Grids = Grids(held: set<string>, digits: string -> nat)

  /** Every stop is on the grid of its own symbol. */
  ghost predicate StopsHealthy(book: Book, g: Grids) {
    forall k :: k in book ==>
      book[k].symbol in g.held && OnGrid(book[k].sl, g.digits(book[k].symbol)) && book[k].sl >= 0.0
  }

  /** The value is on the grid of every symbol that is held under this ticket, on whatever account. */
  ghost predicate OnTicketGrid(book: Book, ticket: int, sl: real, g: Grids) {
    forall k :: k in book && k.ticket == ticket ==> OnGrid(sl, g.digits(book[k].symbol))
  }

  /** Positions may vanish or shrink; those that stay keep their side and symbol and only tighten a set stop. */
  ghost predicate Ratcheted(before: Book, after: Book) {
    forall k :: k in after ==> && k in before && after[k].side == before[k].side && after[k].symbol == before[k].symbol
                               && after[k].volume <= before[k].volume
                               && Tightened(before[k].side, before[k].sl, after[k].sl)
  }

  lemma RatchetedTwice(a: Book, b: Book, c: Book, g: Grids)
    requires Ratcheted(a, b) && Ratcheted(b, c) && StopsHealthy(a, g)
    ensures Ratcheted(a, c)
  {
    hide OnGrid;
    forall k | k in c ensures Tightened(a[k].side, a[k].sl, c[k].sl) {
      assert k in b && Tightened(b[k].side, b[k].sl, c[k].sl);
    }
  }

  /** Nobody else ever edits a stop. */
  ghost predicate StopsAlone(env: Env) {
    forall k: nat :: env(k).restopped == map[]
  }

  lemma OthersRatchet(env: Env, book: Book, k: nat, g: Grids)
    requires StopsAlone(env) && StopsHealthy(book, g)
    ensures Ratcheted(book, Disturbed(book, env(k))) && StopsHealthy(Disturbed(book, env(k)), g)
  {
    hide OnGrid;
  }

  lemma {:induction false} QuietCallsRatchet(env: Env, book: Book, from: nat, n: nat, g: Grids)
    requires StopsAlone(env) && StopsHealthy(book, g)
    ensures Ratcheted(book, Books(env, book, from, n)) && StopsHealthy(Books(env, book, from, n), g)
    decreases n
  {
    hide OnGrid, Disturbed;
    if n == 0 {
      OthersRatchet(env, book, from, g);
      NothingRatchets(book, g);
    } else {
      OthersRatchet(env, book, from, g);
      QuietCallsRatchet(env, Disturbed(book, env(from)), from + 1, n - 1, g);
      RatchetedTwice(book, Disturbed(book, env(from)), Books(env, book, from, n), g);
    }
  }

  lemma NothingRatchets(book: Book, g: Grids)
    requires StopsHealthy(book, g)
    ensures Ratcheted(book, book)
  {
    hide OnGrid;
  }

  /** A stop move that is tighter than the stop it meets, and the read that follows it. */
  lemma FinishRatchets(env: Env, w: World, ticket: int, order: Order, info: Option<SymbolInfo>, g: Grids)
    requires StopsAlone(env) && StopsHealthy(w.book, g) && order.StopMove? && order.sl > 0.0
    requires var key, book := Key(env(w.clock).active, order.ticket), Disturbed(w.book, env(w.clock));
             key in book ==> && OnGrid(order.sl, g.digits(book[key].symbol))
                             && Tightened(book[key].side, book[key].sl, order.sl)
    ensures var after := Finish(env, w, ticket, order, info).0.book;
            Ratcheted(w.book, after) && StopsHealthy(after, g)
  {
    hide Disturbed, OnGrid;
    var book, key := Disturbed(w.book, env(w.clock)), Key(env(w.clock).active, order.ticket);
    var w1 := OrderSend(env, w, order).0;
    OthersRatchet(env, w.book, w.clock, g);
    MoveRatchets(book, key, order, env(w.clock), g);
    RatchetedTwice(w.book, book, w1.book, g);
    OthersRatchet(env, w1.book, w1.clock, g);
    RatchetedTwice(w.book, w1.book, Disturbed(w1.book, env(w1.clock)), g);
  }

  lemma MoveRatchets(book: Book, key: Key, order: Order, m: Move, g: Grids)
    requires StopsHealthy(book, g) && order.StopMove? && order.sl > 0.0
    requires key in book ==> && OnGrid(order.sl, g.digits(book[key].symbol))
                             && Tightened(book[key].side, book[key].sl, order.sl)
    ensures var after := AfterOrder(book, key, order, m); Ratcheted(book, after) && StopsHealthy(after, g)
  {
    hide OnGrid;
  }

  /** Every held symbol reports its own digits, or is unreadable and the default grid is at least as fine. */
  ghost predicate Digits(env: Env, g: Grids) {
    forall k: nat, s :: s in g.held ==>
      if s in env(k).symbols then env(k).symbols[s].digits == g.digits(s) else g.digits(s) <= DEFAULT_DIGITS
  }

  /** The constraints that a call uses are those of the symbol that it read. */
  lemma InfoOfMove(env: Env, w: World, ticket: int, sl: real, tp: Option<real>, pin: Pin)
    requires ApproachMove(env, w, ticket, sl, tp, pin).1.Ready?
    ensures var approach, symbols := ApproachMove(env, w, ticket, sl, tp, pin).1, env(w.clock + 2).symbols;
            approach.info == if approach.read.symbol in symbols then Some(symbols[approach.read.symbol]) else None
  {
    hide Disturbed, Decide, InsideBand, RoundTo, SymbolInfoTick, VerifyMutationIdentity, StopOrder;
  }

  /** A ticket that is read and later met holds the symbol it always held. */
  lemma CallOnGrid(env: Env, w: World, ticket: int, sl: real, p: Position, w1: World, g: Grids)
    requires StopsAlone(env) && StopsHealthy(w.book, g) && OnTicketGrid(w.book, ticket, sl, g)
    requires env(w.clock + 1).active == env(w.clock + 6).active && Ratcheted(w.book, w1.book)
    requires var key := Key(env(w.clock + 1).active, ticket);
             var book := Disturbed(Disturbed(w.book, env(w.clock)), env(w.clock + 1));
             key in book && book[key] == p
    ensures p.symbol in g.held && OnGrid(p.sl, g.digits(p.symbol)) && OnGrid(sl, g.digits(p.symbol))
    ensures var key, book := Key(env(w.clock + 6).active, ticket), Disturbed(w1.book, env(w.clock + 6));
            key in book ==> book[key].symbol == p.symbol
  {
    hide OnGrid;
  }

  /** A call whose order goes to the account that was read tightens or leaves every stop of every account. */
  lemma CallRatchets(env: Env, w: World, ticket: int, sl: real, tp: Option<real>, pin: Pin, g: Grids)
    requires StopsAlone(env) && Digits(env, g) && StopsHealthy(w.book, g)
    requires OnTicketGrid(w.book, ticket, sl, g)
    requires ApproachMove(env, w, ticket, sl, tp, pin).1.Ready? ==>
               sl > 0.0 && env(w.clock + 1).active == env(w.clock + 6).active
    ensures var after := Modify(env, w, ticket, sl, tp, pin).0.book;
            Ratcheted(w.book, after) && StopsHealthy(after, g)
  {
    hide Modify, ApproachMove, Disturbed, Decide, RoundTo, OnGrid, Finish, Ratcheted, GatedAt, Books;
    ModifyInParts(env, w, ticket, sl, tp, pin);
    var (w1, approach) := ApproachMove(env, w, ticket, sl, tp, pin);
    var calls := MoveCalls(env, w, ticket, sl, tp, pin);
    QuietCallsRatchet(env, w.book, w.clock, |calls|, g);
    if approach.Ready? {
      InfoOfMove(env, w, ticket, sl, tp, pin);
      ReadOfMove(env, w, ticket, sl, tp, pin);
      OthersRatchet(env, w.book, w.clock, g);
      OthersRatchet(env, Disturbed(w.book, env(w.clock)), w.clock + 1, g);
      CallOnGrid(env, w, ticket, sl, approach.read, w1, g);
      SentOrderTightens(approach.read, ticket, sl, tp, g.digits(approach.read.symbol), DigitsOf(approach.info));
      MetByMove(env, w, ticket, sl, tp, pin);
      FinishRatchets(env, w1, ticket, approach.order, approach.info, g);
      RatchetedTwice(w.book, w1.book, Modify(env, w, ticket, sl, tp, pin).0.book, g);
    }
  }

  /** Every order from call `from` on goes to the account that its position was read on. */
  ghost predicate SentWhereRead(env: Env, trace: seq<Event>, from: nat) {
    forall i :: from <= i < |trace| && trace[i].Sent? ==> i >= 5 && env(i - 5).active == env(i).active
  }

  lemma GridOutlives(before: Book, after: Book, ticket: int, sl: real, g: Grids)
    requires OnTicketGrid(before, ticket, sl, g) && Ratcheted(before, after)
    ensures OnTicketGrid(after, ticket, sl, g)
  {
    hide OnGrid;
  }

  lemma SendAtSix(env: Env, w: World, ticket: int, sl: real, tp: Option<real>, pin: Pin)
    requires |w.trace| == w.clock && ApproachMove(env, w, ticket, sl, tp, pin).1.Ready?
    ensures var trace := Modify(env, w, ticket, sl, tp, pin).0.trace;
            |trace| > w.clock + 6 && trace[w.clock + 6].Sent?
  {
    hide Modify, ApproachMove, Disturbed, Decide, RoundTo, Finish, GatedAt;
    ModifyInParts(env, w, ticket, sl, tp, pin);
    var (w1, approach) := ApproachMove(env, w, ticket, sl, tp, pin);
    var calls := MoveCalls(env, w, ticket, sl, tp, pin);
    FinishAppends(env, w1, ticket, approach.order, approach.info);
  }

  /**
   Over any sequence of calls with positive requests, each on the price grid of its ticket's symbol, dropped, rejected
   or unanswered, whatever account is active when: as long as nobody else edits stops and every order goes to the
   account that its position was read on, a set stop never moves down for a BUY nor up for a SELL on any account, and
   is never removed.
   */
  lemma {:induction false} StopRatchet(env: Env, w: World, requests: seq<Request>, g: Grids)
    requires StopsAlone(env) && Digits(env, g) && StopsHealthy(w.book, g) && |w.trace| == w.clock
    requires forall r :: r in requests ==> r.sl > 0.0 && OnTicketGrid(w.book, r.ticket, r.sl, g)
    requires SentWhereRead(env, ModifyAll(env, w, requests).trace, w.clock)
    ensures Ratcheted(w.book, ModifyAll(env, w, requests).book)
    decreases |requests|
  {
    hide Modify, ApproachMove, OnGrid, Ratcheted, StopsHealthy, Digits, MoveOf, StopsAlone, OnTicketGrid;
    if requests == [] {
      NothingRatchets(w.book, g);
    } else {
      var r := requests[0];
      var w1 := Modify(env, w, r.ticket, r.sl, r.tp, r.pin).0;
      MoveOfCall(env, w, r.ticket, r.sl, r.tp, r.pin);
      MovesOfAll(env, w1, requests[1..]);
      if ApproachMove(env, w, r.ticket, r.sl, r.tp, r.pin).1.Ready? {
        SendAtSix(env, w, r.ticket, r.sl, r.tp, r.pin);
        assert ModifyAll(env, w, requests).trace[w.clock + 6] == w1.trace[w.clock + 6];
      }
      CallRatchets(env, w, r.ticket, r.sl, r.tp, r.pin, g);
      assert forall q :: q in requests[1..] ==> q in requests;
      forall q | q in requests[1..] ensures OnTicketGrid(w1.book, q.ticket, q.sl, g) {
        GridOutlives(w.book, w1.book, q.ticket, q.sl, g);
      }
      StopRatchet(env, w1, requests[1..], g);
      RatchetedTwice(w.book, w1.book, ModifyAll(env, w1, requests[1..]).book, g);
    }
  }

  // ---- The loosening call really happens --------------------------------------------------------------------------

  /** One call, on its own, that reads `p` and has the broker move the stop of that very position to a looser one. */
  ghost predicate CallLoosens(env: Env, w: World, p: Position, ticket: int, sl: real, tp: Option<real>, pin: Pin,
                              digits: nat) {
    var trace := Modify(env, w, ticket, sl, tp, pin).0.trace;
    && w.clock == 0 && w.trace == [] && |trace| > 6 && IsMove(trace, 6)
    && ReadBefore(trace, 6) == p && DigitsBefore(trace, 6) == digits
    && trace[6].met == Some(p) && trace[6].reply == Ret(RETCODE_DONE)
    && !Tightened(p.side, p.sl, trace[6].order.sl)
  }

  /** A symbol without a point size: no band is checked. */
  function Quoted(digits: nat): SymbolInfo {
    SymbolInfo(digits, 0.0, 0, 0, 1.0, 1.0, true)
  }

  function Calm(symbol: string, digits: nat): Env {
    CalmEnv(OneAccount(), symbol, Quoted(digits))
  }

  function OneAccount(): Schedule {
    (k: nat) => Account("", "", DEMO, true)
  }

  /** The approach of a call in the calm environment reaches its order. */
  lemma CalmApproach(p: Position, ticket: int, sl: real, tp: Option<real>, digits: nat) returns (w6: World)
    requires Decide(p.side, p.sl, RoundTo(sl, digits), digits).Adjust?
    ensures var env, w := Calm(p.symbol, digits), World(map[Key(Account("", "", DEMO, true), ticket) := p], 0, []);
            ApproachMove(env, w, ticket, sl, tp, Pin(false, "", ""))
              == (w6, Ready(p, Some(Quoted(digits)),
                            StopOrder(p, ticket, sl, tp, digits)))
            && w6.book == w.book && w6.clock == 6
  {
    hide Decide, RoundTo, Disturbed;
    var env, pin := Calm(p.symbol, digits), Pin(false, "", "");
    var w := World(map[Key(Account("", "", DEMO, true), ticket) := p], 0, []);
    var info := Some(Quoted(digits));
    forall k: nat ensures Disturbed(w.book, env(k)) == w.book {
      CalmBook(OneAccount(), p.symbol, Quoted(digits), w.book, k);
    }
    var w1 := AccountInfo(env, w).0;
    var w2 := PositionsGet(env, w1, ticket).0;
    var w3 := SymbolInfoGet(env, w2, p.symbol).0;
    var w4 := SymbolInfoTick(env, w3).0;
    var w5 := AccountInfo(env, w4).0;
    w6 := TerminalInfo(env, w5).0;
    var order := StopOrder(p, ticket, sl, tp, digits);
    assert VerifyMutationIdentity(env, w4, pin) == (w6, Pass);
    assert ApproachSend(env, w3, p, order, info, pin) == (w6, Ready(p, info, order));
  }

  lemma CalmCallLoosens(p: Position, ticket: int, sl: real, tp: Option<real>, digits: nat)
    requires Decide(p.side, p.sl, RoundTo(sl, digits), digits).Adjust?
    requires !Tightened(p.side, p.sl, RoundTo(sl, digits))
    ensures CallLoosens(Calm(p.symbol, digits), World(map[Key(Account("", "", DEMO, true), ticket) := p], 0, []), p,
                        ticket, sl, tp, Pin(false, "", ""), digits)
  {
    hide Decide, RoundTo, ApproachMove, Modify;
    var env, pin := Calm(p.symbol, digits), Pin(false, "", "");
    var w := World(map[Key(Account("", "", DEMO, true), ticket) := p], 0, []);
    var w6 := CalmApproach(p, ticket, sl, tp, digits);
    var calls := MoveCalls(env, w, ticket, sl, tp, pin);
    ModifyInParts(env, w, ticket, sl, tp, pin);
    CalmBook(OneAccount(), p.symbol, Quoted(digits), w.book, 6);
    var order, info := StopOrder(p, ticket, sl, tp, digits), Some(Quoted(digits));
    FinishAppends(env, w6, ticket, order, info);
    FinishReply(env, w6, ticket, order, info);
  }

  lemma FinishReply(env: Env, w: World, ticket: int, order: Order, info: Option<SymbolInfo>)
    requires order.StopMove? && |w.trace| == w.clock
    ensures var w' := Finish(env, w, ticket, order, info).0;
            |w'.trace| > w.clock && w'.trace[w.clock].Sent? && w'.trace[w.clock].reply == env(w.clock).reply
  {
    hide AfterOrder, Disturbed;
  }

  lemma LooseningCallWasOff(env: Env, w: World, p: Position, ticket: int, sl: real, tp: Option<real>, pin: Pin,
                            digits: nat)
    requires CallLoosens(env, w, p, ticket, sl, tp, pin, digits)
    ensures Decide(p.side, p.sl, RoundTo(sl, digits), digits).Adjust?
    ensures HalfUnitOff(p.side, p.sl, RoundTo(sl, digits), digits)
  {
    hide Modify, Decide, RoundTo, HalfUnitOff, Tightened, StopKept;
    MoveOfCall(env, w, ticket, sl, tp, pin);
    AdjustLoosensExactly(p.side, p.sl, RoundTo(sl, digits), digits);
  }

  /**
   Some call on a position with this side and stop, for this request and these digits, has the broker move the stop to
   a looser one, if and only if the decision is to adjust a stop that is half a unit off, or that a SELL's request
   removes.
   */
  lemma StopCanBeLoosenedExactly(p: Position, ticket: int, sl: real, tp: Option<real>, digits: nat)
    ensures (exists env: Env, w: World, pin: Pin :: CallLoosens(env, w, p, ticket, sl, tp, pin, digits)) <==>
              (&& Decide(p.side, p.sl, RoundTo(sl, digits), digits).Adjust?
               && HalfUnitOff(p.side, p.sl, RoundTo(sl, digits), digits))
  {
    hide CallLoosens, Decide, RoundTo, HalfUnitOff, Calm, Tightened;
    forall env: Env, w: World, pin: Pin | CallLoosens(env, w, p, ticket, sl, tp, pin, digits)
      ensures Decide(p.side, p.sl, RoundTo(sl, digits), digits).Adjust?
      ensures HalfUnitOff(p.side, p.sl, RoundTo(sl, digits), digits)
    {
      LooseningCallWasOff(env, w, p, ticket, sl, tp, pin, digits);
    }
    var requested := RoundTo(sl, digits);
    if Decide(p.side, p.sl, requested, digits).Adjust? && HalfUnitOff(p.side, p.sl, requested, digits) {
      AdjustLoosensExactly(p.side, p.sl, RoundTo(sl, digits), digits);
      CalmCallLoosens(p, ticket, sl, tp, digits);
    }
  }
}
