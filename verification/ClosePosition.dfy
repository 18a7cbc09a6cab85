/** `close_position`: close one ticket with a bounded number of attempts, each behind a fresh identity check. */
module ClosePosition {
  import opened Common
  import opened Mt5Terminal

  const RETRYABLE: set<int> := {10004, 10020, 10021}

  datatype Failure =
    | CloseFailed | PositionsGetFailed | TickFailed | Identity(verdict: Verdict) | SendNone | Rejected(code: int)

  datatype Result =
    | AccountInfoFailed
    | AccountNotDemo
    | PositionNotFound
    | IdentityRejected(verdict: Verdict)
    | ConfirmedFlat
    | Closed
    | ResidualExposure(last: Failure)
  {
    predicate Ok() { ConfirmedFlat? || Closed? }
  }

  function CloseOrder(p: Position, ticket: int, tick: Tick): Order {
    Deal(p.symbol, p.side.Opposite(), p.volume, ticket, if p.side == Buy then tick.bid else tick.ask)
  }

  /** One pass of the retry loop: either a verdict, or the failure to carry into the next attempt. */
  datatype Attempt = Stop(result: Result) | Retry(failure: Failure)

  /** An attempt up to its send: what ended it before, or the order with the position it closes. */
  datatype Approach = Exit(attempt: Attempt) | Ready(read: Position, order: Order)

  function ApproachClose(env: Env, w: World, ticket: int, pin: Pin, first: bool): (World, Approach) {
    var (w1, found) := PositionsGet(env, w, ticket);
    if found.None? then (w1, Exit(Retry(PositionsGetFailed)))
    else if found.value.None? then (w1, Exit(Stop(if first then PositionNotFound else ConfirmedFlat)))
    else
      var p := found.value.value;
      var (w2, tick) := SymbolInfoTick(env, w1);
      if tick.None? then (w2, Exit(Retry(TickFailed)))
      else
        var (w3, verdict) := VerifyMutationIdentity(env, w2, pin);
        if verdict.Pass? then (w3, Ready(p, CloseOrder(p, ticket, tick.value)))
        else (w3, Exit(if verdict.Hard() then Stop(IdentityRejected(verdict)) else Retry(Identity(verdict))))
  }

  function Judged(reply: Reply): Attempt {
    if reply.NoReply? then Retry(SendNone)
    else if reply.code == RETCODE_DONE then Stop(Closed)
    else if reply.code in RETRYABLE then Retry(Rejected(reply.code))
    else Stop(ResidualExposure(Rejected(reply.code)))
  }

  function TryClose(env: Env, w: World, ticket: int, pin: Pin, first: bool): (World, Attempt) {
    var (w1, approach) := ApproachClose(env, w, ticket, pin, first);
    if approach.Exit? then (w1, approach.attempt)
    else
      var (w2, reply) := OrderSend(env, w1, approach.order);
      (w2, Judged(reply))
  }

  function CloseLoop(env: Env, w: World, ticket: int, pin: Pin, attempt: nat, max: nat, last: Failure): (World, Result)
    decreases max - attempt
  {
    if attempt >= max then (w, ResidualExposure(last))
    else
      var (w1, a) := TryClose(env, w, ticket, pin, attempt == 0);
      match a
      case Stop(result) => (w1, result)
      case Retry(failure) => CloseLoop(env, w1, ticket, pin, attempt + 1, max, failure)
  }

  function Close(env: Env, w: World, ticket: int, pin: Pin, max: nat): (World, Result) {
    var (w1, acc) := AccountInfo(env, w);
    if acc.None? then (w1, AccountInfoFailed)
    else if acc.value.tradeMode != DEMO then (w1, AccountNotDemo)
    else CloseLoop(env, w1, ticket, pin, 0, max, CloseFailed)
  }

  method ClosePosition(t: Terminal, ticket: int, pin: Pin, maxAttempts: nat) returns (result: Result)
    modifies t
    ensures (t.world, result) == Close(t.env, old(t.world), ticket, pin, maxAttempts)
  {
    var acc := t.ReadAccount();
    if acc.None? { return AccountInfoFailed; }
    if acc.value.tradeMode != DEMO { return AccountNotDemo; }

    ghost var start := t.world;
    var last := CloseFailed;
    var attempt := 0;
    while attempt < maxAttempts
      invariant attempt <= maxAttempts
      invariant CloseLoop(t.env, start, ticket, pin, 0, maxAttempts, CloseFailed)
             == CloseLoop(t.env, t.world, ticket, pin, attempt, maxAttempts, last)
    {
      var first := attempt == 0;
      attempt := attempt + 1;
      var found := t.ReadPosition(ticket);
      if found.None? {
        last := PositionsGetFailed;
        continue;
      }
      if found.value.None? {
        if first { return PositionNotFound; }
        return ConfirmedFlat;
      }
      var p := found.value.value;
      var tick := t.ReadTick();
      if tick.None? {
        last := TickFailed;
        continue;
      }
      var request := CloseOrder(p, ticket, tick.value);
      var verdict := t.CheckIdentity(pin);
      if !verdict.Pass? {
        if verdict.Hard() { return IdentityRejected(verdict); }
        last := Identity(verdict);
        continue;
      }
      var reply := t.Send(request);
      if reply.NoReply? {
        last := SendNone;
        continue;
      }
      if reply.code == RETCODE_DONE { return Closed; }
      last := Rejected(reply.code);
      if reply.code !in RETRYABLE { return ResidualExposure(last); }
    }
    return ResidualExposure(last);
  }

  // ---- Every order is a guarded, opposite-side order for the volume just read -------------------------------------

  /** The order is for the opposite side, the whole volume and this ticket, at the price that side trades at. */
  ghost predicate ClosesAt(p: Position, tick: Tick, ticket: int, order: Order) {
    order == Deal(p.symbol, p.side.Opposite(), p.volume, ticket, if p.side == Buy then tick.bid else tick.ask)
  }

  /** The send at `i` follows a read of this ticket, a tick and a passing identity check, and closes what was read. */
  ghost predicate ClosesWhatWasRead(trace: seq<Event>, i: int, ticket: int, pin: Pin) {
    && 4 <= i < |trace| && trace[i].Sent?
    && GatedAt(trace, i, pin)
    && trace[i - 3].TickRead? && trace[i - 3].tick.Some?
    && trace[i - 4].Read? && trace[i - 4].ticket == ticket
    && trace[i - 4].found.Some? && trace[i - 4].found.value.Some?
    && ClosesAt(trace[i - 4].found.value.value, trace[i - 3].tick.value, ticket, trace[i].order)
  }

  ghost predicate AllSendsGuarded(trace: seq<Event>, from: nat, ticket: int, pin: Pin) {
    forall i :: from <= i < |trace| && trace[i].Sent? ==> ClosesWhatWasRead(trace, i, ticket, pin)
  }

  /** What an approach that ends in an order has called: a read, a tick and the two gate reads. */
  ghost predicate Approached(approach: Approach, calls: seq<Event>, ticket: int, pin: Pin) {
    && approach.Ready? && |calls| == 4 && GatedAt(calls, 4, pin)
    && calls[0].Read? && calls[0].ticket == ticket && calls[0].found == Some(Some(approach.read))
    && calls[1].TickRead? && calls[1].tick.Some?
    && ClosesAt(approach.read, calls[1].tick.value, ticket, approach.order)
  }

  lemma ApproachCalls(env: Env, w: World, ticket: int, pin: Pin, first: bool) returns (calls: seq<Event>)
    ensures var (w', approach) := ApproachClose(env, w, ticket, pin, first);
            && After(env, w, w', calls) && NoSends(calls) && |calls| in {1, 2, 4}
            && (approach.Ready? ==> Approached(approach, calls, ticket, pin))
  {
    hide Disturbed;
    var (w1, found) := PositionsGet(env, w, ticket);
    var read := Read(env(w.clock).active, ticket, found);
    assert After(env, w, w, []);
    AfterCall(env, w, w, [], read);
    calls := [read];
    assert [] + [read] == calls;
    if found.None? || found.value.None? { return; }
    var (w2, tick) := SymbolInfoTick(env, w1);
    AfterCall(env, w, w1, calls, TickRead(tick));
    calls := calls + [TickRead(tick)];
    if tick.None? { return; }
    var (w3, acc) := AccountInfo(env, w2);
    AfterCall(env, w, w2, calls, AccountRead(acc));
    calls := calls + [AccountRead(acc)];
    var (w4, term) := TerminalInfo(env, w3);
    AfterCall(env, w, w3, calls, TerminalRead(term));
    calls := calls + [TerminalRead(term)];
    assert VerifyMutationIdentity(env, w2, pin).0 == w4;
  }

  /** The calls of one attempt: nothing sent among the first four, and a fifth is a guarded close. */
  ghost predicate AttemptCalls(calls: seq<Event>, ticket: int, pin: Pin) {
    && |calls| in {1, 2, 4, 5}
    && NoSends(if |calls| == 5 then calls[..4] else calls)
    && (|calls| == 5 ==> ClosesWhatWasRead(calls, 4, ticket, pin))
  }

  lemma TryCloseCalls(env: Env, w: World, ticket: int, pin: Pin, first: bool) returns (calls: seq<Event>)
    ensures var w' := TryClose(env, w, ticket, pin, first).0;
            w'.trace == w.trace + calls && w'.clock == w.clock + |calls|
    ensures AttemptCalls(calls, ticket, pin)
    ensures |calls| == 5 <==> ApproachClose(env, w, ticket, pin, first).1.Ready?
  {
    hide ApproachClose, Disturbed, Traded, CloseOrder;
    var (w1, approach) := ApproachClose(env, w, ticket, pin, first);
    calls := ApproachCalls(env, w, ticket, pin, first);
    if approach.Ready? {
      var sent := OrderSend(env, w1, approach.order).0.trace[|w1.trace|];
      var all := calls + [sent];
      assert all[..4] == calls && all[4] == sent;
      calls := all;
    }
  }

  lemma AttemptKeepsGuard(trace: seq<Event>, from: nat, calls: seq<Event>, ticket: int, pin: Pin)
    requires AllSendsGuarded(trace, from, ticket, pin) && AttemptCalls(calls, ticket, pin)
    ensures AllSendsGuarded(trace + calls, from, ticket, pin)
    ensures CountSends(trace + calls) <= CountSends(trace) + 1
  {
    hide CountSends, CloseOrder;
    var all, n := trace + calls, |trace|;
    var quiet := if |calls| == 5 then calls[..4] else calls;
    forall j | n <= j < n + |quiet| ensures !all[j].Sent? {
      assert all[j] == quiet[j - n] && quiet[j - n] in quiet;
    }
    forall i | from <= i < |all| && all[i].Sent? ensures ClosesWhatWasRead(all, i, ticket, pin) {
      if i < n {
        assert ClosesWhatWasRead(trace, i, ticket, pin);
      } else {
        assert i == n + 4;
        assert forall j :: 0 <= j < 5 ==> all[n + j] == calls[j];
      }
    }
    CountSendsOfCalls(trace, calls);
  }

  lemma CountSendsOfCalls(trace: seq<Event>, calls: seq<Event>)
    requires |calls| <= 5 && NoSends(if |calls| == 5 then calls[..4] else calls)
    ensures CountSends(trace + calls) <= CountSends(trace) + 1
  {
    if |calls| == 5 {
      NoSendsCount(trace, calls[..4]);
      assert trace + calls == trace + calls[..4] + [calls[4]];
      CountSendsAppend(trace + calls[..4], calls[4]);
    } else {
      NoSendsCount(trace, calls);
    }
  }

  lemma {:induction false} NoSendsCount(trace: seq<Event>, calls: seq<Event>)
    requires NoSends(calls)
    ensures CountSends(trace + calls) == CountSends(trace)
  {
    if calls == [] {
      assert trace + calls == trace;
    } else {
      var n := |calls| - 1;
      assert forall e :: e in calls[..n] ==> e in calls;
      assert calls[n] in calls;
      NoSendsCount(trace, calls[..n]);
      assert trace + calls == (trace + calls[..n]) + [calls[n]];
      CountSendsAppend(trace + calls[..n], calls[n]);
    }
  }

  lemma {:induction false} CloseLoopGuarded(env: Env, w: World, from: nat, ticket: int, pin: Pin,
                                            attempt: nat, max: nat, last: Failure)
    requires attempt <= max && AllSendsGuarded(w.trace, from, ticket, pin)
    ensures var w' := CloseLoop(env, w, ticket, pin, attempt, max, last).0;
            && AllSendsGuarded(w'.trace, from, ticket, pin)
            && CountSends(w'.trace) <= CountSends(w.trace) + (max - attempt)
    decreases max - attempt
  {
    hide TryClose, AllSendsGuarded, AttemptCalls;
    if attempt < max {
      var calls := TryCloseCalls(env, w, ticket, pin, attempt == 0);
      AttemptKeepsGuard(w.trace, from, calls, ticket, pin);
      var (w1, a) := TryClose(env, w, ticket, pin, attempt == 0);
      if a.Retry? {
        CloseLoopGuarded(env, w1, from, ticket, pin, attempt + 1, max, a.failure);
      }
    }
  }

  /** For every environment: at most `max` orders, each one a guarded close of the volume just read. */
  lemma CloseSendsAreBoundedAndGuarded(env: Env, w: World, ticket: int, pin: Pin, max: nat)
    ensures var w' := Close(env, w, ticket, pin, max).0;
            && CountSends(w'.trace) <= CountSends(w.trace) + max
            && AllSendsGuarded(w'.trace, |w.trace|, ticket, pin)
  {
    hide CloseLoop, ClosesWhatWasRead, CountSends;
    var (w1, acc) := AccountInfo(env, w);
    CountSendsAppend(w.trace, AccountRead(acc));
    if acc.Some? && acc.value.tradeMode == DEMO {
      CloseLoopGuarded(env, w1, |w.trace|, ticket, pin, 0, max, CloseFailed);
    }
  }

  // ---- Exposure only shrinks, because of the side, the volume and the account of the read -------------------------

  ghost predicate Positive(book: Book) {
    forall k :: k in book ==> book[k].volume > 0.0
  }

  /** What an order may meet without making anything larger or turning it around, however much of it is filled. */
  predicate Harmless(met: Position, order: Order, hedging: bool)
    requires order.Deal?
  {
    order.side == met.side.Opposite() && (hedging || order.volume <= met.volume)
  }

  lemma HarmlessOrderShrinks(book: Book, order: Order, m: Move)
    requires Positive(book) && order.Deal?
    requires var key := Key(m.active, order.ticket); key in book ==> Harmless(book[key], order, m.active.hedging)
    ensures var after := AfterOrder(book, Key(m.active, order.ticket), order, m); Shrunk(book, after) && Positive(after)
  {
  }

  /** The same move with another answer and another fill. */
  function Answered(m: Move, reply: Reply, lots: real): Move {
    m.(reply := reply, fill := lots)
  }

  /** However the order is answered and filled, it makes nothing larger and turns nothing around. */
  ghost predicate OnlyShrinks(book: Book, order: Order, m: Move) {
    forall reply, lots :: Shrunk(book, AfterOrder(book, Key(m.active, order.ticket), order, Answered(m, reply, lots)))
  }

  lemma HarmfulOrderGrows(book: Book, order: Order, m: Move)
    requires Positive(book) && order.Deal? && order.volume > 0.0
    requires var key := Key(m.active, order.ticket); key in book && !Harmless(book[key], order, m.active.hedging)
    ensures !OnlyShrinks(book, order, m)
  {
    var key, done := Key(m.active, order.ticket), Answered(m, Ret(RETCODE_DONE), 0.0);
    var p := book[key];
    var left := Traded(p, order, Filled(p, order, done));
    assert Filled(p, order, done) == order.volume;
    assert left.Some? && (left.value.side != p.side || left.value.volume > p.volume);
    assert AfterOrder(book, key, order, done)[key] == left.value;
    assert !Shrunk(book, AfterOrder(book, key, order, done));
  }

  /** An order only shrinks, for every answer and fill, if and only if it meets nothing or what it is harmless to. */
  lemma OnlyShrinksExactlyWhenHarmless(book: Book, order: Order, m: Move)
    requires Positive(book) && order.Deal? && order.volume > 0.0
    ensures var key := Key(m.active, order.ticket);
            OnlyShrinks(book, order, m) <==> (key in book ==> Harmless(book[key], order, m.active.hedging))
  {
    hide AfterOrder, Shrunk, Positive;
    var key := Key(m.active, order.ticket);
    if key in book && !Harmless(book[key], order, m.active.hedging) {
      HarmfulOrderGrows(book, order, m);
    } else {
      forall reply, lots ensures Shrunk(book, AfterOrder(book, key, order, Answered(m, reply, lots))) {
        HarmlessOrderShrinks(book, order, Answered(m, reply, lots));
      }
    }
  }

  /** The account read is the account of the send, and a netting account's ticket was not reduced in between. */
  ghost predicate SafeSend(env: Env, ticket: int, i: int) {
    && i >= 4 && env(i - 4).active == env(i).active
    && (env(i).active.hedging || forall k: nat :: i - 4 < k <= i ==> Key(env(i).active, ticket) !in env(k).shrunk)
  }

  lemma ShrunkTwice(a: Book, b: Book, c: Book)
    requires Shrunk(a, b) && Shrunk(b, c)
    ensures Shrunk(a, c)
  {
  }

  lemma {:induction false} BooksShrink(env: Env, book: Book, from: nat, n: nat)
    requires Positive(book)
    ensures Shrunk(book, Books(env, book, from, n)) && Positive(Books(env, book, from, n))
    decreases n
  {
    if n > 0 {
      DisturbedShrinks(book, env(from));
      BooksShrink(env, Disturbed(book, env(from)), from + 1, n - 1);
      ShrunkTwice(book, Disturbed(book, env(from)), Books(env, book, from, n));
    }
  }

  /** What an approach that ends in an order has read, and from which account. */
  lemma ReadOfApproach(env: Env, w: World, ticket: int, pin: Pin, first: bool)
    requires ApproachClose(env, w, ticket, pin, first).1.Ready?
    ensures var approach := ApproachClose(env, w, ticket, pin, first).1;
            var key, book := Key(env(w.clock).active, ticket), Disturbed(w.book, env(w.clock));
            && key in book && book[key] == approach.read && env(w.clock + 1).tick.Some?
            && approach.order == CloseOrder(approach.read, ticket, env(w.clock + 1).tick.value)
            && Admits(pin, env(w.clock + 2).active)
  {
    hide CloseOrder, Disturbed;
  }

  lemma {:induction false} UntouchedSurvives(env: Env, key: Key, p: Position, from: nat, n: nat)
    requires forall k: nat :: from <= k < from + n ==> key !in env(k).shrunk
    ensures TakenByOthers(env, key, p, from, n) == 0.0
    decreases n
  {
    if n > 0 { UntouchedSurvives(env, key, DisturbedPosition(key, p, env(from)), from + 1, n - 1); }
  }

  /** On the account of the read, the order meets what others left of the position in four calls. */
  lemma MetByClose(env: Env, w: World, ticket: int, pin: Pin, first: bool)
    requires ApproachClose(env, w, ticket, pin, first).1.Ready? && env(w.clock).active == env(w.clock + 4).active
    ensures var (w1, approach) := ApproachClose(env, w, ticket, pin, first);
            var key, book := Key(env(w.clock + 4).active, ticket), Disturbed(w1.book, env(w.clock + 4));
            (if key in book then Some(book[key]) else None) == Survivor(env, key, approach.read, w.clock + 1, 4)
  {
    hide ApproachClose, Disturbed, Survivor, Books;
    var (w1, approach) := ApproachClose(env, w, ticket, pin, first);
    var calls := ApproachCalls(env, w, ticket, pin, first);
    ReadOfApproach(env, w, ticket, pin, first);
    BooksFromRead(env, w.book, w.clock);
    BooksSurvivor(env, Key(env(w.clock + 4).active, ticket), Disturbed(w.book, env(w.clock)), w.clock + 1, 4);
  }

  lemma BooksFromRead(env: Env, book: Book, c: nat)
    ensures Disturbed(Books(env, book, c, 4), env(c + 4)) == Books(env, Disturbed(book, env(c)), c + 1, 4)
  {
    hide Disturbed;
    BooksStep(env, book, c, 4);
    BooksInParts(env, book, c, 1, 4);
    BooksStep(env, book, c, 0);
  }

  /** A close whose send is safe meets what it is harmless to. */
  lemma SafeSendIsHarmless(env: Env, w: World, ticket: int, pin: Pin, first: bool)
    requires ApproachClose(env, w, ticket, pin, first).1.Ready? && SafeSend(env, ticket, w.clock + 4)
    ensures var (w1, approach) := ApproachClose(env, w, ticket, pin, first);
            var key, book := Key(env(w.clock + 4).active, ticket), Disturbed(w1.book, env(w.clock + 4));
            && approach.order.Deal? && approach.order.ticket == ticket
            && (key in book ==> Harmless(book[key], approach.order, key.account.hedging))
  {
    hide ApproachClose, Disturbed;
    var (w1, approach) := ApproachClose(env, w, ticket, pin, first);
    var key := Key(env(w.clock + 4).active, ticket);
    ReadOfApproach(env, w, ticket, pin, first);
    MetByClose(env, w, ticket, pin, first);
    SurvivorVolume(env, key, approach.read, w.clock + 1, 4);
    if !key.account.hedging { UntouchedSurvives(env, key, approach.read, w.clock + 1, 4); }
  }

  lemma SentOrderShrinks(env: Env, w: World, order: Order)
    requires Positive(w.book) && order.Deal?
    requires var key, book := Key(env(w.clock).active, order.ticket), Disturbed(w.book, env(w.clock));
             key in book ==> Harmless(book[key], order, key.account.hedging)
    ensures var book := OrderSend(env, w, order).0.book; Shrunk(w.book, book) && Positive(book)
  {
    hide AfterOrder;
    var book := Disturbed(w.book, env(w.clock));
    DisturbedShrinks(w.book, env(w.clock));
    HarmlessOrderShrinks(book, order, env(w.clock));
    ShrunkTwice(w.book, book, OrderSend(env, w, order).0.book);
  }

  lemma TryCloseShrinks(env: Env, w: World, ticket: int, pin: Pin, first: bool)
    requires Positive(w.book)
    requires ApproachClose(env, w, ticket, pin, first).1.Ready? ==> SafeSend(env, ticket, w.clock + 4)
    ensures var w' := TryClose(env, w, ticket, pin, first).0; Shrunk(w.book, w'.book) && Positive(w'.book)
  {
    hide ApproachClose, OrderSend, Disturbed, Books, Shrunk, Positive, SafeSend, Harmless;
    var (w1, approach) := ApproachClose(env, w, ticket, pin, first);
    var calls := ApproachCalls(env, w, ticket, pin, first);
    BooksShrink(env, w.book, w.clock, |calls|);
    if approach.Ready? {
      SafeSendIsHarmless(env, w, ticket, pin, first);
      SentOrderShrinks(env, w1, approach.order);
      ShrunkTwice(w.book, w1.book, TryClose(env, w, ticket, pin, first).0.book);
    }
  }

  /** Every order of the trace from `from` on was sent safely. */
  ghost predicate SentSafely(env: Env, trace: seq<Event>, from: nat, ticket: int) {
    forall i :: from <= i < |trace| && trace[i].Sent? ==> SafeSend(env, ticket, i)
  }

  lemma {:induction false} CloseLoopAppends(env: Env, w: World, ticket: int, pin: Pin, attempt: nat, max: nat,
                                            last: Failure)
    ensures w.trace <= CloseLoop(env, w, ticket, pin, attempt, max, last).0.trace
    decreases max - attempt
  {
    hide TryClose, AttemptCalls;
    if attempt < max {
      var calls := TryCloseCalls(env, w, ticket, pin, attempt == 0);
      var (w1, a) := TryClose(env, w, ticket, pin, attempt == 0);
      if a.Retry? { CloseLoopAppends(env, w1, ticket, pin, attempt + 1, max, a.failure); }
    }
  }

  lemma {:induction false} CloseLoopShrinks(env: Env, w: World, ticket: int, pin: Pin, attempt: nat, max: nat,
                                            last: Failure)
    requires Positive(w.book) && |w.trace| == w.clock
    requires SentSafely(env, CloseLoop(env, w, ticket, pin, attempt, max, last).0.trace, w.clock, ticket)
    ensures Shrunk(w.book, CloseLoop(env, w, ticket, pin, attempt, max, last).0.book)
    decreases max - attempt
  {
    hide TryClose, SafeSend, ApproachClose, Positive, Shrunk;
    if attempt < max {
      var (w1, a) := TryClose(env, w, ticket, pin, attempt == 0);
      var calls := TryCloseCalls(env, w, ticket, pin, attempt == 0);
      var final := CloseLoop(env, w, ticket, pin, attempt, max, last).0;
      if a.Retry? { CloseLoopAppends(env, w1, ticket, pin, attempt + 1, max, a.failure); }
      assert w1.trace <= final.trace;
      if |calls| == 5 {
        assert final.trace[w.clock + 4] == w1.trace[w.clock + 4] == calls[4];
      }
      TryCloseShrinks(env, w, ticket, pin, attempt == 0);
      if a.Retry? {
        CloseLoopShrinks(env, w1, ticket, pin, attempt + 1, max, a.failure);
        ShrunkTwice(w.book, w1.book, final.book);
      }
    } else {
      NothingShrinks(w.book);
    }
  }

  lemma NothingShrinks(book: Book)
    ensures Shrunk(book, book)
  {
  }

  /**
   While every order is sent to the account that was read, and nobody reduced the ticket in between on a netting
   account, no position on any account ever grows, appears or changes side through a close, whatever else happens
   outside.
   */
  lemma CloseNeverGrowsExposure(env: Env, w: World, ticket: int, pin: Pin, max: nat)
    requires Positive(w.book) && |w.trace| == w.clock
    requires SentSafely(env, Close(env, w, ticket, pin, max).0.trace, w.clock, ticket)
    ensures Shrunk(w.book, Close(env, w, ticket, pin, max).0.book)
  {
    hide CloseLoop, Disturbed, Shrunk, Positive, SafeSend;
    var (w1, acc) := AccountInfo(env, w);
    BooksShrink(env, w.book, w.clock, 1);
    BooksStep(env, w.book, w.clock, 0);
    if acc.Some? && acc.value.tradeMode == DEMO {
      CloseLoopShrinks(env, w1, ticket, pin, 0, max, CloseFailed);
      ShrunkTwice(w.book, w1.book, Close(env, w, ticket, pin, max).0.book);
    }
  }

  // ---- What "ok" proves -------------------------------------------------------------------------------------------

  /** A flat verdict rests on a successful, empty read or on a DONE fill, never on a failed read. */
  ghost predicate FlatEvidence(result: Result, e: Event, ticket: int) {
    match result
    case ConfirmedFlat => e.Read? && e.ticket == ticket && e.found == Some(None)
    case Closed => e.Sent? && e.order.Deal? && e.order.ticket == ticket && e.reply == Ret(RETCODE_DONE)
    case _ => true
  }

  /** A DONE close on the account of the read leaves no position if and only if others had closed it, the account is a
      hedging one, or nobody had reduced it since the read. */
  lemma DoneFlattensExactly(env: Env, w: World, ticket: int, pin: Pin, first: bool)
    requires ApproachClose(env, w, ticket, pin, first).1.Ready? && env(w.clock).active == env(w.clock + 4).active
    requires Positive(w.book) && env(w.clock + 4).reply == Ret(RETCODE_DONE)
    ensures var w' := TryClose(env, w, ticket, pin, first).0;
            var read, key := ApproachClose(env, w, ticket, pin, first).1.read, Key(env(w.clock).active, ticket);
            key !in w'.book <==> || Survivor(env, key, read, w.clock + 1, 4).None?
                                 || key.account.hedging || TakenByOthers(env, key, read, w.clock + 1, 4) == 0.0
  {
    hide ApproachClose, Disturbed, Survivor, TakenByOthers;
    var (w1, approach) := ApproachClose(env, w, ticket, pin, first);
    var calls := ApproachCalls(env, w, ticket, pin, first);
    var key := Key(env(w.clock).active, ticket);
    ReadOfApproach(env, w, ticket, pin, first);
    DisturbedKeepsPositive(w.book, env(w.clock));
    MetByClose(env, w, ticket, pin, first);
    SurvivorVolume(env, key, approach.read, w.clock + 1, 4);
    DoneOrderCloses(Disturbed(w1.book, env(w1.clock)), approach.order, env(w1.clock));
  }

  lemma DisturbedKeepsPositive(book: Book, m: Move)
    requires Positive(book)
    ensures Positive(Disturbed(book, m))
  {
  }

  lemma DoneOrderCloses(book: Book, order: Order, m: Move)
    requires order.Deal? && m.reply == Ret(RETCODE_DONE) && order.volume > 0.0
    requires var key := Key(m.active, order.ticket);
             key in book ==> order.side == book[key].side.Opposite() && 0.0 < book[key].volume <= order.volume
    ensures var key := Key(m.active, order.ticket);
            key !in AfterOrder(book, key, order, m) <==>
              (key in book ==> m.active.hedging || book[key].volume == order.volume)
  {
  }

  lemma OrderKeepsPositive(env: Env, w: World, order: Order)
    requires Positive(w.book)
    ensures Positive(OrderSend(env, w, order).0.book)
  {
    DisturbedKeepsPositive(w.book, env(w.clock));
  }

  lemma TryCloseKeepsPositive(env: Env, w: World, ticket: int, pin: Pin, first: bool)
    requires Positive(w.book)
    ensures Positive(TryClose(env, w, ticket, pin, first).0.book)
  {
    hide ApproachClose, OrderSend, Disturbed, Books, Positive;
    var (w1, approach) := ApproachClose(env, w, ticket, pin, first);
    var calls := ApproachCalls(env, w, ticket, pin, first);
    BooksShrink(env, w.book, w.clock, |calls|);
    if approach.Ready? { OrderKeepsPositive(env, w1, approach.order); }
  }

  /** From call `from` to call `to` account `a` is active and, unless it is a hedging one, nobody reduces its ticket. */
  ghost predicate SteadyTicket(env: Env, a: Account, ticket: int, from: nat, to: int) {
    && (forall k: nat :: from <= k <= to ==> env(k).active == a)
    && (a.hedging || forall k: nat :: from <= k <= to ==> Key(a, ticket) !in env(k).shrunk)
  }

  /** What an `ok` verdict establishes about the ticket on account `a`. */
  ghost predicate OkIsFlat(w: World, result: Result, a: Account, ticket: int) {
    result.Ok() ==> && Key(a, ticket) !in w.book
                    && w.trace != [] && FlatEvidence(result, w.trace[|w.trace| - 1], ticket)
  }

  /** An attempt that stops without an order has confirmed an empty read, or its verdict is not `ok`. */
  lemma ExitOkIsFlat(env: Env, w: World, ticket: int, pin: Pin, first: bool)
    requires ApproachClose(env, w, ticket, pin, first).1.Exit?
    ensures var (w', approach) := ApproachClose(env, w, ticket, pin, first);
            approach.attempt.Stop? ==> OkIsFlat(w', approach.attempt.result, env(w.clock).active, ticket)
  {
    hide SymbolInfoTick, VerifyMutationIdentity, CloseOrder;
  }

  lemma TryCloseOkIsFlat(env: Env, w: World, ticket: int, pin: Pin, first: bool, a: Account)
    requires SteadyTicket(env, a, ticket, w.clock, w.clock + 4) && Positive(w.book)
    ensures var (w', step) := TryClose(env, w, ticket, pin, first);
            step.Stop? ==> OkIsFlat(w', step.result, a, ticket)
  {
    hide ApproachClose, Disturbed, AfterOrder, CloseOrder, Survivor, TakenByOthers;
    var (w1, approach) := ApproachClose(env, w, ticket, pin, first);
    var calls := ApproachCalls(env, w, ticket, pin, first);
    if approach.Exit? {
      ExitOkIsFlat(env, w, ticket, pin, first);
    } else if env(w.clock + 4).reply == Ret(RETCODE_DONE) {
      ReadOfApproach(env, w, ticket, pin, first);
      DoneFlattensExactly(env, w, ticket, pin, first);
      if !a.hedging { UntouchedSurvives(env, Key(a, ticket), approach.read, w.clock + 1, 4); }
      ClosingOrder(approach.read, ticket, env(w.clock + 1));
    }
  }

  lemma ClosingOrder(p: Position, ticket: int, m: Move)
    requires m.tick.Some?
    ensures CloseOrder(p, ticket, m.tick.value).Deal? && CloseOrder(p, ticket, m.tick.value).ticket == ticket
  {
  }

  lemma {:induction false} CloseLoopOkIsFlat(env: Env, w: World, ticket: int, pin: Pin,
                                             attempt: nat, max: nat, last: Failure, a: Account)
    requires attempt <= max && SteadyTicket(env, a, ticket, w.clock, w.clock + 5 * (max - attempt) - 1)
    requires Positive(w.book)
    ensures var (w', result) := CloseLoop(env, w, ticket, pin, attempt, max, last); OkIsFlat(w', result, a, ticket)
    decreases max - attempt
  {
    hide TryClose, Positive, FlatEvidence, AttemptCalls;
    if attempt < max {
      var (w1, step) := TryClose(env, w, ticket, pin, attempt == 0);
      if step.Retry? {
        var calls := TryCloseCalls(env, w, ticket, pin, attempt == 0);
        TryCloseKeepsPositive(env, w, ticket, pin, attempt == 0);
        CloseAttemptLength(calls, ticket, pin);
        CloseLoopOkIsFlat(env, w1, ticket, pin, attempt + 1, max, step.failure, a);
      } else {
        TryCloseOkIsFlat(env, w, ticket, pin, attempt == 0, a);
      }
    }
  }

  lemma CloseAttemptLength(calls: seq<Event>, ticket: int, pin: Pin)
    requires AttemptCalls(calls, ticket, pin)
    ensures 1 <= |calls| <= 5
  {
  }

  /**
   While the account is not switched during the calls that a close can make (and, on a netting account, nobody reduces
   the ticket), `ok` means the ticket is gone, and the evidence is an empty read or a DONE fill.
   */
  lemma CloseOkMeansFlat(env: Env, w: World, ticket: int, pin: Pin, max: nat, a: Account)
    requires SteadyTicket(env, a, ticket, w.clock + 1, w.clock + 5 * max) && Positive(w.book)
    ensures var (w', result) := Close(env, w, ticket, pin, max); OkIsFlat(w', result, a, ticket)
  {
    hide CloseLoop, Positive, Disturbed, FlatEvidence;
    DisturbedKeepsPositive(w.book, env(w.clock));
    CloseLoopOkIsFlat(env, AccountInfo(env, w).0, ticket, pin, 0, max, CloseFailed, a);
  }
}
