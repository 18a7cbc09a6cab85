/**
 When a close can be trusted, exactly: over everything that can happen around it on a given schedule of account
 switches, when it can make no position larger, and when its `ok` proves that the ticket is gone.
 */
module CloseSchedules {
  import opened Common
  import opened Mt5Terminal
  import opened ClosePosition

  // ---- Scripted outside worlds ------------------------------------------------------------------------------------

  const GOOD: Move := Move(Account("", "", DEMO, true), true, true, true, true, Some(Tick(1.0, 1.0)), map[],
                           {}, map[], map[], Ret(RETCODE_DONE), true, 0.0)

  const BAD: Move := Move(Account("", "", DEMO, true), false, false, false, false, None, map[],
                          {}, map[], map[], NoReply, false, 0.0)

  /** On the schedule every call of `fails` fails and every other call succeeds; at `late` others reduce `key` to one
      lot. */
  function Scripted(schedule: Schedule, fails: nat -> bool, key: Key, late: nat): Env {
    (k: nat) => (if fails(k) then BAD else GOOD).(active := schedule(k),
                                                  shrunk := if k == late then map[key := 1.0] else map[])
  }

  /** A call of a scripted world at which others do nothing. */
  predicate Idle(m: Move) {
    m.closed == {} && m.shrunk == map[] && m.restopped == map[]
  }

  predicate Works(m: Move) {
    && Idle(m) && m.connected && m.accountReadable && m.terminalReadable && m.positionsReadable && m.tick.Some?
    && m.reply == Ret(RETCODE_DONE)
  }

  predicate Fails(m: Move) {
    && Idle(m) && !m.connected && !m.accountReadable && !m.terminalReadable && !m.positionsReadable && m.tick.None?
    && m.reply == NoReply && m.fill == 0.0
  }

  lemma IdleBook(book: Book, m: Move)
    requires Idle(m)
    ensures Disturbed(book, m) == book
  {
  }

  // ---- Attempts that fail at a chosen call ------------------------------------------------------------------------

  /** The first `n` calls of an approach on account `a` work and find the ticket. */
  ghost predicate Opening(env: Env, w: World, ticket: int, a: Account, n: nat) {
    && Key(a, ticket) in w.book && w.book[Key(a, ticket)].volume > 0.0 && env(w.clock).active == a
    && forall k: nat :: w.clock <= k < w.clock + n ==> Works(env(k))
  }

  lemma ReadFails(env: Env, w: World, ticket: int, pin: Pin, first: bool) returns (w': World)
    requires Fails(env(w.clock))
    ensures TryClose(env, w, ticket, pin, first) == (w', Retry(PositionsGetFailed))
    ensures w'.book == w.book && w'.clock == w.clock + 1
  {
    w' := PositionsGet(env, w, ticket).0;
    IdleBook(w.book, env(w.clock));
  }

  /** The working read and tick at the start of an attempt. */
  lemma ReadAndTick(env: Env, w: World, ticket: int, a: Account) returns (w1: World, w2: World)
    requires Opening(env, w, ticket, a, 1)
    ensures PositionsGet(env, w, ticket) == (w1, Some(Some(w.book[Key(a, ticket)])))
    ensures SymbolInfoTick(env, w1) == (w2, env(w.clock + 1).tick)
    ensures w1.book == w.book && w1.clock == w.clock + 1 && w2.clock == w.clock + 2
    ensures Idle(env(w.clock + 1)) ==> w2.book == w.book
  {
    w1 := PositionsGet(env, w, ticket).0;
    w2 := SymbolInfoTick(env, w1).0;
    IdleBook(w.book, env(w.clock));
    if Idle(env(w.clock + 1)) { IdleBook(w.book, env(w.clock + 1)); }
  }

  lemma TickFails(env: Env, w: World, ticket: int, pin: Pin, first: bool, a: Account) returns (w': World)
    requires Opening(env, w, ticket, a, 1) && Fails(env(w.clock + 1))
    ensures TryClose(env, w, ticket, pin, first) == (w', Retry(ClosePosition.TickFailed))
    ensures w'.book == w.book && w'.clock == w.clock + 2
  {
    var w1, w2 := ReadAndTick(env, w, ticket, a);
    w' := w2;
    hide VerifyMutationIdentity, PositionsGet, SymbolInfoTick;
  }

  /** A pin that is required is set; otherwise every attempt is refused for good. */
  predicate PinSet(pin: Pin) {
    pin.required ==> pin.login != "" && pin.server != ""
  }

  /** The two reads of the gate, the second of which may fail. */
  lemma GateReads(env: Env, w: World, pin: Pin) returns (w': World)
    requires Works(env(w.clock)) && (Works(env(w.clock + 1)) || Fails(env(w.clock + 1)))
    ensures VerifyMutationIdentity(env, w, pin).0 == w' && w'.book == w.book && w'.clock == w.clock + 2
    ensures Admits(pin, env(w.clock).active) && Works(env(w.clock + 1)) ==>
              VerifyMutationIdentity(env, w, pin).1 == Pass
    ensures PinSet(pin) && Fails(env(w.clock + 1)) ==> VerifyMutationIdentity(env, w, pin).1 == TerminalUnavailable
  {
    var w1 := AccountInfo(env, w).0;
    w' := TerminalInfo(env, w1).0;
    IdleBook(w.book, env(w.clock));
    IdleBook(w.book, env(w.clock + 1));
  }

  lemma GateFails(env: Env, w: World, ticket: int, pin: Pin, first: bool, a: Account) returns (w': World)
    requires Opening(env, w, ticket, a, 3) && Fails(env(w.clock + 3)) && PinSet(pin)
    ensures TryClose(env, w, ticket, pin, first) == (w', Retry(Identity(TerminalUnavailable)))
    ensures w'.book == w.book && w'.clock == w.clock + 4
  {
    hide VerifyMutationIdentity, PositionsGet, SymbolInfoTick, OrderSend, CloseOrder, EvaluateMutationIdentity;
    hide Disturbed;
    var w1, w2 := ReadAndTick(env, w, ticket, a);
    w' := GateReads(env, w2, pin);
    assert TerminalUnavailable.Hard() == false;
  }

  /** Four working calls lead to the order. */
  lemma OrderReached(env: Env, w: World, ticket: int, pin: Pin, first: bool, a: Account)
    returns (w4: World, order: Order)
    requires Opening(env, w, ticket, a, 4) && Admits(pin, env(w.clock + 2).active)
    ensures ApproachClose(env, w, ticket, pin, first) == (w4, Ready(w.book[Key(a, ticket)], order))
    ensures order == CloseOrder(w.book[Key(a, ticket)], ticket, env(w.clock + 1).tick.value)
    ensures w4.book == w.book && w4.clock == w.clock + 4
  {
    var w1, w2 := ReadAndTick(env, w, ticket, a);
    w4 := GateReads(env, w2, pin);
    order := CloseOrder(w.book[Key(a, ticket)], ticket, env(w.clock + 1).tick.value);
    hide VerifyMutationIdentity, PositionsGet, SymbolInfoTick;
  }

  /** An unanswered order that is not filled changes nothing, whatever it meets. */
  lemma UnfilledOrder(book: Book, key: Key, order: Order, m: Move)
    requires Positive(book) && order.Deal? && m.reply == NoReply && m.fill == 0.0
    ensures AfterOrder(book, key, order, m) == book
  {
    if key in book {
      assert Filled(book[key], order, m) == 0.0;
      assert book[key := book[key]] == book;
    }
  }

  lemma SendFails(env: Env, w: World, ticket: int, pin: Pin, first: bool, a: Account) returns (w': World)
    requires Opening(env, w, ticket, a, 4) && Fails(env(w.clock + 4)) && Admits(pin, env(w.clock + 2).active)
    requires Positive(w.book)
    ensures TryClose(env, w, ticket, pin, first) == (w', Retry(SendNone))
    ensures w'.book == w.book && w'.clock == w.clock + 5
  {
    hide ApproachClose, Disturbed, AfterOrder;
    var w4, order := OrderReached(env, w, ticket, pin, first, a);
    w' := OrderSend(env, w4, order).0;
    IdleBook(w.book, env(w.clock + 4));
    UnfilledOrder(w.book, Key(env(w.clock + 4).active, order.ticket), order, env(w.clock + 4));
  }

  /** An attempt can be made to fail with its first, second or fourth call, and with its fifth where it is let to
      send. */
  lemma AttemptFails(env: Env, w: World, ticket: int, pin: Pin, first: bool, calls: nat)
    returns (w': World, failure: Failure)
    requires calls in {1, 2, 4, 5} && Fails(env(w.clock + calls - 1)) && Positive(w.book)
    requires Key(env(w.clock).active, ticket) in w.book
    requires forall k: nat :: w.clock <= k < w.clock + calls - 1 ==> Works(env(k))
    requires (calls == 4 ==> PinSet(pin)) && (calls == 5 ==> Admits(pin, env(w.clock + 2).active))
    ensures TryClose(env, w, ticket, pin, first) == (w', Retry(failure))
    ensures w'.book == w.book && w'.clock == w.clock + calls
  {
    hide TryClose, EvaluateMutationIdentity, Works, Fails;
    var a := env(w.clock).active;
    if calls == 1 {
      failure := PositionsGetFailed;
      w' := ReadFails(env, w, ticket, pin, first);
    } else if calls == 2 {
      failure := ClosePosition.TickFailed;
      w' := TickFails(env, w, ticket, pin, first, a);
    } else if calls == 4 {
      failure := Identity(TerminalUnavailable);
      w' := GateFails(env, w, ticket, pin, first, a);
    } else {
      failure := SendNone;
      w' := SendFails(env, w, ticket, pin, first, a);
    }
  }

  // ---- How few attempts can use up how many calls -----------------------------------------------------------------

  /** How many calls the next failing attempt makes when `n` calls are to be used up. */
  function NextCalls(n: nat): (calls: nat)
    requires n > 0
    ensures calls in {1, 2, 4, 5} && calls <= n
  {
    if n in {1, 2, 4, 5} then n else if n == 3 then 1 else if n == 8 then 4 else 5
  }

  function Attempts(n: nat): nat {
    if n == 0 then 0 else 1 + Attempts(n - NextCalls(n))
  }

  /** Three or more attempts leave room for every number of calls up to five for each but the last. */
  lemma {:induction false} AttemptsFit(n: nat, attempts: nat)
    requires n <= 5 * attempts && attempts >= 2
    ensures Attempts(n) <= attempts
    decreases n
  {
    if n > 10 { AttemptsFit(n - NextCalls(n), attempts - 1); }
  }

  // ---- The reads that a fixed number of attempts can make ---------------------------------------------------------

  /** A failing attempt of `calls` calls can end just before call `k`: one that passes the gate must have been let
      through, and one that fails there is refused for good without a pin that is required. */
  predicate CanEndAt(schedule: Schedule, pin: Pin, k: nat, calls: nat) {
    k > calls && (calls == 4 ==> PinSet(pin)) && (calls == 5 ==> Admits(pin, schedule(k - 3)))
  }

  /** After `attempts` failing attempts the position can be read at call `k`. */
  predicate Reachable(schedule: Schedule, pin: Pin, k: nat, attempts: nat)
    decreases attempts
  {
    if attempts == 0 then k == 1
    else
      || (CanEndAt(schedule, pin, k, 1) && Reachable(schedule, pin, k - 1, attempts - 1))
      || (CanEndAt(schedule, pin, k, 2) && Reachable(schedule, pin, k - 2, attempts - 1))
      || (CanEndAt(schedule, pin, k, 4) && Reachable(schedule, pin, k - 4, attempts - 1))
      || (CanEndAt(schedule, pin, k, 5) && Reachable(schedule, pin, k - 5, attempts - 1))
  }

  /** The calls of the last failing attempt on a way to call `k`. */
  function LastCalls(schedule: Schedule, pin: Pin, k: nat, attempts: nat): (calls: nat)
    requires attempts > 0 && Reachable(schedule, pin, k, attempts)
    ensures calls in {1, 2, 4, 5} && CanEndAt(schedule, pin, k, calls)
    ensures Reachable(schedule, pin, k - calls, attempts - 1)
  {
    if CanEndAt(schedule, pin, k, 1) && Reachable(schedule, pin, k - 1, attempts - 1) then 1
    else if CanEndAt(schedule, pin, k, 2) && Reachable(schedule, pin, k - 2, attempts - 1) then 2
    else if CanEndAt(schedule, pin, k, 4) && Reachable(schedule, pin, k - 4, attempts - 1) then 4
    else 5
  }

  /** The calls that have to fail on that way: the last of every attempt. */
  function Ends(schedule: Schedule, pin: Pin, k: nat, attempts: nat): (ends: set<nat>)
    requires Reachable(schedule, pin, k, attempts)
    ensures forall x :: x in ends ==> 0 < x < k
    decreases attempts
  {
    if attempts == 0 then {}
    else
      var calls := LastCalls(schedule, pin, k, attempts);
      Ends(schedule, pin, k - calls, attempts - 1) + {k - 1}
  }

  /** Every account up to call `n` holds a position under the ticket. */
  ghost predicate HeldUpTo(book: Book, schedule: Schedule, ticket: int, n: nat) {
    Positive(book) && forall x: nat :: x <= n ==> Key(schedule(x), ticket) in book
  }

  /** Exactly those calls fail. */
  ghost predicate FailsOnTheWay(schedule: Schedule, env: Env, pin: Pin, k: nat, attempts: nat)
    requires Reachable(schedule, pin, k, attempts)
  {
    forall x: nat :: 0 < x < k ==>
      if x in Ends(schedule, pin, k, attempts) then Fails(env(x)) else Works(env(x))
  }

  /** The last of those attempts works up to its last call, and the way to it is one attempt shorter. */
  lemma LastAttempt(schedule: Schedule, env: Env, pin: Pin, k: nat, attempts: nat) returns (calls: nat, from: nat)
    requires attempts > 0 && Reachable(schedule, pin, k, attempts) && FailsOnTheWay(schedule, env, pin, k, attempts)
    ensures calls in {1, 2, 4, 5} && 0 < from && from + calls == k
    ensures (calls == 4 ==> PinSet(pin)) && (calls == 5 ==> Admits(pin, schedule(from + 2)))
    ensures Fails(env(k - 1)) && forall x: nat :: from <= x < k - 1 ==> Works(env(x))
    ensures Reachable(schedule, pin, from, attempts - 1) && FailsOnTheWay(schedule, env, pin, from, attempts - 1)
  {
    hide Admits, Works, Fails, PinSet, Reachable;
    calls := LastCalls(schedule, pin, k, attempts);
    from := k - calls;
    assert Ends(schedule, pin, k, attempts) == Ends(schedule, pin, from, attempts - 1) + {k - 1};
  }

  /** With exactly those calls failing, the loop comes to its read at call `k` with the books unchanged. */
  lemma {:induction false} FailToRead(schedule: Schedule, env: Env, w: World, ticket: int, pin: Pin, max: nat, k: nat,
                                      attempts: nat)
    returns (w': World, last: Failure)
    requires Reachable(schedule, pin, k, attempts) && attempts <= max && w.clock == 1
    requires HeldUpTo(w.book, schedule, ticket, k) && Follows(env, schedule)
    requires FailsOnTheWay(schedule, env, pin, k, attempts)
    ensures CloseLoop(env, w, ticket, pin, 0, max, CloseFailed)
         == CloseLoop(env, w', ticket, pin, attempts, max, last)
    ensures w'.book == w.book && w'.clock == k
    decreases attempts
  {
    hide TryClose, Admits, Works, Fails, PinSet, Positive, FailsOnTheWay;
    if attempts == 0 {
      w', last := w, CloseFailed;
    } else {
      hide Reachable;
      var calls, from := LastAttempt(schedule, env, pin, k, attempts);
      var before, earlier := FailToRead(schedule, env, w, ticket, pin, max, from, attempts - 1);
      var after, failure := AttemptFails(env, before, ticket, pin, attempts == 1, calls);
      w', last := after, failure;
    }
  }

  /** A reachable read that finds a position sends the order that closes it, and that order is answered DONE. */
  lemma ReachedSend(schedule: Schedule, ticket: int, pin: Pin, max: nat, k: nat, attempts: nat, w: World, key: Key,
                    late: nat)
    returns (env: Env, w': World)
    requires Reachable(schedule, pin, k, attempts) && attempts < max && late >= k + 4
    requires schedule(0).tradeMode == DEMO && Admits(pin, schedule(k + 2))
    requires w.clock == 0 && HeldUpTo(w.book, schedule, ticket, k)
    ensures env == Scripted(schedule, (x: nat) => x in Ends(schedule, pin, k, attempts), key, late)
    ensures Close(env, w, ticket, pin, max) == (w', Closed)
    ensures w'.book == AfterOrder(Disturbed(w.book, env(k + 4)), Key(schedule(k + 4), ticket),
                                  CloseOrder(w.book[Key(schedule(k), ticket)], ticket, Tick(1.0, 1.0)), env(k + 4))
  {
    hide ApproachClose, CloseOrder, Disturbed, AfterOrder, EvaluateMutationIdentity, Ends, Reachable;
    env := Scripted(schedule, (x: nat) => x in Ends(schedule, pin, k, attempts), key, late);
    forall x: nat | x < k + 4
      ensures if x in Ends(schedule, pin, k, attempts) then Fails(env(x))
              else Works(env(x)) && env(x).tick == Some(Tick(1.0, 1.0))
    {
    }
    var w1 := AccountInfo(env, w).0;
    IdleBook(w.book, env(0));
    var w2, last := FailToRead(schedule, env, w1, ticket, pin, max, k, attempts);
    var w3, order := OrderReached(env, w2, ticket, pin, attempts == 0, schedule(k));
    w' := OrderSend(env, w3, order).0;
    ClosingOrder(w.book[Key(schedule(k), ticket)], ticket, env(k + 1));
    assert TryClose(env, w2, ticket, pin, attempts == 0) == (w', Stop(Closed));
  }

  const LOTS: Position := Position("EURUSD", Buy, 2.0, 0.0, 0.0)

  /** Two lots on every account that is active up to call `n`; on one of them, if given, for the other side. */
  function LotsEverywhere(schedule: Schedule, ticket: int, n: nat, other: Option<Account>): Book {
    map a | a in Accounts(schedule, n) :: Key(a, ticket) := LOTS.(side := if Some(a) == other then Sell else Buy)
  }

  function Accounts(schedule: Schedule, n: nat): set<Account> {
    set x: nat | x <= n :: schedule(x)
  }

  lemma LotsAreHeld(schedule: Schedule, ticket: int, n: nat, other: Option<Account>)
    ensures HeldUpTo(LotsEverywhere(schedule, ticket, n, other), schedule, ticket, n)
    ensures forall x: nat :: x <= n ==> LotsEverywhere(schedule, ticket, n, other)[Key(schedule(x), ticket)]
                                          == LOTS.(side := if Some(schedule(x)) == other then Sell else Buy)
  {
    var book := LotsEverywhere(schedule, ticket, n, other);
    forall x: nat | x <= n ensures Key(schedule(x), ticket) in book {
      assert schedule(x) in Accounts(schedule, n);
    }
  }

  /** Two lots read on one account, sent to an account that holds two lots of the other side: four are open there. */
  lemma OtherAccountGrows(schedule: Schedule, ticket: int, pin: Pin, max: nat, k: nat, attempts: nat)
    returns (env: Env, w: World)
    requires Reachable(schedule, pin, k, attempts) && attempts < max && schedule(0).tradeMode == DEMO
    requires Admits(pin, schedule(k + 2)) && schedule(k + 4) != schedule(k)
    ensures Follows(env, schedule) && w.clock == 0 && w.trace == [] && Positive(w.book)
    ensures !Shrunk(w.book, Close(env, w, ticket, pin, max).0.book)
  {
    hide Admits, Close, Reachable, Ends;
    var other := Key(schedule(k + 4), ticket);
    w := World(LotsEverywhere(schedule, ticket, k + 4, Some(schedule(k + 4))), 0, []);
    LotsAreHeld(schedule, ticket, k + 4, Some(schedule(k + 4)));
    var w';
    env, w' := ReachedSend(schedule, ticket, pin, max, k, attempts, w, other, k + 5);
    IdleBook(w.book, env(k + 4));
    assert w'.book[other].volume == 4.0;
  }

  /** Two lots read on a netting account, reduced to one by others: closing two turns the position around. */
  lemma NettingPositionFlips(schedule: Schedule, ticket: int, pin: Pin, max: nat, k: nat, attempts: nat)
    returns (env: Env, w: World)
    requires Reachable(schedule, pin, k, attempts) && attempts < max && schedule(0).tradeMode == DEMO
    requires Admits(pin, schedule(k + 2)) && schedule(k + 4) == schedule(k) && !schedule(k).hedging
    ensures Follows(env, schedule) && w.clock == 0 && w.trace == [] && Positive(w.book)
    ensures var (w', result) := Close(env, w, ticket, pin, max);
            && result == Closed && Key(schedule(k), ticket) in w'.book && w'.book[Key(schedule(k), ticket)].side == Sell
            && !Shrunk(w.book, w'.book)
  {
    hide Admits, Close, Reachable, Ends;
    var key := Key(schedule(k), ticket);
    w := World(LotsEverywhere(schedule, ticket, k + 4, None), 0, []);
    LotsAreHeld(schedule, ticket, k + 4, None);
    var w';
    env, w' := ReachedSend(schedule, ticket, pin, max, k, attempts, w, key, k + 4);
    var book := Disturbed(w.book, env(k + 4));
    assert key in book && book[key] == LOTS.(volume := 1.0);
    assert w'.book[key].side == Sell;
  }

  // ---- When a close can make nothing larger -----------------------------------------------------------------------

  /** A close of at most `max` attempts on this schedule never makes a position larger or turns one around. */
  ghost predicate NeverGrows(schedule: Schedule, ticket: int, pin: Pin, max: nat) {
    forall env: Env, w: World ::
      Follows(env, schedule) && w.clock == 0 && w.trace == [] && Positive(w.book) ==>
        Shrunk(w.book, Close(env, w, ticket, pin, max).0.book)
  }

  /** If the gate lets the order of a read at call `k` through, it goes to the hedging account that was read. */
  predicate SafeRead(schedule: Schedule, pin: Pin, k: nat) {
    Admits(pin, schedule(k + 2)) ==> schedule(k + 4) == schedule(k) && schedule(k).hedging
  }

  /** One of `max` attempts can read the position at call `k`. */
  ghost predicate CanRead(schedule: Schedule, pin: Pin, max: nat, k: nat) {
    exists attempts: nat :: attempts < max && Reachable(schedule, pin, k, attempts)
  }

  /** Every read that `max` attempts can make is safe. */
  ghost predicate SendsWhereItRead(schedule: Schedule, pin: Pin, max: nat) {
    forall k: nat :: CanRead(schedule, pin, max, k) ==> SafeRead(schedule, pin, k)
  }

  /** The order at `i` followed a reachable read and was let through by the gate. */
  ghost predicate ReachableSend(schedule: Schedule, pin: Pin, max: nat, i: int) {
    i >= 5 && Admits(pin, schedule(i - 2)) && CanRead(schedule, pin, max, i - 4)
  }

  ghost predicate SentReachably(schedule: Schedule, trace: seq<Event>, from: nat, pin: Pin, max: nat) {
    forall i :: from <= i < |trace| && trace[i].Sent? ==> ReachableSend(schedule, pin, max, i)
  }

  lemma QuietCalls(calls: seq<Event>, ticket: int, pin: Pin)
    requires AttemptCalls(calls, ticket, pin)
    ensures |calls| in {1, 2, 4, 5} && forall j :: 0 <= j < |calls| && calls[j].Sent? ==> j == 4
  {
    var quiet := if |calls| == 5 then calls[..4] else calls;
    assert forall j :: 0 <= j < |quiet| ==> calls[j] == quiet[j] && quiet[j] in quiet;
  }

  /** A failing attempt of these calls leads from one reachable read to the next. */
  lemma NextIsReachable(schedule: Schedule, pin: Pin, k: nat, attempts: nat, calls: nat)
    requires Reachable(schedule, pin, k, attempts) && calls in {1, 2, 4, 5} && k >= 1
    requires (calls == 4 ==> PinSet(pin)) && (calls == 5 ==> Admits(pin, schedule(k + 2)))
    ensures Reachable(schedule, pin, k + calls, attempts + 1)
  {
    hide Admits;
    assert CanEndAt(schedule, pin, k + calls, calls);
    assert k + calls - calls == k;
  }

  /** An attempt that fails at the gate without being refused for good had a pin where one is required. */
  lemma RetryNeedsPin(env: Env, w: World, ticket: int, pin: Pin, first: bool)
    requires TryClose(env, w, ticket, pin, first).1.Retry?
    requires TryClose(env, w, ticket, pin, first).0.clock == w.clock + 4
    ensures PinSet(pin)
  {
    hide Disturbed, CloseOrder, AfterOrder, EvaluateMutationIdentity;
  }

  lemma {:induction false} LoopSendsReachably(schedule: Schedule, env: Env, w: World, ticket: int, pin: Pin,
                                              attempt: nat, max: nat, last: Failure)
    requires |w.trace| == w.clock >= 1 && Follows(env, schedule) && Reachable(schedule, pin, w.clock, attempt)
    ensures SentReachably(schedule, CloseLoop(env, w, ticket, pin, attempt, max, last).0.trace, w.clock, pin, max)
    decreases max - attempt
  {
    hide TryClose, ApproachClose, Admits, ClosesWhatWasRead, NoSends, Reachable, AttemptCalls;
    if attempt < max {
      var (w1, a) := TryClose(env, w, ticket, pin, attempt == 0);
      var calls := TryCloseCalls(env, w, ticket, pin, attempt == 0);
      if |calls| == 5 {
        ReadOfApproach(env, w, ticket, pin, attempt == 0);
        assert CanRead(schedule, pin, max, w.clock + 4 - 4);
      }
      QuietCalls(calls, ticket, pin);
      var final := CloseLoop(env, w, ticket, pin, attempt, max, last).0;
      if a.Retry? {
        if |calls| == 4 { RetryNeedsPin(env, w, ticket, pin, attempt == 0); }
        NextIsReachable(schedule, pin, w.clock, attempt, |calls|);
        LoopSendsReachably(schedule, env, w1, ticket, pin, attempt + 1, max, a.failure);
        CloseLoopAppends(env, w1, ticket, pin, attempt + 1, max, a.failure);
      }
      assert w1.trace <= final.trace;
      forall i | w.clock <= i < |final.trace| && final.trace[i].Sent? ensures ReachableSend(schedule, pin, max, i) {
        if i < w1.clock {
          assert final.trace[i] == w1.trace[i] == calls[i - w.clock];
        }
      }
    }
  }

  lemma SendsReachably(schedule: Schedule, env: Env, w: World, ticket: int, pin: Pin, max: nat)
    requires w.clock == 0 && w.trace == [] && Follows(env, schedule)
    ensures SentReachably(schedule, Close(env, w, ticket, pin, max).0.trace, 0, pin, max)
  {
    hide CloseLoop, Admits, ReachableSend;
    var (w1, acc) := AccountInfo(env, w);
    LoopSendsReachably(schedule, env, w1, ticket, pin, 0, max, CloseFailed);
    CloseLoopAppends(env, w1, ticket, pin, 0, max, CloseFailed);
    assert w1.trace[0] == AccountRead(acc);
    assert forall i :: 0 <= i < |Close(env, w, ticket, pin, max).0.trace| && i < 1 ==>
      Close(env, w, ticket, pin, max).0.trace[i] == AccountRead(acc);
  }

  lemma GrowthImpossible(schedule: Schedule, ticket: int, pin: Pin, env: Env, w: World, max: nat)
    requires SendsWhereItRead(schedule, pin, max) && Follows(env, schedule)
    requires w.clock == 0 && w.trace == [] && Positive(w.book)
    ensures Shrunk(w.book, Close(env, w, ticket, pin, max).0.book)
  {
    hide Close, Shrunk, Positive, Admits, Reachable;
    SendsReachably(schedule, env, w, ticket, pin, max);
    var trace := Close(env, w, ticket, pin, max).0.trace;
    forall i | 0 <= i < |trace| && trace[i].Sent? ensures SafeSend(env, ticket, i) {
      assert ReachableSend(schedule, pin, max, i);
      assert SafeRead(schedule, pin, i - 4);
    }
    CloseNeverGrowsExposure(env, w, ticket, pin, max);
  }

  lemma RefusedAccountShrinks(env: Env, w: World, ticket: int, pin: Pin, max: nat)
    requires env(w.clock).active.tradeMode != DEMO
    ensures Shrunk(w.book, Close(env, w, ticket, pin, max).0.book)
  {
    hide CloseLoop;
  }

  lemma SafeScheduleNeverGrows(schedule: Schedule, ticket: int, pin: Pin, max: nat)
    requires schedule(0).tradeMode == DEMO ==> SendsWhereItRead(schedule, pin, max)
    ensures NeverGrows(schedule, ticket, pin, max)
  {
    hide Close, Shrunk, Positive, SendsWhereItRead;
    forall env: Env, w: World | Follows(env, schedule) && w.clock == 0 && w.trace == [] && Positive(w.book)
      ensures Shrunk(w.book, Close(env, w, ticket, pin, max).0.book)
    {
      if schedule(0).tradeMode == DEMO {
        GrowthImpossible(schedule, ticket, pin, env, w, max);
      } else {
        RefusedAccountShrinks(env, w, ticket, pin, max);
      }
    }
  }

  lemma UnsafeScheduleGrows(schedule: Schedule, ticket: int, pin: Pin, max: nat) returns (env: Env, w: World)
    requires schedule(0).tradeMode == DEMO && !SendsWhereItRead(schedule, pin, max)
    ensures Follows(env, schedule) && w.clock == 0 && w.trace == [] && Positive(w.book)
    ensures !Shrunk(w.book, Close(env, w, ticket, pin, max).0.book)
  {
    hide Close, Shrunk, Positive, Admits, Follows, Reachable;
    var k: nat :| CanRead(schedule, pin, max, k) && !SafeRead(schedule, pin, k);
    var attempts: nat :| attempts < max && Reachable(schedule, pin, k, attempts);
    if schedule(k + 4) == schedule(k) {
      env, w := NettingPositionFlips(schedule, ticket, pin, max, k, attempts);
    } else {
      env, w := OtherAccountGrows(schedule, ticket, pin, max, k, attempts);
    }
  }

  /**
   For any fixed number of attempts: on a schedule of account switches a close can make nothing larger, whatever else
   happens, if and only if it is refused at once, or for every read that those attempts can make the order, if it is let
   through, goes to the hedging account that was read.
   */
  lemma NeverGrowsExactlyWhenSentWhereRead(schedule: Schedule, ticket: int, pin: Pin, max: nat)
    ensures NeverGrows(schedule, ticket, pin, max) <==>
              (schedule(0).tradeMode == DEMO ==> SendsWhereItRead(schedule, pin, max))
  {
    hide Close, Shrunk, Positive, SendsWhereItRead, Follows;
    if schedule(0).tradeMode == DEMO && !SendsWhereItRead(schedule, pin, max) {
      var env, w := UnsafeScheduleGrows(schedule, ticket, pin, max);
      assert !Shrunk(w.book, Close(env, w, ticket, pin, max).0.book);
    } else {
      SafeScheduleNeverGrows(schedule, ticket, pin, max);
    }
  }

  lemma {:induction false} ReachableWithin(schedule: Schedule, pin: Pin, k: nat, attempts: nat)
    requires Reachable(schedule, pin, k, attempts)
    ensures 1 + attempts <= k <= 1 + 5 * attempts
    decreases attempts
  {
    hide Admits;
    if attempts > 0 {
      ReachableWithin(schedule, pin, k - LastCalls(schedule, pin, k, attempts), attempts - 1);
    }
  }

  lemma {:induction false} ReachableInAttempts(schedule: Schedule, pin: Pin, n: nat)
    requires PinSet(pin) && forall x: nat :: x < n ==> Admits(pin, schedule(x))
    ensures Reachable(schedule, pin, n + 1, Attempts(n))
    decreases n
  {
    hide Admits;
    if n > 0 {
      var calls := NextCalls(n);
      ReachableInAttempts(schedule, pin, n - calls);
      assert CanEndAt(schedule, pin, n + 1, calls);
      assert n + 1 - calls == n - calls + 1;
    }
  }

  /** When the gate lets every account of the schedule through, and for three attempts or more, a position can be read
      at exactly the calls from 1 to `5 * max - 4`. */
  lemma ReadsOfAdmittedSchedule(schedule: Schedule, pin: Pin, max: nat, k: nat)
    requires max >= 3 && PinSet(pin) && forall x: nat :: Admits(pin, schedule(x))
    ensures CanRead(schedule, pin, max, k) <==> 1 <= k <= 5 * max - 4
  {
    hide Reachable, Admits;
    if CanRead(schedule, pin, max, k) {
      var attempts: nat :| attempts < max && Reachable(schedule, pin, k, attempts);
      ReachableWithin(schedule, pin, k, attempts);
    }
    if 1 <= k <= 5 * max - 4 {
      ReachableInAttempts(schedule, pin, k - 1);
      AttemptsFit(k - 1, max - 1);
    }
  }

  // ---- When "ok" proves that the ticket is gone -------------------------------------------------------------------

  /** The close reports success although this account's position under the ticket is still open. */
  ghost predicate Fooled(env: Env, w: World, ticket: int, pin: Pin, max: nat, a: Account) {
    var (w', result) := Close(env, w, ticket, pin, max);
    result.Ok() && Key(a, ticket) in w'.book
  }

  /** On this schedule `ok` always proves that the account holds no position under the ticket. */
  ghost predicate OkIsProof(schedule: Schedule, ticket: int, pin: Pin, max: nat, a: Account) {
    forall env: Env, w: World :: Follows(env, schedule) && w.clock == 0 && Positive(w.book) ==>
      !Fooled(env, w, ticket, pin, max, a)
  }

  /** A repeated read sees the account; and if the gate lets the order of the read through, both read and order do,
      and it is a hedging account. */
  predicate SeesAccount(schedule: Schedule, pin: Pin, a: Account, k: nat, first: bool) {
    && (!first ==> schedule(k) == a)
    && (Admits(pin, schedule(k + 2)) ==> schedule(k) == a && schedule(k + 4) == a && a.hedging)
  }

  /** Every read that `max` attempts can make sees the account. */
  ghost predicate AllSee(schedule: Schedule, pin: Pin, max: nat, a: Account) {
    forall k: nat, attempts: nat :: attempts < max && Reachable(schedule, pin, k, attempts) ==>
      SeesAccount(schedule, pin, a, k, attempts == 0)
  }

  /** What stops an attempt that sees the account with an `ok` is that nothing is left there. */
  lemma SeeingAttemptIsProof(schedule: Schedule, env: Env, w: World, ticket: int, pin: Pin, first: bool, a: Account)
    requires Follows(env, schedule) && Positive(w.book) && SeesAccount(schedule, pin, a, w.clock, first)
    ensures var (w', step) := TryClose(env, w, ticket, pin, first);
            step.Stop? && step.result.Ok() ==> Key(a, ticket) !in w'.book
  {
    hide ApproachClose, OrderSend, Disturbed, AfterOrder, Survivor, TakenByOthers, Admits, Positive, FlatEvidence;
    var (w1, approach) := ApproachClose(env, w, ticket, pin, first);
    if approach.Exit? {
      ExitOkIsFlat(env, w, ticket, pin, first);
      if first { FirstIsNotFlat(env, w, ticket, pin); }
    } else {
      ReadOfApproach(env, w, ticket, pin, first);
      if env(w.clock + 4).reply == Ret(RETCODE_DONE) {
        DoneFlattensExactly(env, w, ticket, pin, first);
      } else {
        OnlyDoneCloses(env, w, ticket, pin, first);
      }
    }
  }

  /** The first attempt takes no empty read for a success. */
  lemma FirstIsNotFlat(env: Env, w: World, ticket: int, pin: Pin)
    requires ApproachClose(env, w, ticket, pin, true).1.Exit?
    ensures var attempt := ApproachClose(env, w, ticket, pin, true).1.attempt; attempt.Stop? ==> !attempt.result.Ok()
  {
    hide Disturbed, SymbolInfoTick, VerifyMutationIdentity, CloseOrder;
  }

  lemma OnlyDoneCloses(env: Env, w: World, ticket: int, pin: Pin, first: bool)
    requires ApproachClose(env, w, ticket, pin, first).1.Ready? && env(w.clock + 4).reply != Ret(RETCODE_DONE)
    ensures var step := TryClose(env, w, ticket, pin, first).1; step.Stop? ==> !step.result.Ok()
  {
    hide ApproachClose, Disturbed, AfterOrder, Books, NoSends, Approached;
    var calls := ApproachCalls(env, w, ticket, pin, first);
    ReadyAfterFour(ApproachClose(env, w, ticket, pin, first).1, calls, ticket, pin);
  }

  lemma ReadyAfterFour(approach: Approach, calls: seq<Event>, ticket: int, pin: Pin)
    requires Approached(approach, calls, ticket, pin)
    ensures |calls| == 4
  {
  }

  lemma {:induction false} SeeingLoopIsProof(schedule: Schedule, env: Env, w: World, ticket: int, pin: Pin,
                                             attempt: nat,
                                             max: nat, last: Failure, a: Account)
    requires Follows(env, schedule) && Positive(w.book) && AllSee(schedule, pin, max, a)
    requires w.clock >= 1 && Reachable(schedule, pin, w.clock, attempt)
    ensures var (w', result) := CloseLoop(env, w, ticket, pin, attempt, max, last);
            result.Ok() ==> Key(a, ticket) !in w'.book
    decreases max - attempt
  {
    hide TryClose, ApproachClose, Positive, AttemptCalls, Reachable, Admits;
    if attempt < max {
      SeeingAttemptIsProof(schedule, env, w, ticket, pin, attempt == 0, a);
      var (w1, step) := TryClose(env, w, ticket, pin, attempt == 0);
      if step.Retry? {
        var calls := TryCloseCalls(env, w, ticket, pin, attempt == 0);
        TryCloseKeepsPositive(env, w, ticket, pin, attempt == 0);
        QuietCalls(calls, ticket, pin);
        if |calls| == 5 { ReadOfApproach(env, w, ticket, pin, attempt == 0); }
        if |calls| == 4 { RetryNeedsPin(env, w, ticket, pin, attempt == 0); }
        NextIsReachable(schedule, pin, w.clock, attempt, |calls|);
        SeeingLoopIsProof(schedule, env, w1, ticket, pin, attempt + 1, max, step.failure, a);
      }
    }
  }

  lemma SeeingIsProof(schedule: Schedule, env: Env, w: World, ticket: int, pin: Pin, max: nat, a: Account)
    requires schedule(0).tradeMode == DEMO ==> AllSee(schedule, pin, max, a)
    requires Follows(env, schedule) && w.clock == 0 && Positive(w.book)
    ensures !Fooled(env, w, ticket, pin, max, a)
  {
    hide CloseLoop, Positive, Disturbed, AllSee;
    DisturbedKeepsPositive(w.book, env(0));
    if schedule(0).tradeMode == DEMO {
      SeeingLoopIsProof(schedule, env, AccountInfo(env, w).0, ticket, pin, 0, max, CloseFailed, a);
    }
  }

  // ---- ... and the runs that are fooled ---------------------------------------------------------------------------

  /** Two lots on the account and on every account that is active up to call `n`. */
  function LotsWith(schedule: Schedule, ticket: int, n: nat, a: Account): Book {
    LotsEverywhere(schedule, ticket, n, None)[Key(a, ticket) := LOTS]
  }

  lemma LotsWithAreHeld(schedule: Schedule, ticket: int, n: nat, a: Account)
    ensures HeldUpTo(LotsWith(schedule, ticket, n, a), schedule, ticket, n)
    ensures forall x: nat :: x <= n ==> LotsWith(schedule, ticket, n, a)[Key(schedule(x), ticket)] == LOTS
  {
    LotsAreHeld(schedule, ticket, n, None);
  }

  /** A repeated read sees another account, on which others have just closed the ticket: taken as confirmed flat. */
  lemma EmptyReadFools(schedule: Schedule, ticket: int, pin: Pin, max: nat, k: nat, attempts: nat, a: Account)
    returns (env: Env, w: World)
    requires Reachable(schedule, pin, k, attempts) && 1 <= attempts < max && schedule(0).tradeMode == DEMO
    requires schedule(k) != a
    ensures Follows(env, schedule) && w.clock == 0 && Positive(w.book) && Fooled(env, w, ticket, pin, max, a)
  {
    hide EvaluateMutationIdentity, Reachable, Ends, CloseLoop;
    var key := Key(schedule(k), ticket);
    var script := Scripted(schedule, (x: nat) => x in Ends(schedule, pin, k, attempts), key, k + 1);
    env := (x: nat) => script(x).(closed := if x == k then {key} else {});
    w := World(LotsWith(schedule, ticket, k, a), 0, []);
    LotsWithAreHeld(schedule, ticket, k, a);
    forall x: nat | x < k ensures if x in Ends(schedule, pin, k, attempts) then Fails(env(x)) else Works(env(x)) {
    }
    ReachableWithin(schedule, pin, k, attempts);
    var w1 := AccountInfo(env, w).0;
    IdleBook(w.book, env(0));
    var w2, last := FailToRead(schedule, env, w1, ticket, pin, max, k, attempts);
    EmptyRead(env, w2, ticket, pin, attempts, max, last);
  }

  lemma EmptyRead(env: Env, w: World, ticket: int, pin: Pin, attempt: nat, max: nat, last: Failure)
    requires 1 <= attempt < max && env(w.clock).positionsReadable
    requires env(w.clock).closed == {Key(env(w.clock).active, ticket)}
    ensures var (w', result) := CloseLoop(env, w, ticket, pin, attempt, max, last);
            && result == ConfirmedFlat
            && forall key :: key in w.book && key.account != env(w.clock).active ==> key in w'.book
  {
    hide SymbolInfoTick, VerifyMutationIdentity, CloseOrder, OrderSend;
    var w1 := PositionsGet(env, w, ticket).0;
    assert TryClose(env, w, ticket, pin, attempt == 0) == (w1, Stop(ConfirmedFlat));
  }

  /** The order goes to another account, which answers DONE. */
  lemma OtherSendFools(schedule: Schedule, ticket: int, pin: Pin, max: nat, k: nat, attempts: nat, a: Account)
    returns (env: Env, w: World)
    requires Reachable(schedule, pin, k, attempts) && attempts < max && schedule(0).tradeMode == DEMO
    requires Admits(pin, schedule(k + 2)) && schedule(k + 4) != a
    ensures Follows(env, schedule) && w.clock == 0 && Positive(w.book) && Fooled(env, w, ticket, pin, max, a)
  {
    hide Admits, Close, Reachable, Ends, Traded, DisturbedPosition, Filled;
    w := World(LotsWith(schedule, ticket, k + 4, a), 0, []);
    LotsWithAreHeld(schedule, ticket, k + 4, a);
    var w';
    env, w' := ReachedSend(schedule, ticket, pin, max, k, attempts, w, Key(a, ticket), k + 5);
    IdleBook(w.book, env(k + 4));
  }

  /** The read saw another account: its smaller volume is what gets closed. */
  lemma OtherReadFools(schedule: Schedule, ticket: int, pin: Pin, max: nat, k: nat, attempts: nat, a: Account)
    returns (env: Env, w: World)
    requires Reachable(schedule, pin, k, attempts) && attempts < max && schedule(0).tradeMode == DEMO
    requires Admits(pin, schedule(k + 2)) && schedule(k) != a && schedule(k + 4) == a
    ensures Follows(env, schedule) && w.clock == 0 && Positive(w.book) && Fooled(env, w, ticket, pin, max, a)
  {
    hide Admits, Close, Reachable, Ends;
    w := World(LotsWith(schedule, ticket, k + 4, a)[Key(schedule(k), ticket) := LOTS.(volume := 1.0)], 0, []);
    LotsWithAreHeld(schedule, ticket, k + 4, a);
    var w';
    env, w' := ReachedSend(schedule, ticket, pin, max, k, attempts, w, Key(a, ticket), k + 5);
    IdleBook(w.book, env(k + 4));
    assert w'.book[Key(a, ticket)].volume == 1.0;
  }

  lemma BlindScheduleFools(schedule: Schedule, ticket: int, pin: Pin, max: nat, a: Account, k: nat, attempts: nat)
    returns (env: Env, w: World)
    requires Reachable(schedule, pin, k, attempts) && attempts < max && schedule(0).tradeMode == DEMO
    requires !SeesAccount(schedule, pin, a, k, attempts == 0)
    ensures Follows(env, schedule) && w.clock == 0 && Positive(w.book) && Fooled(env, w, ticket, pin, max, a)
  {
    hide Fooled, Follows, Positive, Admits, Reachable;
    if attempts > 0 && schedule(k) != a {
      env, w := EmptyReadFools(schedule, ticket, pin, max, k, attempts, a);
    } else if schedule(k + 4) != a {
      env, w := OtherSendFools(schedule, ticket, pin, max, k, attempts, a);
    } else if schedule(k) != a {
      env, w := OtherReadFools(schedule, ticket, pin, max, k, attempts, a);
    } else {
      env, w := FlippedFools(schedule, ticket, pin, max, k, attempts);
    }
  }

  lemma FlippedFools(schedule: Schedule, ticket: int, pin: Pin, max: nat, k: nat, attempts: nat)
    returns (env: Env, w: World)
    requires Reachable(schedule, pin, k, attempts) && attempts < max && schedule(0).tradeMode == DEMO
    requires Admits(pin, schedule(k + 2)) && schedule(k + 4) == schedule(k) && !schedule(k).hedging
    ensures Follows(env, schedule) && w.clock == 0 && Positive(w.book) && Fooled(env, w, ticket, pin, max, schedule(k))
  {
    hide Close, Positive, Follows, Admits, Reachable;
    env, w := NettingPositionFlips(schedule, ticket, pin, max, k, attempts);
  }

  /**
   For any account, any fixed number of attempts and any pin: `ok` proves that the account holds nothing under the
   ticket, whatever else happens on the schedule, if and only if the close is refused at once, or every read that the
   attempts can make sees the account.
   */
  lemma OkIsProofExactlyWhenAllSee(schedule: Schedule, ticket: int, pin: Pin, max: nat, a: Account)
    ensures OkIsProof(schedule, ticket, pin, max, a) <==>
              (schedule(0).tradeMode == DEMO ==> AllSee(schedule, pin, max, a))
  {
    hide Fooled, Follows, Positive, Admits, Reachable, SeesAccount;
    if schedule(0).tradeMode == DEMO ==> AllSee(schedule, pin, max, a) {
      forall env: Env, w: World | Follows(env, schedule) && w.clock == 0 && Positive(w.book)
        ensures !Fooled(env, w, ticket, pin, max, a)
      {
        SeeingIsProof(schedule, env, w, ticket, pin, max, a);
      }
    } else {
      var k: nat, attempts: nat :| attempts < max && Reachable(schedule, pin, k, attempts)
                                   && !SeesAccount(schedule, pin, a, k, attempts == 0);
      var env, w := BlindScheduleFools(schedule, ticket, pin, max, a, k, attempts);
      assert Fooled(env, w, ticket, pin, max, a);
    }
  }

  /** The account that the close started with stays active through the calls that the attempts can make. */
  ghost predicate OneAccount(schedule: Schedule, max: nat) {
    schedule(0).hedging && forall k: nat :: k <= 5 * max ==> schedule(k) == schedule(0)
  }

  /** Three attempts find every call up to which only that account was active. */
  lemma FirstSwitchIsSeen(schedule: Schedule, pin: Pin, max: nat, m: nat)
    requires max >= 3 && Admits(pin, schedule(0)) && 1 <= m <= 5 * max
    requires forall k: nat :: k < m ==> schedule(k) == schedule(0)
    requires AllSee(schedule, pin, max, schedule(0))
    ensures schedule(m) == schedule(0)
  {
    hide EvaluateMutationIdentity;
    var a := schedule(0);
    if m == 1 {
      assert Reachable(schedule, pin, 1, 0);
      assert CanEndAt(schedule, pin, 2, 1) && CanEndAt(schedule, pin, 3, 1);
      assert Reachable(schedule, pin, 2, 1) && Reachable(schedule, pin, 3, 2);
      assert SeesAccount(schedule, pin, a, 3, false) && SeesAccount(schedule, pin, a, 1, true);
    } else if m <= 5 * (max - 1) + 1 {
      ReachableInAttempts(schedule, pin, m - 1);
      AttemptsFit(m - 1, max - 1);
      assert SeesAccount(schedule, pin, a, m, false);
    } else {
      ReachableInAttempts(schedule, pin, m - 5);
      AttemptsFit(m - 5, max - 1);
      assert SeesAccount(schedule, pin, a, m - 4, Attempts(m - 5) == 0);
    }
  }

  lemma {:induction false} SeenThroughout(schedule: Schedule, pin: Pin, max: nat, m: nat)
    requires max >= 3 && Admits(pin, schedule(0)) && m <= 5 * max && AllSee(schedule, pin, max, schedule(0))
    ensures forall k: nat :: k <= m ==> schedule(k) == schedule(0)
  {
    hide AllSee, Admits;
    if m > 0 {
      SeenThroughout(schedule, pin, max, m - 1);
      FirstSwitchIsSeen(schedule, pin, max, m);
    }
  }

  /**
   With three or more attempts and a pin that admits the account that the close started with (or no pin), that comes to
   this: it is a hedging account and stays active throughout the calls that those attempts can make.
   */
  lemma OkIsProofExactlyOnOneAccount(schedule: Schedule, ticket: int, pin: Pin, max: nat)
    requires max >= 3 && Admits(pin, schedule(0))
    ensures OkIsProof(schedule, ticket, pin, max, schedule(0)) <==> OneAccount(schedule, max)
  {
    OkIsProofExactlyWhenAllSee(schedule, ticket, pin, max, schedule(0));
    if AllSee(schedule, pin, max, schedule(0)) {
      SeenThroughout(schedule, pin, max, 5 * max);
      assert Reachable(schedule, pin, 1, 0);
      assert SeesAccount(schedule, pin, schedule(0), 1, true);
    }
    if OneAccount(schedule, max) {
      forall k: nat, attempts: nat | attempts < max && Reachable(schedule, pin, k, attempts)
        ensures SeesAccount(schedule, pin, schedule(0), k, attempts == 0)
      {
        ReachableWithin(schedule, pin, k, attempts);
      }
    }
  }
}
