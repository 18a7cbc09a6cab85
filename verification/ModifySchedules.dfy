/**
 What an `ok` from `modify_position` proves, in every environment and, exactly, over all environments on a schedule of
 account switches. The position reads of the call, unlike its send, are not behind the identity gate.
 */
module ModifySchedules {
  import opened Common
  import opened Rounding
  import opened Mt5Terminal
  import opened ModifyPosition
  import opened StopMoves

  /** The stop is the rounded request, up to less than half a unit. */
  ghost predicate StopIs(stop: real, sl: real, digits: nat) {
    Abs(stop - RoundTo(sl, digits)) < HalfUnit(digits)
  }

  /** For a stop on the grid that leaves no choice. */
  lemma StopIsExactOnGrid(stop: real, sl: real, digits: nat)
    requires OnGrid(stop, digits)
    ensures StopIs(stop, sl, digits) <==> stop == RoundTo(sl, digits)
  {
    RoundToGrid(sl, digits);
    var requested := RoundTo(sl, digits);
    if stop < requested { GridGap(stop, requested, digits); }
    if requested < stop { GridGap(requested, stop, digits); }
  }

  // ---- In every environment: the stop on the account of the read that decided -------------------------------------

  /** `Unchanged` rests on the second call: the stop that it read is the request. */
  lemma UnchangedRead(env: Env, w: World, ticket: int, sl: real, tp: Option<real>, pin: Pin)
    requires ApproachMove(env, w, ticket, sl, tp, pin).1 == Exit(Unchanged)
    ensures var key, book := Key(env(w.clock + 1).active, ticket),
                             Disturbed(Disturbed(w.book, env(w.clock)), env(w.clock + 1));
            && key in book && StopIs(book[key].sl, sl, DigitsUsed(env, w, ticket))
            && ApproachMove(env, w, ticket, sl, tp, pin).0.book == Disturbed(book, env(w.clock + 2))
  {
    hide Disturbed, InsideBand, RoundTo, HalfUnit, SymbolInfoTick, VerifyMutationIdentity;
  }

  /** Before the send the one `ok` is `Unchanged`, after it the one `ok` is `Verified`. */
  lemma OnlyOkResults(env: Env, w: World, ticket: int, sl: real, tp: Option<real>, pin: Pin)
    ensures var (w1, approach) := ApproachMove(env, w, ticket, sl, tp, pin);
            match approach
            case Exit(result) => result.Ok() ==> result == Unchanged
            case Ready(_, info, order) =>
              order.StopMove? && (Finish(env, w1, ticket, order, info).1.Ok() ==>
                                    Finish(env, w1, ticket, order, info).1 == Verified)
  {
    hide Disturbed, InsideBand, RoundTo, HalfUnit, SymbolInfoTick, VerifyMutationIdentity, OrderSend, SymbolInfoGet;
  }

  /** The digits of a call that sends are those of the position's symbol. */
  lemma DigitsOfCall(env: Env, w: World, ticket: int, sl: real, tp: Option<real>, pin: Pin)
    requires ApproachMove(env, w, ticket, sl, tp, pin).1.Ready?
    ensures DigitsOf(ApproachMove(env, w, ticket, sl, tp, pin).1.info) == DigitsUsed(env, w, ticket)
  {
    hide Disturbed, InsideBand, RoundTo, Decide, SymbolInfoTick;
  }

  /** A call that sends has found a demo account first and an admitted one before its send. */
  lemma GateOfCall(env: Env, w: World, ticket: int, sl: real, tp: Option<real>, pin: Pin)
    requires ApproachMove(env, w, ticket, sl, tp, pin).1.Ready?
    ensures Admits(pin, env(w.clock + 4).active) && env(w.clock).active.tradeMode == DEMO
  {
    hide Disturbed, InsideBand, RoundTo, Decide;
  }

  /** `Verified` rests on a DONE answer and on the last call: the stop that it read is the request. */
  lemma VerifiedRead(env: Env, w: World, ticket: int, order: Order, info: Option<SymbolInfo>)
    requires order.StopMove? && Finish(env, w, ticket, order, info).1.Ok()
    ensures var w' := Finish(env, w, ticket, order, info).0;
            var key, sent := Key(env(w.clock + 1).active, ticket), OrderSend(env, w, order).0.book;
            && env(w.clock).reply == Ret(RETCODE_DONE) && w'.book == Disturbed(sent, env(w.clock + 1))
            && key in w'.book && Abs(w'.book[key].sl - order.sl) < HalfUnit(DigitsOf(info))
  {
    hide Disturbed, AfterOrder, HalfUnit;
  }

  /** What `Unchanged` leaves on the account of the second call. */
  ghost predicate UnchangedSet(env: Env, w: World, w': World, ticket: int, sl: real, digits: nat) {
    var decided := Key(env(w.clock + 1).active, ticket);
    decided in w'.book && decided !in env(w.clock + 2).restopped ==> StopIs(w'.book[decided].sl, sl, digits)
  }

  /** What `Verified` leaves on the account of the eighth call. */
  ghost predicate VerifiedSet(env: Env, w: World, w': World, ticket: int, sl: real, digits: nat) {
    var confirmed := Key(env(w.clock + 7).active, ticket);
    confirmed in w'.book && StopIs(w'.book[confirmed].sl, sl, digits)
  }

  lemma UnchangedMeansSet(env: Env, w: World, ticket: int, sl: real, tp: Option<real>, pin: Pin)
    requires ApproachMove(env, w, ticket, sl, tp, pin).1 == Exit(Unchanged)
    ensures UnchangedSet(env, w, ApproachMove(env, w, ticket, sl, tp, pin).0, ticket, sl, DigitsUsed(env, w, ticket))
  {
    hide ApproachMove, StopIs, DigitsUsed;
    UnchangedRead(env, w, ticket, sl, tp, pin);
  }

  lemma VerifiedMeansSet(env: Env, w: World, ticket: int, sl: real, tp: Option<real>, pin: Pin)
    requires var (w1, approach) := ApproachMove(env, w, ticket, sl, tp, pin);
             approach.Ready? && approach.order.StopMove?
             && Finish(env, w1, ticket, approach.order, approach.info).1 == Verified
    ensures var (w1, approach) := ApproachMove(env, w, ticket, sl, tp, pin);
            VerifiedSet(env, w, Finish(env, w1, ticket, approach.order, approach.info).0, ticket, sl,
                        DigitsUsed(env, w, ticket))
  {
    hide ApproachMove, Finish, RoundTo, Decide, GatedAt, DigitsUsed, HalfUnit, DigitsOf;
    var (w1, approach) := ApproachMove(env, w, ticket, sl, tp, pin);
    var calls := MoveCalls(env, w, ticket, sl, tp, pin);
    DigitsOfCall(env, w, ticket, sl, tp, pin);
    VerifiedRead(env, w1, ticket, approach.order, approach.info);
  }

  /**
   In every environment: an `ok` is `Unchanged`, and the account of the second call has the requested stop, unless
   somebody moves it during the third; or it is `Verified`, and the account of the eighth call has it.
   */
  lemma ModifyOkMeansStopSet(env: Env, w: World, ticket: int, sl: real, tp: Option<real>, pin: Pin)
    ensures var (w', result) := Modify(env, w, ticket, sl, tp, pin);
            var digits := DigitsUsed(env, w, ticket);
            result.Ok() ==> || (result == Unchanged && UnchangedSet(env, w, w', ticket, sl, digits))
                            || (result == Verified && VerifiedSet(env, w, w', ticket, sl, digits))
  {
    hide Modify, ApproachMove, Finish, DigitsUsed, UnchangedSet, VerifiedSet;
    ModifyInParts(env, w, ticket, sl, tp, pin);
    OnlyOkResults(env, w, ticket, sl, tp, pin);
    var (w1, approach) := ApproachMove(env, w, ticket, sl, tp, pin);
    if approach == Exit(Unchanged) {
      UnchangedMeansSet(env, w, ticket, sl, tp, pin);
    } else if approach.Ready? && Finish(env, w1, ticket, approach.order, approach.info).1 == Verified {
      VerifiedMeansSet(env, w, ticket, sl, tp, pin);
    }
  }

  // ---- Over all environments on a schedule of account switches ----------------------------------------------------

  /** Nobody else moves this stop. */
  ghost predicate StopAlone(env: Env, key: Key) {
    forall k: nat :: key !in env(k).restopped
  }

  /** The call answers `ok` although the stop of this account's position is not the requested one. */
  ghost predicate Misled(env: Env, w: World, ticket: int, sl: real, tp: Option<real>, pin: Pin, a: Account) {
    var (w', result) := Modify(env, w, ticket, sl, tp, pin);
    result.Ok() && Key(a, ticket) in w'.book && !StopIs(w'.book[Key(a, ticket)].sl, sl, DigitsUsed(env, w, ticket))
  }

  /** On this schedule `ok` always proves that the account's position, if it is still open, has the requested stop. */
  ghost predicate OkIsProof(schedule: Schedule, ticket: int, sl: real, tp: Option<real>, pin: Pin, a: Account) {
    forall env: Env, w: World :: Follows(env, schedule) && StopAlone(env, Key(a, ticket)) && w.clock == 0 ==>
      !Misled(env, w, ticket, sl, tp, pin, a)
  }

  /** The deciding read sees the account; and if the gate lets the call send, so does the send or the last read. */
  predicate SeesAccount(schedule: Schedule, pin: Pin, a: Account) {
    schedule(1) == a && (Admits(pin, schedule(4)) ==> schedule(6) == a || schedule(7) == a)
  }

  /** A send that the account sees, answered DONE, sets its stop, and nobody moves it afterwards. */
  lemma SentStopStays(env: Env, w: World, ticket: int, order: Order, info: Option<SymbolInfo>, a: Account)
    requires order.StopMove? && order.ticket == ticket && env(w.clock).active == a && StopAlone(env, Key(a, ticket))
    requires env(w.clock).reply == Ret(RETCODE_DONE)
    ensures var w' := Finish(env, w, ticket, order, info).0;
            Key(a, ticket) in w'.book ==> w'.book[Key(a, ticket)].sl == order.sl
  {
  }

  lemma SeenReadIsProof(schedule: Schedule, env: Env, w: World, ticket: int, sl: real, tp: Option<real>, pin: Pin,
                        a: Account)
    requires schedule(0).tradeMode == DEMO ==> SeesAccount(schedule, pin, a)
    requires Follows(env, schedule) && StopAlone(env, Key(a, ticket)) && w.clock == 0
    requires ApproachMove(env, w, ticket, sl, tp, pin).1 == Exit(Unchanged)
    ensures var w' := ApproachMove(env, w, ticket, sl, tp, pin).0;
            Key(a, ticket) in w'.book ==> StopIs(w'.book[Key(a, ticket)].sl, sl, DigitsUsed(env, w, ticket))
  {
    hide ApproachMove, StopIs, DigitsUsed, Admits;
    DemoFirst(env, w, ticket, sl, tp, pin);
    UnchangedMeansSet(env, w, ticket, sl, tp, pin);
  }

  /** A call that sends makes its order with its seventh call, for the rounded request. */
  lemma OrderOfCall(env: Env, w: World, ticket: int, sl: real, tp: Option<real>, pin: Pin)
    requires ApproachMove(env, w, ticket, sl, tp, pin).1.Ready?
    ensures var (w1, approach) := ApproachMove(env, w, ticket, sl, tp, pin);
            && w1.clock == w.clock + 6 && approach.order.StopMove? && approach.order.ticket == ticket
            && approach.order.sl == RoundTo(sl, DigitsUsed(env, w, ticket))
  {
    hide ApproachMove, DigitsUsed, RoundTo, Decide, GatedAt, DigitsOf, Books, NoSends;
    var calls := MoveCalls(env, w, ticket, sl, tp, pin);
    DigitsOfCall(env, w, ticket, sl, tp, pin);
  }

  /** Sent to the account and answered DONE, the order has set its stop. */
  lemma SentIsProof(env: Env, w: World, ticket: int, sl: real, tp: Option<real>, pin: Pin, a: Account)
    requires ApproachMove(env, w, ticket, sl, tp, pin).1.Ready?
    requires env(w.clock + 6).active == a && StopAlone(env, Key(a, ticket))
    requires var (w1, approach) := ApproachMove(env, w, ticket, sl, tp, pin);
             approach.order.StopMove? && Finish(env, w1, ticket, approach.order, approach.info).1 == Verified
    ensures var (w1, approach) := ApproachMove(env, w, ticket, sl, tp, pin);
            var w' := Finish(env, w1, ticket, approach.order, approach.info).0;
            Key(a, ticket) in w'.book ==> StopIs(w'.book[Key(a, ticket)].sl, sl, DigitsUsed(env, w, ticket))
  {
    hide ApproachMove, Finish, DigitsUsed, HalfUnit, RoundTo, Disturbed, StopAlone, OrderSend;
    var (w1, approach) := ApproachMove(env, w, ticket, sl, tp, pin);
    OrderOfCall(env, w, ticket, sl, tp, pin);
    VerifiedRead(env, w1, ticket, approach.order, approach.info);
    SentStopStays(env, w1, ticket, approach.order, approach.info, a);
    HalfUnitPositive(DigitsUsed(env, w, ticket));
  }

  lemma SeenSendIsProof(schedule: Schedule, env: Env, w: World, ticket: int, sl: real, tp: Option<real>, pin: Pin,
                        a: Account)
    requires schedule(0).tradeMode == DEMO ==> SeesAccount(schedule, pin, a)
    requires Follows(env, schedule) && StopAlone(env, Key(a, ticket)) && w.clock == 0
    requires var (w1, approach) := ApproachMove(env, w, ticket, sl, tp, pin);
             approach.Ready? && approach.order.StopMove?
             && Finish(env, w1, ticket, approach.order, approach.info).1 == Verified
    ensures var (w1, approach) := ApproachMove(env, w, ticket, sl, tp, pin);
            var w' := Finish(env, w1, ticket, approach.order, approach.info).0;
            Key(a, ticket) in w'.book ==> StopIs(w'.book[Key(a, ticket)].sl, sl, DigitsUsed(env, w, ticket))
  {
    hide ApproachMove, Finish, DigitsUsed, Admits, StopIs, StopAlone;
    GateOfCall(env, w, ticket, sl, tp, pin);
    if schedule(7) == a {
      VerifiedMeansSet(env, w, ticket, sl, tp, pin);
    } else {
      SentIsProof(env, w, ticket, sl, tp, pin, a);
    }
  }

  lemma SeenIsProof(schedule: Schedule, env: Env, w: World, ticket: int, sl: real, tp: Option<real>, pin: Pin,
                    a: Account)
    requires schedule(0).tradeMode == DEMO ==> SeesAccount(schedule, pin, a)
    requires Follows(env, schedule) && StopAlone(env, Key(a, ticket)) && w.clock == 0
    ensures !Misled(env, w, ticket, sl, tp, pin, a)
  {
    hide Modify, ApproachMove, Finish, DigitsUsed, StopIs, SeesAccount;
    ModifyInParts(env, w, ticket, sl, tp, pin);
    OnlyOkResults(env, w, ticket, sl, tp, pin);
    var (w1, approach) := ApproachMove(env, w, ticket, sl, tp, pin);
    if approach == Exit(Unchanged) {
      SeenReadIsProof(schedule, env, w, ticket, sl, tp, pin, a);
    } else if approach.Ready? && Finish(env, w1, ticket, approach.order, approach.info).1 == Verified {
      SeenSendIsProof(schedule, env, w, ticket, sl, tp, pin, a);
    }
  }

  lemma HalfUnitPositive(digits: nat)
    ensures HalfUnit(digits) > 0.0
  {
  }

  lemma DemoFirst(env: Env, w: World, ticket: int, sl: real, tp: Option<real>, pin: Pin)
    requires ApproachMove(env, w, ticket, sl, tp, pin).1 == Exit(Unchanged)
    ensures env(w.clock).active.tradeMode == DEMO
  {
    hide Disturbed, InsideBand, RoundTo, Decide, SymbolInfoTick, VerifyMutationIdentity, SymbolInfoGet;
  }

  // ---- The misled runs --------------------------------------------------------------------------------------------

  const PRICE_DIGITS: nat := 5

  function Calm(schedule: Schedule, digits: nat): Env {
    CalmEnv(schedule, "EURUSD", Quoted(digits))
  }

  function WithStop(stop: real): Position {
    Position("EURUSD", Buy, 1.0, stop, 0.0)
  }

  /** The reads of a call up to its decision. */
  lemma CalmReads(schedule: Schedule, digits: nat, book: Book, ticket: int) returns (w3: World)
    requires schedule(0).tradeMode == DEMO && Key(schedule(1), ticket) in book
    requires book[Key(schedule(1), ticket)].symbol == "EURUSD"
    ensures var env, w := Calm(schedule, digits), World(book, 0, []);
            var (w1, acc) := AccountInfo(env, w);
            var (w2, found) := PositionsGet(env, w1, ticket);
            && acc == Some(schedule(0)) && found == Some(Some(book[Key(schedule(1), ticket)]))
            && SymbolInfoGet(env, w2, "EURUSD") == (w3, Some(Quoted(digits)))
            && w3.book == book && w3.clock == 3 && DigitsUsed(env, w, ticket) == digits
  {
    hide Disturbed;
    var env, w := Calm(schedule, digits), World(book, 0, []);
    CalmBook(schedule, "EURUSD", Quoted(digits), book, 0);
    CalmBook(schedule, "EURUSD", Quoted(digits), book, 1);
    CalmBook(schedule, "EURUSD", Quoted(digits), book, 2);
    w3 := SymbolInfoGet(env, PositionsGet(env, AccountInfo(env, w).0, ticket).0, "EURUSD").0;
  }

  lemma HalfUnitBelowOne(digits: nat)
    ensures HalfUnit(digits) < 1.0
  {
    var p := Pow10(digits);
    DivideMonotone(0.5, p, p);
    assert p / p == 1.0;
  }

  /** The account is switched for the deciding read only: another position that has the stop already is taken for it. */
  lemma OtherReadMisleads(schedule: Schedule, ticket: int, sl: real, tp: Option<real>, pin: Pin, a: Account)
    returns (env: Env, w: World)
    requires schedule(0).tradeMode == DEMO && schedule(1) != a
    ensures Follows(env, schedule) && StopAlone(env, Key(a, ticket)) && w.clock == 0
    ensures Misled(env, w, ticket, sl, tp, pin, a)
  {
    hide RoundTo, HalfUnit, Disturbed, DigitsUsed, MoveStop;
    var requested := RoundTo(sl, PRICE_DIGITS);
    env := Calm(schedule, PRICE_DIGITS);
    var other := Key(schedule(1), ticket);
    w := World(map[other := WithStop(requested), Key(a, ticket) := WithStop(requested - 1.0)], 0, []);
    var w3 := CalmReads(schedule, PRICE_DIGITS, w.book, ticket);
    HalfUnitBelowOne(PRICE_DIGITS);
    HalfUnitPositive(PRICE_DIGITS);
    assert Modify(env, w, ticket, sl, tp, pin) == (w3, Unchanged);
  }

  /** The tick, the gate and the send of a call whose order is decided. */
  lemma CalmSend(schedule: Schedule, digits: nat, w3: World, p: Position, order: Order, ticket: int, pin: Pin)
    returns (w7: World)
    requires w3.clock == 3 && order.StopMove? && order.ticket == ticket && Admits(pin, schedule(4))
    ensures MoveStop(Calm(schedule, digits), w3, ticket, p, order, Some(Quoted(digits)), pin)
         == Confirm(Calm(schedule, digits), w7, ticket, order.sl, digits, RETCODE_DONE)
    ensures w7.clock == 7
    ensures w7.book == AfterOrder(w3.book, Key(schedule(6), ticket), order, Calm(schedule, digits)(6))
  {
    hide Disturbed, HalfUnit, AfterOrder, Confirm, RoundHalfEven;
    var env := Calm(schedule, digits);
    CalmBook(schedule, "EURUSD", Quoted(digits), w3.book, 3);
    CalmBook(schedule, "EURUSD", Quoted(digits), w3.book, 4);
    CalmBook(schedule, "EURUSD", Quoted(digits), w3.book, 5);
    CalmBook(schedule, "EURUSD", Quoted(digits), w3.book, 6);
    var w4 := SymbolInfoTick(env, w3).0;
    var w6 := TerminalInfo(env, AccountInfo(env, w4).0).0;
    assert VerifyMutationIdentity(env, w4, pin) == (w6, Pass);
    w7 := OrderSend(env, w6, order).0;
  }

  /** The confirming read of an order answered DONE changes nothing, and believes what it finds. */
  lemma CalmConfirm(schedule: Schedule, digits: nat, w7: World, ticket: int, sl: real) returns (w8: World)
    requires w7.clock == 7
    ensures w8 == Confirm(Calm(schedule, digits), w7, ticket, sl, digits, RETCODE_DONE).0 && w8.book == w7.book
    ensures Key(schedule(7), ticket) in w7.book && w7.book[Key(schedule(7), ticket)].sl == sl ==>
              Confirm(Calm(schedule, digits), w7, ticket, sl, digits, RETCODE_DONE).1 == Verified
  {
    hide Disturbed, HalfUnit;
    CalmBook(schedule, "EURUSD", Quoted(digits), w7.book, 7);
    w8 := PositionsGet(Calm(schedule, digits), w7, ticket).0;
    HalfUnitPositive(digits);
  }

  /** The account is switched between the gate and the send, and stays away for the confirming read. */
  lemma OtherSendMisleads(schedule: Schedule, ticket: int, sl: real, tp: Option<real>, pin: Pin, a: Account)
    returns (env: Env, w: World)
    requires schedule(0).tradeMode == DEMO && schedule(1) == a && Admits(pin, schedule(4))
    requires schedule(6) != a && schedule(7) != a
    ensures Follows(env, schedule) && StopAlone(env, Key(a, ticket)) && w.clock == 0
    ensures Misled(env, w, ticket, sl, tp, pin, a)
  {
    hide RoundTo, HalfUnit, Disturbed, DigitsUsed, MoveStop, Admits, Confirm;
    var requested := RoundTo(sl, PRICE_DIGITS);
    env := Calm(schedule, PRICE_DIGITS);
    w := World(map[Key(schedule(6), ticket) := WithStop(requested), Key(schedule(7), ticket) := WithStop(requested),
                   Key(a, ticket) := WithStop(requested - 1.0)], 0, []);
    var w3 := CalmReads(schedule, PRICE_DIGITS, w.book, ticket);
    HalfUnitBelowOne(PRICE_DIGITS);
    HalfUnitPositive(PRICE_DIGITS);
    var p := WithStop(requested - 1.0);
    var order := StopOrder(p, ticket, sl, tp, PRICE_DIGITS);
    var w7 := CalmSend(schedule, PRICE_DIGITS, w3, p, order, ticket, pin);
    var w8 := CalmConfirm(schedule, PRICE_DIGITS, w7, ticket, requested);
    assert Decide(Buy, p.sl, requested, PRICE_DIGITS).Adjust?;
    assert Modify(env, w, ticket, sl, tp, pin) == (w8, Verified);
  }

  /**
   For any account and any pin: over all environments on a schedule of account switches in which nobody else moves the
   stop, `ok` proves that the account's position has the requested stop, if and only if the call is refused at once,
   or its deciding read sees the account and, when the gate lets it send, so does the send or the confirming read.
   */
  lemma OkIsProofExactlyWhenSeen(schedule: Schedule, ticket: int, sl: real, tp: Option<real>, pin: Pin, a: Account)
    ensures OkIsProof(schedule, ticket, sl, tp, pin, a) <==>
              (schedule(0).tradeMode == DEMO ==> SeesAccount(schedule, pin, a))
  {
    hide Misled, Follows, StopAlone, Admits;
    if schedule(0).tradeMode == DEMO ==> SeesAccount(schedule, pin, a) {
      forall env: Env, w: World | Follows(env, schedule) && StopAlone(env, Key(a, ticket)) && w.clock == 0
        ensures !Misled(env, w, ticket, sl, tp, pin, a)
      {
        SeenIsProof(schedule, env, w, ticket, sl, tp, pin, a);
      }
    } else if schedule(1) != a {
      var env, w := OtherReadMisleads(schedule, ticket, sl, tp, pin, a);
      assert Misled(env, w, ticket, sl, tp, pin, a);
    } else {
      var env, w := OtherSendMisleads(schedule, ticket, sl, tp, pin, a);
      assert Misled(env, w, ticket, sl, tp, pin, a);
    }
  }

  /** With the pin set to the account and the terminal switched for one call only, the second, the call answers
      `Unchanged` while the account's stop is a whole unit away. */
  lemma OneCallSwitchMisleads(a: Account, other: Account, ticket: int, sl: real, tp: Option<real>)
    returns (env: Env, w: World)
    requires a.tradeMode == DEMO && a != other
    ensures forall k: nat :: env(k).active == if k == 1 then other else a
    ensures Misled(env, w, ticket, sl, tp, Pin(true, a.login, a.server), a)
  {
    hide Misled, StopAlone;
    var schedule: Schedule := (k: nat) => if k == 1 then other else a;
    env, w := OtherReadMisleads(schedule, ticket, sl, tp, Pin(true, a.login, a.server), a);
  }

  // ---- When a call can loosen a stop ------------------------------------------------------------------------------

  /** On this schedule a call loosens no stop of any account, whatever happens while nobody else edits stops and the
      request is on the price grid. */
  ghost predicate NeverLoosens(schedule: Schedule, ticket: int, sl: real, tp: Option<real>, pin: Pin) {
    forall env: Env, w: World, g: Grids ::
      (&& Follows(env, schedule) && w.clock == 0 && StopsAlone(env) && Digits(env, g) && StopsHealthy(w.book, g)
       && OnTicketGrid(w.book, ticket, sl, g))
      ==> Ratcheted(w.book, Modify(env, w, ticket, sl, tp, pin).0.book)
  }

  /** A call that sends in the calm environment, read on one account and sent to another. */
  lemma CalmMove(schedule: Schedule, digits: nat, book: Book, ticket: int, sl: real, tp: Option<real>, pin: Pin)
    requires schedule(0).tradeMode == DEMO && Admits(pin, schedule(4))
    requires Key(schedule(1), ticket) in book && Key(schedule(6), ticket) in book
    requires var p := book[Key(schedule(1), ticket)];
             p.symbol == "EURUSD" && Decide(p.side, p.sl, RoundTo(sl, digits), digits).Adjust?
    ensures var after := Modify(Calm(schedule, digits), World(book, 0, []), ticket, sl, tp, pin).0.book;
            Key(schedule(6), ticket) in after && after[Key(schedule(6), ticket)].sl == RoundTo(sl, digits)
  {
    hide RoundTo, HalfUnit, Disturbed, DigitsUsed, MoveStop, Admits, Confirm, Decide;
    var p := book[Key(schedule(1), ticket)];
    var w3 := CalmReads(schedule, digits, book, ticket);
    var order := StopOrder(p, ticket, sl, tp, digits);
    var w7 := CalmSend(schedule, digits, w3, p, order, ticket, pin);
    var w8 := CalmConfirm(schedule, digits, w7, ticket, order.sl);
    assert Modify(Calm(schedule, digits), World(book, 0, []), ticket, sl, tp, pin).0 == w8;
  }

  lemma CalmIsHealthy(schedule: Schedule, digits: nat)
    ensures Follows(Calm(schedule, digits), schedule) && StopsAlone(Calm(schedule, digits))
    ensures Digits(Calm(schedule, digits), Grids({"EURUSD"}, (s: string) => digits))
  {
  }

  /** A request that would be the first stop of the position read lowers the higher stop of the position met. */
  lemma OtherStopIsLowered(schedule: Schedule, digits: nat, ticket: int, sl: real, tp: Option<real>, pin: Pin)
    requires schedule(0).tradeMode == DEMO && Admits(pin, schedule(4)) && schedule(6) != schedule(1)
    requires sl > 0.0 && OnGrid(sl, digits)
    ensures !NeverLoosens(schedule, ticket, sl, tp, pin)
  {
    hide RoundTo, HalfUnit, Modify, Admits, OnGrid, Follows, StopsAlone, Digits;
    var unset, met := Key(schedule(1), ticket), Key(schedule(6), ticket);
    var g, book := Grids({"EURUSD"}, (s: string) => digits), map[unset := WithStop(0.0), met := WithStop(sl + sl)];
    CalmIsHealthy(schedule, digits);
    ZeroOnGrid(digits);
    SumOnGrid(sl, sl, digits);
    RoundToGrid(sl, digits);
    GridGap(0.0, sl, digits);
    HalfUnitPositive(digits);
    CalmMove(schedule, digits, book, ticket, sl, tp, pin);
    var env, w := Calm(schedule, digits), World(book, 0, []);
    assert StopsHealthy(book, g) && OnTicketGrid(book, ticket, sl, g);
    assert !Ratcheted(book, Modify(env, w, ticket, sl, tp, pin).0.book) by {
      assert !Tightened(Buy, sl + sl, sl);
    }
  }

  /** A request that is not positive takes a SELL's stop away. */
  lemma SellStopIsRemoved(schedule: Schedule, digits: nat, ticket: int, sl: real, tp: Option<real>, pin: Pin)
    requires schedule(0).tradeMode == DEMO && Admits(pin, schedule(4)) && sl <= 0.0 && OnGrid(sl, digits)
    ensures !NeverLoosens(schedule, ticket, sl, tp, pin)
  {
    hide RoundTo, HalfUnit, Modify, Admits, OnGrid, Follows, StopsAlone, Digits;
    var unset, met := Key(schedule(1), ticket), Key(schedule(6), ticket);
    var p := WithStop(1.0).(side := Sell);
    var g, book := Grids({"EURUSD"}, (s: string) => digits), map[unset := p, met := p];
    CalmIsHealthy(schedule, digits);
    OneOnGrid(digits);
    RoundToGrid(sl, digits);
    HalfUnitBelowOne(digits);
    HalfUnitPositive(digits);
    CalmMove(schedule, digits, book, ticket, sl, tp, pin);
    var env, w := Calm(schedule, digits), World(book, 0, []);
    assert StopsHealthy(book, g) && OnTicketGrid(book, ticket, sl, g);
    assert !Ratcheted(book, Modify(env, w, ticket, sl, tp, pin).0.book) by {
      assert !Tightened(Sell, 1.0, sl);
    }
  }

  lemma ZeroOnGrid(digits: nat)
    ensures OnGrid(0.0, digits)
  {
  }

  lemma OneOnGrid(digits: nat)
    ensures OnGrid(1.0, digits)
  {
    Pow10IsWhole(digits);
    assert Scaled(1.0, digits) == Pow10(digits);
  }

  lemma {:induction false} Pow10IsWhole(digits: nat)
    ensures Pow10(digits).Floor as real == Pow10(digits)
  {
    if digits > 0 {
      Pow10IsWhole(digits - 1);
      var n := Pow10(digits - 1).Floor;
      assert Pow10(digits) == (10 * n) as real;
    }
  }

  /** Without a send, or with a positive request sent to the account that was read, nothing is loosened. */
  lemma SentWhereReadIsSafe(schedule: Schedule, ticket: int, sl: real, tp: Option<real>, pin: Pin)
    requires schedule(0).tradeMode == DEMO && Admits(pin, schedule(4)) ==> schedule(6) == schedule(1) && sl > 0.0
    ensures NeverLoosens(schedule, ticket, sl, tp, pin)
  {
    hide Modify, ApproachMove, Admits, Digits, StopsHealthy, OnTicketGrid, StopsAlone, Ratcheted;
    forall env: Env, w: World, g: Grids
      | Follows(env, schedule) && w.clock == 0 && StopsAlone(env) && Digits(env, g) && StopsHealthy(w.book, g)
        && OnTicketGrid(w.book, ticket, sl, g)
      ensures Ratcheted(w.book, Modify(env, w, ticket, sl, tp, pin).0.book)
    {
      if ApproachMove(env, w, ticket, sl, tp, pin).1.Ready? { GateOfCall(env, w, ticket, sl, tp, pin); }
      CallRatchets(env, w, ticket, sl, tp, pin, g);
    }
  }

  /**
   For any schedule, pin and request on a price grid: a call loosens no stop of any account, whatever else happens, if
   and only if it is refused at once or at the gate, or its order is for a positive stop and goes to the account that
   was read.
   */
  lemma NeverLoosensExactlyWhenSentWhereRead(schedule: Schedule, digits: nat, ticket: int, sl: real, tp: Option<real>,
                                             pin: Pin)
    requires OnGrid(sl, digits)
    ensures NeverLoosens(schedule, ticket, sl, tp, pin) <==>
              (schedule(0).tradeMode == DEMO && Admits(pin, schedule(4)) ==> schedule(6) == schedule(1) && sl > 0.0)
  {
    hide NeverLoosens, Admits, OnGrid;
    if schedule(0).tradeMode == DEMO && Admits(pin, schedule(4)) {
      if sl <= 0.0 {
        SellStopIsRemoved(schedule, digits, ticket, sl, tp, pin);
      } else if schedule(6) != schedule(1) {
        OtherStopIsLowered(schedule, digits, ticket, sl, tp, pin);
      } else {
        SentWhereReadIsSafe(schedule, ticket, sl, tp, pin);
      }
    } else {
      SentWhereReadIsSafe(schedule, ticket, sl, tp, pin);
    }
  }
}
