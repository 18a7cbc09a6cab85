/**
 The partial-close host worker: claim a job, have the send authorised, call the bridge once, report. The server may
 answer anything and fail at any point; the loop runs for any number of rounds.
 */
module PartialCloseWorker {
  import opened Common
  import opened Rounding
  import opened Mt5Terminal
  import opened PartialClose
  import opened PartialCloseFloor

  datatype ClaimReply = ClaimRaised | NoJobs | ClaimUnavailable | ClaimMalformed | Claim(job: int)

  /** The instruction may lack its ticket or its volume; then the bridge call itself raises. */
  datatype AuthReply =
    | AuthRaised
    | Refusal
    | Authorized(ticket: Option<int>, volume: Option<real>, symbol: string, login: string, server: string)

  datatype Round = Round(claim: ClaimReply, auth: AuthReply, completeRaises: bool)
  type Server = nat -> Round

  /** A bridge call made the MT5 calls `trace[from..to]`. */
  datatype Step =
    | Claimed(job: int)
    | AuthorizedSend(job: int, ticket: Option<int>, volume: Option<real>, symbol: string)
    | BridgeCall(job: int, ticket: Option<int>, volume: Option<real>, symbol: string, pin: Pin, from: nat, to: nat)
    | Reported(job: int)

  datatype Outcome = Idle | Unavailable | AuthorizeRefused | Completed | Raised
  datatype Loop = Loop(world: World, log: seq<Step>, round: nat, errors: nat)

  function Bridge(env: Env, w: World, auth: AuthReply): World
    requires auth.Authorized?
  {
    if auth.ticket.None? || auth.volume.None? then w
    else PartiallyClosed(env, w, auth.ticket.value, auth.volume.value, JobPin(auth), auth.symbol).0
  }

  function JobPin(auth: AuthReply): Pin
    requires auth.Authorized?
  {
    Pin(false, auth.login, auth.server)
  }

  /** The round comes to a bridge call with a ticket and a volume. */
  predicate Bridges(r: Round) {
    r.claim.Claim? && r.auth.Authorized? && r.auth.ticket.Some? && r.auth.volume.Some?
  }

  function OneRound(server: Server, env: Env, s: Loop): (Loop, Outcome) {
    var r := server(s.round);
    match r.claim
    case ClaimRaised => (s, Raised)
    case NoJobs => (s, Idle)
    case ClaimUnavailable => (s, Unavailable)
    case ClaimMalformed => (s, Raised)
    case Claim(job) =>
      var claimed := s.log + [Claimed(job)];
      match r.auth
      case AuthRaised => (s.(log := claimed), Raised)
      case Refusal => (s.(log := claimed), AuthorizeRefused)
      case Authorized(ticket, volume, symbol, _, _) =>
        var world := Bridge(env, s.world, r.auth);
        var called := claimed + [AuthorizedSend(job, ticket, volume, symbol)]
                    + [BridgeCall(job, ticket, volume, symbol, JobPin(r.auth), |s.world.trace|, |world.trace|)];
        if r.completeRaises then (s.(world := world, log := called), Raised)
        else (s.(world := world, log := called + [Reported(job)]), Completed)
  }

  function NextRound(server: Server, env: Env, s: Loop): Loop {
    var (s', outcome) := OneRound(server, env, s);
    s'.(round := s.round + 1, errors := if outcome.Raised? then s.errors + 1 else 0)
  }

  function Run(server: Server, env: Env, s: Loop, rounds: nat): Loop
    decreases rounds
  {
    if rounds == 0 then s else Run(server, env, NextRound(server, env, s), rounds - 1)
  }

  class Worker {
    const terminal: Terminal
    const server: Server
    var log: seq<Step>
    var round: nat
    var consecutiveErrors: nat

    ghost function State(): Loop
      reads this, terminal
    {
      Loop(terminal.world, log, round, consecutiveErrors)
    }

    constructor (terminal: Terminal, server: Server)
      ensures this.terminal == terminal && this.server == server
      ensures log == [] && round == 0 && consecutiveErrors == 0
    {
      this.terminal, this.server := terminal, server;
      log, round, consecutiveErrors := [], 0, 0;
    }

    method RunOnce() returns (outcome: Outcome)
      modifies this`log, terminal
      ensures (State(), outcome) == OneRound(server, terminal.env, old(State()))
    {
      var claim := server(round).claim;
      match claim
      case NoJobs => return Idle;
      case ClaimUnavailable => return Unavailable;
      case ClaimRaised => return Raised;
      case ClaimMalformed => return Raised;
      case Claim(job) =>
        log := log + [Claimed(job)];
        var auth := server(round).auth;
        if auth.AuthRaised? { return Raised; }
        if auth.Refusal? { return AuthorizeRefused; }
        var from := |terminal.world.trace|;
        log := log + [AuthorizedSend(job, auth.ticket, auth.volume, auth.symbol)];
        if auth.ticket.Some? && auth.volume.Some? {
          var _ := PartialClosePosition(terminal, auth.ticket.value, auth.volume.value, JobPin(auth), auth.symbol);
        }
        log := log + [BridgeCall(job, auth.ticket, auth.volume, auth.symbol, JobPin(auth), from,
            |terminal.world.trace|)];
        if server(round).completeRaises { return Raised; }
        log := log + [Reported(job)];
        return Completed;
    }

    method RunForever(rounds: nat)
      modifies this, terminal
      ensures State() == Run(server, terminal.env, old(State()), rounds)
    {
      var done := 0;
      while done < rounds
        invariant done <= rounds
        invariant Run(server, terminal.env, State(), rounds - done) == Run(server, terminal.env, old(State()), rounds)
      {
        ghost var before := State();
        var outcome := RunOnce();
        consecutiveErrors := if outcome.Raised? then consecutiveErrors + 1 else 0;
        round := round + 1;
        done := done + 1;
        assert State() == NextRound(server, terminal.env, before);
      }
    }
  }

  // ---- One claim, one authorisation, at most one order ------------------------------------------------------------

  /** The bridge call at `j` follows an authorisation and a claim of its own, and contains at most one order. */
  ghost predicate WellAuthorized(log: seq<Step>, j: int, trace: seq<Event>) {
    && 2 <= j < |log| && log[j].BridgeCall?
    && log[j - 1] == AuthorizedSend(log[j].job, log[j].ticket, log[j].volume, log[j].symbol)
    && log[j - 2] == Claimed(log[j].job)
    && log[j].from <= log[j].to <= |trace|
    && (log[j].to > log[j].from ==>
          log[j].ticket.Some? && log[j].volume.Some?
          && PartialCalls(trace[log[j].from..log[j].to], log[j].ticket.value, log[j].volume.value, log[j].pin))
  }

  /** Every order in the trace was made by one of the logged bridge calls. */
  ghost predicate SendAccounted(log: seq<Step>, i: int) {
    exists j :: 0 <= j < |log| && log[j].BridgeCall? && log[j].from <= i < log[j].to
  }

  ghost predicate Accountable(s: Loop) {
    && (forall j :: 0 <= j < |s.log| && s.log[j].BridgeCall? ==> WellAuthorized(s.log, j, s.world.trace))
    && (forall i :: 0 <= i < |s.world.trace| && s.world.trace[i].Sent? ==> SendAccounted(s.log, i))
  }

  lemma LogGrows(log: seq<Step>, more: seq<Step>, trace: seq<Event>, calls: seq<Event>, j: int)
    requires 0 <= j < |log| && log[j].BridgeCall? && WellAuthorized(log, j, trace)
    ensures WellAuthorized(log + more, j, trace + calls)
  {
    assert (trace + calls)[log[j].from..log[j].to] == trace[log[j].from..log[j].to];
  }

  /** A round adds at most one bridge call, whose window is exactly the MT5 calls the round made. */
  lemma RoundAppends(server: Server, env: Env, s: Loop) returns (more: seq<Step>, calls: seq<Event>)
    ensures var s' := NextRound(server, env, s);
            && s'.log == s.log + more && s'.world.trace == s.world.trace + calls
            && (calls != [] ==> |more| >= 3 && more[2].BridgeCall?)
            && (Bridges(server(s.round)) ==>
                  && |more| >= 3 && more[2].BridgeCall? && more[2].ticket == server(s.round).auth.ticket
                  && more[2].volume == server(s.round).auth.volume)
            && (forall i :: 0 <= i < |more| && more[i].BridgeCall? ==>
                  && i == 2 && more[1] == AuthorizedSend(more[2].job, more[2].ticket, more[2].volume, more[2].symbol)
                  && more[0] == Claimed(more[2].job)
                  && more[2].from == |s.world.trace| && more[2].to == |s'.world.trace|
                  && (calls != [] ==> more[2].ticket.Some? && more[2].volume.Some?
                                      && PartialCalls(calls, more[2].ticket.value, more[2].volume.value, more[2].pin)))
  {
    var s', r := NextRound(server, env, s), server(s.round);
    more, calls := [], [];
    if r.claim.Claim? {
      more := [Claimed(r.claim.job)];
      if r.auth.Authorized? {
        if r.auth.ticket.Some? && r.auth.volume.Some? {
          calls := PartialCloseCalls(env, s.world, r.auth.ticket.value, r.auth.volume.value, JobPin(r.auth),
              r.auth.symbol);
        }
        more := more + [AuthorizedSend(r.claim.job, r.auth.ticket, r.auth.volume, r.auth.symbol)]
                     + [BridgeCall(r.claim.job, r.auth.ticket, r.auth.volume, r.auth.symbol, JobPin(r.auth),
                                   |s.world.trace|, |s'.world.trace|)]
                     + if r.completeRaises then [] else [Reported(r.claim.job)];
      }
    }
  }

  lemma RoundIsAccountable(server: Server, env: Env, s: Loop)
    requires Accountable(s)
    ensures Accountable(NextRound(server, env, s))
  {
    var more, calls := RoundAppends(server, env, s);
    var log, trace := s.log + more, s.world.trace + calls;
    assert calls == trace[|s.world.trace|..|trace|];
    forall j | 0 <= j < |log| && log[j].BridgeCall? ensures WellAuthorized(log, j, trace) {
      if j < |s.log| {
        LogGrows(s.log, more, s.world.trace, calls, j);
      } else {
        assert log[j] == more[j - |s.log|] && log[j - 1] == more[1] && log[j - 2] == more[0];
      }
    }
    forall i | 0 <= i < |trace| && trace[i].Sent? ensures SendAccounted(log, i) {
      if i < |s.world.trace| {
        assert SendAccounted(s.log, i);
        var j :| 0 <= j < |s.log| && s.log[j].BridgeCall? && s.log[j].from <= i < s.log[j].to;
        assert log[j] == s.log[j];
      } else {
        assert log[|s.log| + 2] == more[2];
      }
    }
  }

  /** Any number of rounds against any server and any broker: no order without its own claim and authorisation. */
  lemma {:induction false} EveryOrderIsAuthorized(server: Server, env: Env, s: Loop, rounds: nat)
    requires Accountable(s)
    ensures Accountable(Run(server, env, s, rounds))
    decreases rounds
  {
    if rounds > 0 {
      RoundIsAccountable(server, env, s);
      EveryOrderIsAuthorized(server, env, NextRound(server, env, s), rounds - 1);
    }
  }

  // ---- Volume: no more than was authorised, whatever the server, the broker and others do -------------------------

  /** How far a planned volume may exceed the request: the guard, and half a digit when the step has more than eight. */
  function Overshoot(info: SymbolInfo): real {
    STEP_GUARD * info.volumeStep + if OnGrid(info.volumeStep, VOLUME_DIGITS) then 0.0 else HalfUnit(VOLUME_DIGITS)
  }

  /** No reported step ever lets a plan exceed its request by more than `extra`. */
  ghost predicate OvershootsAtMost(env: Env, extra: real) {
    extra >= 0.0 && forall k: nat, symbol :: symbol in env(k).symbols ==> Overshoot(env(k).symbols[symbol]) <= extra
  }

  /** What a bridge call was authorised to take from a ticket. */
  function Granted(e: Step, ticket: int, extra: real): real {
    if e.BridgeCall? && e.ticket == Some(ticket) && e.volume.Some? && e.volume.value > 0.0 then e.volume.value + extra
    else 0.0
  }

  function AuthorizedVolume(log: seq<Step>, ticket: int, extra: real): real {
    if log == [] then 0.0
    else AuthorizedVolume(log[..|log| - 1], ticket, extra) + Granted(log[|log| - 1], ticket, extra)
  }

  /** What the recorded orders for a ticket were filled with. */
  function FilledVolume(trace: seq<Event>, ticket: int): real {
    if trace == [] then 0.0
    else
      var e := trace[|trace| - 1];
      FilledVolume(trace[..|trace| - 1], ticket) + if e.Sent? && e.order.ticket == ticket then e.filled else 0.0
  }

  lemma {:induction false} AuthorizedVolumeOfSum(log: seq<Step>, more: seq<Step>, ticket: int, extra: real)
    ensures AuthorizedVolume(log + more, ticket, extra)
         == AuthorizedVolume(log, ticket, extra) + AuthorizedVolume(more, ticket, extra)
    decreases |more|
  {
    if more == [] {
      assert log + more == log;
    } else {
      AuthorizedVolumeOfSum(log, more[..|more| - 1], ticket, extra);
      assert (log + more)[..|log + more| - 1] == log + more[..|more| - 1];
    }
  }

  lemma {:induction false} FilledVolumeOfCalls(trace: seq<Event>, calls: seq<Event>, ticket: int)
    requires NoSends(calls)
    ensures FilledVolume(trace + calls, ticket) == FilledVolume(trace, ticket)
    decreases |calls|
  {
    if calls == [] {
      assert trace + calls == trace;
    } else {
      var head, e := calls[..|calls| - 1], calls[|calls| - 1];
      assert forall x :: x in head ==> x in calls;
      assert e in calls;
      FilledVolumeOfCalls(trace, head, ticket);
      assert (trace + calls)[..|trace + calls| - 1] == trace + head;
    }
  }

  /** The constraints that an order was planned from are those that the outside world reported in that call. */
  lemma InfoOfCall(env: Env, w: World, ticket: int, volume: real, pin: Pin, symbol: string)
    requires Prepare(env, w, ticket, volume, pin, symbol).1.Ready?
    ensures var prep := Prepare(env, w, ticket, volume, pin, symbol).1;
            && volume > 0.0 && prep.read.symbol in env(w.clock + 2).symbols
            && prep.info == env(w.clock + 2).symbols[prep.read.symbol]
  {
    hide PlanReduction, ReduceOrder, VerifyMutationIdentity, SymbolInfoTick, Disturbed;
  }

  /** One order adds its fill, at most its volume, to its own ticket. */
  lemma OrderTakesItsVolume(env: Env, w: World, order: Order, ticket: int)
    requires order.Deal? && order.volume > 0.0
    ensures FilledVolume(OrderSend(env, w, order).0.trace, ticket)
         <= FilledVolume(w.trace, ticket) + if order.ticket == ticket then order.volume else 0.0
  {
    var trace := OrderSend(env, w, order).0.trace;
    assert trace[..|trace| - 1] == w.trace;
  }

  lemma CallTakesWhatItMay(env: Env, w: World, ticket: int, volume: real, pin: Pin, symbol: string, other: int,
                           extra: real)
    requires OvershootsAtMost(env, extra)
    ensures FilledVolume(PartiallyClosed(env, w, ticket, volume, pin, symbol).0.trace, other)
         <= FilledVolume(w.trace, other) + if other == ticket && volume > 0.0 then volume + extra else 0.0
  {
    hide Prepare, PlanReduction, GatedAt, OnGrid, OrderSend;
    var (w1, prep) := Prepare(env, w, ticket, volume, pin, symbol);
    var calls := PrepareCalls(env, w, ticket, volume, pin, symbol);
    FilledVolumeOfCalls(w.trace, calls, other);
    if prep.Ready? {
      InfoOfCall(env, w, ticket, volume, pin, symbol);
      PlannedReductionIsPartial(volume, prep.read, prep.info);
      OrderTakesItsVolume(env, w1, prep.order, other);
    }
  }

  lemma {:induction false} AuthorizedAtLeast(log: seq<Step>, j: nat, ticket: int, extra: real)
    requires extra >= 0.0 && j < |log|
    ensures AuthorizedVolume(log, ticket, extra) >= Granted(log[j], ticket, extra)
    decreases |log|
  {
    if j < |log| - 1 {
      AuthorizedAtLeast(log[..|log| - 1], j, ticket, extra);
    } else if |log| > 1 {
      AuthorizedAtLeast(log[..|log| - 1], 0, ticket, extra);
    }
  }

  lemma RoundWorld(server: Server, env: Env, s: Loop)
    ensures var r, s' := server(s.round), NextRound(server, env, s);
            && s'.round == s.round + 1
            && s'.world == if !Bridges(r) then s.world
                           else PartiallyClosed(env, s.world, r.auth.ticket.value, r.auth.volume.value, JobPin(r.auth),
                                                r.auth.symbol).0
  {
    hide PartiallyClosed;
  }

  lemma RoundTakesWhatItMay(server: Server, env: Env, s: Loop, ticket: int, extra: real)
    requires OvershootsAtMost(env, extra)
    ensures var s' := NextRound(server, env, s);
            FilledVolume(s'.world.trace, ticket) - FilledVolume(s.world.trace, ticket)
              <= AuthorizedVolume(s'.log, ticket, extra) - AuthorizedVolume(s.log, ticket, extra)
  {
    hide PartiallyClosed, NextRound, PartialCalls;
    var r := server(s.round);
    var more, calls := RoundAppends(server, env, s);
    AuthorizedVolumeOfSum(s.log, more, ticket, extra);
    if more != [] { AuthorizedAtLeast(more, 0, ticket, extra); }
    RoundWorld(server, env, s);
    if Bridges(r) {
      AuthorizedAtLeast(more, 2, ticket, extra);
      CallTakesWhatItMay(env, s.world, r.auth.ticket.value, r.auth.volume.value, JobPin(r.auth), r.auth.symbol, ticket,
                         extra);
    }
  }

  /**
   Over any number of rounds against any server, any broker and any other traders: what the loop's orders were filled
   with on a ticket grows by no more than what its bridge calls were authorised to take from it.
   */
  lemma {:induction false} LoopTakesNoMoreThanAuthorized(server: Server, env: Env, s: Loop, rounds: nat, ticket: int,
                                                         extra: real)
    requires OvershootsAtMost(env, extra)
    ensures var s' := Run(server, env, s, rounds);
            FilledVolume(s'.world.trace, ticket) - FilledVolume(s.world.trace, ticket)
              <= AuthorizedVolume(s'.log, ticket, extra) - AuthorizedVolume(s.log, ticket, extra)
    decreases rounds
  {
    if rounds > 0 {
      RoundTakesWhatItMay(server, env, s, ticket, extra);
      LoopTakesNoMoreThanAuthorized(server, env, NextRound(server, env, s), rounds - 1, ticket, extra);
    }
  }

  // ---- The floor: every order of every run ------------------------------------------------------------------------

  /** The orders of the run from call `from` on came about as a partial close makes them. */
  ghost predicate OrdersFrom(env: Env, trace: seq<Event>, from: nat) {
    forall i :: from <= i < |trace| && trace[i].Sent? ==> PartialOrderAt(env, trace, i)
  }

  lemma OrderPersists(env: Env, trace: seq<Event>, longer: seq<Event>, i: nat)
    requires trace <= longer && i < |trace| && PartialOrderAt(env, trace, i)
    ensures PartialOrderAt(env, longer, i)
  {
    hide Survivor, Filled, OnGrid;
    assert forall k :: 0 <= k < |trace| ==> longer[k] == trace[k];
  }

  /** One call only appends, keeps the clock in step with the trace, and can only order with its seventh call. */
  lemma CallAppends(env: Env, w: World, ticket: int, volume: real, pin: Pin, symbol: string)
    requires |w.trace| == w.clock
    ensures var w' := PartiallyClosed(env, w, ticket, volume, pin, symbol).0;
            && w.trace <= w'.trace && |w'.trace| == w'.clock
            && (forall i :: w.clock <= i < w'.clock && w'.trace[i].Sent? ==>
                  && i == w.clock + 6 && w'.clock == w.clock + 7
                  && Prepare(env, w, ticket, volume, pin, symbol).1.Ready?)
  {
    hide Prepare, GatedAt, Disturbed;
    var (w1, prep) := Prepare(env, w, ticket, volume, pin, symbol);
    var calls := PrepareCalls(env, w, ticket, volume, pin, symbol);
    var trace := PartiallyClosed(env, w, ticket, volume, pin, symbol).0.trace;
    assert trace[..|w.trace|] == w.trace;
    forall i | w.clock <= i < w.clock + |calls| ensures !trace[i].Sent? {
      assert trace[i] == calls[i - w.clock] && calls[i - w.clock] in calls;
    }
  }

  lemma CallOrders(env: Env, w: World, ticket: int, volume: real, pin: Pin, symbol: string)
    requires |w.trace| == w.clock
    ensures OrdersFrom(env, PartiallyClosed(env, w, ticket, volume, pin, symbol).0.trace, w.clock)
  {
    hide Prepare, PartiallyClosed, PartialOrderAt;
    CallAppends(env, w, ticket, volume, pin, symbol);
    if Prepare(env, w, ticket, volume, pin, symbol).1.Ready? { OrderOfCall(env, w, ticket, volume, pin, symbol); }
  }

  lemma OrdersPersist(env: Env, trace: seq<Event>, longer: seq<Event>, from: nat)
    requires trace <= longer && OrdersFrom(env, trace, from) && OrdersFrom(env, longer, |trace|)
    ensures OrdersFrom(env, longer, from)
  {
    hide PartialOrderAt;
    forall i | from <= i < |longer| && longer[i].Sent? ensures PartialOrderAt(env, longer, i) {
      if i < |trace| { OrderPersists(env, trace, longer, i); }
    }
  }

  lemma {:induction false} RunOrders(server: Server, env: Env, s: Loop, rounds: nat)
    requires |s.world.trace| == s.world.clock
    ensures var w := Run(server, env, s, rounds).world;
            s.world.trace <= w.trace && |w.trace| == w.clock && OrdersFrom(env, w.trace, s.world.clock)
    decreases rounds
  {
    hide PartiallyClosed, NextRound, OrdersFrom;
    if rounds > 0 {
      var r, s' := server(s.round), NextRound(server, env, s);
      RoundWorld(server, env, s);
      if Bridges(r) {
        CallAppends(env, s.world, r.auth.ticket.value, r.auth.volume.value, JobPin(r.auth), r.auth.symbol);
        CallOrders(env, s.world, r.auth.ticket.value, r.auth.volume.value, JobPin(r.auth), r.auth.symbol);
      }
      RunOrders(server, env, s', rounds - 1);
      NothingOrdered(env, s.world.trace);
      OrdersPersist(env, s'.world.trace, Run(server, env, s', rounds - 1).world.trace, s.world.clock);
    } else {
      NothingOrdered(env, s.world.trace);
    }
  }

  lemma NothingOrdered(env: Env, trace: seq<Event>)
    ensures OrdersFrom(env, trace, |trace|)
  {
  }

  /** On a steady account with the ticket left alone between its read and its send, the order at `i` keeps the floor: up
      to half of the eighth digit, and exactly for volumes on that grid. */
  ghost predicate KeepsFloorIfUndisturbed(env: Env, trace: seq<Event>, i: int) {
    && IsPartialOrder(trace, i)
    && (SteadyCall(env, i) && Undisturbed(env, KeyAt(trace, i), i) ==>
          && LeavesAtLeast(trace, i, InfoAt(trace, i).volumeMin - HalfUnit(VOLUME_DIGITS))
          && (OnGrid(InfoAt(trace, i).volumeStep, VOLUME_DIGITS) && OnGrid(ReadAt(trace, i).volume, VOLUME_DIGITS) ==>
                FloorKept(trace, i)))
  }

  /** Every order of every run keeps the floor when it is undisturbed; other tickets, other accounts and the time
      outside that window are free. */
  lemma LoopKeepsVolumeFloor(server: Server, env: Env, s: Loop, rounds: nat)
    requires |s.world.trace| == s.world.clock
    ensures var trace := Run(server, env, s, rounds).world.trace;
            forall i :: s.world.clock <= i < |trace| && trace[i].Sent? ==> KeepsFloorIfUndisturbed(env, trace, i)
  {
    hide Run;
    RunOrders(server, env, s, rounds);
    var trace := Run(server, env, s, rounds).world.trace;
    forall i | s.world.clock <= i < |trace| && trace[i].Sent? ensures KeepsFloorIfUndisturbed(env, trace, i) {
      hide Survivor, Filled, LeavesAtLeast, OnGrid, Undisturbed;
      assert PartialOrderAt(env, trace, i);
      if SteadyCall(env, i) && Undisturbed(env, KeyAt(trace, i), i) { UndisturbedKeepsFloor(env, trace, i); }
    }
  }

  // ---- The floor, exactly: over every fill of every order of the run ----------------------------------------------

  /** The trace of the run when the broker fills its orders as `fills` says. */
  function Filling(server: Server, env: Env, fills: nat -> Fill, s: Loop, rounds: nat): seq<Event> {
    Run(server, Refill(env, fills), s, rounds).world.trace
  }

  /** An order of the run on an account that stayed put during its call. */
  ghost predicate SteadyOrder(env: Env, trace: seq<Event>, from: int, i: int) {
    from <= i < |trace| && IsPartialOrder(trace, i) && SteadyCall(env, i)
  }

  ghost predicate FloorsKept(env: Env, trace: seq<Event>, from: int) {
    forall i :: SteadyOrder(env, trace, from, i) ==> FloorKept(trace, i)
  }

  ghost predicate OthersWithinSlackThroughout(env: Env, trace: seq<Event>, from: int) {
    forall i :: SteadyOrder(env, trace, from, i) ==> OthersWithinSlack(env, trace, i)
  }

  /** The two fillings differ at call `c` at most. */
  ghost predicate SameButAt(f: nat -> Fill, g: nat -> Fill, c: nat) {
    forall k: nat :: k != c ==> f(k) == g(k)
  }

  /** Up to the order at `c` the traces are equal, and that order met the same position. */
  ghost predicate SameOrderAt(one: seq<Event>, two: seq<Event>, c: nat) {
    && c < |one| && c < |two| && one[..c] == two[..c] && one[c].Sent? && two[c].Sent?
    && one[c].sender == two[c].sender && one[c].order == two[c].order && one[c].met == two[c].met
  }

  /** One call under two fillings: the same world afterwards, or the same order at the call where they differ. */
  lemma CallUnderTwoFillings(env: Env, f: nat -> Fill, g: nat -> Fill, w: World, ticket: int, volume: real, pin: Pin,
                             symbol: string, c: nat)
    requires |w.trace| == w.clock && SameButAt(f, g, c)
    ensures var one := PartiallyClosed(Refill(env, f), w, ticket, volume, pin, symbol).0;
            var two := PartiallyClosed(Refill(env, g), w, ticket, volume, pin, symbol).0;
            one == two || (w.clock <= c && SameOrderAt(one.trace, two.trace, c))
  {
    hide Prepare, Disturbed, GatedAt;
    PrepareIgnoresFills(env, f, w, ticket, volume, pin, symbol);
    PrepareIgnoresFills(env, g, w, ticket, volume, pin, symbol);
    var (w1, prep) := Prepare(env, w, ticket, volume, pin, symbol);
    var calls := PrepareCalls(env, w, ticket, volume, pin, symbol);
    if prep.Ready? { SendUnderTwoFillings(env, f, g, w1, prep.order, c); }
  }

  lemma SendUnderTwoFillings(env: Env, f: nat -> Fill, g: nat -> Fill, w: World, order: Order, c: nat)
    requires |w.trace| == w.clock && SameButAt(f, g, c)
    ensures var one, two := OrderSend(Refill(env, f), w, order), OrderSend(Refill(env, g), w, order);
            one == two || (w.clock == c && SameOrderAt(one.0.trace, two.0.trace, c))
  {
    hide Filled, Traded;
    DisturbedIgnoresFills(env, f, w.book, w.clock);
    DisturbedIgnoresFills(env, g, w.book, w.clock);
    if w.clock != c {
      assert Refill(env, f)(w.clock) == Refill(env, g)(w.clock);
    }
  }

  /** Rounds after the order at `c` only append to it. */
  lemma LaterRoundsKeepOrder(server: Server, env: Env, f: nat -> Fill, g: nat -> Fill, one: Loop, two: Loop,
                             rounds: nat,
                             c: nat)
    requires |one.world.trace| == one.world.clock && |two.world.trace| == two.world.clock
    requires SameOrderAt(one.world.trace, two.world.trace, c)
    ensures SameOrderAt(Run(server, Refill(env, f), one, rounds).world.trace,
                        Run(server, Refill(env, g), two, rounds).world.trace, c)
  {
    hide Run;
    RunOrders(server, Refill(env, f), one, rounds);
    RunOrders(server, Refill(env, g), two, rounds);
  }

  /** A run under two fillings that differ at call `c` comes to the same order there. */
  lemma {:induction false} RunUnderTwoFillings(server: Server, env: Env, f: nat -> Fill, g: nat -> Fill, s: Loop,
                                               rounds: nat, c: nat)
    requires |s.world.trace| == s.world.clock && SameButAt(f, g, c)
    ensures var one, two := Run(server, Refill(env, f), s, rounds), Run(server, Refill(env, g), s, rounds);
            one == two || (s.world.clock <= c && SameOrderAt(one.world.trace, two.world.trace, c))
    decreases rounds
  {
    hide PartiallyClosed, SameOrderAt, Refill;
    if rounds > 0 {
      var r, one, two := server(s.round), NextRound(server, Refill(env, f), s), NextRound(server, Refill(env, g), s);
      RoundWorld(server, Refill(env, f), s);
      RoundWorld(server, Refill(env, g), s);
      if Bridges(r) {
        var ticket, volume, pin, symbol := r.auth.ticket.value, r.auth.volume.value, JobPin(r.auth), r.auth.symbol;
        CallUnderTwoFillings(env, f, g, s.world, ticket, volume, pin, symbol, c);
        CallAppends(Refill(env, f), s.world, ticket, volume, pin, symbol);
        CallAppends(Refill(env, g), s.world, ticket, volume, pin, symbol);
      }
      if one.world == two.world {
        assert one == two;
        RunUnderTwoFillings(server, env, f, g, one, rounds - 1, c);
      } else {
        LaterRoundsKeepOrder(server, env, f, g, one, two, rounds - 1, c);
      }
    }
  }

  lemma SlackKeepsFloor(env: Env, fills: nat -> Fill, trace: seq<Event>, i: int)
    requires PartialOrderAt(Refill(env, fills), trace, i) && SteadyCall(env, i) && OthersWithinSlack(env, trace, i)
    ensures FloorKept(trace, i)
  {
    hide Survivor, TakenByOthers, FloorKept, Filled;
    OthersIgnoreFills(env, fills, KeyAt(trace, i), ReadAt(trace, i), i - 4, 5);
    SmallShareKeepsFloor(Refill(env, fills), trace, i);
  }

  lemma SlackKeepsFloors(server: Server, env: Env, fills: nat -> Fill, s: Loop, rounds: nat)
    requires |s.world.trace| == s.world.clock
    requires OthersWithinSlackThroughout(env, Filling(server, env, fills, s, rounds), s.world.clock)
    ensures FloorsKept(env, Filling(server, env, fills, s, rounds), s.world.clock)
  {
    hide Run, OthersWithinSlack, FloorKept, PartialOrderAt, Refill;
    var trace := Filling(server, env, fills, s, rounds);
    RunOrders(server, Refill(env, fills), s, rounds);
    forall i | SteadyOrder(env, trace, s.world.clock, i) ensures FloorKept(trace, i) {
      SlackKeepsFloor(env, fills, trace, i);
    }
  }

  /** The filling `fills`, with the order at `i` filled completely. */
  function FullAt(fills: nat -> Fill, i: nat): nat -> Fill {
    (k: nat) => if k == i then Fill(Ret(RETCODE_DONE), 0.0) else fills(k)
  }

  /** Filling an order completely breaks its floor when others took more than the slack. */
  lemma FullFillBreaksFloors(server: Server, env: Env, fills: nat -> Fill, s: Loop, rounds: nat, i: nat)
    requires |s.world.trace| == s.world.clock
    requires SteadyOrder(env, Filling(server, env, fills, s, rounds), s.world.clock, i)
    requires !OthersWithinSlack(env, Filling(server, env, fills, s, rounds), i)
    ensures !FloorsKept(env, Filling(server, env, FullAt(fills, i), s, rounds), s.world.clock)
  {
    hide Run, Survivor, TakenByOthers, FloorKept, PartialOrderAt;
    var full, other := FullAt(fills, i), Refill(env, FullAt(fills, i));
    var one, two := Filling(server, env, fills, s, rounds), Filling(server, env, full, s, rounds);
    RunUnderTwoFillings(server, env, fills, full, s, rounds, i);
    assert one[..i] == two[..i];
    assert forall k :: 0 <= k < i ==> one[k] == one[..i][k] == two[k];
    assert SteadyOrder(env, two, s.world.clock, i);
    RunOrders(server, other, s, rounds);
    OthersIgnoreFills(env, full, KeyAt(two, i), ReadAt(two, i), i - 4, 5);
    FullFillBreaksFloor(other, two, i);
  }

  /**
   Over any number of rounds, every order on a steady account keeps the floor however the broker fills the orders of the
   run, if and only if, however it fills them, others never take more from a ticket between its read and its send than
   the planned remainder exceeds the minimum by.
   */
  lemma LoopFloorHoldsExactlyWithinSlack(server: Server, env: Env, s: Loop, rounds: nat)
    requires |s.world.trace| == s.world.clock
    ensures (forall fills: nat -> Fill :: FloorsKept(env, Filling(server, env, fills, s, rounds), s.world.clock))
       <==> (forall fills: nat -> Fill ::
               OthersWithinSlackThroughout(env, Filling(server, env, fills, s, rounds), s.world.clock))
  {
    hide Filling, FloorKept, OthersWithinSlack, FloorsKept;
    forall fills: nat -> Fill
      ensures OthersWithinSlackThroughout(env, Filling(server, env, fills, s, rounds), s.world.clock)
              ==> FloorsKept(env, Filling(server, env, fills, s, rounds), s.world.clock)
    {
      if OthersWithinSlackThroughout(env, Filling(server, env, fills, s, rounds), s.world.clock) {
        SlackKeepsFloors(server, env, fills, s, rounds);
      }
    }
    forall fills: nat -> Fill
      ensures OthersWithinSlackThroughout(env, Filling(server, env, fills, s, rounds), s.world.clock)
              || exists full: nat -> Fill :: !FloorsKept(env, Filling(server, env, full, s, rounds), s.world.clock)
    {
      var trace := Filling(server, env, fills, s, rounds);
      if i :| SteadyOrder(env, trace, s.world.clock, i) && !OthersWithinSlack(env, trace, i) {
        FullFillBreaksFloors(server, env, fills, s, rounds, i);
      }
    }
  }
}
