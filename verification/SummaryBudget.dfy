/**
 The wall-clock budget of the portfolio summary: two serial passes of live reads, positions and then balances, share one
 deadline; every read gets the smaller of a fixed cap and what is left. Times are in seconds since the summary started.
 */
module SummaryBudget {
  import opened Common

  const BUDGET: real := 10.0
  const READ_CAP: real := 3.0

  /** What a bridge does with one read: how long it holds the caller and whether it answers. */
  datatype Reply = Reply(elapsed: real, answered: bool)

  /** An account as one pass of the summary meets it: the work before its turn, and its bridge's reply to a timeout. */
  datatype Turn = Turn(account: int, pause: real, bridge: real -> Reply)

  datatype Entry = Entry(account: int, live: bool)

  function Timeout(clock: real): real {
    Min(READ_CAP, BUDGET - clock)
  }

  /** The clock when the turn's own read may start. */
  function StartOf(turn: Turn, clock: real): real { clock + turn.pause }

  predicate Reads(turn: Turn, clock: real) { BUDGET - StartOf(turn, clock) > 0.0 }

  function EndOf(turn: Turn, clock: real): real {
    var start := StartOf(turn, clock);
    if Reads(turn, clock) then start + turn.bridge(Timeout(start)).elapsed else start
  }

  predicate Live(turn: Turn, clock: real) {
    Reads(turn, clock) && turn.bridge(Timeout(StartOf(turn, clock))).answered
  }

  /** The clock after some turns. */
  function ClockAfter(turns: seq<Turn>, clock: real): real
    decreases |turns|
  {
    if turns == [] then clock else ClockAfter(turns[1..], EndOf(turns[0], clock))
  }

  function Entries(turns: seq<Turn>, clock: real): (r: seq<Entry>)
    ensures |r| == |turns| && forall i :: 0 <= i < |r| ==> r[i].account == turns[i].account
    decreases |turns|
  {
    if turns == [] then []
    else
      var rest := Entries(turns[1..], EndOf(turns[0], clock));
      [Entry(turns[0].account, Live(turns[0], clock))] + rest
  }

  lemma TurnTaken(turns: seq<Turn>, i: nat, clock: real, entries: seq<Entry>)
    requires i < |turns|
    ensures var entry := Entry(turns[i].account, Live(turns[i], clock));
            entries + Entries(turns[i..], clock) == (entries + [entry]) + Entries(turns[i + 1..], EndOf(turns[i],
                clock))
    ensures ClockAfter(turns[i..], clock) == ClockAfter(turns[i + 1..], EndOf(turns[i], clock))
  {
    assert turns[i..][0] == turns[i] && turns[i..][1..] == turns[i + 1..];
  }

  /** One account's turn: no read is started once the budget is used up. */
  method TakeTurn(turn: Turn, before: real) returns (live: bool, clock: real)
    ensures live == Live(turn, before) && clock == EndOf(turn, before)
  {
    live, clock := false, before + turn.pause;
    var left := BUDGET - clock;
    if left > 0.0 {
      var reply := turn.bridge(Min(READ_CAP, left));
      live, clock := reply.answered, clock + reply.elapsed;
    }
  }

  /** One pass over the accounts; an account is never dropped, only marked stale. */
  method Pass(turns: seq<Turn>, start: real) returns (entries: seq<Entry>, clock: real)
    ensures entries == Entries(turns, start) && clock == ClockAfter(turns, start)
  {
    entries, clock := [], start;
    for i := 0 to |turns|
      invariant entries + Entries(turns[i..], clock) == Entries(turns, start)
      invariant ClockAfter(turns[i..], clock) == ClockAfter(turns, start)
    {
      TurnTaken(turns, i, clock, entries);
      var live;
      live, clock := TakeTurn(turns[i], clock);
      entries := entries + [Entry(turns[i].account, live)];
    }
  }

  /** Both passes over the same accounts, sharing the clock, and the aggregation that follows them. */
  method BuildSummary(positions: seq<Turn>, balances: seq<Turn>, aggregation: real)
    returns (open: seq<Entry>, live: seq<Entry>, end: real)
    ensures open == Entries(positions, 0.0) && live == Entries(balances, ClockAfter(positions, 0.0))
    ensures end == SummaryEnd(positions, balances, aggregation)
  {
    var clock;
    open, clock := Pass(positions, 0.0);
    live, end := Pass(balances, clock);
    end := end + aggregation;
    PassesChain(positions, balances, 0.0);
  }

  function SummaryEnd(positions: seq<Turn>, balances: seq<Turn>, aggregation: real): real {
    ClockAfter(positions + balances, 0.0) + aggregation
  }

  /** Two passes behave like one over the concatenated turns. */
  lemma {:induction false} PassesChain(xs: seq<Turn>, ys: seq<Turn>, clock: real)
    ensures ClockAfter(xs + ys, clock) == ClockAfter(ys, ClockAfter(xs, clock))
    ensures Entries(xs + ys, clock) == Entries(xs, clock) + Entries(ys, ClockAfter(xs, clock))
    decreases |xs|
  {
    if xs == [] {
      assert xs + ys == ys;
    } else {
      assert (xs + ys)[1..] == xs[1..] + ys;
      PassesChain(xs[1..], ys, EndOf(xs[0], clock));
    }
  }

  // ---- Any bridges ------------------------------------------------------------------------------------------------

  /** No time flows backwards. */
  ghost predicate Sane(turn: Turn) {
    turn.pause >= 0.0 && forall t :: turn.bridge(t).elapsed >= 0.0
  }

  /** The bridge returns within the timeout it is given, plus an overrun. */
  ghost predicate Overruns(turn: Turn, overrun: real) {
    forall t :: turn.bridge(t).elapsed <= t + overrun
  }

  /** Every read that is started starts within the budget and is over by `limit`. */
  ghost predicate ReadsOverBy(turns: seq<Turn>, clock: real, limit: real)
    decreases |turns|
  {
    turns != [] ==>
      && (Reads(turns[0], clock) ==> StartOf(turns[0], clock) < BUDGET && EndOf(turns[0], clock) <= limit)
      && ReadsOverBy(turns[1..], EndOf(turns[0], clock), limit)
  }

  /** The work before the turns that start no read. */
  function SkippedPauses(turns: seq<Turn>, clock: real): real
    decreases |turns|
  {
    if turns == [] then 0.0
    else (if Reads(turns[0], clock) then 0.0 else turns[0].pause) + SkippedPauses(turns[1..], EndOf(turns[0], clock))
  }

  lemma {:induction false} HonouredReadsOverBy(turns: seq<Turn>, clock: real, overrun: real)
    requires overrun >= 0.0 && forall t :: t in turns ==> Sane(t) && Overruns(t, overrun)
    ensures ReadsOverBy(turns, clock, BUDGET + overrun)
    decreases |turns|
  {
    if turns != [] {
      assert turns[0] in turns && forall t :: t in turns[1..] ==> t in turns;
      HonouredReadsOverBy(turns[1..], EndOf(turns[0], clock), overrun);
    }
  }

  /** No read takes longer than `longest`, whatever timeout it is given. */
  ghost predicate TakesAtMost(turn: Turn, longest: real) {
    forall t :: turn.bridge(t).elapsed <= longest
  }

  lemma {:induction false} AnyReadsOverBy(turns: seq<Turn>, clock: real, longest: real)
    requires forall t :: t in turns ==> Sane(t) && TakesAtMost(t, longest)
    ensures ReadsOverBy(turns, clock, BUDGET + longest)
    decreases |turns|
  {
    if turns != [] {
      assert turns[0] in turns && forall t :: t in turns[1..] ==> t in turns;
      AnyReadsOverBy(turns[1..], EndOf(turns[0], clock), longest);
    }
  }

  /** Once every started read is over, only the work before skipped reads can follow. */
  lemma {:induction false} ClockAfterBound(turns: seq<Turn>, clock: real, limit: real)
    requires ReadsOverBy(turns, clock, limit) && forall t :: t in turns ==> Sane(t)
    ensures ClockAfter(turns, clock) <= Max(clock, limit) + SkippedPauses(turns, clock)
    decreases |turns|
  {
    if turns != [] {
      assert turns[0] in turns && forall t :: t in turns[1..] ==> t in turns;
      ClockAfterBound(turns[1..], EndOf(turns[0], clock), limit);
    }
  }

  /**
   For any accounts, both passes, any bridges and any work in between: every started read starts within the budget and
   is over by the budget plus the overrun, and the whole summary ends by then, but for the work before skipped reads
   and the aggregation. Without honoured timeouts the longest read stands in for the overrun.
   */
  lemma SummaryEndsWithinBudget(positions: seq<Turn>, balances: seq<Turn>, aggregation: real, overrun: real,
                                longest: real)
    requires forall t :: t in positions + balances ==> Sane(t)
    requires overrun >= 0.0 && longest >= 0.0
    ensures var turns := positions + balances;
            var rest := SkippedPauses(turns, 0.0) + aggregation;
            && ((forall t :: t in turns ==> Overruns(t, overrun)) ==>
                  && ReadsOverBy(turns, 0.0, BUDGET + overrun)
                  && SummaryEnd(positions, balances, aggregation) <= BUDGET + overrun + rest)
            && ((forall t :: t in turns ==> TakesAtMost(t, longest)) ==>
                  && ReadsOverBy(turns, 0.0, BUDGET + longest)
                  && SummaryEnd(positions, balances, aggregation) <= BUDGET + longest + rest)
  {
    hide ReadsOverBy, Overruns, TakesAtMost, ClockAfter, SkippedPauses;
    var turns := positions + balances;
    if forall t :: t in turns ==> Overruns(t, overrun) {
      HonouredReadsOverBy(turns, 0.0, overrun);
      ClockAfterBound(turns, 0.0, BUDGET + overrun);
    }
    if forall t :: t in turns ==> TakesAtMost(t, longest) {
      AnyReadsOverBy(turns, 0.0, longest);
      ClockAfterBound(turns, 0.0, BUDGET + longest);
    }
  }

  // ---- Which healthy accounts are read live -----------------------------------------------------------------------

  /** A bridge that needs `takes` seconds: answered within the timeout, or cut off there. `None` never answers. */
  function Timed(takes: Option<real>): real -> Reply {
    (timeout: real) =>
      if takes.Some? && takes.value <= timeout then Reply(takes.value, true) else Reply(timeout, false)
  }

  /** An account's turn in one pass: the work before it, and how long its bridge takes. */
  datatype Visit = Visit(account: int, pause: real, takes: Option<real>) {
    predicate Healthy() {
      takes.Some?
    }

    function AsTurn(): Turn {
      Turn(account, pause, Timed(takes))
    }

    /** What the visit adds to the clock as long as the budget lasts. */
    function Time(): real {
      pause + if takes.Some? then takes.value else READ_CAP
    }
  }

  function Turns(visits: seq<Visit>): (r: seq<Turn>)
    ensures |r| == |visits|
  {
    seq(|visits|, i requires 0 <= i < |visits| => visits[i].AsTurn())
  }

  /** Healthy bridges answer within the cap, and no work takes negative time. */
  ghost predicate Plausible(visits: seq<Visit>) {
    forall v :: v in visits ==> v.pause >= 0.0 && (v.takes.Some? ==> 0.0 < v.takes.value <= READ_CAP)
  }

  predicate AnyHealthy(visits: seq<Visit>) {
    exists v :: v in visits && v.Healthy()
  }

  /** When the last healthy read would end if all work and every read before it took its own time, hung ones their
      cap. */
  function LastHealthyEnd(visits: seq<Visit>): real
    decreases |visits|
  {
    if !AnyHealthy(visits) then 0.0 else visits[0].Time() + LastHealthyEnd(visits[1..])
  }

  ghost predicate AllHealthyLive(visits: seq<Visit>, clock: real) {
    var entries := Entries(Turns(visits), clock);
    forall i :: 0 <= i < |visits| && visits[i].Healthy() ==> entries[i].live
  }

  lemma PlausibleTail(visits: seq<Visit>)
    requires visits != [] && Plausible(visits)
    ensures Plausible(visits[1..]) && (AnyHealthy(visits) <==> visits[0].Healthy() || AnyHealthy(visits[1..]))
  {
    assert visits == [visits[0]] + visits[1..];
    assert forall v :: v in visits <==> v == visits[0] || v in visits[1..];
  }

  lemma {:induction false} LastHealthyEndPositive(visits: seq<Visit>)
    requires Plausible(visits)
    ensures AnyHealthy(visits) ==> LastHealthyEnd(visits) > 0.0
    ensures LastHealthyEnd(visits) >= 0.0
    decreases |visits|
  {
    if visits != [] && AnyHealthy(visits) {
      PlausibleTail(visits);
      LastHealthyEndPositive(visits[1..]);
      assert visits[0] in visits;
    }
  }

  lemma EntriesFromHead(visits: seq<Visit>, clock: real)
    requires visits != []
    ensures var turn := visits[0].AsTurn();
            Entries(Turns(visits), clock)
              == [Entry(visits[0].account, Live(turn, clock))] + Entries(Turns(visits[1..]), EndOf(turn, clock))
  {
    hide Live, EndOf;
    assert Turns(visits)[0] == visits[0].AsTurn() && Turns(visits)[1..] == Turns(visits[1..]);
  }

  /** The first account's turn decides about itself and hands the clock to the rest. */
  lemma LiveFromHead(visits: seq<Visit>, clock: real)
    requires visits != []
    ensures var turn := visits[0].AsTurn();
            AllHealthyLive(visits, clock) <==>
              (visits[0].Healthy() ==> Live(turn, clock)) && AllHealthyLive(visits[1..], EndOf(turn, clock))
  {
    hide Live, EndOf, Turns;
    var turn := visits[0].AsTurn();
    EntriesFromHead(visits, clock);
    var entries, rest := Entries(Turns(visits), clock), Entries(Turns(visits[1..]), EndOf(turn, clock));
    hide Entries;
    assert forall i :: 0 <= i < |rest| ==> rest[i] == entries[i + 1] && visits[1..][i] == visits[i + 1];
    if AllHealthyLive(visits, clock) {
      forall i | 0 <= i < |visits| - 1 && visits[1..][i].Healthy() ensures rest[i].live {
        assert visits[i + 1].Healthy();
      }
    }
  }

  /** For any accounts, healthy or hung, and any work in between: every healthy read is live exactly when the last of
      them fits the budget together with all work, reads and caps before it. */
  lemma {:induction false} HealthyLiveExactlyWhenLastFits(visits: seq<Visit>, clock: real)
    requires Plausible(visits)
    ensures AllHealthyLive(visits, clock) <==> (AnyHealthy(visits) ==> clock + LastHealthyEnd(visits) <= BUDGET)
    decreases |visits|
  {
    if visits != [] {
      hide AllHealthyLive;
      PlausibleTail(visits);
      LiveFromHead(visits, clock);
      HealthyLiveExactlyWhenLastFits(visits[1..], EndOf(visits[0].AsTurn(), clock));
      LastHealthyEndPositive(visits[1..]);
      assert visits[0] in visits;
    }
  }

  // ---- One hung account -------------------------------------------------------------------------------------------

  /** The time that the healthy reads take. */
  function ReadingTime(visits: seq<Visit>): real
    decreases |visits|
  {
    if visits == [] then 0.0
    else (if visits[0].Healthy() then visits[0].takes.value else 0.0) + ReadingTime(visits[1..])
  }

  /** The work in front of the reads up to the last healthy one. */
  function WorkBeforeHealthy(visits: seq<Visit>): real
    decreases |visits|
  {
    if !AnyHealthy(visits) then 0.0 else visits[0].pause + WorkBeforeHealthy(visits[1..])
  }

  function Hung(visits: seq<Visit>): nat
    decreases |visits|
  {
    if visits == [] then 0 else (if visits[0].Healthy() then 0 else 1) + Hung(visits[1..])
  }

  /** How many hung accounts a healthy one still follows. */
  function HungBeforeHealthy(visits: seq<Visit>): nat
    decreases |visits|
  {
    if !AnyHealthy(visits) then 0 else (if visits[0].Healthy() then 0 else 1) + HungBeforeHealthy(visits[1..])
  }

  lemma {:induction false} NoneHealthyReading(visits: seq<Visit>)
    requires !AnyHealthy(visits)
    ensures ReadingTime(visits) == 0.0
    decreases |visits|
  {
    if visits != [] {
      assert visits[0] in visits && forall v :: v in visits[1..] ==> v in visits;
      NoneHealthyReading(visits[1..]);
    }
  }

  /** The last healthy read ends after all healthy time, the work before it, and one full cap per hung account before
      it. */
  lemma {:induction false} LastEndIsReadingPlusCaps(visits: seq<Visit>)
    requires Plausible(visits)
    ensures LastHealthyEnd(visits)
         == ReadingTime(visits) + WorkBeforeHealthy(visits) + READ_CAP * HungBeforeHealthy(visits) as real
    decreases |visits|
  {
    if AnyHealthy(visits) {
      PlausibleTail(visits);
      LastEndIsReadingPlusCaps(visits[1..]);
    } else {
      NoneHealthyReading(visits);
    }
  }

  lemma HealthySecond(first: seq<Visit>, second: seq<Visit>)
    requires AnyHealthy(second)
    ensures AnyHealthy(first + second)
  {
    var v :| v in second && v.Healthy();
    assert v in first + second;
  }

  lemma {:induction false} HungBeforeInTwoPasses(first: seq<Visit>, second: seq<Visit>)
    requires AnyHealthy(second)
    ensures HungBeforeHealthy(first + second) == Hung(first) + HungBeforeHealthy(second)
    ensures ReadingTime(first + second) == ReadingTime(first) + ReadingTime(second)
    decreases |first|
  {
    var both := first + second;
    HealthySecond(first, second);
    if first == [] {
      assert both == second;
    } else {
      assert both[1..] == first[1..] + second;
      HungBeforeInTwoPasses(first[1..], second);
    }
  }

  /** One bridge hangs in both passes, at least one is healthy: no healthy account misses a live read in either pass
      exactly when all healthy reading and the work before it fit beside one cap, or two when a healthy account
      follows the hung one. */
  lemma OneHungAccount(first: seq<Visit>, second: seq<Visit>)
    requires Plausible(first) && Plausible(second) && Hung(first) == 1 && AnyHealthy(second)
    ensures AllHealthyLive(first + second, 0.0) <==>
              (ReadingTime(first) + ReadingTime(second) + WorkBeforeHealthy(first + second)
                 + READ_CAP + READ_CAP * HungBeforeHealthy(second) as real <= BUDGET)
  {
    var both := first + second;
    assert Plausible(both);
    HungBeforeInTwoPasses(first, second);
    LastEndIsReadingPlusCaps(both);
    HealthyLiveExactlyWhenLastFits(both, 0.0);
    HealthySecond(first, second);
  }

  lemma {:induction false} HungBeforeAtMostHung(visits: seq<Visit>)
    ensures HungBeforeHealthy(visits) <= Hung(visits)
    decreases |visits|
  {
    if AnyHealthy(visits) { HungBeforeAtMostHung(visits[1..]); }
  }

  /** With at most 4 s of healthy reading and work before it in all, one hung account costs no healthy account a live
      read; and when a healthy account follows the hung one in the second pass, that is exactly when. */
  lemma FourSecondsAreEnough(first: seq<Visit>, second: seq<Visit>)
    requires Plausible(first) && Plausible(second) && Hung(first) == Hung(second) == 1 && AnyHealthy(second)
    ensures var needed := ReadingTime(first) + ReadingTime(second) + WorkBeforeHealthy(first + second);
            && (needed <= 4.0 ==> AllHealthyLive(first + second, 0.0))
            && (HungBeforeHealthy(second) == 1 ==> (AllHealthyLive(first + second, 0.0) <==> needed <= 4.0))
  {
    hide AllHealthyLive;
    OneHungAccount(first, second);
    HungBeforeAtMostHung(second);
  }

  lemma WorkOfTwoPasses(pass: seq<Visit>)
    requires pass == [Visit(1, 0.0, None), Visit(2, 0.5, Some(2.0))]
    ensures WorkBeforeHealthy(pass + pass) == 1.0
  {
    var both := pass + pass;
    assert both[3] in both && both[1..][2] in both[1..] && both[2..][1] in both[2..] && both[3..][0] in both[3..];
    assert both[1..][1..] == both[2..] && both[2..][1..] == both[3..] && both[3..][1..] == [];
    assert WorkBeforeHealthy(both[3..]) == 0.5;
    assert WorkBeforeHealthy(both[2..]) == 0.5;
    assert WorkBeforeHealthy(both[1..]) == 1.0;
  }

  /** Reading within 4 s alone is not enough: half a second of work before each read of a healthy account that needs 2 s
      costs it its live read when the account before it hangs. */
  lemma WorkCostsALiveRead()
    ensures var pass := [Visit(1, 0.0, None), Visit(2, 0.5, Some(2.0))];
            && Plausible(pass) && ReadingTime(pass) + ReadingTime(pass) == 4.0 && !AllHealthyLive(pass + pass, 0.0)
  {
    hide AllHealthyLive;
    var pass := [Visit(1, 0.0, None), Visit(2, 0.5, Some(2.0))];
    var tail := [Visit(2, 0.5, Some(2.0))];
    assert pass[1..] == tail && tail[1..] == [];
    assert AnyHealthy(tail) by { assert tail[0] in tail; }
    assert AnyHealthy(pass) by { assert pass[1] in pass; }
    assert ReadingTime(tail) == 2.0 && ReadingTime(pass) == 2.0;
    assert HungBeforeHealthy(tail) == 0 && HungBeforeHealthy(pass) == 1 && Hung(tail) == 0 && Hung(pass) == 1;
    WorkOfTwoPasses(pass);
    FourSecondsAreEnough(pass, pass);
  }
}
