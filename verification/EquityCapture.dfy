/**
 Concurrent captures of one account's equity. The observation time is taken before the account's row lock; the throttle
 check, the insertion and the commit happen under it. Times are in microseconds and need not arrive in order; the
 interval is in seconds.
 */
module EquityCapture {
  const SECOND := 1_000_000

  datatype Reason = Created | Throttled | Duplicate

  /** A stored row within the throttle interval of `now`, or later than it. An interval of 0 turns the check off. */
  predicate TooSoon(rows: seq<int>, now: int, interval: int) {
    interval != 0 && exists r :: r in rows && r >= now - interval * SECOND
  }

  /** The committed snapshots of one account, oldest insertion first. */
  class Ledger {
    var rows: seq<int>

    constructor ()
      ensures rows == []
    {
      rows := [];
    }

    /** The critical section: check, then insert, with the unique (account, instant) constraint as a last resort. */
    method Capture(now: int, interval: int) returns (reason: Reason)
      modifies this
      ensures reason == Throttled <==> TooSoon(old(rows), now, interval)
      ensures reason == Duplicate <==> !TooSoon(old(rows), now, interval) && now in old(rows)
      ensures rows == if reason == Created then old(rows) + [now] else old(rows)
      ensures interval > 0 && Spaced(old(rows), interval) ==> Spaced(rows, interval) && reason != Duplicate
    {
      if interval != 0 {
        var cutoff := now - interval * SECOND;
        if exists r :: r in rows && r >= cutoff {
          return Throttled;
        }
      }
      if now in rows {
        return Duplicate;
      }
      assert forall i :: 0 <= i < |rows| ==> rows[i] in rows;
      rows := rows + [now];
      return Created;
    }
  }

  /** Inserted in increasing order, and any two of them more than the interval apart. */
  ghost predicate Spaced(rows: seq<int>, interval: int) {
    forall i, j :: 0 <= i < j < |rows| ==> rows[i] < rows[j] && rows[i] + interval * SECOND < rows[j]
  }

  // ---- Interleavings of captures that are not atomic --------------------------------------------------------------

  /** Where a capture is. From `Locked` on it holds the row lock; `Inserted` is written but not yet committed. */
  datatype Phase = Idle | Waiting(now: int) | Locked(now: int) | Passed(now: int) | Inserted(now: int)

  datatype System = System(phases: seq<Phase>, rows: seq<int>)

  /** One capture moves: it picks its observation time, takes the lock, checks, inserts, commits, or dies. */
  datatype Step = Observe(id: nat, now: int) | TakeLock(id: nat) | Check(id: nat) | Insert(id: nat) | Commit(id: nat)
                | Die(id: nat)

  predicate Holds(p: Phase) { p.Locked? || p.Passed? || p.Inserted? }

  predicate LockFree(s: System) { forall p :: p in s.phases ==> !Holds(p) }

  /** A move that is not possible in a state leaves it as it is. Only committed rows are visible. */
  function Next(s: System, step: Step, interval: int): System {
    if step.id >= |s.phases| then s
    else
      var p := s.phases[step.id];
      match step
      case Observe(id, now) => if p.Idle? then s.(phases := s.phases[id := Waiting(now)]) else s
      case TakeLock(id) => if p.Waiting? && LockFree(s) then s.(phases := s.phases[id := Locked(p.now)]) else s
      case Check(id) =>
        if !p.Locked? then s
        else s.(phases := s.phases[id := if TooSoon(s.rows, p.now, interval) then Idle else Passed(p.now)])
      case Insert(id) =>
        if !p.Passed? then s
        else s.(phases := s.phases[id := if p.now in s.rows then Idle else Inserted(p.now)])
      case Commit(id) => if p.Inserted? then System(s.phases[id := Idle], s.rows + [p.now]) else s
      case Die(id) => s.(phases := s.phases[id := Idle])
  }

  /** A run of `n` workers, each repeatedly capturing, from an empty ledger. */
  function Run(n: nat, interval: int, steps: seq<Step>): System {
    if steps == [] then System(seq(n, i => Idle), [])
    else Next(Run(n, interval, steps[..|steps| - 1]), steps[|steps| - 1], interval)
  }

  /** At most one capture holds the lock, and one past its check is still past it: nothing was committed meanwhile. */
  ghost predicate Inv(s: System, interval: int) {
    && (forall i, j :: 0 <= i < j < |s.phases| ==> !(Holds(s.phases[i]) && Holds(s.phases[j])))
    && (forall i :: 0 <= i < |s.phases| && (s.phases[i].Passed? || s.phases[i].Inserted?) ==>
          !TooSoon(s.rows, s.phases[i].now, interval))
    && Spaced(s.rows, interval)
  }

  lemma NextKeepsInv(s: System, step: Step, interval: int)
    requires interval > 0 && Inv(s, interval)
    ensures Inv(Next(s, step, interval), interval)
  {
    var s' := Next(s, step, interval);
    if step.id < |s.phases| && step.TakeLock? {
      assert forall i :: 0 <= i < |s.phases| ==> s.phases[i] in s.phases;
    }
    if step.id < |s.phases| && step.Commit? && s.phases[step.id].Inserted? {
      var now := s.phases[step.id].now;
      assert forall i :: 0 <= i < |s.rows| ==> s.rows[i] in s.rows;
      assert s'.rows == s.rows + [now];
    }
  }

  lemma {:induction false} RunKeepsInv(n: nat, interval: int, steps: seq<Step>)
    requires interval > 0
    ensures Inv(Run(n, interval, steps), interval)
  {
    if steps != [] {
      RunKeepsInv(n, interval, steps[..|steps| - 1]);
      NextKeepsInv(Run(n, interval, steps[..|steps| - 1]), steps[|steps| - 1], interval);
    }
  }

  function OneCapture(now: int): seq<Step> {
    [Observe(0, now), TakeLock(0), Check(0), Insert(0), Commit(0)]
  }

  lemma RunAppend(n: nat, interval: int, steps: seq<Step>, step: Step)
    ensures Run(n, interval, steps + [step]) == Next(Run(n, interval, steps), step, interval)
  {
    assert (steps + [step])[..|steps|] == steps;
  }

  /** One worker alone in an idle system stores its observation, if the throttle and the constraint let it pass. */
  lemma CaptureStores(n: nat, interval: int, steps: seq<Step>, now: int)
    requires var s := Run(n, interval, steps);
             n == |s.phases| > 0 && (forall p :: p in s.phases ==> p == Idle) && !TooSoon(s.rows, now, interval)
                 && now !in s.rows
    ensures var s, s' := Run(n, interval, steps), Run(n, interval, steps + OneCapture(now));
            s'.phases == s.phases && s'.rows == s.rows + [now]
  {
    var s := Run(n, interval, steps);
    assert s.phases[0] in s.phases;
    RunAppend(n, interval, steps, Observe(0, now));
    var s1 := Next(s, Observe(0, now), interval);
    assert forall i :: 0 < i < |s1.phases| ==> s1.phases[i] == s.phases[i] && s.phases[i] in s.phases;
    RunAppend(n, interval, steps + [Observe(0, now)], TakeLock(0));
    RunAppend(n, interval, steps + [Observe(0, now)] + [TakeLock(0)], Check(0));
    RunAppend(n, interval, steps + [Observe(0, now)] + [TakeLock(0)] + [Check(0)], Insert(0));
    RunAppend(n, interval, steps + [Observe(0, now)] + [TakeLock(0)] + [Check(0)] + [Insert(0)], Commit(0));
    assert steps + OneCapture(now)
        == steps + [Observe(0, now)] + [TakeLock(0)] + [Check(0)] + [Insert(0)] + [Commit(0)];
    assert s.phases[0 := Idle] == s.phases;
  }

  /** Every interleaving of any number of workers stores spaced rows exactly when the interval is positive. */
  lemma SpacedExactlyWhenIntervalIsPositive(interval: int)
    ensures (forall n: nat, steps :: Spaced(Run(n, interval, steps).rows, interval)) <==> interval > 0
  {
    if interval > 0 {
      forall n: nat, steps ensures Spaced(Run(n, interval, steps).rows, interval) {
        RunKeepsInv(n, interval, steps);
      }
    } else {
      // A later observation first, an earlier one after it: nothing stops the second.
      assert Run(1, interval, []) == System([Idle], []);
      CaptureStores(1, interval, [], 10);
      var once := [] + OneCapture(10);
      CaptureStores(1, interval, once, 9);
      var rows := Run(1, interval, once + OneCapture(9)).rows;
      assert rows == [10, 9] && rows[0] == 10 && rows[1] == 9;
      assert !Spaced(rows, interval);
    }
  }
}
