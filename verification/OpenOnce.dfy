/** The re-entrant lock around MT5 access: a no-op unless threaded mode is on, released by the context that took it. */
module Mt5Lock {
  import opened Common

  type Thread = int

  /** A re-entrant lock: its owner and how often the owner has taken it. */
  datatype RLock = RLock(owner: Option<Thread>, depth: nat) {
    predicate Valid() {
      owner.None? <==> depth == 0
    }

    predicate FreeFor(t: Thread) {
      owner.None? || owner == Some(t)
    }

    function Taken(t: Thread): RLock {
      RLock(Some(t), depth + 1)
    }

    function Released(): RLock {
      if depth <= 1 then Unlocked else RLock(owner, depth - 1)
    }
  }

  const Unlocked: RLock := RLock(None, 0)

  /** One release undoes one acquisition, nested or not, and only the owner of a taken lock gets in again. */
  lemma ReleaseUndoesTake(l: RLock, t: Thread)
    requires l.Valid() && l.FreeFor(t)
    ensures l.Taken(t).Valid() && l.Taken(t).Released() == l
    ensures forall u :: l.Taken(t).FreeFor(u) <==> u == t
  {
  }

  class Lock {
    var state: RLock
    var lastClean: int

    constructor ()
      ensures state == Unlocked && lastClean == 0
    {
      state, lastClean := Unlocked, 0;
    }
  }

  /** The outcome of one attempt to enter: a blocking context that cannot get in keeps waiting, another one is busy. */
  datatype Entry = Entered | Waiting | Busy

  class Mt5Serialized {
    const lock: Lock
    const threaded: bool
    const block: bool
    const thread: Thread
    var held: bool

    ghost predicate Valid()
      reads this, lock
    {
      lock.state.Valid() && (held ==> threaded && lock.state.owner == Some(thread))
    }

    constructor (lock: Lock, threaded: bool, block: bool, thread: Thread)
      requires lock.state.Valid()
      ensures Valid() && !held
      ensures this.lock == lock && this.threaded == threaded && this.block == block && this.thread == thread
    {
      this.lock, this.threaded, this.block, this.thread := lock, threaded, block, thread;
      this.held := false;
    }

    /** Gets in exactly when the mode is off, the lock is free, or its owner comes again; otherwise nothing changes. */
    method Enter() returns (entry: Entry)
      requires Valid() && !held
      modifies this, lock
      ensures Valid() && lock.lastClean == old(lock.lastClean)
      ensures entry == if !threaded || old(lock.state).FreeFor(thread) then Entered else if block then Waiting else Busy
      ensures held <==> threaded && entry.Entered?
      ensures lock.state == if held then old(lock.state).Taken(thread) else old(lock.state)
    {
      if !threaded { return Entered; }
      if !lock.state.FreeFor(thread) {
        if block { return Waiting; }
        return Busy;
      }
      lock.state := lock.state.Taken(thread);
      held := true;
      return Entered;
    }

    /** Gives back exactly what `Enter` took; only a clean exit of a held lock stamps the liveness clock. */
    method Exit(clean: bool, now: int)
      requires Valid()
      modifies this, lock
      ensures Valid() && !held
      ensures lock.state == if old(held) then old(lock.state).Released() else old(lock.state)
      ensures lock.lastClean == if old(held) && clean then now else old(lock.lastClean)
    {
      if held {
        if clean { lock.lastClean := now; }
        lock.state := lock.state.Released();
        held := false;
      }
    }
  }
}

/**
 Opening orders under redelivery: the poll thread and any number of HTTP threads look for an open position carrying
 the order's comment and then send, both inside the lock and each behind a check of the account, while the broker
 closes positions, loses answers, makes positions visible late and may have its account switched. The interleaving is
 arbitrary, one MT5 call at a time.
 */
module OpenOnce {
  import opened Common
  import opened Mt5Lock

  const COMMENT_LIMIT: nat := 31

  function Truncated(comment: string): string {
    if |comment| > COMMENT_LIMIT then comment[..COMMENT_LIMIT] else comment
  }

  datatype OpenPosition = OpenPosition(ticket: int, comment: string)

  /** The search behind `Find`: a failed read, like an empty comment, finds nothing. */
  method FindExistingExecution(read: Option<seq<OpenPosition>>, comment: string) returns (r: Option<OpenPosition>)
    ensures r.Some? <==> Truncated(comment) != "" && read.Some?
                         && exists i :: 0 <= i < |read.value| && read.value[i].comment == Truncated(comment)
    ensures r.Some? ==> r.value in read.value && r.value.comment == Truncated(comment)
  {
    var c := Truncated(comment);
    if c == "" || read.None? { return None; }
    for i := 0 to |read.value|
      invariant forall j :: 0 <= j < i ==> read.value[j].comment != c
    {
      if read.value[i].comment == c { return Some(read.value[i]); }
    }
    return None;
  }

  type Account = int

  datatype Phase =
    | Idle
    | Queued(comment: string)
    | Inside(comment: string)
    | Checked(comment: string)
    | Ready(comment: string)
    | Cleared(comment: string)
    | Leaving

  /** `open` counts the visible positions per account and stored comment, `inFlight` the sent orders not yet visible. */
  datatype State = State(open: multiset<(Account, string)>, inFlight: multiset<(Account, string)>, active: Account,
                         lock: RLock, phases: map<Thread, Phase>) {
    function Phase(t: Thread): Phase {
      if t in phases then phases[t] else Idle
    }

    predicate Entered(t: Thread) {
      !Phase(t).Idle? && !Phase(t).Queued?
    }

    /** The thread has searched for its comment without finding it and may still send. */
    predicate Armed(t: Thread) {
      Phase(t).Ready? || Phase(t).Cleared?
    }

    /** The comment of the order that the thread is handling. */
    function Comment(t: Thread): string {
      var phase := Phase(t);
      if phase.Idle? || phase.Leaving? then "" else phase.comment
    }
  }

  /** A sent order is visible at once, never fills, or becomes visible later. */
  datatype Landing = Now | Never | Later

  /** `Check` is the identity check, made on entry and again right before the send. */
  datatype Step =
    | Deliver(t: Thread, comment: string)
    | Acquire(t: Thread)
    | Check(t: Thread)
    | Find(t: Thread, readSucceeds: bool)
    | Abort(t: Thread)
    | Send(t: Thread, landing: Landing)
    | Release(t: Thread)
    | BecomesVisible(account: Account, comment: string)
    | PositionCloses(account: Account, comment: string)
    | OthersOpen(account: Account)
    | SwitchAccount(account: Account)

  datatype Moves = Anytime | BetweenOrders | NoMoves

  /** The circumstances that the guard relies on, and the accounts that the order with a comment may be sent to: all of
      them for an order without a pin, one for a full pin, some for half of one. */
  datatype Config = Config(threaded: bool, readsSucceed: bool, landsAtOnce: bool, moves: Moves,
                           admits: (string, Account) -> bool)

  function Initial(account: Account): State {
    State(multiset{}, multiset{}, account, Unlocked, map[])
  }

  ghost predicate Enabled(cfg: Config, s: State, step: Step) {
    match step
    case Deliver(t, _) => s.Phase(t).Idle?
    case Acquire(t) => s.Phase(t).Queued? && (cfg.threaded ==> s.lock.FreeFor(t))
    case Check(t) => s.Phase(t).Inside? || s.Phase(t).Ready?
    case Find(t, readSucceeds) => s.Phase(t).Checked? && (cfg.readsSucceed ==> readSucceeds)
    case Abort(t) => s.Entered(t)
    case Send(t, landing) => s.Phase(t).Cleared? && (cfg.landsAtOnce ==> !landing.Later?)
    case Release(t) => s.Phase(t).Leaving?
    case BecomesVisible(account, comment) => (account, comment) in s.inFlight
    case PositionCloses(_, _) => true
    case OthersOpen(_) => true
    case SwitchAccount(_) =>
      cfg.moves.Anytime? || (cfg.moves.BetweenOrders? && forall t :: t in s.phases ==> !s.Entered(t))
  }

  function Apply(cfg: Config, s: State, step: Step): State {
    match step
    case Deliver(t, comment) => s.(phases := s.phases[t := Queued(Truncated(comment))])
    case Acquire(t) =>
      s.(lock := if cfg.threaded then s.lock.Taken(t) else s.lock,
         phases := s.phases[t := Inside(s.Comment(t))])
    case Check(t) =>
      var c := s.Comment(t);
      s.(phases := s.phases[t := if !cfg.admits(c, s.active) then Leaving
                                 else if s.Phase(t).Inside? then Checked(c) else Cleared(c)])
    case Find(t, readSucceeds) =>
      var c := s.Comment(t);
      var found := c != "" && readSucceeds && (s.active, c) in s.open;
      s.(phases := s.phases[t := if found then Leaving else Ready(c)])
    case Abort(t) => s.(phases := s.phases[t := Leaving])
    case Send(t, landing) =>
      var order := (s.active, s.Comment(t));
      s.(open := if landing.Now? then s.open + multiset{order} else s.open,
         inFlight := if landing.Later? then s.inFlight + multiset{order} else s.inFlight,
         phases := s.phases[t := Leaving])
    case Release(t) => s.(lock := if cfg.threaded then s.lock.Released() else s.lock, phases := s.phases[t := Idle])
    case BecomesVisible(account, comment) =>
      s.(open := s.open + multiset{(account, comment)}, inFlight := s.inFlight - multiset{(account, comment)})
    case PositionCloses(account, comment) => s.(open := s.open - multiset{(account, comment)})
    case OthersOpen(account) => s.(open := s.open + multiset{(account, "")})
    case SwitchAccount(account) => s.(active := account)
  }

  ghost predicate Run(cfg: Config, s: State, steps: seq<Step>)
    decreases |steps|
  {
    steps == [] || (Enabled(cfg, s, steps[0]) && Run(cfg, Apply(cfg, s, steps[0]), steps[1..]))
  }

  function Final(cfg: Config, s: State, steps: seq<Step>): State
    decreases |steps|
  {
    if steps == [] then s else Final(cfg, Apply(cfg, s, steps[0]), steps[1..])
  }

  /** At most one open position per account and non-empty comment. */
  ghost predicate OnePerAccount(s: State) {
    forall a, c :: c != "" ==> s.open[(a, c)] <= 1
  }

  /** At most one open position per non-empty comment, over all accounts. */
  ghost predicate OneOverall(s: State) {
    OnePerAccount(s) && forall a, b, c :: c != "" && (a, c) in s.open && (b, c) in s.open ==> a == b
  }

  /** If the thread may still send, no position on the active account has its comment. */
  predicate ArmedRightly(s: State, t: Thread) {
    s.Armed(t) && s.Comment(t) != "" ==> s.open[(s.active, s.Comment(t))] == 0
  }

  /** Nothing is in flight, whoever is inside holds the lock, and whoever has searched has no open position with its
      comment on the active account. */
  ghost predicate Inv(s: State) {
    && OnePerAccount(s) && s.inFlight == multiset{} && s.lock.Valid()
    && (forall t :: s.Entered(t) ==> s.lock == RLock(Some(t), 1))
    && (s.lock.owner.Some? ==> s.Entered(s.lock.owner.value))
    && (forall t :: ArmedRightly(s, t))
  }

  ghost predicate Guarded(cfg: Config) {
    cfg.threaded && cfg.readsSucceed && cfg.landsAtOnce && !cfg.moves.Anytime?
  }

  lemma SendKeepsInv(cfg: Config, s: State, step: Step)
    requires Guarded(cfg) && Inv(s) && Enabled(cfg, s, step) && step.Send?
    ensures Inv(Apply(cfg, s, step))
  {
    var s' := Apply(cfg, s, step);
    var c := s.Comment(step.t);
    assert forall t :: t != step.t ==> s'.Phase(t) == s.Phase(t);
    assert s.Entered(step.t) && forall t :: t != step.t ==> !s.Entered(t);
    assert s.Armed(step.t) && ArmedRightly(s, step.t);
    if step.landing.Now? {
      assert forall k :: s'.open[k] == s.open[k] + if k == (s.active, c) then 1 else 0;
    }
    forall t ensures ArmedRightly(s', t) {
      assert ArmedRightly(s, t) && (s.Armed(t) ==> s.Entered(t));
    }
  }

  lemma LockStepKeepsInv(cfg: Config, s: State, step: Step)
    requires Guarded(cfg) && Inv(s) && Enabled(cfg, s, step)
    requires step.Acquire? || step.Release?
    ensures Inv(Apply(cfg, s, step))
  {
    var s' := Apply(cfg, s, step);
    assert forall t :: t != step.t ==> s'.Phase(t) == s.Phase(t);
    assert step.Acquire? ==> s.lock == Unlocked && forall t :: !s.Entered(t);
    assert step.Release? ==> s.Entered(step.t) && forall t :: t != step.t ==> !s.Entered(t);
    forall t ensures ArmedRightly(s', t) {
      assert ArmedRightly(s, t);
    }
  }

  lemma PhaseStepKeepsInv(cfg: Config, s: State, step: Step)
    requires Guarded(cfg) && Inv(s) && Enabled(cfg, s, step)
    requires step.Deliver? || step.Check? || step.Find? || step.Abort?
    ensures Inv(Apply(cfg, s, step))
  {
    var s' := Apply(cfg, s, step);
    var c := s.Comment(step.t);
    assert forall t :: t != step.t ==> s'.Phase(t) == s.Phase(t);
    assert !step.Deliver? ==> s.Entered(step.t) && forall t :: t != step.t ==> !s.Entered(t);
    if step.Find? && s'.Armed(step.t) && c != "" { assert (s.active, c) !in s.open; }
    forall t ensures ArmedRightly(s', t) {
      assert ArmedRightly(s, t);
    }
  }

  /** Nothing becomes wrong while no commented position is added. */
  lemma SamePhases(s: State, s': State)
    requires s'.phases == s.phases && s'.active == s.active && (forall t :: ArmedRightly(s, t))
    requires forall a, c :: c != "" ==> s'.open[(a, c)] <= s.open[(a, c)]
    ensures forall t :: s'.Phase(t) == s.Phase(t) && ArmedRightly(s', t)
  {
    forall t ensures s'.Phase(t) == s.Phase(t) && ArmedRightly(s', t) {
      assert ArmedRightly(s, t);
    }
  }

  lemma OutsideStepKeepsInv(cfg: Config, s: State, step: Step)
    requires Guarded(cfg) && Inv(s) && Enabled(cfg, s, step)
    requires step.SwitchAccount? || step.PositionCloses? || step.OthersOpen? || step.BecomesVisible?
    ensures Inv(Apply(cfg, s, step))
  {
    var s' := Apply(cfg, s, step);
    if step.SwitchAccount? {
      forall t ensures ArmedRightly(s', t) {
        assert s.Armed(t) ==> t in s.phases && s.Entered(t);
      }
    } else {
      assert forall k :: step.PositionCloses? ==> s'.open[k] <= s.open[k];
      assert forall k :: step.OthersOpen? ==> s'.open[k] == s.open[k] + if k == (step.account, "") then 1 else 0;
      SamePhases(s, s');
    }
    assert forall t :: s'.Phase(t) == s.Phase(t);
  }

  lemma StepKeepsInv(cfg: Config, s: State, step: Step)
    requires Guarded(cfg) && Inv(s) && Enabled(cfg, s, step)
    ensures Inv(Apply(cfg, s, step))
  {
    hide Inv, Apply, Enabled;
    match step
    case Send(_, _) => SendKeepsInv(cfg, s, step);
    case Acquire(_) => LockStepKeepsInv(cfg, s, step);
    case Release(_) => LockStepKeepsInv(cfg, s, step);
    case Deliver(_, _) => PhaseStepKeepsInv(cfg, s, step);
    case Check(_) => PhaseStepKeepsInv(cfg, s, step);
    case Find(_, _) => PhaseStepKeepsInv(cfg, s, step);
    case Abort(_) => PhaseStepKeepsInv(cfg, s, step);
    case _ => OutsideStepKeepsInv(cfg, s, step);
  }

  lemma {:induction false} RunKeepsInv(cfg: Config, s: State, steps: seq<Step>)
    requires Guarded(cfg) && Inv(s) && Run(cfg, s, steps)
    ensures Inv(Final(cfg, s, steps))
    decreases |steps|
  {
    if steps != [] {
      StepKeepsInv(cfg, s, steps[0]);
      RunKeepsInv(cfg, Apply(cfg, s, steps[0]), steps[1..]);
    }
  }

  /** Every commented position, visible or in flight, is on the active account. */
  ghost predicate AllHere(s: State) {
    forall a, c :: c != "" && ((a, c) in s.open || (a, c) in s.inFlight) ==> a == s.active
  }

  lemma StepKeepsAllHere(cfg: Config, s: State, step: Step)
    requires cfg.moves.NoMoves? && AllHere(s) && Enabled(cfg, s, step)
    ensures AllHere(Apply(cfg, s, step))
  {
  }

  /** While the account is never switched, every commented position is on it. */
  lemma {:induction false} RunKeepsAllHere(cfg: Config, s: State, steps: seq<Step>)
    requires cfg.moves.NoMoves? && AllHere(s) && Run(cfg, s, steps)
    ensures AllHere(Final(cfg, s, steps))
    decreases |steps|
  {
    if steps != [] {
      StepKeepsAllHere(cfg, s, steps[0]);
      RunKeepsAllHere(cfg, Apply(cfg, s, steps[0]), steps[1..]);
    }
  }

  ghost predicate HandledRightly(cfg: Config, s: State, t: Thread) {
    && Truncated(s.Comment(t)) == s.Comment(t)
    && (s.Phase(t).Cleared? ==> cfg.admits(s.Comment(t), s.active))
  }

  /** Every commented position is on an account that its order may be sent to, and whoever may send is on one now;
      comments are stored truncated. */
  ghost predicate AllAdmitted(cfg: Config, s: State) {
    && (forall a, c :: c != "" && ((a, c) in s.open || (a, c) in s.inFlight) ==> cfg.admits(c, a) && Truncated(c) == c)
    && forall t :: HandledRightly(cfg, s, t)
  }

  lemma StepKeepsAllAdmitted(cfg: Config, s: State, step: Step)
    requires !cfg.moves.Anytime? && AllAdmitted(cfg, s) && Enabled(cfg, s, step)
    ensures AllAdmitted(cfg, Apply(cfg, s, step))
  {
    var s' := Apply(cfg, s, step);
    forall t ensures HandledRightly(cfg, s', t) {
      assert HandledRightly(cfg, s, t);
      assert step.SwitchAccount? && s.Phase(t).Cleared? ==> t in s.phases && s.Entered(t);
    }
    if step.Send? { assert HandledRightly(cfg, s, step.t); }
  }

  /** While the account is not switched under a thread, orders only end up on accounts that they may be sent to. */
  lemma {:induction false} RunKeepsAllAdmitted(cfg: Config, s: State, steps: seq<Step>)
    requires !cfg.moves.Anytime? && AllAdmitted(cfg, s) && Run(cfg, s, steps)
    ensures AllAdmitted(cfg, Final(cfg, s, steps))
    decreases |steps|
  {
    if steps != [] {
      StepKeepsAllAdmitted(cfg, s, steps[0]);
      RunKeepsAllAdmitted(cfg, Apply(cfg, s, steps[0]), steps[1..]);
    }
  }

  ghost predicate OpensOncePerAccount(cfg: Config) {
    forall account, steps :: Run(cfg, Initial(account), steps) ==> OnePerAccount(Final(cfg, Initial(account), steps))
  }

  ghost predicate OpensOnceOverall(cfg: Config) {
    forall account, steps :: Run(cfg, Initial(account), steps) ==> OneOverall(Final(cfg, Initial(account), steps))
  }

  // ---- Duplicating runs -------------------------------------------------------------------------------------------

  /** Puts one enabled step in front of a run. */
  lemma Prepend(cfg: Config, s: State, step: Step, rest: seq<Step>) returns (steps: seq<Step>)
    requires Enabled(cfg, s, step) && Run(cfg, Apply(cfg, s, step), rest)
    ensures Run(cfg, s, steps) && Final(cfg, s, steps) == Final(cfg, Apply(cfg, s, step), rest)
  {
    steps := [step] + rest;
    assert steps[1..] == rest;
  }

  lemma LastStep(cfg: Config, s: State, step: Step) returns (steps: seq<Step>)
    requires Enabled(cfg, s, step)
    ensures Run(cfg, s, steps) && Final(cfg, s, steps) == Apply(cfg, s, step)
  {
    steps := Prepend(cfg, s, step, []);
  }

  ghost predicate Quiescent(s: State) {
    s.lock == Unlocked && forall t :: t in s.phases ==> s.phases[t].Idle?
  }

  /** What one delivery leaves behind when its order lands as given. */
  function Delivered(s: State, comment: string, landing: Landing): State {
    var order := multiset{(s.active, comment)};
    s.(open := if landing.Now? then s.open + order else s.open,
       inFlight := if landing.Later? then s.inFlight + order else s.inFlight,
       phases := s.phases[0 := Idle])
  }

  /** The second check, the send and the release of a thread that is ready. */
  lemma SendAndLeave(cfg: Config, s: State, comment: string, landing: Landing, rest: seq<Step>)
    returns (steps: seq<Step>)
    requires s.Phase(0) == Ready(comment) && cfg.admits(comment, s.active) && (cfg.landsAtOnce ==> !landing.Later?)
    requires var cleared := s.(phases := s.phases[0 := Cleared(comment)]);
             Run(cfg, Apply(cfg, Apply(cfg, cleared, Send(0, landing)), Release(0)), rest)
    ensures var cleared := s.(phases := s.phases[0 := Cleared(comment)]);
            && Run(cfg, s, steps)
            && Final(cfg, s, steps)
                 == Final(cfg, Apply(cfg, Apply(cfg, cleared, Send(0, landing)), Release(0)), rest)
  {
    hide Run, Final;
    var cleared := Apply(cfg, s, Check(0));
    var sent := Apply(cfg, cleared, Send(0, landing));
    steps := Prepend(cfg, sent, Release(0), rest);
    steps := Prepend(cfg, cleared, Send(0, landing), steps);
    steps := Prepend(cfg, s, Check(0), steps);
  }

  /** One delivery, from the wait for the lock to its release, on a state where nobody is inside. */
  lemma DeliverOnce(cfg: Config, s: State, comment: string, readSucceeds: bool, landing: Landing, rest: seq<Step>)
    returns (steps: seq<Step>)
    requires Quiescent(s) && Truncated(comment) == comment && cfg.admits(comment, s.active)
    requires (cfg.readsSucceed ==> readSucceeds) && (cfg.landsAtOnce ==> !landing.Later?)
    requires comment == "" || !readSucceeds || (s.active, comment) !in s.open
    requires Run(cfg, Delivered(s, comment, landing), rest)
    ensures Run(cfg, s, steps) && Final(cfg, s, steps) == Final(cfg, Delivered(s, comment, landing), rest)
  {
    hide Run, Final;
    var s1 := Apply(cfg, s, Deliver(0, comment));
    var s2 := Apply(cfg, s1, Acquire(0));
    var s3 := Apply(cfg, s2, Check(0));
    var s4 := Apply(cfg, s3, Find(0, readSucceeds));
    assert s4 == s.(lock := s2.lock, phases := s.phases[0 := Ready(comment)]);
    LeavesDelivered(cfg, s, s4.(phases := s4.phases[0 := Cleared(comment)]), comment, landing);
    steps := SendAndLeave(cfg, s4, comment, landing, rest);
    steps := Prepend(cfg, s3, Find(0, readSucceeds), steps);
    steps := Prepend(cfg, s2, Check(0), steps);
    steps := Prepend(cfg, s1, Acquire(0), steps);
    steps := Prepend(cfg, s, Deliver(0, comment), steps);
  }

  lemma LeavesDelivered(cfg: Config, s: State, cleared: State, comment: string, landing: Landing)
    requires Quiescent(s)
    requires cleared == s.(lock := if cfg.threaded then s.lock.Taken(0) else s.lock,
                           phases := s.phases[0 := Cleared(comment)])
    ensures Apply(cfg, Apply(cfg, cleared, Send(0, landing)), Release(0)) == Delivered(s, comment, landing)
  {
    var left := Apply(cfg, Apply(cfg, cleared, Send(0, landing)), Release(0));
    assert left.phases == Delivered(s, comment, landing).phases;
  }

  /** A comment that is stored as it is and whose order may be sent to the account. */
  predicate Passes(cfg: Config, account: Account, comment: string) {
    comment != "" && Truncated(comment) == comment && cfg.admits(comment, account)
  }

  function Once(account: Account, comment: string): State {
    Delivered(Initial(account), comment, Now)
  }

  /** A failed position read counts as "no match", so a redelivery opens a second position. */
  lemma FailedReadDuplicates(cfg: Config, a: Account, c: string) returns (steps: seq<Step>)
    requires !cfg.readsSucceed && Passes(cfg, a, c)
    ensures Run(cfg, Initial(a), steps) && Final(cfg, Initial(a), steps).open[(a, c)] == 2
  {
    steps := DeliverOnce(cfg, Once(a, c), c, false, Now, []);
    steps := DeliverOnce(cfg, Initial(a), c, true, Now, steps);
  }

  /** An order whose answer is lost and whose position is not yet visible: the redelivery finds nothing and sends
      again. */
  lemma LateLandingDuplicates(cfg: Config, a: Account, c: string) returns (steps: seq<Step>)
    requires !cfg.landsAtOnce && Passes(cfg, a, c)
    ensures Run(cfg, Initial(a), steps) && Final(cfg, Initial(a), steps).open[(a, c)] == 2
  {
    var sent := Delivered(Initial(a), c, Later);
    var both := Delivered(sent, c, Now);
    steps := LastStep(cfg, both, BecomesVisible(a, c));
    hide Run, Final;
    steps := DeliverOnce(cfg, sent, c, true, Now, steps);
    steps := DeliverOnce(cfg, Initial(a), c, true, Later, steps);
  }

  /** If the account is switched away for the search and back for the second check, the search looks at the wrong book;
      the checks do not notice. */
  lemma SwitchedAccountDuplicates(cfg: Config, a: Account, c: string) returns (steps: seq<Step>)
    requires cfg.moves.Anytime? && Passes(cfg, a, c)
    ensures Run(cfg, Initial(a), steps) && Final(cfg, Initial(a), steps).open[(a, c)] == 2
  {
    hide Run, Final;
    var once := Once(a, c);
    var taken := once.(lock := if cfg.threaded then Unlocked.Taken(0) else Unlocked);
    var searched := taken.(phases := once.phases[0 := Ready(c)]);
    var cleared := taken.(phases := once.phases[0 := Cleared(c)]);
    steps := LastStep(cfg, cleared, Send(0, Now));
    assert Apply(cfg, searched, Check(0)) == cleared;
    steps := Prepend(cfg, searched, Check(0), steps);
    steps := SearchElsewhere(cfg, once, taken, a, c, steps);
    steps := DeliverOnce(cfg, Initial(a), c, true, Now, steps);
  }

  /** Checked at home, searched on another account, and back home before the second check. */
  lemma SearchElsewhere(cfg: Config, once: State, taken: State, a: Account, c: string, rest: seq<Step>)
    returns (steps: seq<Step>)
    requires cfg.moves.Anytime? && Passes(cfg, a, c) && once == Once(a, c)
    requires taken == once.(lock := if cfg.threaded then Unlocked.Taken(0) else Unlocked)
    requires Run(cfg, taken.(phases := once.phases[0 := Ready(c)]), rest)
    ensures Run(cfg, once, steps)
    ensures Final(cfg, once, steps) == Final(cfg, taken.(phases := once.phases[0 := Ready(c)]), rest)
  {
    hide Run, Final;
    var s1 := once.(phases := once.phases[0 := Queued(c)]);
    var s2 := taken.(phases := once.phases[0 := Inside(c)]);
    var s3 := taken.(phases := once.phases[0 := Checked(c)]);
    var s4 := s3.(active := a + 1);
    var s5 := s4.(phases := once.phases[0 := Ready(c)]);
    assert (a + 1, c) !in once.open;
    assert Apply(cfg, s5, SwitchAccount(a)) == taken.(phases := once.phases[0 := Ready(c)]);
    steps := Prepend(cfg, s5, SwitchAccount(a), rest);
    assert Apply(cfg, s4, Find(0, true)) == s5;
    steps := Prepend(cfg, s4, Find(0, true), steps);
    assert Apply(cfg, s3, SwitchAccount(a + 1)) == s4;
    steps := Prepend(cfg, s3, SwitchAccount(a + 1), steps);
    assert Apply(cfg, s2, Check(0)) == s3;
    steps := Prepend(cfg, s2, Check(0), steps);
    assert Apply(cfg, s1, Acquire(0)) == s2;
    steps := Prepend(cfg, s1, Acquire(0), steps);
    assert Apply(cfg, once, Deliver(0, c)) == s1;
    steps := Prepend(cfg, once, Deliver(0, c), steps);
  }

  /** Switched between two deliveries, an order that may be sent to two accounts is open on both. */
  lemma SwitchBetweenOrdersOpensTwice(cfg: Config, a: Account, b: Account, c: string) returns (steps: seq<Step>)
    requires !cfg.moves.NoMoves? && Passes(cfg, a, c) && Passes(cfg, b, c) && a != b
    ensures Run(cfg, Initial(a), steps)
    ensures (a, c) in Final(cfg, Initial(a), steps).open && (b, c) in Final(cfg, Initial(a), steps).open
  {
    var moved := Apply(cfg, Once(a, c), SwitchAccount(b));
    steps := DeliverOnce(cfg, moved, c, true, Now, []);
    steps := Prepend(cfg, Once(a, c), SwitchAccount(b), steps);
    steps := DeliverOnce(cfg, Initial(a), c, true, Now, steps);
  }

  /** A thread's delivery up to its second check, on a state whose lock is a no-op. */
  lemma ClearOne(cfg: Config, s: State, t: Thread, c: string, rest: seq<Step>) returns (steps: seq<Step>)
    requires !cfg.threaded && s.Phase(t).Idle? && Passes(cfg, s.active, c) && (s.active, c) !in s.open
    requires Run(cfg, s.(phases := s.phases[t := Cleared(c)]), rest)
    ensures Run(cfg, s, steps) && Final(cfg, s, steps) == Final(cfg, s.(phases := s.phases[t := Cleared(c)]), rest)
  {
    hide Run, Final;
    var s1 := Apply(cfg, s, Deliver(t, c));
    var s2 := Apply(cfg, s1, Acquire(t));
    var s3 := Apply(cfg, s2, Check(t));
    var s4 := Apply(cfg, s3, Find(t, true));
    assert s4 == s.(phases := s.phases[t := Ready(c)]);
    assert Apply(cfg, s4, Check(t)) == s.(phases := s.phases[t := Cleared(c)]);
    steps := Prepend(cfg, s4, Check(t), rest);
    steps := Prepend(cfg, s3, Find(t, true), steps);
    steps := Prepend(cfg, s2, Check(t), steps);
    steps := Prepend(cfg, s1, Acquire(t), steps);
    steps := Prepend(cfg, s, Deliver(t, c), steps);
  }

  /** Without the lock two deliveries search before either sends. */
  lemma UnlockedDuplicates(cfg: Config, a: Account, c: string) returns (steps: seq<Step>)
    requires !cfg.threaded && Passes(cfg, a, c)
    ensures Run(cfg, Initial(a), steps) && Final(cfg, Initial(a), steps).open[(a, c)] == 2
  {
    var s1 := Initial(a).(phases := map[1 := Cleared(c)]);
    var s2 := s1.(phases := s1.phases[2 := Cleared(c)]);
    assert Initial(a).phases[1 := Cleared(c)] == s1.phases;
    var s3 := Apply(cfg, s2, Send(1, Now));
    assert s2.Phase(1) == Cleared(c) && s3.Phase(2) == Cleared(c) && s3.open == multiset{(a, c)};
    steps := LastStep(cfg, s3, Send(2, Now));
    hide Run, Final;
    steps := Prepend(cfg, s2, Send(1, Now), steps);
    steps := ClearOne(cfg, s1, 2, c, steps);
    steps := ClearOne(cfg, Initial(a), 1, c, steps);
  }

  lemma Duplicates(cfg: Config, a: Account, c: string) returns (steps: seq<Step>)
    requires !Guarded(cfg) && Passes(cfg, a, c)
    ensures Run(cfg, Initial(a), steps) && !OnePerAccount(Final(cfg, Initial(a), steps))
  {
    if !cfg.threaded {
      steps := UnlockedDuplicates(cfg, a, c);
    } else if !cfg.readsSucceed {
      steps := FailedReadDuplicates(cfg, a, c);
    } else if !cfg.landsAtOnce {
      steps := LateLandingDuplicates(cfg, a, c);
    } else {
      steps := SwitchedAccountDuplicates(cfg, a, c);
    }
  }

  // ---- When orders are opened at most once ------------------------------------------------------------------------

  /**
   As soon as some commented order may be sent to some account: no run opens a second position on one account for a
   non-empty comment exactly when the lock is on, position reads succeed, a filled order is visible at once, and the
   account is not switched while a thread is inside. Dropping any one of the four admits a duplicating run.
   */
  lemma OpensAtMostOnceExactlyWhenGuarded(cfg: Config, account: Account, comment: string)
    requires Passes(cfg, account, comment)
    ensures OpensOncePerAccount(cfg) <==> Guarded(cfg)
  {
    if Guarded(cfg) {
      forall a, steps | Run(cfg, Initial(a), steps) ensures OnePerAccount(Final(cfg, Initial(a), steps)) {
        RunKeepsInv(cfg, Initial(a), steps);
      }
    } else {
      var steps := Duplicates(cfg, account, comment);
      assert !OnePerAccount(Final(cfg, Initial(account), steps));
    }
  }

  /** No commented order may be sent to two accounts. */
  ghost predicate Pinned(cfg: Config) {
    forall a, b, c :: Passes(cfg, a, c) && Passes(cfg, b, c) ==> a == b
  }

  lemma GuardedOpensOnceOverall(cfg: Config, a: Account, steps: seq<Step>)
    requires Guarded(cfg) && (cfg.moves.NoMoves? || Pinned(cfg)) && Run(cfg, Initial(a), steps)
    ensures OneOverall(Final(cfg, Initial(a), steps))
  {
    hide Run, Final;
    RunKeepsInv(cfg, Initial(a), steps);
    if cfg.moves.NoMoves? {
      RunKeepsAllHere(cfg, Initial(a), steps);
    } else {
      RunKeepsAllAdmitted(cfg, Initial(a), steps);
      var s := Final(cfg, Initial(a), steps);
      forall x, y, c | c != "" && (x, c) in s.open && (y, c) in s.open ensures x == y {
        assert Passes(cfg, x, c) && Passes(cfg, y, c);
      }
    }
  }

  /** Over all accounts together, exactly when moreover the account is never switched or no order may be sent to two. */
  lemma OpensAtMostOnceOverallExactly(cfg: Config, account: Account, comment: string)
    requires Passes(cfg, account, comment)
    ensures OpensOnceOverall(cfg) <==> Guarded(cfg) && (cfg.moves.NoMoves? || Pinned(cfg))
  {
    hide Run, Final;
    if !Guarded(cfg) {
      var steps := Duplicates(cfg, account, comment);
      assert !OneOverall(Final(cfg, Initial(account), steps));
    } else if !cfg.moves.NoMoves? && !Pinned(cfg) {
      var a, b, c :| Passes(cfg, a, c) && Passes(cfg, b, c) && a != b;
      var steps := SwitchBetweenOrdersOpensTwice(cfg, a, b, c);
      assert !OneOverall(Final(cfg, Initial(a), steps));
    } else {
      forall a, steps | Run(cfg, Initial(a), steps) ensures OneOverall(Final(cfg, Initial(a), steps)) {
        GuardedOpensOnceOverall(cfg, a, steps);
      }
    }
  }

  /** An empty comment, which the poll path lets through, is not guarded at all: a full guard still opens twice. */
  lemma EmptyCommentOpensTwice(cfg: Config, a: Account) returns (steps: seq<Step>)
    requires Guarded(cfg) && cfg.admits("", a)
    ensures Run(cfg, Initial(a), steps) && Final(cfg, Initial(a), steps).open[(a, "")] == 2
  {
    steps := DeliverOnce(cfg, Once(a, ""), "", true, Now, []);
    steps := DeliverOnce(cfg, Initial(a), "", true, Now, steps);
  }
}
