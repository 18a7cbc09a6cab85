/** The append-only store of daily FX observations, its revision numbering under concurrent writers, and its save
    guard. */
module FxStore {
  import opened Common

  /** What identifies a group of revisions. */
  datatype Key = Key(source: string, base: string, quote: string, date: int)

  datatype Observation = Observation(key: Key, revision: nat, checksum: string, rate: real)

  type Rows = seq<Observation>

  function Group(rows: Rows, key: Key): Rows {
    if rows == [] then []
    else
      var front, last := Group(rows[..|rows| - 1], key), rows[|rows| - 1];
      if last.key == key then front + [last] else front
  }

  lemma GroupAppend(rows: Rows, o: Observation, key: Key)
    ensures Group(rows + [o], key) == if o.key == key then Group(rows, key) + [o] else Group(rows, key)
  {
    assert (rows + [o])[..|rows|] == rows;
  }

  /** The group is numbered 1, 2, ... in the order of its commits, and no payload is stored twice. */
  ghost predicate Numbered(group: Rows) {
    && (forall i :: 0 <= i < |group| ==> group[i].revision == i + 1)
    && forall i, j :: 0 <= i < j < |group| ==> group[i].checksum != group[j].checksum
  }

  ghost predicate AllNumbered(rows: Rows) {
    forall key :: Numbered(Group(rows, key))
  }

  function MaxRevision(group: Rows): nat {
    if group == [] then 0
    else
      var front, last := MaxRevision(group[..|group| - 1]), group[|group| - 1].revision;
      if last > front then last else front
  }

  predicate HasChecksum(group: Rows, checksum: string) {
    exists o :: o in group && o.checksum == checksum
  }

  predicate HasRevision(group: Rows, revision: nat) {
    exists o :: o in group && o.revision == revision
  }

  lemma {:induction false} MaxRevisionCounts(group: Rows)
    requires Numbered(group)
    ensures MaxRevision(group) == |group|
    ensures forall r: nat :: HasRevision(group, r) <==> 1 <= r <= |group|
  {
    if group != [] {
      var front := group[..|group| - 1];
      MaxRevisionCounts(front);
      forall r: nat ensures HasRevision(group, r) <==> 1 <= r <= |group| {
        if 1 <= r <= |group| { assert group[r - 1] in group && group[r - 1].revision == r; }
      }
    }
  }

  // ---- One append, undisturbed ------------------------------------------------------------------------------------

  datatype Appended = AlreadyStored | Written(revision: nat)

  class Store {
    var rows: Rows

    constructor ()
      ensures rows == [] && AllNumbered(rows)
    {
      rows := [];
    }

    /** What runs under the advisory lock: look for the payload, number the revision, insert. */
    method AppendObservation(key: Key, checksum: string, rate: real) returns (r: Appended)
      requires AllNumbered(rows)
      modifies this
      ensures AllNumbered(rows) && old(rows) <= rows
      ensures r == AlreadyStored <==> HasChecksum(Group(old(rows), key), checksum)
      ensures r == AlreadyStored ==> rows == old(rows)
      ensures r.Written? ==> r.revision == |Group(old(rows), key)| + 1
                             && rows == old(rows) + [Observation(key, r.revision, checksum, rate)]
    {
      var group := Group(rows, key);
      if HasChecksum(group, checksum) {
        return AlreadyStored;
      }
      assert Numbered(group);
      MaxRevisionCounts(group);
      var next := MaxRevision(group) + 1;
      ghost var o := Observation(key, next, checksum, rate);
      AppendKeepsNumbering(rows, o);
      rows := rows + [Observation(key, next, checksum, rate)];
      return Written(next);
    }
  }

  lemma AppendKeepsNumbering(rows: Rows, o: Observation)
    requires AllNumbered(rows) && o.revision == |Group(rows, o.key)| + 1
    requires !HasChecksum(Group(rows, o.key), o.checksum)
    ensures AllNumbered(rows + [o])
  {
    forall key ensures Numbered(Group(rows + [o], key)) {
      var group := Group(rows, key);
      assert Numbered(group);
      GroupAppend(rows, o, key);
      assert forall i :: 0 <= i < |group| ==> group[i] in group;
    }
  }

  // ---- Interleaved appends ----------------------------------------------------------------------------------------

  datatype Request = Request(key: Key, checksum: string, rate: real)

  /** Where a writer's transaction is; `Pending` is inserted but not committed, and invisible to others. */
  datatype Phase = Idle | Asking(req: Request) | Holding(req: Request) | Allocated(req: Request, revision: nat)
                 | Pending(row: Observation)

  /** `refused` counts the inserts that a unique constraint turned down. */
  datatype System = System(phases: seq<Phase>, rows: Rows, refused: nat)

  datatype Step = Begin(id: nat,
                        req: Request) | TakeLock(id: nat) | Allocate(id: nat) | Insert(id: nat) | Commit(id: nat)
                | Rollback(id: nat)

  /** The advisory lock is taken on a hash of the key: different keys may share a lock, one key has one lock. */
  type Hash = Key -> int

  function KeyOf(p: Phase): Key
    requires !p.Idle?
  {
    if p.Pending? then p.row.key else p.req.key
  }

  predicate Holds(p: Phase) { p.Holding? || p.Allocated? || p.Pending? }

  predicate Locked(s: System, lock: int, hash: Hash) {
    exists p :: p in s.phases && Holds(p) && hash(KeyOf(p)) == lock
  }

  /** An insert waits for an uncommitted row that it would collide with. */
  predicate Blocked(s: System, row: Observation) {
    exists p :: p in s.phases && p.Pending? && p.row.key == row.key
                && (p.row.revision == row.revision || p.row.checksum == row.checksum)
  }

  predicate Violates(rows: Rows, row: Observation) {
    HasRevision(Group(rows, row.key), row.revision) || HasChecksum(Group(rows, row.key), row.checksum)
  }

  function NewRow(req: Request, revision: nat): Observation {
    Observation(req.key, revision, req.checksum, req.rate)
  }

  function To(s: System, id: nat, p: Phase): System
    requires id < |s.phases|
  {
    s.(phases := s.phases[id := p])
  }

  /** A step that is not possible in a state leaves it as it is. With `locking` off the advisory lock does nothing. */
  function Next(s: System, step: Step, hash: Hash, locking: bool): System {
    if step.id >= |s.phases| then s
    else
      var id, p := step.id, s.phases[step.id];
      match step
      case Begin(_, req) => if p.Idle? then To(s, id, Asking(req)) else s
      case TakeLock(_) =>
        if p.Asking? && !(locking && Locked(s, hash(p.req.key), hash)) then To(s, id, Holding(p.req)) else s
      case Allocate(_) =>
        if !p.Holding? then s
        else
          var group := Group(s.rows, p.req.key);
          To(s, id, if HasChecksum(group, p.req.checksum) then Idle else Allocated(p.req, MaxRevision(group) + 1))
      case Insert(_) =>
        if !p.Allocated? || Blocked(s, NewRow(p.req, p.revision)) then s
        else
          var row := NewRow(p.req, p.revision);
          if Violates(s.rows, row) then To(s, id, Idle).(refused := s.refused + 1) else To(s, id, Pending(row))
      case Commit(_) => if p.Pending? then To(s, id, Idle).(rows := s.rows + [p.row]) else s
      case Rollback(_) => To(s, id, Idle)
  }

  function Run(n: nat, steps: seq<Step>, hash: Hash, locking: bool): System {
    if steps == [] then System(seq(n, i => Idle), [], 0)
    else Next(Run(n, steps[..|steps| - 1], hash, locking), steps[|steps| - 1], hash, locking)
  }

  /** A number handed out was free at some time: it is at most one beyond the group. A pending row is exactly the next
      one of its group, and the only pending row there. */
  ghost predicate PhaseOk(rows: Rows, p: Phase) {
    && (p.Allocated? ==> 1 <= p.revision <= |Group(rows, p.req.key)| + 1)
    && (p.Pending? ==>
          && p.row.revision == |Group(rows, p.row.key)| + 1
          && !HasChecksum(Group(rows, p.row.key), p.row.checksum))
  }

  ghost predicate Inv(s: System) {
    && AllNumbered(s.rows)
    && (forall i :: 0 <= i < |s.phases| ==> PhaseOk(s.rows, s.phases[i]))
    && forall i, j :: 0 <= i < j < |s.phases| && s.phases[i].Pending? && s.phases[j].Pending? ==>
         s.phases[i].row.key != s.phases[j].row.key
  }

  lemma CommitKeepsInv(s: System, id: nat)
    requires Inv(s) && id < |s.phases| && s.phases[id].Pending?
    ensures Inv(To(s, id, Idle).(rows := s.rows + [s.phases[id].row]))
  {
    var row := s.phases[id].row;
    AppendKeepsNumbering(s.rows, row);
    forall i | 0 <= i < |s.phases| && i != id ensures PhaseOk(s.rows + [row], s.phases[i]) {
      var p := s.phases[i];
      if !p.Idle? { GroupAppend(s.rows, row, KeyOf(p)); }
    }
  }

  lemma InsertKeepsInv(s: System, id: nat)
    requires Inv(s) && id < |s.phases| && s.phases[id].Allocated?
    requires var row := NewRow(s.phases[id].req, s.phases[id].revision); !Blocked(s, row) && !Violates(s.rows, row)
    ensures Inv(To(s, id, Pending(NewRow(s.phases[id].req, s.phases[id].revision))))
  {
    var row := NewRow(s.phases[id].req, s.phases[id].revision);
    assert Numbered(Group(s.rows, row.key));
    MaxRevisionCounts(Group(s.rows, row.key));
    assert row.revision == |Group(s.rows, row.key)| + 1;
    forall i | 0 <= i < |s.phases| && s.phases[i].Pending? ensures s.phases[i].row.key != row.key {
      assert s.phases[i] in s.phases;
    }
  }

  lemma NextKeepsInv(s: System, step: Step, hash: Hash, locking: bool)
    requires Inv(s)
    ensures Inv(Next(s, step, hash, locking)) && s.rows <= Next(s, step, hash, locking).rows
  {
    if step.id < |s.phases| {
      var p := s.phases[step.id];
      match step
      case Begin(_, _) =>
      case TakeLock(_) =>
      case Allocate(_) =>
        if p.Holding? {
          assert Numbered(Group(s.rows, p.req.key));
          MaxRevisionCounts(Group(s.rows, p.req.key));
        }
      case Insert(id) =>
        if p.Allocated? && !Blocked(s, NewRow(p.req, p.revision)) && !Violates(s.rows, NewRow(p.req, p.revision)) {
          InsertKeepsInv(s, id);
        }
      case Commit(id) => if p.Pending? { CommitKeepsInv(s, id); }
      case Rollback(_) =>
    }
  }

  lemma EmptyInv(n: nat)
    ensures Inv(System(seq(n, i => Idle), [], 0))
  {
    assert forall key :: Group([], key) == [];
  }

  /** Every interleaving of any number of writers keeps every group numbered 1..n with distinct payloads. The unique
      constraints alone ensure it: it holds with the lock and without. */
  lemma {:induction false} GroupsStayNumbered(n: nat, steps: seq<Step>, hash: Hash, locking: bool)
    ensures Inv(Run(n, steps, hash, locking))
  {
    if steps == [] {
      EmptyInv(n);
    } else {
      GroupsStayNumbered(n, steps[..|steps| - 1], hash, locking);
      NextKeepsInv(Run(n, steps[..|steps| - 1], hash, locking), steps[|steps| - 1], hash, locking);
    }
  }

  /** Rows once stored stay, in place and unchanged, however the run continues. */
  lemma {:induction false} OldRowsStay(n: nat, steps: seq<Step>, more: seq<Step>, hash: Hash, locking: bool)
    ensures Run(n, steps, hash, locking).rows <= Run(n, steps + more, hash, locking).rows
  {
    if more == [] {
      assert steps + more == steps;
    } else {
      var front, last := more[..|more| - 1], more[|more| - 1];
      OldRowsStay(n, steps, front, hash, locking);
      assert (steps + more)[..|steps + more| - 1] == steps + front && (steps + more)[|steps + more| - 1] == last;
      GroupsStayNumbered(n, steps + front, hash, locking);
      NextKeepsInv(Run(n, steps + front, hash, locking), last, hash, locking);
    }
  }

  // ---- What the lock adds: no append is ever refused --------------------------------------------------------------

  /** A number handed out under the lock is still the next one, and its payload still new. */
  ghost predicate Fresh(rows: Rows, p: Phase) {
    p.Allocated? ==> p.revision == |Group(rows, p.req.key)| + 1 && !HasChecksum(Group(rows, p.req.key), p.req.checksum)
  }

  ghost predicate LockInv(s: System, hash: Hash) {
    && Inv(s) && s.refused == 0
    && (forall i :: 0 <= i < |s.phases| ==> Fresh(s.rows, s.phases[i]))
    && forall i, j :: 0 <= i < j < |s.phases| && Holds(s.phases[i]) && Holds(s.phases[j]) ==>
         hash(KeyOf(s.phases[i])) != hash(KeyOf(s.phases[j]))
  }

  lemma LockedCommit(s: System, id: nat, hash: Hash)
    requires LockInv(s, hash) && id < |s.phases| && s.phases[id].Pending?
    ensures LockInv(To(s, id, Idle).(rows := s.rows + [s.phases[id].row]), hash)
  {
    CommitKeepsInv(s, id);
    var row := s.phases[id].row;
    forall i | 0 <= i < |s.phases| && i != id ensures Fresh(s.rows + [row], s.phases[i]) {
      var p := s.phases[i];
      if p.Allocated? {
        assert Holds(p) && Holds(s.phases[id]) && hash(KeyOf(p)) != hash(row.key);
        GroupAppend(s.rows, row, p.req.key);
      }
    }
  }

  lemma RowsStayNumbered(s: System)
    requires Inv(s)
    ensures AllNumbered(s.rows)
  {
  }

  lemma LockedNext(s: System, step: Step, hash: Hash)
    requires LockInv(s, hash)
    ensures LockInv(Next(s, step, hash, true), hash)
  {
    hide Inv;
    RowsStayNumbered(s);
    NextKeepsInv(s, step, hash, true);
    if step.id < |s.phases| {
      var p := s.phases[step.id];
      match step
      case Begin(_, _) =>
      case TakeLock(_) =>
        assert forall i :: 0 <= i < |s.phases| ==> s.phases[i] in s.phases;
      case Allocate(_) =>
        if p.Holding? {
          assert Numbered(Group(s.rows, p.req.key));
          MaxRevisionCounts(Group(s.rows, p.req.key));
        }
      case Insert(_) =>
        if p.Allocated? {
          assert Numbered(Group(s.rows, p.req.key));
          MaxRevisionCounts(Group(s.rows, p.req.key));
          assert !Violates(s.rows, NewRow(p.req, p.revision));
        }
      case Commit(id) => if p.Pending? { LockedCommit(s, id, hash); }
      case Rollback(_) =>
    }
  }

  lemma {:induction false} LockedRunNeverRefuses(n: nat, steps: seq<Step>, hash: Hash)
    ensures LockInv(Run(n, steps, hash, true), hash)
  {
    if steps == [] {
      EmptyInv(n);
    } else {
      LockedRunNeverRefuses(n, steps[..|steps| - 1], hash);
      LockedNext(Run(n, steps[..|steps| - 1], hash, true), steps[|steps| - 1], hash);
    }
  }

  lemma RunAppend(n: nat, steps: seq<Step>, step: Step, hash: Hash, locking: bool)
    ensures Run(n, steps + [step], hash, locking) == Next(Run(n, steps, hash, locking), step, hash, locking)
  {
    assert (steps + [step])[..|steps|] == steps;
  }

  /** Two first ingestions of one key that both read before either commits. */
  function Race(req: Request, req': Request): seq<Step> {
    [Begin(0, req)] + [Begin(1, req')] + [TakeLock(0)] + [TakeLock(1)] + [Allocate(0)] + [Allocate(1)] + [Insert(0)]
    + [Commit(0)] + [Insert(1)]
  }

  function BothAllocate(req: Request, req': Request): seq<Step> {
    [Begin(0, req)] + [Begin(1, req')] + [TakeLock(0)] + [TakeLock(1)] + [Allocate(0)] + [Allocate(1)]
  }

  lemma BothHold(req: Request, req': Request, hash: Hash)
    ensures Run(2, [Begin(0, req)] + [Begin(1, req')] + [TakeLock(0)] + [TakeLock(1)], hash, false)
         == System([Holding(req), Holding(req')], [], 0)
  {
    var both := [Begin(0, req)] + [Begin(1, req')];
    assert Run(2, [], hash, false) == System([Idle, Idle], [], 0) && [] + [Begin(0, req)] == [Begin(0, req)];
    RunAppend(2, [], Begin(0, req), hash, false);
    RunAppend(2, [Begin(0, req)], Begin(1, req'), hash, false);
    assert Run(2, both, hash, false) == System([Asking(req), Asking(req')], [], 0);
    RunAppend(2, both, TakeLock(0), hash, false);
    RunAppend(2, both + [TakeLock(0)], TakeLock(1), hash, false);
  }

  lemma BothGetOne(req: Request, req': Request, hash: Hash)
    ensures Run(2, BothAllocate(req, req'), hash, false) == System([Allocated(req, 1), Allocated(req', 1)], [], 0)
  {
    var steps := [Begin(0, req)] + [Begin(1, req')] + [TakeLock(0)] + [TakeLock(1)];
    BothHold(req, req', hash);
    RunAppend(2, steps, Allocate(0), hash, false);
    RunAppend(2, steps + [Allocate(0)], Allocate(1), hash, false);
    assert Group([], req.key) == [] && Group([], req'.key) == [];
  }

  lemma FirstCommits(req: Request, req': Request, hash: Hash)
    ensures Run(2, BothAllocate(req, req') + [Insert(0)] + [Commit(0)], hash, false)
         == System([Idle, Allocated(req', 1)], [NewRow(req, 1)], 0)
  {
    var steps := BothAllocate(req, req');
    BothGetOne(req, req', hash);
    RunAppend(2, steps, Insert(0), hash, false);
    RunAppend(2, steps + [Insert(0)], Commit(0), hash, false);
    assert Group([], req.key) == [] && [] + [NewRow(req, 1)] == [NewRow(req, 1)];
  }

  lemma SameNumberViolates(row: Observation, row': Observation)
    requires row.key == row'.key && row.revision == row'.revision
    ensures Violates([row], row')
  {
    assert [] + [row] == [row];
    GroupAppend([], row, row.key);
    assert row in Group([row], row.key);
  }

  lemma UnlockedRaceIsRefused(req: Request, req': Request, hash: Hash)
    requires req.key == req'.key && req.checksum != req'.checksum
    ensures Run(2, Race(req, req'), hash, false).refused == 1
  {
    var steps := BothAllocate(req, req') + [Insert(0)] + [Commit(0)];
    FirstCommits(req, req', hash);
    SameNumberViolates(NewRow(req, 1), NewRow(req', 1));
    RunAppend(2, steps, Insert(1), hash, false);
    assert Race(req, req') == steps + [Insert(1)];
  }

  /** No constraint ever turns an append down exactly when the advisory lock is in place. */
  lemma NeverRefusedExactlyWithLock(hash: Hash, locking: bool)
    ensures (forall n: nat, steps :: Run(n, steps, hash, locking).refused == 0) <==> locking
  {
    if locking {
      forall n: nat, steps ensures Run(n, steps, hash, locking).refused == 0 {
        LockedRunNeverRefuses(n, steps, hash);
      }
    } else {
      var key := Key("FED_H10", "GBP", "USD", 0);
      var req, req' := Request(key, "a", 1.0), Request(key, "b", 1.0);
      UnlockedRaceIsRefused(req, req', hash);
      assert Run(2, Race(req, req'), hash, locking).refused != 0;
    }
  }

  // ---- The guard on editing stored rows ---------------------------------------------------------------------------

  /** The fields that may still be edited once a row is stored. */
  datatype Notes = Notes(accepted: bool, sourceUrl: string, rawLine: string)
  datatype Stored = Stored(observation: Observation, notes: Notes)
  datatype SaveResult = Saved(id: nat) | EditRefused

  /** What can be asked of the stored rows; the database gives an object without an id one that no row has. */
  datatype Edit = SaveRow(id: Option<nat>, newId: nat, row: Stored) | DeleteRow(gone: nat)

  predicate Refused(rows: map<nat, Stored>, e: Edit) {
    e.DeleteRow? || (e.id.Some? && e.id.value in rows && rows[e.id.value].observation != e.row.observation)
  }

  function Edited(rows: map<nat, Stored>, e: Edit): map<nat, Stored> {
    if Refused(rows, e) then rows else rows[(if e.id.Some? then e.id.value else e.newId) := e.row]
  }

  class Table {
    var rows: map<nat, Stored>

    /** An object without an id is inserted; one with an id may not change an immutable field of its stored row. */
    method Save(id: Option<nat>, newId: nat, row: Stored) returns (r: SaveResult)
      requires newId !in rows
      modifies this
      ensures rows == Edited(old(rows), SaveRow(id, newId, row))
      ensures r == EditRefused <==>
              id.Some? && id.value in old(rows)
              && old(rows)[id.value].observation != row.observation
      ensures r == EditRefused ==> rows == old(rows)
      ensures r.Saved? ==> r.id == (if id.Some? then id.value else newId) && rows == old(rows)[r.id := row]
      ensures Untouched(old(rows), rows)
    {
      if id.Some? && id.value in rows {
        if rows[id.value].observation != row.observation {
          return EditRefused;
        }
      }
      var at := if id.Some? then id.value else newId;
      rows := rows[at := row];
      return Saved(at);
    }

    /** Deleting through the model is always refused. */
    method Delete(id: nat) returns (r: SaveResult)
      ensures r == EditRefused && rows == Edited(rows, DeleteRow(id))
    {
      return EditRefused;
    }
  }

  /** No stored row disappears or changes what was observed. */
  ghost predicate Untouched(rows: map<nat, Stored>, rows': map<nat, Stored>) {
    forall id :: id in rows ==> id in rows' && rows'[id].observation == rows[id].observation
  }

  function EditedAll(rows: map<nat, Stored>, edits: seq<Edit>): map<nat, Stored>
    decreases |edits|
  {
    if edits == [] then rows else EditedAll(Edited(rows, edits[0]), edits[1..])
  }

  /** Objects without an id get one that is free at their turn. */
  ghost predicate FreshIds(rows: map<nat, Stored>, edits: seq<Edit>)
    decreases |edits|
  {
    edits != [] ==>
      && (edits[0].SaveRow? ==> edits[0].newId !in rows)
      && FreshIds(Edited(rows, edits[0]), edits[1..])
  }

  /** Whatever is saved or deleted, in any order: no stored row ever disappears or changes what was observed. */
  lemma {:induction false} EditsLeaveRowsUntouched(rows: map<nat, Stored>, edits: seq<Edit>)
    requires FreshIds(rows, edits)
    ensures Untouched(rows, EditedAll(rows, edits))
    decreases |edits|
  {
    if edits != [] {
      EditsLeaveRowsUntouched(Edited(rows, edits[0]), edits[1..]);
      assert Untouched(rows, Edited(rows, edits[0]));
    }
  }
}
