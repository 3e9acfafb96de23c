/** Row locks of open batches, what was sent for each row, and how failed
    attempts are spaced. */
module Dispatching {
  import opened Entities
  import opened OutboxQuery
  import opened Pipeline
  import opened Creation
  import Backoff

  // ---- Locks

  ghost predicate WellShaped(b: Batch, now: real) {
    && Distinct(b.rows)
    && b.pos <= |b.rows|
    && (b.pos == |b.rows| ==> b.stage == NextRow)
    && b.writes.Keys == Elements(b.rows[..b.pos])
    && b.snapshot.Keys == Elements(b.rows)
    && b.fetchedAt <= now
  }

  /** The batch holds the lock of each of its rows and sees the row unchanged. */
  ghost predicate Holds(b: Batch, d: nat, locks: map<RowId, nat>, outbox: map<RowId, Row>) {
    forall r | r in b.rows ::
      && r in locks && locks[r] == d
      && r in outbox && outbox[r].status == RowPending
      && r in b.snapshot && b.snapshot[r] == outbox[r].attempts
      && outbox[r].nextAttemptAt <= b.fetchedAt
  }

  ghost predicate LocksHeld(locks: map<RowId, nat>, batches: map<nat, Batch>, outbox: map<RowId, Row>, now: real) {
    && Owned(locks, batches)
    && (forall d | d in batches :: WellShaped(batches[d], now) && Holds(batches[d], d, locks, outbox))
  }

  ghost predicate Locked(s: State) {
    LocksHeld(s.locks, s.batches, s.outbox, s.now)
  }

  lemma LocksGrow(locks: map<RowId, nat>, batches: map<nat, Batch>, outbox: map<RowId, Row>, now: real,
                  outbox': map<RowId, Row>, now': real)
    requires LocksHeld(locks, batches, outbox, now) && now <= now'
    requires forall r | r in locks && r in outbox :: r in outbox' && outbox'[r] == outbox[r]
    ensures LocksHeld(locks, batches, outbox', now')
  {
    forall d | d in batches ensures Holds(batches[d], d, locks, outbox') {
      assert Holds(batches[d], d, locks, outbox);
    }
  }

  lemma NewBatchHolds(s: State, d: nat, rows: seq<RowId>, limit: nat)
    requires IsFetch(s.outbox, s.locks.Keys, s.now, limit, rows)
    ensures Holds(OpenBatch(s, d, rows).batches[d], d, Lock(s.locks, rows, d), s.outbox)
  {
    forall r | r in rows ensures r in s.outbox && Due(s.outbox[r], s.now) {
      assert r in Candidates(s.outbox, s.locks.Keys, s.now);
    }
  }

  lemma NewBatchShape(s: State, d: nat, rows: seq<RowId>, limit: nat)
    requires IsFetch(s.outbox, s.locks.Keys, s.now, limit, rows)
    ensures WellShaped(OpenBatch(s, d, rows).batches[d], s.now)
  {
    var b := OpenBatch(s, d, rows).batches[d];
    assert b.rows[..0] == [];
    forall r | r in Elements(rows) ensures r in s.outbox {
      assert r in Candidates(s.outbox, s.locks.Keys, s.now);
    }
    assert b.snapshot.Keys == Elements(rows);
  }

  lemma OldBatchHolds(b: Batch, k: nat, locks: map<RowId, nat>, outbox: map<RowId, Row>, rows: seq<RowId>, d: nat)
    requires Holds(b, k, locks, outbox)
    requires forall r | r in rows :: r !in locks
    ensures Holds(b, k, Lock(locks, rows, d), outbox)
  {
  }

  ghost predicate Owned(locks: map<RowId, nat>, batches: map<nat, Batch>) {
    forall r | r in locks :: locks[r] in batches && r in batches[locks[r]].rows
  }

  lemma OwnedOpen(locks: map<RowId, nat>, batches: map<nat, Batch>, d: nat, b: Batch)
    requires Owned(locks, batches) && d !in batches
    ensures Owned(Lock(locks, b.rows, d), batches[d := b])
  {
  }

  lemma LocksOpen(s: State, d: nat, rows: seq<RowId>, limit: nat)
    requires Locked(s) && d !in s.batches && IsFetch(s.outbox, s.locks.Keys, s.now, limit, rows)
    ensures Locked(OpenBatch(s, d, rows))
  {
    var t := OpenBatch(s, d, rows);
    NewBatchHolds(s, d, rows, limit);
    NewBatchShape(s, d, rows, limit);
    OwnedOpen(s.locks, s.batches, d, t.batches[d]);
    FetchedUnlocked(s, rows, limit);
    forall k | k in t.batches ensures WellShaped(t.batches[k], t.now) && Holds(t.batches[k], k, t.locks, t.outbox) {
      if k != d {
        OldBatchHolds(s.batches[k], k, s.locks, s.outbox, rows, d);
      }
    }
  }

  lemma FetchedUnlocked(s: State, rows: seq<RowId>, limit: nat)
    requires IsFetch(s.outbox, s.locks.Keys, s.now, limit, rows)
    ensures forall r | r in rows :: r !in s.locks
  {
    forall r | r in rows ensures r !in s.locks {
      assert r in Candidates(s.outbox, s.locks.Keys, s.now);
    }
  }

  lemma LocksSet(s: State, d: nat, b: Batch)
    requires Locked(s) && d in s.batches && WellShaped(b, s.now)
    requires b.rows == s.batches[d].rows && b.snapshot == s.batches[d].snapshot && b.fetchedAt == s.batches[d].fetchedAt
    ensures Locked(SetBatch(s, d, b))
  {
    assert Holds(s.batches[d], d, s.locks, s.outbox);
  }

  lemma LocksClose(s: State, d: nat)
    requires Locked(s) && d in s.batches
    ensures Locked(CloseBatch(s, d))
  {
    var t := CloseBatch(s, d);
    assert Holds(s.batches[d], d, s.locks, s.outbox);
    forall k | k in t.batches ensures Holds(t.batches[k], k, t.locks, s.outbox) {
      assert Holds(s.batches[k], k, s.locks, s.outbox);
    }
  }

  lemma AdvanceShape(b: Batch, w: Write, now: real)
    requires WellShaped(b, now) && b.pos < |b.rows|
    ensures WellShaped(Advance(b, w), now)
  {
    assert b.rows[..b.pos + 1] == b.rows[..b.pos] + [b.rows[b.pos]];
  }

  lemma LockedDispatch(c: Config, s: State, d: nat, a: DispatchStep)
    requires Locked(s) && WellFormed(s.broker) && DispatchEnabled(c, s, d, a) && SendsKnown(s, d)
    ensures Locked(DispatchNext(c, s, d, a))
  {
    match a
    case Fetch(rows) => LocksOpen(s, d, rows, c.batchSize);
    case PublishRow(accepted, raised, error) =>
      LocksSet(s, d, s.batches[d].(stage := if raised then Raised(accepted, error) else Sent));
    case MarkRow =>
      AdvanceShape(s.batches[d], Mark(s.now), s.now);
      LocksSet(s, d, Advance(s.batches[d], Mark(s.now)));
    case MarkRaises(error) => LocksSet(s, d, s.batches[d].(stage := Raised(true, error)));
    case BumpRow =>
      AdvanceShape(s.batches[d], BumpWrite(c, s, s.batches[d]), s.now);
      LocksSet(s, d, Advance(s.batches[d], BumpWrite(c, s, s.batches[d])));
    case CommitBatch =>
      LocksClose(s, d);
      var t := CloseBatch(s, d);
      LocksGrow(t.locks, t.batches, t.outbox, t.now, Apply(t.outbox, s.batches[d].writes), t.now);
    case AbortBatch => LocksClose(s, d);
  }

  lemma LockedStep(c: Config, s: State, step: Step)
    requires Created(s) && Locked(s) && Enabled(c, s, step)
    ensures Locked(Next(c, s, step))
  {
    match step
    case Api(r, a) =>
      if a.Commit? {
        FreshIdsNotStored(s, r);
        LocksGrow(s.locks, s.batches, s.outbox, s.now, Store(s, s.requests[r]).outbox, s.now);
      } else {
        ApiKeepsTables(s, r, a);
      }
    case Dispatch(d, a) => LockedDispatch(c, s, d, a);
    case Handle(h, a) => HandlerKeeps(c, s, h, a);
    case Expire(n) =>
    case Tick(t) => LocksGrow(s.locks, s.batches, s.outbox, s.now, s.outbox, t);
  }

  // ---- What was sent for each row

  ghost function InFlight(locks: map<RowId, nat>, batches: map<nat, Batch>, r: RowId): nat {
    if r in locks && locks[r] in batches then AcceptedIn(batches[locks[r]], r) else 0
  }

  ghost function PublishedCount(row: Row): nat {
    if row.status == RowPublished then 1 else 0
  }

  ghost predicate SendsOf(s: State, r: RowId) {
    && r in s.outbox && r in s.log.sends && r in s.log.rolledBack && r in s.log.doubtful
    && s.log.sends[r] == PublishedCount(s.outbox[r]) + s.log.rolledBack[r] + s.log.doubtful[r]
                         + InFlight(s.locks, s.batches, r)
  }

  /** Every message the broker accepted for a row is accounted for: the row is
      published, or the batch was rolled back, or the publish raised although
      the broker had accepted it, or the batch is still open. */
  ghost predicate SendsAccounted(s: State) {
    forall r | r in s.outbox :: SendsOf(s, r)
  }

  lemma StageAccepts(b: Batch, stage: Stage, now: real, r: RowId)
    requires WellShaped(b, now) && b.pos < |b.rows|
    ensures r != b.rows[b.pos] ==> AcceptedIn(b.(stage := stage), r) == AcceptedIn(b, r)
    ensures AcceptedIn(b.(stage := stage), b.rows[b.pos])
         == (match stage case NextRow => 0 case Sent => 1 case Raised(accepted, _) => if accepted then 1 else 0)
  {
    CurrentRowUnwritten(b, now);
  }

  lemma InFlightStage(s: State, d: nat, stage: Stage, r: RowId)
    requires Locked(s) && AtRow(s, d) && s.batches[d].stage == NextRow
    ensures var b := s.batches[d];
            InFlight(s.locks, s.batches[d := b.(stage := stage)], r)
            == InFlight(s.locks, s.batches, r)
               + if r == b.rows[b.pos] then AcceptedIn(b.(stage := stage), r) else 0
  {
    var b := s.batches[d];
    StageAccepts(b, stage, s.now, r);
    StageAccepts(b, NextRow, s.now, r);
    assert b.(stage := NextRow) == b;
    assert b.rows[b.pos] in b.rows;
    UnlockedRows(s, d, r);
  }

  lemma SendsPublish(s: State, d: nat, accepted: bool, raised: bool, error: string)
    requires Locked(s) && SendsAccounted(s) && WellFormed(s.broker)
    requires AtRow(s, d) && SendsKnown(s, d) && s.batches[d].stage == NextRow && (accepted || raised)
    ensures SendsAccounted(PublishNext(s, d, accepted, if raised then Raised(accepted, error) else Sent))
  {
    var stage := if raised then Raised(accepted, error) else Sent;
    var b := s.batches[d];
    StageAccepts(b, stage, s.now, b.rows[b.pos]);
    if accepted {
      SendsAccepted(s, d, stage);
    } else {
      SendsRefused(s, d, stage);
    }
  }

  lemma SendsAccepted(s: State, d: nat, stage: Stage)
    requires Locked(s) && SendsAccounted(s) && WellFormed(s.broker)
    requires AtRow(s, d) && SendsKnown(s, d) && s.batches[d].stage == NextRow
    requires AcceptedIn(s.batches[d].(stage := stage), s.batches[d].rows[s.batches[d].pos]) == 1
    ensures SendsAccounted(PublishNext(s, d, true, stage))
  {
    forall r | r in s.outbox ensures SendsOf(PublishNext(s, d, true, stage), r) {
      assert SendsOf(s, r);
      InFlightStage(s, d, stage, r);
    }
  }

  lemma SendsRefused(s: State, d: nat, stage: Stage)
    requires Locked(s) && SendsAccounted(s) && WellFormed(s.broker)
    requires AtRow(s, d) && SendsKnown(s, d) && s.batches[d].stage == NextRow
    requires AcceptedIn(s.batches[d].(stage := stage), s.batches[d].rows[s.batches[d].pos]) == 0
    ensures SendsAccounted(PublishNext(s, d, false, stage))
  {
    forall r | r in s.outbox ensures SendsOf(PublishNext(s, d, false, stage), r) {
      assert SendsOf(s, r);
      InFlightStage(s, d, stage, r);
    }
  }

  lemma CurrentRowUnwritten(b: Batch, now: real)
    requires WellShaped(b, now) && b.pos < |b.rows|
    ensures b.rows[b.pos] !in b.writes
  {
  }

  /** Replacing a batch by one that accounts for the same sends. */
  lemma SendsSet(s: State, d: nat, b: Batch)
    requires SendsAccounted(s) && d in s.batches
    requires forall r :: AcceptedIn(b, r) == AcceptedIn(s.batches[d], r)
    ensures SendsAccounted(SetBatch(s, d, b))
  {
    forall r | r in s.outbox ensures SendsOf(SetBatch(s, d, b), r) {
      assert SendsOf(s, r);
    }
  }

  lemma AdvanceAccepts(b: Batch, w: Write, now: real)
    requires WellShaped(b, now) && b.pos < |b.rows|
    requires (b.stage == Sent && w.Mark?) || (b.stage.Raised? && w.Bump? && w.accepted == b.stage.accepted)
    ensures forall r :: AcceptedIn(Advance(b, w), r) == AcceptedIn(b, r)
  {
    CurrentRowUnwritten(b, now);
    forall r ensures AcceptedIn(Advance(b, w), r) == AcceptedIn(b, r) {
      if b.pos + 1 < |b.rows| && b.rows[b.pos + 1] == r {
        assert r != b.rows[b.pos];
      }
    }
  }

  lemma SendsOpen(s: State, d: nat, rows: seq<RowId>, limit: nat)
    requires Locked(s) && SendsAccounted(s)
    requires d !in s.batches && IsFetch(s.outbox, s.locks.Keys, s.now, limit, rows)
    ensures SendsAccounted(OpenBatch(s, d, rows))
  {
    var t := OpenBatch(s, d, rows);
    FetchedUnlocked(s, rows, limit);
    forall r | r in s.outbox ensures SendsOf(t, r) {
      assert SendsOf(s, r);
      InFlightOpen(s, d, rows, r);
    }
  }

  lemma InFlightOpen(s: State, d: nat, rows: seq<RowId>, r: RowId)
    requires Locked(s) && d !in s.batches
    requires forall q | q in rows :: q !in s.locks
    ensures var t := OpenBatch(s, d, rows);
            InFlight(t.locks, t.batches, r) == InFlight(s.locks, s.batches, r)
  {
    var t := OpenBatch(s, d, rows);
    assert AcceptedIn(t.batches[d], r) == 0;
    if r in s.locks {
      assert s.locks[r] in s.batches;
    }
  }

  lemma UnlockedRows(s: State, d: nat, r: RowId)
    requires Locked(s) && d in s.batches
    ensures r in s.batches[d].rows <==> r in s.locks && s.locks[r] == d
    ensures r in s.batches[d].rows ==> r in s.outbox && s.outbox[r].status == RowPending
  {
    assert Holds(s.batches[d], d, s.locks, s.outbox);
  }

  lemma InFlightClose(s: State, d: nat, r: RowId)
    requires Locked(s) && d in s.batches
    ensures var t := CloseBatch(s, d);
            InFlight(t.locks, t.batches, r)
            == if r in s.batches[d].rows then 0 else InFlight(s.locks, s.batches, r)
  {
    UnlockedRows(s, d, r);
  }

  /** The counts of a written row before and after the commit of its batch. */
  lemma CommitMovesCount(row: Row, b: Batch, r: RowId, doubtful: map<RowId, nat>)
    requires r in b.writes && r in doubtful && row.status == RowPending
    ensures PublishedCount(Written(row, b.writes[r])) + CountDoubtful(doubtful, b.writes)[r]
            == PublishedCount(row) + doubtful[r] + AcceptedIn(b, r)
  {
    match b.writes[r]
    case Mark(_) =>
    case Bump(_, _, _, _) =>
  }

  lemma SendsCommitWritten(s: State, d: nat, r: RowId)
    requires Locked(s) && d in s.batches && SendsOf(s, r) && r in s.batches[d].writes && r in s.batches[d].rows
    ensures SendsOf(CommitWrites(CloseBatch(s, d), s.batches[d].writes), r)
  {
    UnlockedRows(s, d, r);
    InFlightClose(s, d, r);
    CommitMovesCount(s.outbox[r], s.batches[d], r, s.log.doubtful);
  }

  lemma SendsCommitOther(s: State, d: nat, r: RowId)
    requires Locked(s) && d in s.batches && SendsOf(s, r) && r !in s.batches[d].writes && r !in s.batches[d].rows
    ensures SendsOf(CommitWrites(CloseBatch(s, d), s.batches[d].writes), r)
  {
    InFlightClose(s, d, r);
  }

  lemma CommittedRowsWritten(s: State, d: nat, r: RowId)
    requires Locked(s) && d in s.batches && s.batches[d].pos == |s.batches[d].rows|
    ensures r in s.batches[d].rows <==> r in s.batches[d].writes
  {
    var b := s.batches[d];
    assert b.rows[..b.pos] == b.rows;
  }

  lemma SendsCommitRow(s: State, d: nat, r: RowId)
    requires Locked(s) && d in s.batches && s.batches[d].pos == |s.batches[d].rows|
    requires SendsOf(s, r)
    ensures SendsOf(CommitWrites(CloseBatch(s, d), s.batches[d].writes), r)
  {
    CommittedRowsWritten(s, d, r);
    if r in s.batches[d].writes {
      SendsCommitWritten(s, d, r);
    } else {
      SendsCommitOther(s, d, r);
    }
  }

  lemma SendsCommit(s: State, d: nat)
    requires Locked(s) && SendsAccounted(s) && d in s.batches && s.batches[d].pos == |s.batches[d].rows|
    ensures SendsAccounted(CommitWrites(CloseBatch(s, d), s.batches[d].writes))
  {
    forall r | r in s.outbox ensures SendsOf(CommitWrites(CloseBatch(s, d), s.batches[d].writes), r) {
      SendsCommitRow(s, d, r);
    }
  }

  lemma SendsAbort(s: State, d: nat)
    requires Locked(s) && SendsAccounted(s) && d in s.batches
    ensures SendsAccounted(CountAbort(CloseBatch(s, d), s.batches[d]))
  {
    var t := CountAbort(CloseBatch(s, d), s.batches[d]);
    forall r | r in t.outbox ensures SendsOf(t, r) {
      assert SendsOf(s, r);
      UnlockedRows(s, d, r);
      InFlightClose(s, d, r);
    }
  }

  lemma RaisedAfterSent(b: Batch, error: string)
    requires b.stage == Sent
    ensures forall r :: AcceptedIn(b.(stage := Raised(true, error)), r) == AcceptedIn(b, r)
  {
  }

  lemma SendsDispatch(c: Config, s: State, d: nat, a: DispatchStep)
    requires Locked(s) && SendsAccounted(s)
    requires WellFormed(s.broker) && DispatchEnabled(c, s, d, a) && SendsKnown(s, d)
    ensures SendsAccounted(DispatchNext(c, s, d, a))
  {
    match a
    case Fetch(rows) => SendsOpen(s, d, rows, c.batchSize);
    case PublishRow(accepted, raised, error) =>
      SendsPublish(s, d, accepted, raised, error);
    case MarkRow =>
      AdvanceAccepts(s.batches[d], Mark(s.now), s.now);
      SendsSet(s, d, Advance(s.batches[d], Mark(s.now)));
    case MarkRaises(error) =>
      RaisedAfterSent(s.batches[d], error);
      SendsSet(s, d, s.batches[d].(stage := Raised(true, error)));
    case BumpRow =>
      AdvanceAccepts(s.batches[d], BumpWrite(c, s, s.batches[d]), s.now);
      SendsSet(s, d, Advance(s.batches[d], BumpWrite(c, s, s.batches[d])));
    case CommitBatch => SendsCommit(s, d);
    case AbortBatch => SendsAbort(s, d);
  }

  lemma LockedRowsExist(s: State, r: RowId)
    requires Locked(s) && r in s.locks.Keys
    ensures r in s.outbox
  {
    assert Holds(s.batches[s.locks[r]], s.locks[r], s.locks, s.outbox);
  }

  lemma SendsStore(s: State, r: nat)
    requires Locked(s) && SendsAccounted(s) && ApiEnabled(s, r, Commit) && NotStored(s, r)
    ensures SendsAccounted(ApiNext(s, r, Commit))
  {
    var t := Store(s, s.requests[r]);
    forall x | x in t.outbox ensures SendsOf(t, x) {
      if x != s.requests[r].phase.rid {
        assert SendsOf(s, x);
      } else if x in s.locks {
        LockedRowsExist(s, x);
        assert false;
      }
    }
  }

  lemma SendsFrame(s: State, t: State)
    requires SendsAccounted(s)
    requires t.outbox == s.outbox && t.locks == s.locks && t.batches == s.batches
    requires t.log.sends == s.log.sends && t.log.rolledBack == s.log.rolledBack && t.log.doubtful == s.log.doubtful
    ensures SendsAccounted(t)
  {
    forall r | r in t.outbox ensures SendsOf(t, r) {
      assert SendsOf(s, r);
    }
  }

  lemma SendsStep(c: Config, s: State, step: Step)
    requires Created(s) && Locked(s) && SendsAccounted(s) && Enabled(c, s, step)
    ensures SendsAccounted(Next(c, s, step))
  {
    match step
    case Api(r, a) =>
      if a.Commit? {
        FreshIdsNotStored(s, r);
        SendsStore(s, r);
      } else {
        ApiKeepsTables(s, r, a);
        SendsFrame(s, ApiNext(s, r, a));
      }
    case Dispatch(d, a) => SendsDispatch(c, s, d, a);
    case Handle(h, a) =>
      HandlerKeeps(c, s, h, a);
      SendsFrame(s, HandlerNext(c, s, h, a));
    case Expire(n) => SendsFrame(s, ExpireNext(s, n));
    case Tick(t) => SendsFrame(s, Wait(s, t));
  }

  // ---- Spacing of failed attempts

  /** The committed failures of a row are its attempts; each waited at least
      the backoff delay after the one before, and the next one will. */
  ghost predicate Spaced(c: Config, row: Row, failures: seq<real>) {
    && row.attempts == |failures| <= Backoff.OVERFLOW_ATTEMPTS
    && row.status != RowFailed
    && (forall i | 0 <= i < |failures| - 1 ::
          failures[i + 1] >= failures[i] + Backoff.Delay(c.initial, c.cap, i))
    && (failures != [] ==>
          row.nextAttemptAt == failures[|failures| - 1] + Backoff.Delay(c.initial, c.cap, |failures| - 1))
  }

  ghost predicate RowsSpaced(c: Config, outbox: map<RowId, Row>, failures: map<RowId, seq<real>>) {
    forall r | r in outbox :: r in failures && Spaced(c, outbox[r], failures[r])
  }

  ghost predicate BumpTimed(c: Config, b: Batch, r: RowId, w: Write) {
    w.Bump? ==> && r in b.snapshot && b.snapshot[r] < Backoff.OVERFLOW_ATTEMPTS
                && b.fetchedAt <= w.at
                && w.next == w.at + Backoff.Delay(c.initial, c.cap, b.snapshot[r])
  }

  ghost predicate BumpsTimed(c: Config, batches: map<nat, Batch>) {
    forall d, r | d in batches && r in batches[d].writes :: BumpTimed(c, batches[d], r, batches[d].writes[r])
  }

  ghost predicate Timed(c: Config, s: State) {
    RowsSpaced(c, s.outbox, s.log.failures) && BumpsTimed(c, s.batches)
  }

  lemma SpacedBump(c: Config, row: Row, failures: seq<real>, b: Batch, r: RowId, w: Write)
    requires Spaced(c, row, failures) && w.Bump? && BumpTimed(c, b, r, w)
    requires b.snapshot[r] == row.attempts && row.nextAttemptAt <= b.fetchedAt
    ensures Spaced(c, Written(row, w), failures + [w.at])
  {
  }

  lemma SpacedWritten(c: Config, row: Row, failures: seq<real>, b: Batch, r: RowId)
    requires Spaced(c, row, failures) && r in b.writes && BumpTimed(c, b, r, b.writes[r])
    requires r in b.snapshot && b.snapshot[r] == row.attempts && row.nextAttemptAt <= b.fetchedAt
    ensures Spaced(c, Written(row, b.writes[r]), if b.writes[r].Bump? then failures + [b.writes[r].at] else failures)
  {
    match b.writes[r]
    case Mark(_) =>
    case Bump(_, _, _, _) => SpacedBump(c, row, failures, b, r, b.writes[r]);
  }

  lemma SpacedCommit(c: Config, s: State, d: nat, r: RowId)
    requires Locked(s) && d in s.batches && s.batches[d].pos == |s.batches[d].rows|
    requires r in s.outbox && r in s.log.failures && Spaced(c, s.outbox[r], s.log.failures[r])
    requires r in s.batches[d].writes ==> BumpTimed(c, s.batches[d], r, s.batches[d].writes[r])
    ensures var t := CommitWrites(CloseBatch(s, d), s.batches[d].writes);
            Spaced(c, t.outbox[r], t.log.failures[r])
  {
    var b := s.batches[d];
    assert b.rows[..b.pos] == b.rows;
    if r in b.writes {
      assert Holds(b, d, s.locks, s.outbox) && r in b.rows;
      SpacedWritten(c, s.outbox[r], s.log.failures[r], b, r);
    }
  }

  lemma TimedCommit(c: Config, s: State, d: nat)
    requires Locked(s) && Timed(c, s) && d in s.batches && s.batches[d].pos == |s.batches[d].rows|
    ensures Timed(c, CommitWrites(CloseBatch(s, d), s.batches[d].writes))
  {
    var t := CommitWrites(CloseBatch(s, d), s.batches[d].writes);
    forall r | r in t.outbox ensures r in t.log.failures && Spaced(c, t.outbox[r], t.log.failures[r]) {
      SpacedCommit(c, s, d, r);
    }
  }

  lemma TimedAdvance(c: Config, s: State, d: nat, w: Write)
    requires Timed(c, s) && AtRow(s, d) && BumpTimed(c, s.batches[d], s.batches[d].rows[s.batches[d].pos], w)
    ensures Timed(c, SetBatch(s, d, Advance(s.batches[d], w)))
  {
    var b := s.batches[d];
    var b' := Advance(b, w);
    forall r | r in b'.writes ensures BumpTimed(c, b', r, b'.writes[r]) {
      if r != b.rows[b.pos] {
        assert BumpTimed(c, b, r, b.writes[r]);
      }
    }
  }

  lemma TimedSet(c: Config, s: State, d: nat, b: Batch)
    requires Timed(c, s)
    requires if d in s.batches
             then b.writes == s.batches[d].writes && b.snapshot == s.batches[d].snapshot && b.fetchedAt == s.batches[d].fetchedAt
             else b.writes == map[]
    ensures BumpsTimed(c, s.batches[d := b])
  {
    forall r | r in b.writes ensures BumpTimed(c, b, r, b.writes[r]) {
      assert BumpTimed(c, s.batches[d], r, s.batches[d].writes[r]);
    }
  }

  lemma TimedDispatch(c: Config, s: State, d: nat, a: DispatchStep)
    requires Locked(s) && Timed(c, s)
    requires WellFormed(s.broker) && DispatchEnabled(c, s, d, a) && SendsKnown(s, d)
    ensures Timed(c, DispatchNext(c, s, d, a))
  {
    match a
    case Fetch(rows) => TimedSet(c, s, d, OpenBatch(s, d, rows).batches[d]);
    case PublishRow(accepted, raised, error) =>
      TimedSet(c, s, d, s.batches[d].(stage := if raised then Raised(accepted, error) else Sent));
    case MarkRow => TimedAdvance(c, s, d, Mark(s.now));
    case MarkRaises(error) => TimedSet(c, s, d, s.batches[d].(stage := Raised(true, error)));
    case BumpRow =>
      assert WellShaped(s.batches[d], s.now);
      TimedAdvance(c, s, d, BumpWrite(c, s, s.batches[d]));
    case CommitBatch => TimedCommit(c, s, d);
    case AbortBatch =>
  }

  lemma TimedStore(c: Config, s: State, q: Request)
    requires Timed(c, s) && q.phase.Enqueued?
    ensures Timed(c, Store(s, q))
  {
    var t := Store(s, q);
    forall r | r in t.outbox ensures r in t.log.failures && Spaced(c, t.outbox[r], t.log.failures[r]) {
      if r != q.phase.rid {
        assert Spaced(c, s.outbox[r], s.log.failures[r]);
      }
    }
  }

  lemma TimedStep(c: Config, s: State, step: Step)
    requires Created(s) && Locked(s) && Timed(c, s) && Enabled(c, s, step)
    ensures Timed(c, Next(c, s, step))
  {
    match step
    case Api(r, a) =>
      if a.Commit? {
        TimedStore(c, s, s.requests[r]);
      } else {
        ApiKeepsTables(s, r, a);
      }
    case Dispatch(d, a) => TimedDispatch(c, s, d, a);
    case Handle(h, a) => HandlerKeeps(c, s, h, a);
    case Expire(n) =>
    case Tick(t) =>
  }

  /** The time spanned by the committed failures of a row. */
  lemma {:induction false} FailuresSpan(c: Config, row: Row, failures: seq<real>, k: nat)
    requires Spaced(c, row, failures) && k < |failures|
    ensures failures[k] >= failures[0] + Backoff.DelaySum(c.initial, c.cap, k)
  {
    if k > 0 {
      FailuresSpan(c, row, failures, k - 1);
    }
  }
}
