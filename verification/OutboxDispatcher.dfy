/** The outbox table as one session sees it, and the dispatcher that works on it. */
module OutboxDispatcher {
  import opened Basics
  import opened Entities
  import opened OutboxQuery
  import opened Pipeline
  import opened Messaging
  import Backoff

  /** A database session on the outbox table. `committed` is what other sessions
      see; `working` adds this session's own writes. Rows in `elsewhere` are
      locked by other transactions, rows in `held` by this one. */
  class OutboxSession {
    var committed: map<RowId, Row>
    var working: map<RowId, Row>
    var held: set<RowId>
    const elsewhere: set<RowId>
    /** Statements and commits never fail. */
    const reliable: bool

    constructor (table: map<RowId, Row>, elsewhere: set<RowId>, reliable: bool)
      ensures committed == table && working == table && held == {}
      ensures this.elsewhere == elsewhere && this.reliable == reliable
    {
      committed, working, held := table, table, {};
      this.elsewhere, this.reliable := elsewhere, reliable;
    }

    /** The row that orders first among some candidates. */
    method First(rest: set<RowId>) returns (next: RowId)
      requires rest != {} && rest <= working.Keys
      ensures next in rest && forall r | r in rest :: !Before(working[r], working[next])
    {
      next :| next in rest;
      var todo := rest - {next};
      while todo != {}
        invariant todo <= rest && next in rest
        invariant forall r | r in rest - todo :: !Before(working[r], working[next])
        decreases todo
      {
        var r :| r in todo;
        if Before(working[r], working[next]) {
          next := r;
        }
        todo := todo - {r};
      }
    }

    /** Eligible unlocked rows in order, up to the limit; their locks are taken. */
    method FetchPending(batchSize: nat, now: real) returns (rows: seq<RowId>)
      modifies this`held
      ensures IsFetch(working, elsewhere, now, batchSize, rows)
      ensures held == old(held) + Elements(rows)
      ensures |rows| <= batchSize && forall i, j | 0 <= i < j < |rows| :: rows[i] != rows[j]
      ensures forall r | r in rows :: r in working && r !in elsewhere && working[r].status == RowPending
                                      && working[r].nextAttemptAt <= now
      ensures forall i, j | 0 <= i < j < |rows| ::
                || working[rows[i]].nextAttemptAt < working[rows[j]].nextAttemptAt
                || (working[rows[i]].nextAttemptAt == working[rows[j]].nextAttemptAt
                    && working[rows[i]].createdAt <= working[rows[j]].createdAt)
      ensures forall r, q | r in working && r !in elsewhere && working[r].status == RowPending
                            && working[r].nextAttemptAt <= now && r !in rows && q in rows ::
                || working[q].nextAttemptAt < working[r].nextAttemptAt
                || (working[q].nextAttemptAt == working[r].nextAttemptAt && working[q].createdAt <= working[r].createdAt)
      ensures forall r | r in working && r !in elsewhere && working[r].status == RowPending
                         && working[r].nextAttemptAt <= now && r !in rows :: |rows| == batchSize
    {
      rows := [];
      var rest := Candidates(working, elsewhere, now);
      while |rows| < batchSize && rest != {}
        invariant |rows| <= batchSize && held == old(held)
        invariant IsFetch(working, elsewhere, now, |rows|, rows)
        invariant rest == Candidates(working, elsewhere, now) - Elements(rows)
        decreases batchSize - |rows|
      {
        var next := First(rest);
        FetchOneMore(working, elsewhere, now, |rows| + 1, rows, next);
        rows := rows + [next];
        rest := rest - {next};
      }
      if rest == {} {
        AllTaken(working, elsewhere, now, batchSize, rows);
      }
      held := held + Elements(rows);
      FetchInColumns(working, elsewhere, now, batchSize, rows);
    }

    /** `UPDATE ... WHERE id = ...`: no row, no effect. */
    method MarkPublished(id: RowId, at: real) returns (raised: bool)
      modifies this`working
      ensures reliable ==> !raised
      ensures id in old(working) && !raised ==>
                working == old(working)[id := old(working)[id].(status := RowPublished, publishedAt := Some(at),
                                                                lastError := None)]
      ensures working == if id in old(working) && !raised then old(working)[id := MarkedRow(old(working)[id], at)]
                         else old(working)
    {
      raised := MayRaise();
      if id in working && !raised {
        working := working[id := working[id].(status := RowPublished, publishedAt := Some(at), lastError := None)];
      }
    }

    method BumpAttempt(id: RowId, error: string, next: real) returns (raised: bool)
      modifies this`working
      ensures reliable ==> !raised
      ensures id in old(working) && !raised ==>
                working == old(working)[id := old(working)[id].(attempts := old(working)[id].attempts + 1,
                                                                lastError := Some(error), nextAttemptAt := next)]
      ensures working == if id in old(working) && !raised then old(working)[id := BumpedRow(old(working)[id], next, error)]
                         else old(working)
    {
      raised := MayRaise();
      if id in working && !raised {
        working := working[id := working[id].(attempts := working[id].attempts + 1, lastError := Some(error),
                                              nextAttemptAt := next)];
      }
    }

    method MayRaise() returns (raised: bool)
      ensures reliable ==> !raised
    {
      if * {
        raised := !reliable;
      } else {
        raised := false;
      }
    }

    /** A commit that raises has stored nothing. */
    method Commit() returns (raised: bool)
      modifies this`committed, this`working, this`held
      ensures reliable ==> !raised
      ensures committed == if raised then old(committed) else old(working)
      ensures working == committed && held == {}
    {
      raised := MayRaise();
      if raised {
        Rollback();
      } else {
        committed, held := working, {};
      }
    }

    method Rollback()
      modifies this`working, this`held
      ensures working == committed && held == {}
    {
      working, held := committed, {};
    }
  }

  lemma AllTaken(table: map<RowId, Row>, locked: set<RowId>, now: real, limit: nat, rows: seq<RowId>)
    requires IsFetch(table, locked, now, |rows|, rows) && |rows| <= limit
    requires Candidates(table, locked, now) - Elements(rows) == {}
    ensures IsFetch(table, locked, now, limit, rows)
  {
    forall r | r in Candidates(table, locked, now) ensures r in rows {
      assert r !in Candidates(table, locked, now) - Elements(rows);
    }
  }

  // ---- One row

  /** What a finished row leaves behind: marked when neither its publish nor the
      marking raised, otherwise bumped with the delay for the attempts it had. */
  predicate ProperWrite(c: Config, row: Row, w: Write) {
    match w
    case Mark(_) => true
    case Bump(at, next, _, _) =>
      row.attempts < Backoff.OVERFLOW_ATTEMPTS && next == at + Backoff.Delay(c.initial, c.cap, row.attempts)
  }

  predicate Accepts(w: Write) {
    w.Mark? || w.accepted
  }

  /** What reaches `payments.new` when a row is published. */
  function Copies(row: Row, accepted: bool): seq<Message> {
    if accepted && row.routingKey == PaymentCreated then [RowMessage(row)] else []
  }

  function Delivery(row: Row, w: Write): seq<Message> {
    Copies(row, Accepts(w))
  }

  function Queued(b: Broker, messages: seq<Message>): Broker {
    b.(incoming := b.incoming + messages)
  }

  /** The message of a row goes out; a publish that raises may have been accepted. */
  method PublishRow(publisher: Publisher, row: Row, clock: real) returns (e: Sending)
    requires WellFormed(publisher.broker)
    modifies publisher`broker
    ensures Possible(e) && (publisher.reliable ==> !e.raised)
    ensures WellFormed(publisher.broker)
    ensures publisher.broker == Queued(old(publisher.broker), Copies(row, e.accepted))
  {
    e := publisher.Publish(row.routingKey, row.payload, clock);
    assert old(publisher.broker.incoming) + [] == old(publisher.broker.incoming);
  }

  /** One turn of the loop over the batch. `aborted`: an exception left it. */
  method ProcessRow(c: Config, session: OutboxSession, publisher: Publisher, id: RowId, row: Row, clock: real)
    returns (aborted: bool, at: real, ghost w: Write, ghost e: Sending)
    requires WellFormed(publisher.broker) && id in session.working
    modifies session`working, publisher`broker
    ensures WellFormed(publisher.broker)
    ensures !aborted ==> at == w.at >= clock && ProperWrite(c, row, w)
    ensures !aborted ==> session.working == old(session.working)[id := Written(old(session.working)[id], w)]
    ensures publisher.broker == Queued(old(publisher.broker), Copies(row, e.accepted))
    ensures aborted && session.reliable ==> e.raised && row.attempts >= 1024
    ensures session.reliable && e.raised && row.attempts < 1024 ==> !aborted
    ensures Possible(e) && (publisher.reliable ==> !e.raised)
    ensures !aborted ==> Accepts(w) == e.accepted
    ensures e.raised && !aborted ==> w.Bump? && w.error == e.error
    ensures !e.raised && session.reliable ==> !aborted && w.Mark?
    ensures !aborted && w.Mark? ==>
              session.working[id] == old(session.working)[id].(status := RowPublished, publishedAt := Some(w.at),
                                                                lastError := None)
    ensures !aborted && w.Bump? ==>
              && session.working[id] == old(session.working)[id].(attempts := old(session.working)[id].attempts + 1,
                                                                   lastError := Some(w.error), nextAttemptAt := w.next)
              && w.next == w.at + Backoff.Delay(c.initial, c.cap, row.attempts)
  {
    var sending := PublishRow(publisher, row, clock);
    e := sending;
    at := Now(clock);
    var failed, error := sending.raised, sending.error;
    if !failed {
      failed := session.MarkPublished(id, at);
      error := "mark_published";
    }
    if !failed {
      aborted, w := false, Mark(at);
    } else if row.attempts >= Backoff.OVERFLOW_ATTEMPTS {
      aborted, w := true, Bump(at, at, error, sending.accepted);
    } else {
      var next := at + Backoff.Delay(c.initial, c.cap, row.attempts);
      aborted := session.BumpAttempt(id, error, next);
      w := Bump(at, next, error, sending.accepted);
    }
  }

  // ---- One batch

  /** Every row of the batch has a proper update, and no other row has one. */
  ghost predicate ProperWrites(c: Config, table: map<RowId, Row>, rows: seq<RowId>, writes: map<RowId, Write>) {
    && writes.Keys == Elements(rows)
    && forall r | r in rows :: r in table && r in writes && ProperWrite(c, table[r], writes[r])
  }

  /** The updates were written one after the other, from `start` on. */
  ghost predicate Clocked(start: real, rows: seq<RowId>, writes: map<RowId, Write>) {
    && (forall r | r in rows :: r in writes)
    && forall i, j | 0 <= i <= j < |rows| :: start <= writes[rows[i]].at <= writes[rows[j]].at
  }

  /** What a batch adds to `payments.new`, in the order of its rows. */
  ghost function Deliveries(table: map<RowId, Row>, rows: seq<RowId>, writes: map<RowId, Write>): seq<Message> {
    if rows == [] then []
    else
      var init, r := rows[..|rows| - 1], rows[|rows| - 1];
      Deliveries(table, init, writes) + if r in table && r in writes then Delivery(table[r], writes[r]) else []
  }

  ghost predicate AllMarked(rows: seq<RowId>, writes: map<RowId, Write>) {
    forall r | r in rows :: r in writes && writes[r].Mark?
  }

  /** Halfway through a batch: the first rows are done. */
  ghost predicate Done(c: Config, table: map<RowId, Row>, rows: seq<RowId>, writes: map<RowId, Write>,
                       start: real, clock: real) {
    && ProperWrites(c, table, rows, writes)
    && Clocked(start, rows, writes)
    && start <= clock && forall r | r in rows :: writes[r].at <= clock
  }

  lemma DoneOneMore(c: Config, table: map<RowId, Row>, rows: seq<RowId>, writes: map<RowId, Write>,
                    start: real, clock: real, r: RowId, w: Write)
    requires Done(c, table, rows, writes, start, clock)
    requires r in table && r !in rows && ProperWrite(c, table[r], w) && clock <= w.at
    ensures Done(c, table, rows + [r], writes[r := w], start, w.at)
  {
    var more := rows + [r];
    forall q | q in more ensures q == r || (q in rows && q != r) {
    }
    forall i, j | 0 <= i <= j < |more|
      ensures more[i] in writes[r := w] && start <= writes[r := w][more[i]].at <= writes[r := w][more[j]].at {
      assert i == |rows| || more[i] in rows;
      assert j == |rows| || more[j] in rows;
    }
  }

  lemma ApplyOneMore(table: map<RowId, Row>, writes: map<RowId, Write>, r: RowId, w: Write)
    requires r in table && r !in writes
    ensures r in Apply(table, writes) && Apply(table, writes)[r] == table[r]
    ensures Apply(table, writes[r := w]) == Apply(table, writes)[r := Written(table[r], w)]
  {
  }

  lemma {:induction false} DeliveriesElsewhere(table: map<RowId, Row>, rows: seq<RowId>, writes: map<RowId, Write>,
                                               r: RowId, w: Write)
    requires r !in rows
    ensures Deliveries(table, rows, writes[r := w]) == Deliveries(table, rows, writes)
  {
    if rows != [] {
      DeliveriesElsewhere(table, rows[..|rows| - 1], writes, r, w);
    }
  }

  lemma DeliveriesOneMore(table: map<RowId, Row>, rows: seq<RowId>, writes: map<RowId, Write>, r: RowId, w: Write)
    requires r in table && r !in rows
    ensures Deliveries(table, rows + [r], writes[r := w]) == Deliveries(table, rows, writes) + Delivery(table[r], w)
  {
    DeliveriesElsewhere(table, rows, writes, r, w);
    assert (rows + [r])[..|rows|] == rows;
  }

  /** Halfway through a batch: what the session has written and the queue holds. */
  ghost predicate Midway(c: Config, table: map<RowId, Row>, queue: Broker, rows: seq<RowId>, writes: map<RowId, Write>,
                         start: real, clock: real, working: map<RowId, Row>, broker: Broker) {
    && Done(c, table, rows, writes, start, clock)
    && working == Apply(table, writes)
    && broker == Queued(queue, Deliveries(table, rows, writes))
  }

  lemma MidwayStart(c: Config, table: map<RowId, Row>, queue: Broker, start: real)
    ensures Midway(c, table, queue, [], map[], start, start, table, queue)
  {
    assert Apply(table, map[]) == table;
    assert queue.incoming + [] == queue.incoming;
  }

  lemma MidwayNext(c: Config, table: map<RowId, Row>, queue: Broker, rows: seq<RowId>, writes: map<RowId, Write>,
                   start: real, clock: real, working: map<RowId, Row>, broker: Broker, r: RowId, w: Write,
                   working': map<RowId, Row>, broker': Broker, more: seq<RowId>)
    requires Midway(c, table, queue, rows, writes, start, clock, working, broker) && more == rows + [r]
    requires r in table && r !in rows && ProperWrite(c, table[r], w) && clock <= w.at
    requires r in working && working' == working[r := Written(working[r], w)]
    requires broker' == Queued(broker, Delivery(table[r], w))
    ensures Midway(c, table, queue, more, writes[r := w], start, w.at, working', broker')
  {
    ApplyOneMore(table, writes, r, w);
    DoneOneMore(c, table, rows, writes, start, clock, r, w);
    DeliveriesOneMore(table, rows, writes, r, w);
  }

  lemma MidwayRow(c: Config, table: map<RowId, Row>, queue: Broker, rows: seq<RowId>, writes: map<RowId, Write>,
                  start: real, clock: real, working: map<RowId, Row>, broker: Broker, r: RowId)
    requires Midway(c, table, queue, rows, writes, start, clock, working, broker)
    requires r in table && r !in rows
    ensures r in working && working[r] == table[r]
  {
  }

  /** A batch that an exception has ended: the first `k` rows are done, the
      publish of the next one, if any, has gone as `e` says, and all that was
      accepted is in the queue. */
  ghost predicate BrokenOff(c: Config, table: map<RowId, Row>, queue: Broker, rows: seq<RowId>, writes: map<RowId, Write>,
                            start: real, clock: real, k: nat, e: Sending, broker: Broker) {
    && k <= |rows| && Done(c, table, rows[..k], writes, start, clock)
    && (k < |rows| ==> rows[k] in table && Possible(e))
    && broker == Queued(queue, Deliveries(table, rows[..k], writes)
                               + if k < |rows| then Copies(table[rows[k]], e.accepted) else [])
  }

  /** Without a database failure only a publish that raises for a row whose delay
      overflows ends a batch. */
  ghost predicate Overflows(table: map<RowId, Row>, rows: seq<RowId>, k: nat, e: Sending) {
    k < |rows| && rows[k] in table && table[rows[k]].attempts >= Backoff.OVERFLOW_ATTEMPTS && e.raised
  }

  lemma BrokenOffHere(c: Config, table: map<RowId, Row>, queue: Broker, rows: seq<RowId>, writes: map<RowId, Write>,
                      start: real, clock: real, working: map<RowId, Row>, broker: Broker, k: nat, e: Sending,
                      broker': Broker)
    requires k <= |rows| && Midway(c, table, queue, rows[..k], writes, start, clock, working, broker)
    requires if k < |rows| then rows[k] in table && Possible(e) && broker' == Queued(broker, Copies(table[rows[k]], e.accepted))
             else broker' == broker
    ensures BrokenOff(c, table, queue, rows, writes, start, clock, k, e, broker')
  {
    var sent := Deliveries(table, rows[..k], writes);
    var last := if k < |rows| then Copies(table[rows[k]], e.accepted) else [];
    assert queue.incoming + sent + last == queue.incoming + (sent + last);
  }

  /** One turn, as a step of the whole batch. */
  method Turn(c: Config, session: OutboxSession, publisher: Publisher, batch: seq<RowId>, i: nat, clock: real,
              ghost table: map<RowId, Row>, ghost queue: Broker, ghost now: real, ghost writes: map<RowId, Write>)
    returns (aborted: bool, at: real, ghost writes': map<RowId, Write>, ghost e: Sending)
    requires WellFormed(publisher.broker) && i < |batch| && batch[i] in table && batch[i] !in batch[..i]
    requires Midway(c, table, queue, batch[..i], writes, now, clock, session.working, publisher.broker)
    modifies session`working, publisher`broker
    ensures WellFormed(publisher.broker)
    ensures !aborted ==> Midway(c, table, queue, batch[..i + 1], writes', now, at, session.working, publisher.broker)
    ensures aborted ==> BrokenOff(c, table, queue, batch, writes', now, at, i, e, publisher.broker)
    ensures aborted && session.reliable ==> Overflows(table, batch, i, e)
    ensures publisher.reliable && session.reliable && AllMarked(batch[..i], writes) ==>
              !aborted && AllMarked(batch[..i + 1], writes')
  {
    var r := batch[i];
    assert batch[..i + 1] == batch[..i] + [r];
    MidwayRow(c, table, queue, batch[..i], writes, now, clock, session.working, publisher.broker, r);
    ghost var working, broker := session.working, publisher.broker;
    ghost var w;
    aborted, at, w, e := ProcessRow(c, session, publisher, r, session.working[r], clock);
    if aborted {
      BrokenOffHere(c, table, queue, batch, writes, now, clock, working, broker, i, e, publisher.broker);
      at, writes' := clock, writes;
    } else {
      writes' := writes[r := w];
      MidwayNext(c, table, queue, batch[..i], writes, now, clock, working, broker, r, w,
                 session.working, publisher.broker, batch[..i + 1]);
    }
  }

  /** The loop over the locked rows. `k` rows are done when it ends. */
  method ProcessRows(c: Config, session: OutboxSession, publisher: Publisher, batch: seq<RowId>, now: real)
    returns (aborted: bool, end: real, ghost writes: map<RowId, Write>, ghost k: nat, ghost e: Sending)
    requires WellFormed(publisher.broker) && Distinct(batch) && forall r | r in batch :: r in session.working
    modifies session`working, publisher`broker
    ensures WellFormed(publisher.broker)
    ensures !aborted ==> k == |batch| && Midway(c, old(session.working), old(publisher.broker), batch, writes, now, end,
                                                session.working, publisher.broker)
    ensures aborted ==> k < |batch| && BrokenOff(c, old(session.working), old(publisher.broker), batch, writes, now, end,
                                                 k, e, publisher.broker)
    ensures aborted && session.reliable ==> Overflows(old(session.working), batch, k, e)
    ensures publisher.reliable && session.reliable ==> !aborted && AllMarked(batch, writes)
  {
    ghost var table, queue := session.working, publisher.broker;
    writes, end, e := map[], now, Sending(false, false, "");
    var i := 0;
    MidwayStart(c, table, queue, now);
    while i < |batch|
      invariant 0 <= i <= |batch| && WellFormed(publisher.broker)
      invariant Midway(c, table, queue, batch[..i], writes, now, end, session.working, publisher.broker)
      invariant publisher.reliable && session.reliable ==> AllMarked(batch[..i], writes)
    {
      assert batch[i] in table && batch[i] !in batch[..i];
      aborted, end, writes, e := Turn(c, session, publisher, batch, i, end, table, queue, now, writes);
      if aborted {
        k := i;
        return;
      }
      i := i + 1;
    }
    assert batch[..i] == batch;
    aborted, k := false, i;
  }

  /** `_process_batch`. It either commits: every row of the batch is published
      with its message sent, or has one more attempt and a later time for it,
      and no other row has changed. Or an exception ends it: then the table is
      as before, although the messages of the rows done so far, and perhaps of
      one more, are out. */
  method ProcessBatch(c: Config, session: OutboxSession, publisher: Publisher, now: real)
    returns (processed: nat, ok: bool, end: real,
             ghost rows: seq<RowId>, ghost writes: map<RowId, Write>, ghost k: nat, ghost e: Sending)
    requires WellFormed(publisher.broker) && session.working == session.committed
    modifies session`committed, session`working, session`held, publisher`broker
    ensures WellFormed(publisher.broker) && session.working == session.committed && session.held == {}
    ensures IsFetch(old(session.committed), session.elsewhere, now, c.batchSize, rows)
    ensures ok ==> processed == |rows| && Done(c, old(session.committed), rows, writes, now, end)
    ensures ok ==> session.committed == Apply(old(session.committed), writes)
    ensures ok ==> publisher.broker
                   == Queued(old(publisher.broker), Deliveries(old(session.committed), rows, writes))
    ensures !ok ==> processed == 0 && session.committed == old(session.committed)
    ensures !ok ==> BrokenOff(c, old(session.committed), old(publisher.broker), rows, writes, now, end, k, e, publisher.broker)
    ensures !ok && session.reliable ==> Overflows(session.committed, rows, k, e)
    ensures publisher.reliable && session.reliable ==> ok && AllMarked(rows, writes)
  {
    ghost var table, queue := session.committed, publisher.broker;
    var batch := session.FetchPending(c.batchSize, now);
    var aborted, t, w, done, last := ProcessRows(c, session, publisher, batch, now);
    rows, writes, end, k, e := batch, w, t, done, last;
    if aborted {
      session.Rollback();
      return 0, false, end, rows, writes, k, e;
    }
    assert rows[..k] == rows;
    BrokenOffHere(c, table, queue, rows, writes, now, end, session.working, publisher.broker, k, e, publisher.broker);
    var raised := session.Commit();
    processed, ok := if raised then 0 else |batch|, !raised;
  }
}
