/** The batch method and the step system: what a batch does, whether it commits
    or an exception ends it, is what a run of one dispatcher does. */
module BatchRun {
  import opened Entities
  import opened Topology
  import opened OutboxQuery
  import opened Pipeline
  import opened Messaging
  import opened OutboxDispatcher
  import opened Guarantees
  import Backoff

  /** Steps of dispatcher `d` and the clock. */
  ghost predicate OnlyDispatcher(d: nat, steps: seq<Step>) {
    forall step | step in steps :: step.Tick? || (step.Dispatch? && step.d == d)
  }

  ghost function Restrict(writes: map<RowId, Write>, rows: seq<RowId>): map<RowId, Write> {
    map r | r in writes && r in rows :: writes[r]
  }

  /** The batch as it stands after its first `i` rows. */
  ghost function BatchAfter(s: State, rows: seq<RowId>, writes: map<RowId, Write>, i: nat): Batch
    requires i <= |rows|
  {
    Batch(rows, map r | r in Elements(rows) && r in s.outbox :: s.outbox[r].attempts, s.now, i, NextRow,
          Restrict(writes, rows[..i]))
  }

  /** Everything but the queue, the clock, the open batch and the history. */
  ghost predicate SameTables(s: State, t: State) {
    t.outbox == s.outbox && t.payments == s.payments && t.requests == s.requests && t.handlers == s.handlers
    && t.ids == s.ids
  }

  /** Between two steps of the batch: `i` rows are done, `k` are published. */
  ghost predicate BatchAt(s: State, t: State, d: nat, rows: seq<RowId>, writes: map<RowId, Write>, i: nat,
                          stage: Stage, k: nat)
    requires i <= |rows| && k <= |rows|
  {
    && SameTables(s, t)
    && t.locks == Lock(s.locks, rows, d)
    && t.batches == s.batches[d := BatchAfter(s, rows, writes, i).(stage := stage)]
    && t.broker == Queued(s.broker, Deliveries(s.outbox, rows[..k], writes))
    && s.outbox.Keys <= t.log.sends.Keys
    && (i < |rows| && rows[i] in writes ==> t.now <= writes[rows[i]].at)
  }

  /** A batch of which `ProcessBatch` has done the first `k` rows, in a state it can start from. */
  ghost predicate Prepared(c: Config, s: State, d: nat, rows: seq<RowId>, writes: map<RowId, Write>, end: real, k: nat) {
    && WellFormed(s.broker) && s.outbox.Keys <= s.log.sends.Keys && d !in s.batches
    && IsFetch(s.outbox, s.locks.Keys, s.now, c.batchSize, rows)
    && k <= |rows| && Done(c, s.outbox, rows[..k], writes, s.now, end)
  }

  /** What the steps for row `i` need to know. */
  ghost predicate RowReady(c: Config, s: State, rows: seq<RowId>, writes: map<RowId, Write>, i: nat)
    requires i < |rows|
  {
    && WellFormed(s.broker)
    && rows[i] in s.outbox && rows[i] in writes && ProperWrite(c, s.outbox[rows[i]], writes[rows[i]])
    && rows[i] !in rows[..i] && rows[..i + 1] == rows[..i] + [rows[i]]
    && (i + 1 < |rows| && rows[i + 1] in writes ==> writes[rows[i]].at <= writes[rows[i + 1]].at)
  }

  ghost predicate AllReady(c: Config, s: State, rows: seq<RowId>, writes: map<RowId, Write>, k: nat)
    requires k <= |rows|
  {
    forall i | 0 <= i < k :: RowReady(c, s, rows, writes, i)
  }

  lemma RowIsReady(c: Config, s: State, rows: seq<RowId>, writes: map<RowId, Write>, end: real, k: nat, i: nat)
    requires WellFormed(s.broker) && Distinct(rows) && i < k <= |rows|
    requires Done(c, s.outbox, rows[..k], writes, s.now, end)
    ensures RowReady(c, s, rows, writes, i)
  {
    assert rows[..k][i] == rows[i] && rows[i] in rows[..k];
    if i + 1 < |rows| && rows[i + 1] in writes {
      WrittenPlace(rows, writes, k, i + 1);
      InTurn(s.now, rows, writes, k, i);
    }
  }

  lemma PreparedRows(c: Config, s: State, d: nat, rows: seq<RowId>, writes: map<RowId, Write>, end: real, k: nat)
    requires Prepared(c, s, d, rows, writes, end, k)
    ensures AllReady(c, s, rows, writes, k)
  {
    forall i | 0 <= i < k ensures RowReady(c, s, rows, writes, i) {
      RowIsReady(c, s, rows, writes, end, k, i);
    }
  }

  lemma InTurn(start: real, rows: seq<RowId>, writes: map<RowId, Write>, k: nat, i: nat)
    requires i + 1 < k <= |rows| && Clocked(start, rows[..k], writes)
    ensures rows[i] in writes && rows[i + 1] in writes && writes[rows[i]].at <= writes[rows[i + 1]].at
  {
    var done := rows[..k];
    assert done[i] == rows[i] && done[i + 1] == rows[i + 1] && done[i] in done && done[i + 1] in done;
  }

  /** A row of the batch has an update only if it is among those done. */
  lemma WrittenPlace(rows: seq<RowId>, writes: map<RowId, Write>, k: nat, i: nat)
    requires k <= |rows| && i < |rows| && Distinct(rows) && writes.Keys == Elements(rows[..k]) && rows[i] in writes
    ensures i < k
  {
    var j :| 0 <= j < k && rows[..k][j] == rows[i];
  }

  lemma FetchStep(c: Config, s: State, d: nat, rows: seq<RowId>)
    requires WellFormed(s.broker) && d !in s.batches && IsFetch(s.outbox, s.locks.Keys, s.now, c.batchSize, rows)
    ensures Enabled(c, s, Dispatch(d, Fetch(rows)))
    ensures Next(c, s, Dispatch(d, Fetch(rows))) == OpenBatch(s, d, rows)
  {
  }

  lemma BatchOpened(s: State, d: nat, rows: seq<RowId>, writes: map<RowId, Write>)
    ensures OpenBatch(s, d, rows).batches == s.batches[d := BatchAfter(s, rows, writes, 0).(stage := NextRow)]
  {
    assert Restrict(writes, rows[..0]) == map[];
  }

  lemma Fetched(s: State, d: nat, rows: seq<RowId>, writes: map<RowId, Write>)
    requires (forall r | r in writes :: s.now <= writes[r].at) && s.outbox.Keys <= s.log.sends.Keys
    ensures BatchAt(s, OpenBatch(s, d, rows), d, rows, writes, 0, NextRow, 0)
  {
    BatchOpened(s, d, rows, writes);
    assert s.broker.incoming + [] == s.broker.incoming;
  }

  lemma AllLater(c: Config, table: map<RowId, Row>, rows: seq<RowId>, writes: map<RowId, Write>, start: real, clock: real)
    requires Done(c, table, rows, writes, start, clock)
    ensures forall r | r in writes :: start <= writes[r].at
  {
    forall r | r in writes ensures start <= writes[r].at {
      assert r in rows;
    }
  }

  /** How the publish of a row with update `w` went. */
  function StageFor(w: Write): Stage {
    match w
    case Mark(_) => Sent
    case Bump(_, _, error, accepted) => Raised(accepted, error)
  }

  function PublishFor(w: Write): DispatchStep {
    match w
    case Mark(_) => PublishRow(true, false, "")
    case Bump(_, _, error, accepted) => PublishRow(accepted, true, error)
  }

  function FinishFor(w: Write): DispatchStep {
    if w.Mark? then MarkRow else BumpRow
  }

  lemma PublishStep(c: Config, s: State, t: State, d: nat, rows: seq<RowId>, writes: map<RowId, Write>, i: nat)
    requires i < |rows| && RowReady(c, s, rows, writes, i) && BatchAt(s, t, d, rows, writes, i, NextRow, i)
    ensures AtRow(t, d) && SendsKnown(t, d) && Enabled(c, t, Dispatch(d, PublishFor(writes[rows[i]])))
    ensures var w := writes[rows[i]];
            Next(c, t, Dispatch(d, PublishFor(w))) == PublishNext(t, d, Accepts(w), StageFor(w))
  {
  }

  lemma Published(c: Config, s: State, t: State, d: nat, rows: seq<RowId>, writes: map<RowId, Write>, i: nat)
    requires i < |rows| && RowReady(c, s, rows, writes, i) && BatchAt(s, t, d, rows, writes, i, NextRow, i)
    requires AtRow(t, d) && SendsKnown(t, d) && WellFormed(t.broker)
    ensures var w := writes[rows[i]];
            BatchAt(s, PublishNext(t, d, Accepts(w), StageFor(w)), d, rows, writes, i, StageFor(w), i + 1)
  {
    var w, row := writes[rows[i]], s.outbox[rows[i]];
    DeliveriesOneMore(s.outbox, rows[..i], writes, rows[i], w);
    assert writes[rows[i] := w] == writes;
    QueuedMore(s.broker, t.broker, Deliveries(s.outbox, rows[..i], writes), row, w, t.now);
    assert t.batches[d := t.batches[d].(stage := StageFor(w))]
        == s.batches[d := BatchAfter(s, rows, writes, i).(stage := StageFor(w))];
  }

  lemma QueuedMore(b: Broker, b': Broker, sent: seq<Message>, row: Row, w: Write, now: real)
    requires WellFormed(b) && b' == Queued(b, sent)
    ensures (if Accepts(w) then Publish(b', ViaExchange(PaymentsExchange, row.routingKey), RowMessage(row), now) else b')
            == Queued(b, sent + Delivery(row, w))
  {
    assert b.incoming + sent + Delivery(row, w) == b.incoming + (sent + Delivery(row, w));
  }

  lemma BumpMatches(c: Config, s: State, t: State, b: Batch, rows: seq<RowId>, writes: map<RowId, Write>, i: nat)
    requires i < |rows| && RowReady(c, s, rows, writes, i) && t.now == writes[rows[i]].at && writes[rows[i]].Bump?
    requires b == BatchAfter(s, rows, writes, i).(stage := StageFor(writes[rows[i]]))
    ensures b.rows[b.pos] in b.snapshot && b.snapshot[b.rows[b.pos]] < Backoff.OVERFLOW_ATTEMPTS
    ensures BumpWrite(c, t, b) == writes[rows[i]]
  {
    assert rows[i] in Elements(rows);
  }

  lemma FinishStep(c: Config, s: State, t: State, d: nat, rows: seq<RowId>, writes: map<RowId, Write>, i: nat)
    requires i < |rows| && RowReady(c, s, rows, writes, i) && t.now == writes[rows[i]].at
    requires BatchAt(s, t, d, rows, writes, i, StageFor(writes[rows[i]]), i + 1)
    ensures var w := writes[rows[i]];
            && Enabled(c, t, Dispatch(d, FinishFor(w)))
            && d in t.batches && t.batches[d].pos < |t.batches[d].rows|
            && Next(c, t, Dispatch(d, FinishFor(w))) == SetBatch(t, d, Advance(t.batches[d], w))
  {
    if writes[rows[i]].Bump? {
      BumpMatches(c, s, t, t.batches[d], rows, writes, i);
    }
  }

  lemma Advanced(s: State, b: Batch, rows: seq<RowId>, writes: map<RowId, Write>, i: nat, stage: Stage)
    requires i < |rows| && rows[i] in writes && rows[..i + 1] == rows[..i] + [rows[i]]
    requires b == BatchAfter(s, rows, writes, i).(stage := stage)
    ensures Advance(b, writes[rows[i]]) == BatchAfter(s, rows, writes, i + 1)
  {
    assert Restrict(writes, rows[..i + 1]) == Restrict(writes, rows[..i])[rows[i] := writes[rows[i]]];
  }

  lemma Finished(c: Config, s: State, t: State, d: nat, rows: seq<RowId>, writes: map<RowId, Write>, i: nat)
    requires i < |rows| && RowReady(c, s, rows, writes, i) && t.now == writes[rows[i]].at
    requires BatchAt(s, t, d, rows, writes, i, StageFor(writes[rows[i]]), i + 1)
    ensures d in t.batches && t.batches[d].pos < |t.batches[d].rows|
    ensures BatchAt(s, SetBatch(t, d, Advance(t.batches[d], writes[rows[i]])), d, rows, writes, i + 1, NextRow, i + 1)
  {
    Advanced(s, t.batches[d], rows, writes, i, StageFor(writes[rows[i]]));
    var next := BatchAfter(s, rows, writes, i + 1);
    assert next.(stage := NextRow) == next;
    assert t.batches[d := next] == s.batches[d := next];
  }

  lemma PublishRowRun(c: Config, s: State, t: State, d: nat, rows: seq<RowId>, writes: map<RowId, Write>, i: nat)
    returns (steps: seq<Step>)
    requires i < |rows| && RowReady(c, s, rows, writes, i) && BatchAt(s, t, d, rows, writes, i, NextRow, i)
    ensures Run(c, t, steps) && OnlyDispatcher(d, steps)
    ensures BatchAt(s, Exec(c, t, steps), d, rows, writes, i, StageFor(writes[rows[i]]), i + 1)
  {
    PublishStep(c, s, t, d, rows, writes, i);
    Published(c, s, t, d, rows, writes, i);
    steps := [Dispatch(d, PublishFor(writes[rows[i]]))];
    OneStep(c, t, steps[0]);
  }

  lemma WaitRun(c: Config, s: State, t: State, d: nat, rows: seq<RowId>, writes: map<RowId, Write>, i: nat, stage: Stage)
    returns (steps: seq<Step>)
    requires i < |rows| && RowReady(c, s, rows, writes, i) && BatchAt(s, t, d, rows, writes, i, stage, i + 1)
    ensures Run(c, t, steps) && OnlyDispatcher(d, steps) && Exec(c, t, steps).now == writes[rows[i]].at
    ensures BatchAt(s, Exec(c, t, steps), d, rows, writes, i, stage, i + 1)
  {
    steps := [Tick(writes[rows[i]].at)];
    OneStep(c, t, steps[0]);
  }

  lemma FinishRun(c: Config, s: State, t: State, d: nat, rows: seq<RowId>, writes: map<RowId, Write>, i: nat)
    returns (steps: seq<Step>)
    requires i < |rows| && RowReady(c, s, rows, writes, i) && t.now == writes[rows[i]].at
    requires BatchAt(s, t, d, rows, writes, i, StageFor(writes[rows[i]]), i + 1)
    ensures Run(c, t, steps) && OnlyDispatcher(d, steps)
    ensures BatchAt(s, Exec(c, t, steps), d, rows, writes, i + 1, NextRow, i + 1)
  {
    FinishStep(c, s, t, d, rows, writes, i);
    Finished(c, s, t, d, rows, writes, i);
    steps := [Dispatch(d, FinishFor(writes[rows[i]]))];
    OneStep(c, t, steps[0]);
  }

  lemma RowRun(c: Config, s: State, t: State, d: nat, rows: seq<RowId>, writes: map<RowId, Write>, i: nat)
    returns (steps: seq<Step>)
    requires i < |rows| && RowReady(c, s, rows, writes, i) && BatchAt(s, t, d, rows, writes, i, NextRow, i)
    ensures Run(c, t, steps) && OnlyDispatcher(d, steps)
    ensures BatchAt(s, Exec(c, t, steps), d, rows, writes, i + 1, NextRow, i + 1)
  {
    var one := PublishRowRun(c, s, t, d, rows, writes, i);
    var u := Exec(c, t, one);
    var two := WaitRun(c, s, u, d, rows, writes, i, StageFor(writes[rows[i]]));
    var three := FinishRun(c, s, Exec(c, u, two), d, rows, writes, i);
    RunConcat(c, u, two, three);
    RunConcat(c, t, one, two + three);
    steps := one + (two + three);
  }

  lemma FetchRun(c: Config, s: State, d: nat, rows: seq<RowId>, writes: map<RowId, Write>, end: real, k: nat)
    returns (steps: seq<Step>)
    requires Prepared(c, s, d, rows, writes, end, k)
    ensures Run(c, s, steps) && OnlyDispatcher(d, steps)
    ensures BatchAt(s, Exec(c, s, steps), d, rows, writes, 0, NextRow, 0)
  {
    AllLater(c, s.outbox, rows[..k], writes, s.now, end);
    FetchStep(c, s, d, rows);
    Fetched(s, d, rows, writes);
    steps := [Dispatch(d, Fetch(rows))];
    OneStep(c, s, steps[0]);
  }

  lemma {:induction false} RowsRun(c: Config, s: State, d: nat, rows: seq<RowId>, writes: map<RowId, Write>, k: nat,
                                   fetch: seq<Step>, i: nat) returns (steps: seq<Step>)
    requires i <= k <= |rows| && AllReady(c, s, rows, writes, k)
    requires Run(c, s, fetch) && OnlyDispatcher(d, fetch)
    requires BatchAt(s, Exec(c, s, fetch), d, rows, writes, 0, NextRow, 0)
    ensures Run(c, s, steps) && OnlyDispatcher(d, steps)
    ensures BatchAt(s, Exec(c, s, steps), d, rows, writes, i, NextRow, i)
  {
    if i == 0 {
      steps := fetch;
    } else {
      var before := RowsRun(c, s, d, rows, writes, k, fetch, i - 1);
      var more := RowRun(c, s, Exec(c, s, before), d, rows, writes, i - 1);
      RunConcat(c, s, before, more);
      steps := before + more;
    }
  }

  lemma PrefixRun(c: Config, s: State, d: nat, rows: seq<RowId>, writes: map<RowId, Write>, end: real, k: nat)
    returns (steps: seq<Step>)
    requires Prepared(c, s, d, rows, writes, end, k)
    ensures Run(c, s, steps) && OnlyDispatcher(d, steps)
    ensures BatchAt(s, Exec(c, s, steps), d, rows, writes, k, NextRow, k)
  {
    PreparedRows(c, s, d, rows, writes, end, k);
    var fetch := FetchRun(c, s, d, rows, writes, end, k);
    steps := RowsRun(c, s, d, rows, writes, k, fetch, k);
  }

  lemma Unlocked(s: State, d: nat, rows: seq<RowId>)
    requires forall r | r in rows :: r !in s.locks
    ensures Unlock(Lock(s.locks, rows, d), rows) == s.locks
  {
  }

  lemma CommitStep(c: Config, s: State, t: State, d: nat, rows: seq<RowId>, writes: map<RowId, Write>)
    requires WellFormed(s.broker) && writes.Keys == Elements(rows)
    requires BatchAt(s, t, d, rows, writes, |rows|, NextRow, |rows|)
    ensures Enabled(c, t, Dispatch(d, CommitBatch))
    ensures Next(c, t, Dispatch(d, CommitBatch)) == CommitWrites(CloseBatch(t, d), writes)
    ensures t.batches[d].rows == rows
  {
    assert rows[..|rows|] == rows;
    assert Restrict(writes, rows) == writes;
  }

  lemma Committed(s: State, t: State, d: nat, rows: seq<RowId>, writes: map<RowId, Write>)
    requires d !in s.batches && (forall r | r in rows :: r !in s.locks)
    requires BatchAt(s, t, d, rows, writes, |rows|, NextRow, |rows|)
    ensures BatchDone(s, CommitWrites(CloseBatch(t, d), writes), Apply(s.outbox, writes),
                      Queued(s.broker, Deliveries(s.outbox, rows, writes)))
  {
    assert rows[..|rows|] == rows;
    Unlocked(s, d, rows);
    assert s.batches[d := BatchAfter(s, rows, writes, |rows|)] - {d} == s.batches;
  }

  /** The batch is over: this is the table and this the queue, the rest is as it was. */
  ghost predicate BatchDone(s: State, t: State, outbox: map<RowId, Row>, broker: Broker) {
    && t.outbox == outbox && t.broker == broker
    && t.payments == s.payments && t.requests == s.requests && t.handlers == s.handlers
    && t.locks == s.locks && t.batches == s.batches
  }

  lemma FetchedRowsFree(s: State, limit: nat, rows: seq<RowId>)
    requires IsFetch(s.outbox, s.locks.Keys, s.now, limit, rows)
    ensures forall r | r in rows :: r !in s.locks && r in s.outbox
  {
    forall r | r in rows ensures r !in s.locks && r in s.outbox {
      assert r in Candidates(s.outbox, s.locks.Keys, s.now);
    }
  }

  /** Whatever `ProcessBatch` may do when it commits, one dispatcher can do in a
      run of the step system: same rows and updates, same messages, and
      everything else as it was. */
  lemma BatchIsARun(c: Config, s: State, d: nat, rows: seq<RowId>, writes: map<RowId, Write>, end: real)
    returns (steps: seq<Step>)
    requires Reached(c, s) && d !in s.batches
    requires IsFetch(s.outbox, s.locks.Keys, s.now, c.batchSize, rows) && Done(c, s.outbox, rows, writes, s.now, end)
    ensures Run(c, s, steps) && OnlyDispatcher(d, steps)
    ensures BatchDone(s, Exec(c, s, steps), Apply(s.outbox, writes),
                      Queued(s.broker, Deliveries(s.outbox, rows, writes)))
  {
    ReachedWellFormed(c, s);
    ReachedSends(c, s);
    assert rows[..|rows|] == rows;
    var before := PrefixRun(c, s, d, rows, writes, end, |rows|);
    FetchedRowsFree(s, c.batchSize, rows);
    CommitStep(c, s, Exec(c, s, before), d, rows, writes);
    Committed(s, Exec(c, s, before), d, rows, writes);
    RunSnoc(c, s, before, Dispatch(d, CommitBatch));
    steps := before + [Dispatch(d, CommitBatch)];
  }

  // ---- A batch that an exception ends

  /** Some steps into the batch: the queue holds this, the tables are as before. */
  ghost predicate InBatch(s: State, t: State, d: nat, rows: seq<RowId>, broker: Broker) {
    && SameTables(s, t) && t.broker == broker
    && t.locks == Lock(s.locks, rows, d) && s.outbox.Keys <= t.log.sends.Keys
    && d in t.batches && t.batches[d].rows == rows && t.batches - {d} == s.batches
  }

  lemma AbortRun(c: Config, s: State, t: State, d: nat, rows: seq<RowId>, broker: Broker) returns (steps: seq<Step>)
    requires WellFormed(broker) && InBatch(s, t, d, rows, broker)
    requires forall r | r in rows :: r !in s.locks && r in s.outbox
    ensures Run(c, t, steps) && OnlyDispatcher(d, steps)
    ensures BatchDone(s, Exec(c, t, steps), s.outbox, broker)
  {
    steps := [Dispatch(d, AbortBatch)];
    OneStep(c, t, steps[0]);
    Unlocked(s, d, rows);
  }

  lemma BatchAtIsIn(s: State, t: State, d: nat, rows: seq<RowId>, writes: map<RowId, Write>, k: nat)
    requires k <= |rows| && d !in s.batches && BatchAt(s, t, d, rows, writes, k, NextRow, k)
    ensures InBatch(s, t, d, rows, t.broker) && t.batches[d].pos == k && t.batches[d].stage == NextRow
  {
    assert s.batches[d := BatchAfter(s, rows, writes, k).(stage := NextRow)] - {d} == s.batches;
  }

  lemma LastPublishStep(c: Config, s: State, t: State, d: nat, rows: seq<RowId>, e: Sending, stage: Stage)
    requires WellFormed(t.broker) && InBatch(s, t, d, rows, t.broker) && Possible(e)
    requires t.batches[d].pos < |rows| && t.batches[d].stage == NextRow && rows[t.batches[d].pos] in s.outbox
    requires stage == if e.raised then Raised(e.accepted, e.error) else Sent
    ensures AtRow(t, d) && SendsKnown(t, d) && Enabled(c, t, Dispatch(d, PublishRow(e.accepted, e.raised, e.error)))
    ensures Next(c, t, Dispatch(d, PublishRow(e.accepted, e.raised, e.error))) == PublishNext(t, d, e.accepted, stage)
  {
  }

  lemma LastPublished(s: State, t: State, d: nat, rows: seq<RowId>, accepted: bool, stage: Stage)
    requires WellFormed(t.broker) && InBatch(s, t, d, rows, t.broker) && AtRow(t, d) && SendsKnown(t, d)
    requires rows[t.batches[d].pos] in s.outbox
    ensures InBatch(s, PublishNext(t, d, accepted, stage), d, rows,
                    Queued(t.broker, Copies(s.outbox[rows[t.batches[d].pos]], accepted)))
  {
    assert t.broker.incoming + [] == t.broker.incoming;
    assert t.batches[d := t.batches[d].(stage := stage)] - {d} == t.batches - {d};
  }

  lemma LastPublishOne(c: Config, s: State, t: State, d: nat, rows: seq<RowId>, e: Sending) returns (steps: seq<Step>)
    requires WellFormed(t.broker) && InBatch(s, t, d, rows, t.broker) && Possible(e)
    requires t.batches[d].pos < |rows| && t.batches[d].stage == NextRow && rows[t.batches[d].pos] in s.outbox
    ensures Run(c, t, steps) && OnlyDispatcher(d, steps)
    ensures InBatch(s, Exec(c, t, steps), d, rows, Queued(t.broker, Copies(s.outbox[rows[t.batches[d].pos]], e.accepted)))
  {
    var stage := if e.raised then Raised(e.accepted, e.error) else Sent;
    steps := [Dispatch(d, PublishRow(e.accepted, e.raised, e.error))];
    LastPublishStep(c, s, t, d, rows, e, stage);
    LastPublished(s, t, d, rows, e.accepted, stage);
    OneStep(c, t, steps[0]);
  }

  /** The publish after the last finished row, if there is one. */
  lemma LastPublishRun(c: Config, s: State, t: State, d: nat, rows: seq<RowId>, writes: map<RowId, Write>, k: nat,
                       e: Sending, broker: Broker) returns (steps: seq<Step>)
    requires WellFormed(s.broker) && k <= |rows| && d !in s.batches && BatchAt(s, t, d, rows, writes, k, NextRow, k)
    requires k < |rows| ==> rows[k] in s.outbox && Possible(e)
    requires broker == Queued(s.broker, Deliveries(s.outbox, rows[..k], writes)
                                        + if k < |rows| then Copies(s.outbox[rows[k]], e.accepted) else [])
    ensures Run(c, t, steps) && OnlyDispatcher(d, steps) && InBatch(s, Exec(c, t, steps), d, rows, broker)
  {
    var sent := Deliveries(s.outbox, rows[..k], writes);
    var last := if k < |rows| then Copies(s.outbox[rows[k]], e.accepted) else [];
    assert s.broker.incoming + sent + last == s.broker.incoming + (sent + last);
    BatchAtIsIn(s, t, d, rows, writes, k);
    if k < |rows| {
      steps := LastPublishOne(c, s, t, d, rows, e);
    } else {
      steps := [];
    }
  }

  /** Whatever `ProcessBatch` may do when an exception ends it, one dispatcher
      can do in a run that rolls the batch back: the same messages are out, and
      everything else is as it was. */
  lemma AbortedBatchIsARun(c: Config, s: State, d: nat, rows: seq<RowId>, writes: map<RowId, Write>, end: real,
                           k: nat, e: Sending, broker: Broker) returns (steps: seq<Step>)
    requires Reached(c, s) && d !in s.batches && IsFetch(s.outbox, s.locks.Keys, s.now, c.batchSize, rows)
    requires BrokenOff(c, s.outbox, s.broker, rows, writes, s.now, end, k, e, broker)
    ensures Run(c, s, steps) && OnlyDispatcher(d, steps)
    ensures BatchDone(s, Exec(c, s, steps), s.outbox, broker)
  {
    ReachedWellFormed(c, s);
    ReachedSends(c, s);
    FetchedRowsFree(s, c.batchSize, rows);
    var before := PrefixRun(c, s, d, rows, writes, end, k);
    var t := Exec(c, s, before);
    var publish := LastPublishRun(c, s, t, d, rows, writes, k, e, broker);
    var abort := AbortRun(c, s, Exec(c, t, publish), d, rows, broker);
    RunConcat(c, t, publish, abort);
    RunConcat(c, s, before, publish + abort);
    steps := before + (publish + abort);
  }
}
