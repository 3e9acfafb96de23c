/** The dispatcher's poll loop: it works batch after batch and sleeps when one
    comes back short. */
module DispatcherLoop {
  import opened Basics
  import opened Entities
  import opened OutboxQuery
  import opened Pipeline
  import opened Messaging
  import opened OutboxDispatcher

  /** No unlocked row becomes eligible after `now`. */
  ghost predicate NothingLater(table: map<RowId, Row>, locked: set<RowId>, now: real) {
    forall r | r in table && r !in locked && table[r].status == RowPending :: table[r].nextAttemptAt <= now
  }

  /** What is left after the marked rows: the same candidates at any later time. */
  lemma Remaining(table: map<RowId, Row>, locked: set<RowId>, now: real, sent: seq<RowId>, writes: map<RowId, Write>,
                  later: real)
    requires NothingLater(table, locked, now) && now <= later
    requires AllMarked(sent, writes) && writes.Keys == Elements(sent)
    ensures Candidates(Apply(table, writes), locked, later) == Candidates(table, locked, now) - Elements(sent)
  {
    var after := Apply(table, writes);
    forall r ensures r in Candidates(after, locked, later) <==> r in Candidates(table, locked, now) - Elements(sent) {
      if r in table && r in writes {
        assert r in sent && after[r].status == RowPublished;
      }
    }
  }

  /** Fetching twice in a row is fetching once with the limits added. */
  lemma FetchTwice(table: map<RowId, Row>, locked: set<RowId>, now: real, one: seq<RowId>,
                   rest: map<RowId, Row>, later: real, limit: nat, two: seq<RowId>)
    requires IsFetch(table, locked, now, |one|, one) && IsFetch(rest, locked, later, limit, two)
    requires Candidates(rest, locked, later) == Candidates(table, locked, now) - Elements(one)
    requires forall r | r in Candidates(rest, locked, later) :: rest[r] == table[r]
    ensures IsFetch(table, locked, now, |one + two|, one + two)
  {
    var all := one + two;
    forall r | r in all ensures r in Candidates(table, locked, now) {
      assert r in one || r in two;
    }
    forall r | r in two ensures r !in one && table[r] == rest[r] {
      assert r in Candidates(rest, locked, later);
    }
    forall i, j | 0 <= i < j < |all|
      ensures all[i] in all && all[j] in all && all[i] != all[j] && !Before(table[all[j]], table[all[i]]) {
      if j < |one| {
        assert all[i] == one[i] && all[j] == one[j];
      } else if i < |one| {
        assert all[i] == one[i] && all[j] == two[j - |one|] && two[j - |one|] in two;
      } else {
        assert all[i] == two[i - |one|] && all[j] == two[j - |one|];
      }
    }
    forall r, q | r in Candidates(table, locked, now) && r !in all && q in all ensures !Before(table[r], table[q]) {
      assert r !in one && r !in two && r in Candidates(rest, locked, later);
      assert q in one || q in two;
    }
  }

  lemma {:induction false} DeliveriesTwice(table: map<RowId, Row>, one: seq<RowId>, first: map<RowId, Write>,
                                           two: seq<RowId>, second: map<RowId, Write>)
    requires first.Keys == Elements(one) && second.Keys >= Elements(two) && first.Keys !! second.Keys
    ensures Deliveries(table, one + two, first + second)
            == Deliveries(table, one, first) + Deliveries(Apply(table, first), two, second)
  {
    if two == [] {
      assert one + two == one;
      DeliveriesSame(table, one, first, first + second);
    } else {
      var init, r := two[..|two| - 1], two[|two| - 1];
      assert (one + two)[..|one + two| - 1] == one + init;
      assert r in Elements(two) && r !in first;
      DeliveriesTwice(table, one, first, init, second);
    }
  }

  lemma {:induction false} DeliveriesSame(table: map<RowId, Row>, rows: seq<RowId>, writes: map<RowId, Write>,
                                          more: map<RowId, Write>)
    requires forall r | r in rows :: r in writes && r in more && more[r] == writes[r]
    ensures Deliveries(table, rows, more) == Deliveries(table, rows, writes)
  {
    if rows != [] {
      DeliveriesSame(table, rows[..|rows| - 1], writes, more);
    }
  }

  lemma ClockedTwice(start: real, one: seq<RowId>, first: map<RowId, Write>, pause: real, resume: real,
                     two: seq<RowId>, second: map<RowId, Write>)
    requires Clocked(start, one, first) && start <= pause && (forall r | r in one :: first[r].at <= pause)
    requires Clocked(resume, two, second) && pause <= resume
    requires forall r | r in one :: r !in second
    ensures Clocked(start, one + two, first + second)
  {
    var all, writes := one + two, first + second;
    forall r | r in all ensures r in writes {
      assert r in one || r in two;
    }
    forall i, j | 0 <= i <= j < |all| ensures start <= writes[all[i]].at <= writes[all[j]].at {
      if j < |one| {
        assert writes[all[i]] == first[one[i]] && writes[all[j]] == first[one[j]];
      } else {
        assert writes[all[j]] == second[two[j - |one|]];
        if i < |one| {
          assert one[i] in one && writes[all[i]] == first[one[i]];
        } else {
          assert writes[all[i]] == second[two[i - |one|]];
        }
      }
    }
  }

  lemma DoneTwice(c: Config, table: map<RowId, Row>, one: seq<RowId>, first: map<RowId, Write>, start: real,
                  pause: real, resume: real, two: seq<RowId>, second: map<RowId, Write>, end: real)
    requires Done(c, table, one, first, start, pause) && pause <= resume
    requires Done(c, Apply(table, first), two, second, resume, end) && (forall r | r in two :: r !in one)
    ensures Done(c, table, one + two, first + second, start, end)
  {
    ClockedTwice(start, one, first, pause, resume, two, second);
    var all, writes := one + two, first + second;
    forall r | r in all ensures r in table && r in writes && ProperWrite(c, table[r], writes[r]) && writes[r].at <= end {
      assert r in one || r in two;
    }
  }

  lemma ApplyTwice(table: map<RowId, Row>, first: map<RowId, Write>, second: map<RowId, Write>)
    requires first.Keys !! second.Keys
    ensures Apply(Apply(table, first), second) == Apply(table, first + second)
  {
  }

  /** Two batches in a row act like one batch. */
  lemma MidwayTwice(c: Config, table: map<RowId, Row>, queue: Broker, one: seq<RowId>, first: map<RowId, Write>,
                    start: real, pause: real, between: map<RowId, Row>, broker: Broker,
                    resume: real, two: seq<RowId>, second: map<RowId, Write>, end: real,
                    after: map<RowId, Row>, broker': Broker)
    requires Midway(c, table, queue, one, first, start, pause, between, broker) && pause <= resume
    requires Midway(c, between, broker, two, second, resume, end, after, broker')
    requires forall r | r in two :: r !in one
    ensures Midway(c, table, queue, one + two, first + second, start, end, after, broker')
  {
    DoneTwice(c, table, one, first, start, pause, resume, two, second, end);
    assert first.Keys !! second.Keys;
    ApplyTwice(table, first, second);
    DeliveriesTwice(table, one, first, two, second);
    QueuedTwice(queue, Deliveries(table, one, first), Deliveries(between, two, second));
  }

  lemma QueuedTwice(b: Broker, first: seq<Message>, second: seq<Message>)
    ensures Queued(Queued(b, first), second) == Queued(b, first + second)
  {
    assert b.incoming + first + second == b.incoming + (first + second);
  }

  /** Rows are fetched until none is left: with limit `b`, `n` rows. */
  lemma RoundsNeeded(n: nat, b: nat, q: nat, p: nat)
    requires n == q * b + p && p < b
    ensures n / b == q && (n + b - 1) / b == if p == 0 then q else q + 1
  {
    Quotient(n, b, q, p);
    if p == 0 {
      Quotient(n + b - 1, b, q, b - 1);
    } else {
      assert (q + 1) * b == q * b + b;
      Quotient(n + b - 1, b, q + 1, p - 1);
    }
  }

  /** One iteration, as a step of the whole stretch. */
  method Iterate(c: Config, session: OutboxSession, publisher: Publisher, clock: real,
                 ghost table: map<RowId, Row>, ghost queue: Broker, ghost now: real,
                 ghost sent: seq<RowId>, ghost writes: map<RowId, Write>, ghost iterations: nat, ghost busy: nat)
    returns (processed: nat, end: real, ghost sent': seq<RowId>, ghost writes': map<RowId, Write>, ghost busy': nat)
    requires c.batchSize >= 1 && session.reliable && publisher.reliable && NothingLater(table, session.elsewhere, now)
    requires WellFormed(publisher.broker) && session.working == session.committed
    requires SoFar(c, table, queue, session.elsewhere, now, sent, writes, clock, session.committed, publisher.broker)
    requires Counted(c.batchSize, |sent|, c.batchSize, iterations, busy)
    modifies session`committed, session`working, session`held, publisher`broker
    ensures WellFormed(publisher.broker) && session.working == session.committed
    ensures SoFar(c, table, queue, session.elsewhere, now, sent', writes', end, session.committed, publisher.broker)
    ensures processed <= c.batchSize && |sent'| == |sent| + processed <= |Candidates(table, session.elsewhere, now)|
    ensures processed < c.batchSize ==> Candidates(table, session.elsewhere, now) == Elements(sent')
    ensures Counted(c.batchSize, |sent'|, processed, iterations + 1, busy')
  {
    ghost var between, broker := session.committed, publisher.broker;
    var t := Now(clock);
    var ok;
    ghost var rows, more, k, e;
    processed, ok, end, rows, more, k, e := ProcessBatch(c, session, publisher, t);
    Round(c, table, queue, session.elsewhere, now, sent, writes, clock, between, broker, t, rows, more, end,
          session.committed, publisher.broker);
    CountedNext(c.batchSize, sent, iterations, busy, rows);
    sent', writes' := sent + rows, writes + more;
    busy' := if processed > 0 then busy + 1 else busy;
  }

  /** `_run_loop` until it sleeps, when nothing fails and no further row becomes
      eligible. The whole stretch acts like one unlimited batch: every eligible
      unlocked row is sent and marked, in order. */
  method RunUntilSleep(c: Config, session: OutboxSession, publisher: Publisher, now: real)
    returns (iterations: nat, last: nat, end: real,
             ghost busy: nat, ghost sent: seq<RowId>, ghost writes: map<RowId, Write>)
    requires c.batchSize >= 1 && session.reliable && publisher.reliable
    requires WellFormed(publisher.broker) && session.working == session.committed
    requires NothingLater(session.committed, session.elsewhere, now)
    modifies session`committed, session`working, session`held, publisher`broker
    ensures SoFar(c, old(session.committed), old(publisher.broker), session.elsewhere, now, sent, writes, end,
                  session.committed, publisher.broker)
    ensures Elements(sent) == Candidates(old(session.committed), session.elsewhere, now)
    ensures last < c.batchSize && Slept(c.batchSize, |sent|, last, iterations, busy)
  {
    ghost var table, queue := session.committed, publisher.broker;
    last := c.batchSize;
    iterations, end, busy, sent, writes := 0, now, 0, [], map[];
    MidwayStart(c, table, queue, now);
    while last >= c.batchSize
      invariant WellFormed(publisher.broker) && session.working == session.committed
      invariant SoFar(c, table, queue, session.elsewhere, now, sent, writes, end, session.committed, publisher.broker)
      invariant last <= c.batchSize && Counted(c.batchSize, |sent|, last, iterations, busy)
      invariant last < c.batchSize ==> Candidates(table, session.elsewhere, now) == Elements(sent)
      decreases |Candidates(table, session.elsewhere, now)| - |sent|, last
    {
      last, end, sent, writes, busy :=
        Iterate(c, session, publisher, end, table, queue, now, sent, writes, iterations, busy);
      iterations := iterations + 1;
    }
  }

  /** Clearing `n` eligible rows takes `n / batchSize` rounded up iterations, and
      the loop sleeps in iteration `n / batchSize + 1`, when all are taken. */
  method Drain(c: Config, session: OutboxSession, publisher: Publisher, now: real)
    returns (iterations: nat, end: real, ghost busy: nat)
    requires c.batchSize >= 1 && session.reliable && publisher.reliable
    requires WellFormed(publisher.broker) && session.working == session.committed
    requires NothingLater(session.committed, session.elsewhere, now)
    modifies session`committed, session`working, session`held, publisher`broker
    ensures var n := |Candidates(old(session.committed), session.elsewhere, now)|;
            iterations == n / c.batchSize + 1 && busy == (n + c.batchSize - 1) / c.batchSize
    ensures Candidates(session.committed, session.elsewhere, end) == {}
  {
    var last;
    ghost var sent, writes;
    ghost var table := session.committed;
    iterations, last, end, busy, sent, writes := RunUntilSleep(c, session, publisher, now);
    Remaining(table, session.elsewhere, now, sent, writes, end);
    DistinctCardinality(sent);
    CountedEnd(c.batchSize, |sent|, last, iterations, busy);
  }

  /** The loop so far: the rows sent are an answer of one fetch, and all marked. */
  ghost predicate SoFar(c: Config, table: map<RowId, Row>, queue: Broker, locked: set<RowId>, now: real,
                        sent: seq<RowId>, writes: map<RowId, Write>, end: real,
                        working: map<RowId, Row>, broker: Broker) {
    && IsFetch(table, locked, now, |sent|, sent)
    && AllMarked(sent, writes)
    && Midway(c, table, queue, sent, writes, now, end, working, broker)
  }

  lemma Round(c: Config, table: map<RowId, Row>, queue: Broker, locked: set<RowId>, now: real,
              sent: seq<RowId>, writes: map<RowId, Write>, end: real, between: map<RowId, Row>, broker: Broker,
              t: real, rows: seq<RowId>, more: map<RowId, Write>, finish: real,
              after: map<RowId, Row>, broker': Broker)
    requires SoFar(c, table, queue, locked, now, sent, writes, end, between, broker)
    requires NothingLater(table, locked, now) && end <= t
    requires IsFetch(between, locked, t, c.batchSize, rows) && AllMarked(rows, more)
    requires Midway(c, between, broker, rows, more, t, finish, after, broker')
    ensures SoFar(c, table, queue, locked, now, sent + rows, writes + more, finish, after, broker')
    ensures |rows| < c.batchSize ==> Candidates(table, locked, now) == Elements(sent + rows)
    ensures |sent + rows| <= |Candidates(table, locked, now)|
  {
    Remaining(table, locked, now, sent, writes, t);
    RoundFetch(c, table, locked, now, sent, writes, between, t, rows);
    MidwayTwice(c, table, queue, sent, writes, now, end, between, broker, t, rows, more, finish, after, broker');
    AllMarkedTwice(sent, writes, rows, more);
  }

  /** Rows sent by `k` full batches. */
  function Full(k: nat, b: nat): nat {
    if k == 0 then 0 else Full(k - 1, b) + b
  }

  lemma {:induction false} FullIsProduct(k: nat, b: nat)
    ensures Full(k, b) == k * b
  {
    if k > 0 {
      FullIsProduct(k - 1, b);
      assert k * b == (k - 1) * b + b;
    }
  }

  /** Full rounds so far, or full rounds and a last short one. */
  predicate Counted(b: nat, sent: nat, last: nat, iterations: nat, busy: nat) {
    && (last >= b ==> sent == Full(iterations, b) && busy == iterations)
    && (last < b ==> Slept(b, sent, last, iterations, busy))
  }

  predicate Slept(b: nat, sent: nat, last: nat, iterations: nat, busy: nat) {
    && iterations > 0
    && sent == Full(iterations - 1, b) + last
    && busy == if last == 0 then iterations - 1 else iterations
  }

  lemma CountedNext(b: nat, sent: seq<RowId>, iterations: nat, busy: nat, rows: seq<RowId>)
    requires Counted(b, |sent|, b, iterations, busy) && |rows| <= b && b >= 1
    ensures Counted(b, |sent + rows|, |rows|, iterations + 1, if |rows| > 0 then busy + 1 else busy)
  {
    assert iterations + 1 - 1 == iterations;
  }

  lemma CountedEnd(b: nat, sent: nat, processed: nat, iterations: nat, busy: nat)
    requires Slept(b, sent, processed, iterations, busy) && processed < b
    ensures iterations == sent / b + 1 && busy == (sent + b - 1) / b
  {
    FullIsProduct(iterations - 1, b);
    RoundsNeeded(sent, b, iterations - 1, processed);
  }

  lemma AllMarkedTwice(one: seq<RowId>, first: map<RowId, Write>, two: seq<RowId>, second: map<RowId, Write>)
    requires AllMarked(one, first) && AllMarked(two, second) && second.Keys == Elements(two)
    ensures AllMarked(one + two, first + second)
  {
    forall r | r in one + two ensures r in first + second && (first + second)[r].Mark? {
      assert r in one || r in two;
    }
  }

  lemma RoundFetch(c: Config, table: map<RowId, Row>, locked: set<RowId>, now: real, sent: seq<RowId>,
              writes: map<RowId, Write>, between: map<RowId, Row>, t: real, rows: seq<RowId>)
    requires IsFetch(table, locked, now, |sent|, sent) && between == Apply(table, writes)
    requires writes.Keys == Elements(sent)
    requires Candidates(between, locked, t) == Candidates(table, locked, now) - Elements(sent)
    requires IsFetch(between, locked, t, c.batchSize, rows)
    ensures IsFetch(table, locked, now, |sent + rows|, sent + rows)
    ensures forall r | r in rows :: r !in sent
    ensures |rows| < c.batchSize ==> Candidates(table, locked, now) == Elements(sent + rows)
    ensures |sent + rows| <= |Candidates(table, locked, now)|
  {
    FetchTwice(table, locked, now, sent, between, t, c.batchSize, rows);
    forall r | r in rows ensures r !in sent {
      assert r in Candidates(between, locked, t);
    }
    FetchSize(table, locked, now, |sent + rows|, sent + rows);
    if |rows| < c.batchSize {
      forall r ensures r in Candidates(table, locked, now) <==> r in Elements(sent + rows) {
      }
    }
  }
}
