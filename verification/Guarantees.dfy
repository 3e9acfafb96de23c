/** What holds after every run of the pipeline, from the empty system, in any
    interleaving and with any crashes. */
module Guarantees {
  import opened Basics
  import opened Entities
  import opened RetryHeaders
  import opened Topology
  import opened OutboxQuery
  import opened Pipeline
  import opened Creation
  import opened Dispatching
  import opened Chains
  import opened Outcomes
  import opened NoLoss
  import opened RetryQueues
  import Backoff

  ghost predicate Invariant(c: Config, s: State) {
    && Created(s)
    && Locked(s)
    && SendsAccounted(s)
    && Timed(c, s)
    && Chained(c, s)
    && Truthful(s)
    && AllInOrder(s.broker, s.now)
  }

  lemma InvariantInit(c: Config)
    ensures Invariant(c, Init())
  {
    CreatedInit();
    ChainedInit(c);
  }

  lemma InvariantStep(c: Config, s: State, step: Step)
    requires Invariant(c, s) && Enabled(c, s, step)
    ensures Invariant(c, Next(c, s, step))
  {
    CreatedStep(c, s, step);
    LockedStep(c, s, step);
    SendsStep(c, s, step);
    TimedStep(c, s, step);
    ChainedStep(c, s, step);
    TruthfulStep(c, s, step);
    OrderStep(c, s, step);
  }

  lemma {:induction false} InvariantFrom(c: Config, s: State, steps: seq<Step>)
    requires Invariant(c, s) && Run(c, s, steps)
    ensures Invariant(c, Exec(c, s, steps))
    decreases |steps|
  {
    if steps != [] {
      var init := steps[..|steps| - 1];
      InvariantFrom(c, s, init);
      InvariantStep(c, Exec(c, s, init), steps[|steps| - 1]);
    }
  }

  lemma InvariantAlways(c: Config, steps: seq<Step>)
    requires Run(c, Init(), steps)
    ensures Invariant(c, Exec(c, Init(), steps))
  {
    InvariantInit(c);
    InvariantFrom(c, Init(), steps);
  }

  /** Some run from the empty system ends in this state. */
  ghost predicate Reached(c: Config, s: State) {
    exists steps :: Run(c, Init(), steps) && Exec(c, Init(), steps) == s
  }

  lemma ReachedInvariant(c: Config, s: State)
    requires Reached(c, s)
    ensures Invariant(c, s)
  {
    var steps :| Run(c, Init(), steps) && Exec(c, Init(), steps) == s;
    InvariantAlways(c, steps);
  }

  lemma ReachedNext(c: Config, s: State, t: State, step: Step)
    requires Reached(c, s) && Enabled(c, s, step) && t == Next(c, s, step)
    ensures Reached(c, t)
  {
    var steps :| Run(c, Init(), steps) && Exec(c, Init(), steps) == s;
    RunSnoc(c, Init(), steps, step);
  }

  lemma ReachedRun(c: Config, s: State, steps: seq<Step>)
    requires Reached(c, s) && Run(c, s, steps)
    ensures Reached(c, Exec(c, s, steps))
  {
    var before :| Run(c, Init(), before) && Exec(c, Init(), before) == s;
    RunConcat(c, Init(), before, steps);
  }

  lemma ReachedCreated(c: Config, s: State)
    requires Reached(c, s)
    ensures Created(s)
  {
    ReachedInvariant(c, s);
  }

  lemma ReachedLocked(c: Config, s: State)
    requires Reached(c, s)
    ensures Locked(s)
  {
    ReachedInvariant(c, s);
  }

  lemma ReachedSends(c: Config, s: State)
    requires Reached(c, s)
    ensures SendsAccounted(s)
  {
    ReachedInvariant(c, s);
  }

  lemma ReachedTimed(c: Config, s: State)
    requires Reached(c, s)
    ensures RowsSpaced(c, s.outbox, s.log.failures)
  {
    ReachedInvariant(c, s);
  }

  lemma ReachedChained(c: Config, s: State)
    requires Reached(c, s)
    ensures Chained(c, s)
  {
    ReachedInvariant(c, s);
  }

  lemma ReachedWellFormed(c: Config, s: State)
    requires Reached(c, s)
    ensures WellFormed(s.broker)
  {
    ReachedInvariant(c, s);
  }

  lemma ReachedTruthful(c: Config, s: State)
    requires Reached(c, s)
    ensures Truthful(s)
  {
    ReachedInvariant(c, s);
  }

  lemma ReachedInOrder(c: Config, s: State)
    requires Reached(c, s)
    ensures AllInOrder(s.broker, s.now)
  {
    ReachedInvariant(c, s);
  }

  // ---- Creation

  /** At most one committed payment per key, and all accepted replies for a key
      name that payment and had its terms. */
  lemma OnePaymentPerKey(c: Config, s: State, one: Reply, other: Reply)
    requires Reached(c, s) && one in s.log.replies && other in s.log.replies
    requires one.response.Accepted? && other.response.Accepted? && one.key == other.key
    ensures one.response.id == other.response.id && one.terms == other.terms
    ensures one.response.id in s.payments && s.payments[one.response.id].terms == one.terms
    ensures forall p | p in s.payments && s.payments[p].key == one.key :: p == one.response.id
  {
    ReachedCreated(c, s);
    assert Honest(s.payments, one) && Honest(s.payments, other);
  }

  /** A conflict is only ever answered when a payment with the key is committed,
      and it still is. */
  lemma ConflictMeansTaken(c: Config, s: State, reply: Reply)
    requires Reached(c, s) && reply in s.log.replies && reply.response.Conflict?
    ensures exists p :: p in s.payments && s.payments[p].key == reply.key
                        && forall q | q in s.payments && s.payments[q].key == reply.key :: q == p
  {
    ReachedCreated(c, s);
    assert Honest(s.payments, reply);
    var p: PaymentId :| p in s.payments && s.payments[p].key == reply.key;
  }

  /** Payments and outbox rows match one to one, whatever happened to the rows since. */
  lemma OneRowPerPayment(c: Config, s: State, p: PaymentId)
    requires Reached(c, s) && p in s.payments
    ensures exists r :: && r in s.outbox && s.outbox[r].aggregate == p && s.outbox[r].payload == p
                        && forall q | q in s.outbox && s.outbox[q].aggregate == p :: q == r
  {
    ReachedCreated(c, s);
    assert s.log.rowFor[p] in s.outbox;
  }

  /** Every outbox row belongs to a committed payment and names it in its event. */
  lemma OnePaymentPerRow(c: Config, s: State, r: RowId)
    requires Reached(c, s) && r in s.outbox
    ensures s.outbox[r].aggregate in s.payments && s.outbox[r].payload == s.outbox[r].aggregate
    ensures s.outbox[r].routingKey == PaymentCreated
  {
    ReachedCreated(c, s);
  }

  /** Once a payment with its key is committed, a request is never told that the
      key is free, nor of another payment, and it cannot insert. */
  lemma CommittedKeyIsSeen(c: Config, s: State, r: nat, p: PaymentId, found: Option<PaymentId>)
    requires Reached(c, s) && p in s.payments && r in s.requests && s.requests[r].key == s.payments[p].key
    ensures Enabled(c, s, Api(r, Lookup(found))) ==> found == Some(p)
    ensures s.requests[r].terms.amount > 0 ==> forall id :: !Enabled(c, s, Api(r, Insert(id, None)))
  {
    ReachedKeys(c, s);
    assert !FoundByKey(s, s.requests[r].key, None);
    if found != Some(p) {
      assert !FoundByKey(s, s.requests[r].key, found);
    }
  }

  lemma ReachedKeys(c: Config, s: State)
    requires Reached(c, s)
    ensures forall p, q | p in s.payments && q in s.payments && s.payments[p].key == s.payments[q].key :: p == q
  {
    ReachedInvariant(c, s);
  }

  // ---- Dispatching

  /** The conditions that keep the step functions defined never block a step. */
  lemma GuardsNeverBlock(c: Config, s: State, d: nat, h: nat)
    requires Reached(c, s)
    ensures WellFormed(s.broker) && SendsKnown(s, d)
    ensures AtRow(s, d) ==> s.batches[d].rows[s.batches[d].pos] in s.batches[d].snapshot
    ensures h in s.handlers && s.handlers[h].phase.Applied? ==> Enabled(c, s, Handle(h, CommitOutcome))
  {
    ReachedWellFormed(c, s);
    ReachedCreated(c, s);
    ReachedLocked(c, s);
    if AtRow(s, d) {
      assert Holds(s.batches[d], d, s.locks, s.outbox);
      assert s.batches[d].rows[s.batches[d].pos] in s.batches[d].rows;
    }
    if h in s.handlers {
      PaymentAlwaysFound(c, s, h);
    }
  }

  /** A row after the commit of its batch: published, or pending with one more
      attempt and a time that follows from its last failure and the attempts it had. */
  ghost predicate Settled(c: Config, row: Row, row': Row, start: real, failures: seq<real>, failures': seq<real>) {
    || (&& row'.publishedAt.Some? && failures' == failures
        && row' == row.(status := RowPublished, publishedAt := row'.publishedAt, lastError := None))
    || (&& failures' != [] && row'.lastError.Some? && row'.status == RowPending
        && var at := failures'[|failures'| - 1];
           && failures' == failures + [at] && start <= at
           && row' == row.(attempts := row.attempts + 1, lastError := row'.lastError,
                           nextAttemptAt := at + Backoff.Delay(c.initial, c.cap, row.attempts)))
  }

  lemma SettledBy(c: Config, row: Row, w: Write, b: Batch, r: RowId, failures: seq<real>)
    requires BumpTimed(c, b, r, w) && r in b.snapshot && b.snapshot[r] == row.attempts && row.status == RowPending
    ensures Settled(c, row, Written(row, w), b.fetchedAt, failures, if w.Bump? then failures + [w.at] else failures)
  {
  }

  /** A batch commits as a whole: each of its rows is settled, every other row is
      as before, and a published row has been sent. */
  lemma BatchIsAtomic(c: Config, s: State, d: nat, t: State, r: RowId)
    requires Reached(c, s) && Enabled(c, s, Dispatch(d, CommitBatch)) && t == Next(c, s, Dispatch(d, CommitBatch))
    requires r in s.outbox
    ensures r in t.outbox && r in s.log.failures && r in t.log.failures
    ensures r in s.batches[d].rows ==> Settled(c, s.outbox[r], t.outbox[r], s.batches[d].fetchedAt,
                                               s.log.failures[r], t.log.failures[r])
    ensures r !in s.batches[d].rows ==> t.outbox[r] == s.outbox[r]
    ensures t.outbox[r].status == RowPublished ==> r in t.log.sends && t.log.sends[r] >= 1
  {
    ReachedTimedBatch(c, s, d, r);
    ReachedLocked(c, s);
    CommittedRowsWritten(s, d, r);
    if r in s.batches[d].rows {
      SettledBy(c, s.outbox[r], s.batches[d].writes[r], s.batches[d], r, s.log.failures[r]);
    }
    ReachedNext(c, s, t, Dispatch(d, CommitBatch));
    SendsAreConserved(c, t, r);
  }

  lemma ReachedTimedBatch(c: Config, s: State, d: nat, r: RowId)
    requires Reached(c, s) && d in s.batches && r in s.outbox
    ensures r in s.log.failures
    ensures r in s.batches[d].writes ==> BumpTimed(c, s.batches[d], r, s.batches[d].writes[r])
    ensures r in s.batches[d].rows ==> r in s.batches[d].snapshot && s.batches[d].snapshot[r] == s.outbox[r].attempts
  {
    ReachedInvariant(c, s);
    assert Holds(s.batches[d], d, s.locks, s.outbox);
  }

  /** A batch that is rolled back leaves the table as it is. Its rows are eligible
      and unlocked again, and no send is forgotten. */
  lemma AbortRestoresRows(c: Config, s: State, d: nat, t: State, r: RowId)
    requires Reached(c, s) && Enabled(c, s, Dispatch(d, AbortBatch)) && t == Next(c, s, Dispatch(d, AbortBatch))
    requires r in s.batches[d].rows
    ensures t.outbox == s.outbox && t.log.sends == s.log.sends
    ensures r in Candidates(t.outbox, t.locks.Keys, t.now)
  {
    ReachedLocked(c, s);
    assert Holds(s.batches[d], d, s.locks, s.outbox);
  }

  /** The sends of a row are its publication, the sends of rolled-back batches,
      the publishes that raised after the broker had accepted them, and the one
      of the batch still open. So a row that was never rolled back and never in
      doubt is sent exactly once when it is published. */
  lemma SendsAreConserved(c: Config, s: State, r: RowId)
    requires Reached(c, s) && r in s.outbox
    ensures r in s.log.sends && r in s.log.rolledBack && r in s.log.doubtful
    ensures s.log.sends[r] == PublishedCount(s.outbox[r]) + s.log.rolledBack[r] + s.log.doubtful[r]
                              + InFlight(s.locks, s.batches, r)
    ensures s.outbox[r].status == RowPublished && s.log.rolledBack[r] == 0 && s.log.doubtful[r] == 0
            ==> s.log.sends[r] == 1
  {
    ReachedSends(c, s);
    ReachedLocked(c, s);
    assert SendsOf(s, r);
    if r in s.locks {
      assert Holds(s.batches[s.locks[r]], s.locks[r], s.locks, s.outbox);
    }
  }

  /** Open batches never share a row. */
  lemma BatchesAreDisjoint(c: Config, s: State, d: nat, e: nat, r: RowId)
    requires Reached(c, s) && d in s.batches && e in s.batches
    requires r in s.batches[d].rows && r in s.batches[e].rows
    ensures d == e
  {
    ReachedLocked(c, s);
    assert Holds(s.batches[d], d, s.locks, s.outbox) && Holds(s.batches[e], e, s.locks, s.outbox);
  }

  /** From the first failure to the last of `n + 1`: the delays after the first `n`. */
  ghost predicate SpanAtLeast(c: Config, failures: seq<real>) {
    failures != [] ==>
      var n := |failures| - 1;
      failures[n] >= failures[0] + Backoff.ClosedForm(c.initial, c.cap, Backoff.Uncapped(c.initial, c.cap, n), n)
  }

  /** A row's attempts count its committed failures, and these are spread at
      least as the accumulated backoff says. */
  lemma FailuresAreSpaced(c: Config, s: State, r: RowId)
    requires Reached(c, s) && r in s.outbox && c.initial >= 0.0
    ensures r in s.log.failures && s.outbox[r].attempts == |s.log.failures[r]| <= Backoff.OVERFLOW_ATTEMPTS
    ensures SpanAtLeast(c, s.log.failures[r])
  {
    ReachedTimed(c, s);
    RowSpan(c, s.outbox[r], s.log.failures[r]);
  }

  lemma RowSpan(c: Config, row: Row, failures: seq<real>)
    requires Spaced(c, row, failures) && c.initial >= 0.0
    ensures SpanAtLeast(c, failures)
  {
    if failures != [] {
      FailuresSpan(c, row, failures, |failures| - 1);
      Backoff.DelaySumClosedForm(c.initial, c.cap, |failures| - 1);
    }
  }

  // ---- Chains

  /** No message of the pipeline ever refers to an unknown payment. */
  lemma PaymentAlwaysFound(c: Config, s: State, h: nat)
    requires Reached(c, s) && h in s.handlers
    ensures s.handlers[h].phase != Missing && s.handlers[h].msg.pid in s.payments
  {
    ReachedChained(c, s);
    assert Handled(c, s.payments.Keys, s.handlers[h], s.now);
  }

  /** The retry queue numbered `n` holds only messages with count `n`, released
      no earlier than the delays of the first `n` queues after the first failure. */
  lemma RetryQueueContents(c: Config, s: State, n: nat, e: Delayed)
    requires Reached(c, s) && 1 <= n <= |s.broker.retry| == |RETRY_TTL_MS| && e in s.broker.retry[n - 1]
    ensures Count(e.msg) == n <= c.maxRetries
    ensures |e.msg.trail.failures| >= n
    ensures e.due >= e.msg.trail.failures[0] + (if n == 1 then 2.0 else if n == 2 then 10.0 else 42.0)
    ensures e.msg.trail.clean ==> |e.msg.trail.failures| == n
  {
    ReachedChained(c, s);
    assert RetryOk(c, s.payments.Keys, s.broker.retry[n - 1], n - 1 + 1);
    assert Waiting(c, s.payments.Keys, e, n);
    TtlSums(n);
  }

  /** A message in `payments.new` carries the count written for it, never one
      the broker's own dead-letter header would suggest, and has waited. */
  lemma NewQueueContents(c: Config, s: State, m: Message)
    requires Reached(c, s) && m in s.broker.incoming
    ensures 0 <= Count(m) <= Ceiling(c) && Count(m) <= |RETRY_TTL_MS| && |m.trail.failures| >= Count(m)
    ensures m.headers.count == NoCount ==> m.headers.xDeath == NoDeath && Count(m) == 0
    ensures m.headers.count != NoCount ==> m.headers.count == Number(Count(m))
    ensures m.trail.failures != [] && Count(m) == 1 ==> s.now >= m.trail.failures[0] + 2.0
    ensures m.trail.failures != [] && Count(m) == 2 ==> s.now >= m.trail.failures[0] + 10.0
    ensures m.trail.failures != [] && Count(m) == 3 ==> s.now >= m.trail.failures[0] + 42.0
  {
    ReachedChained(c, s);
    assert Awaiting(c, s.payments.Keys, m, s.now);
    TtlSums(Count(m));
  }

  /** A message dead-lettered as exhausted has used every retry: one failed
      send more than the limit, and no other unless a delivery was lost. */
  lemma ExhaustedUsedEveryRetry(c: Config, s: State, m: Message)
    requires Reached(c, s) && m in s.broker.dead && m.headers.dlqReason.Some?
    ensures Count(m) == Ceiling(c) <= |RETRY_TTL_MS| && |m.trail.failures| >= Ceiling(c) + 1
    ensures m.trail.clean ==> |m.trail.failures| == Ceiling(c) + 1
  {
    ReachedChained(c, s);
    assert Buried(c, s.payments.Keys, m);
  }

  /** Entries of a retry queue expire in the order they entered. */
  lemma RetryQueueInOrder(c: Config, s: State, n: nat, i: nat, j: nat)
    requires Reached(c, s) && 1 <= n <= |s.broker.retry| == |RETRY_TTL_MS| && i < j < |s.broker.retry[n - 1]|
    ensures s.broker.retry[n - 1][i].due <= s.broker.retry[n - 1][j].due
  {
    ReachedInOrder(c, s);
    assert InOrder(s.broker.retry[n - 1], n - 1 + 1, s.now);
  }

  // ---- Outcomes

  /** Every webhook ever posted carried a final outcome committed before. */
  lemma WebhooksAreTruthful(c: Config, s: State, post: Post)
    requires Reached(c, s) && post in s.log.posts
    ensures post.pid in s.payments && post.pid in s.log.outcomes
    ensures post.outcome in s.log.outcomes[post.pid]
    ensures post.outcome.status != Pending && post.outcome.processedAt.Some?
  {
    ReachedTruthful(c, s);
    ReachedCreated(c, s);
    assert PostBacked(post, s.log.outcomes);
    assert Recorded(s.payments[post.pid], s.log.outcomes[post.pid]);
  }

  /** Windows on `p` never overlapped during the run. */
  ghost predicate AlwaysExclusive(c: Config, steps: seq<Step>, p: PaymentId)
    requires Run(c, Init(), steps)
    decreases |steps|
  {
    && ExclusiveFor(Exec(c, Init(), steps).handlers, p)
    && (steps != [] ==> AlwaysExclusive(c, steps[..|steps| - 1], p))
  }

  lemma {:induction false} OnceAlways(c: Config, steps: seq<Step>, p: PaymentId)
    requires Run(c, Init(), steps) && AlwaysExclusive(c, steps, p)
    ensures var s := Exec(c, Init(), steps); Once(s.handlers, s.log.outcomes, p)
    decreases |steps|
  {
    if steps != [] {
      var init := steps[..|steps| - 1];
      OnceAlways(c, init, p);
      InvariantAlways(c, init);
      OnceStep(c, Exec(c, Init(), init), steps[|steps| - 1], p);
    }
  }

  /** Without overlapping windows on it, all webhooks of a payment agree with
      each other and with the stored payment. */
  lemma WebhooksAgree(c: Config, steps: seq<Step>, s: State, one: Post, other: Post)
    requires Run(c, Init(), steps) && AlwaysExclusive(c, steps, one.pid) && s == Exec(c, Init(), steps)
    requires one in s.log.posts && other in s.log.posts && one.pid == other.pid
    ensures one.outcome == other.outcome
    ensures one.pid in s.payments && s.payments[one.pid].outcome == one.outcome
  {
    OnceAlways(c, steps, one.pid);
    InvariantAlways(c, steps);
    PostsAgree(s, one, other);
  }

  lemma PostsAgree(s: State, one: Post, other: Post)
    requires s.log.outcomes.Keys == s.payments.Keys && Once(s.handlers, s.log.outcomes, one.pid)
    requires AllRecorded(s.payments, s.log.outcomes) && PostsBacked(s.log.posts, s.log.outcomes)
    requires one in s.log.posts && other in s.log.posts && one.pid == other.pid
    ensures one.outcome == other.outcome
    ensures one.pid in s.payments && s.payments[one.pid].outcome == one.outcome
  {
    assert PostBacked(one, s.log.outcomes) && PostBacked(other, s.log.outcomes);
    assert Recorded(s.payments[one.pid], s.log.outcomes[one.pid]);
  }

  /** Without overlapping windows on any payment a run refines the machine in
      which a payment leaves PENDING once: each step is one of its steps or a stutter. */
  lemma RunsRefineView(c: Config, steps: seq<Step>, step: Step)
    requires Run(c, Init(), steps) && Enabled(c, Exec(c, Init(), steps), step)
    requires forall p: PaymentId :: AlwaysExclusive(c, steps, p)
    ensures ViewStep(View(Exec(c, Init(), steps)), View(Next(c, Exec(c, Init(), steps), step)))
  {
    var s := Exec(c, Init(), steps);
    forall p: PaymentId ensures Once(s.handlers, s.log.outcomes, p) {
      OnceAlways(c, steps, p);
    }
    InvariantAlways(c, steps);
    RefinesView(c, s, step);
  }

  /** In that machine a final outcome never changes again. */
  lemma FinalStaysFinal(v: map<PaymentId, Outcome>, v': map<PaymentId, Outcome>, p: PaymentId)
    requires ViewStep(v, v') && p in v && Terminal(v[p])
    ensures p in v' && v'[p] == v[p]
  {
    if exists q: PaymentId, o :: Finishes(v, v', q, o) {
      var q: PaymentId, o :| Finishes(v, v', q, o);
      assert q != p;
    } else if exists q: PaymentId :: Appears(v, v', q) {
      var q: PaymentId :| Appears(v, v', q);
      assert q != p;
    }
  }

  lemma ReachedStaysApi(c: Config, s: State, r: nat, a: ApiStep, p: PaymentId)
    requires Reached(c, s) && ApiEnabled(s, r, a) && p in s.payments
    ensures Keeps(s, ApiNext(s, r, a), p)
  {
    ReachedCreated(c, s);
    OutcomeStaysApi(s, r, a, p);
  }

  lemma ReachedStaysHandle(c: Config, s: State, h: nat, a: HandlerStep, p: PaymentId)
    requires Reached(c, s) && Once(s.handlers, s.log.outcomes, p) && HandlerEnabled(c, s, h, a) && WellFormed(s.broker)
    requires p in s.payments && s.payments[p].outcome.status != Pending
    ensures Keeps(s, HandlerNext(c, s, h, a), p)
  {
    ReachedTruthful(c, s);
    OutcomeStaysHandle(c, s, h, a, p);
  }

  /** While windows on `p` do not overlap, no step changes its outcome once it has one. */
  lemma OutcomeStays(c: Config, s: State, step: Step, p: PaymentId)
    requires Reached(c, s) && Once(s.handlers, s.log.outcomes, p) && Enabled(c, s, step)
    requires p in s.payments && s.payments[p].outcome.status != Pending
    ensures Keeps(s, Next(c, s, step), p)
  {
    match step
    case Api(r, a) => ReachedStaysApi(c, s, r, a, p);
    case Handle(h, a) => ReachedStaysHandle(c, s, h, a, p);
    case _ => OutcomeStaysElsewhere(c, s, step, p);
  }

  /** Without overlapping windows on it, the outcome a payment has at any moment
      of a run is its outcome at the end. */
  lemma {:induction false} OutcomeWrittenOnce(c: Config, steps: seq<Step>, k: nat, p: PaymentId)
    requires Run(c, Init(), steps) && AlwaysExclusive(c, steps, p) && k <= |steps|
    requires Run(c, Init(), steps[..k])
    requires var v := View(Exec(c, Init(), steps[..k])); p in v && v[p].status != Pending
    ensures var v := View(Exec(c, Init(), steps)); p in v && v[p] == View(Exec(c, Init(), steps[..k]))[p]
    decreases |steps|
  {
    if k == |steps| {
      assert steps[..k] == steps;
    } else {
      var init := steps[..|steps| - 1];
      assert init[..k] == steps[..k];
      OutcomeWrittenOnce(c, init, k, p);
      OnceAlways(c, init, p);
      OutcomeStays(c, Exec(c, Init(), init), steps[|steps| - 1], p);
    }
  }

  // ---- Nothing is lost

  lemma ChainedCounts(c: Config, s: State)
    requires Chained(c, s)
    ensures CountsOk(s)
  {
    forall i | 0 <= i < |s.broker.incoming| ensures CountOk(s.broker.incoming[i]) {
      assert Awaiting(c, s.payments.Keys, s.broker.incoming[i], s.now);
    }
    forall h | h in s.handlers ensures CountOk(s.handlers[h].msg) {
      HeldMessage(c, s, h);
    }
  }

  lemma {:induction false} CoveredAlways(c: Config, steps: seq<Step>)
    requires Safe(c) && Run(c, Init(), steps)
    ensures Covered(Exec(c, Init(), steps))
    decreases |steps|
  {
    if steps != [] {
      var init := steps[..|steps| - 1];
      CoveredAlways(c, init);
      InvariantAlways(c, init);
      ChainedCounts(c, Exec(c, Init(), init));
      CoveredStep(c, Exec(c, Init(), init), steps[|steps| - 1]);
    }
  }

  /** No accepted payment is lost, in any run. */
  lemma NoPaymentLost(c: Config, s: State)
    requires Safe(c) && Reached(c, s)
    ensures NothingLost(s)
  {
    var steps :| Run(c, Init(), steps) && Exec(c, Init(), steps) == s;
    CoveredAlways(c, steps);
    InvariantAlways(c, steps);
    CoveredMeansNothingLost(c, s);
  }
}
