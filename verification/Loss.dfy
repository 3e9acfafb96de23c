/** The exact condition under which no payment can be lost, and runs of the
    code that show what happens without it. */
module Loss {
  import opened Basics
  import opened Entities
  import opened RetryHeaders
  import opened Topology
  import opened OutboxQuery
  import opened Pipeline
  import opened Creation
  import opened Chains
  import opened NoLoss
  import opened Guarantees
  import opened AtRest

  // ---- One payment, one message, nothing else under way

  ghost predicate AllPublished(outbox: map<RowId, Row>) {
    forall r | r in outbox :: outbox[r].status == RowPublished
  }

  const EMPTY_RETRY: seq<seq<Delayed>> := [[], [], []]

  /** What stays the same while the message is delivered again and again. */
  ghost predicate Undisturbed(s: State, p: PaymentId) {
    && p in s.payments && p in s.log.outcomes
    && s.log.notified == {} && s.broker.dead == []
    && AllPublished(s.outbox)
  }

  /** The only trace of `p` is a message in `payments.new` with count `n`. */
  ghost predicate Alone(s: State, p: PaymentId, n: nat) {
    && Undisturbed(s, p) && s.handlers == map[] && s.broker.retry == EMPTY_RETRY
    && |s.broker.incoming| == 1 && s.broker.incoming[0].pid == p && Count(s.broker.incoming[0]) == n
  }

  /** That message is with handler 0, in this phase. */
  ghost predicate Held(s: State, p: PaymentId, n: nat, phase: Phase) {
    && Undisturbed(s, p) && s.broker.retry == EMPTY_RETRY && s.broker.incoming == []
    && s.handlers.Keys == {0} && s.handlers[0].owned && s.handlers[0].phase == phase
    && s.handlers[0].msg.pid == p && Count(s.handlers[0].msg) == n
  }

  /** Taking a step from a reached state. */
  lemma Take(c: Config, s: State, step: Step) returns (t: State)
    requires Reached(c, s) && Enabled(c, s, step)
    ensures t == Next(c, s, step) && Reached(c, t)
  {
    t := Next(c, s, step);
    ReachedNext(c, s, t, step);
  }

  // ---- Launch: create a payment and publish its row

  const TERMS := Terms(1, RUB, "")

  lemma Launch(c: Config) returns (s: State)
    requires c.batchSize > 0
    ensures Reached(c, s) && Alone(s, 0, 0) && s.payments[0].outcome == UNPROCESSED
  {
    var s1 := Created1(c);
    s := Dispatched1(c, s1);
  }

  /** Payment 0 with row 1, just committed. */
  ghost predicate JustCreated(s: State) {
    && s.now == 0.0
    && s.payments.Keys == {0} && s.payments[0].outcome == UNPROCESSED
    && s.log.outcomes.Keys == {0} && s.log.notified == {}
    && s.outbox == map[1 := NewRow(0, 0.0)] && s.log.sends.Keys == {1}
    && s.locks == map[] && s.batches == map[] && s.handlers == map[]
    && s.broker == Broker([], EMPTY_RETRY, [])
  }

  ghost function Requesting(ids: set<nat>, phase: RequestPhase): State {
    Init().(ids := ids, requests := map[0 := Request("", TERMS, "", 0.0, phase)])
  }

  lemma BeginStep()
    ensures ApiEnabled(Init(), 0, Begin("", TERMS, ""))
    ensures ApiNext(Init(), 0, Begin("", TERMS, "")) == Requesting({}, Arrived)
  {
  }

  lemma LookupStep()
    ensures ApiEnabled(Requesting({}, Arrived), 0, Lookup(None))
    ensures ApiNext(Requesting({}, Arrived), 0, Lookup(None)) == Requesting({}, Unseen)
  {
    assert map[0 := Request("", TERMS, "", 0.0, Arrived)][0 := Request("", TERMS, "", 0.0, Unseen)]
        == map[0 := Request("", TERMS, "", 0.0, Unseen)];
  }

  lemma InsertStep()
    ensures ApiEnabled(Requesting({}, Unseen), 0, Insert(0, None))
    ensures ApiNext(Requesting({}, Unseen), 0, Insert(0, None)) == Requesting({0}, Inserted(0))
  {
    assert map[0 := Request("", TERMS, "", 0.0, Unseen)][0 := Request("", TERMS, "", 0.0, Inserted(0))]
        == map[0 := Request("", TERMS, "", 0.0, Inserted(0))];
    assert {} + {0} == {0};
  }

  lemma EnqueueStep()
    ensures ApiEnabled(Requesting({0}, Inserted(0)), 0, Enqueue(1))
    ensures ApiNext(Requesting({0}, Inserted(0)), 0, Enqueue(1)) == Requesting({0, 1}, Enqueued(0, 1))
  {
    assert map[0 := Request("", TERMS, "", 0.0, Inserted(0))][0 := Request("", TERMS, "", 0.0, Enqueued(0, 1))]
        == map[0 := Request("", TERMS, "", 0.0, Enqueued(0, 1))];
    assert {0} + {1} == {0, 1};
  }

  lemma CommitStep()
    ensures ApiEnabled(Requesting({0, 1}, Enqueued(0, 1)), 0, Commit)
    ensures JustCreated(ApiNext(Requesting({0, 1}, Enqueued(0, 1)), 0, Commit))
  {
  }

  lemma TakeApi(c: Config, s: State, a: ApiStep, t: State)
    requires Reached(c, s) && WellFormed(s.broker) && ApiEnabled(s, 0, a) && t == ApiNext(s, 0, a)
    ensures Reached(c, t)
  {
    ReachedNext(c, s, t, Api(0, a));
  }

  lemma InitReached(c: Config)
    ensures Reached(c, Init())
  {
    assert Run(c, Init(), []) && Exec(c, Init(), []) == Init();
  }

  lemma Created1(c: Config) returns (s: State)
    ensures Reached(c, s) && JustCreated(s)
  {
    InitReached(c);
    BeginStep();
    TakeApi(c, Init(), Begin("", TERMS, ""), Requesting({}, Arrived));
    LookupStep();
    TakeApi(c, Requesting({}, Arrived), Lookup(None), Requesting({}, Unseen));
    InsertStep();
    TakeApi(c, Requesting({}, Unseen), Insert(0, None), Requesting({0}, Inserted(0)));
    EnqueueStep();
    TakeApi(c, Requesting({0}, Inserted(0)), Enqueue(1), Requesting({0, 1}, Enqueued(0, 1)));
    CommitStep();
    s := ApiNext(Requesting({0, 1}, Enqueued(0, 1)), 0, Commit);
    TakeApi(c, Requesting({0, 1}, Enqueued(0, 1)), Commit, s);
  }

  /** Row 1 is in the open batch 0, at this stage. */
  ghost predicate Batching(s: State, b: Batch, incoming: seq<Message>) {
    && s.now == 0.0
    && s.payments.Keys == {0} && s.payments[0].outcome == UNPROCESSED
    && s.log.outcomes.Keys == {0} && s.log.notified == {}
    && s.outbox == map[1 := NewRow(0, 0.0)] && s.log.sends.Keys == {1}
    && s.locks == map[1 := 0] && s.batches == map[0 := b] && s.handlers == map[]
    && s.broker == Broker(incoming, EMPTY_RETRY, [])
  }

  const BATCH := Batch([1], map[1 := 0], 0.0, 0, NextRow, map[])

  lemma FetchStep(c: Config, s: State)
    requires c.batchSize > 0 && JustCreated(s)
    ensures DispatchEnabled(c, s, 0, Fetch([1]))
    ensures Batching(OpenBatch(s, 0, [1]), BATCH, [])
  {
    assert s.locks.Keys == {};
    assert Candidates(s.outbox, s.locks.Keys, s.now) == {1};
    assert Elements([1]) == {1};
    var t := OpenBatch(s, 0, [1]);
    assert t.locks == map[1 := 0];
    assert t.batches[0].snapshot == map[1 := 0];
    assert t.batches == map[0 := BATCH];
  }

  lemma PublishStep(c: Config, s: State)
    requires Batching(s, BATCH, [])
    ensures DispatchEnabled(c, s, 0, PublishRow(true, false, "")) && SendsKnown(s, 0)
    ensures Batching(PublishNext(s, 0, true, Sent), BATCH.(stage := Sent), [Message(0, NO_HEADERS, Trail([], true))])
  {
    assert map[0 := BATCH][0 := BATCH.(stage := Sent)] == map[0 := BATCH.(stage := Sent)];
  }

  lemma MarkStep(c: Config, s: State, m: Message)
    requires Batching(s, BATCH.(stage := Sent), [m])
    ensures DispatchEnabled(c, s, 0, MarkRow) && SendsKnown(s, 0)
    ensures Batching(SetBatch(s, 0, Advance(s.batches[0], Mark(s.now))),
                     BATCH.(pos := 1, writes := map[1 := Mark(0.0)]), [m])
  {
    var b := BATCH.(pos := 1, writes := map[1 := Mark(0.0)]);
    assert map[0 := BATCH.(stage := Sent)][0 := b] == map[0 := b];
  }

  lemma CommitBatchStep(c: Config, s: State, m: Message)
    requires Batching(s, BATCH.(pos := 1, writes := map[1 := Mark(0.0)]), [m])
    requires m.pid == 0 && Count(m) == 0
    ensures DispatchEnabled(c, s, 0, CommitBatch) && SendsKnown(s, 0)
    ensures var t := CommitWrites(CloseBatch(s, 0), s.batches[0].writes);
            Alone(t, 0, 0) && t.payments[0].outcome == UNPROCESSED
  {
  }

  lemma TakeDispatch(c: Config, s: State, a: DispatchStep, t: State)
    requires Reached(c, s) && WellFormed(s.broker) && DispatchEnabled(c, s, 0, a) && SendsKnown(s, 0)
    requires t == DispatchNext(c, s, 0, a)
    ensures Reached(c, t)
  {
    ReachedNext(c, s, t, Dispatch(0, a));
  }

  lemma Dispatched1(c: Config, s: State) returns (t: State)
    requires c.batchSize > 0 && Reached(c, s) && JustCreated(s)
    ensures Reached(c, t) && Alone(t, 0, 0) && t.payments[0].outcome == UNPROCESSED
  {
    var m := Message(0, NO_HEADERS, Trail([], true));
    FetchStep(c, s);
    var s1 := OpenBatch(s, 0, [1]);
    TakeDispatch(c, s, Fetch([1]), s1);
    PublishStep(c, s1);
    var s2 := PublishNext(s1, 0, true, Sent);
    TakeDispatch(c, s1, PublishRow(true, false, ""), s2);
    MarkStep(c, s2, m);
    var s3 := SetBatch(s2, 0, Advance(s2.batches[0], Mark(s2.now)));
    TakeDispatch(c, s2, MarkRow, s3);
    CommitBatchStep(c, s3, m);
    t := CommitWrites(CloseBatch(s3, 0), s3.batches[0].writes);
    TakeDispatch(c, s3, CommitBatch, t);
  }

  // ---- A failed webhook send

  lemma ToReady(c: Config, s: State, p: PaymentId, n: nat) returns (t: State, o: Outcome)
    requires Reached(c, s) && Alone(s, p, n)
    ensures Reached(c, t) && Held(t, p, n, Ready(o))
  {
    var s1 := Take(c, s, Handle(0, Deliver(0)));
    assert Held(s1, p, n, Got);
    var s2 := Take(c, s1, Handle(0, ReadPayment));
    if s.payments[p].outcome.status != Pending {
      t, o := s2, s.payments[p].outcome;
    } else {
      assert Held(s2, p, n, Window);
      t, o := Process(c, s2, p, n);
    }
  }

  lemma ProcessSteps(c: Config, s: State, p: PaymentId, n: nat, o: Outcome)
    requires Held(s, p, n, Window) && o == Outcome(Succeeded, Some(s.now))
    ensures HandlerEnabled(c, s, 0, ApplyOutcome(true)) && WellFormed(s.broker)
    ensures HandlerNext(c, s, 0, ApplyOutcome(true)) == Enter(s, 0, Applied(o))
    ensures Held(Enter(s, 0, Applied(o)), p, n, Applied(o))
  {
  }

  lemma CommitSteps(c: Config, s: State, p: PaymentId, n: nat, o: Outcome)
    requires Held(s, p, n, Applied(o))
    ensures HandlerEnabled(c, s, 0, CommitOutcome) && WellFormed(s.broker)
    ensures Held(HandlerNext(c, s, 0, CommitOutcome), p, n, Ready(o))
  {
  }

  lemma Process(c: Config, s: State, p: PaymentId, n: nat) returns (t: State, o: Outcome)
    requires Reached(c, s) && Held(s, p, n, Window)
    ensures Reached(c, t) && Held(t, p, n, Ready(o))
  {
    o := Outcome(Succeeded, Some(s.now));
    ProcessSteps(c, s, p, n, o);
    var s1 := Enter(s, 0, Applied(o));
    TakeHandle(c, s, 0, ApplyOutcome(true), s1);
    CommitSteps(c, s1, p, n, o);
    t := HandlerNext(c, s1, 0, CommitOutcome);
    TakeHandle(c, s1, 0, CommitOutcome, t);
  }

  lemma Fail(c: Config, s: State, p: PaymentId, n: nat) returns (t: State)
    requires Reached(c, s) && Alone(s, p, n)
    ensures Reached(c, t) && Held(t, p, n, Unsent(""))
  {
    var s1, o := ToReady(c, s, p, n);
    t := Take(c, s1, Handle(0, PostFailed("")));
  }

  /** A retry: the message comes back with its count raised by one. */
  lemma Retry(c: Config, s: State, p: PaymentId, n: nat) returns (t: State)
    requires Reached(c, s) && Alone(s, p, n) && n + 1 <= c.maxRetries && n < |RETRY_TTL_MS|
    ensures Reached(c, t) && Alone(t, p, n + 1)
  {
    var s1 := Fail(c, s, p, n);
    var s2, e := Queue(c, s1, p, n);
    t := Return(c, s2, p, n, e);
  }

  /** The message waits in retry queue `n + 1` and nowhere else. */
  ghost predicate Parked(s: State, p: PaymentId, n: nat, e: Delayed)
    requires n < |RETRY_TTL_MS|
  {
    && Undisturbed(s, p) && s.handlers == map[] && s.broker.incoming == []
    && s.broker.retry == EMPTY_RETRY[n := [e]] && e.msg.pid == p && e.msg.headers.count == Number(n + 1)
  }

  lemma RepublishedTo(c: Config, s: State, p: PaymentId, n: nat)
    requires Held(s, p, n, Unsent("")) && n + 1 <= c.maxRetries
    ensures RetryAddress(c, s.handlers[0].msg) == ToQueue(PaymentsRetry(n + 1))
  {
  }

  lemma QueueStep(c: Config, s: State, p: PaymentId, n: nat)
    requires Held(s, p, n, Unsent("")) && n + 1 <= c.maxRetries && n < |RETRY_TTL_MS|
    ensures HandlerEnabled(c, s, 0, Republish)
    ensures Parked(EndHandler(HandlerNext(c, s, 0, Republish), 0), p, n,
                   Delayed(RetryMessage(c, s.handlers[0].msg, ""), s.now + TtlSeconds(n + 1)))
  {
    RepublishedTo(c, s, p, n);
    var t := EndHandler(HandlerNext(c, s, 0, Republish), 0);
    var e := Delayed(RetryMessage(c, s.handlers[0].msg, ""), s.now + TtlSeconds(n + 1));
    assert [] + [e] == [e];
    assert t.broker.retry == EMPTY_RETRY[n := [e]];
    assert t.handlers == map[];
  }

  lemma TakeHandle(c: Config, s: State, h: nat, a: HandlerStep, t: State)
    requires Reached(c, s) && WellFormed(s.broker) && HandlerEnabled(c, s, h, a) && t == HandlerNext(c, s, h, a)
    ensures Reached(c, t)
  {
    ReachedNext(c, s, t, Handle(h, a));
  }

  lemma RepublishThenAck(c: Config, s: State) returns (t: State)
    requires Reached(c, s) && WellFormed(s.broker) && HandlerEnabled(c, s, 0, Republish)
    ensures Reached(c, t) && t == EndHandler(HandlerNext(c, s, 0, Republish), 0)
  {
    var s1 := HandlerNext(c, s, 0, Republish);
    TakeHandle(c, s, 0, Republish, s1);
    t := EndHandler(s1, 0);
    TakeHandle(c, s1, 0, Ack, t);
  }

  lemma Queue(c: Config, s: State, p: PaymentId, n: nat) returns (t: State, e: Delayed)
    requires Reached(c, s) && Held(s, p, n, Unsent("")) && n + 1 <= c.maxRetries && n < |RETRY_TTL_MS|
    ensures Reached(c, t) && Parked(t, p, n, e)
  {
    QueueStep(c, s, p, n);
    e := Delayed(RetryMessage(c, s.handlers[0].msg, ""), s.now + TtlSeconds(n + 1));
    t := RepublishThenAck(c, s);
  }

  lemma ExpireStep(s: State, p: PaymentId, n: nat, e: Delayed)
    requires n < |RETRY_TTL_MS| && Parked(s, p, n, e) && s.now >= e.due
    ensures ExpireEnabled(s, n + 1) && Alone(ExpireNext(s, n + 1), p, n + 1)
  {
    assert [e][1..] == [];
    assert EMPTY_RETRY[n := [e]][n := []] == EMPTY_RETRY;
  }

  lemma Return(c: Config, s: State, p: PaymentId, n: nat, e: Delayed) returns (t: State)
    requires n < |RETRY_TTL_MS| && Reached(c, s) && Parked(s, p, n, e)
    ensures Reached(c, t) && Alone(t, p, n + 1)
  {
    var s1 := Wait(s, if s.now < e.due then e.due else s.now);
    ReachedNext(c, s, s1, Tick(s1.now));
    ExpireStep(s1, p, n, e);
    t := ExpireNext(s1, n + 1);
    ReachedNext(c, s1, t, Expire(n + 1));
  }

  /** With no queue to retry in, the last copy vanishes. */
  lemma VanishStep(c: Config, s: State, p: PaymentId)
    requires Held(s, p, 3, Unsent("")) && !Safe(c)
    ensures HandlerEnabled(c, s, 0, Republish)
    ensures !NothingLost(EndHandler(HandlerNext(c, s, 0, Republish), 0))
  {
    RepublishedTo(c, s, p, 3);
    var t := EndHandler(HandlerNext(c, s, 0, Republish), 0);
    assert t.handlers == map[] && t.broker == s.broker;
    forall place ensures !At(t, p, place) {
    }
  }

  lemma Vanish(c: Config, s: State, p: PaymentId) returns (t: State)
    requires Reached(c, s) && Alone(s, p, 3) && !Safe(c)
    ensures Reached(c, t) && !NothingLost(t)
  {
    var s1 := Fail(c, s, p, 3);
    VanishStep(c, s1, p);
    t := RepublishThenAck(c, s1);
  }

  /** When more retries are configured than there are retry queues, and the
      publisher does not learn of it, some run loses an accepted payment. */
  lemma UnsafeLoses(c: Config)
    requires !Safe(c) && c.batchSize > 0
    ensures exists s :: Reached(c, s) && !NothingLost(s)
  {
    var s0 := Launch(c);
    var s1 := Retry(c, s0, 0, 0);
    var s2 := Retry(c, s1, 0, 1);
    var s3 := Retry(c, s2, 0, 2);
    var t := Vanish(c, s3, 0);
  }

  // ---- Retries used up

  /** With the retries used up, the message is dead-lettered with its reason. */
  lemma ExhaustStep(c: Config, s: State, p: PaymentId, n: nat)
    requires Held(s, p, n, Unsent("")) && n + 1 > c.maxRetries
    ensures HandlerEnabled(c, s, 0, Republish)
    ensures exists m :: m in EndHandler(HandlerNext(c, s, 0, Republish), 0).broker.dead
                        && m.pid == p && m.headers.dlqReason == Some("") && m.headers.retryReason == None
  {
    var m := RetryMessage(c, s.handlers[0].msg, "");
    assert RetryAddress(c, s.handlers[0].msg) == ViaExchange(DeadLetterExchange, PaymentFailed);
    var dead := EndHandler(HandlerNext(c, s, 0, Republish), 0).broker.dead;
    assert dead == s.broker.dead + [m];
    assert dead[|dead| - 1] == m;
  }

  lemma Exhaust(c: Config, s: State, p: PaymentId, n: nat) returns (t: State, m: Message)
    requires Reached(c, s) && Alone(s, p, n) && n + 1 > c.maxRetries
    ensures Reached(c, t) && m in t.broker.dead && m.pid == p && m.headers.dlqReason.Some?
  {
    var s1 := Fail(c, s, p, n);
    ExhaustStep(c, s1, p, n);
    t := RepublishThenAck(c, s1);
    m :| m in t.broker.dead && m.pid == p && m.headers.dlqReason == Some("") && m.headers.retryReason == None;
  }

  /** The message after as many retries as are left below `limit`. */
  lemma {:induction false} RetryUpTo(c: Config, s: State, p: PaymentId, n: nat, limit: nat) returns (t: State)
    requires Reached(c, s) && Alone(s, p, n) && n <= limit && (n == limit || limit <= c.maxRetries)
    requires limit <= |RETRY_TTL_MS|
    ensures Reached(c, t) && Alone(t, p, limit)
    decreases limit - n
  {
    if n == limit {
      return s;
    }
    var s1 := Retry(c, s, p, n);
    t := RetryUpTo(c, s1, p, n + 1, limit);
  }

  // ---- Two handlers of one payment

  /** Handlers `h` and `1 - h` both work on `p`, in these phases. */
  ghost predicate Twins(s: State, p: PaymentId, h: nat, mine: Phase, other: Phase) {
    && WellFormed(s.broker) && p in s.payments && p in s.log.outcomes
    && h < 2 && s.handlers.Keys == {h, 1 - h}
    && s.handlers[h].msg.pid == p && s.handlers[h].phase == mine
    && s.handlers[1 - h].msg.pid == p && s.handlers[1 - h].phase == other
  }

  /** The broker takes a delivery back while its handler goes on, and gives it to another. */
  lemma Duplicate(c: Config, s: State, p: PaymentId) returns (t: State)
    requires Reached(c, s) && Alone(s, p, 0) && s.payments[p].outcome == UNPROCESSED
    ensures Reached(c, t) && Twins(t, p, 0, Window, Got) && t.payments[p].outcome == UNPROCESSED
  {
    var m := s.broker.incoming[0];
    var s1 := SetHandler(TakeMessage(s, 0), 0, Handler(m, Got, true));
    TakeHandle(c, s, 0, Deliver(0), s1);
    var s2 := Enter(s1, 0, Window);
    TakeHandle(c, s1, 0, ReadPayment, s2);
    t := Redeliver(c, s2, p, m);
  }

  lemma TakenBackStep(c: Config, s: State, m: Message, t: State)
    requires WellFormed(s.broker) && s.broker.incoming == [] && s.handlers == map[0 := Handler(m, Window, true)]
    requires t == PutBack(SetHandler(s, 0, Handler(m, Window, false)), Redelivered(m))
    ensures HandlerEnabled(c, s, 0, Requeue) && t == HandlerNext(c, s, 0, Requeue)
    ensures WellFormed(t.broker) && t.broker.incoming == [Redelivered(m)] && t.handlers == map[0 := Handler(m, Window, false)]
  {
    assert s.handlers[0 := Handler(m, Window, false)] == map[0 := Handler(m, Window, false)];
  }

  lemma HandedOnStep(c: Config, s: State, p: PaymentId, m: Message, t: State)
    requires WellFormed(s.broker) && s.broker.incoming == [m] && s.handlers.Keys == {0}
    requires s.handlers[0].msg.pid == p && s.handlers[0].phase == Window && m.pid == p
    requires p in s.payments && p in s.log.outcomes
    requires t == SetHandler(TakeMessage(s, 0), 1, Handler(m, Got, true))
    ensures HandlerEnabled(c, s, 1, Deliver(0)) && t == HandlerNext(c, s, 1, Deliver(0))
    ensures Twins(t, p, 0, Window, Got) && t.payments == s.payments
  {
    assert t.handlers.Keys == {0, 1};
  }

  lemma Redeliver(c: Config, s: State, p: PaymentId, m: Message) returns (t: State)
    requires Reached(c, s) && WellFormed(s.broker) && s.broker.incoming == []
    requires s.handlers == map[0 := Handler(m, Window, true)] && m.pid == p
    requires p in s.payments && p in s.log.outcomes && s.payments[p].outcome == UNPROCESSED
    ensures Reached(c, t) && Twins(t, p, 0, Window, Got) && t.payments[p].outcome == UNPROCESSED
  {
    var s1 := PutBack(SetHandler(s, 0, Handler(m, Window, false)), Redelivered(m));
    TakenBackStep(c, s, m, s1);
    TakeHandle(c, s, 0, Requeue, s1);
    t := SetHandler(TakeMessage(s1, 0), 1, Handler(Redelivered(m), Got, true));
    HandedOnStep(c, s1, p, Redelivered(m), t);
    TakeHandle(c, s1, 1, Deliver(0), t);
  }

  lemma BothRead(c: Config, s: State, p: PaymentId) returns (t: State)
    requires Reached(c, s) && Twins(s, p, 0, Window, Got) && s.payments[p].outcome == UNPROCESSED
    ensures Reached(c, t) && Twins(t, p, 0, Window, Window)
  {
    t := Enter(s, 1, Window);
    TakeHandle(c, s, 1, ReadPayment, t);
  }

  lemma ApplyTwin(c: Config, s: State, p: PaymentId, h: nat, succeeded: bool, other: Phase, o: Outcome)
    requires Twins(s, p, h, Window, other) && !other.Applied?
    requires o == Outcome(if succeeded then Succeeded else Failed, Some(s.now))
    ensures HandlerEnabled(c, s, h, ApplyOutcome(succeeded))
    ensures var t := HandlerNext(c, s, h, ApplyOutcome(succeeded));
            Twins(t, p, h, Applied(o), other) && t.now == s.now && t.log == s.log
  {
  }

  lemma CommitTwin(c: Config, s: State, p: PaymentId, h: nat, other: Phase, o: Outcome)
    requires Twins(s, p, h, Applied(o), other)
    ensures HandlerEnabled(c, s, h, CommitOutcome)
    ensures var t := HandlerNext(c, s, h, CommitOutcome);
            Twins(t, p, h, Ready(o), other) && t.now == s.now && t.log.posts == s.log.posts
  {
  }

  lemma PostTwin(c: Config, s: State, p: PaymentId, h: nat, other: Phase, o: Outcome)
    requires Twins(s, p, h, Ready(o), other)
    ensures HandlerEnabled(c, s, h, PostDelivered)
    ensures var t := HandlerNext(c, s, h, PostDelivered);
            Twins(t, p, h, Notified, other) && t.now == s.now && t.log.posts == s.log.posts + [Post(p, o)]
  {
  }

  lemma Finish(c: Config, s: State, p: PaymentId, h: nat, succeeded: bool, other: Phase, o: Outcome) returns (t: State)
    requires Reached(c, s) && Twins(s, p, h, Window, other) && !other.Applied?
    requires o == Outcome(if succeeded then Succeeded else Failed, Some(s.now))
    ensures Reached(c, t) && Twins(t, p, h, Notified, other)
    ensures t.now == s.now && t.log.posts == s.log.posts + [Post(p, o)]
  {
    ApplyTwin(c, s, p, h, succeeded, other, o);
    var s1 := HandlerNext(c, s, h, ApplyOutcome(succeeded));
    TakeHandle(c, s, h, ApplyOutcome(succeeded), s1);
    CommitTwin(c, s1, p, h, other, o);
    var s2 := HandlerNext(c, s1, h, CommitOutcome);
    TakeHandle(c, s1, h, CommitOutcome, s2);
    PostTwin(c, s2, p, h, other, o);
    t := HandlerNext(c, s2, h, PostDelivered);
    TakeHandle(c, s2, h, PostDelivered, t);
  }

  /** Two delivered webhooks of one payment can contradict each other: the
      broker redelivers while the first handler is between read and commit. */
  lemma WebhooksCanContradict(c: Config)
    requires c.batchSize > 0
    ensures exists s, one, other :: && Reached(c, s) && one in s.log.posts && other in s.log.posts
                                    && one.pid == other.pid
                                    && one.outcome.status == Succeeded && other.outcome.status == Failed
  {
    var s0 := Launch(c);
    var s1 := Duplicate(c, s0, 0);
    var s2 := BothRead(c, s1, 0);
    var yes, no := Outcome(Succeeded, Some(s2.now)), Outcome(Failed, Some(s2.now));
    var s3 := Finish(c, s2, 0, 0, true, Window, yes);
    assert Twins(s3, 0, 1, Window, Notified);
    var t := Finish(c, s3, 0, 1, false, Notified, no);
    var posts := t.log.posts;
    assert posts == s2.log.posts + [Post(0, yes)] + [Post(0, no)];
    assert posts[|posts| - 2] == Post(0, yes) && posts[|posts| - 1] == Post(0, no);
  }

  // ---- With a batch size of zero nothing leaves the outbox

  ghost predicate NothingFetched(s: State) {
    && s.broker == Broker([], EMPTY_RETRY, []) && s.handlers == map[]
    && (forall d | d in s.batches :: s.batches[d].rows == [] && s.batches[d].writes == map[])
    && (forall r | r in s.outbox :: s.outbox[r].status == RowPending)
  }

  lemma IdleDispatch(c: Config, s: State, d: nat, a: DispatchStep)
    requires c.batchSize == 0 && NothingFetched(s)
    requires WellFormed(s.broker) && DispatchEnabled(c, s, d, a) && SendsKnown(s, d)
    ensures NothingFetched(DispatchNext(c, s, d, a))
  {
    match a
    case Fetch(_) =>
    case CommitBatch =>
    case AbortBatch =>
    case _ =>
  }

  lemma IdleStep(c: Config, s: State, step: Step)
    requires c.batchSize == 0 && NothingFetched(s) && Enabled(c, s, step)
    ensures NothingFetched(Next(c, s, step))
  {
    match step
    case Api(r, a) =>
      if !a.Commit? {
        ApiKeepsTables(s, r, a);
      }
    case Dispatch(d, a) => IdleDispatch(c, s, d, a);
    case Handle(_, _) =>
    case Expire(_) =>
    case Tick(_) =>
  }

  lemma {:induction false} IdleAlways(c: Config, steps: seq<Step>)
    requires c.batchSize == 0 && Run(c, Init(), steps)
    ensures NothingFetched(Exec(c, Init(), steps))
    decreases |steps|
  {
    if steps != [] {
      IdleAlways(c, steps[..|steps| - 1]);
      IdleStep(c, Exec(c, Init(), steps[..|steps| - 1]), steps[|steps| - 1]);
    }
  }

  lemma IdleLosesNothing(c: Config, s: State)
    requires c.batchSize == 0 && Reached(c, s)
    ensures NothingLost(s)
  {
    var steps :| Run(c, Init(), steps) && Exec(c, Init(), steps) == s;
    IdleAlways(c, steps);
    forall p | p in s.payments
      ensures exists r :: r in s.outbox && s.outbox[r].payload == p && s.outbox[r].status == RowPending {
      OneRowPerPayment(c, s, p);
    }
  }

  /** Nor does a system with a batch size of zero ever come to rest once it has
      accepted a payment. */
  lemma WithoutFetchesNoRest(c: Config, s: State)
    requires c.batchSize == 0 && Reached(c, s) && s.payments != map[]
    ensures !Idle(s)
  {
    var steps :| Run(c, Init(), steps) && Exec(c, Init(), steps) == s;
    IdleAlways(c, steps);
    var p: PaymentId :| p in s.payments;
    OneRowPerPayment(c, s, p);
    var r :| r in s.outbox && s.outbox[r].aggregate == p;
    assert s.outbox[r].status == RowPending;
  }

  /** No run loses an accepted payment exactly when there are no more retries
      than retry queues, or an unroutable publish raises, or no row is ever
      dispatched at all. */
  lemma NothingLostIff(c: Config)
    ensures (forall s | Reached(c, s) :: NothingLost(s))
            <==> (c.maxRetries <= |RETRY_TTL_MS| || c.returnRaises || c.batchSize == 0)
  {
    if Safe(c) {
      forall s | Reached(c, s) ensures NothingLost(s) { NoPaymentLost(c, s); }
    } else if c.batchSize == 0 {
      forall s | Reached(c, s) ensures NothingLost(s) { IdleLosesNothing(c, s); }
    } else {
      UnsafeLoses(c);
    }
  }

  /** Some run dead-letters a message as exhausted exactly when rows are
      dispatched at all and each retry has its queue. */
  lemma ExhaustedReachableIff(c: Config)
    ensures (exists s, m :: Reached(c, s) && m in s.broker.dead && m.headers.dlqReason.Some?)
            <==> c.maxRetries <= |RETRY_TTL_MS| && c.batchSize > 0
  {
    if c.maxRetries <= |RETRY_TTL_MS| && c.batchSize > 0 {
      var s := Launch(c);
      s := RetryUpTo(c, s, 0, 0, Max(c.maxRetries, 0));
      var t, m := Exhaust(c, s, 0, Max(c.maxRetries, 0));
    }
    forall s, m | Reached(c, s) && m in s.broker.dead && m.headers.dlqReason.Some?
      ensures c.maxRetries <= |RETRY_TTL_MS| && c.batchSize > 0 {
      ExhaustedUsedEveryRetry(c, s, m);
      if c.batchSize == 0 {
        NothingDead(c, s);
      }
    }
  }

  lemma NothingDead(c: Config, s: State)
    requires c.batchSize == 0 && Reached(c, s)
    ensures s.broker.dead == []
  {
    var steps :| Run(c, Init(), steps) && Exec(c, Init(), steps) == s;
    IdleAlways(c, steps);
  }
}
