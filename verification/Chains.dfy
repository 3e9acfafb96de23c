/** Retry chains: the count a message carries, the failures behind it, the
    delays it went through, and the payment it names. */
module Chains {
  import opened Basics
  import opened Entities
  import opened RetryHeaders
  import opened Topology
  import opened Pipeline
  import opened Creation

  function Count(m: Message): int {
    GetRetryCount(Some(m.headers))
  }

  /** The highest count a message can have. */
  function Ceiling(c: Config): int {
    Max(c.maxRetries, 0)
  }

  /** The delays of the first `n` retry queues, added up. */
  function TtlSum(n: nat): real
    requires n <= |RETRY_TTL_MS|
  {
    if n == 0 then 0.0 else TtlSum(n - 1) + TtlSeconds(n)
  }

  lemma TtlSums(n: nat)
    requires n <= |RETRY_TTL_MS|
    ensures TtlSum(n) == if n == 0 then 0.0 else if n == 1 then 2.0 else if n == 2 then 10.0 else 42.0
  {
    assert TtlSum(1) == TtlSum(0) + 2.0;
    assert TtlSum(2) == TtlSum(1) + 8.0;
    assert TtlSum(3) == TtlSum(2) + 32.0;
  }

  /** As many failed webhook sends as `n`, exactly as many if no delivery was lost. */
  predicate FailuresBehind(t: Trail, n: int) {
    |t.failures| >= n && (t.clean ==> |t.failures| == n)
  }

  /** No earlier than the delays of the first `n` queues after the first failure. */
  predicate DelayedBy(t: Trail, n: nat, at: real)
    requires n <= |RETRY_TTL_MS|
  {
    t.failures != [] ==> at >= t.failures[0] + TtlSum(n)
  }

  /** A message of the pipeline with a count the handler will read back: it is
      explicit, or zero on a message that was never dead-lettered. */
  ghost predicate InPipeline(c: Config, known: set<PaymentId>, m: Message) {
    && m.pid in known
    && 0 <= Count(m) <= Ceiling(c)
    && Count(m) <= |RETRY_TTL_MS|
    && CountIs(m.headers, Count(m))
    && m.headers.dlqReason == None
  }

  /** A message ready for its next webhook send. */
  ghost predicate Awaiting(c: Config, known: set<PaymentId>, m: Message, now: real) {
    InPipeline(c, known, m) && FailuresBehind(m.trail, Count(m)) && DelayedBy(m.trail, Count(m), now)
  }

  /** A message whose webhook send with its present count has failed. */
  ghost predicate FailedAgain(c: Config, known: set<PaymentId>, m: Message, now: real) {
    && InPipeline(c, known, m)
    && FailuresBehind(m.trail, Count(m) + 1)
    && m.trail.failures != []
    && DelayedBy(m.trail, Count(m), now)
  }

  /** An entry of the retry queue numbered `n`. */
  ghost predicate Waiting(c: Config, known: set<PaymentId>, e: Delayed, n: nat) {
    && InPipeline(c, known, e.msg)
    && Count(e.msg) == n && e.msg.headers.count == Number(n)
    && FailuresBehind(e.msg.trail, n)
    && DelayedBy(e.msg.trail, n, e.due)
  }

  /** A message that has used up its retries, in a configuration where the last
      retry has a queue. */
  ghost predicate Exhausted(c: Config, m: Message) {
    && m.headers.count == Number(Ceiling(c)) && Ceiling(c) <= |RETRY_TTL_MS|
    && m.headers.retryReason == None && m.headers.xDeath == NoDeath
    && FailuresBehind(m.trail, Ceiling(c) + 1)
  }

  /** A dead-lettered message has a reason and has used up its retries, or a
      handler dropped it and the broker has marked it. */
  ghost predicate Buried(c: Config, known: set<PaymentId>, m: Message) {
    m.pid in known && if m.headers.dlqReason.Some? then Exhausted(c, m) else m.headers.xDeath.FirstDeath?
  }

  ghost predicate Handled(c: Config, known: set<PaymentId>, x: Handler, now: real) {
    match x.phase
    case Missing => false
    case Unsent(_) => FailedAgain(c, known, x.msg, now)
    case Republished => FailedAgain(c, known, x.msg, now)
    case _ => Awaiting(c, known, x.msg, now)
  }

  ghost predicate IncomingOk(c: Config, known: set<PaymentId>, q: seq<Message>, now: real) {
    forall i | 0 <= i < |q| :: Awaiting(c, known, q[i], now)
  }

  ghost predicate RetryOk(c: Config, known: set<PaymentId>, q: seq<Delayed>, n: nat) {
    forall i | 0 <= i < |q| :: Waiting(c, known, q[i], n)
  }

  ghost predicate DeadOk(c: Config, known: set<PaymentId>, q: seq<Message>) {
    forall i | 0 <= i < |q| :: Buried(c, known, q[i])
  }

  ghost predicate HandlersOk(c: Config, known: set<PaymentId>, handlers: map<nat, Handler>, now: real) {
    forall h | h in handlers :: Handled(c, known, handlers[h], now)
  }

  ghost predicate QueuesOk(c: Config, known: set<PaymentId>, b: Broker, now: real) {
    && WellFormed(b)
    && IncomingOk(c, known, b.incoming, now)
    && (forall k | 0 <= k < |b.retry| :: RetryOk(c, known, b.retry[k], k + 1))
    && DeadOk(c, known, b.dead)
  }

  ghost predicate Chained(c: Config, s: State) {
    QueuesOk(c, s.payments.Keys, s.broker, s.now) && HandlersOk(c, s.payments.Keys, s.handlers, s.now)
  }

  lemma ChainedInit(c: Config)
    ensures Chained(c, Init())
  {
  }

  // ---- Queues

  /** A message that may be published to an address. */
  ghost predicate Fits(c: Config, known: set<PaymentId>, a: Address, m: Message, now: real) {
    match Route(a)
    case None => true
    case Some(PaymentsNew) => Awaiting(c, known, m, now)
    case Some(PaymentsDlq) => Buried(c, known, m)
    case Some(PaymentsRetry(n)) => Waiting(c, known, Delayed(m, now + TtlSeconds(n)), n)
  }

  lemma QueuesPublish(c: Config, known: set<PaymentId>, b: Broker, a: Address, m: Message, now: real)
    requires QueuesOk(c, known, b, now) && Fits(c, known, a, m, now)
    ensures QueuesOk(c, known, Publish(b, a, m, now), now)
  {
    match Route(a)
    case None =>
    case Some(PaymentsNew) => IncomingAppend(c, known, b.incoming, m, now);
    case Some(PaymentsDlq) => DeadAppend(c, known, b.dead, m);
    case Some(PaymentsRetry(n)) =>
      RetryAppend(c, known, b.retry[n - 1], Delayed(m, now + TtlSeconds(n)), n);
  }

  lemma IncomingAppend(c: Config, known: set<PaymentId>, q: seq<Message>, m: Message, now: real)
    requires IncomingOk(c, known, q, now) && Awaiting(c, known, m, now)
    ensures IncomingOk(c, known, q + [m], now)
  {
  }

  lemma DeadAppend(c: Config, known: set<PaymentId>, q: seq<Message>, m: Message)
    requires DeadOk(c, known, q) && Buried(c, known, m)
    ensures DeadOk(c, known, q + [m])
  {
  }

  lemma RetryAppend(c: Config, known: set<PaymentId>, q: seq<Delayed>, e: Delayed, n: nat)
    requires RetryOk(c, known, q, n) && Waiting(c, known, e, n)
    ensures RetryOk(c, known, q + [e], n)
  {
  }

  lemma HandlersSet(c: Config, known: set<PaymentId>, handlers: map<nat, Handler>, now: real, h: nat, x: Handler)
    requires HandlersOk(c, known, handlers, now) && Handled(c, known, x, now)
    ensures HandlersOk(c, known, handlers[h := x], now)
  {
  }

  lemma ChainedPublish(c: Config, s: State, a: Address, m: Message)
    requires Chained(c, s) && Fits(c, s.payments.Keys, a, m, s.now)
    ensures Chained(c, PublishMessage(s, a, m))
  {
    QueuesPublish(c, s.payments.Keys, s.broker, a, m, s.now);
  }

  lemma ChainedSet(c: Config, s: State, h: nat, x: Handler)
    requires Chained(c, s) && Handled(c, s.payments.Keys, x, s.now)
    ensures Chained(c, SetHandler(s, h, x))
  {
    HandlersSet(c, s.payments.Keys, s.handlers, s.now, h, x);
  }

  lemma ChainedEnd(c: Config, s: State, h: nat)
    requires Chained(c, s)
    ensures Chained(c, EndHandler(s, h))
  {
  }

  /** What a handler holds may always be dropped or put back. */
  lemma HeldMessage(c: Config, s: State, h: nat)
    requires Chained(c, s) && h in s.handlers
    ensures InPipeline(c, s.payments.Keys, s.handlers[h].msg)
    ensures Awaiting(c, s.payments.Keys, Redelivered(s.handlers[h].msg), s.now)
  {
    assert Handled(c, s.payments.Keys, s.handlers[h], s.now);
  }

  lemma ChainedDrop(c: Config, s: State, h: nat)
    requires Chained(c, s) && h in s.handlers
    ensures Chained(c, Drop(s, h))
  {
    var m := s.handlers[h].msg;
    HeldMessage(c, s, h);
    ChainedEnd(c, s, h);
    ChainedPublish(c, EndHandler(s, h), DeadLetterAddress(PaymentsNew).value, m.(headers := DeadLettered(m.headers)));
  }

  lemma ChainedPutBack(c: Config, s: State, h: nat)
    requires Chained(c, s) && h in s.handlers
    ensures var x := s.handlers[h];
            Chained(c, PutBack(SetHandler(s, h, x.(owned := false)), Redelivered(x.msg)))
  {
    var x := s.handlers[h];
    HeldMessage(c, s, h);
    assert Handled(c, s.payments.Keys, x, s.now);
    ChainedSet(c, s, h, x.(owned := false));
    IncomingAppend(c, s.payments.Keys, s.broker.incoming, Redelivered(x.msg), s.now);
  }

  lemma ChainedDeliver(c: Config, s: State, h: nat, i: nat)
    requires Chained(c, s) && i < |s.broker.incoming|
    ensures Chained(c, SetHandler(TakeMessage(s, i), h, Handler(s.broker.incoming[i], Got, true)))
  {
    assert Awaiting(c, s.payments.Keys, s.broker.incoming[i], s.now);
    IncomingRemove(c, s.payments.Keys, s.broker.incoming, s.now, i);
    ChainedSet(c, TakeMessage(s, i), h, Handler(s.broker.incoming[i], Got, true));
  }

  lemma IncomingRemove(c: Config, known: set<PaymentId>, q: seq<Message>, now: real, i: nat)
    requires IncomingOk(c, known, q, now) && i < |q|
    ensures IncomingOk(c, known, RemoveAt(q, i), now)
  {
  }

  /** What a handler republishes after a failure fits where it is sent. */
  lemma RepublishFits(c: Config, known: set<PaymentId>, m: Message, reason: string, now: real)
    requires FailedAgain(c, known, m, now)
    ensures Fits(c, known, RetryAddress(c, m), RetryMessage(c, m, reason), now)
  {
    var next := Count(m) + 1;
    if next <= c.maxRetries && next <= |RETRY_TTL_MS| {
      assert TtlSum(next) == TtlSum(next - 1) + TtlSeconds(next);
    }
  }

  lemma ChainedRepublish(c: Config, s: State, h: nat)
    requires Chained(c, s) && HandlerEnabled(c, s, h, Republish)
    ensures Chained(c, HandlerNext(c, s, h, Republish))
  {
    var x := s.handlers[h];
    assert Handled(c, s.payments.Keys, x, s.now);
    ChainedSet(c, s, h, x.(phase := Republished));
    RepublishFits(c, s.payments.Keys, x.msg, x.phase.reason, s.now);
    ChainedPublish(c, Enter(s, h, Republished), RetryAddress(c, x.msg), RetryMessage(c, x.msg, x.phase.reason));
  }

  lemma ChainedFailure(c: Config, s: State, h: nat, reason: string)
    requires Chained(c, s) && h in s.handlers && s.handlers[h].phase.Ready?
    ensures var x := s.handlers[h];
            Chained(c, SetHandler(s, h, Handler(WithFailure(x.msg, s.now), Unsent(reason), x.owned)))
  {
    var x := s.handlers[h];
    assert Handled(c, s.payments.Keys, x, s.now);
    FailureAdds(c, s.payments.Keys, x.msg, s.now);
    ChainedSet(c, s, h, Handler(WithFailure(x.msg, s.now), Unsent(reason), x.owned));
  }

  lemma FailureAdds(c: Config, known: set<PaymentId>, m: Message, now: real)
    requires Awaiting(c, known, m, now)
    ensures FailedAgain(c, known, WithFailure(m, now), now)
  {
    if m.trail.failures == [] {
      assert Count(m) == 0;
    } else {
      assert WithFailure(m, now).trail.failures[0] == m.trail.failures[0];
    }
  }

  lemma ChainedHandle(c: Config, s: State, h: nat, a: HandlerStep)
    requires Chained(c, s) && HandlerEnabled(c, s, h, a)
    ensures Chained(c, HandlerNext(c, s, h, a))
  {
    if h in s.handlers {
      assert Handled(c, s.payments.Keys, s.handlers[h], s.now);
      HeldMessage(c, s, h);
    }
    match a
    case Deliver(i) => ChainedDeliver(c, s, h, i);
    case ReadPayment => ChainedSet(c, s, h, s.handlers[h].(phase := ReadPhase(s, s.handlers[h].msg.pid)));
    case ApplyOutcome(succeeded) =>
      ChainedSet(c, s, h, s.handlers[h].(phase := ApplyPhase(s, s.handlers[h].msg.pid, succeeded)));
    case CommitOutcome => ChainedCommit(c, s, h);
    case PostDelivered => ChainedSet(c, s, h, s.handlers[h].(phase := Notified));
    case PostFailed(reason) => ChainedFailure(c, s, h, reason);
    case Republish => ChainedRepublish(c, s, h);
    case Ack => ChainedEnd(c, s, h);
    case Reject => ChainedDrop(c, s, h);
    case Nack => ChainedDrop(c, s, h);
    case Requeue => ChainedPutBack(c, s, h);
    case Die => ChainedEnd(c, s, h);
  }

  lemma ChainedCommit(c: Config, s: State, h: nat)
    requires Chained(c, s) && HandlerEnabled(c, s, h, CommitOutcome)
    ensures Chained(c, HandlerNext(c, s, h, CommitOutcome))
  {
    assert Handled(c, s.payments.Keys, s.handlers[h], s.now);
    ChainedSet(c, s, h, s.handlers[h].(phase := Ready(s.handlers[h].phase.outcome)));
    var t := HandlerNext(c, s, h, CommitOutcome);
    assert t.payments.Keys == s.payments.Keys;
  }

  // ---- Dispatchers, expiry, clock, new payments

  lemma ChainedPublishRow(c: Config, s: State, d: nat, accepted: bool, stage: Stage)
    requires Chained(c, s) && AtRow(s, d) && SendsKnown(s, d)
    requires Bijection(s.payments.Keys, s.outbox, s.log.rowFor)
    ensures Chained(c, PublishNext(s, d, accepted, stage))
  {
    var b := s.batches[d];
    var row := s.outbox[b.rows[b.pos]];
    ChainedPublish(c, SetBatch(s, d, b.(stage := stage)), ViaExchange(PaymentsExchange, row.routingKey), RowMessage(row));
  }

  lemma ChainedDispatch(c: Config, s: State, d: nat, a: DispatchStep)
    requires Chained(c, s) && DispatchEnabled(c, s, d, a) && SendsKnown(s, d)
    requires Bijection(s.payments.Keys, s.outbox, s.log.rowFor)
    ensures Chained(c, DispatchNext(c, s, d, a))
  {
    match a
    case Fetch(_) =>
    case PublishRow(accepted, raised, error) =>
      ChainedPublishRow(c, s, d, accepted, if raised then Raised(accepted, error) else Sent);
    case MarkRow =>
    case MarkRaises(_) =>
    case BumpRow =>
    case CommitBatch =>
    case AbortBatch =>
  }

  lemma ChainedExpire(c: Config, s: State, n: nat)
    requires Chained(c, s) && ExpireEnabled(s, n)
    ensures Chained(c, ExpireNext(s, n))
  {
    var e := s.broker.retry[n - 1][0];
    assert RetryOk(c, s.payments.Keys, s.broker.retry[n - 1], n);
    assert Waiting(c, s.payments.Keys, e, n);
    TakeExpiredOk(c, s, n);
    ChainedPublish(c, TakeExpired(s, n), DeadLetterAddress(PaymentsRetry(n)).value,
                   e.msg.(headers := DeadLettered(e.msg.headers)));
  }

  lemma TakeExpiredOk(c: Config, s: State, n: nat)
    requires Chained(c, s) && ExpireEnabled(s, n)
    ensures Chained(c, TakeExpired(s, n))
  {
    assert RetryOk(c, s.payments.Keys, s.broker.retry[n - 1], n);
    var rest := s.broker.retry[n - 1][1..];
    forall i | 0 <= i < |rest| ensures Waiting(c, s.payments.Keys, rest[i], n) {
      assert rest[i] == s.broker.retry[n - 1][i + 1];
    }
  }

  /** More known payments and a later clock keep everything in order. */
  lemma ChainedGrow(c: Config, s: State, t: State)
    requires Chained(c, s)
    requires t.broker == s.broker && t.handlers == s.handlers
    requires s.payments.Keys <= t.payments.Keys && s.now <= t.now
    ensures Chained(c, t)
  {
    IncomingGrow(c, s.payments.Keys, t.payments.Keys, s.broker.incoming, s.now, t.now);
    forall k | 0 <= k < |s.broker.retry| ensures RetryOk(c, t.payments.Keys, s.broker.retry[k], k + 1) {
      RetryGrow(c, s.payments.Keys, t.payments.Keys, s.broker.retry[k], k + 1);
    }
    forall h | h in s.handlers ensures Handled(c, t.payments.Keys, s.handlers[h], t.now) {
      assert Handled(c, s.payments.Keys, s.handlers[h], s.now);
    }
    forall i | 0 <= i < |s.broker.dead| ensures Buried(c, t.payments.Keys, s.broker.dead[i]) {
      assert Buried(c, s.payments.Keys, s.broker.dead[i]);
    }
  }

  lemma IncomingGrow(c: Config, known: set<PaymentId>, more: set<PaymentId>, q: seq<Message>, now: real, later: real)
    requires IncomingOk(c, known, q, now) && known <= more && now <= later
    ensures IncomingOk(c, more, q, later)
  {
    forall i | 0 <= i < |q| ensures Awaiting(c, more, q[i], later) {
      assert Awaiting(c, known, q[i], now);
    }
  }

  lemma RetryGrow(c: Config, known: set<PaymentId>, more: set<PaymentId>, q: seq<Delayed>, n: nat)
    requires RetryOk(c, known, q, n) && known <= more
    ensures RetryOk(c, more, q, n)
  {
    forall i | 0 <= i < |q| ensures Waiting(c, more, q[i], n) {
      assert Waiting(c, known, q[i], n);
    }
  }

  lemma ChainedStep(c: Config, s: State, step: Step)
    requires Created(s) && Chained(c, s) && Enabled(c, s, step)
    ensures Chained(c, Next(c, s, step))
  {
    match step
    case Api(r, a) =>
      if a.Commit? {
        ChainedGrow(c, s, ApiNext(s, r, Commit));
      } else {
        ApiKeepsTables(s, r, a);
        ChainedGrow(c, s, ApiNext(s, r, a));
      }
    case Dispatch(d, a) => ChainedDispatch(c, s, d, a);
    case Handle(h, a) => ChainedHandle(c, s, h, a);
    case Expire(n) => ChainedExpire(c, s, n);
    case Tick(t) => ChainedGrow(c, s, Wait(s, t));
  }
}
