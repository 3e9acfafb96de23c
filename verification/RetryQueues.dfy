/** One delay applies to a whole retry queue, so looking at its head is enough. */
module RetryQueues {
  import opened Basics
  import opened RetryHeaders
  import opened Topology
  import opened Pipeline
  import opened Creation

  /** Entries expire in queue order, none later than a message sent now would. */
  ghost predicate InOrder(q: seq<Delayed>, n: int, now: real)
    requires 1 <= n <= |RETRY_TTL_MS|
  {
    && (forall i, j | 0 <= i < j < |q| :: q[i].due <= q[j].due)
    && (forall i | 0 <= i < |q| :: q[i].due <= now + TtlSeconds(n))
  }

  ghost predicate AllInOrder(b: Broker, now: real) {
    WellFormed(b) && forall k | 0 <= k < |b.retry| :: InOrder(b.retry[k], k + 1, now)
  }

  lemma OrderAppend(q: seq<Delayed>, n: int, now: real, m: Message)
    requires 1 <= n <= |RETRY_TTL_MS| && InOrder(q, n, now)
    ensures InOrder(q + [Delayed(m, now + TtlSeconds(n))], n, now)
  {
  }

  lemma OrderPublish(s: State, a: Address, m: Message)
    requires AllInOrder(s.broker, s.now)
    ensures AllInOrder(PublishMessage(s, a, m).broker, s.now)
  {
    match Route(a)
    case None =>
    case Some(PaymentsNew) =>
    case Some(PaymentsDlq) =>
    case Some(PaymentsRetry(n)) => OrderRetry(s, a, n, m);
  }

  lemma OrderRetry(s: State, a: Address, n: int, m: Message)
    requires AllInOrder(s.broker, s.now) && Route(a) == Some(PaymentsRetry(n))
    ensures AllInOrder(PublishMessage(s, a, m).broker, s.now)
  {
    assert InOrder(s.broker.retry[n - 1], n - 1 + 1, s.now);
    OrderAppend(s.broker.retry[n - 1], n, s.now, m);
    var retry := PublishMessage(s, a, m).broker.retry;
    forall k | 0 <= k < |retry| ensures InOrder(retry[k], k + 1, s.now) {
      if k != n - 1 {
        assert retry[k] == s.broker.retry[k];
      }
    }
  }

  lemma OrderDrop(s: State, h: nat)
    requires AllInOrder(s.broker, s.now) && h in s.handlers
    ensures AllInOrder(Drop(s, h).broker, s.now)
  {
    OrderPublish(EndHandler(s, h), DeadLetterAddress(PaymentsNew).value,
                 s.handlers[h].msg.(headers := s.handlers[h].msg.headers));
  }

  lemma OrderHandle(c: Config, s: State, h: nat, a: HandlerStep)
    requires AllInOrder(s.broker, s.now) && HandlerEnabled(c, s, h, a)
    ensures AllInOrder(HandlerNext(c, s, h, a).broker, s.now)
  {
    match a
    case Deliver(_) =>
    case ReadPayment =>
    case ApplyOutcome(_) =>
    case CommitOutcome =>
    case PostDelivered =>
    case PostFailed(_) =>
    case Republish =>
      var x := s.handlers[h];
      OrderPublish(Enter(s, h, Republished), RetryAddress(c, x.msg), RetryMessage(c, x.msg, x.phase.reason));
    case Ack =>
    case Reject => OrderDrop(s, h);
    case Nack => OrderDrop(s, h);
    case Requeue =>
    case Die =>
  }

  lemma OrderDispatch(c: Config, s: State, d: nat, a: DispatchStep)
    requires AllInOrder(s.broker, s.now) && DispatchEnabled(c, s, d, a) && SendsKnown(s, d)
    ensures AllInOrder(DispatchNext(c, s, d, a).broker, s.now)
  {
    match a
    case Fetch(_) =>
    case PublishRow(_, _, _) =>
      var b := s.batches[d];
      OrderPublish(s, ViaExchange(PaymentsExchange, s.outbox[b.rows[b.pos]].routingKey),
                   RowMessage(s.outbox[b.rows[b.pos]]));
    case MarkRow =>
    case MarkRaises(_) =>
    case BumpRow =>
    case CommitBatch =>
    case AbortBatch =>
  }

  lemma OrderExpire(s: State, n: nat)
    requires AllInOrder(s.broker, s.now) && ExpireEnabled(s, n)
    ensures AllInOrder(ExpireNext(s, n).broker, s.now)
  {
    assert InOrder(s.broker.retry[n - 1], n, s.now);
    assert InOrder(s.broker.retry[n - 1][1..], n, s.now);
    var m := s.broker.retry[n - 1][0].msg;
    OrderPublish(TakeExpired(s, n), DeadLetterAddress(PaymentsRetry(n)).value, m);
  }

  lemma OrderStep(c: Config, s: State, step: Step)
    requires AllInOrder(s.broker, s.now) && Enabled(c, s, step)
    ensures AllInOrder(Next(c, s, step).broker, Next(c, s, step).now)
  {
    match step
    case Api(r, a) =>
      if !a.Commit? {
        ApiKeepsTables(s, r, a);
      }
    case Dispatch(d, a) =>
      DispatchKeeps(c, s, d, a);
      OrderDispatch(c, s, d, a);
    case Handle(h, a) =>
      HandlerKeeps(c, s, h, a);
      OrderHandle(c, s, h, a);
    case Expire(n) => OrderExpire(s, n);
    case Tick(t) =>
      forall k | 0 <= k < |s.broker.retry| ensures InOrder(s.broker.retry[k], k + 1, t) {
        assert InOrder(s.broker.retry[k], k + 1, s.now);
      }
  }

  /** What is left of a queue when expired entries are taken from its head only. */
  function Drained(q: seq<Delayed>, now: real): seq<Delayed> {
    if q == [] || q[0].due > now then q else Drained(q[1..], now)
  }

  /** The entries that have not expired, wherever they are. */
  function Unexpired(q: seq<Delayed>, now: real): seq<Delayed> {
    if q == [] then [] else (if q[0].due > now then [q[0]] else []) + Unexpired(q[1..], now)
  }

  /** Expiring from the head releases exactly the expired messages. */
  lemma {:induction false} HeadIsEnough(q: seq<Delayed>, n: int, at: real, now: real)
    requires 1 <= n <= |RETRY_TTL_MS| && InOrder(q, n, at)
    ensures Drained(q, now) == Unexpired(q, now)
  {
    if q != [] {
      var rest := q[1..];
      assert InOrder(rest, n, at);
      HeadIsEnough(rest, n, at, now);
      if q[0].due > now && rest != [] {
        assert rest[0] == q[1];
        assert Drained(rest, now) == rest;
      }
    }
  }

  /** The messages of the expired entries, wherever they are, as the broker
      dead-letters them. */
  function Returned(q: seq<Delayed>, now: real): seq<Message> {
    if q == [] then []
    else (if q[0].due > now then [] else [q[0].msg.(headers := DeadLettered(q[0].msg.headers))]) + Returned(q[1..], now)
  }

  lemma {:induction false} NothingReturned(q: seq<Delayed>, n: int, at: real, now: real)
    requires 1 <= n <= |RETRY_TTL_MS| && InOrder(q, n, at) && (q != [] ==> q[0].due > now)
    ensures Returned(q, now) == []
  {
    if q != [] {
      var rest := q[1..];
      assert InOrder(rest, n, at);
      if rest != [] {
        assert rest[0] == q[1];
      }
      NothingReturned(rest, n, at, now);
    }
  }

  /** From `s` to `t`, the expired entries of the queue went to `payments.new`, in
      order, and nothing else has changed. */
  ghost predicate Released(s: State, t: State, n: nat)
    requires 1 <= n <= |RETRY_TTL_MS| && WellFormed(s.broker)
  {
    var q := s.broker.retry[n - 1];
    t == s.(broker := s.broker.(incoming := s.broker.incoming + Returned(q, s.now),
                                retry := s.broker.retry[n - 1 := Unexpired(q, s.now)]))
  }

  lemma ReleaseOne(s: State, n: nat)
    requires WellFormed(s.broker) && 1 <= n <= |RETRY_TTL_MS| && ExpireEnabled(s, n)
    ensures var q := s.broker.retry[n - 1];
            var m := q[0].msg.(headers := DeadLettered(q[0].msg.headers));
            ExpireNext(s, n) == s.(broker := s.broker.(incoming := s.broker.incoming + [m],
                                                       retry := s.broker.retry[n - 1 := q[1..]]))
  {
  }

  lemma ReleasedMore(s: State, t: State, u: State, n: nat)
    requires WellFormed(s.broker) && 1 <= n <= |RETRY_TTL_MS| && ExpireEnabled(s, n)
    requires t == ExpireNext(s, n) && WellFormed(t.broker) && Released(t, u, n)
    ensures Released(s, u, n)
  {
    ReleaseOne(s, n);
    var q := s.broker.retry[n - 1];
    var m := q[0].msg.(headers := DeadLettered(q[0].msg.headers));
    assert Returned(q, s.now) == [m] + Returned(q[1..], s.now) && Unexpired(q, s.now) == Unexpired(q[1..], s.now);
    assert s.broker.incoming + [m] + Returned(q[1..], s.now) == s.broker.incoming + Returned(q, s.now);
    assert s.broker.retry[n - 1 := q[1..]][n - 1 := Unexpired(q[1..], s.now)]
        == s.broker.retry[n - 1 := Unexpired(q[1..], s.now)];
  }

  lemma ReleasedNone(s: State, n: nat)
    requires WellFormed(s.broker) && 1 <= n <= |RETRY_TTL_MS| && InOrder(s.broker.retry[n - 1], n, s.now)
    requires !ExpireEnabled(s, n)
    ensures Released(s, s, n)
  {
    var q := s.broker.retry[n - 1];
    HeadIsEnough(q, n, s.now, s.now);
    NothingReturned(q, n, s.now, s.now);
    assert s.broker.incoming + [] == s.broker.incoming;
    assert s.broker.retry[n - 1 := q] == s.broker.retry;
  }

  /** The expiry steps of the broker do just that, and then none is left to take. */
  lemma {:induction false} ExpireRun(c: Config, s: State, n: nat) returns (steps: seq<Step>)
    requires WellFormed(s.broker) && 1 <= n <= |RETRY_TTL_MS| && InOrder(s.broker.retry[n - 1], n, s.now)
    ensures Run(c, s, steps) && forall step | step in steps :: step == Expire(n)
    ensures Released(s, Exec(c, s, steps), n) && !ExpireEnabled(Exec(c, s, steps), n)
    decreases |s.broker.retry[n - 1]|
  {
    if !ExpireEnabled(s, n) {
      ReleasedNone(s, n);
      steps := [];
    } else {
      var t := ExpireNext(s, n);
      ReleaseOne(s, n);
      assert InOrder(s.broker.retry[n - 1][1..], n, s.now);
      var rest := ExpireRun(c, t, n);
      OneStep(c, s, Expire(n));
      RunConcat(c, s, [Expire(n)], rest);
      ReleasedMore(s, t, Exec(c, t, rest), n);
      steps := [Expire(n)] + rest;
    }
  }
}
