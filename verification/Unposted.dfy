/** What becomes of a payment whose webhook never goes out, as when its URL is
    not allowed at any attempt. */
module Unposted {
  import opened Entities
  import opened RetryHeaders
  import opened Topology
  import opened Pipeline
  import opened Creation
  import opened NoLoss
  import opened Guarantees

  /** No webhook of `p` has been posted. */
  ghost predicate NeverPosted(posts: seq<Post>, p: PaymentId) {
    forall post | post in posts :: post.pid != p
  }

  /** A message as the dispatcher sent it: never counted, never given a reason. */
  predicate Plain(m: Message) {
    m.headers.count == NoCount && m.headers.retryReason.None? && m.headers.dlqReason.None? && m.trail.failures == []
  }

  ghost predicate PlainIn(q: seq<Message>, p: PaymentId) {
    forall m | m in q && m.pid == p :: Plain(m)
  }

  ghost predicate NotWaiting(q: seq<Delayed>, p: PaymentId) {
    forall e | e in q :: e.msg.pid != p
  }

  ghost predicate QueuesUntried(b: Broker, p: PaymentId) {
    && WellFormed(b) && PlainIn(b.incoming, p) && PlainIn(b.dead, p)
    && forall k | 0 <= k < |b.retry| :: NotWaiting(b.retry[k], p)
  }

  predicate HandlerUntried(x: Handler, p: PaymentId) {
    x.msg.pid == p ==> Plain(x.msg) && !x.phase.Unsent? && !x.phase.Notified? && !x.phase.Republished?
  }

  /** No copy of the event has ever been retried or given up, and the merchant
      has heard nothing. */
  ghost predicate Untried(s: State, p: PaymentId) {
    && QueuesUntried(s.broker, p)
    && (forall h | h in s.handlers :: HandlerUntried(s.handlers[h], p))
    && p !in s.log.notified
  }

  lemma PublishUntried(b: Broker, a: Address, m: Message, now: real, p: PaymentId)
    requires QueuesUntried(b, p) && (m.pid == p ==> Plain(m) && (Route(a).None? || !Route(a).value.PaymentsRetry?))
    ensures QueuesUntried(Publish(b, a, m, now), p)
  {
    match Route(a)
    case None =>
    case Some(PaymentsNew) =>
    case Some(PaymentsDlq) =>
    case Some(PaymentsRetry(n)) =>
      var retry := Publish(b, a, m, now).retry;
      forall k | 0 <= k < |retry| ensures NotWaiting(retry[k], p) {
        assert NotWaiting(b.retry[k], p);
      }
  }

  lemma SetUntried(s: State, h: nat, x: Handler, p: PaymentId)
    requires Untried(s, p) && HandlerUntried(x, p)
    ensures Untried(SetHandler(s, h, x), p)
  {
  }

  lemma DeliverUntried(s: State, h: nat, i: nat, p: PaymentId)
    requires Untried(s, p) && i < |s.broker.incoming|
    ensures Untried(SetHandler(TakeMessage(s, i), h, Handler(s.broker.incoming[i], Got, true)), p)
  {
    assert s.broker.incoming[i] in s.broker.incoming;
    SetUntried(TakeMessage(s, i), h, Handler(s.broker.incoming[i], Got, true), p);
  }

  lemma DropUntried(s: State, h: nat, p: PaymentId)
    requires Untried(s, p) && h in s.handlers
    ensures Untried(Drop(s, h), p)
  {
    var m := s.handlers[h].msg;
    PublishUntried(s.broker, DeadLetterAddress(PaymentsNew).value, m.(headers := DeadLettered(m.headers)), s.now, p);
  }

  lemma RepublishUntried(c: Config, s: State, h: nat, p: PaymentId)
    requires Untried(s, p) && HandlerEnabled(c, s, h, Republish)
    ensures Untried(HandlerNext(c, s, h, Republish), p)
  {
    var x := s.handlers[h];
    PublishUntried(s.broker, RetryAddress(c, x.msg), RetryMessage(c, x.msg, x.phase.reason), s.now, p);
    SetUntried(s, h, x.(phase := Republished), p);
  }

  lemma RequeueUntried(s: State, h: nat, p: PaymentId)
    requires Untried(s, p) && h in s.handlers
    ensures Untried(PutBack(SetHandler(s, h, s.handlers[h].(owned := false)), Redelivered(s.handlers[h].msg)), p)
  {
    SetUntried(s, h, s.handlers[h].(owned := false), p);
  }

  /** A webhook that goes out now is of another payment. */
  lemma PostUntried(c: Config, s: State, h: nat, a: HandlerStep, p: PaymentId)
    requires Untried(s, p) && HandlerEnabled(c, s, h, a) && (a.PostDelivered? || a.PostFailed?)
    requires NeverPosted(HandlerNext(c, s, h, a).log.posts, p)
    ensures Untried(HandlerNext(c, s, h, a), p)
  {
    var x := s.handlers[h];
    var posts := HandlerNext(c, s, h, a).log.posts;
    assert posts[|posts| - 1] == Post(x.msg.pid, x.phase.outcome);
    assert posts[|posts| - 1] in posts;
    SetUntried(s, h, HandlerNext(c, s, h, a).handlers[h], p);
  }

  lemma HandleUntried(c: Config, s: State, h: nat, a: HandlerStep, p: PaymentId)
    requires Untried(s, p) && HandlerEnabled(c, s, h, a) && NeverPosted(HandlerNext(c, s, h, a).log.posts, p)
    ensures Untried(HandlerNext(c, s, h, a), p)
  {
    match a
    case Deliver(i) => DeliverUntried(s, h, i, p);
    case ReadPayment => SetUntried(s, h, s.handlers[h].(phase := ReadPhase(s, s.handlers[h].msg.pid)), p);
    case ApplyOutcome(succeeded) =>
      SetUntried(s, h, s.handlers[h].(phase := ApplyPhase(s, s.handlers[h].msg.pid, succeeded)), p);
    case CommitOutcome => SetUntried(s, h, s.handlers[h].(phase := Ready(s.handlers[h].phase.outcome)), p);
    case PostDelivered => PostUntried(c, s, h, a, p);
    case PostFailed(_) => PostUntried(c, s, h, a, p);
    case Republish => RepublishUntried(c, s, h, p);
    case Ack =>
    case Reject => DropUntried(s, h, p);
    case Nack => DropUntried(s, h, p);
    case Requeue => RequeueUntried(s, h, p);
    case Die =>
  }

  lemma DispatchUntried(c: Config, s: State, d: nat, a: DispatchStep, p: PaymentId)
    requires Untried(s, p) && DispatchEnabled(c, s, d, a) && SendsKnown(s, d)
    ensures Untried(DispatchNext(c, s, d, a), p)
  {
    DispatchKeeps(c, s, d, a);
    match a
    case PublishRow(_, _, _) =>
      var row := s.outbox[s.batches[d].rows[s.batches[d].pos]];
      PublishUntried(s.broker, ViaExchange(PaymentsExchange, row.routingKey), RowMessage(row), s.now, p);
    case _ =>
  }

  lemma ExpireUntried(s: State, n: nat, p: PaymentId)
    requires Untried(s, p) && ExpireEnabled(s, n)
    ensures Untried(ExpireNext(s, n), p)
  {
    var q := s.broker.retry[n - 1];
    assert NotWaiting(q, p) && q[0] in q;
    var t := TakeExpired(s, n);
    forall k | 0 <= k < |t.broker.retry| ensures NotWaiting(t.broker.retry[k], p) {
      assert NotWaiting(s.broker.retry[k], p);
    }
    var m := q[0].msg;
    PublishUntried(t.broker, DeadLetterAddress(PaymentsRetry(n)).value, m.(headers := DeadLettered(m.headers)), s.now, p);
  }

  lemma StepUntried(c: Config, s: State, step: Step, p: PaymentId)
    requires Untried(s, p) && Enabled(c, s, step) && NeverPosted(Next(c, s, step).log.posts, p)
    ensures Untried(Next(c, s, step), p)
  {
    match step
    case Api(r, a) =>
      if !a.Commit? {
        ApiKeepsTables(s, r, a);
      }
    case Dispatch(d, a) => DispatchUntried(c, s, d, a, p);
    case Handle(h, a) => HandleUntried(c, s, h, a, p);
    case Expire(n) => ExpireUntried(s, n, p);
    case Tick(_) =>
  }

  /** Posts are never forgotten. */
  lemma PostsStay(c: Config, s: State, step: Step)
    requires Enabled(c, s, step)
    ensures s.log.posts <= Next(c, s, step).log.posts
  {
    match step
    case Api(r, a) =>
      if !a.Commit? {
        ApiKeepsTables(s, r, a);
      }
    case Dispatch(d, a) => DispatchKeeps(c, s, d, a);
    case Handle(h, a) => PostsStayHandle(c, s, h, a);
    case Expire(n) =>
    case Tick(_) =>
  }

  lemma PostsStayHandle(c: Config, s: State, h: nat, a: HandlerStep)
    requires WellFormed(s.broker) && HandlerEnabled(c, s, h, a)
    ensures s.log.posts <= HandlerNext(c, s, h, a).log.posts
  {
    match a
    case Deliver(_) =>
    case ReadPayment =>
    case ApplyOutcome(_) =>
    case CommitOutcome =>
    case PostDelivered =>
    case PostFailed(_) =>
    case Republish =>
    case Ack =>
    case Reject => DropFrame(s, h);
    case Nack => DropFrame(s, h);
    case Requeue =>
    case Die =>
  }

  lemma {:induction false} UntriedAlways(c: Config, steps: seq<Step>, p: PaymentId)
    requires Run(c, Init(), steps) && NeverPosted(Exec(c, Init(), steps).log.posts, p)
    ensures Untried(Exec(c, Init(), steps), p)
    decreases |steps|
  {
    if steps != [] {
      var init, last := steps[..|steps| - 1], steps[|steps| - 1];
      PostsStay(c, Exec(c, Init(), init), last);
      UntriedAlways(c, init, p);
      StepUntried(c, Exec(c, Init(), init), last, p);
    }
  }

  /** A payment of which no webhook has ever gone out is never retried, in any
      run: it is in no retry queue, none of its messages carries a count or a
      reason, and the merchant has not been notified. */
  lemma UnpostedIsNeverRetried(c: Config, s: State, p: PaymentId)
    requires Reached(c, s) && NeverPosted(s.log.posts, p)
    ensures Untried(s, p)
  {
    var steps :| Run(c, Init(), steps) && Exec(c, Init(), steps) == s;
    UntriedAlways(c, steps, p);
  }

  lemma NowhereElse(s: State, p: PaymentId, place: Place)
    requires Untried(s, p) && !place.InDlq?
    requires forall m | m in s.broker.incoming :: m.pid != p
    requires forall h | h in s.handlers && s.handlers[h].msg.pid == p :: !Busy(s.handlers[h])
    ensures !At(s, p, place)
  {
    match place
    case InNew(i) =>
      if i < |s.broker.incoming| {
        assert s.broker.incoming[i] in s.broker.incoming;
      }
    case InRetry(n, i) =>
      if n < |s.broker.retry| && i < |s.broker.retry[n]| {
        assert NotWaiting(s.broker.retry[n], p) && s.broker.retry[n][i] in s.broker.retry[n];
      }
    case _ =>
  }

  /** So where nothing is under way for it any more, it lies in the dead-letter
      queue, without a reason. */
  lemma UnpostedEndsInDlq(c: Config, s: State, p: PaymentId)
    requires Reached(c, s) && Safe(c) && NeverPosted(s.log.posts, p) && p in s.payments
    requires forall r | r in s.outbox && s.outbox[r].payload == p :: s.outbox[r].status != RowPending
    requires forall m | m in s.broker.incoming :: m.pid != p
    requires forall h | h in s.handlers && s.handlers[h].msg.pid == p :: !Busy(s.handlers[h])
    ensures exists m :: m in s.broker.dead && m.pid == p && m.headers.dlqReason.None? && Plain(m)
  {
    UnpostedIsNeverRetried(c, s, p);
    NoPaymentLost(c, s);
    var place :| At(s, p, place);
    if !place.InDlq? {
      NowhereElse(s, p, place);
      assert false;
    }
    assert s.broker.dead[place.i] in s.broker.dead;
  }
}
