/** The consumer: what becomes of one delivered event. */
module Consumer {
  import opened Basics
  import opened Entities
  import opened RetryHeaders
  import opened Topology
  import opened Pipeline
  import opened Messaging
  import opened PaymentService

  /** The emulated processing: an outcome, or an exception. */
  datatype Processing = Processed(succeeded: bool) | Raises

  /** What became of the request: a response, a failed request, or another exception. */
  datatype HttpResult = Status(code: int) | RequestFailed(name: string) | HttpRaises

  /** How sending a webhook ends: without an exception, with the send error that
      is retried, with the error for a URL that is not allowed, or with any other. */
  datatype WebhookReply = Delivered | SendError(reason: string) | UrlNotAllowed | OtherError

  const BAD_REQUEST := 400

  datatype Settlement = Acked | Rejected | Nacked

  /** Where a handler gets before the webhook. */
  datatype Reach = Unknown | Stopped | AtWebhook(outcome: Outcome)

  /** All that happens around a handler: what others have stored since its read,
      what the processing, the commit, the URL check and the request do, and
      whether the broker has taken the delivery back. */
  datatype Surroundings = Surroundings(
    processing: Processing,
    later: Tables,
    processedAt: real,
    commitRaises: bool,
    urlAllowed: bool,
    http: HttpResult,
    repliedAt: real,
    takenBack: bool)
  {
    function Reply(): WebhookReply {
      if !urlAllowed then UrlNotAllowed
      else match http
           case Status(code) => if code >= BAD_REQUEST then SendError("non_2xx_response") else Delivered
           case RequestFailed(name) => SendError(name)
           case HttpRaises => OtherError
    }
  }

  /** `WebhookService.send`: the URL is checked first, and only a failed request
      or a bad status is a send error. */
  method SendWebhook(env: Surroundings) returns (reply: WebhookReply)
    ensures reply == env.Reply()
    ensures reply.Delivered? <==> env.urlAllowed && env.http.Status? && env.http.code < 400
    ensures reply.SendError? <==> env.urlAllowed && (env.http.RequestFailed? || (env.http.Status? && env.http.code >= 400))
    ensures reply.UrlNotAllowed? <==> !env.urlAllowed
    ensures env.urlAllowed && env.http.RequestFailed? ==> reply == SendError(env.http.name)
    ensures env.urlAllowed && env.http.Status? && env.http.code >= 400 ==> reply == SendError("non_2xx_response")
  {
    if !env.urlAllowed {
      return UrlNotAllowed;
    }
    match env.http
    case RequestFailed(name) => return SendError(name);
    case HttpRaises => return OtherError;
    case Status(code) =>
      if code >= BAD_REQUEST {
        return SendError("non_2xx_response");
      }
      return Delivered;
  }

  function Reaches(before: Tables, p: PaymentId, env: Surroundings): Reach {
    if p !in before.payments then Unknown
    else if before.payments[p].outcome.status != Pending then AtWebhook(before.payments[p].outcome)
    else if env.processing.Raises? then Stopped
    else if p !in env.later.payments then Unknown
    else if env.commitRaises then Stopped
    else AtWebhook(ProcessedOutcome(env))
  }

  function ProcessedOutcome(env: Surroundings): Outcome
    requires env.processing.Processed?
  {
    Outcome(if env.processing.succeeded then Succeeded else Failed, Some(env.processedAt))
  }

  /** The broker drops a delivery of the main queue. */
  ghost function DeadLetter(b: Broker, m: Message): Broker
    requires WellFormed(b)
  {
    Publish(b, DeadLetterAddress(PaymentsNew).value, m.(headers := DeadLettered(m.headers)), 0.0)
  }

  ghost function AfterPublish(c: Config, b: Broker, m: Message, reason: string, now: real, e: Sending): Broker
    requires WellFormed(b)
  {
    if e.accepted then Publish(b, RetryAddress(c, m), RetryMessage(c, m, reason), now) else b
  }

  /** `_retry_or_dlq`: the next retry queue while retries are left, else the
      dead-letter queue with the reason. */
  method RetryOrDlq(c: Config, publisher: Publisher, m: Message, reason: string, now: real) returns (e: Sending)
    requires WellFormed(publisher.broker)
    modifies publisher`broker
    ensures Possible(e) && (publisher.reliable ==> e.accepted && !e.raised)
    ensures publisher.broker == AfterPublish(c, old(publisher.broker), m, reason, now, e)
    ensures WellFormed(publisher.broker)
    ensures !e.accepted ==> publisher.broker == old(publisher.broker)
    ensures var count := GetRetryCount(Some(m.headers));
            && (e.accepted && count >= c.maxRetries ==>
                  publisher.broker == old(publisher.broker).(dead := old(publisher.broker).dead
                    + [m.(headers := Headers(Number(count), None, Some(reason), NoDeath))]))
            && (e.accepted && count < c.maxRetries && count == 0 ==>
                  Waits(old(publisher.broker), publisher.broker, 1,
                        m.(headers := Headers(Number(1), Some(reason), None, NoDeath)), now + 2.0))
            && (e.accepted && count < c.maxRetries && count == 1 ==>
                  Waits(old(publisher.broker), publisher.broker, 2,
                        m.(headers := Headers(Number(2), Some(reason), None, NoDeath)), now + 8.0))
            && (e.accepted && count < c.maxRetries && count == 2 ==>
                  Waits(old(publisher.broker), publisher.broker, 3,
                        m.(headers := Headers(Number(3), Some(reason), None, NoDeath)), now + 32.0))
            && (e.accepted && count < c.maxRetries && !(0 <= count <= 2) ==> publisher.broker == old(publisher.broker))
  {
    var current := GetRetryCount(Some(m.headers));
    var next := current + 1;
    if next > c.maxRetries {
      e := publisher.PublishToDlx(PaymentFailed, m.(headers := BuildDlqHeaders(current, reason)), now);
    } else {
      e := publisher.PublishToQueue(PaymentsRetry(next), m.(headers := BuildRetryHeaders(next, reason)), now);
    }
  }

  /** The handler finds its payment pending, processes it and commits. */
  predicate Commits(before: Tables, p: PaymentId, env: Surroundings) {
    && p in before.payments && before.payments[p].outcome.status == Pending
    && env.processing.Processed? && p in env.later.payments && !env.commitRaises
  }

  /** The tables after a handler: what others have stored, and its own commit. */
  function StoredAfter(before: Tables, p: PaymentId, env: Surroundings): Tables {
    if Commits(before, p, env) then WithOutcome(env.later, p, ProcessedOutcome(env)) else env.later
  }

  function WithOutcome(t: Tables, p: PaymentId, o: Outcome): Tables
    requires p in t.payments
  {
    t.(payments := t.payments[p := t.payments[p].(outcome := o)])
  }

  /** From the read to the webhook. Without a payment to show, `settlement` says
      how the exception ends the handler. */
  method ObtainPayment(session: PaymentSession, p: PaymentId, env: Surroundings)
    returns (payment: Option<Payment>, settlement: Settlement)
    requires session.Clean()
    modifies session
    ensures session.Clean() && session.stored == StoredAfter(old(session.stored), p, env)
    ensures match Reaches(old(session.stored), p, env)
            case Unknown => payment.None? && settlement == Rejected
            case Stopped => payment.None? && settlement == Nacked
            case AtWebhook(o) => payment.Some? && payment.value.outcome == o
    ensures payment.Some? ==>
              if Commits(old(session.stored), p, env)
              then p in session.stored.payments && session.stored.payments[p] == payment.value
              else p in old(session.stored).payments && old(session.stored).payments[p] == payment.value
  {
    payment := if p in session.stored.payments then Some(session.stored.payments[p]) else None;
    session.Elapse(env.later);
    if payment.None? {
      return None, Rejected;
    }
    settlement := Acked;
    if payment.value.outcome.status == Pending {
      if env.processing.Raises? {
        return None, Nacked;
      }
      var r := session.ApplyProcessingOutcome(p, env.processing.succeeded, env.processedAt);
      if r.Refused? {
        return None, Rejected;
      }
      if env.commitRaises {
        session.Close();
        return None, Nacked;
      }
      session.Commit();
      payment := Some(r.value);
    }
  }

  /** `_handle_payment_created`. The webhook goes out only for a stored final
      outcome. The delivery is acknowledged when the webhook was delivered, or
      when it could not be sent and the message has been passed on. In every
      other case the broker moves the delivery to the dead-letter queue, unless
      it has taken it back before. */
  method HandlePaymentCreated(c: Config, session: PaymentSession, publisher: Publisher, m: Message, env: Surroundings)
    returns (settlement: Settlement, e: Sending)
    requires session.Clean() && WellFormed(publisher.broker)
    modifies session, publisher`broker
    ensures session.Clean() && session.stored == StoredAfter(old(session.stored), m.pid, env)
    ensures var reach := Reaches(old(session.stored), m.pid, env);
            && settlement == EndOf(reach, env, e)
            && publisher.broker == QueuesAfter(c, old(publisher.broker), m, reach, env, e)
    ensures Possible(e) <==> Reaches(old(session.stored), m.pid, env).AtWebhook? && env.Reply().SendError?
    ensures m.pid !in old(session.stored).payments ==> settlement == Rejected
    ensures settlement == Acked ==>
              && m.pid in old(session.stored).payments && env.urlAllowed
              && ((env.http.Status? && env.http.code < 400) || (Possible(e) && !e.raised))
    ensures settlement == Acked && env.http.Status? && env.http.code < 400 ==> publisher.broker == old(publisher.broker)
    ensures settlement != Acked && !Possible(e) && !env.takenBack ==>
              publisher.broker == old(publisher.broker).(dead := old(publisher.broker).dead
                                                                 + [m.(headers := m.headers.(xDeath := FirstDeath(1)))])
    ensures settlement != Acked && !Possible(e) && env.takenBack ==> publisher.broker == old(publisher.broker)
    ensures settlement != Acked && m.pid in old(session.stored).payments && m.pid in env.later.payments ==>
              settlement == Nacked
    ensures settlement == Acked && e.accepted && GetRetryCount(Some(m.headers)) >= c.maxRetries ==>
              && env.Reply().SendError?
              && publisher.broker == old(publisher.broker).(dead := old(publisher.broker).dead
                   + [WithFailure(m, env.repliedAt).(headers := Headers(Number(GetRetryCount(Some(m.headers))), None,
                                                                        Some(env.Reply().reason), NoDeath))])
    ensures publisher.reliable ==> !e.raised
  {
    e := Sending(false, false, "");
    var payment, ended := ObtainPayment(session, m.pid, env);
    if payment.None? {
      settlement := ended;
      Settle(publisher, m, settlement, env.takenBack);
      return;
    }
    var reply := SendWebhook(env);
    match reply
    case Delivered =>
      settlement := Acked;
    case SendError(reason) =>
      var failed := WithFailure(m, env.repliedAt);
      e := RetryOrDlq(c, publisher, failed, reason, env.repliedAt);
      settlement := if e.raised then Nacked else Acked;
      Settle(publisher, failed, settlement, env.takenBack);
    case _ =>
      settlement := Nacked;
      Settle(publisher, m, settlement, env.takenBack);
  }

  /** What the broker does with a settled delivery it has not taken back. */
  method Settle(publisher: Publisher, m: Message, settlement: Settlement, takenBack: bool)
    requires WellFormed(publisher.broker)
    modifies publisher`broker
    ensures publisher.broker
            == if settlement == Acked then old(publisher.broker) else Dropped(old(publisher.broker), m, takenBack)
  {
    if settlement != Acked && !takenBack {
      publisher.Put(DeadLetterAddress(PaymentsNew).value, m.(headers := DeadLettered(m.headers)), 0.0);
    }
  }

  ghost function Dropped(b: Broker, m: Message, takenBack: bool): Broker
    requires WellFormed(b)
  {
    if takenBack then b else DeadLetter(b, m)
  }

  predicate PassedOn(env: Surroundings, e: Sending) {
    env.Reply().SendError? && !e.raised
  }

  function EndOf(reach: Reach, env: Surroundings, e: Sending): Settlement {
    if reach.Unknown? then Rejected
    else if reach.AtWebhook? && (env.Reply().Delivered? || PassedOn(env, e)) then Acked
    else Nacked
  }

  ghost function QueuesAfter(c: Config, b: Broker, m: Message, reach: Reach, env: Surroundings, e: Sending): Broker
    requires WellFormed(b)
  {
    if !reach.AtWebhook? then Dropped(b, m, env.takenBack)
    else match env.Reply()
         case Delivered => b
         case SendError(reason) =>
           var failed := WithFailure(m, env.repliedAt);
           var passed := AfterPublish(c, b, failed, reason, env.repliedAt, e);
           if e.raised then Dropped(passed, failed, env.takenBack) else passed
         case _ => Dropped(b, m, env.takenBack)
  }

  // ---- What this means

  /** The webhook never shows a pending payment. It shows what the handler has
      stored, or what was stored when it read. */
  lemma WebhookShowsStored(before: Tables, p: PaymentId, env: Surroundings)
    requires Reaches(before, p, env).AtWebhook?
    ensures var shown, after := Reaches(before, p, env).outcome, StoredAfter(before, p, env).payments;
            && shown.status != Pending
            && if Commits(before, p, env) then p in after && after[p].outcome == shown
               else p in before.payments && before.payments[p].outcome == shown
  {
  }

  /** How many messages the queues hold. */
  ghost function Size(b: Broker): nat
    requires WellFormed(b)
  {
    |b.incoming| + |b.retry[0]| + |b.retry[1]| + |b.retry[2]| + |b.dead|
  }

  lemma PublishAdds(b: Broker, a: Address, m: Message, now: real)
    requires WellFormed(b)
    ensures Size(Publish(b, a, m, now)) == Size(b) + if Route(a).Some? then 1 else 0
  {
    match Route(a)
    case None =>
    case Some(PaymentsNew) =>
    case Some(PaymentsDlq) =>
    case Some(PaymentsRetry(n)) =>
  }

  lemma DeadLetterAdds(b: Broker, m: Message)
    requires WellFormed(b)
    ensures Size(DeadLetter(b, m)) == Size(b) + 1
  {
    PublishAdds(b, DeadLetterAddress(PaymentsNew).value, m.(headers := DeadLettered(m.headers)), 0.0);
  }

  /** The message has reached the queue it was passed on to. */
  predicate Requeued(c: Config, m: Message, reach: Reach, env: Surroundings, e: Sending) {
    reach.AtWebhook? && env.Reply().SendError? && e.accepted && Route(RetryAddress(c, m)).Some?
  }

  /** A handler leaves one message where it was passed on, and one where its
      delivery was dropped. So a delivery that was not taken back leaves nothing
      exactly when its webhook was delivered, or when it could not be sent, the
      publish did not raise, and the retry count asks for a queue that does not exist. */
  lemma NothingLeftIff(c: Config, b: Broker, m: Message, reach: Reach, env: Surroundings, e: Sending)
    requires WellFormed(b) && (reach.AtWebhook? && env.Reply().SendError? ==> Possible(e))
    ensures Size(QueuesAfter(c, b, m, reach, env, e))
            == Size(b) + (if Requeued(c, m, reach, env, e) then 1 else 0)
               + (if EndOf(reach, env, e) == Acked || env.takenBack then 0 else 1)
    ensures !env.takenBack ==>
              (Size(QueuesAfter(c, b, m, reach, env, e)) == Size(b)
               <==> reach.AtWebhook?
                    && (env.Reply().Delivered? || (PassedOn(env, e) && Route(RetryAddress(c, m)).None?)))
  {
    DeadLetterAdds(b, m);
    if reach.AtWebhook? && env.Reply().SendError? {
      var failed := WithFailure(m, env.repliedAt);
      var passed := AfterPublish(c, b, failed, env.Reply().reason, env.repliedAt, e);
      assert RetryAddress(c, failed) == RetryAddress(c, m);
      PublishAdds(b, RetryAddress(c, m), RetryMessage(c, failed, env.Reply().reason), env.repliedAt);
      DeadLetterAdds(passed, failed);
    }
  }

  /** The queue that does not exist: the retry limit allows a fourth retry or more. */
  lemma NoQueueIff(c: Config, m: Message, n: nat)
    requires CountIs(m.headers, n)
    ensures Route(RetryAddress(c, m)).None? <==> |RETRY_TTL_MS| <= n < c.maxRetries
  {
  }
}
