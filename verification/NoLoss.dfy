/** No accepted payment is lost: for each one there is always something left
    that will make the merchant hear of it, or an operator find it. */
module NoLoss {
  import opened Basics
  import opened Entities
  import opened RetryHeaders
  import opened Topology
  import opened OutboxQuery
  import opened Pipeline
  import opened Creation
  import opened Dispatching

  /** A place where the event of a payment can be. */
  datatype Place =
    | InNew(i: nat)
    | InRetry(n: nat, i: nat)
    | InDlq(i: nat)
    | WithHandler(h: nat)
    | Heard

  /** A handler that still has to hand its message on, or to notify. */
  predicate Busy(x: Handler) {
    x.owned && !x.phase.Notified? && !x.phase.Republished?
  }

  ghost predicate At(s: State, p: PaymentId, place: Place) {
    match place
    case InNew(i) => i < |s.broker.incoming| && s.broker.incoming[i].pid == p
    case InRetry(n, i) =>
      n < |s.broker.retry| && i < |s.broker.retry[n]| && s.broker.retry[n][i].msg.pid == p
    case InDlq(i) => i < |s.broker.dead| && s.broker.dead[i].pid == p
    case WithHandler(h) => h in s.handlers && s.handlers[h].msg.pid == p && Busy(s.handlers[h])
    case Heard => p in s.log.notified
  }

  /** A copy of the event is in a queue or with a handler that has not passed
      it on, or the webhook was delivered. */
  ghost predicate Live(s: State, p: PaymentId) {
    exists place :: At(s, p, place)
  }

  /** No republish can vanish: every queue it may name exists, or the publisher
      is told when one does not. */
  predicate Safe(c: Config) {
    c.maxRetries <= |RETRY_TTL_MS| || c.returnRaises
  }

  /** The pipeline's messages, wherever they are, have counts the handler never
      takes below zero. */
  ghost predicate CountOk(m: Message) {
    GetRetryCount(Some(m.headers)) >= 0
  }

  ghost predicate CountsOk(s: State) {
    && (forall i | 0 <= i < |s.broker.incoming| :: CountOk(s.broker.incoming[i]))
    && (forall h | h in s.handlers :: CountOk(s.handlers[h].msg))
  }

  /** Where the event is after a publish of another message. */
  lemma AtPublish(s: State, p: PaymentId, place: Place, a: Address, m: Message)
    requires WellFormed(s.broker) && At(s, p, place)
    ensures At(PublishMessage(s, a, m), p, place)
  {
    match Route(a)
    case None =>
    case Some(PaymentsNew) =>
    case Some(PaymentsDlq) =>
    case Some(PaymentsRetry(n)) =>
  }

  /** A routed message is somewhere. */
  lemma PublishedIsLive(s: State, a: Address, m: Message)
    requires WellFormed(s.broker) && Route(a).Some?
    ensures Live(PublishMessage(s, a, m), m.pid)
  {
    var t := PublishMessage(s, a, m);
    match Route(a)
    case Some(PaymentsNew) => assert At(t, m.pid, InNew(|s.broker.incoming|));
    case Some(PaymentsDlq) => assert At(t, m.pid, InDlq(|s.broker.dead|));
    case Some(PaymentsRetry(n)) => assert At(t, m.pid, InRetry(n - 1, |s.broker.retry[n - 1]|));
  }

  lemma LivePublish(s: State, p: PaymentId, a: Address, m: Message)
    requires WellFormed(s.broker)
    requires Live(s, p) || (m.pid == p && Route(a).Some?)
    ensures Live(PublishMessage(s, a, m), p)
  {
    if Live(s, p) {
      var place :| At(s, p, place);
      AtPublish(s, p, place, a, m);
    } else {
      PublishedIsLive(s, a, m);
    }
  }

  /** Only a handler's own place is lost when it ends. */
  lemma LiveWithout(s: State, p: PaymentId, h: nat)
    requires Live(s, p)
    ensures Live(EndHandler(s, h), p) || At(s, p, WithHandler(h))
  {
    var place :| At(s, p, place);
    if place != WithHandler(h) {
      assert At(EndHandler(s, h), p, place);
    }
  }

  lemma LiveSet(s: State, p: PaymentId, h: nat, x: Handler)
    requires Live(s, p)
    ensures Live(SetHandler(s, h, x), p) || (At(s, p, WithHandler(h)) && !(x.msg.pid == p && Busy(x)))
  {
    var place :| At(s, p, place);
    if place != WithHandler(h) {
      assert At(SetHandler(s, h, x), p, place);
    } else if x.msg.pid == p && Busy(x) {
      assert At(SetHandler(s, h, x), p, WithHandler(h));
    }
  }

  /** Live places do not depend on anything but queues, handlers and notifications. */
  lemma LiveFrame(s: State, t: State, p: PaymentId)
    requires Live(s, p)
    requires t.broker == s.broker && t.handlers == s.handlers && s.log.notified <= t.log.notified
    ensures Live(t, p)
  {
    var place :| At(s, p, place);
    assert At(t, p, place);
  }

  lemma LiveDeliver(s: State, p: PaymentId, h: nat, i: nat)
    requires Live(s, p) && h !in s.handlers && i < |s.broker.incoming|
    ensures Live(SetHandler(TakeMessage(s, i), h, Handler(s.broker.incoming[i], Got, true)), p)
  {
    var t := SetHandler(TakeMessage(s, i), h, Handler(s.broker.incoming[i], Got, true));
    var place :| At(s, p, place);
    match place
    case InNew(j) =>
      var moved := if j < i then InNew(j) else if j == i then WithHandler(h) else InNew(j - 1);
      assert At(t, p, moved);
    case InRetry(_, _) => assert At(t, p, place);
    case InDlq(_) => assert At(t, p, place);
    case WithHandler(_) => assert At(t, p, place);
    case Heard => assert At(t, p, place);
  }

  lemma LiveDrop(s: State, p: PaymentId, h: nat)
    requires Live(s, p) && h in s.handlers && WellFormed(s.broker)
    ensures Live(Drop(s, h), p)
  {
    LiveWithout(s, p, h);
    if s.handlers[h].owned {
      var m := s.handlers[h].msg;
      LivePublish(EndHandler(s, h), p, DeadLetterAddress(PaymentsNew).value, m.(headers := DeadLettered(m.headers)));
    }
  }

  lemma LivePutBack(s: State, p: PaymentId, h: nat)
    requires Live(s, p) && h in s.handlers
    ensures var x := s.handlers[h];
            Live(PutBack(SetHandler(s, h, x.(owned := false)), Redelivered(x.msg)), p)
  {
    var x := s.handlers[h];
    var s1 := SetHandler(s, h, x.(owned := false));
    var t := PutBack(s1, Redelivered(x.msg));
    LiveSet(s, p, h, x.(owned := false));
    if Live(s1, p) {
      var place :| At(s1, p, place);
      assert At(t, p, place);
    } else {
      assert At(t, p, InNew(|s.broker.incoming|));
    }
  }

  lemma LiveRepublish(c: Config, s: State, p: PaymentId, h: nat)
    requires Live(s, p) && WellFormed(s.broker) && HandlerEnabled(c, s, h, Republish)
    requires Route(RetryAddress(c, s.handlers[h].msg)).Some?
    ensures Live(HandlerNext(c, s, h, Republish), p)
  {
    var x := s.handlers[h];
    LiveSet(s, p, h, x.(phase := Republished));
    LivePublish(Enter(s, h, Republished), p, RetryAddress(c, x.msg), RetryMessage(c, x.msg, x.phase.reason));
  }

  /** A safe configuration never republishes into nothing. */
  lemma RepublishIsRouted(c: Config, s: State, h: nat)
    requires Safe(c) && CountsOk(s) && HandlerEnabled(c, s, h, Republish)
    ensures Route(RetryAddress(c, s.handlers[h].msg)).Some?
  {
    assert CountOk(s.handlers[h].msg);
  }

  lemma LiveNotify(s: State, p: PaymentId, h: nat, post: Post)
    requires Live(s, p) && h in s.handlers
    ensures Live(LogNotified(LogPost(Enter(s, h, Notified), post), s.handlers[h].msg.pid), p)
  {
    var s1 := Enter(s, h, Notified);
    var t := LogNotified(LogPost(s1, post), s.handlers[h].msg.pid);
    LiveSet(s, p, h, s.handlers[h].(phase := Notified));
    if Live(s1, p) {
      LiveFrame(s1, t, p);
    } else {
      assert At(t, p, Heard);
    }
  }

  lemma LiveHandle(c: Config, s: State, h: nat, a: HandlerStep, p: PaymentId)
    requires Safe(c) && CountsOk(s) && WellFormed(s.broker) && HandlerEnabled(c, s, h, a)
    requires Live(s, p)
    ensures Live(HandlerNext(c, s, h, a), p)
  {
    match a
    case Deliver(i) => LiveDeliver(s, p, h, i);
    case ReadPayment => LiveSet(s, p, h, s.handlers[h].(phase := ReadPhase(s, s.handlers[h].msg.pid)));
    case ApplyOutcome(succeeded) =>
      LiveSet(s, p, h, s.handlers[h].(phase := ApplyPhase(s, s.handlers[h].msg.pid, succeeded)));
    case CommitOutcome =>
      var o := s.handlers[h].phase.outcome;
      LiveSet(s, p, h, s.handlers[h].(phase := Ready(o)));
      LiveFrame(Enter(s, h, Ready(o)), StoreOutcome(Enter(s, h, Ready(o)), s.handlers[h].msg.pid, o), p);
    case PostDelivered => LiveNotify(s, p, h, Post(s.handlers[h].msg.pid, s.handlers[h].phase.outcome));
    case PostFailed(reason) =>
      var x := s.handlers[h];
      var y := Handler(WithFailure(x.msg, s.now), Unsent(reason), x.owned);
      LiveSet(s, p, h, y);
      LiveFrame(SetHandler(s, h, y), LogPost(SetHandler(s, h, y), Post(x.msg.pid, x.phase.outcome)), p);
    case Republish =>
      RepublishIsRouted(c, s, h);
      LiveRepublish(c, s, p, h);
    case Ack => LiveWithout(s, p, h);
    case Reject => LiveDrop(s, p, h);
    case Nack => LiveDrop(s, p, h);
    case Requeue => LivePutBack(s, p, h);
    case Die => LiveWithout(s, p, h);
  }

  lemma LiveDispatch(c: Config, s: State, d: nat, a: DispatchStep, p: PaymentId)
    requires WellFormed(s.broker) && DispatchEnabled(c, s, d, a) && SendsKnown(s, d)
    requires Live(s, p)
    ensures Live(DispatchNext(c, s, d, a), p)
  {
    match a
    case Fetch(rows) => LiveFrame(s, OpenBatch(s, d, rows), p);
    case PublishRow(accepted, raised, error) =>
      LivePublishRow(s, d, accepted, if raised then Raised(accepted, error) else Sent, p);
    case MarkRow => LiveFrame(s, SetBatch(s, d, Advance(s.batches[d], Mark(s.now))), p);
    case MarkRaises(error) => LiveFrame(s, SetBatch(s, d, s.batches[d].(stage := Raised(true, error))), p);
    case BumpRow => LiveFrame(s, SetBatch(s, d, Advance(s.batches[d], BumpWrite(c, s, s.batches[d]))), p);
    case CommitBatch => LiveFrame(s, CommitWrites(CloseBatch(s, d), s.batches[d].writes), p);
    case AbortBatch => LiveFrame(s, CountAbort(CloseBatch(s, d), s.batches[d]), p);
  }

  lemma LivePublishRow(s: State, d: nat, accepted: bool, stage: Stage, p: PaymentId)
    requires WellFormed(s.broker) && AtRow(s, d) && SendsKnown(s, d)
    requires Live(s, p) || (accepted && s.outbox[s.batches[d].rows[s.batches[d].pos]].routingKey == PaymentCreated
                            && s.outbox[s.batches[d].rows[s.batches[d].pos]].payload == p)
    ensures Live(PublishNext(s, d, accepted, stage), p)
  {
    var b := s.batches[d];
    var r := b.rows[b.pos];
    var row := s.outbox[r];
    var s1 := SetBatch(s, d, b.(stage := stage));
    if Live(s, p) {
      LiveFrame(s, s1, p);
    }
    if accepted {
      var a := ViaExchange(PaymentsExchange, row.routingKey);
      LivePublish(s1, p, a, RowMessage(row));
      LiveFrame(PublishMessage(s1, a, RowMessage(row)), CountSend(PublishMessage(s1, a, RowMessage(row)), r), p);
    }
  }

  lemma LiveExpire(s: State, n: nat, p: PaymentId)
    requires WellFormed(s.broker) && ExpireEnabled(s, n) && Live(s, p)
    ensures Live(ExpireNext(s, n), p)
  {
    var q := s.broker.retry[n - 1];
    var s1 := TakeExpired(s, n);
    var place :| At(s, p, place);
    if place.InRetry? && place.n == n - 1 && place.i > 0 {
      assert At(s1, p, InRetry(n - 1, place.i - 1));
    } else if place != InRetry(n - 1, 0) {
      assert At(s1, p, place);
    }
    LivePublish(s1, p, DeadLetterAddress(PaymentsRetry(n)).value, q[0].msg.(headers := DeadLettered(q[0].msg.headers)));
  }

  /** Once live, always live: the event moves, it is never dropped. */
  lemma LiveStep(c: Config, s: State, step: Step, p: PaymentId)
    requires Safe(c) && CountsOk(s) && Enabled(c, s, step) && Live(s, p)
    ensures Live(Next(c, s, step), p)
  {
    match step
    case Api(r, a) =>
      if a.Commit? {
        LiveFrame(s, Respond(Store(s, s.requests[r]), r, Accepted(s.requests[r].phase.id)), p);
      } else {
        ApiKeepsTables(s, r, a);
        LiveFrame(s, ApiNext(s, r, a), p);
      }
    case Dispatch(d, a) => LiveDispatch(c, s, d, a, p);
    case Handle(h, a) => LiveHandle(c, s, h, a, p);
    case Expire(n) => LiveExpire(s, n, p);
    case Tick(t) => LiveFrame(s, Wait(s, t), p);
  }

  // ---- From the outbox row to the event

  /** A row whose message the broker has accepted has a live payment. */
  ghost predicate RowCovered(s: State, r: RowId) {
    r in s.outbox ==>
      && (s.outbox[r].status == RowPublished ==> Live(s, s.outbox[r].payload))
      && (InFlight(s.locks, s.batches, r) > 0 ==> Live(s, s.outbox[r].payload))
  }

  ghost predicate Covered(s: State) {
    forall r | r in s.outbox :: RowCovered(s, r)
  }

  ghost predicate Untouched(s: State, r: RowId) {
    r in s.outbox && s.outbox[r].status != RowPublished && InFlight(s.locks, s.batches, r) == 0
  }

  lemma UntouchedPublish(s: State, d: nat, accepted: bool, raised: bool, error: string, r: RowId)
    requires Created(s) && Locked(s) && WellFormed(s.broker) && Untouched(s, r)
    requires AtRow(s, d) && SendsKnown(s, d) && s.batches[d].stage == NextRow && (accepted || raised)
    ensures var t := PublishNext(s, d, accepted, if raised then Raised(accepted, error) else Sent);
            Untouched(t, r) || Live(t, s.outbox[r].payload)
  {
    var stage := if raised then Raised(accepted, error) else Sent;
    var b := s.batches[d];
    InFlightStage(s, d, stage, r);
    StageAccepts(b, stage, s.now, b.rows[b.pos]);
    if accepted && r == b.rows[b.pos] {
      LivePublishRow(s, d, accepted, stage, s.outbox[r].payload);
    }
  }

  lemma UntouchedSet(s: State, d: nat, b: Batch, r: RowId)
    requires Untouched(s, r) && d in s.batches
    requires forall x :: AcceptedIn(b, x) == AcceptedIn(s.batches[d], x)
    ensures Untouched(SetBatch(s, d, b), r)
  {
  }

  lemma UntouchedOpen(s: State, d: nat, rows: seq<RowId>, limit: nat, r: RowId)
    requires Locked(s) && Untouched(s, r)
    requires d !in s.batches && IsFetch(s.outbox, s.locks.Keys, s.now, limit, rows)
    ensures Untouched(OpenBatch(s, d, rows), r)
  {
    FetchedUnlocked(s, rows, limit);
    InFlightOpen(s, d, rows, r);
  }

  lemma UntouchedCommit(s: State, d: nat, r: RowId)
    requires Locked(s) && Untouched(s, r) && d in s.batches && s.batches[d].pos == |s.batches[d].rows|
    ensures Untouched(CommitWrites(CloseBatch(s, d), s.batches[d].writes), r)
  {
    InFlightClose(s, d, r);
    CommitPublishes(s, d, r);
  }

  /** A row is not covered by accident: its message is sent before the row can
      be committed as published. */
  lemma UntouchedDispatch(c: Config, s: State, d: nat, a: DispatchStep, r: RowId)
    requires Created(s) && Locked(s) && Untouched(s, r)
    requires WellFormed(s.broker) && DispatchEnabled(c, s, d, a) && SendsKnown(s, d)
    requires !a.PublishRow?
    ensures Untouched(DispatchNext(c, s, d, a), r)
  {
    match a
    case Fetch(rows) => UntouchedOpen(s, d, rows, c.batchSize, r);
    case MarkRow =>
      AdvanceAccepts(s.batches[d], Mark(s.now), s.now);
      UntouchedSet(s, d, Advance(s.batches[d], Mark(s.now)), r);
    case MarkRaises(error) =>
      RaisedAfterSent(s.batches[d], error);
      UntouchedSet(s, d, s.batches[d].(stage := Raised(true, error)), r);
    case BumpRow =>
      AdvanceAccepts(s.batches[d], BumpWrite(c, s, s.batches[d]), s.now);
      UntouchedSet(s, d, Advance(s.batches[d], BumpWrite(c, s, s.batches[d])), r);
    case CommitBatch => UntouchedCommit(s, d, r);
    case AbortBatch => InFlightClose(s, d, r);
  }

  lemma CoveredDispatch(c: Config, s: State, d: nat, a: DispatchStep, r: RowId)
    requires Created(s) && Locked(s) && RowCovered(s, r)
    requires WellFormed(s.broker) && DispatchEnabled(c, s, d, a) && SendsKnown(s, d) && r in s.outbox
    ensures RowCovered(DispatchNext(c, s, d, a), r)
  {
    DispatchKeeps(c, s, d, a);
    if Live(s, s.outbox[r].payload) {
      LiveDispatch(c, s, d, a, s.outbox[r].payload);
    } else if a.PublishRow? {
      UntouchedPublish(s, d, a.accepted, a.raised, a.error, r);
    } else {
      UntouchedDispatch(c, s, d, a, r);
    }
  }

  /** A commit publishes only rows whose message the broker has accepted. */
  lemma CommitPublishes(s: State, d: nat, r: RowId)
    requires Locked(s) && d in s.batches && s.batches[d].pos == |s.batches[d].rows|
    requires r in s.outbox && s.outbox[r].status != RowPublished && InFlight(s.locks, s.batches, r) == 0
    ensures Apply(s.outbox, s.batches[d].writes)[r].status != RowPublished
  {
    var b := s.batches[d];
    assert b.rows[..b.pos] == b.rows;
    UnlockedRows(s, d, r);
  }

  lemma CoveredStep(c: Config, s: State, step: Step)
    requires Safe(c) && Created(s) && Locked(s) && Covered(s) && CountsOk(s) && Enabled(c, s, step)
    ensures Covered(Next(c, s, step))
  {
    var t := Next(c, s, step);
    match step
    case Api(r, a) => CoveredApi(c, s, r, a);
    case Dispatch(d, a) =>
      DispatchKeeps(c, s, d, a);
      forall x | x in t.outbox ensures RowCovered(t, x) { CoveredDispatch(c, s, d, a, x); }
    case Handle(h, a) =>
      HandlerKeeps(c, s, h, a);
      CoveredFrame(c, s, step);
    case Expire(n) => CoveredFrame(c, s, step);
    case Tick(_) => CoveredFrame(c, s, step);
  }

  lemma CoveredFrame(c: Config, s: State, step: Step)
    requires Safe(c) && Covered(s) && CountsOk(s) && Enabled(c, s, step)
    requires var t := Next(c, s, step); t.outbox == s.outbox && t.locks == s.locks && t.batches == s.batches
    ensures Covered(Next(c, s, step))
  {
    forall x | x in s.outbox ensures RowCovered(Next(c, s, step), x) {
      assert RowCovered(s, x);
      if Live(s, s.outbox[x].payload) {
        LiveStep(c, s, step, s.outbox[x].payload);
      }
    }
  }

  lemma CoveredApi(c: Config, s: State, r: nat, a: ApiStep)
    requires Safe(c) && Created(s) && Locked(s) && Covered(s) && CountsOk(s) && Enabled(c, s, Api(r, a))
    ensures Covered(ApiNext(s, r, a))
  {
    if a.Commit? {
      FreshIdsNotStored(s, r);
      var t := ApiNext(s, r, a);
      forall x | x in t.outbox ensures RowCovered(t, x) {
        if x != s.requests[r].phase.rid {
          assert RowCovered(s, x);
          if Live(s, s.outbox[x].payload) {
            LiveStep(c, s, Api(r, a), s.outbox[x].payload);
          }
        } else if x in s.locks {
          LockedRowsExist(s, x);
          assert false;
        }
      }
    } else {
      ApiKeepsTables(s, r, a);
      CoveredFrame(c, s, Api(r, a));
    }
  }

  /** Every committed payment still has its row to publish, or is live. */
  ghost predicate NothingLost(s: State) {
    forall p | p in s.payments ::
      || (exists r :: r in s.outbox && s.outbox[r].payload == p && s.outbox[r].status == RowPending)
      || Live(s, p)
  }

  lemma PendingOrLive(c: Config, s: State, r: RowId)
    requires RowCovered(s, r) && r in s.outbox
    requires r in s.log.failures && Spaced(c, s.outbox[r], s.log.failures[r])
    ensures s.outbox[r].status == RowPending || Live(s, s.outbox[r].payload)
  {
  }

  lemma CoveredMeansNothingLost(c: Config, s: State)
    requires Created(s) && Covered(s) && RowsSpaced(c, s.outbox, s.log.failures)
    ensures NothingLost(s)
  {
    forall p | p in s.payments && !Live(s, p)
      ensures exists r :: r in s.outbox && s.outbox[r].payload == p && s.outbox[r].status == RowPending
    {
      var r := s.log.rowFor[p];
      assert r in s.outbox && s.outbox[r].aggregate == p;
      PendingOrLive(c, s, r);
    }
  }
}
