/** Concurrent creation: one payment per idempotency key, one outbox row per
    payment, and what a client is told. */
module Creation {
  import opened Basics
  import opened Entities
  import opened Pipeline

  predicate Open(q: Request) {
    q.phase.Inserted? || q.phase.Enqueued?
  }

  /** The ids an open transaction has used and not committed yet. */
  function Reserved(q: Request): set<nat> {
    match q.phase
    case Inserted(id) => {id}
    case Enqueued(id, rid) => {id, rid}
    case _ => {}
  }

  ghost predicate UniqueKeys(payments: map<PaymentId, Payment>, requests: map<nat, Request>) {
    && (forall p, q | p in payments && q in payments && payments[p].key == payments[q].key :: p == q)
    && (forall r, p | r in requests && Open(requests[r]) && p in payments :: payments[p].key != requests[r].key)
    && (forall r, k | r in requests && k in requests && Open(requests[r]) && Open(requests[k])
                      && requests[r].key == requests[k].key :: r == k)
  }

  ghost predicate FreshIds(ids: set<nat>, stored: set<nat>, requests: map<nat, Request>) {
    && stored <= ids
    && (forall r | r in requests :: Reserved(requests[r]) <= ids && Reserved(requests[r]) !! stored)
    && (forall r, k | r in requests && k in requests && r != k :: Reserved(requests[r]) !! Reserved(requests[k]))
  }

  /** Payments and outbox rows match one to one, and a row's event names its payment. */
  ghost predicate Bijection(payments: set<PaymentId>, outbox: map<RowId, Row>, rowFor: map<PaymentId, RowId>) {
    && rowFor.Keys == payments
    && (forall p | p in payments :: rowFor[p] in outbox && outbox[rowFor[p]].aggregate == p)
    && (forall r | r in outbox ::
          && outbox[r].aggregate in payments && rowFor[outbox[r].aggregate] == r
          && outbox[r].payload == outbox[r].aggregate
          && outbox[r].routingKey == PaymentCreated)
  }

  ghost predicate SameIdentity(outbox: map<RowId, Row>, outbox': map<RowId, Row>) {
    && outbox'.Keys == outbox.Keys
    && forall r | r in outbox :: && outbox'[r].aggregate == outbox[r].aggregate
                                 && outbox'[r].payload == outbox[r].payload
                                 && outbox'[r].routingKey == outbox[r].routingKey
  }

  ghost predicate SameRequest(payments: map<PaymentId, Payment>, payments': map<PaymentId, Payment>) {
    && payments'.Keys == payments.Keys
    && forall p | p in payments :: && payments'[p].key == payments[p].key && payments'[p].terms == payments[p].terms
                                   && payments'[p].note == payments[p].note
  }

  ghost predicate LogComplete(payments: set<PaymentId>, outbox: set<RowId>, log: Log) {
    && log.sends.Keys == outbox
    && log.rolledBack.Keys == outbox
    && log.doubtful.Keys == outbox
    && log.failures.Keys == outbox
    && log.outcomes.Keys == payments
  }

  ghost predicate KeyTaken(payments: map<PaymentId, Payment>, key: string) {
    exists p: PaymentId :: p in payments && payments[p].key == key
  }

  /** An accepted reply names a stored payment with the key and the terms of the
      request; a conflict means that a payment with the key is stored. */
  ghost predicate Honest(payments: map<PaymentId, Payment>, reply: Reply) {
    match reply.response
    case Accepted(id) => id in payments && payments[id].key == reply.key && payments[id].terms == reply.terms
    case Conflict => KeyTaken(payments, reply.key)
    case AmountNotPositive => reply.terms.amount <= 0
  }

  ghost predicate HonestReplies(payments: map<PaymentId, Payment>, replies: seq<Reply>) {
    forall reply | reply in replies :: Honest(payments, reply)
  }

  ghost predicate Created(s: State) {
    && UniqueKeys(s.payments, s.requests)
    && FreshIds(s.ids, s.payments.Keys + s.outbox.Keys, s.requests)
    && Bijection(s.payments.Keys, s.outbox, s.log.rowFor)
    && LogComplete(s.payments.Keys, s.outbox.Keys, s.log)
    && HonestReplies(s.payments, s.log.replies)
  }

  lemma CreatedInit()
    ensures Created(Init())
  {
  }

  ghost predicate NotStored(s: State, r: nat) {
    r in s.requests && s.requests[r].phase.Enqueued? ==>
      s.requests[r].phase.id !in s.payments && s.requests[r].phase.rid !in s.outbox
  }

  lemma FreshIdsNotStored(s: State, r: nat)
    requires Created(s)
    ensures NotStored(s, r)
  {
    if r in s.requests && s.requests[r].phase.Enqueued? {
      assert s.requests[r].phase.id in Reserved(s.requests[r]);
      assert s.requests[r].phase.rid in Reserved(s.requests[r]);
    }
  }

  lemma KeysSet(payments: map<PaymentId, Payment>, requests: map<nat, Request>, r: nat, q: Request)
    requires UniqueKeys(payments, requests)
    requires Open(q) ==> && (forall p | p in payments :: payments[p].key != q.key)
                         && (forall k | k in requests && k != r :: !HoldsKey(requests[k], q.key))
    ensures UniqueKeys(payments, requests[r := q])
  {
  }

  lemma KeysDrop(payments: map<PaymentId, Payment>, requests: map<nat, Request>, r: nat)
    requires UniqueKeys(payments, requests)
    ensures UniqueKeys(payments, requests - {r})
  {
  }

  lemma KeysStore(payments: map<PaymentId, Payment>, requests: map<nat, Request>, r: nat, id: PaymentId, p: Payment)
    requires UniqueKeys(payments, requests)
    requires r in requests && Open(requests[r]) && p.key == requests[r].key
    ensures UniqueKeys(payments[id := p], requests - {r})
  {
  }

  lemma IdsSet(ids: set<nat>, stored: set<nat>, requests: map<nat, Request>, r: nat, q: Request, more: set<nat>)
    requires FreshIds(ids, stored, requests) && more !! ids
    requires Reserved(q) <= more + if r in requests then Reserved(requests[r]) else {}
    ensures FreshIds(ids + more, stored, requests[r := q])
  {
  }

  lemma IdsClose(ids: set<nat>, stored: set<nat>, requests: map<nat, Request>, r: nat)
    requires FreshIds(ids, stored, requests)
    ensures FreshIds(ids, stored, requests - {r})
  {
  }

  lemma IdsStore(ids: set<nat>, stored: set<nat>, requests: map<nat, Request>, r: nat)
    requires FreshIds(ids, stored, requests) && r in requests
    ensures FreshIds(ids, stored + Reserved(requests[r]), requests - {r})
  {
  }

  lemma BijectionStore(payments: set<PaymentId>, outbox: map<RowId, Row>, rowFor: map<PaymentId, RowId>,
                       id: PaymentId, rid: RowId, at: real)
    requires Bijection(payments, outbox, rowFor) && id !in payments && rid !in outbox
    ensures Bijection(payments + {id}, outbox[rid := NewRow(id, at)], rowFor[id := rid])
  {
  }

  lemma RepliesAppend(payments: map<PaymentId, Payment>, replies: seq<Reply>, reply: Reply)
    requires HonestReplies(payments, replies) && Honest(payments, reply)
    ensures HonestReplies(payments, replies + [reply])
  {
  }

  lemma RepliesGrow(payments: map<PaymentId, Payment>, payments': map<PaymentId, Payment>, replies: seq<Reply>)
    requires HonestReplies(payments, replies)
    requires forall p | p in payments :: p in payments' && payments'[p].key == payments[p].key
                                         && payments'[p].terms == payments[p].terms
    ensures HonestReplies(payments', replies)
  {
    forall reply | reply in replies ensures Honest(payments', reply) {
      assert Honest(payments, reply);
      if reply.response.Conflict? {
        var p: PaymentId :| p in payments && payments[p].key == reply.key;
        assert p in payments' && payments'[p].key == reply.key;
      }
    }
  }

  lemma KeysGrow(payments: map<PaymentId, Payment>, payments': map<PaymentId, Payment>, requests: map<nat, Request>)
    requires UniqueKeys(payments, requests) && payments'.Keys == payments.Keys
    requires forall p | p in payments :: payments'[p].key == payments[p].key
    ensures UniqueKeys(payments', requests)
  {
  }

  lemma BijectionFrame(payments: set<PaymentId>, outbox: map<RowId, Row>, outbox': map<RowId, Row>,
                       rowFor: map<PaymentId, RowId>)
    requires Bijection(payments, outbox, rowFor) && SameIdentity(outbox, outbox')
    ensures Bijection(payments, outbox', rowFor)
  {
  }

  lemma CreatedSetRequest(s: State, r: nat, q: Request)
    requires Created(s) && Reserved(q) <= if r in s.requests then Reserved(s.requests[r]) else {}
    requires Open(q) ==> && (forall p | p in s.payments :: s.payments[p].key != q.key)
                         && (forall k | k in s.requests && k != r :: !HoldsKey(s.requests[k], q.key))
    ensures Created(SetRequest(s, r, q))
  {
    KeysSet(s.payments, s.requests, r, q);
    IdsSet(s.ids, s.payments.Keys + s.outbox.Keys, s.requests, r, q, {});
    assert s.ids + {} == s.ids;
  }

  lemma CreatedReserve(s: State, r: nat, phase: RequestPhase, id: nat)
    requires Created(s) && r in s.requests && id !in s.ids
    requires var q := s.requests[r].(phase := phase);
             && Reserved(q) <= {id} + Reserved(s.requests[r])
             && Open(q)
             && (forall p | p in s.payments :: s.payments[p].key != q.key)
             && (forall k | k in s.requests && k != r :: !HoldsKey(s.requests[k], q.key))
    ensures Created(UseId(SetPhase(s, r, phase), id))
  {
    var q := s.requests[r].(phase := phase);
    KeysSet(s.payments, s.requests, r, q);
    IdsSet(s.ids, s.payments.Keys + s.outbox.Keys, s.requests, r, q, {id});
  }

  lemma CreatedRespond(s: State, r: nat, response: Response)
    requires Created(s) && r in s.requests
    requires Honest(s.payments, Reply(s.requests[r].key, s.requests[r].terms, response))
    ensures Created(Respond(s, r, response))
  {
    CreatedClose(s, r);
    RepliesAppend(s.payments, s.log.replies, Reply(s.requests[r].key, s.requests[r].terms, response));
  }

  lemma CreatedClose(s: State, r: nat)
    requires Created(s)
    ensures Created(CloseRequest(s, r))
  {
    KeysDrop(s.payments, s.requests, r);
    IdsClose(s.ids, s.payments.Keys + s.outbox.Keys, s.requests, r);
  }

  lemma CreatedStore(s: State, r: nat)
    requires Created(s) && r in s.requests && s.requests[r].phase.Enqueued?
    ensures Created(Respond(Store(s, s.requests[r]), r, Accepted(s.requests[r].phase.id)))
  {
    var q := s.requests[r];
    var id, rid := q.phase.id, q.phase.rid;
    var p := NewPayment(q.key, q.terms, q.note);
    assert id in Reserved(q) && rid in Reserved(q);
    KeysStore(s.payments, s.requests, r, id, p);
    IdsStore(s.ids, s.payments.Keys + s.outbox.Keys, s.requests, r);
    BijectionStore(s.payments.Keys, s.outbox, s.log.rowFor, id, rid, q.begunAt);
    RepliesGrow(s.payments, s.payments[id := p], s.log.replies);
    RepliesAppend(s.payments[id := p], s.log.replies, Reply(q.key, q.terms, Accepted(id)));
    StoredKeys(s, q);
    StoredLog(s, q);
  }

  lemma StoredKeys(s: State, q: Request)
    requires q.phase.Enqueued?
    ensures var t := Store(s, q);
            && t.payments.Keys == s.payments.Keys + {q.phase.id} && t.outbox.Keys == s.outbox.Keys + {q.phase.rid}
            && t.payments.Keys + t.outbox.Keys == s.payments.Keys + s.outbox.Keys + Reserved(q)
  {
    var t := Store(s, q);
    assert t.payments.Keys == s.payments.Keys + {q.phase.id};
    assert t.outbox.Keys == s.outbox.Keys + {q.phase.rid};
  }

  lemma OpenedLog(log: Log, payments: set<PaymentId>, outbox: set<RowId>, id: PaymentId, rid: RowId)
    requires LogComplete(payments, outbox, log)
    ensures LogComplete(payments + {id}, outbox + {rid}, Opened(log, id, rid))
  {
  }

  lemma StoredLog(s: State, q: Request)
    requires q.phase.Enqueued? && LogComplete(s.payments.Keys, s.outbox.Keys, s.log)
    ensures var t := Store(s, q); LogComplete(t.payments.Keys, t.outbox.Keys, t.log)
  {
    StoredKeys(s, q);
    OpenedLog(s.log, s.payments.Keys, s.outbox.Keys, q.phase.id, q.phase.rid);
  }

  lemma RivalTakesKey(s: State, r: nat, p: PaymentId)
    requires r in s.requests && FoundByKey(s, s.requests[r].key, Some(p))
    ensures KeyTaken(s.payments, s.requests[r].key)
  {
  }

  lemma CreatedInsert(s: State, r: nat, id: PaymentId, rival: Option<PaymentId>)
    requires Created(s) && ApiEnabled(s, r, Insert(id, rival))
    ensures Created(InsertNext(s, r, id, rival))
  {
    if s.requests[r].terms.amount <= 0 {
      CreatedRespond(s, r, AmountNotPositive);
    } else if rival.Some? {
      RivalTakesKey(s, r, rival.value);
      CreatedRespond(s, r, Conflict);
    } else {
      CreatedReserve(s, r, Inserted(id), id);
    }
  }

  lemma CreatedApi(s: State, r: nat, a: ApiStep)
    requires Created(s) && ApiEnabled(s, r, a)
    ensures Created(ApiNext(s, r, a))
  {
    match a
    case Begin(key, terms, note) => CreatedSetRequest(s, r, Request(key, terms, note, s.now, Arrived));
    case Lookup(None) => CreatedSetRequest(s, r, s.requests[r].(phase := Unseen));
    case Lookup(Some(p)) =>
      RivalTakesKey(s, r, p);
      CreatedRespond(s, r, if Matches(s.payments[p], s.requests[r].terms) then Accepted(p) else Conflict);
    case Insert(id, rival) => CreatedInsert(s, r, id, rival);
    case Enqueue(rid) =>
      CreatedReserve(s, r, Enqueued(s.requests[r].phase.id, rid), rid);
    case Commit => CreatedStore(s, r);
    case Withdraw => CreatedClose(s, r);
  }

  /** What a dispatcher may change. */
  ghost predicate DispatchFrame(s: State, t: State) {
    t == s.(outbox := t.outbox, locks := t.locks, batches := t.batches, broker := t.broker,
            log := s.log.(sends := t.log.sends, rolledBack := t.log.rolledBack, doubtful := t.log.doubtful,
                          failures := t.log.failures))
  }

  /** What a handler may change. */
  ghost predicate HandlerFrame(s: State, t: State) {
    t == s.(payments := t.payments, handlers := t.handlers, broker := t.broker,
            log := s.log.(outcomes := t.log.outcomes, posts := t.log.posts, notified := t.log.notified))
  }

  /** What a request may change without committing. */
  ghost predicate RequestFrame(s: State, t: State) {
    t == s.(ids := t.ids, requests := t.requests, log := s.log.(replies := t.log.replies))
  }

  lemma ApiKeepsTables(s: State, r: nat, a: ApiStep)
    requires ApiEnabled(s, r, a) && !a.Commit?
    ensures RequestFrame(s, ApiNext(s, r, a))
  {
    match a
    case Begin(_, _, _) =>
    case Lookup(None) =>
    case Lookup(Some(_)) =>
    case Insert(id, rival) => InsertFrame(s, r, id, rival);
    case Enqueue(_) =>
    case Withdraw =>
  }

  lemma InsertFrame(s: State, r: nat, id: PaymentId, rival: Option<PaymentId>)
    requires r in s.requests
    ensures RequestFrame(s, InsertNext(s, r, id, rival))
  {
    assert RequestFrame(s, Respond(s, r, AmountNotPositive));
    assert RequestFrame(s, Respond(s, r, Conflict));
    assert RequestFrame(s, UseId(SetPhase(s, r, Inserted(id)), id));
  }

  lemma DispatchKeeps(c: Config, s: State, d: nat, a: DispatchStep)
    requires WellFormed(s.broker) && DispatchEnabled(c, s, d, a) && SendsKnown(s, d)
    ensures DispatchFrame(s, DispatchNext(c, s, d, a))
    ensures SameIdentity(s.outbox, DispatchNext(c, s, d, a).outbox)
  {
    match a
    case Fetch(_) =>
    case PublishRow(_, _, _) =>
    case MarkRow =>
    case MarkRaises(_) =>
    case BumpRow =>
    case CommitBatch =>
    case AbortBatch =>
  }

  lemma LogDispatch(c: Config, s: State, d: nat, a: DispatchStep)
    requires LogComplete(s.payments.Keys, s.outbox.Keys, s.log)
    requires WellFormed(s.broker) && DispatchEnabled(c, s, d, a) && SendsKnown(s, d)
    ensures var t := DispatchNext(c, s, d, a); LogComplete(t.payments.Keys, t.outbox.Keys, t.log)
  {
    match a
    case Fetch(_) =>
    case PublishRow(_, _, _) =>
    case MarkRow =>
    case MarkRaises(_) =>
    case BumpRow =>
    case CommitBatch =>
    case AbortBatch =>
  }

  lemma HandlerKeeps(c: Config, s: State, h: nat, a: HandlerStep)
    requires WellFormed(s.broker) && HandlerEnabled(c, s, h, a)
    ensures HandlerFrame(s, HandlerNext(c, s, h, a))
  {
    match a
    case Deliver(_) =>
    case ReadPayment =>
    case ApplyOutcome(_) =>
    case CommitOutcome =>
    case PostDelivered =>
    case PostFailed(_) =>
    case Republish =>
    case Ack =>
    case Reject => DropFrame(s, h);
    case Nack => DropFrame(s, h);
    case Requeue =>
    case Die =>
  }

  lemma DropFrame(s: State, h: nat)
    requires h in s.handlers && WellFormed(s.broker)
    ensures HandlerFrame(s, Drop(s, h)) && SameRequest(s.payments, Drop(s, h).payments)
    ensures Drop(s, h).log == s.log
  {
  }

  lemma HandlerKeepsPayments(c: Config, s: State, h: nat, a: HandlerStep)
    requires WellFormed(s.broker) && HandlerEnabled(c, s, h, a)
    requires s.log.outcomes.Keys == s.payments.Keys
    ensures var t := HandlerNext(c, s, h, a);
            SameRequest(s.payments, t.payments) && t.log.outcomes.Keys == t.payments.Keys
  {
    match a
    case Deliver(_) =>
    case ReadPayment =>
    case ApplyOutcome(_) =>
    case CommitOutcome =>
    case PostDelivered =>
    case PostFailed(_) =>
    case Republish =>
    case Ack =>
    case Reject => DropFrame(s, h);
    case Nack => DropFrame(s, h);
    case Requeue =>
    case Die =>
  }

  lemma CreatedFrame(s: State, t: State)
    requires Created(s)
    requires t.requests == s.requests && t.ids == s.ids
    requires t.log.rowFor == s.log.rowFor && t.log.replies == s.log.replies
    requires SameRequest(s.payments, t.payments) && SameIdentity(s.outbox, t.outbox)
    requires LogComplete(t.payments.Keys, t.outbox.Keys, t.log)
    ensures Created(t)
  {
    KeysGrow(s.payments, t.payments, s.requests);
    RepliesGrow(s.payments, t.payments, s.log.replies);
    BijectionFrame(s.payments.Keys, s.outbox, t.outbox, s.log.rowFor);
  }

  lemma CreatedStep(c: Config, s: State, step: Step)
    requires Created(s) && Enabled(c, s, step)
    ensures Created(Next(c, s, step))
  {
    match step
    case Api(r, a) => CreatedApi(s, r, a);
    case Dispatch(d, a) =>
      DispatchKeeps(c, s, d, a);
      LogDispatch(c, s, d, a);
      CreatedFrame(s, DispatchNext(c, s, d, a));
    case Handle(h, a) =>
      HandlerKeeps(c, s, h, a);
      HandlerKeepsPayments(c, s, h, a);
      CreatedFrame(s, HandlerNext(c, s, h, a));
    case Expire(n) =>
    case Tick(t) =>
  }
}
