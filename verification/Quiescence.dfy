/** Left alone, the pipeline comes to rest: without new requests, failed
    publishes, rollbacks without cause or deliveries taken back, every step uses
    up part of a finite measure, and a step is always possible until nothing is
    left to do. */
module Quiescence {
  import opened Basics
  import opened Entities
  import opened RetryHeaders
  import opened Topology
  import opened OutboxQuery
  import opened Pipeline
  import opened Creation
  import opened Dispatching
  import opened Chains
  import Backoff

  // ---- The measure

  /** The work a message in `payments.new` can still cause. */
  function MessageWeight(c: Config, m: Message): (w: nat)
    ensures w >= 10
  {
    10 * (Max(Ceiling(c) - Count(m), 0) + 1)
  }

  const FIRST: Message := Message(0, NO_HEADERS, Trail([], true))

  /** The work an unlocked pending row can still cause. */
  function RowLoad(c: Config): nat {
    MessageWeight(c, FIRST) + 6
  }

  function RequestWeight(c: Config, phase: RequestPhase): nat {
    match phase
    case Arrived => RowLoad(c) + 5
    case Unseen => RowLoad(c) + 4
    case Inserted(_) => RowLoad(c) + 3
    case Enqueued(_, _) => RowLoad(c) + 2
  }

  function HandlerWeight(c: Config, x: Handler): nat {
    match x.phase
    case Got => MessageWeight(c, x.msg) - 1
    case Window => MessageWeight(c, x.msg) - 2
    case Applied(_) => MessageWeight(c, x.msg) - 3
    case Ready(_) => MessageWeight(c, x.msg) - 4
    case Unsent(_) => MessageWeight(c, x.msg) - 5
    case _ => 1
  }

  /** The publish of the current row has raised and its delay overflows: all the
      dispatcher can do is roll the batch back. */
  predicate Stuck(b: Batch) {
    && b.pos < |b.rows| && b.stage.Raised? && b.rows[b.pos] in b.snapshot
    && b.snapshot[b.rows[b.pos]] >= Backoff.OVERFLOW_ATTEMPTS
  }

  /** A row inside an open batch. */
  function BatchRowWeight(c: Config, b: Batch, r: RowId): nat {
    if Stuck(b) then RowLoad(c) + 1
    else if r in b.writes then (if b.writes[r].Mark? then 0 else RowLoad(c) + 1)
    else if b.pos < |b.rows| && b.rows[b.pos] == r && b.stage != NextRow then
      (if b.stage == Sent then 2 else RowLoad(c) + 2)
    else RowLoad(c) - 3
  }

  function RowWeight(c: Config, row: Row, locks: map<RowId, nat>, batches: map<nat, Batch>, r: RowId): nat {
    if row.status == RowPublished then 0
    else if r in locks && locks[r] in batches then BatchRowWeight(c, batches[locks[r]], r)
    else RowLoad(c)
  }

  function RequestWeights(c: Config, requests: map<nat, Request>): map<nat, nat> {
    map r | r in requests :: RequestWeight(c, requests[r].phase)
  }

  function HandlerWeights(c: Config, handlers: map<nat, Handler>): map<nat, nat> {
    map h | h in handlers :: HandlerWeight(c, handlers[h])
  }

  function RowWeights(c: Config, outbox: map<RowId, Row>, locks: map<RowId, nat>, batches: map<nat, Batch>): map<nat, nat> {
    map r | r in outbox :: RowWeight(c, outbox[r], locks, batches, r)
  }

  function IncomingWeight(c: Config, q: seq<Message>): nat {
    if q == [] then 0 else IncomingWeight(c, q[..|q| - 1]) + MessageWeight(c, q[|q| - 1])
  }

  function RetryWeight(c: Config, q: seq<Delayed>): nat {
    if q == [] then 0 else 1 + MessageWeight(c, q[0].msg) + RetryWeight(c, q[1..])
  }

  function RetryWeightAll(c: Config, retry: seq<seq<Delayed>>): nat {
    if retry == [] then 0 else RetryWeight(c, retry[0]) + RetryWeightAll(c, retry[1..])
  }

  ghost function QueueWeight(c: Config, b: Broker): nat {
    IncomingWeight(c, b.incoming) + RetryWeightAll(c, b.retry)
  }

  ghost function OutboxWeight(c: Config, s: State): nat {
    Total(RowWeights(c, s.outbox, s.locks, s.batches))
  }

  ghost function Measure(c: Config, s: State): nat {
    Total(RequestWeights(c, s.requests)) + OutboxWeight(c, s) + |s.batches|
    + Total(HandlerWeights(c, s.handlers)) + QueueWeight(c, s.broker)
  }

  /** The steps of a system that is left alone. Handlers may end in any way the
      code has, requests may be withdrawn, and a batch that is stuck rolls back.
      What is left out: a new request, a publish or mark that raises, any other
      rollback, a delivery taken back, and a fetch that finds nothing. */
  ghost predicate Progress(s: State, step: Step) {
    match step
    case Api(_, a) => !a.Begin?
    case Dispatch(d, a) =>
      (match a
       case Fetch(rows) => rows != []
       case PublishRow(_, raised, _) => !raised
       case MarkRaises(_) => false
       case AbortBatch => d in s.batches && Stuck(s.batches[d])
       case _ => true)
    case Handle(_, a) => !a.Requeue?
    case Expire(_) => true
    case Tick(_) => false
  }

  // ---- Queues

  lemma IncomingAdd(c: Config, q: seq<Message>, m: Message)
    ensures IncomingWeight(c, q + [m]) == IncomingWeight(c, q) + MessageWeight(c, m)
  {
    assert (q + [m])[..|q|] == q;
  }

  lemma {:induction false} IncomingTake(c: Config, q: seq<Message>, i: nat)
    requires i < |q|
    ensures IncomingWeight(c, RemoveAt(q, i)) + MessageWeight(c, q[i]) == IncomingWeight(c, q)
  {
    var n := |q| - 1;
    if i == n {
      assert RemoveAt(q, i) == q[..n];
    } else {
      IncomingTake(c, q[..n], i);
      assert RemoveAt(q, i) == RemoveAt(q[..n], i) + [q[n]];
      IncomingAdd(c, RemoveAt(q[..n], i), q[n]);
    }
  }

  lemma {:induction false} RetryAdd(c: Config, q: seq<Delayed>, e: Delayed)
    ensures RetryWeight(c, q + [e]) == RetryWeight(c, q) + 1 + MessageWeight(c, e.msg)
  {
    if q == [] {
      assert q + [e] == [e];
    } else {
      RetryAdd(c, q[1..], e);
      assert (q + [e])[1..] == q[1..] + [e];
    }
  }

  lemma {:induction false} RetrySet(c: Config, retry: seq<seq<Delayed>>, n: nat, q: seq<Delayed>)
    requires n < |retry|
    ensures RetryWeightAll(c, retry[n := q]) + RetryWeight(c, retry[n]) == RetryWeightAll(c, retry) + RetryWeight(c, q)
  {
    if n == 0 {
      assert retry[n := q][1..] == retry[1..];
    } else {
      RetrySet(c, retry[1..], n - 1, q);
      assert retry[n := q][1..] == retry[1..][n - 1 := q];
    }
  }

  /** What a publish adds to the queues. */
  lemma QueuePublish(c: Config, b: Broker, a: Address, m: Message, now: real)
    requires WellFormed(b)
    ensures QueueWeight(c, Publish(b, a, m, now))
         == QueueWeight(c, b) + match Route(a)
                                case None => 0
                                case Some(PaymentsNew) => MessageWeight(c, m)
                                case Some(PaymentsDlq) => 0
                                case Some(PaymentsRetry(_)) => 1 + MessageWeight(c, m)
  {
    match Route(a)
    case None =>
    case Some(PaymentsNew) => IncomingAdd(c, b.incoming, m);
    case Some(PaymentsDlq) =>
    case Some(PaymentsRetry(n)) =>
      var e := Delayed(m, now + TtlSeconds(n));
      RetryAdd(c, b.retry[n - 1], e);
      RetrySet(c, b.retry, n - 1, b.retry[n - 1] + [e]);
  }

  // ---- Requests

  lemma RequestSet(c: Config, requests: map<nat, Request>, r: nat, q: Request)
    requires r in requests
    ensures Total(RequestWeights(c, requests[r := q])) + RequestWeight(c, requests[r].phase)
         == Total(RequestWeights(c, requests)) + RequestWeight(c, q.phase)
  {
    var before, after := RequestWeights(c, requests), RequestWeights(c, requests[r := q]);
    assert before - {r} == after - {r};
    TotalReplace(before, after, r);
  }

  lemma RequestEnd(c: Config, requests: map<nat, Request>, r: nat)
    requires r in requests
    ensures Total(RequestWeights(c, requests - {r})) + RequestWeight(c, requests[r].phase)
         == Total(RequestWeights(c, requests))
  {
    TotalRemove(RequestWeights(c, requests), r);
    assert RequestWeights(c, requests - {r}) == RequestWeights(c, requests) - {r};
  }

  // ---- Handlers

  lemma HandlerSet(c: Config, handlers: map<nat, Handler>, h: nat, x: Handler)
    requires h in handlers
    ensures Total(HandlerWeights(c, handlers[h := x])) + HandlerWeight(c, handlers[h])
         == Total(HandlerWeights(c, handlers)) + HandlerWeight(c, x)
  {
    var before, after := HandlerWeights(c, handlers), HandlerWeights(c, handlers[h := x]);
    assert before - {h} == after - {h};
    TotalReplace(before, after, h);
  }

  lemma HandlerAdd(c: Config, handlers: map<nat, Handler>, h: nat, x: Handler)
    requires h !in handlers
    ensures Total(HandlerWeights(c, handlers[h := x])) == Total(HandlerWeights(c, handlers)) + HandlerWeight(c, x)
  {
    TotalRemove(HandlerWeights(c, handlers[h := x]), h);
    assert HandlerWeights(c, handlers[h := x]) - {h} == HandlerWeights(c, handlers);
  }

  lemma HandlerEnd(c: Config, handlers: map<nat, Handler>, h: nat)
    requires h in handlers
    ensures Total(HandlerWeights(c, handlers - {h})) + HandlerWeight(c, handlers[h])
         == Total(HandlerWeights(c, handlers))
  {
    TotalRemove(HandlerWeights(c, handlers), h);
    assert HandlerWeights(c, handlers - {h}) == HandlerWeights(c, handlers) - {h};
  }

  // ---- Rows

  lemma RowsAdd(c: Config, outbox: map<RowId, Row>, locks: map<RowId, nat>, batches: map<nat, Batch>, r: RowId, row: Row)
    requires r !in outbox && r !in locks && row.status == RowPending
    ensures Total(RowWeights(c, outbox[r := row], locks, batches)) == Total(RowWeights(c, outbox, locks, batches)) + RowLoad(c)
  {
    TotalRemove(RowWeights(c, outbox[r := row], locks, batches), r);
    assert RowWeights(c, outbox[r := row], locks, batches) - {r} == RowWeights(c, outbox, locks, batches);
  }

  /** A batch changes what it holds for its current row only. */
  lemma RowsSet(c: Config, s: State, d: nat, b: Batch, r: RowId)
    requires Locked(s) && d in s.batches && r in s.batches[d].rows
    requires forall x | x != r :: BatchRowWeight(c, b, x) == BatchRowWeight(c, s.batches[d], x)
    ensures OutboxWeight(c, SetBatch(s, d, b)) + BatchRowWeight(c, s.batches[d], r)
         == OutboxWeight(c, s) + BatchRowWeight(c, b, r)
  {
    UnlockedRows(s, d, r);
    var batches := s.batches[d := b];
    var before, after := RowWeights(c, s.outbox, s.locks, s.batches), RowWeights(c, s.outbox, s.locks, batches);
    assert before - {r} == after - {r};
    TotalReplace(before, after, r);
  }

  lemma RowsShrink(c: Config, s: State, t: State)
    requires t.outbox.Keys == s.outbox.Keys
    requires forall r | r in s.outbox ::
               RowWeight(c, t.outbox[r], t.locks, t.batches, r) <= RowWeight(c, s.outbox[r], s.locks, s.batches, r)
    ensures OutboxWeight(c, t) <= OutboxWeight(c, s)
  {
    TotalMonotone(RowWeights(c, s.outbox, s.locks, s.batches), RowWeights(c, t.outbox, t.locks, t.batches));
  }

  /** As above, and one row gives up at least `k`. */
  lemma RowsShrinkBy(c: Config, s: State, t: State, r: RowId, k: nat)
    requires t.outbox.Keys == s.outbox.Keys && r in s.outbox
    requires forall x | x in s.outbox ::
               RowWeight(c, t.outbox[x], t.locks, t.batches, x) <= RowWeight(c, s.outbox[x], s.locks, s.batches, x)
    requires RowWeight(c, t.outbox[r], t.locks, t.batches, r) + k <= RowWeight(c, s.outbox[r], s.locks, s.batches, r)
    ensures OutboxWeight(c, t) + k <= OutboxWeight(c, s)
  {
    var before, after := RowWeights(c, s.outbox, s.locks, s.batches), RowWeights(c, t.outbox, t.locks, t.batches);
    TotalRemove(before, r);
    TotalRemove(after, r);
    TotalMonotone(before - {r}, after - {r});
  }

  // ---- Every step of progress lowers the measure

  lemma HandlersLower(c: Config, s: State, t: State)
    requires t.requests == s.requests && t.outbox == s.outbox && t.locks == s.locks && t.batches == s.batches
    requires Total(HandlerWeights(c, t.handlers)) + QueueWeight(c, t.broker)
             < Total(HandlerWeights(c, s.handlers)) + QueueWeight(c, s.broker)
    ensures Measure(c, t) < Measure(c, s)
  {
  }

  lemma PhaseLowers(c: Config, s: State, h: nat, x: Handler, t: State)
    requires h in s.handlers && HandlerWeight(c, x) < HandlerWeight(c, s.handlers[h])
    requires t.requests == s.requests && t.outbox == s.outbox && t.locks == s.locks && t.batches == s.batches
    requires t.handlers == s.handlers[h := x] && t.broker == s.broker
    ensures Measure(c, t) < Measure(c, s)
  {
    HandlerSet(c, s.handlers, h, x);
    HandlersLower(c, s, t);
  }

  lemma DeliverLowers(c: Config, s: State, h: nat, i: nat)
    requires h !in s.handlers && i < |s.broker.incoming|
    ensures Measure(c, SetHandler(TakeMessage(s, i), h, Handler(s.broker.incoming[i], Got, true))) < Measure(c, s)
  {
    HandlerAdd(c, s.handlers, h, Handler(s.broker.incoming[i], Got, true));
    IncomingTake(c, s.broker.incoming, i);
    HandlersLower(c, s, SetHandler(TakeMessage(s, i), h, Handler(s.broker.incoming[i], Got, true)));
  }

  lemma RetryWeighsLess(c: Config, m: Message, reason: string)
    requires 0 <= Count(m) < c.maxRetries
    ensures MessageWeight(c, RetryMessage(c, m, reason)) == MessageWeight(c, m) - 10
  {
  }

  lemma RepublishQueue(c: Config, b: Broker, m: Message, reason: string, now: real)
    requires WellFormed(b) && Count(m) >= 0
    ensures QueueWeight(c, Publish(b, RetryAddress(c, m), RetryMessage(c, m, reason), now)) + 9
         <= QueueWeight(c, b) + MessageWeight(c, m)
  {
    QueuePublish(c, b, RetryAddress(c, m), RetryMessage(c, m, reason), now);
    if Count(m) < c.maxRetries {
      RetryWeighsLess(c, m, reason);
    }
  }

  lemma RepublishLowers(c: Config, s: State, h: nat)
    requires WellFormed(s.broker) && HandlerEnabled(c, s, h, Republish)
    requires Count(s.handlers[h].msg) >= 0
    ensures Measure(c, HandlerNext(c, s, h, Republish)) < Measure(c, s)
  {
    var x := s.handlers[h];
    HandlerSet(c, s.handlers, h, x.(phase := Republished));
    RepublishQueue(c, s.broker, x.msg, x.phase.reason, s.now);
    HandlersLower(c, s, HandlerNext(c, s, h, Republish));
  }

  lemma EndLowers(c: Config, s: State, h: nat)
    requires h in s.handlers
    ensures Measure(c, EndHandler(s, h)) < Measure(c, s)
  {
    HandlerEnd(c, s.handlers, h);
    HandlersLower(c, s, EndHandler(s, h));
  }

  /** A dropped delivery goes to the dead-letter queue, where it weighs nothing. */
  lemma DropQueue(c: Config, s: State, m: Message)
    requires WellFormed(s.broker)
    ensures var t := DropMessage(s, PaymentsNew, m);
            && QueueWeight(c, t.broker) == QueueWeight(c, s.broker)
            && t == s.(broker := t.broker)
  {
    QueuePublish(c, s.broker, DeadLetterAddress(PaymentsNew).value, m.(headers := DeadLettered(m.headers)), s.now);
  }

  lemma DropLowers(c: Config, s: State, h: nat)
    requires h in s.handlers && WellFormed(s.broker)
    ensures Measure(c, Drop(s, h)) < Measure(c, s)
  {
    EndLowers(c, s, h);
    if s.handlers[h].owned {
      DropQueue(c, EndHandler(s, h), s.handlers[h].msg);
    }
  }

  lemma ReadLowers(c: Config, s: State, h: nat)
    requires InPhase(s, h, Got)
    ensures Measure(c, Enter(s, h, ReadPhase(s, s.handlers[h].msg.pid))) < Measure(c, s)
  {
    var x := s.handlers[h].(phase := ReadPhase(s, s.handlers[h].msg.pid));
    assert HandlerWeight(c, x) < HandlerWeight(c, s.handlers[h]);
    PhaseLowers(c, s, h, x, SetHandler(s, h, x));
  }

  lemma ApplyLowers(c: Config, s: State, h: nat, succeeded: bool)
    requires InPhase(s, h, Window)
    ensures Measure(c, Enter(s, h, ApplyPhase(s, s.handlers[h].msg.pid, succeeded))) < Measure(c, s)
  {
    var x := s.handlers[h].(phase := ApplyPhase(s, s.handlers[h].msg.pid, succeeded));
    assert HandlerWeight(c, x) < HandlerWeight(c, s.handlers[h]);
    PhaseLowers(c, s, h, x, SetHandler(s, h, x));
  }

  lemma FailureLowers(c: Config, s: State, h: nat, reason: string)
    requires HandlerEnabled(c, s, h, PostFailed(reason)) && WellFormed(s.broker)
    ensures Measure(c, HandlerNext(c, s, h, PostFailed(reason))) < Measure(c, s)
  {
    var x := s.handlers[h];
    var y := Handler(WithFailure(x.msg, s.now), Unsent(reason), x.owned);
    assert MessageWeight(c, y.msg) == MessageWeight(c, x.msg);
    PhaseLowers(c, s, h, y, HandlerNext(c, s, h, PostFailed(reason)));
  }

  lemma HandleLowers(c: Config, s: State, h: nat, a: HandlerStep)
    requires Chained(c, s) && WellFormed(s.broker) && HandlerEnabled(c, s, h, a) && !a.Requeue?
    ensures Measure(c, HandlerNext(c, s, h, a)) < Measure(c, s)
  {
    match a
    case Deliver(i) => DeliverLowers(c, s, h, i);
    case ReadPayment => ReadLowers(c, s, h);
    case ApplyOutcome(succeeded) => ApplyLowers(c, s, h, succeeded);
    case CommitOutcome =>
      PhaseLowers(c, s, h, s.handlers[h].(phase := Ready(s.handlers[h].phase.outcome)), HandlerNext(c, s, h, a));
    case PostDelivered => PhaseLowers(c, s, h, s.handlers[h].(phase := Notified), HandlerNext(c, s, h, a));
    case PostFailed(reason) => FailureLowers(c, s, h, reason);
    case Republish =>
      HeldMessage(c, s, h);
      RepublishLowers(c, s, h);
    case Ack => EndLowers(c, s, h);
    case Reject => DropLowers(c, s, h);
    case Nack => DropLowers(c, s, h);
    case Die => EndLowers(c, s, h);
  }

  lemma ExpireLowers(c: Config, s: State, n: nat)
    requires Chained(c, s) && ExpireEnabled(s, n)
    ensures Measure(c, ExpireNext(s, n)) < Measure(c, s)
  {
    var q := s.broker.retry[n - 1];
    assert RetryOk(c, s.payments.Keys, q, n - 1 + 1);
    assert Waiting(c, s.payments.Keys, q[0], n);
    var m := q[0].msg.(headers := DeadLettered(q[0].msg.headers));
    assert MessageWeight(c, m) == MessageWeight(c, q[0].msg);
    RetrySet(c, s.broker.retry, n - 1, q[1..]);
    QueuePublish(c, TakeExpired(s, n).broker, DeadLetterAddress(PaymentsRetry(n)).value, m, s.now);
    HandlersLower(c, s, ExpireNext(s, n));
  }

  // ---- Requests

  lemma RequestsLower(c: Config, s: State, t: State)
    requires t.batches == s.batches && t.handlers == s.handlers && t.broker == s.broker
    requires Total(RequestWeights(c, t.requests)) + OutboxWeight(c, t)
             < Total(RequestWeights(c, s.requests)) + OutboxWeight(c, s)
    ensures Measure(c, t) < Measure(c, s)
  {
  }

  lemma SetPhaseLowers(c: Config, s: State, r: nat, phase: RequestPhase, t: State)
    requires r in s.requests && RequestWeight(c, phase) < RequestWeight(c, s.requests[r].phase)
    requires RequestFrame(s, t) && t.requests == s.requests[r := s.requests[r].(phase := phase)]
    ensures Measure(c, t) < Measure(c, s)
  {
    RequestSet(c, s.requests, r, s.requests[r].(phase := phase));
    RequestsLower(c, s, t);
  }

  lemma RespondLowers(c: Config, s: State, r: nat, response: Response)
    requires r in s.requests
    ensures Measure(c, Respond(s, r, response)) < Measure(c, s)
  {
    RequestEnd(c, s.requests, r);
    RequestsLower(c, s, Respond(s, r, response));
  }

  lemma InsertLowers(c: Config, s: State, r: nat, id: PaymentId, rival: Option<PaymentId>)
    requires r in s.requests && s.requests[r].phase == Unseen
    ensures Measure(c, InsertNext(s, r, id, rival)) < Measure(c, s)
  {
    RespondLowers(c, s, r, AmountNotPositive);
    RespondLowers(c, s, r, Conflict);
    SetPhaseLowers(c, s, r, Inserted(id), UseId(SetPhase(s, r, Inserted(id)), id));
  }

  lemma CommitLowers(c: Config, s: State, r: nat)
    requires Created(s) && Locked(s) && ApiEnabled(s, r, Commit)
    ensures Measure(c, ApiNext(s, r, Commit)) < Measure(c, s)
  {
    FreshIdsNotStored(s, r);
    var q := s.requests[r];
    if q.phase.rid in s.locks {
      LockedRowsExist(s, q.phase.rid);
      assert false;
    }
    RequestEnd(c, s.requests, r);
    RowsAdd(c, s.outbox, s.locks, s.batches, q.phase.rid, NewRow(q.phase.id, q.begunAt));
    RequestsLower(c, s, ApiNext(s, r, Commit));
  }

  lemma WithdrawLowers(c: Config, s: State, r: nat)
    requires r in s.requests
    ensures Measure(c, CloseRequest(s, r)) < Measure(c, s)
  {
    RequestEnd(c, s.requests, r);
    RequestsLower(c, s, CloseRequest(s, r));
  }

  lemma AnswerLowers(c: Config, s: State, r: nat, a: ApiStep)
    requires ApiEnabled(s, r, a) && !a.Begin? && !a.Commit?
    ensures Measure(c, ApiNext(s, r, a)) < Measure(c, s)
  {
    match a
    case Lookup(None) => SetPhaseLowers(c, s, r, Unseen, SetPhase(s, r, Unseen));
    case Lookup(Some(p)) =>
      RespondLowers(c, s, r, if Matches(s.payments[p], s.requests[r].terms) then Accepted(p) else Conflict);
    case Insert(id, rival) => InsertLowers(c, s, r, id, rival);
    case Enqueue(rid) =>
      SetPhaseLowers(c, s, r, Enqueued(s.requests[r].phase.id, rid), ApiNext(s, r, a));
    case Withdraw => WithdrawLowers(c, s, r);
  }

  lemma ApiLowers(c: Config, s: State, r: nat, a: ApiStep)
    requires Created(s) && Locked(s) && ApiEnabled(s, r, a) && !a.Begin?
    ensures Measure(c, ApiNext(s, r, a)) < Measure(c, s)
  {
    if a.Commit? {
      CommitLowers(c, s, r);
    } else {
      AnswerLowers(c, s, r, a);
    }
  }

  // ---- Dispatchers

  lemma BatchesLower(c: Config, s: State, t: State)
    requires t.requests == s.requests && t.handlers == s.handlers
    requires OutboxWeight(c, t) + |t.batches| + QueueWeight(c, t.broker)
             < OutboxWeight(c, s) + |s.batches| + QueueWeight(c, s.broker)
    ensures Measure(c, t) < Measure(c, s)
  {
  }

  lemma FetchedRowWeight(c: Config, s: State, d: nat, rows: seq<RowId>, limit: nat, r: RowId)
    requires Locked(s) && d !in s.batches && IsFetch(s.outbox, s.locks.Keys, s.now, limit, rows) && r in s.outbox
    ensures var t := OpenBatch(s, d, rows);
            RowWeight(c, t.outbox[r], t.locks, t.batches, r)
            == RowWeight(c, s.outbox[r], s.locks, s.batches, r) - if r in rows then 3 else 0
  {
    if r in rows {
      assert r in Candidates(s.outbox, s.locks.Keys, s.now);
    } else if r in s.locks {
      assert s.locks[r] in s.batches;
    }
  }

  lemma FetchLowers(c: Config, s: State, d: nat, rows: seq<RowId>, limit: nat)
    requires Locked(s) && d !in s.batches && rows != []
    requires IsFetch(s.outbox, s.locks.Keys, s.now, limit, rows)
    ensures Measure(c, OpenBatch(s, d, rows)) < Measure(c, s)
  {
    var t := OpenBatch(s, d, rows);
    forall x | x in s.outbox
      ensures RowWeight(c, t.outbox[x], t.locks, t.batches, x) <= RowWeight(c, s.outbox[x], s.locks, s.batches, x) {
      FetchedRowWeight(c, s, d, rows, limit, x);
    }
    assert rows[0] in Candidates(s.outbox, s.locks.Keys, s.now);
    FetchedRowWeight(c, s, d, rows, limit, rows[0]);
    RowsShrinkBy(c, s, t, rows[0], 3);
    BatchesLower(c, s, t);
  }

  /** The batch moves one row along; the others weigh what they did. */
  lemma RowMoves(c: Config, b: Batch, b': Batch, now: real)
    requires WellShaped(b, now) && b.pos < |b.rows| && !Stuck(b) && exists w :: b' == Advance(b, w)
    ensures forall x | x != b.rows[b.pos] :: BatchRowWeight(c, b', x) == BatchRowWeight(c, b, x)
  {
  }

  lemma PublishQueue(c: Config, b: Broker, row: Row, now: real)
    requires WellFormed(b) && row.routingKey == PaymentCreated
    ensures QueueWeight(c, Publish(b, ViaExchange(PaymentsExchange, row.routingKey), RowMessage(row), now))
         == QueueWeight(c, b) + MessageWeight(c, FIRST)
  {
    QueuePublish(c, b, ViaExchange(PaymentsExchange, row.routingKey), RowMessage(row), now);
    assert Count(RowMessage(row)) == Count(FIRST);
  }

  lemma PublishLowers(c: Config, s: State, d: nat)
    requires Created(s) && Locked(s) && WellFormed(s.broker)
    requires AtRow(s, d) && SendsKnown(s, d) && s.batches[d].stage == NextRow
    ensures Measure(c, PublishNext(s, d, true, Sent)) < Measure(c, s)
  {
    var b := s.batches[d];
    var r := b.rows[b.pos];
    StageWeights(c, b, s.now);
    assert r in b.rows;
    RowsSet(c, s, d, b.(stage := Sent), r);
    PublishQueue(c, s.broker, s.outbox[r], s.now);
    BatchCount(s, d, b.(stage := Sent));
    BatchesLower(c, s, PublishNext(s, d, true, Sent));
  }

  lemma StageWeights(c: Config, b: Batch, now: real)
    requires WellShaped(b, now) && b.pos < |b.rows| && b.stage == NextRow
    ensures forall x | x != b.rows[b.pos] :: BatchRowWeight(c, b.(stage := Sent), x) == BatchRowWeight(c, b, x)
    ensures BatchRowWeight(c, b, b.rows[b.pos]) == RowLoad(c) - 3
    ensures BatchRowWeight(c, b.(stage := Sent), b.rows[b.pos]) == 2
  {
    CurrentRowUnwritten(b, now);
  }

  lemma BatchCount(s: State, d: nat, b: Batch)
    requires d in s.batches
    ensures |s.batches[d := b]| == |s.batches|
  {
    assert s.batches[d := b].Keys == s.batches.Keys;
    assert |s.batches[d := b]| == |s.batches[d := b].Keys|;
    assert |s.batches| == |s.batches.Keys|;
  }

  lemma AdvanceLowers(c: Config, s: State, d: nat, w: Write)
    requires Locked(s) && AtRow(s, d) && !Stuck(s.batches[d])
    requires (s.batches[d].stage == Sent && w.Mark?) || (s.batches[d].stage.Raised? && w.Bump?)
    ensures Measure(c, SetBatch(s, d, Advance(s.batches[d], w))) < Measure(c, s)
  {
    var b := s.batches[d];
    var r := b.rows[b.pos];
    assert r in b.rows;
    CurrentRowUnwritten(b, s.now);
    RowMoves(c, b, Advance(b, w), s.now);
    RowsSet(c, s, d, Advance(b, w), r);
    BatchCount(s, d, Advance(b, w));
    BatchesLower(c, s, SetBatch(s, d, Advance(b, w)));
  }

  lemma WrittenWeight(c: Config, row: Row, b: Batch, r: RowId, locks: map<RowId, nat>, batches: map<nat, Batch>)
    requires r in b.writes && r !in locks && !Stuck(b)
    ensures RowWeight(c, Written(row, b.writes[r]), locks, batches, r) <= BatchRowWeight(c, b, r)
  {
    match b.writes[r]
    case Mark(_) =>
    case Bump(_, _, _, _) =>
  }

  /** Rows outside the closed batch stay with the batch that has them, if any. */
  lemma OtherRowWeight(c: Config, row: Row, locks: map<RowId, nat>, batches: map<nat, Batch>, d: nat, r: RowId)
    requires d in batches && (r in locks ==> locks[r] != d) && r !in batches[d].rows
    ensures RowWeight(c, row, Unlock(locks, batches[d].rows), batches - {d}, r) == RowWeight(c, row, locks, batches, r)
  {
  }

  ghost predicate Lighter(c: Config, s: State, t: State, r: RowId)
    requires r in s.outbox && r in t.outbox
  {
    RowWeight(c, t.outbox[r], t.locks, t.batches, r) <= RowWeight(c, s.outbox[r], s.locks, s.batches, r)
  }

  lemma CommittedRowWeight(c: Config, s: State, d: nat, r: RowId)
    requires Locked(s) && d in s.batches && s.batches[d].pos == |s.batches[d].rows| && r in s.outbox
    ensures Lighter(c, s, CommitWrites(CloseBatch(s, d), s.batches[d].writes), r)
  {
    var b := s.batches[d];
    UnlockedRows(s, d, r);
    CommittedRowsWritten(s, d, r);
    if r in b.writes {
      WrittenWeight(c, s.outbox[r], b, r, Unlock(s.locks, b.rows), s.batches - {d});
    } else {
      OtherRowWeight(c, s.outbox[r], s.locks, s.batches, d, r);
    }
  }

  lemma CommitBatchLowers(c: Config, s: State, d: nat)
    requires Locked(s) && d in s.batches && s.batches[d].pos == |s.batches[d].rows|
    ensures Measure(c, CommitWrites(CloseBatch(s, d), s.batches[d].writes)) < Measure(c, s)
  {
    var t := CommitWrites(CloseBatch(s, d), s.batches[d].writes);
    forall x | x in s.outbox ensures Lighter(c, s, t, x) {
      CommittedRowWeight(c, s, d, x);
    }
    RowsShrink(c, s, t);
    BatchesLower(c, s, t);
  }

  lemma RolledBackRowWeight(c: Config, s: State, d: nat, r: RowId)
    requires Locked(s) && d in s.batches && Stuck(s.batches[d]) && r in s.outbox
    ensures Lighter(c, s, CountAbort(CloseBatch(s, d), s.batches[d]), r)
  {
    UnlockedRows(s, d, r);
    if r !in s.batches[d].rows {
      OtherRowWeight(c, s.outbox[r], s.locks, s.batches, d, r);
    }
  }

  lemma RollbackLowers(c: Config, s: State, d: nat)
    requires Locked(s) && d in s.batches && Stuck(s.batches[d])
    ensures Measure(c, CountAbort(CloseBatch(s, d), s.batches[d])) < Measure(c, s)
  {
    var t := CountAbort(CloseBatch(s, d), s.batches[d]);
    forall x | x in s.outbox ensures Lighter(c, s, t, x) {
      RolledBackRowWeight(c, s, d, x);
    }
    RowsShrink(c, s, t);
    BatchesLower(c, s, t);
  }

  lemma DispatchLowers(c: Config, s: State, d: nat, a: DispatchStep)
    requires Created(s) && Locked(s) && WellFormed(s.broker)
    requires DispatchEnabled(c, s, d, a) && SendsKnown(s, d) && Progress(s, Dispatch(d, a))
    ensures Measure(c, DispatchNext(c, s, d, a)) < Measure(c, s)
  {
    match a
    case Fetch(rows) => FetchLowers(c, s, d, rows, c.batchSize);
    case PublishRow(_, _, _) => PublishLowers(c, s, d);
    case MarkRow => AdvanceLowers(c, s, d, Mark(s.now));
    case BumpRow => AdvanceLowers(c, s, d, BumpWrite(c, s, s.batches[d]));
    case CommitBatch => CommitBatchLowers(c, s, d);
    case AbortBatch => RollbackLowers(c, s, d);
    case MarkRaises(_) =>
  }

  /** A system left alone cannot go on for ever: the measure drops on every step. */
  lemma ProgressLowers(c: Config, s: State, step: Step)
    requires Created(s) && Locked(s) && Chained(c, s) && Enabled(c, s, step) && Progress(s, step)
    ensures Measure(c, Next(c, s, step)) < Measure(c, s)
  {
    match step
    case Api(r, a) => ApiLowers(c, s, r, a);
    case Dispatch(d, a) => DispatchLowers(c, s, d, a);
    case Handle(h, a) => HandleLowers(c, s, h, a);
    case Expire(n) => ExpireLowers(c, s, n);
    case Tick(_) =>
  }
}
