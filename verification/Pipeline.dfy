/** The whole pipeline as a step system. API requests, outbox dispatchers,
    the broker and consumer handlers interleave in any order; any of them may
    stop between two steps. A step is a value, so a run is a sequence of steps
    and the state it reaches is computed by `Exec`. */
module Pipeline {
  import opened Basics
  import opened Entities
  import opened RetryHeaders
  import opened Topology
  import opened OutboxQuery
  import Backoff

  /** `returnRaises` says whether a publish that the broker returns as
      unroutable raises in the publisher. */
  datatype Config = Config(maxRetries: int, batchSize: nat, initial: real, cap: real, returnRaises: bool)

  // ---- Messages and queues

  /** History of a message and the messages it was republished from: the times
      of its failed webhook sends, and whether no delivery of it was lost. */
  datatype Trail = Trail(failures: seq<real>, clean: bool)

  datatype Message = Message(pid: PaymentId, headers: Headers, trail: Trail)

  /** A message waiting in a retry queue, and when it expires. */
  datatype Delayed = Delayed(msg: Message, due: real)

  /** Queue contents. `retry[n - 1]` is the retry queue numbered `n`, first in first out. */
  datatype Broker = Broker(incoming: seq<Message>, retry: seq<seq<Delayed>>, dead: seq<Message>)

  function TtlSeconds(n: int): real
    requires 1 <= n <= |RETRY_TTL_MS|
  {
    RETRY_TTL_MS[n - 1] as real / 1000.0
  }

  /** The delays, and that they are the declared TTLs. */
  lemma RetryDelays(n: int)
    requires 1 <= n <= |RETRY_TTL_MS|
    ensures TtlSeconds(n) == if n == 1 then 2.0 else if n == 2 then 8.0 else 32.0
    ensures MakeRetryQueue(RETRY_TTL_MS[n - 1]).ttlMs.Some?
    ensures TtlSeconds(n) * 1000.0 == MakeRetryQueue(RETRY_TTL_MS[n - 1]).ttlMs.value as real
  {
  }

  ghost predicate WellFormed(b: Broker) {
    |b.retry| == |RETRY_TTL_MS|
  }

  /** A publish: the message joins the queue the address leads to, or vanishes. */
  ghost function Publish(b: Broker, a: Address, m: Message, now: real): (b': Broker)
    requires WellFormed(b)
    ensures WellFormed(b')
  {
    match Route(a)
    case None => b
    case Some(PaymentsNew) => b.(incoming := b.incoming + [m])
    case Some(PaymentsDlq) => b.(dead := b.dead + [m])
    case Some(PaymentsRetry(n)) =>
      b.(retry := b.retry[n - 1 := b.retry[n - 1] + [Delayed(m, now + TtlSeconds(n))]])
  }

  function RemoveAt<T>(s: seq<T>, i: nat): seq<T>
    requires i < |s|
  {
    s[..i] + s[i + 1..]
  }

  // ---- Participants

  datatype RequestPhase = Arrived | Unseen | Inserted(id: PaymentId) | Enqueued(id: PaymentId, rid: RowId)

  datatype Request = Request(key: string, terms: Terms, note: string, begunAt: real, phase: RequestPhase)

  datatype Response = Accepted(id: PaymentId) | Conflict | AmountNotPositive

  datatype Reply = Reply(key: string, terms: Terms, response: Response)

  /** Where a dispatcher stands with its current row. */
  datatype Stage = NextRow | Sent | Raised(accepted: bool, error: string)

  /** An update written inside the open transaction of a batch. */
  datatype Write = Mark(at: real) | Bump(at: real, next: real, error: string, accepted: bool)

  datatype Batch = Batch(
    rows: seq<RowId>,
    snapshot: map<RowId, nat>,
    fetchedAt: real,
    pos: nat,
    stage: Stage,
    writes: map<RowId, Write>)

  function Written(row: Row, w: Write): Row {
    match w
    case Mark(at) => MarkedRow(row, at)
    case Bump(_, next, error, _) => BumpedRow(row, next, error)
  }

  /** `Window` and `Applied` lie between the read of a PENDING payment and the
      commit of its outcome; `Applied` holds the row lock. */
  datatype Phase =
    | Got
    | Missing
    | Window
    | Applied(outcome: Outcome)
    | Ready(outcome: Outcome)
    | Unsent(reason: string)
    | Notified
    | Republished

  /** A running handler. It owns its delivery until the broker takes it back. */
  datatype Handler = Handler(msg: Message, phase: Phase, owned: bool)

  datatype Post = Post(pid: PaymentId, outcome: Outcome)

  /** History that no participant reads. */
  datatype Log = Log(
    rowFor: map<PaymentId, RowId>,
    replies: seq<Reply>,
    sends: map<RowId, nat>,
    rolledBack: map<RowId, nat>,
    doubtful: map<RowId, nat>,
    failures: map<RowId, seq<real>>,
    outcomes: map<PaymentId, seq<Outcome>>,
    posts: seq<Post>,
    notified: set<PaymentId>)

  datatype State = State(
    now: real,
    ids: set<nat>,
    payments: map<PaymentId, Payment>,
    outbox: map<RowId, Row>,
    locks: map<RowId, nat>,
    requests: map<nat, Request>,
    batches: map<nat, Batch>,
    broker: Broker,
    handlers: map<nat, Handler>,
    log: Log)

  ghost function Init(): State {
    State(0.0, {}, map[], map[], map[], map[], map[], Broker([], [[], [], []], []), map[],
          Log(map[], [], map[], map[], map[], map[], map[], [], {}))
  }

  // ---- API requests

  datatype ApiStep =
    | Begin(key: string, terms: Terms, note: string)
    | Lookup(found: Option<PaymentId>)
    | Insert(id: PaymentId, rival: Option<PaymentId>)
    | Enqueue(rid: RowId)
    | Commit
    | Withdraw

  /** The answer of a query by idempotency key over committed payments. */
  ghost predicate FoundByKey(s: State, key: string, found: Option<PaymentId>) {
    match found
    case None => forall p | p in s.payments :: s.payments[p].key != key
    case Some(p) => p in s.payments && s.payments[p].key == key
  }

  /** An open transaction holds an uncommitted payment with this key. */
  ghost predicate HoldsKey(q: Request, key: string) {
    (q.phase.Inserted? || q.phase.Enqueued?) && q.key == key
  }

  ghost predicate ApiEnabled(s: State, r: nat, a: ApiStep) {
    match a
    case Begin(_, _, _) => r !in s.requests
    case Lookup(found) =>
      r in s.requests && s.requests[r].phase == Arrived && FoundByKey(s, s.requests[r].key, found)
    case Insert(id, rival) =>
      && r in s.requests && s.requests[r].phase == Unseen
      && (s.requests[r].terms.amount > 0 ==>
            && FoundByKey(s, s.requests[r].key, rival)
            && (rival.None? ==> id !in s.ids)
            // a rival that has not ended yet blocks the insert
            && forall k | k in s.requests && k != r :: !HoldsKey(s.requests[k], s.requests[r].key))
    case Enqueue(rid) => r in s.requests && s.requests[r].phase.Inserted? && rid !in s.ids
    case Commit => r in s.requests && s.requests[r].phase.Enqueued?
    case Withdraw => r in s.requests
  }

  /** The stored payment and the request agree on everything the match compares. */
  predicate Matches(p: Payment, terms: Terms) {
    p.terms == terms
  }

  ghost function SetRequest(s: State, r: nat, q: Request): State {
    s.(requests := s.requests[r := q])
  }

  ghost function SetPhase(s: State, r: nat, phase: RequestPhase): State
    requires r in s.requests
  {
    SetRequest(s, r, s.requests[r].(phase := phase))
  }

  ghost function CloseRequest(s: State, r: nat): State {
    s.(requests := s.requests - {r})
  }

  ghost function AddReply(s: State, reply: Reply): State {
    s.(log := s.log.(replies := s.log.replies + [reply]))
  }

  /** The request ends with an answer. */
  ghost function Respond(s: State, r: nat, response: Response): State
    requires r in s.requests
  {
    AddReply(CloseRequest(s, r), Reply(s.requests[r].key, s.requests[r].terms, response))
  }

  ghost function UseId(s: State, id: nat): State {
    s.(ids := s.ids + {id})
  }

  ghost function Opened(log: Log, id: PaymentId, rid: RowId): Log {
    log.(rowFor := log.rowFor[id := rid],
         outcomes := log.outcomes[id := []],
         sends := log.sends[rid := 0],
         rolledBack := log.rolledBack[rid := 0],
         doubtful := log.doubtful[rid := 0],
         failures := log.failures[rid := []])
  }

  /** The commit of a creating transaction: both rows appear at once. */
  ghost function Store(s: State, q: Request): State
    requires q.phase.Enqueued?
  {
    s.(payments := s.payments[q.phase.id := NewPayment(q.key, q.terms, q.note)],
       outbox := s.outbox[q.phase.rid := NewRow(q.phase.id, q.begunAt)],
       log := Opened(s.log, q.phase.id, q.phase.rid))
  }

  ghost function InsertNext(s: State, r: nat, id: PaymentId, rival: Option<PaymentId>): State
    requires r in s.requests
  {
    if s.requests[r].terms.amount <= 0 then Respond(s, r, AmountNotPositive)
    else if rival.Some? then Respond(s, r, Conflict)
    else UseId(SetPhase(s, r, Inserted(id)), id)
  }

  ghost function ApiNext(s: State, r: nat, a: ApiStep): State
    requires ApiEnabled(s, r, a)
  {
    match a
    case Begin(key, terms, note) => SetRequest(s, r, Request(key, terms, note, s.now, Arrived))
    case Lookup(None) => SetPhase(s, r, Unseen)
    case Lookup(Some(p)) =>
      Respond(s, r, if Matches(s.payments[p], s.requests[r].terms) then Accepted(p) else Conflict)
    case Insert(id, rival) => InsertNext(s, r, id, rival)
    case Enqueue(rid) => UseId(SetPhase(s, r, Enqueued(s.requests[r].phase.id, rid)), rid)
    case Commit => Respond(Store(s, s.requests[r]), r, Accepted(s.requests[r].phase.id))
    case Withdraw => CloseRequest(s, r)
  }

  // ---- Outbox dispatchers

  datatype DispatchStep =
    | Fetch(rows: seq<RowId>)
    | PublishRow(accepted: bool, raised: bool, error: string)
    | MarkRow
    | MarkRaises(error: string)
    | BumpRow
    | CommitBatch
    | AbortBatch

  ghost predicate AtRow(s: State, d: nat) {
    d in s.batches && s.batches[d].pos < |s.batches[d].rows|
  }

  ghost predicate DispatchEnabled(c: Config, s: State, d: nat, a: DispatchStep) {
    match a
    case Fetch(rows) => d !in s.batches && IsFetch(s.outbox, s.locks.Keys, s.now, c.batchSize, rows)
    case PublishRow(accepted, raised, _) => AtRow(s, d) && s.batches[d].stage == NextRow && (accepted || raised)
    case MarkRow => AtRow(s, d) && s.batches[d].stage == Sent
    case MarkRaises(_) => AtRow(s, d) && s.batches[d].stage == Sent
    case BumpRow =>
      && AtRow(s, d) && s.batches[d].stage.Raised?
      && s.batches[d].rows[s.batches[d].pos] in s.batches[d].snapshot
      && s.batches[d].snapshot[s.batches[d].rows[s.batches[d].pos]] < Backoff.OVERFLOW_ATTEMPTS
    case CommitBatch => d in s.batches && s.batches[d].pos == |s.batches[d].rows|
    case AbortBatch => d in s.batches
  }

  /** How often the broker has accepted row `r` from the open batch `b`. */
  ghost function AcceptedIn(b: Batch, r: RowId): nat {
    if r in b.writes then
      (match b.writes[r] case Mark(_) => 1 case Bump(_, _, _, accepted) => if accepted then 1 else 0)
    else if b.pos < |b.rows| && b.rows[b.pos] == r then
      (match b.stage case NextRow => 0 case Sent => 1 case Raised(accepted, _) => if accepted then 1 else 0)
    else 0
  }

  ghost function Lock(locks: map<RowId, nat>, rows: seq<RowId>, d: nat): map<RowId, nat> {
    map r | r in locks.Keys + Elements(rows) :: if r in rows then d else locks[r]
  }

  ghost function Unlock(locks: map<RowId, nat>, rows: seq<RowId>): map<RowId, nat> {
    map r | r in locks && r !in rows :: locks[r]
  }

  /** The table after a batch commits its writes. */
  ghost function Apply(table: map<RowId, Row>, writes: map<RowId, Write>): map<RowId, Row> {
    map r | r in table :: if r in writes then Written(table[r], writes[r]) else table[r]
  }

  ghost function CountRolledBack(counts: map<RowId, nat>, b: Batch): map<RowId, nat> {
    map r | r in counts :: if r in b.rows then counts[r] + AcceptedIn(b, r) else counts[r]
  }

  ghost function CountDoubtful(counts: map<RowId, nat>, writes: map<RowId, Write>): map<RowId, nat> {
    map r | r in counts :: if r in writes && writes[r].Bump? && writes[r].accepted then counts[r] + 1 else counts[r]
  }

  ghost function CountFailures(times: map<RowId, seq<real>>, writes: map<RowId, Write>): map<RowId, seq<real>> {
    map r | r in times :: if r in writes && writes[r].Bump? then times[r] + [writes[r].at] else times[r]
  }

  ghost function Advance(b: Batch, w: Write): Batch
    requires b.pos < |b.rows|
  {
    b.(writes := b.writes[b.rows[b.pos] := w], pos := b.pos + 1, stage := NextRow)
  }

  ghost predicate SendsKnown(s: State, d: nat) {
    AtRow(s, d) ==> s.batches[d].rows[s.batches[d].pos] in s.outbox
                    && s.batches[d].rows[s.batches[d].pos] in s.log.sends
  }

  ghost function SetBatch(s: State, d: nat, b: Batch): State {
    s.(batches := s.batches[d := b])
  }

  ghost function OpenBatch(s: State, d: nat, rows: seq<RowId>): State {
    var snapshot := map r | r in Elements(rows) && r in s.outbox :: s.outbox[r].attempts;
    SetBatch(s.(locks := Lock(s.locks, rows, d)), d, Batch(rows, snapshot, s.now, 0, NextRow, map[]))
  }

  ghost function PublishMessage(s: State, a: Address, m: Message): State
    requires WellFormed(s.broker)
  {
    s.(broker := Publish(s.broker, a, m, s.now))
  }

  ghost function CountSend(s: State, r: RowId): State
    requires r in s.log.sends
  {
    s.(log := s.log.(sends := s.log.sends[r := s.log.sends[r] + 1]))
  }

  /** What a dispatcher publishes for a row. */
  function RowMessage(row: Row): Message {
    Message(row.payload, NO_HEADERS, Trail([], true))
  }

  ghost function PublishNext(s: State, d: nat, accepted: bool, stage: Stage): State
    requires AtRow(s, d) && SendsKnown(s, d) && WellFormed(s.broker)
  {
    var b := s.batches[d];
    var row := s.outbox[b.rows[b.pos]];
    var s1 := SetBatch(s, d, b.(stage := stage));
    if accepted
    then CountSend(PublishMessage(s1, ViaExchange(PaymentsExchange, row.routingKey), RowMessage(row)), b.rows[b.pos])
    else s1
  }

  /** The batch ends: its locks and its uncommitted writes are gone. */
  ghost function CloseBatch(s: State, d: nat): State
    requires d in s.batches
  {
    s.(locks := Unlock(s.locks, s.batches[d].rows), batches := s.batches - {d})
  }

  ghost function CommitWrites(s: State, writes: map<RowId, Write>): State {
    s.(outbox := Apply(s.outbox, writes),
       log := s.log.(doubtful := CountDoubtful(s.log.doubtful, writes),
                     failures := CountFailures(s.log.failures, writes)))
  }

  ghost function CountAbort(s: State, b: Batch): State {
    s.(log := s.log.(rolledBack := CountRolledBack(s.log.rolledBack, b)))
  }

  ghost function BumpWrite(c: Config, s: State, b: Batch): Write
    requires b.pos < |b.rows| && b.rows[b.pos] in b.snapshot && b.stage.Raised?
  {
    Bump(s.now, s.now + Backoff.Delay(c.initial, c.cap, b.snapshot[b.rows[b.pos]]), b.stage.error, b.stage.accepted)
  }

  ghost function DispatchNext(c: Config, s: State, d: nat, a: DispatchStep): State
    requires DispatchEnabled(c, s, d, a) && SendsKnown(s, d) && WellFormed(s.broker)
  {
    match a
    case Fetch(rows) => OpenBatch(s, d, rows)
    case PublishRow(accepted, raised, error) =>
      PublishNext(s, d, accepted, if raised then Raised(accepted, error) else Sent)
    case MarkRow => SetBatch(s, d, Advance(s.batches[d], Mark(s.now)))
    case MarkRaises(error) => SetBatch(s, d, s.batches[d].(stage := Raised(true, error)))
    case BumpRow => SetBatch(s, d, Advance(s.batches[d], BumpWrite(c, s, s.batches[d])))
    case CommitBatch => CommitWrites(CloseBatch(s, d), s.batches[d].writes)
    case AbortBatch => CountAbort(CloseBatch(s, d), s.batches[d])
  }

  // ---- Consumer handlers

  datatype HandlerStep =
    | Deliver(i: nat)
    | ReadPayment
    | ApplyOutcome(succeeded: bool)
    | CommitOutcome
    | PostDelivered
    | PostFailed(reason: string)
    | Republish
    | Ack
    | Reject
    | Nack
    | Requeue
    | Die

  /** Another handler's uncommitted update of the same payment row. */
  ghost predicate RowLocked(s: State, h: nat, p: PaymentId) {
    exists k :: k in s.handlers && k != h && s.handlers[k].phase.Applied? && s.handlers[k].msg.pid == p
  }

  ghost predicate InPhase(s: State, h: nat, phase: Phase) {
    h in s.handlers && s.handlers[h].phase == phase
  }

  /** What `_retry_or_dlq` publishes for message `m`, and where to. */
  function RetryAddress(c: Config, m: Message): Address {
    var next := GetRetryCount(Some(m.headers)) + 1;
    if next > c.maxRetries then ViaExchange(DeadLetterExchange, PaymentFailed) else ToQueue(PaymentsRetry(next))
  }

  function RetryMessage(c: Config, m: Message, reason: string): Message {
    var current := GetRetryCount(Some(m.headers));
    m.(headers := if current + 1 > c.maxRetries then BuildDlqHeaders(current, reason)
                  else BuildRetryHeaders(current + 1, reason))
  }

  ghost predicate HandlerEnabled(c: Config, s: State, h: nat, a: HandlerStep) {
    match a
    case Deliver(i) => h !in s.handlers && i < |s.broker.incoming|
    case ReadPayment => InPhase(s, h, Got)
    case ApplyOutcome(_) => InPhase(s, h, Window) && !RowLocked(s, h, s.handlers[h].msg.pid)
    case CommitOutcome =>
      h in s.handlers && s.handlers[h].phase.Applied?
      && s.handlers[h].msg.pid in s.payments && s.handlers[h].msg.pid in s.log.outcomes
    case PostDelivered => h in s.handlers && s.handlers[h].phase.Ready?
    case PostFailed(_) => h in s.handlers && s.handlers[h].phase.Ready?
    case Republish =>
      h in s.handlers && s.handlers[h].phase.Unsent?
      && (Route(RetryAddress(c, s.handlers[h].msg)).Some? || !c.returnRaises)
    case Ack => InPhase(s, h, Notified) || InPhase(s, h, Republished)
    case Reject => InPhase(s, h, Missing)
    case Nack => h in s.handlers && s.handlers[h].phase != Missing
    case Requeue => h in s.handlers && s.handlers[h].owned
    case Die => h in s.handlers && !s.handlers[h].owned
  }

  ghost function SetHandler(s: State, h: nat, handler: Handler): State {
    s.(handlers := s.handlers[h := handler])
  }

  ghost function Enter(s: State, h: nat, phase: Phase): State
    requires h in s.handlers
  {
    SetHandler(s, h, s.handlers[h].(phase := phase))
  }

  ghost function EndHandler(s: State, h: nat): State {
    s.(handlers := s.handlers - {h})
  }

  ghost function TakeMessage(s: State, i: nat): State
    requires i < |s.broker.incoming|
  {
    s.(broker := s.broker.(incoming := RemoveAt(s.broker.incoming, i)))
  }

  /** The commit of an outcome: no guard on the status the row has. */
  ghost function StoreOutcome(s: State, p: PaymentId, o: Outcome): State
    requires p in s.payments && p in s.log.outcomes
  {
    s.(payments := s.payments[p := s.payments[p].(outcome := o)],
       log := s.log.(outcomes := s.log.outcomes[p := s.log.outcomes[p] + [o]]))
  }

  ghost function LogPost(s: State, post: Post): State {
    s.(log := s.log.(posts := s.log.posts + [post]))
  }

  ghost function LogNotified(s: State, p: PaymentId): State {
    s.(log := s.log.(notified := s.log.notified + {p}))
  }

  function WithFailure(m: Message, at: real): Message {
    m.(trail := m.trail.(failures := m.trail.failures + [at]))
  }

  function Redelivered(m: Message): Message {
    m.(trail := m.trail.(clean := false))
  }

  /** The handler ends by dropping its delivery without requeueing it. */
  ghost function Drop(s: State, h: nat): State
    requires h in s.handlers && WellFormed(s.broker)
  {
    if s.handlers[h].owned then DropMessage(EndHandler(s, h), PaymentsNew, s.handlers[h].msg)
    else EndHandler(s, h)
  }

  /** The broker drops `m` from queue `q`: it follows the queue's dead-letter edge. */
  ghost function DropMessage(s: State, q: QueueName, m: Message): State
    requires WellFormed(s.broker) && DeadLetterAddress(q).Some?
  {
    PublishMessage(s, DeadLetterAddress(q).value, m.(headers := DeadLettered(m.headers)))
  }

  ghost function ReadPhase(s: State, p: PaymentId): Phase {
    if p !in s.payments then Missing
    else if s.payments[p].outcome.status == Pending then Window
    else Ready(s.payments[p].outcome)
  }

  ghost function ApplyPhase(s: State, p: PaymentId, succeeded: bool): Phase {
    if p !in s.payments then Missing
    else Applied(Outcome(if succeeded then Succeeded else Failed, Some(s.now)))
  }

  ghost function HandlerNext(c: Config, s: State, h: nat, a: HandlerStep): State
    requires HandlerEnabled(c, s, h, a) && WellFormed(s.broker)
  {
    match a
    case Deliver(i) => SetHandler(TakeMessage(s, i), h, Handler(s.broker.incoming[i], Got, true))
    case ReadPayment => Enter(s, h, ReadPhase(s, s.handlers[h].msg.pid))
    case ApplyOutcome(succeeded) => Enter(s, h, ApplyPhase(s, s.handlers[h].msg.pid, succeeded))
    case CommitOutcome =>
      var o := s.handlers[h].phase.outcome;
      StoreOutcome(Enter(s, h, Ready(o)), s.handlers[h].msg.pid, o)
    case PostDelivered =>
      var x := s.handlers[h];
      LogNotified(LogPost(Enter(s, h, Notified), Post(x.msg.pid, x.phase.outcome)), x.msg.pid)
    case PostFailed(reason) =>
      var x := s.handlers[h];
      LogPost(SetHandler(s, h, Handler(WithFailure(x.msg, s.now), Unsent(reason), x.owned)),
              Post(x.msg.pid, x.phase.outcome))
    case Republish =>
      var x := s.handlers[h];
      PublishMessage(Enter(s, h, Republished), RetryAddress(c, x.msg), RetryMessage(c, x.msg, x.phase.reason))
    case Ack => EndHandler(s, h)
    case Reject => Drop(s, h)
    case Nack => Drop(s, h)
    case Requeue =>
      var x := s.handlers[h];
      PutBack(SetHandler(s, h, x.(owned := false)), Redelivered(x.msg))
    case Die => EndHandler(s, h)
  }

  ghost function PutBack(s: State, m: Message): State {
    s.(broker := s.broker.(incoming := s.broker.incoming + [m]))
  }

  // ---- All steps

  /** `Expire(n)` drops the head of retry queue `n`; `Tick(t)` moves the clock. */
  datatype Step =
    | Api(r: nat, api: ApiStep)
    | Dispatch(d: nat, dispatch: DispatchStep)
    | Handle(h: nat, handle: HandlerStep)
    | Expire(n: nat)
    | Tick(t: real)

  ghost predicate ExpireEnabled(s: State, n: nat) {
    1 <= n <= |s.broker.retry| && s.broker.retry[n - 1] != [] && s.broker.retry[n - 1][0].due <= s.now
  }

  ghost function TakeExpired(s: State, n: nat): State
    requires ExpireEnabled(s, n)
  {
    s.(broker := s.broker.(retry := s.broker.retry[n - 1 := s.broker.retry[n - 1][1..]]))
  }

  ghost function ExpireNext(s: State, n: nat): State
    requires ExpireEnabled(s, n) && WellFormed(s.broker)
  {
    DropMessage(TakeExpired(s, n), PaymentsRetry(n), s.broker.retry[n - 1][0].msg)
  }

  ghost function Wait(s: State, t: real): State {
    s.(now := t)
  }

  ghost predicate Enabled(c: Config, s: State, step: Step) {
    && WellFormed(s.broker)
    && match step
       case Api(r, a) => ApiEnabled(s, r, a)
       case Dispatch(d, a) => DispatchEnabled(c, s, d, a) && SendsKnown(s, d)
       case Handle(h, a) => HandlerEnabled(c, s, h, a)
       case Expire(n) => ExpireEnabled(s, n)
       case Tick(t) => s.now <= t
  }

  ghost function Next(c: Config, s: State, step: Step): State
    requires Enabled(c, s, step)
  {
    match step
    case Api(r, a) => ApiNext(s, r, a)
    case Dispatch(d, a) => DispatchNext(c, s, d, a)
    case Handle(h, a) => HandlerNext(c, s, h, a)
    case Expire(n) => ExpireNext(s, n)
    case Tick(t) => Wait(s, t)
  }

  /** Every step of `steps` can be taken, one after the other, from `s`. */
  ghost predicate Run(c: Config, s: State, steps: seq<Step>)
    decreases |steps|, 0
  {
    steps == [] ||
    var init := steps[..|steps| - 1];
    Run(c, s, init) && Enabled(c, Exec(c, s, init), steps[|steps| - 1])
  }

  ghost function Exec(c: Config, s: State, steps: seq<Step>): State
    requires Run(c, s, steps)
    decreases |steps|, 1
  {
    if steps == [] then s
    else Next(c, Exec(c, s, steps[..|steps| - 1]), steps[|steps| - 1])
  }

  lemma RunSnoc(c: Config, s: State, steps: seq<Step>, step: Step)
    requires Run(c, s, steps) && Enabled(c, Exec(c, s, steps), step)
    ensures Run(c, s, steps + [step])
    ensures Exec(c, s, steps + [step]) == Next(c, Exec(c, s, steps), step)
  {
    assert (steps + [step])[..|steps|] == steps;
  }

  lemma OneStep(c: Config, s: State, step: Step)
    requires Enabled(c, s, step)
    ensures Run(c, s, [step]) && Exec(c, s, [step]) == Next(c, s, step)
  {
    assert [step][..0] == [];
  }

  lemma {:induction false} RunConcat(c: Config, s: State, one: seq<Step>, two: seq<Step>)
    requires Run(c, s, one) && Run(c, Exec(c, s, one), two)
    ensures Run(c, s, one + two)
    ensures Exec(c, s, one + two) == Exec(c, Exec(c, s, one), two)
    decreases |two|
  {
    if two == [] {
      assert one + two == one;
    } else {
      var init := two[..|two| - 1];
      RunConcat(c, s, one, init);
      RunSnoc(c, s, one + init, two[|two| - 1]);
      assert one + two == one + init + [two[|two| - 1]];
    }
  }
}
