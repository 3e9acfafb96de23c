/** When handler windows on a payment cannot overlap: its event was sent at most
    once and the broker has taken no delivery of it back. Then there is never
    more than one copy that a handler could still work on. */
module SentOnce {
  import opened Entities
  import RetryHeaders
  import opened Topology
  import opened Pipeline
  import opened Creation
  import opened Dispatching
  import opened Outcomes
  import opened NoLoss
  import opened Guarantees

  /** A handler that has not passed its message on and has not notified. */
  predicate Acting(x: Handler) {
    !x.phase.Notified? && !x.phase.Republished?
  }

  /** A copy of the event that a handler works on or may come to work on. */
  ghost predicate CopyAt(s: State, p: PaymentId, place: Place) {
    match place
    case InNew(i) => i < |s.broker.incoming| && s.broker.incoming[i].pid == p
    case InRetry(n, i) => n < |s.broker.retry| && i < |s.broker.retry[n]| && s.broker.retry[n][i].msg.pid == p
    case WithHandler(h) => h in s.handlers && s.handlers[h].msg.pid == p && Acting(s.handlers[h])
    case _ => false
  }

  /** How often the broker has accepted the event from the outbox. */
  ghost function Sends(log: Log, p: PaymentId): nat {
    if p in log.rowFor && log.rowFor[p] in log.sends then log.sends[log.rowFor[p]] else 0
  }

  /** No two copies, and none before the first send. */
  ghost predicate Single(s: State, p: PaymentId) {
    && (forall a, b | CopyAt(s, p, a) && CopyAt(s, p, b) :: a == b)
    && (Sends(s.log, p) == 0 ==> forall a :: !CopyAt(s, p, a))
  }

  /** Every copy was a copy before, at another place perhaps, and no two at the same. */
  lemma Moved(s: State, t: State, p: PaymentId, back: Place -> Place)
    requires Single(s, p) && Sends(s.log, p) <= Sends(t.log, p)
    requires forall a | CopyAt(t, p, a) :: CopyAt(s, p, back(a))
    requires forall a, b | CopyAt(t, p, a) && CopyAt(t, p, b) && back(a) == back(b) :: a == b
    ensures Single(t, p)
  {
  }

  lemma Stayed(s: State, t: State, p: PaymentId)
    requires Single(s, p) && Sends(s.log, p) <= Sends(t.log, p)
    requires forall a | CopyAt(t, p, a) :: CopyAt(s, p, a)
    ensures Single(t, p)
  {
  }

  // ---- Handlers

  lemma DeliverMoves(s: State, h: nat, i: nat, p: PaymentId)
    requires Single(s, p) && h !in s.handlers && i < |s.broker.incoming|
    ensures Single(SetHandler(TakeMessage(s, i), h, Handler(s.broker.incoming[i], Got, true)), p)
  {
    var t := SetHandler(TakeMessage(s, i), h, Handler(s.broker.incoming[i], Got, true));
    var back := (place: Place) =>
      match place
      case InNew(j) => InNew(if j < i then j else j + 1)
      case WithHandler(k) => if k == h then InNew(i) else WithHandler(k)
      case _ => place;
    forall a | CopyAt(t, p, a) ensures CopyAt(s, p, back(a)) {
    }
    Moved(s, t, p, back);
  }

  lemma PhaseStays(s: State, h: nat, x: Handler, t: State, p: PaymentId)
    requires Single(s, p) && h in s.handlers && x.msg.pid == s.handlers[h].msg.pid
    requires Acting(x) ==> Acting(s.handlers[h])
    requires t.handlers == s.handlers[h := x] && t.broker == s.broker && Sends(t.log, p) == Sends(s.log, p)
    ensures Single(t, p)
  {
    Stayed(s, t, p);
  }

  /** A message for another payment, or one that goes to no queue a handler reads. */
  lemma PublishStays(s: State, a: Address, m: Message, p: PaymentId)
    requires Single(s, p) && WellFormed(s.broker)
    requires m.pid != p || Route(a).None? || Route(a).value == PaymentsDlq
    ensures Single(PublishMessage(s, a, m), p)
  {
    var t := PublishMessage(s, a, m);
    forall place | CopyAt(t, p, place) ensures CopyAt(s, p, place) {
      PublishedCopy(s, a, m, p, place);
    }
    Stayed(s, t, p);
  }

  lemma PublishedCopy(s: State, a: Address, m: Message, p: PaymentId, place: Place)
    requires WellFormed(s.broker) && CopyAt(PublishMessage(s, a, m), p, place)
    requires m.pid != p || Route(a).None? || Route(a).value == PaymentsDlq
    ensures CopyAt(s, p, place)
  {
    match Route(a)
    case None =>
    case Some(PaymentsNew) =>
    case Some(PaymentsDlq) =>
    case Some(PaymentsRetry(n)) =>
  }

  lemma EndStays(s: State, h: nat, p: PaymentId)
    requires Single(s, p)
    ensures Single(EndHandler(s, h), p)
  {
    Stayed(s, EndHandler(s, h), p);
  }

  lemma DropStays(s: State, h: nat, p: PaymentId)
    requires Single(s, p) && h in s.handlers && WellFormed(s.broker)
    ensures Single(Drop(s, h), p)
  {
    EndStays(s, h, p);
    if s.handlers[h].owned {
      var m := s.handlers[h].msg;
      PublishStays(EndHandler(s, h), DeadLetterAddress(PaymentsNew).value, m.(headers := RetryHeaders.DeadLettered(m.headers)), p);
    }
  }

  ghost predicate NoCopy(s: State, p: PaymentId) {
    forall place :: !CopyAt(s, p, place)
  }

  /** Where a publish puts its message. */
  ghost function PublishedAt(s: State, a: Address): Place
    requires WellFormed(s.broker)
  {
    match Route(a)
    case Some(PaymentsRetry(n)) => InRetry(n - 1, |s.broker.retry[n - 1]|)
    case _ => InNew(|s.broker.incoming|)
  }

  lemma OnlyPublished(s: State, a: Address, m: Message, p: PaymentId, place: Place)
    requires WellFormed(s.broker) && NoCopy(s, p) && CopyAt(PublishMessage(s, a, m), p, place)
    ensures place == PublishedAt(s, a)
  {
    assert !CopyAt(s, p, place);
    match Route(a)
    case None =>
    case Some(PaymentsNew) =>
    case Some(PaymentsDlq) =>
    case Some(PaymentsRetry(n)) =>
  }

  /** A publish where there is no copy yet leaves at most one. */
  lemma FirstCopy(s: State, a: Address, m: Message, p: PaymentId, t: State)
    requires WellFormed(s.broker) && NoCopy(s, p)
    requires t.handlers == s.handlers && t.broker == PublishMessage(s, a, m).broker && Sends(t.log, p) > 0
    ensures Single(t, p)
  {
    forall x, y | CopyAt(t, p, x) && CopyAt(t, p, y) ensures x == y {
      assert CopyAt(PublishMessage(s, a, m), p, x) && CopyAt(PublishMessage(s, a, m), p, y);
      OnlyPublished(s, a, m, p, x);
      OnlyPublished(s, a, m, p, y);
    }
  }

  /** When the only copy is gone, there is none. */
  lemma LastCopyGone(s: State, t: State, p: PaymentId, place: Place)
    requires Single(s, p) && CopyAt(s, p, place) && !CopyAt(t, p, place)
    requires forall a | CopyAt(t, p, a) :: CopyAt(s, p, a)
    ensures NoCopy(t, p)
  {
  }

  lemma RepublishStays(c: Config, s: State, h: nat, p: PaymentId)
    requires Single(s, p) && WellFormed(s.broker) && HandlerEnabled(c, s, h, Republish)
    ensures Single(HandlerNext(c, s, h, Republish), p)
  {
    var x := s.handlers[h];
    var u := Enter(s, h, Republished);
    var a, m := RetryAddress(c, x.msg), RetryMessage(c, x.msg, x.phase.reason);
    if x.msg.pid == p {
      assert CopyAt(s, p, WithHandler(h));
      assert Sends(s.log, p) > 0;
      forall place | CopyAt(u, p, place) ensures CopyAt(s, p, place) {
      }
      LastCopyGone(s, u, p, WithHandler(h));
      FirstCopy(u, a, m, p, HandlerNext(c, s, h, Republish));
    } else {
      PhaseStays(s, h, x.(phase := Republished), u, p);
      PublishStays(u, a, m, p);
    }
  }

  lemma RequeueStays(s: State, h: nat, p: PaymentId)
    requires Single(s, p) && h in s.handlers && s.handlers[h].msg.pid != p
    ensures Single(PutBack(SetHandler(s, h, s.handlers[h].(owned := false)), Redelivered(s.handlers[h].msg)), p)
  {
    var t := PutBack(SetHandler(s, h, s.handlers[h].(owned := false)), Redelivered(s.handlers[h].msg));
    forall place | CopyAt(t, p, place) ensures CopyAt(s, p, place) {
    }
    Stayed(s, t, p);
  }

  lemma HandleStays(c: Config, s: State, h: nat, a: HandlerStep, p: PaymentId)
    requires Single(s, p) && WellFormed(s.broker) && HandlerEnabled(c, s, h, a)
    requires a.Requeue? ==> s.handlers[h].msg.pid != p
    ensures Single(HandlerNext(c, s, h, a), p)
  {
    var t := HandlerNext(c, s, h, a);
    match a
    case Deliver(i) => DeliverMoves(s, h, i, p);
    case ReadPayment => PhaseStays(s, h, t.handlers[h], t, p);
    case ApplyOutcome(_) => PhaseStays(s, h, t.handlers[h], t, p);
    case CommitOutcome => PhaseStays(s, h, t.handlers[h], t, p);
    case PostDelivered => PhaseStays(s, h, t.handlers[h], t, p);
    case PostFailed(_) => PhaseStays(s, h, t.handlers[h], t, p);
    case Republish => RepublishStays(c, s, h, p);
    case Ack => EndStays(s, h, p);
    case Reject => DropStays(s, h, p);
    case Nack => DropStays(s, h, p);
    case Requeue => RequeueStays(s, h, p);
    case Die => EndStays(s, h, p);
  }

  // ---- The broker

  lemma TakenStays(s: State, n: nat, p: PaymentId)
    requires Single(s, p) && WellFormed(s.broker) && ExpireEnabled(s, n) && s.broker.retry[n - 1][0].msg.pid != p
    ensures Single(TakeExpired(s, n), p)
  {
    var t := TakeExpired(s, n);
    var back := (place: Place) =>
      match place
      case InRetry(k, i) => if k == n - 1 then InRetry(k, i + 1) else place
      case _ => place;
    forall place | CopyAt(t, p, place) ensures CopyAt(s, p, back(place)) {
    }
    Moved(s, t, p, back);
  }

  /** With the only copy at its head, the queue without its head has none. */
  lemma TakenGone(s: State, n: nat, p: PaymentId)
    requires Single(s, p) && WellFormed(s.broker) && ExpireEnabled(s, n) && s.broker.retry[n - 1][0].msg.pid == p
    ensures NoCopy(TakeExpired(s, n), p)
  {
    var t := TakeExpired(s, n);
    assert CopyAt(s, p, InRetry(n - 1, 0));
    forall place ensures !CopyAt(t, p, place) {
      match place
      case InRetry(k, i) =>
        assert !CopyAt(s, p, InRetry(k, if k == n - 1 then i + 1 else i));
      case _ => assert !CopyAt(s, p, place);
    }
  }

  lemma ExpireStays(s: State, n: nat, p: PaymentId)
    requires Single(s, p) && WellFormed(s.broker) && ExpireEnabled(s, n)
    ensures Single(ExpireNext(s, n), p)
  {
    var m := s.broker.retry[n - 1][0].msg;
    var a, dead := DeadLetterAddress(PaymentsRetry(n)).value, m.(headers := RetryHeaders.DeadLettered(m.headers));
    if m.pid == p {
      assert CopyAt(s, p, InRetry(n - 1, 0));
      TakenGone(s, n, p);
      FirstCopy(TakeExpired(s, n), a, dead, p, ExpireNext(s, n));
    } else {
      TakenStays(s, n, p);
      PublishStays(TakeExpired(s, n), a, dead, p);
    }
  }

  // ---- Dispatchers and requests

  /** Sends are counted, never forgotten. */
  lemma SendsStay(c: Config, s: State, step: Step, p: PaymentId)
    requires Reached(c, s) && Enabled(c, s, step)
    ensures Sends(s.log, p) <= Sends(Next(c, s, step).log, p)
  {
    match step
    case Api(r, a) => SendsStayApi(c, s, r, a, p);
    case Dispatch(d, a) => SendsStayDispatch(c, s, d, a, p);
    case Handle(h, a) => HandlerKeeps(c, s, h, a);
    case Expire(n) =>
    case Tick(_) =>
  }

  lemma SendsStayCommit(s: State, r: nat, p: PaymentId)
    requires ApiEnabled(s, r, Commit) && NotStored(s, r)
    requires s.log.rowFor.Keys == s.payments.Keys && s.log.sends.Keys == s.outbox.Keys
    ensures Sends(s.log, p) <= Sends(ApiNext(s, r, Commit).log, p)
  {
  }

  lemma ReachedLogKeys(c: Config, s: State, r: nat)
    requires Reached(c, s)
    ensures NotStored(s, r) && s.log.rowFor.Keys == s.payments.Keys && s.log.sends.Keys == s.outbox.Keys
  {
    ReachedCreated(c, s);
    FreshIdsNotStored(s, r);
  }

  lemma SendsStayApi(c: Config, s: State, r: nat, a: ApiStep, p: PaymentId)
    requires Reached(c, s) && ApiEnabled(s, r, a)
    ensures Sends(s.log, p) <= Sends(ApiNext(s, r, a).log, p)
  {
    if a.Commit? {
      ReachedLogKeys(c, s, r);
      SendsStayCommit(s, r, p);
    } else {
      ApiKeepsTables(s, r, a);
    }
  }

  lemma SendsStayDispatch(c: Config, s: State, d: nat, a: DispatchStep, p: PaymentId)
    requires WellFormed(s.broker) && DispatchEnabled(c, s, d, a) && SendsKnown(s, d)
    ensures Sends(s.log, p) <= Sends(DispatchNext(c, s, d, a).log, p)
  {
    match a
    case Fetch(_) =>
    case PublishRow(_, _, _) =>
    case MarkRow =>
    case MarkRaises(_) =>
    case BumpRow =>
    case CommitBatch =>
    case AbortBatch =>
  }

  lemma PublishRowStays(c: Config, s: State, d: nat, accepted: bool, stage: Stage, p: PaymentId)
    requires Reached(c, s) && Single(s, p) && AtRow(s, d) && SendsKnown(s, d) && WellFormed(s.broker)
    requires Sends(PublishNext(s, d, accepted, stage).log, p) <= 1
    ensures Single(PublishNext(s, d, accepted, stage), p)
  {
    var t := PublishNext(s, d, accepted, stage);
    var r := s.batches[d].rows[s.batches[d].pos];
    var row := s.outbox[r];
    var a, m := ViaExchange(PaymentsExchange, row.routingKey), RowMessage(row);
    OnePaymentPerRow(c, s, r);
    ReachedRowFor(c, s, r);
    if !accepted {
      Stayed(s, t, p);
    } else if m.pid == p {
      assert Sends(t.log, p) == Sends(s.log, p) + 1;
      FirstCopy(s, a, m, p, t);
    } else {
      PublishStays(s, a, m, p);
      forall place | CopyAt(t, p, place) ensures CopyAt(PublishMessage(s, a, m), p, place) {
      }
      Stayed(PublishMessage(s, a, m), t, p);
    }
  }

  lemma ReachedRowFor(c: Config, s: State, r: RowId)
    requires Reached(c, s) && r in s.outbox
    ensures s.outbox[r].payload in s.log.rowFor && s.log.rowFor[s.outbox[r].payload] == r && r in s.log.sends
    ensures forall p | p in s.log.rowFor && s.log.rowFor[p] == r :: p == s.outbox[r].payload
  {
    ReachedCreated(c, s);
  }

  lemma OtherDispatchStays(c: Config, s: State, d: nat, a: DispatchStep, p: PaymentId)
    requires Single(s, p) && WellFormed(s.broker) && DispatchEnabled(c, s, d, a) && SendsKnown(s, d) && !a.PublishRow?
    ensures Single(DispatchNext(c, s, d, a), p)
  {
    SendsStayDispatch(c, s, d, a, p);
    SameQueues(c, s, d, a);
    SameCopies(s, DispatchNext(c, s, d, a), p);
  }

  lemma SameCopies(s: State, t: State, p: PaymentId)
    requires Single(s, p) && t.broker == s.broker && t.handlers == s.handlers && Sends(s.log, p) <= Sends(t.log, p)
    ensures Single(t, p)
  {
    Stayed(s, t, p);
  }

  lemma DispatchStays(c: Config, s: State, d: nat, a: DispatchStep, p: PaymentId)
    requires Reached(c, s) && Single(s, p) && WellFormed(s.broker) && DispatchEnabled(c, s, d, a) && SendsKnown(s, d)
    requires Sends(DispatchNext(c, s, d, a).log, p) <= 1
    ensures Single(DispatchNext(c, s, d, a), p)
  {
    match a
    case PublishRow(accepted, raised, error) =>
      PublishRowStays(c, s, d, accepted, if raised then Raised(accepted, error) else Sent, p);
    case _ => OtherDispatchStays(c, s, d, a, p);
  }

  lemma SameQueues(c: Config, s: State, d: nat, a: DispatchStep)
    requires WellFormed(s.broker) && DispatchEnabled(c, s, d, a) && SendsKnown(s, d) && !a.PublishRow?
    ensures DispatchNext(c, s, d, a).broker == s.broker && DispatchNext(c, s, d, a).handlers == s.handlers
  {
    match a
    case Fetch(_) =>
    case MarkRow =>
    case MarkRaises(_) =>
    case BumpRow =>
    case CommitBatch =>
    case AbortBatch =>
  }

  lemma ApiStays(c: Config, s: State, r: nat, a: ApiStep, p: PaymentId)
    requires Reached(c, s) && Single(s, p) && ApiEnabled(s, r, a)
    ensures Single(ApiNext(s, r, a), p)
  {
    SendsStayApi(c, s, r, a, p);
    if !a.Commit? {
      ApiKeepsTables(s, r, a);
    }
    Stayed(s, ApiNext(s, r, a), p);
  }

  /** The broker takes a delivery of `p` back. */
  ghost predicate TakesBack(s: State, step: Step, p: PaymentId) {
    step.Handle? && step.handle.Requeue? && step.h in s.handlers && s.handlers[step.h].msg.pid == p
  }

  lemma SingleStep(c: Config, s: State, step: Step, p: PaymentId)
    requires Reached(c, s) && Single(s, p) && Enabled(c, s, step) && !TakesBack(s, step, p)
    requires Sends(Next(c, s, step).log, p) <= 1
    ensures Single(Next(c, s, step), p)
  {
    match step
    case Api(r, a) => ApiStays(c, s, r, a, p);
    case Dispatch(d, a) => DispatchStays(c, s, d, a, p);
    case Handle(h, a) => HandleStays(c, s, h, a, p);
    case Expire(n) => ExpireStays(s, n, p);
    case Tick(t) => Stayed(s, Wait(s, t), p);
  }

  // ---- Runs

  /** No delivery of `p` is taken back during the run. */
  ghost predicate NoneTakenBack(c: Config, steps: seq<Step>, p: PaymentId)
    requires Run(c, Init(), steps)
    decreases |steps|
  {
    steps == [] ||
    var init, last := steps[..|steps| - 1], steps[|steps| - 1];
    NoneTakenBack(c, init, p) && !TakesBack(Exec(c, Init(), init), last, p)
  }

  lemma SingleIsExclusive(s: State, p: PaymentId)
    requires Single(s, p)
    ensures ExclusiveFor(s.handlers, p)
  {
    forall h, k | h in s.handlers && k in s.handlers && InWindow(s.handlers[h]) && InWindow(s.handlers[k])
                  && s.handlers[h].msg.pid == p && s.handlers[k].msg.pid == p
      ensures h == k
    {
      assert CopyAt(s, p, WithHandler(h)) && CopyAt(s, p, WithHandler(k));
    }
  }

  /** If the event was sent at most once and none of its deliveries was taken
      back, no two handler windows on the payment ever overlapped. */
  lemma {:induction false} SentOnceNeverOverlaps(c: Config, steps: seq<Step>, p: PaymentId)
    requires Run(c, Init(), steps) && NoneTakenBack(c, steps, p) && Sends(Exec(c, Init(), steps).log, p) <= 1
    ensures Single(Exec(c, Init(), steps), p) && AlwaysExclusive(c, steps, p)
    decreases |steps|
  {
    if steps != [] {
      var init, last := steps[..|steps| - 1], steps[|steps| - 1];
      var s := Exec(c, Init(), init);
      assert Reached(c, s);
      SendsStay(c, s, last, p);
      SentOnceNeverOverlaps(c, init, p);
      SingleStep(c, s, last, p);
    }
    SingleIsExclusive(Exec(c, Init(), steps), p);
  }

  /** A row is in flight only while it is pending. */
  lemma OnceAtMost(c: Config, s: State, r: RowId)
    requires Reached(c, s) && r in s.outbox
    ensures PublishedCount(s.outbox[r]) + InFlight(s.locks, s.batches, r) <= 1
  {
    ReachedLocked(c, s);
    if r in s.locks {
      assert Holds(s.batches[s.locks[r]], s.locks[r], s.locks, s.outbox);
    }
  }

  /** A row whose batches were never rolled back after it was sent, and whose
      publishes never raised although they had been accepted, was sent at most once. */
  lemma CleanRowIsSentOnce(c: Config, s: State, p: PaymentId)
    requires Reached(c, s) && p in s.payments && SentCleanly(s.log, p)
    ensures Sends(s.log, p) <= 1
  {
    var r := ReachedRow(c, s, p);
    SendsAreConserved(c, s, r);
    OnceAtMost(c, s, r);
  }

  lemma ReachedRow(c: Config, s: State, p: PaymentId) returns (r: RowId)
    requires Reached(c, s) && p in s.payments
    ensures p in s.log.rowFor && r == s.log.rowFor[p] && r in s.outbox
  {
    ReachedCreated(c, s);
    r := s.log.rowFor[p];
  }

  ghost predicate SentCleanly(log: Log, p: PaymentId) {
    p in log.rowFor ==>
      var r := log.rowFor[p];
      (r in log.rolledBack ==> log.rolledBack[r] == 0) && (r in log.doubtful ==> log.doubtful[r] == 0)
  }

  /** So for a payment whose row was published cleanly and whose deliveries were
      never taken back, the outcome is written once and all webhooks agree with it. */
  lemma CleanPaymentIsDecidedOnce(c: Config, steps: seq<Step>, s: State, p: PaymentId, one: Post, other: Post)
    requires Run(c, Init(), steps) && s == Exec(c, Init(), steps) && p in s.payments
    requires NoneTakenBack(c, steps, p) && SentCleanly(s.log, p)
    ensures AlwaysExclusive(c, steps, p) && p in s.log.outcomes && |s.log.outcomes[p]| <= 1
    ensures one in s.log.posts && other in s.log.posts && one.pid == other.pid == p ==>
              one.outcome == other.outcome == s.payments[p].outcome
  {
    assert Reached(c, s);
    CleanRowIsSentOnce(c, s, p);
    SentOnceNeverOverlaps(c, steps, p);
    OnceAlways(c, steps, p);
    ReachedCreated(c, s);
    if one in s.log.posts && other in s.log.posts && one.pid == other.pid == p {
      WebhooksAgree(c, steps, s, one, other);
    }
  }
}
