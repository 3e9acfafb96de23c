/** The outcome of a payment: where the status a webhook carries comes from,
    and when it is written only once. */
module Outcomes {
  import opened Entities
  import opened Pipeline
  import opened Creation

  /** The stored outcome is the last one committed; none is committed that is not final. */
  ghost predicate Recorded(payment: Payment, outcomes: seq<Outcome>) {
    && payment.outcome == (if outcomes == [] then UNPROCESSED else outcomes[|outcomes| - 1])
    && forall o | o in outcomes :: Terminal(o)
  }

  ghost predicate AllRecorded(payments: map<PaymentId, Payment>, outcomes: map<PaymentId, seq<Outcome>>) {
    forall p | p in payments :: p in outcomes && Recorded(payments[p], outcomes[p])
  }

  /** What a handler is about to send has been committed before. */
  ghost predicate Backed(x: Handler, outcomes: map<PaymentId, seq<Outcome>>) {
    match x.phase
    case Applied(o) => Terminal(o)
    case Ready(o) => x.msg.pid in outcomes && o in outcomes[x.msg.pid]
    case _ => true
  }

  ghost predicate AllBacked(handlers: map<nat, Handler>, outcomes: map<PaymentId, seq<Outcome>>) {
    forall h | h in handlers :: Backed(handlers[h], outcomes)
  }

  ghost predicate PostBacked(post: Post, outcomes: map<PaymentId, seq<Outcome>>) {
    post.pid in outcomes && post.outcome in outcomes[post.pid]
  }

  ghost predicate PostsBacked(posts: seq<Post>, outcomes: map<PaymentId, seq<Outcome>>) {
    forall post | post in posts :: PostBacked(post, outcomes)
  }

  /** Every webhook ever posted carries an outcome committed before it was posted. */
  ghost predicate Truthful(s: State) {
    && AllRecorded(s.payments, s.log.outcomes)
    && AllBacked(s.handlers, s.log.outcomes)
    && PostsBacked(s.log.posts, s.log.outcomes)
  }

  lemma TruthfulSet(s: State, h: nat, x: Handler)
    requires Truthful(s) && Backed(x, s.log.outcomes)
    ensures Truthful(SetHandler(s, h, x))
  {
  }

  lemma TruthfulPost(s: State, post: Post)
    requires Truthful(s) && PostBacked(post, s.log.outcomes)
    ensures Truthful(LogPost(s, post))
  {
  }

  lemma TruthfulCommit(s: State, p: PaymentId, o: Outcome)
    requires Truthful(s) && p in s.payments && p in s.log.outcomes && Terminal(o)
    ensures Truthful(StoreOutcome(s, p, o))
  {
    var t := StoreOutcome(s, p, o);
    forall q | q in t.payments ensures q in t.log.outcomes && Recorded(t.payments[q], t.log.outcomes[q]) {
      assert Recorded(s.payments[q], s.log.outcomes[q]);
    }
    BackedGrows(s.handlers, s.log.outcomes, t.log.outcomes);
    PostsGrow(s.log.posts, s.log.outcomes, t.log.outcomes);
  }

  ghost predicate Grown(outcomes: map<PaymentId, seq<Outcome>>, outcomes': map<PaymentId, seq<Outcome>>) {
    forall p | p in outcomes :: p in outcomes' && forall o | o in outcomes[p] :: o in outcomes'[p]
  }

  lemma BackedGrows(handlers: map<nat, Handler>, outcomes: map<PaymentId, seq<Outcome>>,
                    outcomes': map<PaymentId, seq<Outcome>>)
    requires AllBacked(handlers, outcomes) && Grown(outcomes, outcomes')
    ensures AllBacked(handlers, outcomes')
  {
    forall h | h in handlers ensures Backed(handlers[h], outcomes') {
      assert Backed(handlers[h], outcomes);
    }
  }

  lemma PostsGrow(posts: seq<Post>, outcomes: map<PaymentId, seq<Outcome>>, outcomes': map<PaymentId, seq<Outcome>>)
    requires PostsBacked(posts, outcomes) && Grown(outcomes, outcomes')
    ensures PostsBacked(posts, outcomes')
  {
    forall post | post in posts ensures PostBacked(post, outcomes') {
      assert PostBacked(post, outcomes);
    }
  }

  lemma TruthfulRead(s: State, h: nat)
    requires Truthful(s) && h in s.handlers
    ensures Truthful(Enter(s, h, ReadPhase(s, s.handlers[h].msg.pid)))
  {
    var p := s.handlers[h].msg.pid;
    if p in s.payments {
      assert Recorded(s.payments[p], s.log.outcomes[p]);
    }
    TruthfulSet(s, h, s.handlers[h].(phase := ReadPhase(s, p)));
  }

  lemma TruthfulFrame(s: State, t: State)
    requires Truthful(s)
    requires t.payments == s.payments && t.log.outcomes == s.log.outcomes && t.log.posts == s.log.posts
    requires forall h | h in t.handlers :: h in s.handlers && t.handlers[h] == s.handlers[h]
    ensures Truthful(t)
  {
  }

  lemma TruthfulHandle(c: Config, s: State, h: nat, a: HandlerStep)
    requires Truthful(s) && WellFormed(s.broker) && HandlerEnabled(c, s, h, a)
    ensures Truthful(HandlerNext(c, s, h, a))
  {
    if h in s.handlers {
      assert Backed(s.handlers[h], s.log.outcomes);
    }
    match a
    case Deliver(i) => TruthfulSet(TakeMessage(s, i), h, Handler(s.broker.incoming[i], Got, true));
    case ReadPayment => TruthfulRead(s, h);
    case ApplyOutcome(succeeded) =>
      TruthfulSet(s, h, s.handlers[h].(phase := ApplyPhase(s, s.handlers[h].msg.pid, succeeded)));
    case CommitOutcome => TruthfulCommitted(s, h);
    case PostDelivered =>
      TruthfulSet(s, h, s.handlers[h].(phase := Notified));
      TruthfulPost(Enter(s, h, Notified), Post(s.handlers[h].msg.pid, s.handlers[h].phase.outcome));
    case PostFailed(reason) =>
      var x := s.handlers[h];
      var y := Handler(WithFailure(x.msg, s.now), Unsent(reason), x.owned);
      TruthfulSet(s, h, y);
      TruthfulPost(SetHandler(s, h, y), Post(x.msg.pid, x.phase.outcome));
    case Republish => TruthfulSet(s, h, s.handlers[h].(phase := Republished));
    case Ack =>
    case Reject => TruthfulFrame(s, Drop(s, h));
    case Nack => TruthfulFrame(s, Drop(s, h));
    case Requeue => TruthfulSet(s, h, s.handlers[h].(owned := false));
    case Die =>
  }

  /** The commit makes the handler's own outcome part of the record. */
  lemma TruthfulCommitted(s: State, h: nat)
    requires Truthful(s) && h in s.handlers && s.handlers[h].phase.Applied?
    requires s.handlers[h].msg.pid in s.payments && s.handlers[h].msg.pid in s.log.outcomes
    ensures var o := s.handlers[h].phase.outcome;
            Truthful(StoreOutcome(Enter(s, h, Ready(o)), s.handlers[h].msg.pid, o))
  {
    var x := s.handlers[h];
    var o := x.phase.outcome;
    assert Backed(x, s.log.outcomes);
    TruthfulCommit(s, x.msg.pid, o);
    var t := StoreOutcome(s, x.msg.pid, o);
    TruthfulSet(t, h, x.(phase := Ready(o)));
    assert SetHandler(t, h, x.(phase := Ready(o))) == StoreOutcome(Enter(s, h, Ready(o)), x.msg.pid, o);
  }

  lemma TruthfulStore(s: State, q: Request)
    requires Truthful(s) && q.phase.Enqueued? && q.phase.id !in s.payments && q.phase.id !in s.log.outcomes
    ensures Truthful(Store(s, q))
  {
    var t := Store(s, q);
    forall p | p in t.payments ensures p in t.log.outcomes && Recorded(t.payments[p], t.log.outcomes[p]) {
      if p != q.phase.id {
        assert Recorded(s.payments[p], s.log.outcomes[p]);
      }
    }
    BackedGrows(s.handlers, s.log.outcomes, t.log.outcomes);
    PostsGrow(s.log.posts, s.log.outcomes, t.log.outcomes);
  }

  lemma TruthfulStep(c: Config, s: State, step: Step)
    requires Created(s) && Truthful(s) && Enabled(c, s, step)
    ensures Truthful(Next(c, s, step))
  {
    match step
    case Api(r, a) =>
      if a.Commit? {
        FreshIdsNotStored(s, r);
        TruthfulStore(s, s.requests[r]);
        TruthfulFrame(Store(s, s.requests[r]), ApiNext(s, r, Commit));
      } else {
        ApiKeepsTables(s, r, a);
        TruthfulFrame(s, ApiNext(s, r, a));
      }
    case Dispatch(d, a) =>
      DispatchKeeps(c, s, d, a);
      TruthfulFrame(s, DispatchNext(c, s, d, a));
    case Handle(h, a) => TruthfulHandle(c, s, h, a);
    case Expire(n) => TruthfulFrame(s, ExpireNext(s, n));
    case Tick(t) => TruthfulFrame(s, Wait(s, t));
  }

  // ---- One outcome per payment

  /** Between the read of a PENDING payment and the commit of its outcome. */
  predicate InWindow(x: Handler) {
    x.phase.Window? || x.phase.Applied?
  }

  /** No two handlers of payment `p` are in that window together. */
  ghost predicate ExclusiveFor(handlers: map<nat, Handler>, p: PaymentId) {
    forall h, k | h in handlers && k in handlers && InWindow(handlers[h]) && InWindow(handlers[k])
                  && handlers[h].msg.pid == p && handlers[k].msg.pid == p :: h == k
  }

  ghost predicate WindowOpen(x: Handler, outcomes: map<PaymentId, seq<Outcome>>) {
    InWindow(x) ==> x.msg.pid in outcomes && outcomes[x.msg.pid] == []
  }

  /** A window is open on `p` only while it has no outcome, and it never has two. */
  ghost predicate Once(handlers: map<nat, Handler>, outcomes: map<PaymentId, seq<Outcome>>, p: PaymentId) {
    && (forall h | h in handlers && handlers[h].msg.pid == p :: WindowOpen(handlers[h], outcomes))
    && (p in outcomes ==> |outcomes[p]| <= 1)
  }

  lemma OnceSet(handlers: map<nat, Handler>, outcomes: map<PaymentId, seq<Outcome>>, h: nat, x: Handler, p: PaymentId)
    requires Once(handlers, outcomes, p) && (x.msg.pid == p ==> WindowOpen(x, outcomes))
    ensures Once(handlers[h := x], outcomes, p)
  {
  }

  lemma OnceCommit(handlers: map<nat, Handler>, outcomes: map<PaymentId, seq<Outcome>>, h: nat, o: Outcome, x: Handler,
                   p: PaymentId)
    requires Once(handlers, outcomes, p) && ExclusiveFor(handlers, p)
    requires h in handlers && InWindow(handlers[h]) && !InWindow(x) && x.msg == handlers[h].msg
    requires handlers[h].msg.pid in outcomes
    ensures Once(handlers[h := x], outcomes[handlers[h].msg.pid := outcomes[handlers[h].msg.pid] + [o]], p)
  {
    var q := handlers[h].msg.pid;
    var handlers', outcomes' := handlers[h := x], outcomes[q := outcomes[q] + [o]];
    if q == p {
      assert WindowOpen(handlers[h], outcomes);
    }
    forall k | k in handlers' && handlers'[k].msg.pid == p ensures WindowOpen(handlers'[k], outcomes') {
      if k != h {
        assert WindowOpen(handlers[k], outcomes);
      }
    }
  }

  lemma PendingMeansNoOutcome(payment: Payment, outcomes: seq<Outcome>)
    requires Recorded(payment, outcomes)
    ensures payment.outcome.status == Pending <==> outcomes == []
  {
    if outcomes != [] {
      assert outcomes[|outcomes| - 1] in outcomes;
    }
  }

  lemma OnceRead(s: State, h: nat, p: PaymentId)
    requires Truthful(s) && Once(s.handlers, s.log.outcomes, p) && h in s.handlers
    ensures Once(Enter(s, h, ReadPhase(s, s.handlers[h].msg.pid)).handlers, s.log.outcomes, p)
  {
    var q := s.handlers[h].msg.pid;
    if q in s.payments {
      assert Recorded(s.payments[q], s.log.outcomes[q]);
      PendingMeansNoOutcome(s.payments[q], s.log.outcomes[q]);
    }
    OnceSet(s.handlers, s.log.outcomes, h, s.handlers[h].(phase := ReadPhase(s, q)), p);
  }

  lemma OnceHandle(c: Config, s: State, h: nat, a: HandlerStep, p: PaymentId)
    requires Truthful(s) && Once(s.handlers, s.log.outcomes, p) && ExclusiveFor(s.handlers, p)
    requires WellFormed(s.broker) && HandlerEnabled(c, s, h, a)
    ensures var t := HandlerNext(c, s, h, a); Once(t.handlers, t.log.outcomes, p)
  {
    if h in s.handlers && s.handlers[h].msg.pid == p {
      assert WindowOpen(s.handlers[h], s.log.outcomes);
    }
    match a
    case Deliver(i) => OnceSet(s.handlers, s.log.outcomes, h, Handler(s.broker.incoming[i], Got, true), p);
    case ReadPayment => OnceRead(s, h, p);
    case ApplyOutcome(succeeded) =>
      OnceSet(s.handlers, s.log.outcomes, h,
              s.handlers[h].(phase := ApplyPhase(s, s.handlers[h].msg.pid, succeeded)), p);
    case CommitOutcome =>
      var o := s.handlers[h].phase.outcome;
      OnceCommit(s.handlers, s.log.outcomes, h, o, s.handlers[h].(phase := Ready(o)), p);
    case PostDelivered => OnceSet(s.handlers, s.log.outcomes, h, s.handlers[h].(phase := Notified), p);
    case PostFailed(reason) =>
      OnceSet(s.handlers, s.log.outcomes, h,
              Handler(WithFailure(s.handlers[h].msg, s.now), Unsent(reason), s.handlers[h].owned), p);
    case Republish => OnceSet(s.handlers, s.log.outcomes, h, s.handlers[h].(phase := Republished), p);
    case Ack =>
    case Reject => DropKeepsOnce(s, h, p);
    case Nack => DropKeepsOnce(s, h, p);
    case Requeue => OnceSet(s.handlers, s.log.outcomes, h, s.handlers[h].(owned := false), p);
    case Die =>
  }

  lemma DropKeepsOnce(s: State, h: nat, p: PaymentId)
    requires Once(s.handlers, s.log.outcomes, p) && h in s.handlers && WellFormed(s.broker)
    ensures Once(Drop(s, h).handlers, Drop(s, h).log.outcomes, p)
  {
    DropFrame(s, h);
  }

  lemma OnceStore(s: State, q: Request, p: PaymentId)
    requires Once(s.handlers, s.log.outcomes, p) && q.phase.Enqueued?
    ensures Once(Store(s, q).handlers, Store(s, q).log.outcomes, p)
  {
    var outcomes := Store(s, q).log.outcomes;
    forall h | h in s.handlers && s.handlers[h].msg.pid == p ensures WindowOpen(s.handlers[h], outcomes) {
      assert WindowOpen(s.handlers[h], s.log.outcomes);
    }
  }

  lemma OnceStep(c: Config, s: State, step: Step, p: PaymentId)
    requires Created(s) && Truthful(s) && Enabled(c, s, step)
    requires Once(s.handlers, s.log.outcomes, p) && ExclusiveFor(s.handlers, p)
    ensures var t := Next(c, s, step); Once(t.handlers, t.log.outcomes, p)
  {
    match step
    case Api(r, a) =>
      if a.Commit? {
        OnceStore(s, s.requests[r], p);
      } else {
        ApiKeepsTables(s, r, a);
      }
    case Dispatch(d, a) => DispatchKeeps(c, s, d, a);
    case Handle(h, a) => OnceHandle(c, s, h, a, p);
    case Expire(n) =>
    case Tick(t) =>
  }

  lemma WindowPending(s: State, h: nat, p: PaymentId)
    requires Truthful(s) && Once(s.handlers, s.log.outcomes, p) && p in s.payments
    requires h in s.handlers && InWindow(s.handlers[h]) && s.handlers[h].msg.pid == p
    ensures s.payments[p].outcome.status == Pending
  {
    assert WindowOpen(s.handlers[h], s.log.outcomes);
    assert Recorded(s.payments[p], s.log.outcomes[p]);
    PendingMeansNoOutcome(s.payments[p], s.log.outcomes[p]);
  }

  lemma StoreElsewhere(s: State, r: nat, p: PaymentId)
    requires NotStored(s, r) && ApiEnabled(s, r, Commit) && p in s.payments
    ensures p in ApiNext(s, r, Commit).payments && ApiNext(s, r, Commit).payments[p] == s.payments[p]
  {
  }

  lemma CommitElsewhere(c: Config, s: State, h: nat, p: PaymentId)
    requires HandlerEnabled(c, s, h, CommitOutcome) && WellFormed(s.broker)
    requires s.handlers[h].msg.pid != p && p in s.payments
    ensures var t := HandlerNext(c, s, h, CommitOutcome); p in t.payments && t.payments[p] == s.payments[p]
  {
  }

  ghost predicate Keeps(s: State, t: State, p: PaymentId) {
    p in s.payments && p in t.payments && t.payments[p].outcome == s.payments[p].outcome
  }

  lemma OutcomeStaysApi(s: State, r: nat, a: ApiStep, p: PaymentId)
    requires Created(s) && ApiEnabled(s, r, a) && p in s.payments
    ensures Keeps(s, ApiNext(s, r, a), p)
  {
    if a.Commit? {
      FreshIdsNotStored(s, r);
      StoreElsewhere(s, r, p);
    } else {
      ApiKeepsTables(s, r, a);
    }
  }

  lemma OutcomeStaysHandle(c: Config, s: State, h: nat, a: HandlerStep, p: PaymentId)
    requires Truthful(s) && Once(s.handlers, s.log.outcomes, p) && HandlerEnabled(c, s, h, a) && WellFormed(s.broker)
    requires p in s.payments && s.payments[p].outcome.status != Pending
    ensures Keeps(s, HandlerNext(c, s, h, a), p)
  {
    if !a.CommitOutcome? {
      PaymentsChangeByCommitOnly(c, s, h, a);
    } else if s.handlers[h].msg.pid == p {
      WindowPending(s, h, p);
      assert false;
    } else {
      CommitElsewhere(c, s, h, p);
    }
  }

  lemma OutcomeStaysElsewhere(c: Config, s: State, step: Step, p: PaymentId)
    requires Enabled(c, s, step) && !step.Api? && !step.Handle? && p in s.payments
    ensures Keeps(s, Next(c, s, step), p)
  {
    match step
    case Dispatch(d, a) => DispatchKeeps(c, s, d, a);
    case Expire(n) =>
    case Tick(_) =>
  }

  // ---- The machine a client may think of

  /** What a client can observe of processing. */
  ghost function View(s: State): map<PaymentId, Outcome> {
    map p | p in s.payments :: s.payments[p].outcome
  }

  ghost predicate Appears(v: map<PaymentId, Outcome>, v': map<PaymentId, Outcome>, p: PaymentId) {
    p !in v && v' == v[p := UNPROCESSED]
  }

  ghost predicate Finishes(v: map<PaymentId, Outcome>, v': map<PaymentId, Outcome>, p: PaymentId, o: Outcome) {
    p in v && v[p] == UNPROCESSED && Terminal(o) && v' == v[p := o]
  }

  /** A payment appears unprocessed, or leaves that state once and for all. */
  ghost predicate ViewStep(v: map<PaymentId, Outcome>, v': map<PaymentId, Outcome>) {
    v' == v || (exists p: PaymentId :: Appears(v, v', p)) || (exists p: PaymentId, o :: Finishes(v, v', p, o))
  }

  ghost predicate AllOnce(s: State) {
    forall p: PaymentId :: Once(s.handlers, s.log.outcomes, p)
  }

  lemma ViewCommit(c: Config, s: State, h: nat)
    requires Truthful(s) && AllOnce(s) && HandlerEnabled(c, s, h, CommitOutcome) && WellFormed(s.broker)
    ensures ViewStep(View(s), View(HandlerNext(c, s, h, CommitOutcome)))
  {
    var x := s.handlers[h];
    assert Once(s.handlers, s.log.outcomes, x.msg.pid);
    assert WindowOpen(x, s.log.outcomes) && Backed(x, s.log.outcomes);
    assert Recorded(s.payments[x.msg.pid], s.log.outcomes[x.msg.pid]);
    var t := HandlerNext(c, s, h, CommitOutcome);
    assert View(t) == View(s)[x.msg.pid := x.phase.outcome];
    assert Finishes(View(s), View(t), x.msg.pid, x.phase.outcome);
  }

  lemma ViewStore(s: State, q: Request)
    requires q.phase.Enqueued? && q.phase.id !in s.payments
    ensures ViewStep(View(s), View(Store(s, q)))
  {
    var t := Store(s, q);
    assert View(t) == View(s)[q.phase.id := UNPROCESSED];
    assert Appears(View(s), View(t), q.phase.id);
  }

  lemma ViewSame(s: State, t: State)
    requires t.payments == s.payments
    ensures View(t) == View(s)
  {
  }

  lemma PaymentsChangeByCommitOnly(c: Config, s: State, h: nat, a: HandlerStep)
    requires WellFormed(s.broker) && HandlerEnabled(c, s, h, a) && !a.CommitOutcome?
    ensures HandlerNext(c, s, h, a).payments == s.payments
    ensures HandlerNext(c, s, h, a).log.outcomes == s.log.outcomes
  {
    match a
    case Deliver(_) =>
    case ReadPayment =>
    case ApplyOutcome(_) =>
    case PostDelivered =>
    case PostFailed(_) =>
    case Republish =>
    case Ack =>
    case Reject => DropKeepsPayments(s, h);
    case Nack => DropKeepsPayments(s, h);
    case Requeue =>
    case Die =>
  }

  lemma DropKeepsPayments(s: State, h: nat)
    requires h in s.handlers && WellFormed(s.broker)
    ensures Drop(s, h).payments == s.payments && Drop(s, h).log == s.log
  {
  }

  /** The steps that write the payments table. */
  predicate WritesPayments(step: Step) {
    (step.Api? && step.api.Commit?) || (step.Handle? && step.handle.CommitOutcome?)
  }

  lemma OtherStepsKeepPayments(c: Config, s: State, step: Step)
    requires Enabled(c, s, step) && !WritesPayments(step)
    ensures Next(c, s, step).payments == s.payments && Next(c, s, step).log.outcomes == s.log.outcomes
  {
    match step
    case Api(r, a) => ApiKeepsTables(s, r, a);
    case Dispatch(d, a) => DispatchKeeps(c, s, d, a);
    case Handle(h, a) => PaymentsChangeByCommitOnly(c, s, h, a);
    case Expire(n) =>
    case Tick(_) =>
  }

  /** While windows do not overlap, every step of the pipeline is a step of
      that machine or changes nothing in it. */
  lemma RefinesView(c: Config, s: State, step: Step)
    requires Created(s) && Truthful(s) && AllOnce(s) && Enabled(c, s, step)
    ensures ViewStep(View(s), View(Next(c, s, step)))
  {
    if !WritesPayments(step) {
      OtherStepsKeepPayments(c, s, step);
      ViewSame(s, Next(c, s, step));
    } else {
      match step
      case Api(r, _) =>
        FreshIdsNotStored(s, r);
        ViewStore(s, s.requests[r]);
        ViewSame(Store(s, s.requests[r]), ApiNext(s, r, Commit));
      case Handle(h, _) => ViewCommit(c, s, h);
    }
  }
}
