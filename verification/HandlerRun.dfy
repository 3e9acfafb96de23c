/** The consumer method and the step system: what one handler does, with other
    participants at work between its read and its update, is a run. */
module HandlerRun {
  import opened Entities
  import opened Topology
  import opened Pipeline
  import opened Creation
  import opened Messaging
  import opened PaymentService
  import opened Consumer
  import opened RequestRun
  import opened Guarantees

  /** None of the steps is a step of handler `h` itself. The broker may take its
      delivery back. */
  ghost predicate LeavesHandler(h: nat, steps: seq<Step>) {
    forall step | step in steps :: !(step.Handle? && step.h == h) || step.handle.Requeue?
  }

  lemma HandlerElsewhere(c: Config, s: State, k: nat, a: HandlerStep, h: nat)
    requires WellFormed(s.broker) && HandlerEnabled(c, s, k, a) && k != h && h in s.handlers
    ensures h in HandlerNext(c, s, k, a).handlers && HandlerNext(c, s, k, a).handlers[h] == s.handlers[h]
  {
    match a
    case Deliver(_) =>
    case ReadPayment =>
    case ApplyOutcome(_) =>
    case CommitOutcome =>
    case PostDelivered =>
    case PostFailed(_) =>
    case Republish =>
    case Ack =>
    case Reject =>
    case Nack =>
    case Requeue =>
    case Die =>
  }

  lemma HandlerKept(c: Config, s: State, step: Step, h: nat)
    requires Enabled(c, s, step) && !(step.Handle? && step.h == h) && h in s.handlers
    ensures h in Next(c, s, step).handlers && Next(c, s, step).handlers[h] == s.handlers[h]
  {
    match step
    case Api(r, a) => ApiKeepsHandlers(s, r, a);
    case Dispatch(d, a) => DispatchKeeps(c, s, d, a);
    case Handle(k, a) => HandlerElsewhere(c, s, k, a, h);
    case Expire(n) =>
    case Tick(t) =>
  }

  lemma HandlerLoses(c: Config, s: State, h: nat)
    requires Enabled(c, s, Handle(h, Requeue)) && h in s.handlers
    ensures var t := Next(c, s, Handle(h, Requeue));
            h in t.handlers && t.handlers[h] == s.handlers[h].(owned := false)
  {
  }

  lemma ApiKeepsHandlers(s: State, r: nat, a: ApiStep)
    requires ApiEnabled(s, r, a)
    ensures ApiNext(s, r, a).handlers == s.handlers
  {
    if !a.Commit? {
      ApiKeepsTables(s, r, a);
    }
  }

  lemma {:induction false} HandlerWaits(c: Config, s: State, steps: seq<Step>, h: nat)
    requires Run(c, s, steps) && LeavesHandler(h, steps) && h in s.handlers
    ensures h in Exec(c, s, steps).handlers
    ensures Exec(c, s, steps).handlers[h]
            == s.handlers[h].(owned := s.handlers[h].owned && Handle(h, Requeue) !in steps)
    decreases |steps|
  {
    if steps != [] {
      var init, last := steps[..|steps| - 1], steps[|steps| - 1];
      assert last in steps && steps == init + [last];
      HandlerWaits(c, s, init, h);
      if last == Handle(h, Requeue) {
        HandlerLoses(c, Exec(c, s, init), h);
      } else {
        HandlerKept(c, Exec(c, s, init), last, h);
      }
    }
  }

  /** Handler `h` works on `m`, in this phase, and owns the delivery or not. */
  ghost predicate Handling(s: State, h: nat, m: Message, phase: Phase, owned: bool) {
    h in s.handlers && s.handlers[h] == Handler(m, phase, owned) && WellFormed(s.broker)
  }

  /** Handler `h` has ended: the tables, the queues and the webhooks are these. */
  ghost predicate Over(t: State, h: nat, tables: Tables, b: Broker, posts: seq<Post>) {
    h !in t.handlers && TablesOf(t) == tables && t.broker == b && t.log.posts == posts
  }

  // ---- From the webhook on

  lemma NackRun(c: Config, s: State, h: nat, m: Message, phase: Phase, owned: bool) returns (steps: seq<Step>)
    requires Handling(s, h, m, phase, owned) && phase != Missing
    ensures Run(c, s, steps)
    ensures Over(Exec(c, s, steps), h, TablesOf(s), Dropped(s.broker, m, !owned), s.log.posts)
  {
    steps := [Handle(h, Nack)];
    OneStep(c, s, steps[0]);
  }

  lemma AckRun(c: Config, s: State, h: nat, m: Message, phase: Phase, owned: bool) returns (steps: seq<Step>)
    requires Handling(s, h, m, phase, owned) && (phase == Notified || phase == Republished)
    ensures Run(c, s, steps)
    ensures Over(Exec(c, s, steps), h, TablesOf(s), s.broker, s.log.posts)
  {
    steps := [Handle(h, Ack)];
    OneStep(c, s, steps[0]);
  }

  lemma DeliveredRun(c: Config, s: State, h: nat, m: Message, o: Outcome, owned: bool) returns (steps: seq<Step>)
    requires Handling(s, h, m, Ready(o), owned)
    ensures Run(c, s, steps)
    ensures Over(Exec(c, s, steps), h, TablesOf(s), s.broker, s.log.posts + [Post(m.pid, o)])
  {
    var one := [Handle(h, PostDelivered)];
    OneStep(c, s, one[0]);
    var two := AckRun(c, Exec(c, s, one), h, m, Notified, owned);
    RunConcat(c, s, one, two);
    steps := one + two;
  }

  lemma UnsentRun(c: Config, s: State, h: nat, m: Message, o: Outcome, owned: bool, reason: string, at: real)
    returns (steps: seq<Step>)
    requires Handling(s, h, m, Ready(o), owned) && s.now <= at
    ensures Run(c, s, steps)
    ensures var t := Exec(c, s, steps);
            && Handling(t, h, WithFailure(m, at), Unsent(reason), owned) && t.now == at
            && TablesOf(t) == TablesOf(s) && t.broker == s.broker && t.log.posts == s.log.posts + [Post(m.pid, o)]
  {
    var one, two := Tick(at), Handle(h, PostFailed(reason));
    OneStep(c, s, one);
    RunSnoc(c, s, [one], two);
    steps := [one] + [two];
  }

  lemma RepublishRun(c: Config, s: State, h: nat, m: Message, reason: string, owned: bool) returns (steps: seq<Step>)
    requires Handling(s, h, m, Unsent(reason), owned) && (Route(RetryAddress(c, m)).Some? || !c.returnRaises)
    ensures Run(c, s, steps)
    ensures var t := Exec(c, s, steps);
            && Handling(t, h, m, Republished, owned) && TablesOf(t) == TablesOf(s) && t.log.posts == s.log.posts
            && t.broker == Publish(s.broker, RetryAddress(c, m), RetryMessage(c, m, reason), s.now)
  {
    steps := [Handle(h, Republish)];
    OneStep(c, s, steps[0]);
  }

  /** What a publish can do: it is accepted or raises, and a broker that returns
      unroutable messages does not accept one. */
  ghost predicate Sendable(c: Config, m: Message, e: Sending) {
    Possible(e) && (Route(RetryAddress(c, m)).None? && c.returnRaises ==> !e.accepted)
  }

  lemma RetryRun(c: Config, s: State, h: nat, m: Message, reason: string, owned: bool, e: Sending)
    returns (steps: seq<Step>)
    requires Handling(s, h, m, Unsent(reason), owned) && Sendable(c, m, e)
    ensures Run(c, s, steps)
    ensures var passed := AfterPublish(c, s.broker, m, reason, s.now, e);
            Over(Exec(c, s, steps), h, TablesOf(s), if e.raised then Dropped(passed, m, !owned) else passed, s.log.posts)
  {
    if !e.accepted {
      steps := NackRun(c, s, h, m, Unsent(reason), owned);
    } else {
      var one := RepublishRun(c, s, h, m, reason, owned);
      var t := Exec(c, s, one);
      var two;
      if e.raised {
        two := NackRun(c, t, h, m, Republished, owned);
      } else {
        two := AckRun(c, t, h, m, Republished, owned);
      }
      RunConcat(c, s, one, two);
      steps := one + two;
    }
  }

  /** The posts of a handler: none unless the request went out. */
  ghost function PostsFor(m: Message, reach: Reach, env: Surroundings): seq<Post> {
    if reach.AtWebhook? && (env.Reply().Delivered? || env.Reply().SendError?) then [Post(m.pid, reach.outcome)] else []
  }

  lemma WebhookRun(c: Config, s: State, h: nat, m: Message, o: Outcome, env: Surroundings, e: Sending)
    returns (steps: seq<Step>)
    requires Handling(s, h, m, Ready(o), !env.takenBack) && s.now <= env.repliedAt
    requires env.Reply().SendError? ==> Sendable(c, m, e)
    ensures Run(c, s, steps)
    ensures Over(Exec(c, s, steps), h, TablesOf(s), QueuesAfter(c, s.broker, m, AtWebhook(o), env, e),
                 s.log.posts + PostsFor(m, AtWebhook(o), env))
  {
    match env.Reply()
    case Delivered =>
      steps := DeliveredRun(c, s, h, m, o, !env.takenBack);
    case SendError(reason) =>
      var one := UnsentRun(c, s, h, m, o, !env.takenBack, reason, env.repliedAt);
      assert RetryAddress(c, WithFailure(m, env.repliedAt)) == RetryAddress(c, m);
      var two := RetryRun(c, Exec(c, s, one), h, WithFailure(m, env.repliedAt), reason, !env.takenBack, e);
      RunConcat(c, s, one, two);
      steps := one + two;
    case _ =>
      steps := NackRun(c, s, h, m, Ready(o), !env.takenBack);
      assert s.log.posts + [] == s.log.posts;
  }

  // ---- The update

  /** The handler's update has taken place, if it makes one. */
  ghost function AfterUpdate(v: State, h: nat, p: PaymentId, env: Surroundings): State {
    if h in v.handlers && v.handlers[h].phase.Window? && env.processing.Processed? && !env.commitRaises
       && p in v.payments && p in v.log.outcomes
    then StoreOutcome(Enter(v, h, Ready(ProcessedOutcome(env))), p, ProcessedOutcome(env))
    else v
  }

  lemma UpdateRun(c: Config, v: State, h: nat, m: Message, owned: bool, env: Surroundings) returns (steps: seq<Step>)
    requires Handling(v, h, m, Window, owned) && m.pid in v.payments && m.pid in v.log.outcomes
    requires env.processing.Processed? && !env.commitRaises
    requires env.processedAt == v.now && !RowLocked(v, h, m.pid)
    ensures Run(c, v, steps) && Exec(c, v, steps) == AfterUpdate(v, h, m.pid, env)
  {
    var o := ProcessedOutcome(env);
    var one, two := Handle(h, ApplyOutcome(env.processing.succeeded)), Handle(h, CommitOutcome);
    OneStep(c, v, one);
    RunSnoc(c, v, [one], two);
    assert Enter(Enter(v, h, Applied(o)), h, Ready(o)) == Enter(v, h, Ready(o)) by {
      assert v.handlers[h := v.handlers[h].(phase := Applied(o))][h := v.handlers[h].(phase := Ready(o))]
          == v.handlers[h := v.handlers[h].(phase := Ready(o))];
    }
    steps := [one] + [two];
  }

  /** After delivery and read of message `m`, the one at place `i`. */
  ghost function ReadBy(s: State, h: nat, i: nat): State
    requires i < |s.broker.incoming|
  {
    var m := s.broker.incoming[i];
    SetHandler(TakeMessage(s, i), h, Handler(m, ReadPhase(s, m.pid), true))
  }

  lemma ReadRun(c: Config, s: State, h: nat, i: nat) returns (steps: seq<Step>)
    requires WellFormed(s.broker) && h !in s.handlers && i < |s.broker.incoming|
    ensures Run(c, s, steps) && Exec(c, s, steps) == ReadBy(s, h, i)
  {
    var one, two := Handle(h, Deliver(i)), Handle(h, ReadPayment);
    OneStep(c, s, one);
    RunSnoc(c, s, [one], two);
    steps := [one] + [two];
  }

  lemma ReachedKnown(c: Config, s: State, h: nat)
    requires Reached(c, s) && h in s.handlers
    ensures WellFormed(s.broker) && s.handlers[h].msg.pid in s.payments && s.handlers[h].msg.pid in s.log.outcomes
    ensures s.handlers[h].phase != Missing
  {
    ReachedWellFormed(c, s);
    ReachedCreated(c, s);
    PaymentAlwaysFound(c, s, h);
  }

  /** What the read finds decides the phase and where the handler gets. */
  lemma Agree(s: State, v: State, h: nat, p: PaymentId, env: Surroundings)
    requires p in s.payments && p in v.payments && p in v.log.outcomes && env.later == TablesOf(v)
    requires h in v.handlers && v.handlers[h].phase == ReadPhase(s, p)
    ensures TablesOf(AfterUpdate(v, h, p, env)) == StoredAfter(TablesOf(s), p, env)
    ensures AfterUpdate(v, h, p, env).broker == v.broker && h in AfterUpdate(v, h, p, env).handlers
    ensures var x := AfterUpdate(v, h, p, env).handlers[h];
            && x.msg == v.handlers[h].msg && x.owned == v.handlers[h].owned
            && match Reaches(TablesOf(s), p, env)
               case Unknown => false
               case Stopped => x.phase == Window
               case AtWebhook(o) => x.phase == Ready(o)
  {
  }

  /** The rest of a handler, from the webhook on or from the exception. */
  lemma EndRun(c: Config, x: State, h: nat, m: Message, reach: Reach, env: Surroundings, e: Sending)
    returns (steps: seq<Step>)
    requires !reach.Unknown?
    requires Handling(x, h, m, if reach.Stopped? then Window else Ready(reach.outcome), !env.takenBack)
    requires reach.AtWebhook? ==> x.now <= env.repliedAt && (env.Reply().SendError? ==> Sendable(c, m, e))
    ensures Run(c, x, steps)
    ensures Over(Exec(c, x, steps), h, TablesOf(x), QueuesAfter(c, x.broker, m, reach, env, e),
                 x.log.posts + PostsFor(m, reach, env))
  {
    if reach.Stopped? {
      assert x.log.posts + [] == x.log.posts;
      steps := NackRun(c, x, h, m, Window, !env.takenBack);
    } else {
      steps := WebhookRun(c, x, h, m, reach.outcome, env, e);
    }
  }

  /** The run up to the update, or up to where it would be. */
  lemma UpToUpdate(c: Config, v: State, h: nat, m: Message, owned: bool, env: Surroundings) returns (steps: seq<Step>)
    requires h in v.handlers && v.handlers[h].msg == m && v.handlers[h].owned == owned
    requires WellFormed(v.broker) && m.pid in v.payments && m.pid in v.log.outcomes
    requires v.handlers[h].phase == Window && env.processing.Processed? && !env.commitRaises ==>
               env.processedAt == v.now && !RowLocked(v, h, m.pid)
    ensures Run(c, v, steps) && Exec(c, v, steps) == AfterUpdate(v, h, m.pid, env)
  {
    if v.handlers[h].phase == Window && env.processing.Processed? && !env.commitRaises {
      steps := UpdateRun(c, v, h, m, owned, env);
    } else {
      steps := [];
    }
  }

  /** A handler of the pipeline, whatever other participants do between its read
      and its update and between its update and its webhook, and whether or not
      the broker takes its delivery back meanwhile: it can do what
      `HandlePaymentCreated` says. Its update gives the tables of the contract;
      from the webhook on it leaves them alone, and the queues and the posts
      change as the contract says. It never fails to find its payment. */
  lemma HandleIsARun(c: Config, s: State, h: nat, i: nat, m: Message, env: Surroundings, e: Sending,
                     others: seq<Step>, v: State, more: seq<Step>, x: State)
    returns (read: seq<Step>, update: seq<Step>, end: seq<Step>)
    requires Reached(c, s) && h !in s.handlers && i < |s.broker.incoming| && m == s.broker.incoming[i]
    requires Run(c, ReadBy(s, h, i), others) && LeavesHandler(h, others) && v == Exec(c, ReadBy(s, h, i), others)
    requires env.later == TablesOf(v)
    requires ReadPhase(s, m.pid) == Window && env.processing.Processed? && !env.commitRaises ==>
               env.processedAt == v.now && !RowLocked(v, h, m.pid)
    requires Run(c, AfterUpdate(v, h, m.pid, env), more) && LeavesHandler(h, more)
    requires x == Exec(c, AfterUpdate(v, h, m.pid, env), more)
    requires env.takenBack == (Handle(h, Requeue) in others || Handle(h, Requeue) in more)
    requires Reaches(TablesOf(s), m.pid, env).AtWebhook? ==>
               x.now <= env.repliedAt && (env.Reply().SendError? ==> Sendable(c, m, e))
    ensures Run(c, s, read) && Exec(c, s, read) == ReadBy(s, h, i)
    ensures Run(c, v, update) && Exec(c, v, update) == AfterUpdate(v, h, m.pid, env)
    ensures TablesOf(AfterUpdate(v, h, m.pid, env)) == StoredAfter(TablesOf(s), m.pid, env)
    ensures Run(c, x, end) && EndsAs(c, h, m, Reaches(TablesOf(s), m.pid, env), env, e, x, Exec(c, x, end))
  {
    ReachedWellFormed(c, s);
    read := ReadRun(c, s, h, i);
    ReachedRun(c, s, read);
    ReachedKnown(c, ReadBy(s, h, i), h);
    HandlerWaits(c, ReadBy(s, h, i), others, h);
    ReachedRun(c, ReadBy(s, h, i), others);
    ReachedKnown(c, v, h);
    update := UpToUpdate(c, v, h, m, v.handlers[h].owned, env);
    Agree(s, v, h, m.pid, env);
    ReachedRun(c, v, update);
    HandlerWaits(c, AfterUpdate(v, h, m.pid, env), more, h);
    ReachedRun(c, AfterUpdate(v, h, m.pid, env), more);
    ReachedKnown(c, x, h);
    end := EndRun(c, x, h, m, Reaches(TablesOf(s), m.pid, env), env, e);
  }

  /** From `x` to `t` the handler of `m` has ended: the tables are as they were,
      the queues and the posts as `HandlePaymentCreated` leaves them. */
  ghost predicate EndsAs(c: Config, h: nat, m: Message, reach: Reach, env: Surroundings, e: Sending, x: State, t: State) {
    && WellFormed(x.broker) && !reach.Unknown?
    && Over(t, h, TablesOf(x), QueuesAfter(c, x.broker, m, reach, env, e), x.log.posts + PostsFor(m, reach, env))
  }
}
