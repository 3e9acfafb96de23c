/** When an outcome can be written twice: exactly when two handlers of the
    payment have read it PENDING and not committed yet, or one has and the
    payment has an outcome already. */
module Overlap {
  import opened Basics
  import opened Entities
  import opened Pipeline
  import opened Creation
  import opened Outcomes
  import opened Guarantees

  ghost predicate WindowOn(s: State, h: nat, p: PaymentId) {
    h in s.handlers && InWindow(s.handlers[h]) && s.handlers[h].msg.pid == p
  }

  ghost predicate Processed(s: State, p: PaymentId) {
    p in s.payments && s.payments[p].outcome.status != Pending
  }

  ghost predicate Hazard(s: State, p: PaymentId) {
    || (exists h: nat, k: nat :: h != k && WindowOn(s, h, p) && WindowOn(s, k, p))
    || (Processed(s, p) && exists h: nat :: WindowOn(s, h, p))
  }

  /** No handler reads a payment during the run. */
  predicate NoReads(steps: seq<Step>) {
    forall step | step in steps :: !(step.Handle? && step.handle.ReadPayment?)
  }

  /** The commit handler `h` is about to make replaces an outcome of `p`. */
  ghost predicate Overwrites(c: Config, s: State, h: nat, p: PaymentId) {
    WindowOn(s, h, p) && Processed(s, p) && Enabled(c, s, Handle(h, CommitOutcome))
  }

  ghost predicate LeadsToOverwrite(c: Config, s: State, steps: seq<Step>, h: nat, p: PaymentId) {
    NoReads(steps) && Run(c, s, steps) && Overwrites(c, Exec(c, s, steps), h, p)
  }

  // ---- Without a hazard

  lemma HazardSet(s: State, h: nat, x: Handler, p: PaymentId)
    requires !Hazard(s, p)
    requires InWindow(x) && x.msg.pid == p ==> WindowOn(s, h, p)
    ensures !Hazard(SetHandler(s, h, x), p)
  {
    var t := SetHandler(s, h, x);
    forall k | WindowOn(t, k, p) ensures WindowOn(s, k, p) {
    }
  }

  lemma HazardFrame(s: State, t: State, p: PaymentId)
    requires !Hazard(s, p) && (Processed(t, p) ==> Processed(s, p))
    requires forall k | k in t.handlers :: k in s.handlers && t.handlers[k] == s.handlers[k]
    ensures !Hazard(t, p)
  {
    forall k | WindowOn(t, k, p) ensures WindowOn(s, k, p) {
    }
  }

  /** Committing ends the only window there was. */
  lemma HazardCommit(s: State, h: nat, p: PaymentId)
    requires !Hazard(s, p) && h in s.handlers && s.handlers[h].phase.Applied?
    requires s.handlers[h].msg.pid in s.payments && s.handlers[h].msg.pid in s.log.outcomes
    ensures var o := s.handlers[h].phase.outcome;
            !Hazard(StoreOutcome(Enter(s, h, Ready(o)), s.handlers[h].msg.pid, o), p)
  {
    var o := s.handlers[h].phase.outcome;
    var t := StoreOutcome(Enter(s, h, Ready(o)), s.handlers[h].msg.pid, o);
    if s.handlers[h].msg.pid == p {
      assert WindowOn(s, h, p);
    }
    forall k | WindowOn(t, k, p) ensures WindowOn(s, k, p) && k != h {
    }
  }

  lemma HazardHandle(c: Config, s: State, h: nat, a: HandlerStep, p: PaymentId)
    requires !Hazard(s, p) && WellFormed(s.broker) && HandlerEnabled(c, s, h, a) && !a.ReadPayment?
    ensures !Hazard(HandlerNext(c, s, h, a), p)
  {
    match a
    case Deliver(i) =>
      HazardFrame(s, TakeMessage(s, i), p);
      HazardSet(TakeMessage(s, i), h, Handler(s.broker.incoming[i], Got, true), p);
    case ApplyOutcome(succeeded) =>
      HazardSet(s, h, s.handlers[h].(phase := ApplyPhase(s, s.handlers[h].msg.pid, succeeded)), p);
    case CommitOutcome => HazardCommit(s, h, p);
    case PostDelivered =>
      HazardSet(s, h, s.handlers[h].(phase := Notified), p);
      HazardFrame(Enter(s, h, Notified), HandlerNext(c, s, h, a), p);
    case PostFailed(reason) =>
      var y := Handler(WithFailure(s.handlers[h].msg, s.now), Unsent(reason), s.handlers[h].owned);
      HazardSet(s, h, y, p);
      HazardFrame(SetHandler(s, h, y), HandlerNext(c, s, h, a), p);
    case Republish =>
      HazardSet(s, h, s.handlers[h].(phase := Republished), p);
      HazardFrame(Enter(s, h, Republished), HandlerNext(c, s, h, a), p);
    case Ack => HazardFrame(s, EndHandler(s, h), p);
    case Reject =>
      DropKeepsPayments(s, h);
      HazardFrame(s, Drop(s, h), p);
    case Nack =>
      DropKeepsPayments(s, h);
      HazardFrame(s, Drop(s, h), p);
    case Requeue =>
      HazardSet(s, h, s.handlers[h].(owned := false), p);
      HazardFrame(SetHandler(s, h, s.handlers[h].(owned := false)), HandlerNext(c, s, h, a), p);
    case Die => HazardFrame(s, EndHandler(s, h), p);
  }

  lemma HazardStore(s: State, r: nat, p: PaymentId)
    requires !Hazard(s, p) && NotStored(s, r) && ApiEnabled(s, r, Commit)
    ensures !Hazard(ApiNext(s, r, Commit), p)
  {
    HazardFrame(s, ApiNext(s, r, Commit), p);
  }

  lemma HazardStep(c: Config, s: State, step: Step, p: PaymentId)
    requires !Hazard(s, p) && p in s.payments && Created(s) && Enabled(c, s, step)
    requires !(step.Handle? && step.handle.ReadPayment?)
    ensures !Hazard(Next(c, s, step), p)
  {
    if step.Handle? {
      HazardHandle(c, s, step.h, step.handle, p);
    } else if step.Api? && step.api.Commit? {
      FreshIdsNotStored(s, step.r);
      HazardStore(s, step.r, p);
    } else {
      OtherStepsKeepPayments(c, s, step);
      OtherStepsKeepHandlers(c, s, step);
      HazardFrame(s, Next(c, s, step), p);
    }
  }

  lemma OtherStepsKeepHandlers(c: Config, s: State, step: Step)
    requires Enabled(c, s, step) && !step.Handle? && !(step.Api? && step.api.Commit?)
    ensures Next(c, s, step).handlers == s.handlers
  {
    match step
    case Api(r, a) => ApiKeepsTables(s, r, a);
    case Dispatch(d, a) => DispatchKeeps(c, s, d, a);
    case Expire(n) =>
    case Tick(_) =>
  }

  lemma PaymentsStay(c: Config, s: State, step: Step, p: PaymentId)
    requires Created(s) && Enabled(c, s, step) && p in s.payments
    ensures p in Next(c, s, step).payments
  {
    if !WritesPayments(step) {
      OtherStepsKeepPayments(c, s, step);
    }
  }

  lemma {:induction false} NoHazardStays(c: Config, s: State, steps: seq<Step>, p: PaymentId)
    requires !Hazard(s, p) && p in s.payments && Created(s) && Run(c, s, steps) && NoReads(steps)
    ensures !Hazard(Exec(c, s, steps), p) && p in Exec(c, s, steps).payments && Created(Exec(c, s, steps))
    decreases |steps|
  {
    if steps != [] {
      var init := steps[..|steps| - 1];
      NoHazardStays(c, s, init, p);
      assert steps[|steps| - 1] in steps;
      HazardStep(c, Exec(c, s, init), steps[|steps| - 1], p);
      PaymentsStay(c, Exec(c, s, init), steps[|steps| - 1], p);
      CreatedStep(c, Exec(c, s, init), steps[|steps| - 1]);
    }
  }

  // ---- With a hazard

  ghost predicate CanCommit(s: State, h: nat, p: PaymentId) {
    WindowOn(s, h, p) && s.handlers[h].phase.Applied? && p in s.payments && p in s.log.outcomes
  }

  /** Some handler can commit an outcome of `p` next, or after one update. */
  lemma Approach(c: Config, s: State, p: PaymentId, h: nat) returns (steps: seq<Step>, k: nat)
    requires WindowOn(s, h, p) && p in s.payments && p in s.log.outcomes && WellFormed(s.broker)
    ensures NoReads(steps) && Run(c, s, steps)
    ensures var t := Exec(c, s, steps);
            && CanCommit(t, k, p) && WellFormed(t.broker)
            && t.payments == s.payments && t.log == s.log
            && (forall x: nat :: WindowOn(t, x, p) <==> WindowOn(s, x, p))
  {
    if x: nat :| x in s.handlers && s.handlers[x].phase.Applied? && s.handlers[x].msg.pid == p {
      steps, k := [], x;
    } else {
      steps, k := [Handle(h, ApplyOutcome(true))], h;
      assert Enabled(c, s, Handle(h, ApplyOutcome(true)));
      OneStep(c, s, Handle(h, ApplyOutcome(true)));
      var t := Exec(c, s, steps);
      assert t == Enter(s, h, Applied(Outcome(Succeeded, Some(s.now))));
    }
  }

  ghost predicate StillOpen(s: State, t: State, k: nat, p: PaymentId) {
    forall x: nat | x != k :: WindowOn(t, x, p) <==> WindowOn(s, x, p)
  }

  lemma CommitOne(c: Config, s: State, k: nat, p: PaymentId)
    requires CanCommit(s, k, p) && Truthful(s) && WellFormed(s.broker)
    ensures Enabled(c, s, Handle(k, CommitOutcome))
    ensures var t := Next(c, s, Handle(k, CommitOutcome));
            Processed(t, p) && p in t.log.outcomes && WellFormed(t.broker) && StillOpen(s, t, k, p)
  {
    assert Backed(s.handlers[k], s.log.outcomes);
    assert Enabled(c, s, Handle(k, CommitOutcome));
    var t := HandlerNext(c, s, k, CommitOutcome);
    assert t.handlers == s.handlers[k := s.handlers[k].(phase := Ready(s.handlers[k].phase.outcome))];
  }

  lemma {:induction false} TruthfulRun(c: Config, s: State, steps: seq<Step>)
    requires Created(s) && Truthful(s) && Run(c, s, steps)
    ensures Created(Exec(c, s, steps)) && Truthful(Exec(c, s, steps))
    decreases |steps|
  {
    if steps != [] {
      var init := steps[..|steps| - 1];
      TruthfulRun(c, s, init);
      CreatedStep(c, Exec(c, s, init), steps[|steps| - 1]);
      TruthfulStep(c, Exec(c, s, init), steps[|steps| - 1]);
    }
  }

  /** An open window on a payment with an outcome: the next commit overwrites it. */
  lemma OverwriteProcessed(c: Config, s: State, p: PaymentId, h: nat) returns (steps: seq<Step>, k: nat)
    requires WindowOn(s, h, p) && Processed(s, p) && p in s.log.outcomes && WellFormed(s.broker)
    ensures LeadsToOverwrite(c, s, steps, k, p)
  {
    steps, k := Approach(c, s, p, h);
  }

  lemma OpenThroughout(s: State, u: State, t: State, k: nat, p: PaymentId)
    requires (forall x: nat :: WindowOn(u, x, p) <==> WindowOn(s, x, p)) && StillOpen(u, t, k, p)
    ensures StillOpen(s, t, k, p)
  {
    forall x: nat | x != k ensures WindowOn(t, x, p) <==> WindowOn(s, x, p) {
      assert WindowOn(u, x, p) <==> WindowOn(s, x, p);
    }
  }

  lemma CommitAfter(c: Config, s: State, before: seq<Step>, k: nat, p: PaymentId)
    requires Run(c, s, before) && Created(s) && Truthful(s)
    requires CanCommit(Exec(c, s, before), k, p) && WellFormed(Exec(c, s, before).broker)
    ensures Run(c, s, before + [Handle(k, CommitOutcome)])
    ensures var t := Exec(c, s, before + [Handle(k, CommitOutcome)]);
            Processed(t, p) && p in t.log.outcomes && WellFormed(t.broker) && StillOpen(Exec(c, s, before), t, k, p)
  {
    TruthfulRun(c, s, before);
    CommitOne(c, Exec(c, s, before), k, p);
    RunSnoc(c, s, before, Handle(k, CommitOutcome));
  }

  /** One of the windows commits, the others stay open. */
  lemma FirstCommit(c: Config, s: State, p: PaymentId, h: nat) returns (steps: seq<Step>, k: nat)
    requires WindowOn(s, h, p)
    requires p in s.payments && p in s.log.outcomes && Created(s) && Truthful(s) && WellFormed(s.broker)
    ensures NoReads(steps) && Run(c, s, steps)
    ensures var t := Exec(c, s, steps);
            Processed(t, p) && p in t.log.outcomes && WellFormed(t.broker) && StillOpen(s, t, k, p)
  {
    var before;
    before, k := Approach(c, s, p, h);
    CommitAfter(c, s, before, k, p);
    steps := before + [Handle(k, CommitOutcome)];
    OpenThroughout(s, Exec(c, s, before), Exec(c, s, steps), k, p);
  }

  /** Two open windows: the first commit gives the outcome, the second replaces it. */
  lemma OverwriteTwice(c: Config, s: State, p: PaymentId, h1: nat, h2: nat) returns (steps: seq<Step>, k: nat)
    requires WindowOn(s, h1, p) && WindowOn(s, h2, p) && h1 != h2
    requires p in s.payments && p in s.log.outcomes && Created(s) && Truthful(s) && WellFormed(s.broker)
    ensures LeadsToOverwrite(c, s, steps, k, p)
  {
    var first, done := FirstCommit(c, s, p, h1);
    var other := if done == h1 then h2 else h1;
    assert WindowOn(s, other, p);
    var second;
    second, k := OverwriteProcessed(c, Exec(c, s, first), p, other);
    RunConcat(c, s, first, second);
    steps := first + second;
  }

  lemma NoHazardNoOverwrite(c: Config, s: State, p: PaymentId, steps: seq<Step>, k: nat)
    requires !Hazard(s, p) && p in s.payments && Created(s)
    ensures !LeadsToOverwrite(c, s, steps, k, p)
  {
    if LeadsToOverwrite(c, s, steps, k, p) {
      NoHazardStays(c, s, steps, p);
    }
  }

  /** From a state of the pipeline, an outcome of `p` can be overwritten
      without any further read exactly when there is a hazard. */
  lemma OverwritePossibleIffHazard(c: Config, s: State, p: PaymentId)
    requires Reached(c, s) && p in s.payments
    ensures (exists steps, k :: LeadsToOverwrite(c, s, steps, k, p)) <==> Hazard(s, p)
  {
    if Hazard(s, p) {
      ReachedHazardLeads(c, s, p);
    } else {
      ReachedCreated(c, s);
      forall steps, k: nat ensures !LeadsToOverwrite(c, s, steps, k, p) {
        NoHazardNoOverwrite(c, s, p, steps, k);
      }
    }
  }

  lemma ReachedHazardLeads(c: Config, s: State, p: PaymentId)
    requires Reached(c, s) && p in s.payments && Hazard(s, p)
    ensures exists steps, k :: LeadsToOverwrite(c, s, steps, k, p)
  {
    ReachedCreated(c, s);
    ReachedTruthful(c, s);
    ReachedWellFormed(c, s);
    HazardLeads(c, s, p);
  }

  lemma HazardLeads(c: Config, s: State, p: PaymentId)
    requires Created(s) && Truthful(s) && WellFormed(s.broker) && p in s.payments && Hazard(s, p)
    ensures exists steps, k :: LeadsToOverwrite(c, s, steps, k, p)
  {
    if h: nat, k: nat :| h != k && WindowOn(s, h, p) && WindowOn(s, k, p) {
      var steps, last := OverwriteTwice(c, s, p, h, k);
    } else {
      var h: nat :| WindowOn(s, h, p);
      var steps, last := OverwriteProcessed(c, s, p, h);
    }
  }
}
