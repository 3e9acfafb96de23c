/** What is stored is what was asked for: in every run each payment goes back to
    the steps of the one request that created it. */
module Requested {
  import opened Basics
  import opened Entities
  import opened Pipeline
  import opened PaymentService
  import opened Creation
  import opened Guarantees

  /** Step `i` began request `r` with this body at the time `at`, and the request
      has not begun anew since. */
  ghost predicate BegunAt(c: Config, steps: seq<Step>, i: nat, r: nat, key: string, body: Body, at: real) {
    && i < |steps| && steps[i] == Api(r, Begin(key, body.terms, body.note))
    && Run(c, Init(), steps[..i]) && Exec(c, Init(), steps[..i]).now == at
    && forall j | i < j < |steps| :: !(steps[j].Api? && steps[j].r == r && steps[j].api.Begin?)
  }

  /** Step `j` is the commit of request `r`: the payment appears with one row,
      both as requested. */
  ghost predicate StoredAt(c: Config, steps: seq<Step>, j: nat, r: nat, p: PaymentId, key: string, body: Body, at: real) {
    && j < |steps| && steps[j] == Api(r, Commit)
    && Run(c, Init(), steps[..j]) && Enabled(c, Exec(c, Init(), steps[..j]), steps[j])
    && Appears(Exec(c, Init(), steps[..j]), Next(c, Exec(c, Init(), steps[..j]), steps[j]), p, key, body, at)
  }

  ghost predicate Appears(s: State, t: State, p: PaymentId, key: string, body: Body, at: real) {
    && p !in s.payments && p in t.payments && t.payments - {p} == s.payments
    && exists rid: RowId :: rid !in s.outbox && rid in t.outbox && t.outbox - {rid} == s.outbox
                            && AsRequested(t.payments[p], t.outbox[rid], p, key, body, at)
  }

  ghost predicate Asked(p: Payment, key: string, body: Body) {
    p.key == key && p.terms == body.terms && p.note == body.note
  }

  // ---- One step

  lemma CommitAppears(s: State, r: nat)
    requires ApiEnabled(s, r, Commit) && NotStored(s, r)
    ensures var q := s.requests[r];
            Appears(s, ApiNext(s, r, Commit), q.phase.id, q.key, Body(q.terms, q.note), q.begunAt)
  {
    var q, t := s.requests[r], ApiNext(s, r, Commit);
    assert t.payments - {q.phase.id} == s.payments;
    assert t.outbox - {q.phase.rid} == s.outbox;
    assert AsRequested(t.payments[q.phase.id], t.outbox[q.phase.rid], q.phase.id, q.key, Body(q.terms, q.note), q.begunAt);
  }

  /** The request keeps what it asked for. */
  ghost predicate SameBody(s: State, t: State, r: nat) {
    && r in s.requests && r in t.requests
    && t.requests[r] == s.requests[r].(phase := t.requests[r].phase)
  }

  lemma InsertSameBody(s: State, k: nat, id: PaymentId, rival: Option<PaymentId>, r: nat)
    requires k in s.requests && r in InsertNext(s, k, id, rival).requests
    ensures SameBody(s, InsertNext(s, k, id, rival), r)
  {
  }

  lemma BeginSameBody(s: State, k: nat, a: ApiStep, r: nat)
    requires ApiEnabled(s, k, a) && a.Begin? && r in ApiNext(s, k, a).requests && k != r
    ensures SameBody(s, ApiNext(s, k, a), r)
  {
  }

  lemma ApiSameBody(s: State, k: nat, a: ApiStep, r: nat)
    requires ApiEnabled(s, k, a) && r in ApiNext(s, k, a).requests && !(k == r && a.Begin?)
    ensures SameBody(s, ApiNext(s, k, a), r)
  {
    match a
    case Begin(_, _, _) => BeginSameBody(s, k, a, r);
    case Lookup(None) =>
    case Lookup(Some(_)) =>
    case Insert(id, rival) => InsertSameBody(s, k, id, rival, r);
    case Enqueue(_) =>
    case Commit =>
    case Withdraw =>
  }

  lemma StepSameBody(c: Config, s: State, step: Step, r: nat)
    requires Enabled(c, s, step) && r in Next(c, s, step).requests
    requires !(step.Api? && step.r == r && step.api.Begin?)
    ensures SameBody(s, Next(c, s, step), r)
  {
    match step
    case Api(k, a) => ApiSameBody(s, k, a, r);
    case Dispatch(d, a) => DispatchKeeps(c, s, d, a);
    case Handle(h, a) => HandlerKeeps(c, s, h, a);
    case Expire(_) =>
    case Tick(_) =>
  }

  lemma StepKeepsAsked(c: Config, s: State, step: Step, p: PaymentId, key: string, body: Body)
    requires Reached(c, s) && Enabled(c, s, step) && p in s.payments && Asked(s.payments[p], key, body)
    ensures p in Next(c, s, step).payments && Asked(Next(c, s, step).payments[p], key, body)
  {
    ReachedCreated(c, s);
    match step
    case Api(r, a) => ApiKeepsAsked(s, r, a, p, key, body);
    case Dispatch(d, a) => DispatchKeeps(c, s, d, a);
    case Handle(h, a) => HandlerKeepsPayments(c, s, h, a);
    case Expire(_) =>
    case Tick(_) =>
  }

  lemma ApiKeepsAsked(s: State, r: nat, a: ApiStep, p: PaymentId, key: string, body: Body)
    requires Created(s) && ApiEnabled(s, r, a) && p in s.payments && Asked(s.payments[p], key, body)
    ensures p in ApiNext(s, r, a).payments && Asked(ApiNext(s, r, a).payments[p], key, body)
  {
    if a.Commit? {
      FreshIdsNotStored(s, r);
    } else {
      ApiKeepsTables(s, r, a);
    }
  }

  /** Only a commit makes a payment appear. */
  lemma AppearsByCommit(c: Config, s: State, step: Step, p: PaymentId) returns (r: nat)
    requires Reached(c, s) && Enabled(c, s, step) && p !in s.payments && p in Next(c, s, step).payments
    ensures step == Api(r, Commit) && r in s.requests && s.requests[r].phase.Enqueued? && s.requests[r].phase.id == p
    ensures var q := s.requests[r];
            Appears(s, Next(c, s, step), p, q.key, Body(q.terms, q.note), q.begunAt)
  {
    ReachedCreated(c, s);
    match step
    case Api(k, a) =>
      r := k;
      if a.Commit? {
        FreshIdsNotStored(s, k);
        CommitAppears(s, k);
      } else {
        ApiKeepsTables(s, k, a);
        assert false;
      }
    case Dispatch(d, a) => DispatchKeeps(c, s, d, a); assert false;
    case Handle(h, a) => HandlerKeepsPayments(c, s, h, a); assert false;
    case Expire(_) => assert false;
    case Tick(_) => assert false;
  }

  // ---- Whole runs

  /** What is asked for never changes once the payment is stored. */
  lemma {:induction false} AskedAlways(c: Config, s: State, steps: seq<Step>, p: PaymentId)
    requires Reached(c, s) && Run(c, s, steps) && p in s.payments
    ensures p in Exec(c, s, steps).payments
    ensures Asked(Exec(c, s, steps).payments[p], s.payments[p].key, Body(s.payments[p].terms, s.payments[p].note))
    decreases |steps|
  {
    if steps != [] {
      var init := steps[..|steps| - 1];
      AskedAlways(c, s, init, p);
      ReachedRun(c, s, init);
      var was := s.payments[p];
      StepKeepsAsked(c, Exec(c, s, init), steps[|steps| - 1], p, was.key, Body(was.terms, was.note));
    }
  }

  lemma BegunLonger(c: Config, steps: seq<Step>, step: Step, i: nat, r: nat, key: string, body: Body, at: real)
    requires BegunAt(c, steps, i, r, key, body, at) && !(step.Api? && step.r == r && step.api.Begin?)
    ensures BegunAt(c, steps + [step], i, r, key, body, at)
  {
    assert (steps + [step])[..i] == steps[..i];
  }

  /** An open request holds the key and the body it began with. */
  lemma {:induction false} OpenAsBegun(c: Config, steps: seq<Step>, r: nat) returns (i: nat)
    requires Run(c, Init(), steps) && r in Exec(c, Init(), steps).requests
    ensures var q := Exec(c, Init(), steps).requests[r];
            BegunAt(c, steps, i, r, q.key, Body(q.terms, q.note), q.begunAt)
    decreases |steps|
  {
    var init, last := steps[..|steps| - 1], steps[|steps| - 1];
    var s := Exec(c, Init(), init);
    assert steps == init + [last];
    if last.Api? && last.r == r && last.api.Begin? {
      i := |init|;
    } else {
      StepSameBody(c, s, last, r);
      i := OpenAsBegun(c, init, r);
      var q := s.requests[r];
      BegunLonger(c, init, last, i, r, q.key, Body(q.terms, q.note), q.begunAt);
    }
  }

  /** Request `r` began at step `i` and stored `p` at step `j`. */
  ghost predicate CreatedBy(c: Config, steps: seq<Step>, p: PaymentId, key: string, body: Body, i: nat, j: nat, r: nat, at: real) {
    && StoredAt(c, steps, j, r, p, key, body, at)
    && BegunAt(c, steps[..j], i, r, key, body, at)
  }

  lemma CreatedLonger(c: Config, steps: seq<Step>, step: Step, p: PaymentId, key: string, body: Body, i: nat, j: nat, r: nat, at: real)
    requires CreatedBy(c, steps, p, key, body, i, j, r, at)
    ensures CreatedBy(c, steps + [step], p, key, body, i, j, r, at)
  {
    assert (steps + [step])[..j] == steps[..j];
  }

  lemma StoredEarlier(c: Config, init: seq<Step>, last: Step, p: PaymentId, i: nat, j: nat, r: nat, at: real)
    requires Run(c, Init(), init) && Enabled(c, Exec(c, Init(), init), last)
    requires p in Exec(c, Init(), init).payments
    requires var was := Exec(c, Init(), init).payments[p];
             CreatedBy(c, init, p, was.key, Body(was.terms, was.note), i, j, r, at)
    ensures Run(c, Init(), init + [last]) && p in Exec(c, Init(), init + [last]).payments
    ensures var now := Exec(c, Init(), init + [last]).payments[p];
            CreatedBy(c, init + [last], p, now.key, Body(now.terms, now.note), i, j, r, at)
  {
    RunSnoc(c, Init(), init, last);
    var was := Exec(c, Init(), init).payments[p];
    var body := Body(was.terms, was.note);
    CreatedLonger(c, init, last, p, was.key, body, i, j, r, at);
    StepKeepsAsked(c, Exec(c, Init(), init), last, p, was.key, body);
    var now := Exec(c, Init(), init + [last]).payments[p];
    assert Body(now.terms, now.note) == body;
  }

  /** In every run each stored payment has the key, the terms and the note of the
      request that created it. It was stored by the commit of that request,
      PENDING and with one row, which is due from the moment the request began. */
  lemma {:induction false} StoredAsRequested(c: Config, steps: seq<Step>, p: PaymentId)
    returns (i: nat, j: nat, r: nat, at: real)
    requires Run(c, Init(), steps) && p in Exec(c, Init(), steps).payments
    ensures var payment := Exec(c, Init(), steps).payments[p];
            CreatedBy(c, steps, p, payment.key, Body(payment.terms, payment.note), i, j, r, at)
    decreases |steps|
  {
    var init, last := steps[..|steps| - 1], steps[|steps| - 1];
    var s := Exec(c, Init(), init);
    assert steps == init + [last];
    if p in s.payments {
      i, j, r, at := StoredAsRequested(c, init, p);
      StoredEarlier(c, init, last, p, i, j, r, at);
    } else {
      r := AppearsByCommit(c, s, last, p);
      i := OpenAsBegun(c, init, r);
      j, at := |init|, s.requests[r].begunAt;
    }
  }
}
