/** The creation method and the step system: what one request does, with other
    participants at work between its lookup and its insert, is a run. */
module RequestRun {
  import opened Basics
  import opened Entities
  import opened Pipeline
  import opened Creation
  import opened PaymentService
  import opened Guarantees

  function TablesOf(s: State): Tables {
    Tables(s.payments, s.outbox)
  }

  /** None of the steps belongs to request `r`. */
  ghost predicate LeavesAlone(r: nat, steps: seq<Step>) {
    forall step | step in steps :: !(step.Api? && step.r == r)
  }

  lemma ApiElsewhere(s: State, k: nat, a: ApiStep, r: nat)
    requires ApiEnabled(s, k, a) && k != r && r in s.requests
    ensures r in ApiNext(s, k, a).requests && ApiNext(s, k, a).requests[r] == s.requests[r]
  {
    match a
    case Begin(_, _, _) =>
    case Lookup(None) =>
    case Lookup(Some(_)) =>
    case Insert(_, _) =>
    case Enqueue(_) =>
    case Commit =>
    case Withdraw =>
  }

  lemma RequestKept(c: Config, s: State, step: Step, r: nat)
    requires Enabled(c, s, step) && !(step.Api? && step.r == r) && r in s.requests
    ensures r in Next(c, s, step).requests && Next(c, s, step).requests[r] == s.requests[r]
  {
    match step
    case Api(k, a) => ApiElsewhere(s, k, a, r);
    case Dispatch(d, a) => DispatchKeeps(c, s, d, a);
    case Handle(h, a) => HandlerKeeps(c, s, h, a);
    case Expire(n) =>
    case Tick(t) =>
  }

  lemma {:induction false} RequestWaits(c: Config, s: State, steps: seq<Step>, r: nat)
    requires Run(c, s, steps) && LeavesAlone(r, steps) && r in s.requests
    ensures r in Exec(c, s, steps).requests && Exec(c, s, steps).requests[r] == s.requests[r]
    decreases |steps|
  {
    if steps != [] {
      var init, last := steps[..|steps| - 1], steps[|steps| - 1];
      assert last in steps;
      RequestWaits(c, s, init, r);
      RequestKept(c, Exec(c, s, init), last, r);
    }
  }

  lemma BeginAndLookup(c: Config, s: State, r: nat, key: string, body: Body, found: Option<PaymentId>)
    returns (steps: seq<Step>)
    requires WellFormed(s.broker) && r !in s.requests && FoundByKey(s, key, found)
    ensures Run(c, s, steps)
    ensures var q := Request(key, body.terms, body.note, s.now, Arrived);
            && r in SetRequest(s, r, q).requests
            && Exec(c, s, steps)
               == match found
                  case None => SetRequest(s, r, q.(phase := Unseen))
                  case Some(p) => Respond(SetRequest(s, r, q), r,
                                          if s.payments[p].terms == body.terms then Accepted(p) else Conflict)
  {
    var one := Api(r, Begin(key, body.terms, body.note));
    OneStep(c, s, one);
    RunSnoc(c, s, [one], Api(r, Lookup(found)));
    steps := [one] + [Api(r, Lookup(found))];
    if found.None? {
      var q := Request(key, body.terms, body.note, s.now, Arrived);
      assert s.requests[r := q][r := q.(phase := Unseen)] == s.requests[r := q.(phase := Unseen)];
    }
  }

  /** A request whose lookup found nothing is about to insert. */
  ghost predicate Inserting(v: State, r: nat, key: string, body: Body, at: real) {
    && WellFormed(v.broker) && r in v.requests
    && v.requests[r] == Request(key, body.terms, body.note, at, Unseen)
    && forall k | k in v.requests && k != r :: !HoldsKey(v.requests[k], key)
  }

  lemma InsertRefused(c: Config, v: State, r: nat, key: string, body: Body, at: real, id: PaymentId,
                      rival: Option<PaymentId>) returns (steps: seq<Step>)
    requires Inserting(v, r, key, body, at)
    requires body.terms.amount <= 0 || (rival.Some? && FoundByKey(v, key, rival))
    ensures Run(c, v, steps)
    ensures Exec(c, v, steps) == Respond(v, r, if body.terms.amount <= 0 then AmountNotPositive else Conflict)
  {
    steps := [Api(r, Insert(id, rival))];
    OneStep(c, v, steps[0]);
  }

  lemma InsertStarts(c: Config, v: State, r: nat, key: string, body: Body, at: real, id: PaymentId)
    requires Inserting(v, r, key, body, at) && body.terms.amount > 0
    requires FoundByKey(v, key, None) && id !in v.ids
    ensures Enabled(c, v, Api(r, Insert(id, None)))
    ensures Next(c, v, Api(r, Insert(id, None))) == UseId(SetPhase(v, r, Inserted(id)), id)
  {
  }

  lemma EnqueueStep(c: Config, u: State, r: nat, id: PaymentId, rid: RowId)
    requires WellFormed(u.broker) && r in u.requests && u.requests[r].phase == Inserted(id) && rid !in u.ids
    ensures Enabled(c, u, Api(r, Enqueue(rid)))
    ensures Next(c, u, Api(r, Enqueue(rid))) == UseId(SetPhase(u, r, Enqueued(id, rid)), rid)
  {
  }

  lemma CommitRequestStep(c: Config, u: State, r: nat, id: PaymentId, rid: RowId)
    requires WellFormed(u.broker) && r in u.requests && u.requests[r].phase == Enqueued(id, rid)
    ensures Enabled(c, u, Api(r, Commit))
    ensures Next(c, u, Api(r, Commit)) == Respond(Store(u, u.requests[r]), r, Accepted(id))
  {
  }

  lemma InsertAccepted(c: Config, v: State, r: nat, key: string, body: Body, at: real, id: PaymentId, rid: RowId)
    returns (steps: seq<Step>)
    requires Inserting(v, r, key, body, at) && body.terms.amount > 0
    requires FoundByKey(v, key, None) && id !in v.ids && rid !in v.ids && id != rid
    ensures Run(c, v, steps) && forall step | step in steps :: step.Api? && step.r == r
    ensures Answered(v, Exec(c, v, steps), WithPayment(TablesOf(v), id, rid, key, body, at),
                     Reply(key, body.terms, Accepted(id)))
  {
    var one, two, three := Api(r, Insert(id, None)), Api(r, Enqueue(rid)), Api(r, Commit);
    InsertStarts(c, v, r, key, body, at, id);
    OneStep(c, v, one);
    var u := UseId(SetPhase(v, r, Inserted(id)), id);
    EnqueueStep(c, u, r, id, rid);
    RunSnoc(c, v, [one], two);
    var w := UseId(SetPhase(u, r, Enqueued(id, rid)), rid);
    CommitRequestStep(c, w, r, id, rid);
    RunSnoc(c, v, [one] + [two], three);
    steps := [one] + [two] + [three];
  }

  /** The tables and the answer after a request has ended. */
  ghost predicate Answered(v: State, t: State, tables: Tables, reply: Reply) {
    TablesOf(t) == tables && t.log.replies == v.log.replies + [reply]
  }

  /** The answer of a request that did not find its key, by what holds at its insert. */
  function Answer(later: Tables, key: string, body: Body, id: PaymentId): Response {
    if body.terms.amount <= 0 then AmountNotPositive
    else if HasKey(later.payments, key) then Conflict
    else Accepted(id)
  }

  lemma LaterAnswer(c: Config, v: State, r: nat, key: string, body: Body, at: real, id: PaymentId, rid: RowId)
    returns (steps: seq<Step>)
    requires Inserting(v, r, key, body, at) && id !in v.ids && rid !in v.ids && id != rid
    ensures Run(c, v, steps)
    ensures Answered(v, Exec(c, v, steps),
                     if Answer(TablesOf(v), key, body, id).Accepted?
                     then WithPayment(TablesOf(v), id, rid, key, body, at) else TablesOf(v),
                     Reply(key, body.terms, Answer(TablesOf(v), key, body, id)))
  {
    if body.terms.amount <= 0 {
      steps := InsertRefused(c, v, r, key, body, at, id, None);
    } else if HasKey(v.payments, key) {
      var p :| p in v.payments && v.payments[p].key == key;
      steps := InsertRefused(c, v, r, key, body, at, id, Some(p));
    } else {
      steps := InsertAccepted(c, v, r, key, body, at, id, rid);
    }
  }

  /** What `CreatePayment` returns, as the step system records it. */
  ghost predicate SameAnswer(r: Result<Handed>, response: Response) {
    match response
    case Accepted(id) => r.Ok? && r.value.id == id
    case Conflict => r == Refused(IdempotencyKeyConflict)
    case AmountNotPositive => r == Refused(PaymentAmountNotPositive)
  }

  /** After a lookup that found nothing. */
  ghost function LookedUp(s: State, r: nat, key: string, body: Body): State {
    SetRequest(s, r, Request(key, body.terms, body.note, s.now, Unseen))
  }

  /** A request that finds no payment with its key at the lookup: whatever other
      participants do until its insert, it can end as `CreatePayment` says, with
      the same tables and the same answer. */
  lemma CreateIsARun(c: Config, s: State, r: nat, key: string, body: Body, others: seq<Step>,
                     v: State, id: PaymentId, rid: RowId, result: Result<Handed>)
    returns (looked: seq<Step>, steps: seq<Step>, t: State)
    requires Reached(c, s) && r !in s.requests && !HasKey(s.payments, key)
    requires Run(c, LookedUp(s, r, key, body), others) && LeavesAlone(r, others)
    requires v == Exec(c, LookedUp(s, r, key, body), others)
    requires forall k | k in v.requests && k != r :: !HoldsKey(v.requests[k], key)
    requires id !in v.ids && rid !in v.ids && id != rid
    requires AnswersAs(TablesOf(s), TablesOf(v), key, body, true, id, rid, result)
    ensures Run(c, s, looked) && Exec(c, s, looked) == LookedUp(s, r, key, body)
    ensures Run(c, v, steps) && t == Exec(c, v, steps)
    ensures TablesOf(t) == if Inserts(TablesOf(s), TablesOf(v), key, body, true, id, rid)
                           then WithPayment(TablesOf(v), id, rid, key, body, s.now) else TablesOf(v)
    ensures |t.log.replies| == |v.log.replies| + 1 && t.log.replies[|v.log.replies|].key == key
    ensures SameAnswer(result, t.log.replies[|v.log.replies|].response)
  {
    ReachedWellFormed(c, s);
    looked := BeginAndLookup(c, s, r, key, body, None);
    ReachedRun(c, s, looked);
    RequestWaits(c, LookedUp(s, r, key, body), others, r);
    ReachedRun(c, LookedUp(s, r, key, body), others);
    ReachedWellFormed(c, v);
    FreshInTables(c, v, id, rid);
    steps := LaterAnswer(c, v, r, key, body, s.now, id, rid);
    t := Exec(c, v, steps);
  }

  /** A request that finds a payment with its key ends as `CreatePayment` says. */
  lemma ReplayIsARun(c: Config, s: State, r: nat, key: string, body: Body, p: PaymentId, later: Tables,
                     id: PaymentId, rid: RowId, result: Result<Handed>)
    returns (steps: seq<Step>, t: State)
    requires Reached(c, s) && r !in s.requests && p in s.payments && s.payments[p].key == key
    requires AnswersAs(TablesOf(s), later, key, body, true, id, rid, result)
    ensures Run(c, s, steps) && t == Exec(c, s, steps)
    ensures TablesOf(t) == TablesOf(s)
    ensures |t.log.replies| == |s.log.replies| + 1 && t.log.replies[|s.log.replies|].key == key
    ensures SameAnswer(result, t.log.replies[|s.log.replies|].response)
  {
    ReachedWellFormed(c, s);
    ReachedKeys(c, s);
    StoredKeyDecides(TablesOf(s), later, key, p, body, id, rid, result);
    steps := BeginAndLookup(c, s, r, key, body, Some(p));
    t := Exec(c, s, steps);
  }

  lemma FreshInTables(c: Config, v: State, id: PaymentId, rid: RowId)
    requires Reached(c, v) && id !in v.ids && rid !in v.ids
    ensures id !in v.payments && rid !in v.outbox
  {
    ReachedCreated(c, v);
  }
}
