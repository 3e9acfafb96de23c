/** What requests are told once a payment with their key is committed. */
module Replies {
  import opened Basics
  import opened Entities
  import opened OutboxQuery
  import opened Pipeline
  import opened PaymentService
  import opened Creation
  import opened Guarantees
  import opened RequestRun

  /** Payment `p` with this key and these terms is committed. */
  ghost predicate KeyHeld(s: State, p: PaymentId, key: string, terms: Terms) {
    p in s.payments && s.payments[p].key == key && s.payments[p].terms == terms
  }

  /** The open requests that have found the key free: they have lost the race. */
  ghost function Losers(requests: map<nat, Request>, key: string): set<nat> {
    set r | r in requests && requests[r].key == key && requests[r].phase == Unseen
  }

  /** The answer to a request with the key: the payment exactly if the terms are
      those stored, a conflict otherwise. */
  ghost predicate Decided(reply: Reply, p: PaymentId, key: string, terms: Terms) {
    reply.key == key ==> reply.response == if reply.terms == terms then Accepted(p) else Conflict
  }

  /** How many of the replies from place `n` on are not decided so. */
  ghost function Exceptions(replies: seq<Reply>, n: nat, p: PaymentId, key: string, terms: Terms): nat {
    if |replies| <= n then 0
    else Exceptions(replies[..|replies| - 1], n, p, key, terms)
         + if Decided(replies[|replies| - 1], p, key, terms) then 0 else 1
  }

  /** One step: at most one reply more, and an exception uses up a loser. */
  ghost predicate Pays(s: State, t: State, p: PaymentId, key: string, terms: Terms) {
    && KeyHeld(t, p, key, terms)
    && (t.log.replies == s.log.replies
        || (|t.log.replies| == |s.log.replies| + 1 && t.log.replies[..|s.log.replies|] == s.log.replies))
    && Losers(t.requests, key) <= Losers(s.requests, key)
    && (|t.log.replies| > |s.log.replies| && !Decided(t.log.replies[|s.log.replies|], p, key, terms)
        ==> Losers(t.requests, key) < Losers(s.requests, key))
  }

  lemma EndPays(s: State, r: nat, response: Response, p: PaymentId, key: string, terms: Terms)
    requires KeyHeld(s, p, key, terms) && r in s.requests
    requires Decided(Reply(s.requests[r].key, s.requests[r].terms, response), p, key, terms)
             || (s.requests[r].key == key && s.requests[r].phase == Unseen)
    ensures Pays(s, Respond(s, r, response), p, key, terms)
  {
    var t := Respond(s, r, response);
    if s.requests[r].key == key && s.requests[r].phase == Unseen {
      assert r in Losers(s.requests, key) && r !in Losers(t.requests, key);
    }
  }

  lemma LookupPays(s: State, r: nat, q: PaymentId, p: PaymentId, key: string, terms: Terms)
    requires KeyHeld(s, p, key, terms)
    requires forall a, b | a in s.payments && b in s.payments && s.payments[a].key == s.payments[b].key :: a == b
    requires ApiEnabled(s, r, Lookup(Some(q)))
    ensures Pays(s, ApiNext(s, r, Lookup(Some(q))), p, key, terms)
  {
    EndPays(s, r, if Matches(s.payments[q], s.requests[r].terms) then Accepted(q) else Conflict, p, key, terms);
  }

  lemma InsertPays(s: State, r: nat, id: PaymentId, rival: Option<PaymentId>, p: PaymentId, key: string, terms: Terms)
    requires KeyHeld(s, p, key, terms) && ApiEnabled(s, r, Insert(id, rival))
    ensures Pays(s, InsertNext(s, r, id, rival), p, key, terms)
  {
    if s.requests[r].terms.amount <= 0 {
      EndPays(s, r, AmountNotPositive, p, key, terms);
    } else if rival.Some? {
      EndPays(s, r, Conflict, p, key, terms);
    }
  }

  lemma CommitPays(s: State, r: nat, p: PaymentId, key: string, terms: Terms)
    requires KeyHeld(s, p, key, terms) && ApiEnabled(s, r, Commit) && NotStored(s, r) && s.requests[r].key != key
    ensures Pays(s, ApiNext(s, r, Commit), p, key, terms)
  {
    var t := Store(s, s.requests[r]);
    assert KeyHeld(t, p, key, terms);
    EndPays(t, r, Accepted(s.requests[r].phase.id), p, key, terms);
  }

  lemma ApiPays(s: State, r: nat, a: ApiStep, p: PaymentId, key: string, terms: Terms)
    requires KeyHeld(s, p, key, terms) && ApiEnabled(s, r, a) && NotStored(s, r)
    requires forall a, b | a in s.payments && b in s.payments && s.payments[a].key == s.payments[b].key :: a == b
    requires r in s.requests && s.requests[r].key == key ==> s.requests[r].phase == Arrived || s.requests[r].phase == Unseen
    ensures Pays(s, ApiNext(s, r, a), p, key, terms)
  {
    match a
    case Begin(_, _, _) =>
    case Lookup(None) => assert s.requests[r].key != key;
    case Lookup(Some(q)) => LookupPays(s, r, q, p, key, terms);
    case Insert(id, rival) => InsertPays(s, r, id, rival, p, key, terms);
    case Enqueue(_) =>
    case Commit => CommitPays(s, r, p, key, terms);
    case Withdraw =>
  }

  lemma OtherPays(c: Config, s: State, step: Step, p: PaymentId, key: string, terms: Terms)
    requires KeyHeld(s, p, key, terms) && Enabled(c, s, step) && !step.Api?
    requires s.log.outcomes.Keys == s.payments.Keys
    ensures Pays(s, Next(c, s, step), p, key, terms)
  {
    match step
    case Dispatch(d, a) => DispatchKeeps(c, s, d, a);
    case Handle(h, a) =>
      HandlerKeeps(c, s, h, a);
      HandlerKeepsPayments(c, s, h, a);
    case Expire(n) =>
    case Tick(_) =>
  }

  /** No open transaction can hold a key that is committed. */
  lemma HeldKeyIsNotOpen(c: Config, s: State, r: nat, p: PaymentId, key: string, terms: Terms)
    requires Reached(c, s) && KeyHeld(s, p, key, terms) && r in s.requests && s.requests[r].key == key
    ensures s.requests[r].phase == Arrived || s.requests[r].phase == Unseen
  {
    ReachedCreated(c, s);
  }

  lemma ReachedNotStored(c: Config, s: State, r: nat)
    requires Reached(c, s)
    ensures NotStored(s, r) && s.log.outcomes.Keys == s.payments.Keys
  {
    ReachedCreated(c, s);
    FreshIdsNotStored(s, r);
  }

  lemma StepPays(c: Config, s: State, step: Step, p: PaymentId, key: string, terms: Terms)
    requires Reached(c, s) && KeyHeld(s, p, key, terms) && Enabled(c, s, step)
    ensures Pays(s, Next(c, s, step), p, key, terms)
  {
    match step
    case Api(r, a) =>
      ReachedNotStored(c, s, r);
      ReachedKeys(c, s);
      if r in s.requests && s.requests[r].key == key {
        HeldKeyIsNotOpen(c, s, r, p, key, terms);
      }
      ApiPays(s, r, a, p, key, terms);
    case _ =>
      ReachedNotStored(c, s, 0);
      OtherPays(c, s, step, p, key, terms);
  }

  /** From `s` to `t`, the exceptions are no more than the losers that are gone. */
  ghost predicate PaidFor(s: State, t: State, p: PaymentId, key: string, terms: Terms) {
    && KeyHeld(t, p, key, terms) && s.log.replies <= t.log.replies
    && Exceptions(t.log.replies, |s.log.replies|, p, key, terms) + |Losers(t.requests, key)| <= |Losers(s.requests, key)|
  }

  lemma PaysOneMore(s: State, t: State, u: State, p: PaymentId, key: string, terms: Terms)
    requires PaidFor(s, t, p, key, terms) && Pays(t, u, p, key, terms)
    ensures PaidFor(s, u, p, key, terms)
  {
    CardinalitySubset(Losers(u.requests, key), Losers(t.requests, key));
    if u.log.replies != t.log.replies {
      assert u.log.replies[..|u.log.replies| - 1] == t.log.replies;
    }
  }

  /** Once a payment is committed, the later answers to its key are that payment
      exactly if the terms are those stored, and a conflict otherwise: in every
      run, with no more exceptions than requests that had found the key free
      before and are still open. */
  lemma {:induction false} CommittedKeyDecides(c: Config, s: State, steps: seq<Step>, p: PaymentId, key: string, terms: Terms)
    requires Reached(c, s) && KeyHeld(s, p, key, terms) && Run(c, s, steps)
    ensures PaidFor(s, Exec(c, s, steps), p, key, terms)
    decreases |steps|
  {
    if steps != [] {
      var init := steps[..|steps| - 1];
      CommittedKeyDecides(c, s, init, p, key, terms);
      ReachedRun(c, s, init);
      StepPays(c, Exec(c, s, init), steps[|steps| - 1], p, key, terms);
      PaysOneMore(s, Exec(c, s, init), Exec(c, s, steps), p, key, terms);
    }
  }

  /** So without such a request there is no exception at all. */
  lemma {:induction false} NoExceptions(replies: seq<Reply>, n: nat, p: PaymentId, key: string, terms: Terms, i: nat)
    requires Exceptions(replies, n, p, key, terms) == 0 && n <= i < |replies|
    ensures Decided(replies[i], p, key, terms)
    decreases |replies|
  {
    if i < |replies| - 1 {
      NoExceptions(replies[..|replies| - 1], n, p, key, terms, i);
    }
  }

  // ---- Requests that have looked before

  lemma KeyHeldStep(c: Config, s: State, step: Step, p: PaymentId, key: string, terms: Terms)
    requires Reached(c, s) && KeyHeld(s, p, key, terms) && Enabled(c, s, step)
    ensures KeyHeld(Next(c, s, step), p, key, terms)
  {
    ReachedCreated(c, s);
    match step
    case Api(r, a) => KeyHeldApi(s, r, a, p, key, terms);
    case Dispatch(d, a) => DispatchKeeps(c, s, d, a);
    case Handle(h, a) => HandlerKeepsPayments(c, s, h, a);
    case Expire(n) =>
    case Tick(_) =>
  }

  lemma KeyHeldApi(s: State, r: nat, a: ApiStep, p: PaymentId, key: string, terms: Terms)
    requires Created(s) && KeyHeld(s, p, key, terms) && ApiEnabled(s, r, a)
    ensures KeyHeld(ApiNext(s, r, a), p, key, terms)
  {
    if a.Commit? {
      FreshIdsNotStored(s, r);
    } else {
      ApiKeepsTables(s, r, a);
    }
  }

  lemma {:induction false} KeyHeldAlways(c: Config, s: State, steps: seq<Step>, p: PaymentId, key: string, terms: Terms)
    requires Reached(c, s) && KeyHeld(s, p, key, terms) && Run(c, s, steps)
    ensures KeyHeld(Exec(c, s, steps), p, key, terms)
    decreases |steps|
  {
    if steps != [] {
      var init := steps[..|steps| - 1];
      KeyHeldAlways(c, s, init, p, key, terms);
      ReachedRun(c, s, init);
      KeyHeldStep(c, Exec(c, s, init), steps[|steps| - 1], p, key, terms);
    }
  }

  /** The request ends, with this answer or without one, and stores nothing. */
  ghost predicate EndsEmpty(v: State, t: State, r: nat, reply: Reply) {
    && t.payments == v.payments && t.outbox == v.outbox && r !in t.requests
    && (t.log.replies == v.log.replies || t.log.replies == v.log.replies + [reply])
  }

  lemma UnseenEnds(v: State, r: nat, a: ApiStep, p: PaymentId, key: string, terms: Terms)
    requires KeyHeld(v, p, key, terms) && r in v.requests && v.requests[r].key == key && v.requests[r].phase == Unseen
    requires ApiEnabled(v, r, a)
    ensures EndsEmpty(v, ApiNext(v, r, a), r,
                      Reply(key, v.requests[r].terms, if v.requests[r].terms.amount > 0 then Conflict else AmountNotPositive))
    ensures ApiNext(v, r, a).log.replies == v.log.replies ==> a.Withdraw?
  {
    match a
    case Insert(id, rival) =>
      assert !FoundByKey(v, key, None);
    case Withdraw =>
  }

  /** A request that has found its key free, and whose key is taken by now, has
      lost the race. Whatever others do, its next step is its last: it is
      answered with a conflict (or with the amount error, for an amount that is
      not positive), even when its terms are those stored, or withdrawn, and it
      leaves both tables as they are. */
  lemma RaceLoserNeverAccepted(c: Config, s: State, r: nat, p: PaymentId, key: string, terms: Terms, others: seq<Step>,
                               v: State, a: ApiStep)
    requires Reached(c, s) && KeyHeld(s, p, key, terms)
    requires r in s.requests && s.requests[r].key == key && s.requests[r].phase == Unseen
    requires Run(c, s, others) && LeavesAlone(r, others) && v == Exec(c, s, others)
    requires Enabled(c, v, Api(r, a))
    ensures EndsEmpty(v, Next(c, v, Api(r, a)), r,
                      Reply(key, s.requests[r].terms, if s.requests[r].terms.amount > 0 then Conflict else AmountNotPositive))
    ensures Next(c, v, Api(r, a)).log.replies == v.log.replies ==> a.Withdraw?
  {
    KeyHeldAlways(c, s, others, p, key, terms);
    RequestWaits(c, s, others, r);
    UnseenEnds(v, r, a, p, key, terms);
  }

  /** Whichever way the request ends, it stores nothing: answered so, or withdrawn. */
  lemma ArrivedEnds(v: State, r: nat, a: ApiStep, p: PaymentId, key: string, terms: Terms)
    requires KeyHeld(v, p, key, terms) && r in v.requests && v.requests[r].key == key && v.requests[r].phase == Arrived
    requires forall a, b | a in v.payments && b in v.payments && v.payments[a].key == v.payments[b].key :: a == b
    requires ApiEnabled(v, r, a)
    ensures EndsEmpty(v, ApiNext(v, r, a), r,
                      Reply(key, v.requests[r].terms, if v.requests[r].terms == terms then Accepted(p) else Conflict))
    ensures ApiNext(v, r, a).log.replies == v.log.replies ==> a.Withdraw?
  {
    match a
    case Lookup(found) =>
      assert found == Some(p);
    case Withdraw =>
  }

  /** The answer an open request is heading for, once its key is held: what its
      phase and its own terms say, nothing else. */
  function AnswerDue(q: Request, p: PaymentId, terms: Terms): Response {
    if q.phase == Arrived then (if q.terms == terms then Accepted(p) else Conflict)
    else if q.terms.amount > 0 then Conflict
    else AmountNotPositive
  }

  /** Once a payment with its key is committed, the next step of an open request
      is its last, whatever others do until then: it gets the answer its phase and
      terms decide, or is withdrawn, and leaves both tables as they are. */
  lemma OpenRequestIsDecided(c: Config, s: State, r: nat, p: PaymentId, key: string, terms: Terms, others: seq<Step>,
                             v: State, a: ApiStep)
    requires Reached(c, s) && KeyHeld(s, p, key, terms) && r in s.requests && s.requests[r].key == key
    requires Run(c, s, others) && LeavesAlone(r, others) && v == Exec(c, s, others)
    requires Enabled(c, v, Api(r, a))
    ensures EndsEmpty(v, Next(c, v, Api(r, a)), r, Reply(key, s.requests[r].terms, AnswerDue(s.requests[r], p, terms)))
    ensures Next(c, v, Api(r, a)).log.replies == v.log.replies ==> a.Withdraw?
  {
    HeldKeyIsNotOpen(c, s, r, p, key, terms);
    if s.requests[r].phase == Unseen {
      RaceLoserNeverAccepted(c, s, r, p, key, terms, others, v, a);
    } else {
      KeyHeldAlways(c, s, others, p, key, terms);
      RequestWaits(c, s, others, r);
      ReachedRun(c, s, others);
      ReachedKeys(c, v);
      ArrivedEnds(v, r, a, p, key, terms);
    }
  }

  /** So a resend with the stored terms gets the stored payment exactly if it had
      not looked the key up before the payment was committed. The condition does
      not depend on any other request. */
  lemma ResendIsReplayedIff(c: Config, s: State, r: nat, p: PaymentId, key: string, terms: Terms, others: seq<Step>,
                            v: State, a: ApiStep)
    requires Reached(c, s) && KeyHeld(s, p, key, terms) && r in s.requests && s.requests[r].key == key
    requires s.requests[r].terms == terms && terms.amount > 0
    requires Run(c, s, others) && LeavesAlone(r, others) && v == Exec(c, s, others)
    requires Enabled(c, v, Api(r, a)) && !a.Withdraw?
    ensures var t := Next(c, v, Api(r, a));
            && (t.log.replies == v.log.replies + [Reply(key, terms, Accepted(p))] <==> s.requests[r].phase == Arrived)
            && (t.log.replies == v.log.replies + [Reply(key, terms, Conflict)] <==> s.requests[r].phase != Arrived)
  {
    OpenRequestIsDecided(c, s, r, p, key, terms, others, v, a);
    AppendedOnce(v.log.replies, Reply(key, terms, Accepted(p)), Reply(key, terms, Conflict));
  }

  lemma AppendedOnce(replies: seq<Reply>, one: Reply, other: Reply)
    requires one != other
    ensures replies + [one] != replies + [other]
  {
    assert (replies + [one])[|replies|] == one;
    assert (replies + [other])[|replies|] == other;
  }

  // ---- The race happens

  /** Two requests with this key and body have both found the key free. */
  lemma BothLookedUp(c: Config, key: string, body: Body) returns (v: State)
    ensures Reached(c, v) && v.payments == map[] && v.ids == {} && v.log.replies == []
    ensures v.requests == map[0 := Request(key, body.terms, body.note, 0.0, Unseen),
                              1 := Request(key, body.terms, body.note, 0.0, Unseen)]
  {
    var s := Init();
    assert Run(c, Init(), []) && Exec(c, Init(), []) == s;
    var one := BeginAndLookup(c, s, 0, key, body, None);
    var u := LookedUp(s, 0, key, body);
    ReachedRun(c, s, one);
    var two := BeginAndLookup(c, u, 1, key, body, None);
    v := LookedUp(u, 1, key, body);
    ReachedRun(c, u, two);
  }

  /** The loser of the race, after the winner has committed. */
  lemma LoserConflicts(c: Config, t: State, key: string, body: Body) returns (u: State)
    requires Reached(c, t) && body.terms.amount > 0 && KeyHeld(t, 0, key, body.terms)
    requires 1 in t.requests && t.requests[1] == Request(key, body.terms, body.note, 0.0, Unseen)
    ensures Reached(c, u) && u.log.replies == t.log.replies + [Reply(key, body.terms, Conflict)]
  {
    ReachedWellFormed(c, t);
    forall k | k in t.requests && k != 1 ensures !HoldsKey(t.requests[k], key) {
      if t.requests[k].key == key {
        HeldKeyIsNotOpen(c, t, k, 0, key, body.terms);
      }
    }
    var steps := InsertRefused(c, t, 1, key, body, 0.0, 0, Some(0));
    ReachedRun(c, t, steps);
    u := Exec(c, t, steps);
  }

  /** For every key and every body the schema allows, and in every configuration:
      two identical requests, both answered, one with the payment and one with a
      conflict. The second has looked the key up before the first committed. */
  lemma IdenticalResendCanConflict(c: Config, key: string, body: Body)
    requires body.terms.amount > 0
    ensures exists u :: Reached(c, u)
                        && u.log.replies == [Reply(key, body.terms, Accepted(0)), Reply(key, body.terms, Conflict)]
  {
    var v := BothLookedUp(c, key, body);
    ReachedWellFormed(c, v);
    var steps := InsertAccepted(c, v, 0, key, body, 0.0, 0, 1);
    var t := Exec(c, v, steps);
    ReachedRun(c, v, steps);
    RequestWaits(c, v, steps, 1);
    assert KeyHeld(t, 0, key, body.terms);
    assert t.log.replies == [Reply(key, body.terms, Accepted(0))];
    var u := LoserConflicts(c, t, key, body);
  }
}
