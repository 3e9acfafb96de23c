/** What the pipeline left alone comes to. */
module AtRest {
  import opened Basics
  import opened Entities
  import opened Topology
  import opened OutboxQuery
  import opened Pipeline
  import opened Creation
  import opened Dispatching
  import opened Chains
  import opened NoLoss
  import opened Guarantees
  import opened Quiescence

  /** Nothing is under way and nothing is waiting. */
  ghost predicate Idle(s: State) {
    && s.handlers == map[] && s.batches == map[] && s.requests == map[]
    && s.broker.incoming == [] && (forall k | 0 <= k < |s.broker.retry| :: s.broker.retry[k] == [])
    && (forall r | r in s.outbox :: s.outbox[r].status == RowPublished)
  }

  /** Waiting until `t` makes this step possible. */
  ghost predicate PossibleAt(c: Config, s: State, t: real, step: Step) {
    s.now <= t && Progress(Wait(s, t), step) && Enabled(c, Wait(s, t), step)
  }

  // ---- Something can always be done

  lemma NowPossible(c: Config, s: State, step: Step)
    requires Enabled(c, s, step) && Progress(s, step)
    ensures PossibleAt(c, s, s.now, step)
  {
    assert Wait(s, s.now) == s;
  }

  lemma CommitReady(c: Config, s: State, h: nat)
    requires Created(s) && Chained(c, s) && h in s.handlers && s.handlers[h].phase.Applied?
    ensures HandlerEnabled(c, s, h, CommitOutcome)
  {
    HeldMessage(c, s, h);
  }

  lemma HandlerCanGo(c: Config, s: State, h: nat) returns (step: Step)
    requires Reached(c, s) && h in s.handlers
    ensures PossibleAt(c, s, s.now, step)
  {
    ReachedCreated(c, s);
    ReachedChained(c, s);
    if k: nat :| k in s.handlers && s.handlers[k].phase.Applied? {
      CommitReady(c, s, k);
      step := Handle(k, CommitOutcome);
    } else {
      var a := OwnStep(c, s, h);
      step := Handle(h, a);
    }
    NowPossible(c, s, step);
  }

  /** What a handler can do when no other holds a payment row. */
  lemma OwnStep(c: Config, s: State, h: nat) returns (a: HandlerStep)
    requires Chained(c, s) && h in s.handlers
    requires forall k | k in s.handlers :: !s.handlers[k].phase.Applied?
    ensures HandlerEnabled(c, s, h, a) && !a.Requeue?
  {
    assert Handled(c, s.payments.Keys, s.handlers[h], s.now);
    match s.handlers[h].phase
    case Got => a := ReadPayment;
    case Window => a := ApplyOutcome(true);
    case Ready(_) => a := PostDelivered;
    case Unsent(_) =>
      // with no queue to retry in, the publish raises and the handler ends
      a := if Route(RetryAddress(c, s.handlers[h].msg)).Some? || !c.returnRaises then Republish else Nack;
    case _ => a := Ack;
  }

  lemma RowKnown(s: State, d: nat)
    requires Created(s) && Locked(s) && d in s.batches
    ensures SendsKnown(s, d)
  {
    if AtRow(s, d) {
      var b := s.batches[d];
      assert b.rows[b.pos] in b.rows;
      UnlockedRows(s, d, b.rows[b.pos]);
    }
  }

  lemma BatchStep(c: Config, s: State, d: nat) returns (a: DispatchStep)
    requires d in s.batches && WellShaped(s.batches[d], s.now)
    ensures DispatchEnabled(c, s, d, a) && Progress(s, Dispatch(d, a))
  {
    var b := s.batches[d];
    if b.pos == |b.rows| {
      a := CommitBatch;
    } else {
      assert b.rows[b.pos] in b.rows;
      match b.stage
      case NextRow => a := PublishRow(true, false, "");
      case Sent => a := MarkRow;
      case Raised(_, _) => a := if Stuck(b) then AbortBatch else BumpRow;
    }
  }

  lemma BatchCanGo(c: Config, s: State, d: nat) returns (step: Step)
    requires Reached(c, s) && WellFormed(s.broker) && d in s.batches
    ensures PossibleAt(c, s, s.now, step)
  {
    ReachedCreated(c, s);
    ReachedLocked(c, s);
    RowKnown(s, d);
    var a := BatchStep(c, s, d);
    step := Dispatch(d, a);
    NowPossible(c, s, step);
  }

  lemma KeyLookup(s: State, key: string) returns (found: Option<PaymentId>)
    ensures FoundByKey(s, key, found)
  {
    if p: PaymentId :| p in s.payments && s.payments[p].key == key {
      found := Some(p);
    } else {
      found := None;
    }
  }

  lemma RequestCanGo(c: Config, s: State, r: nat) returns (step: Step)
    requires WellFormed(s.broker) && r in s.requests
    ensures PossibleAt(c, s, s.now, step)
  {
    assert Wait(s, s.now) == s;
    var id := FreshNat(s.ids);
    if k: nat :| k in s.requests && s.requests[k].phase.Enqueued? {
      step := Api(k, Commit);
    } else if k: nat :| k in s.requests && s.requests[k].phase.Inserted? {
      step := Api(k, Enqueue(id));
    } else {
      var found := KeyLookup(s, s.requests[r].key);
      step := Api(r, if s.requests[r].phase == Arrived then Lookup(found) else Insert(id, found));
    }
  }

  lemma DueRow(c: Config, s: State, r: RowId, t: real)
    requires RowsSpaced(c, s.outbox, s.log.failures) && Locked(s) && s.batches == map[]
    requires r in s.outbox && s.outbox[r].status != RowPublished && s.outbox[r].nextAttemptAt <= t
    ensures r in Candidates(s.outbox, s.locks.Keys, t)
  {
    assert Spaced(c, s.outbox[r], s.log.failures[r]);
    assert r !in s.locks;
  }

  lemma NotEmpty(table: map<RowId, Row>, locked: set<RowId>, now: real, limit: nat, rows: seq<RowId>, r: RowId)
    requires limit > 0 && IsFetch(table, locked, now, limit, rows) && r in Candidates(table, locked, now)
    ensures rows != []
  {
    assert rows == [] ==> r !in rows;
  }

  lemma RowCanGo(c: Config, s: State, r: RowId) returns (t: real, step: Step)
    requires Reached(c, s) && WellFormed(s.broker)
    requires c.batchSize > 0 && s.batches == map[] && r in s.outbox && s.outbox[r].status != RowPublished
    ensures PossibleAt(c, s, t, step)
  {
    t := if s.now < s.outbox[r].nextAttemptAt then s.outbox[r].nextAttemptAt else s.now;
    ReachedLocked(c, s);
    ReachedTimed(c, s);
    DueRow(c, s, r, t);
    var rows := FetchExists(s.outbox, s.locks.Keys, t, c.batchSize);
    NotEmpty(s.outbox, s.locks.Keys, t, c.batchSize, rows, r);
    step := Dispatch(0, Fetch(rows));
    assert DispatchEnabled(c, Wait(s, t), 0, Fetch(rows));
  }

  lemma ExpiryCanGo(c: Config, s: State, k: nat) returns (t: real, step: Step)
    requires WellFormed(s.broker) && k < |s.broker.retry| && s.broker.retry[k] != []
    ensures PossibleAt(c, s, t, step)
  {
    var due := s.broker.retry[k][0].due;
    t := if s.now < due then due else s.now;
    step := Expire(k + 1);
  }

  lemma NothingLeft(s: State)
    requires forall h | h in s.handlers :: false
    requires forall d | d in s.batches :: false
    requires forall r | r in s.requests :: false
    requires s.broker.incoming == [] && forall k | 0 <= k < |s.broker.retry| :: s.broker.retry[k] == []
    requires forall r | r in s.outbox :: s.outbox[r].status == RowPublished
    ensures Idle(s)
  {
    assert s.handlers == map[] && s.batches == map[] && s.requests == map[];
  }

  /** Unless everything is done, some step of progress is possible, now or later. */
  lemma SomethingCanGo(c: Config, s: State) returns (t: real, step: Step)
    requires Reached(c, s) && !Idle(s) && c.batchSize > 0
    ensures PossibleAt(c, s, t, step)
  {
    ReachedWellFormed(c, s);
    t := s.now;
    if h: nat :| h in s.handlers {
      step := HandlerCanGo(c, s, h);
    } else if s.broker.incoming != [] {
      step := Handle(0, Deliver(0));
      NowPossible(c, s, step);
    } else if d: nat :| d in s.batches {
      step := BatchCanGo(c, s, d);
    } else if r: nat :| r in s.requests {
      step := RequestCanGo(c, s, r);
    } else if k: nat :| k < |s.broker.retry| && s.broker.retry[k] != [] {
      t, step := ExpiryCanGo(c, s, k);
    } else if r: RowId :| r in s.outbox && s.outbox[r].status != RowPublished {
      t, step := RowCanGo(c, s, r);
    } else {
      NothingLeft(s);
      assert false;
    }
  }

  // ---- Termination and the final state

  /** Every step of the run is one of progress or lets time pass. */
  ghost predicate LeftAlone(c: Config, s: State, steps: seq<Step>)
    requires Run(c, s, steps)
    decreases |steps|
  {
    steps == [] ||
    var init, last := steps[..|steps| - 1], steps[|steps| - 1];
    LeftAlone(c, s, init) && (last.Tick? || Progress(Exec(c, s, init), last))
  }

  /** The number of steps that do not just let time pass. */
  function ProgressCount(steps: seq<Step>): nat {
    if steps == [] then 0
    else ProgressCount(steps[..|steps| - 1]) + if steps[|steps| - 1].Tick? then 0 else 1
  }

  /** A run of a system left alone has at most as many steps of progress as the measure says. */
  lemma {:induction false} ProgressIsBounded(c: Config, s: State, steps: seq<Step>)
    requires Invariant(c, s) && Run(c, s, steps) && LeftAlone(c, s, steps)
    ensures ProgressCount(steps) + Measure(c, Exec(c, s, steps)) <= Measure(c, s)
    decreases |steps|
  {
    if steps != [] {
      var init, last := steps[..|steps| - 1], steps[|steps| - 1];
      ProgressIsBounded(c, s, init);
      InvariantFrom(c, s, init);
      if !last.Tick? {
        ProgressLowers(c, Exec(c, s, init), last);
      }
    }
  }

  /** At rest, whoever has not been told of an accepted payment finds it in the
      dead-letter queue. */
  lemma IdleIsDone(s: State, p: PaymentId)
    requires NothingLost(s) && Idle(s) && p in s.payments
    ensures p in s.log.notified || exists i | 0 <= i < |s.broker.dead| :: s.broker.dead[i].pid == p
  {
    assert Live(s, p);
    var place :| At(s, p, place);
    match place
    case InDlq(i) => assert s.broker.dead[i].pid == p;
    case _ =>
  }

  lemma GoLowers(c: Config, w: State, step: Step)
    requires Reached(c, w) && Enabled(c, w, step) && Progress(w, step)
    ensures var u := Next(c, w, step); Reached(c, u) && Measure(c, u) < Measure(c, w)
  {
    ReachedInvariant(c, w);
    ProgressLowers(c, w, step);
    ReachedNext(c, w, Next(c, w, step), step);
  }

  lemma WaitKeeps(c: Config, s: State, t: real)
    requires Reached(c, s) && s.now <= t && WellFormed(s.broker)
    ensures Run(c, s, [Tick(t)]) && Exec(c, s, [Tick(t)]) == Wait(s, t) && LeftAlone(c, s, [Tick(t)])
    ensures Reached(c, Wait(s, t)) && Measure(c, Wait(s, t)) == Measure(c, s)
  {
    OneStep(c, s, Tick(t));
    ReachedNext(c, s, Wait(s, t), Tick(t));
  }

  lemma Go(c: Config, w: State, step: Step) returns (u: State)
    requires Reached(c, w) && Enabled(c, w, step) && Progress(w, step)
    ensures Run(c, w, [step]) && Exec(c, w, [step]) == u && LeftAlone(c, w, [step])
    ensures Reached(c, u) && Measure(c, u) < Measure(c, w)
  {
    OneStep(c, w, step);
    GoLowers(c, w, step);
    u := Next(c, w, step);
    assert [step][..0] == [];
  }

  lemma {:induction false} LeftAloneTwice(c: Config, s: State, one: seq<Step>, two: seq<Step>)
    requires Run(c, s, one) && LeftAlone(c, s, one)
    requires Run(c, Exec(c, s, one), two) && LeftAlone(c, Exec(c, s, one), two)
    ensures Run(c, s, one + two) && Exec(c, s, one + two) == Exec(c, Exec(c, s, one), two)
    ensures LeftAlone(c, s, one + two)
    decreases |two|
  {
    RunConcat(c, s, one, two);
    if two == [] {
      assert one + two == one;
    } else {
      var init := two[..|two| - 1];
      LeftAloneTwice(c, s, one, init);
      assert (one + two)[..|one + two| - 1] == one + init;
    }
  }

  /** Waiting and one step of progress. */
  lemma WaitAndGo(c: Config, s: State, t: real, step: Step) returns (steps: seq<Step>, u: State)
    requires Reached(c, s) && PossibleAt(c, s, t, step)
    ensures Run(c, s, steps) && Exec(c, s, steps) == u && LeftAlone(c, s, steps)
    ensures Reached(c, u) && Measure(c, u) < Measure(c, s)
  {
    WaitKeeps(c, s, t);
    u := Go(c, Wait(s, t), step);
    LeftAloneTwice(c, s, [Tick(t)], [step]);
    steps := [Tick(t)] + [step];
  }

  ghost predicate Rests(c: Config, s: State, steps: seq<Step>) {
    Run(c, s, steps) && LeftAlone(c, s, steps) && Idle(Exec(c, s, steps))
  }

  /** One more step of progress, with less left to do. */
  lemma OneMore(c: Config, s: State) returns (first: seq<Step>, u: State)
    requires Reached(c, s) && !Idle(s) && c.batchSize > 0
    ensures Run(c, s, first) && Exec(c, s, first) == u && LeftAlone(c, s, first)
    ensures Reached(c, u) && Measure(c, u) < Measure(c, s)
  {
    var t, step := SomethingCanGo(c, s);
    first, u := WaitAndGo(c, s, t, step);
  }

  /** From every state that can be reached, the system left alone can come to rest. */
  lemma {:induction false} ComesToRest(c: Config, s: State) returns (steps: seq<Step>)
    requires Reached(c, s) && c.batchSize > 0
    ensures Rests(c, s, steps)
    decreases Measure(c, s)
  {
    if Idle(s) {
      steps := [];
    } else {
      var first, u := OneMore(c, s);
      var rest := ComesToRest(c, u);
      LeftAloneTwice(c, s, first, rest);
      steps := first + rest;
    }
  }

  /** Nothing waits for a dispatcher, a handler or the broker at rest. */
  lemma IdleStops(c: Config, s: State, t: real, step: Step)
    requires Idle(s)
    ensures !PossibleAt(c, s, t, step)
  {
    match step
    case Dispatch(d, Fetch(rows)) =>
      if rows != [] {
        assert rows[0] in rows;
      }
    case _ =>
  }

  /** A system left alone stops exactly at rest. Then, unless republishes can
      vanish, every accepted payment is known to the merchant or lies in the
      dead-letter queue. */
  lemma StopsOnlyAtRest(c: Config, s: State)
    requires Reached(c, s) && c.batchSize > 0
    ensures (forall t, step :: !PossibleAt(c, s, t, step)) <==> Idle(s)
    ensures Safe(c) && Idle(s) ==>
              forall p | p in s.payments ::
                p in s.log.notified || exists i | 0 <= i < |s.broker.dead| :: s.broker.dead[i].pid == p
  {
    if Idle(s) {
      forall t, step ensures !PossibleAt(c, s, t, step) {
        IdleStops(c, s, t, step);
      }
    } else {
      var t, step := SomethingCanGo(c, s);
    }
    if Safe(c) && Idle(s) {
      NoPaymentLost(c, s);
      forall p | p in s.payments
        ensures p in s.log.notified || exists i | 0 <= i < |s.broker.dead| :: s.broker.dead[i].pid == p {
        IdleIsDone(s, p);
      }
    }
  }
}
