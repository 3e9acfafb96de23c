/** Creating a payment and writing its outcome, on the tables as one database
    session works on them. */
module PaymentService {
  import opened Basics
  import opened Entities

  datatype Tables = Tables(payments: map<PaymentId, Payment>, outbox: map<RowId, Row>)

  const UQ_PAYMENT_IDEMPOTENCY_KEY := "uq_payment_idempotency_key"
  const CK_PAYMENT_AMOUNT_POSITIVE := "ck_payment_amount_positive"
  const PRIMARY_KEY := "pk"

  /** An integrity error as the driver reports it. */
  datatype Fault = NoDriverError | UniqueViolation(constraint: string) | CheckViolation(constraint: string) | OtherViolation

  datatype Failure =
    | WebhookUrlNotAllowed
    | IdempotencyKeyConflict
    | PaymentAmountNotPositive
    | UnhandledIntegrity
    | PaymentNotFound

  datatype Result<+T> = Ok(value: T) | Refused(failure: Failure)

  /** A payment handed to a caller, and whether this call has created it. */
  datatype Handed = Handed(id: PaymentId, isNew: bool)

  datatype Body = Body(terms: Terms, note: string)

  function HandlePaymentIntegrity(fault: Fault): Failure {
    match fault
    case NoDriverError => UnhandledIntegrity
    case OtherViolation => UnhandledIntegrity
    case UniqueViolation(constraint) => ForConstraint(constraint)
    case CheckViolation(constraint) => ForConstraint(constraint)
  }

  function ForConstraint(constraint: string): Failure {
    if constraint == UQ_PAYMENT_IDEMPOTENCY_KEY then IdempotencyKeyConflict
    else if constraint == CK_PAYMENT_AMOUNT_POSITIVE then PaymentAmountNotPositive
    else UnhandledIntegrity
  }

  predicate HasKey(payments: map<PaymentId, Payment>, key: string) {
    exists p | p in payments :: payments[p].key == key
  }

  /** The table's unique constraint. */
  ghost predicate KeysUnique(payments: map<PaymentId, Payment>) {
    forall p, q | p in payments && q in payments && payments[p].key == payments[q].key :: p == q
  }

  /** The fields in which a request differs from the stored payment. */
  method ConflictingFields(existing: Payment, terms: Terms) returns (conflicting: seq<string>)
    ensures "amount" in conflicting <==> existing.terms.amount != terms.amount
    ensures "currency" in conflicting <==> existing.terms.currency != terms.currency
    ensures "webhook_url" in conflicting <==> existing.terms.url != terms.url
    ensures conflicting == [] <==> existing.terms == terms
  {
    conflicting := [];
    if existing.terms.amount != terms.amount {
      conflicting := conflicting + ["amount"];
    }
    if existing.terms.currency != terms.currency {
      conflicting := conflicting + ["currency"];
    }
    if existing.terms.url != terms.url {
      conflicting := conflicting + ["webhook_url"];
    }
  }

  /** What `INSERT` makes of a new payment, in the order the checks are made. */
  function InsertFault(payments: map<PaymentId, Payment>, id: PaymentId, key: string, amount: int): Option<Fault> {
    if amount <= 0 then Some(CheckViolation(CK_PAYMENT_AMOUNT_POSITIVE))
    else if id in payments then Some(UniqueViolation(PRIMARY_KEY))
    else if HasKey(payments, key) then Some(UniqueViolation(UQ_PAYMENT_IDEMPOTENCY_KEY))
    else None
  }

  /** The tables with a payment and its outbox row added. */
  function WithPayment(t: Tables, id: PaymentId, rid: RowId, key: string, body: Body, at: real): Tables {
    Tables(t.payments[id := NewPayment(key, body.terms, body.note)], t.outbox[rid := NewRow(id, at)])
  }

  /** A payment and its row as a request asks for them, column by column. */
  ghost predicate AsRequested(payment: Payment, row: Row, id: PaymentId, key: string, body: Body, at: real) {
    && payment.key == key && payment.terms == body.terms && payment.note == body.note
    && payment.outcome.status == Pending && payment.outcome.processedAt == None
    && row.aggregate == id && row.payload == id && row.routingKey == PaymentCreated
    && row.status == RowPending && row.attempts == 0
    && row.createdAt == at && row.nextAttemptAt == at
    && row.publishedAt == None && row.lastError == None
  }

  /** A session: `stored` is committed; the other two fields are this
      transaction's own uncommitted writes. Other sessions may commit between
      two of its statements. */
  class PaymentSession {
    var stored: Tables
    var ownPayments: map<PaymentId, Payment>
    var ownRows: map<RowId, Row>

    constructor (stored: Tables)
      ensures this.stored == stored && Clean()
    {
      this.stored, ownPayments, ownRows := stored, map[], map[];
    }

    ghost predicate Clean()
      reads this
    {
      ownPayments == map[] && ownRows == map[]
    }

    method GetByIdempotencyKey(key: string) returns (found: Option<PaymentId>)
      ensures found.None? <==> !HasKey(stored.payments, key)
      ensures found.Some? ==> found.value in stored.payments && stored.payments[found.value].key == key
    {
      if HasKey(stored.payments, key) {
        var p :| p in stored.payments && stored.payments[p].key == key;
        return Some(p);
      }
      return None;
    }

    /** Other sessions commit. */
    method Elapse(later: Tables)
      modifies this`stored
      ensures stored == later
    {
      stored := later;
    }

    method InsertPayment(id: PaymentId, key: string, body: Body) returns (fault: Option<Fault>)
      requires Clean()
      modifies this`ownPayments
      ensures fault == InsertFault(stored.payments, id, key, body.terms.amount)
      ensures ownPayments == if fault.None? then map[id := NewPayment(key, body.terms, body.note)] else map[]
    {
      fault := InsertFault(stored.payments, id, key, body.terms.amount);
      if fault.None? {
        ownPayments := ownPayments[id := NewPayment(key, body.terms, body.note)];
      }
    }

    method Enqueue(rid: RowId, id: PaymentId, at: real) returns (fault: Option<Fault>)
      requires ownRows == map[]
      modifies this`ownRows
      ensures fault == if rid in stored.outbox then Some(UniqueViolation(PRIMARY_KEY)) else None
      ensures ownRows == if fault.None? then map[rid := NewRow(id, at)] else map[]
    {
      if rid in stored.outbox {
        return Some(UniqueViolation(PRIMARY_KEY));
      }
      ownRows := ownRows[rid := NewRow(id, at)];
      return None;
    }

    /** `apply_processing_outcome`: whatever status the payment has. */
    method ApplyProcessingOutcome(p: PaymentId, succeeded: bool, now: real) returns (r: Result<Payment>)
      requires Clean()
      modifies this`ownPayments
      ensures r == if p in stored.payments
                   then Ok(stored.payments[p].(outcome := Outcome(if succeeded then Succeeded else Failed, Some(now))))
                   else Refused(PaymentNotFound)
      ensures ownPayments == if r.Ok? then map[p := r.value] else map[]
    {
      if p !in stored.payments {
        return Refused(PaymentNotFound);
      }
      var status := if succeeded then Succeeded else Status.Failed;
      var payment := stored.payments[p].(outcome := Outcome(status, Some(now)));
      ownPayments := ownPayments[p := payment];
      return Ok(payment);
    }

    method Commit()
      modifies this
      ensures stored == Tables(old(stored.payments) + old(ownPayments), old(stored.outbox) + old(ownRows)) && Clean()
    {
      stored := Tables(stored.payments + ownPayments, stored.outbox + ownRows);
      ownPayments, ownRows := map[], map[];
    }

    /** The session is closed: what it has not committed is gone. */
    method Close()
      modifies this`ownPayments, this`ownRows
      ensures Clean()
    {
      ownPayments, ownRows := map[], map[];
    }

    /** `create_payment` of the service; `later` is what others have stored by
        the time of the insert. Nothing is committed here. */
    method CreatePayment(key: string, body: Body, urlAllowed: bool, later: Tables, id: PaymentId, rid: RowId, at: real)
      returns (r: Result<Handed>)
      requires Clean()
      modifies this
      ensures AnswersAs(old(stored), later, key, body, urlAllowed, id, rid, r)
      ensures RefusedOutright(old(stored.payments), later.payments, key, body, urlAllowed, id, r)
      ensures r.Ok? && r.value.isNew ==>
                && ownPayments.Keys == {id} && ownRows.Keys == {rid}
                && ownPayments[id] == NewPayment(key, body.terms, body.note) && ownRows[rid] == NewRow(id, at)
                && AsRequested(ownPayments[id], ownRows[rid], id, key, body, at)
      ensures r.Ok? && !r.value.isNew ==> Clean()
      ensures stored == if urlAllowed && !HasKey(old(stored.payments), key) then later else old(stored)
    {
      if !urlAllowed {
        return Refused(WebhookUrlNotAllowed);
      }
      var existing := GetByIdempotencyKey(key);
      if existing.Some? {
        var conflicting := ConflictingFields(stored.payments[existing.value], body.terms);
        if conflicting != [] {
          return Refused(IdempotencyKeyConflict);
        }
        return Ok(Handed(existing.value, false));
      }
      Elapse(later);
      var fault := InsertPayment(id, key, body);
      if fault.Some? {
        return Refused(HandlePaymentIntegrity(fault.value));
      }
      fault := Enqueue(rid, id, at);
      if fault.Some? {
        return Refused(HandlePaymentIntegrity(fault.value));
      }
      return Ok(Handed(id, true));
    }
  }

  /** `PaymentAction.create_payment`: the request commits when the payment is
      new, and its session is closed in any case. A new payment comes with its
      outbox row, both at once; whatever else happens, this request has stored
      nothing. */
  method CreatePayment(session: PaymentSession, key: string, body: Body, urlAllowed: bool, later: Tables,
                       id: PaymentId, rid: RowId, at: real)
    returns (r: Result<Handed>)
    requires session.Clean()
    modifies session
    ensures session.Clean()
    ensures session.stored
            == if Inserts(old(session.stored), later, key, body, urlAllowed, id, rid)
               then WithPayment(later, id, rid, key, body, at)
               else if urlAllowed && !HasKey(old(session.stored.payments), key) then later
               else old(session.stored)
    ensures r.Ok? && r.value.isNew ==>
              && id in session.stored.payments && rid in session.stored.outbox
              && AsRequested(session.stored.payments[id], session.stored.outbox[rid], id, key, body, at)
              && session.stored.payments - {id} == later.payments && session.stored.outbox - {rid} == later.outbox
    ensures AnswersAs(old(session.stored), later, key, body, urlAllowed, id, rid, r)
    ensures RefusedOutright(old(session.stored.payments), later.payments, key, body, urlAllowed, id, r)
  {
    r := session.CreatePayment(key, body, urlAllowed, later, id, rid, at);
    if r.Ok? && r.value.isNew {
      session.Commit();
    }
    session.Close();
  }

  /** The key is free at the lookup and still free at the insert. */
  predicate Inserts(before: Tables, later: Tables, key: string, body: Body, urlAllowed: bool, id: PaymentId, rid: RowId) {
    && urlAllowed && body.terms.amount > 0
    && !HasKey(before.payments, key) && !HasKey(later.payments, key)
    && id !in later.payments && rid !in later.outbox
  }

  /** `p` is the stored payment with the key, and the terms agree with it. */
  predicate Replays(payments: map<PaymentId, Payment>, key: string, body: Body, urlAllowed: bool, p: PaymentId) {
    urlAllowed && p in payments && payments[p].key == key && payments[p].terms == body.terms
  }

  function FailureOf(before: map<PaymentId, Payment>, later: Tables, key: string, body: Body, urlAllowed: bool,
                     id: PaymentId, rid: RowId): Failure {
    if !urlAllowed then WebhookUrlNotAllowed
    else if HasKey(before, key) then IdempotencyKeyConflict
    else if body.terms.amount <= 0 then PaymentAmountNotPositive
    else if id in later.payments then UnhandledIntegrity
    else if HasKey(later.payments, key) then IdempotencyKeyConflict
    else UnhandledIntegrity
  }

  /** The answer to a creation request: the new payment exactly if it is inserted,
      the stored one exactly if the key is stored with these terms, and the error
      of the first check that fails in every other case. */
  ghost predicate AnswersAs(before: Tables, later: Tables, key: string, body: Body, urlAllowed: bool,
                            id: PaymentId, rid: RowId, r: Result<Handed>) {
    && (r.Ok? && r.value.isNew <==> Inserts(before, later, key, body, urlAllowed, id, rid))
    && (r.Ok? && r.value.isNew ==> r.value.id == id)
    && (r.Ok? && !r.value.isNew ==> Replays(before.payments, key, body, urlAllowed, r.value.id))
    && (r.Refused? ==> r.failure == FailureOf(before.payments, later, key, body, urlAllowed, id, rid))
    && (KeysUnique(before.payments) ==>
          forall p :: Replays(before.payments, key, body, urlAllowed, p) ==> r == Ok(Handed(p, false)))
  }

  /** The errors by name: a URL that is not allowed, an amount that is not
      positive, a key taken between lookup and insert, other terms under the key. */
  ghost predicate RefusedOutright(before: map<PaymentId, Payment>, later: map<PaymentId, Payment>, key: string,
                                  body: Body, urlAllowed: bool, id: PaymentId, r: Result<Handed>) {
    var free := urlAllowed && !HasKey(before, key);
    && (!urlAllowed ==> r == Refused(WebhookUrlNotAllowed))
    && (free && body.terms.amount <= 0 ==> r == Refused(PaymentAmountNotPositive))
    && (free && body.terms.amount > 0 && id !in later && HasKey(later, key) ==> r == Refused(IdempotencyKeyConflict))
    && (urlAllowed && KeysUnique(before) ==>
          forall p | p in before && before[p].key == key && before[p].terms != body.terms ::
            r == Refused(IdempotencyKeyConflict))
  }

  /** Creation keeps keys unique. */
  lemma CreationKeepsKeysUnique(before: Tables, later: Tables, key: string, body: Body, urlAllowed: bool,
                                id: PaymentId, rid: RowId, at: real)
    requires KeysUnique(later.payments) && Inserts(before, later, key, body, urlAllowed, id, rid)
    ensures KeysUnique(WithPayment(later, id, rid, key, body, at).payments)
  {
  }

  /** Once the payment is stored, a request with its key that passes the URL check
      is answered with that payment exactly if its terms are those stored,
      whatever the note, and with a conflict otherwise. */
  lemma StoredKeyDecides(tables: Tables, later: Tables, key: string, id: PaymentId, again: Body,
                         newId: PaymentId, rid: RowId, r: Result<Handed>)
    requires KeysUnique(tables.payments) && id in tables.payments && tables.payments[id].key == key
    requires AnswersAs(tables, later, key, again, true, newId, rid, r)
    ensures r == if again.terms == tables.payments[id].terms then Ok(Handed(id, false))
                 else Refused(IdempotencyKeyConflict)
  {
    assert HasKey(tables.payments, key);
    if again.terms == tables.payments[id].terms {
      assert Replays(tables.payments, key, again, true, id);
    }
  }
}
