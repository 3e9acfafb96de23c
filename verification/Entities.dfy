/** The two tables of the service and the values stored in them. */
module Entities {
  import opened Basics

  type PaymentId = nat
  type RowId = nat

  datatype Currency = RUB | USD | EUR

  /** The part of a request body that takes part in the idempotency match.
      The amount is counted in units of the fourth decimal place. */
  datatype Terms = Terms(amount: int, currency: Currency, url: string)

  datatype Status = Pending | Succeeded | Failed

  /** The two columns written together when a payment has been processed. */
  datatype Outcome = Outcome(status: Status, processedAt: Option<real>)

  const UNPROCESSED := Outcome(Pending, None)

  ghost predicate Terminal(o: Outcome) {
    o.status != Pending && o.processedAt.Some?
  }

  /** `note` stands for the description and the meta data. */
  datatype Payment = Payment(key: string, terms: Terms, note: string, outcome: Outcome)

  datatype RoutingKey = PaymentCreated | PaymentFailed | SafetyNet

  datatype RowStatus = RowPending | RowPublished | RowFailed

  datatype Row = Row(
    aggregate: PaymentId,
    routingKey: RoutingKey,
    payload: PaymentId,
    status: RowStatus,
    attempts: nat,
    nextAttemptAt: real,
    createdAt: real,
    publishedAt: Option<real>,
    lastError: Option<string>)

  function NewPayment(key: string, terms: Terms, note: string): Payment {
    Payment(key, terms, note, UNPROCESSED)
  }

  /** The row written beside a new payment: its event names that payment. */
  function NewRow(id: PaymentId, at: real): Row {
    Row(id, PaymentCreated, id, RowPending, 0, at, at, None, None)
  }

  function MarkedRow(row: Row, at: real): Row {
    row.(status := RowPublished, publishedAt := Some(at), lastError := None)
  }

  function BumpedRow(row: Row, next: real, error: string): Row {
    row.(attempts := row.attempts + 1, lastError := Some(error), nextAttemptAt := next)
  }
}
