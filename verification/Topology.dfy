/** Exchanges, queues and bindings, and where a message goes. */
module Topology {
  import opened Basics
  import opened Entities

  datatype QueueName = PaymentsNew | PaymentsRetry(n: int) | PaymentsDlq

  datatype Exchange = PaymentsExchange | DeadLetterExchange

  /** A publish goes to a topic exchange with a routing key, or straight to a
      queue by name through the default exchange. */
  datatype Address = ViaExchange(exchange: Exchange, key: RoutingKey) | ToQueue(queue: QueueName)

  datatype QueueArgs = QueueArgs(ttlMs: Option<nat>, deadLetter: Option<Address>)

  datatype Binding = Binding(exchange: Exchange, key: RoutingKey, queue: QueueName)

  const RETRY_TTL_MS: seq<nat> := [2000, 8000, 32000]

  function MakeMainQueue(): QueueArgs {
    QueueArgs(None, Some(ViaExchange(DeadLetterExchange, SafetyNet)))
  }

  function MakeRetryQueue(ttlMs: nat): QueueArgs {
    QueueArgs(Some(ttlMs), Some(ViaExchange(PaymentsExchange, PaymentCreated)))
  }

  function MakeDlq(): QueueArgs {
    QueueArgs(None, None)
  }

  /** The queue a publish reaches, if any. */
  function Route(a: Address): Option<QueueName> {
    match a
    case ViaExchange(PaymentsExchange, PaymentCreated) => Some(PaymentsNew)
    case ViaExchange(DeadLetterExchange, PaymentFailed) => Some(PaymentsDlq)
    case ViaExchange(DeadLetterExchange, SafetyNet) => Some(PaymentsDlq)
    case ViaExchange(_, _) => None
    case ToQueue(PaymentsRetry(n)) => if 1 <= n <= |RETRY_TTL_MS| then Some(PaymentsRetry(n)) else None
    case ToQueue(q) => Some(q)
  }

  /** Where a queue sends what it drops. */
  function DeadLetterAddress(q: QueueName): Option<Address> {
    match q
    case PaymentsNew => MakeMainQueue().deadLetter
    case PaymentsRetry(n) => MakeRetryQueue(0).deadLetter
    case PaymentsDlq => MakeDlq().deadLetter
  }

  /** The broker's definitions, filled by `DeclareTopology`. */
  class Definitions {
    var queues: map<QueueName, QueueArgs>
    var bindings: set<Binding>

    constructor ()
      ensures queues == map[] && bindings == {}
    {
      queues, bindings := map[], {};
    }

    /** The bindings of an address: the queues that receive a publish. */
    ghost function Receivers(a: Address): set<QueueName>
      reads this
    {
      match a
      case ViaExchange(e, k) => set q | q in queues && Binding(e, k, q) in bindings
      case ToQueue(q) => if q in queues then {q} else {}
    }

    /** On an empty broker, afterwards every publish and every dead-lettering
        reaches exactly the queue `Route` names, and nothing else is declared. */
    method DeclareTopology()
      requires queues == map[] && bindings == {}
      modifies this
      ensures forall a :: Receivers(a) == if Route(a).Some? then {Route(a).value} else {}
      ensures queues.Keys == {PaymentsNew, PaymentsRetry(1), PaymentsRetry(2), PaymentsRetry(3), PaymentsDlq}
      ensures queues[PaymentsNew] == QueueArgs(None, Some(ViaExchange(DeadLetterExchange, SafetyNet)))
      ensures queues[PaymentsRetry(1)] == QueueArgs(Some(2000), Some(ViaExchange(PaymentsExchange, PaymentCreated)))
      ensures queues[PaymentsRetry(2)] == QueueArgs(Some(8000), Some(ViaExchange(PaymentsExchange, PaymentCreated)))
      ensures queues[PaymentsRetry(3)] == QueueArgs(Some(32000), Some(ViaExchange(PaymentsExchange, PaymentCreated)))
      ensures queues[PaymentsDlq] == QueueArgs(None, None)
      ensures bindings == {Binding(PaymentsExchange, PaymentCreated, PaymentsNew),
                           Binding(DeadLetterExchange, SafetyNet, PaymentsDlq),
                           Binding(DeadLetterExchange, PaymentFailed, PaymentsDlq)}
      ensures forall q | q in queues :: queues[q].deadLetter == DeadLetterAddress(q)
    {
      queues := queues[PaymentsNew := MakeMainQueue()];
      bindings := bindings + {Binding(PaymentsExchange, PaymentCreated, PaymentsNew)};
      var attempt := 1;
      while attempt <= |RETRY_TTL_MS|
        invariant 1 <= attempt <= |RETRY_TTL_MS| + 1
        invariant bindings == {Binding(PaymentsExchange, PaymentCreated, PaymentsNew)}
        invariant PaymentsNew in queues && queues[PaymentsNew] == MakeMainQueue()
        invariant forall q :: q in queues <==> q == PaymentsNew || (q.PaymentsRetry? && 1 <= q.n < attempt)
        invariant forall n | 1 <= n < attempt :: PaymentsRetry(n) in queues
                                                 && queues[PaymentsRetry(n)] == MakeRetryQueue(RETRY_TTL_MS[n - 1])
      {
        queues := queues[PaymentsRetry(attempt) := MakeRetryQueue(RETRY_TTL_MS[attempt - 1])];
        attempt := attempt + 1;
      }
      queues := queues[PaymentsDlq := MakeDlq()];
      bindings := bindings + {Binding(DeadLetterExchange, SafetyNet, PaymentsDlq)};
      bindings := bindings + {Binding(DeadLetterExchange, PaymentFailed, PaymentsDlq)};
    }
  }
}
