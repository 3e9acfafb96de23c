/** The publisher: three ways to put a message on the broker. */
module Messaging {
  import opened Basics
  import opened Entities
  import opened RetryHeaders
  import opened Topology
  import opened Pipeline

  /** What became of a publish: the broker has accepted the message, or the
      call has raised, or both. */
  datatype Sending = Sending(accepted: bool, raised: bool, error: string)

  predicate Possible(e: Sending) {
    e.accepted || e.raised
  }

  /** One message more, at the end of retry queue `n`, due then. */
  ghost predicate Waits(b: Broker, b': Broker, n: nat, m: Message, due: real) {
    && WellFormed(b) && 1 <= n <= 3
    && b' == b.(retry := b.retry[n - 1 := b.retry[n - 1] + [Delayed(m, due)]])
  }

  class Publisher {
    var broker: Broker
    /** Publishes are always accepted and never raise. */
    const reliable: bool

    constructor (broker: Broker, reliable: bool)
      ensures this.broker == broker && this.reliable == reliable
    {
      this.broker := broker;
      this.reliable := reliable;
    }

    /** The connection decides what becomes of the message. */
    method Send(a: Address, m: Message, now: real) returns (e: Sending)
      requires WellFormed(broker)
      modifies this`broker
      ensures Possible(e) && (reliable ==> e.accepted && !e.raised)
      ensures broker == if e.accepted then Pipeline.Publish(old(broker), a, m, now) else old(broker)
    {
      if reliable {
        e := Sending(true, false, "");
      } else {
        assert Possible(Sending(true, false, ""));
        e :| Possible(e);
      }
      if e.accepted {
        Put(a, m, now);
      }
    }

    /** The broker routes and queues a message. */
    method Put(a: Address, m: Message, now: real)
      requires WellFormed(broker)
      modifies this`broker
      ensures broker == Pipeline.Publish(old(broker), a, m, now)
    {
      match Route(a)
      case None =>
      case Some(PaymentsNew) => broker := broker.(incoming := broker.incoming + [m]);
      case Some(PaymentsDlq) => broker := broker.(dead := broker.dead + [m]);
      case Some(PaymentsRetry(n)) =>
        var waiting := broker.retry[n - 1] + [Delayed(m, now + TtlSeconds(n))];
        broker := broker.(retry := broker.retry[n - 1 := waiting]);
    }

    /** To the main exchange. A new event has no headers. */
    method Publish(key: RoutingKey, payload: PaymentId, now: real) returns (e: Sending)
      requires WellFormed(broker)
      modifies this`broker
      ensures Possible(e) && (reliable ==> e.accepted && !e.raised)
      ensures broker == if e.accepted
                        then Pipeline.Publish(old(broker), ViaExchange(PaymentsExchange, key),
                                              Message(payload, NO_HEADERS, Trail([], true)), now)
                        else old(broker)
      ensures e.accepted && key == PaymentCreated ==>
                broker == old(broker).(incoming := old(broker).incoming
                                         + [Message(payload, Headers(NoCount, None, None, NoDeath), Trail([], true))])
    {
      e := Send(ViaExchange(PaymentsExchange, key), Message(payload, NO_HEADERS, Trail([], true)), now);
    }

    /** To the dead-letter exchange. */
    method PublishToDlx(key: RoutingKey, m: Message, now: real) returns (e: Sending)
      requires WellFormed(broker)
      modifies this`broker
      ensures Possible(e) && (reliable ==> e.accepted && !e.raised)
      ensures broker == if e.accepted
                        then Pipeline.Publish(old(broker), ViaExchange(DeadLetterExchange, key), m, now)
                        else old(broker)
      ensures e.accepted && key == PaymentFailed ==> broker == old(broker).(dead := old(broker).dead + [m])
    {
      e := Send(ViaExchange(DeadLetterExchange, key), m, now);
    }

    /** Straight to a queue, by name. */
    method PublishToQueue(q: QueueName, m: Message, now: real) returns (e: Sending)
      requires WellFormed(broker)
      modifies this`broker
      ensures Possible(e) && (reliable ==> e.accepted && !e.raised)
      ensures broker == if e.accepted then Pipeline.Publish(old(broker), ToQueue(q), m, now) else old(broker)
      ensures e.accepted && q == PaymentsRetry(1) ==> Waits(old(broker), broker, 1, m, now + 2.0)
      ensures e.accepted && q == PaymentsRetry(2) ==> Waits(old(broker), broker, 2, m, now + 8.0)
      ensures e.accepted && q == PaymentsRetry(3) ==> Waits(old(broker), broker, 3, m, now + 32.0)
    {
      e := Send(ToQueue(q), m, now);
    }
  }

  /** The clock never runs backwards. */
  method Now(last: real) returns (t: real)
    ensures t >= last
  {
    var elapsed: real :| elapsed >= 0.0;
    t := last + elapsed;
  }
}
