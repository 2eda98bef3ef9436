/**
 * The in-process publish/subscribe bus (template/src/Core/Events/event.bus.ts).
 *
 * What a subscriber's handler does is not visible here, so `publish` takes it
 * as a parameter: `behaviour(h, p)` says whether handler `h` completes or
 * throws (or rejects) on payload `p`. `publish` returns the per-handler trace
 * of what the wrappers did, in delivery order.
 */
module EventBus {
  import opened Wrappers
  import opened UserEntity

  /** `EventType`: a single event type in the template. */
  datatype EventType = SendWelcomeMail {
    function Name(): string {
      "SEND_WELCOME_MAIL"
    }
  }

  /** `EventPayloads[SEND_WELCOME_MAIL]`, that is `IRegisterMailDto`: `{user}`. */
  datatype Payload = RegisterMail(user: User)

  /** A subscriber's handler, identified opaquely. */
  datatype Handler = Handler(id: nat)

  /** What a handler call does: it completes, or throws or rejects with an error. */
  datatype HandlerResult = Completed | Threw(error: string)

  /** A wrapped handler: the handler and the service name its failures are logged under. */
  datatype Subscriber = Subscriber(serviceName: string, handler: Handler)

  /** A line the wrapper writes to the error log: the text and the error itself. */
  datatype LogLine = LogLine(text: string, error: string)

  /** One delivery: who got which payload, what the handler did, and what was logged. */
  datatype Delivery = Delivery(subscriber: Subscriber, payload: Payload, result: HandlerResult, log: Option<LogLine>)

  /** The wrapped handler run on one payload: a failure of the handler is caught
      and logged under the subscriber's name and the event type, never rethrown. */
  function Deliver(s: Subscriber, t: EventType, payload: Payload,
                   behaviour: (Handler, Payload) -> HandlerResult): (d: Delivery)
    ensures d.subscriber == s && d.payload == payload && d.result == behaviour(s.handler, payload)
    ensures d.log.Some? <==> d.result.Threw?
    ensures d.log.Some? ==>
      && d.log.value.error == d.result.error
      && d.log.value.text == "Error in service " + s.serviceName + " handling event " + t.Name() + ":"
  {
    match behaviour(s.handler, payload)
    case Completed => Delivery(s, payload, Completed, None)
    case Threw(e) =>
      Delivery(s, payload, Threw(e),
               Some(LogLine("Error in service " + s.serviceName + " handling event " + t.Name() + ":", e)))
  }

  /** Every wrapped handler of a list run on the payload, in list order. */
  function Deliveries(list: seq<Subscriber>, t: EventType, payload: Payload,
                      behaviour: (Handler, Payload) -> HandlerResult): (ds: seq<Delivery>)
    ensures |ds| == |list|
    ensures forall i :: 0 <= i < |list| ==> ds[i] == Deliver(list[i], t, payload, behaviour)
  {
    if list == [] then []
    else [Deliver(list[0], t, payload, behaviour)] + Deliveries(list[1..], t, payload, behaviour)
  }

  /** Delivering to a concatenation of lists is delivering to each in turn. */
  lemma {:induction false} DeliveriesAppend(a: seq<Subscriber>, b: seq<Subscriber>, t: EventType, payload: Payload,
                                            behaviour: (Handler, Payload) -> HandlerResult)
    ensures Deliveries(a + b, t, payload, behaviour)
         == Deliveries(a, t, payload, behaviour) + Deliveries(b, t, payload, behaviour)
  {
    if a != [] {
      assert (a + b)[1..] == a[1..] + b;
      DeliveriesAppend(a[1..], b, t, payload, behaviour);
    }
  }

  /** What one handler's delivery records depends on that handler alone: a
      failing handler changes nothing for the others, earlier or later. */
  lemma FailuresAreIsolated(list: seq<Subscriber>, t: EventType, payload: Payload,
                            b1: (Handler, Payload) -> HandlerResult, b2: (Handler, Payload) -> HandlerResult, i: nat)
    requires i < |list| && b1(list[i].handler, payload) == b2(list[i].handler, payload)
    ensures Deliveries(list, t, payload, b1)[i] == Deliveries(list, t, payload, b2)[i]
  {
  }

  /** Subscribing the same handler twice yields two deliveries per publish, one
      for each subscription, after the earlier subscribers'. */
  lemma SubscribingTwiceDeliversTwice(list: seq<Subscriber>, s: Subscriber, t: EventType, payload: Payload,
                                      behaviour: (Handler, Payload) -> HandlerResult)
    ensures var ds := Deliveries(list + [s] + [s], t, payload, behaviour);
      && |ds| == |list| + 2
      && ds[..|list|] == Deliveries(list, t, payload, behaviour)
      && ds[|list|] == ds[|list| + 1] == Deliver(s, t, payload, behaviour)
  {
    DeliveriesAppend(list, [s] + [s], t, payload, behaviour);
    assert list + [s] + [s] == list + ([s] + [s]);
  }

  /**
   * The bus object. `listeners` stands for the emitter's listener lists and
   * `subscriptions` for the bus's own map; `subscribe` appends the same wrapped
   * handler to both.
   */
  class Bus {
    var listeners: map<EventType, seq<Subscriber>>
    var subscriptions: map<EventType, seq<Subscriber>>

    predicate Valid()
      reads this
    {
      listeners == subscriptions
    }

    /** The wrapped handlers of type `t`, oldest first (`[]` when none). */
    function Listeners(t: EventType): seq<Subscriber>
      reads this
    {
      if t in listeners then listeners[t] else []
    }

    constructor ()
      ensures Valid() && listeners == map[]
    {
      listeners, subscriptions := map[], map[];
    }

    /** Appends exactly one wrapped handler at the end of the type's list. */
    method Subscribe(t: EventType, handler: Handler, serviceName: string)
      requires Valid()
      modifies this
      ensures Valid()
      ensures listeners == old(listeners)[t := old(Listeners(t)) + [Subscriber(serviceName, handler)]]
    {
      var wrapped := Subscriber(serviceName, handler);
      listeners := listeners[t := Listeners(t) + [wrapped]];
      subscriptions := subscriptions[t := (if t in subscriptions then subscriptions[t] else []) + [wrapped]];
    }

    /** Runs every wrapped handler of the type on the payload, in subscription
        order, over a snapshot of the list; it always completes and changes no
        subscription. */
    method Publish(t: EventType, payload: Payload, behaviour: (Handler, Payload) -> HandlerResult)
      returns (trace: seq<Delivery>)
      ensures |trace| == |Listeners(t)|
      ensures forall i :: 0 <= i < |trace| ==>
        && trace[i].subscriber == Listeners(t)[i] && trace[i].payload == payload
        && trace[i].result == behaviour(Listeners(t)[i].handler, payload)
      ensures trace == Deliveries(Listeners(t), t, payload, behaviour)
    {
      var snapshot := Listeners(t);
      trace := [];
      var i := 0;
      while i < |snapshot|
        invariant 0 <= i <= |snapshot|
        invariant |trace| == i
        invariant forall j :: 0 <= j < i ==> trace[j] == Deliver(snapshot[j], t, payload, behaviour)
      {
        trace := trace + [Deliver(snapshot[i], t, payload, behaviour)];
        i := i + 1;
      }
    }
  }

  /** Publishing to a type nobody subscribed to finds no wrapped handler,
      invokes nothing and completes normally. */
  method PublishWithoutSubscribersIsEmpty(bus: Bus, t: EventType, payload: Payload,
                                          behaviour: (Handler, Payload) -> HandlerResult)
    returns (trace: seq<Delivery>)
    requires t !in bus.listeners
    ensures bus.Listeners(t) == [] && trace == []
  {
    trace := bus.Publish(t, payload, behaviour);
  }
}
