// Synchronous named-event publish/subscribe (event_system.py). Callbacks are
// opaque: a handler is identified by a number, and triggering an event yields
// the calls that would be made, in the order they are made.

module EventSystem {

  /** Identity of a registered callback. */
  type Handler = nat

  /** An event: its type name and its keyword payload. */
  datatype Event<V> = Event(eventType: string, data: map<string, V>)

  /** One callback invocation made by `trigger`. */
  datatype Invocation<V> = Invocation(handler: Handler, event: Event<V>)

  /** The callbacks registered for `eventType`, in registration order. */
  function Subscribers(callbacks: map<string, seq<Handler>>, eventType: string): seq<Handler> {
    if eventType in callbacks then callbacks[eventType] else []
  }

  /** The callback map after appending `h` to the list of `eventType`
      (creating the list when absent). */
  function Subscribe(callbacks: map<string, seq<Handler>>, eventType: string, h: Handler): (r: map<string, seq<Handler>>)
    ensures Subscribers(r, eventType) == Subscribers(callbacks, eventType) + [h]
    ensures forall t :: t != eventType ==> Subscribers(r, t) == Subscribers(callbacks, t)
    ensures r.Keys == callbacks.Keys + {eventType}
  {
    callbacks[eventType := Subscribers(callbacks, eventType) + [h]]
  }

  /** There is no de-duplication: registering the same callback twice makes it
      run twice per trigger. */
  lemma {:induction false} SubscribeTwice(callbacks: map<string, seq<Handler>>, eventType: string, h: Handler)
    ensures var twice := Subscribe(Subscribe(callbacks, eventType, h), eventType, h);
            multiset(Subscribers(twice, eventType))[h] == multiset(Subscribers(callbacks, eventType))[h] + 2
  {
    var before := Subscribers(callbacks, eventType);
    var once := Subscribe(callbacks, eventType, h);
    assert Subscribers(once, eventType) == before + [h];
    var twice := Subscribe(once, eventType, h);
    assert Subscribers(twice, eventType) == before + [h] + [h];
    assert multiset(before + [h] + [h]) == multiset(before) + multiset{h} + multiset{h};
  }

  class EventManager<V> {
    var callbacks: map<string, seq<Handler>>

    constructor ()
      ensures callbacks == map[]
    {
      callbacks := map[];
    }

    /** The `register(event_type)` decorator applied to `callback`: registers
        it and hands it back unchanged. */
    method Register(eventType: string, callback: Handler) returns (r: Handler)
      modifies this
      ensures callbacks == Subscribe(old(callbacks), eventType, callback)
      ensures r == callback
    {
      On(eventType, callback);
      r := callback;
    }

    method On(eventType: string, callback: Handler)
      modifies this
      ensures callbacks == Subscribe(old(callbacks), eventType, callback)
    {
      if eventType !in callbacks {
        callbacks := callbacks[eventType := []];
      }
      callbacks := callbacks[eventType := callbacks[eventType] + [callback]];
    }

    /** Calls every callback registered for `eventType`, in registration
        order, each with the same event; no registrations, no calls. The
        callback map is left as it is (no `modifies`). */
    method Trigger(eventType: string, data: map<string, V>) returns (calls: seq<Invocation<V>>)
      ensures |calls| == |Subscribers(callbacks, eventType)|
      ensures forall i :: 0 <= i < |calls| ==>
                calls[i] == Invocation(Subscribers(callbacks, eventType)[i], Event(eventType, data))
    {
      var event := Event(eventType, data);
      calls := [];
      if eventType in callbacks {
        var handlers := callbacks[eventType];
        for i := 0 to |handlers|
          invariant |calls| == i
          invariant forall j :: 0 <= j < i ==> calls[j] == Invocation(handlers[j], event)
        {
          calls := calls + [Invocation(handlers[i], event)];
        }
      }
    }

    method ClearAll()
      modifies this
      ensures callbacks == map[]
      ensures forall t :: Subscribers(callbacks, t) == []
    {
      callbacks := map[];
    }
  }
}
