/**
 * The in-process publish/subscribe registry: event name to the handlers
 * subscribed to it, in subscription order.
 */
module Event {

  /** Handlers subscribed to `event` in a registry value; none when the event is absent. */
  function HandlersOf<H>(registry: map<string, seq<H>>, event: string): seq<H> {
    if event in registry then registry[event] else []
  }

  /** The registry after `f` is subscribed to `event`. */
  function Subscribed<H>(registry: map<string, seq<H>>, event: string, f: H): (r: map<string, seq<H>>)
    ensures HandlersOf(r, event) == HandlersOf(registry, event) + [f]
    ensures r.Keys == registry.Keys + {event}
    ensures forall e :: e != event ==> HandlersOf(r, e) == HandlersOf(registry, e)
  {
    registry[event := HandlersOf(registry, event) + [f]]
  }

  ghost function Count<H>(s: seq<H>, f: H): nat {
    if s == [] then 0 else (if s[0] == f then 1 else 0) + Count(s[1..], f)
  }

  lemma {:induction false} CountAppend<H>(s: seq<H>, t: seq<H>, f: H)
    ensures Count(s + t, f) == Count(s, f) + Count(t, f)
  {
    if s == [] {
      assert s + t == t;
    } else {
      CountAppend(s[1..], t, f);
      assert (s + t)[1..] == s[1..] + t;
    }
  }

  /** No de-duplication: each subscription of `f` adds one more call of `f` per publish. */
  lemma SubscribeTwiceCallsTwice<H>(registry: map<string, seq<H>>, event: string, f: H)
    ensures Count(HandlersOf(Subscribed(Subscribed(registry, event, f), event, f), event), f)
            == Count(HandlersOf(registry, event), f) + 2
  {
    var before := HandlersOf(registry, event);
    CountAppend(before, [f], f);
    CountAppend(before + [f], [f], f);
  }

  /** One call of a handler with the published data. */
  datatype Call<H, D> = Call(handler: H, data: D)

  /** The module-level registry. */
  class Registry<H> {
    var handlers: map<string, seq<H>>

    constructor ()
      ensures handlers == map[]
    {
      handlers := map[];
    }

    /** `subscribe(event)(f)`: create the list if needed, append `f`, return `f`. */
    method Subscribe(event: string, f: H) returns (g: H)
      modifies this
      ensures g == f
      ensures handlers == Subscribed(old(handlers), event, f)
    {
      if event !in handlers {
        handlers := handlers[event := []];
      }
      handlers := handlers[event := handlers[event] + [f]];
      g := f;
    }

    /**
     * `publish(event, data)`: call every handler subscribed to `event` with
     * `data`, once per subscription, in subscription order; an event nobody
     * subscribed to calls nothing.
     */
    method Publish<D>(event: string, data: D) returns (calls: seq<Call<H, D>>)
      ensures |calls| == |HandlersOf(handlers, event)|
      ensures forall i :: 0 <= i < |calls| ==> calls[i] == Call(HandlersOf(handlers, event)[i], data)
    {
      var fns := if event in handlers then handlers[event] else [];
      calls := [];
      for i := 0 to |fns|
        invariant |calls| == i
        invariant forall j :: 0 <= j < i ==> calls[j] == Call(fns[j], data)
      {
        calls := calls + [Call(fns[i], data)];
      }
    }
  }
}
