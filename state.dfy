/**
 * The application store of state.js: an event emitter holding a map whose
 * key set is fixed when it is constructed. Values are JSON-like; a
 * subscribed callback is identified by a number, and what the emitter
 * delivers is kept as a log of (listener, change) pairs.
 */
module StateStore {
  import opened Js

  /** The values the store holds (the chart instance is an opaque reference). */
  datatype Value =
    | Null
    | Bool(b: bool)
    | Num(n: real)
    | Str(s: string)
    | Arr(items: seq<Value>)
    | Obj(fields: map<string, Value>)
    | Ref(id: nat)

  /** The payload of a `change` event: `{ key, value }`. */
  datatype Change = Change(key: string, value: Value)

  /** One call of a listener with one change. */
  datatype Delivery = Delivery(listener: nat, change: Change)

  /** The store's keys and their defaults, as the constructor lays them out. */
  function InitialState(): map<string, Value>
  {
    map[
      "testMetadata" := Obj(map[]),
      "masterCalibrationData" := Obj(map[]),
      "chartData" := Arr([]),
      "peakValue" := Num(0.0),
      "isPolling" := Bool(false),
      "chartInstance" := Null,
      "settings" := Obj(map[]),
      "isDeviceConnected" := Bool(false),
      "lastLoadTons" := Num(0.0),
      "lastPushTime" := Num(0.0),
      "connectInProgress" := Bool(false)
    ]
  }

  /** The defaults the rest of the application relies on. */
  lemma InitialDefaults()
    ensures "peakValue" in InitialState() && InitialState()["peakValue"] == Num(0.0)
    ensures "chartData" in InitialState() && InitialState()["chartData"] == Arr([])
    ensures "isPolling" in InitialState() && InitialState()["isPolling"] == Bool(false)
    ensures "testMetadata" in InitialState() && InitialState()["testMetadata"] == Obj(map[])
    ensures "chartInstance" in InitialState() && InitialState()["chartInstance"] == Null
    ensures InitialState().Keys == {"testMetadata", "masterCalibrationData", "chartData", "peakValue",
                                    "isPolling", "chartInstance", "settings", "isDeviceConnected",
                                    "lastLoadTons", "lastPushTime", "connectInProgress"}
  {
  }

  /** `emit`: every listener, in the order they subscribed, is called once. */
  function Deliver(listeners: seq<nat>, c: Change): (r: seq<Delivery>)
    ensures |r| == |listeners|
    ensures forall i :: 0 <= i < |r| ==> r[i] == Delivery(listeners[i], c)
  {
    if listeners == [] then [] else [Delivery(listeners[0], c)] + Deliver(listeners[1..], c)
  }

  /** The changes one listener has been called with, in order. */
  function ReceivedBy(log: seq<Delivery>, l: nat): seq<Change>
  {
    if log == [] then []
    else
      var last := log[|log| - 1];
      ReceivedBy(log[..|log| - 1], l) + (if last.listener == l then [last.change] else [])
  }

  /** How many times `l` occurs among the listeners. */
  function Occurrences(listeners: seq<nat>, l: nat): nat
  {
    if listeners == [] then 0
    else (if listeners[0] == l then 1 else 0) + Occurrences(listeners[1..], l)
  }

  function Repeat(c: Change, n: nat): (r: seq<Change>)
    ensures |r| == n && forall i :: 0 <= i < n ==> r[i] == c
  {
    if n == 0 then [] else [c] + Repeat(c, n - 1)
  }

  lemma {:induction false} ReceivedByAppend(a: seq<Delivery>, b: seq<Delivery>, l: nat)
    ensures ReceivedBy(a + b, l) == ReceivedBy(a, l) + ReceivedBy(b, l)
  {
    if b == [] {
      assert a + b == a;
    } else {
      var init := b[..|b| - 1];
      assert (a + b)[..|a + b| - 1] == a + init;
      ReceivedByAppend(a, init, l);
      assert b[..|b| - 1] == init;
    }
  }

  /** A callback subscribed last is among the listeners at least once. */
  lemma SubscribedOccurs(listeners: seq<nat>, callback: nat)
    ensures Occurrences(listeners + [callback], callback) >= 1
  {
    if listeners != [] {
      assert (listeners + [callback])[1..] == listeners[1..] + [callback];
      SubscribedOccurs(listeners[1..], callback);
    }
  }

  /**
   * A listener subscribed n times is called n times with each change it
   * follows, after whatever it had received before.
   */
  lemma {:induction false} DeliverReachesListener(log: seq<Delivery>, listeners: seq<nat>, c: Change, l: nat)
    ensures ReceivedBy(log + Deliver(listeners, c), l)
      == ReceivedBy(log, l) + Repeat(c, Occurrences(listeners, l))
  {
    ReceivedByAppend(log, Deliver(listeners, c), l);
    DeliverCount(listeners, c, l);
  }

  lemma {:induction false} DeliverCount(listeners: seq<nat>, c: Change, l: nat)
    ensures ReceivedBy(Deliver(listeners, c), l) == Repeat(c, Occurrences(listeners, l))
  {
    if listeners != [] {
      var rest := listeners[1..];
      assert Deliver(listeners, c) == [Delivery(listeners[0], c)] + Deliver(rest, c);
      ReceivedByAppend([Delivery(listeners[0], c)], Deliver(rest, c), l);
      DeliverCount(rest, c, l);
      assert ReceivedBy([Delivery(listeners[0], c)], l)
        == ReceivedBy([], l) + (if listeners[0] == l then [c] else []);
      var n := Occurrences(rest, l);
      if listeners[0] == l {
        assert [c] + Repeat(c, n) == Repeat(c, n + 1);
      }
    }
  }

  class StateManager {
    var state: map<string, Value>
    /** The callbacks registered with `subscribe`, in order. */
    var listeners: seq<nat>
    /** Every `change` event emitted so far. */
    var events: seq<Change>
    /** Every listener call made so far. */
    var deliveries: seq<Delivery>

    /** No key is ever added or removed. */
    predicate Valid()
      reads this
    {
      state.Keys == InitialState().Keys
    }

    constructor()
      ensures Valid()
      ensures state == InitialState()
      ensures listeners == [] && events == [] && deliveries == []
    {
      state := InitialState();
      listeners := [];
      events := [];
      deliveries := [];
    }

    /** `get(key)`: the value, or `undefined` (None) for a key the store does not have. */
    function Get(key: string): (r: Option<Value>)
      reads this
      ensures r.Some? <==> key in state
      ensures r.Some? ==> r.value == state[key]
    {
      if key in state then Some(state[key]) else None
    }

    /**
     * `set(key, value)`: an unknown key is refused and nothing happens;
     * otherwise the key takes the value and one `change` event reaches
     * every listener.
     */
    method Set(key: string, value: Value)
      requires Valid()
      modifies this
      ensures Valid()
      ensures listeners == old(listeners)
      ensures key !in old(state) ==>
        state == old(state) && events == old(events) && deliveries == old(deliveries)
      ensures key in old(state) ==>
        && state == old(state)[key := value]
        && Get(key) == Some(value)
        && (forall k :: k != key ==> Get(k) == old(Get(k)))
        && events == old(events) + [Change(key, value)]
        && deliveries == old(deliveries) + Deliver(listeners, Change(key, value))
    {
      if key !in state {
        return;
      }
      state := state[key := value];
      var c := Change(key, value);
      events := events + [c];
      deliveries := deliveries + Deliver(listeners, c);
    }

    /** `subscribe(callback)`: the callback hears every later change. */
    method Subscribe(callback: nat)
      requires Valid()
      modifies this
      ensures Valid()
      ensures listeners == old(listeners) + [callback]
      ensures state == old(state) && events == old(events) && deliveries == old(deliveries)
    {
      listeners := listeners + [callback];
    }
  }
}
