/**
 * The event emitter (emitter/Emitter.kt) and the subscription handle of
 * engineio/On.kt.
 *
 * Listeners are opaque values of a type `L` compared by equality; the
 * arguments of an emit are passed unchanged to every listener it calls, so
 * `Emit` returns only the ordered list of listeners to invoke. Listeners
 * run after the emitter has been updated; a listener that re-enters the
 * emitter while it is being emitted is not modelled.
 */
module Emitter {
  import C = Common


  /** The persistent table and the once table, each event name to its listeners in registration order. */
  datatype Emitter<L> = Emitter(callbacks: map<string, seq<L>>, onceCallbacks: map<string, seq<L>>)

  function Empty<L>(): Emitter<L>
  {
    Emitter(map[], map[])
  }

  /** `table[event].orEmpty()`. */
  function Get<L>(table: map<string, seq<L>>, event: string): seq<L>
  {
    if event in table then table[event] else []
  }

  /** `addListener`: append to the event's list, creating it if absent. */
  function Append<L>(table: map<string, seq<L>>, event: string, fn: L): (r: map<string, seq<L>>)
    ensures Get(r, event) == Get(table, event) + [fn]
    ensures forall ev :: ev != event ==> Get(r, ev) == Get(table, ev)
    ensures r.Keys == table.Keys + {event}
  {
    table[event := Get(table, event) + [fn]]
  }

  /** `on(event, fn)`: `fn` becomes the last persistent listener of `event`; nothing else changes. */
  function On<L>(e: Emitter<L>, event: string, fn: L): (r: Emitter<L>)
    ensures Get(r.callbacks, event) == Get(e.callbacks, event) + [fn]
    ensures forall ev :: ev != event ==> Get(r.callbacks, ev) == Get(e.callbacks, ev)
    ensures r.onceCallbacks == e.onceCallbacks
  {
    e.(callbacks := Append(e.callbacks, event, fn))
  }

  /** `once(event, fn)`: `fn` becomes the last once-listener of `event`; nothing else changes. */
  function Once<L>(e: Emitter<L>, event: string, fn: L): (r: Emitter<L>)
    ensures Get(r.onceCallbacks, event) == Get(e.onceCallbacks, event) + [fn]
    ensures forall ev :: ev != event ==> Get(r.onceCallbacks, ev) == Get(e.onceCallbacks, ev)
    ensures r.callbacks == e.callbacks
  {
    e.(onceCallbacks := Append(e.onceCallbacks, event, fn))
  }

  /** `off()`: no event has listeners afterwards. */
  function OffAll<L>(e: Emitter<L>): (r: Emitter<L>)
    ensures forall ev :: Listeners(r, ev) == []
  {
    Empty()
  }

  /** `off(event)`: removes both lists of `event` and leaves every other event alone. */
  function OffEvent<L>(e: Emitter<L>, event: string): (r: Emitter<L>)
    ensures Listeners(r, event) == []
    ensures forall ev :: ev != event ==> Get(r.callbacks, ev) == Get(e.callbacks, ev)
    ensures forall ev :: ev != event ==> Get(r.onceCallbacks, ev) == Get(e.onceCallbacks, ev)
  {
    Emitter(e.callbacks - {event}, e.onceCallbacks - {event})
  }

  /** Position of the first element equal to `x`. */
  function IndexOf<L(==)>(s: seq<L>, x: L): (i: nat)
    requires x in s
    ensures i < |s| && s[i] == x && x !in s[..i]
  {
    if s[0] == x then 0
    else
      var j := IndexOf(s[1..], x);
      assert s[..j + 1] == [s[0]] + s[1..][..j];
      j + 1
  }

  /** `MutableList.remove(x)`: drops the first element equal to `x`, if any. */
  function RemoveFirst<L(==)>(s: seq<L>, x: L): (r: seq<L>)
    ensures x !in s ==> r == s
    ensures x in s ==> r == s[..IndexOf(s, x)] + s[IndexOf(s, x) + 1..]
  {
    if |s| == 0 then []
    else if s[0] == x then s[1..]
    else
      var rest := RemoveFirst(s[1..], x);
      if x in s then
        var j := IndexOf(s[1..], x);
        C.SpliceCons(s[0], s[1..], j);
        assert s == [s[0]] + s[1..];
        [s[0]] + rest
      else [s[0]] + rest
  }

  /** `table[event]?.remove(fn)`: only an existing list is touched. */
  function RemoveFrom<L(==)>(table: map<string, seq<L>>, event: string, fn: L): (r: map<string, seq<L>>)
    ensures Get(r, event) == RemoveFirst(Get(table, event), fn)
    ensures forall ev :: ev != event ==> Get(r, ev) == Get(table, ev)
    ensures r.Keys == table.Keys
  {
    if event in table then table[event := RemoveFirst(table[event], fn)] else table
  }

  /** `off(event, fn)`: removes the first occurrence of `fn` from the event's persistent and once lists. */
  function OffListener<L(==)>(e: Emitter<L>, event: string, fn: L): (r: Emitter<L>)
    ensures Get(r.callbacks, event) == RemoveFirst(Get(e.callbacks, event), fn)
    ensures Get(r.onceCallbacks, event) == RemoveFirst(Get(e.onceCallbacks, event), fn)
    ensures forall ev :: ev != event ==> Listeners(r, ev) == Listeners(e, ev)
  {
    Emitter(RemoveFrom(e.callbacks, event, fn), RemoveFrom(e.onceCallbacks, event, fn))
  }

  /** `listeners(event)`: the persistent listeners followed by the once-listeners. */
  function Listeners<L>(e: Emitter<L>, event: string): seq<L>
  {
    Get(e.callbacks, event) + Get(e.onceCallbacks, event)
  }

  /** `hasListeners(event)`: some persistent or once listener exists. */
  function HasListeners<L>(e: Emitter<L>, event: string): (r: bool)
    ensures r <==> |Listeners(e, event)| > 0
  {
    !(|Get(e.callbacks, event)| == 0 && |Get(e.onceCallbacks, event)| == 0)
  }

  /**
   * `emit(event, args)`: the listeners to call, persistent ones first, each
   * list in registration order, and the emitter afterwards, which has lost
   * the event's once list and nothing else.
   */
  function Emit<L>(e: Emitter<L>, event: string): (r: (seq<L>, Emitter<L>))
    ensures r.0 == Listeners(e, event)
    ensures r.1.callbacks == e.callbacks
    ensures event !in r.1.onceCallbacks
    ensures forall ev :: ev != event ==> Get(r.1.onceCallbacks, ev) == Get(e.onceCallbacks, ev)
  {
    (Get(e.callbacks, event) + Get(e.onceCallbacks, event), e.(onceCallbacks := e.onceCallbacks - {event}))
  }

  /** Emitting an event nobody listens to calls nobody and changes no event's listeners. */
  lemma EmitWithoutListeners<L>(e: Emitter<L>, event: string)
    requires !HasListeners(e, event)
    ensures Emit(e, event).0 == []
    ensures forall ev :: Listeners(Emit(e, event).1, ev) == Listeners(e, ev)
  {
    var r := Emit(e, event).1;
    forall ev ensures Listeners(r, ev) == Listeners(e, ev) {
      if ev == event {
        assert Get(e.onceCallbacks, event) == [];
      }
    }
  }

  /** All the calls of `n` successive emits of the same event. */
  function EmitTimes<L>(e: Emitter<L>, event: string, n: nat): seq<L>
    decreases n
  {
    if n == 0 then [] else
      var (calls, e') := Emit(e, event);
      calls + EmitTimes(e', event, n - 1)
  }

  function Count<L(==)>(s: seq<L>, x: L): nat
  {
    multiset(s)[x]
  }

  /** After the first emit, repeated emits only ever call the persistent listeners. */
  lemma {:induction false} EmitTimesAfterFirst<L>(e: Emitter<L>, event: string, n: nat, fn: L)
    requires event !in e.onceCallbacks
    requires fn !in Get(e.callbacks, event)
    ensures Count(EmitTimes(e, event, n), fn) == 0
    decreases n
  {
    if n > 0 {
      var (calls, e') := Emit(e, event);
      assert calls == Get(e.callbacks, event);
      EmitTimesAfterFirst(e', event, n - 1, fn);
      assert EmitTimes(e, event, n) == calls + EmitTimes(e', event, n - 1);
      assert multiset(EmitTimes(e, event, n)) == multiset(calls) + multiset(EmitTimes(e', event, n - 1));
    }
  }

  /**
   * A listener registered once (and not otherwise) for an event is called
   * exactly once over any positive number of emits of that event.
   */
  lemma OnceFiresOnce<L>(e: Emitter<L>, event: string, fn: L, n: nat)
    requires fn !in Listeners(e, event)
    requires n >= 1
    ensures Count(EmitTimes(Once(e, event, fn), event, n), fn) == 1
  {
    var e1 := Once(e, event, fn);
    var (calls, e2) := Emit(e1, event);
    assert calls == Get(e.callbacks, event) + (Get(e.onceCallbacks, event) + [fn]);
    assert Count(calls, fn) == 1 by {
      assert multiset(calls) == multiset(Get(e.callbacks, event)) + multiset(Get(e.onceCallbacks, event)) + multiset{fn};
    }
    EmitTimesAfterFirst(e2, event, n - 1, fn);
    assert EmitTimes(e1, event, n) == calls + EmitTimes(e2, event, n - 1);
    assert multiset(EmitTimes(e1, event, n)) == multiset(calls) + multiset(EmitTimes(e2, event, n - 1));
  }

  /**
   * On.kt: the handle returned by `on(obj, event, fn)` is destroyed by
   * `off(event, fn)`. Subscribing a listener that was not registered for the
   * event and destroying the handle leaves every event's listeners as before.
   */
  function Subscribe<L>(e: Emitter<L>, event: string, fn: L): (r: Emitter<L>)
    ensures Listeners(r, event) == Get(e.callbacks, event) + [fn] + Get(e.onceCallbacks, event)
  {
    On(e, event, fn)
  }

  function Destroy<L(==)>(e: Emitter<L>, event: string, fn: L): Emitter<L>
  {
    OffListener(e, event, fn)
  }

  lemma SubscribeThenDestroy<L>(e: Emitter<L>, event: string, fn: L)
    requires fn !in Listeners(e, event)
    ensures forall ev :: Listeners(Destroy(Subscribe(e, event, fn), event, fn), ev) == Listeners(e, ev)
  {
    var p := Get(e.callbacks, event);
    RemoveFirstAppended(p, fn);
    assert fn !in Get(e.onceCallbacks, event);
  }

  lemma {:induction false} RemoveFirstAppended<L>(s: seq<L>, x: L)
    requires x !in s
    ensures RemoveFirst(s + [x], x) == s
  {
    if |s| > 0 {
      var t := s + [x];
      assert t[0] == s[0] && t[0] != x;
      assert t[1..] == s[1..] + [x];
      assert RemoveFirst(t, x) == [s[0]] + RemoveFirst(s[1..] + [x], x);
      RemoveFirstAppended(s[1..], x);
      assert s == [s[0]] + s[1..];
    }
  }
}
