/**
 * The event bus: a dictionary from an event's exact type to the set of its
 * listeners, with subscribe, unsubscribe and synchronous dispatch.
 * A listener is an identity (the object whose bound method it is, and which
 * handler of that object), not a closure. Dispatch is recorded in a call log,
 * so what a handler does is stated by the modules that own the handler.
 */
module Events {
  import opened Wrappers

  /** The event classes of the kernel. `Base` is the common superclass `Event`. */
  datatype EventType =
    | Base
    | EnvironmentUpdate | AdvanceTimeStep | Render
    | Pause | Unpause
    | SyncBodyWithSimObject | ExertForces | SyncSimObjectWithBody | PostPhysicsUpdate
    | CameraRender | TrailReset | CalculateOffset | UpdateValues
    | SimulationLoad | SimulationParametersChanged

  /** An event object; its runtime type is `kind`. */
  datatype Event = Event(kind: EventType)

  /** The bound methods that the kernel registers as listeners. */
  datatype Handler =
    | OnEnvironmentUpdate | OnAdvanceTimeStep | OnRender
    | OnSyncBody | OnSyncSimObject | OnExertForces | OnPostPhysics
    | OnCameraRender | OnTrailReset | OnCalculateOffset | OnUpdateValues

  /** A bound method: the object it is bound to and the method. */
  datatype Listener = Listener(owner: object, handler: Handler)

  /** What `add_listener` may be handed: a callable, or some other value. */
  datatype Callee = Callable(listener: Listener) | NotCallable

  /** One invocation `listener(event)` made by `raise_event`. */
  datatype Call = Call(listener: Listener, event: Event)

  type Registry = map<EventType, set<Listener>>

  /** The listeners that an event of exactly type `t` reaches. */
  function ListenersOf(m: Registry, t: EventType): set<Listener> {
    if t in m then m[t] else {}
  }

  /** The registry after `add_listener(t, l)`. */
  function Subscribe(m: Registry, t: EventType, l: Listener): (r: Registry)
    ensures ListenersOf(r, t) == ListenersOf(m, t) + {l}
    ensures forall u :: u != t ==> ListenersOf(r, u) == ListenersOf(m, u)
  {
    m[t := ListenersOf(m, t) + {l}]
  }

  /** The registry after a successful `remove_listener(t, l)`. */
  function Unsubscribe(m: Registry, t: EventType, l: Listener): (r: Registry)
    requires t in m
    ensures ListenersOf(r, t) == ListenersOf(m, t) - {l}
    ensures forall u :: u != t ==> ListenersOf(r, u) == ListenersOf(m, u)
  {
    m[t := m[t] - {l}]
  }

  /** `s` lists every element of `S` exactly once, in some order. */
  ghost predicate IsEnumeration<T>(s: seq<T>, S: set<T>) {
    && (forall i :: 0 <= i < |s| ==> s[i] in S)
    && (forall x :: x in S ==> x in s)
    && (forall i, j :: 0 <= i < j < |s| ==> s[i] != s[j])
  }

  /** The call log produced by calling each of `ls`, in order, with `e`. */
  function CallsOf(ls: seq<Listener>, e: Event): (r: seq<Call>)
    ensures |r| == |ls|
    ensures forall i :: 0 <= i < |r| ==> r[i] == Call(ls[i], e)
  {
    if ls == [] then [] else CallsOf(ls[..|ls| - 1], e) + [Call(ls[|ls| - 1], e)]
  }

  /** Iteration over a set: some listing of its elements, each exactly once. */
  method Enumerate<T>(s: set<T>) returns (order: seq<T>)
    ensures IsEnumeration(order, s)
  {
    order := [];
    var rest := s;
    while rest != {}
      invariant rest <= s
      invariant forall i :: 0 <= i < |order| ==> order[i] in s && order[i] !in rest
      invariant forall x :: x in s ==> x in rest || x in order
      invariant forall i, j :: 0 <= i < j < |order| ==> order[i] != order[j]
      decreases |rest|
    {
      var x :| x in rest;
      order := order + [x];
      rest := rest - {x};
    }
  }

  /** How many times `x` occurs in `s`. */
  function Count<T(==)>(s: seq<T>, x: T): nat {
    if s == [] then 0 else (if s[0] == x then 1 else 0) + Count(s[1..], x)
  }

  lemma {:induction false} CountAppend<T>(a: seq<T>, b: seq<T>, x: T)
    ensures Count(a + b, x) == Count(a, x) + Count(b, x)
  {
    if a == [] {
      assert a + b == b;
    } else {
      assert (a + b)[1..] == a[1..] + b;
      CountAppend(a[1..], b, x);
    }
  }

  lemma {:induction false} CountAbsent<T>(s: seq<T>, x: T)
    requires x !in s
    ensures Count(s, x) == 0
  {
    if s != [] {
      CountAbsent(s[1..], x);
    }
  }

  /** In a sequence without repetitions every element occurs exactly once. */
  lemma {:induction false} CountDistinct<T>(s: seq<T>, x: T)
    requires forall i, j :: 0 <= i < j < |s| ==> s[i] != s[j]
    requires x in s
    ensures Count(s, x) == 1
  {
    if s[0] == x {
      assert x !in s[1..] by {
        forall k | 0 <= k < |s| - 1 ensures s[1..][k] != x {
          assert s[1..][k] == s[k + 1];
        }
      }
      CountAbsent(s[1..], x);
    } else {
      CountDistinct(s[1..], x);
    }
  }

  /** An enumeration has as many entries as the set has elements. */
  lemma {:induction false} EnumerationSize<T>(s: seq<T>, S: set<T>)
    requires IsEnumeration(s, S)
    ensures |s| == |S|
  {
    if s == [] {
      assert forall x :: x in S ==> x in s;
      assert S == {};
    } else {
      var x := s[0];
      assert IsEnumeration(s[1..], S - {x}) by {
        forall i | 0 <= i < |s[1..]| ensures s[1..][i] in S - {x} {
          assert s[1..][i] == s[i + 1];
          assert s[i + 1] != s[0];
        }
        forall y | y in S - {x} ensures y in s[1..] {
          var k :| 0 <= k < |s| && s[k] == y;
          assert k != 0;
          assert s[1..][k - 1] == y;
        }
      }
      EnumerationSize(s[1..], S - {x});
    }
  }

  /** The calls to `l` made while dispatching `e` to the enumeration `called`. */
  lemma {:induction false} CallsOfCount(ls: seq<Listener>, e: Event, l: Listener)
    ensures Count(CallsOf(ls, e), Call(l, e)) == Count(ls, l)
  {
    if ls != [] {
      assert CallsOf(ls, e)[1..] == CallsOf(ls[1..], e);
      CallsOfCount(ls[1..], e, l);
    }
  }

  /**
   * Dispatch reaches exactly the listeners registered for the event's own
   * type, each exactly once: a listener registered only for another type
   * (the superclass `Base` included) is not called.
   */
  lemma DispatchExactlyOnce(m: Registry, called: seq<Listener>, e: Event, l: Listener)
    requires IsEnumeration(called, ListenersOf(m, e.kind))
    ensures Count(CallsOf(called, e), Call(l, e)) == if l in ListenersOf(m, e.kind) then 1 else 0
  {
    CallsOfCount(called, e, l);
    if l in ListenersOf(m, e.kind) {
      CountDistinct(called, l);
    } else {
      CountAbsent(called, l);
    }
  }

  /** Subscribing the same listener twice leaves a single entry. */
  lemma SubscribeIdempotent(m: Registry, t: EventType, l: Listener)
    ensures Subscribe(Subscribe(m, t, l), t, l) == Subscribe(m, t, l)
  {
  }

  /** Unsubscribing right after subscribing a new listener restores its type's set. */
  lemma UnsubscribeUndoesSubscribe(m: Registry, t: EventType, l: Listener)
    requires l !in ListenersOf(m, t)
    ensures ListenersOf(Unsubscribe(Subscribe(m, t, l), t, l), t) == ListenersOf(m, t)
  {
  }

  class EventSystem {
    var listeners: Registry
    /** Every event raised, in order. */
    var raised: seq<Event>
    /** Every listener invocation, in order. */
    var calls: seq<Call>

    constructor ()
      ensures listeners == map[] && raised == [] && calls == []
    {
      listeners := map[];
      raised := [];
      calls := [];
    }

    /** `add_listener(event_type, listener)`. */
    method AddListener(t: EventType, c: Callee) returns (r: Outcome)
      modifies this
      ensures c.NotCallable? ==> r == Fail(TypeError) && listeners == old(listeners)
      ensures c.Callable? ==> r == Pass && listeners == Subscribe(old(listeners), t, c.listener)
      ensures raised == old(raised) && calls == old(calls)
    {
      if c.NotCallable? {
        return Fail(TypeError);
      }
      if t !in listeners {
        listeners := listeners[t := {}];
      }
      listeners := listeners[t := listeners[t] + {c.listener}];
      r := Pass;
    }

    /** `remove_listener(event_type, listener)`: a KeyError for an unknown type or listener. */
    method RemoveListener(t: EventType, l: Listener) returns (r: Outcome)
      modifies this
      ensures r == Pass <==> l in ListenersOf(old(listeners), t)
      ensures r == Pass ==> listeners == Unsubscribe(old(listeners), t, l)
      ensures r.Fail? ==> r.error == KeyError && listeners == old(listeners)
      ensures raised == old(raised) && calls == old(calls)
    {
      if t !in listeners || l !in listeners[t] {
        return Fail(KeyError);
      }
      listeners := listeners[t := listeners[t] - {l}];
      r := Pass;
    }

    /** The start of `raise_event(event)`, before any listener is called. */
    method Announce(e: Event)
      modifies this`raised
      ensures raised == old(raised) + [e]
    {
      raised := raised + [e];
    }

    /** `listener(event)`: one call of a bound method. */
    method Invoke(l: Listener, e: Event)
      modifies this`calls
      ensures calls == old(calls) + [Call(l, e)]
    {
      calls := calls + [Call(l, e)];
    }

    /**
     * `raise_event(event)`: calls every listener registered for the exact type
     * of the event once, in the set's (unspecified) order; a type nobody
     * registered for is a no-op.
     */
    method RaiseEvent(e: Event) returns (called: seq<Listener>)
      modifies this
      ensures listeners == old(listeners)
      ensures raised == old(raised) + [e]
      ensures IsEnumeration(called, ListenersOf(listeners, e.kind))
      ensures calls == old(calls) + CallsOf(called, e)
    {
      raised := raised + [e];
      called := [];
      if e.kind !in listeners {
        return;
      }
      called := CallEach(listeners[e.kind], e);
    }

    /** The loop of `raise_event`: calls each listener of `s` once, in some order. */
    method CallEach(s: set<Listener>, e: Event) returns (called: seq<Listener>)
      modifies this`calls
      ensures IsEnumeration(called, s)
      ensures calls == old(calls) + CallsOf(called, e)
    {
      called := Enumerate(s);
      CallInOrder(called, e);
    }

    /** Calls each of `order` with `e`, in that order. */
    method CallInOrder(order: seq<Listener>, e: Event)
      modifies this`calls
      ensures calls == old(calls) + CallsOf(order, e)
    {
      var i := 0;
      while i < |order|
        invariant 0 <= i <= |order|
        invariant calls == old(calls) + CallsOf(order[..i], e)
      {
        Invoke(order[i], e);
        assert order[..i + 1][..i] == order[..i];
        i := i + 1;
      }
      assert order[..i] == order;
    }

    /**
     * `raise_event(event)` where the set's iteration order is known to the
     * caller as `order`: the calls of RaiseEvent, in that order.
     */
    method RaiseEventInOrder(e: Event, order: seq<Listener>)
      requires IsEnumeration(order, ListenersOf(listeners, e.kind))
      modifies this
      ensures listeners == old(listeners)
      ensures raised == old(raised) + [e]
      ensures calls == old(calls) + CallsOf(order, e)
    {
      raised := raised + [e];
      CallInOrder(order, e);
    }

    /** Drops every registration: the `clear_listeners` that the environment's teardown expects. */
    method ClearListeners()
      modifies this`listeners
      ensures forall t :: ListenersOf(listeners, t) == {}
    {
      listeners := map[];
    }
  }
}
