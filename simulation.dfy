/**
 * The component kernel: components with a set-up flag and a two-hook
 * teardown, the typed component containers, sim objects that always carry a
 * Transform, and the environment with setup-on-attach, deferred destruction
 * and the advance/update/render events.
 *
 * Only the kernel's own component classes are kinds here; the physics,
 * force, renderer and application components have modules of their own.
 */
module Simulation {
  import opened Wrappers
  import opened Events
  import opened Vectors

  /** The runtime class of a component. */
  datatype Kind =
    | Transform
    | ObjectComponent        // a plain SimObjectComponent subclass
    | MonoBehavior
    | EnvironmentComponent   // a plain EnvironmentComponent subclass
    | GlobalBehavior

  predicate IsObjectKind(k: Kind) {
    k.Transform? || k.ObjectComponent? || k.MonoBehavior?
  }

  predicate IsBehavior(k: Kind) {
    k.MonoBehavior? || k.GlobalBehavior?
  }

  /** A class that `get_component` and friends can be asked for. */
  datatype ComponentClass =
    | ComponentBase
    | SimObjectComponentClass
    | EnvironmentComponentClass
    | TransformClass
    | MonoBehaviorClass
    | GlobalBehaviorClass

  /** `isinstance(c, t)` for a component of kind `k`. */
  predicate IsInstance(k: Kind, t: ComponentClass) {
    match t
    case ComponentBase => true
    case SimObjectComponentClass => IsObjectKind(k)
    case EnvironmentComponentClass => !IsObjectKind(k)
    case TransformClass => k.Transform?
    case MonoBehaviorClass => k.MonoBehavior?
    case GlobalBehaviorClass => k.GlobalBehavior?
  }

  /** The overridable hooks whose calls a component records. */
  datatype Hook = Start | End | OnDestroy | AfterDestroy

  /** The hooks one successful `destroy` runs, in order. */
  function DestroyHooks(k: Kind): seq<Hook> {
    if IsBehavior(k) then [OnDestroy, End, AfterDestroy] else [OnDestroy, AfterDestroy]
  }

  /** The bound `__handle_update_event` of a behaviour, registered for EnvironmentUpdateEvent. */
  function UpdateListener(c: Component): Listener {
    Listener(c, OnEnvironmentUpdate)
  }

  function Elements<T>(s: seq<T>): set<T> {
    set i | 0 <= i < |s| :: s[i]
  }

  /** The components of a set of sim objects. */
  ghost function ComponentsOf(os: set<SimObject>): set<Component>
    reads os
  {
    set o, c | o in os && c in o.components :: c
  }

  // ---------------------------------------------------------------------
  // ComponentContainer: the base class shared by SimObject and SimEnvironment

  /** What `attach_component` may be handed. */
  datatype Attachable = AComponent(component: Component) | NotAComponent

  /** The base `attach_component`: a TypeError for a non-component, else a set insertion. */
  function AttachTo(cs: set<Component>, x: Attachable): (r: Result<set<Component>>)
    ensures r.Err? <==> x.NotAComponent?
    ensures r.Err? ==> r.error == TypeError
    ensures r.Ok? ==> x.component in r.value && cs <= r.value && r.value - cs <= {x.component}
  {
    if x.NotAComponent? then Err(TypeError) else Ok(cs + {x.component})
  }

  /** Attaching the same instance again changes nothing: the container is a set. */
  lemma AttachTwice(cs: set<Component>, c: Component)
    ensures AttachTo(AttachTo(cs, AComponent(c)).value, AComponent(c)) == AttachTo(cs, AComponent(c))
  {
  }

  /** The base `remove_component`: `set.remove`, a KeyError for an absent component. */
  function RemoveFrom(cs: set<Component>, c: Component): (r: Result<set<Component>>)
    ensures r.Ok? <==> c in cs
    ensures r.Err? ==> r.error == KeyError
    ensures r.Ok? ==> c !in r.value && r.value + {c} == cs
  {
    if c !in cs then Err(KeyError) else Ok(cs - {c})
  }

  /** The attached instances of class `t`. */
  ghost function Matching(cs: set<Component>, t: ComponentClass): set<Component> {
    set c | c in cs && IsInstance(c.kind, t)
  }

  /** `get_components`: every attached instance of `t`, once each, in set order. */
  method GetComponents(cs: set<Component>, t: ComponentClass) returns (r: seq<Component>)
    ensures IsEnumeration(r, Matching(cs, t))
  {
    r := [];
    var rest := cs;
    while rest != {}
      invariant rest <= cs
      invariant forall i :: 0 <= i < |r| ==> r[i] in Matching(cs, t) && r[i] !in rest
      invariant forall c :: c in Matching(cs, t) ==> c in rest || c in r
      invariant forall i, j :: 0 <= i < j < |r| ==> r[i] != r[j]
      decreases |rest|
    {
      var c :| c in rest;
      if IsInstance(c.kind, t) {
        r := r + [c];
      }
      rest := rest - {c};
    }
  }

  /** `try_get_component`: the first instance of `t` met in set order, or None. */
  method TryGetComponent(cs: set<Component>, t: ComponentClass) returns (r: Component?)
    ensures r == null <==> Matching(cs, t) == {}
    ensures r != null ==> r in cs && IsInstance(r.kind, t)
  {
    r := null;
    var rest := cs;
    while rest != {}
      invariant rest <= cs
      invariant forall c :: c in cs && c !in rest ==> !IsInstance(c.kind, t)
      decreases |rest|
    {
      var c :| c in rest;
      if IsInstance(c.kind, t) {
        assert c in Matching(cs, t);
        r := c;
        return;
      }
      rest := rest - {c};
    }
    assert forall c :: c in cs ==> !IsInstance(c.kind, t);
  }

  /** `get_component`: what `try_get_component` finds, or a ValueError. */
  method GetComponent(cs: set<Component>, t: ComponentClass) returns (r: Result<Component>)
    ensures r.Err? <==> Matching(cs, t) == {}
    ensures r.Err? ==> r.error == ValueError
    ensures r.Ok? ==> r.value in cs && IsInstance(r.value.kind, t)
  {
    var c := TryGetComponent(cs, t);
    if c != null {
      return Ok(c);
    }
    return Err(ValueError);
  }

  /** `has_component`: `try_get_component(t) is not None`. */
  method HasComponent(cs: set<Component>, t: ComponentClass) returns (b: bool)
    ensures b <==> Matching(cs, t) != {}
  {
    var c := TryGetComponent(cs, t);
    b := c != null;
  }

  // ---------------------------------------------------------------------
  // Component

  class Component {
    const kind: Kind
    var isSetUp: bool
    /** The owning sim object (SimObjectComponent kinds). */
    var simObject: SimObject?
    /** The owning environment (EnvironmentComponent kinds). */
    var environment: SimEnvironment?
    /** The hooks run so far, in order. */
    var hooks: seq<Hook>
    /** Transform data: position and rotation (meaningful for the Transform kind). */
    var position: Vec2
    var rotation: real

    constructor (kind: Kind)
      ensures this.kind == kind && !isSetUp && hooks == []
      ensures simObject == null && environment == null
      ensures position == Zero && rotation == 0.0
    {
      this.kind := kind;
      isSetUp := false;
      simObject := null;
      environment := null;
      hooks := [];
      position := Zero;
      rotation := 0.0;
    }

    /** The event system a behaviour reaches through its back-references, if any. */
    function Bus(): EventSystem?
      reads this, simObject
    {
      if kind.MonoBehavior? && simObject != null && simObject.environment != null then simObject.environment.events
      else if kind.GlobalBehavior? && environment != null then environment.events
      else null
    }

    /** The sim object the default `_on_destroy` detaches this component from. */
    function ObjectOwner(): set<SimObject>
      reads this
    {
      if (kind.Transform? || kind.ObjectComponent?) && simObject != null then {simObject} else {}
    }

    /** The environment the default `_on_destroy` detaches this component from. */
    function EnvOwner(): set<SimEnvironment>
      reads this
    {
      if kind.EnvironmentComponent? && environment != null then {environment} else {}
    }

    /**
     * `setup`: sets the flag (with no guard against a second call); a behaviour
     * then subscribes its update handler and runs `_start`.
     */
    method Setup() returns (r: Outcome)
      modifies this`isSetUp, this`hooks, Bus()
      ensures isSetUp
      ensures !IsBehavior(kind) ==> r == Pass && hooks == old(hooks)
      ensures IsBehavior(kind) && Bus() == null ==> r == Fail(AttributeError) && hooks == old(hooks)
      ensures IsBehavior(kind) && Bus() != null ==>
        && r == Pass
        && hooks == old(hooks) + [Start]
        && Bus().listeners == Subscribe(old(Bus().listeners), EnvironmentUpdate, UpdateListener(this))
      ensures Bus() != null ==> Bus().raised == old(Bus().raised) && Bus().calls == old(Bus().calls)
    {
      isSetUp := true;
      if IsBehavior(kind) {
        var bus := Bus();
        if bus == null {
          return Fail(AttributeError);
        }
        r := bus.AddListener(EnvironmentUpdate, Callable(UpdateListener(this)));
        hooks := hooks + [Start];
      } else {
        r := Pass;
      }
    }

    /**
     * `destroy`: `_on_destroy` and then `_after_destroy`. The default
     * `_on_destroy` detaches the component from its container; a behaviour's
     * runs `_end` and unsubscribes instead. `_after_destroy` clears the
     * back-reference. An exception in `_on_destroy` skips `_after_destroy`.
     */
    method Destroy() returns (r: Outcome)
      modifies this`hooks, this`simObject, this`environment
      modifies ObjectOwner()`components, EnvOwner()`components, Bus()
      ensures isSetUp == old(isSetUp)
      ensures r == Pass ==> hooks == old(hooks) + DestroyHooks(kind)
      ensures r.Fail? ==> hooks == old(hooks) + DestroyHooks(kind)[..|DestroyHooks(kind)| - 1]
      ensures IsObjectKind(kind) ==> environment == old(environment)
      ensures !IsObjectKind(kind) ==> simObject == old(simObject)
      ensures r == Pass && IsObjectKind(kind) ==> simObject == null
      ensures r == Pass && !IsObjectKind(kind) ==> environment == null
      ensures r.Fail? && IsBehavior(kind) ==> simObject == old(simObject) && environment == old(environment)
      // the default teardown of a sim-object component
      ensures (kind.Transform? || kind.ObjectComponent?) ==>
        if old(simObject) == null then r == Fail(AttributeError)
        else
          && simObject == null
          && old(simObject).components == old(simObject.components) - {this}
          && (r == Pass <==> this in old(simObject.components))
          && (r.Fail? ==> r.error == KeyError)
      // the default teardown of an environment component
      ensures kind.EnvironmentComponent? ==>
        if old(environment) == null then r == Fail(AttributeError)
        else
          && environment == null
          && old(environment).components == old(environment.components) - {this}
          && (r == Pass <==> this in old(environment.components))
          && (r.Fail? ==> r.error == KeyError)
      // a behaviour unsubscribes and stays in its container
      ensures IsBehavior(kind) ==>
        if old(Bus()) == null then r == Fail(AttributeError)
        else
          && (r == Pass <==> UpdateListener(this) in ListenersOf(old(Bus().listeners), EnvironmentUpdate))
          && (r == Pass ==> old(Bus()).listeners == Unsubscribe(old(Bus().listeners), EnvironmentUpdate, UpdateListener(this)))
          && (r.Fail? ==> r.error == KeyError && old(Bus()).listeners == old(Bus().listeners))
          && old(Bus()).raised == old(Bus().raised) && old(Bus()).calls == old(Bus().calls)
    {
      hooks := hooks + [OnDestroy];
      match kind {
        case Transform =>
          r := DetachFromSimObject();
        case ObjectComponent =>
          r := DetachFromSimObject();
        case EnvironmentComponent =>
          if environment == null {
            return Fail(AttributeError);
          }
          var env := environment;
          r := env.RemoveComponent(this);
        case MonoBehavior =>
          r := EndAndUnsubscribe();
        case GlobalBehavior =>
          r := EndAndUnsubscribe();
      }
      if r.Fail? {
        return;
      }
      hooks := hooks + [AfterDestroy];
      if IsObjectKind(kind) {
        simObject := null;
      } else {
        environment := null;
      }
    }

    /** `self.sim_object.remove_component(self)`. */
    method DetachFromSimObject() returns (r: Outcome)
      requires kind.Transform? || kind.ObjectComponent?
      modifies this`simObject, ObjectOwner()`components
      ensures old(simObject) == null ==> r == Fail(AttributeError) && simObject == null
      ensures old(simObject) != null ==>
        && simObject == null
        && old(simObject).components == old(simObject.components) - {this}
        && (r == Pass <==> this in old(simObject.components))
        && (r.Fail? ==> r.error == KeyError)
    {
      if simObject == null {
        return Fail(AttributeError);
      }
      var so := simObject;
      r := so.RemoveComponent(this);
    }

    /** A behaviour's `_on_destroy`: `_end`, then `remove_listener` of its update handler. */
    method EndAndUnsubscribe() returns (r: Outcome)
      requires IsBehavior(kind)
      modifies this`hooks, Bus()
      ensures hooks == old(hooks) + [End]
      ensures old(Bus()) == null ==> r == Fail(AttributeError)
      ensures old(Bus()) != null ==>
        && (r == Pass <==> UpdateListener(this) in ListenersOf(old(Bus().listeners), EnvironmentUpdate))
        && (r == Pass ==> old(Bus()).listeners == Unsubscribe(old(Bus().listeners), EnvironmentUpdate, UpdateListener(this)))
        && (r.Fail? ==> r.error == KeyError && old(Bus()).listeners == old(Bus().listeners))
        && old(Bus()).raised == old(Bus().raised) && old(Bus()).calls == old(Bus().calls)
    {
      hooks := hooks + [End];
      var bus := Bus();
      if bus == null {
        return Fail(AttributeError);
      }
      r := bus.RemoveListener(EnvironmentUpdate, UpdateListener(this));
    }

    /** `Transform.position = value`: stores the first two coordinates. */
    method SetPosition(value: Vec2)
      modifies this`position
      ensures position == value
    {
      position := value;
    }
  }

  // ---------------------------------------------------------------------
  // SimObject

  class SimObject {
    var tag: string
    var components: set<Component>
    var environment: SimEnvironment?
    var transform: Component?

    /** Every attached component is a sim-object component that points back here. */
    ghost predicate Owns()
      reads this, components
    {
      forall c :: c in components ==> c.simObject == this && IsObjectKind(c.kind)
    }

    /** The environment's event system, if the object is attached to one. */
    function Bus(): EventSystem?
      reads this
    {
      if environment == null then null else environment.events
    }

    /** The object before any component is attached. */
    constructor Empty(tag: string)
      ensures this.tag == tag && components == {} && environment == null && transform == null
    {
      this.tag := tag;
      components := {};
      environment := null;
      transform := null;
    }

    /**
     * `SimObject(tag, components)`: attaches the given components in order,
     * then attaches a new Transform unless one of them already is a
     * Transform. An environment component has no `attach_sim_object`, so it
     * raises AttributeError, after the components before it were already
     * pointed at the half-built object.
     */
    static method New(tag: string, comps: seq<Component>) returns (r: Result<SimObject>)
      modifies Elements(comps)`simObject
      ensures r.Ok? <==> forall i :: 0 <= i < |comps| ==> IsObjectKind(comps[i].kind)
      ensures r.Err? ==> r.error == AttributeError
      ensures r.Ok? ==>
        && fresh(r.value) && r.value.tag == tag && r.value.environment == null
        && r.value.transform != null && r.value.transform.kind.Transform?
        && r.value.components == Elements(comps) + {r.value.transform}
        && r.value.Owns()
        && (r.value.transform in Elements(comps) <==> exists i :: 0 <= i < |comps| && comps[i].kind.Transform?)
        && (r.value.transform !in Elements(comps) ==>
              fresh(r.value.transform) && r.value.transform.position == Zero && r.value.transform.rotation == 0.0)
    {
      var o := new SimObject.Empty(tag);
      var i := 0;
      while i < |comps|
        invariant 0 <= i <= |comps|
        invariant fresh(o) && o.tag == tag && o.environment == null && o.transform == null
        invariant forall j :: 0 <= j < i ==> IsObjectKind(comps[j].kind)
        invariant o.components == Elements(comps[..i])
        invariant forall c :: c in o.components ==> c.simObject == o && IsObjectKind(c.kind)
      {
        var c := comps[i];
        if !IsObjectKind(c.kind) {
          return Err(AttributeError);
        }
        o.components := o.components + {c};
        c.simObject := o;
        assert comps[..i + 1] == comps[..i] + [c];
        i := i + 1;
      }
      assert comps[..i] == comps;
      var t := TryGetComponent(o.components, TransformClass);
      if t == null {
        assert forall j :: 0 <= j < |comps| ==> comps[j] in o.components;
        t := new Component(Transform);
        t.simObject := o;
        o.components := o.components + {t};
      } else {
        assert t in Elements(comps);
      }
      o.transform := t;
      r := Ok(o);
    }

    method AttachEnvironment(env: SimEnvironment)
      modifies this`environment
      ensures environment == env
    {
      environment := env;
    }

    method RemoveEnvironment()
      modifies this`environment
      ensures environment == null
    {
      environment := null;
    }

    /**
     * `attach_component`: sets the component's back-reference, inserts it, and
     * sets it up when the environment is already set up.
     */
    method AttachComponent(c: Component) returns (r: Outcome)
      modifies this`components, c`simObject, c`isSetUp, c`hooks, Bus()
      ensures !IsObjectKind(c.kind) ==>
        r == Fail(AttributeError) && components == old(components) && c.simObject == old(c.simObject)
        && c.isSetUp == old(c.isSetUp) && c.hooks == old(c.hooks)
      ensures IsObjectKind(c.kind) ==> r == Pass && c.simObject == this && components == old(components) + {c}
      ensures IsObjectKind(c.kind) && !(environment != null && environment.isSetUp) ==>
        c.isSetUp == old(c.isSetUp) && c.hooks == old(c.hooks) && (Bus() != null ==> unchanged(Bus()))
      ensures IsObjectKind(c.kind) && environment != null && environment.isSetUp ==>
        && c.isSetUp
        && (c.kind.MonoBehavior? ==>
              && c.hooks == old(c.hooks) + [Start]
              && Bus().listeners == Subscribe(old(Bus().listeners), EnvironmentUpdate, UpdateListener(c))
              && Bus().raised == old(Bus().raised) && Bus().calls == old(Bus().calls))
        && (!c.kind.MonoBehavior? ==> c.hooks == old(c.hooks) && unchanged(Bus()))
    {
      if !IsObjectKind(c.kind) {
        return Fail(AttributeError);
      }
      c.simObject := this;
      var attached := AttachTo(components, AComponent(c));
      components := attached.value;
      r := Pass;
      if environment != null && environment.isSetUp {
        r := c.Setup();
      }
    }

    /** The environment this object is attached to, as a frame. */
    function EnvSet(): set<SimEnvironment>
      reads this
    {
      if environment == null then {} else {environment}
    }

    /**
     * One step of `destroy`: the teardown of one of this object's own
     * components. A Transform or plain component always detaches itself; a
     * MonoBehavior stays in the set and fails only when its handler is not
     * registered (or the object has no environment).
     */
    method DestroyOwned(c: Component) returns (r: Outcome)
      requires c in components && c.simObject == this && IsObjectKind(c.kind)
      modifies this`components, c`hooks, c`simObject, c`environment, Bus()
      ensures !c.kind.MonoBehavior? ==> r == Pass && components == old(components) - {c}
      ensures c.kind.MonoBehavior? ==> components == old(components)
      ensures r == Pass ==> c.simObject == null && c.hooks == old(c.hooks) + DestroyHooks(c.kind)
      ensures r.Fail? ==> c.simObject == this
      ensures Bus() != null ==>
        && ListenersOf(Bus().listeners, EnvironmentUpdate) <= ListenersOf(old(Bus().listeners), EnvironmentUpdate)
        && (r == Pass && c.kind.MonoBehavior? ==> UpdateListener(c) !in ListenersOf(Bus().listeners, EnvironmentUpdate))
        && Bus().raised == old(Bus().raised) && Bus().calls == old(Bus().calls)
    {
      r := c.Destroy();
    }

    /**
     * The loop of `destroy`, over a snapshot of the component set: every
     * component is torn down once, and a failure stops the loop.
     */
    method DestroyComponents() returns (r: Outcome)
      requires Owns()
      modifies this`components, components, Bus()
      ensures r == Pass ==> forall c :: c in old(components) ==>
        c.simObject == null && c.hooks == old(c.hooks) + DestroyHooks(c.kind)
      ensures Bus() != null ==>
        && (r == Pass ==> forall c :: c in old(components) && c.kind.MonoBehavior? ==>
              UpdateListener(c) !in ListenersOf(Bus().listeners, EnvironmentUpdate))
        && Bus().raised == old(Bus().raised) && Bus().calls == old(Bus().calls)
    {
      var snapshot := components;
      var rest := snapshot;
      while rest != {}
        invariant rest <= snapshot == old(components) && rest <= components
        invariant forall c :: c in rest ==> c.simObject == this && IsObjectKind(c.kind) && c.hooks == old(c.hooks)
        invariant forall c :: c in snapshot - rest ==> c.simObject == null && c.hooks == old(c.hooks) + DestroyHooks(c.kind)
        invariant Bus() != null ==> forall c :: c in snapshot - rest && c.kind.MonoBehavior? ==>
          UpdateListener(c) !in ListenersOf(Bus().listeners, EnvironmentUpdate)
        invariant Bus() != null ==> Bus().raised == old(Bus().raised) && Bus().calls == old(Bus().calls)
        decreases |rest|
      {
        var c :| c in rest;
        r := DestroyOwned(c);
        if r.Fail? {
          return;
        }
        rest := rest - {c};
      }
      r := Pass;
    }

    /**
     * `destroy` as the evidently intended teardown: every component is
     * destroyed, iterating over a snapshot of the set, then the set is cleared
     * and the object leaves its environment.
     */
    method Destroy() returns (r: Outcome)
      requires Owns()
      modifies this`components, this`environment, components, Bus(), EnvSet()`simObjects
      ensures old(environment) == null ==> r.Fail?
      ensures r == Pass ==>
        && components == {} && environment == null
        && this in old(environment.simObjects)
        && old(environment).simObjects == old(environment.simObjects) - {this}
      ensures r == Pass ==> forall c :: c in old(components) ==>
        c.simObject == null && c.hooks == old(c.hooks) + DestroyHooks(c.kind)
      ensures r == Pass && old(Bus()) != null ==> forall c :: c in old(components) && c.kind.MonoBehavior? ==>
        UpdateListener(c) !in ListenersOf(old(Bus()).listeners, EnvironmentUpdate)
      ensures old(Bus()) != null ==> old(Bus()).raised == old(Bus().raised) && old(Bus()).calls == old(Bus().calls)
    {
      var env := environment;
      r := DestroyComponents();
      if r.Fail? {
        return;
      }
      components := {};
      if env == null {
        return Fail(AttributeError);
      }
      r := env.RemoveSimObject(this);
    }

    /** The object holds components and none of them is a MonoBehavior: its teardown cannot stop early. */
    ghost predicate Plain()
      reads this, components
    {
      components != {} && forall c :: c in components ==> !c.kind.MonoBehavior?
    }

    /**
     * `destroy` as written: it destroys the components while iterating over
     * the live set. A MonoBehavior's teardown leaves it in the set, but any
     * other component's default teardown removes it, so the iteration raises
     * RuntimeError and the object never reaches the clear and never leaves
     * its environment. Only an object whose components are all
     * MonoBehaviors gets past the loop.
     */
    method DestroyAsWritten() returns (r: Outcome)
      requires Owns()
      modifies this`components, this`environment, components, Bus(), EnvSet()`simObjects
      ensures (exists c :: c in old(components) && !c.kind.MonoBehavior?) ==> r.Fail? && environment == old(environment)
      ensures old(Plain()) ==> r == Fail(RuntimeError)
      ensures r == Pass ==> components == {} && environment == null
      ensures old(environment) != null ==>
        old(environment).simObjects == old(environment.simObjects) - (if r == Pass then {this} else {})
    {
      var env := environment;
      var before := components;
      var rest := components;
      while rest != {}
        invariant rest <= components == before == old(components)
        invariant environment == env == old(environment)
        invariant env != null ==> env.simObjects == old(env.simObjects)
        invariant forall c :: c in rest ==> c.simObject == this && IsObjectKind(c.kind)
        invariant forall c :: c in before - rest ==> c.kind.MonoBehavior?
        decreases |rest|
      {
        var c :| c in rest;
        r := DestroyOwned(c);
        if r.Fail? {
          return;
        }
        if !c.kind.MonoBehavior? {
          assert c !in components;
        }
        if components != before {
          // the next step of the iteration notices that the set changed size
          return Fail(RuntimeError);
        }
        rest := rest - {c};
      }
      components := {};
      if env == null {
        return Fail(AttributeError);
      }
      r := env.RemoveSimObject(this);
    }

    /** `remove_component`: clears the back-reference, then `set.remove`. */
    method RemoveComponent(c: Component) returns (r: Outcome)
      modifies this`components, c`simObject
      ensures !IsObjectKind(c.kind) ==> r == Fail(AttributeError) && components == old(components) && c.simObject == old(c.simObject)
      ensures IsObjectKind(c.kind) ==>
        && c.simObject == null
        && components == old(components) - {c}
        && (r == Pass <==> c in old(components))
        && (r.Fail? ==> r.error == KeyError)
    {
      if !IsObjectKind(c.kind) {
        return Fail(AttributeError);
      }
      c.simObject := null;
      var removed := RemoveFrom(components, c);
      if removed.Err? {
        return Fail(removed.error);
      }
      components := removed.value;
      r := Pass;
    }
  }

  class SimEnvironment {
    var isSetUp: bool
    var simObjects: set<SimObject>
    /** The objects scheduled by `destroy_after_step`. */
    var toBeDestroyed: set<SimObject>
    var components: set<Component>
    const events: EventSystem

    /** The components of every attached sim object. */
    ghost function ObjectComponents(): set<Component>
      reads this, simObjects
    {
      ComponentsOf(simObjects)
    }

    /** Back-references agree with containment. */
    ghost predicate Linked()
      reads this, simObjects, components, ObjectComponents()
    {
      && (forall o :: o in simObjects ==> o.environment == this && o.Owns())
      && (forall c :: c in components ==> c.environment == this && !IsObjectKind(c.kind))
    }

    /** The update handler of `c` is registered here. */
    ghost predicate Subscribed(c: Component)
      reads events
    {
      UpdateListener(c) in ListenersOf(events.listeners, EnvironmentUpdate)
    }

    /** The scheduled objects can be torn down: each owns its components and is attached here or nowhere. */
    ghost predicate MarkedWellFormed()
      reads this, toBeDestroyed, ComponentsOf(toBeDestroyed)
    {
      forall o :: o in toBeDestroyed ==> o.Owns() && (o.environment == null || o.environment == this)
    }

    /**
     * `SimEnvironment(sim_objects, components)`: attaches the objects, then
     * the components, then runs `_setup`. A sim-object component among
     * `comps` stops construction with the AttributeError its attachment
     * raises; the objects stay attached to the unfinished environment.
     */
    static method New(objects: seq<SimObject>, comps: seq<Component>) returns (r: Result<SimEnvironment>)
      requires forall i :: 0 <= i < |objects| ==> objects[i].Owns()
      modifies Elements(objects)`environment, Elements(comps)`environment
      modifies ComponentsOf(Elements(objects))`isSetUp, ComponentsOf(Elements(objects))`hooks
      modifies Elements(comps)`isSetUp, Elements(comps)`hooks
      ensures r.Ok? <==> forall i :: 0 <= i < |comps| ==> !IsObjectKind(comps[i].kind)
      ensures r.Err? ==> r.error == AttributeError
      ensures r.Ok? ==>
        && fresh(r.value) && fresh(r.value.events)
        && r.value.simObjects == Elements(objects) && r.value.components == Elements(comps) && r.value.toBeDestroyed == {}
        && r.value.isSetUp && r.value.Linked()
      ensures r.Ok? ==> forall c :: c in r.value.components || c in r.value.ObjectComponents() ==> c.isSetUp
      ensures r.Ok? ==> forall c :: (c in r.value.components || c in r.value.ObjectComponents()) && IsBehavior(c.kind) ==>
        r.value.Subscribed(c)
    {
      var e := new SimEnvironment.Empty();
      e.AttachSimObjects(objects);
      var attached := e.AttachComponents(comps);
      if attached.Fail? {
        return Err(attached.error);
      }
      var _ := e.SetupAll();
      r := Ok(e);
    }

    /** The allocation alone: no objects, no components, not set up. */
    constructor Empty()
      ensures simObjects == {} && components == {} && toBeDestroyed == {} && !isSetUp
      ensures fresh(events) && events.listeners == map[] && events.raised == [] && events.calls == []
    {
      isSetUp := false;
      simObjects := {};
      toBeDestroyed := {};
      components := {};
      events := new EventSystem();
    }

    /** The first step of construction: `attach_sim_object` on each object while not yet set up. */
    method AttachSimObjects(objects: seq<SimObject>)
      requires !isSetUp
      requires forall i :: 0 <= i < |objects| ==> objects[i].Owns()
      modifies this`simObjects, Elements(objects)`environment
      modifies ComponentsOf(Elements(objects))`isSetUp, ComponentsOf(Elements(objects))`hooks, events
      ensures simObjects == old(simObjects) + Elements(objects) && unchanged(events)
      ensures forall o :: o in Elements(objects) ==> o.environment == this && o.Owns()
    {
      var i := 0;
      while i < |objects|
        invariant 0 <= i <= |objects|
        invariant simObjects == old(simObjects) + Elements(objects[..i]) && unchanged(events)
        invariant forall o :: o in Elements(objects[..i]) ==> o.environment == this
        invariant forall j :: 0 <= j < |objects| ==> objects[j].Owns()
      {
        assert objects[..i + 1] == objects[..i] + [objects[i]];
        var _ := AttachSimObject(objects[i]);
        i := i + 1;
      }
      assert objects[..i] == objects;
    }

    /**
     * The second step of construction: `attach_component` on each component
     * while not yet set up, stopping at the first sim-object component with
     * its AttributeError; the components before it stay attached.
     */
    method AttachComponents(comps: seq<Component>) returns (r: Outcome)
      requires !isSetUp
      modifies this`components, Elements(comps)`environment, Elements(comps)`isSetUp, Elements(comps)`hooks, events
      ensures r == Pass <==> forall i :: 0 <= i < |comps| ==> !IsObjectKind(comps[i].kind)
      ensures r.Fail? ==> r.error == AttributeError
      ensures r.Fail? ==> exists k :: (0 <= k < |comps| && IsObjectKind(comps[k].kind)
        && (forall j :: 0 <= j < k ==> !IsObjectKind(comps[j].kind))
        && components == old(components) + Elements(comps[..k]))
      ensures r == Pass ==> components == old(components) + Elements(comps)
      ensures r == Pass ==> forall c :: c in Elements(comps) ==> c.environment == this
      ensures unchanged(events)
    {
      var i := 0;
      while i < |comps|
        invariant 0 <= i <= |comps|
        invariant components == old(components) + Elements(comps[..i]) && unchanged(events)
        invariant forall c :: c in Elements(comps[..i]) ==> c.environment == this
        invariant forall j :: 0 <= j < i ==> !IsObjectKind(comps[j].kind)
      {
        assert comps[..i + 1] == comps[..i] + [comps[i]];
        r := AttachComponent(comps[i]);
        if r.Fail? {
          return;
        }
        i := i + 1;
      }
      assert comps[..i] == comps;
      r := Pass;
    }

    /**
     * `_setup`: sets up every environment component, then every component of
     * every sim object, and only then raises the flag.
     */
    method SetupAll() returns (r: Outcome)
      requires Linked()
      modifies this`isSetUp, components`isSetUp, components`hooks
      modifies ObjectComponents()`isSetUp, ObjectComponents()`hooks, events
      ensures r == Pass && isSetUp && Linked()
      ensures forall c :: c in components || c in ObjectComponents() ==> c.isSetUp
      ensures forall c :: (c in components || c in ObjectComponents()) && IsBehavior(c.kind) ==> Subscribed(c)
      ensures forall c :: c in components || c in ObjectComponents() ==>
        c.hooks == old(c.hooks) + (if IsBehavior(c.kind) then [Start] else [])
      ensures forall t :: ListenersOf(old(events.listeners), t) <= ListenersOf(events.listeners, t)
      ensures events.raised == old(events.raised) && events.calls == old(events.calls)
    {
      SetupEnvironmentComponents();
      SetupSimObjects();
      isSetUp := true;
      r := Pass;
    }

    /** The second loop of `_setup`: the components of every sim object. */
    method SetupSimObjects()
      requires forall o :: o in simObjects ==> o.environment == this && o.Owns()
      modifies ObjectComponents()`isSetUp, ObjectComponents()`hooks, events
      ensures forall o, c :: o in simObjects && c in o.components ==>
        c.isSetUp && c.hooks == old(c.hooks) + (if IsBehavior(c.kind) then [Start] else [])
        && (IsBehavior(c.kind) ==> Subscribed(c))
      ensures forall t :: ListenersOf(old(events.listeners), t) <= ListenersOf(events.listeners, t)
      ensures events.raised == old(events.raised) && events.calls == old(events.calls)
    {
      var objs := simObjects;
      while objs != {}
        invariant objs <= simObjects
        invariant forall o, c :: o in simObjects - objs && c in o.components ==>
          c.isSetUp && c.hooks == old(c.hooks) + (if IsBehavior(c.kind) then [Start] else [])
          && (IsBehavior(c.kind) ==> Subscribed(c))
        invariant forall o, c :: o in objs && c in o.components ==> c.hooks == old(c.hooks)
        invariant forall t :: ListenersOf(old(events.listeners), t) <= ListenersOf(events.listeners, t)
        invariant events.raised == old(events.raised) && events.calls == old(events.calls)
        decreases |objs|
      {
        var o :| o in objs;
        SetupComponentsOf(o);
        objs := objs - {o};
      }
    }

    /** The first loop of `_setup`: every environment component. */
    method SetupEnvironmentComponents()
      requires forall c :: c in components ==> c.environment == this && !IsObjectKind(c.kind)
      modifies components`isSetUp, components`hooks, events
      ensures forall c :: c in components ==>
        c.isSetUp && c.hooks == old(c.hooks) + (if IsBehavior(c.kind) then [Start] else [])
        && (IsBehavior(c.kind) ==> Subscribed(c))
      ensures forall t :: ListenersOf(old(events.listeners), t) <= ListenersOf(events.listeners, t)
      ensures events.raised == old(events.raised) && events.calls == old(events.calls)
    {
      var rest := components;
      while rest != {}
        invariant rest <= components
        invariant forall c :: c in components - rest ==>
          c.isSetUp && c.hooks == old(c.hooks) + (if IsBehavior(c.kind) then [Start] else [])
          && (IsBehavior(c.kind) ==> Subscribed(c))
        invariant forall c :: c in rest ==> c.hooks == old(c.hooks)
        invariant forall t :: ListenersOf(old(events.listeners), t) <= ListenersOf(events.listeners, t)
        invariant events.raised == old(events.raised) && events.calls == old(events.calls)
        decreases |rest|
      {
        var c :| c in rest;
        SetupOne(c);
        rest := rest - {c};
      }
    }

    /** One component's `setup` when its event system is this environment's. */
    method SetupOne(c: Component)
      requires c.Bus() == null || c.Bus() == events
      requires IsBehavior(c.kind) ==> c.Bus() == events
      modifies c`isSetUp, c`hooks, events
      ensures c.isSetUp && c.hooks == old(c.hooks) + (if IsBehavior(c.kind) then [Start] else [])
      ensures IsBehavior(c.kind) ==> Subscribed(c)
      ensures forall t :: ListenersOf(old(events.listeners), t) <= ListenersOf(events.listeners, t)
      ensures events.raised == old(events.raised) && events.calls == old(events.calls)
    {
      var _ := c.Setup();
    }

    /** The setup of one sim object's components, as `_setup` and `attach_sim_object` run it. */
    method SetupComponentsOf(o: SimObject)
      requires o.environment == this && o.Owns()
      modifies o.components`isSetUp, o.components`hooks, events
      ensures forall c :: c in o.components ==>
        c.isSetUp && c.hooks == old(c.hooks) + (if IsBehavior(c.kind) then [Start] else [])
        && (IsBehavior(c.kind) ==> Subscribed(c))
      ensures forall t :: ListenersOf(old(events.listeners), t) <= ListenersOf(events.listeners, t)
      ensures events.raised == old(events.raised) && events.calls == old(events.calls)
    {
      var rest := o.components;
      while rest != {}
        invariant rest <= o.components && o.environment == this && o.Owns()
        invariant forall c :: c in o.components - rest ==>
          c.isSetUp && c.hooks == old(c.hooks) + (if IsBehavior(c.kind) then [Start] else [])
          && (IsBehavior(c.kind) ==> Subscribed(c))
        invariant forall c :: c in rest ==> c.hooks == old(c.hooks)
        invariant forall t :: ListenersOf(old(events.listeners), t) <= ListenersOf(events.listeners, t)
        invariant events.raised == old(events.raised) && events.calls == old(events.calls)
        decreases |rest|
      {
        var c :| c in rest;
        SetupOne(c);
        rest := rest - {c};
      }
    }

    /**
     * `attach_sim_object`: sets the object's environment, adds it, and sets up
     * its components only if this environment is already set up.
     */
    method AttachSimObject(o: SimObject) returns (r: Outcome)
      requires o.Owns()
      modifies o`environment, this`simObjects, o.components`isSetUp, o.components`hooks, events
      ensures r == Pass && o.environment == this && simObjects == old(simObjects) + {o}
      ensures !isSetUp ==> unchanged(events) && forall c :: c in o.components ==> c.isSetUp == old(c.isSetUp) && c.hooks == old(c.hooks)
      ensures isSetUp ==> forall c :: c in o.components ==>
        && c.isSetUp
        && c.hooks == old(c.hooks) + (if IsBehavior(c.kind) then [Start] else [])
        && (IsBehavior(c.kind) ==> Subscribed(c))
      ensures forall t :: ListenersOf(old(events.listeners), t) <= ListenersOf(events.listeners, t)
      ensures events.raised == old(events.raised) && events.calls == old(events.calls)
    {
      o.AttachEnvironment(this);
      simObjects := simObjects + {o};
      r := Pass;
      if isSetUp {
        SetupComponentsOf(o);
      }
    }

    /** `remove_sim_object`: clears the object's environment, then `set.remove`. */
    method RemoveSimObject(o: SimObject) returns (r: Outcome)
      modifies o`environment, this`simObjects
      ensures o.environment == null && simObjects == old(simObjects) - {o}
      ensures r == Pass <==> o in old(simObjects)
      ensures r.Fail? ==> r.error == KeyError
    {
      o.RemoveEnvironment();
      if o !in simObjects {
        return Fail(KeyError);
      }
      simObjects := simObjects - {o};
      r := Pass;
    }

    /**
     * `attach_component`: sets the component's environment, inserts it, and
     * sets it up if this environment is already set up.
     */
    method AttachComponent(c: Component) returns (r: Outcome)
      modifies c`environment, this`components, c`isSetUp, c`hooks, events
      ensures IsObjectKind(c.kind) ==>
        r == Fail(AttributeError) && components == old(components) && unchanged(c) && unchanged(events)
      ensures !IsObjectKind(c.kind) ==> r == Pass && c.environment == this && components == old(components) + {c}
      ensures !IsObjectKind(c.kind) && !isSetUp ==> c.isSetUp == old(c.isSetUp) && c.hooks == old(c.hooks) && unchanged(events)
      ensures !IsObjectKind(c.kind) && isSetUp ==>
        && c.isSetUp
        && c.hooks == old(c.hooks) + (if c.kind.GlobalBehavior? then [Start] else [])
        && (c.kind.GlobalBehavior? ==> events.listeners == Subscribe(old(events.listeners), EnvironmentUpdate, UpdateListener(c)))
        && (!c.kind.GlobalBehavior? ==> unchanged(events))
      ensures events.raised == old(events.raised) && events.calls == old(events.calls)
    {
      if IsObjectKind(c.kind) {
        return Fail(AttributeError);
      }
      c.environment := this;
      var attached := AttachTo(components, AComponent(c));
      components := attached.value;
      r := Pass;
      if isSetUp {
        r := c.Setup();
      }
    }

    /** `remove_component`: clears the component's environment, then `set.remove`. */
    method RemoveComponent(c: Component) returns (r: Outcome)
      modifies this`components, c`environment
      ensures IsObjectKind(c.kind) ==> r == Fail(AttributeError) && components == old(components) && c.environment == old(c.environment)
      ensures !IsObjectKind(c.kind) ==>
        && c.environment == null
        && components == old(components) - {c}
        && (r == Pass <==> c in old(components))
        && (r.Fail? ==> r.error == KeyError)
    {
      if IsObjectKind(c.kind) {
        return Fail(AttributeError);
      }
      c.environment := null;
      var removed := RemoveFrom(components, c);
      if removed.Err? {
        return Fail(removed.error);
      }
      components := removed.value;
      r := Pass;
    }

    /** `destroy_after_step`: schedules the object; scheduling it again changes nothing. */
    method DestroyAfterStep(o: SimObject)
      modifies this`toBeDestroyed
      ensures toBeDestroyed == old(toBeDestroyed) + {o}
    {
      toBeDestroyed := toBeDestroyed + {o};
    }

    /** `_destroy_marked_sim_objects`: destroys each scheduled object once, then empties the schedule. */
    method DestroyMarked() returns (r: Outcome)
      requires MarkedWellFormed()
      modifies this`toBeDestroyed, this`simObjects, toBeDestroyed`components, toBeDestroyed`environment
      modifies ComponentsOf(toBeDestroyed), events
      ensures r == Pass ==> toBeDestroyed == {} && simObjects == old(simObjects) - old(toBeDestroyed)
      ensures r == Pass ==> forall o :: o in old(toBeDestroyed) ==> o.components == {} && o.environment == null
      ensures r.Fail? ==> toBeDestroyed == old(toBeDestroyed)
      ensures events.raised == old(events.raised) && events.calls == old(events.calls)
    {
      var rest := toBeDestroyed;
      while rest != {}
        invariant rest <= toBeDestroyed == old(toBeDestroyed)
        invariant forall o :: o in rest ==> o.Owns() && (o.environment == null || o.environment == this)
        invariant forall o :: o in rest ==> o.components == old(o.components)
        invariant forall o :: o in old(toBeDestroyed) - rest ==> o.components == {} && o.environment == null
        invariant simObjects == old(simObjects) - (old(toBeDestroyed) - rest)
        invariant events.raised == old(events.raised) && events.calls == old(events.calls)
        decreases |rest|
      {
        var o :| o in rest;
        r := o.Destroy();
        if r.Fail? {
          return;
        }
        rest := rest - {o};
      }
      toBeDestroyed := {};
      r := Pass;
    }

    /** `advance`: raises AdvanceTimeStepEvent, then runs the deferred destruction. */
    method Advance() returns (r: Outcome)
      requires MarkedWellFormed()
      modifies this`toBeDestroyed, this`simObjects, toBeDestroyed`components, toBeDestroyed`environment
      modifies ComponentsOf(toBeDestroyed), events
      ensures events.raised == old(events.raised) + [Event(AdvanceTimeStep)]
      ensures r == Pass ==> toBeDestroyed == {} && simObjects == old(simObjects) - old(toBeDestroyed)
      ensures r == Pass ==> forall o :: o in old(toBeDestroyed) ==> o.components == {} && o.environment == null
    {
      var _ := events.RaiseEvent(Event(AdvanceTimeStep));
      r := DestroyMarked();
    }

    /** `update`: raises EnvironmentUpdateEvent, reaching each subscribed behaviour exactly once. */
    method Update() returns (called: seq<Listener>)
      modifies events
      ensures events.raised == old(events.raised) + [Event(EnvironmentUpdate)]
      ensures events.listeners == old(events.listeners)
      ensures |old(events.calls)| <= |events.calls|
      ensures forall c: Component ::
        Count(events.calls[|old(events.calls)|..], Call(UpdateListener(c), Event(EnvironmentUpdate)))
          == if Subscribed(c) then 1 else 0
    {
      called := events.RaiseEvent(Event(EnvironmentUpdate));
      assert events.calls[|old(events.calls)|..] == CallsOf(called, Event(EnvironmentUpdate));
      forall c: Component
        ensures Count(events.calls[|old(events.calls)|..], Call(UpdateListener(c), Event(EnvironmentUpdate)))
          == if Subscribed(c) then 1 else 0
      {
        DispatchExactlyOnce(events.listeners, called, Event(EnvironmentUpdate), UpdateListener(c));
      }
    }

    /** `render`: raises RenderEvent. */
    method Render() returns (called: seq<Listener>)
      modifies events
      ensures events.raised == old(events.raised) + [Event(EventType.Render)]
      ensures events.listeners == old(events.listeners)
      ensures IsEnumeration(called, ListenersOf(events.listeners, EventType.Render))
    {
      called := events.RaiseEvent(Event(EventType.Render));
    }

    /** The loops of `destroy`: every sim object, then every component, each over a copy of its set. */
    method DestroyContents() returns (r: Outcome)
      requires Linked()
      modifies this`simObjects, this`components, simObjects`components, simObjects`environment
      modifies ObjectComponents(), components, events
      ensures r == Pass ==> simObjects == {} && forall o :: o in old(simObjects) ==> o.components == {} && o.environment == null
      ensures r == Pass ==> forall c :: c in old(components) ==> c.environment == null && c.hooks == old(c.hooks) + DestroyHooks(c.kind)
      ensures r == Pass ==> forall c :: c in components <==> c in old(components) && c.kind.GlobalBehavior?
    {
      r := DestroySimObjects();
      if r.Fail? {
        return;
      }
      r := DestroyEnvironmentComponents();
    }

    /** The first loop of `destroy`: each sim object over a copy of the set. */
    method DestroySimObjects() returns (r: Outcome)
      requires forall o :: o in simObjects ==> o.environment == this && o.Owns()
      modifies this`simObjects, simObjects`components, simObjects`environment, ObjectComponents(), events
      ensures r == Pass ==> simObjects == {} && forall o :: o in old(simObjects) ==> o.components == {} && o.environment == null
    {
      var objs := simObjects;
      while objs != {}
        invariant objs <= old(simObjects)
        invariant simObjects == objs
        invariant forall o :: o in objs ==> o.environment == this && o.Owns() && o.components == old(o.components)
        invariant forall o :: o in old(simObjects) - objs ==> o.components == {} && o.environment == null
        decreases |objs|
      {
        var o :| o in objs;
        r := o.Destroy();
        if r.Fail? {
          return;
        }
        objs := objs - {o};
      }
      r := Pass;
    }

    /**
     * One step of the second loop of `destroy`: an environment component
     * detaches itself; a GlobalBehavior unsubscribes and stays in the set.
     */
    method DestroyAttached(c: Component) returns (r: Outcome)
      requires c in components && c.environment == this && !IsObjectKind(c.kind)
      modifies this`components, c`hooks, c`simObject, c`environment, events
      ensures c.kind.EnvironmentComponent? ==> r == Pass && components == old(components) - {c}
      ensures c.kind.GlobalBehavior? ==> components == old(components)
      ensures r == Pass ==> c.environment == null && c.hooks == old(c.hooks) + DestroyHooks(c.kind)
    {
      r := c.Destroy();
    }

    /** The second loop of `destroy`: each environment component over a copy of the set. */
    method DestroyEnvironmentComponents() returns (r: Outcome)
      requires forall c :: c in components ==> c.environment == this && !IsObjectKind(c.kind)
      modifies this`components, components, events
      ensures r == Pass ==> forall c :: c in old(components) ==> c.environment == null && c.hooks == old(c.hooks) + DestroyHooks(c.kind)
      ensures r == Pass ==> forall c :: c in components <==> c in old(components) && c.kind.GlobalBehavior?
    {
      var rest := components;
      while rest != {}
        invariant rest <= components <= old(components)
        invariant forall c :: c in rest ==> c.environment == this && !IsObjectKind(c.kind) && c.hooks == old(c.hooks)
        invariant forall c :: c in old(components) - rest ==>
          c.environment == null && c.hooks == old(c.hooks) + DestroyHooks(c.kind)
          && (c in components <==> c.kind.GlobalBehavior?)
        decreases |rest|
      {
        var c :| c in rest;
        r := DestroyAttached(c);
        if r.Fail? {
          return;
        }
        rest := rest - {c};
      }
      r := Pass;
    }

    /**
     * `destroy` as evidently intended: tears down the objects and components,
     * then drops every listener registration.
     */
    method Destroy() returns (r: Outcome)
      requires Linked()
      modifies this`simObjects, this`components, simObjects`components, simObjects`environment
      modifies ObjectComponents(), components, events
      ensures r == Pass ==> simObjects == {} && forall o :: o in old(simObjects) ==> o.components == {} && o.environment == null
      ensures r == Pass ==> forall c :: c in old(components) ==> c.environment == null
      ensures r == Pass ==> forall t :: ListenersOf(events.listeners, t) == {}
    {
      r := DestroyContents();
      if r.Fail? {
        return;
      }
      events.ClearListeners();
    }

    /**
     * `destroy` as written: each sim object's own `destroy` as written runs
     * over a copy of the object set, so the first object holding anything
     * but MonoBehaviors raises RuntimeError; past both loops, the call to
     * `event_system.clear_listeners()`, which the event system does not
     * define, raises AttributeError.
     */
    method DestroyAsWritten() returns (r: Outcome)
      requires Linked()
      modifies this`simObjects, this`components, simObjects`components, simObjects`environment
      modifies ObjectComponents(), components, events
      ensures r.Fail?
      ensures old(simObjects) != {} && (forall o :: o in old(simObjects) ==> old(o.Plain())) ==>
        r == Fail(RuntimeError) && simObjects == old(simObjects)
    {
      var objs := simObjects;
      while objs != {}
        invariant objs <= old(simObjects)
        invariant simObjects == objs && components == old(components)
        invariant forall c :: c in components ==> c.environment == this && !IsObjectKind(c.kind)
        invariant forall o :: o in objs ==> o.environment == this && o.Owns() && o.components == old(o.components)
        invariant objs != old(simObjects) ==> exists o :: o in old(simObjects) && !old(o.Plain())
        decreases |objs|
      {
        var o :| o in objs;
        r := o.DestroyAsWritten();
        if r.Fail? {
          return;
        }
        objs := objs - {o};
      }
      r := DestroyEnvironmentComponents();
      if r.Fail? {
        return;
      }
      r := Fail(AttributeError);
    }
  }

  /**
   * A destroyed behaviour is no longer updated: once its teardown has passed,
   * the next EnvironmentUpdateEvent does not reach its handler.
   */
  method DestroyThenUpdate(env: SimEnvironment, c: Component) returns (r: Outcome)
    requires c.kind.MonoBehavior? && c.simObject != null && c.simObject.environment == env
    modifies c`hooks, c`simObject, c`environment, env.events
    ensures |old(env.events.calls)| <= |env.events.calls|
    ensures r == Pass ==> Count(env.events.calls[|old(env.events.calls)|..], Call(UpdateListener(c), Event(EnvironmentUpdate))) == 0
  {
    r := c.Destroy();
    assert env.events.calls == old(env.events.calls);
    var _ := env.Update();
  }
}
