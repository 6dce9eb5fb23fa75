/**
 * The first generation of the kernel (the `Engine` directory): set-based
 * containers, the Manager/Manageable registry, deferred destruction whose
 * `destroy` keeps the object's components, a four-phase physics step, and a
 * render manager that keeps one modified flag per drawing layer.
 *
 * Components are composed as in the current kernel: a class with
 * subclass-specific state (`Manager`, `Manageable`, `RigidBody`, ...)
 * holds a `Component` for the flag and the back-references. Lookups through
 * the environment (`get_component(...)`) arrive as parameters.
 */
module EngineCore {
  import opened Wrappers
  import opened Values
  import opened Helpers
  import opened Events
  import opened Physics
  import opened Vectors

  /** The runtime class of an Engine component. */
  datatype Kind =
    | Transform
    | ObjectComponent       // a plain SimObjectComponent subclass
    | Manageable            // a plain Manageable subclass, managed by a Manager
    | Renderer              // a Manageable managed by a RenderManager
    | RigidBody
    | EnvironmentComponent  // a plain EnvironmentComponent subclass
    | Manager
    | RenderManager
    | PhysicsManager

  predicate IsObjectKind(k: Kind) {
    k.Transform? || k.ObjectComponent? || k.Manageable? || k.Renderer? || k.RigidBody?
  }

  /** A class that `isinstance` and `get_component` can be asked about. */
  datatype ComponentClass =
    | ComponentBase
    | SimObjectComponentClass
    | EnvironmentComponentClass
    | TransformClass
    | ManageableClass
    | RendererClass
    | RigidBodyClass
    | ManagerClass
    | RenderManagerClass
    | PhysicsManagerClass

  /** `isinstance(c, t)` for a component of kind `k`. */
  predicate IsInstance(k: Kind, t: ComponentClass) {
    match t
    case ComponentBase => true
    case SimObjectComponentClass => IsObjectKind(k)
    case EnvironmentComponentClass => !IsObjectKind(k)
    case TransformClass => k.Transform?
    case ManageableClass => k.Manageable? || k.Renderer?
    case RendererClass => k.Renderer?
    case RigidBodyClass => k.RigidBody?
    case ManagerClass => k.Manager? || k.RenderManager?
    case RenderManagerClass => k.RenderManager?
    case PhysicsManagerClass => k.PhysicsManager?
  }

  function Elements<T>(s: seq<T>): set<T> {
    set i | 0 <= i < |s| :: s[i]
  }

  /** The components of a set of sim objects. */
  ghost function ComponentsOf(os: set<SimObject>): set<Component>
    reads os
  {
    set o, c | o in os && c in o.components :: c
  }

  function EnvSet(e: Environment?): set<Environment> {
    if e == null then {} else {e}
  }

  // ---------------------------------------------------------------------
  // Component, SimObject, SimEnvironment

  class Component {
    const kind: Kind
    var isSetUp: bool
    var simObject: SimObject?
    var environment: Environment?
    /** How many times `on_destroy` has been called on this component. */
    var destroyCalls: nat
    /** The Transform's `position` (meaningful for the Transform kind). */
    var position: Vec2

    constructor (kind: Kind)
      ensures this.kind == kind && !isSetUp && simObject == null && environment == null && destroyCalls == 0
      ensures position == Zero
    {
      this.kind := kind;
      isSetUp := false;
      simObject := null;
      environment := null;
      destroyCalls := 0;
      position := Zero;
    }

    /** The base `setup`: marks the component set up. */
    method Setup()
      modifies this`isSetUp
      ensures isSetUp
    {
      isSetUp := true;
    }

    /** The base `on_destroy`, which does nothing; the call itself is recorded. */
    method OnDestroy()
      modifies this`destroyCalls
      ensures destroyCalls == old(destroyCalls) + 1
    {
      destroyCalls := destroyCalls + 1;
    }
  }

  class SimObject {
    var tag: string
    var components: set<Component>
    var environment: Environment?
    var transform: Component?

    /** Every attached component is a sim-object component that points back here. */
    ghost predicate Owns()
      reads this, components
    {
      forall c :: c in components ==> c.simObject == this && IsObjectKind(c.kind)
    }

    /** A detached sim object before any component is attached. */
    constructor Empty(tag: string)
      ensures this.tag == tag && components == {} && environment == null && transform == null
    {
      this.tag := tag;
      components := {};
      environment := null;
      transform := null;
    }

    /**
     * `SimObject(tag, components)`: attaches the given components in order,
     * then takes some Transform among them (the first the set iteration
     * meets) or attaches a new one. An environment component raises
     * AttributeError, after the components before it were already pointed
     * at the half-built object.
     */
    static method New(tag: string, comps: seq<Component>) returns (r: Result<SimObject>)
      modifies Elements(comps)`simObject
      ensures r.Ok? <==> forall i :: 0 <= i < |comps| ==> IsObjectKind(comps[i].kind)
      ensures r.Err? ==> r.error == AttributeError
      ensures r.Ok? ==>
        && fresh(r.value) && r.value.tag == tag && r.value.environment == null
        && r.value.transform != null && r.value.transform.kind.Transform?
        && r.value.components == Elements(comps) + {r.value.transform}
        && r.value.Owns()
        && (r.value.transform in Elements(comps) <==> exists i :: 0 <= i < |comps| && comps[i].kind.Transform?)
        && (r.value.transform !in Elements(comps) ==> fresh(r.value.transform) && r.value.transform.position == Zero)
    {
      var o := new SimObject.Empty(tag);
      var i := 0;
      while i < |comps|
        invariant 0 <= i <= |comps|
        invariant fresh(o) && o.tag == tag && o.environment == null && o.transform == null
        invariant forall j :: 0 <= j < i ==> IsObjectKind(comps[j].kind)
        invariant o.components == Elements(comps[..i])
        invariant o.Owns()
      {
        var c := comps[i];
        if !IsObjectKind(c.kind) {
          return Err(AttributeError);
        }
        c.simObject := o;
        o.components := o.components + {c};
        assert comps[..i + 1] == comps[..i] + [c];
        i := i + 1;
      }
      assert comps[..i] == comps;
      var t: Component;
      if exists c :: c in o.components && c.kind.Transform? {
        t :| t in o.components && t.kind.Transform?;
      } else {
        assert forall j :: 0 <= j < |comps| ==> comps[j] in o.components;
        t := new Component(Transform);
        t.simObject := o;
        o.components := o.components + {t};
      }
      o.transform := t;
      r := Ok(o);
    }

    /**
     * `attach_component`: `attach_sim_object` (which an environment component
     * lacks, hence an AttributeError), then a set insertion, then `setup` when
     * the environment is already set up.
     */
    method AttachComponent(c: Component) returns (r: Outcome)
      modifies this`components, c`simObject, c`isSetUp
      ensures !IsObjectKind(c.kind) ==>
        r == Fail(AttributeError) && components == old(components) && c.simObject == old(c.simObject) && c.isSetUp == old(c.isSetUp)
      ensures IsObjectKind(c.kind) ==>
        && r == Pass && c.simObject == this && components == old(components) + {c}
        && (c.isSetUp <==> old(c.isSetUp) || (environment != null && environment.isSetUp))
    {
      if !IsObjectKind(c.kind) {
        return Fail(AttributeError);
      }
      c.simObject := this;
      components := components + {c};
      if environment != null && environment.isSetUp {
        c.Setup();
      }
      r := Pass;
    }

    /**
     * `destroy`: calls `on_destroy` on every component, then asks the
     * environment to remove the object. Unlike the current kernel, the
     * components stay attached. Without an environment the removal is an
     * AttributeError; an environment that does not hold the object raises
     * KeyError after clearing the back-reference.
     */
    method Destroy() returns (r: Outcome)
      modifies components`destroyCalls, this`environment, EnvSet(environment)`simObjects
      ensures forall c :: c in components ==> c.destroyCalls == old(c.destroyCalls) + 1
      ensures old(environment) == null ==> r == Fail(AttributeError)
      ensures old(environment) != null ==>
        && environment == null
        && (r == Pass <==> this in old(environment.simObjects))
        && (r.Fail? ==> r.error == KeyError)
        && old(environment).simObjects == old(environment.simObjects) - {this}
    {
      var rest := components;
      while rest != {}
        invariant rest <= components
        invariant environment == old(environment)
        invariant environment != null ==> environment.simObjects == old(environment.simObjects)
        invariant forall c :: c in components ==> c.destroyCalls == old(c.destroyCalls) + (if c in rest then 0 else 1)
        decreases |rest|
      {
        var c :| c in rest;
        c.OnDestroy();
        rest := rest - {c};
      }
      if environment == null {
        return Fail(AttributeError);
      }
      r := environment.RemoveSimObject(this);
    }
  }

  class Environment {
    var isSetUp: bool
    var simObjects: set<SimObject>
    /** The objects scheduled by `destroy_after_step`. */
    var toBeDestroyed: set<SimObject>
    var components: set<Component>
    const events: EventSystem

    /** The scheduled objects are attached here or nowhere. */
    ghost predicate MarkedWellFormed()
      reads this, toBeDestroyed
    {
      forall o :: o in toBeDestroyed ==> o.environment == null || o.environment == this
    }

    /** An environment as the constructor leaves it just before `_setup` runs, with nothing attached. */
    constructor ()
      ensures !isSetUp && simObjects == {} && toBeDestroyed == {} && components == {}
      ensures fresh(events) && events.listeners == map[] && events.raised == [] && events.calls == []
    {
      isSetUp := false;
      simObjects := {};
      toBeDestroyed := {};
      components := {};
      events := new EventSystem();
    }

    /** `attach_sim_object`: links and adds the object, and sets up its components if this environment is set up. */
    method AttachSimObject(o: SimObject)
      modifies o`environment, this`simObjects, o.components`isSetUp
      ensures o.environment == this && simObjects == old(simObjects) + {o}
      ensures forall c :: c in o.components ==> (c.isSetUp <==> old(c.isSetUp) || isSetUp)
    {
      o.environment := this;
      simObjects := simObjects + {o};
      if isSetUp {
        SetUpEach(o.components);
      }
    }

    /** `remove_sim_object`: clears the back-reference, then `set.remove` (KeyError when absent). */
    method RemoveSimObject(o: SimObject) returns (r: Outcome)
      modifies o`environment, this`simObjects
      ensures o.environment == null && simObjects == old(simObjects) - {o}
      ensures r == Pass <==> o in old(simObjects)
      ensures r.Fail? ==> r.error == KeyError
    {
      o.environment := null;
      if o !in simObjects {
        return Fail(KeyError);
      }
      simObjects := simObjects - {o};
      r := Pass;
    }

    /**
     * `attach_component`: `attach_environment` (which a sim-object component
     * lacks, hence an AttributeError), a set insertion, and `setup` when this
     * environment is already set up.
     */
    method AttachComponent(c: Component) returns (r: Outcome)
      modifies this`components, c`environment, c`isSetUp
      ensures IsObjectKind(c.kind) ==>
        r == Fail(AttributeError) && components == old(components) && c.environment == old(c.environment) && c.isSetUp == old(c.isSetUp)
      ensures !IsObjectKind(c.kind) ==>
        && r == Pass && c.environment == this && components == old(components) + {c}
        && (c.isSetUp <==> old(c.isSetUp) || isSetUp)
    {
      if IsObjectKind(c.kind) {
        return Fail(AttributeError);
      }
      c.environment := this;
      components := components + {c};
      if isSetUp {
        c.Setup();
      }
      r := Pass;
    }

    /** Calls the base `setup` on each component of `cs`, in set order. */
    static method SetUpEach(cs: set<Component>)
      modifies cs`isSetUp
      ensures forall c :: c in cs ==> c.isSetUp
    {
      var rest := cs;
      while rest != {}
        invariant rest <= cs
        invariant forall c :: c in cs - rest ==> c.isSetUp
        decreases |rest|
      {
        var c :| c in rest;
        c.Setup();
        rest := rest - {c};
      }
    }

    /** `_setup`: sets up every environment component, then every component of every sim object, then the flag. */
    method SetupAll()
      modifies this`isSetUp, components`isSetUp, ComponentsOf(simObjects)`isSetUp
      ensures isSetUp
      ensures forall c :: c in components ==> c.isSetUp
      ensures forall o, c :: o in simObjects && c in o.components ==> c.isSetUp
    {
      SetUpEach(components);
      var rest := simObjects;
      while rest != {}
        invariant rest <= simObjects
        invariant forall c :: c in components ==> c.isSetUp
        invariant forall o, c :: o in simObjects - rest && c in o.components ==> c.isSetUp
        decreases |rest|
      {
        var o :| o in rest;
        SetUpEach(o.components);
        rest := rest - {o};
      }
      isSetUp := true;
    }

    /** `destroy_after_step`: schedules the object; scheduling it again changes nothing. */
    method DestroyAfterStep(o: SimObject)
      modifies this`toBeDestroyed
      ensures toBeDestroyed == old(toBeDestroyed) + {o}
    {
      toBeDestroyed := toBeDestroyed + {o};
    }

    /**
     * `_destroy_sim_objects`: destroys each scheduled object once, in set
     * order (`order`), then empties the schedule. The destroyed objects keep
     * their components. A failing `destroy` leaves the schedule as it was.
     */
    method DestroySimObjects() returns (r: Outcome, order: seq<SimObject>)
      requires MarkedWellFormed()
      modifies this`toBeDestroyed, this`simObjects, toBeDestroyed`environment, ComponentsOf(toBeDestroyed)`destroyCalls
      ensures r == Pass ==>
        && toBeDestroyed == {}
        && IsEnumeration(order, old(toBeDestroyed))
        && simObjects == old(simObjects) - old(toBeDestroyed)
        && old(toBeDestroyed) <= old(simObjects)
      ensures forall o :: o in old(toBeDestroyed) ==> o.components == old(o.components)
      ensures r == Pass ==> forall o :: o in old(toBeDestroyed) ==> o.environment == null
      ensures r.Fail? ==> toBeDestroyed == old(toBeDestroyed)
    {
      order := [];
      var rest := toBeDestroyed;
      while rest != {}
        invariant rest <= toBeDestroyed == old(toBeDestroyed)
        invariant forall o :: o in rest ==> o.environment == null || o.environment == this
        invariant forall o :: o in old(toBeDestroyed) - rest ==> o.environment == null && o in old(simObjects)
        invariant simObjects == old(simObjects) - (old(toBeDestroyed) - rest)
        invariant forall i :: 0 <= i < |order| ==> order[i] in old(toBeDestroyed) && order[i] !in rest
        invariant forall o :: o in old(toBeDestroyed) ==> o in rest || o in order
        invariant forall i, j :: 0 <= i < j < |order| ==> order[i] != order[j]
        decreases |rest|
      {
        var o :| o in rest;
        assert o.components <= ComponentsOf(old(toBeDestroyed));
        r := o.Destroy();
        if r.Fail? {
          return;
        }
        order := order + [o];
        rest := rest - {o};
      }
      toBeDestroyed := {};
      r := Pass;
    }
  }

  // ---------------------------------------------------------------------
  // Manager and Manageable

  /** What `attach_manageable` may be handed: a manageable component, or any other value. */
  datatype ManageableArg = AManageable(m: Manageable) | NotManageable

  function ManagerSet(m: Manager?): set<Manager> {
    if m == null then {} else {m}
  }

  class Manager {
    /** The EnvironmentComponent part. */
    const base: Component
    /** The declared manageable type: `Manageable` unless the subclass names another. */
    const accepts: ComponentClass
    var manageables: set<Manageable>

    /** `Manager(manageable_type)`: `None` means `Manageable`. */
    constructor (kind: Kind, manageableType: Option<ComponentClass>)
      ensures fresh(base) && base.kind == kind && !base.isSetUp && base.environment == null
      ensures accepts == (if manageableType.None? then ManageableClass else manageableType.value)
      ensures manageables == {}
    {
      base := new Component(kind);
      accepts := if manageableType.None? then ManageableClass else manageableType.value;
      manageables := {};
    }

    /** `attach_manageable`: a TypeError unless the value is an instance of the declared type; otherwise a set insertion. */
    method AttachManageable(x: ManageableArg) returns (r: Outcome)
      modifies this`manageables
      ensures r == Pass <==> x.AManageable? && IsInstance(x.m.base.kind, accepts)
      ensures r.Fail? ==> r.error == TypeError && manageables == old(manageables)
      ensures r == Pass ==> manageables == old(manageables) + {x.m}
    {
      if !(x.AManageable? && IsInstance(x.m.base.kind, accepts)) {
        return Fail(TypeError);
      }
      manageables := manageables + {x.m};
      r := Pass;
    }

    /** `remove_manageable`: `set.remove`, a KeyError for an absent manageable. */
    method RemoveManageable(m: Manageable) returns (r: Outcome)
      modifies this`manageables
      ensures r == Pass <==> m in old(manageables)
      ensures r.Fail? ==> r.error == KeyError
      ensures manageables == old(manageables) - {m}
    {
      if m !in manageables {
        return Fail(KeyError);
      }
      manageables := manageables - {m};
      r := Pass;
    }

    /**
     * The base `update_manageables` calls `update_manageables` on each
     * manageable, a method no manageable defines: it fails as soon as there
     * is one.
     */
    method UpdateManageables() returns (r: Outcome)
      ensures r.Fail? <==> manageables != {}
      ensures r.Fail? ==> r.error == AttributeError
    {
      if manageables != {} {
        return Fail(AttributeError);
      }
      r := Pass;
    }
  }

  function FoundSet(found: Option<Manager>): set<Manager> {
    if found.Some? then {found.value} else {}
  }

  class Manageable {
    /** The SimObjectComponent part. */
    const base: Component
    /** The class of manager it registers with. */
    const managerType: ComponentClass
    var manager: Manager?
    /** The Renderer part: drawn only when active, on this layer. */
    var isActive: bool
    var layer: nat
    /**
     * Whether its `render` declares the render manager as a second
     * parameter, as CircleRenderer's and PolyRenderer's do; the base
     * Renderer's takes the surface alone.
     */
    const takesManager: bool

    /** `Manageable(manager_type)`, or a `Renderer(color, layer)` when `kind` is Renderer. */
    constructor (kind: Kind, managerType: ComponentClass, layer: nat, takesManager: bool)
      ensures fresh(base) && base.kind == kind && !base.isSetUp && base.simObject == null
      ensures this.managerType == managerType && manager == null && isActive && this.layer == layer
      ensures this.takesManager == takesManager
    {
      base := new Component(kind);
      this.managerType := managerType;
      manager := null;
      isActive := true;
      this.layer := layer;
      this.takesManager := takesManager;
    }

    /** The environment that `self.sim_object.environment` reaches, if any. */
    function Env(): Environment?
      reads base, base.simObject
    {
      if base.simObject == null then null else base.simObject.environment
    }

    /**
     * `setup`: finds the manager through the environment (`found` is the
     * result of `get_component(manager_type)`: ValueError when absent),
     * stores it, registers with it, and only then marks itself set up.
     */
    method Setup(found: Option<Manager>) returns (r: Outcome)
      modifies this`manager, base`isSetUp, FoundSet(found)`manageables
      ensures Env() == null ==> r == Fail(AttributeError) && manager == old(manager) && !base.isSetUp == !old(base.isSetUp)
      ensures Env() != null && found.None? ==> r == Fail(ValueError) && manager == old(manager) && base.isSetUp == old(base.isSetUp)
      ensures Env() != null && found.Some? ==>
        && manager == found.value
        && (r == Pass <==> IsInstance(base.kind, found.value.accepts))
        && (r == Pass ==> base.isSetUp && found.value.manageables == old(found.value.manageables) + {this})
        && (r.Fail? ==> r.error == TypeError && base.isSetUp == old(base.isSetUp) && found.value.manageables == old(found.value.manageables))
    {
      if Env() == null {
        return Fail(AttributeError);
      }
      if found.None? {
        return Fail(ValueError);
      }
      manager := found.value;
      r := manager.AttachManageable(AManageable(this));
      if r.Fail? {
        return;
      }
      base.isSetUp := true;
    }

    /** `on_destroy`: deregisters from the manager and forgets it. */
    method OnDestroy() returns (r: Outcome)
      modifies this`manager, ManagerSet(manager)`manageables
      ensures old(manager) == null ==> r == Fail(AttributeError)
      ensures old(manager) != null ==>
        && (r == Pass <==> this in old(manager.manageables))
        && old(manager).manageables == old(manager.manageables) - {this}
      ensures r == Pass ==> manager == null
      ensures r.Fail? ==> manager == old(manager)
    {
      if manager == null {
        return Fail(AttributeError);
      }
      r := manager.RemoveManageable(this);
      if r.Fail? {
        return;
      }
      manager := null;
    }
  }

  /** A Manageable set up and then destroyed leaves its manager's registry as it found it. */
  method SetupThenDestroy(m: Manageable, mgr: Manager) returns (r: Outcome)
    requires m !in mgr.manageables
    modifies m`manager, m.base`isSetUp, mgr`manageables
    ensures m.Env() != null && IsInstance(m.base.kind, mgr.accepts) ==> r == Pass
    ensures r == Pass ==> mgr.manageables == old(mgr.manageables) && m.manager == null && m.base.isSetUp
  {
    r := m.Setup(Some(mgr));
    if r.Fail? {
      return;
    }
    r := m.OnDestroy();
  }

  // ---------------------------------------------------------------------
  // RenderManager: one modified flag per layer

  /** The indices at which `s` holds true, in increasing order. */
  function Marked(s: seq<bool>): seq<nat>
  {
    if |s| == 0 then [] else Marked(s[..|s| - 1]) + (if s[|s| - 1] then [|s| - 1] else [])
  }

  /** `Marked` lists exactly the true positions, each once, in increasing order. */
  lemma {:induction false} MarkedExactly(s: seq<bool>)
    ensures forall k :: 0 <= k < |Marked(s)| ==> Marked(s)[k] < |s| && s[Marked(s)[k]]
    ensures forall i :: 0 <= i < |s| && s[i] ==> i in Marked(s)
    ensures forall k, l :: 0 <= k < l < |Marked(s)| ==> Marked(s)[k] < Marked(s)[l]
  {
    if |s| > 0 {
      var n := |s| - 1;
      var p := s[..n];
      MarkedExactly(p);
      var mp := Marked(p);
      assert Marked(s) == mp + (if s[n] then [n] else []);
      assert forall i :: 0 <= i < n ==> p[i] == s[i];
      assert forall k :: 0 <= k < |mp| ==> mp[k] < n;
    }
  }

  /** The active renderers among `ms`. */
  ghost function Active(ms: set<Manageable>): set<Manageable>
    reads ms
  {
    set m | m in ms && m.isActive
  }

  class RenderManager {
    /** The Manager part, declared for renderers. */
    const manager: Manager
    var unitsPerPixel: Value
    /** `__layer_modified`: one flag per layer surface. */
    var layerModified: seq<bool>

    constructor (unitsPerPixel: Value, nLayers: nat)
      requires nLayers >= 1 && ValidatePositiveNumber(unitsPerPixel) == Pass
      ensures fresh(manager) && manager.base.kind == RenderManager && manager.accepts == RendererClass && manager.manageables == {}
      ensures this.unitsPerPixel == unitsPerPixel
      ensures |layerModified| == nLayers && forall i :: 0 <= i < nLayers ==> !layerModified[i]
    {
      manager := new Manager(RenderManager, Some(RendererClass));
      this.unitsPerPixel := unitsPerPixel;
      layerModified := seq(nLayers, _ => false);
    }

    /**
     * `update_manageables` as written, the render pass: clears the layers
     * modified last time (`cleared`) and resets their flags, then draws each
     * active renderer, in set order, with `renderer.render(layer_surface)`
     * and flags its layer, then blits exactly the flagged layers in layer
     * order (`blitted`). A renderer whose layer has no surface is an
     * IndexError; one whose `render` also expects the render manager is a
     * TypeError.
     */
    method UpdateManageables() returns (r: Outcome, cleared: seq<nat>, drawn: seq<Manageable>, blitted: seq<nat>)
      modifies this`layerModified
      ensures |layerModified| == |old(layerModified)|
      ensures cleared == Marked(old(layerModified))
      ensures r.Fail? <==> exists m :: m in manager.manageables && m.isActive && (m.layer >= |layerModified| || m.takesManager)
      ensures r == Fail(IndexError) || r == Fail(TypeError) || r == Pass
      ensures r == Fail(TypeError) ==>
        exists m :: m in manager.manageables && m.isActive && m.layer < |layerModified| && m.takesManager
      ensures r == Fail(IndexError) ==> exists m :: m in manager.manageables && m.isActive && m.layer >= |layerModified|
      ensures r == Pass ==>
        && IsEnumeration(drawn, Active(manager.manageables))
        && (forall i :: 0 <= i < |layerModified| ==>
              (layerModified[i] <==> exists m :: m in manager.manageables && m.isActive && m.layer == i))
        && blitted == Marked(layerModified)
    {
      cleared := ClearLayers();
      r, drawn := DrawActive(true);
      blitted := [];
      if r == Pass {
        blitted := FlaggedLayers();
      }
    }

    /**
     * The render pass as intended: every active renderer is handed the
     * render manager as well, as every current `render` declares it, so
     * only a missing layer surface fails.
     */
    method UpdateManageablesCorrected() returns (r: Outcome, cleared: seq<nat>, drawn: seq<Manageable>, blitted: seq<nat>)
      modifies this`layerModified
      ensures |layerModified| == |old(layerModified)|
      ensures cleared == Marked(old(layerModified))
      ensures r.Fail? <==> exists m :: m in manager.manageables && m.isActive && m.layer >= |layerModified|
      ensures r.Fail? ==> r.error == IndexError
      ensures r == Pass ==>
        && IsEnumeration(drawn, Active(manager.manageables))
        && (forall i :: 0 <= i < |layerModified| ==>
              (layerModified[i] <==> exists m :: m in manager.manageables && m.isActive && m.layer == i))
        && blitted == Marked(layerModified)
    {
      cleared := ClearLayers();
      r, drawn := DrawActive(false);
      blitted := [];
      if r == Pass {
        blitted := FlaggedLayers();
      }
    }

    /**
     * The drawing loop: each active renderer, in set order, flags its layer.
     * With `oneArgument` the call passes the surface alone, which a
     * `render` that also expects the manager refuses with TypeError; the
     * layer is looked up before the call.
     */
    method DrawActive(oneArgument: bool) returns (r: Outcome, drawn: seq<Manageable>)
      requires forall i :: 0 <= i < |layerModified| ==> !layerModified[i]
      modifies this`layerModified
      ensures |layerModified| == |old(layerModified)|
      ensures r.Fail? <==>
        exists m :: m in manager.manageables && m.isActive && (m.layer >= |layerModified| || (oneArgument && m.takesManager))
      ensures r == Fail(IndexError) || r == Fail(TypeError) || r == Pass
      ensures r == Fail(TypeError) ==>
        oneArgument && exists m :: m in manager.manageables && m.isActive && m.layer < |layerModified| && m.takesManager
      ensures r == Fail(IndexError) ==> exists m :: m in manager.manageables && m.isActive && m.layer >= |layerModified|
      ensures r == Pass ==>
        && IsEnumeration(drawn, Active(manager.manageables))
        && (forall i :: 0 <= i < |layerModified| ==>
              (layerModified[i] <==> exists m :: m in manager.manageables && m.isActive && m.layer == i))
    {
      var n := |layerModified|;
      drawn := [];
      var ms := manager.manageables;
      var rest := ms;
      while rest != {}
        invariant rest <= ms
        invariant |layerModified| == n
        invariant forall k :: 0 <= k < |drawn| ==>
          drawn[k] in ms && drawn[k].isActive && drawn[k] !in rest && drawn[k].layer < n && !(oneArgument && drawn[k].takesManager)
        invariant forall m :: m in ms && m !in rest && m.isActive ==> m in drawn
        invariant forall k, l :: 0 <= k < l < |drawn| ==> drawn[k] != drawn[l]
        invariant forall i :: 0 <= i < n ==> (layerModified[i] <==> exists m :: m in ms && m !in rest && m.isActive && m.layer == i)
        decreases |rest|
      {
        var m :| m in rest;
        if m.isActive {
          if m.layer >= n {
            return Fail(IndexError), drawn;
          }
          if oneArgument && m.takesManager {
            return Fail(TypeError), drawn;
          }
          ghost var before := drawn;
          drawn := drawn + [m];
          layerModified := layerModified[m.layer := true];
          assert forall k :: 0 <= k < |before| ==> drawn[k] == before[k];
          assert drawn[|before|] == m;
        }
        rest := rest - {m};
      }
      r := Pass;
    }

    /** `__clear_layer_surfaces`: clears each modified layer and resets its flag. */
    method ClearLayers() returns (cleared: seq<nat>)
      modifies this`layerModified
      ensures cleared == Marked(old(layerModified))
      ensures |layerModified| == |old(layerModified)| && forall i :: 0 <= i < |layerModified| ==> !layerModified[i]
    {
      var n := |layerModified|;
      cleared := [];
      var i := 0;
      while i < n
        invariant 0 <= i <= n && |layerModified| == n
        invariant cleared == Marked(old(layerModified)[..i])
        invariant forall j :: 0 <= j < i ==> !layerModified[j]
        invariant layerModified[i..] == old(layerModified)[i..]
      {
        assert old(layerModified)[..i + 1][..i] == old(layerModified)[..i];
        if layerModified[i] {
          cleared := cleared + [i];
        }
        layerModified := layerModified[i := false];
        i := i + 1;
      }
      assert old(layerModified)[..n] == old(layerModified);
    }

    /** The blit loop: the flagged layers, in layer order. */
    method FlaggedLayers() returns (blitted: seq<nat>)
      ensures blitted == Marked(layerModified)
    {
      blitted := [];
      var i := 0;
      while i < |layerModified|
        invariant 0 <= i <= |layerModified|
        invariant blitted == Marked(layerModified[..i])
      {
        assert layerModified[..i + 1][..i] == layerModified[..i];
        if layerModified[i] {
          blitted := blitted + [i];
        }
        i := i + 1;
      }
      assert layerModified[..i] == layerModified;
    }
  }

  /**
   * `RenderManager(display, units_per_pixel, background_color, n_layers)`:
   * the scale is validated first, then fewer than one layer is a ValueError.
   */
  method NewRenderManager(unitsPerPixel: Value, nLayers: int) returns (r: Result<RenderManager>)
    ensures r.Err? <==> ValidatePositiveNumber(unitsPerPixel).Fail? || nLayers < 1
    ensures ValidatePositiveNumber(unitsPerPixel).Fail? ==> r == Err(ValidatePositiveNumber(unitsPerPixel).error)
    ensures ValidatePositiveNumber(unitsPerPixel) == Pass && nLayers < 1 ==> r == Err(ValueError)
    ensures r.Ok? ==> fresh(r.value) && |r.value.layerModified| == nLayers && r.value.manager.manageables == {}
  {
    var v := ValidatePositiveNumber(unitsPerPixel);
    if v.Fail? {
      return Err(v.error);
    }
    if nLayers < 1 {
      return Err(ValueError);
    }
    var m := new RenderManager(unitsPerPixel, nLayers);
    r := Ok(m);
  }

  /** The Engine `CircleRenderer`: a Renderer with a validated world radius. */
  class CircleRenderer {
    const renderer: Manageable
    var radius: Value

    /**
     * `CircleRenderer(radius, color, layer)`: the radius setter runs first,
     * then the Renderer's layer setter, which refuses a negative layer.
     */
    static method New(radius: Value, layer: int) returns (r: Result<CircleRenderer>)
      ensures ValidatePositiveNumber(radius).Fail? ==> r == Err(ValidatePositiveNumber(radius).error)
      ensures ValidatePositiveNumber(radius) == Pass && layer < 0 ==> r == Err(ValueError)
      ensures r.Ok? <==> ValidatePositiveNumber(radius) == Pass && layer >= 0
      ensures r.Ok? ==>
        && fresh(r.value) && fresh(r.value.renderer)
        && r.value.renderer.base.kind == Renderer && r.value.renderer.managerType == RenderManagerClass
        && r.value.renderer.layer == layer && r.value.renderer.takesManager && r.value.renderer.isActive
        && r.value.radius == radius
    {
      var check := ValidatePositiveNumber(radius);
      if check.Fail? {
        return Err(check.error);
      }
      if layer < 0 {
        return Err(ValueError);
      }
      var c := new CircleRenderer(radius, layer);
      r := Ok(c);
    }

    constructor (radius: Value, layer: nat)
      ensures fresh(renderer) && renderer.base.kind == Renderer && renderer.managerType == RenderManagerClass
      ensures renderer.layer == layer && renderer.takesManager && renderer.isActive && this.radius == radius
    {
      renderer := new Manageable(Renderer, RenderManagerClass, layer, true);
      this.radius := radius;
    }

    /** The `radius` setter: `validate_positive_number`, then the store. */
    method SetRadius(v: Value) returns (r: Outcome)
      modifies this`radius
      ensures r == ValidatePositiveNumber(v)
      ensures r == Pass ==> radius == v
      ensures r.Fail? ==> radius == old(radius)
    {
      r := ValidatePositiveNumber(v);
      if r == Pass {
        radius := v;
      }
    }
  }

  // ---------------------------------------------------------------------
  // Physics: RigidBody and PhysicsManager

  /** The event system of the environment of `c`'s sim object, if any. */
  function BusOf(c: Component): EventSystem?
    reads c, c.simObject
  {
    if c.simObject != null && c.simObject.environment != null then c.simObject.environment.events else null
  }

  class RigidBody {
    /** The SimObjectComponent part. */
    const base: Component
    const body: Body
    var shapes: set<Shape>
    var space: Space?

    function SyncBodyListener(): Listener { Listener(this, OnSyncBody) }
    function SyncSimObjectListener(): Listener { Listener(this, OnSyncSimObject) }

    /** `RigidBody(shapes, body_type)`: the given shapes, or one default circle of mass 1 and elasticity 0.5. */
    constructor (initial: set<Shape>, bodyType: BodyType)
      ensures fresh(base) && base.kind == RigidBody && !base.isSetUp && base.simObject == null
      ensures fresh(body) && body.bodyType == bodyType && space == null
      ensures initial != {} ==> shapes == initial
      ensures initial == {} ==> exists s :: shapes == {s} && fresh(s) && s.mass == 1.0 && s.elasticity == 0.5
    {
      base := new Component(RigidBody);
      body := new Body(bodyType);
      space := null;
      if initial == {} {
        var s := new Shape(1.0, 0.5);
        shapes := {s};
      } else {
        shapes := initial;
      }
    }

    /**
     * `setup`: marks itself set up first, then finds the PhysicsManager
     * (`found`), adds its body and shapes to that manager's space, moves the
     * body to its object's transform and subscribes both synchronisation
     * listeners.
     */
    method Setup(found: Option<PhysicsManager>) returns (r: Outcome)
      modifies base`isSetUp, this`space, BusOf(base), body`position
      modifies if found.Some? then {found.value.space} else {}
      ensures base.isSetUp
      ensures BusOf(base) == null ==> r == Fail(AttributeError)
      ensures BusOf(base) != null && found.None? ==> r == Fail(ValueError)
      ensures BusOf(base) != null && found.Some? ==>
        && space == found.value.space
        && space.bodies == old(found.value.space.bodies) + {body}
        && space.shapes == old(found.value.space.shapes) + shapes
      ensures BusOf(base) != null && found.Some? && base.simObject.transform == null ==> r == Fail(AttributeError)
      ensures BusOf(base) != null && found.Some? && base.simObject.transform != null ==>
        && r == Pass
        && body.position == base.simObject.transform.position
        && BusOf(base).listeners ==
             Subscribe(Subscribe(old(BusOf(base).listeners), SyncBodyWithSimObject, SyncBodyListener()),
                       SyncSimObjectWithBody, SyncSimObjectListener())
    {
      base.isSetUp := true;
      var bus := BusOf(base);
      if bus == null {
        return Fail(AttributeError);
      }
      var t := base.simObject.transform;
      if found.None? {
        return Fail(ValueError);
      }
      space := found.value.space;
      space.Add({body}, shapes);
      // reading `position` from a missing transform is an AttributeError, before any unpacking
      if t == null {
        return Fail(AttributeError);
      }
      body.position := t.position;
      r := bus.AddListener(SyncBodyWithSimObject, Callable(SyncBodyListener()));
      r := bus.AddListener(SyncSimObjectWithBody, Callable(SyncSimObjectListener()));
    }

    /**
     * `on_destroy` as written: it calls `add_listener` for both
     * synchronisation events where `remove_listener` was meant, so the
     * destroyed body stays subscribed; then its shapes and body leave the space.
     */
    method OnDestroyAsWritten() returns (r: Outcome)
      modifies BusOf(base), if space == null then {} else {space}
      ensures BusOf(base) == null ==> r == Fail(AttributeError)
      ensures BusOf(base) != null ==>
        && SyncBodyListener() in ListenersOf(BusOf(base).listeners, SyncBodyWithSimObject)
        && SyncSimObjectListener() in ListenersOf(BusOf(base).listeners, SyncSimObjectWithBody)
      ensures BusOf(base) != null && space == null ==> r == Fail(AttributeError)
      ensures r == Pass ==> space.bodies == old(space.bodies) - {body} && space.shapes == old(space.shapes) - shapes
    {
      var bus := BusOf(base);
      if bus == null {
        return Fail(AttributeError);
      }
      r := bus.AddListener(SyncBodyWithSimObject, Callable(SyncBodyListener()));
      r := bus.AddListener(SyncSimObjectWithBody, Callable(SyncSimObjectListener()));
      if space == null {
        return Fail(AttributeError);
      }
      space.Remove({body}, shapes);
    }

    /** `on_destroy` as intended: both listeners are removed before the body leaves the space. */
    method OnDestroy() returns (r: Outcome)
      modifies BusOf(base), if space == null then {} else {space}
      ensures BusOf(base) == null ==> r == Fail(AttributeError)
      ensures r == Pass ==>
        && BusOf(base) != null && space != null
        && SyncBodyListener() !in ListenersOf(BusOf(base).listeners, SyncBodyWithSimObject)
        && SyncSimObjectListener() !in ListenersOf(BusOf(base).listeners, SyncSimObjectWithBody)
        && space.bodies == old(space.bodies) - {body} && space.shapes == old(space.shapes) - shapes
    {
      var bus := BusOf(base);
      if bus == null {
        return Fail(AttributeError);
      }
      r := bus.RemoveListener(SyncBodyWithSimObject, SyncBodyListener());
      if r.Fail? {
        return;
      }
      r := bus.RemoveListener(SyncSimObjectWithBody, SyncSimObjectListener());
      if r.Fail? {
        return;
      }
      if space == null {
        return Fail(AttributeError);
      }
      space.Remove({body}, shapes);
    }
  }

  /**
   * The stale subscription the written `on_destroy` leaves behind: the next
   * body-synchronisation event still calls the destroyed body.
   */
  method DestroyThenSyncAsWritten(rb: RigidBody) returns (called: seq<Listener>)
    requires BusOf(rb.base) != null
    modifies BusOf(rb.base), rb.space
    ensures rb.SyncBodyListener() in called
  {
    var bus := BusOf(rb.base);
    var _ := rb.OnDestroyAsWritten();
    called := bus.RaiseEvent(Event(SyncBodyWithSimObject));
  }

  /** With the intended `on_destroy`, a destroyed body is no longer called. */
  method DestroyThenSync(rb: RigidBody) returns (r: Outcome, called: seq<Listener>)
    requires BusOf(rb.base) != null
    modifies BusOf(rb.base), rb.space
    ensures r == Pass ==> rb.SyncBodyListener() !in called
  {
    var bus := BusOf(rb.base);
    r := rb.OnDestroy();
    called := bus.RaiseEvent(Event(SyncBodyWithSimObject));
  }

  /**
   * The arity mismatch of the written render pass: one layer, one circle
   * renderer on it, and the pass fails with TypeError, since the circle's
   * `render` also expects the render manager.
   */
  method CircleRenderPassAsWritten() returns (r: Outcome)
    ensures r == Fail(TypeError)
  {
    var rm := new RenderManager(Int(1), 1);
    var c := CircleRenderer.New(Int(1), 0);
    var attached := rm.manager.AttachManageable(AManageable(c.value.renderer));
    assert rm.manager.manageables == {c.value.renderer};
    var cleared, drawn, blitted;
    r, cleared, drawn, blitted := rm.UpdateManageables();
  }

  /** The same scene with the intended pass: the circle is drawn and its layer blitted. */
  method CircleRenderPassCorrected() returns (r: Outcome, blitted: seq<nat>)
    ensures r == Pass && blitted == [0]
  {
    var rm := new RenderManager(Int(1), 1);
    var c := CircleRenderer.New(Int(1), 0);
    var attached := rm.manager.AttachManageable(AManageable(c.value.renderer));
    assert rm.manager.manageables == {c.value.renderer};
    var cleared, drawn;
    r, cleared, drawn, blitted := rm.UpdateManageablesCorrected();
    assert rm.layerModified[0];
    assert rm.layerModified == [true];
    assert Marked([true]) == Marked([]) + [0];
  }

  /** The Engine step: the current five phases without the closing post-physics event. */
  function EngineStepPhases(dt: real): (r: seq<Phase>)
    ensures r == StepPhases(dt)[..4]
    ensures Raised(PostPhysicsUpdate) !in r
  {
    [Raised(SyncBodyWithSimObject), Raised(ExertForces), Stepped(dt), Raised(SyncSimObjectWithBody)]
  }

  class PhysicsManager {
    /** The EnvironmentComponent part. */
    const base: Component
    var dt: real
    var events: EventSystem?
    const space: Space
    /** The phases performed so far, in order. */
    var trace: seq<Phase>

    /** `PhysicsManager(dt)`; 1/60 by default. */
    constructor (dt: real)
      ensures fresh(base) && base.kind == PhysicsManager && !base.isSetUp && base.environment == null
      ensures this.dt == dt && events == null && fresh(space) && trace == []
      ensures space.bodies == {} && space.shapes == {} && space.steps == []
    {
      base := new Component(PhysicsManager);
      this.dt := dt;
      events := null;
      space := new Space();
      trace := [];
    }

    /** `setup`: marks itself set up, then takes the environment's event system. */
    method Setup() returns (r: Outcome)
      modifies base`isSetUp, this`events
      ensures base.isSetUp
      ensures base.environment == null ==> r == Fail(AttributeError) && events == old(events)
      ensures base.environment != null ==> r == Pass && events == base.environment.events
    {
      base.isSetUp := true;
      if base.environment == null {
        return Fail(AttributeError);
      }
      events := base.environment.events;
      r := Pass;
    }

    /**
     * `advance_timestep`: synchronise bodies, exert forces, step the space by
     * `dt`, synchronise transforms. There is no post-physics event.
     */
    method AdvanceTimestep() returns (r: Outcome)
      modifies this`trace, if events == null then {} else {events}
      modifies space`steps, space.bodies`position, space.bodies`angle, space.bodies`velocity
      ensures events == null ==> r == Fail(AttributeError) && trace == old(trace) && space.steps == old(space.steps)
      ensures events != null ==>
        && r == Pass
        && trace == old(trace) + EngineStepPhases(dt)
        && events.raised == old(events.raised) + [Event(SyncBodyWithSimObject), Event(ExertForces), Event(SyncSimObjectWithBody)]
        && events.listeners == old(events.listeners)
        && space.steps == old(space.steps) + [dt]
    {
      if events == null {
        return Fail(AttributeError);
      }
      var _ := events.RaiseEvent(Event(SyncBodyWithSimObject));
      var _ := events.RaiseEvent(Event(ExertForces));
      space.Step(dt);
      var _ := events.RaiseEvent(Event(SyncSimObjectWithBody));
      trace := trace + EngineStepPhases(dt);
      r := Pass;
    }
  }

  // ---------------------------------------------------------------------
  // DefaultEnvironment

  function PhysicsSet(p: PhysicsManager?): set<PhysicsManager> {
    if p == null then {} else {p}
  }

  class DefaultEnvironment {
    /** The SimEnvironment part. */
    const env: Environment
    var renderManager: RenderManager?
    var physicsManager: PhysicsManager?

    /** The state before `_setup`: no manager references yet. */
    constructor ()
      ensures fresh(env) && !env.isSetUp && env.simObjects == {} && env.components == {} && env.toBeDestroyed == {}
      ensures renderManager == null && physicsManager == null
    {
      env := new Environment();
      renderManager := null;
      physicsManager := null;
    }

    /**
     * `_setup`: fetches the RenderManager and then the PhysicsManager
     * (`foundRender`, `foundPhysics`: the results of `get_component`, a
     * ValueError when absent) before the base `_setup` runs.
     */
    method Setup(foundRender: Option<RenderManager>, foundPhysics: Option<PhysicsManager>) returns (r: Outcome)
      modifies this`renderManager, this`physicsManager
      modifies env`isSetUp, env.components`isSetUp, ComponentsOf(env.simObjects)`isSetUp
      ensures r == Pass <==> foundRender.Some? && foundPhysics.Some?
      ensures r.Fail? ==> r.error == ValueError && env.isSetUp == old(env.isSetUp)
      ensures foundRender.None? ==> renderManager == old(renderManager) && physicsManager == old(physicsManager)
      ensures foundRender.Some? ==> renderManager == foundRender.value
      ensures foundRender.Some? && foundPhysics.None? ==> physicsManager == old(physicsManager)
      ensures r == Pass ==>
        && physicsManager == foundPhysics.value && env.isSetUp
        && (forall c :: c in env.components ==> c.isSetUp)
        && (forall o, c :: o in env.simObjects && c in o.components ==> c.isSetUp)
    {
      if foundRender.None? {
        return Fail(ValueError);
      }
      renderManager := foundRender.value;
      if foundPhysics.None? {
        return Fail(ValueError);
      }
      physicsManager := foundPhysics.value;
      env.SetupAll();
      r := Pass;
    }

    /** `advance`: one physics step, then the base `advance`, which runs the deferred destruction. */
    method Advance() returns (r: Outcome, order: seq<SimObject>)
      requires env.MarkedWellFormed()
      requires physicsManager != null && physicsManager.events != null
      modifies physicsManager`trace, physicsManager.events
      modifies physicsManager.space`steps, physicsManager.space.bodies`position, physicsManager.space.bodies`angle
      modifies physicsManager.space.bodies`velocity
      modifies env`toBeDestroyed, env`simObjects, env.toBeDestroyed`environment, ComponentsOf(env.toBeDestroyed)`destroyCalls
      ensures physicsManager.trace == old(physicsManager.trace) + EngineStepPhases(physicsManager.dt)
      ensures r == Pass ==> env.toBeDestroyed == {} && env.simObjects == old(env.simObjects) - old(env.toBeDestroyed)
      ensures r == Pass ==> IsEnumeration(order, old(env.toBeDestroyed))
    {
      var _ := physicsManager.AdvanceTimestep();
      r, order := env.DestroySimObjects();
    }

    /** `render` as written: it calls `render_scene`, which the Engine RenderManager does not define. */
    method Render() returns (r: Outcome)
      ensures r == Fail(AttributeError)
    {
      r := Fail(AttributeError);
    }

    /** `render` as intended: the RenderManager's corrected render pass. */
    method RenderCorrected() returns (r: Outcome, drawn: seq<Manageable>)
      modifies if renderManager == null then {} else {renderManager}
      ensures renderManager == null ==> r == Fail(AttributeError)
      ensures renderManager != null ==>
        (r == Pass <==> forall m :: m in renderManager.manager.manageables && m.isActive ==> m.layer < |renderManager.layerModified|)
      ensures r == Pass ==> IsEnumeration(drawn, Active(renderManager.manager.manageables))
    {
      drawn := [];
      if renderManager == null {
        return Fail(AttributeError), drawn;
      }
      var cleared, blitted;
      r, cleared, drawn, blitted := renderManager.UpdateManageablesCorrected();
    }
  }
}
