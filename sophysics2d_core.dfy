/**
 * The second generation of the kernel (the `Sophysics2D` directory).
 * Containers and registries are Python lists: attaching twice stores twice,
 * the last match of a lookup wins, and removal takes the first occurrence.
 * Components are started by `start()` rather than set up, a RigidBodyManager
 * drives the physics step, and the begin/pre-solve handlers ask every
 * collision listener on both bodies.
 */
module Sophysics2DCore {
  import opened Wrappers
  import opened Values
  import opened Helpers
  import opened Vectors
  import Physics

  datatype Kind =
    | Transform
    | ObjectComponent       // a plain SimObjectComponent subclass
    | Manageable            // a plain Manageable subclass
    | Renderer
    | RigidBody
    | Force
    | CollisionListener
    | EnvironmentComponent  // a plain EnvironmentComponent subclass
    | Manager
    | RenderManager
    | RigidBodyManager

  datatype ComponentClass =
    | ComponentBase
    | SimObjectComponentClass
    | EnvironmentComponentClass
    | TransformClass
    | ManageableClass
    | RendererClass
    | RigidBodyClass
    | ForceClass
    | CollisionListenerClass
    | ManagerClass
    | RigidBodyManagerClass

  predicate IsObjectKind(k: Kind) {
    k.Transform? || k.ObjectComponent? || k.Manageable? || k.Renderer? || k.RigidBody? || k.Force? || k.CollisionListener?
  }

  /** `isinstance(c, t)` for a component of kind `k`. */
  predicate IsInstance(k: Kind, t: ComponentClass) {
    match t
    case ComponentBase => true
    case SimObjectComponentClass => IsObjectKind(k)
    case EnvironmentComponentClass => !IsObjectKind(k)
    case TransformClass => k.Transform?
    case ManageableClass => k.Manageable? || k.Renderer? || k.RigidBody?
    case RendererClass => k.Renderer?
    case RigidBodyClass => k.RigidBody?
    case ForceClass => k.Force?
    case CollisionListenerClass => k.CollisionListener?
    case ManagerClass => k.Manager? || k.RenderManager? || k.RigidBodyManager?
    case RigidBodyManagerClass => k.RigidBodyManager?
  }

  function Elements<T>(s: seq<T>): set<T> {
    set i | 0 <= i < |s| :: s[i]
  }

  // ---------------------------------------------------------------------
  // List operations

  /** The position of the first occurrence of `x` in `s`. */
  function FirstIndex<T(==)>(s: seq<T>, x: T): (i: nat)
    requires x in s
    ensures i < |s| && s[i] == x && x !in s[..i]
  {
    if s[0] == x then 0
    else
      var j := FirstIndex(s[1..], x);
      assert s[..j + 1] == [s[0]] + s[1..][..j];
      j + 1
  }

  /** `list.remove(x)` on a list that holds `x`: the first occurrence goes, and nothing else. */
  function RemoveFirst<T(==)>(s: seq<T>, x: T): (r: seq<T>)
    requires x in s
    ensures multiset(r) == multiset(s) - multiset{x}
  {
    var i := FirstIndex(s, x);
    assert s == s[..i] + [x] + s[i + 1..];
    s[..i] + s[i + 1..]
  }

  /** `list.remove(x)`: a ValueError when `x` is absent. */
  function ListRemove<T(==)>(s: seq<T>, x: T): (r: Result<seq<T>>)
    ensures r.Err? <==> x !in s
    ensures r.Err? ==> r.error == ValueError
    ensures r.Ok? ==> |r.value| == |s| - 1 && multiset(r.value) == multiset(s) - multiset{x}
  {
    if x in s then Ok(RemoveFirst(s, x)) else Err(ValueError)
  }

  /** Removing what was just appended, when it was not there before, restores the list. */
  lemma {:induction false} RemoveUndoesAppend<T>(s: seq<T>, x: T)
    requires x !in s
    ensures ListRemove(s + [x], x) == Ok(s)
  {
    var t := s + [x];
    assert x in t by { assert t[|s|] == x; }
    var i := FirstIndex(t, x);
    assert forall j :: 0 <= j < |s| ==> t[j] == s[j] && t[j] != x;
    assert i == |s|;
    assert t[..i] == s && t[i + 1..] == [];
    assert RemoveFirst(t, x) == s;
  }

  /** Appending twice stores two copies, and one removal leaves the other in place. */
  lemma {:induction false} DoubleAttachSurvivesOneRemoval<T>(s: seq<T>, x: T)
    ensures multiset(s + [x] + [x])[x] == multiset(s)[x] + 2
    ensures ListRemove(s + [x] + [x], x).Ok? && x in ListRemove(s + [x] + [x], x).value
  {
    var t := s + [x] + [x];
    assert t[|t| - 1] == x;
    var r := ListRemove(t, x).value;
    assert multiset(r)[x] == multiset(t)[x] - 1 >= 1;
  }

  // ---------------------------------------------------------------------
  // Component and the container queries

  class Component {
    const kind: Kind
    var started: bool
    var simObject: SimObject?
    var environment: Environment?
    /** The Transform's `position` and `rotation` (meaningful for the Transform kind). */
    var position: Vec2
    var rotation: real

    constructor (kind: Kind)
      ensures this.kind == kind && !started && simObject == null && environment == null
      ensures position == Zero && rotation == 0.0
    {
      this.kind := kind;
      started := false;
      simObject := null;
      environment := null;
      position := Zero;
      rotation := 0.0;
    }

    /** The base `start`: marks the component started. */
    method Start()
      modifies this`started
      ensures started
    {
      started := true;
    }
  }

  /** `c` is the last instance of `t` in `cs`. */
  ghost predicate IsLastMatch(cs: seq<Component>, t: ComponentClass, c: Component) {
    exists i :: 0 <= i < |cs| && cs[i] == c && IsInstance(c.kind, t) && forall j :: i < j < |cs| ==> !IsInstance(cs[j].kind, t)
  }

  /** The last match is unique. */
  lemma LastMatchUnique(cs: seq<Component>, t: ComponentClass, c: Component, d: Component)
    requires IsLastMatch(cs, t, c) && IsLastMatch(cs, t, d)
    ensures c == d
  {
    var i :| 0 <= i < |cs| && cs[i] == c && IsInstance(c.kind, t) && forall j :: i < j < |cs| ==> !IsInstance(cs[j].kind, t);
    var k :| 0 <= k < |cs| && cs[k] == d && IsInstance(d.kind, t) && forall j :: k < j < |cs| ==> !IsInstance(cs[j].kind, t);
    assert i == k;
  }

  /** Of two matching components, the later one is found, not the earlier one. */
  lemma LastMatchWins(a: Component, b: Component, t: ComponentClass)
    requires a != b && IsInstance(a.kind, t) && IsInstance(b.kind, t)
    ensures IsLastMatch([a, b], t, b) && !IsLastMatch([a, b], t, a)
  {
    assert [a, b][1] == b;
  }

  /** The instances of `t` in `cs`, in order, duplicates kept. */
  function OfClass(cs: seq<Component>, t: ComponentClass): seq<Component>
  {
    if cs == [] then []
    else OfClass(cs[..|cs| - 1], t) + (if IsInstance(cs[|cs| - 1].kind, t) then [cs[|cs| - 1]] else [])
  }

  /** `get_components` keeps exactly the instances of the class, none lost and none added. */
  lemma {:induction false} OfClassExactly(cs: seq<Component>, t: ComponentClass)
    ensures forall c :: c in OfClass(cs, t) <==> c in cs && IsInstance(c.kind, t)
  {
    if cs != [] {
      var p := cs[..|cs| - 1];
      OfClassExactly(p, t);
      assert cs == p + [cs[|cs| - 1]];
    }
  }

  /** `try_get_component`: the loop keeps the latest match, so the last one wins. */
  method TryGetComponent(cs: seq<Component>, t: ComponentClass) returns (r: Option<Component>)
    ensures r.None? <==> forall i :: 0 <= i < |cs| ==> !IsInstance(cs[i].kind, t)
    ensures r.Some? ==> IsLastMatch(cs, t, r.value)
  {
    r := None;
    ghost var at := -1;
    var i := 0;
    while i < |cs|
      invariant 0 <= i <= |cs| && -1 <= at < i
      invariant r.None? <==> at == -1
      invariant r.None? ==> forall j :: 0 <= j < i ==> !IsInstance(cs[j].kind, t)
      invariant r.Some? ==> cs[at] == r.value && IsInstance(r.value.kind, t) && forall j :: at < j < i ==> !IsInstance(cs[j].kind, t)
    {
      if IsInstance(cs[i].kind, t) {
        r := Some(cs[i]);
        at := i;
      }
      i := i + 1;
    }
  }

  /** `get_component`: the last match, or a ValueError when there is none. */
  method GetComponent(cs: seq<Component>, t: ComponentClass) returns (r: Result<Component>)
    ensures r.Err? <==> forall i :: 0 <= i < |cs| ==> !IsInstance(cs[i].kind, t)
    ensures r.Err? ==> r.error == ValueError
    ensures r.Ok? ==> IsLastMatch(cs, t, r.value)
  {
    var found := TryGetComponent(cs, t);
    if found.None? {
      return Err(ValueError);
    }
    r := Ok(found.value);
  }

  /** `get_components`: every instance in list order. */
  method GetComponents(cs: seq<Component>, t: ComponentClass) returns (r: seq<Component>)
    ensures r == OfClass(cs, t)
    ensures forall c :: c in r <==> c in cs && IsInstance(c.kind, t)
  {
    r := [];
    var i := 0;
    while i < |cs|
      invariant 0 <= i <= |cs|
      invariant r == OfClass(cs[..i], t)
    {
      assert cs[..i + 1][..i] == cs[..i];
      if IsInstance(cs[i].kind, t) {
        r := r + [cs[i]];
      }
      i := i + 1;
    }
    assert cs[..i] == cs;
    OfClassExactly(cs, t);
  }

  /** `has_component`: whether `try_get_component` finds something. */
  method HasComponent(cs: seq<Component>, t: ComponentClass) returns (b: bool)
    ensures b <==> exists i :: 0 <= i < |cs| && IsInstance(cs[i].kind, t)
  {
    var found := TryGetComponent(cs, t);
    b := found.Some?;
  }

  // ---------------------------------------------------------------------
  // SimObject and SimEnvironment

  class SimObject {
    var components: seq<Component>
    var environment: Environment?
    var transform: Component?

    /**
     * `SimObject(components)`: attaches each component (none is started, as
     * there is no environment yet), then takes the last Transform as the
     * object's transform, attaching a new one only when there is none.
     */
    constructor (comps: seq<Component>)
      modifies (set e | e in comps)`simObject
      ensures environment == null
      ensures forall c :: c in components ==> c.simObject == this
      ensures (exists i :: 0 <= i < |comps| && comps[i].kind.Transform?) ==>
        components == comps && transform != null && IsLastMatch(comps, TransformClass, transform)
      ensures (forall i :: 0 <= i < |comps| ==> !comps[i].kind.Transform?) ==>
        transform != null && fresh(transform) && transform.kind == Transform && components == comps + [transform]
    {
      components := [];
      environment := null;
      transform := null;
      new;
      var i := 0;
      while i < |comps|
        invariant 0 <= i <= |comps| && components == comps[..i]
        invariant forall j :: 0 <= j < i ==> comps[j].simObject == this
        invariant environment == null && transform == null
      {
        comps[i].simObject := this;
        components := components + [comps[i]];
        i := i + 1;
      }
      assert components == comps;
      var found := TryGetComponent(components, TransformClass);
      if found.None? {
        var t := new Component(Transform);
        t.simObject := this;
        components := components + [t];
        transform := t;
      } else {
        transform := found.value;
      }
    }

    /** `attach_component`: appends (twice if attached twice), starting the component when the environment has started. */
    method AttachComponent(c: Component)
      modifies this`components, c`simObject, c`started
      ensures components == old(components) + [c] && c.simObject == this
      ensures c.started <==> old(c.started) || (environment != null && environment.started)
    {
      c.simObject := this;
      components := components + [c];
      if environment != null && environment.started {
        c.Start();
      }
    }

    /** `remove_component`: clears the back-reference, then `list.remove` (a ValueError when absent). */
    method RemoveComponent(c: Component) returns (r: Outcome)
      modifies this`components, c`simObject
      ensures c.simObject == null
      ensures r == Pass <==> c in old(components)
      ensures r.Fail? ==> r.error == ValueError && components == old(components)
      ensures r == Pass ==> Ok(components) == ListRemove(old(components), c)
    {
      c.simObject := null;
      var rest := ListRemove(components, c);
      if rest.Err? {
        return Fail(rest.error);
      }
      components := rest.value;
      r := Pass;
    }
  }

  /** The components of the objects of `os`, object by object, in list order. */
  ghost function ObjectComponents(os: seq<SimObject>): seq<Component>
    reads (set e | e in os)`components
  {
    if os == [] then [] else ObjectComponents(os[..|os| - 1]) + os[|os| - 1].components
  }

  class Environment {
    var started: bool
    var simObjects: seq<SimObject>
    var components: seq<Component>

    /** `SimEnvironment(sim_objects, components)`: attaches the objects, then the components; nothing is started. */
    constructor (objs: seq<SimObject>, comps: seq<Component>)
      modifies (set e | e in objs)`environment, (set e | e in comps)`environment
      ensures !started && simObjects == objs && components == comps
      ensures forall o :: o in objs ==> o.environment == this
      ensures forall c :: c in comps ==> c.environment == this
    {
      started := false;
      simObjects := [];
      components := [];
      new;
      var i := 0;
      while i < |objs|
        invariant 0 <= i <= |objs| && simObjects == objs[..i]
        invariant forall j :: 0 <= j < i ==> objs[j].environment == this
        invariant !started && components == []
      {
        objs[i].environment := this;
        simObjects := simObjects + [objs[i]];
        i := i + 1;
      }
      i := 0;
      while i < |comps|
        invariant 0 <= i <= |comps| && components == comps[..i]
        invariant forall j :: 0 <= j < i ==> comps[j].environment == this
        invariant forall j :: 0 <= j < |objs| ==> objs[j].environment == this
        invariant !started && simObjects == objs
      {
        comps[i].environment := this;
        components := components + [comps[i]];
        i := i + 1;
      }
    }

    /** `attach_object`: links and appends the object; its components are not started, even after `start`. */
    method AttachObject(o: SimObject)
      modifies o`environment, this`simObjects
      ensures o.environment == this && simObjects == old(simObjects) + [o]
    {
      o.environment := this;
      simObjects := simObjects + [o];
    }

    /** `attach_component`: links and appends the component, and starts it when this environment has started. */
    method AttachComponent(c: Component)
      modifies this`components, c`environment, c`started
      ensures components == old(components) + [c] && c.environment == this
      ensures c.started <==> old(c.started) || started
    {
      c.environment := this;
      components := components + [c];
      if started {
        c.Start();
      }
    }

    /** `remove_component`: clears the back-reference, then `list.remove`. */
    method RemoveComponent(c: Component) returns (r: Outcome)
      modifies this`components, c`environment
      ensures c.environment == null
      ensures r == Pass <==> c in old(components)
      ensures r.Fail? ==> r.error == ValueError && components == old(components)
      ensures r == Pass ==> Ok(components) == ListRemove(old(components), c)
    {
      c.environment := null;
      var rest := ListRemove(components, c);
      if rest.Err? {
        return Fail(rest.error);
      }
      components := rest.value;
      r := Pass;
    }

    /**
     * `start`: starts every environment component, then every component of
     * every sim object (a component listed twice is started twice), then
     * sets the flag. `order` lists the `start` calls.
     */
    method Start() returns (order: seq<Component>)
      modifies this`started, (set e | e in components)`started
      modifies set o, c | o in simObjects && c in o.components :: c`started
      ensures started
      ensures order == components + ObjectComponents(simObjects)
      ensures forall c :: c in order ==> c.started
    {
      order := StartEach(components);
      var more := StartObjects(simObjects);
      order := order + more;
      started := true;
    }

    /** Starts the components of each of `os`, object by object. */
    static method StartObjects(os: seq<SimObject>) returns (order: seq<Component>)
      modifies set o, c | o in os && c in o.components :: c`started
      ensures order == ObjectComponents(os)
      ensures forall c :: c in order ==> c.started
      ensures forall c: Component :: old(allocated(c) && c.started) ==> c.started
    {
      order := [];
      var i := 0;
      while i < |os|
        invariant 0 <= i <= |os|
        invariant order == ObjectComponents(os[..i])
        invariant forall c :: c in order ==> c.started
        invariant forall c: Component :: old(allocated(c) && c.started) ==> c.started
      {
        var o := os[i];
        assert os[..i + 1][..i] == os[..i];
        var more := StartEach(o.components);
        order := order + more;
        i := i + 1;
      }
      assert os[..i] == os;
    }

    /** Starts each component of `cs` in list order. */
    static method StartEach(cs: seq<Component>) returns (order: seq<Component>)
      modifies (set e | e in cs)`started
      ensures order == cs
      ensures forall c :: c in cs ==> c.started
      ensures forall c: Component :: old(allocated(c) && c.started) ==> c.started
    {
      order := [];
      var i := 0;
      while i < |cs|
        invariant 0 <= i <= |cs| && order == cs[..i]
        invariant forall j :: 0 <= j < i ==> cs[j].started
        invariant forall c: Component :: old(allocated(c) && c.started) ==> c.started
      {
        cs[i].Start();
        order := order + [cs[i]];
        i := i + 1;
      }
    }
  }

  /** Attaching an object to a started environment leaves its components unstarted. */
  method AttachAfterStart(env: Environment, o: SimObject, c: Component)
    requires c in o.components && !c.started
    modifies o`environment, env`simObjects
    ensures env.started ==> !c.started
    ensures o.environment == env
  {
    env.AttachObject(o);
  }

  // ---------------------------------------------------------------------
  // Manager and Manageable

  /** What a type-checked registration may be handed: a component, or any other value. */
  datatype Arg = AComponent(c: Component) | NotAComponent

  function ArgIs(x: Arg, t: ComponentClass): bool {
    x.AComponent? && IsInstance(x.c.kind, t)
  }

  class Manager {
    const base: Component
    const accepts: ComponentClass
    var manageables: seq<Component>

    /** `Manager(manageable_type)`: `None` means `Manageable`. */
    constructor (kind: Kind, manageableType: Option<ComponentClass>)
      ensures fresh(base) && base.kind == kind && !base.started
      ensures accepts == (if manageableType.None? then ManageableClass else manageableType.value)
      ensures manageables == []
    {
      base := new Component(kind);
      accepts := if manageableType.None? then ManageableClass else manageableType.value;
      manageables := [];
    }

    /** `attach_manageable`: a TypeError for the wrong type; otherwise an append, so a second attach stores a second copy. */
    method AttachManageable(x: Arg) returns (r: Outcome)
      modifies this`manageables
      ensures r == Pass <==> ArgIs(x, accepts)
      ensures r.Fail? ==> r.error == TypeError && manageables == old(manageables)
      ensures r == Pass ==> manageables == old(manageables) + [x.c]
    {
      if !ArgIs(x, accepts) {
        return Fail(TypeError);
      }
      manageables := manageables + [x.c];
      r := Pass;
    }
  }

  /** The environment `c.sim_object.environment` reaches, if any. */
  function EnvOf(c: Component): Environment?
    reads c, c.simObject
  {
    if c.simObject == null then null else c.simObject.environment
  }

  /**
   * `Manageable.start`: the manager is looked up through the environment
   * (`found`; `get_component` raises ValueError when there is none), the
   * component registers with it, and only then is it marked started.
   */
  method StartManageable(m: Component, found: Option<Manager>) returns (r: Outcome, manager: Option<Manager>)
    modifies m`started, if found.Some? then {found.value} else {}
    ensures EnvOf(m) == null ==> r == Fail(AttributeError) && manager.None? && m.started == old(m.started)
    ensures EnvOf(m) != null && found.None? ==> r == Fail(ValueError) && manager.None? && m.started == old(m.started)
    ensures EnvOf(m) != null && found.Some? ==>
      && manager == found
      && (r == Pass <==> IsInstance(m.kind, found.value.accepts))
      && (r == Pass ==> m.started && found.value.manageables == old(found.value.manageables) + [m])
      && (r.Fail? ==> r.error == TypeError && m.started == old(m.started))
  {
    manager := None;
    if EnvOf(m) == null {
      return Fail(AttributeError), None;
    }
    if found.None? {
      return Fail(ValueError), None;
    }
    manager := found;
    r := found.value.AttachManageable(AComponent(m));
    if r.Fail? {
      return;
    }
    m.Start();
  }

  // ---------------------------------------------------------------------
  // RigidBody and RigidBodyManager

  /** One step of `RigidBodyManager.update`, in the order they happen. */
  datatype UpdateStep =
    | SyncedBody(rb: RigidBody)          // body position and angle from the transform
    | ForceUpdated(force: Component)     // `force.update()`
    | SpaceStepped(dt: real)
    | SyncedTransform(rb: RigidBody)     // transform position and rotation from the body

  function ForceSteps(fs: seq<Component>): (r: seq<UpdateStep>)
    ensures |r| == |fs| && forall i :: 0 <= i < |fs| ==> r[i] == ForceUpdated(fs[i])
  {
    seq(|fs|, i requires 0 <= i < |fs| => ForceUpdated(fs[i]))
  }

  /** The steps of `rb.update()` for each of `rbs`: its body sync, then each of its forces. */
  ghost function PreSteps(rbs: seq<RigidBody>): seq<UpdateStep>
    reads (set e | e in rbs)`forces
  {
    if rbs == [] then []
    else PreSteps(rbs[..|rbs| - 1]) + [SyncedBody(rbs[|rbs| - 1])] + ForceSteps(rbs[|rbs| - 1].forces)
  }

  function PostSteps(rbs: seq<RigidBody>): (r: seq<UpdateStep>)
    ensures |r| == |rbs| && forall i :: 0 <= i < |rbs| ==> r[i] == SyncedTransform(rbs[i])
  {
    seq(|rbs|, i requires 0 <= i < |rbs| => SyncedTransform(rbs[i]))
  }

  /** Every rigidbody's body is synchronised before the space steps. */
  lemma {:induction false} PreStepsSyncEach(rbs: seq<RigidBody>)
    ensures forall i :: 0 <= i < |rbs| ==> SyncedBody(rbs[i]) in PreSteps(rbs)
    ensures forall s :: s in PreSteps(rbs) ==> !s.SpaceStepped? && !s.SyncedTransform?
  {
    if rbs != [] {
      var p := rbs[..|rbs| - 1];
      PreStepsSyncEach(p);
      assert forall i :: 0 <= i < |p| ==> rbs[i] == p[i];
    }
  }

  /** No rigidbody of `rbs` after `i` and before `n` shares the body of `rbs[i]`. */
  predicate LastOnBody(rbs: seq<RigidBody>, i: nat, n: nat)
    requires i < |rbs| && n <= |rbs|
    decreases n
  {
    n <= i + 1 || (rbs[n - 1].body != rbs[i].body && LastOnBody(rbs, i, n - 1))
  }

  /** No rigidbody of `rbs` after `i` and before `n` shares the transform of `rbs[i]`. */
  predicate LastOnTransform(rbs: seq<RigidBody>, i: nat, n: nat)
    requires i < |rbs| && n <= |rbs|
    reads set e | e in rbs
    decreases n
  {
    n <= i + 1 || (rbs[n - 1].transform != rbs[i].transform && LastOnTransform(rbs, i, n - 1))
  }

  /** The bodies of `rbs`. */
  ghost function BodiesOf(rbs: seq<RigidBody>): set<Physics.Body>
  {
    set rb | rb in rbs :: rb.body
  }

  /** The transforms `rbs` have taken at their start. */
  ghost function TransformsOf(rbs: seq<RigidBody>): set<Component>
    reads set e | e in rbs
  {
    set rb | rb in rbs && rb.transform != null :: rb.transform
  }

  class RigidBody {
    /** The Manageable part. */
    const base: Component
    const body: Physics.Body
    /** `_transform`: the object's transform, taken at `start`. */
    var transform: Component?
    var manager: RigidBodyManager?
    var shapes: seq<Physics.Shape>
    var forces: seq<Component>
    var collisionListeners: seq<Component>
    var space: Physics.Space?

    /** `RigidBody(shapes, body_type)`: no shapes means one default circle of mass 1 and elasticity 0.5. */
    constructor (initial: seq<Physics.Shape>, bodyType: Physics.BodyType)
      modifies (set e | e in initial)`body
      ensures fresh(base) && base.kind == RigidBody && !base.started && base.simObject == null
      ensures fresh(body) && body.bodyType == bodyType && manager == null && space == null && transform == null
      ensures forces == [] && collisionListeners == []
      ensures initial != [] ==> shapes == initial
      ensures initial == [] ==> |shapes| == 1 && fresh(shapes[0]) && shapes[0].mass == 1.0 && shapes[0].elasticity == 0.5
      ensures forall s :: s in shapes ==> s.body == body
    {
      base := new Component(RigidBody);
      body := new Physics.Body(bodyType);
      manager := null;
      space := null;
      transform := null;
      forces := [];
      collisionListeners := [];
      shapes := [];
      new;
      var i := 0;
      while i < |initial|
        invariant 0 <= i <= |initial| && shapes == initial[..i]
        invariant forall j :: 0 <= j < i ==> initial[j].body == body
        invariant manager == null && space == null && transform == null && forces == [] && collisionListeners == []
        invariant !base.started && base.simObject == null
      {
        initial[i].body := body;
        shapes := shapes + [initial[i]];
        i := i + 1;
      }
      if shapes == [] {
        var s := new Physics.Shape(1.0, 0.5);
        s.body := body;
        shapes := [s];
      }
    }

    /**
     * `start`: the Manageable start (registers with the RigidBodyManager
     * `found`), then the body and every shape join that manager's space and
     * the body moves to its object's transform.
     */
    method Start(found: Option<RigidBodyManager>) returns (r: Outcome)
      modifies base`started, this`manager, this`space, this`transform, body`position
      modifies if found.Some? then {found.value, found.value.space} else {}
      ensures EnvOf(base) == null ==> r == Fail(AttributeError) && base.started == old(base.started)
      ensures EnvOf(base) != null && found.None? ==> r == Fail(ValueError) && base.started == old(base.started)
      ensures EnvOf(base) != null && found.Some? ==>
        && base.started && manager == found.value && space == found.value.space
        && transform == old(base.simObject.transform)
        && found.value.rigidbodies == old(found.value.rigidbodies) + [this]
        && space.bodies == old(found.value.space.bodies) + {body}
        && space.shapes == old(found.value.space.shapes) + Elements(shapes)
      ensures EnvOf(base) != null && found.Some? && base.simObject.transform == null ==> r == Fail(AttributeError)
      ensures EnvOf(base) != null && found.Some? && base.simObject.transform != null ==>
        r == Pass && body.position == base.simObject.transform.position
    {
      if EnvOf(base) == null {
        return Fail(AttributeError);
      }
      if found.None? {
        return Fail(ValueError);
      }
      manager := found.value;
      manager.rigidbodies := manager.rigidbodies + [this];
      base.started := true;
      transform := base.simObject.transform;
      space := manager.space;
      space.Add({body}, Elements(shapes));
      // reading `position` from a missing transform is an AttributeError, before any unpacking
      var t := transform;
      if t == null {
        return Fail(AttributeError);
      }
      body.position := t.position;
      r := Pass;
    }

    /** `__sync_body_with_sim_object`: the body takes the transform's position and rotation. */
    method SyncBody() returns (r: Outcome)
      modifies body`position, body`angle
      ensures transform == null ==> r == Fail(AttributeError) && body.position == old(body.position)
      ensures transform != null ==> r == Pass && body.position == transform.position && body.angle == transform.rotation
    {
      if transform == null {
        return Fail(AttributeError);
      }
      body.position := transform.position;
      body.angle := transform.rotation;
      r := Pass;
    }

    /** `__sync_sim_object_with_body`: the transform takes the body's position and angle. */
    method SyncTransform()
      requires transform != null
      modifies transform`position, transform`rotation
      ensures transform.position == body.position && transform.rotation == body.angle
    {
      transform.position := body.position;
      transform.rotation := body.angle;
    }

    /** `attach_shape`: binds and appends the shape, and adds it to the space once started. */
    method AttachShape(s: Physics.Shape) returns (r: Outcome)
      modifies s`body, this`shapes, if space == null then {} else {space}
      ensures s.body == body && shapes == old(shapes) + [s]
      ensures base.started && space == null ==> r == Fail(AttributeError)
      ensures base.started && space != null ==> r == Pass && space.shapes == old(space.shapes) + {s} && space.bodies == old(space.bodies)
      ensures !base.started ==> r == Pass && (space != null ==> unchanged(space))
    {
      s.body := body;
      shapes := shapes + [s];
      if base.started {
        if space == null {
          return Fail(AttributeError);
        }
        space.Add({}, {s});
      }
      r := Pass;
    }

    /** `remove_shape`: unbinds the shape, `list.remove` (ValueError when absent), and removes it from the space once started. */
    method RemoveShape(s: Physics.Shape) returns (r: Outcome)
      modifies s`body, this`shapes, if space == null then {} else {space}
      ensures s.body == null
      ensures s !in old(shapes) ==> r == Fail(ValueError) && shapes == old(shapes)
      ensures s in old(shapes) ==> Ok(shapes) == ListRemove(old(shapes), s)
      ensures s in old(shapes) && base.started && space != null ==> r == Pass && space.shapes == old(space.shapes) - {s}
      ensures s in old(shapes) && !base.started ==> r == Pass
    {
      s.body := null;
      var rest := ListRemove(shapes, s);
      if rest.Err? {
        return Fail(rest.error);
      }
      shapes := rest.value;
      if base.started {
        if space == null {
          return Fail(AttributeError);
        }
        space.Remove({}, {s});
      }
      r := Pass;
    }

    /** `attach_force`: a TypeError unless the value is a Force; otherwise an append. */
    method AttachForce(x: Arg) returns (r: Outcome)
      modifies this`forces
      ensures r == Pass <==> ArgIs(x, ForceClass)
      ensures r.Fail? ==> r.error == TypeError && forces == old(forces)
      ensures r == Pass ==> forces == old(forces) + [x.c]
    {
      if !ArgIs(x, ForceClass) {
        return Fail(TypeError);
      }
      forces := forces + [x.c];
      r := Pass;
    }

    /** `remove_force`: `list.remove`, without a type check. */
    method RemoveForce(f: Component) returns (r: Outcome)
      modifies this`forces
      ensures r == Pass <==> f in old(forces)
      ensures r.Fail? ==> r.error == ValueError && forces == old(forces)
      ensures r == Pass ==> Ok(forces) == ListRemove(old(forces), f)
    {
      var rest := ListRemove(forces, f);
      if rest.Err? {
        return Fail(rest.error);
      }
      forces := rest.value;
      r := Pass;
    }

    /** `attach_collision_listener`: a TypeError unless the value is a CollisionListener; otherwise an append. */
    method AttachCollisionListener(x: Arg) returns (r: Outcome)
      modifies this`collisionListeners
      ensures r == Pass <==> ArgIs(x, CollisionListenerClass)
      ensures r.Fail? ==> r.error == TypeError && collisionListeners == old(collisionListeners)
      ensures r == Pass ==> collisionListeners == old(collisionListeners) + [x.c]
    {
      if !ArgIs(x, CollisionListenerClass) {
        return Fail(TypeError);
      }
      collisionListeners := collisionListeners + [x.c];
      r := Pass;
    }

    /** `remove_collision_listener`: the type check, then `list.remove`. */
    method RemoveCollisionListener(x: Arg) returns (r: Outcome)
      modifies this`collisionListeners
      ensures !ArgIs(x, CollisionListenerClass) ==> r == Fail(TypeError) && collisionListeners == old(collisionListeners)
      ensures ArgIs(x, CollisionListenerClass) ==>
        && (r == Pass <==> x.c in old(collisionListeners))
        && (r.Fail? ==> r.error == ValueError && collisionListeners == old(collisionListeners))
        && (r == Pass ==> Ok(collisionListeners) == ListRemove(old(collisionListeners), x.c))
    {
      if !ArgIs(x, CollisionListenerClass) {
        return Fail(TypeError);
      }
      var rest := ListRemove(collisionListeners, x.c);
      if rest.Err? {
        return Fail(rest.error);
      }
      collisionListeners := rest.value;
      r := Pass;
    }
  }

  /** The answers of `ls`, in order. */
  function Answers(ls: seq<Component>, answer: Component -> Option<bool>): (r: seq<Option<bool>>)
    ensures |r| == |ls| && forall i :: 0 <= i < |ls| ==> r[i] == answer(ls[i])
  {
    seq(|ls|, i requires 0 <= i < |ls| => answer(ls[i]))
  }

  class RigidBodyManager {
    /** The Manager part, declared for rigidbodies. */
    const base: Component
    var dt: real
    const space: Physics.Space
    /** The registered rigidbodies, in attachment order. */
    var rigidbodies: seq<RigidBody>
    /** The steps `update` has performed, in order. */
    var log: seq<UpdateStep>

    /** `RigidBodyManager(dt)`; 1/60 by default. */
    constructor (dt: real)
      ensures fresh(base) && base.kind == RigidBodyManager && fresh(space) && this.dt == dt
      ensures rigidbodies == [] && log == [] && space.steps == []
    {
      base := new Component(RigidBodyManager);
      this.dt := dt;
      space := new Physics.Space();
      rigidbodies := [];
      log := [];
    }

    /**
     * `update`: over a copy of the registry, `rb.update()` for each (its
     * body takes its transform's position and rotation, then each of its
     * forces updates), one space step by `dt`, then `rb.post_update()` for
     * each (its transform takes its body's position and angle). A
     * registered rigidbody without a transform is an AttributeError.
     */
    method Update() returns (r: Outcome)
      modifies this`log, space`steps, space.bodies`position, space.bodies`angle, space.bodies`velocity
      modifies BodiesOf(rigidbodies)`position, BodiesOf(rigidbodies)`angle
      modifies TransformsOf(rigidbodies)`position, TransformsOf(rigidbodies)`rotation
      ensures r.Fail? <==> exists i :: 0 <= i < |rigidbodies| && rigidbodies[i].transform == null
      ensures r.Fail? ==> r.error == AttributeError && space.steps == old(space.steps)
      ensures r == Pass ==>
        && log == old(log) + old(PreSteps(rigidbodies)) + [SpaceStepped(dt)] + PostSteps(rigidbodies)
        && space.steps == old(space.steps) + [dt]
        && forall i {:trigger LastOnTransform(rigidbodies, i, |rigidbodies|)} ::
             0 <= i < |rigidbodies| && LastOnTransform(rigidbodies, i, |rigidbodies|) ==>
             && rigidbodies[i].transform.position == rigidbodies[i].body.position
             && rigidbodies[i].transform.rotation == rigidbodies[i].body.angle
    {
      var rbs := rigidbodies;
      r := UpdateEach(rbs);
      if r.Fail? {
        return;
      }
      space.Step(dt);
      log := log + [SpaceStepped(dt)];
      PostUpdateEach(rbs);
    }

    /**
     * `rb.update()` for each of `rbs`, in order: the body takes the
     * transform's position and rotation, then each force updates. It stops
     * with AttributeError at the first rigidbody without a transform.
     */
    method UpdateEach(rbs: seq<RigidBody>) returns (r: Outcome)
      modifies this`log, BodiesOf(rbs)`position, BodiesOf(rbs)`angle
      ensures r.Fail? <==> exists i :: 0 <= i < |rbs| && rbs[i].transform == null
      ensures r.Fail? ==> r.error == AttributeError
      ensures r.Fail? ==> exists k :: 0 <= k < |rbs| && rbs[k].transform == null && log == old(log) + old(PreSteps(rbs[..k]))
      ensures r == Pass ==>
        && log == old(log) + old(PreSteps(rbs))
        && forall i {:trigger LastOnBody(rbs, i, |rbs|)} :: 0 <= i < |rbs| && LastOnBody(rbs, i, |rbs|) ==>
             rbs[i].body.position == rbs[i].transform.position && rbs[i].body.angle == rbs[i].transform.rotation
    {
      var i := 0;
      while i < |rbs|
        invariant 0 <= i <= |rbs|
        invariant log == old(log) + old(PreSteps(rbs[..i]))
        invariant forall k :: 0 <= k < i ==> rbs[k].transform != null
        invariant forall k {:trigger LastOnBody(rbs, k, i)} :: 0 <= k < i && LastOnBody(rbs, k, i) ==>
          rbs[k].body.position == rbs[k].transform.position && rbs[k].body.angle == rbs[k].transform.rotation
      {
        assert rbs[i] in rbs;
        r := rbs[i].SyncBody();
        if r.Fail? {
          return;
        }
        assert rbs[..i + 1][..i] == rbs[..i];
        assert old(PreSteps(rbs[..i + 1])) == old(PreSteps(rbs[..i])) + [SyncedBody(rbs[i])] + ForceSteps(old(rbs[i].forces));
        log := log + [SyncedBody(rbs[i])] + ForceSteps(rbs[i].forces);
        i := i + 1;
      }
      assert rbs[..i] == rbs;
      r := Pass;
    }

    /**
     * `rb.post_update()` for each of `rbs`, in order: the transform takes
     * the body's position and angle.
     */
    method PostUpdateEach(rbs: seq<RigidBody>)
      requires forall i :: 0 <= i < |rbs| ==> rbs[i].transform != null
      modifies this`log
      modifies TransformsOf(rbs)`position, TransformsOf(rbs)`rotation
      ensures log == old(log) + PostSteps(rbs)
      ensures forall i {:trigger LastOnTransform(rbs, i, |rbs|)} :: 0 <= i < |rbs| && LastOnTransform(rbs, i, |rbs|) ==>
        rbs[i].transform.position == rbs[i].body.position && rbs[i].transform.rotation == rbs[i].body.angle
    {
      var i := 0;
      while i < |rbs|
        invariant 0 <= i <= |rbs|
        invariant log == old(log) + PostSteps(rbs[..i])
        invariant forall k {:trigger LastOnTransform(rbs, k, i)} :: 0 <= k < i && LastOnTransform(rbs, k, i) ==>
          rbs[k].transform.position == rbs[k].body.position && rbs[k].transform.rotation == rbs[k].body.angle
      {
        assert rbs[i] in rbs;
        rbs[i].SyncTransform();
        assert PostSteps(rbs[..i + 1]) == PostSteps(rbs[..i]) + [SyncedTransform(rbs[i])];
        log := log + [SyncedTransform(rbs[i])];
        i := i + 1;
      }
      assert rbs[..i] == rbs;
    }

    /**
     * The `begin`/`pre_solve` handler: every listener of body1, then every
     * listener of body2, is asked (`asked`), and the answers are folded with
     * `process = process and r` for each answer that is not None.
     */
    method Resolve(body1: RigidBody, body2: RigidBody, answer: Component -> Option<bool>)
      returns (r: bool, asked: seq<Component>)
      ensures asked == body1.collisionListeners + body2.collisionListeners
      ensures r == Physics.AndAnswers(Answers(asked, answer))
      ensures r <==> forall i :: 0 <= i < |asked| ==> answer(asked[i]) != Some(false)
    {
      r := true;
      asked := [];
      var ls := body1.collisionListeners + body2.collisionListeners;
      var i := 0;
      while i < |ls|
        invariant 0 <= i <= |ls| && asked == ls[..i]
        invariant r == Physics.AndAnswers(Answers(ls[..i], answer))
      {
        var a := answer(ls[i]);
        assert Answers(ls[..i + 1], answer) == Answers(ls[..i], answer) + [a];
        r := if a.None? then r else r && a.value;
        asked := asked + [ls[i]];
        i := i + 1;
      }
      assert ls[..i] == ls;
    }
  }

  /** A veto on body1 does not stop body2's listeners from being asked. */
  method VetoStillAsksBoth(m: RigidBodyManager, body1: RigidBody, body2: RigidBody, answer: Component -> Option<bool>)
    returns (r: bool, asked: seq<Component>)
    requires exists i :: 0 <= i < |body1.collisionListeners| && answer(body1.collisionListeners[i]) == Some(false)
    ensures !r
    ensures forall l :: l in body2.collisionListeners ==> l in asked
  {
    r, asked := m.Resolve(body1, body2, answer);
    var i :| 0 <= i < |body1.collisionListeners| && answer(body1.collisionListeners[i]) == Some(false);
    assert asked[i] == body1.collisionListeners[i];
  }

  // ---------------------------------------------------------------------
  // DefaultEnvironment, CircleRenderer, factories

  class DefaultEnvironment {
    const env: Environment
    var rigidbodyManager: RigidBodyManager?
    var renderManager: Manager?

    /**
     * `DefaultEnvironment(sim_objects, components)`: both manager
     * references start as None, and the `_setup` that would fill them is
     * never called, because this generation's environment has `start`.
     */
    constructor (objs: seq<SimObject>, comps: seq<Component>)
      modifies (set e | e in objs)`environment, (set e | e in comps)`environment
      ensures fresh(env) && !env.started && env.simObjects == objs && env.components == comps
      ensures rigidbodyManager == null && renderManager == null
    {
      env := new Environment(objs, comps);
      rigidbodyManager := null;
      renderManager := null;
    }

    /** The inherited `start`; it leaves the manager references as they are. */
    method Start() returns (order: seq<Component>)
      modifies env`started, (set e | e in env.components)`started
      modifies set o, c | o in env.simObjects && c in o.components :: c`started
      ensures env.started && order == env.components + ObjectComponents(env.simObjects)
      ensures rigidbodyManager == old(rigidbodyManager) && renderManager == old(renderManager)
    {
      order := env.Start();
    }

    /** `advance`: the RigidBodyManager's update, then the base `advance`, which does nothing. */
    method Advance() returns (r: Outcome)
      modifies if rigidbodyManager == null then {} else {rigidbodyManager}
      modifies if rigidbodyManager == null then {} else {rigidbodyManager.space}
      modifies if rigidbodyManager == null then {} else rigidbodyManager.space.bodies
      modifies if rigidbodyManager == null then {} else BodiesOf(rigidbodyManager.rigidbodies)
      modifies if rigidbodyManager == null then {} else TransformsOf(rigidbodyManager.rigidbodies)
      ensures rigidbodyManager == null ==> r == Fail(AttributeError)
      ensures rigidbodyManager != null ==>
        (r.Fail? <==> exists i :: 0 <= i < |rigidbodyManager.rigidbodies| && rigidbodyManager.rigidbodies[i].transform == null)
      ensures rigidbodyManager != null && r.Fail? ==> r.error == AttributeError
      ensures rigidbodyManager != null && r == Pass ==>
        && rigidbodyManager.log == old(rigidbodyManager.log) + old(PreSteps(rigidbodyManager.rigidbodies))
             + [SpaceStepped(rigidbodyManager.dt)] + PostSteps(rigidbodyManager.rigidbodies)
        && forall i {:trigger LastOnTransform(rigidbodyManager.rigidbodies, i, |rigidbodyManager.rigidbodies|)} ::
             0 <= i < |rigidbodyManager.rigidbodies| && LastOnTransform(rigidbodyManager.rigidbodies, i, |rigidbodyManager.rigidbodies|) ==>
             && rigidbodyManager.rigidbodies[i].transform.position == rigidbodyManager.rigidbodies[i].body.position
             && rigidbodyManager.rigidbodies[i].transform.rotation == rigidbodyManager.rigidbodies[i].body.angle
    {
      if rigidbodyManager == null {
        return Fail(AttributeError);
      }
      r := rigidbodyManager.Update();
    }
  }

  /** The inherited `start` does not fill the manager references, so a started default environment cannot advance. */
  method StartThenAdvance(objs: seq<SimObject>, comps: seq<Component>) returns (r: Outcome)
    modifies (set e | e in objs)`environment, (set e | e in comps)`environment, (set e | e in comps)`started
    modifies set o, c | o in objs && c in o.components :: c
    ensures r == Fail(AttributeError)
  {
    var d := new DefaultEnvironment(objs, comps);
    var order := d.Start();
    assert d.rigidbodyManager == null;
    r := d.Advance();
  }

  /** `pixel_radius`: the world radius times `pixels_per_unit`, which is `1 / units_per_pixel`. */
  function PixelRadius(radius: real, unitsPerPixel: real): (r: Result<real>)
    ensures r.Err? <==> unitsPerPixel == 0.0
    ensures r.Err? ==> r.error == ZeroDivisionError
  {
    if unitsPerPixel == 0.0 then Err(ZeroDivisionError) else Ok(radius * (1.0 / unitsPerPixel))
  }

  /** Storing a pixel radius and reading it back gives the same value at any non-zero scale. */
  lemma PixelRadiusRoundTrip(p: real, unitsPerPixel: real)
    requires unitsPerPixel != 0.0
    ensures PixelRadius(p * unitsPerPixel, unitsPerPixel) == Ok(p)
  {
    var inv := 1.0 / unitsPerPixel;
    var q := p * unitsPerPixel;
    assert unitsPerPixel * inv == 1.0;
    assert q * inv == p * (unitsPerPixel * inv);
    assert q * inv == p;
    assert PixelRadius(q, unitsPerPixel).Ok?;
    assert PixelRadius(q, unitsPerPixel).value == q * inv;
  }

  /** The circle renderer of this generation, with its world radius. */
  class CircleRenderer {
    const base: Component
    var radius: real

    /** `CircleRenderer(radius, color, layer)`: the radius is checked first, then the layer. */
    static method New(radius: real, layer: int) returns (r: Result<CircleRenderer>)
      ensures r.Err? <==> radius < 0.0 || layer < 0
      ensures r.Err? ==> r.error == ValueError
      ensures r.Ok? ==> fresh(r.value) && r.value.radius == radius && r.value.base.kind == Renderer
    {
      if radius < 0.0 || layer < 0 {
        return Err(ValueError);
      }
      var c := new CircleRenderer(radius);
      r := Ok(c);
    }

    constructor (radius: real)
      ensures fresh(base) && base.kind == Renderer && this.radius == radius
    {
      base := new Component(Renderer);
      this.radius := radius;
    }

    /** The `radius` setter: negative radii are a ValueError. */
    method SetRadius(value: real) returns (r: Outcome)
      modifies this`radius
      ensures r == Pass <==> value >= 0.0
      ensures r.Fail? ==> r.error == ValueError && radius == old(radius)
      ensures r == Pass ==> radius == value
    {
      if value < 0.0 {
        return Fail(ValueError);
      }
      radius := value;
      r := Pass;
    }

    /** The `pixel_radius` setter: a checked pixel radius, stored as world units; it reads back unchanged. */
    method SetPixelRadius(value: real, unitsPerPixel: real) returns (r: Outcome)
      modifies this`radius
      ensures r == Pass <==> value >= 0.0
      ensures r.Fail? ==> r.error == ValueError && radius == old(radius)
      ensures r == Pass && unitsPerPixel != 0.0 ==> PixelRadius(radius, unitsPerPixel) == Ok(value)
    {
      if value < 0.0 {
        return Fail(ValueError);
      }
      radius := value * unitsPerPixel;
      if unitsPerPixel != 0.0 {
        PixelRadiusRoundTrip(value, unitsPerPixel);
      }
      r := Pass;
    }
  }

  /**
   * `get_border_object` of this generation: the bounds and the renderer's
   * layer are checked as in the current factory, and then `SimObject(tag,
   * components=...)` is a TypeError, since this SimObject takes only
   * components. No call succeeds.
   */
  function GetBorderObjectAsWritten(up: real, down: real, left: real, right: real, layer: int): (r: Outcome)
    ensures r.Fail?
    ensures r.error == ValueError <==> up < down || right < left || layer < 0
    ensures r.error == TypeError <==> !(up < down || right < left || layer < 0)
  {
    if up < down || right < left || layer < 0 then Fail(ValueError) else Fail(TypeError)
  }

  /**
   * `get_circle_body` of this generation: the renderer checks the radius and
   * the layer, and then the same `SimObject(tag, components=...)` call fails.
   */
  function GetCircleBodyAsWritten(radius: Value, layer: int): (r: Outcome)
    ensures r.Fail?
    ensures ValidatePositiveNumber(radius).Fail? ==> r == ValidatePositiveNumber(radius)
    ensures ValidatePositiveNumber(radius) == Pass ==> r == Fail(if layer < 0 then ValueError else TypeError)
  {
    var v := ValidatePositiveNumber(radius);
    if v.Fail? then v else if layer < 0 then Fail(ValueError) else Fail(TypeError)
  }
}
