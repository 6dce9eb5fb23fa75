/**
 * The physics components: rigid bodies wrapping an abstract physics
 * backend, forces, collision listeners and the manager that runs the step
 * protocol and dispatches collision callbacks.
 */
module Physics {
  import opened Wrappers
  import opened Events
  import opened Vectors
  import opened Simulation
  import opened Timing

  // ---------------------------------------------------------------------
  // The abstract backend

  datatype BodyType = Dynamic | Kinematic | Static

  /** A backend body (`SophysicsBody`): its state and the RigidBody that owns it. */
  class Body {
    var position: Vec2
    var angle: real
    var velocity: Vec2
    var mass: real
    /** The forces handed to `apply_force_at_local_point`, in order. */
    var appliedForces: seq<Vec2>
    var rigidbody: RigidBody?
    const bodyType: BodyType

    constructor (bodyType: BodyType)
      ensures this.bodyType == bodyType && rigidbody == null && appliedForces == []
      ensures position == Zero && angle == 0.0 && velocity == Zero && mass == 0.0
    {
      this.bodyType := bodyType;
      position := Zero;
      angle := 0.0;
      velocity := Zero;
      mass := 0.0;
      appliedForces := [];
      rigidbody := null;
    }
  }

  /** A backend collision shape. */
  class Shape {
    var body: Body?
    var mass: real
    var elasticity: real

    constructor (mass: real, elasticity: real)
      ensures body == null && this.mass == mass && this.elasticity == elasticity
    {
      body := null;
      this.mass := mass;
      this.elasticity := elasticity;
    }
  }

  /** The argument of `attach_shape`/`remove_shape`: a shape, or any other value. */
  datatype ShapeArg = AShape(shape: Shape) | NotAShape

  function ShapeOf(arg: ShapeArg): set<Shape> {
    if arg.AShape? then {arg.shape} else {}
  }

  /** The backend space: which bodies and shapes take part, and the steps taken. */
  class Space {
    var bodies: set<Body>
    var shapes: set<Shape>
    var steps: seq<real>

    constructor ()
      ensures bodies == {} && shapes == {} && steps == []
    {
      bodies := {};
      shapes := {};
      steps := [];
    }

    method Add(bs: set<Body>, ss: set<Shape>)
      modifies this`bodies, this`shapes
      ensures bodies == old(bodies) + bs && shapes == old(shapes) + ss
    {
      bodies := bodies + bs;
      shapes := shapes + ss;
    }

    method Remove(bs: set<Body>, ss: set<Shape>)
      modifies this`bodies, this`shapes
      ensures bodies == old(bodies) - bs && shapes == old(shapes) - ss
    {
      bodies := bodies - bs;
      shapes := shapes - ss;
    }

    /** `step(dt)`: an opaque integration step; every body in the space may move. */
    method Step(dt: real)
      modifies this`steps, bodies`position, bodies`angle, bodies`velocity
      ensures steps == old(steps) + [dt]
    {
      steps := steps + [dt];
      var rest := bodies;
      while rest != {}
        invariant rest <= bodies && steps == old(steps) + [dt]
        decreases |rest|
      {
        var b :| b in rest;
        var p: Vec2, a: real, v: Vec2 :| true;
        b.position, b.angle, b.velocity := p, a, v;
        rest := rest - {b};
      }
    }
  }

  // ---------------------------------------------------------------------
  // Collision callbacks

  datatype CallbackKind = BeginCallback | PreSolveCallback | PostSolveCallback | SeparateCallback

  /** One callback a collision listener received, with the other body of the pair. */
  datatype Callback = Callback(kind: CallbackKind, other: RigidBody)

  /** The argument of the collision-listener registry: a listener, or any other value. */
  datatype ListenerArg = AListener(listener: CollisionListener) | NotAListener

  /**
   * The fold of `collision_begin`/`collision_pre_solve`: starting from true,
   * `process and (r if r is not None else True)` for each answer `r` in turn.
   */
  function AndAnswers(answers: seq<Option<bool>>): (r: bool)
    ensures r <==> forall i :: 0 <= i < |answers| ==> answers[i] != Some(false)
  {
    if answers == [] then true
    else AndAnswers(answers[..|answers| - 1]) && answers[|answers| - 1] != Some(false)
  }

  /** No listener of `ls` vetoes: each answers true or nothing. */
  ghost predicate AllAccept(ls: set<CollisionListener>, answer: CollisionListener -> Option<bool>) {
    forall l :: l in ls ==> answer(l) != Some(false)
  }

  /** The answers of `order`, in order. */
  function AnswersOf(order: seq<CollisionListener>, answer: CollisionListener -> Option<bool>): (r: seq<Option<bool>>)
    ensures |r| == |order| && forall i :: 0 <= i < |order| ==> r[i] == answer(order[i])
  {
    if order == [] then [] else AnswersOf(order[..|order| - 1], answer) + [answer(order[|order| - 1])]
  }

  /** A veto is absorbing: once one answer is false, no later answer restores the fold. */
  lemma {:induction false} VetoAbsorbs(answers: seq<Option<bool>>, later: seq<Option<bool>>)
    requires Some(false) in answers
    ensures !AndAnswers(answers + later)
  {
    var i :| 0 <= i < |answers| && answers[i] == Some(false);
    assert (answers + later)[i] == Some(false);
  }

  /** Abstaining is neutral: appending `None` answers leaves the fold unchanged. */
  lemma {:induction false} AbstainNeutral(answers: seq<Option<bool>>, n: nat)
    ensures AndAnswers(answers + seq(n, _ => None)) == AndAnswers(answers)
  {
    var tail: seq<Option<bool>> := seq(n, _ => None);
    assert forall i :: |answers| <= i < |answers + tail| ==> (answers + tail)[i] == None;
    assert forall i :: 0 <= i < |answers| ==> (answers + tail)[i] == answers[i];
  }

  /** Over an enumeration of a listener set, the fold accepts exactly when no listener vetoes. */
  lemma FoldOfEnumeration(order: seq<CollisionListener>, ls: set<CollisionListener>, answer: CollisionListener -> Option<bool>)
    requires IsEnumeration(order, ls)
    ensures AndAnswers(AnswersOf(order, answer)) <==> AllAccept(ls, answer)
  {
    var a := AnswersOf(order, answer);
    if !AllAccept(ls, answer) {
      var l :| l in ls && answer(l) == Some(false);
      var i :| 0 <= i < |order| && order[i] == l;
      assert a[i] == Some(false);
    }
  }

  // ---------------------------------------------------------------------
  // RigidBody

  /** The event system of the environment of `c`'s sim object, if any. */
  function ObjectBus(c: Component): EventSystem?
    reads c, c.simObject
  {
    if c.simObject != null && c.simObject.environment != null then c.simObject.environment.events else null
  }

  function BusSet(bus: EventSystem?): set<EventSystem> {
    if bus == null then {} else {bus}
  }

  function SpaceSet(space: Space?): set<Space> {
    if space == null then {} else {space}
  }

  class RigidBody {
    /** The SimObjectComponent part: flag, back-reference, hooks. */
    const base: Component
    var transform: Component?
    var space: Space?
    const body: Body
    var shapes: set<Shape>
    var collisionListeners: set<CollisionListener>

    /** Every attached shape points at this rigid body's backend body, which points back. */
    ghost predicate Valid()
      reads this, body, shapes
    {
      body.rigidbody == this && forall s :: s in shapes ==> s.body == body
    }

    /** The two synchronisation listeners. */
    function SyncBodyListener(): Listener { Listener(this, OnSyncBody) }
    function SyncSimObjectListener(): Listener { Listener(this, OnSyncSimObject) }

    /**
     * `RigidBody(shapes, body_type)`: attaches each given shape; with none, a
     * default circle of mass 1 and elasticity 0.5.
     */
    constructor (initial: seq<Shape>, bodyType: BodyType)
      modifies Elements(initial)`body
      ensures Valid() && fresh(base) && fresh(body)
      ensures base.kind == ObjectComponent && !base.isSetUp && base.simObject == null
      ensures body.bodyType == bodyType && transform == null && space == null && collisionListeners == {}
      ensures |initial| > 0 ==> shapes == Elements(initial)
      ensures |initial| == 0 ==> exists s :: shapes == {s} && fresh(s) && s.mass == 1.0 && s.elasticity == 0.5
    {
      base := new Component(ObjectComponent);
      body := new Body(bodyType);
      transform := null;
      space := null;
      shapes := {};
      collisionListeners := {};
      new;
      body.rigidbody := this;
      var i := 0;
      while i < |initial|
        invariant 0 <= i <= |initial|
        invariant shapes == Elements(initial[..i]) && Valid()
        invariant !base.isSetUp && base.simObject == null
        invariant space == null && transform == null && collisionListeners == {}
      {
        assert initial[..i + 1] == initial[..i] + [initial[i]];
        var _ := AttachShape(AShape(initial[i]));
        i := i + 1;
      }
      assert initial[..i] == initial;
      if |initial| > 0 {
        assert initial[0] in shapes;
      }
      if |shapes| == 0 {
        var s := new Shape(1.0, 0.5);
        var _ := AttachShape(AShape(s));
      }
    }

    /**
     * `attach_shape`: a non-shape is a TypeError; otherwise the shape points at
     * the body and joins the set, and joins the space only when set up.
     */
    method AttachShape(arg: ShapeArg) returns (r: Outcome)
      requires Valid()
      modifies this`shapes, ShapeOf(arg)`body, SpaceSet(space)`bodies, SpaceSet(space)`shapes
      ensures Valid()
      ensures arg.NotAShape? ==> r == Fail(TypeError) && shapes == old(shapes)
      ensures arg.AShape? ==> shapes == old(shapes) + {arg.shape} && arg.shape.body == body
      ensures arg.AShape? && !base.isSetUp ==> r == Pass
      ensures arg.AShape? && base.isSetUp ==>
        if space == null then r == Fail(AttributeError) else r == Pass && space.shapes == old(space.shapes) + {arg.shape}
    {
      if arg.NotAShape? {
        return Fail(TypeError);
      }
      arg.shape.body := body;
      shapes := shapes + {arg.shape};
      r := Pass;
      if base.isSetUp {
        if space == null {
          return Fail(AttributeError);
        }
        space.Add({}, {arg.shape});
      }
    }

    /**
     * `remove_shape`: a non-shape is a TypeError; when set up the shape leaves
     * the space first; then it is detached and `set.remove` drops it.
     */
    method RemoveShape(arg: ShapeArg) returns (r: Outcome)
      requires Valid()
      modifies this`shapes, ShapeOf(arg)`body, SpaceSet(space)`bodies, SpaceSet(space)`shapes
      ensures Valid()
      ensures arg.NotAShape? ==> r == Fail(TypeError) && shapes == old(shapes)
      ensures arg.AShape? && base.isSetUp && space == null ==> r == Fail(AttributeError) && shapes == old(shapes)
      ensures arg.AShape? && base.isSetUp && space != null ==> space.shapes == old(space.shapes) - {arg.shape}
      ensures arg.AShape? && (!base.isSetUp || space != null) ==>
        && arg.shape.body == null
        && shapes == old(shapes) - {arg.shape}
        && (r == Pass <==> arg.shape in old(shapes))
        && (r.Fail? ==> r.error == KeyError)
    {
      if arg.NotAShape? {
        return Fail(TypeError);
      }
      if base.isSetUp {
        if space == null {
          return Fail(AttributeError);
        }
        space.Remove({}, {arg.shape});
      }
      arg.shape.body := null;
      if arg.shape !in shapes {
        return Fail(KeyError);
      }
      shapes := shapes - {arg.shape};
      r := Pass;
    }

    /**
     * `setup`: sets the flag, takes the sim object's transform and the
     * manager's space, adds the body and every shape to the space, moves the
     * body to the transform, and subscribes both synchronisation listeners.
     * `manager` is the result of the environment's PhysicsManager lookup.
     */
    method Setup(manager: Option<PhysicsManager>) returns (r: Outcome)
      modifies base`isSetUp, this`transform, this`space, body`position, ObjectBus(base)
      modifies if manager.Some? then {manager.value.space} else {}
      ensures base.isSetUp
      ensures ObjectBus(base) == null ==> r == Fail(AttributeError)
      ensures ObjectBus(base) != null && manager.None? ==> r == Fail(ValueError)
      ensures r == Pass ==>
        && manager.Some? && ObjectBus(base) != null && transform != null
        && space == manager.value.space
        && space.bodies == old(manager.value.space.bodies) + {body}
        && space.shapes == old(manager.value.space.shapes) + shapes
        && body.position == transform.position
        && ObjectBus(base).listeners ==
             Subscribe(Subscribe(old(ObjectBus(base).listeners), SyncBodyWithSimObject, SyncBodyListener()),
                       SyncSimObjectWithBody, SyncSimObjectListener())
    {
      base.isSetUp := true;
      if base.simObject == null {
        return Fail(AttributeError);
      }
      transform := base.simObject.transform;
      var bus := ObjectBus(base);
      if bus == null {
        return Fail(AttributeError);
      }
      if manager.None? {
        return Fail(ValueError);
      }
      space := manager.value.space;
      space.Add({body}, shapes);
      if transform == null {
        return Fail(AttributeError);
      }
      body.position := transform.position;
      r := bus.AddListener(SyncBodyWithSimObject, Callable(SyncBodyListener()));
      r := bus.AddListener(SyncSimObjectWithBody, Callable(SyncSimObjectListener()));
    }

    /** `__sync_sim_object_with_body`: the transform takes the body's position and angle. */
    method SyncTransform() returns (r: Outcome)
      modifies if transform == null then {} else {transform}
      ensures transform == null ==> r == Fail(AttributeError)
      ensures transform != null ==> r == Pass && transform.position == body.position && transform.rotation == body.angle
      ensures transform != null && transform != body as object ==> body.position == old(body.position)
    {
      if transform == null {
        return Fail(AttributeError);
      }
      transform.SetPosition(body.position);
      transform.rotation := body.angle;
      r := Pass;
    }

    /**
     * `__sync_body_with_sim_object`: the body takes the transform's position
     * and rotation; the shapes are then reindexed in the space.
     */
    method SyncBody() returns (r: Outcome)
      modifies body`position, body`angle
      ensures transform == null ==> r == Fail(AttributeError)
      ensures transform != null ==> body.position == transform.position && body.angle == transform.rotation
      ensures transform != null ==> (r == Pass <==> space != null) && (r.Fail? ==> r.error == AttributeError)
    {
      if transform == null {
        return Fail(AttributeError);
      }
      body.position := transform.position;
      body.angle := transform.rotation;
      if space == null {
        return Fail(AttributeError);
      }
      r := Pass;
    }

    /** Syncing the body from the transform and straight back leaves the transform where it was. */
    method SyncRoundTrip() returns (r: Outcome)
      requires transform != null && space != null
      modifies body`position, body`angle, transform
      ensures r == Pass
      ensures transform.position == old(transform.position) && transform.rotation == old(transform.rotation)
    {
      r := SyncBody();
      r := SyncTransform();
    }

    /** The `mass` setter: a negative mass is a ValueError; otherwise the body takes it. */
    method SetMass(value: real) returns (r: Outcome)
      modifies body`mass
      ensures value < 0.0 ==> r == Fail(ValueError) && body.mass == old(body.mass)
      ensures value >= 0.0 ==> r == Pass && body.mass == value
    {
      if value < 0.0 {
        return Fail(ValueError);
      }
      body.mass := value;
      r := Pass;
    }

    /** The `velocity` setter: the first two items; fewer than two cannot be unpacked. */
    method SetVelocity(value: seq<real>) returns (r: Outcome)
      modifies body`velocity
      ensures |value| < 2 ==> r == Fail(ValueError) && body.velocity == old(body.velocity)
      ensures |value| >= 2 ==> r == Pass && body.velocity == Vec2(value[0], value[1])
    {
      if |value| < 2 {
        return Fail(ValueError);
      }
      body.velocity := Vec2(value[0], value[1]);
      r := Pass;
    }

    /** `apply_force`: hands the first two items to the body; fewer than two is an IndexError. */
    method ApplyForce(force: seq<real>) returns (r: Outcome)
      modifies body`appliedForces
      ensures |force| < 2 ==> r == Fail(IndexError) && body.appliedForces == old(body.appliedForces)
      ensures |force| >= 2 ==> r == Pass && body.appliedForces == old(body.appliedForces) + [Vec2(force[0], force[1])]
    {
      if |force| < 2 {
        return Fail(IndexError);
      }
      body.appliedForces := body.appliedForces + [Vec2(force[0], force[1])];
      r := Pass;
    }

    /** `attach_collision_listener`: TypeError for a non-listener; otherwise `set.add`. */
    method AttachCollisionListener(arg: ListenerArg) returns (r: Outcome)
      modifies this`collisionListeners
      ensures arg.NotAListener? ==> r == Fail(TypeError) && collisionListeners == old(collisionListeners)
      ensures arg.AListener? ==> r == Pass && collisionListeners == old(collisionListeners) + {arg.listener}
    {
      if arg.NotAListener? {
        return Fail(TypeError);
      }
      collisionListeners := collisionListeners + {arg.listener};
      r := Pass;
    }

    /** `remove_collision_listener`: TypeError for a non-listener; otherwise `set.remove`. */
    method RemoveCollisionListener(arg: ListenerArg) returns (r: Outcome)
      modifies this`collisionListeners
      ensures arg.NotAListener? ==> r == Fail(TypeError) && collisionListeners == old(collisionListeners)
      ensures arg.AListener? ==>
        && collisionListeners == old(collisionListeners) - {arg.listener}
        && (r == Pass <==> arg.listener in old(collisionListeners))
        && (r.Fail? ==> r.error == KeyError)
    {
      if arg.NotAListener? {
        return Fail(TypeError);
      }
      if arg.listener !in collisionListeners {
        return Fail(KeyError);
      }
      collisionListeners := collisionListeners - {arg.listener};
      r := Pass;
    }

    /**
     * `collision_begin`/`collision_pre_solve`: calls every listener once, in
     * the set's order, and folds the answers; every listener runs whatever the
     * earlier answers were.
     */
    method CollisionFold(kind: CallbackKind, other: RigidBody, answer: CollisionListener -> Option<bool>)
      returns (r: bool, order: seq<CollisionListener>)
      modifies collisionListeners`received
      ensures IsEnumeration(order, collisionListeners)
      ensures r == AndAnswers(AnswersOf(order, answer))
      ensures r <==> AllAccept(collisionListeners, answer)
      ensures forall l :: l in collisionListeners ==> l.received == old(l.received) + [Callback(kind, other)]
    {
      order := Enumerate(collisionListeners);
      r := FoldOver(order, Callback(kind, other), AnswersOf(order, answer));
      FoldOfEnumeration(order, collisionListeners, answer);
    }

    /** The loop of the fold: delivers `c` to each listener of `order` and folds its answer. */
    static method FoldOver(order: seq<CollisionListener>, c: Callback, answers: seq<Option<bool>>)
      returns (r: bool)
      requires |answers| == |order|
      requires forall i, j :: 0 <= i < j < |order| ==> order[i] != order[j]
      modifies (set l | l in order)`received
      ensures r == AndAnswers(answers)
      ensures forall j :: 0 <= j < |order| ==> order[j].received == old(order[j].received) + [c]
    {
      r := true;
      var i := 0;
      while i < |order|
        invariant 0 <= i <= |order|
        invariant r == AndAnswers(answers[..i])
        invariant forall j :: 0 <= j < i ==> order[j].received == old(order[j].received) + [c]
        invariant forall j :: i <= j < |order| ==> order[j].received == old(order[j].received)
      {
        assert forall j :: 0 <= j < |order| && j != i ==> order[j] != order[i];
        order[i].Receive(c);
        assert answers[..i + 1][..i] == answers[..i];
        r := r && answers[i] != Some(false);
        i := i + 1;
      }
      assert answers[..i] == answers;
    }

    /** `collision_post_solve`/`collision_separate`: calls every listener once. */
    method CollisionNotify(kind: CallbackKind, other: RigidBody)
      modifies collisionListeners`received
      ensures forall l :: l in collisionListeners ==> l.received == old(l.received) + [Callback(kind, other)]
    {
      var rest := collisionListeners;
      while rest != {}
        invariant rest <= collisionListeners
        invariant forall l :: l in rest ==> l.received == old(l.received)
        invariant forall l :: l in collisionListeners - rest ==> l.received == old(l.received) + [Callback(kind, other)]
        decreases |rest|
      {
        var l :| l in rest;
        l.received := l.received + [Callback(kind, other)];
        rest := rest - {l};
      }
    }

    /**
     * `_on_destroy`: unsubscribes both synchronisation listeners, then takes
     * the shapes and the body out of the space. It overrides the default
     * teardown, so the component stays in its sim object's set.
     */
    method OnDestroy() returns (r: Outcome)
      modifies ObjectBus(base), SpaceSet(space)`bodies, SpaceSet(space)`shapes
      ensures ObjectBus(base) == null ==> r == Fail(AttributeError)
      ensures r == Pass ==>
        && ObjectBus(base) != null && space != null
        && SyncBodyListener() !in ListenersOf(ObjectBus(base).listeners, SyncBodyWithSimObject)
        && SyncSimObjectListener() !in ListenersOf(ObjectBus(base).listeners, SyncSimObjectWithBody)
        && space.bodies == old(space.bodies) - {body}
        && space.shapes == old(space.shapes) - shapes
    {
      var bus := ObjectBus(base);
      if bus == null {
        return Fail(AttributeError);
      }
      r := bus.RemoveListener(SyncBodyWithSimObject, SyncBodyListener());
      if r.Fail? {
        return;
      }
      r := bus.RemoveListener(SyncSimObjectWithBody, SyncSimObjectListener());
      if r.Fail? {
        return;
      }
      if space == null {
        return Fail(AttributeError);
      }
      space.Remove({body}, shapes);
    }
  }

  // ---------------------------------------------------------------------
  // CollisionListener and Force

  class CollisionListener {
    /** The SimObjectComponent part. */
    const base: Component
    var rigidbody: RigidBody?
    /** The callbacks received so far, in order. */
    var received: seq<Callback>

    constructor ()
      ensures fresh(base) && base.kind == ObjectComponent && !base.isSetUp && base.simObject == null
      ensures rigidbody == null && received == []
    {
      base := new Component(ObjectComponent);
      rigidbody := null;
      received := [];
    }

    /** One callback: the listener records it. */
    method Receive(c: Callback)
      modifies this`received
      ensures received == old(received) + [c]
    {
      received := received + [c];
    }

    /**
     * `setup`: finds the sim object's RigidBody and registers with it. It
     * does not call the base `setup`, so the set-up flag stays as it was.
     * `found` is the result of the RigidBody lookup.
     */
    method Setup(found: Option<RigidBody>) returns (r: Outcome)
      modifies this`rigidbody, if found.Some? then {found.value} else {}
      ensures base.isSetUp == old(base.isSetUp)
      ensures base.simObject == null ==> r == Fail(AttributeError) && rigidbody == old(rigidbody)
      ensures base.simObject != null && found.None? ==> r == Fail(ValueError) && rigidbody == old(rigidbody)
      ensures base.simObject != null && found.Some? ==>
        && r == Pass && rigidbody == found.value
        && found.value.collisionListeners == old(found.value.collisionListeners) + {this}
    {
      if base.simObject == null {
        return Fail(AttributeError);
      }
      if found.None? {
        return Fail(ValueError);
      }
      rigidbody := found.value;
      r := rigidbody.AttachCollisionListener(AListener(this));
    }

    /** `_on_destroy`: deregisters from the rigid body it registered with. */
    method OnDestroy() returns (r: Outcome)
      modifies if rigidbody == null then {} else {rigidbody}
      ensures rigidbody == null ==> r == Fail(AttributeError)
      ensures rigidbody != null ==>
        && rigidbody.collisionListeners == old(rigidbody.collisionListeners) - {this}
        && (r == Pass <==> this in old(rigidbody.collisionListeners))
    {
      if rigidbody == null {
        return Fail(AttributeError);
      }
      r := rigidbody.RemoveCollisionListener(AListener(this));
    }
  }

  /** The part of every force component that `Force` supplies: the subscription to ExertForces. */
  class Force {
    /** The SimObjectComponent part. */
    const base: Component
    var rigidbody: RigidBody?

    constructor ()
      ensures fresh(base) && base.kind == ObjectComponent && !base.isSetUp && base.simObject == null
      ensures rigidbody == null
    {
      base := new Component(ObjectComponent);
      rigidbody := null;
    }

    function ExertListener(): Listener { Listener(this, OnExertForces) }

    /**
     * `setup`: sets the flag, finds the RigidBody (`found`), then subscribes
     * the exert handler to RigidBodyExertForcesEvent.
     */
    method Setup(found: Option<RigidBody>) returns (r: Outcome)
      modifies base`isSetUp, this`rigidbody, ObjectBus(base)
      ensures base.isSetUp
      ensures base.simObject == null ==> r == Fail(AttributeError)
      ensures base.simObject != null && found.None? ==> r == Fail(ValueError)
      ensures r == Pass ==>
        && found.Some? && rigidbody == found.value && ObjectBus(base) != null
        && ObjectBus(base).listeners == Subscribe(old(ObjectBus(base).listeners), ExertForces, ExertListener())
    {
      base.isSetUp := true;
      if base.simObject == null {
        return Fail(AttributeError);
      }
      if found.None? {
        return Fail(ValueError);
      }
      rigidbody := found.value;
      var bus := ObjectBus(base);
      if bus == null {
        return Fail(AttributeError);
      }
      r := bus.AddListener(ExertForces, Callable(ExertListener()));
    }

    /** `_on_destroy`: unsubscribes the exert handler, then drops the RigidBody reference. */
    method OnDestroy() returns (r: Outcome)
      modifies this`rigidbody, ObjectBus(base)
      ensures ObjectBus(base) == null ==> r == Fail(AttributeError)
      ensures ObjectBus(base) != null ==>
        && (r == Pass <==> ExertListener() in ListenersOf(old(ObjectBus(base).listeners), ExertForces))
        && ExertListener() !in ListenersOf(ObjectBus(base).listeners, ExertForces)
      ensures r == Pass ==> rigidbody == null
    {
      var bus := ObjectBus(base);
      if bus == null {
        return Fail(AttributeError);
      }
      r := bus.RemoveListener(ExertForces, ExertListener());
      if r.Fail? {
        return;
      }
      rigidbody := null;
    }
  }

  // ---------------------------------------------------------------------
  // PhysicsManager

  /** One phase of a physics step, as `advance_timestep` performs them. */
  datatype Phase = Raised(kind: EventType) | Stepped(dt: real)

  /** The five phases of one step, in order. */
  function StepPhases(dt: real): (r: seq<Phase>)
    ensures |r| == 5 && r[2] == Stepped(dt)
    ensures forall i :: 0 <= i < 5 && i != 2 ==> r[i].Raised?
  {
    [Raised(SyncBodyWithSimObject), Raised(ExertForces), Stepped(dt), Raised(SyncSimObjectWithBody), Raised(PostPhysicsUpdate)]
  }

  function AdvanceListener(m: PhysicsManager): Listener { Listener(m, OnAdvanceTimeStep) }

  class PhysicsManager {
    /** The EnvironmentComponent part. */
    const base: Component
    var events: EventSystem?
    var timeSettings: TimeSettings?
    const space: Space
    /** The phases performed so far, in order. */
    var trace: seq<Phase>

    constructor ()
      ensures fresh(base) && base.kind == EnvironmentComponent && !base.isSetUp && base.environment == null
      ensures events == null && timeSettings == null && fresh(space) && trace == []
      ensures space.bodies == {} && space.shapes == {} && space.steps == []
    {
      base := new Component(EnvironmentComponent);
      events := null;
      timeSettings := null;
      space := new Space();
      trace := [];
    }

    /**
     * `setup`: sets the flag, finds TimeSettings (`found`), takes the
     * environment's event system and subscribes to AdvanceTimeStepEvent.
     */
    method Setup(found: Option<TimeSettings>) returns (r: Outcome)
      modifies base`isSetUp, this`timeSettings, this`events
      modifies if base.environment == null then {} else {base.environment.events}
      ensures base.isSetUp
      ensures base.environment == null ==> r == Fail(AttributeError)
      ensures base.environment != null && found.None? ==> r == Fail(ValueError)
      ensures base.environment != null && found.Some? ==>
        && r == Pass && timeSettings == found.value && events == base.environment.events
        && events.listeners == Subscribe(old(base.environment.events.listeners), AdvanceTimeStep, AdvanceListener(this))
    {
      base.isSetUp := true;
      if base.environment == null {
        return Fail(AttributeError);
      }
      if found.None? {
        return Fail(ValueError);
      }
      timeSettings := found.value;
      events := base.environment.events;
      r := events.AddListener(AdvanceTimeStep, Callable(AdvanceListener(this)));
    }

    /**
     * `advance_timestep`: synchronise bodies, exert forces, step by `dt`,
     * synchronise transforms, announce the end of the physics update.
     */
    method AdvanceTimestep() returns (r: Outcome)
      modifies this`trace, if events == null then {} else {events}
      modifies space`steps, space.bodies`position, space.bodies`angle, space.bodies`velocity
      ensures events == null ==> r == Fail(AttributeError) && trace == old(trace)
      ensures events != null && timeSettings == null ==>
        && r == Fail(AttributeError)
        && trace == old(trace) + StepPhases(0.0)[..2]
        && space.steps == old(space.steps)
      ensures events != null && timeSettings != null ==>
        && r == Pass
        && trace == old(trace) + StepPhases(timeSettings.dt)
        && events.raised == old(events.raised)
             + [Event(SyncBodyWithSimObject), Event(ExertForces), Event(SyncSimObjectWithBody), Event(PostPhysicsUpdate)]
        && events.listeners == old(events.listeners)
        && space.steps == old(space.steps) + [timeSettings.dt]
    {
      if events == null {
        return Fail(AttributeError);
      }
      Announce(SyncBodyWithSimObject);
      Announce(ExertForces);
      if timeSettings == null {
        return Fail(AttributeError);
      }
      space.Step(timeSettings.dt);
      trace := trace + [Stepped(timeSettings.dt)];
      Announce(SyncSimObjectWithBody);
      Announce(PostPhysicsUpdate);
      r := Pass;
    }

    /** Raises an event of kind `k` on the environment's event system and records it. */
    method Announce(k: EventType)
      requires events != null
      modifies this`trace, events
      ensures trace == old(trace) + [Raised(k)]
      ensures events.raised == old(events.raised) + [Event(k)] && events.listeners == old(events.listeners)
    {
      var _ := events.RaiseEvent(Event(k));
      trace := trace + [Raised(k)];
    }

    /**
     * The `begin`/`pre_solve` handler as written: body1's fold `and` body2's
     * fold, with Python's short-circuit, so body2's listeners run only if
     * body1's listeners all accepted.
     */
    method ResolveAsWritten(kind: CallbackKind, body1: RigidBody, body2: RigidBody, answer: CollisionListener -> Option<bool>)
      returns (r: bool)
      modifies body1.collisionListeners`received, body2.collisionListeners`received
      ensures r <==> AllAccept(body1.collisionListeners, answer) && AllAccept(body2.collisionListeners, answer)
      ensures forall l :: l in body1.collisionListeners && l !in body2.collisionListeners ==>
        l.received == old(l.received) + [Callback(kind, body2)]
      ensures forall l :: l in body2.collisionListeners && l !in body1.collisionListeners ==>
        l.received == old(l.received) + (if AllAccept(body1.collisionListeners, answer) then [Callback(kind, body1)] else [])
      ensures forall l :: l in body1.collisionListeners && l in body2.collisionListeners ==>
        l.received == old(l.received) + [Callback(kind, body2)]
          + (if AllAccept(body1.collisionListeners, answer) then [Callback(kind, body1)] else [])
    {
      var r1, _ := body1.CollisionFold(kind, body2, answer);
      if !r1 {
        return false;
      }
      var r2, _ := body2.CollisionFold(kind, body1, answer);
      r := r2;
    }

    /**
     * The `begin`/`pre_solve` handler as its comment describes it: the
     * listeners of both bodies are all called, and the collision goes ahead
     * only if none of them vetoes.
     */
    method Resolve(kind: CallbackKind, body1: RigidBody, body2: RigidBody, answer: CollisionListener -> Option<bool>)
      returns (r: bool)
      modifies body1.collisionListeners`received, body2.collisionListeners`received
      ensures r <==> AllAccept(body1.collisionListeners, answer) && AllAccept(body2.collisionListeners, answer)
      ensures forall l :: l in body1.collisionListeners && l !in body2.collisionListeners ==>
        l.received == old(l.received) + [Callback(kind, body2)]
      ensures forall l :: l in body2.collisionListeners && l !in body1.collisionListeners ==>
        l.received == old(l.received) + [Callback(kind, body1)]
      ensures forall l :: l in body1.collisionListeners && l in body2.collisionListeners ==>
        l.received == old(l.received) + [Callback(kind, body2)] + [Callback(kind, body1)]
    {
      var r1, _ := body1.CollisionFold(kind, body2, answer);
      var r2, _ := body2.CollisionFold(kind, body1, answer);
      r := r1 && r2;
    }

    /** `begin`: every listener of both bodies hears of the new contact; any veto cancels it. */
    method Begin(body1: RigidBody, body2: RigidBody, answer: CollisionListener -> Option<bool>) returns (r: bool)
      modifies body1.collisionListeners`received, body2.collisionListeners`received
      ensures r <==> AllAccept(body1.collisionListeners, answer) && AllAccept(body2.collisionListeners, answer)
      ensures forall l :: l in body2.collisionListeners - body1.collisionListeners ==>
        l.received == old(l.received) + [Callback(BeginCallback, body1)]
    {
      r := Resolve(BeginCallback, body1, body2, answer);
    }

    /** `pre_solve`: as `begin`, for each step of a continuing contact. */
    method PreSolve(body1: RigidBody, body2: RigidBody, answer: CollisionListener -> Option<bool>) returns (r: bool)
      modifies body1.collisionListeners`received, body2.collisionListeners`received
      ensures r <==> AllAccept(body1.collisionListeners, answer) && AllAccept(body2.collisionListeners, answer)
      ensures forall l :: l in body2.collisionListeners - body1.collisionListeners ==>
        l.received == old(l.received) + [Callback(PreSolveCallback, body1)]
    {
      r := Resolve(PreSolveCallback, body1, body2, answer);
    }

    /** The `post_solve`/`separate` handler: every listener of body1, then every listener of body2. */
    method NotifyBoth(kind: CallbackKind, body1: RigidBody, body2: RigidBody)
      modifies body1.collisionListeners`received, body2.collisionListeners`received
      ensures forall l :: l in body1.collisionListeners + body2.collisionListeners ==>
        l.received == old(l.received)
          + (if l in body1.collisionListeners then [Callback(kind, body2)] else [])
          + (if l in body2.collisionListeners then [Callback(kind, body1)] else [])
    {
      body1.CollisionNotify(kind, body2);
      body2.CollisionNotify(kind, body1);
    }

    /** `_on_destroy`: unsubscribes from AdvanceTimeStepEvent, then leaves the environment. */
    method OnDestroy() returns (r: Outcome)
      modifies if events == null then {} else {events}
      modifies base`environment, if base.environment == null then {} else {base.environment}
      ensures events == null ==> r == Fail(AttributeError)
      ensures r == Pass ==>
        && events != null && AdvanceListener(this) !in ListenersOf(events.listeners, AdvanceTimeStep)
        && old(base.environment) != null && base.environment == null
        && old(base.environment).components == old(base.environment.components) - {base}
    {
      if events == null {
        return Fail(AttributeError);
      }
      r := events.RemoveListener(AdvanceTimeStep, AdvanceListener(this));
      if r.Fail? {
        return;
      }
      if base.environment == null {
        return Fail(AttributeError);
      }
      var env := base.environment;
      r := env.RemoveComponent(base);
    }
  }
}
