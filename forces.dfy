/**
 * The two stock forces: `ConstantAcceleration` (mass times a fixed
 * acceleration) and `Attraction` (Newtonian gravitation towards every
 * registered attractor), with the environment-level `AttractionManager`
 * registry. Each force owns the `Force` part defined with the physics
 * components, which holds the RigidBody reference and the exert subscription.
 */
module Forces {
  import opened Wrappers
  import opened Events
  import opened Vectors
  import opened Simulation
  import opened Physics

  /** Newton's second law: the force that gives `mass` the acceleration `acc`. */
  function NewtonForce(mass: real, acc: Vec2): (f: Vec2)
    ensures acc == Zero ==> f == Zero
    ensures mass != 0.0 ==> Scale(1.0 / mass, f) == acc
  {
    Scale(mass, acc)
  }

  /** The bodies whose applied-force log an exert may extend. */
  function TargetOf(f: Force): set<Body>
    reads f
  {
    if f.rigidbody == null then {} else {f.rigidbody.body}
  }

  class ConstantAcceleration {
    /** The Force part. */
    const force: Force
    var acceleration: Vec2

    /** `ConstantAcceleration()`: the default acceleration (0, 0). */
    constructor Default()
      ensures acceleration == Zero
      ensures fresh(force) && fresh(force.base) && force.rigidbody == null && !force.base.isSetUp
    {
      force := new Force();
      acceleration := Zero;
    }

    /**
     * The `acceleration` setter: keeps the first two items and ignores the
     * rest; fewer than two items cannot be unpacked (ValueError).
     */
    method SetAcceleration(value: seq<real>) returns (r: Outcome)
      modifies this`acceleration
      ensures |value| < 2 ==> r == Fail(ValueError) && acceleration == old(acceleration)
      ensures |value| >= 2 ==> r == Pass && acceleration == Vec2(value[0], value[1])
    {
      if |value| < 2 {
        return Fail(ValueError);
      }
      acceleration := Vec2(value[0], value[1]);
      r := Pass;
    }

    /**
     * `exert`: applies exactly one force, mass times acceleration, to the
     * object's RigidBody; without a RigidBody (before setup or after
     * destroy) the mass lookup fails.
     */
    method Exert() returns (r: Outcome)
      modifies TargetOf(force)
      ensures force.rigidbody == null ==> r == Fail(AttributeError)
      ensures force.rigidbody != null ==>
        && r == Pass
        && force.rigidbody.body.appliedForces
             == old(force.rigidbody.body.appliedForces) + [NewtonForce(force.rigidbody.body.mass, acceleration)]
    {
      var rb := force.rigidbody;
      if rb == null {
        return Fail(AttributeError);
      }
      var f := NewtonForce(rb.body.mass, acceleration);
      r := rb.ApplyForce([f.x, f.y]);
    }
  }

  /** `ConstantAcceleration(acceleration)`: the constructor runs the setter, so a short sequence fails. */
  method NewConstantAcceleration(value: seq<real>) returns (r: Result<ConstantAcceleration>)
    ensures |value| < 2 <==> r.Err?
    ensures r.Err? ==> r.error == ValueError
    ensures r.Ok? ==> fresh(r.value) && r.value.acceleration == Vec2(value[0], value[1])
  {
    var c := new ConstantAcceleration.Default();
    var set_ := c.SetAcceleration(value);
    if set_.Fail? {
      return Err(set_.error);
    }
    r := Ok(c);
  }

  /** A body's data as the attraction law sees it. */
  datatype MassPoint = MassPoint(pos: Vec2, mass: real)

  /** Newton's law of gravitation: g·m1·m2/d² for two bodies at distinct positions. */
  function PullMagnitude(self: MassPoint, other: MassPoint, g: real): real
    requires self.pos != other.pos
  {
    DistinctPointsApart(other.pos, self.pos);
    g * self.mass * other.mass / Dist2(other.pos, self.pos)
  }

  /**
   * The pull on `self` towards `other`: the magnitude along the normalised
   * offset. `unit` stands for `Vector2.normalize`.
   */
  function Pull(self: MassPoint, other: MassPoint, g: real, unit: Vec2 -> Vec2): Vec2
    requires self.pos != other.pos
  {
    Scale(PullMagnitude(self, other, g), unit(Sub(other.pos, self.pos)))
  }

  /**
   * When `unit` really normalises the offset (a positive multiple of it of
   * squared length 1), the pull points from `self` towards `other` and its
   * squared length is the square of Newton's magnitude.
   */
  lemma PullIsNewtonian(self: MassPoint, other: MassPoint, g: real, unit: Vec2 -> Vec2, k: real)
    requires self.pos != other.pos
    requires k > 0.0 && unit(Sub(other.pos, self.pos)) == Scale(k, Sub(other.pos, self.pos))
    requires Dist2(unit(Sub(other.pos, self.pos)), Zero) == 1.0
    ensures Pull(self, other, g, unit) == Scale(PullMagnitude(self, other, g) * k, Sub(other.pos, self.pos))
    ensures Dist2(Pull(self, other, g, unit), Zero) == Sq(PullMagnitude(self, other, g))
  {
    var s := PullMagnitude(self, other, g);
    var d := Sub(other.pos, self.pos);
    ScaleTwice(s, k, d);
    ScaleLength(s, unit(d));
  }

  lemma ScaleTwice(s: real, k: real, d: Vec2)
    ensures Scale(s, Scale(k, d)) == Scale(s * k, d)
  {
    assert s * (k * d.x) == (s * k) * d.x;
    assert s * (k * d.y) == (s * k) * d.y;
  }

  /** Scaling by `s` multiplies the squared length by s². */
  lemma ScaleLength(s: real, u: Vec2)
    ensures Dist2(Scale(s, u), Zero) == Sq(s) * Dist2(u, Zero)
  {
    assert Sq(s * u.x - 0.0) == Sq(s) * Sq(u.x - 0.0) by {
      assert (s * u.x) * (s * u.x) == (s * s) * (u.x * u.x);
    }
    assert Sq(s * u.y - 0.0) == Sq(s) * Sq(u.y - 0.0) by {
      assert (s * u.y) * (s * u.y) == (s * s) * (u.y * u.y);
    }
  }

  /** The environment component holding the attraction coefficient and the attractor registry. */
  class AttractionManager {
    const base: Component
    var coefficient: real
    var attractors: set<Attraction>

    constructor (coefficient: real)
      ensures this.coefficient == coefficient && attractors == {}
      ensures fresh(base) && base.kind == EnvironmentComponent && base.environment == null
    {
      this.coefficient := coefficient;
      attractors := {};
      base := new Component(EnvironmentComponent);
    }

    /** `add_attractor`: `set.add`, so adding twice keeps one entry. */
    method AddAttractor(a: Attraction)
      modifies this`attractors
      ensures attractors == old(attractors) + {a}
    {
      attractors := attractors + {a};
    }

    /** `remove_attractor`: `set.remove`, a KeyError for an absent attractor. */
    method RemoveAttractor(a: Attraction) returns (r: Outcome)
      modifies this`attractors
      ensures r == Pass <==> a in old(attractors)
      ensures r.Fail? ==> r.error == KeyError
      ensures attractors == old(attractors) - {a}
    {
      if a !in attractors {
        return Fail(KeyError);
      }
      attractors := attractors - {a};
      r := Pass;
    }
  }

  function ManagerSet(m: Option<AttractionManager>): set<AttractionManager> {
    if m.Some? then {m.value} else {}
  }

  class Attraction {
    /** The Force part. */
    const force: Force
    const isAttractor: bool
    var manager: AttractionManager?

    constructor (isAttractor: bool)
      ensures this.isAttractor == isAttractor && manager == null
      ensures fresh(force) && fresh(force.base) && force.rigidbody == null && !force.base.isSetUp
      ensures force.base.kind == ObjectComponent && force.base.simObject == null
    {
      this.isAttractor := isAttractor;
      manager := null;
      force := new Force();
    }

    /** The position of this component's sim object's transform, if it has both. */
    function Position(): Option<Vec2>
      reads force.base, force.base.simObject
      reads if force.base.simObject == null then {} else {force.base.simObject.transform}
    {
      var o := force.base.simObject;
      if o == null || o.transform == null then None else Some(o.transform.position)
    }

    /** The mass of the RigidBody found at setup, if any. */
    function Mass(): Option<real>
      reads force, if force.rigidbody == null then {} else {force.rigidbody.body}
    {
      if force.rigidbody == null then None else Some(force.rigidbody.body.mass)
    }

    /**
     * `setup`: the Force setup (flag, RigidBody, exert subscription), then the
     * environment's AttractionManager (`found`; ValueError without one), to
     * which the component registers itself only if it is an attractor.
     */
    method Setup(body: Option<RigidBody>, found: Option<AttractionManager>) returns (r: Outcome)
      modifies force.base`isSetUp, force`rigidbody, ObjectBus(force.base), this`manager, ManagerSet(found)`attractors
      ensures force.base.isSetUp
      ensures r == Pass ==> body.Some? && found.Some? && manager == found.value && force.rigidbody == body.value
      ensures r == Pass ==> found.value.attractors == old(found.value.attractors) + (if isAttractor then {this} else {})
      ensures r == Pass ==>
        && ObjectBus(force.base) != null
        && ObjectBus(force.base).listeners == Subscribe(old(ObjectBus(force.base).listeners), ExertForces, force.ExertListener())
      ensures found.None? ==> r.Fail?
      ensures r.Fail? ==> forall m :: m in ManagerSet(found) ==> m.attractors == old(m.attractors)
    {
      r := force.Setup(body);
      if r.Fail? {
        return;
      }
      if found.None? {
        return Fail(ValueError);
      }
      manager := found.value;
      if isAttractor {
        manager.AddAttractor(this);
      }
    }

    /**
     * `exert`: sums the pulls of every registered attractor, in the set's
     * order, skipping itself and any attractor at exactly its own position,
     * then applies the total once. Non-attractors are not in the registry, so
     * they are pulled but pull nothing.
     */
    method Exert(unit: Vec2 -> Vec2) returns (r: Outcome, order: seq<Attraction>)
      modifies TargetOf(force)
      ensures manager != null ==> IsEnumeration(order, manager.attractors)
      ensures r == Pass ==>
        && manager != null && force.rigidbody != null
        && old(TotalPull(this, order, manager.coefficient, unit)).Ok?
        && force.rigidbody.body.appliedForces
             == old(force.rigidbody.body.appliedForces) + [old(TotalPull(this, order, manager.coefficient, unit)).value]
      ensures r.Fail? ==> r.error == AttributeError && forall b :: b in TargetOf(force) ==> b.appliedForces == old(b.appliedForces)
      ensures manager != null && force.rigidbody != null && old(TotalPull(this, order, manager.coefficient, unit)).Ok? ==> r == Pass
    {
      order := [];
      if manager == null {
        return Fail(AttributeError), order;
      }
      order := Enumerate(manager.attractors);
      var total := SumPulls(this, order, manager.coefficient, unit);
      if total.Err? {
        return Fail(total.error), order;
      }
      var rb := force.rigidbody;
      if rb == null {
        return Fail(AttributeError), order;
      }
      r := rb.ApplyForce([total.value.x, total.value.y]);
    }

    /**
     * `_on_destroy`: an attractor first leaves the registry (AttributeError
     * before setup, KeyError if absent); then the Force teardown runs.
     */
    method OnDestroy() returns (r: Outcome)
      modifies if manager == null then {} else {manager}, force`rigidbody, ObjectBus(force.base)
      ensures isAttractor && manager == null ==> r == Fail(AttributeError)
      ensures isAttractor && manager != null ==> this !in manager.attractors
      ensures isAttractor && manager != null && this !in old(manager.attractors) ==> r == Fail(KeyError)
      ensures !isAttractor && manager != null ==> manager.attractors == old(manager.attractors)
      ensures r == Pass ==>
        && force.rigidbody == null && ObjectBus(force.base) != null
        && force.ExertListener() !in ListenersOf(ObjectBus(force.base).listeners, ExertForces)
    {
      if isAttractor {
        if manager == null {
          return Fail(AttributeError);
        }
        r := manager.RemoveAttractor(this);
        if r.Fail? {
          return;
        }
      }
      r := force.OnDestroy();
    }
  }

  /**
   * The pull on `self` from the attractors in `order`, accumulated in that
   * order: `self` and attractors at its own position are skipped; a missing
   * position or mass is an AttributeError.
   */
  function TotalPull(self: Attraction, order: seq<Attraction>, g: real, unit: Vec2 -> Vec2): (r: Result<Vec2>)
    reads *
    ensures r.Err? ==> r.error == AttributeError
  {
    if order == [] then Ok(Zero)
    else
      var rest := TotalPull(self, order[..|order| - 1], g, unit);
      var other := order[|order| - 1];
      if rest.Err? || other == self then rest
      else if self.Position().None? || other.Position().None? then Err(AttributeError)
      else if self.Position().value == other.Position().value then rest
      else if self.Mass().None? || other.Mass().None? then Err(AttributeError)
      else
        var p := MassPoint(self.Position().value, self.Mass().value);
        var q := MassPoint(other.Position().value, other.Mass().value);
        Ok(Add(rest.value, Pull(p, q, g, unit)))
  }

  /** The loop of `exert`: it only reads. */
  method SumPulls(self: Attraction, order: seq<Attraction>, g: real, unit: Vec2 -> Vec2) returns (r: Result<Vec2>)
    ensures r == TotalPull(self, order, g, unit)
  {
    r := Ok(Zero);
    var i := 0;
    while i < |order|
      invariant 0 <= i <= |order|
      invariant r == TotalPull(self, order[..i], g, unit)
    {
      assert order[..i + 1][..i] == order[..i];
      var other := order[i];
      if r.Ok? && other != self {
        var p, q := self.Position(), other.Position();
        if p.None? || q.None? {
          r := Err(AttributeError);
        } else if p.value != q.value {
          var m1, m2 := self.Mass(), other.Mass();
          if m1.None? || m2.None? {
            r := Err(AttributeError);
          } else {
            r := Ok(Add(r.value, Pull(MassPoint(p.value, m1.value), MassPoint(q.value, m2.value), g, unit)));
          }
        }
      }
      i := i + 1;
    }
    assert order[..i] == order;
  }

  /** An attractor never pulls itself: adding `self` to the order leaves the total unchanged. */
  lemma {:induction false} SelfContributesNothing(self: Attraction, order: seq<Attraction>, g: real, unit: Vec2 -> Vec2)
    ensures TotalPull(self, order + [self], g, unit) == TotalPull(self, order, g, unit)
  {
    assert (order + [self])[..|order + [self]| - 1] == order;
  }

  /** Nor does an attractor sitting exactly at the body's own position. */
  lemma {:induction false} CoincidentContributesNothing(self: Attraction, order: seq<Attraction>, other: Attraction, g: real, unit: Vec2 -> Vec2)
    requires self.Position().Some? && other.Position() == self.Position()
    ensures TotalPull(self, order + [other], g, unit) == TotalPull(self, order, g, unit)
  {
    assert (order + [other])[..|order + [other]| - 1] == order;
  }
}
