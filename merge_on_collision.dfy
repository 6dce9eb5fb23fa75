/**
 * `MergeOnCollision`: a collision listener whose `begin` merges two
 * colliding bodies into the heavier one. The lighter body (or, at equal
 * mass, the one whose listener runs first) schedules its own sim object for
 * destruction; the other takes the summed mass, the momentum-conserving
 * velocity and the mass-weighted centroid. Either way the physical
 * collision is vetoed.
 */
module Merging {
  import opened Wrappers
  import opened Vectors
  import opened Simulation
  import opened Physics

  /** What the heavier body becomes. */
  datatype Merged = Merged(mass: real, velocity: Vec2, position: Vec2)

  /**
   * The merge arithmetic: summed mass, momentum over the new mass, and the
   * mass-weighted centroid. Dividing by a zero total mass fails.
   */
  function Merge(m1: real, v1: Vec2, p1: Vec2, m2: real, v2: Vec2, p2: Vec2): (r: Result<Merged>)
    ensures r.Err? <==> m1 + m2 == 0.0
    ensures r.Err? ==> r.error == ZeroDivisionError
    ensures r.Ok? ==> r.value.mass == m1 + m2
    ensures r.Ok? ==> Scale(r.value.mass, r.value.velocity) == Add(Scale(m1, v1), Scale(m2, v2))
    ensures r.Ok? ==> Scale(r.value.mass, r.value.position) == Add(Scale(m1, p1), Scale(m2, p2))
  {
    var m := m1 + m2;
    if m == 0.0 then Err(ZeroDivisionError)
    else
      var v := Scale(1.0 / m, Add(Scale(m1, v1), Scale(m2, v2)));
      var p := Scale(1.0 / m, Add(Scale(m1, p1), Scale(m2, p2)));
      ScaleInverse(m, Add(Scale(m1, v1), Scale(m2, v2)));
      ScaleInverse(m, Add(Scale(m1, p1), Scale(m2, p2)));
      Ok(Merged(m, v, p))
  }

  lemma ScaleInverse(m: real, a: Vec2)
    requires m != 0.0
    ensures Scale(m, Scale(1.0 / m, a)) == a
  {
    assert m * (1.0 / m) == 1.0;
    assert m * ((1.0 / m) * a.x) == (m * (1.0 / m)) * a.x;
    assert m * ((1.0 / m) * a.y) == (m * (1.0 / m)) * a.y;
  }

  /** Merging with a body of no mass and the same motion changes nothing. */
  lemma MergeWithMasslessAtRest(m1: real, v1: Vec2, p1: Vec2)
    requires m1 != 0.0
    ensures Merge(m1, v1, p1, 0.0, v1, p1) == Ok(Merged(m1, v1, p1))
  {
    var r := Merge(m1, v1, p1, 0.0, v1, p1);
    assert Scale(0.0, v1) == Zero && Scale(0.0, p1) == Zero;
    assert Add(Scale(m1, v1), Zero) == Scale(m1, v1);
    assert Add(Scale(m1, p1), Zero) == Scale(m1, p1);
    ScaleCancel(m1, r.value.velocity, v1);
    ScaleCancel(m1, r.value.position, p1);
  }

  lemma ScaleCancel(m: real, a: Vec2, b: Vec2)
    requires m != 0.0 && Scale(m, a) == Scale(m, b)
    ensures a == b
  {
    assert m * a.x == m * b.x && m * a.y == m * b.y;
    assert a.x == (1.0 / m) * (m * a.x) by {
      assert (1.0 / m) * m == 1.0;
    }
    assert b.x == (1.0 / m) * (m * b.x) by {
      assert (1.0 / m) * m == 1.0;
    }
    assert a.y == (1.0 / m) * (m * a.y) by {
      assert (1.0 / m) * m == 1.0;
    }
    assert b.y == (1.0 / m) * (m * b.y) by {
      assert (1.0 / m) * m == 1.0;
    }
  }

  /** The environment of the sim object a component belongs to. */
  function EnvSetOf(c: Component): set<SimEnvironment>
    reads c, c.simObject
  {
    if c.simObject == null || c.simObject.environment == null then {} else {c.simObject.environment}
  }

  /** The transform of the sim object a component belongs to. */
  function TransformSetOf(c: Component): set<Component>
    reads c, c.simObject
  {
    if c.simObject == null || c.simObject.transform == null then {} else {c.simObject.transform}
  }

  function BodySetOf(l: CollisionListener): set<Body>
    reads l
  {
    if l.rigidbody == null then {} else {l.rigidbody.body}
  }

  function ShapesOf(l: CollisionListener): set<Shape>
    reads l, l.rigidbody
  {
    if l.rigidbody == null then {} else l.rigidbody.shapes
  }

  class MergeOnCollision {
    /** The CollisionListener part. */
    const listener: CollisionListener

    constructor ()
      ensures fresh(listener) && listener.rigidbody == null && listener.base.simObject == null
    {
      listener := new CollisionListener();
    }

    /** The lighter side of the collision: it is not heavier and the other side is not already going. */
    predicate Yields(other: RigidBody)
      reads listener, listener.rigidbody, other.body, other.base, listener.base, listener.base.simObject
      reads if listener.rigidbody == null then {} else {listener.rigidbody.body}
      reads if listener.base.simObject == null then {} else {listener.base.simObject.environment}
    {
      && listener.rigidbody != null && listener.base.simObject != null && listener.base.simObject.environment != null
      && listener.rigidbody.body.mass <= other.body.mass
      && (other.base.simObject == null || other.base.simObject !in listener.base.simObject.environment.toBeDestroyed)
    }

    /** The heavier side: strictly heavier, or the other side is already scheduled. */
    predicate Absorbs(other: RigidBody)
      reads listener, listener.rigidbody, other.body, other.base, listener.base, listener.base.simObject
      reads if listener.rigidbody == null then {} else {listener.rigidbody.body}
      reads if listener.base.simObject == null then {} else {listener.base.simObject.environment}
    {
      && listener.rigidbody != null
      && (|| listener.rigidbody.body.mass > other.body.mass
          || (&& listener.base.simObject != null && listener.base.simObject.environment != null
              && other.base.simObject != null && other.base.simObject in listener.base.simObject.environment.toBeDestroyed))
    }

    /**
     * `begin(other_body, arbiter)`: always answers False. The lighter side
     * only schedules its own sim object for destruction; the other side
     * takes the merged mass (on the RigidBody and on one of its shapes),
     * velocity and position. The other body is only read.
     */
    method Begin(other: RigidBody) returns (r: Result<bool>)
      modifies EnvSetOf(listener.base)`toBeDestroyed, BodySetOf(listener), ShapesOf(listener)`mass
      modifies TransformSetOf(listener.base)`position
      ensures r.Ok? ==> r.value == false
      ensures listener.rigidbody == null ==> r == Err(AttributeError)
      ensures old(Yields(other)) ==>
        && r == Ok(false)
        && listener.base.simObject.environment.toBeDestroyed
             == old(listener.base.simObject.environment.toBeDestroyed) + {listener.base.simObject}
        && listener.rigidbody.body.mass == old(listener.rigidbody.body.mass)
      ensures r.Ok? && old(Absorbs(other)) ==>
        && listener.rigidbody != null && listener.base.simObject != null && listener.base.simObject.transform != null
        && other.base.simObject != null && other.base.simObject.transform != null
        && var merged := Merge(
             old(listener.rigidbody.body.mass), old(listener.rigidbody.body.velocity), old(listener.base.simObject.transform.position),
             old(other.body.mass), old(other.body.velocity), old(other.base.simObject.transform.position));
           && merged.Ok?
           && listener.rigidbody.body.mass == merged.value.mass
           && listener.rigidbody.body.velocity == merged.value.velocity
           && listener.base.simObject.transform.position == merged.value.position
           && exists s :: s in listener.rigidbody.shapes && s.mass == merged.value.mass
    {
      var rb := listener.rigidbody;
      if rb == null {
        return Err(AttributeError);
      }
      var m1, m2 := rb.body.mass, other.body.mass;
      var self := listener.base.simObject;
      if m1 <= m2 {
        if self == null || self.environment == null {
          return Err(AttributeError);
        }
        var env := self.environment;
        if other.base.simObject == null || other.base.simObject !in env.toBeDestroyed {
          env.DestroyAfterStep(self);
          return Ok(false);
        }
      }
      if self == null || self.transform == null || other.base.simObject == null || other.base.simObject.transform == null {
        return Err(AttributeError);
      }
      var merged := Merge(m1, rb.body.velocity, self.transform.position, m2, other.body.velocity, other.base.simObject.transform.position);
      if merged.Err? {
        return Err(merged.error);
      }
      var newMass := merged.value;
      var set_ := rb.SetMass(newMass.mass);
      if set_.Fail? {
        return Err(set_.error);
      }
      if rb.shapes == {} {
        return Err(KeyError);
      }
      var s :| s in rb.shapes;
      s.mass := newMass.mass;
      var _ := rb.SetVelocity([newMass.velocity.x, newMass.velocity.y]);
      self.transform.SetPosition(newMass.position);
      r := Ok(false);
    }
  }
}
