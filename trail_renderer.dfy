/**
 * `TrailRenderer`: a renderer that draws the path its sim object has
 * travelled. After every physics step it records the object's position in a
 * bounded queue, but only once the object has moved at least the point
 * distance away from the last recorded point; a full queue drops its oldest
 * point. Distances are compared squared.
 */
module Trails {
  import opened Wrappers
  import opened Events
  import opened Vectors
  import opened Simulation
  import opened Physics
  import opened Rendering

  /**
   * `append` on a deque with a `maxlen`: the item goes at the back and the
   * oldest items fall off the front until at most `maxLen` remain.
   */
  function BoundedAppend(q: seq<Vec2>, p: Vec2, maxLen: nat): (r: seq<Vec2>)
    ensures |r| == if |q| + 1 <= maxLen then |q| + 1 else maxLen
    ensures r == (q + [p])[|q| + 1 - |r|..]
  {
    var s := q + [p];
    if |s| <= maxLen then s else s[|s| - maxLen..]
  }

  /** A bounded append onto a queue that is not full only adds; one onto a full queue evicts exactly the oldest point. */
  lemma BoundedAppendEvicts(q: seq<Vec2>, p: Vec2, maxLen: nat)
    ensures |q| < maxLen ==> BoundedAppend(q, p, maxLen) == q + [p]
    ensures 0 < |q| == maxLen ==> BoundedAppend(q, p, maxLen) == q[1..] + [p]
    ensures maxLen > 0 ==> BoundedAppend(q, p, maxLen)[|BoundedAppend(q, p, maxLen)| - 1] == p
    ensures maxLen == 0 ==> BoundedAppend(q, p, maxLen) == []
  {
    if 0 < |q| == maxLen {
      assert (q + [p])[1..] == q[1..] + [p];
    }
  }

  /**
   * The post-physics rule: the first point is always recorded; a later one
   * when its squared distance to the last recorded point reaches
   * `pointDistanceSquared`.
   */
  function NextPoints(q: seq<Vec2>, pos: Vec2, pointDistanceSquared: real, maxLen: nat): seq<Vec2> {
    if q == [] then BoundedAppend(q, pos, maxLen)
    else if Dist2(q[|q| - 1], pos) >= pointDistanceSquared then BoundedAppend(q, pos, maxLen)
    else q
  }

  /** Consecutive recorded points are at least the point distance apart (compared squared). */
  ghost predicate Spaced(q: seq<Vec2>, pointDistanceSquared: real) {
    forall i :: 0 < i < |q| ==> Dist2(q[i - 1], q[i]) >= pointDistanceSquared
  }

  /**
   * What a post-physics step does to the queue: it never grows past the
   * bound, and it either keeps the queue or records the current position as
   * the newest point (a bound of zero keeps the queue empty).
   */
  lemma NextPointsBounded(q: seq<Vec2>, pos: Vec2, pds: real, maxLen: nat)
    requires |q| <= maxLen
    ensures |NextPoints(q, pos, pds, maxLen)| <= maxLen
    ensures NextPoints(q, pos, pds, maxLen) == q
      || (maxLen > 0 && NextPoints(q, pos, pds, maxLen)[|NextPoints(q, pos, pds, maxLen)| - 1] == pos)
      || (maxLen == 0 && NextPoints(q, pos, pds, maxLen) == [])
    ensures q == [] && maxLen > 0 ==> NextPoints(q, pos, pds, maxLen) == [pos]
  {
    BoundedAppendEvicts(q, pos, maxLen);
  }

  /** Recording a point far enough from the last one keeps the queue spaced. */
  lemma SpacedAppend(q: seq<Vec2>, pos: Vec2, pds: real)
    requires Spaced(q, pds)
    requires q != [] ==> Dist2(q[|q| - 1], pos) >= pds
    ensures Spaced(q + [pos], pds)
  {
    var s := q + [pos];
    forall i | 0 < i < |s|
      ensures Dist2(s[i - 1], s[i]) >= pds
    {
      if i < |q| {
        assert s[i - 1] == q[i - 1] && s[i] == q[i];
      }
    }
  }

  /** Dropping the oldest points keeps the queue spaced. */
  lemma SpacedSuffix(s: seq<Vec2>, d: nat, pds: real)
    requires Spaced(s, pds) && d <= |s|
    ensures Spaced(s[d..], pds)
  {
    var r := s[d..];
    forall i | 0 < i < |r|
      ensures Dist2(r[i - 1], r[i]) >= pds
    {
      assert r[i - 1] == s[d + i - 1] && r[i] == s[d + i];
    }
  }

  /** A post-physics step keeps consecutive recorded points at least the point distance apart. */
  lemma NextPointsKeepsSpacing(q: seq<Vec2>, pos: Vec2, pds: real, maxLen: nat)
    requires Spaced(q, pds)
    ensures Spaced(NextPoints(q, pos, pds, maxLen), pds)
  {
    var r := NextPoints(q, pos, pds, maxLen);
    if r != q {
      SpacedAppend(q, pos, pds);
      SpacedSuffix(q + [pos], |q| + 1 - |r|, pds);
    }
  }

  function TrailResetListener(t: TrailRenderer): Listener { Listener(t.renderer, OnTrailReset) }
  function PostPhysicsListener(t: TrailRenderer): Listener { Listener(t.renderer, OnPostPhysics) }

  class TrailRenderer {
    /** The Renderer part. */
    const renderer: Renderer
    const pointDistanceSquared: real
    const maxPoints: nat
    /** The recorded points, oldest first. */
    var points: seq<Vec2>

    constructor (pointDistance: real, maxPoints: nat, layer: nat)
      ensures fresh(renderer) && fresh(renderer.base)
      ensures renderer.base.simObject == null && !renderer.base.isSetUp
      ensures renderer.isActive && renderer.layer == layer
      ensures pointDistanceSquared == Sq(pointDistance) && this.maxPoints == maxPoints
      ensures points == []
    {
      renderer := new Renderer(layer);
      pointDistanceSquared := Sq(pointDistance);
      this.maxPoints := maxPoints;
      points := [];
    }

    /** The queue respects its bound. */
    predicate Valid()
      reads this
    {
      |points| <= maxPoints
    }

    /** The transform of the sim object, which gives the position recorded. */
    function TransformOf(): Component?
      reads renderer.base, renderer.base.simObject
    {
      if renderer.base.simObject == null then null else renderer.base.simObject.transform
    }

    /**
     * The PostPhysicsUpdateEvent handler: nothing while inactive; otherwise
     * the queue follows `NextPoints` with the object's current position.
     */
    method HandlePostPhysics() returns (r: Outcome)
      modifies this`points
      ensures !renderer.isActive ==> r == Pass && points == old(points)
      ensures renderer.isActive && TransformOf() == null ==> r == Fail(AttributeError) && points == old(points)
      ensures renderer.isActive && TransformOf() != null ==>
        && r == Pass
        && points == NextPoints(old(points), TransformOf().position, pointDistanceSquared, maxPoints)
      ensures old(Valid()) ==> Valid()
    {
      if !renderer.isActive {
        return Pass;
      }
      var t := TransformOf();
      if t == null {
        return Fail(AttributeError);
      }
      var pos := t.position;
      ghost var before := points;
      if |points| == 0 {
        points := BoundedAppend(points, pos, maxPoints);
      } else {
        var d := Dist2(points[|points| - 1], pos);
        if d >= pointDistanceSquared {
          points := BoundedAppend(points, pos, maxPoints);
        }
      }
      assert points == NextPoints(before, pos, pointDistanceSquared, maxPoints);
      if |before| <= maxPoints {
        NextPointsBounded(before, pos, pointDistanceSquared, maxPoints);
      }
      r := Pass;
    }

    /** `reset_trail`, also the TrailResetEvent handler: forgets every point. */
    method ResetTrail()
      modifies this`points
      ensures points == [] && Valid()
    {
      points := [];
    }

    /** `setup`: the Renderer setup, then the reset and post-physics handlers. */
    method Setup() returns (r: Outcome)
      modifies renderer.base`isSetUp, BusSet(ObjectBus(renderer.base))
      ensures ObjectBus(renderer.base) == null ==> r == Fail(AttributeError)
      ensures ObjectBus(renderer.base) != null ==>
        && r == Pass && renderer.base.isSetUp
        && ObjectBus(renderer.base).listeners ==
             Subscribe(Subscribe(Subscribe(old(ObjectBus(renderer.base).listeners),
               CameraRender, CameraRenderListener(renderer)),
               TrailReset, TrailResetListener(this)),
               PostPhysicsUpdate, PostPhysicsListener(this))
    {
      r := renderer.Setup();
      if r.Fail? {
        return;
      }
      var bus := ObjectBus(renderer.base);
      r := bus.AddListener(TrailReset, Callable(TrailResetListener(this)));
      r := bus.AddListener(PostPhysicsUpdate, Callable(PostPhysicsListener(this)));
    }

    /**
     * `_on_destroy`: removes the reset handler, then the post-physics
     * handler, then runs the Renderer teardown; a missing registration
     * stops it with a KeyError.
     */
    method OnDestroy() returns (r: Outcome)
      modifies BusSet(ObjectBus(renderer.base))
      ensures ObjectBus(renderer.base) == null ==> r == Fail(AttributeError)
      ensures ObjectBus(renderer.base) != null ==>
        && (r == Pass <==>
             && TrailResetListener(this) in ListenersOf(old(ObjectBus(renderer.base).listeners), TrailReset)
             && PostPhysicsListener(this) in ListenersOf(old(ObjectBus(renderer.base).listeners), PostPhysicsUpdate)
             && CameraRenderListener(renderer) in ListenersOf(old(ObjectBus(renderer.base).listeners), CameraRender))
        && (r.Fail? ==> r.error == KeyError)
        && (r == Pass ==>
             && TrailResetListener(this) !in ListenersOf(ObjectBus(renderer.base).listeners, TrailReset)
             && PostPhysicsListener(this) !in ListenersOf(ObjectBus(renderer.base).listeners, PostPhysicsUpdate)
             && CameraRenderListener(renderer) !in ListenersOf(ObjectBus(renderer.base).listeners, CameraRender))
    {
      var bus := ObjectBus(renderer.base);
      if bus == null {
        return Fail(AttributeError);
      }
      r := bus.RemoveListener(TrailReset, TrailResetListener(this));
      if r.Fail? {
        return;
      }
      r := bus.RemoveListener(PostPhysicsUpdate, PostPhysicsListener(this));
      if r.Fail? {
        return;
      }
      r := renderer.OnDestroy();
    }
  }

  /** `TrailRenderer(point_distance, max_points, thickness, color, layer)`: the deque rejects a negative bound first, then the layer setter a negative layer. */
  method NewTrailRenderer(pointDistance: real, maxPoints: int, layer: int) returns (r: Result<TrailRenderer>)
    ensures maxPoints < 0 ==> r == Err(ValueError)
    ensures maxPoints >= 0 && layer < 0 ==> r == Err(ValueError)
    ensures maxPoints >= 0 && layer >= 0 ==>
      && r.Ok? && fresh(r.value) && r.value.points == [] && r.value.Valid()
      && r.value.maxPoints == maxPoints && r.value.renderer.layer == layer
      && r.value.pointDistanceSquared == Sq(pointDistance)
  {
    if maxPoints < 0 || layer < 0 {
      return Err(ValueError);
    }
    var t := new TrailRenderer(pointDistance, maxPoints, layer);
    r := Ok(t);
  }
}
