/**
 * Reference frames: the scene can be viewed from the rest frame of one
 * "origin" body. After a physics step the manager raises two events. On the
 * first, every ReferenceFrame copies the origin's position and velocity into
 * its offsets. On the second, every frame subtracts its offsets from its own
 * body. Because all offsets are captured before anything is subtracted,
 * every frame moves by the same vector, and the origin comes to rest at the
 * world origin.
 */
module ReferenceFrames {
  import opened Wrappers
  import opened Events
  import opened Vectors
  import opened Simulation
  import opened Physics

  /** The rigid body's backend component, as a set (empty for no body). */
  function BaseOf(rb: RigidBody?): set<Component> {
    if rb == null then {} else {rb.base}
  }

  /** The sim object the rigid body is attached to, as a set. */
  function ObjectOf(rb: RigidBody?): set<SimObject>
    reads BaseOf(rb)`simObject
  {
    if rb == null || rb.base.simObject == null then {} else {rb.base.simObject}
  }

  /** `rb.sim_object.transform`, or null where the chain breaks. */
  function TransformOfBody(rb: RigidBody?): Component?
    reads BaseOf(rb)`simObject, ObjectOf(rb)`transform
  {
    if rb == null || rb.base.simObject == null then null else rb.base.simObject.transform
  }

  function CalculateOffsetListener(f: ReferenceFrame): Listener { Listener(f, OnCalculateOffset) }
  function UpdateValuesListener(f: ReferenceFrame): Listener { Listener(f, OnUpdateValues) }

  /** The listeners bound to `frames` with handler `h`, in order. */
  function ListenersFor(frames: seq<ReferenceFrame>, h: Handler): seq<Listener> {
    seq(|frames|, i requires 0 <= i < |frames| => Listener(frames[i], h))
  }

  /**
   * `frames` is the order in which both events reach their subscribers:
   * every subscriber of either event is a frame listed here, subscribed to
   * both, and no frame is listed twice.
   */
  ghost predicate Subscribers(m: Registry, frames: seq<ReferenceFrame>) {
    && IsEnumeration(ListenersFor(frames, OnCalculateOffset), ListenersOf(m, CalculateOffset))
    && IsEnumeration(ListenersFor(frames, OnUpdateValues), ListenersOf(m, UpdateValues))
  }

  /** Every frame reads its origin from the manager `m`. */
  ghost predicate SharedManager(frames: seq<ReferenceFrame>, m: ReferenceFrameManager)
    reads FrameSet(frames)`manager
  {
    forall i :: 0 <= i < |frames| ==> frames[i].manager == m
  }

  ghost function FrameSet(frames: seq<ReferenceFrame>): set<ReferenceFrame> {
    set f | f in frames
  }

  /** The rigid bodies of the frames. */
  ghost function BodiesOf(frames: seq<ReferenceFrame>): set<RigidBody>
    reads FrameSet(frames)`rigidbody
  {
    set i | 0 <= i < |frames| && frames[i].rigidbody != null :: frames[i].rigidbody
  }

  ghost function BasesOf(frames: seq<ReferenceFrame>): set<Component>
    reads FrameSet(frames)`rigidbody
  {
    set rb | rb in BodiesOf(frames) :: rb.base
  }

  ghost function ObjectsOf(frames: seq<ReferenceFrame>): set<SimObject>
    reads FrameSet(frames)`rigidbody, BasesOf(frames)`simObject
  {
    set c | c in BasesOf(frames) && c.simObject != null :: c.simObject
  }

  /** No transform, and no backend body, occurs twice in the snapshots. */
  ghost predicate PairwiseDistinct(ts: seq<Component?>, bs: seq<Body?>) {
    |ts| == |bs| && forall a, c :: 0 <= a < c < |ts| ==> ts[a] != ts[c] && bs[a] != bs[c]
  }

  /** The frames' transforms, and their backend bodies, are pairwise distinct. */
  ghost predicate DistinctTargets(frames: seq<ReferenceFrame>)
    reads FrameSet(frames)`rigidbody, BasesOf(frames)`simObject, ObjectsOf(frames)`transform
  {
    forall i, j :: 0 <= i < j < |frames| ==>
      && frames[i].Target() != frames[j].Target()
      && frames[i].BodyOf() != frames[j].BodyOf()
  }

  ghost function TargetSet(frames: seq<ReferenceFrame>): set<Component>
    reads FrameSet(frames)`rigidbody, BasesOf(frames)`simObject, ObjectsOf(frames)`transform
  {
    set i | 0 <= i < |frames| && frames[i].Target() != null :: frames[i].Target()
  }

  ghost function BodySet(frames: seq<ReferenceFrame>): set<Body>
    reads FrameSet(frames)`rigidbody
  {
    set i | 0 <= i < |frames| && frames[i].rigidbody != null :: frames[i].rigidbody.body
  }

  /** `ts` and `bs` are where each frame's transform and backend body stand. */
  ghost predicate Matches(frames: seq<ReferenceFrame>, ts: seq<Component?>, bs: seq<Body?>)
    reads FrameSet(frames)`rigidbody, BasesOf(frames)`simObject, ObjectsOf(frames)`transform
  {
    && |ts| == |bs| == |frames|
    && forall k :: 0 <= k < |frames| ==> frames[k].Target() == ts[k] && frames[k].BodyOf() == bs[k]
  }

  ghost function PresentTransforms(ts: seq<Component?>): set<Component> {
    set t: Component | t in ts
  }

  ghost function PresentBodies(bs: seq<Body?>): set<Body> {
    set b: Body | b in bs
  }

  /** The snapshot transforms still hold positions `ps`, the bodies velocities `vs`. */
  ghost predicate Holds(ts: seq<Component?>, bs: seq<Body?>, ps: seq<Vec2>, vs: seq<Vec2>)
    reads PresentTransforms(ts)`position, PresentBodies(bs)`velocity
  {
    && |ts| == |bs| == |ps| == |vs|
    && (forall k :: 0 <= k < |ts| && ts[k] != null ==> ts[k].position == ps[k])
    && (forall k :: 0 <= k < |bs| && bs[k] != null ==> bs[k].velocity == vs[k])
  }

  ghost function BasesIn(rbs: seq<RigidBody?>): set<Component> {
    set rb: RigidBody | rb in rbs :: rb.base
  }

  ghost function ObjectsIn(sos: seq<SimObject?>): set<SimObject> {
    set so: SimObject | so in sos
  }

  /**
   * The links from each frame to its transform, one field at a time: the
   * frame's rigid body `rbs[k]`, its sim object `sos[k]`, its transform `ts[k]`.
   */
  ghost predicate Links(frames: seq<ReferenceFrame>, rbs: seq<RigidBody?>, sos: seq<SimObject?>, ts: seq<Component?>)
    reads FrameSet(frames)`rigidbody, BasesIn(rbs)`simObject, ObjectsIn(sos)`transform
  {
    && |rbs| == |sos| == |ts| == |frames|
    && forall k :: 0 <= k < |frames| ==>
      && frames[k].rigidbody == rbs[k]
      && (if rbs[k] == null then sos[k] == null else rbs[k].base.simObject == sos[k])
      && (if sos[k] == null then ts[k] == null else sos[k].transform == ts[k])
  }

  /** Each frame's transform and body follow from its links. */
  lemma LinksMatch(frames: seq<ReferenceFrame>, rbs: seq<RigidBody?>, sos: seq<SimObject?>, ts: seq<Component?>, bs: seq<Body?>)
    requires Links(frames, rbs, sos, ts)
    requires |bs| == |rbs| && forall k :: 0 <= k < |rbs| ==> bs[k] == (if rbs[k] == null then null else rbs[k].body)
    ensures Matches(frames, ts, bs)
  {
  }

  /** Where the snapshot matches the frames, the frames' transforms and bodies are the snapshot's. */
  lemma TargetSetIs(frames: seq<ReferenceFrame>, ts: seq<Component?>, bs: seq<Body?>)
    requires Matches(frames, ts, bs)
    ensures TargetSet(frames) == PresentTransforms(ts) && BodySet(frames) == PresentBodies(bs)
  {
    forall t | t in PresentTransforms(ts) ensures t in TargetSet(frames) {
      var k :| 0 <= k < |ts| && ts[k] == t;
      assert frames[k].Target() == t;
    }
    forall b | b in PresentBodies(bs) ensures b in BodySet(frames) {
      var k :| 0 <= k < |bs| && bs[k] == b;
      assert frames[k].BodyOf() == b;
    }
  }

  /** Records each frame's links, transform and body, and their state. */
  ghost method Snapshot(frames: seq<ReferenceFrame>)
    returns (rbs: seq<RigidBody?>, sos: seq<SimObject?>, ts: seq<Component?>, bs: seq<Body?>, ps: seq<Vec2>, vs: seq<Vec2>)
    ensures Links(frames, rbs, sos, ts) && Matches(frames, ts, bs) && Holds(ts, bs, ps, vs)
    ensures |bs| == |rbs| && forall k :: 0 <= k < |rbs| ==> bs[k] == (if rbs[k] == null then null else rbs[k].body)
  {
    rbs, sos, ts, bs, ps, vs := [], [], [], [], [], [];
    var i := 0;
    while i < |frames|
      invariant 0 <= i <= |frames| && |rbs| == |sos| == |ts| == |bs| == |ps| == |vs| == i
      invariant forall k :: 0 <= k < i ==>
        && frames[k].rigidbody == rbs[k]
        && (if rbs[k] == null then sos[k] == null else rbs[k].base.simObject == sos[k])
        && (if sos[k] == null then ts[k] == null else sos[k].transform == ts[k])
      invariant forall k :: 0 <= k < i ==> bs[k] == (if rbs[k] == null then null else rbs[k].body)
      invariant forall k :: 0 <= k < i ==> ts[k] != null ==> ps[k] == ts[k].position
      invariant forall k :: 0 <= k < i ==> bs[k] != null ==> vs[k] == bs[k].velocity
    {
      var rb := frames[i].rigidbody;
      var so := if rb == null then null else rb.base.simObject;
      var t := if so == null then null else so.transform;
      var b := if rb == null then null else rb.body;
      rbs, sos, ts, bs := rbs + [rb], sos + [so], ts + [t], bs + [b];
      ps := ps + [if t == null then Zero else t.position];
      vs := vs + [if b == null then Zero else b.velocity];
      i := i + 1;
    }
    LinksMatch(frames, rbs, sos, ts, bs);
  }

  class ReferenceFrameManager {
    /** The GlobalBehavior part. */
    const base: Component
    /** The body whose rest frame the scene is shown in, if any. */
    var originBody: RigidBody?

    constructor ()
      ensures fresh(base) && base.kind == GlobalBehavior && base.environment == null && !base.isSetUp
      ensures originBody == null
    {
      base := new Component(GlobalBehavior);
      originBody := null;
    }

    function Bus(): EventSystem?
      reads base`environment
    {
      if base.environment == null then null else base.environment.events
    }

    /** The origin's transform, read through the origin's sim object. */
    function OriginTransform(): Component?
      reads this`originBody, BaseOf(originBody)`simObject, ObjectOf(originBody)`transform
    {
      TransformOfBody(originBody)
    }

    /**
     * `_physics_update`: nothing without an origin; an origin whose sim
     * object is gone is forgotten; otherwise ReferenceFrameCalculateOffsetEvent
     * and then ReferenceFrameUpdateValuesEvent are raised, each reaching
     * every subscribed frame once, in the order `frames`. Nothing in the
     * kernel calls this method.
     */
    method PhysicsUpdate(frames: seq<ReferenceFrame>) returns (r: Outcome)
      requires Bus() != null ==> Subscribers(Bus().listeners, frames)
      modifies this`originBody, BusSet(Bus())
      modifies FrameSet(frames)`positionOffset, FrameSet(frames)`velocityOffset
      modifies TargetSet(frames)`position, BodySet(frames)`velocity
      ensures r.Fail? ==> r.error == AttributeError
      ensures old(originBody) == null ==> r == Pass && originBody == null && unchanged(BusSet(Bus()))
      ensures old(originBody) != null && old(originBody.base.simObject) == null ==>
        r == Pass && originBody == null && unchanged(BusSet(Bus()))
      ensures old(originBody) != null && old(originBody.base.simObject) != null ==> originBody == old(originBody)
      ensures r == Pass && old(originBody) != null && old(originBody.base.simObject) != null ==>
        && Bus() != null
        && Bus().raised == old(Bus().raised) + [Event(CalculateOffset), Event(UpdateValues)]
      ensures r == Pass && old(originBody) != null && old(OriginTransform()) != null && SharedManager(frames, this) ==>
        && (forall i :: 0 <= i < |frames| ==>
              frames[i].positionOffset == old(OriginTransform().position)
              && frames[i].velocityOffset == old(originBody.body.velocity))
      ensures r == Pass && old(originBody) != null && old(OriginTransform()) != null
              && SharedManager(frames, this) && old(DistinctTargets(frames)) ==>
        forall i :: 0 <= i < |frames| ==>
          && frames[i].Target() != null && frames[i].rigidbody != null
          && frames[i].Target().position == Sub(old(frames[i].Target().position), old(OriginTransform().position))
          && frames[i].rigidbody.body.velocity == Sub(old(frames[i].rigidbody.body.velocity), old(originBody.body.velocity))
      ensures r == Pass && old(originBody) != null && old(OriginTransform()) != null
              && SharedManager(frames, this) && old(DistinctTargets(frames)) && old(originBody in BodiesOf(frames)) ==>
        old(OriginTransform()).position == Zero && old(originBody).body.velocity == Zero
    {
      if originBody == null {
        return Pass;
      }
      if originBody.base.simObject == null {
        originBody := null;
        return Pass;
      }
      var bus := Bus();
      if bus == null {
        return Fail(AttributeError);
      }
      r := Recenter(bus, frames, ListenersFor(frames, OnCalculateOffset), ListenersFor(frames, OnUpdateValues));
    }

    /**
     * Both events with an origin in place, reaching their subscribers in
     * the orders `offsetOrder` and `valuesOrder`.
     */
    method Recenter(bus: EventSystem, frames: seq<ReferenceFrame>, offsetOrder: seq<Listener>, valuesOrder: seq<Listener>)
      returns (r: Outcome)
      requires originBody != null && originBody.base.simObject != null && bus == Bus()
      requires IsEnumeration(offsetOrder, ListenersOf(bus.listeners, CalculateOffset))
      requires IsEnumeration(valuesOrder, ListenersOf(bus.listeners, UpdateValues))
      modifies bus, FrameSet(frames)`positionOffset, FrameSet(frames)`velocityOffset
      modifies TargetSet(frames)`position, BodySet(frames)`velocity
      ensures r.Fail? ==> r.error == AttributeError
      ensures r == Pass ==>
        && bus.raised == old(bus.raised) + [Event(CalculateOffset), Event(UpdateValues)]
        && bus.calls == old(bus.calls) + CallsOf(offsetOrder, Event(CalculateOffset)) + CallsOf(valuesOrder, Event(UpdateValues))
      ensures r == Pass && old(OriginTransform()) != null && SharedManager(frames, this) ==>
        && (forall i :: 0 <= i < |frames| ==>
              frames[i].positionOffset == old(OriginTransform().position)
              && frames[i].velocityOffset == old(originBody.body.velocity))
      ensures r == Pass && old(OriginTransform()) != null && SharedManager(frames, this) && old(DistinctTargets(frames)) ==>
        forall i :: 0 <= i < |frames| ==>
          && frames[i].Target() != null && frames[i].rigidbody != null
          && frames[i].Target().position == Sub(old(frames[i].Target().position), old(OriginTransform().position))
          && frames[i].rigidbody.body.velocity == Sub(old(frames[i].rigidbody.body.velocity), old(originBody.body.velocity))
      ensures r == Pass && old(OriginTransform()) != null && SharedManager(frames, this) && old(DistinctTargets(frames))
              && old(originBody in BodiesOf(frames)) ==>
        old(OriginTransform()).position == Zero && originBody.body.velocity == Zero
    {
      ghost var rbs, sos, ts, bs, ps, vs := Snapshot(frames);
      ghost var so := originBody.base.simObject;
      ghost var origin := so.transform;
      ghost var p0 := if origin == null then Zero else origin.position;
      ghost var v0 := originBody.body.velocity;
      assert DistinctTargets(frames) ==> PairwiseDistinct(ts, bs);
      if originBody in BodiesOf(frames) {
        ghost var i :| 0 <= i < |frames| && frames[i].rigidbody == originBody;
        assert rbs[i] == originBody;
      }
      TargetSetIs(frames, ts, bs);
      r := Dispatch(bus, frames, offsetOrder, valuesOrder, rbs, sos, ts, bs, ps, vs, so, origin, p0, v0);
      LinksMatch(frames, rbs, sos, ts, bs);
    }

    /**
     * The two events in turn, each followed by its pass over the frames.
     * The ghost parameters record the frames' links and state, and the
     * origin's, on entry.
     */
    method Dispatch(bus: EventSystem, frames: seq<ReferenceFrame>, offsetOrder: seq<Listener>, valuesOrder: seq<Listener>,
                    ghost rbs: seq<RigidBody?>, ghost sos: seq<SimObject?>, ghost ts: seq<Component?>, ghost bs: seq<Body?>,
                    ghost ps: seq<Vec2>, ghost vs: seq<Vec2>,
                    ghost so: SimObject, ghost origin: Component?, ghost p0: Vec2, ghost v0: Vec2)
      returns (r: Outcome)
      requires IsEnumeration(offsetOrder, ListenersOf(bus.listeners, CalculateOffset))
      requires IsEnumeration(valuesOrder, ListenersOf(bus.listeners, UpdateValues))
      requires Links(frames, rbs, sos, ts) && Holds(ts, bs, ps, vs)
      requires |bs| == |rbs| && forall k :: 0 <= k < |rbs| ==> bs[k] == (if rbs[k] == null then null else rbs[k].body)
      requires originBody != null && originBody.base.simObject == so && so.transform == origin
      requires origin != null ==> origin.position == p0
      requires originBody.body.velocity == v0
      modifies bus, FrameSet(frames)`positionOffset, FrameSet(frames)`velocityOffset
      modifies PresentTransforms(ts)`position, PresentBodies(bs)`velocity
      ensures r == Pass ==> bus.raised == old(bus.raised) + [Event(CalculateOffset), Event(UpdateValues)]
      ensures r == Pass ==>
        bus.calls == old(bus.calls) + CallsOf(offsetOrder, Event(CalculateOffset)) + CallsOf(valuesOrder, Event(UpdateValues))
      ensures r.Fail? ==> r.error == AttributeError
      ensures Links(frames, rbs, sos, ts)
      ensures r == Pass && origin != null && SharedManager(frames, this) ==>
        forall i :: 0 <= i < |frames| ==> frames[i].positionOffset == p0 && frames[i].velocityOffset == v0
      ensures r == Pass && origin != null && SharedManager(frames, this) && PairwiseDistinct(ts, bs) ==>
        forall i :: 0 <= i < |frames| ==>
          && ts[i] != null && bs[i] != null
          && ts[i].position == Sub(ps[i], p0) && bs[i].velocity == Sub(vs[i], v0)
      ensures r == Pass && origin != null && SharedManager(frames, this) && PairwiseDistinct(ts, bs) && originBody in rbs ==>
        origin.position == Zero && originBody.body.velocity == Zero
    {
      r := CaptureOrigin(bus, frames, offsetOrder, so, origin, p0, v0);
      if r.Fail? {
        return;
      }
      assert Links(frames, rbs, sos, ts) && Holds(ts, bs, ps, vs);
      r := ShiftFrames(bus, frames, valuesOrder, rbs, sos, ts, bs, ps, vs);
      if r == Pass && origin != null && SharedManager(frames, this) && PairwiseDistinct(ts, bs) && originBody in rbs {
        // the origin's own frame is shifted by its own captured position and velocity
        ghost var i :| 0 <= i < |rbs| && rbs[i] == originBody;
        assert ts[i] == origin && bs[i] == originBody.body;
        SubSelf(p0);
        SubSelf(v0);
      }
    }

    /** ReferenceFrameCalculateOffsetEvent and its pass over the frames. */
    method CaptureOrigin(bus: EventSystem, frames: seq<ReferenceFrame>, order: seq<Listener>,
                         ghost so: SimObject, ghost origin: Component?, ghost p0: Vec2, ghost v0: Vec2)
      returns (r: Outcome)
      requires IsEnumeration(order, ListenersOf(bus.listeners, CalculateOffset))
      requires originBody != null && originBody.base.simObject == so && so.transform == origin
      requires origin != null ==> origin.position == p0
      requires originBody.body.velocity == v0
      modifies bus, FrameSet(frames)`positionOffset, FrameSet(frames)`velocityOffset
      ensures bus.listeners == old(bus.listeners)
      ensures bus.raised == old(bus.raised) + [Event(CalculateOffset)]
      ensures bus.calls == old(bus.calls) + CallsOf(order, Event(CalculateOffset))
      ensures r.Fail? ==> r.error == AttributeError
      ensures r == Pass && origin != null && SharedManager(frames, this) ==>
        forall i :: 0 <= i < |frames| ==> frames[i].positionOffset == p0 && frames[i].velocityOffset == v0
    {
      bus.RaiseEventInOrder(Event(CalculateOffset), order);
      assert originBody.base.simObject == so && so.transform == origin;
      r := CalculateOffsets(frames);
    }

    /** ReferenceFrameUpdateValuesEvent and its pass over the frames. */
    method ShiftFrames(bus: EventSystem, frames: seq<ReferenceFrame>, order: seq<Listener>,
                       ghost rbs: seq<RigidBody?>, ghost sos: seq<SimObject?>, ghost ts: seq<Component?>, ghost bs: seq<Body?>,
                       ghost ps: seq<Vec2>, ghost vs: seq<Vec2>)
      returns (r: Outcome)
      requires IsEnumeration(order, ListenersOf(bus.listeners, UpdateValues))
      requires Links(frames, rbs, sos, ts) && Holds(ts, bs, ps, vs)
      requires |bs| == |rbs| && forall k :: 0 <= k < |rbs| ==> bs[k] == (if rbs[k] == null then null else rbs[k].body)
      modifies bus, PresentTransforms(ts)`position, PresentBodies(bs)`velocity
      ensures bus.raised == old(bus.raised) + [Event(UpdateValues)]
      ensures bus.calls == old(bus.calls) + CallsOf(order, Event(UpdateValues))
      ensures r.Fail? ==> r.error == AttributeError
      ensures Links(frames, rbs, sos, ts)
      ensures r == Pass && PairwiseDistinct(ts, bs) ==>
        forall i :: 0 <= i < |frames| ==>
          && ts[i] != null && bs[i] != null
          && ts[i].position == Sub(ps[i], frames[i].positionOffset)
          && bs[i].velocity == Sub(vs[i], frames[i].velocityOffset)
    {
      bus.RaiseEventInOrder(Event(UpdateValues), order);
      assert Links(frames, rbs, sos, ts) && Holds(ts, bs, ps, vs);
      LinksMatch(frames, rbs, sos, ts, bs);
      TargetSetIs(frames, ts, bs);
      r := ApplyOffsets(frames);
      assert Links(frames, rbs, sos, ts);
    }

    /** The first dispatch: every frame captures the origin's state. */
    method CalculateOffsets(frames: seq<ReferenceFrame>) returns (r: Outcome)
      modifies FrameSet(frames)`positionOffset, FrameSet(frames)`velocityOffset
      ensures r.Fail? ==> r.error == AttributeError
      ensures r == Pass && originBody != null && OriginTransform() != null && SharedManager(frames, this) ==>
        forall i :: 0 <= i < |frames| ==>
          frames[i].positionOffset == OriginTransform().position && frames[i].velocityOffset == originBody.body.velocity
    {
      var j := 0;
      while j < |frames|
        invariant 0 <= j <= |frames|
        invariant originBody != null && OriginTransform() != null && SharedManager(frames, this) ==>
          forall k :: 0 <= k < j ==>
            frames[k].positionOffset == OriginTransform().position && frames[k].velocityOffset == originBody.body.velocity
      {
        r := frames[j].HandleCalculateOffset();
        if r.Fail? {
          return;
        }
        j := j + 1;
      }
      r := Pass;
    }

    /**
     * The second dispatch: every frame subtracts its offsets from its own
     * body; with distinct targets each moves by exactly its own offsets.
     */
    method ApplyOffsets(frames: seq<ReferenceFrame>) returns (r: Outcome)
      modifies TargetSet(frames)`position, BodySet(frames)`velocity
      ensures r.Fail? ==> r.error == AttributeError
      ensures r == Pass && old(DistinctTargets(frames)) ==>
        forall i :: 0 <= i < |frames| ==>
          && frames[i].Target() != null && frames[i].rigidbody != null
          && frames[i].Target().position == Sub(old(frames[i].Target().position), frames[i].positionOffset)
          && frames[i].rigidbody.body.velocity == Sub(old(frames[i].rigidbody.body.velocity), frames[i].velocityOffset)
    {
      ghost var rbs, sos, ts, bs, ps, vs := Snapshot(frames);
      ghost var distinct := DistinctTargets(frames);
      assert distinct ==> PairwiseDistinct(ts, bs);
      var j := 0;
      while j < |frames|
        invariant 0 <= j <= |frames|
        invariant forall k :: 0 <= k < |frames| ==> frames[k].Target() == ts[k] && frames[k].BodyOf() == bs[k]
        invariant distinct ==> PairwiseDistinct(ts, bs)
        invariant distinct ==>
          forall k :: 0 <= k < j ==>
            && ts[k] != null && bs[k] != null
            && ts[k].position == Sub(ps[k], frames[k].positionOffset)
            && bs[k].velocity == Sub(vs[k], frames[k].velocityOffset)
        invariant distinct ==> forall k :: j <= k < |frames| ==> ts[k] != null ==> ts[k].position == ps[k]
        invariant distinct ==> forall k :: j <= k < |frames| ==> bs[k] != null ==> bs[k].velocity == vs[k]
      {
        r := ApplyAt(frames, j, ts, bs, distinct);
        if r.Fail? {
          return;
        }
        j := j + 1;
      }
      r := Pass;
    }

    /**
     * One step of the second dispatch: frame `j` handles the event. Only its
     * own transform's position and its own body's velocity can change.
     */
    method ApplyAt(frames: seq<ReferenceFrame>, j: nat, ghost ts: seq<Component?>, ghost bs: seq<Body?>, ghost distinct: bool)
      returns (r: Outcome)
      requires j < |frames| == |ts| == |bs|
      requires frames[j].Target() == ts[j] && frames[j].BodyOf() == bs[j]
      requires distinct ==> PairwiseDistinct(ts, bs)
      modifies (if ts[j] == null then {} else {ts[j]})`position, (if bs[j] == null then {} else {bs[j]})`velocity
      ensures r.Fail? ==> r.error == AttributeError
      ensures r.Fail? ==>
        && (ts[j] != null ==> ts[j].position == old(ts[j].position))
        && (bs[j] != null ==> bs[j].velocity == old(bs[j].velocity))
      ensures r == Pass ==>
        && ts[j] != null && bs[j] != null
        && ts[j].position == Sub(old(ts[j].position), frames[j].positionOffset)
        && bs[j].velocity == Sub(old(bs[j].velocity), frames[j].velocityOffset)
      ensures forall k :: 0 <= k < |frames| ==> frames[k].Target() == old(frames[k].Target()) && frames[k].BodyOf() == old(frames[k].BodyOf())
      ensures distinct ==> forall k :: 0 <= k < |ts| && k != j && ts[k] != null ==> ts[k].position == old(ts[k].position)
      ensures distinct ==> forall k :: 0 <= k < |bs| && k != j && bs[k] != null ==> bs[k].velocity == old(bs[k].velocity)
    {
      r := frames[j].HandleUpdateValues();
      if distinct {
        forall k | 0 <= k < |ts| && k != j
          ensures ts[k] != ts[j] && bs[k] != bs[j]
        {
          if k < j {
            assert ts[k] != ts[j] && bs[k] != bs[j];
          } else {
            assert ts[j] != ts[k] && bs[j] != bs[k];
          }
        }
      }
    }
  }

  /** Subtracting a vector from itself leaves nothing. */
  lemma SubSelf(a: Vec2)
    ensures Sub(a, a) == Zero
  {
  }

  /**
   * The vector identities behind the shift: a vector minus itself is zero,
   * and two positions shifted by the same offset keep their difference.
   */
  lemma {:induction false} RecenterProperties(origin: Vec2, originVel: Vec2, p: Vec2, q: Vec2)
    ensures Sub(origin, origin) == Zero && Sub(originVel, originVel) == Zero
    ensures Sub(Sub(p, origin), Sub(q, origin)) == Sub(p, q)
  {
    SubSelf(origin);
    SubSelf(originVel);
  }

  /**
   * `try_get_component(ReferenceFrameManager)` (its answer is `existing`),
   * falling back to a new manager attached to the environment.
   */
  method AcquireManager(env: SimEnvironment, existing: Option<ReferenceFrameManager>) returns (m: ReferenceFrameManager)
    modifies env`components, env.events
    ensures existing.Some? ==> m == existing.value && env.components == old(env.components) && unchanged(env.events)
    ensures existing.None? ==>
      && fresh(m) && m.originBody == null
      && m.base in env.components && m.base.environment == env
  {
    if existing.Some? {
      return existing.value;
    }
    m := new ReferenceFrameManager();
    var _ := env.AttachComponent(m.base);
  }

  class ReferenceFrame {
    /** The MonoBehavior part. */
    const base: Component
    var rigidbody: RigidBody?
    var manager: ReferenceFrameManager?
    var positionOffset: Vec2
    var velocityOffset: Vec2

    constructor ()
      ensures fresh(base) && base.kind == MonoBehavior && base.simObject == null && !base.isSetUp
      ensures rigidbody == null && manager == null
    {
      base := new Component(MonoBehavior);
      rigidbody := null;
      manager := null;
      positionOffset := Zero;
      velocityOffset := Zero;
    }

    /** The transform this frame moves: `rigidbody.sim_object.transform`. */
    function Target(): Component?
      reads this`rigidbody, BaseOf(rigidbody)`simObject, ObjectOf(rigidbody)`transform
    {
      TransformOfBody(rigidbody)
    }

    function BodyOf(): Body?
      reads this`rigidbody
    {
      if rigidbody == null then null else rigidbody.body
    }

    /** The event system of the frame's environment. */
    function Bus(): EventSystem?
      reads base`simObject, if base.simObject == null then {} else {base.simObject}
    {
      if base.simObject == null || base.simObject.environment == null then null else base.simObject.environment.events
    }

    /**
     * `_start`: finds its RigidBody (`found`), zeroes the offsets, uses the
     * environment's ReferenceFrameManager (`existing`) or creates and
     * attaches one, then subscribes both handlers.
     */
    method Start(found: Option<RigidBody>, existing: Option<ReferenceFrameManager>) returns (r: Outcome)
      modifies this`rigidbody, this`manager, this`positionOffset, this`velocityOffset
      modifies if base.simObject == null || base.simObject.environment == null then {} else {base.simObject.environment}
      modifies BusSet(Bus())
      ensures base.simObject == null ==> r == Fail(AttributeError)
      ensures base.simObject != null && found.None? ==> r == Fail(ValueError)
      ensures r == Pass ==>
        && found.Some? && rigidbody == found.value
        && positionOffset == Zero && velocityOffset == Zero
        && Bus() != null && manager != null
        && CalculateOffsetListener(this) in ListenersOf(Bus().listeners, CalculateOffset)
        && UpdateValuesListener(this) in ListenersOf(Bus().listeners, UpdateValues)
      ensures r == Pass && existing.Some? ==>
        && manager == existing.value
        && Bus().listeners == Subscribe(Subscribe(old(Bus().listeners),
             CalculateOffset, CalculateOffsetListener(this)), UpdateValues, UpdateValuesListener(this))
      ensures r == Pass && existing.None? ==>
        && fresh(manager) && manager.originBody == null
        && manager.base in base.simObject.environment.components
        && manager.base.environment == base.simObject.environment
    {
      var so := base.simObject;
      if so == null {
        return Fail(AttributeError);
      }
      if found.None? {
        return Fail(ValueError);
      }
      rigidbody := found.value;
      positionOffset := Zero;
      velocityOffset := Zero;
      var env := so.environment;
      if env == null {
        return Fail(AttributeError);
      }
      manager := AcquireManager(env, existing);
      var bus := env.events;
      r := bus.AddListener(CalculateOffset, Callable(CalculateOffsetListener(this)));
      r := bus.AddListener(UpdateValues, Callable(UpdateValuesListener(this)));
    }

    /** The ReferenceFrameCalculateOffsetEvent handler: copies the origin's position and velocity. */
    method HandleCalculateOffset() returns (r: Outcome)
      modifies this`positionOffset, this`velocityOffset
      ensures manager == null || manager.originBody == null || manager.OriginTransform() == null ==>
        r == Fail(AttributeError) && positionOffset == old(positionOffset) && velocityOffset == old(velocityOffset)
      ensures manager != null && manager.originBody != null && manager.OriginTransform() != null ==>
        && r == Pass
        && positionOffset == manager.OriginTransform().position
        && velocityOffset == manager.originBody.body.velocity
    {
      if manager == null || manager.originBody == null {
        return Fail(AttributeError);
      }
      var origin := manager.originBody;
      var t := TransformOfBody(origin);
      if t == null {
        return Fail(AttributeError);
      }
      positionOffset := t.position;
      velocityOffset := origin.body.velocity;
      r := Pass;
    }

    /** The ReferenceFrameUpdateValuesEvent handler: subtracts the offsets from its own position and velocity. */
    method HandleUpdateValues() returns (r: Outcome)
      modifies (if Target() == null then {} else {Target()})`position, (if rigidbody == null then {} else {rigidbody.body})`velocity
      ensures Target() == old(Target())
      ensures Target() == null ==> r == Fail(AttributeError)
      ensures rigidbody == null ==> r == Fail(AttributeError)
      ensures r.Fail? ==> r.error == AttributeError
      ensures r == Pass ==>
        && Target() != null && rigidbody != null
        && Target().position == Sub(old(Target().position), positionOffset)
        && rigidbody.body.velocity == Sub(old(rigidbody.body.velocity), velocityOffset)
      ensures r.Fail? ==>
        && (Target() != null ==> Target().position == old(Target().position))
        && (rigidbody != null ==> rigidbody.body.velocity == old(rigidbody.body.velocity))
    {
      var t := Target();
      if t == null {
        return Fail(AttributeError);
      }
      t.SetPosition(Sub(t.position, positionOffset));
      var v := Sub(rigidbody.body.velocity, velocityOffset);
      r := rigidbody.SetVelocity([v.x, v.y]);
    }

    /**
     * `_on_destroy`: removes both handlers. It replaces the MonoBehavior
     * teardown, so `_end` is not run and the update handler stays subscribed.
     */
    method OnDestroy() returns (r: Outcome)
      modifies BusSet(Bus())
      ensures Bus() == null ==> r == Fail(AttributeError)
      ensures Bus() != null ==>
        && (r == Pass <==>
             && CalculateOffsetListener(this) in ListenersOf(old(Bus().listeners), CalculateOffset)
             && UpdateValuesListener(this) in ListenersOf(old(Bus().listeners), UpdateValues))
        && (r.Fail? ==> r.error == KeyError)
        && ListenersOf(Bus().listeners, EnvironmentUpdate) == ListenersOf(old(Bus().listeners), EnvironmentUpdate)
    {
      var bus := Bus();
      if bus == null {
        return Fail(AttributeError);
      }
      r := bus.RemoveListener(CalculateOffset, CalculateOffsetListener(this));
      if r.Fail? {
        return;
      }
      r := bus.RemoveListener(UpdateValues, UpdateValuesListener(this));
    }
  }
}
