/**
 * Saving a scene: the dictionary that `save_simulation_to_json` writes, built
 * from what the environment's components hold. Each body is saved under the
 * identity of its rigid body, and the origin under the identity of the
 * reference frame's origin body, so that loading the file picks the same
 * body as origin again.
 */
module Saving {
  import opened Wrappers
  import opened Values
  import opened Vectors
  import opened Loader

  /** What the save reads of a `CircleRenderer` (or of an instance of a subclass). */
  datatype RendererView = RendererView(
    exactlyCircle: bool,     // `type(r) is CircleRenderer`
    radius: real,
    minPixelRadius: int,
    color: seq<int>,
    layer: int)

  /** What the save reads of a rigid body; `id` is `id(rigidbody)`. */
  datatype BodyView = BodyView(id: int, velocity: Vec2, mass: real)

  /** What the save reads of one sim object. */
  datatype ObjectView = ObjectView(
    tag: string,
    position: Vec2,
    rigidbody: Option<BodyView>,          // `try_get_component(RigidBody)`
    circleRenderers: seq<RendererView>,   // `get_components(CircleRenderer)`, in set order
    attraction: Option<bool>)             // the `is_attractor` of `get_component(Attraction)`

  /** What the save reads of the time settings. */
  datatype TimeView = TimeView(dt: real, stepsPerFrame: int, paused: bool)

  /** What the save reads of the camera. */
  datatype CameraView = CameraView(unitsPerPixel: Value, position: Vec2)

  /**
   * What `get_simulation_dict` reads of the environment: the TimeSettings
   * and ReferenceFrameManager components (absent when the environment has
   * none), the manager's origin body, and the sim objects in set order.
   * `noneId` is `id(None)`.
   */
  datatype EnvView = EnvView(
    timeSettings: Option<TimeView>,
    hasFrameManager: bool,
    origin: Option<BodyView>,
    noneId: int,
    objects: seq<ObjectView>)

  function VectorValue(v: Vec2): Value {
    List([Float(v.x), Float(v.y)])
  }

  function ColorValue(c: seq<int>): (r: Value)
    ensures r.List? && |r.items| == |c|
  {
    List(seq(|c|, i requires 0 <= i < |c| => Int(c[i])))
  }

  /** The index of the first renderer whose class is exactly CircleRenderer. */
  function FirstExact(rs: seq<RendererView>): (r: Option<nat>)
    ensures r.Some? ==> r.value < |rs| && rs[r.value].exactlyCircle
    ensures r.Some? ==> forall j :: 0 <= j < r.value ==> !rs[j].exactlyCircle
    ensures r.None? <==> forall j :: 0 <= j < |rs| ==> !rs[j].exactlyCircle
  {
    if |rs| == 0 then None
    else if rs[0].exactlyCircle then Some(0)
    else match FirstExact(rs[1..])
      case None => None
      case Some(i) => Some(i + 1)
  }

  /** The `parameters` dict of a body. */
  function ParametersValue(o: ObjectView, rb: BodyView, r: RendererView, isAttractor: bool): map<string, Value> {
    map[
      "name" := Str(o.tag),
      "initial_position" := VectorValue(o.position),
      "initial_velocity" := VectorValue(rb.velocity),
      "mass" := Float(rb.mass),
      "radius" := Float(r.radius),
      "min_screen_radius" := Int(r.minPixelRadius),
      "is_attractor" := Bool(isAttractor),
      "color" := ColorValue(r.color),
      "draw_layer" := Int(r.layer)]
  }

  /** The saved entry of a body: its id and its parameters. */
  function EntryValue(o: ObjectView, rb: BodyView, r: RendererView, isAttractor: bool): Value {
    Dict(map["id" := Int(rb.id), "parameters" := Dict(ParametersValue(o, rb, r, isAttractor))])
  }

  /**
   * `get_body_dict`: None for an object without a rigid body; otherwise
   * `get_component(Attraction)` raises ValueError when there is none, and
   * with no renderer of exactly the CircleRenderer class `circle_renderer`
   * stays None and reading its radius raises AttributeError.
   */
  function GetBodyDict(o: ObjectView): (r: Result<Option<Value>>)
    ensures r == Ok(None) <==> o.rigidbody.None?
    ensures r == Err(ValueError) <==> o.rigidbody.Some? && o.attraction.None?
    ensures r == Err(AttributeError) <==>
      o.rigidbody.Some? && o.attraction.Some? && FirstExact(o.circleRenderers).None?
    ensures r.Ok? && r.value.Some? ==>
      var i := FirstExact(o.circleRenderers).value;
      && o.rigidbody.Some? && o.attraction.Some?
      && r.value.value == EntryValue(o, o.rigidbody.value, o.circleRenderers[i], o.attraction.value)
  {
    match o.rigidbody
    case None => Ok(None)
    case Some(rb) =>
      if o.attraction.None? then Err(ValueError)
      else match FirstExact(o.circleRenderers)
        case None => Err(AttributeError)
        case Some(i) => Ok(Some(EntryValue(o, rb, o.circleRenderers[i], o.attraction.value)))
  }

  /** The objects that carry a rigid body, in order. */
  function WithBodies(os: seq<ObjectView>): (r: seq<ObjectView>)
    ensures |r| <= |os|
    ensures forall i :: 0 <= i < |r| ==> r[i].rigidbody.Some? && r[i] in os
    ensures forall o :: o in os && o.rigidbody.Some? ==> o in r
  {
    if |os| == 0 then []
    else (if os[0].rigidbody.Some? then [os[0]] else []) + WithBodies(os[1..])
  }

  /** The loop of `get_simulation_dict` over the objects: an error stops it. */
  function SavedBodies(os: seq<ObjectView>): (r: Result<seq<Value>>)
    ensures r.Ok? ==> |r.value| == |WithBodies(os)|
  {
    if |os| == 0 then Ok([])
    else
      var first := GetBodyDict(os[0]);
      var rest := SavedBodies(os[1..]);
      if first.Err? then Err(first.error)
      else if rest.Err? then Err(rest.error)
      else if first.value.None? then Ok(rest.value)
      else Ok([first.value.value] + rest.value)
  }

  /** A successful save holds, in order, the body dict of each object that carries a rigid body. */
  lemma {:induction false} SavedBodiesAreBodyDicts(os: seq<ObjectView>)
    requires SavedBodies(os).Ok?
    ensures forall i :: 0 <= i < |SavedBodies(os).value| ==>
      GetBodyDict(WithBodies(os)[i]) == Ok(Some(SavedBodies(os).value[i]))
  {
    if |os| > 0 {
      var rest := SavedBodies(os[1..]);
      SavedBodiesAreBodyDicts(os[1..]);
      var ws := WithBodies(os[1..]);
      if os[0].rigidbody.Some? {
        var first := GetBodyDict(os[0]);
        assert WithBodies(os) == [os[0]] + ws;
        assert SavedBodies(os).value == [first.value.value] + rest.value;
      } else {
        assert WithBodies(os) == ws;
        assert SavedBodies(os).value == rest.value;
      }
    }
  }

  /**
   * `get_simulation_dict`: time settings verbatim, camera settings, the
   * origin's id and the bodies. A missing TimeSettings or
   * ReferenceFrameManager is a ValueError and a missing camera an
   * AttributeError, before any body is read.
   */
  function GetSimulationDict(env: EnvView, camera: Option<CameraView>): (r: Result<Value>)
    ensures env.timeSettings.None? ==> r == Err(ValueError)
    ensures env.timeSettings.Some? && camera.None? ==> r == Err(AttributeError)
    ensures r.Ok? <==> env.timeSettings.Some? && camera.Some? && env.hasFrameManager && SavedBodies(env.objects).Ok?
    ensures r.Ok? ==> r.value.Dict? && r.value.entries.Keys == {"origin_id", "time_settings", "camera_settings", "bodies"}
    ensures r.Ok? ==>
      var ts := env.timeSettings.value;
      r.value.entries["time_settings"] ==
        Dict(map["dt" := Float(ts.dt), "steps_per_frame" := Int(ts.stepsPerFrame), "paused" := Bool(ts.paused)])
    ensures r.Ok? ==> r.value.entries["bodies"] == List(SavedBodies(env.objects).value)
    ensures r.Ok? ==> r.value.entries["origin_id"] == Int(OriginId(env))
  {
    if env.timeSettings.None? then Err(ValueError)
    else if camera.None? then Err(AttributeError)
    else if !env.hasFrameManager then Err(ValueError)
    else
      var ts := env.timeSettings.value;
      var cam := camera.value;
      var bodies := SavedBodies(env.objects);
      if bodies.Err? then Err(bodies.error)
      else Ok(Dict(map[
        "origin_id" := Int(OriginId(env)),
        "time_settings" := Dict(map["dt" := Float(ts.dt), "steps_per_frame" := Int(ts.stepsPerFrame), "paused" := Bool(ts.paused)]),
        "camera_settings" := Dict(map["units_per_pixel" := cam.unitsPerPixel, "position" := VectorValue(cam.position)]),
        "bodies" := List(bodies.value)]))
  }

  /** `id(origin)`, which for no origin is `id(None)`. */
  function OriginId(env: EnvView): int {
    if env.origin.Some? then env.origin.value.id else env.noneId
  }

  // ---------------------------------------------------------------------
  // Properties of a saved scene
  // ---------------------------------------------------------------------

  /** A saved body names exactly the keyword parameters of the body builder. */
  lemma SavedKeysAreBuilderKeywords(o: ObjectView, rb: BodyView, r: RendererView, isAttractor: bool)
    ensures ParametersValue(o, rb, r, isAttractor).Keys == CelestialKeywords
  {
    var p := ParametersValue(o, rb, r, isAttractor);
    assert "name" in p && "initial_position" in p && "initial_velocity" in p && "mass" in p && "radius" in p;
    assert "is_attractor" in p && "min_screen_radius" in p && "color" in p && "draw_layer" in p;
  }

  /**
   * A saved body passes the loader's checks whenever its values are in the
   * loader's ranges, and it loads under the same name.
   */
  lemma SavedBodyPassesCheck(o: ObjectView, rb: BodyView, r: RendererView, isAttractor: bool, colour: Value -> Outcome)
    requires rb.mass >= 0.0 && r.radius >= 0.0 && r.minPixelRadius >= 0 && 1 <= r.layer <= 3
    requires colour(ColorValue(r.color)) == Pass
    ensures BodyCheck(EntryValue(o, rb, r, isAttractor), colour) == Pass
    ensures NameOf(EntryValue(o, rb, r, isAttractor)) == o.tag
  {
    var p := ParametersValue(o, rb, r, isAttractor);
    SavedKeysAreBuilderKeywords(o, rb, r, isAttractor);
    assert Get(p, "draw_trail") == NoneValue && Get(p, "trail_vertex_distance") == NoneValue;
    assert ValidateBodyParameters(Dict(p), colour) == Pass;
  }

  /** Every saved entry is a dict whose id is its rigid body's identity. */
  lemma SavedIds(os: seq<ObjectView>, i: nat)
    requires SavedBodies(os).Ok? && i < |SavedBodies(os).value|
    ensures var e := SavedBodies(os).value[i];
      e.Dict? && "id" in e.entries && e.entries["id"] == Int(WithBodies(os)[i].rigidbody.value.id)
  {
    SavedBodiesAreBodyDicts(os);
  }

  /** Distinct rigid bodies have distinct identities. */
  ghost predicate DistinctIds(os: seq<ObjectView>) {
    forall i, j ::
      && 0 <= i < |os| && 0 <= j < |os| && os[i].rigidbody.Some? && os[j].rigidbody.Some?
      && os[i].rigidbody.value.id == os[j].rigidbody.value.id
      ==> os[i] == os[j]
  }

  /**
   * The origin round trip: when the origin is the rigid body of one of the
   * saved objects, the loader's id match on the saved scene picks the entry
   * saved for that object.
   */
  lemma OriginRoundTrip(env: EnvView, camera: Option<CameraView>, k: nat)
    requires GetSimulationDict(env, camera).Ok? && DistinctIds(env.objects)
    requires k < |env.objects| && env.objects[k].rigidbody == env.origin && env.origin.Some?
    ensures var saved := GetSimulationDict(env, camera).value.entries;
      var j := OriginIndex(saved["bodies"].items, saved["origin_id"]);
      && j.Some?
      && WithBodies(env.objects)[j.value] == env.objects[k]
  {
    var saved := GetSimulationDict(env, camera).value.entries;
    var bodies := SavedBodies(env.objects).value;
    assert saved["bodies"].items == bodies;
    var id := env.origin.value.id;
    assert saved["origin_id"] == Int(id);
    assert env.objects[k] in WithBodies(env.objects);
    var m :| 0 <= m < |bodies| && WithBodies(env.objects)[m] == env.objects[k];
    SavedIds(env.objects, m);
    IntIdsEqual(id, id);
    assert IdMatches(bodies[m], Int(id));
    var j := OriginIndex(bodies, Int(id));
    assert j.Some?;
    SavedIds(env.objects, j.value);
    var w := WithBodies(env.objects)[j.value];
    IntIdsEqual(id, w.rigidbody.value.id);
    assert w in env.objects;
    var a :| 0 <= a < |env.objects| && env.objects[a] == w;
  }

  /**
   * Without an origin the saved id is `id(None)`, which no rigid body has,
   * so the loader restores no origin either.
   */
  lemma NoOriginRoundTrip(env: EnvView, camera: Option<CameraView>)
    requires GetSimulationDict(env, camera).Ok? && env.origin.None?
    requires forall i :: 0 <= i < |env.objects| && env.objects[i].rigidbody.Some? ==>
      env.objects[i].rigidbody.value.id != env.noneId
    ensures var saved := GetSimulationDict(env, camera).value.entries;
      OriginIndex(saved["bodies"].items, saved["origin_id"]).None?
  {
    var saved := GetSimulationDict(env, camera).value.entries;
    var bodies := SavedBodies(env.objects).value;
    assert saved["bodies"].items == bodies;
    forall j | 0 <= j < |bodies|
      ensures !IdMatches(bodies[j], Int(env.noneId))
    {
      SavedIds(env.objects, j);
      var w := WithBodies(env.objects)[j];
      IntIdsEqual(env.noneId, w.rigidbody.value.id);
      var a :| 0 <= a < |env.objects| && env.objects[a] == w;
    }
  }
}
