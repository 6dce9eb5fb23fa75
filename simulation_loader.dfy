/**
 * `SimulationLoader`: rebuilds a scene from the decoded JSON of a saved
 * simulation. It first destroys the bodies of the current scene, applies the
 * time and camera settings field by field, then validates every body of the
 * new scene and builds it, and only when all of them passed attaches them and
 * makes the body whose id matches `origin_id` the reference-frame origin.
 */
module Loader {
  import opened Wrappers
  import opened Values
  import opened Vectors
  import opened Simulation
  import opened Physics
  import opened Timing
  import opened Rendering
  import opened ReferenceFrames
  import opened Forces
  import opened Events

  // ---------------------------------------------------------------------
  // Field predicates
  // ---------------------------------------------------------------------

  /**
   * `__is_positive_number`: an int or float (a bool counts) that is finite
   * and not below zero. Zero qualifies.
   */
  function IsPositiveNumber(v: Value): (r: bool)
    ensures r <==> IsFiniteNumber(v) && AsReal(v) >= 0.0
  {
    if !IsIntOrFloat(v) then false
    else if !IsFinite(v).value then false
    else if IsNegative(v) then false
    else true
  }

  /** Zero, `False` and floats of zero are all "positive" to the loader. */
  lemma ZeroIsPositiveNumber()
    ensures IsPositiveNumber(Int(0)) && IsPositiveNumber(Float(0.0)) && IsPositiveNumber(Bool(false))
    ensures !IsPositiveNumber(NaN) && !IsPositiveNumber(Infinity(true)) && !IsPositiveNumber(Str("1"))
  {
  }

  /**
   * `__is_vector_compatible`: a list of exactly two finite numbers.
   * `math.isfinite` raises TypeError on a non-number, and the `and` stops at
   * a non-finite first item, so a list of two can raise instead of answering.
   */
  function IsVectorCompatible(v: Value): (r: Result<bool>)
    ensures r == Ok(true) <==>
      v.List? && |v.items| == 2 && IsFiniteNumber(v.items[0]) && IsFiniteNumber(v.items[1])
    ensures r.Err? <==>
      && v.List? && |v.items| == 2
      && (!IsIntOrFloat(v.items[0]) || (IsFiniteNumber(v.items[0]) && !IsIntOrFloat(v.items[1])))
    ensures r.Err? ==> r.error == TypeError
  {
    if !v.List? then Ok(false)
    else if |v.items| != 2 then Ok(false)
    else
      var first := IsFinite(v.items[0]);
      if first.Err? then Err(first.error)
      else if !first.value then Ok(false)
      else
        var second := IsFinite(v.items[1]);
        if second.Err? then Err(second.error)
        else Ok(second.value)
  }

  // ---------------------------------------------------------------------
  // Body parameters
  // ---------------------------------------------------------------------

  /** The keys `__validate_body_parameters` reads with `parameters[key]`, in order. */
  const RequiredKeys: seq<string> := [
    "name", "initial_position", "initial_velocity", "mass", "radius",
    "is_attractor", "min_screen_radius", "draw_layer", "color"]

  /**
   * The keyword parameters of `get_celestial_body` that a parameters dict may
   * fill; `config` and `camera` are passed by the loader itself.
   */
  const CelestialKeywords: set<string> := {
    "name", "initial_position", "initial_velocity", "mass", "radius",
    "is_attractor", "min_screen_radius", "color", "draw_layer"}

  /** The value at `key`, or None when the key is absent, as `.get(key, None)`. */
  predicate AbsentOrNone(d: map<string, Value>, key: string) {
    Get(d, key).NoneValue?
  }

  /**
   * What a valid parameters dict is, stated condition by condition and
   * independently of the order of the checks. `colour` is whether
   * `pygame.Color` accepts the colour value.
   */
  ghost predicate ValidParameters(p: Value, colour: Value -> Outcome) {
    && p.Dict?
    && (forall k :: k in RequiredKeys ==> k in p.entries)
    && p.entries["name"].Str?
    && IsVectorCompatible(p.entries["initial_position"]) == Ok(true)
    && IsVectorCompatible(p.entries["initial_velocity"]) == Ok(true)
    && IsPositiveNumber(p.entries["mass"])
    && IsPositiveNumber(p.entries["radius"])
    && p.entries["is_attractor"].Bool?
    && IsInt(p.entries["min_screen_radius"]) && AsReal(p.entries["min_screen_radius"]) >= 0.0
    && IsInt(p.entries["draw_layer"]) && 1.0 <= AsReal(p.entries["draw_layer"]) <= 3.0
    && (AbsentOrNone(p.entries, "draw_trail") || p.entries["draw_trail"].Bool?)
    && (AbsentOrNone(p.entries, "trail_vertex_distance") || IsPositiveNumber(p.entries["trail_vertex_distance"]))
    && colour(p.entries["color"]) == Pass
  }

  /** A vector check as an outcome: TypeError when it fails or raises. */
  function VectorCheck(v: Value): (r: Outcome)
    ensures r == Pass <==> IsVectorCompatible(v) == Ok(true)
    ensures r.Fail? ==> r.error == TypeError
  {
    var c := IsVectorCompatible(v);
    if c.Err? then Fail(c.error) else if c.value then Pass else Fail(TypeError)
  }

  /**
   * `__validate_body_parameters`: the checks in source order; the first
   * failing one raises. A missing key raises KeyError when it is reached;
   * anything but a dict cannot be subscripted by a string (TypeError).
   */
  function ValidateBodyParameters(p: Value, colour: Value -> Outcome): (r: Outcome)
    ensures r == Pass <==> ValidParameters(p, colour)
    ensures !p.Dict? ==> r == Fail(TypeError)
    ensures p.Dict? && "name" !in p.entries ==> r == Fail(KeyError)
    ensures p.Dict? && "name" in p.entries && !p.entries["name"].Str? ==> r == Fail(TypeError)
    ensures r.Fail? && r.error != TypeError && r.error != KeyError && r.error != ValueError ==>
      p.Dict? && "color" in p.entries && r == colour(p.entries["color"])
  {
    if !p.Dict? then Fail(TypeError)
    else
      var d := p.entries;
      if "name" !in d then Fail(KeyError)
      else if !d["name"].Str? then Fail(TypeError)
      else if "initial_position" !in d then Fail(KeyError)
      else if VectorCheck(d["initial_position"]).Fail? then Fail(TypeError)
      else if "initial_velocity" !in d then Fail(KeyError)
      else if VectorCheck(d["initial_velocity"]).Fail? then Fail(TypeError)
      else if "mass" !in d then Fail(KeyError)
      else if !IsPositiveNumber(d["mass"]) then Fail(TypeError)
      else if "radius" !in d then Fail(KeyError)
      else if !IsPositiveNumber(d["radius"]) then Fail(TypeError)
      else if "is_attractor" !in d then Fail(KeyError)
      else if !d["is_attractor"].Bool? then Fail(TypeError)
      else if "min_screen_radius" !in d then Fail(KeyError)
      else if !IsInt(d["min_screen_radius"]) then Fail(TypeError)
      else if !(AsReal(d["min_screen_radius"]) >= 0.0) then Fail(ValueError)
      else if "draw_layer" !in d then Fail(KeyError)
      else if !IsInt(d["draw_layer"]) then Fail(TypeError)
      else if !(1.0 <= AsReal(d["draw_layer"]) <= 3.0) then Fail(ValueError)
      else if !AbsentOrNone(d, "draw_trail") && !d["draw_trail"].Bool? then Fail(TypeError)
      else if !AbsentOrNone(d, "trail_vertex_distance") && !IsPositiveNumber(d["trail_vertex_distance"]) then Fail(ValueError)
      else if "color" !in d then Fail(KeyError)
      else colour(d["color"])
  }

  /**
   * What `get_celestial_body(config=..., camera=..., **parameters)` accepts:
   * a keyword it does not declare is a TypeError. A validated dict already
   * holds every keyword, so this leaves exactly the nine of them.
   */
  predicate BuilderAccepts(p: map<string, Value>) {
    p.Keys <= CelestialKeywords
  }

  /**
   * One entry of `bodies` up to the point where its body is built:
   * `body.get("id")` (AttributeError on a non-dict), `body["parameters"]`,
   * the validation, then the builder's keyword check.
   */
  function BodyCheck(body: Value, colour: Value -> Outcome): (r: Outcome)
    ensures !body.Dict? ==> r == Fail(AttributeError)
    ensures body.Dict? && "parameters" !in body.entries ==> r == Fail(KeyError)
  {
    if !body.Dict? then Fail(AttributeError)
    else if "parameters" !in body.entries then Fail(KeyError)
    else
      var p := body.entries["parameters"];
      var v := ValidateBodyParameters(p, colour);
      if v.Fail? then v
      else if !BuilderAccepts(p.entries) then Fail(TypeError)
      else Pass
  }

  /**
   * An entry passes exactly when it is a dict whose parameters are valid and
   * name exactly the builder's keywords.
   */
  lemma BodyCheckPasses(body: Value, colour: Value -> Outcome)
    ensures BodyCheck(body, colour) == Pass <==>
      && body.Dict? && "parameters" in body.entries
      && ValidParameters(body.entries["parameters"], colour)
      && body.entries["parameters"].entries.Keys == CelestialKeywords
  {
    if body.Dict? && "parameters" in body.entries {
      var p := body.entries["parameters"];
      if BodyCheck(body, colour) == Pass {
        assert ValidParameters(p, colour);
        assert forall k :: k in CelestialKeywords ==> k in RequiredKeys;
        assert CelestialKeywords <= p.entries.Keys;
      }
      if ValidParameters(p, colour) && p.entries.Keys == CelestialKeywords {
        assert ValidateBodyParameters(p, colour) == Pass;
        assert BuilderAccepts(p.entries);
      }
    }
  }

  /** The name of an entry that passed its check; empty for any other value. */
  function NameOf(body: Value): string {
    if body.Dict? && "parameters" in body.entries && body.entries["parameters"].Dict?
       && "name" in body.entries["parameters"].entries && body.entries["parameters"].entries["name"].Str?
    then body.entries["parameters"].entries["name"].s
    else ""
  }

  /**
   * The optional trail keys pass validation but are not keywords of the
   * builder, so a body that carries either of them never loads: the
   * builder's TypeError when it is otherwise valid.
   */
  lemma TrailOptionsNeverLoad(p: Value, colour: Value -> Outcome)
    requires p.Dict? && ("draw_trail" in p.entries || "trail_vertex_distance" in p.entries)
    ensures BodyCheck(Dict(map["parameters" := p]), colour).Fail?
    ensures ValidParameters(p, colour) ==> BodyCheck(Dict(map["parameters" := p]), colour) == Fail(TypeError)
  {
  }

  // ---------------------------------------------------------------------
  // Python equality and the origin
  // ---------------------------------------------------------------------

  /** `a == b` for two ints or floats: by value, NaN equal to nothing. */
  predicate NumbersEqual(a: Value, b: Value)
    requires IsIntOrFloat(a) && IsIntOrFloat(b)
  {
    if a.NaN? || b.NaN? then false
    else if a.Infinity? || b.Infinity? then a == b
    else AsReal(a) == AsReal(b)
  }

  /**
   * Python's `==` on decoded JSON values: numbers across bool, int and float
   * by value, lists item by item, dicts key by key; any other object only
   * equals itself, which a decoded value never is.
   */
  predicate PyEquals(a: Value, b: Value) {
    if IsIntOrFloat(a) && IsIntOrFloat(b) then NumbersEqual(a, b)
    else match (a, b)
      case (NoneValue, NoneValue) => true
      case (Str(x), Str(y)) => x == y
      case (List(xs), List(ys)) => |xs| == |ys| && forall i :: 0 <= i < |xs| ==> PyEquals(xs[i], ys[i])
      case (Dict(m), Dict(n)) => m.Keys == n.Keys && forall k :: k in m ==> PyEquals(m[k], n[k])
      case _ => false
  }

  /** Python equality is symmetric on these values. */
  lemma {:induction false} PyEqualsSymmetric(a: Value, b: Value)
    ensures PyEquals(a, b) <==> PyEquals(b, a)
    decreases a
  {
    match (a, b)
    case (List(xs), List(ys)) =>
      if |xs| == |ys| {
        forall i | 0 <= i < |xs|
          ensures PyEquals(xs[i], ys[i]) <==> PyEquals(ys[i], xs[i])
        {
          PyEqualsSymmetric(xs[i], ys[i]);
        }
      }
    case (Dict(m), Dict(n)) =>
      if m.Keys == n.Keys {
        forall k | k in m
          ensures PyEquals(m[k], n[k]) <==> PyEquals(n[k], m[k])
        {
          PyEqualsSymmetric(m[k], n[k]);
        }
      }
    case _ =>
  }

  /** Ints, the ids a saved scene carries, are equal exactly when they are the same number. */
  lemma IntIdsEqual(x: int, y: int)
    ensures PyEquals(Int(x), Int(y)) <==> x == y
  {
  }

  /** `origin_id is not None and body_id is not None and origin_id == body_id`. */
  predicate IdMatches(body: Value, originId: Value) {
    && body.Dict?
    && !originId.NoneValue?
    && !Get(body.entries, "id").NoneValue?
    && PyEquals(originId, Get(body.entries, "id"))
  }

  /**
   * The index of the body that becomes the origin: each match overwrites the
   * previous one, so it is the last body whose id equals `origin_id`.
   */
  function OriginIndex(bodies: seq<Value>, originId: Value): (r: Option<nat>)
    ensures r.Some? ==> r.value < |bodies| && IdMatches(bodies[r.value], originId)
    ensures r.Some? ==> forall j :: r.value < j < |bodies| ==> !IdMatches(bodies[j], originId)
    ensures r.None? <==> forall j :: 0 <= j < |bodies| ==> !IdMatches(bodies[j], originId)
  {
    if |bodies| == 0 then None
    else if IdMatches(bodies[|bodies| - 1], originId) then Some(|bodies| - 1)
    else OriginIndex(bodies[..|bodies| - 1], originId)
  }

  /** Without an `origin_id` the scene has no origin, whatever the ids of the bodies. */
  lemma NoOriginIdNoOrigin(bodies: seq<Value>)
    ensures OriginIndex(bodies, NoneValue) == None
  {
  }

  /** Looking at one more body: it becomes the origin when its id matches. */
  lemma OriginIndexStep(bodies: seq<Value>, i: nat, originId: Value)
    requires i < |bodies|
    ensures OriginIndex(bodies[..i + 1], originId) ==
      if IdMatches(bodies[i], originId) then Some(i) else OriginIndex(bodies[..i], originId)
  {
    assert bodies[..i + 1][..i] == bodies[..i];
  }

  /** The rigid body chosen as origin among the built ones, or none. */
  function OriginOf(i: Option<nat>, rbs: seq<RigidBody>): RigidBody? {
    if i.Some? && i.value < |rbs| then rbs[i.value] else null
  }

  // ---------------------------------------------------------------------
  // Time settings and camera fields
  // ---------------------------------------------------------------------

  /** Warnings the loader shows in a message window instead of raising. */
  datatype Warning =
    | WrongDt | WrongStepsPerFrame | WrongPaused
    | WrongUnitsPerPixel | WrongPosition
    | CouldNotLoad(error: Error)

  /** Python `v >= 0` for an int or float: false for NaN and -inf. */
  predicate AtLeastZero(v: Value)
    requires IsIntOrFloat(v)
  {
    !v.NaN? && !IsNegative(v)
  }

  /** Python `v > 0` for an int or float. */
  predicate AboveZero(v: Value)
    requires IsIntOrFloat(v)
  {
    match v
    case NaN => false
    case Infinity(positive) => positive
    case _ => AsReal(v) > 0.0
  }

  /** The integer an int (or bool) stands for. */
  function AsInt(v: Value): int
    requires IsInt(v)
  {
    if v.Int? then v.i else if v.b then 1 else 0
  }

  predicate DtAccepted(v: Value) { IsIntOrFloat(v) && AtLeastZero(v) }
  predicate StepsAccepted(v: Value) { IsInt(v) && AsInt(v) >= 0 }
  predicate UnitsAccepted(v: Value) { IsIntOrFloat(v) && AboveZero(v) }

  /** `dt` after `__set_time_settings`: an accepted finite number replaces it. */
  function DtAfter(current: real, v: Value): real {
    if DtAccepted(v) && IsFiniteNumber(v) then AsReal(v) else current
  }

  /** `steps_per_frame` after `__set_time_settings`. */
  function StepsAfter(current: int, v: Value): int {
    if StepsAccepted(v) then AsInt(v) else current
  }

  /** A warning when the field is present and rejected. */
  function WarnUnless(present: bool, accepted: bool, w: Warning): seq<Warning> {
    if present && !accepted then [w] else []
  }

  /** The warnings `__set_time_settings` shows for a dict, in order. */
  function TimeWarnings(d: map<string, Value>): (w: seq<Warning>)
    ensures WrongDt in w <==> !Get(d, "dt").NoneValue? && !DtAccepted(Get(d, "dt"))
    ensures WrongStepsPerFrame in w <==> !Get(d, "steps_per_frame").NoneValue? && !StepsAccepted(Get(d, "steps_per_frame"))
    ensures WrongPaused in w <==> !Get(d, "paused").NoneValue? && !Get(d, "paused").Bool?
    ensures |w| <= 3
  {
    WarnUnless(!Get(d, "dt").NoneValue?, DtAccepted(Get(d, "dt")), WrongDt)
    + WarnUnless(!Get(d, "steps_per_frame").NoneValue?, StepsAccepted(Get(d, "steps_per_frame")), WrongStepsPerFrame)
    + WarnUnless(!Get(d, "paused").NoneValue?, Get(d, "paused").Bool?, WrongPaused)
  }

  /** A valid field never warns, whatever the others hold. */
  lemma ValidTimeSettingsDoNotWarn(dt: real, steps: nat, paused: bool)
    ensures TimeWarnings(map["dt" := Float(dt), "steps_per_frame" := Int(steps), "paused" := Bool(paused)]) == [] <==> dt >= 0.0
  {
    var d := map["dt" := Float(dt), "steps_per_frame" := Int(steps), "paused" := Bool(paused)];
    assert Get(d, "dt") == Float(dt);
  }

  // ---------------------------------------------------------------------
  // Clearing the scene
  // ---------------------------------------------------------------------

  /** The objects that carry one of the given Attraction components. */
  ghost function Attracting(os: set<SimObject>, attractions: set<Component>): set<SimObject>
    reads os
  {
    set o | o in os && o.components * attractions != {}
  }

  /** Every object of the environment points back to it and owns its components. */
  ghost predicate Attached(env: SimEnvironment)
    reads env, env.simObjects, ComponentsOf(env.simObjects)
  {
    forall o :: o in env.simObjects ==> o.environment == env && o.Owns()
  }

  // ---------------------------------------------------------------------
  // Building bodies
  // ---------------------------------------------------------------------

  /** `pygame.Vector2` of a list of two finite numbers. */
  function VectorOf(v: Value): Vec2
    requires IsVectorCompatible(v) == Ok(true)
  {
    Vec2(AsReal(v.items[0]), AsReal(v.items[1]))
  }

  /** The parameters dict of an entry that passed `BodyCheck`. */
  function ParametersOf(body: Value): map<string, Value>
    requires body.Dict? && "parameters" in body.entries && body.entries["parameters"].Dict?
  {
    body.entries["parameters"].entries
  }

  /**
   * `get_celestial_body` with the parts this model has: a Transform at the
   * initial position, a dynamic RigidBody moving at the initial velocity
   * whose one shape has the given mass and elasticity 0, and an Attraction,
   * all attached to a new SimObject tagged with the name.
   */
  method BuildBody(name: string, position: Vec2, velocity: Vec2, mass: real, isAttractor: bool)
    returns (o: SimObject, rb: RigidBody, att: Attraction)
    ensures fresh(o) && fresh(rb) && fresh(att) && fresh(o.components)
    ensures o.Owns() && o.environment == null && o.tag == name
    ensures o.transform != null && o.components == {o.transform, rb.base, att.force.base}
    ensures o.transform.position == position
    ensures rb.body.bodyType == Dynamic && rb.body.velocity == velocity
    ensures exists s: Shape :: rb.shapes == {s} && s.mass == mass && s.elasticity == 0.0
    ensures att.isAttractor == isAttractor
  {
    var t := new Component(Transform);
    t.SetPosition(position);
    var shape := new Shape(mass, 0.0);
    rb := new RigidBody([shape], Dynamic);
    assert Elements([shape]) == {shape};
    var _ := rb.SetVelocity([velocity.x, velocity.y]);
    att := new Attraction(isAttractor);
    var comps := [t, rb.base, att.force.base];
    assert comps[0] == t && comps[1] == rb.base && comps[2] == att.force.base;
    assert Elements(comps) == {t, rb.base, att.force.base};
    var made := SimObject.New(name, comps);
    o := made.value;
  }

  /** Appending a rigid body does not move an origin that is already among the others. */
  lemma OriginOfExtend(i: Option<nat>, rbs: seq<RigidBody>, rb: RigidBody)
    requires i.Some? ==> i.value < |rbs|
    ensures OriginOf(i, rbs + [rb]) == OriginOf(i, rbs)
    ensures OriginOf(Some(|rbs|), rbs + [rb]) == rb
  {
  }

  /** Entry `i` is the first entry that fails its check. */
  ghost predicate FirstFailure(bodies: seq<Value>, i: nat, colour: Value -> Outcome)
    requires i < |bodies|
  {
    BodyCheck(bodies[i], colour).Fail? && forall j :: 0 <= j < i ==> BodyCheck(bodies[j], colour) == Pass
  }

  /** Built objects own their components and share none of them. */
  ghost predicate Separate(objs: seq<SimObject>)
    reads Elements(objs), ComponentsOf(Elements(objs))
  {
    && (forall i :: 0 <= i < |objs| ==> objs[i].Owns())
    && (forall i, j :: 0 <= i < j < |objs| ==> objs[i] != objs[j] && objs[i].components !! objs[j].components)
  }

  /**
   * The first `|built|` entries passed their checks, and each built object is
   * unattached, carries the rigid body at the same index and is tagged with
   * the entry's name.
   */
  ghost predicate BuiltFrom(bodies: seq<Value>, built: seq<SimObject>, rbs: seq<RigidBody>, colour: Value -> Outcome)
    reads Elements(built)
  {
    && |built| == |rbs| <= |bodies|
    && forall k :: 0 <= k < |built| ==>
         && BodyCheck(bodies[k], colour) == Pass
         && built[k].environment == null
         && rbs[k].base in built[k].components
         && built[k].tag == NameOf(bodies[k])
  }

  /** Building the next entry extends `BuiltFrom` by one. */
  lemma BuiltFromExtend(bodies: seq<Value>, built: seq<SimObject>, rbs: seq<RigidBody>, colour: Value -> Outcome,
                        o: SimObject, rb: RigidBody)
    requires BuiltFrom(bodies, built, rbs, colour) && |built| < |bodies|
    requires BodyCheck(bodies[|built|], colour) == Pass
    requires o.environment == null && rb.base in o.components && o.tag == NameOf(bodies[|built|])
    ensures BuiltFrom(bodies, built + [o], rbs + [rb], colour)
  {
    var b, r := built + [o], rbs + [rb];
    forall k | 0 <= k < |b|
      ensures BodyCheck(bodies[k], colour) == Pass && b[k].environment == null && r[k].base in b[k].components
      ensures b[k].tag == NameOf(bodies[k])
    {
      if k < |built| {
        assert b[k] == built[k] && r[k] == rbs[k];
      }
    }
  }

  /** How far `__load_from_dict` got before it returned or raised. */
  datatype Stage = Parsing | Clearing | Settings | Bodies | ScaleFactor | Done

  // ---------------------------------------------------------------------
  // The loader
  // ---------------------------------------------------------------------

  class SimulationLoader {
    /** The EnvironmentComponent part. */
    const base: Component
    const env: SimEnvironment
    /** The components `setup` looks up in the environment. */
    const timeSettings: TimeSettings
    const camera: Camera
    const manager: ReferenceFrameManager
    /** Whether `pygame.Color` accepts a value. */
    const colour: Value -> Outcome
    /** `pygame.Vector2(value)`. */
    const toVector: Value -> Result<Vec2>
    /** The message windows shown, in order. */
    var warnings: seq<Warning>
    /** The VelocityController's `scale_factor`. */
    var velocityScale: Value

    constructor (env: SimEnvironment, timeSettings: TimeSettings, camera: Camera, manager: ReferenceFrameManager,
                 colour: Value -> Outcome, toVector: Value -> Result<Vec2>)
      ensures this.env == env && this.timeSettings == timeSettings && this.camera == camera && this.manager == manager
      ensures this.colour == colour && this.toVector == toVector
      ensures warnings == [] && velocityScale == NoneValue
      ensures fresh(base) && base.kind == EnvironmentComponent
    {
      base := new Component(EnvironmentComponent);
      this.env := env;
      this.timeSettings := timeSettings;
      this.camera := camera;
      this.manager := manager;
      this.colour := colour;
      this.toVector := toVector;
      warnings := [];
      velocityScale := NoneValue;
    }
      /** The components the loader looks up are environment-level, never parts of a sim object. */
    ghost predicate Valid()
      reads this, env, env.simObjects, ComponentsOf(env.simObjects)
    {
      && Attached(env)
      && timeSettings.base !in ComponentsOf(env.simObjects)
    }

    /**
     * `__set_time_settings`: `.get` on each field, and every present field
     * is applied when it has the right type and range and warned about
     * otherwise, whatever the other fields hold. `paused` goes through the
     * announcing setter.
     */
    method SetTimeSettings(cfg: Value) returns (r: Outcome)
      modifies this`warnings, timeSettings`dt, timeSettings`stepsPerFrame, timeSettings`paused, timeSettings.Bus()
      ensures !cfg.Dict? ==>
        && r == Fail(AttributeError) && warnings == old(warnings)
        && timeSettings.dt == old(timeSettings.dt) && timeSettings.stepsPerFrame == old(timeSettings.stepsPerFrame)
        && timeSettings.paused == old(timeSettings.paused)
      ensures cfg.Dict? ==> warnings == old(warnings) + TimeWarnings(cfg.entries)
      ensures cfg.Dict? ==> timeSettings.dt == DtAfter(old(timeSettings.dt), Get(cfg.entries, "dt"))
      ensures cfg.Dict? ==> timeSettings.stepsPerFrame == StepsAfter(old(timeSettings.stepsPerFrame), Get(cfg.entries, "steps_per_frame"))
      ensures cfg.Dict? ==>
        timeSettings.paused == (if Get(cfg.entries, "paused").Bool? then Get(cfg.entries, "paused").b else old(timeSettings.paused))
      ensures cfg.Dict? && Get(cfg.entries, "paused").Bool? && timeSettings.Bus() == null ==> r == Fail(AttributeError)
      ensures cfg.Dict? && Get(cfg.entries, "paused").Bool? && timeSettings.Bus() != null ==>
        && r == Pass
        && timeSettings.Bus().raised ==
             old(timeSettings.Bus().raised) + [Event(if Get(cfg.entries, "paused").b then Pause else Unpause)]
      ensures !(cfg.Dict? && Get(cfg.entries, "paused").Bool?) ==> timeSettings.Bus() == null || unchanged(timeSettings.Bus())
      ensures cfg.Dict? && !Get(cfg.entries, "paused").Bool? ==> r == Pass
    {
      if !cfg.Dict? {
        return Fail(AttributeError);
      }
      SetStepFields(cfg.entries);
      r := SetPausedField(cfg.entries);
    }

    /** The `dt` and `steps_per_frame` parts of `__set_time_settings`. */
    method SetStepFields(d: map<string, Value>)
      modifies this`warnings, timeSettings`dt, timeSettings`stepsPerFrame
      ensures warnings == old(warnings)
        + WarnUnless(!Get(d, "dt").NoneValue?, DtAccepted(Get(d, "dt")), WrongDt)
        + WarnUnless(!Get(d, "steps_per_frame").NoneValue?, StepsAccepted(Get(d, "steps_per_frame")), WrongStepsPerFrame)
      ensures timeSettings.dt == DtAfter(old(timeSettings.dt), Get(d, "dt"))
      ensures timeSettings.stepsPerFrame == StepsAfter(old(timeSettings.stepsPerFrame), Get(d, "steps_per_frame"))
    {
      var dt := Get(d, "dt");
      var steps := Get(d, "steps_per_frame");
      if !dt.NoneValue? {
        if DtAccepted(dt) {
          if IsFiniteNumber(dt) {
            timeSettings.dt := AsReal(dt);
          }
        } else {
          warnings := warnings + [WrongDt];
        }
      }
      if !steps.NoneValue? {
        if StepsAccepted(steps) {
          timeSettings.stepsPerFrame := AsInt(steps);
        } else {
          warnings := warnings + [WrongStepsPerFrame];
        }
      }
    }

    /** The `paused` part of `__set_time_settings`. */
    method SetPausedField(d: map<string, Value>) returns (r: Outcome)
      modifies this`warnings, timeSettings`paused, timeSettings.Bus()
      ensures warnings == old(warnings) + WarnUnless(!Get(d, "paused").NoneValue?, Get(d, "paused").Bool?, WrongPaused)
      ensures timeSettings.paused == (if Get(d, "paused").Bool? then Get(d, "paused").b else old(timeSettings.paused))
      ensures Get(d, "paused").Bool? && timeSettings.Bus() == null ==> r == Fail(AttributeError)
      ensures Get(d, "paused").Bool? && timeSettings.Bus() != null ==>
        && r == Pass
        && timeSettings.Bus().raised == old(timeSettings.Bus().raised) + [Event(if Get(d, "paused").b then Pause else Unpause)]
      ensures !Get(d, "paused").Bool? ==> r == Pass && (timeSettings.Bus() == null || unchanged(timeSettings.Bus()))
    {
      var paused := Get(d, "paused");
      r := Pass;
      if !paused.NoneValue? {
        if paused.Bool? {
          r := timeSettings.SetPaused(paused.b);
        } else {
          warnings := warnings + [WrongPaused];
        }
      }
    }

    /**
     * `__set_camera`: a present `units_per_pixel` is stored when it is an int
     * or float above zero; a present `position` is converted, and only a
     * ValueError from the conversion becomes a warning.
     */
    method SetCamera(cfg: Value) returns (r: Outcome)
      modifies this`warnings, camera`unitsPerPixel, camera`position
      ensures !cfg.Dict? ==>
        && r == Fail(AttributeError) && warnings == old(warnings)
        && camera.unitsPerPixel == old(camera.unitsPerPixel) && camera.position == old(camera.position)
      ensures cfg.Dict? ==>
        var upp := Get(cfg.entries, "units_per_pixel");
        && camera.unitsPerPixel == (if UnitsAccepted(upp) then upp else old(camera.unitsPerPixel))
        && (UnitsAccepted(upp) ==> ScaleAccepted(camera.unitsPerPixel))
      ensures cfg.Dict? ==>
        var pos := Get(cfg.entries, "position");
        && (pos.NoneValue? ==> r == Pass && camera.position == old(camera.position))
        && (!pos.NoneValue? && toVector(pos).Ok? ==> r == Pass && camera.position == toVector(pos).value)
        && (!pos.NoneValue? && toVector(pos).Err? ==>
              && camera.position == old(camera.position)
              && (if toVector(pos).error == ValueError then r == Pass else r == Fail(toVector(pos).error)))
      ensures cfg.Dict? ==>
        var upp := Get(cfg.entries, "units_per_pixel");
        var pos := Get(cfg.entries, "position");
        warnings == old(warnings)
          + WarnUnless(!upp.NoneValue?, UnitsAccepted(upp), WrongUnitsPerPixel)
          + WarnUnless(!pos.NoneValue?, toVector(pos) != Err(ValueError), WrongPosition)
    {
      if !cfg.Dict? {
        return Fail(AttributeError);
      }
      var upp := Get(cfg.entries, "units_per_pixel");
      var pos := Get(cfg.entries, "position");
      if !upp.NoneValue? {
        if UnitsAccepted(upp) {
          var _ := camera.SetUnitsPerPixel(upp);
        } else {
          warnings := warnings + [WrongUnitsPerPixel];
        }
      }
      r := Pass;
      if !pos.NoneValue? {
        var v := toVector(pos);
        if v.Ok? {
          camera.position := v.value;
        } else if v.error == ValueError {
          warnings := warnings + [WrongPosition];
        } else {
          r := Fail(v.error);
        }
      }
    }

    /**
     * `__clear_current_simulation`: over a copy of the object set, destroys
     * every object that carries one of `attractions`, the environment's
     * Attraction components. The teardown is the corrected `destroy`.
     */
    method ClearCurrentSimulation(attractions: set<Component>) returns (r: Outcome)
      requires Attached(env)
      modifies env`simObjects, env.events, env.simObjects, ComponentsOf(env.simObjects)
      ensures r == Pass ==> env.simObjects == old(env.simObjects) - old(Attracting(env.simObjects, attractions))
      ensures r == Pass ==> Attached(env)
    {
      ghost var doomed := Attracting(env.simObjects, attractions);
      ghost var start := env.simObjects;
      var rest := env.simObjects;
      while rest != {}
        invariant rest <= env.simObjects <= old(env.simObjects)
        invariant env.simObjects == start - (doomed - rest)
        invariant Attached(env)
        invariant forall o :: o in rest ==> o.components == old(o.components)
        decreases |rest|
      {
        var o :| o in rest;
        r := ClearOne(o, attractions, rest, doomed, start);
        if r.Fail? {
          return;
        }
        rest := rest - {o};
      }
      r := Pass;
    }

    /** One iteration of the clearing loop: destroy `o` if it carries an Attraction. */
    method ClearOne(o: SimObject, attractions: set<Component>,
                    ghost rest: set<SimObject>, ghost doomed: set<SimObject>, ghost start: set<SimObject>)
      returns (r: Outcome)
      requires Attached(env) && o in rest && rest <= env.simObjects
      requires o in doomed <==> o.components * attractions != {}
      requires env.simObjects == start - (doomed - rest)
      modifies o`components, o`environment, o.components, env.events, env`simObjects
      ensures r == Pass ==> env.simObjects == start - (doomed - (rest - {o})) && Attached(env)
      ensures r == Pass ==> rest - {o} <= env.simObjects
      ensures forall q :: q in rest - {o} ==> q.components == old(q.components)
    {
      r := Pass;
      if o.components * attractions != {} {
        r := DestroyAttached(o, rest - {o});
        assert doomed - (rest - {o}) == (doomed - rest) + {o};
      } else {
        assert doomed - (rest - {o}) == doomed - rest;
      }
    }

    /** One object's corrected `destroy`, leaving the other attached objects as they were. */
    method DestroyAttached(o: SimObject, ghost others: set<SimObject>) returns (r: Outcome)
      requires Attached(env) && o in env.simObjects && o !in others && others <= env.simObjects
      modifies o`components, o`environment, o.components, env.events, env`simObjects
      ensures r == Pass ==> env.simObjects == old(env.simObjects) - {o} && Attached(env)
      ensures forall q :: q in others ==> q.components == old(q.components)
    {
      r := o.Destroy();
    }
    /**
     * The first loop of `__load_bodies`: each entry is checked and built in
     * turn, and the first failing entry stops it. The origin is updated at
     * every match, so the last match wins.
     */
    method BuildBodies(bodies: seq<Value>, originId: Value)
      returns (r: Outcome, built: seq<SimObject>, rbs: seq<RigidBody>, origin: RigidBody?)
      ensures r.Fail? <==> exists i :: 0 <= i < |bodies| && BodyCheck(bodies[i], colour).Fail?
      ensures r.Fail? ==> exists i :: 0 <= i < |bodies| && FirstFailure(bodies, i, colour) && r == BodyCheck(bodies[i], colour)
      ensures r == Pass ==> |built| == |bodies| && Separate(built) && BuiltFrom(bodies, built, rbs, colour)
      ensures r == Pass ==> forall i :: 0 <= i < |built| ==> fresh(built[i]) && fresh(built[i].components)
      ensures r == Pass ==> origin == OriginOf(OriginIndex(bodies, originId), rbs)
    {
      built, rbs, origin := [], [], null;
      var i := 0;
      while i < |bodies|
        invariant 0 <= i <= |bodies| && |built| == i
        invariant Separate(built) && BuiltFrom(bodies, built, rbs, colour)
        invariant forall k :: 0 <= k < i ==> fresh(built[k]) && fresh(built[k].components)
        invariant origin == OriginOf(OriginIndex(bodies[..i], originId), rbs)
      {
        var check := BodyCheck(bodies[i], colour);
        if check.Fail? {
          assert FirstFailure(bodies, i, colour);
          return check, built, rbs, origin;
        }
        built, rbs, origin := BuildNext(bodies, originId, built, rbs, origin);
        i := i + 1;
      }
      assert bodies[..i] == bodies;
      r := Pass;
    }

    /** One pass of the first loop of `__load_bodies` over an entry that passed its check. */
    method BuildNext(bodies: seq<Value>, originId: Value, built: seq<SimObject>, rbs: seq<RigidBody>, origin: RigidBody?)
      returns (built': seq<SimObject>, rbs': seq<RigidBody>, origin': RigidBody?)
      requires |built| < |bodies| && BodyCheck(bodies[|built|], colour) == Pass
      requires Separate(built) && BuiltFrom(bodies, built, rbs, colour)
      requires origin == OriginOf(OriginIndex(bodies[..|built|], originId), rbs)
      ensures |built'| == |built| + 1 && built'[..|built|] == built && fresh(built'[|built|]) && fresh(built'[|built|].components)
      ensures Separate(built') && BuiltFrom(bodies, built', rbs', colour)
      ensures origin' == OriginOf(OriginIndex(bodies[..|built'|], originId), rbs')
    {
      var i := |built|;
      var o, rb := BuildEntry(bodies[i], built);
      BuiltFromExtend(bodies, built, rbs, colour, o, rb);
      OriginIndexStep(bodies, i, originId);
      OriginOfExtend(OriginIndex(bodies[..i], originId), rbs, rb);
      built', rbs', origin' := built + [o], rbs + [rb], origin;
      if IdMatches(bodies[i], originId) {
        origin' := rb;
      }
      assert built'[..i] == built;
    }

    /** One built entry, separate from the objects built before it. */
    method BuildEntry(body: Value, ghost built: seq<SimObject>) returns (o: SimObject, rb: RigidBody)
      requires BodyCheck(body, colour) == Pass && Separate(built)
      ensures fresh(o) && fresh(o.components) && Separate(built + [o])
      ensures o.environment == null && rb.base in o.components && o.tag == NameOf(body)
    {
      BodyCheckPasses(body, colour);
      var p := ParametersOf(body);
      var att;
      o, rb, att := BuildBody(p["name"].s, VectorOf(p["initial_position"]), VectorOf(p["initial_velocity"]),
                              AsReal(p["mass"]), p["is_attractor"].b);
      ghost var all := built + [o];
      assert forall k :: 0 <= k < |built| ==> all[k] == built[k];
      assert all[|built|] == o;
    }

    /** The second loop of `__load_bodies`: `attach_sim_object` on each built object. */
    method AttachAll(objs: seq<SimObject>)
      requires forall k :: 0 <= k < |objs| ==> objs[k].Owns()
      modifies env`simObjects, env.events, Elements(objs)`environment
      modifies ComponentsOf(Elements(objs))`isSetUp, ComponentsOf(Elements(objs))`hooks
      ensures env.simObjects == old(env.simObjects) + Elements(objs)
      ensures forall i :: 0 <= i < |objs| ==> objs[i].environment == env
      ensures forall i :: 0 <= i < |objs| ==> objs[i].components == old(objs[i].components) && objs[i].tag == old(objs[i].tag)
      ensures env.events.raised == old(env.events.raised)
    {
      var i := 0;
      while i < |objs|
        invariant 0 <= i <= |objs|
        invariant env.simObjects == old(env.simObjects) + Elements(objs[..i])
        invariant forall k :: 0 <= k < i ==> objs[k].environment == env
        invariant forall k :: 0 <= k < |objs| ==> objs[k].components == old(objs[k].components) && objs[k].tag == old(objs[k].tag)
        invariant forall k :: 0 <= k < |objs| ==> objs[k].Owns()
        invariant env.events.raised == old(env.events.raised)
      {
        var _ := env.AttachSimObject(objs[i]);
        assert objs[..i + 1] == objs[..i] + [objs[i]];
        i := i + 1;
      }
      assert objs[..i] == objs;
    }

    /**
     * `__load_bodies`: every entry is checked and built before any is
     * attached, so a failing entry leaves the scene and the origin as they
     * were; otherwise all are attached and the origin is the rigid body of
     * the last entry whose id equals `origin_id`, or none.
     */
    method LoadBodies(bodies: seq<Value>, originId: Value) returns (r: Outcome, built: seq<SimObject>, rbs: seq<RigidBody>)
      modifies env`simObjects, env.events, manager`originBody
      ensures r.Fail? <==> exists i :: 0 <= i < |bodies| && BodyCheck(bodies[i], colour).Fail?
      ensures r.Fail? ==> exists i :: 0 <= i < |bodies| && FirstFailure(bodies, i, colour) && r == BodyCheck(bodies[i], colour)
      ensures r.Fail? ==>
        && env.simObjects == old(env.simObjects) && manager.originBody == old(manager.originBody)
        && unchanged(env.events)
      ensures r == Pass ==> |built| == |rbs| == |bodies| && env.simObjects == old(env.simObjects) + Elements(built)
      ensures r == Pass ==> forall i :: 0 <= i < |built| ==>
        && fresh(built[i]) && built[i].environment == env && rbs[i].base in built[i].components
        && BodyCheck(bodies[i], colour) == Pass && built[i].tag == NameOf(bodies[i])
      ensures r == Pass ==> manager.originBody == OriginOf(OriginIndex(bodies, originId), rbs)
      ensures env.events.raised == old(env.events.raised)
    {
      var origin;
      r, built, rbs, origin := BuildBodies(bodies, originId);
      if r.Fail? {
        return;
      }
      assert forall k :: 0 <= k < |built| ==> built[k].Owns();
      AttachAll(built);
      manager.originBody := origin;
    }

    /**
     * The settings part of `__load_from_dict`: a present `time_settings` goes
     * to `__set_time_settings`, then a present `camera_settings` to
     * `__set_camera`. An exception stops it.
     */
    method ApplySettings(d: map<string, Value>) returns (r: Outcome)
      modifies this`warnings, timeSettings`dt, timeSettings`stepsPerFrame, timeSettings`paused, timeSettings.Bus()
      modifies camera`unitsPerPixel, camera`position
      ensures Get(d, "time_settings").Dict? ==>
        var ts := Get(d, "time_settings").entries;
        && timeSettings.dt == DtAfter(old(timeSettings.dt), Get(ts, "dt"))
        && timeSettings.stepsPerFrame == StepsAfter(old(timeSettings.stepsPerFrame), Get(ts, "steps_per_frame"))
      ensures !Get(d, "time_settings").Dict? ==>
        timeSettings.dt == old(timeSettings.dt) && timeSettings.stepsPerFrame == old(timeSettings.stepsPerFrame)
      ensures !Get(d, "time_settings").NoneValue? && !Get(d, "time_settings").Dict? ==> r == Fail(AttributeError)
      ensures r == Pass && Get(d, "camera_settings").Dict? ==>
        var upp := Get(Get(d, "camera_settings").entries, "units_per_pixel");
        camera.unitsPerPixel == (if UnitsAccepted(upp) then upp else old(camera.unitsPerPixel))
      ensures r == Pass && !Get(d, "camera_settings").Dict? ==> Get(d, "camera_settings").NoneValue?
      ensures Get(d, "camera_settings").NoneValue? || (!Get(d, "time_settings").NoneValue? && !Get(d, "time_settings").Dict?) ==>
        camera.unitsPerPixel == old(camera.unitsPerPixel) && camera.position == old(camera.position)
    {
      var ts := Get(d, "time_settings");
      var cs := Get(d, "camera_settings");
      r := Pass;
      if !ts.NoneValue? {
        r := SetTimeSettings(ts);
        if r.Fail? {
          return;
        }
      }
      if !cs.NoneValue? {
        r := SetCamera(cs);
      }
    }

    /**
     * The rest of `__load_from_dict`: `simulation_dict["bodies"]` must be a
     * list; `__load_bodies`; then a present `velocity_vector_scale_factor`
     * must pass `__is_positive_number` and is stored.
     */
    method LoadSceneBodies(d: map<string, Value>)
      returns (r: Outcome, stage: Stage, built: seq<SimObject>, rbs: seq<RigidBody>)
      modifies env`simObjects, env.events, manager`originBody, this`velocityScale
      ensures "bodies" !in d ==> r == Fail(KeyError) && stage == Bodies
      ensures "bodies" in d && !d["bodies"].List? ==> r == Fail(TypeError) && stage == Bodies
      ensures stage == Bodies ==>
        && r.Fail? && env.simObjects == old(env.simObjects) && manager.originBody == old(manager.originBody)
      ensures stage != Bodies ==>
        && "bodies" in d && d["bodies"].List?
        && (forall i :: 0 <= i < |d["bodies"].items| ==> BodyCheck(d["bodies"].items[i], colour) == Pass)
        && env.simObjects == old(env.simObjects) + Elements(built)
        && |built| == |rbs| == |d["bodies"].items|
        && (forall i :: 0 <= i < |built| ==>
              && fresh(built[i]) && built[i].environment == env && rbs[i].base in built[i].components
              && built[i].tag == NameOf(d["bodies"].items[i]))
        && manager.originBody == OriginOf(OriginIndex(d["bodies"].items, Get(d, "origin_id")), rbs)
      ensures "bodies" in d && d["bodies"].List? ==>
        (stage == Bodies <==> exists i :: 0 <= i < |d["bodies"].items| && BodyCheck(d["bodies"].items[i], colour).Fail?)
      ensures stage == ScaleFactor ==> r == Fail(TypeError) && velocityScale == old(velocityScale)
      ensures stage == Done ==> r == Pass
      ensures stage == Done && !Get(d, "velocity_vector_scale_factor").NoneValue? ==>
        IsPositiveNumber(Get(d, "velocity_vector_scale_factor")) && velocityScale == Get(d, "velocity_vector_scale_factor")
      ensures stage != Done ==> velocityScale == old(velocityScale)
      ensures stage == Bodies || stage == ScaleFactor || stage == Done
      ensures env.events.raised == old(env.events.raised)
    {
      built, rbs := [], [];
      stage := Bodies;
      if "bodies" !in d {
        return Fail(KeyError), stage, built, rbs;
      }
      var bodies := d["bodies"];
      if !bodies.List? {
        return Fail(TypeError), stage, built, rbs;
      }
      r, built, rbs := LoadBodies(bodies.items, Get(d, "origin_id"));
      if r.Fail? {
        return;
      }
      stage := ScaleFactor;
      var scale := Get(d, "velocity_vector_scale_factor");
      if !scale.NoneValue? {
        if !IsPositiveNumber(scale) {
          return Fail(TypeError), stage, built, rbs;
        }
        velocityScale := scale;
      }
      stage := Done;
    }

    /**
     * `__load_from_dict`. The current scene is cleared first and the settings
     * are applied next, both before any body is looked at: a load that fails
     * on its bodies (`stage == Bodies`) has already destroyed the old bodies
     * and changed the time settings, so it is not all-or-nothing.
     */
    method LoadFromDict(cfg: Value, attractions: set<Component>)
      returns (r: Outcome, stage: Stage, built: seq<SimObject>, rbs: seq<RigidBody>)
      requires Valid()
      modifies env`simObjects, env.events, env.simObjects, ComponentsOf(env.simObjects)
      modifies this`warnings, this`velocityScale
      modifies timeSettings`dt, timeSettings`stepsPerFrame, timeSettings`paused, timeSettings.Bus()
      modifies camera`unitsPerPixel, camera`position, manager`originBody
      ensures r == Pass <==> stage == Done
      ensures stage != Parsing
      ensures stage == Clearing ==> r.Fail?
      ensures stage == Settings ==> r.Fail?
      ensures !cfg.Dict? && stage != Clearing ==> r == Fail(AttributeError) && stage == Settings
      ensures stage != Clearing ==> manager.originBody == old(manager.originBody) || stage == ScaleFactor || stage == Done
      // the old bodies are gone whenever the clearing finished, whatever happens next
      ensures stage == Settings || stage == Bodies ==>
        env.simObjects == old(env.simObjects) - old(Attracting(env.simObjects, attractions))
      // the time settings are applied before the bodies are validated
      ensures cfg.Dict? && Get(cfg.entries, "time_settings").Dict? && (stage == Bodies || stage == ScaleFactor || stage == Done) ==>
        var ts := Get(cfg.entries, "time_settings").entries;
        && timeSettings.dt == DtAfter(old(timeSettings.dt), Get(ts, "dt"))
        && timeSettings.stepsPerFrame == StepsAfter(old(timeSettings.stepsPerFrame), Get(ts, "steps_per_frame"))
      ensures stage == Bodies ==>
        && cfg.Dict? && manager.originBody == old(manager.originBody)
        && ("bodies" in cfg.entries && cfg.entries["bodies"].List? ==>
              exists i :: 0 <= i < |cfg.entries["bodies"].items| && BodyCheck(cfg.entries["bodies"].items[i], colour).Fail?)
      ensures stage == ScaleFactor || stage == Done ==>
        && cfg.Dict? && "bodies" in cfg.entries && cfg.entries["bodies"].List?
        && env.simObjects == old(env.simObjects) - old(Attracting(env.simObjects, attractions)) + Elements(built)
        && |built| == |rbs| == |cfg.entries["bodies"].items|
        && (forall i :: 0 <= i < |built| ==> built[i].environment == env && rbs[i].base in built[i].components)
        && manager.originBody == OriginOf(OriginIndex(cfg.entries["bodies"].items, Get(cfg.entries, "origin_id")), rbs)
    {
      built, rbs := [], [];
      stage := Clearing;
      r := ClearCurrentSimulation(attractions);
      if r.Fail? {
        return;
      }
      stage := Settings;
      if !cfg.Dict? {
        return Fail(AttributeError), stage, built, rbs;
      }
      r := ApplySettings(cfg.entries);
      if r.Fail? {
        return;
      }
      r, stage, built, rbs := LoadSceneBodies(cfg.entries);
    }

    /**
     * `load_simulation_from_json` once the file has been read: `decoded` is
     * the parsed JSON, or None when `json.loads` rejects the text (a
     * ValueError). A ValueError, TypeError or KeyError becomes one warning;
     * any other error propagates. A complete load announces itself with a
     * SimulationParametersChangedEvent.
     */
    method LoadSimulation(decoded: Option<Value>, attractions: set<Component>) returns (r: Outcome, stage: Stage)
      requires Valid()
      modifies env`simObjects, env.events, env.simObjects, ComponentsOf(env.simObjects)
      modifies this`warnings, this`velocityScale
      modifies timeSettings`dt, timeSettings`stepsPerFrame, timeSettings`paused, timeSettings.Bus()
      modifies camera`unitsPerPixel, camera`position, manager`originBody
      ensures decoded.None? <==> stage == Parsing
      ensures stage == Parsing ==>
        && r == Pass && warnings == old(warnings) + [CouldNotLoad(ValueError)]
        && env.simObjects == old(env.simObjects) && unchanged(env.events)
      ensures stage == Done ==>
        && r == Pass && |env.events.raised| > 0
        && env.events.raised[|env.events.raised| - 1] == Event(SimulationParametersChanged)
      ensures stage != Done && r == Pass ==>
        && |warnings| > 0 && warnings[|warnings| - 1].CouldNotLoad?
        && warnings[|warnings| - 1].error in {ValueError, TypeError, KeyError}
      ensures r.Fail? ==> stage != Done && r.error !in {ValueError, TypeError, KeyError}
    {
      if decoded.None? {
        warnings := warnings + [CouldNotLoad(ValueError)];
        return Pass, Parsing;
      }
      var built, rbs;
      r, stage, built, rbs := LoadFromDict(decoded.value, attractions);
      if r.Fail? {
        if r.error == ValueError || r.error == TypeError || r.error == KeyError {
          warnings := warnings + [CouldNotLoad(r.error)];
          r := Pass;
        }
        return;
      }
      var _ := env.events.RaiseEvent(Event(SimulationParametersChanged));
    }
  }
}
