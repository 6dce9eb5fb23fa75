/**
 * The rendering base: the Camera, which owns one layer surface per layer
 * together with a flag saying whether anything was drawn on it since the
 * last clear, converts between world and screen coordinates, and renders a
 * frame; and the Renderer base class, which draws its sim object on its own
 * layer whenever the camera asks. Pixels are not modelled: a layer is
 * its index, and clearing and blitting a layer are logged by index.
 */
module Rendering {
  import opened Wrappers
  import opened Events
  import opened Vectors
  import opened Values
  import opened Helpers
  import opened Simulation
  import opened Physics

  /** The default scale, 1/80 world units per pixel, and the default layer count. */
  const DefaultUnitsPerPixel: real := 1.0 / 80.0
  const DefaultLayerCount: nat := 32

  // ---------------------------------------------------------------------
  // Scale arithmetic

  /**
   * Python's `1 / v` for a number `v`: a ZeroDivisionError at zero, a float
   * otherwise. `1 / nan` is nan and `1 / ±inf` is zero.
   */
  function Reciprocal(v: Value): (r: Result<Value>)
    ensures !IsIntOrFloat(v) ==> r == Err(TypeError)
    ensures IsFiniteNumber(v) ==> (r.Err? <==> AsReal(v) == 0.0)
    ensures r.Err? && IsIntOrFloat(v) ==> r.error == ZeroDivisionError
    ensures IsFiniteNumber(v) && AsReal(v) != 0.0 ==> r == Ok(Float(1.0 / AsReal(v)))
    ensures v.NaN? ==> r == Ok(NaN)
    ensures v.Infinity? ==> r == Ok(Float(0.0))
  {
    match v
    case Bool(b) => if b then Ok(Float(1.0)) else Err(ZeroDivisionError)
    case Int(i) => if i == 0 then Err(ZeroDivisionError) else Ok(Float(1.0 / i as real))
    case Float(f) => if f == 0.0 then Err(ZeroDivisionError) else Ok(Float(1.0 / f))
    case NaN => Ok(NaN)
    case Infinity(_) => Ok(Float(0.0))
    case _ => Err(TypeError)
  }

  lemma InverseOfInverse(x: real)
    requires x != 0.0
    ensures 1.0 / x != 0.0 && 1.0 / (1.0 / x) == x
  {
    var y := 1.0 / x;
    assert y * x == 1.0;
    var z := 1.0 / y;
    assert z * y == 1.0;
    assert z == z * (y * x) == (z * y) * x;
  }

  /** Taking the reciprocal twice gives back the value of a non-zero finite number. */
  lemma ReciprocalInvolutive(v: Value)
    requires IsFiniteNumber(v) && AsReal(v) != 0.0
    ensures Reciprocal(v).Ok? && Reciprocal(Reciprocal(v).value) == Ok(Float(AsReal(v)))
  {
    InverseOfInverse(AsReal(v));
    var w := Float(1.0 / AsReal(v));
    assert Reciprocal(v) == Ok(w);
    assert AsReal(w) == 1.0 / AsReal(v);
  }

  /** What the scale setters leave behind: a number that is not negative (zero, nan and +inf included). */
  predicate ScaleAccepted(v: Value) {
    IsIntOrFloat(v) && !IsNegative(v)
  }

  /** A scale of zero is accepted, and then the pixel scale divides by zero. */
  lemma ZeroScaleAccepted()
    ensures ValidatePositiveNumber(Int(0)) == Pass && ScaleAccepted(Int(0))
    ensures Reciprocal(Int(0)) == Err(ZeroDivisionError)
  {
  }

  /** The guard the scale setters evidently intend: a strictly positive number. */
  function ValidateScale(v: Value): (r: Outcome)
    ensures r == Pass ==> ValidatePositiveNumber(v) == Pass
    ensures IsFiniteNumber(v) ==> (r == Pass <==> AsReal(v) > 0.0)
    ensures !IsIntOrFloat(v) ==> r == Fail(TypeError)
  {
    match ValidatePositiveNumber(v)
    case Fail(e) => Fail(e)
    case Pass => if IsFiniteNumber(v) && AsReal(v) == 0.0 then Fail(ValueError) else Pass
  }

  /** Under the strict guard every accepted scale has a reciprocal. */
  lemma StrictScaleHasReciprocal(v: Value)
    requires ValidateScale(v) == Pass
    ensures Reciprocal(v).Ok?
  {
  }

  // ---------------------------------------------------------------------
  // Coordinates

  /** The centre of a `width` x `height` display, as a pygame rect reports it (integer halves). */
  function Center(width: nat, height: nat): (c: Vec2)
    ensures c.x >= 0.0 && c.y >= 0.0
    ensures 2.0 * c.x <= width as real < 2.0 * c.x + 2.0
    ensures 2.0 * c.y <= height as real < 2.0 * c.y + 2.0
  {
    Vec2((width / 2) as real, (height / 2) as real)
  }

  /**
   * `world_to_screen`: scale by pixels per unit, flip the y axis (world y
   * points up, screen y down), move the origin to the display centre and
   * shift by the camera offset.
   */
  function WorldToScreen(world: Vec2, ppu: real, center: Vec2, offset: Vec2): Vec2 {
    Vec2(world.x * ppu + center.x - offset.x, -(world.y * ppu) + center.y + offset.y)
  }

  /** `screen_to_world`: the conversion back, scaling by units per pixel. */
  function ScreenToWorld(screen: Vec2, upp: real, center: Vec2, offset: Vec2): Vec2 {
    Vec2((screen.x - center.x + offset.x) * upp, -(screen.y - center.y - offset.y) * upp)
  }

  /** Converting to the screen and back gives the world point again, for any non-zero scale and offset. */
  lemma ScreenToWorldInvertsWorldToScreen(world: Vec2, upp: real, center: Vec2, offset: Vec2)
    requires upp != 0.0
    ensures ScreenToWorld(WorldToScreen(world, 1.0 / upp, center, offset), upp, center, offset) == world
  {
    var ppu := 1.0 / upp;
    assert ppu * upp == 1.0;
    var s := WorldToScreen(world, ppu, center, offset);
    assert s.x - center.x + offset.x == world.x * ppu;
    assert (world.x * ppu) * upp == world.x * (ppu * upp);
    assert -(s.y - center.y - offset.y) == world.y * ppu;
    assert (world.y * ppu) * upp == world.y * (ppu * upp);
  }

  /** Converting to the world and back gives the screen point again. */
  lemma WorldToScreenInvertsScreenToWorld(screen: Vec2, upp: real, center: Vec2, offset: Vec2)
    requires upp != 0.0
    ensures WorldToScreen(ScreenToWorld(screen, upp, center, offset), 1.0 / upp, center, offset) == screen
  {
    var ppu := 1.0 / upp;
    assert upp * ppu == 1.0;
    var w := ScreenToWorld(screen, upp, center, offset);
    var dx := screen.x - center.x + offset.x;
    var dy := screen.y - center.y - offset.y;
    assert w.x * ppu == (dx * upp) * ppu == dx * (upp * ppu);
    assert w.y * ppu == (-dy * upp) * ppu == -dy * (upp * ppu);
  }

  /** The world origin is drawn at the display centre moved by the camera offset (x right, y up). */
  lemma OriginOnScreen(ppu: real, center: Vec2, offset: Vec2)
    ensures WorldToScreen(Zero, ppu, center, offset) == Vec2(center.x - offset.x, center.y + offset.y)
  {
  }

  // ---------------------------------------------------------------------
  // Layers

  /** Python's reading of a list index: negative indices count from the end. */
  function LayerIndex(index: int, n: nat): (r: Option<nat>)
    ensures r.Some? <==> -(n as int) <= index < n
    ensures r.Some? ==> r.value < n && (r.value == index || r.value == n + index)
  {
    if 0 <= index < n then Some(index)
    else if -(n as int) <= index < 0 then Some(n + index)
    else None
  }

  /** The indices of the set flags, in increasing order. */
  function ModifiedIndices(flags: seq<bool>): (r: seq<nat>)
    ensures forall k :: k in r <==> 0 <= k < |flags| && flags[k]
    ensures forall i, j :: 0 <= i < j < |r| ==> r[i] < r[j]
  {
    if flags == [] then []
    else
      var init := ModifiedIndices(flags[..|flags| - 1]);
      assert forall i :: 0 <= i < |init| ==> init[i] in init && init[i] < |flags| - 1;
      init + (if flags[|flags| - 1] then [|flags| - 1] else [])
  }

  /** The layers the active renderers among `rs` draw on. */
  function ActiveLayers(rs: seq<Renderer>): (r: set<nat>)
    reads rs
    ensures forall l :: l in r <==> exists j :: 0 <= j < |rs| && rs[j].isActive && rs[j].layer == l
  {
    if rs == [] then {}
    else
      var last := rs[|rs| - 1];
      var init := ActiveLayers(rs[..|rs| - 1]);
      assert forall j :: 0 <= j < |rs| - 1 ==> rs[..|rs| - 1][j] == rs[j];
      init + (if last.isActive then {last.layer} else {})
  }

  /** The display a camera draws on: a surface of some size, or any other value. */
  datatype DisplayArg = Surface(width: nat, height: nat) | NotASurface

  // ---------------------------------------------------------------------
  // Camera

  function RenderListener(c: Camera): Listener { Listener(c, OnRender) }

  class Camera {
    /** The EnvironmentComponent part. */
    const base: Component
    /** How far the camera is moved from the world origin, in pixels (x right, y up). */
    var position: Vec2
    /** The display's size. */
    var width: nat
    var height: nat
    var unitsPerPixel: Value
    /** One flag per layer: something was drawn on it since it was last cleared. */
    const layerModified: array<bool>
    /** The layers filled with the transparent colour, in order. */
    var cleared: seq<nat>
    /** The layers blitted onto the display, in order. */
    var blits: seq<nat>

    constructor (width: nat, height: nat, position: Vec2, unitsPerPixel: Value, n: nat)
      ensures fresh(base) && base.kind == EnvironmentComponent && base.environment == null && !base.isSetUp
      ensures this.width == width && this.height == height && this.position == position
      ensures this.unitsPerPixel == unitsPerPixel
      ensures fresh(layerModified) && layerModified.Length == n
      ensures forall i :: 0 <= i < n ==> !layerModified[i]
      ensures cleared == [] && blits == []
    {
      base := new Component(EnvironmentComponent);
      this.width := width;
      this.height := height;
      this.position := position;
      this.unitsPerPixel := unitsPerPixel;
      layerModified := new bool[n](_ => false);
      cleared := [];
      blits := [];
    }

    /** The event system reached through the owning environment. */
    function Bus(): EventSystem?
      reads base
    {
      if base.environment != null then base.environment.events else null
    }

    /** `setup`: subscribes the render handler. It does not call the base setup, so the flag stays as it was. */
    method Setup() returns (r: Outcome)
      modifies BusSet(Bus())
      ensures base.isSetUp == old(base.isSetUp)
      ensures Bus() == null ==> r == Fail(AttributeError)
      ensures Bus() != null ==>
        && r == Pass
        && Bus().listeners == Subscribe(old(Bus().listeners), Render, RenderListener(this))
        && Bus().raised == old(Bus().raised) && Bus().calls == old(Bus().calls)
    {
      var bus := Bus();
      if bus == null {
        return Fail(AttributeError);
      }
      r := bus.AddListener(Render, Callable(RenderListener(this)));
    }

    /** `_on_destroy`: unsubscribes the render handler; the camera stays among the environment's components. */
    method OnDestroy() returns (r: Outcome)
      modifies BusSet(Bus())
      ensures Bus() == null ==> r == Fail(AttributeError)
      ensures Bus() != null ==>
        && (r == Pass <==> RenderListener(this) in ListenersOf(old(Bus().listeners), Render))
        && (r == Pass ==> Bus().listeners == Unsubscribe(old(Bus().listeners), Render, RenderListener(this)))
        && (r.Fail? ==> r.error == KeyError && Bus().listeners == old(Bus().listeners))
        && RenderListener(this) !in ListenersOf(Bus().listeners, Render)
    {
      var bus := Bus();
      if bus == null {
        return Fail(AttributeError);
      }
      r := bus.RemoveListener(Render, RenderListener(this));
    }

    /** `display = value`: a TypeError unless the value is a surface. */
    method SetDisplay(d: DisplayArg) returns (r: Outcome)
      modifies this`width, this`height
      ensures d.NotASurface? ==> r == Fail(TypeError) && width == old(width) && height == old(height)
      ensures d.Surface? ==> r == Pass && width == d.width && height == d.height
    {
      if d.NotASurface? {
        return Fail(TypeError);
      }
      width, height := d.width, d.height;
      r := Pass;
    }

    /** `units_per_pixel = value`: stored as given once it passes `validate_positive_number`. */
    method SetUnitsPerPixel(v: Value) returns (r: Outcome)
      modifies this`unitsPerPixel
      ensures r == ValidatePositiveNumber(v)
      ensures r == Pass ==> unitsPerPixel == v && ScaleAccepted(unitsPerPixel)
      ensures r.Fail? ==> unitsPerPixel == old(unitsPerPixel)
      ensures r == Pass && IsFiniteNumber(v) && AsReal(v) == 0.0 ==> PixelsPerUnit() == Err(ZeroDivisionError)
    {
      r := ValidatePositiveNumber(v);
      if r == Pass {
        unitsPerPixel := v;
      }
    }

    /** `pixels_per_unit`: the reciprocal of the stored scale. */
    function PixelsPerUnit(): (r: Result<Value>)
      reads this
      ensures IsFiniteNumber(unitsPerPixel) && r.Ok? ==> r.value.Float? && r.value.f * AsReal(unitsPerPixel) == 1.0
      ensures IsFiniteNumber(unitsPerPixel) ==> (r == Err(ZeroDivisionError) <==> AsReal(unitsPerPixel) == 0.0)
    {
      Reciprocal(unitsPerPixel)
    }

    /**
     * `pixels_per_unit = value`: validated like the other scale, then stored
     * as its reciprocal; a zero passes the guard and then divides by zero.
     */
    method SetPixelsPerUnit(v: Value) returns (r: Outcome)
      modifies this`unitsPerPixel
      ensures ValidatePositiveNumber(v).Fail? ==> r == ValidatePositiveNumber(v)
      ensures IsFiniteNumber(v) && AsReal(v) == 0.0 ==> r == Fail(ZeroDivisionError)
      ensures r.Fail? ==> unitsPerPixel == old(unitsPerPixel)
      ensures r == Pass ==> Reciprocal(v) == Ok(unitsPerPixel) && ScaleAccepted(unitsPerPixel)
      ensures IsFiniteNumber(v) && AsReal(v) > 0.0 ==>
        && r == Pass && unitsPerPixel.Float?
        && PixelsPerUnit() == Ok(Float(AsReal(v)))
    {
      r := ValidatePositiveNumber(v);
      if r.Fail? {
        return;
      }
      var inv := Reciprocal(v);
      if inv.Err? {
        return Fail(inv.error);
      }
      unitsPerPixel := inv.value;
      if IsFiniteNumber(v) && AsReal(v) > 0.0 {
        ReciprocalInvolutive(v);
        assert unitsPerPixel.f * AsReal(v) == 1.0;
      }
    }

    /** `screen_to_world`: multiplies by the scale, so a zero scale maps every point to the origin. */
    function ToWorld(screen: Vec2): (r: Vec2)
      reads this
      requires IsFiniteNumber(unitsPerPixel)
      ensures AsReal(unitsPerPixel) == 0.0 ==> r == Zero
    {
      ScreenToWorld(screen, AsReal(unitsPerPixel), Center(width, height), position)
    }

    /** `world_to_screen`: a ZeroDivisionError when the scale is zero; otherwise `ToWorld` undoes it. */
    function ToScreen(world: Vec2): (r: Result<Vec2>)
      reads this
      requires IsFiniteNumber(unitsPerPixel)
      ensures r.Err? <==> AsReal(unitsPerPixel) == 0.0
      ensures r.Err? ==> r.error == ZeroDivisionError
      ensures r.Ok? ==> ToWorld(r.value) == world
    {
      match PixelsPerUnit()
      case Err(e) => Err(e)
      case Ok(ppu) =>
        ScreenToWorldInvertsWorldToScreen(world, AsReal(unitsPerPixel), Center(width, height), position);
        Ok(WorldToScreen(world, ppu.f, Center(width, height), position))
    }

    /**
     * `get_layer_for_rendering(index)`: marks the layer as modified; the
     * index is read the Python way, so -1 is the last layer.
     */
    method GetLayerForRendering(index: int) returns (r: Outcome)
      modifies layerModified
      ensures LayerIndex(index, layerModified.Length).None? ==>
        r == Fail(IndexError) && layerModified[..] == old(layerModified[..])
      ensures LayerIndex(index, layerModified.Length).Some? ==>
        && r == Pass
        && layerModified[..] == old(layerModified[..])[LayerIndex(index, layerModified.Length).value := true]
    {
      var k := LayerIndex(index, layerModified.Length);
      if k.None? {
        return Fail(IndexError);
      }
      layerModified[k.value] := true;
      r := Pass;
    }

    /** `__clear_layer_surfaces`: fills exactly the modified layers, in order, and resets their flags. */
    method ClearLayerSurfaces()
      modifies layerModified, this`cleared
      ensures cleared == old(cleared) + ModifiedIndices(old(layerModified[..]))
      ensures forall i :: 0 <= i < layerModified.Length ==> !layerModified[i]
    {
      ghost var before := layerModified[..];
      var i := 0;
      while i < layerModified.Length
        invariant 0 <= i <= layerModified.Length
        invariant cleared == old(cleared) + ModifiedIndices(before[..i])
        invariant forall k :: 0 <= k < i ==> !layerModified[k]
        invariant forall k :: i <= k < layerModified.Length ==> layerModified[k] == before[k]
      {
        assert before[..i + 1][..i] == before[..i];
        if layerModified[i] {
          cleared := cleared + [i];
          layerModified[i] := false;
        }
        i := i + 1;
      }
      assert before[..i] == before;
    }

    /** The last loop of `render_scene`: blits exactly the modified layers, in order. */
    method BlitModifiedLayers()
      modifies this`blits
      ensures blits == old(blits) + ModifiedIndices(layerModified[..])
    {
      var i := 0;
      while i < layerModified.Length
        invariant 0 <= i <= layerModified.Length
        invariant blits == old(blits) + ModifiedIndices(layerModified[..i])
      {
        assert layerModified[..i + 1][..i] == layerModified[..i];
        if layerModified[i] {
          blits := blits + [i];
        }
        i := i + 1;
      }
      assert layerModified[..i] == layerModified[..];
    }

    /**
     * The CameraRenderEvent reaching the renderers `rs` in turn: each is
     * called, and an active one marks its layer; the first active one whose
     * layer does not exist raises IndexError out of the event, so no later
     * renderer is called.
     */
    method DrawRenderers(rs: seq<Renderer>, bus: EventSystem) returns (r: Outcome)
      modifies layerModified, bus`calls
      ensures r == Pass <==> forall l :: l in ActiveLayers(rs) ==> l < layerModified.Length
      ensures r.Fail? ==> r.error == IndexError
      ensures r == Pass ==>
        && bus.calls == old(bus.calls) + CallsOf(RenderersListening(rs), Event(CameraRender))
        && forall k :: 0 <= k < layerModified.Length ==> (layerModified[k] <==> old(layerModified[k]) || k in ActiveLayers(rs))
      ensures r.Fail? ==> exists n :: (0 <= n < |rs| && FirstMissingLayer(rs, n, layerModified.Length)
        && bus.calls == old(bus.calls) + CallsOf(RenderersListening(rs)[..n + 1], Event(CameraRender)))
    {
      ghost var before := layerModified[..];
      ghost var logged := bus.calls;
      assert rs[..0] == [] && RenderersListening(rs)[..0] == [];
      var j := 0;
      while j < |rs|
        invariant 0 <= j <= |rs|
        invariant DrawnUpTo(rs, j, bus, before, logged)
      {
        r := DrawNext(rs, j, bus, before, logged);
        if r.Fail? {
          return;
        }
        j := j + 1;
      }
      assert rs[..j] == rs;
      assert RenderersListening(rs)[..j] == RenderersListening(rs);
      r := Pass;
    }

    /**
     * The renderers `rs[..j]` have been called, each logged after `logged`,
     * and have marked their layers over `before`, all of which exist.
     */
    ghost predicate DrawnUpTo(rs: seq<Renderer>, j: nat, bus: EventSystem, before: seq<bool>, logged: seq<Call>)
      requires j <= |rs|
      reads this, layerModified, bus, set r | r in rs
    {
      && |before| == layerModified.Length
      && (forall l :: l in ActiveLayers(rs[..j]) ==> l < layerModified.Length)
      && (forall k :: 0 <= k < layerModified.Length ==> (layerModified[k] <==> before[k] || k in ActiveLayers(rs[..j])))
      && bus.calls == logged + CallsOf(RenderersListening(rs)[..j], Event(CameraRender))
    }

    /** One listener call of the CameraRenderEvent, to `rs[j]`, once the renderers before it are drawn. */
    method DrawNext(rs: seq<Renderer>, j: nat, bus: EventSystem, ghost before: seq<bool>, ghost logged: seq<Call>)
      returns (r: Outcome)
      requires j < |rs| && DrawnUpTo(rs, j, bus, before, logged)
      modifies layerModified, bus`calls
      ensures r.Fail? <==> rs[j].isActive && rs[j].layer >= layerModified.Length
      ensures r.Fail? ==>
        && r == Fail(IndexError) && FirstMissingLayer(rs, j, layerModified.Length) && rs[j].layer in ActiveLayers(rs)
        && bus.calls == logged + CallsOf(RenderersListening(rs)[..j + 1], Event(CameraRender))
      ensures r == Pass ==> DrawnUpTo(rs, j + 1, bus, before, logged)
    {
      ghost var ls := RenderersListening(rs);
      assert rs[..j + 1][..j] == rs[..j];
      assert ls[..j + 1][..j] == ls[..j];
      bus.Invoke(CameraRenderListener(rs[j]), Event(CameraRender));
      r := rs[j].HandleRenderEvent(this);
      if r.Fail? {
        assert rs[j].layer in ActiveLayers(rs);
        FirstMissingAfterPrefix(rs, j, layerModified.Length);
      }
    }

    /**
     * `render_scene`: clears the modified layers, raises CameraRenderEvent,
     * which reaches the renderers `rs` in dispatch order, and then blits
     * the layers they drew on. A renderer whose layer does not exist raises
     * IndexError out of the event: the renderers after it are not called
     * and nothing is blitted. `rs` lists every renderer subscribed to the
     * event, once each.
     */
    method RenderScene(rs: seq<Renderer>) returns (r: Outcome)
      requires Bus() != null ==> IsEnumeration(RenderersListening(rs), ListenersOf(Bus().listeners, CameraRender))
      modifies layerModified, this`cleared, this`blits, BusSet(Bus())
      ensures cleared == old(cleared) + ModifiedIndices(old(layerModified[..]))
      ensures Bus() == null ==> r == Fail(AttributeError)
      ensures Bus() != null ==>
        && Bus().raised == old(Bus().raised) + [Event(CameraRender)]
        && Bus().listeners == old(Bus().listeners)
        && (r == Pass <==> forall l :: l in ActiveLayers(rs) ==> l < layerModified.Length)
        && (r.Fail? ==> r.error == IndexError)
      ensures Bus() != null && r == Pass ==>
        Bus().calls == old(Bus().calls) + CallsOf(RenderersListening(rs), Event(CameraRender))
      ensures Bus() != null && r.Fail? ==> exists n :: (0 <= n < |rs| && FirstMissingLayer(rs, n, layerModified.Length)
        && Bus().calls == old(Bus().calls) + CallsOf(RenderersListening(rs)[..n + 1], Event(CameraRender)))
      ensures r == Pass ==>
        && (forall i :: 0 <= i < layerModified.Length ==> (layerModified[i] <==> i in ActiveLayers(rs)))
        && blits == old(blits) + ModifiedIndices(layerModified[..])
      ensures r.Fail? ==> blits == old(blits)
    {
      ClearLayerSurfaces();
      var bus := Bus();
      if bus == null {
        return Fail(AttributeError);
      }
      bus.Announce(Event(CameraRender));
      r := DrawRenderers(rs, bus);
      if r.Fail? {
        return;
      }
      BlitModifiedLayers();
      r := Pass;
    }
  }

  /** For a non-zero scale every screen point is the image of the world point `ToWorld` gives. */
  lemma ToScreenInvertsToWorld(c: Camera, screen: Vec2)
    requires IsFiniteNumber(c.unitsPerPixel) && AsReal(c.unitsPerPixel) != 0.0
    ensures c.ToScreen(c.ToWorld(screen)) == Ok(screen)
  {
    WorldToScreenInvertsScreenToWorld(screen, AsReal(c.unitsPerPixel), Center(c.width, c.height), c.position);
  }

  /** The camera's arguments as `Camera(display, position, units_per_pixel, n_layers)` checks them:
      the scale first, then the layer count, and only then the display, whose `get_size()` is first
      called while the layers are created. */
  method NewCamera(display: DisplayArg, position: Vec2, unitsPerPixel: Value, n: int) returns (r: Result<Camera>)
    ensures ValidatePositiveNumber(unitsPerPixel).Fail? ==> r == Err(ValidatePositiveNumber(unitsPerPixel).error)
    ensures ValidatePositiveNumber(unitsPerPixel) == Pass && n < 1 ==> r == Err(ValueError)
    ensures ValidatePositiveNumber(unitsPerPixel) == Pass && n >= 1 && display.NotASurface? ==> r == Err(AttributeError)
    ensures r.Ok? <==> ValidatePositiveNumber(unitsPerPixel) == Pass && n >= 1 && display.Surface?
    ensures r.Ok? ==>
      && fresh(r.value) && fresh(r.value.layerModified)
      && r.value.unitsPerPixel == unitsPerPixel && r.value.position == position
      && r.value.layerModified.Length == n
      && (forall i :: 0 <= i < n ==> !r.value.layerModified[i])
  {
    var check := ValidatePositiveNumber(unitsPerPixel);
    if check.Fail? {
      return Err(check.error);
    }
    if n < 1 {
      return Err(ValueError);
    }
    if display.NotASurface? {
      return Err(AttributeError);
    }
    var c := new Camera(display.width, display.height, position, unitsPerPixel, n);
    r := Ok(c);
  }

  // ---------------------------------------------------------------------
  // Renderer

  function CameraRenderListener(rd: Renderer): Listener { Listener(rd, OnCameraRender) }

  /** `rs[n]` is the first active renderer of `rs` whose layer is not below `nLayers`. */
  ghost predicate FirstMissingLayer(rs: seq<Renderer>, n: int, nLayers: int)
    requires 0 <= n < |rs|
    reads rs
  {
    && rs[n].isActive && rs[n].layer >= nLayers
    && forall k :: 0 <= k < n && rs[k].isActive ==> rs[k].layer < nLayers
  }

  /** Once every active renderer before `n` has its layer, an active `rs[n]` without one is the first. */
  lemma FirstMissingAfterPrefix(rs: seq<Renderer>, n: int, nLayers: int)
    requires 0 <= n < |rs| && rs[n].isActive && rs[n].layer >= nLayers
    requires forall l :: l in ActiveLayers(rs[..n]) ==> l < nLayers
    ensures FirstMissingLayer(rs, n, nLayers)
  {
    forall k | 0 <= k < n && rs[k].isActive
      ensures rs[k].layer < nLayers
    {
      assert rs[..n][k] == rs[k];
      assert rs[..n][k].isActive && rs[..n][k].layer == rs[k].layer;
      assert rs[k].layer in ActiveLayers(rs[..n]);
    }
  }

  /** The CameraRenderEvent listeners of the renderers `rs`, in order. */
  function RenderersListening(rs: seq<Renderer>): seq<Listener> {
    seq(|rs|, i requires 0 <= i < |rs| => CameraRenderListener(rs[i]))
  }

  class Renderer {
    /** The SimObjectComponent part. */
    const base: Component
    var isActive: bool
    /** Lower layers are drawn first and may be hidden by higher ones. */
    var layer: nat

    constructor (layer: nat)
      ensures fresh(base) && base.kind == ObjectComponent && base.simObject == null && !base.isSetUp
      ensures isActive && this.layer == layer
    {
      base := new Component(ObjectComponent);
      isActive := true;
      this.layer := layer;
    }

    /** `is_active = value`: a TypeError unless the value is a bool. */
    method SetIsActive(v: Value) returns (r: Outcome)
      modifies this`isActive
      ensures v.Bool? ==> r == Pass && isActive == v.b
      ensures !v.Bool? ==> r == Fail(TypeError) && isActive == old(isActive)
    {
      if !v.Bool? {
        return Fail(TypeError);
      }
      isActive := v.b;
      r := Pass;
    }

    /** `layer = value`: a ValueError for a negative layer. */
    method SetLayer(v: int) returns (r: Outcome)
      modifies this`layer
      ensures v < 0 ==> r == Fail(ValueError) && layer == old(layer)
      ensures v >= 0 ==> r == Pass && layer == v
    {
      if v < 0 {
        return Fail(ValueError);
      }
      layer := v;
      r := Pass;
    }

    /** `setup`: subscribes the camera-render handler, then runs the base setup. */
    method Setup() returns (r: Outcome)
      modifies base`isSetUp, BusSet(ObjectBus(base))
      ensures ObjectBus(base) == null ==> r == Fail(AttributeError) && base.isSetUp == old(base.isSetUp)
      ensures ObjectBus(base) != null ==>
        && r == Pass && base.isSetUp
        && ObjectBus(base).listeners == Subscribe(old(ObjectBus(base).listeners), CameraRender, CameraRenderListener(this))
    {
      var bus := ObjectBus(base);
      if bus == null {
        return Fail(AttributeError);
      }
      r := bus.AddListener(CameraRender, Callable(CameraRenderListener(this)));
      base.isSetUp := true;
    }

    /**
     * The camera-render handler: nothing while inactive; otherwise it marks
     * its own layer on the camera (and draws on it).
     */
    method HandleRenderEvent(camera: Camera) returns (r: Outcome)
      modifies camera.layerModified
      ensures !isActive ==> r == Pass && camera.layerModified[..] == old(camera.layerModified[..])
      ensures isActive && layer < camera.layerModified.Length ==>
        r == Pass && camera.layerModified[..] == old(camera.layerModified[..])[layer := true]
      ensures isActive && layer >= camera.layerModified.Length ==>
        r == Fail(IndexError) && camera.layerModified[..] == old(camera.layerModified[..])
    {
      if !isActive {
        return Pass;
      }
      r := camera.GetLayerForRendering(layer);
    }

    /** `_on_destroy`: unsubscribes the camera-render handler; the component stays attached. */
    method OnDestroy() returns (r: Outcome)
      modifies BusSet(ObjectBus(base))
      ensures ObjectBus(base) == null ==> r == Fail(AttributeError)
      ensures ObjectBus(base) != null ==>
        && (r == Pass <==> CameraRenderListener(this) in ListenersOf(old(ObjectBus(base).listeners), CameraRender))
        && (r == Pass ==> ObjectBus(base).listeners == Unsubscribe(old(ObjectBus(base).listeners), CameraRender, CameraRenderListener(this)))
        && (r.Fail? ==> r.error == KeyError && ObjectBus(base).listeners == old(ObjectBus(base).listeners))
        && CameraRenderListener(this) !in ListenersOf(ObjectBus(base).listeners, CameraRender)
    {
      var bus := ObjectBus(base);
      if bus == null {
        return Fail(AttributeError);
      }
      r := bus.RemoveListener(CameraRender, CameraRenderListener(this));
    }
  }
}
