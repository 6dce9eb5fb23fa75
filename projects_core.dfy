/**
 * The oldest generation of the kernel, kept under
 * `Projects/MyLibraries/Sophysics2D`: a component container with
 * first-match lookups, a self-contained collision system over bounding
 * boxes, and a render manager that keeps its renderers ordered by layer.
 *
 * Numbers stay Python numbers here: edges and radii are `Value`s, so the
 * validators can let NaN and +inf through exactly as the source does, and
 * every comparison follows Python's rules (anything compared with NaN is
 * false).
 */
module ProjectsCore {
  import opened Wrappers
  import opened Values
  import opened Helpers
  import opened Vectors

  // ---------------------------------------------------------------------
  // Python's ordering on numbers

  /** A non-NaN number on the extended real line. */
  datatype Extended = NegInf | Fin(r: real) | PosInf

  function ToExtended(v: Value): Extended
    requires IsIntOrFloat(v) && !v.NaN?
  {
    match v
    case Infinity(positive) => if positive then PosInf else NegInf
    case Bool(_) => Fin(AsReal(v))
    case Int(_) => Fin(AsReal(v))
    case Float(f) => Fin(f)
    case _ => Fin(0.0)
  }

  predicate ExtendedLess(a: Extended, b: Extended) {
    match (a, b)
    case (NegInf, NegInf) => false
    case (NegInf, _) => true
    case (Fin(x), Fin(y)) => x < y
    case (Fin(_), PosInf) => true
    case _ => false
  }

  /** `a < b` on two numbers; false whenever either side is NaN. */
  predicate PyLess(a: Value, b: Value)
    requires IsIntOrFloat(a) && IsIntOrFloat(b)
  {
    !a.NaN? && !b.NaN? && ExtendedLess(ToExtended(a), ToExtended(b))
  }

  /** `a <= b` on two numbers; false whenever either side is NaN. */
  predicate PyLessEq(a: Value, b: Value)
    requires IsIntOrFloat(a) && IsIntOrFloat(b)
  {
    !a.NaN? && !b.NaN? && !ExtendedLess(ToExtended(b), ToExtended(a))
  }

  /** On finite numbers the comparisons are the ones on their values. */
  lemma PyCompareFinite(a: Value, b: Value)
    requires IsFiniteNumber(a) && IsFiniteNumber(b)
    ensures PyLess(a, b) <==> AsReal(a) < AsReal(b)
    ensures PyLessEq(a, b) <==> AsReal(a) <= AsReal(b)
  {
  }

  /** Without NaN, `a <= b` is `not (b < a)`; with NaN both are false, so `not (top < bottom)` does not give `top >= bottom`. */
  lemma PyLessEqIsNotGreater(a: Value, b: Value)
    requires IsIntOrFloat(a) && IsIntOrFloat(b)
    ensures !a.NaN? && !b.NaN? ==> (PyLessEq(a, b) <==> !PyLess(b, a))
    ensures !PyLess(NaN, b) && !PyLess(a, NaN) && !PyLessEq(NaN, b) && !PyLessEq(a, NaN)
  {
  }

  // ---------------------------------------------------------------------
  // Components and the container

  /** The component classes of this generation. */
  datatype Kind =
    | Component
    | SimObjectComponent
    | EnvironmentComponent
    | Transform
    | CollisionListener
    | RigidBody
    | Force
    | Collider
    | BorderCollider
    | CircleCollider
    | Renderer
    | BoundaryRenderer
    | CircleRenderer
    | ColliderManager
    | RenderManager

  /** The classes an instance of `k` belongs to: `k` and its base classes. */
  function Classes(k: Kind): (cs: set<Kind>)
    ensures k in cs && Component in cs
  {
    match k
    case Component => {Component}
    case SimObjectComponent => {SimObjectComponent, Component}
    case EnvironmentComponent => {EnvironmentComponent, Component}
    case Transform => {Transform, SimObjectComponent, Component}
    case CollisionListener => {CollisionListener, SimObjectComponent, Component}
    case RigidBody => {RigidBody, CollisionListener, SimObjectComponent, Component}
    case Force => {Force, SimObjectComponent, Component}
    case Collider => {Collider, SimObjectComponent, Component}
    case BorderCollider => {BorderCollider, Collider, SimObjectComponent, Component}
    case CircleCollider => {CircleCollider, Collider, SimObjectComponent, Component}
    case Renderer => {Renderer, SimObjectComponent, Component}
    case BoundaryRenderer => {BoundaryRenderer, Renderer, SimObjectComponent, Component}
    case CircleRenderer => {CircleRenderer, Renderer, SimObjectComponent, Component}
    case ColliderManager => {ColliderManager, EnvironmentComponent, Component}
    case RenderManager => {RenderManager, EnvironmentComponent, Component}
  }

  /** `isinstance(c, t)` for a component of class `k`. */
  predicate IsInstance(k: Kind, t: Kind) {
    t in Classes(k)
  }

  class Component {
    const kind: Kind
    var simObject: SimObject?

    constructor (kind: Kind)
      ensures this.kind == kind && simObject == null
    {
      this.kind := kind;
      simObject := null;
    }
  }

  /**
   * An argument handed to `attach_component`: a component or some other
   * object. `builtin` marks an instance of a built-in type (a number, a
   * string, None), on which setting the `sim_object` attribute already
   * fails; on any other object that assignment succeeds and the type check
   * after it fails.
   */
  datatype ComponentArg = AComponent(c: Component) | NotAComponent(builtin: bool)
  {
    /** The exception `attach_component` raises for this argument when it is not a component. */
    function Rejection(): Error
    {
      if NotAComponent? && builtin then AttributeError else TypeError
    }
  }

  /** `i` is the first argument that is not a component. */
  ghost predicate FirstRejected(args: seq<ComponentArg>, i: int)
  {
    0 <= i < |args| && args[i].NotAComponent? && forall j :: 0 <= j < i ==> args[j].AComponent?
  }

  /** The first component of `cs` that is an instance of `t`. */
  function FirstOfClass(cs: seq<Component>, t: Kind): (r: Option<Component>)
    ensures r.None? <==> forall i :: 0 <= i < |cs| ==> !IsInstance(cs[i].kind, t)
    ensures r.Some? ==> exists i :: 0 <= i < |cs| && cs[i] == r.value && IsInstance(cs[i].kind, t)
                                    && forall j :: 0 <= j < i ==> !IsInstance(cs[j].kind, t)
  {
    if cs == [] then None
    else if IsInstance(cs[0].kind, t) then Some(cs[0])
    else
      var r := FirstOfClass(cs[1..], t);
      assert r.Some? ==> exists i :: 0 <= i < |cs| && cs[i] == r.value && IsInstance(cs[i].kind, t)
                                      && forall j :: 0 <= j < i ==> !IsInstance(cs[j].kind, t) by {
        if r.Some? {
          var i :| 0 <= i < |cs[1..]| && cs[1..][i] == r.value && IsInstance(cs[1..][i].kind, t)
                   && forall j :: 0 <= j < i ==> !IsInstance(cs[1..][j].kind, t);
          assert cs[i + 1] == r.value && forall j :: 0 <= j < i + 1 ==> !IsInstance(cs[j].kind, t);
        }
      }
      r
  }

  /** The components of `cs` that are instances of `t`, in list order. */
  function OfClass(cs: seq<Component>, t: Kind): (r: seq<Component>)
    ensures |r| <= |cs|
    ensures forall i :: 0 <= i < |r| ==> r[i] in cs && IsInstance(r[i].kind, t)
    ensures forall i :: 0 <= i < |cs| && IsInstance(cs[i].kind, t) ==> cs[i] in r
  {
    if cs == [] then []
    else if IsInstance(cs[0].kind, t) then [cs[0]] + OfClass(cs[1..], t)
    else
      assert forall i :: 1 <= i < |cs| ==> cs[i] == cs[1..][i - 1];
      OfClass(cs[1..], t)
  }

  /** `get_component` returns the head of what `get_components` returns, and raises exactly when that list is empty. */
  lemma {:induction false} FirstIsHeadOfAll(cs: seq<Component>, t: Kind)
    ensures FirstOfClass(cs, t).Some? <==> OfClass(cs, t) != []
    ensures OfClass(cs, t) != [] ==> OfClass(cs, t)[0] == FirstOfClass(cs, t).value
  {
    if cs != [] && !IsInstance(cs[0].kind, t) {
      FirstIsHeadOfAll(cs[1..], t);
    }
  }

  /** A supplied Transform is attached a second time by the SimObject constructor. */
  lemma {:induction false} SuppliedTransformListedTwice(cs: seq<Component>)
    requires FirstOfClass(cs, Transform).Some?
    ensures var t := FirstOfClass(cs, Transform).value; multiset(cs + [t])[t] >= 2
  {
    var t := FirstOfClass(cs, Transform).value;
    var i :| 0 <= i < |cs| && cs[i] == t;
    assert (cs + [t])[i] == t && (cs + [t])[|cs|] == t;
    assert multiset(cs + [t]) == multiset(cs[..i]) + multiset{t} + multiset(cs[i + 1..]) + multiset{t} by {
      assert cs + [t] == cs[..i] + [t] + cs[i + 1..] + [t];
    }
  }

  class SimObject {
    var components: seq<Component>
    var transform: Component

    /**
     * `SimObject(components)`: attaches each supplied component in order
     * (setting its back-reference before the type check, so a rejected
     * argument leaves the earlier components pointing at the half-built
     * object), then takes the first Transform, or a new one, and attaches
     * it once more.
     */
    static method New(args: seq<ComponentArg>) returns (r: Result<SimObject>)
      modifies set i | 0 <= i < |args| && args[i].AComponent? :: args[i].c`simObject
      ensures r.Err? <==> exists i :: 0 <= i < |args| && args[i].NotAComponent?
      ensures r.Err? ==> exists i :: FirstRejected(args, i) && r.error == args[i].Rejection()
      ensures r.Ok? ==> fresh(r.value)
      ensures r.Ok? ==> r.value.components == Supplied(args) + [r.value.transform]
      ensures r.Ok? ==> forall c :: c in r.value.components ==> c.simObject == r.value
      ensures r.Ok? ==> match FirstOfClass(Supplied(args), Transform)
                        case Some(t) => r.value.transform == t
                        case None => fresh(r.value.transform) && r.value.transform.kind == Transform
    {
      var o := new SimObject.Empty();
      var i := 0;
      while i < |args|
        invariant 0 <= i <= |args|
        invariant forall j :: 0 <= j < i ==> args[j].AComponent?
        invariant fresh(o) && o.components == Supplied(args[..i])
        invariant forall c :: c in o.components ==> c.simObject == o
      {
        assert args[..i + 1] == args[..i] + [args[i]];
        var ok := o.AttachComponent(args[i]);
        if ok.Fail? {
          assert FirstRejected(args, i);
          return Err(ok.error);
        }
        i := i + 1;
      }
      assert args[..i] == args;
      var found := FirstOfClass(o.components, Transform);
      var t: Component;
      if found.None? {
        t := new Component(Transform);
      } else {
        t := found.value;
      }
      var _ := o.AttachComponent(AComponent(t));
      o.transform := t;
      r := Ok(o);
    }

    /** The object before any component is attached. */
    constructor Empty()
      ensures components == []
    {
      components := [];
      transform := new Component(Transform);
    }

    /**
     * `attach_component`: sets the back-reference, then appends. Setting the
     * attribute on a built-in value raises AttributeError; any other
     * non-component gets through that and raises TypeError.
     */
    method AttachComponent(arg: ComponentArg) returns (r: Outcome)
      modifies this`components, (if arg.AComponent? then {arg.c} else {})`simObject
      ensures r == Pass <==> arg.AComponent?
      ensures r.Fail? ==> components == old(components)
      ensures arg.NotAComponent? && arg.builtin ==> r == Fail(AttributeError)
      ensures arg.NotAComponent? && !arg.builtin ==> r == Fail(TypeError)
      ensures r == Pass ==> components == old(components) + [arg.c] && arg.c.simObject == this
    {
      if arg.NotAComponent? {
        return Fail(arg.Rejection());
      }
      arg.c.simObject := this;
      components := components + [arg.c];
      r := Pass;
    }

    /** `get_component`: the first instance of `t` in list order, or a ValueError. */
    method GetComponent(t: Kind) returns (r: Result<Component>)
      ensures r.Err? <==> forall i :: 0 <= i < |components| ==> !IsInstance(components[i].kind, t)
      ensures r.Err? ==> r.error == ValueError
      ensures r.Ok? ==> Some(r.value) == FirstOfClass(components, t)
    {
      var i := 0;
      while i < |components|
        invariant 0 <= i <= |components|
        invariant forall j :: 0 <= j < i ==> !IsInstance(components[j].kind, t)
      {
        if IsInstance(components[i].kind, t) {
          FirstOfClassAt(components, t, i);
          return Ok(components[i]);
        }
        i := i + 1;
      }
      r := Err(ValueError);
    }

    /** `try_get_component`: `get_component` with the ValueError turned into None. */
    method TryGetComponent(t: Kind) returns (r: Option<Component>)
      ensures r == FirstOfClass(components, t)
    {
      var g := GetComponent(t);
      r := if g.Ok? then Some(g.value) else None;
    }

    /** `get_components`: every instance of `t`, in list order. */
    method GetComponents(t: Kind) returns (r: seq<Component>)
      ensures r == OfClass(components, t)
    {
      var cs := components;
      r := [];
      var i := 0;
      while i < |cs|
        invariant 0 <= i <= |cs|
        invariant r == OfClass(cs[..i], t)
      {
        var c := cs[i];
        OfClassSnoc(cs[..i], c, t);
        assert cs[..i + 1] == cs[..i] + [c];
        r := r + if IsInstance(c.kind, t) then [c] else [];
        i := i + 1;
      }
      assert cs[..i] == cs;
    }

    /** `has_component`. */
    method HasComponent(t: Kind) returns (b: bool)
      ensures b <==> exists i :: 0 <= i < |components| && IsInstance(components[i].kind, t)
    {
      var found := TryGetComponent(t);
      b := found.Some?;
    }
  }

  /** The components among the arguments, in order. */
  function Supplied(args: seq<ComponentArg>): (cs: seq<Component>)
    ensures |cs| <= |args|
    ensures (forall i :: 0 <= i < |args| ==> args[i].AComponent?) ==>
              |cs| == |args| && forall i :: 0 <= i < |args| ==> cs[i] == args[i].c
  {
    if args == [] then []
    else if args[|args| - 1].AComponent? then Supplied(args[..|args| - 1]) + [args[|args| - 1].c]
    else Supplied(args[..|args| - 1])
  }

  /** The first instance found at index `i`, after none before it, is what FirstOfClass picks. */
  lemma {:induction false} FirstOfClassAt(cs: seq<Component>, t: Kind, i: nat)
    requires i < |cs| && IsInstance(cs[i].kind, t)
    requires forall j :: 0 <= j < i ==> !IsInstance(cs[j].kind, t)
    ensures FirstOfClass(cs, t) == Some(cs[i])
  {
    if i > 0 {
      FirstOfClassAt(cs[1..], t, i - 1);
    }
  }

  /** Filtering a list grown by one element. */
  lemma {:induction false} OfClassSnoc(cs: seq<Component>, c: Component, t: Kind)
    ensures OfClass(cs + [c], t) == OfClass(cs, t) + (if IsInstance(c.kind, t) then [c] else [])
  {
    if cs == [] {
      assert [c][1..] == [];
    } else {
      assert (cs + [c])[1..] == cs[1..] + [c];
      OfClassSnoc(cs[1..], c, t);
    }
  }

  // ---------------------------------------------------------------------
  // Bounding boxes and the bounding volume

  /** The four edges a BoundingBox exposes, read at one moment. */
  datatype Box = Box(top: Value, bottom: Value, left: Value, right: Value)

  predicate NumericBox(b: Box) {
    IsIntOrFloat(b.top) && IsIntOrFloat(b.bottom) && IsIntOrFloat(b.left) && IsIntOrFloat(b.right)
  }

  predicate FiniteBox(b: Box) {
    IsFiniteNumber(b.top) && IsFiniteNumber(b.bottom) && IsFiniteNumber(b.left) && IsFiniteNumber(b.right)
  }

  /** What a BoundingVolume keeps: four numbers, with neither `top < bottom` nor `right < left`. */
  predicate Ordered(b: Box) {
    NumericBox(b) && !PyLess(b.top, b.bottom) && !PyLess(b.right, b.left)
  }

  /** The point `(x, y)` lies in the finite box `b`, edges included. */
  predicate InBox(x: real, y: real, b: Box)
    requires FiniteBox(b)
  {
    AsReal(b.left) <= x <= AsReal(b.right) && AsReal(b.bottom) <= y <= AsReal(b.top)
  }

  /** On finite edges, the ordering kept by a BoundingVolume is `top >= bottom` and `right >= left`. */
  lemma OrderedFinite(b: Box)
    requires FiniteBox(b)
    ensures Ordered(b) <==> AsReal(b.top) >= AsReal(b.bottom) && AsReal(b.right) >= AsReal(b.left)
  {
    PyCompareFinite(b.top, b.bottom);
    PyCompareFinite(b.right, b.left);
  }

  /** A NaN edge passes every check, because no comparison with NaN is true. */
  lemma NaNEdgeAccepted()
    ensures Ordered(Box(NaN, Int(1), Int(0), Int(1)))
    ensures Ordered(Box(Int(0), Int(1), Int(0), NaN)) == false || Ordered(Box(Int(1), Int(0), Int(0), NaN))
  {
  }

  /** An argument of `intersects_bounding_box`: a BoundingBox or some other object. */
  datatype BoxArg = ABox(box: Box) | NotABox

  /** `intervals_intersect(x1, x2, y1, y2)` on Python numbers: `x1 <= y2 and x2 >= y1`. */
  predicate PyIntervalsIntersect(x1: Value, x2: Value, y1: Value, y2: Value)
    requires IsIntOrFloat(x1) && IsIntOrFloat(x2) && IsIntOrFloat(y1) && IsIntOrFloat(y2)
  {
    PyLessEq(x1, y2) && PyLessEq(y1, x2)
  }

  /**
   * `BoundingBox.intersects_bounding_box`: a TypeError for an argument that
   * is not a BoundingBox; otherwise whether the boxes overlap on both axes.
   */
  function IntersectsBoundingBox(me: Box, other: BoxArg): (r: Result<bool>)
    requires NumericBox(me) && (other.ABox? ==> NumericBox(other.box))
    ensures r.Err? <==> other.NotABox?
    ensures r.Err? ==> r.error == TypeError
    ensures r.Ok? && FiniteBox(me) && FiniteBox(other.box) ==>
      (r.value <==>
         (IntervalsIntersect(AsReal(me.left), AsReal(me.right), AsReal(other.box.left), AsReal(other.box.right))
          && IntervalsIntersect(AsReal(me.bottom), AsReal(me.top), AsReal(other.box.bottom), AsReal(other.box.top))))
  {
    if other.NotABox? then Err(TypeError)
    else
      var o := other.box;
      Ok(PyIntervalsIntersect(me.left, me.right, o.left, o.right) && PyIntervalsIntersect(me.bottom, me.top, o.bottom, o.top))
  }

  /** Two well-ordered finite boxes intersect exactly when some point lies in both. */
  lemma {:induction false} IntersectsIffCommonPoint(a: Box, b: Box)
    requires FiniteBox(a) && FiniteBox(b) && Ordered(a) && Ordered(b)
    ensures IntersectsBoundingBox(a, ABox(b)).value <==> exists x, y :: InBox(x, y, a) && InBox(x, y, b)
  {
    OrderedFinite(a);
    OrderedFinite(b);
    var al, ar, ab, at := AsReal(a.left), AsReal(a.right), AsReal(a.bottom), AsReal(a.top);
    var bl, br, bb, bt := AsReal(b.left), AsReal(b.right), AsReal(b.bottom), AsReal(b.top);
    IntervalsIntersectIff(al, ar, bl, br);
    IntervalsIntersectIff(ab, at, bb, bt);
    if IntersectsBoundingBox(a, ABox(b)).value {
      var x :| InInterval(x, al, ar) && InInterval(x, bl, br);
      var y :| InInterval(y, ab, at) && InInterval(y, bb, bt);
      assert InBox(x, y, a) && InBox(x, y, b);
    }
    if exists x, y :: InBox(x, y, a) && InBox(x, y, b) {
      var x, y :| InBox(x, y, a) && InBox(x, y, b);
      assert InInterval(x, al, ar) && InInterval(x, bl, br);
      assert InInterval(y, ab, at) && InInterval(y, bb, bt);
    }
  }

  /** Whichever box asks, the answer is the same, NaN edges included. */
  lemma IntersectsSymmetric(a: Box, b: Box)
    requires NumericBox(a) && NumericBox(b)
    ensures IntersectsBoundingBox(a, ABox(b)) == IntersectsBoundingBox(b, ABox(a))
  {
  }

  /** The constructor's checks in order: four number checks (TypeError), then the two orderings (ValueError). */
  function CheckVolume(b: Box): (r: Outcome)
    ensures r == Pass <==> Ordered(b)
    ensures r.Fail? ==> (r.error == TypeError <==> !NumericBox(b))
    ensures r.Fail? ==> r.error == TypeError || r.error == ValueError
  {
    if ValidateNumber(b.top).Fail? then ValidateNumber(b.top)
    else if ValidateNumber(b.bottom).Fail? then ValidateNumber(b.bottom)
    else if ValidateNumber(b.left).Fail? then ValidateNumber(b.left)
    else if ValidateNumber(b.right).Fail? then ValidateNumber(b.right)
    else if PyLess(b.top, b.bottom) then Fail(ValueError)
    else if PyLess(b.right, b.left) then Fail(ValueError)
    else Pass
  }

  class BoundingVolume {
    var top: Value
    var bottom: Value
    var left: Value
    var right: Value

    function Edges(): Box
      reads this
    {
      Box(top, bottom, left, right)
    }

    ghost predicate Valid()
      reads this
    {
      Ordered(Edges())
    }

    /** `BoundingVolume(top, bottom, left, right)`: a TypeError or ValueError, or a valid volume with those edges. */
    static method New(top: Value, bottom: Value, left: Value, right: Value) returns (r: Result<BoundingVolume>)
      ensures r.Err? <==> !Ordered(Box(top, bottom, left, right))
      ensures r.Err? ==> Fail(r.error) == CheckVolume(Box(top, bottom, left, right))
      ensures r.Ok? ==> fresh(r.value) && r.value.Edges() == Box(top, bottom, left, right) && r.value.Valid()
    {
      var check := CheckVolume(Box(top, bottom, left, right));
      if check.Fail? {
        return Err(check.error);
      }
      var v := new BoundingVolume.Init(top, bottom, left, right);
      r := Ok(v);
    }

    constructor Init(top: Value, bottom: Value, left: Value, right: Value)
      ensures Edges() == Box(top, bottom, left, right)
    {
      this.top, this.bottom, this.left, this.right := top, bottom, left, right;
    }

    /** The `top` setter: a TypeError for a non-number, a ValueError below `bottom`. */
    method SetTop(v: Value) returns (r: Outcome)
      modifies this`top
      ensures !IsIntOrFloat(v) ==> r == Fail(TypeError)
      ensures IsIntOrFloat(v) && IsIntOrFloat(bottom) && PyLess(v, bottom) ==> r == Fail(ValueError)
      ensures r == Pass ==> top == v
      ensures r.Fail? ==> top == old(top)
      ensures old(Valid()) ==> Valid()
    {
      if !IsIntOrFloat(v) {
        return Fail(TypeError);
      }
      if IsIntOrFloat(bottom) && PyLess(v, bottom) {
        return Fail(ValueError);
      }
      top := v;
      r := Pass;
    }

    /** The `bottom` setter: a TypeError for a non-number, a ValueError above `top`. */
    method SetBottom(v: Value) returns (r: Outcome)
      modifies this`bottom
      ensures !IsIntOrFloat(v) ==> r == Fail(TypeError)
      ensures IsIntOrFloat(v) && IsIntOrFloat(top) && PyLess(top, v) ==> r == Fail(ValueError)
      ensures r == Pass ==> bottom == v
      ensures r.Fail? ==> bottom == old(bottom)
      ensures old(Valid()) ==> Valid()
    {
      if !IsIntOrFloat(v) {
        return Fail(TypeError);
      }
      if IsIntOrFloat(top) && PyLess(top, v) {
        return Fail(ValueError);
      }
      bottom := v;
      r := Pass;
    }

    /** The `left` setter: a TypeError for a non-number, a ValueError right of `right`. */
    method SetLeft(v: Value) returns (r: Outcome)
      modifies this`left
      ensures !IsIntOrFloat(v) ==> r == Fail(TypeError)
      ensures IsIntOrFloat(v) && IsIntOrFloat(right) && PyLess(right, v) ==> r == Fail(ValueError)
      ensures r == Pass ==> left == v
      ensures r.Fail? ==> left == old(left)
      ensures old(Valid()) ==> Valid()
    {
      if !IsIntOrFloat(v) {
        return Fail(TypeError);
      }
      if IsIntOrFloat(right) && PyLess(right, v) {
        return Fail(ValueError);
      }
      left := v;
      r := Pass;
    }

    /** The `right` setter: a TypeError for a non-number, a ValueError left of `left`. */
    method SetRight(v: Value) returns (r: Outcome)
      modifies this`right
      ensures !IsIntOrFloat(v) ==> r == Fail(TypeError)
      ensures IsIntOrFloat(v) && IsIntOrFloat(left) && PyLess(v, left) ==> r == Fail(ValueError)
      ensures r == Pass ==> right == v
      ensures r.Fail? ==> right == old(right)
      ensures old(Valid()) ==> Valid()
    {
      if !IsIntOrFloat(v) {
        return Fail(TypeError);
      }
      if IsIntOrFloat(left) && PyLess(v, left) {
        return Fail(ValueError);
      }
      right := v;
      r := Pass;
    }
  }

  // ---------------------------------------------------------------------
  // Collider geometry

  /** `x + v` for a float `x` and a number `v`. */
  function AddToFloat(x: real, v: Value): (r: Value)
    requires IsIntOrFloat(v)
    ensures IsIntOrFloat(r)
  {
    match v
    case NaN => NaN
    case Infinity(positive) => Infinity(positive)
    case Bool(_) => Float(x + AsReal(v))
    case Int(_) => Float(x + AsReal(v))
    case Float(f) => Float(x + f)
    case _ => NaN
  }

  /** `x - v` for a float `x` and a number `v`. */
  function SubFromFloat(x: real, v: Value): (r: Value)
    requires IsIntOrFloat(v)
    ensures IsIntOrFloat(r)
  {
    match v
    case NaN => NaN
    case Infinity(positive) => Infinity(!positive)
    case Bool(_) => Float(x - AsReal(v))
    case Int(_) => Float(x - AsReal(v))
    case Float(f) => Float(x - f)
    case _ => NaN
  }

  /**
   * `a + b` for two numbers. A finite sum is given as a float: only its value
   * matters to the comparison that uses it.
   */
  function PyAdd(a: Value, b: Value): (r: Value)
    requires IsIntOrFloat(a) && IsIntOrFloat(b)
    ensures IsIntOrFloat(r)
    ensures IsFiniteNumber(a) && IsFiniteNumber(b) ==> r == Float(AsReal(a) + AsReal(b))
    ensures !a.NaN? && !b.NaN? && !(a.Infinity? && b.Infinity?) && (a.Infinity? || b.Infinity?) ==> r.Infinity?
  {
    if a.NaN? || b.NaN? then NaN
    else if a.Infinity? && b.Infinity? then (if a.positive == b.positive then a else NaN)
    else if a.Infinity? then a
    else if b.Infinity? then b
    else Float(AsReal(a) + AsReal(b))
  }

  /** A collider as the collision checks see it. */
  datatype Shape =
    | CircleShape(center: Vec2, radius: Value)   // a CircleCollider at its transform's position
    | BorderShape(bounds: Box)                    // a BorderCollider
    | OtherShape(edges: Box)                      // any other Collider subclass

  predicate NumericShape(s: Shape) {
    match s
    case CircleShape(_, radius) => IsIntOrFloat(radius)
    case BorderShape(bounds) => NumericBox(bounds)
    case OtherShape(edges) => NumericBox(edges)
  }

  /** The `top`, `bottom`, `left` and `right` properties of a collider. */
  function Edges(s: Shape): (b: Box)
    requires NumericShape(s)
    ensures NumericBox(b)
  {
    match s
    case CircleShape(c, r) => Box(AddToFloat(c.y, r), SubFromFloat(c.y, r), SubFromFloat(c.x, r), AddToFloat(c.x, r))
    case BorderShape(bounds) => bounds
    case OtherShape(edges) => edges
  }

  /**
   * A circle's edges are its centre plus and minus its radius: the box is
   * well ordered for any radius the setter accepts, and for a finite radius
   * it holds every point of the disc.
   */
  lemma {:induction false} CircleEdgesHoldDisc(c: Vec2, radius: Value, p: Vec2)
    requires ValidatePositiveNumber(radius) == Pass
    ensures Ordered(Edges(CircleShape(c, radius)))
    ensures IsFiniteNumber(radius) && Dist2(p, c) <= Sq(AsReal(radius)) ==>
              FiniteBox(Edges(CircleShape(c, radius))) && InBox(p.x, p.y, Edges(CircleShape(c, radius)))
  {
    var e := Edges(CircleShape(c, radius));
    if IsFiniteNumber(radius) {
      var r := AsReal(radius);
      assert FiniteBox(e) && AsReal(e.top) == c.y + r && AsReal(e.bottom) == c.y - r;
      assert AsReal(e.left) == c.x - r && AsReal(e.right) == c.x + r;
      OrderedFinite(e);
      if Dist2(p, c) <= Sq(r) {
        SquareBound(p.x - c.x, Sq(p.y - c.y), r);
        SquareBound(p.y - c.y, Sq(p.x - c.x), r);
      }
    }
  }

  /** Multiplying by a non-negative factor keeps an ordering. */
  lemma MulMonotone(k: real, x: real, y: real)
    requires k >= 0.0 && x <= y
    ensures k * x <= k * y
  {
    assert k * y - k * x == k * (y - x);
  }

  /** On non-negative reals, squaring keeps and reflects the ordering. */
  lemma SqMonotone(a: real, b: real)
    requires a >= 0.0 && b >= 0.0
    ensures a <= b <==> Sq(a) <= Sq(b)
  {
    if a <= b {
      MulMonotone(a, a, b);
      MulMonotone(b, a, b);
      assert a * a <= a * b;
      assert b * a <= b * b;
      assert a * a <= b * b;
    } else {
      MulMonotone(b, b, a);
      var g := a - b;
      assert a * g > 0.0;
      var bb, ba, aa := b * b, b * a, a * a;
      assert bb <= ba;
      assert aa == ba + a * g;
      assert bb < aa;
    }
  }

  /** `d * d + e <= r * r` with `e >= 0` and `r >= 0` keeps `d` within `[-r, r]`. */
  lemma SquareBound(d: real, e: real, r: real)
    requires e >= 0.0 && r >= 0.0 && Sq(d) + e <= Sq(r)
    ensures -r <= d <= r
  {
    var m := if d >= 0.0 then d else -d;
    assert Sq(m) == Sq(d);
    SqMonotone(m, r);
  }

  /** An argument of a collision check: a collider or some other object. */
  datatype ShapeArg = AShape(shape: Shape) | NotACollider

  /**
   * `BorderCollider.collides_with`: a TypeError for a non-collider;
   * otherwise a collision whenever the other collider reaches or crosses
   * any of the four borders.
   */
  function BorderCollidesWith(border: Box, other: ShapeArg): (r: Result<bool>)
    requires NumericBox(border) && (other.AShape? ==> NumericShape(other.shape))
    ensures r.Err? <==> other.NotACollider?
    ensures r.Err? ==> r.error == TypeError
  {
    if other.NotACollider? then Err(TypeError)
    else
      var o := Edges(other.shape);
      Ok(PyLessEq(border.top, o.top) || PyLessEq(o.bottom, border.bottom)
         || PyLessEq(o.left, border.left) || PyLessEq(border.right, o.right))
  }

  /** With finite edges, a border misses another collider exactly when that collider lies strictly inside it. */
  lemma {:induction false} BorderMissesOnlyInside(border: Box, other: Shape)
    requires FiniteBox(border) && NumericShape(other) && FiniteBox(Edges(other))
    ensures var o := Edges(other);
      !BorderCollidesWith(border, AShape(other)).value <==>
        AsReal(border.bottom) < AsReal(o.bottom) && AsReal(o.top) < AsReal(border.top)
        && AsReal(border.left) < AsReal(o.left) && AsReal(o.right) < AsReal(border.right)
  {
    var o := Edges(other);
    PyCompareFinite(border.top, o.top);
    PyCompareFinite(o.bottom, border.bottom);
    PyCompareFinite(o.left, border.left);
    PyCompareFinite(border.right, o.right);
  }

  /**
   * `CircleCollider.collides_with_circle`: a TypeError unless the other
   * collider is a circle; otherwise `distance <= r1 + r2`, where `dist` is
   * the centre distance pygame's `distance_to` returns.
   */
  function CollidesWithCircle(me: Shape, other: ShapeArg, dist: real): (r: Result<bool>)
    requires me.CircleShape? && NumericShape(me) && (other.AShape? ==> NumericShape(other.shape))
    ensures r.Err? <==> !(other.AShape? && other.shape.CircleShape?)
    ensures r.Err? ==> r.error == TypeError
  {
    if !(other.AShape? && other.shape.CircleShape?) then Err(TypeError)
    else Ok(PyLessEq(Float(dist), PyAdd(me.radius, other.shape.radius)))
  }

  /**
   * For finite non-negative radii and the true centre distance, two circles
   * collide exactly when the squared centre distance is at most the squared
   * sum of the radii, whichever circle asks.
   */
  lemma {:induction false} CirclesCollideIff(a: Shape, b: Shape, dist: real)
    requires a.CircleShape? && b.CircleShape?
    requires IsFiniteNumber(a.radius) && IsFiniteNumber(b.radius)
    requires AsReal(a.radius) >= 0.0 && AsReal(b.radius) >= 0.0
    requires dist >= 0.0 && Sq(dist) == Dist2(a.center, b.center)
    ensures CollidesWithCircle(a, AShape(b), dist).value <==> Dist2(a.center, b.center) <= Sq(AsReal(a.radius) + AsReal(b.radius))
    ensures CollidesWithCircle(a, AShape(b), dist) == CollidesWithCircle(b, AShape(a), dist)
  {
    var s := AsReal(a.radius) + AsReal(b.radius);
    PyCompareFinite(Float(dist), Float(s));
    SqMonotone(dist, s);
  }

  /** One `on_collision(other)` call. */
  datatype Notice = Notice(receiver: Shape, other: Shape)

  /** Whether `check_collision` sees a collision, before it notifies anyone. */
  function Collided(me: Shape, other: Shape, dist: real): (r: bool)
    requires NumericShape(me) && NumericShape(other)
  {
    match me
    case CircleShape(_, _) =>
      if other.CircleShape? then CollidesWithCircle(me, AShape(other), dist).value
      else if other.BorderShape? then BorderCollidesWith(other.bounds, AShape(me)).value
      else false
    case BorderShape(bounds) => BorderCollidesWith(bounds, AShape(other)).value
    case OtherShape(_) => false
  }

  /**
   * `check_collision(other)`: a TypeError for a non-collider; on a
   * collision, `self.on_collision(other)` and then `other.on_collision(self)`.
   * The base Collider's `check_collision` does nothing.
   */
  function CheckCollision(me: Shape, other: ShapeArg, dist: real): (r: Result<seq<Notice>>)
    requires NumericShape(me) && (other.AShape? ==> NumericShape(other.shape))
    ensures r.Err? <==> other.NotACollider? && !me.OtherShape?
    ensures r.Err? ==> r.error == TypeError
    ensures r.Ok? && r.value != [] ==> other.AShape? && r.value == [Notice(me, other.shape), Notice(other.shape, me)]
    ensures r.Ok? && other.AShape? ==> (r.value != [] <==> Collided(me, other.shape, dist))
  {
    if me.OtherShape? then Ok([])
    else if other.NotACollider? then Err(TypeError)
    else if Collided(me, other.shape, dist) then Ok([Notice(me, other.shape), Notice(other.shape, me)])
    else Ok([])
  }

  /** A circle and a border agree on whether they collide, whichever of the two checks. */
  lemma CircleBorderAgree(circle: Shape, border: Shape, dist: real)
    requires circle.CircleShape? && border.BorderShape? && NumericShape(circle) && NumericShape(border)
    ensures Collided(circle, border, dist) == Collided(border, circle, dist)
  {
  }

  /**
   * A border and a collider of another subclass do not agree: the border
   * sees an overlap, but the other collider's inherited check never does,
   * so the manager's pair order decides whether anyone is notified.
   */
  lemma BorderOtherDisagree()
    ensures var border := BorderShape(Box(Int(1), Int(-1), Int(-1), Int(1)));
            var other := OtherShape(Box(Int(2), Int(0), Int(0), Int(2)));
            Collided(border, other, 0.0) && !Collided(other, border, 0.0)
  {
  }

  // ---------------------------------------------------------------------
  // Colliders and their manager

  class Collider {
    const base: Component
    var listeners: seq<Component>

    constructor (base: Component)
      ensures this.base == base && listeners == []
    {
      this.base := base;
      listeners := [];
    }

    /** `attach_collision_listener`: a TypeError unless the argument is a CollisionListener. */
    method AttachCollisionListener(arg: ComponentArg) returns (r: Outcome)
      modifies this`listeners
      ensures r == Pass <==> arg.AComponent? && IsInstance(arg.c.kind, CollisionListener)
      ensures r.Fail? ==> r.error == TypeError && listeners == old(listeners)
      ensures r == Pass ==> listeners == old(listeners) + [arg.c]
    {
      if !(arg.AComponent? && IsInstance(arg.c.kind, CollisionListener)) {
        return Fail(TypeError);
      }
      listeners := listeners + [arg.c];
      r := Pass;
    }

    /**
     * `on_collision(other)`: a TypeError unless `other` is a collider (null
     * stands for any other object); otherwise each listener's
     * `on_collision` runs, in attach order.
     */
    method OnCollision(other: Collider?) returns (r: Outcome, notified: seq<Component>)
      ensures r == Pass <==> other != null
      ensures r.Fail? ==> r.error == TypeError && notified == []
      ensures r == Pass ==> notified == listeners
    {
      notified := [];
      if other == null {
        return Fail(TypeError), [];
      }
      var i := 0;
      while i < |listeners|
        invariant 0 <= i <= |listeners| && notified == listeners[..i]
      {
        notified := notified + [listeners[i]];
        i := i + 1;
      }
      r := Pass;
    }
  }

  /** `(x, y)` or `(y, x)` is among the pairs. */
  predicate Covered(calls: seq<(Collider, Collider)>, x: Collider, y: Collider) {
    (x, y) in calls || (y, x) in calls
  }

  /** `x` occurs in `cs` before any occurrence of `y`. */
  predicate FirstBefore(cs: seq<Collider>, x: Collider, y: Collider) {
    exists p :: 0 <= p < |cs| && cs[p] == x && y !in cs[..p]
  }

  /** Two calls check the same unordered pair. */
  predicate SamePair(p: (Collider, Collider), q: (Collider, Collider)) {
    p == q || (p.0 == q.1 && p.1 == q.0)
  }

  class ColliderManager {
    var colliders: seq<Collider>

    constructor ()
      ensures colliders == []
    {
      colliders := [];
    }

    /** `attach_collider`: a TypeError unless the argument is a collider (null stands for any other object). */
    method AttachCollider(c: Collider?) returns (r: Outcome)
      modifies this`colliders
      ensures r == Pass <==> c != null
      ensures r.Fail? ==> r.error == TypeError && colliders == old(colliders)
      ensures r == Pass ==> colliders == old(colliders) + [c]
    {
      if c == null {
        return Fail(TypeError);
      }
      colliders := colliders + [c];
      r := Pass;
    }

    /**
     * `update`: `i.check_collision(j)` for the pairs of the collider list,
     * skipping a collider paired with itself and a pair already checked in
     * either order. `calls` lists the checks in call order: each unordered
     * pair of distinct attached colliders is checked exactly once, even
     * when a collider was attached twice, and always from the collider
     * attached first.
     */
    method Update() returns (calls: seq<(Collider, Collider)>)
      ensures forall k :: 0 <= k < |calls| ==> calls[k].0 != calls[k].1 && calls[k].0 in colliders && calls[k].1 in colliders
      ensures forall k :: 0 <= k < |calls| ==> FirstBefore(colliders, calls[k].0, calls[k].1)
      ensures forall k, l :: 0 <= k < l < |calls| ==> !SamePair(calls[k], calls[l])
      ensures forall p, q :: 0 <= p < |colliders| && 0 <= q < |colliders| && colliders[p] != colliders[q] ==>
                Covered(calls, colliders[p], colliders[q])
    {
      var cs := colliders;
      calls := [];
      var a := 0;
      while a < |cs|
        invariant 0 <= a <= |cs|
        invariant forall k :: 0 <= k < |calls| ==> calls[k].0 != calls[k].1 && calls[k].0 in cs && calls[k].1 in cs
        invariant forall k :: 0 <= k < |calls| ==> FirstBefore(cs, calls[k].0, calls[k].1)
        invariant forall k, l :: 0 <= k < l < |calls| ==> !SamePair(calls[k], calls[l])
        invariant forall p, q :: 0 <= p < a && 0 <= q < |cs| && cs[p] != cs[q] ==> Covered(calls, cs[p], cs[q])
      {
        calls := CheckRow(cs, a, calls);
        a := a + 1;
      }
    }

    /** The inner loop of `update`: collider `cs[a]` against every collider of the list. */
    static method CheckRow(cs: seq<Collider>, a: nat, calls0: seq<(Collider, Collider)>) returns (calls: seq<(Collider, Collider)>)
      requires a < |cs|
      requires forall k :: 0 <= k < |calls0| ==> calls0[k].0 != calls0[k].1 && calls0[k].0 in cs && calls0[k].1 in cs
      requires forall k :: 0 <= k < |calls0| ==> FirstBefore(cs, calls0[k].0, calls0[k].1)
      requires forall k, l :: 0 <= k < l < |calls0| ==> !SamePair(calls0[k], calls0[l])
      requires forall p, q :: 0 <= p < a && 0 <= q < |cs| && cs[p] != cs[q] ==> Covered(calls0, cs[p], cs[q])
      ensures forall k :: 0 <= k < |calls| ==> calls[k].0 != calls[k].1 && calls[k].0 in cs && calls[k].1 in cs
      ensures forall k :: 0 <= k < |calls| ==> FirstBefore(cs, calls[k].0, calls[k].1)
      ensures forall k, l :: 0 <= k < l < |calls| ==> !SamePair(calls[k], calls[l])
      ensures forall x, y :: Covered(calls0, x, y) ==> Covered(calls, x, y)
      ensures forall q :: 0 <= q < |cs| && cs[a] != cs[q] ==> Covered(calls, cs[a], cs[q])
    {
      calls := calls0;
      var b := 0;
      while b < |cs|
        invariant 0 <= b <= |cs|
        invariant forall k :: 0 <= k < |calls| ==> calls[k].0 != calls[k].1 && calls[k].0 in cs && calls[k].1 in cs
        invariant forall k :: 0 <= k < |calls| ==> FirstBefore(cs, calls[k].0, calls[k].1)
        invariant forall k, l :: 0 <= k < l < |calls| ==> !SamePair(calls[k], calls[l])
        invariant forall x, y :: Covered(calls0, x, y) ==> Covered(calls, x, y)
        invariant forall q :: 0 <= q < b && cs[a] != cs[q] ==> Covered(calls, cs[a], cs[q])
      {
        var x, y := cs[a], cs[b];
        if x != y && (x, y) !in calls && (y, x) !in calls {
          assert y !in cs[..a];
          calls := calls + [(x, y)];
        }
        b := b + 1;
      }
    }
  }

  // ---------------------------------------------------------------------
  // Renderers and the render manager

  class Renderer {
    const base: Component
    var layer: int

    /** `Renderer(layer)`: the layer is stored as given. */
    constructor (kind: Kind, layer: int)
      ensures fresh(base) && base.kind == kind && base.simObject == null && this.layer == layer
    {
      base := new Component(kind);
      this.layer := layer;
    }
  }

  predicate Sorted(s: seq<int>) {
    forall i, j :: 0 <= i < j < |s| ==> s[i] <= s[j]
  }

  /** The layers of `rs`, in list order. */
  function Layers(rs: seq<Renderer>): (ls: seq<int>)
    reads set r | r in rs
    ensures |ls| == |rs| && forall i :: 0 <= i < |rs| ==> ls[i] == rs[i].layer
  {
    seq(|rs|, i requires 0 <= i < |rs| reads rs => rs[i].layer)
  }

  /**
   * The index `get_index` computes, as written: a binary search over
   * `layers[start..end]` (both ends included) that returns right after an
   * equal layer, returns `i` or `i + 1` once the range has one element,
   * and returns 0 when the range empties without reaching one element.
   */
  function SearchAsWritten(layers: seq<int>, target: int, start: int, end: int): (i: int)
    requires 0 <= start && end < |layers|
    ensures 0 <= i <= |layers|
    decreases end - start + 1
  {
    if start > end then 0
    else
      var i := (start + end) / 2;
      if layers[i] == target then i + 1
      else if target < layers[i] then
        (if start == end then i else SearchAsWritten(layers, target, start, i - 1))
      else
        (if start == end then i + 1 else SearchAsWritten(layers, target, i + 1, end))
  }

  /** `get_index()` inside `attach_renderer`, as written. */
  method GetIndexAsWritten(layers: seq<int>, target: int) returns (idx: nat)
    ensures idx == SearchAsWritten(layers, target, 0, |layers| - 1)
    ensures idx <= |layers| && (layers == [] ==> idx == 0)
  {
    var start, end := 0, |layers| - 1;
    while start <= end
      invariant 0 <= start && end < |layers|
      invariant SearchAsWritten(layers, target, start, end) == SearchAsWritten(layers, target, 0, |layers| - 1)
      decreases end - start + 1
    {
      var i := (start + end) / 2;
      var value := layers[i];
      if value == target {
        return i + 1;
      } else if target < value {
        if start == end {
          return i;
        }
        end := i - 1;
      } else {
        if start == end {
          return i + 1;
        }
        start := i + 1;
      }
    }
    return 0;
  }

  /**
   * Inserting layer 4 into the layers 1, 3, 5, 7: the search narrows to an
   * empty range after two steps and falls back to index 0, which puts the
   * new renderer first and breaks the ordering.
   */
  lemma AsWrittenMisplacesLayer()
    ensures SearchAsWritten([1, 3, 5, 7], 4, 0, 3) == 0
    ensures Sorted([1, 3, 5, 7]) && !Sorted([4, 1, 3, 5, 7])
  {
    assert SearchAsWritten([1, 3, 5, 7], 4, 2, 3) == SearchAsWritten([1, 3, 5, 7], 4, 2, 1);
    assert [4, 1, 3, 5, 7][0] > [4, 1, 3, 5, 7][1];
  }

  /**
   * The index the search is meant to find: after every layer not above
   * `target`, before every layer above it, so equal layers keep their
   * attach order.
   */
  method UpperBound(layers: seq<int>, target: int) returns (idx: nat)
    ensures idx <= |layers|
    ensures Sorted(layers) ==>
      (forall j :: 0 <= j < idx ==> layers[j] <= target) && (forall j :: idx <= j < |layers| ==> target < layers[j])
  {
    var lo, hi := 0, |layers|;
    while lo < hi
      invariant 0 <= lo <= hi <= |layers|
      invariant Sorted(layers) ==> forall j :: 0 <= j < lo ==> layers[j] <= target
      invariant Sorted(layers) ==> forall j :: hi <= j < |layers| ==> target < layers[j]
    {
      var mid := (lo + hi) / 2;
      if layers[mid] <= target {
        lo := mid + 1;
      } else {
        hi := mid;
      }
    }
    idx := lo;
  }

  /** Inserting at a point that splits a sorted list around the new element keeps it sorted. */
  lemma InsertAtBoundKeepsSorted(s: seq<int>, idx: nat, x: int)
    requires idx <= |s| && Sorted(s)
    requires forall j :: 0 <= j < idx ==> s[j] <= x
    requires forall j :: idx <= j < |s| ==> x < s[j]
    ensures Sorted(s[..idx] + [x] + s[idx..])
  {
    var t := s[..idx] + [x] + s[idx..];
    assert forall k :: 0 <= k < |t| ==> t[k] == (if k < idx then s[k] else if k == idx then x else s[k - 1]);
  }

  class RenderManager {
    var renderers: seq<Renderer>

    constructor ()
      ensures renderers == []
    {
      renderers := [];
    }

    /** `attach_renderer` as written: a TypeError for a non-renderer (null), otherwise an insert at `get_index()`. */
    method AttachRendererAsWritten(x: Renderer?) returns (r: Outcome)
      modifies this`renderers
      ensures x == null ==> r == Fail(TypeError) && renderers == old(renderers)
      ensures x != null ==>
        && r == Pass
        && var i := SearchAsWritten(Layers(old(renderers)), x.layer, 0, |old(renderers)| - 1);
           renderers == old(renderers)[..i] + [x] + old(renderers)[i..]
    {
      if x == null {
        return Fail(TypeError);
      }
      var i := GetIndexAsWritten(Layers(renderers), x.layer);
      renderers := renderers[..i] + [x] + renderers[i..];
      r := Pass;
    }

    /**
     * `attach_renderer` with the insertion index it is meant to compute:
     * the renderer is added once, nothing else moves, and a list ordered
     * by layer stays ordered, equal layers in attach order.
     */
    method AttachRenderer(x: Renderer?) returns (r: Outcome, ghost at: nat)
      modifies this`renderers
      ensures x == null ==> r == Fail(TypeError) && renderers == old(renderers)
      ensures x != null ==> r == Pass && at <= |old(renderers)| && renderers == old(renderers)[..at] + [x] + old(renderers)[at..]
      ensures x != null ==> multiset(renderers) == multiset(old(renderers)) + multiset{x}
      ensures x != null && Sorted(Layers(old(renderers))) ==>
        Sorted(Layers(renderers))
        && (forall j :: 0 <= j < at ==> old(renderers)[j].layer <= x.layer)
        && (forall j :: at <= j < |old(renderers)| ==> x.layer < old(renderers)[j].layer)
    {
      at := 0;
      if x == null {
        return Fail(TypeError), at;
      }
      var ls := Layers(renderers);
      var i := UpperBound(ls, x.layer);
      InsertFacts(renderers, i, x);
      if Sorted(ls) {
        InsertAtBoundKeepsSorted(ls, i, x.layer);
      }
      renderers := renderers[..i] + [x] + renderers[i..];
      at := i;
      r := Pass;
    }
  }

  /** Inserting `x` at `i` adds one `x` and lists the layers with `x`'s layer at `i`. */
  lemma InsertFacts(rs: seq<Renderer>, i: nat, x: Renderer)
    requires i <= |rs|
    ensures multiset(rs[..i] + [x] + rs[i..]) == multiset(rs) + multiset{x}
    ensures Layers(rs[..i] + [x] + rs[i..]) == Layers(rs)[..i] + [x.layer] + Layers(rs)[i..]
  {
    assert rs == rs[..i] + rs[i..];
  }

  // ---------------------------------------------------------------------
  // Concrete renderers and colliders

  /** `value * 2` for a number. */
  function PyDouble(v: Value): (r: Value)
    requires IsIntOrFloat(v)
    ensures IsIntOrFloat(r)
    ensures IsFiniteNumber(v) ==> IsFiniteNumber(r) && AsReal(r) == 2.0 * AsReal(v)
  {
    match v
    case Bool(b) => Int(if b then 2 else 0)
    case Int(i) => Int(2 * i)
    case Float(f) => Float(2.0 * f)
    case _ => v
  }

  /** `value / 2` for a number: always a float. */
  function PyHalf(v: Value): (r: Value)
    requires IsIntOrFloat(v)
    ensures IsIntOrFloat(r)
    ensures IsFiniteNumber(v) ==> r == Float(AsReal(v) / 2.0)
    ensures ValidatePositiveNumber(v) == Pass ==> ValidatePositiveNumber(r) == Pass
  {
    match v
    case NaN => NaN
    case Infinity(positive) => Infinity(positive)
    case Bool(_) => Float(AsReal(v) / 2.0)
    case Int(_) => Float(AsReal(v) / 2.0)
    case Float(f) => Float(f / 2.0)
    case _ => NaN
  }

  /** Setting a finite diameter and reading it back gives the same number. */
  lemma DiameterRoundTrip(d: Value)
    requires IsFiniteNumber(d)
    ensures AsReal(PyDouble(PyHalf(d))) == AsReal(d)
  {
  }

  class CircleRenderer {
    const renderer: Renderer
    var radius: Value

    /** `CircleRenderer(radius, color, layer)`: the radius is validated, the layer is not. */
    static method New(radius: Value, layer: int) returns (r: Result<CircleRenderer>)
      ensures r.Err? <==> ValidatePositiveNumber(radius).Fail?
      ensures r.Err? ==> Fail(r.error) == ValidatePositiveNumber(radius)
      ensures r.Ok? ==> fresh(r.value) && fresh(r.value.renderer) && fresh(r.value.renderer.base)
      ensures r.Ok? ==> r.value.radius == radius && r.value.renderer.layer == layer
      ensures r.Ok? ==> r.value.renderer.base.kind == CircleRenderer && r.value.renderer.base.simObject == null
    {
      var check := ValidatePositiveNumber(radius);
      if check.Fail? {
        return Err(check.error);
      }
      var c := new CircleRenderer.Init(radius, layer);
      r := Ok(c);
    }

    constructor Init(radius: Value, layer: int)
      ensures fresh(renderer) && fresh(renderer.base) && this.radius == radius && renderer.layer == layer
      ensures renderer.base.kind == CircleRenderer && renderer.base.simObject == null
    {
      renderer := new Renderer(CircleRenderer, layer);
      this.radius := radius;
    }

    /** The `radius` setter: a TypeError or ValueError from the validator, or the value stored. */
    method SetRadius(v: Value) returns (r: Outcome)
      modifies this`radius
      ensures r == ValidatePositiveNumber(v)
      ensures r == Pass ==> radius == v
      ensures r.Fail? ==> radius == old(radius)
    {
      r := ValidatePositiveNumber(v);
      if r == Pass {
        radius := v;
      }
    }

    /** The `diameter` getter: twice the radius. */
    function Diameter(): (d: Value)
      reads this
      requires IsIntOrFloat(radius)
      ensures IsFiniteNumber(radius) ==> IsFiniteNumber(d) && AsReal(d) == 2.0 * AsReal(radius)
    {
      PyDouble(radius)
    }

    /** The `diameter` setter: validates, then sets the radius to half the value; a finite diameter reads back unchanged. */
    method SetDiameter(v: Value) returns (r: Outcome)
      modifies this`radius
      ensures r == ValidatePositiveNumber(v)
      ensures r == Pass ==> radius == PyHalf(v)
      ensures r == Pass && IsFiniteNumber(v) ==> IsFiniteNumber(radius) && AsReal(Diameter()) == AsReal(v)
      ensures r.Fail? ==> radius == old(radius)
    {
      r := ValidatePositiveNumber(v);
      if r.Fail? {
        return;
      }
      var again := SetRadius(PyHalf(v));
    }
  }

  /** The `stroke_width` setter's checks: a TypeError unless an int, then a ValueError if negative. */
  function CheckStrokeWidth(v: Value): (r: Outcome)
    ensures r == Pass <==> IsInt(v) && AsReal(v) >= 0.0
    ensures r.Fail? ==> (r.error == TypeError <==> !IsInt(v))
    ensures r.Fail? ==> r.error == TypeError || r.error == ValueError
  {
    if !IsInt(v) then Fail(TypeError) else ValidatePositiveNumber(v)
  }

  class BoundaryRenderer {
    const renderer: Renderer
    var strokeWidth: Value
    var boundary: BoundingVolume

    /**
     * `BoundaryRenderer(boundary, color, stroke_width, layer)`: the stroke
     * width is checked first, then the boundary must be a BoundingVolume
     * (null stands for any other object).
     */
    static method New(boundary: BoundingVolume?, strokeWidth: Value, layer: int) returns (r: Result<BoundaryRenderer>)
      ensures r.Err? <==> CheckStrokeWidth(strokeWidth).Fail? || boundary == null
      ensures CheckStrokeWidth(strokeWidth).Fail? ==> r == Err(CheckStrokeWidth(strokeWidth).error)
      ensures CheckStrokeWidth(strokeWidth) == Pass && boundary == null ==> r == Err(TypeError)
      ensures r.Ok? ==> fresh(r.value) && fresh(r.value.renderer) && fresh(r.value.renderer.base)
      ensures r.Ok? ==> r.value.boundary == boundary && r.value.strokeWidth == strokeWidth && r.value.renderer.layer == layer
      ensures r.Ok? ==> r.value.renderer.base.kind == BoundaryRenderer && r.value.renderer.base.simObject == null
    {
      var check := CheckStrokeWidth(strokeWidth);
      if check.Fail? {
        return Err(check.error);
      }
      if boundary == null {
        return Err(TypeError);
      }
      var b := new BoundaryRenderer.Init(boundary, strokeWidth, layer);
      r := Ok(b);
    }

    constructor Init(boundary: BoundingVolume, strokeWidth: Value, layer: int)
      ensures fresh(renderer) && fresh(renderer.base)
      ensures this.boundary == boundary && this.strokeWidth == strokeWidth && renderer.layer == layer
      ensures renderer.base.kind == BoundaryRenderer && renderer.base.simObject == null
    {
      renderer := new Renderer(BoundaryRenderer, layer);
      this.boundary := boundary;
      this.strokeWidth := strokeWidth;
    }

    /** The `stroke_width` setter: only a non-negative int is stored. */
    method SetStrokeWidth(v: Value) returns (r: Outcome)
      modifies this`strokeWidth
      ensures r == CheckStrokeWidth(v)
      ensures r == Pass ==> strokeWidth == v
      ensures r.Fail? ==> strokeWidth == old(strokeWidth)
    {
      r := CheckStrokeWidth(v);
      if r == Pass {
        strokeWidth := v;
      }
    }
  }

  class CircleCollider {
    const collider: Collider
    var radius: Value

    /** `CircleCollider(radius)`: the radius is validated. */
    static method New(radius: Value) returns (r: Result<CircleCollider>)
      ensures r.Err? <==> ValidatePositiveNumber(radius).Fail?
      ensures r.Err? ==> Fail(r.error) == ValidatePositiveNumber(radius)
      ensures r.Ok? ==> fresh(r.value) && fresh(r.value.collider) && fresh(r.value.collider.base)
      ensures r.Ok? ==> r.value.radius == radius && r.value.collider.base.kind == CircleCollider
      ensures r.Ok? ==> r.value.collider.base.simObject == null
    {
      var check := ValidatePositiveNumber(radius);
      if check.Fail? {
        return Err(check.error);
      }
      var c := new CircleCollider.Init(radius);
      r := Ok(c);
    }

    constructor Init(radius: Value)
      ensures fresh(collider) && fresh(collider.base) && this.radius == radius
      ensures collider.base.kind == CircleCollider && collider.base.simObject == null
    {
      var base := new Component(CircleCollider);
      collider := new Collider(base);
      this.radius := radius;
    }

    /** The `radius` setter. */
    method SetRadius(v: Value) returns (r: Outcome)
      modifies this`radius
      ensures r == ValidatePositiveNumber(v)
      ensures r == Pass ==> radius == v
      ensures r.Fail? ==> radius == old(radius)
    {
      r := ValidatePositiveNumber(v);
      if r == Pass {
        radius := v;
      }
    }

    /** The collider as the collision checks see it, centred on its object's position. */
    function ShapeAt(position: Vec2): Shape
      reads this
    {
      CircleShape(position, radius)
    }
  }

  class BorderCollider {
    const collider: Collider
    const volume: BoundingVolume

    /** `BorderCollider(top, bottom, left, right)`: the BoundingVolume checks. */
    static method New(top: Value, bottom: Value, left: Value, right: Value) returns (r: Result<BorderCollider>)
      ensures r.Err? <==> !Ordered(Box(top, bottom, left, right))
      ensures r.Err? ==> Fail(r.error) == CheckVolume(Box(top, bottom, left, right))
      ensures r.Ok? ==> fresh(r.value) && fresh(r.value.collider) && fresh(r.value.collider.base) && fresh(r.value.volume)
      ensures r.Ok? ==> r.value.volume.Edges() == Box(top, bottom, left, right)
      ensures r.Ok? ==> r.value.collider.base.kind == BorderCollider && r.value.collider.base.simObject == null
    {
      var v := BoundingVolume.New(top, bottom, left, right);
      if v.Err? {
        return Err(v.error);
      }
      var c := new BorderCollider.Init(v.value);
      r := Ok(c);
    }

    constructor Init(volume: BoundingVolume)
      ensures fresh(collider) && fresh(collider.base) && this.volume == volume
      ensures collider.base.kind == BorderCollider && collider.base.simObject == null
    {
      var base := new Component(BorderCollider);
      collider := new Collider(base);
      this.volume := volume;
    }

    /** The collider as the collision checks see it. */
    function Shape(): Shape
      reads this, volume
    {
      BorderShape(volume.Edges())
    }
  }

  // ---------------------------------------------------------------------
  // Factories

  /**
   * `get_border_object(top, bottom, left, right, color, stroke_width, layer,
   * components)`: a border collider and a boundary renderer over a second
   * BoundingVolume with the same edges, attached in that order before the
   * extra components.
   */
  method GetBorderObject(top: Value, bottom: Value, left: Value, right: Value,
                         strokeWidth: Value, layer: int, extras: seq<ComponentArg>)
    returns (r: Result<SimObject>, ghost border: BorderCollider?, ghost renderer: BoundaryRenderer?)
    modifies set i | 0 <= i < |extras| && extras[i].AComponent? :: extras[i].c`simObject
    ensures !Ordered(Box(top, bottom, left, right)) ==> r.Err? && Fail(r.error) == CheckVolume(Box(top, bottom, left, right))
    ensures Ordered(Box(top, bottom, left, right)) && CheckStrokeWidth(strokeWidth).Fail? ==>
              r == Err(CheckStrokeWidth(strokeWidth).error)
    ensures r.Ok? <==> Ordered(Box(top, bottom, left, right)) && CheckStrokeWidth(strokeWidth) == Pass
                       && forall i :: 0 <= i < |extras| ==> extras[i].AComponent?
    ensures r.Ok? ==> border != null && renderer != null
    ensures r.Ok? ==> border.volume.Edges() == renderer.boundary.Edges() == Box(top, bottom, left, right)
    ensures r.Ok? ==> border.volume != renderer.boundary
    ensures r.Ok? ==> |r.value.components| >= 2 && r.value.components[..2] == [border.collider.base, renderer.renderer.base]
    ensures r.Ok? ==> renderer.strokeWidth == strokeWidth && renderer.renderer.layer == layer
  {
    border, renderer := null, null;
    var c := BorderCollider.New(top, bottom, left, right);
    if c.Err? {
      return Err(c.error), border, renderer;
    }
    var v := BoundingVolume.New(top, bottom, left, right);
    var b := BoundaryRenderer.New(v.value, strokeWidth, layer);
    if b.Err? {
      return Err(b.error), border, renderer;
    }
    border, renderer := c.value, b.value;
    r := Assemble(c.value.collider.base, b.value.renderer.base, extras);
  }

  /**
   * `get_circle_body(radius, color, layer, components)`: a circle renderer
   * and a circle collider with the same radius, attached in that order
   * before the extra components.
   */
  method GetCircleBody(radius: Value, layer: int, extras: seq<ComponentArg>)
    returns (r: Result<SimObject>, ghost renderer: CircleRenderer?, ghost collider: CircleCollider?)
    modifies set i | 0 <= i < |extras| && extras[i].AComponent? :: extras[i].c`simObject
    ensures ValidatePositiveNumber(radius).Fail? ==> r == Err(ValidatePositiveNumber(radius).error)
    ensures r.Ok? <==> ValidatePositiveNumber(radius) == Pass && forall i :: 0 <= i < |extras| ==> extras[i].AComponent?
    ensures r.Ok? ==> renderer != null && collider != null
    ensures r.Ok? ==> renderer.radius == collider.radius == radius && renderer.renderer.layer == layer
    ensures r.Ok? ==> |r.value.components| >= 2 && r.value.components[..2] == [renderer.renderer.base, collider.collider.base]
  {
    renderer, collider := null, null;
    var rr := CircleRenderer.New(radius, layer);
    if rr.Err? {
      return Err(rr.error), renderer, collider;
    }
    var cc := CircleCollider.New(radius);
    renderer, collider := rr.value, cc.value;
    r := Assemble(rr.value.renderer.base, cc.value.collider.base, extras);
  }

  /** `SimObject((first, second, *extras))`. */
  method Assemble(first: Component, second: Component, extras: seq<ComponentArg>) returns (r: Result<SimObject>)
    modifies first`simObject, second`simObject
    modifies set i | 0 <= i < |extras| && extras[i].AComponent? :: extras[i].c`simObject
    ensures r.Ok? <==> forall i :: 0 <= i < |extras| ==> extras[i].AComponent?
    ensures r.Err? ==> exists i :: FirstRejected(extras, i) && r.error == extras[i].Rejection()
    ensures r.Ok? ==> |r.value.components| >= 2 && r.value.components[..2] == [first, second]
  {
    var args := [AComponent(first), AComponent(second)] + extras;
    assert forall i :: 0 <= i < |extras| ==> args[i + 2] == extras[i];
    assert forall i :: 2 <= i < |args| ==> args[i] == extras[i - 2];
    r := SimObject.New(args);
    if r.Ok? {
      SuppliedPrefix(args);
    } else {
      ghost var k :| FirstRejected(args, k) && r.error == args[k].Rejection();
      assert FirstRejected(extras, k - 2);
    }
  }

  /** The first two supplied components, when the first two arguments are components. */
  lemma {:induction false} SuppliedPrefix(args: seq<ComponentArg>)
    requires |args| >= 2 && args[0].AComponent? && args[1].AComponent?
    ensures |Supplied(args)| >= 2 && Supplied(args)[..2] == [args[0].c, args[1].c]
  {
    if |args| > 2 {
      SuppliedPrefix(args[..|args| - 1]);
      assert args[..|args| - 1][..2] == args[..2];
    } else {
      assert args[..1] == [args[0]];
      assert [args[0]][..0] == [];
    }
  }
}
