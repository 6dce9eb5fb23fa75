/**
 * The border factory: four static segments around an axis-aligned
 * rectangle, drawn by a closed polygon renderer. The factory only validates
 * its bounds and builds values, so the object it returns is described here
 * as a value: which vertices, which segments, which body type, which
 * components in which order.
 */
module Borders {
  import opened Wrappers
  import opened Vectors
  import opened Physics

  /** A `pymunk.Segment` of radius 0 from `a` to `b`. */
  datatype Segment = Segment(a: Vec2, b: Vec2, mass: real, elasticity: real)

  /** A component handed to the border's SimObject, in the order it is attached. */
  datatype Part =
    | PolyRenderer(vertices: seq<Vec2>, closed: bool, layer: nat)
    | SegmentBody(segments: seq<Segment>, bodyType: BodyType)
    | Extra(index: nat)      // the i-th of the caller's extra components

  /** `SimObject(tag, components=(renderer, rigidbody, *components))`. */
  datatype BorderObject = BorderObject(tag: string, parts: seq<Part>)

  /** The corners in the factory's order: (left, up), (right, up), (right, down), (left, down). */
  function Corners(up: real, down: real, left: real, right: real): (vs: seq<Vec2>)
    ensures |vs| == 4
    ensures forall i :: 0 <= i < 4 ==> (vs[i].y == up || vs[i].y == down) && (vs[i].x == left || vs[i].x == right)
  {
    [Vec2(left, up), Vec2(right, up), Vec2(right, down), Vec2(left, down)]
  }

  /** The corner after corner `i` going round the loop. */
  function Next(i: nat): nat { if i >= 3 then 0 else i + 1 }

  /** One segment per side, each from a corner to the next one around the loop. */
  function Sides(vs: seq<Vec2>, elasticity: real): (ss: seq<Segment>)
    requires |vs| == 4
    ensures |ss| == 4
    ensures forall i :: 0 <= i < 4 ==> ss[i] == Segment(vs[i], vs[Next(i)], 1.0, elasticity)
  {
    [Segment(vs[0], vs[1], 1.0, elasticity), Segment(vs[1], vs[2], 1.0, elasticity),
     Segment(vs[2], vs[3], 1.0, elasticity), Segment(vs[3], vs[0], 1.0, elasticity)]
  }

  function Extras(n: nat): (ps: seq<Part>)
    ensures |ps| == n && forall i :: 0 <= i < n ==> ps[i] == Extra(i)
  {
    seq(n, i requires 0 <= i => Extra(i))
  }

  /**
   * `get_border_object(tag, up, down, left, right, elasticity, color, layer, components)`
   * with `extras` extra components. A ValueError when `up < down`, when
   * `right < left`, and, from the renderer's layer setter, when `layer < 0`.
   */
  function GetBorderObject(tag: string, up: real, down: real, left: real, right: real,
                           elasticity: real, layer: int, extras: nat): (r: Result<BorderObject>)
    ensures r.Err? <==> up < down || right < left || layer < 0
    ensures r.Err? ==> r.error == ValueError
    ensures r.Ok? ==>
      && r.value.tag == tag
      && |r.value.parts| == 2 + extras
      && r.value.parts[0] == PolyRenderer(Corners(up, down, left, right), true, layer)
      && r.value.parts[1] == SegmentBody(Sides(Corners(up, down, left, right), elasticity), Static)
      && r.value.parts[2..] == Extras(extras)
  {
    if up < down then Err(ValueError)
    else if right < left then Err(ValueError)
    else if layer < 0 then Err(ValueError)
    else
      var vs := Corners(up, down, left, right);
      Ok(BorderObject(tag, [PolyRenderer(vs, true, layer), SegmentBody(Sides(vs, elasticity), Static)] + Extras(extras)))
  }

  /** Equal bounds are accepted: a border may be a single point or a line. */
  lemma DegenerateBorderAccepted(tag: string, x: real, y: real, elasticity: real)
    ensures GetBorderObject(tag, y, y, x, x, elasticity, 0, 0).Ok?
  {
  }

  /**
   * The four segments of an accepted border form one closed loop through the
   * corners: each starts where the previous one ends, the last ends where the
   * first starts, and each lies on one side of the rectangle.
   */
  lemma BorderIsClosedLoop(tag: string, up: real, down: real, left: real, right: real,
                           elasticity: real, layer: int, extras: nat)
    requires GetBorderObject(tag, up, down, left, right, elasticity, layer, extras).Ok?
    ensures var ss := GetBorderObject(tag, up, down, left, right, elasticity, layer, extras).value.parts[1].segments;
      && |ss| == 4
      && (forall i :: 0 <= i < 4 ==> ss[i].b == ss[Next(i)].a)
      && (forall i :: 0 <= i < 4 ==> ss[i].mass == 1.0 && ss[i].elasticity == elasticity)
      && (forall i :: 0 <= i < 4 ==> ss[i].a.x == ss[i].b.x || ss[i].a.y == ss[i].b.y)
      && (forall i :: 0 <= i < 4 ==> down <= ss[i].a.y <= up && left <= ss[i].a.x <= right)
  {
    var ss := GetBorderObject(tag, up, down, left, right, elasticity, layer, extras).value.parts[1].segments;
    var vs := Corners(up, down, left, right);
    assert ss == Sides(vs, elasticity);
  }
}
