/** Plane vectors over the reals, standing in for `pygame.Vector2` and pymunk's `Vec2d`. */
module Vectors {

  datatype Vec2 = Vec2(x: real, y: real)

  const Zero := Vec2(0.0, 0.0)

  function Add(a: Vec2, b: Vec2): Vec2 { Vec2(a.x + b.x, a.y + b.y) }
  function Sub(a: Vec2, b: Vec2): Vec2 { Vec2(a.x - b.x, a.y - b.y) }
  function Scale(k: real, a: Vec2): Vec2 { Vec2(k * a.x, k * a.y) }

  /** The square of a real; never negative. */
  function Sq(r: real): (s: real)
    ensures s >= 0.0
  {
    r * r
  }

  /** Only zero squares to zero. */
  lemma SqNonZero(r: real)
    requires r != 0.0
    ensures Sq(r) != 0.0
  {
    // Sq(r) / r == r, and a zero numerator would make that zero.
    var inv := 1.0 / r;
    assert r * inv == 1.0;
    assert Sq(r) * inv == r;
  }

  /** The squared Euclidean distance between two points. */
  function Dist2(a: Vec2, b: Vec2): (r: real)
    ensures r >= 0.0
  {
    Sq(a.x - b.x) + Sq(a.y - b.y)
  }

  /** Distinct points are a positive squared distance apart. */
  lemma DistinctPointsApart(a: Vec2, b: Vec2)
    requires a != b
    ensures Dist2(a, b) > 0.0
  {
    if a.x != b.x {
      SqNonZero(a.x - b.x);
    } else {
      SqNonZero(a.y - b.y);
    }
  }
}
