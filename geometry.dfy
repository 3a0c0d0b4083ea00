/** Vector helpers shared by both simulation engines: the toroidal wrap of a
    position and the world-to-screen transform, over exact reals.

    Square roots and trigonometry cannot be defined over Dafny's reals, so the
    vector magnitude (`norm`) and the unit vector of an angle (`vec_from_angle`)
    reach the model as function-valued parameters.  `IsNorm` says what every
    caller may assume of the magnitude. */
module Geometry {

  /** A 2D vector; a point of the world is the same pair of coordinates. */
  datatype Vec2 = Vec2(x: real, y: real)

  type Point2 = Vec2

  const Zero: Vec2 := Vec2(0.0, 0.0)

  function Add(a: Vec2, b: Vec2): Vec2 { Vec2(a.x + b.x, a.y + b.y) }

  function Sub(a: Vec2, b: Vec2): Vec2 { Vec2(a.x - b.x, a.y - b.y) }

  /** `v * k` */
  function Scale(v: Vec2, k: real): Vec2 { Vec2(v.x * k, v.y * k) }

  /** `v / d` */
  function Div(v: Vec2, d: real): Vec2
    requires d != 0.0
  {
    Vec2(v.x / d, v.y / d)
  }

  /** `a * a` (kept as a function of its own: the solver reasons about it far
      better than about a bare product of a term with itself). */
  function Sq(a: real): real { a * a }

  /** Squared magnitude, nalgebra's `norm_squared`. */
  function NormSq(v: Vec2): real { Sq(v.x) + Sq(v.y) }

  /** What the model assumes of the magnitude function nalgebra calls `norm`. */
  ghost predicate IsNorm(norm: Vec2 -> real)
  {
    forall v :: 0.0 <= norm(v) && Sq(norm(v)) == NormSq(v)
  }

  /** The unit vector nalgebra's `normalize` returns. */
  function Normalized(v: Vec2, norm: Vec2 -> real): Vec2
    requires norm(v) != 0.0
  {
    Div(v, norm(v))
  }

  /** `a` is a positive multiple of `b`. */
  predicate SameDirection(a: Vec2, b: Vec2)
  {
    a.x * b.y == a.y * b.x && 0.0 < a.x * b.x + a.y * b.y
  }

  lemma SquarePositive(a: real)
    ensures 0.0 <= Sq(a)
    ensures a != 0.0 ==> 0.0 < Sq(a)
  {
    if 0.0 < a {
      SquareLess(0.0, a);
    } else if a < 0.0 {
      SquareLess(0.0, -a);
      assert Sq(-a) == Sq(a);
    }
  }

  lemma NormSqNonNegative(v: Vec2)
    ensures 0.0 <= NormSq(v)
    ensures NormSq(v) == 0.0 <==> v == Zero
  {
    SquarePositive(v.x);
    SquarePositive(v.y);
  }

  lemma NormSqScale(v: Vec2, k: real)
    ensures NormSq(Scale(v, k)) == Sq(k) * NormSq(v)
  {
    assert Sq(v.x * k) == Sq(k) * Sq(v.x);
    assert Sq(v.y * k) == Sq(k) * Sq(v.y);
  }

  /** Squaring is strictly increasing on the non-negative reals. */
  lemma SquareLess(a: real, b: real)
    requires 0.0 <= a < b
    ensures Sq(a) < Sq(b)
  {
    assert Sq(a) <= a * b;
    assert a * b < Sq(b);
  }

  /** Two non-negative reals with the same square are equal. */
  lemma SquareRootUnique(a: real, b: real)
    requires 0.0 <= a && 0.0 <= b && Sq(a) == Sq(b)
    ensures a == b
  {
    if a < b {
      SquareLess(a, b);
    } else if b < a {
      SquareLess(b, a);
    }
  }

  /** The magnitude is zero exactly at the zero vector. */
  lemma NormZero(v: Vec2, norm: Vec2 -> real)
    requires IsNorm(norm)
    ensures norm(v) == 0.0 <==> v == Zero
  {
    NormSqNonNegative(v);
    SquarePositive(norm(v));
  }

  /** Comparing a magnitude with a non-negative bound is the same as comparing
      the squared magnitude with the squared bound. */
  lemma NormCompare(v: Vec2, s: real, norm: Vec2 -> real)
    requires IsNorm(norm) && 0.0 <= s
    ensures norm(v) < s <==> NormSq(v) < Sq(s)
    ensures norm(v) > s <==> NormSq(v) > Sq(s)
  {
    var n := norm(v);
    assert Sq(n) == NormSq(v) && 0.0 <= n;
    if n < s {
      SquareLess(n, s);
    } else if n > s {
      SquareLess(s, n);
    }
  }

  /** Rescaling a nonzero vector to length `c` along its own direction. */
  lemma RescaledNorm(v: Vec2, c: real, norm: Vec2 -> real)
    requires IsNorm(norm) && v != Zero && 0.0 <= c
    ensures norm(v) != 0.0
    ensures NormSq(Scale(Normalized(v, norm), c)) == Sq(c)
    ensures norm(Scale(Normalized(v, norm), c)) == c
    ensures 0.0 < c ==> SameDirection(Scale(Normalized(v, norm), c), v)
  {
    NormZero(v, norm);
    var n := norm(v);
    RescaledIsMultiple(v, n, c);
    RescaledLength(v, n, c);
    SquareRootUnique(norm(Scale(Normalized(v, norm), c)), c);
    if 0.0 < c {
      NormSqNonNegative(v);
      MultipleDirection(v, c / n);
    }
  }

  /** Dividing by `n` and then multiplying by `c` is multiplying by `c / n`. */
  lemma RescaledIsMultiple(v: Vec2, n: real, c: real)
    requires n != 0.0
    ensures Scale(Div(v, n), c) == Scale(v, c / n)
  {
    assert (v.x / n) * c == v.x * (c / n);
    assert (v.y / n) * c == v.y * (c / n);
  }

  /** `f * v / d`, written component by component, is `v / d` scaled by `f`. */
  lemma QuotientTimes(v: Vec2, f: real, d: real)
    requires d != 0.0
    ensures Vec2(f * v.x / d, f * v.y / d) == Scale(Div(v, d), f)
  {
    assert f * v.x / d == v.x / d * f;
    assert f * v.y / d == v.y / d * f;
  }

  /** A vector of squared length `Sq(n)`, scaled by `c / n`, has squared
      length `Sq(c)`. */
  lemma RescaledLength(v: Vec2, n: real, c: real)
    requires n != 0.0 && NormSq(v) == Sq(n)
    ensures NormSq(Scale(v, c / n)) == Sq(c)
  {
    var k := c / n;
    NormSqScale(v, k);
    assert k * n == c;
    assert Sq(k) * Sq(n) == Sq(k * n);
  }

  /** A positive multiple of a nonzero vector points the same way. */
  lemma MultipleDirection(v: Vec2, k: real)
    requires 0.0 < k && 0.0 < NormSq(v)
    ensures SameDirection(Scale(v, k), v)
  {
    var r := Scale(v, k);
    assert r.x * v.x + r.y * v.y == k * NormSq(v);
    assert r.x * v.y == k * (v.x * v.y) && r.y * v.x == k * (v.x * v.y);
  }

  /** `a * b`, named so that the solver keeps a product of a variable and a
      difference as one term. */
  function Mul(a: real, b: real): real { a * b }

  /** A fraction in [0, 1) of a positive whole is below the whole. */
  lemma FractionBelowWhole(f: real, w: real)
    requires 0.0 <= f < 1.0 && 0.0 < w
    ensures 0.0 <= Mul(f, w) < w
  {
    assert f * w < 1.0 * w;
  }

  /** `random_vec`: the unit vector of a random angle (`direction`) scaled by
      a random fraction (`magnitudeDraw`) of `maxMagnitude`. */
  function RandomVec(direction: Vec2, magnitudeDraw: real, maxMagnitude: real): Vec2
  {
    Scale(direction, magnitudeDraw * maxMagnitude)
  }

  /** For a unit direction and a draw in [0, 1) the vector is shorter than
      `maxMagnitude`. */
  lemma RandomVecBelowMax(direction: Vec2, magnitudeDraw: real, maxMagnitude: real)
    requires NormSq(direction) == 1.0 && 0.0 <= magnitudeDraw < 1.0 && 0.0 < maxMagnitude
    ensures NormSq(RandomVec(direction, magnitudeDraw, maxMagnitude)) < Sq(maxMagnitude)
  {
    FractionBelowWhole(magnitudeDraw, maxMagnitude);
    NormSqScale(direction, magnitudeDraw * maxMagnitude);
    SquareLess(Mul(magnitudeDraw, maxMagnitude), maxMagnitude);
  }

  // ---------------------------------------------------------------------
  // Toroidal wrap
  // ---------------------------------------------------------------------

  /** One axis of the wrap: a coordinate beyond half the extent on either side
      is moved back by one whole extent; nothing else moves. */
  function WrapCoord(c: real, extent: real): (r: real)
    ensures r == c || r == c - extent || r == c + extent
    ensures -(extent / 2.0) <= c <= extent / 2.0 ==> r == c
    ensures 0.0 < extent && -(3.0 * extent / 2.0) <= c <= 3.0 * extent / 2.0 ==>
              -(extent / 2.0) <= r <= extent / 2.0
  {
    if c > extent / 2.0 then c - extent
    else if c < -(extent / 2.0) then c + extent
    else c
  }

  /** The wrapped point: each axis against its own extent, independently. */
  function Wrap(pos: Point2, boundary: Vec2): (r: Point2)
    ensures (-(boundary.x / 2.0) <= pos.x <= boundary.x / 2.0 &&
             -(boundary.y / 2.0) <= pos.y <= boundary.y / 2.0) ==> r == pos
    ensures 0.0 < boundary.x && -(3.0 * boundary.x / 2.0) <= pos.x <= 3.0 * boundary.x / 2.0 ==>
              -(boundary.x / 2.0) <= r.x <= boundary.x / 2.0
    ensures 0.0 < boundary.y && -(3.0 * boundary.y / 2.0) <= pos.y <= 3.0 * boundary.y / 2.0 ==>
              -(boundary.y / 2.0) <= r.y <= boundary.y / 2.0
  {
    Vec2(WrapCoord(pos.x, boundary.x), WrapCoord(pos.y, boundary.y))
  }

  /** The branches of the wrap, one axis at a time. */
  lemma WrapCases(pos: Point2, boundary: Vec2)
    ensures pos.x > boundary.x / 2.0 ==> Wrap(pos, boundary).x == pos.x - boundary.x
    ensures 0.0 <= boundary.x && pos.x < -(boundary.x / 2.0) ==> Wrap(pos, boundary).x == pos.x + boundary.x
    ensures pos.y > boundary.y / 2.0 ==> Wrap(pos, boundary).y == pos.y - boundary.y
    ensures 0.0 <= boundary.y && pos.y < -(boundary.y / 2.0) ==> Wrap(pos, boundary).y == pos.y + boundary.y
  {
  }

  /** The x result depends on x and `boundary.x` alone, the y result on y and
      `boundary.y` alone. */
  lemma WrapAxesIndependent(p: Point2, q: Point2, boundary: Vec2)
    ensures p.x == q.x ==> Wrap(p, boundary).x == Wrap(q, boundary).x
    ensures p.y == q.y ==> Wrap(p, boundary).y == Wrap(q, boundary).y
  {
  }

  /** Once a point is inside the screen box, wrapping again changes nothing. */
  lemma WrapIdempotent(pos: Point2, boundary: Vec2)
    requires 0.0 < boundary.x && 0.0 < boundary.y
    requires -(3.0 * boundary.x / 2.0) <= pos.x <= 3.0 * boundary.x / 2.0
    requires -(3.0 * boundary.y / 2.0) <= pos.y <= 3.0 * boundary.y / 2.0
    ensures Wrap(Wrap(pos, boundary), boundary) == Wrap(pos, boundary)
  {
  }

  /** `wrap_actor_position`: updates the point in place, one axis after the
      other; the result is returned. */
  method WrapActorPosition(pos: Point2, boundary: Vec2) returns (wrapped: Point2)
    ensures wrapped == Wrap(pos, boundary)
  {
    wrapped := pos;
    var screenXBounds := boundary.x / 2.0;
    var screenYBounds := boundary.y / 2.0;
    if wrapped.x > screenXBounds {
      wrapped := wrapped.(x := wrapped.x - boundary.x);
    } else if wrapped.x < -screenXBounds {
      wrapped := wrapped.(x := wrapped.x + boundary.x);
    }
    if wrapped.y > screenYBounds {
      wrapped := wrapped.(y := wrapped.y - boundary.y);
    } else if wrapped.y < -screenYBounds {
      wrapped := wrapped.(y := wrapped.y + boundary.y);
    }
  }

  // ---------------------------------------------------------------------
  // World and screen coordinates
  // ---------------------------------------------------------------------

  /** The inverse transform: from screen space (origin top-left, y down) back
      to world space (origin at the centre, y up). */
  function ScreenToWorld(screenWidth: nat, screenHeight: nat, point: Point2): Point2
  {
    Vec2(point.x - (screenWidth as real) / 2.0, (screenHeight as real) / 2.0 - point.y)
  }

  /** `world_to_screen_coords`: the screen point it returns maps back to the
      world point it was given. */
  function WorldToScreen(screenWidth: nat, screenHeight: nat, point: Point2): (r: Point2)
    ensures ScreenToWorld(screenWidth, screenHeight, r) == point
  {
    var width := screenWidth as real;
    var height := screenHeight as real;
    Vec2(point.x + width / 2.0, height - (point.y + height / 2.0))
  }

  /** The two transforms are inverse in the other order too, and the world
      origin lands at the centre of the screen. */
  lemma ScreenToWorldRoundTrip(screenWidth: nat, screenHeight: nat, point: Point2)
    ensures WorldToScreen(screenWidth, screenHeight, ScreenToWorld(screenWidth, screenHeight, point)) == point
    ensures WorldToScreen(screenWidth, screenHeight, Zero)
            == Vec2((screenWidth as real) / 2.0, (screenHeight as real) / 2.0)
  {
  }

  /** Left-to-right order is kept; y-up becomes y-down. */
  lemma WorldToScreenOrder(screenWidth: nat, screenHeight: nat, p: Point2, q: Point2)
    ensures p.x < q.x <==> WorldToScreen(screenWidth, screenHeight, p).x < WorldToScreen(screenWidth, screenHeight, q).x
    ensures p.y < q.y <==> WorldToScreen(screenWidth, screenHeight, p).y > WorldToScreen(screenWidth, screenHeight, q).y
  {
  }
}
