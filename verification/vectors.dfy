/** Three-component vectors over the reals: the part of Unity's Vector3 that the
    flocking code uses (addition, subtraction, scaling by and division by a scalar,
    and the comparison of a Euclidean distance against a threshold). */
module Vectors {

  datatype Vec3 = Vec3(x: real, y: real, z: real)

  /** Vector3.zero */
  const Zero: Vec3 := Vec3(0.0, 0.0, 0.0)

  function Add(a: Vec3, b: Vec3): Vec3 {
    Vec3(a.x + b.x, a.y + b.y, a.z + b.z)
  }

  /** Zero is the identity of Add. */
  lemma AddZero(v: Vec3)
    ensures Add(Zero, v) == v && Add(v, Zero) == v
  {
  }

  function Sub(a: Vec3, b: Vec3): Vec3 {
    Vec3(a.x - b.x, a.y - b.y, a.z - b.z)
  }

  /** `v * k` for a scalar k */
  function Scale(v: Vec3, k: real): Vec3 {
    Vec3(v.x * k, v.y * k, v.z * k)
  }

  /** `v / d` for a scalar d, component by component */
  function Div(v: Vec3, d: real): Vec3
    requires d != 0.0
  {
    Vec3(v.x / d, v.y / d, v.z / d)
  }

  /** The square of a real. */
  function Square(a: real): (r: real)
    ensures r >= 0.0
  {
    a * a
  }

  /** The square of the Euclidean distance between a and b. */
  function DistSq(a: Vec3, b: Vec3): (r: real)
    ensures r >= 0.0
    ensures a == b ==> r == 0.0
  {
    Square(a.x - b.x) + Square(a.y - b.y) + Square(a.z - b.z)
  }

  /** `Vector3.Distance(a, b) < d`, stated without the square root. A negative
      threshold admits nothing, since a distance is never negative. */
  predicate Within(a: Vec3, b: Vec3, d: real) {
    0.0 <= d && DistSq(a, b) < Square(d)
  }

  /** Squaring is strictly monotone on the non-negative reals. */
  lemma SquareLess(m: real, d: real)
    requires 0.0 <= m < d
    ensures Square(m) < Square(d)
  {
    var e := d - m;
    assert d * d == m * m + 2.0 * m * e + e * e;
    assert e * e > 0.0;
    assert m * e >= 0.0;
  }

  /** Within agrees with the comparison of the Euclidean distance itself: m is the
      distance (the non-negative root of DistSq), and Within holds exactly when m < d. */
  lemma WithinIsDistanceBelow(a: Vec3, b: Vec3, d: real, m: real)
    requires 0.0 <= m && Square(m) == DistSq(a, b)
    ensures Within(a, b, d) <==> m < d
  {
    if 0.0 <= d {
      if m < d {
        SquareLess(m, d);
      } else if d < m {
        SquareLess(d, m);
      }
    }
  }
}
