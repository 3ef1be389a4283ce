/** Real vectors and matrices, and the two rounding operations the renderer relies on:
    numpy's `floor` (Dafny's `.Floor`) and Python's `int()` on a float (truncation). */
module Geometry {

  datatype Vec2 = Vec2(x: real, y: real)
  datatype Vec3 = Vec3(x: real, y: real, z: real)

  /** A 3x3 matrix given by its rows; a cell matrix holds one cell vector per row. */
  datatype Mat3 = Mat3(r0: Vec3, r1: Vec3, r2: Vec3)

  function Dot2(a: Vec2, b: Vec2): real { a.x * b.x + a.y * b.y }
  function Dot3(a: Vec3, b: Vec3): real { a.x * b.x + a.y * b.y + a.z * b.z }
  function Sub2(a: Vec2, b: Vec2): Vec2 { Vec2(a.x - b.x, a.y - b.y) }
  function Scale2(v: Vec2, s: real): Vec2 { Vec2(v.x * s, v.y * s) }
  /** numpy `v - s` for a scalar `s`: subtracted from every component. */
  function Minus2(v: Vec2, s: real): Vec2 { Vec2(v.x - s, v.y - s) }
  function Plus2(v: Vec2, s: real): Vec2 { Vec2(v.x + s, v.y + s) }

  /** numpy `v @ m` for a 1-D `v`: `v` is read as a row vector, so component `k` is
      the sum over rows `i` of `v[i] * m[i, k]`. */
  function RowTimes(v: Vec3, m: Mat3): Vec3 {
    Vec3(v.x * m.r0.x + v.y * m.r1.x + v.z * m.r2.x,
         v.x * m.r0.y + v.y * m.r1.y + v.z * m.r2.y,
         v.x * m.r0.z + v.y * m.r1.z + v.z * m.r2.z)
  }

  function Abs(x: real): real { if x < 0.0 then -x else x }

  /** `x - floor(x + 0.5)`: the minimum-image reduction of one fractional component.
      The result lies in [-1/2, 1/2) and differs from `x` by an integer. */
  function Wrap(x: real): (w: real)
    ensures -0.5 <= w < 0.5
    ensures (x - w).Floor as real == x - w
  {
    x - (x + 0.5).Floor as real
  }

  /** Shifting a fractional coordinate by a whole cell does not change its reduction. */
  lemma WrapPeriodic(x: real, n: int)
    ensures Wrap(x + n as real) == Wrap(x)
  {
    var k := (x + 0.5).Floor;
    assert k as real <= x + n as real + 0.5 - n as real < k as real + 1.0;
    assert (x + n as real + 0.5).Floor == k + n;
  }

  /** The reduction picks the nearest periodic image: no integer shift of `x` is
      closer to zero. */
  lemma WrapIsNearest(x: real, n: int)
    ensures Abs(Wrap(x)) <= Abs(x - n as real)
  {
    var w := Wrap(x);
    var k := (x - w).Floor;
    assert x - n as real == w + (k - n) as real;
    if k - n >= 1 {
      assert w + (k - n) as real >= 0.5;
    } else if k - n <= -1 {
      assert w + (k - n) as real < -0.5;
    }
  }

  /** Python's `int()` on a float: rounds toward zero. */
  function Trunc(x: real): (t: int)
    ensures 0.0 <= x ==> 0 <= t && t as real <= x < t as real + 1.0
    ensures x < 0.0 ==> t <= 0 && t as real - 1.0 < x <= t as real
  {
    if 0.0 <= x then x.Floor else -((-x).Floor)
  }
}
