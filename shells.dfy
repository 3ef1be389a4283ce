/** The shell classifier and the unwrap mapper: for one channel axis, how far an atom
    lies from the axis under periodic boundaries, which shell that puts it in, and where
    it is drawn on the unrolled strip. */
module Shells {
  import opened Geometry

  /** An upper bound on the magnitude of any `math.atan2` result (the float `math.pi`
      is slightly below this value). */
  const Pi: real := 3.14159265358979323846

  /** One hydrogen-bond length, the width of the outer shell. */
  const BondLength: real := 0.276

  /** The angular phase added to every `atan2` result. */
  const Phase: real := 3.5

  /** Vertical spacing of the strips, in multiples of the drawing radius. */
  const StripHeight: real := 7.0

  /** `math.atan2(y, x)` is not modelled; callers pass it in, and the properties that
      need its range assume only this bound. */
  ghost predicate AngleBounded(atan2: (real, real) -> real) {
    forall y: real, x: real :: -Pi <= atan2(y, x) <= Pi
  }

  /** Distance from the axis to the water monolayer: a quarter of the first cell edge. */
  function MaxD(cell: Mat3): real { cell.r0.x / 4.0 }

  /** Approximate radius of the monolayer; used only to scale angles. */
  function Radius(cell: Mat3): real { MaxD(cell) - BondLength / 2.0 }

  /** Outer edge of the second shell. */
  function PlusD(cell: Mat3): real { MaxD(cell) + BondLength }

  datatype Shell = Core | Outer | Excluded

  /** The `if`/`elif` on the squared distance `dd`: strictly inside `maxd` is the core,
      then strictly inside `plusd` the outer shell, and nothing otherwise. */
  function Classify(dd: real, maxd: real, plusd: real): Shell {
    if dd < maxd * maxd then Core
    else if dd < plusd * plusd then Outer
    else Excluded
  }

  /** The transverse fractional offset `rd` of an atom from an axis after the
      minimum-image reduction; its third component stays zero. */
  function Offset(rpos: Vec3, axis: Vec2): (rd: Vec3)
    ensures -0.5 <= rd.x < 0.5 && -0.5 <= rd.y < 0.5 && rd.z == 0.0
    ensures (rpos.x - axis.x - rd.x).Floor as real == rpos.x - axis.x - rd.x
    ensures (rpos.y - axis.y - rd.y).Floor as real == rpos.y - axis.y - rd.y
  {
    var raw := Vec3(rpos.x - axis.x, rpos.y - axis.y, 0.0);
    Vec3(Wrap(raw.x), Wrap(raw.y), Wrap(raw.z))
  }

  /** `D = rd @ cellmat`: the Cartesian transverse offset, all three components. */
  function Transverse(rpos: Vec3, axis: Vec2, cell: Mat3): Vec3 {
    RowTimes(Offset(rpos, axis), cell)
  }

  /** `D @ D`. */
  function SqDist(rpos: Vec3, axis: Vec2, cell: Mat3): real {
    var d := Transverse(rpos, axis, cell);
    Dot3(d, d)
  }

  function ShellOf(rpos: Vec3, axis: Vec2, cell: Mat3): Shell {
    Classify(SqDist(rpos, axis, cell), MaxD(cell), PlusD(cell))
  }

  /** `atan2(D[1], D[0])`: the angular position of the atom around the axis. */
  function Angle(rpos: Vec3, axis: Vec2, cell: Mat3, atan2: (real, real) -> real): real {
    var d := Transverse(rpos, axis, cell);
    atan2(d.y, d.x)
  }

  /** `(a + 3.5) * radius + j * 7 * radius`: the height at which an atom at angle `a`
      is drawn on the strip of axis number `j`. */
  function StripY(a: real, radius: real, j: nat): real {
    (a + Phase) * radius + StripBase(j, radius)
  }

  /** `j * 7 * radius`: the lower edge of the strip of axis number `j`. */
  function StripBase(j: nat, radius: real): real {
    (j as real) * StripHeight * radius
  }

  lemma StripBaseNext(j: nat, radius: real)
    ensures StripBase(j + 1, radius) == StripBase(j, radius) + StripHeight * radius
  {
  }

  /** The unwrap coordinate of an atom for axis number `j`: its Cartesian axial
      position, and its angle scaled by the radius and shifted up by `j` strips. */
  function Unwrap(rpos: Vec3, axis: Vec2, cell: Mat3, j: nat, atan2: (real, real) -> real): Vec2 {
    Vec2(RowTimes(rpos, cell).z, StripY(Angle(rpos, axis, cell, atan2), Radius(cell), j))
  }

  /** The offset from the axis does not depend on which periodic image of the atom is
      given: moving it by a lattice vector leaves the offset, hence the distance, the
      shell and the angle, unchanged. */
  lemma OffsetPeriodic(rpos: Vec3, axis: Vec2, a: int, b: int, c: int)
    ensures Offset(Vec3(rpos.x + a as real, rpos.y + b as real, rpos.z + c as real), axis)
            == Offset(rpos, axis)
  {
    var moved := Vec3(rpos.x + a as real, rpos.y + b as real, rpos.z + c as real);
    assert moved.x - axis.x == (rpos.x - axis.x) + a as real;
    assert moved.y - axis.y == (rpos.y - axis.y) + b as real;
    WrapPeriodic(rpos.x - axis.x, a);
    WrapPeriodic(rpos.y - axis.y, b);
  }

  lemma ShellPeriodic(rpos: Vec3, axis: Vec2, cell: Mat3, a: int, b: int, c: int,
                      atan2: (real, real) -> real)
    ensures var moved := Vec3(rpos.x + a as real, rpos.y + b as real, rpos.z + c as real);
            && SqDist(moved, axis, cell) == SqDist(rpos, axis, cell)
            && ShellOf(moved, axis, cell) == ShellOf(rpos, axis, cell)
            && Angle(moved, axis, cell, atan2) == Angle(rpos, axis, cell, atan2)
  {
    OffsetPeriodic(rpos, axis, a, b, c);
  }

  /** Because the offset's third component is zero, `D` is a combination of the first
      two rows of the cell matrix only, with all three of their components. */
  lemma TransverseUsesFirstTwoRows(rpos: Vec3, axis: Vec2, cell: Mat3)
    ensures var rd := Offset(rpos, axis);
            Transverse(rpos, axis, cell)
            == Vec3(rd.x * cell.r0.x + rd.y * cell.r1.x,
                    rd.x * cell.r0.y + rd.y * cell.r1.y,
                    rd.x * cell.r0.z + rd.y * cell.r1.z)
  {
  }

  /** Widening the outer shell never moves an atom out of the core or out of the outer
      shell; it can only move excluded atoms into the outer shell. */
  lemma ClassifyMonotone(dd: real, maxd: real, plusd: real, plusd': real)
    requires plusd * plusd <= plusd' * plusd'
    ensures Classify(dd, maxd, plusd) == Core <==> Classify(dd, maxd, plusd') == Core
    ensures Classify(dd, maxd, plusd) == Outer ==> Classify(dd, maxd, plusd') == Outer
    ensures Classify(dd, maxd, plusd') == Excluded ==> Classify(dd, maxd, plusd) == Excluded
  {
  }

  /** The core test is strict: an atom exactly at distance `maxd` is in the outer shell. */
  lemma BoundaryIsOuter(dd: real, cell: Mat3)
    requires MaxD(cell) >= 0.0
    requires dd == MaxD(cell) * MaxD(cell)
    ensures Classify(dd, MaxD(cell), PlusD(cell)) == Outer
  {
    var maxd := MaxD(cell);
    assert PlusD(cell) * PlusD(cell) == maxd * maxd + 2.0 * BondLength * maxd + BondLength * BondLength;
    ProductNonNegative(2.0 * BondLength, maxd);
  }

  lemma AngleInRange(rpos: Vec3, axis: Vec2, cell: Mat3, atan2: (real, real) -> real)
    requires AngleBounded(atan2)
    ensures -Pi <= Angle(rpos, axis, cell, atan2) <= Pi
  {
    var d := Transverse(rpos, axis, cell);
    assert -Pi <= atan2(d.y, d.x) <= Pi;
  }

  lemma ProductBounds(t: real, r: real)
    requires 0.0 < t < StripHeight && r > 0.0
    ensures 0.0 < t * r < StripHeight * r
  {
    assert (StripHeight - t) * r > 0.0;
  }

  /** Since `Pi < 3.5`, the phase keeps an angle in [-Pi, Pi] strictly inside the band
      (7 j r, 7 (j + 1) r) of strip `j`. */
  lemma StripYBounds(a: real, radius: real, j: nat)
    requires -Pi <= a <= Pi
    requires radius > 0.0
    ensures StripBase(j, radius) < StripY(a, radius, j) < StripBase(j + 1, radius)
  {
    ProductBounds(a + Phase, radius);
    StripBaseNext(j, radius);
  }

  /** The strip of axis `j` is the open band (7 j r, 7 (j + 1) r). */
  lemma UnwrapInStrip(rpos: Vec3, axis: Vec2, cell: Mat3, j: nat, atan2: (real, real) -> real)
    requires AngleBounded(atan2)
    requires Radius(cell) > 0.0
    ensures StripBase(j, Radius(cell)) < Unwrap(rpos, axis, cell, j, atan2).y < StripBase(j + 1, Radius(cell))
  {
    AngleInRange(rpos, axis, cell, atan2);
    StripYBounds(Angle(rpos, axis, cell, atan2), Radius(cell), j);
  }

  /** On one strip, heights differ by the angle difference scaled by the radius. */
  lemma StripGap(a: real, b: real, radius: real, j: nat)
    ensures StripY(a, radius, j) - StripY(b, radius, j) == (a - b) * radius
  {
  }

  /** A lower strip lies entirely below a higher one. */
  lemma StripBaseOrdered(j: nat, k: nat, radius: real)
    requires j <= k
    requires radius > 0.0
    ensures StripBase(j, radius) <= StripBase(k, radius)
  {
    assert StripBase(k, radius) - StripBase(j, radius) == ((k - j) as real) * (StripHeight * radius);
    ProductNonNegative((k - j) as real, StripHeight * radius);
  }

  lemma ProductNonNegative(a: real, b: real)
    requires a >= 0.0 && b >= 0.0
    ensures a * b >= 0.0
  {
  }

  /** Heights on a lower strip are below heights on a higher one. */
  lemma StripYOrdered(a: real, b: real, radius: real, j: nat, k: nat)
    requires -Pi <= a <= Pi && -Pi <= b <= Pi
    requires radius > 0.0
    requires j < k
    ensures StripY(a, radius, j) < StripY(b, radius, k)
  {
    StripYBounds(a, radius, j);
    StripYBounds(b, radius, k);
    StripBaseOrdered(j + 1, k, radius);
  }

  /** Dots of different axes never share a vertical position, whatever the atoms. */
  lemma StripsDisjoint(p: Vec3, axisP: Vec2, j: nat, q: Vec3, axisQ: Vec2, k: nat,
                       cell: Mat3, atan2: (real, real) -> real)
    requires AngleBounded(atan2)
    requires Radius(cell) > 0.0
    requires j < k
    ensures Unwrap(p, axisP, cell, j, atan2).y < Unwrap(q, axisQ, cell, k, atan2).y
  {
    AngleInRange(p, axisP, cell, atan2);
    AngleInRange(q, axisQ, cell, atan2);
    StripYOrdered(Angle(p, axisP, cell, atan2), Angle(q, axisQ, cell, atan2), Radius(cell), j, k);
  }
}
