/** The sidewall renderer: for each of the four nanotube axes, classify the atoms into
    the core and outer shells, unroll them onto a strip, and draw the strips stacked on
    one canvas, which is then downscaled by half. */
module TubeViewer {
  import opened Geometry
  import opened Shells
  import opened Drawing

  /** The four channel axes, at quarter-cell offsets in the fractional xy plane. */
  const Axes: seq<Vec2> := [Vec2(0.125, 0.25), Vec2(0.625, 0.25), Vec2(0.375, 0.75), Vec2(0.875, 0.75)]

  /** `s // 4 * 4`. Python's `//` floors; for a positive divisor that is Dafny's `/`. */
  function RoundDown4(s: int): (r: int)
    ensures r % 4 == 0
    ensures r <= s < r + 4
  {
    s / 4 * 4
  }

  /** The canvas: as long as the cell is tall along the axes, as high as four strips,
      each side in pixels rounded down to a multiple of 4. */
  function CanvasSize(cell: Mat3): (int, int) {
    (RoundDown4(Trunc(cell.r2.z * Zoom)), RoundDown4(Trunc(4.0 * StripHeight * Radius(cell) * Zoom)))
  }

  /** The dots of one shell for axis number `j`: each atom of that shell, keyed by its
      index, with its unwrap coordinate. */
  function DotsOf(positions: seq<Vec3>, cell: Mat3, axis: Vec2, j: nat, atan2: (real, real) -> real,
                  shell: Shell): Dots
  {
    map i: nat | i < |positions| && ShellOf(positions[i], axis, cell) == shell
      :: Unwrap(positions[i], axis, cell, j, atan2)
  }

  /** Scans the atoms in index order and fills `dots` (core) and `dots2` (outer). */
  method BuildDots(positions: seq<Vec3>, cell: Mat3, axis: Vec2, j: nat, atan2: (real, real) -> real)
    returns (dots: Dots, dots2: Dots)
    ensures dots == DotsOf(positions, cell, axis, j, atan2, Core)
    ensures dots2 == DotsOf(positions, cell, axis, j, atan2, Outer)
  {
    var maxd := MaxD(cell);
    var plusd := PlusD(cell);
    dots, dots2 := map[], map[];
    for i := 0 to |positions|
      invariant DotsUpTo(positions, cell, axis, j, atan2, Core, i, dots)
      invariant DotsUpTo(positions, cell, axis, j, atan2, Outer, i, dots2)
    {
      var rpos := positions[i];
      var dd := SqDist(rpos, axis, cell);
      ClassifyBranches(dd, maxd, plusd);
      if dd < maxd * maxd {
        dots := dots[i := Unwrap(rpos, axis, cell, j, atan2)];
      } else if dd < plusd * plusd {
        dots2 := dots2[i := Unwrap(rpos, axis, cell, j, atan2)];
      }
    }
    DotsUpToAll(positions, cell, axis, j, atan2, Core, dots);
    DotsUpToAll(positions, cell, axis, j, atan2, Outer, dots2);
  }

  /** The branches of the classification, as the renderer tests them. */
  lemma ClassifyBranches(dd: real, maxd: real, plusd: real)
    ensures Classify(dd, maxd, plusd) == Core <==> dd < maxd * maxd
    ensures Classify(dd, maxd, plusd) == Outer <==> !(dd < maxd * maxd) && dd < plusd * plusd
  {
  }

  /** `m` holds exactly the dots of one shell among the first `n` atoms. */
  ghost predicate DotsUpTo(positions: seq<Vec3>, cell: Mat3, axis: Vec2, j: nat, atan2: (real, real) -> real,
                           shell: Shell, n: nat, m: Dots)
  {
    && (forall k :: k in m ==> k < n && k < |positions|)
    && (forall k :: 0 <= k < n && k < |positions| ==>
          (k in m <==> ShellOf(positions[k], axis, cell) == shell))
    && (forall k :: k in m ==> m[k] == Unwrap(positions[k], axis, cell, j, atan2))
  }

  lemma DotsUpToAll(positions: seq<Vec3>, cell: Mat3, axis: Vec2, j: nat, atan2: (real, real) -> real,
                    shell: Shell, m: Dots)
    requires DotsUpTo(positions, cell, axis, j, atan2, shell, |positions|, m)
    ensures m == DotsOf(positions, cell, axis, j, atan2, shell)
  {
  }

  /** What was drawn on a canvas of the given size. */
  datatype Picture = Picture(width: int, height: int, commands: seq<Command>)

  /** The downscaled output image and the full-size drawing it was resampled from. */
  datatype Thumbnail = Thumbnail(width: int, height: int, source: Picture)

  /** Everything drawn for the first `m` axes, in order. */
  function AxesCommands(positions: seq<Vec3>, cell: Mat3, pairs: seq<Pair>, atan2: (real, real) -> real,
                        m: nat): seq<Command>
    requires m <= |Axes|
  {
    if m == 0 then []
    else
      var j := m - 1;
      AxesCommands(positions, cell, pairs, atan2, j)
      + AxisCommands(DotsOf(positions, cell, Axes[j], j, atan2, Core),
                     DotsOf(positions, cell, Axes[j], j, atan2, Outer), pairs, |positions|)
  }

  /** The rendered image of one snapshot. */
  function Render(positions: seq<Vec3>, cell: Mat3, pairs: seq<Pair>, atan2: (real, real) -> real): Thumbnail {
    var size := CanvasSize(cell);
    Thumbnail(size.0 / 2, size.1 / 2,
              Picture(size.0, size.1, AxesCommands(positions, cell, pairs, atan2, |Axes|)))
  }

  /** Renders the unrolled sidewalls of the four tubes: `positions` are the fractional
      atom positions, `cell` the cell matrix, `pairs` the neighbour pairs. */
  method Hook1(positions: seq<Vec3>, cell: Mat3, pairs: seq<Pair>, atan2: (real, real) -> real)
    returns (image: Thumbnail)
    ensures image == Render(positions, cell, pairs, atan2)
  {
    var sx := Trunc(cell.r2.z * Zoom);
    var sy := Trunc(4.0 * StripHeight * Radius(cell) * Zoom);
    var canvas := new Canvas(RoundDown4(sx), RoundDown4(sy));
    for j := 0 to |Axes|
      invariant canvas.width == CanvasSize(cell).0 && canvas.height == CanvasSize(cell).1
      invariant canvas.commands == AxesCommands(positions, cell, pairs, atan2, j)
    {
      var dots, dots2 := BuildDots(positions, cell, Axes[j], j, atan2);
      DrawAxis(canvas, dots, dots2, pairs, |positions|);
    }
    image := Thumbnail(canvas.width / 2, canvas.height / 2,
                       Picture(canvas.width, canvas.height, canvas.commands));
  }

  /** Shell membership in terms of the squared distance: core strictly inside `maxd`,
      outer from `maxd` (inclusive) to `plusd` (exclusive), and no entry otherwise; no
      atom is in both maps. */
  lemma ShellMembership(positions: seq<Vec3>, cell: Mat3, axis: Vec2, j: nat, atan2: (real, real) -> real, i: nat)
    requires i < |positions|
    ensures var dd := SqDist(positions[i], axis, cell);
            var maxd, plusd := MaxD(cell), PlusD(cell);
            && (i in DotsOf(positions, cell, axis, j, atan2, Core) <==> dd < maxd * maxd)
            && (i in DotsOf(positions, cell, axis, j, atan2, Outer) <==> maxd * maxd <= dd < plusd * plusd)
            && (i !in DotsOf(positions, cell, axis, j, atan2, Core)
                && i !in DotsOf(positions, cell, axis, j, atan2, Outer)
                <==> maxd * maxd <= dd && plusd * plusd <= dd)
  {
  }

  /** The two maps of an axis have disjoint keys, all of them atom indices, and their
      merge holds each dot once, with the value from the map that holds it. */
  lemma ShellsDisjoint(positions: seq<Vec3>, cell: Mat3, axis: Vec2, j: nat, atan2: (real, real) -> real)
    ensures var dots := DotsOf(positions, cell, axis, j, atan2, Core);
            var dots2 := DotsOf(positions, cell, axis, j, atan2, Outer);
            && dots.Keys !! dots2.Keys
            && (forall k :: k in dots + dots2 ==> k < |positions|)
            && (dots + dots2).Keys == dots.Keys + dots2.Keys
            && (forall k :: k in dots ==> (dots + dots2)[k] == dots[k])
            && (forall k :: k in dots2 ==> (dots + dots2)[k] == dots2[k])
  {
  }

  /** A red line is drawn on axis `j` for a pair exactly when both atoms have a dot on
      that axis, at least one of them in the outer shell, and their dots are closer than
      one length unit. */
  lemma OuterLinkDecision(positions: seq<Vec3>, cell: Mat3, j: nat, atan2: (real, real) -> real, p: nat, q: nat)
    requires j < |Axes|
    ensures var axis := Axes[j];
            var dots := DotsOf(positions, cell, axis, j, atan2, Core);
            var dots2 := DotsOf(positions, cell, axis, j, atan2, Outer);
            Edge(dots + dots2, dots2, (p, q)) <==>
              && p < |positions| && q < |positions|
              && ShellOf(positions[p], axis, cell) != Excluded
              && ShellOf(positions[q], axis, cell) != Excluded
              && (ShellOf(positions[p], axis, cell) == Outer || ShellOf(positions[q], axis, cell) == Outer)
              && Dot2(Sub2(Unwrap(positions[p], axis, cell, j, atan2), Unwrap(positions[q], axis, cell, j, atan2)),
                      Sub2(Unwrap(positions[p], axis, cell, j, atan2), Unwrap(positions[q], axis, cell, j, atan2))) < 1.0
  {
    var axis := Axes[j];
    var dots := DotsOf(positions, cell, axis, j, atan2, Core);
    var dots2 := DotsOf(positions, cell, axis, j, atan2, Outer);
    var all := dots + dots2;
    ShellsDisjoint(positions, cell, axis, j, atan2);
    if p in all && q in all {
      assert all[p] == Unwrap(positions[p], axis, cell, j, atan2);
      assert all[q] == Unwrap(positions[q], axis, cell, j, atan2);
      NearIsUnitDistance(all[p], all[q]);
    }
  }

  /** A black line is drawn on axis `j` for a pair exactly when both atoms are in the
      core and their dots are closer than one length unit. */
  lemma CoreLinkDecision(positions: seq<Vec3>, cell: Mat3, j: nat, atan2: (real, real) -> real, p: nat, q: nat)
    requires j < |Axes|
    ensures var axis := Axes[j];
            var dots := DotsOf(positions, cell, axis, j, atan2, Core);
            Edge(dots, dots, (p, q)) <==>
              && p < |positions| && q < |positions|
              && ShellOf(positions[p], axis, cell) == Core
              && ShellOf(positions[q], axis, cell) == Core
              && Dot2(Sub2(Unwrap(positions[p], axis, cell, j, atan2), Unwrap(positions[q], axis, cell, j, atan2)),
                      Sub2(Unwrap(positions[p], axis, cell, j, atan2), Unwrap(positions[q], axis, cell, j, atan2))) < 1.0
  {
    var axis := Axes[j];
    var dots := DotsOf(positions, cell, axis, j, atan2, Core);
    if p in dots && q in dots {
      NearIsUnitDistance(dots[p], dots[q]);
    }
  }

  /** Two atoms whose angles differ by at least one length unit once scaled by the
      radius are never linked on that axis, in either colour, however close they are in
      space: the strip is cut open at the angular branch cut. */
  lemma AngularGapSkipped(positions: seq<Vec3>, cell: Mat3, j: nat, atan2: (real, real) -> real, p: nat, q: nat)
    requires j < |Axes|
    requires p < |positions| && q < |positions|
    requires var gap := (Angle(positions[p], Axes[j], cell, atan2) - Angle(positions[q], Axes[j], cell, atan2)) * Radius(cell);
             gap * gap >= 1.0
    ensures var axis := Axes[j];
            var dots := DotsOf(positions, cell, axis, j, atan2, Core);
            var dots2 := DotsOf(positions, cell, axis, j, atan2, Outer);
            !Edge(dots + dots2, dots2, (p, q)) && !Edge(dots, dots, (p, q))
  {
    var axis := Axes[j];
    var dots := DotsOf(positions, cell, axis, j, atan2, Core);
    var dots2 := DotsOf(positions, cell, axis, j, atan2, Outer);
    var u := Unwrap(positions[p], axis, cell, j, atan2);
    var w := Unwrap(positions[q], axis, cell, j, atan2);
    StripGap(Angle(positions[p], axis, cell, atan2), Angle(positions[q], axis, cell, atan2), Radius(cell), j);
    assert u.y - w.y == (Angle(positions[p], axis, cell, atan2) - Angle(positions[q], axis, cell, atan2)) * Radius(cell);
    FarIsNotNear(u, w);
    ShellsDisjoint(positions, cell, axis, j, atan2);
  }

  /** One red marker per outer dot and one black marker per core dot on every axis. */
  lemma MarkerCounts(positions: seq<Vec3>, cell: Mat3, axis: Vec2, j: nat, atan2: (real, real) -> real)
    ensures |Marks(DotsOf(positions, cell, axis, j, atan2, Outer), |positions|, OuterMarkRadius, Red)|
            == |DotsOf(positions, cell, axis, j, atan2, Outer)|
    ensures |Marks(DotsOf(positions, cell, axis, j, atan2, Core), |positions|, CoreMarkRadius, Black)|
            == |DotsOf(positions, cell, axis, j, atan2, Core)|
  {
    MarksCount(DotsOf(positions, cell, axis, j, atan2, Outer), |positions|, OuterMarkRadius, Red);
    MarksCount(DotsOf(positions, cell, axis, j, atan2, Core), |positions|, CoreMarkRadius, Black);
  }

  /** Every dot of axis `j` lies strictly inside that axis' strip, and every dot of the
      four axes lies strictly inside the band `4 * 7 * radius` high, in pixels. */
  lemma DotsInStrip(positions: seq<Vec3>, cell: Mat3, j: nat, atan2: (real, real) -> real, shell: Shell)
    requires AngleBounded(atan2)
    requires Radius(cell) > 0.0
    requires j < |Axes|
    ensures forall i :: i in DotsOf(positions, cell, Axes[j], j, atan2, shell) ==>
              var y := DotsOf(positions, cell, Axes[j], j, atan2, shell)[i].y;
              && StripBase(j, Radius(cell)) < y < StripBase(j + 1, Radius(cell))
              && 0.0 < y * Zoom < 4.0 * StripHeight * Radius(cell) * Zoom
  {
    var dots := DotsOf(positions, cell, Axes[j], j, atan2, shell);
    var r := Radius(cell);
    StripBaseOrdered(0, j, r);
    StripBaseOrdered(j + 1, 4, r);
    assert StripBase(4, r) == 4.0 * StripHeight * r;
    forall i | i in dots
      ensures StripBase(j, r) < dots[i].y < StripBase(j + 1, r)
      ensures 0.0 < dots[i].y * Zoom < 4.0 * StripHeight * r * Zoom
    {
      UnwrapInStrip(positions[i], Axes[j], cell, j, atan2);
    }
  }

  /** The allocated canvas height loses less than five pixels to truncation and
      rounding. */
  lemma CanvasHeightBound(cell: Mat3)
    requires Radius(cell) >= 0.0
    ensures CanvasSize(cell).1 as real > 4.0 * StripHeight * Radius(cell) * Zoom - 5.0
  {
    var sy := Trunc(4.0 * StripHeight * Radius(cell) * Zoom);
    assert sy as real > 4.0 * StripHeight * Radius(cell) * Zoom - 1.0;
    assert RoundDown4(sy) > sy - 4;
  }

  /** The topmost height a dot of the first four strips can reach, in length units. */
  lemma StripYTop(a: real, radius: real, j: nat)
    requires -Pi <= a <= Pi
    requires radius >= 0.0
    requires j < |Axes|
    ensures StripY(a, radius, j) <= (Pi + Phase + 21.0) * radius
  {
    ProductNonNegative(Pi - a, radius);
    ProductNonNegative(21.0 - (j as real) * StripHeight, radius);
  }

  /** Once the monolayer radius is at least 0.14 length units, every dot lies below the
      height of the canvas actually allocated (after truncation and rounding down). */
  lemma DotsFitCanvas(positions: seq<Vec3>, cell: Mat3, j: nat, atan2: (real, real) -> real, shell: Shell)
    requires AngleBounded(atan2)
    requires Radius(cell) >= 0.14
    requires j < |Axes|
    ensures forall i :: i in DotsOf(positions, cell, Axes[j], j, atan2, shell) ==>
              DotsOf(positions, cell, Axes[j], j, atan2, shell)[i].y * Zoom < CanvasSize(cell).1 as real
  {
    var dots := DotsOf(positions, cell, Axes[j], j, atan2, shell);
    var r := Radius(cell);
    CanvasHeightBound(cell);
    forall i | i in dots
      ensures dots[i].y * Zoom < CanvasSize(cell).1 as real
    {
      AngleInRange(positions[i], Axes[j], cell, atan2);
      StripYTop(Angle(positions[i], Axes[j], cell, atan2), r, j);
    }
  }

  /** The canvas sides are multiples of 4 no larger than the truncated pixel extents. */
  lemma CanvasSizeRounded(cell: Mat3)
    ensures var sx, sy := Trunc(cell.r2.z * Zoom), Trunc(4.0 * StripHeight * Radius(cell) * Zoom);
            var size := CanvasSize(cell);
            && size.0 % 4 == 0 && size.1 % 4 == 0
            && sx - 4 < size.0 <= sx && sy - 4 < size.1 <= sy
  {
  }

  /** The output image is exactly half the canvas in each dimension. */
  lemma OutputSize(positions: seq<Vec3>, cell: Mat3, pairs: seq<Pair>, atan2: (real, real) -> real)
    ensures var image := Render(positions, cell, pairs, atan2);
            && image.source.width == CanvasSize(cell).0 && image.source.height == CanvasSize(cell).1
            && 2 * image.width == image.source.width && 2 * image.height == image.source.height
  {
    var size := CanvasSize(cell);
    var qx, qy := Trunc(cell.r2.z * Zoom) / 4, Trunc(4.0 * StripHeight * Radius(cell) * Zoom) / 4;
    assert size.0 == 2 * (2 * qx) && size.1 == 2 * (2 * qy);
    HalfOfDouble(2 * qx);
    HalfOfDouble(2 * qy);
  }

  lemma HalfOfDouble(k: int)
    ensures (2 * k) / 2 == k
  {
  }

  /** An empty snapshot draws nothing: the output is a blank canvas. */
  lemma {:induction false} EmptySnapshotIsBlank(cell: Mat3, pairs: seq<Pair>, atan2: (real, real) -> real, m: nat)
    requires m <= |Axes|
    ensures AxesCommands([], cell, pairs, atan2, m) == []
  {
    if m > 0 {
      var j := m - 1;
      EmptySnapshotIsBlank(cell, pairs, atan2, j);
      var dots := DotsOf([], cell, Axes[j], j, atan2, Core);
      var dots2 := DotsOf([], cell, Axes[j], j, atan2, Outer);
      assert dots == map[] && dots2 == map[];
      NoDotsNoLines(dots2, pairs, Red, OuterLineWidth);
      NoDotsNoLines(dots, pairs, Black, CoreLineWidth);
    }
  }

  /** Without candidate pairs only markers are drawn. */
  lemma {:induction false} NoPairsOnlyMarkers(positions: seq<Vec3>, cell: Mat3, atan2: (real, real) -> real, m: nat)
    requires m <= |Axes|
    ensures forall c :: c in AxesCommands(positions, cell, [], atan2, m) ==> c.Ellipse?
  {
    if m > 0 {
      var j := m - 1;
      NoPairsOnlyMarkers(positions, cell, atan2, j);
      AxisWithoutPairs(DotsOf(positions, cell, Axes[j], j, atan2, Core),
                       DotsOf(positions, cell, Axes[j], j, atan2, Outer), |positions|);
    }
  }
}
