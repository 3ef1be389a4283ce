# Sidewall viewer for water nanotubes

A model of the `tubeviewer` output format of GenIce (`Format.Hook1`). The model covers how the format draws the sidewalls of the four water nanotubes in dtc-like ice as one picture. For each of the four channel axes, it:

- takes every water molecule's offset from the axis under periodic boundaries (the minimum-image wrap);
- puts the molecule in the core shell, the outer shell, or neither, by its squared transverse distance;
- unrolls the cylinder onto a horizontal strip (axial position across, angle times radius up), one strip above the other;
- draws, in this order: a red marker for every outer molecule, a red line for every candidate pair touching the outer shell whose dots are closer than one length unit, a black marker for every core molecule, and a black line for every core–core pair passing the same test.

The canvas is as long as the cell is tall along the axes and as high as four strips. Each side is rounded down to a multiple of 4 pixels. The finished picture is downscaled by half.

Modules:

- `Geometry`: vectors and the cell matrix, the minimum-image reduction `Wrap`, and Python's `int()` as `Trunc`.
- `Shells`: the shell thresholds, the classifier, and the unwrap coordinate, with their periodicity and strip-placement lemmas.
- `Drawing`: the canvas, a class recording the ellipses and lines drawn on it in order. It also holds the per-axis drawing loops, the functions that specify them, and the lemmas about the shape of the command list.
- `TubeViewer`: the four axes, the loop that builds the two dot maps of an axis, the canvas size, and `Hook1`, which allocates the canvas, draws the four axes and halves the picture.

`atan2` is a parameter of type `(real, real) -> real`. The facts that depend on its value assume only that the result lies in [-Pi, Pi] (`Shells.AngleBounded`). `Pi` is a decimal constant no smaller than the float `math.pi` and below the phase 3.5. Numbers are exact reals.

`D = rd @ cellmat` combines all three components of rows 0 and 1 of the cell matrix, not a 2×2 block (formats/tubeviewer.py:59-62). The core threshold is `maxd`, while angles are scaled by `radius = maxd - 0.138` (formats/tubeviewer.py:43-44,66).

## Model

| member | source | states |
|---|---|---|
| Geometry.Wrap | formats/tubeviewer.py:59-61 | the minimum-image reduction lies in [-1/2, 1/2) and differs from its argument by an integer |
| Geometry.WrapPeriodic | formats/tubeviewer.py:61 | shifting a fractional coordinate by any integer leaves its reduction unchanged |
| Geometry.WrapIsNearest | formats/tubeviewer.py:61 | the reduction is the nearest periodic image: no integer shift of the coordinate is closer to zero |
| Geometry.Trunc | formats/tubeviewer.py:50 | `int()` on a float rounds toward zero: for a non-negative value the greatest integer not above it, for a negative one the least integer not below it |
| Shells.Offset | formats/tubeviewer.py:59-61 | the wrapped transverse offset has components 0 and 1 in [-1/2, 1/2), component 2 equal to zero, and each of the first two differs from the raw offset by an integer |
| Shells.MaxD | formats/tubeviewer.py:43 | the core threshold `maxd`: a quarter of the first component of the first cell vector |
| Shells.Radius | formats/tubeviewer.py:44 | the angle scale `radius = maxd - 0.276/2` |
| Shells.PlusD | formats/tubeviewer.py:45 | the outer threshold `plusd = maxd + 0.276` |
| Shells.Classify | formats/tubeviewer.py:63-70 | the `if`/`elif` on `D@D`: core strictly below `maxd**2`, else outer strictly below `plusd**2`, else excluded |
| Shells.Transverse | formats/tubeviewer.py:62 | `D = rd @ cellmat`, the Cartesian transverse offset of the wrapped fractional offset |
| Shells.SqDist | formats/tubeviewer.py:62-63 | `D@D`, the squared transverse distance of an atom from an axis |
| Shells.ShellOf | formats/tubeviewer.py:59-70 | the shell of an atom for an axis: the classification of its squared distance by the cell's two thresholds |
| Shells.Angle | formats/tubeviewer.py:64 | `atan2(D[1], D[0])`, the angular position of an atom around an axis |
| Shells.StripBase | formats/tubeviewer.py:67 | `j*7*radius`, the lower edge of the strip of axis `j` |
| Shells.StripY | formats/tubeviewer.py:64-67 | `(a + 3.5)*radius + j*7*radius`, the height on the strip of axis `j` of an atom at angle `a` |
| Shells.Unwrap | formats/tubeviewer.py:64-67 | the dot of an atom for axis `j`: `(rpos @ cellmat)[2]` across, its strip height up |
| Shells.OffsetPeriodic | formats/tubeviewer.py:59-61 | moving an atom by any integer lattice vector leaves its wrapped offset from an axis unchanged |
| Shells.ShellPeriodic | formats/tubeviewer.py:59-70 | moving an atom by any integer lattice vector leaves its squared distance, its shell and its angle unchanged |
| Shells.TransverseUsesFirstTwoRows | formats/tubeviewer.py:59-62 | `D = rd @ cellmat` is the combination of rows 0 and 1 of the cell matrix (all three components) with the wrapped offset as weights |
| Shells.ClassifyMonotone | formats/tubeviewer.py:63-70 | widening the outer threshold keeps the core set as it is, keeps every outer atom outer, and only moves excluded atoms into the outer shell |
| Shells.BoundaryIsOuter | formats/tubeviewer.py:63-70 | an atom exactly at distance `maxd` is in the outer shell, not the core |
| Shells.StripYBounds | formats/tubeviewer.py:64-67 | with the phase 3.5, a height computed from an angle in [-Pi, Pi] lies strictly between `7 j r` and `7 (j+1) r` |
| Shells.UnwrapInStrip | formats/tubeviewer.py:64-67 | the vertical unwrap coordinate of every atom for axis `j` lies strictly inside the strip (`7 j r`, `7 (j+1) r`) |
| Shells.StripBaseOrdered | formats/tubeviewer.py:67 | the lower edges of the strips rise with the axis number |
| Shells.StripYOrdered | formats/tubeviewer.py:67 | every height on a lower strip is below every height on a higher strip |
| Shells.StripsDisjoint | formats/tubeviewer.py:64-74 | the dots of distinct axes never share a vertical position, whatever the atoms |
| Shells.StripGap | formats/tubeviewer.py:64-67 | on one strip, two heights differ by the angle difference times the radius |
| Drawing.Mark | formats/tubeviewer.py:79-84 | the marker of a dot: the ellipse in the box from `(dot - r)*zoom` to `(dot + r)*zoom` |
| Drawing.KeysBelow | formats/tubeviewer.py:78 | the keys of a dot map below `n` in ascending order, which is the order the loop inserted them in |
| Drawing.Marks | formats/tubeviewer.py:78-84 | the markers of a map's keys below `n`, in index order, which is the maps' insertion order |
| Drawing.Near | formats/tubeviewer.py:87-90 | the distance test `D@D < zoom**2` on the two dots scaled by `zoom` |
| Drawing.Edge | formats/tubeviewer.py:86-90 | a pair passes when both atoms have a dot in the map, at least one has its dot in the marked map, and the dots are near |
| Drawing.Segment | formats/tubeviewer.py:87-91 | the line between the two scaled dots of a pair |
| Drawing.Lines | formats/tubeviewer.py:85-91 | the lines drawn while scanning the pairs in order: the segment of each pair that passes the edge test |
| Drawing.AxisCommands | formats/tubeviewer.py:78-105 | what one axis draws: red markers, red lines on `alldots`, black markers, black lines on `dots` |
| Drawing.Canvas.constructor | formats/tubeviewer.py:52-53 | a new canvas has the requested size and nothing drawn on it |
| Drawing.Canvas.DrawEllipse | formats/tubeviewer.py:84 | drawing an ellipse appends exactly that ellipse to what was drawn before |
| Drawing.Canvas.DrawLine | formats/tubeviewer.py:91 | drawing a line appends exactly that line to what was drawn before |
| Drawing.DrawMarks | formats/tubeviewer.py:78-84 | the marker loop appends one marker per key of the map, in index order, and nothing else |
| Drawing.DrawOuterLinks | formats/tubeviewer.py:85-91 | the red pair loop appends, in pair order, the segment of exactly those pairs passing the outer edge test |
| Drawing.DrawCoreLinks | formats/tubeviewer.py:99-105 | the black pair loop appends, in pair order, the segment of exactly those pairs passing the core edge test |
| Drawing.DrawAxis | formats/tubeviewer.py:77-105 | drawing one axis appends its four layers in the renderer's order and leaves earlier commands untouched |
| Drawing.KeysBelowExact | formats/tubeviewer.py:78 | the iteration order lists every key of the map exactly once, ascending |
| Drawing.MarksPerKey | formats/tubeviewer.py:78-84 | marker number `t` is the marker of the `t`-th key in iteration order |
| Drawing.MarksCount | formats/tubeviewer.py:92-98 | when every key is an atom index, there are exactly as many markers as keys |
| Drawing.LinesExact | formats/tubeviewer.py:85-91 | every line drawn comes from a pair passing the edge test, every such pair yields its line, and there are at most as many lines as pairs |
| Drawing.LinesStyle | formats/tubeviewer.py:91 | every line of a layer has that layer's colour and width |
| Drawing.NoDotsNoLines | formats/tubeviewer.py:85-91 | with no dots no line is drawn, whatever the pairs |
| Drawing.EdgeSymmetric | formats/tubeviewer.py:86-90 | the draw/skip decision is the same for `(p, q)` and `(q, p)`, and the two segments are the same line traversed in opposite directions |
| Drawing.NearIsUnitDistance | formats/tubeviewer.py:87-90 | the scaled test `D@D < zoom**2` holds exactly when the unscaled dots are less than one length unit apart |
| Drawing.FarIsNotNear | formats/tubeviewer.py:87-90 | dots one length unit or more apart vertically always fail the distance test |
| Drawing.MergeDots | formats/tubeviewer.py:77 | for disjoint maps, `{**dots, **dots2}` has the union of the key sets, with every value taken from the map that holds the key |
| Drawing.OuterEdge | formats/tubeviewer.py:85-90 | the red edge test on the merged map holds exactly when both atoms are in either shell, at least one is outer, and their dots are near |
| Drawing.MarksLayer | formats/tubeviewer.py:78-84 | the marker list starts with the marker of each key in iteration order, one per key |
| Drawing.LinesLayer | formats/tubeviewer.py:85-91 | a line list holds only lines in its colour and width |
| Drawing.AxisShape | formats/tubeviewer.py:78-105 | one axis draws, in order: one red marker per outer key, then only red lines of width 2, then one black marker per core key, then only black lines of width 3 |
| Drawing.AxisWithoutPairs | formats/tubeviewer.py:78-105 | with no candidate pairs an axis draws no line at all: only its red markers, then its black markers |
| TubeViewer.CanvasSize | formats/tubeviewer.py:50-51 | the canvas: `int(cellmat[2,2]*zoom)` by `int(4*7*radius*zoom)`, each rounded down to a multiple of 4 |
| TubeViewer.DotsOf | formats/tubeviewer.py:56-76 | the dot map of one shell for axis `j`: every atom index of that shell, with its unwrap coordinate |
| TubeViewer.AxesCommands | formats/tubeviewer.py:55-105 | what the first `m` axes draw, axis after axis, each from its own two dot maps |
| TubeViewer.Render | formats/tubeviewer.py:50-107 | the half-size image of the canvas of the computed size with all four axes drawn on it |
| TubeViewer.RoundDown4 | formats/tubeviewer.py:51 | `s // 4 * 4` is a multiple of 4, at most `s` and greater than `s - 4` |
| TubeViewer.BuildDots | formats/tubeviewer.py:56-76 | the atom loop fills `dots` with exactly the core atoms and `dots2` with exactly the outer atoms, each keyed by atom index with its unwrap coordinate |
| TubeViewer.ShellMembership | formats/tubeviewer.py:63-76 | atom `i` is in `dots` iff `D@D < maxd**2`, in `dots2` iff `maxd**2 <= D@D < plusd**2`, and in neither iff `D@D` reaches both thresholds |
| TubeViewer.ShellsDisjoint | formats/tubeviewer.py:63-77 | the two maps of an axis have disjoint keys, all of them atom indices, and `alldots` holds the union, each value taken from whichever of `dots` and `dots2` holds the key |
| TubeViewer.OuterLinkDecision | formats/tubeviewer.py:85-91 | a red line is drawn for a pair exactly when both atoms have a dot on the axis, at least one is outer, and their unwrap coordinates are less than one unit apart |
| TubeViewer.CoreLinkDecision | formats/tubeviewer.py:99-105 | a black line is drawn for a pair exactly when both atoms are core and their unwrap coordinates are less than one unit apart |
| TubeViewer.AngularGapSkipped | formats/tubeviewer.py:85-105 | two atoms whose angles, scaled by the radius, differ by one unit or more are linked in neither colour, however close they are in space |
| TubeViewer.MarkerCounts | formats/tubeviewer.py:78-98 | an axis draws exactly one red marker per outer atom and one black marker per core atom |
| TubeViewer.DotsInStrip | formats/tubeviewer.py:64-74 | every dot of axis `j` lies strictly inside that axis' strip, and inside the band `4 * 7 * radius * zoom` pixels high |
| TubeViewer.CanvasHeightBound | formats/tubeviewer.py:50-51 | truncation and rounding take less than five pixels off the canvas height `4 * 7 * radius * zoom` |
| TubeViewer.StripYTop | formats/tubeviewer.py:67 | no height on the four strips exceeds `(Pi + 3.5 + 21) * radius` |
| TubeViewer.DotsFitCanvas | formats/tubeviewer.py:50-74 | once the radius is at least 0.14 length units, every dot lies below the height of the canvas actually allocated |
| TubeViewer.CanvasSizeRounded | formats/tubeviewer.py:50-51 | both canvas sides are multiples of 4, at most the truncated pixel extents, and less than 4 below them |
| TubeViewer.OutputSize | formats/tubeviewer.py:107 | the output image is exactly half the canvas in each dimension, and the canvas has the computed size |
| TubeViewer.Hook1 | formats/tubeviewer.py:36-107 | the hook allocates the computed canvas, draws the four axes in order on it, and returns the half-size image of exactly that drawing |
| TubeViewer.EmptySnapshotIsBlank | formats/tubeviewer.py:55-105 | a snapshot with no atoms draws nothing, so the output is a blank canvas |
| TubeViewer.NoPairsOnlyMarkers | formats/tubeviewer.py:85-105 | with no candidate pairs no line is drawn on any axis: every command is a marker |

## Left out

- Rasterisation, resampling and encoding (`Image.new`, the pixels of `ellipse` and `line`, the LANCZOS `resize`, the PNG `save`): these are library calls. The canvas records the draw commands and `Thumbnail` records the target size and the drawing it is resampled from.
- The `int()` truncation of every drawing coordinate before it is passed to the library (formats/tubeviewer.py:84,91,98,105): the commands carry the exact scaled coordinates.
- The white background and the RGBA mode of the canvas: they fix colours only, not what is drawn.
- Writing the bytes to standard output through `io.BytesIO` (formats/tubeviewer.py:106-110): output.
- The neighbour-pair search with `pairlist` (formats/tubeviewer.py:47-48): an external library. The candidate pairs are an input of `Hook1`.
- The value of `math.atan2` and all floating-point rounding: `atan2` is a parameter bounded by `AngleBounded`, and all arithmetic is on exact reals.
- Logging, the `timeit` and `banner` decorators and the `hooks` registration (formats/tubeviewer.py:30-37,49,111). As written, `logger.debug` at formats/tubeviewer.py:49 names a module-level `logger` that this file never defines, so it raises `NameError` before anything is drawn unless the host defines `logger`. The model describes the intended behaviour past that line.
- The library's refusal of a canvas with a negative side: `CanvasSize` is computed for every cell, and nothing stops a negative size.
- TubeViewer.DotsFitCanvas: states the fit only for a radius of at least 0.14, because the five pixels lost to rounding can cut off the top dots of the fourth strip in a smaller cell.
- `Format.__init__`, which only passes its options on to the base class.
