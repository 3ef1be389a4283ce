/** The pair-line decider and renderer for one axis. The drawing library is abstracted
    as a canvas that records, in order, the ellipses and lines drawn on it. */
module Drawing {
  import opened Geometry

  /** Pixels per length unit. */
  const Zoom: real := 100.0
  /** Half-sizes of the marker boxes, in length units. */
  const OuterMarkRadius: real := 0.04
  const CoreMarkRadius: real := 0.05
  /** Stroke widths, in pixels. */
  const OuterLineWidth: nat := 2
  const CoreLineWidth: nat := 3

  /** `'#f00'` for the outer shell, `'#000'` for the core. */
  datatype Color = Red | Black

  datatype Command =
    | Ellipse(topLeft: Vec2, bottomRight: Vec2, fill: Color)
    | Line(from: Vec2, to: Vec2, fill: Color, width: nat)

  /** A candidate pair of atom indices from the neighbour detector. */
  type Pair = (nat, nat)

  /** Unwrap coordinates of the atoms that have a dot on one axis, keyed by atom index. */
  type Dots = map<nat, Vec2>

  /** The shared drawing surface: its size and the commands drawn on it so far. */
  class Canvas {
    const width: int
    const height: int
    var commands: seq<Command>

    constructor (width: int, height: int)
      ensures this.width == width && this.height == height
      ensures commands == []
    {
      this.width := width;
      this.height := height;
      commands := [];
    }

    method DrawEllipse(topLeft: Vec2, bottomRight: Vec2, fill: Color)
      modifies this
      ensures commands == old(commands) + [Ellipse(topLeft, bottomRight, fill)]
    {
      commands := commands + [Ellipse(topLeft, bottomRight, fill)];
    }

    method DrawLine(from: Vec2, to: Vec2, fill: Color, width: nat)
      modifies this
      ensures commands == old(commands) + [Line(from, to, fill, width)]
    {
      commands := commands + [Line(from, to, fill, width)];
    }
  }

  /** The marker of a dot: the box from `(dot - r) * zoom` to `(dot + r) * zoom`. */
  function Mark(dot: Vec2, r: real, fill: Color): Command {
    Ellipse(Scale2(Minus2(dot, r), Zoom), Scale2(Plus2(dot, r), Zoom), fill)
  }

  /** The keys of `m` below `n` in ascending order. The maps are filled while scanning
      the atoms by index, so this is also their insertion (iteration) order. */
  function KeysBelow(m: Dots, n: nat): seq<nat> {
    if n == 0 then [] else KeysBelow(m, n - 1) + (if n - 1 in m then [n - 1] else [])
  }

  /** One marker per key of `m` below `n`, in iteration order. */
  function Marks(m: Dots, n: nat, r: real, fill: Color): seq<Command> {
    if n == 0 then []
    else Marks(m, n - 1, r, fill) + (if n - 1 in m then [Mark(m[n - 1], r, fill)] else [])
  }

  /** The discontinuity test: the squared pixel distance is below one zoom unit squared. */
  predicate Near(a: Vec2, b: Vec2) {
    var d := Sub2(Scale2(a, Zoom), Scale2(b, Zoom));
    Dot2(d, d) < Zoom * Zoom
  }

  /** A pair is drawn when both atoms have a dot in `m`, at least one of them has its
      dot in `marked`, and the two dots are near. */
  predicate Edge(m: Dots, marked: Dots, pq: Pair) {
    pq.0 in m && pq.1 in m && (pq.0 in marked || pq.1 in marked) && Near(m[pq.0], m[pq.1])
  }

  /** The line between the two scaled dots of a pair. */
  function Segment(m: Dots, pq: Pair, fill: Color, width: nat): Command
    requires pq.0 in m && pq.1 in m
  {
    Line(Scale2(m[pq.0], Zoom), Scale2(m[pq.1], Zoom), fill, width)
  }

  /** The lines drawn while scanning `pairs` in order. */
  function Lines(m: Dots, marked: Dots, pairs: seq<Pair>, fill: Color, width: nat): seq<Command> {
    if pairs == [] then []
    else
      var last := pairs[|pairs| - 1];
      Lines(m, marked, pairs[..|pairs| - 1], fill, width)
      + (if Edge(m, marked, last) then [Segment(m, last, fill, width)] else [])
  }

  /** Everything drawn for one axis, in draw order: outer markers, outer-linked lines
      (tested on the merged dots), core markers, core-only lines. */
  function AxisCommands(dots: Dots, dots2: Dots, pairs: seq<Pair>, n: nat): seq<Command> {
    Marks(dots2, n, OuterMarkRadius, Red)
    + Lines(dots + dots2, dots2, pairs, Red, OuterLineWidth)
    + Marks(dots, n, CoreMarkRadius, Black)
    + Lines(dots, dots, pairs, Black, CoreLineWidth)
  }

  /** Draws one marker per key of `m` below `n`, scanning the atom indices in order. */
  method DrawMarks(canvas: Canvas, m: Dots, n: nat, r: real, fill: Color)
    modifies canvas
    ensures canvas.commands == old(canvas.commands) + Marks(m, n, r, fill)
  {
    var i := 0;
    while i < n
      invariant 0 <= i <= n
      invariant canvas.commands == old(canvas.commands) + Marks(m, i, r, fill)
    {
      if i in m {
        canvas.DrawEllipse(Scale2(Minus2(m[i], r), Zoom), Scale2(Plus2(m[i], r), Zoom), fill);
      }
      i := i + 1;
    }
  }

  /** Draws, in red, each pair with both atoms in `alldots`, at least one in `dots2`,
      whose scaled squared distance is below `zoom` squared. */
  method DrawOuterLinks(canvas: Canvas, alldots: Dots, dots2: Dots, pairs: seq<Pair>)
    modifies canvas
    ensures canvas.commands == old(canvas.commands) + Lines(alldots, dots2, pairs, Red, OuterLineWidth)
  {
    var k := 0;
    while k < |pairs|
      invariant 0 <= k <= |pairs|
      invariant canvas.commands == old(canvas.commands) + Lines(alldots, dots2, pairs[..k], Red, OuterLineWidth)
    {
      var (p, q) := pairs[k];
      assert pairs[..k + 1][..k] == pairs[..k];
      if p in alldots && q in alldots && (p in dots2 || q in dots2) {
        var pd := Scale2(alldots[p], Zoom);
        var qd := Scale2(alldots[q], Zoom);
        var d := Sub2(pd, qd);
        if Dot2(d, d) < Zoom * Zoom {
          canvas.DrawLine(pd, qd, Red, OuterLineWidth);
        }
      }
      k := k + 1;
    }
    assert pairs[..|pairs|] == pairs;
  }

  /** Draws, in black, each pair with both atoms in `dots` that passes the same test. */
  method DrawCoreLinks(canvas: Canvas, dots: Dots, pairs: seq<Pair>)
    modifies canvas
    ensures canvas.commands == old(canvas.commands) + Lines(dots, dots, pairs, Black, CoreLineWidth)
  {
    var k := 0;
    while k < |pairs|
      invariant 0 <= k <= |pairs|
      invariant canvas.commands == old(canvas.commands) + Lines(dots, dots, pairs[..k], Black, CoreLineWidth)
    {
      var (p, q) := pairs[k];
      assert pairs[..k + 1][..k] == pairs[..k];
      if p in dots && q in dots {
        var pd := Scale2(dots[p], Zoom);
        var qd := Scale2(dots[q], Zoom);
        var d := Sub2(pd, qd);
        if Dot2(d, d) < Zoom * Zoom {
          canvas.DrawLine(pd, qd, Black, CoreLineWidth);
        }
      }
      k := k + 1;
    }
    assert pairs[..|pairs|] == pairs;
  }

  /** Draws the four layers of one axis on the canvas, in the renderer's order. */
  method DrawAxis(canvas: Canvas, dots: Dots, dots2: Dots, pairs: seq<Pair>, n: nat)
    modifies canvas
    ensures canvas.commands == old(canvas.commands) + AxisCommands(dots, dots2, pairs, n)
  {
    ghost var before := canvas.commands;
    DrawMarks(canvas, dots2, n, OuterMarkRadius, Red);
    var alldots := dots + dots2;
    DrawOuterLinks(canvas, alldots, dots2, pairs);
    DrawMarks(canvas, dots, n, CoreMarkRadius, Black);
    DrawCoreLinks(canvas, dots, pairs);
    AppendAssociative(before, Marks(dots2, n, OuterMarkRadius, Red), Lines(alldots, dots2, pairs, Red, OuterLineWidth),
                      Marks(dots, n, CoreMarkRadius, Black), Lines(dots, dots, pairs, Black, CoreLineWidth));
  }

  lemma AppendAssociative(s: seq<Command>, a: seq<Command>, b: seq<Command>, c: seq<Command>, d: seq<Command>)
    ensures s + a + b + c + d == s + (a + b + c + d)
  {
  }

  /** The keys listed are exactly those of `m` below `n`, strictly ascending, so each
      key is listed once. */
  lemma {:induction false} KeysBelowExact(m: Dots, n: nat)
    ensures forall k :: k in KeysBelow(m, n) <==> k in m && k < n
    ensures forall s, t :: 0 <= s < t < |KeysBelow(m, n)| ==> KeysBelow(m, n)[s] < KeysBelow(m, n)[t]
  {
    if n > 0 {
      KeysBelowExact(m, n - 1);
      var init := KeysBelow(m, n - 1);
      assert forall s :: 0 <= s < |init| ==> init[s] in init;
      assert forall s :: 0 <= s < |init| ==> init[s] < n - 1;
    }
  }

  /** Marker `t` is the marker of the `t`-th key in iteration order. */
  lemma {:induction false} MarksPerKey(m: Dots, n: nat, r: real, fill: Color)
    ensures |Marks(m, n, r, fill)| == |KeysBelow(m, n)|
    ensures forall t :: 0 <= t < |KeysBelow(m, n)| ==>
              KeysBelow(m, n)[t] in m && Marks(m, n, r, fill)[t] == Mark(m[KeysBelow(m, n)[t]], r, fill)
  {
    if n > 0 {
      MarksPerKey(m, n - 1, r, fill);
    }
  }

  ghost function KeySetBelow(m: Dots, n: nat): set<nat> {
    set k | k in m && k < n
  }

  lemma {:induction false} KeysBelowCard(m: Dots, n: nat)
    ensures |KeysBelow(m, n)| == |KeySetBelow(m, n)|
  {
    if n > 0 {
      KeysBelowCard(m, n - 1);
      if n - 1 in m {
        assert KeySetBelow(m, n) == KeySetBelow(m, n - 1) + {n - 1};
      } else {
        assert KeySetBelow(m, n) == KeySetBelow(m, n - 1);
      }
    }
  }

  /** When every key is below `n`, there is exactly one marker per key of `m`. */
  lemma MarksCount(m: Dots, n: nat, r: real, fill: Color)
    requires forall k :: k in m ==> k < n
    ensures |Marks(m, n, r, fill)| == |m|
  {
    MarksPerKey(m, n, r, fill);
    KeysBelowCard(m, n);
    assert KeySetBelow(m, n) == m.Keys;
  }

  /** The lines emitted are exactly the segments of the pairs that pass the edge test:
      every line comes from such a pair, and every such pair yields its line. */
  lemma {:induction false} LinesExact(m: Dots, marked: Dots, pairs: seq<Pair>, fill: Color, width: nat)
    ensures |Lines(m, marked, pairs, fill, width)| <= |pairs|
    ensures forall c :: c in Lines(m, marked, pairs, fill, width) ==>
              exists k :: 0 <= k < |pairs| && Edge(m, marked, pairs[k]) && c == Segment(m, pairs[k], fill, width)
    ensures forall k :: 0 <= k < |pairs| && Edge(m, marked, pairs[k]) ==>
              Segment(m, pairs[k], fill, width) in Lines(m, marked, pairs, fill, width)
  {
    if pairs != [] {
      var init := pairs[..|pairs| - 1];
      LinesExact(m, marked, init, fill, width);
      assert forall k :: 0 <= k < |init| ==> init[k] == pairs[k];
    }
  }

  /** Every line carries the layer's colour and width. */
  lemma LinesStyle(m: Dots, marked: Dots, pairs: seq<Pair>, fill: Color, width: nat)
    ensures forall c :: c in Lines(m, marked, pairs, fill, width) ==>
              c.Line? && c.fill == fill && c.width == width
  {
    LinesExact(m, marked, pairs, fill, width);
  }

  /** With no candidate pairs nothing is linked. */
  lemma NoPairsNoLines(m: Dots, marked: Dots, fill: Color, width: nat)
    ensures Lines(m, marked, [], fill, width) == []
  {
  }

  /** With no dots nothing is linked, whatever the pairs. */
  lemma {:induction false} NoDotsNoLines(marked: Dots, pairs: seq<Pair>, fill: Color, width: nat)
    ensures Lines(map[], marked, pairs, fill, width) == []
  {
    if pairs != [] {
      NoDotsNoLines(marked, pairs[..|pairs| - 1], fill, width);
    }
  }

  /** The edge decision does not depend on the orientation of the pair, and the
      segment is the same one traversed the other way. */
  lemma EdgeSymmetric(m: Dots, marked: Dots, p: nat, q: nat, fill: Color, width: nat)
    ensures Edge(m, marked, (p, q)) <==> Edge(m, marked, (q, p))
    ensures p in m && q in m ==>
              && Segment(m, (q, p), fill, width).from == Segment(m, (p, q), fill, width).to
              && Segment(m, (q, p), fill, width).to == Segment(m, (p, q), fill, width).from
  {
    if p in m && q in m {
      var a, b := m[p], m[q];
      var d := Sub2(Scale2(a, Zoom), Scale2(b, Zoom));
      var e := Sub2(Scale2(b, Zoom), Scale2(a, Zoom));
      assert Dot2(e, e) == Dot2(d, d);
    }
  }

  /** The pixel test is a test on unscaled dots: they are closer than one length unit. */
  lemma NearIsUnitDistance(a: Vec2, b: Vec2)
    ensures Near(a, b) <==> Dot2(Sub2(a, b), Sub2(a, b)) < 1.0
  {
    var u := Sub2(a, b);
    var d := Sub2(Scale2(a, Zoom), Scale2(b, Zoom));
    assert d == Scale2(u, Zoom);
    assert Dot2(d, d) == Zoom * Zoom * Dot2(u, u);
  }

  /** Dots at least one length unit apart vertically are never near. */
  lemma FarIsNotNear(a: Vec2, b: Vec2)
    requires (a.y - b.y) * (a.y - b.y) >= 1.0
    ensures !Near(a, b)
  {
    NearIsUnitDistance(a, b);
    var d := Sub2(a, b);
    assert Dot2(d, d) == d.x * d.x + (a.y - b.y) * (a.y - b.y);
  }

  /** The core-only test of the renderer (both atoms core, near) is the edge test with
      the core dots as both maps. */
  lemma CoreEdge(dots: Dots, p: nat, q: nat)
    ensures Edge(dots, dots, (p, q)) <==> p in dots && q in dots && Near(dots[p], dots[q])
  {
  }

  /** Merging the two shells: the union of the key sets, and since they are disjoint,
      each value is the one from the map that holds the key. */
  lemma MergeDots(dots: Dots, dots2: Dots)
    requires dots.Keys !! dots2.Keys
    ensures (dots + dots2).Keys == dots.Keys + dots2.Keys
    ensures forall k :: k in dots ==> (dots + dots2)[k] == dots[k]
    ensures forall k :: k in dots2 ==> (dots + dots2)[k] == dots2[k]
  {
  }

  /** The outer-linked test on the merged dots, spelled out per shell. */
  lemma OuterEdge(dots: Dots, dots2: Dots, p: nat, q: nat)
    requires dots.Keys !! dots2.Keys
    ensures Edge(dots + dots2, dots2, (p, q)) <==>
              && (p in dots || p in dots2) && (q in dots || q in dots2)
              && (p in dots2 || q in dots2)
              && Near((dots + dots2)[p], (dots + dots2)[q])
  {
  }

  /** `cmds[lo..]` starts with one marker per key of `keys`, in that order. */
  ghost predicate MarkLayer(cmds: seq<Command>, lo: nat, keys: seq<nat>, m: Dots, r: real, fill: Color) {
    && lo + |keys| <= |cmds|
    && (forall i :: 0 <= i < |keys| ==> keys[i] in m)
    && forall t :: lo <= t < lo + |keys| ==> cmds[t] == Mark(m[keys[t - lo]], r, fill)
  }

  /** `cmds[lo..hi]` holds only lines of the given style. */
  ghost predicate LineLayer(cmds: seq<Command>, lo: nat, hi: nat, fill: Color, width: nat) {
    && lo <= hi <= |cmds|
    && forall t :: lo <= t < hi ==> cmds[t].Line? && cmds[t].fill == fill && cmds[t].width == width
  }

  lemma MarksLayer(m: Dots, n: nat, r: real, fill: Color)
    ensures |Marks(m, n, r, fill)| == |KeysBelow(m, n)|
    ensures MarkLayer(Marks(m, n, r, fill), 0, KeysBelow(m, n), m, r, fill)
  {
    MarksPerKey(m, n, r, fill);
  }

  lemma LinesLayer(m: Dots, marked: Dots, pairs: seq<Pair>, fill: Color, width: nat)
    ensures var lines := Lines(m, marked, pairs, fill, width);
            LineLayer(lines, 0, |lines|, fill, width)
  {
    var lines := Lines(m, marked, pairs, fill, width);
    LinesStyle(m, marked, pairs, fill, width);
    assert forall t :: 0 <= t < |lines| ==> lines[t] in lines;
  }

  /** Appending commands keeps a layer where it is. */
  lemma MarkLayerAppend(cmds: seq<Command>, more: seq<Command>, lo: nat, keys: seq<nat>, m: Dots, r: real, fill: Color)
    requires MarkLayer(cmds, lo, keys, m, r, fill)
    ensures MarkLayer(cmds + more, lo, keys, m, r, fill)
  {
    forall t | lo <= t < lo + |keys|
      ensures (cmds + more)[t] == Mark(m[keys[t - lo]], r, fill)
    {
      assert (cmds + more)[t] == cmds[t];
    }
  }

  /** Prepending commands moves a layer up by their number. */
  lemma MarkLayerPrepend(before: seq<Command>, cmds: seq<Command>, lo: nat, keys: seq<nat>, m: Dots, r: real, fill: Color)
    requires MarkLayer(cmds, lo, keys, m, r, fill)
    ensures MarkLayer(before + cmds, |before| + lo, keys, m, r, fill)
  {
    var start := |before| + lo;
    forall t | start <= t < start + |keys|
      ensures (before + cmds)[t] == Mark(m[keys[t - start]], r, fill)
    {
      var u := t - |before|;
      assert (before + cmds)[t] == cmds[u];
      assert u - lo == t - start;
    }
  }

  lemma LineLayerAppend(cmds: seq<Command>, more: seq<Command>, lo: nat, hi: nat, fill: Color, width: nat)
    requires LineLayer(cmds, lo, hi, fill, width)
    ensures LineLayer(cmds + more, lo, hi, fill, width)
  {
    assert forall t :: lo <= t < hi ==> (cmds + more)[t] == cmds[t];
  }

  lemma LineLayerPrepend(before: seq<Command>, cmds: seq<Command>, lo: nat, hi: nat, fill: Color, width: nat)
    requires LineLayer(cmds, lo, hi, fill, width)
    ensures LineLayer(before + cmds, |before| + lo, |before| + hi, fill, width)
  {
    assert forall t :: |before| + lo <= t < |before| + hi ==> (before + cmds)[t] == cmds[t - |before|];
  }

  /** The command list of one axis has four consecutive layers: one red marker per
      outer key in iteration order, then only red lines, then one black marker per core
      key in iteration order, then only black lines. */
  lemma AxisShape(dots: Dots, dots2: Dots, pairs: seq<Pair>, n: nat)
    ensures var cmds := AxisCommands(dots, dots2, pairs, n);
            var a := |KeysBelow(dots2, n)|;
            var b := a + |Lines(dots + dots2, dots2, pairs, Red, OuterLineWidth)|;
            var c := b + |KeysBelow(dots, n)|;
            && MarkLayer(cmds, 0, KeysBelow(dots2, n), dots2, OuterMarkRadius, Red)
            && LineLayer(cmds, a, b, Red, OuterLineWidth)
            && MarkLayer(cmds, b, KeysBelow(dots, n), dots, CoreMarkRadius, Black)
            && LineLayer(cmds, c, |cmds|, Black, CoreLineWidth)
  {
    var red := Marks(dots2, n, OuterMarkRadius, Red);
    var redLines := Lines(dots + dots2, dots2, pairs, Red, OuterLineWidth);
    var black := Marks(dots, n, CoreMarkRadius, Black);
    var blackLines := Lines(dots, dots, pairs, Black, CoreLineWidth);
    var outerKeys, coreKeys := KeysBelow(dots2, n), KeysBelow(dots, n);
    var cmds := red + redLines + black + blackLines;
    assert cmds == AxisCommands(dots, dots2, pairs, n);

    MarksLayer(dots2, n, OuterMarkRadius, Red);
    MarkLayerAppend(red, redLines, 0, outerKeys, dots2, OuterMarkRadius, Red);
    MarkLayerAppend(red + redLines, black, 0, outerKeys, dots2, OuterMarkRadius, Red);
    MarkLayerAppend(red + redLines + black, blackLines, 0, outerKeys, dots2, OuterMarkRadius, Red);
    assert MarkLayer(cmds, 0, outerKeys, dots2, OuterMarkRadius, Red);

    var a := |outerKeys|;
    var b := a + |redLines|;
    LinesLayer(dots + dots2, dots2, pairs, Red, OuterLineWidth);
    LineLayerPrepend(red, redLines, 0, |redLines|, Red, OuterLineWidth);
    LineLayerAppend(red + redLines, black, a, b, Red, OuterLineWidth);
    LineLayerAppend(red + redLines + black, blackLines, a, b, Red, OuterLineWidth);
    assert LineLayer(cmds, a, b, Red, OuterLineWidth);

    MarksLayer(dots, n, CoreMarkRadius, Black);
    assert |red + redLines| == b;
    MarkLayerPrepend(red + redLines, black, 0, coreKeys, dots, CoreMarkRadius, Black);
    MarkLayerAppend(red + redLines + black, blackLines, b, coreKeys, dots, CoreMarkRadius, Black);
    assert MarkLayer(cmds, b, coreKeys, dots, CoreMarkRadius, Black);

    var c := b + |coreKeys|;
    assert |red + redLines + black| == c;
    LinesLayer(dots, dots, pairs, Black, CoreLineWidth);
    LineLayerPrepend(red + redLines + black, blackLines, 0, |blackLines|, Black, CoreLineWidth);
    assert LineLayer(cmds, c, |cmds|, Black, CoreLineWidth);
  }

  /** With no candidate pairs an axis gets its markers and no line. */
  lemma AxisWithoutPairs(dots: Dots, dots2: Dots, n: nat)
    ensures AxisCommands(dots, dots2, [], n)
            == Marks(dots2, n, OuterMarkRadius, Red) + Marks(dots, n, CoreMarkRadius, Black)
    ensures forall c :: c in AxisCommands(dots, dots2, [], n) ==> c.Ellipse?
  {
    MarksPerKey(dots2, n, OuterMarkRadius, Red);
    MarksPerKey(dots, n, CoreMarkRadius, Black);
    var red := Marks(dots2, n, OuterMarkRadius, Red);
    var black := Marks(dots, n, CoreMarkRadius, Black);
    assert AxisCommands(dots, dots2, [], n) == red + black;
    forall c: Command | c in red + black ensures c.Ellipse? {
      if c in red {
        var t :| 0 <= t < |red| && red[t] == c;
      } else {
        var t :| 0 <= t < |black| && black[t] == c;
      }
    }
  }
}
