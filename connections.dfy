/** Which lines `drawConnections` strokes and how bright they are, over the rendered
    glow-particle positions of one frame. Stroking itself is not modelled: a frame's
    connections are the list of lines, in the order the nested loop reaches them. */
module Connections {
  import opened Wrappers
  import opened Plane

  /** Pairs closer than this are linked (`maxDistance`). */
  const MaxDistance: real := 120.0
  const BaseLineOpacity: real := 0.06
  /** Radius within which the mouse brightens a line (`mouseRadius`). */
  const BrightenRadius: real := 200.0
  const BrightenGain: real := 0.08
  const MaxLineOpacity: real := 0.15
  /** Particles closer than this to the mouse get a spark line (`mouseRadius * 0.8`). */
  const SparkDistance: real := 160.0
  const SparkOpacity: real := 0.3

  /** A line between particles `i` and `j`, drawn with `opacity`. */
  datatype Line = Line(i: nat, j: nat, opacity: real)

  /** A line from particle `i` to the mouse, drawn with `opacity`. */
  datatype Spark = Spark(i: nat, opacity: real)

  /** `(1 - distance / maxDistance) * 0.06`. */
  function BaseOpacity(d: real): (o: real)
    ensures 0.0 <= d < MaxDistance ==> 0.0 < o <= BaseLineOpacity
  {
    (1.0 - d / MaxDistance) * BaseLineOpacity
  }

  /** The brightening near the mouse: with the mouse acting and the midpoint of
      the line within 200 pixels, `min(0.15, opacity + (1 - mouseDist / 200) * 0.08)`. */
  function Brighten(o: real, mid: Point, mouse: Option<Point>, geo: Geometry): (b: real)
    ensures mouse.None? ==> b == o
    ensures mouse.Some? && geo.dist(mid, mouse.value) >= BrightenRadius ==> b == o
    ensures o <= MaxLineOpacity && (mouse.None? || geo.dist(mid, mouse.value) <= BrightenRadius) ==> o <= b
    ensures o <= MaxLineOpacity ==> b <= MaxLineOpacity
  {
    if mouse.Some? && geo.dist(mid, mouse.value) < BrightenRadius then
      var influence := 1.0 - geo.dist(mid, mouse.value) / BrightenRadius;
      Min(MaxLineOpacity, o + influence * BrightenGain)
    else
      o
  }

  function Midpoint(p: Point, q: Point): Point {
    Point((p.x + q.x) / 2.0, (p.y + q.y) / 2.0)
  }

  /** The line for the pair `(i, j)`, if they are close enough. */
  function LineFor(pts: seq<Point>, i: nat, j: nat, mouse: Option<Point>, geo: Geometry): (l: Option<Line>)
    requires i < j < |pts|
    ensures l.Some? <==> geo.dist(pts[i], pts[j]) < MaxDistance
    ensures l.Some? ==> l.value.i == i && l.value.j == j
  {
    var d := geo.dist(pts[i], pts[j]);
    if d < MaxDistance then
      Some(Line(i, j, Brighten(BaseOpacity(d), Midpoint(pts[i], pts[j]), mouse, geo)))
    else
      None
  }

  function OptionToSeq<T>(o: Option<T>): seq<T> {
    if o.Some? then [o.value] else []
  }

  /** The lines of row `i` for the partners `j` in `i + 1 .. m - 1`, in loop order. */
  function RowLines(pts: seq<Point>, i: nat, m: nat, mouse: Option<Point>, geo: Geometry): seq<Line>
    requires i < |pts| && m <= |pts|
  {
    if m <= i + 1 then [] else RowLines(pts, i, m - 1, mouse, geo) + OptionToSeq(LineFor(pts, i, m - 1, mouse, geo))
  }

  /** The lines of the rows `0 .. n - 1`, in loop order. */
  function AllLines(pts: seq<Point>, n: nat, mouse: Option<Point>, geo: Geometry): seq<Line>
    requires n <= |pts|
  {
    if n == 0 then [] else AllLines(pts, n - 1, mouse, geo) + RowLines(pts, n - 1, |pts|, mouse, geo)
  }

  /** Every line `drawConnections` strokes between particles, in order. */
  function Lines(pts: seq<Point>, mouse: Option<Point>, geo: Geometry): seq<Line> {
    AllLines(pts, |pts|, mouse, geo)
  }

  /** Lexicographic order on the particle pair of a line. */
  predicate Before(a: Line, b: Line) {
    a.i < b.i || (a.i == b.i && a.j < b.j)
  }

  /** Strictly increasing pairs: each unordered pair appears at most once. */
  predicate Ordered(ls: seq<Line>) {
    forall a, b :: 0 <= a < b < |ls| ==> Before(ls[a], ls[b])
  }

  /** `l` is the line `LineFor` gives for its own pair, with `l.i < l.j`. */
  predicate GenuineLine(pts: seq<Point>, l: Line, mouse: Option<Point>, geo: Geometry) {
    l.i < l.j < |pts| && LineFor(pts, l.i, l.j, mouse, geo) == Some(l)
  }

  predicate Genuine(pts: seq<Point>, ls: seq<Line>, mouse: Option<Point>, geo: Geometry) {
    forall l :: l in ls ==> GenuineLine(pts, l, mouse, geo)
  }

  lemma OrderedConcat(a: seq<Line>, b: seq<Line>)
    requires Ordered(a) && Ordered(b)
    requires forall x, y :: x in a && y in b ==> Before(x, y)
    ensures Ordered(a + b)
  {
    forall p, q | 0 <= p < q < |a + b|
      ensures Before((a + b)[p], (a + b)[q])
    {
      if q < |a| {
        assert (a + b)[p] == a[p] && (a + b)[q] == a[q];
      } else if p < |a| {
        assert (a + b)[p] == a[p] && (a + b)[q] == b[q - |a|];
        assert a[p] in a && b[q - |a|] in b;
      } else {
        assert (a + b)[p] == b[p - |a|] && (a + b)[q] == b[q - |a|];
      }
    }
  }

  lemma {:induction false} RowGenuine(pts: seq<Point>, i: nat, m: nat, mouse: Option<Point>, geo: Geometry)
    requires i < |pts| && m <= |pts|
    ensures Genuine(pts, RowLines(pts, i, m, mouse, geo), mouse, geo)
    ensures forall l :: l in RowLines(pts, i, m, mouse, geo) ==> l.i == i && l.j < m
  {
    if m > i + 1 {
      RowGenuine(pts, i, m - 1, mouse, geo);
    }
  }

  lemma {:induction false} RowOrdered(pts: seq<Point>, i: nat, m: nat, mouse: Option<Point>, geo: Geometry)
    requires i < |pts| && m <= |pts|
    ensures Ordered(RowLines(pts, i, m, mouse, geo))
  {
    if m > i + 1 {
      RowOrdered(pts, i, m - 1, mouse, geo);
      RowGenuine(pts, i, m - 1, mouse, geo);
      OrderedConcat(RowLines(pts, i, m - 1, mouse, geo), OptionToSeq(LineFor(pts, i, m - 1, mouse, geo)));
    }
  }

  lemma {:induction false} RowComplete(pts: seq<Point>, i: nat, m: nat, mouse: Option<Point>, geo: Geometry)
    requires i < |pts| && m <= |pts|
    ensures forall j :: i < j < m && geo.dist(pts[i], pts[j]) < MaxDistance ==>
      LineFor(pts, i, j, mouse, geo).value in RowLines(pts, i, m, mouse, geo)
  {
    if m > i + 1 {
      RowComplete(pts, i, m - 1, mouse, geo);
    }
  }

  lemma {:induction false} AllGenuine(pts: seq<Point>, n: nat, mouse: Option<Point>, geo: Geometry)
    requires n <= |pts|
    ensures Genuine(pts, AllLines(pts, n, mouse, geo), mouse, geo)
    ensures forall l :: l in AllLines(pts, n, mouse, geo) ==> l.i < n
  {
    if n > 0 {
      AllGenuine(pts, n - 1, mouse, geo);
      RowGenuine(pts, n - 1, |pts|, mouse, geo);
    }
  }

  lemma {:induction false} AllOrdered(pts: seq<Point>, n: nat, mouse: Option<Point>, geo: Geometry)
    requires n <= |pts|
    ensures Ordered(AllLines(pts, n, mouse, geo))
  {
    if n > 0 {
      AllOrdered(pts, n - 1, mouse, geo);
      AllGenuine(pts, n - 1, mouse, geo);
      RowOrdered(pts, n - 1, |pts|, mouse, geo);
      RowGenuine(pts, n - 1, |pts|, mouse, geo);
      OrderedConcat(AllLines(pts, n - 1, mouse, geo), RowLines(pts, n - 1, |pts|, mouse, geo));
    }
  }

  lemma {:induction false} AllComplete(pts: seq<Point>, n: nat, mouse: Option<Point>, geo: Geometry)
    requires n <= |pts|
    ensures forall i, j :: 0 <= i < n && i < j < |pts| && geo.dist(pts[i], pts[j]) < MaxDistance ==>
      LineFor(pts, i, j, mouse, geo).value in AllLines(pts, n, mouse, geo)
  {
    if n > 0 {
      AllComplete(pts, n - 1, mouse, geo);
      RowComplete(pts, n - 1, |pts|, mouse, geo);
      var prev := AllLines(pts, n - 1, mouse, geo);
      var row := RowLines(pts, n - 1, |pts|, mouse, geo);
      assert AllLines(pts, n, mouse, geo) == prev + row;
      forall i, j | 0 <= i < n && i < j < |pts| && geo.dist(pts[i], pts[j]) < MaxDistance
        ensures LineFor(pts, i, j, mouse, geo).value in prev + row
      {
        var l := LineFor(pts, i, j, mouse, geo).value;
        if i < n - 1 {
          assert l in prev;
        } else {
          assert l in row;
        }
      }
    }
  }

  /** Exactly the pairs `i < j` closer than 120 pixels are linked, each once, in loop
      order, with the opacity `LineFor` gives. */
  lemma LinesExact(pts: seq<Point>, mouse: Option<Point>, geo: Geometry)
    ensures Ordered(Lines(pts, mouse, geo))
    ensures forall l :: l in Lines(pts, mouse, geo) ==>
      l.i < l.j < |pts| && geo.dist(pts[l.i], pts[l.j]) < MaxDistance &&
      LineFor(pts, l.i, l.j, mouse, geo) == Some(l)
    ensures forall i, j :: 0 <= i < j < |pts| && geo.dist(pts[i], pts[j]) < MaxDistance ==>
      LineFor(pts, i, j, mouse, geo).value in Lines(pts, mouse, geo)
  {
    AllGenuine(pts, |pts|, mouse, geo);
    AllOrdered(pts, |pts|, mouse, geo);
    AllComplete(pts, |pts|, mouse, geo);
  }

  /** A line is at least as bright as its base opacity, which lies in (0, 0.06], and
      never brighter than 0.15; without the mouse it is exactly the base. */
  lemma LineOpacityBounds(pts: seq<Point>, i: nat, j: nat, mouse: Option<Point>, geo: Geometry)
    requires ValidGeometry(geo)
    requires i < j < |pts| && geo.dist(pts[i], pts[j]) < MaxDistance
    ensures var o := LineFor(pts, i, j, mouse, geo).value.opacity;
      var base := BaseOpacity(geo.dist(pts[i], pts[j]));
      0.0 < base <= BaseLineOpacity && base <= o <= MaxLineOpacity &&
      (mouse.None? ==> o == base)
  {
    var mid := Midpoint(pts[i], pts[j]);
    assert geo.dist(pts[i], pts[j]) >= 0.0;
    if mouse.Some? {
      assert geo.dist(mid, mouse.value) >= 0.0;
    }
  }

  /** The spark for particle `i`, if the mouse acts within 160 pixels of it. */
  function SparkFor(pts: seq<Point>, i: nat, mouse: Option<Point>, geo: Geometry): (s: Option<Spark>)
    requires i < |pts|
    ensures s.Some? <==> mouse.Some? && geo.dist(pts[i], mouse.value) < SparkDistance
    ensures s.Some? ==> s.value.i == i && 0.0 < s.value.opacity
    ensures s.Some? && geo.dist(pts[i], mouse.value) >= 0.0 ==> s.value.opacity <= SparkOpacity
  {
    if mouse.Some? && geo.dist(pts[i], mouse.value) < SparkDistance then
      Some(Spark(i, (1.0 - geo.dist(pts[i], mouse.value) / SparkDistance) * SparkOpacity))
    else
      None
  }

  /** The sparks for the particles `0 .. n - 1`, in loop order. */
  function SparksUpTo(pts: seq<Point>, n: nat, mouse: Option<Point>, geo: Geometry): seq<Spark>
    requires n <= |pts|
  {
    if n == 0 then [] else SparksUpTo(pts, n - 1, mouse, geo) + OptionToSeq(SparkFor(pts, n - 1, mouse, geo))
  }

  /** The spark lines of one frame: none at all unless the mouse acts. */
  function Sparks(pts: seq<Point>, mouse: Option<Point>, geo: Geometry): seq<Spark> {
    if mouse.Some? then SparksUpTo(pts, |pts|, mouse, geo) else []
  }

  /** Strictly increasing particle indices: each particle has at most one spark, and the
      sparks come in loop order. */
  predicate SparksOrdered(ss: seq<Spark>) {
    forall a, b :: 0 <= a < b < |ss| ==> ss[a].i < ss[b].i
  }

  lemma {:induction false} SparksUpToExact(pts: seq<Point>, n: nat, mouse: Option<Point>, geo: Geometry)
    requires n <= |pts|
    ensures forall s :: s in SparksUpTo(pts, n, mouse, geo) ==> s.i < n && SparkFor(pts, s.i, mouse, geo) == Some(s)
    ensures forall i :: 0 <= i < n && mouse.Some? && geo.dist(pts[i], mouse.value) < SparkDistance ==>
      SparkFor(pts, i, mouse, geo).value in SparksUpTo(pts, n, mouse, geo)
    ensures SparksOrdered(SparksUpTo(pts, n, mouse, geo))
  {
    if n > 0 {
      SparksUpToExact(pts, n - 1, mouse, geo);
      var prev: seq<Spark> := SparksUpTo(pts, n - 1, mouse, geo);
      var last: seq<Spark> := OptionToSeq(SparkFor(pts, n - 1, mouse, geo));
      forall a, b | 0 <= a < b < |prev + last|
        ensures (prev + last)[a].i < (prev + last)[b].i
      {
        if b >= |prev| {
          assert (prev + last)[a] in prev && (prev + last)[b] in last;
        } else {
          assert (prev + last)[a] == prev[a] && (prev + last)[b] == prev[b];
        }
      }
    }
  }

  /** Sparks appear only while the mouse acts, exactly for the particles within 160
      pixels of it, with an opacity in (0, 0.3]. */
  lemma SparksExact(pts: seq<Point>, mouse: Option<Point>, geo: Geometry)
    requires ValidGeometry(geo)
    ensures mouse.None? ==> Sparks(pts, mouse, geo) == []
    ensures forall s :: s in Sparks(pts, mouse, geo) ==>
      mouse.Some? && s.i < |pts| && geo.dist(pts[s.i], mouse.value) < SparkDistance &&
      0.0 < s.opacity <= SparkOpacity
    ensures forall i :: 0 <= i < |pts| && mouse.Some? && geo.dist(pts[i], mouse.value) < SparkDistance ==>
      SparkFor(pts, i, mouse, geo).value in Sparks(pts, mouse, geo)
    ensures forall a, b :: 0 <= a < b < |Sparks(pts, mouse, geo)| ==>
      Sparks(pts, mouse, geo)[a].i < Sparks(pts, mouse, geo)[b].i
  {
    SparksUpToExact(pts, |pts|, mouse, geo);
    forall s | s in Sparks(pts, mouse, geo)
      ensures 0.0 < s.opacity <= SparkOpacity
    {
      assert geo.dist(pts[s.i], mouse.value) >= 0.0;
    }
  }
}
