/** The `AnimatedBackground` effect as a whole: the canvas size, the mouse, the two
    particle pools filled at start-up, and one animation frame (every glow particle
    updated, the connections computed, every code symbol updated). */
module Background {
  import opened Wrappers
  import opened Plane
  import opened MouseTracking
  import opened GlowParticles
  import opened SymbolParticles
  import opened Connections

  const GlowCap: nat := 80
  const GlowArea: nat := 15000
  const SymbolCap: nat := 30
  const SymbolArea: nat := 40000

  /** `Math.min(cap, Math.floor(area / per))` on a non-negative area. */
  function Population(area: nat, cap: nat, per: nat): (n: nat)
    requires per > 0
    ensures n <= cap && n * per <= area
    ensures n < cap ==> area < (n + 1) * per
  {
    if area / per < cap then area / per else cap
  }

  /** Number of glow particles for a canvas of `area` pixels. */
  function GlowCount(area: nat): (n: nat)
    ensures n <= GlowCap && n * GlowArea <= area
    ensures n < GlowCap ==> area < (n + 1) * GlowArea
  {
    Population(area, GlowCap, GlowArea)
  }

  /** Number of code symbols for a canvas of `area` pixels. */
  function SymbolCount(area: nat): (n: nat)
    ensures n <= SymbolCap && n * SymbolArea <= area
    ensures n < SymbolCap ==> area < (n + 1) * SymbolArea
  {
    Population(area, SymbolCap, SymbolArea)
  }

  /** Below one particle's worth of area there are no particles. */
  lemma SmallCanvasIsEmpty(area: nat)
    ensures area < GlowArea ==> GlowCount(area) == 0
    ensures area < SymbolArea ==> SymbolCount(area) == 0
  {
  }

  /** Scaling by a natural number keeps the order of naturals. */
  lemma MulMono(x: nat, y: nat, p: nat)
    requires x <= y
    ensures x * p <= y * p
  {
    assert y * p == x * p + (y - x) * p;
  }

  /** Division-free reading of `m * per < k * per`. */
  lemma MulCancel(m: nat, k: nat, per: nat)
    requires per > 0 && m * per < k * per
    ensures m < k
  {
    if m >= k {
      MulMono(k, m, per);
      assert false;
    }
  }

  /** The population never shrinks as the canvas grows. */
  lemma PopulationMonotone(a: nat, b: nat, cap: nat, per: nat)
    requires per > 0 && a <= b
    ensures Population(a, cap, per) <= Population(b, cap, per)
  {
    var m, n := Population(a, cap, per), Population(b, cap, per);
    if n < cap {
      MulCancel(m, n + 1, per);
    }
  }

  lemma CountsMonotone(a: nat, b: nat)
    requires a <= b
    ensures GlowCount(a) <= GlowCount(b) && SymbolCount(a) <= SymbolCount(b)
  {
    PopulationMonotone(a, b, GlowCap, GlowArea);
    PopulationMonotone(a, b, SymbolCap, SymbolArea);
  }

  /** A canvas never gets more symbols than glow particles, so a canvas too small for
      any glow particle has no symbols either. */
  lemma SymbolsNeedGlows(area: nat)
    ensures SymbolCount(area) <= GlowCount(area)
    ensures GlowCount(area) == 0 ==> SymbolCount(area) == 0
  {
  }

  predicate ValidSymbolDraws(draws: seq<SymbolDraw>) {
    forall k :: 0 <= k < |draws| ==> ValidSymbolDraw(draws[k])
  }

  /** The glow pass as a value: glow particle `k` reacts to the mouse after the
      `(k + 1)`-th smoothing step of the frame, since every `update()` smooths first. */
  function GlowFrame(gs: seq<Glow>, smooth: Option<Point>, target: Option<Point>, isActive: bool,
                     geo: Geometry, width: real, height: real): (r: seq<Glow>)
    ensures |r| == |gs|
  {
    seq(|gs|, k requires 0 <= k < |gs| =>
      GlowStep(gs[k], Influence(isActive, SmoothIter(smooth, target, k + 1)), geo, width, height))
  }

  /** Every symbol of a pool updated once, symbol `k` with the respawn draw `draws[k]`. */
  function SymbolFrame(cs: seq<Symbol>, mouse: Option<Point>, geo: Geometry, draws: seq<SymbolDraw>,
                       width: real, height: real): (r: seq<Symbol>)
    requires |draws| == |cs| && ValidSymbolDraws(draws)
    ensures |r| == |cs|
  {
    seq(|cs|, k requires 0 <= k < |cs| => SymbolStep(cs[k], mouse, geo, draws[k], width, height))
  }

  /** After a frame every glow particle's base position is on the canvas. */
  lemma GlowFrameOnCanvas(gs: seq<Glow>, smooth: Option<Point>, target: Option<Point>, isActive: bool,
                          geo: Geometry, width: real, height: real)
    requires width >= 0.0 && height >= 0.0
    ensures forall k :: 0 <= k < |gs| ==>
      var g := GlowFrame(gs, smooth, target, isActive, geo, width, height)[k];
      0.0 <= g.baseX <= width && 0.0 <= g.baseY <= height
  {
    forall k | 0 <= k < |gs|
      ensures var g := GlowFrame(gs, smooth, target, isActive, geo, width, height)[k];
        0.0 <= g.baseX <= width && 0.0 <= g.baseY <= height
    {
      GlowStepWraps(gs[k], Influence(isActive, SmoothIter(smooth, target, k + 1)), geo, width, height);
    }
  }

  /** A frame keeps every glow particle's invariant. */
  lemma GlowFrameInv(gs: seq<Glow>, smooth: Option<Point>, target: Option<Point>, isActive: bool,
                     geo: Geometry, width: real, height: real)
    requires ValidGeometry(geo) && forall k :: 0 <= k < |gs| ==> GlowInv(gs[k])
    ensures forall k :: 0 <= k < |gs| ==> GlowInv(GlowFrame(gs, smooth, target, isActive, geo, width, height)[k])
  {
    forall k | 0 <= k < |gs|
      ensures GlowInv(GlowFrame(gs, smooth, target, isActive, geo, width, height)[k])
    {
      GlowStepInv(gs[k], Influence(isActive, SmoothIter(smooth, target, k + 1)), geo, width, height);
    }
  }

  /** After a frame no symbol is above the respawn line, and the lifecycle invariant of
      every symbol survives it. */
  lemma SymbolFrameSpec(cs: seq<Symbol>, mouse: Option<Point>, geo: Geometry, draws: seq<SymbolDraw>,
                        width: real, height: real)
    requires |draws| == |cs| && ValidSymbolDraws(draws) && height >= 0.0
    ensures forall k :: 0 <= k < |cs| ==> SymbolFrame(cs, mouse, geo, draws, width, height)[k].baseY >= TopLimit
    ensures ValidGeometry(geo) && (forall k :: 0 <= k < |cs| ==> SymbolInv(cs[k])) ==>
      forall k :: 0 <= k < |cs| ==> SymbolInv(SymbolFrame(cs, mouse, geo, draws, width, height)[k])
  {
    forall k | 0 <= k < |cs|
      ensures SymbolFrame(cs, mouse, geo, draws, width, height)[k].baseY >= TopLimit
      ensures ValidGeometry(geo) && SymbolInv(cs[k]) ==> SymbolInv(SymbolFrame(cs, mouse, geo, draws, width, height)[k])
    {
      SymbolStepRespawns(cs[k], mouse, geo, draws[k], width, height);
      if ValidGeometry(geo) && SymbolInv(cs[k]) {
        SymbolStepInv(cs[k], mouse, geo, draws[k], width, height);
      }
    }
  }

  /** Rendered positions, which `drawConnections` reads. */
  function Positions(gs: seq<Glow>): (r: seq<Point>)
    ensures |r| == |gs| && forall k :: 0 <= k < |gs| ==> r[k] == Point(gs[k].x, gs[k].y)
  {
    if |gs| == 0 then [] else Positions(gs[..|gs| - 1]) + [Point(gs[|gs| - 1].x, gs[|gs| - 1].y)]
  }

  /** Draws for the start-up population: a reset draw per glow particle and, per symbol,
      a reset draw and the height draw. */
  predicate ValidDraws(glow: seq<GlowDraw>, symbols: seq<SymbolDraw>, heights: seq<real>) {
    |symbols| == |heights| &&
    (forall k :: 0 <= k < |glow| ==> ValidGlowDraw(glow[k])) &&
    ValidSymbolDraws(symbols) &&
    (forall k :: 0 <= k < |heights| ==> Unit(heights[k]))
  }

  /** The effect's closure state: canvas size, mouse, and the two pools. Each pool
      entry is the state of one `Particle` or `CodeParticle` object. */
  class AnimatedBackground {
    var width: nat
    var height: nat
    var input: MouseInput
    var particles: seq<Glow>
    var codeParticles: seq<Symbol>

    /** Every particle keeps its class invariant. */
    ghost predicate Valid()
      reads this
    {
      (forall k :: 0 <= k < |particles| ==> GlowInv(particles[k])) &&
      (forall k :: 0 <= k < |codeParticles| ==> SymbolInv(codeParticles[k]))
    }

    /** The effect's start-up on a `w` by `h` canvas: `GlowCount(w * h)` reset glow
        particles, and `SymbolCount(w * h)` reset symbols each moved to a random height. */
    constructor (w: nat, h: nat, glow: seq<GlowDraw>, symbols: seq<SymbolDraw>, heights: seq<real>)
      requires ValidDraws(glow, symbols, heights)
      requires |glow| == GlowCount(w * h) && |symbols| == SymbolCount(w * h)
      ensures Valid() && width == w && height == h
      ensures fresh(input) && input.target == None && !input.isActive && input.smooth == None
      ensures |particles| == |glow| && |codeParticles| == |symbols|
      ensures forall k :: 0 <= k < |glow| ==> particles[k] == GlowReset(glow[k], w as real, h as real)
      ensures forall k :: 0 <= k < |symbols| ==>
        codeParticles[k] == SymbolSeed(symbols[k], heights[k], w as real, h as real)
    {
      var ps: seq<Glow> := [];
      var i := 0;
      while i < |glow|
        invariant 0 <= i <= |glow| && |ps| == i
        invariant forall k :: 0 <= k < i ==> ps[k] == GlowReset(glow[k], w as real, h as real)
        invariant forall k :: 0 <= k < i ==> GlowInv(ps[k])
      {
        GlowResetSpec(glow[i], w as real, h as real);
        ps := ps + [GlowReset(glow[i], w as real, h as real)];
        i := i + 1;
      }
      var cs: seq<Symbol> := [];
      i := 0;
      while i < |symbols|
        invariant 0 <= i <= |symbols| && |cs| == i
        invariant forall k :: 0 <= k < i ==> cs[k] == SymbolSeed(symbols[k], heights[k], w as real, h as real)
        invariant forall k :: 0 <= k < i ==> SymbolInv(cs[k])
      {
        SymbolSeedSpec(symbols[i], heights[i], w as real, h as real);
        cs := cs + [SymbolSeed(symbols[i], heights[i], w as real, h as real)];
        i := i + 1;
      }
      var ptr := new MouseInput();
      width, height, input, particles, codeParticles := w, h, ptr, ps, cs;
    }

    /** `setCanvasSize` on a window resize; the pools are kept as they are. */
    method Resize(w: nat, h: nat)
      modifies this`width, this`height
      ensures width == w && height == h
    {
      width, height := w, h;
    }

    /** The `particles.forEach(p => p.update())` pass: particle `k` first advances the
        mouse smoothing (its `(k + 1)`-th step this frame), then reacts to the result. */
    method UpdateGlows(geo: Geometry)
      modifies this`particles, input`smooth
      ensures input.smooth == SmoothIter(old(input.smooth), input.target, |particles|)
      ensures particles == GlowFrame(old(particles), old(input.smooth),
        input.target, input.isActive, geo, width as real, height as real)
    {
      ghost var want := GlowFrame(particles, input.smooth, input.target, input.isActive,
        geo, width as real, height as real);
      var i := 0;
      while i < |particles|
        invariant 0 <= i <= |particles| == |old(particles)|
        invariant input.smooth == SmoothIter(old(input.smooth), input.target, i)
        invariant forall k :: 0 <= k < i ==> particles[k] == want[k]
        invariant forall k :: i <= k < |particles| ==> particles[k] == old(particles)[k]
      {
        input.Smooth();
        particles := particles[i := GlowStep(particles[i], Influence(input.isActive, input.smooth),
          geo, width as real, height as real)];
        i := i + 1;
      }
      assert forall k :: 0 <= k < |particles| ==> particles[k] == want[k];
    }

    /** The `codeParticles.forEach(p => p.update())` pass, after the glow pass;
        `draws[k]` holds the values a respawn of symbol `k` would draw. */
    method UpdateSymbols(geo: Geometry, draws: seq<SymbolDraw>)
      requires |draws| == |codeParticles| && ValidSymbolDraws(draws)
      modifies this`codeParticles
      ensures codeParticles == SymbolFrame(old(codeParticles),
        Influence(input.isActive, input.smooth), geo, draws, width as real, height as real)
    {
      ghost var want := SymbolFrame(codeParticles, Influence(input.isActive, input.smooth), geo, draws,
        width as real, height as real);
      var i := 0;
      while i < |codeParticles|
        invariant 0 <= i <= |codeParticles| == |old(codeParticles)|
        invariant forall k :: 0 <= k < i ==> codeParticles[k] == want[k]
        invariant forall k :: i <= k < |codeParticles| ==> codeParticles[k] == old(codeParticles)[k]
      {
        codeParticles := codeParticles[i := SymbolStep(codeParticles[i], Influence(input.isActive, input.smooth),
          geo, draws[i], width as real, height as real)];
        i := i + 1;
      }
      assert forall k :: 0 <= k < |codeParticles| ==> codeParticles[k] == want[k];
    }

    /** One `animate()` frame without the drawing: glow pass, connections between the
        moved glow particles, symbol pass. Every particle keeps its invariant. */
    method Frame(geo: Geometry, draws: seq<SymbolDraw>) returns (lines: seq<Line>, sparks: seq<Spark>)
      requires ValidGeometry(geo) && Valid()
      requires |draws| == |codeParticles| && ValidSymbolDraws(draws)
      modifies this`particles, this`codeParticles, input`smooth
      ensures Valid()
      ensures input.smooth == SmoothIter(old(input.smooth), input.target, |particles|)
      ensures particles == GlowFrame(old(particles), old(input.smooth),
        input.target, input.isActive, geo, width as real, height as real)
      ensures lines == Lines(Positions(particles), Influence(input.isActive, input.smooth), geo)
      ensures sparks == Sparks(Positions(particles), Influence(input.isActive, input.smooth), geo)
      ensures codeParticles == SymbolFrame(old(codeParticles),
        Influence(input.isActive, input.smooth), geo, draws, width as real, height as real)
    {
      GlowFrameInv(particles, input.smooth, input.target, input.isActive, geo, width as real, height as real);
      UpdateGlows(geo);
      lines, sparks := DrawConnections(Positions(particles), Influence(input.isActive, input.smooth), geo);
      SymbolFrameSpec(codeParticles, Influence(input.isActive, input.smooth), geo, draws,
        width as real, height as real);
      UpdateSymbols(geo, draws);
    }
  }

  /** The pair and spark loops of `drawConnections`. */
  method DrawConnections(pts: seq<Point>, mouse: Option<Point>, geo: Geometry)
    returns (lines: seq<Line>, sparks: seq<Spark>)
    ensures lines == Lines(pts, mouse, geo)
    ensures sparks == Sparks(pts, mouse, geo)
  {
    lines := [];
    var i := 0;
    while i < |pts|
      invariant 0 <= i <= |pts|
      invariant lines == AllLines(pts, i, mouse, geo)
    {
      var row := ConnectRow(pts, i, mouse, geo);
      lines := lines + row;
      i := i + 1;
    }
    sparks := [];
    if mouse.Some? {
      i := 0;
      while i < |pts|
        invariant 0 <= i <= |pts|
        invariant sparks == SparksUpTo(pts, i, mouse, geo)
      {
        var d := geo.dist(pts[i], mouse.value);
        if d < SparkDistance {
          sparks := sparks + [Spark(i, (1.0 - d / SparkDistance) * SparkOpacity)];
        }
        i := i + 1;
      }
    }
  }

  /** The inner loop of `drawConnections` for particle `i`: the lines to every later
      particle closer than `MaxDistance`, brightened near the input. */
  method ConnectRow(pts: seq<Point>, i: nat, mouse: Option<Point>, geo: Geometry) returns (row: seq<Line>)
    requires i < |pts|
    ensures row == RowLines(pts, i, |pts|, mouse, geo)
  {
    row := [];
    var j := i + 1;
    while j < |pts|
      invariant i + 1 <= j <= |pts|
      invariant row == RowLines(pts, i, j, mouse, geo)
    {
      var d := geo.dist(pts[i], pts[j]);
      if d < MaxDistance {
        var opacity := BaseOpacity(d);
        if mouse.Some? {
          var mid := Point((pts[i].x + pts[j].x) / 2.0, (pts[i].y + pts[j].y) / 2.0);
          var mouseDist := geo.dist(mid, mouse.value);
          if mouseDist < BrightenRadius {
            var influence := 1.0 - mouseDist / BrightenRadius;
            opacity := Min(MaxLineOpacity, opacity + influence * BrightenGain);
          }
        }
        assert opacity == Brighten(BaseOpacity(d), Midpoint(pts[i], pts[j]), mouse, geo);
        row := row + [Line(i, j, opacity)];
      }
      j := j + 1;
    }
  }

  /** With no glow particle the smoothing never runs: a frame leaves a mouse that was
      never smoothed unsmoothed, so the symbol pass of that frame (see `Frame`) is the
      pass without any mouse, however the mouse moves and whether it is active. */
  lemma NoGlowNoInfluence(gs: seq<Glow>, smooth: Option<Point>, target: Option<Point>, isActive: bool,
                          cs: seq<Symbol>, geo: Geometry, draws: seq<SymbolDraw>, width: real, height: real)
    requires |gs| == 0 && smooth.None?
    requires |draws| == |cs| && ValidSymbolDraws(draws)
    ensures SmoothIter(smooth, target, |gs|).None?
    ensures GlowFrame(gs, smooth, target, isActive, geo, width, height) == []
    ensures SymbolFrame(cs, Influence(isActive, SmoothIter(smooth, target, |gs|)), geo, draws, width, height)
      == SymbolFrame(cs, None, geo, draws, width, height)
  {
  }

  /** With at least one glow particle and a target, the mouse is smoothed after the
      first frame, and acts on everything while it is active. */
  lemma OneGlowSmooths(smooth: Option<Point>, t: Point, n: nat)
    requires n >= 1
    ensures SmoothIter(smooth, Some(t), n).Some?
  {
    if smooth.None? {
      SmoothIterFromUnset(t, n);
    } else {
      SmoothIterGap(smooth.value, t, n);
    }
  }
}
