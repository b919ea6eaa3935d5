/** The neural-network "glow" particles of the animated background: `Particle.reset`
    and `Particle.update`, without drawing and without the time-driven pulse. */
module GlowParticles {
  import opened Wrappers
  import opened Plane
  import opened MouseTracking

  /** Radius of mouse influence, in pixels (`mouseRadius`). */
  const MouseRadius: real := 200.0
  /** Strength of the mouse push (`mouseForce`). */
  const MouseForce: real := 0.08
  /** Per-frame decay of the mouse offset of a glow particle. */
  const GlowDamping: real := 0.95

  predicate Unit(u: real) {
    0.0 <= u < 1.0
  }

  /** The `Math.random()` values one `Particle.reset()` consumes, in order of use
      (position, velocity, radius, opacity). The pulse speed and phase draws are not
      modelled, as the pulse is driven by the clock. */
  datatype GlowDraw = GlowDraw(ux: real, uy: real, uvx: real, uvy: real, uradius: real, uopacity: real)

  predicate ValidGlowDraw(u: GlowDraw) {
    Unit(u.ux) && Unit(u.uy) && Unit(u.uvx) && Unit(u.uvy) && Unit(u.uradius) && Unit(u.uopacity)
  }

  /** The fields of one `Particle`: rendered position, drifting base position and its
      velocity, current and rest radius, rest opacity and the mouse offset. */
  datatype Glow = Glow(
    x: real, y: real,
    baseX: real, baseY: real,
    baseVx: real, baseVy: real,
    radius: real, baseRadius: real,
    opacity: real,
    offsetX: real, offsetY: real)

  /** The object invariant every glow particle keeps: a positive rest radius and a
      current radius within its mouse response. */
  predicate GlowInv(g: Glow) {
    g.baseRadius > 0.0 && g.baseRadius <= g.radius <= 1.5 * g.baseRadius
  }

  /** `Math.random() * w`: a draw in [0, 1) scaled to [0, w), or 0 when `w` is 0. */
  function Scale(u: real, w: real): (r: real)
    ensures Unit(u) && w >= 0.0 ==> 0.0 <= r <= w
    ensures Unit(u) && w > 0.0 ==> r < w
  {
    assert Unit(u) && w >= 0.0 ==> 0.0 <= u * w <= 1.0 * w;
    assert Unit(u) && w > 0.0 ==> u * w < 1.0 * w;
    u * w
  }

  /** `Particle.reset()` on a `width` by `height` canvas. */
  function GlowReset(u: GlowDraw, width: real, height: real): Glow {
    var x := Scale(u.ux, width);
    var y := Scale(u.uy, height);
    var r := u.uradius * 1.0 + 0.5;
    Glow(x, y, x, y, (u.uvx - 0.5) * 0.3, (u.uvy - 0.5) * 0.3, r, r, u.uopacity * 0.2 + 0.05, 0.0, 0.0)
  }

  /** A reset particle rests where it is drawn, with a velocity of at most 0.15 per
      axis, a rest radius in [0.5, 1.5), an opacity in [0.05, 0.25) and no offset. */
  lemma GlowResetSpec(u: GlowDraw, width: real, height: real)
    requires ValidGlowDraw(u)
    ensures var g := GlowReset(u, width, height);
      g.x == g.baseX && g.y == g.baseY &&
      -0.15 <= g.baseVx < 0.15 && -0.15 <= g.baseVy < 0.15 &&
      0.5 <= g.baseRadius < 1.5 && g.radius == g.baseRadius &&
      0.05 <= g.opacity < 0.25 &&
      g.offsetX == 0.0 && g.offsetY == 0.0 &&
      GlowInv(g)
  {
  }

  /** A reset particle starts on the canvas, and strictly inside the far edges when the
      canvas is not empty. */
  lemma GlowResetOnCanvas(u: GlowDraw, width: real, height: real)
    requires ValidGlowDraw(u) && width >= 0.0 && height >= 0.0
    ensures var g := GlowReset(u, width, height);
      0.0 <= g.baseX <= width && (width > 0.0 ==> g.baseX < width) &&
      0.0 <= g.baseY <= height && (height > 0.0 ==> g.baseY < height)
  {
    var g := GlowReset(u, width, height);
    assert g.baseX == Scale(u.ux, width) && g.baseY == Scale(u.uy, height);
  }

  /** The wrap of a base coordinate: below 0 jumps to `limit`, then above `limit` jumps to 0. */
  function Wrap(v: real, limit: real): (r: real)
    ensures limit >= 0.0 ==> 0.0 <= r <= limit
    ensures 0.0 <= v <= limit ==> r == v
  {
    var w := if v < 0.0 then limit else v;
    if w > limit then 0.0 else w
  }

  /** The mouse half of `update()`: the push and size response within 200 pixels,
      then the 0.95 decay of the offset. */
  function GlowReact(g: Glow, mouse: Option<Point>, geo: Geometry): Glow {
    var here := Point(g.x, g.y);
    var contact := Contact(here, mouse, geo, MouseRadius);
    var push :=
      if contact.Some? then
        var dir := geo.away(here, mouse.value);
        Point(dir.x * contact.value * MouseForce * 15.0, dir.y * contact.value * MouseForce * 15.0)
      else Point(0.0, 0.0);
    var radius := if contact.Some? then g.baseRadius * (1.0 + contact.value * 0.5) else g.baseRadius;
    g.(radius := radius, offsetX := (g.offsetX + push.x) * GlowDamping, offsetY := (g.offsetY + push.y) * GlowDamping)
  }

  /** The autonomous half of `update()`: drift by the base velocity, place the rendered
      position at the drifted base plus offset, then wrap the base. */
  function GlowDrift(g: Glow, width: real, height: real): Glow {
    var baseX := g.baseX + g.baseVx;
    var baseY := g.baseY + g.baseVy;
    g.(x := baseX + g.offsetX, y := baseY + g.offsetY, baseX := Wrap(baseX, width), baseY := Wrap(baseY, height))
  }

  /** One `Particle.update()` given where the mouse acts (`mouse`, see `Influence`),
      taken after the smoothing step that opens the update. */
  function GlowStep(g: Glow, mouse: Option<Point>, geo: Geometry, width: real, height: real): Glow {
    GlowDrift(GlowReact(g, mouse, geo), width, height)
  }

  /** The wrapped base position is on the canvas whatever the prior base and velocity,
      while the rendered position is taken from the base before wrapping. */
  lemma GlowStepWraps(g: Glow, mouse: Option<Point>, geo: Geometry, width: real, height: real)
    requires width >= 0.0 && height >= 0.0
    ensures var r := GlowStep(g, mouse, geo, width, height);
      0.0 <= r.baseX <= width && 0.0 <= r.baseY <= height &&
      r.x == g.baseX + g.baseVx + r.offsetX && r.y == g.baseY + g.baseVy + r.offsetY
  {
  }

  /** Velocity, rest radius and opacity never change. */
  lemma GlowStepKeeps(g: Glow, mouse: Option<Point>, geo: Geometry, width: real, height: real)
    ensures var r := GlowStep(g, mouse, geo, width, height);
      r.baseVx == g.baseVx && r.baseVy == g.baseVy &&
      r.baseRadius == g.baseRadius && r.opacity == g.opacity
  {
  }

  /** Out of the mouse's reach the particle has its rest radius and its offset only decays. */
  lemma GlowStepIdle(g: Glow, mouse: Option<Point>, geo: Geometry, width: real, height: real)
    requires Contact(Point(g.x, g.y), mouse, geo, MouseRadius).None?
    ensures var r := GlowStep(g, mouse, geo, width, height);
      r.radius == g.baseRadius &&
      r.offsetX == GlowDamping * g.offsetX && r.offsetY == GlowDamping * g.offsetY
  {
  }

  /** Within 200 pixels of an acting mouse the particle is pushed along `away` by
      `force * 0.08 * 15`, the offset then decays, and the radius grows into
      (baseRadius, 1.5 * baseRadius]. */
  lemma GlowStepPushed(g: Glow, mouse: Option<Point>, geo: Geometry, width: real, height: real)
    requires ValidGeometry(geo) && g.baseRadius > 0.0
    requires Contact(Point(g.x, g.y), mouse, geo, MouseRadius).Some?
    ensures var r := GlowStep(g, mouse, geo, width, height);
      var f := Contact(Point(g.x, g.y), mouse, geo, MouseRadius).value;
      var dir := geo.away(Point(g.x, g.y), mouse.value);
      r.offsetX == GlowDamping * (g.offsetX + dir.x * f * MouseForce * 15.0) &&
      r.offsetY == GlowDamping * (g.offsetY + dir.y * f * MouseForce * 15.0) &&
      g.baseRadius < r.radius <= 1.5 * g.baseRadius
  {
    var f := Contact(Point(g.x, g.y), mouse, geo, MouseRadius).value;
    assert geo.dist(Point(g.x, g.y), mouse.value) >= 0.0;
    ScaleBand(g.baseRadius, f, 0.5);
  }

  /** Every update keeps the radius invariant. */
  lemma GlowStepInv(g: Glow, mouse: Option<Point>, geo: Geometry, width: real, height: real)
    requires ValidGeometry(geo) && GlowInv(g)
    ensures GlowInv(GlowStep(g, mouse, geo, width, height))
  {
    if Contact(Point(g.x, g.y), mouse, geo, MouseRadius).Some? {
      GlowStepPushed(g, mouse, geo, width, height);
    } else {
      GlowStepIdle(g, mouse, geo, width, height);
    }
    GlowStepKeeps(g, mouse, geo, width, height);
  }

  /** `n` updates while the mouse does not act on the particle. */
  function GlowIdle(g: Glow, geo: Geometry, width: real, height: real, n: nat): Glow {
    if n == 0 then g else GlowStep(GlowIdle(g, geo, width, height, n - 1), None, geo, width, height)
  }

  /** `o` damped `n` times. */
  function Damp(o: real, n: nat): real {
    if n == 0 then o else GlowDamping * Damp(o, n - 1)
  }

  lemma {:induction false} Damped(o: real, n: nat)
    ensures Damp(o, n) == Pow(GlowDamping, n) * o
  {
    if n > 0 {
      Damped(o, n - 1);
      var k := Pow(GlowDamping, n - 1);
      assert Damp(o, n) == GlowDamping * (k * o);
      assert GlowDamping * (k * o) == (GlowDamping * k) * o;
    }
  }

  lemma {:induction false} GlowIdleDamps(g: Glow, geo: Geometry, width: real, height: real, n: nat)
    ensures GlowIdle(g, geo, width, height, n).offsetX == Damp(g.offsetX, n)
    ensures GlowIdle(g, geo, width, height, n).offsetY == Damp(g.offsetY, n)
    ensures GlowIdle(g, geo, width, height, n).baseRadius == g.baseRadius
    ensures GlowIdle(g, geo, width, height, n).radius == (if n == 0 then g.radius else g.baseRadius)
  {
    if n > 0 {
      GlowIdleDamps(g, geo, width, height, n - 1);
      var p := GlowIdle(g, geo, width, height, n - 1);
      GlowStepIdle(p, None, geo, width, height);
      GlowStepKeeps(p, None, geo, width, height);
    }
  }

  /** Without a push the offset decays as `0.95^n`, and the radius is back at rest. */
  lemma GlowIdleDecay(g: Glow, geo: Geometry, width: real, height: real, n: nat)
    ensures GlowIdle(g, geo, width, height, n).offsetX == Pow(GlowDamping, n) * g.offsetX
    ensures GlowIdle(g, geo, width, height, n).offsetY == Pow(GlowDamping, n) * g.offsetY
    ensures GlowIdle(g, geo, width, height, n).radius == (if n == 0 then g.radius else g.baseRadius)
  {
    GlowIdleDamps(g, geo, width, height, n);
    Damped(g.offsetX, n);
    Damped(g.offsetY, n);
  }

  /** One push-free step: a nonzero offset strictly shrinks in magnitude and keeps its sign. */
  lemma GlowOffsetShrinks(g: Glow, geo: Geometry, width: real, height: real)
    ensures var r := GlowStep(g, None, geo, width, height);
      (g.offsetX != 0.0 ==> Abs(r.offsetX) < Abs(g.offsetX)) &&
      (g.offsetY != 0.0 ==> Abs(r.offsetY) < Abs(g.offsetY)) &&
      (g.offsetX > 0.0 ==> r.offsetX > 0.0) && (g.offsetX < 0.0 ==> r.offsetX < 0.0) &&
      (g.offsetY > 0.0 ==> r.offsetY > 0.0) && (g.offsetY < 0.0 ==> r.offsetY < 0.0)
  {
    GlowStepIdle(g, None, geo, width, height);
  }

  /** One `Particle` object; its fields are those of `Glow`. */
  class GlowParticle {
    var x: real
    var y: real
    var baseX: real
    var baseY: real
    var baseVx: real
    var baseVy: real
    var radius: real
    var baseRadius: real
    var opacity: real
    var mouseOffsetX: real
    var mouseOffsetY: real

    function State(): Glow
      reads this
    {
      Glow(x, y, baseX, baseY, baseVx, baseVy, radius, baseRadius, opacity, mouseOffsetX, mouseOffsetY)
    }

    /** `new Particle()`: the constructor runs `reset()`. */
    constructor (u: GlowDraw, width: real, height: real)
      ensures State() == GlowReset(u, width, height)
    {
      new;
      Reset(u, width, height);
    }

    method Reset(u: GlowDraw, width: real, height: real)
      modifies this
      ensures State() == GlowReset(u, width, height)
    {
      x := u.ux * width;
      y := u.uy * height;
      baseX := x;
      baseY := y;
      baseVx := (u.uvx - 0.5) * 0.3;
      baseVy := (u.uvy - 0.5) * 0.3;
      radius := u.uradius * 1.0 + 0.5;
      baseRadius := radius;
      opacity := u.uopacity * 0.2 + 0.05;
      mouseOffsetX := 0.0;
      mouseOffsetY := 0.0;
    }

    /** `update()`: advance the shared smoothed mouse, react to it, then drift. */
    method Update(ptr: MouseInput, geo: Geometry, width: real, height: real)
      modifies this, ptr`smooth
      ensures ptr.smooth == SmoothStep(old(ptr.smooth), ptr.target)
      ensures State() == GlowStep(old(State()), Influence(ptr.isActive, ptr.smooth), geo, width, height)
    {
      ptr.Smooth();
      React(ptr, geo);
      Drift(width, height);
    }

    /** Lines 111-137 of `update()`: push, size response and offset decay. */
    method React(ptr: MouseInput, geo: Geometry)
      modifies this
      ensures State() == GlowReact(old(State()), Influence(ptr.isActive, ptr.smooth), geo)
    {
      var push := Point(0.0, 0.0);
      var r := baseRadius;
      if ptr.isActive && ptr.smooth.Some? {
        var here := Point(x, y);
        var distance := geo.dist(here, ptr.smooth.value);
        if distance < MouseRadius {
          var force := (MouseRadius - distance) / MouseRadius;
          var dir := geo.away(here, ptr.smooth.value);
          push := Point(dir.x * force * MouseForce * 15.0, dir.y * force * MouseForce * 15.0);
          r := baseRadius * (1.0 + force * 0.5);
        }
      }
      radius := r;
      mouseOffsetX, mouseOffsetY := (mouseOffsetX + push.x) * GlowDamping, (mouseOffsetY + push.y) * GlowDamping;
    }

    /** Lines 139-151 of `update()`: drift, rendered position, wrap. */
    method Drift(width: real, height: real)
      modifies this
      ensures State() == GlowDrift(old(State()), width, height)
    {
      var nx := baseX + baseVx;
      var ny := baseY + baseVy;
      x, y := nx + mouseOffsetX, ny + mouseOffsetY;
      if nx < 0.0 { nx := width; }
      if nx > width { nx := 0.0; }
      if ny < 0.0 { ny := height; }
      if ny > height { ny := 0.0; }
      baseX, baseY := nx, ny;
    }
  }
}
