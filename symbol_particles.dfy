/** The floating code-symbol particles of the animated background: `CodeParticle.reset`
    and `CodeParticle.update`, without drawing. A symbol drifts upward, fades in to its
    own `maxOpacity`, fades out in the top fifth of the canvas and respawns below the
    bottom edge once it has left the top. */
module SymbolParticles {
  import opened Wrappers
  import opened Plane
  import opened MouseTracking
  import opened GlowParticles

  /** Symbols react within 1.2 times the glow radius. */
  const SymbolRadius: real := MouseRadius * 1.2
  /** Per-frame decay of the mouse offset of a symbol. */
  const SymbolDamping: real := 0.92
  const FadeInStep: real := 0.005
  const FadeOutStep: real := 0.002
  /** Upper bound the mouse may raise `maxOpacity` to. */
  const MaxOpacityCap: real := 0.3
  /** A symbol whose base is above this line has left the canvas and respawns. */
  const TopLimit: real := -50.0

  /** The glyph alphabet (`codeSymbols`). */
  const CodeSymbols: seq<string> := [
    "{", "}", "<", ">", "/", "=", ";", "(", ")", "[", "]",
    "0", "1", "AI", "< >", "/*", "*/", "=>", "++", "&&", "||",
    "fn", "let", "var", "if", "for", "{ }", "...", "01", "10"]

  /** The `Math.random()` values one `CodeParticle.reset()` consumes, in order of use.
      `angle` is the initial rotation `Math.random() * Math.PI * 2`, taken as given. */
  datatype SymbolDraw = SymbolDraw(
    ux: real, uvy: real, uvx: real, usymbol: real, ufont: real, umax: real, urotation: real,
    angle: real)

  predicate ValidSymbolDraw(u: SymbolDraw) {
    Unit(u.ux) && Unit(u.uvy) && Unit(u.uvx) && Unit(u.usymbol) && Unit(u.ufont) &&
    Unit(u.umax) && Unit(u.urotation) && u.angle >= 0.0
  }

  /** The fields of one `CodeParticle`. */
  datatype Symbol = Symbol(
    x: real, y: real,
    baseX: real, baseY: real,
    vx: real, vy: real,
    symbol: string,
    fontSize: real, baseFontSize: real,
    opacity: real, maxOpacity: real, fadeIn: bool,
    rotation: real, rotationAngle: real,
    offsetX: real, offsetY: real)

  /** The lifecycle invariant: opacity is never negative; while fading in it is below
      `maxOpacity`; it never passes `maxOpacity` by more than one fade-in step;
      `maxOpacity` is positive and capped; the font size stays within its response band. */
  predicate SymbolInv(c: Symbol) {
    0.0 <= c.opacity &&
    (c.fadeIn ==> c.opacity < c.maxOpacity) &&
    c.opacity <= c.maxOpacity + FadeInStep &&
    0.0 < c.maxOpacity <= MaxOpacityCap &&
    0.0 < c.baseFontSize && c.baseFontSize <= c.fontSize <= 1.3 * c.baseFontSize
  }

  /** `Math.floor(u * codeSymbols.length)` picks a valid index. */
  function SymbolIndex(u: real): (k: nat)
    requires Unit(u)
    ensures k < |CodeSymbols|
  {
    assert |CodeSymbols| == 30;
    (u * 30.0).Floor
  }

  /** `CodeParticle.reset()`: a fresh, invisible, fading-in symbol 50 pixels below the
      bottom edge, drifting upward. */
  function SymbolReset(u: SymbolDraw, width: real, height: real): Symbol
    requires ValidSymbolDraw(u)
  {
    var x := Scale(u.ux, width);
    var font := u.ufont * 8.0 + 6.0;
    Symbol(x, height + 50.0, x, height + 50.0,
           (u.uvx - 0.5) * 0.3, -(u.uvy * 0.8 + 0.3),
           CodeSymbols[SymbolIndex(u.usymbol)],
           font, font,
           0.0, u.umax * 0.08 + 0.02, true,
           (u.urotation - 0.5) * 0.5, u.angle,
           0.0, 0.0)
  }

  /** A reset symbol sits 50 pixels below the bottom edge, rises at 0.3 to 1.1 pixels
      per frame, drifts sideways by less than 0.15, shows a glyph of the alphabet at
      its rest size in [6, 14), is invisible and fading in toward a `maxOpacity` in
      [0.02, 0.1), and has no mouse offset. */
  lemma SymbolResetSpec(u: SymbolDraw, width: real, height: real)
    requires ValidSymbolDraw(u)
    ensures var c := SymbolReset(u, width, height);
      c.baseY == height + 50.0 && c.y == c.baseY && c.x == c.baseX &&
      -1.1 < c.vy <= -0.3 && -0.15 <= c.vx < 0.15 &&
      c.symbol in CodeSymbols &&
      6.0 <= c.baseFontSize < 14.0 && c.fontSize == c.baseFontSize &&
      c.opacity == 0.0 && c.fadeIn &&
      0.02 <= c.maxOpacity < 0.1 &&
      -0.25 <= c.rotation < 0.25 && c.rotationAngle == u.angle &&
      c.offsetX == 0.0 && c.offsetY == 0.0 &&
      SymbolInv(c)
  {
  }

  /** A respawned symbol starts horizontally on the canvas. */
  lemma SymbolResetOnCanvas(u: SymbolDraw, width: real, height: real)
    requires ValidSymbolDraw(u) && width >= 0.0
    ensures 0.0 <= SymbolReset(u, width, height).baseX <= width
  {
    var c := SymbolReset(u, width, height);
    assert c.baseX == Scale(u.ux, width);
  }

  /** The initial population places each reset symbol at a random height instead
      (AnimatedBackground.jsx:283-284). */
  function SymbolSeed(u: SymbolDraw, uy: real, width: real, height: real): Symbol
    requires ValidSymbolDraw(u)
  {
    SymbolReset(u, width, height).(y := Scale(uy, height), baseY := Scale(uy, height))
  }

  /** A start-up symbol is placed on the canvas, invisible and fading in. */
  lemma SymbolSeedSpec(u: SymbolDraw, uy: real, width: real, height: real)
    requires ValidSymbolDraw(u) && Unit(uy) && height >= 0.0
    ensures var c := SymbolSeed(u, uy, width, height);
      0.0 <= c.baseY <= height && c.y == c.baseY &&
      c == SymbolReset(u, width, height).(y := c.y, baseY := c.baseY) &&
      c.opacity == 0.0 && c.fadeIn && SymbolInv(c)
  {
    var c := SymbolSeed(u, uy, width, height);
    assert c.baseY == Scale(uy, height);
    SymbolResetSpec(u, width, height);
  }

  /** Lines 205-234 of `update()`: within 240 pixels of the mouse the symbol is pushed
      along the swirl direction, grows, may raise `maxOpacity` (capped at 0.3) and spins
      a little; then the offset decays by 0.92. */
  function SymbolReact(c: Symbol, mouse: Option<Point>, geo: Geometry): Symbol {
    var here := Point(c.x, c.y);
    match Contact(here, mouse, geo, SymbolRadius)
    case None =>
      c.(fontSize := c.baseFontSize,
         offsetX := c.offsetX * SymbolDamping, offsetY := c.offsetY * SymbolDamping)
    case Some(force) =>
      var dir := geo.swirl(here, mouse.value);
      c.(fontSize := c.baseFontSize * (1.0 + force * 0.3),
         maxOpacity := Min(MaxOpacityCap, c.maxOpacity + force * 0.02),
         rotationAngle := c.rotationAngle + force * 0.05,
         offsetX := (c.offsetX + dir.x * force * MouseForce * 10.0) * SymbolDamping,
         offsetY := (c.offsetY + dir.y * force * MouseForce * 10.0) * SymbolDamping)
  }

  /** Out of the mouse's reach a symbol is at its rest size and its offset only decays. */
  lemma SymbolReactIdle(c: Symbol, mouse: Option<Point>, geo: Geometry)
    requires Contact(Point(c.x, c.y), mouse, geo, SymbolRadius).None?
    ensures var r := SymbolReact(c, mouse, geo);
      r == c.(fontSize := c.baseFontSize,
              offsetX := SymbolDamping * c.offsetX, offsetY := SymbolDamping * c.offsetY)
  {
  }

  /** Within 240 pixels of an acting mouse the size grows into (base, 1.3 * base],
      `maxOpacity` rises but never past 0.3, the spin angle advances with the force, and
      the offset is pushed along the swirl direction by `force * 0.08 * 10` before it
      decays by 0.92. */
  lemma SymbolReactPushed(c: Symbol, mouse: Option<Point>, geo: Geometry)
    requires ValidGeometry(geo) && c.baseFontSize > 0.0
    requires Contact(Point(c.x, c.y), mouse, geo, SymbolRadius).Some?
    ensures var r := SymbolReact(c, mouse, geo);
      var f := Contact(Point(c.x, c.y), mouse, geo, SymbolRadius).value;
      var dir := geo.swirl(Point(c.x, c.y), mouse.value);
      r.offsetX == SymbolDamping * (c.offsetX + dir.x * f * MouseForce * 10.0) &&
      r.offsetY == SymbolDamping * (c.offsetY + dir.y * f * MouseForce * 10.0) &&
      c.baseFontSize < r.fontSize <= 1.3 * c.baseFontSize &&
      r.maxOpacity == Min(MaxOpacityCap, c.maxOpacity + f * 0.02) &&
      (c.maxOpacity <= MaxOpacityCap ==> c.maxOpacity < r.maxOpacity || r.maxOpacity == MaxOpacityCap) &&
      r.rotationAngle == c.rotationAngle + f * 0.05
  {
    var f := Contact(Point(c.x, c.y), mouse, geo, SymbolRadius).value;
    var r := SymbolReact(c, mouse, geo);
    assert r.fontSize == c.baseFontSize * (1.0 + f * 0.3);
    assert geo.dist(Point(c.x, c.y), mouse.value) >= 0.0;
    ScaleBand(c.baseFontSize, f, 0.3);
  }

  /** Lines 236-249 of `update()`: drift, spin, rendered position, and one fade-in step
      that ends the fade-in once `maxOpacity` is reached. */
  function SymbolDrift(c: Symbol): Symbol {
    var baseY := c.baseY + c.vy;
    var baseX := c.baseX + c.vx;
    var moved := c.(baseX := baseX, baseY := baseY,
                    rotationAngle := c.rotationAngle + c.rotation * 0.01,
                    x := baseX + c.offsetX, y := baseY + c.offsetY);
    if c.fadeIn then
      var opacity := c.opacity + FadeInStep;
      moved.(opacity := opacity, fadeIn := !(opacity >= c.maxOpacity))
    else
      moved
  }

  /** Lines 251-253: a symbol above `-50` respawns at the bottom. */
  function SymbolRespawn(c: Symbol, u: SymbolDraw, width: real, height: real): Symbol
    requires ValidSymbolDraw(u)
  {
    if c.baseY < TopLimit then SymbolReset(u, width, height) else c
  }

  /** Lines 256-258: in the top fifth of the canvas opacity drops by 0.002, never below 0. */
  function SymbolFadeOut(c: Symbol, height: real): Symbol {
    if c.baseY < height * 0.2 then c.(opacity := Max(0.0, c.opacity - FadeOutStep)) else c
  }

  /** One `CodeParticle.update()`; `u` supplies the draws a respawn would consume. */
  function SymbolStep(c: Symbol, mouse: Option<Point>, geo: Geometry, u: SymbolDraw,
                      width: real, height: real): Symbol
    requires ValidSymbolDraw(u)
  {
    SymbolFadeOut(SymbolRespawn(SymbolDrift(SymbolReact(c, mouse, geo)), u, width, height), height)
  }

  /** The mouse response changes only the size, `maxOpacity`, spin angle and offset:
      it never moves the base or rendered position, nor touches the glyph or the fade
      state, and never lowers a capped `maxOpacity`. */
  lemma SymbolReactKeeps(c: Symbol, mouse: Option<Point>, geo: Geometry)
    ensures var r := SymbolReact(c, mouse, geo);
      r.x == c.x && r.y == c.y && r.symbol == c.symbol && r.rotation == c.rotation &&
      r.baseX == c.baseX && r.baseY == c.baseY && r.vx == c.vx && r.vy == c.vy &&
      r.opacity == c.opacity && r.fadeIn == c.fadeIn && r.baseFontSize == c.baseFontSize &&
      (c.maxOpacity <= MaxOpacityCap ==> c.maxOpacity <= r.maxOpacity <= MaxOpacityCap)
  {
  }

  /** A symbol never stays above the respawn line; one that crosses it this frame is
      replaced by a reset symbol: below the bottom edge, invisible and fading in. */
  lemma SymbolStepRespawns(c: Symbol, mouse: Option<Point>, geo: Geometry, u: SymbolDraw,
                           width: real, height: real)
    requires ValidSymbolDraw(u) && height >= 0.0
    ensures var r := SymbolStep(c, mouse, geo, u, width, height);
      r.baseY >= TopLimit &&
      (c.baseY + c.vy < TopLimit ==>
        r == SymbolReset(u, width, height) && r.baseY == height + 50.0 && r.opacity == 0.0 && r.fadeIn) &&
      (c.baseY + c.vy >= TopLimit ==> r.baseY == c.baseY + c.vy)
  {
    SymbolReactKeeps(c, mouse, geo);
    SymbolResetSpec(u, width, height);
  }

  /** Fading in only ever restarts by a respawn, and between respawns `maxOpacity`
      never decreases and stays capped. */
  lemma SymbolStepFade(c: Symbol, mouse: Option<Point>, geo: Geometry, u: SymbolDraw,
                       width: real, height: real)
    requires ValidSymbolDraw(u)
    ensures var r := SymbolStep(c, mouse, geo, u, width, height);
      (r.fadeIn ==> c.fadeIn || c.baseY + c.vy < TopLimit) &&
      (c.baseY + c.vy >= TopLimit && c.maxOpacity <= MaxOpacityCap ==>
        c.maxOpacity <= r.maxOpacity <= MaxOpacityCap)
  {
    SymbolReactKeeps(c, mouse, geo);
    SymbolResetSpec(u, width, height);
  }

  /** The lifecycle invariant survives the mouse response... */
  lemma SymbolReactInv(c: Symbol, mouse: Option<Point>, geo: Geometry)
    requires ValidGeometry(geo) && SymbolInv(c)
    ensures SymbolInv(SymbolReact(c, mouse, geo))
  {
    SymbolReactKeeps(c, mouse, geo);
    if Contact(Point(c.x, c.y), mouse, geo, SymbolRadius).Some? {
      SymbolReactPushed(c, mouse, geo);
    } else {
      SymbolReactIdle(c, mouse, geo);
    }
  }

  /** ...the drift and fade-in step, and the fade-out. */
  lemma SymbolDriftInv(c: Symbol, height: real)
    requires SymbolInv(c)
    ensures SymbolInv(SymbolDrift(c)) && SymbolInv(SymbolFadeOut(SymbolDrift(c), height))
  {
  }

  /** Every update keeps the lifecycle invariant: opacity never negative, below
      `maxOpacity` while fading in and never more than one fade-in step above it,
      `maxOpacity` in (0, 0.3], and the size within its response band. */
  lemma SymbolStepInv(c: Symbol, mouse: Option<Point>, geo: Geometry, u: SymbolDraw,
                      width: real, height: real)
    requires ValidGeometry(geo) && ValidSymbolDraw(u) && height >= 0.0 && SymbolInv(c)
    ensures SymbolInv(SymbolStep(c, mouse, geo, u, width, height))
  {
    var reacted := SymbolReact(c, mouse, geo);
    SymbolReactInv(c, mouse, geo);
    SymbolDriftInv(reacted, height);
    var drifted := SymbolDrift(reacted);
    if drifted.baseY < TopLimit {
      SymbolResetSpec(u, width, height);
    }
  }

  /** One `CodeParticle` object; its fields are those of `Symbol`. */
  class CodeParticle {
    var x: real
    var y: real
    var baseX: real
    var baseY: real
    var vx: real
    var vy: real
    var symbol: string
    var fontSize: real
    var baseFontSize: real
    var opacity: real
    var maxOpacity: real
    var fadeIn: bool
    var rotation: real
    var rotationAngle: real
    var mouseOffsetX: real
    var mouseOffsetY: real

    function State(): Symbol
      reads this
    {
      Symbol(x, y, baseX, baseY, vx, vy, symbol, fontSize, baseFontSize,
             opacity, maxOpacity, fadeIn, rotation, rotationAngle, mouseOffsetX, mouseOffsetY)
    }

    /** `new CodeParticle()`: the constructor runs `reset()`. */
    constructor (u: SymbolDraw, width: real, height: real)
      requires ValidSymbolDraw(u)
      ensures State() == SymbolReset(u, width, height)
    {
      new;
      Reset(u, width, height);
    }

    method Reset(u: SymbolDraw, width: real, height: real)
      requires ValidSymbolDraw(u)
      modifies this
      ensures State() == SymbolReset(u, width, height)
    {
      var c := SymbolReset(u, width, height);
      x, y, baseX, baseY := c.x, c.y, c.baseX, c.baseY;
      vx, vy, symbol := c.vx, c.vy, c.symbol;
      fontSize, baseFontSize := c.fontSize, c.baseFontSize;
      opacity, maxOpacity, fadeIn := c.opacity, c.maxOpacity, c.fadeIn;
      rotation, rotationAngle := c.rotation, c.rotationAngle;
      mouseOffsetX, mouseOffsetY := c.offsetX, c.offsetY;
    }

    /** The start-up placement at a random height (AnimatedBackground.jsx:283-284). */
    method Seed(uy: real, height: real)
      modifies this`y, this`baseY
      ensures State() == old(State()).(y := Scale(uy, height), baseY := Scale(uy, height))
    {
      y := uy * height;
      baseY := y;
    }

    /** `update()`, reading (never advancing) the smoothed mouse. */
    method Update(ptr: MouseInput, geo: Geometry, u: SymbolDraw, width: real, height: real)
      requires ValidSymbolDraw(u)
      modifies this
      ensures State() == SymbolStep(old(State()), Influence(ptr.isActive, ptr.smooth), geo, u, width, height)
    {
      React(ptr, geo);
      Drift();
      if baseY < TopLimit {
        Reset(u, width, height);
      }
      if baseY < height * 0.2 {
        opacity := Max(0.0, opacity - FadeOutStep);
      }
    }

    /** Lines 205-234: swirl, growth, `maxOpacity` raise, extra spin, offset decay. */
    method React(ptr: MouseInput, geo: Geometry)
      modifies this
      ensures State() == SymbolReact(old(State()), Influence(ptr.isActive, ptr.smooth), geo)
    {
      var push := Point(0.0, 0.0);
      var font, maxOp, angle := baseFontSize, maxOpacity, rotationAngle;
      if ptr.isActive && ptr.smooth.Some? {
        var here := Point(x, y);
        var distance := geo.dist(here, ptr.smooth.value);
        if distance < SymbolRadius {
          var force := (SymbolRadius - distance) / SymbolRadius;
          var dir := geo.swirl(here, ptr.smooth.value);
          push := Point(dir.x * force * MouseForce * 10.0, dir.y * force * MouseForce * 10.0);
          font := baseFontSize * (1.0 + force * 0.3);
          maxOp := Min(MaxOpacityCap, maxOpacity + force * 0.02);
          angle := rotationAngle + force * 0.05;
        }
      }
      fontSize, maxOpacity, rotationAngle := font, maxOp, angle;
      mouseOffsetX, mouseOffsetY := (mouseOffsetX + push.x) * SymbolDamping, (mouseOffsetY + push.y) * SymbolDamping;
    }

    /** Lines 236-249: drift, spin, rendered position, fade-in step. */
    method Drift()
      modifies this
      ensures State() == SymbolDrift(old(State()))
    {
      var c := SymbolDrift(State());
      baseY, baseX, rotationAngle, x, y, opacity, fadeIn :=
        c.baseY, c.baseX, c.rotationAngle, c.x, c.y, c.opacity, c.fadeIn;
    }
  }
}
