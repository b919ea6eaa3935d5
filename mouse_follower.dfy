/** The custom cursor of the site: an inner dot and an outer glowing orb that both
    ease toward the last mouse position, the inner one faster than the outer one. */
module MouseFollowerEffect {
  import opened Plane

  /** Fraction of the remaining gap the inner dot covers per animation frame. */
  const InnerLerp: real := 0.15
  /** Fraction of the remaining gap the outer orb covers per animation frame. */
  const OuterLerp: real := 0.08

  /** One linear-interpolation step of `p` toward `target` by the fraction `k`. */
  function Lerp(p: Point, target: Point, k: real): Point {
    Point(p.x + (target.x - p.x) * k, p.y + (target.y - p.y) * k)
  }

  /** On one axis, an interpolation step from `a` toward `t` by `k` in [0, 1] moves
      the fraction `k` of the gap, leaves the fraction `1 - k` behind, and lands
      between `a` and `t`. */
  lemma LerpAxis(a: real, t: real, k: real)
    requires 0.0 <= k <= 1.0
    ensures (a + (t - a) * k) - a == k * (t - a)
    ensures (a + (t - a) * k) - t == (1.0 - k) * (a - t)
    ensures Between(a, a + (t - a) * k, t)
  {
    var d := t - a;
    if d >= 0.0 {
      assert 0.0 <= d * k <= d * 1.0;
      assert a <= a + d * k <= t;
    } else {
      assert d * 1.0 <= d * k <= 0.0;
      assert t <= a + d * k <= a;
    }
    assert (a + d * k) - a == k * d;
    assert k * (a - t) == -(k * d);
    assert (1.0 - k) * (a - t) == (a - t) - k * (a - t);
  }

  /** A step with `k` in [0, 1] moves exactly the fraction `k` of the gap, never
      overshoots the target, and leaves the fraction `1 - k` of the gap behind. */
  lemma LerpMoves(p: Point, target: Point, k: real)
    requires 0.0 <= k <= 1.0
    ensures Lerp(p, target, k).x - p.x == k * (target.x - p.x)
    ensures Lerp(p, target, k).y - p.y == k * (target.y - p.y)
    ensures Lerp(p, target, k).x - target.x == (1.0 - k) * (p.x - target.x)
    ensures Lerp(p, target, k).y - target.y == (1.0 - k) * (p.y - target.y)
    ensures Between(p.x, Lerp(p, target, k).x, target.x)
    ensures Between(p.y, Lerp(p, target, k).y, target.y)
  {
    LerpAxis(p.x, target.x, k);
    LerpAxis(p.y, target.y, k);
  }

  /** What the animation loop reads and writes: the last mouse position (`mousePosition`),
      the two drawn positions, and the visibility and hover flags. */
  datatype Cursor = Cursor(mouse: Point, inner: Point, outer: Point, visible: bool, hovering: bool)

  /** One animation frame: both positions ease toward the mouse; nothing else changes. */
  function Animate(c: Cursor): Cursor {
    c.(inner := Lerp(c.inner, c.mouse, InnerLerp), outer := Lerp(c.outer, c.mouse, OuterLerp))
  }

  /** `n` frames without mouse movement in between. */
  function AnimateFrames(c: Cursor, n: nat): Cursor {
    if n == 0 then c else Animate(AnimateFrames(c, n - 1))
  }

  /** Still frames move neither the mouse position nor the flags. */
  lemma {:induction false} AnimateFramesKeeps(c: Cursor, n: nat)
    ensures AnimateFrames(c, n).mouse == c.mouse
    ensures AnimateFrames(c, n).visible == c.visible && AnimateFrames(c, n).hovering == c.hovering
  {
    if n > 0 {
      AnimateFramesKeeps(c, n - 1);
    }
  }

  /** The signed distance from `v` to `t` is `a` times `g`. */
  predicate Gap(v: real, t: real, a: real, g: real) {
    v - t == a * g
  }

  /** After `n` still frames the inner gap is `0.85^n` of the initial gap. */
  lemma {:induction false} InnerGap(c: Cursor, n: nat)
    ensures Gap(AnimateFrames(c, n).inner.x, c.mouse.x, Pow(0.85, n), c.inner.x - c.mouse.x)
    ensures Gap(AnimateFrames(c, n).inner.y, c.mouse.y, Pow(0.85, n), c.inner.y - c.mouse.y)
  {
    if n > 0 {
      InnerGap(c, n - 1);
      AnimateFramesKeeps(c, n - 1);
      var p := AnimateFrames(c, n - 1);
      AxisGap(p.inner.x, c.mouse.x, InnerLerp, Pow(0.85, n - 1), c.inner.x - c.mouse.x);
      AxisGap(p.inner.y, c.mouse.y, InnerLerp, Pow(0.85, n - 1), c.inner.y - c.mouse.y);
    }
  }

  /** After `n` still frames the outer gap is `0.92^n` of the initial gap. */
  lemma {:induction false} OuterGap(c: Cursor, n: nat)
    ensures Gap(AnimateFrames(c, n).outer.x, c.mouse.x, Pow(0.92, n), c.outer.x - c.mouse.x)
    ensures Gap(AnimateFrames(c, n).outer.y, c.mouse.y, Pow(0.92, n), c.outer.y - c.mouse.y)
  {
    if n > 0 {
      OuterGap(c, n - 1);
      AnimateFramesKeeps(c, n - 1);
      var p := AnimateFrames(c, n - 1);
      AxisGap(p.outer.x, c.mouse.x, OuterLerp, Pow(0.92, n - 1), c.outer.x - c.mouse.x);
      AxisGap(p.outer.y, c.mouse.y, OuterLerp, Pow(0.92, n - 1), c.outer.y - c.mouse.y);
    }
  }

  /** One frame on one axis: when the gap from `prev` to the target `t` is `pw` times
      `g`, a step by `k` leaves the gap `(1 - k) * pw` times `g`. */
  lemma AxisGap(prev: real, t: real, k: real, pw: real, g: real)
    requires Gap(prev, t, pw, g)
    ensures Gap(prev + (t - prev) * k, t, (1.0 - k) * pw, g)
  {
    assert (prev + (t - prev) * k) - t == (1.0 - k) * (prev - t);
    assert (1.0 - k) * (pw * g) == ((1.0 - k) * pw) * g;
  }

  /** Two gaps `a * g` and `b * g` with `0 <= a <= b`: the first is no farther from
      zero than the second. */
  lemma ScaledGap(vi: real, vo: real, t: real, a: real, b: real, g: real)
    requires 0.0 <= a <= b && Gap(vi, t, a, g) && Gap(vo, t, b, g)
    ensures Abs(vi - t) <= Abs(vo - t)
  {
    if g >= 0.0 {
      assert a * g <= b * g;
    } else {
      assert b * g <= a * g <= 0.0;
    }
  }

  /** Two gaps `a * g` and `b * g` with `0 < a < b`: the first is strictly closer to zero
      when `g != 0`. */
  lemma StrictGap(vn: real, vp: real, t: real, a: real, b: real, g: real)
    requires 0.0 < a < b && Gap(vn, t, a, g) && Gap(vp, t, b, g)
    ensures g != 0.0 ==> Abs(vn - t) < Abs(vp - t)
  {
    if g > 0.0 {
      assert 0.0 < a * g < b * g;
    } else if g < 0.0 {
      assert b * g < a * g < 0.0;
    }
  }

  /** From a common start (both positions begin at the origin) the inner dot is, on each
      axis, never farther from a resting mouse than the outer orb: the orb trails. */
  lemma InnerLeadsOuter(c: Cursor, n: nat)
    requires c.inner == c.outer
    ensures Abs(AnimateFrames(c, n).inner.x - c.mouse.x) <= Abs(AnimateFrames(c, n).outer.x - c.mouse.x)
    ensures Abs(AnimateFrames(c, n).inner.y - c.mouse.y) <= Abs(AnimateFrames(c, n).outer.y - c.mouse.y)
  {
    var d := AnimateFrames(c, n);
    InnerGap(c, n);
    OuterGap(c, n);
    PowMonotone(0.85, 0.92, n);
    ScaledGap(d.inner.x, d.outer.x, c.mouse.x, Pow(0.85, n), Pow(0.92, n), c.inner.x - c.mouse.x);
    ScaledGap(d.inner.y, d.outer.y, c.mouse.y, Pow(0.85, n), Pow(0.92, n), c.inner.y - c.mouse.y);
  }

  /** Both gaps shrink strictly with every frame while the mouse rests and the gap is
      nonzero. */
  lemma {:induction false} AnimateFramesConverge(c: Cursor, n: nat)
    ensures c.inner.x != c.mouse.x ==>
      Abs(AnimateFrames(c, n + 1).inner.x - c.mouse.x) < Abs(AnimateFrames(c, n).inner.x - c.mouse.x)
    ensures c.outer.x != c.mouse.x ==>
      Abs(AnimateFrames(c, n + 1).outer.x - c.mouse.x) < Abs(AnimateFrames(c, n).outer.x - c.mouse.x)
    ensures c.inner.y != c.mouse.y ==>
      Abs(AnimateFrames(c, n + 1).inner.y - c.mouse.y) < Abs(AnimateFrames(c, n).inner.y - c.mouse.y)
    ensures c.outer.y != c.mouse.y ==>
      Abs(AnimateFrames(c, n + 1).outer.y - c.mouse.y) < Abs(AnimateFrames(c, n).outer.y - c.mouse.y)
  {
    var d := AnimateFrames(c, n);
    var e := AnimateFrames(c, n + 1);
    InnerGap(c, n);
    InnerGap(c, n + 1);
    OuterGap(c, n);
    OuterGap(c, n + 1);
    PowShrinks(0.85, n);
    PowShrinks(0.92, n);
    StrictGap(e.inner.x, d.inner.x, c.mouse.x, Pow(0.85, n + 1), Pow(0.85, n), c.inner.x - c.mouse.x);
    StrictGap(e.outer.x, d.outer.x, c.mouse.x, Pow(0.92, n + 1), Pow(0.92, n), c.outer.x - c.mouse.x);
    StrictGap(e.inner.y, d.inner.y, c.mouse.y, Pow(0.85, n + 1), Pow(0.85, n), c.inner.y - c.mouse.y);
    StrictGap(e.outer.y, d.outer.y, c.mouse.y, Pow(0.92, n + 1), Pow(0.92, n), c.outer.y - c.mouse.y);
  }

  /** The component's refs and flags. Both positions and the mouse start at the origin,
      hidden and not hovering. */
  class Follower {
    var mouse: Point
    var inner: Point
    var outer: Point
    var visible: bool
    var hovering: bool

    function State(): Cursor
      reads this
    {
      Cursor(mouse, inner, outer, visible, hovering)
    }

    constructor ()
      ensures State() == Cursor(Point(0.0, 0.0), Point(0.0, 0.0), Point(0.0, 0.0), false, false)
    {
      mouse, inner, outer := Point(0.0, 0.0), Point(0.0, 0.0), Point(0.0, 0.0);
      visible, hovering := false, false;
    }

    /** `handleMouseMove`: the target becomes the event's client position and the
        cursor becomes visible; the drawn positions do not jump. */
    method MouseMove(clientX: real, clientY: real)
      modifies this
      ensures State() == old(State()).(mouse := Point(clientX, clientY), visible := true)
    {
      mouse := Point(clientX, clientY);
      if !visible {
        visible := true;
      }
    }

    /** One run of `animate`. */
    method Step()
      modifies this
      ensures State() == Animate(old(State()))
    {
      inner := Point(inner.x + (mouse.x - inner.x) * InnerLerp, inner.y + (mouse.y - inner.y) * InnerLerp);
      outer := Point(outer.x + (mouse.x - outer.x) * OuterLerp, outer.y + (mouse.y - outer.y) * OuterLerp);
    }

    /** Leaving the window hides the cursor; entering shows it again. */
    method LeaveWindow()
      modifies this
      ensures State() == old(State()).(visible := false)
    {
      visible := false;
    }

    method EnterWindow()
      modifies this
      ensures State() == old(State()).(visible := true)
    {
      visible := true;
    }

    /** Entering or leaving an interactive element (link, button, input, card). */
    method SetHovering(over: bool)
      modifies this
      ensures State() == old(State()).(hovering := over)
    {
      hovering := over;
    }
  }
}
