/** The mouse state of the animated background: the raw target written by the
    mouse and touch handlers, the `isActive` flag, and the smoothed position
    `smoothMouse` that the particles react to. */
module MouseTracking {
  import opened Wrappers
  import opened Plane

  /** Fraction of the remaining gap covered by one smoothing step. */
  const SmoothingFactor: real := 0.1

  /** One smoothing step of `smoothMouse` toward the target. With no target yet
      nothing happens; the first step with a target copies it; later steps cover
      a tenth of the gap, so the gap itself shrinks by a factor 0.9. */
  function SmoothStep(smooth: Option<Point>, target: Option<Point>): (r: Option<Point>)
    ensures target.None? ==> r == smooth
    ensures target.Some? && smooth.None? ==> r == target
    ensures target.Some? && smooth.Some? ==>
      r.Some? &&
      r.value.x - target.value.x == 0.9 * (smooth.value.x - target.value.x) &&
      r.value.y - target.value.y == 0.9 * (smooth.value.y - target.value.y)
  {
    match target
    case None => smooth
    case Some(t) =>
      match smooth
      case None => Some(t)
      case Some(s) =>
        Some(Point(s.x + (t.x - s.x) * SmoothingFactor, s.y + (t.y - s.y) * SmoothingFactor))
  }

  /** A later step moves exactly 10% of the gap on each axis and never overshoots the target. */
  lemma SmoothStepMovesTenth(s: Point, t: Point)
    ensures SmoothStep(Some(s), Some(t)).Some?
    ensures SmoothStep(Some(s), Some(t)).value.x - s.x == 0.1 * (t.x - s.x)
    ensures SmoothStep(Some(s), Some(t)).value.y - s.y == 0.1 * (t.y - s.y)
    ensures Between(s.x, SmoothStep(Some(s), Some(t)).value.x, t.x)
    ensures Between(s.y, SmoothStep(Some(s), Some(t)).value.y, t.y)
  {
  }

  /** `n` smoothing steps against a fixed target. */
  function SmoothIter(smooth: Option<Point>, target: Option<Point>, n: nat): Option<Point> {
    if n == 0 then smooth else SmoothStep(SmoothIter(smooth, target, n - 1), target)
  }

  /** Without a target the smoothed position never changes. */
  lemma {:induction false} SmoothIterNoTarget(smooth: Option<Point>, n: nat)
    ensures SmoothIter(smooth, None, n) == smooth
  {
    if n > 0 {
      SmoothIterNoTarget(smooth, n - 1);
    }
  }

  /** Starting unset, the first step copies the target and later steps stay on it. */
  lemma {:induction false} SmoothIterFromUnset(t: Point, n: nat)
    requires n >= 1
    ensures SmoothIter(None, Some(t), n) == Some(t)
  {
    if n > 1 {
      SmoothIterFromUnset(t, n - 1);
      assert SmoothStep(Some(t), Some(t)) == Some(t);
    }
  }

  /** After `n` steps the gap to the target is exactly `0.9^n` times the initial gap. */
  lemma {:induction false} SmoothIterGap(s: Point, t: Point, n: nat)
    ensures SmoothIter(Some(s), Some(t), n).Some?
    ensures SmoothIter(Some(s), Some(t), n).value.x - t.x == Pow(0.9, n) * (s.x - t.x)
    ensures SmoothIter(Some(s), Some(t), n).value.y - t.y == Pow(0.9, n) * (s.y - t.y)
  {
    if n > 0 {
      SmoothIterGap(s, t, n - 1);
      var p := SmoothIter(Some(s), Some(t), n - 1).value;
      assert p.x - t.x == Pow(0.9, n - 1) * (s.x - t.x);
      assert SmoothIter(Some(s), Some(t), n).value.x - t.x == 0.9 * (p.x - t.x);
      assert SmoothIter(Some(s), Some(t), n).value.y - t.y == 0.9 * (p.y - t.y);
    }
  }

  /** Monotone convergence: each step strictly shrinks a nonzero gap and stays on the
      same side of the target. */
  lemma SmoothStepConverges(s: Point, t: Point)
    ensures s.x != t.x ==> Abs(SmoothStep(Some(s), Some(t)).value.x - t.x) < Abs(s.x - t.x)
    ensures s.y != t.y ==> Abs(SmoothStep(Some(s), Some(t)).value.y - t.y) < Abs(s.y - t.y)
    ensures (SmoothStep(Some(s), Some(t)).value.x - t.x) * (s.x - t.x) >= 0.0
    ensures (SmoothStep(Some(s), Some(t)).value.y - t.y) * (s.y - t.y) >= 0.0
  {
    var r := SmoothStep(Some(s), Some(t)).value;
    assert (r.x - t.x) * (s.x - t.x) == 0.9 * ((s.x - t.x) * (s.x - t.x));
    assert (r.y - t.y) * (s.y - t.y) == 0.9 * ((s.y - t.y) * (s.y - t.y));
  }

  /** Whether and where the mouse acts on particles this frame: the source's
      `mouseRef.current.isActive && smoothMouse.x !== null`. */
  function Influence(isActive: bool, smooth: Option<Point>): (m: Option<Point>)
    ensures m.Some? <==> isActive && smooth.Some?
    ensures m.Some? ==> m == smooth
  {
    if isActive then smooth else None
  }

  /** The proximity force `(radius - d) / radius` when the mouse acts and the
      distance `d` from `here` to it is below `radius`; `None` otherwise. */
  function Contact(here: Point, mouse: Option<Point>, geo: Geometry, radius: real): (f: Option<real>)
    requires radius > 0.0
    ensures f.Some? <==> mouse.Some? && geo.dist(here, mouse.value) < radius
    ensures f.Some? ==> 0.0 < f.value
    ensures f.Some? && geo.dist(here, mouse.value) >= 0.0 ==> f.value <= 1.0
  {
    if mouse.Some? && geo.dist(here, mouse.value) < radius then
      Some((radius - geo.dist(here, mouse.value)) / radius)
    else
      None
  }

  /** The source's `targetMouseRef`, `mouseRef.current.isActive` and `smoothMouse`. */
  class MouseInput {
    var target: Option<Point>
    var isActive: bool
    var smooth: Option<Point>

    constructor ()
      ensures target == None && !isActive && smooth == None
    {
      target, isActive, smooth := None, false, None;
    }

    /** `handleMouseMove`: record the client coordinates and mark the mouse active. */
    method MouseMove(client: Point)
      modifies this`target, this`isActive
      ensures target == Some(client) && isActive
    {
      target := Some(client);
      isActive := true;
    }

    /** `handleMouseLeave`: deactivate, keeping the last target. */
    method MouseLeave()
      modifies this`isActive
      ensures !isActive
    {
      isActive := false;
    }

    /** `handleTouchMove`: the first touch point becomes the target; an event with no
        touch points changes nothing. */
    method TouchMove(touches: seq<Point>)
      modifies this`target, this`isActive
      ensures |touches| > 0 ==> target == Some(touches[0]) && isActive
      ensures |touches| == 0 ==> target == old(target) && isActive == old(isActive)
    {
      if |touches| > 0 {
        target := Some(touches[0]);
        isActive := true;
      }
    }

    /** `handleTouchEnd`: deactivate, keeping the last target. */
    method TouchEnd()
      modifies this`isActive
      ensures !isActive
    {
      isActive := false;
    }

    /** The smoothing block at the top of `Particle.update`. */
    method Smooth()
      modifies this`smooth
      ensures smooth == SmoothStep(old(smooth), target)
    {
      if target.Some? {
        if smooth.None? {
          smooth := target;
        } else {
          smooth := Some(Point(
            smooth.value.x + (target.value.x - smooth.value.x) * SmoothingFactor,
            smooth.value.y + (target.value.y - smooth.value.y) * SmoothingFactor));
        }
      }
    }
  }
}
