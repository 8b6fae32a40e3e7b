/*
 * The motion and collision helpers of app.js: `steerToward`,
 * `circleRectHit`, `resolveCircleCircle`, `integrate` and
 * `integrateWithCircleObstacles`.  A moving object (`player`, `guy`,
 * `girl`) is a `Body` value; the helpers that mutate it in the source
 * return the updated value instead.
 */
module AppPhysics {
  import opened Numeric

  /** The position and velocity fields of a moving object. */
  datatype Body = Body(x: real, y: real, vx: real, vy: real)

  /** An axis-aligned rectangle, as `circleRectHit` reads it. */
  datatype Rect = Rect(x: real, y: real, w: real, h: real)

  /** The `bounds` argument of `integrate`: a rectangle inset on every side by `pad`. */
  datatype Bounds = Bounds(x: real, y: real, w: real, h: real, pad: real)
  {
    function Left(): real { x + pad }
    function Right(): real { x + w - pad }
    function Top(): real { y + pad }
    function Bottom(): real { y + h - pad }

    predicate NonEmpty() { Left() <= Right() && Top() <= Bottom() }

    predicate Contains(px: real, py: real)
    {
      Left() <= px <= Right() && Top() <= py <= Bottom()
    }
  }

  /** A circular obstacle (a buoy): its centre, radius and drift velocity. */
  datatype Buoy = Buoy(x: real, y: real, r: real, vx: real, vy: real)

  /** Bounce factor of the wall clamp in `integrate`. */
  const WallBounce: real := 0.85
  /** Largest distance one sub-step of `integrate` is meant to cover. */
  const StepLength: real := 18.0
  const MaxSubSteps: int := 7
  /** Velocity kept after a circle-circle bounce. */
  const BounceKeep: real := 0.94
  /** Bounce passed by `integrateWithCircleObstacles`. */
  const BuoyBounce: real := 0.78

  /*
   * steerToward
   */

  /**
   * `steerToward(obj, tx, ty, accel, dt)`: nothing happens within 1 of the
   * target; otherwise the velocity gains `accel * dt` along the unit vector
   * toward the target.
   */
  function SteerToward(b: Body, tx: real, ty: real, accel: real, dt: real, hypot: Hypot): (r: Body)
    ensures r.x == b.x && r.y == b.y
    ensures hypot(tx - b.x, ty - b.y) < 1.0 ==> r == b
  {
    var dx := tx - b.x;
    var dy := ty - b.y;
    var d := hypot(dx, dy);
    if d < 1.0 then b
    else b.(vx := b.vx + (dx / d) * accel * dt, vy := b.vy + (dy / d) * accel * dt)
  }

  /** When it steers, the velocity change points at the target and has length `accel * dt`. */
  lemma SteerTowardPush(b: Body, tx: real, ty: real, accel: real, dt: real, hypot: Hypot)
    requires IsHypot(hypot) && 0.0 <= accel * dt
    requires hypot(tx - b.x, ty - b.y) >= 1.0
    ensures var k := (accel * dt) / hypot(tx - b.x, ty - b.y); 0.0 <= k
    ensures var r := SteerToward(b, tx, ty, accel, dt, hypot);
      var k := (accel * dt) / hypot(tx - b.x, ty - b.y);
      r.vx - b.vx == k * (tx - b.x) && r.vy - b.vy == k * (ty - b.y)
    ensures var r := SteerToward(b, tx, ty, accel, dt, hypot);
      hypot(r.vx - b.vx, r.vy - b.vy) == accel * dt
  {
    var dx := tx - b.x;
    var dy := ty - b.y;
    var d := hypot(dx, dy);
    var a := accel * dt;
    var k := a / d;
    SteerScale(dx, d, accel, dt);
    SteerScale(dy, d, accel, dt);
    DivNonNeg(a, d);
    var r := SteerToward(b, tx, ty, accel, dt, hypot);
    var ex := r.vx - b.vx;
    var ey := r.vy - b.vy;
    assert ex == k * dx && ey == k * dy;
    HypotScale(hypot, dx, dy, k);
    assert hypot(ex, ey) == k * d;
    DivCancel(a, d);
  }

  /*
   * circleRectHit
   */

  /**
   * `circleRectHit(cx, cy, r, rect)`: the squared distance from the centre to
   * the closest point of the rectangle is below `r * r`.
   */
  function CircleRectHit(cx: real, cy: real, r: real, rect: Rect): (hit: bool)
  {
    var closestX := Clamp(cx, rect.x, rect.x + rect.w);
    var closestY := Clamp(cy, rect.y, rect.y + rect.h);
    var dx := cx - closestX;
    var dy := cy - closestY;
    dx * dx + dy * dy < r * r
  }

  /** A circle of positive radius whose centre lies in the rectangle always hits it. */
  lemma CircleRectHitInside(cx: real, cy: real, r: real, rect: Rect)
    requires 0.0 < r
    requires rect.x <= cx <= rect.x + rect.w && rect.y <= cy <= rect.y + rect.h
    ensures CircleRectHit(cx, cy, r, rect)
  {
    var dx := cx - Clamp(cx, rect.x, rect.x + rect.w);
    var dy := cy - Clamp(cy, rect.y, rect.y + rect.h);
    ZeroOffsetInside(dx, dy, r);
  }

  /** A circle whose bounding box misses the rectangle does not hit it. */
  lemma CircleRectHitSeparated(cx: real, cy: real, r: real, rect: Rect)
    requires 0.0 <= r && 0.0 <= rect.w && 0.0 <= rect.h
    requires cx + r <= rect.x || rect.x + rect.w <= cx - r || cy + r <= rect.y || rect.y + rect.h <= cy - r
    ensures !CircleRectHit(cx, cy, r, rect)
  {
    var dx := cx - Clamp(cx, rect.x, rect.x + rect.w);
    var dy := cy - Clamp(cy, rect.y, rect.y + rect.h);
    SquareNonNeg(dx);
    SquareNonNeg(dy);
    if cx + r <= rect.x || rect.x + rect.w <= cx - r {
      SquareAtLeast(dx, r);
    } else {
      SquareAtLeast(dy, r);
    }
  }

  /*
   * resolveCircleCircle
   */

  /**
   * `resolveCircleCircle(a, ar, b, br, bounce)`: with no overlap or with
   * coincident centres it reports false and leaves `a` alone; otherwise it
   * pushes `a` out along the centre line, reflects the normal velocity with
   * `bounce` and keeps 0.94 of the result.
   */
  function ResolveCircleCircle(a: Body, ar: real, ox: real, oy: real, br: real, bounce: real, hypot: Hypot): (res: (bool, Body))
    ensures var d := hypot(a.x - ox, a.y - oy);
      res.0 <==> !(d >= ar + br || d == 0.0)
    ensures !res.0 ==> res.1 == a
  {
    var dx := a.x - ox;
    var dy := a.y - oy;
    var d := hypot(dx, dy);
    var r := ar + br;
    if d >= r || d == 0.0 then (false, a)
    else
      var overlap := r - d;
      var nx := dx / d;
      var ny := dy / d;
      var vn := a.vx * nx + a.vy * ny;
      var vx := a.vx - (1.0 + bounce) * vn * nx;
      var vy := a.vy - (1.0 + bounce) * vn * ny;
      (true, Body(a.x + nx * overlap, a.y + ny * overlap, vx * BounceKeep, vy * BounceKeep))
  }

  /** After a push-out the centres are exactly `ar + br` apart. */
  lemma ResolveSeparates(a: Body, ar: real, ox: real, oy: real, br: real, bounce: real, hypot: Hypot)
    requires IsHypot(hypot)
    requires ResolveCircleCircle(a, ar, ox, oy, br, bounce, hypot).0
    ensures var a' := ResolveCircleCircle(a, ar, ox, oy, br, bounce, hypot).1;
      hypot(a'.x - ox, a'.y - oy) == ar + br
  {
    var dx := a.x - ox;
    var dy := a.y - oy;
    var d := hypot(dx, dy);
    var r := ar + br;
    HypotFacts(hypot, dx, dy);
    var k := r / d;
    OffsetScale(dx, d, r);
    OffsetScale(dy, d, r);
    DivNonNeg(r, d);
    var a' := ResolveCircleCircle(a, ar, ox, oy, br, bounce, hypot).1;
    var ex := a'.x - ox;
    var ey := a'.y - oy;
    assert ex == k * dx && ey == k * dy;
    HypotScale(hypot, dx, dy, k);
    assert hypot(ex, ey) == k * d;
    DivCancel(r, d);
  }

  /**
   * After a push-out the velocity along the centre line is `-0.94 * bounce`
   * times the old one, and the velocity across it is `0.94` times the old one.
   */
  lemma ResolveBounces(a: Body, ar: real, ox: real, oy: real, br: real, bounce: real, hypot: Hypot)
    requires IsHypot(hypot)
    requires ResolveCircleCircle(a, ar, ox, oy, br, bounce, hypot).0
    ensures var a' := ResolveCircleCircle(a, ar, ox, oy, br, bounce, hypot).1;
      var d := hypot(a.x - ox, a.y - oy);
      var nx := (a.x - ox) / d;
      var ny := (a.y - oy) / d;
      a'.vx * nx + a'.vy * ny == -BounceKeep * bounce * (a.vx * nx + a.vy * ny) &&
      a'.vx * -ny + a'.vy * nx == BounceKeep * (a.vx * -ny + a.vy * nx)
  {
    var dx := a.x - ox;
    var dy := a.y - oy;
    var d := hypot(dx, dy);
    HypotFacts(hypot, dx, dy);
    UnitNormal(dx, dy, d);
    ReflectNormal(a.vx, a.vy, dx / d, dy / d, bounce);
    ReflectTangent(a.vx, a.vy, dx / d, dy / d, bounce);
  }

  /*
   * integrate
   */

  /**
   * One axis of the wall clamp in `integrate`: a position below `lo` is put on
   * `lo` with a velocity of `|v| * 0.85`; then a position above `hi` is put on
   * `hi` with a velocity of `-|v| * 0.85`.
   */
  function ClampAxis(p: real, v: real, lo: real, hi: real): (r: (real, real))
    ensures Abs(r.1) <= Abs(v)
    ensures lo <= hi ==> lo <= r.0 <= hi
    ensures lo <= p <= hi ==> r == (p, v)
    ensures p < lo && lo <= hi ==> r == (lo, Abs(v) * WallBounce) && 0.0 <= r.1
    ensures hi < p && lo <= hi ==> r == (hi, -Abs(v) * WallBounce) && r.1 <= 0.0
  {
    var (p1, v1) := if p < lo then (lo, Abs(v) * WallBounce) else (p, v);
    if p1 > hi then (hi, -Abs(v1) * WallBounce) else (p1, v1)
  }

  /** One sub-step of `integrate`: move by `v * stepDt`, then clamp to the bounds if there are any. */
  function SubStep(b: Body, stepDt: real, bounds: Option<Bounds>): Body
  {
    var x := b.x + b.vx * stepDt;
    var y := b.y + b.vy * stepDt;
    match bounds
    case None => Body(x, y, b.vx, b.vy)
    case Some(bd) =>
      var (x', vx') := ClampAxis(x, b.vx, bd.Left(), bd.Right());
      var (y', vy') := ClampAxis(y, b.vy, bd.Top(), bd.Bottom());
      Body(x', y', vx', vy')
  }

  /**
   * The sub-step count of `integrate`: `clamp(ceil(speed * dt / 18), 1, 7)`.
   * It is between 1 and 7, it is the fewest steps of at most 18 each that
   * cover `speed * dt`, and it falls short of that only when capped at 7.
   */
  function SubSteps(speed: real, dt: real): (n: int)
    ensures 1 <= n <= MaxSubSteps
    ensures n == MaxSubSteps || speed * dt <= StepLength * n as real
    ensures n == 1 || StepLength * (n - 1) as real < speed * dt
  {
    var c := Ceil(speed * dt / StepLength);
    if c < 1 then 1 else if c > MaxSubSteps then MaxSubSteps else c
  }

  /** `n` sub-steps of length `stepDt`, the first one applied first. */
  function Stepped(b: Body, stepDt: real, bounds: Option<Bounds>, n: nat): Body
  {
    if n == 0 then b else SubStep(Stepped(b, stepDt, bounds, n - 1), stepDt, bounds)
  }

  /** What `integrate(obj, radius, dt, bounds)` leaves in `obj`; the unused `radius` is dropped. */
  function Integrated(b: Body, dt: real, bounds: Option<Bounds>, hypot: Hypot): Body
  {
    var n := SubSteps(hypot(b.vx, b.vy), dt);
    Stepped(b, dt / n as real, bounds, n)
  }

  /** After at least one sub-step with non-empty bounds the body lies inside them. */
  lemma SteppedInside(b: Body, stepDt: real, bd: Bounds, n: nat)
    requires bd.NonEmpty() && 1 <= n
    ensures var r := Stepped(b, stepDt, Some(bd), n); bd.Contains(r.x, r.y)
  {
  }

  /** Sub-steps never make either velocity component larger in magnitude. */
  lemma {:induction false} SteppedNoFaster(b: Body, stepDt: real, bounds: Option<Bounds>, n: nat)
    ensures var r := Stepped(b, stepDt, bounds, n);
      Abs(r.vx) <= Abs(b.vx) && Abs(r.vy) <= Abs(b.vy)
  {
    if n > 0 {
      SteppedNoFaster(b, stepDt, bounds, n - 1);
    }
  }

  /** Without bounds, `n` sub-steps are a straight-line move of `n * stepDt` at constant velocity. */
  lemma {:induction false} SteppedFree(b: Body, stepDt: real, n: nat)
    ensures Stepped(b, stepDt, None, n)
      == Body(b.x + (n as real) * (b.vx * stepDt), b.y + (n as real) * (b.vy * stepDt), b.vx, b.vy)
  {
    if n > 0 {
      SteppedFree(b, stepDt, n - 1);
      var k := (n - 1) as real;
      var m := n as real;
      var cx := b.vx * stepDt;
      var cy := b.vy * stepDt;
      var p := Stepped(b, stepDt, None, n - 1);
      assert p == Body(b.x + k * cx, b.y + k * cy, b.vx, b.vy);
      assert Stepped(b, stepDt, None, n) == Body(p.x + cx, p.y + cy, b.vx, b.vy);
      AddOneTimes(k, m, cx);
      AddOneTimes(k, m, cy);
    }
  }

  /** Without bounds, `integrate` is one Euler step of length `dt`, however many sub-steps it takes. */
  lemma IntegratedFree(b: Body, dt: real, hypot: Hypot)
    ensures Integrated(b, dt, None, hypot) == Body(b.x + b.vx * dt, b.y + b.vy * dt, b.vx, b.vy)
  {
    var n := SubSteps(hypot(b.vx, b.vy), dt);
    var s := dt / n as real;
    SteppedFree(b, s, n);
    SplitTime(n as real, b.vx, dt);
    SplitTime(n as real, b.vy, dt);
  }

  /** With non-empty bounds, `integrate` leaves the body inside them. */
  lemma IntegratedInside(b: Body, dt: real, bd: Bounds, hypot: Hypot)
    requires bd.NonEmpty()
    ensures var r := Integrated(b, dt, Some(bd), hypot); bd.Contains(r.x, r.y)
  {
    var n := SubSteps(hypot(b.vx, b.vy), dt);
    SteppedInside(b, dt / n as real, bd, n);
  }

  /**
   * `integrate(obj, radius, dt, bounds)`: the sub-step loop.  The result is
   * inside non-empty bounds, no velocity component grows, and without bounds
   * it is a plain Euler step.
   */
  method Integrate(b: Body, dt: real, bounds: Option<Bounds>, hypot: Hypot) returns (r: Body)
    ensures r == Integrated(b, dt, bounds, hypot)
    ensures bounds.Some? && bounds.value.NonEmpty() ==> bounds.value.Contains(r.x, r.y)
    ensures Abs(r.vx) <= Abs(b.vx) && Abs(r.vy) <= Abs(b.vy)
    ensures bounds.None? ==> r == Body(b.x + b.vx * dt, b.y + b.vy * dt, b.vx, b.vy)
  {
    var speed := hypot(b.vx, b.vy);
    var steps := SubSteps(speed, dt);
    var stepDt := dt / steps as real;
    r := b;
    var i := 0;
    while i < steps
      invariant 0 <= i <= steps
      invariant r == Stepped(b, stepDt, bounds, i)
    {
      r := MoveAndClamp(r, stepDt, bounds);
      i := i + 1;
    }
    SteppedNoFaster(b, stepDt, bounds, steps);
    if bounds.Some? && bounds.value.NonEmpty() {
      SteppedInside(b, stepDt, bounds.value, steps);
    }
    if bounds.None? {
      IntegratedFree(b, dt, hypot);
    }
  }

  /** The body of the sub-step loop, written as the source writes it. */
  method MoveAndClamp(b: Body, stepDt: real, bounds: Option<Bounds>) returns (r: Body)
    ensures r == SubStep(b, stepDt, bounds)
  {
    var x := b.x + b.vx * stepDt;
    var y := b.y + b.vy * stepDt;
    var vx := b.vx;
    var vy := b.vy;
    if bounds.Some? {
      var pad := bounds.value.pad;
      var left := bounds.value.x + pad;
      var right := bounds.value.x + bounds.value.w - pad;
      var top := bounds.value.y + pad;
      var bottom := bounds.value.y + bounds.value.h - pad;
      if x < left { x := left; vx := Abs(vx) * WallBounce; }
      if x > right { x := right; vx := -Abs(vx) * WallBounce; }
      if y < top { y := top; vy := Abs(vy) * WallBounce; }
      if y > bottom { y := bottom; vy := -Abs(vy) * WallBounce; }
    }
    r := Body(x, y, vx, vy);
  }

  /*
   * integrateWithCircleObstacles
   */

  /** `for (const c of obs) resolveCircleCircle(obj, radius, c, c.r, 0.78)`, in array order. */
  function ResolveAll(b: Body, radius: real, obs: seq<Buoy>, hypot: Hypot): Body
  {
    if |obs| == 0 then b
    else
      var c := obs[|obs| - 1];
      ResolveCircleCircle(ResolveAll(b, radius, obs[..|obs| - 1], hypot), radius, c.x, c.y, c.r, BuoyBounce, hypot).1
  }

  /** The obstacle loop inside each sub-step of `integrateWithCircleObstacles`. */
  method ResolveObstacles(b: Body, radius: real, obs: seq<Buoy>, hypot: Hypot) returns (r: Body)
    ensures r == ResolveAll(b, radius, obs, hypot)
  {
    r := b;
    var j := 0;
    while j < |obs|
      invariant 0 <= j <= |obs|
      invariant r == ResolveAll(b, radius, obs[..j], hypot)
    {
      var c := obs[j];
      assert obs[..j + 1][..j] == obs[..j];
      var res := ResolveCircleCircle(r, radius, c.x, c.y, c.r, BuoyBounce, hypot);
      r := res.1;
      j := j + 1;
    }
    assert obs[..|obs|] == obs;
  }

  /** One sub-step of `integrateWithCircleObstacles`: `integrate`'s sub-step, then every obstacle. */
  function ObstacleStep(b: Body, radius: real, stepDt: real, bounds: Option<Bounds>, obs: seq<Buoy>, hypot: Hypot): Body
  {
    ResolveAll(SubStep(b, stepDt, bounds), radius, obs, hypot)
  }

  function ObstacleStepped(b: Body, radius: real, stepDt: real, bounds: Option<Bounds>, obs: seq<Buoy>, hypot: Hypot, n: nat): Body
  {
    if n == 0 then b
    else ObstacleStep(ObstacleStepped(b, radius, stepDt, bounds, obs, hypot, n - 1), radius, stepDt, bounds, obs, hypot)
  }

  /** What `integrateWithCircleObstacles(obj, radius, dt, bounds, obs)` leaves in `obj`. */
  function IntegratedWithObstacles(b: Body, radius: real, dt: real, bounds: Option<Bounds>, obs: seq<Buoy>, hypot: Hypot): Body
  {
    var n := SubSteps(hypot(b.vx, b.vy), dt);
    ObstacleStepped(b, radius, dt / n as real, bounds, obs, hypot, n)
  }

  /** With no obstacles each sub-step is `integrate`'s. */
  lemma {:induction false} ObstacleSteppedNone(b: Body, radius: real, stepDt: real, bounds: Option<Bounds>, hypot: Hypot, n: nat)
    ensures ObstacleStepped(b, radius, stepDt, bounds, [], hypot, n) == Stepped(b, stepDt, bounds, n)
  {
    if n > 0 {
      ObstacleSteppedNone(b, radius, stepDt, bounds, hypot, n - 1);
    }
  }

  /** With an empty obstacle list `integrateWithCircleObstacles` is `integrate`. */
  lemma IntegratedWithNoObstacles(b: Body, radius: real, dt: real, bounds: Option<Bounds>, hypot: Hypot)
    ensures IntegratedWithObstacles(b, radius, dt, bounds, [], hypot) == Integrated(b, dt, bounds, hypot)
  {
    var n := SubSteps(hypot(b.vx, b.vy), dt);
    ObstacleSteppedNone(b, radius, dt / n as real, bounds, hypot, n);
  }

  /** After `resolveCircleCircle` the centres are at least `ar + br` apart, or still coincide. */
  lemma ResolveClears(a: Body, ar: real, ox: real, oy: real, br: real, bounce: real, hypot: Hypot)
    requires IsHypot(hypot)
    ensures var a' := ResolveCircleCircle(a, ar, ox, oy, br, bounce, hypot).1;
      hypot(a'.x - ox, a'.y - oy) >= ar + br || hypot(a'.x - ox, a'.y - oy) == 0.0
  {
    if ResolveCircleCircle(a, ar, ox, oy, br, bounce, hypot).0 {
      ResolveSeparates(a, ar, ox, oy, br, bounce, hypot);
    }
  }

  /**
   * After `integrateWithCircleObstacles` with at least one obstacle the body is clear of the
   * last obstacle of the list, which is resolved last in every sub-step: its centre is at
   * least `radius + c.r` away, or exactly on the obstacle's centre.
   */
  lemma IntegratedClearOfLast(b: Body, radius: real, dt: real, bounds: Option<Bounds>, obs: seq<Buoy>, hypot: Hypot)
    requires IsHypot(hypot) && |obs| > 0
    ensures var r := IntegratedWithObstacles(b, radius, dt, bounds, obs, hypot);
      var c := obs[|obs| - 1];
      hypot(r.x - c.x, r.y - c.y) >= radius + c.r || hypot(r.x - c.x, r.y - c.y) == 0.0
  {
    var n := SubSteps(hypot(b.vx, b.vy), dt);
    var stepDt := dt / n as real;
    var prev := ObstacleStepped(b, radius, stepDt, bounds, obs, hypot, n - 1);
    var c := obs[|obs| - 1];
    var before := ResolveAll(SubStep(prev, stepDt, bounds), radius, obs[..|obs| - 1], hypot);
    assert IntegratedWithObstacles(b, radius, dt, bounds, obs, hypot)
      == ResolveCircleCircle(before, radius, c.x, c.y, c.r, BuoyBounce, hypot).1;
    ResolveClears(before, radius, c.x, c.y, c.r, BuoyBounce, hypot);
  }

  /**
   * `integrateWithCircleObstacles(obj, radius, dt, bounds, obs)`: the
   * sub-step loop with the obstacle loop inside it.
   */
  method IntegrateWithCircleObstacles(b: Body, radius: real, dt: real, bounds: Option<Bounds>, obs: seq<Buoy>, hypot: Hypot)
    returns (r: Body)
    ensures r == IntegratedWithObstacles(b, radius, dt, bounds, obs, hypot)
    ensures obs == [] ==> r == Integrated(b, dt, bounds, hypot)
  {
    var speed := hypot(b.vx, b.vy);
    var steps := SubSteps(speed, dt);
    var stepDt := dt / steps as real;
    r := b;
    var i := 0;
    while i < steps
      invariant 0 <= i <= steps
      invariant r == ObstacleStepped(b, radius, stepDt, bounds, obs, hypot, i)
    {
      r := MoveAndClamp(r, stepDt, bounds);
      r := ResolveObstacles(r, radius, obs, hypot);
      i := i + 1;
    }
    if obs == [] {
      IntegratedWithNoObstacles(b, radius, dt, bounds, hypot);
    }
  }

  /*
   * The speed cap blocks: `if (sp > max) { v = v / sp * max }`.
   */

  /** `sp = Math.hypot(vx, vy); if (sp > max) { vx = vx / sp * max; vy = vy / sp * max }` */
  function CapSpeed(b: Body, max: real, hypot: Hypot): (r: Body)
    requires 0.0 <= max
    ensures r.x == b.x && r.y == b.y
    ensures hypot(b.vx, b.vy) <= max ==> r == b
  {
    var sp := hypot(b.vx, b.vy);
    if sp > max then b.(vx := (b.vx / sp) * max, vy := (b.vy / sp) * max) else b
  }

  /** After the cap the speed is at most `max`, and exactly `max` when the cap fired. */
  lemma CapSpeedBound(b: Body, max: real, hypot: Hypot)
    requires IsHypot(hypot) && 0.0 <= max
    ensures var r := CapSpeed(b, max, hypot);
      hypot(r.vx, r.vy) <= max &&
      (hypot(b.vx, b.vy) > max ==> hypot(r.vx, r.vy) == max)
  {
    var sp := hypot(b.vx, b.vy);
    if sp > max {
      CapScale(b.vx, sp, max);
      CapScale(b.vy, sp, max);
      var r := CapSpeed(b, max, hypot);
      var ex := r.vx;
      var ey := r.vy;
      var vx := b.vx;
      var vy := b.vy;
      assert ex == (max / hypot(vx, vy)) * vx && ey == (max / hypot(vx, vy)) * vy;
      HypotRescale(hypot, vx, vy, max);
      assert hypot(ex, ey) == max;
    }
  }

  /*
   * The keyboard and pointer input of the player updates.
   */

  /** The keys of one frame: `KeyA`/`ArrowLeft`, `KeyD`/`ArrowRight`, `KeyW`/`ArrowUp`, `KeyS`/`ArrowDown`. */
  datatype Keys = Keys(left: bool, right: bool, up: bool, down: bool)

  /** `input.down`, `input.x`, `input.y`. */
  datatype Pointer = Pointer(down: bool, x: real, y: real)

  /** The key direction of `updateSkate` and `updateSwim`, divided by its length (`Math.hypot(ax, ay) || 1`). */
  function KeyAccel(keys: Keys, hypot: Hypot): (a: (real, real))
    requires IsHypot(hypot)
  {
    var ax := (if keys.left then -1.0 else 0.0) + (if keys.right then 1.0 else 0.0);
    var ay := (if keys.up then -1.0 else 0.0) + (if keys.down then 1.0 else 0.0);
    var n := LengthOrOne(hypot, ax, ay);
    (ax / n, ay / n)
  }

  /** Opposite keys cancel, and any other key combination gives a unit direction. */
  lemma KeyAccelUnit(keys: Keys, hypot: Hypot)
    requires IsHypot(hypot)
    ensures var ax := (if keys.left then -1.0 else 0.0) + (if keys.right then 1.0 else 0.0);
            var ay := (if keys.up then -1.0 else 0.0) + (if keys.down then 1.0 else 0.0);
            var a := KeyAccel(keys, hypot);
            (ax == 0.0 && ay == 0.0 ==> a == (0.0, 0.0)) &&
            (ax != 0.0 || ay != 0.0 ==> hypot(a.0, a.1) == 1.0)
  {
    var ax := (if keys.left then -1.0 else 0.0) + (if keys.right then 1.0 else 0.0);
    var ay := (if keys.up then -1.0 else 0.0) + (if keys.down then 1.0 else 0.0);
    HypotFacts(hypot, ax, ay);
    if ax != 0.0 || ay != 0.0 {
      var d := hypot(ax, ay);
      SquarePositive(ax, ay, d);
      var n := LengthOrOne(hypot, ax, ay);
      assert n == d;
      HypotRescale(hypot, ax, ay, 1.0);
      var ex := (1.0 / hypot(ax, ay)) * ax;
      var ey := (1.0 / hypot(ax, ay)) * ay;
      assert ex == ax / n && ey == ay / n;
    }
  }

  /** A key offset with a unit component has a non-zero length. */
  lemma SquarePositive(ax: real, ay: real, d: real)
    requires ax == 1.0 || ax == -1.0 || ay == 1.0 || ay == -1.0
    requires d * d == ax * ax + ay * ay
    ensures d != 0.0
  {
    if ax == 1.0 || ax == -1.0 {
      UnitSumSquare(ax, ay, d);
    } else {
      UnitSumSquare(ay, ax, d);
    }
  }

  lemma UnitSumSquare(a: real, b: real, d: real)
    requires a == 1.0 || a == -1.0
    requires d * d == a * a + b * b
    ensures d != 0.0
  {
    assert a * a == 1.0;
    SquareNonNeg(b);
  }

  /**
   * The player's velocity update of `updateSkate` and `updateSwim`: key acceleration `accel`,
   * pointer steering `steer` while the pointer is down, the frame's `dampFactor` as `damp`,
   * then the speed cap: the body is never faster than `max` afterwards.
   */
  function Drive(p: Body, dt: real, keys: Keys, ptr: Pointer, accel: real, steer: real, damp: real, max: real, hypot: Hypot)
    : (r: Body)
    requires IsHypot(hypot) && 0.0 <= max
    ensures r.x == p.x && r.y == p.y
    ensures hypot(r.vx, r.vy) <= max
  {
    var a := KeyAccel(keys, hypot);
    var p1 := p.(vx := p.vx + a.0 * accel * dt, vy := p.vy + a.1 * accel * dt);
    var p2 := if ptr.down then SteerToward(p1, ptr.x, ptr.y, steer, dt, hypot) else p1;
    var q := Damp(p2, damp);
    CapSpeedBound(q, max, hypot);
    CapSpeed(q, max, hypot)
  }

  /** Multiplying both velocity components by a factor in [0, 1] (`dampFactor`, the 0.18 slow-down). */
  function Damp(b: Body, f: real): (r: Body)
    ensures r.x == b.x && r.y == b.y
  {
    b.(vx := b.vx * f, vy := b.vy * f)
  }

  /** A factor in [0, 1] never makes a velocity component larger in magnitude. */
  lemma DampNoFaster(b: Body, f: real)
    requires 0.0 <= f <= 1.0
    ensures var r := Damp(b, f); Abs(r.vx) <= Abs(b.vx) && Abs(r.vy) <= Abs(b.vy)
  {
    ScaleShrinks(b.vx, f);
    ScaleShrinks(b.vy, f);
  }

  /*
   * Arithmetic steps, one nonlinear fact each.
   */

  lemma SquareNonNeg(x: real)
    ensures 0.0 <= x * x
  {
    if x < 0.0 {
      var y := -x;
      MulNonNeg(y, y);
      assert y * y == x * x;
    } else {
      MulNonNeg(x, x);
    }
  }

  lemma ZeroOffsetInside(dx: real, dy: real, r: real)
    requires dx == 0.0 && dy == 0.0 && 0.0 < r
    ensures dx * dx + dy * dy < r * r
  {
    var s := dx * dx + dy * dy;
    assert s == 0.0;
    MulPosBelow(s, r, r);
  }

  lemma MulPosBelow(s: real, x: real, y: real)
    requires s <= 0.0 && 0.0 < x && 0.0 < y
    ensures s < x * y
  {
  }

  lemma SquareAtLeast(d: real, r: real)
    requires 0.0 <= r && (d <= -r || r <= d)
    ensures r * r <= d * d
  {
    var p := d - r;
    var q := d + r;
    assert p * q == d * d - r * r;
    if r <= d {
      MulNonNeg(p, q);
    } else {
      var p' := -p;
      var q' := -q;
      assert p' * q' == p * q;
      MulNonNeg(p', q');
    }
  }

  lemma ScaleShrinks(v: real, f: real)
    requires 0.0 <= f <= 1.0
    ensures Abs(v * f) <= Abs(v)
  {
    if v >= 0.0 {
      MulNonNeg(v, f);
      MulNonNeg(v, 1.0 - f);
      assert v * (1.0 - f) == v - v * f;
    } else {
      var u := -v;
      MulNonNeg(u, f);
      MulNonNeg(u, 1.0 - f);
      assert u * (1.0 - f) == u - u * f;
      assert u * f == -(v * f);
    }
  }

  lemma OffsetScale(dx: real, d: real, r: real)
    requires d != 0.0
    ensures dx + (dx / d) * (r - d) == (r / d) * dx
  {
  }

  lemma DivCancel(r: real, d: real)
    requires d != 0.0
    ensures (r / d) * d == r
  {
  }

  lemma DivNonNeg(a: real, d: real)
    requires 0.0 <= a && 0.0 < d
    ensures 0.0 <= a / d
  {
  }

  lemma SteerScale(dx: real, d: real, a: real, t: real)
    requires d != 0.0
    ensures (dx / d) * a * t == ((a * t) / d) * dx
  {
  }

  lemma CapScale(v: real, sp: real, max: real)
    requires sp != 0.0
    ensures (v / sp) * max == (max / sp) * v
  {
  }

  lemma SplitTime(n: real, v: real, dt: real)
    requires n >= 1.0
    ensures n * (v * (dt / n)) == v * dt
  {
  }

  lemma AddOneTimes(k: real, m: real, c: real)
    requires m == k + 1.0
    ensures k * c + c == m * c
  {
  }

  lemma ReflectNormal(vx: real, vy: real, nx: real, ny: real, b: real)
    requires nx * nx + ny * ny == 1.0
    ensures (vx - (1.0 + b) * (vx * nx + vy * ny) * nx) * BounceKeep * nx
          + (vy - (1.0 + b) * (vx * nx + vy * ny) * ny) * BounceKeep * ny
         == -BounceKeep * b * (vx * nx + vy * ny)
  {
  }

  lemma ReflectTangent(vx: real, vy: real, nx: real, ny: real, b: real)
    ensures (vx - (1.0 + b) * (vx * nx + vy * ny) * nx) * BounceKeep * -ny
          + (vy - (1.0 + b) * (vx * nx + vy * ny) * ny) * BounceKeep * nx
         == BounceKeep * (vx * -ny + vy * nx)
  {
  }
}
