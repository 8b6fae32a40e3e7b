/*
 * The swimming-tag mini-game of app.js: `makeBuoys`, `updateBuoys`, `initSwim`
 * and `updateSwim`.  The record `swim` is the class `Swim`; its state as a
 * value is `WState`.  The girl's steered velocity before its cap (flee, buoy
 * avoidance, wall avoidance and damping) is a parameter of the frame, as are
 * the `dampFactor` values, the keys, the pointer and the random draws.
 */
module AppSwim {
  import opened Numeric
  import opened AppPhysics

  const BuoyCount: nat := 1
  const BuoyTries: nat := 80
  const BuoyRadius: real := 22.0
  /** Buoys are placed at least 180 from both starting points. */
  const BuoyAvoid: real := 180.0
  const BuoyPad: real := 18.0
  const BuoyMax: real := 190.0
  const SwimmerR: real := 26.0
  const GuyAccel: real := 1350.0
  const GuySteer: real := 1300.0
  const GuyMax: real := 470.0
  const BuoyPenalty: real := 0.88
  const StuckMove: real := 0.30
  const StuckTime: real := 0.35
  const CatchRadius: real := 42.0
  const TagTime: real := 0.35
  const Follow: real := 0.10
  const KissTime: real := 1.35

  /** The girl: a body plus the unstick bookkeeping `stuckT`, `lastX`, `lastY`. */
  datatype Girl = Girl(body: Body, stuckT: real, lastX: real, lastY: real)

  /** The fields of the `swim` record. */
  datatype WState = WState(pool: Rect, buoys: seq<Buoy>, guy: Body, girl: Girl, gr: real, rr: real,
                           caught: bool, kissT: real, proposalShown: bool, tagHold: real)

  /**
   * One frame's result: the new record, whether the tag happened ("Tagged!"), whether the
   * proposal overlay was raised (which also stops the game) and the next unused draw.
   */
  datatype WFrame = WFrame(state: WState, tagged: bool, proposal: bool, next: nat)

  /** The result of the buoy retry loop: the last point tried, whether it was accepted, the next draw. */
  datatype Tried = Tried(x: real, y: real, placed: bool, next: nat)

  /*
   * makeBuoys
   */

  /** Is the point at least 180 from both starting points of the swimmers? */
  predicate FarFromStarts(pool: Rect, x: real, y: real, hypot: Hypot)
  {
    && hypot(x - (pool.x + pool.w * 0.30), y - (pool.y + pool.h * 0.55)) >= BuoyAvoid
    && hypot(x - (pool.x + pool.w * 0.70), y - (pool.y + pool.h * 0.40)) >= BuoyAvoid
  }

  /** The inner 80 of the pool where buoys are drawn. */
  predicate InBuoyArea(pool: Rect, x: real, y: real)
  {
    && (pool.x + 80.0 <= pool.x + pool.w - 80.0 ==> pool.x + 80.0 <= x <= pool.x + pool.w - 80.0)
    && (pool.y + 80.0 <= pool.y + pool.h - 80.0 ==> pool.y + 80.0 <= y <= pool.y + pool.h - 80.0)
  }

  /**
   * The retry loop of `makeBuoys` from try `tries` on, with (`x`, `y`) the last point tried.
   * When no try is accepted the buoy stays at the last point tried; there is no extra draw.
   */
  function BuoyTry(pool: Rect, rnd: Stream, c: nat, tries: nat, x: real, y: real, hypot: Hypot): (t: Tried)
    requires IsRandom(rnd) && tries <= BuoyTries
    ensures t.placed ==> FarFromStarts(pool, t.x, t.y, hypot)
    ensures tries < BuoyTries ==> InBuoyArea(pool, t.x, t.y)
    ensures tries == BuoyTries ==> t == Tried(x, y, false, c)
    decreases BuoyTries - tries
  {
    if tries >= BuoyTries then Tried(x, y, false, c)
    else
      var nx := Rand(rnd(c), pool.x + 80.0, pool.x + pool.w - 80.0);
      var ny := Rand(rnd(c + 1), pool.y + 80.0, pool.y + pool.h - 80.0);
      if !FarFromStarts(pool, nx, ny, hypot) then
        BuoyTry(pool, rnd, c + 2, tries + 1, nx, ny, hypot)
      else Tried(nx, ny, true, c + 2)
  }

  /** The shape of a buoy of `makeBuoys`: radius 22, speed components within 70 and 65, inside the buoy area. */
  predicate BuoyShape(pool: Rect, b: Buoy)
  {
    b.r == BuoyRadius && Abs(b.vx) <= 70.0 && Abs(b.vy) <= 65.0 && InBuoyArea(pool, b.x, b.y)
  }

  /** One buoy: the retry loop from (0, 0), then its velocity `rand(-70, 70)`, `rand(-65, 65)`. */
  function BuoyAt(pool: Rect, rnd: Stream, c: nat, hypot: Hypot): (r: (Buoy, nat))
    requires IsRandom(rnd)
    ensures BuoyShape(pool, r.0)
    ensures BuoyTry(pool, rnd, c, 0, 0.0, 0.0, hypot).placed ==> FarFromStarts(pool, r.0.x, r.0.y, hypot)
  {
    var t := BuoyTry(pool, rnd, c, 0, 0.0, 0.0, hypot);
    (Buoy(t.x, t.y, BuoyRadius, Rand(rnd(t.next), -70.0, 70.0), Rand(rnd(t.next + 1), -65.0, 65.0)), t.next + 2)
  }

  /** `makeBuoys(pool)` with `count` buoys. */
  function MakeBuoys(pool: Rect, rnd: Stream, c: nat, count: nat, hypot: Hypot): (r: (seq<Buoy>, nat))
    requires IsRandom(rnd)
    ensures |r.0| == count
    ensures forall i :: 0 <= i < count ==> BuoyShape(pool, r.0[i])
  {
    if count == 0 then ([], c)
    else
      var (bs, c1) := MakeBuoys(pool, rnd, c, count - 1, hypot);
      var b := BuoyAt(pool, rnd, c1, hypot);
      (bs + [b.0], b.1)
  }

  /** The retry loop of `makeBuoys`. */
  method TryPlaceBuoy(pool: Rect, rnd: Stream, c: nat, hypot: Hypot) returns (t: Tried)
    requires IsRandom(rnd)
    ensures t == BuoyTry(pool, rnd, c, 0, 0.0, 0.0, hypot)
  {
    var x, y := 0.0, 0.0;
    var cur: nat := c;
    var placed := false;
    var tries: nat := 0;
    while tries < BuoyTries && !placed
      invariant tries <= BuoyTries
      invariant BuoyTry(pool, rnd, c, 0, 0.0, 0.0, hypot)
                == if placed then Tried(x, y, true, cur) else BuoyTry(pool, rnd, cur, tries, x, y, hypot)
      decreases BuoyTries - tries
    {
      x := Rand(rnd(cur), pool.x + 80.0, pool.x + pool.w - 80.0);
      y := Rand(rnd(cur + 1), pool.y + 80.0, pool.y + pool.h - 80.0);
      cur := cur + 2;
      if hypot(x - (pool.x + pool.w * 0.30), y - (pool.y + pool.h * 0.55)) >= BuoyAvoid
         && hypot(x - (pool.x + pool.w * 0.70), y - (pool.y + pool.h * 0.40)) >= BuoyAvoid {
        placed := true;
      }
      tries := tries + 1;
    }
    t := Tried(x, y, placed, cur);
  }

  /** `makeBuoys(pool)`: the buoy loop over the draws `rnd(c)`, `rnd(c + 1)`, ... */
  method PlaceBuoys(pool: Rect, rnd: Stream, c: nat, hypot: Hypot) returns (buoys: seq<Buoy>, next: nat)
    requires IsRandom(rnd)
    ensures (buoys, next) == MakeBuoys(pool, rnd, c, BuoyCount, hypot)
    ensures |buoys| == BuoyCount && forall i :: 0 <= i < |buoys| ==> BuoyShape(pool, buoys[i])
  {
    buoys := [];
    next := c;
    var i := 0;
    while i < BuoyCount
      invariant 0 <= i <= BuoyCount
      invariant (buoys, next) == MakeBuoys(pool, rnd, c, i, hypot)
    {
      var t := TryPlaceBuoy(pool, rnd, next, hypot);
      var vx := Rand(rnd(t.next), -70.0, 70.0);
      var vy := Rand(rnd(t.next + 1), -65.0, 65.0);
      buoys := buoys + [Buoy(t.x, t.y, BuoyRadius, vx, vy)];
      next := t.next + 2;
      i := i + 1;
    }
  }

  /*
   * updateBuoys
   */

  /**
   * One axis of a buoy's wall bounce: below `lo` it is put on `lo` moving up, and then above
   * `hi` it is put on `hi` moving down; the speed along the axis keeps its size.
   */
  function BounceAxis(p: real, v: real, lo: real, hi: real): (r: (real, real))
    ensures lo <= hi ==> lo <= r.0 <= hi
    ensures lo <= p <= hi ==> r == (p, v)
    ensures lo <= hi && p < lo ==> r == (lo, Abs(v))
    ensures lo <= hi && p > hi ==> r == (hi, -Abs(v))
    ensures Abs(r.1) == Abs(v)
  {
    var (p1, v1) := if p < lo then (lo, Abs(v)) else (p, v);
    if p1 > hi then (hi, -Abs(v1)) else (p1, v1)
  }

  /** The move and wall bounce of one buoy of `updateBuoys`, inside the pool inset by 18. */
  function Bounced(b: Buoy, dt: real, pool: Rect): (r: Body)
    ensures 2.0 * BuoyPad <= pool.w ==> pool.x + BuoyPad <= r.x <= pool.x + pool.w - BuoyPad
    ensures 2.0 * BuoyPad <= pool.h ==> pool.y + BuoyPad <= r.y <= pool.y + pool.h - BuoyPad
    ensures Abs(r.vx) == Abs(b.vx) && Abs(r.vy) == Abs(b.vy)
  {
    var (x, vx) := BounceAxis(b.x + b.vx * dt, b.vx, pool.x + BuoyPad, pool.x + pool.w - BuoyPad);
    var (y, vy) := BounceAxis(b.y + b.vy * dt, b.vy, pool.y + BuoyPad, pool.y + pool.h - BuoyPad);
    Body(x, y, vx, vy)
  }

  /** One buoy of `updateBuoys`: move, bounce, cap the speed at 190. */
  function MoveBuoy(b: Buoy, dt: real, pool: Rect, hypot: Hypot): Buoy
  {
    var q := CapSpeed(Bounced(b, dt, pool), BuoyMax, hypot);
    Buoy(q.x, q.y, b.r, q.vx, q.vy)
  }

  /** After `updateBuoys` a buoy keeps its radius, lies in the pool inset by 18 and is never faster than 190. */
  lemma MoveBuoyBounds(b: Buoy, dt: real, pool: Rect, hypot: Hypot)
    requires IsHypot(hypot) && 2.0 * BuoyPad <= pool.w && 2.0 * BuoyPad <= pool.h
    ensures var r := MoveBuoy(b, dt, pool, hypot);
      && r.r == b.r
      && pool.x + BuoyPad <= r.x <= pool.x + pool.w - BuoyPad
      && pool.y + BuoyPad <= r.y <= pool.y + pool.h - BuoyPad
      && hypot(r.vx, r.vy) <= BuoyMax
  {
    var q := Bounced(b, dt, pool);
    CapSpeedBound(q, BuoyMax, hypot);
  }

  /** `updateBuoys(dt, pool, buoys)`. */
  function MoveBuoys(bs: seq<Buoy>, dt: real, pool: Rect, hypot: Hypot): (r: seq<Buoy>)
    ensures |r| == |bs|
  {
    seq(|bs|, i requires 0 <= i < |bs| => MoveBuoy(bs[i], dt, pool, hypot))
  }

  /*
   * initSwim
   */

  /** The pool of `initSwim`: 8% / 10% margins of the stage. */
  function PoolOf(w: real, h: real): Rect { Rect(w * 0.08, h * 0.10, w * 0.84, h * 0.82) }

  /** The record `initSwim` builds around the buoys it placed. */
  function Initial(w: real, h: real, buoys: seq<Buoy>): WState
  {
    WState(PoolOf(w, h), buoys, Body(w * 0.30, h * 0.55, 0.0, 0.0),
           Girl(Body(w * 0.70, h * 0.40, 0.0, 0.0), 0.0, w * 0.70, h * 0.40),
           SwimmerR, SwimmerR, false, 0.0, false, 0.0)
  }

  /** `initSwim()` from the draws `rnd(c)`, `rnd(c + 1)`, ... */
  function InitSwim(w: real, h: real, rnd: Stream, c: nat, hypot: Hypot): (r: (WState, nat))
    requires IsRandom(rnd)
  {
    var (bs, c1) := MakeBuoys(PoolOf(w, h), rnd, c, BuoyCount, hypot);
    (Initial(w, h, bs), c1)
  }

  /*
   * updateSwim
   */

  /** The integration bounds of a swimmer of radius `r`: the pool inset by `r`. */
  function PoolBounds(pool: Rect, r: real): Bounds { Bounds(pool.x, pool.y, pool.w, pool.h, r) }

  /** The girl's speed cap: `720 * (0.78 + 0.42 * fleeBoost)` with `fleeBoost = clamp((380 - d) / 380, 0, 1)`. */
  function GirlMax(d: real): (m: real)
    ensures 720.0 * 0.78 <= m <= 720.0 * 1.20
    ensures d >= 380.0 ==> m == 720.0 * 0.78
  {
    var boost := Clamp((380.0 - d) / 380.0, 0.0, 1.0);
    720.0 * (0.78 + 0.42 * boost)
  }

  /**
   * The girl's velocity for the frame: her steered velocity `steer`, capped at `GirlMax` of her
   * distance to the guy (1 when they coincide); she is never faster than 864.
   */
  function Fleeing(girl: Body, guy: Body, steer: (real, real), hypot: Hypot): (r: Body)
    requires IsHypot(hypot)
    ensures r.x == girl.x && r.y == girl.y
    ensures hypot(r.vx, r.vy) <= GirlMax(LengthOrOne(hypot, girl.x - guy.x, girl.y - guy.y)) <= 720.0 * 1.20
    ensures hypot(steer.0, steer.1) <= GirlMax(LengthOrOne(hypot, girl.x - guy.x, girl.y - guy.y)) ==>
      r.vx == steer.0 && r.vy == steer.1
    ensures hypot(steer.0, steer.1) <= 720.0 * 0.78 ==> r.vx == steer.0 && r.vy == steer.1
  {
    var d := LengthOrOne(hypot, girl.x - guy.x, girl.y - guy.y);
    var m := GirlMax(d);
    var g := girl.(vx := steer.0, vy := steer.1);
    CapSpeedBound(g, m, hypot);
    CapSpeed(g, m, hypot)
  }

  /** Does the guy touch some buoy (`dist < gr + b.r + 2`)? */
  predicate NearBuoy(guy: Body, gr: real, bs: seq<Buoy>, hypot: Hypot)
  {
    exists i :: 0 <= i < |bs| && hypot(guy.x - bs[i].x, guy.y - bs[i].y) < gr + bs[i].r + 2.0
  }

  /** The "fix girl stuck" block: a girl that moved less than 0.30 for over 0.35 s is pushed to the centre. */
  function Unstick(g: Girl, dt: real, pool: Rect, rnd: Stream, c: nat, hypot: Hypot): (r: (Girl, nat))
    requires IsRandom(rnd)
    ensures r.0.lastX == g.body.x && r.0.lastY == g.body.y
    ensures r.0.body.x == g.body.x && r.0.body.y == g.body.y
    ensures 0.0 <= g.stuckT && 0.0 <= dt ==> 0.0 <= r.0.stuckT
    ensures hypot(g.body.x - g.lastX, g.body.y - g.lastY) >= StuckMove ==>
      r.0.stuckT == 0.0 && r.0.body == g.body && r.1 == c
  {
    var moved := hypot(g.body.x - g.lastX, g.body.y - g.lastY);
    var stuck := if moved < StuckMove then g.stuckT + dt else 0.0;
    var g1 := g.(lastX := g.body.x, lastY := g.body.y, stuckT := stuck);
    if stuck > StuckTime then
      var cx := pool.x + pool.w * 0.5;
      var cy := pool.y + pool.h * 0.5;
      var vx := g.body.vx + (cx - g.body.x) * 14.0 * dt + Rand(rnd(c), -160.0, 160.0) * dt;
      var vy := g.body.vy + (cy - g.body.y) * 14.0 * dt + Rand(rnd(c + 1), -160.0, 160.0) * dt;
      (g1.(stuckT := 0.0, body := g.body.(vx := vx, vy := vy)), c + 2)
    else (g1, c)
  }

  /** The tag-hold rule: within 42 the hold grows by `dt`, otherwise it restarts from 0. */
  function Hold(guy: Body, girl: Body, hold: real, dt: real, hypot: Hypot): real
  {
    if hypot(guy.x - girl.x, guy.y - girl.y) < CatchRadius then hold + dt else 0.0
  }

  /**
   * The moves of the chase half of `updateSwim` (while not caught), from the record whose buoys
   * and guy have already moved: cap the girl's steered velocity `steer`, integrate both swimmers
   * against the buoys, and slow the guy by 0.88 when he touches a buoy.
   */
  function ChaseMoved(s: WState, dt: real, steer: (real, real), hypot: Hypot): WState
    requires IsHypot(hypot)
  {
    var g0 := Fleeing(s.girl.body, s.guy, steer, hypot);
    var guy1 := IntegratedWithObstacles(s.guy, s.gr, dt, Some(PoolBounds(s.pool, s.gr)), s.buoys, hypot);
    var g1 := IntegratedWithObstacles(g0, s.rr, dt, Some(PoolBounds(s.pool, s.rr)), s.buoys, hypot);
    var guy2 := if NearBuoy(guy1, s.gr, s.buoys, hypot) then Damp(guy1, BuoyPenalty) else guy1;
    s.(guy := guy2, girl := s.girl.(body := g1))
  }

  /** The end of the chase half: unstick the girl, then the tag hold and the catch. */
  function ChaseTagged(s: WState, dt: real, rnd: Stream, c: nat, hypot: Hypot): WFrame
    requires IsRandom(rnd)
  {
    var (girl, c1) := Unstick(s.girl, dt, s.pool, rnd, c, hypot);
    var hold := Hold(s.guy, girl.body, s.tagHold, dt, hypot);
    var tagged := hold > TagTime;
    WFrame(s.(girl := girl, tagHold := hold, caught := s.caught || tagged,
              kissT := if tagged then 0.0 else s.kissT),
           tagged, false, c1)
  }

  /** The chase half of `updateSwim`. */
  function Chase(s: WState, dt: real, steer: (real, real), rnd: Stream, c: nat, hypot: Hypot): WFrame
    requires IsRandom(rnd) && IsHypot(hypot)
  {
    ChaseTagged(ChaseMoved(s, dt, steer, hypot), dt, rnd, c, hypot)
  }

  /** The moves of the dwell half (once caught): `kissT` grows, the guy slows by `d85 = dampFactor(0.85, dt)` and moves. */
  function DwellMoved(s: WState, dt: real, d85: real, hypot: Hypot): WState
  {
    s.(kissT := s.kissT + dt,
       guy := IntegratedWithObstacles(Damp(s.guy, d85), s.gr, dt, Some(PoolBounds(s.pool, s.gr)), s.buoys, hypot))
  }

  /**
   * The end of the dwell half: the girl follows 10% of the way and is clamped to the pool inset
   * by `rr`, and the proposal fires once `kissT` passes 1.35, unless it has been shown already.
   */
  function DwellFollowed(s: WState): WFrame
  {
    var gb := s.girl.body;
    var gx := Clamp(gb.x + (s.guy.x - gb.x) * Follow, s.pool.x + s.rr, s.pool.x + s.pool.w - s.rr);
    var gy := Clamp(gb.y + (s.guy.y - gb.y) * Follow, s.pool.y + s.rr, s.pool.y + s.pool.h - s.rr);
    var fire := s.kissT > KissTime && !s.proposalShown;
    WFrame(s.(girl := s.girl.(body := gb.(x := gx, y := gy)), proposalShown := s.proposalShown || fire),
           false, fire, 0)
  }

  /** The dwell half of `updateSwim`. */
  function Dwell(s: WState, dt: real, d85: real, hypot: Hypot): WFrame
  {
    DwellFollowed(DwellMoved(s, dt, d85, hypot))
  }

  /** The head of `updateSwim`: `updateBuoys`, then the guy's keys, pointer steering, damping and cap. */
  function Steered(s: WState, dt: real, keys: Keys, ptr: Pointer, d93: real, hypot: Hypot): (r: WState)
    requires IsHypot(hypot)
    ensures hypot(r.guy.vx, r.guy.vy) <= GuyMax
    ensures r == s.(buoys := r.buoys, guy := r.guy)
  {
    s.(buoys := MoveBuoys(s.buoys, dt, s.pool, hypot),
       guy := Drive(s.guy, dt, keys, ptr, GuyAccel, GuySteer, d93, GuyMax, hypot))
  }

  /**
   * `updateSwim(dt)` with the keys and pointer of the frame, `d93 = dampFactor(0.93, dt)`,
   * `d85 = dampFactor(0.85, dt)`, the girl's steered velocity `steer` and the draws from `c` on.
   */
  function Updated(s: WState, dt: real, keys: Keys, ptr: Pointer, d93: real, d85: real, steer: (real, real),
                   rnd: Stream, c: nat, hypot: Hypot): WFrame
    requires IsRandom(rnd) && IsHypot(hypot)
  {
    var s1 := Steered(s, dt, keys, ptr, d93, hypot);
    if !s1.caught then Chase(s1, dt, steer, rnd, c, hypot)
    else
      var f := Dwell(s1, dt, d85, hypot);
      f.(next := c)
  }

  /**
   * What a `swim` record keeps between frames: the timers are not negative, the proposal is
   * only shown after the catch, and `tagHold` may pass 0.35 only once caught.
   */
  predicate Valid(s: WState)
  {
    && 0.0 <= s.tagHold && 0.0 <= s.kissT && 0.0 <= s.girl.stuckT
    && (s.proposalShown ==> s.caught)
    && (!s.caught ==> s.tagHold <= TagTime)
  }

  /** `initSwim` starts a valid record. */
  lemma InitSwimValid(w: real, h: real, rnd: Stream, c: nat, hypot: Hypot)
    requires IsRandom(rnd)
    ensures Valid(InitSwim(w, h, rnd, c, hypot).0)
    ensures !InitSwim(w, h, rnd, c, hypot).0.caught
  {
  }

  /**
   * The tag: before the catch `tagHold` grows by `dt` while the swimmers end the frame
   * within 42 and restarts from 0 otherwise; `caught` becomes true exactly when it passes
   * 0.35, which starts `kissT` from 0 and shows "Tagged!".  The catch is never undone.
   */
  lemma UpdateTag(s: WState, dt: real, keys: Keys, ptr: Pointer, d93: real, d85: real, steer: (real, real),
                  rnd: Stream, c: nat, hypot: Hypot)
    requires IsRandom(rnd) && IsHypot(hypot)
    ensures var r := Updated(s, dt, keys, ptr, d93, d85, steer, rnd, c, hypot);
      && (s.caught ==> r.state.caught && !r.tagged && r.state.tagHold == s.tagHold)
      && (!s.caught ==>
            && r.state.tagHold == Hold(r.state.guy, r.state.girl.body, s.tagHold, dt, hypot)
            && (r.state.caught <==> r.state.tagHold > TagTime)
            && r.tagged == r.state.caught
            && (r.state.caught ==> r.state.kissT == 0.0)
            && !r.proposal && r.state.proposalShown == s.proposalShown)
  {
  }

  /**
   * The dwell: once caught, `kissT` grows by `dt`, the girl stays in the pool inset by `rr`,
   * and the proposal fires exactly when `kissT` passes 1.35 and it has not been shown yet;
   * afterwards `proposalShown` holds, so it never fires again.
   */
  lemma UpdateDwell(s: WState, dt: real, keys: Keys, ptr: Pointer, d93: real, d85: real, steer: (real, real),
                    rnd: Stream, c: nat, hypot: Hypot)
    requires IsRandom(rnd) && IsHypot(hypot)
    requires s.caught
    ensures var r := Updated(s, dt, keys, ptr, d93, d85, steer, rnd, c, hypot);
      && r.state.kissT == s.kissT + dt
      && (r.proposal <==> s.kissT + dt > KissTime && !s.proposalShown)
      && r.state.proposalShown == (s.proposalShown || r.proposal)
      && (s.proposalShown ==> !r.proposal)
      && (2.0 * s.rr <= s.pool.w ==> s.pool.x + s.rr <= r.state.girl.body.x <= s.pool.x + s.pool.w - s.rr)
      && (2.0 * s.rr <= s.pool.h ==> s.pool.y + s.rr <= r.state.girl.body.y <= s.pool.y + s.pool.h - s.rr)
      && r.next == c
  {
  }

  /** A valid record stays valid for a non-negative `dt`. */
  lemma UpdateValid(s: WState, dt: real, keys: Keys, ptr: Pointer, d93: real, d85: real, steer: (real, real),
                    rnd: Stream, c: nat, hypot: Hypot)
    requires IsRandom(rnd) && IsHypot(hypot) && Valid(s) && 0.0 <= dt
    ensures Valid(Updated(s, dt, keys, ptr, d93, d85, steer, rnd, c, hypot).state)
  {
  }

  /** Each frame leaves every buoy in the pool inset by 18 and no faster than 190. */
  lemma UpdateBuoysInPool(s: WState, dt: real, keys: Keys, ptr: Pointer, d93: real, hypot: Hypot, i: nat)
    requires IsHypot(hypot) && 2.0 * BuoyPad <= s.pool.w && 2.0 * BuoyPad <= s.pool.h && i < |s.buoys|
    ensures var b := Steered(s, dt, keys, ptr, d93, hypot).buoys[i];
      && s.pool.x + BuoyPad <= b.x <= s.pool.x + s.pool.w - BuoyPad
      && s.pool.y + BuoyPad <= b.y <= s.pool.y + s.pool.h - BuoyPad
      && hypot(b.vx, b.vy) <= BuoyMax
  {
    MoveBuoyBounds(s.buoys[i], dt, s.pool, hypot);
  }

  /** The buoy-penalty loop: does the guy touch some buoy? */
  method TouchesBuoy(guy: Body, gr: real, buoys: seq<Buoy>, hypot: Hypot) returns (hit: bool)
    ensures hit == NearBuoy(guy, gr, buoys, hypot)
  {
    var i := 0;
    while i < |buoys|
      invariant 0 <= i <= |buoys|
      invariant forall j :: 0 <= j < i ==> hypot(guy.x - buoys[j].x, guy.y - buoys[j].y) >= gr + buoys[j].r + 2.0
    {
      if hypot(guy.x - buoys[i].x, guy.y - buoys[i].y) < gr + buoys[i].r + 2.0 {
        return true;
      }
      i := i + 1;
    }
    return false;
  }

  /** The `swim` record. */
  class Swim {
    var pool: Rect
    var buoys: seq<Buoy>
    var guy: Body
    var girl: Girl
    var gr: real
    var rr: real
    var caught: bool
    var kissT: real
    var proposalShown: bool
    var tagHold: real

    function Model(): WState
      reads this
    {
      WState(pool, buoys, guy, girl, gr, rr, caught, kissT, proposalShown, tagHold)
    }

    /** The record of `initSwim` around the buoys already placed. */
    constructor Init(w: real, h: real, bs: seq<Buoy>)
      ensures Model() == Initial(w, h, bs)
    {
      pool := PoolOf(w, h);
      buoys := bs;
      guy := Body(w * 0.30, h * 0.55, 0.0, 0.0);
      girl := Girl(Body(w * 0.70, h * 0.40, 0.0, 0.0), 0.0, w * 0.70, h * 0.40);
      gr := SwimmerR;
      rr := SwimmerR;
      caught := false;
      kissT := 0.0;
      proposalShown := false;
      tagHold := 0.0;
    }

    /** `updateBuoys(dt, pool, buoys)`. */
    method UpdateBuoys(dt: real, hypot: Hypot)
      modifies this
      ensures Model() == old(Model()).(buoys := MoveBuoys(old(buoys), dt, pool, hypot))
    {
      var bs := buoys;
      var i := 0;
      while i < |bs|
        invariant 0 <= i <= |bs| == |buoys|
        invariant forall j :: 0 <= j < i ==> bs[j] == MoveBuoy(buoys[j], dt, pool, hypot)
        invariant forall j :: i <= j < |bs| ==> bs[j] == buoys[j]
      {
        bs := bs[i := MoveBuoy(bs[i], dt, pool, hypot)];
        i := i + 1;
      }
      assert bs == MoveBuoys(buoys, dt, pool, hypot);
      buoys := bs;
    }

    /** The moves of the chase half: cap the girl, integrate both swimmers, the buoy penalty. */
    method ChaseMove(dt: real, steer: (real, real), hypot: Hypot)
      requires IsHypot(hypot)
      modifies this
      ensures Model() == ChaseMoved(old(Model()), dt, steer, hypot)
    {
      var g0 := Fleeing(girl.body, guy, steer, hypot);
      var guy1 := IntegrateWithCircleObstacles(guy, gr, dt, Some(PoolBounds(pool, gr)), buoys, hypot);
      var g1 := IntegrateWithCircleObstacles(g0, rr, dt, Some(PoolBounds(pool, rr)), buoys, hypot);
      var hit := TouchesBuoy(guy1, gr, buoys, hypot);
      if hit {
        guy1 := Damp(guy1, BuoyPenalty);
      }
      guy, girl := guy1, girl.(body := g1);
    }

    /** The end of the chase half: unstick the girl, the tag hold and the catch. */
    method ChaseTag(dt: real, rnd: Stream, c: nat, hypot: Hypot) returns (tagged: bool, next: nat)
      requires IsRandom(rnd)
      modifies this
      ensures WFrame(Model(), tagged, false, next) == ChaseTagged(old(Model()), dt, rnd, c, hypot)
    {
      var u := Unstick(girl, dt, pool, rnd, c, hypot);
      girl, next := u.0, u.1;
      if hypot(guy.x - girl.body.x, guy.y - girl.body.y) < CatchRadius {
        tagHold := tagHold + dt;
      } else {
        tagHold := 0.0;
      }
      tagged := false;
      if tagHold > TagTime {
        caught := true;
        kissT := 0.0;
        tagged := true;
      }
    }

    /** The moves of the dwell half. */
    method DwellMove(dt: real, d85: real, hypot: Hypot)
      modifies this
      ensures Model() == DwellMoved(old(Model()), dt, d85, hypot)
    {
      kissT := kissT + dt;
      guy := Damp(guy, d85);
      guy := IntegrateWithCircleObstacles(guy, gr, dt, Some(PoolBounds(pool, gr)), buoys, hypot);
    }

    /** The end of the dwell half: the girl follows, the proposal. */
    method DwellFollow() returns (proposal: bool)
      modifies this
      ensures WFrame(Model(), false, proposal, 0) == DwellFollowed(old(Model()))
    {
      var gx := girl.body.x + (guy.x - girl.body.x) * Follow;
      var gy := girl.body.y + (guy.y - girl.body.y) * Follow;
      gx := Clamp(gx, pool.x + rr, pool.x + pool.w - rr);
      gy := Clamp(gy, pool.y + rr, pool.y + pool.h - rr);
      girl := girl.(body := girl.body.(x := gx, y := gy));
      proposal := false;
      if kissT > KissTime && !proposalShown {
        proposalShown := true;
        proposal := true;
      }
    }

    /** `updateSwim(dt)`. */
    method Update(dt: real, keys: Keys, ptr: Pointer, d93: real, d85: real, steer: (real, real),
                  rnd: Stream, c: nat, hypot: Hypot)
      returns (tagged: bool, proposal: bool, next: nat)
      requires IsRandom(rnd) && IsHypot(hypot)
      modifies this
      ensures WFrame(Model(), tagged, proposal, next) == Updated(old(Model()), dt, keys, ptr, d93, d85, steer, rnd, c, hypot)
    {
      UpdateBuoys(dt, hypot);
      guy := Drive(guy, dt, keys, ptr, GuyAccel, GuySteer, d93, GuyMax, hypot);
      if !caught {
        ChaseMove(dt, steer, hypot);
        tagged, next := ChaseTag(dt, rnd, c, hypot);
        proposal := false;
      } else {
        DwellMove(dt, d85, hypot);
        proposal := DwellFollow();
        tagged, next := false, c;
      }
    }
  }

  /** `initSwim()`: a fresh record, with its buoys placed from the draws `rnd(c)`, ... */
  method NewSwim(w: real, h: real, rnd: Stream, c: nat, hypot: Hypot) returns (swim: Swim, next: nat)
    requires IsRandom(rnd)
    ensures fresh(swim)
    ensures (swim.Model(), next) == InitSwim(w, h, rnd, c, hypot)
  {
    var bs;
    bs, next := PlaceBuoys(PoolOf(w, h), rnd, c, hypot);
    swim := new Swim.Init(w, h, bs);
  }
}
