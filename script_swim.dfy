/*
 * The swimming-tag mini-game of script.js: `initSwim`, `keepInPool`,
 * `limitSpeed`, `wallRepelVec`, `edgePenalty`, `pickNewEscapeTarget` and
 * `updateSwim`.  The guy is driven by the keys and a pointer lunge with a
 * cool-down; the girl steers toward an escape target picked as the best of
 * 14 sampled points, is pushed off the walls when stuck, and the first
 * contact ends the game.  The record `swim` is the class `Swim`; its state as
 * a value is `WState`.
 */
module ScriptSwim {
  import opened Numeric
  import opened AppPhysics

  /** The pool is the stage inset by this on every side. */
  const Pad: real := 42.0
  const BodyR: real := 18.0
  const DragGuy: real := 0.92
  const AccelGuy: real := 0.42
  const MaxGuy: real := 6.2
  const DragGirl: real := 0.93
  const AccelGirl: real := 0.46
  const MaxGirl: real := 7.4
  /** The speed a lunge adds toward the pointer, and its cool-down in seconds. */
  const Lunge: real := 2.7
  const LungeCooldown: real := 0.22
  /** The share of its speed a body keeps when `keepInPool` turns it round. */
  const PoolBounce: real := 0.35
  /** `wallRepelVec` pushes within this distance of a wall, by at most `WallPush`. */
  const WallMargin: real := 92.0
  const WallPush: real := 1.35
  /** `edgePenalty` treats every point nearer than this to a wall as this near. */
  const MinEdge: real := 12.0
  const EdgeWeight: real := 520.0
  const Samples: nat := 14
  /** The sampled escape points keep this far from the walls. */
  const SampleInset: real := 40.0
  /** The starting `bestScore` of `pickNewEscapeTarget`. */
  const NoScore: real := -1000000000.0
  const TargetReach: real := 70.0
  const StuckSpeed: real := 0.55
  const StuckEdge: real := 60.0
  const Unstick: real := 1.2
  const TagScore: int := 25
  /** The girl dodges sideways when the guy is nearer than this. */
  const DodgeRange: real := 210.0
  /** `panic` is 1 nearer than `PanicNear`, 0.55 nearer than `PanicFar`, else 0.25. */
  const PanicNear: real := 140.0
  const PanicFar: real := 220.0
  /** The draws one `pickNewEscapeTarget` takes: two per sample, then the two timers and the flip. */
  const PickDraws: nat := 2 * Samples + 3

  /**
   * The fields of the `swim` record that change or are read by the game: the pool, the two
   * bodies, the escape target, its timer, the dodge side and timer, the lunge cool-down and
   * `done`.  Drags, accelerations, speed caps and radii never change and are constants.
   */
  datatype WState = WState(pool: Rect, guy: Body, girl: Body, tx: real, ty: real, targetTimer: real,
                           dodgeSign: real, dodgeTimer: real, lungeCd: real, done: bool)

  /** What one update changes: the new record, whether the tag happened and the next unused draw. */
  datatype WFrame = WFrame(state: WState, tagged: bool, next: nat)

  /*
   * keepInPool and limitSpeed
   */

  /**
   * One axis of `keepInPool`: below `lo` the body is put on `lo` moving up at 0.35 of its
   * speed; then above `hi` it is put on `hi` moving down at 0.35 of its speed.
   */
  function KeepAxis(p: real, v: real, lo: real, hi: real): (r: (real, real))
    ensures lo <= hi ==> lo <= r.0 <= hi
    ensures lo <= p <= hi ==> r == (p, v)
    ensures p < lo && lo <= hi ==> r == (lo, Abs(v) * PoolBounce) && 0.0 <= r.1
    ensures hi < p && lo <= hi ==> r == (hi, -Abs(v) * PoolBounce) && r.1 <= 0.0
  {
    var (p1, v1) := if p < lo then (lo, Abs(v) * PoolBounce) else (p, v);
    if p1 > hi then (hi, -Abs(v1) * PoolBounce) else (p1, v1)
  }

  /** `keepInPool(p)` for a body of radius `r`: the soft bounce on each of the four walls. */
  function KeepInPool(p: Body, pool: Rect, r: real): (q: Body)
    ensures 2.0 * r <= pool.w ==> pool.x + r <= q.x <= pool.x + pool.w - r
    ensures 2.0 * r <= pool.h ==> pool.y + r <= q.y <= pool.y + pool.h - r
    ensures InPool(p, pool, r) ==> q == p
  {
    var (x, vx) := KeepAxis(p.x, p.vx, pool.x + r, pool.x + pool.w - r);
    var (y, vy) := KeepAxis(p.y, p.vy, pool.y + r, pool.y + pool.h - r);
    Body(x, y, vx, vy)
  }

  /** The body lies in the pool inset by its radius. */
  predicate InPool(p: Body, pool: Rect, r: real)
  {
    pool.x + r <= p.x <= pool.x + pool.w - r && pool.y + r <= p.y <= pool.y + pool.h - r
  }

  /**
   * A clamp on a side makes the velocity along that axis point back into the pool with 0.35
   * of its magnitude; an axis the body was within keeps its position and velocity.
   */
  lemma KeepInPoolBounce(p: Body, pool: Rect, r: real)
    requires 2.0 * r <= pool.w && 2.0 * r <= pool.h
    ensures var q := KeepInPool(p, pool, r);
      && (p.x < pool.x + r ==> q.x == pool.x + r && q.vx == Abs(p.vx) * PoolBounce)
      && (p.x > pool.x + pool.w - r ==> q.x == pool.x + pool.w - r && q.vx == -Abs(p.vx) * PoolBounce)
      && (p.y < pool.y + r ==> q.y == pool.y + r && q.vy == Abs(p.vy) * PoolBounce)
      && (p.y > pool.y + pool.h - r ==> q.y == pool.y + pool.h - r && q.vy == -Abs(p.vy) * PoolBounce)
      && (pool.x + r <= p.x <= pool.x + pool.w - r ==> q.x == p.x && q.vx == p.vx)
      && (pool.y + r <= p.y <= pool.y + pool.h - r ==> q.y == p.y && q.vy == p.vy)
  {
  }

  /*
   * wallRepelVec and edgePenalty
   */

  /** The `push` of `wallRepelVec` from a wall at distance `d`: `((92 - d) / 92)^2 * 1.35` within 92, else nothing. */
  function Push(d: real): (s: real)
    ensures 0.0 <= s
    ensures d >= WallMargin ==> s == 0.0
    ensures 0.0 <= d ==> s <= WallPush
  {
    if d >= WallMargin then 0.0
    else
      var t := (WallMargin - d) / WallMargin;
      MulNonNeg(t, t);
      if 0.0 <= d then
        SquareAtMostOne(t);
        t * t * WallPush
      else
        t * t * WallPush
  }

  lemma SquareAtMostOne(t: real)
    requires 0.0 <= t <= 1.0
    ensures t * t <= 1.0
  {
    MulNonNeg(t, 1.0 - t);
  }

  /** The distances from a point to the left, right, top and bottom walls of the pool. */
  function WallDists(pool: Rect, x: real, y: real): (real, real, real, real)
  {
    (x - pool.x, (pool.x + pool.w) - x, y - pool.y, (pool.y + pool.h) - y)
  }

  /** `wallRepelVec(x, y)`: the left and top walls push toward +x and +y, the right and bottom walls back. */
  function WallRepel(pool: Rect, x: real, y: real): (real, real)
  {
    var (left, right, top, bottom) := WallDists(pool, x, y);
    (Push(left) - Push(right), Push(top) - Push(bottom))
  }

  /**
   * Far from every wall there is no push; inside the pool the push is the sum of one push per
   * wall, each pointing away from its wall with a magnitude of at most 1.35.
   */
  lemma WallRepelBounds(pool: Rect, x: real, y: real)
    ensures var (left, right, top, bottom) := WallDists(pool, x, y);
      && (left >= WallMargin && right >= WallMargin && top >= WallMargin && bottom >= WallMargin ==>
            WallRepel(pool, x, y) == (0.0, 0.0))
      && WallRepel(pool, x, y) == (Push(left) - Push(right), Push(top) - Push(bottom))
      && (0.0 <= left && 0.0 <= right && 0.0 <= top && 0.0 <= bottom ==>
            0.0 <= Push(left) <= WallPush && 0.0 <= Push(right) <= WallPush
            && 0.0 <= Push(top) <= WallPush && 0.0 <= Push(bottom) <= WallPush)
  {
  }

  /** `edgePenalty(px, py)`: one over the distance to the nearest wall, that distance taken as at least 12. */
  function EdgePenalty(pool: Rect, px: real, py: real): (pen: real)
    ensures 0.0 < pen <= 1.0 / MinEdge
  {
    var (left, right, top, bottom) := WallDists(pool, px, py);
    var nearest := Min(Min(Min(left, right), top), bottom);
    var m := Max(MinEdge, nearest);
    RecipBelow(m);
    1.0 / m
  }

  lemma RecipBelow(m: real)
    requires MinEdge <= m
    ensures 0.0 < 1.0 / m <= 1.0 / MinEdge
  {
    var q := 1.0 / m;
    assert q * m == 1.0;
  }

  /*
   * pickNewEscapeTarget
   */

  /** The `i`-th sampled escape point, from the draws `rnd(c + 2 i)` and `rnd(c + 2 i + 1)`. */
  function Candidate(pool: Rect, rnd: Stream, c: nat, i: nat): (p: (real, real))
    requires IsRandom(rnd)
    ensures 2.0 * SampleInset <= pool.w ==> pool.x + SampleInset <= p.0 <= pool.x + pool.w - SampleInset
    ensures 2.0 * SampleInset <= pool.h ==> pool.y + SampleInset <= p.1 <= pool.y + pool.h - SampleInset
  {
    (Rand(rnd(c + 2 * i), pool.x + SampleInset, pool.x + pool.w - SampleInset),
     Rand(rnd(c + 2 * i + 1), pool.y + SampleInset, pool.y + pool.h - SampleInset))
  }

  /** The score of the `i`-th sample: far from the guy is good, near a wall is punished. */
  function Score(pool: Rect, guy: Body, rnd: Stream, c: nat, i: nat, hypot: Hypot): real
    requires IsRandom(rnd)
  {
    var p := Candidate(pool, rnd, c, i);
    hypot(p.0 - guy.x, p.1 - guy.y) - EdgePenalty(pool, p.0, p.1) * EdgeWeight
  }

  /** The scores of the first `n` samples, in the order they are drawn. */
  function Scores(pool: Rect, guy: Body, rnd: Stream, c: nat, n: nat, hypot: Hypot): (sc: seq<real>)
    requires IsRandom(rnd)
    ensures |sc| == n
  {
    if n == 0 then [] else Scores(pool, guy, rnd, c, n - 1, hypot) + [Score(pool, guy, rnd, c, n - 1, hypot)]
  }

  /** The `i`-th score is the score of the `i`-th sample. */
  lemma {:induction false} ScoresAt(pool: Rect, guy: Body, rnd: Stream, c: nat, n: nat, i: nat, hypot: Hypot)
    requires IsRandom(rnd) && i < n
    ensures Scores(pool, guy, rnd, c, n, hypot)[i] == Score(pool, guy, rnd, c, i, hypot)
  {
    if i < n - 1 {
      ScoresAt(pool, guy, rnd, c, n - 1, i, hypot);
    }
  }

  /** The scan of `pickNewEscapeTarget` over scores: the index of the first one that beats every earlier one and -1e9. */
  function FirstMax(sc: seq<real>): (b: Option<nat>)
    ensures b.Some? ==> b.value < |sc|
  {
    if |sc| == 0 then None
    else
      var b := FirstMax(sc[..|sc| - 1]);
      if sc[|sc| - 1] > BestScore(sc, b) then Some(|sc| - 1) else b
  }

  /** `bestScore` for the pick `b` so far. */
  function BestScore(sc: seq<real>, b: Option<nat>): real
  {
    if b.Some? && b.value < |sc| then sc[b.value] else NoScore
  }

  /**
   * Over scores above -1e9 the scan picks an index of maximal score and the first one: every
   * score is at most as large and every earlier one strictly smaller; a non-empty scan picks.
   */
  lemma {:induction false} FirstMaxIsFirstMax(sc: seq<real>)
    requires forall i :: 0 <= i < |sc| ==> sc[i] > NoScore
    ensures var b := FirstMax(sc);
      && (0 < |sc| <==> b.Some?)
      && (b.Some? ==>
            && (forall j :: 0 <= j < |sc| ==> sc[j] <= sc[b.value])
            && (forall j :: 0 <= j < b.value ==> sc[j] < sc[b.value]))
  {
    if 0 < |sc| {
      var pre := sc[..|sc| - 1];
      assert forall i :: 0 <= i < |pre| ==> pre[i] == sc[i];
      FirstMaxIsFirstMax(pre);
    }
  }

  /** No sample scores as low as -1e9: the distance is not negative and the penalty costs at most 520 / 12. */
  lemma ScoreAboveFloor(pool: Rect, guy: Body, rnd: Stream, c: nat, i: nat, hypot: Hypot)
    requires IsRandom(rnd) && IsHypot(hypot)
    ensures Score(pool, guy, rnd, c, i, hypot) > NoScore
  {
    var p := Candidate(pool, rnd, c, i);
    HypotFacts(hypot, p.0 - guy.x, p.1 - guy.y);
    var pen := EdgePenalty(pool, p.0, p.1);
    MulNonNeg(1.0 / MinEdge - pen, EdgeWeight);
  }

  /** Every sample scores above -1e9. */
  lemma ScoresAboveFloor(pool: Rect, guy: Body, rnd: Stream, c: nat, n: nat, hypot: Hypot)
    requires IsRandom(rnd) && IsHypot(hypot)
    ensures forall i :: 0 <= i < n ==> Scores(pool, guy, rnd, c, n, hypot)[i] > NoScore
  {
    var sc := Scores(pool, guy, rnd, c, n, hypot);
    forall i | 0 <= i < n
      ensures sc[i] > NoScore
    {
      ScoresAt(pool, guy, rnd, c, n, i, hypot);
      ScoreAboveFloor(pool, guy, rnd, c, i, hypot);
    }
  }

  /** The pool's centre, the target when no sample was picked. */
  function Centre(pool: Rect): (real, real) { (pool.x + pool.w * 0.5, pool.y + pool.h * 0.5) }

  /** The target the 14 samples give: the best one, or the centre if none beat -1e9. */
  function BestPoint(pool: Rect, guy: Body, rnd: Stream, c: nat, hypot: Hypot): (real, real)
    requires IsRandom(rnd)
  {
    var b := FirstMax(Scores(pool, guy, rnd, c, Samples, hypot));
    if b.Some? then Candidate(pool, rnd, c, b.value) else Centre(pool)
  }

  /** The sampling loop of `pickNewEscapeTarget()`, for the pool and the guy given. */
  method FindBestPoint(pool: Rect, guy: Body, rnd: Stream, c: nat, hypot: Hypot) returns (t: (real, real))
    requires IsRandom(rnd)
    ensures t == BestPoint(pool, guy, rnd, c, hypot)
  {
    var best: Option<(real, real)> := None;
    var bestScore := NoScore;
    ghost var sc: seq<real> := [];
    ghost var b: Option<nat> := None;
    var i := 0;
    while i < Samples
      invariant 0 <= i <= Samples
      invariant sc == Scores(pool, guy, rnd, c, i, hypot)
      invariant b == FirstMax(sc)
      invariant bestScore == BestScore(sc, b)
      invariant best == (if b.Some? then Some(Candidate(pool, rnd, c, b.value)) else None)
    {
      var px := Rand(rnd(c + 2 * i), pool.x + SampleInset, pool.x + pool.w - SampleInset);
      var py := Rand(rnd(c + 2 * i + 1), pool.y + SampleInset, pool.y + pool.h - SampleInset);
      var d := hypot(px - guy.x, py - guy.y);
      var pen := EdgePenalty(pool, px, py);
      var score := d - pen * EdgeWeight;
      assert (px, py) == Candidate(pool, rnd, c, i);
      assert score == Score(pool, guy, rnd, c, i, hypot);
      sc := sc + [score];
      assert sc[..i] == Scores(pool, guy, rnd, c, i, hypot);
      if score > bestScore {
        bestScore := score;
        best := Some((px, py));
        b := Some(i);
      }
      i := i + 1;
    }
    t := if best.Some? then best.value else Centre(pool);
  }

  /**
   * `pickNewEscapeTarget()` drawing from `rnd(c)` on: the best sample becomes the target, the
   * target timer is drawn in [0.35, 0.8), the dodge timer in [0.35, 0.75], and the dodge side
   * flips on a draw below 0.55.
   */
  function Picked(s: WState, rnd: Stream, c: nat, hypot: Hypot): (r: (WState, nat))
    requires IsRandom(rnd)
  {
    var t := BestPoint(s.pool, s.guy, rnd, c, hypot);
    (Redrawn(s.(tx := t.0, ty := t.1), rnd, c + 2 * Samples), c + PickDraws)
  }

  /** The end of `pickNewEscapeTarget()` with the draws from `rnd(k)` on: both timers, then the flip. */
  function Redrawn(s: WState, rnd: Stream, k: nat): WState
    requires IsRandom(rnd)
  {
    var sign := if rnd(k + 2) < 0.55 then -s.dodgeSign else s.dodgeSign;
    s.(targetTimer := Rand(rnd(k), 0.35, 0.8), dodgeTimer := Rand(rnd(k + 1), 0.35, 0.75), dodgeSign := sign)
  }

  /** The target timer drawn from `u`: in [0.35, 0.8). */
  lemma TimerRange(u: real)
    requires 0.0 <= u < 1.0
    ensures 0.35 <= Rand(u, 0.35, 0.8) < 0.8
  {
  }

  /**
   * The target is the sample of maximal score `d - 520 * edgePenalty` among the 14, and the
   * first such: every sample scores at most as much and every earlier one strictly less.
   */
  lemma PickedBest(s: WState, rnd: Stream, c: nat, hypot: Hypot)
    requires IsRandom(rnd) && IsHypot(hypot)
    ensures var r := Picked(s, rnd, c, hypot).0;
      var sc := Scores(s.pool, s.guy, rnd, c, Samples, hypot);
      var b := FirstMax(sc);
      && b.Some? && (r.tx, r.ty) == Candidate(s.pool, rnd, c, b.value)
      && (forall j :: 0 <= j < Samples ==> sc[j] <= sc[b.value])
      && (forall j :: 0 <= j < b.value ==> sc[j] < sc[b.value])
  {
    var sc := Scores(s.pool, s.guy, rnd, c, Samples, hypot);
    ScoresAboveFloor(s.pool, s.guy, rnd, c, Samples, hypot);
    assert forall i :: 0 <= i < |sc| ==> sc[i] > NoScore;
    FirstMaxIsFirstMax(sc);
  }

  /**
   * The target lies in the pool inset by 40 (when the pool is at least 80 wide and tall), the
   * target timer in [0.35, 0.8), the dodge timer in [0.35, 0.75], the dodge side stays 1 or -1,
   * 31 draws are used, and nothing else changes.
   */
  lemma PickedTarget(s: WState, rnd: Stream, c: nat, hypot: Hypot)
    requires IsRandom(rnd)
    ensures var (r, next) := Picked(s, rnd, c, hypot);
      && next == c + PickDraws
      && (2.0 * SampleInset <= s.pool.w && 2.0 * SampleInset <= s.pool.h ==>
            s.pool.x + SampleInset <= r.tx <= s.pool.x + s.pool.w - SampleInset
            && s.pool.y + SampleInset <= r.ty <= s.pool.y + s.pool.h - SampleInset)
      && 0.35 <= r.targetTimer < 0.8 && 0.35 <= r.dodgeTimer <= 0.75
      && (s.dodgeSign == 1.0 || s.dodgeSign == -1.0 ==> r.dodgeSign == 1.0 || r.dodgeSign == -1.0)
      && r == s.(tx := r.tx, ty := r.ty, targetTimer := r.targetTimer, dodgeTimer := r.dodgeTimer, dodgeSign := r.dodgeSign)
  {
    TimerRange(rnd(c + 2 * Samples));
  }

  /*
   * initSwim and updateSwim
   */

  /** The pool of a stage of `w` by `h`. */
  function PoolOf(w: real, h: real): Rect { Rect(Pad, Pad, w - Pad * 2.0, h - Pad * 2.0) }

  /** The record `initSwim` builds before it picks the first target; `sign` is the drawn dodge side. */
  function Fresh(w: real, h: real, sign: real): WState
  {
    WState(PoolOf(w, h), Body(w * 0.30, h * 0.55, 0.0, 0.0), Body(w * 0.70, h * 0.45, 0.0, 0.0),
           w * 0.70, h * 0.45, 0.0, sign, 0.0, 0.0, false)
  }

  /** `initSwim()` drawing from `rnd(c)` on: the dodge side, then the first escape target. */
  function InitSwim(w: real, h: real, rnd: Stream, c: nat, hypot: Hypot): (r: (WState, nat))
    requires IsRandom(rnd)
  {
    var sign := if rnd(c) < 0.5 then 1.0 else -1.0;
    Picked(Fresh(w, h, sign), rnd, c + 1, hypot)
  }

  /** What a `swim` record keeps: the lunge cool-down lies in [0, 0.22] and the dodge side is 1 or -1. */
  predicate Valid(s: WState)
  {
    && 0.0 <= s.lungeCd <= LungeCooldown
    && (s.dodgeSign == 1.0 || s.dodgeSign == -1.0)
  }

  /** A fresh record is valid and not done; the first pick takes 32 draws in all. */
  lemma InitSwimValid(w: real, h: real, rnd: Stream, c: nat, hypot: Hypot)
    requires IsRandom(rnd)
    ensures var (s, next) := InitSwim(w, h, rnd, c, hypot);
      Valid(s) && !s.done && next == c + 1 + PickDraws && s.pool == PoolOf(w, h)
  {
    var sign := if rnd(c) < 0.5 then 1.0 else -1.0;
    PickedTarget(Fresh(w, h, sign), rnd, c + 1, hypot);
  }

  /** The tap lunge: 2.7 more speed toward the pointer (`Math.hypot(dx, dy) || 1`). */
  function Lunged(g: Body, px: real, py: real, hypot: Hypot): (r: Body)
    requires IsHypot(hypot)
    ensures r.x == g.x && r.y == g.y
  {
    var dx := px - g.x;
    var dy := py - g.y;
    var d := LengthOrOne(hypot, dx, dy);
    g.(vx := g.vx + (dx / d) * Lunge, vy := g.vy + (dy / d) * Lunge)
  }

  /** The cool-down after one frame of `dt`: a lunge is possible exactly when it has reached 0. */
  function Cooled(cd: real, dt: real): (r: real)
    ensures 0.0 <= r
    ensures 0.0 <= dt && cd <= LungeCooldown ==> r <= LungeCooldown
  {
    Max(0.0, cd - dt)
  }

  /** A body's move: drag, the speed cap (`limitSpeed`), one frame of velocity and `keepInPool`. */
  function Swum(b: Body, drag: real, max: real, pool: Rect, hypot: Hypot): (r: Body)
    requires IsHypot(hypot) && 0.0 <= max
    ensures 2.0 * BodyR <= pool.w && 2.0 * BodyR <= pool.h ==> InPool(r, pool, BodyR)
  {
    var q := CapSpeed(Damp(b, drag), max, hypot);
    KeepInPool(q.(x := q.x + q.vx, y := q.y + q.vy), pool, BodyR)
  }

  /** The key acceleration, then the lunge when `lunge` is set. */
  function GuyPushed(g: Body, keys: Keys, lunge: bool, px: real, py: real, hypot: Hypot): (r: Body)
    requires IsHypot(hypot)
    ensures r.x == g.x && r.y == g.y
  {
    var a := KeyAccel(keys, hypot);
    var g1 := g.(vx := g.vx + a.0 * AccelGuy, vy := g.vy + a.1 * AccelGuy);
    if lunge then Lunged(g1, px, py, hypot) else g1
  }

  /** The guy's part of `updateSwim`: keys, the lunge when the cool-down allows it, then the move. */
  function GuyMoved(s: WState, dt: real, keys: Keys, justDown: bool, px: real, py: real, hypot: Hypot): (r: WState)
    requires IsHypot(hypot)
    ensures r == s.(guy := r.guy, lungeCd := r.lungeCd)
    ensures r.lungeCd == (if justDown && Cooled(s.lungeCd, dt) <= 0.0 then LungeCooldown else Cooled(s.lungeCd, dt))
  {
    var cd := Cooled(s.lungeCd, dt);
    var lunge := justDown && cd <= 0.0;
    s.(guy := Swum(GuyPushed(s.guy, keys, lunge, px, py, hypot), DragGuy, MaxGuy, s.pool, hypot),
       lungeCd := if lunge then LungeCooldown else cd)
  }

  /** The girl's timers run down; a new target is picked when the old one ran out or is within 70. */
  function Retargeted(s: WState, dt: real, rnd: Stream, c: nat, hypot: Hypot): (r: (WState, nat))
    requires IsRandom(rnd)
  {
    var s1 := s.(targetTimer := s.targetTimer - dt, dodgeTimer := s.dodgeTimer - dt);
    if s1.targetTimer <= 0.0 || hypot(s.girl.x - s.tx, s.girl.y - s.ty) < TargetReach then Picked(s1, rnd, c, hypot)
    else (s1, c)
  }

  /** The anti-stuck push: a girl slower than 0.55 within 60 of a wall gets 1.2 more speed toward the centre. */
  function Unstuck(g: Body, pool: Rect, hypot: Hypot): (r: Body)
    requires IsHypot(hypot)
    ensures r.x == g.x && r.y == g.y
  {
    if hypot(g.vx, g.vy) < StuckSpeed then
      var (left, right, top, bottom) := WallDists(pool, g.x, g.y);
      var nearest := Min(Min(Min(left, right), top), bottom);
      if nearest < StuckEdge then
        var ux := (pool.x + pool.w * 0.5) - g.x;
        var uy := (pool.y + pool.h * 0.5) - g.y;
        var ud := LengthOrOne(hypot, ux, uy);
        g.(vx := g.vx + (ux / ud) * Unstick, vy := g.vy + (uy / ud) * Unstick)
      else g
    else g
  }

  /** An offset divided by `Math.hypot(x, y) || 1`. */
  function Normalized(hypot: Hypot, x: real, y: real): (real, real)
    requires IsHypot(hypot)
  {
    var d := LengthOrOne(hypot, x, y);
    (x / d, y / d)
  }

  /** A normalised offset has length 1, or is the offset itself when its length is 0. */
  lemma NormalizedUnit(hypot: Hypot, x: real, y: real)
    requires IsHypot(hypot)
    ensures var n := Normalized(hypot, x, y);
      (hypot(x, y) != 0.0 ==> hypot(n.0, n.1) == 1.0) && (hypot(x, y) == 0.0 ==> n == (x, y))
  {
    var h := hypot(x, y);
    if h != 0.0 {
      HypotFacts(hypot, x, y);
      assert LengthOrOne(hypot, x, y) == h;
      UnitNormal(x, y, h);
      HypotFacts(hypot, x / h, y / h);
      SqrtUnique(hypot(x / h, y / h), 1.0);
    }
  }

  /** `panic` for the guy at distance `dGuy`. */
  function Panic(dGuy: real): (p: real)
    ensures 0.25 <= p <= 1.0
  {
    if dGuy < PanicNear then 1.0 else if dGuy < PanicFar then 0.55 else 0.25
  }

  /**
   * The girl's steering sum of `updateSwim` before it is normalised: toward the target, away
   * from the guy, sideways by the dodge side when he is within 210, and away from the walls,
   * weighted by `panic`.
   */
  function SteerSum(s: WState, hypot: Hypot): (real, real)
    requires IsHypot(hypot)
  {
    var g := s.girl;
    var toX, toY := s.guy.x - g.x, s.guy.y - g.y;
    var dGuy := LengthOrOne(hypot, toX, toY);
    var seek := Normalized(hypot, s.tx - g.x, s.ty - g.y);
    var fx, fy := -(toX / dGuy), -(toY / dGuy);
    var dx, dy := if dGuy < DodgeRange then (-toY / dGuy) * s.dodgeSign else 0.0,
                  if dGuy < DodgeRange then (toX / dGuy) * s.dodgeSign else 0.0;
    var wr := WallRepel(s.pool, g.x, g.y);
    var panic := Panic(dGuy);
    (seek.0 * 0.55 + fx * (0.55 + panic) + dx * (0.30 + panic * 0.35) + wr.0 * 0.95,
     seek.1 * 0.55 + fy * (0.55 + panic) + dy * (0.30 + panic * 0.35) + wr.1 * 0.95)
  }

  /** The girl's steering: the sum, normalised. */
  function Steer(s: WState, hypot: Hypot): (st: (real, real))
    requires IsHypot(hypot)
  {
    var sum := SteerSum(s, hypot);
    Normalized(hypot, sum.0, sum.1)
  }

  /** The steering is a unit direction, or the steering sum itself when that sum has length 0. */
  lemma SteerUnit(s: WState, hypot: Hypot)
    requires IsHypot(hypot)
    ensures var st := Steer(s, hypot); var sum := SteerSum(s, hypot);
      (hypot(sum.0, sum.1) != 0.0 ==> hypot(st.0, st.1) == 1.0) && (hypot(sum.0, sum.1) == 0.0 ==> st == sum)
  {
    var sum := SteerSum(s, hypot);
    NormalizedUnit(hypot, sum.0, sum.1);
  }

  /** The girl's move along her steering, then the anti-stuck push. */
  function GirlMoved(s: WState, hypot: Hypot): (r: WState)
    requires IsHypot(hypot)
    ensures r == s.(girl := r.girl)
  {
    var steer := Steer(s, hypot);
    var g1 := s.girl.(vx := s.girl.vx + steer.0 * AccelGirl, vy := s.girl.vy + steer.1 * AccelGirl);
    s.(girl := Unstuck(Swum(g1, DragGirl, MaxGirl, s.pool, hypot), s.pool, hypot))
  }

  /** Do the two bodies touch? */
  predicate Touching(s: WState, hypot: Hypot)
  {
    hypot(s.guy.x - s.girl.x, s.guy.y - s.girl.y) < BodyR + BodyR
  }

  /**
   * `updateSwim(dt)` with `justDown` and (`px`, `py`) for the pointer and the draws from
   * `rnd(c)` on: nothing once done; otherwise the moves of one frame and the tag on contact.
   */
  function Updated(s: WState, dt: real, keys: Keys, justDown: bool, px: real, py: real,
                   rnd: Stream, c: nat, hypot: Hypot): WFrame
    requires IsRandom(rnd) && IsHypot(hypot)
  {
    if s.done then WFrame(s, false, c)
    else
      var m := Moved(s, dt, keys, justDown, px, py, rnd, c, hypot);
      Tagged(m.0, m.1, hypot)
  }

  /** The moves of one frame: the guy, the girl's timers and target, then the girl; with the next unused draw. */
  function Moved(s: WState, dt: real, keys: Keys, justDown: bool, px: real, py: real,
                 rnd: Stream, c: nat, hypot: Hypot): (m: (WState, nat))
    requires IsRandom(rnd) && IsHypot(hypot)
    ensures m.0.pool == s.pool && m.0.done == s.done
  {
    var r := Retargeted(GuyMoved(s, dt, keys, justDown, px, py, hypot), dt, rnd, c, hypot);
    (GirlMoved(r.0, hypot), r.1)
  }

  /** The tag check at the end of `updateSwim`: on contact the record is done. */
  function Tagged(s: WState, next: nat, hypot: Hypot): (r: WFrame)
    ensures r.next == next && r.state == s.(done := r.state.done)
    ensures r.tagged == Touching(s, hypot) && r.state.done == (s.done || r.tagged)
  {
    if Touching(s, hypot) then WFrame(s.(done := true), true, next) else WFrame(s, false, next)
  }

  /** Once done, an update changes nothing and draws nothing. */
  lemma UpdateWhenDone(s: WState, dt: real, keys: Keys, justDown: bool, px: real, py: real,
                       rnd: Stream, c: nat, hypot: Hypot)
    requires IsRandom(rnd) && IsHypot(hypot) && s.done
    ensures Updated(s, dt, keys, justDown, px, py, rnd, c, hypot) == WFrame(s, false, c)
  {
  }

  /**
   * The tag: it happens exactly when the game is not done and the bodies end the frame nearer
   * than the sum of their radii; it sets `done`, and a frame without it leaves `done` unset.
   */
  lemma UpdateTag(s: WState, dt: real, keys: Keys, justDown: bool, px: real, py: real,
                  rnd: Stream, c: nat, hypot: Hypot)
    requires IsRandom(rnd) && IsHypot(hypot)
    ensures var r := Updated(s, dt, keys, justDown, px, py, rnd, c, hypot);
      && (r.tagged <==> !s.done && Touching(r.state, hypot))
      && r.state.done == (s.done || r.tagged)
  {
    if !s.done {
      var m := Moved(s, dt, keys, justDown, px, py, rnd, c, hypot);
      assert Updated(s, dt, keys, justDown, px, py, rnd, c, hypot) == Tagged(m.0, m.1, hypot);
    }
  }

  /**
   * A frame keeps the record valid: the lunge cool-down stays in [0, 0.22] (0.22 right after a
   * lunge) and the dodge side stays 1 or -1.
   */
  lemma UpdateValid(s: WState, dt: real, keys: Keys, justDown: bool, px: real, py: real,
                    rnd: Stream, c: nat, hypot: Hypot)
    requires IsRandom(rnd) && IsHypot(hypot) && Valid(s) && 0.0 <= dt
    ensures Valid(Updated(s, dt, keys, justDown, px, py, rnd, c, hypot).state)
  {
    if !s.done {
      var s1 := GuyMoved(s, dt, keys, justDown, px, py, hypot);
      var s1' := s1.(targetTimer := s1.targetTimer - dt, dodgeTimer := s1.dodgeTimer - dt);
      PickedTarget(s1', rnd, c, hypot);
    }
  }

  /** After a frame that is not a no-op, both bodies lie in the pool inset by their radius (for a pool at least 36 wide and tall). */
  lemma UpdateInPool(s: WState, dt: real, keys: Keys, justDown: bool, px: real, py: real,
                     rnd: Stream, c: nat, hypot: Hypot)
    requires IsRandom(rnd) && IsHypot(hypot) && !s.done
    requires 2.0 * BodyR <= s.pool.w && 2.0 * BodyR <= s.pool.h
    ensures var r := Updated(s, dt, keys, justDown, px, py, rnd, c, hypot).state;
      InPool(r.guy, s.pool, BodyR) && InPool(r.girl, s.pool, BodyR) && r.pool == s.pool
  {
    var s1 := GuyMoved(s, dt, keys, justDown, px, py, hypot);
    var s1' := s1.(targetTimer := s1.targetTimer - dt, dodgeTimer := s1.dodgeTimer - dt);
    PickedTarget(s1', rnd, c, hypot);
  }

  /** The `swim` record. */
  class Swim {
    var pool: Rect
    var guy: Body
    var girl: Body
    var tx: real
    var ty: real
    var targetTimer: real
    var dodgeSign: real
    var dodgeTimer: real
    var lungeCd: real
    var done: bool

    function Model(): WState
      reads this
    {
      WState(pool, guy, girl, tx, ty, targetTimer, dodgeSign, dodgeTimer, lungeCd, done)
    }

    /** The record of `initSwim()` with the dodge side `sign`, before the first pick. */
    constructor Init(w: real, h: real, sign: real)
      ensures Model() == Fresh(w, h, sign)
    {
      pool := PoolOf(w, h);
      guy := Body(w * 0.30, h * 0.55, 0.0, 0.0);
      girl := Body(w * 0.70, h * 0.45, 0.0, 0.0);
      tx, ty := w * 0.70, h * 0.45;
      targetTimer := 0.0;
      dodgeSign := sign;
      dodgeTimer := 0.0;
      lungeCd := 0.0;
      done := false;
    }

    /** `pickNewEscapeTarget()`, drawing from `rnd(c)` on; returns the next unused draw. */
    method PickNewEscapeTarget(rnd: Stream, c: nat, hypot: Hypot) returns (next: nat)
      requires IsRandom(rnd)
      modifies this
      ensures (Model(), next) == Picked(old(Model()), rnd, c, hypot)
    {
      ghost var s0 := Model();
      var t := FindBestPoint(pool, guy, rnd, c, hypot);
      tx, ty := t.0, t.1;
      ghost var s1 := Model();
      assert s1 == s0.(tx := t.0, ty := t.1);
      Redraw(rnd, c + 2 * Samples);
      next := c + PickDraws;
    }

    /** The two timers and the dodge flip of `pickNewEscapeTarget()`, from `rnd(k)` on. */
    method Redraw(rnd: Stream, k: nat)
      requires IsRandom(rnd)
      modifies this
      ensures Model() == Redrawn(old(Model()), rnd, k)
    {
      targetTimer := Rand(rnd(k), 0.35, 0.8);
      dodgeTimer := Rand(rnd(k + 1), 0.35, 0.75);
      if rnd(k + 2) < 0.55 {
        dodgeSign := -dodgeSign;
      }
    }

    /** The guy's part of `updateSwim(dt)`. */
    method MoveGuy(dt: real, keys: Keys, justDown: bool, px: real, py: real, hypot: Hypot)
      requires IsHypot(hypot)
      modifies this
      ensures Model() == GuyMoved(old(Model()), dt, keys, justDown, px, py, hypot)
    {
      var cd := Cooled(lungeCd, dt);
      var lunge := justDown && cd <= 0.0;
      if lunge {
        cd := LungeCooldown;
      }
      guy, lungeCd := Swum(GuyPushed(guy, keys, lunge, px, py, hypot), DragGuy, MaxGuy, pool, hypot), cd;
    }

    /** The timers of `updateSwim(dt)` and the pick of a new target when it is due. */
    method Retarget(dt: real, rnd: Stream, c: nat, hypot: Hypot) returns (next: nat)
      requires IsRandom(rnd)
      modifies this
      ensures (Model(), next) == Retargeted(old(Model()), dt, rnd, c, hypot)
    {
      targetTimer, dodgeTimer := targetTimer - dt, dodgeTimer - dt;
      ghost var s1 := Model();
      var dTarget := hypot(girl.x - tx, girl.y - ty);
      next := c;
      if targetTimer <= 0.0 || dTarget < TargetReach {
        next := PickNewEscapeTarget(rnd, c, hypot);
        assert (Model(), next) == Picked(s1, rnd, c, hypot);
      }
    }

    /** The girl's move and the anti-stuck push. */
    method MoveGirl(hypot: Hypot)
      requires IsHypot(hypot)
      modifies this
      ensures Model() == GirlMoved(old(Model()), hypot)
    {
      var steer := Steer(Model(), hypot);
      var g := girl.(vx := girl.vx + steer.0 * AccelGirl, vy := girl.vy + steer.1 * AccelGirl);
      g := CapSpeed(Damp(g, DragGirl), MaxGirl, hypot);
      g := g.(x := g.x + g.vx, y := g.y + g.vy);
      g := KeepInPool(g, pool, BodyR);
      girl := Unstuck(g, pool, hypot);
    }

    /** `updateSwim(dt)`: returns whether the tag happened and the next unused draw. */
    method Update(dt: real, keys: Keys, justDown: bool, px: real, py: real,
                  rnd: Stream, c: nat, hypot: Hypot) returns (tagged: bool, next: nat)
      requires IsRandom(rnd) && IsHypot(hypot)
      modifies this
      ensures WFrame(Model(), tagged, next) == Updated(old(Model()), dt, keys, justDown, px, py, rnd, c, hypot)
    {
      if done {
        return false, c;
      }
      MoveGuy(dt, keys, justDown, px, py, hypot);
      next := Retarget(dt, rnd, c, hypot);
      MoveGirl(hypot);
      tagged := TagCheck(next, hypot);
    }

    /** The tag check of `updateSwim`: returns whether the bodies touch. */
    method TagCheck(next: nat, hypot: Hypot) returns (tagged: bool)
      modifies this
      ensures WFrame(Model(), tagged, next) == Tagged(old(Model()), next, hypot)
    {
      tagged := hypot(guy.x - girl.x, guy.y - girl.y) < BodyR + BodyR;
      if tagged {
        done := true;
      }
    }
  }

  /** `initSwim()` drawing from `rnd(c)` on: returns the record and the next unused draw. */
  method NewSwim(w: real, h: real, rnd: Stream, c: nat, hypot: Hypot) returns (swim: Swim, next: nat)
    requires IsRandom(rnd)
    ensures (swim.Model(), next) == InitSwim(w, h, rnd, c, hypot)
  {
    var sign := if rnd(c) < 0.5 then 1.0 else -1.0;
    swim := new Swim.Init(w, h, sign);
    next := swim.PickNewEscapeTarget(rnd, c + 1, hypot);
  }
}
