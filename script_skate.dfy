/*
 * The ice-skating mini-game of script.js: `initSkate`, `circleRectCollide`
 * and `updateSkate`.  This revision moves per frame (no `dt`): the pointer
 * press kicks the player, the keys accelerate, friction slows, the position
 * is clamped to the stage, three bars slide and bounce at 16 from the walls,
 * a bar touch puts the player back at (0.35 w, 0.55 h) at rest, and five
 * hearts are collected once each.  The record `skate` is the class `Skate`;
 * its state as a value is `SState`.  Hearts are the tokens of app.js.
 */
module ScriptSkate {
  import opened Numeric
  import opened AppPhysics
  import S = AppSkate

  const PlayerR: real := 16.0
  const TokenR: real := 18.0
  const Goal: int := 5
  const Friction: real := 0.95
  const Accel: real := 0.33
  /** The speed a pointer press adds toward the pointer. */
  const Kick: real := 2.2
  /** Hearts are drawn at least this far from every edge. */
  const TokenMargin: real := 70.0
  /** A bar turns round this close to a side wall. */
  const BarMargin: real := 16.0
  const BarH: real := 16.0
  const TokenScore: int := 12

  /** An obstacle: a bar of `w` by `h` at (`x`, `y`) sliding at `vx` per frame. */
  datatype Bar = Bar(x: real, y: real, w: real, h: real, vx: real)

  /** The fields of the `skate` record; `friction`, `accel`, `goal` and the radii never change and are constants. */
  datatype SState = SState(player: Body, collected: int, tokens: seq<S.Token>, bars: seq<Bar>, done: bool)

  /** What one update changes: the new record, the score it adds, whether the clear fired and whether a bar was hit. */
  datatype SFrame = SFrame(state: SState, gain: int, cleared: bool, slipped: bool)

  /** The point the player starts from and is put back to. */
  function Spawn(w: real, h: real): Body { Body(w * 0.35, h * 0.55, 0.0, 0.0) }

  /** `circleRectCollide`: the distance from the centre to the closest point of the rectangle is below `cr`. */
  function CircleRectCollide(cx: real, cy: real, cr: real, rect: Rect, hypot: Hypot): bool
  {
    var closestX := Clamp(cx, rect.x, rect.x + rect.w);
    var closestY := Clamp(cy, rect.y, rect.y + rect.h);
    hypot(cx - closestX, cy - closestY) < cr
  }

  /** For a radius that is not negative, the test agrees with the squared-distance test of app.js. */
  lemma CollideIsHit(cx: real, cy: real, cr: real, rect: Rect, hypot: Hypot)
    requires IsHypot(hypot) && 0.0 <= cr
    ensures CircleRectCollide(cx, cy, cr, rect, hypot) <==> CircleRectHit(cx, cy, cr, rect)
  {
    var dx := cx - Clamp(cx, rect.x, rect.x + rect.w);
    var dy := cy - Clamp(cy, rect.y, rect.y + rect.h);
    HypotFacts(hypot, dx, dy);
    var d := hypot(dx, dy);
    LessSquares(d, cr);
  }

  /** Between non-negative numbers, `<` agrees with `<` on their squares. */
  lemma LessSquares(a: real, b: real)
    requires 0.0 <= a && 0.0 <= b
    ensures a < b <==> a * a < b * b
  {
    if a < b {
      MulNonNeg(a, b - a);
      MulPos(b, b - a);
      assert b * b - a * a == a * (b - a) + b * (b - a);
    } else {
      MulNonNeg(b, a - b);
      MulNonNeg(a, a - b);
      assert a * a - b * b == b * (a - b) + a * (a - b);
    }
  }

  /** The `i`-th heart of `initSkate`, from the draws `rnd(c + 2 i)` and `rnd(c + 2 i + 1)`. */
  function Heart(w: real, h: real, rnd: Stream, c: nat, i: nat): (t: S.Token)
    requires IsRandom(rnd)
    ensures t.alive
    ensures 2.0 * TokenMargin <= w ==> TokenMargin <= t.x <= w - TokenMargin
    ensures 2.0 * TokenMargin <= h ==> TokenMargin <= t.y <= h - TokenMargin
  {
    S.Token(Rand(rnd(c + 2 * i), TokenMargin, w - TokenMargin), Rand(rnd(c + 2 * i + 1), TokenMargin, h - TokenMargin), true)
  }

  /** The five hearts of `initSkate`. */
  function Hearts(w: real, h: real, rnd: Stream, c: nat): (ts: seq<S.Token>)
    requires IsRandom(rnd)
    ensures |ts| == Goal
  {
    seq(Goal, i requires 0 <= i < Goal => Heart(w, h, rnd, c, i))
  }

  /** The three bars of `initSkate`. */
  function Bars(w: real, h: real): seq<Bar>
  {
    [Bar(w * 0.15, h * 0.30, w * 0.20, BarH, 1.3),
     Bar(w * 0.55, h * 0.48, w * 0.25, BarH, -1.1),
     Bar(w * 0.30, h * 0.76, w * 0.30, BarH, 0.95)]
  }

  /** `initSkate()` on a stage of `w` by `h`, drawing from `rnd(c)` on; the cursor after its ten draws. */
  function InitSkate(w: real, h: real, rnd: Stream, c: nat): (r: (SState, nat))
    requires IsRandom(rnd)
  {
    (SState(Spawn(w, h), 0, Hearts(w, h, rnd, c), Bars(w, h), false), c + 2 * Goal)
  }

  /**
   * What a `skate` record keeps: five hearts, `collected` counts the ones that are gone, and
   * `done` is set exactly when all five are.
   */
  predicate Valid(s: SState)
  {
    && |s.tokens| == Goal
    && 0 <= s.collected
    && s.collected + S.AliveCount(s.tokens) == Goal
    && (s.done <==> s.collected >= Goal)
  }

  /** A fresh record is valid, its five hearts alive and inside the stage inset by 70, the player at the spawn point at rest. */
  lemma InitSkateValid(w: real, h: real, rnd: Stream, c: nat)
    requires IsRandom(rnd)
    ensures var (s, next) := InitSkate(w, h, rnd, c);
      && Valid(s) && next == c + 10 && s.player == Spawn(w, h) && |s.bars| == 3
      && (2.0 * TokenMargin <= w && 2.0 * TokenMargin <= h ==>
            forall i :: 0 <= i < |s.tokens| ==>
              TokenMargin <= s.tokens[i].x <= w - TokenMargin && TokenMargin <= s.tokens[i].y <= h - TokenMargin)
  {
    var ts := Hearts(w, h, rnd, c);
    S.AllAlive(ts, |ts|);
  }

  /** The pointer press of `updateSkate`: 2.2 more speed toward the pointer (`Math.hypot(dx, dy) || 1`). */
  function Kicked(p: Body, justDown: bool, px: real, py: real, hypot: Hypot): (r: Body)
    requires IsHypot(hypot)
    ensures r.x == p.x && r.y == p.y
    ensures !justDown ==> r == p
  {
    if justDown then
      var dx := px - p.x;
      var dy := py - p.y;
      var d := LengthOrOne(hypot, dx, dy);
      p.(vx := p.vx + (dx / d) * Kick, vy := p.vy + (dy / d) * Kick)
    else p
  }

  /** The key acceleration of 0.33 along the key direction, then the friction of 0.95. */
  function Pushed(p: Body, keys: Keys, hypot: Hypot): (r: Body)
    requires IsHypot(hypot)
    ensures r.x == p.x && r.y == p.y
  {
    var a := KeyAccel(keys, hypot);
    var vx := p.vx + a.0 * Accel;
    var vy := p.vy + a.1 * Accel;
    p.(vx := vx * Friction, vy := vy * Friction)
  }

  /** The move: the position plus the velocity, clamped to the stage inset by the player's radius. */
  function Clamped(p: Body, w: real, h: real): (r: Body)
    ensures r.vx == p.vx && r.vy == p.vy
    ensures PlayerR <= r.x && PlayerR <= r.y
    ensures 2.0 * PlayerR <= w ==> r.x <= w - PlayerR
    ensures 2.0 * PlayerR <= h ==> r.y <= h - PlayerR
    ensures PlayerR <= p.x + p.vx <= w - PlayerR ==> r.x == p.x + p.vx
    ensures PlayerR <= p.y + p.vy <= h - PlayerR ==> r.y == p.y + p.vy
  {
    p.(x := Clamp(p.x + p.vx, PlayerR, w - PlayerR), y := Clamp(p.y + p.vy, PlayerR, h - PlayerR))
  }

  /**
   * One bar of the bar loop: it slides by `vx`, keeps its row, size and speed, and turns round
   * exactly when it ends up within 16 of a side wall.
   */
  function MoveBar(o: Bar, w: real): (r: Bar)
    ensures r.x == o.x + o.vx && r.y == o.y && r.w == o.w && r.h == o.h
    ensures Abs(r.vx) == Abs(o.vx)
    ensures o.vx != 0.0 ==> (r.vx == -o.vx <==> r.x < BarMargin || r.x + r.w > w - BarMargin)
  {
    var x := o.x + o.vx;
    if x < BarMargin || x + o.w > w - BarMargin then o.(x := x, vx := -o.vx) else o.(x := x)
  }

  /** The bar loop of `updateSkate`. */
  function MoveBars(bars: seq<Bar>, w: real): (r: seq<Bar>)
    ensures |r| == |bars|
  {
    seq(|bars|, i requires 0 <= i < |bars| => MoveBar(bars[i], w))
  }

  function BarRect(o: Bar): Rect { Rect(o.x, o.y, o.w, o.h) }

  /** Does the player touch one of the first `n` bars? */
  function HitsBarIn(p: Body, bars: seq<Bar>, n: nat, hypot: Hypot): (hit: bool)
    requires n <= |bars|
    ensures hit <==> exists i :: 0 <= i < n && CircleRectCollide(p.x, p.y, PlayerR, BarRect(bars[i]), hypot)
  {
    if n == 0 then false
    else HitsBarIn(p, bars, n - 1, hypot) || CircleRectCollide(p.x, p.y, PlayerR, BarRect(bars[n - 1]), hypot)
  }

  /** A heart is collected when it is alive and nearer than `player.r + tkn.r` (34). */
  function Pickup(t: S.Token, p: Body, hypot: Hypot): S.Token
  {
    if t.alive && hypot(p.x - t.x, p.y - t.y) < PlayerR + TokenR then t.(alive := false) else t
  }

  /** The heart loop of `updateSkate`. */
  function Collect(ts: seq<S.Token>, p: Body, hypot: Hypot): (r: seq<S.Token>)
    ensures |r| == |ts|
  {
    seq(|ts|, i requires 0 <= i < |ts| => Pickup(ts[i], p, hypot))
  }

  /** Each collected heart was alive and is one less live heart. */
  lemma {:induction false} CollectCounts(ts: seq<S.Token>, p: Body, hypot: Hypot, n: nat)
    requires n <= |ts|
    ensures S.AliveIn(Collect(ts, p, hypot), n) + S.TakenIn(ts, Collect(ts, p, hypot), n) == S.AliveIn(ts, n)
  {
    if n > 0 {
      CollectCounts(ts, p, hypot, n - 1);
    }
  }

  /** Nothing is taken between a sequence of hearts and itself. */
  lemma {:induction false} TakenNone(ts: seq<S.Token>, n: nat)
    requires n <= |ts|
    ensures S.TakenIn(ts, ts, n) == 0
  {
    if n > 0 {
      TakenNone(ts, n - 1);
    }
  }

  /** The player after the pointer, the keys, friction and the clamp, before the bars. */
  function Moved(p: Body, w: real, h: real, keys: Keys, justDown: bool, px: real, py: real, hypot: Hypot): Body
    requires IsHypot(hypot)
  {
    Clamped(Pushed(Kicked(p, justDown, px, py, hypot), keys, hypot), w, h)
  }

  /**
   * `updateSkate()` on a stage of `w` by `h`, with `justDown` for `input.pointerJustDown` and
   * (`px`, `py`) for the pointer: nothing once done; otherwise the player moves, the bars
   * slide, a bar touch puts the player back at the spawn point, the hearts within reach are
   * collected (12 points each) and the clear fires once all five are.
   */
  function Updated(s: SState, w: real, h: real, keys: Keys, justDown: bool, px: real, py: real, hypot: Hypot): SFrame
    requires IsHypot(hypot)
  {
    if s.done then SFrame(s, 0, false, false)
    else
      var p := Moved(s.player, w, h, keys, justDown, px, py, hypot);
      var bars := MoveBars(s.bars, w);
      var slipped := HitsBarIn(p, bars, |bars|, hypot);
      var q := if slipped then Spawn(w, h) else p;
      var ts := Collect(s.tokens, q, hypot);
      var n := S.TakenIn(s.tokens, ts, |ts|);
      var c := s.collected + n;
      var s1 := SState(q, c, ts, bars, false);
      if c >= Goal then SFrame(s1.(done := true), TokenScore * n, true, slipped)
      else SFrame(s1, TokenScore * n, false, slipped)
  }

  /** Once done, an update changes nothing and scores nothing. */
  lemma UpdateWhenDone(s: SState, w: real, h: real, keys: Keys, justDown: bool, px: real, py: real, hypot: Hypot)
    requires IsHypot(hypot) && s.done
    ensures Updated(s, w, h, keys, justDown, px, py, hypot) == SFrame(s, 0, false, false)
  {
  }

  /**
   * Where the player ends up: a bar touch puts it at (0.35 w, 0.55 h) at rest; otherwise it lies
   * in the stage inset by its radius (when the stage is at least twice that wide and tall).
   */
  lemma UpdatePlayer(s: SState, w: real, h: real, keys: Keys, justDown: bool, px: real, py: real, hypot: Hypot)
    requires IsHypot(hypot) && !s.done
    ensures var r := Updated(s, w, h, keys, justDown, px, py, hypot);
      var p := r.state.player;
      && (r.slipped <==> HitsBarIn(Moved(s.player, w, h, keys, justDown, px, py, hypot), MoveBars(s.bars, w), |s.bars|, hypot))
      && (r.slipped ==> p == Spawn(w, h))
      && (!r.slipped ==> PlayerR <= p.x && PlayerR <= p.y
                         && (2.0 * PlayerR <= w ==> p.x <= w - PlayerR)
                         && (2.0 * PlayerR <= h ==> p.y <= h - PlayerR))
      && r.state.bars == MoveBars(s.bars, w)
  {
  }

  /** On a stage of at least 46 by 36 the spawn point, and so the player after every update, lies in the inset stage. */
  lemma UpdatePlayerInside(s: SState, w: real, h: real, keys: Keys, justDown: bool, px: real, py: real, hypot: Hypot)
    requires IsHypot(hypot) && !s.done && 46.0 <= w && 36.0 <= h
    ensures var p := Updated(s, w, h, keys, justDown, px, py, hypot).state.player;
      PlayerR <= p.x <= w - PlayerR && PlayerR <= p.y <= h - PlayerR
  {
    UpdatePlayer(s, w, h, keys, justDown, px, py, hypot);
  }

  /**
   * The hearts and the clear: `collected` rises by the hearts taken, the score by 12 for each,
   * and the clear fires exactly when all five are in, setting `done` so that it never fires again.
   */
  lemma UpdateClear(s: SState, w: real, h: real, keys: Keys, justDown: bool, px: real, py: real, hypot: Hypot)
    requires IsHypot(hypot) && Valid(s)
    ensures var r := Updated(s, w, h, keys, justDown, px, py, hypot);
      var n := S.TakenIn(s.tokens, r.state.tokens, |s.tokens|);
      && Valid(r.state)
      && r.state.collected == s.collected + n
      && r.gain == TokenScore * n && 0 <= r.gain
      && (r.cleared <==> !s.done && r.state.collected >= Goal)
      && (r.cleared ==> r.state.done)
  {
    if s.done {
      TakenNone(s.tokens, |s.tokens|);
    } else {
      var p := Moved(s.player, w, h, keys, justDown, px, py, hypot);
      var bars := MoveBars(s.bars, w);
      var q := if HitsBarIn(p, bars, |bars|, hypot) then Spawn(w, h) else p;
      CollectCounts(s.tokens, q, hypot, |s.tokens|);
    }
  }

  /** The `skate` record. */
  class Skate {
    var player: Body
    var collected: int
    var tokens: seq<S.Token>
    var bars: seq<Bar>
    var done: bool

    function Model(): SState
      reads this
    {
      SState(player, collected, tokens, bars, done)
    }

    /** `initSkate()` with its hearts drawn. */
    constructor Init(w: real, h: real, hearts: seq<S.Token>)
      ensures Model() == SState(Spawn(w, h), 0, hearts, Bars(w, h), false)
    {
      player := Spawn(w, h);
      collected := 0;
      tokens := hearts;
      bars := Bars(w, h);
      done := false;
    }

    /** The bar loop of `updateSkate`, on the bars in place. */
    method SlideBars(w: real)
      modifies this
      ensures Model() == old(Model()).(bars := MoveBars(old(bars), w))
    {
      ghost var b0 := bars;
      var i := 0;
      while i < |bars|
        invariant 0 <= i <= |bars| == |b0|
        invariant forall j :: 0 <= j < i ==> bars[j] == MoveBar(b0[j], w)
        invariant forall j :: i <= j < |bars| ==> bars[j] == b0[j]
        invariant Model() == old(Model()).(bars := bars)
      {
        var o := bars[i];
        var x := o.x + o.vx;
        if x < BarMargin || x + o.w > w - BarMargin {
          bars := bars[i := o.(x := x, vx := -o.vx)];
        } else {
          bars := bars[i := o.(x := x)];
        }
        i := i + 1;
      }
      assert bars == MoveBars(b0, w);
    }

    /** The bar check of `updateSkate`: the first bar the player touches puts it back at the spawn point. */
    method CheckBars(w: real, h: real, hypot: Hypot) returns (slipped: bool)
      modifies this
      ensures slipped == HitsBarIn(old(player), bars, |bars|, hypot)
      ensures Model() == old(Model()).(player := if slipped then Spawn(w, h) else old(player))
    {
      slipped := false;
      var i := 0;
      while i < |bars|
        invariant 0 <= i <= |bars|
        invariant !HitsBarIn(player, bars, i, hypot)
        invariant Model() == old(Model())
      {
        var o := bars[i];
        if CircleRectCollide(player.x, player.y, PlayerR, Rect(o.x, o.y, o.w, o.h), hypot) {
          player := Spawn(w, h);
          slipped := true;
          assert HitsBarIn(old(player), bars, i + 1, hypot);
          HitsBarMore(old(player), bars, i + 1, |bars|, hypot);
          return;
        }
        i := i + 1;
      }
    }

    /** The heart loop of `updateSkate`; `n` is the number of hearts collected. */
    method CollectHearts(hypot: Hypot) returns (n: nat)
      modifies this
      ensures Model() == old(Model()).(tokens := Collect(old(tokens), player, hypot), collected := old(collected) + n)
      ensures n == S.TakenIn(old(tokens), Collect(old(tokens), player, hypot), |old(tokens)|)
    {
      var ts := tokens;
      var p := player;
      ghost var after := Collect(tokens, p, hypot);
      n := 0;
      var i := 0;
      while i < |ts|
        invariant 0 <= i <= |ts| == |tokens|
        invariant forall j :: 0 <= j < i ==> ts[j] == after[j]
        invariant forall j :: i <= j < |ts| ==> ts[j] == tokens[j]
        invariant n == S.TakenIn(tokens, after, i)
      {
        var t := ts[i];
        if t.alive && hypot(p.x - t.x, p.y - t.y) < PlayerR + TokenR {
          ts := ts[i := t.(alive := false)];
          n := n + 1;
        }
        i := i + 1;
      }
      assert ts == after;
      tokens, collected := ts, collected + n;
    }

    /** `updateSkate()`: returns the score it adds, whether the clear fired and whether a bar was hit. */
    method Update(w: real, h: real, keys: Keys, justDown: bool, px: real, py: real, hypot: Hypot)
      returns (gain: int, cleared: bool, slipped: bool)
      requires IsHypot(hypot)
      modifies this
      ensures SFrame(Model(), gain, cleared, slipped) == Updated(old(Model()), w, h, keys, justDown, px, py, hypot)
    {
      if done {
        return 0, false, false;
      }
      ghost var s0 := Model();
      ghost var bars1 := MoveBars(s0.bars, w);
      player := Moved(player, w, h, keys, justDown, px, py, hypot);
      SlideBars(w);
      slipped := CheckBars(w, h, hypot);
      ghost var q := player;
      assert Model() == s0.(player := q, bars := bars1);
      var n := CollectHearts(hypot);
      assert Model() == SState(q, s0.collected + n, Collect(s0.tokens, q, hypot), bars1, false);
      gain := TokenScore * n;
      cleared := false;
      if collected >= Goal {
        done := true;
        cleared := true;
      }
    }
  }

  /** A touch among the first `i` bars is a touch among the first `n >= i`. */
  lemma {:induction false} HitsBarMore(p: Body, bars: seq<Bar>, i: nat, n: nat, hypot: Hypot)
    requires i <= n <= |bars| && HitsBarIn(p, bars, i, hypot)
    ensures HitsBarIn(p, bars, n, hypot)
    decreases n - i
  {
    if i < n {
      HitsBarMore(p, bars, i, n - 1, hypot);
    }
  }

  /** `initSkate()`: the record with its five hearts drawn from `rnd(c)` on, and the cursor after them. */
  method NewSkate(w: real, h: real, rnd: Stream, c: nat) returns (skate: Skate, next: nat)
    requires IsRandom(rnd)
    ensures (skate.Model(), next) == InitSkate(w, h, rnd, c)
  {
    var hearts: seq<S.Token> := [];
    var i := 0;
    while i < Goal
      invariant 0 <= i <= Goal
      invariant hearts == Hearts(w, h, rnd, c)[..i]
    {
      hearts := hearts + [S.Token(Rand(rnd(c + 2 * i), TokenMargin, w - TokenMargin),
                                  Rand(rnd(c + 2 * i + 1), TokenMargin, h - TokenMargin), true)];
      i := i + 1;
    }
    assert hearts == Hearts(w, h, rnd, c);
    skate := new Skate.Init(w, h, hearts);
    next := c + 2 * Goal;
  }
}
