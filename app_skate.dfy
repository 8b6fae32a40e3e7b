/*
 * The ice-skating mini-game of app.js: `makeIceZones`, `updateIceZones`,
 * `safeTokenPos`, `initSkate` and `updateSkate`.  The record `skate` is the
 * class `Skate`; its state as a value is `SState`.  The random draws of
 * `Math.random()` come from a stream and a cursor; the stage size `W()`/`H()`,
 * the keys, the pointer and the two `dampFactor` values of the frame are
 * parameters.
 */
module AppSkate {
  import opened Numeric
  import opened AppPhysics

  const IceCount: nat := 1
  const IceTries: nat := 80
  /** The spawn circle `makeIceZones` keeps the ice away from. */
  const IceSpawnR: real := 140.0
  const SpawnR: real := 150.0
  const PlayerR: real := 14.0
  const Goal: int := 6
  const StartShield: real := 1.4
  const TokenTries: nat := 90
  const TokenMinDist: real := 66.0
  const TokenIceMargin: real := 56.0
  const HazardSlow: real := 0.18
  const ResetTime: real := 0.22
  const ResetShield: real := 1.2
  const DriveAccel: real := 1750.0
  const SteerAccel: real := 1350.0
  const MaxSpeed: real := 620.0
  const PickupDist: real := 32.0
  const TokenScore: int := 12
  /** `collected = -9999` after the clear, so that it cannot fire again. */
  const Cleared: int := -9999

  datatype IceZone = IceZone(x: real, y: real, w: real, h: real, vx: real)

  datatype Token = Token(x: real, y: real, alive: bool)

  datatype Circle = Circle(x: real, y: real, r: real)

  /** The result of a retry loop: what it placed, if anything, and the next unused draw. */
  datatype Placed<T> = Placed(item: Option<T>, next: nat)

  /** The fields of the `skate` record. */
  datatype SState = SState(spawn: Circle, player: Body, pr: real, goal: int, collected: int,
                           tokens: seq<Token>, ice: seq<IceZone>,
                           spawnShield: real, resetting: bool, resetT: real)

  /** One frame's result: the new record, the score gained, whether the clear fired
      ("Cleared!"), whether the ice was touched ("Slowed!") and whether the reset completed ("Reset!"). */
  datatype SFrame = SFrame(state: SState, gain: int, cleared: bool, slowed: bool, reset: bool)

  function ZoneRect(z: IceZone): Rect { Rect(z.x, z.y, z.w, z.h) }

  /*
   * makeIceZones
   */

  /** `rand(120, 190) * (Math.random() < 0.5 ? -1 : 1)` for the draws `u` and `v`. */
  function ZoneSpeed(u: real, v: real): (vx: real)
    requires 0.0 <= u < 1.0
    ensures 120.0 <= Abs(vx) <= 190.0
    ensures v < 0.5 <==> vx < 0.0
  {
    var s := Rand(u, 120.0, 190.0);
    if v < 0.5 then -s else s
  }

  /** Where a zone of `makeIceZones` lies: x in [-zw, w], y in [0.22h, 0.84h - zh], speed in [120, 190]. */
  predicate ZonePlaced(w: real, h: real, z: IceZone)
  {
    && (-z.w <= w ==> -z.w <= z.x <= w)
    && (h * 0.22 <= h * 0.84 - z.h ==> h * 0.22 <= z.y <= h * 0.84 - z.h)
    && 120.0 <= Abs(z.vx) <= 190.0
  }

  /** The whole shape of a zone: placed as above, `0.18w <= zw <= 0.26w` and `22 <= zh <= 34`. */
  predicate IceShape(w: real, h: real, z: IceZone)
  {
    && ZonePlaced(w, h, z)
    && (0.0 <= w ==> w * 0.18 <= z.w <= w * 0.26)
    && 22.0 <= z.h <= 34.0
  }

  /** Does the zone at (`x`, `y`) touch the spawn circle of `makeIceZones`? */
  predicate NearSpawn(w: real, h: real, x: real, y: real, zw: real, zh: real)
  {
    CircleRectHit(w * 0.5, h * 0.55, IceSpawnR, Rect(x, y, zw, zh))
  }

  /** A zone of size `zw` by `zh` placed from the draws `n` on: its `y`, its `x`, then its speed. */
  function IceCandidate(w: real, h: real, zw: real, zh: real, rnd: Stream, n: nat): (z: IceZone)
    requires IsRandom(rnd)
  {
    var y := Rand(rnd(n), h * 0.22, h * 0.84 - zh);
    var x := Rand(rnd(n + 1), -zw, w);
    IceZone(x, y, zw, zh, ZoneSpeed(rnd(n + 2), rnd(n + 3)))
  }

  /** The retry loop of `makeIceZones` from try `tries` on, reading draws from `c`. */
  function IceTry(w: real, h: real, zw: real, zh: real, rnd: Stream, c: nat, tries: nat): (p: Placed<IceZone>)
    requires IsRandom(rnd) && tries <= IceTries
    ensures p.item.Some? ==>
              && p.item.value.w == zw && p.item.value.h == zh
              && !NearSpawn(w, h, p.item.value.x, p.item.value.y, zw, zh)
              && ZonePlaced(w, h, p.item.value)
    decreases IceTries - tries
  {
    if tries >= IceTries then Placed(None, c)
    else
      var z := IceCandidate(w, h, zw, zh, rnd, c);
      if NearSpawn(w, h, z.x, z.y, zw, zh) then IceTry(w, h, zw, zh, rnd, c + 2, tries + 1)
      else Placed(Some(z), c + 4)
  }

  /** A zone of size `zw` by `zh`: the one the tries found, else one placed anywhere. */
  function IceZoneOf(w: real, h: real, zw: real, zh: real, rnd: Stream, c: nat): (r: Placed<IceZone>)
    requires IsRandom(rnd)
  {
    var p := IceTry(w, h, zw, zh, rnd, c, 0);
    if p.item.Some? then p else Placed(Some(IceCandidate(w, h, zw, zh, rnd, p.next)), p.next + 4)
  }

  /**
   * One zone of `makeIceZones`: its size, then up to 80 tries for a place clear of the spawn
   * circle, then a place anywhere.  The zone is the one the tries found whenever they found one.
   */
  function IceZoneAt(w: real, h: real, rnd: Stream, c: nat): (r: Placed<IceZone>)
    requires IsRandom(rnd)
    ensures r.item.Some? && IceShape(w, h, r.item.value)
    ensures var zw := Rand(rnd(c), w * 0.18, w * 0.26);
            var zh := Rand(rnd(c + 1), 22.0, 34.0);
            var p := IceTry(w, h, zw, zh, rnd, c + 2, 0);
            p.item.Some? ==> r == p
  {
    IceZoneOf(w, h, Rand(rnd(c), w * 0.18, w * 0.26), Rand(rnd(c + 1), 22.0, 34.0), rnd, c + 2)
  }

  /** `makeIceZones(w, h)` with `count` zones. */
  function MakeIce(w: real, h: real, rnd: Stream, c: nat, count: nat): (r: (seq<IceZone>, nat))
    requires IsRandom(rnd)
    ensures |r.0| == count
    ensures forall i :: 0 <= i < count ==> IceShape(w, h, r.0[i])
  {
    if count == 0 then ([], c)
    else
      var (zs, c1) := MakeIce(w, h, rnd, c, count - 1);
      var z := IceZoneAt(w, h, rnd, c1);
      (zs + [z.item.value], z.next)
  }

  /** The retry loop of `makeIceZones` for a zone of size `zw` by `zh`. */
  method TryPlaceZone(w: real, h: real, zw: real, zh: real, rnd: Stream, c: nat) returns (p: Placed<IceZone>)
    requires IsRandom(rnd)
    ensures p == IceTry(w, h, zw, zh, rnd, c, 0)
  {
    var cur: nat := c;
    var placed := false;
    var zone := IceZone(0.0, 0.0, 0.0, 0.0, 0.0);
    var tries: nat := 0;
    while tries < IceTries && !placed
      invariant tries <= IceTries
      invariant IceTry(w, h, zw, zh, rnd, c, 0)
                == if placed then Placed(Some(zone), cur) else IceTry(w, h, zw, zh, rnd, cur, tries)
      decreases IceTries - tries
    {
      var z := IceCandidate(w, h, zw, zh, rnd, cur);
      if NearSpawn(w, h, z.x, z.y, zw, zh) {
        cur := cur + 2;
      } else {
        zone, cur := z, cur + 4;
        placed := true;
      }
      tries := tries + 1;
    }
    p := if placed then Placed(Some(zone), cur) else Placed(None, cur);
  }

  /** One zone of `makeIceZones`: the body of its outer loop. */
  method PlaceZone(w: real, h: real, rnd: Stream, c: nat) returns (zone: IceZone, next: nat)
    requires IsRandom(rnd)
    ensures Placed(Some(zone), next) == IceZoneAt(w, h, rnd, c)
  {
    var zw := Rand(rnd(c), w * 0.18, w * 0.26);
    var zh := Rand(rnd(c + 1), 22.0, 34.0);
    var p := TryPlaceZone(w, h, zw, zh, rnd, c + 2);
    if p.item.Some? {
      zone, next := p.item.value, p.next;
    } else {
      zone, next := IceCandidate(w, h, zw, zh, rnd, p.next), p.next + 4;
    }
  }

  /** `makeIceZones(w, h)` over the draws `rnd(c)`, `rnd(c + 1)`, ... */
  method MakeIceZones(w: real, h: real, rnd: Stream, c: nat) returns (zones: seq<IceZone>, next: nat)
    requires IsRandom(rnd)
    ensures (zones, next) == MakeIce(w, h, rnd, c, IceCount)
    ensures |zones| == IceCount && forall i :: 0 <= i < |zones| ==> IceShape(w, h, zones[i])
  {
    zones := [];
    next := c;
    var i := 0;
    while i < IceCount
      invariant 0 <= i <= IceCount
      invariant (zones, next) == MakeIce(w, h, rnd, c, i)
    {
      var zone;
      zone, next := PlaceZone(w, h, rnd, next);
      zones := zones + [zone];
      i := i + 1;
    }
  }

  /*
   * updateIceZones
   */

  /** The wrap range of a zone on a stage of width `w` is positive. */
  predicate Wrappable(ice: seq<IceZone>, w: real)
  {
    forall i :: 0 <= i < |ice| ==> w + ice[i].w + 20.0 > 0.0
  }

  /**
   * The wrap of `updateIceZones`: `nx = (x + off) % range`, plus `range` when negative, and
   * back by `off`, with JavaScript's `%`.  The result lies in `[-off, range - off)`.
   */
  function WrapCoord(x: real, off: real, range: real): (r: real)
    requires range > 0.0
    ensures -off <= r < range - off
  {
    var nx := JsRem(x + off, range);
    (if nx < 0.0 then nx + range else nx) - off
  }

  /** A coordinate already in `[-off, range - off)` is not wrapped. */
  lemma WrapCoordInside(x: real, off: real, range: real)
    requires range > 0.0 && -off <= x < range - off
    ensures WrapCoord(x, off, range) == x
  {
    var v := x + off;
    RemSmall(v, range);
  }

  /** The wrap moves a coordinate by a whole number `k` of ranges. */
  lemma WrapCoordShift(x: real, off: real, range: real) returns (k: int)
    requires range > 0.0
    ensures WrapCoord(x, off, range) == x - (k as real) * range
  {
    var v := x + off;
    var r := JsRem(v, range);
    var t := Trunc(v / range) as real;
    assert v - r == t * range;
    if r < 0.0 {
      ShiftOne(t, range);
      k := Trunc(v / range) - 1;
      assert (k as real) == t - 1.0;
    } else {
      k := Trunc(v / range);
    }
  }

  /**
   * One zone of `updateIceZones`: move by `vx * dt`, then wrap into the range
   * `[-(zw + 10), w + 10)` of length `w + zw + 20`.
   */
  function WrapZone(z: IceZone, dt: real, w: real): (r: IceZone)
    requires w + z.w + 20.0 > 0.0
    ensures r == z.(x := r.x)
    ensures -(z.w + 10.0) <= r.x < w + 10.0
  {
    z.(x := WrapCoord(z.x + z.vx * dt, z.w + 10.0, w + z.w + 20.0))
  }

  lemma ShiftOne(t: real, m: real)
    ensures (t - 1.0) * m == t * m - m
  {
  }

  /** With `0 <= x < m`, `x % m` is `x`. */
  lemma RemSmall(x: real, m: real)
    requires 0.0 <= x < m
    ensures JsRem(x, m) == x
  {
    var q := x / m;
    assert q * m == x;
    if q >= 1.0 {
      MulNonNeg(q - 1.0, m);
      ShiftOne(q, m);
    }
    assert Trunc(q) == 0;
  }

  /** `updateIceZones(dt)` on the zones. */
  function WrapAll(ice: seq<IceZone>, dt: real, w: real): (r: seq<IceZone>)
    requires Wrappable(ice, w)
    ensures |r| == |ice|
  {
    seq(|ice|, i requires 0 <= i < |ice| => WrapZone(ice[i], dt, w))
  }

  /** After `updateIceZones` every zone lies in its wrap range and has kept its size and speed. */
  lemma WrapAllInRange(ice: seq<IceZone>, dt: real, w: real)
    requires Wrappable(ice, w)
    ensures Wrappable(WrapAll(ice, dt, w), w)
    ensures forall i :: 0 <= i < |ice| ==>
              var z := WrapAll(ice, dt, w)[i];
              -(z.w + 10.0) <= z.x < w + 10.0 && z == ice[i].(x := z.x)
  {
  }

  /*
   * safeTokenPos
   */

  /** The rectangle of a zone grown by `radius` on every side. */
  function Inflate(z: IceZone, radius: real): Rect
  {
    Rect(z.x - radius, z.y - radius, z.w + radius * 2.0, z.h + radius * 2.0)
  }

  /** `safeTokenPos(x, y, ice, radius)`: a unit circle at the point touches no grown zone. */
  function SafeTokenPos(x: real, y: real, ice: seq<IceZone>, radius: real): bool
  {
    forall i :: 0 <= i < |ice| ==> !CircleRectHit(x, y, 1.0, Inflate(ice[i], radius))
  }

  /** A safe point lies outside every zone grown by `radius`. */
  lemma SafeTokenPosOutside(x: real, y: real, ice: seq<IceZone>, radius: real, i: nat)
    requires SafeTokenPos(x, y, ice, radius) && i < |ice|
    ensures var r := Inflate(ice[i], radius);
            !(r.x <= x <= r.x + r.w && r.y <= y <= r.y + r.h)
  {
    var r := Inflate(ice[i], radius);
    assert !CircleRectHit(x, y, 1.0, r);
    if r.x <= x <= r.x + r.w && r.y <= y <= r.y + r.h {
      CircleRectHitInside(x, y, 1.0, r);
    }
  }

  /** A point at least 1 away from every grown zone, along some axis, is safe. */
  lemma SafeTokenPosAway(x: real, y: real, ice: seq<IceZone>, radius: real)
    requires forall i :: 0 <= i < |ice| ==> 0.0 <= Inflate(ice[i], radius).w && 0.0 <= Inflate(ice[i], radius).h
    requires forall i :: 0 <= i < |ice| ==>
               var r := Inflate(ice[i], radius);
               x + 1.0 <= r.x || r.x + r.w <= x - 1.0 || y + 1.0 <= r.y || r.y + r.h <= y - 1.0
    ensures SafeTokenPos(x, y, ice, radius)
  {
    forall i | 0 <= i < |ice|
      ensures !CircleRectHit(x, y, 1.0, Inflate(ice[i], radius))
    {
      CircleRectHitSeparated(x, y, 1.0, Inflate(ice[i], radius));
    }
  }

  /*
   * initSkate
   */

  /** No earlier token is closer than 66 (`dist(x, y, t.x, t.y) < tokenMinDist` rejects). */
  predicate TokenFar(x: real, y: real, tokens: seq<Token>, hypot: Hypot)
  {
    forall i :: 0 <= i < |tokens| ==> hypot(x - tokens[i].x, y - tokens[i].y) >= TokenMinDist
  }

  /** Where a heart of `initSkate` lies: x in [70, w - 70], y in [80, h - 80], alive. */
  predicate TokenShape(w: real, h: real, t: Token)
  {
    && (70.0 <= w - 70.0 ==> 70.0 <= t.x <= w - 70.0)
    && (80.0 <= h - 80.0 ==> 80.0 <= t.y <= h - 80.0)
    && t.alive
  }

  /** The place of a heart from the draws `c` and `c + 1`. */
  function HeartSpot(w: real, h: real, rnd: Stream, c: nat): (t: Token)
    requires IsRandom(rnd)
    ensures TokenShape(w, h, t)
  {
    Token(Rand(rnd(c), 70.0, w - 70.0), Rand(rnd(c + 1), 80.0, h - 80.0), true)
  }

  /** A heart at `t` is clear of the ice and of the hearts placed before it. */
  predicate HeartClear(t: Token, ice: seq<IceZone>, placed: seq<Token>, hypot: Hypot)
  {
    SafeTokenPos(t.x, t.y, ice, TokenIceMargin) && TokenFar(t.x, t.y, placed, hypot)
  }

  /** The retry loop for one heart from try `tries` on. */
  function TokenTry(w: real, h: real, ice: seq<IceZone>, placed: seq<Token>, rnd: Stream, c: nat, tries: nat, hypot: Hypot)
    : (p: Placed<Token>)
    requires IsRandom(rnd) && tries <= TokenTries
    ensures p.item.Some? ==>
              && TokenShape(w, h, p.item.value)
              && SafeTokenPos(p.item.value.x, p.item.value.y, ice, TokenIceMargin)
              && TokenFar(p.item.value.x, p.item.value.y, placed, hypot)
    decreases TokenTries - tries
  {
    if tries >= TokenTries then Placed(None, c)
    else
      var t := HeartSpot(w, h, rnd, c);
      if !HeartClear(t, ice, placed, hypot) then TokenTry(w, h, ice, placed, rnd, c + 2, tries + 1, hypot)
      else Placed(Some(t), c + 2)
  }

  /** One heart: the first try that is clear of the ice and of the earlier hearts, else a place anywhere. */
  function TokenAt(w: real, h: real, ice: seq<IceZone>, placed: seq<Token>, rnd: Stream, c: nat, hypot: Hypot)
    : (r: Placed<Token>)
    requires IsRandom(rnd)
    ensures r.item.Some? && TokenShape(w, h, r.item.value)
    ensures TokenTry(w, h, ice, placed, rnd, c, 0, hypot).item.Some? ==> r == TokenTry(w, h, ice, placed, rnd, c, 0, hypot)
  {
    var p := TokenTry(w, h, ice, placed, rnd, c, 0, hypot);
    if p.item.Some? then p
    else Placed(Some(HeartSpot(w, h, rnd, p.next)), p.next + 2)
  }

  /** The hearts of `initSkate`, `count` of them. */
  function PlaceTokens(w: real, h: real, ice: seq<IceZone>, rnd: Stream, c: nat, count: nat, hypot: Hypot)
    : (r: (seq<Token>, nat))
    requires IsRandom(rnd)
    ensures |r.0| == count
    ensures forall i :: 0 <= i < count ==> TokenShape(w, h, r.0[i])
  {
    if count == 0 then ([], c)
    else
      var (ts, c1) := PlaceTokens(w, h, ice, rnd, c, count - 1, hypot);
      var t := TokenAt(w, h, ice, ts, rnd, c1, hypot);
      (ts + [t.item.value], t.next)
  }

  /** `for (const t of skate.tokens) if (dist(x, y, t.x, t.y) < tokenMinDist) { ok = false; break; }` */
  method FarFromAll(x: real, y: real, tokens: seq<Token>, hypot: Hypot) returns (ok: bool)
    ensures ok == TokenFar(x, y, tokens, hypot)
  {
    ok := true;
    var i := 0;
    while i < |tokens|
      invariant 0 <= i <= |tokens|
      invariant forall j :: 0 <= j < i ==> hypot(x - tokens[j].x, y - tokens[j].y) >= TokenMinDist
    {
      if hypot(x - tokens[i].x, y - tokens[i].y) < TokenMinDist {
        ok := false;
        return;
      }
      i := i + 1;
    }
  }

  /** One heart of `initSkate`: the body of its outer loop. */
  method PlaceHeart(w: real, h: real, ice: seq<IceZone>, tokens: seq<Token>, rnd: Stream, c: nat, hypot: Hypot)
    returns (token: Token, next: nat)
    requires IsRandom(rnd)
    ensures Placed(Some(token), next) == TokenAt(w, h, ice, tokens, rnd, c, hypot)
  {
    var cur: nat := c;
    var placed := false;
    token := Token(0.0, 0.0, true);
    var tries: nat := 0;
    while tries < TokenTries && !placed
      invariant tries <= TokenTries
      invariant TokenTry(w, h, ice, tokens, rnd, c, 0, hypot)
                == if placed then Placed(Some(token), cur) else TokenTry(w, h, ice, tokens, rnd, cur, tries, hypot)
      decreases TokenTries - tries
    {
      var t := HeartSpot(w, h, rnd, cur);
      cur := cur + 2;
      if SafeTokenPos(t.x, t.y, ice, TokenIceMargin) {
        var ok := FarFromAll(t.x, t.y, tokens, hypot);
        if ok {
          token := t;
          placed := true;
        }
      }
      tries := tries + 1;
    }
    if !placed {
      token := HeartSpot(w, h, rnd, cur);
      cur := cur + 2;
    }
    next := cur;
  }

  /** The heart-placing loops of `initSkate`. */
  method PlaceHearts(w: real, h: real, ice: seq<IceZone>, rnd: Stream, c: nat, hypot: Hypot)
    returns (tokens: seq<Token>, next: nat)
    requires IsRandom(rnd)
    ensures (tokens, next) == PlaceTokens(w, h, ice, rnd, c, Goal, hypot)
    ensures |tokens| == Goal && forall i :: 0 <= i < |tokens| ==> TokenShape(w, h, tokens[i])
  {
    tokens := [];
    next := c;
    var i := 0;
    while i < Goal
      invariant 0 <= i <= Goal
      invariant (tokens, next) == PlaceTokens(w, h, ice, rnd, c, i, hypot)
    {
      var token;
      token, next := PlaceHeart(w, h, ice, tokens, rnd, next, hypot);
      tokens := tokens + [token];
      i := i + 1;
    }
  }

  /** The record `initSkate` builds around the zones and hearts it placed. */
  function Initial(w: real, h: real, ice: seq<IceZone>, tokens: seq<Token>): SState
  {
    SState(Circle(w * 0.5, h * 0.55, SpawnR), Body(w * 0.5, h * 0.55, 0.0, 0.0), PlayerR, Goal, 0,
           tokens, ice, StartShield, false, 0.0)
  }

  /** `initSkate()`: the zones first, then the hearts, from the draws `rnd(c)`, `rnd(c + 1)`, ... */
  function InitSkate(w: real, h: real, rnd: Stream, c: nat, hypot: Hypot): (r: (SState, nat))
    requires IsRandom(rnd)
  {
    var (ice, c1) := MakeIce(w, h, rnd, c, IceCount);
    var (ts, c2) := PlaceTokens(w, h, ice, rnd, c1, Goal, hypot);
    (Initial(w, h, ice, ts), c2)
  }

  /*
   * updateSkate
   */

  /** Number of live tokens among the first `n`. */
  function AliveIn(ts: seq<Token>, n: nat): (c: nat)
    requires n <= |ts|
    ensures c <= n
  {
    if n == 0 then 0 else AliveIn(ts, n - 1) + (if ts[n - 1].alive then 1 else 0)
  }

  function AliveCount(ts: seq<Token>): nat { AliveIn(ts, |ts|) }

  /** Number of tokens among the first `n` that are alive in `before` and dead in `after`. */
  function TakenIn(before: seq<Token>, after: seq<Token>, n: nat): nat
    requires n <= |before| && n <= |after|
  {
    if n == 0 then 0
    else TakenIn(before, after, n - 1) + (if before[n - 1].alive && !after[n - 1].alive then 1 else 0)
  }

  /**
   * What a `skate` record keeps between frames: the shield and the reset timer are not
   * negative, the zones keep a non-negative width, and either every heart is collected or still
   * alive (`collected` plus the live hearts is `goal`), or the clear has fired and no heart is left.
   */
  predicate Valid(s: SState)
  {
    && 0.0 <= s.spawnShield
    && 0.0 <= s.resetT
    && 0 <= s.goal
    && (forall i :: 0 <= i < |s.ice| ==> 0.0 <= s.ice[i].w)
    && ((0 <= s.collected && s.collected + AliveCount(s.tokens) == s.goal)
        || (s.collected == Cleared && AliveCount(s.tokens) == 0))
  }

  /** Every heart of a fresh record is alive. */
  lemma {:induction false} AllAlive(ts: seq<Token>, n: nat)
    requires n <= |ts| && forall i :: 0 <= i < |ts| ==> ts[i].alive
    ensures AliveIn(ts, n) == n
  {
    if n > 0 {
      AllAlive(ts, n - 1);
    }
  }

  /** `initSkate` starts a valid record on a stage of non-negative width. */
  lemma InitSkateValid(w: real, h: real, rnd: Stream, c: nat, hypot: Hypot)
    requires IsRandom(rnd) && 0.0 <= w
    ensures Valid(InitSkate(w, h, rnd, c, hypot).0)
    ensures |InitSkate(w, h, rnd, c, hypot).0.tokens| == Goal
  {
    var (ice, c1) := MakeIce(w, h, rnd, c, IceCount);
    var (ts, c2) := PlaceTokens(w, h, ice, rnd, c1, Goal, hypot);
    AllAlive(ts, |ts|);
  }

  /** Is the player within the spawn circle? */
  predicate InSpawn(s: SState, hypot: Hypot)
  {
    hypot(s.player.x - s.spawn.x, s.player.y - s.spawn.y) <= s.spawn.r
  }

  /** Does a circle of radius `pr` at the player touch some zone? */
  predicate HitsIce(p: Body, pr: real, ice: seq<IceZone>)
  {
    exists i :: 0 <= i < |ice| && CircleRectHit(p.x, p.y, pr, ZoneRect(ice[i]))
  }

  /** The head of `updateSkate`: `updateIceZones(dt)` and `spawnShield = max(0, spawnShield - dt)`. */
  function Shielded(s: SState, dt: real, w: real): (r: SState)
    requires Wrappable(s.ice, w)
    ensures 0.0 <= r.spawnShield
    ensures r.spawnShield > 0.0 <==> s.spawnShield > dt
    ensures r.spawnShield > 0.0 ==> r.spawnShield == s.spawnShield - dt
    ensures r == s.(ice := r.ice, spawnShield := r.spawnShield)
  {
    s.(ice := WrapAll(s.ice, dt, w), spawnShield := Max(0.0, s.spawnShield - dt))
  }

  /** A touch starts a reset only outside the spawn circle, with no shield and not already resetting. */
  predicate Touches(s: SState, hypot: Hypot)
  {
    !s.resetting && !InSpawn(s, hypot) && s.spawnShield <= 0.0 && HitsIce(s.player, s.pr, s.ice)
  }

  /** The touch: start a reset and keep 0.18 of the velocity. */
  function Slow(s: SState): (r: SState)
    ensures r.resetting && r.resetT == 0.0
    ensures r.player == s.player.(vx := s.player.vx * HazardSlow, vy := s.player.vy * HazardSlow)
    ensures r == s.(resetting := r.resetting, resetT := r.resetT, player := r.player)
  {
    s.(resetting := true, resetT := 0.0, player := Damp(s.player, HazardSlow))
  }

  /** The rink `updateSkate` integrates in: the stage inset by the player's radius. */
  function Rink(w: real, h: real, pr: real): Bounds { Bounds(0.0, 0.0, w, h, pr) }

  /** A reset frame: damp and move; after 0.22 s the player is back at the spawn point, at rest and shielded. */
  function ResetStep(s: SState, dt: real, w: real, h: real, d55: real, hypot: Hypot): (r: SState)
  {
    var t := s.resetT + dt;
    var p := Integrated(Damp(s.player, d55), dt, Some(Rink(w, h, s.pr)), hypot);
    if t >= ResetTime then
      s.(player := Body(s.spawn.x, s.spawn.y, 0.0, 0.0), resetT := t, resetting := false, spawnShield := ResetShield)
    else s.(player := p, resetT := t)
  }

  /** A heart within 32 of the player is collected. */
  function Pickup(t: Token, p: Body, hypot: Hypot): Token
  {
    if t.alive && hypot(p.x - t.x, p.y - t.y) < PickupDist then t.(alive := false) else t
  }

  /** The heart loop of `updateSkate`. */
  function Collect(ts: seq<Token>, p: Body, hypot: Hypot): (r: seq<Token>)
    ensures |r| == |ts|
  {
    seq(|ts|, i requires 0 <= i < |ts| => Pickup(ts[i], p, hypot))
  }

  /** The heart loop keeps every heart's place; a heart stays alive exactly when it was alive and at least 32 away. */
  lemma CollectAlive(ts: seq<Token>, p: Body, hypot: Hypot)
    ensures var r := Collect(ts, p, hypot);
      forall i :: 0 <= i < |ts| ==>
        && r[i].x == ts[i].x && r[i].y == ts[i].y
        && (r[i].alive <==> ts[i].alive && hypot(p.x - ts[i].x, p.y - ts[i].y) >= PickupDist)
  {
  }

  /** Each collected heart was alive, within 32, and is one less live heart. */
  lemma {:induction false} CollectCounts(ts: seq<Token>, p: Body, hypot: Hypot, n: nat)
    requires n <= |ts|
    ensures AliveIn(Collect(ts, p, hypot), n) + TakenIn(ts, Collect(ts, p, hypot), n) == AliveIn(ts, n)
  {
    if n > 0 {
      CollectCounts(ts, p, hypot, n - 1);
    }
  }

  /** The end of a normal frame: move, collect hearts (12 points each), and the clear. */
  function Play(s: SState, p: Body, dt: real, w: real, h: real, hypot: Hypot): SFrame
  {
    var q := Integrated(p, dt, Some(Rink(w, h, s.pr)), hypot);
    var ts := Collect(s.tokens, q, hypot);
    var n := TakenIn(s.tokens, ts, |ts|);
    var c := s.collected + n;
    var s3 := s.(player := q, tokens := ts, collected := c);
    if c >= s.goal then SFrame(s3.(collected := Cleared), TokenScore * n, true, false, false)
    else SFrame(s3, TokenScore * n, false, false, false)
  }

  /** The hazard check of `updateSkate`, on the record after the shield update. */
  function Hazard(s: SState, hypot: Hypot): (SState, bool)
  {
    if Touches(s, hypot) then (Slow(s), true) else (s, false)
  }

  /**
   * `updateSkate(dt)` on a stage of `w` by `h`, with the frame's keys and pointer and the
   * factors `d55 = dampFactor(0.55, dt)` and `d90 = dampFactor(0.90, dt)`.
   */
  function Updated(s: SState, dt: real, w: real, h: real, keys: Keys, ptr: Pointer, d55: real, d90: real, hypot: Hypot)
    : SFrame
    requires IsHypot(hypot) && Wrappable(s.ice, w)
  {
    var s1 := Shielded(s, dt, w);
    var (s2, touch) := Hazard(s1, hypot);
    if s2.resetting then
      var s3 := ResetStep(s2, dt, w, h, d55, hypot);
      SFrame(s3, 0, false, touch, !s3.resetting)
    else
      Play(s2, Drive(s2.player, dt, keys, ptr, DriveAccel, SteerAccel, d90, MaxSpeed, hypot), dt, w, h, hypot)
  }

  /**
   * The clear of a normal frame on a valid record: it fires exactly when no heart is left and
   * the clear has not fired before, leaves `collected` at -9999, and keeps the record valid.
   * Every heart collected is worth 12.
   */
  lemma PlayClear(s: SState, p: Body, dt: real, w: real, h: real, hypot: Hypot)
    requires Valid(s)
    ensures var r := Play(s, p, dt, w, h, hypot);
      && Valid(r.state)
      && r.state.resetting == s.resetting && r.state.resetT == s.resetT && r.state.spawnShield == s.spawnShield
      && (r.cleared ==> r.state.collected == Cleared && AliveCount(r.state.tokens) == 0)
      && (r.cleared <==> s.collected != Cleared && AliveCount(r.state.tokens) == 0)
      && (s.collected == Cleared ==> !r.cleared && r.state.collected == Cleared)
      && r.gain == TokenScore * TakenIn(s.tokens, r.state.tokens, |s.tokens|)
  {
    var q := Integrated(p, dt, Some(Rink(w, h, s.pr)), hypot);
    CollectCounts(s.tokens, q, hypot, |s.tokens|);
  }

  /** `after` is `before` with exactly the live hearts within 32 of `p` collected. */
  predicate PickedUp(before: seq<Token>, after: seq<Token>, p: Body, hypot: Hypot)
  {
    && |after| == |before|
    && (forall i :: 0 <= i < |before| && before[i].alive && !after[i].alive ==>
          hypot(p.x - before[i].x, p.y - before[i].y) < PickupDist)
    && (forall i :: 0 <= i < |before| && before[i].alive && hypot(p.x - before[i].x, p.y - before[i].y) < PickupDist ==>
          !after[i].alive)
  }

  /** In a normal frame a live heart is collected exactly when it lies within 32 of the moved player, who ends in the rink. */
  lemma PlayPickup(s: SState, p: Body, dt: real, w: real, h: real, hypot: Hypot)
    ensures var r := Play(s, p, dt, w, h, hypot);
      && PickedUp(s.tokens, r.state.tokens, r.state.player, hypot)
      && (Rink(w, h, s.pr).NonEmpty() ==> Rink(w, h, s.pr).Contains(r.state.player.x, r.state.player.y))
  {
    var q := Integrated(p, dt, Some(Rink(w, h, s.pr)), hypot);
    var ts := Collect(s.tokens, q, hypot);
    var r := Play(s, p, dt, w, h, hypot);
    assert r.state.player == q && r.state.tokens == ts;
    CollectAlive(s.tokens, q, hypot);
    if Rink(w, h, s.pr).NonEmpty() {
      IntegratedInside(p, dt, Rink(w, h, s.pr), hypot);
    }
  }

  /**
   * The hazard rules: the shield is never negative afterwards, a touch ("Slowed!") happens
   * exactly when the player, outside the spawn circle, with no shield left and not resetting,
   * touches a moved zone, and no heart is collected in a frame that is resetting.
   */
  lemma UpdateHazard(s: SState, dt: real, w: real, h: real, keys: Keys, ptr: Pointer, d55: real, d90: real, hypot: Hypot)
    requires IsHypot(hypot) && Wrappable(s.ice, w)
    ensures var r := Updated(s, dt, w, h, keys, ptr, d55, d90, hypot);
      && 0.0 <= r.state.spawnShield
      && (r.slowed <==> !s.resetting && !InSpawn(s, hypot) && s.spawnShield - dt <= 0.0
                        && HitsIce(s.player, s.pr, WrapAll(s.ice, dt, w)))
      && (s.resetting || r.slowed ==>
            r.state.tokens == s.tokens && r.state.collected == s.collected && r.gain == 0 && !r.cleared)
  {
  }

  /** A frame with a touch: the velocity is first cut to 0.18, and the reset starts from 0. */
  lemma UpdateTouch(s: SState, dt: real, w: real, h: real, keys: Keys, ptr: Pointer, d55: real, d90: real, hypot: Hypot)
    requires IsHypot(hypot) && Wrappable(s.ice, w)
    requires Updated(s, dt, w, h, keys, ptr, d55, d90, hypot).slowed
    ensures var r := Updated(s, dt, w, h, keys, ptr, d55, d90, hypot);
      var slowed := Slow(Shielded(s, dt, w));
      && slowed.player.vx == s.player.vx * HazardSlow && slowed.player.vy == s.player.vy * HazardSlow
      && r.state == ResetStep(slowed, dt, w, h, d55, hypot)
      && (dt >= ResetTime <==> !r.state.resetting)
  {
  }

  /**
   * A reset frame ends the reset once `resetT` reaches 0.22: the player is then at the spawn
   * point at rest, no longer resetting and shielded for 1.2 s ("Reset!").  Before that it is
   * still resetting and stays in the rink.
   */
  lemma UpdateReset(s: SState, dt: real, w: real, h: real, keys: Keys, ptr: Pointer, d55: real, d90: real, hypot: Hypot)
    requires IsHypot(hypot) && Wrappable(s.ice, w)
    requires s.resetting
    ensures var r := Updated(s, dt, w, h, keys, ptr, d55, d90, hypot);
      && (s.resetT + dt >= ResetTime ==>
            r.state.player == Body(s.spawn.x, s.spawn.y, 0.0, 0.0) && !r.state.resetting
            && r.state.spawnShield == ResetShield && r.reset)
      && (s.resetT + dt < ResetTime ==>
            r.state.resetting && !r.reset && r.state.resetT == s.resetT + dt
            && (Rink(w, h, s.pr).NonEmpty() ==> Rink(w, h, s.pr).Contains(r.state.player.x, r.state.player.y)))
  {
    if Rink(w, h, s.pr).NonEmpty() {
      var q := Damp(s.player, d55);
      IntegratedInside(q, dt, Rink(w, h, s.pr), hypot);
    }
  }

  /**
   * The clear over a whole frame: a valid record stays valid, the clear fires exactly when the
   * last heart is collected in a normal frame, and once it has fired it never fires again.
   */
  lemma UpdateClear(s: SState, dt: real, w: real, h: real, keys: Keys, ptr: Pointer, d55: real, d90: real, hypot: Hypot)
    requires IsHypot(hypot) && Wrappable(s.ice, w) && Valid(s) && 0.0 <= dt
    ensures var r := Updated(s, dt, w, h, keys, ptr, d55, d90, hypot);
      && Valid(r.state)
      && (r.cleared ==> r.state.collected == Cleared && AliveCount(r.state.tokens) == 0)
      && (r.cleared <==> s.collected != Cleared && !r.slowed && !s.resetting && AliveCount(r.state.tokens) == 0)
      && (s.collected == Cleared ==> !r.cleared && r.state.collected == Cleared)
      && r.gain == TokenScore * TakenIn(s.tokens, r.state.tokens, |s.tokens|)
  {
    var s1 := Shielded(s, dt, w);
    ShieldedValid(s, dt, w);
    var (s2, touch) := Hazard(s1, hypot);
    if !s2.resetting {
      PlayClear(s2, Drive(s2.player, dt, keys, ptr, DriveAccel, SteerAccel, d90, MaxSpeed, hypot), dt, w, h, hypot);
    } else {
      TakenNone(s.tokens, |s.tokens|);
    }
  }

  /** The head of the frame keeps the record valid. */
  lemma ShieldedValid(s: SState, dt: real, w: real)
    requires Wrappable(s.ice, w) && Valid(s)
    ensures Valid(Shielded(s, dt, w))
  {
    WrapAllInRange(s.ice, dt, w);
  }

  /** Nothing is taken between a list and itself. */
  lemma {:induction false} TakenNone(ts: seq<Token>, n: nat)
    requires n <= |ts|
    ensures TakenIn(ts, ts, n) == 0
  {
    if n > 0 {
      TakenNone(ts, n - 1);
    }
  }

  /** In a normal frame a live heart is collected exactly when it lies within 32 of the moved player, who ends in the rink. */
  lemma UpdatePickup(s: SState, dt: real, w: real, h: real, keys: Keys, ptr: Pointer, d55: real, d90: real, hypot: Hypot)
    requires IsHypot(hypot) && Wrappable(s.ice, w)
    requires !s.resetting && !Updated(s, dt, w, h, keys, ptr, d55, d90, hypot).slowed
    ensures var r := Updated(s, dt, w, h, keys, ptr, d55, d90, hypot);
      && PickedUp(s.tokens, r.state.tokens, r.state.player, hypot)
      && (Rink(w, h, s.pr).NonEmpty() ==> Rink(w, h, s.pr).Contains(r.state.player.x, r.state.player.y))
  {
    var s1 := Shielded(s, dt, w);
    var p := Drive(s1.player, dt, keys, ptr, DriveAccel, SteerAccel, d90, MaxSpeed, hypot);
    UpdateNormal(s, dt, w, h, keys, ptr, d55, d90, hypot);
    PlayPickup(s1, p, dt, w, h, hypot);
  }

  /** A frame that neither resets nor slows is the normal frame on the shielded record. */
  lemma UpdateNormal(s: SState, dt: real, w: real, h: real, keys: Keys, ptr: Pointer, d55: real, d90: real, hypot: Hypot)
    requires IsHypot(hypot) && Wrappable(s.ice, w)
    requires !s.resetting && !Updated(s, dt, w, h, keys, ptr, d55, d90, hypot).slowed
    ensures var s1 := Shielded(s, dt, w);
      Updated(s, dt, w, h, keys, ptr, d55, d90, hypot)
      == Play(s1, Drive(s1.player, dt, keys, ptr, DriveAccel, SteerAccel, d90, MaxSpeed, hypot), dt, w, h, hypot)
  {
    var s1 := Shielded(s, dt, w);
    assert !Touches(s1, hypot);
  }

  /** The `skate` record. */
  class Skate {
    var spawn: Circle
    var player: Body
    var pr: real
    var goal: int
    var collected: int
    var tokens: seq<Token>
    var ice: seq<IceZone>
    var spawnShield: real
    var resetting: bool
    var resetT: real

    function Model(): SState
      reads this
    {
      SState(spawn, player, pr, goal, collected, tokens, ice, spawnShield, resetting, resetT)
    }

    /** The record of `initSkate` around the zones and hearts already placed. */
    constructor Init(w: real, h: real, zones: seq<IceZone>, hearts: seq<Token>)
      ensures Model() == Initial(w, h, zones, hearts)
    {
      spawn := Circle(w * 0.5, h * 0.55, SpawnR);
      player := Body(w * 0.5, h * 0.55, 0.0, 0.0);
      pr := PlayerR;
      goal := Goal;
      collected := 0;
      tokens := hearts;
      ice := zones;
      spawnShield := StartShield;
      resetting := false;
      resetT := 0.0;
    }

    /** `updateIceZones(dt)`. */
    method UpdateIceZones(dt: real, w: real)
      requires Wrappable(ice, w)
      modifies this
      ensures Model() == old(Model()).(ice := WrapAll(old(ice), dt, w))
    {
      var before := ice;
      var zs := before;
      var i := 0;
      while i < |zs|
        invariant 0 <= i <= |zs| == |before|
        invariant forall j :: 0 <= j < i ==> zs[j] == WrapZone(before[j], dt, w)
        invariant forall j :: i <= j < |zs| ==> zs[j] == before[j]
      {
        zs := zs[i := WrapZone(zs[i], dt, w)];
        i := i + 1;
      }
      assert zs == WrapAll(before, dt, w);
      ice := zs;
    }

    /** The hazard loop: does the player touch some zone? */
    method TouchesIce() returns (hit: bool)
      ensures hit == HitsIce(player, pr, ice)
    {
      var i := 0;
      while i < |ice|
        invariant 0 <= i <= |ice|
        invariant forall j :: 0 <= j < i ==> !CircleRectHit(player.x, player.y, pr, ZoneRect(ice[j]))
      {
        if CircleRectHit(player.x, player.y, pr, ZoneRect(ice[i])) {
          return true;
        }
        i := i + 1;
      }
      return false;
    }

    /** The hazard check: outside the spawn circle, with no shield and not resetting, a touch slows. */
    method CheckHazard(hypot: Hypot) returns (slowed: bool)
      modifies this
      ensures (Model(), slowed) == Hazard(old(Model()), hypot)
    {
      var inSafeZone := hypot(player.x - spawn.x, player.y - spawn.y) <= spawn.r;
      slowed := false;
      if !resetting && !inSafeZone && spawnShield <= 0.0 {
        slowed := TouchesIce();
        if slowed {
          resetting := true;
          resetT := 0.0;
          player := Damp(player, HazardSlow);
        }
      }
    }

    /** The heart loop: `taken` hearts collected. */
    method CollectHearts(hypot: Hypot) returns (taken: nat)
      modifies this
      ensures Model() == old(Model()).(tokens := Collect(old(tokens), player, hypot), collected := old(collected) + taken)
      ensures taken == TakenIn(old(tokens), tokens, |tokens|)
    {
      ghost var after := Collect(tokens, player, hypot);
      var ts := tokens;
      taken := 0;
      var i := 0;
      while i < |ts|
        invariant 0 <= i <= |ts| == |tokens|
        invariant forall j :: 0 <= j < i ==> ts[j] == after[j]
        invariant forall j :: i <= j < |ts| ==> ts[j] == tokens[j]
        invariant taken == TakenIn(tokens, after, i)
      {
        var t := ts[i];
        if t.alive && hypot(player.x - t.x, player.y - t.y) < PickupDist {
          ts := ts[i := t.(alive := false)];
          taken := taken + 1;
        }
        i := i + 1;
      }
      assert ts == after;
      tokens := ts;
      collected := collected + taken;
    }

    /** A reset frame. */
    method Resetting(dt: real, w: real, h: real, d55: real, hypot: Hypot) returns (done: bool)
      modifies this
      ensures Model() == ResetStep(old(Model()), dt, w, h, d55, hypot)
      ensures done == !resetting
    {
      resetT := resetT + dt;
      var p := Damp(player, d55);
      player := Integrate(p, dt, Some(Rink(w, h, pr)), hypot);
      if resetT >= ResetTime {
        player := Body(spawn.x, spawn.y, 0.0, 0.0);
        resetting := false;
        spawnShield := ResetShield;
      }
      done := !resetting;
    }

    /** A normal frame after the drive: move, collect, clear. */
    method Playing(p: Body, dt: real, w: real, h: real, hypot: Hypot) returns (gain: int, cleared: bool)
      modifies this
      ensures SFrame(Model(), gain, cleared, false, false) == Play(old(Model()), p, dt, w, h, hypot)
    {
      player := Integrate(p, dt, Some(Rink(w, h, pr)), hypot);
      var taken := CollectHearts(hypot);
      gain := TokenScore * taken;
      cleared := false;
      if collected >= goal {
        collected := Cleared;
        cleared := true;
      }
    }

    /** `updateSkate(dt)`. */
    method Update(dt: real, w: real, h: real, keys: Keys, ptr: Pointer, d55: real, d90: real, hypot: Hypot)
      returns (gain: int, cleared: bool, slowed: bool, reset: bool)
      requires IsHypot(hypot) && Wrappable(ice, w)
      modifies this
      ensures SFrame(Model(), gain, cleared, slowed, reset) == Updated(old(Model()), dt, w, h, keys, ptr, d55, d90, hypot)
    {
      UpdateIceZones(dt, w);
      spawnShield := Max(0.0, spawnShield - dt);
      assert Model() == Shielded(old(Model()), dt, w);
      slowed := CheckHazard(hypot);
      if resetting {
        reset := Resetting(dt, w, h, d55, hypot);
        gain, cleared := 0, false;
        return;
      }
      var p := Drive(player, dt, keys, ptr, DriveAccel, SteerAccel, d90, MaxSpeed, hypot);
      gain, cleared := Playing(p, dt, w, h, hypot);
      reset := false;
    }
  }

  method MakeSkate(w: real, h: real, rnd: Stream, c: nat, hypot: Hypot) returns (s: SState, next: nat)
    requires IsRandom(rnd)
    ensures (s, next) == InitSkate(w, h, rnd, c, hypot)
  {
    var ice, c1 := MakeIceZones(w, h, rnd, c);
    var tokens;
    tokens, next := PlaceHearts(w, h, ice, rnd, c1, hypot);
    s := Initial(w, h, ice, tokens);
  }

  /** `initSkate()`: a fresh record, with its zones and hearts placed from the draws `rnd(c)`, ... */
  method NewSkate(w: real, h: real, rnd: Stream, c: nat, hypot: Hypot) returns (skate: Skate, next: nat)
    requires IsRandom(rnd)
    ensures fresh(skate)
    ensures (skate.Model(), next) == InitSkate(w, h, rnd, c, hypot)
  {
    var ice, c1 := MakeIceZones(w, h, rnd, c);
    var tokens;
    tokens, next := PlaceHearts(w, h, ice, rnd, c1, hypot);
    skate := new Skate.Init(w, h, ice, tokens);
  }
}
