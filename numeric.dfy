/*
 * Numeric helpers shared by both revisions of the game: the `clamp`, `rand`
 * and `Math.*` helpers on reals, the random source, the `Math.hypot`
 * oracle and the small facts of real arithmetic the game proofs rely on.
 */
module Numeric {

  datatype Option<T> = None | Some(value: T)

  function Max(a: real, b: real): real { if a >= b then a else b }

  function Min(a: real, b: real): real { if a <= b then a else b }

  function Abs(x: real): real { if x < 0.0 then -x else x }

  /** `clamp(v, a, b) = Math.max(a, Math.min(b, v))`. */
  function Clamp(v: real, a: real, b: real): (r: real)
    ensures a <= r
    ensures a <= b ==> r <= b
    ensures a <= v <= b ==> r == v
    ensures v < a || b < a ==> r == a
    ensures a <= b < v ==> r == b
  {
    Max(a, Min(b, v))
  }

  /** `Math.ceil` on reals, through `.Floor`. */
  function Ceil(x: real): (n: int)
    ensures x <= n as real < x + 1.0
  {
    -((-x).Floor)
  }

  /** Truncation toward zero, as a JavaScript double `%` uses it. */
  function Trunc(q: real): (n: int)
    ensures q >= 0.0 ==> 0.0 <= n as real <= q < n as real + 1.0
    ensures q < 0.0 ==> n as real - 1.0 < q <= n as real <= 0.0
  {
    if q >= 0.0 then q.Floor else -((-q).Floor)
  }

  /** JavaScript's `x % m` on doubles: the remainder takes the sign of the dividend. */
  function JsRem(x: real, m: real): (r: real)
    requires m > 0.0
    ensures x >= 0.0 ==> 0.0 <= r < m
    ensures x < 0.0 ==> -m < r <= 0.0
    ensures x - r == (Trunc(x / m) as real) * m
  {
    var q := x / m;
    var tr := Trunc(q) as real;
    assert x == q * m;
    if x >= 0.0 then
      QuotientBelow(x, m, tr, q);
      QuotientAbove(x, m, tr, q);
      x - tr * m
    else
      QuotientAboveNeg(x, m, tr, q);
      QuotientBelowNeg(x, m, tr, q);
      x - tr * m
  }

  /** `rand(a, b) = Math.random() * (b - a) + a` for a draw `u` of `Math.random()`: in [a, b), or a itself when a = b. */
  function Rand(u: real, lo: real, hi: real): (r: real)
    requires 0.0 <= u < 1.0
    ensures lo <= hi ==> lo <= r <= hi
    ensures lo < hi ==> r < hi
  {
    var d := hi - lo;
    var e := 1.0 - u;
    if lo < hi then
      MulNonNeg(u, d);
      MulPos(e, d);
      assert e * d == d - u * d;
      u * d + lo
    else if lo == hi then
      MulNonNeg(u, d);
      MulNonNeg(e, d);
      assert e * d == d - u * d;
      u * d + lo
    else
      u * d + lo
  }

  /** The successive results of `Math.random()`: an endless stream of draws in [0, 1). */
  type Stream = nat -> real

  ghost predicate IsRandom(rnd: Stream)
  {
    forall i: nat :: 0.0 <= rnd(i) < 1.0
  }

  /** `Math.hypot(dx, dy)`: a non-negative length whose square is `dx*dx + dy*dy`. */
  type Hypot = (real, real) -> real

  /** The square of `hypot(dx, dy)`; the quantifier of `IsHypot` is instantiated through it only. */
  ghost function HypotSq(hypot: Hypot, dx: real, dy: real): real
  {
    hypot(dx, dy) * hypot(dx, dy)
  }

  ghost predicate IsHypot(hypot: Hypot)
  {
    forall dx: real, dy: real {:trigger HypotSq(hypot, dx, dy)} ::
      0.0 <= hypot(dx, dy) && HypotSq(hypot, dx, dy) == dx * dx + dy * dy
  }

  /** The two facts `IsHypot` gives about one length. */
  lemma HypotFacts(hypot: Hypot, dx: real, dy: real)
    requires IsHypot(hypot)
    ensures 0.0 <= hypot(dx, dy)
    ensures hypot(dx, dy) * hypot(dx, dy) == dx * dx + dy * dy
  {
    assert HypotSq(hypot, dx, dy) == dx * dx + dy * dy;
  }

  /** `Math.hypot(dx, dy) || 1`: the length, with 1 in place of a zero length. */
  function LengthOrOne(hypot: Hypot, dx: real, dy: real): (d: real)
    requires IsHypot(hypot)
    ensures d > 0.0
    ensures d == 1.0 <==> hypot(dx, dy) == 0.0 || hypot(dx, dy) == 1.0
    ensures hypot(dx, dy) != 0.0 ==> d * d == dx * dx + dy * dy
  {
    HypotFacts(hypot, dx, dy);
    var h := hypot(dx, dy);
    if h == 0.0 then 1.0 else h
  }

  lemma MulNonNeg(x: real, y: real)
    requires 0.0 <= x && 0.0 <= y
    ensures 0.0 <= x * y
  {
  }

  lemma MulPos(x: real, y: real)
    requires 0.0 < x && 0.0 < y
    ensures 0.0 < x * y
  {
  }

  lemma QuotientBelow(x: real, m: real, t: real, q: real)
    requires m > 0.0 && x == q * m && t <= q
    ensures t * m <= x
  {
    var e := q - t;
    assert e * m == q * m - t * m;
    MulNonNeg(e, m);
  }

  lemma QuotientAbove(x: real, m: real, t: real, q: real)
    requires m > 0.0 && x == q * m && q < t + 1.0
    ensures x < t * m + m
  {
    var e := t + 1.0 - q;
    assert e * m == t * m + m - q * m;
    MulPos(e, m);
  }

  lemma QuotientAboveNeg(x: real, m: real, t: real, q: real)
    requires m > 0.0 && x == q * m && t - 1.0 < q
    ensures t * m - m < x
  {
    var e := q - (t - 1.0);
    assert e * m == q * m - t * m + m;
    MulPos(e, m);
  }

  lemma QuotientBelowNeg(x: real, m: real, t: real, q: real)
    requires m > 0.0 && x == q * m && q <= t
    ensures x <= t * m
  {
    var e := t - q;
    assert e * m == t * m - q * m;
    MulNonNeg(e, m);
  }

  lemma NonZeroProduct(p: real, d: real)
    requires p != 0.0 && d != 0.0
    ensures p * d != 0.0
  {
  }

  lemma Associate(a: real, d: real)
    ensures a * (d * d) == (a * d) * d
  {
  }

  lemma ZeroProductSquare(a: real, d: real)
    requires a * (d * d) == 0.0 && d != 0.0
    ensures a == 0.0
  {
    Associate(a, d);
    if a != 0.0 {
      NonZeroProduct(a, d);
      NonZeroProduct(a * d, d);
    }
  }

  /** Two non-negative numbers with equal squares are equal. */
  lemma SqrtUnique(a: real, b: real)
    requires 0.0 <= a && 0.0 <= b && a * a == b * b
    ensures a == b
  {
    var s := a + b;
    var t := a - b;
    assert s * t == a * a - b * b;
    if t != 0.0 {
      NonZeroProduct(s, t);
    }
  }

  lemma SquareScale(x: real, y: real, k: real)
    ensures (k * x) * (k * x) + (k * y) * (k * y) == (k * k) * (x * x + y * y)
  {
  }

  /** `Math.hypot` is homogeneous: scaling both offsets by `k >= 0` scales the length by `k`. */
  lemma HypotScale(hypot: Hypot, dx: real, dy: real, k: real)
    requires IsHypot(hypot) && 0.0 <= k
    ensures hypot(k * dx, k * dy) == k * hypot(dx, dy)
  {
    HypotFacts(hypot, k * dx, k * dy);
    HypotFacts(hypot, dx, dy);
    var p := hypot(k * dx, k * dy);
    var h := hypot(dx, dy);
    var q := k * h;
    assert p * p == (k * dx) * (k * dx) + (k * dy) * (k * dy);
    SquareScale(dx, dy, k);
    assert h * h == dx * dx + dy * dy;
    assert q * q == (k * k) * (h * h);
    MulNonNeg(k, h);
    SqrtUnique(p, q);
  }

  /** Rescaling an offset of positive length by `len / length` gives it length `len`. */
  lemma HypotRescale(hypot: Hypot, dx: real, dy: real, len: real)
    requires IsHypot(hypot) && 0.0 <= len && hypot(dx, dy) != 0.0
    ensures hypot((len / hypot(dx, dy)) * dx, (len / hypot(dx, dy)) * dy) == len
  {
    HypotFacts(hypot, dx, dy);
    var d := hypot(dx, dy);
    var k := len / d;
    assert 0.0 <= k;
    HypotScale(hypot, dx, dy, k);
    var ex := (len / hypot(dx, dy)) * dx;
    var ey := (len / hypot(dx, dy)) * dy;
    assert ex == k * dx && ey == k * dy;
    assert hypot(ex, ey) == k * d;
    assert k * d == len;
  }

  /** Dividing an offset by its length gives a unit vector. */
  lemma UnitNormal(dx: real, dy: real, d: real)
    requires d > 0.0 && d * d == dx * dx + dy * dy
    ensures (dx / d) * (dx / d) + (dy / d) * (dy / d) == 1.0
  {
    var nx := dx / d;
    var ny := dy / d;
    assert dx == nx * d;
    assert dy == ny * d;
    var e := nx * nx + ny * ny - 1.0;
    assert e * (d * d) == 0.0;
    ZeroProductSquare(e, d);
  }
}
