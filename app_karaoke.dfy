/*
 * The karaoke mini-game of app.js: `initKaraoke`, `spawnKaraokeNote`,
 * `karaokeTryHit` and `updateKaraoke`.  The record `karaoke` is the class
 * `Karaoke`; its state as a value is `KState`, and every method is proved
 * against a function on that value.  Score changes, toasts and the overlay
 * that follows the clear are returned to the caller as results.
 */
module AppKaraoke {
  import opened Numeric

  const SpawnEvery: real := 0.70
  const TotalNotes: int := 14
  /** `bestD` starts at 9999: a note that far away is never picked. */
  const NoNote: real := 9999.0
  const HitWindow: real := 30.0
  const PerfectWindow: real := 13.0
  /** A live note further than this below the line is missed for lateness. */
  const LateMargin: real := 70.0
  const HitScore: int := 10
  const HitsToClear: int := 8

  datatype Note = Note(y: real, r: real, speed: real, alive: bool)

  /** The fields of the `karaoke` record. */
  datatype KState = KState(x: real, lineY: real, notes: seq<Note>, spawnTimer: real, spawnEvery: real,
                           total: int, spawned: int, hit: int, miss: int, done: bool)

  /** The result of one `karaokeTryHit`: a hit (graded "Perfect!" or "Good!") or a miss. */
  datatype Outcome = Hit(perfect: bool) | Miss

  /** What one call changes: the new record, the tap's outcome if there was a tap,
      the number of "Too late!" misses and whether the clear fired. */
  datatype Frame = Frame(state: KState, outcome: Option<Outcome>, late: nat, cleared: bool)

  /** `best` and `bestD` during the scan of `karaokeTryHit`. */
  datatype Pick = Pick(best: Option<nat>, bestD: real)

  function Dist(n: Note, lineY: real): real { Abs(n.y - lineY) }

  /** Number of dead notes among the first `n`. */
  function DeadIn(ns: seq<Note>, n: nat): (c: nat)
    requires n <= |ns|
    ensures c <= n
  {
    if n == 0 then 0 else DeadIn(ns, n - 1) + (if ns[n - 1].alive then 0 else 1)
  }

  function DeadCount(ns: seq<Note>): nat { DeadIn(ns, |ns|) }

  /** The count looks only at the first `n` notes. */
  lemma {:induction false} DeadInAgree(a: seq<Note>, b: seq<Note>, n: nat)
    requires n <= |a| && n <= |b|
    requires forall j :: 0 <= j < n ==> a[j] == b[j]
    ensures DeadIn(a, n) == DeadIn(b, n)
  {
    if n > 0 {
      DeadInAgree(a, b, n - 1);
    }
  }

  /** What a `karaoke` record keeps between frames. */
  predicate Valid(k: KState)
  {
    && k.spawnEvery > 0.0
    && 0.0 <= k.spawnTimer < k.spawnEvery
    && k.total == TotalNotes
    && 0 <= k.spawned <= k.total
    && |k.notes| == k.spawned
    && 0 <= k.hit <= DeadCount(k.notes)
    && 0 <= k.miss
  }

  /** The note `spawnKaraokeNote` pushes, for a stage of height `h`. */
  function NewNote(h: real): Note
  {
    Note(-30.0, 16.0, Max(260.0, h * 0.65), true)
  }

  /** A new note is alive, so it leaves the dead count as it was. */
  lemma SpawnDeadCount(ns: seq<Note>, h: real)
    ensures DeadCount(ns + [NewNote(h)]) == DeadCount(ns)
  {
    DeadInAgree(ns + [NewNote(h)], ns, |ns|);
  }

  /** `spawnKaraokeNote`: one more live note at the top, unless `total` notes exist already. */
  function Spawn(k: KState, h: real): (r: KState)
    ensures r == k <==> k.spawned >= k.total
    ensures k.spawned < k.total ==> r.notes == k.notes + [NewNote(h)] && r.spawned == k.spawned + 1
    ensures r == k.(notes := r.notes, spawned := r.spawned)
  {
    if k.spawned >= k.total then k
    else
      var ns := k.notes + [NewNote(h)];
      assert |ns| == |k.notes| + 1;
      k.(notes := ns, spawned := k.spawned + 1)
  }

  /** A spawn keeps the record valid: `spawned` never passes `total` (14), and there is one note per spawn. */
  lemma SpawnValid(k: KState, h: real)
    requires Valid(k)
    ensures Valid(Spawn(k, h))
  {
    SpawnDeadCount(k.notes, h);
  }

  /** `initKaraoke` for a stage of `w` by `h`: an empty record and then the first note. */
  function Initial(w: real, h: real): (r: KState)
    ensures Valid(r)
    ensures r.notes == [NewNote(h)] && r.spawned == 1 && r.total == TotalNotes
    ensures r.hit == 0 && r.miss == 0 && !r.done && r.spawnTimer == 0.0
  {
    var k := KState(w * 0.5, h * 0.80, [], 0.0, SpawnEvery, TotalNotes, 0, 0, 0, false);
    SpawnValid(k, h);
    Spawn(k, h)
  }

  /** The scan of `karaokeTryHit` over the first `n` notes, keeping the first strictly nearer live note. */
  function NearestIn(notes: seq<Note>, lineY: real, n: nat): (p: Pick)
    requires n <= |notes|
    ensures p.best.Some? ==> p.best.value < n && notes[p.best.value].alive
                             && p.bestD == Dist(notes[p.best.value], lineY)
    ensures p.best.None? ==> p.bestD == NoNote
  {
    if n == 0 then Pick(None, NoNote)
    else
      var p := NearestIn(notes, lineY, n - 1);
      var d := Dist(notes[n - 1], lineY);
      if notes[n - 1].alive && d < p.bestD then Pick(Some(n - 1), d) else p
  }

  function Nearest(notes: seq<Note>, lineY: real): Pick { NearestIn(notes, lineY, |notes|) }

  /** The pick is a nearest live note and every earlier live note is strictly further. */
  lemma {:induction false} NearestInIsFirstMin(notes: seq<Note>, lineY: real, n: nat)
    requires n <= |notes|
    ensures forall j :: 0 <= j < n && notes[j].alive ==> NearestIn(notes, lineY, n).bestD <= Dist(notes[j], lineY)
    ensures NearestIn(notes, lineY, n).best.Some? ==>
              forall j :: 0 <= j < NearestIn(notes, lineY, n).best.value && notes[j].alive ==>
                NearestIn(notes, lineY, n).bestD < Dist(notes[j], lineY)
  {
    if n > 0 {
      NearestInIsFirstMin(notes, lineY, n - 1);
    }
  }

  /**
   * A tap can hit exactly when some live note is within the window `win` of the line (30 here),
   * for any window below the starting `bestD` of 9999.
   */
  lemma NearestInWindow(notes: seq<Note>, lineY: real, win: real)
    requires win < NoNote
    ensures (Nearest(notes, lineY).best.Some? && Nearest(notes, lineY).bestD <= win)
            <==> exists j :: 0 <= j < |notes| && notes[j].alive && Dist(notes[j], lineY) <= win
  {
    NearestInIsFirstMin(notes, lineY, |notes|);
    var p := Nearest(notes, lineY);
    if p.best.Some? && p.bestD <= win {
      var i := p.best.value;
      assert notes[i].alive && Dist(notes[i], lineY) <= win;
    }
  }

  /** The scan of `karaokeTryHit` as the loop the source runs. */
  method FindNearest(notes: seq<Note>, lineY: real) returns (best: Option<nat>, bestD: real)
    ensures Pick(best, bestD) == Nearest(notes, lineY)
    ensures forall j :: 0 <= j < |notes| && notes[j].alive ==> bestD <= Dist(notes[j], lineY)
    ensures best.Some? ==> best.value < |notes| && notes[best.value].alive && bestD == Dist(notes[best.value], lineY)
    ensures best.Some? ==> forall j :: 0 <= j < best.value && notes[j].alive ==> bestD < Dist(notes[j], lineY)
  {
    best := None;
    bestD := NoNote;
    var i := 0;
    while i < |notes|
      invariant 0 <= i <= |notes|
      invariant Pick(best, bestD) == NearestIn(notes, lineY, i)
    {
      var n := notes[i];
      if n.alive {
        var d := Dist(n, lineY);
        if d < bestD {
          bestD := d;
          best := Some(i);
        }
      }
      i := i + 1;
    }
    NearestInIsFirstMin(notes, lineY, |notes|);
  }

  /** `karaokeTryHit`: kill the picked note when it is within 30 (a hit), else count a miss. */
  function AfterTap(k: KState): (KState, Outcome)
  {
    var p := Nearest(k.notes, k.lineY);
    if p.best.Some? && p.bestD <= HitWindow then
      var i := p.best.value;
      (k.(notes := k.notes[i := k.notes[i].(alive := false)], hit := k.hit + 1), Hit(p.bestD <= PerfectWindow))
    else
      (k.(miss := k.miss + 1), Miss)
  }

  /** Killing live note `i` raises the count of the first `n > i` notes by one. */
  lemma {:induction false} DeadInKill(ns: seq<Note>, i: nat, n: nat)
    requires i < |ns| && ns[i].alive && n <= |ns|
    ensures DeadIn(ns[i := ns[i].(alive := false)], n) == DeadIn(ns, n) + (if i < n then 1 else 0)
  {
    if n > 0 {
      DeadInKill(ns, i, n - 1);
    }
  }

  /**
   * Exactly one of `hit` and `miss` rises by one.  It is a hit exactly when a live note is
   * within 30 of the line; the note killed is then the nearest live one, the earliest among
   * equally near ones, it is graded perfect exactly when it is within 13, and no other note
   * and no other field changes.  A miss changes nothing but `miss`.
   */
  lemma TryHitCounts(k: KState)
    ensures AfterTap(k).0.hit + AfterTap(k).0.miss == k.hit + k.miss + 1
    ensures AfterTap(k).1.Hit? <==> AfterTap(k).0.hit == k.hit + 1
    ensures AfterTap(k).1.Hit? <==> exists j :: 0 <= j < |k.notes| && k.notes[j].alive && Dist(k.notes[j], k.lineY) <= HitWindow
    ensures AfterTap(k).1.Miss? ==> AfterTap(k).0 == k.(miss := k.miss + 1)
    ensures AfterTap(k).1.Hit? ==>
      exists i :: 0 <= i < |k.notes| && k.notes[i].alive
        && Dist(k.notes[i], k.lineY) <= HitWindow
        && (forall j :: 0 <= j < |k.notes| && k.notes[j].alive ==> Dist(k.notes[i], k.lineY) <= Dist(k.notes[j], k.lineY))
        && (forall j :: 0 <= j < i && k.notes[j].alive ==> Dist(k.notes[i], k.lineY) < Dist(k.notes[j], k.lineY))
        && (AfterTap(k).1.perfect <==> Dist(k.notes[i], k.lineY) <= PerfectWindow)
        && AfterTap(k).0 == k.(notes := k.notes[i := k.notes[i].(alive := false)], hit := k.hit + 1)
  {
    NearestInIsFirstMin(k.notes, k.lineY, |k.notes|);
    NearestInWindow(k.notes, k.lineY, HitWindow);
  }

  /** Tapping keeps the record valid: a hit kills a live note, so `hit` stays within the dead count. */
  lemma TryHitValid(k: KState)
    requires Valid(k)
    ensures Valid(AfterTap(k).0)
  {
    var p := Nearest(k.notes, k.lineY);
    if p.best.Some? && p.bestD <= HitWindow {
      DeadInKill(k.notes, p.best.value, |k.notes|);
    }
  }

  /** One live note falls by `speed * dt`; past `lineY + 70` it dies. */
  function Fall(n: Note, dt: real, lineY: real): (r: Note)
    ensures !n.alive ==> r == n
    ensures r.alive ==> n.alive && r.y <= lineY + LateMargin
    ensures n.alive ==> r.y == n.y + n.speed * dt && (r.alive <==> r.y <= lineY + LateMargin)
    ensures r == n.(y := r.y, alive := r.alive)
  {
    if !n.alive then n
    else
      var y := n.y + n.speed * dt;
      if y > lineY + LateMargin then n.(y := y, alive := false) else n.(y := y)
  }

  /** The notes after the note loop of `updateKaraoke`: each one falls on its own. */
  function Fallen(notes: seq<Note>, dt: real, lineY: real): (r: seq<Note>)
    ensures |r| == |notes|
  {
    seq(|notes|, i requires 0 <= i < |notes| => Fall(notes[i], dt, lineY))
  }

  /** Number of notes among the first `n` that are alive in `before` and dead in `after`. */
  function KilledIn(before: seq<Note>, after: seq<Note>, n: nat): nat
    requires n <= |before| && n <= |after|
  {
    if n == 0 then 0
    else KilledIn(before, after, n - 1) + (if before[n - 1].alive && !after[n - 1].alive then 1 else 0)
  }

  /** Number of notes that die in the note loop: one "Too late!" miss each. */
  function Late(notes: seq<Note>, dt: real, lineY: real): nat
  {
    KilledIn(notes, Fallen(notes, dt, lineY), |notes|)
  }

  /** No note comes back to life, so the dead count does not drop. */
  lemma {:induction false} FallenDeadIn(notes: seq<Note>, dt: real, lineY: real, n: nat)
    requires n <= |notes|
    ensures DeadIn(notes, n) <= DeadIn(Fallen(notes, dt, lineY), n)
  {
    if n > 0 {
      FallenDeadIn(notes, dt, lineY, n - 1);
    }
  }

  /** Every note that dies in the note loop died for lateness: each counts once, and no live note is too low. */
  lemma FallenNotes(notes: seq<Note>, dt: real, lineY: real)
    ensures forall i :: 0 <= i < |notes| && Fallen(notes, dt, lineY)[i].alive ==>
              notes[i].alive && Fallen(notes, dt, lineY)[i].y <= lineY + LateMargin
    ensures forall i :: 0 <= i < |notes| && notes[i].alive ==>
              Fallen(notes, dt, lineY)[i].y == notes[i].y + notes[i].speed * dt
    ensures forall i :: 0 <= i < |notes| && !notes[i].alive ==> Fallen(notes, dt, lineY)[i] == notes[i]
  {
  }

  /** `while (spawnTimer >= spawnEvery) { spawnTimer -= spawnEvery; spawnKaraokeNote(); }` */
  function SpawnLoop(k: KState, h: real): (r: KState)
    requires k.spawnEvery > 0.0
    ensures r.spawnTimer < r.spawnEvery
    ensures 0.0 <= k.spawnTimer ==> 0.0 <= r.spawnTimer
    ensures r == k.(notes := r.notes, spawned := r.spawned, spawnTimer := r.spawnTimer)
    decreases (k.spawnTimer / k.spawnEvery).Floor
  {
    if k.spawnTimer >= k.spawnEvery then
      var t := k.spawnTimer;
      var e := k.spawnEvery;
      DivShift(t, e);
      DivAtLeastOne(t, e);
      SpawnLoop(Spawn(k.(spawnTimer := t - e), h), h)
    else k
  }

  /**
   * The spawn loop keeps the record valid, never raises `spawned` past `total`, and only
   * appends fresh notes: the notes that were there before are untouched.
   */
  lemma {:induction false} SpawnLoopValid(k: KState, h: real)
    requires k.spawnEvery > 0.0
    requires 0 <= k.spawned <= k.total && |k.notes| == k.spawned && 0 <= k.hit <= DeadCount(k.notes)
    ensures var r := SpawnLoop(k, h);
      && k.spawned <= r.spawned <= r.total && |r.notes| == r.spawned && DeadCount(r.notes) == DeadCount(k.notes)
      && (forall j :: 0 <= j < |k.notes| ==> r.notes[j] == k.notes[j])
      && (forall j :: |k.notes| <= j < |r.notes| ==> r.notes[j] == NewNote(h))
    decreases (k.spawnTimer / k.spawnEvery).Floor
  {
    if k.spawnTimer >= k.spawnEvery {
      var t := k.spawnTimer;
      var e := k.spawnEvery;
      DivShift(t, e);
      DivAtLeastOne(t, e);
      var k' := Spawn(k.(spawnTimer := t - e), h);
      SpawnDeadCount(k.notes, h);
      SpawnLoopValid(k', h);
    }
  }

  /** The note loop of `updateKaraoke` applied to the record: the notes fall and each late one is a miss. */
  function FallAll(k: KState, dt: real): (r: KState)
    ensures r == k.(notes := r.notes, miss := r.miss)
    ensures r.miss == k.miss + Late(k.notes, dt, k.lineY)
  {
    k.(notes := Fallen(k.notes, dt, k.lineY), miss := k.miss + Late(k.notes, dt, k.lineY))
  }

  /** The end of `updateKaraoke`: the tap, if there is one, then the clear once `hit` reaches 8. */
  function Finish(k: KState, late: nat, tapped: bool): Frame
  {
    var k3 := if tapped then AfterTap(k).0 else k;
    var out := if tapped then Some(AfterTap(k).1) else None;
    if k3.hit >= HitsToClear && !k3.done then Frame(k3.(done := true), out, late, true)
    else Frame(k3, out, late, false)
  }

  /**
   * `updateKaraoke(dt)` with `tapped` standing for `input.tap || keys["Space"]`: nothing when
   * done; otherwise the spawn loop, the fall of every note, the tap, and the clear once `hit`
   * reaches 8.
   */
  function Updated(k: KState, dt: real, tapped: bool, h: real): Frame
    requires k.spawnEvery > 0.0
  {
    if k.done then Frame(k, None, 0, false)
    else
      var k1 := SpawnLoop(k.(spawnTimer := k.spawnTimer + dt), h);
      Finish(FallAll(k1, dt), Late(k1.notes, dt, k1.lineY), tapped)
  }

  /** Score gained in one update: 10 for a hit. */
  function ScoreGain(f: Frame): int
  {
    if f.outcome.Some? && f.outcome.value.Hit? then HitScore else 0
  }

  /** Once `done`, an update changes nothing. */
  lemma UpdateWhenDone(k: KState, dt: real, tapped: bool, h: real)
    requires k.spawnEvery > 0.0 && k.done
    ensures Updated(k, dt, tapped, h) == Frame(k, None, 0, false)
    ensures ScoreGain(Updated(k, dt, tapped, h)) == 0
  {
  }

  /**
   * The tap and the clear: the tap is handled exactly when there was one, `hit` and `miss`
   * move only by its outcome, a live note afterwards was live and untouched before, and the
   * clear fires exactly when `hit` has reached 8 and sets `done`.
   */
  lemma FinishSteps(k: KState, late: nat, tapped: bool)
    requires !k.done
    ensures var r := Finish(k, late, tapped);
      && (r.cleared <==> r.state.hit >= HitsToClear)
      && (r.state.done <==> r.cleared)
      && (r.outcome.Some? <==> tapped)
      && r.late == late
      && r.state.hit == k.hit + (if r.outcome.Some? && r.outcome.value.Hit? then 1 else 0)
      && r.state.miss == k.miss + (if r.outcome == Some(Miss) then 1 else 0)
      && |r.state.notes| == |k.notes|
      && (forall i :: 0 <= i < |k.notes| && r.state.notes[i].alive ==> r.state.notes[i] == k.notes[i])
  {
    TryHitCounts(k);
  }

  /**
   * The clear fires on the first update that leaves `hit` at 8 or more, and sets `done` for
   * good.  A tap is handled exactly when there was one; `hit` and `miss` move only by the
   * tap's outcome and the late notes.
   */
  lemma UpdateSteps(k: KState, dt: real, tapped: bool, h: real)
    requires k.spawnEvery > 0.0
    ensures var r := Updated(k, dt, tapped, h);
      && (r.cleared <==> !k.done && r.state.hit >= HitsToClear)
      && (r.state.done <==> k.done || r.state.hit >= HitsToClear)
      && (r.outcome.Some? <==> !k.done && tapped)
      && r.state.hit == k.hit + (if r.outcome.Some? && r.outcome.value.Hit? then 1 else 0)
      && r.state.miss == k.miss + r.late + (if r.outcome == Some(Miss) then 1 else 0)
  {
    if !k.done {
      var k1 := SpawnLoop(k.(spawnTimer := k.spawnTimer + dt), h);
      FinishSteps(FallAll(k1, dt), Late(k1.notes, dt, k1.lineY), tapped);
    }
  }

  /**
   * After an update that is not a no-op, no live note sits more than 70 below the line, and
   * the late count is the number of notes that died in the note loop.
   */
  lemma UpdateNoLateNote(k: KState, dt: real, tapped: bool, h: real)
    requires k.spawnEvery > 0.0 && !k.done
    ensures var r := Updated(k, dt, tapped, h);
      forall i :: 0 <= i < |r.state.notes| && r.state.notes[i].alive ==> r.state.notes[i].y <= k.lineY + LateMargin
    ensures var k1 := SpawnLoop(k.(spawnTimer := k.spawnTimer + dt), h);
      Updated(k, dt, tapped, h).late == KilledIn(k1.notes, Fallen(k1.notes, dt, k.lineY), |k1.notes|)
  {
    var k1 := SpawnLoop(k.(spawnTimer := k.spawnTimer + dt), h);
    var k2 := FallAll(k1, dt);
    FallenNotes(k1.notes, dt, k1.lineY);
    FinishSteps(k2, Late(k1.notes, dt, k1.lineY), tapped);
  }

  /** A valid record stays valid across an update with a non-negative `dt`
      (in particular `0 <= spawnTimer < spawnEvery` after the spawn loop). */
  lemma UpdateValid(k: KState, dt: real, tapped: bool, h: real)
    requires Valid(k) && 0.0 <= dt
    ensures Valid(Updated(k, dt, tapped, h).state)
  {
    if !k.done {
      var k0 := k.(spawnTimer := k.spawnTimer + dt);
      SpawnLoopValid(k0, h);
      var k1 := SpawnLoop(k0, h);
      FallenDeadIn(k1.notes, dt, k1.lineY, |k1.notes|);
      var k2 := FallAll(k1, dt);
      assert Valid(k2);
      FinishValid(k2, Late(k1.notes, dt, k1.lineY), tapped);
    }
  }

  /** The tap and the clear keep a record valid. */
  lemma FinishValid(k: KState, late: nat, tapped: bool)
    requires Valid(k)
    ensures Valid(Finish(k, late, tapped).state)
  {
    if tapped {
      TryHitValid(k);
    }
  }

  lemma DivMul(x: real, e: real)
    requires e != 0.0
    ensures (x / e) * e == x
  {
  }

  lemma ZeroFactor(g: real, e: real)
    requires e != 0.0 && g * e == 0.0
    ensures g == 0.0
  {
    if g != 0.0 {
      NonZeroProduct(g, e);
    }
  }

  lemma DistribShift(a: real, b: real, e: real)
    ensures (a - b + 1.0) * e == a * e - b * e + e
  {
  }

  /** One spawn period less is one less in the quotient. */
  lemma DivShift(t: real, e: real)
    requires e > 0.0
    ensures (t - e) / e == t / e - 1.0
  {
    var q := t / e;
    var u := t - e;
    var q2 := u / e;
    DivMul(t, e);
    DivMul(u, e);
    DistribShift(q2, q, e);
    var g := q2 - q + 1.0;
    ZeroFactor(g, e);
  }

  lemma DivAtLeastOne(t: real, e: real)
    requires e > 0.0 && t >= e
    ensures t / e >= 1.0
  {
    var q := t / e;
    DivMul(t, e);
    var s := q - 1.0;
    DistribShift(q, 1.0, e);
    if s < 0.0 {
      MulPos(-s, e);
    }
  }

  /** The `karaoke` record. */
  class Karaoke {
    var x: real
    var lineY: real
    var notes: seq<Note>
    var spawnTimer: real
    var spawnEvery: real
    var total: int
    var spawned: int
    var hit: int
    var miss: int
    var done: bool

    function Model(): KState
      reads this
    {
      KState(x, lineY, notes, spawnTimer, spawnEvery, total, spawned, hit, miss, done)
    }

    /** `initKaraoke()`. */
    constructor Init(w: real, h: real)
      ensures Model() == Initial(w, h)
    {
      x := w * 0.5;
      lineY := h * 0.80;
      notes := [];
      spawnTimer := 0.0;
      spawnEvery := SpawnEvery;
      total := TotalNotes;
      spawned := 0;
      hit := 0;
      miss := 0;
      done := false;
      new;
      SpawnNote(h);
    }

    /** `spawnKaraokeNote()`. */
    method SpawnNote(h: real)
      modifies this
      ensures Model() == Spawn(old(Model()), h)
    {
      if spawned >= total {
        return;
      }
      notes := notes + [NewNote(h)];
      spawned := spawned + 1;
    }

    /** `karaokeTryHit()`. */
    method TryHit() returns (out: Outcome)
      modifies this
      ensures (Model(), out) == AfterTap(old(Model()))
    {
      var best, bestD := FindNearest(notes, lineY);
      if best.Some? && bestD <= HitWindow {
        var i := best.value;
        notes := notes[i := notes[i].(alive := false)];
        hit := hit + 1;
        out := Hit(bestD <= PerfectWindow);
      } else {
        miss := miss + 1;
        out := Miss;
      }
    }

    /** The spawn loop at the head of `updateKaraoke`. */
    method SpawnDue(h: real)
      requires spawnEvery > 0.0
      modifies this
      ensures Model() == SpawnLoop(old(Model()), h)
    {
      ghost var start := Model();
      while spawnTimer >= spawnEvery
        invariant spawnEvery > 0.0
        invariant SpawnLoop(Model(), h) == SpawnLoop(start, h)
        decreases (spawnTimer / spawnEvery).Floor
      {
        var t := spawnTimer;
        var e := spawnEvery;
        DivShift(t, e);
        DivAtLeastOne(t, e);
        spawnTimer := t - e;
        SpawnNote(h);
      }
    }

    /** The note loop of `updateKaraoke`; `late` counts the "Too late!" misses. */
    method FallNotes(dt: real) returns (late: nat)
      modifies this
      ensures Model() == FallAll(old(Model()), dt)
      ensures late == Late(old(notes), dt, old(lineY))
    {
      ghost var k1 := Model();
      ghost var fallen := Fallen(k1.notes, dt, k1.lineY);
      late := 0;
      var i := 0;
      while i < |notes|
        invariant 0 <= i <= |notes| == |k1.notes|
        invariant forall j :: 0 <= j < i ==> notes[j] == fallen[j]
        invariant forall j :: i <= j < |notes| ==> notes[j] == k1.notes[j]
        invariant late == KilledIn(k1.notes, fallen, i)
        invariant Model() == k1.(notes := notes, miss := k1.miss + late)
      {
        var n := notes[i];
        if n.alive {
          var y := n.y + n.speed * dt;
          if y > lineY + LateMargin {
            notes := notes[i := n.(y := y, alive := false)];
            miss := miss + 1;
            late := late + 1;
          } else {
            notes := notes[i := n.(y := y)];
          }
        }
        i := i + 1;
      }
      assert notes == fallen;
    }

    /** The end of `updateKaraoke`: the tap, then the clear. */
    method TapAndClear(late: nat, tapped: bool) returns (outcome: Option<Outcome>, cleared: bool)
      modifies this
      ensures Frame(Model(), outcome, late, cleared) == Finish(old(Model()), late, tapped)
    {
      outcome := None;
      if tapped {
        var o := TryHit();
        outcome := Some(o);
      }
      cleared := false;
      if hit >= HitsToClear && !done {
        done := true;
        cleared := true;
      }
    }

    /** `updateKaraoke(dt)`, with `tapped` for `input.tap || keys["Space"]`. */
    method Update(dt: real, tapped: bool, h: real) returns (outcome: Option<Outcome>, late: nat, cleared: bool)
      requires spawnEvery > 0.0
      modifies this
      ensures Frame(Model(), outcome, late, cleared) == Updated(old(Model()), dt, tapped, h)
    {
      if done {
        return None, 0, false;
      }
      spawnTimer := spawnTimer + dt;
      SpawnDue(h);
      late := FallNotes(dt);
      outcome, cleared := TapAndClear(late, tapped);
    }
  }
}
