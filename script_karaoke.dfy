/*
 * The karaoke mini-game of script.js: `initKaraoke`, `spawnNote` and
 * `updateKaraoke`.  This revision counts frames instead of seconds: a note
 * spawns on every 40th update while fewer than 12 exist, falls 4 per
 * update, and a tap is graded against a window of 26 (10 for "Perfect!").
 * The record `karaoke` is the class `Karaoke`; its state as a value is
 * `KState`, and every method is proved against a function on that value.
 * Notes and the scan for the nearest live note are shared with app.js.
 */
module ScriptKaraoke {
  import opened Numeric
  import K = AppKaraoke

  const SpawnEvery: int := 40
  const TotalNotes: int := 12
  const HitWindow: real := 26.0
  const PerfectWindow: real := 10.0
  /** A live note further than this below the line is missed. */
  const LateMargin: real := 50.0
  const NoteSpeed: real := 4.0
  const HitScore: int := 10
  const HitsToClear: int := 8

  /** The fields of the `karaoke` record. */
  datatype KState = KState(lineY: real, notes: seq<K.Note>, time: int, spawnEvery: int, total: int,
                           spawned: int, hit: int, miss: int, done: bool)

  /** What one update changes: the new record, the tap's outcome if there was a tap,
      the number of "Miss!" notes that fell past the line and whether the clear fired. */
  datatype Frame = Frame(state: KState, outcome: Option<K.Outcome>, late: nat, cleared: bool)

  /**
   * What a `karaoke` record keeps between updates: one note per spawn, `spawned` equal to
   * the number of 40-update periods so far (at most 12), at least one dead note per hit, and
   * `done` exactly when 8 notes have been hit.
   */
  predicate Valid(k: KState)
  {
    && k.spawnEvery == SpawnEvery
    && k.total == TotalNotes
    && 0 <= k.time
    && k.spawned == (if k.time / SpawnEvery <= TotalNotes then k.time / SpawnEvery else TotalNotes)
    && |k.notes| == k.spawned
    && 0 <= k.hit <= K.DeadCount(k.notes)
    && 0 <= k.miss
    && (k.done <==> k.hit >= HitsToClear)
  }

  /** The note `spawnNote` pushes. */
  function NewNote(): K.Note
  {
    K.Note(-30.0, 16.0, NoteSpeed, true)
  }

  /** `spawnNote()`: one more live note at the top. */
  function Spawn(k: KState): (r: KState)
    ensures r.notes == k.notes + [NewNote()] && r.spawned == k.spawned + 1
    ensures r == k.(notes := r.notes, spawned := r.spawned)
  {
    k.(notes := k.notes + [NewNote()], spawned := k.spawned + 1)
  }

  /** `initKaraoke()` on a stage of height `h`: no notes yet, nothing counted. */
  function Initial(h: real): (r: KState)
    ensures Valid(r)
    ensures r.notes == [] && r.time == 0 && r.hit == 0 && r.miss == 0 && !r.done
  {
    KState(h * 0.78, [], 0, SpawnEvery, TotalNotes, 0, 0, 0, false)
  }

  /** The head of `updateKaraoke`: one more frame, and a note on every `spawnEvery`-th one while fewer than `total` exist. */
  function Ticked(k: KState): (r: KState)
    ensures r.time == k.time + 1
  {
    var t := k.time + 1;
    if k.spawned < k.total && k.spawnEvery != 0 && t % k.spawnEvery == 0 then Spawn(k.(time := t))
    else k.(time := t)
  }

  /** The tick keeps one note per 40-update period: `spawned` is `min(12, time div 40)` again. */
  lemma TickedSpawned(k: KState)
    requires Valid(k)
    ensures var r := Ticked(k);
      && r.spawned == (if r.time / SpawnEvery <= TotalNotes then r.time / SpawnEvery else TotalNotes)
      && |r.notes| == r.spawned
      && K.DeadCount(r.notes) == K.DeadCount(k.notes)
      && (forall j :: 0 <= j < |k.notes| ==> r.notes[j] == k.notes[j])
  {
    var r := Ticked(k);
    if r.spawned != k.spawned {
      K.DeadInAgree(k.notes + [NewNote()], k.notes, |k.notes|);
    }
  }

  /** One note of the note loop: a live note falls by `speed`; past `lineY + 50` it dies. */
  function Fall(n: K.Note, lineY: real): (r: K.Note)
    ensures !n.alive ==> r == n
    ensures n.alive ==> r.y == n.y + n.speed && (r.alive <==> r.y <= lineY + LateMargin)
    ensures r == n.(y := r.y, alive := r.alive)
  {
    if !n.alive then n
    else
      var y := n.y + n.speed;
      if y > lineY + LateMargin then n.(y := y, alive := false) else n.(y := y)
  }

  /** The notes after the note loop. */
  function Fallen(notes: seq<K.Note>, lineY: real): (r: seq<K.Note>)
    ensures |r| == |notes|
  {
    seq(|notes|, i requires 0 <= i < |notes| => Fall(notes[i], lineY))
  }

  /** Number of notes that die in the note loop: one "Miss!" each. */
  function Late(notes: seq<K.Note>, lineY: real): nat
  {
    K.KilledIn(notes, Fallen(notes, lineY), |notes|)
  }

  /** No note comes back to life, so the dead count does not drop. */
  lemma {:induction false} FallenDeadIn(notes: seq<K.Note>, lineY: real, n: nat)
    requires n <= |notes|
    ensures K.DeadIn(notes, n) <= K.DeadIn(Fallen(notes, lineY), n)
  {
    if n > 0 {
      FallenDeadIn(notes, lineY, n - 1);
    }
  }

  /** The note loop applied to the record: the notes fall and each one that dies is a miss. */
  function FallAll(k: KState): (r: KState)
    ensures r == k.(notes := r.notes, miss := r.miss)
    ensures r.miss == k.miss + Late(k.notes, k.lineY)
  {
    k.(notes := Fallen(k.notes, k.lineY), miss := k.miss + Late(k.notes, k.lineY))
  }

  /** The tap block of `updateKaraoke`: kill the nearest live note when it is within 26 (a hit), else count a miss. */
  function AfterTap(k: KState): (KState, K.Outcome)
  {
    var p := K.Nearest(k.notes, k.lineY);
    if p.best.Some? && p.bestD <= HitWindow then
      var i := p.best.value;
      (k.(notes := k.notes[i := k.notes[i].(alive := false)], hit := k.hit + 1), K.Hit(p.bestD <= PerfectWindow))
    else
      (k.(miss := k.miss + 1), K.Miss)
  }

  /**
   * Exactly one of `hit` and `miss` rises by one.  It is a hit exactly when a live note is
   * within 26 of the line; the note killed is then the nearest live one, the earliest among
   * equally near ones, graded perfect exactly when it is within 10, and nothing else changes.
   * A miss changes nothing but `miss`.
   */
  lemma TryHitCounts(k: KState)
    ensures AfterTap(k).0.hit + AfterTap(k).0.miss == k.hit + k.miss + 1
    ensures AfterTap(k).1.Hit? <==> AfterTap(k).0.hit == k.hit + 1
    ensures AfterTap(k).1.Hit? <==> exists j :: 0 <= j < |k.notes| && k.notes[j].alive && K.Dist(k.notes[j], k.lineY) <= HitWindow
    ensures AfterTap(k).1.Miss? ==> AfterTap(k).0 == k.(miss := k.miss + 1)
    ensures AfterTap(k).1.Hit? ==>
      exists i :: 0 <= i < |k.notes| && k.notes[i].alive
        && K.Dist(k.notes[i], k.lineY) <= HitWindow
        && (forall j :: 0 <= j < |k.notes| && k.notes[j].alive ==> K.Dist(k.notes[i], k.lineY) <= K.Dist(k.notes[j], k.lineY))
        && (forall j :: 0 <= j < i && k.notes[j].alive ==> K.Dist(k.notes[i], k.lineY) < K.Dist(k.notes[j], k.lineY))
        && (AfterTap(k).1.perfect <==> K.Dist(k.notes[i], k.lineY) <= PerfectWindow)
        && AfterTap(k).0 == k.(notes := k.notes[i := k.notes[i].(alive := false)], hit := k.hit + 1)
  {
    K.NearestInIsFirstMin(k.notes, k.lineY, |k.notes|);
    K.NearestInWindow(k.notes, k.lineY, HitWindow);
  }

  /** The end of `updateKaraoke`: the tap, if there is one, then the clear once `hit` reaches 8. */
  function Finish(k: KState, late: nat, tapped: bool): Frame
  {
    var k3 := if tapped then AfterTap(k).0 else k;
    var out := if tapped then Some(AfterTap(k).1) else None;
    if k3.hit >= HitsToClear then Frame(k3.(done := true), out, late, true)
    else Frame(k3, out, late, false)
  }

  /**
   * `updateKaraoke()` with `tapped` standing for `input.tap || keys["Space"]`: nothing when
   * done; otherwise the tick and the spawn, the fall of every note, the tap, and the clear
   * once `hit` reaches 8.
   */
  function Updated(k: KState, tapped: bool): Frame
  {
    if k.done then Frame(k, None, 0, false)
    else
      var k1 := Ticked(k);
      Finish(FallAll(k1), Late(k1.notes, k1.lineY), tapped)
  }

  /** Score gained in one update: 10 for a hit. */
  function ScoreGain(f: Frame): int
  {
    if f.outcome.Some? && f.outcome.value.Hit? then HitScore else 0
  }

  /** Once `done`, an update returns at once: nothing changes and nothing scores. */
  lemma UpdateWhenDone(k: KState, tapped: bool)
    requires k.done
    ensures Updated(k, tapped) == Frame(k, None, 0, false)
    ensures ScoreGain(Updated(k, tapped)) == 0
  {
  }

  /**
   * Each update that is not a no-op advances `time` by one and spawns exactly when fewer than
   * `total` notes exist and the new `time` is a multiple of `spawnEvery`; the tap is handled
   * exactly when there was one, `hit` and `miss` move only by its outcome and the notes that
   * fell past the line, and the clear fires exactly when `hit` has reached 8 and sets `done`.
   */
  lemma UpdateSteps(k: KState, tapped: bool)
    requires !k.done
    ensures var r := Updated(k, tapped);
      && r.state.time == k.time + 1
      && r.state.spawned == k.spawned
           + (if k.spawned < k.total && k.spawnEvery != 0 && (k.time + 1) % k.spawnEvery == 0 then 1 else 0)
      && (r.cleared <==> r.state.hit >= HitsToClear)
      && r.state.done == r.cleared
      && (r.outcome.Some? <==> tapped)
      && r.state.hit == k.hit + (if r.outcome.Some? && r.outcome.value.Hit? then 1 else 0)
      && r.state.miss == k.miss + r.late + (if r.outcome == Some(K.Miss) then 1 else 0)
  {
    TryHitCounts(FallAll(Ticked(k)));
  }

  /** After an update that is not a no-op, no live note sits more than 50 below the line. */
  lemma UpdateNoLateNote(k: KState, tapped: bool)
    requires !k.done
    ensures var r := Updated(k, tapped);
      forall i :: 0 <= i < |r.state.notes| && r.state.notes[i].alive ==> r.state.notes[i].y <= k.lineY + LateMargin
  {
    var k2 := FallAll(Ticked(k));
    TryHitCounts(k2);
    var r := Updated(k, tapped);
    forall i | 0 <= i < |r.state.notes| && r.state.notes[i].alive
      ensures r.state.notes[i].y <= k.lineY + LateMargin
    {
      assert r.state.notes[i] == k2.notes[i];
    }
  }

  /** Tapping keeps the dead count at least `hit`: a hit kills a live note. */
  lemma TryHitValid(k: KState)
    requires 0 <= k.hit <= K.DeadCount(k.notes) && 0 <= k.miss
    ensures var r := AfterTap(k).0;
      0 <= r.hit <= K.DeadCount(r.notes) && 0 <= r.miss && |r.notes| == |k.notes|
      && r == k.(notes := r.notes, hit := r.hit, miss := r.miss)
  {
    var p := K.Nearest(k.notes, k.lineY);
    if p.best.Some? && p.bestD <= HitWindow {
      K.DeadInKill(k.notes, p.best.value, |k.notes|);
    }
  }

  /** A valid record stays valid across an update: one note per 40 updates, and `done` exactly at 8 hits. */
  lemma UpdateValid(k: KState, tapped: bool)
    requires Valid(k)
    ensures Valid(Updated(k, tapped).state)
  {
    if !k.done {
      TickedSpawned(k);
      var k1 := Ticked(k);
      FallenDeadIn(k1.notes, k1.lineY, |k1.notes|);
      var k2 := FallAll(k1);
      if tapped {
        TryHitValid(k2);
      }
    }
  }

  /** The `karaoke` record. */
  class Karaoke {
    var lineY: real
    var notes: seq<K.Note>
    var time: int
    var spawnEvery: int
    var total: int
    var spawned: int
    var hit: int
    var miss: int
    var done: bool

    function Model(): KState
      reads this
    {
      KState(lineY, notes, time, spawnEvery, total, spawned, hit, miss, done)
    }

    /** `initKaraoke()`. */
    constructor Init(h: real)
      ensures Model() == Initial(h)
    {
      lineY := h * 0.78;
      notes := [];
      time := 0;
      spawnEvery := SpawnEvery;
      total := TotalNotes;
      spawned := 0;
      hit := 0;
      miss := 0;
      done := false;
    }

    /** `spawnNote()`. */
    method SpawnNote()
      modifies this
      ensures Model() == Spawn(old(Model()))
    {
      notes := notes + [NewNote()];
      spawned := spawned + 1;
    }

    /** The note loop of `updateKaraoke`; `late` counts the "Miss!" notes. */
    method FallNotes() returns (late: nat)
      modifies this
      ensures Model() == FallAll(old(Model()))
      ensures late == Late(old(notes), old(lineY))
    {
      ghost var k1 := Model();
      ghost var fallen := Fallen(k1.notes, k1.lineY);
      late := 0;
      var i := 0;
      while i < |notes|
        invariant 0 <= i <= |notes| == |k1.notes|
        invariant forall j :: 0 <= j < i ==> notes[j] == fallen[j]
        invariant forall j :: i <= j < |notes| ==> notes[j] == k1.notes[j]
        invariant late == K.KilledIn(k1.notes, fallen, i)
        invariant Model() == k1.(notes := notes, miss := k1.miss + late)
      {
        var n := notes[i];
        if n.alive {
          var y := n.y + n.speed;
          if y > lineY + LateMargin {
            notes := notes[i := n.(y := y, alive := false)];
            miss := miss + 1;
            late := late + 1;
          } else {
            notes := notes[i := n.(y := y)];
          }
        }
        i := i + 1;
      }
      assert notes == fallen;
    }

    /** The tap block of `updateKaraoke`. */
    method TryHit() returns (out: K.Outcome)
      modifies this
      ensures (Model(), out) == AfterTap(old(Model()))
    {
      var best, bestD := K.FindNearest(notes, lineY);
      if best.Some? && bestD <= HitWindow {
        var i := best.value;
        notes := notes[i := notes[i].(alive := false)];
        hit := hit + 1;
        out := K.Hit(bestD <= PerfectWindow);
      } else {
        miss := miss + 1;
        out := K.Miss;
      }
    }

    /** The head of `updateKaraoke`: `time += 1` and the spawn. */
    method TickSpawn()
      modifies this
      ensures Model() == Ticked(old(Model()))
    {
      time := time + 1;
      if spawned < total && spawnEvery != 0 && time % spawnEvery == 0 {
        SpawnNote();
      }
    }

    /** The tail of `updateKaraoke`: the tap, then the clear once `hit` reaches 8. */
    method TapAndClear(late: nat, tapped: bool) returns (outcome: Option<K.Outcome>, cleared: bool)
      modifies this
      ensures Frame(Model(), outcome, late, cleared) == Finish(old(Model()), late, tapped)
    {
      outcome := None;
      if tapped {
        var o := TryHit();
        outcome := Some(o);
      }
      cleared := false;
      if hit >= HitsToClear {
        done := true;
        cleared := true;
      }
    }

    /** `updateKaraoke()`, with `tapped` for `input.tap || keys["Space"]`. */
    method Update(tapped: bool) returns (outcome: Option<K.Outcome>, late: nat, cleared: bool)
      modifies this
      ensures Frame(Model(), outcome, late, cleared) == Updated(old(Model()), tapped)
    {
      if done {
        return None, 0, false;
      }
      TickSpawn();
      late := FallNotes();
      outcome, cleared := TapAndClear(late, tapped);
    }
  }
}
