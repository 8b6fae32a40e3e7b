/*
 * The scene flow of script.js: the globals `scene`, `score` and `running`,
 * the `startAction` of the start button, `setScene`, `showOverlayForScene`,
 * `showNextOverlay`, `resetAll`, `resetSceneState`, the boot and the frame
 * handling of `loop`.  Unlike app.js, `setScene` here only switches the scene
 * and shows its overlay; the record is set up by `resetSceneState` when the
 * game starts.  The callback `startAction` is the enumeration `Action`; the
 * three game records are `karaoke`, `skate` and `swim`, undefined until their
 * scene is first set up.  The stage size, the clock, the draws of
 * `Math.random()` and the keys and pointer position are parameters.
 */
module ScriptFlow {
  import opened Numeric
  import opened AppPhysics
  import F = AppFlow
  import SK = ScriptKaraoke
  import SS = ScriptSkate
  import SW = ScriptSwim
  import AS = AppSkate

  /** The callbacks `startAction` takes: nothing yet, the start of the current scene, "Next" to a scene. */
  datatype Action = Nothing | StartScene | NextScene(n: int)

  /** What one frame of `loop` reads besides the state: the arrow keys and the pointer position `input.x`, `input.y`. */
  datatype Input = Input(keys: Keys, x: real, y: real)

  /**
   * The state of the flow: `scene`, `score`, `running`, whether the overlay is shown, the
   * pending `startAction`, whether the proposal modal is shown, the three records, the next
   * unused draw, `keys["Space"]`, `input.tap`, `input.pointerJustDown` and the time `last`.
   */
  datatype FState = FState(scene: int, score: int, running: bool, overlayShown: bool, action: Action,
                           proposalShown: bool, karaoke: Option<SK.KState>, skate: Option<SS.SState>,
                           swim: Option<SW.WState>, draws: nat, space: bool, tap: bool, justDown: bool, last: real)

  /** Every record that has been set up is valid. */
  predicate RecordsValid(f: FState)
  {
    && (f.karaoke.Some? ==> SK.Valid(f.karaoke.value))
    && (f.skate.Some? ==> SS.Valid(f.skate.value))
    && (f.swim.Some? ==> SW.Valid(f.swim.value))
  }

  /** The record of the current scene has been set up. */
  predicate Placed(f: FState)
  {
    && (f.scene == 0 ==> f.karaoke.Some?)
    && (f.scene == 1 ==> f.skate.Some?)
    && (f.scene == 2 ==> f.swim.Some?)
  }

  /**
   * What the flow keeps: a scene in 0..2, the record of the current scene set up, every record
   * that exists valid, a score that is not negative, no running game behind the overlay, and a
   * "Next" action to one of the later scenes.
   */
  predicate Valid(f: FState)
  {
    && 0 <= f.scene <= 2
    && Placed(f)
    && RecordsValid(f)
    && 0 <= f.score
    && (f.running ==> !f.overlayShown)
    && (f.action.NextScene? ==> 1 <= f.action.n <= 2)
  }

  /** `resetSceneState()`: a fresh record for the current scene; `initSkate` and `initSwim` draw from the cursor. */
  function ResetScene(f: FState, w: real, h: real, rnd: Stream, hypot: Hypot): (r: FState)
    requires IsRandom(rnd)
  {
    if f.scene == 0 then f.(karaoke := Some(SK.Initial(h)))
    else if f.scene == 1 then
      var (s, c) := SS.InitSkate(w, h, rnd, f.draws);
      f.(skate := Some(s), draws := c)
    else if f.scene == 2 then
      var (s, c) := SW.InitSwim(w, h, rnd, f.draws, hypot);
      f.(swim := Some(s), draws := c)
    else f
  }

  /** `showOverlayForScene()`: the overlay is shown, the game stops, and the button will start the scene. */
  function ShowOverlay(f: FState): FState
  {
    f.(overlayShown := true, running := false, action := StartScene)
  }

  /** `setScene(n)`: the scene switches and its start overlay is shown; no record is set up. */
  function SetScene(f: FState, n: int): FState
  {
    ShowOverlay(f.(scene := n))
  }

  /** `showNextOverlay(..., action)` for "Next" to scene `n`: the overlay is shown with that action. */
  function ShowNext(f: FState, n: int): FState
  {
    f.(overlayShown := true, action := NextScene(n))
  }

  /** `resetAll()`: score 0, the modals closed, scene 0 with a fresh karaoke record behind its start overlay. */
  function ResetAll(f: FState, h: real): FState
  {
    SetScene(f.(score := 0, proposalShown := false), 0).(karaoke := Some(SK.Initial(h)), overlayShown := true, running := false)
  }

  /** `boot()` at time `now`: nothing set up, then `setScene(0)`, `resetSceneState()` and the overlay. */
  function Boot(now: real, w: real, h: real, rnd: Stream, c: nat, hypot: Hypot): FState
    requires IsRandom(rnd)
  {
    var f := FState(0, 0, false, false, Nothing, false, None, None, None, c, false, false, false, now);
    ResetScene(SetScene(f, 0), w, h, rnd, hypot).(overlayShown := true, running := false)
  }

  /**
   * A click on the start button runs `startAction`.  The start of a scene hides the overlay,
   * runs the game and sets its record up; "Next" first runs `setScene(n)` (which installs the
   * start action) and then does the same.
   */
  function Pressed(f: FState, w: real, h: real, rnd: Stream, hypot: Hypot): FState
    requires IsRandom(rnd)
  {
    match f.action
    case Nothing => f
    case StartScene => ResetScene(f.(overlayShown := false, running := true), w, h, rnd, hypot)
    case NextScene(n) => ResetScene(SetScene(f, n).(overlayShown := false, running := true), w, h, rnd, hypot)
  }

  /** What the flow does with a karaoke frame `r`: a hit scores 10, the clear stops the game behind "Next" to scene 1. */
  function AfterKaraoke(f: FState, r: SK.Frame): FState
  {
    var f1 := f.(karaoke := Some(r.state), score := f.score + SK.ScoreGain(r));
    if r.cleared then ShowNext(f1.(running := false), 1) else f1
  }

  /** The karaoke frame: `updateKaraoke()` with `tapped` as `input.tap || keys["Space"]`. */
  function KaraokeFrame(f: FState): FState
    requires f.karaoke.Some?
  {
    AfterKaraoke(f, SK.Updated(f.karaoke.value, f.tap || f.space))
  }

  /** What the flow does with a skating frame `r`: every heart scores 12, the clear stops the game behind "Next" to scene 2. */
  function AfterSkate(f: FState, r: SS.SFrame): FState
  {
    var f1 := f.(skate := Some(r.state), score := f.score + r.gain);
    if r.cleared then ShowNext(f1.(running := false), 2) else f1
  }

  /** The skating frame: `updateSkate()`. */
  function SkateFrame(f: FState, w: real, h: real, inp: Input, hypot: Hypot): FState
    requires IsHypot(hypot) && f.skate.Some?
  {
    AfterSkate(f, SS.Updated(f.skate.value, w, h, inp.keys, f.justDown, inp.x, inp.y, hypot))
  }

  /** What the flow does with a swimming frame `r`: the tag stops the game, scores 25 and shows the proposal. */
  function AfterSwim(f: FState, r: SW.WFrame): FState
  {
    var f1 := f.(swim := Some(r.state), draws := r.next);
    if r.tagged then f1.(running := false, score := f1.score + SW.TagScore, proposalShown := true) else f1
  }

  /** The swimming frame: `updateSwim(dt)`. */
  function SwimFrame(f: FState, dt: real, inp: Input, rnd: Stream, hypot: Hypot): FState
    requires IsRandom(rnd) && IsHypot(hypot) && f.swim.Some?
  {
    AfterSwim(f, SW.Updated(f.swim.value, dt, inp.keys, f.justDown, inp.x, inp.y, rnd, f.draws, hypot))
  }

  /** What a frame needs: a scene in 0..2 and, while running, its record. */
  predicate Ready(f: FState)
  {
    && 0 <= f.scene <= 2
    && (f.running && f.scene == 0 ==> f.karaoke.Some?)
    && (f.running && f.scene == 1 ==> f.skate.Some?)
    && (f.running && f.scene == 2 ==> f.swim.Some?)
  }

  /** A valid flow is ready for a frame. */
  lemma ValidReady(f: FState)
    requires Valid(f)
    ensures Ready(f)
  {
  }

  /**
   * The update part of a frame of `loop`: the update of the current scene only and only while
   * running; the karaoke and skating updates take no `dt`.
   */
  function SceneUpdated(f: FState, dt: real, inp: Input, w: real, h: real, rnd: Stream, hypot: Hypot): FState
    requires Ready(f) && IsRandom(rnd) && IsHypot(hypot)
  {
    if !f.running then f
    else if f.scene == 0 then KaraokeFrame(f)
    else if f.scene == 1 then SkateFrame(f, w, h, inp, hypot)
    else SwimFrame(f, dt, inp, rnd, hypot)
  }

  /**
   * One frame of `loop(now)`: the clamped `dt` and the new `last`, the update, then
   * `input.tap` and `input.pointerJustDown` cleared.
   */
  function Ticked(f: FState, now: real, inp: Input, w: real, h: real, rnd: Stream, hypot: Hypot): FState
    requires Ready(f) && IsRandom(rnd) && IsHypot(hypot)
  {
    SceneUpdated(f.(last := now), F.Delta(f.last, now), inp, w, h, rnd, hypot).(tap := false, justDown := false)
  }

  /*
   * Properties of the flow.
   */

  /**
   * `resetSceneState()` sets up a valid record for a scene in 0..2 and changes nothing but
   * that record and the draw cursor.
   */
  lemma ResetSceneFacts(f: FState, w: real, h: real, rnd: Stream, hypot: Hypot)
    requires IsRandom(rnd) && 0 <= f.scene <= 2
    ensures var r := ResetScene(f, w, h, rnd, hypot);
      && r.(karaoke := f.karaoke, skate := f.skate, swim := f.swim, draws := f.draws) == f
      && (f.scene == 0 ==> r.karaoke == Some(SK.Initial(h)) && r.skate == f.skate && r.swim == f.swim)
      && (f.scene == 1 ==> r.skate == Some(SS.InitSkate(w, h, rnd, f.draws).0) && SS.Valid(r.skate.value)
                           && r.karaoke == f.karaoke && r.swim == f.swim)
      && (f.scene == 2 ==> r.swim == Some(SW.InitSwim(w, h, rnd, f.draws, hypot).0) && SW.Valid(r.swim.value)
                           && r.karaoke == f.karaoke && r.skate == f.skate)
  {
    if f.scene == 1 {
      SS.InitSkateValid(w, h, rnd, f.draws);
    } else if f.scene == 2 {
      SW.InitSwimValid(w, h, rnd, f.draws, hypot);
    }
  }

  /** `resetSceneState()` sets up the record of the current scene and keeps every record valid. */
  lemma ResetSceneValid(f: FState, w: real, h: real, rnd: Stream, hypot: Hypot)
    requires IsRandom(rnd) && 0 <= f.scene <= 2 && RecordsValid(f)
    ensures Placed(ResetScene(f, w, h, rnd, hypot)) && RecordsValid(ResetScene(f, w, h, rnd, hypot))
  {
    ResetSceneFacts(f, w, h, rnd, hypot);
  }

  /**
   * `setScene(n)` moves to scene `n`, stopped behind its start overlay, and keeps every
   * record as it was: the record of scene `n` is the old one until the game starts.
   */
  lemma SetSceneState(f: FState, n: int)
    ensures var r := SetScene(f, n);
      && r.scene == n && !r.running && r.overlayShown && r.action == StartScene
      && r.(scene := f.scene, running := f.running, overlayShown := f.overlayShown, action := f.action) == f
  {
  }

  /**
   * `resetAll()` leaves score 0, scene 0 with a fresh karaoke record, the game stopped behind
   * the start overlay and the modal closed, the other records and the time untouched; from a
   * valid flow the result is valid.
   */
  lemma ResetAllState(f: FState, h: real)
    ensures var r := ResetAll(f, h);
      && r.score == 0 && r.scene == 0 && !r.running && r.overlayShown && r.action == StartScene
      && !r.proposalShown && r.karaoke == Some(SK.Initial(h))
      && r.skate == f.skate && r.swim == f.swim && r.draws == f.draws && r.last == f.last
      && (Valid(f) ==> Valid(r))
  {
  }

  /** The boot starts a valid flow at scene 0 with a fresh karaoke record, stopped behind its start overlay. */
  lemma BootState(now: real, w: real, h: real, rnd: Stream, c: nat, hypot: Hypot)
    requires IsRandom(rnd)
    ensures var r := Boot(now, w, h, rnd, c, hypot);
      && Valid(r) && r.scene == 0 && r.score == 0 && !r.running && r.overlayShown
      && r.action == StartScene && r.karaoke == Some(SK.Initial(h)) && r.skate.None? && r.swim.None?
      && r.draws == c && r.last == now && !r.tap && !r.justDown
  {
  }

  /**
   * The start button: the start action runs the current scene with a fresh record; "Next"
   * moves to its scene and runs it with a fresh record, leaving the start action installed.
   * The score is kept.
   */
  lemma PressedState(f: FState, w: real, h: real, rnd: Stream, hypot: Hypot)
    requires IsRandom(rnd) && Valid(f)
    ensures var r := Pressed(f, w, h, rnd, hypot);
      && r.score == f.score
      && (f.action == StartScene ==> r == ResetScene(f.(overlayShown := false, running := true), w, h, rnd, hypot)
                                     && r.scene == f.scene && r.running && !r.overlayShown)
      && (f.action.NextScene? ==> r.scene == f.action.n && r.running && !r.overlayShown && r.action == StartScene)
      && (f.action == Nothing ==> r == f)
  {
    match f.action
    case Nothing =>
    case StartScene =>
      ResetSceneFacts(f.(overlayShown := false, running := true), w, h, rnd, hypot);
    case NextScene(n) =>
      ResetSceneFacts(SetScene(f, n).(overlayShown := false, running := true), w, h, rnd, hypot);
  }

  /** The start button keeps the flow valid: the scene it runs gets its record. */
  lemma PressedValid(f: FState, w: real, h: real, rnd: Stream, hypot: Hypot)
    requires IsRandom(rnd) && Valid(f)
    ensures Valid(Pressed(f, w, h, rnd, hypot))
  {
    match f.action
    case Nothing =>
    case StartScene =>
      var g := f.(overlayShown := false, running := true);
      ResetSceneFacts(g, w, h, rnd, hypot);
      ResetSceneValid(g, w, h, rnd, hypot);
    case NextScene(n) =>
      var g := SetScene(f, n).(overlayShown := false, running := true);
      ResetSceneFacts(g, w, h, rnd, hypot);
      ResetSceneValid(g, w, h, rnd, hypot);
  }

  /** The karaoke frame changes the karaoke record, the score and the overlay state only. */
  lemma KaraokeFrameKeeps(f: FState)
    requires f.karaoke.Some?
    ensures var r := KaraokeFrame(f);
      r.(karaoke := f.karaoke, score := f.score, running := f.running,
         overlayShown := f.overlayShown, action := f.action) == f
  {
  }

  /** The skating frame changes the skating record, the score and the overlay state only. */
  lemma SkateFrameKeeps(f: FState, w: real, h: real, inp: Input, hypot: Hypot)
    requires IsHypot(hypot) && f.skate.Some?
    ensures var r := SkateFrame(f, w, h, inp, hypot);
      r.(skate := f.skate, score := f.score, running := f.running,
         overlayShown := f.overlayShown, action := f.action) == f
  {
  }

  /** The swimming frame changes the swimming record, the draw cursor, the score, `running` and the modal only. */
  lemma SwimFrameKeeps(f: FState, dt: real, inp: Input, rnd: Stream, hypot: Hypot)
    requires IsRandom(rnd) && IsHypot(hypot) && f.swim.Some?
    ensures var r := SwimFrame(f, dt, inp, rnd, hypot);
      r.(swim := f.swim, draws := f.draws, score := f.score, running := f.running,
         proposalShown := f.proposalShown) == f
  {
  }

  /** Applying a karaoke frame whose record is valid keeps the flow valid. */
  lemma AfterKaraokeValid(f: FState, r: SK.Frame)
    requires Valid(f) && f.scene == 0 && f.running && SK.Valid(r.state)
    ensures Valid(AfterKaraoke(f, r))
  {
  }

  /** Applying a skating frame whose record is valid and whose gain is not negative keeps the flow valid. */
  lemma AfterSkateValid(f: FState, r: SS.SFrame)
    requires Valid(f) && f.scene == 1 && f.running && SS.Valid(r.state) && 0 <= r.gain
    ensures Valid(AfterSkate(f, r))
  {
  }

  /** Applying a swimming frame whose record is valid keeps the flow valid. */
  lemma AfterSwimValid(f: FState, r: SW.WFrame)
    requires Valid(f) && f.scene == 2 && SW.Valid(r.state)
    ensures Valid(AfterSwim(f, r))
  {
  }

  /** The update part of a frame keeps the flow valid. */
  lemma SceneUpdatedValid(f: FState, dt: real, inp: Input, w: real, h: real, rnd: Stream, hypot: Hypot)
    requires Valid(f) && IsRandom(rnd) && IsHypot(hypot) && 0.0 <= dt
    ensures Valid(SceneUpdated(f, dt, inp, w, h, rnd, hypot))
  {
    if f.running {
      if f.scene == 0 {
        var r := SK.Updated(f.karaoke.value, f.tap || f.space);
        SK.UpdateValid(f.karaoke.value, f.tap || f.space);
        AfterKaraokeValid(f, r);
      } else if f.scene == 1 {
        var r := SS.Updated(f.skate.value, w, h, inp.keys, f.justDown, inp.x, inp.y, hypot);
        SS.UpdateClear(f.skate.value, w, h, inp.keys, f.justDown, inp.x, inp.y, hypot);
        AfterSkateValid(f, r);
      } else {
        var r := SW.Updated(f.swim.value, dt, inp.keys, f.justDown, inp.x, inp.y, rnd, f.draws, hypot);
        SW.UpdateValid(f.swim.value, dt, inp.keys, f.justDown, inp.x, inp.y, rnd, f.draws, hypot);
        AfterSwimValid(f, r);
      }
    }
  }

  /** Every frame keeps the flow valid. */
  lemma TickedValid(f: FState, now: real, inp: Input, w: real, h: real, rnd: Stream, hypot: Hypot)
    requires Valid(f) && IsRandom(rnd) && IsHypot(hypot)
    ensures Valid(Ticked(f, now, inp, w, h, rnd, hypot))
  {
    SceneUpdatedValid(f.(last := now), F.Delta(f.last, now), inp, w, h, rnd, hypot);
  }

  /**
   * A frame while the game is stopped changes nothing but the time and the input flags; a
   * frame never changes the scene nor the records of the other scenes,
   * keeps `keys["Space"]` and always clears `input.tap` and `input.pointerJustDown`.
   */
  lemma TickedScene(f: FState, now: real, inp: Input, w: real, h: real, rnd: Stream, hypot: Hypot)
    requires Valid(f) && IsRandom(rnd) && IsHypot(hypot)
    ensures var r := Ticked(f, now, inp, w, h, rnd, hypot);
      && r.scene == f.scene && !r.tap && !r.justDown && r.last == now && r.space == f.space
      && (!f.running ==> r == f.(last := now, tap := false, justDown := false))
      && (f.scene != 0 ==> r.karaoke == f.karaoke)
      && (f.scene != 1 ==> r.skate == f.skate)
      && (f.scene != 2 ==> r.swim == f.swim && r.draws == f.draws && r.proposalShown == f.proposalShown)
  {
    var f1 := f.(last := now);
    if f.running && f.scene == 0 {
      KaraokeFrameKeeps(f1);
    } else if f.running && f.scene == 1 {
      SkateFrameKeeps(f1, w, h, inp, hypot);
    } else if f.running && f.scene == 2 {
      SwimFrameKeeps(f1, F.Delta(f.last, now), inp, rnd, hypot);
    }
  }

  /** A karaoke frame scores 10 exactly on a hit and nothing otherwise. */
  lemma KaraokeFrameScore(f: FState)
    requires f.karaoke.Some?
    ensures var r := SK.Updated(f.karaoke.value, f.tap || f.space);
      KaraokeFrame(f).score == f.score + (if r.outcome.Some? && r.outcome.value.Hit? then SK.HitScore else 0)
  {
  }

  /** A skating frame scores 12 for every heart it collects. */
  lemma SkateFrameScore(f: FState, w: real, h: real, inp: Input, hypot: Hypot)
    requires IsHypot(hypot) && f.skate.Some? && SS.Valid(f.skate.value)
    ensures var sr := SS.Updated(f.skate.value, w, h, inp.keys, f.justDown, inp.x, inp.y, hypot);
      SkateFrame(f, w, h, inp, hypot).score
        == f.score + SS.TokenScore * AS.TakenIn(f.skate.value.tokens, sr.state.tokens, |f.skate.value.tokens|)
  {
    var sr := SS.Updated(f.skate.value, w, h, inp.keys, f.justDown, inp.x, inp.y, hypot);
    SS.UpdateClear(f.skate.value, w, h, inp.keys, f.justDown, inp.x, inp.y, hypot);
    assert SkateFrame(f, w, h, inp, hypot).score == f.score + sr.gain;
  }

  /**
   * A swimming frame scores 25 exactly on the tag, which happens only on a swim that is not
   * finished and whose bodies touch; the tag finishes the swim, stops the game and shows the
   * proposal.
   */
  lemma SwimFrameScore(f: FState, dt: real, inp: Input, rnd: Stream, hypot: Hypot)
    requires IsRandom(rnd) && IsHypot(hypot) && f.swim.Some?
    ensures var wr := SW.Updated(f.swim.value, dt, inp.keys, f.justDown, inp.x, inp.y, rnd, f.draws, hypot);
      var r := SwimFrame(f, dt, inp, rnd, hypot);
      && r.score == f.score + (if wr.tagged then SW.TagScore else 0)
      && (wr.tagged <==> !f.swim.value.done && SW.Touching(wr.state, hypot))
      && (wr.tagged ==> r.swim.value.done && !r.running && r.proposalShown)
  {
    SW.UpdateTag(f.swim.value, dt, inp.keys, f.justDown, inp.x, inp.y, rnd, f.draws, hypot);
  }

  /**
   * Scores only grow: a karaoke frame adds 10 exactly on a hit, a skating frame 12 per heart,
   * a swimming frame 25 exactly on the tag; a stopped game and a finished swim never score.
   */
  lemma TickedScore(f: FState, now: real, inp: Input, w: real, h: real, rnd: Stream, hypot: Hypot)
    requires Valid(f) && IsRandom(rnd) && IsHypot(hypot)
    ensures var r := Ticked(f, now, inp, w, h, rnd, hypot);
      && f.score <= r.score
      && (f.scene == 0 ==> r.score == f.score || r.score == f.score + SK.HitScore)
      && (!f.running ==> r.score == f.score)
      && (f.scene == 2 && f.swim.value.done ==> r.score == f.score)
  {
    var f1 := f.(last := now);
    if f.running && f.scene == 0 {
      KaraokeFrameScore(f1);
    } else if f.running && f.scene == 1 {
      SkateFrameScore(f1, w, h, inp, hypot);
      SS.UpdateClear(f.skate.value, w, h, inp.keys, f.justDown, inp.x, inp.y, hypot);
    } else if f.running && f.scene == 2 {
      SwimFrameScore(f1, F.Delta(f.last, now), inp, rnd, hypot);
    }
  }

  /**
   * A karaoke or skating game that ends stops the flow behind the "Next" overlay to the next
   * scene; a tag stops the swim with the overlay as it was.  A frame that ends nothing leaves
   * `running`, the overlay and its action as they were.
   */
  lemma TickedEnd(f: FState, now: real, inp: Input, w: real, h: real, rnd: Stream, hypot: Hypot)
    requires Valid(f) && IsRandom(rnd) && IsHypot(hypot) && f.running
    ensures var r := Ticked(f, now, inp, w, h, rnd, hypot);
      var ended :=
        if f.scene == 0 then SK.Updated(f.karaoke.value, f.tap || f.space).cleared
        else if f.scene == 1 then SS.Updated(f.skate.value, w, h, inp.keys, f.justDown, inp.x, inp.y, hypot).cleared
        else SW.Updated(f.swim.value, F.Delta(f.last, now), inp.keys, f.justDown, inp.x, inp.y, rnd, f.draws, hypot).tagged;
      && (ended ==> !r.running)
      && (ended && f.scene < 2 ==> r.overlayShown && r.action == NextScene(f.scene + 1))
      && (!ended || f.scene == 2 ==> r.overlayShown == f.overlayShown && r.action == f.action)
      && (!ended ==> r.running)
  {
  }

  /** The globals of script.js with the three game records. */
  class Game {
    var scene: int
    var score: int
    var running: bool
    var overlayShown: bool
    var action: Action
    var proposalShown: bool
    var karaoke: Option<SK.KState>
    var skate: Option<SS.SState>
    var swim: Option<SW.WState>
    var draws: nat
    var space: bool
    var tap: bool
    var justDown: bool
    var last: real

    function Model(): FState
      reads this
    {
      FState(scene, score, running, overlayShown, action, proposalShown, karaoke, skate, swim,
             draws, space, tap, justDown, last)
    }

    /** `boot()` at time `now`, from the draws `rnd(c)`, `rnd(c + 1)`, ... */
    constructor Init(now: real, w: real, h: real, rnd: Stream, c: nat, hypot: Hypot)
      requires IsRandom(rnd)
      ensures Model() == Boot(now, w, h, rnd, c, hypot)
    {
      scene, score, running, overlayShown, action, proposalShown := 0, 0, false, false, Nothing, false;
      karaoke, skate, swim := None, None, None;
      draws, space, tap, justDown, last := c, false, false, false, now;
      new;
      SetSceneTo(0);
      ResetSceneState(w, h, rnd, hypot);
      overlayShown := true;
      running := false;
    }

    /** `resetSceneState()`. */
    method ResetSceneState(w: real, h: real, rnd: Stream, hypot: Hypot)
      requires IsRandom(rnd)
      modifies this
      ensures Model() == ResetScene(old(Model()), w, h, rnd, hypot)
    {
      if scene == 0 {
        var k := new SK.Karaoke.Init(h);
        karaoke := Some(k.Model());
      } else if scene == 1 {
        var sk, c := SS.NewSkate(w, h, rnd, draws);
        skate, draws := Some(sk.Model()), c;
      } else if scene == 2 {
        var sw, c := SW.NewSwim(w, h, rnd, draws, hypot);
        swim, draws := Some(sw.Model()), c;
      }
    }

    /** `showOverlayForScene()`. */
    method ShowOverlayForScene()
      modifies this
      ensures Model() == ShowOverlay(old(Model()))
    {
      overlayShown := true;
      running := false;
      action := StartScene;
    }

    /** `setScene(n)`. */
    method SetSceneTo(n: int)
      modifies this
      ensures Model() == SetScene(old(Model()), n)
    {
      scene := n;
      ShowOverlayForScene();
    }

    /** `showNextOverlay(..., action)` with the "Next" action to scene `n`. */
    method ShowNextOverlay(n: int)
      modifies this
      ensures Model() == ShowNext(old(Model()), n)
    {
      overlayShown := true;
      action := NextScene(n);
    }

    /** `resetAll()`. */
    method Reset(h: real)
      modifies this
      ensures Model() == ResetAll(old(Model()), h)
    {
      score := 0;
      proposalShown := false;
      SetSceneTo(0);
      var k := new SK.Karaoke.Init(h);
      karaoke := Some(k.Model());
      overlayShown := true;
      running := false;
    }

    /** The start button: `startAction()`. */
    method Press(w: real, h: real, rnd: Stream, hypot: Hypot)
      requires IsRandom(rnd)
      modifies this
      ensures Model() == Pressed(old(Model()), w, h, rnd, hypot)
    {
      match action
      case Nothing =>
      case StartScene =>
        overlayShown := false;
        running := true;
        ResetSceneState(w, h, rnd, hypot);
      case NextScene(n) =>
        SetSceneTo(n);
        overlayShown := false;
        running := true;
        ResetSceneState(w, h, rnd, hypot);
    }

    /** The karaoke branch of `loop`: `updateKaraoke()`, its score and its clear. */
    method KaraokeStep()
      requires karaoke.Some?
      modifies this
      ensures Model() == KaraokeFrame(old(Model()))
    {
      var r := SK.Updated(karaoke.value, tap || space);
      ApplyKaraoke(r);
    }

    /** The flow's handling of the karaoke frame `r`. */
    method ApplyKaraoke(r: SK.Frame)
      modifies this
      ensures Model() == AfterKaraoke(old(Model()), r)
    {
      karaoke := Some(r.state);
      if r.outcome.Some? && r.outcome.value.Hit? {
        score := score + SK.HitScore;
      }
      if r.cleared {
        running := false;
        ShowNextOverlay(1);
      }
    }

    /** The skating branch of `loop`: `updateSkate()`, its score and its clear. */
    method SkateStep(w: real, h: real, inp: Input, hypot: Hypot)
      requires IsHypot(hypot) && skate.Some?
      modifies this
      ensures Model() == SkateFrame(old(Model()), w, h, inp, hypot)
    {
      var r := SS.Updated(skate.value, w, h, inp.keys, justDown, inp.x, inp.y, hypot);
      ApplySkate(r);
    }

    /** The flow's handling of the skating frame `r`. */
    method ApplySkate(r: SS.SFrame)
      modifies this
      ensures Model() == AfterSkate(old(Model()), r)
    {
      skate, score := Some(r.state), score + r.gain;
      if r.cleared {
        running := false;
        ShowNextOverlay(2);
      }
    }

    /** The swimming branch of `loop`: `updateSwim(dt)` and its tag. */
    method SwimStep(dt: real, inp: Input, rnd: Stream, hypot: Hypot)
      requires IsRandom(rnd) && IsHypot(hypot) && swim.Some?
      modifies this
      ensures Model() == SwimFrame(old(Model()), dt, inp, rnd, hypot)
    {
      var r := SW.Updated(swim.value, dt, inp.keys, justDown, inp.x, inp.y, rnd, draws, hypot);
      ApplySwim(r);
    }

    /** The flow's handling of the swimming frame `r`: on the tag, `running = false`, `score += 25` and `showProposal()`. */
    method ApplySwim(r: SW.WFrame)
      modifies this
      ensures Model() == AfterSwim(old(Model()), r)
    {
      swim, draws := Some(r.state), r.next;
      if r.tagged {
        running := false;
        score := score + SW.TagScore;
        proposalShown := true;
      }
    }

    /** The update part of a frame of `loop`. */
    method Step(dt: real, inp: Input, w: real, h: real, rnd: Stream, hypot: Hypot)
      requires Ready(Model()) && IsRandom(rnd) && IsHypot(hypot)
      modifies this
      ensures Model() == SceneUpdated(old(Model()), dt, inp, w, h, rnd, hypot)
    {
      if running {
        if scene == 0 {
          KaraokeStep();
        } else if scene == 1 {
          SkateStep(w, h, inp, hypot);
        } else {
          SwimStep(dt, inp, rnd, hypot);
        }
      }
    }

    /** One frame of `loop(now)`. */
    method Tick(now: real, inp: Input, w: real, h: real, rnd: Stream, hypot: Hypot)
      requires Ready(Model()) && IsRandom(rnd) && IsHypot(hypot)
      modifies this
      ensures Model() == Ticked(old(Model()), now, inp, w, h, rnd, hypot)
    {
      var dt := F.Delta(last, now);
      last := now;
      Step(dt, inp, w, h, rnd, hypot);
      tap := false;
      justDown := false;
    }

    /** A pointer press sets `input.pointerJustDown` and `input.tap`. */
    method PointerDown()
      modifies this
      ensures Model() == old(Model()).(tap := true, justDown := true)
    {
      tap := true;
      justDown := true;
    }

    /** A key press or release of Space sets `keys["Space"]`. */
    method SetSpace(down: bool)
      modifies this
      ensures Model() == old(Model()).(space := down)
    {
      space := down;
    }
  }
}
