/*
 * The scene flow of app.js: the globals `scene`, `score` and `running`, the
 * pending `overlayAction` of the start button, `resetSceneState`, `setScene`,
 * `showOverlayForScene`, `resetAll` and the frame handling of `loop`.  The
 * callback `overlayAction` is the enumeration `Action`; the three game records
 * are the objects `karaoke`, `skate` and `swim`, `null` until their scene is
 * first set up.  The stage size, the clock, the draws of `Math.random()` and
 * the per-frame input are parameters.
 */
module AppFlow {
  import opened Numeric
  import opened AppPhysics
  import K = AppKaraoke
  import S = AppSkate
  import W = AppSwim

  /** `loop` clamps the frame time to at most 0.05 s. */
  const MaxDt: real := 0.05

  /** The callbacks `overlayAction` takes: the start of the current scene, "Next" to a scene, the proposal. */
  datatype Action = Nothing | StartScene | NextScene(n: int) | OpenProposal

  /**
   * What one frame of `loop` reads besides the state: the arrow keys, the pointer, the
   * `dampFactor` values of the frame (0.55, 0.85, 0.90 and 0.93 raised to `dt * 60`) and the
   * girl's steered velocity.
   */
  datatype Input = Input(keys: Keys, ptr: Pointer, d55: real, d85: real, d90: real, d93: real, steer: (real, real))

  /**
   * The state of the flow: `scene`, `score`, `running`, whether the overlay is shown, its
   * pending action, whether the proposal modal is shown, the three records, the next unused
   * draw, `keys["Space"]`, `input.tap` and the time `last` of the previous frame.
   */
  datatype FState = FState(scene: int, score: int, running: bool, overlayShown: bool, action: Action,
                           proposalShown: bool, karaoke: Option<K.KState>, skate: Option<S.SState>,
                           swim: Option<W.WState>, draws: nat, space: bool, tap: bool, last: real)

  /** The frame time of `loop`: the elapsed milliseconds in seconds, clamped to [0, 0.05]. */
  function Delta(last: real, now: real): (dt: real)
    ensures 0.0 <= dt <= MaxDt
    ensures 0.0 <= (now - last) / 1000.0 <= MaxDt ==> dt == (now - last) / 1000.0
    ensures now <= last ==> dt == 0.0
    ensures (now - last) / 1000.0 >= MaxDt ==> dt == MaxDt
  {
    Clamp((now - last) / 1000.0, 0.0, MaxDt)
  }

  /**
   * What the flow keeps: a scene in 0..2 whose record is set up and valid, a score that is
   * not negative, no running game behind the overlay, and a "Next" action to one of the
   * later scenes.
   */
  predicate Valid(f: FState)
  {
    && 0 <= f.scene <= 2
    && (f.scene == 0 ==> f.karaoke.Some? && K.Valid(f.karaoke.value))
    && (f.scene == 1 ==> f.skate.Some? && S.Valid(f.skate.value))
    && (f.scene == 2 ==> f.swim.Some? && W.Valid(f.swim.value))
    && 0 <= f.score
    && (f.running ==> !f.overlayShown)
    && (f.action.NextScene? ==> 1 <= f.action.n <= 2)
  }

  /** `resetSceneState()`: a fresh record for the current scene. */
  function ResetScene(f: FState, w: real, h: real, rnd: Stream, hypot: Hypot): (r: FState)
    requires IsRandom(rnd)
  {
    if f.scene == 0 then f.(karaoke := Some(K.Initial(w, h)))
    else if f.scene == 1 then
      var (s, c) := S.InitSkate(w, h, rnd, f.draws, hypot);
      f.(skate := Some(s), draws := c)
    else if f.scene == 2 then
      var (s, c) := W.InitSwim(w, h, rnd, f.draws, hypot);
      f.(swim := Some(s), draws := c)
    else f
  }

  /** `showOverlayForScene()`: the overlay is shown, the game stops, and the button will start the scene. */
  function ShowOverlay(f: FState): FState
  {
    f.(overlayShown := true, running := false, action := StartScene)
  }

  /** `setScene(n)`. */
  function SetScene(f: FState, n: int, w: real, h: real, rnd: Stream, hypot: Hypot): FState
    requires IsRandom(rnd)
  {
    ShowOverlay(ResetScene(f.(scene := n), w, h, rnd, hypot))
  }

  /** `resetAll()`: score 0, the modals closed, scene 0 behind its start overlay. */
  function ResetAll(f: FState, w: real, h: real, rnd: Stream, hypot: Hypot): FState
    requires IsRandom(rnd)
  {
    SetScene(f.(score := 0, proposalShown := false), 0, w, h, rnd, hypot).(overlayShown := true, running := false)
  }

  /** The boot of app.js at time `now`: nothing set up, then `setScene(0)` behind the overlay. */
  function Boot(now: real, w: real, h: real, rnd: Stream, c: nat, hypot: Hypot): FState
    requires IsRandom(rnd)
  {
    var f := FState(0, 0, false, true, Nothing, false, None, None, None, c, false, false, now);
    SetScene(f, 0, w, h, rnd, hypot).(overlayShown := true, running := false)
  }

  /**
   * A click on the start button runs `overlayAction`.  The start of a scene hides the
   * overlay, runs it and sets its record up again; "Next" first runs `setScene(n)` (which
   * sets the record up and installs the start action) and then does the same; the proposal
   * action hides the overlay and shows the proposal modal.
   */
  function Pressed(f: FState, w: real, h: real, rnd: Stream, hypot: Hypot): FState
    requires IsRandom(rnd)
  {
    match f.action
    case Nothing => f
    case StartScene => ResetScene(f.(overlayShown := false, running := true), w, h, rnd, hypot)
    case NextScene(n) =>
      ResetScene(SetScene(f, n, w, h, rnd, hypot).(overlayShown := false, running := true), w, h, rnd, hypot)
    case OpenProposal => f.(overlayShown := false, proposalShown := true)
  }

  /** What the flow does with a karaoke frame `r`: a hit scores 10, the clear offers "Next" to scene 1. */
  function AfterKaraoke(f: FState, r: K.Frame, tapped: bool): FState
    requires f.karaoke.Some?
  {
    var f1 := f.(karaoke := Some(r.state), score := f.score + K.ScoreGain(r),
                 space := if !f.karaoke.value.done && tapped then false else f.space);
    if r.cleared then f1.(running := false, overlayShown := true, action := NextScene(1)) else f1
  }

  /** The karaoke frame: `tapped` is `input.tap || keys["Space"]`, and a tap on a running song clears the key. */
  function KaraokeFrame(f: FState, dt: real, h: real): FState
    requires f.karaoke.Some? && f.karaoke.value.spawnEvery > 0.0
  {
    var tapped := f.tap || f.space;
    AfterKaraoke(f, K.Updated(f.karaoke.value, dt, tapped, h), tapped)
  }

  /** What the flow does with a skating frame `r`: every heart scores 12, the clear offers "Next" to scene 2. */
  function AfterSkate(f: FState, r: S.SFrame): FState
  {
    var f1 := f.(skate := Some(r.state), score := f.score + r.gain);
    if r.cleared then f1.(running := false, overlayShown := true, action := NextScene(2)) else f1
  }

  /** The skating frame. */
  function SkateFrame(f: FState, dt: real, w: real, h: real, inp: Input, hypot: Hypot): FState
    requires IsHypot(hypot) && f.skate.Some? && S.Wrappable(f.skate.value.ice, w)
  {
    AfterSkate(f, S.Updated(f.skate.value, dt, w, h, inp.keys, inp.ptr, inp.d55, inp.d90, hypot))
  }

  /** What the flow does with a swimming frame `r`: the proposal stops the game behind an overlay whose button opens the proposal. */
  function AfterSwim(f: FState, r: W.WFrame): FState
  {
    var f1 := f.(swim := Some(r.state), draws := r.next);
    if r.proposal then f1.(running := false, overlayShown := true, action := OpenProposal) else f1
  }

  /** The swimming frame. */
  function SwimFrame(f: FState, dt: real, inp: Input, rnd: Stream, hypot: Hypot): FState
    requires IsRandom(rnd) && IsHypot(hypot) && f.swim.Some?
  {
    AfterSwim(f, W.Updated(f.swim.value, dt, inp.keys, inp.ptr, inp.d93, inp.d85, inp.steer, rnd, f.draws, hypot))
  }

  /**
   * What a frame of the current scene needs: its record is set up, the karaoke spawn period is
   * positive and the ice zones can be wrapped on a stage of width `w`.
   */
  predicate Ready(f: FState, w: real)
  {
    && 0 <= f.scene <= 2
    && (f.scene == 0 ==> f.karaoke.Some? && f.karaoke.value.spawnEvery > 0.0)
    && (f.scene == 1 ==> f.skate.Some? && S.Wrappable(f.skate.value.ice, w))
    && (f.scene == 2 ==> f.swim.Some?)
  }

  /** A valid flow is ready for a frame on a stage of non-negative width. */
  lemma ValidReady(f: FState, w: real)
    requires Valid(f) && 0.0 <= w
    ensures Ready(f, w)
  {
  }

  /**
   * One frame of `loop` at time `now`: the clamped `dt`, the update of the current scene
   * only and only while running, and `input.tap` cleared.
   */
  function Ticked(f: FState, now: real, inp: Input, w: real, h: real, rnd: Stream, hypot: Hypot): FState
    requires Ready(f, w) && IsRandom(rnd) && IsHypot(hypot)
  {
    var dt := Delta(f.last, now);
    var f1 := f.(last := now);
    var f2 :=
      if !f.running then f1
      else if f.scene == 0 then KaraokeFrame(f1, dt, h)
      else if f.scene == 1 then SkateFrame(f1, dt, w, h, inp, hypot)
      else SwimFrame(f1, dt, inp, rnd, hypot);
    f2.(tap := false)
  }

  /** The frame by cases: stopped, or one of the three scenes. */
  lemma TickedCases(f: FState, now: real, inp: Input, w: real, h: real, rnd: Stream, hypot: Hypot)
    requires Ready(f, w) && IsRandom(rnd) && IsHypot(hypot)
    ensures var r := Ticked(f, now, inp, w, h, rnd, hypot);
      var f1 := f.(last := now);
      var dt := Delta(f.last, now);
      && (!f.running ==> r == f1.(tap := false))
      && (f.running && f.scene == 0 ==> r == KaraokeFrame(f1, dt, h).(tap := false))
      && (f.running && f.scene == 1 ==> r == SkateFrame(f1, dt, w, h, inp, hypot).(tap := false))
      && (f.running && f.scene == 2 ==> r == SwimFrame(f1, dt, inp, rnd, hypot).(tap := false))
  {
  }

  /*
   * Properties of the flow.
   */

  /**
   * `resetAll` (and the boot) leave score 0, scene 0 with a fresh karaoke record, the game
   * stopped behind the start overlay of that scene and the modal closed, the other records
   * and the time untouched.
   */
  lemma ResetAllState(f: FState, w: real, h: real, rnd: Stream, hypot: Hypot)
    requires IsRandom(rnd)
    ensures var r := ResetAll(f, w, h, rnd, hypot);
      && r.score == 0 && r.scene == 0 && !r.running && r.overlayShown && r.action == StartScene
      && !r.proposalShown && r.karaoke == Some(K.Initial(w, h))
      && r.skate == f.skate && r.swim == f.swim && r.draws == f.draws && r.last == f.last
      && Valid(r)
  {
  }

  /** The boot starts a valid flow at scene 0, stopped behind its start overlay. */
  lemma BootState(now: real, w: real, h: real, rnd: Stream, c: nat, hypot: Hypot)
    requires IsRandom(rnd)
    ensures var r := Boot(now, w, h, rnd, c, hypot);
      && Valid(r) && r.scene == 0 && r.score == 0 && !r.running && r.overlayShown
      && r.action == StartScene && r.karaoke == Some(K.Initial(w, h)) && r.last == now && !r.tap
  {
  }

  /**
   * `resetSceneState()` sets up a valid record for a scene in 0..2 and changes nothing but
   * that record and the draw cursor.
   */
  lemma ResetSceneFacts(f: FState, w: real, h: real, rnd: Stream, hypot: Hypot)
    requires IsRandom(rnd) && 0 <= f.scene <= 2 && 0.0 <= w
    ensures var r := ResetScene(f, w, h, rnd, hypot);
      && r.(karaoke := f.karaoke, skate := f.skate, swim := f.swim, draws := f.draws) == f
      && (f.scene == 0 ==> r.karaoke == Some(K.Initial(w, h)) && K.Valid(r.karaoke.value))
      && (f.scene == 1 ==> r.skate == Some(S.InitSkate(w, h, rnd, f.draws, hypot).0) && S.Valid(r.skate.value))
      && (f.scene == 2 ==> r.swim == Some(W.InitSwim(w, h, rnd, f.draws, hypot).0) && W.Valid(r.swim.value))
  {
    if f.scene == 1 {
      S.InitSkateValid(w, h, rnd, f.draws, hypot);
    } else if f.scene == 2 {
      W.InitSwimValid(w, h, rnd, f.draws, hypot);
    }
  }

  /** `setScene(n)` moves to scene `n` with a fresh, valid record, stopped behind its start overlay. */
  lemma SetSceneState(f: FState, n: int, w: real, h: real, rnd: Stream, hypot: Hypot)
    requires IsRandom(rnd) && Valid(f) && 0 <= n <= 2 && 0.0 <= w
    ensures var r := SetScene(f, n, w, h, rnd, hypot);
      && Valid(r) && r.scene == n && !r.running && r.overlayShown && r.action == StartScene
      && r.score == f.score
      && (n == 0 ==> r.karaoke == Some(K.Initial(w, h)))
      && (n == 1 ==> r.skate == Some(S.InitSkate(w, h, rnd, f.draws, hypot).0))
      && (n == 2 ==> r.swim == Some(W.InitSwim(w, h, rnd, f.draws, hypot).0))
  {
    ResetSceneFacts(f.(scene := n), w, h, rnd, hypot);
  }

  /**
   * The start button: the start action runs the current scene afresh; "Next" moves to its
   * scene and runs it, leaving the start action installed; the proposal action opens the
   * modal with the game still stopped.  The score is kept and the flow stays valid.
   */
  lemma PressedState(f: FState, w: real, h: real, rnd: Stream, hypot: Hypot)
    requires IsRandom(rnd) && Valid(f) && 0.0 <= w
    ensures var r := Pressed(f, w, h, rnd, hypot);
      && Valid(r) && r.score == f.score
      && (f.action == StartScene ==> r.scene == f.scene && r.running && !r.overlayShown)
      && (f.action.NextScene? ==> r.scene == f.action.n && r.running && !r.overlayShown && r.action == StartScene)
      && (f.action == OpenProposal ==> r.proposalShown && !r.overlayShown && r.running == f.running)
  {
    match f.action
    case Nothing =>
    case StartScene =>
      ResetSceneFacts(f.(overlayShown := false, running := true), w, h, rnd, hypot);
    case NextScene(n) =>
      SetSceneState(f, n, w, h, rnd, hypot);
      ResetSceneFacts(SetScene(f, n, w, h, rnd, hypot).(overlayShown := false, running := true), w, h, rnd, hypot);
    case OpenProposal =>
  }

  /** The karaoke frame changes the karaoke record, the score, `keys["Space"]` and the overlay state only. */
  lemma KaraokeFrameKeeps(f: FState, dt: real, h: real)
    requires f.karaoke.Some? && f.karaoke.value.spawnEvery > 0.0
    ensures var r := KaraokeFrame(f, dt, h);
      r.(karaoke := f.karaoke, score := f.score, space := f.space, running := f.running,
         overlayShown := f.overlayShown, action := f.action) == f
  {
  }

  /**
   * A karaoke frame scores 10 exactly on a hit and nothing otherwise, and it scores exactly
   * when the song's `hit` count rises by one.
   */
  lemma KaraokeFrameScore(f: FState, dt: real, h: real)
    requires f.karaoke.Some? && f.karaoke.value.spawnEvery > 0.0
    ensures var kr := K.Updated(f.karaoke.value, dt, f.tap || f.space, h);
      && KaraokeFrame(f, dt, h).score
         == f.score + (if kr.outcome.Some? && kr.outcome.value.Hit? then K.HitScore else 0)
      && (KaraokeFrame(f, dt, h).score > f.score <==> kr.state.hit == f.karaoke.value.hit + 1)
  {
    K.UpdateSteps(f.karaoke.value, dt, f.tap || f.space, h);
  }

  /** The skating frame changes the skating record, the score and the overlay state only. */
  lemma SkateFrameKeeps(f: FState, dt: real, w: real, h: real, inp: Input, hypot: Hypot)
    requires IsHypot(hypot) && f.skate.Some? && S.Wrappable(f.skate.value.ice, w)
    ensures var r := SkateFrame(f, dt, w, h, inp, hypot);
      r.(skate := f.skate, score := f.score, running := f.running,
         overlayShown := f.overlayShown, action := f.action) == f
  {
  }

  /** The swimming frame changes the swimming record, the draw cursor and the overlay state only. */
  lemma SwimFrameKeeps(f: FState, dt: real, inp: Input, rnd: Stream, hypot: Hypot)
    requires IsRandom(rnd) && IsHypot(hypot) && f.swim.Some?
    ensures var r := SwimFrame(f, dt, inp, rnd, hypot);
      r.(swim := f.swim, draws := f.draws, running := f.running,
         overlayShown := f.overlayShown, action := f.action) == f
  {
  }

  /**
   * A frame while the game is stopped changes nothing but the time and the tap flag; a frame
   * never changes the scene nor the records of the other scenes, and always clears the tap.
   */
  lemma TickedScene(f: FState, now: real, inp: Input, w: real, h: real, rnd: Stream, hypot: Hypot)
    requires Valid(f) && 0.0 <= w && IsRandom(rnd) && IsHypot(hypot)
    ensures var r := Ticked(f, now, inp, w, h, rnd, hypot);
      && r.scene == f.scene && !r.tap && r.last == now && r.proposalShown == f.proposalShown
      && (!f.running ==> r == f.(last := now, tap := false))
      && (f.scene != 0 ==> r.karaoke == f.karaoke && r.space == f.space)
      && (f.scene != 1 ==> r.skate == f.skate)
      && (f.scene != 2 ==> r.swim == f.swim && r.draws == f.draws)
  {
    TickedCases(f, now, inp, w, h, rnd, hypot);
    var f1, dt := f.(last := now), Delta(f.last, now);
    if f.running && f.scene == 0 {
      KaraokeFrameKeeps(f1, dt, h);
    } else if f.running && f.scene == 1 {
      SkateFrameKeeps(f1, dt, w, h, inp, hypot);
    } else if f.running && f.scene == 2 {
      SwimFrameKeeps(f1, dt, inp, rnd, hypot);
    }
  }

  /**
   * Scores only grow: a karaoke frame adds 10 exactly on a hit, a skating frame 12 per heart,
   * a swimming frame nothing.
   */
  lemma TickedScore(f: FState, now: real, inp: Input, w: real, h: real, rnd: Stream, hypot: Hypot)
    requires Valid(f) && 0.0 <= w && IsRandom(rnd) && IsHypot(hypot)
    ensures var r := Ticked(f, now, inp, w, h, rnd, hypot);
      && f.score <= r.score
      && (f.scene == 0 ==> r.score == f.score || r.score == f.score + K.HitScore)
      && (f.scene == 0 && f.running ==>
            var kr := K.Updated(f.karaoke.value, Delta(f.last, now), f.tap || f.space, h);
            r.score == f.score + (if kr.outcome.Some? && kr.outcome.value.Hit? then K.HitScore else 0))
      && (f.scene == 2 || !f.running ==> r.score == f.score)
      && (f.scene == 1 && f.running ==>
            var sr := S.Updated(f.skate.value, Delta(f.last, now), w, h, inp.keys, inp.ptr, inp.d55, inp.d90, hypot);
            r.score == f.score + S.TokenScore * S.TakenIn(f.skate.value.tokens, sr.state.tokens, |f.skate.value.tokens|))
  {
    if f.running && f.scene == 1 {
      S.UpdateClear(f.skate.value, Delta(f.last, now), w, h, inp.keys, inp.ptr, inp.d55, inp.d90, hypot);
    }
  }

  /**
   * A game that ends stops the flow behind an overlay: the karaoke clear offers "Next" to
   * scene 1, the skating clear "Next" to scene 2, the proposal of the swim the proposal
   * action.  A frame that does not end its game leaves `running` and the overlay as they were.
   */
  lemma TickedEnd(f: FState, now: real, inp: Input, w: real, h: real, rnd: Stream, hypot: Hypot)
    requires Valid(f) && 0.0 <= w && IsRandom(rnd) && IsHypot(hypot) && f.running
    ensures var r := Ticked(f, now, inp, w, h, rnd, hypot);
      var dt := Delta(f.last, now);
      var ended :=
        if f.scene == 0 then K.Updated(f.karaoke.value, dt, f.tap || f.space, h).cleared
        else if f.scene == 1 then S.Updated(f.skate.value, dt, w, h, inp.keys, inp.ptr, inp.d55, inp.d90, hypot).cleared
        else W.Updated(f.swim.value, dt, inp.keys, inp.ptr, inp.d93, inp.d85, inp.steer, rnd, f.draws, hypot).proposal;
      && (ended ==> !r.running && r.overlayShown
                    && r.action == (if f.scene == 0 then NextScene(1) else if f.scene == 1 then NextScene(2) else OpenProposal))
      && (!ended ==> r.running && r.overlayShown == f.overlayShown && r.action == f.action)
  {
  }

  /** Applying a karaoke frame whose record is valid keeps the flow valid. */
  lemma AfterKaraokeValid(f: FState, r: K.Frame, tapped: bool)
    requires Valid(f) && f.scene == 0 && f.running && K.Valid(r.state)
    ensures Valid(AfterKaraoke(f, r, tapped))
  {
  }

  /** Applying a skating frame whose record is valid and whose gain is not negative keeps the flow valid. */
  lemma AfterSkateValid(f: FState, r: S.SFrame)
    requires Valid(f) && f.scene == 1 && f.running && S.Valid(r.state) && 0 <= r.gain
    ensures Valid(AfterSkate(f, r))
  {
  }

  /** Applying a swimming frame whose record is valid keeps the flow valid. */
  lemma AfterSwimValid(f: FState, r: W.WFrame)
    requires Valid(f) && f.scene == 2 && W.Valid(r.state)
    ensures Valid(AfterSwim(f, r))
  {
  }

  /** Every frame keeps the flow valid. */
  lemma TickedValid(f: FState, now: real, inp: Input, w: real, h: real, rnd: Stream, hypot: Hypot)
    requires Valid(f) && 0.0 <= w && IsRandom(rnd) && IsHypot(hypot)
    ensures Valid(Ticked(f, now, inp, w, h, rnd, hypot))
  {
    var dt := Delta(f.last, now);
    var f1 := f.(last := now);
    if f.running {
      if f.scene == 0 {
        var tapped := f.tap || f.space;
        var r := K.Updated(f.karaoke.value, dt, tapped, h);
        K.UpdateValid(f.karaoke.value, dt, tapped, h);
        AfterKaraokeValid(f1, r, tapped);
      } else if f.scene == 1 {
        var r := S.Updated(f.skate.value, dt, w, h, inp.keys, inp.ptr, inp.d55, inp.d90, hypot);
        S.UpdateClear(f.skate.value, dt, w, h, inp.keys, inp.ptr, inp.d55, inp.d90, hypot);
        AfterSkateValid(f1, r);
      } else {
        var r := W.Updated(f.swim.value, dt, inp.keys, inp.ptr, inp.d93, inp.d85, inp.steer, rnd, f.draws, hypot);
        W.UpdateValid(f.swim.value, dt, inp.keys, inp.ptr, inp.d93, inp.d85, inp.steer, rnd, f.draws, hypot);
        AfterSwimValid(f1, r);
      }
    }
  }

  /** The globals of app.js with the three game records. */
  class Game {
    var scene: int
    var score: int
    var running: bool
    var overlayShown: bool
    var action: Action
    var proposalShown: bool
    var karaoke: Option<K.KState>
    var skate: Option<S.SState>
    var swim: Option<W.WState>
    var draws: nat
    var space: bool
    var tap: bool
    var last: real

    function Model(): FState
      reads this
    {
      FState(scene, score, running, overlayShown, action, proposalShown, karaoke, skate, swim, draws, space, tap, last)
    }

    /** The boot of app.js at time `now`, from the draws `rnd(c)`, `rnd(c + 1)`, ... */
    constructor Init(now: real, w: real, h: real, rnd: Stream, c: nat, hypot: Hypot)
      requires IsRandom(rnd)
      ensures Model() == Boot(now, w, h, rnd, c, hypot)
    {
      scene, score, running, overlayShown, action, proposalShown := 0, 0, false, true, Nothing, false;
      karaoke, skate, swim := None, None, None;
      draws, space, tap, last := c, false, false, now;
      new;
      SetSceneTo(0, w, h, rnd, hypot);
      overlayShown := true;
      running := false;
    }

    /** `resetSceneState()`: a fresh record for the current scene. */
    method ResetSceneState(w: real, h: real, rnd: Stream, hypot: Hypot)
      requires IsRandom(rnd)
      modifies this
      ensures Model() == ResetScene(old(Model()), w, h, rnd, hypot)
    {
      if scene == 0 {
        ResetKaraoke(w, h, rnd, hypot);
      } else if scene == 1 {
        ResetSkate(w, h, rnd, hypot);
      } else if scene == 2 {
        ResetSwim(w, h, rnd, hypot);
      }
    }

    /** Scene 0 of `resetSceneState()`: `initKaraoke()`. */
    method ResetKaraoke(w: real, h: real, rnd: Stream, hypot: Hypot)
      requires IsRandom(rnd) && scene == 0
      modifies this
      ensures Model() == ResetScene(old(Model()), w, h, rnd, hypot)
    {
      karaoke := Some(K.Initial(w, h));
    }

    /** Scene 1 of `resetSceneState()`: `initSkate()`, whose placement loops draw from the cursor `draws`. */
    method ResetSkate(w: real, h: real, rnd: Stream, hypot: Hypot)
      requires IsRandom(rnd) && scene == 1
      modifies this
      ensures Model() == ResetScene(old(Model()), w, h, rnd, hypot)
    {
      var sk, c := S.MakeSkate(w, h, rnd, draws, hypot);
      skate, draws := Some(sk), c;
    }

    /** Scene 2 of `resetSceneState()`: `initSwim()`, whose buoy placement draws from the cursor `draws`. */
    method ResetSwim(w: real, h: real, rnd: Stream, hypot: Hypot)
      requires IsRandom(rnd) && scene == 2
      modifies this
      ensures Model() == ResetScene(old(Model()), w, h, rnd, hypot)
    {
      var buoys, c := W.PlaceBuoys(W.PoolOf(w, h), rnd, draws, hypot);
      assert W.InitSwim(w, h, rnd, draws, hypot) == (W.Initial(w, h, buoys), c);
      swim, draws := Some(W.Initial(w, h, buoys)), c;
    }

    /** `showOverlayForScene()`. */
    method ShowOverlayForScene()
      modifies this
      ensures Model() == ShowOverlay(old(Model()))
    {
      overlayShown := true;
      running := false;
      action := StartScene;
    }

    /** `setScene(n)`. */
    method SetSceneTo(n: int, w: real, h: real, rnd: Stream, hypot: Hypot)
      requires IsRandom(rnd)
      modifies this
      ensures Model() == SetScene(old(Model()), n, w, h, rnd, hypot)
    {
      scene := n;
      ResetSceneState(w, h, rnd, hypot);
      ShowOverlayForScene();
    }

    /** `resetAll()`. */
    method Reset(w: real, h: real, rnd: Stream, hypot: Hypot)
      requires IsRandom(rnd)
      modifies this
      ensures Model() == ResetAll(old(Model()), w, h, rnd, hypot)
    {
      score := 0;
      proposalShown := false;
      SetSceneTo(0, w, h, rnd, hypot);
      overlayShown := true;
      running := false;
    }

    /** The start button: `overlayAction()`. */
    method Press(w: real, h: real, rnd: Stream, hypot: Hypot)
      requires IsRandom(rnd)
      modifies this
      ensures Model() == Pressed(old(Model()), w, h, rnd, hypot)
    {
      match action
      case Nothing =>
      case StartScene =>
        overlayShown := false;
        running := true;
        ResetSceneState(w, h, rnd, hypot);
      case NextScene(n) =>
        SetSceneTo(n, w, h, rnd, hypot);
        overlayShown := false;
        running := true;
        ResetSceneState(w, h, rnd, hypot);
      case OpenProposal =>
        overlayShown := false;
        proposalShown := true;
    }

    /** The karaoke branch of `loop`: `updateKaraoke(dt)`, its score and its clear. */
    method KaraokeStep(dt: real, h: real)
      requires karaoke.Some? && karaoke.value.spawnEvery > 0.0
      modifies this
      ensures Model() == KaraokeFrame(old(Model()), dt, h)
    {
      var tapped := tap || space;
      var r := K.Updated(karaoke.value, dt, tapped, h);
      ApplyKaraoke(r, tapped);
    }

    /** The flow's handling of the karaoke frame `r`. */
    method ApplyKaraoke(r: K.Frame, tapped: bool)
      requires karaoke.Some?
      modifies this
      ensures Model() == AfterKaraoke(old(Model()), r, tapped)
    {
      if !karaoke.value.done && tapped {
        space := false;
      }
      karaoke := Some(r.state);
      if r.outcome.Some? && r.outcome.value.Hit? {
        score := score + K.HitScore;
      }
      if r.cleared {
        running := false;
        overlayShown := true;
        action := NextScene(1);
      }
    }

    /** The skating branch of `loop`: `updateSkate(dt)`, its score and its clear. */
    method SkateStep(dt: real, w: real, h: real, inp: Input, hypot: Hypot)
      requires IsHypot(hypot) && skate.Some? && S.Wrappable(skate.value.ice, w)
      modifies this
      ensures Model() == SkateFrame(old(Model()), dt, w, h, inp, hypot)
    {
      var r := S.Updated(skate.value, dt, w, h, inp.keys, inp.ptr, inp.d55, inp.d90, hypot);
      ApplySkate(r);
    }

    /** The flow's handling of the skating frame `r`. */
    method ApplySkate(r: S.SFrame)
      modifies this
      ensures Model() == AfterSkate(old(Model()), r)
    {
      skate, score := Some(r.state), score + r.gain;
      if r.cleared {
        running, overlayShown, action := false, true, NextScene(2);
      }
    }

    /** The swimming branch of `loop`: `updateSwim(dt)` and its proposal. */
    method SwimStep(dt: real, inp: Input, rnd: Stream, hypot: Hypot)
      requires IsRandom(rnd) && IsHypot(hypot) && swim.Some?
      modifies this
      ensures Model() == SwimFrame(old(Model()), dt, inp, rnd, hypot)
    {
      var r := W.Updated(swim.value, dt, inp.keys, inp.ptr, inp.d93, inp.d85, inp.steer, rnd, draws, hypot);
      ApplySwim(r);
    }

    /** The flow's handling of the swimming frame `r`. */
    method ApplySwim(r: W.WFrame)
      modifies this
      ensures Model() == AfterSwim(old(Model()), r)
    {
      swim, draws := Some(r.state), r.next;
      if r.proposal {
        running := false;
        overlayShown := true;
        action := OpenProposal;
      }
    }

    /** One frame of `loop(now)`. */
    method Tick(now: real, inp: Input, w: real, h: real, rnd: Stream, hypot: Hypot)
      requires Ready(Model(), w) && IsRandom(rnd) && IsHypot(hypot)
      modifies this
      ensures Model() == Ticked(old(Model()), now, inp, w, h, rnd, hypot)
    {
      ghost var f := Model();
      var dt := Delta(last, now);
      last := now;
      assert Model() == f.(last := now);
      if running {
        if scene == 0 {
          KaraokeStep(dt, h);
          assert Model() == KaraokeFrame(f.(last := now), dt, h);
        } else if scene == 1 {
          SkateStep(dt, w, h, inp, hypot);
          assert Model() == SkateFrame(f.(last := now), dt, w, h, inp, hypot);
        } else {
          SwimStep(dt, inp, rnd, hypot);
          assert Model() == SwimFrame(f.(last := now), dt, inp, rnd, hypot);
        }
      }
      tap := false;
      TickedCases(f, now, inp, w, h, rnd, hypot);
    }

    /** A pointer press sets `input.tap`. */
    method PointerDown()
      modifies this
      ensures Model() == old(Model()).(tap := true)
    {
      tap := true;
    }

    /** A key press of Space sets `keys["Space"]`. */
    method SpaceDown()
      modifies this
      ensures Model() == old(Model()).(space := true)
    {
      space := true;
    }
  }
}
