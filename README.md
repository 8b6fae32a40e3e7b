# Three mini-games and their scene flow, modelled in Dafny

This project models the per-frame game state of a small browser game, in two revisions:
`app.js` and `script.js`. Both revisions play three mini-games in a row:

- **Karaoke**: notes fall toward a line, and the player taps when a note reaches it.
- **Ice skating**: the player collects hearts and avoids hazards.
- **Swimming tag**: the guy chases the girl around a pool.

A small scene flow ties the three together. It tracks `scene`, `score` and `running`, the
pending action of the overlay's button, `resetAll`, and the main `loop`.

The code is modelled revision by revision and game by game. Each file below is one module:

| file | module | what it models |
|---|---|---|
| `numeric.dfy` | `Numeric` | `clamp`, `rand`, `Math.ceil`, JavaScript's `%`, `Math.hypot \|\| 1`, the random source, the `Math.hypot` oracle |
| `app_physics.dfy` | `AppPhysics` | `steerToward`, `circleRectHit`, `resolveCircleCircle`, `integrate`, `integrateWithCircleObstacles`, key direction, the speed caps |
| `app_karaoke.dfy` | `AppKaraoke` | the karaoke of `app.js`: a time accumulator spawns the notes |
| `app_skate.dfy` | `AppSkate` | the skating of `app.js`: moving ice zones, the reset and shield state machine, hearts placed by rejection sampling |
| `app_swim.dfy` | `AppSwim` | the swimming of `app.js`: buoys, the tag hold, the dwell and the single proposal |
| `app_flow.dfy` | `AppFlow` | the scene flow and `loop` of `app.js` |
| `script_karaoke.dfy` | `ScriptKaraoke` | the karaoke of `script.js`: a frame counter spawns the notes |
| `script_skate.dfy` | `ScriptSkate` | the skating of `script.js`: sliding bars, `circleRectCollide` |
| `script_swim.dfy` | `ScriptSwim` | the swimming of `script.js`: `keepInPool`, `limitSpeed`, `wallRepelVec`, `edgePenalty`, `pickNewEscapeTarget` |
| `script_flow.dfy` | `ScriptFlow` | the scene flow and `loop` of `script.js` |

**How a mini-game is modelled.** Each game record (`karaoke`, `skate`, `swim`) is modelled twice:

- as a class whose fields the methods update in place;
- as a value: a datatype (`KState`, `SState`, `WState`) plus a function `Updated` for one frame.

Each method's `ensures` ties the class's new state (`Model()`) to that function of the old state. Lemmas about `Updated` then state what the source promises across a frame. The loops of the source are `while` loops with invariants:

- the sub-steps of `integrate`;
- the retry loops of `makeIceZones`, `initSkate` and `makeBuoys`;
- the note, bar, heart and buoy loops;
- the 14-sample argmax of `pickNewEscapeTarget`.

Bodies, notes, hearts, zones and buoys are values held in those fields.

**How the flow is modelled.** The scene flow of each revision is a class `Game` that holds:

- the globals;
- the pending overlay action, as an enumeration: start this scene, "Next" to a scene, or the proposal;
- the three records, as values.

Each frame of `loop` clamps `dt`, updates the current scene (only while `running` is set) and clears the input flags.

**Inputs.** Numbers are `real`. Three kinds of input become parameters:

- **Random draws.** `Math.random()` is an infinite stream `rnd: nat -> real` of draws in [0, 1), read through a cursor. Every `init*` returns the next unused draw.
- **Lengths.** `Math.hypot` is an oracle parameter `hypot`. `IsHypot(hypot)` says it returns the non-negative root of `dx² + dy²`.
- **The browser.** `W()`, `H()`, the keys, the pointer and `dampFactor` are passed in.

## Model

| member | source | states |
|---|---|---|
| Numeric.Clamp | app.js:39 | the result is never below a, and never above b when a <= b; it is v when v is in [a, b], a when v < a or b < a, and b when a <= b < v |
| Numeric.Ceil | app.js:123 | the least integer at or above x |
| Numeric.Trunc | app.js:499 | truncation toward zero: 0 <= n <= q < n + 1 for q >= 0, and n - 1 < q <= n <= 0 for q < 0 |
| Numeric.JsRem | app.js:499 | JavaScript's `%` for a positive modulus m: x - r is a whole multiple Trunc(x / m) of m, 0 <= r < m for x >= 0 and -m < r <= 0 for x < 0 |
| Numeric.Rand | app.js:40 | `rand(a, b)` for a draw u in [0, 1) lies in [a, b) when a < b, and is a when a = b |
| Numeric.HypotFacts | app.js:41 | the oracle's length is not negative and its square is dx² + dy² |
| Numeric.LengthOrOne | app.js:657 | `Math.hypot(dx, dy) \|\| 1` is positive, is 1 exactly when the length is 0 or 1, and squares to dx² + dy² for a non-zero length |
| Numeric.HypotScale | app.js:673-677 | scaling an offset by k >= 0 scales its length by k |
| Numeric.HypotRescale | app.js:673-677 | rescaling an offset of positive length by len / length gives it length len |
| Numeric.UnitNormal | app.js:106-107 | an offset divided by its positive length has length 1 |
| AppPhysics.SteerToward | app.js:80-87 | within 1 of the target nothing changes; the position never changes |
| AppPhysics.SteerTowardPush | app.js:80-87 | when it steers, the velocity gain points at the target and has length accel·dt |
| AppPhysics.CircleRectHitInside | app.js:90-96 | a circle of positive radius centred in the rectangle hits it |
| AppPhysics.CircleRectHitSeparated | app.js:90-96 | a circle whose bounding box misses the rectangle does not hit it |
| AppPhysics.ResolveCircleCircle | app.js:98-119 | it reports a push-out exactly when neither d >= ar + br nor d = 0 holds; without a push-out `a` is unchanged |
| AppPhysics.ResolveSeparates | app.js:105-110 | after a push-out the centres are exactly ar + br apart |
| AppPhysics.ResolveBounces | app.js:112-117 | after a push-out the normal velocity is -0.94·bounce times the old one and the tangential velocity 0.94 times the old one |
| AppPhysics.ResolveClears | app.js:98-119 | after `resolveCircleCircle` the centres are at least ar + br apart, or still coincide (d = 0, which the source leaves alone) |
| AppPhysics.ClampAxis | app.js:137-140 | the position ends in [lo, hi]; a low clamp leaves the velocity at \|v\|·0.85 >= 0, a high clamp at -\|v\|·0.85 <= 0; an axis in range is untouched; the speed along the axis never grows |
| AppPhysics.SubSteps | app.js:122-124 | the step count is between 1 and 7; each step covers at most 18 unless the count is capped at 7 |
| AppPhysics.SteppedInside | app.js:126-142 | one or more sub-steps inside non-empty bounds leave the body inside them |
| AppPhysics.SteppedNoFaster | app.js:126-142 | no sub-step makes a velocity component larger in magnitude |
| AppPhysics.SteppedFree | app.js:126-128 | without bounds, n sub-steps are a straight move of n·stepDt at constant velocity |
| AppPhysics.IntegratedFree | app.js:121-143 | without bounds `integrate` is one Euler step of length dt |
| AppPhysics.IntegratedInside | app.js:121-143 | with non-empty bounds `integrate` leaves the body inside them |
| AppPhysics.Integrate | app.js:121-143 | the sub-step loop computes `Integrated`: inside non-empty bounds, no component faster, a plain Euler step without bounds |
| AppPhysics.MoveAndClamp | app.js:127-141 | one sub-step, in place, equals `SubStep` |
| AppPhysics.ResolveObstacles | app.js:831 | the obstacle loop equals resolving each obstacle in array order |
| AppPhysics.ObstacleSteppedNone | app.js:810-834 | with no obstacles each sub-step is `integrate`'s |
| AppPhysics.IntegratedWithNoObstacles | app.js:810-834 | with no obstacles `integrateWithCircleObstacles` is `integrate` |
| AppPhysics.IntegratedClearOfLast | app.js:810-834 | with at least one obstacle, the body ends at least radius + r from the last obstacle of the list, or exactly on its centre |
| AppPhysics.IntegrateWithCircleObstacles | app.js:810-834 | the sub-step loop with the obstacle loop inside equals `IntegratedWithObstacles` |
| AppPhysics.CapSpeed | app.js:673-677 | the position is kept, and a body no faster than max is untouched |
| AppPhysics.CapSpeedBound | app.js:673-677 | after the cap the speed is at most max, and exactly max when the cap fired |
| AppPhysics.KeyAccelUnit | app.js:651-658 | with no net key direction the acceleration is (0, 0); otherwise it has length 1 |
| AppPhysics.Drive | app.js:651-677 | the key, pointer, damping and cap update keeps the position and leaves the speed at most max |
| AppPhysics.Damp | app.js:669-671 | damping keeps the position |
| AppPhysics.DampNoFaster | app.js:669-671 | a factor in [0, 1] never makes a component larger in magnitude |
| AppKaraoke.Spawn | app.js:325-329 | the record is unchanged exactly when `spawned` >= `total`; otherwise the note at y = -30 falling at max(260, 0.65·h) is appended and `spawned` rises by 1; nothing else changes |
| AppKaraoke.SpawnValid | app.js:325-329 | a spawn keeps the record valid: `spawned` <= `total` = 14, one note per spawn |
| AppKaraoke.Initial | app.js:310-324 | a fresh record is valid, with one note, `spawned` 1, `total` 14, nothing hit or missed, not done and the spawn timer at 0 |
| AppKaraoke.NearestIn | app.js:333-339 | the scan's pick is a live note at distance `bestD`, or none with `bestD` = 9999 |
| AppKaraoke.NearestInIsFirstMin | app.js:333-339 | the pick is a nearest live note and every earlier live note is strictly further |
| AppKaraoke.NearestInWindow | app.js:333-341 | for a window below 9999, a pick within the window exists exactly when some live note lies within it |
| AppKaraoke.FindNearest | app.js:333-339 | the loop returns the scan's pick and distance |
| AppKaraoke.TryHitCounts | app.js:330-353 | exactly one of `hit` and `miss` rises by 1; a hit happens exactly when a live note is within 30; it kills the nearest live note (the earliest among ties) and nothing else; it is perfect exactly when within 13; a miss changes nothing but `miss` |
| AppKaraoke.TryHitValid | app.js:341-352 | a tap keeps the record valid |
| AppKaraoke.Fall | app.js:363-371 | a dead note is untouched; a live one falls by speed·dt and dies exactly when below lineY + 70 |
| AppKaraoke.Fallen | app.js:363-371 | the note loop maps `Fall` over the notes and keeps their number |
| AppKaraoke.FallenDeadIn | app.js:363-371 | no note comes back to life |
| AppKaraoke.FallenNotes | app.js:363-371 | a note live after the loop was live before, fell by speed·dt and is at most 70 below the line; a dead note is unchanged |
| AppKaraoke.SpawnLoop | app.js:357-361 | afterwards `spawnTimer` < `spawnEvery` and stays non-negative; only the notes, `spawned` and the timer change |
| AppKaraoke.SpawnLoopValid | app.js:357-361 | the spawn loop keeps the record valid, never raises `spawned` past `total`, and only appends fresh notes |
| AppKaraoke.FallAll | app.js:363-371 | the note loop on the record adds one miss per note that died and changes only the notes and `miss` |
| AppKaraoke.UpdateWhenDone | app.js:355 | once `done`, an update changes nothing and scores nothing |
| AppKaraoke.FinishSteps | app.js:373-393 | a tap is handled exactly when there was one; `hit` and `miss` move only by its outcome; the clear fires exactly when `hit` reaches 8 and sets `done` |
| AppKaraoke.UpdateSteps | app.js:354-393 | the clear fires on the first update that leaves `hit` >= 8 and sets `done` for good; `hit` and `miss` move only by the tap and the late notes |
| AppKaraoke.UpdateNoLateNote | app.js:363-371 | after an update no live note sits more than 70 below the line, and the late count is the number of notes the loop killed |
| AppKaraoke.UpdateValid | app.js:354-393 | an update keeps the record valid: a positive spawn period, 0 <= `spawnTimer` < `spawnEvery`, `total` = 14, `spawned` <= `total` with one note per spawn, `hit` at most the number of dead notes, `miss` >= 0 |
| AppKaraoke.FinishValid | app.js:373-393 | the tap and the clear keep the record valid |
| AppKaraoke.Karaoke.Init | app.js:310-324 | the new record is `Initial(w, h)` |
| AppKaraoke.Karaoke.SpawnNote | app.js:325-329 | the record becomes `Spawn` of the old one |
| AppKaraoke.Karaoke.TryHit | app.js:330-353 | the record and outcome are `AfterTap` of the old record |
| AppKaraoke.Karaoke.SpawnDue | app.js:357-361 | the while loop leaves the record at `SpawnLoop` of the old one |
| AppKaraoke.Karaoke.FallNotes | app.js:363-371 | the note loop leaves `FallAll` of the old record and returns the late count |
| AppKaraoke.Karaoke.TapAndClear | app.js:373-393 | the tail leaves `Finish` of the old record |
| AppKaraoke.Karaoke.Update | app.js:354-393 | the update leaves `Updated` of the old record and returns its outcome, late count and clear |
| AppSkate.ZoneSpeed | app.js:475 | the zone speed has magnitude in [120, 190] and is negative exactly when the draw is below 0.5 |
| AppSkate.IceTry | app.js:466-478 | a zone it places has size zw × zh, lies clear of the spawn circle and is in the placement area |
| AppSkate.IceZoneAt | app.js:461-485 | one zone of the shape of `makeIceZones`, and the zone the tries placed whenever they placed one |
| AppSkate.MakeIce | app.js:451-488 | `count` zones, each of the shape of `makeIceZones` |
| AppSkate.TryPlaceZone | app.js:466-478 | the retry loop returns `IceTry` from try 0 |
| AppSkate.PlaceZone | app.js:461-485 | one outer iteration returns `IceZoneAt` |
| AppSkate.MakeIceZones | app.js:451-488 | the loop returns `MakeIce` with one zone |
| AppSkate.WrapCoord | app.js:498-501 | the wrapped coordinate lies in [-off, range - off) |
| AppSkate.WrapCoordInside | app.js:498-501 | a coordinate already in range is not moved |
| AppSkate.WrapCoordShift | app.js:498-501 | the wrap moves the coordinate by a whole number k of ranges |
| AppSkate.WrapZone | app.js:495-502 | the zone ends in its wrap range [-(zw + 10), w + 10) and keeps its row, size and speed |
| AppSkate.WrapAll | app.js:490-503 | `updateIceZones` keeps the number of zones |
| AppSkate.WrapAllInRange | app.js:490-503 | after `updateIceZones` every zone lies in its wrap range and has kept its size and speed, so it can wrap again |
| AppSkate.SafeTokenPosOutside | app.js:504-510 | a safe point lies outside every zone grown by `radius` |
| AppSkate.SafeTokenPosAway | app.js:504-510 | a point at least 1 away from every grown zone, along some axis, is safe |
| AppSkate.HeartSpot | app.js:533-534 | a heart drawn there lies in [70, w - 70] × [80, h - 80] and is alive |
| AppSkate.TokenTry | app.js:532-546 | a heart it places lies in the heart area, is safe from the ice grown by 56 and at least 66 from every earlier heart |
| AppSkate.TokenAt | app.js:531-547 | one heart in the heart area, the try's heart whenever a try found one |
| AppSkate.PlaceTokens | app.js:530-548 | `count` hearts, each alive and in the heart area |
| AppSkate.FarFromAll | app.js:538-541 | the early-exit loop says whether no earlier heart is nearer than 66 |
| AppSkate.PlaceHeart | app.js:531-547 | one outer iteration appends `TokenAt` |
| AppSkate.PlaceHearts | app.js:530-548 | the heart loops return `PlaceTokens`: six hearts, each alive and in the heart area |
| AppSkate.AllAlive | app.js:544-547 | when every heart is alive the live count is the number of hearts |
| AppSkate.InitSkateValid | app.js:512-549 | `initSkate` starts a valid record with six hearts |
| AppSkate.Shielded | app.js:607-610 | the ice wraps; the shield is never negative, stays positive exactly when more than dt was left and then drops by dt; nothing else changes |
| AppSkate.Slow | app.js:614-626 | a touch starts a reset from 0 and keeps 0.18 of the velocity; nothing else changes |
| AppSkate.Collect | app.js:682-691 | the heart loop keeps the number of hearts |
| AppSkate.CollectAlive | app.js:682-691 | the heart loop keeps every heart's place; a heart stays alive exactly when it was alive and at least 32 from the player |
| AppSkate.CollectCounts | app.js:682-691 | the live hearts after the loop plus the hearts taken are the live hearts before |
| AppSkate.PlayClear | app.js:693-709 | the clear of a normal frame fires exactly when no heart is left and it has not fired before; it sets `collected` to -9999 and keeps the record valid and the reset state and shield; each heart is worth 12 |
| AppSkate.PlayPickup | app.js:679-691 | in a normal frame a live heart is collected exactly when it lies within 32 of the moved player, who ends in the rink |
| AppSkate.UpdateHazard | app.js:609-626 | a touch happens exactly when the player is not resetting, is outside the spawn circle, has no shield left and touches a wrapped zone; a resetting or touching frame collects nothing, gains nothing and does not clear |
| AppSkate.UpdateTouch | app.js:614-626 | a touch cuts the velocity to 0.18 and the reset step runs from 0; the reset ends in that frame exactly when dt >= 0.22 |
| AppSkate.UpdateReset | app.js:629-648 | once `resetT` reaches 0.22 the player is at the spawn point at rest, no longer resetting, shielded for 1.2 s; before that it is still resetting, in the rink |
| AppSkate.UpdateClear | app.js:693-709 | the clear fires exactly when it has not fired, the frame is normal and no heart is left alive; the gain is 12 per heart taken |
| AppSkate.ShieldedValid | app.js:607-611 | the head of the frame keeps the record valid |
| AppSkate.UpdatePickup | app.js:679-691 | in a normal frame a live heart is collected exactly when it lies within 32 of the moved player, who ends in the rink |
| AppSkate.Skate.Init | app.js:512-526 | the record is `Initial` around the zones and hearts given |
| AppSkate.Skate.UpdateIceZones | app.js:490-503 | the zones become `WrapAll` of the old ones; nothing else changes |
| AppSkate.Skate.TouchesIce | app.js:615-625 | the loop says whether the player touches some zone |
| AppSkate.Skate.CheckHazard | app.js:614-626 | the record becomes `Hazard` of the old one |
| AppSkate.Skate.CollectHearts | app.js:682-691 | the hearts become `Collect` of the old ones, and the count returned is the number taken |
| AppSkate.Skate.Resetting | app.js:629-648 | a reset frame leaves `ResetStep` of the old record and reports whether the reset ended |
| AppSkate.Skate.Playing | app.js:679-709 | a normal frame leaves `Play` of the old record and returns its gain and clear |
| AppSkate.Skate.Update | app.js:601-710 | the record becomes `Updated` of the old one; the gain, clear, touch and reset flags are returned |
| AppSkate.MakeSkate | app.js:512-549 | the placement loops return `InitSkate` |
| AppSkate.NewSkate | app.js:512-549 | a fresh record whose model is `InitSkate`, with the next unused draw |
| AppSwim.BuoyTry | app.js:758-764 | an accepted point is at least 180 from both starting points; a try below 80 lies in the buoy area; after 80 tries the point is kept, not accepted, and no draw is used |
| AppSwim.BuoyAt | app.js:751-771 | the buoy has radius 22, speed components within 70 and 65, and lies in the buoy area; it is at least 180 from both starts when the tries accepted it |
| AppSwim.MakeBuoys | app.js:745-773 | `count` buoys, each of that shape |
| AppSwim.TryPlaceBuoy | app.js:758-764 | the retry loop returns `BuoyTry` from try 0 |
| AppSwim.PlaceBuoys | app.js:745-773 | the buoy loop returns `MakeBuoys` with one buoy |
| AppSwim.BounceAxis | app.js:780-783 | the position ends in [lo, hi]; an axis in range is untouched; a low bounce gives (lo, \|v\|), a high one (hi, -\|v\|); the speed along the axis keeps its size |
| AppSwim.Bounced | app.js:776-783 | in a pool at least 36 wide a moved buoy lies in the pool inset by 18 and keeps its speed along each axis |
| AppSwim.MoveBuoyBounds | app.js:775-790 | after `updateBuoys` a buoy keeps its radius, lies in the pool inset by 18 and is never faster than 190 |
| AppSwim.MoveBuoys | app.js:775-790 | `updateBuoys` keeps the number of buoys |
| AppSwim.GirlMax | app.js:874-877 | the girl's cap lies in [561.6, 864] and is 561.6 from a distance of 380 on |
| AppSwim.Fleeing | app.js:874-911 | the girl keeps her place and is never faster than the cap `GirlMax` for her distance to the guy (1 when they coincide), so never faster than 864; a steered velocity within that cap is kept |
| AppSwim.Unstick | app.js:925-934 | `lastX`, `lastY` become her position, which is kept, and `stuckT` stays non-negative for dt >= 0; a girl that moved at least 0.30 has `stuckT` 0, no kick and no draw used |
| AppSwim.Steered | app.js:842-866 | the head of `updateSwim` leaves the guy no faster than 470 and changes only the buoys and the guy |
| AppSwim.InitSwimValid | app.js:792-808 | `initSwim` starts a valid record that is not caught |
| AppSwim.UpdateTag | app.js:936-944 | once caught nothing is tagged and `tagHold` is kept; before the catch `tagHold` becomes the new hold, `caught` becomes true exactly when it passes 0.35, a catch is reported exactly then with `kissT` = 0, and `proposalShown` is kept |
| AppSwim.UpdateDwell | app.js:945-973 | once caught, `kissT` grows by dt, the girl stays in the pool inset by `rr`, no draw is used, and the proposal fires exactly when `kissT` > 1.35 and it was not shown; afterwards `proposalShown` holds |
| AppSwim.UpdateValid | app.js:836-975 | a valid record stays valid for dt >= 0 |
| AppSwim.UpdateBuoysInPool | app.js:842-866 | each frame leaves every buoy in the pool inset by 18 and no faster than 190 |
| AppSwim.TouchesBuoy | app.js:917-923 | the early-exit loop says whether the guy touches some buoy |
| AppSwim.Swim.Init | app.js:792-808 | the record is `Initial` around the buoys given |
| AppSwim.Swim.UpdateBuoys | app.js:775-790 | the buoys become `MoveBuoys` of the old ones; nothing else changes |
| AppSwim.Swim.ChaseMove | app.js:909-923 | the record becomes `ChaseMoved` of the old one |
| AppSwim.Swim.ChaseTag | app.js:925-944 | the record and tag become `ChaseTagged` of the old one |
| AppSwim.Swim.DwellMove | app.js:946-951 | the record becomes `DwellMoved` of the old one |
| AppSwim.Swim.DwellFollow | app.js:953-973 | the record and proposal become `DwellFollowed` of the old one |
| AppSwim.Swim.Update | app.js:836-975 | the record becomes `Updated` of the old one; the tag, proposal and next draw are returned |
| AppSwim.NewSwim | app.js:792-808 | a fresh record whose model is `InitSwim`, with the next unused draw |
| AppFlow.Delta | app.js:1216-1217 | dt lies in [0, 0.05]; it is the elapsed time in seconds when in range, 0 when time went back, 0.05 when capped |
| AppFlow.ValidReady | app.js:1220-1223 | a valid flow has the record of its scene set up and ready for a frame |
| AppFlow.TickedCases | app.js:1215-1233 | a frame is the update of the current scene only, and only while running, with the tap cleared and `last` set |
| AppFlow.ResetAllState | app.js:1198-1213 | `resetAll` leaves score 0, scene 0 with a fresh karaoke record, stopped behind the start overlay, the modal closed, the other records, the cursor and the time kept; the flow is valid |
| AppFlow.BootState | app.js:1236-1243 | the boot starts a valid flow at scene 0, stopped behind its start overlay |
| AppFlow.ResetSceneFacts | app.js:1099-1103 | `resetSceneState` sets up a valid record for the current scene and changes nothing but that record and the cursor |
| AppFlow.SetSceneState | app.js:1105-1126 | `setScene(n)` moves to scene n with a fresh valid record, stopped behind its start overlay |
| AppFlow.PressedState | app.js:1146-1150 | the start action runs the current scene afresh; "Next" moves to its scene and runs it; the proposal action opens the modal; the score is kept and the flow stays valid |
| AppFlow.KaraokeFrameKeeps | app.js:373-393 | a karaoke frame changes only the karaoke record, the score, `keys["Space"]` and the overlay state |
| AppFlow.KaraokeFrameScore | app.js:341-344 | a karaoke frame scores 10 exactly on a hit and nothing otherwise, and it scores exactly when the song's `hit` count rises by one |
| AppFlow.SkateFrameKeeps | app.js:693-709 | a skating frame changes only the skating record, the score and the overlay state |
| AppFlow.SwimFrameKeeps | app.js:959-973 | a swimming frame changes only the swimming record, the cursor and the overlay state |
| AppFlow.TickedScene | app.js:1215-1233 | a stopped frame changes only the time and the tap; no frame changes the scene or the other scenes' records; the tap is always cleared |
| AppFlow.TickedScore | app.js:1215-1233 | scores never fall; a running karaoke frame adds 10 exactly on a hit and 0 otherwise; a running skating frame adds 12 per heart taken; a swimming or stopped frame adds nothing |
| AppFlow.TickedEnd | app.js:1215-1233 | a game that ends stops the flow behind its overlay: "Next" to 1, "Next" to 2, or the proposal; otherwise `running` and the overlay are kept |
| AppFlow.AfterKaraokeValid | app.js:378-393 | applying a valid karaoke frame keeps the flow valid |
| AppFlow.AfterSkateValid | app.js:693-709 | applying a valid skating frame with a non-negative gain keeps the flow valid |
| AppFlow.AfterSwimValid | app.js:959-973 | applying a valid swimming frame keeps the flow valid |
| AppFlow.TickedValid | app.js:1215-1233 | every frame keeps the flow valid |
| AppFlow.Game.Init | app.js:1236-1243 | the new state is `Boot` |
| AppFlow.Game.ResetSceneState | app.js:1099-1103 | the state becomes `ResetScene` of the old one |
| AppFlow.Game.ResetKaraoke | app.js:1100 | scene 0 of `ResetScene` |
| AppFlow.Game.ResetSkate | app.js:1101 | scene 1 of `ResetScene` |
| AppFlow.Game.ResetSwim | app.js:1102 | scene 2 of `ResetScene` |
| AppFlow.Game.ShowOverlayForScene | app.js:1128-1152 | the state becomes `ShowOverlay` of the old one |
| AppFlow.Game.SetSceneTo | app.js:1105-1126 | the state becomes `SetScene` of the old one |
| AppFlow.Game.Reset | app.js:1198-1213 | the state becomes `ResetAll` of the old one |
| AppFlow.Game.Press | app.js:307 | the state becomes `Pressed` of the old one |
| AppFlow.Game.KaraokeStep | app.js:1220 | the state becomes `KaraokeFrame` of the old one |
| AppFlow.Game.ApplyKaraoke | app.js:378-393 | the state becomes `AfterKaraoke` of the old one |
| AppFlow.Game.SkateStep | app.js:1221 | the state becomes `SkateFrame` of the old one |
| AppFlow.Game.ApplySkate | app.js:693-709 | the state becomes `AfterSkate` of the old one |
| AppFlow.Game.SwimStep | app.js:1222 | the state becomes `SwimFrame` of the old one |
| AppFlow.Game.ApplySwim | app.js:959-973 | the state becomes `AfterSwim` of the old one |
| AppFlow.Game.Tick | app.js:1215-1233 | the state becomes `Ticked` of the old one |
| AppFlow.Game.PointerDown | app.js:159-165 | only `input.tap` is set |
| AppFlow.Game.SpaceDown | app.js:149-150 | only `keys["Space"]` is set |
| ScriptKaraoke.Spawn | script.js:271-275 | the note `NewNote` (y = -30, falling 4 per update, live) is appended and `spawned` rises by 1; nothing else changes |
| ScriptKaraoke.Initial | script.js:266-270 | a fresh record is valid (period 40, total 12), with no notes, `time` 0, nothing hit or missed, not done |
| ScriptKaraoke.TickedSpawned | script.js:279-280 | on a valid record the tick keeps `spawned` = min(12, `time` div 40) with one note per spawn, keeps the old notes and the dead count |
| ScriptKaraoke.Fall | script.js:282-291 | a dead note is untouched; a live one falls by its speed and dies exactly when below lineY + 50 |
| ScriptKaraoke.Fallen | script.js:282-291 | the note loop maps `Fall` over the notes and keeps their number |
| ScriptKaraoke.FallenDeadIn | script.js:282-291 | no note comes back to life |
| ScriptKaraoke.FallAll | script.js:282-291 | the note loop adds one miss per note that died and changes only the notes and `miss` |
| ScriptKaraoke.TryHitCounts | script.js:293-315 | exactly one of `hit` and `miss` rises by 1; a hit happens exactly when a live note is within 26; it kills the nearest live note (the earliest among ties) and nothing else; it is perfect exactly when within 10; a miss changes nothing but `miss` |
| ScriptKaraoke.UpdateWhenDone | script.js:277 | once `done`, an update changes nothing and scores nothing |
| ScriptKaraoke.UpdateSteps | script.js:276-328 | a non-done update advances `time` by 1 and spawns exactly when due; a tap is handled exactly when there was one; `hit` and `miss` move only by the tap and the late notes; the clear fires exactly when `hit` is at least 8 afterwards, and `done` equals it |
| ScriptKaraoke.UpdateNoLateNote | script.js:282-291 | after an update, no live note sits more than 50 below the line |
| ScriptKaraoke.TryHitValid | script.js:303-314 | a tap keeps `hit` at most the number of dead notes and `miss` non-negative, keeps the number of notes and changes only the notes, `hit` and `miss` |
| ScriptKaraoke.UpdateValid | script.js:276-328 | a valid record stays valid: period 40, total 12, `spawned` = min(12, `time` div 40) with one note each, `hit` at most the dead notes, `done` exactly at 8 hits |
| ScriptKaraoke.Karaoke.Init | script.js:266-270 | the new record is `Initial(h)` |
| ScriptKaraoke.Karaoke.SpawnNote | script.js:271-275 | the record becomes `Spawn` of the old one |
| ScriptKaraoke.Karaoke.FallNotes | script.js:282-291 | the note loop leaves `FallAll` of the old record and returns the late count |
| ScriptKaraoke.Karaoke.TryHit | script.js:295-315 | the record and outcome are `AfterTap` of the old record |
| ScriptKaraoke.Karaoke.TickSpawn | script.js:279-280 | the record becomes `Ticked` of the old one |
| ScriptKaraoke.Karaoke.TapAndClear | script.js:293-327 | the tail leaves `Finish` of the old record |
| ScriptKaraoke.Karaoke.Update | script.js:276-328 | the update leaves `Updated` of the old record |
| ScriptSkate.CollideIsHit | script.js:392-396 | for a non-negative radius, `circleRectCollide` agrees with `circleRectHit` |
| ScriptSkate.Heart | script.js:389 | a heart is alive and lies in [70, w - 70] when w >= 140, and in [70, h - 70] when h >= 140 |
| ScriptSkate.Hearts | script.js:388-389 | five hearts |
| ScriptSkate.InitSkateValid | script.js:373-391 | a fresh record is valid (five hearts, the live ones and `collected` making five, `done` exactly at five), has the player at rest at (0.35w, 0.55h) and three bars, uses ten draws, and its hearts lie in the stage inset by 70 when the stage is that large |
| ScriptSkate.Kicked | script.js:400-406 | the press keeps the position; without a fresh press nothing changes |
| ScriptSkate.Pushed | script.js:408-420 | the key push and friction keep the position |
| ScriptSkate.Clamped | script.js:422-424 | the clamp keeps the velocity; the player ends at least r from the top and left, and at most w - r, h - r when the stage is at least 2r wide and tall; a move that stays inside is taken as it is |
| ScriptSkate.MoveBar | script.js:426-429 | a bar slides by vx, keeps its row, size and speed; a moving bar turns round exactly when it slid within 16 of a side wall |
| ScriptSkate.HitsBarIn | script.js:431-438 | a touch is reported exactly when one of the first n bars touches the player |
| ScriptSkate.Collect | script.js:440-450 | the heart loop keeps the number of hearts |
| ScriptSkate.CollectCounts | script.js:440-450 | the live hearts after the loop plus the hearts taken are the live hearts before |
| ScriptSkate.UpdateWhenDone | script.js:398 | once done, an update changes nothing and scores nothing |
| ScriptSkate.UpdatePlayer | script.js:422-438 | the player slips exactly when, after moving, it touches one of the slid bars; a slip puts it at rest at (0.35w, 0.55h); otherwise it lies in the stage inset by r; the bars become `MoveBars` of the old ones |
| ScriptSkate.UpdatePlayerInside | script.js:422-438 | on a stage of at least 46 by 36 the player lies in [r, w - r] × [r, h - r] after every update |
| ScriptSkate.UpdateClear | script.js:440-461 | a valid record stays valid; `collected` rises by the hearts taken and the score by 12 each; the clear fires exactly when the record was not done and `collected` reaches five; a clear sets `done` |
| ScriptSkate.Skate.Init | script.js:373-391 | the record is the fresh one around the hearts given |
| ScriptSkate.Skate.SlideBars | script.js:426-429 | the bars become `MoveBars` of the old ones |
| ScriptSkate.Skate.CheckBars | script.js:431-438 | the result says whether some bar touches the player; a touch puts the player at the spawn point; nothing else changes |
| ScriptSkate.Skate.CollectHearts | script.js:440-450 | the hearts become `Collect` of the old ones; `n` is the number taken |
| ScriptSkate.Skate.Update | script.js:397-461 | the record becomes `Updated` of the old one |
| ScriptSkate.NewSkate | script.js:373-391 | a fresh record whose model is `InitSkate`, with the next unused draw |
| ScriptSwim.KeepAxis | script.js:535-539 | the position ends in [lo, hi]; a low clamp leaves \|v\|·0.35 >= 0, a high clamp -\|v\|·0.35 <= 0; an axis in range is untouched |
| ScriptSwim.KeepInPool | script.js:528-540 | the body ends in the pool inset by r when the pool is at least 2r wide and tall; a body inside is untouched |
| ScriptSwim.KeepInPoolBounce | script.js:535-539 | in a pool at least 2r wide and tall, each axis out of range is set to the nearer edge with its speed turned inward at 0.35 of its size; an axis in range is kept |
| ScriptSwim.Push | script.js:560-566 | the push is not negative, 0 from 92 on, and at most 1.35 for a point inside the pool |
| ScriptSwim.WallRepelBounds | script.js:550-574 | the repel vector is the left push minus the right push and the top push minus the bottom push; at least 92 from every wall it is (0, 0); inside the pool each push lies in [0, 1.35] |
| ScriptSwim.EdgePenalty | script.js:576-584 | the penalty lies in (0, 1/12] |
| ScriptSwim.Candidate | script.js:595-596 | a sample lies in the pool inset by 40 along each axis at least 80 long |
| ScriptSwim.Scores | script.js:594-606 | one score per sample |
| ScriptSwim.ScoresAt | script.js:594-606 | the i-th score is the score of the i-th sample |
| ScriptSwim.FirstMax | script.js:594-606 | the scan's pick is an index of the scores, or none |
| ScriptSwim.FirstMaxIsFirstMax | script.js:594-606 | over scores above -1e9 the pick exists, has maximal score and every earlier score is strictly smaller |
| ScriptSwim.ScoreAboveFloor | script.js:597-601 | no sample scores as low as -1e9 |
| ScriptSwim.ScoresAboveFloor | script.js:594-606 | every sample scores above -1e9 |
| ScriptSwim.FindBestPoint | script.js:586-608 | the sampling loop returns `BestPoint` |
| ScriptSwim.TimerRange | script.js:609 | the target timer drawn lies in [0.35, 0.8) |
| ScriptSwim.PickedBest | script.js:586-608 | the target is the sample of maximal `d - 520·edgePenalty`, and the first such |
| ScriptSwim.PickedTarget | script.js:586-614 | the target lies in the pool inset by 40, the target timer in [0.35, 0.8), the dodge timer in [0.35, 0.75], the dodge side stays 1 or -1, 31 draws are used |
| ScriptSwim.InitSwimValid | script.js:496-526 | a fresh record is valid and not done |
| ScriptSwim.Lunged | script.js:636-640 | the lunge keeps the position |
| ScriptSwim.Cooled | script.js:633 | the cool-down is never negative, and stays at most 0.22 for dt >= 0 when it started there |
| ScriptSwim.Swum | script.js:643-649 | drag, `limitSpeed`, the move and `keepInPool` leave the body in the pool inset by its radius |
| ScriptSwim.GuyPushed | script.js:620-641 | the key push and lunge keep the position |
| ScriptSwim.GuyMoved | script.js:619-649 | the guy's move changes only the guy and the cool-down; the cool-down becomes 0.22 exactly on a lunge, which needs a fresh press and a spent cool-down, and `Cooled` otherwise |
| ScriptSwim.Unstuck | script.js:717-735 | the anti-stuck push keeps the girl's position |
| ScriptSwim.NormalizedUnit | script.js:703-704 | a normalised offset has length 1, or is the offset itself when its length is 0 |
| ScriptSwim.Panic | script.js:687 | `panic` lies in [0.25, 1] |
| ScriptSwim.SteerUnit | script.js:689-704 | the girl's steering is a unit direction, or the zero sum itself |
| ScriptSwim.GirlMoved | script.js:706-735 | the girl's move changes only the girl |
| ScriptSwim.Moved | script.js:619-735 | the moves of a frame keep the pool and `done` |
| ScriptSwim.Tagged | script.js:737-749 | the tag is reported exactly on contact and `done` becomes true when it is; nothing else changes and no draw is used |
| ScriptSwim.UpdateWhenDone | script.js:617 | once done, an update changes nothing and draws nothing |
| ScriptSwim.UpdateTag | script.js:737-749 | the tag happens exactly when the game is not done and the bodies end the frame nearer than the sum of their radii; it sets `done`; a frame without it leaves `done` unset |
| ScriptSwim.UpdateValid | script.js:616-750 | for dt >= 0 a valid record stays valid: the cool-down stays in [0, 0.22] and the dodge side 1 or -1 |
| ScriptSwim.UpdateInPool | script.js:616-750 | after a frame of a game not yet done both bodies lie in the pool inset by their radius, when the pool is at least 2r wide and tall, and the pool is kept |
| ScriptSwim.Swim.Init | script.js:496-523 | the record is `Fresh` with the given dodge side |
| ScriptSwim.Swim.PickNewEscapeTarget | script.js:586-614 | the record and cursor become `Picked` of the old ones |
| ScriptSwim.Swim.Redraw | script.js:609-613 | the two timers and the flip are `Redrawn` |
| ScriptSwim.Swim.MoveGuy | script.js:619-649 | the record becomes `GuyMoved` of the old one |
| ScriptSwim.Swim.Retarget | script.js:660-663 | the record and cursor become `Retargeted` of the old ones |
| ScriptSwim.Swim.MoveGirl | script.js:665-735 | the record becomes `GirlMoved` of the old one |
| ScriptSwim.Swim.Update | script.js:616-750 | the record becomes `Updated` of the old one; the tag and next draw are returned |
| ScriptSwim.Swim.TagCheck | script.js:737-749 | the record and tag become `Tagged` of the old one |
| ScriptSwim.NewSwim | script.js:496-526 | a fresh record whose model is `InitSwim`, with the next unused draw |
| ScriptFlow.ValidReady | script.js:895-913 | a valid flow is ready for a frame |
| ScriptFlow.ResetSceneFacts | script.js:259-263 | `resetSceneState` sets up a fresh record for a scene in 0..2 (a valid one for skating and swimming), keeps the other two records, and changes nothing else but the cursor |
| ScriptFlow.ResetSceneValid | script.js:259-263 | `resetSceneState` sets up the record of the current scene and keeps every record valid |
| ScriptFlow.SetSceneState | script.js:183-204 | `setScene(n)` moves to scene n, stopped behind its start overlay, and keeps every record as it was |
| ScriptFlow.ResetAllState | script.js:239-255 | `resetAll` leaves score 0, scene 0 with a fresh karaoke record, stopped behind the start overlay, the modal closed; it keeps a valid flow valid |
| ScriptFlow.BootState | script.js:920-932 | the boot starts a valid flow at scene 0 with a fresh karaoke record, stopped behind its start overlay |
| ScriptFlow.PressedState | script.js:223-227 | the start action runs the current scene with a fresh record; "Next" moves to its scene and runs it; with no action pending nothing changes; the score is kept |
| ScriptFlow.PressedValid | script.js:223-227 | the start button keeps the flow valid |
| ScriptFlow.KaraokeFrameKeeps | script.js:276-328 | a karaoke frame changes only the karaoke record, the score and the overlay state |
| ScriptFlow.SkateFrameKeeps | script.js:397-461 | a skating frame changes only the skating record, the score and the overlay state |
| ScriptFlow.SwimFrameKeeps | script.js:737-749 | a swimming frame changes only the swimming record, the cursor, the score, `running` and the modal |
| ScriptFlow.AfterKaraokeValid | script.js:317-327 | applying a valid karaoke frame keeps the flow valid |
| ScriptFlow.AfterSkateValid | script.js:452-460 | applying a valid skating frame with a non-negative gain keeps the flow valid |
| ScriptFlow.AfterSwimValid | script.js:738-749 | applying a valid swimming frame keeps the flow valid |
| ScriptFlow.SceneUpdatedValid | script.js:901-903 | the update part of a frame keeps the flow valid |
| ScriptFlow.TickedValid | script.js:895-913 | every frame keeps the flow valid |
| ScriptFlow.TickedScene | script.js:895-913 | a stopped frame changes only the time and the input flags; no frame changes the scene or the other scenes' records; `keys["Space"]` is kept; `tap` and `pointerJustDown` are always cleared |
| ScriptFlow.KaraokeFrameScore | script.js:306 | a karaoke frame scores 10 exactly on a hit |
| ScriptFlow.SkateFrameScore | script.js:445 | a skating frame scores 12 for every heart it collects |
| ScriptFlow.SwimFrameScore | script.js:738-749 | a swimming frame scores 25 exactly on the tag; the tag happens only on an unfinished swim whose bodies touch, and finishes it, stops the game and shows the proposal |
| ScriptFlow.TickedScore | script.js:895-913 | scores never fall; a karaoke frame adds 0 or 10; a stopped game and a finished swim score nothing |
| ScriptFlow.TickedEnd | script.js:895-913 | a karaoke or skating clear stops the flow behind "Next" to the next scene; a tag stops the swim; otherwise `running` and the overlay are kept |
| ScriptFlow.Game.Init | script.js:920-932 | the new state is `Boot` |
| ScriptFlow.Game.ResetSceneState | script.js:259-263 | the state becomes `ResetScene` of the old one |
| ScriptFlow.Game.ShowOverlayForScene | script.js:206-229 | the state becomes `ShowOverlay` of the old one |
| ScriptFlow.Game.SetSceneTo | script.js:183-204 | the state becomes `SetScene` of the old one |
| ScriptFlow.Game.ShowNextOverlay | script.js:231-237 | the state becomes `ShowNext` of the old one |
| ScriptFlow.Game.Reset | script.js:239-255 | the state becomes `ResetAll` of the old one |
| ScriptFlow.Game.Press | script.js:113 | the state becomes `Pressed` of the old one |
| ScriptFlow.Game.KaraokeStep | script.js:901 | the state becomes `KaraokeFrame` of the old one |
| ScriptFlow.Game.ApplyKaraoke | script.js:317-327 | the state becomes `AfterKaraoke` of the old one |
| ScriptFlow.Game.SkateStep | script.js:902 | the state becomes `SkateFrame` of the old one |
| ScriptFlow.Game.ApplySkate | script.js:452-460 | the state becomes `AfterSkate` of the old one |
| ScriptFlow.Game.SwimStep | script.js:903 | the state becomes `SwimFrame` of the old one |
| ScriptFlow.Game.ApplySwim | script.js:738-749 | the state becomes `AfterSwim` of the old one |
| ScriptFlow.Game.Step | script.js:901-903 | the state becomes `SceneUpdated` of the old one |
| ScriptFlow.Game.Tick | script.js:895-913 | the state becomes `Ticked` of the old one |
| ScriptFlow.Game.PointerDown | script.js:63-72 | only `input.pointerJustDown` and `input.tap` are set |
| ScriptFlow.Game.SetSpace | script.js:54-58 | only `keys["Space"]` changes, to the key's new state |

## Left out

- Drawing: every `draw*` function, the canvas, `roundRect` and `drawRoundedRect`. It is presentation only.
- DOM text and overlay building: titles, captions, images, `showPhotoOverlay`'s content and `showToast`. Toasts appear only as the results a frame returns (outcome, late count, tag, touch, reset). An overlay is a flag plus its pending action.
- `showProposal`: only as the `proposalShown` flag, because its effects are DOM styling.
- Audio (`sfxBeep`, `beep`, melodies), confetti and the No-button choreography: these are foreign calls or cosmetic.
- The Yes and gift modals: their buttons act on the DOM only, so they are not modelled as operations. `resetAll` only closes the modals, which the model records as `proposalShown := false`.
- Event plumbing: listeners, `requestAnimationFrame` and `resizeCanvas` are not modelled. `W()`/`H()`, the keys and the pointer position are parameters.
- The `KeyR` binding in both revisions is not a member of its own: key handling is plumbing, and the operation it runs is `Game.Reset`.
- Button release (`keyup`, `pointerup`, `pointermove`) is not modelled. It only changes inputs, which each frame receives as parameters.
- `dampFactor`: its values for the frame are parameters in [0, 1], because `Math.pow` is not modelled.
- The girl's steered velocity in `app.js` (flee, buoy avoidance, wall avoidance and damping, app.js:878-907) is a parameter of the frame. Only its cap and the moves after it are modelled: the sum is a weighted mix of unit vectors with no property beyond the cap.
- The unstick kick of `app.js` (app.js:929-933) draws from the random stream. The model does not bound the kicked velocity.
- `triggerSlip` (app.js:586-599) is not modelled: it is never called, and it uses trigonometry.
- IEEE-754 doubles are not modelled: reals stand in for them, so overflow, NaN and rounding are absent.
- `Math.random` is a stream of draws in [0, 1) read through a cursor. The model has no pseudo-random generator.
- `Math.hypot` is an oracle `hypot` with `IsHypot(hypot)`. Its value is the non-negative root of the sum of squares, and nothing in the model depends on how it is computed.
- The `app.js` karaoke record's `x` (`w * 0.5`, app.js:311) is set by `Initial`, but no contract reads it, because only drawing uses it.
- The ice zones' and notes' use of `W()`/`H()` at the moment of the call: each call receives the stage size as a parameter instead.
- The flows hold the three game records as values, not as the game classes: a frame of the flow is proved against the game's `Updated` function. The game classes are proved against the same functions on their own.
- ScriptSwim.SteerUnit: the zero case of the steering sum is stated as "the sum itself", not as a direction. `Math.hypot(...) || 1` divides by 1 there.
- AppSwim.Unstick: it states the timer and the bookkeeping only. The size of the random kick, `rand(-160, 160) * dt` toward the centre, is not bounded.

Where a line above names a member, its contract is deliberately narrower than the source's behaviour, for the reason given.
