# Verified model of the site's ragdoll controller, mini-games and path helpers

This project models three parts of a personal website's front-end scripts in
Dafny and proves properties of the model.

- **The active-ragdoll posture controller** (`ragdoll_physics.js`). It runs once a frame on a
  six-part figure: head, torso, two arms and two legs. Each frame it
  flattens every body onto the screen plane, keeps the limbs inside their
  angle windows, snaps limbs back to their sockets and locks the head to the
  torso. It then runs a posture state machine:
  - a drag younger than 200 ms overrides everything;
  - a stable figure holds a kinematic statue pose, or waves its right arm five
    times once it has stood still long enough;
  - a falling figure is pushed upright by PD torque, scaled by a stand factor
    that ramps up in [0, 1];
  - stability begins after a 500 ms dwell of a still, upright torso.

  `Controller` holds the controller's fields. The figure is a map from parts to
  body states, and each frame passes it through `Update`.
- **The ragdoll glue** (`ragdoll_background.js`):
  - the snapshot a page saves and the next page restores;
  - the skin-rectangle table;
  - the frame-step clamp and the out-of-bounds rescue;
  - the per-doll watchdog;
  - the head-to-torso redirect when the mouse grabs;
  - respawn with teardown;
  - the controller reset on an in-page navigation.

  `Scene` holds the page's dolls, the bodies and joints they put into the
  physics world, the grab, the clocks and the stored snapshot.
- **Eight canvas mini-games** (`games/*.js`).
  - Each game is a class holding the closure's state. Each input handler and
    each interval callback is a method.
  - Each game's step is also a pure function of the state, and lemmas state
    the rules the game promises.
  - Random draws are parameters in [0, 1).
- **The path helpers of `shared.js`**:
  - the page name that marks the active navigation link;
  - the path normalisation used to compare pages;
  - the decision to take over a link click;
  - the same-address guard of `navigateTo`.

Orientation is one scalar twist angle per body. Quaternion read-back is a
`Readback` function that moves an angle by whole double turns. Cosine and sine
are uninterpreted functions passed in as a `Trig` value. `Date.now()` and the
last-interaction time are explicit integer parameters. Where the physics
engine would move bodies between frames, the model takes the figure as an
input.

Where the code and the comments or design notes beside it disagree, the model
follows the code:

- The drag override leaves `standingTimer` and `standFactor` as they were. Only
  stability, the home pose and the wave are dropped (`RagdollPhysics.DragOverrides`).
- A hard knock while stable clears only `isStable` and `stableStartTime`. A wave
  in progress keeps its phase, and resumes when the figure is stable again
  (`RagdollPhysics.KnockBreaksStability`).
- The socket table of `enforceJoints` (ragdoll_physics.js:113-116) is not the
  joint table of `createRagdoll` (ragdoll_background.js:266-287). The comment at
  ragdoll_physics.js:112 says the two match. The model uses each table where the
  code uses it: `EnforcerJoints` for cohesion, and the statue and wave
  configurations for the kinematic poses.
- `cleanPath` (shared.js:229) does not do what the comment at shared.js:228 says. The
  click listener (`Shared.Intercept`, `Shared.Router.OnClick`) uses it as written. The
  intended normalisation is `Shared.CleanPath`, and the click decision built on it is
  `Shared.IntendedIntercept`. "## Findings" gives the inputs on which the two differ.
- `onMouseDown` assigns `isStable` on the doll object (ragdoll_background.js:552),
  not on its controller, so neither the controller nor the model reads it.

## Model

| member | source | states |
|---|---|---|
| Shared.LastSegment | shared.js:154 | `split("/").pop()` is the slash-free suffix of the path that follows its last '/', or the whole path when it has no '/' |
| Shared.PageName | shared.js:154 | the page `setActiveLink` marks is never empty and never contains a '/' |
| Shared.PageNameIsASegment | shared.js:154-169 | the page name is never "" nor "/", so the home-link fallback never runs; it is "index.html" or the path's last segment |
| Shared.PageNameOfDirectory | shared.js:154 | a path ending in '/' names "index.html", and a path ending in a name names that name |
| Shared.SegmentAfterSlash | shared.js:154 | whatever follows the last '/' is the last segment, the empty text included |
| Shared.Activated | shared.js:157-164 | marking the links keeps their number |
| Shared.DropSlash | shared.js:229 | `replace(/\/$/, '')` removes exactly one trailing '/', and leaves a path without one unchanged |
| Shared.FirstFrom | shared.js:229 | the search finds the first occurrence of the pattern at or after the start, or reports that there is none |
| Shared.RemoveFirstCuts | shared.js:229 | `replace` with a string pattern cuts out the first occurrence and nothing else, and leaves a string without one unchanged |
| Shared.CleanPathAsWrittenSplitsDirectory | shared.js:229 | as written, "/d/" cleans to "/d" but "/d/index.html" to "/d/", so the two compare as different pages |
| Shared.CleanPathAsWritten | shared.js:229 | `cleanPath` as written cuts exactly the ten characters of one "index.html" out of the slash-stripped path, or returns that path unchanged when it holds none |
| Shared.CleanPathAsWrittenCutsInsideNames | shared.js:229 | as written, "index.html" is cut out of the middle of a name, so "/myindex.html" and "/my" clean to the same path |
| Shared.CleanPath | shared.js:228 | the normalisation the comment describes: a path ending in "/index.html" loses that final "index.html" and then at most one '/', and any other path loses at most one trailing '/' |
| Shared.CleanPathJoinsDirectory | shared.js:228 | a directory, its trailing-slash form and its index page all clean to the same path |
| Shared.CleanPathKeepsPages | shared.js:228 | every other page name is kept, so distinct pages of one directory stay distinct |
| Shared.Decide | shared.js:221-245 | a click is taken over only for an anchor with no target and no '#' in its `href`, and it navigates only when `isSamePage` is false, to the anchor's `href` |
| Shared.Intercept | shared.js:220-246 | the listener as written: a click it takes over is on an anchor with an `href`, and a navigating click goes to that `href`, whose path cleans (as written) differently from the current one |
| Shared.InterceptOnlyInternal | shared.js:220-246 | a click is taken over exactly for an anchor with an `href` that is internal, has no target and has no '#'; it navigates exactly when the paths cleaned as written differ, and then to the link's `href` |
| Shared.InterceptAsWrittenReloadsDirectory | shared.js:229-244 | as written, a link from "/d/index.html" to "/d/" navigates, fetching the page already shown |
| Shared.InterceptAsWrittenMergesPages | shared.js:229-244 | as written, a link from "/my" to the different page "/myindex.html" is suppressed, so that page never opens |
| Shared.IntendedIntercept | shared.js:228-245 | the decision with the intended normalisation takes over the same clicks as the listener as written, and a navigating click leads to a path that cleans differently |
| Shared.InterceptSuppressesSamePage | shared.js:228-244 | with the intended normalisation, a link from a directory's index page to the directory is suppressed rather than reloaded |
| Shared.InterceptNavigatesBetweenPages | shared.js:228-244 | with the intended normalisation, a link to another page of the same directory navigates |
| Shared.Navigated | shared.js:254-265 | navigating to the current address changes nothing; any other address becomes the location and leaves a push and fetch, or a full load |
| Shared.NavigatedIdempotent | shared.js:257 | navigating twice to one address has the effect of navigating once |
| Shared.NavBar.constructor | shared.js:156 | the bar holds one inactive link per `href`, in order |
| Shared.NavBar.MarkActive | shared.js:157-164 | each link ends up active exactly when its `href` is the page, and the links are otherwise unchanged |
| Shared.NavBar.SetActiveLink | shared.js:152-170 | exactly the links whose `href` is the page name of the path are active, and every `href` is kept |
| Shared.Router.NavigateTo | shared.js:254-265 | the location and the recorded push, fetch or load are exactly those of `Navigated` |
| Shared.Router.OnClick | shared.js:220-246 | the default is prevented exactly when the listener as written takes the click over, only a click it navigates changes the router state, and it does so as `navigateTo` does |
| Figure.PlaneOrderCoversAll | ragdoll_physics.js:34 | the plane pass lists every one of the six parts |
| Figure.KeyPart | ragdoll_background.js:241-246 | a key that names a part is that part's key in `ragdoll.parts` |
| Figure.KeyPartInverse | ragdoll_background.js:241-246 | every part is found again under its own key |
| Figure.PartKeyInjective | ragdoll_background.js:241-246 | no two parts share a key |
| Geometry.WrapAngle | ragdoll_physics.js:54-55 | the wrap lands in [-pi, pi], keeps an angle already there, and brings one above pi into (-pi, pi] and one below -pi into [-pi, pi) |
| Geometry.WrapAngleIsWholeTurns | ragdoll_physics.js:54-55 | the wrap changes an angle by whole turns only |
| Geometry.WrapAngleIdempotent | ragdoll_physics.js:54-55 | wrapping twice is wrapping once |
| Geometry.WrapByLoop | ragdoll_physics.js:54-55 | the two `while` loops end, and compute exactly the wrap |
| Geometry.Clamp | ragdoll_physics.js:279 | `Math.max(lo, Math.min(hi, x))` lies in [lo, hi], keeps a value already there, and keeps the sign of x when the bound on that side allows it |
| RagdollPhysics.Readback | ragdoll_physics.js:41-42 | the twist read back from a z-axis quaternion lies in (-2pi, 2pi] and equals the angle it was built from whenever that is already in range |
| RagdollPhysics.ReadbackIsWholeTurns | ragdoll_physics.js:41-42 | rebuilding the quaternion changes the twist by whole turns only |
| RagdollPhysics.WrapShift | ragdoll_physics.js:53-55 | the wrap of a relative angle does not depend on whole turns added to either twist |
| RagdollPhysics.SlerpEnds | ragdoll_physics.js:305-307 | a blend with weight 0 leaves the starting twist |
| RagdollPhysics.Slerp | ragdoll_physics.js:305-307 | no contract of its own: the blend of two twists, as `SlerpEnds` states it |
| RagdollPhysics.Planar | ragdoll_physics.js:34-44 | flattening zeroes depth, depth velocity and off-axis spin, keeps a pure twist in (-2pi, 2pi], and leaves the planar position, velocity, spin and torque alone |
| RagdollPhysics.PlanarIdempotent | ragdoll_physics.js:34-44 | flattening a body already on the plane changes nothing |
| RagdollPhysics.PlanarAll | ragdoll_physics.js:34-44 | the plane pass keeps the figure's parts and leaves every one on the plane |
| RagdollPhysics.FlattenAll | ragdoll_physics.js:34-44 | the loop over the six parts produces exactly the plane pass |
| RagdollPhysics.LimitsValid | ragdoll_physics.js:80-89 | the arm and leg windows are non-empty and lie strictly inside (-pi, pi) |
| RagdollPhysics.Constrained | ragdoll_physics.js:50-75 | a limb inside its window is untouched, and `constrainAngle` never moves the limb or changes its linear velocity or off-axis spin |
| RagdollPhysics.ConstrainedSnapsToBound | ragdoll_physics.js:57-73 | a limb outside its window is set exactly onto the bound it crossed and its spin is cut to a tenth |
| RagdollPhysics.ConstrainedWithin | ragdoll_physics.js:50-75 | after `constrainAngle` the limb is inside its window |
| RagdollPhysics.ConstrainedIdempotent | ragdoll_physics.js:50-75 | a second `constrainAngle` with the same window changes nothing |
| RagdollPhysics.ConstrainPart | ragdoll_physics.js:50-51 | constraining keeps the figure's parts, a missing limb included |
| RagdollPhysics.ConstrainAngle | ragdoll_physics.js:50-75 | the closure, with its two wrap loops, computes exactly the constrained limb |
| RagdollPhysics.Limited | ragdoll_physics.js:77-89 | the four limit calls keep the figure's parts |
| RagdollPhysics.LimitedWithinWindows | ragdoll_physics.js:77-89 | after the limit pass each limb the figure has lies inside its window, and the head and torso are untouched |
| RagdollPhysics.LimitAll | ragdoll_physics.js:77-89 | the four calls compute exactly the limit pass |
| RagdollPhysics.Snapped | ragdoll_physics.js:94-110 | `snapPart` never changes the limb's twist or torque |
| RagdollPhysics.SnappedCohesion | ragdoll_physics.js:104-109 | a limb whose anchor is more than 0.4 from its socket is moved onto it and takes the torso's velocities; one within 0.4 is left alone; either way it ends within 0.4 |
| RagdollPhysics.SnapPart | ragdoll_physics.js:94-95 | snapping keeps the figure's parts, a missing limb included |
| RagdollPhysics.Enforced | ragdoll_physics.js:92-118 | `enforceJoints` keeps the figure's parts and never moves the torso |
| RagdollPhysics.EnforcedFrame | ragdoll_physics.js:113-116 | a part no socket row names is left as it was |
| RagdollPhysics.EnforcedCohesion | ragdoll_physics.js:92-118 | after `enforceJoints` every limb in the table the figure has is within 0.4 of its socket |
| RagdollPhysics.EnforcerTableDistinct | ragdoll_physics.js:113-116 | the four socket rows name four different limbs, none the torso |
| RagdollPhysics.EnforceJoints | ragdoll_physics.js:92-118 | the four `snapPart` calls compute exactly `enforceJoints` over its table |
| RagdollPhysics.HeadLocked | ragdoll_physics.js:121-137 | `lockHead` changes only the head and leaves it attached: anchor on the torso's socket, same twist, same velocities |
| RagdollPhysics.HeadLockedIdempotent | ragdoll_physics.js:121-137 | locking an attached head again changes nothing |
| RagdollPhysics.PDTorque | ragdoll_physics.js:273-280 | the PD torque is always within [-1500, 1500] |
| RagdollPhysics.PDTurnsTowardTarget | ragdoll_physics.js:273-280 | at rest with a positive gain the torque has the sign of the wrapped error, so it turns the body the short way toward its target, and is zero on target |
| RagdollPhysics.PDApplied | ragdoll_physics.js:273-280 | `applyPDTorque` changes only the torque accumulator, by at most 1500 either way |
| RagdollPhysics.ApplyPDTorque | ragdoll_physics.js:273-280 | the method, with its two wrap loops, computes exactly the applied torque |
| RagdollPhysics.ActiveGains | ragdoll_physics.js:245-252 | for a stand factor in [0, 1] the torso gain ramps from 2500 to 3500 and the limb gains from 240 to 400 and 24 to 180, the torso damping is 250 and the leg gain 800 |
| RagdollPhysics.PDOn | ragdoll_physics.js:264-270 | a torque on a limb keeps the figure's parts, a missing limb included |
| RagdollPhysics.ActivePose | ragdoll_physics.js:238-271 | `applyActivePose` keeps the figure's parts |
| RagdollPhysics.ActivePoseOnlyTorques | ragdoll_physics.js:238-271 | the active pose only adds torque, at most 1500 per body, and moves no body and changes no velocity |
| RagdollPhysics.ApplyActivePose | ragdoll_physics.js:238-271 | the method computes exactly the active pose |
| RagdollPhysics.RightArmPivotY | ragdoll_physics.js:412-415 | the shoulder pivot is 4.0 exactly when the arm target is above 1.0, and 5.5 otherwise |
| RagdollPhysics.TablesDistinct | ragdoll_physics.js:315-321 | the statue table and the wave table (lines 417-423) each name five different parts, none the torso |
| RagdollPhysics.Placed | ragdoll_physics.js:323-353 | placing one configured limb keeps the figure's parts |
| RagdollPhysics.PlaceAll | ragdoll_physics.js:323-353 | the configuration loop keeps the figure's parts |
| RagdollPhysics.PlaceAllFrame | ragdoll_physics.js:323-325 | a part no row names is left as it was |
| RagdollPhysics.PlaceAllPlaces | ragdoll_physics.js:323-353 | every configured limb the figure has ends at its twist, at rest, with its anchor on its socket, and the torso is not moved |
| RagdollPhysics.PlaceLimbs | ragdoll_physics.js:323-353 | the loop computes exactly the placed figure |
| RagdollPhysics.WaveTargetInRange | ragdoll_physics.js:372-407 | the right arm's target always lies between the rest angle 0.10 and the top 2.7 |
| RagdollPhysics.WavePhaseTiming | ragdoll_physics.js:362-407 | a phase ends exactly when its timer passes 800, 300, 300 or 800 ms; the timer restarts except at the end of LOWERING; the order is RAISING, WAVE_DOWN, WAVE_UP, then WAVE_DOWN or after the fifth wave LOWERING, then IDLE; only a finished WAVE_UP counts a wave, and the wave finishes only out of LOWERING |
| RagdollPhysics.WaveAdvanceKeepsCount | ragdoll_physics.js:389-396 | the wave count stays below five while waving and is five once the arm lowers |
| RagdollPhysics.WavePose | ragdoll_physics.js:356-438 | `poseWave` keeps the figure's parts |
| RagdollPhysics.StatuePose | ragdoll_physics.js:282-354 | `poseStatue` keeps the figure's parts |
| RagdollPhysics.StatuePinned | ragdoll_physics.js:282-354 | in the statue the torso is at its home position at rest, and every configured limb hangs at rest from its socket at its configured twist |
| RagdollPhysics.PlaceAllIgnoresStarts | ragdoll_physics.js:331-338 | with the blend complete the placed figure does not depend on the captured start angles |
| RagdollPhysics.StatueSettled | ragdoll_physics.js:296-310 | after 6000 ms of stability the statue does not depend on the captured limb angles |
| RagdollPhysics.Shaped | ragdoll_physics.js:32-138 | the fixed corrections keep the figure's parts |
| RagdollPhysics.NextStandFactor | ragdoll_physics.js:196-206 | the stand factor rises by dt while slow and upright and falls by 2 dt otherwise, stopping at 1 and 0, so it stays in [0, 1] |
| RagdollPhysics.InitialPostureOk | ragdoll_physics.js:11-23 | the constructor's state satisfies the controller's bookkeeping invariant |
| RagdollPhysics.ReactKeepsPostureOk | ragdoll_physics.js:146-235 | every branch after the corrections keeps the stand factor in [0, 1], the wave timer non-negative, the wave count consistent with the phase, a wave only with a phase, and a home pose whenever stable |
| RagdollPhysics.React | ragdoll_physics.js:146-235 | no contract of its own: the state machine after the corrections, as `ReactKeepsPostureOk`, `DragOverrides`, `KnockBreaksStability` and `ReactKeepsHead` state it |
| RagdollPhysics.DragOverrides | ragdoll_physics.js:146-161 | a drag younger than 200 ms drops stability, the home pose and the wave, sets `currentState` to IDLE, and records no wave completion |
| RagdollPhysics.KnockBreaksStability | ragdoll_physics.js:164-170 | a knock faster than 5 while stable ends stability and changes nothing else in the controller state or `currentState` |
| RagdollPhysics.StabilityNeedsDwell | ragdoll_physics.js:212-231 | stability begins only without a drag, on a still and upright frame whose dwell timer was set on an earlier frame more than 500 ms ago, and that frame captures the home pose and every part's twist |
| RagdollPhysics.DwellGivesStability | ragdoll_physics.js:214-219 | conversely, a dwell timer older than 500 ms and a still, upright frame make the figure stable |
| RagdollPhysics.FailingFrameClearsTimer | ragdoll_physics.js:214-234 | a frame failing the tight test clears the dwell timer, and the first passing frame only starts it |
| RagdollPhysics.WaveStartsOnlyWhenDue | ragdoll_physics.js:172-182 | a wave starts only while stable, unknocked and undragged, more than 3000 ms into stability, and when no wave has completed or the last completed more than 7000 ms ago |
| RagdollPhysics.DueWaveStarts | ragdoll_physics.js:172-185 | when due a wave does start, in RAISING with count 0 and the timer at this frame's dt |
| RagdollPhysics.WaveCompletionStamps | ragdoll_physics.js:398-406 | a wave ends only out of LOWERING while stable, returning to IDLE and stamping the completion time |
| RagdollPhysics.StatueHoldsHome | ragdoll_physics.js:184-190 | in the statue the controller state is unchanged and the torso stays at its home position, at rest |
| RagdollPhysics.StepKeepsPostureOk | ragdoll_physics.js:25-235 | every `update` keeps the controller's bookkeeping invariant |
| RagdollPhysics.ReactKeepsHead | ragdoll_physics.js:146-235 | every branch ends with the head attached when the corrections attached it |
| RagdollPhysics.HeadAlwaysLocked | ragdoll_physics.js:25-235 | the head is attached to the torso at the end of every `update` on a figure with a torso |
| RagdollPhysics.EnforcedKeepsAngles | ragdoll_physics.js:94-110 | joint cohesion never changes any body's twist |
| RagdollPhysics.ShapedWindows | ragdoll_physics.js:32-138 | after the corrections each limb lies inside its window relative to the torso |
| RagdollPhysics.ShapedGaps | ragdoll_physics.js:32-138 | after the corrections each socketed limb lies within 0.4 of its socket |
| RagdollPhysics.ShapedIsComposed | ragdoll_physics.js:32-138 | the corrections leave every limb inside its window and within 0.4 of its socket |
| RagdollPhysics.ActivePoseKeepsComposed | ragdoll_physics.js:209-210 | applying the active pose and re-locking the head keep the figure composed |
| RagdollPhysics.ReactKeepsComposed | ragdoll_physics.js:146-235 | while dragged or not stable, the frame's branch keeps a composed figure composed |
| RagdollPhysics.ActiveFrameKeepsShape | ragdoll_physics.js:25-235 | while dragged or rising, every `update` ends with each limb inside its window and within 0.4 of its socket |
| RagdollPhysics.Controller.constructor | ragdoll_physics.js:11-23 | a new controller is idle, unstable, with no home pose, counters and timers at zero |
| RagdollPhysics.Controller.PoseStatue | ragdoll_physics.js:282-354 | the method computes exactly the statue pose and leaves the controller alone |
| RagdollPhysics.Controller.AdvanceWave | ragdoll_physics.js:362-407 | the controller's wave state and the arm target are exactly one wave tick |
| RagdollPhysics.WaveAdvance | ragdoll_physics.js:362-407 | no contract of its own: one wave tick, as `WavePhaseTiming`, `WaveAdvanceKeepsCount` and `WaveTargetInRange` state it |
| RagdollPhysics.Controller.PoseWave | ragdoll_physics.js:356-438 | the controller advances one wave tick, the figure is the wave pose for its target, and `currentState` returns to IDLE exactly when the wave finishes |
| RagdollPhysics.Controller.Update | ragdoll_physics.js:25-235 | the new controller state, figure and `currentState` are exactly one frame of the model, whose properties are the lemmas above |
| RagdollPhysics.Step | ragdoll_physics.js:25-235 | no contract of its own: one frame, as `StepKeepsPostureOk`, `HeadAlwaysLocked`, `StatueHoldsHome` and `ActiveFrameKeepsShape` state it |
| RagdollPhysics.Controller.Yield | ragdoll_physics.js:150-161 | the drag branch computes exactly the drag step |
| RagdollPhysics.Controller.HoldStable | ragdoll_physics.js:164-191 | the stable branch computes exactly the stable step |
| RagdollPhysics.Controller.StartWaveIfDue | ragdoll_physics.js:172-182 | a wave starts, in RAISING with count and timer at 0, exactly when it is due, and otherwise nothing changes |
| RagdollPhysics.Controller.PoseStable | ragdoll_physics.js:184-190 | while waving the wave advances and poses the figure; otherwise the statue pose, with the controller unchanged; the head is locked either way |
| RagdollPhysics.Controller.Recover | ragdoll_physics.js:193-234 | the rising branch computes exactly the falling step |
| RagdollPhysics.Controller.CheckStability | ragdoll_physics.js:212-234 | the stability check computes exactly the dwell |
| RagdollPhysics.Dwell | ragdoll_physics.js:212-234 | no contract of its own: the 500 ms dwell test, as `StabilityNeedsDwell`, `DwellGivesStability` and `FailingFrameClearsTimer` state it |
| RagdollPhysics.Controller.CaptureAngles | ragdoll_physics.js:225-230 | the loop captures the twist of every part the figure has, and of no other |
| RagdollPhysics.Controller.ShapeFigure | ragdoll_physics.js:32-138 | the plane pass, the four limits, `enforceJoints` and `lockHead` compute exactly the corrected figure |
| RagdollBackground.NameOrDefault | ragdoll_background.js:83 | an empty user name falls back to the default, and any other name is kept |
| RagdollBackground.SkinCoords | ragdoll_background.js:54-79 | every base and overlay rectangle of every part and face lies inside the 64x64 skin and is non-empty |
| RagdollBackground.Apply | ragdoll_background.js:386-395 | restoring a record sets exactly the saved position, orientation, velocity and spin, and keeps the pending torque |
| RagdollBackground.Recorded | ragdoll_background.js:28-45 | the saved map has exactly one entry per part of the doll, under the part's key, holding that part's state |
| RagdollBackground.KeysOf | ragdoll_background.js:35 | the doll's keys are exactly the keys of the parts it has |
| RagdollBackground.Restored | ragdoll_background.js:386-395 | a restore keeps the doll's parts |
| RagdollBackground.SaveRestoreRoundTrip | ragdoll_background.js:28-45 | saving a doll and restoring onto any doll with at least its parts gives back every saved field of every part (lines 384-395) |
| RagdollBackground.RestoreSkipsStrangers | ragdoll_background.js:386-387 | keys that name no part of the new doll have no effect |
| RagdollBackground.RestoreKeepsUnsaved | ragdoll_background.js:386-387 | a part the snapshot does not mention keeps its spawn state |
| RagdollBackground.RecordedGrows | ragdoll_background.js:35-43 | each pass of the save loop adds exactly the entry of one part |
| RagdollBackground.SaveParts | ragdoll_background.js:35-43 | the save loop builds exactly the saved map |
| RagdollBackground.RestoreParts | ragdoll_background.js:386-395 | the restore loop computes exactly the restored doll |
| RagdollBackground.SpawnParts | ragdoll_background.js:237-246 | `createRagdoll` gives all six parts, the torso at the root at depth 10, every part at rest with no torque |
| RagdollBackground.FrameDelta | ragdoll_background.js:587 | the frame step is at most 0.1 s: 1/60 s without a usable elapsed time, the elapsed time in seconds up to 100 ms, and positive exactly when the elapsed time is missing or non-negative |
| RagdollBackground.Rescued | ragdoll_background.js:598-601 | an escaped torso is put back at (0, 5, 0) at rest; one in bounds is untouched; the twist, spin and torque are always kept |
| RagdollBackground.RescueDefusesWatchdog | ragdoll_background.js:293-299 | right after the rescue the doll's watchdog can only fire for a torso more than 100 off the screen plane |
| RagdollBackground.GrabTarget | ragdoll_background.js:533-539 | grabbing the head grabs the torso; any other part is grabbed itself |
| RagdollBackground.FirstDollHit | ragdoll_background.js:519-548 | the search returns the first hit in ray order that belongs to a doll, or reports that none does |
| RagdollBackground.FindHit | ragdoll_background.js:519-548 | the nested loops compute exactly the first doll hit |
| RagdollBackground.PageReset | ragdoll_background.js:688-698 | the page-load reset makes the controller unstable with no dwell timer and no wave, and keeps the stand factor, home pose and last wave completion |
| RagdollBackground.PageResetKeepsPostureOk | ragdoll_background.js:688-698 | the page-load reset keeps the controller's bookkeeping invariant with `currentState` IDLE |
| RagdollBackground.PageResetNeedsFreshDwell | ragdoll_background.js:688-698 | the frame after a page load never finds the doll stable: the 500 ms dwell has to start again |
| RagdollBackground.FallingFromZeroStaysUnstable | ragdoll_background.js:692 | a falling frame that starts without a dwell timer cannot make the doll stable |
| RagdollBackground.DwellFromZero | ragdoll_background.js:692 | the dwell never completes on the frame that starts its timer |
| RagdollBackground.OwnedExactly | ragdoll_background.js:645-650 | the bodies the listed dolls own are exactly the six of each listed identity |
| RagdollBackground.OwnedJointsExactly | ragdoll_background.js:652-654 | the joints the listed dolls own are exactly the four limb joints of each listed identity |
| RagdollBackground.TornDown | ragdoll_background.js:643-659 | after removing what the dolls own, no body or joint of any of them is left |
| RagdollBackground.Revive | ragdoll_background.js:380-402 | a stored snapshot with a torso revives its user name and parts at the torso's position; anything else spawns the start user at the spawn point with nothing restored; the snapshot is consumed exactly when it parsed |
| RagdollBackground.Doll.constructor | ragdoll_background.js:82-101 | a new doll has the user name or the default, the six spawned parts, `currentState` IDLE, and a fresh controller in its initial state |
| RagdollBackground.Scene.constructor | ragdoll_background.js:20-26 | the page starts with no dolls, bodies, joints or grab, no frame time, and the interaction clock at the load time |
| RagdollBackground.Scene.Spawn | ragdoll_background.js:241-289 | a new doll with a fresh identity is the only doll, and exactly its six bodies and four limb joints join the world |
| RagdollBackground.Scene.TearDown | ragdoll_background.js:643-657 | exactly the bodies and joints of the scene's dolls leave the world |
| RagdollBackground.Scene.Respawn | ragdoll_background.js:631-666 | every old doll's bodies and joints leave the world and exactly one new doll, dropped from the spawn point, replaces them |
| RagdollBackground.Scene.Save | ragdoll_background.js:28-45 | with no doll nothing is stored; otherwise the first doll's name and parts are |
| RagdollBackground.Scene.Init | ragdoll_background.js:319-429 | it runs once; on the first call the scene holds exactly the revived or default doll and its bodies and joints, the interaction clock is reset, and the snapshot is consumed exactly when it parsed |
| RagdollBackground.Scene.SpawnRestored | ragdoll_background.js:384-395 | the new doll is spawned at the root and then takes the snapshot's records |
| RagdollBackground.Scene.Tick | ragdoll_background.js:586-588 | the frame step is computed from the time since the previous frame, and the time is recorded |
| RagdollBackground.Scene.Guard | ragdoll_background.js:590-602 | with no doll, or a torso height that is not a number, a new default doll is spawned, without teardown in the second case; otherwise the dolls stay and only an escaped torso is rescued |
| RagdollBackground.Scene.Watchdog | ragdoll_background.js:293-300 | a torso further than 200 from the origin, below y = -50, or with an x that is not a number respawns the scene: every doll's bodies and joints leave the world, and exactly one new idle doll, named by the user name or the default, in its initial posture, joins it at the top; otherwise nothing changes |
| RagdollBackground.Scene.StepDoll | ragdoll_background.js:302-304 | the doll's parts, `currentState` and controller become exactly one controller step from their old values |
| RagdollBackground.Scene.Animate | ragdoll_background.js:585-622 | after a frame the scene holds exactly one doll, the frame time is recorded, and the interaction clock is untouched |
| RagdollBackground.Scene.UpdateDoll | ragdoll_background.js:293-311 | the watchdog and the controller step leave the scene with exactly one doll and the clocks untouched |
| RagdollBackground.Scene.MouseDown | ragdoll_background.js:510-568 | only a left press on a doll part marks an interaction, grabs that part (the torso for the head) and sets every doll IDLE; otherwise nothing changes; no part is moved |
| RagdollBackground.Scene.MouseMove | ragdoll_background.js:484-506 | a grab held with the left button up is dropped, as `onMouseUp` does; otherwise the grab is kept. Either way, with a part held the interaction time becomes now, and a grab that survives the move keeps the controller's drag override in force; with nothing held the time is unchanged |
| RagdollBackground.Scene.MouseUp | ragdoll_background.js:570-576 | a release drops the grab, and marks an interaction exactly when something was grabbed |
| RagdollBackground.Scene.PageLoad | ragdoll_background.js:685-705 | the page load marks the scene initialised and applies the page-load reset to the first doll's controller, with `currentState` IDLE and its parts unmoved |
| Game2048.KeyDirection | games/2048.js:199-208 | a key means left (0) exactly for Arrow-Left or `a`, up (1) for Arrow-Up or `w`, right (2) for Arrow-Right or `d`, down (3) for Arrow-Down or `s`, and nothing otherwise |
| Game2048.At | games/2048.js:168 | position `j` of line `i` is cell (j, i) for the vertical directions and (i, j) for the horizontal ones |
| Game2048.DirectionEncoding | games/2048.js:162-163 | left walks rows forward, up walks columns forward, right walks rows backward, down walks columns backward |
| Game2048.MergeKeepsTotal | games/2048.js:173-183 | merging a line keeps the sum of its tile values |
| Game2048.MergeShape | games/2048.js:173-183 | each tile merges at most once: the line shrinks by at most half, keeps its length exactly when no two neighbours are equal, and is then returned unchanged with no gain |
| Game2048.MergeExamples | games/2048.js:175-183 | three equal tiles merge as the first pair plus a lone third; four equal tiles merge as two pairs |
| Game2048.MergeFrom | games/2048.js:176-182 | one step of the merge from position `k`: an equal pair becomes one doubled tile that keeps the first tile's identity and scores its value, a lone tile is kept |
| Game2048.MergeLine | games/2048.js:173-183 | the `skip` loop computes exactly the merge of the line and its gain |
| Game2048.Merge | games/2048.js:173-183 | the merged line is never longer than the line and at least half as long: each tile absorbs at most one other |
| Game2048.Tiles | games/2048.js:166-170 | collecting a line's tiles never yields more than its cells |
| Game2048.Reverse | games/2048.js:171 | the reversed line has the same length, position `k` holding the element from the other end |
| Game2048.Pad | games/2048.js:185 | padding yields four cells: the merged tiles in order, then nulls |
| Game2048.Compact | games/2048.js:171-186 | the reversed, merged, padded and reversed-back line has four cells |
| Game2048.Slide | games/2048.js:165-186 | a moved line has four cells |
| Game2048.SlidePacked | games/2048.js:165-186 | a moved line is packed toward the move's wall (no tile after an empty cell, or before one when reversed) and keeps the total of its tile values |
| Game2048.TilesOfPad | games/2048.js:185 | padding adds no tiles: the tiles of the padded line are exactly the merged ones |
| Game2048.MergeOk | games/2048.js:178 | merging keeps every value positive and every identity below the counter |
| Game2048.SlideOk | games/2048.js:165-186 | a moved line keeps every value positive and every identity below the counter |
| Game2048.LineOf | games/2048.js:165-170 | each line `move` reads has four cells |
| Game2048.LinePos | games/2048.js:168 | every cell belongs to some position of some line |
| Game2048.SlideLine | games/2048.js:165-186 | the moved line `i` has four cells |
| Game2048.Moved | games/2048.js:165-195 | the board stays 4x4 while its lines are moved one after another |
| Game2048.Placed | games/2048.js:188-194 | writing a line back keeps the board 4x4 |
| Game2048.LineUntouched | games/2048.js:165-195 | moving lines `0 .. i-1` leaves line `i` as it was |
| Game2048.MovedStep | games/2048.js:188-194 | moving one more line writes that line's slide over the board moved so far |
| Game2048.ChangedIffMoved | games/2048.js:188-196 | the `moved` flag is set exactly when the move changes the board |
| Game2048.MoveBoardPacked | games/2048.js:165-195 | after a move every line is packed toward the move's wall and keeps the total of its tile values |
| Game2048.MovedOk | games/2048.js:165-195 | a move keeps every value positive and every identity below the counter |
| Game2048.SlideTiles | games/2048.js:173-185 | a moved line holds exactly as many tiles as the merge produced |
| Game2048.StillLineGainsNothing | games/2048.js:177-181 | a line that a move leaves as it was adds nothing to the score |
| Game2048.StillMoveGainsNothing | games/2048.js:173-196 | a move that changes nothing adds nothing to the score |
| Game2048.FullLineStill | games/2048.js:144-157 | a full line with no two equal neighbours slides onto itself |
| Game2048.GameOverIsFinal | games/2048.js:144-197 | on a board `checkGameOver` reports as over, no direction changes anything |
| Game2048.EmptyUpTo | games/2048.js:75 | the empty cells found so far lie on the board and are empty |
| Game2048.EmptyUpToStep | games/2048.js:75 | each cell visited in row-major order adds itself to the list exactly when it is empty |
| Game2048.EmptyUpToComplete | games/2048.js:75 | every empty cell visited is listed |
| Game2048.EmptyCellsExactly | games/2048.js:74-75 | the empty list holds exactly the empty cells of the board |
| Game2048.Pick | games/2048.js:77 | the picked index is inside the empty list |
| Game2048.AddTile | games/2048.js:73-80 | adding a tile keeps the board 4x4 |
| Game2048.AddTileLandsOnEmpty | games/2048.js:73-80 | a new tile lands on an empty cell, is worth 2 or 4, carries the counter as its identity, the counter moves on, and no other cell changes; a full board gets nothing |
| Game2048.AddTileOk | games/2048.js:78 | adding a tile keeps every value positive and every identity below the counter |
| Game2048.Game.constructor | games/2048.js:40-42 | the page load: an empty board, score 0, the counter at 1, game on |
| Game2048.Game.EmptyIsBlank | games/2048.js:62 | a board whose every cell is null is the blank board |
| Game2048.Game.CollectLine | games/2048.js:166-170 | the collected line is exactly the tiles of line `i`, in line order |
| Game2048.Game.PadLine | games/2048.js:185 | the `while` loop pads exactly as `Pad` does |
| Game2048.Game.WriteLine | games/2048.js:188-194 | the board gets `cells` on line `i` and nothing else changes; the flag says whether any cell differed |
| Game2048.Game.WriteCells | games/2048.js:188-194 | each cell of line `i` is overwritten with its new value, every other cell kept, and the flag set exactly when something differed |
| Game2048.Game.LineWritten | games/2048.js:188-194 | a board with line `i` replaced and every other line kept is the `Placed` board |
| Game2048.Game.CompactLine | games/2048.js:171-186 | the reverse, merge, pad and reverse-back of one line computes `Compact` |
| Game2048.Game.MoveLine | games/2048.js:165-195 | one line pass moves line `i`, scores its merges, and reports whether it changed |
| Game2048.Game.MoveLines | games/2048.js:165-195 | the four line passes compute `MoveBoard`, add its gain to the score, and set `moved` exactly when the board changed |
| Game2048.MoveBoard | games/2048.js:165-195 | the whole board after a move stays 4x4; its packing, its totals and its change test are stated by `MoveBoardPacked`, `MovedOk` and `ChangedIffMoved` |
| Game2048.Game.AddRandom | games/2048.js:73-80 | the board and counter become `AddTile` of the old ones for the two draws |
| Game2048.Game.EmptyList | games/2048.js:74-75 | the list is exactly the empty cells, row by row |
| Game2048.Game.EmptyInRow | games/2048.js:75 | scanning row `r` appends that row's empty cells to the list |
| Game2048.Game.CheckGameOver | games/2048.js:144-157 | the result is true exactly when the board is full and no two neighbours in a row or column are equal |
| Game2048.GameOver | games/2048.js:144-157 | no contract of its own: a full board with no two equal neighbours, after which `GameOverIsFinal` proves that no move changes anything |
| Game2048.Game.Draw | games/2048.js:137-141 | the game becomes over when `checkGameOver` says so, and is never un-ended |
| Game2048.Game.Move | games/2048.js:159-197 | after the end nothing changes; otherwise the score gains the merges, an unchanged board stays as it was, and a changed one gets a new tile and the game-over test |
| Game2048.Game.KeyDown | games/2048.js:199-208 | a key outside the eight changes nothing; one of the eight is `Move` in its direction: nothing after the end, otherwise the gain added, an unchanged board kept with the game on, and a changed board given a new tile and the game-over test |
| Game2048.Game.Clear | games/2048.js:62-67 | a fresh empty board, score 0, game on, and the counter kept |
| Game2048.Game.Fill | games/2048.js:61-69 | a fresh board holding the two tiles the draws add to the blank board, score 0 |
| Game2048.Game.InitBoard | games/2048.js:61-71 | a fresh board holding exactly two new tiles, score 0, the counter moved on by two, and the game-over flag as `checkGameOver` says |
| Snake.Cell | games/snake.js:72-73 | a drawn coordinate is always on the 20-cell grid |
| Snake.FoodFrom | games/snake.js:70-77 | the food lands on the grid and off the body |
| Snake.TurnIsQuarter | games/snake.js:174-177 | a key keeps the direction or turns it a quarter: the result is a unit step, never the reverse of the old one |
| Snake.TurnIgnoresOtherKeys | games/snake.js:171-179 | any key other than the four arrows and w, a, s, d leaves the direction as it is |
| Snake.QuickDoubleTurnCrashes | games/snake.js:174-177 | heading right, "up" then "left" before the next tick points the head at the neck, so that tick ends the game |
| Snake.Advanced | games/snake.js:56-65 | a tick that does not crash puts the new head in front, keeps the whole body when it eats, and drops exactly the tail otherwise |
| Snake.AdvancedKeepsShape | games/snake.js:50-65 | a tick that does not crash keeps the body on the grid and without repeats, and keeps it off the food unless it eats |
| Snake.Game.constructor | games/snake.js:33-38 | the `reset` state: three segments from (10, 10) down, food at (5, 5), heading up, score 0 |
| Snake.Game.Reset | games/snake.js:33-38 | three segments from (10, 10) down, food at (5, 5), heading up, score 0, game on, and the invariant holds |
| Snake.Game.SpawnFood | games/snake.js:70-77 | the food becomes the first draw that misses the snake |
| Snake.Game.Step | games/snake.js:44-68 | after the end nothing changes; a head off the grid or on the body ends the game with the snake untouched; otherwise the snake advances, eating scores one and respawns the food, and the invariant (on the grid, no repeats, food off the snake, score = growth) is kept |
| Snake.Game.OnKey | games/snake.js:171-179 | while the game is on the direction becomes `Turn` of the old one for the key; after the end it is unchanged |
| Snake.Turn | games/snake.js:171-179 | from a unit direction any key gives a unit direction that is the old one or a quarter turn of it |
| Stack.Overlap | games/stack.js:127-130 | the shared width of the sliding crate and the top crate is never more than either crate's width |
| Stack.PlacedInsideBoth | games/stack.js:128-133 | the crate a successful drop keeps spans exactly the part the two crates share: it lies inside both and each of its edges is an edge of one of them |
| Stack.Lowered | games/stack.js:138 | lowering moves every crate down 30 and keeps everything else |
| Stack.PushKeepsNarrowing | games/stack.js:133 | a crate no wider than the top one keeps the widths non-increasing up the tower |
| Stack.LoweredKeepsWidths | games/stack.js:138 | lowering keeps every width, so a narrowing tower stays narrowing |
| Stack.Dropped | games/stack.js:133-139 | a successful drop adds exactly one crate to the tower |
| Stack.DropKeepsSound | games/stack.js:132-148 | a drop that keeps more than 10 units leaves a sound tower one crate higher: widths non-increasing, every upper crate wider than 10, the new sliding crate as wide as the top and inside the walls, and the score counting the crates above the base |
| Stack.Game.constructor | games/stack.js:32-37 | the `reset` state: the 200-wide base at (100, 470), the first crate at (0, 440), direction 3, score 0 |
| Stack.Game.Reset | games/stack.js:32-37 | the 200-wide base at (100, 470), the first crate at (0, 440), direction 3, score 0, game on, and the invariant holds |
| Stack.Game.Update | games/stack.js:75-88 | the crate slides by `dir`; past the left wall it stops at 0 heading right, past the right wall it stops flush heading left, otherwise it keeps its direction; nothing moves after the end |
| Stack.Game.LowerAll | games/stack.js:138 | the tower becomes `Lowered` of the old tower |
| Stack.Game.Drop | games/stack.js:124-153 | after the end nothing changes; an overlap of 10 or less ends the game with the tower untouched; a larger one scores one, adds the kept crate (lowering the tower when high), and starts the next crate at a wall with speed `3 + 0.2 score` in the drawn direction |
| Stack.Game.Land | games/stack.js:133-148 | the successful branch of `drop`: one more point, the tower `Dropped`, the next crate and direction as drawn, and the tower kept sound |
| Stack.Placed | games/stack.js:128-133 | the pushed crate lies within both the moving crate and the top of the tower, at the moving crate's height and colour |
| Stack.Game.HandleInput | games/stack.js:155-166 | an auto-repeat, a key other than space, up arrow, `w` or Enter, or a press off the canvas changes nothing; a dropping input after the end changes nothing; otherwise a miss of 10 or less ends the game, and a landing scores one, pushes the kept crate and sets the next crate and direction from the draws |
| Breath.Formation | games/breath.js:66-84 | a new formation holds exactly 50 aliens |
| Breath.FormationAt | games/breath.js:70-81 | alien `10 r + c` of the formation sits at (40 + 40 c, 60 + 35 r) and is alive |
| Breath.AliveCount | games/breath.js:131-133 | the live count never exceeds the number of aliens |
| Breath.AliveCountZero | games/breath.js:153 | the live count is zero exactly when no alien is alive |
| Breath.AliveCountKill | games/breath.js:183-187 | killing a live alien lowers the live count by exactly one |
| Breath.AliveCountFlags | games/breath.js:131-133 | the live count depends only on the aliens' alive flags |
| Breath.LowestBounds | games/breath.js:128-137 | `lowestY` is non-negative, no live alien is below it, and it is 0 or the height of some live alien |
| Breath.BreachIff | games/breath.js:161-163 | the breach test fires exactly when some live alien is below y = 440 |
| Breath.LowestHeights | games/breath.js:137 | `lowestY` depends only on the aliens' alive flags and heights |
| Breath.Marching | games/breath.js:131-134 | the march keeps the number of aliens |
| Breath.MarchingSnoc | games/breath.js:131-134 | marching one alien more appends that alien's march to the earlier ones |
| Breath.MarchOneMore | games/breath.js:131-143 | each further alien sets the wall flags, `lowestY`, the live count and the bombs exactly as the loop body does, and only when it is alive |
| Breath.MarchingKeepsRows | games/breath.js:131-134 | the march moves live aliens by the velocity and dead ones not at all, and keeps heights, the live count and `lowestY` |
| Breath.ClearedNeverFlips | games/breath.js:146-153 | a formation without live aliens never turns at a wall |
| Breath.BombedFromLive | games/breath.js:139-142 | there are at most as many new bombs as live aliens, and each falls from 10 below some live alien |
| Breath.Bombed | games/breath.js:139-142 | no contract of its own: one bomb, 10 below, for each live alien whose draw is below the chance, as `BombedFromLive` states it |
| Breath.Descended | games/breath.js:148 | the step down keeps the number of aliens |
| Breath.Shifted | games/breath.js:166-167 | moving the projectiles keeps their number |
| Breath.Filter | games/breath.js:168-169 | the filter keeps exactly the projectiles that pass its test: no more, none that fail, none that pass left out |
| Breath.FirstHit | games/breath.js:182-185 | the scan finds the first live alien whose box holds the fireball, or reports that none does |
| Breath.CollideAll | games/breath.js:180-195 | the collisions keep every alien's position and revive none; each fireball either kills one alien or survives, so the kills plus the survivors are the fireballs, and the live count drops by the kills |
| Breath.Steered | games/breath.js:118-123 | the player's x ends in [20, 480]: the moved position, or the wall it passed |
| Breath.DeadStepIsIdle | games/breath.js:115 | once the player is dead a step changes nothing |
| Breath.ResolveFacts | games/breath.js:166-203 | the projectile and collision part keeps the wave, the formation's direction and speed, the player's position and every alien's position; it leaves only fireballs above 0 and bombs above 510, and scores 100 per kill, with no more kills than fireballs |
| Breath.StepKeepsInField | games/breath.js:114-206 | a step keeps the player in [20, 480] at its height and leaves no projectile off the field |
| Breath.AdvanceTurnsAtWalls | games/breath.js:145-150 | when a live alien reaches the wall the formation heads into, the direction flips, the speed rises by 0.05 and every alien steps down 15; otherwise direction, speed and heights stay |
| Breath.StepTurnsAtWalls | games/breath.js:114-206 | the wall turn of a whole step: the flip, the 0.05 speed-up and the 15-unit step down exactly when the formation reaches the wall it heads into |
| Breath.AdvanceStartsWave | games/breath.js:152-158 | when no alien is alive the wave counter rises, the speed resets to 0.5 + 0.2 wave, and a fresh formation is appended |
| Breath.StepStartsWave | games/breath.js:114-206 | a step from a cleared formation starts the next wave with a fresh formation after the old aliens |
| Breath.StepScoresKills | games/breath.js:179-195 | a step scores exactly 100 per alien its fireballs kill, with at most one kill per fireball |
| Breath.SpacedAfterFire | games/breath.js:105-112 | a shot allowed by the 250 ms gate keeps every two successive shots at least 250 ms apart |
| Breath.Game.constructor | games/breath.js:42-49 | the closure starts with no aliens or projectiles, the player at (250, 460), score 0, wave 1, rightward at speed 0.5 |
| Breath.Game.Reset | games/breath.js:52-64 | `reset` gives a fresh formation, no projectiles, the player alive at (250, 460), score 0, wave 1, rightward at speed 0.7 |
| Breath.Game.SpawnAliens | games/breath.js:66-84 | the 5x10 formation is appended to the aliens already there |
| Breath.Game.Fire | games/breath.js:105-112 | a live player fires from 15 above itself when 250 ms have passed since the last shot, and only then; shots stay 250 ms apart |
| Breath.Game.OnKey | games/breath.js:317-323 | a control key records whether it is down and no other key is recorded; space going down fires when the dead-player and 250 ms gates allow, and every other key or refused press leaves the fireballs, `lastFire` and the shot history as they were |
| Breath.Game.OnMouse | games/breath.js:325-329 | the mouse sets the player's x and nothing else |
| Breath.Game.OnClick | games/breath.js:331-334 | a click fires exactly as `fire` does |
| Breath.Game.MarchOne | games/breath.js:132-142 | one alien of the march: a live one moves by the step and may drop a bomb 10 below its new spot; a dead one changes nothing |
| Breath.Game.MarchAliens | games/breath.js:125-143 | the aliens become the marched formation, the bombs gain the formation's drops, and the wall flags, `lowestY` and the live count describe the marched formation |
| Breath.Game.DescendAll | games/breath.js:148 | every alien steps down 15 |
| Breath.Game.RaiseFireballs | games/breath.js:166 | every fireball rises 9 |
| Breath.Game.LowerBombs | games/breath.js:167 | every bomb falls 4 |
| Breath.Game.Strike | games/breath.js:182-193 | the first live alien whose box holds the fireball dies and scores 100, and with none the aliens and score stay |
| Breath.Killed | games/breath.js:186 | no contract of its own: alien `k` marked dead, as `AliveCountKill` states it |
| Breath.Game.CollideFireballs | games/breath.js:180-195 | aliens, surviving fireballs and the score gain are exactly the collision function's |
| Breath.Game.BlastPlayer | games/breath.js:198-203 | the player dies exactly when some bomb is closer than 22 |
| Breath.Game.SteerPlayer | games/breath.js:117-123 | the state becomes the steering function's |
| Breath.Game.MarchPhase | games/breath.js:125-143 | the state becomes the march function's, with the flags describing the marched formation |
| Breath.March | games/breath.js:125-143 | no contract of its own: the aliens marched and their bombs added, as `MarchingKeepsRows` and `BombedFromLive` state it |
| Breath.Game.TurnPhase | games/breath.js:145-150 | the state becomes the turn function's |
| Breath.Turn | games/breath.js:145-150 | no contract of its own: the flip, the +0.05 and the 15-unit descent at the wall the formation heads for, as `AdvanceTurnsAtWalls` states it |
| Breath.Game.WavePhase | games/breath.js:152-158 | the state becomes the wave-clear function's |
| Breath.NextWave | games/breath.js:152-158 | no contract of its own: a cleared formation starts the next wave, as `AdvanceStartsWave` states it |
| Breath.Game.BreachPhase | games/breath.js:160-163 | the state becomes the breach function's |
| Breath.Game.FlyPhase | games/breath.js:165-169 | the state becomes the projectile function's |
| Breath.Fly | games/breath.js:165-169 | no contract of its own: the shots move and leave the field, as `ResolveFacts` states it |
| Breath.Game.CollidePhase | games/breath.js:179-195 | the state becomes the collision function's |
| Breath.Collide | games/breath.js:179-195 | no contract of its own: each fireball kills the first live alien it hits and is removed, as `CollideAll` states it |
| Breath.Game.BlastPhase | games/breath.js:197-203 | the state becomes the blast function's |
| Breath.Blast | games/breath.js:197-203 | no contract of its own: a bomb closer than 22 kills the player, as `Breath.Game.BlastPlayer` states it |
| Breath.Game.GameStep | games/breath.js:114-206 | the new state is one step of the old for the keys held, whose properties are the Step lemmas above |
| Breath.Advance | games/breath.js:115-163 | no contract of its own: the steering, march, turn, new wave and breach test of a live step, as `AdvanceTurnsAtWalls` and `AdvanceStartsWave` state them |
| Breath.Resolve | games/breath.js:165-203 | no contract of its own: the shot motion and the two collision passes, as `ResolveFacts` and `CollideAll` state them |
| Breath.Step | games/breath.js:114-206 | no contract of its own: one `gameStep`, idle for a dead player, as `DeadStepIsIdle`, `StepKeepsInField`, `StepTurnsAtWalls`, `StepStartsWave` and `StepScoresKills` state it |
| Race.Lane | games/race.js:94 | the lane of a new car is always one of the three lane edges 60, 170, 280 |
| Race.Spawned | games/race.js:93-102 | a new car sits in one of the lanes, 100 above the screen, as a 40x60 box |
| Race.PaceStep | games/race.js:89-90 | one more update raises the road speed by 0.5 exactly when the new score is a multiple of 200, so the speed stays `5 + 0.5 * (score / 200)` |
| Race.Pace | games/race.js:89-90 | no contract of its own: 5 plus 0.5 for every 200 updates, as `PaceStep` states it |
| Race.Moved | games/race.js:106 | moving keeps the number of cars |
| Race.OnScreen | games/race.js:107 | the filter keeps only cars above y = 600, each one taken from the input, and loses none of those |
| Race.HopWithinRoad | games/race.js:180-181 | from anywhere on the road a hop stays within [50, 310], goes the pressed way, and moves a full lane unless the clamp stops it |
| Race.HopStaysOnStops | games/race.js:180-181 | the positions reachable from the start are closed under both arrow keys |
| Race.StopsSpanOneLane | games/race.js:94 | from every reachable position the car's column overlaps exactly one obstacle lane |
| Race.Game.constructor | games/race.js:76-81 | the `reset` state: the car at (180, 400), no cars, score 0, speed 5, race on |
| Race.Game.Reset | games/race.js:76-81 | the car at (180, 400), no cars, score 0, speed 5, race on, and the invariant holds |
| Race.Game.MoveObstacles | games/race.js:106 | every car moved down by its own speed plus half the road speed |
| Race.Game.Update | games/race.js:86-128 | after a crash nothing moves; otherwise the score rises by one, the new car is spawned on the draw, the cars are moved and filtered, the race ends iff the car overlaps one, and the displayed score is `score / 10` |
| Race.Crashed | games/race.js:113-118 | no contract of its own: some car strictly overlaps the player, as `Race.Game.Update` states it |
| Race.Game.OnKey | games/race.js:176-183 | an arrow key hops the car to `Hop` of its old x while the race is on; other keys, or any key after a crash, leave it where it is |
| Race.Hop | games/race.js:180-181 | a left hop lands one lane (110) to the left or at 50, whichever is further right; a right hop one lane to the right or at 310, whichever is further left |
| Pong.SteeredStaysIn | games/pong.js:51-52 | the paddle never leaves the field, moves at most 8 per tick, stays put with no key held, and moves a full 8 whenever the wall allows it |
| Pong.OverIsFinal | games/pong.js:49 | after the game ends an update changes nothing |
| Pong.StepKeepsPaddleIn | games/pong.js:48-79 | every update keeps the paddle inside the field |
| Pong.StepBounces | games/pong.js:54-64 | off the paddle, the ball lands where its velocity takes it, a side wall negates `vx`, the ceiling negates `vy`, otherwise the velocity is kept, and the score is unchanged |
| Pong.StepScoresOnTouch | games/pong.js:66-73 | the score rises by exactly one iff the bounced ball touches the paddle, and a touch sends the ball upward at 1.05 times its vertical speed |
| Pong.StepEndsBelow | games/pong.js:75-79 | the game ends exactly when the ball is below the field, and never on a tick that scores |
| Pong.Game.constructor | games/pong.js:32-37 | a fresh game is in the `reset` state |
| Pong.Game.Reset | games/pong.js:32-37 | ball at (200, 150) moving (5, 5), paddle at 150, score 0, game on, keys released |
| Pong.Game.SteerPaddle | games/pong.js:51-52 | the paddle becomes `Steered` of the old position for the held keys, inside the field |
| Pong.Steered | games/pong.js:51-52 | no contract of its own: 8 left stopping at 0, then 8 right stopping at the right wall, as `SteeredStaysIn` states it |
| Pong.Game.MoveBall | games/pong.js:54-64 | the ball becomes the moved ball after the wall bounces |
| Pong.Bounced | games/pong.js:57-64 | no contract of its own: a side wall flips `vx` and the ceiling flips `vy`, as `StepBounces` states it |
| Pong.Struck | games/pong.js:66-73 | no contract of its own: the paddle touch sends the ball up at 1.05 times its vertical speed with a sideways kick, as `StepScoresOnTouch` states it |
| Pong.Game.Update | games/pong.js:48-79 | the new game state is exactly one `Step` of the old one, and the paddle stays in the field |
| Pong.Step | games/pong.js:48-79 | after the end an update changes nothing, and an update scores at most one point |
| Pong.Game.OnKey | games/pong.js:184-190 | a press or release of Arrow-Left or `a` sets the left flag to the key's state, Arrow-Right or `d` the right flag, and every other key changes neither |
| Flappy.Tilt | games/flappy.js:53 | the tilt stays within an eighth of a turn either way, is a tenth of the speed inside that range, and sits on the nearer bound outside it |
| Flappy.Shifted | games/flappy.js:56 | scrolling keeps the number of pipes |
| Flappy.Kept | games/flappy.js:61 | the filter never adds pipes |
| Flappy.KeptMembers | games/flappy.js:61 | the filter keeps exactly the pipes right of -60: each kept pipe is one of them, and none of them is lost |
| Flappy.Marked | games/flappy.js:64-71 | the scoring pass keeps the number of pipes |
| Flappy.MarkedCounts | games/flappy.js:64-71 | the scoring pass sets one flag per point it awards, flags exactly the passed pipes, and a second pass awards nothing |
| Flappy.ShiftedKeepsFlags | games/flappy.js:56 | scrolling keeps every scored flag |
| Flappy.KeptCounts | games/flappy.js:61 | when every pipe the filter drops was scored, the flags lost are exactly the pipes dropped |
| Flappy.KeptKeepsLast | games/flappy.js:57-61 | a pipe list whose last pipe is on screen keeps that pipe last, so `pipes[pipes.length - 1]` never reads an empty list |
| Flappy.StepSound | games/flappy.js:47-88 | every update keeps at least one pipe, every passed pipe scored, the score between 0 and the best, and the tilt in range |
| Flappy.StepScoresNewFlags | games/flappy.js:63-71 | the score rises by exactly the flags an update newly sets, counting the scored pipes it drops, and no passed pipe is left unflagged |
| Flappy.CrashedMeans | games/flappy.js:74-81 | the game ends exactly when the bird leaves [0, 500], or overlaps a pipe's column with its 24-high box not inside the gap |
| Flappy.StepIs | games/flappy.js:47-88 | the state `update` builds field by field is the step, keeps soundness, and scores each newly flagged pipe once |
| Flappy.OverIsFinal | games/flappy.js:48 | after a crash an update changes nothing |
| Flappy.Game.constructor | games/flappy.js:28-34 | the page load: best 0 and then the `reset` state |
| Flappy.Game.Reset | games/flappy.js:30-38 | bird at height 250 at rest, one pipe at x = 400, score 0, game on, and the best kept |
| Flappy.Game.ShiftPipes | games/flappy.js:56 | every pipe moved 3.5 to the left |
| Flappy.Game.ScorePipes | games/flappy.js:64-71 | each passed unscored pipe is flagged, the score rises by their number, and the best follows the score |
| Flappy.Game.Fly | games/flappy.js:51-53 | gravity adds 0.4 to the speed, the bird moves by the new speed, and the tilt follows it |
| Flappy.Game.AdvancePipes | games/flappy.js:56-61 | the pipes are scrolled, a new pipe spawned when the last is left of 180, and those off screen dropped |
| Flappy.Spawned | games/flappy.js:57-60 | no contract of its own: a pipe at x = 400 with its gap from the draw once the last pipe is left of 180, as `Flappy.Game.AdvancePipes` states it |
| Flappy.Game.Update | games/flappy.js:47-88 | the new state is exactly one `Step` of the old one, and the score still counts every flag ever set, each once |
| Flappy.Step | games/flappy.js:47-88 | no contract of its own: one `update`, as `StepSound`, `StepScoresNewFlags`, `CrashedMeans` and `OverIsFinal` state it |
| Flappy.Game.Flap | games/flappy.js:168-170 | the speed becomes -7.5 while the game is on, and is untouched after a crash |
| Flappy.Game.HandleKey | games/flappy.js:172-177 | space or the up arrow flaps while the game is on; every other key changes nothing |
| Clicker.Moved | games/clicker.js:59-64 | the moved target lies inside the 40-unit margin box, its colour is one of the four palette entries, and its radius is unchanged |
| Clicker.MovedReachesBox | games/clicker.js:60-61 | every spot of the margin box is reachable: the draw `(x - 40) / 280`, `(y - 40) / 320` puts the target exactly there |
| Clicker.HitIsNear | games/clicker.js:162-163 | a click that counts as a hit lies less than radius + 10 from the centre along each axis |
| Clicker.NearIsHit | games/clicker.js:162-163 | a click whose axis distances add up to less than radius + 10 always counts as a hit |
| Clicker.TickedRunning | games/clicker.js:44-46 | one firing of the interval keeps the countdown consistent, takes one second off, and ends the game exactly when one second was left |
| Clicker.CountdownEnds | games/clicker.js:44-46 | from `t` seconds the game is still on after `t - 1` firings, and over with 0 seconds and the interval cleared after `t` |
| Clicker.OverStaysOver | games/clicker.js:151-154 | once `endGame` has run, any number of further firings leaves the countdown as it is |
| Clicker.Game.constructor | games/clicker.js:28-34 | the page-load state: score 0, 30 seconds, the target at (180, 200) with radius 25, game on, no interval |
| Clicker.Game.MoveTarget | games/clicker.js:59-64 | the target becomes `Moved` of the old target for the three draws |
| Clicker.Game.Reset | games/clicker.js:36-52 | score 0, 30 seconds, game on, the interval set, and the target moved by the draws; the invariant holds |
| Clicker.Game.EndGame | games/clicker.js:151-154 | the game is over and the interval is cleared |
| Clicker.Game.Tick | games/clicker.js:44-46 | the countdown becomes one firing of the old countdown, and the invariant is kept |
| Clicker.Ticked | games/clicker.js:44-46 | a cleared interval changes nothing; a set one takes a second off, stays set exactly while time is left, and ends the game once the time is at or below 0 |
| Clicker.Game.Click | games/clicker.js:156-169 | while the game is on, a hit scores exactly one and moves the target; a miss, or any click after the end, changes neither the score nor the target |

## Left out

- Rendering is not modelled: Three.js meshes, textures, skin loading and every game's `draw`, `drawFinal` and score display. These are output only.
- The rigid-body engine is not modelled: `world.step`, the point-to-point constraints as physics, raycasting and `mouseBody` motion. Between frames the figure is an input, and a ray's hits are a list of `Hit` values in ray order.
- Trigonometry and quaternion algebra are uninterpreted. `atan2`, `setFromAxisAngle`, `slerp` and `vmult` become the scalar `Readback`, `Slerp` and `Rotate` over a caller-supplied `Trig`. No IEEE floating-point behaviour is claimed. The two not-a-number tests are flags: `finite` for the torso height `animate` tests (ragdoll_background.js:594), and `xIsNaN` for the torso x the watchdog tests (ragdoll_background.js:297).
- Every `Math.random` draw is a parameter: tile choice, food, obstacles, bombs, paddle spin, pipe gaps, target position and colours. The 2048 and snake draws are sequences of draws in [0, 1).
- Timers are left out: `setInterval`, `setTimeout`, `requestAnimationFrame` and the delayed game-over screens. Each callback is a method the caller invokes.
- DOM event wiring, `sessionStorage`, `localStorage` and JSON are left out. The stored snapshot is a `Stored` value: `Empty`, `Garbled` (a parse error) or `Saved`.
- Particle arrays and screen shake are cosmetic and not modelled. This covers pong's and clicker's `particles` (which splice inside `forEach`), breath's explosions and `screenShake`, and flappy's countdown overlay.
- The ray cast and mouse-body motion of `onMouseMove` (its lost-mouseup release and interaction refresh are `RagdollBackground.Scene.MouseMove`), `updateWalls`, `createBoundaries`, `changeSkin`, `resetRagdoll`, the resize handler and the ground detection at ragdoll_physics.js:142-144 are left out. They are mouse tracking and engine set-up, and the model never reads `groundY`.
- The spawn point `spawnX`, computed from the camera's field of view, is a parameter. So is the stored user name.
- `loadPage`, `fetch`, `DOMParser`, `popstate` and the HTML injection of `shared.js` are left out. A URL is reduced to its `href`, origin, protocol and path, and a thrown `history.pushState` is the `pushThrows` parameter.
- Key events arrive as the key string. 2048 (games/2048.js:200), snake (games/snake.js:173) and pong (games/pong.js:186) lower-case it before comparing, so their models take the lower-cased key. Breath, race, flappy and stack compare `e.key` as given, and so do their models.
- RagdollBackground.Scene.UpdateDoll: its contract states only the scene bookkeeping. The doll's own step is stated by `RagdollBackground.Scene.StepDoll`, which it calls.
- RagdollBackground.Scene.Animate: its contract states only that one doll remains and the clocks. Its steps are stated by `Tick`, `Guard`, `Watchdog` and `StepDoll`.
- RagdollBackground.Scene.Guard: a torso height that is not a number empties `ragdolls` before the respawn, so the old bodies stay in the world. The model keeps exactly this leak. After that respawn the source still runs the out-of-bounds test on the old torso body, and an infinite height or a finite |x| > 80 moves that orphaned body to (0, 5, 0); the model does not represent this reset of a body no doll owns.
- RagdollBackground.Revive: a snapshot whose JSON fails to parse is kept in storage, and one without a torso is removed before the throw. The model follows exactly this source order.
- Shared.PageNameIsASegment states the no-slash property only when the page name is a segment. The other case is the literal "index.html".
- Snake.Game.Step requires that, when the snake eats, some draw in `tries` misses the grown snake. The source's `spawnFood` retries recursively and never stops on a board with no free cell.
- Breath.Game.Fire requires the shot history to be spaced (`Paced`). Spacing is the invariant the 250 ms gate keeps from the start, and the constructor establishes it.
- Breath: the formation's direction is kept as a sign (`rightward`). Bomb draws are indexed by alien. The bomb distance test `hypot(...) < 22` is compared as squares.
- Breath.Game.Reset keeps `lastFire` and the held keys, as `reset` does. A step on which the player dies still resolves its collisions and can still score, as in the source.
- Race: the obstacle colour draw is left out. `Race.Stops` lists the positions the clamps at 50 and 310 make reachable from 180.
- Flappy keeps `bestScore` across `reset`, as the source's closure does.
- Clicker: the target colour is an index into the palette, and the hit test is compared as squares. The cleared interval is the `ticking` flag. The constructor is the state before the first `reset`.

## Findings

| source | as written | input that shows it | evidently intended | confidence | as-written member | corrected member |
|---|---|---|---|---|---|---|
| shared.js:229 | `cleanPath` drops one trailing '/' first, then the first "index.html" anywhere in the path, so a directory's index page keeps its slash | `/d/index.html` cleans to `/d/` but `/d/` cleans to `/d`, so a link from the index page to its own directory is treated as a page change and navigates | a directory, its trailing-slash form and its index page all clean to the same path, and the link is suppressed | not executed | Shared.CleanPathAsWrittenSplitsDirectory | Shared.CleanPathJoinsDirectory |
| shared.js:236-244 | `isSamePage` compares the paths after `cleanPath` as written | on "/d/index.html", a click on a link to "/d/" is not the same page, so it navigates and fetches the page already shown | a link from an index page to its own directory is the same page, and the click is suppressed | not executed | Shared.InterceptAsWrittenReloadsDirectory | Shared.InterceptSuppressesSamePage |
| shared.js:229 | `replace('index.html', '')` cuts the first "index.html" anywhere, also inside a longer name | on "/my", a click on a link to "/myindex.html" cleans both paths to "/my", so it is suppressed and the other page never opens | only a final "index.html" segment is dropped, and a link to another page navigates | not executed | Shared.InterceptAsWrittenMergesPages | Shared.InterceptNavigatesBetweenPages |
