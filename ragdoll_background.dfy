/**
 * The glue around the posture controller: the skin rectangle table, the
 * snapshot that carries the doll across a page transition, the per-frame time
 * step and out-of-bounds rescue, the head-to-torso drag redirect, respawn
 * teardown of the physics world and the page-load reset of the controller.
 *
 * The physics world is reduced to the sets of bodies and joints it holds; a
 * body is named by its doll's identity and its part, a joint by its doll and
 * the limb it hangs.
 */
module RagdollBackground {
  import opened Wrappers
  import opened Geometry
  import opened Figure
  import opened RagdollPhysics

  const DefaultUsername: string := "MoshkoThoughts_"

  /** `username || DEFAULT_USERNAME`: an empty name falls back to the default. */
  function NameOrDefault(name: string): (r: string)
    ensures r != []
    ensures name != [] ==> r == name
  {
    if name == [] then DefaultUsername else name
  }

  // ---------------------------------------------------------------------------
  // Skin table: [x, y, w, h] rectangles of the 64x64 skin image
  // ---------------------------------------------------------------------------

  datatype Face = Top | Bottom | Right | Front | Left | Back
  datatype Rect = Rect(x: int, y: int, w: int, h: int)

  function Pick(f: Face, top: Rect, bottom: Rect, right: Rect, front: Rect, left: Rect, back: Rect): Rect
  {
    match f
    case Top => top
    case Bottom => bottom
    case Right => right
    case Front => front
    case Left => left
    case Back => back
  }

  /** `SKIN_COORDS[part][overlay ? 'overlay' : 'base'][face]`: every rectangle lies inside the skin. */
  function SkinCoords(p: Part, overlay: bool, f: Face): (r: Rect)
    ensures 0 <= r.x && 0 <= r.y && 0 < r.w && 0 < r.h
    ensures r.x + r.w <= 64 && r.y + r.h <= 64
  {
    match p
    case Head =>
      if !overlay then Pick(f, Rect(8, 0, 8, 8), Rect(16, 0, 8, 8), Rect(0, 8, 8, 8), Rect(8, 8, 8, 8), Rect(16, 8, 8, 8), Rect(24, 8, 8, 8))
      else Pick(f, Rect(40, 0, 8, 8), Rect(48, 0, 8, 8), Rect(32, 8, 8, 8), Rect(40, 8, 8, 8), Rect(48, 8, 8, 8), Rect(56, 8, 8, 8))
    case Torso =>
      if !overlay then Pick(f, Rect(20, 16, 8, 4), Rect(28, 16, 8, 4), Rect(16, 20, 4, 12), Rect(20, 20, 8, 12), Rect(28, 20, 4, 12), Rect(32, 20, 8, 12))
      else Pick(f, Rect(20, 32, 8, 4), Rect(28, 32, 8, 4), Rect(16, 36, 4, 12), Rect(20, 36, 8, 12), Rect(28, 36, 4, 12), Rect(32, 36, 8, 12))
    case ArmRight =>
      if !overlay then Pick(f, Rect(44, 16, 3, 4), Rect(47, 16, 3, 4), Rect(40, 20, 4, 12), Rect(44, 20, 3, 12), Rect(47, 20, 4, 12), Rect(51, 20, 3, 12))
      else Pick(f, Rect(44, 32, 3, 4), Rect(47, 32, 3, 4), Rect(40, 36, 4, 12), Rect(44, 36, 3, 12), Rect(47, 36, 4, 12), Rect(51, 36, 3, 12))
    case ArmLeft =>
      if !overlay then Pick(f, Rect(36, 48, 3, 4), Rect(39, 48, 3, 4), Rect(32, 52, 4, 12), Rect(36, 52, 3, 12), Rect(39, 52, 4, 12), Rect(43, 52, 3, 12))
      else Pick(f, Rect(52, 48, 3, 4), Rect(55, 48, 3, 4), Rect(48, 52, 4, 12), Rect(52, 52, 3, 12), Rect(55, 52, 4, 12), Rect(59, 52, 3, 12))
    case LegRight =>
      if !overlay then Pick(f, Rect(4, 16, 4, 4), Rect(8, 16, 4, 4), Rect(0, 20, 4, 12), Rect(4, 20, 4, 12), Rect(8, 20, 4, 12), Rect(12, 20, 4, 12))
      else Pick(f, Rect(4, 32, 4, 4), Rect(8, 32, 4, 4), Rect(0, 36, 4, 12), Rect(4, 36, 4, 12), Rect(8, 36, 4, 12), Rect(12, 36, 4, 12))
    case LegLeft =>
      if !overlay then Pick(f, Rect(20, 48, 4, 4), Rect(24, 48, 4, 4), Rect(16, 52, 4, 12), Rect(20, 52, 4, 12), Rect(24, 52, 4, 12), Rect(28, 52, 4, 12))
      else Pick(f, Rect(4, 48, 4, 4), Rect(8, 48, 4, 4), Rect(0, 52, 4, 12), Rect(4, 52, 4, 12), Rect(8, 52, 4, 12), Rect(12, 52, 4, 12))
  }

  // ---------------------------------------------------------------------------
  // Snapshot of the doll for a page transition
  // ---------------------------------------------------------------------------

  /** One saved part: position, orientation, velocity and angular velocity. */
  datatype PartRecord = PartRecord(pos: Vec3, angle: real, vel: Vec3, angVel: Vec3)

  /** The saved state: the doll's user name and its parts under their string keys. */
  datatype Snapshot = Snapshot(username: string, parts: map<string, PartRecord>)

  /** What session storage holds under `ragdoll_state`. */
  datatype Stored = Empty | Garbled | Saved(snapshot: Snapshot)

  function Record(b: BodyState): PartRecord
  {
    PartRecord(b.pos, b.angle, b.vel, b.angVel)
  }

  /** Overwrites a body's saved fields; its pending torque is not part of a snapshot. */
  function Apply(b: BodyState, r: PartRecord): (a: BodyState)
    ensures Record(a) == r && a.torque == b.torque
  {
    b.(pos := r.pos, angle := r.angle, vel := r.vel, angVel := r.angVel)
  }

  /** The record map `saveRagdollState` builds: one entry per part, under the part's key. */
  function Recorded(parts: Parts): (m: map<string, PartRecord>)
    ensures forall k :: k in m <==> KeyPart(k).Some? && KeyPart(k).value in parts
    ensures forall p | p in parts :: PartKey(p) in m && m[PartKey(p)] == Record(parts[p])
  {
    var m := map k | k in KeysOf(parts) :: Record(parts[KeyPart(k).value]);
    assert forall p | p in parts :: PartKey(p) in m && m[PartKey(p)] == Record(parts[p]) by {
      forall p | p in parts
        ensures PartKey(p) in m && m[PartKey(p)] == Record(parts[p])
      {
        KeyPartInverse(p);
      }
    }
    m
  }

  function KeysOf(parts: Parts): (ks: set<string>)
    ensures forall k :: k in ks <==> KeyPart(k).Some? && KeyPart(k).value in parts
  {
    set p | p in parts :: PartKey(p)
  }

  /** The body a restore leaves: overwritten when the snapshot has its key, untouched otherwise. */
  function RestoredBody(parts: Parts, snap: map<string, PartRecord>, p: Part): BodyState
    requires p in parts
  {
    if PartKey(p) in snap then Apply(parts[p], snap[PartKey(p)]) else parts[p]
  }

  /** The restore block of `init`, applied to a freshly spawned doll. */
  function Restored(parts: Parts, snap: map<string, PartRecord>): (r: Parts)
    ensures r.Keys == parts.Keys
  {
    map p | p in parts :: RestoredBody(parts, snap, p)
  }

  /** Saving and then restoring onto any doll with the same parts gives back every saved field. */
  lemma {:induction false} SaveRestoreRoundTrip(saved: Parts, spawned: Parts)
    requires saved.Keys <= spawned.Keys
    ensures var r := Restored(spawned, Recorded(saved));
      forall p | p in saved :: Record(r[p]) == Record(saved[p]) && r[p].torque == spawned[p].torque
  {
    var m := Recorded(saved);
    forall p | p in saved
      ensures Record(Restored(spawned, m)[p]) == Record(saved[p])
    {
      assert PartKey(p) in m;
    }
  }

  /** Keys that name no part of the doll are skipped. */
  lemma {:induction false} RestoreSkipsStrangers(parts: Parts, snap: map<string, PartRecord>)
    ensures Restored(parts, snap) == Restored(parts, map k | k in snap && KeyPart(k).Some? && KeyPart(k).value in parts :: snap[k])
  {
    var cut := map k | k in snap && KeyPart(k).Some? && KeyPart(k).value in parts :: snap[k];
    forall p | p in parts
      ensures RestoredBody(parts, snap, p) == RestoredBody(parts, cut, p)
    {
      KeyPartInverse(p);
    }
  }

  /** Parts the snapshot does not mention keep their spawn state. */
  lemma RestoreKeepsUnsaved(parts: Parts, snap: map<string, PartRecord>, p: Part)
    requires p in parts && PartKey(p) !in snap
    ensures Restored(parts, snap)[p] == parts[p]
  {
  }

  lemma {:induction false} RecordedGrows(parts: Parts, rest: set<Part>, p: Part)
    requires p in rest && rest <= parts.Keys
    ensures Recorded(parts - (rest - {p})) == Recorded(parts - rest)[PartKey(p) := Record(parts[p])]
  {
    var before, after := Recorded(parts - rest), Recorded(parts - (rest - {p}));
    KeyPartInverse(p);
    forall k | k in after
      ensures k in before[PartKey(p) := Record(parts[p])]
    {
    }
  }

  /** The save loop of `saveRagdollState`. */
  method SaveParts(parts: Parts) returns (m: map<string, PartRecord>)
    ensures m == Recorded(parts)
  {
    m := map[];
    var rest := parts.Keys;
    while rest != {}
      invariant rest <= parts.Keys
      invariant m == Recorded(parts - rest)
      decreases rest
    {
      var p :| p in rest;
      RecordedGrows(parts, rest, p);
      m := m[PartKey(p) := Record(parts[p])];
      rest := rest - {p};
    }
  }

  /** The restore loop of `init`: only keys naming one of the doll's parts are applied. */
  method RestoreParts(parts: Parts, snap: map<string, PartRecord>) returns (out: Parts)
    ensures out == Restored(parts, snap)
  {
    out := parts;
    var rest := snap.Keys;
    while rest != {}
      invariant rest <= snap.Keys
      invariant out == Restored(parts, snap - rest)
      decreases rest
    {
      var key :| key in rest;
      var found := KeyPart(key);
      if found.Some? && found.value in out {
        var p := found.value;
        out := out[p := Apply(out[p], snap[key])];
      }
      rest := rest - {key};
    }
  }

  // ---------------------------------------------------------------------------
  // Spawning
  // ---------------------------------------------------------------------------

  /** The six boxes `createRagdoll` places around the root, at depth 10; the arms start at +-0.10. */
  function SpawnParts(root: Vec3): (parts: Parts)
    ensures Whole(parts)
    ensures parts[Torso].pos == Vec3(root.x, root.y, 10.0)
    ensures forall p | p in parts :: parts[p].vel == Zero && parts[p].angVel == Zero && parts[p].torque == 0.0
  {
    var at := (dx: real, dy: real, angle: real) => BodyState(Vec3(root.x + dx, root.y + dy, 10.0), angle, Zero, Zero, 0.0);
    map[Head := at(0.0, 1.0, 0.0), Torso := at(0.0, 0.0, 0.0),
        ArmLeft := at(-0.55, 0.0, -0.10), ArmRight := at(0.55, 0.0, 0.10),
        LegLeft := at(-0.2, -1.2, 0.0), LegRight := at(0.2, -1.2, 0.0)]
  }

  // ---------------------------------------------------------------------------
  // Frame step
  // ---------------------------------------------------------------------------

  /**
   * `Math.min((time - lastTime) / 1000 || 1 / 60, 0.1)`: `elapsed` is the
   * difference in milliseconds, None when it is not a number (no frame yet).
   */
  function FrameDelta(elapsed: Option<real>): (dt: real)
    ensures dt <= 0.1
    ensures elapsed.None? || elapsed.value == 0.0 ==> dt == 1.0 / 60.0
    ensures elapsed.Some? && 0.0 < elapsed.value <= 100.0 ==> dt == elapsed.value / 1000.0
    ensures elapsed.Some? && elapsed.value > 100.0 ==> dt == 0.1
    ensures dt > 0.0 <==> elapsed.None? || elapsed.value >= 0.0
  {
    var raw := if elapsed.None? || elapsed.value == 0.0 then 1.0 / 60.0 else elapsed.value / 1000.0;
    Min(raw, 0.1)
  }

  /** The bounds test of `animate`. */
  predicate OutOfBounds(pos: Vec3)
  {
    pos.y < -50.0 || pos.y > 80.0 || Abs(pos.x) > 80.0
  }

  /** The rescue of `animate`: an escaped torso is put back at (0, 5, 0) at rest. */
  function Rescued(b: BodyState): (r: BodyState)
    ensures !OutOfBounds(r.pos)
    ensures OutOfBounds(b.pos) ==> r.pos == Vec3(0.0, 5.0, 0.0) && r.vel == Zero
    ensures !OutOfBounds(b.pos) ==> r == b
    ensures r.angle == b.angle && r.angVel == b.angVel && r.torque == b.torque
  {
    if OutOfBounds(b.pos) then b.(pos := Vec3(0.0, 5.0, 0.0), vel := Zero) else b
  }

  /** The length and height tests of the watchdog of `MinecraftRagdoll.update`; its `isNaN(pos.x)` test is the `xIsNaN` flag of `Scene.Watchdog`. */
  predicate Runaway(pos: Vec3)
  {
    LongerThan(pos, 200.0) || pos.y < -50.0
  }

  /** After the rescue the watchdog can fire only for a torso more than 100 off the screen plane. */
  lemma {:induction false} RescueDefusesWatchdog(b: BodyState)
    requires Abs(Rescued(b).pos.z) <= 100.0
    ensures !Runaway(Rescued(b).pos)
  {
    var p := Rescued(b).pos;
    assert p.x * p.x <= 6400.0 by {
      assert -80.0 <= p.x <= 80.0;
      if p.x >= 0.0 { assert p.x * p.x <= 80.0 * p.x; } else { assert p.x * p.x <= -80.0 * p.x; }
    }
    assert p.y * p.y <= 6400.0 by {
      assert -50.0 <= p.y <= 80.0;
      if p.y >= 0.0 { assert p.y * p.y <= 80.0 * p.y; } else { assert p.y * p.y <= -50.0 * p.y; }
    }
    assert p.z * p.z <= 10000.0 by {
      if p.z >= 0.0 { assert p.z * p.z <= 100.0 * p.z; } else { assert p.z * p.z <= -100.0 * p.z; }
    }
  }

  // ---------------------------------------------------------------------------
  // Mouse grab
  // ---------------------------------------------------------------------------

  /** The head is locked to the torso, so grabbing it grabs the torso. */
  function GrabTarget(p: Part): (q: Part)
    ensures q != Head
    ensures p != Head ==> q == p
    ensures p == Head ==> q == Torso
  {
    if p == Head then Torso else p
  }

  /** A ray hit: a mesh of doll `doll`'s part, or anything else in the scene. */
  datatype Hit = Scenery | OnDoll(doll: int, part: Part)

  predicate IsDollHit(h: Hit, count: int)
  {
    h.OnDoll? && 0 <= h.doll < count
  }

  /** The first hit, in ray order, that belongs to a doll of the `count` in the scene. */
  function FirstDollHit(hits: seq<Hit>, count: int): (r: Option<Hit>)
    ensures r.Some? ==> IsDollHit(r.value, count) && r.value in hits
    ensures r.Some? ==> exists k :: 0 <= k < |hits| && hits[k] == r.value
                                    && forall j :: 0 <= j < k ==> !IsDollHit(hits[j], count)
    ensures r.None? <==> forall k :: 0 <= k < |hits| ==> !IsDollHit(hits[k], count)
    decreases |hits|
  {
    if |hits| == 0 then None
    else if IsDollHit(hits[0], count) then Some(hits[0])
    else
      var r := FirstDollHit(hits[1..], count);
      assert forall k :: 1 <= k < |hits| ==> hits[k] == hits[1..][k - 1];
      r
  }

  /** The search loop of `onMouseDown`. */
  method FindHit(hits: seq<Hit>, count: int) returns (r: Option<Hit>)
    ensures r == FirstDollHit(hits, count)
  {
    var i := 0;
    while i < |hits|
      invariant 0 <= i <= |hits|
      invariant FirstDollHit(hits, count) == FirstDollHit(hits[i..], count)
    {
      if IsDollHit(hits[i], count) {
        return Some(hits[i]);
      }
      assert hits[i..][1..] == hits[i + 1..];
      i := i + 1;
    }
    return None;
  }

  // ---------------------------------------------------------------------------
  // Page-load reset of the controller
  // ---------------------------------------------------------------------------

  /** The `page-load` handler's reset: awake, no dwell, no wave. */
  function PageReset(st: Posture): (r: Posture)
    ensures !r.isStable && r.standingTimer == 0 && r.stableStartTime == 0
    ensures r.wavePhase == PhaseIdle && r.waveCount == 0 && r.waveTimer == 0.0
    ensures r.standFactor == st.standFactor && r.lastWaveCompleteTime == st.lastWaveCompleteTime
    ensures r.homePosition == st.homePosition && r.homeAngle == st.homeAngle
  {
    st.(isStable := false, standingTimer := 0, stableStartTime := 0,
        wavePhase := PhaseIdle, waveCount := 0, waveTimer := 0.0)
  }

  lemma PageResetKeepsPostureOk(st: Posture, activity: Activity)
    requires PostureOk(st, activity)
    ensures PostureOk(PageReset(st), Idle)
  {
  }

  /** After a page load the doll has to go through the full dwell again: the next frame never finds it stable. */
  lemma {:induction false} PageResetNeedsFreshDwell(st: Posture, parts: Parts, activity: Activity, dt: real, now: int,
                                                    lastInteraction: int, trig: Trig)
    ensures !Step(PageReset(st), parts, activity, dt, now, lastInteraction, trig).posture.isStable
  {
    var r := PageReset(st);
    if Torso in parts {
      var shaped := Shaped(parts, trig);
      var o := Step(r, parts, activity, dt, now, lastInteraction, trig);
      assert o == React(r, shaped, activity, dt, now, lastInteraction, trig);
      if !Interacting(now, lastInteraction) {
        assert o == FallingStep(r, shaped, activity, dt, now, trig);
        FallingFromZeroStaysUnstable(r, shaped, activity, dt, now, trig);
      }
    }
  }

  /** A falling frame that starts with no dwell timer cannot finish the 500 ms dwell. */
  lemma FallingFromZeroStaysUnstable(st: Posture, shaped: Parts, activity: Activity, dt: real, now: int, trig: Trig)
    requires Torso in shaped && st.standingTimer == 0 && !st.isStable
    ensures !FallingStep(st, shaped, activity, dt, now, trig).posture.isStable
  {
    var torso := shaped[Torso];
    var sf := NextStandFactor(st.standFactor, dt, ShorterThan(torso.vel, 1.0) && Abs(torso.angle) < 0.3);
    var posed := HeadLocked(ActivePose(shaped, sf, now, trig), trig);
    DwellFromZero(st.(standFactor := sf), torso, posed, now);
  }

  /** The dwell never completes on the frame that starts its timer. */
  lemma DwellFromZero(st: Posture, torso: BodyState, posed: Parts, now: int)
    requires st.standingTimer == 0 && !st.isStable
    ensures !Dwell(st, torso, posed, now).isStable
  {
  }

  // ---------------------------------------------------------------------------
  // The scene: dolls and the physics world
  // ---------------------------------------------------------------------------

  /** The bodies a doll adds to the world: one per part. */
  function DollBodies(id: nat): set<(nat, Part)>
  {
    set p | p in PlaneOrder :: (id, p)
  }

  /** The joints `createRagdoll` adds: shoulders and hips; the head joint is not created. */
  function DollJoints(id: nat): set<(nat, Part)>
  {
    set p | p in Limbs :: (id, p)
  }

  const Limbs: set<Part> := {ArmLeft, ArmRight, LegLeft, LegRight}

  /** A `MinecraftRagdoll`: identity, user name, its six bodies, `currentState` and its controller. */
  class Doll {
    const id: nat
    const physics: Controller
    var username: string
    var parts: Parts
    var activity: Activity

    constructor(id: nat, username: string, root: Vec3)
      ensures this.id == id && this.username == NameOrDefault(username)
      ensures parts == SpawnParts(root) && activity == Idle
      ensures fresh(physics) && physics.State() == InitialPosture
    {
      this.id := id;
      this.username := NameOrDefault(username);
      parts := SpawnParts(root);
      activity := Idle;
      physics := new Controller();
    }
  }

  /** Bodies owned by a list of dolls. */
  function Owned(dolls: seq<Doll>): set<(nat, Part)>
  {
    if |dolls| == 0 then {} else Owned(dolls[..|dolls| - 1]) + DollBodies(dolls[|dolls| - 1].id)
  }

  /** Joints owned by a list of dolls. */
  function OwnedJoints(dolls: seq<Doll>): set<(nat, Part)>
  {
    if |dolls| == 0 then {} else OwnedJoints(dolls[..|dolls| - 1]) + DollJoints(dolls[|dolls| - 1].id)
  }

  /** Every body of every listed doll is owned, and nothing of another identity is. */
  lemma {:induction false} OwnedExactly(dolls: seq<Doll>, id: nat, p: Part)
    ensures (id, p) in Owned(dolls) <==> exists i :: 0 <= i < |dolls| && dolls[i].id == id
    decreases |dolls|
  {
    PlaneOrderCoversAll(p);
    if |dolls| > 0 {
      var init := dolls[..|dolls| - 1];
      OwnedExactly(init, id, p);
      assert forall i :: 0 <= i < |init| ==> init[i] == dolls[i];
    }
  }

  lemma {:induction false} OwnedJointsExactly(dolls: seq<Doll>, id: nat, p: Part)
    ensures (id, p) in OwnedJoints(dolls) <==> p in Limbs && exists i :: 0 <= i < |dolls| && dolls[i].id == id
    decreases |dolls|
  {
    if |dolls| > 0 {
      var init := dolls[..|dolls| - 1];
      OwnedJointsExactly(init, id, p);
      assert forall i :: 0 <= i < |init| ==> init[i] == dolls[i];
    }
  }

  /** After removing what the listed dolls own, nothing of theirs is left. */
  lemma TornDown(dolls: seq<Doll>, bodies: set<(nat, Part)>, joints: set<(nat, Part)>, i: int, p: Part)
    requires 0 <= i < |dolls|
    requires forall j | j in joints :: j.1 in Limbs
    ensures (dolls[i].id, p) !in bodies - Owned(dolls)
    ensures (dolls[i].id, p) !in joints - OwnedJoints(dolls)
  {
    OwnedExactly(dolls, dolls[i].id, p);
    OwnedJointsExactly(dolls, dolls[i].id, p);
  }

  /** What `init` spawns: the saved doll where the snapshot has a torso, else a fresh default one. */
  datatype Revival = Revival(username: string, root: Vec3, records: map<string, PartRecord>, consumed: bool)

  function Revive(stored: Stored, startUser: string, spawnX: real): (r: Revival)
    ensures stored.Saved? && "body" in stored.snapshot.parts ==>
      r.username == stored.snapshot.username && r.records == stored.snapshot.parts
      && r.root == stored.snapshot.parts["body"].pos
    ensures !(stored.Saved? && "body" in stored.snapshot.parts) ==>
      r.username == startUser && r.records == map[] && r.root == Vec3(spawnX, 10.0, 10.0)
    ensures r.consumed <==> stored.Saved?
  {
    match stored
    case Saved(s) =>
      if "body" in s.parts then Revival(s.username, s.parts["body"].pos, s.parts, true)
      else Revival(startUser, Vec3(spawnX, 10.0, 10.0), map[], true)
    case _ => Revival(startUser, Vec3(spawnX, 10.0, 10.0), map[], false)
  }

  /** One controller step from the doll's current state. */
  function NextOf(d: Doll, dt: real, now: int, lastInteraction: int, trig: Trig): Outcome
    reads d, d.physics
  {
    Step(d.physics.State(), d.parts, d.activity, dt, now, lastInteraction, trig)
  }

  /** The doll and its controller hold outcome `o`. */
  predicate Holds(d: Doll, o: Outcome)
    reads d, d.physics
  {
    Outcome(d.physics.State(), d.parts, d.activity) == o
  }

  class Scene {
    /** `ragdolls`. */
    var dolls: seq<Doll>
    /** The doll bodies and joints in the physics world. */
    var bodies: set<(nat, Part)>
    var joints: set<(nat, Part)>
    /** The body the mouse constraint holds, if any. */
    var grab: Option<(nat, Part)>
    /** The identity the next doll receives. */
    var nextId: nat
    var lastTime: Option<real>
    var lastInteraction: int
    var initialized: bool
    /** Session storage's `ragdoll_state`. */
    var stored: Stored

    /**
     * Every doll is dropped into an emptied list, so the scene holds at most
     * one doll, whose identity is below `nextId`; joints only hang limbs.
     */
    predicate Valid()
      reads this
    {
      |dolls| <= 1
      && (forall i | 0 <= i < |dolls| :: dolls[i].id < nextId)
      && (forall j | j in joints :: j.1 in Limbs)
    }

    constructor(stored: Stored, now: int)
      ensures Valid() && dolls == [] && bodies == {} && joints == {} && grab == None
      ensures lastTime == None && lastInteraction == now && !initialized && this.stored == stored
    {
      dolls := [];
      bodies := {};
      joints := {};
      grab := None;
      nextId := 0;
      lastTime := None;
      lastInteraction := now;
      initialized := false;
      this.stored := stored;
    }

    /** `new MinecraftRagdoll(user, root)`: builds the doll, adds its bodies and joints, appends it. */
    method Spawn(user: string, root: Vec3) returns (d: Doll)
      requires Valid() && dolls == []
      modifies this`dolls, this`bodies, this`joints, this`nextId
      ensures Valid() && fresh(d) && fresh(d.physics) && dolls == [d]
      ensures d.id == old(nextId) && d.username == NameOrDefault(user) && d.parts == SpawnParts(root)
      ensures d.activity == Idle && d.physics.State() == InitialPosture
      ensures bodies == old(bodies) + DollBodies(d.id) && joints == old(joints) + DollJoints(d.id)
    {
      d := new Doll(nextId, user, root);
      bodies := bodies + DollBodies(d.id);
      joints := joints + DollJoints(d.id);
      nextId := nextId + 1;
      dolls := [d];
    }

    /** The teardown loop of `respawnRagdoll`: every doll's bodies and joints leave the world. */
    method TearDown()
      requires Valid()
      modifies this`bodies, this`joints
      ensures Valid()
      ensures bodies == old(bodies) - Owned(dolls) && joints == old(joints) - OwnedJoints(dolls)
    {
      var i := 0;
      while i < |dolls|
        invariant 0 <= i <= |dolls|
        invariant bodies == old(bodies) - Owned(dolls[..i])
        invariant joints == old(joints) - OwnedJoints(dolls[..i])
      {
        assert dolls[..i + 1][..i] == dolls[..i];
        bodies := bodies - DollBodies(dolls[i].id);
        joints := joints - DollJoints(dolls[i].id);
        i := i + 1;
      }
      assert dolls[..i] == dolls;
    }

    /** `respawnRagdoll`: tears down every doll, then drops exactly one new doll from the top. */
    method Respawn(user: string, spawnX: real) returns (d: Doll)
      requires Valid()
      modifies this`dolls, this`bodies, this`joints, this`nextId
      ensures Valid() && dolls == [d] && fresh(d) && fresh(d.physics) && d.id == old(nextId)
      ensures d.username == NameOrDefault(user) && d.parts == SpawnParts(Vec3(spawnX, 10.0, 10.0))
      ensures d.activity == Idle && d.physics.State() == InitialPosture
      ensures bodies == old(bodies) - Owned(old(dolls)) + DollBodies(d.id)
      ensures joints == old(joints) - OwnedJoints(old(dolls)) + DollJoints(d.id)
      ensures forall i, p | 0 <= i < |old(dolls)| :: (old(dolls)[i].id, p) !in bodies && (old(dolls)[i].id, p) !in joints
    {
      TearDown();
      ghost var cleared, unhung := bodies, joints;
      forall i, p | 0 <= i < |dolls|
        ensures (dolls[i].id, p) !in cleared && (dolls[i].id, p) !in unhung
      {
        TornDown(dolls, old(bodies), old(joints), i, p);
      }
      dolls := [];
      d := Spawn(user, Vec3(spawnX, 10.0, 10.0));
    }

    /** `saveRagdollState` (on unload and on link clicks): the first doll's name and parts. */
    method Save()
      modifies this`stored
      ensures |dolls| == 0 ==> stored == old(stored)
      ensures |dolls| > 0 ==> stored == Saved(Snapshot(dolls[0].username, Recorded(dolls[0].parts)))
    {
      if |dolls| == 0 {
        return;
      }
      var d := dolls[0];
      var records := SaveParts(d.parts);
      stored := Saved(Snapshot(d.username, records));
    }

    /**
     * `init`: runs once; on a fresh world it revives the saved doll (consuming
     * the snapshot) or spawns the default one.
     */
    method Init(startUser: string, spawnX: real, now: int)
      requires Valid()
      modifies this`dolls, this`bodies, this`joints, this`nextId, this`initialized, this`lastInteraction, this`stored
      ensures Valid()
      ensures old(initialized) ==> unchanged(this)
      ensures !old(initialized) ==>
        var rev := Revive(old(stored), startUser, spawnX);
        initialized && |dolls| == 1 && fresh(dolls[0]) && lastInteraction == now
        && dolls[0].username == NameOrDefault(rev.username)
        && dolls[0].parts == Restored(SpawnParts(rev.root), rev.records)
        && dolls[0].activity == Idle && dolls[0].physics.State() == InitialPosture
        && bodies == DollBodies(dolls[0].id) && joints == DollJoints(dolls[0].id)
        && stored == (if rev.consumed then Empty else old(stored))
    {
      if initialized {
        return;
      }
      initialized := true;
      dolls := [];
      bodies, joints := {}, {};
      lastInteraction := now;
      var rev := Revive(stored, startUser, spawnX);
      if rev.consumed {
        stored := Empty;
      }
      var _ := SpawnRestored(rev.username, rev.root, rev.records);
    }

    /** The spawn of `init`: a new doll at `root`, then the snapshot's records written onto its bodies. */
    method SpawnRestored(user: string, root: Vec3, records: map<string, PartRecord>) returns (d: Doll)
      requires Valid() && dolls == []
      modifies this`dolls, this`bodies, this`joints, this`nextId
      ensures Valid() && fresh(d) && dolls == [d]
      ensures d.username == NameOrDefault(user) && d.parts == Restored(SpawnParts(root), records)
      ensures d.activity == Idle && d.physics.State() == InitialPosture
      ensures bodies == old(bodies) + DollBodies(d.id) && joints == old(joints) + DollJoints(d.id)
    {
      d := Spawn(user, root);
      var restored := RestoreParts(d.parts, records);
      d.parts := restored;
    }

    /** The clock at the top of `animate`. */
    method Tick(time: real) returns (dt: real)
      modifies this`lastTime
      ensures lastTime == Some(time)
      ensures dt == FrameDelta(if old(lastTime).None? then None else Some(time - old(lastTime).value))
    {
      var elapsed := if lastTime.None? then None else Some(time - lastTime.value);
      dt := FrameDelta(elapsed);
      lastTime := Some(time);
    }

    /**
     * The doll checks of `animate`: respawn when there is no doll, respawn
     * without teardown when the first torso's position is not a number
     * (`finite` false), and the out-of-bounds rescue of the first torso.
     */
    method Guard(finite: bool, user: string, spawnX: real)
      requires Valid()
      modifies this`dolls, this`bodies, this`joints, this`nextId, if |dolls| > 0 then {dolls[0]} else {}
      ensures Valid() && |dolls| >= 1
      ensures dolls == old(dolls) || (|dolls| == 1 && fresh(dolls[0]) && fresh(dolls[0].physics))
      ensures (old(|dolls|) == 0 || !finite) ==>
        |dolls| == 1 && fresh(dolls[0]) && dolls[0].parts == SpawnParts(Vec3(spawnX, 10.0, 10.0))
        && dolls[0].username == NameOrDefault(user)
        && bodies == old(bodies) + DollBodies(dolls[0].id) && joints == old(joints) + DollJoints(dolls[0].id)
      ensures old(|dolls|) > 0 && finite ==>
        dolls == old(dolls) && bodies == old(bodies) && joints == old(joints)
        && dolls[0].parts == (if Torso in old(dolls[0].parts) && OutOfBounds(old(dolls[0].parts)[Torso].pos)
                              then old(dolls[0].parts)[Torso := Rescued(old(dolls[0].parts)[Torso])]
                              else old(dolls[0].parts))
    {
      if |dolls| == 0 {
        var _ := Respawn(user, spawnX);
        return;
      }
      var first := dolls[0];
      if !finite {
        dolls := [];
        var _ := Respawn(user, spawnX);
      } else if Torso in first.parts && OutOfBounds(first.parts[Torso].pos) {
        first.parts := first.parts[Torso := Rescued(first.parts[Torso])];
      }
    }

    /** The watchdog of `MinecraftRagdoll.update`: a runaway torso respawns the scene. */
    method Watchdog(d: Doll, xIsNaN: bool, user: string, spawnX: real)
      requires Valid()
      modifies this`dolls, this`bodies, this`joints, this`nextId
      ensures Valid()
      ensures Torso in d.parts && (Runaway(d.parts[Torso].pos) || xIsNaN) ==>
        |dolls| == 1 && fresh(dolls[0]) && fresh(dolls[0].physics) && dolls[0].parts == SpawnParts(Vec3(spawnX, 10.0, 10.0))
        && dolls[0].id == old(nextId) && dolls[0].username == NameOrDefault(user)
        && dolls[0].activity == Idle && dolls[0].physics.State() == InitialPosture
        && bodies == old(bodies) - Owned(old(dolls)) + DollBodies(dolls[0].id)
        && joints == old(joints) - OwnedJoints(old(dolls)) + DollJoints(dolls[0].id)
      ensures !(Torso in d.parts && (Runaway(d.parts[Torso].pos) || xIsNaN)) ==>
        dolls == old(dolls) && bodies == old(bodies) && joints == old(joints) && nextId == old(nextId)
    {
      if Torso in d.parts && (Runaway(d.parts[Torso].pos) || xIsNaN) {
        var _ := Respawn(user, spawnX);
      }
    }

    /** The controller call of `MinecraftRagdoll.update`, with the scene's last interaction time. */
    static method StepDoll(d: Doll, dt: real, now: int, lastInteraction: int, trig: Trig)
      modifies d, d.physics
      ensures Holds(d, old(NextOf(d, dt, now, lastInteraction, trig)))
    {
      var out, act := d.physics.Update(d.parts, d.activity, dt, now, lastInteraction, trig);
      d.parts, d.activity := out, act;
    }

    /**
     * `animate(time)`: the clock, the doll checks, then `update` of the (at
     * most one) doll: its watchdog and its controller step. A doll the watchdog
     * replaces still takes that step. The engine's `world.step` in between is
     * not part of this model. `finite` says whether the torso height is a
     * number when `animate` tests it; `xIsNaN` says whether the torso's x is
     * not a number when the watchdog tests it.
     */
    method Animate(time: real, finite: bool, xIsNaN: bool, now: int, user: string, spawnX: real, trig: Trig)
      requires Valid()
      modifies this, dolls, if |dolls| > 0 then {dolls[0].physics} else {}
      ensures Valid() && |dolls| == 1 && lastTime == Some(time) && lastInteraction == old(lastInteraction)
    {
      var dt := Tick(time);
      Guard(finite, user, spawnX);
      var d := dolls[0];
      assert (old(|dolls|) > 0 && d == old(dolls[0])) || (fresh(d) && fresh(d.physics));
      UpdateDoll(d, xIsNaN, dt, now, user, spawnX, trig);
    }

    /**
     * A doll's `update`: the watchdog, then the controller step of the doll it
     * was called on (whose outcome `StepDoll` states); the scene keeps one doll.
     */
    method UpdateDoll(d: Doll, xIsNaN: bool, dt: real, now: int, user: string, spawnX: real, trig: Trig)
      requires Valid() && |dolls| == 1
      modifies this`dolls, this`bodies, this`joints, this`nextId, d, d.physics
      ensures Valid() && |dolls| == 1 && lastTime == old(lastTime) && lastInteraction == old(lastInteraction)
    {
      Watchdog(d, xIsNaN, user, spawnX);
      assert Valid() && |dolls| == 1 && lastTime == old(lastTime) && lastInteraction == old(lastInteraction);
      StepDoll(d, dt, now, lastInteraction, trig);
    }

    /**
     * `onMouseDown`: a left press on a doll part marks an interaction, grabs
     * that part (the torso when the head is hit) and sets every doll idle.
     */
    method MouseDown(button: int, hits: seq<Hit>, now: int)
      requires Valid()
      modifies this`lastInteraction, this`grab, dolls
      ensures var h := FirstDollHit(hits, |dolls|);
        if button != 0 || h.None? then
          lastInteraction == old(lastInteraction) && grab == old(grab)
          && forall k | 0 <= k < |dolls| :: dolls[k].activity == old(dolls[k].activity)
        else
          lastInteraction == now && grab == Some((dolls[h.value.doll].id, GrabTarget(h.value.part)))
          && forall k | 0 <= k < |dolls| :: dolls[k].activity == Idle
      ensures forall k | 0 <= k < |dolls| :: dolls[k].parts == old(dolls[k].parts)
    {
      if button != 0 {
        return;
      }
      var h := FindHit(hits, |dolls|);
      if h.Some? {
        lastInteraction := now;
        grab := Some((dolls[h.value.doll].id, GrabTarget(h.value.part)));
        forall k | 0 <= k < |dolls| {
          dolls[k].activity := Idle;
        }
      }
    }

    /**
     * `onMouseMove` once the mouse is on the screen plane. A grab held while
     * the left button is up (a lost mouseup) is released as `onMouseUp` does.
     * Otherwise, while a part is held, the drag refreshes the interaction
     * time, which keeps the controller's 200 ms drag override in force. The
     * mouse body's motion is the engine's and is not modelled.
     */
    method MouseMove(now: int, leftHeld: bool)
      modifies this`grab, this`lastInteraction
      ensures grab == if old(grab).Some? && !leftHeld then None else old(grab)
      ensures lastInteraction == if old(grab).Some? then now else old(lastInteraction)
      ensures grab.Some? ==> Interacting(now, lastInteraction)
    {
      if grab.Some? && !leftHeld {
        MouseUp(now);
        return;
      }
      if grab.Some? {
        lastInteraction := now;
      }
    }

    /** `onMouseUp`: releasing a grab marks an interaction. */
    method MouseUp(now: int)
      modifies this`grab, this`lastInteraction
      ensures grab == None
      ensures lastInteraction == if old(grab).Some? then now else old(lastInteraction)
    {
      if grab.Some? {
        grab := None;
        lastInteraction := now;
      }
    }

    /** The `page-load` handler: the first doll's controller is woken and its wave cancelled. */
    method PageLoad()
      modifies this`initialized, if |dolls| > 0 then {dolls[0]} else {}, if |dolls| > 0 then {dolls[0].physics} else {}
      ensures initialized
      ensures |dolls| > 0 ==>
        dolls[0].physics.State() == PageReset(old(dolls[0].physics.State())) && dolls[0].activity == Idle
        && dolls[0].parts == old(dolls[0].parts)
    {
      initialized := true;
      if |dolls| > 0 {
        var c := dolls[0].physics;
        c.isStable := false;
        c.standingTimer := 0;
        c.stableStartTime := 0;
        c.wavePhase := PhaseIdle;
        c.waveCount := 0;
        c.waveTimer := 0.0;
        dolls[0].activity := Idle;
      }
    }
  }
}
