/**
 * The active-ragdoll posture controller (`RagdollPhysics`): each frame it
 * flattens the figure onto the motion plane, clamps limb angles, snaps limbs
 * and head back onto their sockets, and then either yields to a drag, holds a
 * kinematic statue or wave pose, or drives the torso upright with PD torques.
 *
 * Orientation is the scalar twist angle the source reads back as
 * `2 * atan2(q.z, q.w)`; trigonometry is supplied as uninterpreted functions
 * and `Date.now()` is the explicit parameter `now` (milliseconds).
 */
module RagdollPhysics {
  import opened Wrappers
  import opened Geometry
  import opened Figure

  // ---------------------------------------------------------------------------
  // Angles

  const FourPi: real := 12.566370614359172

  /**
   * The twist read back from a quaternion built by `setFromAxisAngle(z, theta)`:
   * `2 * atan2(sin(theta/2), cos(theta/2))`, i.e. theta moved by whole double
   * turns into (-2pi, 2pi].
   */
  function Readback(theta: real): (r: real)
    ensures -TwoPi < r <= TwoPi
    ensures -TwoPi < theta <= TwoPi ==> r == theta
  {
    theta - FourPi * Ceil((theta - TwoPi) / FourPi) as real
  }

  lemma ReadbackIsWholeTurns(theta: real) returns (n: int)
    ensures Readback(theta) == theta + TwoPi * n as real
  {
    n := -2 * Ceil((theta - TwoPi) / FourPi);
  }

  /** An angle strictly inside (-pi, pi) is its own wrap, whatever whole turns are added. */
  lemma WrapShift(x: real, n: int)
    requires -Pi < x < Pi
    ensures WrapAngle(x + TwoPi * n as real) == x
  {
    var y := x + TwoPi * n as real;
    assert WrapAngle(y) == x + TwoPi * (n + WrapTurns(y)) as real;
  }

  /** Shortest-path interpolation between two twists (quaternion `slerp` about one axis). */
  function Slerp(from: real, to: real, t: real): real
  {
    Readback(from + t * WrapAngle(to - from))
  }

  lemma SlerpEnds(from: real, to: real)
    requires -TwoPi < from <= TwoPi
    ensures Slerp(from, to, 0.0) == from
  {
  }

  // ---------------------------------------------------------------------------
  // 1. The motion plane

  /** Zeroes depth, depth velocity and off-axis spin, and rebuilds the pure twist. */
  function Planar(b: BodyState): (r: BodyState)
    ensures r.pos.z == 0.0 && r.vel.z == 0.0 && r.angVel.x == 0.0 && r.angVel.y == 0.0
    ensures -TwoPi < r.angle <= TwoPi
    ensures r.pos.x == b.pos.x && r.pos.y == b.pos.y && r.vel.x == b.vel.x && r.vel.y == b.vel.y
    ensures r.angVel.z == b.angVel.z && r.torque == b.torque
  {
    b.(pos := b.pos.(z := 0.0), vel := b.vel.(z := 0.0),
       angVel := b.angVel.(x := 0.0, y := 0.0), angle := Readback(b.angle))
  }

  predicate OnPlane(b: BodyState)
  {
    b.pos.z == 0.0 && b.vel.z == 0.0 && b.angVel.x == 0.0 && b.angVel.y == 0.0
    && -TwoPi < b.angle <= TwoPi
  }

  /** Flattening is idempotent: a body already on the plane is left alone. */
  lemma PlanarIdempotent(b: BodyState)
    requires OnPlane(b)
    ensures Planar(b) == b
  {
  }

  function PlanarAll(parts: Parts): (r: Parts)
    ensures r.Keys == parts.Keys
    ensures forall p :: p in r ==> OnPlane(r[p])
  {
    map p | p in parts :: Planar(parts[p])
  }

  /** The loop at the top of `update`, over the parts in `PlaneOrder`. */
  method FlattenAll(parts: Parts) returns (out: Parts)
    ensures out == PlanarAll(parts)
  {
    out := parts;
    var i := 0;
    while i < |PlaneOrder|
      invariant 0 <= i <= |PlaneOrder|
      invariant out.Keys == parts.Keys
      invariant forall p :: p in out ==>
        out[p] == if p in PlaneOrder[..i] then Planar(parts[p]) else parts[p]
    {
      var p := PlaneOrder[i];
      if p in out {
        out := out[p := Planar(parts[p])];
      }
      i := i + 1;
    }
    forall p | p in out
      ensures out[p] == Planar(parts[p])
    {
      PlaneOrderCoversAll(p);
    }
  }

  // ---------------------------------------------------------------------------
  // 2. Joint limits

  datatype AngleLimit = AngleLimit(min: real, max: real, stiffness: real)
  {
    /** A non-empty window strictly inside (-pi, pi). */
    predicate Valid()
    {
      -Pi < min <= max < Pi
    }
  }

  const ArmRightLimit: AngleLimit := AngleLimit(-0.2, 2.8, 800.0)
  const ArmLeftLimit: AngleLimit := AngleLimit(-2.8, 0.2, 800.0)
  const LegLimit: AngleLimit := AngleLimit(-1.0, 1.0, 800.0)

  lemma LimitsValid()
    ensures ArmRightLimit.Valid() && ArmLeftLimit.Valid() && LegLimit.Valid()
  {
  }

  /** The limb's angle relative to the torso, wrapped into [-pi, pi]. */
  function Relative(b: BodyState, bodyRot: real): real
  {
    WrapAngle(b.angle - bodyRot)
  }

  /** A twist inside a limit window relative to the torso's twist. */
  predicate WithinLimit(angle: real, bodyRot: real, lim: AngleLimit)
  {
    lim.min <= WrapAngle(angle - bodyRot) <= lim.max
  }

  /**
   * `constrainAngle` on one body: inside the window nothing changes; outside,
   * a restoring torque is added, the limb is set to the violated bound and its
   * spin is cut to a tenth.
   */
  function Constrained(b: BodyState, bodyRot: real, lim: AngleLimit): (r: BodyState)
    ensures WithinLimit(b.angle, bodyRot, lim) ==> r == b
    ensures r.pos == b.pos && r.vel == b.vel
    ensures r.angVel.x == b.angVel.x && r.angVel.y == b.angVel.y
  {
    var relative := Relative(b, bodyRot);
    var correction :=
      if relative < lim.min then lim.min - relative
      else if relative > lim.max then lim.max - relative
      else 0.0;
    if correction != 0.0 then
      b.(torque := b.torque + (correction * lim.stiffness - b.angVel.z * 10.0),
         angle := Readback(bodyRot + (if relative < lim.min then lim.min else lim.max)),
         angVel := b.angVel.(z := b.angVel.z * 0.1))
    else b
  }

  /** A violated limit is snapped exactly onto the bound it crossed. */
  lemma {:induction false} ConstrainedSnapsToBound(b: BodyState, bodyRot: real, lim: AngleLimit)
    requires lim.Valid() && !WithinLimit(b.angle, bodyRot, lim)
    ensures var r := Constrained(b, bodyRot, lim);
      Relative(r, bodyRot) == (if Relative(b, bodyRot) < lim.min then lim.min else lim.max)
      && r.angVel.z == b.angVel.z * 0.1
  {
    var relative := Relative(b, bodyRot);
    var bound := if relative < lim.min then lim.min else lim.max;
    var n := ReadbackIsWholeTurns(bodyRot + bound);
    WrapShift(bound, n);
    var r := Constrained(b, bodyRot, lim);
    assert r.angle == Readback(bodyRot + bound);
    assert r.angle - bodyRot == bound + TwoPi * n as real;
  }

  /** After the clamp the limb is within its window. */
  lemma {:induction false} ConstrainedWithin(b: BodyState, bodyRot: real, lim: AngleLimit)
    requires lim.Valid()
    ensures WithinLimit(Constrained(b, bodyRot, lim).angle, bodyRot, lim)
  {
    if !WithinLimit(b.angle, bodyRot, lim) {
      ConstrainedSnapsToBound(b, bodyRot, lim);
    }
  }

  /** A second clamp changes nothing. */
  lemma {:induction false} ConstrainedIdempotent(b: BodyState, bodyRot: real, lim: AngleLimit)
    requires lim.Valid()
    ensures Constrained(Constrained(b, bodyRot, lim), bodyRot, lim) == Constrained(b, bodyRot, lim)
  {
    ConstrainedWithin(b, bodyRot, lim);
  }

  function ConstrainPart(parts: Parts, p: Part, bodyRot: real, lim: AngleLimit): (r: Parts)
    ensures r.Keys == parts.Keys
  {
    if p in parts then parts[p := Constrained(parts[p], bodyRot, lim)] else parts
  }

  /** The `constrainAngle` closure: the relative angle is wrapped by the source's loops. */
  method ConstrainAngle(parts: Parts, p: Part, bodyRot: real, lim: AngleLimit) returns (out: Parts)
    ensures out == ConstrainPart(parts, p, bodyRot, lim)
  {
    if p !in parts {
      return parts;
    }
    var b := parts[p];
    var relative := WrapByLoop(b.angle - bodyRot);
    var correction := 0.0;
    if relative < lim.min {
      correction := lim.min - relative;
    } else if relative > lim.max {
      correction := lim.max - relative;
    }
    if correction != 0.0 {
      var torque := correction * lim.stiffness - b.angVel.z * 10.0;
      var clampAngle := if relative < lim.min then lim.min else lim.max;
      b := b.(torque := b.torque + torque, angle := Readback(bodyRot + clampAngle),
              angVel := b.angVel.(z := b.angVel.z * 0.1));
    }
    assert relative == Relative(parts[p], bodyRot);
    assert b == Constrained(parts[p], bodyRot, lim);
    out := parts[p := b];
  }

  /** The four limit calls of `update`, in source order, relative to the torso's twist. */
  function Limited(parts: Parts, bodyRot: real): (r: Parts)
    ensures r.Keys == parts.Keys
  {
    var a := ConstrainPart(parts, ArmRight, bodyRot, ArmRightLimit);
    var b := ConstrainPart(a, ArmLeft, bodyRot, ArmLeftLimit);
    var c := ConstrainPart(b, LegLeft, bodyRot, LegLimit);
    ConstrainPart(c, LegRight, bodyRot, LegLimit)
  }

  /** Every limb ends up inside its window, and the head and torso are untouched. */
  lemma {:induction false} LimitedWithinWindows(parts: Parts, bodyRot: real)
    ensures var r := Limited(parts, bodyRot);
      (ArmRight in r ==> WithinLimit(r[ArmRight].angle, bodyRot, ArmRightLimit))
      && (ArmLeft in r ==> WithinLimit(r[ArmLeft].angle, bodyRot, ArmLeftLimit))
      && (LegLeft in r ==> WithinLimit(r[LegLeft].angle, bodyRot, LegLimit))
      && (LegRight in r ==> WithinLimit(r[LegRight].angle, bodyRot, LegLimit))
      && (Torso in parts ==> r[Torso] == parts[Torso])
      && (Head in parts ==> r[Head] == parts[Head])
  {
    LimitsValid();
    var a := ConstrainPart(parts, ArmRight, bodyRot, ArmRightLimit);
    var b := ConstrainPart(a, ArmLeft, bodyRot, ArmLeftLimit);
    var c := ConstrainPart(b, LegLeft, bodyRot, LegLimit);
    var r := ConstrainPart(c, LegRight, bodyRot, LegLimit);
    if ArmRight in parts {
      assert r[ArmRight] == Constrained(parts[ArmRight], bodyRot, ArmRightLimit);
      ConstrainedWithin(parts[ArmRight], bodyRot, ArmRightLimit);
    }
    if ArmLeft in parts {
      assert r[ArmLeft] == Constrained(a[ArmLeft], bodyRot, ArmLeftLimit) && a[ArmLeft] == parts[ArmLeft];
      ConstrainedWithin(parts[ArmLeft], bodyRot, ArmLeftLimit);
    }
    if LegLeft in parts {
      assert r[LegLeft] == Constrained(b[LegLeft], bodyRot, LegLimit) && b[LegLeft] == parts[LegLeft];
      ConstrainedWithin(parts[LegLeft], bodyRot, LegLimit);
    }
    if LegRight in parts {
      assert r[LegRight] == Constrained(c[LegRight], bodyRot, LegLimit) && c[LegRight] == parts[LegRight];
      ConstrainedWithin(parts[LegRight], bodyRot, LegLimit);
    }
  }

  /** The limit pass in `update`: four calls of the `constrainAngle` closure. */
  method LimitAll(parts: Parts, bodyRot: real) returns (out: Parts)
    ensures out == Limited(parts, bodyRot)
  {
    out := ConstrainAngle(parts, ArmRight, bodyRot, ArmRightLimit);
    out := ConstrainAngle(out, ArmLeft, bodyRot, ArmLeftLimit);
    out := ConstrainAngle(out, LegLeft, bodyRot, LegLimit);
    out := ConstrainAngle(out, LegRight, bodyRot, LegLimit);
  }

  // ---------------------------------------------------------------------------
  // 3. Joint cohesion and 4. head lock

  /** A socket (sx, sy) on the torso and the matching anchor (ax, ay) on a limb, in pixel units. */
  datatype Joint = Joint(part: Part, sx: real, sy: real, ax: real, ay: real)

  /** The socket table `enforceJoints` uses. */
  const EnforcerJoints: seq<Joint> := [
    Joint(ArmRight, 4.5, 5.5, 0.0, 5.5),
    Joint(ArmLeft, -4.5, 5.5, 0.0, 5.5),
    Joint(LegRight, 1.9, -6.0, 0.0, 6.0),
    Joint(LegLeft, -1.9, -6.0, 0.0, 6.0)
  ]

  function Socket(trig: Trig, torso: BodyState, j: Joint): Vec3
  {
    torso.pos.Add(Rotate(trig, torso.angle, Pixels(j.sx, j.sy)))
  }

  function Anchor(trig: Trig, b: BodyState, j: Joint): Vec3
  {
    b.pos.Add(Rotate(trig, b.angle, Pixels(j.ax, j.ay)))
  }

  /** Squared distance between a joint's socket and the limb's anchor. */
  function Gap(trig: Trig, torso: BodyState, b: BodyState, j: Joint): real
  {
    Dist2(Socket(trig, torso, j), Anchor(trig, b, j))
  }

  /**
   * `snapPart`: a limb whose anchor is more than 0.4 from its socket is moved
   * so the two coincide and takes over the torso's velocities.
   */
  function Snapped(trig: Trig, torso: BodyState, b: BodyState, j: Joint): (r: BodyState)
    ensures r.angle == b.angle && r.torque == b.torque
  {
    if Gap(trig, torso, b, j) > 0.16 then
      b.(pos := Socket(trig, torso, j).Sub(Rotate(trig, b.angle, Pixels(j.ax, j.ay))),
         vel := torso.vel, angVel := torso.angVel)
    else b
  }

  /** A snap closes the gap completely; a limb already within 0.4 is left alone. */
  lemma {:induction false} SnappedCohesion(trig: Trig, torso: BodyState, b: BodyState, j: Joint)
    ensures Gap(trig, torso, b, j) <= 0.16 ==> Snapped(trig, torso, b, j) == b
    ensures Gap(trig, torso, b, j) > 0.16 ==>
      var r := Snapped(trig, torso, b, j);
      Gap(trig, torso, r, j) == 0.0 && r.vel == torso.vel && r.angVel == torso.angVel
    ensures Gap(trig, torso, Snapped(trig, torso, b, j), j) <= 0.16
  {
    var r := Snapped(trig, torso, b, j);
    if Gap(trig, torso, b, j) > 0.16 {
      assert Gap(trig, torso, r, j) == 0.0 by {
        var socket := Socket(trig, torso, j);
        var rp := Rotate(trig, b.angle, Pixels(j.ax, j.ay));
        SubAdd(socket, rp);
        assert Anchor(trig, r, j) == socket;
        DistSelf(socket);
      }
    } else {
      assert r == b;
    }
  }

  function SnapPart(parts: Parts, trig: Trig, j: Joint): (r: Parts)
    requires Torso in parts
    ensures r.Keys == parts.Keys
  {
    if j.part in parts && j.part != Torso then
      parts[j.part := Snapped(trig, parts[Torso], parts[j.part], j)]
    else parts
  }

  /** `enforceJoints`: the snaps applied in table order. */
  function Enforced(parts: Parts, trig: Trig, table: seq<Joint>): (r: Parts)
    requires Torso in parts
    ensures r.Keys == parts.Keys
    ensures r[Torso] == parts[Torso]
    decreases |table|
  {
    if |table| == 0 then parts
    else Enforced(SnapPart(parts, trig, table[0]), trig, table[1..])
  }

  /** No two rows of a table name the same limb, and none names the torso. */
  predicate DistinctLimbs(table: seq<Joint>)
  {
    (forall i :: 0 <= i < |table| ==> table[i].part != Torso)
    && (forall i, k :: 0 <= i < k < |table| ==> table[i].part != table[k].part)
  }

  /** A part no row names is left as it was. */
  lemma {:induction false} EnforcedFrame(parts: Parts, trig: Trig, table: seq<Joint>, p: Part)
    requires Torso in parts && p in parts
    requires forall i :: 0 <= i < |table| ==> table[i].part != p
    ensures Enforced(parts, trig, table)[p] == parts[p]
    decreases |table|
  {
    if |table| > 0 {
      EnforcedFrame(SnapPart(parts, trig, table[0]), trig, table[1..], p);
    }
  }

  /** After `enforceJoints` every limb in the table sits within 0.4 of its socket. */
  lemma {:induction false} EnforcedCohesion(parts: Parts, trig: Trig, table: seq<Joint>, i: int)
    requires Torso in parts && DistinctLimbs(table)
    requires 0 <= i < |table| && table[i].part in parts
    ensures var r := Enforced(parts, trig, table);
      Gap(trig, r[Torso], r[table[i].part], table[i]) <= 0.16
    decreases |table|
  {
    var next := SnapPart(parts, trig, table[0]);
    if i == 0 {
      SnappedCohesion(trig, parts[Torso], parts[table[0].part], table[0]);
      EnforcedFrame(next, trig, table[1..], table[0].part);
    } else {
      EnforcedCohesion(next, trig, table[1..], i - 1);
    }
  }

  lemma EnforcerTableDistinct()
    ensures DistinctLimbs(EnforcerJoints)
  {
  }

  /** The `enforceJoints` closure: four `snapPart` calls. */
  method EnforceJoints(parts: Parts, trig: Trig) returns (out: Parts)
    requires Torso in parts
    ensures out == Enforced(parts, trig, EnforcerJoints)
  {
    out := parts;
    var i := 0;
    while i < |EnforcerJoints|
      invariant 0 <= i <= |EnforcerJoints|
      invariant Torso in out
      invariant Enforced(out, trig, EnforcerJoints[i..]) == Enforced(parts, trig, EnforcerJoints)
    {
      out := SnapPart(out, trig, EnforcerJoints[i]);
      i := i + 1;
    }
  }

  const HeadJoint: Joint := Joint(Head, 0.0, 6.2, 0.0, -4.2)

  /** The head is glued to the torso: anchor on socket, same twist, same velocities. */
  predicate HeadAttached(parts: Parts, trig: Trig)
    requires Torso in parts
  {
    Head in parts ==>
      var t := parts[Torso];
      var h := parts[Head];
      h.angle == t.angle && h.vel == t.vel && h.angVel == t.angVel
      && Anchor(trig, h, HeadJoint) == Socket(trig, t, HeadJoint)
  }

  /** `lockHead`. */
  function HeadLocked(parts: Parts, trig: Trig): (r: Parts)
    requires Torso in parts
    ensures r.Keys == parts.Keys && r[Torso] == parts[Torso]
    ensures forall p :: p in parts && p != Head ==> r[p] == parts[p]
    ensures HeadAttached(r, trig)
  {
    if Head !in parts then parts
    else
      var t := parts[Torso];
      var socket := Socket(trig, t, HeadJoint);
      var ho := Rotate(trig, t.angle, Pixels(HeadJoint.ax, HeadJoint.ay));
      parts[Head := parts[Head].(pos := socket.Sub(ho), angle := t.angle, vel := t.vel, angVel := t.angVel)]
  }

  /** Locking an already attached head changes nothing. */
  lemma HeadLockedIdempotent(parts: Parts, trig: Trig)
    requires Torso in parts
    ensures HeadLocked(HeadLocked(parts, trig), trig) == HeadLocked(parts, trig)
  {
  }

  // ---------------------------------------------------------------------------
  // Standing controller

  /**
   * `applyPDTorque`'s torque: the wrapped angular error times kP, minus the
   * spin times kD, clamped to [-1500, 1500].
   */
  function PDTorque(current: real, target: real, spin: real, kP: real, kD: real): (t: real)
    ensures -1500.0 <= t <= 1500.0
  {
    Clamp(-1500.0, 1500.0, Drive(WrapAngle(target - current), spin, kP, kD))
  }

  /** The unclamped PD torque for an angular error and a spin. */
  function Drive(err: real, spin: real, kP: real, kD: real): real
  {
    err * kP - spin * kD
  }

  /** At rest and with positive gain the torque turns the body the short way toward its target. */
  lemma {:induction false} PDTurnsTowardTarget(current: real, target: real, kP: real, kD: real)
    requires kP > 0.0
    ensures WrapAngle(target - current) > 0.0 ==> PDTorque(current, target, 0.0, kP, kD) > 0.0
    ensures WrapAngle(target - current) < 0.0 ==> PDTorque(current, target, 0.0, kP, kD) < 0.0
    ensures WrapAngle(target - current) == 0.0 ==> PDTorque(current, target, 0.0, kP, kD) == 0.0
  {
    var e := WrapAngle(target - current);
    if e > 0.0 {
      assert e * kP > 0.0;
    } else if e < 0.0 {
      assert e * kP < 0.0;
    }
  }

  function PDApplied(b: BodyState, target: real, kP: real, kD: real): (r: BodyState)
    ensures r == b.(torque := r.torque)
    ensures b.torque - 1500.0 <= r.torque <= b.torque + 1500.0
  {
    b.(torque := b.torque + PDTorque(b.angle, target, b.angVel.z, kP, kD))
  }

  /** `applyPDTorque`, with the error wrapped by the source's loops. */
  method ApplyPDTorque(b: BodyState, target: real, kP: real, kD: real) returns (r: BodyState)
    ensures r == PDApplied(b, target, kP, kD)
  {
    var err := WrapByLoop(target - b.angle);
    var torque := Drive(err, b.angVel.z, kP, kD);
    r := b.(torque := b.torque + Clamp(-1500.0, 1500.0, torque));
  }

  datatype Gains = Gains(kpBody: real, kdBody: real, kpLimb: real, kdLimb: real, kpLeg: real)

  /** The gains of `applyActivePose` for a stand factor. */
  function ActiveGains(standFactor: real): (g: Gains)
    ensures 0.0 <= standFactor <= 1.0 ==>
      2500.0 <= g.kpBody <= 3500.0 && 240.0 <= g.kpLimb <= 400.0 && 24.0 <= g.kdLimb <= 180.0
    ensures standFactor == 0.0 ==> g.kpBody == 2500.0 && g.kpLimb == 240.0 && g.kdLimb == 24.0
    ensures standFactor == 1.0 ==> g.kpBody == 3500.0 && g.kpLimb == 400.0 && g.kdLimb == 180.0
    ensures g.kdBody == 250.0 && g.kpLeg == 800.0
  {
    Gains(2500.0 + (3500.0 - 2500.0) * standFactor, 250.0,
          (300.0 + 200.0 * standFactor) * 0.8, (20.0 + 130.0 * standFactor) * 1.2, 800.0)
  }

  /** The breathing offset, `sin(now / 600) * 0.05`. */
  function Breathe(trig: Trig, now: int): real
  {
    trig.sin(now as real / 600.0) * 0.05
  }

  function PDOn(parts: Parts, p: Part, target: real, kP: real, kD: real): (r: Parts)
    ensures r.Keys == parts.Keys
  {
    if p in parts then parts[p := PDApplied(parts[p], target, kP, kD)] else parts
  }

  /** `applyActivePose`: torso toward upright, arms and legs toward rest relative to the torso. */
  function ActivePose(parts: Parts, standFactor: real, now: int, trig: Trig): (r: Parts)
    requires Torso in parts
    ensures r.Keys == parts.Keys
  {
    var g := ActiveGains(standFactor);
    var p0 := parts[Torso := PDApplied(parts[Torso], 0.0, g.kpBody, g.kdBody)];
    var breathe := Breathe(trig, now);
    var bodyAngle := p0[Torso].angle;
    var p1 := PDOn(p0, ArmRight, bodyAngle + 0.10 - breathe, g.kpLimb, g.kdLimb);
    var p2 := PDOn(p1, ArmLeft, bodyAngle - 0.10 + breathe, g.kpLimb, g.kdLimb);
    var p3 := PDOn(p2, LegLeft, bodyAngle + 0.0, g.kpLeg, g.kdLimb);
    PDOn(p3, LegRight, bodyAngle + 0.0, g.kpLeg, g.kdLimb)
  }

  /** The standing controller only adds torque: no pose or velocity changes, at most 1500 per body. */
  lemma {:induction false} ActivePoseOnlyTorques(parts: Parts, standFactor: real, now: int, trig: Trig, p: Part)
    requires Torso in parts && p in parts
    ensures var r := ActivePose(parts, standFactor, now, trig);
      r[p] == parts[p].(torque := r[p].torque)
      && parts[p].torque - 1500.0 <= r[p].torque <= parts[p].torque + 1500.0
  {
  }

  method ApplyActivePose(parts: Parts, standFactor: real, now: int, trig: Trig) returns (out: Parts)
    requires Torso in parts
    ensures out == ActivePose(parts, standFactor, now, trig)
  {
    var g := ActiveGains(standFactor);
    var body := ApplyPDTorque(parts[Torso], 0.0, g.kpBody, g.kdBody);
    out := parts[Torso := body];
    var breathe := Breathe(trig, now);
    var bodyAngle := body.angle;
    if ArmRight in out {
      var b := ApplyPDTorque(out[ArmRight], bodyAngle + 0.10 - breathe, g.kpLimb, g.kdLimb);
      out := out[ArmRight := b];
    }
    if ArmLeft in out {
      var b := ApplyPDTorque(out[ArmLeft], bodyAngle - 0.10 + breathe, g.kpLimb, g.kdLimb);
      out := out[ArmLeft := b];
    }
    if LegLeft in out {
      var b := ApplyPDTorque(out[LegLeft], bodyAngle + 0.0, g.kpLeg, g.kdLimb);
      out := out[LegLeft := b];
    }
    if LegRight in out {
      var b := ApplyPDTorque(out[LegRight], bodyAngle + 0.0, g.kpLeg, g.kdLimb);
      out := out[LegRight := b];
    }
  }

  // ---------------------------------------------------------------------------
  // Kinematic poses

  /** One row of the statue or wave configuration: socket (sx, sy), anchor (ax, ay), twist. */
  datatype Placement = Placement(part: Part, sx: real, sy: real, ax: real, ay: real, rot: real)

  /** Statue: sockets follow the torso's twist and limbs blend in from their captured angles. */
  datatype Mode = Statue(alpha: real, starts: map<Part, real>) | Waving

  function StatueTable(breathe: real): seq<Placement>
  {
    [ Placement(Head, 0.0, 6.2, 0.0, -4.2, 0.0),
      Placement(ArmLeft, -4.0, 5.5, 1.5, 6.0, -0.10 + breathe),
      Placement(ArmRight, 4.0, 5.5, -1.5, 6.0, 0.10 - breathe),
      Placement(LegLeft, -2.3, -6.2, 0.0, 6.2, 0.0),
      Placement(LegRight, 2.3, -6.2, 0.0, 6.2, 0.0) ]
  }

  /** The shoulder pivot drops from 5.5 to 4.0 exactly while the arm is raised past 1.0. */
  function RightArmPivotY(target: real): (y: real)
    ensures y == 4.0 <==> target > 1.0
    ensures y == 5.5 <==> target <= 1.0
  {
    if target > 1.0 then 4.0 else 5.5
  }

  function WaveTable(breathe: real, target: real): seq<Placement>
  {
    [ Placement(Head, 0.0, 6.2, 0.0, -4.2, 0.0),
      Placement(ArmLeft, -4.0, 5.5, 1.5, 6.0, -0.10 + breathe),
      Placement(ArmRight, 4.5, RightArmPivotY(target), -1.5, 6.0, target),
      Placement(LegLeft, -2.3, -6.2, 0.0, 6.2, 0.0),
      Placement(LegRight, 2.3, -6.2, 0.0, 6.2, 0.0) ]
  }

  predicate DistinctPlacements(table: seq<Placement>)
  {
    (forall i :: 0 <= i < |table| ==> table[i].part != Torso)
    && (forall i, k :: 0 <= i < k < |table| ==> table[i].part != table[k].part)
  }

  lemma TablesDistinct(breathe: real, target: real)
    ensures DistinctPlacements(StatueTable(breathe)) && DistinctPlacements(WaveTable(breathe, target))
  {
  }

  /** The twist a placed limb receives. */
  function PlaceAngle(mode: Mode, j: Placement): real
  {
    match mode
    case Statue(alpha, starts) =>
      if alpha < 1.0 && j.part in starts then Slerp(starts[j.part], j.rot, alpha) else Readback(j.rot)
    case Waving => Readback(j.rot)
  }

  /** The socket a placed limb hangs from: rotated with the torso in the statue, unrotated in the wave. */
  function PlaceSocket(trig: Trig, torso: BodyState, mode: Mode, j: Placement): Vec3
  {
    if mode.Statue? then torso.pos.Add(Rotate(trig, torso.angle, Pixels(j.sx, j.sy)))
    else torso.pos.Add(Pixels(j.sx, j.sy))
  }

  function Placed(parts: Parts, trig: Trig, mode: Mode, j: Placement): (r: Parts)
    requires Torso in parts
    ensures r.Keys == parts.Keys
  {
    if j.part !in parts then parts
    else
      var angle := PlaceAngle(mode, j);
      var socket := PlaceSocket(trig, parts[Torso], mode, j);
      parts[j.part := parts[j.part].(angle := angle, pos := socket.Sub(Rotate(trig, angle, Pixels(j.ax, j.ay))),
                                     vel := Zero, angVel := Zero)]
  }

  /** The configuration loop of `poseStatue`/`poseWave`, rows in order. */
  function PlaceAll(parts: Parts, trig: Trig, mode: Mode, table: seq<Placement>): (r: Parts)
    requires Torso in parts
    ensures r.Keys == parts.Keys
    decreases |table|
  {
    if |table| == 0 then parts
    else
      var next := Placed(parts, trig, mode, table[0]);
      PlaceAll(next, trig, mode, table[1..])
  }

  /** A placed limb: at its configured twist, at rest, its anchor on its socket. */
  predicate PlacedAt(parts: Parts, trig: Trig, mode: Mode, j: Placement)
    requires Torso in parts && j.part in parts
  {
    var b := parts[j.part];
    b.angle == PlaceAngle(mode, j) && b.vel == Zero && b.angVel == Zero
    && b.pos.Add(Rotate(trig, b.angle, Pixels(j.ax, j.ay))) == PlaceSocket(trig, parts[Torso], mode, j)
  }

  lemma {:induction false} PlaceAllFrame(parts: Parts, trig: Trig, mode: Mode, table: seq<Placement>, p: Part)
    requires Torso in parts && p in parts
    requires forall i :: 0 <= i < |table| ==> table[i].part != p
    ensures PlaceAll(parts, trig, mode, table)[p] == parts[p]
    decreases |table|
  {
    if |table| > 0 {
      PlaceAllFrame(Placed(parts, trig, mode, table[0]), trig, mode, table[1..], p);
    }
  }

  /** Every configured limb the figure has ends up placed, and the torso is not moved. */
  lemma {:induction false} PlaceAllPlaces(parts: Parts, trig: Trig, mode: Mode, table: seq<Placement>, i: int)
    requires Torso in parts && DistinctPlacements(table)
    requires 0 <= i < |table| && table[i].part in parts
    ensures var r := PlaceAll(parts, trig, mode, table);
      r[Torso] == parts[Torso] && PlacedAt(r, trig, mode, table[i])
    decreases |table|
  {
    var next := Placed(parts, trig, mode, table[0]);
    PlaceAllFrame(parts, trig, mode, table, Torso);
    if i == 0 {
      var j := table[0];
      var angle := PlaceAngle(mode, j);
      SubAdd(PlaceSocket(trig, parts[Torso], mode, j), Rotate(trig, angle, Pixels(j.ax, j.ay)));
      assert PlacedAt(next, trig, mode, j);
      PlaceAllFrame(next, trig, mode, table[1..], j.part);
      PlaceAllFrame(next, trig, mode, table[1..], Torso);
    } else {
      PlaceAllPlaces(next, trig, mode, table[1..], i - 1);
    }
  }

  method PlaceLimbs(parts: Parts, trig: Trig, mode: Mode, table: seq<Placement>) returns (out: Parts)
    requires Torso in parts
    ensures out == PlaceAll(parts, trig, mode, table)
  {
    out := parts;
    var i := 0;
    while i < |table|
      invariant 0 <= i <= |table|
      invariant Torso in out
      invariant PlaceAll(out, trig, mode, table[i..]) == PlaceAll(parts, trig, mode, table)
    {
      var j := table[i];
      if j.part in out {
        var angle := PlaceAngle(mode, j);
        var socket := PlaceSocket(trig, out[Torso], mode, j);
        var b := out[j.part].(angle := angle);
        b := b.(pos := socket.Sub(Rotate(trig, b.angle, Pixels(j.ax, j.ay))), vel := Zero, angVel := Zero);
        out := out[j.part := b];
      }
      assert table[i..][1..] == table[i + 1..];
      i := i + 1;
    }
  }

  // ---------------------------------------------------------------------------
  // Controller state

  datatype WavePhase = PhaseIdle | Raising | WaveDown | WaveUp | Lowering

  /** The controller's fields as one value. `standingTimer == 0` stands for the unset timer. */
  datatype Posture = Posture(
    wavePhase: WavePhase, waveCount: int, waveTimer: real, lastWaveCompleteTime: int,
    isStable: bool, stableStartTime: int, homePosition: Option<Vec3>, homeAngle: Option<real>,
    standFactor: real, standingTimer: int, limbStartAngles: map<Part, real>)

  const InitialPosture: Posture :=
    Posture(PhaseIdle, 0, 0.0, 0, false, 0, None, None, 0.0, 0, map[])

  /** What one `update` produces: the new controller state, the figure, and `currentState`. */
  datatype Outcome = Outcome(posture: Posture, parts: Parts, activity: Activity)

  // ---------------------------------------------------------------------------
  // Wave sub-machine

  const WaveStart: real := 0.10
  const WaveTop: real := 2.7
  const WaveLow: real := 2.1

  /** How long a phase lasts, in milliseconds. */
  function PhaseDuration(phase: WavePhase): real
  {
    match phase
    case Raising => 800.0
    case WaveDown => 300.0
    case WaveUp => 300.0
    case Lowering => 800.0
    case PhaseIdle => 0.0
  }

  datatype WaveTick = WaveTick(phase: WavePhase, count: int, timer: real, target: real, finished: bool)

  /** One frame of the wave: advance the timer, compute the arm target, maybe change phase. */
  function WaveAdvance(phase: WavePhase, count: int, timer0: real, dt: real): WaveTick
  {
    var timer := timer0 + dt * 1000.0;
    match phase
    case Raising =>
      var target := WaveStart + (WaveTop - WaveStart) * Min(timer / 800.0, 1.0);
      if timer > 800.0 then WaveTick(WaveDown, count, 0.0, target, false)
      else WaveTick(Raising, count, timer, target, false)
    case WaveDown =>
      var target := WaveTop - (WaveTop - WaveLow) * Min(timer / 300.0, 1.0);
      if timer > 300.0 then WaveTick(WaveUp, count, 0.0, target, false)
      else WaveTick(WaveDown, count, timer, target, false)
    case WaveUp =>
      var target := WaveLow + (WaveTop - WaveLow) * Min(timer / 300.0, 1.0);
      if timer > 300.0 then
        if count + 1 >= 5 then WaveTick(Lowering, count + 1, 0.0, target, false)
        else WaveTick(WaveDown, count + 1, 0.0, target, false)
      else WaveTick(WaveUp, count, timer, target, false)
    case Lowering =>
      var target := WaveTop - (WaveTop - WaveStart) * Min(timer / 800.0, 1.0);
      if timer > 800.0 then WaveTick(PhaseIdle, count, timer, target, true)
      else WaveTick(Lowering, count, timer, target, false)
    case PhaseIdle => WaveTick(PhaseIdle, count, timer, WaveStart, false)
  }

  /** The arm target stays between the resting angle 0.10 and the top of the wave 2.7. */
  lemma {:induction false} WaveTargetInRange(phase: WavePhase, count: int, timer0: real, dt: real)
    requires timer0 >= 0.0 && dt >= 0.0
    ensures WaveStart <= WaveAdvance(phase, count, timer0, dt).target <= WaveTop
  {
    var timer := timer0 + dt * 1000.0;
    assert 0.0 <= Min(timer / 800.0, 1.0) <= 1.0;
    assert 0.0 <= Min(timer / 300.0, 1.0) <= 1.0;
  }

  /**
   * A phase ends exactly when its timer passes its duration. On leaving it the
   * timer restarts at 0 (except that the end of LOWERING keeps it), and the
   * successor is RAISING -> WAVE_DOWN -> WAVE_UP -> (WAVE_DOWN or, at the fifth
   * wave, LOWERING) -> IDLE. Only a finished WAVE_UP counts, by exactly one.
   */
  lemma WavePhaseTiming(phase: WavePhase, count: int, timer0: real, dt: real)
    requires phase != PhaseIdle
    ensures var w := WaveAdvance(phase, count, timer0, dt);
      var timer := timer0 + dt * 1000.0;
      (w.phase != phase <==> timer > PhaseDuration(phase))
      && (w.phase == phase ==> w.timer == timer && w.count == count)
      && (w.phase != phase && phase != Lowering ==> w.timer == 0.0)
      && (phase == Raising && w.phase != phase ==> w.phase == WaveDown)
      && (phase == WaveDown && w.phase != phase ==> w.phase == WaveUp)
      && (phase == WaveUp && w.phase != phase ==>
            w.count == count + 1 && (w.phase == Lowering <==> count + 1 >= 5)
            && (w.phase == WaveDown <==> count + 1 < 5))
      && (phase != WaveUp ==> w.count == count)
      && (phase == Lowering && w.phase != phase ==> w.phase == PhaseIdle)
      && (w.finished <==> phase == Lowering && w.phase == PhaseIdle)
  {
  }

  /**
   * The wave counter's invariant: fewer than five waves while the arm is
   * still waving, exactly five once it lowers.
   */
  predicate WaveCountOk(phase: WavePhase, count: int)
  {
    0 <= count <= 5
    && (phase == Raising || phase == WaveDown || phase == WaveUp ==> count <= 4)
    && (phase == Lowering ==> count == 5)
  }

  lemma {:induction false} WaveAdvanceKeepsCount(phase: WavePhase, count: int, timer0: real, dt: real)
    requires WaveCountOk(phase, count)
    ensures var w := WaveAdvance(phase, count, timer0, dt); WaveCountOk(w.phase, w.count)
  {
    if phase != PhaseIdle {
      WavePhaseTiming(phase, count, timer0, dt);
    }
  }

  function WavePosture(st: Posture, w: WaveTick, now: int): Posture
  {
    st.(wavePhase := w.phase, waveCount := w.count, waveTimer := w.timer,
        lastWaveCompleteTime := if w.finished then now else st.lastWaveCompleteTime)
  }

  /** `poseWave`'s figure: torso pinned home, upright and at rest, limbs placed around it. */
  function WavePose(st: Posture, parts: Parts, target: real, now: int, trig: Trig): (r: Parts)
    requires Torso in parts
    ensures r.Keys == parts.Keys
  {
    var t := parts[Torso];
    var torso := t.(pos := st.homePosition.GetOr(t.pos), vel := Zero, angVel := Zero, angle := 0.0);
    PlaceAll(parts[Torso := torso], trig, Waving, WaveTable(Breathe(trig, now), target))
  }

  // ---------------------------------------------------------------------------
  // Statue

  /** The blend weight of the statue's first 6000 ms: an ease-in-out from 0 to 1. */
  function StatueAlpha(st: Posture, now: int, trig: Trig): real
  {
    var timeStable := now - st.stableStartTime;
    if timeStable < 6000 && st.homeAngle.Some? then
      -(trig.cos(Pi * (timeStable as real / 6000.0)) - 1.0) / 2.0
    else 1.0
  }

  /** `poseStatue`'s figure: torso pinned home and at rest, twist blended to upright, limbs placed. */
  function StatuePose(st: Posture, parts: Parts, now: int, trig: Trig): (r: Parts)
    requires Torso in parts
    ensures r.Keys == parts.Keys
  {
    var t := parts[Torso];
    var timeStable := now - st.stableStartTime;
    var alpha := StatueAlpha(st, now, trig);
    var angle := if timeStable < 6000 && st.homeAngle.Some? then Slerp(st.homeAngle.value, 0.0, alpha) else 0.0;
    var torso := t.(pos := st.homePosition.GetOr(t.pos), vel := Zero, angVel := Zero, angle := angle);
    PlaceAll(parts[Torso := torso], trig, Statue(alpha, st.limbStartAngles), StatueTable(Breathe(trig, now)))
  }

  /**
   * While in statue pose the torso is pinned to its home position at rest,
   * and every limb the figure has hangs at rest from its socket.
   */
  lemma {:induction false} StatuePinned(st: Posture, parts: Parts, now: int, trig: Trig, i: int)
    requires Torso in parts && st.homePosition.Some?
    requires 0 <= i < 5 && StatueTable(Breathe(trig, now))[i].part in parts
    ensures var r := StatuePose(st, parts, now, trig);
      r[Torso].pos == st.homePosition.value && r[Torso].vel == Zero && r[Torso].angVel == Zero
      && PlacedAt(r, trig, Statue(StatueAlpha(st, now, trig), st.limbStartAngles), StatueTable(Breathe(trig, now))[i])
  {
    var table := StatueTable(Breathe(trig, now));
    TablesDistinct(Breathe(trig, now), 0.0);
    var t := parts[Torso];
    var timeStable := now - st.stableStartTime;
    var alpha := StatueAlpha(st, now, trig);
    var angle := if timeStable < 6000 && st.homeAngle.Some? then Slerp(st.homeAngle.value, 0.0, alpha) else 0.0;
    var torso := t.(pos := st.homePosition.GetOr(t.pos), vel := Zero, angVel := Zero, angle := angle);
    PlaceAllPlaces(parts[Torso := torso], trig, Statue(alpha, st.limbStartAngles), table, i);
  }

  lemma {:induction false} PlaceAllIgnoresStarts(parts: Parts, trig: Trig, s1: map<Part, real>, s2: map<Part, real>, table: seq<Placement>)
    requires Torso in parts
    ensures PlaceAll(parts, trig, Statue(1.0, s1), table) == PlaceAll(parts, trig, Statue(1.0, s2), table)
    decreases |table|
  {
    if |table| > 0 {
      assert Placed(parts, trig, Statue(1.0, s1), table[0]) == Placed(parts, trig, Statue(1.0, s2), table[0]);
      PlaceAllIgnoresStarts(Placed(parts, trig, Statue(1.0, s1), table[0]), trig, s1, s2, table[1..]);
    }
  }

  /** Once the 6000 ms blend is over the statue no longer depends on the captured limb angles. */
  lemma {:induction false} StatueSettled(st: Posture, parts: Parts, now: int, trig: Trig, starts: map<Part, real>)
    requires Torso in parts && now - st.stableStartTime >= 6000
    ensures StatuePose(st, parts, now, trig) == StatuePose(st.(limbStartAngles := starts), parts, now, trig)
  {
    var t := parts[Torso];
    var torso := t.(pos := st.homePosition.GetOr(t.pos), vel := Zero, angVel := Zero, angle := 0.0);
    PlaceAllIgnoresStarts(parts[Torso := torso], trig, st.limbStartAngles, starts, StatueTable(Breathe(trig, now)));
  }

  // ---------------------------------------------------------------------------
  // One frame of `update`

  /** Plane, joint limits, joint cohesion and head lock, in that order. */
  function Shaped(parts: Parts, trig: Trig): (r: Parts)
    requires Torso in parts
    ensures r.Keys == parts.Keys
  {
    var flat := PlanarAll(parts);
    var limited := Limited(flat, flat[Torso].angle);
    HeadLocked(Enforced(limited, trig, EnforcerJoints), trig)
  }

  /** The stand factor ramps up by dt while slow and upright, and decays by 2 dt otherwise, within [0, 1]. */
  function NextStandFactor(sf: real, dt: real, rising: bool): (r: real)
    ensures 0.0 <= sf <= 1.0 && dt >= 0.0 ==> 0.0 <= r <= 1.0
    ensures rising && sf + dt <= 1.0 ==> r == sf + dt
    ensures rising && sf + dt > 1.0 ==> r == 1.0
    ensures !rising && sf - 2.0 * dt >= 0.0 ==> r == sf - 2.0 * dt
    ensures !rising && sf - 2.0 * dt < 0.0 ==> r == 0.0
  {
    if rising then
      var up := sf + dt;
      if up > 1.0 then 1.0 else up
    else
      var down := sf - dt * 2.0;
      if down < 0.0 then 0.0 else down
  }

  /** The tighter test that must hold for the stability dwell to run. */
  predicate StillAndUpright(torso: BodyState, standFactor: real)
  {
    ShorterThan(torso.vel, 0.1) && Abs(torso.angVel.z) < 0.1 && Abs(torso.angle) < 0.1 && standFactor >= 1.0
  }

  /** The twist of every part, as captured when stability begins. */
  function AnglesOf(parts: Parts): map<Part, real>
  {
    map p | p in parts :: parts[p].angle
  }

  predicate Interacting(now: int, lastInteraction: int)
  {
    now - lastInteraction < 200
  }

  /** A drag in progress: drop stability and any wave, hold shape with zero stand factor. */
  function DraggedStep(st: Posture, shaped: Parts, now: int, trig: Trig): Outcome
    requires Torso in shaped
  {
    Outcome(st.(isStable := false, stableStartTime := 0, homePosition := None, homeAngle := None,
                wavePhase := PhaseIdle),
            HeadLocked(ActivePose(shaped, 0.0, now, trig), trig), Idle)
  }

  function WaveDue(st: Posture, activity: Activity, now: int): bool
  {
    now - st.stableStartTime > 3000 && activity != Wave
    && (st.lastWaveCompleteTime == 0 || now - st.lastWaveCompleteTime > 7000)
  }

  /** Statue or wave; a hard knock (speed above 5) ends stability instead. */
  function StableStep(st: Posture, shaped: Parts, activity: Activity, dt: real, now: int, trig: Trig): Outcome
    requires Torso in shaped
  {
    if LongerThan(shaped[Torso].vel, 5.0) then
      Outcome(st.(isStable := false, stableStartTime := 0), shaped, activity)
    else
      var due := WaveDue(st, activity, now);
      var st1 := if due then st.(wavePhase := Raising, waveCount := 0, waveTimer := 0.0) else st;
      var act1 := if due then Wave else activity;
      if act1 == Wave then
        var w := WaveAdvance(st1.wavePhase, st1.waveCount, st1.waveTimer, dt);
        Outcome(WavePosture(st1, w, now), HeadLocked(WavePose(st1, shaped, w.target, now, trig), trig),
                if w.finished then Idle else Wave)
      else
        Outcome(st1, HeadLocked(StatuePose(st1, shaped, now, trig), trig), act1)
  }

  /** The stability dwell: runs while the tight test holds, and after 500 ms captures the home pose. */
  function Dwell(st: Posture, torso: BodyState, posed: Parts, now: int): Posture
  {
    if StillAndUpright(torso, st.standFactor) then
      var timer := if st.standingTimer == 0 then now else st.standingTimer;
      if now - timer > 500 then
        st.(standingTimer := timer, isStable := true, stableStartTime := now,
            homePosition := Some(torso.pos), homeAngle := Some(torso.angle),
            limbStartAngles := AnglesOf(posed))
      else st.(standingTimer := timer)
    else st.(standingTimer := 0)
  }

  /** Rising or fallen: PD control scaled by the stand factor, and the stability dwell. */
  function FallingStep(st: Posture, shaped: Parts, activity: Activity, dt: real, now: int, trig: Trig): Outcome
    requires Torso in shaped
  {
    var torso := shaped[Torso];
    var sf := NextStandFactor(st.standFactor, dt, ShorterThan(torso.vel, 1.0) && Abs(torso.angle) < 0.3);
    var posed := HeadLocked(ActivePose(shaped, sf, now, trig), trig);
    Outcome(Dwell(st.(standFactor := sf), torso, posed, now), posed, activity)
  }

  /** The posture-state part of `update`, after the fixed corrections. */
  function React(st: Posture, shaped: Parts, activity: Activity, dt: real, now: int, lastInteraction: int,
                 trig: Trig): Outcome
    requires Torso in shaped
  {
    if Interacting(now, lastInteraction) then DraggedStep(st, shaped, now, trig)
    else if st.isStable then StableStep(st, shaped, activity, dt, now, trig)
    else FallingStep(st, shaped, activity, dt, now, trig)
  }

  /** `update(dt)` at time `now`, with the host's last interaction time. */
  function Step(st: Posture, parts: Parts, activity: Activity, dt: real, now: int, lastInteraction: int,
                trig: Trig): Outcome
  {
    if Torso !in parts then Outcome(st, parts, activity)
    else React(st, Shaped(parts, trig), activity, dt, now, lastInteraction, trig)
  }

  // ---------------------------------------------------------------------------
  // Properties of one frame

  /** What every frame keeps: the bookkeeping the state machine relies on. */
  predicate PostureOk(st: Posture, activity: Activity)
  {
    0.0 <= st.standFactor <= 1.0
    && st.waveTimer >= 0.0
    && WaveCountOk(st.wavePhase, st.waveCount)
    && (activity == Wave ==> st.wavePhase != PhaseIdle)
    && (st.isStable ==> st.homePosition.Some? && st.homeAngle.Some?)
  }

  lemma InitialPostureOk()
    ensures PostureOk(InitialPosture, Idle)
  {
  }

  lemma {:induction false} ReactKeepsPostureOk(st: Posture, shaped: Parts, activity: Activity, dt: real, now: int,
                                               lastInteraction: int, trig: Trig)
    requires Torso in shaped && PostureOk(st, activity) && dt >= 0.0
    ensures var o := React(st, shaped, activity, dt, now, lastInteraction, trig); PostureOk(o.posture, o.activity)
  {
    if !Interacting(now, lastInteraction) && st.isStable {
      if !LongerThan(shaped[Torso].vel, 5.0) {
        var due := WaveDue(st, activity, now);
        var st1 := if due then st.(wavePhase := Raising, waveCount := 0, waveTimer := 0.0) else st;
        var act1 := if due then Wave else activity;
        if act1 == Wave {
          WaveAdvanceKeepsCount(st1.wavePhase, st1.waveCount, st1.waveTimer, dt);
          WavePhaseTiming(st1.wavePhase, st1.waveCount, st1.waveTimer, dt);
        }
      }
    }
  }

  /**
   * A drag younger than 200 ms overrides everything: stability, home pose and
   * wave are dropped and `currentState` becomes IDLE; no wave completion is
   * recorded. The wave count, stand factor and dwell timer are left as they were.
   */
  lemma DragOverrides(st: Posture, shaped: Parts, activity: Activity, dt: real, now: int,
                      lastInteraction: int, trig: Trig)
    requires Torso in shaped && Interacting(now, lastInteraction)
    ensures var o := React(st, shaped, activity, dt, now, lastInteraction, trig);
      !o.posture.isStable && o.posture.stableStartTime == 0
      && o.posture.homePosition == None && o.posture.homeAngle == None
      && o.posture.wavePhase == PhaseIdle && o.activity == Idle
      && o.posture.lastWaveCompleteTime == st.lastWaveCompleteTime
      && o.posture.waveCount == st.waveCount && o.posture.waveTimer == st.waveTimer
      && o.posture.standFactor == st.standFactor && o.posture.standingTimer == st.standingTimer
  {
  }

  /** A knock faster than 5 while stable ends stability and leaves the wave and `currentState` as they were. */
  lemma KnockBreaksStability(st: Posture, shaped: Parts, activity: Activity, dt: real, now: int,
                             lastInteraction: int, trig: Trig)
    requires Torso in shaped && !Interacting(now, lastInteraction) && st.isStable
    requires LongerThan(shaped[Torso].vel, 5.0)
    ensures var o := React(st, shaped, activity, dt, now, lastInteraction, trig);
      !o.posture.isStable && o.posture.stableStartTime == 0 && o.activity == activity
      && o.posture == st.(isStable := false, stableStartTime := 0)
  {
  }

  /**
   * Stability begins only on a frame where the tight test holds and the dwell
   * timer, set on an earlier frame, is more than 500 ms old; the home pose and
   * every part's twist are captured on that frame.
   */
  lemma {:induction false} StabilityNeedsDwell(st: Posture, shaped: Parts, activity: Activity, dt: real, now: int,
                                               lastInteraction: int, trig: Trig)
    requires Torso in shaped && !st.isStable
    ensures var o := React(st, shaped, activity, dt, now, lastInteraction, trig);
      var torso := shaped[Torso];
      o.posture.isStable ==>
        !Interacting(now, lastInteraction)
        && StillAndUpright(torso, o.posture.standFactor)
        && st.standingTimer != 0 && now - st.standingTimer > 500
        && o.posture.stableStartTime == now
        && o.posture.homePosition == Some(torso.pos) && o.posture.homeAngle == Some(torso.angle)
        && o.posture.limbStartAngles == AnglesOf(o.parts)
  {
  }

  /** Conversely, a timer older than 500 ms and a passing tight test make the figure stable. */
  lemma {:induction false} DwellGivesStability(st: Posture, shaped: Parts, activity: Activity, dt: real, now: int,
                                               lastInteraction: int, trig: Trig)
    requires Torso in shaped && !st.isStable && !Interacting(now, lastInteraction)
    requires st.standingTimer != 0 && now - st.standingTimer > 500
    requires StillAndUpright(shaped[Torso], React(st, shaped, activity, dt, now, lastInteraction, trig).posture.standFactor)
    ensures React(st, shaped, activity, dt, now, lastInteraction, trig).posture.isStable
  {
  }

  /** A frame that fails the tight test clears the dwell timer; the first passing frame only starts it. */
  lemma {:induction false} FailingFrameClearsTimer(st: Posture, shaped: Parts, activity: Activity, dt: real, now: int,
                                                   lastInteraction: int, trig: Trig)
    requires Torso in shaped && !st.isStable && !Interacting(now, lastInteraction)
    ensures var o := React(st, shaped, activity, dt, now, lastInteraction, trig);
      var torso := shaped[Torso];
      (!StillAndUpright(torso, o.posture.standFactor) ==> o.posture.standingTimer == 0 && !o.posture.isStable)
      && (StillAndUpright(torso, o.posture.standFactor) && st.standingTimer == 0 ==>
            o.posture.standingTimer == now && !o.posture.isStable)
  {
  }

  /**
   * A wave starts only in the stable state, more than 3000 ms after stability
   * began, and only if no wave has completed yet or the last one completed more
   * than 7000 ms ago.
   */
  lemma {:induction false} WaveStartsOnlyWhenDue(st: Posture, shaped: Parts, activity: Activity, dt: real, now: int,
                                                 lastInteraction: int, trig: Trig)
    requires Torso in shaped && activity != Wave
    ensures var o := React(st, shaped, activity, dt, now, lastInteraction, trig);
      o.activity == Wave ==>
        st.isStable && !Interacting(now, lastInteraction)
        && !LongerThan(shaped[Torso].vel, 5.0)
        && now - st.stableStartTime > 3000
        && (st.lastWaveCompleteTime == 0 || now - st.lastWaveCompleteTime > 7000)
  {
  }

  /** When it is due it does start: RAISING, count 0, and the timer at this frame's dt. */
  lemma {:induction false} DueWaveStarts(st: Posture, shaped: Parts, activity: Activity, dt: real, now: int,
                                         lastInteraction: int, trig: Trig)
    requires Torso in shaped && st.isStable && !Interacting(now, lastInteraction)
    requires !LongerThan(shaped[Torso].vel, 5.0) && WaveDue(st, activity, now)
    requires 0.0 <= dt <= 0.8
    ensures var o := React(st, shaped, activity, dt, now, lastInteraction, trig);
      o.activity == Wave && o.posture.wavePhase == Raising && o.posture.waveCount == 0
      && o.posture.waveTimer == dt * 1000.0
  {
  }

  /** A wave ends only out of LOWERING, stamping the completion time and returning to IDLE. */
  lemma {:induction false} WaveCompletionStamps(st: Posture, shaped: Parts, activity: Activity, dt: real, now: int,
                                                lastInteraction: int, trig: Trig)
    requires Torso in shaped && activity == Wave && !Interacting(now, lastInteraction)
    ensures var o := React(st, shaped, activity, dt, now, lastInteraction, trig);
      o.activity == Idle ==>
        st.isStable && st.wavePhase == Lowering && o.posture.wavePhase == PhaseIdle
        && o.posture.lastWaveCompleteTime == now
  {
  }

  /** In the statue the torso stays pinned at its home position, at rest. */
  lemma {:induction false} StatueHoldsHome(st: Posture, shaped: Parts, activity: Activity, dt: real, now: int,
                                           lastInteraction: int, trig: Trig)
    requires Torso in shaped && st.isStable && !Interacting(now, lastInteraction) && st.homePosition.Some?
    requires !LongerThan(shaped[Torso].vel, 5.0) && activity == Idle && !WaveDue(st, activity, now)
    ensures var o := React(st, shaped, activity, dt, now, lastInteraction, trig);
      o.activity == Idle && o.posture == st
      && o.parts[Torso].pos == st.homePosition.value && o.parts[Torso].vel == Zero && o.parts[Torso].angVel == Zero
  {
    var t := shaped[Torso];
    var timeStable := now - st.stableStartTime;
    var alpha := StatueAlpha(st, now, trig);
    var angle := if timeStable < 6000 && st.homeAngle.Some? then Slerp(st.homeAngle.value, 0.0, alpha) else 0.0;
    var torso := t.(pos := st.homePosition.GetOr(t.pos), vel := Zero, angVel := Zero, angle := angle);
    TablesDistinct(Breathe(trig, now), 0.0);
    PlaceAllFrame(shaped[Torso := torso], trig, Statue(alpha, st.limbStartAngles), StatueTable(Breathe(trig, now)), Torso);
  }

  /** Every frame keeps the bookkeeping invariant. */
  lemma {:induction false} StepKeepsPostureOk(st: Posture, parts: Parts, activity: Activity, dt: real, now: int,
                                              lastInteraction: int, trig: Trig)
    requires PostureOk(st, activity) && dt >= 0.0
    ensures var o := Step(st, parts, activity, dt, now, lastInteraction, trig); PostureOk(o.posture, o.activity)
  {
    if Torso in parts {
      ReactKeepsPostureOk(st, Shaped(parts, trig), activity, dt, now, lastInteraction, trig);
    }
  }

  /** Whatever branch runs, the frame ends with the head attached, given the corrections attached it. */
  lemma {:induction false} ReactKeepsHead(st: Posture, shaped: Parts, activity: Activity, dt: real, now: int,
                                          lastInteraction: int, trig: Trig)
    requires Torso in shaped && HeadAttached(shaped, trig)
    ensures var o := React(st, shaped, activity, dt, now, lastInteraction, trig);
      Torso in o.parts && HeadAttached(o.parts, trig)
  {
    if !Interacting(now, lastInteraction) && st.isStable && !LongerThan(shaped[Torso].vel, 5.0) {
      var due := WaveDue(st, activity, now);
      var st1 := if due then st.(wavePhase := Raising, waveCount := 0, waveTimer := 0.0) else st;
      var act1 := if due then Wave else activity;
      if act1 == Wave {
        var w := WaveAdvance(st1.wavePhase, st1.waveCount, st1.waveTimer, dt);
        assert React(st, shaped, activity, dt, now, lastInteraction, trig).parts
          == HeadLocked(WavePose(st1, shaped, w.target, now, trig), trig);
      } else {
        assert React(st, shaped, activity, dt, now, lastInteraction, trig).parts
          == HeadLocked(StatuePose(st1, shaped, now, trig), trig);
      }
    }
  }

  /** The head is attached to the torso at the end of every frame. */
  lemma {:induction false} HeadAlwaysLocked(st: Posture, parts: Parts, activity: Activity, dt: real, now: int,
                                            lastInteraction: int, trig: Trig)
    requires Torso in parts
    ensures var o := Step(st, parts, activity, dt, now, lastInteraction, trig);
      Torso in o.parts && HeadAttached(o.parts, trig)
  {
    ReactKeepsHead(st, Shaped(parts, trig), activity, dt, now, lastInteraction, trig);
  }

  /** Joint cohesion never moves a body's twist. */
  lemma {:induction false} EnforcedKeepsAngles(parts: Parts, trig: Trig, table: seq<Joint>, p: Part)
    requires Torso in parts && p in parts
    ensures Enforced(parts, trig, table)[p].angle == parts[p].angle
    decreases |table|
  {
    if |table| > 0 {
      EnforcedKeepsAngles(SnapPart(parts, trig, table[0]), trig, table[1..], p);
    }
  }

  /** Each limb inside its angle window relative to the torso, and within 0.4 of its socket. */
  predicate Composed(parts: Parts, trig: Trig)
    requires Torso in parts
  {
    var bodyRot := parts[Torso].angle;
    (ArmRight in parts ==> WithinLimit(parts[ArmRight].angle, bodyRot, ArmRightLimit))
    && (ArmLeft in parts ==> WithinLimit(parts[ArmLeft].angle, bodyRot, ArmLeftLimit))
    && (LegLeft in parts ==> WithinLimit(parts[LegLeft].angle, bodyRot, LegLimit))
    && (LegRight in parts ==> WithinLimit(parts[LegRight].angle, bodyRot, LegLimit))
    && (forall i :: 0 <= i < |EnforcerJoints| && EnforcerJoints[i].part in parts ==>
          Gap(trig, parts[Torso], parts[EnforcerJoints[i].part], EnforcerJoints[i]) <= 0.16)
  }

  lemma {:induction false} ShapedWindows(parts: Parts, trig: Trig)
    requires Torso in parts
    ensures var r := Shaped(parts, trig); var bodyRot := r[Torso].angle;
      (ArmRight in r ==> WithinLimit(r[ArmRight].angle, bodyRot, ArmRightLimit))
      && (ArmLeft in r ==> WithinLimit(r[ArmLeft].angle, bodyRot, ArmLeftLimit))
      && (LegLeft in r ==> WithinLimit(r[LegLeft].angle, bodyRot, LegLimit))
      && (LegRight in r ==> WithinLimit(r[LegRight].angle, bodyRot, LegLimit))
  {
    var flat := PlanarAll(parts);
    var bodyRot := flat[Torso].angle;
    var limited := Limited(flat, bodyRot);
    LimitedWithinWindows(flat, bodyRot);
    var joined := Enforced(limited, trig, EnforcerJoints);
    forall p | p in joined
      ensures joined[p].angle == limited[p].angle
    {
      EnforcedKeepsAngles(limited, trig, EnforcerJoints, p);
    }
  }

  lemma {:induction false} ShapedGaps(parts: Parts, trig: Trig, i: int)
    requires Torso in parts
    requires 0 <= i < |EnforcerJoints| && EnforcerJoints[i].part in parts
    ensures var r := Shaped(parts, trig); Gap(trig, r[Torso], r[EnforcerJoints[i].part], EnforcerJoints[i]) <= 0.16
  {
    var flat := PlanarAll(parts);
    var limited := Limited(flat, flat[Torso].angle);
    EnforcerTableDistinct();
    EnforcedCohesion(limited, trig, EnforcerJoints, i);
  }

  /** The fixed corrections leave the figure composed. */
  lemma {:induction false} ShapedIsComposed(parts: Parts, trig: Trig)
    requires Torso in parts
    ensures Composed(Shaped(parts, trig), trig)
  {
    ShapedWindows(parts, trig);
    forall i | 0 <= i < |EnforcerJoints| && EnforcerJoints[i].part in Shaped(parts, trig)
      ensures Gap(trig, Shaped(parts, trig)[Torso], Shaped(parts, trig)[EnforcerJoints[i].part], EnforcerJoints[i]) <= 0.16
    {
      ShapedGaps(parts, trig, i);
    }
  }

  /** Torques alone, and re-locking the head, keep a figure composed. */
  lemma {:induction false} ActivePoseKeepsComposed(parts: Parts, standFactor: real, now: int, trig: Trig)
    requires Torso in parts && Composed(parts, trig)
    ensures Composed(HeadLocked(ActivePose(parts, standFactor, now, trig), trig), trig)
  {
    var active := ActivePose(parts, standFactor, now, trig);
    forall p | p in parts
      ensures active[p] == parts[p].(torque := active[p].torque)
    {
      ActivePoseOnlyTorques(parts, standFactor, now, trig, p);
    }
    var r := HeadLocked(active, trig);
    forall p | p in parts && p != Head
      ensures r[p].pos == parts[p].pos && r[p].angle == parts[p].angle
    {
    }
  }

  lemma {:induction false} ReactKeepsComposed(st: Posture, shaped: Parts, activity: Activity, dt: real, now: int,
                                              lastInteraction: int, trig: Trig)
    requires Torso in shaped && Composed(shaped, trig) && (Interacting(now, lastInteraction) || !st.isStable)
    ensures var o := React(st, shaped, activity, dt, now, lastInteraction, trig);
      Torso in o.parts && Composed(o.parts, trig)
  {
    var sf := if Interacting(now, lastInteraction) then 0.0
      else NextStandFactor(st.standFactor, dt, ShorterThan(shaped[Torso].vel, 1.0) && Abs(shaped[Torso].angle) < 0.3);
    ActivePoseKeepsComposed(shaped, sf, now, trig);
  }

  /**
   * While dragged or rising, every frame ends with each limb inside its angle
   * window relative to the torso and within 0.4 of its socket.
   */
  lemma {:induction false} ActiveFrameKeepsShape(st: Posture, parts: Parts, activity: Activity, dt: real, now: int,
                                                 lastInteraction: int, trig: Trig)
    requires Torso in parts && (Interacting(now, lastInteraction) || !st.isStable)
    ensures var o := Step(st, parts, activity, dt, now, lastInteraction, trig);
      Torso in o.parts && Composed(o.parts, trig)
  {
    ShapedIsComposed(parts, trig);
    ReactKeepsComposed(st, Shaped(parts, trig), activity, dt, now, lastInteraction, trig);
  }

  // ---------------------------------------------------------------------------
  // The controller object

  class Controller {
    var wavePhase: WavePhase
    var waveCount: int
    var waveTimer: real
    var lastWaveCompleteTime: int
    var isStable: bool
    var stableStartTime: int
    var homePosition: Option<Vec3>
    var homeAngle: Option<real>
    var standFactor: real
    var standingTimer: int
    var limbStartAngles: map<Part, real>

    function State(): Posture
      reads this
    {
      Posture(wavePhase, waveCount, waveTimer, lastWaveCompleteTime, isStable, stableStartTime,
              homePosition, homeAngle, standFactor, standingTimer, limbStartAngles)
    }

    constructor()
      ensures State() == InitialPosture
    {
      wavePhase := PhaseIdle;
      waveCount := 0;
      waveTimer := 0.0;
      lastWaveCompleteTime := 0;
      isStable := false;
      stableStartTime := 0;
      homePosition := None;
      homeAngle := None;
      standFactor := 0.0;
      standingTimer := 0;
      limbStartAngles := map[];
    }

    /** `poseStatue`: touches only the figure. */
    method PoseStatue(parts: Parts, now: int, trig: Trig) returns (out: Parts)
      requires Torso in parts
      ensures out == StatuePose(State(), parts, now, trig)
    {
      var body := parts[Torso];
      if homePosition.Some? {
        body := body.(pos := homePosition.value);
      }
      body := body.(vel := Zero, angVel := Zero);
      var timeStable := now - stableStartTime;
      var blendAlpha := 1.0;
      if timeStable < 6000 && homeAngle.Some? {
        var t := timeStable as real / 6000.0;
        blendAlpha := -(trig.cos(Pi * t) - 1.0) / 2.0;
        body := body.(angle := Slerp(homeAngle.value, 0.0, blendAlpha));
      } else {
        body := body.(angle := 0.0);
      }
      var breathe := Breathe(trig, now);
      out := PlaceLimbs(parts[Torso := body], trig, Statue(blendAlpha, limbStartAngles), StatueTable(breathe));
    }

    /** The timer and phase switch at the head of `poseWave`. */
    method AdvanceWave(dt: real, now: int) returns (target: real, finished: bool)
      modifies this
      ensures var w := WaveAdvance(old(wavePhase), old(waveCount), old(waveTimer), dt);
        State() == WavePosture(old(State()), w, now) && target == w.target && finished == w.finished
    {
      waveTimer := waveTimer + dt * 1000.0;
      target := WaveStart;
      finished := false;
      match wavePhase {
        case Raising =>
          target := WaveStart + (WaveTop - WaveStart) * Min(waveTimer / 800.0, 1.0);
          if waveTimer > 800.0 { wavePhase := WaveDown; waveTimer := 0.0; }
        case WaveDown =>
          target := WaveTop - (WaveTop - WaveLow) * Min(waveTimer / 300.0, 1.0);
          if waveTimer > 300.0 { wavePhase := WaveUp; waveTimer := 0.0; }
        case WaveUp =>
          target := WaveLow + (WaveTop - WaveLow) * Min(waveTimer / 300.0, 1.0);
          if waveTimer > 300.0 {
            waveCount := waveCount + 1;
            if waveCount >= 5 { wavePhase := Lowering; waveTimer := 0.0; }
            else { wavePhase := WaveDown; waveTimer := 0.0; }
          }
        case Lowering =>
          target := WaveTop - (WaveTop - WaveStart) * Min(waveTimer / 800.0, 1.0);
          if waveTimer > 800.0 {
            wavePhase := PhaseIdle;
            finished := true;
            lastWaveCompleteTime := now;
          }
        case PhaseIdle =>
      }
    }

    /** `poseWave`: advances the wave and places the figure; returns `currentState`. */
    method PoseWave(parts: Parts, activity: Activity, dt: real, now: int, trig: Trig)
      returns (out: Parts, act: Activity)
      requires Torso in parts
      modifies this
      ensures var w := WaveAdvance(old(wavePhase), old(waveCount), old(waveTimer), dt);
        State() == WavePosture(old(State()), w, now)
        && out == WavePose(old(State()), parts, w.target, now, trig)
        && act == (if w.finished then Idle else activity)
    {
      ghost var st0 := State();
      var target, finished := AdvanceWave(dt, now);
      act := if finished then Idle else activity;
      var body := parts[Torso];
      if homePosition.Some? {
        body := body.(pos := homePosition.value);
      }
      body := body.(vel := Zero, angVel := Zero, angle := 0.0);
      assert homePosition == st0.homePosition;
      var breathe := Breathe(trig, now);
      out := PlaceLimbs(parts[Torso := body], trig, Waving, WaveTable(breathe, target));
    }

    /** `Object.keys(p).forEach(...)`: capture every part's twist. */
    static method CaptureAngles(parts: Parts) returns (m: map<Part, real>)
      ensures m == AnglesOf(parts)
    {
      m := map[];
      var rest := parts.Keys;
      while rest != {}
        invariant rest <= parts.Keys
        invariant m.Keys == parts.Keys - rest
        invariant forall p :: p in m ==> m[p] == parts[p].angle
        decreases rest
      {
        var p :| p in rest;
        m := m[p := parts[p].angle];
        rest := rest - {p};
      }
    }

    /** `update(dt)`: the figure and `currentState` are passed in and handed back. */
    method Update(parts: Parts, activity: Activity, dt: real, now: int, lastInteraction: int, trig: Trig)
      returns (out: Parts, act: Activity)
      modifies this
      ensures Outcome(State(), out, act) == Step(old(State()), parts, activity, dt, now, lastInteraction, trig)
    {
      out, act := parts, activity;
      if Torso !in parts {
        return;
      }
      ghost var st0 := State();
      out := ShapeFigure(parts, trig);
      if now - lastInteraction < 200 {
        out, act := Yield(out, now, trig);
      } else if isStable {
        out, act := HoldStable(out, act, dt, now, trig);
      } else {
        out := Recover(out, act, dt, now, trig);
      }
    }

    /** The fixed corrections at the top of `update`: plane, limits, joints, head. */
    static method ShapeFigure(parts: Parts, trig: Trig) returns (out: Parts)
      requires Torso in parts
      ensures out == Shaped(parts, trig)
    {
      out := FlattenAll(parts);
      var bodyRot := out[Torso].angle;
      out := LimitAll(out, bodyRot);
      out := EnforceJoints(out, trig);
      out := HeadLocked(out, trig);
    }

    /** The interaction branch of `update`. */
    method Yield(shaped: Parts, now: int, trig: Trig) returns (out: Parts, act: Activity)
      requires Torso in shaped
      modifies this`isStable, this`stableStartTime, this`homePosition, this`homeAngle, this`wavePhase
      ensures Outcome(State(), out, act) == DraggedStep(old(State()), shaped, now, trig)
    {
      isStable := false;
      stableStartTime := 0;
      homePosition := None;
      homeAngle := None;
      wavePhase := PhaseIdle;
      assert State() == old(State()).(isStable := false, stableStartTime := 0, homePosition := None, homeAngle := None,
                                      wavePhase := PhaseIdle);
      act := Idle;
      out := ApplyActivePose(shaped, 0.0, now, trig);
      out := HeadLocked(out, trig);
    }

    /** The stable branch of `update`: statue or wave, or loss of stability on a knock. */
    method HoldStable(shaped: Parts, activity: Activity, dt: real, now: int, trig: Trig)
      returns (out: Parts, act: Activity)
      requires Torso in shaped
      modifies this
      ensures Outcome(State(), out, act) == StableStep(old(State()), shaped, activity, dt, now, trig)
    {
      out, act := shaped, activity;
      if LongerThan(out[Torso].vel, 5.0) {
        isStable := false;
        stableStartTime := 0;
      } else {
        act := StartWaveIfDue(act, now);
        out, act := PoseStable(out, act, dt, now, trig);
      }
    }

    /** The wave trigger: stable for over 3 s, not waving, and no wave in the last 7 s. */
    method StartWaveIfDue(activity: Activity, now: int) returns (act: Activity)
      modifies this`wavePhase, this`waveCount, this`waveTimer
      ensures var due := WaveDue(old(State()), activity, now);
        State() == (if due then old(State()).(wavePhase := Raising, waveCount := 0, waveTimer := 0.0) else old(State()))
        && act == (if due then Wave else activity)
    {
      act := activity;
      var timeStable := now - stableStartTime;
      if timeStable > 3000 && act != Wave {
        var sinceLastWave := now - lastWaveCompleteTime;
        if lastWaveCompleteTime == 0 || sinceLastWave > 7000 {
          act := Wave;
          wavePhase := Raising;
          waveCount := 0;
          waveTimer := 0.0;
        }
      }
    }

    /** The pose of a stable figure: the wave while waving, the statue otherwise, then the head lock. */
    method PoseStable(shaped: Parts, activity: Activity, dt: real, now: int, trig: Trig)
      returns (out: Parts, act: Activity)
      requires Torso in shaped
      modifies this
      ensures activity == Wave ==>
        var w := WaveAdvance(old(wavePhase), old(waveCount), old(waveTimer), dt);
        State() == WavePosture(old(State()), w, now)
        && out == HeadLocked(WavePose(old(State()), shaped, w.target, now, trig), trig)
        && act == (if w.finished then Idle else Wave)
      ensures activity != Wave ==>
        State() == old(State()) && out == HeadLocked(StatuePose(old(State()), shaped, now, trig), trig) && act == activity
    {
      act := activity;
      if act == Wave {
        out, act := PoseWave(shaped, act, dt, now, trig);
      } else {
        out := PoseStatue(shaped, now, trig);
      }
      out := HeadLocked(out, trig);
    }

    /** The falling/rising branch of `update`: stand factor, PD pose, stability dwell. */
    method Recover(shaped: Parts, activity: Activity, dt: real, now: int, trig: Trig) returns (out: Parts)
      requires Torso in shaped
      modifies this
      ensures Outcome(State(), out, activity) == FallingStep(old(State()), shaped, activity, dt, now, trig)
    {
      var body := shaped[Torso];
      var isUpright := Abs(body.angle) < 0.3;
      if ShorterThan(body.vel, 1.0) && isUpright {
        standFactor := standFactor + dt;
        if standFactor > 1.0 { standFactor := 1.0; }
      } else {
        standFactor := standFactor - dt * 2.0;
        if standFactor < 0.0 { standFactor := 0.0; }
      }
      out := ApplyActivePose(shaped, standFactor, now, trig);
      out := HeadLocked(out, trig);
      CheckStability(body, out, now);
    }

    /** The stability check at the end of `update`. */
    method CheckStability(body: BodyState, posed: Parts, now: int)
      modifies this
      ensures State() == Dwell(old(State()), body, posed, now)
    {
      if ShorterThan(body.vel, 0.1) && Abs(body.angVel.z) < 0.1 && Abs(body.angle) < 0.1 && standFactor >= 1.0 {
        if standingTimer == 0 {
          standingTimer := now;
        }
        if now - standingTimer > 500 {
          isStable := true;
          stableStartTime := now;
          homePosition := Some(body.pos);
          homeAngle := Some(body.angle);
          limbStartAngles := CaptureAngles(posed);
        }
      } else {
        standingTimer := 0;
      }
    }
  }
}
