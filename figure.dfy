/**
 * The articulated figure as the controller sees it: six named parts, each a
 * rigid body with a position, a twist angle about the plane normal, linear and
 * angular velocity, and the twist torque accumulated for the next physics step.
 */
module Figure {
  import opened Wrappers
  import opened Geometry

  datatype Part = Head | Torso | ArmLeft | ArmRight | LegLeft | LegRight

  /** The order in which the source lists the parts when it flattens them onto the plane. */
  const PlaneOrder: seq<Part> := [Torso, Head, ArmLeft, ArmRight, LegLeft, LegRight]

  lemma PlaneOrderCoversAll(p: Part)
    ensures p in PlaneOrder
  {
  }

  /** The key under which the source stores a part (`ragdoll.parts[key]`). */
  function PartKey(p: Part): string
  {
    match p
    case Head => "head"
    case Torso => "body"
    case ArmLeft => "armLeft"
    case ArmRight => "armRight"
    case LegLeft => "legLeft"
    case LegRight => "legRight"
  }

  /** The part a key names, if any. */
  function KeyPart(key: string): (r: Option<Part>)
    ensures r.Some? ==> PartKey(r.value) == key
  {
    if key == "head" then Some(Head)
    else if key == "body" then Some(Torso)
    else if key == "armLeft" then Some(ArmLeft)
    else if key == "armRight" then Some(ArmRight)
    else if key == "legLeft" then Some(LegLeft)
    else if key == "legRight" then Some(LegRight)
    else None
  }

  /** Keys and parts are in one-to-one correspondence. */
  lemma KeyPartInverse(p: Part)
    ensures KeyPart(PartKey(p)) == Some(p)
  {
  }

  lemma PartKeyInjective(p: Part, q: Part)
    requires PartKey(p) == PartKey(q)
    ensures p == q
  {
    KeyPartInverse(p);
    KeyPartInverse(q);
  }

  /**
   * One rigid body. `angle` is the twist the controller reads back from the
   * body's orientation; `torque` is the z component of the torque accumulator.
   */
  datatype BodyState = BodyState(pos: Vec3, angle: real, vel: Vec3, angVel: Vec3, torque: real)

  /** A figure's parts; a missing key is a part the figure does not have. */
  type Parts = map<Part, BodyState>

  /** A figure with all six parts, as `createRagdoll` builds it. */
  predicate Whole(parts: Parts)
  {
    Head in parts && Torso in parts && ArmLeft in parts && ArmRight in parts && LegLeft in parts && LegRight in parts
  }

  /** `ragdoll.currentState`. */
  datatype Activity = Idle | Wave
}
