/**
 * Planar geometry shared by the ragdoll model: the constant pi as JavaScript's
 * Math.PI spells it, three-component vectors, rotation about the plane normal
 * through caller-supplied (uninterpreted) cosine and sine, and the wrap of an
 * angle into [-pi, pi] that the controller performs with two while loops.
 */
module Geometry {

  const Pi: real := 3.141592653589793
  const TwoPi: real := 6.283185307179586

  datatype Vec3 = Vec3(x: real, y: real, z: real)
  {
    function Add(o: Vec3): Vec3 { Vec3(x + o.x, y + o.y, z + o.z) }
    function Sub(o: Vec3): Vec3 { Vec3(x - o.x, y - o.y, z - o.z) }
    function SqNorm(): real { x * x + y * y + z * z }
  }

  const Zero: Vec3 := Vec3(0.0, 0.0, 0.0)

  /** Squared Euclidean distance. */
  function Dist2(a: Vec3, b: Vec3): real
  {
    a.Sub(b).SqNorm()
  }

  lemma SubAdd(a: Vec3, v: Vec3)
    ensures a.Sub(v).Add(v) == a
  {
  }

  lemma DistSelf(a: Vec3)
    ensures Dist2(a, a) == 0.0
  {
    assert a.Sub(a) == Zero;
  }

  /** A vector given in the figure's unscaled pixel units, as the source writes its offsets. */
  function Pixels(px: real, py: real): Vec3
  {
    Vec3(px * 0.1, py * 0.1, 0.0)
  }

  /**
   * Trigonometry is not interpreted: every use goes through these two
   * functions, which the host environment supplies.
   */
  datatype Trig = Trig(cos: real -> real, sin: real -> real)

  /** Rotates v by `angle` about the z axis (the one rotation a planar body has). */
  function Rotate(trig: Trig, angle: real, v: Vec3): Vec3
  {
    var c := trig.cos(angle);
    var s := trig.sin(angle);
    Vec3(c * v.x - s * v.y, s * v.x + c * v.y, v.z)
  }

  /** `|v| > limit` for a non-negative limit, without a square root. */
  predicate LongerThan(v: Vec3, limit: real)
    requires limit >= 0.0
  {
    v.SqNorm() > limit * limit
  }

  /** `|v| < limit` for a non-negative limit, without a square root. */
  predicate ShorterThan(v: Vec3, limit: real)
    requires limit >= 0.0
  {
    v.SqNorm() < limit * limit
  }

  function Abs(x: real): (r: real)
    ensures r >= 0.0 && (r == x || r == -x)
  {
    if x < 0.0 then -x else x
  }

  function Min(a: real, b: real): (r: real)
    ensures r <= a && r <= b && (r == a || r == b)
  {
    if a <= b then a else b
  }

  function Max(a: real, b: real): (r: real)
    ensures r >= a && r >= b && (r == a || r == b)
  {
    if a >= b then a else b
  }

  /** Math.max(lo, Math.min(hi, x)). */
  function Clamp(lo: real, hi: real, x: real): (r: real)
    requires lo <= hi
    ensures lo <= r <= hi
    ensures lo <= x <= hi ==> r == x
    ensures x > 0.0 && hi > 0.0 ==> r > 0.0
    ensures x < 0.0 && lo < 0.0 ==> r < 0.0
  {
    Max(lo, Min(hi, x))
  }

  /** The least integer n with n >= a. */
  function Ceil(a: real): (n: int)
    ensures a <= n as real < a + 1.0
  {
    -((-a).Floor)
  }

  lemma CeilUnique(a: real, k: int)
    requires a <= k as real < a + 1.0
    ensures k == Ceil(a)
  {
  }

  /** How many whole turns the wrap loops add (negative: subtract) to reach [-pi, pi]. */
  function WrapTurns(x: real): int
  {
    if x > Pi then -Ceil((x - Pi) / TwoPi)
    else if x < -Pi then Ceil((-Pi - x) / TwoPi)
    else 0
  }

  /**
   * The representative of x in [-pi, pi]: a value already in range is kept,
   * one above pi comes down into (-pi, pi], one below -pi comes up into [-pi, pi).
   */
  function WrapAngle(x: real): (r: real)
    ensures -Pi <= r <= Pi
    ensures x > Pi ==> r > -Pi
    ensures x < -Pi ==> r < Pi
    ensures -Pi <= x <= Pi ==> r == x
  {
    x + TwoPi * WrapTurns(x) as real
  }

  /** WrapAngle never changes an angle by anything but whole turns. */
  lemma WrapAngleIsWholeTurns(x: real)
    ensures exists n: int {:trigger n as real} :: WrapAngle(x) == x + TwoPi * n as real
  {
    var n := WrapTurns(x);
    assert WrapAngle(x) == x + TwoPi * n as real;
  }

  /** Wrapping twice is wrapping once. */
  lemma WrapAngleIdempotent(x: real)
    ensures WrapAngle(WrapAngle(x)) == WrapAngle(x)
  {
  }

  /**
   * The source's `while (a > Math.PI) a -= 2 * Math.PI;
   * while (a < -Math.PI) a += 2 * Math.PI;`.
   */
  method WrapByLoop(x: real) returns (r: real)
    ensures r == WrapAngle(x)
  {
    r := x;
    ghost var k: int := 0;
    ghost var up := Ceil((x - Pi) / TwoPi);
    while r > Pi
      invariant r == x - TwoPi * k as real
      invariant 0 <= k
      invariant k > 0 ==> r > -Pi
      invariant r > Pi ==> k < up
      decreases up - k
    {
      r := r - TwoPi;
      k := k + 1;
    }
    if k > 0 {
      CeilUnique((x - Pi) / TwoPi, k);
    }
    ghost var j: int := 0;
    ghost var down := Ceil((-Pi - x) / TwoPi);
    while r < -Pi
      invariant r == x - TwoPi * k as real + TwoPi * j as real
      invariant 0 <= j
      invariant j > 0 ==> k == 0 && r < Pi
      invariant r < -Pi ==> k == 0 && j < down
      decreases down - j
    {
      r := r + TwoPi;
      j := j + 1;
    }
    if j > 0 {
      CeilUnique((-Pi - x) / TwoPi, j);
    }
  }
}
