/**
 * The target clicker: a 30-second countdown, and a target that jumps to a
 * random spot inside a 40-unit margin each time a click lands within 10 of
 * its rim.
 */
module Clicker {

  const Width: real := 360.0
  const Height: real := 400.0
  const Margin: real := 40.0
  const Colors: int := 4

  /** The target: centre, radius, and colour as an index into the four-colour palette. */
  datatype Target = Target(x: real, y: real, radius: real, color: int)

  const StartTarget: Target := Target(180.0, 200.0, 25.0, 0)

  /** The countdown: seconds left, whether the game is over, and whether the one-second interval is set. */
  datatype Clock = Clock(timeLeft: int, over: bool, ticking: bool)

  /** The target at its new spot: `40 + u * (size - 80)` on each axis, and colour `floor(4 uc)`. */
  function Moved(t: Target, ux: real, uy: real, uc: real): (r: Target)
    requires 0.0 <= ux < 1.0 && 0.0 <= uy < 1.0 && 0.0 <= uc < 1.0
    ensures Margin <= r.x < Width - Margin && Margin <= r.y < Height - Margin
    ensures 0 <= r.color < Colors && r.radius == t.radius
  {
    var k := (uc * Colors as real).Floor;
    assert 0 <= k < Colors;
    t.(x := Margin + ux * (Width - 2.0 * Margin), y := Margin + uy * (Height - 2.0 * Margin), color := k)
  }

  /** Every spot in the margin box is reachable: the draws `(x - 40) / 280` and `(y - 40) / 320` put the target there. */
  lemma MovedReachesBox(t: Target, x: real, y: real, uc: real)
    requires Margin <= x < Width - Margin && Margin <= y < Height - Margin && 0.0 <= uc < 1.0
    ensures var r := Moved(t, (x - Margin) / (Width - 2.0 * Margin), (y - Margin) / (Height - 2.0 * Margin), uc);
      r.x == x && r.y == y
  {
  }

  /** `Math.hypot(x - t.x, y - t.y) < t.radius + 10`, compared as squares. */
  predicate Hit(t: Target, x: real, y: real)
  {
    (x - t.x) * (x - t.x) + (y - t.y) * (y - t.y) < (t.radius + 10.0) * (t.radius + 10.0)
  }

  function Abs(a: real): real { if a >= 0.0 then a else -a }

  /** For non-negative `a` and positive `c`, `a * a < c * c` exactly when `a < c`. */
  lemma SquareBelow(a: real, c: real)
    requires a >= 0.0 && c > 0.0
    ensures a * a < c * c <==> a < c
  {
    assert c * c - a * a == (c - a) * (c + a);
    assert c + a > 0.0;
    if a < c {
      assert (c - a) * (c + a) > 0.0;
    } else {
      assert (a - c) * (c + a) >= 0.0;
    }
  }

  /** A hit lies within radius + 10 of the centre along each axis. */
  lemma HitIsNear(t: Target, x: real, y: real)
    requires t.radius + 10.0 > 0.0 && Hit(t, x, y)
    ensures Abs(x - t.x) < t.radius + 10.0 && Abs(y - t.y) < t.radius + 10.0
  {
    var c := t.radius + 10.0;
    var a, b := Abs(x - t.x), Abs(y - t.y);
    assert a * a == (x - t.x) * (x - t.x) && b * b == (y - t.y) * (y - t.y);
    assert a * a >= 0.0 && b * b >= 0.0;
    SquareBelow(a, c);
    SquareBelow(b, c);
  }

  /** A click whose axis distances sum to less than radius + 10 is a hit. */
  lemma NearIsHit(t: Target, x: real, y: real)
    requires t.radius + 10.0 > 0.0 && Abs(x - t.x) + Abs(y - t.y) < t.radius + 10.0
    ensures Hit(t, x, y)
  {
    var c := t.radius + 10.0;
    var a, b := Abs(x - t.x), Abs(y - t.y);
    assert a * a == (x - t.x) * (x - t.x) && b * b == (y - t.y) * (y - t.y);
    assert (a + b) * (a + b) == a * a + b * b + 2.0 * (a * b);
    assert a * b >= 0.0;
    SquareBelow(a + b, c);
  }

  /** One firing of the one-second interval: a second less, and the end of the game at zero; a cleared interval fires no more. */
  function Ticked(c: Clock): (r: Clock)
    ensures !c.ticking ==> r == c
    ensures c.ticking ==> r.timeLeft == c.timeLeft - 1 && (r.ticking <==> r.timeLeft > 0) && (r.over <==> c.over || r.timeLeft <= 0)
  {
    if !c.ticking then c
    else
      var t := c.timeLeft - 1;
      if t <= 0 then Clock(t, true, false) else c.(timeLeft := t)
  }

  /** `n` firings in a row. */
  function Ticks(c: Clock, n: nat): Clock
    decreases n
  {
    if n == 0 then c else Ticks(Ticked(c), n - 1)
  }

  /** A running countdown: the interval is set only while time is left and the game is on. */
  predicate Running(c: Clock)
  {
    c.timeLeft >= 0 && (c.ticking ==> c.timeLeft > 0 && !c.over) && (c.over ==> !c.ticking)
  }

  /** A firing keeps the countdown running, and ends the game exactly when the time runs out. */
  lemma TickedRunning(c: Clock)
    requires Running(c)
    ensures Running(Ticked(c))
    ensures c.ticking ==> Ticked(c).timeLeft == c.timeLeft - 1 && (Ticked(c).over <==> c.timeLeft == 1)
  {
  }

  /** From `t` seconds left, the game is still on after `t - 1` firings, and over with 0 left after `t`. */
  lemma {:induction false} CountdownEnds(t: nat, k: nat)
    requires t >= 1 && k <= t
    ensures var c := Ticks(Clock(t, false, true), k);
      (k < t ==> c == Clock(t - k, false, true))
      && (k == t ==> c == Clock(0, true, false))
    decreases k
  {
    if k > 0 {
      CountdownEnds(t, k - 1);
      TicksSnoc(Clock(t, false, true), k - 1);
    }
  }

  /** The last of `n + 1` firings comes after the first `n`. */
  lemma {:induction false} TicksSnoc(c: Clock, n: nat)
    ensures Ticks(c, n + 1) == Ticked(Ticks(c, n))
    decreases n
  {
    if n > 0 {
      TicksSnoc(Ticked(c), n - 1);
    }
  }

  /** Once the game is over, firings change nothing. */
  lemma {:induction false} OverStaysOver(c: Clock, n: nat)
    requires Running(c) && c.over
    ensures Ticks(c, n) == c
    decreases n
  {
    if n > 0 {
      OverStaysOver(Ticked(c), n - 1);
    }
  }

  /** The closure state of `loadClicker`. */
  class Game {
    var score: int
    var timeLeft: int
    var target: Target
    var isGameOver: bool
    var ticking: bool

    function Countdown(): Clock
      reads this
    {
      Clock(timeLeft, isGameOver, ticking)
    }

    /** A running countdown, a non-negative score, and a 25-unit target inside the margin box. */
    predicate Valid()
      reads this
    {
      Running(Countdown()) && score >= 0 && target.radius == 25.0 && 0 <= target.color < Colors
      && Margin <= target.x < Width - Margin && Margin <= target.y < Height - Margin
    }

    /** The page load, before any `reset`: 30 seconds, target at the centre, no interval. */
    constructor ()
      ensures Valid() && score == 0 && Countdown() == Clock(30, false, false) && target == StartTarget
    {
      score := 0;
      timeLeft := 30;
      target := Target(180.0, 200.0, 25.0, 0);
      isGameOver := false;
      ticking := false;
    }

    /** `moveTarget`, drawing `ux`, `uy` and `uc`. */
    method MoveTarget(ux: real, uy: real, uc: real)
      requires 0.0 <= ux < 1.0 && 0.0 <= uy < 1.0 && 0.0 <= uc < 1.0
      modifies this`target
      ensures target == Moved(old(target), ux, uy, uc)
    {
      target := target.(x := Margin + ux * (Width - 2.0 * Margin));
      target := target.(y := Margin + uy * (Height - 2.0 * Margin));
      var k := (uc * Colors as real).Floor;
      target := target.(color := k);
    }

    /** `reset`: score 0, 30 seconds, the game on, a fresh target, and the interval set. */
    method Reset(ux: real, uy: real, uc: real)
      requires Valid() && 0.0 <= ux < 1.0 && 0.0 <= uy < 1.0 && 0.0 <= uc < 1.0
      modifies this
      ensures Valid() && score == 0 && Countdown() == Clock(30, false, true)
      ensures target == Moved(old(target), ux, uy, uc)
    {
      score := 0;
      timeLeft := 30;
      isGameOver := false;
      MoveTarget(ux, uy, uc);
      ticking := true;
    }

    /** `endGame`: over, and the interval cleared. */
    method EndGame()
      modifies this`isGameOver, this`ticking
      ensures isGameOver && !ticking
    {
      isGameOver := true;
      ticking := false;
    }

    /** The interval's callback: one second less, and `endGame` at zero. */
    method Tick()
      requires Valid()
      modifies this`timeLeft, this`isGameOver, this`ticking
      ensures Valid() && Countdown() == Ticked(old(Countdown()))
    {
      TickedRunning(Countdown());
      if !ticking {
        return;
      }
      timeLeft := timeLeft - 1;
      if timeLeft <= 0 {
        EndGame();
      }
    }

    /** `canvas.onclick` at canvas point `(x, y)`; `ux`, `uy`, `uc` are the draws of the `moveTarget` a hit makes. */
    method Click(x: real, y: real, ux: real, uy: real, uc: real)
      requires Valid() && 0.0 <= ux < 1.0 && 0.0 <= uy < 1.0 && 0.0 <= uc < 1.0
      modifies this`score, this`target
      ensures Valid()
      ensures !isGameOver && Hit(old(target), x, y) ==>
        score == old(score) + 1 && target == Moved(old(target), ux, uy, uc)
      ensures isGameOver || !Hit(old(target), x, y) ==> score == old(score) && target == old(target)
    {
      if isGameOver {
        return;
      }
      var dx, dy := x - target.x, y - target.y;
      if dx * dx + dy * dy < (target.radius + 10.0) * (target.radius + 10.0) {
        score := score + 1;
        MoveTarget(ux, uy, uc);
      }
    }
  }
}
