/**
 * Single-paddle pong on a 400x500 field: the ball bounces off the side walls
 * and the ceiling, every paddle touch scores and sends it back up faster, and
 * the game ends once it falls past the bottom edge.
 */
module Pong {

  const Width: real := 400.0
  const Height: real := 500.0

  /** The paddle's fixed row and size; only its x changes. */
  const PaddleY: real := 460.0
  const PaddleW: real := 100.0
  const PaddleH: real := 15.0

  /** The ball is a 12x12 box. */
  const BallSize: real := 12.0

  /** The ball's top-left corner and velocity. */
  datatype Ball = Ball(x: real, y: real, vx: real, vy: real)

  /** Everything `update` reads or writes: ball, paddle x, score, game over and the held keys. */
  datatype State = State(ball: Ball, paddleX: real, score: int, over: bool, left: bool, right: bool)

  const StartBall: Ball := Ball(200.0, 150.0, 5.0, 5.0)
  const Start: State := State(StartBall, 150.0, 0, false, false, false)

  function Abs(a: real): real { if a >= 0.0 then a else -a }

  /** The paddle after the held keys: 8 left, stopping at 0, then 8 right, stopping at the right wall. */
  function Steered(x: real, left: bool, right: bool): real
  {
    var x1 := if left then (if 0.0 >= x - 8.0 then 0.0 else x - 8.0) else x;
    if right then (if Width - PaddleW <= x1 + 8.0 then Width - PaddleW else x1 + 8.0) else x1
  }

  /** The paddle never leaves the field, and moves by at most 8 a tick. */
  lemma SteeredStaysIn(x: real, left: bool, right: bool)
    requires 0.0 <= x <= Width - PaddleW
    ensures var nx := Steered(x, left, right);
      0.0 <= nx <= Width - PaddleW && x - 8.0 <= nx <= x + 8.0
      && (!left && !right ==> nx == x)
      && (left && !right && x >= 8.0 ==> nx == x - 8.0)
      && (right && !left && x <= Width - PaddleW - 8.0 ==> nx == x + 8.0)
  {
  }

  /** The ball moved by its velocity. */
  function Moved(b: Ball): Ball
  {
    b.(x := b.x + b.vx, y := b.y + b.vy)
  }

  /** Within 10 of a side wall. */
  predicate AtSide(b: Ball)
  {
    b.x < 10.0 || b.x > Width - 10.0
  }

  /** Within 10 of the ceiling. */
  predicate AtCeiling(b: Ball)
  {
    b.y < 10.0
  }

  /** The wall bounces: a side wall flips `vx`, the ceiling flips `vy`. */
  function Bounced(b: Ball): Ball
  {
    var b1 := if AtSide(b) then b.(vx := -b.vx) else b;
    if AtCeiling(b1) then b1.(vy := -b1.vy) else b1
  }

  /** The strict overlap of the ball and the paddle. */
  predicate Touches(b: Ball, paddleX: real)
  {
    b.y + BallSize > PaddleY && b.y < PaddleY + PaddleH
    && b.x + BallSize > paddleX && b.x < paddleX + PaddleW
  }

  /** A paddle touch: upward at 1.05 times the speed, with a sideways kick of `(u - 0.5) * 4`. */
  function Struck(b: Ball, u: real): Ball
  {
    b.(vy := -Abs(b.vy) * 1.05, vx := b.vx + (u - 0.5) * 4.0)
  }

  /** One `update`, `u` being the paddle touch's random draw. */
  function Step(s: State, u: real): (t: State)
    ensures s.over ==> t == s
    ensures t.score == s.score || t.score == s.score + 1
  {
    if s.over then s
    else
      var px := Steered(s.paddleX, s.left, s.right);
      var b := Bounced(Moved(s.ball));
      var hit := Touches(b, px);
      var b2 := if hit then Struck(b, u) else b;
      s.(ball := b2, paddleX := px, score := if hit then s.score + 1 else s.score, over := b2.y > Height)
  }

  /** After the game ends an update changes nothing. */
  lemma OverIsFinal(s: State, u: real)
    requires s.over
    ensures Step(s, u) == s
  {
  }

  /** The paddle stays inside the field on every update. */
  lemma StepKeepsPaddleIn(s: State, u: real)
    requires 0.0 <= s.paddleX <= Width - PaddleW
    ensures 0.0 <= Step(s, u).paddleX <= Width - PaddleW
  {
    SteeredStaysIn(s.paddleX, s.left, s.right);
  }

  /**
   * Off the paddle, the ball lands where its velocity takes it, a side wall
   * negates `vx`, the ceiling negates `vy`, and otherwise the velocity is kept.
   */
  lemma StepBounces(s: State, u: real)
    requires !s.over
    ensures var m := Moved(s.ball);
      var t := Step(s, u);
      !Touches(Bounced(m), t.paddleX) ==>
        t.ball.x == m.x && t.ball.y == m.y
        && t.ball.vx == (if AtSide(m) then -s.ball.vx else s.ball.vx)
        && t.ball.vy == (if AtCeiling(m) then -s.ball.vy else s.ball.vy)
        && t.score == s.score
  {
  }

  /** A paddle touch scores exactly one and sends the ball up at 1.05 times its vertical speed. */
  lemma StepScoresOnTouch(s: State, u: real)
    requires !s.over
    ensures var t := Step(s, u);
      var b := Bounced(Moved(s.ball));
      (t.score == s.score + 1 <==> Touches(b, t.paddleX))
      && (t.score == s.score || t.score == s.score + 1)
      && (Touches(b, t.paddleX) ==> t.ball.vy == -1.05 * Abs(s.ball.vy) && t.ball.vy <= 0.0)
  {
    var b := Bounced(Moved(s.ball));
    assert Abs(b.vy) == Abs(s.ball.vy);
  }

  /** The game ends exactly when the ball is below the field, and never on a tick that scores. */
  lemma StepEndsBelow(s: State, u: real)
    requires !s.over
    ensures var t := Step(s, u);
      (t.over <==> t.ball.y > Height)
      && (t.score == s.score + 1 ==> !t.over)
  {
  }

  /** The closure state of `loadPong`. */
  class Game {
    var ball: Ball
    var paddleX: real
    var score: int
    var isGameOver: bool
    var left: bool
    var right: bool

    function Snapshot(): State
      reads this
    {
      State(ball, paddleX, score, isGameOver, left, right)
    }

    /** The paddle lies inside the field and the score never went negative. */
    predicate Valid()
      reads this
    {
      0.0 <= paddleX <= Width - PaddleW && score >= 0
    }

    /** `reset`, on a fresh game; the interval timer is not modelled. */
    constructor ()
      ensures Valid() && Snapshot() == Start
    {
      ball := Ball(200.0, 150.0, 5.0, 5.0);
      paddleX := 150.0;
      score := 0;
      isGameOver := false;
      left, right := false, false;
    }

    /** `reset`: ball at (200, 150) moving (5, 5), paddle at 150, score 0, keys released. */
    method Reset()
      modifies this
      ensures Valid() && Snapshot() == Start
    {
      ball := Ball(200.0, 150.0, 5.0, 5.0);
      paddleX := 150.0;
      score := 0;
      isGameOver := false;
      left, right := false, false;
    }

    /** The paddle part of `update`: the held keys move it. */
    method SteerPaddle()
      requires Valid()
      modifies this`paddleX
      ensures Valid() && paddleX == Steered(old(paddleX), left, right)
    {
      SteeredStaysIn(paddleX, left, right);
      if left {
        paddleX := if 0.0 >= paddleX - 8.0 then 0.0 else paddleX - 8.0;
      }
      if right {
        paddleX := if Width - PaddleW <= paddleX + 8.0 then Width - PaddleW else paddleX + 8.0;
      }
    }

    /** The ball part of `update` before the paddle test: it moves, then bounces off the walls. */
    method MoveBall()
      modifies this`ball
      ensures ball == Bounced(Moved(old(ball)))
    {
      ball := ball.(x := ball.x + ball.vx);
      ball := ball.(y := ball.y + ball.vy);
      if ball.x < 10.0 || ball.x > Width - 10.0 {
        ball := ball.(vx := ball.vx * -1.0);
      }
      if ball.y < 10.0 {
        ball := ball.(vy := ball.vy * -1.0);
      }
    }

    /** `update`; `u` is the draw for the paddle's sideways kick. */
    method Update(u: real)
      requires Valid()
      modifies this
      ensures Valid() && Snapshot() == Step(old(Snapshot()), u)
    {
      if isGameOver {
        return;
      }
      SteerPaddle();
      MoveBall();
      if ball.y + BallSize > PaddleY && ball.y < PaddleY + PaddleH
        && ball.x + BallSize > paddleX && ball.x < paddleX + PaddleW
      {
        ball := ball.(vy := -Abs(ball.vy) * 1.05);
        ball := ball.(vx := ball.vx + (u - 0.5) * 4.0);
        score := score + 1;
      }
      if ball.y > Height {
        isGameOver := true;
      }
    }

    /** `keyHandler`: the (lower-cased) key's press or release sets that side's held flag. */
    method OnKey(key: string, down: bool)
      modifies this`left, this`right
      ensures left == (if key == "arrowleft" || key == "a" then down else old(left))
      ensures right == (if key == "arrowright" || key == "d" then down else old(right))
    {
      if key == "arrowleft" || key == "a" {
        left := down;
      }
      if key == "arrowright" || key == "d" {
        right := down;
      }
    }
  }
}
