/**
 * The lane racer: cars drop down three lanes at random, the player's car
 * hops 110 sideways per arrow key, and the race ends at the first overlap.
 */
module Race {

  /** An axis-aligned box: left, top, width, height. */
  datatype Box = Box(x: real, y: real, w: real, h: real)

  /** An oncoming car: its box and its own speed. */
  datatype Obstacle = Obstacle(box: Box, speed: real)

  const Start: Box := Box(180.0, 400.0, 40.0, 60.0)

  /** The obstacle lanes' left edges. */
  const Lanes: set<real> := {60.0, 170.0, 280.0}

  /** `Math.floor(u * 3) * 110 + 60` for `u` drawn from [0, 1). */
  function Lane(u: real): (x: real)
    requires 0.0 <= u < 1.0
    ensures x in Lanes
  {
    var k := (u * 3.0).Floor;
    assert 0 <= k < 3;
    k as real * 110.0 + 60.0
  }

  /** The spawn test `Math.random() < 0.02 + score * 0.00001`. */
  predicate Spawns(u: real, score: int)
  {
    u < 0.02 + score as real * 0.00001
  }

  /** A new car in lane `Lane(uLane)`, above the screen, at speed 4 + 3 `uSpeed`. */
  function Spawned(uLane: real, uSpeed: real): (o: Obstacle)
    requires 0.0 <= uLane < 1.0
    ensures o.box.x in Lanes && o.box.y == -100.0 && o.box.w == 40.0 && o.box.h == 60.0
  {
    Obstacle(Box(Lane(uLane), -100.0, 40.0, 60.0), 4.0 + uSpeed * 3.0)
  }

  /** The road speed after `score` updates: 5, plus 0.5 every 200th update. */
  function Pace(score: int): real
  {
    5.0 + 0.5 * (score / 200) as real
  }

  /** One more update raises the pace exactly on multiples of 200. */
  lemma PaceStep(score: nat)
    ensures Pace(score + 1) == Pace(score) + (if (score + 1) % 200 == 0 then 0.5 else 0.0)
  {
    var q, r := score / 200, score % 200;
    assert score == 200 * q + r && 0 <= r < 200;
    if r == 199 {
      assert score + 1 == 200 * (q + 1) + 0;
      assert (score + 1) / 200 == q + 1 && (score + 1) % 200 == 0;
    } else {
      assert score + 1 == 200 * q + (r + 1);
      assert (score + 1) / 200 == q && (score + 1) % 200 == r + 1;
    }
  }

  /** Each car moves down its own speed plus half the road speed. */
  function Moved(obstacles: seq<Obstacle>, speed: real): (r: seq<Obstacle>)
    ensures |r| == |obstacles|
  {
    seq(|obstacles|, k requires 0 <= k < |obstacles| =>
      var o := obstacles[k]; o.(box := o.box.(y := o.box.y + (o.speed + speed * 0.5))))
  }

  /** `obstacles.filter(o => o.y < 600)`: keeps, in order, the cars still on screen. */
  function OnScreen(obstacles: seq<Obstacle>): (r: seq<Obstacle>)
    ensures |r| <= |obstacles|
    ensures forall j | 0 <= j < |r| :: r[j].box.y < 600.0 && r[j] in obstacles
    ensures forall k | 0 <= k < |obstacles| && obstacles[k].box.y < 600.0 :: obstacles[k] in r
  {
    if |obstacles| == 0 then []
    else
      var n := |obstacles| - 1;
      var front := OnScreen(obstacles[..n]);
      assert forall k | 0 <= k < n :: obstacles[..n][k] == obstacles[k];
      if obstacles[n].box.y < 600.0 then front + [obstacles[n]] else front
  }

  /** The strict overlap test of the crash check. */
  predicate Overlap(p: Box, o: Box)
  {
    p.x < o.x + o.w && p.x + p.w > o.x && p.y < o.y + o.h && p.y + p.h > o.y
  }

  /** `obstacles.some(...)`. */
  predicate Crashed(p: Box, obstacles: seq<Obstacle>)
  {
    exists k | 0 <= k < |obstacles| :: Overlap(p, obstacles[k].box)
  }

  /** The car's x after an arrow key: one lane over, but no further than 50 or 310. */
  function Hop(x: real, left: bool): (r: real)
    ensures left ==> r >= 50.0 && r >= x - 110.0 && (r == 50.0 || r == x - 110.0)
    ensures !left ==> r <= 310.0 && r <= x + 110.0 && (r == 310.0 || r == x + 110.0)
  {
    if left then (if 50.0 >= x - 110.0 then 50.0 else x - 110.0)
    else (if 310.0 <= x + 110.0 then 310.0 else x + 110.0)
  }

  /** On the road a hop stays on the road, moves at most one lane the right way, and a full lane unless it hits a clamp. */
  lemma HopWithinRoad(x: real, left: bool)
    requires 50.0 <= x <= 310.0
    ensures var nx := Hop(x, left);
      50.0 <= nx <= 310.0
      && (left ==> x - 110.0 <= nx <= x && (nx == x - 110.0 || nx == 50.0))
      && (!left ==> x <= nx <= x + 110.0 && (nx == x + 110.0 || nx == 310.0))
  {
  }

  /** The x positions the car can reach from 180: the clamps shift it off the 110-unit grid. */
  const Stops: set<real> := {50.0, 70.0, 90.0, 160.0, 180.0, 200.0, 270.0, 290.0, 310.0}

  /** The reachable positions are closed under both keys and lie in [50, 310]. */
  lemma HopStaysOnStops(x: real, left: bool)
    requires x in Stops
    ensures Hop(x, left) in Stops && 50.0 <= Hop(x, left) <= 310.0
  {
  }

  /** From every reachable position the car spans exactly one lane's column. */
  lemma StopsSpanOneLane(x: real)
    requires x in Stops
    ensures exists lane | lane in Lanes :: x < lane + 40.0 && x + 40.0 > lane
    ensures forall a, b | a in Lanes && b in Lanes && x < a + 40.0 && x + 40.0 > a && x < b + 40.0 && x + 40.0 > b :: a == b
  {
    var lane := if x < 130.0 then 60.0 else if x < 240.0 then 170.0 else 280.0;
    assert lane in Lanes && x < lane + 40.0 && x + 40.0 > lane;
  }

  /** The closure state of `loadRace` once `reset` has run. */
  class Game {
    var player: Box
    var obstacles: seq<Obstacle>
    var score: int
    var speed: real
    var gameOver: bool

    /**
     * The car is a 40x60 box at y = 400 on one of the reachable stops, the
     * road speed matches the score, and the score counts updates.
     */
    predicate Valid()
      reads this
    {
      player == Start.(x := player.x) && player.x in Stops && score >= 0 && speed == Pace(score)
    }

    /** `reset`; the interval timer is not modelled. */
    constructor ()
      ensures Valid() && player == Start && obstacles == [] && score == 0 && speed == 5.0 && !gameOver
    {
      player := Box(180.0, 400.0, 40.0, 60.0);
      obstacles := [];
      score := 0;
      speed := 5.0;
      gameOver := false;
    }

    /** `reset`, on an existing game. */
    method Reset()
      modifies this
      ensures Valid() && player == Start && obstacles == [] && score == 0 && speed == 5.0 && !gameOver
    {
      player := Box(180.0, 400.0, 40.0, 60.0);
      obstacles := [];
      score := 0;
      speed := 5.0;
      gameOver := false;
    }

    /** `obstacles.forEach(o => o.y += o.speed + (speed * 0.5))`. */
    method MoveObstacles()
      modifies this`obstacles
      ensures obstacles == Moved(old(obstacles), speed)
    {
      var i := 0;
      while i < |obstacles|
        invariant 0 <= i <= |obstacles| == |old(obstacles)|
        invariant forall k | 0 <= k < i :: obstacles[k] == Moved(old(obstacles), speed)[k]
        invariant forall k | i <= k < |obstacles| :: obstacles[k] == old(obstacles[k])
      {
        var o := obstacles[i];
        obstacles := obstacles[i := o.(box := o.box.(y := o.box.y + (o.speed + speed * 0.5)))];
        i := i + 1;
      }
    }

    /**
     * `update`; `uSpawn`, `uLane` and `uSpeed` are the draws for the spawn
     * test, the lane and the new car's speed. Returns the displayed score.
     */
    method Update(uSpawn: real, uLane: real, uSpeed: real) returns (shown: int)
      requires Valid() && 0.0 <= uLane < 1.0
      modifies this`score, this`speed, this`obstacles, this`gameOver
      ensures Valid() && shown == score / 10
      ensures old(gameOver) ==> gameOver && score == old(score) && obstacles == old(obstacles)
      ensures !old(gameOver) ==>
        score == old(score) + 1
        && obstacles == OnScreen(Moved(old(obstacles) + (if Spawns(uSpawn, score) then [Spawned(uLane, uSpeed)] else []), speed))
        && (gameOver <==> Crashed(player, obstacles))
    {
      if gameOver {
        return score / 10;
      }
      PaceStep(score);
      score := score + 1;
      if score % 200 == 0 {
        speed := speed + 0.5;
      }
      assert speed == Pace(score);
      ghost var spawned := if Spawns(uSpawn, score) then [Spawned(uLane, uSpeed)] else [];
      if uSpawn < 0.02 + score as real * 0.00001 {
        var lane := (uLane * 3.0).Floor as real * 110.0 + 60.0;
        obstacles := obstacles + [Obstacle(Box(lane, -100.0, 40.0, 60.0), 4.0 + uSpeed * 3.0)];
      }
      assert obstacles == old(obstacles) + spawned;
      MoveObstacles();
      obstacles := OnScreen(obstacles);
      shown := score / 10;
      gameOver := Crashed(player, obstacles);
    }

    /** `onKey`: an arrow key hops the car one lane, ignored after a crash. */
    method OnKey(key: string)
      requires Valid()
      modifies this`player
      ensures Valid() && player.y == old(player.y)
      ensures gameOver || key !in {"ArrowLeft", "ArrowRight"} ==> player == old(player)
      ensures !gameOver && key == "ArrowLeft" ==> player.x == Hop(old(player.x), true)
      ensures !gameOver && key == "ArrowRight" ==> player.x == Hop(old(player.x), false)
    {
      if gameOver {
        return;
      }
      if key == "ArrowLeft" || key == "ArrowRight" {
        if key == "ArrowLeft" {
          HopStaysOnStops(player.x, true);
          player := player.(x := if 50.0 >= player.x - 110.0 then 50.0 else player.x - 110.0);
        }
        if key == "ArrowRight" {
          HopStaysOnStops(player.x, false);
          player := player.(x := if 310.0 <= player.x + 110.0 then 310.0 else player.x + 110.0);
        }
      }
    }
  }
}
