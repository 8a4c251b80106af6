/**
 * The snake game on a 20x20 grid: the snake advances one cell per tick in
 * its current direction, grows when its head reaches the food, and the game
 * ends when the head would leave the grid or land on a segment.
 */
module Snake {

  const TileCount: int := 20

  datatype Pos = Pos(x: int, y: int)

  predicate InGrid(p: Pos)
  {
    0 <= p.x < TileCount && 0 <= p.y < TileCount
  }

  /** No segment repeats. */
  predicate Distinct(body: seq<Pos>)
  {
    forall i, j | 0 <= i < j < |body| :: body[i] != body[j]
  }

  /** A direction: one of dx, dy is 1 or -1 and the other is 0. */
  predicate Unit(dx: int, dy: int)
  {
    (dx == 0 && (dy == 1 || dy == -1)) || (dy == 0 && (dx == 1 || dx == -1))
  }

  /** The cell the head moves to. */
  function NextHead(head: Pos, dx: int, dy: int): Pos
  {
    Pos(head.x + dx, head.y + dy)
  }

  /** The collision test of `step`: off the grid, or onto any current segment. */
  predicate Blocked(head: Pos, body: seq<Pos>)
  {
    !InGrid(head) || head in body
  }

  /** `Math.floor(u * tileCount)` for `u` drawn from [0, 1). */
  function Cell(u: real): (k: int)
    requires 0.0 <= u < 1.0
    ensures 0 <= k < TileCount
  {
    var x := u * TileCount as real;
    assert x < TileCount as real;
    x.Floor
  }

  predicate Draws(tries: seq<(real, real)>)
  {
    forall k | 0 <= k < |tries| :: 0.0 <= tries[k].0 < 1.0 && 0.0 <= tries[k].1 < 1.0
  }

  function DrawnAt(tries: seq<(real, real)>, k: int): Pos
    requires Draws(tries) && 0 <= k < |tries|
  {
    Pos(Cell(tries[k].0), Cell(tries[k].1))
  }

  /** Some draw lands off the body: the retries of `spawnFood` then come to an end. */
  predicate Lands(tries: seq<(real, real)>, body: seq<Pos>)
  {
    Draws(tries) && exists k | 0 <= k < |tries| :: DrawnAt(tries, k) !in body
  }

  /** Where `spawnFood` puts the food: the first draw that misses the body. */
  function FoodFrom(tries: seq<(real, real)>, body: seq<Pos>): (p: Pos)
    requires Lands(tries, body)
    ensures InGrid(p) && p !in body
    decreases |tries|
  {
    var first := DrawnAt(tries, 0);
    if first !in body then first
    else
      assert Lands(tries[1..], body) by {
        var k :| 0 <= k < |tries| && DrawnAt(tries, k) !in body;
        assert k > 0 && DrawnAt(tries[1..], k - 1) == DrawnAt(tries, k);
      }
      FoodFrom(tries[1..], body)
  }

  /** The direction after a (lower-cased) key: only a perpendicular turn is taken. */
  function Turn(dx: int, dy: int, key: string): (d: (int, int))
    ensures Unit(dx, dy) ==> Unit(d.0, d.1) && (d == (dx, dy) || d.0 * dx + d.1 * dy == 0)
  {
    var d1 := if (key == "arrowup" || key == "w") && dy == 0 then (0, -1) else (dx, dy);
    var d2 := if (key == "arrowdown" || key == "s") && d1.1 == 0 then (0, 1) else d1;
    var d3 := if (key == "arrowleft" || key == "a") && d2.0 == 0 then (-1, 0) else d2;
    if (key == "arrowright" || key == "d") && d3.0 == 0 then (1, 0) else d3
  }

  /** A key keeps the direction or turns it a quarter: never a reversal in one press. */
  lemma TurnIsQuarter(dx: int, dy: int, key: string)
    requires Unit(dx, dy)
    ensures var (ndx, ndy) := Turn(dx, dy, key);
      Unit(ndx, ndy) && ((ndx, ndy) == (dx, dy) || ndx * dx + ndy * dy == 0)
  {
  }

  /** Keys other than the eight direction keys change nothing. */
  lemma TurnIgnoresOtherKeys(dx: int, dy: int, key: string)
    requires key !in {"arrowup", "arrowdown", "arrowleft", "arrowright", "w", "a", "s", "d"}
    ensures Turn(dx, dy, key) == (dx, dy)
  {
  }

  /**
   * Two quarter turns between ticks make a reversal: heading right, "up" then
   * "left" points the head back at the neck, and the next tick crashes.
   */
  lemma QuickDoubleTurnCrashes(body: seq<Pos>)
    requires |body| >= 2 && body[1] == Pos(body[0].x - 1, body[0].y)
    ensures var d := Turn(1, 0, "arrowup");
      var e := Turn(d.0, d.1, "arrowleft");
      e == (-1, 0) && Blocked(NextHead(body[0], e.0, e.1), body)
  {
    assert NextHead(body[0], -1, 0) == body[1];
  }

  /** The body after a tick that does not crash: gains the head, and drops the tail unless it eats. */
  function Advanced(body: seq<Pos>, head: Pos, food: Pos): (nb: seq<Pos>)
    requires |body| > 0
    ensures |nb| == if head == food then |body| + 1 else |body|
    ensures nb[0] == head && nb[1..] == if head == food then body else body[..|body| - 1]
  {
    if head == food then [head] + body else [head] + body[..|body| - 1]
  }

  /** A tick that does not crash keeps the body on the grid, distinct and off the food. */
  lemma AdvancedKeepsShape(body: seq<Pos>, head: Pos, food: Pos)
    requires |body| > 0 && (forall k | 0 <= k < |body| :: InGrid(body[k])) && Distinct(body)
    requires !Blocked(head, body) && food !in body
    ensures var nb := Advanced(body, head, food);
      (forall k | 0 <= k < |nb| :: InGrid(nb[k])) && Distinct(nb)
      && (head != food ==> food !in nb)
  {
    var nb := Advanced(body, head, food);
    forall i, j | 0 <= i < j < |nb|
      ensures nb[i] != nb[j]
    {
      if i == 0 {
        assert nb[j] == body[j - 1];
      } else {
        assert nb[i] == body[i - 1] && nb[j] == body[j - 1];
      }
    }
    forall k | 0 <= k < |nb|
      ensures InGrid(nb[k])
    {
      if k > 0 { assert nb[k] == body[k - 1]; }
    }
    if head != food {
      forall k | 0 <= k < |nb|
        ensures nb[k] != food
      {
        if k > 0 { assert nb[k] == body[k - 1]; }
      }
    }
  }

  const StartBody: seq<Pos> := [Pos(10, 10), Pos(10, 11), Pos(10, 12)]
  const StartFood: Pos := Pos(5, 5)

  /** The closure state of `loadSnake`. */
  class Game {
    var snake: seq<Pos>
    var food: Pos
    var dx: int
    var dy: int
    var score: int
    var gameOver: bool

    /**
     * The snake is at least three long, on the grid, without repeats; the
     * food lies off it; the direction is a unit step; and the score counts
     * the growth.
     */
    predicate Valid()
      reads this
    {
      |snake| >= 3 && (forall k | 0 <= k < |snake| :: InGrid(snake[k])) && Distinct(snake)
      && food !in snake && Unit(dx, dy) && score == |snake| - 3
    }

    /** The next head, were the snake to move now. */
    function Ahead(): Pos
      reads this
      requires |snake| > 0
    {
      NextHead(snake[0], dx, dy)
    }

    /** The next tick eats, so `spawnFood` runs. */
    predicate Eats()
      reads this
      requires |snake| > 0
    {
      !gameOver && !Blocked(Ahead(), snake) && Ahead() == food
    }

    constructor ()
      ensures Valid() && snake == StartBody && food == StartFood
      ensures (dx, dy) == (0, -1) && score == 0 && !gameOver
    {
      snake, food, dx, dy, score, gameOver := StartBody, StartFood, 0, -1, 0, false;
    }

    /** `reset`: the start position, heading up; the interval timer is not modelled. */
    method Reset()
      modifies this
      ensures Valid() && snake == StartBody && food == StartFood
      ensures (dx, dy) == (0, -1) && score == 0 && !gameOver
    {
      snake := [Pos(10, 10), Pos(10, 11), Pos(10, 12)];
      food := Pos(5, 5);
      dx, dy := 0, -1;
      score := 0;
      gameOver := false;
    }

    /** `spawnFood`, retrying recursively until a draw misses the snake. */
    method SpawnFood(tries: seq<(real, real)>)
      requires Lands(tries, snake)
      modifies this`food
      ensures food == FoodFrom(tries, snake)
      decreases |tries|
    {
      food := Pos(Cell(tries[0].0), Cell(tries[0].1));
      if food in snake {
        assert Lands(tries[1..], snake) by {
          var k :| 0 <= k < |tries| && DrawnAt(tries, k) !in snake;
          assert k > 0 && DrawnAt(tries[1..], k - 1) == DrawnAt(tries, k);
        }
        SpawnFood(tries[1..]);
      }
    }

    /** `step`, one tick; `tries` are the draws `spawnFood` would use. */
    method Step(tries: seq<(real, real)>)
      requires Valid()
      requires Eats() ==> Lands(tries, [Ahead()] + snake)
      modifies this
      ensures Valid() && dx == old(dx) && dy == old(dy)
      ensures old(gameOver) ==> snake == old(snake) && food == old(food) && score == old(score) && gameOver
      ensures !old(gameOver) && Blocked(old(Ahead()), old(snake)) ==>
        gameOver && snake == old(snake) && food == old(food) && score == old(score)
      ensures !old(gameOver) && !Blocked(old(Ahead()), old(snake)) ==>
        !gameOver && snake == Advanced(old(snake), old(Ahead()), old(food))
        && (old(Ahead()) == old(food) ==> score == old(score) + 1 && food == FoodFrom(tries, snake))
        && (old(Ahead()) != old(food) ==> score == old(score) && food == old(food))
    {
      if gameOver {
        return;
      }
      var head := Pos(snake[0].x + dx, snake[0].y + dy);
      if head.x < 0 || head.x >= TileCount || head.y < 0 || head.y >= TileCount || head in snake {
        gameOver := true;
        return;
      }
      AdvancedKeepsShape(snake, head, food);
      snake := [head] + snake;
      if head == food {
        score := score + 1;
        SpawnFood(tries);
      } else {
        snake := snake[..|snake| - 1];
      }
      assert snake == Advanced(old(snake), head, old(food));
    }

    /** `onKey`: a perpendicular turn, ignored once the game is over. */
    method OnKey(key: string)
      requires Valid()
      modifies this`dx, this`dy
      ensures Valid()
      ensures gameOver ==> dx == old(dx) && dy == old(dy)
      ensures !gameOver ==> (dx, dy) == Turn(old(dx), old(dy), key)
    {
      if gameOver {
        return;
      }
      TurnIsQuarter(dx, dy, key);
      if (key == "arrowup" || key == "w") && dy == 0 {
        dx, dy := 0, -1;
      }
      if (key == "arrowdown" || key == "s") && dy == 0 {
        dx, dy := 0, 1;
      }
      if (key == "arrowleft" || key == "a") && dx == 0 {
        dx, dy := -1, 0;
      }
      if (key == "arrowright" || key == "d") && dx == 0 {
        dx, dy := 1, 0;
      }
    }
  }
}
