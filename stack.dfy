/**
 * The stacking game: a crate slides back and forth above the tower; a drop
 * keeps only the part that overlaps the crate below, and the game ends when
 * that part is 10 units wide or less.
 */
module Stack {

  const Width: real := 400.0

  /** A crate: left edge, top, width, and its colour as an index into the six-colour palette. */
  datatype Block = Block(x: real, y: real, w: real, color: int)

  const Palette: int := 6

  function Max(a: real, b: real): real { if a >= b then a else b }
  function Min(a: real, b: real): real { if a <= b then a else b }
  function Abs(a: real): real { if a >= 0.0 then a else -a }

  /** The overlap of two crates' horizontal extents (negative when they are apart). */
  function Overlap(cur: Block, last: Block): (o: real)
    ensures o <= cur.w && o <= last.w
    ensures o == Min(cur.x + cur.w, last.x + last.w) - Max(cur.x, last.x)
  {
    Min(cur.x + cur.w, last.x + last.w) - Max(cur.x, last.x)
  }

  /** The crate a successful drop leaves on the tower. */
  function Placed(cur: Block, last: Block): (p: Block)
    ensures cur.x <= p.x && last.x <= p.x
    ensures p.x + p.w <= cur.x + cur.w && p.x + p.w <= last.x + last.w
    ensures p.y == cur.y && p.color == cur.color
  {
    Block(Max(cur.x, last.x), cur.y, Overlap(cur, last), cur.color)
  }

  /** The kept crate spans exactly the part the two crates share. */
  lemma PlacedInsideBoth(cur: Block, last: Block)
    requires Overlap(cur, last) > 10.0
    ensures var p := Placed(cur, last);
      last.x <= p.x && p.x + p.w <= last.x + last.w
      && cur.x <= p.x && p.x + p.w <= cur.x + cur.w
      && p.w <= last.w && p.w <= cur.w
      && (p.x == cur.x || p.x == last.x)
      && (p.x + p.w == cur.x + cur.w || p.x + p.w == last.x + last.w)
  {
  }

  /** Every crate lowered by 30. */
  function Lowered(blocks: seq<Block>): (r: seq<Block>)
    ensures |r| == |blocks|
    ensures forall k | 0 <= k < |r| :: r[k] == blocks[k].(y := blocks[k].y + 30.0)
  {
    seq(|blocks|, k requires 0 <= k < |blocks| => blocks[k].(y := blocks[k].y + 30.0))
  }

  /** Widths never grow going up the tower. */
  predicate Narrowing(blocks: seq<Block>)
  {
    forall i, j | 0 <= i < j < |blocks| :: blocks[j].w <= blocks[i].w
  }

  /** A crate no wider than the top one keeps the tower narrowing. */
  lemma PushKeepsNarrowing(blocks: seq<Block>, p: Block)
    requires |blocks| > 0 && Narrowing(blocks) && p.w <= blocks[|blocks| - 1].w
    ensures Narrowing(blocks + [p])
  {
    var grown := blocks + [p];
    forall i, j | 0 <= i < j < |grown|
      ensures grown[j].w <= grown[i].w
    {
      if j == |blocks| {
        assert blocks[i].w >= blocks[|blocks| - 1].w;
      }
    }
  }

  /** Lowering keeps every width. */
  lemma LoweredKeepsWidths(blocks: seq<Block>)
    ensures forall k | 0 <= k < |blocks| :: Lowered(blocks)[k].w == blocks[k].w
    ensures Narrowing(blocks) ==> Narrowing(Lowered(blocks))
  {
  }

  /**
   * A non-empty tower whose widths never grow and whose crates above the
   * base are wider than 10; the sliding crate is as wide as the top one and
   * lies between the walls; the score counts the crates above the base.
   */
  predicate Sound(blocks: seq<Block>, current: Block, score: int)
  {
    |blocks| >= 1 && Narrowing(blocks) && blocks[0].w <= 200.0
    && (forall k | 1 <= k < |blocks| :: blocks[k].w > 10.0)
    && current.w == blocks[|blocks| - 1].w && current.w > 10.0
    && 0.0 <= current.x <= Width - current.w
    && score == |blocks| - 1
  }

  /** The tower after a successful drop: the kept crate on top, and all lowered when it sits high. */
  function Dropped(blocks: seq<Block>, cur: Block): (r: seq<Block>)
    requires |blocks| > 0
    ensures |r| == |blocks| + 1
  {
    var grown := blocks + [Placed(cur, blocks[|blocks| - 1])];
    if cur.y < 200.0 then Lowered(grown) else grown
  }

  /** The next sliding crate: at a wall picked by the draw, 30 above the top, as wide as the overlap. */
  function NextCrate(tower: seq<Block>, o: real, score: int, u1: real): Block
    requires |tower| > 0
  {
    Block(if Heads(u1) then 0.0 else Width - o, tower[|tower| - 1].y - 30.0, o, score % Palette)
  }

  /** A drop that keeps more than 10 units keeps the tower sound, one crate higher. */
  lemma DropKeepsSound(blocks: seq<Block>, cur: Block, score: int, u1: real)
    requires Sound(blocks, cur, score) && Overlap(cur, blocks[|blocks| - 1]) > 10.0
    ensures var tower := Dropped(blocks, cur);
      Sound(tower, NextCrate(tower, Overlap(cur, blocks[|blocks| - 1]), score + 1, u1), score + 1)
  {
    var last := blocks[|blocks| - 1];
    PlacedInsideBoth(cur, last);
    var grown := blocks + [Placed(cur, last)];
    PushKeepsNarrowing(blocks, Placed(cur, last));
    LoweredKeepsWidths(grown);
    assert forall k | 1 <= k < |grown| :: grown[k].w > 10.0;
  }

  const Base: Block := Block(100.0, 470.0, 200.0, 0)
  const First: Block := Block(0.0, 440.0, 200.0, 1)

  /** The inputs `handleInput` answers with a drop: a fresh press of space, up arrow, `w` or Enter, or a press on the canvas. */
  predicate DropsOn(isKey: bool, key: string, onCanvas: bool, repeat: bool)
  {
    !repeat && (if isKey then key in {" ", "ArrowUp", "w", "Enter"} else onCanvas)
  }

  /** `Math.random() > 0.5`. */
  predicate Heads(u: real) { u > 0.5 }

  /** The closure state of `loadStack`. */
  class Game {
    var blocks: seq<Block>
    var current: Block
    var dir: real
    var score: int
    var isGameOver: bool

    predicate Valid()
      reads this
    {
      Sound(blocks, current, score)
    }

    constructor ()
      ensures Valid() && blocks == [Base] && current == First && dir == 3.0 && score == 0 && !isGameOver
    {
      blocks, current, dir, score, isGameOver := [Base], First, 3.0, 0, false;
    }

    /** `reset`; the interval timer is not modelled. */
    method Reset()
      modifies this
      ensures Valid() && blocks == [Base] && current == First && dir == 3.0 && score == 0 && !isGameOver
    {
      score := 0;
      isGameOver := false;
      blocks := [Block(100.0, 470.0, 200.0, 0)];
      current := Block(0.0, 440.0, 200.0, 1);
      dir := 3.0;
    }

    /** `update`: slide, and bounce off a wall pointing back into the field. */
    method Update()
      requires Valid()
      modifies this`current, this`dir
      ensures Valid() && current.w == old(current.w) && current.y == old(current.y)
      ensures old(isGameOver) ==> current == old(current) && dir == old(dir)
      ensures !old(isGameOver) ==>
        var x := old(current.x) + old(dir);
        (x < 0.0 ==> current.x == 0.0 && dir == Abs(old(dir)) && dir >= 0.0)
        && (0.0 <= x && x + current.w > Width ==> current.x == Width - current.w && dir == -Abs(old(dir)) && dir <= 0.0)
        && (0.0 <= x && x + current.w <= Width ==> current.x == x && dir == old(dir))
    {
      if isGameOver {
        return;
      }
      current := current.(x := current.x + dir);
      if current.x < 0.0 {
        current := current.(x := 0.0);
        dir := Abs(dir);
      } else if current.x + current.w > Width {
        current := current.(x := Width - current.w);
        dir := -Abs(dir);
      }
    }

    /** `blocks.forEach(b => b.y += 30)`. */
    method LowerAll()
      modifies this`blocks
      ensures blocks == Lowered(old(blocks))
    {
      var i := 0;
      while i < |blocks|
        invariant 0 <= i <= |blocks| == |old(blocks)|
        invariant forall k | 0 <= k < i :: blocks[k] == old(blocks[k]).(y := old(blocks[k]).y + 30.0)
        invariant forall k | i <= k < |blocks| :: blocks[k] == old(blocks[k])
      {
        blocks := blocks[i := blocks[i].(y := blocks[i].y + 30.0)];
        i := i + 1;
      }
    }

    /** `drop`; `u1` and `u2` are the draws for the next crate's side and direction. */
    method Drop(u1: real, u2: real)
      requires Valid()
      modifies this
      ensures Valid()
      ensures old(isGameOver) ==>
        blocks == old(blocks) && current == old(current) && dir == old(dir) && score == old(score) && isGameOver
      ensures !old(isGameOver) && Overlap(old(current), old(blocks[|blocks| - 1])) <= 10.0 ==>
        isGameOver && blocks == old(blocks) && score == old(score)
      ensures !old(isGameOver) && Overlap(old(current), old(blocks[|blocks| - 1])) > 10.0 ==>
        !isGameOver && score == old(score) + 1
        && blocks == Dropped(old(blocks), old(current))
        && current == NextCrate(blocks, Overlap(old(current), old(blocks[|blocks| - 1])), score, u1)
        && dir == (3.0 + score as real * 0.2) * (if Heads(u2) then 1.0 else -1.0)
    {
      if !isGameOver {
        var last := blocks[|blocks| - 1];
        var left := Max(current.x, last.x);
        var right := Min(current.x + current.w, last.x + last.w);
        var overlap := right - left;
        if overlap > 10.0 {
          Land(left, overlap, u1, u2);
        } else {
          isGameOver := true;
        }
      }
    }

    /** The successful branch of `drop`: the kept part joins the tower, which sinks when high, and the next crate starts. */
    method Land(left: real, overlap: real, u1: real, u2: real)
      requires Valid() && !isGameOver
      requires left == Max(current.x, blocks[|blocks| - 1].x) && overlap == Overlap(current, blocks[|blocks| - 1]) > 10.0
      modifies this`blocks, this`score, this`current, this`dir
      ensures Valid() && score == old(score) + 1
      ensures blocks == Dropped(old(blocks), old(current))
      ensures current == NextCrate(blocks, overlap, score, u1)
      ensures dir == (3.0 + score as real * 0.2) * (if Heads(u2) then 1.0 else -1.0)
    {
      DropKeepsSound(blocks, current, score, u1);
      ghost var tower := Dropped(blocks, current);
      ghost var next := NextCrate(tower, overlap, score + 1, u1);
      assert Placed(current, blocks[|blocks| - 1]) == Block(left, current.y, overlap, current.color);
      blocks := blocks + [Block(left, current.y, overlap, current.color)];
      score := score + 1;
      if current.y < 200.0 {
        LowerAll();
      }
      assert blocks == tower;
      var nextY := blocks[|blocks| - 1].y - 30.0;
      current := Block(if u1 > 0.5 then 0.0 else Width - overlap, nextY, overlap, score % Palette);
      assert current == next;
      dir := (3.0 + score as real * 0.2) * (if u2 > 0.5 then 1.0 else -1.0);
    }

    /** `handleInput`: space, up arrow, `w` or Enter (not auto-repeated), or a press on the canvas, drops. */
    method HandleInput(isKey: bool, key: string, onCanvas: bool, repeat: bool, u1: real, u2: real)
      requires Valid()
      modifies this
      ensures Valid()
      ensures !DropsOn(isKey, key, onCanvas, repeat) ==>
        blocks == old(blocks) && current == old(current) && dir == old(dir)
        && score == old(score) && isGameOver == old(isGameOver)
      ensures DropsOn(isKey, key, onCanvas, repeat) && old(isGameOver) ==>
        blocks == old(blocks) && current == old(current) && dir == old(dir) && score == old(score) && isGameOver
      ensures DropsOn(isKey, key, onCanvas, repeat) && !old(isGameOver) ==>
        var o := Overlap(old(current), old(blocks[|blocks| - 1]));
        (o > 10.0 ==>
           !isGameOver && score == old(score) + 1 && blocks == Dropped(old(blocks), old(current))
           && current == NextCrate(blocks, o, score, u1)
           && dir == (3.0 + score as real * 0.2) * (if Heads(u2) then 1.0 else -1.0))
        && (o <= 10.0 ==> isGameOver && blocks == old(blocks) && score == old(score))
    {
      if repeat {
        return;
      }
      if isKey {
        if key == " " || key == "ArrowUp" || key == "w" || key == "Enter" {
          Drop(u1, u2);
        }
      } else if onCanvas {
        Drop(u1, u2);
      }
    }
  }
}
