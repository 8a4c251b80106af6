/**
 * The 2048 game: a 4x4 board of numbered tiles, moved in one of four
 * directions; equal neighbours merge once per move, a random tile appears
 * after every move that changed the board, and the game ends when nothing
 * can move.
 */
module Game2048 {
  import opened Wrappers

  /** A tile: its value and the identity its on-screen element is keyed by. */
  datatype Tile = Tile(val: int, id: int)
  type Cell = Option<Tile>
  type Board = seq<seq<Cell>>

  predicate IsGrid(b: Board)
  {
    |b| == 4 && forall r | 0 <= r < 4 :: |b[r]| == 4
  }

  // ---------------------------------------------------------------------------
  // Directions
  // ---------------------------------------------------------------------------

  /** The direction a (lower-cased) key means: 0 left, 1 up, 2 right, 3 down. */
  function KeyDirection(key: string): (d: Option<int>)
    ensures d.Some? ==> 0 <= d.value < 4
    ensures d == Some(0) <==> key == "arrowleft" || key == "a"
    ensures d == Some(1) <==> key == "arrowup" || key == "w"
    ensures d == Some(2) <==> key == "arrowright" || key == "d"
    ensures d == Some(3) <==> key == "arrowdown" || key == "s"
  {
    if key == "arrowleft" || key == "a" then Some(0)
    else if key == "arrowup" || key == "w" then Some(1)
    else if key == "arrowright" || key == "d" then Some(2)
    else if key == "arrowdown" || key == "s" then Some(3)
    else None
  }

  /** Up and down walk columns. */
  predicate IsVert(dir: int) { dir % 2 != 0 }

  /** Right and down pack toward the high end of the line. */
  predicate IsRev(dir: int) { dir > 1 }

  /** The board coordinates of position `j` of line `i`. */
  function At(dir: int, i: int, j: int): (rc: (int, int))
    ensures IsVert(dir) ==> rc == (j, i)
    ensures !IsVert(dir) ==> rc == (i, j)
  {
    if IsVert(dir) then (j, i) else (i, j)
  }

  lemma DirectionEncoding()
    ensures !IsVert(0) && !IsRev(0)
    ensures IsVert(1) && !IsRev(1)
    ensures !IsVert(2) && IsRev(2)
    ensures IsVert(3) && IsRev(3)
  {
  }

  // ---------------------------------------------------------------------------
  // One line
  // ---------------------------------------------------------------------------

  function Total(line: seq<Tile>): int
  {
    if |line| == 0 then 0 else line[0].val + Total(line[1..])
  }

  predicate NoEqualNeighbours(line: seq<Tile>)
  {
    forall k | 0 <= k < |line| - 1 :: line[k].val != line[k + 1].val
  }

  /**
   * Left-greedy merging: a tile equal to its successor absorbs it and the
   * pair is skipped. Also returns the score gained, the merged values' sum.
   */
  function Merge(line: seq<Tile>): (r: (seq<Tile>, int))
    ensures |r.0| <= |line| <= 2 * |r.0|
    decreases |line|
  {
    if |line| == 0 then ([], 0)
    else if |line| >= 2 && line[0].val == line[1].val then
      var rest := Merge(line[2..]);
      ([line[0].(val := line[0].val * 2)] + rest.0, line[0].val * 2 + rest.1)
    else
      var rest := Merge(line[1..]);
      ([line[0]] + rest.0, rest.1)
  }

  lemma {:induction false} TotalAppend(a: seq<Tile>, b: seq<Tile>)
    ensures Total(a + b) == Total(a) + Total(b)
    decreases |a|
  {
    if |a| > 0 {
      assert (a + b)[0] == a[0] && (a + b)[1..] == a[1..] + b;
      TotalAppend(a[1..], b);
    } else {
      assert a + b == b;
    }
  }

  /** Merging keeps the sum of the tile values. */
  lemma {:induction false} MergeKeepsTotal(line: seq<Tile>)
    ensures Total(Merge(line).0) == Total(line)
    decreases |line|
  {
    if |line| >= 2 && line[0].val == line[1].val {
      MergeKeepsTotal(line[2..]);
      assert line[1..][1..] == line[2..];
    } else if |line| > 0 {
      MergeKeepsTotal(line[1..]);
    }
  }

  /**
   * Each tile merges at most once: the line shrinks by at most half, it keeps
   * its length exactly when nothing merged, and with positive values the gain
   * is positive exactly then too.
   */
  lemma {:induction false} MergeShape(line: seq<Tile>)
    ensures var (m, gain) := Merge(line);
      |line| - |line| / 2 <= |m| <= |line|
      && (|m| == |line| <==> NoEqualNeighbours(line))
      && (NoEqualNeighbours(line) ==> m == line && gain == 0)
      && ((forall k | 0 <= k < |line| :: line[k].val > 0) ==> (gain == 0 <==> |m| == |line|) && gain >= 0)
    decreases |line|
  {
    if |line| >= 2 && line[0].val == line[1].val {
      MergeShape(line[2..]);
      assert !NoEqualNeighbours(line) by { assert line[0].val == line[1].val; }
      if forall k | 0 <= k < |line| :: line[k].val > 0 {
        assert forall k | 0 <= k < |line[2..]| :: line[2..][k].val > 0 by {
          forall k | 0 <= k < |line[2..]| ensures line[2..][k].val > 0 { assert line[2..][k] == line[k + 2]; }
        }
      }
    } else if |line| > 0 {
      var tail := line[1..];
      MergeShape(tail);
      assert NoEqualNeighbours(line) <==> NoEqualNeighbours(tail) by {
        if NoEqualNeighbours(tail) {
          forall k | 0 <= k < |line| - 1 ensures line[k].val != line[k + 1].val {
            if k > 0 { assert tail[k - 1] == line[k] && tail[k] == line[k + 1]; }
          }
        }
        if NoEqualNeighbours(line) {
          forall k | 0 <= k < |tail| - 1 ensures tail[k].val != tail[k + 1].val {
            assert tail[k] == line[k + 1] && tail[k + 1] == line[k + 2];
          }
        }
      }
      if forall k | 0 <= k < |line| :: line[k].val > 0 {
        assert forall k | 0 <= k < |tail| :: tail[k].val > 0 by {
          forall k | 0 <= k < |tail| ensures tail[k].val > 0 { assert tail[k] == line[k + 1]; }
        }
      }
      if NoEqualNeighbours(line) {
        assert line == [line[0]] + tail;
      }
    }
  }

  /** Three equal tiles: the first pair merges, the third is left alone. */
  lemma MergeExamples()
    ensures Merge([Tile(2, 1), Tile(2, 2), Tile(2, 3), Tile(2, 4)]) == ([Tile(4, 1), Tile(4, 3)], 8)
    ensures Merge([Tile(2, 1), Tile(2, 2), Tile(2, 3)]) == ([Tile(4, 1), Tile(2, 3)], 4)
    ensures Merge([Tile(2, 1), Tile(2, 2), Tile(4, 3)]) == ([Tile(4, 1), Tile(4, 3)], 4)
  {
    var a := [Tile(2, 1), Tile(2, 2), Tile(2, 3), Tile(2, 4)];
    assert a[2..] == [Tile(2, 3), Tile(2, 4)] && a[2..][2..] == [];
    assert Merge(a[2..][2..]) == ([], 0);
    assert [Tile(4, 3)] + [] == [Tile(4, 3)];
    assert Merge(a[2..]) == ([Tile(4, 3)], 4);
    assert [Tile(4, 1)] + [Tile(4, 3)] == [Tile(4, 1), Tile(4, 3)];
    var b := [Tile(2, 1), Tile(2, 2), Tile(2, 3)];
    assert b[2..] == [Tile(2, 3)] && b[2..][1..] == [];
    assert Merge(b[2..][1..]) == ([], 0);
    assert [Tile(2, 3)] + [] == [Tile(2, 3)];
    assert Merge(b[2..]) == ([Tile(2, 3)], 0);
    assert [Tile(4, 1)] + [Tile(2, 3)] == [Tile(4, 1), Tile(2, 3)];
    var c := [Tile(2, 1), Tile(2, 2), Tile(4, 3)];
    assert c[2..] == [Tile(4, 3)] && c[2..][1..] == [];
    assert Merge(c[2..][1..]) == ([], 0);
    assert [Tile(4, 3)] + [] == [Tile(4, 3)];
    assert Merge(c[2..]) == ([Tile(4, 3)], 0);
  }

  /** One step of the merge from position `k`: a pair merges, a lone tile is kept. */
  lemma MergeFrom(line: seq<Tile>, k: nat)
    requires k < |line|
    ensures k < |line| - 1 && line[k].val == line[k + 1].val ==>
      Merge(line[k..]) == ([line[k].(val := line[k].val * 2)] + Merge(line[k + 2..]).0, line[k].val * 2 + Merge(line[k + 2..]).1)
    ensures !(k < |line| - 1 && line[k].val == line[k + 1].val) ==>
      Merge(line[k..]) == ([line[k]] + Merge(line[k + 1..]).0, Merge(line[k + 1..]).1)
  {
    assert line[k..][0] == line[k] && line[k..][1..] == line[k + 1..];
    if k < |line| - 1 {
      assert line[k..][1] == line[k + 1] && line[k..][2..] == line[k + 2..];
    }
  }

  /** The merge loop of `move`, with its `skip` flag. */
  method MergeLine(line: seq<Tile>) returns (newLine: seq<Tile>, gained: int)
    ensures (newLine, gained) == Merge(line)
  {
    newLine, gained := [], 0;
    var skip := false;
    var k := 0;
    assert line[0..] == line && [] + Merge(line).0 == Merge(line).0;
    while k < |line|
      invariant 0 <= k <= |line|
      invariant skip ==> 0 < k < |line| && (newLine + Merge(line[k + 1..]).0, gained + Merge(line[k + 1..]).1) == Merge(line)
      invariant !skip ==> (newLine + Merge(line[k..]).0, gained + Merge(line[k..]).1) == Merge(line)
    {
      if skip {
        skip := false;
        k := k + 1;
        continue;
      }
      MergeFrom(line, k);
      if k < |line| - 1 && line[k].val == line[k + 1].val {
        var merged := line[k].(val := line[k].val * 2);
        assert newLine + [merged] + Merge(line[k + 2..]).0 == newLine + ([merged] + Merge(line[k + 2..]).0);
        newLine := newLine + [merged];
        gained := gained + merged.val;
        skip := true;
      } else {
        assert newLine + [line[k]] + Merge(line[k + 1..]).0 == newLine + ([line[k]] + Merge(line[k + 1..]).0);
        newLine := newLine + [line[k]];
      }
      k := k + 1;
    }
    assert line[k..] == [] && newLine + [] == newLine;
  }

  /** The tiles of a line of cells, in order. */
  function Tiles(cells: seq<Cell>): (ts: seq<Tile>)
    ensures |ts| <= |cells|
    decreases |cells|
  {
    if |cells| == 0 then []
    else if cells[0].Some? then [cells[0].value] + Tiles(cells[1..])
    else Tiles(cells[1..])
  }

  function Reverse<T>(s: seq<T>): (r: seq<T>)
    ensures |r| == |s|
    ensures forall k | 0 <= k < |s| :: r[k] == s[|s| - 1 - k]
    decreases |s|
  {
    if |s| == 0 then [] else Reverse(s[1..]) + [s[0]]
  }

  /** `newLine` padded with nulls up to four cells. */
  function Pad(ts: seq<Tile>): (cells: seq<Cell>)
    requires |ts| <= 4
    ensures |cells| == 4
    ensures forall k | 0 <= k < 4 :: cells[k] == if k < |ts| then Some(ts[k]) else None
  {
    seq(|ts|, k requires 0 <= k < |ts| => Some(ts[k])) + seq(4 - |ts|, _ => None)
  }

  /** The tiles of a line merged toward its start (or end, reversed) and padded to four cells. */
  function Compact(ts: seq<Tile>, rev: bool): (r: (seq<Cell>, int))
    requires |ts| <= 4
    ensures |r.0| == 4
  {
    var m := Merge(if rev then Reverse(ts) else ts);
    MergeShape(if rev then Reverse(ts) else ts);
    var padded := Pad(m.0);
    (if rev then Reverse(padded) else padded, m.1)
  }

  /** A line after a move: its tiles, compacted. */
  function Slide(cells: seq<Cell>, rev: bool): (r: (seq<Cell>, int))
    requires |cells| == 4
    ensures |r.0| == 4
  {
    Compact(Tiles(cells), rev)
  }

  /** Tiles sit before every empty cell. */
  predicate PackedFront(cells: seq<Cell>)
  {
    forall i, j | 0 <= i < j < |cells| :: cells[i].None? ==> cells[j].None?
  }

  /** Tiles sit after every empty cell. */
  predicate PackedBack(cells: seq<Cell>)
  {
    forall i, j | 0 <= i < j < |cells| :: cells[j].None? ==> cells[i].None?
  }

  /** A moved line is packed toward the move's wall, and keeps the total of its tiles. */
  lemma {:induction false} SlidePacked(cells: seq<Cell>, rev: bool)
    requires |cells| == 4
    ensures var (out, _) := Slide(cells, rev);
      (if rev then PackedBack(out) else PackedFront(out)) && Total(Tiles(out)) == Total(Tiles(cells))
  {
    var ts := Tiles(cells);
    var line := if rev then Reverse(ts) else ts;
    var m := Merge(line).0;
    MergeShape(line);
    var padded := Pad(m);
    TilesOfPad(m);
    MergeKeepsTotal(line);
    if rev {
      TotalReverse(ts);
      TilesReverse(padded);
      TotalReverse(m);
    }
  }

  lemma {:induction false} TilesOfPad(ts: seq<Tile>)
    requires |ts| <= 4
    ensures Tiles(Pad(ts)) == ts
  {
    var cells := Pad(ts);
    TilesOfSomes(cells, |ts|);
    assert cells[..|ts|] == seq(|ts|, k requires 0 <= k < |ts| => Some(ts[k]));
  }

  /** A prefix of `n` tiles followed by empty cells holds exactly those tiles. */
  lemma {:induction false} TilesOfSomes(cells: seq<Cell>, n: int)
    requires 0 <= n <= |cells|
    requires forall k | 0 <= k < |cells| :: cells[k].Some? <==> k < n
    ensures |Tiles(cells)| == n && forall k | 0 <= k < n :: Tiles(cells)[k] == cells[k].value
    decreases |cells|
  {
    if |cells| > 0 {
      if n > 0 {
        TilesOfSomes(cells[1..], n - 1);
      } else {
        TilesOfSomes(cells[1..], 0);
      }
    }
  }

  lemma {:induction false} TilesAppend(a: seq<Cell>, b: seq<Cell>)
    ensures Tiles(a + b) == Tiles(a) + Tiles(b)
    decreases |a|
  {
    if |a| > 0 {
      assert (a + b)[0] == a[0] && (a + b)[1..] == a[1..] + b;
      TilesAppend(a[1..], b);
    } else {
      assert a + b == b;
    }
  }

  lemma {:induction false} TilesReverse(cells: seq<Cell>)
    ensures Tiles(Reverse(cells)) == Reverse(Tiles(cells))
    decreases |cells|
  {
    if |cells| > 0 {
      TilesReverse(cells[1..]);
      assert Reverse(cells) == Reverse(cells[1..]) + [cells[0]];
      TilesAppend(Reverse(cells[1..]), [cells[0]]);
      assert [cells[0]][1..] == [];
      if cells[0].Some? {
        ReverseAppend([cells[0].value], Tiles(cells[1..]));
      }
    }
  }

  lemma {:induction false} ReverseAppend<T>(a: seq<T>, b: seq<T>)
    ensures Reverse(a + b) == Reverse(b) + Reverse(a)
  {
  }

  lemma {:induction false} TotalReverse(ts: seq<Tile>)
    ensures Total(Reverse(ts)) == Total(ts)
    decreases |ts|
  {
    if |ts| > 0 {
      TotalReverse(ts[1..]);
      TotalAppend(Reverse(ts[1..]), [ts[0]]);
      assert [ts[0]][1..] == [];
    }
  }

  // ---------------------------------------------------------------------------
  // Tile bookkeeping: positive values, identities below the counter
  // ---------------------------------------------------------------------------

  predicate TileOk(t: Tile, next: int)
  {
    t.val > 0 && t.id < next
  }

  predicate TilesOk(ts: seq<Tile>, next: int)
  {
    forall k | 0 <= k < |ts| :: TileOk(ts[k], next)
  }

  predicate CellsOk(cells: seq<Cell>, next: int)
  {
    forall k | 0 <= k < |cells| :: cells[k].Some? ==> TileOk(cells[k].value, next)
  }

  predicate BoardOk(b: Board, next: int)
    requires IsGrid(b)
  {
    forall r, c | 0 <= r < 4 && 0 <= c < 4 :: b[r][c].Some? ==> TileOk(b[r][c].value, next)
  }

  lemma {:induction false} TilesOfOk(cells: seq<Cell>, next: int)
    requires CellsOk(cells, next)
    ensures TilesOk(Tiles(cells), next)
    decreases |cells|
  {
    if |cells| > 0 {
      TilesOfOk(cells[1..], next);
    }
  }

  /** Merging doubles positive values and keeps identities. */
  lemma {:induction false} MergeOk(line: seq<Tile>, next: int)
    requires TilesOk(line, next)
    ensures TilesOk(Merge(line).0, next)
    decreases |line|
  {
    if |line| >= 2 && line[0].val == line[1].val {
      MergeOk(line[2..], next);
    } else if |line| > 0 {
      MergeOk(line[1..], next);
    }
  }

  lemma SlideOk(cells: seq<Cell>, rev: bool, next: int)
    requires |cells| == 4 && CellsOk(cells, next)
    ensures CellsOk(Slide(cells, rev).0, next)
  {
    var ts := Tiles(cells);
    TilesOfOk(cells, next);
    var line := if rev then Reverse(ts) else ts;
    MergeOk(line, next);
  }

  // ---------------------------------------------------------------------------
  // Whole board moves
  // ---------------------------------------------------------------------------

  /** Line `i` of the board as `move` reads it, from position 0 to 3. */
  function LineOf(b: Board, dir: int, i: int): (line: seq<Cell>)
    requires IsGrid(b) && 0 <= i < 4
    ensures |line| == 4
  {
    seq(4, j requires 0 <= j < 4 => b[At(dir, i, j).0][At(dir, i, j).1])
  }

  /** The line and the position in it that cell (r, c) belongs to. */
  function LinePos(dir: int, r: int, c: int): (ij: (int, int))
    ensures At(dir, ij.0, ij.1) == (r, c)
  {
    if IsVert(dir) then (c, r) else (r, c)
  }

  function SlideLine(b: Board, dir: int, i: int): (cells: seq<Cell>)
    requires IsGrid(b) && 0 <= i < 4
    ensures |cells| == 4
  {
    Slide(LineOf(b, dir, i), IsRev(dir)).0
  }

  /** The board once lines `0 .. n-1` have been moved. */
  function Moved(b: Board, dir: int, n: int): (nb: Board)
    requires IsGrid(b)
    ensures IsGrid(nb)
  {
    seq(4, r requires 0 <= r < 4 => seq(4, c requires 0 <= c < 4 =>
      var ij := LinePos(dir, r, c);
      if ij.0 < n then SlideLine(b, dir, ij.0)[ij.1] else b[r][c]))
  }

  /** The score gained by moving lines `0 .. n-1`. */
  function Gained(b: Board, dir: int, n: int): int
    requires IsGrid(b) && 0 <= n <= 4
  {
    if n == 0 then 0 else Gained(b, dir, n - 1) + Slide(LineOf(b, dir, n - 1), IsRev(dir)).1
  }

  /** Some of the lines `0 .. n-1` changes when moved. */
  predicate Changed(b: Board, dir: int, n: int)
    requires IsGrid(b) && 0 <= n <= 4
  {
    exists k | 0 <= k < n :: SlideLine(b, dir, k) != LineOf(b, dir, k)
  }

  /** A move and the score it gains. */
  function MoveBoard(b: Board, dir: int): (r: (Board, int))
    requires IsGrid(b)
    ensures IsGrid(r.0)
  {
    (Moved(b, dir, 4), Gained(b, dir, 4))
  }

  /** Board `b` with line `i` replaced by `cells`. */
  function Placed(b: Board, dir: int, i: int, cells: seq<Cell>): (nb: Board)
    requires IsGrid(b) && |cells| == 4
    ensures IsGrid(nb)
  {
    seq(4, r requires 0 <= r < 4 => seq(4, c requires 0 <= c < 4 =>
      var ij := LinePos(dir, r, c);
      if ij.0 == i then cells[ij.1] else b[r][c]))
  }

  lemma MovedNone(b: Board, dir: int)
    requires IsGrid(b)
    ensures Moved(b, dir, 0) == b
  {
    var nb := Moved(b, dir, 0);
    forall r | 0 <= r < 4
      ensures nb[r] == b[r]
    {
      assert forall c | 0 <= c < 4 :: nb[r][c] == b[r][c];
    }
  }

  /** Moving line `i` leaves the lines after it as they were. */
  lemma LineUntouched(b: Board, dir: int, i: int)
    requires IsGrid(b) && 0 <= i < 4
    ensures LineOf(Moved(b, dir, i), dir, i) == LineOf(b, dir, i)
  {
    var nb := Moved(b, dir, i);
    forall j | 0 <= j < 4
      ensures LineOf(nb, dir, i)[j] == LineOf(b, dir, i)[j]
    {
      var rc := At(dir, i, j);
      assert LinePos(dir, rc.0, rc.1) == (i, j);
    }
  }

  lemma MovedStep(b: Board, dir: int, i: int)
    requires IsGrid(b) && 0 <= i < 4
    ensures Moved(b, dir, i + 1) == Placed(Moved(b, dir, i), dir, i, SlideLine(b, dir, i))
  {
    var lhs := Moved(b, dir, i + 1);
    var rhs := Placed(Moved(b, dir, i), dir, i, SlideLine(b, dir, i));
    forall r | 0 <= r < 4
      ensures lhs[r] == rhs[r]
    {
      assert forall c | 0 <= c < 4 :: lhs[r][c] == rhs[r][c];
    }
  }

  lemma {:induction false} ChangedIffMoved(b: Board, dir: int)
    requires IsGrid(b)
    ensures Changed(b, dir, 4) <==> Moved(b, dir, 4) != b
  {
    var nb: Board := Moved(b, dir, 4);
    if Changed(b, dir, 4) {
      var k :| 0 <= k < 4 && SlideLine(b, dir, k) != LineOf(b, dir, k);
      var j :| 0 <= j < 4 && SlideLine(b, dir, k)[j] != LineOf(b, dir, k)[j];
      var rc := At(dir, k, j);
      assert LinePos(dir, rc.0, rc.1) == (k, j);
      assert nb[rc.0][rc.1] != b[rc.0][rc.1];
    }
    if nb != b {
      var r :| 0 <= r < 4 && nb[r] != b[r];
      var c :| 0 <= c < 4 && nb[r][c] != b[r][c];
      var ij := LinePos(dir, r, c);
      assert SlideLine(b, dir, ij.0)[ij.1] != LineOf(b, dir, ij.0)[ij.1];
    }
  }

  /**
   * After a move every line is packed toward the wall the move pushes to;
   * the tile values of each line keep their total.
   */
  lemma MoveBoardPacked(b: Board, dir: int, i: int)
    requires IsGrid(b) && 0 <= i < 4
    ensures var out := LineOf(MoveBoard(b, dir).0, dir, i);
      (if IsRev(dir) then PackedBack(out) else PackedFront(out))
      && Total(Tiles(out)) == Total(Tiles(LineOf(b, dir, i)))
  {
    var nb: Board := Moved(b, dir, 4);
    assert LineOf(nb, dir, i) == SlideLine(b, dir, i) by {
      forall j | 0 <= j < 4
        ensures LineOf(nb, dir, i)[j] == SlideLine(b, dir, i)[j]
      {
        var rc := At(dir, i, j);
        assert LinePos(dir, rc.0, rc.1) == (i, j);
      }
    }
    SlidePacked(LineOf(b, dir, i), IsRev(dir));
  }

  lemma MovedOk(b: Board, dir: int, next: int)
    requires IsGrid(b) && BoardOk(b, next)
    ensures BoardOk(Moved(b, dir, 4), next)
  {
    forall i | 0 <= i < 4
      ensures CellsOk(SlideLine(b, dir, i), next)
    {
      assert CellsOk(LineOf(b, dir, i), next) by {
        forall j | 0 <= j < 4 ensures var rc := At(dir, i, j); 0 <= rc.0 < 4 && 0 <= rc.1 < 4 {}
      }
      SlideOk(LineOf(b, dir, i), IsRev(dir), next);
    }
    var nb: Board := Moved(b, dir, 4);
    forall r: int, c: int | 0 <= r < 4 && 0 <= c < 4 && nb[r][c].Some?
      ensures TileOk(nb[r][c].value, next)
    {
      var ij := LinePos(dir, r, c);
      assert nb[r][c] == SlideLine(b, dir, ij.0)[ij.1];
    }
  }

  /** A moved line holds exactly the tiles the merge produced. */
  lemma SlideTiles(cells: seq<Cell>, rev: bool)
    requires |cells| == 4
    ensures var ts := Tiles(cells);
      |Tiles(Slide(cells, rev).0)| == |Merge(if rev then Reverse(ts) else ts).0|
  {
    var ts := Tiles(cells);
    var line := if rev then Reverse(ts) else ts;
    MergeShape(line);
    var m := Merge(line).0;
    TilesOfPad(m);
    if rev {
      TilesReverse(Pad(m));
    }
  }

  /** A line that a move leaves as it was gains nothing. */
  lemma StillLineGainsNothing(cells: seq<Cell>, rev: bool, next: int)
    requires |cells| == 4 && CellsOk(cells, next)
    requires Slide(cells, rev).0 == cells
    ensures Slide(cells, rev).1 == 0
  {
    var ts := Tiles(cells);
    TilesOfOk(cells, next);
    var line := if rev then Reverse(ts) else ts;
    SlideTiles(cells, rev);
    assert TilesOk(line, next) by {
      forall k | 0 <= k < |line| ensures TileOk(line[k], next) {
        if rev { assert line[k] == ts[|ts| - 1 - k]; }
      }
    }
    MergeShape(line);
  }

  /** A move that changes nothing adds nothing to the score. */
  lemma {:induction false} StillMoveGainsNothing(b: Board, dir: int, next: int, n: int)
    requires IsGrid(b) && BoardOk(b, next) && 0 <= n <= 4
    requires !Changed(b, dir, 4)
    ensures Gained(b, dir, n) == 0
    decreases n
  {
    if n > 0 {
      StillMoveGainsNothing(b, dir, next, n - 1);
      var i := n - 1;
      assert CellsOk(LineOf(b, dir, i), next) by {
        forall j | 0 <= j < 4 ensures var rc := At(dir, i, j); 0 <= rc.0 < 4 && 0 <= rc.1 < 4 {}
      }
      assert SlideLine(b, dir, i) == LineOf(b, dir, i);
      StillLineGainsNothing(LineOf(b, dir, i), IsRev(dir), next);
    }
  }

  // ---------------------------------------------------------------------------
  // Game over
  // ---------------------------------------------------------------------------

  predicate Full(b: Board)
    requires IsGrid(b)
  {
    forall r, c | 0 <= r < 4 && 0 <= c < 4 :: b[r][c].Some?
  }

  /** Cell (r, c) differs from its neighbours below and to the right. */
  predicate NoMergeAt(b: Board, r: int, c: int)
    requires IsGrid(b) && Full(b) && 0 <= r < 4 && 0 <= c < 4
  {
    (r < 3 ==> b[r + 1][c].value.val != b[r][c].value.val)
    && (c < 3 ==> b[r][c + 1].value.val != b[r][c].value.val)
  }

  /** No two neighbours in a row or a column hold equal values. */
  predicate Stuck(b: Board)
    requires IsGrid(b) && Full(b)
  {
    forall r, c | 0 <= r < 4 && 0 <= c < 4 :: NoMergeAt(b, r, c)
  }

  predicate GameOver(b: Board)
    requires IsGrid(b)
  {
    Full(b) && Stuck(b)
  }

  /** A full line of four cells, none equal to its neighbour, slides onto itself. */
  lemma FullLineStill(cells: seq<Cell>, rev: bool)
    requires |cells| == 4 && forall k | 0 <= k < 4 :: cells[k].Some?
    requires forall k | 0 <= k < 3 :: cells[k].value.val != cells[k + 1].value.val
    ensures Slide(cells, rev).0 == cells
  {
    TilesOfSomes(cells, 4);
    var ts := Tiles(cells);
    if rev {
      var line := Reverse(ts);
      assert NoEqualNeighbours(line) by {
        forall k | 0 <= k < 3 ensures line[k].val != line[k + 1].val {
          assert line[k] == ts[3 - k] && line[k + 1] == ts[2 - k];
        }
      }
      MergeShape(line);
      assert Reverse(Pad(line)) == cells;
    } else {
      assert NoEqualNeighbours(ts);
      MergeShape(ts);
      assert Pad(ts) == cells;
    }
  }

  /** On a board that is over no move changes anything. */
  lemma GameOverIsFinal(b: Board, dir: int)
    requires IsGrid(b) && GameOver(b)
    ensures MoveBoard(b, dir).0 == b
  {
    forall i | 0 <= i < 4
      ensures SlideLine(b, dir, i) == LineOf(b, dir, i)
    {
      var line := LineOf(b, dir, i);
      forall k | 0 <= k < 4 ensures line[k].Some? {
        var rc := At(dir, i, k);
      }
      forall k | 0 <= k < 3 ensures line[k].value.val != line[k + 1].value.val {
        var rc := At(dir, i, k);
        assert NoMergeAt(b, rc.0, rc.1);
      }
      FullLineStill(line, IsRev(dir));
    }
    assert !Changed(b, dir, 4);
    ChangedIffMoved(b, dir);
  }

  // ---------------------------------------------------------------------------
  // New tiles
  // ---------------------------------------------------------------------------

  /** The empty cells among the first `n` in row-major order, in that order. */
  function EmptyUpTo(b: Board, n: int): (e: seq<(int, int)>)
    requires IsGrid(b) && 0 <= n <= 16
    ensures forall k | 0 <= k < |e| :: 0 <= e[k].0 < 4 && 0 <= e[k].1 < 4 && b[e[k].0][e[k].1].None?
  {
    if n == 0 then []
    else EmptyUpTo(b, n - 1) + (if b[(n - 1) / 4][(n - 1) % 4].None? then [((n - 1) / 4, (n - 1) % 4)] else [])
  }

  /** All the empty cells (the count is written `4 * |b|` rather than 16 so that the solver does not unroll it). */
  function EmptyCells(b: Board): seq<(int, int)>
    requires IsGrid(b)
  {
    EmptyUpTo(b, 4 * |b|)
  }

  lemma DivMod4(r: int, c: int)
    requires 0 <= c < 4
    ensures (4 * r + c) / 4 == r && (4 * r + c) % 4 == c
  {
  }

  lemma EmptyUpToStep(b: Board, r: int, c: int)
    requires IsGrid(b) && 0 <= r < 4 && 0 <= c < 4
    ensures EmptyUpTo(b, 4 * r + c + 1) == EmptyUpTo(b, 4 * r + c) + (if b[r][c].None? then [(r, c)] else [])
  {
    DivMod4(r, c);
  }

  /** Every empty cell is listed. */
  lemma {:induction false} EmptyUpToComplete(b: Board, n: int, r: int, c: int)
    requires IsGrid(b) && 0 <= n <= 16 && 0 <= r < 4 && 0 <= c < 4 && 4 * r + c < n
    requires b[r][c].None?
    ensures (r, c) in EmptyUpTo(b, n)
    decreases n
  {
    if 4 * r + c < n - 1 {
      EmptyUpToComplete(b, n - 1, r, c);
    } else {
      EmptyUpToStep(b, r, c);
    }
  }

  lemma EmptyCellsExactly(b: Board, r: int, c: int)
    requires IsGrid(b)
    ensures (r, c) in EmptyCells(b) <==> 0 <= r < 4 && 0 <= c < 4 && b[r][c].None?
  {
    if 0 <= r < 4 && 0 <= c < 4 && b[r][c].None? {
      EmptyUpToComplete(b, 4 * |b|, r, c);
    }
  }

  /** `Math.floor(u * n)` for `u` drawn from [0, 1). */
  function Pick(u: real, n: int): (k: int)
    requires 0.0 <= u < 1.0 && n > 0
    ensures 0 <= k < n
  {
    var x := u * n as real;
    assert x < n as real;
    x.Floor
  }

  /** The value of a new tile: 2 nine times in ten, else 4. */
  function NewValue(v: real): int
  {
    if v < 0.9 then 2 else 4
  }

  /** `addRandom` on values: a tile numbered `id` on the picked empty cell, if any. */
  function AddTile(b: Board, id: int, u: real, v: real): (r: (Board, int))
    requires IsGrid(b) && 0.0 <= u < 1.0
    ensures IsGrid(r.0)
  {
    var e := EmptyCells(b);
    if |e| == 0 then (b, id)
    else
      var rc := e[Pick(u, |e|)];
      (b[rc.0 := b[rc.0][rc.1 := Some(Tile(NewValue(v), id))]], id + 1)
  }

  /**
   * A new tile lands on an empty cell, is worth 2 or 4, carries the counter
   * as its identity and the counter moves on; nothing else changes. A full
   * board gets nothing.
   */
  lemma AddTileLandsOnEmpty(b: Board, id: int, u: real, v: real)
    requires IsGrid(b) && 0.0 <= u < 1.0
    ensures var (nb, next) := AddTile(b, id, u, v);
      (Full(b) ==> nb == b && next == id)
      && (!Full(b) ==>
            next == id + 1
            && exists r, c | 0 <= r < 4 && 0 <= c < 4 ::
                 b[r][c].None? && nb[r][c] == Some(Tile(NewValue(v), id))
                 && forall r', c' | 0 <= r' < 4 && 0 <= c' < 4 && (r', c') != (r, c) :: nb[r'][c'] == b[r'][c'])
  {
    if !Full(b) {
      var r, c :| 0 <= r < 4 && 0 <= c < 4 && b[r][c].None?;
      EmptyCellsExactly(b, r, c);
    }
  }

  lemma AddTileOk(b: Board, id: int, u: real, v: real)
    requires IsGrid(b) && 0.0 <= u < 1.0 && BoardOk(b, id)
    ensures BoardOk(AddTile(b, id, u, v).0, AddTile(b, id, u, v).1)
  {
  }

  // ---------------------------------------------------------------------------
  // The game
  // ---------------------------------------------------------------------------

  /** The board `initBoard` starts from. */
  const Blank: Board := seq(4, _ => seq(4, _ => None))

  /** The state `load2048` keeps between key presses. */
  class Game {
    var board: array2<Cell>
    var score: int
    var nextId: int
    var isGameOver: bool

    function Row(r: int): (cells: seq<Cell>)
      reads this`board, board
      requires board.Length0 == 4 && board.Length1 == 4 && 0 <= r < 4
      ensures |cells| == 4
    {
      [board[r, 0], board[r, 1], board[r, 2], board[r, 3]]
    }

    /** The board as a value, row by row. */
    function Cells(): (b: Board)
      reads this`board, board
      requires board.Length0 == 4 && board.Length1 == 4
      ensures IsGrid(b)
    {
      [Row(0), Row(1), Row(2), Row(3)]
    }

    lemma CellsAt(r: int, c: int)
      requires board.Length0 == 4 && board.Length1 == 4 && 0 <= r < 4 && 0 <= c < 4
      ensures Cells()[r][c] == board[r, c]
    {
    }

    /** The board is 4x4 and every tile on it is positive and numbered below the counter. */
    predicate Valid()
      reads this`board, board, this`nextId
    {
      board.Length0 == 4 && board.Length1 == 4 && BoardOk(Cells(), nextId)
    }

    constructor ()
      ensures Valid() && Cells() == Blank
      ensures score == 0 && nextId == 1 && !isGameOver
    {
      board := new Cell[4, 4]((_, _) => None);
      score, nextId, isGameOver := 0, 1, false;
      new;
      EmptyIsBlank();
    }

    lemma EmptyIsBlank()
      requires board.Length0 == 4 && board.Length1 == 4
      requires forall r, c | 0 <= r < 4 && 0 <= c < 4 :: board[r, c].None?
      ensures Cells() == Blank
    {
      forall r | 0 <= r < 4
        ensures Cells()[r] == Blank[r]
      {
        forall c | 0 <= c < 4 ensures Cells()[r][c] == Blank[r][c] {
          CellsAt(r, c);
        }
      }
      assert |Cells()| == |Blank| == 4;
    }

    /** The positions of `line` of the board that hold tiles, in line order. */
    method CollectLine(dir: int, i: int) returns (line: seq<Tile>)
      requires board.Length0 == 4 && board.Length1 == 4 && 0 <= i < 4
      ensures line == Tiles(LineOf(Cells(), dir, i))
    {
      ghost var cells := LineOf(Cells(), dir, i);
      line := [];
      var j := 0;
      assert cells[..0] == [];
      while j < 4
        invariant 0 <= j <= 4
        invariant line == Tiles(cells[..j])
      {
        var r, c := if IsVert(dir) then j else i, if IsVert(dir) then i else j;
        assert board[r, c] == cells[j];
        TilesAppend(cells[..j], [cells[j]]);
        assert cells[..j + 1] == cells[..j] + [cells[j]];
        assert [cells[j]][1..] == [];
        if board[r, c].Some? {
          line := line + [board[r, c].value];
        }
        j := j + 1;
      }
      assert cells[..4] == cells;
    }

    /** `newLine` padded with nulls up to four cells. */
    static method PadLine(ts: seq<Tile>) returns (cells: seq<Cell>)
      requires |ts| <= 4
      ensures cells == Pad(ts)
    {
      cells := seq(|ts|, k requires 0 <= k < |ts| => Some(ts[k]));
      while |cells| < 4
        invariant |ts| <= |cells| <= 4
        invariant forall k | 0 <= k < |cells| :: cells[k] == if k < |ts| then Some(ts[k]) else None
        decreases 4 - |cells|
      {
        cells := cells + [None];
      }
    }

    /** Writes `cells` over line `i`, one cell at a time, noting whether any differed. */
    method WriteLine(dir: int, i: int, cells: seq<Cell>) returns (changed: bool)
      requires board.Length0 == 4 && board.Length1 == 4 && 0 <= i < 4 && |cells| == 4
      modifies board
      ensures changed <==> cells != LineOf(old(Cells()), dir, i)
      ensures Cells() == Placed(old(Cells()), dir, i, cells)
    {
      ghost var b: Board := Cells();
      ghost var line := LineOf(b, dir, i);
      var vert := dir % 2 != 0;
      forall k | 0 <= k < 4
        ensures line[k] == board[if vert then k else i, if vert then i else k]
      {
        CellsAt(if vert then k else i, if vert then i else k);
      }
      forall r, c | 0 <= r < 4 && 0 <= c < 4
        ensures board[r, c] == b[r][c]
      {
        CellsAt(r, c);
      }
      changed := WriteCells(vert, i, cells, line, b);
      LineWritten(b, dir, i, cells);
    }

    /** The loop of `WriteLine`: line `i` runs down column `i` when `vert`, else along row `i`. */
    method WriteCells(vert: bool, i: int, cells: seq<Cell>, ghost line: seq<Cell>, ghost b: Board) returns (changed: bool)
      requires board.Length0 == 4 && board.Length1 == 4 && 0 <= i < 4 && |cells| == 4 && |line| == 4 && IsGrid(b)
      requires forall k | 0 <= k < 4 :: line[k] == board[if vert then k else i, if vert then i else k]
      requires forall r, c | 0 <= r < 4 && 0 <= c < 4 :: board[r, c] == b[r][c]
      modifies board
      ensures changed <==> cells != line
      ensures forall k | 0 <= k < 4 :: board[if vert then k else i, if vert then i else k] == cells[k]
      ensures forall r, c | 0 <= r < 4 && 0 <= c < 4 && (if vert then c != i else r != i) :: board[r, c] == b[r][c]
    {
      changed := false;
      var j := 0;
      while j < 4
        invariant 0 <= j <= 4
        invariant forall k | 0 <= k < 4 ::
          board[if vert then k else i, if vert then i else k] == if k < j then cells[k] else line[k]
        invariant forall r, c | 0 <= r < 4 && 0 <= c < 4 && (if vert then c != i else r != i) :: board[r, c] == b[r][c]
        invariant changed <==> exists k | 0 <= k < j :: cells[k] != line[k]
      {
        var r, c := if vert then j else i, if vert then i else j;
        if board[r, c] != cells[j] {
          changed := true;
          board[r, c] := cells[j];
        }
        j := j + 1;
      }
      assert changed <==> cells != line by {
        if cells != line {
          var k :| 0 <= k < 4 && cells[k] != line[k];
        }
      }
    }

    /** The board once line `i` of `b` holds `cells` and every other line is kept. */
    lemma LineWritten(b: Board, dir: int, i: int, cells: seq<Cell>)
      requires board.Length0 == 4 && board.Length1 == 4 && IsGrid(b) && 0 <= i < 4 && |cells| == 4
      requires forall k | 0 <= k < 4 ::
        board[if IsVert(dir) then k else i, if IsVert(dir) then i else k] == cells[k]
      requires forall r, c | 0 <= r < 4 && 0 <= c < 4 && (if IsVert(dir) then c != i else r != i) ::
        board[r, c] == b[r][c]
      ensures Cells() == Placed(b, dir, i, cells)
    {
      ghost var nb := Placed(b, dir, i, cells);
      forall r | 0 <= r < 4
        ensures Cells()[r] == nb[r]
      {
        forall c | 0 <= c < 4
          ensures Cells()[r][c] == nb[r][c]
        {
          CellsAt(r, c);
          if IsVert(dir) && c == i {
            assert board[r, c] == cells[r];
          } else if !IsVert(dir) && r == i {
            assert board[r, c] == cells[c];
          }
        }
      }
      assert |Cells()| == |nb| == 4;
    }

    /** The middle of the line pass of `move`: reverse, merge, pad, reverse back. */
    static method CompactLine(line: seq<Tile>, rev: bool) returns (cells: seq<Cell>, gained: int)
      requires |line| <= 4
      ensures (cells, gained) == Compact(line, rev)
    {
      var ts := line;
      if rev {
        ts := Reverse(ts);
      }
      MergeShape(ts);
      var newLine;
      newLine, gained := MergeLine(ts);
      cells := PadLine(newLine);
      if rev {
        cells := Reverse(cells);
      }
    }

    /** One line pass of `move`, on a board whose earlier lines have moved. */
    method MoveLine(dir: int, i: int, ghost b: Board) returns (changed: bool, gained: int)
      requires board.Length0 == 4 && board.Length1 == 4 && IsGrid(b) && 0 <= i < 4
      requires Cells() == Moved(b, dir, i)
      modifies board
      ensures Cells() == Moved(b, dir, i + 1)
      ensures gained == Slide(LineOf(b, dir, i), IsRev(dir)).1
      ensures changed <==> SlideLine(b, dir, i) != LineOf(b, dir, i)
    {
      var line := CollectLine(dir, i);
      LineUntouched(b, dir, i);
      var cells;
      cells, gained := CompactLine(line, dir > 1);
      changed := WriteLine(dir, i, cells);
      MovedStep(b, dir, i);
    }

    /** The four line passes of `move`, before any new tile is added. */
    method MoveLines(dir: int) returns (moved: bool)
      requires Valid()
      modifies board, this`score
      ensures Valid()
      ensures Cells() == MoveBoard(old(Cells()), dir).0
      ensures score == old(score) + MoveBoard(old(Cells()), dir).1
      ensures moved <==> Cells() != old(Cells())
    {
      ghost var b: Board := Cells();
      MovedNone(b, dir);
      moved := false;
      var i := 0;
      while i < 4
        invariant 0 <= i <= 4
        invariant Cells() == Moved(b, dir, i)
        invariant score == old(score) + Gained(b, dir, i)
        invariant moved == Changed(b, dir, i)
      {
        var changed, gained := MoveLine(dir, i, b);
        score := score + gained;
        moved := moved || changed;
        i := i + 1;
      }
      ChangedIffMoved(b, dir);
      MovedOk(b, dir, nextId);
    }

    /** `addRandom`: `u` and `v` are the two draws of `Math.random()`. */
    method AddRandom(u: real, v: real)
      requires Valid() && 0.0 <= u < 1.0
      modifies board, this`nextId
      ensures Valid()
      ensures (Cells(), nextId) == AddTile(old(Cells()), old(nextId), u, v)
    {
      ghost var b: Board := Cells();
      var empty := EmptyList();
      AddTileOk(b, nextId, u, v);
      if |empty| > 0 {
        var rc := empty[Pick(u, |empty|)];
        var tile := Some(Tile(if v < 0.9 then 2 else 4, nextId));
        board[rc.0, rc.1] := tile;
        nextId := nextId + 1;
        ghost var nb := b[rc.0 := b[rc.0][rc.1 := tile]];
        assert AddTile(b, old(nextId), u, v).0 == nb;
        forall r | 0 <= r < 4
          ensures Cells()[r] == nb[r]
        {
          forall c | 0 <= c < 4 ensures Cells()[r][c] == nb[r][c] {
            CellsAt(r, c);
          }
        }
        assert |Cells()| == |nb| == 4;
        assert Cells() == nb;
      }
    }

    /** The empty cells, row by row. */
    method EmptyList() returns (empty: seq<(int, int)>)
      requires board.Length0 == 4 && board.Length1 == 4
      ensures empty == EmptyCells(Cells())
    {
      ghost var b: Board := Cells();
      empty := [];
      var r := 0;
      while r < 4
        invariant 0 <= r <= 4
        invariant empty == EmptyUpTo(b, 4 * r)
      {
        forall c | 0 <= c < 4 ensures board[r, c] == b[r][c] { CellsAt(r, c); }
        empty := EmptyInRow(r, empty, b);
        r := r + 1;
      }
    }

    method EmptyInRow(r: int, before: seq<(int, int)>, ghost b: Board) returns (empty: seq<(int, int)>)
      requires board.Length0 == 4 && board.Length1 == 4 && 0 <= r < 4
      requires IsGrid(b) && (forall c | 0 <= c < 4 :: board[r, c] == b[r][c]) && before == EmptyUpTo(b, 4 * r)
      ensures empty == EmptyUpTo(b, 4 * (r + 1))
    {
      empty := before;
      var c := 0;
      while c < 4
        invariant 0 <= c <= 4
        invariant empty == EmptyUpTo(b, 4 * r + c)
      {
        EmptyUpToStep(b, r, c);
        if board[r, c].None? {
          empty := empty + [(r, c)];
        }
        c := c + 1;
      }
    }

    /** `checkGameOver`: a full board with no equal neighbours. */
    method CheckGameOver() returns (over: bool)
      requires board.Length0 == 4 && board.Length1 == 4
      ensures over == GameOver(Cells())
    {
      ghost var b: Board := Cells();
      var hasEmpty := false;
      var r := 0;
      while r < 4
        invariant 0 <= r <= 4
        invariant !hasEmpty <==> forall r', c' | 0 <= r' < r && 0 <= c' < 4 :: b[r'][c'].Some?
      {
        var c := 0;
        while c < 4
          invariant 0 <= c <= 4
          invariant !hasEmpty <==> (forall r', c' | 0 <= r' < r && 0 <= c' < 4 :: b[r'][c'].Some?)
                                   && (forall c' | 0 <= c' < c :: b[r][c'].Some?)
        {
          CellsAt(r, c);
          if board[r, c].None? {
            hasEmpty := true;
          }
          c := c + 1;
        }
        r := r + 1;
      }
      if hasEmpty {
        return false;
      }
      assert Full(b);
      r := 0;
      while r < 4
        invariant 0 <= r <= 4
        invariant forall r', c' | 0 <= r' < r && 0 <= c' < 4 :: NoMergeAt(b, r', c')
      {
        var c := 0;
        while c < 4
          invariant 0 <= c <= 4
          invariant forall r', c' | 0 <= r' < r && 0 <= c' < 4 :: NoMergeAt(b, r', c')
          invariant forall c' | 0 <= c' < c :: NoMergeAt(b, r, c')
        {
          CellsAt(r, c);
          if r < 3 { CellsAt(r + 1, c); }
          if c < 3 { CellsAt(r, c + 1); }
          var val := board[r, c].value.val;
          if r < 3 && board[r + 1, c].value.val == val {
            assert !NoMergeAt(b, r, c);
            return false;
          }
          if c < 3 && board[r, c + 1].value.val == val {
            assert !NoMergeAt(b, r, c);
            return false;
          }
          c := c + 1;
        }
        r := r + 1;
      }
      return true;
    }

    /** The game-over test at the end of `draw`. */
    method Draw()
      requires board.Length0 == 4 && board.Length1 == 4
      modifies this`isGameOver
      ensures isGameOver == (old(isGameOver) || GameOver(Cells()))
    {
      var over := CheckGameOver();
      if over && !isGameOver {
        isGameOver := true;
      }
    }

    /** `move(dir)`: `u` and `v` are the draws a new tile would use. */
    method Move(dir: int, u: real, v: real)
      requires Valid() && 0.0 <= u < 1.0
      modifies this, board
      ensures Valid() && board == old(board)
      ensures old(isGameOver) ==>
        Cells() == old(Cells()) && score == old(score) && nextId == old(nextId) && isGameOver
      ensures !old(isGameOver) ==>
        var (nb, gain) := MoveBoard(old(Cells()), dir);
        score == old(score) + gain
        && (nb == old(Cells()) ==> Cells() == nb && nextId == old(nextId) && !isGameOver)
        && (nb != old(Cells()) ==>
              (Cells(), nextId) == AddTile(nb, old(nextId), u, v) && isGameOver == GameOver(Cells()))
    {
      if isGameOver {
        return;
      }
      var moved := MoveLines(dir);
      if moved {
        AddRandom(u, v);
        Draw();
      }
    }

    /** The key handler: one of the eight keys moves, any other key is ignored. */
    method KeyDown(key: string, u: real, v: real)
      requires Valid() && 0.0 <= u < 1.0
      modifies this, board
      ensures Valid() && board == old(board)
      ensures KeyDirection(key).None? ==>
        Cells() == old(Cells()) && score == old(score) && nextId == old(nextId) && isGameOver == old(isGameOver)
      ensures KeyDirection(key).Some? && old(isGameOver) ==>
        Cells() == old(Cells()) && score == old(score) && nextId == old(nextId) && isGameOver
      ensures KeyDirection(key).Some? && !old(isGameOver) ==>
        var (nb, gain) := MoveBoard(old(Cells()), KeyDirection(key).value);
        score == old(score) + gain
        && (nb == old(Cells()) ==> Cells() == nb && nextId == old(nextId) && !isGameOver)
        && (nb != old(Cells()) ==>
              (Cells(), nextId) == AddTile(nb, old(nextId), u, v) && isGameOver == GameOver(Cells()))
    {
      var d := KeyDirection(key);
      if d.Some? {
        Move(d.value, u, v);
      }
    }

    /** The resets at the head of `initBoard`. */
    method Clear()
      modifies this
      ensures Valid() && fresh(board) && Cells() == Blank
      ensures score == 0 && !isGameOver && nextId == old(nextId)
    {
      board := new Cell[4, 4]((_, _) => None);
      score := 0;
      isGameOver := false;
      EmptyIsBlank();
    }

    /** The board part of `initBoard`: the resets, then two new tiles. */
    method Fill(u1: real, v1: real, u2: real, v2: real)
      requires 0.0 <= u1 < 1.0 && 0.0 <= u2 < 1.0
      modifies this
      ensures Valid() && fresh(board) && score == 0 && !isGameOver
      ensures var (b1, n1) := AddTile(Blank, old(nextId), u1, v1);
        (Cells(), nextId) == AddTile(b1, n1, u2, v2)
    {
      Clear();
      ghost var first := AddTile(Blank, old(nextId), u1, v1);
      AddRandom(u1, v1);
      assert (Cells(), nextId) == first;
      AddRandom(u2, v2);
    }

    /** `initBoard`: a fresh empty board with two new tiles; the id counter carries on. */
    method InitBoard(u1: real, v1: real, u2: real, v2: real)
      requires 0.0 <= u1 < 1.0 && 0.0 <= u2 < 1.0 && nextId >= 1
      modifies this
      ensures Valid() && fresh(board) && score == 0
      ensures var (b1, n1) := AddTile(Blank, old(nextId), u1, v1);
        (Cells(), nextId) == AddTile(b1, n1, u2, v2)
      ensures isGameOver == GameOver(Cells())
    {
      Fill(u1, v1, u2, v2);
      ghost var cells, id := Cells(), nextId;
      Draw();
      assert Cells() == cells && nextId == id && Valid();
    }
  }
}
