/**
 * The flappy game: the bird falls under gravity and flaps upward, pipes
 * scroll in from the right with a 160-high gap, every pipe the bird passes
 * scores once, and the game ends when the bird leaves the field or touches a
 * pipe outside its gap.
 */
module Flappy {
  import Geometry

  /** The bird's fixed column; its box is 30 wide and 24 high around (80, y). */
  const BirdX: real := 80.0

  /** Where pipes enter, and the spacing rule that spawns the next one. */
  const EntryX: real := 400.0
  const SpawnBelow: real := 180.0

  /** A pipe: left edge, gap centre, gap height, and whether it has scored. */
  datatype Pipe = Pipe(x: real, y: real, gap: real, scored: bool)

  /** Everything `update` reads or writes. */
  datatype State = State(y: real, vy: real, rot: real, pipes: seq<Pipe>, score: int, best: int, over: bool)

  const FirstPipe: Pipe := Pipe(400.0, 150.0, 160.0, false)

  /** The bird's tilt: a tenth of its vertical speed, clamped to an eighth of a turn either way. */
  function Tilt(vy: real): (r: real)
    ensures -Geometry.Pi / 4.0 <= r <= Geometry.Pi / 4.0
    ensures -Geometry.Pi / 4.0 <= vy * 0.1 <= Geometry.Pi / 4.0 ==> r == vy * 0.1
    ensures vy * 0.1 > Geometry.Pi / 4.0 ==> r == Geometry.Pi / 4.0
    ensures vy * 0.1 < -Geometry.Pi / 4.0 ==> r == -Geometry.Pi / 4.0
  {
    var lo := if -Geometry.Pi / 4.0 >= vy * 0.1 then -Geometry.Pi / 4.0 else vy * 0.1;
    if Geometry.Pi / 4.0 <= lo then Geometry.Pi / 4.0 else lo
  }

  /** Every pipe moved 3.5 to the left. */
  function Shifted(pipes: seq<Pipe>): (r: seq<Pipe>)
    ensures |r| == |pipes|
  {
    seq(|pipes|, k requires 0 <= k < |pipes| => pipes[k].(x := pipes[k].x - 3.5))
  }

  /** A fresh pipe at x = 400, gap centre `100 + 300 u`, once the last one is left of 180. */
  function Spawned(pipes: seq<Pipe>, u: real): (r: seq<Pipe>)
    requires |pipes| > 0
  {
    if pipes[|pipes| - 1].x < SpawnBelow then pipes + [Pipe(EntryX, 100.0 + u * 300.0, 160.0, false)] else pipes
  }

  /** `pipes.filter(p => p.x > -60)`: keeps, in order, the pipes not yet off the left edge. */
  function Kept(pipes: seq<Pipe>): (r: seq<Pipe>)
    ensures |r| <= |pipes|
  {
    if |pipes| == 0 then []
    else
      var n := |pipes| - 1;
      if pipes[n].x > -60.0 then Kept(pipes[..n]) + [pipes[n]] else Kept(pipes[..n])
  }

  /** The filter keeps exactly the pipes right of -60. */
  lemma {:induction false} KeptMembers(pipes: seq<Pipe>)
    ensures forall j | 0 <= j < |Kept(pipes)| :: Kept(pipes)[j].x > -60.0 && Kept(pipes)[j] in pipes
    ensures forall k | 0 <= k < |pipes| && pipes[k].x > -60.0 :: pipes[k] in Kept(pipes)
    decreases |pipes|
  {
    if |pipes| > 0 {
      var n := |pipes| - 1;
      KeptMembers(pipes[..n]);
      assert forall k | 0 <= k < n :: pipes[..n][k] == pipes[k];
    }
  }

  /** A pipe whose right edge is left of the bird's column has been passed. */
  predicate Passed(p: Pipe)
  {
    p.x + 50.0 < BirdX
  }

  /** The scoring pass: every passed pipe not yet scored gets its flag. */
  function Marked(pipes: seq<Pipe>): (r: seq<Pipe>)
    ensures |r| == |pipes|
  {
    seq(|pipes|, k requires 0 <= k < |pipes| =>
      if Passed(pipes[k]) && !pipes[k].scored then pipes[k].(scored := true) else pipes[k])
  }

  /** The points the scoring pass awards: the passed pipes not yet scored. */
  function Gain(pipes: seq<Pipe>): nat
  {
    if |pipes| == 0 then 0
    else Gain(pipes[..|pipes| - 1]) + (var p := pipes[|pipes| - 1]; if Passed(p) && !p.scored then 1 else 0)
  }

  /** The pipes whose flag is set. */
  function Flags(pipes: seq<Pipe>): nat
  {
    if |pipes| == 0 then 0
    else Flags(pipes[..|pipes| - 1]) + (if pipes[|pipes| - 1].scored then 1 else 0)
  }

  /** Each point of the scoring pass sets one flag, and a second pass awards nothing: a pipe scores at most once. */
  lemma {:induction false} MarkedCounts(pipes: seq<Pipe>)
    ensures Flags(Marked(pipes)) == Flags(pipes) + Gain(pipes)
    ensures Gain(Marked(pipes)) == 0
    ensures forall k | 0 <= k < |pipes| :: Marked(pipes)[k].scored == (pipes[k].scored || Passed(pipes[k]))
    decreases |pipes|
  {
    if |pipes| > 0 {
      var n := |pipes| - 1;
      MarkedCounts(pipes[..n]);
      assert Marked(pipes)[..n] == Marked(pipes[..n]);
    }
  }

  /** Shifting keeps every flag. */
  lemma {:induction false} ShiftedKeepsFlags(pipes: seq<Pipe>)
    ensures Flags(Shifted(pipes)) == Flags(pipes)
    decreases |pipes|
  {
    if |pipes| > 0 {
      var n := |pipes| - 1;
      ShiftedKeepsFlags(pipes[..n]);
      assert Shifted(pipes)[..n] == Shifted(pipes[..n]);
    }
  }

  /** When every pipe the filter drops was scored, the flags lost are exactly the pipes dropped. */
  lemma {:induction false} KeptCounts(pipes: seq<Pipe>)
    requires forall k | 0 <= k < |pipes| && pipes[k].x <= -60.0 :: pipes[k].scored
    ensures Flags(pipes) == Flags(Kept(pipes)) + (|pipes| - |Kept(pipes)|)
    decreases |pipes|
  {
    if |pipes| > 0 {
      var n := |pipes| - 1;
      var init, last := pipes[..n], pipes[n];
      var front := Kept(init);
      assert forall k | 0 <= k < |init| && init[k].x <= -60.0 :: init[k].scored by {
        forall k | 0 <= k < |init| && init[k].x <= -60.0
          ensures init[k].scored
        {
          assert init[k] == pipes[k];
        }
      }
      KeptCounts(init);
      assert Flags(pipes) == Flags(init) + (if last.scored then 1 else 0);
      if last.x > -60.0 {
        assert Kept(pipes) == front + [last];
        assert (front + [last])[..|front|] == front;
        assert Flags(front + [last]) == Flags(front) + (if last.scored then 1 else 0);
      } else {
        assert Kept(pipes) == front && last.scored;
      }
    }
  }

  /** The filter keeps the last pipe when it is still on screen, so a list ending on screen stays non-empty. */
  lemma KeptKeepsLast(pipes: seq<Pipe>)
    requires |pipes| > 0 && pipes[|pipes| - 1].x > -60.0
    ensures |Kept(pipes)| > 0 && Kept(pipes)[|Kept(pipes)| - 1] == pipes[|pipes| - 1]
  {
  }

  /** The source's pipe test: the bird's column meets the pipe's and it pokes above or below the gap. */
  predicate HitsPipe(y: real, p: Pipe)
  {
    var inPipeX := BirdX + 15.0 > p.x && BirdX - 15.0 < p.x + 50.0;
    var hitTop := y - 12.0 < p.y - p.gap / 2.0;
    var hitBottom := y + 12.0 > p.y + p.gap / 2.0;
    inPipeX && (hitTop || hitBottom)
  }

  /** The bird's 24-high box lies inside the pipe's gap. */
  predicate InGap(y: real, p: Pipe)
  {
    p.y - p.gap / 2.0 <= y - 12.0 && y + 12.0 <= p.y + p.gap / 2.0
  }

  /** Off the field or into a pipe. */
  predicate Crashed(y: real, pipes: seq<Pipe>)
  {
    y < 0.0 || y > 500.0 || exists k | 0 <= k < |pipes| :: HitsPipe(y, pipes[k])
  }

  /** One `update`; `u` is the draw for a new pipe's gap. */
  function Step(s: State, u: real): State
    requires |s.pipes| > 0
  {
    if s.over then s
    else
      var vy := s.vy + 0.4;
      var y := s.y + vy;
      var ps := Kept(Spawned(Shifted(s.pipes), u));
      var score := s.score + Gain(ps);
      State(y, vy, Tilt(vy), Marked(ps), score, if score > s.best then score else s.best, Crashed(y, Marked(ps)))
  }

  /** The pipes a step drops off the left edge. */
  function Dropped(s: State, u: real): int
    requires |s.pipes| > 0
  {
    var ps := Spawned(Shifted(s.pipes), u);
    |ps| - |Kept(ps)|
  }

  /**
   * What a step keeps: at least one pipe, every passed pipe scored, a score
   * between 0 and the best, and the tilt within an eighth of a turn.
   */
  predicate Sound(s: State)
  {
    |s.pipes| > 0
    && (forall k | 0 <= k < |s.pipes| :: Passed(s.pipes[k]) ==> s.pipes[k].scored)
    && 0 <= s.score <= s.best
    && -Geometry.Pi / 4.0 <= s.rot <= Geometry.Pi / 4.0
  }

  /** Every step keeps a state sound; in particular `pipes` is never empty and the best is never below the score. */
  lemma StepSound(s: State, u: real)
    requires Sound(s)
    ensures Sound(Step(s, u))
  {
    if !s.over {
      var sp := Spawned(Shifted(s.pipes), u);
      assert sp[|sp| - 1].x > -60.0;
      KeptKeepsLast(sp);
      var ps := Kept(sp);
      var t := Step(s, u);
      assert t.pipes == Marked(ps) && t.score == s.score + Gain(ps) && t.rot == Tilt(t.vy);
      assert forall k | 0 <= k < |t.pipes| :: Passed(t.pipes[k]) ==> t.pipes[k].scored;
    }
  }

  /**
   * A step's points are exactly the pipes it newly flags: the score rises by
   * the flags gained, counting the already-scored pipes it drops.
   */
  lemma StepScoresNewFlags(s: State, u: real)
    requires Sound(s) && !s.over
    ensures var t := Step(s, u);
      t.score - s.score == Flags(t.pipes) + Dropped(s, u) - Flags(s.pipes)
      && Gain(t.pipes) == 0
  {
    var sh := Shifted(s.pipes);
    var sp := Spawned(sh, u);
    ShiftedKeepsFlags(s.pipes);
    assert Flags(sp) == Flags(sh) by {
      if sh[|sh| - 1].x < SpawnBelow {
        assert sp[..|sh|] == sh;
      }
    }
    assert forall k | 0 <= k < |sp| && sp[k].x <= -60.0 :: sp[k].scored by {
      forall k | 0 <= k < |sp| && sp[k].x <= -60.0
        ensures sp[k].scored
      {
        assert k < |sh| && sh[k] == s.pipes[k].(x := s.pipes[k].x - 3.5);
        assert Passed(s.pipes[k]);
      }
    }
    KeptCounts(sp);
    MarkedCounts(Kept(sp));
  }

  /** A crash is leaving [0, 500], or meeting a pipe's column with the bird's box not inside its gap. */
  lemma CrashedMeans(y: real, pipes: seq<Pipe>)
    ensures Crashed(y, pipes) <==> (y < 0.0 || y > 500.0
      || exists k | 0 <= k < |pipes| :: pipes[k].x - 15.0 < BirdX < pipes[k].x + 65.0 && !InGap(y, pipes[k]))
  {
    forall k | 0 <= k < |pipes|
      ensures HitsPipe(y, pipes[k]) <==> (pipes[k].x - 15.0 < BirdX < pipes[k].x + 65.0 && !InGap(y, pipes[k]))
    {
    }
  }

  /** A state built field by field as `update` builds it is the step, and it keeps the counts. */
  lemma StepIs(s: State, u: real, t: State)
    requires Sound(s) && !s.over
    requires var ps := Kept(Spawned(Shifted(s.pipes), u));
      t.vy == s.vy + 0.4 && t.y == s.y + t.vy && t.rot == Tilt(t.vy)
      && t.pipes == Marked(ps) && t.score == s.score + Gain(ps)
      && t.best == (if t.score > s.best then t.score else s.best) && t.over == Crashed(t.y, t.pipes)
    ensures t == Step(s, u) && Sound(t)
    ensures t.score - s.score == Flags(t.pipes) + Dropped(s, u) - Flags(s.pipes)
  {
    StepSound(s, u);
    StepScoresNewFlags(s, u);
  }

  /** After a crash an update changes nothing. */
  lemma OverIsFinal(s: State, u: real)
    requires |s.pipes| > 0 && s.over
    ensures Step(s, u) == s
  {
  }

  /** The closure state of `loadFlappy`; `dropped` counts the scored pipes gone off screen. */
  class Game {
    var y: real
    var vy: real
    var rot: real
    var pipes: seq<Pipe>
    var score: int
    var bestScore: int
    var isGameOver: bool
    ghost var dropped: int

    function Snapshot(): State
      reads this
    {
      State(y, vy, rot, pipes, score, bestScore, isGameOver)
    }

    /** A sound state whose score counts every flag ever set, each once. */
    ghost predicate Valid()
      reads this
    {
      Sound(Snapshot()) && dropped >= 0 && score == dropped + Flags(pipes)
    }

    /** The page load: best 0, then `reset`. */
    constructor ()
      ensures Valid() && Snapshot() == State(250.0, 0.0, 0.0, [FirstPipe], 0, 0, false)
    {
      y, vy, rot := 250.0, 0.0, 0.0;
      pipes := [Pipe(400.0, 150.0, 160.0, false)];
      score := 0;
      bestScore := 0;
      isGameOver := false;
      dropped := 0;
    }

    /** `reset`: bird at height 250, at rest; one pipe at x = 400; score 0; the best is kept. */
    method Reset()
      requires Valid()
      modifies this
      ensures Valid() && Snapshot() == State(250.0, 0.0, 0.0, [FirstPipe], 0, old(bestScore), false)
    {
      y, vy, rot := 250.0, 0.0, 0.0;
      pipes := [Pipe(400.0, 150.0, 160.0, false)];
      score := 0;
      isGameOver := false;
      dropped := 0;
    }

    /** `pipes.forEach(p => p.x -= 3.5)`. */
    method ShiftPipes()
      modifies this`pipes
      ensures pipes == Shifted(old(pipes))
    {
      var i := 0;
      while i < |pipes|
        invariant 0 <= i <= |pipes| == |old(pipes)|
        invariant forall k | 0 <= k < i :: pipes[k] == old(pipes[k]).(x := old(pipes[k]).x - 3.5)
        invariant forall k | i <= k < |pipes| :: pipes[k] == old(pipes[k])
      {
        pipes := pipes[i := pipes[i].(x := pipes[i].x - 3.5)];
        i := i + 1;
      }
    }

    /** The scoring `forEach`: flags each passed pipe once, raising the score and the best with it. */
    method ScorePipes()
      requires score <= bestScore
      modifies this`pipes, this`score, this`bestScore
      ensures pipes == Marked(old(pipes))
      ensures score == old(score) + Gain(old(pipes))
      ensures bestScore == (if score > old(bestScore) then score else old(bestScore))
    {
      ghost var start := pipes;
      var i := 0;
      while i < |pipes|
        invariant 0 <= i <= |pipes| == |start|
        invariant forall k | 0 <= k < i :: pipes[k] == Marked(start)[k]
        invariant forall k | i <= k < |pipes| :: pipes[k] == start[k]
        invariant score == old(score) + Gain(start[..i])
        invariant bestScore == (if score > old(bestScore) then score else old(bestScore))
      {
        assert start[..i + 1][..i] == start[..i];
        if pipes[i].x + 50.0 < BirdX && !pipes[i].scored {
          pipes := pipes[i := pipes[i].(scored := true)];
          score := score + 1;
          if score > bestScore {
            bestScore := score;
          }
        }
        i := i + 1;
      }
      assert start[..i] == start;
    }

    /** The bird part of `update`: gravity, then the move, then the tilt. */
    method Fly()
      modifies this`y, this`vy, this`rot
      ensures vy == old(vy) + 0.4 && y == old(y) + vy && rot == Tilt(vy)
    {
      vy := vy + 0.4;
      y := y + vy;
      rot := Tilt(vy);
    }

    /** The pipe part of `update`: scroll, spawn when the last pipe is left of 180, drop those off screen. */
    method AdvancePipes(u: real)
      requires |pipes| > 0
      modifies this`pipes, this`dropped
      ensures pipes == Kept(Spawned(Shifted(old(pipes)), u))
      ensures dropped == old(dropped) + (|Spawned(Shifted(old(pipes)), u)| - |pipes|)
    {
      ShiftPipes();
      if pipes[|pipes| - 1].x < SpawnBelow {
        pipes := pipes + [Pipe(EntryX, 100.0 + u * 300.0, 160.0, false)];
      }
      ghost var before := |pipes|;
      pipes := Kept(pipes);
      dropped := dropped + (before - |pipes|);
    }

    /** `update`; `u` is the draw for a new pipe's gap. */
    method Update(u: real)
      requires Valid()
      modifies this
      ensures Valid() && Snapshot() == Step(old(Snapshot()), u)
      ensures dropped == old(dropped) + (if old(isGameOver) then 0 else Dropped(old(Snapshot()), u))
    {
      if isGameOver {
        return;
      }
      ghost var s0 := Snapshot();
      Fly();
      AdvancePipes(u);
      ScorePipes();
      isGameOver := Crashed(y, pipes);
      StepIs(s0, u, Snapshot());
    }

    /** `flap`: an upward kick of 7.5, ignored after a crash. */
    method Flap()
      modifies this`vy
      ensures vy == if isGameOver then old(vy) else -7.5
    {
      if !isGameOver {
        vy := -7.5;
      }
    }

    /** `handleKey`: space or the up arrow flaps; a click on the canvas calls `Flap` directly. */
    method HandleKey(key: string)
      modifies this`vy
      ensures vy == if !isGameOver && key in {" ", "ArrowUp"} then -7.5 else old(vy)
    {
      if key == " " || key == "ArrowUp" {
        Flap();
      }
    }
  }
}
