/**
 * The invaders game: a 5x10 formation marches sideways and steps down at the
 * walls, drops bombs at random, and is shot down by the player's fireballs;
 * clearing the formation starts the next, faster wave.
 */
module Breath {
  import opened Wrappers

  /** An alien: its centre and whether it is still alive (glyph, colour and wobble are drawing only). */
  datatype Alien = Alien(x: real, y: real, alive: bool)

  /** A fireball or a bomb: only its position matters to the rules. */
  datatype Shot = Shot(x: real, y: real)

  datatype Player = Player(x: real, y: real, dead: bool)

  /** The closure state `gameStep` reads and writes. */
  datatype World = World(aliens: seq<Alien>, fireballs: seq<Shot>, bombs: seq<Shot>, player: Player,
                         score: int, wave: int, rightward: bool, speed: real)

  const StepDown: real := 15.0
  const FireGap: int := 250

  // ---------------------------------------------------------------- formation

  /** Alien `k` of a new formation: column k % 10, row k / 10, alive. */
  function GridAlien(k: int): Alien
  {
    Alien(40.0 + (k % 10) as real * 40.0, 60.0 + (k / 10) as real * 35.0, true)
  }

  /** What `spawnAliens` appends: 50 aliens, row by row. */
  function Formation(): (f: seq<Alien>)
    ensures |f| == 50
  {
    seq(50, k requires 0 <= k < 50 => GridAlien(k))
  }

  /** Alien `c` of row `r` of a new formation is alive at x = 40 + 40c, y = 60 + 35r. */
  lemma FormationAt(r: int, c: int)
    requires 0 <= r < 5 && 0 <= c < 10
    ensures Formation()[10 * r + c] == Alien(40.0 + c as real * 40.0, 60.0 + r as real * 35.0, true)
  {
    var k := 10 * r + c;
    assert k / 10 == r && k % 10 == c;
  }

  // ---------------------------------------------------------------- counting the formation

  /** The number of live aliens. */
  function AliveCount(aliens: seq<Alien>): (n: nat)
    ensures n <= |aliens|
  {
    if |aliens| == 0 then 0
    else AliveCount(aliens[..|aliens| - 1]) + (if aliens[|aliens| - 1].alive then 1 else 0)
  }

  /** No live alien exactly when the count is zero. */
  lemma {:induction false} AliveCountZero(aliens: seq<Alien>)
    ensures AliveCount(aliens) == 0 <==> forall k | 0 <= k < |aliens| :: !aliens[k].alive
  {
    if |aliens| > 0 {
      var front := aliens[..|aliens| - 1];
      AliveCountZero(front);
      assert forall k | 0 <= k < |front| :: front[k] == aliens[k];
    }
  }

  /** Killing one live alien lowers the count by one. */
  lemma {:induction false} AliveCountKill(aliens: seq<Alien>, k: int)
    requires 0 <= k < |aliens| && aliens[k].alive
    ensures AliveCount(aliens[k := aliens[k].(alive := false)]) == AliveCount(aliens) - 1
  {
    var n := |aliens| - 1;
    var killed := aliens[k := aliens[k].(alive := false)];
    if k == n {
      assert killed[..n] == aliens[..n];
    } else {
      assert killed[..n] == aliens[..n][k := aliens[k].(alive := false)];
      AliveCountKill(aliens[..n], k);
    }
  }

  /** The count only looks at the alive flags. */
  lemma {:induction false} AliveCountFlags(a: seq<Alien>, b: seq<Alien>)
    requires |a| == |b| && forall k | 0 <= k < |a| :: a[k].alive == b[k].alive
    ensures AliveCount(a) == AliveCount(b)
  {
    if |a| > 0 {
      AliveCountFlags(a[..|a| - 1], b[..|b| - 1]);
    }
  }

  /** `lowestY`: the largest y of a live alien, starting from 0. */
  function Lowest(aliens: seq<Alien>): real
  {
    if |aliens| == 0 then 0.0
    else
      var low := Lowest(aliens[..|aliens| - 1]);
      var last := aliens[|aliens| - 1];
      if last.alive && last.y > low then last.y else low
  }

  /** `lowestY` is 0 or the height of a live alien, and no live alien is lower. */
  lemma {:induction false} LowestBounds(aliens: seq<Alien>)
    ensures var y := Lowest(aliens);
      y >= 0.0
      && (forall k | 0 <= k < |aliens| && aliens[k].alive :: aliens[k].y <= y)
      && (y == 0.0 || exists k | 0 <= k < |aliens| :: aliens[k].alive && aliens[k].y == y)
  {
    if |aliens| > 0 {
      var front := aliens[..|aliens| - 1];
      LowestBounds(front);
      assert forall k | 0 <= k < |front| :: front[k] == aliens[k];
    }
  }

  /** The breach test: some live alien is below y = 440. */
  lemma BreachIff(aliens: seq<Alien>)
    ensures Lowest(aliens) > 440.0 <==> exists k | 0 <= k < |aliens| :: aliens[k].alive && aliens[k].y > 440.0
  {
    LowestBounds(aliens);
  }

  /** `lowestY` only looks at the alive flags and the heights. */
  lemma {:induction false} LowestHeights(a: seq<Alien>, b: seq<Alien>)
    requires |a| == |b| && forall k | 0 <= k < |a| :: a[k].alive == b[k].alive && a[k].y == b[k].y
    ensures Lowest(a) == Lowest(b)
  {
    if |a| > 0 {
      LowestHeights(a[..|a| - 1], b[..|b| - 1]);
    }
  }

  // ---------------------------------------------------------------- marching

  /**
   * `alienSpeed * alienDirection`: the direction starts at 1 and is only ever
   * negated, so the model keeps just its sign.
   */
  function Velocity(speed: real, rightward: bool): real
  {
    if rightward then speed else -speed
  }

  /** A live alien moves `v` sideways; a dead one stays put. */
  function Marched(a: Alien, v: real): Alien
  {
    if a.alive then a.(x := a.x + v) else a
  }

  /** The whole formation marched by `v`. */
  function Marching(aliens: seq<Alien>, v: real): (r: seq<Alien>)
    ensures |r| == |aliens|
  {
    seq(|aliens|, k requires 0 <= k < |aliens| => Marched(aliens[k], v))
  }

  /** Marching one more alien extends the march by that alien. */
  lemma MarchingSnoc(aliens: seq<Alien>, i: int, v: real)
    requires 0 <= i < |aliens|
    ensures var m := Marching(aliens[..i + 1], v);
      m == Marching(aliens[..i], v) + [Marched(aliens[i], v)]
      && m[..i] == Marching(aliens[..i], v) && m[i] == Marched(aliens[i], v)
  {
  }

  /** What the march of one more alien adds to the walls reached, `lowestY`, the live count and the bombs. */
  lemma MarchOneMore(aliens: seq<Alien>, i: int, v: real, draws: seq<real>, chance: real)
    requires 0 <= i < |aliens| && |draws| >= |aliens|
    ensures var before := Marching(aliens[..i], v);
      var after := Marching(aliens[..i + 1], v);
      var a := Marched(aliens[i], v);
      (AtRight(after) <==> AtRight(before) || (a.alive && a.x >= 475.0))
      && (AtLeft(after) <==> AtLeft(before) || (a.alive && a.x <= 25.0))
      && Lowest(after) == (if a.alive && a.y > Lowest(before) then a.y else Lowest(before))
      && AliveCount(after) == AliveCount(before) + (if a.alive then 1 else 0)
      && Bombed(after, draws, chance)
         == Bombed(before, draws, chance) + (if a.alive && draws[i] < chance then [Shot(a.x, a.y + 10.0)] else [])
  {
    MarchingSnoc(aliens, i, v);
    var after := Marching(aliens[..i + 1], v);
    assert forall k | 0 <= k < i :: after[k] == Marching(aliens[..i], v)[k];
  }

  /** Marching moves the formation sideways only: alive flags and heights, hence count and `lowestY`, are kept. */
  lemma MarchingKeepsRows(aliens: seq<Alien>, v: real)
    ensures forall k | 0 <= k < |aliens| ::
      Marching(aliens, v)[k].alive == aliens[k].alive && Marching(aliens, v)[k].y == aliens[k].y
      && Marching(aliens, v)[k].x == aliens[k].x + (if aliens[k].alive then v else 0.0)
    ensures AliveCount(Marching(aliens, v)) == AliveCount(aliens)
    ensures Lowest(Marching(aliens, v)) == Lowest(aliens)
  {
    AliveCountFlags(Marching(aliens, v), aliens);
    LowestHeights(Marching(aliens, v), aliens);
  }

  /** `edgeRight`: a live alien at x >= 475. */
  predicate AtRight(aliens: seq<Alien>)
  {
    exists k | 0 <= k < |aliens| :: aliens[k].alive && aliens[k].x >= 475.0
  }

  /** `edgeLeft`: a live alien at x <= 25. */
  predicate AtLeft(aliens: seq<Alien>)
  {
    exists k | 0 <= k < |aliens| :: aliens[k].alive && aliens[k].x <= 25.0
  }

  /** The formation turns only at a wall it is heading into. */
  predicate Flips(aliens: seq<Alien>, rightward: bool)
  {
    (AtRight(aliens) && rightward) || (AtLeft(aliens) && !rightward)
  }

  /** An empty formation never turns: a cleared wave keeps its direction. */
  lemma ClearedNeverFlips(aliens: seq<Alien>, rightward: bool)
    requires AliveCount(aliens) == 0
    ensures !Flips(aliens, rightward)
  {
    AliveCountZero(aliens);
  }

  /** The chance a live alien drops a bomb in one step. */
  function BombChance(wave: int): real
  {
    0.002 + wave as real * 0.0005
  }

  /** The bombs dropped in one step: draw `k` below the chance drops one from live alien `k`, 10 below it. */
  function Bombed(aliens: seq<Alien>, draws: seq<real>, chance: real): seq<Shot>
    requires |draws| >= |aliens|
  {
    if |aliens| == 0 then []
    else
      var n := |aliens| - 1;
      var a := aliens[n];
      Bombed(aliens[..n], draws, chance) + (if a.alive && draws[n] < chance then [Shot(a.x, a.y + 10.0)] else [])
  }

  /** Only live aliens drop bombs, at most one each, from 10 below their centre. */
  lemma {:induction false} BombedFromLive(aliens: seq<Alien>, draws: seq<real>, chance: real)
    requires |draws| >= |aliens|
    ensures var r := Bombed(aliens, draws, chance);
      |r| <= AliveCount(aliens)
      && forall j | 0 <= j < |r| :: exists k | 0 <= k < |aliens| ::
        aliens[k].alive && r[j] == Shot(aliens[k].x, aliens[k].y + 10.0)
  {
    if |aliens| > 0 {
      var n := |aliens| - 1;
      BombedFromLive(aliens[..n], draws, chance);
      var front := Bombed(aliens[..n], draws, chance);
      var r := Bombed(aliens, draws, chance);
      forall j | 0 <= j < |r|
        ensures exists k | 0 <= k < |aliens| :: aliens[k].alive && r[j] == Shot(aliens[k].x, aliens[k].y + 10.0)
      {
        if j < |front| {
          var m := aliens[..n];
          assert r[j] == front[j];
          var k :| 0 <= k < |m| && m[k].alive && front[j] == Shot(m[k].x, m[k].y + 10.0);
          assert aliens[k] == m[k];
        } else {
          assert r[j] == Shot(aliens[n].x, aliens[n].y + 10.0);
        }
      }
    }
  }

  /** Every alien one step lower (dead ones too). */
  function Descended(aliens: seq<Alien>): (r: seq<Alien>)
    ensures |r| == |aliens|
  {
    seq(|aliens|, k requires 0 <= k < |aliens| => aliens[k].(y := aliens[k].y + StepDown))
  }

  // ---------------------------------------------------------------- projectiles

  function Shifted(shots: seq<Shot>, dy: real): (r: seq<Shot>)
    ensures |r| == |shots|
  {
    seq(|shots|, k requires 0 <= k < |shots| => shots[k].(y := shots[k].y + dy))
  }

  /** `Array.prototype.filter` on shots: keeps, in order, those that pass. */
  function Filter(shots: seq<Shot>, keep: Shot -> bool): (r: seq<Shot>)
    ensures |r| <= |shots|
    ensures forall j | 0 <= j < |r| :: keep(r[j]) && r[j] in shots
    ensures forall k | 0 <= k < |shots| && keep(shots[k]) :: shots[k] in r
  {
    if |shots| == 0 then []
    else
      var n := |shots| - 1;
      var front := Filter(shots[..n], keep);
      assert forall k | 0 <= k < n :: shots[..n][k] == shots[k];
      if keep(shots[n]) then front + [shots[n]] else front
  }

  // ---------------------------------------------------------------- collisions

  /** The hit box of a live alien: 30 wide and 20 high around its centre. */
  predicate Hits(f: Shot, a: Alien)
  {
    a.alive && f.x > a.x - 15.0 && f.x < a.x + 15.0 && f.y > a.y - 10.0 && f.y < a.y + 10.0
  }

  /** The first alien from index `from` on that fireball `f` hits. */
  function FirstHit(f: Shot, aliens: seq<Alien>, from: nat): (h: Option<nat>)
    ensures h.Some? ==> (from <= h.value < |aliens| && Hits(f, aliens[h.value])
                         && forall m | from <= m < h.value :: !Hits(f, aliens[m]))
    ensures h.None? ==> forall m | from <= m < |aliens| :: !Hits(f, aliens[m])
    decreases |aliens| - from
  {
    if from >= |aliens| then None
    else if Hits(f, aliens[from]) then Some(from)
    else FirstHit(f, aliens, from + 1)
  }

  /** Live alien `k` shot down. */
  function Killed(aliens: seq<Alien>, k: nat): seq<Alien>
    requires k < |aliens|
  {
    aliens[k := aliens[k].(alive := false)]
  }

  /**
   * The fireballs in order, each shooting down the first live alien it
   * touches: the formation afterwards, the fireballs that hit nothing, and
   * the number of kills.
   */
  function CollideAll(fireballs: seq<Shot>, aliens: seq<Alien>): (r: (seq<Alien>, seq<Shot>, nat))
    ensures |r.0| == |aliens|
    ensures forall k | 0 <= k < |aliens| ::
      r.0[k].x == aliens[k].x && r.0[k].y == aliens[k].y && (r.0[k].alive ==> aliens[k].alive)
    ensures r.2 + |r.1| == |fireballs|
    ensures AliveCount(r.0) + r.2 == AliveCount(aliens)
    ensures forall j | 0 <= j < |r.1| :: r.1[j] in fireballs
  {
    if |fireballs| == 0 then (aliens, [], 0)
    else
      var n := |fireballs| - 1;
      var before := CollideAll(fireballs[..n], aliens);
      var f := fireballs[n];
      assert forall j | 0 <= j < |before.1| :: before.1[j] in fireballs by {
        forall j | 0 <= j < |before.1|
          ensures before.1[j] in fireballs
        {
          var i :| 0 <= i < n && fireballs[..n][i] == before.1[j];
          assert fireballs[i] == before.1[j];
        }
      }
      match FirstHit(f, before.0, 0)
      case None => (before.0, before.1 + [f], before.2)
      case Some(k) =>
        AliveCountKill(before.0, k);
        (Killed(before.0, k), before.1, before.2 + 1)
  }

  // ---------------------------------------------------------------- the step

  /** The player's new x: 6 per held key, clamped to [20, 480]. */
  function Steered(x: real, left: bool, right: bool): (nx: real)
    ensures 20.0 <= nx <= 480.0
    ensures var moved := x - (if left then 6.0 else 0.0) + (if right then 6.0 else 0.0);
      (moved < 20.0 ==> nx == 20.0) && (moved > 480.0 ==> nx == 480.0)
      && (20.0 <= moved <= 480.0 ==> nx == moved)
  {
    var x1 := if left then x - 6.0 else x;
    var x2 := if right then x1 + 6.0 else x1;
    var x3 := if x2 < 20.0 then 20.0 else x2;
    if x3 > 480.0 then 480.0 else x3
  }

  function Steer(w: World, left: bool, right: bool): World
  {
    w.(player := w.player.(x := Steered(w.player.x, left, right)))
  }

  function March(w: World, draws: seq<real>): World
    requires |draws| == |w.aliens|
  {
    var marched := Marching(w.aliens, Velocity(w.speed, w.rightward));
    w.(aliens := marched, bombs := w.bombs + Bombed(marched, draws, BombChance(w.wave)))
  }

  function Turn(w: World): World
  {
    if Flips(w.aliens, w.rightward)
    then w.(rightward := !w.rightward, aliens := Descended(w.aliens), speed := w.speed + 0.05)
    else w
  }

  function NextWave(w: World, cleared: bool): World
  {
    if cleared
    then w.(wave := w.wave + 1, speed := 0.5 + (w.wave + 1) as real * 0.2, aliens := w.aliens + Formation())
    else w
  }

  function Breach(w: World, lowestY: real): World
  {
    if lowestY > 440.0 then w.(player := w.player.(dead := true)) else w
  }

  /** A fireball still below the top edge is kept. */
  predicate Aloft(f: Shot) { f.y > 0.0 }

  /** A bomb still above y = 510 is kept. */
  predicate Falling(b: Shot) { b.y < 510.0 }

  function Fly(w: World): World
  {
    w.(fireballs := Filter(Shifted(w.fireballs, -9.0), Aloft),
       bombs := Filter(Shifted(w.bombs, 4.0), Falling))
  }

  function Collide(w: World): World
  {
    var (aliens, left, kills) := CollideAll(w.fireballs, w.aliens);
    w.(aliens := aliens, fireballs := left, score := w.score + 100 * kills)
  }

  /** `Math.hypot(dx, dy) < 22`, on squares since the distance is not negative. */
  predicate Close(b: Shot, p: Player)
  {
    (b.x - p.x) * (b.x - p.x) + (b.y - p.y) * (b.y - p.y) < 484.0
  }

  predicate AnyClose(bombs: seq<Shot>, p: Player)
  {
    exists k | 0 <= k < |bombs| :: Close(bombs[k], p)
  }

  function Blast(w: World): World
  {
    if AnyClose(w.bombs, w.player) then w.(player := w.player.(dead := true)) else w
  }

  /** The first half of a live step: steer, march, turn at a wall, start the next wave, test the breach. */
  function Advance(w: World, left: bool, right: bool, draws: seq<real>): World
    requires |draws| == |w.aliens|
  {
    var steered := Steer(w, left, right);
    var marched := March(steered, draws);
    var turned := Turn(marched);
    var renewed := NextWave(turned, AliveCount(marched.aliens) == 0);
    Breach(renewed, Lowest(marched.aliens))
  }

  /** The second half: move the shots, then the fireball and bomb collisions. */
  function Resolve(w: World): World
  {
    Blast(Collide(Fly(w)))
  }

  /** One `gameStep`; `draws` holds the bomb draw for each alien, by index. */
  function Step(w: World, left: bool, right: bool, draws: seq<real>): World
    requires |draws| == |w.aliens|
  {
    if w.player.dead then w else Resolve(Advance(w, left, right, draws))
  }

  /** A dead player's step changes nothing. */
  lemma DeadStepIsIdle(w: World, left: bool, right: bool, draws: seq<real>)
    requires |draws| == |w.aliens| && w.player.dead
    ensures Step(w, left, right, draws) == w
  {
  }

  /**
   * The shots and collisions leave the formation in place, the player where
   * it is, the fireballs above 0 and the bombs above 510; each fireball
   * shoots down at most one alien and each kill is worth 100.
   */
  lemma ResolveFacts(v: World)
    ensures var r := Resolve(v);
      var kills := AliveCount(v.aliens) - AliveCount(r.aliens);
      r.wave == v.wave && r.rightward == v.rightward && r.speed == v.speed
      && r.player.x == v.player.x && r.player.y == v.player.y
      && |r.aliens| == |v.aliens|
      && (forall k | 0 <= k < |v.aliens| :: r.aliens[k].x == v.aliens[k].x && r.aliens[k].y == v.aliens[k].y)
      && (forall j | 0 <= j < |r.fireballs| :: r.fireballs[j].y > 0.0)
      && (forall j | 0 <= j < |r.bombs| :: r.bombs[j].y < 510.0)
      && r.score == v.score + 100 * kills && 0 <= kills <= |v.fireballs|
  {
    var flown := Fly(v);
    var hit := Collide(flown);
    assert forall j | 0 <= j < |hit.fireballs| :: hit.fireballs[j] in flown.fireballs;
  }

  /** After a live step the player is inside [20, 480], every fireball above 0 and every bomb above 510. */
  lemma StepKeepsInField(w: World, left: bool, right: bool, draws: seq<real>)
    requires |draws| == |w.aliens| && !w.player.dead
    ensures var after := Step(w, left, right, draws);
      20.0 <= after.player.x <= 480.0 && after.player.y == w.player.y
      && (forall j | 0 <= j < |after.fireballs| :: after.fireballs[j].y > 0.0)
      && (forall j | 0 <= j < |after.bombs| :: after.bombs[j].y < 510.0)
  {
    ResolveFacts(Advance(w, left, right, draws));
  }

  /**
   * In the first half of a step the formation turns exactly when a live
   * alien, after marching, is at the wall it is heading into; then every
   * alien is 15 lower and the speed is 0.05 higher, otherwise heights,
   * direction and speed are kept (unless the wave was cleared).
   */
  lemma AdvanceTurnsAtWalls(w: World, left: bool, right: bool, draws: seq<real>)
    requires |draws| == |w.aliens|
    ensures var mid := Advance(w, left, right, draws);
      var flips := Flips(Marching(w.aliens, Velocity(w.speed, w.rightward)), w.rightward);
      |mid.aliens| >= |w.aliens| && mid.score == w.score && mid.fireballs == w.fireballs
      && (flips ==>
            mid.rightward == !w.rightward && mid.speed == w.speed + 0.05
            && forall k | 0 <= k < |w.aliens| :: mid.aliens[k].y == w.aliens[k].y + StepDown)
      && (!flips && AliveCount(w.aliens) > 0 ==>
            mid.rightward == w.rightward && mid.speed == w.speed
            && forall k | 0 <= k < |w.aliens| :: mid.aliens[k].y == w.aliens[k].y)
  {
    var marched := March(Steer(w, left, right), draws);
    assert marched.aliens == Marching(w.aliens, Velocity(w.speed, w.rightward));
    MarchingKeepsRows(w.aliens, Velocity(w.speed, w.rightward));
    if Flips(marched.aliens, w.rightward) {
      AliveCountZero(marched.aliens);
    }
    var turned := Turn(marched);
    assert forall k | 0 <= k < |w.aliens| :: NextWave(turned, AliveCount(marched.aliens) == 0).aliens[k] == turned.aliens[k];
  }

  /** The turn at the walls, over a whole live step. */
  lemma StepTurnsAtWalls(w: World, left: bool, right: bool, draws: seq<real>)
    requires |draws| == |w.aliens| && !w.player.dead
    ensures var after := Step(w, left, right, draws);
      var flips := Flips(Marching(w.aliens, Velocity(w.speed, w.rightward)), w.rightward);
      |after.aliens| >= |w.aliens|
      && (flips ==>
            after.rightward == !w.rightward && after.speed == w.speed + 0.05
            && forall k | 0 <= k < |w.aliens| :: after.aliens[k].y == w.aliens[k].y + StepDown)
      && (!flips && AliveCount(w.aliens) > 0 ==>
            after.rightward == w.rightward && after.speed == w.speed
            && forall k | 0 <= k < |w.aliens| :: after.aliens[k].y == w.aliens[k].y)
  {
    AdvanceTurnsAtWalls(w, left, right, draws);
    ResolveFacts(Advance(w, left, right, draws));
  }

  /**
   * A step that finds no live alien starts the next wave: one more wave, the
   * speed 0.5 + 0.2 per wave, and a new formation of 50 appended at the grid
   * positions (the formation does not turn in that step).
   */
  lemma AdvanceStartsWave(w: World, left: bool, right: bool, draws: seq<real>)
    requires |draws| == |w.aliens| && AliveCount(w.aliens) == 0
    ensures var mid := Advance(w, left, right, draws);
      mid.wave == w.wave + 1 && mid.speed == 0.5 + mid.wave as real * 0.2
      && mid.rightward == w.rightward && |mid.aliens| == |w.aliens| + 50
      && forall k | 0 <= k < 50 :: mid.aliens[|w.aliens| + k] == GridAlien(k)
  {
    var marched := March(Steer(w, left, right), draws);
    assert marched.aliens == Marching(w.aliens, Velocity(w.speed, w.rightward));
    MarchingKeepsRows(w.aliens, Velocity(w.speed, w.rightward));
    ClearedNeverFlips(marched.aliens, w.rightward);
    var renewed := NextWave(marched, true);
    assert forall k | 0 <= k < 50 :: renewed.aliens[|w.aliens| + k] == Formation()[k];
  }

  /** The new wave, over a whole live step: shots may kill the new aliens, but not move them. */
  lemma StepStartsWave(w: World, left: bool, right: bool, draws: seq<real>)
    requires |draws| == |w.aliens| && !w.player.dead && AliveCount(w.aliens) == 0
    ensures var after := Step(w, left, right, draws);
      after.wave == w.wave + 1 && after.speed == 0.5 + after.wave as real * 0.2
      && after.rightward == w.rightward && |after.aliens| == |w.aliens| + 50
      && forall k | 0 <= k < 50 ::
        after.aliens[|w.aliens| + k].x == GridAlien(k).x && after.aliens[|w.aliens| + k].y == GridAlien(k).y
  {
    AdvanceStartsWave(w, left, right, draws);
    ResolveFacts(Advance(w, left, right, draws));
  }

  /**
   * Each fireball shoots down at most one alien and each kill is worth 100:
   * over a live step the score grows by 100 per alien the fireballs kill,
   * and they kill no more aliens than there were fireballs.
   */
  lemma StepScoresKills(w: World, left: bool, right: bool, draws: seq<real>)
    requires |draws| == |w.aliens| && !w.player.dead
    ensures var mid := Advance(w, left, right, draws);
      var after := Step(w, left, right, draws);
      var kills := AliveCount(mid.aliens) - AliveCount(after.aliens);
      after.score == w.score + 100 * kills && 0 <= kills <= |w.fireballs|
  {
    AdvanceTurnsAtWalls(w, left, right, draws);
    ResolveFacts(Advance(w, left, right, draws));
  }

  // ---------------------------------------------------------------- firing

  /** `fire` shoots: the player is alive and 250 ms have passed since the last shot. */
  predicate MayFire(dead: bool, lastFire: int, now: int)
  {
    !dead && now - lastFire >= FireGap
  }

  /** Shot times at least 250 ms apart, in the order they were fired. */
  predicate Spaced(times: seq<int>)
  {
    forall i | 0 < i < |times| :: times[i] - times[i - 1] >= FireGap
  }

  /** A shot allowed after the last one keeps the shots spaced. */
  lemma SpacedAfterFire(times: seq<int>, dead: bool, now: int)
    requires Spaced(times) && |times| > 0 && MayFire(dead, times[|times| - 1], now)
    ensures Spaced(times + [now])
  {
  }

  /** The keys `onKey` handles. */
  const Controls: set<string> := {"a", "d", "ArrowLeft", "ArrowRight", " "}

  /** `keys[k]`, where a key never pressed reads as `undefined`. */
  predicate Held(keys: map<string, bool>, k: string)
  {
    k in keys && keys[k]
  }

  /** The closure state of `loadBreath` (particles and screen shake are drawing only). */
  class Game {
    var aliens: seq<Alien>
    var fireballs: seq<Shot>
    var bombs: seq<Shot>
    var player: Player
    var score: int
    var wave: int
    var keys: map<string, bool>
    var rightward: bool
    var speed: real
    var lastFire: int
    /** The times of all shots fired so far. */
    ghost var shots: seq<int>

    function Snapshot(): World
      reads this
    {
      World(aliens, fireballs, bombs, player, score, wave, rightward, speed)
    }

    /** Shots are spaced, and `lastFire` is the time of the latest. */
    ghost predicate Paced()
      reads this
    {
      Spaced(shots) && (|shots| > 0 ==> lastFire == shots[|shots| - 1])
    }

    predicate Left()
      reads this
    {
      Held(keys, "a") || Held(keys, "ArrowLeft")
    }

    predicate Right()
      reads this
    {
      Held(keys, "d") || Held(keys, "ArrowRight")
    }

    /** The closure's initial values, before the first `reset`. */
    constructor ()
      ensures Snapshot() == World([], [], [], Player(250.0, 460.0, false), 0, 1, true, 0.5)
      ensures keys == map[] && lastFire == 0 && shots == [] && Paced()
    {
      aliens, fireballs, bombs := [], [], [];
      player := Player(250.0, 460.0, false);
      score, wave := 0, 1;
      keys := map[];
      rightward, speed := true, 0.5;
      lastFire := 0;
      shots := [];
    }

    /** `reset`: a new game at wave 1 with a fresh formation; `lastFire` and the keys survive it. */
    method Reset()
      modifies this`aliens, this`fireballs, this`bombs, this`player, this`score, this`wave,
        this`rightward, this`speed
      ensures Snapshot() == World(Formation(), [], [], Player(250.0, 460.0, false), 0, 1, true, 0.5 + 1.0 * 0.2)
    {
      aliens, fireballs, bombs := [], [], [];
      player := Player(250.0, 460.0, false);
      score, wave := 0, 1;
      rightward := true;
      speed := 0.5 + wave as real * 0.2;
      SpawnAliens();
    }

    /** `spawnAliens`: appends the 5x10 formation, row by row. */
    method SpawnAliens()
      modifies this`aliens
      ensures aliens == old(aliens) + Formation()
    {
      for r := 0 to 5
        invariant aliens == old(aliens) + Formation()[..10 * r]
      {
        for c := 0 to 10
          invariant aliens == old(aliens) + Formation()[..10 * r + c]
        {
          FormationAt(r, c);
          assert Formation()[..10 * r + c + 1] == Formation()[..10 * r + c] + [Formation()[10 * r + c]];
          aliens := aliens + [Alien(40.0 + c as real * 40.0, 60.0 + r as real * 35.0, true)];
        }
      }
      assert Formation()[..50] == Formation();
    }

    /** `fire`, at time `now` (`Date.now()`). */
    method Fire(now: int)
      requires Paced()
      modifies this`fireballs, this`lastFire, this`shots
      ensures Paced()
      ensures MayFire(player.dead, old(lastFire), now) ==>
        fireballs == old(fireballs) + [Shot(player.x, player.y - 15.0)] && lastFire == now
        && shots == old(shots) + [now]
      ensures !MayFire(player.dead, old(lastFire), now) ==>
        fireballs == old(fireballs) && lastFire == old(lastFire) && shots == old(shots)
    {
      if player.dead {
        return;
      }
      if now - lastFire < 250 {
        return;
      }
      if |shots| > 0 {
        SpacedAfterFire(shots, player.dead, now);
      }
      fireballs := fireballs + [Shot(player.x, player.y - 15.0)];
      lastFire := now;
      shots := shots + [now];
    }

    /** `onKey`: a control key records whether it is down; space going down fires. */
    method OnKey(key: string, down: bool, now: int)
      requires Paced()
      modifies this`keys, this`fireballs, this`lastFire, this`shots
      ensures Paced()
      ensures keys == if key in Controls then old(keys)[key := down] else old(keys)
      ensures !(key == " " && down) ==> fireballs == old(fireballs) && lastFire == old(lastFire)
      ensures key == " " && down && MayFire(player.dead, old(lastFire), now) ==>
        fireballs == old(fireballs) + [Shot(player.x, player.y - 15.0)] && lastFire == now
        && shots == old(shots) + [now]
      ensures !(key == " " && down && MayFire(player.dead, old(lastFire), now)) ==>
        fireballs == old(fireballs) && lastFire == old(lastFire) && shots == old(shots)
    {
      if key in Controls {
        keys := keys[key := down];
        if key == " " && down {
          Fire(now);
        }
      }
    }

    /** `onMouse`: the mouse sets x directly; the clamp waits for the next step. */
    method OnMouse(x: real)
      modifies this`player
      ensures player == old(player).(x := x)
    {
      player := player.(x := x);
    }

    /** `onClick`. */
    method OnClick(now: int)
      requires Paced()
      modifies this`fireballs, this`lastFire, this`shots
      ensures Paced()
      ensures MayFire(player.dead, old(lastFire), now) ==>
        fireballs == old(fireballs) + [Shot(player.x, player.y - 15.0)] && lastFire == now
      ensures !MayFire(player.dead, old(lastFire), now) ==>
        fireballs == old(fireballs) && lastFire == old(lastFire)
    {
      Fire(now);
    }

    /** One alien of the march: a live one moves by `step` and may drop a bomb from its new spot. */
    method MarchOne(i: int, step: real, draws: seq<real>) returns (a: Alien)
      requires 0 <= i < |aliens| == |draws|
      modifies this`aliens, this`bombs
      ensures a == Marched(old(aliens[i]), step) && aliens == old(aliens)[i := a]
      ensures bombs == old(bombs) + (if a.alive && draws[i] < BombChance(wave) then [Shot(a.x, a.y + 10.0)] else [])
    {
      a := aliens[i];
      if a.alive {
        a := a.(x := a.x + step);
        if draws[i] < 0.002 + wave as real * 0.0005 {
          bombs := bombs + [Shot(a.x, a.y + 10.0)];
        }
        aliens := aliens[i := a];
      }
    }

    /** The live aliens' march, gathering the walls reached, `lowestY`, the live count and the bombs. */
    method MarchAliens(draws: seq<real>) returns (edgeRight: bool, edgeLeft: bool, lowestY: real, aliveCount: int)
      requires |draws| == |aliens|
      modifies this`aliens, this`bombs
      ensures aliens == Marching(old(aliens), Velocity(speed, rightward))
      ensures bombs == old(bombs) + Bombed(aliens, draws, BombChance(wave))
      ensures edgeRight == AtRight(aliens) && edgeLeft == AtLeft(aliens)
      ensures lowestY == Lowest(aliens) && aliveCount == AliveCount(aliens)
    {
      ghost var start := aliens;
      var step := Velocity(speed, rightward);
      edgeRight, edgeLeft, lowestY, aliveCount := false, false, 0.0, 0;
      var i := 0;
      while i < |aliens|
        invariant 0 <= i <= |aliens| == |start|
        invariant forall k | 0 <= k < i :: aliens[k] == Marched(start[k], step)
        invariant forall k | i <= k < |aliens| :: aliens[k] == start[k]
        invariant edgeRight == AtRight(Marching(start[..i], step))
        invariant edgeLeft == AtLeft(Marching(start[..i], step))
        invariant lowestY == Lowest(Marching(start[..i], step))
        invariant aliveCount == AliveCount(Marching(start[..i], step))
        invariant bombs == old(bombs) + Bombed(Marching(start[..i], step), draws, BombChance(wave))
      {
        MarchOneMore(start, i, step, draws, BombChance(wave));
        var a := MarchOne(i, step, draws);
        if a.alive {
          aliveCount := aliveCount + 1;
          if a.x >= 475.0 {
            edgeRight := true;
          }
          if a.x <= 25.0 {
            edgeLeft := true;
          }
          if a.y > lowestY {
            lowestY := a.y;
          }
        }
        i := i + 1;
      }
      assert start[..i] == start;
    }

    /** `aliens.forEach(a => a.y += alienStepDown)`. */
    method DescendAll()
      modifies this`aliens
      ensures aliens == Descended(old(aliens))
    {
      var i := 0;
      while i < |aliens|
        invariant 0 <= i <= |aliens| == |old(aliens)|
        invariant forall k | 0 <= k < i :: aliens[k] == old(aliens[k]).(y := old(aliens[k]).y + StepDown)
        invariant forall k | i <= k < |aliens| :: aliens[k] == old(aliens[k])
      {
        aliens := aliens[i := aliens[i].(y := aliens[i].y + StepDown)];
        i := i + 1;
      }
    }

    /** `fireballs.forEach(f => f.y -= 9)`. */
    method RaiseFireballs()
      modifies this`fireballs
      ensures fireballs == Shifted(old(fireballs), -9.0)
    {
      var i := 0;
      while i < |fireballs|
        invariant 0 <= i <= |fireballs| == |old(fireballs)|
        invariant forall k | 0 <= k < i :: fireballs[k] == old(fireballs[k]).(y := old(fireballs[k]).y + -9.0)
        invariant forall k | i <= k < |fireballs| :: fireballs[k] == old(fireballs[k])
      {
        fireballs := fireballs[i := fireballs[i].(y := fireballs[i].y - 9.0)];
        i := i + 1;
      }
    }

    /** `bombs.forEach(b => b.y += 4)`. */
    method LowerBombs()
      modifies this`bombs
      ensures bombs == Shifted(old(bombs), 4.0)
    {
      var i := 0;
      while i < |bombs|
        invariant 0 <= i <= |bombs| == |old(bombs)|
        invariant forall k | 0 <= k < i :: bombs[k] == old(bombs[k]).(y := old(bombs[k]).y + 4.0)
        invariant forall k | i <= k < |bombs| :: bombs[k] == old(bombs[k])
      {
        bombs := bombs[i := bombs[i].(y := bombs[i].y + 4.0)];
        i := i + 1;
      }
    }

    /** The inner scan for fireball `f`: the first live alien in its box dies and scores 100. */
    method Strike(f: Shot) returns (hit: bool)
      modifies this`aliens, this`score
      ensures FirstHit(f, old(aliens), 0).None? ==> !hit && aliens == old(aliens) && score == old(score)
      ensures FirstHit(f, old(aliens), 0).Some? ==>
        (hit && score == old(score) + 100 && aliens == Killed(old(aliens), FirstHit(f, old(aliens), 0).value))
    {
      ghost var first := FirstHit(f, aliens, 0);
      hit := false;
      var j := 0;
      while j < |aliens|
        invariant 0 <= j <= |aliens| == |old(aliens)|
        invariant !hit ==> aliens == old(aliens) && score == old(score) && (first.None? || first.value >= j)
        invariant hit ==>
          (first.Some? && first.value < j && score == old(score) + 100 && aliens == Killed(old(aliens), first.value))
      {
        var a := aliens[j];
        if a.alive && !hit {
          if f.x > a.x - 15.0 && f.x < a.x + 15.0 && f.y > a.y - 10.0 && f.y < a.y + 10.0 {
            aliens := aliens[j := a.(alive := false)];
            hit := true;
            score := score + 100;
          }
        }
        j := j + 1;
      }
    }

    /** The fireball-alien collisions, and `fireballs.filter(f => !f.hit)`. */
    method CollideFireballs()
      modifies this`aliens, this`score, this`fireballs
      ensures (aliens, fireballs, score - old(score)) ==
        var r := CollideAll(old(fireballs), old(aliens)); (r.0, r.1, 100 * r.2)
    {
      var flying := fireballs;
      var missed: seq<Shot> := [];
      ghost var kills := 0;
      var i := 0;
      while i < |flying|
        invariant 0 <= i <= |flying| && flying == old(fireballs)
        invariant (aliens, missed, kills) == CollideAll(flying[..i], old(aliens))
        invariant score == old(score) + 100 * kills
      {
        assert flying[..i + 1][..i] == flying[..i];
        var hit := Strike(flying[i]);
        if !hit {
          missed := missed + [flying[i]];
        } else {
          kills := kills + 1;
        }
        i := i + 1;
      }
      assert flying[..i] == flying;
      fireballs := missed;
    }

    /** The bomb-player collisions: any bomb closer than 22 ends the game. */
    method BlastPlayer()
      modifies this`player
      ensures player == if AnyClose(bombs, old(player)) then old(player).(dead := true) else old(player)
    {
      var i := 0;
      while i < |bombs|
        invariant 0 <= i <= |bombs|
        invariant player == if exists k | 0 <= k < i :: Close(bombs[k], old(player))
          then old(player).(dead := true) else old(player)
      {
        var b := bombs[i];
        if (b.x - player.x) * (b.x - player.x) + (b.y - player.y) * (b.y - player.y) < 484.0 {
          player := player.(dead := true);
        }
        i := i + 1;
      }
    }

    /** The player's movement and clamp. */
    method SteerPlayer(left: bool, right: bool)
      modifies this`player
      ensures Snapshot() == Steer(old(Snapshot()), left, right)
    {
      if left {
        player := player.(x := player.x - 6.0);
      }
      if right {
        player := player.(x := player.x + 6.0);
      }
      if player.x < 20.0 {
        player := player.(x := 20.0);
      }
      if player.x > 480.0 {
        player := player.(x := 480.0);
      }
    }

    /** The march, as a change of the whole state. */
    method MarchPhase(draws: seq<real>) returns (edgeRight: bool, edgeLeft: bool, lowestY: real, aliveCount: int)
      requires |draws| == |aliens|
      modifies this`aliens, this`bombs
      ensures Snapshot() == March(old(Snapshot()), draws)
      ensures edgeRight == AtRight(aliens) && edgeLeft == AtLeft(aliens)
      ensures lowestY == Lowest(aliens) && aliveCount == AliveCount(aliens)
    {
      edgeRight, edgeLeft, lowestY, aliveCount := MarchAliens(draws);
    }

    /** The turn at a wall the formation is heading into. */
    method TurnPhase(edgeRight: bool, edgeLeft: bool)
      requires edgeRight == AtRight(aliens) && edgeLeft == AtLeft(aliens)
      modifies this`aliens, this`rightward, this`speed
      ensures Snapshot() == Turn(old(Snapshot()))
    {
      if (edgeRight && rightward) || (edgeLeft && !rightward) {
        rightward := !rightward;
        DescendAll();
        speed := speed + 0.05;
      }
    }

    /** The wave clear, when the march found no live alien. */
    method WavePhase(cleared: bool)
      modifies this`aliens, this`wave, this`speed
      ensures Snapshot() == NextWave(old(Snapshot()), cleared)
    {
      if cleared {
        wave := wave + 1;
        speed := 0.5 + wave as real * 0.2;
        SpawnAliens();
      }
    }

    /** The breach: `triggerGameOver` when `lowestY` is below 440. */
    method BreachPhase(lowestY: real)
      modifies this`player
      ensures Snapshot() == Breach(old(Snapshot()), lowestY)
    {
      if lowestY > 440.0 {
        player := player.(dead := true);
      }
    }

    /** The projectiles' move and the two filters. */
    method FlyPhase()
      modifies this`fireballs, this`bombs
      ensures Snapshot() == Fly(old(Snapshot()))
    {
      RaiseFireballs();
      LowerBombs();
      fireballs := Filter(fireballs, Aloft);
      bombs := Filter(bombs, Falling);
    }

    /** The fireball collisions, as a change of the whole state. */
    method CollidePhase()
      modifies this`aliens, this`score, this`fireballs
      ensures Snapshot() == Collide(old(Snapshot()))
    {
      CollideFireballs();
    }

    /** The bomb collisions, as a change of the whole state. */
    method BlastPhase()
      modifies this`player
      ensures Snapshot() == Blast(old(Snapshot()))
    {
      BlastPlayer();
    }

    /** `gameStep`; `draws` holds the bomb draw for each alien, by index. */
    method GameStep(draws: seq<real>)
      requires |draws| == |aliens|
      modifies this`aliens, this`fireballs, this`bombs, this`player, this`score, this`wave,
        this`rightward, this`speed
      ensures Snapshot() == Step(old(Snapshot()), old(Left()), old(Right()), draws)
    {
      if player.dead {
        return;
      }
      ghost var w0 := Snapshot();
      var left := Held(keys, "a") || Held(keys, "ArrowLeft");
      var right := Held(keys, "d") || Held(keys, "ArrowRight");
      SteerPlayer(left, right);
      ghost var w1 := Snapshot();
      var edgeRight, edgeLeft, lowestY, aliveCount := MarchPhase(draws);
      ghost var w2 := Snapshot();
      TurnPhase(edgeRight, edgeLeft);
      ghost var w3 := Snapshot();
      WavePhase(aliveCount == 0);
      ghost var w4 := Snapshot();
      BreachPhase(lowestY);
      assert Snapshot() == Breach(w4, Lowest(w2.aliens));
      assert w4 == NextWave(w3, AliveCount(w2.aliens) == 0);
      assert Snapshot() == Advance(w0, left, right, draws);
      FlyPhase();
      CollidePhase();
      BlastPhase();
    }
  }
}
