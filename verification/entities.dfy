/**
 * The arena and the two kinds of moving entity in DoomBench: the bullets the
 * player fires and the enemies that appear at the edge of the arena and chase
 * the player.  Coordinates that the source keeps as Python floats are reals
 * here; coordinates it keeps as Python ints are ints.
 */
module Entities {

  /** Size of the arena (the window) in pixels. */
  const Width: int := 800
  const Height: int := 600

  /** The player is a square of this side that moves this far per frame and key. */
  const PlayerSize: int := 40
  const PlayerSpeed: int := 5

  /** Largest coordinates of the player's top-left corner that keep it inside the arena. */
  const MaxPlayerX: nat := Width - PlayerSize
  const MaxPlayerY: nat := Height - PlayerSize

  /** Enemies are squares of this side. */
  const EnemySize: int := 30

  /** The player's top-left corner lies inside the arena. */
  predicate InArena(px: int, py: int)
  {
    0 <= px <= MaxPlayerX && 0 <= py <= MaxPlayerY
  }

  // ---------------------------------------------------------------- bullets

  /** A bullet: its centre and the velocity fixed when it was fired. */
  datatype Bullet = Bullet(x: real, y: real, dx: real, dy: real)

  /** The bullet fired by a player whose top-left corner is (px, py): it starts
      at the player's centre and flies with the given velocity. */
  function Shot(px: int, py: int, dx: real, dy: real): (b: Bullet)
    ensures b.x == px as real + PlayerSize as real / 2.0 && b.y == py as real + PlayerSize as real / 2.0
    ensures InArena(px, py) ==> !OffScreen(b)
    ensures b.dx == dx && b.dy == dy
  {
    Bullet(px as real + PlayerSize as real / 2.0, py as real + PlayerSize as real / 2.0, dx, dy)
  }

  /** One frame of flight: the position moves by the velocity. */
  function Advance(b: Bullet): Bullet
  {
    b.(x := b.x + b.dx, y := b.y + b.dy)
  }

  /** A bullet after n frames of flight. */
  function Flight(b: Bullet, n: nat): Bullet
  {
    if n == 0 then b else Advance(Flight(b, n - 1))
  }

  /** Bullets fly in a straight line at constant speed: no acceleration, no friction. */
  lemma {:induction false} FlightIsUniform(b: Bullet, n: nat)
    ensures Flight(b, n) == b.(x := b.x + n as real * b.dx, y := b.y + n as real * b.dy)
  {
    if n > 0 {
      FlightIsUniform(b, n - 1);
      assert (n - 1) as real * b.dx + b.dx == n as real * b.dx;
      assert (n - 1) as real * b.dy + b.dy == n as real * b.dy;
    }
  }

  /** A bullet has left the arena when its centre is outside the closed
      rectangle [0, Width] x [0, Height]. */
  predicate OffScreen(b: Bullet)
  {
    b.x < 0.0 || b.x > Width as real || b.y < 0.0 || b.y > Height as real
  }

  // ---------------------------------------------------------------- enemies

  /** An enemy: its top-left corner. */
  datatype Enemy = Enemy(x: real, y: real)

  /** The edge of the arena a new enemy appears beyond. */
  datatype Side = Top | Bottom | Left | Right

  /** The two random choices behind a new enemy: the side, and the offset along it. */
  datatype Draw = Draw(side: Side, offset: int)

  /** Largest offset along a side: the enemy stays level with the arena. */
  function MaxOffset(side: Side): int
  {
    if side == Top || side == Bottom then Width - EnemySize else Height - EnemySize
  }

  /** A draw the random generator can produce: the offset is a `randint(0, MaxOffset(side))`. */
  type SpawnDraw = d: Draw | 0 <= d.offset <= MaxOffset(d.side) witness Draw(Top, 0)

  predicate IsWhole(r: real)
  {
    r.Floor as real == r
  }

  /** The places a new enemy can occupy: one whole-number coordinate level
      with the arena, the other exactly one enemy size beyond an edge. */
  predicate OnSpawnRing(e: Enemy)
  {
    var beyond := EnemySize as real;
    || (e.y == -beyond && IsWhole(e.x) && 0.0 <= e.x <= (Width - EnemySize) as real)
    || (e.y == Height as real + beyond && IsWhole(e.x) && 0.0 <= e.x <= (Width - EnemySize) as real)
    || (e.x == -beyond && IsWhole(e.y) && 0.0 <= e.y <= (Height - EnemySize) as real)
    || (e.x == Width as real + beyond && IsWhole(e.y) && 0.0 <= e.y <= (Height - EnemySize) as real)
  }

  predicate OutsideX(e: Enemy)
  {
    e.x < 0.0 || e.x > Width as real
  }

  predicate OutsideY(e: Enemy)
  {
    e.y < 0.0 || e.y > Height as real
  }

  /** Where a new enemy is placed for a given draw. */
  function Place(d: SpawnDraw): (e: Enemy)
    ensures OnSpawnRing(e)
    ensures OutsideX(e) != OutsideY(e)
    ensures OutsideY(e) <==> d.side == Top || d.side == Bottom
    ensures e.y < 0.0 <==> d.side == Top
    ensures e.x < 0.0 <==> d.side == Left
  {
    match d.side
    case Top => Enemy(d.offset as real, -EnemySize as real)
    case Bottom => Enemy(d.offset as real, (Height + EnemySize) as real)
    case Left => Enemy(-EnemySize as real, d.offset as real)
    case Right => Enemy((Width + EnemySize) as real, d.offset as real)
  }

  /** Every place on the spawn ring is reached by some draw. */
  lemma PlaceCovers(e: Enemy)
    requires OnSpawnRing(e)
    ensures exists d: SpawnDraw :: Place(d) == e
  {
    var beyond := EnemySize as real;
    if e.y == -beyond && IsWhole(e.x) && 0.0 <= e.x <= (Width - EnemySize) as real {
      var d: SpawnDraw := Draw(Top, e.x.Floor);
      assert Place(d) == e;
    } else if e.y == Height as real + beyond && IsWhole(e.x) && 0.0 <= e.x <= (Width - EnemySize) as real {
      var d: SpawnDraw := Draw(Bottom, e.x.Floor);
      assert Place(d) == e;
    } else if e.x == -beyond {
      var d: SpawnDraw := Draw(Left, e.y.Floor);
      assert Place(d) == e;
    } else {
      var d: SpawnDraw := Draw(Right, e.y.Floor);
      assert Place(d) == e;
    }
  }

  /** The enemies created by one spawn event of n enemies, the k-th from draw k. */
  function Batch(draws: nat -> SpawnDraw, n: nat): (r: seq<Enemy>)
    ensures |r| == n
    ensures forall e :: e in r ==> OnSpawnRing(e)
  {
    var r := seq(n, k requires 0 <= k < n => Place(draws(k)));
    forall k | 0 <= k < n
      ensures OnSpawnRing(r[k])
    {
      var d := draws(k);
      assert r[k] == Place(d);
    }
    r
  }
}
