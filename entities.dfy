/** The records the simulation step reads and writes, and the level it is built from. */
module Entities {
  import opened Geometry

  /** The player collider's extents (makeBox(0.9, 1.2, 0.9)). */
  const PLAYER_SIZE := Size(0.9, 1.2, 0.9)
  /** Every enemy is an 0.8 cube. */
  const ENEMY_SIZE := Size(0.8, 0.8, 0.8)

  /** Where the player collider is placed before the first frame; not the spawn point. */
  const START := Vec3(-2.0, 1.5, 0.0)
  /** Where respawn puts the player. */
  const SPAWN := Vec3(-2.0, 1.6, 0.0)

  /** player.position together with the playerState record. */
  datatype Player = Player(pos: Vec3, vel: Vec3, onGround: bool, coins: nat, deaths: nat, finished: bool)

  /** A static platform: centre and extents. */
  datatype Solid = Solid(pos: Vec3, size: Size)

  /** A patrolling hazard; dir is +1 or -1 and baseX is the patrol centre. */
  datatype Enemy = Enemy(pos: Vec3, range: real, speed: real, baseX: real, dir: int, dead: bool)

  datatype Option<T> = None | Some(value: T)

  /** Level contents, immutable once built. */
  datatype Level = Level(solids: seq<Solid>, coins: seq<Vec3>, enemies: seq<Enemy>, goal: Vec3)

  function PlayerBox(p: Vec3): (b: Box)
    ensures b.min.y == p.y - 0.6 && b.max.y == p.y + 0.6
    ensures b.min.x == p.x - 0.45 && b.max.x == p.x + 0.45
    ensures b.min.z == p.z - 0.45 && b.max.z == p.z + 0.45
  {
    MeshAABB(p, PLAYER_SIZE)
  }

  function SolidBox(s: Solid): Box {
    MeshAABB(s.pos, s.size)
  }

  function EnemyBox(e: Enemy): (b: Box)
    ensures b.min.y == e.pos.y - 0.4 && b.max.y == e.pos.y + 0.4
    ensures b.min.x == e.pos.x - 0.4 && b.max.x == e.pos.x + 0.4
    ensures b.min.z == e.pos.z - 0.4 && b.max.z == e.pos.z + 0.4
  {
    MeshAABB(e.pos, ENEMY_SIZE)
  }

  /** addEnemy: patrol centred on the starting x, heading in the +x direction. */
  function NewEnemy(pos: Vec3, range: real, speed: real): (e: Enemy)
    ensures e.pos == pos && e.range == range && e.speed == speed
    ensures e.baseX == pos.x && e.dir == 1 && !e.dead
  {
    Enemy(pos, range, speed, pos.x, 1, false)
  }

  function Platform(x: real, y: real, z: real, w: real, h: real, d: real): Solid {
    Solid(Vec3(x, y, z), Size(w, h, d))
  }

  /** The level buildLevel lays out: the ground, ten platforms, ten coins, two enemies and the flag. */
  const LEVEL := Level(
    [ Platform(0.0, -0.5, 0.0, 60.0, 1.0, 18.0),
      Platform(0.0, 1.2, 0.0, 4.0, 0.6, 4.0),
      Platform(5.0, 2.3, 0.0, 4.0, 0.6, 4.0),
      Platform(9.0, 3.4, 0.0, 3.0, 0.6, 4.0),
      Platform(13.0, 4.6, 0.0, 3.0, 0.6, 4.0),
      Platform(17.0, 5.2, 0.0, 4.0, 0.6, 4.0),
      Platform(22.0, 4.1, 0.0, 4.0, 0.6, 4.0),
      Platform(27.0, 3.0, 0.0, 5.0, 0.6, 4.0),
      Platform(33.0, 2.2, 0.0, 4.0, 0.6, 4.0),
      Platform(38.0, 2.2, 0.0, 4.0, 0.6, 4.0),
      Platform(43.0, 3.0, 0.0, 4.0, 0.6, 4.0) ],
    [ Vec3(0.0, 2.2, 0.0), Vec3(5.0, 3.2, 0.0), Vec3(9.0, 4.3, 0.0), Vec3(13.0, 5.5, 0.0),
      Vec3(17.0, 6.2, 0.0), Vec3(22.0, 5.1, 0.0), Vec3(27.0, 4.0, 0.0), Vec3(33.0, 3.2, 0.0),
      Vec3(38.0, 3.2, 0.0), Vec3(43.0, 4.0, 0.0) ],
    [ NewEnemy(Vec3(9.0, 4.3, 0.0), 1.5, 1.0),
      NewEnemy(Vec3(27.0, 3.9, 0.0), 2.2, 1.3) ],
    Vec3(47.0, 4.2, 0.0))

  /** Enemies as the frame loop expects them: heading +-1 and not yet marked dead. */
  predicate Patrolling(e: Enemy) {
    (e.dir == 1 || e.dir == -1) && !e.dead
  }

  /** The built level: the ground and ten platforms of non-negative size, ten coins, two live patrollers. */
  lemma LevelReady()
    ensures |LEVEL.solids| == 11 && |LEVEL.coins| == 10 && |LEVEL.enemies| == 2
    ensures forall i :: 0 <= i < |LEVEL.solids| ==> NonNegative(LEVEL.solids[i].size)
    ensures forall e :: e in LEVEL.enemies ==> Patrolling(e)
  {
    var ss := LEVEL.solids;
    forall i | 0 <= i < |ss|
      ensures NonNegative(ss[i].size)
    {
    }
  }
}
