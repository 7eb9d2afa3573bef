/**
 * The mutable run state and the per-frame update. World holds what the program keeps in
 * module-level variables: the player's position, its state record, and the coin and enemy lists.
 * Each method updates those fields in the source's order and is proved against the matching
 * function of Integrator, Resolver and Reactors.
 */
module Game {
  import opened Geometry
  import opened Seqs
  import opened Entities
  import opened Integrator
  import opened Resolver
  import opened Reactors

  datatype State = State(player: Player, coins: seq<Vec3>, enemies: seq<Enemy>)

  /** One tick: integrate, resolve, fall check, coins, enemies, goal. */
  function Frame(w: State, solids: seq<Solid>, spawn: Vec3, goal: Option<Vec3>, delta: real, keys: set<string>): State {
    var dt := FrameDt(delta);
    var moved := Integrate(w.player, dt, Intent(keys), WantJump(keys));
    var resolved := Resolve(moved, w.player.pos.y, solids);
    var alive := FallCheck(resolved, spawn);
    var collected := Collect(alive, w.coins);
    var fought := EnemiesStep(collected.0, w.enemies, dt, spawn);
    State(ReachGoal(fought.0, goal), collected.1, fought.1)
  }

  /** Over a frame the coin count grows by exactly the number of coins removed, and the rest keep their order. */
  lemma FrameCoinCount(w: State, solids: seq<Solid>, spawn: Vec3, goal: Option<Vec3>, delta: real, keys: set<string>)
    ensures var r := Frame(w, solids, spawn, goal, delta, keys);
      |r.coins| <= |w.coins| && r.player.coins == w.player.coins + (|w.coins| - |r.coins|) &&
      Subsequence(r.coins, w.coins)
  {
    var dt := FrameDt(delta);
    var moved := Integrate(w.player, dt, Intent(keys), WantJump(keys));
    var alive := FallCheck(Resolve(moved, w.player.pos.y, solids), spawn);
    PickupSplits(w.coins, alive.pos);
    RemainingInOrder(w.coins, alive.pos);
    var collected := Collect(alive, w.coins);
    PatrolRunKeeps(PlayerBox(collected.0.pos), collected.0, w.enemies, FrameDt(delta), spawn);
  }

  /** Deaths never go down in a frame, and finished is only cleared by a death. */
  lemma FrameFinishedLostOnlyByDeath(w: State, solids: seq<Solid>, spawn: Vec3, goal: Option<Vec3>, delta: real, keys: set<string>)
    ensures var r := Frame(w, solids, spawn, goal, delta, keys);
      r.player.deaths >= w.player.deaths &&
      (w.player.finished && !r.player.finished ==> r.player.deaths > w.player.deaths)
  {
    var dt := FrameDt(delta);
    var moved := Integrate(w.player, dt, Intent(keys), WantJump(keys));
    var alive := FallCheck(Resolve(moved, w.player.pos.y, solids), spawn);
    var collected := Collect(alive, w.coins);
    PatrolRunKeeps(PlayerBox(collected.0.pos), collected.0, w.enemies, dt, spawn);
  }

  class World {
    // player.position
    var pos: Vec3
    // playerState
    var vel: Vec3
    var onGround: bool
    var coinCount: nat
    var deaths: nat
    var finished: bool
    // the live coin and enemy lists
    var coins: seq<Vec3>
    var enemies: seq<Enemy>
    // level data fixed at build time
    const solids: seq<Solid>
    const spawn: Vec3
    const goal: Option<Vec3>

    /** Every live enemy heads +-1 and none is left marked dead between frames. */
    ghost predicate Valid()
      reads this
    {
      forall e :: e in enemies ==> Patrolling(e)
    }

    function Snapshot(): Player
      reads this
    {
      Player(pos, vel, onGround, coinCount, deaths, finished)
    }

    function Current(): State
      reads this
    {
      State(Snapshot(), coins, enemies)
    }

    /** The state after the level is built and before the first frame. */
    constructor (level: Level)
      requires forall e :: e in level.enemies ==> Patrolling(e)
      ensures Valid()
      ensures Snapshot() == Player(START, Zero, false, 0, 0, false)
      ensures solids == level.solids && coins == level.coins && enemies == level.enemies
      ensures spawn == SPAWN && goal == Some(level.goal)
    {
      pos := START;
      vel := Zero;
      onGround := false;
      coinCount := 0;
      deaths := 0;
      finished := false;
      coins := level.coins;
      enemies := level.enemies;
      solids := level.solids;
      spawn := SPAWN;
      goal := Some(level.goal);
    }

    /** respawn: back to spawn at rest, one more death, finished cleared, coins kept. */
    method Respawn()
      modifies this
      ensures Snapshot() == Respawned(old(Snapshot()), spawn)
      ensures pos == spawn && vel == Zero && !onGround && !finished
      ensures deaths == old(deaths) + 1 && coinCount == old(coinCount)
      ensures coins == old(coins) && enemies == old(enemies)
    {
      pos := spawn;
      vel := Zero;
      onGround := false;
      deaths := deaths + 1;
      finished := false;
    }

    /** resetRun's counters: both are zeroed, then respawn counts one death. */
    method ResetRun()
      modifies this
      ensures coinCount == 0 && deaths == 1
      ensures pos == spawn && vel == Zero && !onGround && !finished
      ensures coins == old(coins) && enemies == old(enemies)
    {
      coinCount := 0;
      deaths := 0;
      Respawn();
    }

    /** resolveCollisions: push the player out of every solid it intersects, in order. */
    method ResolveCollisions(prevPos: Vec3)
      modifies this
      ensures Snapshot() == Resolve(old(Snapshot()), prevPos.y, solids)
      ensures coins == old(coins) && enemies == old(enemies)
    {
      var a := PlayerBox(pos);
      onGround := false;
      ghost var start := Snapshot();
      for i := 0 to |solids|
        invariant Snapshot() == ResolveRun(start, prevPos.y, solids[..i])
        invariant a == PlayerBox(pos)
        invariant coins == old(coins) && enemies == old(enemies)
      {
        assert solids[..i + 1][..i] == solids[..i];
        var s := solids[i];
        var b := SolidBox(s);
        if !Intersects(a, b) {
          continue;
        }
        PushOut(prevPos, a, s);
        a := PlayerBox(pos);
      }
      assert solids[..|solids|] == solids;
    }

    /** The body of the loop in resolveCollisions for a solid the box a intersects. */
    method PushOut(prevPos: Vec3, a: Box, s: Solid)
      requires a == PlayerBox(pos) && Intersects(a, SolidBox(s))
      modifies this
      ensures Snapshot() == ResolveSolid(old(Snapshot()), prevPos.y, s)
      ensures coins == old(coins) && enemies == old(enemies)
    {
      var b := SolidBox(s);
      var ox1 := b.max.x - a.min.x;
      var ox2 := a.max.x - b.min.x;
      var oy1 := b.max.y - a.min.y;
      var oy2 := a.max.y - b.min.y;
      var oz1 := b.max.z - a.min.z;
      var oz2 := a.max.z - b.min.z;
      var px := Min(ox1, ox2);
      var py := Min(oy1, oy2);
      var pz := Min(oz1, oz2);
      assert Vec3(px, py, pz) == Penetration(a, b);
      if py <= px && py <= pz {
        assert ChooseAxis(Penetration(a, b)) == Y;
        if prevPos.y >= pos.y {
          pos := pos.(y := pos.y + (if a.min.y < b.max.y then b.max.y - a.min.y else 0.0));
          vel := vel.(y := Max(0.0, vel.y));
          onGround := true;
        } else {
          pos := pos.(y := pos.y - (if a.max.y > b.min.y then a.max.y - b.min.y else 0.0));
          vel := vel.(y := Min(0.0, vel.y));
        }
      } else if px <= pz {
        assert ChooseAxis(Penetration(a, b)) == X;
        if pos.x > s.pos.x {
          pos := pos.(x := pos.x + px);
        } else {
          pos := pos.(x := pos.x - px);
        }
        vel := vel.(x := 0.0);
      } else {
        assert ChooseAxis(Penetration(a, b)) == Z;
        if pos.z > s.pos.z {
          pos := pos.(z := pos.z + pz);
        } else {
          pos := pos.(z := pos.z - pz);
        }
        vel := vel.(z := 0.0);
      }
    }

    /** updateCoins: walk the coins from the back, splicing out those within reach. */
    method UpdateCoins()
      modifies this
      ensures (Snapshot(), coins) == Collect(old(Snapshot()), old(coins))
      ensures enemies == old(enemies)
    {
      ghost var all := coins;
      var i := |coins|;
      while i > 0
        invariant 0 <= i <= |all|
        invariant coins == all[..i] + Remaining(all[i..], pos)
        invariant coinCount == old(coinCount) + |Picked(all[i..], pos)|
        invariant pos == old(pos) && vel == old(vel) && onGround == old(onGround)
        invariant deaths == old(deaths) && finished == old(finished) && enemies == old(enemies)
      {
        i := i - 1;
        StepBack(all, i);
        ghost var rest := Remaining(all[i + 1..], pos);
        assert coins == all[..i] + [all[i]] + rest;
        SpliceOut(coins, all[..i], all[i], rest);
        var c := coins[i];
        if DistSq(c, pos) < PICKUP_DIST_SQ {
          coins := coins[..i] + coins[i + 1..];
          coinCount := coinCount + 1;
        }
      }
      assert all[..0] == [] && all[0..] == all;
      assert coins == Remaining(all, pos);
    }

    /** updateEnemies: patrol and collide each enemy against the box taken on entry, then drop the dead. */
    method UpdateEnemies(dt: real)
      requires Valid()
      modifies this
      ensures Valid()
      ensures (Snapshot(), enemies) == EnemiesStep(old(Snapshot()), old(enemies), dt, spawn)
      ensures coins == old(coins)
    {
      var pa := PlayerBox(pos);
      ghost var start := Snapshot();
      ghost var all := enemies;
      PatrolAll(pa, dt);
      RemoveDead();
      SurvivorsPatrol(pa, start, all, dt, spawn);
    }

    /** The first loop of updateEnemies, with the player box pa fixed before it starts. */
    method PatrolAll(pa: Box, dt: real)
      modifies this
      ensures Snapshot() == PatrolRun(pa, old(Snapshot()), old(enemies), dt, spawn).0
      ensures enemies == PatrolRun(pa, old(Snapshot()), old(enemies), dt, spawn).1
      ensures coins == old(coins)
    {
      ghost var start := Snapshot();
      ghost var all := enemies;
      var k := 0;
      while k < |enemies|
        invariant 0 <= k <= |enemies| == |all|
        invariant enemies[k..] == all[k..]
        invariant Snapshot() == PatrolRun(pa, start, all[..k], dt, spawn).0
        invariant enemies[..k] == PatrolRun(pa, start, all[..k], dt, spawn).1
        invariant coins == old(coins)
      {
        PatrolRunStep(pa, start, all, dt, spawn, k);
        ghost var before := enemies;
        var e := PatrolAndMeet(pa, enemies[k], dt);
        enemies := enemies[k := e];
        assert enemies[..k + 1] == before[..k] + [e];
        assert enemies[k + 1..] == before[k + 1..];
        k := k + 1;
      }
      assert all[..k] == all;
      assert enemies[..k] == enemies;
    }

    /** The body of the first loop of updateEnemies: move one enemy, then test it against the stale box pa. */
    method PatrolAndMeet(pa: Box, e0: Enemy, dt: real) returns (e: Enemy)
      modifies this
      ensures (Snapshot(), e) == Encounter(pa, old(Snapshot()), Patrol(e0, dt), spawn)
      ensures coins == old(coins) && enemies == old(enemies)
    {
      e := e0;
      e := e.(pos := e.pos.(x := e.pos.x + e.dir as real * e.speed * dt));
      assert e.pos == Patrol(e0, dt).pos;
      if Abs(e.pos.x - e.baseX) > e.range {
        e := e.(dir := e.dir * -1);
      }
      assert e.dir == Patrol(e0, dt).dir;
      assert e == Patrol(e0, dt);
      var ea := EnemyBox(e);
      if Intersects(pa, ea) {
        if Stomps(pa, vel.y, ea) {
          e := e.(dead := true);
          vel := vel.(y := JUMP_VEL * 0.75);
        } else {
          Respawn();
        }
      }
    }

    /** The second loop of updateEnemies: splice out, from the back, every enemy marked dead. */
    method RemoveDead()
      modifies this
      ensures enemies == Survivors(old(enemies))
      ensures Snapshot() == old(Snapshot()) && coins == old(coins)
    {
      ghost var marked := enemies;
      var i := |enemies|;
      while i > 0
        invariant 0 <= i <= |marked|
        invariant enemies == marked[..i] + Survivors(marked[i..])
        invariant Snapshot() == old(Snapshot()) && coins == old(coins)
      {
        i := i - 1;
        StepBack(marked, i);
        ghost var rest := Survivors(marked[i + 1..]);
        assert enemies == marked[..i] + [marked[i]] + rest;
        SpliceOut(enemies, marked[..i], marked[i], rest);
        if enemies[i].dead {
          enemies := enemies[..i] + enemies[i + 1..];
        }
      }
      assert marked[..0] == [] && marked[0..] == marked;
    }

    /** updateGoal: set finished once the player is within reach of the flag. */
    method UpdateGoal()
      modifies this
      ensures Snapshot() == ReachGoal(old(Snapshot()), goal)
      ensures coins == old(coins) && enemies == old(enemies)
    {
      if goal.None? || finished {
        return;
      }
      var d := DistSq(goal.value, pos);
      if d < GOAL_DIST_SQ {
        finished := true;
      }
    }

    /** One animation frame, in the order the loop runs its steps. */
    method Tick(delta: real, keys: set<string>)
      requires Valid()
      modifies this
      ensures Valid()
      ensures Current() == Frame(old(Current()), solids, spawn, goal, delta, keys)
    {
      ghost var w := Current();
      var dt := Min(delta, MAX_DT);
      var prev := pos;
      Move(dt, keys);
      ghost var moved := Snapshot();
      assert moved == Integrate(w.player, FrameDt(delta), Intent(keys), WantJump(keys));
      ResolveCollisions(prev);
      assert Snapshot() == Resolve(moved, w.player.pos.y, solids);
      if pos.y < FALL_Y {
        Respawn();
      }
      ghost var alive := Snapshot();
      assert alive == FallCheck(Resolve(moved, w.player.pos.y, solids), spawn);
      UpdateCoins();
      assert (Snapshot(), coins) == Collect(alive, w.coins);
      UpdateEnemies(dt);
      UpdateGoal();
    }

    /** Input, acceleration, damping, gravity, the jump and the position update of the frame. */
    method Move(dt: real, keys: set<string>)
      modifies this
      ensures Snapshot() == Integrate(old(Snapshot()), dt, Intent(keys), WantJump(keys))
      ensures coins == old(coins) && enemies == old(enemies)
    {
      ghost var p := Snapshot();
      var ax := 0.0;
      if LeftHeld(keys) {
        ax := ax - 1.0;
      }
      if RightHeld(keys) {
        ax := ax + 1.0;
      }
      assert ax == Intent(keys);
      var wantJump := WantJump(keys);
      Accelerate(dt, ax, wantJump);
      Advance(dt);
      IntegrateMatches(p, dt, ax, wantJump, Snapshot());
    }

    /** The velocity half of the step: acceleration, damping, gravity, then the grounded jump. */
    method Accelerate(dt: real, ax: real, wantJump: bool)
      modifies this
      ensures vel == Vec3(Damp(old(vel.x) + ax * MOVE_SPEED * dt * 10.0, dt),
                          if wantJump && old(onGround) then JUMP_VEL else old(vel.y) + GRAVITY * dt,
                          Damp(old(vel.z), dt))
      ensures onGround == (old(onGround) && !(wantJump && old(onGround)))
      ensures pos == old(pos) && coinCount == old(coinCount) && deaths == old(deaths) && finished == old(finished)
      ensures coins == old(coins) && enemies == old(enemies)
    {
      vel := vel.(x := vel.x + ax * MOVE_SPEED * dt * 10.0);
      vel := vel.(x := vel.x - vel.x * Min(1.0, DAMPING * dt));
      vel := vel.(z := vel.z - vel.z * Min(1.0, DAMPING * dt));
      vel := vel.(y := vel.y + GRAVITY * dt);
      if wantJump && onGround {
        vel := vel.(y := JUMP_VEL);
        onGround := false;
      }
    }

    /** The position half: move by the new velocity, then clamp the depth. */
    method Advance(dt: real)
      modifies this
      ensures pos == Vec3(old(pos.x) + vel.x * dt, old(pos.y) + vel.y * dt,
                          Clamp(old(pos.z) + vel.z * dt, -DEPTH_LIMIT, DEPTH_LIMIT))
      ensures vel == old(vel) && onGround == old(onGround)
      ensures coinCount == old(coinCount) && deaths == old(deaths) && finished == old(finished)
      ensures coins == old(coins) && enemies == old(enemies)
    {
      pos := pos.(x := pos.x + vel.x * dt);
      pos := pos.(y := pos.y + vel.y * dt);
      pos := pos.(z := pos.z + vel.z * dt);
      pos := pos.(z := Clamp(pos.z, -DEPTH_LIMIT, DEPTH_LIMIT));
    }
  }
}
