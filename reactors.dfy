/**
 * The gameplay reactions evaluated after collision resolution: coin pickup, enemy patrol and
 * stomp-or-die, the goal flag and respawn.
 */
module Reactors {
  import opened Geometry
  import opened Entities
  import opened Seqs
  import Integrator

  /** 0.9 squared: coins are picked up at distance below 0.9. */
  const PICKUP_DIST_SQ := 0.81
  /** 1.1 squared: the goal triggers at distance below 1.1. */
  const GOAL_DIST_SQ := 1.21
  /** The player dies below this height. */
  const FALL_Y := -10.0
  /** Upward velocity after a stomp: three quarters of a jump. */
  const STOMP_BOUNCE := Integrator.JUMP_VEL * 0.75

  function DistSq(a: Vec3, b: Vec3): (d: real)
    ensures d >= 0.0
  {
    (a.x - b.x) * (a.x - b.x) + (a.y - b.y) * (a.y - b.y) + (a.z - b.z) * (a.z - b.z)
  }

  // ----- respawn -----

  /** respawn: back to the spawn point at rest, one more death, not finished; coins are kept. */
  function Respawned(p: Player, spawn: Vec3): (r: Player)
    ensures r.pos == spawn && r.vel == Zero && !r.onGround && !r.finished
    ensures r.deaths == p.deaths + 1 && r.coins == p.coins
  {
    p.(pos := spawn, vel := Zero, onGround := false, deaths := p.deaths + 1, finished := false)
  }

  /** The fail condition checked after resolution. */
  function FallCheck(p: Player, spawn: Vec3): (r: Player)
    ensures p.pos.y < FALL_Y ==>
      r.deaths == p.deaths + 1 && r.pos == spawn && r.vel == Zero && !r.onGround && !r.finished
    ensures p.pos.y >= FALL_Y ==> r == p
    ensures r.coins == p.coins
  {
    if p.pos.y < FALL_Y then Respawned(p, spawn) else p
  }

  // ----- coins -----

  predicate Collects(c: Vec3, p: Vec3) {
    DistSq(c, p) < PICKUP_DIST_SQ
  }

  /** The coins left after a pickup pass, in their original order. */
  function Remaining(cs: seq<Vec3>, p: Vec3): (r: seq<Vec3>)
    ensures |r| <= |cs|
  {
    if cs == [] then []
    else (if Collects(cs[0], p) then [] else [cs[0]]) + Remaining(cs[1..], p)
  }

  /** The coins a pickup pass removes. */
  function Picked(cs: seq<Vec3>, p: Vec3): (r: seq<Vec3>)
    ensures |r| <= |cs|
  {
    if cs == [] then []
    else (if Collects(cs[0], p) then [cs[0]] else []) + Picked(cs[1..], p)
  }

  /** Every coin within reach is removed and every coin left is out of reach. */
  lemma {:induction false} PickupExactly(cs: seq<Vec3>, p: Vec3)
    ensures forall c :: c in Remaining(cs, p) <==> c in cs && !Collects(c, p)
    ensures forall c :: c in Picked(cs, p) <==> c in cs && Collects(c, p)
  {
    if cs != [] {
      PickupExactly(cs[1..], p);
      assert cs == [cs[0]] + cs[1..];
    }
  }

  /** A pickup pass splits the coins into those kept and those taken. */
  lemma {:induction false} PickupSplits(cs: seq<Vec3>, p: Vec3)
    ensures |Remaining(cs, p)| + |Picked(cs, p)| == |cs|
    ensures multiset(Remaining(cs, p)) + multiset(Picked(cs, p)) == multiset(cs)
  {
    if cs != [] {
      PickupSplits(cs[1..], p);
      assert cs == [cs[0]] + cs[1..];
    }
  }

  /** The pickup pass keeps the surviving coins in order. */
  lemma {:induction false} RemainingInOrder(cs: seq<Vec3>, p: Vec3)
    ensures Subsequence(Remaining(cs, p), cs)
  {
    if cs != [] {
      RemainingInOrder(cs[1..], p);
      PickupExactly(cs[1..], p);
      var r := Remaining(cs, p);
      if Collects(cs[0], p) {
        assert r == Remaining(cs[1..], p);
        assert r != [] ==> r[0] != cs[0];
      } else {
        assert r == [cs[0]] + Remaining(cs[1..], p);
        assert r[1..] == Remaining(cs[1..], p);
      }
    }
  }

  /** A second pass at the same position takes nothing: a coin is collected at most once. */
  lemma {:induction false} PickupOnce(cs: seq<Vec3>, p: Vec3)
    ensures Remaining(Remaining(cs, p), p) == Remaining(cs, p)
    ensures Picked(Remaining(cs, p), p) == []
  {
    if cs != [] {
      var tail := Remaining(cs[1..], p);
      PickupOnce(cs[1..], p);
      if Collects(cs[0], p) {
        assert Remaining(cs, p) == [] + tail == tail;
      } else {
        var r := Remaining(cs, p);
        assert r == [cs[0]] + tail;
        assert r[0] == cs[0] && r[1..] == tail;
        assert Remaining(r, p) == [cs[0]] + Remaining(tail, p);
        assert Picked(r, p) == [] + Picked(tail, p);
      }
    }
  }

  /** updateCoins: the count goes up by the number of coins taken. */
  function Collect(p: Player, cs: seq<Vec3>): (r: (Player, seq<Vec3>))
    ensures r.0 == p.(coins := r.0.coins)
    ensures |r.1| <= |cs| && r.0.coins == p.coins + (|cs| - |r.1|)
  {
    PickupSplits(cs, p.pos);
    (p.(coins := p.coins + |Picked(cs, p.pos)|), Remaining(cs, p.pos))
  }

  // ----- enemies -----

  /** One patrol step along x, turning round once past the patrol range. */
  function Patrol(e: Enemy, dt: real): (r: Enemy)
    ensures r == e.(pos := r.pos, dir := r.dir)
    ensures r.pos == e.pos.(x := e.pos.x + e.dir as real * e.speed * dt)
    ensures e.dir != 0 ==> (r.dir != e.dir <==> Abs(r.pos.x - e.baseX) > e.range)
    ensures r.dir == e.dir || r.dir == -e.dir
    ensures Patrolling(e) ==> Patrolling(r)
  {
    var moved := e.(pos := e.pos.(x := e.pos.x + e.dir as real * e.speed * dt));
    if Abs(moved.pos.x - moved.baseX) > moved.range then moved.(dir := moved.dir * -1) else moved
  }

  /** The stomp test against the player box taken at the start of updateEnemies. */
  predicate Stomps(pa: Box, vy: real, ea: Box) {
    vy < 0.0 && pa.min.y + 0.05 > ea.max.y - 0.35
  }

  /** The already-patrolled enemy e touches the stale box pa while the player moves at vy. */
  predicate StompedBy(pa: Box, vy: real, e: Enemy) {
    Intersects(pa, EnemyBox(e)) && Stomps(pa, vy, EnemyBox(e))
  }

  /** The player-collision half of one iteration, for an enemy that has already moved. */
  function Encounter(pa: Box, p: Player, e: Enemy, spawn: Vec3): (r: (Player, Enemy))
    ensures !Intersects(pa, EnemyBox(e)) ==> r == (p, e)
    ensures StompedBy(pa, p.vel.y, e) ==>
      r.1 == e.(dead := true) && r.0 == p.(vel := p.vel.(y := STOMP_BOUNCE))
    ensures Intersects(pa, EnemyBox(e)) && !StompedBy(pa, p.vel.y, e) ==>
      r.1 == e && r.0 == Respawned(p, spawn)
  {
    var ea := EnemyBox(e);
    if Intersects(pa, ea) then
      if Stomps(pa, p.vel.y, ea) then
        (p.(vel := p.vel.(y := STOMP_BOUNCE)), e.(dead := true))
      else
        (Respawned(p, spawn), e)
    else (p, e)
  }

  /** The first loop of updateEnemies over es, in order; the box pa is never refreshed. */
  function PatrolRun(pa: Box, p: Player, es: seq<Enemy>, dt: real, spawn: Vec3): (r: (Player, seq<Enemy>))
    ensures |r.1| == |es|
  {
    if es == [] then (p, [])
    else
      var n := |es| - 1;
      var before := PatrolRun(pa, p, es[..n], dt, spawn);
      var after := Encounter(pa, before.0, Patrol(es[n], dt), spawn);
      (after.0, before.1 + [after.1])
  }

  /**
   * Every enemy comes out of the first loop patrolled, possibly marked dead; the coin count is
   * kept, deaths never go down, and while nobody died the player has not moved or lost the goal.
   */
  lemma {:induction false} PatrolRunKeeps(pa: Box, p: Player, es: seq<Enemy>, dt: real, spawn: Vec3)
    ensures var r := PatrolRun(pa, p, es, dt, spawn);
      && (forall k :: 0 <= k < |es| ==>
            r.1[k] == Patrol(es[k], dt) || r.1[k] == Patrol(es[k], dt).(dead := true))
      && r.0.coins == p.coins && r.0.deaths >= p.deaths
      && (r.0.deaths == p.deaths ==> r.0.finished == p.finished && r.0.pos == p.pos)
  {
    if es != [] {
      var n := |es| - 1;
      PatrolRunKeeps(pa, p, es[..n], dt, spawn);
    }
  }

  /** One more iteration of the first loop. */
  lemma PatrolRunStep(pa: Box, p: Player, es: seq<Enemy>, dt: real, spawn: Vec3, k: int)
    requires 0 <= k < |es|
    ensures var before := PatrolRun(pa, p, es[..k], dt, spawn);
      var after := Encounter(pa, before.0, Patrol(es[k], dt), spawn);
      PatrolRun(pa, p, es[..k + 1], dt, spawn) == (after.0, before.1 + [after.1])
  {
    assert es[..k + 1][..k] == es[..k];
  }

  /** The second loop of updateEnemies: drop the enemies marked dead, keeping the others' order. */
  function Survivors(es: seq<Enemy>): (r: seq<Enemy>)
    ensures |r| <= |es|
  {
    if es == [] then []
    else (if es[0].dead then [] else [es[0]]) + Survivors(es[1..])
  }

  /** The survivors are exactly the enemies not marked dead. */
  lemma {:induction false} SurvivorsExactly(es: seq<Enemy>)
    ensures forall e :: e in Survivors(es) <==> e in es && !e.dead
  {
    if es != [] {
      SurvivorsExactly(es[1..]);
      assert es == [es[0]] + es[1..];
    }
  }

  /** The enemies the removal pass takes out, in order: the partner of `Survivors`. */
  function Dead(es: seq<Enemy>): (r: seq<Enemy>)
    ensures |r| <= |es|
  {
    if es == [] then []
    else (if es[0].dead then [es[0]] else []) + Dead(es[1..])
  }

  /** The removal pass splits the list: every enemy is either kept or taken out, none is lost or duplicated. */
  lemma {:induction false} SurvivorsSplits(es: seq<Enemy>)
    ensures |Survivors(es)| + |Dead(es)| == |es|
    ensures multiset(Survivors(es)) + multiset(Dead(es)) == multiset(es)
    ensures forall e :: e in Dead(es) ==> e.dead
  {
    if es != [] {
      SurvivorsSplits(es[1..]);
      assert es == [es[0]] + es[1..];
    }
  }

  /** Each live enemy is kept as often as it occurs, each dead one not at all. */
  lemma {:induction false} SurvivorsCount(es: seq<Enemy>)
    ensures forall e :: multiset(Survivors(es))[e] == if e.dead then 0 else multiset(es)[e]
  {
    if es != [] {
      SurvivorsCount(es[1..]);
      assert es == [es[0]] + es[1..];
    }
  }

  lemma {:induction false} SurvivorsAppend(a: seq<Enemy>, b: seq<Enemy>)
    ensures Survivors(a + b) == Survivors(a) + Survivors(b)
  {
    if a != [] {
      SurvivorsAppend(a[1..], b);
      assert (a + b)[1..] == a[1..] + b;
    } else {
      assert a + b == b;
    }
  }

  lemma {:induction false} SurvivorsInOrder(es: seq<Enemy>)
    ensures Subsequence(Survivors(es), es)
  {
    if es != [] {
      SurvivorsInOrder(es[1..]);
      SurvivorsExactly(es[1..]);
      var r := Survivors(es);
      if es[0].dead {
        assert r == Survivors(es[1..]);
        assert r != [] ==> r[0] != es[0];
      } else {
        assert r == [es[0]] + Survivors(es[1..]);
        assert r[1..] == Survivors(es[1..]);
      }
    }
  }

  /** updateEnemies: patrol and collide every enemy, then remove the stomped ones. */
  function EnemiesStep(p: Player, es: seq<Enemy>, dt: real, spawn: Vec3): (r: (Player, seq<Enemy>))
    ensures r.0.coins == p.coins && r.0.deaths >= p.deaths
    ensures r.0.deaths == p.deaths ==> r.0.finished == p.finished && r.0.pos == p.pos
    ensures |r.1| <= |es| && forall e :: e in r.1 ==> !e.dead
  {
    var run := PatrolRun(PlayerBox(p.pos), p, es, dt, spawn);
    PatrolRunKeeps(PlayerBox(p.pos), p, es, dt, spawn);
    SurvivorsExactly(run.1);
    (run.0, Survivors(run.1))
  }

  /** The enemies left after updateEnemies are again alive and heading +-1. */
  lemma SurvivorsPatrol(pa: Box, p: Player, es: seq<Enemy>, dt: real, spawn: Vec3)
    requires forall e :: e in es ==> Patrolling(e)
    ensures forall e :: e in Survivors(PatrolRun(pa, p, es, dt, spawn).1) ==> Patrolling(e)
  {
    var r := PatrolRun(pa, p, es, dt, spawn);
    PatrolRunKeeps(pa, p, es, dt, spawn);
    SurvivorsExactly(r.1);
    forall e | e in Survivors(r.1)
      ensures Patrolling(e)
    {
      var k :| 0 <= k < |r.1| && r.1[k] == e;
      assert es[k] in es;
    }
  }

  /** An enemy is marked dead exactly when it was already dead or the player stomped it when it was reached. */
  lemma {:induction false} MarkedIffStomped(pa: Box, p: Player, es: seq<Enemy>, dt: real, spawn: Vec3, k: int)
    requires 0 <= k < |es|
    ensures PatrolRun(pa, p, es, dt, spawn).1[k].dead <==>
      es[k].dead || StompedBy(pa, PatrolRun(pa, p, es[..k], dt, spawn).0.vel.y, Patrol(es[k], dt))
  {
    var n := |es| - 1;
    var before := PatrolRun(pa, p, es[..n], dt, spawn);
    if k < n {
      MarkedIffStomped(pa, p, es[..n], dt, spawn, k);
      assert es[..n][..k] == es[..k];
      assert PatrolRun(pa, p, es, dt, spawn).1[k] == before.1[k];
    } else {
      assert es[..k] == es[..n];
    }
  }

  /** After a stomp the player moves up and after a respawn it is at rest, so no later enemy is stomped. */
  lemma {:induction false} AtMostOneStomp(pa: Box, p: Player, es: seq<Enemy>, dt: real, spawn: Vec3)
    requires forall e :: e in es ==> !e.dead
    ensures var r := PatrolRun(pa, p, es, dt, spawn);
      |Survivors(r.1)| + 1 >= |es| && (|Survivors(r.1)| < |es| ==> r.0.vel.y >= 0.0)
  {
    if es != [] {
      var n := |es| - 1;
      assert forall e :: e in es[..n] ==> e in es;
      AtMostOneStomp(pa, p, es[..n], dt, spawn);
      var before := PatrolRun(pa, p, es[..n], dt, spawn);
      var e := Patrol(es[n], dt);
      var after := Encounter(pa, before.0, e, spawn);
      assert es[n] in es;
      SurvivorsAppend(before.1, [after.1]);
      assert Survivors([after.1]) == (if after.1.dead then [] else [after.1]);
      assert |Survivors(before.1)| <= |before.1|;
    }
  }

  /** The stale player box makes every further overlap lethal: two overlapping enemies, two deaths. */
  lemma TwoContactsTwoDeaths(pa: Box, p: Player, e1: Enemy, e2: Enemy, dt: real, spawn: Vec3)
    requires p.vel.y >= 0.0
    requires Intersects(pa, EnemyBox(Patrol(e1, dt))) && Intersects(pa, EnemyBox(Patrol(e2, dt)))
    ensures PatrolRun(pa, p, [e1, e2], dt, spawn).0.deaths == p.deaths + 2
    ensures PatrolRun(pa, p, [e1, e2], dt, spawn).0.pos == spawn
  {
    var first := FirstOf(pa, p, e1, e2, dt, spawn);
    assert first.0 == Respawned(p, spawn);
    var second := Encounter(pa, first.0, Patrol(e2, dt), spawn);
    assert second.0 == Respawned(first.0, spawn);
  }

  /** A stomp leaves the player moving up, so a second overlapping enemy in the same frame kills. */
  lemma StompThenLethal(pa: Box, p: Player, e1: Enemy, e2: Enemy, dt: real, spawn: Vec3)
    requires StompedBy(pa, p.vel.y, Patrol(e1, dt))
    requires Intersects(pa, EnemyBox(Patrol(e2, dt)))
    ensures var r := PatrolRun(pa, p, [e1, e2], dt, spawn);
      r.1[0].dead && r.1[1].dead == e2.dead && r.0.deaths == p.deaths + 1 && r.0.vel == Zero
  {
    var first := FirstOf(pa, p, e1, e2, dt, spawn);
    assert first.0.vel.y == STOMP_BOUNCE > 0.0;
    assert first.1 == [Patrol(e1, dt).(dead := true)];
    var second := Encounter(pa, first.0, Patrol(e2, dt), spawn);
    assert second.0 == Respawned(first.0, spawn);
    assert second.1 == Patrol(e2, dt);
  }

  /** Unfolds the run over [e1, e2] to the encounter with e2 after the run over [e1]. */
  lemma FirstOf(pa: Box, p: Player, e1: Enemy, e2: Enemy, dt: real, spawn: Vec3) returns (first: (Player, seq<Enemy>))
    ensures first == (Encounter(pa, p, Patrol(e1, dt), spawn).0, [Encounter(pa, p, Patrol(e1, dt), spawn).1])
    ensures PatrolRun(pa, p, [e1, e2], dt, spawn) ==
      (Encounter(pa, first.0, Patrol(e2, dt), spawn).0, first.1 + [Encounter(pa, first.0, Patrol(e2, dt), spawn).1])
  {
    assert [e1, e2][..1] == [e1];
    assert [e1][..0] == [];
    first := PatrolRun(pa, p, [e1], dt, spawn);
    var enc := Encounter(pa, p, Patrol(e1, dt), spawn);
    assert PatrolRun(pa, p, [], dt, spawn) == (p, []);
    assert first == (enc.0, [] + [enc.1]);
    assert [] + [enc.1] == [enc.1];
  }

  // ----- goal -----

  /** updateGoal: finished only ever goes from false to true, and only near the goal. */
  function ReachGoal(p: Player, goal: Option<Vec3>): (r: Player)
    ensures r == p.(finished := r.finished)
    ensures p.finished ==> r.finished
    ensures r.finished <==> p.finished || (goal.Some? && DistSq(goal.value, p.pos) < GOAL_DIST_SQ)
  {
    if goal.None? || p.finished then p
    else if DistSq(goal.value, p.pos) < GOAL_DIST_SQ then p.(finished := true)
    else p
  }

  lemma ReachGoalIdempotent(p: Player, goal: Option<Vec3>)
    ensures ReachGoal(ReachGoal(p, goal), goal) == ReachGoal(p, goal)
  {
  }
}
