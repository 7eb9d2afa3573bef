/** The physics half of tick: input intent, velocity update and position integration. */
module Integrator {
  import opened Geometry
  import opened Entities

  const GRAVITY := -22.0
  const MOVE_SPEED := 7.5
  const JUMP_VEL := 9.4
  const DAMPING := 10.0
  /** Largest frame time the integrator accepts. */
  const MAX_DT := 0.033
  /** Half-width of the 2.5D play-field along z. */
  const DEPTH_LIMIT := 2.0

  predicate LeftHeld(keys: set<string>) {
    "KeyA" in keys || "ArrowLeft" in keys
  }

  predicate RightHeld(keys: set<string>) {
    "KeyD" in keys || "ArrowRight" in keys
  }

  /** Horizontal intent: left and right cancel out. */
  function Intent(keys: set<string>): (ax: real)
    ensures -1.0 <= ax <= 1.0
    ensures ax == 1.0 <==> RightHeld(keys) && !LeftHeld(keys)
    ensures ax == -1.0 <==> LeftHeld(keys) && !RightHeld(keys)
    ensures ax == 0.0 <==> LeftHeld(keys) == RightHeld(keys)
  {
    (if LeftHeld(keys) then -1.0 else 0.0) + (if RightHeld(keys) then 1.0 else 0.0)
  }

  predicate WantJump(keys: set<string>) {
    "Space" in keys || "KeyW" in keys || "ArrowUp" in keys
  }

  /** The clock delta, capped. */
  function FrameDt(delta: real): (dt: real)
    ensures dt <= MAX_DT
    ensures delta <= MAX_DT ==> dt == delta
    ensures delta > MAX_DT ==> dt == MAX_DT
    ensures delta >= 0.0 ==> dt >= 0.0
  {
    Min(delta, MAX_DT)
  }

  /** Frame-rate compensated decay of one horizontal velocity component. */
  function Damp(v: real, dt: real): (r: real)
    ensures dt >= 0.0 && v >= 0.0 ==> 0.0 <= r <= v
    ensures dt >= 0.0 && v <= 0.0 ==> v <= r <= 0.0
    ensures DAMPING * dt >= 1.0 ==> r == 0.0
  {
    var k := Min(1.0, DAMPING * dt);
    ScaleByFraction(v, k, dt);
    v - v * k
  }

  lemma ScaleByFraction(v: real, k: real, dt: real)
    requires k == Min(1.0, DAMPING * dt)
    ensures dt >= 0.0 && v >= 0.0 ==> 0.0 <= v - v * k <= v
    ensures dt >= 0.0 && v <= 0.0 ==> v <= v - v * k <= 0.0
    ensures DAMPING * dt >= 1.0 ==> v - v * k == 0.0
  {
    if dt >= 0.0 {
      MulNonNegative(DAMPING, dt);
      var u := Abs(v);
      MulNonNegative(u, k);
      MulMonotone(u, k, 1.0);
    }
  }

  lemma MulNonNegative(a: real, b: real)
    requires a >= 0.0 && b >= 0.0
    ensures a * b >= 0.0
  {
  }

  lemma MulMonotone(a: real, b: real, c: real)
    requires a >= 0.0 && b <= c
    ensures a * b <= a * c
  {
  }

  /**
   * Acceleration, damping, gravity and the grounded jump, then a semi-implicit Euler step
   * (the position moves by the new velocity) and the depth clamp.
   */
  function Integrate(p: Player, dt: real, ax: real, wantJump: bool): (r: Player)
    ensures r.vel.x == Damp(p.vel.x + ax * MOVE_SPEED * dt * 10.0, dt)
    ensures r.vel.z == Damp(p.vel.z, dt)
    ensures !(wantJump && p.onGround) ==> p.vel.y - r.vel.y == 22.0 * dt && r.onGround == p.onGround
    ensures wantJump && p.onGround ==> r.vel.y == JUMP_VEL && !r.onGround
    ensures r.pos.x == p.pos.x + r.vel.x * dt && r.pos.y == p.pos.y + r.vel.y * dt
    ensures r.pos.z == Clamp(p.pos.z + r.vel.z * dt, -DEPTH_LIMIT, DEPTH_LIMIT)
    ensures -DEPTH_LIMIT <= r.pos.z <= DEPTH_LIMIT
    ensures r.coins == p.coins && r.deaths == p.deaths && r.finished == p.finished
  {
    var vx := Damp(p.vel.x + ax * MOVE_SPEED * dt * 10.0, dt);
    var vz := Damp(p.vel.z, dt);
    var jump := wantJump && p.onGround;
    var vy := if jump then JUMP_VEL else p.vel.y + GRAVITY * dt;
    var v := Vec3(vx, vy, vz);
    var q := Vec3(p.pos.x + v.x * dt, p.pos.y + v.y * dt, p.pos.z + v.z * dt);
    p.(pos := q.(z := Clamp(q.z, -DEPTH_LIMIT, DEPTH_LIMIT)), vel := v, onGround := p.onGround && !jump)
  }

  /** A player that agrees with the step field by field is the step's result. */
  lemma IntegrateMatches(p: Player, dt: real, ax: real, wantJump: bool, r: Player)
    requires r.vel.x == Damp(p.vel.x + ax * MOVE_SPEED * dt * 10.0, dt)
    requires r.vel.y == if wantJump && p.onGround then JUMP_VEL else p.vel.y + GRAVITY * dt
    requires r.vel.z == Damp(p.vel.z, dt)
    requires r.pos.x == p.pos.x + r.vel.x * dt && r.pos.y == p.pos.y + r.vel.y * dt
    requires r.pos.z == Clamp(p.pos.z + r.vel.z * dt, -DEPTH_LIMIT, DEPTH_LIMIT)
    requires r.onGround == (p.onGround && !(wantJump && p.onGround))
    requires r.coins == p.coins && r.deaths == p.deaths && r.finished == p.finished
    ensures r == Integrate(p, dt, ax, wantJump)
  {
  }

  /** Damping never speeds up or reverses a horizontal component. */
  lemma DampingShrinks(v: real, dt: real)
    requires dt >= 0.0
    ensures Abs(Damp(v, dt)) <= Abs(v)
    ensures Damp(v, dt) * v >= 0.0
  {
    var r := Damp(v, dt);
    if v >= 0.0 {
      assert 0.0 <= r <= v;
    } else {
      assert v <= r <= 0.0;
    }
  }
}
