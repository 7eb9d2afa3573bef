/**
 * Collision resolution of the player box against the static solids: one separating axis per
 * intersecting solid, the smallest penetration winning, ties going to Y, then X, then Z.
 */
module Resolver {
  import opened Geometry
  import opened Entities

  datatype Axis = X | Y | Z

  function Along(v: Vec3, ax: Axis): real {
    match ax
    case X => v.x
    case Y => v.y
    case Z => v.z
  }

  /** Per axis, the smaller of the two distances that would separate the boxes. */
  function Penetration(a: Box, b: Box): (pen: Vec3)
    ensures Intersects(a, b) <==> pen.x >= 0.0 && pen.y >= 0.0 && pen.z >= 0.0
    ensures (a.min.x + a.max.x > b.min.x + b.max.x) ==> pen.x == b.max.x - a.min.x
    ensures (a.min.x + a.max.x <= b.min.x + b.max.x) ==> pen.x == a.max.x - b.min.x
    ensures (a.min.y + a.max.y > b.min.y + b.max.y) ==> pen.y == b.max.y - a.min.y
    ensures (a.min.y + a.max.y <= b.min.y + b.max.y) ==> pen.y == a.max.y - b.min.y
    ensures (a.min.z + a.max.z > b.min.z + b.max.z) ==> pen.z == b.max.z - a.min.z
    ensures (a.min.z + a.max.z <= b.min.z + b.max.z) ==> pen.z == a.max.z - b.min.z
  {
    Vec3(Min(b.max.x - a.min.x, a.max.x - b.min.x),
         Min(b.max.y - a.min.y, a.max.y - b.min.y),
         Min(b.max.z - a.min.z, a.max.z - b.min.z))
  }

  /** The axis resolved: a smallest penetration; on ties Y beats X and X beats Z. */
  function ChooseAxis(pen: Vec3): (ax: Axis)
    ensures Along(pen, ax) <= pen.x && Along(pen, ax) <= pen.y && Along(pen, ax) <= pen.z
    ensures ax == X ==> pen.x < pen.y
    ensures ax == Z ==> pen.z < pen.y && pen.z < pen.x
  {
    if pen.y <= pen.x && pen.y <= pen.z then Y
    else if pen.x <= pen.z then X
    else Z
  }

  /** The solid is resolved along the given axis. */
  predicate PushedAlong(p: Player, s: Solid, ax: Axis) {
    Intersects(PlayerBox(p.pos), SolidBox(s)) &&
    ChooseAxis(Penetration(PlayerBox(p.pos), SolidBox(s))) == ax
  }

  /** Vertical resolution with the player not above its previous height: a landing. */
  predicate Lands(p: Player, prevY: real, s: Solid) {
    PushedAlong(p, s, Y) && prevY >= p.pos.y
  }

  /** Vertical resolution with the player above its previous height: a ceiling hit. */
  predicate HitsCeiling(p: Player, prevY: real, s: Solid) {
    PushedAlong(p, s, Y) && prevY < p.pos.y
  }

  /** One iteration of the loop over solids. */
  function ResolveSolid(p: Player, prevY: real, s: Solid): (r: Player)
    ensures r.coins == p.coins && r.deaths == p.deaths && r.finished == p.finished
    ensures r.onGround == (p.onGround || Lands(p, prevY, s))
  {
    var a := PlayerBox(p.pos);
    var b := SolidBox(s);
    if !Intersects(a, b) then p
    else
      var pen := Penetration(a, b);
      match ChooseAxis(pen)
      case Y =>
        if prevY >= p.pos.y then
          p.(pos := p.pos.(y := p.pos.y + (if a.min.y < b.max.y then b.max.y - a.min.y else 0.0)),
             vel := p.vel.(y := Max(0.0, p.vel.y)),
             onGround := true)
        else
          p.(pos := p.pos.(y := p.pos.y - (if a.max.y > b.min.y then a.max.y - b.min.y else 0.0)),
             vel := p.vel.(y := Min(0.0, p.vel.y)))
      case X =>
        p.(pos := p.pos.(x := if p.pos.x > s.pos.x then p.pos.x + pen.x else p.pos.x - pen.x),
           vel := p.vel.(x := 0.0))
      case Z =>
        p.(pos := p.pos.(z := if p.pos.z > s.pos.z then p.pos.z + pen.z else p.pos.z - pen.z),
           vel := p.vel.(z := 0.0))
  }

  /** A solid the current box does not intersect changes nothing. */
  lemma MissLeavesPlayer(p: Player, prevY: real, s: Solid)
    requires !Intersects(PlayerBox(p.pos), SolidBox(s))
    ensures ResolveSolid(p, prevY, s) == p
  {
  }

  /** A landing puts the box bottom on the solid top and stops any downward motion; nothing else moves. */
  lemma LandingRestsOnTop(p: Player, prevY: real, s: Solid)
    requires Lands(p, prevY, s)
    ensures var r := ResolveSolid(p, prevY, s);
      && PlayerBox(r.pos).min.y == SolidBox(s).max.y
      && r.vel.y >= 0.0 && (p.vel.y >= 0.0 ==> r.vel.y == p.vel.y) && (p.vel.y < 0.0 ==> r.vel.y == 0.0)
      && r.pos == p.pos.(y := r.pos.y) && r.vel == p.vel.(y := r.vel.y)
  {
  }

  /** A ceiling hit puts the box top at the solid bottom and stops any upward motion; nothing else moves. */
  lemma CeilingStopsBelow(p: Player, prevY: real, s: Solid)
    requires HitsCeiling(p, prevY, s)
    ensures var r := ResolveSolid(p, prevY, s);
      && PlayerBox(r.pos).max.y == SolidBox(s).min.y
      && r.vel.y <= 0.0 && (p.vel.y <= 0.0 ==> r.vel.y == p.vel.y) && (p.vel.y > 0.0 ==> r.vel.y == 0.0)
      && r.pos == p.pos.(y := r.pos.y) && r.vel == p.vel.(y := r.vel.y)
  {
  }

  /**
   * An x push moves the player by exactly px, away from the solid's centre, leaves the box flush
   * against the near face, and zeroes vel.x only.
   */
  lemma SidePushX(p: Player, prevY: real, s: Solid)
    requires PushedAlong(p, s, X)
    ensures var r := ResolveSolid(p, prevY, s);
      && Abs(r.pos.x - p.pos.x) == Penetration(PlayerBox(p.pos), SolidBox(s)).x
      && (p.pos.x > s.pos.x ==> r.pos.x >= p.pos.x && PlayerBox(r.pos).min.x == SolidBox(s).max.x)
      && (p.pos.x <= s.pos.x ==> r.pos.x <= p.pos.x && PlayerBox(r.pos).max.x == SolidBox(s).min.x)
      && r.pos == p.pos.(x := r.pos.x) && r.vel == p.vel.(x := 0.0) && r.onGround == p.onGround
  {
  }

  /** The same rule along z. */
  lemma SidePushZ(p: Player, prevY: real, s: Solid)
    requires PushedAlong(p, s, Z)
    ensures var r := ResolveSolid(p, prevY, s);
      && Abs(r.pos.z - p.pos.z) == Penetration(PlayerBox(p.pos), SolidBox(s)).z
      && (p.pos.z > s.pos.z ==> r.pos.z >= p.pos.z && PlayerBox(r.pos).min.z == SolidBox(s).max.z)
      && (p.pos.z <= s.pos.z ==> r.pos.z <= p.pos.z && PlayerBox(r.pos).max.z == SolidBox(s).min.z)
      && r.pos == p.pos.(z := r.pos.z) && r.vel == p.vel.(z := 0.0) && r.onGround == p.onGround
  {
  }

  /** The test is closed, so a box pushed flush against a solid still intersects it. */
  lemma PushedOutStillTouches(p: Player, prevY: real, s: Solid)
    requires Intersects(PlayerBox(p.pos), SolidBox(s)) && NonNegative(s.size)
    ensures Intersects(PlayerBox(ResolveSolid(p, prevY, s).pos), SolidBox(s))
  {
  }

  /** The loop over the solids in order, each seeing the box the earlier ones left. */
  function ResolveRun(p: Player, prevY: real, ss: seq<Solid>): (r: Player)
    ensures r.coins == p.coins && r.deaths == p.deaths && r.finished == p.finished
    ensures p.onGround ==> r.onGround
  {
    if ss == [] then p
    else ResolveSolid(ResolveRun(p, prevY, ss[..|ss| - 1]), prevY, ss[|ss| - 1])
  }

  /** resolveCollisions: onGround is recomputed from scratch. */
  function Resolve(p: Player, prevY: real, ss: seq<Solid>): (r: Player)
    ensures r.coins == p.coins && r.deaths == p.deaths && r.finished == p.finished
    ensures ss == [] ==> r == p.(onGround := false)
  {
    ResolveRun(p.(onGround := false), prevY, ss)
  }

  /** The solid at index i of ss takes the landing branch when the loop reaches it. */
  predicate LandsAt(q: Player, prevY: real, ss: seq<Solid>, i: int)
    requires 0 <= i < |ss|
  {
    Lands(ResolveRun(q, prevY, ss[..i]), prevY, ss[i])
  }

  /** onGround after the loop holds exactly when it held before or some solid took the landing branch. */
  lemma {:induction false} GroundedIffLanded(q: Player, prevY: real, ss: seq<Solid>)
    ensures ResolveRun(q, prevY, ss).onGround <==>
      q.onGround || exists i :: 0 <= i < |ss| && LandsAt(q, prevY, ss, i)
  {
    if ss != [] {
      var n := |ss| - 1;
      var init := ss[..n];
      GroundedIffLanded(q, prevY, init);
      var mid := ResolveRun(q, prevY, init);
      var last := LandsAt(q, prevY, ss, n);
      assert last == Lands(mid, prevY, ss[n]);
      assert ResolveRun(q, prevY, ss).onGround == (mid.onGround || last);
      PrefixLandsAt(q, prevY, ss, n);
    }
  }

  lemma PrefixLandsAt(q: Player, prevY: real, ss: seq<Solid>, n: int)
    requires 0 <= n <= |ss|
    ensures (exists i :: 0 <= i < n && LandsAt(q, prevY, ss[..n], i)) <==>
            (exists i :: 0 <= i < n && LandsAt(q, prevY, ss, i))
  {
    forall i | 0 <= i < n
      ensures LandsAt(q, prevY, ss[..n], i) == LandsAt(q, prevY, ss, i)
    {
      assert ss[..n][..i] == ss[..i];
    }
  }

  /** Form of the previous lemma for resolveCollisions itself, which starts from false. */
  lemma ResolveGroundedIffLanded(p: Player, prevY: real, ss: seq<Solid>)
    ensures Resolve(p, prevY, ss).onGround <==>
      exists i :: 0 <= i < |ss| && LandsAt(p.(onGround := false), prevY, ss, i)
  {
    GroundedIffLanded(p.(onGround := false), prevY, ss);
  }
}
