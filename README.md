# Platformer frame step in Dafny

This project models the simulation step of a small three.js platformer (`src/main.js`). Each
animation frame runs these steps in order:

1. cap the clock delta and read the held keys;
2. accelerate, damp, apply gravity and the grounded jump to the player's velocity;
3. advance the position and clamp the depth coordinate to [-2, 2];
4. push the player collider out of every static solid it overlaps;
5. kill a player that has fallen below y = -10;
6. collect the coins within reach;
7. move the patrolling enemies, then stomp them or die;
8. raise the goal flag near the finish.

Positions and velocities are `real`. The level is the constant data `buildLevel` lays out.

Modules:

- `Geometry`: vectors, boxes, `Min`/`Max`/`Abs`, `Clamp`, `MeshAABB` and the closed intersection test `Intersects`.
- `Seqs`: an order-preserving subsequence predicate, plus two slicing helpers used by the splice loops.
- `Entities`: the records.
  - `Player` holds the position and the `playerState` fields.
  - `Solid` is a platform; `Enemy` holds the patrol data stored in `userData`; `Level` is the whole level.
  - Also the collider sizes, the start and spawn points, and the level data `LEVEL`.
- `Integrator`: the physics part of `tick` as pure functions (`Intent`, `WantJump`, `FrameDt`, `Damp`, `Integrate`).
- `Resolver`: `resolveCollisions` as functions.
  - `ResolveSolid` is one loop iteration and `ResolveRun` the loop over the solids.
  - `Resolve` adds the reset of `onGround` to false.
  - Lemmas cover each branch.
- `Reactors`: `updateCoins`, `updateEnemies`, `updateGoal`, the fall check and `respawn`, as functions.
  - `Remaining`/`Picked` give the coins kept and taken.
  - `PatrolRun` is the first enemy loop, with the player box `pa` captured once.
  - `Survivors` is the dead-enemy removal loop.
- `Game`: the class `World`.
  - Its fields are the program's module-level state: the player position and velocity, `onGround`, the coin and death counters, `finished`, and the live coin and enemy lists.
  - Its methods perform the program's updates in place, in the program's statement order. Each method is proved equal to the matching function of the modules above, or to field expressions of the old state.
  - `Frame` composes those functions into one tick, and `World.Tick` is proved to compute it.

Distances are compared squared: `d < 0.9` becomes a squared distance `< 0.81`, and `d < 1.1` becomes `< 1.21`. For non-negative distances the two forms are equivalent. The radii stored in `userData.radius` (0.55 and 0.9) are never read by the code, and the model does not use them either.

A resolved player box can still intersect the solid it was pushed out of: `aabbIntersects` is closed on every axis, so a box left flush against a face still counts as intersecting (`Resolver.PushedOutStillTouches`, `Geometry.TouchingFacesIntersect`).

Note also that the player is placed at (-2, 1.5, 0) before the first frame, while `respawn` uses (-2, 1.6, 0). The two points differ and the model keeps both.

## Model

| member | source | states |
|---|---|---|
| Geometry.Clamp | src/main.js:68 | The result is at least the lower bound and, for a non-empty band, at most the upper bound. A value in the band is returned unchanged; values below or above it go to the nearer bound. When the band is empty the result is the lower bound, whatever the value. |
| Geometry.ClampIdempotent | src/main.js:68 | Clamping twice into the same band is the same as clamping once. |
| Geometry.MeshAABB | src/main.js:84-91 | The box is centred on the body's position and its extents equal the body's size. A non-negative size gives a well-formed box. |
| Geometry.Intersects | src/main.js:71-75 | The closed overlap test on all three axes; its meaning is given by the three lemmas below. |
| Geometry.IntersectsIffCommonPoint | src/main.js:71-75 | For well-formed boxes, the test holds exactly when some point lies in both closed boxes. |
| Geometry.IntersectsSymmetric | src/main.js:71-75 | The test does not depend on the order of its arguments. |
| Geometry.TouchingFacesIntersect | src/main.js:71-75 | Two boxes that only share a face count as intersecting, although no common point is interior on that axis. |
| Entities.PlayerBox | src/main.js:213 | The player collider spans 0.45 either side of the centre on x and z, and 0.6 either side on y. |
| Entities.EnemyBox | src/main.js:120 | An enemy box is the 0.8 cube around its centre: every face lies 0.4 from the centre on its axis. |
| Entities.NewEnemy | src/main.js:119-128 | A new enemy sits at the given position with the given range and speed, patrols around its starting x, heads in the +x direction and is not dead. |
| Entities.LevelReady | src/main.js:150-208 | The built level has the ground and ten platforms, all of non-negative size, ten coins, and two enemies that are alive and heading +-1, as the World constructor needs. |
| Integrator.Intent | src/main.js:436-438 | The horizontal intent is +1 exactly when only a right key is held, -1 exactly when only a left key is held, and 0 exactly when both or neither are held. |
| Integrator.WantJump | src/main.js:440 | A jump is wanted when Space, KeyW or ArrowUp is held; Integrator.Integrate states what it does. |
| Integrator.FrameDt | src/main.js:433 | The frame time equals the clock delta when the delta is at most 0.033, and is exactly 0.033 otherwise. |
| Integrator.Damp | src/main.js:444-446 | For a non-negative frame time, damping keeps a component's sign and does not increase its size. Once DAMPING*dt reaches 1, the component is zeroed. |
| Integrator.DampingShrinks | src/main.js:444-446 | The damped component is no larger in absolute value than before and has the same sign. |
| Integrator.Integrate | src/main.js:443-465 | vel.x is the accelerated, then damped, value and vel.z the damped value. Without a grounded jump, vel.y drops by exactly 22*dt and onGround is kept. A grounded jump sets vel.y to 9.4 and clears onGround. x and y move by the new velocity times dt. z moves by the new velocity times dt and is then clamped to [-2, 2]: unchanged when in range, otherwise the nearer bound. Coins, deaths and finished do not change. |
| Resolver.Penetration | src/main.js:308-317 | The boxes intersect exactly when all three penetrations are non-negative. On each axis the penetration is the overlap on the side of the solid's centre where the player's centre lies. |
| Resolver.ChooseAxis | src/main.js:319-339 | The chosen axis has the smallest penetration. X is chosen only when px < py. Z is chosen only when pz is strictly below both py and px. Ties therefore go to Y, then X. |
| Resolver.ResolveSolid | src/main.js:305-343 | One solid never changes the counters or finished. Afterwards onGround is true exactly when it was already true or this solid took the landing branch. |
| Resolver.MissLeavesPlayer | src/main.js:306 | A solid that does not intersect the current box changes nothing. |
| Resolver.LandingRestsOnTop | src/main.js:322-326 | A landing puts the bottom of the box on the top of the solid. A falling vel.y becomes 0 and one that is already >= 0 is kept. Only y and vel.y change. |
| Resolver.CeilingStopsBelow | src/main.js:327-330 | A ceiling hit puts the top of the box at the bottom of the solid. A rising vel.y becomes 0 and one that is already <= 0 is kept. Only y and vel.y change. |
| Resolver.SidePushX | src/main.js:331-334 | An x push moves the player by exactly px, in the positive direction exactly when its centre lies past the solid's centre. The box ends flush against that face. vel.x becomes 0 and nothing else changes. |
| Resolver.SidePushZ | src/main.js:335-338 | A z push obeys the same rule along z. |
| Resolver.PushedOutStillTouches | src/main.js:320-343 | For a solid of non-negative size, the box after the push still intersects that solid, because the test is closed. |
| Resolver.ResolveRun | src/main.js:304-344 | The loop over the solids never changes the counters or finished, and never clears onGround. |
| Resolver.Resolve | src/main.js:301-302 | resolveCollisions clears onGround, then runs the loop; the counters and finished are kept, and with no solids only onGround changes. Its onGround is characterised by Resolver.ResolveGroundedIffLanded. |
| Resolver.GroundedIffLanded | src/main.js:302-330 | After the loop, onGround holds exactly when it held on entry or some solid took the landing branch when the loop reached it. |
| Resolver.ResolveGroundedIffLanded | src/main.js:299-345 | After resolveCollisions, onGround holds exactly when some solid took the landing branch. |
| Reactors.DistSq | src/main.js:353 | A squared distance is non-negative. |
| Reactors.Respawned | src/main.js:247-252 | After a respawn the player is at the spawn point at rest, with onGround and finished false, one more death and the same coins. |
| Reactors.FallCheck | src/main.js:471-473 | Below y = -10 the player respawns: one more death, at the spawn point, at rest, with onGround and finished false. Otherwise nothing changes. Coins are kept either way. |
| Reactors.Remaining | src/main.js:350-360 | A pickup pass never adds coins. |
| Reactors.PickupExactly | src/main.js:353-357 | A coin is kept exactly when it lies at distance 0.9 or more, and taken exactly when it lies closer. |
| Reactors.PickupSplits | src/main.js:350-358 | The coins kept and the coins taken together are the original multiset, and their counts add up. |
| Reactors.RemainingInOrder | src/main.js:350-356 | The coins kept keep their relative order. |
| Reactors.PickupOnce | src/main.js:347-361 | A second pass at the same position takes nothing and keeps everything. |
| Reactors.Collect | src/main.js:347-361 | updateCoins changes only the coin counter, which grows by exactly the number of coins the list loses. Which coins go is given by Reactors.PickupExactly. |
| Reactors.Patrol | src/main.js:366-368 | x moves by dir*speed*dt and nothing else in the enemy changes apart from dir. For a non-zero dir, dir flips exactly when the enemy is more than range away from baseX. A dir of +1 or -1 stays +1 or -1. |
| Reactors.Encounter | src/main.js:371-382 | A moved enemy that does not touch pa changes nothing. A touch from above while falling marks the enemy dead and sets vel.y to 0.75*9.4. Any other touch respawns the player. |
| Reactors.PatrolRun | src/main.js:364-383 | The first loop returns one enemy for each enemy it was given. |
| Reactors.PatrolRunKeeps | src/main.js:365-383 | Each enemy comes out of the first loop patrolled, possibly marked dead. Coins are kept and deaths never go down. While nobody died, the player's position and finished are unchanged. |
| Reactors.Survivors | src/main.js:385-387 | The removal loop never adds enemies. |
| Reactors.SurvivorsExactly | src/main.js:385-387 | An enemy survives the removal loop exactly when it is not marked dead. |
| Reactors.SurvivorsInOrder | src/main.js:385-387 | The survivors keep their relative order. |
| Reactors.Dead | src/main.js:385-387 | The enemies the removal loop splices out; never more than the list held. |
| Reactors.SurvivorsSplits | src/main.js:385-387 | Survivors and removed enemies together are the original multiset, their counts add up, and every removed enemy was marked dead. |
| Reactors.SurvivorsCount | src/main.js:385-387 | Each enemy not marked dead is kept exactly as many times as it occurs in the list; each dead one is kept zero times. |
| Reactors.EnemiesStep | src/main.js:363-388 | After updateEnemies no enemy is left marked dead and none is added; coins are kept and deaths never go down; while nobody died, the position and finished are unchanged. |
| Reactors.SurvivorsPatrol | src/main.js:363-388 | If every enemy heads +1 or -1 and is alive before updateEnemies, the same holds for every enemy left after it. |
| Reactors.MarkedIffStomped | src/main.js:372-378 | After the first loop, an enemy is marked dead exactly when it already was, or when it was stomped at the velocity the player had when the loop reached it. |
| Reactors.AtMostOneStomp | src/main.js:374-381 | Among live enemies, at most one is removed per frame. When one is removed, the player ends the loop with vel.y >= 0. |
| Reactors.TwoContactsTwoDeaths | src/main.js:364-381 | The box pa is not refreshed after a respawn. So a player that is not falling and overlaps two enemies dies twice in one frame and ends at the spawn point. |
| Reactors.StompThenLethal | src/main.js:372-381 | After a stomp the player moves upward, so a second enemy overlapping the same box kills the player instead of being stomped. |
| Reactors.ReachGoal | src/main.js:390-399 | Only finished can change, and it is never cleared. It ends true exactly when it already was, or a goal exists within distance 1.1. |
| Reactors.ReachGoalIdempotent | src/main.js:391 | A second updateGoal changes nothing. |
| Game.Frame | src/main.js:432-478 | One tick as the composition of the steps, in the program's order; its properties are Game.FrameCoinCount, Game.FrameFinishedLostOnlyByDeath and Game.World.Tick. |
| Game.FrameCoinCount | src/main.js:432-478 | Over a frame, the coin counter grows by exactly the number of coins removed, and the coins left keep their order. |
| Game.FrameFinishedLostOnlyByDeath | src/main.js:432-478 | Deaths never go down in a frame, and finished is only lost through a death. |
| Game.World.constructor | src/main.js:213-239 | Before the first frame the player is at (-2, 1.5, 0) at rest, with zero counters and not finished. The lists are the level's and the spawn point is (-2, 1.6, 0). |
| Game.World.Respawn | src/main.js:247-255 | The player is moved to the spawn point at rest, with onGround and finished false and deaths one higher. Coins and the lists are kept. |
| Game.World.ResetRun | src/main.js:259-263 | After resetRun's counter part, coins are 0 and deaths are 1, and the player is at the spawn point at rest. |
| Game.World.ResolveCollisions | src/main.js:299-345 | The in-place loop leaves exactly the player state that Resolver.Resolve computes. |
| Game.World.PushOut | src/main.js:305-343 | One in-place push equals Resolver.ResolveSolid. |
| Game.World.UpdateCoins | src/main.js:347-361 | The reverse splice loop leaves Reactors.Remaining of the old coins, and raises the counter by the number in Reactors.Picked. |
| Game.World.UpdateEnemies | src/main.js:363-388 | The two loops leave exactly the player and enemy list that Reactors.EnemiesStep computes, and keep every remaining enemy alive and heading +-1. |
| Game.World.PatrolAll | src/main.js:364-383 | The in-place first loop equals Reactors.PatrolRun. |
| Game.World.PatrolAndMeet | src/main.js:366-382 | One iteration equals Reactors.Patrol followed by Reactors.Encounter. |
| Game.World.RemoveDead | src/main.js:385-387 | The reverse splice loop leaves Reactors.Survivors of the list. |
| Game.World.UpdateGoal | src/main.js:390-399 | The early return and the flag update equal Reactors.ReachGoal. |
| Game.World.Tick | src/main.js:432-478 | A whole frame equals Frame of the old state and keeps the enemy invariant. |
| Game.World.Move | src/main.js:436-465 | The input and integration statements equal Integrator.Integrate. |
| Game.World.Accelerate | src/main.js:443-456 | The velocity statements give the accelerated and damped vel.x, the damped vel.z, and gravity or the jump on vel.y. |
| Game.World.Advance | src/main.js:458-465 | The position statements move each coordinate by the new velocity times dt and clamp z. |

## Left out

- Rendering: the renderer, scene, lights, materials and `syncPlayerModel` are drawing only.
- Asset loading: GLTF loading, `glbCache` and `ensurePlayerModel` are asynchronous I/O through a foreign library.
- `buildLevel`: its scene edits and awaits are not modelled. Its result is the constant `Entities.LEVEL`, which the `World` constructor takes.
- ResetRun: `resetRun` calls the async `buildLevel` without awaiting it. That call runs up to its first `await` (src/main.js:178) before the counters are reset. By then it has emptied `coins` and `enemies`, set `goal` to null, and left `solids` as the ground plus the first platform (src/main.js:145-173); the rest comes back once the pending loads resolve: before the next frame when every model is cached, over later frames otherwise. `World.ResetRun` models only the counters and the respawn, and keeps the level lists as they were.
- Input: the keyboard, pointer-lock and mouse-look listeners are left out. The held keys are a `set<string>` argument of `Tick`, and the clock delta is a `real` argument.
- `updateCamera`, the resize handler and `requestAnimationFrame`: these are cosmetic or plumbing.
- Coin spin: `updateCoins`' `dt` only drives the spin and is dropped.
- DOM updates: the text written to `$coins`, `$deaths` and `$tip` is not modelled.
- IEEE-754 rounding: all arithmetic is over exact reals, so the model says nothing about float rounding.
- NewEnemy: `addEnemy`'s default range 3.0 and speed 1.2 (src/main.js:119) are not modelled; both calls in the level pass explicit values.
- Reactors.AtMostOneStomp: the bound is stated only for enemies that are alive on entry. The first loop never runs an enemy that is already dead, because the removal loop runs at the end of every frame.
