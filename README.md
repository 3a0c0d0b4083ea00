# rust_boids core in Dafny

A model of the simulation core of `rust_boids`, a small ggez game written in Rust. The game runs two engines side by side on a fixed 60 Hz tick:

- an Asteroids-like actor engine: one player ship, the shots it fires, and the rocks. It steers, caps speed, integrates, wraps around the screen, collides, and reclaims dead actors.
- a flock of boids: separation, cohesion and alignment between neighbours, plus attracting attractor points. Each boid's acceleration and speed are clamped, and its position is integrated and wrapped.

The model keeps the source's form:

- `Geometry` (`geometry.dfy`) holds the vector helpers of `src/math.rs`:
  - the toroidal wrap, as a function plus the in-place method `WrapActorPosition`;
  - the world-to-screen transform.
- `Actors` (`actors.dfy`) holds:
  - the `Actor` record and the `create_*` builders;
  - the per-actor physics as functions;
  - the class `ActorManager`, with `player`, `shots` and `rocks` as fields. Its methods update these fields in place, with the same loops as `src/actors.rs`.
- `Boids` (`boids.dfy`) holds the class `BoidComponent`. Its parallel sequences `position`, `acceleration` and `velocity` are updated index by index, as in `src/boids_mgr.rs`. Each method is proved against specification functions, such as `NeighbourSums`, `Attracted`, `ForcedAcceleration` and `UpdatedFrom`.
- `Game` (`game.dfy`) holds:
  - the class `MainState`, with level, score, input and shot cool-down;
  - one iteration of its fixed-step `update`, as `Tick`;
  - the key handlers.

Arithmetic is over exact reals:

- The magnitude `norm` and the unit vector of an angle `vec_from_angle` are function-valued parameters. `IsNorm(norm)` states what callers may assume: `norm(v) >= 0` and `norm(v)² = v.x² + v.y²`.
- Random draws are explicit inputs: `RockDraw`, `BoidDraw` and `AttractorDraw`.
- Every `norm(v) < s` test of the source is related to the exact squared form by `NormCompare`.

### Where the code differs from what one might expect

The model follows the code in each of these places:

- `handle_collisions` never looks at `life`. A second call with nothing moved returns the same count again (`CollisionRepeatSameCount`).
- `ActorManager::new` creates `create_rocks(0, ..)`, so there are no rocks. `when_rocks_empty` is an empty stub. The level therefore goes up on every tick (`Game.MainState.StepActors`).
- Boid acceleration is only ever `+=`'d and never reset between ticks. The clamped value is stored back, so the next tick starts from it: a boid's acceleration is not recomputed from zero each tick.
- nalgebra's `len()` is the number of components (2), not the magnitude. The three neighbour sums are divided by 2 rather than normalised (`COMPONENTS`). A zero sum contributes zero.
- The alignment x-component uses `COHESION_FORCE`; the y-component uses `ALIGNMENT_FORCE` (`Boids.SteeredAcceleration`, `SteeringAdds`).
- The separation weight `1 - (40 - dist)/40` equals `dist/40`. It shrinks as boids get closer rather than growing (`PairForcesClose`).
- The attractor step writes `velocity[b]` before the neighbour scan of boid `b`. Later boids read the pushed velocity for alignment; earlier boids read the unpushed one (`PushedPrefix`, `ForcedAcceleration`).
- `src/main.rs:113` calls `init()` without the `screen_size` that `src/boids_mgr.rs:60` takes. The constructor passes the window size.
- Releasing either turn key zeroes `xaxis`, even while the other is still held (`ReleasingOneTurnKeyStopsTurning`).
- `ctx.quit()` in `update` does not stop the rest of the tick: the flock is still updated (`Tick`).

## Model

| member | source | states |
|---|---|---|
| Geometry.Wrap | src/math.rs:45-59 | a point inside the screen box is left where it is; for a positive extent, a coordinate within 3/2 of it lands inside the box |
| Geometry.WrapCoord | src/math.rs:49-58 | one axis moves by exactly 0, +extent or -extent; a coordinate within [-extent/2, extent/2] is unchanged; for extent > 0 a coordinate in [-3·extent/2, 3·extent/2] lands in [-extent/2, extent/2] |
| Geometry.WrapCases | src/math.rs:49-58 | x > b.x/2 becomes x - b.x, x < -b.x/2 becomes x + b.x, and the same for y with b.y |
| Geometry.WrapAxesIndependent | src/math.rs:45-59 | the wrapped x depends only on x and b.x, the wrapped y only on y and b.y |
| Geometry.WrapIdempotent | src/math.rs:45-59 | for a positive boundary and a point within 3/2 of it, wrapping twice is wrapping once |
| Geometry.WrapActorPosition | src/math.rs:45-59 | the in-place two-axis update yields exactly the wrapped point |
| Geometry.WorldToScreen | src/math.rs:34-40 | the screen point maps back to the world point under x - w/2, h/2 - y |
| Geometry.ScreenToWorldRoundTrip | src/math.rs:34-40 | the transforms are inverse in the other order too; the world origin lands at (w/2, h/2) |
| Geometry.WorldToScreenOrder | src/math.rs:37-38 | x order is preserved and y order is reversed |
| Geometry.RandomVecBelowMax | src/math.rs:24-28 | a unit direction scaled by a draw in [0, 1) of the maximum is shorter than the maximum |
| Geometry.RescaledNorm | src/boids_mgr.rs:154 | `normalize() * c` of a nonzero vector has length exactly c and, for c > 0, the same direction |
| Actors.CreatePlayer | src/actors.rs:209-219 | a player at the origin, facing 0, at rest, no spin, bbox 12, life 1 |
| Actors.CreateRock | src/actors.rs:221-231 | a rock at the origin, at rest, bbox 12, life 1 |
| Actors.CreateShot | src/actors.rs:233-243 | a shot at the origin, at rest, spin 0.1, bbox 6, life 2 |
| Actors.CreateRocks | src/actors.rs:251-262 | `num` rocks (none for num <= 0), each a live rock with bbox 12 and the `random_vec(50)` velocity of its draw |
| Actors.RocksOutsideExclusion | src/actors.rs:255-257 | with a unit direction and a fraction in [0, 1), each rock lies in the ring [min_radius, max_radius) around the exclusion point |
| Actors.RocksBelowMaxSpeed | src/actors.rs:258 | each rock starts slower than MAX_ROCK_VEL |
| Actors.Steered | src/actors.rs:69-80 | only facing and velocity change; with no turn input the facing is kept; without positive thrust input the velocity is kept |
| Actors.ClampedVelocity | src/actors.rs:87-90 | a velocity at or below 250 passes unchanged |
| Actors.Moved | src/actors.rs:85-94 | only velocity, position and facing change; the velocity becomes its capped self and the position moves by the capped velocity times dt |
| Actors.Wrapped | src/actors.rs:98-112 | only the position changes; an actor inside the screen box is not moved |
| Actors.StepPlayer | src/actors.rs:81-120 | only the player's position, facing and velocity change |
| Actors.StepShot | src/actors.rs:123-128 | only a shot's position, facing and velocity change, and its life drops by exactly dt |
| Actors.StepRock | src/actors.rs:131-134 | only a rock's position, facing and velocity change |
| Actors.ClampedVelocityBounded | src/actors.rs:87-90 | the capped velocity is at most 250; a slower one is unchanged; a faster one is rescaled to exactly 250 without turning |
| Actors.StepPlayerSpec | src/actors.rs:69-120 | facing gains dt·3·xaxis plus ang_vel; speed ends at most 250; without thrust the velocity is only capped; with thrust it is the old velocity plus 100·dt along the turned facing, then capped; position is old position plus capped velocity·dt, wrapped; life, tag, bbox and spin unchanged |
| Actors.StepShotSpec | src/actors.rs:123-128 | a shot loses exactly dt of life, its velocity becomes its capped self, at most 250, turns by ang_vel and moves by its capped velocity·dt, wrapped |
| Actors.StepRockSpec | src/actors.rs:131-134 | a rock keeps its life, its velocity becomes its capped self, at most 250, turns by ang_vel and moves by its capped velocity·dt, wrapped |
| Actors.StepShotsSpec | src/actors.rs:123-128 | the shot update keeps the number of shots; each loses exactly dt of life and ends at most 250 |
| Actors.StepRocksSpec | src/actors.rs:131-134 | the rock update keeps the number of rocks and their life; each ends at most 250 |
| Actors.DrainedIsProduct | src/actors.rs:127 | n deductions of dt take exactly n·dt |
| Actors.StepShotTimesLife | src/actors.rs:123-128 | after n updates a shot has lost exactly n·dt of life, whatever else happens to it |
| Actors.ShotLifetime | src/actors.rs:39 | at 60 updates per second a fresh shot is alive after 119 updates and dead after 120 |
| Actors.TouchingSymmetric | src/actors.rs:188-194 | the overlap test does not depend on the order of the two actors |
| Actors.TouchingIffNormBelow | src/actors.rs:188-194 | the squared-distance overlap equals the source's `distance.norm() < bbox + bbox` |
| Actors.TouchesAnyIffExists | src/actors.rs:187-199 | the scan reports an overlap exactly when one of the partners overlaps |
| Actors.Killed | src/actors.rs:189-197 | only life changes; a hit sets it to 0; the result is alive iff the actor was alive and not hit |
| Actors.CollidedPlayer | src/actors.rs:187-191 | only the player's life changes; it stays alive iff it was alive and no rock overlaps it |
| Actors.CollidedShots | src/actors.rs:192-198 | the same number of shots, each differing from its original in life alone |
| Actors.CollidedRocks | src/actors.rs:187-199 | the same number of rocks, each differing from its original in life alone |
| Actors.CountTouching | src/actors.rs:192-199 | the count for one rock is the number of indices of shots that overlap it, so at most the number of shots |
| Actors.HitCount | src/actors.rs:185-202 | with no rocks or no shots there are no hits; that it counts exactly the overlapping pairs is stated by HitCountIsPairCount |
| Actors.PlayerCollision | src/actors.rs:187-191 | the player's life becomes 0 when some rock overlaps it; with no overlap it is unchanged; nothing but life changes |
| Actors.ShotCollision | src/actors.rs:192-198 | a shot's life becomes 0 when some rock overlaps it; with no overlap it is unchanged; nothing but life changes |
| Actors.RockCollision | src/actors.rs:192-198 | a rock's life becomes 0 when some shot overlaps it; with no overlap it is unchanged; nothing but life changes |
| Actors.HitCountIsPairCount | src/actors.rs:185-202 | the hit count is the number of overlapping (rock, shot) index pairs |
| Actors.CollisionRepeatSameCount | src/actors.rs:185-202 | since life is never consulted, a repeat call on the collided actors returns the same count |
| Actors.Retained | src/actors.rs:180-183 | the filter keeps only live actors and never grows |
| Actors.RetainedMultiset | src/actors.rs:181-182 | every live actor is kept as often as it occurs; no dead one is kept |
| Actors.RetainedMembers | src/actors.rs:181-182 | an actor is kept iff it is present and alive |
| Actors.RetainedAppend | src/actors.rs:181-182 | filtering a concatenation filters each part in order, so survivors keep their relative order |
| Actors.RetainedAllAlive | src/actors.rs:181-182 | a sequence with no dead actor is left as it is |
| Actors.RetainedIdempotent | src/actors.rs:181-182 | filtering twice is filtering once |
| Actors.ShotFrom | src/actors.rs:166-178 | the new shot has the player's position and facing, velocity 200·vec_from_angle(facing), life 2, bbox 6, spin 0.1 |
| Actors.ShotSpeed | src/actors.rs:173-175 | with a unit direction the shot leaves at exactly SHOT_SPEED |
| Actors.ActorManager.constructor | src/actors.rs:55-65 | a fresh player, no shots and no rocks |
| Actors.ActorManager.Update | src/actors.rs:67-136 | the player is steered, moved and wrapped; every shot and every rock is moved and wrapped in place; every shot ages by `seconds` |
| Actors.ActorManager.RocksAreEmpty | src/actors.rs:153-155 | true iff there are no rocks |
| Actors.ActorManager.WhenRocksEmpty | src/actors.rs:157-160 | changes nothing |
| Actors.ActorManager.PlayerIsDead | src/actors.rs:162-164 | true iff the player's life is <= 0 |
| Actors.ActorManager.FirePlayerShotHelper | src/actors.rs:166-178 | exactly one shot, `ShotFrom(player)`, is appended; the player, the rocks and the earlier shots are unchanged |
| Actors.ActorManager.ClearDeadStuff | src/actors.rs:180-183 | shots and rocks become their filtered selves; the player is unchanged |
| Actors.ActorManager.HandleCollisions | src/actors.rs:185-202 | returns the pair count; the player, shots and rocks become their collided selves |
| Actors.ActorManager.CollideRow | src/actors.rs:192-199 | the inner loop for rock i kills exactly the overlapping shots, kills the rock if any overlaps, and returns their number |
| Boids.AttractedOutOfRange | src/boids_mgr.rs:95-106 | a boid outside every attractor's radius keeps its velocity |
| Boids.PushedBy | src/boids_mgr.rs:96-105 | outside the radius, or exactly on the attractor, the velocity is unchanged |
| Boids.PullTowardAttractor | src/boids_mgr.rs:101-105 | inside the radius, the velocity loses a vector of length exactly `force` along boid − attractor, so it is pulled towards the attractor |
| Boids.PairForces | src/boids_mgr.rs:114-130 | a boid 200 or more away adds nothing; one closer than 40 adds nothing to cohesion or alignment; one 40 or more away adds nothing to separation |
| Boids.PairForcesFar | src/boids_mgr.rs:114-130 | a boid 200 or more away contributes nothing |
| Boids.PairForcesMiddle | src/boids_mgr.rs:122-130 | between 40 and 200 a boid adds its offset to cohesion and its velocity to alignment, and nothing to separation |
| Boids.PairForcesClose | src/boids_mgr.rs:117-121 | closer than 40 a boid adds only to separation, its offset weighted by dist/40 |
| Boids.IsolatedBoid | src/boids_mgr.rs:108-131 | with nobody within 200, all three sums are zero |
| Boids.NoCloseNeighbour | src/boids_mgr.rs:108-131 | with nobody closer than 40, the separation sum is zero |
| Boids.OnlyCloseNeighbours | src/boids_mgr.rs:108-131 | with everybody closer than 40, the cohesion and alignment sums are zero |
| Boids.SteeredAcceleration | src/boids_mgr.rs:133-146 | with all three sums zero the acceleration is unchanged |
| Boids.SteeringAdds | src/boids_mgr.rs:133-146 | steering adds to the existing acceleration; zero sums add nothing; separation pushes along its sum and cohesion against its sum; alignment alone adds its x-component scaled by COHESION_FORCE/2 and its y-component by ALIGNMENT_FORCE/2, so with a nonzero x-component it differs from the sum scaled by ALIGNMENT_FORCE/2 |
| Boids.Capped | src/boids_mgr.rs:153-155 | a vector no longer than the limit is kept |
| Boids.CappedBounds | src/boids_mgr.rs:153-155 | the capped vector is at most the limit; a shorter vector is kept; a longer one is moved onto the limit without turning |
| Boids.Floored | src/boids_mgr.rs:161-163 | a vector at least as long as the floor, or of length zero, is kept |
| Boids.FlooredBounds | src/boids_mgr.rs:161-163 | a nonzero vector ends at least at the floor; a long enough vector and the zero vector are kept; lengthening never turns |
| Boids.SpeedBanded | src/boids_mgr.rs:158-163 | a speed already in [50, 100] is kept |
| Boids.SpeedBandedBounds | src/boids_mgr.rs:158-163 | a nonzero velocity ends with speed in [50, 100]; a zero one stays zero; a speed already in the band is kept |
| Boids.SpeedBandedDirection | src/boids_mgr.rs:158-163 | banding the speed never changes a moving boid's heading |
| Boids.IntegratedAcceleration | src/boids_mgr.rs:153-155 | an acceleration of at most 60 is kept |
| Boids.IntegratedVelocity | src/boids_mgr.rs:157-163 | when velocity + capped acceleration·dt already has speed in [50, 100], that is the new velocity |
| Boids.IntegratedPosition | src/boids_mgr.rs:165-166 | when the moved position is inside the screen box it is not wrapped |
| Boids.IntegrationBounds | src/boids_mgr.rs:152-163 | after integration the acceleration is at most 60 and the velocity is zero or has speed in [50, 100] |
| Boids.SpawnRanges | src/boids_mgr.rs:78-80 | new boids start in [0, 100)² with each velocity component in [-200, 200) |
| Boids.AttractorOnScreen | src/boids_mgr.rs:70 | attractors land in [-w/2, w/2) × [-h/2, h/2) |
| Boids.UpdateBounds | src/boids_mgr.rs:84-167 | after an update every acceleration is at most 60 and every velocity is zero or within [50, 100] |
| Boids.BoidComponent.constructor | src/boids_mgr.rs:45-58 | no boids and no attractors |
| Boids.BoidComponent.SpawnAttractor | src/boids_mgr.rs:69-75 | one attractor is appended with radius 150 and force 0.525; its index is returned; the boids are unchanged |
| Boids.BoidComponent.SpawnRandom | src/boids_mgr.rs:77-82 | one boid is appended to each parallel sequence, with zero acceleration; its index is returned; the sequences stay equal in length |
| Boids.BoidComponent.Init | src/boids_mgr.rs:60-67 | exactly 100 boids and then 8 attractors are appended, each from its own draw, each new attractor with radius 150 and force 0.525; the boids and attractors already present are kept unchanged |
| Boids.BoidComponent.AttractorPull | src/boids_mgr.rs:95-106 | the attractor loop yields the velocity after every attractor in turn |
| Boids.BoidComponent.NeighbourScan | src/boids_mgr.rs:108-131 | the neighbour loop yields the three sums over every other boid |
| Boids.BoidComponent.AddPairForces | src/boids_mgr.rs:110-130 | one pass of the neighbour loop adds exactly the pair forces of the target boid to the three sums |
| Boids.BoidComponent.SteerBoid | src/boids_mgr.rs:133-146 | the three steering increments make boid b's acceleration its steered self; nothing else changes |
| Boids.BoidComponent.ApplyForces | src/boids_mgr.rs:88-150 | every velocity becomes its attracted self; every acceleration becomes its forced self, with alignment reading the velocities as the loop left them |
| Boids.BoidComponent.IntegrateBoid | src/boids_mgr.rs:153-166 | one boid's clamp, integration, banding and wrap equal the integration functions |
| Boids.BoidComponent.Integrate | src/boids_mgr.rs:152-167 | every boid is integrated in place; lengths and attractors are unchanged |
| Boids.BoidComponent.Update | src/boids_mgr.rs:84-167 | the flock moves as `UpdatedFrom` describes; attractors are unchanged |
| Game.Pressed | src/main.rs:285-307 | Up sets yaxis 1; Left/Right set xaxis to -1/+1; Space sets fire; other keys leave the input alone |
| Game.Released | src/main.rs:309-322 | Up clears yaxis; Left or Right clears xaxis; Space clears fire; other keys leave the input alone |
| Game.PressReleaseRestores | src/main.rs:285-322 | from rest, pressing and releasing any key brings the input back to rest |
| Game.ReleasingOneTurnKeyStopsTurning | src/main.rs:314-316 | releasing one turn key stops turning while the other is held; the last pressed turn key wins |
| Game.Fires | src/main.rs:204-206 | a tick fires iff fire is held and the cool-down before the decrement is below one tick |
| Game.FiresAfterCooldown | src/main.rs:204-206 | with fire held, the tick that starts k decrements after a shot fires iff k > 30 |
| Game.ShotCooldown | src/main.rs:204-206 | after a shot the next one can come on the 31st tick at the earliest |
| Game.MainState.constructor | src/main.rs:98-133 | level 0, score 0, resting input, no cool-down, the window size; a fresh actor engine with a new player and no shots or rocks; a fresh flock of exactly the 100 boids spawned from their draws, at zero acceleration, and the 8 attractors spawned from theirs, each with radius 150 and force 0.525 |
| Game.MainState.FirePlayerShot | src/main.rs:135-139 | the cool-down restarts at 0.5 and one shot is appended |
| Game.MainState.CoolDownAndFire | src/main.rs:204-207 | the cool-down drops by 1/60; a shot is fired iff fire is held and the cool-down has run out; at most one shot per tick |
| Game.MainState.ResolveCollisions | src/main.rs:213-227 | the score rises by the hit count; the actors become their collided and filtered selves; the level rises iff no rock is left |
| Game.MainState.StepActors | src/main.rs:204-241 | in order: cool-down and fire, actor update, collisions and score, reclamation, level check. The score never decreases; with no rocks the level rises every tick; it quits iff the player is dead |
| Game.MainState.Tick | src/main.rs:199-245 | StepActors, then the flock update as `UpdatedFrom` describes |
| Game.MainState.KeyDownEvent | src/main.rs:285-307 | the input becomes `Pressed(input, key)`; Escape asks to quit |
| Game.MainState.KeyUpEvent | src/main.rs:309-322 | the input becomes `Released(input, key)` |

## Left out

- Rendering, assets and the UI: `Assets`, `draw_actor`, both `draw` methods, `EventHandler::draw`, `update_ui` and the FPS text, and the `gui_dirty` and `frames` fields. None of them changes the simulation state.
- Audio playback (`shot_sound`, `hit_sound`), the `P` screenshot key, `print_instructions`, `main()` and the resource paths: all of this is I/O.
- `ctx.quit()`: `Tick` and `KeyDownEvent` return a quit flag instead.
- The ggez fixed-timestep `while timer::check_update_time(..)` loop: it depends on the wall clock. `Game.MainState.Tick` models one iteration with dt = 1/60.
- Trigonometry and randomness: `vec_from_angle` and the magnitude `norm` are parameters. The draws of `rand::random` are explicit inputs. `angle_from_vec` is used only for drawing and is not part of this model.
- f32 rounding and i32 overflow of `score` and `level`: the model uses unbounded reals and integers.
- Boids.Floored: the source's `normalize()` of a zero vector yields NaN. The model guards `norm != 0` and leaves a zero velocity unchanged. `Boids.PushedBy` and `AttractorPull` do the same for a boid exactly on an attractor.
- Boids.UpdateBounds: allows a zero velocity besides the [50, 100] band, because the zero case is the NaN case above.
- Actors.ClampedVelocity: the source divides by `norm_squared().sqrt()`. The model divides by the abstract `norm`, which `IsNorm` ties to the same value.
