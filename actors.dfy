/** The arcade-shooter engine: one player ship, the shots it fires and the
    rocks, all kept by an `ActorManager` that steers, integrates, wraps,
    collides and reclaims them once per tick. */
module Actors {
  import opened Geometry

  datatype ActorType = Player | Rock | Shot

  /** `life` is overloaded: for shots it is the time left to live, for the
      player and the rocks it is their hit points. */
  datatype Actor = Actor(
    tag: ActorType,
    pos: Point2,
    facing: real,
    velocity: Vec2,
    angVel: real,
    bboxSize: real,
    life: real)

  const PLAYER_LIFE: real := 1.0
  const SHOT_LIFE: real := 2.0
  const ROCK_LIFE: real := 1.0

  const PLAYER_BBOX: real := 12.0
  const ROCK_BBOX: real := 12.0
  const SHOT_BBOX: real := 6.0

  const MAX_ROCK_VEL: real := 50.0

  const SHOT_SPEED: real := 200.0
  const SHOT_ANG_VEL: real := 0.1
  /** How fast thrust speeds the ship up, per second of thrust. */
  const PLAYER_THRUST: real := 100.0
  /** How far the ship turns, in radians, per second of turn input. */
  const PLAYER_TURN_RATE: real := 3.0
  /** The cool-down a shot starts, in seconds. */
  const PLAYER_SHOT_TIME: real := 0.5
  const MAX_PHYSICS_VEL: real := 250.0

  /** The device-independent input the key handlers maintain. */
  datatype InputState = InputState(xaxis: real, yaxis: real, fire: bool)

  /** `InputState::default()` */
  const DefaultInput: InputState := InputState(0.0, 0.0, false)

  /** What `clear_dead_stuff` keeps. */
  predicate Alive(a: Actor) { a.life > 0.0 }

  // ---------------------------------------------------------------------
  // Constructors
  // ---------------------------------------------------------------------

  function CreatePlayer(): (a: Actor)
    ensures a.tag == Player && a.pos == Zero && a.facing == 0.0 && a.velocity == Zero
    ensures a.angVel == 0.0 && a.bboxSize == PLAYER_BBOX && a.life == PLAYER_LIFE && Alive(a)
  {
    Actor(Player, Zero, 0.0, Zero, 0.0, PLAYER_BBOX, PLAYER_LIFE)
  }

  function CreateRock(): (a: Actor)
    ensures a.tag == Rock && a.pos == Zero && a.facing == 0.0 && a.velocity == Zero
    ensures a.angVel == 0.0 && a.bboxSize == ROCK_BBOX && a.life == ROCK_LIFE && Alive(a)
  {
    Actor(Rock, Zero, 0.0, Zero, 0.0, ROCK_BBOX, ROCK_LIFE)
  }

  function CreateShot(): (a: Actor)
    ensures a.tag == Shot && a.pos == Zero && a.facing == 0.0 && a.velocity == Zero
    ensures a.angVel == SHOT_ANG_VEL && a.bboxSize == SHOT_BBOX && a.life == SHOT_LIFE && Alive(a)
  {
    Actor(Shot, Zero, 0.0, Zero, SHOT_ANG_VEL, SHOT_BBOX, SHOT_LIFE)
  }

  /** The random choices `create_rocks` makes for one rock: the unit vector of
      the random placement angle, the random fraction of the radius band, and
      the unit vector and magnitude fraction `random_vec` draws for the
      velocity. */
  datatype RockDraw = RockDraw(direction: Vec2, fraction: real, heading: Vec2, speedDraw: real)

  /** One rock placed at `exclusion + direction * distance`. */
  function PlacedRock(draw: RockDraw, exclusion: Point2, minRadius: real, maxRadius: real): Actor
  {
    var distance := draw.fraction * (maxRadius - minRadius) + minRadius;
    CreateRock().(pos := Add(exclusion, Scale(draw.direction, distance)),
                  velocity := RandomVec(draw.heading, draw.speedDraw, MAX_ROCK_VEL))
  }

  /** `create_rocks`: as many rocks as `num` counts (none for a non-positive
      `num`), each from its own random draw. */
  function CreateRocks(num: int, exclusion: Point2, minRadius: real, maxRadius: real,
                       draws: seq<RockDraw>): (rocks: seq<Actor>)
    requires maxRadius > minRadius
    requires |draws| == if num > 0 then num else 0
    ensures |rocks| == if num > 0 then num else 0
    ensures forall i :: 0 <= i < |rocks| ==>
              rocks[i].tag == Rock && rocks[i].life == ROCK_LIFE && rocks[i].bboxSize == ROCK_BBOX &&
              rocks[i].velocity == RandomVec(draws[i].heading, draws[i].speedDraw, MAX_ROCK_VEL)
  {
    seq(|draws|, i requires 0 <= i < |draws| => PlacedRock(draws[i], exclusion, minRadius, maxRadius))
  }

  /** With a unit direction and a fraction in [0, 1), every rock lies in the
      ring between `minRadius` and `maxRadius` around the exclusion point. */
  lemma RocksOutsideExclusion(num: int, exclusion: Point2, minRadius: real, maxRadius: real,
                              draws: seq<RockDraw>, i: nat)
    requires 0.0 <= minRadius < maxRadius
    requires |draws| == if num > 0 then num else 0
    requires i < |draws|
    requires NormSq(draws[i].direction) == 1.0 && 0.0 <= draws[i].fraction < 1.0
    ensures Sq(minRadius) <= NormSq(Sub(CreateRocks(num, exclusion, minRadius, maxRadius, draws)[i].pos, exclusion))
    ensures NormSq(Sub(CreateRocks(num, exclusion, minRadius, maxRadius, draws)[i].pos, exclusion)) < Sq(maxRadius)
  {
    var d := draws[i];
    var distance := d.fraction * (maxRadius - minRadius) + minRadius;
    var offset := Sub(CreateRocks(num, exclusion, minRadius, maxRadius, draws)[i].pos, exclusion);
    assert offset == Scale(d.direction, distance);
    NormSqScale(d.direction, distance);
    FractionBelowWhole(d.fraction, maxRadius - minRadius);
    assert distance == Mul(d.fraction, maxRadius - minRadius) + minRadius;
    SquareLess(distance, maxRadius);
    if minRadius < distance {
      SquareLess(minRadius, distance);
    }
  }

  /** With a unit heading and a draw in [0, 1), every rock starts slower than
      `MAX_ROCK_VEL`. */
  lemma RocksBelowMaxSpeed(num: int, exclusion: Point2, minRadius: real, maxRadius: real,
                           draws: seq<RockDraw>, i: nat)
    requires minRadius < maxRadius
    requires |draws| == if num > 0 then num else 0
    requires i < |draws|
    requires NormSq(draws[i].heading) == 1.0 && 0.0 <= draws[i].speedDraw < 1.0
    ensures NormSq(CreateRocks(num, exclusion, minRadius, maxRadius, draws)[i].velocity) < Sq(MAX_ROCK_VEL)
  {
    RandomVecBelowMax(draws[i].heading, draws[i].speedDraw, MAX_ROCK_VEL);
  }

  // ---------------------------------------------------------------------
  // Per-tick physics of one actor
  // ---------------------------------------------------------------------

  /** `player_handle_input` with `player_thrust`: turn by the x axis, then
      thrust along the new facing when the y axis is positive. */
  function Steered(p: Actor, input: InputState, dt: real, vecFromAngle: real -> Vec2): (r: Actor)
    ensures r == p.(facing := r.facing, velocity := r.velocity)
    ensures input.xaxis == 0.0 ==> r.facing == p.facing
    ensures input.yaxis <= 0.0 ==> r.velocity == p.velocity
  {
    var turned := p.(facing := p.facing + dt * PLAYER_TURN_RATE * input.xaxis);
    if input.yaxis > 0.0 then
      var thrust := Scale(vecFromAngle(turned.facing), PLAYER_THRUST);
      turned.(velocity := Add(turned.velocity, Scale(thrust, dt)))
    else
      turned
  }

  /** The velocity cap: a velocity faster than `MAX_PHYSICS_VEL` is rescaled
      to exactly that speed along its own direction; slower ones are kept. */
  function ClampedVelocity(v: Vec2, norm: Vec2 -> real): (r: Vec2)
    requires IsNorm(norm)
    ensures NormSq(v) <= Sq(MAX_PHYSICS_VEL) ==> r == v
  {
    if NormSq(v) > Sq(MAX_PHYSICS_VEL) then Scale(Normalized(v, norm), MAX_PHYSICS_VEL) else v
  }

  /** The cap never lets a velocity through above `MAX_PHYSICS_VEL`, keeps
      slower velocities as they are, and only shortens faster ones. */
  lemma ClampedVelocityBounded(v: Vec2, norm: Vec2 -> real)
    requires IsNorm(norm)
    ensures NormSq(ClampedVelocity(v, norm)) <= Sq(MAX_PHYSICS_VEL)
    ensures NormSq(v) <= Sq(MAX_PHYSICS_VEL) ==> ClampedVelocity(v, norm) == v
    ensures NormSq(v) > Sq(MAX_PHYSICS_VEL) ==>
              NormSq(ClampedVelocity(v, norm)) == Sq(MAX_PHYSICS_VEL) &&
              SameDirection(ClampedVelocity(v, norm), v)
  {
    if NormSq(v) > Sq(MAX_PHYSICS_VEL) {
      NormSqNonNegative(v);
      RescaledNorm(v, MAX_PHYSICS_VEL, norm);
    }
  }

  /** `update_actor_position`: cap the speed, move by the capped velocity,
      turn by the angular velocity (per tick, not scaled by `dt`). */
  function Moved(a: Actor, dt: real, norm: Vec2 -> real): (r: Actor)
    requires IsNorm(norm)
    ensures r == a.(velocity := r.velocity, pos := r.pos, facing := r.facing)
    ensures r.velocity == ClampedVelocity(a.velocity, norm)
    ensures r.pos == Add(a.pos, Scale(r.velocity, dt))
  {
    var v := ClampedVelocity(a.velocity, norm);
    a.(velocity := v, pos := Add(a.pos, Scale(v, dt)), facing := a.facing + a.angVel)
  }

  /** The `wrap_actor_position` nested in `ActorManager::update`: the same
      toroidal wrap, on the actor's position. */
  function Wrapped(a: Actor, sx: real, sy: real): (r: Actor)
    ensures r == a.(pos := r.pos)
    ensures -(sx / 2.0) <= a.pos.x <= sx / 2.0 && -(sy / 2.0) <= a.pos.y <= sy / 2.0 ==> r == a
  {
    a.(pos := Wrap(a.pos, Vec2(sx, sy)))
  }

  /** The player's whole update: steer, move, wrap. */
  function StepPlayer(p: Actor, input: InputState, dt: real, sx: real, sy: real,
                      norm: Vec2 -> real, vecFromAngle: real -> Vec2): (r: Actor)
    requires IsNorm(norm)
    ensures r == p.(pos := r.pos, facing := r.facing, velocity := r.velocity)
  {
    Wrapped(Moved(Steered(p, input, dt, vecFromAngle), dt, norm), sx, sy)
  }

  /** A shot's update: move, wrap, and lose `dt` seconds of life. */
  function StepShot(s: Actor, dt: real, sx: real, sy: real, norm: Vec2 -> real): (r: Actor)
    requires IsNorm(norm)
    ensures r == s.(pos := r.pos, facing := r.facing, velocity := r.velocity, life := s.life - dt)
  {
    var w := Wrapped(Moved(s, dt, norm), sx, sy);
    w.(life := w.life - dt)
  }

  /** A rock's update: move and wrap; its life is untouched. */
  function StepRock(a: Actor, dt: real, sx: real, sy: real, norm: Vec2 -> real): (r: Actor)
    requires IsNorm(norm)
    ensures r == a.(pos := r.pos, facing := r.facing, velocity := r.velocity)
  {
    Wrapped(Moved(a, dt, norm), sx, sy)
  }

  /** The player turns by the input plus its own angular velocity, ends below
      the speed cap, moves by its capped velocity (then wraps); without thrust
      it keeps its old velocity up to the cap, with thrust it gains
      `PLAYER_THRUST * dt` along the turned facing before the cap. Its life is
      untouched. */
  lemma StepPlayerSpec(p: Actor, input: InputState, dt: real, sx: real, sy: real,
                       norm: Vec2 -> real, vecFromAngle: real -> Vec2)
    requires IsNorm(norm)
    ensures var r := StepPlayer(p, input, dt, sx, sy, norm, vecFromAngle);
            NormSq(r.velocity) <= Sq(MAX_PHYSICS_VEL) &&
            r.facing == p.facing + dt * PLAYER_TURN_RATE * input.xaxis + p.angVel &&
            (input.yaxis <= 0.0 ==> r.velocity == ClampedVelocity(p.velocity, norm)) &&
            (input.yaxis > 0.0 ==>
               r.velocity == ClampedVelocity(Add(p.velocity, Scale(Scale(vecFromAngle(
                 p.facing + dt * PLAYER_TURN_RATE * input.xaxis), PLAYER_THRUST), dt)), norm)) &&
            r.pos == Wrap(Add(p.pos, Scale(r.velocity, dt)), Vec2(sx, sy)) &&
            r.tag == p.tag && r.life == p.life && r.bboxSize == p.bboxSize && r.angVel == p.angVel
  {
    ClampedVelocityBounded(Steered(p, input, dt, vecFromAngle).velocity, norm);
  }

  /** A shot loses exactly `dt` of life, takes its capped velocity (below the
      speed cap) and moves by it (then wraps). */
  lemma StepShotSpec(s: Actor, dt: real, sx: real, sy: real, norm: Vec2 -> real)
    requires IsNorm(norm)
    ensures var r := StepShot(s, dt, sx, sy, norm);
            r.life == s.life - dt &&
            r.velocity == ClampedVelocity(s.velocity, norm) &&
            NormSq(r.velocity) <= Sq(MAX_PHYSICS_VEL) &&
            r.facing == s.facing + s.angVel &&
            r.pos == Wrap(Add(s.pos, Scale(r.velocity, dt)), Vec2(sx, sy)) &&
            r.tag == s.tag && r.bboxSize == s.bboxSize && r.angVel == s.angVel
  {
    ClampedVelocityBounded(s.velocity, norm);
  }

  /** A rock keeps its life, takes its capped velocity (below the speed cap)
      and moves by it (then wraps). */
  lemma StepRockSpec(a: Actor, dt: real, sx: real, sy: real, norm: Vec2 -> real)
    requires IsNorm(norm)
    ensures var r := StepRock(a, dt, sx, sy, norm);
            r.life == a.life &&
            r.velocity == ClampedVelocity(a.velocity, norm) &&
            NormSq(r.velocity) <= Sq(MAX_PHYSICS_VEL) &&
            r.facing == a.facing + a.angVel &&
            r.pos == Wrap(Add(a.pos, Scale(r.velocity, dt)), Vec2(sx, sy)) &&
            r.tag == a.tag && r.bboxSize == a.bboxSize && r.angVel == a.angVel
  {
    ClampedVelocityBounded(a.velocity, norm);
  }

  /** Every shot updated. */
  function StepShots(shots: seq<Actor>, dt: real, sx: real, sy: real, norm: Vec2 -> real): seq<Actor>
    requires IsNorm(norm)
  {
    seq(|shots|, i requires 0 <= i < |shots| => StepShot(shots[i], dt, sx, sy, norm))
  }

  /** Every rock updated. */
  function StepRocks(rocks: seq<Actor>, dt: real, sx: real, sy: real, norm: Vec2 -> real): seq<Actor>
    requires IsNorm(norm)
  {
    seq(|rocks|, i requires 0 <= i < |rocks| => StepRock(rocks[i], dt, sx, sy, norm))
  }

  /** Updating the shots keeps their number and order; each one loses exactly
      `dt` of life and ends below the speed cap. */
  lemma StepShotsSpec(shots: seq<Actor>, dt: real, sx: real, sy: real, norm: Vec2 -> real)
    requires IsNorm(norm)
    ensures |StepShots(shots, dt, sx, sy, norm)| == |shots|
    ensures forall k :: 0 <= k < |shots| ==>
              StepShots(shots, dt, sx, sy, norm)[k].life == shots[k].life - dt &&
              NormSq(StepShots(shots, dt, sx, sy, norm)[k].velocity) <= Sq(MAX_PHYSICS_VEL)
  {
    forall k | 0 <= k < |shots|
      ensures StepShots(shots, dt, sx, sy, norm)[k].life == shots[k].life - dt
      ensures NormSq(StepShots(shots, dt, sx, sy, norm)[k].velocity) <= Sq(MAX_PHYSICS_VEL)
    {
      StepShotSpec(shots[k], dt, sx, sy, norm);
    }
  }

  /** Updating the rocks keeps their number, order and life; each one ends
      below the speed cap. */
  lemma StepRocksSpec(rocks: seq<Actor>, dt: real, sx: real, sy: real, norm: Vec2 -> real)
    requires IsNorm(norm)
    ensures |StepRocks(rocks, dt, sx, sy, norm)| == |rocks|
    ensures forall k :: 0 <= k < |rocks| ==>
              StepRocks(rocks, dt, sx, sy, norm)[k].life == rocks[k].life &&
              NormSq(StepRocks(rocks, dt, sx, sy, norm)[k].velocity) <= Sq(MAX_PHYSICS_VEL)
  {
    forall k | 0 <= k < |rocks|
      ensures StepRocks(rocks, dt, sx, sy, norm)[k].life == rocks[k].life
      ensures NormSq(StepRocks(rocks, dt, sx, sy, norm)[k].velocity) <= Sq(MAX_PHYSICS_VEL)
    {
      StepRockSpec(rocks[k], dt, sx, sy, norm);
    }
  }

  /** `n` consecutive shot updates. */
  function StepShotTimes(s: Actor, n: nat, dt: real, sx: real, sy: real, norm: Vec2 -> real): Actor
    requires IsNorm(norm)
  {
    if n == 0 then s else StepShot(StepShotTimes(s, n - 1, dt, sx, sy, norm), dt, sx, sy, norm)
  }

  /** `life` after `n` deductions of `dt`. */
  function Drained(life: real, n: nat, dt: real): real
  {
    if n == 0 then life else Drained(life, n - 1, dt) - dt
  }

  lemma {:induction false} DrainedIsProduct(life: real, n: nat, dt: real)
    ensures Drained(life, n, dt) == life - (n as real) * dt
  {
    if n > 0 {
      DrainedIsProduct(life, n - 1, dt);
      var m := (n - 1) as real;
      assert (m + 1.0) * dt == m * dt + dt;
    }
  }

  /** After `n` updates a shot has lost exactly `n * dt` of its life. */
  lemma {:induction false} StepShotTimesLife(s: Actor, n: nat, dt: real, sx: real, sy: real, norm: Vec2 -> real)
    requires IsNorm(norm)
    ensures StepShotTimes(s, n, dt, sx, sy, norm).life == Drained(s.life, n, dt)
  {
    if n > 0 {
      StepShotTimesLife(s, n - 1, dt, sx, sy, norm);
      StepShotSpec(StepShotTimes(s, n - 1, dt, sx, sy, norm), dt, sx, sy, norm);
    }
  }

  /** At 60 updates per second a fresh shot (life 2.0) is still alive after
      119 updates and dead after 120, barring a collision. */
  lemma ShotLifetime(s: Actor, sx: real, sy: real, norm: Vec2 -> real)
    requires IsNorm(norm) && s.life == SHOT_LIFE
    ensures Alive(StepShotTimes(s, 119, 1.0 / 60.0, sx, sy, norm))
    ensures !Alive(StepShotTimes(s, 120, 1.0 / 60.0, sx, sy, norm))
  {
    StepShotTimesLife(s, 119, 1.0 / 60.0, sx, sy, norm);
    StepShotTimesLife(s, 120, 1.0 / 60.0, sx, sy, norm);
    DrainedIsProduct(s.life, 119, 1.0 / 60.0);
    DrainedIsProduct(s.life, 120, 1.0 / 60.0);
  }

  // ---------------------------------------------------------------------
  // Collisions
  // ---------------------------------------------------------------------

  /** Two actors overlap when their centres are closer than the sum of their
      bounding radii, written with squared distance. */
  predicate Touching(a: Actor, b: Actor)
  {
    var reach := a.bboxSize + b.bboxSize;
    0.0 < reach && NormSq(Sub(a.pos, b.pos)) < Sq(reach)
  }

  lemma TouchingSymmetric(a: Actor, b: Actor)
    ensures Touching(a, b) <==> Touching(b, a)
  {
    assert Sq(b.pos.x - a.pos.x) == Sq(a.pos.x - b.pos.x);
    assert Sq(b.pos.y - a.pos.y) == Sq(a.pos.y - b.pos.y);
  }

  /** The squared form is exactly the source's `norm() < bbox + bbox` test,
      in either order of the two actors. */
  lemma TouchingIffNormBelow(a: Actor, b: Actor, norm: Vec2 -> real)
    requires IsNorm(norm)
    ensures Touching(a, b) <==> norm(Sub(a.pos, b.pos)) < a.bboxSize + b.bboxSize
    ensures Touching(b, a) <==> Touching(a, b)
  {
    var d := Sub(a.pos, b.pos);
    assert Sq(b.pos.x - a.pos.x) == Sq(d.x) && Sq(b.pos.y - a.pos.y) == Sq(d.y);
    assert NormSq(Sub(b.pos, a.pos)) == NormSq(d);
    var reach := a.bboxSize + b.bboxSize;
    if 0.0 <= reach {
      NormCompare(d, reach, norm);
    }
  }

  /** Some member of `others` overlaps `a`, scanning from the back. */
  predicate TouchesAny(a: Actor, others: seq<Actor>)
  {
    others != [] && (TouchesAny(a, others[..|others| - 1]) || Touching(a, others[|others| - 1]))
  }

  /** The scan finds an overlap exactly when one exists. */
  lemma {:induction false} TouchesAnyIffExists(a: Actor, others: seq<Actor>)
    ensures TouchesAny(a, others) <==> exists k :: 0 <= k < |others| && Touching(a, others[k])
  {
    if others != [] {
      var n := |others| - 1;
      var front := others[..n];
      TouchesAnyIffExists(a, front);
      if exists k :: 0 <= k < |others| && Touching(a, others[k]) {
        var k :| 0 <= k < |others| && Touching(a, others[k]);
        if k < n {
          assert front[k] == others[k];
        }
      }
      if exists k :: 0 <= k < |front| && Touching(a, front[k]) {
        var k :| 0 <= k < |front| && Touching(a, front[k]);
        assert front[k] == others[k];
      }
    }
  }

  /** `a` with its life set to 0 when `hit`. */
  function Killed(a: Actor, hit: bool): (r: Actor)
    ensures r == a.(life := r.life)
    ensures hit ==> r.life == 0.0
    ensures Alive(r) <==> Alive(a) && !hit
  {
    if hit then a.(life := 0.0) else a
  }

  /** The player after `handle_collisions`: dead iff some rock overlaps it. */
  function CollidedPlayer(player: Actor, rocks: seq<Actor>): (r: Actor)
    ensures r == player.(life := r.life)
    ensures Alive(r) <==> Alive(player) && !TouchesAny(player, rocks)
  {
    Killed(player, TouchesAny(player, rocks))
  }

  /** The shots after `handle_collisions`: dead iff some rock overlaps them. */
  function CollidedShots(shots: seq<Actor>, rocks: seq<Actor>): (r: seq<Actor>)
    ensures |r| == |shots|
    ensures forall j :: 0 <= j < |shots| ==> r[j] == shots[j].(life := r[j].life)
  {
    seq(|shots|, j requires 0 <= j < |shots| => Killed(shots[j], TouchesAny(shots[j], rocks)))
  }

  /** The rocks after `handle_collisions`: dead iff some shot overlaps them. */
  function CollidedRocks(rocks: seq<Actor>, shots: seq<Actor>): (r: seq<Actor>)
    ensures |r| == |rocks|
    ensures forall i :: 0 <= i < |rocks| ==> r[i] == rocks[i].(life := r[i].life)
  {
    seq(|rocks|, i requires 0 <= i < |rocks| => Killed(rocks[i], TouchesAny(rocks[i], shots)))
  }

  /** How many shots overlap `rock`: the size of the set of their indices. */
  function CountTouching(rock: Actor, shots: seq<Actor>): (r: nat)
    ensures r == |TouchingShots(rock, shots)|
    ensures r <= |shots|
  {
    if shots == [] then 0
    else
      TouchingShotsSplit(rock, shots);
      CountTouching(rock, shots[..|shots| - 1]) + (if Touching(shots[|shots| - 1], rock) then 1 else 0)
  }

  /** The indices of the shots that overlap `rock`. */
  ghost function TouchingShots(rock: Actor, shots: seq<Actor>): set<int>
  {
    set j | 0 <= j < |shots| && Touching(shots[j], rock)
  }

  /** The touching indices among a non-empty list of shots are those among
      all but the last shot, plus the last index when that shot overlaps. */
  lemma TouchingShotsSplit(rock: Actor, shots: seq<Actor>)
    requires shots != []
    ensures var n := |shots| - 1;
            TouchingShots(rock, shots) ==
              TouchingShots(rock, shots[..n]) + (if Touching(shots[n], rock) then {n} else {})
    ensures |shots| - 1 !in TouchingShots(rock, shots[..|shots| - 1])
  {
    var n := |shots| - 1;
    var front := shots[..n];
    forall j | j in TouchingShots(rock, shots)
      ensures j in TouchingShots(rock, front) + (if Touching(shots[n], rock) then {n} else {})
    {
      if j < n {
        assert front[j] == shots[j];
      }
    }
    forall j | j in TouchingShots(rock, front)
      ensures j in TouchingShots(rock, shots)
    {
      assert front[j] == shots[j];
    }
  }

  /** The value `handle_collisions` returns: overlapping (rock, shot) pairs,
      counted rock by rock. */
  function HitCount(rocks: seq<Actor>, shots: seq<Actor>): (r: nat)
    ensures rocks == [] || shots == [] ==> r == 0
  {
    if rocks == [] then 0
    else HitCount(rocks[..|rocks| - 1], shots) + CountTouching(rocks[|rocks| - 1], shots)
  }

  /** The overlapping (rock index, shot index) pairs. */
  ghost function TouchingPairs(rocks: seq<Actor>, shots: seq<Actor>): set<(int, int)>
  {
    set i, j | 0 <= i < |rocks| && 0 <= j < |shots| && Touching(shots[j], rocks[i]) :: (i, j)
  }

  /** The pairs of one rock, standing at index `i`. */
  ghost function RockPairs(i: int, rock: Actor, shots: seq<Actor>): set<(int, int)>
  {
    set j | 0 <= j < |shots| && Touching(shots[j], rock) :: (i, j)
  }

  lemma {:induction false} RockPairsCount(i: int, rock: Actor, shots: seq<Actor>)
    ensures |RockPairs(i, rock, shots)| == CountTouching(rock, shots)
  {
    if shots != [] {
      var n := |shots| - 1;
      RockPairsCount(i, rock, shots[..n]);
      RockPairsSplit(i, rock, shots);
    }
  }

  /** The pairs of a rock against a non-empty list of shots are its pairs
      against all but the last shot, plus the pair with the last one when
      they overlap. */
  lemma RockPairsSplit(i: int, rock: Actor, shots: seq<Actor>)
    requires shots != []
    ensures var n := |shots| - 1;
            RockPairs(i, rock, shots) ==
              RockPairs(i, rock, shots[..n]) + (if Touching(shots[n], rock) then {(i, n)} else {})
    ensures (i, |shots| - 1) !in RockPairs(i, rock, shots[..|shots| - 1])
  {
    var n := |shots| - 1;
    var front := shots[..n];
    forall p | p in RockPairs(i, rock, shots)
      ensures p in RockPairs(i, rock, front) + (if Touching(shots[n], rock) then {(i, n)} else {})
    {
      var j := p.1;
      if j < n {
        assert front[j] == shots[j];
      }
    }
    forall p | p in RockPairs(i, rock, front)
      ensures p in RockPairs(i, rock, shots)
    {
      assert front[p.1] == shots[p.1];
    }
  }

  /** `handle_collisions` counts exactly the overlapping (rock, shot) pairs,
      whatever their `life`. */
  lemma {:induction false} HitCountIsPairCount(rocks: seq<Actor>, shots: seq<Actor>)
    ensures HitCount(rocks, shots) == |TouchingPairs(rocks, shots)|
  {
    if rocks != [] {
      var m := |rocks| - 1;
      HitCountIsPairCount(rocks[..m], shots);
      RockPairsCount(m, rocks[m], shots);
      TouchingPairsSplit(rocks, shots);
    }
  }

  /** The pairs of a non-empty list of rocks are those of all but the last
      rock, plus the last rock's own pairs, and the two do not overlap. */
  lemma TouchingPairsSplit(rocks: seq<Actor>, shots: seq<Actor>)
    requires rocks != []
    ensures var m := |rocks| - 1;
            TouchingPairs(rocks, shots) == TouchingPairs(rocks[..m], shots) + RockPairs(m, rocks[m], shots)
    ensures var m := |rocks| - 1;
            TouchingPairs(rocks[..m], shots) * RockPairs(m, rocks[m], shots) == {}
  {
    var m := |rocks| - 1;
    var front := rocks[..m];
    var row := RockPairs(m, rocks[m], shots);
    forall p | p in TouchingPairs(rocks, shots)
      ensures p in TouchingPairs(front, shots) + row
    {
      if p.0 < m {
        assert front[p.0] == rocks[p.0];
      }
    }
    forall p | p in TouchingPairs(front, shots)
      ensures p in TouchingPairs(rocks, shots)
    {
      assert front[p.0] == rocks[p.0];
    }
  }

  /** Collisions change only `life`, so a second call with no movement in
      between finds the same pairs and returns the same count again. */
  lemma CollisionRepeatSameCount(rocks: seq<Actor>, shots: seq<Actor>)
    ensures HitCount(CollidedRocks(rocks, shots), CollidedShots(shots, rocks)) == HitCount(rocks, shots)
  {
    var rocks' := CollidedRocks(rocks, shots);
    var shots' := CollidedShots(shots, rocks);
    HitCountIsPairCount(rocks, shots);
    HitCountIsPairCount(rocks', shots');
    assert TouchingPairs(rocks', shots') == TouchingPairs(rocks, shots) by {
      forall p | p in TouchingPairs(rocks', shots')
        ensures p in TouchingPairs(rocks, shots)
      {
        assert Touching(shots'[p.1], rocks'[p.0]) == Touching(shots[p.1], rocks[p.0]);
      }
      forall p | p in TouchingPairs(rocks, shots)
        ensures p in TouchingPairs(rocks', shots')
      {
        assert Touching(shots'[p.1], rocks'[p.0]) == Touching(shots[p.1], rocks[p.0]);
      }
    }
  }

  /** The player's life drops to 0 exactly when some rock overlaps it;
      nothing else about the player changes. */
  lemma PlayerCollision(player: Actor, rocks: seq<Actor>)
    ensures CollidedPlayer(player, rocks).(life := player.life) == player
    ensures (exists k :: 0 <= k < |rocks| && Touching(player, rocks[k])) ==>
              CollidedPlayer(player, rocks).life == 0.0
    ensures (forall k :: 0 <= k < |rocks| ==> !Touching(player, rocks[k])) ==>
              CollidedPlayer(player, rocks) == player
  {
    TouchesAnyIffExists(player, rocks);
  }

  /** Shot `j` keeps its place; its life drops to 0 exactly when some rock
      overlaps it, and nothing else about it changes. */
  lemma ShotCollision(shots: seq<Actor>, rocks: seq<Actor>, j: nat)
    requires j < |shots|
    ensures |CollidedShots(shots, rocks)| == |shots|
    ensures CollidedShots(shots, rocks)[j].(life := shots[j].life) == shots[j]
    ensures (exists k :: 0 <= k < |rocks| && Touching(shots[j], rocks[k])) ==>
              CollidedShots(shots, rocks)[j].life == 0.0
    ensures (forall k :: 0 <= k < |rocks| ==> !Touching(shots[j], rocks[k])) ==>
              CollidedShots(shots, rocks)[j] == shots[j]
  {
    TouchesAnyIffExists(shots[j], rocks);
  }

  /** Rock `i` keeps its place; its life drops to 0 exactly when some shot
      overlaps it, and nothing else about it changes. */
  lemma RockCollision(rocks: seq<Actor>, shots: seq<Actor>, i: nat)
    requires i < |rocks|
    ensures |CollidedRocks(rocks, shots)| == |rocks|
    ensures CollidedRocks(rocks, shots)[i].(life := rocks[i].life) == rocks[i]
    ensures (exists k :: 0 <= k < |shots| && Touching(rocks[i], shots[k])) ==>
              CollidedRocks(rocks, shots)[i].life == 0.0
    ensures (forall k :: 0 <= k < |shots| ==> !Touching(rocks[i], shots[k])) ==>
              CollidedRocks(rocks, shots)[i] == rocks[i]
  {
    TouchesAnyIffExists(rocks[i], shots);
  }

  lemma TouchesAnyExtend(a: Actor, others: seq<Actor>, n: nat)
    requires n < |others|
    ensures TouchesAny(a, others[..n + 1]) <==> TouchesAny(a, others[..n]) || Touching(a, others[n])
  {
    assert others[..n + 1][..n] == others[..n];
  }

  /** The rocks part-way through the collision scan: rocks before `i` are
      done, rock `i` has met the shots before `j`, the rest are untouched. */
  ghost function ScanRocks(rocks0: seq<Actor>, shots0: seq<Actor>, i: int, j: int): seq<Actor>
    requires 0 <= j <= |shots0|
  {
    seq(|rocks0|, k requires 0 <= k < |rocks0| =>
      if k < i then Killed(rocks0[k], TouchesAny(rocks0[k], shots0))
      else if k == i then Killed(rocks0[k], TouchesAny(rocks0[k], shots0[..j]))
      else rocks0[k])
  }

  /** The shots part-way through the scan: shots before `j` have met the
      rocks up to and including `i`, the others the rocks before `i`. */
  ghost function ScanShots(shots0: seq<Actor>, rocks0: seq<Actor>, i: int, j: int): seq<Actor>
    requires 0 <= i < |rocks0| || i == |rocks0|
  {
    seq(|shots0|, k requires 0 <= k < |shots0| =>
      if k < j && i < |rocks0| then Killed(shots0[k], TouchesAny(shots0[k], rocks0[..i + 1]))
      else Killed(shots0[k], TouchesAny(shots0[k], rocks0[..i])))
  }

  lemma ScanStart(rocks0: seq<Actor>, shots0: seq<Actor>)
    ensures ScanRocks(rocks0, shots0, 0, 0) == rocks0
    ensures ScanShots(shots0, rocks0, 0, 0) == shots0
  {
    assert shots0[..0] == [] && rocks0[..0] == [];
  }

  /** One (rock, shot) test of the scan. */
  lemma ScanStep(rocks0: seq<Actor>, shots0: seq<Actor>, i: nat, j: nat)
    requires i < |rocks0| && j < |shots0|
    ensures var hit := Touching(shots0[j], rocks0[i]);
            var rs := ScanRocks(rocks0, shots0, i, j);
            var ss := ScanShots(shots0, rocks0, i, j);
            |rs| == |rocks0| && |ss| == |shots0| &&
            rs[i].pos == rocks0[i].pos && rs[i].bboxSize == rocks0[i].bboxSize &&
            ss[j].pos == shots0[j].pos && ss[j].bboxSize == shots0[j].bboxSize &&
            ScanRocks(rocks0, shots0, i, j + 1) == (if hit then rs[i := rs[i].(life := 0.0)] else rs) &&
            ScanShots(shots0, rocks0, i, j + 1) == (if hit then ss[j := ss[j].(life := 0.0)] else ss) &&
            CountTouching(rocks0[i], shots0[..j + 1]) ==
              CountTouching(rocks0[i], shots0[..j]) + (if hit then 1 else 0)
  {
    TouchesAnyExtend(shots0[j], rocks0, i);
    TouchesAnyExtend(rocks0[i], shots0, j);
    assert shots0[..j + 1][..j] == shots0[..j];
    TouchingSymmetric(shots0[j], rocks0[i]);
  }

  /** Finishing rock `i`'s row is starting rock `i + 1`'s. */
  lemma ScanRowDone(rocks0: seq<Actor>, shots0: seq<Actor>, i: nat)
    requires i < |rocks0|
    ensures ScanRocks(rocks0, shots0, i, |shots0|) == ScanRocks(rocks0, shots0, i + 1, 0)
    ensures ScanShots(shots0, rocks0, i, |shots0|) == ScanShots(shots0, rocks0, i + 1, 0)
    ensures HitCount(rocks0[..i], shots0) + CountTouching(rocks0[i], shots0) == HitCount(rocks0[..i + 1], shots0)
  {
    ScanRowDoneRocks(rocks0, shots0, i);
    ScanRowDoneShots(rocks0, shots0, i);
    ScanRowDoneCount(rocks0, shots0, i);
  }

  lemma ScanRowDoneRocks(rocks0: seq<Actor>, shots0: seq<Actor>, i: nat)
    requires i < |rocks0|
    ensures ScanRocks(rocks0, shots0, i, |shots0|) == ScanRocks(rocks0, shots0, i + 1, 0)
  {
    assert shots0[..|shots0|] == shots0;
  }

  lemma ScanRowDoneShots(rocks0: seq<Actor>, shots0: seq<Actor>, i: nat)
    requires i < |rocks0|
    ensures ScanShots(shots0, rocks0, i, |shots0|) == ScanShots(shots0, rocks0, i + 1, 0)
  {
  }

  lemma ScanRowDoneCount(rocks0: seq<Actor>, shots0: seq<Actor>, i: nat)
    requires i < |rocks0|
    ensures HitCount(rocks0[..i], shots0) + CountTouching(rocks0[i], shots0) == HitCount(rocks0[..i + 1], shots0)
  {
    assert rocks0[..i + 1][..i] == rocks0[..i];
  }

  lemma ScanDone(rocks0: seq<Actor>, shots0: seq<Actor>)
    ensures ScanRocks(rocks0, shots0, |rocks0|, 0) == CollidedRocks(rocks0, shots0)
    ensures ScanShots(shots0, rocks0, |rocks0|, 0) == CollidedShots(shots0, rocks0)
    ensures HitCount(rocks0[..|rocks0|], shots0) == HitCount(rocks0, shots0)
  {
    assert rocks0[..|rocks0|] == rocks0;
  }

  // ---------------------------------------------------------------------
  // Reclamation
  // ---------------------------------------------------------------------

  /** `retain(|a| a.life > 0.0)`: the living actors, in their original order. */
  function Retained(s: seq<Actor>): (r: seq<Actor>)
    ensures |r| <= |s|
    ensures forall i :: 0 <= i < |r| ==> Alive(r[i])
  {
    if s == [] then []
    else (if Alive(s[0]) then [s[0]] else []) + Retained(s[1..])
  }

  /** Every living actor is kept as often as it occurs; no dead one is. */
  lemma {:induction false} RetainedMultiset(s: seq<Actor>)
    ensures forall a :: multiset(Retained(s))[a] == if Alive(a) then multiset(s)[a] else 0
  {
    if s != [] {
      RetainedMultiset(s[1..]);
      assert s == [s[0]] + s[1..];
    }
  }

  /** Everything kept is alive; everything alive is kept. */
  lemma RetainedMembers(s: seq<Actor>)
    ensures forall a :: a in Retained(s) <==> a in s && Alive(a)
  {
    RetainedMultiset(s);
    forall a
      ensures a in Retained(s) <==> a in s && Alive(a)
    {
      assert a in Retained(s) <==> multiset(Retained(s))[a] > 0;
      assert a in s <==> multiset(s)[a] > 0;
    }
  }

  /** Filtering a concatenation filters each part and keeps them in order, so
      the survivors keep their relative order. */
  lemma {:induction false} RetainedAppend(a: seq<Actor>, b: seq<Actor>)
    ensures Retained(a + b) == Retained(a) + Retained(b)
  {
    if a == [] {
      assert a + b == b;
    } else {
      assert (a + b)[0] == a[0];
      assert (a + b)[1..] == a[1..] + b;
      RetainedAppend(a[1..], b);
    }
  }

  /** A sequence with no dead actor is left as it is; filtering twice is
      filtering once. */
  lemma {:induction false} RetainedAllAlive(s: seq<Actor>)
    requires forall i :: 0 <= i < |s| ==> Alive(s[i])
    ensures Retained(s) == s
  {
    if s != [] {
      RetainedAllAlive(s[1..]);
    }
  }

  lemma RetainedIdempotent(s: seq<Actor>)
    ensures Retained(Retained(s)) == Retained(s)
  {
    RetainedAllAlive(Retained(s));
  }

  // ---------------------------------------------------------------------
  // The engine
  // ---------------------------------------------------------------------

  /** The shot `fire_player_shot_helper` appends: at the player's position
      and facing, flying at `SHOT_SPEED` along that facing. */
  function ShotFrom(player: Actor, vecFromAngle: real -> Vec2): (s: Actor)
    ensures s.tag == Shot && s.pos == player.pos && s.facing == player.facing
    ensures s.velocity == Vec2(SHOT_SPEED * vecFromAngle(player.facing).x, SHOT_SPEED * vecFromAngle(player.facing).y)
    ensures s.life == SHOT_LIFE && s.bboxSize == SHOT_BBOX && s.angVel == SHOT_ANG_VEL
  {
    var direction := vecFromAngle(player.facing);
    CreateShot().(pos := player.pos, facing := player.facing,
                  velocity := Vec2(SHOT_SPEED * direction.x, SHOT_SPEED * direction.y))
  }

  /** With a unit direction the shot leaves at exactly `SHOT_SPEED`. */
  lemma ShotSpeed(player: Actor, vecFromAngle: real -> Vec2)
    requires NormSq(vecFromAngle(player.facing)) == 1.0
    ensures NormSq(ShotFrom(player, vecFromAngle).velocity) == Sq(SHOT_SPEED)
  {
    var d := vecFromAngle(player.facing);
    NormSqScale(d, SHOT_SPEED);
    assert ShotFrom(player, vecFromAngle).velocity == Scale(d, SHOT_SPEED);
  }

  class ActorManager {
    var player: Actor
    var shots: seq<Actor>
    var rocks: seq<Actor>

    /** `ActorManager::new`: a fresh player, no shots and `create_rocks(0, ..)`,
        that is, no rocks either. */
    constructor ()
      ensures player == CreatePlayer()
      ensures shots == [] && rocks == []
    {
      player := CreatePlayer();
      shots := [];
      rocks := CreateRocks(0, CreatePlayer().pos, 100.0, 250.0, []);
    }

    /** Steer the player from the input, then move and wrap every actor, and
        age the shots by `seconds`. */
    method Update(seconds: real, input: InputState, screenWidth: real, screenHeight: real,
                  norm: Vec2 -> real, vecFromAngle: real -> Vec2)
      requires IsNorm(norm)
      modifies this
      ensures player == StepPlayer(old(player), input, seconds, screenWidth, screenHeight, norm, vecFromAngle)
      ensures shots == StepShots(old(shots), seconds, screenWidth, screenHeight, norm)
      ensures rocks == StepRocks(old(rocks), seconds, screenWidth, screenHeight, norm)
    {
      player := Steered(player, input, seconds, vecFromAngle);

      player := Moved(player, seconds, norm);
      player := Wrapped(player, screenWidth, screenHeight);
      ghost var player1 := player;

      var i := 0;
      while i < |shots|
        invariant player == player1 && rocks == old(rocks)
        invariant 0 <= i <= |shots| == |old(shots)|
        invariant forall k :: 0 <= k < i ==>
                    shots[k] == StepShot(old(shots)[k], seconds, screenWidth, screenHeight, norm)
        invariant forall k :: i <= k < |shots| ==> shots[k] == old(shots)[k]
      {
        var act := Moved(shots[i], seconds, norm);
        act := Wrapped(act, screenWidth, screenHeight);
        act := act.(life := act.life - seconds);
        shots := shots[i := act];
        i := i + 1;
      }

      ghost var shots1 := shots;
      i := 0;
      while i < |rocks|
        invariant player == player1 && shots == shots1
        invariant 0 <= i <= |rocks| == |old(rocks)|
        invariant forall k :: 0 <= k < i ==>
                    rocks[k] == StepRock(old(rocks)[k], seconds, screenWidth, screenHeight, norm)
        invariant forall k :: i <= k < |rocks| ==> rocks[k] == old(rocks)[k]
      {
        var act := Moved(rocks[i], seconds, norm);
        act := Wrapped(act, screenWidth, screenHeight);
        rocks := rocks[i := act];
        i := i + 1;
      }
    }

    method RocksAreEmpty() returns (empty: bool)
      ensures empty <==> |rocks| == 0
    {
      empty := |rocks| == 0;
    }

    /** The wave refill is switched off in the source: nothing happens. */
    method WhenRocksEmpty(newLevel: int)
      ensures unchanged(this)
    {
    }

    method PlayerIsDead() returns (dead: bool)
      ensures dead <==> !Alive(player)
    {
      dead := player.life <= 0.0;
    }

    /** Append one shot leaving from the player; nothing else changes. */
    method FirePlayerShotHelper(vecFromAngle: real -> Vec2)
      modifies this
      ensures shots == old(shots) + [ShotFrom(old(player), vecFromAngle)]
      ensures player == old(player) && rocks == old(rocks)
    {
      var shot := CreateShot();
      shot := shot.(pos := player.pos);
      shot := shot.(facing := player.facing);
      var direction := vecFromAngle(shot.facing);
      shot := shot.(velocity := shot.velocity.(x := SHOT_SPEED * direction.x));
      shot := shot.(velocity := shot.velocity.(y := SHOT_SPEED * direction.y));
      shots := shots + [shot];
    }

    /** Drop every shot and rock whose life is not positive. */
    method ClearDeadStuff()
      modifies this
      ensures shots == Retained(old(shots)) && rocks == Retained(old(rocks))
      ensures player == old(player)
    {
      shots := Retained(shots);
      rocks := Retained(rocks);
    }

    /** Test every rock against the player and against every shot; zero the
        life of everything that overlaps and count the (rock, shot) pairs. */
    method HandleCollisions(norm: Vec2 -> real) returns (numHits: int)
      requires IsNorm(norm)
      modifies this
      ensures numHits == HitCount(old(rocks), old(shots))
      ensures player == CollidedPlayer(old(player), old(rocks))
      ensures shots == CollidedShots(old(shots), old(rocks))
      ensures rocks == CollidedRocks(old(rocks), old(shots))
    {
      ghost var player0, shots0, rocks0 := player, shots, rocks;
      ScanStart(rocks0, shots0);
      numHits := 0;
      var i := 0;
      while i < |rocks|
        invariant 0 <= i <= |rocks0|
        invariant player == Killed(player0, TouchesAny(player0, rocks0[..i]))
        invariant rocks == ScanRocks(rocks0, shots0, i, 0)
        invariant shots == ScanShots(shots0, rocks0, i, 0)
        invariant numHits == HitCount(rocks0[..i], shots0)
      {
        var pdistance := Sub(rocks[i].pos, player.pos);
        TouchingIffNormBelow(rocks0[i], player0, norm);
        TouchesAnyExtend(player0, rocks0, i);
        if norm(pdistance) < player.bboxSize + rocks[i].bboxSize {
          player := player.(life := 0.0);
        }
        var rowHits := CollideRow(i, rocks0, shots0, norm);
        numHits := numHits + rowHits;
        ScanRowDone(rocks0, shots0, i);
        i := i + 1;
      }
      ScanDone(rocks0, shots0);
      assert rocks0[..i] == rocks0;
    }

    /** The inner loop of `handle_collisions`: rock `i` against every shot. */
    method CollideRow(i: nat, ghost rocks0: seq<Actor>, ghost shots0: seq<Actor>, norm: Vec2 -> real)
      returns (rowHits: int)
      requires IsNorm(norm) && i < |rocks0|
      requires rocks == ScanRocks(rocks0, shots0, i, 0) && shots == ScanShots(shots0, rocks0, i, 0)
      modifies this
      ensures rocks == ScanRocks(rocks0, shots0, i, |shots0|) && shots == ScanShots(shots0, rocks0, i, |shots0|)
      ensures rowHits == CountTouching(rocks0[i], shots0)
      ensures player == old(player)
    {
      rowHits := 0;
      var j := 0;
      while j < |shots|
        invariant 0 <= j <= |shots0|
        invariant player == old(player)
        invariant rocks == ScanRocks(rocks0, shots0, i, j)
        invariant shots == ScanShots(shots0, rocks0, i, j)
        invariant rowHits == CountTouching(rocks0[i], shots0[..j])
      {
        var distance := Sub(shots[j].pos, rocks[i].pos);
        TouchingIffNormBelow(shots0[j], rocks0[i], norm);
        ScanStep(rocks0, shots0, i, j);
        if norm(distance) < shots[j].bboxSize + rocks[i].bboxSize {
          shots := shots[j := shots[j].(life := 0.0)];
          rocks := rocks[i := rocks[i].(life := 0.0)];
          rowHits := rowHits + 1;
        }
        j := j + 1;
      }
      assert shots0[..j] == shots0;
    }
  }
}
