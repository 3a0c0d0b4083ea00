/** The flocking simulation: a struct of parallel vectors (position,
    acceleration, velocity per boid) plus a set of attractor points, updated
    once per tick by separation, cohesion, alignment and attractor pull. */
module Boids {
  import opened Geometry

  const NUM_BOIDS: nat := 100
  const NUM_ATTRACTORS: nat := 8

  const ACCELERATION_LIMIT: real := 60.0
  const SPEED_LIMIT: real := 100.0
  const MIN_SPEED_LIMIT: real := 50.0

  const SEPARATION_DISTANCE: real := 40.0
  const SEP_DIST_SQ: real := SEPARATION_DISTANCE * SEPARATION_DISTANCE
  const COHESION_DISTANCE: real := 200.0
  const COH_DIST_SQ: real := COHESION_DISTANCE * COHESION_DISTANCE
  const ALIGNMENT_DISTANCE: real := 200.0
  const ALI_DIST_SQ: real := ALIGNMENT_DISTANCE * ALIGNMENT_DISTANCE

  const SEPARATION_FORCE: real := 10.15
  const COHESION_FORCE: real := 0.1
  const ALIGNMENT_FORCE: real := 0.25

  const ATTRACTOR_RADIUS: real := 150.0
  const ATTRACTOR_FORCE: real := 0.525

  /** What nalgebra's `len()` returns for a 2D vector: its number of
      components, which the steering step divides by. */
  const COMPONENTS: real := 2.0

  /** The attractors, as three parallel vectors. */
  datatype Attractors = Attractors(position: seq<Point2>, radius: seq<real>, force: seq<real>)

  predicate WellFormed(att: Attractors)
  {
    |att.radius| == |att.position| && |att.force| == |att.position|
  }

  // ---------------------------------------------------------------------
  // Attractor pull
  // ---------------------------------------------------------------------

  /** One attractor's effect on a boid's velocity: inside the radius the
      velocity loses `force` along the unit vector from the attractor to the
      boid.  A boid exactly on the attractor keeps its velocity. */
  function PushedBy(p: Point2, v: Vec2, attPos: Point2, radius: real, force: real,
                    norm: Vec2 -> real): (r: Vec2)
    ensures norm(Sub(p, attPos)) >= radius ==> r == v
    ensures norm(Sub(p, attPos)) == 0.0 ==> r == v
  {
    var spare := Sub(p, attPos);
    var dist := norm(spare);
    if dist < radius && dist != 0.0 then
      Sub(v, Vec2(force * spare.x / dist, force * spare.y / dist))
    else
      v
  }

  /** The velocity after the first `k` attractors, applied in order.  An
      attractor whose radius the boid is outside leaves the velocity as the
      earlier ones made it. */
  function Attracted(p: Point2, v: Vec2, att: Attractors, k: nat, norm: Vec2 -> real): (r: Vec2)
    requires WellFormed(att) && k <= |att.position|
  {
    if k == 0 then v
    else PushedBy(p, Attracted(p, v, att, k - 1, norm),
                  att.position[k - 1], att.radius[k - 1], att.force[k - 1], norm)
  }

  /** A boid outside every attractor's radius keeps its velocity. */
  lemma {:induction false} AttractedOutOfRange(p: Point2, v: Vec2, att: Attractors, k: nat, norm: Vec2 -> real)
    requires WellFormed(att) && k <= |att.position|
    requires forall t :: 0 <= t < k ==> norm(Sub(p, att.position[t])) >= att.radius[t]
    ensures Attracted(p, v, att, k, norm) == v
  {
    if k > 0 {
      AttractedOutOfRange(p, v, att, k - 1, norm);
    }
  }

  /** One more attractor: its push applied to the velocity so far. */
  lemma AttractedStep(p: Point2, v: Vec2, att: Attractors, k: nat, norm: Vec2 -> real)
    requires WellFormed(att) && k < |att.position|
    ensures Attracted(p, v, att, k + 1, norm) ==
            PushedBy(p, Attracted(p, v, att, k, norm), att.position[k], att.radius[k], att.force[k], norm)
  {
  }

  /** Inside the radius the velocity changes by exactly `force`, towards the
      attractor. */
  lemma PullTowardAttractor(p: Point2, v: Vec2, attPos: Point2, radius: real, force: real,
                            norm: Vec2 -> real)
    requires IsNorm(norm) && p != attPos && norm(Sub(p, attPos)) < radius && 0.0 < force
    ensures NormSq(Sub(v, PushedBy(p, v, attPos, radius, force, norm))) == Sq(force)
    ensures SameDirection(Sub(v, PushedBy(p, v, attPos, radius, force, norm)), Sub(p, attPos))
  {
    var spare := Sub(p, attPos);
    NormZero(spare, norm);
    var dist := norm(spare);
    QuotientTimes(spare, force, dist);
    assert Sub(v, PushedBy(p, v, attPos, radius, force, norm)) == Scale(Normalized(spare, norm), force);
    RescaledNorm(spare, force, norm);
  }

  // ---------------------------------------------------------------------
  // Neighbour forces
  // ---------------------------------------------------------------------

  /** The three running sums of the neighbour scan. */
  datatype Forces = Forces(separation: Vec2, cohesion: Vec2, alignment: Vec2)

  const NoForces: Forces := Forces(Zero, Zero, Zero)

  function AddForces(f: Forces, g: Forces): Forces
  {
    Forces(Add(f.separation, g.separation), Add(f.cohesion, g.cohesion), Add(f.alignment, g.alignment))
  }

  /** What one other boid, at `pt` with velocity `vt`, adds to the sums of the
      boid at `pb`: separation when closer than 40, otherwise cohesion and
      alignment when closer than 200. */
  function PairForces(pb: Point2, pt: Point2, vt: Vec2, norm: Vec2 -> real): (r: Forces)
    ensures NormSq(Sub(pb, pt)) >= COH_DIST_SQ ==> r == NoForces
    ensures NormSq(Sub(pb, pt)) < SEP_DIST_SQ ==> r.cohesion == Zero && r.alignment == Zero
    ensures NormSq(Sub(pb, pt)) >= SEP_DIST_SQ ==> r.separation == Zero
  {
    var spare := Sub(pb, pt);
    var distSquared := NormSq(spare);
    if distSquared < SEP_DIST_SQ then
      var dist := norm(spare);
      var force := 1.0 - (SEPARATION_DISTANCE - dist) / SEPARATION_DISTANCE;
      Forces(Scale(spare, force), Zero, Zero)
    else
      Forces(Zero,
             if distSquared < COH_DIST_SQ then spare else Zero,
             if distSquared < ALI_DIST_SQ then vt else Zero)
  }

  /** The sums for boid `b` over the boids before `n`, skipping `b` itself:
      neither `b` nor a boid 200 or more away changes them. */
  function NeighbourSums(position: seq<Point2>, velocity: seq<Vec2>, b: nat, n: nat,
                         norm: Vec2 -> real): (r: Forces)
    requires b < |position| && n <= |position| && |velocity| == |position|
  {
    if n == 0 then NoForces
    else
      var before := NeighbourSums(position, velocity, b, n - 1, norm);
      if n - 1 == b then before
      else AddForces(before, PairForces(position[b], position[n - 1], velocity[n - 1], norm))
  }

  /** One more boid in the scan: the boid itself adds nothing, any other
      adds its pair forces. */
  lemma NeighbourSumsStep(position: seq<Point2>, velocity: seq<Vec2>, b: nat, n: nat, norm: Vec2 -> real)
    requires b < |position| && n < |position| && |velocity| == |position|
    ensures NeighbourSums(position, velocity, b, n + 1, norm) ==
            if n == b then NeighbourSums(position, velocity, b, n, norm)
            else AddForces(NeighbourSums(position, velocity, b, n, norm),
                           PairForces(position[b], position[n], velocity[n], norm))
  {
  }

  /** A boid with nobody within 200 gets no neighbour force at all. */
  lemma {:induction false} IsolatedBoid(position: seq<Point2>, velocity: seq<Vec2>, b: nat, n: nat,
                                        norm: Vec2 -> real)
    requires b < |position| && n <= |position| && |velocity| == |position|
    requires forall t :: 0 <= t < n && t != b ==> NormSq(Sub(position[b], position[t])) >= Sq(COHESION_DISTANCE)
    ensures NeighbourSums(position, velocity, b, n, norm) == NoForces
  {
    if n > 0 {
      IsolatedBoid(position, velocity, b, n - 1, norm);
      if n - 1 != b {
        PairForcesFar(position[b], position[n - 1], velocity[n - 1], norm);
      }
    }
  }

  /** A boid 200 or more away contributes nothing. */
  lemma PairForcesFar(pb: Point2, pt: Point2, vt: Vec2, norm: Vec2 -> real)
    requires NormSq(Sub(pb, pt)) >= Sq(COHESION_DISTANCE)
    ensures PairForces(pb, pt, vt, norm) == NoForces
  {
  }

  /** Between 40 and 200 a boid adds its offset to cohesion and its velocity
      to alignment, and nothing to separation. */
  lemma PairForcesMiddle(pb: Point2, pt: Point2, vt: Vec2, norm: Vec2 -> real)
    requires Sq(SEPARATION_DISTANCE) <= NormSq(Sub(pb, pt)) < Sq(COHESION_DISTANCE)
    ensures PairForces(pb, pt, vt, norm) == Forces(Zero, Sub(pb, pt), vt)
  {
  }

  /** Closer than 40 a boid adds to separation only, its offset weighted by
      `dist / 40`: the weight shrinks as the boids get closer. */
  lemma PairForcesClose(pb: Point2, pt: Point2, vt: Vec2, norm: Vec2 -> real)
    requires NormSq(Sub(pb, pt)) < Sq(SEPARATION_DISTANCE)
    ensures PairForces(pb, pt, vt, norm)
            == Forces(Scale(Sub(pb, pt), norm(Sub(pb, pt)) / SEPARATION_DISTANCE), Zero, Zero)
  {
  }

  /** With nobody closer than 40 the separation sum stays zero. */
  lemma {:induction false} NoCloseNeighbour(position: seq<Point2>, velocity: seq<Vec2>, b: nat, n: nat,
                                            norm: Vec2 -> real)
    requires b < |position| && n <= |position| && |velocity| == |position|
    requires forall t :: 0 <= t < n && t != b ==> NormSq(Sub(position[b], position[t])) >= Sq(SEPARATION_DISTANCE)
    ensures NeighbourSums(position, velocity, b, n, norm).separation == Zero
  {
    if n > 0 {
      NoCloseNeighbour(position, velocity, b, n - 1, norm);
      if n - 1 != b {
        if NormSq(Sub(position[b], position[n - 1])) < Sq(COHESION_DISTANCE) {
          PairForcesMiddle(position[b], position[n - 1], velocity[n - 1], norm);
        } else {
          PairForcesFar(position[b], position[n - 1], velocity[n - 1], norm);
        }
      }
    }
  }

  /** With everybody closer than 40, cohesion and alignment stay zero. */
  lemma {:induction false} OnlyCloseNeighbours(position: seq<Point2>, velocity: seq<Vec2>, b: nat, n: nat,
                                               norm: Vec2 -> real)
    requires b < |position| && n <= |position| && |velocity| == |position|
    requires forall t :: 0 <= t < n && t != b ==> NormSq(Sub(position[b], position[t])) < Sq(SEPARATION_DISTANCE)
    ensures NeighbourSums(position, velocity, b, n, norm).cohesion == Zero
    ensures NeighbourSums(position, velocity, b, n, norm).alignment == Zero
  {
    if n > 0 {
      OnlyCloseNeighbours(position, velocity, b, n - 1, norm);
      if n - 1 != b {
        PairForcesClose(position[b], position[n - 1], velocity[n - 1], norm);
      }
    }
  }

  /** The acceleration after the three steering `+=`s of one boid. */
  function SteeredAcceleration(acc: Vec2, f: Forces): (r: Vec2)
    ensures f.separation == Zero && f.cohesion == Zero && f.alignment == Zero ==> r == acc
  {
    var s := f.separation;
    var c := f.cohesion;
    var a := f.alignment;
    var sepVector := Vec2(s.x * SEPARATION_FORCE / COMPONENTS, s.y * SEPARATION_FORCE / COMPONENTS);
    var cohVector := Vec2(-c.x * COHESION_FORCE / COMPONENTS, -c.y * COHESION_FORCE / COMPONENTS);
    var aliVector := Vec2(a.x * COHESION_FORCE / COMPONENTS, a.y * ALIGNMENT_FORCE / COMPONENTS);
    Add(Add(Add(acc, sepVector), cohVector), aliVector)
  }

  /** The steering is added to what is already there: no force, no change;
      the separation part points along the separation sum and the cohesion
      part against the cohesion sum.  The alignment part scales its x
      component by `COHESION_FORCE`, so it is not the alignment sum scaled by
      `ALIGNMENT_FORCE` unless that component is zero. */
  lemma SteeringAdds(acc: Vec2, f: Forces)
    ensures f == NoForces ==> SteeredAcceleration(acc, f) == acc
    ensures SteeredAcceleration(acc, f) == Add(acc, SteeredAcceleration(Zero, f))
    ensures f.cohesion == Zero && f.alignment == Zero ==>
              SteeredAcceleration(acc, f) == Add(acc, Scale(f.separation, SEPARATION_FORCE / COMPONENTS))
    ensures f.separation == Zero && f.alignment == Zero ==>
              SteeredAcceleration(acc, f) == Sub(acc, Scale(f.cohesion, COHESION_FORCE / COMPONENTS))
    ensures f.separation == Zero && f.cohesion == Zero ==>
              SteeredAcceleration(acc, f) ==
                Add(acc, Vec2(f.alignment.x * COHESION_FORCE / COMPONENTS, f.alignment.y * ALIGNMENT_FORCE / COMPONENTS))
    ensures f.separation == Zero && f.cohesion == Zero && f.alignment.x != 0.0 ==>
              SteeredAcceleration(acc, f) != Add(acc, Scale(f.alignment, ALIGNMENT_FORCE / COMPONENTS))
  {
  }

  // ---------------------------------------------------------------------
  // Limits and integration
  // ---------------------------------------------------------------------

  /** A vector longer than `limit` is rescaled to `limit` along its own
      direction; a shorter one is kept. */
  function Capped(v: Vec2, limit: real, norm: Vec2 -> real): (r: Vec2)
    requires IsNorm(norm) && 0.0 < limit
    ensures norm(v) <= limit ==> r == v
  {
    if norm(v) > limit then Scale(Normalized(v, norm), limit) else v
  }

  /** The cap bounds the length by `limit`, keeps shorter vectors and moves
      longer ones onto the limit without turning them. */
  lemma CappedBounds(v: Vec2, limit: real, norm: Vec2 -> real)
    requires IsNorm(norm) && 0.0 < limit
    ensures NormSq(Capped(v, limit, norm)) <= Sq(limit)
    ensures NormSq(v) <= Sq(limit) ==> Capped(v, limit, norm) == v
    ensures NormSq(v) > Sq(limit) ==>
              NormSq(Capped(v, limit, norm)) == Sq(limit) && SameDirection(Capped(v, limit, norm), v)
  {
    NormCompare(v, limit, norm);
    if norm(v) > limit {
      NormSqNonNegative(v);
      SquarePositive(limit);
      RescaledNorm(v, limit, norm);
    }
  }

  /** A nonzero vector shorter than `floor` is lengthened to `floor` along its
      own direction; others are kept. */
  function Floored(v: Vec2, floor: real, norm: Vec2 -> real): (r: Vec2)
    requires IsNorm(norm) && 0.0 < floor
    ensures norm(v) >= floor || norm(v) == 0.0 ==> r == v
  {
    if norm(v) < floor && norm(v) != 0.0 then Scale(Normalized(v, norm), floor) else v
  }

  /** The floor lifts every nonzero vector to at least `floor`, keeps the
      zero vector and long enough vectors, and never turns a vector. */
  lemma FlooredBounds(v: Vec2, floor: real, norm: Vec2 -> real)
    requires IsNorm(norm) && 0.0 < floor
    ensures v != Zero ==> Sq(floor) <= NormSq(Floored(v, floor, norm))
    ensures v == Zero || NormSq(v) >= Sq(floor) ==> Floored(v, floor, norm) == v
    ensures v != Zero && NormSq(v) < Sq(floor) ==>
              NormSq(Floored(v, floor, norm)) == Sq(floor) && SameDirection(Floored(v, floor, norm), v)
  {
    NormCompare(v, floor, norm);
    NormZero(v, norm);
    if norm(v) < floor && norm(v) != 0.0 {
      RescaledNorm(v, floor, norm);
    }
  }

  /** The speed limits: cap at 100, then raise to 50. */
  function SpeedBanded(v: Vec2, norm: Vec2 -> real): (r: Vec2)
    requires IsNorm(norm)
    ensures MIN_SPEED_LIMIT <= norm(v) <= SPEED_LIMIT ==> r == v
  {
    Floored(Capped(v, SPEED_LIMIT, norm), MIN_SPEED_LIMIT, norm)
  }

  /** A moving boid ends inside the speed band, a still one stays still, and
      a speed already inside the band is left alone. */
  lemma SpeedBandedBounds(v: Vec2, norm: Vec2 -> real)
    requires IsNorm(norm)
    ensures v != Zero ==> Sq(MIN_SPEED_LIMIT) <= NormSq(SpeedBanded(v, norm)) <= Sq(SPEED_LIMIT)
    ensures v == Zero ==> SpeedBanded(v, norm) == Zero
    ensures Sq(MIN_SPEED_LIMIT) <= NormSq(v) <= Sq(SPEED_LIMIT) ==> SpeedBanded(v, norm) == v
  {
    var capped := Capped(v, SPEED_LIMIT, norm);
    var banded := SpeedBanded(v, norm);
    assert banded == Floored(capped, MIN_SPEED_LIMIT, norm);
    CappedBounds(v, SPEED_LIMIT, norm);
    FlooredBounds(capped, MIN_SPEED_LIMIT, norm);
    NormSqNonNegative(v);
    NormSqNonNegative(capped);
    assert Sq(MIN_SPEED_LIMIT) == 2500.0 && Sq(SPEED_LIMIT) == 10000.0;
    if NormSq(v) <= Sq(SPEED_LIMIT) {
      assert capped == v;
    } else {
      assert NormSq(capped) == Sq(SPEED_LIMIT);
      assert capped != Zero;
    }
    assert banded == capped || NormSq(banded) == Sq(MIN_SPEED_LIMIT);
  }

  /** Banding the speed never changes the heading. */
  lemma SpeedBandedDirection(v: Vec2, norm: Vec2 -> real)
    requires IsNorm(norm) && v != Zero
    ensures SameDirection(SpeedBanded(v, norm), v)
  {
    var capped := Capped(v, SPEED_LIMIT, norm);
    CappedBounds(v, SPEED_LIMIT, norm);
    FlooredBounds(capped, MIN_SPEED_LIMIT, norm);
    RescaledTwice(v, capped, SpeedBanded(v, norm));
  }

  /** Two rescalings, each either the identity or a positive rescaling, keep
      the direction of a nonzero vector. */
  lemma RescaledTwice(v: Vec2, w: Vec2, r: Vec2)
    requires w == v || SameDirection(w, v)
    requires r == w || SameDirection(r, w)
    ensures v != Zero ==> SameDirection(r, v)
  {
    if v != Zero {
      NormSqNonNegative(v);
      if w != v && r != w {
        SameDirectionTransitive(r, w, v);
      }
    }
  }

  /** A positive multiple of a positive multiple is a positive multiple. */
  lemma SameDirectionTransitive(a: Vec2, b: Vec2, c: Vec2)
    requires SameDirection(a, b) && SameDirection(b, c)
    ensures SameDirection(a, c)
  {
  }

  /** The per-boid integration step: cap the acceleration, add it to the
      velocity, band the speed, move, wrap. */
  function IntegratedAcceleration(acc: Vec2, norm: Vec2 -> real): (r: Vec2)
    requires IsNorm(norm)
    ensures norm(acc) <= ACCELERATION_LIMIT ==> r == acc
  {
    Capped(acc, ACCELERATION_LIMIT, norm)
  }

  function IntegratedVelocity(vel: Vec2, acc: Vec2, dt: real, norm: Vec2 -> real): (r: Vec2)
    requires IsNorm(norm)
    ensures var u := Add(vel, Scale(IntegratedAcceleration(acc, norm), dt));
            MIN_SPEED_LIMIT <= norm(u) <= SPEED_LIMIT ==> r == u
  {
    SpeedBanded(Add(vel, Scale(IntegratedAcceleration(acc, norm), dt)), norm)
  }

  function IntegratedPosition(pos: Point2, vel: Vec2, acc: Vec2, dt: real, screenSize: Vec2,
                              norm: Vec2 -> real): (r: Point2)
    requires IsNorm(norm)
    ensures var q := Add(pos, Scale(IntegratedVelocity(vel, acc, dt, norm), dt));
            (-(screenSize.x / 2.0) <= q.x <= screenSize.x / 2.0 &&
             -(screenSize.y / 2.0) <= q.y <= screenSize.y / 2.0) ==> r == q
  {
    Wrap(Add(pos, Scale(IntegratedVelocity(vel, acc, dt, norm), dt)), screenSize)
  }

  /** What the integration step guarantees of every boid. */
  lemma IntegrationBounds(vel: Vec2, acc: Vec2, dt: real, norm: Vec2 -> real)
    requires IsNorm(norm)
    ensures NormSq(IntegratedAcceleration(acc, norm)) <= Sq(ACCELERATION_LIMIT)
    ensures var v := IntegratedVelocity(vel, acc, dt, norm);
            v == Zero || Sq(MIN_SPEED_LIMIT) <= NormSq(v) <= Sq(SPEED_LIMIT)
  {
    CappedBounds(acc, ACCELERATION_LIMIT, norm);
    SpeedBandedBounds(Add(vel, Scale(IntegratedAcceleration(acc, norm), dt)), norm);
  }

  // ---------------------------------------------------------------------
  // Spawning
  // ---------------------------------------------------------------------

  /** The four random fractions `spawn_random` draws. */
  datatype BoidDraw = BoidDraw(px: real, py: real, vx: real, vy: real)

  /** The two random fractions `spawn_attractor` draws. */
  datatype AttractorDraw = AttractorDraw(ax: real, ay: real)

  function SpawnPosition(d: BoidDraw): Point2 { Vec2(100.0 * d.px, 100.0 * d.py) }

  function SpawnVelocity(d: BoidDraw): Vec2 { Vec2(400.0 * d.vx - 200.0, 400.0 * d.vy - 200.0) }

  function AttractorPosition(screenSize: Vec2, d: AttractorDraw): Point2
  {
    Vec2(screenSize.x * d.ax - screenSize.x / 2.0, screenSize.y * d.ay - screenSize.y / 2.0)
  }

  predicate Fraction(f: real) { 0.0 <= f < 1.0 }

  /** New boids start in the square [0, 100) x [0, 100), each velocity
      component in [-200, 200). */
  lemma SpawnRanges(d: BoidDraw)
    requires Fraction(d.px) && Fraction(d.py) && Fraction(d.vx) && Fraction(d.vy)
    ensures 0.0 <= SpawnPosition(d).x < 100.0 && 0.0 <= SpawnPosition(d).y < 100.0
    ensures -200.0 <= SpawnVelocity(d).x < 200.0 && -200.0 <= SpawnVelocity(d).y < 200.0
  {
  }

  /** Attractors land on the screen: in [-w/2, w/2) x [-h/2, h/2). */
  lemma AttractorOnScreen(screenSize: Vec2, d: AttractorDraw)
    requires 0.0 < screenSize.x && 0.0 < screenSize.y && Fraction(d.ax) && Fraction(d.ay)
    ensures -(screenSize.x / 2.0) <= AttractorPosition(screenSize, d).x < screenSize.x / 2.0
    ensures -(screenSize.y / 2.0) <= AttractorPosition(screenSize, d).y < screenSize.y / 2.0
  {
    FractionBelowWhole(d.ax, screenSize.x);
    FractionBelowWhole(d.ay, screenSize.y);
  }

  // ---------------------------------------------------------------------
  // The component
  // ---------------------------------------------------------------------

  /** `velocity` with the first `k` entries taken from `pushed`: what the
      velocity vector holds while the tick is working on boid `k - 1`. */
  function PushedPrefix(velocity: seq<Vec2>, pushed: seq<Vec2>, k: int): seq<Vec2>
    requires |pushed| == |velocity|
  {
    seq(|velocity|, t requires 0 <= t < |velocity| => if t < k then pushed[t] else velocity[t])
  }

  /** Every boid's velocity after its attractor pulls. */
  function AllAttracted(position: seq<Point2>, velocity: seq<Vec2>, att: Attractors,
                        norm: Vec2 -> real): seq<Vec2>
    requires |velocity| == |position| && WellFormed(att)
  {
    seq(|position|, t requires 0 <= t < |position| =>
      Attracted(position[t], velocity[t], att, |att.position|, norm))
  }

  /** The acceleration of boid `b` after the force pass: the alignment term
      reads the velocities of boids up to `b` after their attractor pull and
      the later ones before it. */
  function ForcedAcceleration(position: seq<Point2>, velocity: seq<Vec2>, acceleration: seq<Vec2>,
                              att: Attractors, b: nat, norm: Vec2 -> real): Vec2
    requires |velocity| == |position| && |acceleration| == |position| && WellFormed(att)
    requires b < |position|
  {
    var seen := PushedPrefix(velocity, AllAttracted(position, velocity, att, norm), b + 1);
    SteeredAcceleration(acceleration[b], NeighbourSums(position, seen, b, |position|, norm))
  }

  /** One `update` of the whole flock, from the old vectors to the new ones:
      the force pass (attractor pull, neighbour steering), then the
      integration pass. */
  predicate UpdatedFrom(position0: seq<Point2>, velocity0: seq<Vec2>, acceleration0: seq<Vec2>,
                        att: Attractors, position: seq<Point2>, velocity: seq<Vec2>,
                        acceleration: seq<Vec2>, dt: real, screenSize: Vec2, norm: Vec2 -> real)
    requires IsNorm(norm) && WellFormed(att)
    requires |velocity0| == |position0| && |acceleration0| == |position0|
  {
    |position| == |position0| && |velocity| == |position0| && |acceleration| == |position0| &&
    forall i :: 0 <= i < |position0| ==>
      var pushed := AllAttracted(position0, velocity0, att, norm);
      var forced := ForcedAcceleration(position0, velocity0, acceleration0, att, i, norm);
      acceleration[i] == IntegratedAcceleration(forced, norm) &&
      velocity[i] == IntegratedVelocity(pushed[i], forced, dt, norm) &&
      position[i] == IntegratedPosition(position0[i], pushed[i], forced, dt, screenSize, norm)
  }

  /** After an update every acceleration is within its limit and every
      velocity is zero or within the speed band. */
  lemma UpdateBounds(position0: seq<Point2>, velocity0: seq<Vec2>, acceleration0: seq<Vec2>,
                     att: Attractors, position: seq<Point2>, velocity: seq<Vec2>,
                     acceleration: seq<Vec2>, dt: real, screenSize: Vec2, norm: Vec2 -> real)
    requires IsNorm(norm) && WellFormed(att)
    requires |velocity0| == |position0| && |acceleration0| == |position0|
    requires UpdatedFrom(position0, velocity0, acceleration0, att, position, velocity, acceleration,
                         dt, screenSize, norm)
    ensures forall i :: 0 <= i < |position| ==>
              NormSq(acceleration[i]) <= Sq(ACCELERATION_LIMIT) &&
              (velocity[i] == Zero || Sq(MIN_SPEED_LIMIT) <= NormSq(velocity[i]) <= Sq(SPEED_LIMIT))
  {
    forall i | 0 <= i < |position|
      ensures NormSq(acceleration[i]) <= Sq(ACCELERATION_LIMIT) &&
              (velocity[i] == Zero || Sq(MIN_SPEED_LIMIT) <= NormSq(velocity[i]) <= Sq(SPEED_LIMIT))
    {
      var pushed := AllAttracted(position0, velocity0, att, norm);
      var forced := ForcedAcceleration(position0, velocity0, acceleration0, att, i, norm);
      IntegrationBounds(pushed[i], forced, dt, norm);
    }
  }

  class BoidComponent {
    var position: seq<Point2>
    var acceleration: seq<Vec2>
    var velocity: seq<Vec2>
    var attractors: Attractors

    /** The parallel vectors have equal lengths. */
    predicate Valid()
      reads this
    {
      |acceleration| == |position| && |velocity| == |position| && WellFormed(attractors)
    }

    /** `BoidComponent::new`: no boids, no attractors. */
    constructor ()
      ensures Valid()
      ensures position == [] && acceleration == [] && velocity == []
      ensures attractors == Attractors([], [], [])
    {
      position := [];
      acceleration := [];
      velocity := [];
      attractors := Attractors([], [], []);
    }

    /** Add one attractor at a random point of the screen, with the standard
        radius and force; returns its index. */
    method SpawnAttractor(screenSize: Vec2, d: AttractorDraw) returns (index: nat)
      requires Valid()
      modifies this
      ensures Valid()
      ensures attractors == Attractors(old(attractors.position) + [AttractorPosition(screenSize, d)],
                                       old(attractors.radius) + [ATTRACTOR_RADIUS],
                                       old(attractors.force) + [ATTRACTOR_FORCE])
      ensures index == |attractors.position| - 1
      ensures position == old(position) && velocity == old(velocity) && acceleration == old(acceleration)
    {
      attractors := attractors.(position := attractors.position + [AttractorPosition(screenSize, d)]);
      attractors := attractors.(radius := attractors.radius + [ATTRACTOR_RADIUS]);
      attractors := attractors.(force := attractors.force + [ATTRACTOR_FORCE]);
      index := |attractors.position| - 1;
    }

    /** Add one boid at a random point near the origin with a random velocity
        and no acceleration; returns its index. */
    method SpawnRandom(d: BoidDraw) returns (index: nat)
      requires Valid()
      modifies this
      ensures Valid()
      ensures position == old(position) + [SpawnPosition(d)]
      ensures acceleration == old(acceleration) + [Zero]
      ensures velocity == old(velocity) + [SpawnVelocity(d)]
      ensures index == |position| - 1
      ensures attractors == old(attractors)
    {
      position := position + [SpawnPosition(d)];
      acceleration := acceleration + [Zero];
      velocity := velocity + [SpawnVelocity(d)];
      index := |position| - 1;
    }

    /** `init`: 100 random boids, then 8 random attractors. */
    method Init(screenSize: Vec2, boidDraws: seq<BoidDraw>, attractorDraws: seq<AttractorDraw>)
      requires Valid()
      requires |boidDraws| == NUM_BOIDS && |attractorDraws| == NUM_ATTRACTORS
      modifies this
      ensures Valid()
      ensures |position| == old(|position|) + NUM_BOIDS
      ensures |attractors.position| == old(|attractors.position|) + NUM_ATTRACTORS
      ensures position == old(position) + seq(NUM_BOIDS, i requires 0 <= i < NUM_BOIDS => SpawnPosition(boidDraws[i]))
      ensures velocity == old(velocity) + seq(NUM_BOIDS, i requires 0 <= i < NUM_BOIDS => SpawnVelocity(boidDraws[i]))
      ensures acceleration == old(acceleration) + seq(NUM_BOIDS, i => Zero)
      ensures attractors.position == old(attractors.position)
              + seq(NUM_ATTRACTORS, i requires 0 <= i < NUM_ATTRACTORS => AttractorPosition(screenSize, attractorDraws[i]))
      ensures attractors.radius == old(attractors.radius) + seq(NUM_ATTRACTORS, i => ATTRACTOR_RADIUS)
      ensures attractors.force == old(attractors.force) + seq(NUM_ATTRACTORS, i => ATTRACTOR_FORCE)
    {
      ghost var n0 := |position|;
      ghost var m0 := |attractors.position|;
      var i := 0;
      while i < NUM_BOIDS
        invariant 0 <= i <= NUM_BOIDS
        invariant Valid()
        invariant position == old(position) + seq(i, k requires 0 <= k < i => SpawnPosition(boidDraws[k]))
        invariant velocity == old(velocity) + seq(i, k requires 0 <= k < i => SpawnVelocity(boidDraws[k]))
        invariant acceleration == old(acceleration) + seq(i, k => Zero)
        invariant attractors == old(attractors)
      {
        var _ := SpawnRandom(boidDraws[i]);
        i := i + 1;
      }
      i := 0;
      while i < NUM_ATTRACTORS
        invariant 0 <= i <= NUM_ATTRACTORS
        invariant Valid()
        invariant position == old(position) + seq(NUM_BOIDS, k requires 0 <= k < NUM_BOIDS => SpawnPosition(boidDraws[k]))
        invariant velocity == old(velocity) + seq(NUM_BOIDS, k requires 0 <= k < NUM_BOIDS => SpawnVelocity(boidDraws[k]))
        invariant acceleration == old(acceleration) + seq(NUM_BOIDS, k => Zero)
        invariant attractors.position == old(attractors.position)
                  + seq(i, k requires 0 <= k < i => AttractorPosition(screenSize, attractorDraws[k]))
        invariant attractors.radius == old(attractors.radius) + seq(i, k => ATTRACTOR_RADIUS)
        invariant attractors.force == old(attractors.force) + seq(i, k => ATTRACTOR_FORCE)
        invariant |attractors.position| == m0 + i
      {
        var _ := SpawnAttractor(screenSize, attractorDraws[i]);
        i := i + 1;
      }
    }

    /** The attractor loop for boid `b`: its velocity after every attractor
        in turn. */
    method AttractorPull(b: nat, norm: Vec2 -> real) returns (v: Vec2)
      requires Valid() && b < |position|
      ensures v == Attracted(position[b], velocity[b], attractors, |attractors.position|, norm)
    {
      v := velocity[b];
      var target := 0;
      while target < |attractors.position|
        invariant 0 <= target <= |attractors.position|
        invariant v == Attracted(position[b], velocity[b], attractors, target, norm)
      {
        AttractedStep(position[b], velocity[b], attractors, target, norm);
        ghost var pushed := PushedBy(position[b], v, attractors.position[target], attractors.radius[target],
                                     attractors.force[target], norm);
        var spare := Sub(position[b], attractors.position[target]);
        var dist := norm(spare);
        if dist < attractors.radius[target] {
          var length := norm(spare);
          if length != 0.0 {
            var delta := Vec2(attractors.force[target] * spare.x / length,
                              attractors.force[target] * spare.y / length);
            assert pushed == Sub(v, delta);
            v := Sub(v, delta);
          } else {
            assert pushed == v;
          }
        } else {
          assert pushed == v;
        }
        target := target + 1;
      }
    }

    /** The neighbour loop for boid `b`: the separation, cohesion and
        alignment sums over every other boid. */
    method NeighbourScan(b: nat, norm: Vec2 -> real) returns (sForce: Vec2, cForce: Vec2, aForce: Vec2)
      requires Valid() && b < |position|
      ensures Forces(sForce, cForce, aForce) == NeighbourSums(position, velocity, b, |position|, norm)
    {
      sForce, cForce, aForce := Zero, Zero, Zero;
      var boidsLength := |position|;
      var target := 0;
      while target < boidsLength
        invariant 0 <= target <= boidsLength
        invariant Forces(sForce, cForce, aForce) == NeighbourSums(position, velocity, b, target, norm)
      {
        NeighbourSumsStep(position, velocity, b, target, norm);
        if b != target {
          sForce, cForce, aForce := AddPairForces(b, target, sForce, cForce, aForce, norm);
        }
        target := target + 1;
      }
    }

    /** The body of the neighbour loop for one other boid `target`: by the
        squared distance, either the weighted offset goes into the
        separation sum, or the offset into the cohesion sum and the
        velocity into the alignment sum (each within its own distance). */
    method AddPairForces(b: nat, target: nat, s0: Vec2, c0: Vec2, a0: Vec2, norm: Vec2 -> real)
      returns (sForce: Vec2, cForce: Vec2, aForce: Vec2)
      requires Valid() && b < |position| && target < |position|
      ensures Forces(sForce, cForce, aForce) ==
              AddForces(Forces(s0, c0, a0), PairForces(position[b], position[target], velocity[target], norm))
    {
      sForce, cForce, aForce := s0, c0, a0;
      var spare := Sub(position[b], position[target]);
      var distSquared := spare.x * spare.x + spare.y * spare.y;
      assert distSquared == NormSq(spare);
      if distSquared < SEP_DIST_SQ {
        var dist := norm(spare);
        var force := 1.0 - (SEPARATION_DISTANCE - dist) / SEPARATION_DISTANCE;
        sForce := Add(sForce, Scale(spare, force));
      } else {
        if distSquared < COH_DIST_SQ {
          cForce := Add(cForce, spare);
        }
        if distSquared < ALI_DIST_SQ {
          aForce := Add(aForce, velocity[target]);
        }
      }
    }

    /** The first pass of `update`: for each boid in order, the attractor
        pull on its velocity, then the neighbour scan and the three steering
        increments of its acceleration. */
    method ApplyForces(norm: Vec2 -> real)
      requires Valid()
      modifies this
      ensures Valid()
      ensures position == old(position) && attractors == old(attractors)
      ensures velocity == AllAttracted(old(position), old(velocity), old(attractors), norm)
      ensures forall b :: 0 <= b < |position| ==>
                acceleration[b] == ForcedAcceleration(old(position), old(velocity), old(acceleration),
                                                      old(attractors), b, norm)
    {
      ghost var pushed := AllAttracted(position, velocity, attractors, norm);
      var boidsLength := |position|;
      var b := 0;
      while b < boidsLength
        invariant 0 <= b <= boidsLength == |position|
        invariant Valid()
        invariant position == old(position) && attractors == old(attractors)
        invariant velocity == PushedPrefix(old(velocity), pushed, b)
        invariant forall k :: 0 <= k < |position| ==>
                    acceleration[k] == if k < b then ForcedAcceleration(old(position), old(velocity), old(acceleration),
                                                                        old(attractors), k, norm)
                                       else old(acceleration)[k]
      {
        var v := AttractorPull(b, norm);
        velocity := velocity[b := v];
        assert velocity == PushedPrefix(old(velocity), pushed, b + 1);

        var sForce, cForce, aForce := NeighbourScan(b, norm);
        SteerBoid(b, sForce, cForce, aForce);
        b := b + 1;
      }
      assert velocity == pushed;
    }

    /** The three steering increments of boid `b`'s acceleration, from the
        sums of its neighbour scan. */
    method SteerBoid(b: nat, sForce: Vec2, cForce: Vec2, aForce: Vec2)
      requires Valid() && b < |position|
      modifies this
      ensures Valid()
      ensures acceleration == old(acceleration)[b := SteeredAcceleration(old(acceleration)[b], Forces(sForce, cForce, aForce))]
      ensures position == old(position) && velocity == old(velocity) && attractors == old(attractors)
    {
      var sepVector := Vec2(sForce.x * SEPARATION_FORCE / COMPONENTS, sForce.y * SEPARATION_FORCE / COMPONENTS);
      acceleration := acceleration[b := Add(acceleration[b], sepVector)];
      var cohVector := Vec2(-cForce.x * COHESION_FORCE / COMPONENTS, -cForce.y * COHESION_FORCE / COMPONENTS);
      acceleration := acceleration[b := Add(acceleration[b], cohVector)];
      var aliVector := Vec2(aForce.x * COHESION_FORCE / COMPONENTS, aForce.y * ALIGNMENT_FORCE / COMPONENTS);
      acceleration := acceleration[b := Add(acceleration[b], aliVector)];
    }

    /** The body of the second pass for one boid: cap the acceleration,
        integrate it into the velocity, band the speed, integrate the position
        and wrap it. */
    static method IntegrateBoid(acc0: Vec2, vel0: Vec2, pos0: Point2, dt: real, screenSize: Vec2,
                                norm: Vec2 -> real)
      returns (acc: Vec2, vel: Vec2, pos: Point2)
      requires IsNorm(norm)
      ensures acc == IntegratedAcceleration(acc0, norm)
      ensures vel == IntegratedVelocity(vel0, acc0, dt, norm)
      ensures pos == IntegratedPosition(pos0, vel0, acc0, dt, screenSize, norm)
    {
      acc := acc0;
      if norm(acc) > ACCELERATION_LIMIT {
        NormZero(acc, norm);
        acc := Scale(Normalized(acc, norm), ACCELERATION_LIMIT);
      }

      vel := Add(vel0, Scale(acc, dt));
      if norm(vel) > SPEED_LIMIT {
        NormZero(vel, norm);
        vel := Scale(Normalized(vel, norm), SPEED_LIMIT);
      }
      if norm(vel) < MIN_SPEED_LIMIT && norm(vel) != 0.0 {
        vel := Scale(Normalized(vel, norm), MIN_SPEED_LIMIT);
      }

      pos := WrapActorPosition(Add(pos0, Scale(vel, dt)), screenSize);
    }

    /** The second pass of `update`, boid by boid. */
    method Integrate(dt: real, screenSize: Vec2, norm: Vec2 -> real)
      requires Valid() && IsNorm(norm)
      modifies this
      ensures Valid()
      ensures attractors == old(attractors) && |position| == old(|position|)
      ensures forall i :: 0 <= i < |position| ==>
                acceleration[i] == IntegratedAcceleration(old(acceleration)[i], norm) &&
                velocity[i] == IntegratedVelocity(old(velocity)[i], old(acceleration)[i], dt, norm) &&
                position[i] == IntegratedPosition(old(position)[i], old(velocity)[i], old(acceleration)[i],
                                                  dt, screenSize, norm)
    {
      var i := 0;
      while i < |acceleration|
        invariant 0 <= i <= |acceleration|
        invariant Valid()
        invariant attractors == old(attractors) && |position| == old(|position|)
        invariant forall k :: 0 <= k < |position| ==>
                    if k < i then
                      acceleration[k] == IntegratedAcceleration(old(acceleration)[k], norm) &&
                      velocity[k] == IntegratedVelocity(old(velocity)[k], old(acceleration)[k], dt, norm) &&
                      position[k] == IntegratedPosition(old(position)[k], old(velocity)[k], old(acceleration)[k],
                                                        dt, screenSize, norm)
                    else
                      acceleration[k] == old(acceleration)[k] && velocity[k] == old(velocity)[k] &&
                      position[k] == old(position)[k]
      {
        var acc, vel, pos := IntegrateBoid(acceleration[i], velocity[i], position[i], dt, screenSize, norm);
        acceleration := acceleration[i := acc];
        velocity := velocity[i := vel];
        position := position[i := pos];
        i := i + 1;
      }
    }

    /** `update`: the force pass, then the integration pass. */
    method Update(dt: real, screenSize: Vec2, norm: Vec2 -> real)
      requires Valid() && IsNorm(norm)
      modifies this
      ensures Valid()
      ensures attractors == old(attractors)
      ensures UpdatedFrom(old(position), old(velocity), old(acceleration), old(attractors),
                          position, velocity, acceleration, dt, screenSize, norm)
    {
      ApplyForces(norm);
      Integrate(dt, screenSize, norm);
    }
  }
}
