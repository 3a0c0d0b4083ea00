/** The top-level game state: it owns the actor engine and the flock, keeps
    the level, the score and the input, and drives one fixed 60 Hz tick. */
module Game {
  import opened Geometry
  import opened Actors
  import opened Boids

  /** The fixed rate of the update loop, in ticks per second. */
  const DESIRED_FPS: nat := 60
  /** The fixed time step of one tick. */
  const SECONDS: real := 1.0 / (DESIRED_FPS as real)

  datatype Keycode = Up | Down | Left | Right | Space | P | Escape | Other

  /** The input after a key press: Up thrusts, Left and Right turn, Space
      fires; every other key leaves the input alone. */
  function Pressed(input: InputState, key: Keycode): (r: InputState)
    ensures key == Up ==> r == input.(yaxis := 1.0)
    ensures key == Left ==> r == input.(xaxis := -1.0)
    ensures key == Right ==> r == input.(xaxis := 1.0)
    ensures key == Space ==> r == input.(fire := true)
    ensures key !in {Up, Left, Right, Space} ==> r == input
  {
    match key
    case Up => input.(yaxis := 1.0)
    case Left => input.(xaxis := -1.0)
    case Right => input.(xaxis := 1.0)
    case Space => input.(fire := true)
    case _ => input
  }

  /** The input after a key release: releasing Up stops thrust, releasing
      either turn key stops turning, releasing Space stops firing. */
  function Released(input: InputState, key: Keycode): (r: InputState)
    ensures key == Up ==> r == input.(yaxis := 0.0)
    ensures key in {Left, Right} ==> r == input.(xaxis := 0.0)
    ensures key == Space ==> r == input.(fire := false)
    ensures key !in {Up, Left, Right, Space} ==> r == input
  {
    match key
    case Up => input.(yaxis := 0.0)
    case Left | Right => input.(xaxis := 0.0)
    case Space => input.(fire := false)
    case _ => input
  }

  /** From rest, pressing and releasing any key brings the input back to
      rest. */
  lemma PressReleaseRestores(key: Keycode)
    ensures Released(Pressed(DefaultInput, key), key) == DefaultInput
  {
  }

  /** Releasing one turn key stops the turn even while the other is still
      held: the x axis is one shared value, not a count of held keys. */
  lemma ReleasingOneTurnKeyStopsTurning(input: InputState)
    ensures Released(Pressed(Pressed(input, Left), Right), Right).xaxis == 0.0
    ensures Released(Pressed(Pressed(input, Right), Left), Left).xaxis == 0.0
    ensures Pressed(Pressed(input, Left), Right).xaxis == 1.0
  {
  }

  /** Whether a tick fires: the fire key is held and the cool-down, after
      this tick's decrement, has run out. */
  predicate Fires(input: InputState, timeout: real)
    ensures Fires(input, timeout) <==> input.fire && timeout < SECONDS
  {
    input.fire && timeout - SECONDS < 0.0
  }

  /** After a shot the cool-down is `PLAYER_SHOT_TIME`; the next shot comes
      on the 31st tick after it at the earliest, i.e. at most two shots per
      second at 60 ticks per second. */
  lemma ShotCooldown(ticks: nat)
    ensures Drained(PLAYER_SHOT_TIME, ticks, SECONDS) < 0.0 <==> ticks > 30
  {
    DrainedIsProduct(PLAYER_SHOT_TIME, ticks, SECONDS);
  }

  /** With the fire key held from the shot on, the tick that starts with `k`
      decrements behind it (the shot's own tick included) fires exactly when
      `k` is above 30: the first shot after a shot comes on its 31st tick. */
  lemma FiresAfterCooldown(input: InputState, k: nat)
    requires k >= 1
    ensures Fires(input, Drained(PLAYER_SHOT_TIME, k - 1, SECONDS)) <==> input.fire && k > 30
  {
    ShotCooldown(k);
  }

  class MainState {
    const actorMgr: ActorManager
    const boidMgr: BoidComponent
    var level: int
    var score: int
    var screenWidth: nat
    var screenHeight: nat
    var input: InputState
    var playerShotTimeout: real

    predicate Valid()
      reads this, boidMgr
    {
      boidMgr.Valid()
    }

    /** `MainState::new`: level 0, score 0, resting input, no cool-down, a
        fresh actor engine and a fresh flock initialised from the draws. */
    constructor (screenWidth: nat, screenHeight: nat, boidDraws: seq<BoidDraw>,
                 attractorDraws: seq<AttractorDraw>)
      requires |boidDraws| == NUM_BOIDS && |attractorDraws| == NUM_ATTRACTORS
      ensures Valid()
      ensures level == 0 && score == 0 && input == DefaultInput && playerShotTimeout == 0.0
      ensures this.screenWidth == screenWidth && this.screenHeight == screenHeight
      ensures fresh(actorMgr) && fresh(boidMgr)
      ensures actorMgr.player == CreatePlayer() && actorMgr.shots == [] && actorMgr.rocks == []
      ensures boidMgr.position == seq(NUM_BOIDS, i requires 0 <= i < NUM_BOIDS => SpawnPosition(boidDraws[i]))
      ensures boidMgr.velocity == seq(NUM_BOIDS, i requires 0 <= i < NUM_BOIDS => SpawnVelocity(boidDraws[i]))
      ensures boidMgr.acceleration == seq(NUM_BOIDS, i => Zero)
      ensures boidMgr.attractors.position == seq(NUM_ATTRACTORS, i requires 0 <= i < NUM_ATTRACTORS =>
                AttractorPosition(Vec2(screenWidth as real, screenHeight as real), attractorDraws[i]))
      ensures forall i :: 0 <= i < NUM_ATTRACTORS ==>
                boidMgr.attractors.radius[i] == ATTRACTOR_RADIUS && boidMgr.attractors.force[i] == ATTRACTOR_FORCE
    {
      var actors := new ActorManager();
      var boids := new BoidComponent();
      boids.Init(Vec2(screenWidth as real, screenHeight as real), boidDraws, attractorDraws);
      this.actorMgr := actors;
      this.boidMgr := boids;
      level := 0;
      score := 0;
      this.screenWidth := screenWidth;
      this.screenHeight := screenHeight;
      input := DefaultInput;
      playerShotTimeout := 0.0;
    }

    /** Restart the cool-down and launch a shot from the player. */
    method FirePlayerShot(vecFromAngle: real -> Vec2)
      modifies this, actorMgr
      ensures playerShotTimeout == PLAYER_SHOT_TIME
      ensures actorMgr.shots == old(actorMgr.shots) + [ShotFrom(old(actorMgr.player), vecFromAngle)]
      ensures actorMgr.player == old(actorMgr.player) && actorMgr.rocks == old(actorMgr.rocks)
      ensures level == old(level) && score == old(score) && input == old(input)
      ensures screenWidth == old(screenWidth) && screenHeight == old(screenHeight)
    {
      playerShotTimeout := PLAYER_SHOT_TIME;
      actorMgr.FirePlayerShotHelper(vecFromAngle);
    }

    /** The game half of one tick: cool-down and firing, the actor physics,
        collisions and scoring, reclamation, the level check and the
        game-over check.  Returns whether the game asks to quit. */
    method StepActors(norm: Vec2 -> real, vecFromAngle: real -> Vec2) returns (quit: bool)
      requires IsNorm(norm)
      modifies this, actorMgr
      ensures input == old(input) && screenWidth == old(screenWidth) && screenHeight == old(screenHeight)
      ensures playerShotTimeout == if Fires(old(input), old(playerShotTimeout)) then PLAYER_SHOT_TIME
                                   else old(playerShotTimeout) - SECONDS
      ensures var w, h := old(screenWidth) as real, old(screenHeight) as real;
              var shots0 := if Fires(old(input), old(playerShotTimeout))
                            then old(actorMgr.shots) + [ShotFrom(old(actorMgr.player), vecFromAngle)]
                            else old(actorMgr.shots);
              var player1 := StepPlayer(old(actorMgr.player), old(input), SECONDS, w, h, norm, vecFromAngle);
              var shots1 := StepShots(shots0, SECONDS, w, h, norm);
              var rocks1 := StepRocks(old(actorMgr.rocks), SECONDS, w, h, norm);
              score == old(score) + HitCount(rocks1, shots1) &&
              actorMgr.player == CollidedPlayer(player1, rocks1) &&
              actorMgr.shots == Retained(CollidedShots(shots1, rocks1)) &&
              actorMgr.rocks == Retained(CollidedRocks(rocks1, shots1))
      ensures level == old(level) + (if actorMgr.rocks == [] then 1 else 0)
      ensures old(actorMgr.rocks) == [] ==> actorMgr.rocks == [] && level == old(level) + 1
      ensures score >= old(score)
      ensures quit <==> !Alive(actorMgr.player)
    {
      ghost var w, h := screenWidth as real, screenHeight as real;
      ghost var shots0 := if Fires(input, playerShotTimeout)
                          then actorMgr.shots + [ShotFrom(actorMgr.player, vecFromAngle)]
                          else actorMgr.shots;
      ghost var player0, rocks0 := actorMgr.player, actorMgr.rocks;
      CoolDownAndFire(vecFromAngle);
      assert actorMgr.shots == shots0 && actorMgr.player == player0 && actorMgr.rocks == rocks0;

      actorMgr.Update(SECONDS, input, screenWidth as real, screenHeight as real, norm, vecFromAngle);
      ghost var player1, shots1, rocks1 := actorMgr.player, actorMgr.shots, actorMgr.rocks;
      assert player1 == StepPlayer(player0, old(input), SECONDS, w, h, norm, vecFromAngle);
      assert shots1 == StepShots(shots0, SECONDS, w, h, norm);
      assert rocks1 == StepRocks(rocks0, SECONDS, w, h, norm);

      ResolveCollisions(norm);
      quit := actorMgr.PlayerIsDead();
    }

    /** Collisions and scoring, reclamation of the dead, and the level check,
        on the actors as the physics left them. */
    method ResolveCollisions(norm: Vec2 -> real)
      requires IsNorm(norm)
      modifies this, actorMgr
      ensures score == old(score) + HitCount(old(actorMgr.rocks), old(actorMgr.shots))
      ensures actorMgr.player == CollidedPlayer(old(actorMgr.player), old(actorMgr.rocks))
      ensures actorMgr.shots == Retained(CollidedShots(old(actorMgr.shots), old(actorMgr.rocks)))
      ensures actorMgr.rocks == Retained(CollidedRocks(old(actorMgr.rocks), old(actorMgr.shots)))
      ensures level == old(level) + (if actorMgr.rocks == [] then 1 else 0)
      ensures playerShotTimeout == old(playerShotTimeout) && input == old(input)
      ensures screenWidth == old(screenWidth) && screenHeight == old(screenHeight)
    {
      var numHits := actorMgr.HandleCollisions(norm);
      if numHits > 0 {
        score := score + numHits;
      }

      actorMgr.ClearDeadStuff();

      var empty := actorMgr.RocksAreEmpty();
      if empty {
        level := level + 1;
        actorMgr.WhenRocksEmpty(level + 5);
      }
    }

    /** The cool-down decrement and, when the fire key is held and the
        cool-down has run out, a shot. */
    method CoolDownAndFire(vecFromAngle: real -> Vec2)
      modifies this, actorMgr
      ensures playerShotTimeout == if Fires(old(input), old(playerShotTimeout)) then PLAYER_SHOT_TIME
                                   else old(playerShotTimeout) - SECONDS
      ensures actorMgr.shots == if Fires(old(input), old(playerShotTimeout))
                                then old(actorMgr.shots) + [ShotFrom(old(actorMgr.player), vecFromAngle)]
                                else old(actorMgr.shots)
      ensures actorMgr.player == old(actorMgr.player) && actorMgr.rocks == old(actorMgr.rocks)
      ensures level == old(level) && score == old(score) && input == old(input)
      ensures screenWidth == old(screenWidth) && screenHeight == old(screenHeight)
    {
      playerShotTimeout := playerShotTimeout - SECONDS;
      if input.fire && playerShotTimeout < 0.0 {
        FirePlayerShot(vecFromAngle);
      }
    }

    /** One iteration of the fixed-step loop in `update`: the game half, then
        the flock update.  Returns whether the game asks to quit (the player
        is dead); the flock is updated either way. */
    method Tick(norm: Vec2 -> real, vecFromAngle: real -> Vec2) returns (quit: bool)
      requires Valid() && IsNorm(norm)
      modifies this, actorMgr, boidMgr
      ensures Valid()
      ensures input == old(input) && screenWidth == old(screenWidth) && screenHeight == old(screenHeight)
      ensures playerShotTimeout == if Fires(old(input), old(playerShotTimeout)) then PLAYER_SHOT_TIME
                                   else old(playerShotTimeout) - SECONDS
      ensures var w, h := old(screenWidth) as real, old(screenHeight) as real;
              var shots0 := if Fires(old(input), old(playerShotTimeout))
                            then old(actorMgr.shots) + [ShotFrom(old(actorMgr.player), vecFromAngle)]
                            else old(actorMgr.shots);
              var player1 := StepPlayer(old(actorMgr.player), old(input), SECONDS, w, h, norm, vecFromAngle);
              var shots1 := StepShots(shots0, SECONDS, w, h, norm);
              var rocks1 := StepRocks(old(actorMgr.rocks), SECONDS, w, h, norm);
              score == old(score) + HitCount(rocks1, shots1) &&
              actorMgr.player == CollidedPlayer(player1, rocks1) &&
              actorMgr.shots == Retained(CollidedShots(shots1, rocks1)) &&
              actorMgr.rocks == Retained(CollidedRocks(rocks1, shots1))
      ensures level == old(level) + (if actorMgr.rocks == [] then 1 else 0)
      ensures old(actorMgr.rocks) == [] ==> actorMgr.rocks == [] && level == old(level) + 1
      ensures score >= old(score)
      ensures quit <==> !Alive(actorMgr.player)
      ensures boidMgr.attractors == old(boidMgr.attractors)
      ensures UpdatedFrom(old(boidMgr.position), old(boidMgr.velocity), old(boidMgr.acceleration),
                          old(boidMgr.attractors), boidMgr.position, boidMgr.velocity, boidMgr.acceleration,
                          SECONDS, Vec2(old(screenWidth) as real, old(screenHeight) as real), norm)
    {
      quit := StepActors(norm, vecFromAngle);
      boidMgr.Update(SECONDS, Vec2(screenWidth as real, screenHeight as real), norm);
    }

    /** `key_down_event`; returns whether the key asks to quit (Escape). */
    method KeyDownEvent(key: Keycode) returns (quit: bool)
      modifies this`input
      ensures input == Pressed(old(input), key)
      ensures quit <==> key == Escape
    {
      quit := false;
      match key {
        case Up => input := input.(yaxis := 1.0);
        case Left => input := input.(xaxis := -1.0);
        case Right => input := input.(xaxis := 1.0);
        case Space => input := input.(fire := true);
        case Escape => quit := true;
        case _ =>
      }
    }

    /** `key_up_event`. */
    method KeyUpEvent(key: Keycode)
      modifies this`input
      ensures input == Released(old(input), key)
    {
      match key {
        case Up => input := input.(yaxis := 0.0);
        case Left => input := input.(xaxis := 0.0);
        case Right => input := input.(xaxis := 0.0);
        case Space => input := input.(fire := false);
        case _ =>
      }
    }
  }
}
