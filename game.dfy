/** The game session: the module-level state of the runner as one object,
    and the handlers that change it in place. Every handler is proved
    against the pure step functions of Physics, Sweeps, Difficulty and
    Spawner, and keeps the object invariant Valid(). */
module GameState {
  import opened Geometry
  import opened Entities
  import opened Physics
  import opened Difficulty
  import opened Spawner
  import opened Sweeps

  /** Lowest speed reachable by braking: just under half the initial base speed. */
  const SpeedFloor: real := InitialBaseSpeed * 0.5 - 2.0 * Acceleration

  /** z of the k-th obstacle of the opening layout: -20, -30, ..., -110. */
  function OpeningZ(k: int): real
  {
    -20.0 - (k as real) * 10.0
  }

  /** Number of opening waves. */
  const OpeningWaves: nat := 10

  class Game {
    var score: int
    var level: int
    var gameActive: bool
    var speed: real
    var baseSpeed: real
    var maxSpeed: real
    var isJumping: bool
    var jumpSpeed: real
    var hasPowerUp: bool
    var powerUpTime: int
    /** Ball position; its z is never changed and stays 0. */
    var ballX: real
    var ballY: real
    var obstacles: seq<Obstacle>
    var powerUps: seq<PowerUp>
    /** z of the three ground segments. */
    var grounds: seq<real>
    /** Current period (ms) of the obstacle spawn timer. */
    var obstacleInterval: int

    function BallPos(): Vec3
      reads this
    {
      Vec3(ballX, ballY, 0.0)
    }

    function Vertical(): Jump
      reads this
    {
      Jump(ballY, jumpSpeed, isJumping)
    }

    function Shielding(): Shield
      reads this
    {
      Shield(hasPowerUp, powerUpTime)
    }

    /** The session invariant: level and speeds move together, the speed
        stays within its limits, the ball stays on the track and on or above
        the ground, an active power-up has time left, and every obstacle is
        within the spawn lane. */
    ghost predicate Valid()
      reads this
    {
      && level >= 1 && score >= 0
      && baseSpeed == BaseSpeedAt(level) && maxSpeed == MaxSpeedAt(level)
      && obstacleInterval == SpawnInterval(level)
      && SpeedFloor < speed < maxSpeed + Acceleration
      && OnTrack(ballX) && Grounded(Vertical())
      && (hasPowerUp ==> 0 < powerUpTime <= PowerUpDuration)
      && |grounds| == 3
      && AllInLane(obstacles)
    }

    /** Start-up: the initial session, the three ground segments at 0, -100
        and -200, the ball at rest, and the opening obstacle layout. */
    constructor (rand: seq<real>)
      requires UnitDraws(rand)
      ensures Valid()
      ensures score == 0 && level == 1 && gameActive && speed == InitialBaseSpeed
      ensures !isJumping && jumpSpeed == 0.0 && !hasPowerUp && powerUpTime == 0
      ensures ballX == 0.0 && ballY == GroundY && powerUps == []
      ensures grounds == [0.0, -TrackLength, -2.0 * TrackLength] && Tiled(grounds)
      ensures |obstacles| <= OpeningWaves
      ensures |rand| >= 11 * OpeningWaves ==>
        |obstacles| == OpeningWaves && forall k :: 0 <= k < OpeningWaves ==> obstacles[k].pos.z == OpeningZ(k)
    {
      score, level, gameActive := 0, 1, true;
      speed, baseSpeed, maxSpeed := InitialBaseSpeed, InitialBaseSpeed, InitialMaxSpeed;
      isJumping, jumpSpeed := false, 0.0;
      hasPowerUp, powerUpTime := false, 0;
      ballX, ballY := 0.0, GroundY;
      obstacles, powerUps := [], [];
      grounds := [0.0, -TrackLength, -2.0 * TrackLength];
      obstacleInterval := InitialSpawnInterval;
      new;
      InitialTiled();
      var _ := CreateInitialObstacles(rand);
    }

    /** The space-bar handler's jump branch. */
    method StartJump()
      requires Valid()
      modifies this`isJumping, this`jumpSpeed
      ensures Valid()
      ensures Vertical() == Launch(gameActive, old(Vertical()))
    {
      if gameActive && !isJumping && ballY <= GroundY {
        isJumping := true;
        jumpSpeed := JumpVelocity;
      }
    }

    /** The arrow-key part of the ball update: left, then right. */
    method Steer(left: bool, right: bool)
      modifies this`ballX
      ensures ballX == LateralStep(old(ballX), left, right)
    {
      if left && ballX > LeftLimit {
        ballX := ballX - LateralStepSize;
      }
      if right && ballX < RightLimit {
        ballX := ballX + LateralStepSize;
      }
    }

    /** The speed part of the ball update: accelerate, then brake. */
    method ControlSpeed(up: bool, down: bool)
      modifies this`speed
      ensures speed == SpeedStep(old(speed), baseSpeed, maxSpeed, up, down)
    {
      if up && speed < maxSpeed {
        speed := speed + Acceleration;
      }
      if down && speed > baseSpeed * 0.5 {
        speed := speed - Acceleration * 2.0;
      }
    }

    /** The jump part of the ball update: rise, fall, land. */
    method StepJump()
      modifies this`ballY, this`jumpSpeed, this`isJumping
      ensures Vertical() == JumpStep(old(Vertical()))
    {
      if isJumping {
        ballY := ballY + jumpSpeed;
        jumpSpeed := jumpSpeed - Gravity;
        if ballY <= GroundY && jumpSpeed < 0.0 {
          ballY := GroundY;
          isJumping := false;
        }
      }
    }

    /** The per-tick ball update: lateral move, speed change, jump step. */
    method MoveBall(keys: Keys)
      requires Valid()
      modifies this`ballX, this`speed, this`ballY, this`jumpSpeed, this`isJumping
      ensures Valid()
      ensures ballX == LateralStep(old(ballX), keys.left, keys.right)
      ensures speed == SpeedStep(old(speed), baseSpeed, maxSpeed, keys.up, keys.down)
      ensures Vertical() == JumpStep(old(Vertical()))
      ensures unchanged(this`obstacles, this`powerUps, this`hasPowerUp, this`powerUpTime, this`grounds, this`score)
    {
      Steer(keys.left, keys.right);
      ControlSpeed(keys.up, keys.down);
      StepJump();
    }

    /** Ends the session. */
    method GameOver()
      modifies this`gameActive
      ensures !gameActive
    {
      gameActive := false;
    }

    /** Advances the obstacles from the last to the first, removing and
        scoring the ones that passed, and stops at the first unshielded
        collision, which ends the game. */
    method UpdateObstacles()
      requires Valid()
      modifies this`obstacles, this`score, this`gameActive
      ensures Valid()
      ensures unchanged(this`speed, this`ballX, this`ballY, this`powerUps, this`hasPowerUp, this`powerUpTime)
      ensures var r := SweepObstacles(old(obstacles), old(speed), old(BallPos()), old(hasPowerUp));
        && obstacles == r.kept
        && score == old(score) + r.bonus
        && gameActive == (old(gameActive) && !r.hit)
    {
      var list, bonus, hit := AdvanceObstacles(obstacles, speed, BallPos(), hasPowerUp);
      obstacles, score := list, score + bonus;
      if hit {
        GameOver();
      }
    }

    /** A pickup: shield on for the full duration (refreshed, not added to)
        and +50. */
    method ActivatePowerUp()
      modifies this`hasPowerUp, this`powerUpTime, this`score
      ensures hasPowerUp && powerUpTime == PowerUpDuration && score == old(score) + PickupBonus
    {
      hasPowerUp := true;
      powerUpTime := PowerUpDuration;
      score := score + PickupBonus;
    }

    method DeactivatePowerUp()
      modifies this`hasPowerUp
      ensures !hasPowerUp
    {
      hasPowerUp := false;
    }

    /** Advances the power-ups from the last to the first, removing the ones
        that passed and picking up the ones touching the ball, then runs the
        shield timer. `heights` gives each power-up's floating height for
        this tick. */
    method UpdatePowerUps(heights: seq<real>)
      requires Valid() && |heights| == |powerUps|
      modifies this`powerUps, this`hasPowerUp, this`powerUpTime, this`score
      ensures Valid()
      ensures unchanged(this`speed, this`ballX, this`ballY, this`obstacles, this`gameActive)
      ensures var c := CollectPowerUps(old(powerUps), heights, old(speed), old(BallPos()));
        && powerUps == c.kept
        && score == old(score) + PickupBonus * c.pickups
        && Shielding() == ShieldStep(old(Shielding()), c.pickups)
    {
      var list, pickups := CollectInPlace(powerUps, heights, speed, BallPos());
      powerUps := list;
      RunShield(pickups);
    }

    /** The shield part of the power-up update: one activation per pickup
        (each refreshing the timer and adding to the score), then the timer
        loses a frame and switches the shield off once it has run out. */
    method RunShield(pickups: nat)
      modifies this`hasPowerUp, this`powerUpTime, this`score
      ensures score == old(score) + PickupBonus * pickups
      ensures Shielding() == ShieldStep(old(Shielding()), pickups)
    {
      for k := 0 to pickups
        invariant score == old(score) + PickupBonus * k
        invariant k > 0 ==> hasPowerUp && powerUpTime == PowerUpDuration
        invariant k == 0 ==> hasPowerUp == old(hasPowerUp) && powerUpTime == old(powerUpTime)
      {
        ActivatePowerUp();
      }
      if hasPowerUp {
        powerUpTime := powerUpTime - FrameMillis;
        if powerUpTime <= 0 {
          DeactivatePowerUp();
        }
      }
    }

    /** Moves the ground segments and recycles the ones that passed. */
    method UpdateGrounds()
      requires Valid()
      modifies this`grounds
      ensures Valid()
      ensures unchanged(this`speed, this`ballX, this`ballY, this`obstacles, this`gameActive, this`powerUps, this`score)
      ensures grounds == RecycleAll(old(grounds), old(speed))
    {
      for i := 0 to |grounds|
        invariant |grounds| == |old(grounds)|
        invariant forall k :: 0 <= k < i ==> grounds[k] == Recycle(old(grounds)[k], speed, |grounds|)
        invariant forall k :: i <= k < |grounds| ==> grounds[k] == old(grounds)[k]
      {
        var z := grounds[i] + speed;
        if z > TrackLength / 2.0 {
          z := z - TrackLength * (|grounds| as real);
        }
        grounds := grounds[i := z];
      }
    }

    /** The difficulty timer: while the game runs, one level up, faster
        speeds and a shorter obstacle interval. */
    method IncreaseDifficulty()
      requires Valid()
      modifies this`level, this`maxSpeed, this`baseSpeed, this`obstacleInterval
      ensures Valid()
      ensures !gameActive ==> unchanged(this)
      ensures gameActive ==>
        && level == old(level) + 1
        && maxSpeed == old(maxSpeed) + MaxSpeedStep
        && baseSpeed == old(baseSpeed) + BaseSpeedStep
        && obstacleInterval == SpawnInterval(level)
      ensures MinSpawnInterval <= obstacleInterval <= old(obstacleInterval)
    {
      if !gameActive {
        return;
      }
      level := level + 1;
      maxSpeed := maxSpeed + MaxSpeedStep;
      baseSpeed := baseSpeed + BaseSpeedStep;
      obstacleInterval := SpawnInterval(level);
      SpawnIntervalNonIncreasing(level - 1, level);
    }

    /** Appends one wave at z, drawn from `rand` at `start`. */
    method CreateObstacleAt(z: real, rand: seq<real>, start: nat) returns (next: nat, complete: bool)
      requires Valid() && UnitDraws(rand) && start <= |rand|
      modifies this`obstacles
      ensures Valid()
      ensures start <= next <= |rand|
      ensures |old(obstacles)| <= |obstacles| && obstacles[..|old(obstacles)|] == old(obstacles)
      ensures WaveFits(obstacles[|old(obstacles)|..], level, z)
      ensures complete ==> |old(obstacles)| < |obstacles|
      ensures level < 2 && start + 11 <= |rand| ==>
        complete && |obstacles| == |old(obstacles)| + 1 && next <= start + 11
    {
      var wave;
      wave, next, complete := DrawWave(level, z, rand, start);
      obstacles := obstacles + wave;
      assert obstacles[|old(obstacles)|..] == wave;
    }

    /** The obstacle timer: a wave at the spawn z while the game runs. */
    method CreateObstacle(rand: seq<real>) returns (complete: bool)
      requires Valid() && UnitDraws(rand)
      modifies this`obstacles
      ensures Valid()
      ensures !gameActive ==> unchanged(this)
      ensures gameActive ==>
        && |old(obstacles)| <= |obstacles| && obstacles[..|old(obstacles)|] == old(obstacles)
        && WaveFits(obstacles[|old(obstacles)|..], level, SpawnZ)
        && (complete ==> |old(obstacles)| < |obstacles|)
    {
      if !gameActive {
        return true;
      }
      var next;
      next, complete := CreateObstacleAt(SpawnZ, rand, 0);
    }

    /** The opening layout: one wave at each of z = -20, -30, ..., -110. */
    method CreateInitialObstacles(rand: seq<real>) returns (complete: bool)
      requires Valid() && UnitDraws(rand)
      modifies this`obstacles
      ensures Valid()
      ensures |old(obstacles)| <= |obstacles| && obstacles[..|old(obstacles)|] == old(obstacles)
      ensures |obstacles| <= |old(obstacles)| + OpeningWaves * MaxWaveSize(level)
      ensures forall k :: |old(obstacles)| <= k < |obstacles| ==> (obstacles[k].requiresJump ==> level >= 2)
      ensures level < 2 && |rand| >= 11 * OpeningWaves ==> complete
      ensures level < 2 && complete ==>
        && |obstacles| == |old(obstacles)| + OpeningWaves
        && forall k :: 0 <= k < OpeningWaves ==> obstacles[|old(obstacles)| + k].pos.z == OpeningZ(k)
    {
      ghost var n0 := |obstacles|;
      var cursor := 0;
      complete := true;
      for i := 0 to OpeningWaves
        invariant cursor <= |rand|
        invariant Valid()
        invariant n0 <= |obstacles| && obstacles[..n0] == old(obstacles)
        invariant |obstacles| <= n0 + i * MaxWaveSize(level)
        invariant forall k :: n0 <= k < |obstacles| ==> (obstacles[k].requiresJump ==> level >= 2)
        invariant level < 2 && |rand| >= 11 * OpeningWaves ==> complete && cursor <= 11 * i
        invariant level < 2 && complete ==>
          |obstacles| == n0 + i && forall k :: 0 <= k < i ==> obstacles[n0 + k].pos.z == OpeningZ(k)
      {
        var done;
        cursor, done := CreateObstacleAt(OpeningZ(i), rand, cursor);
        complete := complete && done;
      }
    }

    /** The power-up timer: a power-up at the spawn z while the game runs;
        `r` is its x draw. */
    method CreatePowerUp(r: real)
      requires Valid() && 0.0 <= r < 1.0
      modifies this`powerUps
      ensures Valid()
      ensures powerUps == if gameActive then old(powerUps) + [SpawnedPowerUp(r)] else old(powerUps)
    {
      if !gameActive {
        return;
      }
      powerUps := powerUps + [SpawnedPowerUp(r)];
    }

    /** Level 1 and the speeds and spawn interval that go with it. */
    method ResetDifficulty()
      requires Valid()
      modifies this`level, this`speed, this`baseSpeed, this`maxSpeed, this`obstacleInterval
      ensures Valid()
      ensures level == 1 && speed == InitialBaseSpeed && baseSpeed == InitialBaseSpeed
      ensures maxSpeed == InitialMaxSpeed && obstacleInterval == InitialSpawnInterval
    {
      level := 1;
      speed, baseSpeed, maxSpeed := InitialBaseSpeed, InitialBaseSpeed, InitialMaxSpeed;
      obstacleInterval := InitialSpawnInterval;
    }

    /** The ball at the origin, at rest on the ground. */
    method ResetBall()
      requires Valid()
      modifies this`isJumping, this`ballX, this`ballY
      ensures Valid()
      ensures !isJumping && ballX == 0.0 && ballY == GroundY
    {
      isJumping := false;
      ballX, ballY := 0.0, GroundY;
    }

    /** Score zero, game running, no shield, empty track. */
    method ResetTrack()
      requires Valid()
      modifies this`score, this`gameActive, this`hasPowerUp, this`obstacles, this`powerUps
      ensures Valid()
      ensures score == 0 && gameActive && !hasPowerUp && obstacles == [] && powerUps == []
    {
      score, gameActive, hasPowerUp := 0, true, false;
      obstacles, powerUps := [], [];
    }

    /** The resetting half of restart: session values back to their start,
        the ball at the origin, the track emptied. The power-up timer value,
        the jump velocity and the ground segments are left as they were. */
    method ResetSession()
      requires Valid()
      modifies this`score, this`level, this`speed, this`baseSpeed, this`maxSpeed, this`gameActive
      modifies this`isJumping, this`hasPowerUp, this`ballX, this`ballY, this`obstacles, this`powerUps
      modifies this`obstacleInterval
      ensures Valid()
      ensures score == 0 && level == 1 && gameActive
      ensures speed == InitialBaseSpeed && baseSpeed == InitialBaseSpeed && maxSpeed == InitialMaxSpeed
      ensures !isJumping && !hasPowerUp && ballX == 0.0 && ballY == GroundY
      ensures obstacles == [] && powerUps == [] && obstacleInterval == InitialSpawnInterval
    {
      ResetDifficulty();
      ResetBall();
      ResetTrack();
    }

    /** Restart: reset the session, then lay out the opening obstacles. */
    method Restart(rand: seq<real>) returns (complete: bool)
      requires Valid() && UnitDraws(rand)
      modifies this
      ensures Valid()
      ensures score == 0 && level == 1 && gameActive
      ensures speed == InitialBaseSpeed && baseSpeed == InitialBaseSpeed && maxSpeed == InitialMaxSpeed
      ensures !isJumping && !hasPowerUp && ballX == 0.0 && ballY == GroundY
      ensures powerUps == [] && obstacleInterval == InitialSpawnInterval
      ensures powerUpTime == old(powerUpTime) && jumpSpeed == old(jumpSpeed) && grounds == old(grounds)
      ensures |obstacles| <= OpeningWaves
      ensures forall k :: 0 <= k < |obstacles| ==> !obstacles[k].requiresJump
      ensures |rand| >= 11 * OpeningWaves ==> complete
      ensures complete ==>
        |obstacles| == OpeningWaves && forall k :: 0 <= k < OpeningWaves ==> obstacles[k].pos.z == OpeningZ(k)
    {
      ResetSession();
      complete := CreateInitialObstacles(rand);
    }

    /** The first half of a running frame: +1 score, the ball, then the
        obstacles. */
    method MoveAndSweep(keys: Keys)
      requires Valid()
      modifies this`score, this`ballX, this`speed, this`ballY, this`jumpSpeed, this`isJumping
      modifies this`obstacles, this`gameActive
      ensures Valid()
      ensures unchanged(this`powerUps, this`hasPowerUp, this`powerUpTime, this`grounds)
      ensures var sweep := SweepObstacles(old(obstacles), speed, BallPos(), old(hasPowerUp));
        && ballX == LateralStep(old(ballX), keys.left, keys.right)
        && speed == SpeedStep(old(speed), baseSpeed, maxSpeed, keys.up, keys.down)
        && Vertical() == JumpStep(old(Vertical()))
        && obstacles == sweep.kept
        && gameActive == (old(gameActive) && !sweep.hit)
        && score == old(score) + 1 + sweep.bonus
    {
      score := score + 1;
      MoveBall(keys);
      UpdateObstacles();
    }

    /** The second half of a running frame: the power-ups, then the ground. */
    method CollectAndScroll(heights: seq<real>)
      requires Valid() && |heights| == |powerUps|
      modifies this`powerUps, this`hasPowerUp, this`powerUpTime, this`score, this`grounds
      ensures Valid()
      ensures unchanged(this`speed, this`ballX, this`ballY, this`obstacles, this`gameActive)
      ensures var take := CollectPowerUps(old(powerUps), heights, speed, BallPos());
        && powerUps == take.kept
        && score == old(score) + PickupBonus * take.pickups
        && Shielding() == ShieldStep(old(Shielding()), take.pickups)
        && grounds == RecycleAll(old(grounds), speed)
    {
      UpdatePowerUps(heights);
      UpdateGrounds();
    }

    /** One animation frame: while the game runs, +1 score, then the ball,
        the obstacles, the power-ups and the ground, in that order. The
        power-ups and the ground are still updated in the frame in which an
        obstacle ends the game. */
    method Tick(keys: Keys, heights: seq<real>)
      requires Valid() && |heights| == |powerUps|
      modifies this
      ensures Valid()
      ensures !old(gameActive) ==> unchanged(this)
      ensures old(gameActive) ==>
        var sweep := SweepObstacles(old(obstacles), speed, BallPos(), old(hasPowerUp));
        var take := CollectPowerUps(old(powerUps), heights, speed, BallPos());
        && ballX == LateralStep(old(ballX), keys.left, keys.right)
        && speed == SpeedStep(old(speed), baseSpeed, maxSpeed, keys.up, keys.down)
        && Vertical() == JumpStep(old(Vertical()))
        && obstacles == sweep.kept
        && gameActive == !sweep.hit
        && powerUps == take.kept
        && score == old(score) + 1 + sweep.bonus + PickupBonus * take.pickups
        && Shielding() == ShieldStep(old(Shielding()), take.pickups)
        && grounds == RecycleAll(old(grounds), speed)
      ensures level == old(level) && baseSpeed == old(baseSpeed) && maxSpeed == old(maxSpeed)
      ensures obstacleInterval == old(obstacleInterval)
      ensures old(gameActive) ==> score > old(score)
    {
      if gameActive {
        MoveAndSweep(keys);
        CollectAndScroll(heights);
      }
    }
  }
}
