/** The per-tick ball integrator: lateral movement, speed control and the
    jump arc. Each rule is a function of the current values and the held
    keys; the Game class applies them in place. */
module Physics {
  import opened Geometry

  /** The keys held during a tick (level-triggered). */
  datatype Keys = Keys(left: bool, right: bool, up: bool, down: bool)

  const NoKeys: Keys := Keys(false, false, false, false)

  /** Lateral move per tick while an arrow key is held. */
  const LateralStepSize: real := 0.1
  const Acceleration: real := 0.0005
  const Gravity: real := 0.01
  /** Resting height of the ball's centre (its radius). */
  const GroundY: real := 0.3
  /** Initial upward velocity of a jump. */
  const JumpVelocity: real := 0.2

  /** Left limit beyond which a left move is refused, and the right one. */
  const LeftLimit: real := -TrackWidth / 2.0 + 0.5
  const RightLimit: real := TrackWidth / 2.0 - 0.5

  /** Open interval the ball's x never leaves. */
  predicate OnTrack(x: real)
  {
    -2.1 < x < 2.1
  }

  /** Lateral movement: a left step and then a right step, each taken only
      while the ball is inside the corresponding limit. */
  function LateralStep(x: real, left: bool, right: bool): (r: real)
    ensures OnTrack(x) ==> OnTrack(r)
    ensures -LateralStepSize - LateralStepSize <= r - x <= LateralStepSize + LateralStepSize
    ensures !left && !right ==> r == x
    ensures left && !right && x <= LeftLimit ==> r == x
    ensures right && !left && x >= RightLimit ==> r == x
  {
    var afterLeft := if left && x > LeftLimit then x - LateralStepSize else x;
    if right && afterLeft < RightLimit then afterLeft + LateralStepSize else afterLeft
  }

  /** Speed control: accelerate while below the maximum, then decelerate at
      twice the rate while above half the base speed. */
  function SpeedStep(speed: real, baseSpeed: real, maxSpeed: real, up: bool, down: bool): (r: real)
    ensures r <= speed || r < maxSpeed + Acceleration
    ensures r >= speed || r > baseSpeed * 0.5 - 2.0 * Acceleration
    ensures !up && !down ==> r == speed
    ensures up && !down && speed < maxSpeed ==> r > speed
    ensures down && !up && speed > baseSpeed * 0.5 ==> r < speed
    ensures up && !down && speed >= maxSpeed ==> r == speed
    ensures down && !up && speed <= baseSpeed * 0.5 ==> r == speed
  {
    var afterUp := if up && speed < maxSpeed then speed + Acceleration else speed;
    if down && afterUp > baseSpeed * 0.5 then afterUp - Acceleration * 2.0 else afterUp
  }

  /** Vertical state of the ball: height, vertical velocity, airborne flag. */
  datatype Jump = Jump(y: real, v: real, airborne: bool)

  const Resting: Jump := Jump(GroundY, 0.0, false)

  /** Consistent vertical state: never below the ground, and exactly on it
      when not jumping. */
  predicate Grounded(j: Jump)
  {
    j.y >= GroundY && (!j.airborne ==> j.y == GroundY)
  }

  /** The key-down handler's jump branch: a jump starts only while the game
      runs, the ball is not already jumping and is at or below ground height. */
  function Launch(active: bool, j: Jump): (r: Jump)
    ensures r.y == j.y
    ensures r.airborne <==> j.airborne || (active && j.y <= GroundY)
    ensures r != j ==> r.v == JumpVelocity && !j.airborne
    ensures Grounded(j) ==> Grounded(r)
  {
    if active && !j.airborne && j.y <= GroundY then Jump(j.y, JumpVelocity, true) else j
  }

  /** One tick of jump integration: position, then velocity, then landing. */
  function JumpStep(j: Jump): (r: Jump)
    ensures !j.airborne ==> r == j
    ensures Grounded(j) ==> Grounded(r)
    ensures j.airborne && !r.airborne ==> r.y == GroundY && r.v < 0.0
  {
    if !j.airborne then j
    else
      var y := j.y + j.v;
      var v := j.v - Gravity;
      if y <= GroundY && v < 0.0 then Jump(GroundY, v, false) else Jump(y, v, true)
  }

  /** The vertical state after k ticks. */
  function JumpAfter(j: Jump, k: nat): Jump
  {
    if k == 0 then j else JumpStep(JumpAfter(j, k - 1))
  }

  /** The height of a jump started from the ground, k ticks in. */
  function ArcHeight(k: nat): real
  {
    GroundY + 0.2 * (k as real) - 0.005 * (k as real) * ((k as real) - 1.0)
  }

  lemma ProductNonNegative(a: real, b: real)
    requires a >= 0.0 && b >= 0.0
    ensures a * b >= 0.0
  {
  }

  /** One tick of the arc in closed form, while the ball is still rising or
      above the ground. */
  lemma ArcStep(k: nat)
    requires 1 <= k <= 40
    ensures ArcHeight(k - 1) + (JumpVelocity - Gravity * ((k - 1) as real)) == ArcHeight(k)
    ensures ArcHeight(k) > GroundY
  {
    var kr := k as real;
    var sq := kr * kr;
    assert (kr - 1.0) * ((kr - 1.0) - 1.0) == sq - 3.0 * kr + 2.0;
    assert kr * (kr - 1.0) == sq - kr;
    assert sq <= 40.0 * kr by {
      var m := (40 - k) as real;
      assert m >= 0.0 && kr >= 0.0;
      ProductNonNegative(m, kr);
      assert m * kr == 40.0 * kr - sq;
    }
  }

  /** Closed form of the arc: for the first 40 ticks after take-off the ball
      is still in the air, at height 0.3 + 0.2k - 0.005k(k-1) with velocity
      0.2 - 0.01k. */
  lemma {:induction false} JumpArc(k: nat)
    requires k <= 40
    ensures JumpAfter(Launch(true, Resting), k) == Jump(ArcHeight(k), JumpVelocity - Gravity * (k as real), true)
  {
    if k > 0 {
      JumpArc(k - 1);
      ArcStep(k);
    }
  }

  /** The height on tick 40, the last one in the air. */
  lemma ArcHeightAt40()
    ensures ArcHeight(40) == GroundY + 0.2
  {
  }

  /** A jump keeps the ball in the air for exactly 40 ticks after take-off:
      it lands on tick 41, back at ground height with velocity 0.2 - 0.41,
      and stays there. */
  lemma {:induction false} JumpLands(k: nat)
    ensures JumpAfter(Launch(true, Resting), k).airborne <==> k <= 40
    ensures k > 40 ==> JumpAfter(Launch(true, Resting), k) == Jump(GroundY, JumpVelocity - Gravity * 41.0, false)
  {
    if k <= 40 {
      JumpArc(k);
    } else if k == 41 {
      var last := k - 1;  // tick 40, kept symbolic so that the arc is not unrolled
      JumpArc(last);
      var top := Jump(ArcHeight(last), JumpVelocity - Gravity * (last as real), true);
      assert JumpAfter(Launch(true, Resting), k) == JumpStep(top);
      ArcHeightAt40();
      assert top.y + top.v == GroundY;
    } else {
      JumpLands(k - 1);
    }
  }

  /** Lateral position after applying a run of held keys in order. */
  function LateralRun(x: real, run: seq<Keys>): real
    decreases run
  {
    if run == [] then x else LateralRun(LateralStep(x, run[0].left, run[0].right), run[1..])
  }

  /** From any position on the track, whatever keys are held, the ball stays
      strictly within 2.1 of the centre line. */
  lemma {:induction false} LateralRunStaysOnTrack(x: real, run: seq<Keys>)
    requires OnTrack(x)
    ensures OnTrack(LateralRun(x, run))
    decreases run
  {
    if run != [] {
      LateralRunStaysOnTrack(LateralStep(x, run[0].left, run[0].right), run[1..]);
    }
  }
}
