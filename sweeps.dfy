/** What one tick does to the lists of obstacles and power-ups, to the
    power-up timer and to the track segments, as functions of the state
    before the tick. The Game class performs these updates in place. */
module Sweeps {
  import opened Geometry
  import opened Entities

  /** Result of advancing the obstacle list: the obstacles left, the
      avoidance bonus earned, and whether an unshielded collision ended the
      game. */
  datatype Sweep = Sweep(kept: seq<Obstacle>, bonus: nat, hit: bool)

  const AvoidBonus: nat := 10

  /** The obstacle update, visiting obstacles from the last to the first:
      each visited one moves `speed` closer, is dropped for +10 once past
      z = 10, and, unless shielded, ends the game when it touches the ball.
      The update stops at that collision, so everything before it in the
      list is left where it was. */
  function SweepObstacles(obs: seq<Obstacle>, speed: real, ball: Vec3, shielded: bool): (r: Sweep)
    ensures |r.kept| <= |obs|
    ensures r.bonus == AvoidBonus * (|obs| - |r.kept|)
    ensures shielded ==> !r.hit
    ensures AllInLane(obs) ==> AllInLane(r.kept)
    decreases |obs|
  {
    if obs == [] then Sweep([], 0, false)
    else
      var rest := SweepObstacles(obs[1..], speed, ball, shielded);
      if rest.hit then Sweep([obs[0]] + rest.kept, rest.bonus, true)
      else
        var o := Advance(obs[0], speed);
        var passed := o.pos.z > PassedZ;
        Sweep((if passed then [] else [o]) + rest.kept,
              rest.bonus + (if passed then AvoidBonus else 0),
              !shielded && CheckCollision(ball, o.pos))
  }

  /** One step of the sweep from index i, given no collision after it. */
  lemma SweepAt(obs: seq<Obstacle>, i: nat, speed: real, ball: Vec3, shielded: bool)
    requires i < |obs|
    requires !SweepObstacles(obs[i + 1..], speed, ball, shielded).hit
    ensures var after := SweepObstacles(obs[i + 1..], speed, ball, shielded);
      var o := Advance(obs[i], speed);
      var passed := o.pos.z > PassedZ;
      SweepObstacles(obs[i..], speed, ball, shielded)
        == Sweep((if passed then [] else [o]) + after.kept,
                 after.bonus + (if passed then AvoidBonus else 0),
                 !shielded && CheckCollision(ball, o.pos))
  {
    assert obs[i..][1..] == obs[i + 1..];
  }

  /** The loop step of the in-place obstacle update: when `list` holds the
      untouched prefix obs[..i] followed by the sweep of obs[i..], advancing
      entry i - 1 and splicing it out if it passed yields the untouched
      prefix obs[..i - 1] followed by the sweep of obs[i - 1..]; a collision
      there settles the sweep of the whole list. */
  lemma SweepLoopStep(obs: seq<Obstacle>, i: nat, list: seq<Obstacle>, speed: real, ball: Vec3, shielded: bool)
    requires 0 < i <= |obs|
    requires !SweepObstacles(obs[i..], speed, ball, shielded).hit
    requires list == obs[..i] + SweepObstacles(obs[i..], speed, ball, shielded).kept
    ensures i - 1 < |list| && list[i - 1] == obs[i - 1]
    ensures var o := Advance(obs[i - 1], speed);
      var moved := list[i - 1 := o];
      var now := if o.pos.z > PassedZ then Splice(moved, i - 1) else moved;
      var r := SweepObstacles(obs[i - 1..], speed, ball, shielded);
      && now == obs[..i - 1] + r.kept
      && r.bonus == SweepObstacles(obs[i..], speed, ball, shielded).bonus + (if o.pos.z > PassedZ then AvoidBonus else 0)
      && r.hit == (!shielded && CheckCollision(ball, o.pos))
      && (r.hit ==> SweepObstacles(obs, speed, ball, shielded) == Sweep(now, r.bonus, true))
  {
    var j := i - 1;
    var after := SweepObstacles(obs[i..], speed, ball, shielded);
    SweepAt(obs, j, speed, ball, shielded);
    var o := Advance(obs[j], speed);
    PrefixStep(obs, j, after.kept, o);
    var r := SweepObstacles(obs[j..], speed, ball, shielded);
    var now := if o.pos.z > PassedZ then Splice(list[j := o], j) else list[j := o];
    assert now == obs[..j] + r.kept;
    if r.hit {
      SweepHitFreezesPrefix(obs[..j], obs[j..], speed, ball, shielded);
      SplitAt(obs, j);
    }
  }

  /** The obstacle update exactly as the source's loop runs it, in place on
      `list`, from index i - 1 down to 0; it stops at a collision. */
  function SweepDown(list: seq<Obstacle>, i: nat, speed: real, ball: Vec3, shielded: bool): (r: Sweep)
    requires i <= |list|
    ensures |r.kept| <= |list|
    decreases i
  {
    if i == 0 then Sweep(list, 0, false)
    else
      var o := Advance(list[i - 1], speed);
      var passed := o.pos.z > PassedZ;
      var now := if passed then Splice(list[i - 1 := o], i - 1) else list[i - 1 := o];
      var gained := if passed then AvoidBonus else 0;
      if !shielded && CheckCollision(ball, o.pos) then Sweep(now, gained, true)
      else
        var rest := SweepDown(now, i - 1, speed, ball, shielded);
        Sweep(rest.kept, gained + rest.bonus, rest.hit)
  }

  /** One step of the loop as written. */
  lemma SweepDownUnfold(list: seq<Obstacle>, i: nat, speed: real, ball: Vec3, shielded: bool)
    requires 0 < i <= |list|
    ensures var o := Advance(list[i - 1], speed);
      var passed := o.pos.z > PassedZ;
      var now := if passed then Splice(list[i - 1 := o], i - 1) else list[i - 1 := o];
      var gained := if passed then AvoidBonus else 0;
      SweepDown(list, i, speed, ball, shielded)
        == if !shielded && CheckCollision(ball, o.pos) then Sweep(now, gained, true)
           else
             var rest := SweepDown(now, i - 1, speed, ball, shielded);
             Sweep(rest.kept, gained + rest.bonus, rest.hit)
  {
  }

  /** The in-place loop computes the front-to-back sweep: started on the
      untouched prefix obs[..i] followed by the sweep of obs[i..], it ends
      with the sweep of the whole list, earning the bonus still missing. */
  lemma {:induction false} SweepDownIsSweep(obs: seq<Obstacle>, i: nat, list: seq<Obstacle>, speed: real, ball: Vec3, shielded: bool)
    requires i <= |obs|
    requires !SweepObstacles(obs[i..], speed, ball, shielded).hit
    requires list == obs[..i] + SweepObstacles(obs[i..], speed, ball, shielded).kept
    ensures i <= |list|
    ensures var d := SweepDown(list, i, speed, ball, shielded);
      var r := SweepObstacles(obs, speed, ball, shielded);
      d.kept == r.kept && d.hit == r.hit && SweepObstacles(obs[i..], speed, ball, shielded).bonus + d.bonus == r.bonus
    decreases i
  {
    if i == 0 {
      assert obs[0..] == obs;
    } else {
      SweepLoopStep(obs, i, list, speed, ball, shielded);
      var o := Advance(list[i - 1], speed);
      var passed := o.pos.z > PassedZ;
      var now := if passed then Splice(list[i - 1 := o], i - 1) else list[i - 1 := o];
      var gained := if passed then AvoidBonus else 0;
      SweepDownUnfold(list, i, speed, ball, shielded);
      if !(!shielded && CheckCollision(ball, o.pos)) {
        SweepDownIsSweep(obs, i - 1, now, speed, ball, shielded);
      }
    }
  }

  /** The in-place loop run over a whole list is the front-to-back sweep. */
  lemma LoopMatchesSweep(obs: seq<Obstacle>, speed: real, ball: Vec3, shielded: bool)
    ensures SweepDown(obs, |obs|, speed, ball, shielded) == SweepObstacles(obs, speed, ball, shielded)
  {
    assert obs[..|obs|] == obs && obs[|obs|..] == [];
    SweepDownIsSweep(obs, |obs|, obs, speed, ball, shielded);
  }

  /** The obstacle loop of a tick, run in place on a copy of the list from
      the last entry to the first: each entry moves `speed` closer, is
      spliced out for +10 once past z = 10, and an unshielded collision stops
      the loop. It computes the front-to-back sweep. */
  method AdvanceObstacles(obs: seq<Obstacle>, speed: real, ball: Vec3, shielded: bool)
    returns (list: seq<Obstacle>, bonus: nat, hit: bool)
    ensures var r := SweepObstacles(obs, speed, ball, shielded);
      list == r.kept && bonus == r.bonus && hit == r.hit
  {
    ghost var total := SweepDown(obs, |obs|, speed, ball, shielded);
    LoopMatchesSweep(obs, speed, ball, shielded);
    list, bonus, hit := obs, 0, false;
    var i: nat := |list|;
    while i > 0
      invariant i <= |list|
      invariant SweepDown(list, i, speed, ball, shielded).kept == total.kept
      invariant SweepDown(list, i, speed, ball, shielded).hit == total.hit
      invariant bonus + SweepDown(list, i, speed, ball, shielded).bonus == total.bonus
    {
      i := i - 1;
      var o := Advance(list[i], speed);
      list := list[i := o];
      if o.pos.z > PassedZ {
        list := Splice(list, i);
        bonus := bonus + AvoidBonus;
      }
      if !shielded && CheckCollision(ball, o.pos) {
        hit := true;
        return;
      }
    }
  }

  /** Some obstacle, once advanced by `speed`, touches the ball. */
  predicate AnyCollides(obs: seq<Obstacle>, speed: real, ball: Vec3)
  {
    exists k :: 0 <= k < |obs| && CheckCollision(ball, Advance(obs[k], speed).pos)
  }

  /** The game ends in the obstacle update exactly when the ball is not
      shielded and some advanced obstacle is within 0.7 of it. */
  lemma {:induction false} SweepHitIff(obs: seq<Obstacle>, speed: real, ball: Vec3, shielded: bool)
    ensures SweepObstacles(obs, speed, ball, shielded).hit <==> !shielded && AnyCollides(obs, speed, ball)
    decreases |obs|
  {
    if obs != [] {
      SweepHitIff(obs[1..], speed, ball, shielded);
      if AnyCollides(obs[1..], speed, ball) {
        var k :| 0 <= k < |obs[1..]| && CheckCollision(ball, Advance(obs[1..][k], speed).pos);
        assert CheckCollision(ball, Advance(obs[k + 1], speed).pos);
      }
    }
  }

  /** The obstacles advanced by `speed` that have not passed z = 10, in
      their original order. */
  function Survivors(obs: seq<Obstacle>, speed: real): (s: seq<Obstacle>)
    ensures |s| <= |obs|
    ensures forall k :: 0 <= k < |s| ==> s[k].pos.z <= PassedZ
    decreases |obs|
  {
    if obs == [] then []
    else
      var o := Advance(obs[0], speed);
      (if o.pos.z > PassedZ then [] else [o]) + Survivors(obs[1..], speed)
  }

  /** Without a collision, every obstacle moves and the list becomes exactly
      the survivors, in order; the bonus is 10 per obstacle removed. */
  lemma {:induction false} SweepWithoutHit(obs: seq<Obstacle>, speed: real, ball: Vec3, shielded: bool)
    requires !SweepObstacles(obs, speed, ball, shielded).hit
    ensures SweepObstacles(obs, speed, ball, shielded).kept == Survivors(obs, speed)
    decreases |obs|
  {
    if obs != [] {
      var rest := SweepObstacles(obs[1..], speed, ball, shielded);
      assert !rest.hit;
      SweepWithoutHit(obs[1..], speed, ball, shielded);
    }
  }

  /** A collision found in a tail of the list freezes everything before it:
      the head is kept as it was, unmoved and unscored. */
  lemma {:induction false} SweepHitFreezesPrefix(front: seq<Obstacle>, back: seq<Obstacle>, speed: real, ball: Vec3, shielded: bool)
    requires SweepObstacles(back, speed, ball, shielded).hit
    ensures var b := SweepObstacles(back, speed, ball, shielded);
      SweepObstacles(front + back, speed, ball, shielded) == Sweep(front + b.kept, b.bonus, true)
    decreases |front|
  {
    var b := SweepObstacles(back, speed, ball, shielded);
    if front == [] {
      assert front + back == back && front + b.kept == b.kept;
    } else {
      var all := front + back;
      assert all[0] == front[0] && all[1..] == front[1..] + back;
      SweepHitFreezesPrefix(front[1..], back, speed, ball, shielded);
      var rest := SweepObstacles(all[1..], speed, ball, shielded);
      assert rest == Sweep(front[1..] + b.kept, b.bonus, true);
      assert SweepObstacles(all, speed, ball, shielded) == Sweep([all[0]] + rest.kept, rest.bonus, true);
      assert [front[0]] + (front[1..] + b.kept) == front + b.kept;
    }
  }

  /** Result of advancing the power-up list: the power-ups left and how many
      were picked up. */
  datatype Collect = Collect(kept: seq<PowerUp>, pickups: nat)

  /** The power-up update, last to first: each one moves `speed` closer and
      floats at its height for this tick; it is dropped once past z = 10,
      and picked up (and dropped) when it touches the ball. */
  function CollectPowerUps(ps: seq<PowerUp>, heights: seq<real>, speed: real, ball: Vec3): (r: Collect)
    requires |heights| == |ps|
    ensures |r.kept| + r.pickups <= |ps|
    ensures forall k :: 0 <= k < |r.kept| ==> r.kept[k].pos.z <= PassedZ && !CheckCollision(ball, r.kept[k].pos)
    decreases |ps|
  {
    if ps == [] then Collect([], 0)
    else
      var rest := CollectPowerUps(ps[1..], heights[1..], speed, ball);
      var p := Float(ps[0], heights[0], speed);
      var taken := CheckCollision(ball, p.pos);
      Collect((if p.pos.z > PassedZ || taken then [] else [p]) + rest.kept,
              rest.pickups + (if taken then 1 else 0))
  }

  /** One step of the power-up update from index i. */
  lemma CollectAt(ps: seq<PowerUp>, heights: seq<real>, i: nat, speed: real, ball: Vec3)
    requires |heights| == |ps| && i < |ps|
    ensures var after := CollectPowerUps(ps[i + 1..], heights[i + 1..], speed, ball);
      var p := Float(ps[i], heights[i], speed);
      var taken := CheckCollision(ball, p.pos);
      CollectPowerUps(ps[i..], heights[i..], speed, ball)
        == Collect((if p.pos.z > PassedZ || taken then [] else [p]) + after.kept,
                   after.pickups + (if taken then 1 else 0))
  {
    assert ps[i..][1..] == ps[i + 1..] && heights[i..][1..] == heights[i + 1..];
  }

  /** The loop step of the in-place power-up update, as for obstacles: the
      entry at i - 1 is moved and spliced out when it passed or touches the
      ball. Both cannot hold at once, since the ball sits at z = 0, so the
      source's two splices never remove two entries in one step. */
  lemma CollectLoopStep(ps: seq<PowerUp>, heights: seq<real>, i: nat, list: seq<PowerUp>, speed: real, ball: Vec3)
    requires |heights| == |ps| && 0 < i <= |ps| && ball.z == 0.0
    requires list == ps[..i] + CollectPowerUps(ps[i..], heights[i..], speed, ball).kept
    ensures i - 1 < |list| && list[i - 1] == ps[i - 1]
    ensures var p := Float(ps[i - 1], heights[i - 1], speed);
      var passed := p.pos.z > PassedZ;
      var taken := CheckCollision(ball, p.pos);
      var moved := list[i - 1 := p];
      var now := if passed || taken then Splice(moved, i - 1) else moved;
      var r := CollectPowerUps(ps[i - 1..], heights[i - 1..], speed, ball);
      && !(passed && taken)
      && now == ps[..i - 1] + r.kept
      && r.pickups == CollectPowerUps(ps[i..], heights[i..], speed, ball).pickups + (if taken then 1 else 0)
  {
    var j := i - 1;
    var after := CollectPowerUps(ps[i..], heights[i..], speed, ball);
    CollectAt(ps, heights, j, speed, ball);
    var p := Float(ps[j], heights[j], speed);
    PrefixStep(ps, j, after.kept, p);
    if p.pos.z > PassedZ {
      FarNeverCollides(ball, p.pos);
    }
  }

  /** The power-up update exactly as the source's loop runs it, in place on
      `list`, from index i - 1 down to 0: the entry is moved, spliced out
      once past z = 10, and spliced out again, as a pickup, when it touches
      the ball. Were both to happen, the second splice would remove the
      neighbouring entry that moved into index i - 1 (or nothing, when the
      entry was the last one); `CollectLoopStep` shows that it never
      happens. Every pickup removes at least one entry. The `i - 1 > |now|`
      branch is never taken, since the list keeps at least i - 1 entries; it
      only makes the bound of the recursive call evident. */
  function CollectDown(list: seq<PowerUp>, heights: seq<real>, i: nat, speed: real, ball: Vec3): (r: Collect)
    requires i <= |list| && i <= |heights|
    ensures |r.kept| + r.pickups <= |list|
    decreases i
  {
    if i == 0 then Collect(list, 0)
    else
      var p := Float(list[i - 1], heights[i - 1], speed);
      var taken := CheckCollision(ball, p.pos);
      var moved := list[i - 1 := p];
      var kept := if p.pos.z > PassedZ then Splice(moved, i - 1) else moved;
      var now := if taken then Splice(kept, i - 1) else kept;
      if i - 1 > |now| then Collect(now, 0)
      else
        var rest := CollectDown(now, heights, i - 1, speed, ball);
        Collect(rest.kept, rest.pickups + (if taken then 1 else 0))
  }

  /** One step of the loop as written. */
  lemma CollectDownUnfold(list: seq<PowerUp>, heights: seq<real>, i: nat, speed: real, ball: Vec3)
    requires 0 < i <= |list| && i <= |heights|
    ensures var p := Float(list[i - 1], heights[i - 1], speed);
      var taken := CheckCollision(ball, p.pos);
      var moved := list[i - 1 := p];
      var kept := if p.pos.z > PassedZ then Splice(moved, i - 1) else moved;
      var now := if taken then Splice(kept, i - 1) else kept;
      CollectDown(list, heights, i, speed, ball)
        == if i - 1 > |now| then Collect(now, 0)
           else
             var rest := CollectDown(now, heights, i - 1, speed, ball);
             Collect(rest.kept, rest.pickups + (if taken then 1 else 0))
  {
  }

  /** The in-place loop computes the front-to-back collection, started on
      the untouched prefix ps[..i] followed by the collection of ps[i..]. */
  lemma {:induction false} CollectDownIsCollect(ps: seq<PowerUp>, heights: seq<real>, i: nat, list: seq<PowerUp>, speed: real, ball: Vec3)
    requires |heights| == |ps| && i <= |ps| && ball.z == 0.0
    requires list == ps[..i] + CollectPowerUps(ps[i..], heights[i..], speed, ball).kept
    ensures i <= |list|
    ensures var d := CollectDown(list, heights, i, speed, ball);
      var r := CollectPowerUps(ps, heights, speed, ball);
      d.kept == r.kept && CollectPowerUps(ps[i..], heights[i..], speed, ball).pickups + d.pickups == r.pickups
    decreases i
  {
    if i == 0 {
      assert ps[0..] == ps && heights[0..] == heights;
    } else {
      CollectLoopStep(ps, heights, i, list, speed, ball);
      var p := Float(list[i - 1], heights[i - 1], speed);
      var taken := CheckCollision(ball, p.pos);
      var moved := list[i - 1 := p];
      var kept := if p.pos.z > PassedZ then Splice(moved, i - 1) else moved;
      var now := if taken then Splice(kept, i - 1) else kept;
      CollectDownUnfold(list, heights, i, speed, ball);
      CollectDownIsCollect(ps, heights, i - 1, now, speed, ball);
    }
  }

  /** The power-up loop of a tick, run in place on a copy of the list from
      the last entry to the first; it computes the front-to-back collection. */
  method CollectInPlace(ps: seq<PowerUp>, heights: seq<real>, speed: real, ball: Vec3)
    returns (list: seq<PowerUp>, pickups: nat)
    requires |heights| == |ps| && ball.z == 0.0
    ensures var r := CollectPowerUps(ps, heights, speed, ball);
      list == r.kept && pickups == r.pickups
  {
    ghost var total := CollectDown(ps, heights, |ps|, speed, ball);
    assert ps[..|ps|] == ps && ps[|ps|..] == [] && heights[|ps|..] == [];
    CollectDownIsCollect(ps, heights, |ps|, ps, speed, ball);
    list, pickups := ps, 0;
    var i: nat := |list|;
    while i > 0
      invariant i <= |list| && i <= |heights|
      invariant CollectDown(list, heights, i, speed, ball).kept == total.kept
      invariant pickups + CollectDown(list, heights, i, speed, ball).pickups == total.pickups
    {
      i := i - 1;
      var p := Float(list[i], heights[i], speed);
      list := list[i := p];
      if p.pos.z > PassedZ {
        list := Splice(list, i);
      }
      if CheckCollision(ball, p.pos) {
        pickups := pickups + 1;
        list := Splice(list, i);
      }
    }
  }

  /** Some power-up, once moved, touches the ball. */
  predicate AnyPickup(ps: seq<PowerUp>, heights: seq<real>, speed: real, ball: Vec3)
    requires |heights| == |ps|
  {
    exists k :: 0 <= k < |ps| && CheckCollision(ball, Float(ps[k], heights[k], speed).pos)
  }

  /** A power-up is picked up in a tick exactly when one touches the ball. */
  lemma {:induction false} PickupIff(ps: seq<PowerUp>, heights: seq<real>, speed: real, ball: Vec3)
    requires |heights| == |ps|
    ensures CollectPowerUps(ps, heights, speed, ball).pickups > 0 <==> AnyPickup(ps, heights, speed, ball)
    decreases |ps|
  {
    if ps != [] {
      PickupIff(ps[1..], heights[1..], speed, ball);
      if AnyPickup(ps[1..], heights[1..], speed, ball) {
        var k :| 0 <= k < |ps[1..]| && CheckCollision(ball, Float(ps[1..][k], heights[1..][k], speed).pos);
        assert CheckCollision(ball, Float(ps[k + 1], heights[k + 1], speed).pos);
      }
    }
  }

  /** The power-ups still on the track after a tick, in their original
      order: each one moved and floated, kept when it has not passed z = 10
      and does not touch the ball. */
  function Uncollected(ps: seq<PowerUp>, heights: seq<real>, speed: real, ball: Vec3): seq<PowerUp>
    requires |heights| == |ps|
    decreases |ps|
  {
    if ps == [] then []
    else
      var p := Float(ps[0], heights[0], speed);
      (if p.pos.z <= PassedZ && !CheckCollision(ball, p.pos) then [p] else [])
        + Uncollected(ps[1..], heights[1..], speed, ball)
  }

  /** How many power-ups, once moved, touch the ball. */
  function Touching(ps: seq<PowerUp>, heights: seq<real>, speed: real, ball: Vec3): nat
    requires |heights| == |ps|
    decreases |ps|
  {
    if ps == [] then 0
    else
      (if CheckCollision(ball, Float(ps[0], heights[0], speed).pos) then 1 else 0)
        + Touching(ps[1..], heights[1..], speed, ball)
  }

  /** The power-up update keeps exactly the moved power-ups that neither
      passed nor touch the ball, in order, and counts one pickup for every
      power-up that touches it. */
  lemma {:induction false} CollectIsFilter(ps: seq<PowerUp>, heights: seq<real>, speed: real, ball: Vec3)
    requires |heights| == |ps|
    ensures CollectPowerUps(ps, heights, speed, ball).kept == Uncollected(ps, heights, speed, ball)
    ensures CollectPowerUps(ps, heights, speed, ball).pickups == Touching(ps, heights, speed, ball)
    decreases |ps|
  {
    if ps != [] {
      CollectIsFilter(ps[1..], heights[1..], speed, ball);
    }
  }

  /** The power-up state: active flag and remaining time (ms). */
  datatype Shield = Shield(active: bool, time: int)

  const PowerUpDuration: int := 5000
  /** Milliseconds taken off the power-up timer per tick. */
  const FrameMillis: int := 16
  const PickupBonus: nat := 50

  /** The power-up timer after a tick with `pickups` pickups: any pickup
      resets the time to the full duration, then an active shield loses 16 ms
      and switches off once the time is used up. */
  function ShieldStep(s: Shield, pickups: nat): (r: Shield)
    ensures pickups > 0 ==> r == Shield(true, PowerUpDuration - FrameMillis)
    ensures !s.active && pickups == 0 ==> r == s
    ensures s.active && pickups == 0 ==> r.time == s.time - FrameMillis && (r.active <==> r.time > 0)
  {
    var picked := if pickups > 0 then Shield(true, PowerUpDuration) else s;
    if !picked.active then picked
    else if picked.time - FrameMillis <= 0 then Shield(false, picked.time - FrameMillis)
    else Shield(true, picked.time - FrameMillis)
  }

  /** The shield after `m` further ticks without a pickup. */
  function ShieldAfter(s: Shield, m: nat): Shield
  {
    if m == 0 then s else ShieldStep(ShieldAfter(s, m - 1), 0)
  }

  /** After a pickup the ball stays shielded for the obstacle updates of the
      next 312 ticks (the timer reads 4984 - 16m after m more ticks) and is
      unshielded from the 312th on. */
  lemma {:induction false} ShieldLasts(m: nat)
    requires m <= 312
    ensures var s := ShieldAfter(Shield(true, PowerUpDuration - FrameMillis), m);
      s.time == PowerUpDuration - FrameMillis - FrameMillis * m && (s.active <==> m < 312)
  {
    if m > 0 {
      ShieldLasts(m - 1);
    }
  }

  /** Track segments: three ground tiles recycled 300 behind once they pass 50. */
  const SegmentLength: real := TrackLength

  /** One segment's z after a tick: it moves `speed` closer and, past half a
      segment length, jumps back by the length of all `count` segments. */
  function Recycle(z: real, speed: real, count: nat): real
  {
    var moved := z + speed;
    if moved > SegmentLength / 2.0 then moved - SegmentLength * (count as real) else moved
  }

  /** Every segment recycled, in order. */
  function RecycleAll(g: seq<real>, speed: real): seq<real>
  {
    seq(|g|, k requires 0 <= k < |g| => Recycle(g[k], speed, |g|))
  }

  /** Two segment positions a whole number (1 or 2) of segment lengths apart. */
  predicate Apart(a: real, b: real)
  {
    var d := a - b;
    d == SegmentLength || d == -SegmentLength || d == 2.0 * SegmentLength || d == -2.0 * SegmentLength
  }

  /** The three segments sit end to end, the front one in (-50, 50]: they
      cover [front - 250, front + 50] with no gap. */
  predicate Tiled(g: seq<real>)
  {
    && |g| == 3
    && Apart(g[0], g[1]) && Apart(g[1], g[2]) && Apart(g[0], g[2])
    && forall k :: 0 <= k < 3 ==> -2.5 * SegmentLength < g[k] <= SegmentLength / 2.0
  }

  /** The starting layout z = 0, -100, -200 is tiled. */
  lemma InitialTiled()
    ensures Tiled([0.0, -SegmentLength, -2.0 * SegmentLength])
  {
  }

  /** Recycling keeps the track tiled for any forward speed up to one
      segment length per tick. */
  lemma RecycleKeepsTiled(g: seq<real>, speed: real)
    requires Tiled(g) && 0.0 <= speed <= SegmentLength
    ensures Tiled(RecycleAll(g, speed))
  {
    var r := RecycleAll(g, speed);
    assert r[0] == Recycle(g[0], speed, 3) && r[1] == Recycle(g[1], speed, 3) && r[2] == Recycle(g[2], speed, 3);
  }
}
