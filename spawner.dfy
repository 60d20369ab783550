/** Spawning: where obstacle waves and power-ups appear.

    Every `Math.random()` call the source makes is one element of a draw
    stream `rand` (each in [0, 1)), consumed in the source's order from a
    cursor; the draws that only choose a colour or a rotation are consumed
    and otherwise ignored. A stream that runs out before the spawn is done
    yields an incomplete result. */
module Spawner {
  import opened Geometry
  import opened Entities

  datatype Option<T> = None | Some(value: T)

  /** z at which timed waves and power-ups appear: -trackLength * 1.5. */
  const SpawnZ: real := -TrackLength * 1.5
  /** Draws per obstacle for colour (1), rotation (3) and rotation speed (3). */
  const CosmeticDraws: nat := 7

  /** The draws are what `Math.random()` returns. */
  predicate UnitDraws(rand: seq<real>)
  {
    forall k :: 0 <= k < |rand| ==> 0.0 <= rand[k] < 1.0
  }

  /** A lateral position from one draw: (r - 0.5) * trackWidth * 0.8. */
  function LaneX(r: real): (x: real)
    requires 0.0 <= r < 1.0
    ensures InLane(x)
  {
    (r - 0.5) * TrackWidth * 0.8
  }

  /** `obstacleTypes[Math.floor(r * 3)]`. */
  function KindOf(r: real): Kind
  {
    if r * 3.0 < 1.0 then Cube else if r * 3.0 < 2.0 then Cylinder else Sphere
  }

  /** A cylinder draws radius and height; a cube and a sphere one size. */
  function SizeDraws(k: Kind): nat
  {
    if k == Cylinder then 2 else 1
  }

  /** Height of the centre of an obstacle resting on the track:
      half the cube's edge, half the cylinder's height, the sphere's radius.
      `r` is the size draw, `r2` the cylinder's second (height) draw. */
  function RestHeight(k: Kind, r: real, r2: real): real
  {
    match k
    case Cube => (0.5 + r * 0.5) / 2.0
    case Cylinder => (0.8 + r2 * 0.8) / 2.0
    case Sphere => 0.3 + r * 0.3
  }

  /** The centre height an obstacle can have, by shape and lift:
      cube [0.25, 0.5), cylinder [0.4, 0.8), sphere [0.3, 0.6), each raised by
      [0.5, 1.0) when it requires a jump. */
  predicate HeightFits(o: Obstacle)
  {
    var lo := match o.kind case Cube => 0.25 case Cylinder => 0.4 case Sphere => 0.3;
    var hi := match o.kind case Cube => 0.5 case Cylinder => 0.8 case Sphere => 0.6;
    if o.requiresJump then lo + 0.5 <= o.pos.y < hi + 1.0 else lo <= o.pos.y < hi
  }

  /** An obstacle together with the cursor after its draws. */
  datatype Placed = Placed(obstacle: Obstacle, next: nat)

  /** One obstacle at (x, z), drawing from `rand` at `at`: shape, colour,
      size, rotation, rotation speed and, from level 2 on, a 30% chance of
      being lifted by 0.5 + r * 0.5. */
  function SingleObstacle(x: real, z: real, level: int, rand: seq<real>, at: nat): (r: Option<Placed>)
    requires UnitDraws(rand)
    ensures r.Some? ==> r.value.obstacle.pos.x == x && r.value.obstacle.pos.z == z
    ensures r.Some? ==> HeightFits(r.value.obstacle)
    ensures r.Some? && r.value.obstacle.requiresJump ==> level >= 2
    ensures r.Some? ==> at < r.value.next <= |rand| && r.value.next <= at + 12
    ensures r.Some? && level < 2 ==> r.value.next <= at + 10
    ensures at + 12 <= |rand| || (level < 2 && at + 10 <= |rand|) ==> r.Some?
  {
    if at >= |rand| then None
    else
      var kind := KindOf(rand[at]);
      var sizeAt := at + 2;  // after the shape and colour draws
      var shaped := at + 1 + SizeDraws(kind) + CosmeticDraws;
      if shaped > |rand| then None
      else
        var y := RestHeight(kind, rand[sizeAt], if kind == Cylinder then rand[sizeAt + 1] else 0.0);
        if level < 2 then
          Some(Placed(Obstacle(kind, Vec3(x, y, z), false), shaped))
        else if shaped >= |rand| then None
        else if rand[shaped] < 0.3 then
          if shaped + 1 >= |rand| then None
          else Some(Placed(Obstacle(kind, Vec3(x, y + 0.5 + rand[shaped + 1] * 0.5, z), true), shaped + 2))
        else
          Some(Placed(Obstacle(kind, Vec3(x, y, z), false), shaped + 1))
  }

  /** Largest wave at a level: 1 below level 3, 2 below level 5, else 3. */
  function MaxWaveSize(level: int): nat
  {
    if level >= 5 then 3 else if level >= 3 then 2 else 1
  }

  /** Lateral positions in a wave are pairwise at least 1 apart. */
  predicate Spaced(wave: seq<Obstacle>)
  {
    forall i, j :: 0 <= i < j < |wave| ==> Abs(wave[i].pos.x - wave[j].pos.x) >= 1.0
  }

  /** What every wave spawned at `z` on `level` satisfies. */
  predicate WaveFits(wave: seq<Obstacle>, level: int, z: real)
  {
    && |wave| <= MaxWaveSize(level)
    && Spaced(wave)
    && AllInLane(wave)
    && forall k :: 0 <= k < |wave| ==>
         wave[k].pos.z == z && HeightFits(wave[k]) && (wave[k].requiresJump ==> level >= 2)
  }

  /** `positions.some(pos => Math.abs(pos - x) < 1)`. */
  predicate TooClose(positions: seq<real>, x: real)
  {
    exists k :: 0 <= k < |positions| && Abs(positions[k] - x) < 1.0
  }

  /** One obstacle wave at z: draw the wave size by level, then for each
      obstacle redraw x until it is at least 1 from every earlier one, and
      build it. Returns the wave, the cursor after it and whether the stream
      sufficed. */
  method DrawWave(level: int, z: real, rand: seq<real>, start: nat)
    returns (wave: seq<Obstacle>, next: nat, complete: bool)
    requires UnitDraws(rand) && start <= |rand|
    ensures start <= next <= |rand|
    ensures WaveFits(wave, level, z)
    ensures complete ==> 1 <= |wave|
    ensures complete && 3 <= level < 5 ==> start < |rand| && (|wave| == 2 <==> rand[start] < 0.3)
    ensures complete && level >= 5 ==>
      && start + 1 < |rand|
      && (|wave| == 3 <==> rand[start + 1] < 0.2)
      && (|wave| == 2 <==> rand[start + 1] >= 0.2 && start + 2 < |rand| && rand[start + 2] < 0.5)
    ensures level < 2 && start + 11 <= |rand| ==> complete && |wave| == 1 && next <= start + 11
  {
    next, wave, complete := start, [], false;
    var count := 1;
    if level >= 3 {
      if next == |rand| { return; }
      count := if rand[next] < 0.3 then 2 else 1;
      next := next + 1;
    }
    if level >= 5 {
      if next == |rand| { return; }
      if rand[next] < 0.2 {
        count := 3;
        next := next + 1;
      } else {
        next := next + 1;
        if next == |rand| { return; }
        count := if rand[next] < 0.5 then 2 else 1;
        next := next + 1;
      }
    }
    var positions: seq<real> := [];
    for i := 0 to count
      invariant start <= next <= |rand|
      invariant |wave| == |positions| == i
      invariant forall k :: 0 <= k < i ==> wave[k].pos.x == positions[k]
      invariant Spaced(wave) && AllInLane(wave)
      invariant forall k :: 0 <= k < i ==>
        wave[k].pos.z == z && HeightFits(wave[k]) && (wave[k].requiresJump ==> level >= 2)
      invariant level < 2 && start + 11 <= |rand| ==> (i == 0 ==> next == start) && next <= start + 11
    {
      var x := 0.0;
      var placed := false;
      while !placed
        invariant start <= next <= |rand|
        invariant placed ==> InLane(x) && !TooClose(positions, x)
        invariant level < 2 && start + 11 <= |rand| ==> if placed then next == start + 1 else next == start
        decreases |rand| - next
      {
        if next == |rand| { return; }
        x := LaneX(rand[next]);
        next := next + 1;
        placed := !TooClose(positions, x);
      }
      positions := positions + [x];
      var made := SingleObstacle(x, z, level, rand, next);
      if made.None? { return; }
      wave := wave + [made.value.obstacle];
      next := made.value.next;
    }
    complete := true;
  }

  /** A power-up at a random lateral position, height 1, at the spawn z;
      `r` is its x draw (the remaining draws only set rotation and the
      floating phase). */
  function SpawnedPowerUp(r: real): (p: PowerUp)
    requires 0.0 <= r < 1.0
    ensures InLane(p.pos.x) && p.pos.y == 1.0 && p.pos.z == SpawnZ
  {
    PowerUp(Vec3(LaneX(r), 1.0, SpawnZ))
  }
}
