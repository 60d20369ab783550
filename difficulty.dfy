/** Difficulty progression: what each level-up changes, as functions of the
    level reached. */
module Difficulty {

  const InitialBaseSpeed: real := 0.2
  const InitialMaxSpeed: real := 0.5
  const BaseSpeedStep: real := 0.02
  const MaxSpeedStep: real := 0.05
  /** Milliseconds between obstacle waves at level 1. */
  const InitialSpawnInterval: int := 2000
  const MinSpawnInterval: int := 500

  /** The obstacle spawn interval (ms) after reaching `level`:
      max(500, 2000 - (level - 1) * 200). */
  function SpawnInterval(level: int): (ms: int)
    ensures MinSpawnInterval <= ms
    ensures level >= 1 ==> ms <= InitialSpawnInterval
    ensures level == 1 ==> ms == InitialSpawnInterval
    ensures ms == MinSpawnInterval <==> level >= 9
  {
    var shortened := InitialSpawnInterval - (level - 1) * 200;
    if shortened > MinSpawnInterval then shortened else MinSpawnInterval
  }

  /** A higher level never spawns waves less often. */
  lemma SpawnIntervalNonIncreasing(lo: int, hi: int)
    requires lo <= hi
    ensures SpawnInterval(hi) <= SpawnInterval(lo)
  {
  }

  /** Base speed after `level - 1` level-ups: 0.2 + 0.02 per level-up. */
  function BaseSpeedAt(level: int): (s: real)
    ensures level >= 1 ==> s >= InitialBaseSpeed
  {
    InitialBaseSpeed + BaseSpeedStep * ((level - 1) as real)
  }

  /** Maximum speed after `level - 1` level-ups: 0.5 + 0.05 per level-up. */
  function MaxSpeedAt(level: int): (s: real)
    ensures level >= 1 ==> s >= InitialMaxSpeed
    ensures level >= 1 ==> s > BaseSpeedAt(level)
  {
    InitialMaxSpeed + MaxSpeedStep * ((level - 1) as real)
  }
}
