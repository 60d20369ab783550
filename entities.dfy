/** The things on the track: obstacles and power-ups, and how they move. */
module Entities {
  import opened Geometry

  /** The closed set of obstacle shapes. */
  datatype Kind = Cube | Cylinder | Sphere

  /** An obstacle: its shape, the position of its centre and whether it was
      lifted off the ground (a "requires jump" obstacle). */
  datatype Obstacle = Obstacle(kind: Kind, pos: Vec3, requiresJump: bool)

  /** A collectible power-up; only its position matters to the game. */
  datatype PowerUp = PowerUp(pos: Vec3)

  /** Beyond this z an object has passed the player and is removed. */
  const PassedZ: real := 10.0

  /** An obstacle one tick later: it comes `speed` closer along z. */
  function Advance(o: Obstacle, speed: real): Obstacle
  {
    o.(pos := o.pos.(z := o.pos.z + speed))
  }

  /** A power-up one tick later: `speed` closer along z, floating at `height`. */
  function Float(p: PowerUp, height: real, speed: real): PowerUp
  {
    PowerUp(Vec3(p.pos.x, height, p.pos.z + speed))
  }

  /** Lateral band in which every spawned object is placed. */
  predicate InLane(x: real)
  {
    -2.0 <= x < 2.0
  }

  predicate AllInLane(obs: seq<Obstacle>)
  {
    forall k :: 0 <= k < |obs| ==> InLane(obs[k].pos.x)
  }

  /** JavaScript's `Array.prototype.splice(i, 1)`: removes the element at
      index i, and does nothing when i is past the end. */
  function Splice<T>(s: seq<T>, i: nat): (r: seq<T>)
    ensures i >= |s| ==> r == s
  {
    if i < |s| then s[..i] + s[i + 1..] else s
  }

  /** The in-place step of a backward loop over `s`: in a list made of the
      prefix s[..j + 1] followed by `tail`, entry j is s[j]; overwriting it
      with y leaves s[..j], then y, then `tail`; splicing it out leaves
      s[..j] followed by `tail`. */
  lemma PrefixStep<T>(s: seq<T>, j: nat, tail: seq<T>, y: T)
    requires j < |s|
    ensures j < |s[..j + 1] + tail| && (s[..j + 1] + tail)[j] == s[j]
    ensures (s[..j + 1] + tail)[j := y] == s[..j] + ([y] + tail)
    ensures Splice((s[..j + 1] + tail)[j := y], j) == s[..j] + tail
  {
    var list := s[..j + 1] + tail;
    var moved := list[j := y];
    assert moved == s[..j] + ([y] + tail);
    assert moved[..j] == s[..j] && moved[j + 1..] == tail;
  }

  /** A list is its prefix followed by its suffix. */
  lemma SplitAt<T>(s: seq<T>, j: nat)
    requires j <= |s|
    ensures s[..j] + s[j..] == s
  {
  }
}
