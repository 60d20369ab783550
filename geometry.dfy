/** Positions in the game world and the distance-based collision test.
    Coordinates are exact reals: x is lateral, y is height, z runs along the
    track (obstacles come towards the player with increasing z). */
module Geometry {

  datatype Vec3 = Vec3(x: real, y: real, z: real)

  /** Width of the track (x) and length of one ground segment (z). */
  const TrackWidth: real := 5.0
  const TrackLength: real := 100.0

  /** Distance below which two objects collide. */
  const CollisionThreshold: real := 0.7

  function Abs(r: real): (a: real)
    ensures a >= 0.0 && (a == r || a == -r)
  {
    if r < 0.0 then -r else r
  }

  /** Squared Euclidean distance; the source takes the square root, the model
      compares squares instead. */
  function DistSq(a: Vec3, b: Vec3): (d: real)
    ensures d >= 0.0
    ensures d >= (a.z - b.z) * (a.z - b.z)
  {
    (a.x - b.x) * (a.x - b.x) + (a.y - b.y) * (a.y - b.y) + (a.z - b.z) * (a.z - b.z)
  }

  /** The collision test: distance strictly below the threshold. */
  predicate CheckCollision(a: Vec3, b: Vec3)
  {
    DistSq(a, b) < CollisionThreshold * CollisionThreshold
  }

  /** With d the (non-negative) Euclidean distance, the squared test is
      exactly the test `d < 0.7` of the source. */
  lemma CollisionIffDistance(a: Vec3, b: Vec3, d: real)
    requires d >= 0.0 && d * d == DistSq(a, b)
    ensures CheckCollision(a, b) <==> d < CollisionThreshold
  {
    var t := CollisionThreshold;
    var e := t - d;
    assert t * t - d * d == e * (t + d);
    if d < t {
      assert e * (t + d) > 0.0;
    } else {
      assert (-e) * (t + d) >= 0.0;
    }
  }

  /** An object at the same x and y as the ball collides exactly when its
      z is within 0.7 of the ball's. */
  lemma HeadOnCollision(ball: Vec3, z: real)
    ensures CheckCollision(ball, Vec3(ball.x, ball.y, z)) <==> -CollisionThreshold < z - ball.z < CollisionThreshold
  {
    var other := Vec3(ball.x, ball.y, z);
    var d := Abs(ball.z - z);
    assert d * d == DistSq(ball, other);
    CollisionIffDistance(ball, other, d);
  }

  /** Anything more than 10 units down the track from the ball cannot touch it. */
  lemma FarNeverCollides(ball: Vec3, p: Vec3)
    requires p.z - ball.z > 10.0
    ensures !CheckCollision(ball, p)
  {
    var dz := ball.z - p.z;
    assert dz * dz > 100.0 by {
      assert -dz > 10.0;
      assert (-dz) * (-dz) > 10.0 * (-dz) > 100.0;
    }
  }
}
