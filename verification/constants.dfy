/** The compile-time constants of the physics demo, after macro expansion.
    Every operand below is non-negative, so C's truncating integer division
    and Dafny's Euclidean division give the same quotients. */
module Constants {

  const ScreenWidth: int := 720
  const ScreenHeight: int := 720

  /** CIRCLE_WINDOW_RADIUS expands to `SCREEN_HEIGHT / 2`. */
  const CircleWindowRadius: int := ScreenHeight / 2

  /** BALL_RADIUS expands to `SCREEN_HEIGHT / 2 / 50`: two integer divisions,
      so the radius is 7, not 7.2. */
  const BallRadius: int := ScreenHeight / 2 / 50

  /** Capacity of the ball pool. */
  const MaxBalls: int := 2048

  /** The spread `n` of the random horizontal velocities. */
  const N: int := 1000

  /** The collision test of the step: `distance + BALL_RADIUS >= CIRCLE_WINDOW_RADIUS`,
      the integer macro values being converted to float. */
  predicate Collides(distance: real): (hit: bool)
    ensures hit <==> distance >= (CircleWindowRadius - BallRadius) as real
  {
    distance + BallRadius as real >= CircleWindowRadius as real
  }

  /** The macros evaluate in integer arithmetic: the ball radius is the
      truncated quotient of 360 by 50. */
  lemma MacroValues()
    ensures CircleWindowRadius == 360 && BallRadius == 7
    ensures BallRadius * 50 < CircleWindowRadius < (BallRadius + 1) * 50
  {
  }

  /** With a radius of 7 the wall is hit at distance 353 from the centre,
      so a ball at the centre is far from colliding. */
  lemma CollisionThreshold(distance: real)
    ensures Collides(distance) <==> distance >= 353.0
    ensures !Collides(0.0)
  {
  }

  /** The reflection divides by the distance only under the wall test, which
      keeps the distance at 353 or more: the divisor is never zero. */
  lemma GuardExcludesCentre(distance: real)
    requires Collides(distance)
    ensures distance >= 353.0 && distance != 0.0
  {
    CollisionThreshold(distance);
  }
}
