/**
 * The shuttlecock of the badminton simulation: a point with a position, a
 * velocity and a constant gravitational acceleration, advanced by one
 * semi-implicit Euler step per frame and reflected off the side walls and
 * the ground.
 *
 * Numbers are exact reals standing in for the source's `float`.
 */
module BallModel {

  function Abs(r: real): real {
    if r < 0.0 then -r else r
  }

  /** The value of a ball: everything the `Ball` object holds. */
  datatype BallState = BallState(x: real, y: real, vx: real, vy: real, gravity: real)
  {
    /** One integration step: the position moves with the velocity from
        before the step, then the vertical velocity picks up gravity. */
    function Integrate(dt: real): (r: BallState)
      ensures r.vx == vx && r.gravity == gravity
    {
      BallState(x + vx * dt, y + vy * dt, vx, vy + gravity * dt, gravity)
    }

    /** Reflection off the side walls: outside [0, width] the horizontal
        velocity is negated; the position is never clamped. */
    function BounceOffWall(width: real): (r: BallState)
      ensures r.x == x && r.y == y && r.vy == vy && r.gravity == gravity
      ensures Abs(r.vx) == Abs(vx)
    {
      if x < 0.0 || x > width then this.(vx := -vx) else this
    }

    /** Reflection off the ground: below the ground the ball is put back on
        it and the vertical velocity is negated. */
    function BounceOffGround(groundHeight: real): (r: BallState)
      ensures r.y >= groundHeight
      ensures r.x == x && r.vx == vx && r.gravity == gravity
      ensures Abs(r.vy) == Abs(vy)
    {
      if y < groundHeight then this.(y := groundHeight, vy := -vy) else this
    }
  }

  /** A step of length zero changes nothing. */
  lemma IntegrateZero(b: BallState)
    ensures b.Integrate(0.0) == b
  {
  }

  /** Semi-implicit Euler is not additive in the time step: splitting a step
      in two moves the ball further by `gravity * t1 * t2` vertically, because
      the second half already uses the velocity gained in the first. */
  lemma IntegrateSplit(b: BallState, t1: real, t2: real)
    ensures b.Integrate(t1).Integrate(t2)
            == b.Integrate(t1 + t2).(y := b.Integrate(t1 + t2).y + b.gravity * t1 * t2)
  {
    var two, one := b.Integrate(t1).Integrate(t2), b.Integrate(t1 + t2);
    assert two.x == one.x by {
      assert b.vx * (t1 + t2) == b.vx * t1 + b.vx * t2;
    }
    assert two.y == one.y + b.gravity * t1 * t2 by {
      assert b.vy * (t1 + t2) == b.vy * t1 + b.vy * t2;
      assert (b.vy + b.gravity * t1) * t2 == b.vy * t2 + b.gravity * t1 * t2;
    }
    calc {
      two.vy;
      (b.vy + b.gravity * t1) + b.gravity * t2;
      { assert b.gravity * (t1 + t2) == b.gravity * t1 + b.gravity * t2; }
      b.vy + b.gravity * (t1 + t2);
      one.vy;
    }
  }

  /** The ground bounce is idempotent. */
  lemma BounceOffGroundIdempotent(b: BallState, groundHeight: real)
    ensures b.BounceOffGround(groundHeight).BounceOffGround(groundHeight)
            == b.BounceOffGround(groundHeight)
  {
  }

  /** The ground bounce leaves a ball alone exactly when it is not below the ground. */
  lemma BounceOffGroundFixedPoint(b: BallState, groundHeight: real)
    ensures b.BounceOffGround(groundHeight) == b <==> b.y >= groundHeight
  {
  }

  /** Two wall bounces in a row with the same width undo each other: the
      position is not clamped, so the second sees the same side as the first. */
  lemma BounceOffWallInvolution(b: BallState, width: real)
    ensures b.BounceOffWall(width).BounceOffWall(width) == b
  {
  }

  /** The wall bounce changes the ball exactly when the ball is outside
      [0, width] and moving horizontally. */
  lemma BounceOffWallFixedPoint(b: BallState, width: real)
    ensures b.BounceOffWall(width) == b <==> (0.0 <= b.x <= width || b.vx == 0.0)
  {
  }

  /** The `Ball` object: the fields the source updates in place. */
  class Ball {
    var x: real
    var y: real
    var vx: real
    var vy: real
    var gravity: real

    function State(): BallState
      reads this
    {
      BallState(x, y, vx, vy, gravity)
    }

    constructor (x0: real, y0: real, vx0: real, vy0: real, g: real)
      ensures x == x0 && y == y0 && vx == vx0 && vy == vy0 && gravity == g
    {
      x, y, vx, vy, gravity := x0, y0, vx0, vy0, g;
    }

    /** One semi-implicit Euler step of length `dt` (any sign is accepted). */
    method Update(dt: real)
      modifies this
      ensures x == old(x) + old(vx) * dt
      ensures y == old(y) + old(vy) * dt
      ensures vy == old(vy) + old(gravity) * dt
      ensures vx == old(vx) && gravity == old(gravity)
      ensures State() == old(State()).Integrate(dt)
    {
      x := x + vx * dt;
      y := y + vy * dt;
      vy := vy + gravity * dt;
    }

    method BounceOffWall(width: real)
      modifies this
      ensures old(x) < 0.0 || old(x) > width ==> vx == -old(vx)
      ensures 0.0 <= old(x) <= width ==> vx == old(vx)
      ensures x == old(x) && y == old(y) && vy == old(vy) && gravity == old(gravity)
      ensures State() == old(State()).BounceOffWall(width)
    {
      if x < 0.0 || x > width {
        vx := -vx;
      }
    }

    method BounceOffGround(groundHeight: real)
      modifies this
      ensures old(y) < groundHeight ==> y == groundHeight && vy == -old(vy)
      ensures old(y) >= groundHeight ==> y == old(y) && vy == old(vy)
      ensures x == old(x) && vx == old(vx) && gravity == old(gravity)
      ensures y >= groundHeight
      ensures State() == old(State()).BounceOffGround(groundHeight)
    {
      if y < groundHeight {
        y := groundHeight;
        vy := -vy;
      }
    }

    method GetX() returns (r: real)
      ensures r == x
    {
      r := x;
    }

    method GetY() returns (r: real)
      ensures r == y
    {
      r := y;
    }
  }
}
