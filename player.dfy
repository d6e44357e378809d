/**
 * A player avatar: a position and a fixed speed. Moves change the position
 * immediately; there is no velocity, no gravity and no boundary clamping.
 */
module PlayerModel {

  /** The value of a player: everything the `Player` object holds. */
  datatype PlayerState = PlayerState(x: real, y: real, speed: real)
  {
    function MoveLeft(dt: real): (r: PlayerState)
      ensures r.y == y && r.speed == speed
      ensures speed * dt >= 0.0 ==> r.x <= x
    {
      this.(x := x - speed * dt)
    }

    function MoveRight(dt: real): (r: PlayerState)
      ensures r.y == y && r.speed == speed
      ensures speed * dt >= 0.0 ==> r.x >= x
    {
      this.(x := x + speed * dt)
    }

    /** The placeholder jump: an instant vertical offset, not an arc. */
    function Jump(vy0: real): (r: PlayerState)
      ensures r.x == x && r.speed == speed
    {
      this.(y := y + vy0)
    }
  }

  /** Moving left for `dt` undoes moving right for `dt`, and the other way round. */
  lemma MovesCancel(p: PlayerState, dt: real)
    ensures p.MoveRight(dt).MoveLeft(dt) == p
    ensures p.MoveLeft(dt).MoveRight(dt) == p
  {
  }

  /** Two moves to the right add up to one move for the summed time. */
  lemma MoveRightAdditive(p: PlayerState, t1: real, t2: real)
    ensures p.MoveRight(t1).MoveRight(t2) == p.MoveRight(t1 + t2)
  {
    assert p.speed * (t1 + t2) == p.speed * t1 + p.speed * t2;
  }

  /** Moving left is moving right for the negated time. */
  lemma MoveLeftIsNegatedRight(p: PlayerState, dt: real)
    ensures p.MoveLeft(dt) == p.MoveRight(-dt)
  {
  }

  /** Two jumps add up, and a jump by `-v` undoes a jump by `v`. */
  lemma JumpsCompose(p: PlayerState, v1: real, v2: real)
    ensures p.Jump(v1).Jump(v2) == p.Jump(v1 + v2)
    ensures p.Jump(v1).Jump(-v1) == p
  {
  }

  /** The `Player` object: the fields the source updates in place. */
  class Player {
    var x: real
    var y: real
    var speed: real

    function State(): PlayerState
      reads this
    {
      PlayerState(x, y, speed)
    }

    constructor (x0: real, y0: real, s: real)
      ensures x == x0 && y == y0 && speed == s
    {
      x, y, speed := x0, y0, s;
    }

    method MoveLeft(dt: real)
      modifies this
      ensures x == old(x) - old(speed) * dt
      ensures y == old(y) && speed == old(speed)
      ensures State() == old(State()).MoveLeft(dt)
    {
      x := x - speed * dt;
    }

    method MoveRight(dt: real)
      modifies this
      ensures x == old(x) + old(speed) * dt
      ensures y == old(y) && speed == old(speed)
      ensures State() == old(State()).MoveRight(dt)
    {
      x := x + speed * dt;
    }

    method Jump(vy0: real)
      modifies this
      ensures y == old(y) + vy0
      ensures x == old(x) && speed == old(speed)
      ensures State() == old(State()).Jump(vy0)
    {
      y := y + vy0;
    }

    method GetX() returns (r: real)
      ensures r == x
    {
      r := x;
    }

    method GetY() returns (r: real)
      ensures r == y
    {
      r := y;
    }
  }
}
