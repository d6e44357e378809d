/**
 * The overall game state: one ball, two players and the fixed boundary of
 * the court (screen width and ground height). A frame integrates the ball,
 * then reflects it off the walls, then off the ground; the players are not
 * touched by a frame.
 */
module GameModel {
  import opened BallModel
  import opened PlayerModel

  /** The value of a game: everything the `Game` object holds, apart from
      the sound handles. */
  datatype GameState = GameState(ball: BallState, player1: PlayerState, player2: PlayerState,
                                 width: real, groundHeight: real)
  {
    /** One frame of length `dt`. */
    function Update(dt: real): (r: GameState)
      ensures r.ball.y >= groundHeight
      ensures r.player1 == player1 && r.player2 == player2
      ensures r.width == width && r.groundHeight == groundHeight
      ensures r.ball.gravity == ball.gravity && Abs(r.ball.vx) == Abs(ball.vx)
    {
      this.(ball := ball.Integrate(dt).BounceOffWall(width).BounceOffGround(groundHeight))
    }

    /** The frames of lengths `dts`, one after the other. */
    function Run(dts: seq<real>): GameState
      decreases |dts|
    {
      if dts == [] then this else Update(dts[0]).Run(dts[1..])
    }
  }

  /** The layout a game starts from, for a screen of width `w` and a ground
      at height `gh`. */
  function Initial(w: real, gh: real): GameState
  {
    GameState(BallState(w / 2.0, gh + 10.0, 0.0, 0.0, 9.8),
              PlayerState(w / 4.0, gh + 10.0, 100.0),
              PlayerState(w * 3.0 / 4.0, gh + 10.0, 100.0),
              w, gh)
  }

  /** The starting layout: the ball hangs at rest at height `gh + 10`, ten
      units on the side of the ground where `y` grows, midway
      between the two players, who stand mirror-symmetric about the middle of
      the screen at the ball's height. */
  lemma InitialLayout(w: real, gh: real)
    ensures Initial(w, gh).ball.y > gh
    ensures Initial(w, gh).ball.vx == 0.0 && Initial(w, gh).ball.vy == 0.0
    ensures Initial(w, gh).ball.x
            == (Initial(w, gh).player1.x + Initial(w, gh).player2.x) / 2.0
    ensures Initial(w, gh).player1.x + Initial(w, gh).player2.x == w
    ensures Initial(w, gh).player1.y == Initial(w, gh).player2.y == Initial(w, gh).ball.y
    ensures w >= 0.0 ==> 0.0 <= Initial(w, gh).ball.x <= w
  {
  }

  /** What the fixed order of a frame means for the ball: the wall test sees
      the position after the step, the ground test sees the height after the
      step, and the ground bounce negates the vertical velocity that already
      includes this frame's gravity. */
  lemma UpdateBallClosedForm(g: GameState, dt: real)
    ensures g.Update(dt).ball.x == g.ball.x + g.ball.vx * dt
    ensures g.Update(dt).ball.vx
            == if g.ball.x + g.ball.vx * dt < 0.0 || g.ball.x + g.ball.vx * dt > g.width
               then -g.ball.vx else g.ball.vx
    ensures g.Update(dt).ball.y
            == if g.ball.y + g.ball.vy * dt < g.groundHeight
               then g.groundHeight else g.ball.y + g.ball.vy * dt
    ensures g.Update(dt).ball.vy
            == if g.ball.y + g.ball.vy * dt < g.groundHeight
               then -(g.ball.vy + g.ball.gravity * dt) else g.ball.vy + g.ball.gravity * dt
  {
    var stepped := g.ball.Integrate(dt);
    assert stepped == BallState(g.ball.x + g.ball.vx * dt, g.ball.y + g.ball.vy * dt,
                                g.ball.vx, g.ball.vy + g.ball.gravity * dt, g.ball.gravity);
    var walled := stepped.BounceOffWall(g.width);
    assert walled.x == stepped.x && walled.y == stepped.y && walled.vy == stepped.vy;
    assert g.Update(dt).ball == walled.BounceOffGround(g.groundHeight);
  }

  /** Running `a` and then `b` is running `a + b`. */
  lemma {:induction false} RunAppend(g: GameState, a: seq<real>, b: seq<real>)
    ensures g.Run(a + b) == g.Run(a).Run(b)
    decreases |a|
  {
    if a != [] {
      assert (a + b)[0] == a[0];
      assert (a + b)[1..] == a[1..] + b;
      RunAppend(g.Update(a[0]), a[1..], b);
    } else {
      assert a + b == b;
    }
  }

  /** The last frame of a run is one more `Update`. */
  lemma RunSnoc(g: GameState, dts: seq<real>, dt: real)
    ensures g.Run(dts + [dt]) == g.Run(dts).Update(dt)
  {
    RunAppend(g, dts, [dt]);
  }

  /** No sequence of frames moves a player, changes the court, changes the
      ball's gravity or the magnitude of its horizontal velocity. */
  lemma {:induction false} RunKeepsSetup(g: GameState, dts: seq<real>)
    ensures g.Run(dts).player1 == g.player1 && g.Run(dts).player2 == g.player2
    ensures g.Run(dts).width == g.width && g.Run(dts).groundHeight == g.groundHeight
    ensures g.Run(dts).ball.gravity == g.ball.gravity
    ensures Abs(g.Run(dts).ball.vx) == Abs(g.ball.vx)
    decreases |dts|
  {
    if dts != [] {
      RunKeepsSetup(g.Update(dts[0]), dts[1..]);
    }
  }

  /** After at least one frame the ball is never below the ground, and a
      ball that starts on or above the ground stays there. */
  lemma {:induction false} RunStaysAboveGround(g: GameState, dts: seq<real>)
    requires dts != [] || g.ball.y >= g.groundHeight
    ensures g.Run(dts).ball.y >= g.groundHeight
    decreases |dts|
  {
    if dts != [] {
      var h := g.Update(dts[0]);
      assert h.ball.y >= h.groundHeight && h.groundHeight == g.groundHeight;
      RunStaysAboveGround(h, dts[1..]);
    }
  }

  /** With `y` growing away from the ground, a ball on or above the ground
      that is not moving towards it, under a non-negative gravity and with
      non-negative frame lengths, only rises: its height and its vertical
      velocity never decrease, so the ground bounce never fires. The starting
      layout (`vy = 0`, gravity `9.8`) is such a ball. */
  lemma {:induction false} RisingBallNeverBounces(g: GameState, dts: seq<real>)
    requires g.ball.y >= g.groundHeight && g.ball.vy >= 0.0 && g.ball.gravity >= 0.0
    requires forall i :: 0 <= i < |dts| ==> dts[i] >= 0.0
    ensures g.Run(dts).ball.y >= g.ball.y && g.Run(dts).ball.vy >= g.ball.vy
    decreases |dts|
  {
    if dts != [] {
      var dt := dts[0];
      assert dt >= 0.0;
      assert g.ball.vy * dt >= 0.0 && g.ball.gravity * dt >= 0.0;
      var h := g.Update(dt);
      assert h.ball.y == g.ball.y + g.ball.vy * dt;
      assert h.ball.vy == g.ball.vy + g.ball.gravity * dt;
      assert forall i :: 0 <= i < |dts[1..]| ==> dts[1..][i] == dts[i + 1];
      RisingBallNeverBounces(h, dts[1..]);
    }
  }

  /** The `Game` object. The ball and the players are members of the game,
      never rebound; the sound handles of the source are not modelled. */
  class Game {
    const ball: Ball
    const player1: Player
    const player2: Player
    var width: real
    var groundHeight: real

    /** The two players are distinct objects, as the source's two value members are. */
    ghost predicate Valid()
      reads this
    {
      player1 != player2
    }

    function State(): GameState
      reads this, ball, player1, player2
    {
      GameState(ball.State(), player1.State(), player2.State(), width, groundHeight)
    }

    constructor (w: real, gh: real)
      ensures fresh(ball) && fresh(player1) && fresh(player2)
      ensures Valid() && player1 != player2
      ensures ball.x == w / 2.0 && ball.y == gh + 10.0
      ensures ball.vx == 0.0 && ball.vy == 0.0 && ball.gravity == 9.8
      ensures player1.x == w / 4.0 && player1.y == gh + 10.0 && player1.speed == 100.0
      ensures player2.x == w * 3.0 / 4.0 && player2.y == gh + 10.0 && player2.speed == 100.0
      ensures width == w && groundHeight == gh
      ensures State() == Initial(w, gh)
    {
      ball := new Ball(w / 2.0, gh + 10.0, 0.0, 0.0, 9.8);
      player1 := new Player(w / 4.0, gh + 10.0, 100.0);
      player2 := new Player(w * 3.0 / 4.0, gh + 10.0, 100.0);
      width := w;
      groundHeight := gh;
    }

    /** One frame: the ball's `Update`, `BounceOffWall(width)` and
        `BounceOffGround(groundHeight)`, in that order. */
    method Update(dt: real)
      modifies ball
      ensures State() == old(State()).Update(dt)
      ensures ball.y >= groundHeight
      ensures player1.State() == old(player1.State()) && player2.State() == old(player2.State())
      ensures width == old(width) && groundHeight == old(groundHeight)
    {
      ball.Update(dt);
      ball.BounceOffWall(width);
      ball.BounceOffGround(groundHeight);
    }
  }
}
