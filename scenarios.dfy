/**
 * Clients of the three classes: what a caller can conclude from their
 * contracts alone on a few concrete situations.
 */
module Scenarios {
  import opened BallModel
  import opened GameModel

  /** A ball at rest at height 60 under gravity 9.8: after a step of one
      second it is still at height 60 and falls at 9.8. */
  method FirstStepKeepsHeight() {
    var b := new Ball(400.0, 60.0, 0.0, 0.0, 9.8);
    b.Update(1.0);
    var y := b.GetY();
    assert y == 60.0 && b.vy == 9.8;
  }

  /** A ball at x = 810 on a screen of width 800 turns round but stays at 810. */
  method WallDoesNotClamp() {
    var b := new Ball(810.0, 60.0, 5.0, 0.0, 9.8);
    b.BounceOffWall(800.0);
    var x := b.GetX();
    assert x == 810.0 && b.vx == -5.0;
  }

  /** A ball below the ground is put back on it; a second bounce does nothing. */
  method GroundBounceTwice() {
    var b := new Ball(400.0, 40.0, 0.0, -3.0, 9.8);
    b.BounceOffGround(50.0);
    assert b.y == 50.0 && b.vy == 3.0;
    b.BounceOffGround(50.0);
    assert b.y == 50.0 && b.vy == 3.0;
  }

  /** Two frames of a fresh 800-wide game with the ground at 50. */
  method TwoFrames() {
    var g := new Game(800.0, 50.0);
    g.Update(0.5);
    g.Update(0.5);
    assert g.ball.y >= 50.0;
    assert g.player1.x == 200.0 && g.player2.x == 600.0;
    assert g.ball.x == 400.0;
  }

  /** Moving one player of a fresh game leaves the other where it was. */
  method MoveOnePlayer() {
    var g := new Game(800.0, 50.0);
    var before := g.player2.x;
    g.player1.MoveRight(1.0);
    assert g.player2.x == before && g.player1.x == 300.0;
  }
}
