# Badminton simulation core in Dafny

This project models the simulation state of a small two-player badminton
game written in C++ on SDL2 (`Game.cpp`). The state is three classes:

- **Ball**, the shuttlecock. It holds a position, a velocity and a gravity.
  Each frame it takes one semi-implicit Euler step: the position moves with
  the velocity from before the step, then the vertical velocity picks up
  gravity. It is then reflected off the side walls and off the ground. A
  wall bounce negates `vx` and does not clamp `x`. A ground bounce puts the
  ball back on the ground and negates `vy`.
- **Player**, an avatar with a position and a fixed speed. `MoveLeft` and
  `MoveRight` shift `x` by `speed * dt` with no clamping. `Jump` adds an
  offset straight to `y`.
- **Game**, which owns one ball, two players, the screen width and the
  ground height. It starts from a fixed layout. `Update(dt)` runs the ball's
  integration step, wall bounce and ground bounce, in that order.

Each class has the source's fields as `var`s and methods with `modifies`
clauses. Their postconditions give every field's new value in terms of the
old ones. Each class also has a `State()` function that maps its fields to
a value of a datatype (`BallState`, `PlayerState`, `GameState`). Those
datatypes carry the same operations as pure functions. Each state-changing
method's postcondition ties the object's new `State()` to the matching function
applied to the old `State()`. The lemmas state the properties of those
functions:

- idempotence and fixed points of the bounces;
- how two integration steps differ from one longer step;
- round trips of the player moves;
- invariants kept by any sequence of frames (`GameState.Run`).

Numbers are Dafny `real`s, i.e. exact arithmetic standing in for the
source's `float`. The bounce rules use only comparison, negation and
assignment, so they behave the same with floats. The integration step and
the player moves are an idealisation of the float arithmetic.

`Scenarios` holds client methods. Each one builds objects and proves, from
the class contracts alone, concrete situations:

- a resting ball keeps its height during its first step;
- a ball at `x = 810` on an 800-wide screen turns round without being clamped;
- a second ground bounce changes nothing;
- moving one player of a fresh game leaves the other where it was;
- two frames of a fresh game.

The height `y` grows away from the ground: the ground bounce fires below
`groundHeight`, and the starting ball sits at `groundHeight + 10`. Gravity
is `+9.8`, so it pulls the ball further from the ground, not towards it.
`RisingBallNeverBounces` states the consequence: with non-negative frame
lengths, the starting ball never reaches the ground.

The source accepts any `dt`, including negative values, and checks none, so
no operation has a precondition. `GameState.Run` is a specification device:
it describes a sequence of `Game::update` calls. It does not model the host
loop in `main`.

## Model

| member | source | states |
|---|---|---|
| BallModel.BallState.Integrate | Game.cpp:24-28 | an integration step never changes `vx` or `gravity` |
| BallModel.BallState.BounceOffWall | Game.cpp:29-33 | a wall bounce leaves position, `vy` and gravity unchanged (no clamping) and keeps the horizontal speed `|vx|` |
| BallModel.BallState.BounceOffGround | Game.cpp:34-39 | after a ground bounce the ball is never below the ground; `x`, `vx`, gravity and the vertical speed `|vy|` are kept |
| BallModel.IntegrateZero | Game.cpp:24-28 | a step of length zero changes nothing |
| BallModel.IntegrateSplit | Game.cpp:24-28 | two steps `t1`, `t2` equal one step `t1 + t2` except that the height is larger by `gravity * t1 * t2`, i.e. the step is not additive because position uses the pre-step velocity |
| BallModel.BounceOffGroundIdempotent | Game.cpp:34-39 | two ground bounces with the same height equal one |
| BallModel.BounceOffGroundFixedPoint | Game.cpp:34-39 | a ground bounce leaves the ball unchanged if and only if `y >= groundHeight` |
| BallModel.BounceOffWallInvolution | Game.cpp:29-33 | two wall bounces with the same width restore the ball, since `x` is not clamped |
| BallModel.BounceOffWallFixedPoint | Game.cpp:29-33 | a wall bounce leaves the ball unchanged if and only if `0 <= x <= width` or `vx == 0` |
| BallModel.Ball.constructor | Game.cpp:17-23 | all five fields take the given initial values |
| BallModel.Ball.Update | Game.cpp:24-28 | `x' = x + vx dt`, `y' = y + vy dt` with the old `vy`, `vy' = vy + gravity dt`; `vx` and gravity unchanged; the new state is `Integrate` of the old |
| BallModel.Ball.BounceOffWall | Game.cpp:29-33 | `vx' = -vx` exactly when `x < 0` or `x > width`, otherwise everything unchanged; `x`, `y`, `vy`, gravity always unchanged |
| BallModel.Ball.BounceOffGround | Game.cpp:34-39 | if `y < groundHeight` then `y' = groundHeight` and `vy' = -vy`, otherwise nothing changes; `x`, `vx`, gravity unchanged; `y' >= groundHeight` |
| BallModel.Ball.GetX | Game.cpp:40-42 | returns the current `x` and changes nothing |
| BallModel.Ball.GetY | Game.cpp:43-45 | returns the current `y` and changes nothing |
| PlayerModel.PlayerState.MoveLeft | Game.cpp:61-63 | moving left keeps `y` and speed and, for a non-negative `speed * dt`, never increases `x` |
| PlayerModel.PlayerState.MoveRight | Game.cpp:64-66 | moving right keeps `y` and speed and, for a non-negative `speed * dt`, never decreases `x` |
| PlayerModel.PlayerState.Jump | Game.cpp:67-69 | a jump keeps `x` and speed |
| PlayerModel.MovesCancel | Game.cpp:61-66 | moving left for `dt` and moving right for `dt` undo each other in either order |
| PlayerModel.MoveRightAdditive | Game.cpp:64-66 | two moves right for `t1` and `t2` equal one move for `t1 + t2` |
| PlayerModel.MoveLeftIsNegatedRight | Game.cpp:61-66 | moving left for `dt` is moving right for `-dt` |
| PlayerModel.JumpsCompose | Game.cpp:67-69 | jumps add up, and a jump by `-v` undoes a jump by `v` |
| PlayerModel.Player.constructor | Game.cpp:56-60 | the three fields take the given initial values |
| PlayerModel.Player.MoveLeft | Game.cpp:61-63 | `x' = x - speed dt`; `y` and speed unchanged; no clamping |
| PlayerModel.Player.MoveRight | Game.cpp:64-66 | `x' = x + speed dt`; `y` and speed unchanged; no clamping |
| PlayerModel.Player.Jump | Game.cpp:67-69 | `y' = y + vy0`; `x` and speed unchanged |
| PlayerModel.Player.GetX | Game.cpp:70-72 | returns the current `x` and changes nothing |
| PlayerModel.Player.GetY | Game.cpp:73-75 | returns the current `y` and changes nothing |
| GameModel.GameState.Update | Game.cpp:98-104 | after a frame the ball is on or above the ground; players, width, ground height, gravity and `|vx|` unchanged |
| GameModel.InitialLayout | Game.cpp:90-97 | the starting ball rests at height `gh + 10`, ten units on the side of the ground where `y` grows, midway between the players, who stand symmetric about the screen's middle at the ball's height; with `w >= 0` the ball starts inside the walls |
| GameModel.UpdateBallClosedForm | Game.cpp:98-101 | after a frame, with `x1 = x + vx dt` and `y1 = y + vy dt`: `x' = x1`; `vx'` is `-vx` exactly when `x1 < 0` or `x1 > width`, so the wall test sees the moved position; `y'` is `groundHeight` when `y1 < groundHeight`, else `y1`; `vy'` is `-(vy + gravity dt)` when `y1 < groundHeight`, else `vy + gravity dt`, so the ground bounce negates the velocity after gravity |
| GameModel.RisingBallNeverBounces | Game.cpp:91-101 | with non-negative frame lengths, a ball on or above the ground with `vy >= 0` and `gravity >= 0` (the starting layout is one) never loses height or vertical velocity over any run of frames, so the ground bounce never fires |
| GameModel.Initial | Game.cpp:90-97 | the starting game value of the initializer list at Game.cpp:91-93 (a definition, no contract of its own; its properties are stated by `InitialLayout` and the `Game` constructor) |
| GameModel.GameState.Run | Game.cpp:98-104 | successive `Game::update` calls as one value (a definition, no contract of its own; its properties are stated by `RunAppend`, `RunSnoc`, `RunKeepsSetup`, `RunStaysAboveGround` and `RisingBallNeverBounces`) |
| GameModel.RunAppend | Game.cpp:98-104 | running the frames `a` and then `b` is running `a + b` |
| GameModel.RunSnoc | Game.cpp:98-104 | one more frame after a run is one more `Update` |
| GameModel.RunKeepsSetup | Game.cpp:98-104 | no sequence of frames moves a player or changes width, ground height, the ball's gravity or `|vx|` |
| GameModel.RunStaysAboveGround | Game.cpp:98-104 | after at least one frame, or from a ball starting on or above the ground, the ball is never below the ground |
| GameModel.Game.constructor | Game.cpp:90-97 | the ball starts at `(w/2, gh+10)` at rest with gravity 9.8; the players start at `(w/4, gh+10)` and `(3w/4, gh+10)` with speed 100; width and ground height are stored; the parts are fresh objects and the two players are distinct (`Valid()`), as two value members are |
| GameModel.Game.Update | Game.cpp:98-104 | the new game state is `GameState.Update` of the old one; only the ball changes and it ends on or above the ground |

## Left out

- Floating-point rounding: all numbers are exact reals. The integration
  step, the player moves and the layout constants (`w / 2`, `gh + 10`,
  `9.8`) are therefore exact. The `float` computations in the source round.
- The three sound handles (`hitSound`, `missSound`, `scoreSound`) and the
  methods `playHitSound`, `playMissSound` and `playScoreSound`. They only
  pass a handle to SDL_mixer, and the handles are borrowed from the caller.
  `Game`'s constructor therefore takes only the width and the ground height.
- `getTime`, because it reads the wall clock.
- `main`. It is window, renderer and audio initialisation plus a 30-second
  real-time loop driven by the clock. As written it also does not compile:
  `SCREEN_HEIGHT` is undefined, and `Game` is built with two arguments
  where the constructor takes five.
- Ball–player collisions and player updates inside `Game::update` exist
  only as comments in the source, so they are not modelled.
- Ownership by value: the C++ `Game` holds its ball and players as value
  members. Here they are `const` references to objects the constructor
  allocates fresh; `Game.Valid()` states that the two players are distinct
  objects. Nothing stops a caller elsewhere from holding a reference to them.
