# Snake game simulation core, modelled in Dafny

This project models the simulation part of a small browser snake game
(`src/Snake.ts`): a one-cell snake with a position and a heading, the world
that moves it, the controller through which players steer it, the two
players (a wall-avoiding strategy and a keyboard-driven one with its pair of
pending-turn flags), and the fixed-cadence rule of the game loop's frame
callback.

Files and modules:

- `geometry.dfy`, module `Geometry`: the `Direction` and `Point` values, the
  rotation and movement rules as functions, and lemmas about them (turns are
  inverse to each other, left turns cycle with period four, moves along one
  heading add up).
- `frame_clock.dfy`, module `FrameClock`: the frame rule of the loop as a
  step function over `(lastTime, timeStamp)`, its fold over a run of frames,
  and lemmas about runs (the clock advances in whole intervals, it never
  overtakes the frames, the tick rate is capped, a lagging clock catches up
  one tick per frame).
- `snake_game.dfy`, module `SnakeGame`: the objects the source mutates, as
  classes whose methods carry `modifies` frames and state each new field
  value in terms of the old ones and the `Geometry`/`FrameClock` functions.

The code's snake is a single head cell and the world holds one snake. The
code's quirks are kept as written:

- `move` adds the distance to y for both "up" and "down" and subtracts it
  from x for both "left" and "right" (`src/Snake.ts:127-130`);
  `Geometry.Moved` keeps that rule and `Geometry.MoveIgnoresSense` states it.
- The wall-avoiding player turns left when it is already heading left at
  x == 0, which makes it head down (`src/Snake.ts:60-65`); kept as written.
- The loop's frame callback only updates the world; it never asks a player to
  decide (`src/Snake.ts:261-266`). `SnakeGame.GameController.Run` therefore
  proves that the heading never changes during a run.
- The controller's snake and the world's snake are passed separately to the
  controller's constructor and the code never requires them to be the same
  object; the model does not require it either.

Inputs from the host become parameters: the frame callback's timestamps are
the argument of `UpdateFrame`, and `Run` receives the whole sequence of frame
timestamps the host would deliver. Coordinates, distances, bounds and
timestamps are unbounded integers.

## Model

| member | source | states |
|---|---|---|
| Geometry.TurnedLeft | src/Snake.ts:135-140 | a left turn always changes the heading and always switches between the vertical and the horizontal axis |
| Geometry.TurnedRight | src/Snake.ts:142-147 | a right turn always changes the heading and always switches between the vertical and the horizontal axis |
| Geometry.Moved | src/Snake.ts:123-133 | a vertical heading leaves x alone and increases y by the distance; a horizontal heading leaves y alone and decreases x by the distance |
| Geometry.TurnLeftRightInverse | src/Snake.ts:135-147 | for every heading, a left turn followed by a right turn, or a right turn followed by a left turn, restores it |
| Geometry.TurnRightIsThreeLefts | src/Snake.ts:135-147 | one right turn equals three left turns |
| Geometry.LeftTurnCycle | src/Snake.ts:135-140 | four left turns restore any heading, and the first four headings of the cycle are all four distinct directions |
| Geometry.TurnsLeftAdd | src/Snake.ts:135-140 | a + b left turns are a left turns followed by b left turns |
| Geometry.TurnsLeftPeriodic | src/Snake.ts:135-140 | after any number n of left turns the heading depends only on n modulo 4 |
| Geometry.MoveIgnoresSense | src/Snake.ts:127-130 | moving up and moving down give the same point, and so do moving left and moving right |
| Geometry.MovedAdditive | src/Snake.ts:123-133 | two moves with one heading equal one move by the sum of the distances |
| Geometry.MovedZero | src/Snake.ts:123-133 | a move of zero cells leaves the point unchanged |
| FrameClock.FrameStep | src/Snake.ts:261-266 | a frame fires a tick exactly when more than 250 ms have elapsed on the clock; firing advances the clock by exactly 250 and leaves it strictly before the frame's timestamp; otherwise the clock is unchanged |
| FrameClock.RunFrames | src/Snake.ts:258-270 | a run of frames fires at most one tick per frame |
| FrameClock.ClockCountsTicks | src/Snake.ts:262-265 | after any run of frames the clock has advanced by exactly 250 times the number of ticks fired |
| FrameClock.ClockStaysBehind | src/Snake.ts:262-265 | once any tick has fired, the clock is strictly before every bound on the frame timestamps |
| FrameClock.TickRateCapped | src/Snake.ts:261-266 | frames no later than a bound fire at most one tick per full 250 ms between the starting clock and that bound |
| FrameClock.CatchUpOneTickPerFrame | src/Snake.ts:261-266 | while every frame finds more than 250 ms elapsed on the clock, every frame fires, so a lagging clock catches up one tick per frame |
| FrameClock.EarlyFramesNeverFire | src/Snake.ts:262-263 | frames no more than 250 ms after the clock fire nothing and leave the clock unchanged |
| SnakeGame.Snake.constructor | src/Snake.ts:118-121 | a new snake is at (0,0) heading up |
| SnakeGame.Snake.Move | src/Snake.ts:123-133 | the new position is the old one moved along the old heading; the heading is unchanged |
| SnakeGame.Snake.TurnLeft | src/Snake.ts:135-140 | the heading becomes the left turn of the old heading; the position is unchanged |
| SnakeGame.Snake.TurnRight | src/Snake.ts:142-147 | the heading becomes the right turn of the old heading; the position is unchanged |
| SnakeGame.Snake.Position | src/Snake.ts:149-151 | reports the current head position without changing anything |
| SnakeGame.WorldModel.constructor | src/Snake.ts:160-164 | the world holds the given snake, width and height, with no view attached |
| SnakeGame.WorldModel.Update | src/Snake.ts:166-171 | the snake moves exactly as one move by `steps` would; heading, width, height and view are unchanged; an attached view is notified exactly once |
| SnakeGame.WorldModel.SetView | src/Snake.ts:173-175 | a view is attached; bounds and past notifications are unchanged |
| SnakeGame.WorldModel.SnakeInstance | src/Snake.ts:177-179 | returns the world's own snake |
| SnakeGame.SnakeController.constructor | src/Snake.ts:11-14 | binds one world and one snake |
| SnakeGame.SnakeController.TurnSnakeLeft | src/Snake.ts:16-18 | the bound snake turns left and keeps its position |
| SnakeGame.SnakeController.TurnSnakeRight | src/Snake.ts:20-22 | the bound snake turns right and keeps its position |
| SnakeGame.SnakeController.SnakePosition | src/Snake.ts:24-26 | reports the bound snake's position |
| SnakeGame.SnakeController.SnakeDirection | src/Snake.ts:28-30 | reports the bound snake's heading |
| SnakeGame.SnakeController.WorldWidth | src/Snake.ts:32-34 | reports the bound world's width |
| SnakeGame.SnakeController.WorldHeight | src/Snake.ts:36-38 | reports the bound world's height |
| SnakeGame.AvoidWallsPlayer.constructor | src/Snake.ts:52-54 | binds the player to its controller |
| SnakeGame.AvoidWallsPlayer.MakeTurn | src/Snake.ts:56-67 | the heading changes from left to down exactly when the snake heads left at x == 0 with y below the world's height, and is unchanged otherwise; the position never changes |
| SnakeGame.LRKeyInputHandler.constructor | src/Snake.ts:190-201 | no turn is pending at first |
| SnakeGame.LRKeyInputHandler.OnKeyDown | src/Snake.ts:194-200 | the left arrow sets the left flag, the right arrow sets the right flag, any other key changes nothing; no flag is ever cleared by a key |
| SnakeGame.LRKeyInputHandler.MadeLeftMove | src/Snake.ts:203-205 | true exactly when a left turn is pending |
| SnakeGame.LRKeyInputHandler.MadeRightMove | src/Snake.ts:207-209 | true exactly when a right turn is pending |
| SnakeGame.LRKeyInputHandler.ResetLeftMove | src/Snake.ts:211-213 | clears the left flag and leaves the right flag as it was |
| SnakeGame.LRKeyInputHandler.ResetRightMove | src/Snake.ts:215-217 | clears the right flag and leaves the left flag as it was |
| SnakeGame.HumanPlayer.constructor | src/Snake.ts:224-228 | binds the player to its controller and its input handler |
| SnakeGame.HumanPlayer.MakeTurn | src/Snake.ts:230-238 | a pending left turn is taken and only the left flag cleared; otherwise a pending right turn is taken and its flag cleared; with nothing pending nothing changes; at most one turn, and the position never changes |
| SnakeGame.GameController.constructor | src/Snake.ts:246-248 | binds the controller to its world, with the loop's clock at 0 |
| SnakeGame.GameController.UpdateFrame | src/Snake.ts:261-268 | the clock follows the frame step; when it fires the snake moves one cell along its heading and an attached view is notified once; otherwise the snake stays; heading and bounds never change |
| SnakeGame.GameController.Run | src/Snake.ts:258-270 | starting the clock at 0, a run of frames leaves the clock where the frame rule says and moves the snake one cell per tick fired along its unchanged heading, notifying an attached view once per tick |
| SnakeGame.LeftWinsScenario | src/Snake.ts:230-238 | with both arrows pressed before one human decision, a fresh snake ends up heading left and the right turn is still pending |

## Left out

- The view that draws on a canvas (`src/Snake.ts:74-92`): rendering only. A view is represented by whether one is attached and a ghost count of the times it was asked to display the world.
- Registering the key listener on the browser window (`src/Snake.ts:194`): browser event plumbing. The listener's body is modelled as `LRKeyInputHandler.OnKeyDown`.
- Scheduling of frames with `requestAnimationFrame` (`src/Snake.ts:267-269`): host plumbing. The frames the host would deliver are the timestamp sequence given to `Run`; a run is finite in the model.
- `setPlayer1` and `setPlayer2` (`src/Snake.ts:250-256`): the stored players are never used by the loop.
- The loop's clock is a local variable of `run` captured by the frame callback (`src/Snake.ts:259-266`); in the model it is the field `GameController.lastTime`, which the constructor and `Run` set to 0. `UpdateFrame` can therefore also be called outside `Run`, which the code's closure does not allow.
- The abstract `Player` base class and the `IInuptHandler` interface: each player is its own class holding its controller, and the human player holds the concrete key handler.
- The imports of `console`, `https`, `readline` and `./display` (`src/Snake.ts:1-5`) are unused; `display` and `src/App.tsx` (page bootstrap) are not part of this model.
- JavaScript numbers are floating point; the model uses unbounded integers for coordinates, distances, bounds and timestamps, so rounding and non-integer timestamps are not modelled.
