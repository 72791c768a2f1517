/**
 * The mutable objects of the snake game: the snake, the world that owns it,
 * the controller that players use to steer it, the keyboard flag holder,
 * the two players and the game controller's frame callback.
 */
module SnakeGame {
  import opened Geometry
  import opened FrameClock

  /** A one-cell snake: a head position and a heading, both updated in place. */
  class Snake {
    var currentPosition: Point
    var currentDirection: Direction

    /** A new snake sits at the origin heading up. */
    constructor ()
      ensures currentPosition == Point(0, 0) && currentDirection == Up
    {
      currentPosition := Point(0, 0);
      currentDirection := Up;
    }

    /** Advances the head `distance` cells along the current heading. */
    method Move(distance: int)
      modifies this
      ensures currentPosition == Moved(old(currentPosition), old(currentDirection), distance)
      ensures currentDirection == old(currentDirection)
    {
      var nx := currentPosition.x;
      var ny := currentPosition.y;
      if currentDirection == Up { ny := ny + distance; }
      else if currentDirection == Right { nx := nx - distance; }
      else if currentDirection == Down { ny := ny + distance; }
      else if currentDirection == Left { nx := nx - distance; }
      currentPosition := Point(nx, ny);
    }

    /** Rotates the heading one step to the left; the position stays. */
    method TurnLeft()
      modifies this
      ensures currentDirection == TurnedLeft(old(currentDirection))
      ensures currentPosition == old(currentPosition)
    {
      if currentDirection == Up { currentDirection := Left; }
      else if currentDirection == Right { currentDirection := Up; }
      else if currentDirection == Down { currentDirection := Right; }
      else if currentDirection == Left { currentDirection := Down; }
    }

    /** Rotates the heading one step to the right; the position stays. */
    method TurnRight()
      modifies this
      ensures currentDirection == TurnedRight(old(currentDirection))
      ensures currentPosition == old(currentPosition)
    {
      if currentDirection == Up { currentDirection := Right; }
      else if currentDirection == Right { currentDirection := Down; }
      else if currentDirection == Down { currentDirection := Left; }
      else if currentDirection == Left { currentDirection := Up; }
    }

    /** The current head position. */
    function Position(): (p: Point)
      reads this
      ensures p == currentPosition
    {
      currentPosition
    }
  }

  /**
   * The world: one snake and descriptive bounds. An attached view is
   * represented only by whether one is set and how often it was asked to
   * display the world.
   */
  class WorldModel {
    const snake: Snake
    var width: int
    var height: int
    var hasView: bool
    ghost var displays: nat

    constructor (snake: Snake, width: int, height: int)
      ensures this.snake == snake && this.width == width && this.height == height
      ensures !hasView && displays == 0
    {
      this.snake := snake;
      this.width := width;
      this.height := height;
      hasView := false;
      displays := 0;
    }

    /**
     * One world step: the snake moves `steps` cells, then an attached view
     * is notified once. Bounds play no part.
     */
    method Update(steps: int)
      modifies this, snake
      ensures snake.currentPosition == Moved(old(snake.currentPosition), old(snake.currentDirection), steps)
      ensures snake.currentDirection == old(snake.currentDirection)
      ensures width == old(width) && height == old(height) && hasView == old(hasView)
      ensures displays == old(displays) + (if hasView then 1 else 0)
    {
      snake.Move(steps);
      if hasView {
        displays := displays + 1;
      }
    }

    /** Attaches a view; it will be notified from the next update on. */
    method SetView()
      modifies this
      ensures hasView
      ensures width == old(width) && height == old(height) && displays == old(displays)
    {
      hasView := true;
    }

    /** The snake the world moves. */
    function SnakeInstance(): (s: Snake)
      ensures s == snake
    {
      snake
    }
  }

  /**
   * What a player may do with a snake: turn it left or right, and read its
   * position, its heading and the world's bounds.
   */
  class SnakeController {
    const snakeWorld: WorldModel
    const slither: Snake

    constructor (snakeWorld: WorldModel, slither: Snake)
      ensures this.snakeWorld == snakeWorld && this.slither == slither
    {
      this.snakeWorld := snakeWorld;
      this.slither := slither;
    }

    /** Turns the bound snake left. */
    method TurnSnakeLeft()
      modifies slither
      ensures slither.currentDirection == TurnedLeft(old(slither.currentDirection))
      ensures slither.currentPosition == old(slither.currentPosition)
    {
      slither.TurnLeft();
    }

    /** Turns the bound snake right. */
    method TurnSnakeRight()
      modifies slither
      ensures slither.currentDirection == TurnedRight(old(slither.currentDirection))
      ensures slither.currentPosition == old(slither.currentPosition)
    {
      slither.TurnRight();
    }

    /** The bound snake's head position. */
    function SnakePosition(): (p: Point)
      reads slither
      ensures p == slither.currentPosition
    {
      slither.Position()
    }

    /** The bound snake's heading. */
    function SnakeDirection(): (d: Direction)
      reads slither
      ensures d == slither.currentDirection
    {
      slither.currentDirection
    }

    /** The world's width. */
    function WorldWidth(): (w: int)
      reads snakeWorld
      ensures w == snakeWorld.width
    {
      snakeWorld.width
    }

    /** The world's height. */
    function WorldHeight(): (h: int)
      reads snakeWorld
      ensures h == snakeWorld.height
    {
      snakeWorld.height
    }
  }

  /** The wall-avoiding strategy: one guarded left turn per decision. */
  class AvoidWallsPlayer {
    const sc: SnakeController

    constructor (sc: SnakeController)
      ensures this.sc == sc
    {
      this.sc := sc;
    }

    /**
     * Turns left exactly when the snake heads left at x == 0 and y is below
     * the world's height. Turning left from a left heading gives a down
     * heading; in every other case the heading is kept.
     */
    method MakeTurn()
      modifies sc.slither
      ensures sc.slither.currentPosition == old(sc.slither.currentPosition)
      ensures sc.slither.currentDirection ==
        if old(sc.slither.currentDirection) == Left
           && old(sc.slither.currentPosition).x == 0
           && old(sc.slither.currentPosition).y < sc.snakeWorld.height
        then Down
        else old(sc.slither.currentDirection)
    {
      var snakeDirection := sc.SnakeDirection();
      var snakePosition := sc.SnakePosition();
      var worldHeight := sc.WorldHeight();
      if snakeDirection == Left && snakePosition.x == 0 && snakePosition.y < worldHeight {
        sc.TurnSnakeLeft();
      }
    }
  }

  /** The two pending-turn flags a key listener sets and a player consumes. */
  class LRKeyInputHandler {
    var wasLeftArrowPushed: bool
    var wasRightArrowPushed: bool

    /** No turn is pending at first. */
    constructor ()
      ensures !wasLeftArrowPushed && !wasRightArrowPushed
    {
      wasLeftArrowPushed := false;
      wasRightArrowPushed := false;
    }

    /** A key press: the left or right arrow marks its turn as pending. */
    method OnKeyDown(key: string)
      modifies this
      ensures wasLeftArrowPushed == (old(wasLeftArrowPushed) || key == "ArrowLeft")
      ensures wasRightArrowPushed == (old(wasRightArrowPushed) || key == "ArrowRight")
    {
      if key == "ArrowLeft" {
        wasLeftArrowPushed := true;
      } else if key == "ArrowRight" {
        wasRightArrowPushed := true;
      }
    }

    /** Whether a left turn is pending. */
    function MadeLeftMove(): (pending: bool)
      reads this
      ensures pending <==> wasLeftArrowPushed
    {
      wasLeftArrowPushed
    }

    /** Whether a right turn is pending. */
    function MadeRightMove(): (pending: bool)
      reads this
      ensures pending <==> wasRightArrowPushed
    {
      wasRightArrowPushed
    }

    /** Clears the pending left turn only. */
    method ResetLeftMove()
      modifies this
      ensures !wasLeftArrowPushed && wasRightArrowPushed == old(wasRightArrowPushed)
    {
      wasLeftArrowPushed := false;
    }

    /** Clears the pending right turn only. */
    method ResetRightMove()
      modifies this
      ensures !wasRightArrowPushed && wasLeftArrowPushed == old(wasLeftArrowPushed)
    {
      wasRightArrowPushed := false;
    }
  }

  /** The keyboard-driven player. */
  class HumanPlayer {
    const sc: SnakeController
    const inputHandler: LRKeyInputHandler

    constructor (sc: SnakeController, inputHandler: LRKeyInputHandler)
      ensures this.sc == sc && this.inputHandler == inputHandler
    {
      this.sc := sc;
      this.inputHandler := inputHandler;
    }

    /**
     * At most one turn per decision: a pending left turn wins and only its
     * flag is cleared; otherwise a pending right turn is taken and cleared;
     * with nothing pending nothing changes. The position never changes.
     */
    method MakeTurn()
      modifies sc.slither, inputHandler
      ensures sc.slither.currentPosition == old(sc.slither.currentPosition)
      ensures old(inputHandler.wasLeftArrowPushed) ==>
        && sc.slither.currentDirection == TurnedLeft(old(sc.slither.currentDirection))
        && !inputHandler.wasLeftArrowPushed
        && inputHandler.wasRightArrowPushed == old(inputHandler.wasRightArrowPushed)
      ensures !old(inputHandler.wasLeftArrowPushed) && old(inputHandler.wasRightArrowPushed) ==>
        && sc.slither.currentDirection == TurnedRight(old(sc.slither.currentDirection))
        && !inputHandler.wasLeftArrowPushed
        && !inputHandler.wasRightArrowPushed
      ensures !old(inputHandler.wasLeftArrowPushed) && !old(inputHandler.wasRightArrowPushed) ==>
        && sc.slither.currentDirection == old(sc.slither.currentDirection)
        && !inputHandler.wasLeftArrowPushed
        && !inputHandler.wasRightArrowPushed
    {
      if inputHandler.MadeLeftMove() {
        sc.TurnSnakeLeft();
        inputHandler.ResetLeftMove();
      } else if inputHandler.MadeRightMove() {
        sc.TurnSnakeRight();
        inputHandler.ResetRightMove();
      }
    }
  }

  /**
   * The game controller's loop. Its clock `lastTime` is the variable the
   * frame callback keeps between frames; the host's frame timestamps are
   * given as input.
   */
  class GameController {
    const world: WorldModel
    var lastTime: int

    constructor (world: WorldModel)
      ensures this.world == world && lastTime == 0
    {
      this.world := world;
      lastTime := 0;
    }

    /** One animation frame: at most one world update of one step. */
    method UpdateFrame(timeStamp: int)
      modifies this, world, world.snake
      ensures lastTime == FrameStep(old(lastTime), timeStamp).lastTime
      ensures world.snake.currentPosition ==
        if FrameStep(old(lastTime), timeStamp).fired
        then Moved(old(world.snake.currentPosition), old(world.snake.currentDirection), 1)
        else old(world.snake.currentPosition)
      ensures world.snake.currentDirection == old(world.snake.currentDirection)
      ensures world.width == old(world.width) && world.height == old(world.height)
      ensures world.hasView == old(world.hasView)
      ensures world.displays == old(world.displays) +
        (if world.hasView && FrameStep(old(lastTime), timeStamp).fired then 1 else 0)
    {
      var elapsedMilliseconds := timeStamp - lastTime;
      if elapsedMilliseconds > TickInterval {
        world.Update(1);
        lastTime := lastTime + TickInterval;
      }
    }

    /**
     * Starts the clock at 0 and handles the given frames in order. No player
     * is consulted, so the heading never changes and the snake advances one
     * cell per tick that fired.
     */
    method Run(timeStamps: seq<int>)
      modifies this, world, world.snake
      ensures lastTime == RunFrames(0, timeStamps).lastTime
      ensures world.snake.currentPosition ==
        Moved(old(world.snake.currentPosition), old(world.snake.currentDirection), RunFrames(0, timeStamps).ticks)
      ensures world.snake.currentDirection == old(world.snake.currentDirection)
      ensures world.width == old(world.width) && world.height == old(world.height)
      ensures world.hasView == old(world.hasView)
      ensures world.displays == old(world.displays) +
        (if world.hasView then RunFrames(0, timeStamps).ticks else 0)
    {
      lastTime := 0;
      MovedZero(world.snake.currentPosition, world.snake.currentDirection);
      for i := 0 to |timeStamps|
        invariant lastTime == RunFrames(0, timeStamps[..i]).lastTime
        invariant world.snake.currentPosition ==
          Moved(old(world.snake.currentPosition), old(world.snake.currentDirection), RunFrames(0, timeStamps[..i]).ticks)
        invariant world.snake.currentDirection == old(world.snake.currentDirection)
        invariant world.width == old(world.width) && world.height == old(world.height)
        invariant world.hasView == old(world.hasView)
        invariant world.displays == old(world.displays) +
          (if world.hasView then RunFrames(0, timeStamps[..i]).ticks else 0)
      {
        UpdateFrame(timeStamps[i]);
        assert timeStamps[..i + 1][..i] == timeStamps[..i];
        MovedAdditive(old(world.snake.currentPosition), old(world.snake.currentDirection),
                      RunFrames(0, timeStamps[..i]).ticks, 1);
      }
      assert timeStamps[..|timeStamps|] == timeStamps;
    }
  }

  /**
   * Both arrows pressed before one decision of a human player: the left turn
   * is taken and the right turn stays pending.
   */
  method LeftWinsScenario() returns (heading: Direction, rightPending: bool)
    ensures heading == Left && rightPending
  {
    var snake := new Snake();
    var world := new WorldModel(snake, 20, 20);
    var controller := new SnakeController(world, snake);
    var keys := new LRKeyInputHandler();
    keys.OnKeyDown("ArrowLeft");
    keys.OnKeyDown("ArrowRight");
    var player := new HumanPlayer(controller, keys);
    player.MakeTurn();
    heading := controller.SnakeDirection();
    rightPending := keys.MadeRightMove();
  }
}
