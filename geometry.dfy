/**
 * Value types of the snake game: the four-way heading and the grid point,
 * with the rotation and movement rules that the Snake class applies to them.
 */
module Geometry {

  /** The closed set of headings a snake can have. */
  datatype Direction = Left | Right | Up | Down

  /** An immutable grid position; equality is component-wise. */
  datatype Point = Point(x: int, y: int)

  /** The headings that move a snake along the y axis. */
  predicate IsVertical(d: Direction) {
    d == Up || d == Down
  }

  /** The heading after one left turn: up -> left -> down -> right -> up. */
  function TurnedLeft(d: Direction): (r: Direction)
    ensures r != d
    ensures IsVertical(r) != IsVertical(d)
  {
    match d
    case Up => Left
    case Right => Up
    case Down => Right
    case Left => Down
  }

  /** The heading after one right turn: up -> right -> down -> left -> up. */
  function TurnedRight(d: Direction): (r: Direction)
    ensures r != d
    ensures IsVertical(r) != IsVertical(d)
  {
    match d
    case Up => Right
    case Right => Down
    case Down => Left
    case Left => Up
  }

  /**
   * Where a head at p ends up after moving `distance` cells with heading d.
   * The rule is the one the game uses: every vertical heading adds to y and
   * every horizontal heading subtracts from x, whichever way it points.
   */
  function Moved(p: Point, d: Direction, distance: int): (q: Point)
    ensures IsVertical(d) ==> q.x == p.x && q.y - p.y == distance
    ensures !IsVertical(d) ==> q.y == p.y && p.x - q.x == distance
  {
    match d
    case Up => Point(p.x, p.y + distance)
    case Right => Point(p.x - distance, p.y)
    case Down => Point(p.x, p.y + distance)
    case Left => Point(p.x - distance, p.y)
  }

  /** The heading after n consecutive left turns. */
  function TurnsLeft(d: Direction, n: nat): (r: Direction)
    decreases n
  {
    if n == 0 then d else TurnsLeft(TurnedLeft(d), n - 1)
  }

  /** A left turn and a right turn undo each other, in either order. */
  lemma TurnLeftRightInverse(d: Direction)
    ensures TurnedRight(TurnedLeft(d)) == d
    ensures TurnedLeft(TurnedRight(d)) == d
  {
  }

  /** A right turn is the same as three left turns. */
  lemma TurnRightIsThreeLefts(d: Direction)
    ensures TurnedRight(d) == TurnsLeft(d, 3)
  {
  }

  /**
   * Left turns cycle through all four headings and come back after exactly
   * four turns.
   */
  lemma LeftTurnCycle(d: Direction)
    ensures TurnsLeft(d, 4) == d
    ensures {TurnsLeft(d, 0), TurnsLeft(d, 1), TurnsLeft(d, 2), TurnsLeft(d, 3)} == {Left, Right, Up, Down}
  {
  }

  /** Turning a + b times is turning a times and then b times. */
  lemma {:induction false} TurnsLeftAdd(d: Direction, a: nat, b: nat)
    ensures TurnsLeft(d, a + b) == TurnsLeft(TurnsLeft(d, a), b)
    decreases a
  {
    if a > 0 {
      TurnsLeftAdd(TurnedLeft(d), a - 1, b);
    }
  }

  /** Only the number of left turns modulo four matters. */
  lemma {:induction false} TurnsLeftPeriodic(d: Direction, n: nat)
    ensures TurnsLeft(d, n) == TurnsLeft(d, n % 4)
    decreases n
  {
    if n >= 4 {
      TurnsLeftAdd(d, 4, n - 4);
      LeftTurnCycle(d);
      TurnsLeftPeriodic(d, n - 4);
    }
  }

  /** Up and down move a snake the same way, and so do left and right. */
  lemma MoveIgnoresSense(p: Point, distance: int)
    ensures Moved(p, Up, distance) == Moved(p, Down, distance)
    ensures Moved(p, Left, distance) == Moved(p, Right, distance)
  {
  }

  /** Two moves with one heading add up to a single move of the summed distance. */
  lemma MovedAdditive(p: Point, d: Direction, a: int, b: int)
    ensures Moved(Moved(p, d, a), d, b) == Moved(p, d, a + b)
  {
  }

  /** Moving zero cells leaves the point where it is. */
  lemma MovedZero(p: Point, d: Direction)
    ensures Moved(p, d, 0) == p
  {
  }
}
