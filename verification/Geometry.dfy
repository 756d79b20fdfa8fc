/** The 6 x 13 playing field: cells, directions and the neighbour relation
    (Constants.hpp, namespaces `Board` and `DirectionInfo`). */
module Geometry {

  const BOARD_X_COUNT := 6
  const BOARD_Y_COUNT := 13

  /** Column `x`, row `y`; row 0 is the floor. */
  datatype Cell = Cell(x: int, y: int)

  datatype Direction = None | Left | Right | Top | Bottom

  /** The order in which the flood fill and the ice collection look around a cell. */
  function DirectionAt(k: int): Direction
    requires 0 <= k < 4
  {
    match k case 0 => Left case 1 => Right case 2 => Top case _ => Bottom
  }

  predicate InBoard(c: Cell) {
    0 <= c.x < BOARD_X_COUNT && 0 <= c.y < BOARD_Y_COUNT
  }

  ghost function AllCells(): (s: set<Cell>)
    ensures forall c :: c in s <==> InBoard(c)
  {
    set x, y | 0 <= x < BOARD_X_COUNT && 0 <= y < BOARD_Y_COUNT :: Cell(x, y)
  }

  function Neighbour(c: Cell, d: Direction): Cell {
    match d
    case None => c
    case Left => Cell(c.x - 1, c.y)
    case Right => Cell(c.x + 1, c.y)
    case Top => Cell(c.x, c.y + 1)
    case Bottom => Cell(c.x, c.y - 1)
  }

  function Opposite(d: Direction): Direction {
    match d
    case None => None
    case Left => Right
    case Right => Left
    case Top => Bottom
    case Bottom => Top
  }

  predicate Adjacent(a: Cell, b: Cell) {
    || (a.y == b.y && (a.x == b.x + 1 || b.x == a.x + 1))
    || (a.x == b.x && (a.y == b.y + 1 || b.y == a.y + 1))
  }

  /** Looking in the four directions finds exactly the adjacent cells. */
  lemma {:induction false} AdjacentByDirection(a: Cell, b: Cell)
    ensures Adjacent(a, b) <==>
            exists i :: 0 <= i < 4 && b == Neighbour(a, DirectionAt(i))
  {
    assert b in [Neighbour(a, DirectionAt(0)), Neighbour(a, DirectionAt(1)), Neighbour(a, DirectionAt(2)), Neighbour(a, DirectionAt(3))] <==> Adjacent(a, b);
  }
}
