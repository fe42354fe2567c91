/** The nine control commands of the mower and the grid cells they move between. */
module Commands {

  const MoveStay: int := 0
  const MoveTopLeft: int := 1
  const MoveTopCentre: int := 2
  const MoveTopRight: int := 3
  const MoveRight: int := 4
  const MoveBottomRight: int := 5
  const MoveBottomCentre: int := 6
  const MoveBottomLeft: int := 7
  const MoveLeft: int := 8

  /** A command the simulator accepts: stay, or one of the eight compass moves. */
  predicate IsCommand(c: int) {
    MoveStay <= c <= MoveLeft
  }

  /** One of the eight compass moves (every command except stay). */
  predicate IsMove(c: int) {
    MoveTopLeft <= c <= MoveLeft
  }

  /** A grid cell: `i` is the column, `j` the row, and (0, 0) is the charging station. */
  datatype Cell = Cell(i: int, j: int)

  /**
   * The cell reached by carrying out command `c` on an unobstructed grid.
   * "Top" is the row above (j - 1) and "left" the column to the left (i - 1).
   */
  function Moved(p: Cell, c: int): (q: Cell)
    requires IsCommand(c)
    ensures c == MoveStay <==> q == p
    ensures -1 <= q.i - p.i <= 1 && -1 <= q.j - p.j <= 1
  {
    if c == MoveStay then p
    else if c == MoveTopLeft then Cell(p.i - 1, p.j - 1)
    else if c == MoveTopCentre then Cell(p.i, p.j - 1)
    else if c == MoveTopRight then Cell(p.i + 1, p.j - 1)
    else if c == MoveRight then Cell(p.i + 1, p.j)
    else if c == MoveBottomRight then Cell(p.i + 1, p.j + 1)
    else if c == MoveBottomCentre then Cell(p.i, p.j + 1)
    else if c == MoveBottomLeft then Cell(p.i - 1, p.j + 1)
    else Cell(p.i - 1, p.j)
  }
}
