/**
 * The playing field of the snake game: a torus of GridLength × GridLength
 * integer cells, and the four unit directions a box can travel in.
 */
module Grid {
  /** Number of cells along each side of the field (main.py, GRID_LENGTH). */
  const GridLength: int := 20

  /** A cell, as (column, row); row 0 is the top of the window. */
  type Pos = (int, int)

  /** A movement delta, as (dx, dy). */
  type Dir = (int, int)

  const Left: Dir := (-1, 0)
  const Right: Dir := (1, 0)
  const Up: Dir := (0, -1)
  const Down: Dir := (0, 1)

  predicate InGrid(p: Pos) {
    0 <= p.0 < GridLength && 0 <= p.1 < GridLength
  }

  /** One of the four unit directions. */
  predicate IsDir(d: Dir) {
    d == Left || d == Right || d == Up || d == Down
  }

  function Reverse(d: Dir): Dir {
    (-d.0, -d.1)
  }

  /**
   * One coordinate of a box's move, `(c + d + GridLength) % GridLength`.
   * Python's `%` with a positive divisor never returns a negative number,
   * so it agrees with Dafny's `%` here for every c and d.
   */
  function WrapStep(c: int, d: int): (r: int)
    ensures 0 <= r < GridLength
    ensures (c + d - r) % GridLength == 0
  {
    (c + d + GridLength) % GridLength
  }
}
