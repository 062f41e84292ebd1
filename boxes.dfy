/**
 * One box of the snake's body (main.py, class Box): a cell and the
 * direction it is travelling in.
 */
module Boxes {
  import opened Grid

  /** The value a box holds at one instant. */
  datatype Segment = Segment(pos: Pos, dir: Dir)

  /**
   * Box.move on values: the box steps once along its direction and wraps
   * around the torus, whether or not it started inside the grid.
   */
  function Moved(s: Segment): (r: Segment)
    ensures r.dir == s.dir
    ensures InGrid(r.pos)
    ensures (s.pos.0 + s.dir.0 - r.pos.0) % GridLength == 0
    ensures (s.pos.1 + s.dir.1 - r.pos.1) % GridLength == 0
  {
    Segment((WrapStep(s.pos.0, s.dir.0), WrapStep(s.pos.1, s.dir.1)), s.dir)
  }

  /** A box whose position and direction are overwritten in place. */
  class Box {
    var pos: Pos
    var dir: Dir

    /** Box(pos, ...): every new box heads right. */
    constructor (p: Pos)
      ensures pos == p && dir == Right
    {
      pos := p;
      dir := Right;
    }

    function Value(): Segment
      reads this
    {
      Segment(pos, dir)
    }

    /** Box.move: each coordinate is overwritten in turn. */
    method Move()
      modifies this
      ensures Value() == Moved(old(Value()))
    {
      pos := (WrapStep(pos.0, dir.0), pos.1);
      pos := (pos.0, WrapStep(pos.1, dir.1));
    }

    /** Box.set_direction: replaces the direction and nothing else. */
    method SetDirection(dx: int, dy: int)
      modifies this
      ensures pos == old(pos) && dir == (dx, dy)
    {
      dir := (dx, dy);
    }
  }

  /** The values held by a sequence of boxes, in order. */
  function Values(bs: seq<Box>): seq<Segment>
    reads bs
  {
    seq(|bs|, i requires 0 <= i < |bs| reads bs => bs[i].Value())
  }
}
