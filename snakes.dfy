/**
 * The snake (main.py, class Snake): an ordered body of boxes, head first,
 * the map of turning points the body still has to pass, and the direction
 * last commanded at the head.
 */
module Snakes {
  import opened Grid
  import opened Boxes

  /** Where Snake.reset puts the snake back (main.py, `self.__init__((3, 3))`). */
  const Start: Pos := (3, 3)

  /** The value of a snake at one instant. */
  datatype SnakeState = SnakeState(body: seq<Segment>, turns: map<Pos, Dir>, dir: Dir)

  /** A snake always has a head. */
  predicate HasHead(s: SnakeState) {
    |s.body| >= 1
  }

  function Head(s: SnakeState): Segment
    requires HasHead(s)
  {
    s.body[0]
  }

  function Tail(s: SnakeState): Segment
    requires HasHead(s)
  {
    s.body[|s.body| - 1]
  }

  /** The set of cells the body covers. */
  function Cells(body: seq<Segment>): set<Pos> {
    set i | 0 <= i < |body| :: body[i].pos
  }

  /** Snake(pos): one box at pos heading right, no turning points. */
  function Fresh(p: Pos): (r: SnakeState)
    ensures HasHead(r) && |r.body| == 1
    ensures Head(r).pos == p && Head(r).dir == Right && r.dir == Right
    ensures r.turns == map[]
  {
    SnakeState([Segment(p, Right)], map[], Right)
  }

  /** The state Snake.reset produces, whatever it started from. */
  function Initial(): SnakeState {
    Fresh(Start)
  }

  /**
   * Snake.add_turn on values: the commanded direction and the head's
   * direction become d, and the head's cell is recorded as a turning point
   * towards d, replacing what was recorded there; nothing else changes.
   */
  function AfterTurn(s: SnakeState, d: Dir): (r: SnakeState)
    requires HasHead(s)
    ensures HasHead(r) && |r.body| == |s.body|
    ensures r.dir == d && Head(r) == Segment(Head(s).pos, d)
    ensures r.body[1..] == s.body[1..]
    ensures Head(s).pos in r.turns && r.turns[Head(s).pos] == d
    ensures forall q :: q != Head(s).pos ==>
      (q in r.turns <==> q in s.turns) && (q in s.turns ==> r.turns[q] == s.turns[q])
  {
    SnakeState(s.body[0 := Segment(s.body[0].pos, d)], s.turns[s.body[0].pos := d], d)
  }

  /** What one box of Snake.move does before it moves: adopt the turn recorded at its cell. */
  function Turned(seg: Segment, turns: map<Pos, Dir>): Segment {
    if seg.pos in turns then Segment(seg.pos, turns[seg.pos]) else seg
  }

  /**
   * Snake.move on values. Every box, head first, takes up the direction
   * recorded at its cell if there is one, and moves once. Only the last box
   * deletes the entry it read, after reading it, so every box reads the map
   * as it was before the move. What this means is stated by MoveTurnsBoxes
   * and MoveConsumesTailTurn.
   */
  function AfterMove(s: SnakeState): (r: SnakeState)
    requires HasHead(s)
    ensures HasHead(r) && |r.body| == |s.body| && r.dir == s.dir
  {
    SnakeState(
      seq(|s.body|, i requires 0 <= i < |s.body| => Moved(Turned(s.body[i], s.turns))),
      s.turns - {Tail(s).pos},
      s.dir)
  }

  /**
   * A move keeps the body's length and order. A box changes direction
   * exactly when its cell holds a turning point, and then to that turn; it
   * then moves exactly once along its new direction, onto the grid.
   */
  lemma MoveTurnsBoxes(s: SnakeState, i: int)
    requires HasHead(s) && 0 <= i < |s.body|
    ensures var r := AfterMove(s);
      && (s.body[i].pos in s.turns ==> r.body[i].dir == s.turns[s.body[i].pos])
      && (s.body[i].pos !in s.turns ==> r.body[i].dir == s.body[i].dir)
      && r.body[i] == Moved(Segment(s.body[i].pos, r.body[i].dir))
      && InGrid(r.body[i].pos)
  {
  }

  /**
   * A move adds and alters no turning point, and removes at most one: the
   * cell the tail stood on, which is always gone afterwards.
   */
  lemma MoveConsumesTailTurn(s: SnakeState)
    requires HasHead(s)
    ensures var r := AfterMove(s);
      && r.turns.Keys <= s.turns.Keys
      && (forall q :: q in r.turns ==> r.turns[q] == s.turns[q])
      && s.turns.Keys - r.turns.Keys <= {Tail(s).pos}
      && Tail(s).pos !in r.turns
  {
  }

  /**
   * Snake.add_tail on values: a new last box one step behind the old tail,
   * NOT wrapped onto the grid, heading the way the old tail heads.
   */
  function AfterGrow(s: SnakeState): (r: SnakeState)
    requires HasHead(s)
    ensures HasHead(r) && |r.body| == |s.body| + 1
    ensures r.body[..|s.body|] == s.body
    ensures r.turns == s.turns && r.dir == s.dir
    ensures Tail(r).dir == Tail(s).dir
    ensures Tail(r).pos.0 + Tail(s).dir.0 == Tail(s).pos.0
    ensures Tail(r).pos.1 + Tail(s).dir.1 == Tail(s).pos.1
  {
    var t := Tail(s);
    SnakeState(s.body + [Segment((t.pos.0 - t.dir.0, t.pos.1 - t.dir.1), t.dir)], s.turns, s.dir)
  }

  /** A one-box snake consumes any turn it reads in the same move. */
  lemma OneBoxConsumesTurn(s: SnakeState)
    requires |s.body| == 1 && Head(s).pos in s.turns
    ensures Head(AfterMove(s)).dir == s.turns[Head(s).pos]
    ensures AfterMove(s).turns == s.turns - {Head(s).pos}
  {
  }

  /** The snake, with its boxes as objects; `head` is the same object as `body[0]`. */
  class Snake {
    var head: Box
    var body: seq<Box>
    var turns: map<Pos, Dir>
    var dir: Dir

    ghost predicate Valid()
      reads this
    {
      && |body| >= 1
      && head == body[0]
      && forall i, j :: 0 <= i < j < |body| ==> body[i] != body[j]
    }

    function State(): SnakeState
      reads this, body
    {
      SnakeState(Values(body), turns, dir)
    }

    /** Snake.__init__. */
    constructor (p: Pos)
      ensures Valid() && fresh(head)
      ensures State() == Fresh(p)
    {
      head := new Box(p);
      new;
      body := [head];
      turns := map[];
      dir := Right;
    }

    /** Snake.add_turn: the head's direction is set directly, not via set_direction. */
    method AddTurn(dx: int, dy: int)
      requires Valid()
      modifies this, head
      ensures Valid() && body == old(body) && head == old(head)
      ensures State() == AfterTurn(old(State()), (dx, dy))
    {
      dir := (dx, dy);
      head.dir := dir;
      turns := turns[head.pos := dir];
      assert Values(body) == old(Values(body))[0 := Segment(head.pos, dir)];
    }

    /** Snake.move: one pass over the boxes, head to tail. */
    method Move()
      requires Valid()
      modifies this, body
      ensures Valid() && body == old(body) && head == old(head)
      ensures State() == AfterMove(old(State()))
    {
      ghost var s0 := State();
      var index := 0;
      while index < |body|
        invariant 0 <= index <= |body|
        invariant body == old(body) && head == old(head) && dir == old(dir)
        invariant forall k :: 0 <= k < |body| ==>
          body[k].Value() == (if k < index then Moved(Turned(s0.body[k], s0.turns)) else s0.body[k])
        invariant turns == if index == |body| then s0.turns - {Tail(s0).pos} else s0.turns
      {
        var box := body[index];
        var pos := box.pos;
        if pos in turns {
          box.SetDirection(turns[pos].0, turns[pos].1);
          if index == |body| - 1 {
            turns := turns - {pos};
          }
        }
        box.Move();
        index := index + 1;
      }
      assert Values(body) == AfterMove(s0).body;
    }

    /** Snake.add_tail: the new box is one step behind the old tail, unwrapped. */
    method AddTail()
      requires Valid()
      modifies this
      ensures Valid() && head == old(head)
      ensures body[..|body| - 1] == old(body) && fresh(body[|body| - 1])
      ensures State() == AfterGrow(old(State()))
    {
      var currTail := body[|body| - 1];
      var newTail := new Box(currTail.pos);
      newTail.pos := (currTail.pos.0 - currTail.dir.0, currTail.pos.1 - currTail.dir.1);
      newTail.dir := currTail.dir;
      body := body + [newTail];
      assert Values(body) == old(Values(body)) + [newTail.Value()];
    }

    /** Snake.reset: back to the start state, whatever the state was. */
    method Reset()
      modifies this
      ensures Valid() && fresh(head)
      ensures State() == Initial()
    {
      head := new Box(Start);
      body := [head];
      turns := map[];
      dir := Right;
    }
  }
}
