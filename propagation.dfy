/**
 * How a turn travels down the body. A straight snake of n boxes that turns
 * at its head's cell p: after k moves (k <= n) the first k boxes, and the
 * head, have taken up the new direction at p, one box per move and each
 * exactly once; the others have not yet arrived; and the turning point stays
 * recorded until the n-th move, when the tail consumes it.
 */
module Propagation {
  import opened Grid
  import opened Boxes
  import opened Snakes

  /** The cell m steps from p along d, on the torus. */
  function Shift(p: Pos, d: Dir, m: int): Pos {
    ((p.0 + Steps(m, d.0)) % GridLength, (p.1 + Steps(m, d.1)) % GridLength)
  }

  /** How far m steps move one coordinate whose unit delta is c. */
  function Steps(m: int, c: int): int {
    if c < 0 then -m else if c > 0 then m else 0
  }

  /** Snake.move applied n times. */
  function MoveTimes(s: SnakeState, n: nat): (r: SnakeState)
    requires HasHead(s)
    ensures HasHead(r) && |r.body| == |s.body|
    decreases n
  {
    if n == 0 then s else AfterMove(MoveTimes(s, n - 1))
  }

  /** A snake laid out in a line behind its head at p, every box heading d, no turns recorded. */
  predicate Straight(s: SnakeState, p: Pos, d: Dir) {
    && HasHead(s)
    && s.turns == map[]
    && s.dir == d
    && forall i :: 0 <= i < |s.body| ==> s.body[i] == Segment(Shift(p, d, -i), d)
  }

  /**
   * Box i of a straight snake of boxes heading d0 with its head at p, k
   * moves after it turned towards d1 at p.
   */
  function MidwayBox(p: Pos, d0: Dir, d1: Dir, k: nat, i: nat): Segment {
    if i < k || i == 0 then Segment(Shift(p, d1, k - i), d1)
    else Segment(Shift(p, d0, k - i), d0)
  }

  /** The whole snake of n boxes, k moves after the turn. */
  function Midway(p: Pos, d0: Dir, d1: Dir, n: nat, k: nat): SnakeState {
    SnakeState(
      seq(n, i requires 0 <= i < n => MidwayBox(p, d0, d1, k, i)),
      if k < n then map[p := d1] else map[],
      d1)
  }

  lemma ShiftZero(p: Pos, d: Dir)
    requires InGrid(p)
    ensures Shift(p, d, 0) == p
  {
  }

  /** One move of a box heading d advances it one more step along d. */
  lemma ShiftStep(p: Pos, d: Dir, m: int)
    requires IsDir(d)
    ensures Moved(Segment(Shift(p, d, m), d)) == Segment(Shift(p, d, m + 1), d)
  {
    ModAdd(p.0 + Steps(m, d.0), d.0);
    ModAdd(p.1 + Steps(m, d.1), d.1);
  }

  lemma ModAdd(a: int, b: int)
    ensures (a % GridLength + b + GridLength) % GridLength == (a + b) % GridLength
  {
    var q := a / GridLength;
    assert a == q * GridLength + a % GridLength;
    ModShift(a % GridLength + b + GridLength, q - 1);
  }

  /** Adding a multiple of GridLength does not change the remainder. */
  lemma {:induction false} ModShift(x: int, q: int)
    ensures (x + q * GridLength) % GridLength == x % GridLength
    decreases if q < 0 then -q else q
  {
    if q > 0 {
      ModShift(x, q - 1);
      assert x + q * GridLength == (x + (q - 1) * GridLength) + GridLength;
    } else if q < 0 {
      ModShift(x, q + 1);
      assert x + q * GridLength == (x + (q + 1) * GridLength) - GridLength;
    }
  }

  /** Fewer than GridLength steps, but at least one, never lead back to the start cell. */
  lemma ShiftAway(p: Pos, d: Dir, m: int)
    requires InGrid(p) && IsDir(d) && -GridLength < m < GridLength && m != 0
    ensures Shift(p, d, m) != p
  {
  }

  /** One move takes box i from k moves after the turn to k + 1 moves after it. */
  lemma MidwayBoxStep(p: Pos, d0: Dir, d1: Dir, n: nat, k: nat, i: nat)
    requires InGrid(p) && IsDir(d0) && IsDir(d1)
    requires n <= GridLength && k < n && i < n
    ensures Moved(Turned(MidwayBox(p, d0, d1, k, i), map[p := d1])) == MidwayBox(p, d0, d1, k + 1, i)
  {
    if i < k {
      ShiftAway(p, d1, k - i);
      ShiftStep(p, d1, k - i);
    } else if i == k {
      ShiftZero(p, d0);
      ShiftZero(p, d1);
      ShiftStep(p, d1, 0);
    } else if i == 0 {
      assert false;
    } else {
      ShiftAway(p, d0, k - i);
      ShiftStep(p, d0, k - i);
    }
  }

  /** One move takes the snake from k moves after the turn to k + 1 moves after it. */
  lemma MidwayStep(p: Pos, d0: Dir, d1: Dir, n: nat, k: nat)
    requires InGrid(p) && IsDir(d0) && IsDir(d1)
    requires 1 <= n <= GridLength && k < n
    ensures AfterMove(Midway(p, d0, d1, n, k)) == Midway(p, d0, d1, n, k + 1)
  {
    var s := Midway(p, d0, d1, n, k);
    var r := AfterMove(s);
    var t := Midway(p, d0, d1, n, k + 1);
    forall i | 0 <= i < n
      ensures r.body[i] == t.body[i]
    {
      MidwayBoxStep(p, d0, d1, n, k, i);
    }
    assert r.body == t.body;
    if n - 1 == k {
      if k == 0 {
        ShiftZero(p, d1);
      } else {
        ShiftZero(p, d0);
      }
    } else {
      ShiftAway(p, d0, k - (n - 1));
    }
  }

  /** Turning a straight snake gives the snake zero moves after the turn. */
  lemma MidwayStart(s: SnakeState, p: Pos, d0: Dir, d1: Dir)
    requires Straight(s, p, d0) && InGrid(p)
    ensures AfterTurn(s, d1) == Midway(p, d0, d1, |s.body|, 0)
  {
    ShiftZero(p, d0);
    assert AfterTurn(s, d1).body == Midway(p, d0, d1, |s.body|, 0).body;
  }

  /**
   * A straight snake of at most GridLength boxes turns at its head's cell;
   * after k moves it is exactly Midway(.., k): the first k boxes (and the
   * head) have turned, the rest still head d0, and the turn stays recorded
   * while k < n.
   */
  lemma TurnPropagates(s: SnakeState, p: Pos, d0: Dir, d1: Dir, k: nat)
    requires Straight(s, p, d0) && InGrid(p) && IsDir(d0) && IsDir(d1)
    requires |s.body| <= GridLength && k <= |s.body|
    ensures MoveTimes(AfterTurn(s, d1), k) == Midway(p, d0, d1, |s.body|, k)
  {
    MidwayStart(s, p, d0, d1);
    MidwayReached(p, d0, d1, |s.body|, k);
  }

  /** k moves from the snake just turned reach the snake k moves after the turn. */
  lemma MidwayReached(p: Pos, d0: Dir, d1: Dir, n: nat, k: nat)
    requires InGrid(p) && IsDir(d0) && IsDir(d1)
    requires 1 <= n <= GridLength && k <= n
    ensures MoveTimes(Midway(p, d0, d1, n, 0), k) == Midway(p, d0, d1, n, k)
  {
    var run := seq(n + 1, j requires 0 <= j <= n => Midway(p, d0, d1, n, j));
    forall j | 0 <= j < n
      ensures HasHead(run[j]) && AfterMove(run[j]) == run[j + 1]
    {
      MidwayStep(p, d0, d1, n, j);
    }
    MoveTimesAlong(run, k);
  }

  /** A run of states in which each is one move after the one before is walked by MoveTimes. */
  lemma {:induction false} MoveTimesAlong(run: seq<SnakeState>, k: nat)
    requires k < |run| && HasHead(run[0])
    requires forall j :: 0 <= j < |run| - 1 ==> HasHead(run[j]) && AfterMove(run[j]) == run[j + 1]
    ensures MoveTimes(run[0], k) == run[k]
  {
    if k > 0 {
      MoveTimesAlong(run, k - 1);
    }
  }

  /**
   * After as many moves as the snake has boxes, every box has taken the
   * turn and the turning point is gone from the map.
   */
  lemma TurnReachesEveryBox(s: SnakeState, p: Pos, d0: Dir, d1: Dir)
    requires Straight(s, p, d0) && InGrid(p) && IsDir(d0) && IsDir(d1)
    requires |s.body| <= GridLength
    ensures var r := MoveTimes(AfterTurn(s, d1), |s.body|);
      && r.turns == map[]
      && forall i :: 0 <= i < |r.body| ==> r.body[i] == Segment(Shift(p, d1, |s.body| - i), d1)
  {
    TurnPropagates(s, p, d0, d1, |s.body|);
    MidwayEnd(p, d0, d1, |s.body|);
  }

  /** n moves after the turn, the snake of n boxes has turned completely. */
  lemma MidwayEnd(p: Pos, d0: Dir, d1: Dir, n: nat)
    ensures var r := Midway(p, d0, d1, n, n);
      && r.turns == map[]
      && forall i :: 0 <= i < |r.body| ==> r.body[i] == Segment(Shift(p, d1, n - i), d1)
  {
  }
}
