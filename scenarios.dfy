/**
 * Concrete runs of the tick, from the state the game starts in and from a
 * state at the right-hand edge of the grid.
 */
module Scenarios {
  import opened Wrappers
  import opened Grid
  import opened Boxes
  import opened Snakes
  import opened Game

  const NoKeys: Keys := Keys(false, false, false, false)

  /**
   * With no key held and the food elsewhere, three ticks carry the
   * starting snake from (3, 3) to (6, 3), still one box long.
   */
  lemma ThreeQuietTicks(food: Pos)
    requires food != (4, 3) && food != (5, 3) && food != (6, 3)
    ensures var g0 := GameState(Initial(), food);
      && CanPlaceFood(g0, NoKeys, [])
      && var g1 := TickResult(g0, NoKeys, []);
      && CanPlaceFood(g1, NoKeys, [])
      && var g2 := TickResult(g1, NoKeys, []);
      && CanPlaceFood(g2, NoKeys, [])
      && var g3 := TickResult(g2, NoKeys, []);
      && g3.snake.body == [Segment((6, 3), Right)]
      && g3.food == food
  {
    var g0 := GameState(Initial(), food);
    var m1 := AfterMove(Steered(g0.snake, NoKeys));
    assert m1.body == [Segment((4, 3), Right)];
    var g1 := TickResult(g0, NoKeys, []);
    assert g1 == GameState(m1, food);
    var m2 := AfterMove(Steered(g1.snake, NoKeys));
    assert m2.body == [Segment((5, 3), Right)];
    var g2 := TickResult(g1, NoKeys, []);
    assert g2 == GameState(m2, food);
    var m3 := AfterMove(Steered(g2.snake, NoKeys));
    assert m3.body == [Segment((6, 3), Right)];
  }

  /**
   * The starting snake eats food at (4, 3): it is then two boxes long, head
   * at (4, 3) and tail at (3, 3), and the new food is off both.
   */
  lemma EatFromStart(draws: seq<Pos>)
    requires exists i :: 0 <= i < |draws| && draws[i] != (4, 3) && draws[i] != (3, 3)
    ensures var g0 := GameState(Initial(), (4, 3));
      && CanPlaceFood(g0, NoKeys, draws)
      && var g1 := TickResult(g0, NoKeys, draws);
      && g1.snake.body == [Segment((4, 3), Right), Segment((3, 3), Right)]
      && g1.food != (4, 3) && g1.food != (3, 3)
  {
    var g0 := GameState(Initial(), (4, 3));
    var moved := AfterMove(Steered(g0.snake, NoKeys));
    assert moved.body == [Segment((4, 3), Right)];
    var grown := AfterGrow(moved);
    assert grown.body == [Segment((4, 3), Right), Segment((3, 3), Right)];
    assert Cells(grown.body) == {(4, 3), (3, 3)};
    assert !HitsItself(grown);
  }

  /**
   * A one-box snake at (19, 5) heading right wraps to (0, 5), eats food
   * there, and its new tail is left at (-1, 5), off the grid: growth does
   * not wrap.
   */
  lemma GrowthDoesNotWrap(draws: seq<Pos>)
    requires exists i :: 0 <= i < |draws| && draws[i] != (0, 5) && draws[i] != (-1, 5)
    ensures var g0 := GameState(Fresh((19, 5)), (0, 5));
      && CanPlaceFood(g0, NoKeys, draws)
      && var g1 := TickResult(g0, NoKeys, draws);
      && g1.snake.body == [Segment((0, 5), Right), Segment((-1, 5), Right)]
      && !InGrid(Tail(g1.snake).pos)
  {
    var g0 := GameState(Fresh((19, 5)), (0, 5));
    var moved := AfterMove(Steered(g0.snake, NoKeys));
    assert moved.body == [Segment((0, 5), Right)];
    var grown := AfterGrow(moved);
    assert grown.body == [Segment((0, 5), Right), Segment((-1, 5), Right)];
    assert Cells(grown.body) == {(0, 5), (-1, 5)};
    assert !HitsItself(grown);
  }
}
