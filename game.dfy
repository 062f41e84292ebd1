/**
 * One tick of the game loop (main.py, lines 143-163) without its I/O:
 * turn acceptance from the arrow keys, the move, eating and regrowing the
 * food, and the self-collision reset. The random draws of get_food_pos are
 * supplied by the caller.
 */
module Game {
  import opened Wrappers
  import opened Grid
  import opened Boxes
  import opened Snakes

  /** Which arrow keys are held down during this tick. */
  datatype Keys = Keys(left: bool, right: bool, up: bool, down: bool)

  datatype Key = LeftKey | RightKey | UpKey | DownKey

  /** The order in which the tick looks at the keys. */
  const Priority: seq<Key> := [LeftKey, RightKey, UpKey, DownKey]

  function Heading(k: Key): Dir {
    match k
    case LeftKey => Left
    case RightKey => Right
    case UpKey => Up
    case DownKey => Down
  }

  predicate Held(keys: Keys, k: Key) {
    match k
    case LeftKey => keys.left
    case RightKey => keys.right
    case UpKey => keys.up
    case DownKey => keys.down
  }

  /** A held key is acted on unless it would reverse the snake outright. */
  predicate Allowed(keys: Keys, k: Key, facing: Dir) {
    Held(keys, k) && facing != Reverse(Heading(k))
  }

  /**
   * The if/elif chain of the tick: the turn it passes to add_turn, if any.
   * It is the first allowed key in priority order, and there is none
   * exactly when no key is allowed. Re-pressing the current direction is
   * allowed.
   */
  function AcceptedTurn(keys: Keys, facing: Dir): (r: Option<Dir>)
    ensures r.None? <==> forall i :: 0 <= i < |Priority| ==> !Allowed(keys, Priority[i], facing)
    ensures r.Some? ==> exists i :: (0 <= i < |Priority| && Allowed(keys, Priority[i], facing)
      && r.value == Heading(Priority[i])
      && forall j :: 0 <= j < i ==> !Allowed(keys, Priority[j], facing))
    ensures r.Some? ==> IsDir(r.value) && r.value != Reverse(facing)
  {
    if keys.left && facing != (1, 0) then
      assert Allowed(keys, Priority[0], facing);
      Some((-1, 0))
    else if keys.right && facing != (-1, 0) then
      assert Allowed(keys, Priority[1], facing);
      Some((1, 0))
    else if keys.up && facing != (0, 1) then
      assert Allowed(keys, Priority[2], facing);
      Some((0, -1))
    else if keys.down && facing != (0, -1) then
      assert Allowed(keys, Priority[3], facing);
      Some((0, 1))
    else
      None
  }

  /** The snake after the key handling of a tick: at most one add_turn. */
  function Steered(s: SnakeState, keys: Keys): (r: SnakeState)
    requires HasHead(s)
    ensures AcceptedTurn(keys, s.dir).None? ==> r == s
    ensures AcceptedTurn(keys, s.dir).Some? ==> r == AfterTurn(s, AcceptedTurn(keys, s.dir).value)
  {
    match AcceptedTurn(keys, s.dir)
    case None => s
    case Some(d) => AfterTurn(s, d)
  }

  /**
   * The cell get_food_pos settles on, given its successive random draws:
   * the first draw the body does not cover. None when every draw is
   * covered, where the source would go on drawing.
   */
  function FirstFree(draws: seq<Pos>, taken: set<Pos>): (r: Option<Pos>)
    ensures r.None? <==> forall i :: 0 <= i < |draws| ==> draws[i] in taken
    ensures r.Some? ==> exists k :: (0 <= k < |draws| && draws[k] == r.value
      && r.value !in taken
      && forall j :: 0 <= j < k ==> draws[j] in taken)
  {
    if |draws| == 0 then None
    else if draws[0] !in taken then Some(draws[0])
    else
      var r := FirstFree(draws[1..], taken);
      assert r.Some? ==> exists k :: (0 <= k < |draws| && draws[k] == r.value && r.value !in taken
        && forall j :: 0 <= j < k ==> draws[j] in taken)
      by {
        if r.Some? {
          var k :| 0 <= k < |draws| - 1 && draws[1..][k] == r.value
            && forall j :: 0 <= j < k ==> draws[1..][j] in taken;
          assert draws[k + 1] == r.value;
          assert forall j :: 0 <= j < k + 1 ==> draws[j] in taken by {
            forall j | 0 <= j < k + 1 ensures draws[j] in taken {
              if j > 0 { assert draws[j] == draws[1..][j - 1]; }
            }
          }
        }
      }
      r
  }

  /** random.randint(0, GRID_LENGTH - 1) gives cells inside the grid. */
  predicate AllInGrid(draws: seq<Pos>) {
    forall i :: 0 <= i < |draws| ==> InGrid(draws[i])
  }

  /**
   * get_food_pos: draw, and draw again while the cell is on the snake's
   * body. The result is inside the grid, off the body, and the first such
   * draw.
   */
  method GetFoodPos(snake: Snake, draws: seq<Pos>) returns (p: Pos)
    requires snake.Valid() && AllInGrid(draws)
    requires exists i :: 0 <= i < |draws| && draws[i] !in Cells(snake.State().body)
    ensures InGrid(p) && p !in Cells(snake.State().body)
    ensures Some(p) == FirstFree(draws, Cells(snake.State().body))
  {
    var i := 0;
    p := draws[0];
    while p in Cells(snake.State().body)
      invariant 0 <= i < |draws| && p == draws[i]
      invariant forall j :: 0 <= j < i ==> draws[j] in Cells(snake.State().body)
      decreases |draws| - i
    {
      i := i + 1;
      p := draws[i];
    }
    FirstFreeIsFirst(draws, Cells(snake.State().body), i);
  }

  /** The first free draw is the one FirstFree names. */
  lemma {:induction false} FirstFreeIsFirst(draws: seq<Pos>, taken: set<Pos>, i: int)
    requires 0 <= i < |draws| && draws[i] !in taken
    requires forall j :: 0 <= j < i ==> draws[j] in taken
    ensures FirstFree(draws, taken) == Some(draws[i])
  {
    if i > 0 {
      FirstFreeIsFirst(draws[1..], taken, i - 1);
    }
  }

  /**
   * Holding the key of the direction already commanded is not a reversal:
   * the turn is taken again and recorded at the head's cell.
   */
  lemma RepeatedKeyRecordsTurn(s: SnakeState, keys: Keys)
    requires HasHead(s) && IsDir(s.dir)
    requires keys == Keys(s.dir == Left, s.dir == Right, s.dir == Up, s.dir == Down)
    ensures Steered(s, keys).turns == s.turns[Head(s).pos := s.dir]
    ensures Steered(s, keys).body == s.body[0 := Segment(Head(s).pos, s.dir)]
  {
  }

  /** Some box other than the head shares the head's cell. */
  predicate HitsItself(s: SnakeState)
    requires HasHead(s)
  {
    exists i :: 1 <= i < |s.body| && s.body[i].pos == Head(s).pos
  }

  /**
   * The collision check of a tick on values: the snake is reset exactly
   * when its head shares a cell with another box, and is otherwise left
   * as it is.
   */
  function AfterCollisionCheck(s: SnakeState): (r: SnakeState)
    requires HasHead(s)
    ensures HasHead(r)
    ensures HitsItself(s) ==> r == Initial()
    ensures !HitsItself(s) ==> r == s
    ensures !HitsItself(r)
  {
    if HitsItself(s) then Initial() else s
  }

  /** Checking twice gives the state of checking once. */
  lemma CollisionCheckIdempotent(s: SnakeState)
    requires HasHead(s)
    ensures AfterCollisionCheck(AfterCollisionCheck(s)) == AfterCollisionCheck(s)
  {
  }

  /**
   * The collision loop of a tick. It walks a copy of the body without its
   * head and compares the CURRENT head with each box; after a reset the
   * fresh head at Start is compared with the remaining old boxes and may
   * reset again, which leaves the same state.
   */
  method CheckSelfCollision(snake: Snake)
    requires snake.Valid()
    modifies snake
    ensures snake.Valid()
    ensures snake.State() == AfterCollisionCheck(old(snake.State()))
  {
    ghost var s0 := snake.State();
    var rest := snake.body[1..];
    ghost var hit := false;
    var i := 0;
    while i < |rest|
      invariant 0 <= i <= |rest|
      invariant snake.Valid()
      invariant forall k :: 0 <= k < |rest| ==> rest[k].pos == s0.body[k + 1].pos
      invariant hit <==> exists k :: 1 <= k <= i && s0.body[k].pos == Head(s0).pos
      invariant snake.State() == if hit then Initial() else s0
      invariant snake.head.pos == Head(snake.State()).pos
    {
      if snake.head.pos == rest[i].pos {
        snake.Reset();
      }
      hit := hit || s0.body[i + 1].pos == Head(s0).pos;
      i := i + 1;
    }
  }

  /** The whole game state: the snake and the food's cell. */
  datatype GameState = GameState(snake: SnakeState, food: Pos)

  /**
   * The draws can place new food whenever this tick eats: some draw is off
   * the grown body.
   */
  predicate CanPlaceFood(g: GameState, keys: Keys, draws: seq<Pos>)
    requires HasHead(g.snake)
  {
    var moved := AfterMove(Steered(g.snake, keys));
    Head(moved).pos == g.food ==> FirstFree(draws, Cells(AfterGrow(moved).body)).Some?
  }

  /**
   * Eating on values (main.py, lines 155-158): when the head is on the
   * food, the snake grows and new food is drawn against the grown body;
   * otherwise nothing changes.
   */
  function AfterEating(s: SnakeState, food: Pos, draws: seq<Pos>): (r: GameState)
    requires HasHead(s)
    requires Head(s).pos == food ==> FirstFree(draws, Cells(AfterGrow(s).body)).Some?
    ensures Head(s).pos != food ==> r == GameState(s, food)
    ensures Head(s).pos == food ==>
      && r.snake == AfterGrow(s)
      && r.food in draws
      && r.food !in Cells(r.snake.body)
  {
    if Head(s).pos == food then
      var grown := AfterGrow(s);
      GameState(grown, FirstFree(draws, Cells(grown.body)).value)
    else
      GameState(s, food)
  }

  /**
   * One tick on values: steer, move, eat if the head reached the food (grow,
   * then draw new food against the grown body), then the collision check,
   * which never moves the food.
   */
  function TickResult(g: GameState, keys: Keys, draws: seq<Pos>): (r: GameState)
    requires HasHead(g.snake) && CanPlaceFood(g, keys, draws)
    ensures HasHead(r.snake)
    ensures var moved := AfterMove(Steered(g.snake, keys));
      && (Head(moved).pos != g.food ==> r.food == g.food && r.snake == AfterCollisionCheck(moved))
      && (Head(moved).pos == g.food ==>
            && r.food in draws
            && r.food !in Cells(AfterGrow(moved).body)
            && r.snake == AfterCollisionCheck(AfterGrow(moved)))
  {
    var eaten := AfterEating(AfterMove(Steered(g.snake, keys)), g.food, draws);
    GameState(AfterCollisionCheck(eaten.snake), eaten.food)
  }

  /** Lines 143-151 of main.py: at most one add_turn, chosen by AcceptedTurn. */
  method Steer(snake: Snake, keys: Keys)
    requires snake.Valid()
    modifies snake, snake.head
    ensures snake.Valid() && snake.body == old(snake.body)
    ensures snake.State() == Steered(old(snake.State()), keys)
  {
    var turn := AcceptedTurn(keys, snake.dir);
    if turn.Some? {
      snake.AddTurn(turn.value.0, turn.value.1);
    }
  }

  /** Lines 155-158 of main.py: grow and place new food when the head is on the food. */
  method Eat(snake: Snake, food: Pos, draws: seq<Pos>) returns (newFood: Pos)
    requires snake.Valid() && AllInGrid(draws)
    requires Head(snake.State()).pos == food ==> FirstFree(draws, Cells(AfterGrow(snake.State()).body)).Some?
    modifies snake
    ensures snake.Valid()
    ensures GameState(snake.State(), newFood) == AfterEating(old(snake.State()), food, draws)
  {
    newFood := food;
    if snake.head.pos == food {
      snake.AddTail();
      newFood := GetFoodPos(snake, draws);
    }
  }

  /** Lines 143-163 of main.py: one tick acting on the snake object. */
  method Tick(snake: Snake, food: Pos, keys: Keys, draws: seq<Pos>) returns (newFood: Pos)
    requires snake.Valid() && AllInGrid(draws)
    requires CanPlaceFood(GameState(snake.State(), food), keys, draws)
    modifies snake, snake.body
    ensures snake.Valid()
    ensures GameState(snake.State(), newFood) == TickResult(GameState(old(snake.State()), food), keys, draws)
  {
    Steer(snake, keys);
    snake.Move();
    newFood := Eat(snake, food, draws);
    CheckSelfCollision(snake);
  }

  /** Lines 131-132 of main.py: a new snake at Start and its first food. */
  method NewGame(draws: seq<Pos>) returns (snake: Snake, food: Pos)
    requires AllInGrid(draws)
    requires exists i :: 0 <= i < |draws| && draws[i] != Start
    ensures snake.Valid() && fresh(snake) && fresh(snake.head)
    ensures snake.State() == Initial()
    ensures InGrid(food) && food != Start
  {
    snake := new Snake(Start);
    assert Cells(snake.State().body) == {Start};
    food := GetFoodPos(snake, draws);
  }

  /** Within one step of the grid: where an unwrapped new tail can sit. */
  predicate NearGrid(p: Pos) {
    -1 <= p.0 <= GridLength && -1 <= p.1 <= GridLength
  }

  /**
   * What holds of the snake between ticks: every direction is a unit
   * direction, and every box is on the grid except possibly the last,
   * which a tick that ate may have left one step off it.
   */
  predicate Ready(s: SnakeState) {
    && HasHead(s)
    && IsDir(s.dir)
    && (forall i :: 0 <= i < |s.body| ==> IsDir(s.body[i].dir))
    && (forall q :: q in s.turns ==> IsDir(s.turns[q]))
    && (forall i :: 0 <= i < |s.body| - 1 ==> InGrid(s.body[i].pos))
    && NearGrid(Tail(s).pos)
  }

  lemma InitialReady()
    ensures Ready(Initial())
  {
  }

  lemma SteeredReady(s: SnakeState, keys: Keys)
    requires Ready(s)
    ensures Ready(Steered(s, keys))
  {
  }

  /** After a move every box is on the grid, and directions stay unit directions. */
  lemma MovedReady(s: SnakeState)
    requires Ready(s)
    ensures Ready(AfterMove(s))
    ensures forall i :: 0 <= i < |s.body| ==> InGrid(AfterMove(s).body[i].pos)
  {
    var r := AfterMove(s);
    forall i | 0 <= i < |r.body|
      ensures IsDir(r.body[i].dir) && InGrid(r.body[i].pos)
    {
      MoveTurnsBoxes(s, i);
    }
  }

  /** Growing a snake that is wholly on the grid leaves its new tail at most one step off. */
  lemma GrownReady(s: SnakeState)
    requires Ready(s)
    requires forall i :: 0 <= i < |s.body| ==> InGrid(s.body[i].pos)
    ensures Ready(AfterGrow(s))
  {
    var r := AfterGrow(s);
    assert forall i :: 0 <= i < |r.body| - 1 ==> r.body[i] == s.body[i];
  }

  /** A tick keeps the snake Ready and the food on the grid. */
  lemma TickKeepsReady(g: GameState, keys: Keys, draws: seq<Pos>)
    requires Ready(g.snake) && InGrid(g.food) && AllInGrid(draws)
    requires CanPlaceFood(g, keys, draws)
    ensures Ready(TickResult(g, keys, draws).snake)
    ensures InGrid(TickResult(g, keys, draws).food)
  {
    var steered := Steered(g.snake, keys);
    SteeredReady(g.snake, keys);
    var moved := AfterMove(steered);
    MovedReady(steered);
    if Head(moved).pos == g.food {
      GrownReady(moved);
    }
  }
}
