# Snake: a verified model of the simulation core

This project models the simulation core of a small pygame snake game
(`main.py`). The snake lives on a 20 × 20 torus (`GRID_LENGTH`). Its body is a
list of boxes, head first. Each box has an integer cell and a unit direction.
When the player turns, the snake records the head's cell in a map of turning
points. On every move, each box that stands on a recorded turning point takes
up that direction, and the last box deletes the entry. Eating the food grows
the snake by one box behind its tail. Running into its own body resets the
snake to one box at (3, 3) heading right.

Modules, one per part of the program:

- `Wrappers` (`wrappers.dfy`): the `Option` type.
- `Grid` (`grid.dfy`): `GridLength`, cells, the four directions, and one
  coordinate of a wrapped move (`WrapStep`).
- `Boxes` (`boxes.dfy`): `class Box`, whose `pos` and `dir` are overwritten in
  place. The `Segment` value is what a box holds, and `Moved` is `Box.move` on
  values.
- `Snakes` (`snakes.dfy`): `class Snake` over a `seq<Box>`, with `head` aliasing
  `body[0]`, the `turns` map and the commanded `dir`. `Valid()` says the body is
  non-empty, the head is `body[0]`, and the boxes are distinct objects.
  `State()` gives the snake as a `SnakeState` value. Each method is proved
  against a function on values: `AfterTurn`, `AfterMove`, `AfterGrow`,
  `Initial`.
- `Game` (`game.dfy`): one tick of the main loop without its I/O. It covers
  key acceptance, the move, eating and placing new food, and the
  self-collision loop. It also gives a value-level `TickResult` and the
  between-ticks invariant `Ready`.
- `Propagation` (`propagation.dfy`): how one turn travels down a straight
  snake, one box per move, until the tail consumes it.
- `Scenarios` (`scenarios.dfy`): concrete runs of the tick.

Randomness is a parameter. `get_food_pos` draws cells with
`random.randint(0, GRID_LENGTH - 1)`. Here the caller supplies that sequence of
draws, each inside the grid. The model takes the first draw the body does not
cover. The keys held during a tick are also a parameter (`Keys`).

Where the game's design notes and the code differ, the model follows the
code:

- `add_tail` does not wrap the new tail (main.py:86-89). After a tick that
  eats, the last box can sit at column or row -1 or 20 until its next move.
  `Ready` allows this, and `Scenarios.GrowthDoesNotWrap` exhibits it.
- The keys are examined in the order LEFT, RIGHT, UP, DOWN (main.py:144-151).
- Pressing the key for the current direction is accepted. It records a
  redundant turning point (`Game.RepeatedKeyRecordsTurn`).
- The head's own direction is not kept equal to the commanded `dir`. A head
  that crosses an old turning point adopts that turn's direction. So the
  model does not claim that they are equal.
- A self-collision reset does not move the food.

## Model

| member | source | states |
|---|---|---|
| `Grid.WrapStep` | main.py:50-51 | one coordinate after a move lies in [0, GridLength) and is congruent to coordinate + delta modulo GridLength, for every starting coordinate |
| `Boxes.Moved` | main.py:49-51 | a moved box keeps its direction, lands inside the grid, and each coordinate is the old coordinate plus the delta, reduced modulo GridLength, even from a cell off the grid |
| `Boxes.Box.constructor` | main.py:30-36 | a new box is at the given cell and heads right |
| `Boxes.Box.Move` | main.py:49-51 | the box's new value is `Moved` of its old value |
| `Boxes.Box.SetDirection` | main.py:53-54 | the direction becomes (dx, dy) and the position is untouched |
| `Snakes.Fresh` | main.py:58-63 | a new snake is one box at the given cell heading right, commanded right, with no turning points |
| `Snakes.AfterTurn` | main.py:65-68 | add_turn sets the commanded direction and the head's direction to d, and records d at the head's cell, overwriting any entry there; other boxes and other entries are unchanged |
| `Snakes.AfterMove` | main.py:70-77 | a move keeps the number of boxes and the commanded direction; what it does to each box and to the map is stated by the two lemmas below |
| `Snakes.MoveTurnsBoxes` | main.py:70-77 | box i takes the direction recorded at its pre-move cell exactly when that cell is recorded, otherwise keeps its own, and then moves once along that direction onto the grid |
| `Snakes.MoveConsumesTailTurn` | main.py:73-76 | a move adds and alters no turning point; the only entry it can remove is the tail's pre-move cell, which is always gone afterwards |
| `Snakes.OneBoxConsumesTurn` | main.py:73-76 | a one-box snake adopts the turn at its cell and deletes it in the same move |
| `Snakes.AfterGrow` | main.py:83-91 | add_tail adds exactly one box at the end and leaves earlier boxes, the map and the commanded direction unchanged; the new box plus the old tail's direction is the old tail's cell (no wrapping), and it heads the old tail's way |
| `Snakes.Snake.constructor` | main.py:58-63 | the new object is valid and its state is `Fresh(p)` |
| `Snakes.Snake.AddTurn` | main.py:65-68 | the object's new state is `AfterTurn` of the old one, with the same box objects |
| `Snakes.Snake.Move` | main.py:70-77 | the loop over the boxes leaves the object in state `AfterMove` of the old one, with the same box objects |
| `Snakes.Snake.AddTail` | main.py:83-91 | the body is the old boxes plus one fresh box, and the state is `AfterGrow` of the old one |
| `Snakes.Snake.Reset` | main.py:93-94 | whatever the old state, the new state is `Initial()`: one box at (3, 3) heading right, commanded right, no turning points; so resetting twice equals resetting once |
| `Game.AcceptedTurn` | main.py:143-151 | the turn taken is the first held key in the order LEFT, RIGHT, UP, DOWN whose direction is not the exact reverse of the commanded direction; there is none exactly when no held key qualifies; a taken turn is a unit direction |
| `Game.Steered` | main.py:143-151 | at most one add_turn per tick: the snake is untouched when no turn is accepted, and is `AfterTurn` with the accepted direction otherwise |
| `Game.RepeatedKeyRecordsTurn` | main.py:144-151 | holding the key of the current direction records a turning point at the head's cell |
| `Game.FirstFree` | main.py:121-128 | the chosen cell is the first draw not covered by the body, and there is none exactly when every draw is covered |
| `Game.FirstFreeIsFirst` | main.py:124-128 | if draw i is free and all earlier draws are covered, the chosen cell is draw i |
| `Game.GetFoodPos` | main.py:121-128 | the resampling loop returns a cell inside the grid and off the body, namely the first free draw |
| `Game.AfterCollisionCheck` | main.py:160-163 | the snake is reset to `Initial()` exactly when some box after the head shares the head's cell, and is otherwise unchanged; afterwards the head hits nothing |
| `Game.CollisionCheckIdempotent` | main.py:160-163 | checking for a collision twice gives the same state as checking once |
| `Game.CheckSelfCollision` | main.py:160-163 | the loop over a copy of the body, which may reset several times, leaves the state `AfterCollisionCheck` of the state before it |
| `Game.AfterEating` | main.py:155-158 | when the head is not on the food nothing changes; when it is, the snake is `AfterGrow` of itself and the new food is one of the draws, off the grown body |
| `Game.TickResult` | main.py:143-163 | in one tick, when the moved head is not on the food, the food stays and only the collision check follows; when it is, the snake grows by one box, the new food is a draw off the grown body, and the collision check follows without touching the food |
| `Game.Steer` | main.py:143-151 | the key handling acting on the snake object leaves it in state `Steered` of the old one, with the same boxes |
| `Game.Eat` | main.py:155-158 | eating acting on the snake object ends in the snake state and food of `AfterEating` |
| `Game.Tick` | main.py:143-163 | the tick acting on the snake object ends in the snake state and food of `TickResult` |
| `Game.NewGame` | main.py:131-132 | the game starts with the snake in `Initial()` and the food inside the grid, away from (3, 3) |
| `Game.InitialReady` | main.py:93-94 | the start state satisfies the between-ticks invariant |
| `Game.SteeredReady` | main.py:143-151 | accepting a key keeps `Ready`: the recorded turn and the new commanded and head directions are unit directions |
| `Game.MovedReady` | main.py:70-77 | a move keeps `Ready` and puts every box, the last one included, inside the grid |
| `Game.GrownReady` | main.py:83-91 | growing a snake that is wholly inside the grid leaves its new tail at most one cell outside it |
| `Game.TickKeepsReady` | main.py:143-163 | a tick keeps every direction and recorded turn a unit direction, every box but the last inside the grid, the last within one cell of it, and the food inside the grid |
| `Propagation.MidwayStep` | main.py:70-77 | one move takes a straight snake from k moves after a turn to k + 1 moves after it: box k takes the turn at the turning point, and the point stays recorded until the tail reads it |
| `Propagation.MidwayReached` | main.py:70-77 | k moves from the snake just turned give the snake k moves after the turn, for every k up to its length |
| `Propagation.TurnPropagates` | main.py:65-77 | after a straight snake of at most GridLength boxes turns, k moves later exactly the first k boxes (and the head) have taken the turn, each once, and the turning point is still recorded while k is less than the length |
| `Propagation.TurnReachesEveryBox` | main.py:65-77 | after as many moves as it has boxes, every box of the straight snake heads the new way, in line behind the head, and the map of turns is empty |
| `Scenarios.ThreeQuietTicks` | main.py:143-163 | from the start state with no key held and the food elsewhere, three ticks put the head at (6, 3) with length 1 and leave the food alone |
| `Scenarios.EatFromStart` | main.py:155-158 | the start snake eating food at (4, 3) becomes two boxes, (4, 3) then (3, 3), and the new food is off both |
| `Scenarios.GrowthDoesNotWrap` | main.py:86-89 | a one-box snake at (19, 5) heading right that eats at (0, 5) gets its new tail at (-1, 5), outside the grid |

## Left out

- Rendering: `Box.draw`, `Snake.draw`, `draw_grid`, `update_window`, colours,
  eyes and the pixel arithmetic (`box_width`). These are pygame drawing and
  floating point, not simulation.
- Window and caption setup, `clock.tick(FRAMERATE)`, the event loop, QUIT
  handling, the `run` flag and `pygame.quit`. These are I/O and timing.
- `random.randint`: the draws are a parameter, each assumed inside the grid
  as `randint(0, GRID_LENGTH - 1)` guarantees.
- `Box.color` and `Box.eyes`: they only affect drawing.
- `Snake.pos`: stored by `__init__` and never read.
- The food `Box`: it is never moved, only replaced, so the model keeps the
  food as a cell.
- Python list aliasing: `snake.dir`, `head.dir` and the recorded turn share
  one list. No code mutates a direction list in place, so directions are
  modelled as immutable pairs.
- Game.GetFoodPos: requires that one of the supplied draws is free. The
  source keeps drawing forever, and loops forever if the body covers every
  cell. The model does not state or prove termination of that unbounded
  resampling.
- Game.Eat and Game.AfterEating: require that, when the head is on the
  food, one of the supplied draws is off the grown body, for the same reason.
- Game.Tick: requires `CanPlaceFood`, the same assumption about the draws
  for a tick that eats.
- Propagation.TurnPropagates: proved only for a straight snake of at most
  GridLength boxes with no other turning points recorded. It does not cover
  bodies that already bend or overlap.
