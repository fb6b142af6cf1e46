/** The snake mini-game unlocked by the retro mode: a snake on a 20 x 15 grid that
    wraps around at the edges, grows by eating food, and ends when its head runs
    into one of its own cells. `Math.random` is replaced by the draws the caller passes. */
module RetroGaming {
  import opened Common
  import opened Text

  const GRID_WIDTH := 20
  const GRID_HEIGHT := 15

  datatype Cell = Cell(x: int, y: int)

  predicate InGrid(c: Cell)
  {
    0 <= c.x < GRID_WIDTH && 0 <= c.y < GRID_HEIGHT
  }

  datatype Direction = Up | Down | Left | Right

  function Opposite(d: Direction): (o: Direction)
    ensures o != d
  {
    match d
    case Up => Down
    case Down => Up
    case Left => Right
    case Right => Left
  }

  /** The new head: one cell in direction `d`, wrapping around the grid. For a
      cell of the grid the operands of `%` are never negative, so JavaScript's
      remainder and Dafny's agree. */
  function MoveHead(head: Cell, d: Direction): (h: Cell)
    requires InGrid(head)
    ensures InGrid(h)
    ensures d == Up ==> h.x == head.x && (h.y == head.y - 1 || (head.y == 0 && h.y == GRID_HEIGHT - 1))
    ensures d == Down ==> h.x == head.x && (h.y == head.y + 1 || (head.y == GRID_HEIGHT - 1 && h.y == 0))
    ensures d == Left ==> h.y == head.y && (h.x == head.x - 1 || (head.x == 0 && h.x == GRID_WIDTH - 1))
    ensures d == Right ==> h.y == head.y && (h.x == head.x + 1 || (head.x == GRID_WIDTH - 1 && h.x == 0))
  {
    match d
    case Up => Cell(head.x, (head.y - 1 + GRID_HEIGHT) % GRID_HEIGHT)
    case Down => Cell(head.x, (head.y + 1) % GRID_HEIGHT)
    case Left => Cell((head.x - 1 + GRID_WIDTH) % GRID_WIDTH, head.y)
    case Right => Cell((head.x + 1) % GRID_WIDTH, head.y)
  }

  /** A step back in the opposite direction undoes a step, wrap-around included. */
  lemma MoveOppositeUndoes(head: Cell, d: Direction)
    requires InGrid(head)
    ensures MoveHead(MoveHead(head, d), Opposite(d)) == head
  {
  }

  /** The direction a steering key asks for: `want`, unless it would reverse the
      snake's current direction, in which case the current direction is kept
      (this also overrides an earlier key press of the same tick). */
  function Steer(direction: Direction, want: Direction): (next: Direction)
    ensures next != Opposite(direction)
    ensures want != Opposite(direction) ==> next == want
    ensures want == Opposite(direction) ==> next == direction
  {
    if want != Opposite(direction) then want else direction
  }

  /** What a key press does, from `e.key.toUpperCase()`. */
  datatype KeyAction = SteerTo(d: Direction) | TogglePause | Ignore

  function ParseKey(key: string): (a: KeyAction)
    ensures a == SteerTo(Up) <==> ToUpperCase(key) in {"ARROWUP", "W"}
    ensures a == SteerTo(Down) <==> ToUpperCase(key) in {"ARROWDOWN", "S"}
    ensures a == SteerTo(Left) <==> ToUpperCase(key) in {"ARROWLEFT", "A"}
    ensures a == SteerTo(Right) <==> ToUpperCase(key) in {"ARROWRIGHT", "D"}
    ensures a == TogglePause <==> key == " "
  {
    var k := ToUpperCase(key);
    if k == " " then (assert key[0] == ' '; TogglePause)
    else if k == "ARROWUP" || k == "W" then SteerTo(Up)
    else if k == "ARROWDOWN" || k == "S" then SteerTo(Down)
    else if k == "ARROWLEFT" || k == "A" then SteerTo(Left)
    else if k == "ARROWRIGHT" || k == "D" then SteerTo(Right)
    else Ignore
  }

  lemma {:induction false} ToUpperCaseIdempotent(s: string)
    ensures ToUpperCase(ToUpperCase(s)) == ToUpperCase(s)
  {
    var u := ToUpperCase(s);
    assert forall i :: 0 <= i < |s| ==> UpperChar(u[i]) == u[i];
  }

  /** Keys are read without regard to case: "w" steers like "W" and "ArrowLeft" like "ARROWLEFT". */
  lemma ParseKeyCaseInsensitive(key: string)
    ensures ParseKey(ToUpperCase(key)) == ParseKey(key)
  {
    ToUpperCaseIdempotent(key);
  }

  lemma ParseKeyExamples()
    ensures ParseKey("w") == SteerTo(Up) && ParseKey("ArrowLeft") == SteerTo(Left)
  {
    assert ToUpperCase("w") == "W";
    assert ToUpperCase("ArrowLeft") == "ARROWLEFT";
  }

  /** Two unit reals standing for the two `Math.random()` calls of one pass of the
      food loop, the column first. */
  type UnitReal = r: real | 0.0 <= r < 1.0

  datatype Draw = Draw(rx: UnitReal, ry: UnitReal)

  function DrawCell(d: Draw): (c: Cell)
    ensures InGrid(c)
  {
    assert d.rx * GRID_WIDTH as real < GRID_WIDTH as real;
    assert d.ry * GRID_HEIGHT as real < GRID_HEIGHT as real;
    Cell((d.rx * GRID_WIDTH as real).Floor, (d.ry * GRID_HEIGHT as real).Floor)
  }

  /** Some draw lands off the given cells: the food loop then ends. */
  predicate LandsOff(draws: seq<Draw>, cells: seq<Cell>)
  {
    draws != [] && (DrawCell(draws[0]) !in cells || LandsOff(draws[1..], cells))
  }

  /** Where the food loop puts the food: the first drawn cell that is off the snake. */
  function FirstFree(cells: seq<Cell>, draws: seq<Draw>): (food: Cell)
    requires LandsOff(draws, cells)
    ensures food !in cells && InGrid(food)
    ensures exists k :: 0 <= k < |draws| && food == DrawCell(draws[k])
  {
    if DrawCell(draws[0]) !in cells then DrawCell(draws[0])
    else
      var f := FirstFree(cells, draws[1..]);
      var k :| 0 <= k < |draws[1..]| && f == DrawCell(draws[1..][k]);
      assert f == DrawCell(draws[k + 1]);
      f
  }

  /** The do-while loop of the tick that re-rolls the food until it is off the snake. */
  method RespawnFood(cells: seq<Cell>, draws: seq<Draw>) returns (food: Cell)
    requires LandsOff(draws, cells)
    ensures food == FirstFree(cells, draws)
    ensures food !in cells && InGrid(food)
  {
    var i := 0;
    food := DrawCell(draws[i]);
    while food in cells
      invariant 0 <= i < |draws|
      invariant food == DrawCell(draws[i])
      invariant LandsOff(draws[i..], cells)
      invariant FirstFree(cells, draws[i..]) == FirstFree(cells, draws)
      decreases |draws| - i
    {
      assert draws[i..][1..] == draws[i + 1..];
      i := i + 1;
      food := DrawCell(draws[i]);
    }
    assert draws[i..][0] == draws[i];
  }

  /** The state of one game. */
  class SnakeGame {
    var snake: seq<Cell>
    var food: Cell
    var direction: Direction
    var nextDirection: Direction
    var score: int
    var gameOver: bool
    var isPaused: bool

    /** What every tick and key press keeps: a snake of at least three cells on the
        grid, food on the grid and off the snake, no pending reversal, and 10
        points per cell grown since the start. */
    ghost predicate Valid()
      reads this
    {
      && |snake| >= 3
      && (forall i :: 0 <= i < |snake| ==> InGrid(snake[i]))
      && InGrid(food) && food !in snake
      && nextDirection != Opposite(direction)
      && score == 10 * (|snake| - 3)
    }

    constructor ()
      ensures Valid()
      ensures snake == [Cell(10, 7), Cell(9, 7), Cell(8, 7)] && food == Cell(15, 10)
      ensures direction == Right && nextDirection == Right
      ensures score == 0 && !gameOver && !isPaused
    {
      snake := [Cell(10, 7), Cell(9, 7), Cell(8, 7)];
      food := Cell(15, 10);
      direction, nextDirection := Right, Right;
      score := 0;
      gameOver, isPaused := false, false;
    }

    /** The keydown handler: steering keys set the next direction through the
        reversal guard, the space bar toggles the pause; nothing once the game is over. */
    method HandleKey(key: string)
      requires Valid()
      modifies this`nextDirection, this`isPaused
      ensures Valid()
      ensures old(gameOver) ==> nextDirection == old(nextDirection) && isPaused == old(isPaused)
      ensures !old(gameOver) && ParseKey(key).SteerTo? ==>
                nextDirection == Steer(direction, ParseKey(key).d) && isPaused == old(isPaused)
      ensures !old(gameOver) && ParseKey(key) == TogglePause ==>
                isPaused == !old(isPaused) && nextDirection == old(nextDirection)
      ensures ParseKey(key) == Ignore ==> nextDirection == old(nextDirection) && isPaused == old(isPaused)
    {
      if gameOver {
        return;
      }
      match ParseKey(key)
      case SteerTo(d) =>
        nextDirection := Steer(direction, d);
      case TogglePause =>
        isPaused := !isPaused;
      case Ignore =>
    }

    /** The cell the head moves to on the next tick. */
    function NextHead(): (h: Cell)
      reads this
      requires Valid()
      ensures InGrid(h)
    {
      MoveHead(snake[0], nextDirection)
    }

    /** One interval tick (the interval runs only while the game is neither over
        nor paused). The snake moves one cell in the next direction; the game is
        over when the new head meets any cell of the old snake, its tail included;
        eating the food grows the snake, scores 10 and re-rolls the food off the
        grown snake, otherwise the tail cell is dropped. */
    method Tick(draws: seq<Draw>)
      requires Valid() && !gameOver && !isPaused
      requires NextHead() == food ==> LandsOff(draws, [NextHead()] + snake)
      modifies this`snake, this`food, this`direction, this`nextDirection, this`score, this`gameOver
      ensures Valid()
      ensures direction == old(nextDirection) && nextDirection == direction
      ensures gameOver <==> old(NextHead()) in old(snake)
      ensures old(NextHead()) == old(food) ==>
                && snake == [old(NextHead())] + old(snake)
                && score == old(score) + 10
                && food == FirstFree(snake, draws)
      ensures old(NextHead()) != old(food) ==>
                && snake == [old(NextHead())] + old(snake)[..|old(snake)| - 1]
                && score == old(score) && food == old(food)
    {
      var d := nextDirection;
      var newHead := MoveHead(snake[0], d);
      if newHead in snake {
        gameOver := true;
      }
      var newSnake := [newHead] + snake;
      if newHead == food {
        score := score + 10;
        food := RespawnFood(newSnake, draws);
      } else {
        newSnake := newSnake[..|newSnake| - 1];
        assert newSnake == [newHead] + snake[..|snake| - 1];
      }
      snake := newSnake;
      direction, nextDirection := d, d;
    }
  }

  /** The space bar pressed twice leaves the pause as it was. */
  method TogglePauseTwice(g: SnakeGame)
    requires g.Valid() && !g.gameOver
    modifies g`nextDirection, g`isPaused
    ensures g.Valid() && g.isPaused == old(g.isPaused) && g.nextDirection == old(g.nextDirection)
  {
    g.HandleKey(" ");
    g.HandleKey(" ");
  }
}
