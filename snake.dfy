/** Snake on a 20 x 20 grid: wall and self collision, moving by adding a head
    and dropping the tail, growth on food, perpendicular turns and the
    ready / playing / paused / game-over state machine. */
module Snake {

  datatype Point = Point(x: int, y: int)

  datatype Status = Ready | Playing | Paused | GameOver

  /** A keyboard event: its physical `code` and its `key` value. The on-screen
      buttons send only one of the two, the other is then the empty string. */
  datatype KeyEvent = KeyEvent(code: string, key: string)

  const CanvasWidth: int := 400
  const CanvasHeight: int := 400
  const GridSize: int := 20

  /** Cells per row and per column: 400 / 20. */
  const Cells: int := CanvasWidth / GridSize

  predicate InGrid(p: Point) {
    0 <= p.x < Cells && 0 <= p.y < Cells
  }

  predicate IsUnit(d: Point) {
    d == Point(1, 0) || d == Point(-1, 0) || d == Point(0, 1) || d == Point(0, -1)
  }

  function Neg(d: Point): Point {
    Point(-d.x, -d.y)
  }

  /** A well-formed body: at least the head, every segment on the grid, no cell twice. */
  predicate ValidBody(s: seq<Point>) {
    && |s| >= 1
    && (forall i :: 0 <= i < |s| ==> InGrid(s[i]))
    && (forall i, j :: 0 <= i < j < |s| ==> s[i] != s[j])
  }

  /** `checkCollision`: the head leaves the grid, or lands on any current
      segment, the tail that is about to move included. */
  function CheckCollision(head: Point, body: seq<Point>): (r: bool)
    ensures r <==> head.x < 0 || head.y < 0 || head.x >= 20 || head.y >= 20 ||
                   exists i :: 0 <= i < |body| && body[i] == head
  {
    if head.x < 0 || head.y < 0 || head.x >= CanvasWidth / GridSize || head.y >= CanvasHeight / GridSize then true
    else head in body
  }

  /** The body after a step without collision: the head in front, and the
      tail dropped unless the snake grows. */
  function Advance(body: seq<Point>, head: Point, grow: bool): (r: seq<Point>)
    requires |body| >= 1
    ensures |r| == if grow then |body| + 1 else |body|
    ensures r[0] == head && forall i :: 1 <= i < |r| ==> r[i] == body[i - 1]
  {
    if grow then [head] + body else [head] + body[..|body| - 1]
  }

  /** A step that passes the collision test keeps the body on the grid and free
      of repeated cells. */
  lemma AdvanceKeepsBody(body: seq<Point>, head: Point, grow: bool)
    requires ValidBody(body)
    requires !CheckCollision(head, body)
    ensures ValidBody(Advance(body, head, grow))
  {
    var r := Advance(body, head, grow);
    forall i, j | 0 <= i < j < |r| ensures r[i] != r[j] {
      if i == 0 {
        assert r[j] == body[j - 1];
      } else {
        assert r[i] == body[i - 1] && r[j] == body[j - 1];
      }
    }
  }

  /** The direction rule of `handleKeyPress` while playing: a vertical turn
      only when moving horizontally and the other way round. */
  function Turn(d: Point, key: string): (r: Point)
    ensures r == d || r.x == 0 || r.y == 0
    ensures IsUnit(d) ==> IsUnit(r) && r != Neg(d)
    ensures r != d ==> (d.y == 0 && (r == Point(0, -1) || r == Point(0, 1))) ||
                       (d.x == 0 && (r == Point(-1, 0) || r == Point(1, 0)))
  {
    if key == "ArrowUp" && d.y == 0 then Point(0, -1)
    else if key == "ArrowDown" && d.y == 0 then Point(0, 1)
    else if key == "ArrowLeft" && d.x == 0 then Point(-1, 0)
    else if key == "ArrowRight" && d.x == 0 then Point(1, 0)
    else d
  }

  /** The status rule of `handleKeyPress`. */
  function NextStatus(s: Status, e: KeyEvent): (r: Status)
    ensures r != s ==> (s == Ready && r == Playing && e.code == "Space") ||
                       (s == Playing && r == Paused && e.key == " ") ||
                       (s == Paused && r == Playing && e.code == "Space")
    ensures s == GameOver ==> r == GameOver
  {
    if s == Ready && e.code == "Space" then Playing
    else if s == Playing && e.key == " " then Paused
    else if s == Paused && e.code == "Space" then Playing
    else s
  }

  /** A keyboard space press carries both the code and the key. */
  lemma SpaceTogglesPause()
    ensures NextStatus(Playing, KeyEvent("Space", " ")) == Paused
    ensures NextStatus(Paused, KeyEvent("Space", " ")) == Playing
    ensures NextStatus(Ready, KeyEvent("Space", " ")) == Playing
    ensures NextStatus(Playing, KeyEvent("Space", "")) == Playing
  {
  }

  /** Each press is checked against the current direction, not the one the
      snake last moved in: two presses before one tick (Up, then Left, while
      moving right) point it straight back, and the next head lands on the
      neck. */
  lemma TwoPressesReverse(body: seq<Point>)
    requires |body| >= 2 && body[1] == Point(body[0].x - 1, body[0].y)
    ensures Turn(Turn(Point(1, 0), "ArrowUp"), "ArrowLeft") == Neg(Point(1, 0))
    ensures CheckCollision(Point(body[0].x - 1, body[0].y), body)
  {
    assert Turn(Point(1, 0), "ArrowUp") == Point(0, -1);
    assert "ArrowLeft" != "ArrowUp" && "ArrowLeft" != "ArrowDown" by {
      assert "ArrowLeft"[5] != "ArrowUp"[5] && "ArrowLeft"[5] != "ArrowDown"[5];
    }
    assert body[1] in body;
  }

  class SnakeGame {
    var snake: seq<Point>
    var direction: Point
    var food: Point
    var score: nat
    var highScore: int
    var status: Status

    /** The game invariant: a well-formed body, a unit direction and one
        extra segment for every ten points. */
    ghost predicate Valid()
      reads this
    {
      ValidBody(snake) && IsUnit(direction) && |snake| * 10 == score + 10
    }

    constructor (savedHighScore: int)
      ensures Valid()
      ensures snake == [Point(10, 10)] && direction == Point(1, 0) && food == Point(15, 15)
      ensures score == 0 && highScore == savedHighScore && status == Ready
    {
      snake := [Point(10, 10)];
      direction := Point(1, 0);
      food := Point(15, 15);
      score := 0;
      highScore := savedHighScore;
      status := Ready;
    }

    /** `resetGame`; `newFood` is the freshly generated food cell. */
    method ResetGame(newFood: Point)
      modifies this
      ensures Valid()
      ensures snake == [Point(10, 10)] && direction == Point(1, 0) && food == newFood
      ensures score == 0 && status == Ready && highScore == old(highScore)
    {
      snake := [Point(10, 10)];
      food := newFood;
      direction := Point(1, 0);
      score := 0;
      status := Ready;
    }

    /** One tick of `gameLoop`; `newFood` is the food cell generated if the
        snake eats. */
    method GameLoop(newFood: Point)
      requires Valid()
      modifies this
      ensures Valid()
      ensures direction == old(direction)
      ensures old(status) != Playing ==> unchanged(this)
      ensures old(status) == Playing ==>
        var head := Point(old(snake)[0].x + old(direction).x, old(snake)[0].y + old(direction).y);
        if CheckCollision(head, old(snake)) then
          && status == GameOver && snake == old(snake) && score == old(score) && food == old(food)
          && highScore == (if old(score) > old(highScore) then old(score) else old(highScore))
        else
          && status == Playing && highScore == old(highScore)
          && snake == Advance(old(snake), head, head == old(food))
          && (head == old(food) ==> score == old(score) + 10 && food == newFood)
          && (head != old(food) ==> score == old(score) && food == old(food))
    {
      if status != Playing {
        return;
      }
      var newSnake := snake;
      var head := Point(newSnake[0].x + direction.x, newSnake[0].y + direction.y);
      if CheckCollision(head, newSnake) {
        status := GameOver;
        if score > highScore {
          highScore := score;
        }
        return;
      }
      AdvanceKeepsBody(snake, head, head == food);
      newSnake := [head] + newSnake;
      if head.x == food.x && head.y == food.y {
        score := score + 10;
        food := newFood;
      } else {
        newSnake := newSnake[..|newSnake| - 1];
      }
      assert newSnake == Advance(old(snake), head, head == old(food));
      snake := newSnake;
    }

    /** `handleKeyPress`. */
    method HandleKeyPress(e: KeyEvent)
      requires Valid()
      modifies this`direction, this`status
      ensures Valid()
      ensures status == NextStatus(old(status), e)
      ensures direction == if old(status) == Playing then Turn(old(direction), e.key) else old(direction)
      ensures direction != Neg(old(direction))
    {
      assert "ArrowLeft"[5] != "ArrowDown"[5];
      if status == Ready && e.code == "Space" {
        status := Playing;
        return;
      }
      if status == Playing {
        if e.key == "ArrowUp" {
          if direction.y == 0 { direction := Point(0, -1); }
        } else if e.key == "ArrowDown" {
          if direction.y == 0 { direction := Point(0, 1); }
        } else if e.key == "ArrowLeft" {
          if direction.x == 0 { direction := Point(-1, 0); }
        } else if e.key == "ArrowRight" {
          if direction.x == 0 { direction := Point(1, 0); }
        } else if e.key == " " {
          status := Paused;
        }
      } else if status == Paused && e.code == "Space" {
        status := Playing;
      }
    }
  }
}
