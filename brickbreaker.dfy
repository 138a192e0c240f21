/** Brick Breaker: the brick layout of a level, the paddle, ball and brick
    update of one animation frame, power-ups with their timers, and the
    waiting / playing / paused / won / lost state machine. Coordinates and
    velocities are reals, so the speed scaling is exact here where the
    program rounds. */
module BrickBreaker {

  datatype Ball = Ball(x: real, y: real, dx: real, dy: real, radius: real)

  datatype Paddle = Paddle(x: real, y: real, width: real, height: real)

  datatype Brick = Brick(x: real, y: real, width: real, height: real, color: string, visible: bool)

  datatype PowerUpKind = Multiball | WidePaddle | SlowBall

  datatype PowerUp = PowerUp(x: real, y: real, kind: PowerUpKind, dy: real)

  datatype State = Waiting | Playing | Paused | Won | Lost

  datatype Option<T> = None | Some(value: T)

  const CanvasWidth: real := 800.0
  const CanvasHeight: real := 500.0
  const BallRadius: real := 8.0
  const PaddleSpeed: real := 8.0
  const Columns: int := 10

  const Colors: seq<string> := ["#FF6B6B", "#4ECDC4", "#45B7D1", "#96CEB4", "#FECA57", "#FF9FF3"]

  // ---------------------------------------------------------------------------
  // Layout

  /** Brick rows of a level: five, one more for every two levels, at most eight. */
  function BrickRows(level: int): int {
    var rows := 5 + level / 2;
    if rows < 8 then rows else 8
  }

  /** The brick at row r, column c: 72 units of the 720 between the margins
      per column, 25 per row, two units of gap. */
  function LayoutBrick(r: int, c: int): Brick {
    Brick(40.0 + (c as real) * 72.0, 60.0 + (r as real) * 25.0, 70.0, 20.0, Colors[r % |Colors|], true)
  }

  lemma BrickRowsBounds(level: int)
    ensures BrickRows(level) <= 8
    ensures level >= 0 ==> 5 <= BrickRows(level)
    ensures level >= 6 ==> BrickRows(level) == 8
  {
  }

  /** `createBricks`: the rows of ten bricks, row by row. */
  method CreateBricks(level: int) returns (bricks: seq<Brick>)
    ensures var rows := if BrickRows(level) < 0 then 0 else BrickRows(level);
            |bricks| == rows * Columns
    ensures forall i :: 0 <= i < |bricks| ==> bricks[i] == LayoutBrick(i / Columns, i % Columns)
    ensures forall i :: 0 <= i < |bricks| ==> bricks[i].visible && bricks[i].color == Colors[(i / Columns) % 6]
  {
    bricks := [];
    var rows := 5 + level / 2;
    rows := if rows < 8 then rows else 8;
    var brickWidth := (CanvasWidth - 80.0) / (Columns as real);
    var brickHeight := 20.0;
    var r := 0;
    while r < rows
      invariant 0 <= r && (r <= rows || r == 0)
      invariant |bricks| == r * Columns
      invariant forall i :: 0 <= i < |bricks| ==> bricks[i] == LayoutBrick(i / Columns, i % Columns)
    {
      var c := 0;
      while c < Columns
        invariant 0 <= c <= Columns
        invariant |bricks| == r * Columns + c
        invariant forall i :: 0 <= i < |bricks| ==> bricks[i] == LayoutBrick(i / Columns, i % Columns)
      {
        assert (r * Columns + c) / Columns == r && (r * Columns + c) % Columns == c;
        bricks := bricks + [Brick(40.0 + (c as real) * brickWidth, 60.0 + (r as real) * (brickHeight + 5.0),
                                  brickWidth - 2.0, brickHeight, Colors[r % |Colors|], true)];
        c := c + 1;
      }
      r := r + 1;
    }
  }

  predicate BricksOverlap(a: Brick, b: Brick) {
    a.x < b.x + b.width && b.x < a.x + a.width && a.y < b.y + b.height && b.y < a.y + a.height
  }

  /** Two different cells of the layout never overlap, and every brick lies
      between the side margins of the canvas. */
  lemma LayoutTiles(r1: int, c1: int, r2: int, c2: int)
    requires 0 <= c1 < Columns && 0 <= c2 < Columns && 0 <= r1 && 0 <= r2
    requires (r1, c1) != (r2, c2)
    ensures !BricksOverlap(LayoutBrick(r1, c1), LayoutBrick(r2, c2))
    ensures 40.0 <= LayoutBrick(r1, c1).x && LayoutBrick(r1, c1).x + LayoutBrick(r1, c1).width <= CanvasWidth - 40.0
  {
    if r1 != r2 {
      assert r1 < r2 ==> (r1 as real) * 25.0 + 25.0 <= (r2 as real) * 25.0;
      assert r2 < r1 ==> (r2 as real) * 25.0 + 25.0 <= (r1 as real) * 25.0;
    } else {
      assert c1 < c2 ==> (c1 as real) * 72.0 + 72.0 <= (c2 as real) * 72.0;
      assert c2 < c1 ==> (c2 as real) * 72.0 + 72.0 <= (c1 as real) * 72.0;
    }
  }

  /** The bricks are exactly the layout of `level`, all visible. */
  predicate LevelLayout(bricks: seq<Brick>, level: int) {
    && |bricks| == BrickRows(level) * Columns
    && forall i :: 0 <= i < |bricks| ==> bricks[i] == LayoutBrick(i / Columns, i % Columns)
  }

  /** The bricks sit in the layout of five to eight rows; only their
      visibility may have changed. */
  predicate LaidOut(bricks: seq<Brick>) {
    && |bricks| % Columns == 0 && 5 * Columns <= |bricks| <= 8 * Columns
    && forall i :: 0 <= i < |bricks| ==> bricks[i] == LayoutBrick(i / Columns, i % Columns).(visible := bricks[i].visible)
  }

  lemma LevelLaidOut(bricks: seq<Brick>, level: int)
    requires level >= 0 && LevelLayout(bricks, level)
    ensures LaidOut(bricks)
  {
    BrickRowsBounds(level);
  }

  /** Every brick of the layout ends above the bottom of the canvas. */
  lemma LaidOutAboveBottom(bricks: seq<Brick>)
    requires LaidOut(bricks)
    ensures forall i :: 0 <= i < |bricks| ==> bricks[i].y + bricks[i].height < CanvasHeight
  {
    forall i | 0 <= i < |bricks| ensures bricks[i].y + bricks[i].height < CanvasHeight {
      var r := i / Columns;
      assert r <= 7;
      assert (r as real) * 25.0 <= 175.0;
    }
  }

  /** `resetBall`: one ball above the paddle, going up at 45 degrees, to the
      right when the random number exceeds 0.5. */
  function NewBall(rnd: real): (b: Ball)
    ensures b.x == 400.0 && b.y == 440.0 && b.dy == -4.0 && b.radius == BallRadius
    ensures b.dx == 4.0 || b.dx == -4.0
    ensures b.dx > 0.0 <==> rnd > 0.5
  {
    Ball(CanvasWidth / 2.0, CanvasHeight - 60.0, 4.0 * (if rnd > 0.5 then 1.0 else -1.0), -4.0, BallRadius)
  }

  /** `resetPaddle`: centred, 30 above the bottom. */
  function NewPaddle(): (p: Paddle)
    ensures p.x + p.width / 2.0 == CanvasWidth / 2.0 && p.y + 30.0 == CanvasHeight
    ensures p.width == 100.0 && p.height == 10.0
  {
    Paddle(CanvasWidth / 2.0 - 50.0, CanvasHeight - 30.0, 100.0, 10.0)
  }

  // ---------------------------------------------------------------------------
  // Paddle and balls

  /** The paddle step of one frame: left by 8 when the left arrow is held
      and it is right of 0, then right by 8 when the right arrow is held and
      it is left of the right stop. */
  function StepPaddle(p: Paddle, left: bool, right: bool): (r: Paddle)
    ensures r.y == p.y && r.width == p.width && r.height == p.height
    ensures r.x == p.x - 8.0 || r.x == p.x || r.x == p.x + 8.0
    ensures !left && !right ==> r == p
    ensures p.x > -PaddleSpeed ==> r.x > -PaddleSpeed
    ensures r.x < p.x ==> left && p.x > 0.0
    ensures r.x > p.x ==> right && p.x < CanvasWidth - p.width
  {
    var x1 := if left && p.x > 0.0 then p.x - PaddleSpeed else p.x;
    var x2 := if right && x1 < CanvasWidth - p.width then x1 + PaddleSpeed else x1;
    p.(x := x2)
  }

  function Abs(a: real): real {
    if a < 0.0 then -a else a
  }

  /** The ball is at the height of the paddle and strictly between its ends. */
  predicate OnPaddle(x: real, y: real, radius: real, p: Paddle) {
    y + radius > p.y && y - radius < p.y + p.height && x > p.x && x < p.x + p.width
  }

  /** One ball's update in a frame: move, bounce off the side walls and the
      top, and bounce up off the paddle at an angle set by where it hits. */
  function MoveBall(b: Ball, p: Paddle): (r: Ball)
    ensures r.x == b.x + b.dx && r.y == b.y + b.dy && r.radius == b.radius
    ensures OnPaddle(r.x, r.y, b.radius, p) ==> r.dy <= 0.0
    ensures OnPaddle(r.x, r.y, b.radius, p) && p.width > 0.0 ==> -4.0 < r.dx < 4.0
    ensures !OnPaddle(r.x, r.y, b.radius, p) ==> Abs(r.dx) == Abs(b.dx) && Abs(r.dy) == Abs(b.dy)
    ensures !OnPaddle(r.x, r.y, b.radius, p) && r.dy != b.dy ==> r.y - b.radius < 0.0
    ensures !OnPaddle(r.x, r.y, b.radius, p) && r.dx != b.dx ==> r.x - b.radius < 0.0 || r.x + b.radius > CanvasWidth
    ensures OnPaddle(r.x, r.y, b.radius, p) ==>
              r.dx == ((r.x - p.x) / p.width - 0.5) * 8.0 && Abs(r.dy) == Abs(b.dy)
  {
    var x := b.x + b.dx;
    var y := b.y + b.dy;
    var dx := if x - b.radius < 0.0 || x + b.radius > CanvasWidth then -b.dx else b.dx;
    var dy := if y - b.radius < 0.0 then -b.dy else b.dy;
    if OnPaddle(x, y, b.radius, p) then
      var hitPos := (x - p.x) / p.width;
      HitPosBounds(x, p);
      Ball(x, y, (hitPos - 0.5) * 8.0, -Abs(dy), b.radius)
    else Ball(x, y, dx, dy, b.radius)
  }

  lemma HitPosBounds(x: real, p: Paddle)
    ensures p.width > 0.0 && p.x < x < p.x + p.width ==> -4.0 < ((x - p.x) / p.width - 0.5) * 8.0 < 4.0
  {
    if p.width > 0.0 && p.x < x < p.x + p.width {
      var h := (x - p.x) / p.width;
      assert h * p.width == x - p.x;
      if h <= 0.0 {
        MulNonneg(-h, p.width);
      }
      if h >= 1.0 {
        MulNonneg(h - 1.0, p.width);
      }
    }
  }

  lemma MulNonneg(a: real, b: real)
    requires a >= 0.0 && b >= 0.0
    ensures a * b >= 0.0
  {
  }

  /** A moved ball stays while its top is above the bottom of the canvas. */
  predicate InPlay(b: Ball) {
    b.y - b.radius < CanvasHeight
  }

  /** The ball filter of one frame, in order. */
  function KeptBalls(balls: seq<Ball>, p: Paddle): (r: seq<Ball>)
    ensures |r| <= |balls|
  {
    if balls == [] then []
    else
      var b := MoveBall(balls[|balls| - 1], p);
      KeptBalls(balls[..|balls| - 1], p) + (if InPlay(b) then [b] else [])
  }

  /** Every ball kept is a moved ball still in play. */
  lemma {:induction false} KeptBallsSound(balls: seq<Ball>, p: Paddle)
    ensures forall j :: 0 <= j < |KeptBalls(balls, p)| ==>
              InPlay(KeptBalls(balls, p)[j]) &&
              exists i :: 0 <= i < |balls| && KeptBalls(balls, p)[j] == MoveBall(balls[i], p)
    decreases |balls|
  {
    if balls != [] {
      var n := |balls| - 1;
      KeptBallsSound(balls[..n], p);
      var s, b, r := KeptBalls(balls[..n], p), MoveBall(balls[n], p), KeptBalls(balls, p);
      assert r == s + (if InPlay(b) then [b] else []);
      forall j | 0 <= j < |r| ensures InPlay(r[j]) && exists i :: 0 <= i < |balls| && r[j] == MoveBall(balls[i], p) {
        if j < |s| {
          assert r[j] == s[j];
          var i :| 0 <= i < n && s[j] == MoveBall(balls[..n][i], p);
          assert balls[..n][i] == balls[i];
        } else {
          assert r[j] == MoveBall(balls[n], p);
        }
      }
    }
  }

  /** Every moved ball still in play is kept. */
  lemma {:induction false} KeptBallsComplete(balls: seq<Ball>, p: Paddle)
    ensures forall i :: 0 <= i < |balls| && InPlay(MoveBall(balls[i], p)) ==> MoveBall(balls[i], p) in KeptBalls(balls, p)
    decreases |balls|
  {
    if balls != [] {
      var n := |balls| - 1;
      KeptBallsComplete(balls[..n], p);
      var s, b, r := KeptBalls(balls[..n], p), MoveBall(balls[n], p), KeptBalls(balls, p);
      assert r == s + (if InPlay(b) then [b] else []);
      forall i | 0 <= i < |balls| && InPlay(MoveBall(balls[i], p)) ensures MoveBall(balls[i], p) in r {
        if i < n {
          assert balls[..n][i] == balls[i];
          assert MoveBall(balls[i], p) in s;
        }
      }
    }
  }

  /** Moving and dropping balls keeps their radius. */
  lemma KeptRadii(balls: seq<Ball>, p: Paddle)
    requires Radii(balls)
    ensures Radii(KeptBalls(balls, p))
  {
    var r := KeptBalls(balls, p);
    KeptBallsSound(balls, p);
    forall j | 0 <= j < |r| ensures r[j].radius == BallRadius {
      var i :| 0 <= i < |balls| && r[j] == MoveBall(balls[i], p);
    }
  }

  /** The body of the `filter` callback up to the loss test, statement by statement. */
  method StepBall(b: Ball, paddle: Paddle) returns (ball: Ball)
    ensures ball == MoveBall(b, paddle)
  {
    ball := b.(x := b.x + b.dx);
    ball := ball.(y := ball.y + ball.dy);
    if ball.x - ball.radius < 0.0 || ball.x + ball.radius > CanvasWidth {
      ball := ball.(dx := -ball.dx);
    }
    if ball.y - ball.radius < 0.0 {
      ball := ball.(dy := -ball.dy);
    }
    if ball.y + ball.radius > paddle.y && ball.y - ball.radius < paddle.y + paddle.height &&
       ball.x > paddle.x && ball.x < paddle.x + paddle.width {
      ball := ball.(dy := -Abs(ball.dy));
      var hitPos := (ball.x - paddle.x) / paddle.width;
      ball := ball.(dx := (hitPos - 0.5) * 8.0);
    }
  }

  /** The `filter` loop over the balls. */
  method UpdateBalls(balls: seq<Ball>, paddle: Paddle) returns (kept: seq<Ball>)
    ensures kept == KeptBalls(balls, paddle)
  {
    kept := [];
    var i := 0;
    while i < |balls|
      invariant 0 <= i <= |balls|
      invariant kept == KeptBalls(balls[..i], paddle)
    {
      var ball := StepBall(balls[i], paddle);
      assert balls[..i + 1][..i] == balls[..i];
      if ball.y - ball.radius < CanvasHeight {
        kept := kept + [ball];
      }
      i := i + 1;
    }
    assert balls[..|balls|] == balls;
  }

  // ---------------------------------------------------------------------------
  // Bricks

  /** The collision test of a ball's bounding square against a brick. */
  predicate Overlaps(b: Ball, k: Brick) {
    b.x + b.radius > k.x && b.x - b.radius < k.x + k.width &&
    b.y + b.radius > k.y && b.y - b.radius < k.y + k.height
  }

  function VisibleCount(bricks: seq<Brick>): (n: nat)
    ensures n <= |bricks|
  {
    if bricks == [] then 0
    else VisibleCount(bricks[..|bricks| - 1]) + (if bricks[|bricks| - 1].visible then 1 else 0)
  }

  /** The number of balls overlapping the brick. */
  function BallsOver(k: Brick, balls: seq<Ball>): (n: nat)
    ensures n <= |balls|
  {
    if balls == [] then 0
    else BallsOver(k, balls[..|balls| - 1]) + (if Overlaps(balls[|balls| - 1], k) then 1 else 0)
  }

  /** The number of visible bricks the ball overlaps: how often its vertical
      direction flips in the brick scan. */
  function HitCount(bricks: seq<Brick>, b: Ball): (n: nat)
    ensures n <= |bricks|
  {
    if bricks == [] then 0
    else HitCount(bricks[..|bricks| - 1], b) + (if bricks[|bricks| - 1].visible && Overlaps(b, bricks[|bricks| - 1]) then 1 else 0)
  }

  /** The number of (visible brick, ball) pairs that touch: each scores 10. */
  function Hits(bricks: seq<Brick>, balls: seq<Ball>): nat {
    if bricks == [] then 0
    else
      var k := bricks[|bricks| - 1];
      Hits(bricks[..|bricks| - 1], balls) + (if k.visible then BallsOver(k, balls) else 0)
  }

  /** `dy` after `n` flips. */
  function Flip(dy: real, n: nat): real {
    if n % 2 == 0 then dy else -dy
  }

  /** Power-ups in flight fall by 2 per frame and are above the bottom. */
  predicate Falling(pus: seq<PowerUp>) {
    forall j :: 0 <= j < |pus| ==> pus[j].dy == 2.0 && pus[j].y < CanvasHeight
  }

  /** Where a power-up dropped by brick `k` starts: under its centre. */
  function Drop(k: Brick, kind: PowerUpKind): PowerUp {
    PowerUp(k.x + k.width / 2.0, k.y + k.height, kind, 2.0)
  }

  /** The power-ups dropped by hits on brick `i`, in ball order; `drop(i, j)`
      is the random outcome of `spawnPowerUp` for brick i and ball j. */
  function BrickDrops(i: nat, k: Brick, balls: seq<Ball>, drop: (nat, nat) -> Option<PowerUpKind>): seq<PowerUp> {
    if balls == [] then []
    else
      var j := |balls| - 1;
      BrickDrops(i, k, balls[..j], drop) +
        (if Overlaps(balls[j], k) && drop(i, j).Some? then [Drop(k, drop(i, j).value)] else [])
  }

  /** All power-ups dropped in a brick scan, in brick order. */
  function Drops(bricks: seq<Brick>, balls: seq<Ball>, drop: (nat, nat) -> Option<PowerUpKind>): seq<PowerUp> {
    if bricks == [] then []
    else
      var i := |bricks| - 1;
      Drops(bricks[..i], balls, drop) + (if bricks[i].visible then BrickDrops(i, bricks[i], balls, drop) else [])
  }

  /** The inner `forEach` of the brick scan, for a visible brick: every ball
      that overlaps it hides it, flips its own vertical direction, scores 10
      and may drop a power-up. */
  method HitBrick(i: nat, brick: Brick, balls: seq<Ball>, drop: (nat, nat) -> Option<PowerUpKind>)
    returns (brick': Brick, balls': seq<Ball>, gained: nat, dropped: seq<PowerUp>)
    requires brick.visible
    ensures brick' == brick.(visible := BallsOver(brick, balls) == 0)
    ensures |balls'| == |balls|
    ensures forall j :: 0 <= j < |balls| ==>
              balls'[j] == balls[j].(dy := if Overlaps(balls[j], brick) then -balls[j].dy else balls[j].dy)
    ensures gained == 10 * BallsOver(brick, balls)
    ensures dropped == BrickDrops(i, brick, balls, drop)
  {
    brick', balls', gained, dropped := brick, balls, 0, [];
    var j := 0;
    while j < |balls|
      invariant 0 <= j <= |balls| && |balls'| == |balls|
      invariant brick' == brick.(visible := BallsOver(brick, balls[..j]) == 0)
      invariant forall l :: 0 <= l < |balls| ==>
                  balls'[l] == balls[l].(dy := if l < j && Overlaps(balls[l], brick) then -balls[l].dy else balls[l].dy)
      invariant gained == 10 * BallsOver(brick, balls[..j])
      invariant dropped == BrickDrops(i, brick, balls[..j], drop)
    {
      assert balls[..j + 1][..j] == balls[..j];
      var ball := balls'[j];
      assert ball == balls[j] && brick' == brick.(visible := brick'.visible);
      if ball.x + ball.radius > brick'.x && ball.x - ball.radius < brick'.x + brick'.width &&
         ball.y + ball.radius > brick'.y && ball.y - ball.radius < brick'.y + brick'.height {
        assert Overlaps(balls[j], brick);
        brick' := brick'.(visible := false);
        balls' := balls'[j := ball.(dy := -ball.dy)];
        gained := gained + 10;
        var roll := drop(i, j);
        if roll.Some? {
          dropped := dropped + [Drop(brick', roll.value)];
        }
      }
      j := j + 1;
    }
    assert balls[..|balls|] == balls;
  }

  /** The bricks after a scan: a visible brick disappears when a ball overlaps it. */
  function Struck(bricks: seq<Brick>, balls: seq<Ball>): (r: seq<Brick>)
    ensures |r| == |bricks|
    ensures forall i :: 0 <= i < |bricks| ==>
              r[i] == bricks[i].(visible := bricks[i].visible && BallsOver(bricks[i], balls) == 0)
  {
    if bricks == [] then []
    else
      var n := |bricks| - 1;
      var k := bricks[n];
      Struck(bricks[..n], balls) + [k.(visible := k.visible && BallsOver(k, balls) == 0)]
  }

  /** The balls after a scan: each flips its vertical direction once per
      visible brick it overlaps. */
  function Bounced(bricks: seq<Brick>, balls: seq<Ball>): (r: seq<Ball>)
    ensures |r| == |balls|
    ensures forall j :: 0 <= j < |balls| ==> r[j] == balls[j].(dy := Flip(balls[j].dy, HitCount(bricks, balls[j])))
  {
    if balls == [] then []
    else
      var n := |balls| - 1;
      var b := balls[n];
      Bounced(bricks, balls[..n]) + [b.(dy := Flip(b.dy, HitCount(bricks, b)))]
  }

  /** Every power-up a brick drops starts under its centre, falling at 2,
      and there is at most one per ball that hits it. */
  lemma {:induction false} BrickDropsShape(i: nat, k: Brick, balls: seq<Ball>, drop: (nat, nat) -> Option<PowerUpKind>)
    ensures var r := BrickDrops(i, k, balls, drop);
            && |r| <= BallsOver(k, balls)
            && forall j :: 0 <= j < |r| ==> r[j].x == k.x + k.width / 2.0 && r[j].y == k.y + k.height && r[j].dy == 2.0
    decreases |balls|
  {
    if balls != [] {
      BrickDropsShape(i, k, balls[..|balls| - 1], drop);
    }
  }

  /** The power-ups a scan drops from bricks above the bottom are all in
      flight, and there is at most one per hit. */
  lemma {:induction false} DropsFall(bricks: seq<Brick>, balls: seq<Ball>, drop: (nat, nat) -> Option<PowerUpKind>)
    requires forall i :: 0 <= i < |bricks| ==> bricks[i].y + bricks[i].height < CanvasHeight
    ensures |Drops(bricks, balls, drop)| <= Hits(bricks, balls)
    ensures Falling(Drops(bricks, balls, drop))
    decreases |bricks|
  {
    if bricks != [] {
      var n := |bricks| - 1;
      DropsFall(bricks[..n], balls, drop);
      BrickDropsShape(n, bricks[n], balls, drop);
    }
  }

  /** With no visible brick the scan changes nothing and scores nothing. */
  lemma {:induction false} NoVisibleInert(bricks: seq<Brick>, balls: seq<Ball>, drop: (nat, nat) -> Option<PowerUpKind>)
    requires VisibleCount(bricks) == 0
    ensures Hits(bricks, balls) == 0 && Drops(bricks, balls, drop) == []
    ensures Struck(bricks, balls) == bricks && Bounced(bricks, balls) == balls
    decreases |bricks|
  {
    if bricks != [] {
      var n := |bricks| - 1;
      NoVisibleInert(bricks[..n], balls, drop);
      assert forall i :: 0 <= i < n ==> bricks[..n][i] == bricks[i];
    }
    NoHitsWithoutVisible(bricks, balls);
  }

  lemma {:induction false} NoHitsWithoutVisible(bricks: seq<Brick>, balls: seq<Ball>)
    requires VisibleCount(bricks) == 0
    ensures forall b :: HitCount(bricks, b) == 0
    ensures forall i :: 0 <= i < |bricks| ==> !bricks[i].visible
    decreases |bricks|
  {
    if bricks != [] {
      var n := |bricks| - 1;
      NoHitsWithoutVisible(bricks[..n], balls);
      assert forall i :: 0 <= i < n ==> bricks[..n][i] == bricks[i];
    }
  }

  /** Two balls on one brick score twice: 20 points for the brick, which
      disappears, and both balls bounce. */
  lemma SharedBrickScoresTwice(k: Brick, b1: Ball, b2: Ball)
    requires k.visible && Overlaps(b1, k) && Overlaps(b2, k)
    ensures 10 * Hits([k], [b1, b2]) == 20
    ensures Struck([k], [b1, b2]) == [k.(visible := false)]
    ensures Bounced([k], [b1, b2]) == [b1.(dy := -b1.dy), b2.(dy := -b2.dy)]
  {
    assert [b1, b2][..1] == [b1] && [b1][..0] == [] && [k][..0] == [];
    assert BallsOver(k, [b1]) == 1;
    assert BallsOver(k, [b1, b2]) == 2;
    assert HitCount([k], b1) == 1 && HitCount([k], b2) == 1;
    var r := Bounced([k], [b1, b2]);
    assert r[0] == b1.(dy := Flip(b1.dy, 1)) && r[1] == b2.(dy := Flip(b2.dy, 1));
  }

  /** The scan counts the bricks visible before it, so the frame that clears
      the last brick does not end the level; the next frame does. */
  lemma LastBrickEndsLevelNextFrame(k: Brick, b: Ball)
    requires k.visible && Overlaps(b, k)
    ensures VisibleCount([k]) == 1
    ensures VisibleCount(Struck([k], [b])) == 0
  {
    assert Struck([k], [b]) == [k.(visible := false)];
  }

  /** The brick scan after its first `i` bricks. */
  ghost predicate ScanInv(bricks: seq<Brick>, balls: seq<Ball>, drop: (nat, nat) -> Option<PowerUpKind>, i: int,
                          bricks': seq<Brick>, balls': seq<Ball>, gained: nat, dropped: seq<PowerUp>, visible: nat)
  {
    && 0 <= i <= |bricks| && |bricks'| == |bricks| && |balls'| == |balls|
    && (forall l :: 0 <= l < |bricks| ==>
          bricks'[l] == if l < i then bricks[l].(visible := bricks[l].visible && BallsOver(bricks[l], balls) == 0)
                        else bricks[l])
    && (forall j :: 0 <= j < |balls| ==>
          balls'[j] == balls[j].(dy := Flip(balls[j].dy, HitCount(bricks[..i], balls[j]))))
    && gained == 10 * Hits(bricks[..i], balls)
    && dropped == Drops(bricks[..i], balls, drop)
    && visible == VisibleCount(bricks[..i])
  }

  /** A hidden brick is only passed over. */
  lemma ScanSkip(bricks: seq<Brick>, balls: seq<Ball>, drop: (nat, nat) -> Option<PowerUpKind>, i: int,
                 bricks': seq<Brick>, balls': seq<Ball>, gained: nat, dropped: seq<PowerUp>, visible: nat)
    requires ScanInv(bricks, balls, drop, i, bricks', balls', gained, dropped, visible)
    requires i < |bricks| && !bricks[i].visible
    ensures ScanInv(bricks, balls, drop, i + 1, bricks', balls', gained, dropped, visible)
  {
    ScanUnfold(bricks, balls, drop, i);
  }

  /** A visible brick is counted and hit by the balls over it. */
  lemma ScanHit(bricks: seq<Brick>, balls: seq<Ball>, drop: (nat, nat) -> Option<PowerUpKind>, i: int,
                bricks': seq<Brick>, balls': seq<Ball>, gained: nat, dropped: seq<PowerUp>, visible: nat,
                k: Brick, balls'': seq<Ball>, g: nat, d: seq<PowerUp>)
    requires ScanInv(bricks, balls, drop, i, bricks', balls', gained, dropped, visible)
    requires i < |bricks| && bricks[i].visible
    requires k == bricks[i].(visible := BallsOver(bricks[i], balls') == 0)
    requires |balls''| == |balls'|
    requires forall j :: 0 <= j < |balls'| ==>
               balls''[j] == balls'[j].(dy := if Overlaps(balls'[j], bricks[i]) then -balls'[j].dy else balls'[j].dy)
    requires g == 10 * BallsOver(bricks[i], balls') && d == BrickDrops(i, bricks[i], balls', drop)
    ensures ScanInv(bricks, balls, drop, i + 1, bricks'[i := k], balls'', gained + g, dropped + d, visible + 1)
  {
    ScanUnfold(bricks, balls, drop, i);
    HitBalls(bricks, balls, i, balls', balls'');
    assert forall j :: 0 <= j < |balls| ==> Overlaps(balls'[j], bricks[i]) == Overlaps(balls[j], bricks[i]);
    OverlapsIgnoresDy(bricks[i], balls, balls');
    BrickDropsIgnoresDy(i, bricks[i], balls, balls', drop);
    StruckStep(bricks, balls, i, bricks', k);
  }

  /** The bricks after one more visible brick: that one is gone once a ball overlaps it. */
  lemma StruckStep(bricks: seq<Brick>, balls: seq<Ball>, i: int, bricks': seq<Brick>, k: Brick)
    requires 0 <= i < |bricks| == |bricks'| && bricks[i].visible
    requires forall l :: 0 <= l < |bricks| ==>
               bricks'[l] == if l < i then bricks[l].(visible := bricks[l].visible && BallsOver(bricks[l], balls) == 0)
                             else bricks[l]
    requires k == bricks[i].(visible := BallsOver(bricks[i], balls) == 0)
    ensures forall l :: 0 <= l < |bricks| ==>
              bricks'[i := k][l] == if l < i + 1 then bricks[l].(visible := bricks[l].visible && BallsOver(bricks[l], balls) == 0)
                                    else bricks[l]
  {
  }

  /** The balls after one more visible brick flip once more exactly when they touch it. */
  lemma HitBalls(bricks: seq<Brick>, balls: seq<Ball>, i: nat, balls': seq<Ball>, balls'': seq<Ball>)
    requires i < |bricks| && bricks[i].visible
    requires |balls'| == |balls| == |balls''|
    requires forall j :: 0 <= j < |balls| ==>
               balls'[j] == balls[j].(dy := Flip(balls[j].dy, HitCount(bricks[..i], balls[j])))
    requires forall j :: 0 <= j < |balls'| ==>
               balls''[j] == balls'[j].(dy := if Overlaps(balls'[j], bricks[i]) then -balls'[j].dy else balls'[j].dy)
    ensures forall j :: 0 <= j < |balls| ==>
              balls''[j] == balls[j].(dy := Flip(balls[j].dy, HitCount(bricks[..i + 1], balls[j])))
  {
    forall j | 0 <= j < |balls|
      ensures balls''[j] == balls[j].(dy := Flip(balls[j].dy, HitCount(bricks[..i + 1], balls[j])))
    {
      var b := balls[j];
      var n := HitCount(bricks[..i], b);
      assert bricks[..i + 1][..i] == bricks[..i];
      assert HitCount(bricks[..i + 1], b) == n + (if Overlaps(b, bricks[i]) then 1 else 0);
      assert Overlaps(balls'[j], bricks[i]) == Overlaps(b, bricks[i]);
    }
  }

  /** The brick scan of one frame: every visible brick is counted, then hit
      by every ball overlapping it, so two balls on one brick both score. */
  method ScanBricks(bricks: seq<Brick>, balls: seq<Ball>, drop: (nat, nat) -> Option<PowerUpKind>)
    returns (bricks': seq<Brick>, balls': seq<Ball>, gained: nat, dropped: seq<PowerUp>, visible: nat)
    ensures bricks' == Struck(bricks, balls)
    ensures balls' == Bounced(bricks, balls)
    ensures gained == 10 * Hits(bricks, balls)
    ensures dropped == Drops(bricks, balls, drop)
    ensures visible == VisibleCount(bricks)
  {
    bricks', balls', gained, dropped, visible := bricks, balls, 0, [], 0;
    var i := 0;
    while i < |bricks|
      invariant ScanInv(bricks, balls, drop, i, bricks', balls', gained, dropped, visible)
    {
      var brick := bricks'[i];
      if brick.visible {
        var k, b, g, d := HitBrick(i, brick, balls', drop);
        ScanHit(bricks, balls, drop, i, bricks', balls', gained, dropped, visible, k, b, g, d);
        visible := visible + 1;
        bricks' := bricks'[i := k];
        balls' := b;
        gained := gained + g;
        dropped := dropped + d;
      } else {
        ScanSkip(bricks, balls, drop, i, bricks', balls', gained, dropped, visible);
      }
      i := i + 1;
    }
    assert bricks[..|bricks|] == bricks;
  }

  /** The counts of a brick scan over one more brick. */
  lemma ScanUnfold(bricks: seq<Brick>, balls: seq<Ball>, drop: (nat, nat) -> Option<PowerUpKind>, i: nat)
    requires i < |bricks|
    ensures var k := bricks[i];
            && VisibleCount(bricks[..i + 1]) == VisibleCount(bricks[..i]) + (if k.visible then 1 else 0)
            && Hits(bricks[..i + 1], balls) == Hits(bricks[..i], balls) + (if k.visible then BallsOver(k, balls) else 0)
            && Drops(bricks[..i + 1], balls, drop) ==
                 Drops(bricks[..i], balls, drop) + (if k.visible then BrickDrops(i, k, balls, drop) else [])
            && forall b :: HitCount(bricks[..i + 1], b) ==
                             HitCount(bricks[..i], b) + (if k.visible && Overlaps(b, k) then 1 else 0)
  {
    assert bricks[..i + 1][..i] == bricks[..i];
  }

  /** The collision counts do not look at the vertical direction. */
  lemma {:induction false} OverlapsIgnoresDy(k: Brick, balls: seq<Ball>, other: seq<Ball>)
    requires |other| == |balls|
    requires forall j :: 0 <= j < |balls| ==> Overlaps(other[j], k) == Overlaps(balls[j], k)
    ensures BallsOver(k, other) == BallsOver(k, balls)
    decreases |balls|
  {
    if balls != [] {
      var n := |balls| - 1;
      OverlapsIgnoresDy(k, balls[..n], other[..n]);
    }
  }

  lemma {:induction false} BrickDropsIgnoresDy(i: nat, k: Brick, balls: seq<Ball>, other: seq<Ball>,
                                               drop: (nat, nat) -> Option<PowerUpKind>)
    requires |other| == |balls|
    requires forall j :: 0 <= j < |balls| ==> Overlaps(other[j], k) == Overlaps(balls[j], k)
    ensures BrickDrops(i, k, other, drop) == BrickDrops(i, k, balls, drop)
    decreases |balls|
  {
    if balls != [] {
      var n := |balls| - 1;
      BrickDropsIgnoresDy(i, k, balls[..n], other[..n], drop);
    }
  }

  // ---------------------------------------------------------------------------
  // Power-ups

  /** What power-ups act on: the balls, the paddle and the expiry times. */
  datatype Field = Field(balls: seq<Ball>, paddle: Paddle, timers: map<PowerUpKind, int>)

  /** Milliseconds a wide paddle and a slow ball last. */
  const WideDuration: int := 10000
  const SlowDuration: int := 8000

  /** The factor that slows the balls down, and the one that is meant to undo it. */
  const SlowFactor: real := 0.7
  const RestoreFactor: real := 1.4286

  /** Every ball has the standard radius. */
  predicate Radii(balls: seq<Ball>) {
    forall j :: 0 <= j < |balls| ==> balls[j].radius == BallRadius
  }

  /** The paddle keeps its row and height, stays right of -8, and is wide
      exactly while a wide-paddle timer is pending. */
  predicate PaddleOk(p: Paddle, timers: map<PowerUpKind, int>) {
    && p.y == CanvasHeight - 30.0 && p.height == 10.0 && p.x > -PaddleSpeed
    && (p.width == 100.0 || p.width == 150.0)
    && (p.width == 150.0 <==> WidePaddle in timers)
  }

  /** Only the wide paddle and the slow ball have timers. */
  predicate FieldOk(f: Field) {
    Radii(f.balls) && PaddleOk(f.paddle, f.timers) && Multiball !in f.timers
  }

  /** Every ball's velocity multiplied by `factor`. */
  function Scaled(balls: seq<Ball>, factor: real): (r: seq<Ball>)
    ensures |r| == |balls|
    ensures forall j :: 0 <= j < |balls| ==>
              r[j] == balls[j].(dx := balls[j].dx * factor, dy := balls[j].dy * factor)
  {
    if balls == [] then []
    else
      var n := |balls| - 1;
      var b := balls[n];
      Scaled(balls[..n], factor) + [b.(dx := b.dx * factor, dy := b.dy * factor)]
  }

  /** The `forEach` that scales every ball in place. */
  method ScaleBalls(balls: seq<Ball>, factor: real) returns (r: seq<Ball>)
    ensures r == Scaled(balls, factor)
  {
    r := balls;
    var j := 0;
    while j < |r|
      invariant 0 <= j <= |r| == |balls|
      invariant forall l :: 0 <= l < |balls| ==>
                  r[l] == if l < j then balls[l].(dx := balls[l].dx * factor, dy := balls[l].dy * factor) else balls[l]
    {
      var ball := r[j];
      ball := ball.(dx := ball.dx * factor);
      ball := ball.(dy := ball.dy * factor);
      r := r[j := ball];
      j := j + 1;
    }
  }

  /** `applyPowerUp` at clock reading `now`. Multiball splits a lone ball into
      three at the same spot, one mirrored and one steeper and slower sideways;
      wide paddle widens the paddle to 150 until `now + 10000`; slow ball slows
      every ball to 0.7 of its velocity until `now + 8000`. */
  function Applied(f: Field, kind: PowerUpKind, now: int): (r: Field)
    ensures r.paddle.x == f.paddle.x && r.paddle.y == f.paddle.y && r.paddle.height == f.paddle.height
    ensures kind == Multiball ==> r.paddle == f.paddle && r.timers == f.timers
    ensures kind == Multiball && |f.balls| != 1 ==> r.balls == f.balls
    ensures kind == Multiball && |f.balls| == 1 ==>
              var b := f.balls[0];
              && |r.balls| == 3 && r.balls[0] == b
              && (forall j :: 0 <= j < 3 ==> r.balls[j].x == b.x && r.balls[j].y == b.y && r.balls[j].radius == b.radius)
              && r.balls[1].dx == -b.dx && r.balls[1].dy == b.dy
              && r.balls[2].dx == b.dx * 0.7 && r.balls[2].dy == b.dy * 1.3
    ensures kind == WidePaddle ==>
              r.balls == f.balls && r.paddle.width == 150.0 && r.timers == f.timers[WidePaddle := now + WideDuration]
    ensures kind == SlowBall ==>
              r.paddle == f.paddle && r.balls == Scaled(f.balls, SlowFactor) && r.timers == f.timers[SlowBall := now + SlowDuration]
    ensures FieldOk(f) ==> FieldOk(r)
  {
    match kind
    case Multiball =>
      if |f.balls| == 1 then
        var b := f.balls[0];
        f.(balls := f.balls + [b.(dx := -b.dx), b.(dx := b.dx * 0.7, dy := b.dy * 1.3)])
      else f
    case WidePaddle =>
      f.(paddle := f.paddle.(width := 150.0), timers := f.timers[WidePaddle := now + WideDuration])
    case SlowBall =>
      f.(balls := Scaled(f.balls, SlowFactor), timers := f.timers[SlowBall := now + SlowDuration])
  }

  /** The timer test of `updatePowerUps`: a timer is set, is not zero (the
      program tests it for truth) and lies before `now`. */
  predicate Expired(timers: map<PowerUpKind, int>, k: PowerUpKind, now: int) {
    k in timers && timers[k] != 0 && now > timers[k]
  }

  /** `updatePowerUps` at clock reading `now`: an expired wide paddle shrinks
      back to 100, an expired slow ball speeds every ball up by 1.4286, and
      each expired timer is removed. */
  function Expire(f: Field, now: int): (r: Field)
    ensures r.balls == if Expired(f.timers, SlowBall, now) then Scaled(f.balls, RestoreFactor) else f.balls
    ensures r.paddle == if Expired(f.timers, WidePaddle, now) then f.paddle.(width := 100.0) else f.paddle
    ensures WidePaddle in r.timers <==> WidePaddle in f.timers && !Expired(f.timers, WidePaddle, now)
    ensures SlowBall in r.timers <==> SlowBall in f.timers && !Expired(f.timers, SlowBall, now)
    ensures Multiball in r.timers <==> Multiball in f.timers
    ensures forall k :: k in r.timers ==> k in f.timers && r.timers[k] == f.timers[k]
    ensures !Expired(r.timers, WidePaddle, now) && !Expired(r.timers, SlowBall, now)
    ensures FieldOk(f) ==> FieldOk(r)
  {
    var f1 := if Expired(f.timers, WidePaddle, now)
              then f.(paddle := f.paddle.(width := 100.0), timers := f.timers - {WidePaddle})
              else f;
    assert Expired(f1.timers, SlowBall, now) == Expired(f.timers, SlowBall, now);
    if Expired(f1.timers, SlowBall, now)
    then f1.(balls := Scaled(f1.balls, RestoreFactor), timers := f1.timers - {SlowBall})
    else f1
  }

  /** The body of `updatePowerUps`, on values. */
  method ExpireField(f: Field, now: int) returns (g: Field)
    ensures g == Expire(f, now)
  {
    g := f;
    if WidePaddle in g.timers && g.timers[WidePaddle] != 0 && now > g.timers[WidePaddle] {
      g := g.(paddle := g.paddle.(width := 100.0), timers := g.timers - {WidePaddle});
    }
    if SlowBall in g.timers && g.timers[SlowBall] != 0 && now > g.timers[SlowBall] {
      var scaled := ScaleBalls(g.balls, RestoreFactor);
      g := g.(balls := scaled, timers := g.timers - {SlowBall});
    }
  }

  /** Expiring twice at the same time is expiring once: the second pass
      finds nothing left to undo. */
  lemma ExpireIdempotent(f: Field, now: int)
    requires FieldOk(f)
    ensures Expire(Expire(f, now), now) == Expire(f, now)
  {
  }

  /** A wide paddle lasts exactly until ten seconds after it is caught: from
      then on the update shrinks it back and clears its timer. */
  lemma WidePaddleLasts(f: Field, caught: int, now: int)
    requires caught + WideDuration != 0
    ensures var g := Expire(Applied(f, WidePaddle, caught), now);
            && (g.paddle.width == 100.0 <==> now > caught + WideDuration)
            && (WidePaddle in g.timers <==> now <= caught + WideDuration)
  {
  }

  /** A slow ball that expires leaves every ball at 0.7 * 1.4286 = 1.00002
      times its velocity: close to, but not exactly, the velocity it had. */
  lemma SlowBallRestores(f: Field, caught: int, now: int)
    requires caught + SlowDuration != 0 && now > caught + SlowDuration
    ensures var g := Expire(Applied(f, SlowBall, caught), now);
            && |g.balls| == |f.balls|
            && forall j :: 0 <= j < |f.balls| ==>
                 g.balls[j] == f.balls[j].(dx := f.balls[j].dx * 1.00002, dy := f.balls[j].dy * 1.00002)
  {
  }

  /** A second slow ball caught before the first expires slows the balls
      again but only moves the one timer, so its expiry undoes one slow-down:
      the balls keep 0.49 * 1.4286 = 0.700014 times their velocity. */
  lemma SlowBallStacks(f: Field, first: int, second: int, now: int)
    requires second + SlowDuration != 0 && now > second + SlowDuration
    ensures var g := Expire(Applied(Applied(f, SlowBall, first), SlowBall, second), now);
            && |g.balls| == |f.balls|
            && forall j :: 0 <= j < |f.balls| ==>
                 g.balls[j] == f.balls[j].(dx := f.balls[j].dx * 0.700014, dy := f.balls[j].dy * 0.700014)
  {
  }

  /** Applying the caught power-ups in order. */
  function ApplyAll(f: Field, kinds: seq<PowerUpKind>, now: int): (r: Field)
    ensures FieldOk(f) ==> FieldOk(r)
    ensures r.paddle.x == f.paddle.x && r.paddle.y == f.paddle.y && r.paddle.height == f.paddle.height
  {
    if kinds == [] then f
    else Applied(ApplyAll(f, kinds[..|kinds| - 1], now), kinds[|kinds| - 1], now)
  }

  /** A power-up's move in a frame. */
  function Fall(u: PowerUp): PowerUp {
    u.(y := u.y + u.dy)
  }

  /** The paddle collision test of a 15 x 10 power-up. */
  predicate Catches(u: PowerUp, p: Paddle) {
    u.y + 10.0 > p.y && u.y < p.y + p.height && u.x + 15.0 > p.x && u.x < p.x + p.width
  }

  /** The result of the power-up filter: the power-ups still falling, the
      field after the caught ones took effect, and the kinds caught. */
  datatype Sweep = Sweep(kept: seq<PowerUp>, field: Field, caught: seq<PowerUpKind>)

  /** The power-up filter of one frame: each power-up falls; one the paddle
      catches takes effect at once, which a later one in the same frame sees,
      and is removed; the rest stay while above the bottom. */
  function Swept(pus: seq<PowerUp>, f: Field, now: int): (r: Sweep)
    ensures |r.kept| + |r.caught| <= |pus|
    ensures r.field == ApplyAll(f, r.caught, now)
  {
    if pus == [] then Sweep([], f, [])
    else
      var n := |pus| - 1;
      var s := Swept(pus[..n], f, now);
      assert (s.caught + [Fall(pus[n]).kind])[..|s.caught|] == s.caught;
      SweepStep(s, pus[n], now)
  }

  /** The filter's treatment of one power-up `u0`, given what it made of the ones before. */
  function SweepStep(s: Sweep, u0: PowerUp, now: int): Sweep {
    var u := Fall(u0);
    if Catches(u, s.field.paddle) then Sweep(s.kept, Applied(s.field, u.kind, now), s.caught + [u.kind])
    else Sweep(s.kept + (if u.y < CanvasHeight then [u] else []), s.field, s.caught)
  }

  /** Every power-up the filter keeps is one of the input power-ups after its
      fall, above the bottom; falling at 2 per frame is kept. */
  lemma {:induction false} SweptKept(pus: seq<PowerUp>, f: Field, now: int)
    ensures forall j :: 0 <= j < |Swept(pus, f, now).kept| ==>
              Swept(pus, f, now).kept[j].y < CanvasHeight &&
              exists i :: 0 <= i < |pus| && Swept(pus, f, now).kept[j] == Fall(pus[i])
  {
    if pus != [] {
      var n := |pus| - 1;
      SweptKept(pus[..n], f, now);
      var s, u := Swept(pus[..n], f, now), Fall(pus[n]);
      var r := Swept(pus, f, now);
      assert r.kept == s.kept || (r.kept == s.kept + [u] && u.y < CanvasHeight);
      forall j | 0 <= j < |r.kept|
        ensures r.kept[j].y < CanvasHeight && exists i :: 0 <= i < |pus| && r.kept[j] == Fall(pus[i])
      {
        if j < |s.kept| {
          assert r.kept[j] == s.kept[j];
          var i :| 0 <= i < |pus[..n]| && s.kept[j] == Fall(pus[..n][i]);
          assert pus[..n][i] == pus[i];
        } else {
          assert r.kept[j] == Fall(pus[n]);
        }
      }
    }
  }

  /** The fate of power-up `i` in the filter, given what the filter made of
      the ones before it, `s`: if the paddle as the earlier catches left it
      catches the power-up after its fall, its kind is the next one caught
      and it is not kept; otherwise nothing is caught for it, and it is the
      next one kept exactly when it is still above the bottom. What the
      filter made of the first `i` is the start of the whole result, so the
      order is kept. */
  lemma SweptFate(pus: seq<PowerUp>, f: Field, now: int, i: int)
    requires 0 <= i < |pus|
    ensures var s, t, r := Swept(pus[..i], f, now), Swept(pus[..i + 1], f, now), Swept(pus, f, now);
            var u := Fall(pus[i]);
            && s.kept <= t.kept <= r.kept && s.caught <= t.caught <= r.caught
            && (Catches(u, s.field.paddle) ==>
                  t.caught == s.caught + [u.kind] && t.kept == s.kept && t.field == Applied(s.field, u.kind, now))
            && (!Catches(u, s.field.paddle) ==>
                  t.caught == s.caught && t.field == s.field &&
                  (u.y < CanvasHeight ==> t.kept == s.kept + [u]) &&
                  (u.y >= CanvasHeight ==> t.kept == s.kept))
  {
    SweptNext(pus, f, now, i);
    SweptPrefix(pus, f, now, i + 1);
  }

  /** The filter over one more power-up is one more step. */
  lemma SweptNext(pus: seq<PowerUp>, f: Field, now: int, i: int)
    requires 0 <= i < |pus|
    ensures Swept(pus[..i + 1], f, now) == SweepStep(Swept(pus[..i], f, now), pus[i], now)
  {
    assert pus[..i + 1][..i] == pus[..i];
  }

  /** A step only appends to what the filter kept and caught. */
  lemma StepExtends(s: Sweep, u0: PowerUp, now: int)
    ensures s.kept <= SweepStep(s, u0, now).kept && s.caught <= SweepStep(s, u0, now).caught
  {
  }

  /** What the filter makes of the first `i` power-ups starts what it makes of all. */
  lemma {:induction false} SweptPrefix(pus: seq<PowerUp>, f: Field, now: int, i: int)
    requires 0 <= i <= |pus|
    ensures Swept(pus[..i], f, now).kept <= Swept(pus, f, now).kept
    ensures Swept(pus[..i], f, now).caught <= Swept(pus, f, now).caught
    decreases |pus|
  {
    if i == |pus| {
      assert pus[..i] == pus;
    } else {
      var n := |pus| - 1;
      SweptPrefix(pus[..n], f, now, i);
      assert pus[..n][..i] == pus[..i];
      SweptNext(pus, f, now, n);
      assert pus[..n + 1] == pus;
      StepExtends(Swept(pus[..n], f, now), pus[n], now);
    }
  }

  /** The paddle catches are exactly the caught kinds: a frame in which the
      paddle, as the earlier catches left it, meets power-up `i` after its
      fall applies that power-up's kind, at the position it has among the
      caught ones. */
  lemma SweptCatches(pus: seq<PowerUp>, f: Field, now: int, i: int)
    requires 0 <= i < |pus| && Catches(Fall(pus[i]), Swept(pus[..i], f, now).field.paddle)
    ensures var k := |Swept(pus[..i], f, now).caught|;
            k < |Swept(pus, f, now).caught| && Swept(pus, f, now).caught[k] == pus[i].kind
  {
    SweptFate(pus, f, now, i);
    var s, t := Swept(pus[..i], f, now), Swept(pus[..i + 1], f, now);
    assert t.caught[|s.caught|] == pus[i].kind;
  }

  /** A power-up the paddle misses and which is still above the bottom after
      its fall is kept, at the position it has among the kept ones. */
  lemma SweptMisses(pus: seq<PowerUp>, f: Field, now: int, i: int)
    requires 0 <= i < |pus| && !Catches(Fall(pus[i]), Swept(pus[..i], f, now).field.paddle)
    requires Fall(pus[i]).y < CanvasHeight
    ensures var k := |Swept(pus[..i], f, now).kept|;
            k < |Swept(pus, f, now).kept| && Swept(pus, f, now).kept[k] == Fall(pus[i])
  {
    SweptFate(pus, f, now, i);
    var s, t := Swept(pus[..i], f, now), Swept(pus[..i + 1], f, now);
    assert t.kept[|s.kept|] == Fall(pus[i]);
  }

  /** The filter keeps power-ups in flight, and a sound field sound. */
  lemma SweptSound(pus: seq<PowerUp>, f: Field, now: int)
    requires Falling(pus) && FieldOk(f)
    ensures Falling(Swept(pus, f, now).kept) && FieldOk(Swept(pus, f, now).field)
  {
    SweptKept(pus, f, now);
  }

  /** The body of the `filter` callback over the power-ups, for power-up `u0`,
      after the filter made `s` of the ones before it. */
  method SweepPowerUp(ghost s: Sweep, kept: seq<PowerUp>, f: Field, u0: PowerUp, now: int)
    returns (kept': seq<PowerUp>, f': Field)
    requires s.kept == kept && s.field == f
    ensures kept' == SweepStep(s, u0, now).kept && f' == SweepStep(s, u0, now).field
  {
    kept', f' := kept, f;
    var u := u0.(y := u0.y + u0.dy);
    if u.y + 10.0 > f.paddle.y && u.y < f.paddle.y + f.paddle.height &&
       u.x + 15.0 > f.paddle.x && u.x < f.paddle.x + f.paddle.width {
      f' := Applied(f, u.kind, now);
    } else if u.y < CanvasHeight {
      kept' := kept + [u];
    }
  }

  /** The `filter` loop over the power-ups. */
  method FilterPowerUps(pus: seq<PowerUp>, f: Field, now: int) returns (kept: seq<PowerUp>, f': Field)
    ensures kept == Swept(pus, f, now).kept && f' == Swept(pus, f, now).field
  {
    kept, f' := [], f;
    var i := 0;
    while i < |pus|
      invariant 0 <= i <= |pus|
      invariant kept == Swept(pus[..i], f, now).kept && f' == Swept(pus[..i], f, now).field
    {
      assert pus[..i + 1][..i] == pus[..i];
      kept, f' := SweepPowerUp(Swept(pus[..i], f, now), kept, f', pus[i], now);
      i := i + 1;
    }
    assert pus[..|pus|] == pus;
  }

  /** A brick scan keeps the layout, the ball radii and the power-ups in flight. */
  lemma ScanKeepsShape(bricks: seq<Brick>, balls: seq<Ball>, drop: (nat, nat) -> Option<PowerUpKind>)
    requires LaidOut(bricks) && Radii(balls)
    ensures LaidOut(Struck(bricks, balls)) && Radii(Bounced(bricks, balls))
    ensures Falling(Drops(bricks, balls, drop))
  {
    LaidOutAboveBottom(bricks);
    DropsFall(bricks, balls, drop);
  }

  lemma TensAdd(a: int, n: int)
    requires a % 10 == 0
    ensures (a + 10 * n) % 10 == 0
  {
  }

  lemma FallingAppend(a: seq<PowerUp>, b: seq<PowerUp>)
    requires Falling(a) && Falling(b)
    ensures Falling(a + b)
  {
  }

  // ---------------------------------------------------------------------------
  // The component

  /** A key is held when its last event was a key-down. */
  predicate Held(keys: map<string, bool>, code: string) {
    code in keys && keys[code]
  }

  /** The state one frame of the game loop reads and writes. */
  datatype Snapshot = Snapshot(score: int, lives: int, level: int, state: State, balls: seq<Ball>, paddle: Paddle,
                               bricks: seq<Brick>, powerUps: seq<PowerUp>, timers: map<PowerUpKind, int>)

  /** The game invariant: a level of at least one, a score in tens, balls of
      the standard radius, a paddle on its row that is wide exactly while its
      timer runs, the bricks in their layout and every power-up in flight. */
  predicate SoundSnapshot(s: Snapshot) {
    && s.level >= 1
    && s.score >= 0 && s.score % 10 == 0
    && FieldOk(Field(s.balls, s.paddle, s.timers))
    && LaidOut(s.bricks)
    && Falling(s.powerUps)
  }

  /** ... and at most three lives, none left exactly when the game is lost. */
  predicate ValidSnapshot(s: Snapshot) {
    SoundSnapshot(s) && 0 <= s.lives <= 3 && (s.lives == 0 <==> s.state == Lost)
  }

  /** A frame in which every ball was lost: a life goes, and with none left
      the game is lost, else a new ball waits for the launch. */
  function LostBall(s: Snapshot, p: Paddle, rnd: real): Snapshot {
    if s.lives - 1 <= 0 then s.(paddle := p, balls := [], lives := s.lives - 1, state := Lost)
    else s.(paddle := p, balls := [NewBall(rnd)], lives := s.lives - 1, state := Waiting)
  }

  /** A frame that starts with no visible brick: the scan's results are
      stored and the level is won. */
  function Cleared(s: Snapshot, p: Paddle, moved: seq<Ball>, drop: (nat, nat) -> Option<PowerUpKind>): Snapshot {
    s.(paddle := p, balls := Bounced(s.bricks, moved), bricks := Struck(s.bricks, moved),
       score := s.score + 10 * Hits(s.bricks, moved), powerUps := s.powerUps + Drops(s.bricks, moved, drop),
       level := s.level + 1, state := Won)
  }

  /** A frame of play: the bricks are scanned, the power-ups fall and the
      caught ones take effect. */
  function Played(s: Snapshot, p: Paddle, moved: seq<Ball>, now: int, drop: (nat, nat) -> Option<PowerUpKind>): Snapshot {
    var swept := Swept(s.powerUps + Drops(s.bricks, moved, drop), Field(Bounced(s.bricks, moved), p, s.timers), now);
    s.(score := s.score + 10 * Hits(s.bricks, moved), bricks := Struck(s.bricks, moved),
       powerUps := swept.kept, balls := swept.field.balls, paddle := swept.field.paddle, timers := swept.field.timers)
  }

  /** One frame of `gameLoop` while playing, up to its final `updatePowerUps`:
      the paddle steps, the balls move and the lost ones go; with no ball left
      a life is lost; otherwise the bricks are scanned, the level is won when
      no brick was visible before the scan, and else the power-ups fall and
      the caught ones take effect. */
  function Framed(s: Snapshot, left: bool, right: bool, now: int, rnd: real,
                  drop: (nat, nat) -> Option<PowerUpKind>): Snapshot
  {
    var p := StepPaddle(s.paddle, left, right);
    var moved := KeptBalls(s.balls, p);
    if |moved| == 0 then LostBall(s, p, rnd) else Scanned(s, p, moved, now, drop)
  }

  /** A frame with a ball still in play: the level is won on a board with no
      brick standing, otherwise play goes on. */
  function Scanned(s: Snapshot, p: Paddle, moved: seq<Ball>, now: int,
                   drop: (nat, nat) -> Option<PowerUpKind>): Snapshot
  {
    if VisibleCount(s.bricks) == 0 then Cleared(s, p, moved, drop) else Played(s, p, moved, now, drop)
  }

  /** The whole frame: a frame that goes on playing ends with the timers checked. */
  function Stepped(s: Snapshot, left: bool, right: bool, now: int, rnd: real,
                   drop: (nat, nat) -> Option<PowerUpKind>): Snapshot
  {
    var t := Framed(s, left, right, now, rnd, drop);
    if t.state == Playing then
      var g := Expire(Field(t.balls, t.paddle, t.timers), now);
      t.(balls := g.balls, paddle := g.paddle, timers := g.timers)
    else t
  }

  /** The body of `gameLoop` on a snapshot of the state, `updatePowerUps` included. */
  method Step(s: Snapshot, left: bool, right: bool, now: int, rnd: real,
              drop: (nat, nat) -> Option<PowerUpKind>) returns (r: Snapshot)
    ensures r == Stepped(s, left, right, now, rnd, drop)
  {
    r := Frame(s, left, right, now, rnd, drop);
    if r.state == Playing {
      var g := ExpireField(Field(r.balls, r.paddle, r.timers), now);
      r := r.(balls := g.balls, paddle := g.paddle, timers := g.timers);
    }
  }

  /** The body of `gameLoop` on a snapshot of the state, up to `updatePowerUps`. */
  method Frame(s: Snapshot, left: bool, right: bool, now: int, rnd: real,
               drop: (nat, nat) -> Option<PowerUpKind>) returns (r: Snapshot)
    ensures r == Framed(s, left, right, now, rnd, drop)
  {
    var p := StepPaddle(s.paddle, left, right);
    var moved := UpdateBalls(s.balls, p);
    if |moved| == 0 {
      var lives := s.lives - 1;
      if lives <= 0 {
        return s.(paddle := p, balls := moved, lives := lives, state := Lost);
      }
      return s.(paddle := p, balls := [NewBall(rnd)], lives := lives, state := Waiting);
    }
    r := ScanFrame(s, p, moved, now, drop);
  }

  /** The rest of the body of `gameLoop` once a ball is still in play: the
      brick scan, the win check and the falling power-ups. */
  method ScanFrame(s: Snapshot, p: Paddle, moved: seq<Ball>, now: int,
                   drop: (nat, nat) -> Option<PowerUpKind>) returns (r: Snapshot)
    ensures r == Scanned(s, p, moved, now, drop)
  {
    var struck, bounced, gained, dropped, visible := ScanBricks(s.bricks, moved, drop);
    var score, powerUps := s.score + gained, s.powerUps + dropped;
    if visible == 0 {
      return s.(paddle := p, balls := bounced, bricks := struck, score := score, powerUps := powerUps,
                level := s.level + 1, state := Won);
    }
    var kept, f := FilterPowerUps(powerUps, Field(bounced, p, s.timers), now);
    r := s.(score := score, bricks := struck, powerUps := kept, balls := f.balls, paddle := f.paddle, timers := f.timers);
  }

  /** Losing the last ball keeps the game invariant. */
  lemma LostBallValid(s: Snapshot, p: Paddle, rnd: real)
    requires ValidSnapshot(s) && s.state == Playing && PaddleOk(p, s.timers)
    ensures ValidSnapshot(LostBall(s, p, rnd))
  {
  }

  /** Winning the level keeps the game invariant. */
  lemma ClearedValid(s: Snapshot, p: Paddle, moved: seq<Ball>, drop: (nat, nat) -> Option<PowerUpKind>)
    requires ValidSnapshot(s) && s.state == Playing && PaddleOk(p, s.timers) && Radii(moved)
    ensures ValidSnapshot(Cleared(s, p, moved, drop))
  {
    ScanKeepsShape(s.bricks, moved, drop);
    TensAdd(s.score, Hits(s.bricks, moved));
    FallingAppend(s.powerUps, Drops(s.bricks, moved, drop));
  }

  /** A frame of play keeps the game invariant. */
  lemma PlayedValid(s: Snapshot, p: Paddle, moved: seq<Ball>, now: int, drop: (nat, nat) -> Option<PowerUpKind>)
    requires ValidSnapshot(s) && s.state == Playing && PaddleOk(p, s.timers) && Radii(moved)
    ensures ValidSnapshot(Played(s, p, moved, now, drop))
  {
    ScanKeepsShape(s.bricks, moved, drop);
    TensAdd(s.score, Hits(s.bricks, moved));
    FallingAppend(s.powerUps, Drops(s.bricks, moved, drop));
    SweptSound(s.powerUps + Drops(s.bricks, moved, drop), Field(Bounced(s.bricks, moved), p, s.timers), now);
  }

  /** A frame keeps the game invariant. */
  lemma FrameKeepsValid(s: Snapshot, left: bool, right: bool, now: int, rnd: real,
                        drop: (nat, nat) -> Option<PowerUpKind>)
    requires ValidSnapshot(s) && s.state == Playing
    ensures ValidSnapshot(Framed(s, left, right, now, rnd, drop))
  {
    var p := StepPaddle(s.paddle, left, right);
    var moved := KeptBalls(s.balls, p);
    KeptRadii(s.balls, p);
    if |moved| == 0 {
      LostBallValid(s, p, rnd);
    } else if VisibleCount(s.bricks) == 0 {
      ClearedValid(s, p, moved, drop);
    } else {
      PlayedValid(s, p, moved, now, drop);
    }
  }

  /** So does the check of the timers that follows it. */
  lemma StepKeepsValid(s: Snapshot, left: bool, right: bool, now: int, rnd: real,
                       drop: (nat, nat) -> Option<PowerUpKind>)
    requires ValidSnapshot(s) && s.state == Playing
    ensures ValidSnapshot(Stepped(s, left, right, now, rnd, drop))
  {
    FrameKeepsValid(s, left, right, now, rnd, drop);
  }

  class Game {
    var score: int
    var lives: int
    var level: int
    var state: State
    var balls: seq<Ball>
    var paddle: Paddle
    var bricks: seq<Brick>
    var powerUps: seq<PowerUp>
    var keys: map<string, bool>
    var timers: map<PowerUpKind, int>

    /** The fields a frame reads and writes. */
    function Snap(): Snapshot
      reads this
    {
      Snapshot(score, lives, level, state, balls, paddle, bricks, powerUps, timers)
    }

    ghost predicate Sound()
      reads this
    {
      SoundSnapshot(Snap())
    }

    ghost predicate Valid()
      reads this
    {
      ValidSnapshot(Snap())
    }

    /** The component once its mount effect has run `initializeGame` at level 1. */
    constructor (rnd: real)
      ensures Valid()
      ensures score == 0 && lives == 3 && level == 1 && state == Waiting
      ensures LevelLayout(bricks, 1) && balls == [NewBall(rnd)] && paddle == NewPaddle()
      ensures powerUps == [] && keys == map[] && timers == map[]
    {
      score, lives, level := 0, 3, 1;
      keys := map[];
      var layout := CreateBricks(1);
      LevelLaidOut(layout, 1);
      bricks := layout;
      balls := [NewBall(rnd)];
      paddle := NewPaddle();
      powerUps := [];
      timers := map[];
      state := Waiting;
    }

    /** `initializeGame`: the bricks of the current level, a new ball and
        paddle, no power-ups and no timers, waiting for the launch. Every
        caller runs it with lives left. */
    method InitializeGame(rnd: real)
      requires Sound() && 0 < lives <= 3
      modifies this
      ensures Valid()
      ensures LevelLayout(bricks, level) && balls == [NewBall(rnd)] && paddle == NewPaddle()
      ensures powerUps == [] && timers == map[] && state == Waiting
      ensures score == old(score) && lives == old(lives) && level == old(level) && keys == old(keys)
    {
      bricks := CreateBricks(level);
      balls := [NewBall(rnd)];
      paddle := NewPaddle();
      powerUps := [];
      timers := map[];
      state := Waiting;
      LevelLaidOut(bricks, level);
    }

    /** `startNewGame`: score, lives and level back to 0, 3 and 1, then
        `initializeGame`, which still sees the level of the render it was
        created in. */
    method StartNewGame(rnd: real)
      requires Valid()
      modifies this
      ensures Valid()
      ensures score == 0 && lives == 3 && level == 1
      ensures LevelLayout(bricks, old(level)) && balls == [NewBall(rnd)] && paddle == NewPaddle()
      ensures powerUps == [] && timers == map[] && state == Waiting && keys == old(keys)
    {
      var stale := level;
      score := 0;
      lives := 3;
      level := stale;
      InitializeGame(rnd);
      level := 1;
    }

    /** `nextLevel`, the button of the won screen. */
    method NextLevel(rnd: real)
      requires Valid() && lives > 0
      modifies this
      ensures Valid()
      ensures LevelLayout(bricks, level) && balls == [NewBall(rnd)] && paddle == NewPaddle()
      ensures powerUps == [] && timers == map[] && state == Waiting
      ensures score == old(score) && lives == old(lives) && level == old(level)
    {
      InitializeGame(rnd);
    }

    /** `applyPowerUp` at clock reading `now`, as a handler on the fields
        themselves. Within a frame, `GameLoop` reaches the same rule through
        `Step`, which applies `Applied` to its snapshot. */
    method ApplyPowerUp(kind: PowerUpKind, now: int)
      requires Sound()
      modifies this`balls, this`paddle, this`timers
      ensures Sound()
      ensures Field(balls, paddle, timers) == Applied(old(Field(balls, paddle, timers)), kind, now)
    {
      match kind {
        case Multiball =>
          if |balls| == 1 {
            var original := balls[0];
            balls := balls + [original.(dx := -original.dx), original.(dx := original.dx * 0.7, dy := original.dy * 1.3)];
          }
        case WidePaddle =>
          paddle := paddle.(width := 150.0);
          timers := timers[WidePaddle := now + WideDuration];
        case SlowBall =>
          balls := ScaleBalls(balls, SlowFactor);
          timers := timers[SlowBall := now + SlowDuration];
      }
    }

    /** `updatePowerUps` at clock reading `now`, as a handler on the fields
        themselves. Within a frame, `GameLoop` reaches the same rule through
        `Step`, which applies `Expire` to its snapshot. */
    method UpdatePowerUps(now: int)
      requires Sound()
      modifies this`balls, this`paddle, this`timers
      ensures Sound()
      ensures Field(balls, paddle, timers) == Expire(old(Field(balls, paddle, timers)), now)
    {
      var g := ExpireField(Field(balls, paddle, timers), now);
      balls, paddle, timers := g.balls, g.paddle, g.timers;
    }

    /** `handleKeyDown`: the key is held; space launches a waiting ball and
        toggles the pause. */
    method HandleKeyDown(code: string)
      requires Valid()
      modifies this`keys, this`state
      ensures Valid()
      ensures keys == old(keys)[code := true]
      ensures state == if code != "Space" then old(state)
                       else match old(state)
                         case Waiting => Playing
                         case Playing => Paused
                         case Paused => Playing
                         case _ => old(state)
    {
      keys := keys[code := true];
      if code == "Space" {
        if state == Waiting {
          state := Playing;
        } else if state == Playing {
          state := Paused;
        } else if state == Paused {
          state := Playing;
        }
      }
    }

    /** `handleKeyUp`: the key is released. */
    method HandleKeyUp(code: string)
      requires Valid()
      modifies this`keys
      ensures Valid()
      ensures keys == old(keys)[code := false]
    {
      keys := keys[code := false];
    }

    /** Writes a snapshot back to the fields it was taken from. */
    method Store(r: Snapshot)
      modifies this`score, this`lives, this`level, this`state, this`balls, this`paddle, this`bricks, this`powerUps, this`timers
      ensures Snap() == r
    {
      score, lives, level, state, balls, paddle, bricks, powerUps, timers :=
        r.score, r.lives, r.level, r.state, r.balls, r.paddle, r.bricks, r.powerUps, r.timers;
    }

    /** One frame of `gameLoop` at clock reading `now`; `rnd` is the random
        number of a ball reset and `drop` the random outcomes of the power-up
        spawns. */
    method GameLoop(now: int, rnd: real, drop: (nat, nat) -> Option<PowerUpKind>)
      requires Valid()
      modifies this`score, this`lives, this`level, this`state, this`balls, this`paddle, this`bricks, this`powerUps, this`timers
      ensures Valid()
      ensures old(state) != Playing ==> unchanged(this)
      ensures old(state) == Playing ==>
                Snap() == Stepped(old(Snap()), Held(old(keys), "ArrowLeft"), Held(old(keys), "ArrowRight"), now, rnd, drop)
    {
      if state == Playing {
        var left, right := Held(keys, "ArrowLeft"), Held(keys, "ArrowRight");
        var s := Snap();
        StepKeepsValid(s, left, right, now, rnd, drop);
        var r := Step(s, left, right, now, rnd, drop);
        Store(r);
      }
    }
  }
}
