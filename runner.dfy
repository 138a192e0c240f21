/** Infinite Runner: a jumping player, obstacles that scroll left and are
    culled off screen, timed spawning, rectangle collision, and a score that
    raises the speed. Coordinates are reals; gravity is added exactly, which
    is where the model parts from floating point. */
module InfiniteRunner {

  datatype Player = Player(x: real, y: real, width: real, height: real, isJumping: bool, jumpVelocity: real)

  datatype Obstacle = Obstacle(x: real, y: real, width: real, height: real)

  const CanvasWidth: real := 800.0
  const GroundY: real := 240.0
  const JumpForce: real := -12.0
  const Gravity: real := 0.6
  /** Milliseconds that must pass between two spawns. */
  const SpawnInterval: int := 2000

  /** The player `resetGame` installs. */
  function StartPlayer(): Player {
    Player(50.0, GroundY - 40.0, 30.0, 40.0, false, 0.0)
  }

  /** The obstacle spawned every interval. */
  function NewObstacle(): Obstacle {
    Obstacle(CanvasWidth, GroundY - 30.0, 20.0, 30.0)
  }

  /** `checkCollision`: strict overlap of the two rectangles. */
  predicate CheckCollision(p: Player, o: Obstacle) {
    p.x < o.x + o.width && p.x + p.width > o.x && p.y < o.y + o.height && p.y + p.height > o.y
  }

  function Max(a: real, b: real): real { if a < b then b else a }
  function Min(a: real, b: real): real { if a < b then a else b }

  /** Two open intervals share a point. */
  predicate IntervalsMeet(lo1: real, hi1: real, lo2: real, hi2: real) {
    Max(lo1, lo2) < Min(hi1, hi2)
  }

  /** The collision test agrees with an independent definition: the open
      intervals meet on both axes, and then some point lies strictly inside
      both rectangles. */
  lemma CollisionIsOverlap(p: Player, o: Obstacle)
    requires p.width > 0.0 && p.height > 0.0 && o.width > 0.0 && o.height > 0.0
    ensures CheckCollision(p, o) <==>
              IntervalsMeet(p.x, p.x + p.width, o.x, o.x + o.width) &&
              IntervalsMeet(p.y, p.y + p.height, o.y, o.y + o.height)
    ensures CheckCollision(p, o) ==>
              var cx := (Max(p.x, o.x) + Min(p.x + p.width, o.x + o.width)) / 2.0;
              var cy := (Max(p.y, o.y) + Min(p.y + p.height, o.y + o.height)) / 2.0;
              p.x < cx < p.x + p.width && o.x < cx < o.x + o.width &&
              p.y < cy < p.y + p.height && o.y < cy < o.y + o.height
  {
  }

  /** The speed for a score: 3, plus 0.5 for every full 500 points. */
  function Speed(score: nat): (r: real)
    ensures r >= 3.0
  {
    3.0 + ((score / 500) as real) * 0.5
  }

  lemma SpeedMonotone(a: nat, b: nat)
    requires a <= b
    ensures Speed(a) <= Speed(b)
  {
    assert 500 * (a / 500) <= a <= b < 500 * (b / 500) + 500;
    assert (a / 500) as real <= (b / 500) as real;
  }

  /** The player after one tick: while airborne it moves by its velocity,
      gains gravity, and lands on the ground, clamped there with its jump over.
      It never ends below the ground, and a standing player does not move. */
  function Fallen(p: Player): (r: Player)
    ensures r.x == p.x && r.width == p.width && r.height == p.height
    ensures r.y <= GroundY - p.height || r == p
    ensures !p.isJumping ==> r == p
    ensures p.isJumping && !r.isJumping ==> r.y == GroundY - p.height && r.jumpVelocity == 0.0
    ensures r.isJumping ==> p.isJumping && r.y == p.y + p.jumpVelocity && r.jumpVelocity == p.jumpVelocity + Gravity
  {
    if !p.isJumping then p
    else
      var y := p.y + p.jumpVelocity;
      if y >= GroundY - p.height then p.(y := GroundY - p.height, isJumping := false, jumpVelocity := 0.0)
      else p.(y := y, jumpVelocity := p.jumpVelocity + Gravity)
  }

  function Shifted(o: Obstacle, speed: real): Obstacle {
    o.(x := o.x - speed)
  }

  predicate OnScreen(o: Obstacle) {
    o.x + o.width > 0.0
  }

  /** The obstacle filter of one tick: each moves left by the speed and is kept
      while its right edge is right of 0. */
  function Scrolled(obs: seq<Obstacle>, speed: real): (r: seq<Obstacle>)
    ensures |r| <= |obs|
    ensures forall j :: 0 <= j < |r| ==> OnScreen(r[j]) && exists i :: 0 <= i < |obs| && r[j] == Shifted(obs[i], speed)
    ensures forall i :: 0 <= i < |obs| && OnScreen(Shifted(obs[i], speed)) ==> Shifted(obs[i], speed) in r
  {
    if obs == [] then []
    else
      var o := Shifted(obs[|obs| - 1], speed);
      var front := Scrolled(obs[..|obs| - 1], speed);
      assert forall i :: 0 <= i < |obs| - 1 ==> obs[..|obs| - 1][i] == obs[i];
      front + (if OnScreen(o) then [o] else [])
  }

  /** The `filter` loop over the obstacle list. */
  method ScrollObstacles(obs: seq<Obstacle>, speed: real) returns (kept: seq<Obstacle>)
    ensures kept == Scrolled(obs, speed)
  {
    kept := [];
    var i := 0;
    while i < |obs|
      invariant 0 <= i <= |obs|
      invariant kept == Scrolled(obs[..i], speed)
    {
      var o := obs[i];
      o := o.(x := o.x - speed);
      assert obs[..i + 1][..i] == obs[..i];
      if o.x + o.width > 0.0 {
        kept := kept + [o];
      }
      i := i + 1;
    }
    assert obs[..|obs|] == obs;
  }

  /** The collision loop: true on the first obstacle the player overlaps. */
  method AnyCollision(p: Player, obs: seq<Obstacle>) returns (hit: bool)
    ensures hit <==> exists i :: 0 <= i < |obs| && CheckCollision(p, obs[i])
  {
    for i := 0 to |obs|
      invariant forall j :: 0 <= j < i ==> !CheckCollision(p, obs[j])
    {
      if CheckCollision(p, obs[i]) {
        return true;
      }
    }
    return false;
  }

  /** The loop's state: the player, obstacle, speed and spawn-time refs, and
      the score and game-over flags. */
  datatype Snapshot = Snapshot(player: Player, obstacles: seq<Obstacle>, gameSpeed: real,
                               lastObstacle: int, score: nat, gameOver: bool)

  /** The game invariant: the player keeps its size and column and never
      sinks below the ground; standing means resting on the ground with no
      velocity; every obstacle is on screen; the speed follows the score. */
  predicate ValidSnapshot(s: Snapshot) {
    && s.player.x == 50.0 && s.player.width == 30.0 && s.player.height == 40.0
    && s.player.y <= GroundY - s.player.height
    && (!s.player.isJumping ==> s.player.y == GroundY - s.player.height && s.player.jumpVelocity == 0.0)
    && (forall i :: 0 <= i < |s.obstacles| ==> OnScreen(s.obstacles[i]))
    && s.gameSpeed == Speed(s.score)
  }

  /** The player touches some obstacle. */
  predicate Collides(p: Player, obs: seq<Obstacle>) {
    exists i :: 0 <= i < |obs| && CheckCollision(p, obs[i])
  }

  /** The obstacles after one tick: scrolled and culled, plus a new one when
      more than the spawn interval has passed since the last. */
  function Spawned(s: Snapshot, now: int): (r: seq<Obstacle>)
    ensures now - s.lastObstacle > SpawnInterval ==> |r| >= 1 && r[|r| - 1] == NewObstacle()
    ensures |r| <= |s.obstacles| + 1
  {
    Scrolled(s.obstacles, s.gameSpeed) + (if now - s.lastObstacle > SpawnInterval then [NewObstacle()] else [])
  }

  /** One tick of a running game: the player falls, the obstacles scroll and
      spawn, and a collision ends the game before the score is counted;
      otherwise the score goes up by one and the speed follows it. */
  function Ticked(s: Snapshot, now: int): (r: Snapshot)
    ensures r.player == Fallen(s.player) && r.obstacles == Spawned(s, now)
    ensures r.lastObstacle == if now - s.lastObstacle > SpawnInterval then now else s.lastObstacle
    ensures r.gameOver <==> Collides(r.player, r.obstacles)
    ensures r.gameOver ==> r.score == s.score && r.gameSpeed == s.gameSpeed
    ensures !r.gameOver ==> r.score == s.score + 1 && r.gameSpeed == Speed(r.score)
  {
    var p := Fallen(s.player);
    var obs := Spawned(s, now);
    var t := s.(player := p, obstacles := obs,
                lastObstacle := if now - s.lastObstacle > SpawnInterval then now else s.lastObstacle);
    if Collides(p, obs) then t.(gameOver := true)
    else t.(score := s.score + 1, gameSpeed := Speed(s.score + 1), gameOver := false)
  }

  /** A tick keeps the game invariant. */
  lemma TickKeepsValid(s: Snapshot, now: int)
    requires ValidSnapshot(s)
    ensures ValidSnapshot(Ticked(s, now))
  {
    var r := Ticked(s, now);
    var kept := Scrolled(s.obstacles, s.gameSpeed);
    forall i | 0 <= i < |r.obstacles| ensures OnScreen(r.obstacles[i]) {
      if i < |kept| {
        assert r.obstacles[i] == kept[i];
      }
    }
  }

  /** The player update of one tick. */
  method UpdatePlayer(p: Player) returns (player: Player)
    ensures player == Fallen(p)
  {
    player := p;
    if player.isJumping {
      player := player.(y := player.y + player.jumpVelocity);
      player := player.(jumpVelocity := player.jumpVelocity + Gravity);
      if player.y >= GroundY - player.height {
        player := player.(y := GroundY - player.height);
        player := player.(isJumping := false);
        player := player.(jumpVelocity := 0.0);
      }
    }
  }

  /** The body of `gameLoop` after its guard, on values. */
  method Tick(s: Snapshot, now: int) returns (r: Snapshot)
    ensures r == Ticked(s, now)
  {
    var player := UpdatePlayer(s.player);
    var obstacles := ScrollObstacles(s.obstacles, s.gameSpeed);
    var lastObstacle := s.lastObstacle;
    if now - lastObstacle > SpawnInterval {
      obstacles := obstacles + [NewObstacle()];
      lastObstacle := now;
    }
    assert obstacles == Spawned(s, now);
    r := s.(player := player, obstacles := obstacles, lastObstacle := lastObstacle);
    var hit := AnyCollision(player, obstacles);
    if hit {
      return r.(gameOver := true);
    }
    var score := s.score + 1;
    r := r.(score := score, gameSpeed := 3.0 + ((score / 500) as real) * 0.5, gameOver := false);
  }

  class Runner {
    var player: Player
    var obstacles: seq<Obstacle>
    var gameSpeed: real
    var lastObstacle: int
    var score: nat
    var gameOver: bool
    var gameStarted: bool

    /** The game invariant, on the current refs. */
    ghost predicate Valid()
      reads this
    {
      ValidSnapshot(Snap())
    }

    constructor ()
      ensures Valid()
      ensures player == Player(50.0, 200.0, 30.0, 40.0, false, 0.0) && obstacles == []
      ensures gameSpeed == 3.0 && lastObstacle == 0 && score == 0 && !gameOver && !gameStarted
    {
      player := Player(50.0, 200.0, 30.0, 40.0, false, 0.0);
      obstacles := [];
      gameSpeed := 3.0;
      lastObstacle := 0;
      score := 0;
      gameOver := false;
      gameStarted := false;
    }

    /** `resetGame`. */
    method ResetGame()
      modifies this
      ensures Valid()
      ensures player == Player(50.0, 200.0, 30.0, 40.0, false, 0.0) && obstacles == []
      ensures gameSpeed == 3.0 && lastObstacle == 0 && score == 0 && !gameOver
      ensures gameStarted == old(gameStarted)
    {
      player := StartPlayer();
      obstacles := [];
      gameSpeed := 3.0;
      lastObstacle := 0;
      score := 0;
      gameOver := false;
    }

    /** `startGame`, the button: reset, then start. */
    method StartGame()
      modifies this
      ensures Valid()
      ensures player == StartPlayer() && obstacles == [] && score == 0 && !gameOver && gameStarted
    {
      ResetGame();
      gameStarted := true;
    }

    /** `jump`: only from the ground, in a started game that is not over. */
    method Jump()
      requires Valid()
      modifies this`player
      ensures Valid()
      ensures if old(!player.isJumping && gameStarted && !gameOver)
              then player == old(player).(isJumping := true, jumpVelocity := JumpForce)
              else player == old(player)
    {
      if !player.isJumping && gameStarted && !gameOver {
        player := player.(isJumping := true);
        player := player.(jumpVelocity := JumpForce);
      }
    }

    /** The keyboard handler: space or arrow-up starts the game, then jumps. */
    method HandleKeyPress(code: string)
      requires Valid()
      modifies this`player, this`gameStarted
      ensures Valid()
      ensures (code == "Space" || code == "ArrowUp") && !old(gameStarted) ==>
                gameStarted && player == old(player)
      ensures (code == "Space" || code == "ArrowUp") && old(gameStarted) ==>
                gameStarted &&
                player == if old(!player.isJumping && !gameOver)
                          then old(player).(isJumping := true, jumpVelocity := JumpForce)
                          else old(player)
      ensures code != "Space" && code != "ArrowUp" ==> unchanged(this)
    {
      if code == "Space" || code == "ArrowUp" {
        if !gameStarted {
          gameStarted := true;
        } else {
          Jump();
        }
      }
    }

    /** The refs and state the loop reads and writes, as one value. */
    function Snap(): Snapshot
      reads this
    {
      Snapshot(player, obstacles, gameSpeed, lastObstacle, score, gameOver)
    }

    /** One tick of `gameLoop` at clock reading `now` (milliseconds). */
    method GameLoop(now: int)
      requires Valid()
      modifies this
      ensures Valid()
      ensures gameStarted == old(gameStarted)
      ensures !old(gameStarted) || old(gameOver) ==> unchanged(this)
      ensures old(gameStarted) && !old(gameOver) ==> Snap() == Ticked(old(Snap()), now)
    {
      if !gameStarted || gameOver {
        return;
      }
      var s := Snap();
      TickKeepsValid(s, now);
      var r := Tick(s, now);
      player, obstacles, gameSpeed, lastObstacle, score, gameOver := r.player, r.obstacles, r.gameSpeed, r.lastObstacle, r.score, r.gameOver;
      assert Snap() == r;
    }
  }
}
