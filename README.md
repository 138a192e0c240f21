# Arcade games: a Dafny model

A model of the game logic of six browser games: Tic-Tac-Toe,
Rock-Paper-Scissors, Snake, an infinite runner, Minesweeper and Brick
Breaker. Each game is a React component. Its state (`useState`) and refs
(`useRef`) become the fields of one Dafny class. Its event handlers and its
per-frame loop become methods of that class. Each method states the whole
new state it leaves: as an exact value, or, for the cells Minesweeper's
flood fill opens, as exactly the cells the fill can reach, which leaves one
possible board (`RevealDetermined`).

The logic those handlers run is written as functions, lemmas and
value-level methods with their loops:

- the winner search over the eight lines;
- the round and match rules of Rock-Paper-Scissors;
- collision, move and growth of the snake;
- obstacle scroll, spawn and collision in the runner;
- mine placement, neighbour counts, the breadth-first flood fill and the
  win count in Minesweeper;
- the brick layout, ball, paddle, brick scan and power-ups in Brick Breaker.

Each loop method is proved against a specification function, and the
properties the games promise are proved about those functions.

Anything non-deterministic becomes a parameter:

- random numbers (Minesweeper's mine picks, the computer's hand, Snake's
  next food cell, the ball's start direction and power-up drops);
- the clock (`now`, in milliseconds);
- the keys held down.

One file per game:

| file | module | source |
|---|---|---|
| tictactoe.dfy | TicTacToe | src/components/games/TicTacToe.tsx |
| rps.dfy | RockPaperScissors | src/components/games/RockPaperScissors.tsx |
| snake.dfy | Snake | src/components/games/SnakeGame.tsx |
| runner.dfy | InfiniteRunner | src/components/games/InfiniteRunner.tsx |
| minesweeper.dfy | Minesweeper | src/components/games/Minesweeper.tsx |
| brickbreaker.dfy | BrickBreaker | src/components/games/BrickBreaker.tsx |

Where the model departs from the source, the source is followed. These
places are listed under "Left out" (behaviour the model reproduces and
names) and under "Findings" (two evident bugs).

## Model

| member | source | states |
|---|---|---|
| TicTacToe.EmptyBoard | src/components/games/TicTacToe.tsx:14 | every one of the nine squares is empty |
| TicTacToe.MatchesComplete | src/components/games/TicTacToe.tsx:31-33 | the source's test on a line (first square set and equal to the other two) holds exactly when all three squares hold one mark, and that mark is the first square's |
| TicTacToe.WinnerFrom | src/components/games/TicTacToe.tsx:30-35 | searching from line k finds nothing exactly when no later line is complete; otherwise it returns the mark of a complete line with no complete line before it |
| TicTacToe.CheckWinner | src/components/games/TicTacToe.tsx:29-36 | no winner exactly when no line is complete; otherwise the winner's mark fills the first complete line in list order |
| TicTacToe.CheckDraw | src/components/games/TicTacToe.tsx:38-40 | a draw exactly when all nine squares are filled and no line is complete |
| TicTacToe.LineFrom | src/components/games/TicTacToe.tsx:83-92 | searching from line k gives the empty list exactly when no later line is complete; otherwise it gives the indices of a complete line |
| TicTacToe.GetWinningLine | src/components/games/TicTacToe.tsx:83-92 | empty unless a mark has won; a non-empty result is three in-range squares that hold the same mark; when a mark has won and some line is complete, the line is found |
| TicTacToe.LineFromHoldsWinner | src/components/games/TicTacToe.tsx:29-36 | the line search and the winner search stop at the same line, so the line found holds the winner's mark |
| TicTacToe.WinningLineHoldsWinner | src/components/games/TicTacToe.tsx:83-92 | the highlighted line is three squares that all hold the winning mark |
| TicTacToe.DrawExcludesWinner | src/components/games/TicTacToe.tsx:38-40 | a draw has no winner, and a full board is either a draw or has a winner |
| TicTacToe.CountAfterPlace | src/components/games/TicTacToe.tsx:45-47 | placing a mark on an empty square adds one of that mark and none of the other |
| TicTacToe.EmptyBoardFresh | src/components/games/TicTacToe.tsx:70-75 | the fresh board has no winner, is not full, and holds no X and no O |
| TicTacToe.Game.constructor | src/components/games/TicTacToe.tsx:14-21 | an empty board, X to move, no result, playing, with the saved scores; the game invariant holds |
| TicTacToe.Game.HandleCellClick | src/components/games/TicTacToe.tsx:42-68 | a click on a filled square or a finished game changes nothing; otherwise the current mark is placed, and a win (scored for that mark), a draw (scored as a draw) or the other side's turn follows; the invariant (the result agrees with the board, and the marks alternate starting with X) is kept |
| TicTacToe.Game.ResetGame | src/components/games/TicTacToe.tsx:70-75 | a fresh board with X to move; the scores are kept |
| TicTacToe.Game.ResetScores | src/components/games/TicTacToe.tsx:77-81 | all three tallies are zero and nothing else changes |
| TicTacToe.Game.WinningLine | src/components/games/TicTacToe.tsx:83-92 | empty exactly when no mark has won; otherwise three in-range squares that hold the winner's mark |
| RockPaperScissors.DetermineWinner | src/components/games/RockPaperScissors.tsx:36-46 | a tie exactly when the hands are equal; the first player wins exactly when their hand is one step after the other on the cycle rock, paper, scissors, and the opponent wins exactly in the reverse case |
| RockPaperScissors.DetermineWinnerSwap | src/components/games/RockPaperScissors.tsx:36-46 | exchanging the hands exchanges the winner |
| RockPaperScissors.BeatsIsTotalAndAsymmetric | src/components/games/RockPaperScissors.tsx:36-46 | of two different hands exactly one beats the other, and no hand beats itself |
| RockPaperScissors.RoundAwardsOnePoint | src/components/games/RockPaperScissors.tsx:79-100 | a round gives one point in all to the side whose hand beats the other's, and none on a tie |
| RockPaperScissors.NextRoundScheduledAsWritten | src/components/games/RockPaperScissors.tsx:102-106 | as written, the next round is scheduled exactly when no outcome of the round just played could have brought either side to three |
| RockPaperScissors.StuckAfterOpponentPoint | src/components/games/RockPaperScissors.tsx:102-106 | from 2-0 an opponent's point leaves 2-1, short of three on both sides, with no next round scheduled |
| RockPaperScissors.IntendedNeverStalls | src/components/games/RockPaperScissors.tsx:75-106 | under the intended rule, a round played below three points is followed by another exactly when both sides are still below three |
| RockPaperScissors.StalledMatch | src/components/games/RockPaperScissors.tsx:48-118 | played through the class, wins, wins, loses in computer mode leaves 2-1, still revealing, no match winner, no next round, and a further hand click is ignored |
| RockPaperScissors.Match.constructor | src/components/games/RockPaperScissors.tsx:13-23 | computer mode, round 1, no choices, 0-0, choosing |
| RockPaperScissors.Match.SetMode | src/components/games/RockPaperScissors.tsx:160-171 | the mode changes only while choosing at 0-0 |
| RockPaperScissors.Match.HandlePlayerChoice | src/components/games/RockPaperScissors.tsx:48-65 | ignored unless choosing and not animating; otherwise records the hand, starts the animation and, in two-player mode, waits for the second player |
| RockPaperScissors.Match.ComputerReply | src/components/games/RockPaperScissors.tsx:56-60 | records the computer's hand, then scores the round as revealResults does |
| RockPaperScissors.Match.HandlePlayer2Choice | src/components/games/RockPaperScissors.tsx:67-73 | ignored unless the second player is awaited and the first has chosen; otherwise records the hand, stops waiting and scores the round |
| RockPaperScissors.Match.RevealResults | src/components/games/RockPaperScissors.tsx:75-108 | the round winner gets a point; reaching three ends the match with that side as winner; the result says whether the next round is scheduled |
| RockPaperScissors.Match.NextRound | src/components/games/RockPaperScissors.tsx:110-118 | round plus one, choices and round result cleared, choosing again; scores and match winner kept |
| RockPaperScissors.Match.ResetGame | src/components/games/RockPaperScissors.tsx:120-131 | everything back to the initial state except the mode |
| Snake.Advance | src/components/games/SnakeGame.tsx:70-78 | the new head goes in front of the old body; the body is one longer when growing and otherwise loses its tail |
| Snake.AdvanceKeepsBody | src/components/games/SnakeGame.tsx:61-78 | a move that passes the collision test keeps every segment on the grid and no cell twice |
| Snake.Turn | src/components/games/SnakeGame.tsx:91-103 | only a perpendicular turn is taken, so a unit direction stays a unit direction and never reverses |
| Snake.NextStatus | src/components/games/SnakeGame.tsx:84-111 | the status changes only from ready to playing (Space code), playing to paused (space key) and paused to playing (Space code); game over is final |
| Snake.SpaceTogglesPause | src/components/games/SnakeGame.tsx:84-111 | a keyboard space press starts, pauses and resumes; an event with only the Space code does not pause |
| Snake.TwoPressesReverse | src/components/games/SnakeGame.tsx:51-61 | two presses before one tick (Up, then Left, while moving right) point the snake straight back, and its next head lands on the neck |
| Snake.SnakeGame.constructor | src/components/games/SnakeGame.tsx:11-18 | one segment at (10, 10) heading right, food at (15, 15), score 0, ready, with the saved high score |
| Snake.SnakeGame.ResetGame | src/components/games/SnakeGame.tsx:31-37 | the start position with the new food cell; the high score is kept |
| Snake.SnakeGame.GameLoop | src/components/games/SnakeGame.tsx:51-82 | nothing unless playing; a collision ends the game and raises the high score to the score; otherwise the snake advances, and eating scores 10 and takes the new food; the invariant (a valid body, a unit direction, one segment per ten points) is kept |
| Snake.SnakeGame.HandleKeyPress | src/components/games/SnakeGame.tsx:84-111 | the status follows the status rule, the direction turns only while playing, and a press never turns it straight back against the current direction |
| InfiniteRunner.CollisionIsOverlap | src/components/games/InfiniteRunner.tsx:67-72 | the collision test holds exactly when the player's and the obstacle's open intervals meet on both axes, and then a common interior point exists |
| InfiniteRunner.Speed | src/components/games/InfiniteRunner.tsx:142-146 | the speed is never below 3 |
| InfiniteRunner.SpeedMonotone | src/components/games/InfiniteRunner.tsx:142-146 | a higher score never means a lower speed |
| InfiniteRunner.Fallen | src/components/games/InfiniteRunner.tsx:94-104 | a standing player does not move; a jumping one moves by its velocity and gains gravity, or lands on the ground with its jump over; it never ends below the ground |
| InfiniteRunner.Scrolled | src/components/games/InfiniteRunner.tsx:111-114 | every obstacle kept is an input obstacle moved left by the speed and still on screen, and every moved obstacle still on screen is kept |
| InfiniteRunner.ScrollObstacles | src/components/games/InfiniteRunner.tsx:111-114 | the filter loop computes the scrolled obstacles |
| InfiniteRunner.AnyCollision | src/components/games/InfiniteRunner.tsx:134-139 | true exactly when the player overlaps some obstacle |
| InfiniteRunner.Spawned | src/components/games/InfiniteRunner.tsx:117-125 | when more than 2000 ms have passed since the last spawn a new obstacle is appended at the right edge; at most one is added |
| InfiniteRunner.Ticked | src/components/games/InfiniteRunner.tsx:84-146 | one tick moves the player, scrolls and spawns obstacles, and ends the game exactly when the moved player touches an obstacle; otherwise the score goes up by one and the speed follows it |
| InfiniteRunner.TickKeepsValid | src/components/games/InfiniteRunner.tsx:84-146 | a tick keeps the player's size and column, keeps it at or above the ground, keeps every obstacle on screen and keeps the speed equal to the speed of the score |
| InfiniteRunner.UpdatePlayer | src/components/games/InfiniteRunner.tsx:94-104 | the player update computes the fallen player |
| InfiniteRunner.Tick | src/components/games/InfiniteRunner.tsx:84-146 | the loop body computes the ticked state |
| InfiniteRunner.Runner.constructor | src/components/games/InfiniteRunner.tsx:28-43 | the start player on the ground, no obstacles, speed 3, score 0, not started |
| InfiniteRunner.Runner.ResetGame | src/components/games/InfiniteRunner.tsx:51-65 | the start state; whether the game has started is kept |
| InfiniteRunner.Runner.StartGame | src/components/games/InfiniteRunner.tsx:178-181 | the start state, started |
| InfiniteRunner.Runner.Jump | src/components/games/InfiniteRunner.tsx:74-79 | a jump with force -12 only from the ground, in a started game that is not over |
| InfiniteRunner.Runner.HandleKeyPress | src/components/games/InfiniteRunner.tsx:151-161 | Space or ArrowUp starts an unstarted game and otherwise jumps; other keys change nothing |
| InfiniteRunner.Runner.GameLoop | src/components/games/InfiniteRunner.tsx:81-149 | nothing unless started and not over; otherwise the refs become the ticked state and the invariant is kept |
| Minesweeper.Put | src/components/games/Minesweeper.tsx:93-104 | the board stays 10 x 10, and only the written cell changes |
| Minesweeper.NeighborMines | src/components/games/Minesweeper.tsx:64-72 | a cell has at most eight neighbouring mines |
| Minesweeper.BlockCountIsNeighbors | src/components/games/Minesweeper.tsx:64-72 | the nine offsets the count loop visits count the cell's neighbouring mines plus the cell itself |
| Minesweeper.CountNeighborMines | src/components/games/Minesweeper.tsx:64-72 | the count loop gives the neighbouring mines plus the cell itself, so for a safe cell exactly its neighbouring mines |
| Minesweeper.CreateEmptyBoard | src/components/games/Minesweeper.tsx:28-37 | a 10 x 10 board of closed, unflagged, safe cells with count 0 |
| Minesweeper.EmptyBoardFacts | src/components/games/Minesweeper.tsx:28-37 | the empty board has no mines, flags or open cells, and its counts are right |
| Minesweeper.RowCellsSound | src/components/games/Minesweeper.tsx:43-49 | every candidate of a row is on the board, outside the 3 x 3 block of the first click, and in row-major order |
| Minesweeper.RowCellsComplete | src/components/games/Minesweeper.tsx:43-49 | every cell of the row outside the block is a candidate |
| Minesweeper.GridCellsLength | src/components/games/Minesweeper.tsx:43-49 | the candidates number 100 minus the size of the block clipped to the board |
| Minesweeper.Candidates | src/components/games/Minesweeper.tsx:43-49 | the candidate list holds exactly the cells outside the 3 x 3 block around the first click, once each, in row-major order; there are 91 to 96 of them |
| Minesweeper.FloorIndex | src/components/games/Minesweeper.tsx:53 | the floor of a random number in [0, 1) times the list length is an index of the list |
| Minesweeper.DrawMines | src/components/games/Minesweeper.tsx:52-57 | the draw changes only mine flags, places exactly fifteen mines and none in the block around the first click |
| Minesweeper.NeighborMinesSameMines | src/components/games/Minesweeper.tsx:60-76 | two boards with the same mines give every cell the same neighbour count |
| Minesweeper.CountRow | src/components/games/Minesweeper.tsx:60-76 | the count loop over one row changes only counts and makes every safe cell of the rows done so far carry its neighbour count |
| Minesweeper.ComputeCounts | src/components/games/Minesweeper.tsx:60-76 | the count pass changes only counts, and afterwards every safe cell carries the number of its neighbouring mines |
| Minesweeper.PlaceMines | src/components/games/Minesweeper.tsx:39-79 | fifteen mines outside the block of the first click, right counts everywhere, and the open and flagged cells as before |
| Minesweeper.FirstClickIsClear | src/components/games/Minesweeper.tsx:39-79 | with the block around it free of mines and the counts right, the first cell clicked is safe and has no neighbouring mine |
| Minesweeper.RevealAllMines | src/components/games/Minesweeper.tsx:109-115 | every mine is opened and every other cell is left as it was |
| Minesweeper.ScanDone | src/components/games/Minesweeper.tsx:168-174 | the row-major scan passes every open safe cell and every correctly flagged cell |
| Minesweeper.WinCounts | src/components/games/Minesweeper.tsx:168-174 | the counting loop gives the number of open safe cells and the number of flags on mines |
| Minesweeper.VisitNeighbor | src/components/games/Minesweeper.tsx:124-137 | visiting one neighbour keeps the flood-fill invariant: only closed, unflagged safe cells are opened, and a zero-count one joins the queue |
| Minesweeper.VisitBlock | src/components/games/Minesweeper.tsx:124-137 | the two inner loops keep the flood-fill invariant, keep every pushed cell next to an earlier one, and leave every cell of the current block open, flagged or a mine |
| Minesweeper.FloodFill | src/components/games/Minesweeper.tsx:120-140 | the breadth-first fill opens only closed, unflagged safe cells; every cell it pushed has count 0, all eight neighbours of those cells are open, flagged or mines, every other cell opened is a neighbour of a pushed cell, every zero-count cell it opened was pushed, and every cell reachable from the start through closed, unflagged safe cells of count 0 is open; every cell it pushed after the start was closed and lies next to an earlier one, and every cell it opened can be reached from the start that way |
| Minesweeper.FillReaches | src/components/games/Minesweeper.tsx:120-140 | on a closed zone that holds every zero-count cell opened, the last cell of any path from the start through closed, unflagged safe cells of count 0 is open |
| Minesweeper.ZonePath | src/components/games/Minesweeper.tsx:120-140 | every pushed cell ends a path from the start through closed, unflagged safe cells of count 0 |
| Minesweeper.FillSound | src/components/games/Minesweeper.tsx:120-140 | a fill whose pushed cells each lie next to an earlier one opens only cells reachable from the start through closed, unflagged safe cells of count 0 |
| Minesweeper.FillExact | src/components/games/Minesweeper.tsx:120-140 | a finished fill opens exactly the cells reachable from the start |
| Minesweeper.LayoutKeepsCounts | src/components/games/Minesweeper.tsx:101-140 | opening cells keeps the mines and the flags, and so keeps the counts right |
| Minesweeper.FlagSetToggle | src/components/games/Minesweeper.tsx:154-155 | toggling one flag adds one flag or removes one |
| Minesweeper.FlagKeepsCounts | src/components/games/Minesweeper.tsx:146-159 | toggling a flag keeps the mines and the counts right |
| Minesweeper.Reveal | src/components/games/Minesweeper.tsx:101-140 | on a mine, every mine is opened and nothing else changes; on a safe cell, only closed, unflagged safe cells are opened, the clicked cell among them, and the flood fill runs exactly when the cell has no neighbouring mine; it then opens every cell reachable from the clicked one through closed, unflagged safe cells of count 0, and nothing else |
| Minesweeper.RevealDetermined | src/components/games/Minesweeper.tsx:101-140 | the board after a click, and whether it hit a mine, are one and the same for every result that meets the reveal contract |
| Minesweeper.Game.constructor | src/components/games/Minesweeper.tsx:81-89 | the empty board, playing, 15 mines to find, first click pending |
| Minesweeper.Game.InitializeGame | src/components/games/Minesweeper.tsx:81-89 | the empty board, playing, 15 mines to find, first click pending; the invariant holds |
| Minesweeper.Game.ToggleFlag | src/components/games/Minesweeper.tsx:146-159 | an open cell is left alone; otherwise its flag flips and the mine counter moves by one the other way; the invariant (right counts, 0 or 15 mines, counter equal to 15 minus the flags) is kept |
| Minesweeper.Game.RevealCell | src/components/games/Minesweeper.tsx:91-144 | the first click places fifteen mines away from the clicked cell, which is then safe and mine-free around; an open or flagged cell returns the old board; otherwise the cell is revealed as Reveal states, the whole empty region around a zero-count cell included and nothing beyond it, and a mine loses the game |
| Minesweeper.Game.RevealCellIntended | src/components/games/Minesweeper.tsx:91-102 | the corrected click: an open or flagged cell is ignored before placement, so after the first click the board always holds fifteen mines |
| Minesweeper.FlaggedFirstClick | src/components/games/Minesweeper.tsx:91-102 | as written: flagging a cell and clicking it first uses up the first click and leaves a board with no mines |
| Minesweeper.Game.CheckWin | src/components/games/Minesweeper.tsx:162-179 | after the first click, the game is won exactly when 85 safe cells are open; otherwise the state is kept |
| BrickBreaker.BrickRowsBounds | src/components/games/BrickBreaker.tsx:63 | five to eight brick rows, eight from level 6 on |
| BrickBreaker.CreateBricks | src/components/games/BrickBreaker.tsx:62-82 | ten visible bricks per row, row by row, in the layout position and the colour of their row |
| BrickBreaker.LayoutTiles | src/components/games/BrickBreaker.tsx:66-78 | two bricks of the layout never overlap, and every brick lies between the side margins |
| BrickBreaker.LaidOutAboveBottom | src/components/games/BrickBreaker.tsx:66-78 | every brick ends above the bottom of the canvas |
| BrickBreaker.NewBall | src/components/games/BrickBreaker.tsx:84-93 | one ball at (400, 440) going up at speed 4, to the right exactly when the random number exceeds 0.5 |
| BrickBreaker.NewPaddle | src/components/games/BrickBreaker.tsx:95-102 | a 100 x 10 paddle, centred, 30 above the bottom |
| BrickBreaker.StepPaddle | src/components/games/BrickBreaker.tsx:176-182 | the paddle moves 8 left or right only when that arrow is held and it is inside that stop; it keeps its row and size |
| BrickBreaker.MoveBall | src/components/games/BrickBreaker.tsx:191-210 | the ball moves by its velocity; off the paddle it only reflects, sideways only at a side wall and vertically only at the top; on the paddle it goes up at the speed it had, with sideways speed (hit position - 0.5) * 8, below 4 |
| BrickBreaker.KeptBallsSound | src/components/games/BrickBreaker.tsx:189-221 | every ball kept is a moved ball still above the bottom |
| BrickBreaker.KeptBallsComplete | src/components/games/BrickBreaker.tsx:189-221 | every moved ball still above the bottom is kept |
| BrickBreaker.StepBall | src/components/games/BrickBreaker.tsx:191-210 | the per-ball statements compute the moved ball |
| BrickBreaker.UpdateBalls | src/components/games/BrickBreaker.tsx:189-221 | the filter loop computes the kept balls |
| BrickBreaker.Struck | src/components/games/BrickBreaker.tsx:239-262 | a brick disappears exactly when it was visible and some ball overlaps it |
| BrickBreaker.Bounced | src/components/games/BrickBreaker.tsx:246-254 | each ball flips its vertical direction once per visible brick it overlaps |
| BrickBreaker.HitBrick | src/components/games/BrickBreaker.tsx:246-254 | for a visible brick, every ball over it hides it, flips its vertical direction, scores 10 and may drop a power-up |
| BrickBreaker.ScanBricks | src/components/games/BrickBreaker.tsx:239-262 | the brick scan gives the struck bricks, the bounced balls, ten points per (visible brick, ball) hit, the dropped power-ups and the number of bricks visible before the scan |
| BrickBreaker.DropsFall | src/components/games/BrickBreaker.tsx:113-124 | every power-up dropped is in flight, at most one per hit |
| BrickBreaker.NoVisibleInert | src/components/games/BrickBreaker.tsx:239-262 | with no visible brick the scan changes nothing and scores nothing |
| BrickBreaker.SharedBrickScoresTwice | src/components/games/BrickBreaker.tsx:246-254 | two balls on one brick score 20, hide it and both bounce |
| BrickBreaker.LastBrickEndsLevelNextFrame | src/components/games/BrickBreaker.tsx:239-269 | the frame that hides the last brick counted it as visible, so the level ends a frame later |
| BrickBreaker.Scaled | src/components/games/BrickBreaker.tsx:141-143 | every ball's velocity is multiplied by the factor |
| BrickBreaker.ScaleBalls | src/components/games/BrickBreaker.tsx:141-143 | the loop computes the scaled balls |
| BrickBreaker.Applied | src/components/games/BrickBreaker.tsx:126-149 | multiball splits a lone ball into three at one spot; wide paddle widens it to 150 until now + 10000; slow ball slows the balls to 0.7 until now + 8000; a sound field stays sound |
| BrickBreaker.Expire | src/components/games/BrickBreaker.tsx:151-165 | an expired wide paddle goes back to 100, expired slow balls speed up by 1.4286, expired timers go and the others stay |
| BrickBreaker.ExpireField | src/components/games/BrickBreaker.tsx:151-165 | the update computes the expired field |
| BrickBreaker.ExpireIdempotent | src/components/games/BrickBreaker.tsx:151-165 | running the update twice at one time is running it once |
| BrickBreaker.WidePaddleLasts | src/components/games/BrickBreaker.tsx:126-165 | a wide paddle stays wide until exactly 10 s after the catch, then shrinks back with its timer gone |
| BrickBreaker.SlowBallRestores | src/components/games/BrickBreaker.tsx:126-165 | after a slow ball expires the balls keep 1.00002 times their velocity |
| BrickBreaker.SlowBallStacks | src/components/games/BrickBreaker.tsx:126-165 | two slow balls caught before expiry leave the balls at 0.700014 times their velocity |
| BrickBreaker.ApplyAll | src/components/games/BrickBreaker.tsx:276-282 | the caught power-ups in catch order keep a sound field sound and keep the paddle's place |
| BrickBreaker.Swept | src/components/games/BrickBreaker.tsx:272-293 | the power-up filter keeps and catches no more than it was given, and the field is the old one with the caught kinds applied in order |
| BrickBreaker.SweptKept | src/components/games/BrickBreaker.tsx:272-293 | every power-up kept is an input power-up after its fall, still above the bottom |
| BrickBreaker.SweptSound | src/components/games/BrickBreaker.tsx:272-293 | the filter keeps power-ups in flight and a sound field sound |
| BrickBreaker.SweptFate | src/components/games/BrickBreaker.tsx:272-293 | each power-up, after its fall, is caught and applied when the paddle as earlier catches left it meets it, else kept exactly when above the bottom; the result for the first ones starts the whole result, so order is kept |
| BrickBreaker.SweptCatches | src/components/games/BrickBreaker.tsx:272-293 | a power-up the paddle meets is caught, its kind in its place among the caught kinds |
| BrickBreaker.SweptMisses | src/components/games/BrickBreaker.tsx:272-293 | a power-up the paddle misses that is still above the bottom is kept, in its place among the kept ones |
| BrickBreaker.SweptPrefix | src/components/games/BrickBreaker.tsx:272-293 | what the filter keeps and catches of the first power-ups is the start of what it keeps and catches of all |
| BrickBreaker.SweepPowerUp | src/components/games/BrickBreaker.tsx:273-292 | the callback treats one power-up as the filter's step does |
| BrickBreaker.FilterPowerUps | src/components/games/BrickBreaker.tsx:272-293 | the filter loop computes the swept power-ups and field |
| BrickBreaker.ScanKeepsShape | src/components/games/BrickBreaker.tsx:239-262 | a scan keeps the layout, the ball radii and the power-ups in flight |
| BrickBreaker.Step | src/components/games/BrickBreaker.tsx:170-295 | the loop body computes the stepped frame |
| BrickBreaker.Frame | src/components/games/BrickBreaker.tsx:170-293 | the loop body up to the timer check computes the framed state |
| BrickBreaker.ScanFrame | src/components/games/BrickBreaker.tsx:239-293 | the part after the ball filter computes the scanned state |
| BrickBreaker.LostBallValid | src/components/games/BrickBreaker.tsx:224-236 | losing every ball costs a life, and the last life loses the game; the invariant is kept |
| BrickBreaker.ClearedValid | src/components/games/BrickBreaker.tsx:265-269 | winning the level keeps the invariant |
| BrickBreaker.PlayedValid | src/components/games/BrickBreaker.tsx:239-293 | a frame of play keeps the invariant |
| BrickBreaker.FrameKeepsValid | src/components/games/BrickBreaker.tsx:170-293 | a frame keeps the invariant (score in tens, 0 to 3 lives with none exactly when lost, radii, paddle, layout, power-ups in flight) |
| BrickBreaker.StepKeepsValid | src/components/games/BrickBreaker.tsx:170-295 | a frame and its timer check keep the invariant |
| BrickBreaker.Game.constructor | src/components/games/BrickBreaker.tsx:43-58 | score 0, 3 lives, level 1, waiting, the level-1 layout, a new ball and paddle |
| BrickBreaker.Game.InitializeGame | src/components/games/BrickBreaker.tsx:104-111 | the layout of the current level, a new ball and paddle, no power-ups or timers, waiting; score, lives and level kept |
| BrickBreaker.Game.StartNewGame | src/components/games/BrickBreaker.tsx:341-346 | score 0, 3 lives, level 1, but the layout of the level the game was at |
| BrickBreaker.Game.NextLevel | src/components/games/BrickBreaker.tsx:348-350 | the layout of the current level, a new ball and paddle, waiting |
| BrickBreaker.Game.ApplyPowerUp | src/components/games/BrickBreaker.tsx:126-149 | the field becomes the applied field and stays sound |
| BrickBreaker.Game.UpdatePowerUps | src/components/games/BrickBreaker.tsx:151-165 | the field becomes the expired field and stays sound |
| BrickBreaker.Game.HandleKeyDown | src/components/games/BrickBreaker.tsx:299-311 | the key is held; Space launches a waiting ball and toggles the pause |
| BrickBreaker.Game.HandleKeyUp | src/components/games/BrickBreaker.tsx:313-315 | the key is released |
| BrickBreaker.Game.GameLoop | src/components/games/BrickBreaker.tsx:167-297 | nothing unless playing; otherwise the state becomes the stepped frame for the arrows held, and the invariant is kept |

## Left out

- Rendering: the JSX, the canvas drawing of Snake, the runner and Brick Breaker, and the CSS are not modelled. They only show the state.
- Timing: `setInterval`, `requestAnimationFrame` and `setTimeout` are not modelled. Each loop is one method call per tick, and a delayed callback is a method the caller invokes later (`ComputerReply`, `NextRound`).
- Persistence: `localStorage` is not modelled. Saved scores (Tic-Tac-Toe) and the saved high score (Snake) are constructor parameters.
- React wiring is not modelled: effect dependencies, stale closures and re-renders. Two visible consequences follow.
- BrickBreaker.Game.StartNewGame: the `initializeGame` it calls still holds the level of the render that created it. The model lays out that old level and then sets level 1, exactly as the handler does in that render. The re-layout at level 1 that the level-change effect then runs is left out.
- BrickBreaker.Game.NextLevel: in the source, the effect on the level (`BrickBreaker.tsx:337-339`) lays out the new level and waits for the launch as soon as a win raises the level. The model leaves that effect out, so its state stays `Won` until `NextLevel` is called.
- Floating point: Brick Breaker and the runner use JavaScript doubles. The model uses exact reals, so rounding is not captured.
- BrickBreaker.SlowBallRestores: states the factor 0.7 * 1.4286 exactly. It does not model the double rounding of the product.
- Minesweeper.DrawMines: states how many mines are placed and that none lands in the first click's block. It does not state which candidate each random number picks, although the method picks exactly as the source does.
- Minesweeper.Game.RevealCell: `zone`, the cells the flood fill pushed, is a ghost out-parameter that exists only for the contract. The click is not gated on the game state, as in the source, so a lost game can still be revealed and then won.
- Minesweeper: `correctFlags` is counted by the win check, as in the source, but never used, and the model leaves it unused too. The game timer is left out, as it is only displayed.
- Minesweeper: the board starts as `[]` and is filled by the mount effect (`Minesweeper.tsx:21`, `192-194`). The win effect's `board.length === 0` guard fires only on that first render, when `firstClick` also holds, so it changes nothing. The model starts from the filled board.
- Snake: `generateFood` draws a random cell, which may lie on the snake. The model takes the new food cell as a parameter and does not constrain it.
- Snake.SnakeGame.HandleKeyPress: the on-screen pause button sends only `code: 'Space'`, with no `key`, so it cannot pause. The model keeps both fields of the event apart, so this behaviour is reproduced.
- Snake.SnakeGame.HandleKeyPress: each press is checked against the current direction, not the direction of the last move, so two presses before one tick can point the snake straight back into its neck. The contract states the per-press rule only, as the source does; `TwoPressesReverse` exhibits the two-press case.
- RockPaperScissors: `getComputerChoice` is random. The computer's hand is a parameter of `ComputerReply`. The animation delays are elided.
- BrickBreaker: `Math.random` in `resetBall` and `spawnPowerUp` is a parameter. `rnd` is the ball's direction roll, and `drop(i, j)` is the outcome for brick `i` hit by ball `j`.
- BrickBreaker: one clock reading `now` serves a whole frame, for the power-ups caught and for the timer check.
- BrickBreaker.Expired: a timer set to exactly 0 never expires, because the source tests the timer for truth. The model keeps this behaviour.
- BrickBreaker.Game: the `gameLoop` is a value method `Step` on a snapshot of the fields, written back in one assignment. The source mutates the ball and brick objects in place, and the model captures those updates as new values.
- InfiniteRunner.Tick: `Date.now()` is read twice in the source (lines 117 and 124). The model reads it once as `now`, which matters only when the two readings straddle a millisecond.
- InfiniteRunner.Runner.GameLoop: the loop stops scheduling itself once the game is over; here a call on a finished game changes nothing.

## Findings

| source | as written | input that shows it | evidently intended | confidence | as-written member | corrected member |
|---|---|---|---|---|---|---|
| src/components/games/RockPaperScissors.tsx:102-106 | the next round is scheduled only when both scores before the round's point are below 2 | computer mode: the player wins two rounds (2-0), then the computer wins, giving 2-1 with no match winner, no next round, and every hand button ignored | schedule the next round whenever no side has reached 3 after the round | high (not executed) | RockPaperScissors.StalledMatch | RockPaperScissors.IntendedNeverStalls |
| src/components/games/Minesweeper.tsx:95-102 | mine placement and clearing the first-click flag run before the test for a flagged or open cell, which then returns the old board and drops the new one | right-click a cell to flag it, then left-click the same cell first: the first click is used up and the board never receives mines | ignore the click on a flagged or open cell before placing mines, so the first click that opens a cell places the fifteen mines | high (not executed) | Minesweeper.FlaggedFirstClick | Minesweeper.Game.RevealCellIntended |
