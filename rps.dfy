/** Rock-Paper-Scissors: the winner relation and the round and score state
    machine of a first-to-3 match, against the computer or a second player. */
module RockPaperScissors {

  datatype Hand = Rock | Paper | Scissors

  /** The round result, from the first player's side. */
  datatype Outcome = PlayerWins | OpponentWins | Tie

  datatype Side = Player | Opponent

  datatype Mode = Computer | Pvp

  datatype State = Choosing | Revealing | Finished

  datatype Option<T> = None | Some(value: T)

  /** Points needed to win the match. */
  const WinningScore: nat := 3

  /** Position of a hand on the cycle rock, paper, scissors. */
  function Rank(h: Hand): int {
    match h
    case Rock => 0
    case Paper => 1
    case Scissors => 2
  }

  /** An independent reference for "a beats b": each hand beats the one just
      before it on the cycle. */
  predicate Beats(a: Hand, b: Hand) {
    (Rank(a) - Rank(b)) % 3 == 1
  }

  /** `determineWinner`. */
  function DetermineWinner(p1: Hand, p2: Hand): (r: Outcome)
    ensures r == Tie <==> p1 == p2
    ensures r == PlayerWins <==> Beats(p1, p2)
    ensures r == OpponentWins <==> Beats(p2, p1)
  {
    if p1 == p2 then Tie
    else if (p1 == Rock && p2 == Scissors) || (p1 == Paper && p2 == Rock) || (p1 == Scissors && p2 == Paper)
    then PlayerWins
    else OpponentWins
  }

  function Swap(o: Outcome): Outcome {
    match o
    case PlayerWins => OpponentWins
    case OpponentWins => PlayerWins
    case Tie => Tie
  }

  /** Swapping the arguments swaps player and opponent. */
  lemma DetermineWinnerSwap(a: Hand, b: Hand)
    ensures DetermineWinner(b, a) == Swap(DetermineWinner(a, b))
  {
  }

  /** For two different hands exactly one of them wins. */
  lemma BeatsIsTotalAndAsymmetric(a: Hand, b: Hand)
    ensures a != b ==> (Beats(a, b) <==> !Beats(b, a))
    ensures !Beats(a, a)
  {
  }

  /** The scheduling decision at the end of `revealResults`, exactly as written:
      it reads the two scores as they were before this round's point. */
  function NextRoundScheduledAsWritten(playerBefore: nat, opponentBefore: nat): (r: bool)
    ensures r <==> playerBefore + 1 < WinningScore && opponentBefore + 1 < WinningScore
    ensures r <==> forall o :: ScoreAfter(playerBefore, o, Player) < WinningScore &&
                              ScoreAfter(opponentBefore, o, Opponent) < WinningScore
  {
    assert ScoreAfter(playerBefore, PlayerWins, Player) == playerBefore + 1;
    assert ScoreAfter(opponentBefore, OpponentWins, Opponent) == opponentBefore + 1;
    playerBefore < 2 && opponentBefore < 2
  }

  /** The score after a round, for the side that is given. */
  function ScoreAfter(before: nat, o: Outcome, side: Side): (r: nat)
    ensures r == before || r == before + 1
    ensures r == before + 1 <==> (o == PlayerWins && side == Player) || (o == OpponentWins && side == Opponent)
  {
    if (o == PlayerWins && side == Player) || (o == OpponentWins && side == Opponent) then before + 1 else before
  }

  /** A round decided by `determineWinner` gives its one point to the side
      whose hand beats the other's, and none on a tie. */
  lemma RoundAwardsOnePoint(p: nat, q: nat, h1: Hand, h2: Hand)
    ensures var o := DetermineWinner(h1, h2);
            && ScoreAfter(p, o, Player) + ScoreAfter(q, o, Opponent) == p + q + (if h1 == h2 then 0 else 1)
            && (ScoreAfter(p, o, Player) == p + 1 <==> Beats(h1, h2))
            && (ScoreAfter(q, o, Opponent) == q + 1 <==> Beats(h2, h1))
  {
  }

  /** With the decision as written, a round that leaves both sides short of
      three points can still leave no next round: from 2-0 the opponent takes
      the round, the match is at 2-1, and nothing is scheduled. */
  lemma StuckAfterOpponentPoint()
    ensures var p, q := ScoreAfter(2, OpponentWins, Player), ScoreAfter(0, OpponentWins, Opponent);
            p < WinningScore && q < WinningScore && !NextRoundScheduledAsWritten(2, 0)
  {
  }

  /** The evidently intended decision: schedule the next round exactly when no
      side has reached three points after this round. */
  function NextRoundScheduledIntended(playerAfter: nat, opponentAfter: nat): (r: bool)
    ensures r <==> playerAfter != WinningScore && opponentAfter != WinningScore
  {
    playerAfter != WinningScore && opponentAfter != WinningScore
  }

  /** With the intended decision every round of a match that stays below three
      points on both sides is followed by another, and a round that ends the
      match is not. */
  lemma IntendedNeverStalls(pb: nat, ob: nat, o: Outcome)
    requires pb < WinningScore && ob < WinningScore
    ensures var p, q := ScoreAfter(pb, o, Player), ScoreAfter(ob, o, Opponent);
            NextRoundScheduledIntended(p, q) <==> p < WinningScore && q < WinningScore
  {
  }

  class Match {
    var mode: Mode
    var playerChoice: Option<Hand>
    var opponentChoice: Option<Hand>
    var playerScore: nat
    var opponentScore: nat
    var round: nat
    var state: State
    var winner: Option<Outcome>
    var gameWinner: Option<Side>
    var isAnimating: bool
    var waitingForPlayer2: bool

    /** The initial state of the component, which `resetGame` restores except for the mode. */
    ghost predicate Fresh()
      reads this
    {
      playerChoice == None && opponentChoice == None && playerScore == 0 && opponentScore == 0 &&
      round == 1 && state == Choosing && winner == None && gameWinner == None &&
      !isAnimating && !waitingForPlayer2
    }

    constructor ()
      ensures Fresh() && mode == Computer
    {
      mode := Computer;
      playerChoice, opponentChoice := None, None;
      playerScore, opponentScore := 0, 0;
      round := 1;
      state := Choosing;
      winner, gameWinner := None, None;
      isAnimating, waitingForPlayer2 := false, false;
    }

    /** The two mode buttons, rendered only while choosing at 0-0. */
    method SetMode(m: Mode)
      modifies this`mode
      ensures mode == if old(state == Choosing && playerScore == 0 && opponentScore == 0) then m else old(mode)
    {
      if state == Choosing && playerScore == 0 && opponentScore == 0 {
        mode := m;
      }
    }

    /** `handlePlayerChoice`: the computer's reply arrives later through `ComputerReply`. */
    method HandlePlayerChoice(choice: Hand)
      modifies this
      ensures old(state != Choosing || isAnimating) ==> unchanged(this)
      ensures old(state == Choosing && !isAnimating) ==>
                && playerChoice == Some(choice) && isAnimating
                && waitingForPlayer2 == (old(mode) == Pvp || old(waitingForPlayer2))
                && mode == old(mode) && opponentChoice == old(opponentChoice)
                && playerScore == old(playerScore) && opponentScore == old(opponentScore)
                && round == old(round) && state == old(state) && winner == old(winner)
                && gameWinner == old(gameWinner)
    {
      if state != Choosing || isAnimating {
        return;
      }
      playerChoice := Some(choice);
      isAnimating := true;
      if mode == Pvp {
        waitingForPlayer2 := true;
      }
    }

    /** The delayed computer reply of `handlePlayerChoice` in computer mode: it
        records the computer's hand and reveals the round for the hand `choice`
        captured when the player clicked. */
    method ComputerReply(choice: Hand, computerChoice: Hand) returns (nextScheduled: bool)
      modifies this
      ensures opponentChoice == Some(computerChoice)
      ensures RoundScored(choice, computerChoice, old(playerScore), old(opponentScore), old(gameWinner))
      ensures nextScheduled == NextRoundScheduledAsWritten(old(playerScore), old(opponentScore))
      ensures mode == old(mode) && playerChoice == old(playerChoice) && round == old(round)
      ensures isAnimating == old(isAnimating) && waitingForPlayer2 == old(waitingForPlayer2)
    {
      opponentChoice := Some(computerChoice);
      nextScheduled := RevealResults(choice, computerChoice);
    }

    /** `handlePlayer2Choice`: no-op unless the first player has chosen and the
        second is awaited. */
    method HandlePlayer2Choice(choice: Hand) returns (nextScheduled: bool)
      modifies this
      ensures old(!waitingForPlayer2 || playerChoice == None) ==> unchanged(this) && !nextScheduled
      ensures old(waitingForPlayer2 && playerChoice != None) ==>
                && opponentChoice == Some(choice) && !waitingForPlayer2
                && RoundScored(old(playerChoice).value, choice, old(playerScore), old(opponentScore), old(gameWinner))
                && nextScheduled == NextRoundScheduledAsWritten(old(playerScore), old(opponentScore))
                && mode == old(mode) && playerChoice == old(playerChoice) && round == old(round)
                && isAnimating == old(isAnimating)
    {
      nextScheduled := false;
      if !waitingForPlayer2 || playerChoice == None {
        return;
      }
      opponentChoice := Some(choice);
      waitingForPlayer2 := false;
      nextScheduled := RevealResults(playerChoice.value, choice);
    }

    /** The state `revealResults(p1, p2)` leaves once its delayed body has run,
        from the scores and match winner it started with. */
    ghost predicate RoundScored(p1: Hand, p2: Hand, pb: nat, ob: nat, gw: Option<Side>)
      reads this
    {
      var o := DetermineWinner(p1, p2);
      && winner == Some(o)
      && playerScore == ScoreAfter(pb, o, Player)
      && opponentScore == ScoreAfter(ob, o, Opponent)
      && (if playerScore == WinningScore && o == PlayerWins then gameWinner == Some(Player) && state == Finished
          else if opponentScore == WinningScore && o == OpponentWins then gameWinner == Some(Opponent) && state == Finished
          else gameWinner == gw && state == Revealing)
    }

    /** `revealResults`, with its one-second delay elided: the round winner gets
        a point, reaching three ends the match, and the result says whether the
        next round is scheduled. */
    method RevealResults(p1: Hand, p2: Hand) returns (nextScheduled: bool)
      modifies this`state, this`winner, this`playerScore, this`opponentScore, this`gameWinner
      ensures RoundScored(p1, p2, old(playerScore), old(opponentScore), old(gameWinner))
      ensures nextScheduled == NextRoundScheduledAsWritten(old(playerScore), old(opponentScore))
    {
      state := Revealing;
      var pb, ob := playerScore, opponentScore;
      var roundWinner := DetermineWinner(p1, p2);
      winner := Some(roundWinner);
      if roundWinner == PlayerWins {
        playerScore := playerScore + 1;
        if playerScore == WinningScore {
          gameWinner := Some(Player);
          state := Finished;
        }
      } else if roundWinner == OpponentWins {
        opponentScore := opponentScore + 1;
        if opponentScore == WinningScore {
          gameWinner := Some(Opponent);
          state := Finished;
        }
      }
      nextScheduled := pb < 2 && ob < 2;
    }

    /** `nextRound`. */
    method NextRound()
      modifies this
      ensures round == old(round) + 1 && state == Choosing
      ensures playerChoice == None && opponentChoice == None && winner == None
      ensures !isAnimating && !waitingForPlayer2
      ensures mode == old(mode) && playerScore == old(playerScore) && opponentScore == old(opponentScore)
      ensures gameWinner == old(gameWinner)
    {
      playerChoice := None;
      opponentChoice := None;
      winner := None;
      round := round + 1;
      state := Choosing;
      isAnimating := false;
      waitingForPlayer2 := false;
    }

    /** `resetGame`: everything but the mode back to the initial state. */
    method ResetGame()
      modifies this
      ensures Fresh() && mode == old(mode)
    {
      playerChoice := None;
      opponentChoice := None;
      playerScore := 0;
      opponentScore := 0;
      round := 1;
      state := Choosing;
      winner := None;
      gameWinner := None;
      isAnimating := false;
      waitingForPlayer2 := false;
    }
  }

  /** The stall, driven through the class: in computer mode the player takes
      the first two rounds, then the computer takes the third. The match stands
      at 2-1, still revealing, with no match winner and no next round scheduled,
      and a further click on a hand is ignored. */
  method StalledMatch() returns (m: Match, nextScheduled: bool)
    ensures m.playerScore == 2 && m.opponentScore == 1
    ensures m.state == Revealing && m.gameWinner == None && m.isAnimating
    ensures !nextScheduled
  {
    m := new Match();
    m.HandlePlayerChoice(Rock);
    var next := m.ComputerReply(Rock, Scissors);
    assert next;
    m.NextRound();
    m.HandlePlayerChoice(Paper);
    next := m.ComputerReply(Paper, Rock);
    assert next;
    m.NextRound();
    m.HandlePlayerChoice(Rock);
    nextScheduled := m.ComputerReply(Rock, Paper);
    m.HandlePlayerChoice(Scissors);
  }
}
