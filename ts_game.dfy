/** The TypeScript version of the game (Unit5.ts): a pure mini-round, the
    imperative mode-1 round, the imperative mode-2 block and the mode dispatch.

    Each method reads the generator's outputs from `stream`, one element per
    `drawCard()` call in order (`drawn` counts the calls made so far), and
    returns the part of the stream it did not consume.
    Prompts, pauses and console output are not modelled.
 */
module TsGame {
  import opened Cards
  import opened Rules

  /** `playMiniRound`: draws the player's card, then the computer's, and
      returns 1, -1 or 0 as the player's card is higher, lower or equal. */
  function PlayMiniRound(playerIndex: Index, computerIndex: Index): (r: int)
    ensures r == 1 <==> DrawCard(playerIndex).value > DrawCard(computerIndex).value
    ensures r == -1 <==> DrawCard(computerIndex).value > DrawCard(playerIndex).value
    ensures r == 0 <==> DrawCard(playerIndex).value == DrawCard(computerIndex).value
  {
    var playerCard := DrawCard(playerIndex);
    var computerCard := DrawCard(computerIndex);
    if playerCard.value > computerCard.value then 1
    else if computerCard.value > playerCard.value then -1
    else 0
  }

  /** Exchanging the two cards negates the mini-round's result. */
  lemma MiniRoundAntisymmetric(playerIndex: Index, computerIndex: Index)
    ensures PlayMiniRound(computerIndex, playerIndex) == -PlayMiniRound(playerIndex, computerIndex)
  {
  }

  /** `playRound`: exactly three mini-rounds, whatever the running score;
      a win bumps the winner's counter and a tie bumps neither. Returns 1,
      -1 or 0 as the player won more, fewer or as many mini-rounds as the
      computer, and consumes exactly six draws. */
  method PlayRound(stream: seq<Index>) returns (winner: int, rest: seq<Index>)
    requires 6 <= |stream|
    ensures rest == stream[6..]
    ensures winner == 1 <==> |MiniRoundsWon(stream, 3, 0)| > |MiniRoundsWon(stream, 3, 1)|
    ensures winner == -1 <==> |MiniRoundsWon(stream, 3, 1)| > |MiniRoundsWon(stream, 3, 0)|
    ensures winner == 0 <==> |MiniRoundsWon(stream, 3, 0)| == |MiniRoundsWon(stream, 3, 1)|
    ensures winner == Compare(MiniTally(stream, 3).player, MiniTally(stream, 3).computer)
  {
    var playerWins := 0;
    var computerWins := 0;
    var drawn := 0;
    var mini := 1;
    while mini <= 3
      invariant 1 <= mini <= 4
      invariant drawn == 2 * (mini - 1)
      invariant playerWins == MiniTally(stream, mini - 1).player
      invariant computerWins == MiniTally(stream, mini - 1).computer
      invariant 0 <= playerWins && 0 <= computerWins && playerWins + computerWins <= mini - 1
    {
      var result := PlayMiniRound(stream[drawn], stream[drawn + 1]);
      drawn := drawn + 2;
      if result == 1 {
        playerWins := playerWins + 1;
      } else if result == -1 {
        computerWins := computerWins + 1;
      }
      mini := mini + 1;
    }
    rest := stream[drawn..];
    MiniTallyCountsWins(stream, 3);
    if playerWins > computerWins {
      winner := 1;
    } else if computerWins > playerWins {
      winner := -1;
    } else {
      winner := 0;
    }
  }

  /** One round of the mode-2 block, from the reset of the two sums to the
      end of its three mini-rounds: each mini-round draws the player's card
      and then the computer's, and adds each value to its side's sum. Round
      r (from 0) takes draws 6r to 6r + 5, so each sum lies in [3, 39]. */
  method DrawRoundSums(stream: seq<Index>, r: nat) returns (playerSum: int, computerSum: int)
    requires 6 * (r + 1) <= |stream|
    ensures playerSum == RoundSum(stream, r, 0, DRAWS_PER_ROUND)
    ensures computerSum == RoundSum(stream, r, 1, DRAWS_PER_ROUND)
    ensures 3 <= playerSum <= 39 && 3 <= computerSum <= 39
  {
    playerSum := 0;
    computerSum := 0;
    var drawn := 6 * r;
    var mini := 1;
    while mini <= 3
      invariant 1 <= mini <= 4
      invariant drawn == 6 * r + 2 * (mini - 1)
      invariant playerSum == RoundSum(stream, r, 0, mini - 1)
      invariant computerSum == RoundSum(stream, r, 1, mini - 1)
    {
      var playerCard := DrawCard(stream[drawn]);
      var computerCard := DrawCard(stream[drawn + 1]);
      drawn := drawn + 2;
      playerSum := playerSum + playerCard.value;
      computerSum := computerSum + computerCard.value;
      mini := mini + 1;
    }
  }

  /** The mode-2 block: three rounds; each round resets both sums, adds
      three draws per side to them, and gives a point to the higher sum
      (none on a tie). Returns the final round counters and the outcome
      announced from them, and consumes exactly eighteen draws. */
  method PlaySumRounds(stream: seq<Index>)
    returns (playerRounds: int, computerRounds: int, result: GameResult, rest: seq<Index>)
    requires 18 <= |stream|
    ensures rest == stream[18..]
    ensures playerRounds == |RoundsWon(stream, 3, 0)| && computerRounds == |RoundsWon(stream, 3, 1)|
    ensures 0 <= playerRounds && 0 <= computerRounds && playerRounds + computerRounds <= 3
    ensures result == PlayerWin <==> playerRounds > computerRounds
    ensures result == ComputerWin <==> computerRounds > playerRounds
    ensures result == Tie <==> playerRounds == computerRounds
    ensures result == Mode2Result(stream)
  {
    playerRounds := 0;
    computerRounds := 0;
    var drawn := 0;
    var round := 1;
    while round <= 3
      invariant 1 <= round <= 4
      invariant drawn == 6 * (round - 1)
      invariant playerRounds == RoundTally(stream, round - 1).player
      invariant computerRounds == RoundTally(stream, round - 1).computer
      invariant 0 <= playerRounds && 0 <= computerRounds && playerRounds + computerRounds <= round - 1
    {
      var playerSum, computerSum := DrawRoundSums(stream, round - 1);
      drawn := drawn + 6;
      RoundTallyStep(stream, round - 1);
      if playerSum > computerSum {
        playerRounds := playerRounds + 1;
      } else if computerSum > playerSum {
        computerRounds := computerRounds + 1;
      }
      round := round + 1;
    }
    rest := stream[drawn..];
    RoundTallyCountsWins(stream, 3);
    if playerRounds > computerRounds {
      result := PlayerWin;
    } else if computerRounds > playerRounds {
      result := ComputerWin;
    } else {
      result := Tie;
    }
  }

  /** The announcement of mode 1, from the value `playRound` returned. */
  function Announce(winner: int): (g: GameResult)
    ensures g == PlayerWin <==> winner == 1
    ensures g == ComputerWin <==> winner == -1
    ensures g == Tie <==> winner != 1 && winner != -1
  {
    if winner == 1 then PlayerWin else if winner == -1 then ComputerWin else Tie
  }

  /** The mode dispatch: -1 (input cancelled) plays no game, 1 plays mode 1,
      and every other value takes the final `else` and plays mode 2. The
      outcome is the one the shared rules give for the stream. */
  method PlayGame(gameMode: int, stream: seq<Index>) returns (outcome: Option<GameResult>, rest: seq<Index>)
    requires gameMode == 1 ==> 6 <= |stream|
    requires gameMode != -1 && gameMode != 1 ==> 18 <= |stream|
    ensures gameMode == -1 ==> outcome == None && rest == stream
    ensures gameMode == 1 ==> outcome == Some(Mode1Result(stream)) && rest == stream[6..]
    ensures gameMode != -1 && gameMode != 1 ==> outcome == Some(Mode2Result(stream)) && rest == stream[18..]
  {
    if gameMode == -1 {
      outcome, rest := None, stream;
    } else if gameMode == 1 {
      var winner;
      winner, rest := PlayRound(stream);
      outcome := Some(Announce(winner));
    } else {
      var playerRounds, computerRounds, result;
      playerRounds, computerRounds, result, rest := PlaySumRounds(stream);
      outcome := Some(result);
    }
  }
}
