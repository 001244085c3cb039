/** The Go version of the game (Unit5.go). Its `main` does everything with
    variables declared up front; here each of its sections is one method: the
    mode-selection loop, the mode-1 block, the mode-2 block, and `main` itself,
    which runs the selection and then the chosen block.

    Each line the player types reaches the model as the integer
    `strconv.Atoi` made of it (0 when it is not a number). Each
    `rand.Intn(len(cardSymbols))` is one element of `stream`.
 */
module GoGame {
  import opened Cards
  import opened Rules

  /** The value `rand.Intn(len(cardSymbols)) + 1` given the generator's output
      n: the same value the TypeScript `drawCard` gives, and its symbol
      lookup `cardSymbols[value - 1]` stays inside the table. */
  function DrawValue(n: Index): (v: int)
    ensures 1 <= v <= 13
    ensures 0 <= v - 1 < |CARD_SYMBOLS|
    ensures v == DrawCard(n).value && CARD_SYMBOLS[v - 1] == DrawCard(n).symbol
  {
    n + 1
  }

  /** The acceptance test of the mode-selection loop. */
  predicate Accepted(gameMode: int)
  {
    gameMode == 1 || gameMode == 2
  }

  /** The first typed value the selection loop accepts, if there is one. */
  function FirstAccepted(inputs: seq<int>): (m: Option<int>)
    ensures m.Some? ==> Accepted(m.value) && m.value in inputs
    ensures m.Some? ==>
      exists i :: 0 <= i < |inputs| && inputs[i] == m.value && forall k :: 0 <= k < i ==> !Accepted(inputs[k])
    ensures m.None? <==> forall k :: 0 <= k < |inputs| ==> !Accepted(inputs[k])
  {
    if |inputs| == 0 then None
    else if Accepted(inputs[0]) then Some(inputs[0])
    else FirstAccepted(inputs[1..])
  }

  /** The mode-selection loop: reads values until one is 1 or 2. With a
      finite input it either stops at the first accepted value, having read
      everything before it, or reads all of the input and finds none (the
      program itself would go on prompting). */
  method SelectMode(inputs: seq<int>) returns (gameMode: Option<int>, read: nat)
    ensures read <= |inputs|
    ensures gameMode == FirstAccepted(inputs)
    ensures gameMode.Some? ==> 1 <= read && inputs[read - 1] == gameMode.value
    ensures forall k :: 0 <= k < read - 1 ==> !Accepted(inputs[k])
    ensures gameMode.None? ==> read == |inputs|
  {
    read := 0;
    while read < |inputs|
      invariant read <= |inputs|
      invariant forall k :: 0 <= k < read ==> !Accepted(inputs[k])
      invariant FirstAccepted(inputs) == FirstAccepted(inputs[read..])
    {
      var value := inputs[read];
      assert inputs[read..][1..] == inputs[read + 1..];
      read := read + 1;
      if value == 1 || value == 2 {
        return Some(value), read;
      }
    }
    gameMode := None;
  }

  /** The mode-1 block: three mini-rounds, a point to the higher card and
      none on a tie, then the announcement from the two counters. Consumes
      exactly six generator outputs. */
  method PlayBestOfThree(stream: seq<Index>) returns (result: GameResult, rest: seq<Index>)
    requires 6 <= |stream|
    ensures rest == stream[6..]
    ensures result == PlayerWin <==> |MiniRoundsWon(stream, 3, 0)| > |MiniRoundsWon(stream, 3, 1)|
    ensures result == ComputerWin <==> |MiniRoundsWon(stream, 3, 1)| > |MiniRoundsWon(stream, 3, 0)|
    ensures result == Tie <==> |MiniRoundsWon(stream, 3, 0)| == |MiniRoundsWon(stream, 3, 1)|
    ensures result == Mode1Result(stream)
  {
    var playerValue: int;
    var computerValue: int;
    var playerWins := 0;
    var computerWins := 0;
    var drawn := 0;
    var mini := 1;
    while mini <= 3
      invariant 1 <= mini <= 4
      invariant drawn == 2 * (mini - 1)
      invariant playerWins == MiniTally(stream, mini - 1).player
      invariant computerWins == MiniTally(stream, mini - 1).computer
      invariant 0 <= playerWins && 0 <= computerWins && playerWins + computerWins <= mini - 1
    {
      playerValue := DrawValue(stream[drawn]);
      computerValue := DrawValue(stream[drawn + 1]);
      drawn := drawn + 2;
      if playerValue > computerValue {
        playerWins := playerWins + 1;
      } else if computerValue > playerValue {
        computerWins := computerWins + 1;
      }
      mini := mini + 1;
    }
    rest := stream[drawn..];
    MiniTallyCountsWins(stream, 3);
    if playerWins > computerWins {
      result := PlayerWin;
    } else if computerWins > playerWins {
      result := ComputerWin;
    } else {
      result := Tie;
    }
  }

  /** One round of the mode-2 block, from `playerSum = 0` and
      `computerSum = 0` to the end of its three mini-rounds: each adds one
      drawn value per side to that side's sum. Round r (from 0) takes draws
      6r to 6r + 5, so each sum lies in [3, 39]. */
  method DrawRoundSums(stream: seq<Index>, r: nat) returns (playerSum: int, computerSum: int)
    requires 6 * (r + 1) <= |stream|
    ensures playerSum == RoundSum(stream, r, 0, DRAWS_PER_ROUND)
    ensures computerSum == RoundSum(stream, r, 1, DRAWS_PER_ROUND)
    ensures 3 <= playerSum <= 39 && 3 <= computerSum <= 39
  {
    var playerValue: int;
    var computerValue: int;
    playerSum := 0;
    computerSum := 0;
    var drawn := 6 * r;
    var mini := 1;
    while mini <= 3
      invariant 1 <= mini <= 4
      invariant drawn == 6 * r + 2 * (mini - 1)
      invariant playerSum == RoundSum(stream, r, 0, mini - 1)
      invariant computerSum == RoundSum(stream, r, 1, mini - 1)
    {
      playerValue := DrawValue(stream[drawn]);
      computerValue := DrawValue(stream[drawn + 1]);
      drawn := drawn + 2;
      playerSum := playerSum + playerValue;
      computerSum := computerSum + computerValue;
      mini := mini + 1;
    }
  }

  /** The mode-2 block: three rounds; each resets both sums to 0, adds three
      drawn values per side, and gives a point to the higher sum (none on a
      tie); then the announcement from the two round counters. Consumes
      exactly eighteen generator outputs. */
  method PlaySumOfCards(stream: seq<Index>) returns (result: GameResult, rest: seq<Index>)
    requires 18 <= |stream|
    ensures rest == stream[18..]
    ensures result == PlayerWin <==> |RoundsWon(stream, 3, 0)| > |RoundsWon(stream, 3, 1)|
    ensures result == ComputerWin <==> |RoundsWon(stream, 3, 1)| > |RoundsWon(stream, 3, 0)|
    ensures result == Tie <==> |RoundsWon(stream, 3, 0)| == |RoundsWon(stream, 3, 1)|
    ensures result == Mode2Result(stream)
  {
    var playerSum: int;
    var computerSum: int;
    var playerRounds := 0;
    var computerRounds := 0;
    var drawn := 0;
    var round := 1;
    while round <= 3
      invariant 1 <= round <= 4
      invariant drawn == 6 * (round - 1)
      invariant playerRounds == RoundTally(stream, round - 1).player
      invariant computerRounds == RoundTally(stream, round - 1).computer
      invariant 0 <= playerRounds && 0 <= computerRounds && playerRounds + computerRounds <= round - 1
    {
      playerSum, computerSum := DrawRoundSums(stream, round - 1);
      drawn := drawn + 6;
      RoundTallyStep(stream, round - 1);
      if playerSum > computerSum {
        playerRounds := playerRounds + 1;
      } else if computerSum > playerSum {
        computerRounds := computerRounds + 1;
      }
      round := round + 1;
    }
    rest := stream[drawn..];
    RoundTallyCountsWins(stream, 3);
    if playerRounds > computerRounds {
      result := PlayerWin;
    } else if computerRounds > playerRounds {
      result := ComputerWin;
    } else {
      result := Tie;
    }
  }

  /** `main`: selects the mode from the typed values, then plays it. The game
      played is decided by the first accepted value alone, and its outcome is
      the one the shared rules give for the stream. */
  method RunMain(inputs: seq<int>, stream: seq<Index>) returns (outcome: Option<GameResult>)
    requires 18 <= |stream|
    ensures FirstAccepted(inputs) == None ==> outcome == None
    ensures FirstAccepted(inputs) == Some(1) ==> outcome == Some(Mode1Result(stream))
    ensures FirstAccepted(inputs) == Some(2) ==> outcome == Some(Mode2Result(stream))
  {
    var gameMode, read := SelectMode(inputs);
    if gameMode.None? {
      return None;
    }
    var result, rest;
    if gameMode.value == 1 {
      result, rest := PlayBestOfThree(stream);
    } else {
      result, rest := PlaySumOfCards(stream);
    }
    outcome := Some(result);
  }
}
