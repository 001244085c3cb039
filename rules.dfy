/** The rules of the game, shared by both versions: the three-way comparison,
    and both game modes written as functions of the stream of generator
    indices. The TypeScript and Go models prove their loops against these.

    Layout of the stream: every mini-round draws the player's card first and
    the computer's second. In mode 1, mini-round m (from 0) uses draws 2m and
    2m + 1. In mode 2, mini-round m of round r (both from 0) uses draws
    6r + 2m and 6r + 2m + 1.
 */
module Rules {
  import opened Cards

  datatype Option<T> = None | Some(value: T)

  /** Points of each side: mini-rounds won in mode 1, rounds won in mode 2. */
  datatype Tally = Tally(player: int, computer: int)

  /** The outcome of a whole game. */
  datatype GameResult = PlayerWin | ComputerWin | Tie

  /** The three-way comparison the game uses to settle a mini-round and a
      round: 1 when the first side is ahead, -1 when the second is, 0 on a tie. */
  function Compare(a: int, b: int): (r: int)
    ensures r == 1 <==> a > b
    ensures r == -1 <==> b > a
    ensures r == 0 <==> a == b
  {
    if a > b then 1 else if b > a then -1 else 0
  }

  /** The final announcement, from the two sides' final scores. */
  function Verdict(playerScore: int, computerScore: int): (g: GameResult)
    ensures g == PlayerWin <==> playerScore > computerScore
    ensures g == ComputerWin <==> computerScore > playerScore
    ensures g == Tie <==> playerScore == computerScore
  {
    if playerScore > computerScore then PlayerWin
    else if computerScore > playerScore then ComputerWin
    else Tie
  }

  /** The same game seen from the other chair. */
  function Mirror(g: GameResult): GameResult
  {
    match g
    case PlayerWin => ComputerWin
    case ComputerWin => PlayerWin
    case Tie => Tie
  }

  /** Value of the card drawn at position k of the stream: the generator's
      index plus one (the value `DrawCard` gives that index). */
  function ValueAt(s: seq<Index>, k: nat): (v: int)
    requires k < |s|
    ensures 1 <= v <= CARD_COUNT
  {
    s[k] as int + 1
  }

  // ---------------------------------------------------------------------
  // Mode 1: one round of exactly three mini-rounds

  /** Mini-round wins of each side (player, computer) after the first n
      mini-rounds: a win adds one to the winner's count, a tie adds nothing. */
  function MiniTally(s: seq<Index>, n: nat): (t: Tally)
    requires 2 * n <= |s|
    ensures 0 <= t.player && 0 <= t.computer && t.player + t.computer <= n
  {
    if n == 0 then Tally(0, 0)
    else
      var t, p, c := MiniTally(s, n - 1), ValueAt(s, 2 * (n - 1)), ValueAt(s, 2 * (n - 1) + 1);
      if p > c then Tally(t.player + 1, t.computer) else if c > p then Tally(t.player, t.computer + 1) else t
  }

  /** Outcome of a mode-1 game: all three mini-rounds are played, and the
      side that won more of them wins the game. */
  function Mode1Result(s: seq<Index>): (g: GameResult)
    requires 6 <= |s|
    ensures g == Verdict(|MiniRoundsWon(s, 3, 0)|, |MiniRoundsWon(s, 3, 1)|)
  {
    MiniTallyCountsWins(s, 3);
    Verdict(MiniTally(s, 3).player, MiniTally(s, 3).computer)
  }

  /** The mini-rounds, among the first n, that `side` wins (0 is the player,
      1 the computer): its card is strictly higher than the other side's. */
  function MiniRoundsWon(s: seq<Index>, n: nat, side: nat): set<nat>
    requires 2 * n <= |s| && side < 2
  {
    set m: nat | m < n && ValueAt(s, 2 * m + side) > ValueAt(s, 2 * m + 1 - side)
  }

  /** Mini-round m joins the set of the side that wins it and no other. */
  lemma MiniRoundsWonExtend(s: seq<Index>, m: nat, side: nat)
    requires 2 * (m + 1) <= |s| && side < 2
    ensures MiniRoundsWon(s, m + 1, side) ==
      MiniRoundsWon(s, m, side) + (if ValueAt(s, 2 * m + side) > ValueAt(s, 2 * m + 1 - side) then {m} else {})
  {
    var before, after := MiniRoundsWon(s, m, side), MiniRoundsWon(s, m + 1, side);
    forall k | k in after
      ensures k in before + (if ValueAt(s, 2 * m + side) > ValueAt(s, 2 * m + 1 - side) then {m} else {})
    {
      if k < m { assert k in before; }
    }
  }

  /** Mini-round m adds one to the count of the side that wins it and
      nothing to the other count. */
  lemma MiniRoundsWonStep(s: seq<Index>, m: nat, side: nat)
    requires 2 * (m + 1) <= |s| && side < 2
    ensures |MiniRoundsWon(s, m + 1, side)| ==
      |MiniRoundsWon(s, m, side)| + (if ValueAt(s, 2 * m + side) > ValueAt(s, 2 * m + 1 - side) then 1 else 0)
  {
    MiniRoundsWonExtend(s, m, side);
    assert m !in MiniRoundsWon(s, m, side);
  }

  /** Each counter of mode 1 is exactly the number of mini-rounds its side won. */
  lemma {:induction false} MiniTallyCountsWins(s: seq<Index>, n: nat)
    requires 2 * n <= |s|
    ensures MiniTally(s, n) == Tally(|MiniRoundsWon(s, n, 0)|, |MiniRoundsWon(s, n, 1)|)
  {
    if n > 0 {
      MiniTallyCountsWins(s, n - 1);
      MiniRoundsWonStep(s, n - 1, 0);
      MiniRoundsWonStep(s, n - 1, 1);
    }
  }

  // ---------------------------------------------------------------------
  // Mode 2: three rounds of three draws per side, decided by the sums

  /** Each side draws three cards in every round of mode 2. */
  const DRAWS_PER_ROUND: nat := 3

  /** Sum of the values of `side`'s first k draws in round r. */
  function RoundSum(s: seq<Index>, r: nat, side: nat, k: nat): (sum: int)
    requires side < 2 && k <= DRAWS_PER_ROUND && 6 * r + 2 * k <= |s|
    ensures k <= sum <= 13 * k
  {
    if k == 0 then 0 else RoundSum(s, r, side, k - 1) + ValueAt(s, 6 * r + 2 * (k - 1) + side)
  }

  /** Rounds won by each side (player, computer) after the first n rounds:
      the higher sum takes the round, equal sums give no point. */
  function RoundTally(s: seq<Index>, n: nat): (t: Tally)
    requires 6 * n <= |s|
    ensures 0 <= t.player && 0 <= t.computer && t.player + t.computer <= n
  {
    if n == 0 then Tally(0, 0)
    else
      var t, p, c := RoundTally(s, n - 1), RoundSum(s, n - 1, 0, DRAWS_PER_ROUND), RoundSum(s, n - 1, 1, DRAWS_PER_ROUND);
      if p > c then Tally(t.player + 1, t.computer) else if c > p then Tally(t.player, t.computer + 1) else t
  }

  /** One more round: the higher sum gains a point, a tie changes nothing. */
  lemma RoundTallyStep(s: seq<Index>, m: nat)
    requires 6 * (m + 1) <= |s|
    ensures RoundTally(s, m + 1).player == RoundTally(s, m).player + if RoundSum(s, m, 0, DRAWS_PER_ROUND) > RoundSum(s, m, 1, DRAWS_PER_ROUND) then 1 else 0
    ensures RoundTally(s, m + 1).computer == RoundTally(s, m).computer + if RoundSum(s, m, 1, DRAWS_PER_ROUND) > RoundSum(s, m, 0, DRAWS_PER_ROUND) then 1 else 0
  {
  }

  /** Outcome of a mode-2 game: all three rounds are played, and the side
      that won more of them wins the game. */
  function Mode2Result(s: seq<Index>): (g: GameResult)
    requires 18 <= |s|
    ensures g == Verdict(|RoundsWon(s, 3, 0)|, |RoundsWon(s, 3, 1)|)
  {
    RoundTallyCountsWins(s, 3);
    Verdict(RoundTally(s, 3).player, RoundTally(s, 3).computer)
  }

  /** The rounds, among the first n, that `side` wins with a strictly higher sum. */
  function RoundsWon(s: seq<Index>, n: nat, side: nat): set<nat>
    requires 6 * n <= |s| && side < 2
  {
    set r: nat | r < n && RoundSum(s, r, side, DRAWS_PER_ROUND) > RoundSum(s, r, 1 - side, DRAWS_PER_ROUND)
  }

  /** Round m joins the set of the side that wins it and no other. */
  lemma RoundsWonExtend(s: seq<Index>, m: nat, side: nat)
    requires 6 * (m + 1) <= |s| && side < 2
    ensures RoundsWon(s, m + 1, side) == RoundsWon(s, m, side) +
      (if RoundSum(s, m, side, DRAWS_PER_ROUND) > RoundSum(s, m, 1 - side, DRAWS_PER_ROUND) then {m} else {})
  {
    var before, after := RoundsWon(s, m, side), RoundsWon(s, m + 1, side);
    forall r | r in after
      ensures r in before +
        (if RoundSum(s, m, side, DRAWS_PER_ROUND) > RoundSum(s, m, 1 - side, DRAWS_PER_ROUND) then {m} else {})
    {
      if r < m { assert r in before; }
    }
  }

  /** Round m adds one to the count of the side that wins it and nothing to
      the other count. */
  lemma RoundsWonStep(s: seq<Index>, m: nat, side: nat)
    requires 6 * (m + 1) <= |s| && side < 2
    ensures |RoundsWon(s, m + 1, side)| ==
      |RoundsWon(s, m, side)| + (if RoundSum(s, m, side, DRAWS_PER_ROUND) > RoundSum(s, m, 1 - side, DRAWS_PER_ROUND) then 1 else 0)
  {
    RoundsWonExtend(s, m, side);
    assert m !in RoundsWon(s, m, side);
  }

  /** Each counter of mode 2 is exactly the number of rounds its side won. */
  lemma {:induction false} RoundTallyCountsWins(s: seq<Index>, n: nat)
    requires 6 * n <= |s|
    ensures RoundTally(s, n) == Tally(|RoundsWon(s, n, 0)|, |RoundsWon(s, n, 1)|)
  {
    if n > 0 {
      RoundTallyCountsWins(s, n - 1);
      RoundsWonStep(s, n - 1, 0);
      RoundsWonStep(s, n - 1, 1);
    }
  }

  // ---------------------------------------------------------------------
  // Neither side is favoured

  /** The stream with the two cards of every mini-round exchanged, as if the
      player and the computer had swapped seats. */
  function SwapSides(s: seq<Index>): (t: seq<Index>)
    ensures |t| == |s|
  {
    if |s| < 2 then s else [s[1], s[0]] + SwapSides(s[2..])
  }

  /** In the swapped stream the two cards of a mini-round trade places. */
  lemma {:induction false} SwapSidesPair(s: seq<Index>, m: nat)
    requires 2 * m + 1 < |s|
    ensures ValueAt(SwapSides(s), 2 * m) == ValueAt(s, 2 * m + 1)
    ensures ValueAt(SwapSides(s), 2 * m + 1) == ValueAt(s, 2 * m)
  {
    if m > 0 {
      SwapSidesPair(s[2..], m - 1);
    }
  }

  /** Swapping seats twice restores the stream. */
  lemma {:induction false} SwapSidesTwice(s: seq<Index>)
    ensures SwapSides(SwapSides(s)) == s
  {
    if |s| >= 2 {
      SwapSidesTwice(s[2..]);
      var t := SwapSides(s);
      assert t[2..] == SwapSides(s[2..]);
      assert s == [s[0], s[1]] + s[2..];
    }
  }

  /** Swapping seats swaps the two mode-1 counters. */
  lemma {:induction false} MiniTallySwap(s: seq<Index>, n: nat)
    requires 2 * n <= |s|
    ensures MiniTally(SwapSides(s), n).player == MiniTally(s, n).computer
    ensures MiniTally(SwapSides(s), n).computer == MiniTally(s, n).player
  {
    if n > 0 {
      MiniTallySwap(s, n - 1);
      SwapSidesPair(s, n - 1);
    }
  }

  /** Swapping seats swaps the two sides' sums in every round. */
  lemma {:induction false} RoundSumSwap(s: seq<Index>, r: nat, side: nat, k: nat)
    requires side < 2 && k <= DRAWS_PER_ROUND && 6 * r + 2 * k <= |s|
    ensures RoundSum(SwapSides(s), r, side, k) == RoundSum(s, r, 1 - side, k)
  {
    if k > 0 {
      RoundSumSwap(s, r, side, k - 1);
      SwapSidesPair(s, 3 * r + k - 1);
    }
  }

  /** Swapping seats swaps the two mode-2 counters. */
  lemma {:induction false} RoundTallySwap(s: seq<Index>, n: nat)
    requires 6 * n <= |s|
    ensures RoundTally(SwapSides(s), n).player == RoundTally(s, n).computer
    ensures RoundTally(SwapSides(s), n).computer == RoundTally(s, n).player
  {
    if n > 0 {
      RoundTallySwap(s, n - 1);
      RoundSumSwap(s, n - 1, 0, DRAWS_PER_ROUND);
      RoundSumSwap(s, n - 1, 1, DRAWS_PER_ROUND);
    }
  }

  /** Mode 1 is fair: swapping seats mirrors the outcome. */
  lemma Mode1Fair(s: seq<Index>)
    requires 6 <= |s|
    ensures Mode1Result(SwapSides(s)) == Mirror(Mode1Result(s))
  {
    MiniTallySwap(s, 3);
  }

  /** Mode 2 is fair: swapping seats mirrors the outcome. */
  lemma Mode2Fair(s: seq<Index>)
    requires 18 <= |s|
    ensures Mode2Result(SwapSides(s)) == Mirror(Mode2Result(s))
  {
    RoundTallySwap(s, 3);
  }

  /** A round's sum is the sum of that side's three draws of the round. */
  lemma RoundSumOfThree(s: seq<Index>, r: nat, side: nat)
    requires side < 2 && 6 * (r + 1) <= |s|
    ensures RoundSum(s, r, side, DRAWS_PER_ROUND) ==
      ValueAt(s, 6 * r + side) + ValueAt(s, 6 * r + 2 + side) + ValueAt(s, 6 * r + 4 + side)
  {
    assert RoundSum(s, r, side, 1) == ValueAt(s, 6 * r + side);
    assert RoundSum(s, r, side, 2) == RoundSum(s, r, side, 1) + ValueAt(s, 6 * r + 2 + side);
  }
}
