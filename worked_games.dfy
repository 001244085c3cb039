/** Games on fixed streams, and the rule that a decided game still plays
    its last mini-round (mode 1) or round (mode 2). */
module WorkedGames {
  import opened Cards
  import opened Rules

  /** After a 2-0 lead the game is decided, yet mode 1 still plays (and
      draws for) the third mini-round. */
  lemma Mode1DecidedAfterTwoWins(s: seq<Index>)
    requires 6 <= |s|
    requires ValueAt(s, 0) > ValueAt(s, 1) && ValueAt(s, 2) > ValueAt(s, 3)
    ensures MiniTally(s, 2) == Tally(2, 0)
    ensures Mode1Result(s) == PlayerWin
  {
    assert MiniTally(s, 1) == Tally(1, 0);
  }

  /** After winning the first two rounds the game is decided, yet mode 2
      still plays (and draws for) the third round. */
  lemma Mode2DecidedAfterTwoRounds(s: seq<Index>)
    requires 18 <= |s|
    requires RoundSum(s, 0, 0, DRAWS_PER_ROUND) > RoundSum(s, 0, 1, DRAWS_PER_ROUND)
    requires RoundSum(s, 1, 0, DRAWS_PER_ROUND) > RoundSum(s, 1, 1, DRAWS_PER_ROUND)
    ensures RoundTally(s, 2) == Tally(2, 0)
    ensures Mode2Result(s) == PlayerWin
  {
    RoundTallyStep(s, 0);
    RoundTallyStep(s, 1);
    RoundTallyStep(s, 2);
  }

  /** Player 5, 5, 5 against computer 3, 7, 5: one win each and a tie. */
  lemma Mode1ExampleTie()
    ensures MiniTally([4, 2, 4, 6, 4, 4], 3) == Tally(1, 1)
    ensures Mode1Result([4, 2, 4, 6, 4, 4]) == Tie
  {
  }

  /** Player draws three Kings, computer three Aces: a 3-0 sweep. */
  lemma Mode1ExampleSweep()
    ensures MiniTally([12, 0, 12, 0, 12, 0], 3) == Tally(3, 0)
    ensures Mode1Result([12, 0, 12, 0, 12, 0]) == PlayerWin
  {
  }

  /** Round sums 20, 10, 18 for the player (cards 7, 7, 6 | 3, 3, 4 | 6, 6, 6)
      against 15, 15, 18 (cards 5, 5, 5 | 5, 5, 5 | 6, 6, 6): one round each
      and a tie, so the game is a tie. */
  lemma Mode2ExampleTie(s: seq<Index>)
    requires s == [6, 4, 6, 4, 5, 4, 2, 4, 2, 4, 3, 4, 5, 5, 5, 5, 5, 5]
    ensures RoundSum(s, 0, 0, DRAWS_PER_ROUND) == 20 && RoundSum(s, 0, 1, DRAWS_PER_ROUND) == 15
    ensures RoundSum(s, 1, 0, DRAWS_PER_ROUND) == 10 && RoundSum(s, 1, 1, DRAWS_PER_ROUND) == 15
    ensures RoundSum(s, 2, 0, DRAWS_PER_ROUND) == 18 && RoundSum(s, 2, 1, DRAWS_PER_ROUND) == 18
    ensures RoundTally(s, 3) == Tally(1, 1)
    ensures Mode2Result(s) == Tie
  {
    assert s[0] == 6 && s[2] == 6 && s[4] == 5 && s[6] == 2 && s[8] == 2 && s[10] == 3;
    assert s[1] == 4 && s[3] == 4 && s[5] == 4 && s[7] == 4 && s[9] == 4 && s[11] == 4;
    assert s[12] == 5 && s[13] == 5 && s[14] == 5 && s[15] == 5 && s[16] == 5 && s[17] == 5;
    RoundSumOfThree(s, 0, 0);
    RoundSumOfThree(s, 0, 1);
    RoundSumOfThree(s, 1, 0);
    RoundSumOfThree(s, 1, 1);
    RoundSumOfThree(s, 2, 0);
    RoundSumOfThree(s, 2, 1);
    RoundTallyStep(s, 0);
    RoundTallyStep(s, 1);
    RoundTallyStep(s, 2);
  }
}
