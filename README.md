# Simplified card game: round-resolution model

A Dafny model of the rules engine of a two-player comparison card game,
human against computer. The same game exists twice: `Unit5.ts` in
TypeScript and `Unit5.go` in Go. Each draw gives one side a card from a
13-entry table of spade glyphs, valued 1 to 13. The mode decides how the
cards are scored:

- **mode 1**: three mini-rounds; the higher card wins a mini-round; the
  side with more mini-round wins wins the game;
- **mode 2**: three rounds of three draws per side; the higher sum wins a
  round; the side with more round wins wins the game.

Neither mode stops early once the game is decided.

The random generator is an input. A game reads a finite stream of
generator outputs (`seq<Index>`, each element in [0, 13)), one element
per draw. Each mini-round draws the player's card first and the
computer's second. Every outcome is then a deterministic function of the
stream.

Modules:

- `Cards` (`cards.dfy`): the glyph table, the `Index` type of generator
  outputs and `DrawCard`.
- `Rules` (`rules.dfy`): one reference definition of each mode as a
  function of the stream (`MiniTally`, `RoundSum`, `RoundTally`,
  `Mode1Result`, `Mode2Result`). It also holds set-based counts of the
  rounds each side wins, and the seat-swap fairness lemmas.
- `TsGame` (`ts_game.dfy`): the TypeScript functions and top-level blocks.
  `playMiniRound` is a function; `playRound` and the mode-2 block are
  methods with loops; the mode dispatch is a method.
- `GoGame` (`go_game.dfy`): the sections of the Go `main`. These are the
  mode-selection loop, the mode-1 block, the mode-2 block and `main`
  itself, each a method with loops over the variables `main` declares.
- `WorkedGames` (`worked_games.dfy`): games on fixed streams, and the
  "decided but still played" lemmas.

Both versions' loops are proved against the same `Rules` functions. That
shows the two programs compute the same game on the same stream.

Two points where the code is looser than its prompts suggest:

- `promptNumber` (Unit5.ts:37-57) returns -1 when the prompt is
  cancelled, and otherwise any number in [1, 2], fractions included. The
  dispatch at Unit5.ts:146-162 plays mode 2 for every value other than -1
  and 1, so a typed `1.5` plays mode 2. `TsGame.PlayGame` therefore takes
  any integer and sends every value other than -1 and 1 to mode 2.
  Non-integer values are outside the model's `int`.
- The Go selection loop (Unit5.go:61-72) has no cancellation and repeats
  until it reads 1 or 2. `GoGame.SelectMode` reads a finite input and
  returns `None` if no value is accepted.

## Model

| member | source | states |
|---|---|---|
| Cards.DrawCard | Unit5.ts:65-71 | the drawn value is the index plus one and lies in [1, 13]; the symbol is the table entry at `value - 1` |
| Cards.TableShape | Unit5.ts:15-18 | the table has 13 entries and no glyph appears twice |
| Cards.SymbolDeterminesCard | Unit5.ts:15-18 | two draws that show the same glyph are the same card |
| Rules.Compare | Unit5.ts:116-118 | the three-way comparison is 1, -1 or 0 exactly when the first side is ahead, behind or level |
| Rules.Verdict | Unit5.ts:201-204 | the announced result is PlayerWin, ComputerWin or Tie exactly when the player's final score is higher, lower or equal |
| Rules.ValueAt | Unit5.go:91-92 | every drawn value lies in [1, 13] |
| Rules.MiniTally | Unit5.ts:103-109 | the mode-1 counters never go negative and their total never exceeds the mini-rounds played |
| Rules.Mode1Result | Unit5.go:110-116 | the mode-1 outcome is the announcement on the numbers of mini-rounds each side won with a strictly higher card, all three mini-rounds played |
| Rules.MiniRoundsWonExtend | Unit5.ts:106-109 | a mini-round is added to the set of mini-rounds its winner has won, and to no other side's set |
| Rules.MiniRoundsWonStep | Unit5.ts:106-109 | a mini-round raises its winner's count by one and leaves the other count unchanged |
| Rules.MiniTallyCountsWins | Unit5.ts:103-113 | each mode-1 counter equals the number of mini-rounds its side won with a strictly higher card |
| Rules.RoundSum | Unit5.ts:170-186 | after k draws, a side's round sum starts from 0 and lies in [k, 13k] |
| Rules.RoundSumOfThree | Unit5.ts:173-186 | a round's sum is the sum of that side's three draws in the round |
| Rules.RoundTally | Unit5.ts:165-196 | the mode-2 counters never go negative and their total never exceeds the rounds played |
| Rules.RoundTallyStep | Unit5.ts:188-196 | a round gives one point to the higher sum and none on equal sums |
| Rules.Mode2Result | Unit5.go:166-172 | the mode-2 outcome is the announcement on the numbers of rounds each side won with a strictly higher sum, all three rounds played |
| Rules.RoundsWonExtend | Unit5.ts:188-196 | a round is added to the set of rounds its winner has won, and to no other side's set |
| Rules.RoundsWonStep | Unit5.ts:188-196 | a round raises its winner's count of rounds won by one and leaves the other count unchanged |
| Rules.RoundTallyCountsWins | Unit5.ts:165-199 | each mode-2 counter equals the number of rounds its side won with a strictly higher sum |
| Rules.SwapSides | Unit5.ts:83-84 | exchanging the two cards of every mini-round keeps the stream's length |
| Rules.SwapSidesPair | Unit5.ts:83-84 | in the exchanged stream, the player's and the computer's card of each mini-round trade places |
| Rules.SwapSidesTwice | Unit5.ts:83-84 | exchanging seats twice gives back the original stream |
| Rules.MiniTallySwap | Unit5.ts:103-109 | exchanging seats exchanges the two mode-1 counters |
| Rules.RoundSumSwap | Unit5.ts:176-183 | exchanging seats exchanges the two sides' sums in every round |
| Rules.RoundTallySwap | Unit5.ts:188-196 | exchanging seats exchanges the two mode-2 counters |
| Rules.Mode1Fair | Unit5.ts:102-119 | mode 1 favours neither seat: exchanging seats turns a player win into a computer win and keeps a tie |
| Rules.Mode2Fair | Unit5.ts:162-205 | mode 2 favours neither seat: exchanging seats turns a player win into a computer win and keeps a tie |
| TsGame.PlayMiniRound | Unit5.ts:79-99 | `playMiniRound` returns 1 iff the player's card is higher, -1 iff the computer's is, and 0 iff they are equal |
| TsGame.MiniRoundAntisymmetric | Unit5.ts:89-98 | exchanging the two cards negates the mini-round's result |
| TsGame.PlayRound | Unit5.ts:102-119 | `playRound` plays exactly three mini-rounds (six draws) whatever the score; it returns 1, -1 or 0 exactly as the player won more, fewer or as many mini-rounds as the computer |
| TsGame.DrawRoundSums | Unit5.ts:170-186 | one mode-2 round restarts both sums at 0 and makes three draws per side; each sum is that side's round sum and lies in [3, 39] |
| TsGame.PlaySumRounds | Unit5.ts:162-205 | the mode-2 block plays exactly three rounds (eighteen draws); each final counter is the number of rounds its side won; the total is at most 3; the result compares the two counters and equals the reference mode-2 result |
| TsGame.Announce | Unit5.ts:150-154 | the mode-1 announcement is a player win iff `playRound` returned 1, a computer win iff -1, and a tie otherwise |
| TsGame.PlayGame | Unit5.ts:146-205 | -1 plays no game and draws nothing; 1 plays mode 1 on six draws; every other value plays mode 2 on eighteen draws; each outcome is the reference result for the stream |
| GoGame.DrawValue | Unit5.go:91-95 | `rand.Intn(13) + 1` lies in [1, 13], keeps the symbol lookup `value - 1` inside the table, and gives the same card as the TypeScript draw |
| GoGame.Accepted | Unit5.go:67 | the selection loop accepts exactly the values 1 and 2 |
| GoGame.FirstAccepted | Unit5.go:61-72 | the selected mode, when there is one, is 1 or 2 and is the first typed value that is 1 or 2, every earlier value being rejected; there is none iff no typed value is 1 or 2 |
| GoGame.SelectMode | Unit5.go:61-72 | the selection loop stops at the first typed 1 or 2, after rejecting every value before it; without one it reads all the input and selects nothing |
| GoGame.PlayBestOfThree | Unit5.go:78-116 | the mode-1 block plays exactly three mini-rounds (six draws); the result compares the numbers of mini-rounds each side won and equals the reference mode-1 result |
| GoGame.DrawRoundSums | Unit5.go:133-151 | one mode-2 round resets both sums to 0 and adds three drawn values per side; each sum is that side's round sum and lies in [3, 39] |
| GoGame.PlaySumOfCards | Unit5.go:118-173 | the mode-2 block plays exactly three rounds (eighteen draws); the result compares the numbers of rounds each side won and equals the reference mode-2 result |
| GoGame.RunMain | Unit5.go:18-180 | `main` plays no game without an accepted mode; otherwise it plays the mode the first accepted value names, with the reference outcome for the stream |
| WorkedGames.Mode1DecidedAfterTwoWins | Unit5.ts:106-113 | a 2-0 lead after two mini-rounds already decides mode 1 for the player; the mode-1 methods still play the third mini-round, since they always consume six draws |
| WorkedGames.Mode2DecidedAfterTwoRounds | Unit5.ts:168-199 | winning the first two rounds already decides mode 2 for the player; the mode-2 methods still play the third round, since they always consume eighteen draws |
| WorkedGames.Mode1ExampleTie | Unit5.ts:102-119 | player 5, 5, 5 against computer 3, 7, 5 gives one mini-round each and a tie |
| WorkedGames.Mode1ExampleSweep | Unit5.ts:102-119 | three Kings against three Aces gives 3-0 and a player win |
| WorkedGames.Mode2ExampleTie | Unit5.ts:162-205 | round sums 20, 10, 18 against 15, 15, 18 give one round each and a tie |

## Left out

- Console I/O is left out: `prompt`, `pause`, `console.log`, `fmt.*` and the `bufio` reads. These only pace the game and render it; the model computes the outcome that is announced.
- `promptNumber` is not modelled: its `Number()` parsing, NaN handling, range check and re-prompting are input handling, not game rules. `TsGame.PlayGame` receives the number it returned, with -1 for a cancelled prompt.
- `strconv.Atoi` and `strings.TrimSpace` are not modelled. Each typed line reaches `GoGame.SelectMode` as the integer `Atoi` produced: 0 when the line is not a number, and the nearest `int` bound when it is out of range. Neither is 1 or 2.
- GoGame.SelectMode: over a finite input with no 1 or 2 it returns `None`. The program itself would keep prompting forever.
- The random generator is an input, so its uniformity, `rand.Seed` and the clock are not modelled. Each stream element is assumed to be a generator output in [0, 13).
- TsGame.PlayRound, TsGame.PlaySumRounds, TsGame.PlayGame, GoGame.PlayBestOfThree, GoGame.PlaySumOfCards, GoGame.RunMain: each requires a long enough stream (6 or 18 draws). The real generator never runs out.
- TsGame.DrawRoundSums, GoGame.DrawRoundSums: in the source, one round's draws are the inner loop of the mode-2 block. The model makes them a method that the block's outer loop calls once per round, with the same statements in the same order.
- The glyphs are only looked up, so the model does not reason about their Unicode contents. In the source files the glyph literals (Unit5.ts:16-17, Unit5.go:43-44) appear double-encoded as text. `Cards.CARD_SYMBOLS` records the code points they stand for, U+1F0A1 to U+1F0AB, U+1F0AD and U+1F0AE, which are the Ace to King of spades that the comment at Unit5.ts:14 names.
