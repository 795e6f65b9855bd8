# Mini-games: game logic in Dafny

This project models the game logic of a small collection of browser
mini-games written as React components and proves properties of it:

- **Memory** (`MemoryGame`): a board of shuffled emoji pairs, a click rule
  that turns up at most two cards at a time, delayed resolution of a pair
  (matched or turned back down), the end-of-game test, the final score and
  the `m:ss` clock.
- **Tic-tac-toe** (`TicTacToe`): the winner search over the eight lines,
  the move rule, the move history with truncate-and-append, reviewing an
  earlier position and returning from review.
- **Number guessing** (`NumberGuess`): a difficulty table, a secret drawn
  from the range, range validation, attempt counting, higher/lower hints
  and the end of the game.
- **Word scramble** (`WordScramble`, the home page banner): a Fisher-Yates
  shuffle retried until the word changes, a 30-second countdown, a point
  per correct answer and time penalties for wrong answers and hints.
- **Rock-paper-scissors** (`RockPaperScissors`): the outcome rule, the
  computer's random choice and the score counters.
- **Dice roller** (`DiceRoller`): ten animation ticks, the final throw, the
  total and a history of the ten newest throws; the dot layout of a D6 face.

Two shared modules hold what the games have in common. `Common` holds
`Option`, repetition-freedom and `Max`. `Randomness` models `Math.random()`:

- A call to `Math.random()` becomes a real draw `r` with `0 <= r < 1`,
  supplied by the caller.
- `Math.floor(r * n)` becomes `RandomIndex(r, n)`. It is proved to be an
  index below `n`.
- The `sort(() => 0.5 - Math.random())` shuffle becomes a caller-supplied
  permutation of positions. `Permute` is proved to keep the multiset of
  elements.

Each component's state becomes a class whose fields the operations update
in place. Its timers become explicit step methods:

- `MemoryGame.Game.Resolve` and `MemoryGame.Game.Tick`
- `TicTacToe` runs the winner effect at the end of `HandleClick` and `ReturnToGame`, the operations that change the board outside review (after `ResetGame` the effect would find no winner and a board that is not full, so it changes nothing)
- `RockPaperScissors.Game.Reveal`
- `DiceRoller.Roller.RollTick`
- `WordScramble.Banner.TimerEffect`

Some behaviours of the code are modelled as written:

- **Tic-tac-toe, "Return to Game".** The button shows the last stored
  history entry. That is the position *before* the latest move. It also
  leaves the turn as the last review set it (`ReturnToGameScenario`).
- **Rock-paper-scissors scoring.** `determineWinner` both computes the
  outcome and increments a score. It is called twice per round, once for
  the result and once for the notification, so a decisive round adds 2 to
  the winner's score. Both scores therefore stay even, an invariant
  `RockPaperScissors.Game` keeps.
- **Memory match test.** The match is decided when the second card is
  clicked, but `Resolve` compares the two emojis when it runs. The two are
  the same, because no operation changes a card's emoji.

## Model

| member | source | states |
|---|---|---|
| Common.DistinctOccursOnce | src/pages/MemoryGame.tsx:55-60 | an element of a repetition-free sequence occurs once in it, so every chosen emoji is on exactly two cards |
| Randomness.RandomIndex | src/pages/RockPaperScissors.tsx:22 | `Math.floor(r * n)` for a draw `r` in [0, 1) is an index below `n` and is the floor of `r * n` |
| Randomness.Permute | src/pages/MemoryGame.tsx:55-61 | the rearranged sequence has the original length, and a repetition-free sequence stays repetition-free |
| Randomness.PermuteKeepsMultiset | src/pages/MemoryGame.tsx:55-61 | reordering by a permutation of positions keeps every element with its multiplicity (the random-comparator sort loses and duplicates nothing) |
| Randomness.PermuteDropLast | src/pages/MemoryGame.tsx:55-61 | the induction step of the permutation proof: a reordering is the reordering of the rest followed by the element sent to the last position |
| Randomness.DropLastIsPermutation | src/pages/MemoryGame.tsx:55-61 | removing the last position of a permutation and renumbering leaves a permutation of one fewer positions |
| MemoryGame.EmojiPoolDistinct | src/pages/MemoryGame.tsx:29-33 | the pool holds 24 different emojis |
| MemoryGame.ShuffledPrefix | src/pages/MemoryGame.tsx:55-57 | a prefix of a shuffled repetition-free pool repeats nothing and takes only pool emojis |
| MemoryGame.SelectEmojis | src/pages/MemoryGame.tsx:40-57 | the round uses 6, 10 or 12 different emojis from the pool, by difficulty |
| MemoryGame.Deal | src/pages/MemoryGame.tsx:60-67 | the card at position `i` shows the emoji the shuffle sends to `i` from the chosen emojis listed twice, so every chosen emoji is on two cards; cards are numbered by position, all face down and unmatched |
| MemoryGame.BuildDeck | src/pages/MemoryGame.tsx:36-67 | the board has 2 * pairs cards; each chosen emoji is on exactly two cards and no other emoji is on any |
| MemoryGame.FacesIgnoreFlags | src/pages/MemoryGame.tsx:101-103 | flipping or matching a card never changes which emojis the board shows |
| MemoryGame.Game.InitializeGame | src/pages/MemoryGame.tsx:36-83 | installs that board, clears pending cards, moves, timer and game over, starts the clock and the round; the game invariant holds |
| MemoryGame.Game.HandleCardClick | src/pages/MemoryGame.tsx:86-112 | a click on a face-up or matched card, with two cards pending or after the game is over, changes nothing; otherwise that card alone turns up, is appended to the pending cards, and the second pending card counts a move |
| MemoryGame.Game.EveryMatched | src/pages/MemoryGame.tsx:124 | true exactly when every card is matched |
| MemoryGame.Game.Resolve | src/pages/MemoryGame.tsx:114-144 | equal emojis become matched and stay up, different emojis turn back down, nothing is left pending, and the game ends exactly when all cards are matched; the invariant (face-up unmatched cards are exactly the pending ones, each emoji twice) is kept |
| MemoryGame.Game.EndGame | src/pages/MemoryGame.tsx:149-154 | the game is over and the clock stops; nothing else changes |
| MemoryGame.Game.Tick | src/pages/MemoryGame.tsx:77-79 | the clock advances by one second exactly while it runs |
| MemoryGame.Game.HandleDifficultyChange | src/pages/MemoryGame.tsx:187-189 | only the difficulty changes |
| MemoryGame.Game.ResetGame | src/pages/MemoryGame.tsx:192-203 | no board, nothing pending, moves and timer zero, not started, clock stopped, difficulty kept |
| MemoryGame.Round | src/pages/MemoryGame.tsx:176 | `Math.round` gives the integer within half of its argument, halves rounding up |
| MemoryGame.Score | src/pages/MemoryGame.tsx:167-177 | the score lies between 0 and 1000 |
| MemoryGame.ScoreExample | src/pages/MemoryGame.tsx:167-177 | 45 seconds and 14 moves on the 12-card easy board score 125 (375 off for time, the full 500 off for moves) |
| MemoryGame.ScoreHalfWay | src/pages/MemoryGame.tsx:167-177 | Hard with 12 seconds and 23 moves scores 488: the exact value 487.5 rounds up (the page's double arithmetic differs here, see Left out) |
| MemoryGame.Game.CalculateScore | src/pages/MemoryGame.tsx:317-321 | the score shown at game over is the scoring rule with the board's card count, which is twice the difficulty's pairs, and lies between 0 and 1000 |
| MemoryGame.ScoreFallsWithTime | src/pages/MemoryGame.tsx:173 | taking longer never raises the score |
| MemoryGame.ScoreFallsWithMoves | src/pages/MemoryGame.tsx:174 | more moves never raise the score |
| MemoryGame.NatToString | src/pages/MemoryGame.tsx:183 | the decimal numeral of a number is all digits without a leading zero (only 0 itself starts with `0`), one digit below 10 and two below 100 |
| MemoryGame.ParseNatToString | src/pages/MemoryGame.tsx:183 | reading the printed numeral back gives the number |
| MemoryGame.FormatTime | src/pages/MemoryGame.tsx:180-184 | the text is minutes without a leading zero, a colon and exactly two digits of seconds, and these read back as `seconds / 60` and `seconds % 60` |
| MemoryGame.FormatTimeExamples | src/pages/MemoryGame.tsx:180-184 | 65 seconds show as `1:05` and 600 as `10:00` |
| TicTacToe.WinnerFromIsFirstWinningLine | src/pages/TicTacToe.tsx:113-120 | the search from line `k` finds nothing exactly when no later line wins, and otherwise returns the mark of the first winning line |
| TicTacToe.WinnerOfIsFirstWinningLine | src/pages/TicTacToe.tsx:101-121 | there is a winner exactly when some line holds three equal marks, and it is the mark of the first such line in search order |
| TicTacToe.CalculateWinner | src/pages/TicTacToe.tsx:101-121 | the scan returns the result of the winner search, and any mark it returns fills a whole line |
| TicTacToe.EmptyBoardIsFair | src/pages/TicTacToe.tsx:10-11 | the empty board is the position after no moves, with X to move |
| TicTacToe.PlaceKeepsFair | src/pages/TicTacToe.tsx:63-66 | placing the mover's mark on an empty square keeps X at most one ahead of O and moving when level |
| TicTacToe.CutAndStoreKeepsFair | src/pages/TicTacToe.tsx:69-70 | cutting the history back to the current move and storing the position keeps entry `k` the position after `k` moves |
| TicTacToe.GetStatus | src/pages/TicTacToe.tsx:124-132 | the status names the winner exactly when there is one, a draw exactly when there is none and the board is full, and otherwise the next player, X exactly when X is next |
| TicTacToe.StatusNamesPlayerBehind | src/pages/TicTacToe.tsx:124-132 | without a winner or a full board, the status names the player with fewer marks (X when level) |
| TicTacToe.NoWinnerBeforeThreeMarks | src/pages/TicTacToe.tsx:101-121 | a board on which neither player has three marks has no winner (so no game is won before the fifth move) |
| TicTacToe.Game.UpdateWinner | src/pages/TicTacToe.tsx:22-29 | the winner is replaced by the winner search exactly when a line wins or the board is full |
| TicTacToe.Game.HandleClick | src/pages/TicTacToe.tsx:60-76 | refused while reviewing, after a win or on an occupied square; otherwise places the mover's mark, passes the turn, stores the previous position at index `moveNumber` of the cut history, and keeps the game a sequence of alternating moves |
| TicTacToe.Game.ResetGame | src/pages/TicTacToe.tsx:79-86 | empty board, X to move, no winner, no history, not reviewing |
| TicTacToe.Game.JumpTo | src/pages/TicTacToe.tsx:89-98 | reviews the stored position (the empty board for move 0) with X to move exactly on even moves, keeping the history and the winner |
| TicTacToe.Game.ReturnToGame | src/pages/TicTacToe.tsx:191-195 | leaves review showing the last stored history entry with `moveNumber` equal to the history length, the turn unchanged, then runs the winner effect |
| TicTacToe.ReturnToGameScenario | src/pages/TicTacToe.tsx:191-195 | after X at 0, O at 4, a review of the start and a return, the board lacks O's mark and X is to move although X leads by one |
| NumberGuess.SetupFor | src/pages/NumberGuess.tsx:29-41 | every difficulty gives a range starting at 1 and at least one attempt |
| NumberGuess.GenerateRandomNumber | src/pages/NumberGuess.tsx:24-26 | the secret lies in the range, both ends included |
| NumberGuess.Game.StartGame | src/pages/NumberGuess.tsx:29-52 | range and attempts of the difficulty, a secret in range, no attempts used, the input cleared, the intro message, the game running |
| NumberGuess.Game.HandleGuess | src/pages/NumberGuess.tsx:55-94 | a missing or out-of-range guess only sets the range message; any other uses one attempt and clears the input, then a hit wins, a miss on the last attempt ends the game revealing the secret, and other misses hint higher or lower with the attempts left |
| NumberGuess.Game.HandleInputChange | src/pages/NumberGuess.tsx:97-99 | only the guess changes |
| NumberGuess.Game.HandleKeyPress | src/pages/NumberGuess.tsx:102-106 | Enter in a running game has exactly the effect of submitting the guess (range message, or one attempt used with a win, a loss revealing the secret, or a higher/lower hint), keeping range, secret and difficulty; any other key, or Enter when no game is running, changes nothing |
| NumberGuess.Game.HandleDifficultyChange | src/pages/NumberGuess.tsx:108-110 | only the difficulty changes |
| WordScramble.SwapIndex | src/components/InteractiveBanner.tsx:20 | the swap partner of position `i` is never past `i` |
| WordScramble.Swap | src/components/InteractiveBanner.tsx:21 | the two positions exchange their letters and every other position keeps its letter |
| WordScramble.SwapKeepsLetters | src/components/InteractiveBanner.tsx:21 | a swap keeps the letters of the word |
| WordScramble.ShuffleDownKeepsLetters | src/components/InteractiveBanner.tsx:18-24 | the shuffle keeps the length and the letters of the word |
| WordScramble.Shuffle | src/components/InteractiveBanner.tsx:18-22 | the in-place loop leaves the array holding the Fisher-Yates shuffle of its old contents |
| WordScramble.RetryScramblable | src/components/InteractiveBanner.tsx:25 | after a shuffle that gives the word back, a changing retry is still among the remaining draws |
| WordScramble.RetryFirstChange | src/components/InteractiveBanner.tsx:25 | the first changing retry of the remaining draws is the first changing retry of all |
| WordScramble.ScrambleWord | src/components/InteractiveBanner.tsx:17-26 | the result differs from the word, has the same letters, and is the shuffle of the first retry that changes the word |
| WordScramble.UniformWordNeverChanges | src/components/InteractiveBanner.tsx:25 | a word of one repeated letter is never changed by a shuffle, so for it the retry never ends |
| WordScramble.DrawPicks | src/components/InteractiveBanner.tsx:20 | every swap partner at or below `i` is reached by some draw |
| WordScramble.IdentitySwaps | src/components/InteractiveBanner.tsx:19-22 | steps whose draws swap a position with itself leave the word as it is |
| WordScramble.SwapOnly | src/components/InteractiveBanner.tsx:19-22 | there are draws that swap two chosen positions and fix all others |
| WordScramble.ScrambleExists | src/components/InteractiveBanner.tsx:17-26 | a word with two different letters has draws whose shuffle changes it, so the retry can end |
| WordScramble.ListedWordsScramble | src/components/InteractiveBanner.tsx:9-15 | every listed word can be scrambled |
| WordScramble.UpperChar | src/components/InteractiveBanner.tsx:79 | upper-casing maps `a`-`z` to `A`-`Z` and leaves other characters alone |
| WordScramble.ToUpper | src/components/InteractiveBanner.tsx:79 | the upper-cased text has the same length, letter by letter |
| WordScramble.ToUpperIdempotent | src/components/InteractiveBanner.tsx:85 | upper-casing the stored (already upper-cased) guess again changes nothing |
| WordScramble.PickedWordIsListed | src/components/InteractiveBanner.tsx:68 | the word a draw picks is one of the five listed words |
| WordScramble.EveryWordCanBePicked | src/components/InteractiveBanner.tsx:68 | every listed word is picked by some draw |
| WordScramble.Banner.SelectRandomWord | src/components/InteractiveBanner.tsx:67-76 | a listed word chosen by the draw, with its hint and a scramble different from it, the guess cleared and the hint hidden |
| WordScramble.Banner.StartGame | src/components/InteractiveBanner.tsx:49-56 | a new word with its own hint, playing, score 0, 30 seconds, hint hidden, guess cleared |
| WordScramble.Banner.EndGame | src/components/InteractiveBanner.tsx:58-59 | play stops |
| WordScramble.Banner.TimerEffect | src/components/InteractiveBanner.tsx:37-47 | while playing, a second passes if time is left and the game ends at zero; otherwise nothing changes; the countdown never exceeds 30 seconds and the word on show stays a listed word with a different scramble of its letters |
| WordScramble.Banner.HandleInputChange | src/components/InteractiveBanner.tsx:78-80 | the stored guess is the typed text upper-cased |
| WordScramble.Banner.CheckAnswer | src/components/InteractiveBanner.tsx:82-102 | no word: nothing changes; a correct guess scores a point and brings a new word with its hint; a wrong one costs three seconds, never below zero |
| WordScramble.Banner.DisplayHint | src/components/InteractiveBanner.tsx:104-107 | the hint shows and two seconds are taken off, never below zero |
| RockPaperScissors.DetermineWinner | src/pages/RockPaperScissors.tsx:26-39 | a tie exactly on equal choices; the player wins exactly when their choice is one step after the computer's on the rock-paper-scissors cycle, and the computer wins exactly in the reverse case |
| RockPaperScissors.DetermineWinnerAntisymmetric | src/pages/RockPaperScissors.tsx:26-39 | exchanging the two choices exchanges the winner |
| RockPaperScissors.GetComputerChoice | src/pages/RockPaperScissors.tsx:19-24 | the draw picks rock below 1/3, scissors from 2/3, paper in between |
| RockPaperScissors.Game.Tally | src/pages/RockPaperScissors.tsx:33-37 | one call of the outcome rule adds one to the winner's score and nothing on a tie |
| RockPaperScissors.Game.HandlePlayerChoice | src/pages/RockPaperScissors.tsx:41-48 | ignored while animating; otherwise shows the player's choice, clears the computer's choice and the result and starts animating; scores unchanged |
| RockPaperScissors.Game.Reveal | src/pages/RockPaperScissors.tsx:50-61 | the computer's choice from the draw, the outcome as result, animation stopped, and two points to the winner of a decisive round, so both scores stay even |
| RockPaperScissors.Game.ResetGame | src/pages/RockPaperScissors.tsx:64-68 | both choices and the result cleared; scores and animation kept |
| DiceRoller.Throw | src/pages/DiceRoller.tsx:30 | one value per die, each between 1 and the number of sides |
| DiceRoller.Sum | src/pages/DiceRoller.tsx:32 | the `reduce` total of no values is 0, and no value exceeds the total |
| DiceRoller.SumBounds | src/pages/DiceRoller.tsx:32 | a throw of `n` dice of `s` sides totals between `n` and `n * s` |
| DiceRoller.Record | src/pages/DiceRoller.tsx:45-53 | the new throw goes first, followed by at most nine earlier ones in order |
| DiceRoller.HistoryStaysBounded | src/pages/DiceRoller.tsx:45-53 | however many throws are recorded, the history holds at most ten, the newest first |
| DiceRoller.D6Face | src/pages/DiceRoller.tsx:78-99 | a D6 face of value 1 to 6 shows that many different dots, the centre dot exactly on odd values, and a pattern unchanged by half a turn; other values show none |
| DiceRoller.Roller.HandleNumberOfDiceChange | src/pages/DiceRoller.tsx:59-61 | only the number of dice changes |
| DiceRoller.Roller.HandleDieTypeChange | src/pages/DiceRoller.tsx:64-66 | only the die type changes |
| DiceRoller.Roller.RollDice | src/pages/DiceRoller.tsx:21-29 | ignored while rolling; otherwise starts rolling with the tick count at zero, capturing the number of dice and the die type |
| DiceRoller.Roller.RollTick | src/pages/DiceRoller.tsx:29-55 | each tick shows a throw of the captured dice; the tenth makes the final throw, stops rolling and records it first in the history; the total is the sum and lies between the number of dice and dice times sides |
| DiceRoller.Roller.ClearHistory | src/pages/DiceRoller.tsx:69-71 | the history is empty |

## Left out

- Rendering, styling, animations and toast notifications are not modelled. Neither are the texts of messages: `NumberGuess` keeps their content as a datatype.
- Timer durations (100 ms, 500 ms, 1 s) are not modelled; each timer callback is an explicit step method. Interleavings of callbacks with stale closures and React's batching of state updates are not modelled either: each operation runs to completion on the current state.
- The distribution of `Math.random()` is not modelled: draws and shuffle permutations are parameters supplied by the caller. The random-comparator sort is modelled by the permutation it produces, and no claim is made about its bias.
- Tic-tac-toe's score counters and the effect that increments them (`src/pages/TicTacToe.tsx:32-57`) are not modelled. The effect runs once per change of its dependencies, and React decides when that happens.
- Memory's `endGame` builds a toast from possibly stale `timer` and `moves` values and discards the score it computes. The model ends the game and stops the clock; `Score` is the scoring rule on its own.
- `MemoryGame.Score`: the rule is computed in exact rational arithmetic, while the page computes it in IEEE double precision. On inputs where the exact value is a half, rounding error can put the double just below it, and the page then rounds one point lower. For example, Hard with 12 seconds and 23 moves is exactly 487.5, which the model rounds to 488; the page computes 487.49999999999994 and shows 487. The bound of 0..1000 and the monotonicity lemmas are proved about the exact rule.
- `MemoryGame.Game.CalculateScore`: inherits `MemoryGame.Score`'s exact arithmetic, so on the same half-way inputs it is one point above the page's score.
- `MemoryGame.Game.Resolve`: compares emojis when it runs rather than when the second card is clicked. This is the same, because no operation changes a card's emoji.
- Emojis are modelled as single characters. Every emoji of the pool is a single code point.
- `NumberGuess.Game.HandleInputChange`: takes the value `Number(text)` yields (`None` for `NaN`) rather than the text; parsing numerals is not modelled.
- `WordScramble.ScrambleWord`: the retries are bounded by the draws the caller supplies, which must include a changing one. The source's recursion never ends on a word of one repeated letter (`UniformWordNeverChanges`); none of the listed words is one (`ListedWordsScramble`).
- `WordScramble.UpperChar` and `WordScramble.ToUpper`: upper-case ASCII letters only, one character for one; full Unicode case mapping, which can change a string's length (`ß` becomes `SS`), is not modelled.
- `TicTacToe.Game.Status` and `TicTacToe.GetStatus` return the status as a datatype rather than text; `Game.Status` applies `GetStatus` to the game's fields.
- `MemoryGame.Game.HandleDifficultyChange` is callable only before a round starts, because the selector is shown only then.
- The page chrome (`App.tsx`, `Index.tsx`, the header, footer, game cards and background animation) is not part of this model.
