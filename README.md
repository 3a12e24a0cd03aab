# Number game engine, modelled in Dafny

This project models the game engine of `NumberGame.tsx`, a React component in which players try to find a
secret three-digit number:

- The secret is three distinct digits from 1 to 9. The computer draws it, or in manual mode the other players
  type it in.
- The player has five guesses (fewer or more under some power-up cards). Each guess is answered with how many
  of its digits occur in the secret, wherever they stand.
- Finding all three digits pays 50, 40, 30, 20 or 10 points, depending on how many guesses came before. The
  player then has two attempts to put the digits in the right order, for a bonus.
- A guess that is the secret itself, in order, is a "lottery win": the player's score becomes 100 and the game
  ends.
- Running out of guesses pays a small consolation, depending on the best count reached.
- Power-up cards (and, in party mode, drinking cards) change the round.
- The turn passes round the table until someone reaches 100 points.

The project has seven modules:

- `Common`: an optional value, and one draw of `Math.random()` scaled to an index.
- `Secret`: `generateSecretNumber` (three draws without replacement from the digits 1..9).
- `Evaluate`: reading the input cells, validating a secret or a guess, counting matches, and the wildcard hint.
- `Scoring`: the points tables and the solo statistics a win updates.
- `PowerUps`: the two card decks and the draw of a card.
- `Players`: the turn rotation, and `getPlayerName` with `String.prototype.trim`.
- `Engine`: the class `NumberGame`.
  - It has one field per `useState` hook, except that nine of the hooks `initializeRound` resets are grouped in
    a `Round` record.
  - It has one method per handler, plus one method per `setTimeout` follow-up that moves the game on (the card
    coming up, play starting, `endRound`, settling a correct arrangement, game over after a lottery win).
  - The follow-up that is due is the `pending` field. A follow-up method requires its own kind to be pending. A
    handler that a player triggers requires that nothing is pending, except typing into a cell
    (`HandleInputChange`), which the component accepts at any time.
  - Every method keeps the class invariant `Valid()`:
    - The cells only hold what the input filter accepts.
    - The table is well formed.
    - During a round the secret is a valid secret, and a revealed digit is the secret's digit at its position.
    - At the arrangement, the found digits are the secret's digits in another order.
    - The round's counters fit the phase, and the pending follow-up fits the phase.

`Math.random()` is a parameter everywhere: a `real` roll in [0, 1), scaled by `Math.floor(roll * n)`. Where the
source draws, the model proves two things. Every outcome is reachable by some roll. Every outcome is a legal
one: a valid secret, a card of the current deck, a digit of the secret.

## Model

| member | source | states |
|---|---|---|
| Common.RandomIndex | NumberGame.tsx:82 | `Math.floor(Math.random() * n)` is an index below `n` |
| Common.RandomIndexReaches | NumberGame.tsx:82 | every index below `n` is the outcome of some roll |
| Secret.SecretShape | NumberGame.tsx:78-87 | a secret is exactly a sequence of three distinct digits in 1..9 |
| Secret.PoolIsDigits | NumberGame.tsx:79 | the starting pool holds nine distinct values, exactly the digits 1..9 |
| Secret.RemoveAt | NumberGame.tsx:84 | `digits.splice(idx, 1)`: one element shorter, the elements before `k` in place and those after it moved down by one |
| Secret.RemoveAtDistinct | NumberGame.tsx:84 | splicing index `k` out of a pool of distinct values leaves distinct values: all the others, and not the one taken |
| Secret.PicksOf | NumberGame.tsx:81-82 | the `i`-th roll yields an index into a pool that has already lost `i` digits |
| Secret.Drawn | NumberGame.tsx:81-85 | drawing without replacement, pick by pick: one value per pick |
| Secret.DrawnFromPool | NumberGame.tsx:81-85 | drawing without replacement from distinct values yields one distinct pool value per pick |
| Secret.DrawDigits | NumberGame.tsx:81-85 | the loop builds exactly the draw that the rolls specify, pick by pick |
| Secret.GenerateSecret | NumberGame.tsx:78-87 | the generator returns the secret its three rolls specify, and that secret is valid |
| Secret.SecretOf | NumberGame.tsx:78-87 | the secret three rolls draw from `[1, ..., 9]`; whatever the rolls, it is three distinct digits in 1..9 |
| Secret.DrawnDigits | NumberGame.tsx:81-85 | three picks from a pool of distinct digits form a valid secret |
| Secret.DrawnInjective | NumberGame.tsx:81-85 | different picks from distinct values never draw the same sequence |
| Secret.PicksFor | NumberGame.tsx:81-85 | for any target of distinct pool values, there are legal picks of the same length |
| Secret.PicksForDraws | NumberGame.tsx:81-85 | drawing those picks gives back the target |
| Secret.RollsFor | NumberGame.tsx:82 | for any legal picks, there are rolls that produce exactly those picks |
| Secret.EverySecretGenerated | NumberGame.tsx:78-87 | each of the 504 valid secrets is produced by some rolls: the generator misses none |
| Secret.DifferentPicksDifferentSecrets | NumberGame.tsx:78-87 | rolls that land on different pool indices produce different secrets |
| Evaluate.ParseCell | NumberGame.tsx:187 | `parseInt` of a one-character cell is a number exactly when the cell holds a decimal digit, and then it is that digit |
| Evaluate.EmptyCellsFiltered | NumberGame.tsx:164 | the cleared cells `['', '', '']` pass the input filter |
| Evaluate.AcceptsInput | NumberGame.tsx:363 | the input filter accepts a cell value exactly when it is empty or parses to a digit 1..9 |
| Evaluate.FilteredUpdate | NumberGame.tsx:362-373 | storing a value the filter accepts keeps every cell acceptable |
| Evaluate.FilteredCellParses | NumberGame.tsx:363 | a cell the filter let through is NaN when empty, and a digit 1..9 otherwise |
| Evaluate.Validate | NumberGame.tsx:144-155 | accepted cells spell three distinct digits 1..9, cell by cell; the digit error is reported exactly when some cell is not a digit 1..9 |
| Evaluate.Render | NumberGame.tsx:706 | the cells that type a secret are one character each and pass the input filter |
| Evaluate.ValidateRender | NumberGame.tsx:187-197 | typing a valid secret and validating it gives the same digits back |
| Evaluate.AcceptedCellsAreRendered | NumberGame.tsx:187-197 | validation accepts only cells that spell out the accepted digits |
| Evaluate.FilteredRejection | NumberGame.tsx:187-191 | behind the input filter, the digit check fails exactly when some cell is empty |
| Evaluate.ParseArrangement | NumberGame.tsx:287-292 | an arrangement is refused exactly when some cell is not a number; otherwise it is the three parsed numbers |
| Evaluate.ArrangementAllowsRepeats | NumberGame.tsx:287-292 | `4 4 4` is accepted as an arrangement but refused as a guess for repeating a digit |
| Evaluate.SamePositions | NumberGame.tsx:199-202 | the position-by-position lottery comparison holds exactly when the guess equals the secret |
| Evaluate.Matches | NumberGame.tsx:212-215 | the number of matches never exceeds the length of the guess |
| Evaluate.CountMatches | NumberGame.tsx:212-215 | the counting loop computes `Matches` |
| Evaluate.MatchesAppend | NumberGame.tsx:212-215 | the count over a concatenation is the sum of the counts |
| Evaluate.MatchesAll | NumberGame.tsx:212-215 | every digit matches exactly when every guess digit occurs in the secret |
| Evaluate.MatchesNone | NumberGame.tsx:212-215 | the count is 0 exactly when no guess digit occurs in the secret |
| Evaluate.MatchesIgnoresGuessOrder | NumberGame.tsx:212-215 | any rearrangement of the guess gets the same count |
| Evaluate.MatchesIgnoresSecretOrder | NumberGame.tsx:212-215 | the count depends only on which digits the secret holds |
| Evaluate.AllFoundMeansSameDigits | NumberGame.tsx:212-215 | between two valid secrets, three matches holds exactly when they have the same digits (equal multisets) |
| Evaluate.Rearranged | NumberGame.tsx:254-255 | three distinct digits, each found among three distinct digits, are a rearrangement of them |
| Evaluate.ExactGuessMatchesAll | NumberGame.tsx:199-215 | the exact secret would count three matches, so the lottery check must come before the count |
| Evaluate.Present | NumberGame.tsx:228 | the filtered guess has one entry per match, and holds exactly the guess digits that are in the secret |
| Evaluate.WildcardHint | NumberGame.tsx:217-236 | there is no hint exactly when all three digits match; with none matching, the hint names a secret digit that is not in the guess; with one or two matching, it names a digit in both |
| Scoring.Multiplier | NumberGame.tsx:260 | the multiplier (also at :267) is 1 or 2, and 2 exactly under double points |
| Scoring.FindingPoints | NumberGame.tsx:257-259 | finding pays `50 - 10 * min(previous guesses, 4)`, doubled under double points |
| Scoring.FindingPointsRange | NumberGame.tsx:257-259 | finding pays between 10 and 50 (times the multiplier), never more for a later find, and strictly less up to the fifth guess |
| Scoring.Consolation | NumberGame.tsx:266-268 | the consolation is `3 + best` for a best count up to 2 and 3 beyond, times the multiplier |
| Scoring.ConsolationBelowFinding | NumberGame.tsx:257-268 | any consolation is below any finding payment at the same multiplier |
| Scoring.ArrangementBonus | NumberGame.tsx:297-298 | the bonus is 10 exactly with 2 or 3 attempts left, and 5 otherwise |
| Scoring.SoloWin | NumberGame.tsx:312-322 | a solo win adds one game and one streak, raises the best streak to the current one, and records the rounds when there was no best (null or 0) or the new count is lower |
| Scoring.BestRoundsBeaten | NumberGame.tsx:317 | the best is beaten when there is no best yet (null, or 0 read as unset), or a lower count |
| Scoring.BestRoundsKeepsFewest | NumberGame.tsx:317-319 | once a best is recorded, a win keeps the fewer of the best and the win's round count |
| Scoring.SoloWinKeepsValid | NumberGame.tsx:312-322 | the best streak stays at or above the current streak and never drops |
| Scoring.WinsFromFresh | NumberGame.tsx:312-322 | from fresh statistics, `n` wins count `n` games and an unbroken streak of `n`, and the best rounds is the fewest any win took |
| PowerUps.Deck | NumberGame.tsx:94 | the deck has 8 cards, or 13 in party mode; it holds the party cards exactly when party mode is on |
| PowerUps.DrawCard | NumberGame.tsx:95 | the drawn card is in the current deck, and it is never a party card outside party mode |
| PowerUps.EveryCardDrawable | NumberGame.tsx:94-95 | every card of the current deck comes up for some roll |
| Players.NextPlayer | NumberGame.tsx:350 | the next seat is the following one, wrapping from the last seat to 0 |
| Players.Rotate | NumberGame.tsx:350 | the seat `k` rounds on is a seat at the table |
| Players.RotateSeat | NumberGame.tsx:350 | within one lap the turn moves `k` seats on, wrapping past the last seat once |
| Players.FullCircle | NumberGame.tsx:350 | after as many rounds as there are players, the same player is up again |
| Players.TurnsDistinct | NumberGame.tsx:350 | within one lap no player gets two turns |
| Players.LeadingSpace | NumberGame.tsx:395-397 | the leading run counted is all white space, and the character after it is not |
| Players.TrailingSpace | NumberGame.tsx:395-397 | the trailing run is all white space, and the character before it is not |
| Players.Trim | NumberGame.tsx:395-397 | a trimmed name is empty, or starts and ends with a character that is not white space |
| Players.TrimSlice | NumberGame.tsx:395-397 | the trimmed name is a stretch of the name with only white space cut off either side |
| Players.TrimIdempotent | NumberGame.tsx:395-397 | trimming twice is trimming once |
| Players.NatToString | NumberGame.tsx:397 | a number prints as a non-empty string of decimal digits |
| Players.NatToStringValue | NumberGame.tsx:397 | reading back the printed digits gives the number |
| Players.PlayerName | NumberGame.tsx:393-398 | in solo play, the first name trimmed, or "You"; otherwise the seat's name trimmed, or "Player n" counted from 1 when that is blank or missing; never empty |
| Players.DefaultNamesDistinct | NumberGame.tsx:397 | two seats with blank names get different default names |
| Engine.FreshRound | NumberGame.tsx:163-173 | the round `initializeRound` sets: empty history, best count 0, 5 guesses, 2 attempts, nothing found or scored, no power-up, history shown, no digit revealed |
| Engine.WildcardDue | NumberGame.tsx:218 | the wildcard hint is due when the wildcard is active and no guess has been made this round |
| Engine.Credit | NumberGame.tsx:271-273 | the player gains the points and every other score is unchanged |
| Engine.WithCard | NumberGame.tsx:96-119 | the card becomes active; extra-guess sets 6 guesses, lose-guess 4, extra-arrangement 3 attempts; reveal shows the secret's digit at the drawn position; hide-history hides it; nothing else changes |
| Engine.CardOnFreshRound | NumberGame.tsx:96-119 | any card on a fresh round leaves 4 to 6 guesses and 2 or 3 attempts, with nothing guessed or scored, and a revealed digit that is the secret's |
| Engine.Score | NumberGame.tsx:212-276 | scoring a guess: how it is recorded, its hint, and its effect on the best count and the wildcard, which is never due again afterwards. Three matches: the found digits and finding points, and the guesses are kept. Fewer: a guess is used, and the last one ends the round with the consolation for the earlier best count |
| Engine.ScoreKeepsInvariant | NumberGame.tsx:212-276 | scoring keeps the round invariants; after three matches, the found digits are the secret's digits in another order |
| Engine.MissesCountDown | NumberGame.tsx:262-276 | fewer misses than guesses left keep the round in play with that many fewer guesses; as many end it, with every miss recorded |
| Engine.Arrange | NumberGame.tsx:294-340 | the exact order banks the round score plus the bonus, to be settled; a wrong order uses an attempt, and the last attempt ends the round banking the round score |
| Engine.FoundThenArranged | NumberGame.tsx:254-306 | finding and then arranging at once pays the finding points plus the bonus, between 15 and 110 points |
| Engine.ArrangementsCountDown | NumberGame.tsx:327-340 | fewer wrong orders than attempts leave the arrangement open; as many end the round banking exactly the round score |
| Engine.FoundDigitsRearrangeSecret | NumberGame.tsx:254-261 | at the arrangement, the found digits are a rearrangement of the secret, and not the secret itself |
| Engine.NumberGame.Valid | NumberGame.tsx:32-57 | the invariant every handler keeps: cells hold only filtered values; 1..4 players, the seat in range, four names of at most 15 characters and four scores; during a round a valid secret and a correct revealed digit; at the arrangement the found digits rearrange the secret; the round counters and the pending follow-up fit the phase |
| Engine.NumberGame.constructor | NumberGame.tsx:32-57 | the initial state of every hook, with the invariant holding |
| Engine.NumberGame.SetGameMode | NumberGame.tsx:482-493 | the mode is set in the menu; manual mode is unavailable in solo play |
| Engine.NumberGame.SetPlayerCount | NumberGame.tsx:520 | the count is set to 1..4 in the menu, and the invariant holds |
| Engine.NumberGame.SetPowerUpsEnabled | NumberGame.tsx:541 | power-ups are switched in the menu |
| Engine.NumberGame.SetPartyMode | NumberGame.tsx:556-557 | party mode is switched in the menu, only while power-ups are on |
| Engine.NumberGame.SetPlayerName | NumberGame.tsx:592-598 | one seat's name is replaced by one of at most 15 characters |
| Engine.NumberGame.StartGame | NumberGame.tsx:630 | the game moves from the menu to the round setup |
| Engine.NumberGame.InitializeRound | NumberGame.tsx:162-180 | a fresh round (empty history, 5 guesses, 2 attempts, nothing scored, no power-up) starts at the card draw or straight into play |
| Engine.NumberGame.StartRound | NumberGame.tsx:130-142 | a solo round is counted; manual mode with several players goes to secret entry, otherwise the secret is the rolled one and the round starts |
| Engine.NumberGame.AwaitSecret | NumberGame.tsx:134-136 | the game waits for the other players to type the secret |
| Engine.NumberGame.CountSoloRound | NumberGame.tsx:131-133 | the round count goes up by one in solo play only |
| Engine.NumberGame.DrawSecret | NumberGame.tsx:137-140 | the secret becomes the one the rolls draw, and a fresh round starts |
| Engine.NumberGame.SubmitManualNumber | NumberGame.tsx:144-160 | a refused secret changes only the message, which gives the reason; an accepted one becomes the secret, the entry cells are cleared, and a fresh round starts |
| Engine.NumberGame.SpinPowerUpWheel | NumberGame.tsx:89-93 | the draw is announced and the card is due to come up |
| Engine.NumberGame.RevealCard | NumberGame.tsx:93-121 | the drawn card is shown and applied to the round; a skipped turn ends the round, any other card leads on to play |
| Engine.NumberGame.StartPlaying | NumberGame.tsx:123-126 | play starts with a blank message |
| Engine.NumberGame.CheckGuess | NumberGame.tsx:186-284 | a refused guess changes only the message. The exact secret is a lottery win that sets the score to 100, with game over to follow. Any other guess is scored as `Score` says and credited, and the cells are cleared |
| Engine.NumberGame.WinLottery | NumberGame.tsx:199-210 | the player's score becomes 100, the win is recorded, and game over is due |
| Engine.NumberGame.ScoreGuess | NumberGame.tsx:212-279 | the counted matches decide the step, which is applied and credited; three matches move on to the arrangement |
| Engine.NumberGame.CheckArrangement | NumberGame.tsx:286-347 | a cell that is not a number changes only the message; a parsed arrangement is scored as `Arrange` says and credited, and the cells are cleared |
| Engine.NumberGame.SettleArrangement | NumberGame.tsx:308-326 | at 100 points or more the game is over, and a solo win updates the statistics; below that the turn passes and the next round is set up |
| Engine.NumberGame.EndRound | NumberGame.tsx:349-352 | the turn passes to the next seat and the next round is set up |
| Engine.NumberGame.ShowGameOver | NumberGame.tsx:208 | after a lottery win the game is over |
| Engine.NumberGame.ResetGame | NumberGame.tsx:354-360 | scores, seat, round count and names are cleared and the menu is back; the solo statistics survive |
| Engine.NumberGame.HandleInputChange | NumberGame.tsx:362-373 | a value is stored in the chosen row's cell only when it is empty or a digit 1..9; the other row never changes |

## Left out

- Rendering is not modelled: the JSX, styling, animations, the `spinning` flag, `showRules` and `showSettings`, and the focus moves in `initializeRound`, `checkGuess`, `checkArrangement` and `handleInputChange`.
- `handleKeyDown` (NumberGame.tsx:380-391) is not modelled. It moves the focus, and on Enter it calls the submit handlers that are modelled.
- Messages are modelled as a `Notice` datatype with the numbers they carry, not their wording.
- The 8-second timer that blanks the feedback message after a miss (NumberGame.tsx:245-247) is not modelled. It changes only the message.
- Timer races are not modelled: a player action taken while a follow-up is still pending (the handlers require that none is). This also excludes the stale-closure reads those races would expose.
- The random draws are not modelled as uniform. The model proves that every outcome is reachable, not that each is equally likely.
- The components outside `NumberGame.tsx` (the App shell, styles) are not part of this model.
- `String.prototype.trim` is modelled with the Unicode white-space and line-terminator characters listed in `Players.IsTrimSpace`.
- Nine round hooks are one `Round` record (`guesses`, `bestGuessCount`, `guessesRemaining`, `arrangementsRemaining`, `foundDigits`, `roundScore`, `activePowerUp`, `hideHistory`, `revealedDigit`), so each handler sets them together rather than one by one. `currentGuess` and `message`, which `initializeRound` also resets, are separate fields.
- Scores, counters and statistics are `nat`. JavaScript numbers never reach their precision limit here.
- The source lets several things through, and the model keeps each of them as written:
  - The arrangement refuses only non-numbers: it has no range or uniqueness check.
  - Banking the round score after the last wrong arrangement, and the consolation, never check for 100 points.
  - A lottery win does not update the solo statistics.
  - `currentStreak` is never reset.
  - The consolation uses the best count from before the current guess.
- The submit buttons are disabled while a cell is empty (NumberGame.tsx:721, 861). The model leaves them enabled and proves the refusal that follows instead.
