/**
 * The game engine: the state of the `NumberGame` component and one method per
 * handler (NumberGame.tsx:32-57, 89-378). Each `setTimeout` follow-up that
 * moves the game on is its own method, enabled by the `pending` field; the
 * handlers a player triggers require that no follow-up is pending.
 */
module Engine {
  import opened Common
  import opened Secret
  import opened Evaluate
  import opened Scoring
  import opened PowerUps
  import opened Players

  /** `gameState` */
  datatype Phase = Menu | Setup | ManualEntry | PowerUp | Playing | Arrangement | GameOver

  /** `gameMode`: the computer draws the secret, or the other players type it in. */
  datatype Mode = Auto | Manual

  /** The follow-ups that `setTimeout` schedules and that change the course of the game. */
  datatype Timer =
    | RevealCardTimer   // the card comes up (:94)
    | PlayTimer         // from the card to playing (:123)
    | EndRoundTimer     // `endRound` (:114, :275, :336)
    | SettleTimer       // game over or next round after a correct arrangement (:308)
    | GameOverTimer     // game over after a lottery win (:208)

  /** The `feedback` of a history entry, with the `isLottery` and `isWin` flags folded in. */
  datatype Feedback =
    | LotteryWin
    | Right(matches: nat, hint: Hint)   // "m right", with the wildcard hint if any
    | Correct
    | WrongOrder

  /** An entry of `guesses`. */
  datatype GuessRecord = GuessRecord(guess: seq<int>, feedback: Feedback)

  datatype RevealedDigit = RevealedDigit(position: nat, digit: int)

  /** What `message` says, without its wording. */
  datatype Notice =
    | Blank
    | Refused(reason: Rejection)                       // "Please enter digits 1-9", "... must be unique!"
    | EnterAllThree                                    // "Please enter all three digits"
    | CardComing                                       // "And the card is..."
    | CardShown(card: PowerUpId)
    | LotteryNotice
    | MatchFeedback(matches: nat, hint: Hint, historyHidden: bool)
    | AllFound                                         // "All 3 digits found! ..."
    | Consoled(points: nat)                            // "Round over. ... You get p points for ..."
    | CorrectNotice(points: nat)                       // "Correct! +p points!"
    | Banked(points: nat)                              // "Round over. ... for finding the all 3 numbers!"
    | TryAgain                                         // "Wrong order. One more try!"

  /**
   * The state hooks `initializeRound` resets together, kept as one record: the
   * history, the best count, the guesses and arrangements left, the digits
   * found, the round's score and the power-up with its effects.
   */
  datatype Round = Round(
    guesses: seq<GuessRecord>,
    bestGuessCount: nat,
    guessesRemaining: nat,
    arrangementsRemaining: nat,
    foundDigits: seq<int>,
    roundScore: nat,
    activePowerUp: Option<PowerUpId>,
    hideHistory: bool,
    revealedDigit: Option<RevealedDigit>)

  /** What `initializeRound` sets: empty history, 5 guesses, 2 arrangements, no score, no power-up. */
  const FreshRound := Round([], 0, 5, 2, [], 0, None, false, None)

  /** A round is under way: the secret is set and the round's fields are live. */
  predicate InRound(phase: Phase)
  {
    phase == PowerUp || phase == Playing || phase == Arrangement
  }

  /** `newScores[currentPlayer] += points`: player `p` gains `points`, the others keep theirs. */
  function Credit(scores: seq<nat>, p: nat, points: nat): (r: seq<nat>)
    requires p < |scores|
    ensures |r| == |scores| && r[p] == scores[p] + points
    ensures forall i :: 0 <= i < |scores| && i != p ==> r[i] == scores[i]
  {
    scores[p := scores[p] + points]
  }

  /** The input cells only ever hold what the input filter let through. */
  predicate CellsOk(manualNumber: seq<string>, currentGuess: seq<string>)
  {
    FilteredCells(manualNumber) && FilteredCells(currentGuess)
  }

  /** The settings and the table: player count, seat, names, scores and statistics. */
  predicate TableOk(phase: Phase, playerCount: nat, currentPlayer: nat, playerNames: seq<string>,
                    scores: seq<nat>, soloStats: SoloStats)
  {
    1 <= playerCount <= 4 && currentPlayer < playerCount
    && |playerNames| == 4
    && (forall i :: 0 <= i < 4 ==> |playerNames[i]| <= 15)
    && |scores| == 4 && StatsValid(soloStats)
    && (phase == Menu ==> currentPlayer == 0)
    && (phase == GameOver ==> scores[currentPlayer] >= 100)
  }

  /**
   * During a round the secret is a valid secret and the revealed digit is the
   * secret's digit at its position; the digits found for the arrangement are
   * the secret's digits in another order.
   */
  predicate SecretOk(phase: Phase, secret: seq<int>, round: Round)
  {
    (InRound(phase) ==> IsSecret(secret))
    && (InRound(phase) && round.revealedDigit.Some? ==>
          round.revealedDigit.value.position < 3
          && secret[round.revealedDigit.value.position] == round.revealedDigit.value.digit)
    && (phase == Arrangement ==>
          IsSecret(round.foundDigits) && Matches(round.foundDigits, secret) == 3 && round.foundDigits != secret)
  }

  /** The round's counters, phase by phase. */
  predicate CountersOk(phase: Phase, round: Round)
  {
    (phase == PowerUp ==>
       round.guesses == [] && round.bestGuessCount == 0 && round.roundScore == 0
       && 4 <= round.guessesRemaining <= 6 && 2 <= round.arrangementsRemaining <= 3)
    && (phase == PowerUp && round.activePowerUp == None ==> round == FreshRound)
    && (phase == Playing ==> 1 <= round.arrangementsRemaining && round.bestGuessCount <= 2)
  }

  /** Which follow-up can be pending in which phase, and what holds when none is. */
  predicate TimerOk(pending: Option<Timer>, phase: Phase, round: Round, scores: seq<nat>, currentPlayer: nat)
  {
    match pending
    case None =>
      (phase == PowerUp ==> round.activePowerUp == None)
      && (phase == Playing ==> round.guessesRemaining >= 1)
      && (phase == Arrangement ==> round.arrangementsRemaining >= 1)
    case Some(RevealCardTimer) => phase == PowerUp && round.activePowerUp == None
    case Some(PlayTimer) => phase == PowerUp && round.activePowerUp.Some?
    case Some(EndRoundTimer) => InRound(phase)
    case Some(SettleTimer) => phase == Arrangement
    case Some(GameOverTimer) => phase == Playing && currentPlayer < |scores| && scores[currentPlayer] >= 100
  }

  /**
   * The round after card `card` comes up (NumberGame.tsx:96-119): the card is
   * active and applies its effect: 6 or 4 guesses, 3 arrangement attempts, the
   * secret's digit at `position` revealed, or the history hidden. Every other
   * card leaves the round as it was.
   */
  function WithCard(r: Round, card: PowerUpId, secret: seq<int>, position: nat): (r2: Round)
    requires |secret| == 3 && position < 3
    ensures r2.activePowerUp == Some(card)
    ensures r2.guesses == r.guesses && r2.bestGuessCount == r.bestGuessCount
    ensures r2.foundDigits == r.foundDigits && r2.roundScore == r.roundScore
    ensures r2.guessesRemaining == if card == ExtraGuess then 6 else if card == LoseGuess then 4 else r.guessesRemaining
    ensures r2.arrangementsRemaining == if card == ExtraArrangement then 3 else r.arrangementsRemaining
    ensures r2.hideHistory <==> r.hideHistory || card == HideHistory
    ensures r2.revealedDigit == if card == Reveal then Some(RevealedDigit(position, secret[position])) else r.revealedDigit
  {
    var r1 := r.(activePowerUp := Some(card));
    match card
    case ExtraGuess => r1.(guessesRemaining := 6)
    case ExtraArrangement => r1.(arrangementsRemaining := 3)
    case LoseGuess => r1.(guessesRemaining := 4)
    case Reveal => r1.(revealedDigit := Some(RevealedDigit(position, secret[position])))
    case HideHistory => r1.(hideHistory := true)
    case _ => r1
  }

  /**
   * Whatever card comes up on a fresh round, the round is playable: 4 to 6
   * guesses, 2 or 3 arrangement attempts, nothing guessed or scored yet, and a
   * revealed digit, if any, is the secret's digit at its position.
   */
  lemma CardOnFreshRound(card: PowerUpId, secret: seq<int>, position: nat)
    requires |secret| == 3 && position < 3
    ensures var r := WithCard(FreshRound, card, secret, position);
      4 <= r.guessesRemaining <= 6 && 2 <= r.arrangementsRemaining <= 3
      && r.guesses == [] && r.bestGuessCount == 0 && r.roundScore == 0
      && (r.revealedDigit.Some? ==>
            r.revealedDigit.value.position < 3 && secret[r.revealedDigit.value.position] == r.revealedDigit.value.digit)
  {
  }

  /**
   * What scoring a guess or an arrangement does besides the phase: the round
   * after it, the message, the points the player banks, and the follow-up it
   * schedules.
   */
  datatype Step = Step(round: Round, message: Notice, points: nat, next: Option<Timer>)

  /** The wildcard gives its hint on the first guess of a round, and only then. */
  predicate WildcardDue(r: Round)
  {
    r.activePowerUp == Some(Wildcard) && r.guesses == []
  }

  /**
   * Scoring a valid guess that is not the secret itself, given its number of
   * `matches` (NumberGame.tsx:212-276). The guess is recorded with its matches
   * and, when the wildcard is due, its hint, which uses the wildcard up. Three
   * matches pay the finding points for the number of earlier guesses and move
   * on to the arrangement; fewer use up a guess, and when that was the last one
   * the round ends with the consolation for the best count before this guess.
   */
  function Score(r: Round, guess: seq<int>, secret: seq<int>, matches: nat, hintRoll: real): (st: Step)
    requires |guess| == 3 && |secret| == 3 && IsRoll(hintRoll) && matches == Matches(guess, secret)
    requires r.guessesRemaining >= 1
    ensures var hint := if WildcardDue(r) then WildcardHint(guess, secret, hintRoll) else NoHint;
      st.round.guesses == r.guesses + [GuessRecord(guess, Right(matches, hint))]
      && (matches < 3 && st.next == None ==> st.message == MatchFeedback(matches, hint, r.hideHistory))
    ensures st.round.activePowerUp == if WildcardDue(r) then None else r.activePowerUp
    ensures st.round.bestGuessCount == Max(r.bestGuessCount, matches)
    ensures st.round.arrangementsRemaining == r.arrangementsRemaining
    ensures st.round.hideHistory == r.hideHistory && st.round.revealedDigit == r.revealedDigit
    ensures matches == 3 ==>
      st.round.foundDigits == guess && st.message == AllFound
      && st.round.roundScore == FindingPoints(|r.guesses|, r.activePowerUp == Some(DoublePoints))
      && st.round.guessesRemaining == r.guessesRemaining
    ensures matches < 3 ==>
      st.round.foundDigits == r.foundDigits && st.round.roundScore == r.roundScore
      && st.round.guessesRemaining == r.guessesRemaining - 1
    ensures st.next.Some? <==> matches < 3 && r.guessesRemaining == 1
    ensures st.next.Some? ==>
      st.next == Some(EndRoundTimer) && st.message == Consoled(st.points)
      && st.points == Consolation(r.bestGuessCount, r.activePowerUp == Some(DoublePoints))
    ensures st.next.None? ==> st.points == 0
    ensures !WildcardDue(st.round)
  {
    var wild := WildcardDue(r);
    var hint := if wild then WildcardHint(guess, secret, hintRoll) else NoHint;
    var doubled := r.activePowerUp == Some(DoublePoints);
    var r1 := r.(guesses := r.guesses + [GuessRecord(guess, Right(matches, hint))],
                 activePowerUp := if wild then None else r.activePowerUp,
                 bestGuessCount := Max(r.bestGuessCount, matches));
    if matches == 3 then
      Step(r1.(foundDigits := guess, roundScore := FindingPoints(|r.guesses|, doubled)), AllFound, 0, None)
    else if r.guessesRemaining == 1 then
      var points := Consolation(r.bestGuessCount, doubled);
      Step(r1.(guessesRemaining := 0), Consoled(points), points, Some(EndRoundTimer))
    else
      Step(r1.(guessesRemaining := r.guessesRemaining - 1), MatchFeedback(matches, hint, r.hideHistory), 0, None)
  }

  /**
   * Scoring a guess keeps the round's invariants, whichever way it goes: the
   * found digits of an arrangement are the secret's digits in another order, and
   * a round still in play has a guess left.
   */
  lemma ScoreKeepsInvariant(r: Round, guess: seq<int>, secret: seq<int>, matches: nat, hintRoll: real,
                            scores: seq<nat>, p: nat)
    requires IsSecret(guess) && IsSecret(secret) && guess != secret && IsRoll(hintRoll)
    requires matches == Matches(guess, secret)
    requires SecretOk(Playing, secret, r) && CountersOk(Playing, r) && TimerOk(None, Playing, r, scores, p)
    ensures var st := Score(r, guess, secret, matches, hintRoll);
      var phase := if matches == 3 then Arrangement else Playing;
      SecretOk(phase, secret, st.round) && CountersOk(phase, st.round) && TimerOk(st.next, phase, st.round, scores, p)
  {
  }

  /**
   * Scores the misses `gs`, guesses none of which has all three digits, one
   * after another from round `r`, and stops at the guess that ends the round:
   * the step of the last guess scored.
   */
  function ScoreMisses(r: Round, gs: seq<seq<int>>, secret: seq<int>, roll: real): Step
    requires |secret| == 3 && IsRoll(roll) && r.guessesRemaining >= 1 && gs != []
    requires forall i :: 0 <= i < |gs| ==> |gs[i]| == 3 && Matches(gs[i], secret) < 3
    decreases |gs|
  {
    var st := Score(r, gs[0], secret, Matches(gs[0], secret), roll);
    if st.next.Some? || |gs| == 1 then st else ScoreMisses(st.round, gs[1..], secret, roll)
  }

  /**
   * A round can only be missed as many times as it has guesses left: fewer
   * misses leave it in play with that many fewer guesses, and that many end it
   * with every miss in the history.
   */
  lemma {:induction false} MissesCountDown(r: Round, gs: seq<seq<int>>, secret: seq<int>, roll: real)
    requires |secret| == 3 && IsRoll(roll) && r.guessesRemaining >= 1 && gs != []
    requires forall i :: 0 <= i < |gs| ==> |gs[i]| == 3 && Matches(gs[i], secret) < 3
    ensures var st := ScoreMisses(r, gs, secret, roll);
      var n := if |gs| < r.guessesRemaining then |gs| else r.guessesRemaining;
      |st.round.guesses| == |r.guesses| + n
      && (|gs| < r.guessesRemaining ==> st.next == None && st.round.guessesRemaining == r.guessesRemaining - |gs|)
      && (|gs| >= r.guessesRemaining ==> st.next == Some(EndRoundTimer) && st.round.guessesRemaining == 0)
    decreases |gs|
  {
    var st := Score(r, gs[0], secret, Matches(gs[0], secret), roll);
    if st.next.None? && |gs| > 1 {
      assert forall i :: 0 <= i < |gs[1..]| ==> gs[1..][i] == gs[i + 1];
      MissesCountDown(st.round, gs[1..], secret, roll);
    }
  }

  /**
   * Scoring an arrangement that parsed (NumberGame.tsx:295-345). The exact secret
   * is recorded as correct and banks the round's score plus the arrangement
   * bonus, to be settled later; anything else is recorded as the wrong order and
   * uses up an attempt, and the last attempt ends the round banking the round's
   * score.
   */
  function Arrange(r: Round, guess: seq<int>, secret: seq<int>): (st: Step)
    requires r.arrangementsRemaining >= 1
    ensures st.round == r.(guesses := r.guesses + [GuessRecord(guess, if guess == secret then Correct else WrongOrder)],
                           arrangementsRemaining := if guess == secret then r.arrangementsRemaining else r.arrangementsRemaining - 1)
    ensures st.next.Some? <==> guess == secret || r.arrangementsRemaining == 1
    ensures guess == secret ==>
      st.points == r.roundScore + ArrangementBonus(r.arrangementsRemaining)
      && st.message == CorrectNotice(st.points) && st.next == Some(SettleTimer)
    ensures guess != secret && r.arrangementsRemaining == 1 ==>
      st.points == r.roundScore && st.message == Banked(st.points) && st.next == Some(EndRoundTimer)
    ensures guess != secret && r.arrangementsRemaining > 1 ==> st.points == 0 && st.message == TryAgain
  {
    var left := r.arrangementsRemaining;
    if guess == secret then
      var total := r.roundScore + ArrangementBonus(left);
      Step(r.(guesses := r.guesses + [GuessRecord(guess, Correct)]), CorrectNotice(total), total, Some(SettleTimer))
    else
      var r2 := r.(guesses := r.guesses + [GuessRecord(guess, WrongOrder)], arrangementsRemaining := left - 1);
      if left == 1 then Step(r2, Banked(r.roundScore), r.roundScore, Some(EndRoundTimer))
      else Step(r2, TryAgain, 0, None)
  }

  /**
   * A round won outright: the digits found with the guess after `|r.guesses|`
   * earlier ones, then the right order at the first attempt left. It banks the
   * finding points plus the arrangement bonus, between 15 and 110 points
   * (double points included).
   */
  lemma FoundThenArranged(r: Round, guess: seq<int>, secret: seq<int>, roll: real)
    requires |guess| == 3 && |secret| == 3 && IsRoll(roll) && Matches(guess, secret) == 3
    requires r.guessesRemaining >= 1 && r.arrangementsRemaining >= 1
    ensures var found := Score(r, guess, secret, 3, roll);
      var st := Arrange(found.round, secret, secret);
      var doubled := r.activePowerUp == Some(DoublePoints);
      st.points == FindingPoints(|r.guesses|, doubled) + ArrangementBonus(r.arrangementsRemaining)
      && st.next == Some(SettleTimer) && 15 <= st.points <= 110
  {
    FindingPointsRange(|r.guesses|, |r.guesses|, r.activePowerUp == Some(DoublePoints));
  }

  /**
   * Scores the wrong arrangements `gs` one after another from round `r`, and
   * stops at the one that ends the round: the step of the last one scored.
   */
  function WrongArrangements(r: Round, gs: seq<seq<int>>, secret: seq<int>): Step
    requires r.arrangementsRemaining >= 1 && gs != []
    requires forall i :: 0 <= i < |gs| ==> gs[i] != secret
    decreases |gs|
  {
    var st := Arrange(r, gs[0], secret);
    if st.next.Some? || |gs| == 1 then st else WrongArrangements(st.round, gs[1..], secret)
  }

  /**
   * The arrangement can only be got wrong as many times as there are attempts
   * left: fewer wrong tries leave the round at the arrangement, that many end it,
   * banking the round's score and nothing more.
   */
  lemma {:induction false} ArrangementsCountDown(r: Round, gs: seq<seq<int>>, secret: seq<int>)
    requires r.arrangementsRemaining >= 1 && gs != []
    requires forall i :: 0 <= i < |gs| ==> gs[i] != secret
    ensures var st := WrongArrangements(r, gs, secret);
      var n := if |gs| < r.arrangementsRemaining then |gs| else r.arrangementsRemaining;
      |st.round.guesses| == |r.guesses| + n && st.round.roundScore == r.roundScore
      && (|gs| < r.arrangementsRemaining ==>
            st.next == None && st.message == TryAgain && st.points == 0
            && st.round.arrangementsRemaining == r.arrangementsRemaining - |gs|)
      && (|gs| >= r.arrangementsRemaining ==>
            st.next == Some(EndRoundTimer) && st.points == r.roundScore && st.round.arrangementsRemaining == 0)
    decreases |gs|
  {
    var st := Arrange(r, gs[0], secret);
    if st.next.None? && |gs| > 1 {
      assert forall i :: 0 <= i < |gs[1..]| ==> gs[1..][i] == gs[i + 1];
      ArrangementsCountDown(st.round, gs[1..], secret);
    }
  }

  /**
   * At the arrangement, the found digits are the secret's digits in another
   * order: all the player has left to do is put them in place.
   */
  lemma FoundDigitsRearrangeSecret(secret: seq<int>, r: Round)
    requires SecretOk(Arrangement, secret, r)
    ensures multiset(r.foundDigits) == multiset(secret) && r.foundDigits != secret
  {
    AllFoundMeansSameDigits(r.foundDigits, secret);
  }

  class NumberGame {
    var gameState: Phase
    var gameMode: Mode
    var partyMode: bool
    var playerCount: nat
    var playerNames: seq<string>
    var soloStats: SoloStats
    var roundsPlayed: nat
    var powerUpsEnabled: bool
    var currentPlayer: nat
    var secretNumber: seq<int>
    var manualNumber: seq<string>
    var currentGuess: seq<string>
    var scores: seq<nat>
    var message: Notice
    /** `guesses`, `bestGuessCount`, ..., `revealedDigit`: the state of the round in progress. */
    var round: Round
    /** The follow-up `setTimeout` has scheduled and that has not fired yet. */
    var pending: Option<Timer>

    /** The invariant every handler keeps. */
    predicate Valid()
      reads this
    {
      ValidWith(gameState, round, pending)
    }

    /** `Valid()`, with `phase`, `r` and `next` in place of the phase, the round and the pending follow-up. */
    predicate ValidWith(phase: Phase, r: Round, next: Option<Timer>)
      reads this
    {
      CellsOk(manualNumber, currentGuess)
      && TableOk(phase, playerCount, currentPlayer, playerNames, scores, soloStats)
      && SecretOk(phase, secretNumber, r)
      && CountersOk(phase, r)
      && TimerOk(next, phase, r, scores, currentPlayer)
    }

    /**
     * The `setGameState`, round setters, `setMessage` and `setTimeout` a handler
     * ends with: the game moves to `phase` with round `r`, message `notice` and
     * follow-up `next`.
     */
    method Commit(phase: Phase, r: Round, notice: Notice, next: Option<Timer>)
      requires ValidWith(phase, r, next)
      modifies this`gameState, this`round, this`message, this`pending
      ensures Valid()
      ensures gameState == phase && round == r && message == notice && pending == next
    {
      gameState := phase;
      round := r;
      message := notice;
      pending := next;
    }

    /** The initial `useState` values (NumberGame.tsx:32-57). */
    constructor()
      ensures Valid() && pending == None
      ensures gameState == Menu && gameMode == Auto && !partyMode && playerCount == 2 && !powerUpsEnabled
      ensures playerNames == ["", "", "", ""] && soloStats == FreshStats && roundsPlayed == 0 && currentPlayer == 0
      ensures secretNumber == [] && manualNumber == EmptyCells && currentGuess == EmptyCells
      ensures scores == [0, 0, 0, 0] && message == Blank && round == FreshRound
    {
      gameState := Menu;
      gameMode := Auto;
      partyMode := false;
      playerCount := 2;
      playerNames := ["", "", "", ""];
      soloStats := FreshStats;
      roundsPlayed := 0;
      powerUpsEnabled := false;
      currentPlayer := 0;
      secretNumber := [];
      manualNumber := EmptyCells;
      currentGuess := EmptyCells;
      scores := [0, 0, 0, 0];
      message := Blank;
      round := FreshRound;
      pending := None;
    }

    /** The game-mode buttons of the settings panel; manual mode is disabled in solo play. */
    method SetGameMode(mode: Mode)
      requires Valid() && gameState == Menu && pending == None
      requires mode == Manual ==> playerCount != 1
      modifies this`gameMode
      ensures Valid() && gameMode == mode
    {
      gameMode := mode;
    }

    /** The player-count buttons: 1 to 4. The seat is 0 in the menu, so it stays in range. */
    method SetPlayerCount(n: nat)
      requires Valid() && gameState == Menu && pending == None
      requires 1 <= n <= 4
      modifies this`playerCount
      ensures Valid() && playerCount == n
    {
      playerCount := n;
    }

    /** The power-ups checkbox. */
    method SetPowerUpsEnabled(enabled: bool)
      requires Valid() && gameState == Menu && pending == None
      modifies this`powerUpsEnabled
      ensures Valid() && powerUpsEnabled == enabled
    {
      powerUpsEnabled := enabled;
    }

    /** The party-mode checkbox, enabled only while power-ups are on. */
    method SetPartyMode(party: bool)
      requires Valid() && gameState == Menu && pending == None && powerUpsEnabled
      modifies this`partyMode
      ensures Valid() && partyMode == party
    {
      partyMode := party;
    }

    /** A player-name input: one per seat in play, at most 15 characters. */
    method SetPlayerName(index: nat, name: string)
      requires Valid() && gameState == Menu && pending == None
      requires index < playerCount && |name| <= 15
      modifies this`playerNames
      ensures Valid() && playerNames == old(playerNames)[index := name]
    {
      playerNames := playerNames[index := name];
    }

    /** "Start Game": from the menu to the first round's setup. */
    method StartGame()
      requires Valid() && gameState == Menu && pending == None
      modifies this`gameState
      ensures Valid() && gameState == Setup
    {
      gameState := Setup;
    }

    /** `initializeRound`: a fresh round, at the power-up draw or straight into play. */
    method InitializeRound()
      requires Valid() && pending == None && IsSecret(secretNumber)
      requires gameState == Setup || gameState == ManualEntry
      modifies this`round, this`currentGuess, this`message, this`gameState, this`pending
      ensures Valid() && pending == None
      ensures round == FreshRound && currentGuess == EmptyCells && message == Blank
      ensures gameState == if powerUpsEnabled then PowerUp else Playing
    {
      currentGuess := EmptyCells;
      EmptyCellsFiltered();
      Commit(if powerUpsEnabled then PowerUp else Playing, FreshRound, Blank, None);
    }

    /**
     * `startRound`: counts a solo round, then either hands the secret to the
     * other players (manual mode with several players) or draws it and starts.
     */
    method StartRound(rolls: seq<real>)
      requires Valid() && gameState == Setup && pending == None && ValidRolls(rolls)
      modifies this`roundsPlayed, this`secretNumber, this`round, this`currentGuess, this`message, this`gameState,
        this`pending
      ensures Valid() && pending == None
      ensures roundsPlayed == old(roundsPlayed) + (if playerCount == 1 then 1 else 0)
      ensures gameMode == Manual && playerCount > 1 ==>
        gameState == ManualEntry && message == Blank && secretNumber == old(secretNumber)
        && round == old(round) && currentGuess == old(currentGuess)
      ensures !(gameMode == Manual && playerCount > 1) ==>
        secretNumber == SecretOf(rolls) && round == FreshRound && currentGuess == EmptyCells && message == Blank
        && gameState == if powerUpsEnabled then PowerUp else Playing
    {
      if gameMode == Manual && playerCount > 1 {
        AwaitSecret();
      } else {
        DrawSecret(rolls);
      }
      CountSoloRound();
    }

    /** In manual mode with several players, the other players type in the secret (NumberGame.tsx:134-136). */
    method AwaitSecret()
      requires Valid() && gameState == Setup && pending == None
      modifies this`gameState, this`message
      ensures Valid() && gameState == ManualEntry && message == Blank
    {
      gameState := ManualEntry;
      message := Blank;
    }

    /** A round in solo play is counted (NumberGame.tsx:131-133). */
    method CountSoloRound()
      requires Valid()
      modifies this`roundsPlayed
      ensures Valid() && roundsPlayed == old(roundsPlayed) + if playerCount == 1 then 1 else 0
    {
      roundsPlayed := roundsPlayed + if playerCount == 1 then 1 else 0;
    }

    /** The computer draws the secret from three rolls and the round starts (NumberGame.tsx:137-140). */
    method DrawSecret(rolls: seq<real>)
      requires Valid() && gameState == Setup && pending == None && ValidRolls(rolls)
      modifies this`secretNumber, this`round, this`currentGuess, this`message, this`gameState, this`pending
      ensures Valid() && pending == None
      ensures secretNumber == SecretOf(rolls) && round == FreshRound && currentGuess == EmptyCells && message == Blank
      ensures gameState == if powerUpsEnabled then PowerUp else Playing
    {
      var secret := GenerateSecret(rolls);
      secretNumber := secret;
      InitializeRound();
    }

    /**
     * `submitManualNumber`: a typed secret is taken only if it passes the same
     * validation as a guess; a refusal changes only the message.
     */
    method SubmitManualNumber()
      requires Valid() && gameState == ManualEntry && pending == None
      modifies this`secretNumber, this`manualNumber, this`round, this`currentGuess, this`message, this`gameState,
        this`pending
      ensures Valid() && pending == None
      ensures Validate(old(manualNumber)).Rejected? ==>
        message == Refused(Validate(old(manualNumber)).reason) && gameState == ManualEntry
        && manualNumber == old(manualNumber) && secretNumber == old(secretNumber)
        && round == old(round) && currentGuess == old(currentGuess)
      ensures Validate(old(manualNumber)).Accepted? ==>
        secretNumber == Validate(old(manualNumber)).digits && manualNumber == EmptyCells
        && round == FreshRound && currentGuess == EmptyCells && message == Blank
        && gameState == if powerUpsEnabled then PowerUp else Playing
    {
      var checked := Validate(manualNumber);
      if checked.Rejected? {
        message := Refused(checked.reason);
        return;
      }
      secretNumber := checked.digits;
      manualNumber := EmptyCells;
      EmptyCellsFiltered();
      InitializeRound();
    }

    /** A click on a face-down card: the draw is announced and the card comes up later. */
    method SpinPowerUpWheel()
      requires Valid() && gameState == PowerUp && round.activePowerUp == None && pending == None
      modifies this`message, this`pending
      ensures Valid() && message == CardComing && pending == Some(RevealCardTimer)
    {
      message := CardComing;
      pending := Some(RevealCardTimer);
    }

    /**
     * The card comes up (NumberGame.tsx:94-121): it is drawn from the deck, shown,
     * and takes effect as `WithCard` says, the `reveal` card at a position drawn
     * by a second roll. A skipped turn ends the round; any other card leads on
     * to play.
     */
    method RevealCard(cardRoll: real, revealRoll: real)
      requires Valid() && pending == Some(RevealCardTimer) && IsRoll(cardRoll) && IsRoll(revealRoll)
      modifies this`gameState, this`round, this`message, this`pending
      ensures Valid() && gameState == old(gameState)
      ensures var card := DrawCard(partyMode, cardRoll);
        message == CardShown(card)
        && round == WithCard(old(round), card, secretNumber, RandomIndex(revealRoll, 3))
        && pending == Some(if card == SkipTurn then EndRoundTimer else PlayTimer)
    {
      var card := DrawCard(partyMode, cardRoll);
      var position := RandomIndex(revealRoll, 3);
      Commit(gameState, WithCard(round, card, secretNumber, position), CardShown(card),
             Some(if card == SkipTurn then EndRoundTimer else PlayTimer));
    }

    /** The card has been shown long enough: play starts (NumberGame.tsx:123-126). */
    method StartPlaying()
      requires Valid() && pending == Some(PlayTimer)
      modifies this`gameState, this`message, this`pending
      ensures Valid() && gameState == Playing && message == Blank && pending == None
    {
      gameState := Playing;
      message := Blank;
      pending := None;
    }

    /**
     * `checkGuess` (NumberGame.tsx:186-284). A refused guess changes only the
     * message. A valid guess equal to the secret is a lottery win: the player's
     * score becomes 100 and the game ends, with nothing else counted and the
     * cells left as they were. Any other valid guess has its matches counted
     * and is scored as `Score` says; three matches move on to the arrangement.
     */
    method CheckGuess(hintRoll: real)
      requires Valid() && gameState == Playing && pending == None && IsRoll(hintRoll)
      modifies this`message, this`gameState, this`round, this`scores, this`pending, this`currentGuess
      ensures Valid()
      ensures Validate(old(currentGuess)).Rejected? ==>
        message == Refused(Validate(old(currentGuess)).reason) && gameState == Playing && round == old(round)
        && scores == old(scores) && pending == None && currentGuess == old(currentGuess)
      ensures Validate(old(currentGuess)) == Accepted(secretNumber) ==>
        message == LotteryNotice && gameState == Playing && pending == Some(GameOverTimer)
        && scores == old(scores)[currentPlayer := 100]
        && round == old(round).(guesses := old(round).guesses + [GuessRecord(secretNumber, LotteryWin)])
        && currentGuess == old(currentGuess)
      ensures var checked := Validate(old(currentGuess));
        checked.Accepted? && checked.digits != secretNumber ==>
        var matches := Matches(checked.digits, secretNumber);
        var st := Score(old(round), checked.digits, secretNumber, matches, hintRoll);
        round == st.round && message == st.message && pending == st.next
        && scores == Credit(old(scores), currentPlayer, st.points) && currentGuess == EmptyCells
        && gameState == if matches == 3 then Arrangement else Playing
    {
      var checked := Validate(currentGuess);
      if checked.Rejected? {
        message := Refused(checked.reason);
        return;
      }
      var guess := checked.digits;
      if SamePositions(guess, secretNumber) {
        WinLottery();
      } else {
        ScoreGuess(guess, hintRoll);
      }
    }

    /**
     * The lottery branch of `checkGuess` (NumberGame.tsx:199-210): the player's
     * score becomes 100, the win is recorded, and the game ends later.
     */
    method WinLottery()
      requires Valid() && gameState == Playing && pending == None
      modifies this`message, this`gameState, this`round, this`scores, this`pending
      ensures Valid()
      ensures message == LotteryNotice && gameState == Playing && pending == Some(GameOverTimer)
      ensures scores == old(scores)[currentPlayer := 100]
      ensures round == old(round).(guesses := old(round).guesses + [GuessRecord(secretNumber, LotteryWin)])
    {
      scores := scores[currentPlayer := 100];
      Commit(Playing, round.(guesses := round.guesses + [GuessRecord(secretNumber, LotteryWin)]), LotteryNotice,
             Some(GameOverTimer));
    }

    /**
     * The part of `checkGuess` after the lottery check (NumberGame.tsx:212-283):
     * the matches are counted and the guess is scored as `Score` says; three
     * matches move on to the arrangement.
     */
    method ScoreGuess(guess: seq<int>, hintRoll: real)
      requires Valid() && gameState == Playing && pending == None && IsRoll(hintRoll)
      requires IsSecret(guess) && guess != secretNumber
      modifies this`message, this`gameState, this`round, this`scores, this`pending, this`currentGuess
      ensures Valid()
      ensures var matches := Matches(guess, secretNumber);
        var st := Score(old(round), guess, secretNumber, matches, hintRoll);
        round == st.round && message == st.message && pending == st.next
        && scores == Credit(old(scores), currentPlayer, st.points) && currentGuess == EmptyCells
        && gameState == if matches == 3 then Arrangement else Playing
    {
      var matches := CountMatches(guess, secretNumber);
      var st := Score(round, guess, secretNumber, matches, hintRoll);
      ScoreKeepsInvariant(round, guess, secretNumber, matches, hintRoll, Credit(scores, currentPlayer, st.points), currentPlayer);
      scores := Credit(scores, currentPlayer, st.points);
      currentGuess := EmptyCells;
      EmptyCellsFiltered();
      Commit(if matches == 3 then Arrangement else Playing, st.round, st.message, st.next);
    }

    /**
     * `checkArrangement` (NumberGame.tsx:286-347). Only a cell that is not a
     * number is refused, and that changes only the message; an arrangement that
     * parses is scored as `Arrange` says and the cells are cleared.
     */
    method CheckArrangement()
      requires Valid() && gameState == Arrangement && pending == None
      modifies this`gameState, this`message, this`round, this`scores, this`pending, this`currentGuess
      ensures Valid() && gameState == Arrangement
      ensures ParseArrangement(old(currentGuess)).None? ==>
        message == EnterAllThree && round == old(round) && scores == old(scores) && pending == None
        && currentGuess == old(currentGuess)
      ensures ParseArrangement(old(currentGuess)).Some? ==>
        var st := Arrange(old(round), ParseArrangement(old(currentGuess)).value, secretNumber);
        round == st.round && message == st.message && pending == st.next
        && scores == Credit(old(scores), currentPlayer, st.points) && currentGuess == EmptyCells
    {
      var parsed := ParseArrangement(currentGuess);
      if parsed.None? {
        message := EnterAllThree;
        return;
      }
      var st := Arrange(round, parsed.value, secretNumber);
      scores := Credit(scores, currentPlayer, st.points);
      currentGuess := EmptyCells;
      EmptyCellsFiltered();
      Commit(Arrangement, st.round, st.message, st.next);
    }

    /**
     * The follow-up of a correct arrangement (NumberGame.tsx:308-326): at 100
     * points or more the game is over, and a solo win is added to the
     * statistics; below 100 the round ends.
     */
    method SettleArrangement()
      requires Valid() && pending == Some(SettleTimer)
      modifies this`soloStats, this`gameState, this`currentPlayer, this`pending
      ensures Valid() && pending == None
      ensures old(scores[currentPlayer]) >= 100 ==>
        gameState == GameOver && currentPlayer == old(currentPlayer)
        && soloStats == (if playerCount == 1 then SoloWin(old(soloStats), roundsPlayed) else old(soloStats))
      ensures old(scores[currentPlayer]) < 100 ==>
        gameState == Setup && currentPlayer == NextPlayer(old(currentPlayer), playerCount)
        && soloStats == old(soloStats)
    {
      if scores[currentPlayer] >= 100 {
        if playerCount == 1 {
          SoloWinKeepsValid(soloStats, roundsPlayed);
          soloStats := SoloWin(soloStats, roundsPlayed);
        }
        gameState := GameOver;
      } else {
        currentPlayer := NextPlayer(currentPlayer, playerCount);
        gameState := Setup;
      }
      pending := None;
    }

    /** `endRound`: the turn passes to the next seat and the next round is set up. */
    method EndRound()
      requires Valid() && pending == Some(EndRoundTimer)
      modifies this`currentPlayer, this`gameState, this`pending
      ensures Valid() && pending == None && gameState == Setup
      ensures currentPlayer == NextPlayer(old(currentPlayer), playerCount)
    {
      currentPlayer := NextPlayer(currentPlayer, playerCount);
      gameState := Setup;
      pending := None;
    }

    /** The follow-up of a lottery win: the game is over (NumberGame.tsx:208). */
    method ShowGameOver()
      requires Valid() && pending == Some(GameOverTimer)
      modifies this`gameState, this`pending
      ensures Valid() && pending == None && gameState == GameOver
    {
      gameState := GameOver;
      pending := None;
    }

    /**
     * `resetGame`: scores, seat, round count and names are cleared and the menu
     * is back; the solo statistics and the settings survive.
     */
    method ResetGame()
      requires Valid() && gameState != Menu && pending == None
      modifies this`scores, this`currentPlayer, this`roundsPlayed, this`playerNames, this`gameState
      ensures Valid() && gameState == Menu
      ensures scores == [0, 0, 0, 0] && currentPlayer == 0 && roundsPlayed == 0 && playerNames == ["", "", "", ""]
      ensures soloStats == old(soloStats)
    {
      scores := [0, 0, 0, 0];
      currentPlayer := 0;
      roundsPlayed := 0;
      playerNames := ["", "", "", ""];
      gameState := Menu;
    }

    /**
     * `handleInputChange`: a value typed into cell `index` of the manual-entry or
     * the guess row is stored only when it is empty or a digit 1-9.
     */
    method HandleInputChange(index: nat, value: string, isManual: bool)
      requires Valid() && index < 3 && CellShaped(value)
      modifies this`manualNumber, this`currentGuess
      ensures Valid()
      ensures AcceptsInput(value) && isManual ==>
        manualNumber == old(manualNumber)[index := value] && currentGuess == old(currentGuess)
      ensures AcceptsInput(value) && !isManual ==>
        currentGuess == old(currentGuess)[index := value] && manualNumber == old(manualNumber)
      ensures !AcceptsInput(value) ==> manualNumber == old(manualNumber) && currentGuess == old(currentGuess)
    {
      if value == "" || ('1' <= value[0] <= '9') {
        if isManual {
          FilteredUpdate(manualNumber, index, value);
          manualNumber := manualNumber[index := value];
        } else {
          FilteredUpdate(currentGuess, index, value);
          currentGuess := currentGuess[index := value];
        }
      }
    }
  }
}
