/**
 * The scoring rules: points for finding the digits, the consolation when the
 * guesses run out, the arrangement bonus, and the solo statistics a win updates
 * (NumberGame.tsx:257-260, 266-268, 297-299, 312-322).
 */
module Scoring {
  import opened Common

  function Min(a: int, b: int): int
  {
    if a <= b then a else b
  }

  function Max(a: int, b: int): int
  {
    if a >= b then a else b
  }

  /** The `double-points` card doubles what the round pays. */
  function Multiplier(doubled: bool): (m: nat)
    ensures 1 <= m <= 2 && (m == 2 <==> doubled)
  {
    if doubled then 2 else 1
  }

  /** `[50, 40, 30, 20, 10]`: points for finding all three digits, by the number of earlier guesses. */
  const FindingTable: seq<nat> := [50, 40, 30, 20, 10]

  /**
   * `findingPoints * multiplier`: the table entry for the earlier guesses, the
   * fifth and later guesses all paying the last entry.
   */
  function FindingPoints(previous: nat, doubled: bool): (p: nat)
    ensures p == Multiplier(doubled) * (50 - 10 * Min(previous, 4))
  {
    FindingTable[Min(previous, 4)] * Multiplier(doubled)
  }

  /** Finding the digits pays between 10 and 50, doubled under double-points, less for every earlier guess. */
  lemma FindingPointsRange(previous: nat, later: nat, doubled: bool)
    requires previous <= later
    ensures 10 * Multiplier(doubled) <= FindingPoints(later, doubled) <= FindingPoints(previous, doubled) <= 50 * Multiplier(doubled)
    ensures previous < later <= 4 ==> FindingPoints(later, doubled) < FindingPoints(previous, doubled)
  {
  }

  /**
   * The consolation when the last guess misses: 5, 4 or 3 points for a best
   * count of 2, 1 or anything else, times the multiplier.
   */
  function Consolation(best: nat, doubled: bool): (p: nat)
    ensures best <= 2 ==> p == Multiplier(doubled) * (3 + best)
    ensures best > 2 ==> p == 3 * Multiplier(doubled)
  {
    var base := if best == 2 then 5 else if best == 1 then 4 else 3;
    base * Multiplier(doubled)
  }

  /** Finding the digits, however late, always pays more than any consolation. */
  lemma ConsolationBelowFinding(best: nat, previous: nat, doubled: bool)
    ensures Consolation(best, doubled) < FindingPoints(previous, doubled)
  {
    FindingPointsRange(previous, previous, doubled);
  }

  /** The arrangement bonus: 10 with 3 or 2 attempts left, 5 otherwise. */
  function ArrangementBonus(remaining: int): (p: nat)
    ensures p == 10 <==> remaining == 2 || remaining == 3
    ensures p == 5 <==> !(remaining == 2 || remaining == 3)
  {
    if remaining == 3 then 10 else if remaining == 2 then 10 else 5
  }

  /** `SoloStats`: wins, the fewest rounds a win took (`null` when none), and the streaks. */
  datatype SoloStats = SoloStats(gamesWon: nat, bestRounds: Option<int>, currentStreak: nat, bestStreak: nat)

  /** `{ gamesWon: 0, bestRounds: null, currentStreak: 0, bestStreak: 0 }` */
  const FreshStats := SoloStats(0, None, 0, 0)

  /** The best streak is never below the current one. */
  predicate StatsValid(s: SoloStats)
  {
    s.currentStreak <= s.bestStreak
  }

  /**
   * `!newStats.bestRounds || roundsPlayed < newStats.bestRounds`: JavaScript
   * treats both `null` and `0` as unset.
   */
  predicate BestRoundsBeaten(best: Option<int>, roundsPlayed: nat)
  {
    best == None || best == Some(0) || roundsPlayed < best.value
  }

  /** Once a best is recorded, a win keeps the fewer of the best and the rounds this win took. */
  lemma BestRoundsKeepsFewest(s: SoloStats, best: nat, roundsPlayed: nat)
    requires s.bestRounds == Some(best) && best > 0
    ensures SoloWin(s, roundsPlayed).bestRounds == Some(Min(best, roundsPlayed))
  {
  }

  /** The solo statistics after a win that took `roundsPlayed` rounds. */
  function SoloWin(s: SoloStats, roundsPlayed: nat): (r: SoloStats)
    ensures r.gamesWon == s.gamesWon + 1 && r.currentStreak == s.currentStreak + 1
    ensures r.bestStreak == Max(s.bestStreak, s.currentStreak + 1)
    ensures r.bestRounds == if BestRoundsBeaten(s.bestRounds, roundsPlayed) then Some(roundsPlayed) else s.bestRounds
  {
    var won := s.(gamesWon := s.gamesWon + 1, currentStreak := s.currentStreak + 1);
    var streaked := if won.currentStreak > won.bestStreak then won.(bestStreak := won.currentStreak) else won;
    if BestRoundsBeaten(streaked.bestRounds, roundsPlayed) then streaked.(bestRounds := Some(roundsPlayed)) else streaked
  }

  /** A win keeps the best streak at or above the current streak. */
  lemma SoloWinKeepsValid(s: SoloStats, roundsPlayed: nat)
    requires StatsValid(s)
    ensures StatsValid(SoloWin(s, roundsPlayed))
    ensures SoloWin(s, roundsPlayed).bestStreak >= s.bestStreak
  {
  }

  /** The statistics after a run of wins, the `i`-th taking `rounds[i]` rounds. */
  function Wins(s: SoloStats, rounds: seq<nat>): SoloStats
    decreases |rounds|
  {
    if rounds == [] then s else SoloWin(Wins(s, rounds[..|rounds| - 1]), rounds[|rounds| - 1])
  }

  /** The smallest of a non-empty list of round counts. */
  function MinOf(rounds: seq<nat>): (m: nat)
    requires rounds != []
    ensures m in rounds && forall i :: 0 <= i < |rounds| ==> m <= rounds[i]
    decreases |rounds|
  {
    if |rounds| == 1 then rounds[0]
    else
      var init := rounds[..|rounds| - 1];
      var m := MinOf(init);
      assert forall i :: 0 <= i < |init| ==> init[i] == rounds[i];
      Min(m, rounds[|rounds| - 1])
  }

  /**
   * From fresh statistics, a run of wins (each taking at least one round) counts
   * every win, the streak never breaks, and the best rounds is the fewest any
   * win took. Nothing in the game resets `currentStreak`.
   */
  lemma {:induction false} WinsFromFresh(rounds: seq<nat>)
    requires rounds != [] && forall i :: 0 <= i < |rounds| ==> rounds[i] > 0
    ensures Wins(FreshStats, rounds) == SoloStats(|rounds|, Some(MinOf(rounds)), |rounds|, |rounds|)
    decreases |rounds|
  {
    var init := rounds[..|rounds| - 1];
    var last := rounds[|rounds| - 1];
    if init == [] {
      assert Wins(FreshStats, init) == FreshStats;
    } else {
      assert forall i :: 0 <= i < |init| ==> init[i] == rounds[i];
      WinsFromFresh(init);
      assert MinOf(rounds) == Min(MinOf(init), last);
    }
  }
}
