/**
 * The power-up cards and the draw of one of them (NumberGame.tsx:59-76, 94-96).
 */
module PowerUps {
  import opened Common

  /** The cards, by their `id`. */
  datatype PowerUpId =
    | ExtraGuess        // 'extra-guess'
    | ExtraArrangement  // 'extra-arrangement'
    | LoseGuess         // 'lose-guess'
    | Reveal            // 'reveal'
    | DoublePoints      // 'double-points'
    | Wildcard          // 'wildcard'
    | SkipTurn          // 'skip-turn'
    | HideHistory       // 'hide-history'
    | Chug2             // 'chug-2'
    | Chug5             // 'chug-5'
    | FinishDrink       // 'finish-drink'
    | DrinkAndGuess     // 'drink-and-guess'
    | DoubleOrNothing   // 'double-nothing'

  /** `powerUps`, in the order the source lists them. */
  const BaseCards: seq<PowerUpId> :=
    [ExtraGuess, ExtraArrangement, LoseGuess, Reveal, DoublePoints, Wildcard, SkipTurn, HideHistory]

  /** `partyPowerUps`: drinking cards with no effect on the game beyond their message. */
  const PartyCards: seq<PowerUpId> := [Chug2, Chug5, FinishDrink, DrinkAndGuess, DoubleOrNothing]

  predicate IsPartyCard(c: PowerUpId)
  {
    c.Chug2? || c.Chug5? || c.FinishDrink? || c.DrinkAndGuess? || c.DoubleOrNothing?
  }

  /** `partyMode ? [...powerUps, ...partyPowerUps] : powerUps` */
  function Deck(party: bool): (d: seq<PowerUpId>)
    ensures |d| == if party then 13 else 8
    ensures forall c :: c in d <==> party || !IsPartyCard(c)
  {
    var d := if party then BaseCards + PartyCards else BaseCards;
    assert forall c :: !IsPartyCard(c) ==> c in BaseCards by {
      assert BaseCards == [ExtraGuess, ExtraArrangement, LoseGuess, Reveal, DoublePoints, Wildcard, SkipTurn, HideHistory];
    }
    assert forall c :: IsPartyCard(c) ==> c in PartyCards;
    d
  }

  /** `allPowerUps[Math.floor(Math.random() * allPowerUps.length)]` */
  function DrawCard(party: bool, roll: real): (c: PowerUpId)
    requires IsRoll(roll)
    ensures c in Deck(party)
    ensures !party ==> !IsPartyCard(c)
  {
    var deck := Deck(party);
    deck[RandomIndex(roll, |deck|)]
  }

  /** Every card of the deck can come up: the party cards exactly when party mode is on. */
  lemma EveryCardDrawable(party: bool, c: PowerUpId)
    requires party || !IsPartyCard(c)
    ensures exists roll :: IsRoll(roll) && DrawCard(party, roll) == c
  {
    var deck := Deck(party);
    assert c in deck;
    var i :| 0 <= i < |deck| && deck[i] == c;
    RandomIndexReaches(i, |deck|);
    assert DrawCard(party, i as real / |deck| as real) == c;
  }
}
