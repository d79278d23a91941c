// How the players' combo-reservation tables line up with the sprite
// manager's chain table: a reservation is only useful in a state the
// sprite manager can chain from.

module ComboConsistency {
  import opened Common
  import Player
  import PlayerLeft
  import PlayerRight
  import SpriteManager

  /** The base player reserves exactly in the states the sprite manager chains from. */
  lemma BaseEligibleIsChainable(characterType: string, state: string)
    ensures Player.ComboEligible(characterType, state) <==> SpriteManager.Chainable(characterType, state)
  {
  }

  /** Every left-player reservation state is chainable; the fighter's strong upper attack is the one chain it cannot reserve. */
  lemma LeftEligibleIsChainable(characterType: string, state: string)
    ensures PlayerLeft.ComboEligible(characterType, state) ==> SpriteManager.Chainable(characterType, state)
    ensures SpriteManager.Chainable(characterType, state) && !PlayerLeft.ComboEligible(characterType, state)
            <==> characterType == Fighter && state == StrongUpperATK
  {
  }

  /** Every right-player reservation state is chainable; the right player cannot reserve the thief's strong upper attack or any fighter chain. */
  lemma RightEligibleIsChainable(characterType: string, state: string)
    ensures PlayerRight.ComboEligible(characterType, state) ==> SpriteManager.Chainable(characterType, state)
    ensures SpriteManager.Chainable(characterType, state) && !PlayerRight.ComboEligible(characterType, state)
            <==> (characterType == Thief && state == StrongUpperATK) || (characterType == Fighter && SpriteManager.Chainable(Fighter, state))
  {
  }
}
