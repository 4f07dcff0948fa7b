// The state the application starts from (and restores on a reset).

module InitialState {
  import opened Wrappers
  import opened Constants
  import opened Rules
  import opened State

  /** The setup screen in normal mode, two players planned, none created yet. */
  function CreateInitialState(): (s: GameState)
    ensures s.turn == FreshTurn(Normal)
  {
    GameState(SetupScreen, Normal, 2, [], 0, 1, None, None, FreshTurn(Normal), 0, None)
  }

  /** The initial state: setup screen, normal mode, two players planned and none
      created, index 0, round 1, no end game, no winner, no collected skulls. */
  lemma InitialStateFacts(s: GameState)
    requires s == CreateInitialState()
    ensures s.screen == SetupScreen && s.mode == Normal && s.numPlayers == 2 && s.players == []
    ensures s.currentPlayerIndex == 0 && s.round == 1 && s.finalPhase == None && s.winnerId == None
    ensures s.collectedSkulls == 0 && s.lastError == None
  {
  }

  /** The initial turn has no card and no dice, agrees with the turn rules, and
      can be neither confirmed nor worth anything. */
  lemma InitialTurnFacts(s: GameState)
    requires s == CreateInitialState()
    ensures s.turn.fortune == NoCard && s.turn.dice == InitDiceCounts() && s.turn.chest == InitDiceCounts()
    ensures s.turn.computed == ComputeTurn(s.mode, s.turn.fortune, s.turn.dice)
    ensures !s.turn.computed.canConfirm && s.turn.computed.points == 0
  {
    FreshTurnCannotConfirm(Normal);
  }
}
