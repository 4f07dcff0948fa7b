// The shape of the game state that the reducer rewrites and the initial
// state creates: screens, players, the current turn and the end-game phase.

module State {
  import opened Wrappers
  import opened Constants
  import opened Rules
  import opened RulesProperties

  /** The screens the application can show. */
  datatype Screen = SetupScreen | NamesScreen | TurnScreen | SkullIslandScreen | FinishedScreen | TestsScreen

  /** A player; the identifier is only ever compared for equality. */
  datatype Player = Player(id: nat, name: string, score: int)

  /** The end-game countdown, started by the first player to reach the target. */
  datatype FinalPhase = FinalPhase(triggerPlayerId: nat, turnsRemaining: int, leaderExtraTurn: bool)

  /** The turn being entered: the card, the physical dice, the stash and the derived view. */
  datatype Turn = Turn(fortune: Fortune, dice: Dice, chest: Dice, computed: TurnComputed)

  /** The error recorded when a chest turn cannot be confirmed. */
  datatype LastError = NeedEightDice | InvalidChest(reasons: seq<ChestReason>)

  datatype GameState = GameState(
    screen: Screen,
    mode: Mode,
    numPlayers: nat,
    players: seq<Player>,
    currentPlayerIndex: nat,
    round: nat,
    finalPhase: Option<FinalPhase>,
    winnerId: Option<nat>,
    turn: Turn,
    collectedSkulls: nat,
    lastError: Option<LastError>)

  /** A turn with no card, no dice and an empty chest, evaluated in `mode`. */
  function FreshTurn(mode: Mode): Turn
  {
    Turn(NoCard, InitDiceCounts(), InitDiceCounts(), ComputeTurn(mode, NoCard, InitDiceCounts()))
  }

  /** A fresh turn can be neither confirmed nor worth anything, in either mode. */
  lemma FreshTurnCannotConfirm(mode: Mode)
    ensures !FreshTurn(mode).computed.canConfirm && FreshTurn(mode).computed.points == 0
  {
    EmptyTurn(mode, NoCard, InitDiceCounts());
  }
}
