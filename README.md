# Isla Calavera scorekeeper — rule engine and game reducer in Dafny

This project models the core of a scorekeeper for a pirate push-your-luck
dice game. It covers two parts:

- **The dice-rule engine.** Dice are tallies over six symbols: skull, saber,
  monkey, parrot, gold and diamond. The engine scores a tally under one of
  twelve fortune cards. It decides whether a turn may be confirmed: Skull
  Island at 4 or more skulls, early death at exactly 3, otherwise all 8
  dice. It also validates and auto-fills the chest, the stash that is
  salvaged on a bust.
- **The game reducer.** This is the `(state, action) -> state` function
  that drives the application. It creates and names players, starts the
  game and each turn, and records dice and the stash. It confirms turns,
  applies the Skull Island penalty, advances play, and runs the end-game
  countdown that starts when a player reaches 6000 points.

The files are:

- `constants.dfy` (module `Constants`): the symbols, the cards, the set-bonus
  table, the symbols a chest may hold and the target score.
- `rules.dfy` (module `Rules`): each engine operation as a function. Where
  the original builds its result with a loop over keys, a method with that
  loop is proved to return exactly the function's value. These loops are in
  merging, chest validation, set scoring, chest auto-fill and the turn gate.
- `rules_properties.dfy` (module `RulesProperties`): the properties of the
  engine, and the engine's worked values from the game's own test cases.
- `game_state.dfy` (module `State`), `initial_state.dfy` (module
  `InitialState`): the state record and the state the application starts in.
- `game_reducer.dfy` (module `GameReducer`): `Step`, and the procedures of the
  original as methods proved equal to their functions. These are the
  Skull Island penalty loop, the player searches, advancing after a scored
  turn, and turn confirmation.
- `reducer_properties.dfy` (module `ReducerProperties`): what each action
  does, the end-game rules, and an invariant on the current turn that every
  action keeps.

Modelling choices:

- Player identifiers are naturals. `GO_NAMES` gives player `i` the
  identifier `i`, and the model only compares identifiers for equality.
- The random start index is a parameter `draw`, reduced modulo the number of
  players.
- `RESET_GAME` carries the state it restores.
- An action type the reducer does not know is `Other`, and leaves the state
  unchanged.
- In the original, a few reads hit a missing player and raise a `TypeError`:
  confirming or applying Skull Island with no player at the current index,
  or ending the final phase when the trigger player is gone. `Step` has a
  precondition, `StepDefined`, that excludes those states. It also excludes
  applying Skull Island with no players at all: there the original raises
  no error, but the next index becomes `1 % 0`, which is NaN and is not a
  natural number.
- The engine's quirks are kept as written and stated as lemmas:
  - A failed ship card is clamped inside the engine.
  - The skull cards' bonus suppression can never trigger through the turn
    gate.
  - The chest confirm's "not 8 dice" and "4 or more skulls" guards are
    unreachable while the derived view matches the dice.
  - Skull Island turns do not count down the final phase.
  - The extra turn goes to the trigger player, not the leader.
  - Ties go to the first player in list order.
  - `lastError` is never cleared except by a reset.

## Model

| member | source | states |
|---|---|---|
| `Constants.SetPointsValues` | src/engine/constants.js:27 | The set table is defined exactly for sizes 3 to 8, worth 100, 200, 500, 1000, 2000 and 4000; other sizes are worth 0 |
| `Constants.SetPointsIncreasing` | src/engine/constants.js:27 | A larger set in the table is worth strictly more |
| `Constants.ChestAllowedIsNonSkull` | src/engine/constants.js:10 | The chest may hold exactly the five symbols other than the skull |
| `Constants.FortuneTableDistinct` | src/engine/constants.js:12-25 | There are twelve cards, every card is listed, and the keys are pairwise distinct |
| `Constants.DiceTypesDistinct` | src/engine/constants.js:1-8 | There are six symbols, every symbol is listed, and the keys are pairwise distinct |
| `Rules.ClampScore` | src/engine/rules.js:11-14 | Hardcore keeps the score; normal mode gives the score if it is non-negative and 0 otherwise |
| `RulesProperties.ClampScoreIdempotent` | src/engine/rules.js:11-14 | Clamping is idempotent, never lowers a score, and is max(0, s) in normal mode |
| `RulesProperties.TotalDiceIsKeySum` | src/engine/rules.js:7-9 | The dice total is the sum of the counts over the dice table |
| `RulesProperties.FortuneBaseDice` | src/engine/rules.js:16-23 | The gold card grants one coin and the diamond card one diamond; skull1 grants one skull and skull2 two; no other card grants a die |
| `Rules.MergeDice` | src/engine/rules.js:25-31 | The loop over the keys yields the key-wise sum of the two tallies |
| `RulesProperties.MergeLaws` | src/engine/rules.js:25-31 | Merging adds the totals, is commutative, and has the empty tally as unit |
| `Rules.ValidateChest` | src/engine/rules.js:33-50 | The selection is accepted iff it has no skull, no stashable key exceeds the roll and at most 8 are stashed; reasons are empty iff accepted; on acceptance the sum is the stashed total |
| `Rules.ValidateChestSelection` | src/engine/rules.js:33-50 | The loop with a running sum returns exactly the validator's answer, including the sum at which it stopped |
| `RulesProperties.ChestWithSkullRejected` | src/engine/rules.js:34-36 | A selection holding a skull is refused with the skull reason |
| `RulesProperties.ChestWithinRollAccepted` | src/engine/rules.js:37-49 | A skull-free selection within a roll of at most 8 dice is accepted, with the stashed total as its sum |
| `RulesProperties.ChestValidationExamples` | src/screens/Tests.jsx:318-352 | CHEST-001 to CHEST-003: a skull is refused; three coins against two rolled are refused at gold with sum 3; a valid stash is accepted with sum 3 |
| `Rules.PointsFromDice` | src/engine/rules.js:52-119 | The result is a bust iff there are 3 or more skulls, and a bust scores 0 with no bonus. The multiplier is 2 only under the pirate card. The bonus is 0 or 500. The points are negative only for a failed ship card in hardcore mode |
| `Rules.SumSetScore` | src/engine/rules.js:79-82 | The accumulation loop over the set groups yields the set score |
| `Rules.ComputePointsFromDice` | src/engine/rules.js:52-119 | The step-by-step scoring, with its setTypes list and the ship's early return, equals the scoring function |
| `RulesProperties.SetScoreByGroup` | src/engine/rules.js:66-82 | The set score is the sum over monkey and parrot (or their sum under animals), saber, gold and diamond |
| `RulesProperties.GroupPointsTable` | src/engine/rules.js:81 | A group is worth its table value for 3 to 8 symbols and 0 otherwise |
| `RulesProperties.BustScoresZero` | src/engine/rules.js:56-62 | Three or more skulls give 0 points, bust and no bonus, whatever the mode or card |
| `RulesProperties.PlainCardScore` | src/engine/rules.js:64-118 | Under a card that does not change the scoring, the points are 100 × (gold + diamond) plus the sets, plus 500 when there is no skull and something scored |
| `RulesProperties.PirateDoubles` | src/engine/rules.js:58-110 | The same dice score exactly twice as much under the pirate card as with no card |
| `RulesProperties.ShipCardPasses` | src/engine/rules.js:84-110 | A ship card with enough sabers adds its value to face and sets, and keeps the 500 bonus when there is no skull |
| `RulesProperties.ShipCardFails` | src/engine/rules.js:90-101 | A ship card without enough sabers scores only the clamped negated value and discards face, sets and bonus: 0 in normal mode, minus the value in hardcore |
| `RulesProperties.SkullCardNoBonus` | src/engine/rules.js:112-116 | Under a skull card the points are face plus sets, and there is no bonus |
| `RulesProperties.SkullCardSuppressionUnreachable` | src/engine/rules.js:103-116 | Through the turn gate the merged dice always hold the skull card's own skull, so the raw bonus is already 0 and the skull card scores like no card |
| `RulesProperties.NormalModeScoresNonNegative` | src/engine/rules.js:96-99 | In normal mode scoring is never negative, because a failed ship card is clamped inside the engine |
| `RulesProperties.ScoringExamplesPlain` | src/screens/Tests.jsx:155-196 | SCORE-001 to SCORE-004: 8 gold give 5300; the other three rolls give 1000, 500 and 700 |
| `RulesProperties.ScoringExamplesCards` | src/screens/Tests.jsx:199-280 | PIRATE-001 gives 2000. ANIMALS-001/002 give 900 with the card and 800 without. SKULLCARD-001 gives 500 |
| `RulesProperties.ScoringExamplesShips` | src/screens/Tests.jsx:284-313 | SHIP-001 to SHIP-003: ship2 met gives 1300; ship2 failed gives 0 in normal mode and -300 in hardcore |
| `Rules.SkullIslandPenaltyPerSkull` | src/engine/rules.js:121-124 | The penalty is 200 per skull exactly under the pirate card and 100 otherwise |
| `Rules.BestUpTo` | src/engine/rules.js:130-136 | The search keeps the first candidate with the strictly highest count; no key is chosen iff every count is 0 |
| `Rules.FindBestCandidate` | src/engine/rules.js:130-136 | The search loop returns the first candidate with the highest count |
| `Rules.Without` | src/engine/rules.js:149-150 | Filtering removes exactly the primary set from the candidates |
| `Rules.SortByCountDesc` | src/engine/rules.js:151 | Sorting by descending count is a permutation of its input |
| `RulesProperties.SortDescending` | src/engine/rules.js:151 | The sorted keys go from the most to the fewest dice |
| `RulesProperties.SortStable` | src/engine/rules.js:151 | The sort is stable: for every count, the keys with that count keep their order from the input |
| `RulesProperties.RefillOrderSorted` | src/engine/rules.js:149-159 | The top-up visits the candidates other than the primary set from the most to the fewest dice, with ties in the order saber, monkey, parrot |
| `Rules.Refill` | src/engine/rules.js:153-159 | The refill changes only the keys it visits, each to at most its rolled count |
| `RulesProperties.RefillTotal` | src/engine/rules.js:153-159 | The refill adds at most the remaining room to the chest's total |
| `RulesProperties.RefillAmounts` | src/engine/rules.js:153-159 | Over distinct keys, the key at position i takes the smaller of its dice and the room left once every earlier key took all of its dice; with no room left the loop has stopped and the key keeps its old count |
| `Rules.RefillLoop` | src/engine/rules.js:153-159 | The loop with its remaining count and early break equals the refill |
| `Rules.ClampChest` | src/engine/rules.js:162-165 | The final pass zeroes the skull and cuts each stashable count to the roll |
| `Rules.ClampLoop` | src/engine/rules.js:162-165 | The loop over the stashable keys equals the final pass |
| `Rules.SeedChest` | src/engine/rules.js:128-143 | The seeding steps give the seeded chest and the primary candidate |
| `Rules.ChestAutoSuggest` | src/engine/rules.js:127-167 | The auto-fill procedure returns exactly the suggestion function |
| `Rules.FillChest` | src/engine/rules.js:128-160 | Seeding the chest and topping it up with the other candidates gives exactly the filled chest before clamping |
| `Rules.RefillSeeded` | src/engine/rules.js:145-160 | Topping up a seeded chest up to eight dice in the given order gives exactly the refill function |
| `RulesProperties.BestNotRefilled` | src/engine/rules.js:149-150 | The primary set is never handed to the refill |
| `RulesProperties.RefillOrderCandidates` | src/engine/rules.js:149-159 | The refill visits only the set candidates, never gold, diamond or skull |
| `RulesProperties.SeededChestCounts` | src/engine/rules.js:138-143 | The seed holds all coins and diamonds, and holds the primary set whole iff it has 3 or more dice |
| `RulesProperties.AutoSuggestWithinRoll` | src/engine/rules.js:162-165 | The suggestion never stashes a skull, nor more of a symbol than was rolled |
| `RulesProperties.AutoSuggestPrimarySet` | src/engine/rules.js:127-166 | The suggestion stashes every coin and diamond. A primary set of 3 or more is stashed whole; one with fewer is not stashed at all |
| `RulesProperties.AutoSuggestValid` | src/engine/rules.js:127-166 | On a roll of at most 8 dice the suggestion passes the validator |
| `RulesProperties.RefillBudget` | src/engine/rules.js:137-151 | The seeded chest and all refill keys together hold at most the roll's dice; the refill keys are distinct, not skulls and empty in the seed |
| `RulesProperties.AutoSuggestRefillsWhole` | src/engine/rules.js:145-166 | On a roll of at most 8 dice every key the refill visits is stashed whole, so the 8-dice room never cuts a legal roll and the suggestion is fixed with the primary set, coins and diamonds |
| `Rules.ComputeTurnSteps` | src/engine/rules.js:173-221 | The step-by-step construction of the turn result equals the turn function |
| `RulesProperties.TurnGating` | src/engine/rules.js:173-215 | Skull Island holds iff skulls, counting the card's, are 4 or more; it implies confirm, 0 points and the base skulls. Early death holds iff exactly 3 skulls and the card is not chest; it implies confirm and 0 points. Without confirm there are not 8 dice and 0 points |
| `RulesProperties.TurnScoresFullRoll` | src/engine/rules.js:206-219 | A confirmable turn that is neither Skull Island nor early death has 8 dice and scores the merged tally |
| `RulesProperties.TurnPirateDoubles` | src/engine/rules.js:173-219 | A turn under the pirate card is worth exactly twice the same turn with no card |
| `RulesProperties.EmptyTurn` | src/engine/rules.js:178-209 | With no physical dice, no card makes the turn confirmable, and it scores 0 |
| `RulesProperties.TurnExampleIncomplete` | src/screens/Tests.jsx:99-107 | TURN-001: four dice without skulls cannot be confirmed and score 0 |
| `RulesProperties.TurnExampleEarlyDeath` | src/screens/Tests.jsx:109-118 | TURN-002: three skulls are an early death that can be confirmed for 0 |
| `RulesProperties.TurnExampleSkullIsland` | src/screens/Tests.jsx:120-139 | TURN-003/004: four skulls open Skull Island, not early death |
| `RulesProperties.TurnExampleSkullCard` | src/screens/Tests.jsx:270-280 | SKULLCARD-001: under skull1 the roll worth 1000 with no card is worth 500 |
| `RulesProperties.ChestGuardsUnreachable` | src/state/gameReducer.js:188-197 | Under the chest card, a confirmable turn that is not Skull Island has fewer than 4 skulls and exactly 8 dice |
| `State.FreshTurnCannotConfirm` | src/state/gameReducer.js:29-43 | A freshly started turn can neither be confirmed nor score |
| `InitialState.CreateInitialState` | src/state/initialState.js:3-23 | The initial turn is the fresh turn in normal mode |
| `InitialState.InitialStateFacts` | src/state/initialState.js:5-21 | The initial state has the setup screen, normal mode, 2 planned players and none created. The index is 0 and the round 1. There is no final phase, no winner and no collected skull |
| `InitialState.InitialTurnFacts` | src/state/initialState.js:14-18 | The initial turn has no card, empty dice and stash, and an agreeing view that cannot confirm and scores 0 |
| `ReducerProperties.InitialStateInv` | src/state/initialState.js:3-23 | The initial state satisfies the turn invariant |
| `ReducerProperties.TrimStartShape` | src/state/gameReducer.js:76 | Leading trimming drops only white space and leaves no leading white space |
| `ReducerProperties.TrimEndShape` | src/state/gameReducer.js:76 | Trailing trimming drops only white space and leaves no trailing white space |
| `GameReducer.NewName` | src/state/gameReducer.js:76 | The new name is the current name if the trimmed input is empty. Otherwise it is a non-empty prefix of the trimmed input of at most 24 UTF-16 code units, and the next character would not fit. It is the whole trimmed input when that fits |
| `GameReducer.Utf16PrefixFits` | src/state/gameReducer.js:76 | The cut to a number of UTF-16 code units is a prefix that fits, the next character would overflow it, and a string that fits is kept whole |
| `ReducerProperties.NewNameCountsCodeUnits` | src/state/gameReducer.js:76 | Thirteen characters outside the basic plane (26 code units) are cut to twelve |
| `ReducerProperties.TrimShape` | src/state/gameReducer.js:76 | Trimming keeps a contiguous piece of the input: only white space lies outside it, and neither of its ends is white space |
| `ReducerProperties.TrimIdempotent` | src/state/gameReducer.js:76 | Trimming twice is trimming once |
| `ReducerProperties.NewNameShape` | src/state/gameReducer.js:76 | A new name is the current one, or 1 to 24 characters taking at most 24 UTF-16 code units and not starting with white space |
| `GameReducer.RenamePlayer` | src/state/gameReducer.js:74-79 | Only the player at the index is renamed; an index outside the table renames no one |
| `ReducerProperties.RenameOnlyTarget` | src/state/gameReducer.js:74-79 | SET_PLAYER_NAME changes only names, and only the name at the index |
| `GameReducer.GoNamesPlayers` | src/state/gameReducer.js:61-72 | Exactly n players are created, each with a default name and score 0 |
| `ReducerProperties.GoNamesCreatesPlayers` | src/state/gameReducer.js:61-72 | GO_NAMES moves to the names screen with numPlayers players, all at 0 and with distinct identifiers |
| `GameReducer.RandInt` | src/state/gameReducer.js:23 | The start index lies inside the table, and is 0 when the table is empty |
| `ReducerProperties.StartGameFacts` | src/state/gameReducer.js:81-91 | START_GAME sets round 1, clears the final phase and winner, and opens a fresh turn with no card at an index inside the table |
| `ReducerProperties.AdjustDieFacts` | src/state/gameReducer.js:108-132 | A die adjustment that would put more than 8 dice on the table changes nothing. Otherwise the count becomes max(0, count + delta), the other counts stay, and the view is recomputed from the new dice. Under the chest card each stash count becomes the smaller of itself and the new dice, with no skull. Without it the stash is untouched |
| `ReducerProperties.AdjustDieClampsChest` | src/state/gameReducer.js:114-121 | Under the chest card a stash within the roll stays within it, with no skull, and each count is the smaller of the old count and the new dice, whether or not the adjustment was ignored |
| `ReducerProperties.SetChestCountFacts` | src/state/gameReducer.js:134-144 | Without the chest card, or for skulls, nothing changes. Otherwise the count is the value clamped to [0, rolled], the stash's skull goes to 0, and nothing else changes |
| `ReducerProperties.ChestAutoFacts` | src/state/gameReducer.js:146-150 | Without the chest card CHEST_AUTO leaves the state unchanged; with it the stash becomes the suggestion for the dice and nothing else changes; on at most 8 dice that stash passes the validator |
| `ReducerProperties.SkullIslandAdjustFacts` | src/state/gameReducer.js:157-161 | The collected skulls move by delta but never below 0; nothing else changes |
| `GameReducer.IndexOfId` | src/state/gameReducer.js:291 | The search gives the first position with the identifier, or -1 exactly when there is none |
| `GameReducer.FindIndexOfId` | src/state/gameReducer.js:291 | The search loop equals the search function |
| `GameReducer.LeaderUpTo` | src/state/gameReducer.js:287 | The kept player has the highest score, and every earlier player scores strictly less |
| `GameReducer.FindLeader` | src/state/gameReducer.js:287 | The reduce loop yields the first player with the highest score |
| `ReducerProperties.LeaderIsFirstMax` | src/state/gameReducer.js:287 | The leader has the highest score and ties go to the earliest player |
| `GameReducer.WinnerIdFromPlayers` | src/state/gameReducer.js:25-27 | There is no winner iff there are no players; otherwise the winner is a first player with the highest score |
| `GameReducer.AdvanceIndex` | src/state/gameReducer.js:262-267 | The index moves to the next player, wrapping to 0. The round grows exactly on the wrap |
| `GameReducer.NextFinalPhase` | src/state/gameReducer.js:273-281 | The final phase starts only when none exists and the scorer has at least 6000, with n-1 turns and no extra turn. Afterwards only a non-trigger scorer decrements it, and it is never recreated |
| `GameReducer.AdvanceAfterScoringSteps` | src/state/gameReducer.js:269-301 | The original's sequence of assignments equals the advancement function |
| `ReducerProperties.AdvanceKeeps` | src/state/gameReducer.js:262-301 | Advancing keeps the players, mode, skulls and error, and leaves the index inside the table. It either finishes the game or opens a fresh turn |
| `ReducerProperties.AdvanceOrdinary` | src/state/gameReducer.js:262-300 | Without a final phase and below the target, play passes to the next player and the round grows on a wrap |
| `ReducerProperties.FinalPhaseStarts` | src/state/gameReducer.js:275-276 | The first scorer to reach the target starts the final phase with n-1 turns for the others, and play passes on |
| `ReducerProperties.SoloReachesTarget` | src/state/gameReducer.js:269-298 | A lone player who reaches the target finishes the game as the winner |
| `ReducerProperties.FinalPhaseCountdown` | src/state/gameReducer.js:277-281 | A running final phase keeps its trigger. It counts down only for other players, and keeps its flag and the turn screen while turns remain |
| `ReducerProperties.LeaderExtraTurnGiven` | src/state/gameReducer.js:285-293 | At the end of the countdown, if someone other than the trigger leads and no extra turn was given, the flag is set and the turn goes to the trigger player |
| `ReducerProperties.GameEnds` | src/state/gameReducer.js:285-297 | At the end of the countdown, if the trigger leads or the extra turn was given, the game finishes. The winner is the first player with the highest score |
| `ReducerProperties.ExtraTurnEndsGame` | src/state/gameReducer.js:289-297 | After the extra turn, the next scored turn always ends the game |
| `GameReducer.AddToScore` | src/state/gameReducer.js:209-218 | Only the active player's score changes, to the clamped sum |
| `GameReducer.ConfirmSteps` | src/state/gameReducer.js:163-232 | The original's confirmation procedure, which assigns the score in place, equals the confirmation function |
| `GameReducer.ConfirmChestSteps` | src/state/gameReducer.js:187-215 | The chest-card branch, which checks the eight dice and the selection and then scores in place, equals the chest confirmation function |
| `GameReducer.ConfirmScoredSteps` | src/state/gameReducer.js:217-231 | The ordinary branch, which scores in place and then checks the nine-coin or nine-diamond win, equals the scored confirmation function |
| `ReducerProperties.ConfirmNoop` | src/state/gameReducer.js:163-165 | Confirming a turn that cannot be confirmed changes nothing |
| `ReducerProperties.ConfirmOpensSkullIsland` | src/state/gameReducer.js:168-174 | Skull Island opens its screen, collects the base skulls, and changes nothing else |
| `ReducerProperties.ConfirmEarlyDeath` | src/state/gameReducer.js:182-185 | An early death scores nothing and advances |
| `ReducerProperties.ConfirmScoresActivePlayer` | src/state/gameReducer.js:217-231 | A normal confirm adds the clamped points to the active player only and, without a nine-of-a-kind win, is exactly the advance from that scored state |
| `ReducerProperties.ConfirmMagicWin` | src/state/gameReducer.js:220-229 | Nine gold under the gold card, or nine diamonds under the diamond card, finish the game with the active player as winner and no advance |
| `ReducerProperties.GoldCardEightCoinsWins` | src/screens/Tests.jsx:241-265 | GOLD-001: eight physical gold under the gold card win the game for the active player |
| `ReducerProperties.ConfirmChestRefused` | src/state/gameReducer.js:199-202 | A refused stash only records the validator's single reason |
| `ReducerProperties.ChestSalvage` | src/state/gameReducer.js:204-211 | On a bust the gain is the stash's face value and sets, with no card and no bonus, and it is never negative |
| `ReducerProperties.ConfirmChestScores` | src/state/gameReducer.js:187-215 | A valid chest confirm adds the clamped gain to the active player only and is exactly the advance from that scored state. Without a bust the gain is the turn's points |
| `ReducerProperties.ChestConfirmNeverRefused` | src/state/gameReducer.js:187-202 | While the invariant holds, a confirmable chest turn that is not Skull Island never reaches the 4-skull, 8-dice or invalid-stash branches |
| `GameReducer.Penalized` | src/state/gameReducer.js:242-245 | Every player but the active one loses the amount, clamped; the active player is unchanged |
| `GameReducer.PenalizeOthers` | src/state/gameReducer.js:242-245 | The penalty loop equals the penalty function |
| `GameReducer.ApplySkullIslandSteps` | src/state/gameReducer.js:234-250 | The Skull Island procedure equals its function |
| `ReducerProperties.SkullIslandPenalty` | src/state/gameReducer.js:234-250 | APPLY_SKULLISLAND takes perSkull × skulls from every other player, clamped, and leaves the active player alone. The final phase is not counted down. Play passes to a fresh turn |
| `ReducerProperties.SkullIslandPenaltyAmount` | src/state/gameReducer.js:239-245 | The penalty is 200 per skull under the pirate card and 100 otherwise. In normal mode it makes no score negative |
| `ReducerProperties.StepPreservesInv` | src/state/gameReducer.js:45-260 | Every action keeps the turn invariant: the view matches the dice, at most 8 dice, the stash is within the roll, and there is no stash without the chest card |
| `ReducerProperties.NormalModeKeepsScores` | src/state/gameReducer.js:45-260 | In normal mode no action but a reset makes a score negative |
| `ReducerProperties.ErrorKept` | src/state/gameReducer.js:194-202 | Only a reset clears the recorded error. The one action that sets it, a refused chest confirm, changes nothing else |

## Left out

- Rendering: the screens, components, canvas flag animation and image
  paths are presentation and are not part of this model.
- Randomness: random player identifiers and the random start index are
  not modelled. Identifiers are positions, and the start index is a
  parameter.
- Message texts: the explanatory notes are omitted, and the validator's
  reasons and the recorded error are opaque tokens.
- `CHEST_SET_COUNT` string parsing: the value is taken as an integer,
  without `parseInt`.
- Whitespace for trimming: the set is the language's fixed list of
  white-space and line-terminator characters, with no further Unicode
  tables.
- Sharing of the final-phase record: the original mutates one record that
  old and new states share, and the model builds a new value each time.
  Only that sharing is not captured.
- The test runner's seeded generator belongs to the test page. Its
  properties P1 to P5 are proved instead as `StepPreservesInv`,
  `TurnGating` and `ChestWithSkullRejected`.
- `GameReducer.Step`: states where the original would raise a `TypeError`
  (a missing player) are excluded by its precondition rather than modelled
  as an error path. So is APPLY_SKULLISLAND with an empty player list, which
  the original completes with a NaN current index.
- `GameReducer.NewName`: when the 24th UTF-16 code unit is the first half
  of a surrogate pair, the original keeps that lone half. Dafny characters
  are whole code points, so the model stops before that character and the
  name is one code unit shorter.
- `GameReducer.PlayerLetter`: for a player number whose code unit falls in
  the surrogate range, `String.fromCharCode` yields a lone surrogate, which
  a Dafny character cannot hold, so the model uses U+FFFD. The set-up screen
  offers 2 to 5 players, far below that range.
