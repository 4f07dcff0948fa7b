// What the reducer guarantees: the per-action effects, the end-game rules, and
// the invariant on the current turn that every action keeps.

module ReducerProperties {
  import opened Wrappers
  import opened Constants
  import opened Rules
  import opened RulesProperties
  import opened State
  import opened InitialState
  import opened GameReducer

  // ---------------------------------------------------------------------------
  // Names

  /** Trimming the start drops a prefix of white space and leaves a string
      that does not start with white space. */
  lemma TrimStartShape(s: string)
    ensures |TrimStart(s)| <= |s| && TrimStart(s) == s[|s| - |TrimStart(s)|..]
    ensures TrimStart(s) == [] || !IsJsSpace(TrimStart(s)[0])
    ensures forall i :: 0 <= i < |s| - |TrimStart(s)| ==> IsJsSpace(s[i])
  {
    TrimStartSuffix(s);
    TrimStartNoLead(s);
    TrimStartDropsSpace(s);
  }

  /** What is left after trimming the start is a suffix of the input. */
  lemma {:induction false} TrimStartSuffix(s: string)
    ensures |TrimStart(s)| <= |s| && TrimStart(s) == s[|s| - |TrimStart(s)|..]
  {
    if s != [] && IsJsSpace(s[0]) {
      TrimStartSuffix(s[1..]);
      assert s[1..][|s| - 1 - |TrimStart(s[1..])|..] == s[|s| - |TrimStart(s[1..])|..];
    }
  }

  /** What is left after trimming the start does not start with white space. */
  lemma {:induction false} TrimStartNoLead(s: string)
    ensures TrimStart(s) == [] || !IsJsSpace(TrimStart(s)[0])
  {
    if s != [] && IsJsSpace(s[0]) {
      TrimStartNoLead(s[1..]);
    }
  }

  /** Every character trimming drops at the start is white space. */
  lemma {:induction false} TrimStartDropsSpace(s: string)
    ensures |TrimStart(s)| <= |s|
    ensures forall i :: 0 <= i < |s| - |TrimStart(s)| ==> IsJsSpace(s[i])
  {
    if s != [] && IsJsSpace(s[0]) {
      var r := TrimStart(s[1..]);
      TrimStartDropsSpace(s[1..]);
      forall i | 1 <= i < |s| - |r|
        ensures IsJsSpace(s[i])
      {
        assert s[i] == s[1..][i - 1];
      }
    }
  }

  /** Trimming the end drops a suffix of white space and leaves a string that
      does not end with white space. */
  lemma TrimEndShape(s: string)
    ensures |TrimEnd(s)| <= |s| && TrimEnd(s) == s[..|TrimEnd(s)|]
    ensures TrimEnd(s) == [] || !IsJsSpace(TrimEnd(s)[|TrimEnd(s)| - 1])
    ensures forall i :: |TrimEnd(s)| <= i < |s| ==> IsJsSpace(s[i])
  {
    TrimEndPrefix(s);
    TrimEndNoTrail(s);
    TrimEndDropsSpace(s);
  }

  /** What is left after trimming the end is a prefix of the input. */
  lemma {:induction false} TrimEndPrefix(s: string)
    ensures |TrimEnd(s)| <= |s| && TrimEnd(s) == s[..|TrimEnd(s)|]
  {
    if s != [] && IsJsSpace(s[|s| - 1]) {
      TrimEndPrefix(s[..|s| - 1]);
      assert s[..|s| - 1][..|TrimEnd(s[..|s| - 1])|] == s[..|TrimEnd(s[..|s| - 1])|];
    }
  }

  /** What is left after trimming the end does not end with white space. */
  lemma {:induction false} TrimEndNoTrail(s: string)
    ensures TrimEnd(s) == [] || !IsJsSpace(TrimEnd(s)[|TrimEnd(s)| - 1])
  {
    if s != [] && IsJsSpace(s[|s| - 1]) {
      TrimEndNoTrail(s[..|s| - 1]);
    }
  }

  /** Every character trimming drops at the end is white space. */
  lemma {:induction false} TrimEndDropsSpace(s: string)
    ensures |TrimEnd(s)| <= |s|
    ensures forall i :: |TrimEnd(s)| <= i < |s| ==> IsJsSpace(s[i])
  {
    if s != [] && IsJsSpace(s[|s| - 1]) {
      var r := TrimEnd(s[..|s| - 1]);
      TrimEndDropsSpace(s[..|s| - 1]);
      forall i | |r| <= i < |s| - 1
        ensures IsJsSpace(s[i])
      {
        assert s[i] == s[..|s| - 1][i];
      }
    }
  }

  /** How many leading characters trimming drops. */
  function TrimOffset(s: string): nat
  {
    TrimStartShape(s);
    |s| - |TrimStart(s)|
  }

  /** Trimming leaves a contiguous piece of the input with white space only
      outside it and none at either of its ends. */
  lemma TrimShape(s: string)
    ensures TrimOffset(s) + |Trim(s)| <= |s|
    ensures Trim(s) == s[TrimOffset(s)..TrimOffset(s) + |Trim(s)|]
    ensures forall i :: 0 <= i < TrimOffset(s) ==> IsJsSpace(s[i])
    ensures forall i :: TrimOffset(s) + |Trim(s)| <= i < |s| ==> IsJsSpace(s[i])
    ensures Trim(s) == [] || (!IsJsSpace(Trim(s)[0]) && !IsJsSpace(Trim(s)[|Trim(s)| - 1]))
  {
    var t := TrimStart(s);
    var a := |s| - |t|;
    var r := TrimEnd(t);
    TrimStartShape(s);
    TrimEndShape(t);
    SliceOfSuffix(s, a, |r|);
    TrimEndTail(s, t, r, a);
    if r != [] {
      assert r[0] == t[0];
    }
  }

  /** A prefix of a suffix is a slice. */
  lemma SliceOfSuffix(s: string, a: nat, n: nat)
    requires a + n <= |s|
    ensures s[a..][..n] == s[a..a + n]
  {
  }

  /** The characters that trimming drops at the end are white space. */
  lemma TrimEndTail(s: string, t: string, r: string, a: nat)
    requires a <= |s| && t == s[a..] && r == TrimEnd(t)
    ensures forall i :: a + |r| <= i < |s| ==> IsJsSpace(s[i])
  {
    TrimEndShape(t);
    forall i | a + |r| <= i < |s|
      ensures IsJsSpace(s[i])
    {
      assert s[i] == t[i - a];
    }
  }

  /** Trimming twice is trimming once. */
  lemma TrimIdempotent(s: string)
    ensures Trim(Trim(s)) == Trim(s)
  {
    var t := Trim(s);
    TrimShape(s);
    assert TrimStart(t) == t;
  }

  /** A name given through the names screen is the current name or a non-empty
      piece of at most 24 characters that starts with no white space. */
  lemma NewNameShape(current: string, input: string)
    ensures var r := NewName(current, input);
      r == current || (0 < |r| <= MaxNameLength && Utf16Length(r) <= MaxNameLength && !IsJsSpace(r[0]))
  {
    TrimShape(input);
  }

  /** The cut counts UTF-16 code units: thirteen characters outside the basic
      plane take 26 units, so only twelve of them are kept. */
  lemma NewNameCountsCodeUnits()
    ensures NewName("Pirata A", "\U{1F600}\U{1F600}\U{1F600}\U{1F600}\U{1F600}\U{1F600}\U{1F600}\U{1F600}\U{1F600}\U{1F600}\U{1F600}\U{1F600}\U{1F600}") == "\U{1F600}\U{1F600}\U{1F600}\U{1F600}\U{1F600}\U{1F600}\U{1F600}\U{1F600}\U{1F600}\U{1F600}\U{1F600}\U{1F600}"
  {
    var t := "\U{1F600}\U{1F600}\U{1F600}\U{1F600}\U{1F600}\U{1F600}\U{1F600}\U{1F600}\U{1F600}\U{1F600}\U{1F600}\U{1F600}\U{1F600}";
    assert !IsJsSpace(t[0]) && !IsJsSpace(t[|t| - 1]);
    assert TrimStart(t) == t;
    assert Trim(t) == t;
    WidePrefix(t, 12);
    assert t[..12] == "\U{1F600}\U{1F600}\U{1F600}\U{1F600}\U{1F600}\U{1F600}\U{1F600}\U{1F600}\U{1F600}\U{1F600}\U{1F600}\U{1F600}";
  }

  /** For characters of two code units each, `2 * k` units hold `k` of them. */
  lemma {:induction false} WidePrefix(s: string, k: nat)
    requires forall i :: 0 <= i < |s| ==> Utf16Width(s[i]) == 2
    ensures Utf16Prefix(s, 2 * k) == s[..if k < |s| then k else |s|]
  {
    if s != [] && k > 0 {
      WidePrefix(s[1..], k - 1);
      var m := if k < |s| then k else |s|;
      assert s[..m] == [s[0]] + s[1..][..m - 1];
    }
  }

  /** Renaming touches only the name of the player at `index`. */
  lemma RenameOnlyTarget(s: GameState, index: int, name: string)
    ensures var r := Step(s, SetPlayerName(index, name));
      |r.players| == |s.players| && r == s.(players := r.players) &&
      (forall j :: 0 <= j < |s.players| ==> r.players[j].id == s.players[j].id && r.players[j].score == s.players[j].score) &&
      (forall j :: 0 <= j < |s.players| && j != index ==> r.players[j] == s.players[j])
  {
  }

  // ---------------------------------------------------------------------------
  // Setting up

  predicate DistinctIds(ps: seq<Player>)
  {
    forall i, j :: 0 <= i < j < |ps| ==> ps[i].id != ps[j].id
  }

  /** The names screen gets as many players as were planned, all on 0 points
      and with distinct identifiers; each one is found at its own position. */
  lemma GoNamesCreatesPlayers(s: GameState)
    ensures var r := Step(s, GoNames);
      r.screen == NamesScreen && |r.players| == s.numPlayers && DistinctIds(r.players) &&
      (forall i :: 0 <= i < |r.players| ==> r.players[i].score == 0 && IndexOfId(r.players, r.players[i].id) == i)
  {
    var ps := GoNamesPlayers(s.numPlayers);
    forall i | 0 <= i < |ps|
      ensures IndexOfId(ps, ps[i].id) == i
    {
      var r := IndexOfId(ps, ps[i].id);
      assert r != -1 by { assert ps[i].id == ps[i].id; }
    }
  }

  /** Starting a game: round 1, no end game and no winner, the turn screen with
      a fresh turn, and a starting index inside the table. */
  lemma StartGameFacts(s: GameState, draw: nat)
    ensures var r := Step(s, StartGame(draw));
      r.round == 1 && r.finalPhase == None && r.winnerId == None &&
      r.screen == TurnScreen && r.turn == FreshTurn(s.mode) && r.players == s.players &&
      (|s.players| > 0 ==> r.currentPlayerIndex < |s.players|)
  {
  }

  // ---------------------------------------------------------------------------
  // Entering a turn

  /** A die adjustment that would put more than 8 dice on the table is ignored;
      otherwise it sets the count (never below 0), keeps the others, keeps the
      derived view in step with the dice, and under the chest card cuts each
      stash count down to the new dice (the stash is untouched otherwise). */
  lemma AdjustDieFacts(s: GameState, key: Symbol, delta: int)
    ensures var r := Step(s, TurnAdjustDie(key, delta));
      var v := Count(s.turn.dice, key) + delta;
      var n := if v < 0 then 0 else v;
      (TotalDice(WithCount(s.turn.dice, key, n)) > 8 ==> r == s) &&
      (TotalDice(WithCount(s.turn.dice, key, n)) <= 8 ==>
        Count(r.turn.dice, key) == n &&
        (forall k :: k != key ==> Count(r.turn.dice, k) == Count(s.turn.dice, k)) &&
        TotalDice(r.turn.dice) <= 8 &&
        r.turn.fortune == s.turn.fortune &&
        r.turn.computed == ComputeTurn(s.mode, s.turn.fortune, r.turn.dice) &&
        (s.turn.fortune != ChestCard ==> r.turn.chest == s.turn.chest) &&
        (s.turn.fortune == ChestCard ==>
          r.turn.chest.skull == 0 &&
          (forall k :: k != Skull ==>
            Count(r.turn.chest, k) == (if Count(s.turn.chest, k) < Count(r.turn.dice, k) then Count(s.turn.chest, k) else Count(r.turn.dice, k)))) &&
        r == s.(turn := r.turn))
  {
  }

  /** Under the chest card a die adjustment keeps a stash that was within the
      roll within it, each count the smaller of the old count and the new dice,
      whether or not the adjustment was ignored. */
  lemma AdjustDieClampsChest(s: GameState, key: Symbol, delta: int)
    requires s.turn.fortune == ChestCard && ChestWithinRoll(s.turn.chest, s.turn.dice)
    ensures var r := Step(s, TurnAdjustDie(key, delta));
      r.turn.chest.skull == 0 && forall k :: Count(r.turn.chest, k) <= Count(r.turn.dice, k)
    ensures var r := Step(s, TurnAdjustDie(key, delta));
      forall k :: k != Skull ==>
        Count(r.turn.chest, k) == (if Count(s.turn.chest, k) < Count(r.turn.dice, k) then Count(s.turn.chest, k) else Count(r.turn.dice, k))
  {
    var r := Step(s, TurnAdjustDie(key, delta));
    assert r == AdjustDie(s, key, delta);
    var v := Count(s.turn.dice, key) + delta;
    var dice := WithCount(s.turn.dice, key, if v < 0 then 0 else v);
    if TotalDice(dice) > 8 {
      assert r == s;
    } else {
      assert r.turn.chest == ClampChest(s.turn.chest, dice) && r.turn.dice == dice;
    }
  }

  /** Setting a stash count: ignored without the chest card or for skulls;
      otherwise the count is the request cut to between 0 and the dice of that
      symbol, and nothing else in the stash changes but its skulls going to 0. */
  lemma SetChestCountFacts(s: GameState, key: Symbol, value: int)
    ensures var r := Step(s, ChestSetCount(key, value));
      (s.turn.fortune != ChestCard || key == Skull ==> r == s) &&
      (s.turn.fortune == ChestCard && key != Skull ==>
        0 <= Count(r.turn.chest, key) <= Count(s.turn.dice, key) &&
        (0 <= value <= Count(s.turn.dice, key) ==> Count(r.turn.chest, key) == value) &&
        r.turn.chest.skull == 0 &&
        (forall k :: k != key && k != Skull ==> Count(r.turn.chest, k) == Count(s.turn.chest, k)) &&
        r == s.(turn := s.turn.(chest := r.turn.chest)))
  {
    ChestAllowedIsNonSkull(key);
  }

  /** Without the chest card CHEST_AUTO does nothing; with it the stash becomes
      the suggestion for the dice and nothing else changes, and on a roll of at
      most 8 dice that stash passes the validator. */
  lemma ChestAutoFacts(s: GameState)
    ensures s.turn.fortune != ChestCard ==> Step(s, ChestAuto) == s
    ensures s.turn.fortune == ChestCard ==>
      Step(s, ChestAuto) == s.(turn := s.turn.(chest := AutoSuggest(s.turn.dice)))
    ensures s.turn.fortune == ChestCard && TotalDice(s.turn.dice) <= 8 ==>
      ValidateChest(s.turn.dice, Step(s, ChestAuto).turn.chest).ok
  {
    if s.turn.fortune == ChestCard {
      assert Step(s, ChestAuto) == s.(turn := s.turn.(chest := AutoSuggest(s.turn.dice)));
      if TotalDice(s.turn.dice) <= 8 {
        AutoSuggestValid(s.turn.dice);
      }
    }
  }

  /** The collected skulls never go below 0 and otherwise move by `delta`. */
  lemma SkullIslandAdjustFacts(s: GameState, delta: int)
    ensures var r := Step(s, SkullIslandAdjust(delta));
      r == s.(collectedSkulls := r.collectedSkulls) &&
      (s.collectedSkulls + delta >= 0 ==> r.collectedSkulls == s.collectedSkulls + delta) &&
      (s.collectedSkulls + delta < 0 ==> r.collectedSkulls == 0)
  {
  }

  // ---------------------------------------------------------------------------
  // Advancing after a scored turn

  /** Advancing never changes the players, the mode, the collected skulls or the
      recorded error, and always leaves the index inside the table. */
  lemma AdvanceKeeps(s: GameState, idx: nat)
    requires AdvanceDefined(s, idx)
    ensures var r := AdvanceAfterScoring(s, idx);
      r.players == s.players && r.mode == s.mode && r.numPlayers == s.numPlayers &&
      r.collectedSkulls == s.collectedSkulls && r.lastError == s.lastError &&
      r.currentPlayerIndex < |s.players|
    ensures var r := AdvanceAfterScoring(s, idx);
      (r.screen == FinishedScreen && r.turn == s.turn) ||
      (r.screen == TurnScreen && r.turn == FreshTurn(s.mode) && r.winnerId == s.winnerId)
  {
  }

  /** With no end game running and the scorer below the target, play simply
      passes to the next player, the round growing on a wrap. */
  lemma AdvanceOrdinary(s: GameState, idx: nat)
    requires AdvanceDefined(s, idx)
    requires s.finalPhase.None? && s.players[idx].score < TargetScore
    ensures var r := AdvanceAfterScoring(s, idx);
      r == StartTurn(AdvanceIndex(s)) && r.finalPhase == None &&
      r.currentPlayerIndex == (s.currentPlayerIndex + 1) % |s.players| &&
      r.round == (if r.currentPlayerIndex == 0 then s.round + 1 else s.round)
  {
    assert s.(finalPhase := NextFinalPhase(s.finalPhase, s.players[idx], |s.players|)) == s;
    AdvanceContinues(s, idx);
    PassesTurn(s, s);
  }

  /** The first player to reach the target starts the end game: every other
      player gets one more turn, and play passes on. */
  lemma FinalPhaseStarts(s: GameState, idx: nat)
    requires AdvanceDefined(s, idx) && |s.players| >= 2
    requires s.finalPhase.None? && s.players[idx].score >= TargetScore
    ensures var r := AdvanceAfterScoring(s, idx);
      r.finalPhase == Some(FinalPhase(s.players[idx].id, |s.players| - 1, false)) &&
      r.screen == TurnScreen && r.currentPlayerIndex == (s.currentPlayerIndex + 1) % |s.players|
  {
    var fp := FinalPhase(s.players[idx].id, |s.players| - 1, false);
    assert NextFinalPhase(s.finalPhase, s.players[idx], |s.players|) == Some(fp);
    AdvanceContinues(s, idx);
    PassesTurn(s, s.(finalPhase := Some(fp)));
  }

  /** Starting the next turn from a state with as many players and the same
      index as `s` moves to the player after the current one. */
  lemma PassesTurn(s: GameState, next: GameState)
    requires |s.players| > 0
    requires next.currentPlayerIndex == s.currentPlayerIndex && |next.players| == |s.players|
    ensures StartTurn(AdvanceIndex(next)).currentPlayerIndex == (s.currentPlayerIndex + 1) % |s.players|
  {
    var a := AdvanceIndex(next);
    assert a.currentPlayerIndex == (s.currentPlayerIndex + 1) % |s.players|;
    assert StartTurn(a).currentPlayerIndex == a.currentPlayerIndex;
  }

  /** While the end game is not over, advancing just passes the turn on with
      the updated end-game state. */
  lemma AdvanceContinues(s: GameState, idx: nat)
    requires AdvanceDefined(s, idx)
    requires var fp := NextFinalPhase(s.finalPhase, s.players[idx], |s.players|);
      fp.None? || fp.value.turnsRemaining > 0
    ensures AdvanceAfterScoring(s, idx) ==
      StartTurn(AdvanceIndex(s.(finalPhase := NextFinalPhase(s.finalPhase, s.players[idx], |s.players|))))
  {
    var next := s.(finalPhase := NextFinalPhase(s.finalPhase, s.players[idx], |s.players|));
    var adv := AdvanceIndex(next);
    assert adv.finalPhase == next.finalPhase;
    assert !(adv.finalPhase.Some? && adv.finalPhase.value.turnsRemaining <= 0);
  }

  /** A single player who reaches the target wins at once. */
  lemma SoloReachesTarget(s: GameState, idx: nat)
    requires AdvanceDefined(s, idx) && |s.players| == 1
    requires s.finalPhase.None? && s.players[idx].score >= TargetScore
    ensures AdvanceAfterScoring(s, idx).screen == FinishedScreen
    ensures AdvanceAfterScoring(s, idx).winnerId == Some(s.players[0].id)
  {
  }

  /** Once running, the end game keeps its trigger player and its extra-turn
      flag unless it ends; the countdown drops by one for every other player's
      scored turn and not for the trigger player's. */
  lemma FinalPhaseCountdown(s: GameState, idx: nat)
    requires AdvanceDefined(s, idx) && s.finalPhase.Some?
    ensures var fp := s.finalPhase.value;
      var r := AdvanceAfterScoring(s, idx);
      var left := if s.players[idx].id == fp.triggerPlayerId then fp.turnsRemaining else fp.turnsRemaining - 1;
      r.finalPhase.Some? && r.finalPhase.value.triggerPlayerId == fp.triggerPlayerId &&
      r.finalPhase.value.turnsRemaining == left &&
      (left > 0 ==> r.finalPhase.value.leaderExtraTurn == fp.leaderExtraTurn && r.screen == TurnScreen)
  {
  }

  /** When the countdown has run out and someone other than the trigger player
      leads, the trigger player gets one extra turn, once. */
  lemma LeaderExtraTurnGiven(s: GameState, idx: nat)
    requires AdvanceDefined(s, idx)
    requires var fp := NextFinalPhase(s.finalPhase, s.players[idx], |s.players|);
      fp.Some? && fp.value.turnsRemaining <= 0 && !fp.value.leaderExtraTurn &&
      s.players[LeaderIndex(s.players)].id != fp.value.triggerPlayerId
    ensures var fp := NextFinalPhase(s.finalPhase, s.players[idx], |s.players|);
      var r := AdvanceAfterScoring(s, idx);
      r.screen == TurnScreen && r.finalPhase == Some(fp.value.(leaderExtraTurn := true)) &&
      r.players[r.currentPlayerIndex].id == fp.value.triggerPlayerId &&
      r.currentPlayerIndex == IndexOfId(s.players, fp.value.triggerPlayerId)
  {
  }

  /** When the countdown has run out and the trigger player leads, or has had
      the extra turn, the game is over and the first player with the highest
      score wins (the same answer as the winner helper). */
  lemma GameEnds(s: GameState, idx: nat)
    requires AdvanceDefined(s, idx)
    requires var fp := NextFinalPhase(s.finalPhase, s.players[idx], |s.players|);
      fp.Some? && fp.value.turnsRemaining <= 0 &&
      (fp.value.leaderExtraTurn || s.players[LeaderIndex(s.players)].id == fp.value.triggerPlayerId)
    ensures var r := AdvanceAfterScoring(s, idx);
      r.screen == FinishedScreen && r.winnerId == WinnerIdFromPlayers(s.players) &&
      r.winnerId == Some(s.players[LeaderIndex(s.players)].id)
  {
    var t := IndexOfId(s.players, NextFinalPhase(s.finalPhase, s.players[idx], |s.players|).value.triggerPlayerId);
    assert s.players[t].id == NextFinalPhase(s.finalPhase, s.players[idx], |s.players|).value.triggerPlayerId;
  }

  /** The trigger player's extra turn always ends the game. */
  lemma ExtraTurnEndsGame(s: GameState, idx: nat)
    requires AdvanceDefined(s, idx)
    requires s.finalPhase.Some? && s.finalPhase.value.leaderExtraTurn && s.finalPhase.value.turnsRemaining <= 0
    ensures AdvanceAfterScoring(s, idx).screen == FinishedScreen
  {
  }

  /** The leader is the first player with the highest score: ties go to the
      earlier player. */
  lemma LeaderIsFirstMax(ps: seq<Player>)
    requires |ps| > 0
    ensures var b := LeaderIndex(ps);
      (forall j :: 0 <= j < |ps| ==> ps[j].score <= ps[b].score) &&
      (forall j :: 0 <= j < b ==> ps[j].score < ps[b].score)
  {
  }

  // ---------------------------------------------------------------------------
  // Confirming a turn

  /** A turn that cannot be confirmed leaves the state as it is. */
  lemma ConfirmNoop(s: GameState)
    requires !s.turn.computed.canConfirm
    ensures Step(s, ConfirmTurn) == s
  {
  }

  /** Four or more skulls lead to the Skull Island screen with the turn's skulls
      collected and no score changed. */
  lemma ConfirmOpensSkullIsland(s: GameState)
    requires s.turn.computed.canConfirm && s.turn.computed.canSkullIsland
    ensures var r := Step(s, ConfirmTurn);
      r == s.(screen := SkullIslandScreen, collectedSkulls := s.turn.computed.skullIslandBaseSkulls)
  {
  }

  /** An early death scores nothing and passes the turn. */
  lemma ConfirmEarlyDeath(s: GameState)
    requires ConfirmDefined(s)
    requires s.turn.computed.canConfirm && !s.turn.computed.canSkullIsland
    requires s.turn.computed.earlyDeath && s.turn.fortune != ChestCard
    ensures Step(s, ConfirmTurn) == AdvanceAfterScoring(s, s.currentPlayerIndex)
    ensures Step(s, ConfirmTurn).players == s.players
  {
    AdvanceKeeps(s, s.currentPlayerIndex);
  }

  /** A scored turn without the chest card changes only the active player's
      score, by the turn's points clamped by the mode, and then, unless nine of
      a kind win the game, play advances from the scored state. */
  lemma ConfirmScoresActivePlayer(s: GameState)
    requires ConfirmDefined(s)
    requires s.turn.computed.canConfirm && !s.turn.computed.canSkullIsland
    requires !s.turn.computed.earlyDeath && s.turn.fortune != ChestCard
    ensures Step(s, ConfirmTurn).players == AddToScore(s.players, s.currentPlayerIndex, s.mode, s.turn.computed.points)
    ensures !MagicWin(s.turn.fortune, Merge(ApplyFortuneBaseDice(s.turn.fortune), s.turn.dice)) ==>
      Step(s, ConfirmTurn) ==
        AdvanceAfterScoring(s.(players := AddToScore(s.players, s.currentPlayerIndex, s.mode, s.turn.computed.points)), s.currentPlayerIndex)
  {
    var idx := s.currentPlayerIndex;
    var players := AddToScore(s.players, idx, s.mode, s.turn.computed.points);
    assert Step(s, ConfirmTurn) == ConfirmScored(s);
    if !MagicWin(s.turn.fortune, Merge(ApplyFortuneBaseDice(s.turn.fortune), s.turn.dice)) {
      assert ConfirmScored(s) == AdvanceAfterScoring(s.(players := players), idx);
      AdvanceKeeps(s.(players := players), idx);
    }
  }

  /** Nine gold coins under the gold card, or nine diamonds under the diamond
      card, win the game on the spot for the active player. */
  lemma ConfirmMagicWin(s: GameState)
    requires ConfirmDefined(s)
    requires s.turn.computed.canConfirm && !s.turn.computed.canSkullIsland
    requires !s.turn.computed.earlyDeath && s.turn.fortune != ChestCard
    requires MagicWin(s.turn.fortune, Merge(ApplyFortuneBaseDice(s.turn.fortune), s.turn.dice))
    ensures var r := Step(s, ConfirmTurn);
      r.screen == FinishedScreen && r.winnerId == Some(s.players[s.currentPlayerIndex].id) &&
      r.turn == s.turn && r.finalPhase == s.finalPhase && r.currentPlayerIndex == s.currentPlayerIndex
  {
  }

  /** GOLD-001: under the gold card, eight physical gold coins make nine with the
      card's coin, a confirmable turn that wins on the spot. */
  lemma GoldCardEightCoinsWins(s: GameState)
    requires s.turn.fortune == GoldCard && s.turn.dice.gold == 8 && TotalDice(s.turn.dice) == 8
    requires s.turn.computed == ComputeTurn(s.mode, s.turn.fortune, s.turn.dice)
    requires s.currentPlayerIndex < |s.players|
    ensures MagicWin(s.turn.fortune, Merge(ApplyFortuneBaseDice(s.turn.fortune), s.turn.dice))
    ensures ConfirmDefined(s)
    ensures var r := Step(s, ConfirmTurn);
      r.screen == FinishedScreen && r.winnerId == Some(s.players[s.currentPlayerIndex].id)
  {
    var c := s.turn.computed;
    TurnGating(s.mode, GoldCard, s.turn.dice);
    assert s.turn.dice.skull == 0;
    assert c.canConfirm && !c.canSkullIsland && !c.earlyDeath;
    ConfirmMagicWin(s);
  }

  /** A chest turn with a refused stash only records the validator's reason. */
  lemma ConfirmChestRefused(s: GameState)
    requires s.turn.computed.canConfirm && !s.turn.computed.canSkullIsland && s.turn.fortune == ChestCard
    requires s.turn.dice.skull < 4 && TotalDice(s.turn.dice) == 8
    requires !ValidateChest(s.turn.dice, s.turn.chest).ok
    ensures Step(s, ConfirmTurn) == s.(lastError := Some(InvalidChest(ValidateChest(s.turn.dice, s.turn.chest).reasons)))
    ensures |ValidateChest(s.turn.dice, s.turn.chest).reasons| == 1
  {
  }

  /** A bust chest turn salvages the stash: the stashed dice scored without card
      and without the full-chest bonus, which is never negative. */
  lemma ChestSalvage(s: GameState)
    requires s.turn.dice.skull >= 3
    ensures var d := s.turn.chest.(skull := 0);
      ChestGain(s) == FaceValue(d) + SetScore(SetGroups(NoCard, d)) && ChestGain(s) >= 0
  {
    PlainCardScore(s.mode, NoCard, s.turn.chest.(skull := 0));
  }

  /** A valid chest turn scores the active player's gain, the salvage on a bust
      and the turn's points otherwise, and passes the turn. */
  lemma ConfirmChestScores(s: GameState)
    requires ConfirmDefined(s)
    requires s.turn.computed.canConfirm && !s.turn.computed.canSkullIsland && s.turn.fortune == ChestCard
    requires !ChestHalts(s)
    ensures Step(s, ConfirmTurn).players == AddToScore(s.players, s.currentPlayerIndex, s.mode, ChestGain(s))
    ensures Step(s, ConfirmTurn) ==
      AdvanceAfterScoring(s.(players := AddToScore(s.players, s.currentPlayerIndex, s.mode, ChestGain(s))), s.currentPlayerIndex)
    ensures s.turn.dice.skull < 3 ==> ChestGain(s) == s.turn.computed.points
  {
    var idx := s.currentPlayerIndex;
    var scored := s.(players := AddToScore(s.players, idx, s.mode, ChestGain(s)));
    assert Step(s, ConfirmTurn) == ConfirmChest(s);
    assert ConfirmChest(s) == AdvanceAfterScoring(scored, idx);
    AdvanceKeeps(scored, idx);
  }

  // ---------------------------------------------------------------------------
  // Skull Island

  /** Resolving Skull Island takes the penalty from every other player, leaves
      the active player and the end game alone, and passes the turn. */
  lemma SkullIslandPenalty(s: GameState)
    requires s.currentPlayerIndex < |s.players|
    ensures var r := Step(s, ApplySkullIsland);
      var active := s.players[s.currentPlayerIndex];
      var amount := SkullIslandPenaltyPerSkull(s.turn.fortune) * s.collectedSkulls;
      |r.players| == |s.players| &&
      r.players[s.currentPlayerIndex] == active &&
      (forall j :: 0 <= j < |s.players| && s.players[j].id != active.id ==>
        r.players[j].score == ClampScore(s.mode, s.players[j].score - amount)) &&
      r.finalPhase == s.finalPhase && r.winnerId == s.winnerId &&
      r.screen == TurnScreen && r.turn == FreshTurn(s.mode) &&
      r.currentPlayerIndex == (s.currentPlayerIndex + 1) % |s.players|
  {
    var active := s.players[s.currentPlayerIndex];
    var amount := SkullIslandPenaltyPerSkull(s.turn.fortune) * s.collectedSkulls;
    var next := s.(players := Penalized(s.players, active.id, s.mode, amount));
    assert Step(s, ApplySkullIsland) == SkullIslandApplied(s);
    assert SkullIslandApplied(s) == StartTurn(AdvanceIndex(next));
    PassesTurn(s, next);
  }

  /** The penalty is 200 per skull under the pirate card and 100 otherwise, and
      in normal mode no player drops below 0. */
  lemma SkullIslandPenaltyAmount(s: GameState)
    requires s.currentPlayerIndex < |s.players| && s.mode == Normal
    ensures var r := Step(s, ApplySkullIsland);
      forall j :: 0 <= j < |r.players| ==> r.players[j].score >= 0 || r.players[j] == s.players[j]
    ensures SkullIslandPenaltyPerSkull(s.turn.fortune) == if s.turn.fortune == Pirate then 200 else 100
  {
  }

  // ---------------------------------------------------------------------------
  // The invariant on the current turn

  /** The stash holds no skull and no more of a symbol than was rolled. */
  predicate ChestWithinRoll(chest: Dice, dice: Dice)
  {
    chest.skull == 0 && forall k :: Count(chest, k) <= Count(dice, k)
  }

  /** The derived view agrees with the dice, at most 8 dice are on the table,
      the stash is within the roll, and it is empty without the chest card. */
  predicate Inv(s: GameState)
  {
    s.turn.computed == ComputeTurn(s.mode, s.turn.fortune, s.turn.dice) &&
    TotalDice(s.turn.dice) <= 8 &&
    ChestWithinRoll(s.turn.chest, s.turn.dice) &&
    (s.turn.fortune != ChestCard ==> s.turn.chest == InitDiceCounts())
  }

  lemma FreshTurnInv(s: GameState)
    requires s.turn == FreshTurn(s.mode)
    ensures Inv(s)
  {
  }

  /** The application starts in a state that satisfies the invariant. */
  lemma InitialStateInv(s: GameState)
    requires s == CreateInitialState()
    ensures Inv(s)
  {
    InitialTurnFacts(s);
  }

  /** Every action keeps the invariant (a reset, when it restores a state that has it). */
  lemma StepPreservesInv(s: GameState, a: Action)
    requires Inv(s) && StepDefined(s, a)
    requires a.ResetGame? ==> Inv(a.initialState)
    ensures Inv(Step(s, a))
  {
    match a {
      case StartGame(draw) =>
        FreshTurnInv(Step(s, a));
      case SetMode(mode) =>
        SetModeInv(s, mode);
      case TurnSetFortune(f) =>
        SetFortuneInv(s, f);
      case TurnAdjustDie(key, delta) =>
        AdjustDieInv(s, key, delta);
      case ChestAuto =>
        ChestAutoInv(s);
      case ChestSetCount(key, value) =>
        SetChestCountInv(s, key, value);
      case ChestClear =>
        ChestClearInv(s);
      case ConfirmTurn =>
        ConfirmInv(s);
      case ApplySkullIsland =>
        FreshTurnInv(Step(s, a));
      case _ =>
    }
  }

  lemma SetModeInv(s: GameState, mode: Mode)
    requires Inv(s)
    ensures Inv(Step(s, SetMode(mode)))
  {
  }

  lemma SetFortuneInv(s: GameState, f: Fortune)
    requires Inv(s)
    ensures Inv(Step(s, TurnSetFortune(f)))
  {
  }

  lemma AdjustDieInv(s: GameState, key: Symbol, delta: int)
    requires Inv(s)
    ensures Inv(Step(s, TurnAdjustDie(key, delta)))
  {
    assert Step(s, TurnAdjustDie(key, delta)) == AdjustDie(s, key, delta);
    AdjustDieKeepsInv(s, key, delta);
  }

  lemma AdjustDieKeepsInv(s: GameState, key: Symbol, delta: int)
    requires Inv(s)
    ensures Inv(AdjustDie(s, key, delta))
  {
    var v := Count(s.turn.dice, key) + delta;
    if TotalDice(WithCount(s.turn.dice, key, if v < 0 then 0 else v)) <= 8 {
      AdjustDieWithinEight(s, key, delta);
    }
  }

  /** An adjustment that leaves at most 8 dice satisfies the invariant whatever
      the old derived view, as long as the stash was empty without the chest card. */
  lemma AdjustDieWithinEight(s: GameState, key: Symbol, delta: int)
    requires s.turn.fortune != ChestCard ==> s.turn.chest == InitDiceCounts()
    requires var v := Count(s.turn.dice, key) + delta;
      TotalDice(WithCount(s.turn.dice, key, if v < 0 then 0 else v)) <= 8
    ensures Inv(AdjustDie(s, key, delta))
  {
    var v := Count(s.turn.dice, key) + delta;
    var dice := WithCount(s.turn.dice, key, if v < 0 then 0 else v);
    var chest := if s.turn.fortune.ChestCard? then ClampChest(s.turn.chest, dice) else s.turn.chest;
    AdjustedChestWithinRoll(s.turn.fortune, s.turn.chest, dice);
    NewDiceInv(s, dice, chest);
  }

  /** The stash kept or clamped by a dice adjustment is within the new dice. */
  lemma AdjustedChestWithinRoll(f: Fortune, chest: Dice, dice: Dice)
    requires f != ChestCard ==> chest == InitDiceCounts()
    ensures var c := if f.ChestCard? then ClampChest(chest, dice) else chest;
      ChestWithinRoll(c, dice) && (f != ChestCard ==> c == InitDiceCounts())
  {
    if !f.ChestCard? {
      assert forall k :: Count(chest, k) == 0;
    }
  }

  /** New dice of at most 8 with a stash within them keep the invariant. */
  lemma NewDiceInv(s: GameState, dice: Dice, chest: Dice)
    requires TotalDice(dice) <= 8 && ChestWithinRoll(chest, dice)
    requires s.turn.fortune != ChestCard ==> chest == InitDiceCounts()
    ensures Inv(s.(turn := s.turn.(dice := dice, chest := chest, computed := ComputeTurn(s.mode, s.turn.fortune, dice))))
  {
  }

  lemma ChestAutoInv(s: GameState)
    requires Inv(s)
    ensures Inv(Step(s, ChestAuto))
  {
    if s.turn.fortune == ChestCard {
      var c := AutoSuggest(s.turn.dice);
      AutoSuggestWithinRoll(s.turn.dice);
      assert ChestWithinRoll(c, s.turn.dice);
      assert Step(s, ChestAuto) == s.(turn := s.turn.(chest := c));
    }
  }

  lemma SetChestCountInv(s: GameState, key: Symbol, value: int)
    requires Inv(s)
    ensures Inv(Step(s, ChestSetCount(key, value)))
  {
    ChestAllowedIsNonSkull(key);
  }

  lemma ChestClearInv(s: GameState)
    requires Inv(s)
    ensures Inv(Step(s, ChestClear))
  {
  }

  /** Confirming keeps the invariant: it either leaves the turn as it is or
      starts a fresh one. */
  lemma ConfirmInv(s: GameState)
    requires Inv(s) && ConfirmDefined(s)
    ensures Inv(Step(s, ConfirmTurn))
  {
    if s.turn.computed.canConfirm && !s.turn.computed.canSkullIsland {
      var idx := s.currentPlayerIndex;
      if s.turn.computed.earlyDeath && s.turn.fortune != ChestCard {
        AdvanceKeeps(s, idx);
      } else if s.turn.fortune == ChestCard {
        if !ChestHalts(s) {
          AdvanceKeeps(s.(players := AddToScore(s.players, idx, s.mode, ChestGain(s))), idx);
        }
      } else if !MagicWin(s.turn.fortune, Merge(ApplyFortuneBaseDice(s.turn.fortune), s.turn.dice)) {
        AdvanceKeeps(s.(players := AddToScore(s.players, idx, s.mode, s.turn.computed.points)), idx);
      }
    }
  }

  /** In a state with the invariant, a confirmable chest turn that is not Skull
      Island always has 8 dice, fewer than 4 skulls and a valid stash: the
      confirm step's guards and its recorded errors are never reached. */
  lemma ChestConfirmNeverRefused(s: GameState)
    requires Inv(s)
    requires s.turn.computed.canConfirm && !s.turn.computed.canSkullIsland && s.turn.fortune == ChestCard
    ensures !ChestHalts(s)
  {
    ChestGuardsUnreachable(s.mode, s.turn.dice);
    ChestWithinRollAccepted(s.turn.dice, s.turn.chest);
  }

  // ---------------------------------------------------------------------------
  // Scores and the recorded error

  predicate ScoresNonNegative(ps: seq<Player>)
  {
    forall j :: 0 <= j < |ps| ==> ps[j].score >= 0
  }

  /** In normal mode no action but a reset can make a score negative. */
  lemma NormalModeKeepsScores(s: GameState, a: Action)
    requires s.mode == Normal && ScoresNonNegative(s.players)
    requires StepDefined(s, a) && !a.ResetGame?
    ensures ScoresNonNegative(Step(s, a).players)
  {
    match a {
      case ConfirmTurn =>
        if s.turn.computed.canConfirm && !s.turn.computed.canSkullIsland {
          var idx := s.currentPlayerIndex;
          if s.turn.computed.earlyDeath && s.turn.fortune != ChestCard {
            AdvanceKeeps(s, idx);
          } else if s.turn.fortune == ChestCard {
            if !ChestHalts(s) {
              AdvanceKeeps(s.(players := AddToScore(s.players, idx, s.mode, ChestGain(s))), idx);
            }
          } else if !MagicWin(s.turn.fortune, Merge(ApplyFortuneBaseDice(s.turn.fortune), s.turn.dice)) {
            AdvanceKeeps(s.(players := AddToScore(s.players, idx, s.mode, s.turn.computed.points)), idx);
          }
        }
      case _ =>
    }
  }

  /** Only a reset clears the recorded error; the one action that records an
      error, a refused chest turn, changes nothing else. */
  lemma ErrorKept(s: GameState, a: Action)
    requires StepDefined(s, a) && !a.ResetGame?
    ensures var r := Step(s, a);
      r.lastError == s.lastError || (a.ConfirmTurn? && r.lastError.Some? && r == s.(lastError := r.lastError))
  {
    match a {
      case ConfirmTurn =>
        if s.turn.computed.canConfirm && !s.turn.computed.canSkullIsland {
          var idx := s.currentPlayerIndex;
          if s.turn.computed.earlyDeath && s.turn.fortune != ChestCard {
            AdvanceKeeps(s, idx);
          } else if s.turn.fortune == ChestCard {
            if !ChestHalts(s) {
              AdvanceKeeps(s.(players := AddToScore(s.players, idx, s.mode, ChestGain(s))), idx);
            }
          } else if !MagicWin(s.turn.fortune, Merge(ApplyFortuneBaseDice(s.turn.fortune), s.turn.dice)) {
            AdvanceKeeps(s.(players := AddToScore(s.players, idx, s.mode, s.turn.computed.points)), idx);
          }
        }
      case _ =>
    }
  }
}
