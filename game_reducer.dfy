// The game's state machine: one function from a state and an action to the
// next state, with the source's step-by-step procedures (the skull-island
// penalty loop, the searches over the players, the end-of-turn bookkeeping and
// turn confirmation) as methods proved to compute the same states.

module GameReducer {
  import opened Wrappers
  import opened Constants
  import opened Rules
  import opened State

  /** The actions the screens dispatch; `Other` stands for any unrecognised type. */
  datatype Action =
    | Navigate(screen: Screen)
    | SetMode(mode: Mode)
    | SetNumPlayers(numPlayers: nat)
    | GoNames
    | SetPlayerName(index: int, name: string)
    | StartGame(draw: nat)
    | TurnSetFortune(fortune: Fortune)
    | TurnAdjustDie(key: Symbol, delta: int)
    | ChestSetCount(key: Symbol, value: int)
    | ChestAuto
    | ChestClear
    | SkullIslandAdjust(delta: int)
    | ConfirmTurn
    | ApplySkullIsland
    | ResetGame(initialState: GameState)
    | Other

  // ---------------------------------------------------------------------------
  // Player names

  /** The characters the language's `trim` removes: white space and line terminators. */
  predicate IsJsSpace(c: char)
  {
    c == '\t' || c == '\n' || c == '\U{000B}' || c == '\U{000C}' || c == '\r' || c == ' ' ||
    c == '\U{00A0}' || c == '\U{1680}' || ('\U{2000}' <= c <= '\U{200A}') ||
    c == '\U{2028}' || c == '\U{2029}' || c == '\U{202F}' || c == '\U{205F}' ||
    c == '\U{3000}' || c == '\U{FEFF}'
  }

  /** `s` without its leading white space. */
  function TrimStart(s: string): string
  {
    if s != [] && IsJsSpace(s[0]) then TrimStart(s[1..]) else s
  }

  /** `s` without its trailing white space. */
  function TrimEnd(s: string): string
  {
    if s != [] && IsJsSpace(s[|s| - 1]) then TrimEnd(s[..|s| - 1]) else s
  }

  function Trim(s: string): string
  {
    TrimEnd(TrimStart(s))
  }

  /** The longest name a player may be given. */
  const MaxNameLength: nat := 24

  /** The UTF-16 code units a character takes: two outside the basic plane. */
  function Utf16Width(c: char): nat
  {
    if c as int >= 0x1_0000 then 2 else 1
  }

  /** The length the language reports for a string: its UTF-16 code units. */
  function Utf16Length(s: string): nat
  {
    if s == [] then 0 else Utf16Width(s[0]) + Utf16Length(s[1..])
  }

  /** The longest prefix of `s` made of whole characters that fits in `units`
      UTF-16 code units (the language's `slice`, which counts code units). */
  function Utf16Prefix(s: string, units: nat): string
  {
    if s == [] || Utf16Width(s[0]) > units then []
    else [s[0]] + Utf16Prefix(s[1..], units - Utf16Width(s[0]))
  }

  /** The cut is a prefix that fits, the next character would not fit, and a
      string that fits already is kept whole. */
  lemma {:induction false} Utf16PrefixFits(s: string, units: nat)
    ensures var r := Utf16Prefix(s, units);
      |r| <= |s| && r == s[..|r|] && Utf16Length(r) <= units &&
      (|r| < |s| ==> Utf16Length(r) + Utf16Width(s[|r|]) > units) &&
      (Utf16Length(s) <= units ==> r == s)
  {
    if s != [] && Utf16Width(s[0]) <= units {
      var w := Utf16Width(s[0]);
      var rest := Utf16Prefix(s[1..], units - w);
      Utf16PrefixFits(s[1..], units - w);
      var r := [s[0]] + rest;
      assert Utf16Prefix(s, units) == r;
      assert r[1..] == rest;
      assert Utf16Length(r) == w + Utf16Length(rest);
      assert s[..|r|] == [s[0]] + s[1..][..|rest|];
      if |r| < |s| {
        assert s[|r|] == s[1..][|rest|];
      }
      if Utf16Length(s) <= units {
        assert s == [s[0]] + s[1..];
      }
    }
  }

  /** A string has at least as many code units as characters. */
  lemma {:induction false} Utf16LengthAtLeast(s: string)
    ensures |s| <= Utf16Length(s)
  {
    if s != [] {
      Utf16LengthAtLeast(s[1..]);
    }
  }

  /** A rename: the trimmed input cut to 24 UTF-16 code units, or the current
      name when nothing is left. */
  function NewName(current: string, input: string): (r: string)
    ensures Trim(input) == [] ==> r == current
    ensures Trim(input) != [] ==> 0 < |r| <= |Trim(input)| && r == Trim(input)[..|r|] && Utf16Length(r) <= MaxNameLength
    ensures Trim(input) != [] ==> |r| <= MaxNameLength
    ensures Trim(input) != [] && |r| < |Trim(input)| ==> Utf16Length(r) + Utf16Width(Trim(input)[|r|]) > MaxNameLength
    ensures Utf16Length(Trim(input)) <= MaxNameLength ==> r == (if Trim(input) == [] then current else Trim(input))
  {
    var t := Trim(input);
    Utf16PrefixFits(t, MaxNameLength);
    var cut := Utf16Prefix(t, MaxNameLength);
    Utf16LengthAtLeast(cut);
    if cut == [] then current else cut
  }

  /** The letter of the i-th default name: the UTF-16 code unit 65 + i, with a
      replacement character where that unit would be half of a surrogate pair. */
  function PlayerLetter(i: nat): char
  {
    var unit := (65 + i) % 0x1_0000;
    if 0xD800 <= unit < 0xE000 then '\U{FFFD}' else unit as char
  }

  function DefaultName(i: nat): string
  {
    "Pirata " + [PlayerLetter(i)]
  }

  // ---------------------------------------------------------------------------
  // Searching the players

  /** The index of the first player with identifier `id`, or -1 (the source's `findIndex`). */
  function IndexOfId(ps: seq<Player>, id: nat): (r: int)
    ensures -1 <= r < |ps|
    ensures r == -1 <==> forall i :: 0 <= i < |ps| ==> ps[i].id != id
    ensures r >= 0 ==> ps[r].id == id && forall i :: 0 <= i < r ==> ps[i].id != id
  {
    if ps == [] then -1
    else if ps[0].id == id then 0
    else
      var j := IndexOfId(ps[1..], id);
      if j == -1 then -1 else j + 1
  }

  predicate HasId(ps: seq<Player>, id: nat)
  {
    exists i :: 0 <= i < |ps| && ps[i].id == id
  }

  /** The player the source's `reduce` keeps among the first `n`: a later player
      replaces the kept one only with a strictly higher score. */
  function LeaderUpTo(ps: seq<Player>, n: nat): (r: nat)
    requires 0 < n <= |ps|
    ensures r < n
    ensures forall j :: 0 <= j < n ==> ps[j].score <= ps[r].score
    ensures forall j :: 0 <= j < r ==> ps[j].score < ps[r].score
  {
    if n == 1 then 0
    else
      var b := LeaderUpTo(ps, n - 1);
      if ps[n - 1].score > ps[b].score then n - 1 else b
  }

  /** The index of the first player with the highest score. */
  function LeaderIndex(ps: seq<Player>): (r: nat)
    requires |ps| > 0
    ensures r < |ps|
  {
    LeaderUpTo(ps, |ps|)
  }

  /** The winner's identifier, or none when there are no players. */
  function WinnerIdFromPlayers(ps: seq<Player>): (r: Option<nat>)
    ensures r.None? <==> ps == []
    ensures r.Some? ==> exists i :: (0 <= i < |ps| && ps[i].id == r.value &&
      (forall j :: 0 <= j < |ps| ==> ps[j].score <= ps[i].score) &&
      (forall j :: 0 <= j < i ==> ps[j].score < ps[i].score))
  {
    if ps == [] then None else Some(ps[LeaderIndex(ps)].id)
  }

  /** The source's `findIndex` loop. */
  method FindIndexOfId(ps: seq<Player>, id: nat) returns (r: int)
    ensures r == IndexOfId(ps, id)
  {
    var i := 0;
    while i < |ps|
      invariant 0 <= i <= |ps|
      invariant forall j :: 0 <= j < i ==> ps[j].id != id
    {
      if ps[i].id == id {
        return i;
      }
      i := i + 1;
    }
    return -1;
  }

  /** The source's `reduce` that keeps the first player with the highest score. */
  method FindLeader(ps: seq<Player>) returns (best: nat)
    requires |ps| > 0
    ensures best == LeaderIndex(ps)
  {
    best := 0;
    for i := 1 to |ps|
      invariant best == LeaderUpTo(ps, i)
    {
      if ps[i].score > ps[best].score {
        best := i;
      }
    }
  }

  // ---------------------------------------------------------------------------
  // Turns, scores and advancing

  /** The random start index: `floor(r * n)` for a draw `r` in [0, 1), modelled as
      an arbitrary natural reduced modulo `n` (and 0 when there are no players). */
  function RandInt(n: nat, draw: nat): (r: nat)
    ensures n > 0 ==> r < n
    ensures n == 0 ==> r == 0
  {
    if n == 0 then 0 else draw % n
  }

  /** A fresh turn on the turn screen. */
  function StartTurn(s: GameState): GameState
  {
    s.(screen := TurnScreen, turn := FreshTurn(s.mode))
  }

  /** The player at `idx` gains `gained` points, the total clamped by the mode. */
  function AddToScore(ps: seq<Player>, idx: nat, mode: Mode, gained: int): (r: seq<Player>)
    requires idx < |ps|
    ensures |r| == |ps|
    ensures forall j :: 0 <= j < |ps| && j != idx ==> r[j] == ps[j]
    ensures r[idx].id == ps[idx].id && r[idx].name == ps[idx].name
    ensures r[idx].score == ClampScore(mode, ps[idx].score + gained)
  {
    ps[idx := ps[idx].(score := ClampScore(mode, ps[idx].score + gained))]
  }

  /** One player after the skull-island penalty: unchanged when active, else `amount` poorer. */
  function PenaltyFor(p: Player, activeId: nat, mode: Mode, amount: int): Player
  {
    if p.id == activeId then p else p.(score := ClampScore(mode, p.score - amount))
  }

  /** Every player except those with the active identifier loses `amount`, clamped by the mode. */
  function Penalized(ps: seq<Player>, activeId: nat, mode: Mode, amount: int): (r: seq<Player>)
    ensures |r| == |ps|
    ensures forall j :: 0 <= j < |ps| ==> r[j].id == ps[j].id && r[j].name == ps[j].name
    ensures forall j :: 0 <= j < |ps| && ps[j].id == activeId ==> r[j] == ps[j]
    ensures forall j :: 0 <= j < |ps| && ps[j].id != activeId ==>
      r[j].score == ClampScore(mode, ps[j].score - amount)
  {
    seq(|ps|, j requires 0 <= j < |ps| => PenaltyFor(ps[j], activeId, mode, amount))
  }

  /** The source's loop over the players applying the skull-island penalty. */
  method PenalizeOthers(ps: seq<Player>, activeId: nat, mode: Mode, amount: int) returns (r: seq<Player>)
    ensures r == Penalized(ps, activeId, mode, amount)
  {
    r := ps;
    for i := 0 to |ps|
      invariant |r| == |ps|
      invariant forall j :: 0 <= j < i ==> r[j] == PenaltyFor(ps[j], activeId, mode, amount)
      invariant forall j :: i <= j < |ps| ==> r[j] == ps[j]
    {
      if r[i].id == activeId {
        continue;
      }
      r := r[i := r[i].(score := ClampScore(mode, r[i].score - amount))];
    }
  }

  /** The next player's turn; the round grows when play wraps to the first player. */
  function AdvanceIndex(s: GameState): (r: GameState)
    requires |s.players| > 0
    ensures r.currentPlayerIndex < |s.players|
    ensures s.currentPlayerIndex + 1 < |s.players| ==> r.currentPlayerIndex == s.currentPlayerIndex + 1 && r.round == s.round
    ensures s.currentPlayerIndex + 1 == |s.players| ==> r.currentPlayerIndex == 0 && r.round == s.round + 1
  {
    var i := (s.currentPlayerIndex + 1) % |s.players|;
    s.(currentPlayerIndex := i, round := if i == 0 then s.round + 1 else s.round)
  }

  /** The end-game phase after `scorer` has scored among `n` players. */
  function NextFinalPhase(fp: Option<FinalPhase>, scorer: Player, n: nat): (r: Option<FinalPhase>)
    ensures fp.None? && scorer.score >= TargetScore ==> r == Some(FinalPhase(scorer.id, n - 1, false))
    ensures fp.None? && scorer.score < TargetScore ==> r == None
    ensures fp.Some? && scorer.id != fp.value.triggerPlayerId ==>
      r == Some(fp.value.(turnsRemaining := fp.value.turnsRemaining - 1))
    ensures fp.Some? && scorer.id == fp.value.triggerPlayerId ==> r == fp
  {
    if fp.None? && scorer.score >= TargetScore then Some(FinalPhase(scorer.id, n - 1, false))
    else if fp.Some? && scorer.id != fp.value.triggerPlayerId then
      Some(fp.value.(turnsRemaining := fp.value.turnsRemaining - 1))
    else fp
  }

  /** When advancing after the player at `idx` scored reads no missing player. */
  predicate AdvanceDefined(s: GameState, idx: nat)
  {
    idx < |s.players| &&
    var fp := NextFinalPhase(s.finalPhase, s.players[idx], |s.players|);
    fp.Some? && fp.value.turnsRemaining <= 0 ==> HasId(s.players, fp.value.triggerPlayerId)
  }

  /** After a scored turn: update the final phase, pass the turn, and end the game
      when the countdown has run out (after one extra turn for the trigger player
      if someone else leads). */
  function AdvanceAfterScoring(s: GameState, idx: nat): GameState
    requires AdvanceDefined(s, idx)
  {
    var next := s.(finalPhase := NextFinalPhase(s.finalPhase, s.players[idx], |s.players|));
    var adv := AdvanceIndex(next);
    if adv.finalPhase.Some? && adv.finalPhase.value.turnsRemaining <= 0 then
      var fp := adv.finalPhase.value;
      var t := IndexOfId(adv.players, fp.triggerPlayerId);
      var best := LeaderIndex(adv.players);
      if adv.players[best].id != adv.players[t].id && !fp.leaderExtraTurn then
        StartTurn(adv.(finalPhase := Some(fp.(leaderExtraTurn := true)), currentPlayerIndex := t))
      else
        adv.(screen := FinishedScreen, winnerId := Some(adv.players[best].id))
    else
      StartTurn(adv)
  }

  /** The source's sequence of assignments for advancing after a scored turn. */
  method AdvanceAfterScoringSteps(s: GameState, idx: nat) returns (r: GameState)
    requires AdvanceDefined(s, idx)
    ensures r == AdvanceAfterScoring(s, idx)
  {
    var next := s;
    var triggerPlayer := next.players[idx];
    if next.finalPhase.None? && triggerPlayer.score >= TargetScore {
      next := next.(finalPhase := Some(FinalPhase(triggerPlayer.id, |next.players| - 1, false)));
    } else if next.finalPhase.Some? {
      if triggerPlayer.id != next.finalPhase.value.triggerPlayerId {
        var fp := next.finalPhase.value;
        next := next.(finalPhase := Some(fp.(turnsRemaining := fp.turnsRemaining - 1)));
      }
    }
    assert next == s.(finalPhase := NextFinalPhase(s.finalPhase, s.players[idx], |s.players|));
    var advanced := AdvanceIndex(next);
    if advanced.finalPhase.Some? && advanced.finalPhase.value.turnsRemaining <= 0 {
      var fp := advanced.finalPhase.value;
      var t := FindIndexOfId(advanced.players, fp.triggerPlayerId);
      var best := FindLeader(advanced.players);
      if advanced.players[best].id != advanced.players[t].id && !fp.leaderExtraTurn {
        advanced := advanced.(finalPhase := Some(fp.(leaderExtraTurn := true)));
        advanced := advanced.(currentPlayerIndex := t);
        return StartTurn(advanced);
      }
      advanced := advanced.(screen := FinishedScreen);
      advanced := advanced.(winnerId := Some(advanced.players[best].id));
      return advanced;
    }
    return StartTurn(advanced);
  }

  // ---------------------------------------------------------------------------
  // Confirming a turn

  /** Nine gold coins under the gold card, or nine diamonds under the diamond card. */
  predicate MagicWin(f: Fortune, all: Dice)
  {
    (f.GoldCard? && all.gold == 9) || (f.DiamondCard? && all.diamond == 9)
  }

  /** What a valid chest turn adds to the player's score: on a bust, the stashed
      dice scored with no card and no skulls, less their full-chest bonus;
      otherwise the turn's points. */
  function ChestGain(s: GameState): int
  {
    if s.turn.dice.skull >= 3 then
      var tmp := PointsFromDice(s.mode, NoCard, s.turn.chest.(skull := 0));
      tmp.points - tmp.fullChestBonus
    else s.turn.computed.points
  }

  /** A chest turn that stops at one of the source's guards without scoring. */
  predicate ChestHalts(s: GameState)
  {
    s.turn.dice.skull >= 4 || TotalDice(s.turn.dice) != 8 || !ValidateChest(s.turn.dice, s.turn.chest).ok
  }

  /** When a chest confirmation reads no missing player. */
  predicate ChestConfirmDefined(s: GameState)
  {
    ChestHalts(s) ||
    (s.currentPlayerIndex < |s.players| &&
     AdvanceDefined(s.(players := AddToScore(s.players, s.currentPlayerIndex, s.mode, ChestGain(s))), s.currentPlayerIndex))
  }

  /** When a scored confirmation without the chest card reads no missing player. */
  predicate ScoredConfirmDefined(s: GameState)
  {
    var f := s.turn.fortune;
    s.currentPlayerIndex < |s.players| &&
    (MagicWin(f, Merge(ApplyFortuneBaseDice(f), s.turn.dice)) ||
     AdvanceDefined(s.(players := AddToScore(s.players, s.currentPlayerIndex, s.mode, s.turn.computed.points)), s.currentPlayerIndex))
  }

  /** When confirming reads no missing player. */
  predicate ConfirmDefined(s: GameState)
  {
    var c := s.turn.computed;
    var f := s.turn.fortune;
    if !c.canConfirm || c.canSkullIsland then true
    else if c.earlyDeath && !f.ChestCard? then AdvanceDefined(s, s.currentPlayerIndex)
    else if f.ChestCard? then ChestConfirmDefined(s)
    else ScoredConfirmDefined(s)
  }

  /** Turn confirmation: Skull Island, early death, the chest card's checks and
      salvage, or a normal score with the nine-of-a-kind win. */
  function Confirm(s: GameState): GameState
    requires ConfirmDefined(s)
  {
    var c := s.turn.computed;
    var f := s.turn.fortune;
    if !c.canConfirm then s
    else if c.canSkullIsland then s.(screen := SkullIslandScreen, collectedSkulls := c.skullIslandBaseSkulls)
    else if c.earlyDeath && !f.ChestCard? then AdvanceAfterScoring(s, s.currentPlayerIndex)
    else if f.ChestCard? then ConfirmChest(s)
    else ConfirmScored(s)
  }

  /** A chest turn: the guards, the validation, then the salvage or the points. */
  function ConfirmChest(s: GameState): GameState
    requires ChestConfirmDefined(s)
  {
    var physical := s.turn.dice;
    var idx := s.currentPlayerIndex;
    if physical.skull >= 4 then s
    else if TotalDice(physical) != 8 then s.(lastError := Some(NeedEightDice))
    else
      var v := ValidateChest(physical, s.turn.chest);
      if !v.ok then s.(lastError := Some(InvalidChest(v.reasons)))
      else AdvanceAfterScoring(s.(players := AddToScore(s.players, idx, s.mode, ChestGain(s))), idx)
  }

  /** A scored turn without the chest card: the points, then the nine-of-a-kind
      win or the advance. */
  function ConfirmScored(s: GameState): GameState
    requires ScoredConfirmDefined(s)
  {
    var f := s.turn.fortune;
    var idx := s.currentPlayerIndex;
    var players := AddToScore(s.players, idx, s.mode, s.turn.computed.points);
    if MagicWin(f, Merge(ApplyFortuneBaseDice(f), s.turn.dice)) then
      s.(players := players, screen := FinishedScreen, winnerId := Some(players[idx].id))
    else AdvanceAfterScoring(s.(players := players), idx)
  }

  /** The source's confirmation procedure, assigning the player's score in place. */
  method ConfirmSteps(s: GameState) returns (r: GameState)
    requires ConfirmDefined(s)
    ensures r == Confirm(s)
  {
    var c := s.turn.computed;
    if !c.canConfirm {
      return s;
    }
    if c.canSkullIsland {
      return s.(screen := SkullIslandScreen, collectedSkulls := c.skullIslandBaseSkulls);
    }
    var idx := s.currentPlayerIndex;
    var fortune := s.turn.fortune;
    if c.earlyDeath && !fortune.ChestCard? {
      r := AdvanceAfterScoringSteps(s, idx);
      return;
    }
    if fortune.ChestCard? {
      r := ConfirmChestSteps(s);
      return;
    }
    r := ConfirmScoredSteps(s);
  }

  /** The chest branch of the confirmation procedure. */
  method ConfirmChestSteps(s: GameState) returns (r: GameState)
    requires ChestConfirmDefined(s)
    ensures r == ConfirmChest(s)
  {
    var idx := s.currentPlayerIndex;
    var players := s.players;
    var physical := s.turn.dice;
    if physical.skull >= 4 {
      return s;
    }
    if TotalDice(physical) != 8 {
      return s.(lastError := Some(NeedEightDice));
    }
    var v := ValidateChestSelection(physical, s.turn.chest);
    if !v.ok {
      return s.(lastError := Some(InvalidChest(v.reasons)));
    }
    var player := players[idx];
    if physical.skull >= 3 {
      var chestDice := s.turn.chest.(skull := 0);
      var tmp := ComputePointsFromDice(s.mode, NoCard, chestDice);
      var gainedNoChestBonus := tmp.points - tmp.fullChestBonus;
      players := players[idx := player.(score := ClampScore(s.mode, player.score + gainedNoChestBonus))];
      r := AdvanceAfterScoringSteps(s.(players := players), idx);
      return;
    }
    players := players[idx := player.(score := ClampScore(s.mode, player.score + s.turn.computed.points))];
    r := AdvanceAfterScoringSteps(s.(players := players), idx);
  }

  /** The normal branch of the confirmation procedure, with the nine-of-a-kind check. */
  method ConfirmScoredSteps(s: GameState) returns (r: GameState)
    requires ScoredConfirmDefined(s)
    ensures r == ConfirmScored(s)
  {
    var idx := s.currentPlayerIndex;
    var players := s.players;
    var fortune := s.turn.fortune;
    var player := players[idx];
    players := players[idx := player.(score := ClampScore(s.mode, player.score + s.turn.computed.points))];
    var base := ApplyFortuneBaseDice(fortune);
    var all := MergeDice(base, s.turn.dice);
    var magicWin := (fortune.GoldCard? && all.gold == 9) || (fortune.DiamondCard? && all.diamond == 9);
    if magicWin {
      return s.(players := players, screen := FinishedScreen, winnerId := Some(players[idx].id));
    }
    r := AdvanceAfterScoringSteps(s.(players := players), idx);
  }

  // ---------------------------------------------------------------------------
  // The other actions

  /** Players "Pirata A", "Pirata B", ... with score 0; identifiers are positions. */
  function GoNamesPlayers(n: nat): (r: seq<Player>)
    ensures |r| == n
    ensures forall i :: 0 <= i < n ==> r[i] == Player(i, DefaultName(i), 0)
  {
    seq(n, i requires 0 <= i => Player(i, DefaultName(i), 0))
  }

  /** The player at `index` renamed; indices outside the table rename no one. */
  function RenamePlayer(ps: seq<Player>, index: int, name: string): (r: seq<Player>)
    ensures |r| == |ps|
    ensures forall j :: 0 <= j < |ps| && j != index ==> r[j] == ps[j]
    ensures 0 <= index < |ps| ==> r[index] == ps[index].(name := NewName(ps[index].name, name))
  {
    if 0 <= index < |ps| then ps[index := ps[index].(name := NewName(ps[index].name, name))] else ps
  }

  /** A die count changed by `delta` (never below 0); if that would put more than
      8 dice on the table nothing changes. Under the chest card the stash is cut
      down to the new dice. */
  function AdjustDie(s: GameState, key: Symbol, delta: int): GameState
  {
    var v := Count(s.turn.dice, key) + delta;
    var dice := WithCount(s.turn.dice, key, if v < 0 then 0 else v);
    if TotalDice(dice) > 8 then s
    else
      var chest := if s.turn.fortune.ChestCard? then ClampChest(s.turn.chest, dice) else s.turn.chest;
      s.(turn := s.turn.(dice := dice, chest := chest, computed := ComputeTurn(s.mode, s.turn.fortune, dice)))
  }

  /** The stash count for an allowed key, cut to between 0 and the dice of that key. */
  function SetChestCount(s: GameState, key: Symbol, value: int): GameState
  {
    if !s.turn.fortune.ChestCard? || key !in ChestAllowed then s
    else
      var max := Count(s.turn.dice, key);
      var n := if value < 0 then 0 else if value > max then max else value;
      s.(turn := s.turn.(chest := WithCount(s.turn.chest, key, n).(skull := 0)))
  }

  /** Skull Island resolved: every other player loses the penalty per skull
      times the skulls collected, then the next player's turn begins. */
  function SkullIslandApplied(s: GameState): GameState
    requires s.currentPlayerIndex < |s.players|
  {
    var active := s.players[s.currentPlayerIndex];
    var perSkull := SkullIslandPenaltyPerSkull(s.turn.fortune);
    StartTurn(AdvanceIndex(s.(players := Penalized(s.players, active.id, s.mode, perSkull * s.collectedSkulls))))
  }

  /** When an action reads no missing player. */
  predicate StepDefined(s: GameState, a: Action)
  {
    match a
    case ConfirmTurn => ConfirmDefined(s)
    case ApplySkullIsland => s.currentPlayerIndex < |s.players|
    case _ => true
  }

  /** The reducer. */
  function Step(s: GameState, a: Action): GameState
    requires StepDefined(s, a)
  {
    match a
    case Navigate(screen) => s.(screen := screen)
    case SetMode(mode) =>
      s.(mode := mode, turn := s.turn.(computed := ComputeTurn(mode, s.turn.fortune, s.turn.dice)))
    case SetNumPlayers(n) => s.(numPlayers := n)
    case GoNames => s.(players := GoNamesPlayers(s.numPlayers), screen := NamesScreen)
    case SetPlayerName(index, name) => s.(players := RenamePlayer(s.players, index, name))
    case StartGame(draw) =>
      StartTurn(s.(currentPlayerIndex := RandInt(|s.players|, draw), round := 1, finalPhase := None, winnerId := None))
    case TurnSetFortune(f) =>
      s.(turn := Turn(f, InitDiceCounts(), InitDiceCounts(), ComputeTurn(s.mode, f, InitDiceCounts())))
    case TurnAdjustDie(key, delta) => AdjustDie(s, key, delta)
    case ChestSetCount(key, value) => SetChestCount(s, key, value)
    case ChestAuto =>
      if !s.turn.fortune.ChestCard? then s else s.(turn := s.turn.(chest := AutoSuggest(s.turn.dice)))
    case ChestClear =>
      if !s.turn.fortune.ChestCard? then s else s.(turn := s.turn.(chest := InitDiceCounts()))
    case SkullIslandAdjust(delta) =>
      var v := s.collectedSkulls + delta;
      s.(collectedSkulls := if v < 0 then 0 else v)
    case ConfirmTurn => Confirm(s)
    case ApplySkullIsland => SkullIslandApplied(s)
    case ResetGame(initial) => initial
    case Other => s
  }

  /** The source's skull-island procedure: the penalty loop, then the next turn. */
  method ApplySkullIslandSteps(s: GameState) returns (r: GameState)
    requires s.currentPlayerIndex < |s.players|
    ensures r == SkullIslandApplied(s)
  {
    var idx := s.currentPlayerIndex;
    var active := s.players[idx];
    var perSkull := if s.turn.fortune.Pirate? then 200 else 100;
    var skulls := s.collectedSkulls;
    var players := PenalizeOthers(s.players, active.id, s.mode, perSkull * skulls);
    var next := AdvanceIndex(s.(players := players));
    r := StartTurn(next);
  }
}
