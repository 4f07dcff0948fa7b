/**
  The dice-rule engine: tallies over the six symbols, score clamping, the
  dice a fortune card grants, chest validation and auto-fill, scoring of a
  tally and the per-turn confirmation gate.

  Each operation is a function, which the reducer uses. Where the
  original builds its result with a loop over keys (merging, validating,
  scoring the set groups, filling the chest), a method with that loop is
  proved to return exactly the function's value.
 */
module Rules {
  import opened Constants
  import opened Wrappers

  /** `hardcore` lets scores go negative; `normal` floors them at 0. */
  datatype Mode = Normal | Hardcore

  /** A count per symbol. */
  datatype Dice = Dice(skull: nat, saber: nat, monkey: nat, parrot: nat, gold: nat, diamond: nat)

  function Count(d: Dice, k: Symbol): nat
  {
    match k
    case Skull => d.skull
    case Saber => d.saber
    case Monkey => d.monkey
    case Parrot => d.parrot
    case Gold => d.gold
    case Diamond => d.diamond
  }

  /** `d` with the count of `k` replaced by `v` (the source's `d[k] = v`). */
  function WithCount(d: Dice, k: Symbol, v: nat): (r: Dice)
    ensures Count(r, k) == v
    ensures forall j :: j != k ==> Count(r, j) == Count(d, j)
  {
    match k
    case Skull => d.(skull := v)
    case Saber => d.(saber := v)
    case Monkey => d.(monkey := v)
    case Parrot => d.(parrot := v)
    case Gold => d.(gold := v)
    case Diamond => d.(diamond := v)
  }

  /** Two tallies that agree on every key of the dice table are equal. */
  lemma DiceExtensional(a: Dice, b: Dice)
    requires forall i :: 0 <= i < |DiceTypes| ==> Count(a, DiceTypes[i]) == Count(b, DiceTypes[i])
    ensures a == b
  {
    assert Count(a, DiceTypes[0]) == Count(b, DiceTypes[0]);
    assert Count(a, DiceTypes[1]) == Count(b, DiceTypes[1]);
    assert Count(a, DiceTypes[2]) == Count(b, DiceTypes[2]);
    assert Count(a, DiceTypes[3]) == Count(b, DiceTypes[3]);
    assert Count(a, DiceTypes[4]) == Count(b, DiceTypes[4]);
    assert Count(a, DiceTypes[5]) == Count(b, DiceTypes[5]);
  }

  /** The all-zero tally. */
  function InitDiceCounts(): (r: Dice)
  {
    Dice(0, 0, 0, 0, 0, 0)
  }

  /** The sum of the counts of `keys` in `d`, accumulated left to right. */
  function KeySum(d: Dice, keys: seq<Symbol>): nat
  {
    if keys == [] then 0 else KeySum(d, keys[..|keys| - 1]) + Count(d, keys[|keys| - 1])
  }

  /** The number of dice in a tally: the sum of all six counts. */
  function TotalDice(d: Dice): nat
  {
    d.skull + d.saber + d.monkey + d.parrot + d.gold + d.diamond
  }

  /** A score as it may be stored: unchanged in hardcore, floored at 0 otherwise. */
  function ClampScore(mode: Mode, score: int): (r: int)
    ensures mode == Hardcore ==> r == score
    ensures mode == Normal ==> r >= 0 && (score >= 0 ==> r == score) && (score < 0 ==> r == 0)
  {
    if mode.Hardcore? then score else if score < 0 then 0 else score
  }

  /** The dice a fortune card puts on the table before the roll. */
  function ApplyFortuneBaseDice(f: Fortune): Dice
  {
    var base := InitDiceCounts();
    var base := if f.GoldCard? then base.(gold := base.gold + 1) else base;
    var base := if f.DiamondCard? then base.(diamond := base.diamond + 1) else base;
    var base := if f.Skull1? then base.(skull := base.skull + 1) else base;
    if f.Skull2? then base.(skull := base.skull + 2) else base
  }

  /** Key-wise sum of two tallies. */
  function Merge(base: Dice, picked: Dice): (r: Dice)
  {
    Dice(base.skull + picked.skull, base.saber + picked.saber, base.monkey + picked.monkey,
         base.parrot + picked.parrot, base.gold + picked.gold, base.diamond + picked.diamond)
  }

  /** The source's loop over the dice keys, filling a fresh tally. */
  method MergeDice(base: Dice, picked: Dice) returns (out: Dice)
    ensures out == Merge(base, picked)
  {
    out := InitDiceCounts();
    for i := 0 to |DiceTypes|
      invariant forall j :: 0 <= j < i ==>
        Count(out, DiceTypes[j]) == Count(base, DiceTypes[j]) + Count(picked, DiceTypes[j])
      invariant forall j :: i <= j < |DiceTypes| ==> Count(out, DiceTypes[j]) == 0
    {
      var k := DiceTypes[i];
      out := WithCount(out, k, Count(base, k) + Count(picked, k));
    }
    DiceExtensional(out, Merge(base, picked));
  }

  // ---------------------------------------------------------------------------
  // Chest validation

  /** Why a chest selection is refused (the message texts are not modelled). */
  datatype ChestReason = SkullStashed | MoreThanRolled(key: Symbol) | MoreThanEight

  /** The validator's answer: `sum` is the running total where it stopped. */
  datatype ChestCheck = ChestCheck(ok: bool, sum: nat, reasons: seq<ChestReason>)

  /** The number of stashable dice in a tally. */
  function AllowedSum(d: Dice): nat
  {
    KeySum(d, ChestAllowed)
  }

  predicate Exceeds(final: Dice, chest: Dice, k: Symbol)
  {
    Count(chest, k) > Count(final, k)
  }

  /** The position in the chest table, from `i` on, of the first key stashed
      more often than rolled; the table's length if there is none. */
  function FirstExcess(final: Dice, chest: Dice, i: nat): (j: nat)
    requires i <= |ChestAllowed|
    ensures i <= j <= |ChestAllowed|
    ensures j < |ChestAllowed| ==> Exceeds(final, chest, ChestAllowed[j])
    ensures forall m :: i <= m < j ==> !Exceeds(final, chest, ChestAllowed[m])
    decreases |ChestAllowed| - i
  {
    if i == |ChestAllowed| then i
    else if Exceeds(final, chest, ChestAllowed[i]) then i
    else FirstExcess(final, chest, i + 1)
  }

  /** Chest validation; the checks run in order and the first failure wins. */
  function ValidateChest(final: Dice, chest: Dice): (v: ChestCheck)
    ensures v.ok <==> chest.skull == 0 && AllowedSum(chest) <= 8 &&
                      forall k :: k in ChestAllowed ==> Count(chest, k) <= Count(final, k)
    ensures v.ok <==> v.reasons == []
    ensures v.ok ==> v.sum == AllowedSum(chest)
    ensures !v.ok ==> |v.reasons| == 1
  {
    if chest.skull != 0 then ChestCheck(false, 0, [SkullStashed])
    else
      var j := FirstExcess(final, chest, 0);
      if j < |ChestAllowed| then
        ChestCheck(false, KeySum(chest, ChestAllowed[..j + 1]), [MoreThanRolled(ChestAllowed[j])])
      else if AllowedSum(chest) > 8 then ChestCheck(false, AllowedSum(chest), [MoreThanEight])
      else ChestCheck(true, AllowedSum(chest), [])
  }

  /** The source's loop over the stashable keys with a running `sum`. */
  method ValidateChestSelection(final: Dice, chest: Dice) returns (v: ChestCheck)
    ensures v == ValidateChest(final, chest)
  {
    if chest.skull != 0 {
      return ChestCheck(false, 0, [SkullStashed]);
    }
    var sum := 0;
    for i := 0 to |ChestAllowed|
      invariant sum == KeySum(chest, ChestAllowed[..i])
      invariant FirstExcess(final, chest, 0) >= i
    {
      var k := ChestAllowed[i];
      var cv := Count(chest, k);
      var fv := Count(final, k);
      assert ChestAllowed[..i + 1][..i] == ChestAllowed[..i];
      sum := sum + cv;
      if cv > fv {
        return ChestCheck(false, sum, [MoreThanRolled(k)]);
      }
    }
    assert ChestAllowed[..|ChestAllowed|] == ChestAllowed;
    if sum > 8 {
      return ChestCheck(false, sum, [MoreThanEight]);
    }
    return ChestCheck(true, sum, []);
  }

  // ---------------------------------------------------------------------------
  // Scoring a tally

  /** The scoring result; the explanatory notes are not modelled. */
  datatype DiceScore = DiceScore(points: int, fullChestBonus: nat, pirateMultiplier: nat, bust: bool)

  /** A ship card's saber requirement and the points it is worth. */
  datatype ShipRule = ShipRule(required: nat, value: nat)

  function ShipRuleOf(f: Fortune): Option<ShipRule>
  {
    match f
    case Ship2 => Some(ShipRule(2, 300))
    case Ship3 => Some(ShipRule(3, 500))
    case Ship4 => Some(ShipRule(4, 1000))
    case _ => None
  }

  function PirateMultiplier(f: Fortune): nat
  {
    if f.Pirate? then 2 else 1
  }

  /** 100 per gold coin and per diamond. */
  function FaceValue(d: Dice): nat
  {
    (d.gold + d.diamond) * 100
  }

  /** The sizes of the groups that can form sets, in the source's order:
      monkeys and parrots apart (or summed under the animals card), then
      sabers, gold and diamonds. */
  function SetGroups(f: Fortune, d: Dice): seq<nat>
  {
    if f.Animals? then [d.monkey + d.parrot, d.saber, d.gold, d.diamond]
    else [d.monkey, d.parrot, d.saber, d.gold, d.diamond]
  }

  /** What one group of `n` equal symbols is worth as a set. */
  function GroupPoints(n: nat): nat
  {
    if n >= 3 then SetPoints(n) else 0
  }

  /** The set score of a list of groups, accumulated left to right. */
  function SetScore(groups: seq<nat>): nat
  {
    if groups == [] then 0 else SetScore(groups[..|groups| - 1]) + GroupPoints(groups[|groups| - 1])
  }

  /** The full-chest bonus before the skull cards take it away. */
  function RawFullChestBonus(d: Dice, earned: int): nat
  {
    if d.skull == 0 && earned > 0 then 500 else 0
  }

  /** Scoring of a complete tally (fortune base dice already merged in). */
  function PointsFromDice(mode: Mode, f: Fortune, d: Dice): (r: DiceScore)
    ensures r.bust <==> d.skull >= 3
    ensures r.bust ==> r.points == 0 && r.fullChestBonus == 0
    ensures r.pirateMultiplier == (if f == Pirate then 2 else 1)
    ensures r.fullChestBonus == 0 || r.fullChestBonus == 500
    ensures r.points < 0 ==> mode == Hardcore && ShipRuleOf(f).Some? && d.saber < ShipRuleOf(f).value.required
  {
    var mult := PirateMultiplier(f);
    if d.skull >= 3 then DiceScore(0, 0, mult, true)
    else
      var face := FaceValue(d);
      var sets := SetScore(SetGroups(f, d));
      var ship := ShipRuleOf(f);
      if ship.Some? && d.saber < ship.value.required then
        var penalty: int := 0 - ship.value.value;
        DiceScore(ClampScore(mode, penalty * mult), 0, mult, false)
      else
        var shipBonus := if ship.Some? then ship.value.value else 0;
        var bonus := RawFullChestBonus(d, face + sets + shipBonus);
        var points := (face + sets + bonus + shipBonus) * mult;
        if (f.Skull1? || f.Skull2?) && bonus > 0 then
          DiceScore(points - bonus * mult, 0, mult, false)
        else
          DiceScore(points, bonus, mult, false)
  }

  /** The source's loop accumulating `setScore` over the set groups. */
  method SumSetScore(setTypes: seq<nat>) returns (setScore: nat)
    ensures setScore == SetScore(setTypes)
  {
    setScore := 0;
    for i := 0 to |setTypes|
      invariant setScore == SetScore(setTypes[..i])
    {
      assert setTypes[..i + 1][..i] == setTypes[..i];
      var n := setTypes[i];
      if n >= 3 {
        setScore := setScore + SetPoints(n);
      }
    }
    assert setTypes[..|setTypes|] == setTypes;
  }

  /** The source's scoring with its `setTypes` list, its loop accumulating
      `setScore`, and the ship card's early return. */
  method ComputePointsFromDice(mode: Mode, f: Fortune, d: Dice) returns (r: DiceScore)
    ensures r == PointsFromDice(mode, f, d)
  {
    var mult := if f.Pirate? then 2 else 1;
    if d.skull >= 3 {
      return DiceScore(0, 0, mult, true);
    }
    var faceValue := (d.gold + d.diamond) * 100;

    var setTypes: seq<nat> := [];
    if f.Animals? {
      setTypes := setTypes + [d.monkey + d.parrot];
    } else {
      setTypes := setTypes + [d.monkey];
      setTypes := setTypes + [d.parrot];
    }
    setTypes := setTypes + [d.saber];
    setTypes := setTypes + [d.gold];
    setTypes := setTypes + [d.diamond];
    assert setTypes == SetGroups(f, d);

    var setScore := SumSetScore(setTypes);

    var shipReq: Option<nat> := None;
    var shipValue := 0;
    if f.Ship2? { shipReq, shipValue := Some(2), 300; }
    if f.Ship3? { shipReq, shipValue := Some(3), 500; }
    if f.Ship4? { shipReq, shipValue := Some(4), 1000; }

    var shipBonusOrPenalty := 0;
    if shipReq.Some? {
      if d.saber >= shipReq.value {
        shipBonusOrPenalty := shipValue;
      } else {
        shipBonusOrPenalty := -shipValue;
        var p := ClampScore(mode, shipBonusOrPenalty * mult);
        return DiceScore(p, 0, mult, false);
      }
    }

    var fullChestBonus := 0;
    var anyPoints := faceValue + setScore + (if shipBonusOrPenalty > 0 then shipBonusOrPenalty else 0) > 0;
    if d.skull == 0 && anyPoints {
      fullChestBonus := 500;
    }
    var points := (faceValue + setScore + fullChestBonus + shipBonusOrPenalty) * mult;
    if (f.Skull1? || f.Skull2?) && fullChestBonus > 0 {
      points := points - fullChestBonus * mult;
      fullChestBonus := 0;
    }
    return DiceScore(points, fullChestBonus, mult, false);
  }

  /** What each other player loses per collected skull on Skull Island. */
  function SkullIslandPenaltyPerSkull(f: Fortune): (r: nat)
    ensures r == 100 || r == 200
    ensures r == 200 <==> f == Pirate
  {
    if f.Pirate? then 200 else 100
  }

  // ---------------------------------------------------------------------------
  // Chest auto-fill

  /** The symbols considered as the primary set, in the source's order. */
  const Candidates: seq<Symbol> := [Saber, Monkey, Parrot]

  /** The source's search for the primary set over the first `i` candidates:
      the first strictly largest count, starting from (none, 0). */
  function BestUpTo(pd: Dice, i: nat): (r: (Option<Symbol>, nat))
    requires i <= |Candidates|
    ensures r.0.None? <==> r.1 == 0
    ensures forall j :: 0 <= j < i ==> Count(pd, Candidates[j]) <= r.1
    ensures r.0.Some? ==> exists j :: 0 <= j < i && Candidates[j] == r.0.value && Count(pd, Candidates[j]) == r.1 &&
                                      forall m :: 0 <= m < j ==> Count(pd, Candidates[m]) < r.1
  {
    if i == 0 then (None, 0)
    else
      var prev := BestUpTo(pd, i - 1);
      var n := Count(pd, Candidates[i - 1]);
      if n > prev.1 then (Some(Candidates[i - 1]), n) else prev
  }

  /** `ks` without `best` (the source's `filter`). */
  function Without(ks: seq<Symbol>, best: Option<Symbol>): (r: seq<Symbol>)
    ensures forall k :: k in r <==> k in ks && best != Some(k)
    ensures |r| <= |ks|
  {
    if ks == [] then []
    else if best == Some(ks[0]) then Without(ks[1..], best)
    else [ks[0]] + Without(ks[1..], best)
  }

  /** `k` placed after every element of `sorted` with more dice and before the rest. */
  function InsertByCount(pd: Dice, k: Symbol, sorted: seq<Symbol>): (r: seq<Symbol>)
    ensures multiset(r) == multiset(sorted) + multiset{k}
  {
    if sorted == [] then [k]
    else
      assert sorted == [sorted[0]] + sorted[1..];
      if Count(pd, sorted[0]) > Count(pd, k) then [sorted[0]] + InsertByCount(pd, k, sorted[1..])
    else [k] + sorted
  }

  /** A stable sort by descending count (the source's `sort` with comparator
      `(a,b) => count(b) - count(a)`, stable as the language requires): each key
      goes in front of the later keys with as many dice. */
  function SortByCountDesc(pd: Dice, ks: seq<Symbol>): (r: seq<Symbol>)
    ensures multiset(r) == multiset(ks)
  {
    if ks == [] then []
    else
      assert ks == [ks[0]] + ks[1..];
      InsertByCount(pd, ks[0], SortByCountDesc(pd, ks[1..]))
  }

  /** The refill loop: each key in turn takes as many of its dice as still fit. */
  function Refill(pd: Dice, chest: Dice, ks: seq<Symbol>, remaining: int): (r: Dice)
    ensures forall k :: k !in ks ==> Count(r, k) == Count(chest, k)
    ensures forall k :: k in ks ==> Count(r, k) <= Count(pd, k) || Count(r, k) == Count(chest, k)
    decreases |ks|
  {
    if ks == [] || remaining <= 0 then chest
    else
      var n := Count(pd, ks[0]);
      var add := if n < remaining then n else remaining;
      Refill(pd, WithCount(chest, ks[0], add), ks[1..], remaining - add)
  }

  /** Every stashable count cut down to the roll; the skull count set to 0. */
  function ClampChest(chest: Dice, pd: Dice): (r: Dice)
    ensures r.skull == 0
    ensures forall k :: k != Skull ==> Count(r, k) == (if Count(chest, k) < Count(pd, k) then Count(chest, k) else Count(pd, k))
  {
    Dice(0,
         if chest.saber < pd.saber then chest.saber else pd.saber,
         if chest.monkey < pd.monkey then chest.monkey else pd.monkey,
         if chest.parrot < pd.parrot then chest.parrot else pd.parrot,
         if chest.gold < pd.gold then chest.gold else pd.gold,
         if chest.diamond < pd.diamond then chest.diamond else pd.diamond)
  }

  /** The chest before the refill: the primary set if it has 3 or more dice,
      and every gold coin and diamond. */
  function SeededChest(pd: Dice): Dice
  {
    var best := BestUpTo(pd, |Candidates|);
    var chest := InitDiceCounts();
    var chest := if best.0.Some? && best.1 >= 3 then WithCount(chest, best.0.value, best.1) else chest;
    chest.(gold := pd.gold, diamond := pd.diamond)
  }

  /** The order in which the candidates other than `best` are refilled. */
  function RefillOrderFrom(pd: Dice, best: Option<Symbol>): seq<Symbol>
  {
    SortByCountDesc(pd, Without(Candidates, best))
  }

  function RefillOrder(pd: Dice): seq<Symbol>
  {
    RefillOrderFrom(pd, BestUpTo(pd, |Candidates|).0)
  }

  /** A seeded chest refilled, up to 8 dice, in the order `others`. */
  function Filled(pd: Dice, seeded: Dice, others: seq<Symbol>): Dice
  {
    var used := seeded.saber + seeded.monkey + seeded.parrot + seeded.gold + seeded.diamond;
    var remaining := 8 - used;
    if remaining > 0 then Refill(pd, seeded, others, remaining) else seeded
  }

  /** The chest after the refill, before the final clamp. */
  function FilledChest(pd: Dice): Dice
  {
    Filled(pd, SeededChest(pd), RefillOrder(pd))
  }

  /** The heuristic chest suggestion for a roll. */
  function AutoSuggest(pd: Dice): Dice
  {
    ClampChest(FilledChest(pd), pd)
  }

  /** The source's search loop for the primary set. */
  method FindBestCandidate(pd: Dice) returns (bestKey: Option<Symbol>, bestN: nat)
    ensures (bestKey, bestN) == BestUpTo(pd, |Candidates|)
  {
    bestKey, bestN := None, 0;
    for i := 0 to |Candidates|
      invariant (bestKey, bestN) == BestUpTo(pd, i)
    {
      var n := Count(pd, Candidates[i]);
      if n > bestN {
        bestN := n;
        bestKey := Some(Candidates[i]);
      }
    }
  }

  /** The source's refill loop, which stops once nothing remains. */
  method RefillLoop(pd: Dice, chest0: Dice, others: seq<Symbol>, remaining0: int) returns (chest: Dice)
    ensures chest == Refill(pd, chest0, others, remaining0)
  {
    chest := chest0;
    var remaining := remaining0;
    var i := 0;
    while i < |others|
      invariant 0 <= i <= |others|
      invariant Refill(pd, chest, others[i..], remaining) == Refill(pd, chest0, others, remaining0)
    {
      if remaining <= 0 {
        break;
      }
      var k := others[i];
      var n := Count(pd, k);
      var add := if n < remaining then n else remaining;
      assert others[i..][1..] == others[i + 1..];
      chest := WithCount(chest, k, add);
      remaining := remaining - add;
      i := i + 1;
    }
  }

  /** The source's final pass: skull set to 0, each stashable key cut to the roll. */
  method ClampLoop(chest0: Dice, pd: Dice) returns (chest: Dice)
    ensures chest == ClampChest(chest0, pd)
  {
    chest := chest0.(skull := 0);
    for i := 0 to |ChestAllowed|
      invariant chest.skull == 0
      invariant forall j :: 0 <= j < i ==> Count(chest, ChestAllowed[j]) == Count(ClampChest(chest0, pd), ChestAllowed[j])
      invariant forall j :: i <= j < |ChestAllowed| ==> Count(chest, ChestAllowed[j]) == Count(chest0, ChestAllowed[j])
    {
      var k := ChestAllowed[i];
      chest := WithCount(chest, k, if Count(chest, k) < Count(pd, k) then Count(chest, k) else Count(pd, k));
    }
    assert forall i :: 0 <= i < |DiceTypes| ==> DiceTypes[i] == Skull || DiceTypes[i] in ChestAllowed;
    DiceExtensional(chest, ClampChest(chest0, pd));
  }

  /** The source's seeding of the chest from the primary set, coins and diamonds. */
  method SeedChest(pd: Dice) returns (chest: Dice, bestKey: Option<Symbol>)
    ensures chest == SeededChest(pd)
    ensures bestKey == BestUpTo(pd, |Candidates|).0
  {
    chest := InitDiceCounts();
    var bestN;
    bestKey, bestN := FindBestCandidate(pd);
    if bestKey.Some? && bestN >= 3 {
      chest := WithCount(chest, bestKey.value, bestN);
    }
    chest := chest.(gold := pd.gold);
    chest := chest.(diamond := pd.diamond);
  }

  /** The source's auto-fill, mutating a chest and counting `remaining` down. */
  method ChestAutoSuggest(pd: Dice) returns (chest: Dice)
    ensures chest == AutoSuggest(pd)
  {
    chest := FillChest(pd);
    chest := ClampLoop(chest, pd);
  }

  /** The source's seeding and refill. */
  method FillChest(pd: Dice) returns (chest: Dice)
    ensures chest == FilledChest(pd)
  {
    var seeded, bestKey := SeedChest(pd);
    var others := RefillOrderFrom(pd, bestKey);
    chest := RefillSeeded(pd, seeded, others);
  }

  /** The source's refill of a seeded chest, counting `remaining` down from 8. */
  method RefillSeeded(pd: Dice, seeded: Dice, others: seq<Symbol>) returns (chest: Dice)
    ensures chest == Filled(pd, seeded, others)
  {
    chest := seeded;
    var used := chest.saber + chest.monkey + chest.parrot + chest.gold + chest.diamond;
    var remaining := 8 - used;
    if remaining > 0 {
      chest := RefillLoop(pd, chest, others, remaining);
    }
  }

  // ---------------------------------------------------------------------------
  // The turn gate

  /** What the turn screen shows and what confirmation consults. */
  datatype TurnComputed = TurnComputed(
    canConfirm: bool,
    totalDice: nat,
    skullsTotal: nat,
    points: int,
    bust: bool,
    canSkullIsland: bool,
    skullIslandBaseSkulls: nat,
    earlyDeath: bool,
    canSkullIslandNow: bool)

  /** The turn result for the physical dice placed so far under a card. */
  function ComputeTurn(mode: Mode, f: Fortune, physical: Dice): TurnComputed
  {
    var all := Merge(ApplyFortuneBaseDice(f), physical);
    var diceTotal := TotalDice(physical);
    var skullsTotal := all.skull;
    var now := skullsTotal >= 4;
    var earlyDeath := skullsTotal >= 3 && !now && !f.ChestCard?;
    var canConfirm := diceTotal == 8 || earlyDeath || now;
    var bust := skullsTotal >= 3;
    var points := if now || !canConfirm || earlyDeath then 0 else PointsFromDice(mode, f, all).points;
    TurnComputed(canConfirm, diceTotal, skullsTotal, points, bust, now, if now then skullsTotal else 0, earlyDeath, now)
  }

  /** The source's step-by-step construction of the turn result. */
  method ComputeTurnSteps(mode: Mode, f: Fortune, physical: Dice) returns (computed: TurnComputed)
    ensures computed == ComputeTurn(mode, f, physical)
  {
    var baseFromCard := ApplyFortuneBaseDice(f);
    var all := MergeDice(baseFromCard, physical);
    var diceTotal := TotalDice(physical);
    var skullsTotal := all.skull;
    var canSkullIslandNow := skullsTotal >= 4;
    var earlyDeath := skullsTotal >= 3 && !canSkullIslandNow && !f.ChestCard?;
    var canConfirm := diceTotal == 8 || earlyDeath || canSkullIslandNow;
    computed := TurnComputed(canConfirm, diceTotal, skullsTotal, 0, skullsTotal >= 3, false, 0, earlyDeath, canSkullIslandNow);
    if canSkullIslandNow {
      computed := computed.(canSkullIsland := true);
      computed := computed.(skullIslandBaseSkulls := skullsTotal);
      computed := computed.(points := 0);
      return;
    }
    if !canConfirm {
      return;
    }
    if earlyDeath {
      computed := computed.(points := 0);
      return;
    }
    var normal := ComputePointsFromDice(mode, f, all);
    computed := computed.(points := normal.points);
  }
}
