/**
  The fixed tables of the game: the six dice symbols, the twelve fortune
  cards, the symbols a chest may hold, the set-bonus table and the target
  score. Labels and emoji are presentation and are not modelled; each
  symbol and card keeps its key string.
 */
module Constants {

  /** A face of a die. */
  datatype Symbol = Skull | Saber | Monkey | Parrot | Gold | Diamond

  /** The keys of the dice table, in table order. */
  const DiceTypes: seq<Symbol> := [Skull, Saber, Monkey, Parrot, Gold, Diamond]

  function SymbolKey(k: Symbol): string
  {
    match k
    case Skull => "skull"
    case Saber => "saber"
    case Monkey => "monkey"
    case Parrot => "parrot"
    case Gold => "gold"
    case Diamond => "diamond"
  }

  /** The symbols that may be stashed in a chest, in table order. */
  const ChestAllowed: seq<Symbol> := [Saber, Monkey, Parrot, Gold, Diamond]

  /** The fortune (action) card drawn for a turn. */
  datatype Fortune =
    | NoCard | Pirate | Animals | GoldCard | DiamondCard | Skull1 | Skull2
    | Sorceress | Ship2 | Ship3 | Ship4 | ChestCard

  /** The fortune table, in table order. */
  const FortuneTable: seq<Fortune> :=
    [NoCard, Pirate, Animals, GoldCard, DiamondCard, Skull1, Skull2,
     Sorceress, Ship2, Ship3, Ship4, ChestCard]

  function FortuneKey(f: Fortune): string
  {
    match f
    case NoCard => "none"
    case Pirate => "pirate"
    case Animals => "animals"
    case GoldCard => "gold"
    case DiamondCard => "diamond"
    case Skull1 => "skull1"
    case Skull2 => "skull2"
    case Sorceress => "sorceress"
    case Ship2 => "ship2"
    case Ship3 => "ship3"
    case Ship4 => "ship4"
    case ChestCard => "chest"
  }

  /** The set-bonus table, keyed by the exact size of a set. */
  const SetPointsTable: map<nat, nat> :=
    map[3 := 100, 4 := 200, 5 := 500, 6 := 1000, 7 := 2000, 8 := 4000]

  /** A lookup in the set-bonus table; a size missing from it is worth 0. */
  function SetPoints(n: nat): nat
  {
    if n in SetPointsTable then SetPointsTable[n] else 0
  }

  /** The score that starts the final phase. */
  const TargetScore: int := 6000

  /** The table is defined exactly for the sizes 3 to 8, with these values. */
  lemma SetPointsValues(n: nat)
    ensures n in SetPointsTable <==> 3 <= n <= 8
    ensures SetPoints(3) == 100 && SetPoints(4) == 200 && SetPoints(5) == 500
    ensures SetPoints(6) == 1000 && SetPoints(7) == 2000 && SetPoints(8) == 4000
    ensures !(3 <= n <= 8) ==> SetPoints(n) == 0
  {
  }

  /** A larger set is worth strictly more inside the table. */
  lemma SetPointsIncreasing(m: nat, n: nat)
    requires 3 <= m < n <= 8
    ensures SetPoints(m) < SetPoints(n)
  {
  }

  /** The chest may hold exactly the five symbols other than the skull. */
  lemma ChestAllowedIsNonSkull(k: Symbol)
    ensures k in ChestAllowed <==> k != Skull
    ensures |ChestAllowed| == 5 && Skull !in ChestAllowed
  {
  }

  /** Twelve cards, each listed once, with pairwise distinct keys. */
  lemma FortuneTableDistinct()
    ensures |FortuneTable| == 12
    ensures forall f: Fortune :: f in FortuneTable
    ensures forall i, j :: 0 <= i < j < |FortuneTable| ==>
      FortuneKey(FortuneTable[i]) != FortuneKey(FortuneTable[j])
  {
    forall f: Fortune ensures f in FortuneTable {
      var i := match f
        case NoCard => 0 case Pirate => 1 case Animals => 2 case GoldCard => 3
        case DiamondCard => 4 case Skull1 => 5 case Skull2 => 6 case Sorceress => 7
        case Ship2 => 8 case Ship3 => 9 case Ship4 => 10 case ChestCard => 11;
      assert FortuneTable[i] == f;
    }
  }

  /** Six symbols, each listed once, with pairwise distinct keys. */
  lemma DiceTypesDistinct()
    ensures |DiceTypes| == 6
    ensures forall k: Symbol :: k in DiceTypes
    ensures forall i, j :: 0 <= i < j < |DiceTypes| ==>
      SymbolKey(DiceTypes[i]) != SymbolKey(DiceTypes[j])
  {
    forall k: Symbol ensures k in DiceTypes {
      var i := match k
        case Skull => 0 case Saber => 1 case Monkey => 2
        case Parrot => 3 case Gold => 4 case Diamond => 5;
      assert DiceTypes[i] == k;
    }
  }
}
