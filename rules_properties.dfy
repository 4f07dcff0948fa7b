/**
  Properties of the dice-rule engine: the tally helpers, clamping, chest
  validation and auto-fill, scoring under each kind of card, the turn
  gate, and the worked values the game's own test cases record.
 */
module RulesProperties {
  import opened Constants
  import opened Wrappers
  import opened Rules

  // ---------------------------------------------------------------------------
  // Tallies

  /** Adding a key at the end adds its count. */
  lemma KeySumSnoc(d: Dice, keys: seq<Symbol>, k: Symbol)
    ensures KeySum(d, keys + [k]) == KeySum(d, keys) + Count(d, k)
  {
    assert (keys + [k])[..|keys|] == keys;
  }

  /** The six-field sum is the sum over the dice table. */
  lemma TotalDiceIsKeySum(d: Dice)
    ensures TotalDice(d) == KeySum(d, DiceTypes)
  {
    KeySumSnoc(d, [], Skull);
    KeySumSnoc(d, [Skull], Saber);
    KeySumSnoc(d, [Skull, Saber], Monkey);
    KeySumSnoc(d, [Skull, Saber, Monkey], Parrot);
    KeySumSnoc(d, [Skull, Saber, Monkey, Parrot], Gold);
    KeySumSnoc(d, [Skull, Saber, Monkey, Parrot, Gold], Diamond);
    assert [] + [Skull] == [Skull];
    assert [Skull] + [Saber] == [Skull, Saber];
    assert [Skull, Saber] + [Monkey] == [Skull, Saber, Monkey];
    assert [Skull, Saber, Monkey] + [Parrot] == [Skull, Saber, Monkey, Parrot];
    assert [Skull, Saber, Monkey, Parrot] + [Gold] == [Skull, Saber, Monkey, Parrot, Gold];
    assert [Skull, Saber, Monkey, Parrot, Gold] + [Diamond] == DiceTypes;
  }

  /** The stashable dice are the dice that are not skulls. */
  lemma AllowedSumIsNonSkulls(d: Dice)
    ensures AllowedSum(d) == d.saber + d.monkey + d.parrot + d.gold + d.diamond
    ensures AllowedSum(d) == TotalDice(d) - d.skull
  {
    KeySumSnoc(d, [], Saber);
    KeySumSnoc(d, [Saber], Monkey);
    KeySumSnoc(d, [Saber, Monkey], Parrot);
    KeySumSnoc(d, [Saber, Monkey, Parrot], Gold);
    KeySumSnoc(d, [Saber, Monkey, Parrot, Gold], Diamond);
    assert [] + [Saber] == [Saber];
    assert [Saber] + [Monkey] == [Saber, Monkey];
    assert [Saber, Monkey] + [Parrot] == [Saber, Monkey, Parrot];
    assert [Saber, Monkey, Parrot] + [Gold] == [Saber, Monkey, Parrot, Gold];
    assert [Saber, Monkey, Parrot, Gold] + [Diamond] == ChestAllowed;
  }

  /** Replacing one count moves the total by the difference. */
  lemma TotalWithCount(d: Dice, k: Symbol, v: nat)
    ensures TotalDice(WithCount(d, k, v)) == TotalDice(d) - Count(d, k) + v
  {
  }

  /** Merging adds the totals, is commutative and has the empty tally as unit. */
  lemma MergeLaws(a: Dice, b: Dice)
    ensures TotalDice(Merge(a, b)) == TotalDice(a) + TotalDice(b)
    ensures Merge(a, b) == Merge(b, a)
    ensures Merge(InitDiceCounts(), a) == a
  {
  }

  /** The base dice of each card: one coin, one diamond, one or two skulls, or nothing. */
  lemma FortuneBaseDice(f: Fortune)
    ensures var b := ApplyFortuneBaseDice(f);
      b.saber == 0 && b.monkey == 0 && b.parrot == 0 &&
      b.gold == (if f == GoldCard then 1 else 0) &&
      b.diamond == (if f == DiamondCard then 1 else 0) &&
      b.skull == (if f == Skull1 then 1 else if f == Skull2 then 2 else 0)
  {
  }

  // ---------------------------------------------------------------------------
  // Clamping

  /** Clamping is idempotent and never lowers a score. */
  lemma ClampScoreIdempotent(mode: Mode, s: int)
    ensures ClampScore(mode, ClampScore(mode, s)) == ClampScore(mode, s)
    ensures ClampScore(mode, s) >= s
    ensures mode == Normal ==> ClampScore(mode, s) == (if s > 0 then s else 0)
  {
  }

  // ---------------------------------------------------------------------------
  // Chest validation

  /** A selection holding a skull is always refused, and refused with the skull reason. */
  lemma ChestWithSkullRejected(final: Dice, chest: Dice)
    requires chest.skull != 0
    ensures !ValidateChest(final, chest).ok
    ensures ValidateChest(final, chest).reasons == [SkullStashed]
  {
  }

  /** A selection within a roll of at most 8 dice, without skulls, is accepted. */
  lemma ChestWithinRollAccepted(final: Dice, chest: Dice)
    requires TotalDice(final) <= 8
    requires chest.skull == 0
    requires forall k :: k != Skull ==> Count(chest, k) <= Count(final, k)
    ensures ValidateChest(final, chest).ok
    ensures ValidateChest(final, chest).sum == TotalDice(chest)
  {
    AllowedSumIsNonSkulls(chest);
    assert Count(chest, Saber) <= Count(final, Saber);
    assert Count(chest, Monkey) <= Count(final, Monkey);
    assert Count(chest, Parrot) <= Count(final, Parrot);
    assert Count(chest, Gold) <= Count(final, Gold);
    assert Count(chest, Diamond) <= Count(final, Diamond);
  }

  /** The validator's cases from the game's test suite (CHEST-001 to CHEST-003). */
  lemma ChestValidationExamples()
    ensures !ValidateChest(Dice(3, 0, 0, 0, 5, 0), Dice(1, 0, 0, 0, 0, 0)).ok
    ensures ValidateChest(Dice(5, 0, 0, 0, 2, 1), Dice(0, 0, 0, 0, 3, 0)) ==
            ChestCheck(false, 3, [MoreThanRolled(Gold)])
    ensures ValidateChest(Dice(0, 1, 1, 3, 2, 1), Dice(0, 0, 0, 1, 2, 0)) == ChestCheck(true, 3, [])
  {
    var a := Dice(5, 0, 0, 0, 2, 1);
    var b := Dice(0, 0, 0, 0, 3, 0);
    assert Exceeds(a, b, ChestAllowed[3]);
    assert FirstExcess(a, b, 0) == 3;
    assert ChestAllowed[..4] == [Saber, Monkey, Parrot] + [Gold];
    KeySumSnoc(b, [], Saber);
    KeySumSnoc(b, [Saber], Monkey);
    KeySumSnoc(b, [Saber, Monkey], Parrot);
    KeySumSnoc(b, [Saber, Monkey, Parrot], Gold);
    AllowedSumIsNonSkulls(Dice(0, 0, 0, 1, 2, 0));
  }

  // ---------------------------------------------------------------------------
  // Chest auto-fill

  /** Keys not handed to the refill keep their seeded count. */
  lemma RefillLeavesOthers(pd: Dice, chest: Dice, ks: seq<Symbol>, remaining: int, k: Symbol)
    requires k !in ks
    ensures Count(Refill(pd, chest, ks, remaining), k) == Count(chest, k)
  {
  }

  /** The primary set is never handed to the refill. */
  lemma BestNotRefilled(pd: Dice, k: Symbol)
    requires BestUpTo(pd, |Candidates|).0 == Some(k)
    ensures k !in SortByCountDesc(pd, Without(Candidates, Some(k)))
  {
    var ks := Without(Candidates, Some(k));
    var sorted := SortByCountDesc(pd, ks);
    assert k !in ks;
    assert k !in multiset(ks);
    assert k !in multiset(sorted);
  }

  /** The refill only ever touches the three set candidates. */
  lemma RefillOrderCandidates(pd: Dice, best: Option<Symbol>)
    ensures Gold !in SortByCountDesc(pd, Without(Candidates, best))
    ensures Diamond !in SortByCountDesc(pd, Without(Candidates, best))
    ensures Skull !in SortByCountDesc(pd, Without(Candidates, best))
  {
    var ks := Without(Candidates, best);
    SortedKeys(pd, ks);
    assert Gold !in Candidates && Diamond !in Candidates && Skull !in Candidates;
  }

  /** Counts never grow along `ks`. */
  predicate DescendingByCount(pd: Dice, ks: seq<Symbol>)
  {
    forall i, j :: 0 <= i < j < |ks| ==> Count(pd, ks[i]) >= Count(pd, ks[j])
  }

  /** The keys of `ks` with exactly `c` dice, in their order in `ks`. */
  function WithCountOf(pd: Dice, ks: seq<Symbol>, c: nat): seq<Symbol>
  {
    if ks == [] then [] else Keep(pd, ks[0], c) + WithCountOf(pd, ks[1..], c)
  }

  function Keep(pd: Dice, k: Symbol, c: nat): seq<Symbol>
  {
    if Count(pd, k) == c then [k] else []
  }

  /** The refill order sorts by count from the most to the fewest dice. */
  lemma {:induction false} SortDescending(pd: Dice, ks: seq<Symbol>)
    ensures DescendingByCount(pd, SortByCountDesc(pd, ks))
  {
    if ks != [] {
      SortDescending(pd, ks[1..]);
      InsertKeepsOrder(pd, ks[0], SortByCountDesc(pd, ks[1..]));
    }
  }

  /** The sort is stable: keys with the same count keep their order in `ks`. */
  lemma {:induction false} SortStable(pd: Dice, ks: seq<Symbol>, c: nat)
    ensures WithCountOf(pd, SortByCountDesc(pd, ks), c) == WithCountOf(pd, ks, c)
  {
    if ks != [] {
      SortStable(pd, ks[1..], c);
      InsertStable(pd, ks[0], SortByCountDesc(pd, ks[1..]), c);
    }
  }

  /** Inserting into a list sorted by count keeps it sorted. */
  lemma {:induction false} InsertKeepsOrder(pd: Dice, k: Symbol, sorted: seq<Symbol>)
    requires DescendingByCount(pd, sorted)
    ensures DescendingByCount(pd, InsertByCount(pd, k, sorted))
  {
    if sorted == [] {
      assert InsertByCount(pd, k, sorted) == [k];
    } else if Count(pd, sorted[0]) > Count(pd, k) {
      var rest := sorted[1..];
      var ins := InsertByCount(pd, k, rest);
      InsertKeepsOrder(pd, k, rest);
      assert InsertByCount(pd, k, sorted) == [sorted[0]] + ins;
      HeadIsMost(pd, sorted);
      forall x | x in ins
        ensures Count(pd, x) <= Count(pd, sorted[0])
      {
        InsertedFrom(pd, k, rest, x);
      }
      ConsDescending(pd, sorted[0], ins);
    } else {
      assert InsertByCount(pd, k, sorted) == [k] + sorted;
      HeadIsMost(pd, sorted);
      ConsDescending(pd, k, sorted);
    }
  }

  /** The head of a descending list has the largest count in it. */
  lemma HeadIsMost(pd: Dice, ks: seq<Symbol>)
    requires DescendingByCount(pd, ks) && ks != []
    ensures forall x | x in ks :: Count(pd, x) <= Count(pd, ks[0])
    ensures forall x | x in ks[1..] :: Count(pd, x) <= Count(pd, ks[0])
  {
    forall x | x in ks
      ensures Count(pd, x) <= Count(pd, ks[0])
    {
      var m :| 0 <= m < |ks| && ks[m] == x;
    }
  }

  /** An inserted list holds only the old keys and the new one. */
  lemma InsertedFrom(pd: Dice, k: Symbol, sorted: seq<Symbol>, x: Symbol)
    requires x in InsertByCount(pd, k, sorted)
    ensures x in sorted || x == k
  {
    assert x in multiset(InsertByCount(pd, k, sorted));
  }

  /** A key with at least the dice of every key of a sorted list can lead it. */
  lemma ConsDescending(pd: Dice, x: Symbol, ys: seq<Symbol>)
    requires DescendingByCount(pd, ys)
    requires forall y :: y in ys ==> Count(pd, y) <= Count(pd, x)
    ensures DescendingByCount(pd, [x] + ys)
  {
    var r := [x] + ys;
    forall i, j | 0 <= i < j < |r|
      ensures Count(pd, r[i]) >= Count(pd, r[j])
    {
      assert r[j] == ys[j - 1];
      if i > 0 {
        assert r[i] == ys[i - 1];
      }
    }
  }

  /** Inserting a key puts it in front of the keys with the same count. */
  lemma {:induction false} InsertStable(pd: Dice, k: Symbol, sorted: seq<Symbol>, c: nat)
    ensures WithCountOf(pd, InsertByCount(pd, k, sorted), c) == Keep(pd, k, c) + WithCountOf(pd, sorted, c)
  {
    if sorted == [] {
      assert InsertByCount(pd, k, sorted) == [k];
      assert [k][1..] == [];
    } else if Count(pd, sorted[0]) > Count(pd, k) {
      InsertStable(pd, k, sorted[1..], c);
      InsertStableBehind(pd, k, sorted, c);
    } else {
      assert InsertByCount(pd, k, sorted) == [k] + sorted;
      assert ([k] + sorted)[1..] == sorted;
    }
  }

  /** The step of the insertion that passes over a key with more dice. */
  lemma InsertStableBehind(pd: Dice, k: Symbol, sorted: seq<Symbol>, c: nat)
    requires sorted != [] && Count(pd, sorted[0]) > Count(pd, k)
    requires WithCountOf(pd, InsertByCount(pd, k, sorted[1..]), c) == Keep(pd, k, c) + WithCountOf(pd, sorted[1..], c)
    ensures WithCountOf(pd, InsertByCount(pd, k, sorted), c) == Keep(pd, k, c) + WithCountOf(pd, sorted, c)
  {
    var ins := InsertByCount(pd, k, sorted[1..]);
    InsertPassesOver(pd, k, sorted);
    ConsWithCount(pd, sorted[0], ins, c);
    SwapEmpty(Keep(pd, sorted[0], c), Keep(pd, k, c), WithCountOf(pd, sorted[1..], c));
  }

  /** Insertion passes over a first key with more dice. */
  lemma InsertPassesOver(pd: Dice, k: Symbol, sorted: seq<Symbol>)
    requires sorted != [] && Count(pd, sorted[0]) > Count(pd, k)
    ensures InsertByCount(pd, k, sorted) == [sorted[0]] + InsertByCount(pd, k, sorted[1..])
  {
  }

  /** Picking by count from a list with a key in front. */
  lemma ConsWithCount(pd: Dice, x: Symbol, ys: seq<Symbol>, c: nat)
    ensures WithCountOf(pd, [x] + ys, c) == Keep(pd, x, c) + WithCountOf(pd, ys, c)
  {
    assert ([x] + ys)[1..] == ys;
  }

  /** Two pieces of which one is empty can be put in either order. */
  lemma SwapEmpty(a: seq<Symbol>, b: seq<Symbol>, t: seq<Symbol>)
    requires a == [] || b == []
    ensures a + (b + t) == b + (a + t)
  {
    if a == [] {
      assert a + (b + t) == b + t == b + (a + t);
    } else {
      assert b + (a + t) == a + t == a + (b + t);
    }
  }

  /** Sorting by count keeps exactly the keys it was given. */
  lemma SortedKeys(pd: Dice, ks: seq<Symbol>)
    ensures forall k :: k in SortByCountDesc(pd, ks) <==> k in ks
  {
    var sorted := SortByCountDesc(pd, ks);
    forall k
      ensures k in sorted <==> k in ks
    {
      assert k in sorted <==> k in multiset(sorted);
      assert k in ks <==> k in multiset(ks);
    }
  }

  /** The refill visits the candidates other than the primary set from the
      most to the fewest dice, ties in the order saber, monkey, parrot. */
  lemma RefillOrderSorted(pd: Dice)
    ensures DescendingByCount(pd, RefillOrder(pd))
    ensures forall c: nat :: WithCountOf(pd, RefillOrder(pd), c) == WithCountOf(pd, Without(Candidates, BestUpTo(pd, |Candidates|).0), c)
  {
    var ks := Without(Candidates, BestUpTo(pd, |Candidates|).0);
    SortDescending(pd, ks);
    forall c: nat
      ensures WithCountOf(pd, RefillOrder(pd), c) == WithCountOf(pd, ks, c)
    {
      SortStable(pd, ks, c);
    }
  }

  /** The suggestion never stashes a skull and never more of a symbol than was rolled. */
  lemma AutoSuggestWithinRoll(pd: Dice)
    ensures AutoSuggest(pd).skull == 0
    ensures forall k :: Count(AutoSuggest(pd), k) <= Count(pd, k)
  {
  }

  /** A key the refill does not visit keeps its seeded count. */
  lemma FilledChestKeeps(pd: Dice, k: Symbol)
    requires k !in RefillOrder(pd)
    ensures Count(FilledChest(pd), k) == Count(SeededChest(pd), k)
  {
    var seeded := SeededChest(pd);
    var used := seeded.saber + seeded.monkey + seeded.parrot + seeded.gold + seeded.diamond;
    if 8 - used > 0 {
      RefillLeavesOthers(pd, seeded, RefillOrder(pd), 8 - used, k);
    }
  }

  /** The seeded chest: all coins and diamonds, and the primary set if it has 3 or more dice. */
  lemma SeededChestCounts(pd: Dice)
    ensures SeededChest(pd).gold == pd.gold && SeededChest(pd).diamond == pd.diamond
    ensures var best := BestUpTo(pd, |Candidates|);
      best.0.Some? ==>
        (best.0.value in Candidates && Count(pd, best.0.value) == best.1 &&
         Count(SeededChest(pd), best.0.value) == (if best.1 >= 3 then best.1 else 0))
  {
    var best := BestUpTo(pd, |Candidates|);
    if best.0.Some? {
      var j :| 0 <= j < |Candidates| && Candidates[j] == best.0.value && Count(pd, Candidates[j]) == best.1;
      assert best.0.value in Candidates;
    }
  }

  /** Every coin and diamond is stashed; the primary set is stashed whole when it
      has 3 or more dice and not at all when it has fewer (it is also left out of
      the refill). */
  lemma AutoSuggestPrimarySet(pd: Dice)
    ensures AutoSuggest(pd).gold == pd.gold && AutoSuggest(pd).diamond == pd.diamond
    ensures var best := BestUpTo(pd, |Candidates|);
      best.0.Some? ==>
        Count(AutoSuggest(pd), best.0.value) == (if best.1 >= 3 then best.1 else 0)
  {
    var best := BestUpTo(pd, |Candidates|);
    SeededChestCounts(pd);
    RefillOrderCandidates(pd, best.0);
    FilledChestKeeps(pd, Gold);
    FilledChestKeeps(pd, Diamond);
    if best.0.Some? {
      var k := best.0.value;
      BestNotRefilled(pd, k);
      FilledChestKeeps(pd, k);
      assert Count(AutoSuggest(pd), k) == Count(ClampChest(FilledChest(pd), pd), k);
    }
  }

  /** On a roll of at most 8 dice, the suggestion passes the validator. */
  lemma AutoSuggestValid(pd: Dice)
    requires TotalDice(pd) <= 8
    ensures ValidateChest(pd, AutoSuggest(pd)).ok
  {
    AutoSuggestWithinRoll(pd);
    ChestWithinRollAccepted(pd, AutoSuggest(pd));
  }

  // ---------------------------------------------------------------------------
  // How much the refill stashes

  /** No key occurs twice. */
  predicate DistinctKeys(ks: seq<Symbol>)
  {
    forall i, j :: 0 <= i < j < |ks| ==> ks[i] != ks[j]
  }

  /** The sum over a concatenation is the sum of the sums. */
  lemma {:induction false} KeySumAppend(d: Dice, a: seq<Symbol>, b: seq<Symbol>)
    ensures KeySum(d, a + b) == KeySum(d, a) + KeySum(d, b)
  {
    if b != [] {
      var front := b[..|b| - 1];
      KeySumAppend(d, a, front);
      assert (a + b)[..|a + b| - 1] == a + front;
    } else {
      assert a + b == a;
    }
  }

  /** Adding a key in front adds its count. */
  lemma KeySumCons(d: Dice, k: Symbol, ks: seq<Symbol>)
    ensures KeySum(d, [k] + ks) == Count(d, k) + KeySum(d, ks)
  {
    KeySumAppend(d, [k], ks);
    assert [k][..0] == [];
  }

  /** The keys up to and including position `j` sum to at most the whole. */
  lemma KeySumPrefix(d: Dice, ks: seq<Symbol>, j: nat)
    requires j < |ks|
    ensures KeySum(d, ks[..j]) + Count(d, ks[j]) <= KeySum(d, ks)
  {
    KeySumAppend(d, ks[..j + 1], ks[j + 1..]);
    assert ks[..j + 1] + ks[j + 1..] == ks;
    assert ks[..j + 1][..j] == ks[..j];
  }

  /** The sum does not depend on the order of the keys. */
  lemma {:induction false} KeySumPermutation(d: Dice, a: seq<Symbol>, b: seq<Symbol>)
    requires multiset(a) == multiset(b)
    ensures KeySum(d, a) == KeySum(d, b)
  {
    if a == [] {
      assert |b| == |multiset(b)| == 0;
    } else {
      var x := a[|a| - 1];
      var front := a[..|a| - 1];
      assert a == front + [x];
      assert x in multiset(b);
      var j :| 0 <= j < |b| && b[j] == x;
      var rest := b[..j] + b[j + 1..];
      assert b == b[..j] + ([x] + b[j + 1..]);
      assert multiset(rest) == multiset(b) - multiset{x};
      KeySumPermutation(d, front, rest);
      KeySumAppend(d, b[..j], [x] + b[j + 1..]);
      KeySumCons(d, x, b[j + 1..]);
      KeySumAppend(d, b[..j], b[j + 1..]);
    }
  }

  /** A key not yet in a list of distinct keys can lead it. */
  lemma ConsDistinct(x: Symbol, ys: seq<Symbol>)
    requires DistinctKeys(ys) && x !in ys
    ensures DistinctKeys([x] + ys)
  {
    var r := [x] + ys;
    forall i, j | 0 <= i < j < |r|
      ensures r[i] != r[j]
    {
      assert r[j] == ys[j - 1];
      if i > 0 {
        assert r[i] == ys[i - 1];
      }
    }
  }

  /** Inserting a new key keeps the keys distinct. */
  lemma {:induction false} InsertDistinct(pd: Dice, k: Symbol, sorted: seq<Symbol>)
    requires DistinctKeys(sorted) && k !in sorted
    ensures DistinctKeys(InsertByCount(pd, k, sorted))
  {
    if sorted != [] {
      if Count(pd, sorted[0]) > Count(pd, k) {
        var rest := sorted[1..];
        DistinctTail(sorted);
        InsertDistinct(pd, k, rest);
        forall x | x in InsertByCount(pd, k, rest)
          ensures x != sorted[0]
        {
          InsertedFrom(pd, k, rest, x);
          if x in rest {
            var m :| 0 <= m < |rest| && rest[m] == x;
            assert sorted[m + 1] == x;
          }
        }
        ConsDistinct(sorted[0], InsertByCount(pd, k, rest));
      } else {
        ConsDistinct(k, sorted);
      }
    }
  }

  /** Sorting keeps the keys distinct. */
  lemma {:induction false} SortDistinct(pd: Dice, ks: seq<Symbol>)
    requires DistinctKeys(ks)
    ensures DistinctKeys(SortByCountDesc(pd, ks))
  {
    if ks != [] {
      var rest := ks[1..];
      DistinctTail(ks);
      SortDistinct(pd, rest);
      SortedKeys(pd, rest);
      InsertDistinct(pd, ks[0], SortByCountDesc(pd, rest));
    }
  }

  /** The smaller of two counts (the source's `Math.min`). */
  function Min(a: int, b: int): int
  {
    if a < b then a else b
  }

  /** The room the refill has left when it reaches position `i` of `ks`, had
      every earlier key taken all of its dice. */
  function RoomAt(pd: Dice, ks: seq<Symbol>, remaining: int, i: nat): int
    requires i <= |ks|
  {
    remaining - KeySum(pd, ks[..i])
  }

  /** What the refill stashes, in closed form: the key at position `i` takes
      the smaller of its dice and the room left after the keys before it took
      all of theirs; once no room is left the loop has stopped and the key keeps
      its old stash count. */
  lemma RefillAmounts(pd: Dice, chest: Dice, ks: seq<Symbol>, remaining: int)
    requires DistinctKeys(ks)
    ensures forall i :: 0 <= i < |ks| ==>
      Count(Refill(pd, chest, ks, remaining), ks[i]) ==
        (if RoomAt(pd, ks, remaining, i) <= 0 then Count(chest, ks[i])
         else Min(Count(pd, ks[i]), RoomAt(pd, ks, remaining, i)))
  {
    forall i | 0 <= i < |ks|
      ensures Count(Refill(pd, chest, ks, remaining), ks[i]) ==
        (if RoomAt(pd, ks, remaining, i) <= 0 then Count(chest, ks[i])
         else Min(Count(pd, ks[i]), RoomAt(pd, ks, remaining, i)))
    {
      RefillAmountAt(pd, chest, ks, remaining, i);
    }
  }

  /** The refill adds at most the room it was given to the chest's total. */
  lemma {:induction false} RefillTotal(pd: Dice, chest: Dice, ks: seq<Symbol>, remaining: int)
    decreases |ks|
    ensures TotalDice(Refill(pd, chest, ks, remaining)) <= TotalDice(chest) + (if remaining > 0 then remaining else 0)
  {
    if ks != [] && remaining > 0 {
      var add := Min(Count(pd, ks[0]), remaining);
      RefillFirstStep(pd, chest, ks, remaining);
      RefillTotal(pd, WithCount(chest, ks[0], add), ks[1..], remaining - add);
      TotalWithCount(chest, ks[0], add);
    }
  }

  /** The closed form at one position, by induction on the keys. */
  lemma {:induction false} RefillAmountAt(pd: Dice, chest: Dice, ks: seq<Symbol>, remaining: int, i: nat)
    requires DistinctKeys(ks) && i < |ks|
    decreases |ks|, 1
    ensures var room := RoomAt(pd, ks, remaining, i);
      Count(Refill(pd, chest, ks, remaining), ks[i]) ==
        (if room <= 0 then Count(chest, ks[i]) else Min(Count(pd, ks[i]), room))
  {
    if remaining > 0 {
      if i == 0 {
        RefillFirstAmount(pd, chest, ks, remaining);
      } else {
        RefillLaterAmount(pd, chest, ks, remaining, i);
      }
    }
  }

  /** The first key takes the smaller of its dice and the whole room. */
  lemma RefillFirstAmount(pd: Dice, chest: Dice, ks: seq<Symbol>, remaining: int)
    requires DistinctKeys(ks) && ks != [] && remaining > 0
    ensures Count(Refill(pd, chest, ks, remaining), ks[0]) == Min(Count(pd, ks[0]), remaining)
    ensures RoomAt(pd, ks, remaining, 0) == remaining
  {
    var add := Min(Count(pd, ks[0]), remaining);
    RefillFirstStep(pd, chest, ks, remaining);
    DistinctTail(ks);
    RefillLeavesOthers(pd, WithCount(chest, ks[0], add), ks[1..], remaining - add, ks[0]);
    RoomStart(pd, ks, remaining);
  }

  /** A later key gets what the rest of the refill gives it, from the room the
      first key left. */
  lemma {:induction false} RefillLaterAmount(pd: Dice, chest: Dice, ks: seq<Symbol>, remaining: int, i: nat)
    requires DistinctKeys(ks) && 0 < i < |ks| && remaining > 0
    decreases |ks|, 0
    ensures var room := RoomAt(pd, ks, remaining, i);
      Count(Refill(pd, chest, ks, remaining), ks[i]) ==
        (if room <= 0 then Count(chest, ks[i]) else Min(Count(pd, ks[i]), room))
  {
    var n := Count(pd, ks[0]);
    var add := Min(n, remaining);
    var next := WithCount(chest, ks[0], add);
    var rest := ks[1..];
    RefillFirstStep(pd, chest, ks, remaining);
    DistinctTail(ks);
    RefillAmountAt(pd, next, rest, remaining - add, i - 1);
    assert rest[i - 1] == ks[i];
    assert Count(next, ks[i]) == Count(chest, ks[i]);
    RoomStep(pd, ks, remaining, add, i);
    var room := RoomAt(pd, ks, remaining, i);
    var after := RoomAt(pd, rest, remaining - add, i - 1);
    if add == n {
      assert after == room;
    } else {
      assert room <= 0 && after <= 0;
    }
  }

  /** One round of the refill loop. */
  lemma RefillFirstStep(pd: Dice, chest: Dice, ks: seq<Symbol>, remaining: int)
    requires ks != [] && remaining > 0
    ensures var add := Min(Count(pd, ks[0]), remaining);
      Refill(pd, chest, ks, remaining) == Refill(pd, WithCount(chest, ks[0], add), ks[1..], remaining - add)
  {
  }

  /** Past the first key, the keys are distinct and the first does not recur. */
  lemma DistinctTail(ks: seq<Symbol>)
    requires DistinctKeys(ks) && ks != []
    ensures DistinctKeys(ks[1..]) && ks[0] !in ks[1..]
  {
    var rest := ks[1..];
    forall a, b | 0 <= a < b < |rest|
      ensures rest[a] != rest[b]
    {
      assert rest[a] == ks[a + 1] && rest[b] == ks[b + 1];
    }
    forall m | 0 <= m < |rest|
      ensures rest[m] != ks[0]
    {
      assert rest[m] == ks[m + 1];
    }
  }

  /** Nothing has been taken before the first key. */
  lemma RoomStart(pd: Dice, ks: seq<Symbol>, remaining: int)
    ensures RoomAt(pd, ks, remaining, 0) == remaining
  {
    assert ks[..0] == [];
  }

  /** After the first key takes `add` dice, the room at a later position is the
      room had it taken all of its dice, plus what it left behind. */
  lemma RoomStep(pd: Dice, ks: seq<Symbol>, remaining: int, add: int, i: nat)
    requires 0 < i < |ks|
    ensures RoomAt(pd, ks[1..], remaining - add, i - 1) == RoomAt(pd, ks, remaining, i) + Count(pd, ks[0]) - add
  {
    assert ks[..i] == [ks[0]] + ks[1..][..i - 1];
    KeySumCons(pd, ks[0], ks[1..][..i - 1]);
  }

  /** The candidates other than the primary set, for each primary set. */
  lemma OtherCandidatesList()
    ensures Without(Candidates, None) == Candidates
    ensures Without(Candidates, Some(Saber)) == [Monkey, Parrot]
    ensures Without(Candidates, Some(Monkey)) == [Saber, Parrot]
    ensures Without(Candidates, Some(Parrot)) == [Saber, Monkey]
  {
    assert Candidates[1..] == [Monkey, Parrot] && [Monkey, Parrot][1..] == [Parrot] && [Parrot][1..] == [];
  }

  /** The candidates other than the primary set hold the set dice the primary
      set does not. */
  lemma OtherCandidates(pd: Dice, best: Option<Symbol>)
    requires best.None? || best.value in Candidates
    ensures KeySum(pd, Without(Candidates, best)) + (if best.Some? then Count(pd, best.value) else 0) ==
      pd.saber + pd.monkey + pd.parrot
  {
    OtherCandidatesList();
    if best.None? {
      KeySumThree(pd, Saber, Monkey, Parrot);
    } else if best.value == Saber {
      KeySumTwo(pd, Monkey, Parrot);
    } else if best.value == Monkey {
      KeySumTwo(pd, Saber, Parrot);
    } else {
      KeySumTwo(pd, Saber, Monkey);
    }
  }

  /** Leaving a key out keeps the keys distinct. */
  lemma {:induction false} WithoutDistinct(ks: seq<Symbol>, best: Option<Symbol>)
    requires DistinctKeys(ks)
    ensures DistinctKeys(Without(ks, best))
  {
    if ks != [] {
      DistinctTail(ks);
      WithoutDistinct(ks[1..], best);
      if best != Some(ks[0]) {
        ConsDistinct(ks[0], Without(ks[1..], best));
      }
    }
  }

  lemma KeySumTwo(d: Dice, x: Symbol, y: Symbol)
    ensures KeySum(d, [x, y]) == Count(d, x) + Count(d, y)
  {
    KeySumSnoc(d, [], x);
    KeySumSnoc(d, [x], y);
    assert [] + [x] == [x] && [x] + [y] == [x, y];
  }

  lemma KeySumThree(d: Dice, x: Symbol, y: Symbol, z: Symbol)
    ensures KeySum(d, [x, y, z]) == Count(d, x) + Count(d, y) + Count(d, z)
  {
    assert [x, y, z][..2] == [x, y];
    KeySumTwo(d, x, y);
  }

  /** The refill's budget: the seeded chest and every refill key together hold
      no more dice than the roll. */
  lemma RefillBudget(pd: Dice)
    ensures var seeded := SeededChest(pd);
      seeded.saber + seeded.monkey + seeded.parrot + seeded.gold + seeded.diamond + KeySum(pd, RefillOrder(pd)) <= TotalDice(pd)
    ensures DistinctKeys(RefillOrder(pd))
    ensures forall k :: k in RefillOrder(pd) ==> Count(SeededChest(pd), k) == 0 && k != Skull
  {
    var best := BestUpTo(pd, |Candidates|).0;
    SeededChestCounts(pd);
    var others := Without(Candidates, best);
    OtherCandidates(pd, best);
    WithoutDistinct(Candidates, best);
    KeySumPermutation(pd, RefillOrder(pd), others);
    SortDistinct(pd, others);
    SortedKeys(pd, others);
  }

  /** On a legal roll (at most 8 dice) the refill never runs out of room: every
      key it visits is stashed whole, so together with the primary set, the
      coins and the diamonds the suggestion is fixed for every roll. */
  lemma AutoSuggestRefillsWhole(pd: Dice)
    requires TotalDice(pd) <= 8
    ensures forall k :: k in RefillOrder(pd) ==> Count(AutoSuggest(pd), k) == Count(pd, k)
  {
    var ks := RefillOrder(pd);
    forall k | k in ks
      ensures Count(AutoSuggest(pd), k) == Count(pd, k)
    {
      var i :| 0 <= i < |ks| && ks[i] == k;
      FilledWhole(pd, i);
      RefillBudget(pd);
      assert Count(AutoSuggest(pd), k) == Count(ClampChest(FilledChest(pd), pd), k);
    }
  }

  /** The key at position `i` of the refill order is topped up to all its dice. */
  lemma FilledWhole(pd: Dice, i: nat)
    requires TotalDice(pd) <= 8 && i < |RefillOrder(pd)|
    ensures Count(FilledChest(pd), RefillOrder(pd)[i]) == Count(pd, RefillOrder(pd)[i])
  {
    var seeded := SeededChest(pd);
    var ks := RefillOrder(pd);
    var remaining := 8 - (seeded.saber + seeded.monkey + seeded.parrot + seeded.gold + seeded.diamond);
    RefillBudget(pd);
    KeySumPrefix(pd, ks, i);
    assert Count(seeded, ks[i]) == 0;
    assert FilledChest(pd) == Filled(pd, seeded, ks);
    if remaining > 0 {
      RefillAmountAt(pd, seeded, ks, remaining, i);
      assert RoomAt(pd, ks, remaining, i) >= Count(pd, ks[i]);
    }
  }

  // ---------------------------------------------------------------------------
  // Scoring

  /** Adding a group at the end adds its points. */
  lemma SetScoreSnoc(groups: seq<nat>, n: nat)
    ensures SetScore(groups + [n]) == SetScore(groups) + GroupPoints(n)
  {
    assert (groups + [n])[..|groups|] == groups;
  }

  /** The set score, group by group. */
  lemma SetScoreByGroup(f: Fortune, d: Dice)
    ensures SetScore(SetGroups(f, d)) ==
      (if f == Animals then GroupPoints(d.monkey + d.parrot) else GroupPoints(d.monkey) + GroupPoints(d.parrot))
      + GroupPoints(d.saber) + GroupPoints(d.gold) + GroupPoints(d.diamond)
  {
    if f == Animals {
      SetScoreOfFour(d.monkey + d.parrot, d.saber, d.gold, d.diamond);
    } else {
      SetScoreOfFour(d.monkey, d.parrot, d.saber, d.gold);
      SetScoreSnoc([d.monkey, d.parrot, d.saber, d.gold], d.diamond);
      assert [d.monkey, d.parrot, d.saber, d.gold] + [d.diamond] == SetGroups(f, d);
    }
  }

  /** The set score of four groups. */
  lemma SetScoreOfFour(a: nat, b: nat, c: nat, e: nat)
    ensures SetScore([a, b, c, e]) == GroupPoints(a) + GroupPoints(b) + GroupPoints(c) + GroupPoints(e)
  {
    assert [] + [a] == [a];
    assert [a] + [b] == [a, b];
    assert [a, b] + [c] == [a, b, c];
    assert [a, b, c] + [e] == [a, b, c, e];
    SetScoreSnoc([], a);
    SetScoreSnoc([a], b);
    SetScoreSnoc([a, b], c);
    SetScoreSnoc([a, b, c], e);
  }

  /** A set is worth its table value for 3 to 8 equal symbols and nothing otherwise. */
  lemma GroupPointsTable(n: nat)
    ensures 3 <= n <= 8 ==> GroupPoints(n) == SetPointsTable[n]
    ensures !(3 <= n <= 8) ==> GroupPoints(n) == 0
  {
  }

  /** Three or more skulls score nothing, whatever the card and the mode. */
  lemma BustScoresZero(mode: Mode, f: Fortune, d: Dice)
    requires d.skull >= 3
    ensures PointsFromDice(mode, f, d) == DiceScore(0, 0, PirateMultiplier(f), true)
  {
  }

  /** Under a card that changes nothing in the scoring: face value, plus the sets,
      plus 500 when there is no skull and something else scored. */
  lemma PlainCardScore(mode: Mode, f: Fortune, d: Dice)
    requires f in {NoCard, Animals, GoldCard, DiamondCard, Sorceress, ChestCard}
    requires d.skull < 3
    ensures var sets := SetScore(SetGroups(f, d));
      var bonus := if d.skull == 0 && 100 * (d.gold + d.diamond) + sets > 0 then 500 else 0;
      PointsFromDice(mode, f, d) == DiceScore(100 * (d.gold + d.diamond) + sets + bonus, bonus, 1, false)
  {
  }

  /** The pirate card doubles exactly what the same dice score without a card. */
  lemma PirateDoubles(mode: Mode, d: Dice)
    ensures PointsFromDice(mode, Pirate, d).points == 2 * PointsFromDice(mode, NoCard, d).points
    ensures PointsFromDice(mode, Pirate, d).fullChestBonus == PointsFromDice(mode, NoCard, d).fullChestBonus
  {
  }

  /** A ship card whose sabers are there adds its value (and the roll keeps the
      full-chest bonus whenever it has no skull, since the ship alone scores). */
  lemma ShipCardPasses(mode: Mode, f: Fortune, d: Dice)
    requires ShipRuleOf(f).Some? && d.skull < 3 && d.saber >= ShipRuleOf(f).value.required
    ensures var value := ShipRuleOf(f).value.value;
      var bonus := if d.skull == 0 then 500 else 0;
      PointsFromDice(mode, f, d) ==
        DiceScore(FaceValue(d) + SetScore(SetGroups(f, d)) + value + bonus, bonus, 1, false)
  {
  }

  /** A ship card whose sabers are missing scores only its negated value, and the
      engine already clamps it: in normal mode the penalty becomes 0. */
  lemma ShipCardFails(mode: Mode, f: Fortune, d: Dice)
    requires ShipRuleOf(f).Some? && d.skull < 3 && d.saber < ShipRuleOf(f).value.required
    ensures PointsFromDice(mode, f, d).points == ClampScore(mode, 0 - ShipRuleOf(f).value.value)
    ensures PointsFromDice(mode, f, d).fullChestBonus == 0
    ensures mode == Normal ==> PointsFromDice(mode, f, d).points == 0
    ensures mode == Hardcore ==> PointsFromDice(mode, f, d).points == 0 - ShipRuleOf(f).value.value
  {
  }

  /** The skull cards never keep a full-chest bonus. */
  lemma SkullCardNoBonus(mode: Mode, f: Fortune, d: Dice)
    requires f == Skull1 || f == Skull2
    requires d.skull < 3
    ensures PointsFromDice(mode, f, d) == DiceScore(FaceValue(d) + SetScore(SetGroups(f, d)), 0, 1, false)
  {
  }

  /** Through the turn gate the skull cards' suppression of the bonus has nothing
      to suppress: their own base skull is in the merged tally, so the raw bonus
      is already 0 and the flat score equals the skull-card score. */
  lemma SkullCardSuppressionUnreachable(mode: Mode, f: Fortune, physical: Dice, earned: int)
    requires f == Skull1 || f == Skull2
    ensures var all := Merge(ApplyFortuneBaseDice(f), physical);
      all.skull >= 1 && RawFullChestBonus(all, earned) == 0
    ensures var all := Merge(ApplyFortuneBaseDice(f), physical);
      all.skull < 3 ==> PointsFromDice(mode, f, all).points == PointsFromDice(mode, NoCard, all).points
  {
  }

  /** Scores are never negative except for a failed ship card in hardcore mode. */
  lemma NormalModeScoresNonNegative(f: Fortune, d: Dice)
    ensures PointsFromDice(Normal, f, d).points >= 0
  {
  }

  /** Plain scoring cases of the game's test suite (SCORE-001 to SCORE-004). */
  lemma ScoringExamplesPlain()
    ensures PointsFromDice(Normal, NoCard, Dice(0, 0, 0, 0, 8, 0)).points == 5300
    ensures PointsFromDice(Normal, NoCard, Dice(0, 0, 2, 2, 3, 1)).points == 1000
    ensures PointsFromDice(Normal, NoCard, Dice(1, 0, 1, 2, 3, 1)).points == 500
    ensures PointsFromDice(Normal, NoCard, Dice(0, 2, 3, 2, 1, 0)).points == 700
  {
    SetScoreByGroup(NoCard, Dice(0, 0, 0, 0, 8, 0));
    SetScoreByGroup(NoCard, Dice(0, 0, 2, 2, 3, 1));
    SetScoreByGroup(NoCard, Dice(1, 0, 1, 2, 3, 1));
    SetScoreByGroup(NoCard, Dice(0, 2, 3, 2, 1, 0));
  }

  /** Card scoring cases of the game's test suite (PIRATE-001, ANIMALS-001/002, SKULLCARD-001). */
  lemma ScoringExamplesCards()
    ensures PointsFromDice(Normal, Pirate, Dice(0, 0, 2, 2, 3, 1)).points == 2000
    ensures PointsFromDice(Normal, Animals, Dice(0, 2, 2, 1, 1, 2)).points == 900
    ensures PointsFromDice(Normal, NoCard, Dice(0, 2, 2, 1, 1, 2)).points == 800
    ensures PointsFromDice(Normal, Skull1, Dice(1, 0, 2, 2, 3, 1)).points == 500
  {
    PirateExample();
    AnimalsExample();
    NoCardExample();
    SkullCardExample();
  }

  /** Two parrots, two monkeys, three swords and a coin under the pirate card. */
  lemma PirateExample()
    ensures PointsFromDice(Normal, Pirate, Dice(0, 0, 2, 2, 3, 1)).points == 2000
  {
    SetScoreByGroup(Pirate, Dice(0, 0, 2, 2, 3, 1));
  }

  /** Monkeys and parrots counted together under the animals card. */
  lemma AnimalsExample()
    ensures PointsFromDice(Normal, Animals, Dice(0, 2, 2, 1, 1, 2)).points == 900
  {
    SetScoreByGroup(Animals, Dice(0, 2, 2, 1, 1, 2));
  }

  /** The same roll without a card: monkeys and parrots count apart. */
  lemma NoCardExample()
    ensures PointsFromDice(Normal, NoCard, Dice(0, 2, 2, 1, 1, 2)).points == 800
  {
    SetScoreByGroup(NoCard, Dice(0, 2, 2, 1, 1, 2));
  }

  /** A rolled skull under the one-skull card still scores the rest. */
  lemma SkullCardExample()
    ensures PointsFromDice(Normal, Skull1, Dice(1, 0, 2, 2, 3, 1)).points == 500
  {
    SetScoreByGroup(Skull1, Dice(1, 0, 2, 2, 3, 1));
  }

  /** Ship scoring cases of the game's test suite (SHIP-001 to SHIP-003). */
  lemma ScoringExamplesShips()
    ensures PointsFromDice(Normal, Ship2, Dice(0, 2, 1, 1, 3, 1)).points == 1300
    ensures PointsFromDice(Normal, Ship2, Dice(0, 1, 0, 0, 7, 0)).points == 0
    ensures PointsFromDice(Hardcore, Ship2, Dice(0, 1, 0, 0, 7, 0)).points == -300
  {
    SetScoreByGroup(Ship2, Dice(0, 2, 1, 1, 3, 1));
  }

  // ---------------------------------------------------------------------------
  // The turn gate

  /** Skull Island, early death and confirmation, in terms of the inputs; the
      skull count includes the card's base skulls. */
  lemma TurnGating(mode: Mode, f: Fortune, physical: Dice)
    ensures var c := ComputeTurn(mode, f, physical);
      var skulls := physical.skull + ApplyFortuneBaseDice(f).skull;
      c.skullsTotal == skulls && c.totalDice == TotalDice(physical) &&
      (c.canSkullIslandNow <==> skulls >= 4) &&
      (c.canSkullIsland <==> c.canSkullIslandNow) &&
      (c.canSkullIslandNow ==> c.canConfirm && c.points == 0 && c.skullIslandBaseSkulls == skulls) &&
      (c.earlyDeath <==> skulls == 3 && f != ChestCard) &&
      (c.earlyDeath ==> c.canConfirm && c.points == 0) &&
      (c.canConfirm <==> TotalDice(physical) == 8 || c.earlyDeath || c.canSkullIslandNow) &&
      (!c.canConfirm ==> TotalDice(physical) != 8 && !c.earlyDeath && !c.canSkullIslandNow && c.points == 0) &&
      (c.bust <==> skulls >= 3)
  {
  }

  /** A confirmable turn that is neither Skull Island nor an early death has all
      8 dice and scores the merged tally. */
  lemma TurnScoresFullRoll(mode: Mode, f: Fortune, physical: Dice)
    requires var c := ComputeTurn(mode, f, physical); c.canConfirm && !c.canSkullIslandNow && !c.earlyDeath
    ensures TotalDice(physical) == 8
    ensures ComputeTurn(mode, f, physical).points == PointsFromDice(mode, f, Merge(ApplyFortuneBaseDice(f), physical)).points
  {
  }

  /** Under the pirate card the turn is worth exactly twice as much. */
  lemma TurnPirateDoubles(mode: Mode, physical: Dice)
    ensures ComputeTurn(mode, Pirate, physical).points == 2 * ComputeTurn(mode, NoCard, physical).points
  {
    assert ApplyFortuneBaseDice(Pirate) == ApplyFortuneBaseDice(NoCard);
    var all := Merge(ApplyFortuneBaseDice(NoCard), physical);
    PirateDoubles(mode, all);
  }

  /** Under the chest card a confirmable turn that is not Skull Island has fewer
      than 4 skulls and exactly 8 dice: the confirm step's own checks for these
      two cases can never fire on a freshly computed result. */
  lemma ChestGuardsUnreachable(mode: Mode, physical: Dice)
    requires var c := ComputeTurn(mode, ChestCard, physical); c.canConfirm && !c.canSkullIsland
    ensures physical.skull < 4 && TotalDice(physical) == 8
  {
  }

  /** With no physical dice no card lets the turn be confirmed: the base skulls
      are at most 2, so neither Skull Island nor early death applies. */
  lemma EmptyTurn(mode: Mode, f: Fortune, d: Dice)
    requires TotalDice(d) == 0
    ensures !ComputeTurn(mode, f, d).canConfirm && ComputeTurn(mode, f, d).points == 0
  {
  }

  /** TURN-001: four dice and no skull (three coins and a diamond, say) cannot be confirmed. */
  lemma TurnExampleIncomplete(mode: Mode, d: Dice)
    requires d.skull == 0 && TotalDice(d) == 4
    ensures var c := ComputeTurn(mode, NoCard, d);
      !c.canConfirm && c.points == 0 && !c.canSkullIsland && !c.earlyDeath
  {
    TurnGating(mode, NoCard, d);
  }

  /** TURN-002: three skulls and nothing else end the turn at once. */
  lemma TurnExampleEarlyDeath(mode: Mode, d: Dice)
    requires d.skull == 3 && TotalDice(d) == 3
    ensures var c := ComputeTurn(mode, NoCard, d);
      c.canConfirm && c.points == 0 && !c.canSkullIsland && c.earlyDeath
  {
    TurnGating(mode, NoCard, d);
  }

  /** TURN-003 and TURN-004: four skulls and nothing else open Skull Island,
      which wins over early death. */
  lemma TurnExampleSkullIsland(mode: Mode, d: Dice)
    requires d.skull == 4 && TotalDice(d) == 4
    ensures var c := ComputeTurn(mode, NoCard, d);
      c.canConfirm && c.points == 0 && c.canSkullIsland && !c.earlyDeath
  {
    TurnGating(mode, NoCard, d);
  }

  /** SKULLCARD-001: the skull card's base skull costs the full-chest bonus. */
  lemma TurnExampleSkullCard()
    ensures ComputeTurn(Normal, Skull1, Dice(0, 0, 2, 2, 3, 1)).points == 500
  {
    ScoringExamplesCards();
    assert Merge(ApplyFortuneBaseDice(Skull1), Dice(0, 0, 2, 2, 3, 1)) == Dice(1, 0, 2, 2, 3, 1);
  }
}
