/**
 * The pure helpers of utils/botUtils.js: the task enum, crop maturity,
 * the inventory-full test, the clamped random walk target and the choice
 * of items to drop.
 */
module BotUtils {
  import opened JsArrays

  /** The `tasks` enum; `Code` is its numeric value. */
  datatype BotTask = Idle | DropItems | FarmCrops | SeedCrops | ReturnHome | BakkieDoen | Teamleider

  function Code(t: BotTask): (n: nat)
    ensures n < 7
  {
    match t
    case Idle => 0
    case DropItems => 1
    case FarmCrops => 2
    case SeedCrops => 3
    case ReturnHome => 4
    case BakkieDoen => 5
    case Teamleider => 6
  }

  function FromCode(n: nat): (t: Option<BotTask>)
    ensures n < 7 <==> t.Some?
  {
    if n == 0 then Some(Idle) else if n == 1 then Some(DropItems) else if n == 2 then Some(FarmCrops)
    else if n == 3 then Some(SeedCrops) else if n == 4 then Some(ReturnHome) else if n == 5 then Some(BakkieDoen)
    else if n == 6 then Some(Teamleider) else None
  }

  /** The enum's values are pairwise distinct and cover 0-6: each code names one task. */
  lemma CodesDistinct(a: BotTask, b: BotTask)
    ensures Code(a) == Code(b) ==> a == b
    ensures FromCode(Code(a)) == Some(a)
  {
  }

  /** `fullGrownAges`: the age at which each crop is ripe; other names have none. */
  function FullGrownAge(name: string): (r: Option<nat>)
    ensures r.Some? ==> r.value == 3 || r.value == 7
  {
    if name == "wheat" || name == "carrots" || name == "potatoes" then Some(7)
    else if name == "beetroots" || name == "nether_wart" then Some(3)
    else None
  }

  /** The `findBlocks` matcher of `findgrownCrops`: a crop of the configured list, at least ripe. */
  predicate IsGrown(cropItems: seq<string>, name: string, age: int)
  {
    name in cropItems && FullGrownAge(name).Some? && age >= FullGrownAge(name).value
  }

  /** Ripe means age 3 for beetroots and nether wart and age 7 for wheat, carrots and potatoes. */
  lemma IsGrownThresholds(cropItems: seq<string>, name: string, age: int)
    ensures name in ["wheat", "carrots", "potatoes"] ==> (IsGrown(cropItems, name, age) <==> name in cropItems && age >= 7)
    ensures name in ["beetroots", "nether_wart"] ==> (IsGrown(cropItems, name, age) <==> name in cropItems && age >= 3)
    ensures name !in ["wheat", "carrots", "potatoes", "beetroots", "nether_wart"] ==> !IsGrown(cropItems, name, age)
  {
  }

  /** An element of the configured crop list; `includes` compares by SameValueZero, so a number never equals a string. */
  datatype JsValue = Str(s: string) | Num(n: int)

  /** `checkgrownCrops` as written: the block's numeric `type` looked up in the list, against a fixed age. */
  predicate CheckGrownCropsAsWritten(cropItems: seq<JsValue>, blockType: int, age: int)
  {
    Num(blockType) in cropItems && age >= 7
  }

  /** With the list holding crop names, as `findgrownCrops` uses it, no block ever passes. */
  lemma CheckGrownCropsNeverMatchesNames(cropNames: seq<string>, blockType: int, age: int)
    ensures !CheckGrownCropsAsWritten(Names(cropNames), blockType, age)
  {
    forall k | 0 <= k < |cropNames|
      ensures Names(cropNames)[k] != Num(blockType)
    {
    }
  }

  /** And even by number, a beetroot or nether wart at its ripe age 3 is never reported. */
  lemma CheckGrownCropsFixedAge(cropItems: seq<JsValue>, blockType: int)
    ensures !CheckGrownCropsAsWritten(cropItems, blockType, 3)
    ensures IsGrown(["beetroots"], "beetroots", 3)
  {
  }

  /** The crop names as list elements. */
  function Names(cropNames: seq<string>): seq<JsValue>
  {
    seq(|cropNames|, k requires 0 <= k < |cropNames| => Str(cropNames[k]))
  }

  /** `checkgrownCrops` as intended: the same test `findgrownCrops` applies, by name and per-crop age. */
  predicate CheckGrownCrops(cropNames: seq<string>, name: string, age: int)
  {
    IsGrown(cropNames, name, age)
  }

  /** The corrected check reports exactly the ripe crops: a ripe beetroot now passes. */
  lemma CheckGrownCropsReportsRipe(cropNames: seq<string>, name: string, age: int)
    ensures CheckGrownCrops(cropNames, name, age) <==>
              name in cropNames && FullGrownAge(name).Some? && age >= FullGrownAge(name).value
    ensures "beetroots" in cropNames ==> CheckGrownCrops(cropNames, "beetroots", 3)
  {
  }

  /** An inventory slot: empty (`null`) or holding a stack. */
  datatype Item = Item(name: string, count: nat, slot: nat)

  function Occupied(slots: seq<Option<Item>>): seq<Option<Item>>
  {
    Filter(slots, (s: Option<Item>) => s.Some?)
  }

  /** `checkInventoryFull`: at least 36 slots hold a stack. */
  predicate CheckInventoryFull(slots: seq<Option<Item>>)
  {
    |Occupied(slots)| >= 36
  }

  /** Fewer than 36 slots can never be full; a stack placed in an empty slot never un-fills. */
  lemma InventoryFullMonotone(slots: seq<Option<Item>>, i: nat, it: Item)
    requires i < |slots| && slots[i].None?
    ensures |slots| < 36 ==> !CheckInventoryFull(slots)
    ensures CheckInventoryFull(slots) ==> CheckInventoryFull(slots[i := Some(it)])
    ensures |Occupied(slots[i := Some(it)])| == |Occupied(slots)| + 1
  {
    var p := (s: Option<Item>) => s.Some?;
    var filled := slots[i := Some(it)];
    assert slots == slots[..i] + ([slots[i]] + slots[i + 1..]);
    assert filled == slots[..i] + ([Some(it)] + slots[i + 1..]);
    FilterAppend(slots[..i], [slots[i]] + slots[i + 1..], p);
    FilterAppend([slots[i]], slots[i + 1..], p);
    FilterAppend(slots[..i], [Some(it)] + slots[i + 1..], p);
    FilterAppend([Some(it)], slots[i + 1..], p);
    assert [slots[i]][1..] == [] && [Some(it)][1..] == [];
  }

  /** The two-sided clamp of one coordinate to [lo, hi], the source's pair of `if`s. */
  predicate Clamped(v: real, lo: real, hi: real, t: real)
  {
    (lo <= v <= hi ==> t == v) && (v < lo ==> t == lo) && (v > hi ==> t == hi)
  }

  /**
   * `walkToRandomNearLocation`'s target: a random step of
   * `Math.floor(Math.random() * 4) - 4` on x and on z, then clamped to the
   * farm box. `rx` and `rz` are the two `Math.floor(Math.random() * 4)`.
   * From inside the box the bot moves at most 4 blocks on each axis, and
   * never in the positive direction.
   */
  method RandomNearTarget(x: real, z: real, rx: int, rz: int) returns (tx: real, tz: real)
    requires 0 <= rx < 4 && 0 <= rz < 4
    ensures -6.0 <= tx <= 88.0 && -213.0 <= tz <= -169.0
    ensures Clamped(x + (rx - 4) as real, -6.0, 88.0, tx) && Clamped(z + (rz - 4) as real, -213.0, -169.0, tz)
    ensures -6.0 <= x <= 88.0 ==> x - 4.0 <= tx <= x
    ensures -213.0 <= z <= -169.0 ==> z - 4.0 <= tz <= z
  {
    tx, tz := x, z;
    tx := tx + (rx - 4) as real;
    tz := tz + (rz - 4) as real;
    if tx < -6.0 { tx := -6.0; }
    if tx > 88.0 { tx := 88.0; }
    if tz < -213.0 { tz := -213.0; }
    if tz > -169.0 { tz := -169.0; }
  }

  function Kept(seedItem: string): Item -> bool
  {
    (it: Item) => it.name in [seedItem, "diamond_hoe"]
  }

  function IsSeed(seedItem: string): Item -> bool
  {
    (it: Item) => it.name == seedItem
  }

  /** `seeds.pop()`: every seed stack but the last. */
  function AllButLast(s: seq<Item>): seq<Item>
  {
    if s == [] then [] else s[..|s| - 1]
  }

  /** `dropUnneededItems`'s selection: all items not kept by name, then the seed stacks but the last. */
  function ItemsToDrop(items: seq<Item>, seedItem: string): seq<Item>
  {
    Filter(items, Not(Kept(seedItem))) + AllButLast(Filter(items, IsSeed(seedItem)))
  }

  /**
   * What is dropped: every item other than the seed and the hoe, no hoe
   * (unless the seed item is the hoe), and all seed stacks but the last;
   * so exactly one seed stack stays when there was one, and it is the last.
   */
  lemma ItemsToDropSpec(items: seq<Item>, seedItem: string)
    ensures forall k :: 0 <= k < |items| && items[k].name != seedItem && items[k].name != "diamond_hoe" ==>
              items[k] in ItemsToDrop(items, seedItem)
    ensures seedItem != "diamond_hoe" ==>
              forall k :: 0 <= k < |ItemsToDrop(items, seedItem)| ==> ItemsToDrop(items, seedItem)[k].name != "diamond_hoe"
    ensures var seeds := Filter(items, IsSeed(seedItem));
            seeds != [] ==> |Filter(ItemsToDrop(items, seedItem), IsSeed(seedItem))| == |seeds| - 1
    ensures Filter(ItemsToDrop(items, seedItem), IsSeed(seedItem)) == AllButLast(Filter(items, IsSeed(seedItem)))
  {
    var seeds := Filter(items, IsSeed(seedItem));
    var others := Filter(items, Not(Kept(seedItem)));
    FilterMembers(items, Not(Kept(seedItem)));
    forall k | 0 <= k < |items| && items[k].name != seedItem && items[k].name != "diamond_hoe"
      ensures items[k] in ItemsToDrop(items, seedItem)
    {
      assert Not(Kept(seedItem))(items[k]);
    }
    FilterAppend(others, AllButLast(seeds), IsSeed(seedItem));
    assert Filter(others, IsSeed(seedItem)) == [] by {
      NoneSeeds(others, seedItem);
    }
    if seeds != [] {
      FilterAll(AllButLast(seeds), IsSeed(seedItem));
    }
  }

  lemma {:induction false} NoneSeeds(others: seq<Item>, seedItem: string)
    requires forall k :: 0 <= k < |others| ==> !Kept(seedItem)(others[k])
    ensures Filter(others, IsSeed(seedItem)) == []
  {
    if others != [] {
      assert forall k :: 0 <= k < |others[1..]| ==> others[1..][k] == others[k + 1];
      NoneSeeds(others[1..], seedItem);
    }
  }

  /** The toss loop: each selected stack is tossed in turn (the game call becomes the log). */
  method DropUnneededItems(items: seq<Item>, seedItem: string) returns (tossed: seq<Item>)
    ensures tossed == ItemsToDrop(items, seedItem)
  {
    var itemsToDrop := Filter(items, Not(Kept(seedItem)));
    var seeds := Filter(items, IsSeed(seedItem));
    if seeds != [] {
      seeds := seeds[..|seeds| - 1];
    }
    itemsToDrop := itemsToDrop + seeds;
    tossed := [];
    var i := 0;
    while i < |itemsToDrop|
      invariant 0 <= i <= |itemsToDrop|
      invariant tossed == itemsToDrop[..i]
    {
      tossed := tossed + [itemsToDrop[i]];
      i := i + 1;
    }
    assert itemsToDrop[..i] == itemsToDrop;
  }
}
