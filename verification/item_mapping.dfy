/**
 The record mapper of the dump (`dumpAllItems` and `dumpAllRecipes`): turning a game
 item into an `ItemEntry`, with its origin tags derived from the item's sources and
 its special-currency price found by scanning special-shop listings, and turning a
 game recipe into a `RecipeEntry`.

 The game-data library's source objects are a closed datatype of source kinds; a
 special shop carries its listings, each listing the keys of the items it rewards
 and its costs.
 */
module ItemMapping {
  import opened Wrappers
  import opened Schema
  import opened Loader

  // ---------------------------------------------------------------------------
  // Sources and origin tags
  // ---------------------------------------------------------------------------

  datatype Cost = Cost(itemKey: int, count: int)

  /** One special-shop listing: the keys of the items it rewards, and its costs in order. */
  datatype Listing = Listing(rewardKeys: seq<int>, costs: seq<Cost>)

  datatype Source =
    | RecipeSource
    | RetainerTaskSource
    | QuestSource
    | LeveSource
    | GilShopSource
    | GatheringPointSource
    | GCShopSource
    | FishingSpotSource
    | FccShopSource
    | CompanyCraftSequenceSource
    | AchievementSource
    | SpecialShopSource(listings: seq<Listing>)
    | OtherSource

  datatype Origin =
    | Crafted | Retainer | Quest | Leve | GilMerchant | Gathering
    | GCShop | Fishing | FCShop | FCCraft | Achievement | SpecialShop

  /** The text stored in `item_origins.origin`. */
  function OriginName(o: Origin): string {
    match o
    case Crafted => "Crafted"
    case Retainer => "Retainer"
    case Quest => "Quest"
    case Leve => "Leve"
    case GilMerchant => "Gil Merchant"
    case Gathering => "Gathering"
    case GCShop => "GC Shop"
    case Fishing => "Fishing"
    case FCShop => "FC Shop"
    case FCCraft => "FC Craft"
    case Achievement => "Achievement"
    case SpecialShop => "Special Shop"
  }

  /** The origin a stored tag denotes, if any. */
  function OriginNamed(name: string): (r: Option<Origin>)
    ensures r.Some? ==> OriginName(r.value) == name
  {
    if name == "Crafted" then Some(Crafted)
    else if name == "Retainer" then Some(Retainer)
    else if name == "Quest" then Some(Quest)
    else if name == "Leve" then Some(Leve)
    else if name == "Gil Merchant" then Some(GilMerchant)
    else if name == "Gathering" then Some(Gathering)
    else if name == "GC Shop" then Some(GCShop)
    else if name == "Fishing" then Some(Fishing)
    else if name == "FC Shop" then Some(FCShop)
    else if name == "FC Craft" then Some(FCCraft)
    else if name == "Achievement" then Some(Achievement)
    else if name == "Special Shop" then Some(SpecialShop)
    else None
  }

  /** Every tag reads back as its origin, so distinct origins are stored as distinct tags. */
  lemma OriginNameRoundTrip(o: Origin)
    ensures OriginNamed(OriginName(o)) == Some(o)
  {
  }

  /** The origin each source kind stands for; kinds outside the fixed table have none. */
  function Classify(s: Source): Option<Origin> {
    match s
    case RecipeSource => Some(Crafted)
    case RetainerTaskSource => Some(Retainer)
    case QuestSource => Some(Quest)
    case LeveSource => Some(Leve)
    case GilShopSource => Some(GilMerchant)
    case GatheringPointSource => Some(Gathering)
    case GCShopSource => Some(GCShop)
    case FishingSpotSource => Some(Fishing)
    case FccShopSource => Some(FCShop)
    case CompanyCraftSequenceSource => Some(FCCraft)
    case AchievementSource => Some(Achievement)
    case SpecialShopSource(_) => Some(SpecialShop)
    case OtherSource => None
  }

  /** The tags one source adds: one for a recognised kind, none otherwise. */
  function TagsOf(s: Source): (r: seq<string>)
    ensures |r| == if Classify(s).Some? then 1 else 0
    ensures forall k :: 0 <= k < |r| ==> OriginNamed(r[k]) == Classify(s)
  {
    match Classify(s)
    case None => []
    case Some(o) => OriginNameRoundTrip(o); [OriginName(o)]
  }

  /** The origin list of an item, built source by source. */
  function OriginTags(sources: seq<Source>): (r: seq<string>)
    ensures |r| <= |sources|
    ensures forall k :: 0 <= k < |r| ==> OriginNamed(r[k]).Some?
    decreases |sources|
  {
    if |sources| == 0 then []
    else OriginTags(sources[..|sources| - 1]) + TagsOf(sources[|sources| - 1])
  }

  /** Number of sources of a given origin. */
  function CountSources(sources: seq<Source>, o: Origin): nat
    decreases |sources|
  {
    if |sources| == 0 then 0
    else CountSources(sources[..|sources| - 1], o) + (if Classify(sources[|sources| - 1]) == Some(o) then 1 else 0)
  }

  /** Number of recognised sources. */
  function CountRecognised(sources: seq<Source>): nat
    decreases |sources|
  {
    if |sources| == 0 then 0
    else CountRecognised(sources[..|sources| - 1]) + (if Classify(sources[|sources| - 1]).Some? then 1 else 0)
  }

  /** Number of occurrences of a tag. */
  function CountTag(tags: seq<string>, tag: string): nat
    decreases |tags|
  {
    if |tags| == 0 then 0
    else CountTag(tags[..|tags| - 1], tag) + (if tags[|tags| - 1] == tag then 1 else 0)
  }

  lemma CountTagSnoc(tags: seq<string>, more: seq<string>, tag: string)
    requires |more| <= 1
    ensures CountTag(tags + more, tag) == CountTag(tags, tag) + CountTag(more, tag)
  {
    if |more| == 1 {
      assert (tags + more)[..|tags + more| - 1] == tags;
      assert more[..0] == [];
    } else {
      assert tags + more == tags;
    }
  }

  /** The origin list is the concatenation of the tags of each source, in source order. */
  lemma {:induction false} OriginTagsAppend(a: seq<Source>, b: seq<Source>)
    ensures OriginTags(a + b) == OriginTags(a) + OriginTags(b)
    decreases |b|
  {
    if |b| == 0 {
      assert a + b == a;
    } else {
      var b' := b[..|b| - 1];
      assert (a + b)[..|a + b| - 1] == a + b';
      assert (a + b)[|a + b| - 1] == b[|b| - 1];
      OriginTagsAppend(a, b');
    }
  }

  /** Each recognised source contributes exactly one tag and the others none: the tag of
      an origin occurs as often as there are sources of that origin, the list is as long
      as the number of recognised sources (so never longer than the source list), and
      every tag is one of the fixed origin names. */
  lemma {:induction false} OriginTagsCounts(sources: seq<Source>)
    ensures forall o :: CountTag(OriginTags(sources), OriginName(o)) == CountSources(sources, o)
    ensures |OriginTags(sources)| == CountRecognised(sources) <= |sources|
    ensures forall k :: 0 <= k < |OriginTags(sources)| ==> OriginNamed(OriginTags(sources)[k]).Some?
    decreases |sources|
  {
    if |sources| > 0 {
      var init := sources[..|sources| - 1];
      var last := sources[|sources| - 1];
      OriginTagsCounts(init);
      forall o ensures CountTag(OriginTags(sources), OriginName(o)) == CountSources(sources, o) {
        CountTagSnoc(OriginTags(init), TagsOf(last), OriginName(o));
        match Classify(last)
        case None =>
        case Some(o') =>
          OriginNameRoundTrip(o);
          OriginNameRoundTrip(o');
          assert CountTag(TagsOf(last), OriginName(o)) == CountTag([], OriginName(o)) + (if OriginName(o') == OriginName(o) then 1 else 0);
      }
      forall k | 0 <= k < |OriginTags(sources)| ensures OriginNamed(OriginTags(sources)[k]).Some? {
        if k >= |OriginTags(init)| {
          var o' := Classify(last).value;
          OriginNameRoundTrip(o');
        }
      }
    }
  }

  /** No sources, or only unrecognised ones, give no tags; a single recognised source
      gives exactly its tag. */
  lemma {:induction false} OriginTagsEdgeCases(sources: seq<Source>)
    ensures OriginTags(sources) == [] <==> forall k :: 0 <= k < |sources| ==> Classify(sources[k]).None?
    ensures |sources| == 1 && Classify(sources[0]).Some? ==> OriginTags(sources) == [OriginName(Classify(sources[0]).value)]
  {
    OriginTagsLength(sources);
    RecognisedNone(sources);
    if |sources| == 1 {
      assert sources[..0] == [];
      assert OriginTags(sources) == OriginTags([]) + TagsOf(sources[0]);
    }
  }

  /** One tag per recognised source. */
  lemma {:induction false} OriginTagsLength(sources: seq<Source>)
    ensures |OriginTags(sources)| == CountRecognised(sources)
    decreases |sources|
  {
    if |sources| > 0 {
      OriginTagsLength(sources[..|sources| - 1]);
    }
  }

  lemma {:induction false} RecognisedNone(sources: seq<Source>)
    ensures CountRecognised(sources) == 0 <==> forall k :: 0 <= k < |sources| ==> Classify(sources[k]).None?
    decreases |sources|
  {
    if |sources| > 0 {
      var init := sources[..|sources| - 1];
      RecognisedNone(init);
      if CountRecognised(sources) == 0 {
        forall k | 0 <= k < |sources| ensures Classify(sources[k]).None? {
          if k < |sources| - 1 {
            assert sources[k] == init[k];
          }
        }
      }
    }
  }

  // ---------------------------------------------------------------------------
  // Special-shop currency
  // ---------------------------------------------------------------------------

  /** The index of the first listing that rewards `key`, if any. */
  function FirstMatch(listings: seq<Listing>, key: int): (r: Option<nat>)
    ensures r.Some? ==> r.value < |listings| && key in listings[r.value].rewardKeys
    ensures r.Some? ==> forall j :: 0 <= j < r.value ==> key !in listings[j].rewardKeys
    ensures r.None? <==> forall j :: 0 <= j < |listings| ==> key !in listings[j].rewardKeys
    decreases |listings|
  {
    if |listings| == 0 then None
    else if key in listings[0].rewardKeys then Some(0)
    else match FirstMatch(listings[1..], key)
      case None => None
      case Some(i) => Some(i + 1)
  }

  /** Listing i rewards the item and no listing before it does. */
  predicate FirstRewarding(listings: seq<Listing>, key: int, i: int) {
    0 <= i < |listings| && key in listings[i].rewardKeys
    && forall j :: 0 <= j < i ==> key !in listings[j].rewardKeys
  }

  /** The cost a special shop assigns to the item: the first cost of the first listing
      rewarding it, when that listing has a cost at all. */
  function ShopCost(listings: seq<Listing>, key: int): (r: Option<Cost>)
    ensures (forall j :: 0 <= j < |listings| ==> key !in listings[j].rewardKeys) ==> r.None?
    ensures r.Some? ==> exists i :: 0 <= i < |listings| && key in listings[i].rewardKeys
                                    && |listings[i].costs| > 0 && r.value == listings[i].costs[0]
    ensures r.Some? <==> exists i :: FirstRewarding(listings, key, i) && |listings[i].costs| > 0
    ensures forall i {:trigger FirstRewarding(listings, key, i)} :: FirstRewarding(listings, key, i) ==>
      r == if |listings[i].costs| > 0 then Some(listings[i].costs[0]) else None
  {
    match FirstMatch(listings, key)
    case None => None
    case Some(i) => if |listings[i].costs| > 0 then Some(listings[i].costs[0]) else None
  }

  /** Once a listing rewards the item, no later listing matters: the shop's cost is
      decided by the listings up to and including the first match, so a first match
      without costs leaves the fields unset even when a later listing has a cost. */
  lemma ShopCostStopsAtFirstMatch(listings: seq<Listing>, key: int, later: seq<Listing>)
    requires FirstMatch(listings, key).Some?
    ensures ShopCost(listings + later, key) == ShopCost(listings, key)
  {
    var i := FirstMatch(listings, key).value;
    var all := listings + later;
    assert all[i] == listings[i];
    assert forall j :: 0 <= j < i ==> all[j] == listings[j];
    assert FirstMatch(all, key) == Some(i);
  }

  /** The currency fields of the entry under construction: item id and count. */
  datatype Currency = Currency(itemId: int, count: int)

  /** The fields after one special shop was scanned: set from its cost if it has one,
      unchanged otherwise. */
  function ApplyCost(c: Option<Cost>, current: Currency): Currency {
    match c
    case None => current
    case Some(cost) => Currency(cost.itemKey, cost.count)
  }

  /** The scan of one special shop's listings: stop at the first listing whose rewards
      contain the item; take its first cost if it has costs. Later listings are never
      looked at, even when the first match has no costs. */
  method ScanSpecialShop(listings: seq<Listing>, key: int, current: Currency) returns (updated: Currency)
    ensures updated == ApplyCost(ShopCost(listings, key), current)
  {
    updated := current;
    var found := false;
    var li := 0;
    while li < |listings|
      invariant 0 <= li <= |listings|
      invariant !found ==> updated == current
      invariant !found ==> forall j :: 0 <= j < li ==> key !in listings[j].rewardKeys
      invariant found ==> updated == ApplyCost(ShopCost(listings, key), current)
    {
      if found {
        break;
      }
      var listing := listings[li];
      var ri := 0;
      while ri < |listing.rewardKeys|
        invariant 0 <= ri <= |listing.rewardKeys|
        invariant !found && updated == current
        invariant forall r :: 0 <= r < ri ==> listing.rewardKeys[r] != key
      {
        if listing.rewardKeys[ri] == key {
          found := true;
          assert FirstMatch(listings, key) == Some(li);
          if |listing.costs| > 0 {
            updated := Currency(listing.costs[0].itemKey, listing.costs[0].count);
          }
          break;
        }
        ri := ri + 1;
      }
      li := li + 1;
    }
  }

  /** The cost of a source, when it is a special shop that assigns one. */
  function SourceCost(s: Source, key: int): Option<Cost> {
    match s
    case SpecialShopSource(listings) => ShopCost(listings, key)
    case _ => None
  }

  /** The cost each source assigns, in source order. */
  function SourceCosts(sources: seq<Source>, key: int): (cs: seq<Option<Cost>>)
    ensures |cs| == |sources|
    ensures forall k :: 0 <= k < |sources| ==> cs[k] == SourceCost(sources[k], key)
    decreases |sources|
  {
    if |sources| == 0 then []
    else
      var init := SourceCosts(sources[..|sources| - 1], key);
      assert forall k :: 0 <= k < |sources| - 1 ==> sources[..|sources| - 1][k] == sources[k];
      init + [SourceCost(sources[|sources| - 1], key)]
  }

  /** The value left by a run of assignments that each may or may not happen. */
  function LastAssigned(cs: seq<Option<Cost>>): (r: Option<Cost>)
    ensures r.None? <==> forall k :: 0 <= k < |cs| ==> cs[k].None?
    decreases |cs|
  {
    if |cs| == 0 then None
    else if cs[|cs| - 1].Some? then cs[|cs| - 1]
    else
      var r := LastAssigned(cs[..|cs| - 1]);
      assert forall k :: 0 <= k < |cs| - 1 ==> cs[k] == cs[..|cs| - 1][k];
      r
  }

  /** The last assignment that happens is the value left. */
  lemma {:induction false} LastAssignedIsLast(cs: seq<Option<Cost>>, k: nat)
    requires k < |cs| && cs[k].Some?
    requires forall m :: k < m < |cs| ==> cs[m].None?
    ensures LastAssigned(cs) == cs[k]
    decreases |cs|
  {
    if k < |cs| - 1 {
      var init := cs[..|cs| - 1];
      assert init[k] == cs[k];
      LastAssignedIsLast(init, k);
    }
  }

  /** The cost assigned by the last source that assigns one; since every special shop
      assigns rather than guards, later shops win. */
  function LastCost(sources: seq<Source>, key: int): (r: Option<Cost>)
    ensures r.None? <==> forall k :: 0 <= k < |sources| ==> SourceCost(sources[k], key).None?
  {
    LastAssigned(SourceCosts(sources, key))
  }

  /** The cost of the last source that assigns one is the result: a later special shop
      overwrites whatever an earlier one assigned. */
  lemma LastCostIsLast(sources: seq<Source>, key: int, k: nat)
    requires k < |sources| && SourceCost(sources[k], key).Some?
    requires forall m :: k < m < |sources| ==> SourceCost(sources[m], key).None?
    ensures LastCost(sources, key) == SourceCost(sources[k], key)
  {
    LastAssignedIsLast(SourceCosts(sources, key), k);
  }

  /** Taking one more source appends its tags and, when it assigns a cost, replaces the
      cost found so far. */
  lemma SourcesStep(sources: seq<Source>, k: nat, key: int)
    requires k < |sources|
    ensures OriginTags(sources[..k + 1]) == OriginTags(sources[..k]) + TagsOf(sources[k])
    ensures LastCost(sources[..k + 1], key)
            == if SourceCost(sources[k], key).Some? then SourceCost(sources[k], key) else LastCost(sources[..k], key)
  {
    assert sources[..k + 1][..k] == sources[..k];
    var cs := SourceCosts(sources[..k + 1], key);
    assert cs[..k] == SourceCosts(sources[..k], key);
    assert cs[k] == SourceCost(sources[k], key);
  }

  /** The `switch` on one source: the tag it adds and, for a special shop, the scan of
      its listings for the currency fields. */
  method ClassifyOne(key: int, source: Source, current: Currency) returns (tags: seq<string>, updated: Currency)
    ensures tags == TagsOf(source)
    ensures updated == ApplyCost(SourceCost(source, key), current)
  {
    updated := current;
    match source {
      case RecipeSource => tags := ["Crafted"];
      case RetainerTaskSource => tags := ["Retainer"];
      case QuestSource => tags := ["Quest"];
      case LeveSource => tags := ["Leve"];
      case GilShopSource => tags := ["Gil Merchant"];
      case GatheringPointSource => tags := ["Gathering"];
      case GCShopSource => tags := ["GC Shop"];
      case FishingSpotSource => tags := ["Fishing"];
      case FccShopSource => tags := ["FC Shop"];
      case CompanyCraftSequenceSource => tags := ["FC Craft"];
      case AchievementSource => tags := ["Achievement"];
      case SpecialShopSource(listings) =>
        tags := ["Special Shop"];
        updated := ScanSpecialShop(listings, key, current);
      case OtherSource => tags := [];
    }
  }

  /** The loop over an item's sources: the origin tags and the currency fields it leaves,
      starting from the zero fields of a fresh entry. */
  method ClassifySources(key: int, sources: seq<Source>) returns (origins: seq<string>, currency: Currency)
    ensures origins == OriginTags(sources)
    ensures currency == ApplyCost(LastCost(sources, key), Currency(0, 0))
  {
    origins := [];
    currency := Currency(0, 0);
    var k := 0;
    while k < |sources|
      invariant 0 <= k <= |sources|
      invariant origins == OriginTags(sources[..k])
      invariant currency == ApplyCost(LastCost(sources[..k], key), Currency(0, 0))
    {
      SourcesStep(sources, k, key);
      var tags;
      tags, currency := ClassifyOne(key, sources[k], currency);
      origins := origins + tags;
      k := k + 1;
    }
    assert sources[..k] == sources;
  }

  // ---------------------------------------------------------------------------
  // Items and recipes
  // ---------------------------------------------------------------------------

  /** The fields of a game item the mapper reads. */
  datatype GameItem = GameItem(
    key: int,
    categoryName: string,
    name: string,
    itemLevelKey: int,
    slotNames: seq<string>,
    canBeHq: bool,
    isUntradable: bool,
    ask: int,
    classJobName: string,
    sources: seq<Source>)

  /** The stored price: the asking price when positive, otherwise 0. */
  function GilPrice(ask: int): (r: int)
    ensures r >= 0
    ensures ask > 0 <==> r > 0
    ensures r > 0 ==> r == ask
  {
    if ask > 0 then ask else 0
  }

  /** The currency fields an item ends up with after all its sources. */
  function ItemCurrency(g: GameItem): Currency {
    ApplyCost(LastCost(g.sources, g.key), Currency(0, 0))
  }

  /** The entry `dumpAllItems` hands to `LoadItem`, as written: the origin list is
      computed but never stored in the entry, so its `Origins` stays null. */
  function MappedItemAsWritten(g: GameItem): (e: ItemEntry)
    ensures e.origins.None?
    ensures e.itemId == g.key && e.name == g.name && e.itemType == g.categoryName
    ensures e.itemLevel == g.itemLevelKey && e.equipmentTypes == Some(g.slotNames)
    ensures e.highQualityable == g.canBeHq && e.marketable == !g.isUntradable
    ensures e.gilPrice >= 0 && (g.ask > 0 ==> e.gilPrice == g.ask)
    ensures g.ask <= 0 ==> e.gilPrice == 0
    ensures e.classJobRestriction == g.classJobName
    ensures LastCost(g.sources, g.key).None? ==> e.specialCurrencyItemId == 0 && e.specialCurrencyCount == 0
    ensures LastCost(g.sources, g.key).Some? ==>
      e.specialCurrencyItemId == LastCost(g.sources, g.key).value.itemKey
      && e.specialCurrencyCount == LastCost(g.sources, g.key).value.count
  {
    var c := ItemCurrency(g);
    ItemEntry(
      itemId := g.key,
      itemType := g.categoryName,
      origins := None,
      name := g.name,
      itemLevel := g.itemLevelKey,
      equipmentTypes := Some(g.slotNames),
      specialCurrencyItemId := c.itemId,
      specialCurrencyCount := c.count,
      highQualityable := g.canBeHq,
      marketable := !g.isUntradable,
      gilPrice := GilPrice(g.ask),
      classJobRestriction := g.classJobName)
  }

  /** The entry with the computed origin list stored in it. */
  function MappedItem(g: GameItem): ItemEntry {
    MappedItemAsWritten(g).(origins := Some(OriginTags(g.sources)))
  }

  /** The body of the item loop, with its loops: the entry as written. */
  method DumpItem(g: GameItem) returns (entry: ItemEntry)
    ensures entry == MappedItemAsWritten(g)
    ensures entry.origins.None?
    ensures entry.marketable == !g.isUntradable
    ensures entry.gilPrice >= 0
  {
    var origins, currency := ClassifySources(g.key, g.sources);
    entry := ItemEntry(
      itemId := g.key,
      itemType := g.categoryName,
      origins := None,
      name := g.name,
      itemLevel := g.itemLevelKey,
      equipmentTypes := Some(g.slotNames),
      specialCurrencyItemId := currency.itemId,
      specialCurrencyCount := currency.count,
      highQualityable := g.canBeHq,
      marketable := !g.isUntradable,
      gilPrice := if g.ask > 0 then g.ask else 0,
      classJobRestriction := g.classJobName);
  }

  /** As written, no item ever gets an `item_origins` row, whatever its sources. */
  lemma OriginsNeverStoredAsWritten(g: GameItem, parentOk: bool)
    ensures RowsOf(LoadItem(MappedItemAsWritten(g), parentOk), ItemOrigins) == []
  {
    LoadItemRows(MappedItemAsWritten(g), parentOk);
  }

  /** With the origin list stored, a loaded item gets one `item_origins` row per
      recognised source, carrying its key, in source order, and one equipment-type row
      per slot name. */
  lemma MappedItemRows(g: GameItem)
    ensures RowsOf(LoadItem(MappedItem(g), true), ItemOrigins) == TagRowParams(g.key, OriginTags(g.sources))
    ensures RowsOf(LoadItem(MappedItem(g), true), ItemEquipmentTypes) == TagRowParams(g.key, g.slotNames)
  {
    LoadItemRows(MappedItem(g), true);
  }

  /** Special currency persists as NULL unless some special shop source assigned a
      positive id; when one did, the stored id is that of the first cost of the first
      matching listing of the last such shop. */
  lemma CurrencyPersistence(g: GameItem)
    ensures LastCost(g.sources, g.key).None? ==> ItemParams(MappedItem(g))[4] == None && ItemParams(MappedItem(g))[5] == None
    ensures LastCost(g.sources, g.key).Some? && LastCost(g.sources, g.key).value.itemKey > 0 ==>
      ItemParams(MappedItem(g))[4] == Some(IntValue(LastCost(g.sources, g.key).value.itemKey))
  {
  }

  /** An example item: a crafted sword also sold by a gil merchant, with
      no asking price. */
  function IronSword(): GameItem {
    GameItem(100, "Arms", "Iron Sword", 10, [], true, false, 0, "", [RecipeSource, GilShopSource])
  }

  /** The entry mapped from the example item, with the origin list stored. */
  lemma IronSwordEntry()
    ensures var e := MappedItem(IronSword());
      && e.itemId == 100 && e.itemLevel == 10 && e.gilPrice == 0
      && e.origins == Some(["Crafted", "Gil Merchant"])
  {
    var g := IronSword();
    assert g.sources[..1] == [RecipeSource];
    assert [RecipeSource][..0] == [];
    assert OriginTags(g.sources) == ["Crafted", "Gil Merchant"];
  }

  /** The example item with the origin list stored: one item row with level 10 and a
      NULL price, and the origin rows ("Crafted") and ("Gil Merchant"). */
  lemma IronSwordExample()
    ensures RowsOf(LoadItem(MappedItem(IronSword()), true), Items)[0][3] == Some(IntValue(10))
    ensures RowsOf(LoadItem(MappedItem(IronSword()), true), Items)[0][8] == None
    ensures RowsOf(LoadItem(MappedItem(IronSword()), true), ItemOrigins)
            == [[Some(IntValue(100)), Some(TextValue("Crafted"))],
                [Some(IntValue(100)), Some(TextValue("Gil Merchant"))]]
  {
    var item := MappedItem(IronSword());
    IronSwordEntry();
    LoadItemRows(item, true);
    var tags := TagsOrEmpty(item.origins);
    assert tags == ["Crafted", "Gil Merchant"];
    var rows := TagRowParams(100, tags);
    assert rows == [[Some(IntValue(100)), Some(TextValue("Crafted"))],
                    [Some(IntValue(100)), Some(TextValue("Gil Merchant"))]];
  }

  /** The same item as written: the origin list is non-empty, yet no origin row is sent. */
  lemma IronSwordOriginsLost()
    ensures OriginTags(IronSword().sources) != []
    ensures RowsOf(LoadItem(MappedItemAsWritten(IronSword()), true), ItemOrigins) == []
  {
    var g := IronSword();
    assert g.sources[..1] == [RecipeSource];
    assert [RecipeSource][..0] == [];
    assert OriginTags(g.sources) == ["Crafted", "Gil Merchant"];
    OriginsNeverStoredAsWritten(g, true);
  }

  datatype GameIngredient = GameIngredient(itemKey: int, count: int)

  /** The fields of a game recipe the mapper reads. */
  datatype GameRecipe = GameRecipe(key: int, resultItemKey: int, resultCount: int, ingredients: seq<GameIngredient>)

  /** The entry `dumpAllRecipes` hands to `LoadRecipe`; its ingredient list is never null. */
  function MappedRecipe(r: GameRecipe): (e: RecipeEntry)
    ensures e.recipeId == r.key && e.craftedItemId == r.resultItemKey && e.craftedItemCount == r.resultCount
    ensures e.ingredients.Some? && |e.ingredients.value| == |r.ingredients|
    ensures forall k :: 0 <= k < |r.ingredients| ==>
      e.ingredients.value[k] == Ingredient(r.ingredients[k].itemKey, r.ingredients[k].count)
  {
    RecipeEntry(r.key, r.resultItemKey, r.resultCount,
      Some(seq(|r.ingredients|, k requires 0 <= k < |r.ingredients| =>
        Ingredient(r.ingredients[k].itemKey, r.ingredients[k].count))))
  }

  /** What loading a mapped game recipe sends: its one recipe row, then, after that
      succeeded, one ingredient row per game ingredient in order. The ingredient check
      moved first turns the load into nothing exactly for a game recipe without
      ingredients, the one case where the load as written sends a malformed recipe. */
  lemma MappedRecipeRows(r: GameRecipe, parentOk: bool)
    ensures RowsOf(LoadRecipe(MappedRecipe(r), parentOk), Recipes)
            == [[Some(IntValue(r.key)), Some(IntValue(r.resultItemKey)), Some(IntValue(r.resultCount))]]
    ensures |RowsOf(LoadRecipe(MappedRecipe(r), parentOk), RecipeIngredients)|
            == if parentOk then |r.ingredients| else 0
    ensures forall k :: 0 <= k < |RowsOf(LoadRecipe(MappedRecipe(r), parentOk), RecipeIngredients)| ==>
      RowsOf(LoadRecipe(MappedRecipe(r), parentOk), RecipeIngredients)[k]
      == [Some(IntValue(r.key)), Some(IntValue(r.ingredients[k].itemKey)), Some(IntValue(r.ingredients[k].count))]
    ensures LoadRecipeChecked(MappedRecipe(r), parentOk) == [] <==> |r.ingredients| == 0
  {
    LoadRecipeRows(MappedRecipe(r), parentOk);
  }

  /** An example recipe: one recipe row and exactly two ingredient rows. */
  lemma RecipeExample()
    ensures var stmts := LoadRecipe(MappedRecipe(GameRecipe(5, 100, 1, [GameIngredient(200, 2), GameIngredient(201, 1)])), true);
      && RowsOf(stmts, Recipes) == [[Some(IntValue(5)), Some(IntValue(100)), Some(IntValue(1))]]
      && RowsOf(stmts, RecipeIngredients)
         == [[Some(IntValue(5)), Some(IntValue(200)), Some(IntValue(2))],
             [Some(IntValue(5)), Some(IntValue(201)), Some(IntValue(1))]]
  {
    var e := MappedRecipe(GameRecipe(5, 100, 1, [GameIngredient(200, 2), GameIngredient(201, 1)]));
    LoadRecipeRows(e, true);
  }
}
