/**
 * The shop page's decision rules (src/pages/Shop.tsx): the category
 * filter, whether an item counts as active, the time left on a boost,
 * affordability and which purchases are activated automatically. Items,
 * boosts and the user's shop fields are taken with the fields the page
 * reads (`type`, `cost`, `activeBoosts`, ...); the purchase and activation
 * actions themselves are not part of this model, so their outcome is a
 * parameter.
 */
module Shop {
  import opened Wrappers
  import opened Seqs
  import opened Strings
  import opened Time

  datatype ShopItem = ShopItem(id: string, itemType: string, cost: int)

  datatype Boost = Boost(id: string, expiresAt: int)

  /** The user fields the shop page reads. */
  datatype ShopUser = ShopUser(
    coins: int,
    activeBoosts: seq<Boost>,
    streakFreezeActive: bool,
    equippedFrame: Option<string>,
    equippedBadges: seq<string>,
    ownedItems: seq<string>)

  function TypeIs(category: string): ShopItem -> bool {
    (item: ShopItem) => item.itemType == category
  }

  /** `filteredItems`. */
  function FilteredItems(items: seq<ShopItem>, category: string): seq<ShopItem> {
    if category == "all" then items else Filter(items, TypeIs(category))
  }

  /** 'all' shows every item; any other category exactly the items of that type, in order. */
  lemma FilteredItemsSpec(items: seq<ShopItem>, category: string)
    ensures category == "all" ==> FilteredItems(items, category) == items
    ensures category != "all" ==>
      && IsSubsequence(FilteredItems(items, category), items)
      && forall x :: multiset(FilteredItems(items, category))[x]
           == if x.itemType == category then multiset(items)[x] else 0
  {
    if category != "all" {
      forall x {
        FilterCount(items, TypeIs(category), x);
      }
      FilterIsSubsequence(items, TypeIs(category));
    }
  }

  predicate IsBoostType(t: string) {
    t == "xp_booster" || t == "coin_multiplier"
  }

  /** `isItemActive(item)` at time `now`. */
  predicate IsItemActive(user: ShopUser, item: ShopItem, now: int) {
    if IsBoostType(item.itemType) then
      exists i :: 0 <= i < |user.activeBoosts| && user.activeBoosts[i].id == item.id && user.activeBoosts[i].expiresAt > now
    else if item.itemType == "streak_freezer" then user.streakFreezeActive
    else if item.itemType == "frame" then user.equippedFrame == Some(item.id)
    else if item.itemType == "badge" then item.id in user.equippedBadges
    else false
  }

  function NotExpired(now: int): Boost -> bool {
    (b: Boost) => b.expiresAt > now
  }

  /**
   * Expired boosts never count: dropping every boost that has expired by
   * `now` (the cleanup the page's second effect looks for) changes no
   * item's activity, and a boost active now was active at every earlier time.
   */
  lemma ExpiredBoostsNeverCount(user: ShopUser, item: ShopItem, now: int, earlier: int)
    requires earlier <= now
    ensures IsItemActive(user.(activeBoosts := Filter(user.activeBoosts, NotExpired(now))), item, now)
      == IsItemActive(user, item, now)
    ensures IsItemActive(user, item, now) ==> IsItemActive(user, item, earlier)
  {
    var live := Filter(user.activeBoosts, NotExpired(now));
    if IsBoostType(item.itemType) {
      if IsItemActive(user, item, now) {
        var i :| 0 <= i < |user.activeBoosts| && user.activeBoosts[i].id == item.id && user.activeBoosts[i].expiresAt > now;
        var b := user.activeBoosts[i];
        FilterCount(user.activeBoosts, NotExpired(now), b);
        assert b in multiset(live);
        var k :| 0 <= k < |live| && live[k] == b;
        assert user.activeBoosts[i].expiresAt > earlier;
      }
      if IsItemActive(user.(activeBoosts := live), item, now) {
        var k :| 0 <= k < |live| && live[k].id == item.id && live[k].expiresAt > now;
        assert live[k] in user.activeBoosts;
      }
    }
  }

  /** The badge, frame and freezer rules, and no other type is ever active. */
  lemma OtherItemTypes(user: ShopUser, item: ShopItem, now: int)
    ensures item.itemType == "streak_freezer" ==> (IsItemActive(user, item, now) <==> user.streakFreezeActive)
    ensures item.itemType == "frame" ==> (IsItemActive(user, item, now) <==> user.equippedFrame == Some(item.id))
    ensures item.itemType == "badge" ==> (IsItemActive(user, item, now) <==> item.id in user.equippedBadges)
    ensures !IsBoostType(item.itemType) && item.itemType !in ["streak_freezer", "frame", "badge"] ==> !IsItemActive(user, item, now)
  {
  }

  datatype TimeLeft = TimeLeft(hours: int, minutes: int)

  function BoostIdIs(id: string): Boost -> bool {
    (b: Boost) => b.id == id
  }

  /** `getActiveBoostTimeLeft(item)`: from the first boost with the item's id, nothing once it has run out. */
  function ActiveBoostTimeLeft(user: ShopUser, item: ShopItem, now: int): (r: Option<TimeLeft>)
    ensures match FindIndex(user.activeBoosts, BoostIdIs(item.id))
      case None => r.None?
      case Some(i) =>
        var ms := user.activeBoosts[i].expiresAt - now;
        && (ms <= 0 <==> r.None?)
        && (r.Some? ==>
              && 0 <= r.value.minutes < 60 && r.value.hours >= 0
              && r.value.hours * MsPerHour + r.value.minutes * MsPerMinute <= ms
              && ms < r.value.hours * MsPerHour + r.value.minutes * MsPerMinute + MsPerMinute)
  {
    match FindIndex(user.activeBoosts, BoostIdIs(item.id))
    case None => None
    case Some(i) =>
      var timeLeft := user.activeBoosts[i].expiresAt - now;
      if timeLeft <= 0 then None
      else Some(TimeLeft(timeLeft / MsPerHour, (timeLeft % MsPerHour) / MsPerMinute))
  }

  /**
   * A boost item with time left is active. The converse fails: the time
   * left is read from the first boost with the id, so an expired first
   * boost hides a live later one.
   */
  lemma TimeLeftImpliesActive(user: ShopUser, item: ShopItem, now: int)
    requires IsBoostType(item.itemType)
    ensures ActiveBoostTimeLeft(user, item, now).Some? ==> IsItemActive(user, item, now)
  {
    var f := FindIndex(user.activeBoosts, BoostIdIs(item.id));
    if f.Some? {
      assert BoostIdIs(item.id)(user.activeBoosts[f.value]);
    }
  }

  lemma TimeLeftFirstBoostOnly()
    ensures var user := ShopUser(0, [Boost("x", 5), Boost("x", 100)], false, None, [], []);
      var item := ShopItem("x", "xp_booster", 10);
      IsItemActive(user, item, 10) && ActiveBoostTimeLeft(user, item, 10).None?
  {
    var user := ShopUser(0, [Boost("x", 5), Boost("x", 100)], false, None, [], []);
    assert user.activeBoosts[1].id == "x" && user.activeBoosts[1].expiresAt > 10;
    assert BoostIdIs("x")(user.activeBoosts[0]);
  }

  /** `canAfford`. */
  predicate CanAfford(user: ShopUser, item: ShopItem) {
    user.coins >= item.cost
  }

  /** More coins or a lower price never make an affordable item unaffordable. */
  lemma CanAffordMonotone(user: ShopUser, item: ShopItem, coins: int, cost: int)
    requires CanAfford(user, item)
    requires user.coins <= coins && cost <= item.cost
    ensures CanAfford(user.(coins := coins), item.(cost := cost))
  {
  }

  /** The action area of an item card: owned items may offer Equip, others a purchase button. */
  datatype ItemActions =
    | Owned(equipShown: bool)
    | PurchaseButton(enabled: bool, caption: string)

  function ItemCardActions(user: ShopUser, item: ShopItem, now: int): ItemActions {
    if item.id in user.ownedItems then
      Owned((item.itemType == "frame" || item.itemType == "badge") && !IsItemActive(user, item, now))
    else
      PurchaseButton(CanAfford(user, item), if CanAfford(user, item) then "Purchase" else "Insufficient Coins")
  }

  /**
   * An item not owned gets a purchase button, enabled exactly when the user
   * can afford it; an owned frame or badge offers Equip exactly while it is
   * not active, and no other owned item offers anything.
   */
  lemma ItemCardActionsSpec(user: ShopUser, item: ShopItem, now: int)
    ensures var r := ItemCardActions(user, item, now);
      && (r.PurchaseButton? <==> item.id !in user.ownedItems)
      && (r.PurchaseButton? ==> (r.enabled <==> user.coins >= item.cost))
      && (r.PurchaseButton? ==> (r.caption == "Purchase" <==> r.enabled))
      && (r.Owned? && r.equipShown ==> (item.itemType == "frame" || item.itemType == "badge") && !IsItemActive(user, item, now))
      && (r.Owned? && (item.itemType == "frame" || item.itemType == "badge") && !IsItemActive(user, item, now) ==> r.equipShown)
  {
  }

  predicate IsConsumable(t: string) {
    t in ["xp_booster", "coin_multiplier", "streak_freezer"]
  }

  /** What `handlePurchase` asks for; the timers' delays are not modelled. */
  datatype PurchaseEffect = StartAnimation(id: string) | ClearAnimationLater | ActivateLater(id: string)

  /** `handlePurchase(item)`, given what `purchaseItem` returned. */
  function HandlePurchase(item: ShopItem, purchased: bool): (r: seq<PurchaseEffect>)
    ensures !purchased ==> r == []
    ensures purchased ==> |r| >= 2 && r[0] == StartAnimation(item.id) && r[1] == ClearAnimationLater
  {
    if !purchased then []
    else [StartAnimation(item.id), ClearAnimationLater] + (if IsConsumable(item.itemType) then [ActivateLater(item.id)] else [])
  }

  /** Activation is requested exactly for a successful purchase of a booster, multiplier or freezer. */
  lemma AutoActivateIff(item: ShopItem, purchased: bool)
    ensures ActivateLater(item.id) in HandlePurchase(item, purchased)
      <==> purchased && (item.itemType == "xp_booster" || item.itemType == "coin_multiplier" || item.itemType == "streak_freezer")
    ensures forall e :: e in HandlePurchase(item, purchased) && e.ActivateLater? ==> e.id == item.id
  {
  }
}
