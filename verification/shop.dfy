/**
  The shop's per-item decisions: whether the learner owns an item, may buy
  it, can afford it, is wearing it, what a click does and whether the
  button is disabled. Only colours and accessories are listed.
 */
module Shop {
  import opened Types

  /** Owned: bought before, or free. */
  predicate IsOwned(u: UserProfile, item: ShopItem)
  {
    item.id in u.unlockedItems || item.cost == 0
  }

  predicate IsLevelOk(u: UserProfile, item: ShopItem)
  {
    u.level >= item.reqLevel
  }

  predicate CanAfford(u: UserProfile, item: ShopItem)
  {
    u.coins >= item.cost
  }

  /** The item's value is the one the avatar currently shows in its slot.
      Expressions have no slot in the shop. */
  predicate IsEquipped(u: UserProfile, item: ShopItem)
  {
    || (item.kind == Color && u.avatar.baseColor == item.value)
    || (item.kind == Accessory && u.avatar.accessory == item.value)
  }

  /** The button is greyed out for an item the learner does not own and either
      may not buy yet or cannot pay for. */
  predicate IsDisabled(u: UserProfile, item: ShopItem)
  {
    !IsOwned(u, item) && (!IsLevelOk(u, item) || !CanAfford(u, item))
  }

  /** What a click on an item's button asks the app to do. */
  datatype ClickAction = EquipIt | BuyIt | NoAction

  /** A click equips an owned item, buys an item that is level-ok and
      affordable, and does nothing otherwise. */
  function Click(u: UserProfile, item: ShopItem): (a: ClickAction)
    ensures a == EquipIt <==> IsOwned(u, item)
    ensures a == BuyIt ==> !IsOwned(u, item) && IsLevelOk(u, item) && CanAfford(u, item)
    ensures a == BuyIt ==> item.id !in u.unlockedItems && u.coins - item.cost >= 0
  {
    if IsOwned(u, item) then EquipIt
    else if IsLevelOk(u, item) && CanAfford(u, item) then BuyIt
    else NoAction
  }

  /** The disabled flag and the click handler agree: a button is disabled
      exactly when clicking it would do nothing. */
  lemma DisabledIffNoAction(u: UserProfile, item: ShopItem)
    ensures IsDisabled(u, item) <==> Click(u, item) == NoAction
  {
  }

  /** The catalog entries of one kind, in catalog order. */
  function OfKind(items: seq<ShopItem>, kind: ItemKind): (r: seq<ShopItem>)
    ensures |r| <= |items|
    ensures forall x :: x in r <==> x in items && x.kind == kind
    ensures forall x :: multiset(r)[x] == (if x.kind == kind then multiset(items)[x] else 0)
    decreases |items|
  {
    if |items| == 0 then []
    else
      var rest := OfKind(items[1..], kind);
      assert items == [items[0]] + items[1..];
      assert forall x :: x in items <==> x == items[0] || x in items[1..];
      if items[0].kind == kind then [items[0]] + rest else rest
  }

  /** The items a shop over `catalog` shows: the colours, then the accessories. */
  function ListedFrom(catalog: seq<ShopItem>): (r: seq<ShopItem>)
    ensures forall x :: x in r <==> x in catalog && x.kind != Expression
  {
    OfKind(catalog, Color) + OfKind(catalog, Accessory)
  }

  /** An expression item is never marked as equipped (and `ListedFrom` never
      lists one). */
  lemma ExpressionNeverEquipped(u: UserProfile, item: ShopItem)
    requires item.kind == Expression
    ensures !IsEquipped(u, item)
  {
  }
}
