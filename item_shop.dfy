/** The shop screen: buying a catalog item into the inventory when the money
    covers its price, and the tabs that filter the catalog by item type. */
module ItemShop {
  import opened Types
  import opened Text
  import opened Lists
  import opened Constants
  import Store

  const NotEnoughMoney: string := "金錢不足！"

  /** The inventory entry a purchase creates: `${item.id}-${now}` and the
      catalog entry's fields. Catalog entries carry no install time, so the
      copied one is absent. */
  function PurchasedItem(item: CatalogItem, now: nat, purchaseDate: string): (r: InventoryItem)
    ensures r.id == item.id + "-" + NatToString(now)
    ensures r.name == item.name && r.itemType == item.itemType
    ensures r.attraction == item.attraction && r.price == item.price
    ensures r.installTime == None && r.purchaseDate == purchaseDate
  {
    InventoryItem(item.id + "-" + NatToString(now), item.name, item.itemType,
      item.attraction, item.price, None, purchaseDate)
  }

  /** Two purchases of one catalog entry at different instants get different ids. */
  lemma PurchasedIdsDistinct(item: CatalogItem, t1: nat, t2: nat, d1: string, d2: string)
    requires t1 != t2
    ensures PurchasedItem(item, t1, d1).id != PurchasedItem(item, t2, d2).id
  {
    if PurchasedItem(item, t1, d1).id == PurchasedItem(item, t2, d2).id {
      CancelPrefix(item.id + "-", NatToString(t1), NatToString(t2));
      NatToStringInjective(t1, t2);
    }
  }

  /** The buy button: `disabled={money < item.price}`. */
  predicate PurchaseDisabled(money: int, item: CatalogItem) {
    money < item.price
  }

  /** handlePurchase. `Date.now()` is `now` and the ISO timestamp is `purchaseDate`. */
  method HandlePurchase(store: Store.GameStore, item: CatalogItem, now: nat, purchaseDate: string)
    returns (outcome: Outcome)
    modifies store
    ensures outcome == Rejected(NotEnoughMoney) <==> PurchaseDisabled(old(store.money), item)
    ensures outcome in {Applied, Rejected(NotEnoughMoney)}
    ensures outcome != Applied ==> store.State() == old(store.State())
    ensures outcome == Applied ==> store.State() == old(store.State()).(
      inventory := old(store.inventory) + [PurchasedItem(item, now, purchaseDate)],
      money := old(store.money) - item.price)
    ensures 0 <= old(store.money) && 0 <= item.price ==> 0 <= store.money <= old(store.money)
  {
    if store.money < item.price {
      return Rejected(NotEnoughMoney);
    }
    store.AddToInventory(PurchasedItem(item, now, purchaseDate));
    store.SpendMoney(item.price);
    outcome := Applied;
  }

  predicate ShownUnder(filter: string, item: CatalogItem) {
    filter == "all" || ItemTypeName(item.itemType) == filter
  }

  /** `INITIAL_ITEMS.filter(item => filter === 'all' || item.type === filter)` */
  function CatalogTab(filter: string): (r: seq<CatalogItem>)
    ensures filter == "all" ==> r == Catalog
    ensures forall c :: c in r <==> c in Catalog && ShownUnder(filter, c)
  {
    var p := (c: CatalogItem) => ShownUnder(filter, c);
    forall c ensures c in Filter(Catalog, p) <==> c in Catalog && ShownUnder(filter, c) {
      FilterMember(Catalog, p, c);
    }
    if filter == "all" then
      FilterAll(Catalog, p);
      Filter(Catalog, p)
    else
      Filter(Catalog, p)
  }

  /** The three type tabs split the catalog: every entry is under the tab of
      its type and under no other, so the tabs' sizes add up to the catalog's. */
  lemma TypeTabsPartitionCatalog(c: CatalogItem, t: ItemType)
    requires c in Catalog
    ensures c in CatalogTab(ItemTypeName(t)) <==> c.itemType == t
    ensures |CatalogTab("game")| + |CatalogTab("entertainment")| + |CatalogTab("decoration")| == |Catalog|
  {
    TypeTabSizes();
  }

  /** Three games, two entertainment items and two decorations. */
  lemma TypeTabSizes()
    ensures |CatalogTab("game")| == 3
    ensures |CatalogTab("entertainment")| == 2
    ensures |CatalogTab("decoration")| == 2
  {
    CatalogTabAt("game", [0, 1, 2]);
    CatalogTabAt("entertainment", [3, 4]);
    CatalogTabAt("decoration", [5, 6]);
  }

  /** The tab of a type lists exactly the catalog entries at the given positions. */
  lemma CatalogTabAt(filter: string, ks: seq<nat>)
    requires filter != "all"
    requires forall k :: k in ks ==> k < |Catalog|
    requires forall k :: 0 <= k < |Catalog| ==> (k in ks <==> ShownUnder(filter, Catalog[k]))
    requires forall i, j :: 0 <= i < j < |ks| ==> ks[i] < ks[j]
    ensures |CatalogTab(filter)| == |ks|
  {
    var p := (c: CatalogItem) => ShownUnder(filter, c);
    FilterLengthByIndex(Catalog, p, ks);
  }
}
