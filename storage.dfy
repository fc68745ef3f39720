/**
 * `StorageHelper`: the global cart and the settings, kept in the extension's
 * local storage area.  The storage area is the pair of fields of the class
 * below (`None` when nothing was ever stored under that key).
 */
module Storage {
  import opened Wrappers
  import opened Records

  /** What `getSettings` returns when nothing is stored. */
  const DefaultSettings: map<string, SettingValue> := map[
    "autoDetect" := Flag(true),
    "showConfirmation" := Flag(true),
    "syncEnabled" := Flag(false),
    "apiEndpoint" := Text("")]

  /** `result.globalCart || []`. */
  function CartOf(stored: Option<seq<Item>>): seq<Item> {
    match stored
    case Some(cart) => cart
    case None => []
  }

  /** `result.settings || { ...defaults }`. */
  function SettingsOf(stored: Option<map<string, SettingValue>>): map<string, SettingValue> {
    match stored
    case Some(s) => s
    case None => DefaultSettings
  }

  // ---------------------------------------------------------------- addToCart

  /** The entry `addToCart` treats as the same product: equal url and equal title. */
  predicate SameEntry(item: Item, p: Product) {
    item.product.url == p.url && item.product.title == p.title
  }

  /** `cart.findIndex(item => item.url === product.url && item.title === product.title)`. */
  function FindEntry(cart: seq<Item>, p: Product): (r: Option<nat>)
    ensures r.Some? ==> r.value < |cart| && SameEntry(cart[r.value], p)
    ensures r.Some? ==> forall j :: 0 <= j < r.value ==> !SameEntry(cart[j], p)
    ensures r.None? ==> forall j :: 0 <= j < |cart| ==> !SameEntry(cart[j], p)
    decreases |cart|
  {
    if cart == [] then None
    else if SameEntry(cart[0], p) then Some(0)
    else match FindEntry(cart[1..], p)
      case Some(i) => Some(i + 1)
      case None => None
  }

  /**
   * The cart `addToCart` writes back: the first entry for the same product is
   * overwritten by the product's fields (keeping its `addedAt`) and stamped
   * `updatedAt`; without one, the product goes in front, stamped `addedAt`.
   */
  function Upsert(cart: seq<Item>, p: Product, now: int): (r: seq<Item>) {
    match FindEntry(cart, p)
    case Some(i) => cart[i := Item(p, cart[i].addedAt, Some(now))]
    case None => [Item(p, Some(now), None)] + cart
  }

  /** No two entries are for the same product (same url and title). */
  predicate UniqueEntries(cart: seq<Item>) {
    forall i, j :: 0 <= i < j < |cart| ==> !SameEntry(cart[j], cart[i].product)
  }

  /**
   * Adding a product already in the cart keeps the length, rewrites the
   * first entry for it and nothing else; adding a new one puts it in front
   * of the old entries, in their old order.
   */
  lemma UpsertShape(cart: seq<Item>, p: Product, now: int)
    ensures var r := Upsert(cart, p, now);
      match FindEntry(cart, p)
      case Some(i) =>
        && |r| == |cart|
        && r[i] == Item(p, cart[i].addedAt, Some(now))
        && (forall j :: 0 <= j < |cart| && j != i ==> r[j] == cart[j])
        && (forall j :: 0 <= j < i ==> !SameEntry(cart[j], p))
      case None =>
        && |r| == |cart| + 1
        && r[0] == Item(p, Some(now), None)
        && r[1..] == cart
        && (forall j :: 0 <= j < |cart| ==> !SameEntry(cart[j], p))
  {
  }

  /** Adding never creates a second entry for a product, and the product ends up in the cart. */
  lemma UpsertKeepsEntriesUnique(cart: seq<Item>, p: Product, now: int)
    requires UniqueEntries(cart)
    ensures UniqueEntries(Upsert(cart, p, now))
    ensures exists k :: 0 <= k < |Upsert(cart, p, now)| && Upsert(cart, p, now)[k].product == p
  {
    var r := Upsert(cart, p, now);
    match FindEntry(cart, p)
    case Some(i) =>
      assert r[i].product == p;
      forall a, b | 0 <= a < b < |r|
        ensures !SameEntry(r[b], r[a].product)
      {
        if a == i {
          assert SameEntry(cart[i], p);
          assert !SameEntry(cart[b], cart[i].product);
        } else if b == i {
          assert !SameEntry(cart[i], cart[a].product);
        }
      }
    case None =>
      assert r[0].product == p;
      forall a, b | 0 <= a < b < |r|
        ensures !SameEntry(r[b], r[a].product)
      {
        if a > 0 {
          assert r[a] == cart[a - 1] && r[b] == cart[b - 1];
        } else {
          assert r[b] == cart[b - 1];
        }
      }
  }

  // ---------------------------------------------------------------- removeFromCart

  /** `cart.filter(item => item.id !== productId)`. */
  function RemoveById(cart: seq<Item>, productId: string): (r: seq<Item>)
    ensures |r| <= |cart|
    ensures forall x :: x in r <==> x in cart && x.product.id != productId
    decreases |cart|
  {
    if cart == [] then []
    else if cart[0].product.id != productId then [cart[0]] + RemoveById(cart[1..], productId)
    else RemoveById(cart[1..], productId)
  }

  /** Removal distributes over concatenation, so the items kept stay in their relative order. */
  lemma {:induction false} RemoveByIdAppend(a: seq<Item>, b: seq<Item>, productId: string)
    ensures RemoveById(a + b, productId) == RemoveById(a, productId) + RemoveById(b, productId)
    decreases |a|
  {
    if a == [] {
      assert a + b == b;
    } else {
      assert (a + b)[0] == a[0];
      assert (a + b)[1..] == a[1..] + b;
      RemoveByIdAppend(a[1..], b, productId);
    }
  }

  /** Removing the same id twice is removing it once. */
  lemma {:induction false} RemoveByIdIdempotent(cart: seq<Item>, productId: string)
    ensures RemoveById(RemoveById(cart, productId), productId) == RemoveById(cart, productId)
    decreases |cart|
  {
    if cart != [] {
      RemoveByIdIdempotent(cart[1..], productId);
    }
  }

  // ---------------------------------------------------------------- getCartStats

  /** The store names in the order they first occur: the keys of `storeGroups`. */
  function StoreOrder(cart: seq<Item>): seq<string>
    decreases |cart|
  {
    if cart == [] then []
    else
      var before := StoreOrder(cart[..|cart| - 1]);
      var store := cart[|cart| - 1].product.store;
      if store in before then before else before + [store]
  }

  /** `storeGroups[store]`: the entries of that store, in cart order. */
  function Group(cart: seq<Item>, store: string): seq<Item>
    decreases |cart|
  {
    if cart == [] then []
    else
      var last := cart[|cart| - 1];
      Group(cart[..|cart| - 1], store) + (if last.product.store == store then [last] else [])
  }

  /** One more entry: its store joins the order if new, and it joins its store's group. */
  lemma StatsStep(cart: seq<Item>, i: nat)
    requires i < |cart|
    ensures StoreOrder(cart[..i + 1]) == if cart[i].product.store in StoreOrder(cart[..i]) then StoreOrder(cart[..i]) else StoreOrder(cart[..i]) + [cart[i].product.store]
    ensures forall s :: Group(cart[..i + 1], s) == Group(cart[..i], s) + (if cart[i].product.store == s then [cart[i]] else [])
  {
    assert cart[..i + 1][..i] == cart[..i];
  }

  /** A store missing from the order has no entries. */
  lemma {:induction false} AbsentStoreHasNoGroup(cart: seq<Item>, store: string)
    requires store !in StoreOrder(cart)
    ensures Group(cart, store) == []
    decreases |cart|
  {
    if cart != [] {
      var init := cart[..|cart| - 1];
      assert StoreOrder(init) <= StoreOrder(cart);
      AbsentStoreHasNoGroup(init, store);
    }
  }

  datatype StoreCount = StoreCount(store: string, count: nat)

  datatype Stats = Stats(totalItems: nat, stores: nat, storeBreakdown: seq<StoreCount>)

  /** What `getCartStats` reports for a cart. */
  function CartStats(cart: seq<Item>): Stats {
    var order := StoreOrder(cart);
    Stats(|cart|, |order|, seq(|order|, k requires 0 <= k < |order| => StoreCount(order[k], |Group(cart, order[k])|)))
  }

  /** The sum of the group sizes of `stores`. */
  function GroupTotal(stores: seq<string>, cart: seq<Item>): nat
    decreases |stores|
  {
    if stores == [] then 0 else GroupTotal(stores[..|stores| - 1], cart) + |Group(cart, stores[|stores| - 1])|
  }

  /** No store is listed twice. */
  lemma {:induction false} StoreOrderDistinct(cart: seq<Item>)
    ensures forall i, j :: 0 <= i < j < |StoreOrder(cart)| ==> StoreOrder(cart)[i] != StoreOrder(cart)[j]
    decreases |cart|
  {
    if cart != [] {
      StoreOrderDistinct(cart[..|cart| - 1]);
    }
  }

  /** Every entry's store is listed. */
  lemma {:induction false} StoreOrderCoversCart(cart: seq<Item>)
    ensures forall i :: 0 <= i < |cart| ==> cart[i].product.store in StoreOrder(cart)
    decreases |cart|
  {
    if cart != [] {
      var init := cart[..|cart| - 1];
      StoreOrderCoversCart(init);
      assert StoreOrder(init) <= StoreOrder(cart);
      forall i | 0 <= i < |init|
        ensures cart[i].product.store in StoreOrder(cart)
      {
        assert cart[i] == init[i];
      }
    }
  }

  /** Every listed store is the store of some entry, and has at least one entry in its group. */
  lemma {:induction false} StoreOrderFromCart(cart: seq<Item>, store: string)
    requires store in StoreOrder(cart)
    ensures exists i :: 0 <= i < |cart| && cart[i].product.store == store
    ensures |Group(cart, store)| >= 1
    decreases |cart|
  {
    var init := cart[..|cart| - 1];
    if store in StoreOrder(init) {
      StoreOrderFromCart(init, store);
      var i :| 0 <= i < |init| && init[i].product.store == store;
      assert cart[i] == init[i];
    } else {
      assert cart[|cart| - 1].product.store == store;
    }
  }

  lemma {:induction false} GroupTotalGrows(stores: seq<string>, init: seq<Item>, last: Item)
    requires forall i, j :: 0 <= i < j < |stores| ==> stores[i] != stores[j]
    ensures GroupTotal(stores, init + [last]) == GroupTotal(stores, init) + (if last.product.store in stores then 1 else 0)
    decreases |stores|
  {
    var cart := init + [last];
    assert cart[..|cart| - 1] == init;
    if stores != [] {
      var front := stores[..|stores| - 1];
      GroupTotalGrows(front, init, last);
      var s := stores[|stores| - 1];
      assert forall x :: x in stores <==> x in front || x == s;
      assert s !in front;
    }
  }

  /** The breakdown counts add up to the number of entries. */
  lemma {:induction false} GroupTotalIsCartLength(cart: seq<Item>)
    ensures GroupTotal(StoreOrder(cart), cart) == |cart|
    decreases |cart|
  {
    if cart != [] {
      var init := cart[..|cart| - 1];
      var last := cart[|cart| - 1];
      assert cart == init + [last];
      GroupTotalIsCartLength(init);
      StoreOrderDistinct(init);
      var before := StoreOrder(init);
      GroupTotalGrows(before, init, last);
      if last.product.store !in before {
        var after := before + [last.product.store];
        assert after[..|after| - 1] == before;
        AbsentStoreHasNoGroup(init, last.product.store);
        assert cart[..|cart| - 1] == init;
      }
    }
  }

  /**
   * `getCartStats`: the total is the cart length, each store has one row,
   * each count is at least 1 and the counts sum to the total.
   */
  lemma CartStatsCounts(cart: seq<Item>)
    ensures var stats := CartStats(cart);
      && stats.totalItems == |cart|
      && stats.stores == |stats.storeBreakdown| == |StoreOrder(cart)|
      && (forall i, j :: 0 <= i < j < stats.stores ==> stats.storeBreakdown[i].store != stats.storeBreakdown[j].store)
      && (forall k :: 0 <= k < stats.stores ==> stats.storeBreakdown[k].count >= 1)
      && GroupTotal(StoreOrder(cart), cart) == stats.totalItems
  {
    StoreOrderDistinct(cart);
    GroupTotalIsCartLength(cart);
    var order := StoreOrder(cart);
    forall k | 0 <= k < |order|
      ensures |Group(cart, order[k])| >= 1
    {
      StoreOrderFromCart(cart, order[k]);
    }
  }

  /** The breakdown rows are exactly the stores the cart's entries come from. */
  lemma CartStatsStores(cart: seq<Item>)
    ensures var stats := CartStats(cart);
      && (forall i :: 0 <= i < |cart| ==> exists k :: 0 <= k < stats.stores && stats.storeBreakdown[k].store == cart[i].product.store)
      && (forall k :: 0 <= k < stats.stores ==> exists i :: 0 <= i < |cart| && cart[i].product.store == stats.storeBreakdown[k].store)
  {
    StoreOrderCoversCart(cart);
    var order := StoreOrder(cart);
    var stats := CartStats(cart);
    forall i | 0 <= i < |cart|
      ensures exists k :: 0 <= k < stats.stores && stats.storeBreakdown[k].store == cart[i].product.store
    {
      var k :| 0 <= k < |order| && order[k] == cart[i].product.store;
      assert stats.storeBreakdown[k].store == order[k];
    }
    forall k | 0 <= k < stats.stores
      ensures exists i :: 0 <= i < |cart| && cart[i].product.store == stats.storeBreakdown[k].store
    {
      StoreOrderFromCart(cart, order[k]);
    }
  }

  // ---------------------------------------------------------------- updateSettings

  /**
   * The names a fresh `{}` already answers with a truthy member inherited from
   * `Object.prototype`.  For such a store `storeGroups[item.store]` is not
   * empty to begin with, so no array is created, and the `push` that follows
   * is not a function.
   */
  predicate Inherited(name: string) {
    name in {
      "constructor", "__proto__", "__defineGetter__", "__defineSetter__",
      "__lookupGetter__", "__lookupSetter__", "hasOwnProperty", "isPrototypeOf",
      "propertyIsEnumerable", "toString", "toLocaleString", "valueOf"}
  }

  /** One pass of the `forEach` body: the entry joins its store's group, made if new. */
  lemma GroupingStep(cart: seq<Item>, i: nat, keys: seq<string>, groups: map<string, seq<Item>>)
    requires i < |cart|
    requires keys == StoreOrder(cart[..i])
    requires forall s :: s in groups <==> s in keys
    requires forall s :: s in groups ==> groups[s] == Group(cart[..i], s)
    ensures var store := cart[i].product.store;
      var keys' := if store in groups then keys else keys + [store];
      var groups' := groups[store := (if store in groups then groups[store] else []) + [cart[i]]];
      && keys' == StoreOrder(cart[..i + 1])
      && (forall s :: s in groups' <==> s in keys')
      && (forall s :: s in groups' ==> groups'[s] == Group(cart[..i + 1], s))
  {
    StatsStep(cart, i);
    if cart[i].product.store !in groups {
      AbsentStoreHasNoGroup(cart[..i], cart[i].product.store);
    }
  }

  /**
   * The `forEach` of `getCartStats`: the stores in the order they first occur
   * (the keys of `storeGroups`) and each store's entries, in cart order.  It
   * throws (`ok` false) exactly when some entry's store is an inherited name.
   */
  method GroupByStore(cart: seq<Item>) returns (ok: bool, keys: seq<string>, storeGroups: map<string, seq<Item>>)
    ensures ok <==> forall i :: 0 <= i < |cart| ==> !Inherited(cart[i].product.store)
    ensures ok ==> keys == StoreOrder(cart)
    ensures ok ==> forall s :: s in storeGroups <==> s in keys
    ensures ok ==> forall s :: s in storeGroups ==> storeGroups[s] == Group(cart, s)
  {
    storeGroups := map[];
    keys := [];
    assert cart[..0] == [];
    hide Inherited;
    for i := 0 to |cart|
      invariant forall j :: 0 <= j < i ==> !Inherited(cart[j].product.store)
      invariant forall s :: s in storeGroups ==> !Inherited(s)
      invariant keys == StoreOrder(cart[..i])
      invariant forall s :: s in storeGroups <==> s in keys
      invariant forall s :: s in storeGroups ==> storeGroups[s] == Group(cart[..i], s)
    {
      var item := cart[i];
      var store := item.product.store;
      // `!storeGroups[item.store]` is false for an own key and for an
      // inherited member: then no array is made, and an inherited member has
      // no `push` (a TypeError).
      if store !in storeGroups && Inherited(store) {
        return false, keys, storeGroups;
      }
      assert forall j :: 0 <= j < i + 1 ==> !Inherited(cart[j].product.store);
      GroupingStep(cart, i, keys, storeGroups);
      hide StoreOrder, Group;
      if store !in storeGroups {
        storeGroups := storeGroups[store := []];
        keys := keys + [store];
      }
      storeGroups := storeGroups[store := storeGroups[store] + [item]];
    }
    assert cart[..|cart|] == cart;
    ok := true;
  }

  /** `{ ...current, ...incoming }`. */
  function MergeSettings(current: map<string, SettingValue>, incoming: map<string, SettingValue>): (r: map<string, SettingValue>) {
    current + incoming
  }

  /** Every incoming key takes its incoming value; every other current key keeps its value; no other key appears. */
  lemma MergeSettingsFacts(current: map<string, SettingValue>, incoming: map<string, SettingValue>)
    ensures var r := MergeSettings(current, incoming);
      && (forall k :: k in r <==> k in current || k in incoming)
      && (forall k :: k in incoming ==> r[k] == incoming[k])
      && (forall k :: k in current && k !in incoming ==> r[k] == current[k])
      && MergeSettings(r, incoming) == r
  {
  }

  class StorageHelper {
    /** The `globalCart` key of the storage area. */
    var globalCart: Option<seq<Item>>
    /** The `settings` key of the storage area. */
    var settings: Option<map<string, SettingValue>>

    constructor()
      ensures globalCart == None && settings == None
    {
      globalCart := None;
      settings := None;
    }

    method GetCart() returns (cart: seq<Item>)
      ensures cart == CartOf(globalCart)
      ensures globalCart.None? ==> cart == []
    {
      cart := if globalCart.Some? then globalCart.value else [];
    }

    /** `addToCart`: find the entry for the product, update it in place or put the product in front, and store the cart. */
    method AddToCart(product: Product, now: int) returns (cart: seq<Item>)
      modifies this
      ensures cart == Upsert(CartOf(old(globalCart)), product, now)
      ensures globalCart == Some(cart) && settings == old(settings)
    {
      cart := GetCart();
      var existingIndex := 0;
      while existingIndex < |cart| && !SameEntry(cart[existingIndex], product)
        invariant existingIndex <= |cart|
        invariant forall j :: 0 <= j < existingIndex ==> !SameEntry(cart[j], product)
      {
        existingIndex := existingIndex + 1;
      }
      if existingIndex < |cart| {
        cart := cart[existingIndex := Item(product, cart[existingIndex].addedAt, Some(now))];
      } else {
        cart := [Item(product, Some(now), None)] + cart;
      }
      globalCart := Some(cart);
    }

    method RemoveFromCart(productId: string) returns (cart: seq<Item>)
      modifies this
      ensures cart == RemoveById(CartOf(old(globalCart)), productId)
      ensures globalCart == Some(cart) && settings == old(settings)
    {
      var current := GetCart();
      cart := RemoveById(current, productId);
      globalCart := Some(cart);
    }

    method ClearCart()
      modifies this
      ensures globalCart == Some([]) && settings == old(settings)
    {
      globalCart := Some([]);
    }

    /**
     * `getCartStats`: group the entries by store in a dictionary, then count
     * each group.  `None` is the rejected promise, when the grouping throws.
     */
    method GetCartStats() returns (stats: Option<Stats>)
      ensures var cart := CartOf(globalCart);
        stats.None? <==> exists i :: 0 <= i < |cart| && Inherited(cart[i].product.store)
      ensures stats.Some? ==> stats.value == CartStats(CartOf(globalCart))
    {
      var cart := GetCart();
      var ok, keys, storeGroups := GroupByStore(cart);
      if !ok {
        return None;
      }
      var breakdown := seq(|keys|, k requires 0 <= k < |keys| => StoreCount(keys[k], |storeGroups[keys[k]]|));
      stats := Some(Stats(|cart|, |keys|, breakdown));
    }

    method GetSettings() returns (current: map<string, SettingValue>)
      ensures current == SettingsOf(settings)
      ensures settings.None? ==> current == DefaultSettings
    {
      current := if settings.Some? then settings.value else DefaultSettings;
    }

    method UpdateSettings(incoming: map<string, SettingValue>) returns (updated: map<string, SettingValue>)
      modifies this
      ensures updated == MergeSettings(SettingsOf(old(settings)), incoming)
      ensures settings == Some(updated) && globalCart == old(globalCart)
    {
      var current := GetSettings();
      updated := current + incoming;
      settings := Some(updated);
    }
  }
}
