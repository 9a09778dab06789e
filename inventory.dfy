/**
 * The inventory store (hooks/use-inventory.ts): a list of stock items with
 * create/update/delete, restock and use, and the read-only selections over it.
 */
module Inventory {
  import opened Common
  import opened Text
  import opened Salon

  /** `Omit<Inventory, 'id'>`: the fields `addItem` receives. */
  datatype ItemDraft = ItemDraft(
    name: string, category: InventoryCategory, quantity: int, minQuantity: int,
    unit: string, price: int, supplier: Option<string>, lastRestocked: Option<int>,
    barcode: Option<string>)

  /** `{ ...item, id }`. */
  function WithId(d: ItemDraft, id: string): InventoryItem {
    InventoryItem(id, d.name, d.category, d.quantity, d.minQuantity, d.unit, d.price,
                  d.supplier, d.lastRestocked, d.barcode)
  }

  /** `Partial<Inventory>`: each field is kept or overwritten (an optional field may be overwritten with `undefined`). */
  datatype ItemPatch = ItemPatch(
    id: Field<string>, name: Field<string>, category: Field<InventoryCategory>,
    quantity: Field<int>, minQuantity: Field<int>, unit: Field<string>, price: Field<int>,
    supplier: Field<Option<string>>, lastRestocked: Field<Option<int>>, barcode: Field<Option<string>>)

  /** The patch `restockItem` and `useItem` pass: a new quantity, and for a restock the time stamp. */
  function QuantityPatch(q: int, restockedAt: Option<int>): ItemPatch {
    ItemPatch(Keep, Keep, Keep, Set(q), Keep, Keep, Keep, Keep,
              if restockedAt.Some? then Set(restockedAt) else Keep, Keep)
  }

  /** `{ ...item, ...updates }`. */
  function Merge(item: InventoryItem, p: ItemPatch): InventoryItem {
    InventoryItem(p.id.Or(item.id), p.name.Or(item.name), p.category.Or(item.category),
                  p.quantity.Or(item.quantity), p.minQuantity.Or(item.minQuantity),
                  p.unit.Or(item.unit), p.price.Or(item.price), p.supplier.Or(item.supplier),
                  p.lastRestocked.Or(item.lastRestocked), p.barcode.Or(item.barcode))
  }

  predicate UniqueIds(items: seq<InventoryItem>) {
    forall i, j :: 0 <= i < j < |items| ==> items[i].id != items[j].id
  }

  predicate HasId(items: seq<InventoryItem>, id: string) {
    exists i :: 0 <= i < |items| && items[i].id == id
  }

  function UpdateOne(item: InventoryItem, id: string, p: ItemPatch): InventoryItem {
    if item.id == id then Merge(item, p) else item
  }

  /** `items.map(item => item.id === id ? { ...item, ...updates } : item)`; the same update as `Clients.Updated`, over items. */
  function Updated(items: seq<InventoryItem>, id: string, p: ItemPatch): (r: seq<InventoryItem>)
    ensures |r| == |items|
    ensures forall i :: 0 <= i < |items| ==> r[i] == UpdateOne(items[i], id, p)
  {
    if items == [] then [] else [UpdateOne(items[0], id, p)] + Updated(items[1..], id, p)
  }

  /** `items.filter(item => item.id !== id)`; the same filter as `Clients.Deleted` and `ServiceManagement.RemoveService`, over items. */
  function Deleted(items: seq<InventoryItem>, id: string): (r: seq<InventoryItem>)
    ensures |r| <= |items|
    ensures forall x :: x in r <==> x in items && x.id != id
  {
    if items == [] then []
    else if items[0].id == id then Deleted(items[1..], id)
    else [items[0]] + Deleted(items[1..], id)
  }

  /** Deleting distributes over concatenation, so the survivors keep their relative order. */
  lemma {:induction false} DeletedAppend(a: seq<InventoryItem>, b: seq<InventoryItem>, id: string)
    ensures Deleted(a + b, id) == Deleted(a, id) + Deleted(b, id)
  {
    if a == [] {
      assert a + b == b;
    } else {
      assert (a + b)[1..] == a[1..] + b;
      DeletedAppend(a[1..], b, id);
    }
  }

  /** With unique ids, deleting an id present at `k` removes exactly that position. */
  lemma DeletedUniqueAt(items: seq<InventoryItem>, id: string, k: nat)
    requires UniqueIds(items) && k < |items| && items[k].id == id
    ensures Deleted(items, id) == items[..k] + items[k + 1..]
  {
    var before, after := items[..k], items[k + 1..];
    assert items == before + ([items[k]] + after);
    DeletedAppend(before, [items[k]] + after, id);
    DeletedAppend([items[k]], after, id);
    NotPresentUnchanged(before, id);
    NotPresentUnchanged(after, id);
    assert Deleted([items[k]], id) == [];
  }

  /** Deleting an id held by no item changes nothing; the twin of `Clients.DeleteUnknown`. */
  lemma {:induction false} NotPresentUnchanged(items: seq<InventoryItem>, id: string)
    requires forall i :: 0 <= i < |items| ==> items[i].id != id
    ensures Deleted(items, id) == items
  {
    if items != [] {
      NotPresentUnchanged(items[1..], id);
      assert items == [items[0]] + items[1..];
    }
  }

  /** `k` is the first position holding `id`. */
  predicate FirstWithId(items: seq<InventoryItem>, id: string, k: int) {
    0 <= k < |items| && items[k].id == id && forall j :: 0 <= j < k ==> items[j].id != id
  }

  /** `items.find(i => i.id === id)`. */
  function FindById(items: seq<InventoryItem>, id: string): (r: Option<InventoryItem>)
    ensures r.Some? ==> r.value.id == id && r.value in items
    ensures r.None? ==> forall i :: 0 <= i < |items| ==> items[i].id != id
  {
    if items == [] then None
    else if items[0].id == id then Some(items[0])
    else FindById(items[1..], id)
  }

  /** The item found is the one at the first position holding the id. */
  lemma {:induction false} FindByIdFirst(items: seq<InventoryItem>, id: string, k: nat)
    requires FirstWithId(items, id, k)
    ensures FindById(items, id) == Some(items[k])
  {
    if k > 0 {
      assert FirstWithId(items[1..], id, k - 1) by {
        forall j | 0 <= j < k - 1 ensures items[1..][j].id != id {
          assert items[1..][j] == items[j + 1];
        }
      }
      FindByIdFirst(items[1..], id, k - 1);
    }
  }

  /** With unique ids, the item found is the one at the id's only position. */
  lemma FindUniqueAt(items: seq<InventoryItem>, id: string, k: nat)
    requires UniqueIds(items) && k < |items| && items[k].id == id
    ensures FindById(items, id) == Some(items[k])
  {
    FindByIdFirst(items, id, k);
  }

  /** With unique ids, updating an id present at `k` rewrites exactly that position. */
  lemma UpdatedUniqueAt(items: seq<InventoryItem>, id: string, p: ItemPatch, k: nat, item: InventoryItem)
    requires UniqueIds(items) && k < |items| && items[k].id == id && Merge(items[k], p) == item
    ensures Updated(items, id, p) == items[k := item]
  {
  }

  /** A patch that leaves ids alone keeps them unique. */
  lemma KeepIdKeepsUnique(items: seq<InventoryItem>, id: string, p: ItemPatch)
    requires UniqueIds(items) && p.id == Keep
    ensures UniqueIds(Updated(items, id, p))
  {
    var r := Updated(items, id, p);
    assert forall i :: 0 <= i < |items| ==> r[i].id == items[i].id;
  }

  /** `items.filter(item => item.quantity <= item.minQuantity)`. */
  function LowStock(items: seq<InventoryItem>): (r: seq<InventoryItem>)
    ensures |r| <= |items|
    ensures forall x :: x in r <==> x in items && x.quantity <= x.minQuantity
  {
    if items == [] then []
    else if items[0].quantity <= items[0].minQuantity then [items[0]] + LowStock(items[1..])
    else LowStock(items[1..])
  }

  /** The low-stock filter distributes over concatenation, so it keeps order and repeats as `filter` does. */
  lemma {:induction false} LowStockAppend(a: seq<InventoryItem>, b: seq<InventoryItem>)
    ensures LowStock(a + b) == LowStock(a) + LowStock(b)
  {
    if a == [] {
      assert a + b == b;
    } else {
      assert (a + b)[1..] == a[1..] + b;
      LowStockAppend(a[1..], b);
    }
  }

  /** `items.filter(item => item.category === category)`. */
  function ByCategory(items: seq<InventoryItem>, c: InventoryCategory): (r: seq<InventoryItem>)
    ensures |r| <= |items|
    ensures forall x :: x in r <==> x in items && x.category == c
  {
    if items == [] then []
    else if items[0].category == c then [items[0]] + ByCategory(items[1..], c)
    else ByCategory(items[1..], c)
  }

  /** The category filter distributes over concatenation, so it keeps order and repeats as `filter` does. */
  lemma {:induction false} ByCategoryAppend(a: seq<InventoryItem>, b: seq<InventoryItem>, c: InventoryCategory)
    ensures ByCategory(a + b, c) == ByCategory(a, c) + ByCategory(b, c)
  {
    if a == [] {
      assert a + b == b;
    } else {
      assert (a + b)[1..] == a[1..] + b;
      ByCategoryAppend(a[1..], b, c);
    }
  }

  function ItemValue(item: InventoryItem): int { item.price * item.quantity }

  /** `getTotalValue`: the sum of price times quantity. */
  function TotalValue(items: seq<InventoryItem>): int {
    if items == [] then 0 else ItemValue(items[0]) + TotalValue(items[1..])
  }

  lemma {:induction false} TotalValueAppend(a: seq<InventoryItem>, b: seq<InventoryItem>)
    ensures TotalValue(a + b) == TotalValue(a) + TotalValue(b)
  {
    if a == [] {
      assert a + b == b;
    } else {
      assert (a + b)[1..] == a[1..] + b;
      TotalValueAppend(a[1..], b);
    }
  }

  /** Changing the quantity at one position moves the total value by the price times the change. */
  lemma TotalValueReplaceAt(items: seq<InventoryItem>, k: nat, item: InventoryItem)
    requires k < |items|
    ensures TotalValue(items[k := item]) == TotalValue(items) - ItemValue(items[k]) + ItemValue(item)
  {
    var before, after := items[..k], items[k + 1..];
    assert items == before + ([items[k]] + after);
    assert items[k := item] == before + ([item] + after);
    TotalValueAppend(before, [items[k]] + after);
    TotalValueAppend(before, [item] + after);
    assert ([items[k]] + after)[1..] == after;
    assert ([item] + after)[1..] == after;
  }

  /** Raising an item's quantity by `n` raises its value by price times `n`. */
  lemma ValueShift(a: InventoryItem, b: InventoryItem, n: int)
    requires b.price == a.price && b.quantity == a.quantity + n
    ensures ItemValue(b) == ItemValue(a) + a.price * n
  {
    var p, q := a.price, a.quantity;
    assert ItemValue(b) == p * (q + n);
    assert p * (q + n) == p * q + p * n;
  }

  /** `items.find(item => item.barcode === barcode)`: an item without a barcode never matches. */
  function FindByBarcode(items: seq<InventoryItem>, code: string): (r: Option<InventoryItem>)
    ensures r.Some? ==> r.value.barcode == Some(code) && r.value in items
    ensures r.None? ==> forall i :: 0 <= i < |items| ==> items[i].barcode != Some(code)
  {
    if items == [] then None
    else if items[0].barcode == Some(code) then Some(items[0])
    else FindByBarcode(items[1..], code)
  }

  /** `k` is the first position carrying barcode `code`. */
  predicate FirstWithBarcode(items: seq<InventoryItem>, code: string, k: int) {
    0 <= k < |items| && items[k].barcode == Some(code)
    && forall j :: 0 <= j < k ==> items[j].barcode != Some(code)
  }

  /** The item found is the one at the first position carrying the barcode. */
  lemma {:induction false} FindByBarcodeFirst(items: seq<InventoryItem>, code: string, k: nat)
    requires FirstWithBarcode(items, code, k)
    ensures FindByBarcode(items, code) == Some(items[k])
  {
    if k > 0 {
      assert FirstWithBarcode(items[1..], code, k - 1) by {
        forall j | 0 <= j < k - 1 ensures items[1..][j].barcode != Some(code) {
          assert items[1..][j] == items[j + 1];
        }
      }
      FindByBarcodeFirst(items[1..], code, k - 1);
    }
  }

  /** The search predicate: name or supplier includes the query ignoring case, or the barcode includes it exactly. */
  predicate Matches(item: InventoryItem, query: string) {
    var q := Lower(query);
    || Contains(Lower(item.name), q)
    || (item.supplier.Some? && item.supplier.value != "" && Contains(Lower(item.supplier.value), q))
    || (item.barcode.Some? && item.barcode.value != "" && Contains(item.barcode.value, query))
  }

  /** `searchItems(query)`; shaped like `Clients.Search`, on the item's own fields. */
  function Search(items: seq<InventoryItem>, query: string): (r: seq<InventoryItem>)
    ensures |r| <= |items|
    ensures forall x :: x in r <==> x in items && Matches(x, query)
  {
    if items == [] then []
    else if Matches(items[0], query) then [items[0]] + Search(items[1..], query)
    else Search(items[1..], query)
  }

  /** The search distributes over concatenation, so it keeps order and repeats as `filter` does; the twin of `Clients.SearchAppend`. */
  lemma {:induction false} SearchAppend(a: seq<InventoryItem>, b: seq<InventoryItem>, query: string)
    ensures Search(a + b, query) == Search(a, query) + Search(b, query)
  {
    if a == [] {
      assert a + b == b;
    } else {
      assert (a + b)[1..] == a[1..] + b;
      SearchAppend(a[1..], b, query);
    }
  }

  /** An empty query keeps every item (every name includes the empty string). */
  lemma SearchEmptyKeepsAll(items: seq<InventoryItem>)
    ensures forall x :: x in items ==> x in Search(items, "")
  {
    forall x | x in items ensures Matches(x, "") {
      ContainsTrivial(Lower(x.name));
    }
  }

  predicate NonNegative(items: seq<InventoryItem>) {
    forall i :: 0 <= i < |items| ==> items[i].quantity >= 0
  }

  /** Setting matching quantities to a non-negative value keeps every quantity non-negative. */
  lemma QuantityPatchKeepsNonNegative(items: seq<InventoryItem>, id: string, q: int, at: Option<int>)
    requires q >= 0
    ensures NonNegative(items) ==> NonNegative(Updated(items, id, QuantityPatch(q, at)))
  {
  }

  /** The list after `restockItem(id, n)`: an unknown id changes nothing. */
  function Restocked(items: seq<InventoryItem>, id: string, n: int, now: int): seq<InventoryItem>
  {
    var patch := RestockPatch(FindById(items, id), n, now);
    if patch.None? then items else Updated(items, id, patch.value)
  }

  /** The patch `restockItem` applies to the item it found, if any. */
  function RestockPatch(found: Option<InventoryItem>, n: int, now: int): Option<ItemPatch> {
    if found.None? then None else Some(QuantityPatch(found.value.quantity + n, Some(now)))
  }

  /** Whether `useItem(id, n)` succeeds: the item exists and holds at least `n`. */
  predicate CanUse(items: seq<InventoryItem>, id: string, n: int) {
    var found := FindById(items, id);
    found.Some? && found.value.quantity >= n
  }

  /** The list after `useItem(id, n)`: a refused use changes nothing. */
  function AfterUse(items: seq<InventoryItem>, id: string, n: int): seq<InventoryItem> {
    if CanUse(items, id, n) then Updated(items, id, QuantityPatch(FindById(items, id).value.quantity - n, None))
    else items
  }

  /**
   * On a store with unique ids, `restockItem(id, n)` changes only the item holding
   * `id`: its quantity grows by `n` and it is stamped with `now`; ids stay unique.
   */
  lemma RestockedAt(items: seq<InventoryItem>, id: string, n: int, now: int, k: nat)
    requires UniqueIds(items) && k < |items| && items[k].id == id
    ensures Restocked(items, id, n, now)
            == items[k := items[k].(quantity := items[k].quantity + n, lastRestocked := Some(now))]
  {
    var p := RestockedIsUpdate(items, id, n, now, k);
    var item := items[k].(quantity := items[k].quantity + n, lastRestocked := Some(now));
    MergeRestock(items[k], items[k].quantity + n, now);
    UpdatedUniqueAt(items, id, p, k, item);
  }

  /** Restocking never touches ids, so a store with unique ids keeps them. */
  lemma RestockKeepsUnique(items: seq<InventoryItem>, id: string, n: int, now: int)
    requires UniqueIds(items)
    ensures UniqueIds(Restocked(items, id, n, now))
  {
    var f := FindById(items, id);
    if f.Some? {
      KeepIdKeepsUnique(items, id, QuantityPatch(f.value.quantity + n, Some(now)));
    }
  }

  lemma RestockedIsUpdate(items: seq<InventoryItem>, id: string, n: int, now: int, k: nat) returns (p: ItemPatch)
    requires UniqueIds(items) && k < |items| && items[k].id == id
    ensures p == QuantityPatch(items[k].quantity + n, Some(now))
    ensures Restocked(items, id, n, now) == Updated(items, id, p)
  {
    FindUniqueAt(items, id, k);
    p := QuantityPatch(items[k].quantity + n, Some(now));
    assert RestockPatch(FindById(items, id), n, now) == Some(p);
  }

  lemma MergeRestock(item: InventoryItem, q: int, now: int)
    ensures Merge(item, QuantityPatch(q, Some(now))) == item.(quantity := q, lastRestocked := Some(now))
  {
  }

  lemma MergeUse(item: InventoryItem, q: int)
    ensures Merge(item, QuantityPatch(q, None)) == item.(quantity := q)
  {
  }

  /** A restock of `n` raises the total stock value by the item's price times `n`. */
  lemma RestockedValue(items: seq<InventoryItem>, id: string, n: int, now: int, k: nat)
    requires UniqueIds(items) && k < |items| && items[k].id == id
    ensures TotalValue(Restocked(items, id, n, now)) == TotalValue(items) + items[k].price * n
  {
    RestockedAt(items, id, n, now, k);
    var item := items[k].(quantity := items[k].quantity + n, lastRestocked := Some(now));
    TotalValueReplaceAt(items, k, item);
    ValueShift(items[k], item, n);
  }

  /**
   * On a store with unique ids, `useItem(id, n)` succeeds exactly when the item
   * holding `id` has at least `n` in stock; then only that item changes, its
   * quantity dropping by `n`.
   */
  lemma UsedAt(items: seq<InventoryItem>, id: string, n: int, k: nat)
    requires UniqueIds(items) && k < |items| && items[k].id == id
    ensures CanUse(items, id, n) <==> items[k].quantity >= n
    ensures CanUse(items, id, n) ==> AfterUse(items, id, n) == items[k := items[k].(quantity := items[k].quantity - n)]
  {
    FindUniqueAt(items, id, k);
    if items[k].quantity >= n {
      UsedEffectAt(items, id, n, k);
    }
  }

  lemma UsedEffectAt(items: seq<InventoryItem>, id: string, n: int, k: nat)
    requires UniqueIds(items) && k < |items| && items[k].id == id && items[k].quantity >= n
    ensures AfterUse(items, id, n) == items[k := items[k].(quantity := items[k].quantity - n)]
  {
    var p := UsedIsUpdate(items, id, n, k);
    var item := items[k].(quantity := items[k].quantity - n);
    MergeUse(items[k], items[k].quantity - n);
    UpdatedUniqueAt(items, id, p, k, item);
  }

  lemma UsedIsUpdate(items: seq<InventoryItem>, id: string, n: int, k: nat) returns (p: ItemPatch)
    requires UniqueIds(items) && k < |items| && items[k].id == id && items[k].quantity >= n
    ensures p == QuantityPatch(items[k].quantity - n, None)
    ensures AfterUse(items, id, n) == Updated(items, id, p)
  {
    FindUniqueAt(items, id, k);
    var f := FindById(items, id);
    p := QuantityPatch(f.value.quantity - n, None);
  }

  /** A successful use of `n` lowers the total stock value by the item's price times `n`. */
  lemma UsedValue(items: seq<InventoryItem>, id: string, n: int, k: nat)
    requires UniqueIds(items) && k < |items| && items[k].id == id && items[k].quantity >= n
    ensures TotalValue(AfterUse(items, id, n)) == TotalValue(items) - items[k].price * n
  {
    UsedEffectAt(items, id, n, k);
    var item := items[k].(quantity := items[k].quantity - n);
    TotalValueReplaceAt(items, k, item);
    ValueShift(item, items[k], n);
  }

  /** An id held by no item: restocking changes nothing, using fails and changes nothing. */
  lemma UnknownIdUnchanged(items: seq<InventoryItem>, id: string, n: int, now: int)
    requires !HasId(items, id)
    ensures Restocked(items, id, n, now) == items
    ensures !CanUse(items, id, n) && AfterUse(items, id, n) == items
  {
  }

  /** Stock never goes negative through `useItem`. */
  lemma UseKeepsNonNegative(items: seq<InventoryItem>, id: string, n: int)
    requires NonNegative(items)
    ensures NonNegative(AfterUse(items, id, n))
  {
    var item := FindById(items, id);
    if item.Some? && item.value.quantity >= n {
      QuantityPatchKeepsNonNegative(items, id, item.value.quantity - n, None);
    }
  }

  /** A restock by a non-negative amount keeps stock non-negative. */
  lemma RestockKeepsNonNegative(items: seq<InventoryItem>, id: string, n: int, now: int)
    requires NonNegative(items) && n >= 0
    ensures NonNegative(Restocked(items, id, n, now))
  {
    var item := FindById(items, id);
    if item.Some? {
      QuantityPatchKeepsNonNegative(items, id, item.value.quantity + n, Some(now));
    }
  }

  /** Whether `useItemByBarcode(code, n)` succeeds: the barcode is known and `useItem` succeeds on its id. */
  predicate CanUseByBarcode(items: seq<InventoryItem>, code: string, n: int) {
    var found := FindByBarcode(items, code);
    found.Some? && CanUse(items, found.value.id, n)
  }

  /** The list after `useItemByBarcode(code, n)`: an unknown barcode changes nothing. */
  function AfterUseByBarcode(items: seq<InventoryItem>, code: string, n: int): seq<InventoryItem> {
    var found := FindByBarcode(items, code);
    if found.Some? then AfterUse(items, found.value.id, n) else items
  }

  /**
   * The inventory store; `items` is the hook's state, and `saveInventory` both
   * persists and replaces it.
   */
  class InventoryStore {
    var items: seq<InventoryItem>

    constructor ()
      ensures items == []
    {
      items := [];
    }

    /** `loadInventory`: stored items replace the list when there are any. */
    method LoadInventory(stored: Option<seq<InventoryItem>>)
      modifies this
      ensures items == if stored.Some? then stored.value else old(items)
    {
      if stored.Some? { items := stored.value; }
    }

    /** `addItem`: exactly one item, the draft with the new id, is appended. */
    method AddItem(d: ItemDraft, id: string) returns (newItem: InventoryItem)
      modifies this
      ensures newItem == WithId(d, id) && newItem.id == id
      ensures items == old(items) + [newItem]
    {
      newItem := WithId(d, id);
      items := items + [newItem];
    }

    method UpdateItem(id: string, p: ItemPatch)
      modifies this
      ensures items == Updated(old(items), id, p)
    {
      items := Updated(items, id, p);
    }

    method DeleteItem(id: string)
      modifies this
      ensures items == Deleted(old(items), id)
    {
      items := Deleted(items, id);
    }

    /** `restockItem(id, n)`: adds `n` to the found item's quantity and stamps it; an unknown id changes nothing. */
    method RestockItem(id: string, n: int, now: int)
      modifies this
      ensures items == Restocked(old(items), id, n, now)
    {
      items := Restocked(items, id, n, now);
    }

    /**
     * `useItem(id, n)`: succeeds exactly when the item exists and has at least `n`
     * in stock, and then lowers its quantity by `n`; otherwise nothing changes.
     */
    method UseItem(id: string, n: int) returns (ok: bool)
      modifies this
      ensures ok == CanUse(old(items), id, n)
      ensures items == AfterUse(old(items), id, n)
    {
      ok := CanUse(items, id, n);
      items := AfterUse(items, id, n);
    }

    /** `restockByBarcode`: returns the item found (as it was before the restock), or nothing with no change. */
    method RestockByBarcode(code: string, n: int, now: int) returns (r: Option<InventoryItem>)
      modifies this
      ensures r == FindByBarcode(old(items), code)
      ensures items == if r.None? then old(items) else Restocked(old(items), r.value.id, n, now)
    {
      r := FindByBarcode(items, code);
      if r.Some? {
        RestockItem(r.value.id, n, now);
      }
    }

    /** `useItemByBarcode`: false with no change for an unknown barcode, otherwise `useItem` on the found id. */
    method UseItemByBarcode(code: string, n: int) returns (ok: bool)
      modifies this
      ensures ok == CanUseByBarcode(old(items), code, n)
      ensures items == AfterUseByBarcode(old(items), code, n)
    {
      var item := FindByBarcode(items, code);
      if item.Some? {
        ok := UseItem(item.value.id, n);
        return;
      }
      return false;
    }
  }
}
