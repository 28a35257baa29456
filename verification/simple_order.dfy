/** The earlier order screen, before the shared store existed: one list of
    menu items with quantities, keyed by menu-item id, with no line
    status; sending to the kitchen only reports. */
module SimpleOrder {
  import opened Collections
  import opened Catalog
  import opened Pricing

  /** A menu item with a quantity: the item's fields are copied into the line. */
  datatype SimpleItem = SimpleItem(item: MenuItem, quantity: int)

  type ItemList = seq<SimpleItem>

  function ItemIds(items: ItemList): set<MenuItemId>
  {
    set i | 0 <= i < |items| :: items[i].item.id
  }

  /** `prevItems.find(i => i.id === item.id)` finds something. */
  predicate HasItem(items: ItemList, id: MenuItemId)
  {
    exists i :: 0 <= i < |items| && items[i].item.id == id
  }

  /** Each menu item at most once, every quantity at least one. */
  predicate WellFormed(items: ItemList)
  {
    && (forall i, j :: 0 <= i < j < |items| ==> items[i].item.id != items[j].item.id)
    && (forall i :: 0 <= i < |items| ==> items[i].quantity >= 1)
  }

  /** `handleAddItem`'s update: every line of that menu item gains one unit
      when there is one; otherwise the item is appended with quantity 1. */
  function AddMenuItem(items: ItemList, item: MenuItem): (r: ItemList)
    ensures HasItem(r, item.id)
    ensures |r| == if HasItem(items, item.id) then |items| else |items| + 1
    ensures ItemIds(r) == ItemIds(items) + {item.id}
    ensures forall i :: 0 <= i < |items| && items[i].item.id != item.id ==> r[i] == items[i]
  {
    if HasItem(items, item.id) then
      var r := seq(|items|, i requires 0 <= i < |items| =>
        if items[i].item.id == item.id then items[i].(quantity := items[i].quantity + 1) else items[i]);
      assert HasItem(r, item.id) by {
        var k :| 0 <= k < |items| && items[k].item.id == item.id;
        assert r[k].item.id == item.id;
      }
      assert ItemIds(r) == ItemIds(items) by {
        forall id | id in ItemIds(items) ensures id in ItemIds(r) {
          var i :| 0 <= i < |items| && items[i].item.id == id;
          assert r[i].item.id == id;
        }
      }
      r
    else
      var r := items + [SimpleItem(item, 1)];
      assert r[|items|].item.id == item.id;
      assert ItemIds(r) == ItemIds(items) + {item.id} by {
        forall id | id in ItemIds(r) ensures id in ItemIds(items) + {item.id} {
          var i :| 0 <= i < |r| && r[i].item.id == id;
          if i < |items| { assert r[i] == items[i]; }
        }
        forall id | id in ItemIds(items) ensures id in ItemIds(r) {
          var i :| 0 <= i < |items| && items[i].item.id == id;
          assert r[i] == items[i];
        }
      }
      r
  }

  /** In a well-formed list, adding an item already present raises that one line by one. */
  lemma AddMenuItemMerges(items: ItemList, item: MenuItem, k: nat)
    requires WellFormed(items)
    requires k < |items| && items[k].item.id == item.id
    ensures AddMenuItem(items, item) == items[k := items[k].(quantity := items[k].quantity + 1)]
  {
  }

  /** A new item goes at the end with quantity 1, its fields copied from the menu. */
  lemma AddMenuItemAppends(items: ItemList, item: MenuItem)
    requires item.id !in ItemIds(items)
    ensures AddMenuItem(items, item) == items + [SimpleItem(item, 1)]
  {
    assert !HasItem(items, item.id) by {
      forall i | 0 <= i < |items| ensures items[i].item.id != item.id {
        assert items[i].item.id in ItemIds(items);
      }
    }
  }

  lemma AddMenuItemPreservesWellFormed(items: ItemList, item: MenuItem)
    requires WellFormed(items)
    ensures WellFormed(AddMenuItem(items, item))
  {
    if !HasItem(items, item.id) {
      var r := AddMenuItem(items, item);
      forall i, j | 0 <= i < j < |r| ensures r[i].item.id != r[j].item.id {
        if j == |items| {
          assert r[i] == items[i];
        }
      }
    }
  }

  function MenuIdOf(x: SimpleItem): MenuItemId
  {
    x.item.id
  }

  function ItemIdIsNot(itemId: MenuItemId): SimpleItem -> bool
  {
    (x: SimpleItem) => x.item.id != itemId
  }

  /** `handleUpdateQuantity`'s update: zero or less drops that menu item's
      lines, anything else becomes their quantity. */
  function SetItemQuantity(items: ItemList, itemId: MenuItemId, newQuantity: int): (r: ItemList)
    ensures newQuantity <= 0 ==> ItemIds(r) == ItemIds(items) - {itemId}
    ensures newQuantity > 0 ==> |r| == |items| && ItemIds(r) == ItemIds(items)
    ensures newQuantity > 0 ==> forall i :: 0 <= i < |r| ==>
      r[i].item == items[i].item &&
      r[i].quantity == if items[i].item.id == itemId then newQuantity else items[i].quantity
  {
    if newQuantity <= 0 then
      var r := Filter(items, ItemIdIsNot(itemId));
      FilterMembers(items, ItemIdIsNot(itemId));
      assert ItemIds(r) == ItemIds(items) - {itemId} by {
        forall id | id in ItemIds(r) ensures id in ItemIds(items) - {itemId} {
          var i :| 0 <= i < |r| && r[i].item.id == id;
          var j :| 0 <= j < |items| && items[j] == r[i];
        }
        forall id | id in ItemIds(items) - {itemId} ensures id in ItemIds(r) {
          var i :| 0 <= i < |items| && items[i].item.id == id;
          var j :| 0 <= j < |r| && r[j] == items[i];
        }
      }
      r
    else
      var r := seq(|items|, i requires 0 <= i < |items| =>
        if items[i].item.id == itemId then items[i].(quantity := newQuantity) else items[i]);
      assert ItemIds(r) == ItemIds(items) by {
        forall id | id in ItemIds(items) ensures id in ItemIds(r) {
          var i :| 0 <= i < |items| && items[i].item.id == id;
          assert r[i].item.id == id;
        }
      }
      r
  }

  /** Removing a menu item keeps every other line, in order. */
  lemma RemoveItemKeepsRest(before: ItemList, x: SimpleItem, after: ItemList, newQuantity: int)
    requires newQuantity <= 0
    requires x.item.id !in ItemIds(before) && x.item.id !in ItemIds(after)
    ensures SetItemQuantity(before + [x] + after, x.item.id, newQuantity) == before + after
  {
    var p := ItemIdIsNot(x.item.id);
    forall i | 0 <= i < |before| ensures p(before[i]) {
      assert before[i].item.id in ItemIds(before);
    }
    forall i | 0 <= i < |after| ensures p(after[i]) {
      assert after[i].item.id in ItemIds(after);
    }
    FilterDropsOne(before, x, after, p);
  }

  lemma SetItemQuantityPreservesWellFormed(items: ItemList, itemId: MenuItemId, newQuantity: int)
    requires WellFormed(items)
    ensures WellFormed(SetItemQuantity(items, itemId, newQuantity))
  {
    if newQuantity <= 0 {
      var p := ItemIdIsNot(itemId);
      assert KeysDistinct(items, MenuIdOf);
      FilterKeepsKeysDistinct(items, p, MenuIdOf);
      FilterMembers(items, p);
    }
  }

  // ---------------------------------------------------------------------
  // The bill

  function SimpleAmount(x: SimpleItem): real
  {
    x.item.price * x.quantity as real
  }

  /** The same summary as the store-backed screen: 10% tax on the sum of price times quantity. */
  function SimpleTotals(items: ItemList): (r: Totals)
    ensures r.subtotal == Sum(items, SimpleAmount)
    ensures r.tax == r.subtotal * 0.1
    ensures r.total == r.subtotal + r.tax
  {
    TotalsOf(Sum(items, SimpleAmount))
  }

  /** Adding a new menu item raises the subtotal by its price. */
  lemma SubtotalAfterAppend(items: ItemList, item: MenuItem)
    requires item.id !in ItemIds(items)
    ensures SimpleTotals(AddMenuItem(items, item)).subtotal == SimpleTotals(items).subtotal + item.price
  {
    AddMenuItemAppends(items, item);
    SumAppend(items, [SimpleItem(item, 1)], SimpleAmount);
    assert Sum([SimpleItem(item, 1)], SimpleAmount) == item.price by {
      assert [SimpleItem(item, 1)][1..] == [];
    }
  }

  // ---------------------------------------------------------------------
  // The screen's state

  datatype SendNotice = EmptyOrderNotice | OrderSent(tableId: string)

  class SimpleOrderInterface {
    const tableId: string
    var orderItems: ItemList

    ghost predicate Valid()
      reads this
    {
      WellFormed(orderItems)
    }

    constructor (tableId: string)
      ensures Valid()
      ensures this.tableId == tableId && orderItems == []
    {
      this.tableId := tableId;
      orderItems := [];
    }

    method HandleAddItem(item: MenuItem)
      requires Valid()
      modifies this
      ensures Valid()
      ensures orderItems == AddMenuItem(old(orderItems), item)
    {
      AddMenuItemPreservesWellFormed(orderItems, item);
      orderItems := AddMenuItem(orderItems, item);
    }

    method HandleUpdateQuantity(itemId: MenuItemId, newQuantity: int)
      requires Valid()
      modifies this
      ensures Valid()
      ensures orderItems == SetItemQuantity(old(orderItems), itemId, newQuantity)
    {
      SetItemQuantityPreservesWellFormed(orderItems, itemId, newQuantity);
      orderItems := SetItemQuantity(orderItems, itemId, newQuantity);
    }

    /** Sending only reports: an empty order is refused, anything else is
        announced as sent for this table; the list is never changed. */
    method HandleSendToKitchen() returns (notice: SendNotice)
      ensures notice.EmptyOrderNotice? <==> |orderItems| == 0
      ensures notice.OrderSent? ==> notice.tableId == tableId
    {
      if |orderItems| == 0 {
        return EmptyOrderNotice;
      }
      notice := OrderSent(tableId);
    }
  }
}
