/** The order screen of one table, in the version that works on the
    shared order store: derived queries over the table's lines (the new
    lines, the bill, the display order), the selection of lines for the
    kitchen, the two-step dispatch to the kitchen, the gating of its
    buttons and the hand-over to billing. */
module OrderScreen {
  import opened Collections
  import opened Catalog
  import opened Pricing
  import opened TableOrder
  import opened OrderStore

  // ---------------------------------------------------------------------
  // Lines still to be sent

  function IsNewLine(x: OrderItem): bool
  {
    x.status == New
  }

  /** The lines that are still `new`, in store order. */
  function NewItems(order: Order): (r: Order)
    ensures forall i :: 0 <= i < |r| ==> r[i] in order && r[i].status == New
    ensures forall i :: 0 <= i < |order| && order[i].status == New ==> order[i] in r
  {
    FilterMembers(order, IsNewLine);
    Filter(order, IsNewLine)
  }

  /** The new lines of two parts are those of each part, in order. */
  lemma NewItemsAppend(a: Order, b: Order)
    ensures NewItems(a + b) == NewItems(a) + NewItems(b)
  {
    FilterAppend(a, b, IsNewLine);
  }

  /** The ids of the new lines are exactly the ids the select-all control uses. */
  lemma NewItemIds(order: Order)
    ensures LineIds(NewItems(order)) == NewIds(order)
  {
    var r := NewItems(order);
    forall id | id in NewIds(order) ensures id in LineIds(r) {
      var i :| 0 <= i < |order| && order[i].orderItemId == id && order[i].status == New;
      assert order[i] in r;
    }
  }

  lemma {:induction false} DistinctIdsCount(s: Order)
    requires DistinctLineIds(s)
    ensures |LineIds(s)| == |s|
  {
    if s != [] {
      var rest := s[1..];
      assert DistinctLineIds(rest) by {
        forall i, j | 0 <= i < j < |rest| ensures rest[i].orderItemId != rest[j].orderItemId {
          assert rest[i] == s[i + 1] && rest[j] == s[j + 1];
        }
      }
      DistinctIdsCount(rest);
      assert LineIds(s) == {s[0].orderItemId} + LineIds(rest) by {
        forall id | id in LineIds(s) ensures id in {s[0].orderItemId} + LineIds(rest) {
          var i :| 0 <= i < |s| && s[i].orderItemId == id;
          if i > 0 { assert s[i] == rest[i - 1]; }
        }
        forall id | id in LineIds(rest) ensures id in LineIds(s) {
          var i :| 0 <= i < |rest| && rest[i].orderItemId == id;
          assert rest[i] == s[i + 1];
        }
      }
      assert s[0].orderItemId !in LineIds(rest) by {
        forall i | 0 <= i < |rest| ensures rest[i].orderItemId != s[0].orderItemId {
          assert rest[i] == s[i + 1];
        }
      }
    }
  }

  /** In a well-formed order there are as many new ids as new lines. */
  lemma NewIdsCount(order: Order)
    requires WellFormed(order)
    ensures |NewIds(order)| == |NewItems(order)|
  {
    FilterPreservesWellFormed(order, IsNewLine);
    DistinctIdsCount(NewItems(order));
    NewItemIds(order);
  }

  // ---------------------------------------------------------------------
  // The bill

  /** The sum of price times quantity over all lines, new or sent. */
  function Subtotal(order: Order): (r: real)
    ensures order == [] ==> r == 0.0
    ensures (forall i :: 0 <= i < |order| ==> order[i].item.price >= 0.0 && order[i].quantity >= 0) ==> r >= 0.0
  {
    if forall i :: 0 <= i < |order| ==> order[i].item.price >= 0.0 && order[i].quantity >= 0 then
      SumNonNegative(order, LineAmount);
      Sum(order, LineAmount)
    else
      Sum(order, LineAmount)
  }

  function OrderTotals(order: Order): (r: Totals)
    ensures r.subtotal == Subtotal(order)
    ensures r.tax == Subtotal(order) * 0.1
    ensures r.total == r.subtotal + r.tax
  {
    TotalsOf(Subtotal(order))
  }

  /** Sending lines to the kitchen does not change what the table owes. */
  lemma {:induction false} SubtotalIgnoresStatus(order: Order, itemIds: set<LineId>)
    ensures Subtotal(MarkSent(order, itemIds)) == Subtotal(order)
  {
    if order != [] {
      var m := MarkSent(order, itemIds);
      assert m[1..] == MarkSent(order[1..], itemIds);
      assert LineAmount(m[0]) == LineAmount(order[0]);
      SubtotalIgnoresStatus(order[1..], itemIds);
    }
  }

  lemma {:induction false} SumUpdate(s: Order, k: nat, v: OrderItem)
    requires k < |s|
    ensures Sum(s[k := v], LineAmount) == Sum(s, LineAmount) - LineAmount(s[k]) + LineAmount(v)
  {
    if k > 0 {
      assert s[k := v][1..] == s[1..][k - 1 := v];
      SumUpdate(s[1..], k - 1, v);
    } else {
      assert s[k := v][1..] == s[1..];
    }
  }

  lemma SubtotalAfterMerge(order: Order, item: MenuItem, freshId: LineId, k: nat)
    requires DistinctLineIds(order)
    requires FindNewLine(order, item.id) == Some(k)
    ensures Subtotal(AddItem(order, item, freshId)) == Subtotal(order) + order[k].item.price
  {
    var line := order[k].(quantity := order[k].quantity + 1);
    MergeIsUpdate(order, item, freshId, k);
    SumUpdate(order, k, line);
    LineAmountIncrement(order[k]);
  }

  lemma MergeIsUpdate(order: Order, item: MenuItem, freshId: LineId, k: nat)
    requires DistinctLineIds(order)
    requires FindNewLine(order, item.id) == Some(k)
    ensures AddItem(order, item, freshId) == order[k := order[k].(quantity := order[k].quantity + 1)]
  {
    AddItemMerges(order, item, freshId, k);
  }

  lemma LineAmountIncrement(x: OrderItem)
    ensures LineAmount(x.(quantity := x.quantity + 1)) == LineAmount(x) + x.item.price
  {
    var q := x.quantity as real;
    assert (x.quantity + 1) as real == q + 1.0;
    assert x.item.price * (q + 1.0) == x.item.price * q + x.item.price;
  }

  /** Adding a menu item raises the subtotal by one unit price: that of
      the merged line's snapshot, or that of the item for a fresh line. */
  lemma SubtotalAfterAdd(order: Order, item: MenuItem, freshId: LineId)
    requires DistinctLineIds(order)
    ensures Subtotal(AddItem(order, item, freshId)) == Subtotal(order) +
      match FindNewLine(order, item.id)
      case Some(k) => order[k].item.price
      case None => item.price
  {
    match FindNewLine(order, item.id)
    case Some(k) =>
      SubtotalAfterMerge(order, item, freshId, k);
    case None =>
      assert AddItem(order, item, freshId) == order + [NewLine(item, freshId)];
      SumAppend(order, [NewLine(item, freshId)], LineAmount);
      assert Sum([NewLine(item, freshId)], LineAmount) == item.price by {
        assert [NewLine(item, freshId)][1..] == [];
      }
  }

  // ---------------------------------------------------------------------
  // Display order

  /** A line's position in the category display order; -1 for an unknown category. */
  function CategoryRank(x: OrderItem): (r: int)
    ensures -1 <= r < |MenuCategories|
    ensures r == -1 <==> forall i :: 0 <= i < |MenuCategories| ==> MenuCategories[i].id != x.item.categoryId
    ensures 0 <= r ==> MenuCategories[r].id == x.item.categoryId
    ensures 0 <= r ==> forall i :: 0 <= i < r ==> MenuCategories[i].id != x.item.categoryId
  {
    IndexOf(CategoryIds(), x.item.categoryId)
  }

  /** `sortedOrderItems`: the lines ordered by category rank, a permutation
      of the order; lines of equal rank keep their store order. */
  function SortedOrderItems(order: Order): (r: Order)
    ensures |r| == |order|
    ensures multiset(r) == multiset(order)
    ensures forall i, j :: 0 <= i < j < |r| ==> CategoryRank(r[i]) <= CategoryRank(r[j])
  {
    SortBy(order, CategoryRank)
  }

  /** Stability: the lines of any one category keep their store order. */
  lemma SortedOrderItemsStable(order: Order, k: int)
    ensures Filter(SortedOrderItems(order), KeyIs(CategoryRank, k)) == Filter(order, KeyIs(CategoryRank, k))
  {
    SortByIsStable(order, CategoryRank, k);
  }

  // ---------------------------------------------------------------------
  // Selection for the kitchen

  /** One checkbox click: the id leaves the selection if it was in it and joins it otherwise. */
  function ToggleSelection(selected: set<LineId>, id: LineId): (r: set<LineId>)
    ensures id in r <==> id !in selected
    ensures r - {id} == selected - {id}
  {
    if id in selected then selected - {id} else selected + {id}
  }

  lemma ToggleTwice(selected: set<LineId>, id: LineId)
    ensures ToggleSelection(ToggleSelection(selected, id), id) == selected
  {
  }

  /** `areAllNewItemsSelected`: there are new lines and the selection has as many ids. */
  function AllNewSelected(order: Order, selected: set<LineId>): (r: bool)
    ensures r ==> selected != {} && NewIds(order) != {}
  {
    if |NewItems(order)| > 0 then
      NewItemIds(order);
      assert NewItems(order)[0].orderItemId in LineIds(NewItems(order));
      |selected| == |NewItems(order)|
    else
      false
  }

  /** The select-all control: empty the selection when every new line is
      selected, otherwise select exactly the new lines. */
  function SelectAll(order: Order, selected: set<LineId>): (r: set<LineId>)
    ensures r <= NewIds(order)
    ensures r == {} || r == NewIds(order)
  {
    NewItemIds(order);
    if AllNewSelected(order, selected) then {} else LineIds(NewItems(order))
  }

  /** Under the selection invariant, comparing sizes is comparing sets. */
  lemma AllNewSelectedMeaning(order: Order, selected: set<LineId>)
    requires WellFormed(order)
    requires selected <= NewIds(order)
    ensures AllNewSelected(order, selected) <==> selected == NewIds(order) && selected != {}
  {
    NewIdsCount(order);
    var missing := NewIds(order) - selected;
    assert NewIds(order) == selected + missing;
    assert |NewIds(order)| == |selected| + |missing|;
    assert missing == {} ==> selected == NewIds(order);
  }

  lemma SelectAllMeaning(order: Order, selected: set<LineId>)
    requires WellFormed(order)
    requires selected <= NewIds(order)
    ensures SelectAll(order, selected) == if selected == NewIds(order) && selected != {} then {} else NewIds(order)
  {
    AllNewSelectedMeaning(order, selected);
    NewItemIds(order);
  }

  function IdIn(selected: set<LineId>): OrderItem -> bool
  {
    (x: OrderItem) => x.orderItemId in selected
  }

  /** The lines handed to the kitchen: the selected ones, in store order. */
  function ItemsToSend(order: Order, selected: set<LineId>): (r: Order)
    ensures forall i :: 0 <= i < |r| ==> r[i] in order && r[i].orderItemId in selected
    ensures forall i :: 0 <= i < |order| && order[i].orderItemId in selected ==> order[i] in r
  {
    FilterMembers(order, IdIn(selected));
    Filter(order, IdIn(selected))
  }

  /** With the selection inside the new lines, "No Items Selected" happens exactly for an empty selection. */
  lemma ItemsToSendEmpty(order: Order, selected: set<LineId>)
    requires selected <= NewIds(order)
    ensures |ItemsToSend(order, selected)| == 0 <==> selected == {}
  {
    if selected != {} {
      var id :| id in selected;
      var i :| 0 <= i < |order| && order[i].orderItemId == id && order[i].status == New;
      assert order[i] in ItemsToSend(order, selected);
    } else {
      FilterDropsAll(order, IdIn(selected));
    }
  }

  // ---------------------------------------------------------------------
  // Gating of the controls

  lemma NoNewItems(order: Order)
    ensures |NewItems(order)| == 0 <==> forall i :: 0 <= i < |order| ==> order[i].status == Sent
  {
    if |NewItems(order)| > 0 {
      var x := NewItems(order)[0];
      var i :| 0 <= i < |order| && order[i] == x;
    }
  }

  /** Bill & Pay: shown for a non-empty order and enabled only when no line is `new`. */
  function CanBill(order: Order): (r: bool)
    ensures r <==> |order| > 0 && forall i :: 0 <= i < |order| ==> order[i].status == Sent
    ensures r ==> NewIds(order) == {}
  {
    NoNewItems(order);
    |order| > 0 && |NewItems(order)| == 0
  }

  /** The -, + and delete controls of a line are enabled only for `new` lines. */
  function LineControlsEnabled(x: OrderItem): (r: bool)
    ensures r <==> x.status != Sent
  {
    IsNewLine(x)
  }

  /** To Kitchen: shown for a non-empty order, enabled when nothing is in
      flight and something is selected. Under the selection invariant an
      enabled button never meets "No Items Selected". */
  function KitchenButtonEnabled(order: Order, isSending: bool, selected: set<LineId>): (r: bool)
    ensures isSending ==> !r
    ensures r && selected <= NewIds(order) ==> |ItemsToSend(order, selected)| > 0
  {
    if |order| > 0 && !(isSending || |selected| == 0) then
      if selected <= NewIds(order) then
        ItemsToSendEmpty(order, selected);
        true
      else
        true
    else
      false
  }

  /** Through the enabled controls alone, a `sent` line is never changed or removed. */
  lemma EnabledControlsKeepSentLines(order: Order, lineId: LineId, newQuantity: int, i: nat)
    requires DistinctLineIds(order)
    requires i < |order| && order[i].status == Sent
    requires forall j :: 0 <= j < |order| && order[j].orderItemId == lineId ==> LineControlsEnabled(order[j])
    ensures order[i] in UpdateQuantity(order, lineId, newQuantity)
  {
    var r := UpdateQuantity(order, lineId, newQuantity);
    if newQuantity <= 0 {
      FilterMembers(order, IdIsNot(lineId));
      assert IdIsNot(lineId)(order[i]);
    } else {
      assert r[i] == order[i];
    }
  }

  /** A worked example: one item at 10.00 added twice, dispatched, added
      again; billing waits for the second dispatch; the bill is 33.00. */
  lemma BillingScenario()
    ensures
      var a := MenuItems[1];
      var o1 := AddItem([], a, 0);
      var o2 := AddItem(o1, a, 1);
      var o3 := MarkSent(o2, {0});
      var o4 := AddItem(o3, a, 1);
      var o5 := MarkSent(o4, {1});
      && o2 == [OrderItem(a, 0, 2, New)]
      && OrderTotals(o2) == Totals(20.0, 2.0, 22.0)
      && o4 == [OrderItem(a, 0, 2, Sent), OrderItem(a, 1, 1, New)]
      && !CanBill(o4)
      && CanBill(o5)
      && OrderTotals(o5).total == 33.0
  {
    var a := MenuItems[1];
    assert a.price == 10.0;
    var o1 := AddItem([], a, 0);
    assert o1 == [OrderItem(a, 0, 1, New)];
    var o2 := AddItem(o1, a, 1);
    assert FindNewLine(o1, a.id) == Some(0);
    assert o2 == [OrderItem(a, 0, 2, New)];
    assert Subtotal(o2) == 20.0 by {
      assert o2[1..] == [];
      assert Sum(o2[1..], LineAmount) == 0.0;
      assert LineAmount(o2[0]) == 20.0;
      assert Sum(o2, LineAmount) == LineAmount(o2[0]) + Sum(o2[1..], LineAmount);
    }
    var o3 := MarkSent(o2, {0});
    assert o3 == [OrderItem(a, 0, 2, Sent)];
    AddItemAppends(o3, a, 1);
    var o4 := AddItem(o3, a, 1);
    assert o4[1].status == New;
    var o5 := MarkSent(o4, {1});
    assert o5 == [OrderItem(a, 0, 2, Sent), OrderItem(a, 1, 1, Sent)];
    assert Subtotal(o5) == 30.0 by {
      var tail := o5[1..];
      assert tail == [OrderItem(a, 1, 1, Sent)];
      assert tail[1..] == [];
      assert Sum(tail[1..], LineAmount) == 0.0;
      assert LineAmount(tail[0]) == 10.0;
      assert Sum(tail, LineAmount) == LineAmount(tail[0]) + Sum(tail[1..], LineAmount);
      assert LineAmount(o5[0]) == 20.0;
      assert Sum(o5, LineAmount) == LineAmount(o5[0]) + Sum(tail, LineAmount);
    }
  }

  // ---------------------------------------------------------------------
  // The screen's state

  /** The outcome of pressing To Kitchen, before the kitchen has answered. */
  datatype SendRequest =
    | NoItemsSelected
    | Dispatch(itemIds: set<LineId>, items: seq<OrderItem>)

  class OrderInterface {
    const store: Store
    const tableId: TableId
    var selectedItemIds: set<LineId>
    var isSending: bool

    function CurrentOrder(): Order
      reads this, store
    {
      store.GetOrderByTableId(tableId)
    }

    /** The selection only ever holds ids of the table's `new` lines. */
    ghost predicate Valid()
      reads this, store
    {
      store.Valid() && selectedItemIds <= NewIds(CurrentOrder())
    }

    constructor (store: Store, tableId: TableId)
      requires store.Valid()
      ensures Valid()
      ensures this.store == store && this.tableId == tableId
      ensures selectedItemIds == {} && !isSending
    {
      this.store := store;
      this.tableId := tableId;
      selectedItemIds := {};
      isSending := false;
    }

    method HandleAddItem(item: MenuItem)
      requires Valid()
      modifies store
      ensures Valid()
      ensures store.orders == old(store.orders)[tableId := AddItem(old(CurrentOrder()), item, old(store.nextLineId))]
      ensures store.completedOrders == old(store.completedOrders) && store.nextOrderId == old(store.nextOrderId)
      ensures store.nextLineId == if FindNewLine(old(CurrentOrder()), item.id).None? then old(store.nextLineId) + 1 else old(store.nextLineId)
    {
      store.AddItemToOrder(tableId, item);
    }

    /** A quantity of zero or less removes the line and drops it from the selection. */
    method HandleUpdateQuantity(orderItemId: LineId, newQuantity: int)
      requires Valid()
      modifies this, store
      ensures Valid()
      ensures store.orders == old(store.orders)[tableId :=
        UpdateQuantity(old(CurrentOrder()), orderItemId, if newQuantity <= 0 then 0 else newQuantity)]
      ensures selectedItemIds == if newQuantity <= 0 then old(selectedItemIds) - {orderItemId} else old(selectedItemIds)
      ensures isSending == old(isSending)
      ensures store.completedOrders == old(store.completedOrders)
      ensures store.nextLineId == old(store.nextLineId) && store.nextOrderId == old(store.nextOrderId)
    {
      if newQuantity <= 0 {
        store.UpdateOrderItemQuantity(tableId, orderItemId, 0);
        selectedItemIds := selectedItemIds - {orderItemId};
      } else {
        store.UpdateOrderItemQuantity(tableId, orderItemId, newQuantity);
      }
    }

    /** The checkbox exists only next to a `new` line. */
    method HandleToggleSelectItem(orderItemId: LineId)
      requires Valid()
      requires orderItemId in NewIds(CurrentOrder())
      modifies this
      ensures Valid()
      ensures selectedItemIds == ToggleSelection(old(selectedItemIds), orderItemId)
      ensures isSending == old(isSending)
    {
      if orderItemId in selectedItemIds {
        selectedItemIds := selectedItemIds - {orderItemId};
      } else {
        selectedItemIds := selectedItemIds + {orderItemId};
      }
    }

    method HandleToggleSelectAll()
      requires Valid()
      modifies this
      ensures Valid()
      ensures selectedItemIds == SelectAll(CurrentOrder(), old(selectedItemIds))
      ensures isSending == old(isSending)
    {
      selectedItemIds := SelectAll(CurrentOrder(), selectedItemIds);
    }

    /** First half of To Kitchen: with no selected line present the request
        is refused and nothing changes; otherwise the selected lines, in
        store order, go to the kitchen and the screen waits. */
    method BeginSendToKitchen() returns (request: SendRequest)
      requires Valid()
      modifies this
      ensures Valid()
      ensures selectedItemIds == old(selectedItemIds)
      ensures request.NoItemsSelected? <==> old(selectedItemIds) == {}
      ensures request.NoItemsSelected? ==> isSending == old(isSending)
      ensures request.Dispatch? ==>
        && isSending
        && request.itemIds == selectedItemIds
        && request.items == ItemsToSend(CurrentOrder(), selectedItemIds)
    {
      var items := ItemsToSend(CurrentOrder(), selectedItemIds);
      ItemsToSendEmpty(CurrentOrder(), selectedItemIds);
      if |items| == 0 {
        request := NoItemsSelected;
        return;
      }
      isSending := true;
      request := Dispatch(selectedItemIds, items);
    }

    /** Second half of To Kitchen, once the kitchen ticket call has returned
        (`saved`) or failed: on success the dispatched lines become `sent`
        and the selection empties; otherwise the order and the selection stay. */
    method FinishSendToKitchen(itemIds: set<LineId>, saved: bool)
      requires Valid()
      modifies this, store
      ensures Valid()
      ensures !isSending
      ensures saved ==> store.orders == old(store.orders)[tableId := MarkSent(old(CurrentOrder()), itemIds)]
      ensures saved ==> selectedItemIds == {}
      ensures !saved ==> store.orders == old(store.orders) && selectedItemIds == old(selectedItemIds)
      ensures store.completedOrders == old(store.completedOrders)
      ensures store.nextLineId == old(store.nextLineId) && store.nextOrderId == old(store.nextOrderId)
    {
      if saved {
        store.UpdateOrderStatus(tableId, itemIds);
        selectedItemIds := {};
      }
      isSending := false;
    }

    /** The payment dialog, opened from an enabled Bill & Pay button: the
        table is settled for its current lines and total only when billing
        succeeded. */
    method HandlePayment(paymentMethod: string, completedAt: int, billingSucceeded: bool)
      requires Valid()
      requires CanBill(CurrentOrder())
      modifies store
      ensures Valid()
      ensures billingSucceeded ==>
        && store.orders == old(store.orders) - {tableId}
        && store.completedOrders == [CompletedOrder(old(store.nextOrderId), tableId, old(CurrentOrder()),
                                                    OrderTotals(old(CurrentOrder())).total, paymentMethod, completedAt)]
                                    + old(store.completedOrders)
      ensures !billingSucceeded ==> store.orders == old(store.orders) && store.completedOrders == old(store.completedOrders)
      ensures store.nextOrderId == if billingSucceeded then old(store.nextOrderId) + 1 else old(store.nextOrderId)
      ensures store.nextLineId == old(store.nextLineId)
    {
      var order := CurrentOrder();
      store.CompleteOrder(tableId, order, OrderTotals(order).total, paymentMethod, completedAt, billingSucceeded);
    }
  }
}
