/** The order store: the open orders of every table, keyed by table id,
    and the ledger of completed orders. Every operation replaces one
    table's lines by a transform from module TableOrder and leaves every
    other table as it was. */
module OrderStore {
  import opened Catalog
  import opened TableOrder

  /** Tables are keyed by the id string taken from the route. */
  type TableId = string

  /** A settled table: the lines it was billed for and the amount charged. */
  datatype CompletedOrder = CompletedOrder(
    id: nat,
    tableId: TableId,
    items: seq<OrderItem>,
    total: real,
    paymentMethod: string,
    completedAt: int)

  class Store {
    var orders: map<TableId, Order>
    /** Newest first. */
    var completedOrders: seq<CompletedOrder>
    /** Source of fresh line ids (the source draws them from the clock and a random number). */
    var nextLineId: nat
    /** Source of fresh ids for completed orders. */
    var nextOrderId: nat

    /** Every open order keeps the line invariants and uses only ids
        already drawn; the ledger is newest first with distinct ids. */
    ghost predicate Valid()
      reads this
    {
      && (forall t :: t in orders ==> WellFormed(orders[t]))
      && (forall t, id :: t in orders && id in LineIds(orders[t]) ==> id < nextLineId)
      && (forall i :: 0 <= i < |completedOrders| ==> completedOrders[i].id < nextOrderId)
      && (forall i, j :: 0 <= i < j < |completedOrders| ==> completedOrders[i].id > completedOrders[j].id)
    }

    constructor ()
      ensures Valid()
      ensures orders == map[] && completedOrders == []
    {
      orders := map[];
      completedOrders := [];
      nextLineId := 0;
      nextOrderId := 0;
    }

    /** The table's lines, or none for a table without an entry. */
    function GetOrderByTableId(tableId: TableId): (r: Order)
      reads this
      ensures tableId in orders ==> r == orders[tableId]
      ensures tableId !in orders ==> r == []
      ensures Valid() ==> WellFormed(r)
    {
      if tableId in orders then orders[tableId] else []
    }

    method AddItemToOrder(tableId: TableId, item: MenuItem)
      requires Valid()
      modifies this
      ensures Valid()
      ensures orders == old(orders)[tableId := AddItem(old(GetOrderByTableId(tableId)), item, old(nextLineId))]
      ensures old(nextLineId) !in LineIds(old(GetOrderByTableId(tableId)))
      ensures nextLineId == if FindNewLine(old(GetOrderByTableId(tableId)), item.id).None? then old(nextLineId) + 1 else old(nextLineId)
      ensures completedOrders == old(completedOrders) && nextOrderId == old(nextOrderId)
    {
      var current := GetOrderByTableId(tableId);
      var freshId := nextLineId;
      assert freshId !in LineIds(current);
      AddItemPreservesWellFormed(current, item, freshId);
      var updated := AddItem(current, item, freshId);
      orders := orders[tableId := updated];
      if FindNewLine(current, item.id).None? {
        nextLineId := nextLineId + 1;
      }
    }

    method UpdateOrderItemQuantity(tableId: TableId, orderItemId: LineId, newQuantity: int)
      requires Valid()
      modifies this
      ensures Valid()
      ensures orders == old(orders)[tableId := UpdateQuantity(old(GetOrderByTableId(tableId)), orderItemId, newQuantity)]
      ensures tableId !in old(orders) ==> orders[tableId] == []
      ensures completedOrders == old(completedOrders)
      ensures nextLineId == old(nextLineId) && nextOrderId == old(nextOrderId)
    {
      var current := GetOrderByTableId(tableId);
      UpdateQuantityPreservesWellFormed(current, orderItemId, newQuantity);
      orders := orders[tableId := UpdateQuantity(current, orderItemId, newQuantity)];
    }

    method UpdateOrderStatus(tableId: TableId, itemIds: set<LineId>)
      requires Valid()
      modifies this
      ensures Valid()
      ensures orders == old(orders)[tableId := MarkSent(old(GetOrderByTableId(tableId)), itemIds)]
      ensures tableId !in old(orders) ==> orders[tableId] == []
      ensures completedOrders == old(completedOrders)
      ensures nextLineId == old(nextLineId) && nextOrderId == old(nextOrderId)
    {
      var current := GetOrderByTableId(tableId);
      MarkSentPreservesWellFormed(current, itemIds);
      MarkSentNewIds(current, itemIds);
      orders := orders[tableId := MarkSent(current, itemIds)];
    }

    /** Deletes the table's entry, so the table reads as empty again. */
    method ClearOrder(tableId: TableId)
      requires Valid()
      modifies this
      ensures Valid()
      ensures orders == old(orders) - {tableId}
      ensures completedOrders == old(completedOrders)
      ensures nextLineId == old(nextLineId) && nextOrderId == old(nextOrderId)
    {
      orders := orders - {tableId};
    }

    /** Settling a table once billing has answered: on success the sale is
        recorded at the head of the ledger and the table is cleared, both
        or neither; on failure nothing changes. */
    method CompleteOrder(tableId: TableId, items: seq<OrderItem>, total: real, paymentMethod: string,
                         completedAt: int, billingSucceeded: bool)
      requires Valid()
      modifies this
      ensures Valid()
      ensures billingSucceeded ==>
        && orders == old(orders) - {tableId}
        && completedOrders == [CompletedOrder(old(nextOrderId), tableId, items, total, paymentMethod, completedAt)] + old(completedOrders)
      ensures !billingSucceeded ==> orders == old(orders) && completedOrders == old(completedOrders)
      ensures nextOrderId == if billingSucceeded then old(nextOrderId) + 1 else old(nextOrderId)
      ensures nextLineId == old(nextLineId)
    {
      if billingSucceeded {
        completedOrders := [CompletedOrder(nextOrderId, tableId, items, total, paymentMethod, completedAt)] + completedOrders;
        nextOrderId := nextOrderId + 1;
        orders := orders - {tableId};
      }
    }
  }
}
