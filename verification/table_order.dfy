/** The per-table transforms of the order store: each store operation
    replaces one table's line sequence by a function of the old one. The
    functions here are those transforms; the store class applies them. */
module TableOrder {
  import opened Collections
  import opened Catalog

  /** The ordered lines of one table. */
  type Order = seq<OrderItem>

  predicate IsNewLineFor(x: OrderItem, menuItemId: MenuItemId)
  {
    x.item.id == menuItemId && x.status == New
  }

  /** The ids of all lines of the order. */
  function LineIds(order: Order): set<LineId>
  {
    set x | x in order :: x.orderItemId
  }

  /** The ids of the lines that are still `new`. */
  function NewIds(order: Order): set<LineId>
  {
    set x | x in order && x.status == New :: x.orderItemId
  }

  // ---------------------------------------------------------------------
  // Invariants every stored order keeps

  predicate DistinctLineIds(order: Order)
  {
    forall i, j :: 0 <= i < j < |order| ==> order[i].orderItemId != order[j].orderItemId
  }

  predicate PositiveQuantities(order: Order)
  {
    forall i :: 0 <= i < |order| ==> order[i].quantity >= 1
  }

  /** At most one `new` line per menu item; `sent` lines may repeat an item. */
  predicate OneNewLinePerItem(order: Order)
  {
    forall i, j :: 0 <= i < j < |order| && order[i].status == New && order[j].status == New ==>
      order[i].item.id != order[j].item.id
  }

  predicate WellFormed(order: Order)
  {
    DistinctLineIds(order) && PositiveQuantities(order) && OneNewLinePerItem(order)
  }

  // ---------------------------------------------------------------------
  // addItemToOrder

  /** `currentOrder.find(i => i.id === item.id && i.status === 'new')`, as a position. */
  function FindNewLine(order: Order, menuItemId: MenuItemId): (r: Option<nat>)
    ensures r.Some? ==> r.value < |order| && IsNewLineFor(order[r.value], menuItemId)
    ensures r.Some? ==> forall j :: 0 <= j < r.value ==> !IsNewLineFor(order[j], menuItemId)
    ensures r.None? <==> forall j :: 0 <= j < |order| ==> !IsNewLineFor(order[j], menuItemId)
  {
    if order == [] then None
    else if IsNewLineFor(order[0], menuItemId) then Some(0)
    else
      match FindNewLine(order[1..], menuItemId)
      case None => None
      case Some(k) => Some(k + 1)
  }

  /** The line created for a menu item that has no `new` line yet. */
  function NewLine(item: MenuItem, freshId: LineId): OrderItem
  {
    OrderItem(item, freshId, 1, New)
  }

  /** Every line carrying `lineId` gets one more unit. */
  function IncrementLine(order: Order, lineId: LineId): Order
  {
    seq(|order|, i requires 0 <= i < |order| =>
      if order[i].orderItemId == lineId then order[i].(quantity := order[i].quantity + 1) else order[i])
  }

  /** Adding a menu item: merge into its `new` line, or append a fresh line. */
  function AddItem(order: Order, item: MenuItem, freshId: LineId): (r: Order)
    ensures FindNewLine(r, item.id).Some?
    ensures |r| == if FindNewLine(order, item.id).Some? then |order| else |order| + 1
    ensures LineIds(r) == if FindNewLine(order, item.id).Some? then LineIds(order) else LineIds(order) + {freshId}
    ensures NewIds(order) <= NewIds(r)
  {
    match FindNewLine(order, item.id)
    case Some(k) =>
      var r := IncrementLine(order, order[k].orderItemId);
      assert IsNewLineFor(r[k], item.id);
      assert forall i :: 0 <= i < |order| ==> r[i].orderItemId == order[i].orderItemId && r[i].status == order[i].status;
      assert LineIds(r) == LineIds(order) by {
        forall id | id in LineIds(order) ensures id in LineIds(r) {
          var i :| 0 <= i < |order| && order[i].orderItemId == id;
          assert r[i] in r;
        }
      }
      assert NewIds(order) <= NewIds(r) by {
        forall id | id in NewIds(order) ensures id in NewIds(r) {
          var i :| 0 <= i < |order| && order[i].orderItemId == id && order[i].status == New;
          assert r[i] in r;
        }
      }
      r
    case None =>
      var r := order + [NewLine(item, freshId)];
      assert IsNewLineFor(r[|order|], item.id);
      r
  }

  lemma AddItemMerges(order: Order, item: MenuItem, freshId: LineId, k: nat)
    requires DistinctLineIds(order)
    requires FindNewLine(order, item.id) == Some(k)
    ensures |AddItem(order, item, freshId)| == |order|
    ensures AddItem(order, item, freshId)[k] == order[k].(quantity := order[k].quantity + 1)
    ensures forall j :: 0 <= j < |order| && j != k ==> AddItem(order, item, freshId)[j] == order[j]
  {
  }

  /** A menu item whose earlier lines have all been sent gets a second, separate line. */
  lemma AddItemAppends(order: Order, item: MenuItem, freshId: LineId)
    requires forall j :: 0 <= j < |order| && order[j].item.id == item.id ==> order[j].status == Sent
    ensures AddItem(order, item, freshId) == order + [OrderItem(item, freshId, 1, New)]
  {
  }

  lemma AddItemPreservesWellFormed(order: Order, item: MenuItem, freshId: LineId)
    requires WellFormed(order)
    requires freshId !in LineIds(order)
    ensures WellFormed(AddItem(order, item, freshId))
  {
    var r := AddItem(order, item, freshId);
    match FindNewLine(order, item.id)
    case Some(k) =>
      AddItemMerges(order, item, freshId, k);
    case None =>
      assert r == order + [NewLine(item, freshId)];
      forall i | 0 <= i < |order| ensures order[i].orderItemId != freshId {
        assert order[i] in order;
      }
  }

  // ---------------------------------------------------------------------
  // updateOrderItemQuantity

  function IdIsNot(lineId: LineId): OrderItem -> bool
  {
    (x: OrderItem) => x.orderItemId != lineId
  }

  /** Every line carrying `lineId` takes the quantity `quantity`. */
  function SetLineQuantity(order: Order, lineId: LineId, quantity: int): Order
  {
    seq(|order|, i requires 0 <= i < |order| =>
      if order[i].orderItemId == lineId then order[i].(quantity := quantity) else order[i])
  }

  /** A quantity of zero or less removes the line, whatever its status;
      a positive one overwrites the line's quantity. */
  function UpdateQuantity(order: Order, lineId: LineId, newQuantity: int): (r: Order)
    ensures newQuantity <= 0 ==> lineId !in LineIds(r) && LineIds(r) == LineIds(order) - {lineId}
    ensures newQuantity <= 0 ==> NewIds(r) == NewIds(order) - {lineId}
    ensures newQuantity > 0 ==> |r| == |order| && LineIds(r) == LineIds(order) && NewIds(r) == NewIds(order)
    ensures newQuantity > 0 ==> forall i :: 0 <= i < |r| ==>
      r[i].(quantity := order[i].quantity) == order[i] &&
      r[i].quantity == (if order[i].orderItemId == lineId then newQuantity else order[i].quantity)
  {
    if newQuantity <= 0 then
      var r := Filter(order, IdIsNot(lineId));
      FilterMembers(order, IdIsNot(lineId));
      assert LineIds(r) == LineIds(order) - {lineId} by {
        forall id | id in LineIds(order) - {lineId} ensures id in LineIds(r) {
          var i :| 0 <= i < |order| && order[i].orderItemId == id;
          assert IdIsNot(lineId)(order[i]);
        }
      }
      assert NewIds(r) == NewIds(order) - {lineId} by {
        forall id | id in NewIds(order) - {lineId} ensures id in NewIds(r) {
          var i :| 0 <= i < |order| && order[i].orderItemId == id && order[i].status == New;
          assert IdIsNot(lineId)(order[i]);
        }
      }
      r
    else
      var r := SetLineQuantity(order, lineId, newQuantity);
      assert LineIds(r) == LineIds(order) by {
        forall id | id in LineIds(order) ensures id in LineIds(r) {
          var i :| 0 <= i < |order| && order[i].orderItemId == id;
          assert r[i] in r;
        }
      }
      assert NewIds(r) == NewIds(order) by {
        forall id | id in NewIds(order) ensures id in NewIds(r) {
          var i :| 0 <= i < |order| && order[i].orderItemId == id && order[i].status == New;
          assert r[i] in r;
        }
      }
      r
  }

  /** Dropping the lines of an id that does not occur keeps every line. */
  lemma RemoveAbsentId(order: Order, lineId: LineId)
    requires lineId !in LineIds(order)
    ensures Filter(order, IdIsNot(lineId)) == order
  {
    forall i | 0 <= i < |order| ensures IdIsNot(lineId)(order[i]) {
      assert order[i] in order;
    }
    FilterKeepsAll(order, IdIsNot(lineId));
  }

  /** Removing a line keeps every other line, in order. */
  lemma RemoveLineKeepsRest(before: Order, x: OrderItem, after: Order, newQuantity: int)
    requires newQuantity <= 0
    requires x.orderItemId !in LineIds(before) && x.orderItemId !in LineIds(after)
    ensures UpdateQuantity(before + [x] + after, x.orderItemId, newQuantity) == before + after
  {
    var p := IdIsNot(x.orderItemId);
    forall i | 0 <= i < |before| ensures p(before[i]) {
      assert before[i] in before;
    }
    forall i | 0 <= i < |after| ensures p(after[i]) {
      assert after[i] in after;
    }
    FilterDropsOne(before, x, after, p);
  }

  /** An id that is not in the order leaves it as it was, for every quantity. */
  lemma UpdateQuantityAbsentId(order: Order, lineId: LineId, newQuantity: int)
    requires lineId !in LineIds(order)
    ensures UpdateQuantity(order, lineId, newQuantity) == order
  {
    if newQuantity <= 0 {
      RemoveAbsentId(order, lineId);
    } else {
      forall i | 0 <= i < |order| ensures order[i].orderItemId != lineId {
        assert order[i] in order;
      }
    }
  }

  /** A line that may stand in front of `rest` without breaking the invariants. */
  predicate FitsBefore(a: OrderItem, rest: Order)
  {
    forall x :: x in rest ==>
      x.orderItemId != a.orderItemId && (a.status == New && x.status == New ==> x.item.id != a.item.id)
  }

  lemma ConsWellFormed(a: OrderItem, rest: Order)
    ensures WellFormed([a] + rest) <==> a.quantity >= 1 && FitsBefore(a, rest) && WellFormed(rest)
  {
    var s := [a] + rest;
    assert s[0] == a;
    assert forall i :: 0 <= i < |rest| ==> rest[i] == s[i + 1];
    if WellFormed(s) {
      forall x | x in rest
        ensures x.orderItemId != a.orderItemId && (a.status == New && x.status == New ==> x.item.id != a.item.id)
      {
        var j :| 0 <= j < |rest| && rest[j] == x;
        assert s[j + 1] == x;
      }
      forall i, j | 0 <= i < j < |rest|
        ensures rest[i].orderItemId != rest[j].orderItemId
        ensures rest[i].status == New && rest[j].status == New ==> rest[i].item.id != rest[j].item.id
      {
        assert rest[i] == s[i + 1] && rest[j] == s[j + 1];
      }
    }
    if a.quantity >= 1 && FitsBefore(a, rest) && WellFormed(rest) {
      forall i, j | 0 <= i < j < |s|
        ensures s[i].orderItemId != s[j].orderItemId
        ensures s[i].status == New && s[j].status == New ==> s[i].item.id != s[j].item.id
      {
        if i == 0 {
          assert s[j] == rest[j - 1] && rest[j - 1] in rest;
        } else {
          assert s[i] == rest[i - 1] && s[j] == rest[j - 1];
        }
      }
      forall i | 0 <= i < |s| ensures s[i].quantity >= 1 {
        if i > 0 { assert s[i] == rest[i - 1]; }
      }
    }
  }

  /** Filtering keeps the three invariants. */
  lemma {:induction false} FilterPreservesWellFormed(order: Order, p: OrderItem -> bool)
    requires WellFormed(order)
    ensures WellFormed(Filter(order, p))
  {
    if order != [] {
      assert order == [order[0]] + order[1..];
      ConsWellFormed(order[0], order[1..]);
      FilterPreservesWellFormed(order[1..], p);
      var rest := Filter(order[1..], p);
      FilterMembers(order[1..], p);
      if p(order[0]) {
        assert Filter(order, p) == [order[0]] + rest;
        forall x | x in rest ensures x in order[1..] {
          var i :| 0 <= i < |rest| && rest[i] == x;
        }
        ConsWellFormed(order[0], rest);
      } else {
        assert Filter(order, p) == rest;
      }
    }
  }

  lemma UpdateQuantityPreservesWellFormed(order: Order, lineId: LineId, newQuantity: int)
    requires WellFormed(order)
    ensures WellFormed(UpdateQuantity(order, lineId, newQuantity))
  {
    if newQuantity <= 0 {
      FilterPreservesWellFormed(order, IdIsNot(lineId));
    }
  }

  // ---------------------------------------------------------------------
  // updateOrderStatus

  /** Every line whose id is listed becomes `sent`; nothing else changes. */
  function MarkSent(order: Order, itemIds: set<LineId>): (r: Order)
    ensures |r| == |order|
    ensures forall i :: 0 <= i < |r| ==>
      r[i].(status := order[i].status) == order[i] &&
      (r[i].status == Sent <==> order[i].orderItemId in itemIds || order[i].status == Sent)
  {
    seq(|order|, i requires 0 <= i < |order| =>
      if order[i].orderItemId in itemIds then order[i].(status := Sent) else order[i])
  }

  lemma MarkSentIdempotent(order: Order, itemIds: set<LineId>)
    ensures MarkSent(MarkSent(order, itemIds), itemIds) == MarkSent(order, itemIds)
  {
  }

  /** Ids that name no line of the order have no effect. */
  lemma MarkSentIgnoresUnknownIds(order: Order, itemIds: set<LineId>)
    ensures MarkSent(order, itemIds) == MarkSent(order, itemIds * LineIds(order))
  {
    forall i | 0 <= i < |order| ensures order[i].orderItemId in LineIds(order) {
      assert order[i] in order;
    }
  }

  lemma MarkSentNewIds(order: Order, itemIds: set<LineId>)
    ensures LineIds(MarkSent(order, itemIds)) == LineIds(order)
    ensures NewIds(MarkSent(order, itemIds)) == NewIds(order) - itemIds
  {
    var r := MarkSent(order, itemIds);
    forall id | id in LineIds(order) ensures id in LineIds(r) {
      var i :| 0 <= i < |order| && order[i].orderItemId == id;
      assert r[i] in r;
    }
    forall id | id in NewIds(order) - itemIds ensures id in NewIds(r) {
      var i :| 0 <= i < |order| && order[i].orderItemId == id && order[i].status == New;
      assert r[i] in r;
    }
  }

  lemma MarkSentPreservesWellFormed(order: Order, itemIds: set<LineId>)
    requires WellFormed(order)
    ensures WellFormed(MarkSent(order, itemIds))
  {
  }
}
