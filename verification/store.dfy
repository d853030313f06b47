/**
 * The rows the order and payment views read and write (`orders/models.py`,
 * `payments/models.py`), and the shape of the payment references they store.
 */
module Store {
  import opened Wrappers
  import opened DecimalText
  import opened Orders

  /** A `Payment` row; `order` is the key it is stored under (one payment per order). */
  datatype Payment = Payment(user: UserId, reference: string, amount: real, verified: bool)

  /** `uuid4().hex[:8]`: eight lower-case hexadecimal digits. */
  predicate IsHexSuffix(s: string) {
    |s| == 8 && forall i :: 0 <= i < |s| ==> ('0' <= s[i] <= '9' || 'a' <= s[i] <= 'f')
  }

  const ReferenceHead: string := "ORD-"

  /** The reference `initialize_payment` gives order `orderId`: `ORD-<id>-<suffix>`. */
  function ReferenceOf(orderId: nat, suffix: string): (r: string)
    ensures IsReferenceFor(r, orderId)
    ensures IsHexSuffix(suffix) ==> |r| == 13 + |NatToStr(orderId)|
  {
    assert ReferenceHead + NatToStr(orderId) + "-" + suffix
        == (ReferenceHead + NatToStr(orderId) + "-") + suffix;
    ReferenceHead + NatToStr(orderId) + "-" + suffix
  }

  /** `r` starts with the prefix that names order `orderId`. */
  predicate IsReferenceFor(r: string, orderId: nat) {
    ReferenceHead + NatToStr(orderId) + "-" <= r
  }

  /** A reference names at most one order, whatever its suffix. */
  lemma ReferenceNamesOneOrder(r: string, a: nat, b: nat)
    requires IsReferenceFor(r, a) && IsReferenceFor(r, b)
    ensures a == b
  {
    var x, y := NatToStr(a), NatToStr(b);
    var tail := r[4..];
    assert ReferenceHead + x + "-" == ReferenceHead + (x + ['-']);
    assert ReferenceHead + y + "-" == ReferenceHead + (y + ['-']);
    assert x + ['-'] <= tail;
    assert y + ['-'] <= tail;
    var rest := tail[|y| + 1..];
    assert tail == y + ['-'] + rest;
    SeparatedPrefix(a, b, '-', rest);
  }

  /** Two orders never receive the same reference, whatever suffixes the generator produced. */
  lemma ReferencesOfDistinctOrdersDiffer(a: nat, b: nat, sa: string, sb: string)
    requires a != b
    ensures ReferenceOf(a, sa) != ReferenceOf(b, sb)
  {
    if ReferenceOf(a, sa) == ReferenceOf(b, sb) {
      ReferenceNamesOneOrder(ReferenceOf(a, sa), a, b);
    }
  }

  /**
   * `get_object_or_404(Order, id=..., user=...)`: the order with that id, provided it belongs
   * to `user`; `None` stands for the 404 response.
   */
  function OwnedOrder(orders: map<nat, Order>, orderId: nat, user: UserId): (r: Option<Order>)
    ensures r.Some? ==> orderId in orders && r.value == orders[orderId] && r.value.user == user
    ensures r.None? ==> orderId !in orders || orders[orderId].user != user
  {
    if orderId in orders && orders[orderId].user == user then Some(orders[orderId]) else None
  }

  /**
   * The order, item and payment tables. Order ids come from an auto-increment counter;
   * payments are keyed by their order (`Payment.order` is one-to-one).
   */
  class Database {
    var orders: map<nat, Order>
    var items: seq<OrderItem>
    var payments: map<nat, Payment>
    var nextOrderId: nat

    /**
     * Ids lie below the counter, every item belongs to a stored order, every stored
     * reference names its own order, and a payment carries its order's reference.
     */
    ghost predicate Valid()
      reads this
    {
      && (forall id :: id in orders ==> id < nextOrderId)
      && (forall i :: 0 <= i < |items| ==> items[i].orderId in orders)
      && (forall id :: id in orders && orders[id].reference.Some? ==>
            IsReferenceFor(orders[id].reference.value, id))
      && (forall id :: id in payments ==>
            id in orders && orders[id].reference == Some(payments[id].reference))
    }

    constructor ()
      ensures Valid() && orders == map[] && items == [] && payments == map[]
    {
      orders, items, payments, nextOrderId := map[], [], map[], 0;
    }

    /** `Order.objects.create`: the order gets the next id, which no order or item uses yet. */
    method CreateOrder(o: Order) returns (id: nat)
      requires Valid() && o.reference == None
      modifies this
      ensures Valid()
      ensures id == old(nextOrderId) && id !in old(orders)
      ensures forall i :: 0 <= i < |items| ==> items[i].orderId != id
      ensures orders == old(orders)[id := o] && items == old(items) && payments == old(payments)
    {
      id := nextOrderId;
      orders := orders[id := o];
      nextOrderId := id + 1;
    }

    /** `OrderItem.objects.create`: the item is appended; its order must exist. */
    method CreateItem(item: OrderItem)
      requires Valid() && item.orderId in orders
      modifies this
      ensures Valid()
      ensures items == old(items) + [item]
      ensures orders == old(orders) && payments == old(payments) && nextOrderId == old(nextOrderId)
    {
      items := items + [item];
    }

    /** Two stored orders never share a reference. */
    lemma OrderReferencesUnique(a: nat, b: nat)
      requires Valid() && a in orders && b in orders
      requires orders[a].reference.Some? && orders[a].reference == orders[b].reference
      ensures a == b
    {
      ReferenceNamesOneOrder(orders[a].reference.value, a, b);
    }

    /** `Payment.reference` is unique: two payments with one reference are one payment. */
    lemma PaymentReferencesUnique(a: nat, b: nat)
      requires Valid() && a in payments && b in payments
      requires payments[a].reference == payments[b].reference
      ensures a == b
    {
      ReferenceNamesOneOrder(payments[a].reference, a, b);
    }
  }
}
