/**
 * Orders and their items (`orders/models.py`), and the transitions the order, payment
 * and checkout views apply to an order's status fields, as one event function.
 */
module Orders {
  import opened Wrappers

  /** `Order.ORDER_STATUS_CHOICES`. */
  datatype OrderStatus = Pending | Processing | Completed | Cancelled

  /**
   * `payment_status`: the declared choices are pending, paid and failed; `Unpaid` is the
   * literal 'unpaid' that checkout stores, which the field accepts although it is not a choice.
   */
  datatype PaymentStatus = PaymentPending | Paid | Failed | Unpaid

  predicate DeclaredPaymentStatus(p: PaymentStatus) {
    p != Unpaid
  }

  type UserId = nat

  datatype Order = Order(
    user: UserId,
    fullName: string,
    email: string,
    phone: string,
    address: string,
    city: string,
    status: OrderStatus,
    totalPrice: real,
    paymentStatus: PaymentStatus,
    reference: Option<string>)

  /** An order saved with only its required fields: every defaulted field at its default. */
  function NewOrder(user: UserId, fullName: string, email: string, phone: string, address: string, city: string): Order {
    Order(user, fullName, email, phone, address, city, Pending, 0.0, PaymentPending, None)
  }

  /** An order line; the size is what the cart line held. */
  datatype OrderItem = OrderItem(orderId: nat, productId: nat, size: Option<int>, quantity: int, price: real)

  const DefaultItemSize: int := 40
  const DefaultItemQuantity: int := 1

  /** An order item saved with its size and quantity left at their defaults. */
  function NewOrderItem(orderId: nat, productId: nat, price: real): OrderItem {
    OrderItem(orderId, productId, Some(DefaultItemSize), DefaultItemQuantity, price)
  }

  /** `OrderItem.get_subtotal`. */
  function Subtotal(item: OrderItem): real {
    item.price * item.quantity as real
  }

  /** No negative price or quantity, no negative subtotal; one unit costs its price. */
  lemma SubtotalFacts(item: OrderItem)
    ensures item.price >= 0.0 && item.quantity >= 0 ==> Subtotal(item) >= 0.0
    ensures item.quantity == 0 ==> Subtotal(item) == 0.0
    ensures item.quantity == 1 ==> Subtotal(item) == item.price
  {
  }

  /** `order.items.all()`: the items of one order, in creation order. */
  function ItemsOf(items: seq<OrderItem>, orderId: nat): (r: seq<OrderItem>)
    ensures |r| <= |items|
    ensures forall i :: 0 <= i < |r| ==> r[i].orderId == orderId && r[i] in items
  {
    if items == [] then []
    else
      var last := items[|items| - 1];
      var init := ItemsOf(items[..|items| - 1], orderId);
      assert forall x :: x in items[..|items| - 1] ==> x in items;
      init + (if last.orderId == orderId then [last] else [])
  }

  function SumSubtotals(items: seq<OrderItem>): real {
    if items == [] then 0.0 else SumSubtotals(items[..|items| - 1]) + Subtotal(items[|items| - 1])
  }

  /** `Order.get_total`: the sum of the item subtotals; no delivery fee. */
  function GetTotal(items: seq<OrderItem>, orderId: nat): real {
    SumSubtotals(ItemsOf(items, orderId))
  }

  /** Items with no negative price or quantity never sum to a negative total. */
  lemma {:induction false} SumSubtotalsNonNegative(items: seq<OrderItem>)
    requires forall i :: 0 <= i < |items| ==> items[i].price >= 0.0 && items[i].quantity >= 0
    ensures SumSubtotals(items) >= 0.0
  {
    if items != [] {
      SumSubtotalsNonNegative(items[..|items| - 1]);
      SubtotalFacts(items[|items| - 1]);
    }
  }

  /** An order whose items have no negative price or quantity has a non-negative total. */
  lemma GetTotalNonNegative(items: seq<OrderItem>, orderId: nat)
    requires forall i :: 0 <= i < |items| ==> items[i].price >= 0.0 && items[i].quantity >= 0
    ensures GetTotal(items, orderId) >= 0.0
  {
    SumSubtotalsNonNegative(ItemsOf(items, orderId));
  }

  lemma {:induction false} SumSubtotalsAppend(a: seq<OrderItem>, b: seq<OrderItem>)
    ensures SumSubtotals(a + b) == SumSubtotals(a) + SumSubtotals(b)
  {
    if b != [] {
      assert (a + b)[..|a + b| - 1] == a + b[..|b| - 1];
      SumSubtotalsAppend(a, b[..|b| - 1]);
    } else {
      assert a + b == a;
    }
  }

  lemma {:induction false} ItemsOfAppend(a: seq<OrderItem>, b: seq<OrderItem>, orderId: nat)
    ensures ItemsOf(a + b, orderId) == ItemsOf(a, orderId) + ItemsOf(b, orderId)
  {
    if b != [] {
      assert (a + b)[..|a + b| - 1] == a + b[..|b| - 1];
      ItemsOfAppend(a, b[..|b| - 1], orderId);
    } else {
      assert a + b == a;
    }
  }

  /**
   * The total of an order depends only on its own items: appending the items of a new order
   * after items of other orders gives that order exactly the sum of the new items; an order
   * with no items totals 0.
   */
  lemma {:induction false} GetTotalOfNewItems(earlier: seq<OrderItem>, added: seq<OrderItem>, orderId: nat)
    requires forall i :: 0 <= i < |earlier| ==> earlier[i].orderId != orderId
    requires forall i :: 0 <= i < |added| ==> added[i].orderId == orderId
    ensures GetTotal(earlier + added, orderId) == SumSubtotals(added)
    ensures GetTotal(earlier, orderId) == 0.0
  {
    ItemsOfAppend(earlier, added, orderId);
    OnlyOwnItems(added, orderId);
    NoOwnItems(earlier, orderId);
    assert [] + added == added;
  }

  lemma {:induction false} OnlyOwnItems(items: seq<OrderItem>, orderId: nat)
    requires forall i :: 0 <= i < |items| ==> items[i].orderId == orderId
    ensures ItemsOf(items, orderId) == items
  {
    if items != [] {
      OnlyOwnItems(items[..|items| - 1], orderId);
    }
  }

  lemma {:induction false} NoOwnItems(items: seq<OrderItem>, orderId: nat)
    requires forall i :: 0 <= i < |items| ==> items[i].orderId != orderId
    ensures ItemsOf(items, orderId) == []
  {
    if items != [] {
      NoOwnItems(items[..|items| - 1], orderId);
    }
  }

  // ---------------------------------------------------------------- status transitions

  /** What happens to one order: a cancel request, a new payment reference, a gateway verdict. */
  datatype Event = CancelRequest | PaymentInitialized(reference: string) | PaymentVerified(success: bool)

  /** The guard of `cancel_order_view`. */
  predicate Cancellable(o: Order) {
    !(o.paymentStatus == Paid || o.status == Processing || o.status == Completed)
  }

  /**
   * The effect of one event on an order: cancel (when allowed) marks it cancelled and failed;
   * initializing stores the new reference unless the order is paid; a successful
   * verification marks it paid and processing, any other verdict only marks it failed.
   */
  function Apply(o: Order, e: Event): (r: Order)
    ensures r.(status := o.status, paymentStatus := o.paymentStatus, reference := o.reference) == o
    ensures r.paymentStatus == Paid && o.paymentStatus != Paid ==> e == PaymentVerified(true)
    ensures r.reference != o.reference ==> e.PaymentInitialized? && o.paymentStatus != Paid
  {
    match e
    case CancelRequest =>
      if Cancellable(o) then o.(status := Cancelled, paymentStatus := Failed) else o
    case PaymentInitialized(r) =>
      if o.paymentStatus == Paid then o else o.(reference := Some(r))
    case PaymentVerified(success) =>
      if success then o.(paymentStatus := Paid, status := Processing) else o.(paymentStatus := Failed)
  }

  /** The events in turn; whatever they are, only the three status fields ever change. */
  function ApplyAll(o: Order, events: seq<Event>): (r: Order)
    ensures r.(status := o.status, paymentStatus := o.paymentStatus, reference := o.reference) == o
  {
    if events == [] then o else Apply(ApplyAll(o, events[..|events| - 1]), events[|events| - 1])
  }

  /** Cancelling twice is cancelling once; a refused cancel changes nothing. */
  lemma CancelIdempotent(o: Order)
    ensures Apply(Apply(o, CancelRequest), CancelRequest) == Apply(o, CancelRequest)
    ensures !Cancellable(o) ==> Apply(o, CancelRequest) == o
    ensures Cancellable(o) ==> Apply(o, CancelRequest).status == Cancelled
                               && Apply(o, CancelRequest).paymentStatus == Failed
  {
  }

  /**
   * A paid order stays paid, and keeps its reference, through any sequence of cancels,
   * re-initializations and successful verifications: only a non-success verdict moves it.
   */
  lemma {:induction false} PaidIsStable(o: Order, events: seq<Event>)
    requires o.paymentStatus == Paid
    requires PaymentVerified(false) !in events
    ensures ApplyAll(o, events).paymentStatus == Paid
    ensures ApplyAll(o, events).reference == o.reference
  {
    if events != [] {
      assert forall e :: e in events[..|events| - 1] ==> e in events;
      PaidIsStable(o, events[..|events| - 1]);
    }
  }

  /** An order only reaches `processing` through a successful verification. */
  lemma {:induction false} ProcessingNeedsSuccess(o: Order, events: seq<Event>)
    requires o.status != Processing
    requires ApplyAll(o, events).status == Processing
    ensures PaymentVerified(true) in events
  {
    if events != [] {
      var init := events[..|events| - 1];
      var last := events[|events| - 1];
      if last != PaymentVerified(true) {
        ProcessingNeedsSuccess(o, init);
        assert init <= events;
      }
    }
  }

  /** Without cancels and successful verifications, the order status never changes. */
  lemma {:induction false} StatusKeptWithoutCancelOrSuccess(o: Order, events: seq<Event>)
    requires CancelRequest !in events && PaymentVerified(true) !in events
    ensures ApplyAll(o, events).status == o.status
  {
    if events != [] {
      assert forall e :: e in events[..|events| - 1] ==> e in events;
      StatusKeptWithoutCancelOrSuccess(o, events[..|events| - 1]);
    }
  }

  /**
   * A new order is pending, with payment pending and total 0, values inside the declared
   * choices; the 'unpaid' that checkout writes is not one of them.
   */
  lemma NewOrderDefaults(user: UserId, fullName: string, email: string, phone: string, address: string, city: string)
    ensures var o := NewOrder(user, fullName, email, phone, address, city);
            o.status == Pending && o.paymentStatus == PaymentPending && o.totalPrice == 0.0 &&
            DeclaredPaymentStatus(o.paymentStatus) && o.reference == None
    ensures !DeclaredPaymentStatus(Unpaid)
  {
  }

  /** A new item has size 40 and quantity 1, so its subtotal is its price. */
  lemma NewOrderItemDefaults(orderId: nat, productId: nat, price: real)
    ensures var item := NewOrderItem(orderId, productId, price);
            item.size == Some(40) && item.quantity == 1 && Subtotal(item) == price
  {
  }
}
