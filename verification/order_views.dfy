/** `checkout_view` and `cancel_order_view` (`orders/views.py`). */
module OrderViews {
  import opened Wrappers
  import opened Catalog
  import opened SessionCart
  import opened Orders
  import opened Store

  datatype CheckoutOutcome =
    | CartLengthError     // `not cart` raises ValueError: `__len__` returned a negative sum
    | CartEmpty           // redirect to the product list with a warning
    | ShowForm            // GET: render the checkout form
    | MissingFields       // POST without address or city: render the form with an error
    | Created(orderId: nat)  // redirect to payment initialization

  /** The order item checkout creates for one cart item. */
  function ItemFromCart(orderId: nat, c: CartItem): OrderItem {
    OrderItem(orderId, c.product.id, c.size, c.quantity, c.price)
  }

  function ItemsFromCart(orderId: nat, cs: seq<CartItem>): seq<OrderItem> {
    seq(|cs|, i requires 0 <= i < |cs| => ItemFromCart(orderId, cs[i]))
  }

  /** The subtotals of the created items add up to the totals the cart showed for them. */
  lemma {:induction false} SubtotalsMatchCart(orderId: nat, cs: seq<CartItem>)
    requires forall i :: 0 <= i < |cs| ==> cs[i].totalPrice == cs[i].price * cs[i].quantity as real
    ensures SumSubtotals(ItemsFromCart(orderId, cs)) == ItemsTotal(cs)
  {
    if cs != [] {
      var init := cs[..|cs| - 1];
      assert ItemsFromCart(orderId, cs)[..|cs| - 1] == ItemsFromCart(orderId, init);
      SubtotalsMatchCart(orderId, init);
    }
  }

  /**
   * Checkout: a cart whose quantities sum to a negative number makes the truth test
   * `not cart` raise, an empty cart (quantities summing to 0) is refused, a GET renders the form,
   * a POST needs a non-empty address and city. Otherwise it creates a pending order with
   * payment status 'unpaid' and the cart total (delivery fee included) as its price, one
   * item per line the cart iterates over, and then empties the cart.
   */
  method Checkout(db: Database, session: Session, adminFee: Option<real>, catalog: map<nat, Product>,
                  user: UserId, fullName: string, email: string,
                  isPost: bool, phone: string, address: string, city: string)
    returns (outcome: CheckoutOutcome)
    requires db.Valid()
    requires session.cart != null ==> session.cart.Valid()
    modifies db, session
    ensures db.Valid()
    ensures session.deliveryFee == Some(SelectFee(old(session.deliveryFee), adminFee))
    ensures var keys, lines := old(SessionKeys(session)), old(SessionLines(session));
            && (outcome == CartLengthError <==> Quantities(keys, lines) < 0)
            && (outcome == CartEmpty <==> Quantities(keys, lines) == 0)
            && (outcome == ShowForm <==> Quantities(keys, lines) > 0 && !isPost)
            && (outcome == MissingFields <==>
                  Quantities(keys, lines) > 0 && isPost && (address == "" || city == ""))
    ensures !outcome.Created? ==>
              && db.orders == old(db.orders) && db.items == old(db.items) && db.payments == old(db.payments)
              && SessionKeys(session) == old(SessionKeys(session))
              && SessionLines(session) == old(SessionLines(session))
    ensures outcome.Created? ==>
              var keys, lines := old(SessionKeys(session)), old(SessionLines(session));
              var id := outcome.orderId;
              var fee := SelectFee(old(session.deliveryFee), adminFee);
              && id !in old(db.orders)
              && db.orders == old(db.orders)[id := Order(user, fullName, email, phone, address, city,
                                                         Pending, LinesTotal(keys, lines) + fee, Unpaid, None)]
              && db.items == old(db.items) + ItemsFromCart(id, IterLines(keys, lines, catalog))
              && db.payments == old(db.payments)
              && SessionKeys(session) == [] && SessionLines(session) == map[]
              && db.orders[id].totalPrice == GetTotal(db.items, id) + fee + MissingTotal(keys, lines, catalog)
  {
    ghost var keys, lines := SessionKeys(session), SessionLines(session);
    var cart := new Cart(session, adminFee);
    assert cart.table.keys == keys && cart.table.lines == lines;
    if cart.Len() < 0 {
      outcome := CartLengthError;
    } else if cart.Len() == 0 {
      outcome := CartEmpty;
    } else if !isPost {
      outcome := ShowForm;
    } else if address == "" || city == "" {
      outcome := MissingFields;
    } else {
      assert cart.GetTotalPrice() == LinesTotal(keys, lines) + SelectFee(old(session.deliveryFee), adminFee);
      var id := PlaceOrder(db, cart, catalog, user, fullName, email, phone, address, city);
      cart.Clear();
      outcome := Created(id);
    }
  }

  /**
   * The order creation of checkout: a new order id, the order row with the cart's total
   * price, then its items.
   */
  method PlaceOrder(db: Database, cart: Cart, catalog: map<nat, Product>, user: UserId,
                    fullName: string, email: string, phone: string, address: string, city: string)
    returns (id: nat)
    requires db.Valid() && cart.Valid()
    modifies db
    ensures db.Valid()
    ensures id !in old(db.orders)
    ensures db.orders == old(db.orders)[id := Order(user, fullName, email, phone, address, city,
                                                    Pending, cart.GetTotalPrice(), Unpaid, None)]
    ensures db.items == old(db.items) + ItemsFromCart(id, IterLines(cart.table.keys, cart.table.lines, catalog))
    ensures db.payments == old(db.payments)
    ensures db.orders[id].totalPrice
            == GetTotal(db.items, id) + cart.deliveryFee + MissingTotal(cart.table.keys, cart.table.lines, catalog)
  {
    var total := cart.GetTotalPrice();
    var items0 := db.items;
    id := db.CreateOrder(Order(user, fullName, email, phone, address, city, Pending, total, Unpaid, None));
    var lines := cart.Iterate(catalog);
    SubtotalsMatchCart(id, lines);
    IterTotalSplit(cart.table.keys, cart.table.lines, catalog);
    CreateItems(db, id, lines);
    GetTotalOfNewItems(items0, ItemsFromCart(id, lines), id);
  }

  /** The `OrderItem.objects.create` loop of checkout: one item per cart item, in order. */
  method CreateItems(db: Database, id: nat, lines: seq<CartItem>)
    requires db.Valid() && id in db.orders
    modifies db
    ensures db.Valid()
    ensures db.items == old(db.items) + ItemsFromCart(id, lines)
    ensures db.orders == old(db.orders) && db.payments == old(db.payments) && db.nextOrderId == old(db.nextOrderId)
  {
    for i := 0 to |lines|
      invariant db.Valid()
      invariant db.items == old(db.items) + ItemsFromCart(id, lines[..i])
      invariant db.orders == old(db.orders) && db.payments == old(db.payments)
      invariant db.nextOrderId == old(db.nextOrderId)
    {
      assert ItemsFromCart(id, lines[..i + 1]) == ItemsFromCart(id, lines[..i]) + [ItemFromCart(id, lines[i])];
      db.CreateItem(ItemFromCart(id, lines[i]));
    }
    assert lines[..|lines|] == lines;
  }

  datatype CancelOutcome =
    | CancelNotFound   // 404
    | CancelRefused    // paid or already being processed
    | CancelDone

  /**
   * Cancel: only the owner's order is found; a paid, processing or completed order is left
   * alone; any other order becomes cancelled with payment status failed.
   */
  method CancelOrder(db: Database, orderId: nat, user: UserId) returns (outcome: CancelOutcome)
    requires db.Valid()
    modifies db
    ensures db.Valid()
    ensures db.items == old(db.items) && db.payments == old(db.payments) && db.nextOrderId == old(db.nextOrderId)
    ensures outcome == CancelNotFound <==> OwnedOrder(old(db.orders), orderId, user).None?
    ensures outcome == CancelRefused <==>
              OwnedOrder(old(db.orders), orderId, user).Some? && !Cancellable(old(db.orders)[orderId])
    ensures outcome == CancelNotFound ==> db.orders == old(db.orders)
    ensures outcome != CancelNotFound ==>
              db.orders == old(db.orders)[orderId := Apply(old(db.orders)[orderId], CancelRequest)]
  {
    if !(orderId in db.orders && db.orders[orderId].user == user) {
      return CancelNotFound;
    }
    var order := db.orders[orderId];
    if order.paymentStatus == Paid || order.status == Processing || order.status == Completed {
      assert db.orders[orderId := order] == db.orders;
      return CancelRefused;
    }
    order := order.(status := Cancelled, paymentStatus := Failed);
    db.orders := db.orders[orderId := order];
    outcome := CancelDone;
  }
}
