/**
 * The cart views (`cart/views.py`). Each request builds a fresh `Cart` over the session;
 * `get_object_or_404` is a lookup in the product table `catalog`, and a missing product
 * yields `found == false` (the 404) after the cart was built.
 */
module CartViews {
  import opened Wrappers
  import opened Catalog
  import opened SessionCart

  /**
   * `cart_add`: quantity defaults to 1 and size to the product's minimum size; the view
   * adds the size surcharge itself and passes the resulting price to `Cart.add`, which adds
   * nothing more, so the stored price is `get_price_for_size(size)`.
   */
  method CartAdd(session: Session, adminFee: Option<real>, catalog: map<nat, Product>, productId: nat,
                 postedQuantity: Option<int>, postedSize: Option<int>) returns (found: bool)
    requires session.cart != null ==> session.cart.Valid()
    requires CatalogConsistent(catalog)
    modifies session, session.cart
    ensures found <==> productId in catalog
    ensures session.cart != null && session.cart.Valid()
    ensures session.deliveryFee == Some(SelectFee(old(session.deliveryFee), adminFee))
    ensures !found ==> session.cart.lines == old(SessionLines(session))
    ensures found ==>
              var p := catalog[productId];
              var size := postedSize.GetOr(p.minSize);
              var key := LineKey(productId, Some(size));
              && session.cart.lines == old(SessionLines(session))[key :=
                   AddedLine(old(SessionLines(session)), p, postedQuantity.GetOr(1), Some(size), false,
                             Some(PriceForSize(p, size) as real))]
              && session.cart.lines[key].price == PriceForSize(p, size) as real
  {
    var cart := new Cart(session, adminFee);
    if productId !in catalog {
      return false;
    }
    var product := catalog[productId];
    var quantity := postedQuantity.GetOr(1);
    var size := postedSize.GetOr(product.minSize);
    var price := product.priceNgn;
    if size > product.extraFeeThreshold {
      price := price + product.extraFeeAmount;
    }
    assert price == PriceForSize(product, size);
    cart.Add(product, quantity, Some(size), false, Some(price as real));
    return true;
  }

  /** `cart_remove`: calls `Cart.remove` without a size, deleting the product's line for every size. */
  method CartRemove(session: Session, adminFee: Option<real>, catalog: map<nat, Product>, productId: nat)
    returns (found: bool)
    requires session.cart != null ==> session.cart.Valid()
    requires CatalogConsistent(catalog)
    modifies session, session.cart
    ensures found <==> productId in catalog
    ensures session.cart != null && session.cart.Valid()
    ensures !found ==> session.cart.lines == old(SessionLines(session))
    ensures found ==> forall k :: k in session.cart.lines <==>
                        k in old(SessionLines(session)) && old(SessionLines(session))[k].productId != productId
    ensures forall k :: k in session.cart.lines ==> session.cart.lines[k] == old(SessionLines(session))[k]
  {
    var cart := new Cart(session, adminFee);
    if productId !in catalog {
      return false;
    }
    RemovedKeysAreProductLines(cart.table.keys, cart.table.lines, productId);
    cart.Remove(catalog[productId], None);
    return true;
  }

  /**
   * `cart_detail`: the lines shown, the fee and the total. The total is the fee plus every
   * line's price × quantity; when no product of the cart was deleted it is exactly the fee
   * plus the totals of the lines shown.
   */
  method CartDetail(session: Session, adminFee: Option<real>, catalog: map<nat, Product>)
    returns (items: seq<CartItem>, deliveryFee: real, totalPrice: real)
    requires session.cart != null ==> session.cart.Valid()
    modifies session
    ensures deliveryFee == SelectFee(old(session.deliveryFee), adminFee)
    ensures items == IterLines(old(SessionKeys(session)), old(SessionLines(session)), catalog)
    ensures totalPrice == deliveryFee + LinesTotal(old(SessionKeys(session)), old(SessionLines(session)))
    ensures totalPrice == deliveryFee + ItemsTotal(items)
                          + MissingTotal(old(SessionKeys(session)), old(SessionLines(session)), catalog)
    ensures AllProductsExist(old(SessionKeys(session)), old(SessionLines(session)), catalog) ==>
              totalPrice == deliveryFee + ItemsTotal(items)
  {
    var cart := new Cart(session, adminFee);
    items := cart.Iterate(catalog);
    deliveryFee := cart.GetDeliveryFee();
    totalPrice := cart.GetTotalPrice();
    IterTotalSplit(cart.table.keys, cart.table.lines, catalog);
    if AllProductsExist(cart.table.keys, cart.table.lines, catalog) {
      IterAllPresent(cart.table.keys, cart.table.lines, catalog);
    }
  }
}
