/**
 * `initialize_payment` and `verify_payment` (`payments/views.py`). The gateway's replies and
 * the random reference suffix are parameters; e-mails and chat notifications are not modelled.
 */
module PaymentViews {
  import opened Wrappers
  import opened DecimalText
  import opened Orders
  import opened Store

  /** Python's `int()` of a decimal: truncation toward zero. */
  function Truncate(x: real): (r: int)
    ensures x >= 0.0 ==> r as real <= x < r as real + 1.0
    ensures x < 0.0 ==> r as real - 1.0 < x <= r as real
  {
    if x >= 0.0 then x.Floor else -((-x).Floor)
  }

  /**
   * The amount sent to the gateway, in kobo (hundredths of a naira): a non-negative price
   * loses its fraction of a kobo and never more, a negative one is rounded up the same way.
   */
  function AmountInKobo(totalPrice: real): (kobo: int)
    ensures totalPrice >= 0.0 ==> 0 <= kobo && kobo as real <= totalPrice * 100.0 < kobo as real + 1.0
    ensures totalPrice < 0.0 ==> kobo <= 0 && kobo as real - 1.0 < totalPrice * 100.0 <= kobo as real
  {
    Truncate(totalPrice * 100.0)
  }

  /** A price with at most two decimal places is sent exactly, in both signs. */
  lemma KoboIsExactForCents(cents: int)
    ensures AmountInKobo(cents as real / 100.0) == cents
  {
    assert cents as real / 100.0 * 100.0 == cents as real;
  }

  datatype InitResponse = InitNetworkError | InitReply(status: bool, hasAuthorizationUrl: bool)

  datatype InitOutcome =
    | InitNotFound         // 404
    | AlreadyPaid          // redirect to the confirmation page
    | GatewayUnreachable   // network error; the new reference is already saved
    | RedirectToGateway    // redirect to the gateway's authorization page
    | InitRejected         // the gateway refused; the new reference is already saved

  /** The transaction data sent to the gateway. */
  datatype GatewayRequest = GatewayRequest(email: string, amountKobo: int, reference: string)

  /**
   * Starts a transaction for the user's unpaid order: a fresh reference `ORD-<id>-<suffix>`
   * is stored on the order and on its payment (created or overwritten, unverified, for the
   * order's total price) before the gateway is called.
   */
  method InitializePayment(db: Database, orderId: nat, user: UserId, suffix: string, response: InitResponse)
    returns (outcome: InitOutcome, sent: Option<GatewayRequest>)
    requires db.Valid()
    modifies db
    ensures db.Valid()
    ensures db.items == old(db.items) && db.nextOrderId == old(db.nextOrderId)
    ensures outcome == InitNotFound <==> OwnedOrder(old(db.orders), orderId, user).None?
    ensures outcome == AlreadyPaid <==>
              OwnedOrder(old(db.orders), orderId, user).Some? && old(db.orders)[orderId].paymentStatus == Paid
    ensures outcome == InitNotFound || outcome == AlreadyPaid ==>
              db.orders == old(db.orders) && db.payments == old(db.payments) && sent == None
    ensures outcome != InitNotFound && outcome != AlreadyPaid ==>
              var o := old(db.orders)[orderId];
              var reference := ReferenceOf(orderId, suffix);
              && db.orders == old(db.orders)[orderId := Apply(o, PaymentInitialized(reference))]
              && db.payments == old(db.payments)[orderId := Payment(user, reference, o.totalPrice, false)]
              && sent == Some(GatewayRequest(o.email, AmountInKobo(o.totalPrice), reference))
              && outcome == (if response.InitNetworkError? then GatewayUnreachable
                             else if response.status && response.hasAuthorizationUrl then RedirectToGateway
                             else InitRejected)
              && (forall j :: j in old(db.payments) && j != orderId ==> old(db.payments)[j].reference != reference)
  {
    if !(orderId in db.orders && db.orders[orderId].user == user) {
      return InitNotFound, None;
    }
    if db.orders[orderId].paymentStatus == Paid {
      return AlreadyPaid, None;
    }
    var reference := ReferenceHead + NatToStr(orderId) + "-" + suffix;
    assert reference == ReferenceOf(orderId, suffix);
    forall j | j in db.payments && j != orderId
      ensures db.payments[j].reference != reference
    {
      if db.payments[j].reference == reference {
        ReferenceNamesOneOrder(reference, j, orderId);
      }
    }
    var order := db.orders[orderId].(reference := Some(reference));
    db.orders := db.orders[orderId := order];
    db.payments := db.payments[orderId := Payment(user, reference, order.totalPrice, false)];
    sent := Some(GatewayRequest(order.email, AmountInKobo(order.totalPrice), reference));
    if response.InitNetworkError? {
      outcome := GatewayUnreachable;
    } else if response.status && response.hasAuthorizationUrl {
      outcome := RedirectToGateway;
    } else {
      outcome := InitRejected;
    }
  }

  datatype VerifyResponse = VerifyNetworkError | VerifyReply(status: bool, transactionStatus: string)

  /** The gateway reports the transaction as successful. */
  predicate IsSuccess(r: VerifyResponse) {
    r.VerifyReply? && r.status && r.transactionStatus == "success"
  }

  datatype VerifyOutcome =
    | VerifyNotFound                 // 404
    | VerifyUnreachable(orderId: nat)
    | PaymentConfirmed(orderId: nat)
    | PaymentFailed(orderId: nat)

  /** Order `id` belongs to `user` and carries `reference`. */
  ghost predicate HoldsReference(orders: map<nat, Order>, id: nat, reference: string, user: UserId) {
    id in orders && orders[id].reference == Some(reference) && orders[id].user == user
  }

  /** `get_object_or_404(Order, reference=..., user=...)`: the lookup is never ambiguous. */
  method FindByReference(db: Database, reference: string, user: UserId) returns (found: Option<nat>)
    requires db.Valid()
    ensures found.None? <==> !exists id :: HoldsReference(db.orders, id, reference, user)
    ensures found.Some? ==>
              && HoldsReference(db.orders, found.value, reference, user)
              && forall id :: HoldsReference(db.orders, id, reference, user) ==> id == found.value
  {
    if !exists id :: id in db.orders && db.orders[id].reference == Some(reference) && db.orders[id].user == user {
      return None;
    }
    var id :| id in db.orders && db.orders[id].reference == Some(reference) && db.orders[id].user == user;
    assert HoldsReference(db.orders, id, reference, user);
    forall j | HoldsReference(db.orders, j, reference, user)
      ensures j == id
    {
      db.OrderReferencesUnique(j, id);
    }
    found := Some(id);
  }

  /** `Payment.objects.filter(reference=...).first()`: the payment of the order holding it, if any. */
  method FindPayment(db: Database, reference: string, orderId: nat) returns (payment: Option<nat>)
    requires db.Valid() && orderId in db.orders && db.orders[orderId].reference == Some(reference)
    ensures payment == if orderId in db.payments then Some(orderId) else None
  {
    payment := None;
    if exists p :: p in db.payments && db.payments[p].reference == reference {
      var p :| p in db.payments && db.payments[p].reference == reference;
      ReferenceNamesOneOrder(reference, p, orderId);
      payment := Some(p);
    } else {
      assert orderId !in db.payments;
    }
  }

  /**
   * The gateway's callback: finds the user's order by reference (there is at most one), then
   * on success marks it paid and processing and its payment verified; on any other verdict
   * marks it failed; on a network error changes nothing.
   */
  method VerifyPayment(db: Database, reference: string, user: UserId, response: VerifyResponse)
    returns (outcome: VerifyOutcome)
    requires db.Valid()
    modifies db
    ensures db.Valid()
    ensures db.items == old(db.items) && db.nextOrderId == old(db.nextOrderId)
    ensures outcome == VerifyNotFound <==> !exists id :: HoldsReference(old(db.orders), id, reference, user)
    ensures !outcome.VerifyNotFound? ==>
              && HoldsReference(old(db.orders), outcome.orderId, reference, user)
              && (forall id :: HoldsReference(old(db.orders), id, reference, user) ==> id == outcome.orderId)
    ensures outcome.VerifyUnreachable? <==> !outcome.VerifyNotFound? && response.VerifyNetworkError?
    ensures outcome.PaymentConfirmed? <==> !outcome.VerifyNotFound? && IsSuccess(response)
    ensures outcome.VerifyNotFound? || outcome.VerifyUnreachable? ==>
              db.orders == old(db.orders) && db.payments == old(db.payments)
    ensures outcome.PaymentConfirmed? ==>
              var id := outcome.orderId;
              && db.orders == old(db.orders)[id := Apply(old(db.orders)[id], PaymentVerified(true))]
              && db.payments == if id in old(db.payments)
                                then old(db.payments)[id := old(db.payments)[id].(verified := true)]
                                else old(db.payments)
    ensures outcome.PaymentFailed? ==>
              var id := outcome.orderId;
              && db.orders == old(db.orders)[id := Apply(old(db.orders)[id], PaymentVerified(false))]
              && db.payments == old(db.payments)
  {
    var found := FindByReference(db, reference, user);
    if found.None? {
      return VerifyNotFound;
    }
    var id := found.value;
    if response.VerifyNetworkError? {
      return VerifyUnreachable(id);
    }
    var payment := FindPayment(db, reference, id);
    if response.status && response.transactionStatus == "success" {
      var order := db.orders[id].(paymentStatus := Paid, status := Processing);
      db.orders := db.orders[id := order];
      if payment.Some? {
        var p := payment.value;
        db.payments := db.payments[p := db.payments[p].(verified := true)];
      }
      outcome := PaymentConfirmed(id);
    } else {
      db.orders := db.orders[id := db.orders[id].(paymentStatus := Failed)];
      outcome := PaymentFailed(id);
    }
  }
}
