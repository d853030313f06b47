# Storefront money and status logic, in Dafny

This project models the core of a Django shoe storefront. Each core source file becomes one
Dafny module:

- **Session cart** (`cart/cart.py` → `SessionCart`). The session keeps a dictionary of cart
  lines keyed by `"{product_id}_{size}"`, or by the bare product id when the size is falsy.
  A `Cart` object is built over it on every request. It picks the delivery fee: the value
  cached in the session, else the admin setting, else 3500. `add` and `remove` change lines
  in place. `clear` puts a new empty dictionary into the session.
  - The dictionary is the class `LineTable`. It holds the insertion order (`keys`) and the
    lines (`lines`).
  - The session is the class `Session`. The `Cart` keeps its own reference to the table, so
    after `clear` the object still reports the old lines, exactly as the Python object does.
  - `str()` of integers is modelled digit by digit (`DecimalText`) and proved injective.
    This is what makes line keys and payment references unambiguous.
- **Size pricing** (`catalog/models.py` → `Catalog`, `cart/views.py` → `CartViews`). A size
  strictly above the product's threshold pays the product's extra fee. The cart view applies
  this surcharge once and passes the resulting price to `Cart.add`.
- **Orders** (`orders/models.py` → `Orders`, `orders/views.py` → `OrderViews`). Checkout turns
  the cart into one order and one item per iterated line, then clears the cart. Cancel is
  guarded by the payment and order status. The transitions that the order and payment views
  apply to one order are collected in the event function `Orders.Apply`. Lemmas about it hold
  over any sequence of events.
- **Payments** (`payments/views.py` → `PaymentViews`, `payments/models.py` → `Store`).
  Initializing stores a fresh reference `ORD-<id>-<8 hex>` on the order and upserts its
  payment before the gateway is called. Verifying applies the gateway's verdict. The order,
  item and payment tables are the class `Store.Database`. Its invariant says that every
  stored reference names its own order, so references are unique across orders.
- **Accounts** (`accounts/models.py` → `Accounts`, `accounts/views.py` → `AccountViews`).
  Users are keyed by their unique e-mail. Signup creates an inactive user with a fresh token.
  Verification activates that user and consumes the token. Setting the password needs the two
  entries to match.

Money is exact: `Decimal` amounts are `real`, and the integer price and fee fields are `nat`.
Gateway replies, random tokens and reference suffixes, the password validators' verdict and
`normalize_email` are parameters of the methods that use them.

Two facts about the code shape the data model:

- Checkout stores the payment status `'unpaid'` (orders/views.py:48). That value is not one
  of the choices `Order.payment_status` declares (orders/models.py:18-22). It is modelled as
  `Orders.Unpaid`.
- `cart_add` always passes `int(size)` to `Cart.add` (cart/views.py:11). A session line
  therefore holds an integer size, not a string.

## Model

| member | source | states |
|---|---|---|
| DecimalText.NatToStr | cart/cart.py:22 | `str(n)` is a non-empty digit string, one digit long exactly for n < 10 |
| DecimalText.IntToStr | cart/cart.py:22 | `str(i)` is non-empty and starts with '-' exactly for negative i |
| DecimalText.DigitChar | cart/cart.py:22 | the character of a digit is a decimal digit with that value |
| DecimalText.NatRoundTrip | cart/cart.py:22 | reading back `str(n)` gives n |
| DecimalText.NatToStrInjective | cart/cart.py:22 | different naturals print differently |
| DecimalText.IntRoundTrip | cart/cart.py:22 | reading back `str(i)` gives i, negative sizes included |
| DecimalText.IntToStrInjective | cart/cart.py:22 | different integers print differently |
| DecimalText.SeparatedPrefix | payments/views.py:31 | if `str(a)` followed by a non-digit separator starts `str(b)`, the separator and more, then a = b |
| Catalog.PriceForSize | catalog/models.py:53-57 | the price is at least the base price; it exceeds it exactly when size > threshold and the fee is positive; the excess is 0 or the fee |
| Catalog.ZeroFeeSizeIndependent | catalog/models.py:40-43 | with fee 0 every size costs the base price |
| Catalog.ThresholdIsStrict | catalog/models.py:55-57 | a size equal to the threshold pays the base price; one above it pays base + fee |
| Catalog.DefaultRangeHasNoSurcharge | catalog/models.py:32-39 | with the default sizes 38..45 and threshold 45, no offered size pays the fee, whatever the fee |
| Catalog.PriceMonotoneInSize | catalog/models.py:53-57 | a larger size never costs less |
| SessionCart.LineKeyShape | cart/cart.py:20-22 | `_generate_key` starts with `str(product.id)` and is longer than it exactly when the size is truthy |
| SessionCart.BelongsTo | cart/cart.py:66 | a key remove's filter selects for a product starts with that product's id |
| SessionCart.KeyHasSeparator | cart/cart.py:20-22 | a key contains '_' exactly when the size is truthy |
| SessionCart.LineKeyInjective | cart/cart.py:20-22 | equal keys mean the same product and the same truthy size; a falsy size never collides with a truthy one |
| SessionCart.DigitsHaveNoSeparator | cart/cart.py:66 | no `"{id}_"` prefix matches a bare-id key |
| SessionCart.BelongsToIff | cart/cart.py:66 | remove's filter for product a matches the key of product b, any size, exactly when a = b (id 1 does not catch "12_40") |
| SessionCart.QuantitiesSign | cart/cart.py:85-86 | with no negative quantity `__len__` is not negative, and it is positive exactly when some line has a positive quantity |
| SessionCart.LinesTotalNonNegative | cart/cart.py:88-91 | with no negative quantity or price the lines' sum before the fee is not negative |
| SessionCart.SumsIgnoreOtherKeys | cart/cart.py:85-91 | `__len__` and the price sum ignore lines outside the dictionary's keys |
| SessionCart.SumsAfterUpdate | cart/cart.py:46-53 | replacing one line changes both sums by exactly that line's difference |
| SessionCart.SumsAfterAppend | cart/cart.py:38-44 | a new line adds exactly its quantity and its total to the sums |
| SessionCart.PutKeepsWellFormed | cart/cart.py:38-53 | writing a line under its own key keeps the keys distinct and in step with the lines; a new key goes last; both sums change by that line only |
| SessionCart.IterLines | cart/cart.py:71-83 | iteration yields no more items than there are lines; each item's product exists and its total is price × quantity |
| SessionCart.IterTotalSplit | cart/cart.py:71-91 | the totals of the yielded items plus those of lines whose product is gone equal the cart's price sum |
| SessionCart.IterAllPresent | cart/cart.py:71-83 | when every product exists, iteration yields one item per line, in order, copying the line |
| SessionCart.Without | cart/cart.py:64-68 | `del` keeps exactly the keys not deleted, without duplicates |
| SessionCart.WithoutOneMore | cart/cart.py:67-68 | deleting keys one after another is deleting them all at once |
| SessionCart.MatchingKeys | cart/cart.py:66 | the collected keys are exactly the dictionary's keys that pass remove's filter, without duplicates |
| SessionCart.DeleteKeepsWellFormed | cart/cart.py:60-68 | deleting any keys keeps the dictionary well formed |
| SessionCart.DeleteStep | cart/cart.py:67-68 | each key of the deletion loop is still present when it is deleted |
| SessionCart.MatchingKeysAreRemovedKeys | cart/cart.py:65-68 | the collected keys are the keys that remove without a size deletes |
| SessionCart.RemovedKeys | cart/cart.py:60-68 | remove deletes only keys present; with a truthy size it deletes at most the one key for that size, and deletes it exactly when it is present |
| SessionCart.RemovedKeysAreProductLines | cart/cart.py:65-68 | remove without a size deletes exactly the lines of that product, whatever their size |
| SessionCart.SelectFee | cart/cart.py:14-16 | the fee cached in the session wins; without it the admin setting; without both 3500 |
| SessionCart.AddedLine | cart/cart.py:24-53 | the line add leaves is filed under the key of its own product and size; its quantity is q with override or for a new key, the old quantity plus q otherwise; its price is the explicit price when one is given, else the product's base price; its size and product id are the ones passed |
| SessionCart.FeeStaysCached | cart/cart.py:16-18 | once a fee is cached, later admin changes do not alter it |
| SessionCart.WithoutNothing | cart/cart.py:60-64 | removing an absent key leaves the key order as it was |
| SessionCart.LineTable.constructor | cart/cart.py:10 | a new dictionary is empty and well formed |
| SessionCart.Cart.constructor | cart/cart.py:6-18 | reuses a non-empty session cart or installs an empty one; the fee is cached ?? admin ?? 3500 and is written back, which marks the session modified |
| SessionCart.Cart.Len | cart/cart.py:85-86 | an empty cart has length 0 |
| SessionCart.Cart.GetTotalPrice | cart/cart.py:88-91 | an empty cart totals exactly the delivery fee |
| SessionCart.Cart.GetDeliveryFee | cart/cart.py:93-95 | the fee is exactly what `get_total_price` adds on top of the lines |
| SessionCart.Cart.Add | cart/cart.py:24-55 | only the line under the key changes: it is created at 0 if absent, its quantity is set to q with override or increased by exactly q without, and its price and size are overwritten; a new key goes last; without override the length grows by q, with override it changes by q minus the old quantity (0 for a new key); the total changes by that line only |
| SessionCart.Cart.Remove | cart/cart.py:60-69 | exactly the keys remove selects are deleted (an absent key is a no-op) and the rest keep their order |
| SessionCart.Cart.Iterate | cart/cart.py:71-83 | the items are those of `IterLines`, and the stored lines are not modified |
| SessionCart.Cart.Clear | cart/cart.py:97-101 | the session gets a fresh empty cart and keeps the same fee, while this object still reports the old lines and totals |
| CartViews.CartAdd | cart/views.py:6-18 | 404 exactly for a missing product; quantity defaults to 1 and size to the minimum size; the stored price is `get_price_for_size(size)`, so the surcharge is applied once |
| CartViews.CartRemove | cart/views.py:20-25 | the remaining lines are exactly the old lines of other products, unchanged |
| CartViews.CartDetail | cart/views.py:27-33 | the shown total is the fee plus the sum of line totals; when no product was deleted, it is the fee plus the shown items' totals |
| Orders.ItemsOf | orders/models.py:39-40 | `order.items` holds only that order's items |
| Orders.SubtotalFacts | orders/models.py:56-57 | a subtotal is not negative for a non-negative price and quantity, 0 for quantity 0, and the price for quantity 1 |
| Orders.SumSubtotalsNonNegative | orders/models.py:39-40 | items with no negative price or quantity sum to a non-negative total |
| Orders.GetTotalNonNegative | orders/models.py:39-40 | `get_total` of an order is not negative when no item has a negative price or quantity |
| Orders.SumSubtotalsAppend | orders/models.py:39-40 | the sum of subtotals is additive over concatenation |
| Orders.ItemsOfAppend | orders/models.py:39-40 | an order's items in a concatenation are its items in each part |
| Orders.OnlyOwnItems | orders/models.py:39-40 | a sequence of one order's items is all of that order's items |
| Orders.NoOwnItems | orders/models.py:39-40 | an order with no items in the table has none |
| Orders.GetTotalOfNewItems | orders/models.py:39-40 | `get_total` is the sum of the order's own item subtotals, so an order without items totals 0 |
| Orders.Apply | payments/views.py:26-32 | an event changes only the status, payment status and reference; an order becomes paid only by a successful verification; the reference changes only by initializing an unpaid order |
| Orders.ApplyAll | payments/views.py:100-103 | any sequence of events leaves every field other than the status, payment status and reference as it was |
| Orders.CancelIdempotent | orders/views.py:85-91 | a refused cancel changes nothing; an accepted cancel sets cancelled / failed; cancelling twice equals cancelling once |
| Orders.PaidIsStable | payments/views.py:26-28 | a paid order stays paid and keeps its reference through any cancels, re-initializations and successful verifications |
| Orders.ProcessingNeedsSuccess | payments/views.py:100-103 | an order reaches `processing` only through a successful verification |
| Orders.StatusKeptWithoutCancelOrSuccess | payments/views.py:172-174 | without cancels and successful verifications, the order status never changes |
| Orders.NewOrderDefaults | orders/models.py:11-33 | a new order is pending, payment pending, total 0, within the declared choices; 'unpaid' is outside them |
| Orders.NewOrderItemDefaults | orders/models.py:49-57 | a new item has size 40 and quantity 1, so its subtotal is its price |
| Store.ReferenceOf | payments/views.py:31 | the reference names its order; with a suffix of 8 lowercase hex characters it is 13 characters longer than the id |
| Store.OwnedOrder | orders/views.py:83 | `get_object_or_404(Order, id=…, user=…)` finds the stored order exactly when it exists and belongs to the user; otherwise 404 |
| Store.ReferenceNamesOneOrder | payments/views.py:31 | a reference names at most one order, whatever its suffix |
| Store.ReferencesOfDistinctOrdersDiffer | payments/views.py:31 | two orders never get the same reference |
| Store.Database.constructor | orders/models.py:10-34 | empty tables satisfy the invariant |
| Store.Database.CreateOrder | orders/views.py:39-49 | the order gets an unused id that no item refers to yet; nothing else changes |
| Store.Database.CreateItem | orders/views.py:52-58 | an item of an existing order is appended; nothing else changes |
| Store.Database.OrderReferencesUnique | payments/views.py:83 | two stored orders never share a reference, so the lookup by reference cannot be ambiguous |
| Store.Database.PaymentReferencesUnique | payments/models.py:7 | the unique reference column is never violated |
| OrderViews.SubtotalsMatchCart | orders/views.py:51-58 | the subtotals of the created items add up to the cart's item totals |
| OrderViews.Checkout | orders/views.py:12-70 | a negative length makes `not cart` raise; an empty cart (length 0), GET and missing address or city create nothing and leave the cart lines alone; only a positive length goes further; otherwise a pending / 'unpaid' order totalling the cart total (fee included), one item per iterated line copying size, quantity and price, then an empty session cart; the total equals `get_total` + fee + lines of deleted products |
| OrderViews.PlaceOrder | orders/views.py:39-58 | a new order with the cart's total price, then its items; its price is `get_total` plus the fee plus skipped lines |
| OrderViews.CreateItems | orders/views.py:51-58 | one item per cart item, in order, and nothing else changes |
| OrderViews.CancelOrder | orders/views.py:80-94 | 404 exactly for another user's or a missing order; otherwise the order becomes `Apply(order, CancelRequest)`, and the refusal happens exactly when it is paid, processing or completed |
| PaymentViews.Truncate | payments/views.py:54 | `int()` truncates toward zero |
| PaymentViews.KoboIsExactForCents | payments/views.py:54 | a total with at most two decimal places is sent as exactly total × 100 kobo |
| PaymentViews.AmountInKobo | payments/views.py:54 | `int(total * 100)`: a non-negative total loses less than one kobo and never goes negative; a negative one is rounded toward zero the same way |
| PaymentViews.InitializePayment | payments/views.py:20-76 | 404 for a foreign order; a paid order changes nothing; otherwise the new reference is stored on the order and on its single payment (amount = total, unverified) before the gateway call, whatever the gateway answers; the request carries the e-mail, the kobo amount and the reference; no other payment holds that reference |
| PaymentViews.FindByReference | payments/views.py:83 | finds the user's order holding the reference, which is unique |
| PaymentViews.FindPayment | payments/views.py:98 | the payment with that reference is the order's own payment, if it has one |
| PaymentViews.VerifyPayment | payments/views.py:79-176 | 404 unless the user has an order with the reference; a network error changes nothing; success sets paid / processing and verifies that order's payment; any other verdict sets only failed |
| Accounts.NewUser | accounts/models.py:41-47 | a new user is inactive, not staff, not superuser, with a blank name, no password and the fresh token, unless the caller gives a value |
| Accounts.InsertKeepsValid | accounts/models.py:42-47 | adding a user with a fresh token under its own e-mail keeps e-mail and token unique |
| Accounts.UserTable.constructor | accounts/models.py:41-52 | an empty table satisfies the uniqueness invariant |
| Accounts.CreateUser | accounts/models.py:23-33 | an empty e-mail is refused and creates nothing; a taken e-mail creates nothing; otherwise the user gets the given password or an unusable one |
| Accounts.CreateSuperuser | accounts/models.py:35-38 | staff and superuser default to true unless the caller overrides them; the user stays inactive unless told otherwise |
| AccountViews.Signup | accounts/views.py:27-73 | a registered e-mail, active or not, creates nothing; otherwise an inactive user holding the fresh token is added |
| AccountViews.VerifyEmail | accounts/views.py:76-88 | only an inactive user holding exactly the token matches; it becomes active with no token, so the link cannot succeed again; otherwise nothing changes |
| AccountViews.SetPassword | accounts/views.py:91-122 | a mismatch or a rejected password leaves the stored user, name included, unchanged; otherwise the password is set and a non-empty name is saved with it |
| AccountViews.DashboardFee | accounts/views.py:129-130 | the dashboard shows the admin fee when set, else 3500 |
| AccountViews.DashboardFeeIsFreshSessionFee | accounts/views.py:125-132 | the dashboard fee is the admin value or 3500, which is what a fresh session gets, and it can differ from a session's cached fee |

## Left out

- HTTP, redirects, flash messages, template rendering, `login`/`logout`, e-mail sending, the
  Telegram notification and the `post_save` e-mail for completed orders. None of them change
  the modelled state. Notification failures after a successful verification are therefore
  not modelled as reverting anything.
- The gateway calls: their replies are method parameters. A reply missing its `data` field
  (a `KeyError` in the code) is not modelled.
- `uuid4` tokens and reference suffixes are parameters. A new signup token is assumed not to
  be held by any user, since UUID collisions are ignored.
- `normalize_email` is a function parameter, password hashing keeps the raw string, and
  `validate_password` is a boolean parameter.
- A `POST` field that is absent is modelled as the empty string. The code would pass `None`.
  An absent `phone` at checkout or an absent `email` at signup would violate a NOT NULL
  column, and that database error is not modelled. A non-numeric `quantity` or `size` in
  `cart_add` raises a `ValueError` that is not modelled.
- `verify_email` is routed as `verify/<uuid:token>/` (accounts/urls.py:19), so a malformed
  token never reaches the view: routing answers 404. The model's string token stands for
  a well-formed UUID.
- The `large_size_threshold` branch of `Cart.add` (cart/cart.py:31-36) is not modelled as
  code. It tests attributes that `Product` does not have, so it never runs. `CartViews.CartAdd`
  states the consequence: the stored price is exactly `get_price_for_size(size)`.
- The `str(Decimal)` round trip of session prices is exact, so stored prices are the values.
- Database constraints other than the unique and one-to-one columns are not modelled:
  positive integer fields, field lengths, and an `OrderItem.size` of `None`. `cart_add`
  accepts any integer quantity or size (cart/views.py:10-11), so a cart with quantities 2 and
  -1 has length 1 and passes checkout. The code then saves the order, and the first
  `OrderItem` with a negative quantity (orders/views.py:52) fails its positive-integer
  column. No transaction wraps the view, so the order row stays and the cart is not cleared.
  `OrderViews.Checkout` instead returns `Created` with that item stored and the cart emptied.
- `order_confirmation_view` and the dashboard's order list only read the database; only their
  shared owner lookup is modelled (`Store.OwnedOrder`).
- The fallback to `trxref` / `reference` query parameters in `verify_payment` is not modelled.
  The URL always supplies the reference.
- Concurrency: the race between two initializations, and transaction semantics. Each view
  runs to completion on its own.
- The catalogue views, the admin modules, slug generation, settings and routing.
