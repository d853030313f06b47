/**
 * The session cart (`cart/cart.py`). The cart is a Python `dict` stored in the session
 * under 'cart', keyed by `"{product_id}_{size}"` (or the bare id when the size is falsy);
 * each line holds a quantity, a price, the size and the product id. A `Cart` object keeps
 * its own reference to that dict, so rebinding `session['cart']` (as `clear` does) does
 * not change what the object sees.
 */
module SessionCart {
  import opened Wrappers
  import opened DecimalText
  import opened Catalog

  // ---------------------------------------------------------------- line keys

  /** Python truthiness of the `size` argument: `None` and `0` are false. */
  predicate Truthy(size: Option<int>) {
    size.Some? && size.value != 0
  }

  /**
   * `Cart._generate_key`: the product id in decimal, followed by `_` and the size only
   * when the size is truthy.
   */
  function LineKey(productId: nat, size: Option<int>): string {
    if Truthy(size) then NatToStr(productId) + "_" + IntToStr(size.value) else NatToStr(productId)
  }

  /** The test `k.startswith(f"{product.id}_") or k == str(product.id)` of `Cart.remove`. */
  predicate BelongsTo(key: string, productId: nat)
    ensures BelongsTo(key, productId) ==> NatToStr(productId) <= key
  {
    NatToStr(productId) + "_" <= key || key == NatToStr(productId)
  }

  /**
   * A key starts with the product id in decimal, and is longer than that exactly when
   * the size was truthy.
   */
  lemma LineKeyShape(productId: nat, size: Option<int>)
    ensures NatToStr(productId) <= LineKey(productId, size)
    ensures Truthy(size) <==> |LineKey(productId, size)| > |NatToStr(productId)|
  {
  }

  /** A key carries the separator exactly when it was made with a truthy size. */
  lemma KeyHasSeparator(productId: nat, size: Option<int>)
    ensures '_' in LineKey(productId, size) <==> Truthy(size)
  {
    var key := LineKey(productId, size);
    if Truthy(size) {
      assert key[|NatToStr(productId)|] == '_';
    } else {
      assert AllDigits(key);
    }
  }

  /** Different (product, size) pairs never share a line; a falsy size never collides with a truthy one. */
  lemma LineKeyInjective(a: nat, sa: Option<int>, b: nat, sb: Option<int>)
    requires LineKey(a, sa) == LineKey(b, sb)
    ensures a == b && Truthy(sa) == Truthy(sb)
    ensures Truthy(sa) ==> sa.value == sb.value
  {
    KeyHasSeparator(a, sa);
    KeyHasSeparator(b, sb);
    if Truthy(sa) {
      var ra, rb := IntToStr(sa.value), IntToStr(sb.value);
      assert NatToStr(a) + ['_'] + ra == NatToStr(b) + ['_'] + rb;
      SeparatedPrefix(a, b, '_', rb);
      assert ra == (NatToStr(a) + ['_'] + ra)[|NatToStr(a)| + 1..];
      IntToStrInjective(sa.value, sb.value);
    } else {
      NatToStrInjective(a, b);
    }
  }

  /** A digit string has no prefix of the form `x + "_"`. */
  lemma DigitsHaveNoSeparator(x: string, d: string)
    requires AllDigits(d)
    ensures !(x + "_" <= d)
  {
    if |x| < |d| {
      assert IsDigit(d[|x|]);
    }
  }

  /**
   * The filter of `remove` without a size catches the lines of that product, for every
   * size, and no line of any other product (id 1 does not catch "12_40").
   */
  lemma BelongsToIff(a: nat, b: nat, size: Option<int>)
    ensures BelongsTo(LineKey(b, size), a) <==> a == b
  {
    var key := LineKey(b, size);
    KeyHasSeparator(b, size);
    if Truthy(size) {
      assert '_' !in NatToStr(a) by {
        assert AllDigits(NatToStr(a));
      }
      if NatToStr(a) + "_" <= key {
        SeparatedPrefix(a, b, '_', IntToStr(size.value));
      }
    } else {
      DigitsHaveNoSeparator(NatToStr(a), key);
      if key == NatToStr(a) {
        NatToStrInjective(a, b);
      }
    }
  }

  // ---------------------------------------------------------------- lines and sums

  /** One cart line: `{quantity, price_ngn, size, product_id}`; the price is an exact decimal. */
  datatype Line = Line(quantity: int, price: real, size: Option<int>, productId: nat)

  function LineTotal(l: Line): real {
    l.price * l.quantity as real
  }

  predicate Distinct(keys: seq<string>) {
    forall i, j :: 0 <= i < j < |keys| ==> keys[i] != keys[j]
  }

  ghost predicate KeysIn(keys: seq<string>, lines: map<string, Line>) {
    forall k :: k in keys ==> k in lines
  }

  /**
   * The session dict as `Cart` keeps it: each key once, in insertion order, exactly the
   * keys of the map, and every line stored under the key of its own product and size.
   */
  ghost predicate WellFormed(keys: seq<string>, lines: map<string, Line>) {
    && Distinct(keys)
    && (forall k :: k in lines <==> k in keys)
    && (forall k {:trigger KeyOf(lines[k])} :: k in lines ==> KeyOf(lines[k]) == k)
  }

  /** The key a line belongs under. */
  function KeyOf(l: Line): string {
    LineKey(l.productId, l.size)
  }

  /** The sum behind `Cart.__len__`. */
  function Quantities(keys: seq<string>, lines: map<string, Line>): int
    requires KeysIn(keys, lines)
  {
    if keys == [] then 0
    else Quantities(keys[..|keys| - 1], lines) + lines[keys[|keys| - 1]].quantity
  }

  /** The sum behind `Cart.get_total_price`, before the delivery fee. */
  function LinesTotal(keys: seq<string>, lines: map<string, Line>): real
    requires KeysIn(keys, lines)
  {
    if keys == [] then 0.0
    else LinesTotal(keys[..|keys| - 1], lines) + LineTotal(lines[keys[|keys| - 1]])
  }

  /**
   * With no negative quantity the length is never negative, and it is positive as soon
   * as one line has a positive quantity.
   */
  lemma {:induction false} QuantitiesSign(keys: seq<string>, lines: map<string, Line>)
    requires KeysIn(keys, lines)
    requires forall k :: k in keys ==> lines[k].quantity >= 0
    ensures Quantities(keys, lines) >= 0
    ensures (exists k :: k in keys && lines[k].quantity > 0) <==> Quantities(keys, lines) > 0
  {
    if keys != [] {
      var front := keys[..|keys| - 1];
      assert forall k :: k in front ==> k in keys;
      QuantitiesSign(front, lines);
      assert forall k :: k in keys ==> k in front || k == keys[|keys| - 1];
    }
  }

  /** With no negative quantity or price, the lines cost nothing negative. */
  lemma {:induction false} LinesTotalNonNegative(keys: seq<string>, lines: map<string, Line>)
    requires KeysIn(keys, lines)
    requires forall k :: k in keys ==> lines[k].quantity >= 0 && lines[k].price >= 0.0
    ensures LinesTotal(keys, lines) >= 0.0
  {
    if keys != [] {
      var front := keys[..|keys| - 1];
      assert forall k :: k in front ==> k in keys;
      LinesTotalNonNegative(front, lines);
    }
  }

  /** Sums over keys that do not include `k` ignore what `k` maps to. */
  lemma {:induction false} SumsIgnoreOtherKeys(keys: seq<string>, lines: map<string, Line>, k: string, l: Line)
    requires KeysIn(keys, lines) && k !in keys
    ensures KeysIn(keys, lines[k := l])
    ensures Quantities(keys, lines[k := l]) == Quantities(keys, lines)
    ensures LinesTotal(keys, lines[k := l]) == LinesTotal(keys, lines)
  {
    if keys != [] {
      SumsIgnoreOtherKeys(keys[..|keys| - 1], lines, k, l);
    }
  }

  /** Replacing one line changes both sums by exactly the difference of that line. */
  lemma {:induction false} SumsAfterUpdate(keys: seq<string>, lines: map<string, Line>, k: string, l: Line)
    requires KeysIn(keys, lines) && Distinct(keys) && k in keys
    ensures KeysIn(keys, lines[k := l])
    ensures Quantities(keys, lines[k := l]) == Quantities(keys, lines) - lines[k].quantity + l.quantity
    ensures LinesTotal(keys, lines[k := l]) == LinesTotal(keys, lines) - LineTotal(lines[k]) + LineTotal(l)
  {
    var init := keys[..|keys| - 1];
    if keys[|keys| - 1] == k {
      assert k !in init;
      SumsIgnoreOtherKeys(init, lines, k, l);
    } else {
      assert k in init by {
        var i :| 0 <= i < |keys| && keys[i] == k;
        assert init[i] == k;
      }
      SumsAfterUpdate(init, lines, k, l);
    }
  }

  /** Appending a new line adds exactly that line to both sums. */
  lemma SumsAfterAppend(keys: seq<string>, lines: map<string, Line>, k: string, l: Line)
    requires KeysIn(keys, lines) && k !in keys
    ensures KeysIn(keys + [k], lines[k := l])
    ensures Quantities(keys + [k], lines[k := l]) == Quantities(keys, lines) + l.quantity
    ensures LinesTotal(keys + [k], lines[k := l]) == LinesTotal(keys, lines) + LineTotal(l)
  {
    assert (keys + [k])[..|keys|] == keys;
    SumsIgnoreOtherKeys(keys, lines, k, l);
  }

  /** Writing a line under its own key keeps the dict well formed; a new key goes last. */
  lemma PutKeepsWellFormed(keys: seq<string>, lines: map<string, Line>, key: string, line: Line)
    requires WellFormed(keys, lines) && key == KeyOf(line)
    ensures WellFormed(if key in lines then keys else keys + [key], lines[key := line])
    ensures var keys' := if key in lines then keys else keys + [key];
            Quantities(keys', lines[key := line]) ==
              Quantities(keys, lines) + line.quantity - (if key in lines then lines[key].quantity else 0)
    ensures var keys' := if key in lines then keys else keys + [key];
            LinesTotal(keys', lines[key := line]) ==
              LinesTotal(keys, lines) + LineTotal(line) - (if key in lines then LineTotal(lines[key]) else 0.0)
  {
    if key in lines {
      SumsAfterUpdate(keys, lines, key, line);
    } else {
      SumsAfterAppend(keys, lines, key, line);
    }
  }

  // ---------------------------------------------------------------- iteration

  /** What `Cart.__iter__` yields for a line: a copy with the product and its line total. */
  datatype CartItem = CartItem(
    quantity: int,
    price: real,
    size: Option<int>,
    productId: nat,
    product: Product,
    totalPrice: real)

  function ItemOf(l: Line, p: Product): CartItem {
    CartItem(l.quantity, l.price, l.size, l.productId, p, LineTotal(l))
  }

  /**
   * The lines `Cart.__iter__` yields, in dict order: lines whose product no longer exists
   * in `catalog` are skipped; each yielded item carries its product and price × quantity.
   */
  function IterLines(keys: seq<string>, lines: map<string, Line>, catalog: map<nat, Product>): (r: seq<CartItem>)
    requires KeysIn(keys, lines)
    ensures |r| <= |keys|
    ensures forall i :: 0 <= i < |r| ==>
              r[i].productId in catalog && r[i].product == catalog[r[i].productId] &&
              r[i].totalPrice == r[i].price * r[i].quantity as real
  {
    if keys == [] then []
    else
      var l := lines[keys[|keys| - 1]];
      IterLines(keys[..|keys| - 1], lines, catalog) + (if l.productId in catalog then [ItemOf(l, catalog[l.productId])] else [])
  }

  function ItemsTotal(items: seq<CartItem>): real {
    if items == [] then 0.0 else ItemsTotal(items[..|items| - 1]) + items[|items| - 1].totalPrice
  }

  /** The part of the cart total that iteration does not show: lines of deleted products. */
  function MissingTotal(keys: seq<string>, lines: map<string, Line>, catalog: map<nat, Product>): real
    requires KeysIn(keys, lines)
  {
    if keys == [] then 0.0
    else
      var l := lines[keys[|keys| - 1]];
      MissingTotal(keys[..|keys| - 1], lines, catalog) + (if l.productId in catalog then 0.0 else LineTotal(l))
  }

  /** The line totals yielded by iteration plus those of skipped lines make up the cart's sum. */
  lemma {:induction false} IterTotalSplit(keys: seq<string>, lines: map<string, Line>, catalog: map<nat, Product>)
    requires KeysIn(keys, lines)
    ensures ItemsTotal(IterLines(keys, lines, catalog)) + MissingTotal(keys, lines, catalog) == LinesTotal(keys, lines)
  {
    if keys != [] {
      var init := keys[..|keys| - 1];
      var l := lines[keys[|keys| - 1]];
      IterTotalSplit(init, lines, catalog);
      var before := IterLines(init, lines, catalog);
      if l.productId in catalog {
        var x := ItemOf(l, catalog[l.productId]);
        assert (before + [x])[..|before|] == before;
      } else {
        assert before + [] == before;
      }
    }
  }

  ghost predicate AllProductsExist(keys: seq<string>, lines: map<string, Line>, catalog: map<nat, Product>)
    requires KeysIn(keys, lines)
  {
    forall k :: k in keys ==> lines[k].productId in catalog
  }

  /** When no product was deleted, iteration yields one item per line, copying it, in order. */
  lemma {:induction false} IterAllPresent(keys: seq<string>, lines: map<string, Line>, catalog: map<nat, Product>)
    requires KeysIn(keys, lines) && AllProductsExist(keys, lines, catalog)
    ensures var r := IterLines(keys, lines, catalog);
            |r| == |keys| &&
            forall i :: 0 <= i < |keys| ==> r[i] == ItemOf(lines[keys[i]], catalog[lines[keys[i]].productId])
    ensures MissingTotal(keys, lines, catalog) == 0.0
  {
    if keys != [] {
      var init := keys[..|keys| - 1];
      assert AllProductsExist(init, lines, catalog) by {
        forall k | k in init ensures lines[k].productId in catalog {
          var i :| 0 <= i < |init| && init[i] == k;
          assert keys[i] == k;
        }
      }
      IterAllPresent(init, lines, catalog);
    }
  }

  // ---------------------------------------------------------------- removal helpers

  function Elems(s: seq<string>): set<string> {
    set x | x in s
  }

  /** The keys of `keys`, in order, except those in `gone` (what `del` leaves of a dict's order). */
  function Without(keys: seq<string>, gone: set<string>): (r: seq<string>)
    ensures forall k {:trigger k in r} :: k in r <==> k in keys && k !in gone
    ensures Distinct(keys) ==> Distinct(r)
  {
    if keys == [] then []
    else
      var last := keys[|keys| - 1];
      var init := Without(keys[..|keys| - 1], gone);
      SplitLast(keys);
      assert Distinct(keys) ==> last !in init;
      if last in gone then init else DistinctAppend(init, last); init + [last]
  }

  lemma {:induction false} WithoutOneMore(keys: seq<string>, gone: set<string>, k: string)
    ensures Without(Without(keys, gone), {k}) == Without(keys, gone + {k})
  {
    if keys != [] {
      var last := keys[|keys| - 1];
      var init := Without(keys[..|keys| - 1], gone);
      WithoutOneMore(keys[..|keys| - 1], gone, k);
      if last in gone {
        assert Without(keys, gone) == init;
      } else {
        assert Without(keys, gone) == init + [last];
        assert (init + [last])[..|init|] == init;
      }
    }
  }

  /** `[k for k in self.cart.keys() if <BelongsTo>]`, the keys `remove` collects. */
  function MatchingKeys(keys: seq<string>, productId: nat): (r: seq<string>)
    ensures forall k {:trigger k in r} :: k in r <==> k in keys && BelongsTo(k, productId)
    ensures Distinct(keys) ==> Distinct(r)
  {
    if keys == [] then []
    else
      var last := keys[|keys| - 1];
      var init := MatchingKeys(keys[..|keys| - 1], productId);
      SplitLast(keys);
      assert Distinct(keys) ==> last !in init;
      if BelongsTo(last, productId) then DistinctAppend(init, last); init + [last] else init
  }

  /** A non-empty sequence is its prefix followed by its last element. */
  lemma SplitLast(keys: seq<string>)
    requires keys != []
    ensures Distinct(keys) ==> Distinct(keys[..|keys| - 1]) && keys[|keys| - 1] !in keys[..|keys| - 1]
    ensures forall k :: k in keys <==> k in keys[..|keys| - 1] || k == keys[|keys| - 1]
  {
    assert keys == keys[..|keys| - 1] + [keys[|keys| - 1]];
  }

  lemma DistinctAppend(s: seq<string>, x: string)
    ensures Distinct(s) && x !in s ==> Distinct(s + [x])
  {
  }

  /** The keys a call of `remove` deletes. */
  ghost function RemovedKeys(lines: map<string, Line>, productId: nat, size: Option<int>): (gone: set<string>)
    ensures gone <= lines.Keys
    ensures Truthy(size) ==> gone <= {LineKey(productId, size)}
    ensures Truthy(size) ==> (LineKey(productId, size) in gone <==> LineKey(productId, size) in lines)
  {
    if Truthy(size) then {LineKey(productId, size)} * lines.Keys
    else set k | k in lines && BelongsTo(k, productId)
  }

  /** Deleting keys keeps the dict well formed and the order of the others. */
  lemma DeleteKeepsWellFormed(keys: seq<string>, lines: map<string, Line>, gone: set<string>)
    requires WellFormed(keys, lines)
    ensures WellFormed(Without(keys, gone), lines - gone)
  {
  }

  /**
   * One turn of `for k in keys_to_remove: del self.cart[k]`: the key is still present,
   * and deleting it extends the deleted prefix by one.
   */
  lemma DeleteStep(keys: seq<string>, lines: map<string, Line>, doomed: seq<string>, i: nat)
    requires WellFormed(keys, lines) && Distinct(doomed) && i < |doomed|
    requires forall k :: k in doomed ==> k in keys
    ensures doomed[i] in lines - Elems(doomed[..i])
    ensures (lines - Elems(doomed[..i])) - {doomed[i]} == lines - Elems(doomed[..i + 1])
    ensures Without(Without(keys, Elems(doomed[..i])), {doomed[i]}) == Without(keys, Elems(doomed[..i + 1]))
  {
    assert doomed[i] in doomed;
    assert doomed[i] !in doomed[..i];
    assert Elems(doomed[..i + 1]) == Elems(doomed[..i]) + {doomed[i]} by {
      assert doomed[..i + 1] == doomed[..i] + [doomed[i]];
    }
    WithoutOneMore(keys, Elems(doomed[..i]), doomed[i]);
  }

  lemma MatchingKeysAreRemovedKeys(keys: seq<string>, lines: map<string, Line>, productId: nat)
    requires WellFormed(keys, lines)
    ensures Elems(MatchingKeys(keys, productId)) == RemovedKeys(lines, productId, None)
  {
  }

  /**
   * In a well-formed cart, `remove` without a size deletes exactly the lines whose
   * product is the given one, whatever their size.
   */
  lemma RemovedKeysAreProductLines(keys: seq<string>, lines: map<string, Line>, productId: nat)
    requires WellFormed(keys, lines)
    ensures forall k :: k in lines ==> (k in RemovedKeys(lines, productId, None) <==> lines[k].productId == productId)
  {
    forall k | k in lines
      ensures k in RemovedKeys(lines, productId, None) <==> lines[k].productId == productId
    {
      assert KeyOf(lines[k]) == k;
      BelongsToIff(productId, lines[k].productId, lines[k].size);
    }
  }

  // ---------------------------------------------------------------- delivery fee

  const DefaultDeliveryFee: real := 3500.0

  /** The fee cached in the session wins over the admin setting, which wins over 3500. */
  function SelectFee(cached: Option<real>, adminFee: Option<real>): (fee: real)
    ensures cached.Some? ==> fee == cached.value
    ensures cached.None? && adminFee.Some? ==> fee == adminFee.value
    ensures cached.None? && adminFee.None? ==> fee == 3500.0
  {
    cached.GetOr(adminFee.GetOr(DefaultDeliveryFee))
  }

  /** Once cached in a session, the fee no longer follows the admin setting. */
  lemma FeeStaysCached(cached: Option<real>, admin1: Option<real>, admin2: Option<real>)
    ensures SelectFee(Some(SelectFee(cached, admin1)), admin2) == SelectFee(cached, admin1)
  {
  }

  /** The price `Cart.add` stores: the explicit price, else the product's base price. */
  function StoredPrice(product: Product, price: Option<real>): real {
    price.GetOr(product.priceNgn as real)
  }

  /**
   * The line `add` leaves under `LineKey(product.id, size)`: quantity set to, or increased
   * by, `quantity` (an absent line starts at 0), and the latest price and size.
   */
  function AddedLine(lines: map<string, Line>, product: Product, quantity: int, size: Option<int>,
                     overrideQuantity: bool, price: Option<real>): (l: Line)
    ensures KeyOf(l) == LineKey(product.id, size)
    ensures overrideQuantity || LineKey(product.id, size) !in lines ==> l.quantity == quantity
    ensures !overrideQuantity && LineKey(product.id, size) in lines ==>
              l.quantity == lines[LineKey(product.id, size)].quantity + quantity
    ensures price.None? ==> l.price == product.priceNgn as real
    ensures price.Some? ==> l.price == price.value
    ensures l.size == size && l.productId == product.id
  {
    var key := LineKey(product.id, size);
    var before := if key in lines then lines[key].quantity else 0;
    Line(if overrideQuantity then quantity else before + quantity, StoredPrice(product, price), size, product.id)
  }

  // ---------------------------------------------------------------- the objects

  /** A Python dict of cart lines. */
  class LineTable {
    var keys: seq<string>
    var lines: map<string, Line>

    ghost predicate Valid()
      reads this
    {
      WellFormed(keys, lines)
    }

    constructor ()
      ensures Valid() && keys == [] && lines == map[]
    {
      keys := [];
      lines := map[];
    }
  }

  /** The request session's entries this model uses. */
  class Session {
    var cart: LineTable?          // session['cart'], null when absent
    var deliveryFee: Option<real> // session['delivery_fee']
    var modified: bool            // session.modified
  }

  ghost function SessionKeys(s: Session): seq<string>
    reads s, s.cart
  {
    if s.cart == null then [] else s.cart.keys
  }

  ghost function SessionLines(s: Session): map<string, Line>
    reads s, s.cart
  {
    if s.cart == null then map[] else s.cart.lines
  }

  class Cart {
    const session: Session
    const table: LineTable   // self.cart
    const deliveryFee: real  // self.delivery_fee

    ghost predicate Valid()
      reads table
    {
      table.Valid()
    }

    /**
     * `Cart.__init__`: reuse the session's dict when it is non-empty, otherwise put a new
     * empty one in the session; pick the fee and write it back to the session.
     */
    constructor (session: Session, adminFee: Option<real>)
      requires session.cart != null ==> session.cart.Valid()
      modifies session
      ensures this.session == session && Valid()
      ensures session.cart == table && (table == old(session.cart) || fresh(table))
      ensures table.keys == old(SessionKeys(session)) && table.lines == old(SessionLines(session))
      ensures deliveryFee == SelectFee(old(session.deliveryFee), adminFee)
      ensures session.deliveryFee == Some(deliveryFee)
      ensures session.modified
    {
      var c := session.cart;
      if c == null || c.keys == [] {
        c := new LineTable();
        session.cart := c;
      }
      this.session := session;
      table := c;
      deliveryFee := SelectFee(session.deliveryFee, adminFee);
      new;
      session.deliveryFee := Some(deliveryFee);
      session.modified := true;
    }

    /** `__len__`: the sum of the quantities; an empty cart has length 0. */
    function Len(): (n: int)
      reads table
      requires Valid()
      ensures table.keys == [] ==> n == 0
    {
      Quantities(table.keys, table.lines)
    }

    /** `get_total_price`: every line's price × quantity, plus the delivery fee. */
    function GetTotalPrice(): (t: real)
      reads table
      requires Valid()
      ensures table.keys == [] ==> t == deliveryFee
    {
      LinesTotal(table.keys, table.lines) + deliveryFee
    }

    /** `get_delivery_fee`: what `get_total_price` adds on top of the lines. */
    function GetDeliveryFee(): (fee: real)
      reads table
      requires Valid()
      ensures fee == GetTotalPrice() - LinesTotal(table.keys, table.lines)
    {
      deliveryFee
    }

    /**
     * `add`: creates the line with quantity 0 when absent, then sets or increases its
     * quantity, and always overwrites its price and size. No other line changes.
     */
    method Add(product: Product, quantity: int, size: Option<int>, overrideQuantity: bool, price: Option<real>)
      requires Valid()
      modifies table, session`modified
      ensures Valid() && session.modified
      ensures table.lines == old(table.lines)[LineKey(product.id, size) :=
                AddedLine(old(table.lines), product, quantity, size, overrideQuantity, price)]
      ensures var key := LineKey(product.id, size);
              table.keys == if key in old(table.lines) then old(table.keys) else old(table.keys) + [key]
      ensures !overrideQuantity ==> Len() == old(Len()) + quantity
      ensures var key := LineKey(product.id, size);
              overrideQuantity ==>
                Len() == old(Len()) + quantity - (if key in old(table.lines) then old(table.lines[key].quantity) else 0)
      ensures var key := LineKey(product.id, size);
              GetTotalPrice() == old(GetTotalPrice()) + LineTotal(table.lines[key])
                                 - (if key in old(table.lines) then LineTotal(old(table.lines[key])) else 0.0)
    {
      var key := LineKey(product.id, size);
      var finalPrice := if price.Some? then price.value else product.priceNgn as real;
      ghost var keys0, lines0 := table.keys, table.lines;
      var line: Line;
      if key in table.lines {
        line := table.lines[key];
        assert KeyOf(table.lines[key]) == key;
        LineKeyInjective(line.productId, line.size, product.id, size);
      } else {
        line := Line(0, finalPrice, size, product.id);
        table.keys := table.keys + [key];
      }
      if overrideQuantity {
        line := line.(quantity := quantity);
      } else {
        line := line.(quantity := line.quantity + quantity);
      }
      line := line.(price := finalPrice, size := size);
      assert line == AddedLine(lines0, product, quantity, size, overrideQuantity, price);
      table.lines := table.lines[key := line];
      PutKeepsWellFormed(keys0, lines0, key, line);
      session.modified := true;
    }

    /**
     * `remove`: with a truthy size, deletes that one key if present; otherwise deletes the
     * bare key and every `"{id}_..."` key. The remaining lines keep their order.
     */
    method Remove(product: Product, size: Option<int>)
      requires Valid()
      modifies table, session`modified
      ensures Valid() && session.modified
      ensures var gone := RemovedKeys(old(table.lines), product.id, size);
              table.lines == old(table.lines) - gone && table.keys == Without(old(table.keys), gone)
    {
      var key := LineKey(product.id, size);
      if Truthy(size) {
        if key in table.lines {
          DeleteKeepsWellFormed(table.keys, table.lines, {key});
          table.lines := table.lines - {key};
          table.keys := Without(table.keys, {key});
          assert {key} * old(table.lines).Keys == {key};
        } else {
          WithoutNothing(table.keys);
          assert {key} * old(table.lines).Keys == {};
        }
      } else {
        var doomed := MatchingKeys(table.keys, product.id);
        ghost var keys0, lines0 := table.keys, table.lines;
        WithoutNothing(keys0);
        assert Elems(doomed[..0]) == {};
        for i := 0 to |doomed|
          invariant table.lines == lines0 - Elems(doomed[..i])
          invariant table.keys == Without(keys0, Elems(doomed[..i]))
        {
          var k := doomed[i];
          DeleteStep(keys0, lines0, doomed, i);
          assert k in table.lines;  // the `del` never misses
          table.lines := table.lines - {k};
          table.keys := Without(table.keys, {k});
        }
        assert doomed[..|doomed|] == doomed;
        MatchingKeysAreRemovedKeys(keys0, lines0, product.id);
        DeleteKeepsWellFormed(keys0, lines0, Elems(doomed));
        assert RemovedKeys(lines0, product.id, size) == RemovedKeys(lines0, product.id, None);
      }
      session.modified := true;
    }

    /** `__iter__`: yields the lines whose product still exists; the stored lines are not changed. */
    method Iterate(catalog: map<nat, Product>) returns (items: seq<CartItem>)
      requires Valid()
      ensures items == IterLines(table.keys, table.lines, catalog)
    {
      items := [];
      for i := 0 to |table.keys|
        invariant items == IterLines(table.keys[..i], table.lines, catalog)
      {
        assert table.keys[..i + 1][..i] == table.keys[..i];
        var l := table.lines[table.keys[i]];
        if l.productId in catalog {
          items := items + [ItemOf(l, catalog[l.productId])];
        }
      }
      assert table.keys[..|table.keys|] == table.keys;
    }

    /**
     * `clear`: puts a new empty dict in the session and keeps the fee there. The object's own
     * `self.cart` still refers to the old dict, so this object keeps reporting the old lines.
     */
    method Clear()
      requires Valid()
      modifies session
      ensures fresh(session.cart) && session.cart.Valid() && session.cart.keys == [] && session.cart.lines == map[]
      ensures SessionKeys(session) == [] && SessionLines(session) == map[]
      ensures session.deliveryFee == Some(deliveryFee) && session.modified
      ensures Valid() && table.keys == old(table.keys) && table.lines == old(table.lines)
      ensures Len() == old(Len()) && GetTotalPrice() == old(GetTotalPrice())
    {
      var empty := new LineTable();
      session.cart := empty;
      session.deliveryFee := Some(deliveryFee);
      session.modified := true;
    }
  }

  lemma WithoutNothing(keys: seq<string>)
    ensures Without(keys, {}) == keys
  {
    if keys != [] {
      WithoutNothing(keys[..|keys| - 1]);
      assert keys == keys[..|keys| - 1] + [keys[|keys| - 1]];
    }
  }
}
