/** The catalogue's `Product` record and its size-based pricing. */
module Catalog {

  /**
   * A product row. Prices and fees are whole naira (`PositiveIntegerField`), sizes are
   * `PositiveSmallIntegerField`s; title, slug, description, category and images are
   * not part of this model.
   */
  datatype Product = Product(
    id: nat,
    priceNgn: nat,
    minSize: nat,
    maxSize: nat,
    extraFeeThreshold: nat,
    extraFeeAmount: nat,
    available: bool)

  /** The product table: every product is stored under its own id. */
  ghost predicate CatalogConsistent(catalog: map<nat, Product>) {
    forall i :: i in catalog ==> catalog[i].id == i
  }

  const DefaultMinSize: nat := 38
  const DefaultMaxSize: nat := 45
  const DefaultExtraFeeThreshold: nat := 45
  const DefaultExtraFeeAmount: nat := 0

  /** A product saved with every field that has a default left at it. */
  function NewProduct(id: nat, priceNgn: nat): Product {
    Product(id, priceNgn, DefaultMinSize, DefaultMaxSize,
            DefaultExtraFeeThreshold, DefaultExtraFeeAmount, true)
  }

  /**
   * `Product.get_price_for_size`: sizes strictly above the threshold pay the extra fee.
   * The price never drops below the base price, and it exceeds the base price exactly
   * when the size is above the threshold and the fee is not zero.
   */
  function PriceForSize(p: Product, size: int): (r: nat)
    ensures r >= p.priceNgn
    ensures r > p.priceNgn <==> size > p.extraFeeThreshold && p.extraFeeAmount > 0
    ensures r - p.priceNgn == 0 || r - p.priceNgn == p.extraFeeAmount
  {
    if size > p.extraFeeThreshold then p.priceNgn + p.extraFeeAmount else p.priceNgn
  }

  /** With the default fee of 0 the size never changes the price. */
  lemma ZeroFeeSizeIndependent(p: Product, s1: int, s2: int)
    requires p.extraFeeAmount == 0
    ensures PriceForSize(p, s1) == PriceForSize(p, s2) == p.priceNgn
  {
  }

  /** The threshold is strict: a size equal to it pays the base price. */
  lemma ThresholdIsStrict(p: Product)
    ensures PriceForSize(p, p.extraFeeThreshold) == p.priceNgn
    ensures PriceForSize(p, p.extraFeeThreshold + 1) == p.priceNgn + p.extraFeeAmount
  {
  }

  /**
   * With the default size range 38..45 and threshold 45, no offered size pays the fee,
   * whatever fee an administrator later sets.
   */
  lemma DefaultRangeHasNoSurcharge(id: nat, priceNgn: nat, fee: nat, size: int)
    requires NewProduct(id, priceNgn).minSize <= size <= NewProduct(id, priceNgn).maxSize
    ensures PriceForSize(NewProduct(id, priceNgn).(extraFeeAmount := fee), size) == priceNgn
  {
  }

  /** A larger size never costs less. */
  lemma PriceMonotoneInSize(p: Product, s1: int, s2: int)
    requires s1 <= s2
    ensures PriceForSize(p, s1) <= PriceForSize(p, s2)
  {
  }
}
