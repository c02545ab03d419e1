/** Pricing rules applied when a product is added to the cart
    (ecommerce_cart.py:5-21). The abstract strategy class and its two
    subclasses become one closed datatype; "no strategy" is `None`. */
module Discounts {
  import opened Wrappers

  /** A discount strategy: a percentage off the whole line, or every second
      unit free. The percentage is not range-checked by the source. */
  datatype Discount =
    | PercentageOff(percentage: real)
    | BuyOneGetOneFree

  /** The undiscounted charge: unit price times quantity. */
  function FullPrice(price: real, quantity: int): real
  {
    price * quantity as real
  }

  /** The number of units a buy-one-get-one-free line actually pays for:
      pairs are paid once, a leftover odd unit in full. Dafny's `/` and `%`
      by 2 agree with Python's `//` and `%` for every integer. */
  function PaidUnits(quantity: int): (n: int)
    ensures n == (quantity + 1) / 2
    ensures quantity >= 0 ==> 0 <= n <= quantity
    ensures quantity >= 0 ==> quantity <= 2 * n <= quantity + 1
  {
    quantity / 2 + quantity % 2
  }

  /** The amount a strategy charges for `quantity` units at `price` each. */
  function Apply(d: Discount, price: real, quantity: int): (r: real)
    ensures d.PercentageOff? ==>
      r == FullPrice(price, quantity) - FullPrice(price, quantity) * d.percentage / 100.0
    ensures d.BuyOneGetOneFree? ==> r == PaidUnits(quantity) as real * price
  {
    match d
    case PercentageOff(p) => price * quantity as real * (1.0 - p / 100.0)
    case BuyOneGetOneFree => (quantity / 2) as real * price + (quantity % 2) as real * price
  }

  /** The amount charged for a line: the strategy's amount when one is
      given, otherwise the undiscounted charge. */
  function Charge(strategy: Option<Discount>, price: real, quantity: int): (r: real)
    ensures strategy.None? ==> r == price * quantity as real
    ensures strategy == Some(BuyOneGetOneFree) ==> r == PaidUnits(quantity) as real * price
    ensures strategy.Some? && strategy.value.PercentageOff? ==>
      r == FullPrice(price, quantity) - FullPrice(price, quantity) * strategy.value.percentage / 100.0
  {
    match strategy
    case None => FullPrice(price, quantity)
    case Some(d) => Apply(d, price, quantity)
  }

  /** A zero percentage discount charges exactly what no strategy does. */
  lemma NoDiscountIsFullPrice(price: real, quantity: int)
    ensures Charge(Some(PercentageOff(0.0)), price, quantity) == Charge(None, price, quantity)
  {
  }

  /** A hundred percent off makes the line free. */
  lemma FullPercentageIsFree(price: real, quantity: int)
    ensures Apply(PercentageOff(100.0), price, quantity) == 0.0
  {
  }

  /** For an in-range percentage and a non-negative full charge, the
      discounted charge lies between zero and the full charge. */
  lemma PercentageWithinFullPrice(p: real, price: real, quantity: int)
    requires 0.0 <= p <= 100.0
    requires price >= 0.0 && quantity >= 0
    ensures 0.0 <= Apply(PercentageOff(p), price, quantity) <= FullPrice(price, quantity)
  {
    var full := FullPrice(price, quantity);
    var charge := Apply(PercentageOff(p), price, quantity);
    MulNonNegative(price, quantity as real);
    assert charge == full * (1.0 - p / 100.0);
    MulNonNegative(full, 1.0 - p / 100.0);
    assert full - charge == full * (p / 100.0);
    MulNonNegative(full, p / 100.0);
  }

  /** Arithmetic step: a product of two positive reals is positive. */
  lemma MulPositive(a: real, b: real)
    requires a > 0.0 && b > 0.0
    ensures a * b > 0.0
  {
  }

  /** Arithmetic step: a product of two non-negative reals is non-negative. */
  lemma MulNonNegative(a: real, b: real)
    requires a >= 0.0 && b >= 0.0
    ensures a * b >= 0.0
  {
  }

  /** Because the percentage is not range-checked, more than a hundred
      percent off a positive line gives a negative charge, and a negative
      percentage inflates it above the full charge. */
  lemma PercentageOutOfRange(p: real, price: real, quantity: int)
    requires FullPrice(price, quantity) > 0.0
    ensures p > 100.0 ==> Apply(PercentageOff(p), price, quantity) < 0.0
    ensures p < 0.0 ==> Apply(PercentageOff(p), price, quantity) > FullPrice(price, quantity)
  {
    var full := FullPrice(price, quantity);
    var charge := Apply(PercentageOff(p), price, quantity);
    var excess := full * (p / 100.0 - 1.0);
    assert charge == full - full * p / 100.0;
    assert full * p / 100.0 == full + excess;
    if p > 100.0 {
      MulPositive(full, p / 100.0 - 1.0);
    } else if p < 0.0 {
      MulPositive(full, -p / 100.0);
      assert full * p / 100.0 == -(full * (-p / 100.0));
    }
  }

  /** Buy-one-get-one-free never charges more than the full price and never
      less than half of it, for a non-negative price and quantity. */
  lemma BuyOneGetOneFreeBounds(price: real, quantity: int)
    requires price >= 0.0 && quantity >= 0
    ensures Apply(BuyOneGetOneFree, price, quantity) <= FullPrice(price, quantity)
    ensures 2.0 * Apply(BuyOneGetOneFree, price, quantity) >= FullPrice(price, quantity)
  {
    var n := PaidUnits(quantity);
    var full := FullPrice(price, quantity);
    var charge := Apply(BuyOneGetOneFree, price, quantity);
    assert charge == n as real * price;
    MulNonNegative((quantity - n) as real, price);
    assert full - charge == (quantity - n) as real * price;
    MulNonNegative((2 * n - quantity) as real, price);
    assert 2.0 * charge - full == (2 * n - quantity) as real * price;
  }

  /** The worked figures: 20% off three units at 100 is 240; buy-one-get-
      one-free on five units at 50 is 150 and on three units at 50 is 100. */
  lemma WorkedCharges()
    ensures Apply(PercentageOff(20.0), 100.0, 3) == 240.0
    ensures Apply(BuyOneGetOneFree, 50.0, 5) == 150.0
    ensures Apply(BuyOneGetOneFree, 50.0, 3) == 100.0
  {
  }
}
