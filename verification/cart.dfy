/** The shopping cart (ecommerce_cart.py:43-86): an ordered sequence of line
    items, each a product snapshot plus the amount charged when it was
    added. Operations are pure: they take the cart (and, for an add, the
    catalog product) and return the new values together with the success
    flag the source returns. */
module ShoppingCart {
  import opened Wrappers
  import opened Discounts
  import opened Products

  /** One entry of the cart. The snapshot's `availability` field holds the
      quantity added, not stock; `price` is fixed when the item is added. */
  datatype LineItem = LineItem(product: Product, price: real)
  {
    function Name(): string { product.name }
    function Quantity(): int { product.availability }
  }

  type Cart = seq<LineItem>

  /** Result of an add: the new cart, the catalog product with its updated
      stock, and whether the add happened. */
  datatype AddOutcome = AddOutcome(cart: Cart, product: Product, success: bool)

  /** Result of a removal: the new cart, whether an item was removed, and
      the removed item as last touched by the source (its snapshot quantity
      bumped by one, then dropped). */
  datatype RemoveOutcome = RemoveOutcome(cart: Cart, success: bool, released: Option<LineItem>)

  /** The snapshot stored for an add: a clone of the catalog product whose
      availability field is overwritten with the quantity added. */
  function Snapshot(product: Product, quantity: int): (s: Product)
    ensures s.name == product.name && s.price == product.price
    ensures s.availability == quantity
  {
    Clone(product).(availability := quantity)
  }

  /** Adds `quantity` units of `product` when its stock covers them. No check
      is made that the quantity is positive. */
  function AddToCart(cart: Cart, product: Product, quantity: int, strategy: Option<Discount>): (r: AddOutcome)
    ensures r.success <==> product.availability >= quantity
    ensures !r.success ==> r.cart == cart && r.product == product
    ensures r.success ==>
      && |r.cart| == |cart| + 1
      && r.cart[..|cart|] == cart
      && r.cart[|cart|].Name() == product.name
      && r.cart[|cart|].product.price == product.price
      && r.cart[|cart|].Quantity() == quantity
      && r.cart[|cart|].price == Charge(strategy, product.price, quantity)
    ensures r.product.name == product.name && r.product.price == product.price
    ensures r.success ==> r.product.availability == product.availability - quantity
  {
    if product.availability >= quantity then
      var item := LineItem(Snapshot(product, quantity), Charge(strategy, product.price, quantity));
      AddOutcome(cart + [item], product.(availability := product.availability - quantity), true)
    else
      AddOutcome(cart, product, false)
  }

  /** The position of the first line item named `name`, if any. */
  function FirstMatch(cart: Cart, name: string): (r: Option<nat>)
    ensures r.None? <==> forall i :: 0 <= i < |cart| ==> cart[i].Name() != name
    ensures r.Some? ==>
      && r.value < |cart|
      && cart[r.value].Name() == name
      && forall j :: 0 <= j < r.value ==> cart[j].Name() != name
  {
    if |cart| == 0 then None
    else if cart[0].Name() == name then Some(0)
    else
      match FirstMatch(cart[1..], name)
      case None => None
      case Some(i) => Some(i + 1)
  }

  /** The removed item after the source's `availability += 1`, which lands
      on the snapshot being discarded rather than on the catalog product. */
  function Released(item: LineItem): (r: LineItem)
    ensures r.Name() == item.Name() && r.product.price == item.product.price && r.price == item.price
    ensures r.Quantity() == item.Quantity() + 1
  {
    item.(product := item.product.(availability := item.Quantity() + 1))
  }

  /** Removes the first line item named `name`, if there is one. */
  function RemoveFromCart(cart: Cart, name: string): (r: RemoveOutcome)
    ensures r.success <==> exists i :: 0 <= i < |cart| && cart[i].Name() == name
    ensures !r.success ==> r.cart == cart && r.released.None?
    ensures r.success ==>
      && FirstMatch(cart, name).Some?
      && var i := FirstMatch(cart, name).value;
      && r.cart == cart[..i] + cart[i + 1..]
      && r.released == Some(Released(cart[i]))
      && r.released.value.Quantity() == cart[i].Quantity() + 1
  {
    match FirstMatch(cart, name)
    case None => RemoveOutcome(cart, false, None)
    case Some(i) => RemoveOutcome(cart[..i] + cart[i + 1..], true, Some(Released(cart[i])))
  }

  /** The sum of the charged amounts of the line items. */
  function Total(cart: Cart): real
  {
    if |cart| == 0 then 0.0 else cart[0].price + Total(cart[1..])
  }

  lemma {:induction false} TotalConcat(a: Cart, b: Cart)
    ensures Total(a + b) == Total(a) + Total(b)
  {
    if |a| == 0 {
      assert a + b == b;
    } else {
      assert (a + b)[1..] == a[1..] + b;
      TotalConcat(a[1..], b);
    }
  }

  lemma TotalSingleton(item: LineItem)
    ensures Total([item]) == item.price
  {
    assert [item][1..] == [];
  }

  /** The cart total, summed front to back over the stored prices; nothing
      is recomputed and the cart is left as it is. */
  method CalculateTotal(cart: Cart) returns (total: real)
    ensures total == Total(cart)
  {
    total := 0.0;
    var i := 0;
    while i < |cart|
      invariant 0 <= i <= |cart|
      invariant total == Total(cart[..i])
    {
      assert cart[..i + 1] == cart[..i] + [cart[i]];
      TotalConcat(cart[..i], [cart[i]]);
      TotalSingleton(cart[i]);
      total := total + cart[i].price;
      i := i + 1;
    }
    assert cart[..i] == cart;
  }

  /** A successful add raises the total by exactly the new line's charge;
      a refused add leaves it alone. */
  lemma AddTotal(cart: Cart, product: Product, quantity: int, strategy: Option<Discount>)
    ensures var r := AddToCart(cart, product, quantity, strategy);
      Total(r.cart) == Total(cart) + (if r.success then Charge(strategy, product.price, quantity) else 0.0)
  {
    var r := AddToCart(cart, product, quantity, strategy);
    if r.success {
      assert r.cart == cart + [r.cart[|cart|]];
      TotalConcat(cart, [r.cart[|cart|]]);
      TotalSingleton(r.cart[|cart|]);
    }
  }

  /** With a non-negative price and quantity and no out-of-range
      percentage, an add never lowers the total. */
  lemma AddNeverLowersTotal(cart: Cart, product: Product, quantity: int, strategy: Option<Discount>)
    requires product.price >= 0.0 && quantity >= 0
    requires strategy.Some? && strategy.value.PercentageOff? ==> strategy.value.percentage <= 100.0
    ensures Total(AddToCart(cart, product, quantity, strategy).cart) >= Total(cart)
  {
    AddTotal(cart, product, quantity, strategy);
    MulNonNegative(product.price, quantity as real);
    var full := FullPrice(product.price, quantity);
    match strategy
    case None =>
    case Some(d) =>
      match d
      case PercentageOff(p) =>
        assert Apply(d, product.price, quantity) == full * (1.0 - p / 100.0);
        MulNonNegative(full, 1.0 - p / 100.0);
      case BuyOneGetOneFree =>
        MulNonNegative(PaidUnits(quantity) as real, product.price);
  }

  /** Since the quantity is not validated, an add with a negative quantity
      succeeds and lowers the total. */
  lemma NegativeQuantityLowersTotal(cart: Cart, product: Product, quantity: int)
    requires product.price > 0.0 && quantity < 0 && product.availability >= quantity
    ensures AddToCart(cart, product, quantity, None).success
    ensures Total(AddToCart(cart, product, quantity, None).cart) < Total(cart)
    ensures AddToCart(cart, product, quantity, None).product.availability > product.availability
  {
    AddTotal(cart, product, quantity, None);
    assert product.price * quantity as real < 0.0;
  }

  /** A successful removal lowers the total by exactly the removed item's
      stored charge; a failed one leaves it alone. */
  lemma RemoveTotal(cart: Cart, name: string)
    ensures var r := RemoveFromCart(cart, name);
      r.success ==> r.released.Some? && Total(r.cart) == Total(cart) - r.released.value.price
    ensures !RemoveFromCart(cart, name).success ==> Total(RemoveFromCart(cart, name).cart) == Total(cart)
  {
    var r := RemoveFromCart(cart, name);
    if r.success {
      var i := FirstMatch(cart, name).value;
      assert cart == cart[..i] + [cart[i]] + cart[i + 1..];
      TotalConcat(cart[..i] + [cart[i]], cart[i + 1..]);
      TotalConcat(cart[..i], [cart[i]]);
      TotalSingleton(cart[i]);
      TotalConcat(cart[..i], cart[i + 1..]);
    }
  }

  /** Every item left after a removal is an original item, unchanged and in
      its original order: the quantity bump never reaches a kept item. */
  lemma RemoveKeepsOtherItems(cart: Cart, name: string)
    requires RemoveFromCart(cart, name).success
    ensures var r := RemoveFromCart(cart, name);
      var i := FirstMatch(cart, name).value;
      && |r.cart| == |cart| - 1
      && (forall j :: 0 <= j < i ==> r.cart[j] == cart[j])
      && (forall j :: i <= j < |r.cart| ==> r.cart[j] == cart[j + 1])
  {
  }

  /** The (quantity, name) pairs the cart view lists, in insertion order. */
  function Summary(cart: Cart): (s: seq<(int, string)>)
    ensures |s| == |cart|
  {
    if |cart| == 0 then [] else [(cart[0].Quantity(), cart[0].Name())] + Summary(cart[1..])
  }

  lemma {:induction false} SummaryEntries(cart: Cart)
    ensures forall i :: 0 <= i < |cart| ==> Summary(cart)[i] == (cart[i].Quantity(), cart[i].Name())
  {
    if |cart| > 0 {
      SummaryEntries(cart[1..]);
    }
  }

  /** What the cart view shows: an empty-cart notice, or the listing. */
  datatype CartView = EmptyCart | Listing(entries: seq<(int, string)>)

  function ViewCart(cart: Cart): (v: CartView)
    ensures v.EmptyCart? <==> |cart| == 0
    ensures v.Listing? ==> |v.entries| == |cart|
    ensures v.Listing? ==> forall i :: 0 <= i < |cart| ==> v.entries[i] == (cart[i].Quantity(), cart[i].Name())
  {
    SummaryEntries(cart);
    if |cart| == 0 then EmptyCart else Listing(Summary(cart))
  }

  /** A successful add extends the listing by one entry holding exactly the
      quantity and name it was called with; earlier entries are kept. */
  lemma AddSummary(cart: Cart, product: Product, quantity: int, strategy: Option<Discount>)
    ensures var r := AddToCart(cart, product, quantity, strategy);
      Summary(r.cart) == Summary(cart) + (if r.success then [(quantity, product.name)] else [])
  {
    var r := AddToCart(cart, product, quantity, strategy);
    SummaryEntries(cart);
    SummaryEntries(r.cart);
  }

  /** A successful removal drops exactly the first listing entry with that
      name; every other entry, quantity included, is unchanged. */
  lemma RemoveSummary(cart: Cart, name: string)
    requires RemoveFromCart(cart, name).success
    ensures var i := FirstMatch(cart, name).value;
      Summary(RemoveFromCart(cart, name).cart) == Summary(cart)[..i] + Summary(cart)[i + 1..]
  {
    var r := RemoveFromCart(cart, name);
    SummaryEntries(cart);
    SummaryEntries(r.cart);
  }
}
