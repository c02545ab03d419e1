# Shopping cart pricing and bookkeeping

A Dafny model of the cart core of a small Python shopping-cart simulator
(`ecommerce_cart.py`): the two discount strategies, product cloning, and
the `ShoppingCart` operations `add_to_cart`, `remove_from_cart`,
`calculate_total` and the quantity listing of `view_cart`.

Everything is a value. A `Product` is a record `(name, price, availability)`.
The cart is a `seq<LineItem>`, where each `LineItem` holds a product snapshot
and the price charged for it. As in the source, the snapshot's
`availability` field holds the quantity added. The operations are pure. `AddToCart` returns the new cart, the updated
catalog product and the success flag. `RemoveFromCart` returns the new
cart, the success flag and the removed line item (the catalog is not one
of its inputs). `CalculateTotal` is a method that returns the total and
leaves the cart as it is. The `Shop` module pairs a catalog with the cart so that the
effect on catalog stock can be stated.

Files:
- `wrappers.dfy`: `Option`.
- `discounts.dfy`: `Discount` (percentage off, or buy-one-get-one-free), and the charge with or without a strategy.
- `products.dfy`: `Product` and `Clone`.
- `cart.dfy`: line items, add, remove-first, the total, and the cart view.
- `shop.dfy`: catalog plus cart, and the stock-conservation invariant.

Prices, charges and percentages are `real`, meaning exact rationals. Quantities and availabilities are `int`. Neither is range-checked, just as in the source.

Two behaviours of the source are kept on purpose:
- **Removal does not give stock back.** The comment at ecommerce_cart.py:68 says the removal is meant to release the product back to availability. But the `+= 1` there applies to the snapshot being discarded, not to the catalog product. So the catalog stock is untouched, and after a removal the catalog stock plus the cart's holdings falls short of the original stock by the removed line's quantity (`Shop.RemoveLosesQuantity`). In the Laptop walk-through the laptop stock stays at 3 after the removal (`Shop.LaptopWalkThrough`).
- **Quantity is not validated.** Zero and negative quantities are accepted whenever `availability >= quantity`, and a negative quantity raises the catalog stock. With a positive price and no strategy, such an add also lowers the cart total (`ShoppingCart.NegativeQuantityLowersTotal`). An add never lowers the total when the price and quantity are non-negative and any percentage is at most 100 (`ShoppingCart.AddNeverLowersTotal`). That condition is sufficient, not necessary.

## Model

| member | source | states |
|---|---|---|
| Discounts.PaidUnits | ecommerce_cart.py:19-21 | buy-one-get-one-free pays for half the units rounded up, and for a non-negative quantity pays for between half of them and all of them |
| Discounts.Apply | ecommerce_cart.py:11-21 | a percentage discount takes that percentage of the full charge off it; buy-one-get-one-free charges the unit price for each paid unit |
| Discounts.Charge | ecommerce_cart.py:49-52 | with no strategy the line is charged price times quantity; with a strategy it is charged that strategy's amount. Its partner is `Discounts.NoDiscountIsFullPrice` |
| Discounts.NoDiscountIsFullPrice | ecommerce_cart.py:49-52 | a 0% discount charges the same as no strategy, namely price times quantity |
| Discounts.FullPercentageIsFree | ecommerce_cart.py:15-16 | 100% off makes the line free |
| Discounts.PercentageWithinFullPrice | ecommerce_cart.py:15-16 | for a non-negative price and quantity, a percentage in 0..100 gives a charge between zero and the full charge |
| Discounts.PercentageOutOfRange | ecommerce_cart.py:12-16 | the percentage is not checked: above 100 a positive line's charge goes negative, and below 0 it exceeds the full charge |
| Discounts.BuyOneGetOneFreeBounds | ecommerce_cart.py:20-21 | for a non-negative price and quantity, buy-one-get-one-free charges at most the full price and at least half of it |
| Discounts.WorkedCharges | ecommerce_cart.py:15-21 | 20% off 3 units at 100 is 240; buy-one-get-one-free on 5 units at 50 is 150, and on 3 units at 50 is 100 |
| Products.Clone | ecommerce_cart.py:35-41 | a clone is equal to the original as a value |
| ShoppingCart.Snapshot | ecommerce_cart.py:54-55 | the stored snapshot has the product's name and price, and the quantity added in its availability field |
| ShoppingCart.AddToCart | ecommerce_cart.py:47-62 | succeeds exactly when availability covers the quantity. On failure, cart and product are unchanged. On success, one item is appended with the product's name and price, the quantity, and the strategy's charge; earlier items are kept; stock drops by the quantity |
| ShoppingCart.FirstMatch | ecommerce_cart.py:65-66 | finds the position of the first line item with the name, or reports that no item has it |
| ShoppingCart.Released | ecommerce_cart.py:68 | the `+= 1` lands on the removed item's snapshot: same name and prices, and its quantity goes up by one |
| ShoppingCart.RemoveFromCart | ecommerce_cart.py:64-70 | succeeds exactly when some item has the name, and then deletes only the first such item and keeps the others in order. The +1 lands on the removed snapshot. On failure the cart is unchanged |
| ShoppingCart.CalculateTotal | ecommerce_cart.py:72-74 | returns the sum of the stored line-item prices, front to back, without changing the cart; the result equals `ShoppingCart.Total`, the reference sum of those prices |
| ShoppingCart.AddTotal | ecommerce_cart.py:47-74 | a successful add raises the total by exactly the new line's charge; a refused add leaves the total unchanged |
| ShoppingCart.AddNeverLowersTotal | ecommerce_cart.py:47-74 | with non-negative price and quantity and a percentage of at most 100, an add never lowers the total |
| ShoppingCart.NegativeQuantityLowersTotal | ecommerce_cart.py:47-58 | with a positive price and no strategy, a negative quantity is accepted; it lowers the total and raises the stock |
| ShoppingCart.RemoveTotal | ecommerce_cart.py:64-74 | a successful removal lowers the total by the removed item's stored charge; a failed one leaves the total unchanged |
| ShoppingCart.RemoveKeepsOtherItems | ecommerce_cart.py:64-70 | after a removal, every remaining item is an original item, unchanged and in its original order |
| ShoppingCart.SummaryEntries | ecommerce_cart.py:80-84 | the listing built by `ShoppingCart.Summary` has one (quantity, name) entry per line item, in cart order, with the quantity read from the snapshot |
| ShoppingCart.ViewCart | ecommerce_cart.py:76-86 | the view shows the empty-cart notice exactly when the cart is empty, and otherwise the per-item (quantity, name) listing |
| ShoppingCart.AddSummary | ecommerce_cart.py:47-84 | a successful add appends the (quantity, name) it was called with to the listing; earlier entries stay |
| ShoppingCart.RemoveSummary | ecommerce_cart.py:64-84 | a removal drops exactly the first entry with that name from the listing; the other quantities are unchanged |
| Shop.AddItem | ecommerce_cart.py:47-62 | an add on the catalog product at a position has the cart, product and success flag of `add_to_cart` on that product: it succeeds exactly when the stock covers the quantity, and then that product's stock drops by the quantity; a refused add leaves the store unchanged; no other catalog product changes |
| Shop.RemoveItem | ecommerce_cart.py:64-70 | a removal leaves the whole catalog unchanged, and its cart is the cart of `remove_from_cart` (the first match deleted). It succeeds exactly when some line item has the name, and on failure the store is unchanged |
| Shop.EmptyCartConserved | ecommerce_cart.py:43-45 | a new, empty cart conserves each product's stock |
| Shop.AddKeepsStockConserved | ecommerce_cart.py:47-62 | when catalog names are unique, each product's stock plus the cart's quantity of it is unchanged by an add, whether or not the add succeeds |
| Shop.RemoveLosesQuantity | ecommerce_cart.py:64-70 | a removal leaves the catalog unchanged, so the removed product ends up short by the removed line's quantity; all other products stay conserved |
| Shop.LaptopWalkThrough | ecommerce_cart.py:47-74 | the Laptop/Headphones walk-through ends with totals 2000 and then 2100. After removing "Laptop" the total is 100 and the laptop stock stays at 3 |

## Left out

- The console driver (`main`, `display_product_list`) is left out: the menu loop, input parsing, `int`/`float` conversion and every printed message, including the "not available" line printed on a failed add. The driver also seeds availability with `True`; that is a driver detail and is not modelled.
- Rendering of the cart view into a sentence is left out. `ViewCart` returns the (quantity, name) pairs that the sentence is built from.
- Floating-point rounding of the percentage discount is left out. Charges are exact rationals.
- The abstract base classes and the `copy.copy` prototype machinery are left out. Strategies are a closed datatype. Cloning is a record copy. `Laptop` and `Headphones` are not told apart, because they add no behaviour.
- Object identity and aliasing are left out. In the source the cart mutates the very catalog object it was given. Here the catalog product is passed in and returned, and in `Shop` it is addressed by its catalog position.
- Shop.AddKeepsStockConserved: assumes catalog names are unique. The source does not require this, but with shared names the per-name count in the cart cannot be attributed to one product.
