/** The catalog and the cart together, so that the effect of each cart
    operation on catalog stock can be stated. The source passes the catalog
    product object itself to `add_to_cart` (ecommerce_cart.py:120, 136);
    here the product is named by its catalog position and the updated
    product is written back there. */
module Shop {
  import opened Wrappers
  import opened Discounts
  import opened Products
  import opened ShoppingCart

  datatype Store = Store(catalog: seq<Product>, cart: Cart)

  datatype StoreOutcome = StoreOutcome(store: Store, success: bool)

  /** `add_to_cart` on the catalog product at `index`. */
  function AddItem(s: Store, index: nat, quantity: int, strategy: Option<Discount>): (r: StoreOutcome)
    requires index < |s.catalog|
    ensures |r.store.catalog| == |s.catalog|
    ensures forall j :: 0 <= j < |s.catalog| && j != index ==> r.store.catalog[j] == s.catalog[j]
    ensures var o := AddToCart(s.cart, s.catalog[index], quantity, strategy);
      r.success == o.success && r.store.cart == o.cart && r.store.catalog[index] == o.product
    ensures r.success <==> s.catalog[index].availability >= quantity
    ensures r.success ==> r.store.catalog[index].availability == s.catalog[index].availability - quantity
    ensures !r.success ==> r.store == s
  {
    var o := AddToCart(s.cart, s.catalog[index], quantity, strategy);
    StoreOutcome(Store(s.catalog[index := o.product], o.cart), o.success)
  }

  /** `remove_from_cart`: the catalog is not consulted. */
  function RemoveItem(s: Store, name: string): (r: StoreOutcome)
    ensures r.store.catalog == s.catalog
    ensures r.success == RemoveFromCart(s.cart, name).success
    ensures r.success <==> exists i :: 0 <= i < |s.cart| && s.cart[i].Name() == name
    ensures !r.success ==> r.store == s
    ensures r.store.cart == RemoveFromCart(s.cart, name).cart
  {
    var o := RemoveFromCart(s.cart, name);
    StoreOutcome(Store(s.catalog, o.cart), o.success)
  }

  /** Total quantity the cart holds under `name`. */
  function InCart(cart: Cart, name: string): int
  {
    if |cart| == 0 then 0
    else (if cart[0].Name() == name then cart[0].Quantity() else 0) + InCart(cart[1..], name)
  }

  lemma {:induction false} InCartConcat(a: Cart, b: Cart, name: string)
    ensures InCart(a + b, name) == InCart(a, name) + InCart(b, name)
  {
    if |a| == 0 {
      assert a + b == b;
    } else {
      assert (a + b)[1..] == a[1..] + b;
      InCartConcat(a[1..], b, name);
    }
  }

  lemma InCartSingleton(item: LineItem, name: string)
    ensures InCart([item], name) == if item.Name() == name then item.Quantity() else 0
  {
    assert [item][1..] == [];
  }

  predicate UniqueNames(catalog: seq<Product>)
  {
    forall i, j :: 0 <= i < j < |catalog| ==> catalog[i].name != catalog[j].name
  }

  /** Every catalog product's stock plus what the cart holds of it equals
      its original stock `stock[i]`. */
  predicate Conserved(s: Store, stock: seq<int>)
  {
    && |stock| == |s.catalog|
    && forall i :: 0 <= i < |s.catalog| ==>
         s.catalog[i].availability + InCart(s.cart, s.catalog[i].name) == stock[i]
  }

  /** A fresh store with an empty cart conserves its own stock. */
  lemma EmptyCartConserved(catalog: seq<Product>)
    ensures Conserved(Store(catalog, []), seq(|catalog|, i requires 0 <= i < |catalog| => catalog[i].availability))
  {
  }

  /** Adding, whether it succeeds or not, keeps stock conserved: a success
      moves exactly `quantity` units from the catalog entry into the cart. */
  lemma AddKeepsStockConserved(s: Store, stock: seq<int>, index: nat, quantity: int, strategy: Option<Discount>)
    requires index < |s.catalog|
    requires UniqueNames(s.catalog)
    requires Conserved(s, stock)
    ensures Conserved(AddItem(s, index, quantity, strategy).store, stock)
    ensures UniqueNames(AddItem(s, index, quantity, strategy).store.catalog)
  {
    var r := AddItem(s, index, quantity, strategy);
    var o := AddToCart(s.cart, s.catalog[index], quantity, strategy);
    if o.success {
      var item := o.cart[|s.cart|];
      assert o.cart == s.cart + [item];
      forall i | 0 <= i < |s.catalog|
        ensures r.store.catalog[i].availability + InCart(r.store.cart, r.store.catalog[i].name) == stock[i]
      {
        var n := s.catalog[i].name;
        assert r.store.catalog[i].name == n;
        InCartConcat(s.cart, [item], n);
        InCartSingleton(item, n);
        if i != index {
          assert n != s.catalog[index].name;
        }
      }
    }
  }

  /** A removal leaves every catalog product as it was, so the removed
      line's quantity is lost from the conserved total: the product named
      in the removal ends up short by exactly that quantity, and all other
      products stay conserved. */
  lemma RemoveLosesQuantity(s: Store, stock: seq<int>, name: string)
    requires Conserved(s, stock)
    requires RemoveItem(s, name).success
    ensures var r := RemoveItem(s, name);
      var lost := s.cart[FirstMatch(s.cart, name).value].Quantity();
      && r.store.catalog == s.catalog
      && forall i :: 0 <= i < |s.catalog| ==>
           s.catalog[i].availability + InCart(r.store.cart, s.catalog[i].name)
             == stock[i] - (if s.catalog[i].name == name then lost else 0)
  {
    var r := RemoveItem(s, name);
    var k := FirstMatch(s.cart, name).value;
    var c := s.cart;
    assert c == c[..k] + [c[k]] + c[k + 1..];
    forall i | 0 <= i < |s.catalog|
      ensures s.catalog[i].availability + InCart(r.store.cart, s.catalog[i].name)
                == stock[i] - (if s.catalog[i].name == name then c[k].Quantity() else 0)
    {
      var n := s.catalog[i].name;
      InCartConcat(c[..k] + [c[k]], c[k + 1..], n);
      InCartConcat(c[..k], [c[k]], n);
      InCartSingleton(c[k], n);
      InCartConcat(c[..k], c[k + 1..], n);
    }
  }

  /** The walk-through: Laptop (1000, stock 5) and Headphones (50, stock
      10). Two laptops at full price make the total 2000 and leave 3 in
      stock; three headphones under buy-one-get-one-free add 100; removing
      "Laptop" succeeds but the laptop stock stays at 3. */
  lemma LaptopWalkThrough()
    ensures var s0 := Store([Product("Laptop", 1000.0, 5), Product("Headphones", 50.0, 10)], []);
      var a1 := AddItem(s0, 0, 2, None);
      var a2 := AddItem(a1.store, 1, 3, Some(BuyOneGetOneFree));
      var rm := RemoveItem(a2.store, "Laptop");
      && a1.success && a1.store.catalog[0].availability == 3 && Total(a1.store.cart) == 2000.0
      && a2.success && a2.store.catalog[1].availability == 7 && Total(a2.store.cart) == 2100.0
      && rm.success && rm.store.catalog[0].availability == 3 && Total(rm.store.cart) == 100.0
  {
    var s0 := Store([Product("Laptop", 1000.0, 5), Product("Headphones", 50.0, 10)], []);
    var a1 := AddItem(s0, 0, 2, None);
    AddTotal(s0.cart, s0.catalog[0], 2, None);
    var a2 := AddItem(a1.store, 1, 3, Some(BuyOneGetOneFree));
    AddTotal(a1.store.cart, a1.store.catalog[1], 3, Some(BuyOneGetOneFree));
    var rm := RemoveItem(a2.store, "Laptop");
    RemoveTotal(a2.store.cart, "Laptop");
    assert a2.store.cart[0].Name() == "Laptop";
  }
}
