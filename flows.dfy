/** How the three pages meet through the storage slot: the cart page and
    the checkout page price the same stored cart differently, and the
    navigation catalogue -> cart -> checkout shows where. */
module Flows {
  import opened Shop
  import opened Catalogue
  import opened CartPage
  import opened Checkout

  /** On a cart the cart page has normalised, the checkout subtotal is a
      number and equals the cart page's subtotal of the stored cart. */
  lemma {:induction false} CheckoutAgreesOnNormalisedCart(stored: seq<Item>)
    ensures Checkout.SubTotal(Normalise(stored)) == Finite(CartPage.Subtotal(stored))
    decreases |stored|
  {
    if stored != [] {
      var n := |stored| - 1;
      assert Normalise(stored)[..n] == Normalise(stored[..n]);
      CheckoutAgreesOnNormalisedCart(stored[..n]);
    }
  }

  /** On a cart the cart page has normalised, both pages show the same total. */
  lemma TotalsAgreeOnNormalisedCart(stored: seq<Item>)
    ensures Checkout.Total(Normalise(stored)) == Finite(CartPage.TotalPrice(Normalise(stored)))
  {
    CheckoutAgreesOnNormalisedCart(stored);
    NormaliseKeepsSubtotal(stored);
  }

  /** A product just added from the catalogue has no quantity: the cart page
      counts it once, while the checkout subtotal of any cart holding it is
      NaN. */
  lemma AddedProductPricedDifferently(cart: seq<Item>, product: Item)
    requires product.quantity.None?
    ensures CartPage.Subtotal(cart + [product]) == CartPage.Subtotal(cart) + product.price
    ensures Checkout.SubTotal(cart + [product]).NaN?
  {
  }

  /** A stored quantity of 0 is counted as 1 by the cart page and as 0 by the
      checkout page. */
  lemma ZeroQuantityPricedDifferently(item: Item)
    requires item.quantity == Some(0)
    ensures CartPage.Subtotal([item]) == item.price
    ensures Checkout.SubTotal([item]) == Finite(0.0)
  {
  }

  /** Adding a product in the catalogue and going to checkout, with the cart
      page visited in between but no quantity touched: the stored entry still
      has no quantity, so the checkout subtotal is NaN, although the cart page
      showed the product's price. */
  method AddThenCheckout(product: Item) returns (cartPageSubtotal: real, checkoutSubtotal: Num)
    requires product.quantity.None?
    ensures cartPageSubtotal == product.price
    ensures checkoutSubtotal.NaN?
  {
    var storage := new Storage(None);
    var catalogue := new CatalogueView(storage);
    catalogue.LoadCart();
    catalogue.AddToCart(product);
    assert storage.cart == Some([product]);

    var cartPage := new CartView(storage);
    cartPage.Load();
    var shown := product.(quantity := Some(1));
    assert cartPage.cart == [shown];
    assert [shown][..0] == [];
    assert CartPage.Subtotal([shown]) == CartPage.LineAmount(shown) == product.price;
    cartPageSubtotal := CartPage.Subtotal(cartPage.cart);
    assert storage.cart == Some([product]);

    var checkout := new CheckoutView(storage);
    checkout.Load();
    checkoutSubtotal := Checkout.SubTotal(checkout.cart);
  }

  /** The same path with "+" and then "-" pressed on the cart page: the cart
      is written back with its quantity, and checkout then agrees with the
      cart page. */
  method AddAdjustThenCheckout(product: Item) returns (cartPageSubtotal: real, checkoutSubtotal: Num)
    requires product.quantity.None?
    ensures cartPageSubtotal == product.price
    ensures checkoutSubtotal == Finite(product.price)
  {
    var storage := new Storage(None);
    var catalogue := new CatalogueView(storage);
    catalogue.LoadCart();
    catalogue.AddToCart(product);

    var cartPage := new CartView(storage);
    cartPage.Load();
    var shown := product.(quantity := Some(1));
    assert cartPage.cart == [shown];
    cartPage.ChangeQuantity(product.slug, Increase);
    assert cartPage.cart == [shown.(quantity := Some(2))];
    cartPage.ChangeQuantity(product.slug, Decrease);
    assert cartPage.cart == [shown];
    assert storage.cart == Some([shown]);
    assert [shown][..0] == [];
    assert CartPage.Subtotal([shown]) == CartPage.LineAmount(shown) == product.price;
    cartPageSubtotal := CartPage.Subtotal(cartPage.cart);

    var checkout := new CheckoutView(storage);
    checkout.Load();
    assert checkout.cart == [shown];
    assert Checkout.SubTotal([shown]) == Add(Finite(0.0), Checkout.LineAmount(shown));
    checkoutSubtotal := Checkout.SubTotal(checkout.cart);
  }

  /** Checking out a stored cart with every required field filled and no
      email: the order is sent for that cart, and once the backend accepts
      it the cart is emptied, the slot removed and the order marked placed. */
  method FilledFormPlacesOrder(stored: seq<Item>, b: Billing, orderDate: string)
    returns (sent: Option<Order>, storage: Storage, checkout: CheckoutView)
    requires b.name != "" && b.phone != "" && b.address != "" && b.city != "" && b.zipCode != ""
    ensures sent == Some(BuildOrder(b.(email := ""), stored, None, "", orderDate))
    ensures sent.Some? && sent.value.customer == b.(email := "")
    ensures |sent.value.products| == |stored|
    ensures checkout.cart == [] && checkout.orderPlaced && storage.cart.None?
  {
    storage := new Storage(Some(stored));
    checkout := new CheckoutView(storage);
    checkout.Load();
    checkout.EditBilling(b.(email := ""));
    RequiredFields(b);
    sent := checkout.PlaceOrder(true, orderDate);
  }

  /** Two products, priced 100 (two of them) and 50 (one): subtotal 250,
      total 450, and 425 with the promo code. */
  lemma WorkedTotals(a: Item, b: Item)
    requires a.price == 100.0 && a.quantity == Some(2)
    requires b.price == 50.0 && b.quantity == Some(1)
    ensures CartPage.TotalPrice([a, b]) == 450.0
    ensures Checkout.SubTotal([a, b]) == Finite(250.0)
    ensures Checkout.Total([a, b]) == Finite(450.0)
    ensures GrandTotal([a, b], Discount(PromoCode, Checkout.SubTotal([a, b]))) == Finite(425.0)
  {
    assert [a, b][..1] == [a];
    assert [a][..0] == [];
    assert CartPage.Subtotal([a]) == 200.0;
    assert CartPage.Subtotal([a, b]) == 250.0;
    assert Checkout.SubTotal([a]) == Finite(200.0);
  }
}
