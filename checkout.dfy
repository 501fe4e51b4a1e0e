/** The checkout page: subtotal, shipping fee and total, the promo code, the
    billing form's required fields, the order record, and the submission. */
module Checkout {
  import opened Shop

  /** getShippingFee */
  const ShippingFee: real := 200.0

  /** The one promo code the page accepts. */
  const PromoCode: string := "DISCOUNT10"

  /** `item.price * item.quantity`, with no default: an absent quantity
      makes the product NaN. */
  function LineAmount(item: Item): (r: Num)
    ensures r.Finite? <==> item.quantity.Some?
  {
    match item.quantity
    case None => NaN
    case Some(q) => Finite(item.price * q as real)
  }

  /** getSubTotal: the `reduce` over the cart, left to right from 0. */
  function SubTotal(cart: seq<Item>): Num
  {
    if cart == [] then Finite(0.0) else Add(SubTotal(cart[..|cart| - 1]), LineAmount(cart[|cart| - 1]))
  }

  /** The subtotal is a number exactly when every entry has a quantity; one
      entry without one (as add-to-cart stores them) makes it NaN. */
  lemma {:induction false} SubTotalFiniteIffQuantities(cart: seq<Item>)
    ensures SubTotal(cart).Finite? <==> forall i :: 0 <= i < |cart| ==> cart[i].quantity.Some?
    decreases |cart|
  {
    if cart != [] {
      var n := |cart| - 1;
      SubTotalFiniteIffQuantities(cart[..n]);
      assert forall i :: 0 <= i < n ==> cart[..n][i] == cart[i];
    }
  }

  /** The subtotal of a concatenation is the sum of the subtotals. */
  lemma {:induction false} SubTotalAppend(a: seq<Item>, b: seq<Item>)
    ensures SubTotal(a + b) == Add(SubTotal(a), SubTotal(b))
    decreases |b|
  {
    if b == [] {
      assert a + b == a;
    } else {
      var n := |b| - 1;
      assert (a + b)[..|a + b| - 1] == a + b[..n];
      assert (a + b)[|a + b| - 1] == b[n];
      SubTotalAppend(a, b[..n]);
    }
  }

  /** getTotal: the subtotal plus the shipping fee. */
  function Total(cart: seq<Item>): (r: Num)
    ensures r.Finite? <==> SubTotal(cart).Finite?
    ensures r.Finite? ==> r.v == SubTotal(cart).v + ShippingFee
  {
    Add(SubTotal(cart), Finite(ShippingFee))
  }

  /** The discounted total that applying `code` records for a cart whose
      subtotal is `subTotal`; `None` is null. */
  function Discount(code: string, subTotal: Num): (r: Option<Num>)
    ensures r.Some? <==> code == PromoCode
    ensures r.Some? ==> r.value.Finite? == subTotal.Finite?
    ensures r.Some? && subTotal.Finite? ==> r.value.v == subTotal.v * 9.0 / 10.0
  {
    if code == PromoCode then Some(Scale(subTotal, 0.9)) else None
  }

  /** The grand total: the recorded discounted total plus the shipping fee
      when a discount is recorded, the plain total otherwise. */
  function GrandTotal(cart: seq<Item>, discounted: Option<Num>): (r: Num)
    ensures discounted.None? ==> r == Total(cart)
    ensures discounted.Some? ==> (r.Finite? <==> discounted.value.Finite?)
    ensures discounted.Some? && r.Finite? ==> r.v == discounted.value.v + ShippingFee
  {
    if discounted.Some? then Add(discounted.value, Finite(ShippingFee)) else Total(cart)
  }

  /** With the promo applied to the cart as it is, the grand total is 90% of
      the subtotal plus shipping: 10% of the subtotal below the plain total. */
  lemma PromoTakesTenPercent(cart: seq<Item>)
    requires SubTotal(cart).Finite?
    ensures GrandTotal(cart, Discount(PromoCode, SubTotal(cart)))
         == Finite(SubTotal(cart).v * 9.0 / 10.0 + ShippingFee)
    ensures GrandTotal(cart, Discount(PromoCode, SubTotal(cart))).v
         == Total(cart).v - SubTotal(cart).v / 10.0
  {
  }

  /** The discount is a snapshot: once recorded, the grand total no longer
      follows the cart. Two carts with different subtotals get the same grand
      total from the same recorded discount. */
  lemma DiscountIsSnapshot(cart: seq<Item>, other: seq<Item>)
    ensures GrandTotal(other, Discount(PromoCode, SubTotal(cart)))
         == GrandTotal(cart, Discount(PromoCode, SubTotal(cart)))
  {
  }

  /** The billing form. */
  datatype Billing = Billing(
    name: string, phone: string, email: string,
    address: string, city: string, zipCode: string)

  /** A required field left empty: name, phone, address, city or zip code.
      The email is not required. */
  predicate MissingRequired(b: Billing)
  {
    b.name == "" || b.phone == "" || b.address == "" || b.city == "" || b.zipCode == ""
  }

  /** The email alone never blocks an order, each required field left empty
      blocks it whatever the other fields hold, and a form with every
      required field filled goes through, with or without an email. */
  lemma RequiredFields(b: Billing)
    ensures MissingRequired(b.(email := "")) == MissingRequired(b)
    ensures b.name != "" && b.phone != "" && b.address != "" && b.city != "" && b.zipCode != ""
      ==> !MissingRequired(b) && !MissingRequired(b.(email := ""))
    ensures MissingRequired(b.(name := "")) && MissingRequired(b.(phone := ""))
      && MissingRequired(b.(address := "")) && MissingRequired(b.(city := ""))
      && MissingRequired(b.(zipCode := ""))
  {
  }

  /** One product of the order record (its per-line `_key` is not modelled). */
  datatype OrderLine = OrderLine(name: string, price: real, quantity: Option<int>, imageUrl: string)

  /** The order record handed to the backend. */
  datatype Order = Order(
    customer: Billing,
    products: seq<OrderLine>,
    totalAmount: Num,
    shippingFee: real,
    grandTotal: Num,
    orderDate: string,
    promoCode: Option<string>)

  /** `product.image?.asset?.url || product.imageUrl`. */
  function ImageUrl(item: Item): (r: string)
    ensures item.assetUrl.Some? && item.assetUrl.value != "" ==> r == item.assetUrl.value
    ensures r == item.imageUrl || (item.assetUrl.Some? && r == item.assetUrl.value && r != "")
  {
    if item.assetUrl.Some? && item.assetUrl.value != "" then item.assetUrl.value else item.imageUrl
  }

  /** One formatted product of the order. */
  function ToLine(item: Item): (l: OrderLine)
    ensures l.name == item.name && l.price == item.price && l.quantity == item.quantity
    ensures l.imageUrl == ImageUrl(item)
  {
    OrderLine(item.name, item.price, item.quantity, ImageUrl(item))
  }

  /** The order the checkout button submits for `cart`, the recorded
      discount `discounted` and the promo code field `code`, stamped with
      `orderDate`. */
  function BuildOrder(customer: Billing, cart: seq<Item>, discounted: Option<Num>,
                      code: string, orderDate: string): (o: Order)
    ensures o.customer == customer && o.orderDate == orderDate
    ensures |o.products| == |cart|
    ensures forall i :: 0 <= i < |cart| ==>
      o.products[i].name == cart[i].name && o.products[i].price == cart[i].price
      && o.products[i].quantity == cart[i].quantity
    ensures forall i :: 0 <= i < |cart| ==> o.products[i] == ToLine(cart[i])
    ensures o.totalAmount == SubTotal(cart) && o.shippingFee == ShippingFee
    ensures discounted.None? ==> o.grandTotal == Total(cart)
    ensures discounted.Some? ==> o.grandTotal == Add(discounted.value, Finite(ShippingFee))
    ensures o.promoCode.None? <==> code == ""
    ensures o.promoCode.Some? ==> o.promoCode.value == code
  {
    Order(customer, Map(ToLine, cart), SubTotal(cart), ShippingFee,
          GrandTotal(cart, discounted), orderDate, if code == "" then None else Some(code))
  }

  /** The checkout page's component state. */
  class CheckoutView {
    var cart: seq<Item>
    var promoCode: string
    var discountedTotal: Option<Num>
    var billing: Billing
    var loading: bool
    var orderPlaced: bool
    const storage: Storage

    constructor (storage: Storage)
      ensures this.storage == storage && cart == [] && promoCode == "" && discountedTotal.None?
      ensures billing == Billing("", "", "", "", "", "") && !loading && !orderPlaced
    {
      this.storage := storage;
      cart, promoCode, discountedTotal := [], "", None;
      billing := Billing("", "", "", "", "", "");
      loading, orderPlaced := false, false;
    }

    /** The mount effect: the stored cart is taken as it is, without
        normalising quantities. */
    method Load()
      modifies this`cart
      ensures cart == if storage.cart.Some? then storage.cart.value else old(cart)
    {
      if storage.cart.Some? {
        cart := storage.cart.value;
      }
    }

    /** Typing in the promo code field; a recorded discount stays as it is. */
    method EditPromoCode(code: string)
      modifies this`promoCode
      ensures promoCode == code
    {
      promoCode := code;
    }

    /** Typing in the billing form. */
    method EditBilling(b: Billing)
      modifies this`billing
      ensures billing == b
    {
      billing := b;
    }

    /** "Apply": records the discount for the current code and subtotal. */
    method ApplyPromoCode()
      modifies this`discountedTotal
      ensures discountedTotal == Discount(promoCode, SubTotal(cart))
    {
      if promoCode == PromoCode {
        discountedTotal := Some(Scale(SubTotal(cart), 0.9));
      } else {
        discountedTotal := None;
      }
    }

    /** "Place Order". `accepted` is the outcome of the backend's create-order
        call and `orderDate` the clock reading; `sent` is the order handed to
        the backend, `None` when the form stops the submission. */
    method PlaceOrder(accepted: bool, orderDate: string) returns (sent: Option<Order>)
      modifies this`cart, this`loading, this`orderPlaced, storage`cart
      ensures MissingRequired(billing) ==> sent.None? && unchanged(this) && unchanged(storage)
      ensures !MissingRequired(billing) ==>
        sent == Some(BuildOrder(billing, old(cart), discountedTotal, promoCode, orderDate))
      ensures !MissingRequired(billing) ==> !loading
      ensures !MissingRequired(billing) && accepted ==>
        cart == [] && storage.cart.None? && orderPlaced
      ensures !MissingRequired(billing) && !accepted ==>
        cart == old(cart) && storage.cart == old(storage.cart) && orderPlaced == old(orderPlaced)
    {
      if MissingRequired(billing) {
        return None;
      }
      loading := true;
      var order := BuildOrder(billing, cart, discountedTotal, promoCode, orderDate);
      sent := Some(order);
      if accepted {
        storage.cart := None;
        cart := [];
        orderPlaced := true;
      }
      loading := false;
    }
  }
}
