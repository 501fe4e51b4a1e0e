/** The cart page: quantities made explicit on load, remove-by-slug,
    quantity changes, and the order summary (subtotal, shipping, total). */
module CartPage {
  import opened Shop

  /** The fixed shipping cost shown on the cart page. */
  const ShippingCost: real := 200.0

  /** `quantity || 1`: an absent or zero quantity counts as 1. */
  function OrOne(q: Option<int>): (n: int)
    ensures n != 0
    ensures q.Some? && q.value != 0 ==> n == q.value
    ensures q.None? || q.value == 0 ==> n == 1
  {
    if q.None? || q.value == 0 then 1 else q.value
  }

  /** The load-time fix-up of one stored item. */
  function NormaliseItem(item: Item): (r: Item)
    ensures r.quantity.Some? && r.quantity.value != 0
    ensures r == item.(quantity := r.quantity)
    ensures item.quantity.Some? && item.quantity.value != 0 ==> r == item
    ensures item.quantity.None? || item.quantity == Some(0) ==> r.quantity == Some(1)
  {
    item.(quantity := Some(OrOne(item.quantity)))
  }

  /** The cart the page shows after loading `stored`: same entries in the
      same order, each with a present, non-zero quantity; only the quantity
      of an entry whose quantity was absent or zero changes, and it becomes 1. */
  function Normalise(stored: seq<Item>): (r: seq<Item>)
    ensures |r| == |stored|
    ensures forall i :: 0 <= i < |stored| ==> r[i] == stored[i].(quantity := r[i].quantity)
    ensures forall i :: 0 <= i < |stored| ==>
      r[i].quantity == if stored[i].quantity.None? || stored[i].quantity == Some(0)
                       then Some(1) else stored[i].quantity
  {
    Map(NormaliseItem, stored)
  }

  /** Normalising twice is normalising once. */
  lemma NormaliseIdempotent(stored: seq<Item>)
    ensures Normalise(Normalise(stored)) == Normalise(stored)
  {
  }

  /** The cart after a confirmed removal of `slug`. */
  function WithoutSlug(cart: seq<Item>, slug: string): (r: seq<Item>)
    ensures |r| <= |cart|
    ensures forall i :: 0 <= i < |r| ==> r[i] in cart && r[i].slug != slug
    ensures forall i :: 0 <= i < |cart| && cart[i].slug != slug ==> cart[i] in r
  {
    Filter((x: Item) => x.slug != slug, cart)
  }

  /** Removal keeps the surviving entries in their original order: it works
      entry by entry and distributes over concatenation. */
  lemma WithoutSlugKeepsOrder(a: seq<Item>, b: seq<Item>, x: Item, slug: string)
    ensures WithoutSlug(a + b, slug) == WithoutSlug(a, slug) + WithoutSlug(b, slug)
    ensures WithoutSlug([x], slug) == if x.slug == slug then [] else [x]
  {
    FilterAppend((x: Item) => x.slug != slug, a, b);
    assert [x][1..] == [];
  }

  /** Removal drops every entry with the slug: it removes nothing when no
      entry has it, and the count drops by the number of entries that have it. */
  lemma {:induction false} WithoutSlugCount(cart: seq<Item>, slug: string)
    ensures |WithoutSlug(cart, slug)| == |cart| - Occurrences(cart, slug)
    ensures Occurrences(cart, slug) == 0 ==> WithoutSlug(cart, slug) == cart
  {
    if cart != [] {
      WithoutSlugCount(cart[1..], slug);
    }
  }

  /** The number of entries with `slug`. */
  function Occurrences(cart: seq<Item>, slug: string): nat
  {
    if cart == [] then 0
    else (if cart[0].slug == slug then 1 else 0) + Occurrences(cart[1..], slug)
  }

  datatype Direction = Increase | Decrease

  /** The new quantity of a matching entry. An absent quantity (NaN after
      the arithmetic) stays absent; the cart page never holds one. */
  function Bumped(q: Option<int>, dir: Direction): (r: Option<int>)
    ensures r.Some? <==> q.Some?
    ensures r.Some? && dir == Increase ==> r.value == q.value + 1
    ensures r.Some? && dir == Decrease ==> r.value >= 1
    ensures r.Some? && dir == Decrease ==> (r.value == q.value - 1 <==> q.value > 1)
    ensures r.Some? && dir == Decrease && q.value <= 1 ==> r.value == 1
  {
    match q
    case None => None
    case Some(n) => Some(if dir == Increase then n + 1 else Max(1, n - 1))
  }

  /** The cart after pressing "+" or "-" on an entry with `slug`: every
      entry with that slug changes, and nothing else does. */
  function WithQuantityChanged(cart: seq<Item>, slug: string, dir: Direction): (r: seq<Item>)
    ensures |r| == |cart|
    ensures forall i :: 0 <= i < |cart| && cart[i].slug != slug ==> r[i] == cart[i]
    ensures forall i :: 0 <= i < |cart| && cart[i].slug == slug ==>
      r[i] == cart[i].(quantity := Bumped(cart[i].quantity, dir))
  {
    Map((x: Item) => if x.slug == slug then x.(quantity := Bumped(x.quantity, dir)) else x, cart)
  }

  /** "-" never takes a present quantity below 1, and at 1 it changes nothing. */
  lemma DecreaseClampsAtOne(cart: seq<Item>, slug: string)
    ensures forall i :: 0 <= i < |cart| && cart[i].slug == slug && cart[i].quantity.Some? ==>
      WithQuantityChanged(cart, slug, Decrease)[i].quantity.value >= 1
    ensures (forall i :: 0 <= i < |cart| && cart[i].slug == slug ==> cart[i].quantity == Some(1))
      ==> WithQuantityChanged(cart, slug, Decrease) == cart
  {
  }

  /** "-" undoes "+" on a cart whose quantities are all at least 1. */
  lemma DecreaseUndoesIncrease(cart: seq<Item>, slug: string)
    requires forall i :: 0 <= i < |cart| ==> cart[i].quantity.Some? && cart[i].quantity.value >= 1
    ensures WithQuantityChanged(WithQuantityChanged(cart, slug, Increase), slug, Decrease) == cart
  {
  }

  /** `(item.price || 0) * (item.quantity || 1)`; a price is always a number
      here, so `|| 0` leaves it as it is. */
  function LineAmount(item: Item): (r: real)
    ensures item.quantity.Some? && item.quantity.value != 0 ==> r == item.price * item.quantity.value as real
    ensures item.quantity.None? || item.quantity == Some(0) ==> r == item.price
  {
    item.price * OrOne(item.quantity) as real
  }

  /** getSubtotal: the `reduce` over the cart, left to right from 0. */
  function Subtotal(cart: seq<Item>): real
  {
    if cart == [] then 0.0 else Subtotal(cart[..|cart| - 1]) + LineAmount(cart[|cart| - 1])
  }

  /** The subtotal of a concatenation is the sum of the subtotals. */
  lemma {:induction false} SubtotalAppend(a: seq<Item>, b: seq<Item>)
    ensures Subtotal(a + b) == Subtotal(a) + Subtotal(b)
    decreases |b|
  {
    if b == [] {
      assert a + b == a;
    } else {
      var n := |b| - 1;
      assert (a + b)[..|a + b| - 1] == a + b[..n];
      assert (a + b)[|a + b| - 1] == b[n];
      SubtotalAppend(a, b[..n]);
    }
  }

  /** The subtotal as a sum from the front: the first entry's amount plus the
      subtotal of the rest. */
  lemma SubtotalCons(x: Item, rest: seq<Item>)
    ensures Subtotal([x] + rest) == LineAmount(x) + Subtotal(rest)
  {
    SubtotalAppend([x], rest);
    assert [x][..0] == [];
  }

  /** Normalising on load does not change the subtotal: it fills in the same
      default of 1 that the subtotal applies. */
  lemma {:induction false} NormaliseKeepsSubtotal(stored: seq<Item>)
    ensures Subtotal(Normalise(stored)) == Subtotal(stored)
    decreases |stored|
  {
    if stored != [] {
      var n := |stored| - 1;
      assert Normalise(stored)[..n] == Normalise(stored[..n]);
      NormaliseKeepsSubtotal(stored[..n]);
    }
  }

  /** The sum of the amounts of the entries with `slug`. */
  function AmountOf(cart: seq<Item>, slug: string): real
  {
    if cart == [] then 0.0
    else AmountOf(cart[..|cart| - 1], slug)
         + (if cart[|cart| - 1].slug == slug then LineAmount(cart[|cart| - 1]) else 0.0)
  }

  /** A confirmed removal lowers the subtotal by exactly the amounts of the
      entries with the slug. */
  lemma {:induction false} RemoveDropsAmount(cart: seq<Item>, slug: string)
    ensures Subtotal(WithoutSlug(cart, slug)) == Subtotal(cart) - AmountOf(cart, slug)
    decreases |cart|
  {
    if cart != [] {
      var n := |cart| - 1;
      assert cart == cart[..n] + [cart[n]];
      WithoutSlugKeepsOrder(cart[..n], [cart[n]], cart[n], slug);
      SubtotalAppend(WithoutSlug(cart[..n], slug), WithoutSlug([cart[n]], slug));
      RemoveDropsAmount(cart[..n], slug);
      assert Subtotal([cart[n]]) == LineAmount(cart[n]) by { assert [cart[n]][..0] == []; }
    }
  }

  /** The sum of the prices of the entries with `slug`. */
  function PriceOf(cart: seq<Item>, slug: string): real
  {
    if cart == [] then 0.0
    else PriceOf(cart[..|cart| - 1], slug)
         + (if cart[|cart| - 1].slug == slug then cart[|cart| - 1].price else 0.0)
  }

  /** On a cart whose quantities are all at least 1, "+" raises the subtotal
      by the price of every entry with the slug. */
  lemma {:induction false} IncreaseAddsPrices(cart: seq<Item>, slug: string)
    requires forall i :: 0 <= i < |cart| ==> cart[i].quantity.Some? && cart[i].quantity.value >= 1
    ensures Subtotal(WithQuantityChanged(cart, slug, Increase)) == Subtotal(cart) + PriceOf(cart, slug)
    decreases |cart|
  {
    if cart != [] {
      var n := |cart| - 1;
      var up := WithQuantityChanged(cart, slug, Increase);
      assert up[..n] == WithQuantityChanged(cart[..n], slug, Increase);
      IncreaseAddsPrices(cart[..n], slug);
      if cart[n].slug == slug {
        IncreaseAddsPrice(cart[n]);
      }
    }
  }

  /** "+" on one entry with a quantity of at least 1 adds its price once. */
  lemma IncreaseAddsPrice(x: Item)
    requires x.quantity.Some? && x.quantity.value >= 1
    ensures LineAmount(x.(quantity := Bumped(x.quantity, Increase))) == LineAmount(x) + x.price
  {
    var q := x.quantity.value;
    assert OrOne(Some(q + 1)) == q + 1;
    assert x.price * (q + 1) as real == x.price * q as real + x.price;
  }

  /** getTotalPrice: the subtotal plus shipping. */
  function TotalPrice(cart: seq<Item>): (r: real)
    ensures r - Subtotal(cart) == ShippingCost
  {
    Subtotal(cart) + ShippingCost
  }

  /** The cart page's component state. */
  class CartView {
    var cart: seq<Item>
    const storage: Storage

    /** The page never holds an entry without a quantity. */
    ghost predicate Valid()
      reads this
    {
      forall i :: 0 <= i < |cart| ==> cart[i].quantity.Some?
    }

    constructor (storage: Storage)
      ensures Valid() && this.storage == storage && cart == []
    {
      this.storage := storage;
      cart := [];
    }

    /** The mount effect: a stored cart is normalised into memory; the
        normalised cart is not written back. */
    method Load()
      requires Valid()
      modifies this`cart
      ensures Valid()
      ensures cart == if storage.cart.Some? then Normalise(storage.cart.value) else old(cart)
    {
      if storage.cart.Some? {
        cart := Normalise(storage.cart.value);
      }
    }

    /** "Remove", with `confirmed` the answer to the confirmation dialog. */
    method Remove(slug: string, confirmed: bool)
      requires Valid()
      modifies this`cart, storage`cart
      ensures Valid()
      ensures confirmed ==> cart == WithoutSlug(old(cart), slug) && storage.cart == Some(cart)
      ensures !confirmed ==> cart == old(cart) && storage.cart == old(storage.cart)
    {
      if confirmed {
        cart := WithoutSlug(cart, slug);
        storage.cart := Some(cart);
      }
    }

    /** "+" or "-" on the entry with `slug`. */
    method ChangeQuantity(slug: string, dir: Direction)
      requires Valid()
      modifies this`cart, storage`cart
      ensures Valid()
      ensures cart == WithQuantityChanged(old(cart), slug, dir)
      ensures storage.cart == Some(cart)
    {
      cart := WithQuantityChanged(cart, slug, dir);
      storage.cart := Some(cart);
    }
  }
}
