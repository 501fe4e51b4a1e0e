/** Values shared by the storefront's pages: the cart line item as it is kept
    in the browser's "cart" storage slot, JavaScript numbers that may be NaN,
    the storage slot itself, and the two array operations the pages build
    every cart update from (`filter` and `map`). */
module Shop {

  datatype Option<+T> = None | Some(value: T)

  function Min(a: int, b: int): int { if a <= b then a else b }
  function Max(a: int, b: int): int { if a >= b then a else b }

  /** A JavaScript number as the pages compute it: a finite value, or NaN,
      which is what arithmetic on an absent field produces. */
  datatype Num = Finite(v: real) | NaN

  /** `a + b`; NaN is absorbing. */
  function Add(a: Num, b: Num): (r: Num)
    ensures r.Finite? <==> a.Finite? && b.Finite?
  {
    if a.Finite? && b.Finite? then Finite(a.v + b.v) else NaN
  }

  /** `a * k` for a finite factor `k`; NaN is absorbing. */
  function Scale(a: Num, k: real): (r: Num)
    ensures r.Finite? <==> a.Finite?
  {
    if a.Finite? then Finite(a.v * k) else NaN
  }

  /** A product record as it travels between the pages and the storage slot.
      Products fetched for the catalogue carry no quantity; the cart page adds
      one. */
  datatype Item = Item(
    name: string,
    slug: string,              // slug.current
    price: real,
    category: string,          // category->slug.current
    kind: string,              // the product's `type` tag
    assetUrl: Option<string>,  // image.asset.url, when the record has an image
    imageUrl: string,
    quantity: Option<int>)     // None: the field is absent

  /** The browser's localStorage key "cart". `None` means the key is absent;
      the JSON text it holds is taken to round-trip to the list it was made from. */
  class Storage {
    var cart: Option<seq<Item>>

    constructor (initial: Option<seq<Item>>)
      ensures cart == initial
    {
      cart := initial;
    }
  }

  /** `s.filter(keep)`: the elements of `s` that satisfy `keep`, in order. */
  function Filter<T>(keep: T -> bool, s: seq<T>): (r: seq<T>)
    ensures |r| <= |s|
    ensures forall i :: 0 <= i < |r| ==> r[i] in s && keep(r[i])
    ensures forall i :: 0 <= i < |s| && keep(s[i]) ==> s[i] in r
  {
    if s == [] then []
    else (if keep(s[0]) then [s[0]] else []) + Filter(keep, s[1..])
  }

  /** Filtering distributes over concatenation: relative order is kept. */
  lemma {:induction false} FilterAppend<T>(keep: T -> bool, a: seq<T>, b: seq<T>)
    ensures Filter(keep, a + b) == Filter(keep, a) + Filter(keep, b)
  {
    if a == [] {
      assert a + b == b;
    } else {
      assert (a + b)[0] == a[0];
      assert (a + b)[1..] == a[1..] + b;
      FilterAppend(keep, a[1..], b);
    }
  }

  /** A filter every element passes leaves the sequence as it was. */
  lemma {:induction false} FilterKeepsAll<T>(keep: T -> bool, s: seq<T>)
    requires forall i :: 0 <= i < |s| ==> keep(s[i])
    ensures Filter(keep, s) == s
  {
    if s != [] {
      FilterKeepsAll(keep, s[1..]);
    }
  }

  /** `s.map(f)`: same length, element `i` is `f(s[i])`. */
  function Map<T, U>(f: T -> U, s: seq<T>): (r: seq<U>)
    ensures |r| == |s|
    ensures forall i :: 0 <= i < |s| ==> r[i] == f(s[i])
  {
    if s == [] then [] else [f(s[0])] + Map(f, s[1..])
  }
}
