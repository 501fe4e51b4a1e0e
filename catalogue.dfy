/** The catalogue page (all products): the product filter, the "show more /
    show less" window over the fetched products, and add-to-cart. */
module Catalogue {
  import opened Shop

  /** productsPerPage, and the initial visible count. */
  const PageSize: int := 12

  /** The three filter drop-downs. An empty category or type, or an absent
      maximum price, is "no selection". */
  datatype Selection = Selection(category: string, kind: string, maxPrice: Option<real>)

  /** The condition the product query puts on a product document: every
      selection that is made must hold, and one that is not made imposes
      nothing. */
  predicate Matches(sel: Selection, p: Item)
    ensures sel == Selection("", "", None) ==> Matches(sel, p)
    ensures Matches(sel, p) && sel.category != "" ==> p.category == sel.category
    ensures Matches(sel, p) && sel.kind != "" ==> p.kind == sel.kind
    ensures Matches(sel, p) && sel.maxPrice.Some? ==> p.price <= sel.maxPrice.value
  {
    && (sel.category == "" || p.category == sel.category)
    && (sel.kind == "" || p.kind == sel.kind)
    && (sel.maxPrice.None? || p.price <= sel.maxPrice.value)
  }

  /** The filter is the conjunction of three independent one-field filters. */
  lemma MatchesIsConjunction(sel: Selection, p: Item)
    ensures Matches(sel, p) <==>
      && Matches(Selection(sel.category, "", None), p)
      && Matches(Selection("", sel.kind, None), p)
      && Matches(Selection("", "", sel.maxPrice), p)
  {
  }

  /** Each one-field filter on its own: a selected category or type admits
      exactly the products of that category or type, and a selected maximum
      price admits exactly the products priced at or below it. */
  lemma EachSelectionFilters(sel: Selection, p: Item, m: real)
    ensures sel.category != "" ==>
      (Matches(Selection(sel.category, "", None), p) <==> p.category == sel.category)
    ensures sel.kind != "" ==>
      (Matches(Selection("", sel.kind, None), p) <==> p.kind == sel.kind)
    ensures Matches(Selection("", "", Some(m)), p) <==> p.price <= m
  {
  }

  /** The products the backend answers the query with, the backend being
      modelled as its list of product documents. */
  function Query(sel: Selection, documents: seq<Item>): (r: seq<Item>)
    ensures |r| <= |documents|
    ensures forall i :: 0 <= i < |r| ==> r[i] in documents && Matches(sel, r[i])
    ensures forall i :: 0 <= i < |documents| && Matches(sel, documents[i]) ==> documents[i] in r
  {
    Filter((p: Item) => Matches(sel, p), documents)
  }

  /** The answer lists each matching document once, in document order: the
      query works document by document and distributes over concatenation. */
  lemma QueryKeepsOrder(sel: Selection, a: seq<Item>, b: seq<Item>, p: Item)
    ensures Query(sel, a + b) == Query(sel, a) + Query(sel, b)
    ensures Query(sel, [p]) == if Matches(sel, p) then [p] else []
  {
    FilterAppend((p: Item) => Matches(sel, p), a, b);
    assert [p][1..] == [];
  }

  /** With no selection made, every product document is listed, in order. */
  lemma QueryWithoutSelectionListsAll(documents: seq<Item>)
    ensures Query(Selection("", "", None), documents) == documents
  {
    FilterKeepsAll((p: Item) => Matches(Selection("", "", None), p), documents);
  }

  /** `data.slice(0, count)`, where a negative end counts back from the end. */
  function Visible(data: seq<Item>, count: int): (r: seq<Item>)
    ensures r <= data
    ensures count >= 0 ==> |r| == Min(count, |data|)
    ensures count < 0 ==> |r| == Max(0, |data| + count)
  {
    if count < 0 then data[..Max(0, |data| + count)]
    else data[..Min(count, |data|)]
  }

  /** The visible count after the toggle button is pressed with `total`
      products fetched. */
  function NextCount(count: int, total: nat): (r: int)
    ensures count > 0 && count % PageSize == 0 ==> r > 0 && r % PageSize == 0
    ensures count < total ==> r > count
    ensures count < total ==> r == count + PageSize
    ensures count >= total ==> r == PageSize
  {
    if count >= total then PageSize else count + PageSize
  }

  /** "Show more" while products are hidden reveals the next page of them
      and keeps the ones already shown. */
  lemma ShowMoreRevealsNextPage(data: seq<Item>, count: int)
    requires 0 <= count < |data|
    ensures Visible(data, NextCount(count, |data|))
         == Visible(data, count) + data[count..Min(count + PageSize, |data|)]
  {
  }

  /** "Show less", once every product is shown, goes back to the first page. */
  lemma ShowLessReturnsToFirstPage(data: seq<Item>, count: int)
    requires count >= |data|
    ensures Visible(data, NextCount(count, |data|)) == data[..Min(PageSize, |data|)]
  {
  }

  /** The label of the toggle button. */
  function ToggleLabel(count: int, total: nat): (r: string)
    ensures r == "Show Less" || r == "Show More"
    ensures r == "Show Less" <==> count >= total
  {
    if count >= total then "Show Less" else "Show More"
  }

  /** The button reads "Show Less" exactly when pressing it resets the
      window, and "Show More" exactly when pressing it shows more products. */
  lemma LabelDescribesToggle(data: seq<Item>, count: int)
    requires count > 0
    ensures ToggleLabel(count, |data|) == "Show Less" <==> NextCount(count, |data|) == PageSize
    ensures ToggleLabel(count, |data|) == "Show More"
        <==> |Visible(data, NextCount(count, |data|))| > |Visible(data, count)|
  {
  }

  /** The visible count after a run of toggles, the i-th pressed with
      `totals[i]` products fetched (a refetch may change the total in between). */
  function AfterToggles(count: int, totals: seq<nat>): int
    decreases totals
  {
    if totals == [] then count else AfterToggles(NextCount(count, totals[0]), totals[1..])
  }

  /** Starting from the initial count, the visible count stays a positive
      multiple of the page size whatever the toggles and totals. */
  lemma {:induction false} TogglesKeepWholePages(count: int, totals: seq<nat>)
    requires count > 0 && count % PageSize == 0
    ensures AfterToggles(count, totals) > 0 && AfterToggles(count, totals) % PageSize == 0
    decreases totals
  {
    if totals != [] {
      TogglesKeepWholePages(NextCount(count, totals[0]), totals[1..]);
    }
  }

  /** The catalogue page's component state. */
  class CatalogueView {
    var data: seq<Item>
    var loading: bool
    var visibleCount: int
    var cart: seq<Item>
    const storage: Storage

    ghost predicate Valid()
      reads this
    {
      visibleCount > 0 && visibleCount % PageSize == 0
    }

    /** The products on screen. */
    function Shown(): seq<Item>
      reads this
    {
      Visible(data, visibleCount)
    }

    constructor (storage: Storage)
      ensures Valid() && this.storage == storage
      ensures data == [] && loading && visibleCount == PageSize && cart == []
    {
      this.storage := storage;
      data, loading, visibleCount, cart := [], true, PageSize, [];
    }

    /** The mount effect: a stored cart replaces the in-memory one. */
    method LoadCart()
      modifies this`cart
      ensures cart == if storage.cart.Some? then storage.cart.value else old(cart)
    {
      if storage.cart.Some? {
        cart := storage.cart.value;
      }
    }

    /** The fetch effect run whenever a selection changes: `fetched` says
        whether the product query came back. The visible count is kept. */
    method Fetch(sel: Selection, documents: seq<Item>, fetched: bool)
      modifies this`data, this`loading
      ensures data == if fetched then Query(sel, documents) else old(data)
      ensures !loading
    {
      if fetched {
        data := Query(sel, documents);
      }
      loading := false;
    }

    /** The "show more / show less" button. */
    method ToggleView()
      requires Valid()
      modifies this`visibleCount
      ensures Valid()
      ensures visibleCount == NextCount(old(visibleCount), |data|)
      ensures |Shown()| == Min(visibleCount, |data|)
    {
      if visibleCount >= |data| {
        visibleCount := PageSize;
      } else {
        visibleCount := visibleCount + PageSize;
      }
    }

    /** Add to cart: appends, never merges, and persists the new cart. */
    method AddToCart(product: Item)
      modifies this`cart, storage`cart
      ensures cart == old(cart) + [product]
      ensures |cart| == |old(cart)| + 1 && cart[..|old(cart)|] == old(cart)
      ensures storage.cart == Some(cart)
    {
      cart := cart + [product];
      storage.cart := Some(cart);
    }
  }
}
