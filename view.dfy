/**
 Values the page derives from the current snapshot on every render: the price
 bounds shown above the slider, which radio and checkboxes are checked, the body
 of the search request, and what the results grid shows.
 */
module View {
  import opened Catalog
  import opened FilterState

  datatype Option<T> = None | Some(value: T)

  /** `minFilterCustom`: the smaller end of the stored range, whichever order it is in. */
  function MinFilterCustom(s: ProductState): (m: int)
    ensures m <= s.price.range.0 && m <= s.price.range.1
    ensures m == s.price.range.0 || m == s.price.range.1
  {
    if s.price.range.0 <= s.price.range.1 then s.price.range.0 else s.price.range.1
  }

  /** `maxFilterCustom`: the larger end of the stored range. */
  function MaxFilterCustom(s: ProductState): (m: int)
    ensures m >= s.price.range.0 && m >= s.price.range.1
    ensures m == s.price.range.0 || m == s.price.range.1
  {
    if s.price.range.0 >= s.price.range.1 then s.price.range.0 else s.price.range.1
  }

  /**
   The "low - high" label beside "Price": normalised bounds in custom mode, the
   stored pair as it is otherwise.
   */
  function DisplayedBounds(s: ProductState): (b: Range)
    ensures s.price.isCustom ==> b.0 <= b.1
    ensures multiset{b.0, b.1} == multiset{s.price.range.0, s.price.range.1}
    ensures !s.price.isCustom ==> b == s.price.range
  {
    if s.price.isCustom then (MinFilterCustom(s), MaxFilterCustom(s)) else s.price.range
  }

  /**
   The label is ordered in every consistent snapshot, shows the same two numbers
   as the stored range, and a custom label is unaffected by the order of the drag.
   */
  lemma DisplayedBoundsOrdered(s: ProductState)
    requires ValidPrice(s.price)
    ensures DisplayedBounds(s).0 <= DisplayedBounds(s).1
    ensures multiset{DisplayedBounds(s).0, DisplayedBounds(s).1}
         == multiset{s.price.range.0, s.price.range.1}
    ensures s.price.isCustom ==>
      DisplayedBounds(s) == DisplayedBounds(s.(price := Price(true, (s.price.range.1, s.price.range.0))))
  {
  }

  /** The `checked` state of price radio `i`: presets are 0 to 2, "Custom" is 3. */
  predicate RadioChecked(s: ProductState, i: nat)
    requires i <= |PricePresets|
    ensures RadioChecked(s, i) ==> (i == |PricePresets| <==> s.price.isCustom)
    ensures RadioChecked(s, i) && i < |PricePresets| ==> s.price.range == PricePresets[i]
  {
    if i < |PricePresets| then
      !s.price.isCustom &&
      s.price.range.0 == PricePresets[i].0 &&
      s.price.range.1 == PricePresets[i].1
    else
      s.price.isCustom
  }

  /** Two checked radios are the same radio. */
  lemma AtMostOneRadio(s: ProductState, i: nat, j: nat)
    requires i <= |PricePresets| && j <= |PricePresets|
    requires RadioChecked(s, i) && RadioChecked(s, j)
    ensures i == j
  {
  }

  /** In a consistent snapshot exactly one price radio is checked; this is its index. */
  function CheckedRadio(s: ProductState): (i: nat)
    requires ValidPrice(s.price)
    ensures i <= |PricePresets| && RadioChecked(s, i)
    ensures forall j: nat :: j <= |PricePresets| && RadioChecked(s, j) ==> j == i
  {
    var i :=
      if s.price.isCustom then 3
      else if s.price.range == PricePresets[0] then 0
      else if s.price.range == PricePresets[1] then 1
      else 2;
    assert forall j: nat :: j <= |PricePresets| && RadioChecked(s, j) ==> j == i by {
      forall j: nat | j <= |PricePresets| && RadioChecked(s, j) ensures j == i {
        AtMostOneRadio(s, i, j);
      }
    }
    i
  }

  /** The `checked` state of the checkbox for `value` in a colour or size list. */
  predicate BoxChecked(s: ProductState, sub: Subcategory, value: string)
  {
    value in Selected(s, sub)
  }

  /** On the initial page every colour and size checkbox is checked. */
  lemma DefaultBoxesChecked(sub: Subcategory, value: string)
    requires value in (if sub == Color then ColorValues else SizeValues)
    ensures BoxChecked(Default(), sub, value)
  {
  }

  /** Toggling flips exactly the clicked checkbox and leaves every other checkbox as it was. */
  lemma ToggleFlipsBox(s: ProductState, sub: Subcategory, value: string, other: Subcategory, x: string)
    ensures BoxChecked(ToggleValue(s, sub, value), other, x) ==
      if other == sub && x == value then !BoxChecked(s, other, x) else BoxChecked(s, other, x)
  {
  }

  /** The `filter` object posted to the products endpoint. */
  datatype FilterPayload = FilterPayload(sort: string, color: seq<string>, size: seq<string>, price: Range)

  datatype RequestBody = RequestBody(filter: FilterPayload)

  /** The request body projected from a snapshot; the custom flag is not sent. */
  function Project(s: ProductState): (b: RequestBody)
    ensures b.filter.color == s.color && b.filter.size == s.size
    ensures b.filter.price == s.price.range
    ensures b.filter.sort == s.sort.Value()
    ensures b.filter.sort in ["none", "price-asc", "price-desc"]
  {
    RequestBody(FilterPayload(s.sort.Value(), s.color, s.size, s.price.range))
  }

  /**
   Two snapshots give the same request exactly when they agree on sort, colours,
   sizes and range; whether the range came from a preset or the slider is lost.
   */
  lemma ProjectEqual(s: ProductState, t: ProductState)
    ensures Project(s) == Project(t) <==>
      s.sort == t.sort && s.color == t.color && s.size == t.size && s.price.range == t.price.range
  {
  }

  /** "Any price" and "Custom" before any drag send the same request. */
  lemma CustomSameRequestAsAnyPrice(s: ProductState)
    ensures Project(WithCustom(s)) == Project(WithPreset(s, 0))
    ensures WithCustom(s) != WithPreset(s, 0)
  {
  }

  /** The request of the initial page: every colour and size, no sort, the full price range. */
  lemma DefaultRequest()
    ensures Project(Default()) ==
      RequestBody(FilterPayload("none", ["white", "blue", "beige", "green", "purple"], SizeValues, (0, 100)))
    ensures multiset(Project(Default()).filter.color) == multiset(ColorValues)
  {
  }

  /** One search hit as the backend returns it; `metadata` may be missing. */
  datatype QueryResult<M> = QueryResult(id: string, metadata: Option<M>)

  /** What the results grid shows. */
  datatype ResultsView<M> =
    | EmptyState
    | ProductList(cards: seq<ProductCard<M>>)
    | Skeletons(keys: seq<nat>)

  /** One `Product` card: its React key and the metadata handed to it. */
  datatype ProductCard<M> = ProductCard(key: string, product: Option<M>)

  /**
   The results grid: the empty-state notice for an empty answer, one card per
   hit in order, or twelve skeletons while no answer is there.
   */
  function Results<M>(products: Option<seq<QueryResult<M>>>): (v: ResultsView<M>)
    ensures v.EmptyState? <==> products.Some? && |products.value| == 0
    ensures v.Skeletons? <==> products.None?
    ensures v.Skeletons? ==> |v.keys| == 12 && forall k :: 0 <= k < 12 ==> v.keys[k] == k
    ensures v.ProductList? ==>
      |v.cards| == |products.value| > 0 &&
      forall k :: 0 <= k < |v.cards| ==>
        v.cards[k] == ProductCard(products.value[k].id, products.value[k].metadata)
  {
    if products.Some? && |products.value| == 0 then EmptyState
    else if products.Some? then
      ProductList(seq(|products.value|, k requires 0 <= k < |products.value| =>
        ProductCard(products.value[k].id, products.value[k].metadata)))
    else Skeletons(seq(12, k => k))
  }
}
