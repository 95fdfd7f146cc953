/**
 The filter snapshot of the product page (`ProductState`) and the updaters the
 event handlers pass to `setFilter`. Each updater builds a new snapshot from the
 previous one and copies the fields it does not own unchanged (`...prev`).
 */
module FilterState {
  import opened Catalog
  import opened ArrayFilter

  /** `price`: whether the custom slider is in use, and the range sent to the backend. */
  datatype Price = Price(isCustom: bool, range: Range)

  datatype ProductState = ProductState(
    color: seq<string>,
    size: seq<string>,
    sort: SortOption,
    price: Price)

  /** The two list-valued fields a checkbox can toggle. */
  datatype Subcategory = Color | Size

  /** The snapshot the page starts from: every colour and size, no sort, "Any price". */
  function Default(): (s: ProductState)
    ensures multiset(s.color) == multiset(ColorValues)
    ensures s.size == SizeValues
    ensures s.sort == NoSort
    ensures s.price == Price(false, PricePresets[0])
  {
    ProductState(
      ["white", "blue", "beige", "green", "purple"],
      ["S", "M", "L"],
      NoSort,
      Price(false, DefaultCustomPrice))
  }

  /** `filter[subcategory]`. */
  function Selected(s: ProductState, sub: Subcategory): seq<string>
  {
    match sub
    case Color => s.color
    case Size => s.size
  }

  /** A price is consistent when a non-custom range is one of the preset pairs. */
  predicate ValidPrice(p: Price)
  {
    !p.isCustom ==> p.range in PricePresets
  }

  /** The invariant every reachable snapshot keeps. */
  predicate ValidState(s: ProductState)
  {
    NoDuplicates(s.color) && NoDuplicates(s.size) && ValidPrice(s.price)
  }

  /** The updater of `applyArrayFilter`: toggles `value` in the chosen list only. */
  function ToggleValue(s: ProductState, sub: Subcategory, value: string): (r: ProductState)
    ensures value in Selected(r, sub) <==> value !in Selected(s, sub)
    ensures forall x :: x != value ==> (x in Selected(r, sub) <==> x in Selected(s, sub))
    ensures value in Selected(s, sub) ==> Selected(r, sub) == Without(Selected(s, sub), value)
    ensures value !in Selected(s, sub) ==> Selected(r, sub) == Selected(s, sub) + [value]
    ensures sub == Color ==> r.size == s.size
    ensures sub == Size ==> r.color == s.color
    ensures r.sort == s.sort && r.price == s.price
  {
    match sub
    case Color => s.(color := Toggle(s.color, value))
    case Size => s.(size := Toggle(s.size, value))
  }

  /** The updater of a Sort dropdown item. */
  function WithSort(s: ProductState, option: SortOption): (r: ProductState)
    ensures r.sort == option
    ensures r.color == s.color && r.size == s.size && r.price == s.price
  {
    s.(sort := option)
  }

  /** The updater of a price preset radio: leaves custom mode with the preset's pair. */
  function WithPreset(s: ProductState, i: PresetIndex): (r: ProductState)
    ensures !r.price.isCustom && r.price.range == PricePresets[i]
    ensures ValidPrice(r.price)
    ensures r.color == s.color && r.size == s.size && r.sort == s.sort
  {
    s.(price := Price(false, PricePresets[i]))
  }

  /** The updater of the "Custom" radio: custom mode, range reset to the full default. */
  function WithCustom(s: ProductState): (r: ProductState)
    ensures r.price.isCustom && r.price.range == DefaultCustomPrice
    ensures r.color == s.color && r.size == s.size && r.sort == s.sort
  {
    s.(price := Price(true, (0, 100)))
  }

  /** The updater of the slider: custom mode with the dragged pair, in the order the slider gives. */
  function WithDraggedRange(s: ProductState, newMin: int, newMax: int): (r: ProductState)
    ensures r.price.isCustom && r.price.range.0 == newMin && r.price.range.1 == newMax
    ensures r.color == s.color && r.size == s.size && r.sort == s.sort
  {
    s.(price := Price(true, (newMin, newMax)))
  }

  /** The default colour list names each of the five colours once. */
  lemma DefaultColors()
    ensures NoDuplicates(Default().color)
    ensures multiset(Default().color) == multiset(ColorValues)
  {
  }

  /** The default snapshot satisfies the invariant and selects every colour and size. */
  lemma DefaultValid()
    ensures ValidState(Default())
    ensures multiset(Default().color) == multiset(ColorValues)
    ensures Default().size == SizeValues
    ensures Default().price == Price(false, PricePresets[0])
  {
  }

  /** Toggling keeps both lists duplicate-free and the price consistent. */
  lemma ToggleValueValid(s: ProductState, sub: Subcategory, value: string)
    requires ValidState(s)
    ensures ValidState(ToggleValue(s, sub, value))
  {
    ToggleNoDuplicates(Selected(s, sub), value);
  }

  /** Toggling an absent value twice restores the snapshot exactly. */
  lemma DoubleToggleRestores(s: ProductState, sub: Subcategory, value: string)
    requires value !in Selected(s, sub)
    ensures ToggleValue(ToggleValue(s, sub, value), sub, value) == s
  {
    DoubleToggleAbsent(Selected(s, sub), value);
  }

  /**
   Choosing "Custom" forgets whatever preset was chosen before: after any two
   preset clicks, "Custom" gives the full default range.
   */
  lemma CustomAfterPresets(s: ProductState, i: PresetIndex, j: PresetIndex)
    ensures WithCustom(WithPreset(WithPreset(s, i), j)) == WithCustom(s)
    ensures WithCustom(s).price == Price(true, DefaultCustomPrice)
  {
  }
}
