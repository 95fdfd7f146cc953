/**
 The fixed option lists of the product page: sizes, colours, price presets and
 sort options, and the default custom price range.
 */
module Catalog {

  /** A price range as the page stores it: `[range[0], range[1]]`, whole units. */
  type Range = (int, int)

  /** The three sort options of the Sort dropdown. */
  datatype SortOption = NoSort | PriceAsc | PriceDesc {

    /** The string the option stands for in the filter state and the request. */
    function Value(): (v: string)
      ensures v in ["none", "price-asc", "price-desc"]
      ensures v == "none" <==> this == NoSort
    {
      match this
      case NoSort => "none"
      case PriceAsc => "price-asc"
      case PriceDesc => "price-desc"
    }
  }

  const SizeValues: seq<string> := ["S", "M", "L"]

  const ColorValues: seq<string> := ["white", "beige", "green", "blue", "purple"]

  /** "Any price", "Under 20" and "Under 40", in the order the radios are listed. */
  const PricePresets: seq<Range> := [(0, 100), (0, 20), (0, 40)]

  /** The index of a price preset radio. */
  type PresetIndex = i: nat | i < 3

  const DefaultCustomPrice: Range := (0, 100)

  /** Different sort options stand for different strings. */
  lemma SortValueInjective(a: SortOption, b: SortOption)
    ensures a.Value() == b.Value() <==> a == b
  {
  }

  /** The preset pairs are pairwise distinct, and each is an ordered range inside the default one. */
  lemma PresetsDistinct(i: PresetIndex, j: PresetIndex)
    ensures PricePresets[i] == PricePresets[j] <==> i == j
    ensures DefaultCustomPrice.0 <= PricePresets[i].0 <= PricePresets[i].1 <= DefaultCustomPrice.1
  {
  }
}
