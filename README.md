# Product filter state of the ecomm-filter product page

This project models the filter-state logic of the `Home` page component
(`src/app/page.tsx`) of a small shop front. The page keeps one filter snapshot
(`ProductState`): a list of selected colours, a list of selected sizes, a sort
option, and a price that is either one of three presets or a custom range set
with a slider. Every event handler replaces the snapshot with a new one built
from the previous one, then asks for a debounced re-fetch. On every render the
page derives values from the snapshot: the price label, which radio and
checkboxes are checked, the request body, and the results grid.

Modules, one per concern of the page:

- `Catalog` (catalog.dfy): the option constants `SIZE_FILTERS`, `COLOR_FILTERS`,
  `PRICE_FILTERS`, `SORT_OPTIONS` and `DEFAULT_CUSTOM_PRICE`. Prices are
  integers, and a range is the pair `(range[0], range[1])`.
- `ArrayFilter` (array_filter.dfy): the list operations behind the checkboxes.
  `Without` is `Array.filter(v => v !== value)`. `Toggle` removes every
  occurrence of a present value or appends an absent one.
- `FilterState` (filter_state.dfy): the snapshot, its default value, the
  invariant `ValidState`, and the pure updaters passed to `setFilter`.
- `View` (view.dfy): the derived values. These are `minFilterCustom` and
  `maxFilterCustom`, the price label, the radio and checkbox `checked`
  predicates, the request body, and the three-way results grid.
- `Page` (page.dfy): the events, `Step` and `Run` over them, and the class
  `Home`. `Home` holds the `filter` state slot and has one method per handler.

The invariant `ValidState` says three things: both lists are duplicate-free,
and a non-custom price range is one of the three preset pairs. `Page.Reachable`
proves that every snapshot reachable from the default satisfies it. So exactly
one price radio is checked in every reachable snapshot.

The model follows the code on these points:

- The colour and size lists are ordered arrays. Toggling appends at the end, so
  toggling a present value twice moves it to the end: the list is then a
  permutation of the original. Toggling an absent value twice restores the
  exact list.
- The default colour list is `white, blue, beige, green, purple`: the same five
  colours as the checkbox list, in a different order.
- The slider's change handler always sets `isCustom = true`. What stops it from
  leaving preset mode is the slider's `disabled` prop (line 338), not a check in
  the handler: a disabled slider delivers no event.
- A radio reports a change only when it becomes checked. A click on the price
  radio that is already checked runs no handler and requests no submit, so a
  second click on "Custom" keeps the dragged range. `Page.Delivered` states
  which events reach a handler.
- The query key is the constant `["products"]`. There is no per-filter cache
  key and no request sequence number, and the model adds neither.
- The request body never carries `isCustom`. So "Custom" before any drag sends
  the same body as "Any price" (`View.CustomSameRequestAsAnyPrice`).

## Model

| member | source | states |
|---|---|---|
| `Catalog.SortOption.Value` | src/app/page.tsx:62-66 | each sort option stands for one of "none", "price-asc", "price-desc", and "none" exactly for no sort |
| `Catalog.SortValueInjective` | src/app/page.tsx:62-66 | the three sort options stand for three different strings ("none", "price-asc", "price-desc") |
| `Catalog.PresetsDistinct` | src/app/page.tsx:40-48 | the three preset pairs are pairwise distinct and each is an ordered range inside `DEFAULT_CUSTOM_PRICE` |
| `ArrayFilter.Without` | src/app/page.tsx:116 | `filter(v => v !== value)` keeps exactly the elements different from `value` and never grows the list |
| `ArrayFilter.Toggle` | src/app/page.tsx:112-123 | membership of `value` flips, membership of every other value is unchanged, and an absent value is appended at the end |
| `ArrayFilter.WithoutAbsent` | src/app/page.tsx:116 | filtering out a value that does not occur returns the same list |
| `ArrayFilter.WithoutAppend` | src/app/page.tsx:116 | filtering distributes over concatenation, so the kept elements stay in order |
| `ArrayFilter.WithoutMultiset` | src/app/page.tsx:116 | filtering removes all occurrences of `value` and keeps the count of every other value |
| `ArrayFilter.WithoutNoDuplicates` | src/app/page.tsx:116 | filtering keeps a duplicate-free list duplicate-free |
| `ArrayFilter.NoDuplicatesCount` | src/app/page.tsx:112-123 | in a duplicate-free list a present value occurs exactly once |
| `ArrayFilter.ToggleNoDuplicates` | src/app/page.tsx:112-123 | toggling keeps a duplicate-free list duplicate-free |
| `ArrayFilter.DoubleToggleAbsent` | src/app/page.tsx:112-123 | toggling an absent value twice gives back exactly the original list |
| `ArrayFilter.DoubleTogglePresent` | src/app/page.tsx:112-123 | toggling a present value twice keeps the others in order and puts the value at the end; on a duplicate-free list the result is a permutation of the original |
| `FilterState.Default` | src/app/page.tsx:78-83 | the initial snapshot selects all five colours and sizes S/M/L, has no sort, and has preset 0 (`[0, 100]`, not custom) as its price |
| `FilterState.ToggleValue` | src/app/page.tsx:105-123 | the chosen list has `value` removed if it was there and appended if not; the other list, the sort and the price are copied unchanged |
| `FilterState.WithSort` | src/app/page.tsx:162 | the sort becomes the clicked option; colours, sizes and price are unchanged |
| `FilterState.WithPreset` | src/app/page.tsx:272-279 | the price leaves custom mode with the preset's pair, which satisfies the price invariant; the other fields are unchanged |
| `FilterState.WithCustom` | src/app/page.tsx:302-309 | the price enters custom mode with the full default range; the other fields are unchanged |
| `FilterState.WithDraggedRange` | src/app/page.tsx:339-344 | the price is custom with the dragged pair in the slider's order; the other fields are unchanged |
| `FilterState.DefaultColors` | src/app/page.tsx:79 | the default colour list is duplicate-free and holds the same five colours as the colour checkboxes |
| `FilterState.DefaultValid` | src/app/page.tsx:78-83 | the default snapshot satisfies the invariant, selects every colour and every size, and its price is preset 0, not custom |
| `FilterState.ToggleValueValid` | src/app/page.tsx:112-123 | a checkbox toggle keeps the invariant |
| `FilterState.DoubleToggleRestores` | src/app/page.tsx:112-123 | toggling an absent value twice restores the whole snapshot |
| `FilterState.CustomAfterPresets` | src/app/page.tsx:302-309 | "Custom" after any two preset clicks gives custom mode with `[0, 100]`, the same snapshot as "Custom" straight away |
| `View.MinFilterCustom` | src/app/page.tsx:129-132 | the result is one of the two stored ends and no larger than either |
| `View.MaxFilterCustom` | src/app/page.tsx:133-136 | the result is one of the two stored ends and no smaller than either |
| `View.DisplayedBounds` | src/app/page.tsx:327-333 | the label shows the two stored numbers; in custom mode low ≤ high, otherwise the stored pair as it is |
| `View.DisplayedBoundsOrdered` | src/app/page.tsx:327-333 | in a consistent snapshot the price label is ordered (low ≤ high) and shows the two stored numbers; an inverted drag shows the same label as the ordered one |
| `View.RadioChecked` | src/app/page.tsx:282-312 | a checked radio is the "Custom" one exactly in custom mode, and a checked preset radio's pair equals the stored range |
| `View.AtMostOneRadio` | src/app/page.tsx:282-312 | two checked price radios are the same radio |
| `View.CheckedRadio` | src/app/page.tsx:282-312 | in a consistent snapshot exactly one price radio is checked: "Custom" iff `isCustom`, else the preset equal to the range |
| `View.DefaultBoxesChecked` | src/app/page.tsx:212 | on the initial page every colour and size checkbox (`includes` on the selected list) is checked |
| `View.ToggleFlipsBox` | src/app/page.tsx:206-212 | toggling flips the clicked checkbox and leaves every other colour and size checkbox as it was |
| `View.Project` | src/app/page.tsx:91-96 | the request carries the snapshot's sort string, colours, sizes and range, and the sort is one of the three option strings |
| `View.ProjectEqual` | src/app/page.tsx:91-96 | two snapshots give the same request exactly when they agree on sort, colours, sizes and range |
| `View.CustomSameRequestAsAnyPrice` | src/app/page.tsx:302-309 | "Custom" and "Any price" differ as snapshots but send the same request |
| `View.DefaultRequest` | src/app/page.tsx:78-96 | the first request carries all five colours, sizes S/M/L, sort "none" and price `[0, 100]` |
| `View.Results` | src/app/page.tsx:367-377 | an empty answer shows the empty-state notice, an answer with hits shows one card per hit in order, and no answer shows exactly twelve skeletons keyed 0 to 11 |
| `Page.Delivered` | src/app/page.tsx:282-338 | checkbox and sort clicks always run their handler; a preset click runs it exactly when that radio is unchecked, a "Custom" click exactly when the custom radio is unchecked, and a drag exactly when the custom radio is checked (the slider is enabled); a skipped preset click would not have changed the snapshot anyway |
| `Page.Step` | src/app/page.tsx:105-346 | an event that reaches no handler changes nothing; a checkbox event toggles its list and keeps the other; a sort click sets the sort; a preset click gives that preset; "Custom" gives custom mode and resets the range only when coming from a preset; a drag in custom mode stores `(newMin, newMax)` and a drag never switches custom mode on or off; every event leaves the fields it does not own unchanged |
| `Page.StepValid` | src/app/page.tsx:105-346 | every handler keeps the invariant |
| `Page.RunValid` | src/app/page.tsx:105-346 | any sequence of handler calls keeps the invariant |
| `Page.Reachable` | src/app/page.tsx:78-83 | every snapshot reachable from the default is consistent, some price radio is checked in it, and any two checked price radios are the same one |
| `Page.Home.constructor` | src/app/page.tsx:78-83 | the state slot starts with the default snapshot |
| `Page.Home.ApplyArrayFilter` | src/app/page.tsx:105-125 | checks membership, then removes or appends the value, keeps the invariant, and requests a submit |
| `Page.Home.SelectSort` | src/app/page.tsx:161-163 | replaces the sort and requests a submit |
| `Page.Home.SelectPreset` | src/app/page.tsx:272-286 | selects the preset and requests a submit, unless that radio was already checked, in which case nothing happens |
| `Page.Home.SelectCustom` | src/app/page.tsx:302-312 | from preset mode, selects custom mode with `[0, 100]` and requests a submit; in custom mode the click changes nothing |
| `Page.Home.DragSlider` | src/app/page.tsx:336-346 | stores the dragged pair and requests a submit only in custom mode; otherwise nothing happens |
| `Page.Home.Submit` | src/app/page.tsx:85-103 | returns the request body of the current snapshot and leaves the snapshot unchanged |

## Left out

- Debouncing: the 400 ms `lodash.debounce` timer (lines 126-127) is library timing. The model only records that every handler requests a submit (`Home.submitRequested`). `Home.Submit` stands for the moment the timer fires.
- Fetching and caching: `useQuery` with the constant key `["products"]` and `axios.post` (lines 85-101) are network I/O and a foreign cache. `Home.Submit` returns the body that would be posted. Responses, request ordering and transport failure are not modelled. The results grid takes the query's data as a parameter.
- Markup and widgets: the JSX, the dropdown, accordion and `Slider` internals, `cn` styling, the sort item highlight (lines 156-159) and the sub-category buttons (lines 68-73, 183-192) are presentation.
- The `ProductsSkeleton` and `EmptyState` components are static markup. They appear only as the `Skeletons` and `EmptyState` cases of `View.Results`.
- Floating point: `toFixed(0)`, the slider's `step={4}` and its bounds are left out, and prices are integers. So `Home.DragSlider` accepts any pair of integers, not only multiples of 4 within `[0, 100]`.
- The slider's `value` prop (lines 347-351) is presentation and is not modelled.
- Logging: `console.log(filter)` (line 138) is a side effect only.
- The `ProductState` validator and the `Product` type live in files that are not part of this model. Colours and sizes are plain strings, and `metadata` is an optional value passed through unchanged. The `!` on `product.metadata!` has no effect at run time.
- `isFilterApplied` is read from the rendered `filter`, while the update uses `prev`. The model reads both from one snapshot, because each discrete event is rendered before the next one arrives.
