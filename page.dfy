/**
 The `Home` page as a state machine: one `filter` slot that every event handler
 replaces through `setFilter` and follows with a call to the debounced submit.
 */
module Page {
  import opened Catalog
  import opened ArrayFilter
  import opened FilterState
  import opened View

  /** The user interactions that change the filter. */
  datatype Event =
    | CheckboxChange(sub: Subcategory, value: string)
    | SortClick(option: SortOption)
    | PresetChange(preset: PresetIndex)
    | CustomChange
    | SliderChange(newMin: int, newMax: int)

  /**
   Whether the page runs a handler for the event. A radio reports a change only
   when it becomes checked, and the slider is disabled outside custom mode.
   */
  predicate Delivered(s: ProductState, e: Event)
    ensures e.CheckboxChange? || e.SortClick? ==> Delivered(s, e)
    ensures e.PresetChange? ==> (Delivered(s, e) <==> !RadioChecked(s, e.preset))
    ensures e.CustomChange? ==> (Delivered(s, e) <==> !RadioChecked(s, |PricePresets|))
    ensures e.SliderChange? ==> (Delivered(s, e) <==> RadioChecked(s, |PricePresets|))
    ensures e.PresetChange? && !Delivered(s, e) ==> WithPreset(s, e.preset) == s
  {
    match e
    case PresetChange(i) => !RadioChecked(s, i)
    case CustomChange => !s.price.isCustom
    case SliderChange(_, _) => s.price.isCustom
    case _ => true
  }

  /** The snapshot after one event; an event that runs no handler changes nothing. */
  function Step(s: ProductState, e: Event): (r: ProductState)
    ensures !Delivered(s, e) ==> r == s
    ensures e.CustomChange? ==> r.price.isCustom
    ensures e.CustomChange? && !s.price.isCustom ==> r.price.range == DefaultCustomPrice
    ensures e.CustomChange? && s.price.isCustom ==> r.price.range == s.price.range
    ensures e.PresetChange? ==> r.price == Price(false, PricePresets[e.preset])
    ensures e.SliderChange? ==> r.price.isCustom == s.price.isCustom
    ensures e.SliderChange? && s.price.isCustom ==> r.price.range == (e.newMin, e.newMax)
    ensures e.SortClick? ==> r.sort == e.option
    ensures e.CheckboxChange? ==> Selected(r, e.sub) == Toggle(Selected(s, e.sub), e.value)
    ensures e.CheckboxChange? ==> (e.sub == Color ==> r.size == s.size) && (e.sub == Size ==> r.color == s.color)
    ensures !e.CheckboxChange? ==> r.color == s.color && r.size == s.size
    ensures !e.SortClick? ==> r.sort == s.sort
    ensures e.CheckboxChange? || e.SortClick? ==> r.price == s.price
  {
    if !Delivered(s, e) then s
    else match e
      case CheckboxChange(sub, value) => ToggleValue(s, sub, value)
      case SortClick(option) => WithSort(s, option)
      case PresetChange(i) => WithPreset(s, i)
      case CustomChange => WithCustom(s)
      case SliderChange(newMin, newMax) => WithDraggedRange(s, newMin, newMax)
  }

  /** The snapshot after a sequence of events, oldest first. */
  function Run(s: ProductState, events: seq<Event>): ProductState
    decreases |events|
  {
    if events == [] then s else Run(Step(s, events[0]), events[1..])
  }

  /** Every event keeps the invariant. */
  lemma StepValid(s: ProductState, e: Event)
    requires ValidState(s)
    ensures ValidState(Step(s, e))
  {
    if e.CheckboxChange? {
      ToggleValueValid(s, e.sub, e.value);
    }
  }

  /** Any sequence of events keeps the invariant. */
  lemma {:induction false} RunValid(s: ProductState, events: seq<Event>)
    requires ValidState(s)
    ensures ValidState(Run(s, events))
    decreases |events|
  {
    if events != [] {
      StepValid(s, events[0]);
      RunValid(Step(s, events[0]), events[1..]);
    }
  }

  /**
   Every snapshot the page can reach has duplicate-free lists, a consistent
   price, and exactly one checked price radio.
   */
  lemma Reachable(events: seq<Event>)
    ensures ValidState(Run(Default(), events))
    ensures exists i: nat :: i <= |PricePresets| && RadioChecked(Run(Default(), events), i)
    ensures forall i: nat, j: nat ::
      (i <= |PricePresets| && j <= |PricePresets| &&
       RadioChecked(Run(Default(), events), i) && RadioChecked(Run(Default(), events), j)) ==> i == j
  {
    DefaultValid();
    RunValid(Default(), events);
    var r := Run(Default(), events);
    var k := CheckedRadio(r);
    forall i: nat, j: nat | i <= |PricePresets| && j <= |PricePresets| && RadioChecked(r, i) && RadioChecked(r, j)
      ensures i == j
    {
      AtMostOneRadio(r, i, j);
    }
  }

  /** The page component: the `filter` state slot and whether a submit has been requested. */
  class Home {
    var filter: ProductState
    /** Set by every handler's `_debounceSubmit()`; cleared when the submit runs. */
    var submitRequested: bool

    ghost predicate Valid()
      reads this
    {
      ValidState(filter)
    }

    /** `useState` with the default snapshot. */
    constructor ()
      ensures Valid()
      ensures filter == Default() && !submitRequested
    {
      filter := Default();
      submitRequested := false;
      new;
      DefaultValid();
    }

    /** `applyArrayFilter`: toggles one colour or size, then requests a submit. */
    method ApplyArrayFilter(sub: Subcategory, value: string)
      requires Valid()
      modifies this
      ensures Valid()
      ensures filter == Step(old(filter), CheckboxChange(sub, value))
      ensures submitRequested
    {
      StepValid(filter, CheckboxChange(sub, value));
      var isFilterApplied := value in Selected(filter, sub);
      if isFilterApplied {
        filter := match sub
          case Color => filter.(color := Without(filter.color, value))
          case Size => filter.(size := Without(filter.size, value));
      } else {
        filter := match sub
          case Color => filter.(color := filter.color + [value])
          case Size => filter.(size := filter.size + [value]);
      }
      submitRequested := true;
    }

    /** A Sort dropdown item's `onClick`. */
    method SelectSort(option: SortOption)
      requires Valid()
      modifies this
      ensures Valid()
      ensures filter == Step(old(filter), SortClick(option))
      ensures submitRequested
    {
      filter := WithSort(filter, option);
      submitRequested := true;
    }

    /** A click on a price preset radio; its `onChange` runs only if it was not checked. */
    method SelectPreset(i: PresetIndex)
      requires Valid()
      modifies this
      ensures Valid()
      ensures filter == Step(old(filter), PresetChange(i))
      ensures submitRequested == (old(submitRequested) || !RadioChecked(old(filter), i))
    {
      if !RadioChecked(filter, i) {
        filter := WithPreset(filter, i);
        submitRequested := true;
      }
    }

    /** A click on the "Custom" radio; its `onChange` runs only if it was not checked. */
    method SelectCustom()
      requires Valid()
      modifies this
      ensures Valid()
      ensures filter == Step(old(filter), CustomChange)
      ensures submitRequested == (old(submitRequested) || !old(filter.price.isCustom))
    {
      if !filter.price.isCustom {
        filter := WithCustom(filter);
        submitRequested := true;
      }
    }

    /** The slider's `onValueChange`; a disabled slider delivers nothing. */
    method DragSlider(newMin: int, newMax: int)
      requires Valid()
      modifies this
      ensures Valid()
      ensures filter == Step(old(filter), SliderChange(newMin, newMax))
      ensures submitRequested == (old(submitRequested) || old(filter.price.isCustom))
    {
      if filter.price.isCustom {
        filter := WithDraggedRange(filter, newMin, newMax);
        submitRequested := true;
      }
    }

    /** `onSubmit` when the debounced call fires: the body `queryFn` posts, built from the current snapshot. */
    method Submit() returns (body: RequestBody)
      requires Valid()
      modifies this
      ensures Valid()
      ensures filter == old(filter) && !submitRequested
      ensures body == Project(filter)
    {
      body := Project(filter);
      submitRequested := false;
    }
  }
}
