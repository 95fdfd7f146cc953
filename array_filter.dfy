/**
 The list operations behind the colour and size checkboxes: `Array.filter` that
 drops a value, and the toggle that either drops a present value or appends an
 absent one.
 */
module ArrayFilter {

  /** No value occurs twice in `xs`. */
  predicate NoDuplicates(xs: seq<string>)
  {
    forall i, j :: 0 <= i < j < |xs| ==> xs[i] != xs[j]
  }

  /** `xs.filter((v) => v !== value)`: every occurrence of `value` removed, the rest kept in order. */
  function Without(xs: seq<string>, value: string): (r: seq<string>)
    ensures |r| <= |xs|
    ensures forall x :: x in r <==> x in xs && x != value
  {
    if xs == [] then []
    else if xs[0] == value then Without(xs[1..], value)
    else [xs[0]] + Without(xs[1..], value)
  }

  /**
   The checkbox toggle: a present value is removed (every occurrence), an absent
   one is appended at the end.
   */
  function Toggle(xs: seq<string>, value: string): (r: seq<string>)
    ensures value in r <==> value !in xs
    ensures forall x :: x != value ==> (x in r <==> x in xs)
    ensures value !in xs ==> r == xs + [value]
  {
    if value in xs then Without(xs, value) else xs + [value]
  }

  /** Filtering out a value that does not occur changes nothing. */
  lemma {:induction false} WithoutAbsent(xs: seq<string>, value: string)
    requires value !in xs
    ensures Without(xs, value) == xs
  {
    if xs != [] {
      WithoutAbsent(xs[1..], value);
    }
  }

  /** Filtering distributes over concatenation, so it keeps the order of what it keeps. */
  lemma {:induction false} WithoutAppend(xs: seq<string>, ys: seq<string>, value: string)
    ensures Without(xs + ys, value) == Without(xs, value) + Without(ys, value)
  {
    if xs == [] {
      assert xs + ys == ys;
    } else {
      assert (xs + ys)[0] == xs[0];
      assert (xs + ys)[1..] == xs[1..] + ys;
      WithoutAppend(xs[1..], ys, value);
    }
  }

  /** Filtering removes exactly the occurrences of `value` and keeps the count of every other value. */
  lemma {:induction false} WithoutMultiset(xs: seq<string>, value: string)
    ensures multiset(Without(xs, value)) == multiset(xs)[value := 0]
  {
    if xs != [] {
      WithoutMultiset(xs[1..], value);
      assert xs == [xs[0]] + xs[1..];
    }
  }

  /** Filtering keeps a duplicate-free list duplicate-free. */
  lemma {:induction false} WithoutNoDuplicates(xs: seq<string>, value: string)
    requires NoDuplicates(xs)
    ensures NoDuplicates(Without(xs, value))
  {
    if xs != [] {
      WithoutNoDuplicates(xs[1..], value);
      if xs[0] != value {
        var r := Without(xs[1..], value);
        assert xs[0] !in xs[1..];
        assert xs[0] !in r;
        assert forall i :: 0 < i < |[xs[0]] + r| ==> ([xs[0]] + r)[i] == r[i - 1];
      }
    }
  }

  /** In a duplicate-free list a present value occurs exactly once. */
  lemma {:induction false} NoDuplicatesCount(xs: seq<string>, value: string)
    requires NoDuplicates(xs)
    ensures multiset(xs)[value] == if value in xs then 1 else 0
  {
    if xs != [] {
      NoDuplicatesCount(xs[1..], value);
      assert xs == [xs[0]] + xs[1..];
      assert xs[0] !in xs[1..];
    }
  }

  /** Toggling keeps a duplicate-free list duplicate-free. */
  lemma ToggleNoDuplicates(xs: seq<string>, value: string)
    requires NoDuplicates(xs)
    ensures NoDuplicates(Toggle(xs, value))
  {
    if value in xs {
      WithoutNoDuplicates(xs, value);
    }
  }

  /** Toggling an absent value twice gives back exactly the original list. */
  lemma DoubleToggleAbsent(xs: seq<string>, value: string)
    requires value !in xs
    ensures Toggle(Toggle(xs, value), value) == xs
  {
    WithoutAppend(xs, [value], value);
    WithoutAbsent(xs, value);
    assert Without([value], value) == [];
  }

  /**
   Toggling a present value twice keeps the other values in their order and puts
   `value` once at the end; on a duplicate-free list that is a permutation.
   */
  lemma DoubleTogglePresent(xs: seq<string>, value: string)
    requires value in xs
    ensures Toggle(Toggle(xs, value), value) == Without(xs, value) + [value]
    ensures NoDuplicates(xs) ==> multiset(Toggle(Toggle(xs, value), value)) == multiset(xs)
  {
    if NoDuplicates(xs) {
      WithoutMultiset(xs, value);
      NoDuplicatesCount(xs, value);
      assert multiset(xs)[value := 0] + multiset{value} == multiset(xs);
    }
  }
}
