/** Sorting distinct values, as `sorted(series.unique())` and pandas'
    sorted `groupby` keys produce them, under Python's ordering of strings
    and of (state, district) tuples. */
module Ordering {
  import opened Text

  ghost predicate IsStrictTotalOrder<T(!new)>(less: (T, T) -> bool) {
    && (forall x :: !less(x, x))
    && (forall x, y, z :: less(x, y) && less(y, z) ==> less(x, z))
    && (forall x, y :: x != y ==> less(x, y) || less(y, x))
  }

  /** Ascending with no repeats. */
  predicate StrictlySorted<T>(xs: seq<T>, less: (T, T) -> bool) {
    forall i, j :: 0 <= i < j < |xs| ==> less(xs[i], xs[j])
  }

  /** `x` put in its place in the strictly sorted `xs`, unless already there. */
  function Insert<T(==,!new)>(xs: seq<T>, x: T, less: (T, T) -> bool): (r: seq<T>)
    requires IsStrictTotalOrder(less) && StrictlySorted(xs, less)
    ensures StrictlySorted(r, less)
    ensures forall y :: y in r <==> y in xs || y == x
  {
    if xs == [] then [x]
    else if x == xs[0] then xs
    else if less(x, xs[0]) then [x] + xs
    else
      var rest := Insert(xs[1..], x, less);
      assert forall y :: y in rest ==> less(xs[0], y);
      [xs[0]] + rest
  }

  /** The distinct elements of `xs` in ascending order. */
  function SortedDistinct<T(==,!new)>(xs: seq<T>, less: (T, T) -> bool): (r: seq<T>)
    requires IsStrictTotalOrder(less)
    ensures StrictlySorted(r, less)
    ensures forall y :: y in r <==> y in xs
  {
    if xs == [] then []
    else Insert(SortedDistinct(xs[..|xs| - 1], less), xs[|xs| - 1], less)
  }

  lemma StrLessIsStrictTotalOrder()
    ensures IsStrictTotalOrder(StrLess)
  {
    forall x: string
      ensures !StrLess(x, x)
    {
      StrLessIrreflexive(x);
    }
    forall x: string, y: string, z: string | StrLess(x, y) && StrLess(y, z)
      ensures StrLess(x, z)
    {
      StrLessTransitive(x, y, z);
    }
    forall x: string, y: string | x != y
      ensures StrLess(x, y) || StrLess(y, x)
    {
      StrLessTotal(x, y);
    }
  }

  /** Python's `<` on (state, district) tuples: by state, then by district. */
  predicate PairLess(a: (string, string), b: (string, string)) {
    StrLess(a.0, b.0) || (a.0 == b.0 && StrLess(a.1, b.1))
  }

  lemma PairLessIsStrictTotalOrder()
    ensures IsStrictTotalOrder(PairLess)
  {
    StrLessIsStrictTotalOrder();
  }

  /** `sorted(set(xs))` on strings: ascending, each once. */
  function SortStrings(xs: seq<string>): (r: seq<string>)
    ensures StrictlySorted(r, StrLess)
    ensures forall y :: y in r <==> y in xs
  {
    StrLessIsStrictTotalOrder();
    SortedDistinct(xs, StrLess)
  }
}
