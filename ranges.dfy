/** Sizes of integer ranges, used to count outcomes over a range of draws or calls. */
module IntRanges {

  /** The bound a <= k < b as a function term, only so that the set
      comprehension in Range has a trigger to instantiate on. */
  predicate Within(a: int, k: int, b: int)
  {
    a <= k < b
  }

  function Range(a: int, b: int): set<int>
  {
    set k | a <= k < b && Within(a, k, b)
  }

  lemma {:induction false} RangeSize(a: int, b: int)
    ensures |Range(a, b)| == if a <= b then b - a else 0
    decreases b - a
  {
    if a < b {
      RangeSize(a, b - 1);
      assert Range(a, b) == Range(a, b - 1) + {b - 1};
    } else {
      assert Range(a, b) == {};
    }
  }
}
