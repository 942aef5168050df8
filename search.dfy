/** `ChartDrawable.indexOfClosest` over the JDK's `Arrays.binarySearch`, and
    the resolution of the first visible point in `draw`. Floats are reals, so
    NaN and the ordering of -0.0 and 0.0 are not modelled. */
module Search {
  import opened JavaLang

  /** `a` is ascending on `[from, to)`. */
  predicate Ascending(a: seq<real>, from: int, to: int)
    requires 0 <= from <= to <= |a|
  {
    forall j, k :: from <= j < k < to ==> a[j] <= a[k]
  }

  /** `a` is strictly ascending on `[from, to)`. */
  predicate StrictlyAscending(a: seq<real>, from: int, to: int)
    requires 0 <= from <= to <= |a|
  {
    forall j, k :: from <= j < k < to ==> a[j] < a[k]
  }

  /** The loop of `Arrays.binarySearch(a, fromIndex, toIndex, key)` from the
      bounds `low` and `high`. */
  function SearchLoop(a: seq<real>, from: int, to: int, low: int, high: int, key: real): int
    requires 0 <= from <= low && low <= high + 1 && high < to <= |a|
    decreases high - low + 1
  {
    if low > high then -(low + 1)
    else
      var mid := (low + high) / 2;
      if a[mid] < key then SearchLoop(a, from, to, mid + 1, high, key)
      else if a[mid] > key then SearchLoop(a, from, to, low, mid - 1, key)
      else mid
  }

  /** Whatever the order of the elements, the loop answers an index in
      `[low, high]` or an insertion point in `[low, high + 1]`. */
  lemma {:induction false} SearchLoopRange(a: seq<real>, from: int, to: int, low: int, high: int, key: real)
    requires 0 <= from <= low && low <= high + 1 && high < to <= |a|
    ensures var r := SearchLoop(a, from, to, low, high, key);
            (r >= 0 ==> low <= r <= high) && (r < 0 ==> low <= -r - 1 <= high + 1)
    decreases high - low + 1
  {
    if low <= high {
      var mid := (low + high) / 2;
      if a[mid] < key {
        SearchLoopRange(a, from, to, mid + 1, high, key);
      } else if a[mid] > key {
        SearchLoopRange(a, from, to, low, mid - 1, key);
      }
    }
  }

  /** `Arrays.binarySearch(a, fromIndex, toIndex, key)`: the index of a
      matching element, or `-(insertion point) - 1`. */
  function BinarySearch(a: seq<real>, from: int, to: int, key: real): int
    requires 0 <= from <= to <= |a|
  {
    SearchLoop(a, from, to, from, to - 1, key)
  }

  /** Everything in `[from, low)` is below the key and everything in
      `(high, to)` above it. */
  predicate Partitioned(a: seq<real>, from: int, to: int, low: int, high: int, key: real)
    requires 0 <= from <= low && low <= high + 1 && high < to <= |a|
  {
    (forall k :: from <= k < low ==> a[k] < key) && (forall k :: high < k < to ==> a[k] > key)
  }

  /** What the search promises about its result `r` on `[from, to)`. */
  predicate SearchResultOk(a: seq<real>, from: int, to: int, r: int, key: real)
    requires 0 <= from <= to <= |a|
  {
    (r >= 0 ==> from <= r < to && a[r] == key) &&
    (r < 0 ==> from <= -r - 1 <= to && Partitioned(a, from, to, -r - 1, -r - 2, key))
  }

  /** On an ascending range the loop keeps everything left of `low` below
      the key and everything right of `high` above it, so it finds a match,
      or stops at the insertion point. */
  lemma {:induction false} SearchLoopSpec(a: seq<real>, from: int, to: int, low: int, high: int, key: real)
    requires 0 <= from <= low && low <= high + 1 && high < to <= |a|
    requires Ascending(a, from, to)
    requires Partitioned(a, from, to, low, high, key)
    ensures SearchResultOk(a, from, to, SearchLoop(a, from, to, low, high, key), key)
    decreases high - low + 1
  {
    if low <= high {
      var mid := (low + high) / 2;
      if a[mid] < key {
        LeftOfSmallerIsSmaller(a, from, to, low, high, mid, key);
        SearchLoopSpec(a, from, to, mid + 1, high, key);
      } else if a[mid] > key {
        RightOfGreaterIsGreater(a, from, to, low, high, mid, key);
        SearchLoopSpec(a, from, to, low, mid - 1, key);
      }
    }
  }

  lemma LeftOfSmallerIsSmaller(a: seq<real>, from: int, to: int, low: int, high: int, mid: int, key: real)
    requires 0 <= from <= low <= mid <= high < to <= |a|
    requires Ascending(a, from, to) && Partitioned(a, from, to, low, high, key) && a[mid] < key
    ensures Partitioned(a, from, to, mid + 1, high, key)
  {
    forall k | from <= k < mid + 1 ensures a[k] < key {
      if k >= low { assert a[k] <= a[mid]; }
    }
  }

  lemma RightOfGreaterIsGreater(a: seq<real>, from: int, to: int, low: int, high: int, mid: int, key: real)
    requires 0 <= from <= low <= mid <= high < to <= |a|
    requires Ascending(a, from, to) && Partitioned(a, from, to, low, high, key) && a[mid] > key
    ensures Partitioned(a, from, to, low, mid - 1, key)
  {
    forall k | mid - 1 < k < to ensures a[k] > key {
      if k <= high { assert a[mid] <= a[k]; }
    }
  }

  /** `indexOfClosest(haystack, fromIndex, toIndex, needle)`: an exact hit, or
      the insertion point pulled back by one when it is `toIndex`. */
  function IndexOfClosest(haystack: seq<real>, from: int, to: int, needle: real): int
    requires 0 <= from <= to <= |haystack|
  {
    var index := BinarySearch(haystack, from, to, needle);
    if index >= 0 then index
    else
      var ip := -index - 1;
      if ip == to then ip - 1 else ip
  }

  /** On a non-empty range the result is an index of the range, whatever the
      order of its elements. */
  lemma IndexOfClosestInRange(haystack: seq<real>, from: int, to: int, needle: real)
    requires 0 <= from < to <= |haystack|
    ensures from <= IndexOfClosest(haystack, from, to, needle) < to
  {
    SearchLoopRange(haystack, from, to, from, to - 1, needle);
  }

  /** On an ascending non-empty range: a needle that occurs is found; a
      needle above every element gives the last index; otherwise the result
      is the insertion point, the first element above the needle. */
  lemma IndexOfClosestSpec(haystack: seq<real>, from: int, to: int, needle: real)
    requires 0 <= from < to <= |haystack| && Ascending(haystack, from, to)
    ensures var r := IndexOfClosest(haystack, from, to, needle);
            && from <= r < to
            && ((exists k :: from <= k < to && haystack[k] == needle) ==> haystack[r] == needle)
            && ((forall k :: from <= k < to ==> haystack[k] < needle) ==> r == to - 1)
            && ((forall k :: from <= k < to ==> haystack[k] != needle) &&
                (exists k :: from <= k < to && haystack[k] > needle) ==>
                  haystack[r] > needle && forall k :: from <= k < r ==> haystack[k] < needle)
  {
    SearchLoopSpec(haystack, from, to, from, to - 1, needle);
  }

  /** On a strictly ascending range, looking up an element gives its index. */
  lemma IndexOfClosestFindsElement(haystack: seq<real>, from: int, to: int, i: int)
    requires 0 <= from <= i < to <= |haystack| && StrictlyAscending(haystack, from, to)
    ensures IndexOfClosest(haystack, from, to, haystack[i]) == i
  {
    IndexOfClosestSpec(haystack, from, to, haystack[i]);
    assert forall j :: from <= j < to && haystack[j] == haystack[i] ==> j == i;
  }

  /** The first visible index of `draw` (lines 169-170): the closest point to
      `xStart`, stepped back by one when it lies strictly right of `xStart`,
      so that one point off-screen on the left is drawn too. With an empty X
      column the index is -1 and `normalized[firstVisibleIdx]` throws. */
  function FirstVisibleIndex(normalized: seq<real>, length: int, xStart: real): Result<int>
    requires 0 <= length <= |normalized|
  {
    if length == 0 then Throw(ArrayIndexOutOfBounds)
    else
      IndexOfClosestInRange(normalized, 0, length, xStart);
      var idx := IndexOfClosest(normalized, 0, length, xStart);
      if normalized[idx] > xStart && idx > 0 then Ok(idx - 1)
      else Ok(idx)
  }

  /** With at least one point the first visible index is an index of the X
      column, and on ascending X positions it is at or left of `xStart`
      unless it is 0. With none, the lookup throws. */
  lemma FirstVisibleIndexSpec(normalized: seq<real>, length: int, xStart: real)
    requires 0 <= length <= |normalized|
    ensures FirstVisibleIndex(normalized, length, xStart).Throw? <==> length == 0
    ensures length == 0 ==> IndexOfClosest(normalized, 0, length, xStart) == -1
    ensures length > 0 ==> 0 <= FirstVisibleIndex(normalized, length, xStart).value < length
    ensures length > 0 && Ascending(normalized, 0, length) ==>
              var first := FirstVisibleIndex(normalized, length, xStart).value;
              normalized[first] <= xStart || first == 0
  {
    if length > 0 {
      IndexOfClosestInRange(normalized, 0, length, xStart);
      if Ascending(normalized, 0, length) {
        IndexOfClosestSpec(normalized, 0, length, xStart);
      }
    }
  }
}
