/** `ChartDrawable`: the state the chart engine keeps between frames, and its
    decisions: normalising the chart into pixel coordinates, the visible
    window, the per-frame autoscale of the Y axis, the column visibility
    words and their animation, the X label crossfade, and the lookups used
    by the tooltip overlay.

    Canvas, Paint and Path calls are not modelled. Animators are records of
    what they were started with (`IntAnimation`, `YScales.YAnimation`), and
    their frames are the listener methods called with the animated value. */
module ChartDrawables {
  import opened JavaLang
  import opened Charts
  import opened Normalization
  import opened Visibility
  import opened YScales
  import Search
  import AxisLabels

  /** A `ValueAnimator.ofInt(from, to)` as the model sees it. */
  datatype IntAnimation = IntAnimation(from: int, to: int, running: bool)

  /** The last index of the scanned window: the loop of `draw` runs while
      `xi <= lastVisibleIdx`, so a last index left of the first one leaves
      the first point alone. */
  function WindowEnd(first: int, last: int): (e: int)
    ensures e >= first && e >= last && (e == first || e == last)
  {
    if last < first then first else last
  }

  class ChartDrawable {
    const data: Chart
    /** One packed word per line column (see `Visibility`). */
    const visibilities: array<int>
    /** The X positions followed by the flipped Y positions of every line
        column. The Java array is allocated by the first `normalize`; here
        it is allocated by the constructor with the same length. */
    const normalized: array<real>

    var visibilityAnimations: seq<Option<IntAnimation>>
    var dirtyBounds: bool
    var boundsLeft: int
    var boundsTop: int
    var boundsRight: int
    var boundsBottom: int
    var minTop: real
    var maxBottom: real
    var firstVisibleXPerMille: int
    var firstInvisibleXPerMille: int

    var prevYMin: real
    var prevYMax: real
    var targetYMin: real
    var targetYMax: real
    var yMin: real
    var yMax: real
    var yDiff: Double
    var yAnimProgress: int
    var yAnimator: Option<YAnimation>

    var prevTextLengthX: int
    var animDirection: int
    var animatedTextAlpha: int
    var textAlphaAnimator: Option<IntAnimation>

    ghost predicate Valid()
      reads this`visibilityAnimations, this`animDirection, this`dirtyBounds, this`boundsLeft, this`boundsTop, this`boundsRight, this`boundsBottom, normalized
    {
      && visibilities.Length == |data.columns|
      && |visibilityAnimations| == |data.columns|
      && normalized.Length == |data.x.values| * (|data.columns| + 1)
      && -1 <= animDirection <= 1
      && (!dirtyBounds ==> Normalizable(data) && UpToDate())
    }

    /** The normalized array holds the coordinates of the current bounds. */
    ghost predicate UpToDate()
      reads this`boundsLeft, this`boundsTop, this`boundsRight, this`boundsBottom, normalized
      requires Normalizable(data) && normalized.Length == |data.x.values| * (|data.columns| + 1)
    {
      forall k {:trigger NormalizedAt(data, Width(), Height(), k)} :: 0 <= k < normalized.Length ==>
        normalized[k] == NormalizedAt(data, Width(), Height(), k)
    }

    /** The bounds are not dirty: the coordinates are those of the current
        bounds. */
    ghost predicate Ready()
      reads this`visibilityAnimations, this`animDirection, this`dirtyBounds, this`boundsLeft, this`boundsTop, this`boundsRight, this`boundsBottom, normalized
    {
      Valid() && !dirtyBounds
    }

    /** The Y scale fields as one value. */
    ghost function YState(): YScale
      reads this`prevYMin, this`prevYMax, this`targetYMin, this`targetYMax, this`yMin, this`yMax,
            this`yDiff, this`yAnimProgress, this`yAnimator
    {
      YScale(prevYMin, prevYMax, targetYMin, targetYMax, yMin, yMax, yDiff, yAnimProgress, yAnimator)
    }

    /** `width()` and `height()`: the bounds are inclusive. */
    function Width(): int
      reads this`boundsLeft, this`boundsRight
    {
      boundsRight - boundsLeft - 1
    }

    function Height(): int
      reads this`boundsTop, this`boundsBottom
    {
      boundsBottom - boundsTop - 1
    }

    /** `width * firstVisibleXPerMille / 1000f`: the visible window of X
        positions starts here, the product wrapping as an `int`. */
    function XStart(): real
      reads this`boundsLeft, this`boundsRight, this`firstVisibleXPerMille
    {
      WrapInt(Width() * firstVisibleXPerMille) as real / 1000.0
    }

    function XEnd(): real
      reads this`boundsLeft, this`boundsRight, this`firstInvisibleXPerMille
    {
      WrapInt(Width() * firstInvisibleXPerMille) as real / 1000.0
    }

    /** `xScale()` (lines 687-692). */
    function XScale(): real
      reads this`boundsLeft, this`boundsRight, this`firstVisibleXPerMille, this`firstInvisibleXPerMille
      requires XEnd() > XStart()
    {
      Width() as real / (XEnd() - XStart())
    }

    /** `translateX()` (lines 693-698). */
    function TranslateX(): real
      reads this`boundsLeft, this`boundsRight, this`firstVisibleXPerMille, this`firstInvisibleXPerMille
      requires XEnd() > XStart()
    {
      -XStart() * XScale()
    }

    /** The screen transform of `draw` maps the start of the visible window
        to 0 and its end to the width, and keeps the order. */
    lemma XTransformMapsWindow()
      requires XEnd() > XStart()
      ensures XStart() * XScale() + TranslateX() == 0.0
      ensures XEnd() * XScale() + TranslateX() == Width() as real
      ensures Width() > 0 ==> XScale() > 0.0
    {
      var d := XEnd() - XStart();
      DivTimes(Width() as real, d);
      assert XEnd() * XScale() + TranslateX() == d * XScale();
      assert Width() > 0 ==> XScale() > 0.0;
    }

    constructor (data: Chart)
      ensures this.data == data && Valid() && dirtyBounds
      ensures fresh(visibilities) && fresh(normalized)
      ensures forall i :: 0 <= i < visibilities.Length ==> visibilities[i] == FULLY_VISIBLE
      ensures visibilityAnimations == seq(|data.columns|, _ => None)
      ensures boundsLeft == 0 && boundsTop == 0 && boundsRight == 0 && boundsBottom == 0
      ensures minTop == -DOUBLE_MAX_VALUE && maxBottom == DOUBLE_MAX_VALUE
      ensures firstVisibleXPerMille == 0 && firstInvisibleXPerMille == 1000
      ensures YState() == INITIAL
      ensures prevTextLengthX == -1 && animDirection == 0 && animatedTextAlpha == 255
      ensures textAlphaAnimator == None
    {
      this.data := data;
      var length := |data.columns|;
      var v := new int[length];
      var i := 0;
      while i < length
        invariant 0 <= i <= length
        invariant forall j :: 0 <= j < i ==> v[j] == FULLY_VISIBLE
      {
        v[i] := ToByte(255);
        i := i + 1;
      }
      visibilities := v;
      MulMono(0, length + 1, |data.x.values|);
      normalized := new real[|data.x.values| * (length + 1)];
      visibilityAnimations := seq(length, _ => None);
      dirtyBounds := true;
      boundsLeft, boundsTop, boundsRight, boundsBottom := 0, 0, 0, 0;
      minTop, maxBottom := -DOUBLE_MAX_VALUE, DOUBLE_MAX_VALUE;
      firstVisibleXPerMille, firstInvisibleXPerMille := 0, 1000;
      prevYMin, prevYMax, targetYMin, targetYMax, yMin, yMax := 0.0, 0.0, 0.0, 0.0, 0.0, 0.0;
      yDiff, yAnimProgress, yAnimator := NaN, 0, None;
      prevTextLengthX, animDirection, animatedTextAlpha, textAlphaAnimator := -1, 0, 255, None;
    }

    /** `onBoundsChange` (lines 571-574), with the new bounds. */
    method SetBounds(left: int, top: int, right: int, bottom: int)
      requires Valid()
      modifies this`boundsLeft, this`boundsTop, this`boundsRight, this`boundsBottom, this`dirtyBounds
      ensures Valid() && dirtyBounds
      ensures boundsLeft == left && boundsTop == top && boundsRight == right && boundsBottom == bottom
    {
      boundsLeft, boundsTop, boundsRight, boundsBottom := left, top, right, bottom;
      dirtyBounds := true;
    }

    /** `occupyEvenIfEmptyY` (lines 97-101). */
    method OccupyEvenIfEmptyY(minTop: real, maxBottom: real)
      modifies this`minTop, this`maxBottom
      ensures this.minTop == minTop && this.maxBottom == maxBottom
    {
      this.minTop := minTop;
      this.maxBottom := maxBottom;
    }

    /** `setVisibleRange` (lines 613-618). */
    method SetVisibleRange(startPerMille: int, endPerMille: int)
      modifies this`firstVisibleXPerMille, this`firstInvisibleXPerMille
      ensures firstVisibleXPerMille == startPerMille && firstInvisibleXPerMille == endPerMille
    {
      firstVisibleXPerMille := startPerMille;
      firstInvisibleXPerMille := endPerMille;
    }

    /** `normalize()` (lines 496-539): fills the array with the coordinates
        of the current bounds and clears the dirty flag. */
    method Normalize()
      requires Valid() && Normalizable(data)
      modifies normalized, this`dirtyBounds
      ensures Ready()
    {
      var length := |data.x.values|;
      var colCount := |data.columns|;
      MulMono(1, colCount + 1, length);
      NormalizeX();
      var c := 0;
      while c < colCount
        invariant 0 <= c <= colCount
        invariant NormalizedUpTo((c + 1) * length)
      {
        MulMono(c + 2, colCount + 1, length);
        NormalizeColumn(c);
        c := c + 1;
      }
      assert (colCount + 1) * length == normalized.Length;
      dirtyBounds := false;
    }

    /** The first `n` entries of the normalized array are the coordinates
        of the current bounds. */
    ghost predicate NormalizedUpTo(n: int)
      reads this`boundsLeft, this`boundsTop, this`boundsRight, this`boundsBottom, normalized
      requires Normalizable(data) && normalized.Length == |data.x.values| * (|data.columns| + 1)
    {
      && 0 <= n <= normalized.Length
      && forall k :: 0 <= k < n ==> normalized[k] == NormalizedAt(data, Width(), Height(), k)
    }

    /** The X loop of `normalize` (lines 520-525). */
    method NormalizeX()
      requires Normalizable(data) && normalized.Length == |data.x.values| * (|data.columns| + 1)
      modifies normalized
      ensures NormalizedUpTo(|data.x.values|)
    {
      var length := |data.x.values|;
      var width := Width();
      var xMin := data.x.minValue;
      var xDiff := data.x.maxValue - xMin;
      MulMono(1, |data.columns| + 1, length);
      var i := 0;
      while i < length
        invariant 0 <= i <= length
        invariant forall k :: 0 <= k < i ==> normalized[k] == NormalizedAt(data, width, Height(), k)
      {
        normalized[i] := (data.x.values[i] - xMin) / xDiff * width as real;
        i := i + 1;
      }
    }

    /** One column of the Y loop of `normalize` (lines 526-535): the
        entries [(c + 1) * length, (c + 2) * length). */
    method NormalizeColumn(c: int)
      requires Normalizable(data) && normalized.Length == |data.x.values| * (|data.columns| + 1)
      requires 0 <= c < |data.columns| && NormalizedUpTo((c + 1) * |data.x.values|)
      requires (c + 2) * |data.x.values| <= normalized.Length
      modifies normalized
      ensures NormalizedUpTo((c + 2) * |data.x.values|)
    {
      var length := |data.x.values|;
      var height := Height();
      var column := data.columns[c];
      var colMin := column.minValue;
      var colDiff := column.maxValue - colMin;
      var i := (c + 1) * length;
      var ci := 0;
      while ci < length
        invariant 0 <= ci <= length
        invariant i == (c + 1) * length + ci && i <= normalized.Length
        invariant forall k :: 0 <= k < i ==> normalized[k] == NormalizedAt(data, Width(), height, k)
      {
        RowIndex(c, ci, length, |data.columns|);
        normalized[i] := (1.0 - (column.values[ci] - colMin) / colDiff) * height as real;
        i := i + 1;
        ci := ci + 1;
      }
      assert (c + 1) * length + length == (c + 2) * length;
    }

    /** The normalized Y position of point `k` of line column `c`. */
    ghost function Y(c: int, k: int): real
      reads normalized
      requires normalized.Length == |data.x.values| * (|data.columns| + 1)
      requires 0 <= c < |data.columns| && 0 <= k < |data.x.values|
    {
      RowIndex(c, k, |data.x.values|, |data.columns|);
      normalized[(c + 1) * |data.x.values| + k]
    }

    /** The inner loop of the scan (lines 199-216): the indices of the
        smallest and of the largest normalized Y of column `c` over the
        window, each the first one where it occurs. The smallest normalized
        Y is the highest point, so it gives `maxYIdx`. */
    method ColumnExtremes(c: int, first: int, last: int) returns (minYIdx: int, maxYIdx: int)
      requires Valid() && 0 <= c < |data.columns| && 0 <= first < |data.x.values| && last < |data.x.values|
      ensures first <= minYIdx <= WindowEnd(first, last) && first <= maxYIdx <= WindowEnd(first, last)
      ensures forall k :: first <= k <= WindowEnd(first, last) ==> Y(c, maxYIdx) <= Y(c, k) <= Y(c, minYIdx)
      ensures forall k :: first <= k < maxYIdx ==> Y(c, maxYIdx) < Y(c, k)
      ensures forall k :: first <= k < minYIdx ==> Y(c, k) < Y(c, minYIdx)
    {
      var length := |data.x.values|;
      RowIndex(c, first, length, |data.columns|);
      var yi := (c + 1) * length + first;
      var xi := first;
      var firstY := normalized[yi];
      xi, yi := xi + 1, yi + 1;
      var colMinY, colMaxY := firstY, firstY;
      minYIdx, maxYIdx := first, first;
      while xi <= last
        invariant first + 1 <= xi <= WindowEnd(first, last) + 1
        invariant yi == (c + 1) * length + xi
        invariant first <= minYIdx < xi && first <= maxYIdx < xi
        invariant colMinY == Y(c, maxYIdx) && colMaxY == Y(c, minYIdx)
        invariant forall k :: first <= k < xi ==> colMinY <= Y(c, k) <= colMaxY
        invariant forall k :: first <= k < maxYIdx ==> colMinY < Y(c, k)
        invariant forall k :: first <= k < minYIdx ==> Y(c, k) < colMaxY
      {
        RowIndex(c, xi, length, |data.columns|);
        var y := normalized[yi];
        if y < colMinY {
          colMinY, maxYIdx := y, xi;
        } else if y > colMaxY {
          colMaxY, minYIdx := y, xi;
        }
        xi, yi := xi + 1, yi + 1;
      }
    }

    /** On up-to-date coordinates with a positive height, the extremes of
        the normalized Y are the extremes of the raw values reversed. */
    lemma RawExtremes(c: int, first: int, last: int, minYIdx: int, maxYIdx: int)
      requires Ready() && Height() > 0
      requires 0 <= c < |data.columns| && 0 <= first < |data.x.values| && last < |data.x.values|
      requires first <= minYIdx <= WindowEnd(first, last) && first <= maxYIdx <= WindowEnd(first, last)
      requires forall k :: first <= k <= WindowEnd(first, last) ==> Y(c, maxYIdx) <= Y(c, k) <= Y(c, minYIdx)
      ensures forall k :: first <= k <= WindowEnd(first, last) ==>
                data.columns[c].values[minYIdx] <= data.columns[c].values[k] <= data.columns[c].values[maxYIdx]
    {
      var col := data.columns[c];
      forall k | first <= k <= WindowEnd(first, last)
        ensures col.values[minYIdx] <= col.values[k] <= col.values[maxYIdx]
      {
        YIsNormY(c, k);
        YIsNormY(c, minYIdx);
        YIsNormY(c, maxYIdx);
        NormYReverses(col.values[k], col.values[minYIdx], col.minValue, col.maxValue, Height());
        NormYReverses(col.values[maxYIdx], col.values[k], col.minValue, col.maxValue, Height());
      }
    }

    lemma YIsNormY(c: int, k: int)
      requires Ready() && 0 <= c < |data.columns| && 0 <= k < |data.x.values|
      ensures var col := data.columns[c];
              Y(c, k) == NormY(col.values[k], col.minValue, col.maxValue, Height())
    {
      RowIndex(c, k, |data.x.values|, |data.columns|);
      assert normalized[(c + 1) * |data.x.values| + k] == NormalizedAt(data, Width(), Height(), (c + 1) * |data.x.values| + k);
    }

    /** Point `k` of column `c` takes part in the scan of the window. */
    ghost predicate Scanned(c: int, k: int, first: int, last: int)
      reads visibilities
      requires visibilities.Length == |data.columns|
    {
      0 <= c < |data.columns| && Appearing(visibilities[c]) && first <= k <= WindowEnd(first, last) &&
      0 <= k < |data.x.values|
    }

    /** Some column takes part in the autoscale. */
    ghost predicate AnyAppearing()
      reads visibilities
      requires visibilities.Length == |data.columns|
    {
      exists c :: 0 <= c < |data.columns| && Appearing(visibilities[c])
    }

    /** What the scan promises of its limits: `lo` is `maxBottom` or a raw
        value of a scanned point, `hi` is `minTop` or one, and on a positive
        height they bound every scanned value. */
    ghost predicate ScanLimits(first: int, last: int, lo: real, hi: real)
      reads this`minTop, this`maxBottom, this`boundsTop, this`boundsBottom, visibilities
      requires visibilities.Length == |data.columns| && Normalizable(data)
    {
      && lo <= maxBottom && hi >= minTop
      && (lo == maxBottom || exists c, k :: Scanned(c, k, first, last) && lo == data.columns[c].values[k])
      && (hi == minTop || exists c, k :: Scanned(c, k, first, last) && hi == data.columns[c].values[k])
      && (Height() > 0 ==> forall c, k :: Scanned(c, k, first, last) ==>
            lo <= data.columns[c].values[k] <= hi)
    }

    /** The outer loop of the scan (lines 189-231): the window limits over
        the appearing columns, starting from `maxBottom` and `minTop`, and
        whether any column appears. */
    method ScanColumns(first: int, last: int) returns (lo: real, hi: real, visible: bool)
      requires Ready() && 0 <= first < |data.x.values| && last < |data.x.values|
      ensures visible <==> AnyAppearing()
      ensures ScanLimits(first, last, lo, hi)
    {
      lo, hi, visible := maxBottom, minTop, false;
      var ci := 0;
      while ci < |data.columns|
        invariant 0 <= ci <= |data.columns|
        invariant ScannedBefore(ci, first, last, lo, hi, visible)
      {
        lo, hi, visible := ScanColumn(ci, first, last, lo, hi, visible);
        ci := ci + 1;
      }
    }

    /** The invariant of the outer loop of the scan: the limits and the
        flag over the columns before `ci`. */
    ghost predicate ScannedBefore(ci: int, first: int, last: int, lo: real, hi: real, visible: bool)
      reads this`minTop, this`maxBottom, this`boundsTop, this`boundsBottom, visibilities
      requires visibilities.Length == |data.columns| && Normalizable(data)
    {
      && 0 <= ci <= |data.columns|
      && (visible <==> exists c :: 0 <= c < ci && Appearing(visibilities[c]))
      && lo <= maxBottom && hi >= minTop
      && (lo == maxBottom || exists c, k :: c < ci && Scanned(c, k, first, last) && lo == data.columns[c].values[k])
      && (hi == minTop || exists c, k :: c < ci && Scanned(c, k, first, last) && hi == data.columns[c].values[k])
      && (Height() > 0 ==> forall c, k :: c < ci && Scanned(c, k, first, last) ==>
            lo <= data.columns[c].values[k] <= hi)
    }

    /** One turn of the outer loop of the scan: column `ci`. */
    method ScanColumn(ci: int, first: int, last: int, lo: real, hi: real, visible: bool)
      returns (lo': real, hi': real, visible': bool)
      requires Ready() && 0 <= ci < |data.columns| && 0 <= first < |data.x.values| && last < |data.x.values|
      requires ScannedBefore(ci, first, last, lo, hi, visible)
      ensures ScannedBefore(ci + 1, first, last, lo', hi', visible')
    {
      lo', hi', visible' := lo, hi, visible;
      var visibility := visibilities[ci];
      if visibility != 0 {
        var minYIdx, maxYIdx := ColumnExtremes(ci, first, last);
        if HasBit(visibility, APPEARING) {
          var column := data.columns[ci];
          if Height() > 0 {
            RawExtremes(ci, first, last, minYIdx, maxYIdx);
          }
          var dColMinY := column.values[minYIdx];
          var dColMaxY := column.values[maxYIdx];
          assert Scanned(ci, minYIdx, first, last) && Scanned(ci, maxYIdx, first, last);
          if dColMinY < lo' {
            lo' := dColMinY;
          }
          if dColMaxY > hi' {
            hi' := dColMaxY;
          }
          visible' := true;
        }
      }
    }

    /** `animYDiff` (lines 108-156). */
    method AnimYDiff(toYMin: real, toYMax: real)
      modifies this`prevYMin, this`prevYMax, this`targetYMin, this`targetYMax, this`yAnimator
      ensures YState() == YScales.AnimYDiff(old(YState()), toYMin, toYMax)
    {
      if targetYMin == toYMin && targetYMax == toYMax {
        return;
      }
      targetYMin, targetYMax := toYMin, toYMax;
      if yAnimator.None? || !yAnimator.value.running {
        prevYMin, prevYMax := yMin, yMax;
      }
      yAnimator := Some(YAnimation(yMin, toYMin, yMax, toYMax, 0, 255, true));
    }

    /** The end of the scan in `draw` (lines 233-244). */
    method ApplyLimits(lo: real, hi: real, visible: bool)
      modifies this`prevYMin, this`prevYMax, this`targetYMin, this`targetYMax, this`yAnimator,
               this`yMin, this`yMax, this`yDiff
      ensures YState() == AfterScan(old(YState()), lo, hi, visible)
    {
      var diff := hi - lo;
      if visible {
        if yDiff.NaN? {
          yMin, yMax, yDiff := lo, hi, Finite(diff);
          prevYMin, prevYMax := lo, hi;
        } else if yDiff != Finite(diff) || yMax != hi {
          AnimYDiff(lo, hi);
        }
      }
    }

    /** The update listeners of the Y animation (lines 123-141) and its end. */
    method OnYMinUpdate(value: real)
      modifies this`yMin, this`yDiff
      ensures YState() == UpdateYMin(old(YState()), value)
    {
      yMin := value;
      yDiff := Finite(yMax - yMin);
    }

    method OnYMaxUpdate(value: real)
      modifies this`yMax, this`yDiff
      ensures YState() == UpdateYMax(old(YState()), value)
    {
      yMax := value;
      yDiff := Finite(yMax - yMin);
    }

    method OnYProgressUpdate(value: int)
      modifies this`yAnimProgress
      ensures YState() == UpdateYProgress(old(YState()), value)
    {
      yAnimProgress := value;
    }

    method OnYAnimationEnd()
      modifies this`yAnimator
      ensures YState() == AnimationEnd(old(YState()))
    {
      if yAnimator.Some? {
        yAnimator := Some(yAnimator.value.(running := false));
      }
    }

    /** The index window of a frame (lines 166-173): the first visible
        index, which throws on a chart without points, and the index closest
        to the end of the visible window. */
    ghost function Window(): Result<(int, int)>
      reads this`boundsLeft, this`boundsRight, this`firstVisibleXPerMille, this`firstInvisibleXPerMille, normalized
      requires normalized.Length == |data.x.values| * (|data.columns| + 1)
    {
      var length := |data.x.values|;
      MulMono(1, |data.columns| + 1, length);
      var first := Search.FirstVisibleIndex(normalized[..], length, XStart());
      if first.Throw? then Throw(first.error)
      else
        Search.IndexOfClosestInRange(normalized[..], 0, length, XEnd());
        Ok((first.value, Search.IndexOfClosest(normalized[..], 0, length, XEnd())))
    }

    /** The scale decisions of `draw` (lines 157-244): normalise when the
        bounds are dirty, then find the window, scan it and update the Y
        scale. */
    method Draw() returns (o: Outcome, ghost first: int, ghost last: int, ghost lo: real, ghost hi: real)
      requires Valid() && Normalizable(data)
      modifies normalized, this`dirtyBounds, this`prevYMin, this`prevYMax, this`targetYMin, this`targetYMax,
               this`yAnimator, this`yMin, this`yMax, this`yDiff
      ensures Ready()
      ensures o.Thrown? <==> |data.x.values| == 0
      ensures o.Thrown? ==> o.error == ArrayIndexOutOfBounds && YState() == old(YState())
      ensures o.Normal? ==> Window() == Ok((first, last)) && ScanLimits(first, last, lo, hi)
      ensures o.Normal? ==> YState() == AfterScan(old(YState()), lo, hi, AnyAppearing())
    {
      if dirtyBounds {
        Normalize();
      }
      o, first, last, lo, hi := Frame();
    }

    /** A frame on up-to-date coordinates. A chart without points throws
        where `normalized[firstVisibleIdx]` is read. */
    method Frame() returns (o: Outcome, ghost first: int, ghost last: int, ghost lo: real, ghost hi: real)
      requires Ready()
      modifies this`prevYMin, this`prevYMax, this`targetYMin, this`targetYMax,
               this`yAnimator, this`yMin, this`yMax, this`yDiff
      ensures Ready()
      ensures o.Thrown? <==> |data.x.values| == 0
      ensures o.Thrown? ==> o.error == ArrayIndexOutOfBounds && YState() == old(YState())
      ensures o.Normal? ==> Window() == Ok((first, last)) && ScanLimits(first, last, lo, hi)
      ensures o.Normal? ==> YState() == AfterScan(old(YState()), lo, hi, AnyAppearing())
    {
      var window, yLo, yHi, visible := Scan();
      if window.Throw? {
        return Thrown(ArrayIndexOutOfBounds), 0, 0, 0.0, 0.0;
      }
      ApplyLimits(yLo, yHi, visible);
      o, first, last, lo, hi := Normal, window.value.0, window.value.1, yLo, yHi;
    }

    /** The part of a frame that only reads: the window and its limits. */
    method Scan() returns (window: Result<(int, int)>, lo: real, hi: real, visible: bool)
      requires Ready()
      ensures window == Window()
      ensures window.Throw? <==> |data.x.values| == 0
      ensures window.Throw? ==> window.error == ArrayIndexOutOfBounds
      ensures window.Ok? ==> ScanLimits(window.value.0, window.value.1, lo, hi) && (visible <==> AnyAppearing())
    {
      window := FindWindow();
      if window.Throw? {
        return window, 0.0, 0.0, false;
      }
      lo, hi, visible := ScanColumns(window.value.0, window.value.1);
    }

    /** The first visible index and the index closest to the end of the
        visible window (lines 166-173). */
    method FindWindow() returns (w: Result<(int, int)>)
      requires Valid()
      ensures w == Window()
      ensures w.Throw? <==> |data.x.values| == 0
      ensures w.Throw? ==> w.error == ArrayIndexOutOfBounds
      ensures w.Ok? ==> 0 <= w.value.0 < |data.x.values| && 0 <= w.value.1 < |data.x.values|
    {
      var length := |data.x.values|;
      MulMono(1, |data.columns| + 1, length);
      var firstIdx := Search.FirstVisibleIndex(normalized[..], length, XStart());
      Search.FirstVisibleIndexSpec(normalized[..], length, XStart());
      if firstIdx.Throw? {
        return Throw(firstIdx.error);
      }
      Search.IndexOfClosestInRange(normalized[..], 0, length, XEnd());
      var lastVisibleIdx := Search.IndexOfClosest(normalized[..], 0, length, XEnd());
      return Ok((firstIdx.value, lastVisibleIdx));
    }

    /** `setColumnVisibleAt` (lines 576-611): an index outside the columns
        throws; a column whose alpha already is the target is left alone;
        otherwise a new animation from the current alpha to the target
        replaces (and cancels) the column's previous one. */
    method SetColumnVisibleAt(index: int, whether: bool) returns (o: Outcome)
      requires Valid()
      modifies this`visibilityAnimations
      ensures Valid()
      ensures o.Thrown? <==> !(0 <= index < |data.columns|)
      ensures o.Thrown? ==> o.error == IndexOutOfBounds
      ensures o.Thrown? || Alpha(visibilities[index]) == (if whether then 255 else 0) ==>
                visibilityAnimations == old(visibilityAnimations)
      ensures o.Normal? && Alpha(visibilities[index]) != (if whether then 255 else 0) ==>
                visibilityAnimations == old(visibilityAnimations)[index :=
                  Some(IntAnimation(Alpha(visibilities[index]), if whether then 255 else 0, true))]
    {
      if index < 0 || index >= |data.columns| {
        return Thrown(IndexOutOfBounds);
      }
      var alpha := LowByte(visibilities[index]);
      var targetAlpha := if whether then 255 else 0;
      if alpha != targetAlpha {
        visibilityAnimations := visibilityAnimations[index := Some(IntAnimation(alpha, targetAlpha, true))];
      }
      return Normal;
    }

    /** The update listener of column `index`'s visibility animation (lines
        594-599). */
    method OnVisibilityUpdate(index: int, animatedValue: int)
      requires Valid() && 0 <= index < |data.columns|
      modifies visibilities
      ensures visibilities[index] == UpdatedWord(old(visibilities[index]), animatedValue)
      ensures forall i :: 0 <= i < visibilities.Length && i != index ==> visibilities[i] == old(visibilities[i])
    {
      var prev := LowByte(visibilities[index]);
      var next := ToByte(animatedValue);
      if next > prev {
        next := SetBit(next, APPEARING);
      }
      visibilities[index] := next;
    }

    /** The end of column `index`'s visibility animation. */
    method OnVisibilityAnimationEnd(index: int)
      requires Valid() && 0 <= index < |data.columns|
      modifies this`visibilityAnimations
      ensures Valid()
      ensures visibilityAnimations == old(visibilityAnimations)[index :=
                if old(visibilityAnimations[index]).Some?
                then Some(old(visibilityAnimations[index]).value.(running := false))
                else None]
    {
      var anim := visibilityAnimations[index];
      if anim.Some? {
        visibilityAnimations := visibilityAnimations[index := Some(anim.value.(running := false))];
      }
    }

    /** The Y values shown for X index `index` (`getYValuesAt`, lines
        674-684): the raw value of every fully visible column, NaN for the
        others. Only a fully visible column is read, so only it can throw
        on a bad index. */
    method GetYValuesAt(index: int) returns (r: Result<seq<Double>>)
      requires Valid()
      ensures r.Throw? <==> (exists i :: 0 <= i < |data.columns| && FullyVisible(visibilities[i]) &&
                               !(0 <= index < |data.columns[i].values|))
      ensures r.Throw? ==> r.error == ArrayIndexOutOfBounds
      ensures r.Ok? ==> |r.value| == |data.columns| && forall i :: 0 <= i < |data.columns| ==>
                r.value[i] == if FullyVisible(visibilities[i]) then Finite(data.columns[i].values[index]) else NaN
    {
      var cols := data.columns;
      var length := |cols|;
      var dest: seq<Double> := [];
      var i := 0;
      while i < length
        invariant 0 <= i <= length && |dest| == i
        invariant forall j :: 0 <= j < i ==> !FullyVisible(visibilities[j]) || 0 <= index < |cols[j].values|
        invariant forall j :: 0 <= j < i ==>
                    dest[j] == if FullyVisible(visibilities[j]) then Finite(cols[j].values[index]) else NaN
      {
        if visibilities[i] == FULLY_VISIBLE {
          if index < 0 || index >= |cols[i].values| {
            return Throw(ArrayIndexOutOfBounds);
          }
          dest := dest + [Finite(cols[i].values[index])];
        } else {
          dest := dest + [NaN];
        }
        i := i + 1;
      }
      return Ok(dest);
    }

    /** `getYPositionsAt` (lines 701-731) up to its pixel arithmetic, which
        is the parameter `pixel` (column, normalized Y): a fully visible
        column's position is computed from the entry `length + i * length +
        index` of the normalized array, the others are NaN. An index past
        the X column reads the next column's entries; only an entry outside
        the array throws. */
    method GetYPositionsAt(index: int, pixel: (int, real) -> real) returns (r: Result<seq<Double>>)
      requires Valid() && Normalizable(data)
      modifies normalized, this`dirtyBounds
      ensures Ready()
      ensures r.Throw? <==> (exists i :: 0 <= i < |data.columns| && FullyVisible(visibilities[i]) &&
                               !(0 <= (i + 1) * |data.x.values| + index < normalized.Length))
      ensures r.Throw? ==> r.error == ArrayIndexOutOfBounds
      ensures r.Ok? ==> |r.value| == |data.columns| && forall i :: 0 <= i < |data.columns| ==>
                r.value[i] == if FullyVisible(visibilities[i])
                              then Finite(pixel(i, normalized[(i + 1) * |data.x.values| + index]))
                              else NaN
      ensures YState() == old(YState()) && visibilityAnimations == old(visibilityAnimations)
      ensures Width() == old(Width()) && Height() == old(Height())
    {
      if dirtyBounds {
        Normalize();
      }
      var colCnt := |data.columns|;
      var length := |data.x.values|;
      var dest: seq<Double> := [];
      var i := 0;
      while i < colCnt
        invariant 0 <= i <= colCnt && |dest| == i
        invariant forall j :: 0 <= j < i ==>
                    (!FullyVisible(visibilities[j]) || 0 <= (j + 1) * length + index < normalized.Length)
        invariant forall j :: 0 <= j < i ==>
                    dest[j] == if FullyVisible(visibilities[j])
                               then Finite(pixel(j, normalized[(j + 1) * length + index]))
                               else NaN
      {
        if visibilities[i] == FULLY_VISIBLE {
          var k := length + i * length + index;
          assert k == (i + 1) * length + index;
          if k < 0 || k >= normalized.Length {
            return Throw(ArrayIndexOutOfBounds);
          }
          dest := dest + [Finite(pixel(i, normalized[k]))];
        } else {
          dest := dest + [NaN];
        }
        i := i + 1;
      }
      return Ok(dest);
    }

    /** `getXValueAt` (lines 671-673). */
    function GetXValueAt(index: int): (r: Result<real>)
      ensures r.Ok? <==> 0 <= index < |data.x.values|
      ensures r.Ok? ==> r.value == data.x.values[index]
      ensures r.Throw? ==> r.error == ArrayIndexOutOfBounds
    {
      if 0 <= index < |data.x.values| then Ok(data.x.values[index]) else Throw(ArrayIndexOutOfBounds)
    }

    /** `getXPositionAt` (lines 666-670): the on-screen X of point `index`. */
    method GetXPositionAt(index: int) returns (r: Result<real>)
      requires Valid() && Normalizable(data) && XEnd() > XStart()
      modifies normalized, this`dirtyBounds
      ensures Ready() && Width() == old(Width()) && XStart() == old(XStart()) && XEnd() == old(XEnd())
      ensures r.Ok? <==> 0 <= index < normalized.Length
      ensures r.Throw? ==> r.error == ArrayIndexOutOfBounds
      ensures r.Ok? ==> r.value == normalized[index] * XScale() + TranslateX()
      ensures YState() == old(YState()) && visibilityAnimations == old(visibilityAnimations)
    {
      if dirtyBounds {
        Normalize();
      }
      if index < 0 || index >= normalized.Length {
        return Throw(ArrayIndexOutOfBounds);
      }
      return Ok(normalized[index] * XScale() + TranslateX());
    }

    /** `getIndexAt` (lines 659-665): the X index closest to the on-screen
        position `xPos`. */
    method GetIndexAt(xPos: real) returns (i: int)
      requires Valid() && Normalizable(data) && XEnd() > XStart() && Width() > 0
      modifies normalized, this`dirtyBounds
      ensures Ready() && Width() == old(Width()) && XStart() == old(XStart()) && XEnd() == old(XEnd())
      ensures |data.x.values| <= normalized.Length
      ensures i == Search.IndexOfClosest(normalized[..], 0, |data.x.values|, (xPos - TranslateX()) / XScale())
      ensures |data.x.values| > 0 ==> 0 <= i < |data.x.values|
      ensures |data.x.values| == 0 ==> i == -1
      ensures YState() == old(YState()) && visibilityAnimations == old(visibilityAnimations)
    {
      if dirtyBounds {
        Normalize();
      }
      XTransformMapsWindow();
      var scaledX := (xPos - TranslateX()) / XScale();
      var length := |data.x.values|;
      MulMono(1, |data.columns| + 1, length);
      i := Search.IndexOfClosest(normalized[..], 0, length, scaledX);
      if length > 0 {
        Search.IndexOfClosestInRange(normalized[..], 0, length, scaledX);
      }
    }

    /** The tooltip's round trip: on strictly ascending X values, the index
        looked up at the on-screen position of point `i` is `i`. */
    lemma IndexAtXPosition(i: int, xPos: real)
      requires Ready() && XEnd() > XStart() && Width() > 0
      requires 0 <= i < |data.x.values| && Search.StrictlyAscending(data.x.values, 0, |data.x.values|)
      requires xPos == normalized[i] * XScale() + TranslateX()
      ensures |data.x.values| <= normalized.Length
      ensures Search.IndexOfClosest(normalized[..], 0, |data.x.values|, (xPos - TranslateX()) / XScale()) == i
    {
      NormalizedXStrictlyAscending();
      var s := normalized[..];
      var scale := XScale();
      var translate := TranslateX();
      XScalePositive();
      ShiftScaleCancel(s[i], scale, translate);
      assert (xPos - translate) / scale == s[i];
      Search.IndexOfClosestFindsElement(s, 0, |data.x.values|, i);
    }

    /** The balloon's X value: on strictly ascending X values, `getXValueAt`
        at the index `getIndexAt` finds at the on-screen position of point
        `i` is the raw X value of point `i`. */
    lemma XValueAtXPosition(i: int, xPos: real)
      requires Ready() && XEnd() > XStart() && Width() > 0
      requires 0 <= i < |data.x.values| && Search.StrictlyAscending(data.x.values, 0, |data.x.values|)
      requires xPos == normalized[i] * XScale() + TranslateX()
      ensures |data.x.values| <= normalized.Length
      ensures GetXValueAt(Search.IndexOfClosest(normalized[..], 0, |data.x.values|, (xPos - TranslateX()) / XScale()))
              == Ok(data.x.values[i])
    {
      IndexAtXPosition(i, xPos);
    }

    lemma XScalePositive()
      requires XEnd() > XStart() && Width() > 0
      ensures XScale() > 0.0
    {
      DivPositive(Width() as real, XEnd() - XStart());
    }

    /** On a positive width, strictly ascending X values give strictly
        ascending X positions. */
    lemma NormalizedXStrictlyAscending()
      requires Ready() && Width() > 0 && Search.StrictlyAscending(data.x.values, 0, |data.x.values|)
      ensures |data.x.values| <= normalized.Length
      ensures Search.StrictlyAscending(normalized[..], 0, |data.x.values|)
    {
      var length := |data.x.values|;
      MulMono(1, |data.columns| + 1, length);
      var s := normalized[..];
      forall j, k | 0 <= j < k < length ensures s[j] < s[k] {
        assert s[j] == NormalizedAt(data, Width(), Height(), j);
        assert s[k] == NormalizedAt(data, Width(), Height(), k);
        NormXIncreasing(data.x.values[j], data.x.values[k], data.x.minValue, data.x.maxValue, Width());
      }
    }

    /** `animTextAlpha(from, to)` (lines 414-434): starts an animation only
        when none is held. */
    method AnimTextAlpha(from: int, to: int)
      modifies this`textAlphaAnimator
      ensures textAlphaAnimator == if old(textAlphaAnimator).None? then Some(IntAnimation(from, to, true))
                                   else old(textAlphaAnimator)
    {
      if textAlphaAnimator.None? {
        textAlphaAnimator := Some(IntAnimation(from, to, true));
      }
    }

    /** The crossfade bookkeeping at the start of the drawing pass of
        `fitTexts` (lines 446-457): a change of stride while no fade runs
        starts one (in when the stride shrank, out when it grew) and records
        its direction; the stride used is halved while the direction is
        "out". The direction is never reset. */
    method CrossfadeStride(textLengthX: int) returns (shown: int)
      requires Valid()
      modifies this`prevTextLengthX, this`animDirection, this`textAlphaAnimator
      ensures Valid() && prevTextLengthX == textLengthX
      ensures old(prevTextLengthX) != -1 && old(textAlphaAnimator).None? && old(prevTextLengthX) > textLengthX ==>
                textAlphaAnimator == Some(IntAnimation(0, 255, true)) && animDirection == 1
      ensures old(prevTextLengthX) != -1 && old(textAlphaAnimator).None? && old(prevTextLengthX) < textLengthX ==>
                textAlphaAnimator == Some(IntAnimation(255, 0, true)) && animDirection == -1
      ensures old(prevTextLengthX) == -1 || old(textAlphaAnimator).Some? || old(prevTextLengthX) == textLengthX ==>
                textAlphaAnimator == old(textAlphaAnimator) && animDirection == old(animDirection)
      ensures old(animDirection) != 0 ==> animDirection != 0
      ensures shown == if animDirection == -1 then (if JavaDiv(textLengthX, 2) > 1 then JavaDiv(textLengthX, 2) else 1)
                       else textLengthX
    {
      if prevTextLengthX != -1 && textAlphaAnimator.None? {
        if prevTextLengthX > textLengthX {
          AnimTextAlpha(0, 255);
          animDirection := 1;
        } else if prevTextLengthX < textLengthX {
          AnimTextAlpha(255, 0);
          animDirection := -1;
        }
      }
      prevTextLengthX := textLengthX;
      shown := textLengthX;
      if animDirection == -1 {
        var half := JavaDiv(textLengthX, 2);
        shown := if half > 1 then half else 1;
      }
    }

    /** The update listener and the end of the label fade (lines 418-428). */
    method OnTextAlphaUpdate(value: int)
      modifies this`animatedTextAlpha
      ensures animatedTextAlpha == value
    {
      animatedTextAlpha := value;
    }

    method OnTextAlphaAnimationEnd()
      modifies this`textAlphaAnimator
      ensures textAlphaAnimator == None
    {
      textAlphaAnimator := None;
    }

    /** `firstVisibleXPerMille * length / 1000f` (line 378), in X indices. */
    function FirstVisibleX(): real
      reads this`firstVisibleXPerMille
    {
      WrapInt(firstVisibleXPerMille * |data.x.values|) as real / 1000.0
    }

    function FirstInvisibleX(): real
      reads this`firstInvisibleXPerMille
    {
      WrapInt(firstInvisibleXPerMille * |data.x.values|) as real / 1000.0
    }

    /** `(float) width() / visibleXValues` (line 382): the pixel width of
        one X value. */
    function XWidthPx(): (w: real)
      reads this`boundsLeft, this`boundsRight, this`firstVisibleXPerMille, this`firstInvisibleXPerMille
      requires FirstInvisibleX() > FirstVisibleX() && Width() > 0
      ensures w > 0.0
    {
      DivPositive(Width() as real, FirstInvisibleX() - FirstVisibleX());
      Width() as real / (FirstInvisibleX() - FirstVisibleX())
    }

    /** `drawXValues` (lines 373-408) up to the drawing: the pixel width of
        one X value, the initial stride, the doubling search over the dry
        runs (`fits`; the search assumes that a stride it reaches fits), the
        last doubling, and the crossfade of the drawing pass. */
    method DrawXValues(fits: int -> int) returns (shown: int, ghost start: int, ghost stride: int, ghost doublings: nat)
      requires Valid() && FirstInvisibleX() > FirstVisibleX() && Width() > 0
      requires exists k: nat :: fits(AxisLabels.Doubled(AxisLabels.InitialStride(XWidthPx()), k)) == 1
      modifies this`prevTextLengthX, this`animDirection, this`textAlphaAnimator
      ensures Valid() && prevTextLengthX == stride
      ensures start == AxisLabels.InitialStride(old(XWidthPx()))
      ensures StrideFound(fits, start, doublings, stride)
      ensures old(prevTextLengthX) != -1 && old(textAlphaAnimator).None? && old(prevTextLengthX) > stride ==>
                textAlphaAnimator == Some(IntAnimation(0, 255, true)) && animDirection == 1
      ensures old(prevTextLengthX) != -1 && old(textAlphaAnimator).None? && old(prevTextLengthX) < stride ==>
                textAlphaAnimator == Some(IntAnimation(255, 0, true)) && animDirection == -1
      ensures old(prevTextLengthX) == -1 || old(textAlphaAnimator).Some? || old(prevTextLengthX) == stride ==>
                textAlphaAnimator == old(textAlphaAnimator) && animDirection == old(animDirection)
      ensures shown == if animDirection == -1 then (if JavaDiv(stride, 2) > 1 then JavaDiv(stride, 2) else 1)
                       else stride
    {
      var initial := AxisLabels.InitialStride(XWidthPx());
      var s, d := AxisLabels.StrideSearch(initial, fits);
      start, stride, doublings := initial, s, d;
      shown := CrossfadeStride(s);
    }
  }

  /** The search from `start` stopped after `d` doublings, at the first
      stride that fits, and answered that stride doubled once more. */
  ghost predicate StrideFound(fits: int -> int, start: int, d: nat, stride: int)
  {
    && fits(AxisLabels.Doubled(start, d)) == 1
    && (forall j: nat :: j < d ==> fits(AxisLabels.Doubled(start, j)) != 1)
    && stride == (var s := AxisLabels.Doubled(start, d + 1); if s == 0 then 1 else s)
  }

  lemma DivPositive(a: real, d: real)
    requires a > 0.0 && d > 0.0
    ensures a / d > 0.0
  {
  }

  lemma ShiftScaleCancel(a: real, scale: real, translate: real)
    requires scale > 0.0
    ensures ((a * scale + translate) - translate) / scale == a
  {
    assert (a * scale + translate) - translate == a * scale;
  }

  /** A visibility animation runs between alphas in [0, 255], so the words
      its listener stores keep the alpha, and a column reaches the
      fully visible word (the test of `getYValuesAt`) exactly at 255. */
  lemma AnimatedWordsAreWellFormed(previous: int, anim: IntAnimation, value: int)
    requires 0 <= anim.from <= 255 && (anim.to == 0 || anim.to == 255)
    requires anim.from <= value <= anim.to || anim.to <= value <= anim.from
    ensures Alpha(UpdatedWord(previous, value)) == value
    ensures FullyVisible(UpdatedWord(previous, value)) <==> value == 255
    ensures anim.to == 255 && value > Alpha(previous) ==> Appearing(UpdatedWord(previous, value))
  {
    UpdatedWordKeepsAlpha(previous, value);
    UpdatedWordFullyVisible(previous, value);
    UpdatedWordAppearing(previous, value);
  }
}
