/** The coordinates `ChartDrawable.normalize` computes: every X value mapped
    affinely onto [0, width], and every Y value of a column mapped onto
    [0, height] by its own minimum and maximum and flipped, so that y = 0 is
    the top. The `(float)` casts are not modelled. */
module Normalization {
  import opened Charts

  /** `((x - xMin) / xDiff) * width` (line 524). */
  function NormX(v: real, min: real, max: real, width: int): real
    requires max > min
  {
    (v - min) / (max - min) * width as real
  }

  /** `(1 - ((v - yMin) / yDiff)) * height` (line 533). */
  function NormY(v: real, min: real, max: real, height: int): real
    requires max > min
  {
    (1.0 - (v - min) / (max - min)) * height as real
  }

  /** A value in [min, max] lands in [0, width]; min at 0 and max at width. */
  lemma NormXBounds(v: real, min: real, max: real, width: int)
    requires max > min && min <= v <= max && width >= 0
    ensures 0.0 <= NormX(v, min, max, width) <= width as real
    ensures NormX(min, min, max, width) == 0.0 && NormX(max, min, max, width) == width as real
  {
    FractionBetween(v, min, max, width);
  }

  /** A value in [min, max] lands in [0, height], flipped: max at 0 (the
      top) and min at height. */
  lemma NormYBounds(v: real, min: real, max: real, height: int)
    requires max > min && min <= v <= max && height >= 0
    ensures 0.0 <= NormY(v, min, max, height) <= height as real
    ensures NormY(max, min, max, height) == 0.0 && NormY(min, min, max, height) == height as real
  {
    var d := max - min;
    var a := v - min;
    FractionBetween(max - a, min, max, height);
    assert (max - a) - min == d - a;
    OneMinusFraction(a, d);
  }

  lemma FractionBetween(v: real, min: real, max: real, scale: int)
    requires max > min && min <= v <= max && scale >= 0
    ensures 0.0 <= (v - min) / (max - min) <= 1.0
    ensures 0.0 <= (v - min) / (max - min) * scale as real <= scale as real
  {
    var f := (v - min) / (max - min);
    DivMono(0.0, v - min, max - min);
    DivMono(v - min, max - min, max - min);
    DivSelf(max - min);
    assert 0.0 <= f <= 1.0;
    assert f * scale as real <= 1.0 * scale as real;
  }

  /** On a positive width the X map is strictly increasing. */
  lemma NormXIncreasing(u: real, v: real, min: real, max: real, width: int)
    requires max > min && width > 0
    ensures u < v <==> NormX(u, min, max, width) < NormX(v, min, max, width)
  {
    ScaleStrictlyIncreasing(u - min, v - min, max - min, width as real);
  }

  /** On a positive height the Y map reverses the order: a larger value is
      drawn higher up, at a smaller y. */
  lemma NormYReverses(u: real, v: real, min: real, max: real, height: int)
    requires max > min && height > 0
    ensures u < v <==> NormY(u, min, max, height) > NormY(v, min, max, height)
  {
    var d := max - min;
    ScaleStrictlyIncreasing(u - min, v - min, d, height as real);
    assert NormY(u, min, max, height) == height as real - (u - min) / d * height as real;
    assert NormY(v, min, max, height) == height as real - (v - min) / d * height as real;
  }

  lemma ScaleStrictlyIncreasing(a: real, b: real, d: real, s: real)
    requires d > 0.0 && s > 0.0
    ensures a < b <==> a / d * s < b / d * s
  {
    assert b / d * s - a / d * s == (b - a) / d * s;
  }

  /** What `normalize` needs of the chart: every line column as long as the
      X column, and every column with a maximum above its minimum (equal
      ones make the Java code divide by zero). */
  predicate Normalizable(data: Chart)
  {
    && data.x.maxValue > data.x.minValue
    && forall c :: 0 <= c < |data.columns| ==>
         |data.columns[c].values| == |data.x.values| && data.columns[c].maxValue > data.columns[c].minValue
  }

  /** Entry `k` of the `normalized` array: entries [0, length) are the X
      positions, and entries [(c + 1) * length, (c + 2) * length) the
      flipped Y positions of line column `c`. */
  function NormalizedAt(data: Chart, width: int, height: int, k: int): real
    requires Normalizable(data) && 0 <= k < |data.x.values| * (|data.columns| + 1)
  {
    var length := |data.x.values|;
    if k < length then NormX(data.x.values[k], data.x.minValue, data.x.maxValue, width)
    else
      RowOf(k, length, |data.columns|);
      var col := data.columns[k / length - 1];
      NormY(col.values[k % length], col.minValue, col.maxValue, height)
  }

  /** Index arithmetic of the `normalized` layout. */
  lemma RowOf(k: int, length: int, colCount: int)
    requires 0 < length <= k < length * (colCount + 1)
    ensures 1 <= k / length <= colCount && 0 <= k % length < length
  {
    var q := k / length;
    assert k == q * length + k % length;
    MulMono(q, 0, length);
    MulMono(colCount + 1, q, length);
  }

  /** Where entry `i` of line column `c` is. */
  lemma RowIndex(c: int, i: int, length: int, colCount: int)
    requires 0 <= c < colCount && 0 <= i < length
    ensures length <= (c + 1) * length + i < length * (colCount + 1)
    ensures ((c + 1) * length + i) / length == c + 1 && ((c + 1) * length + i) % length == i
  {
    MulMono(1, c + 1, length);
    MulMono(c + 2, colCount + 1, length);
    assert (c + 2) * length == (c + 1) * length + length;
    var k := (c + 1) * length + i;
    RowOf(k, length, colCount);
    var q := k / length;
    assert k == q * length + k % length;
    MulMono(q, c, length);
    MulMono(c + 2, q, length);
  }

  lemma MulMono(a: int, b: int, m: int)
    requires m >= 0
    ensures a <= b ==> a * m <= b * m
  {
    if a <= b {
      assert b * m - a * m == (b - a) * m;
    }
  }

  lemma DivSelf(d: real)
    requires d > 0.0
    ensures d / d == 1.0
  {
  }

  lemma DivTimes(a: real, d: real)
    requires d > 0.0
    ensures (a / d) * d == a
  {
  }

  lemma Cancel(x: real, y: real, d: real)
    requires d > 0.0 && x * d == y * d
    ensures x == y
  {
    assert (x - y) * d == 0.0;
  }

  lemma OneMinusFraction(a: real, d: real)
    requires d > 0.0
    ensures 1.0 - a / d == (d - a) / d
  {
    DivTimes(d - a, d);
    DivTimes(a, d);
    assert (1.0 - a / d) * d == d - a;
    Cancel(1.0 - a / d, (d - a) / d, d);
  }

  lemma DivMono(a: real, b: real, d: real)
    requires a <= b && d > 0.0
    ensures a / d <= b / d
  {
    assert b / d - a / d == (b - a) / d;
  }

  /** Every normalized entry of a chart whose values lie within their
      columns' bounds is a pixel position: X in [0, width] and Y in
      [0, height]. */
  lemma NormalizedInBounds(data: Chart, width: int, height: int, k: int)
    requires Normalizable(data) && 0 <= k < |data.x.values| * (|data.columns| + 1)
    requires width >= 0 && height >= 0
    requires WithinBounds(data)
    ensures k < |data.x.values| ==> 0.0 <= NormalizedAt(data, width, height, k) <= width as real
    ensures k >= |data.x.values| ==> 0.0 <= NormalizedAt(data, width, height, k) <= height as real
  {
    var length := |data.x.values|;
    if k < length {
      NormXBounds(data.x.values[k], data.x.minValue, data.x.maxValue, width);
    } else {
      RowOf(k, length, |data.columns|);
      var col := data.columns[k / length - 1];
      NormYBounds(col.values[k % length], col.minValue, col.maxValue, height);
    }
  }

  /** Every value of every column lies within the column's minimum and
      maximum, as `readColumns` computes them. */
  predicate WithinBounds(data: Chart)
  {
    && (forall i :: 0 <= i < |data.x.values| ==> data.x.minValue <= data.x.values[i] <= data.x.maxValue)
    && (forall c, i :: 0 <= c < |data.columns| && 0 <= i < |data.columns[c].values| ==>
          data.columns[c].minValue <= data.columns[c].values[i] <= data.columns[c].maxValue)
  }
}
