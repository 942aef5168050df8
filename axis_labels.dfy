/** The axis decisions of `ChartDrawable`: the "nice" step between Y
    guidelines (a power of ten times 1, 2 or 5), the guideline values
    themselves, and the stride between X labels (a power of two of X
    values, doubled until every label fits). Text measurement and
    formatting are parameters. */
module AxisLabels {
  import opened JavaLang
  import Search

  // ------------------------------------------------------------ Y guidelines

  function Pow10(e: int): (p: real)
    ensures p > 0.0
    decreases if e < 0 then -e else e
  {
    if e == 0 then 1.0
    else if e > 0 then 10.0 * Pow10(e - 1)
    else Pow10(e + 1) / 10.0
  }

  lemma {:induction false} Pow10Succ(e: int)
    ensures Pow10(e + 1) == 10.0 * Pow10(e)
    decreases if e < 0 then -e else e
  {
    if e < -1 {
      Pow10Succ(e + 1);
    }
  }

  /** The two loops of `drawGuidelinesOrNumbers` (lines 319-327): the step
      is brought into [1, 10) by powers of ten, counted in `exp`. A negative
      step makes the second loop run forever, so the step must be positive. */
  method NormaliseStep(step: real) returns (mantissa: real, exp: int)
    requires step > 0.0
    ensures 1.0 <= mantissa < 10.0
    ensures mantissa * Pow10(exp) == step
  {
    mantissa, exp := DivideByTen(step);
    mantissa, exp := MultiplyByTen(step, mantissa, exp);
  }

  /** The first loop: divide by ten while the step is at least 10. */
  method DivideByTen(step: real) returns (mantissa: real, exp: int)
    requires step > 0.0
    ensures 0.0 < mantissa < 10.0
    ensures mantissa * Pow10(exp) == step
  {
    mantissa := step;
    exp := 0;
    while mantissa >= 10.0
      invariant mantissa > 0.0
      invariant mantissa * Pow10(exp) == step
      decreases mantissa.Floor
    {
      Pow10Succ(exp);
      TenthKeepsProduct(mantissa, Pow10(exp), Pow10(exp + 1));
      mantissa := mantissa / 10.0;
      exp := exp + 1;
    }
  }

  /** The second loop: multiply by ten while the step is below 1. */
  method MultiplyByTen(step: real, m: real, e: int) returns (mantissa: real, exp: int)
    requires 0.0 < m < 10.0 && m * Pow10(e) == step
    ensures 1.0 <= mantissa < 10.0
    ensures mantissa * Pow10(exp) == step
  {
    mantissa, exp := m, e;
    while mantissa < 1.0
      invariant 0.0 < mantissa < 10.0
      invariant mantissa * Pow10(exp) == step
      decreases (1.0 / mantissa).Floor
    {
      Pow10Succ(exp - 1);
      TenthKeepsProduct(Pow10(exp), mantissa, mantissa * 10.0);
      ReciprocalShrinks(mantissa);
      mantissa := mantissa * 10.0;
      exp := exp - 1;
    }
  }

  /** Moving a factor of ten from one side of a product to the other. */
  lemma TenthKeepsProduct(m: real, p: real, p10: real)
    requires p10 == 10.0 * p
    ensures (m / 10.0) * p10 == m * p
  {
  }

  lemma ReciprocalShrinks(m: real)
    requires 0.0 < m < 1.0
    ensures 1.0 / (m * 10.0) == (1.0 / m) / 10.0
    ensures ((1.0 / m) / 10.0).Floor < (1.0 / m).Floor
  {
    var r := 1.0 / m;
    assert r > 1.0 by {
      assert r * m == 1.0;
    }
  }

  function AbsReal(x: real): real { if x < 0.0 then -x else x }

  /** The choice among 1, 2 and 5 by the distances `one`, `two` and `five`
      (lines 330-340): the first candidate not farther than the next. */
  function SnapMantissa(m: real): real
  {
    var one := AbsReal(m - 1.0);
    var two := AbsReal(m - 2.0);
    var five := AbsReal(m - 5.0);
    if one <= two then 1.0 else if two <= five then 2.0 else 5.0
  }

  /** On [1, 10) the snap is to 1 up to 1.5, to 2 up to 3.5 and to 5
      above: the nearest candidate, a tie going to the smaller one. */
  lemma SnapMantissaSpec(m: real)
    requires 1.0 <= m < 10.0
    ensures SnapMantissa(m) == 1.0 <==> m <= 1.5
    ensures SnapMantissa(m) == 2.0 <==> 1.5 < m <= 3.5
    ensures SnapMantissa(m) == 5.0 <==> 3.5 < m
  {
  }

  /** The step of the Y guidelines: the mantissa of `step` snapped, times
      the power of ten that `step` was divided by. */
  method RoundStep(step: real) returns (roundStep: real)
    requires step > 0.0
    ensures exists e :: roundStep == SnapMantissa(step / Pow10(e)) * Pow10(e) && 1.0 <= step / Pow10(e) < 10.0
  {
    var mantissa, exp := NormaliseStep(step);
    assert step / Pow10(exp) == mantissa;
    roundStep := SnapMantissa(mantissa) * Pow10(exp);
  }

  /** The snapped step is within a factor of two of the step it replaces:
      1, 2 and 5 are each within that factor of any mantissa in [1, 10)
      that they are chosen for. */
  lemma RoundStepNearStep(m: real, p: real)
    requires 1.0 <= m < 10.0 && p > 0.0
    ensures SnapMantissa(m) * p > 0.0
    ensures m * p / 2.0 <= SnapMantissa(m) * p <= m * p * 2.0
  {
    SnapMantissaSpec(m);
  }

  /** The first guideline, `roundStep * Math.ceil(yMin / roundStep)`. */
  function FirstGuideline(yMin: real, roundStep: real): real
    requires roundStep > 0.0
  {
    roundStep * Ceil(yMin / roundStep) as real
  }

  /** The first guideline is the least multiple of the step that is not
      below `yMin`. */
  lemma FirstGuidelineSpec(yMin: real, roundStep: real)
    requires roundStep > 0.0
    ensures FirstGuideline(yMin, roundStep) >= yMin
    ensures FirstGuideline(yMin, roundStep) - roundStep < yMin
    ensures FirstGuideline(yMin, roundStep) == Ceil(yMin / roundStep) as real * roundStep
  {
    var x := yMin / roundStep;
    var c := Ceil(x) as real;
    assert c - 1.0 < x <= c;
    assert x * roundStep == yMin;
    MulBounds(c - 1.0, x, c, roundStep);
    assert (c - 1.0) * roundStep == roundStep * c - roundStep;
    assert FirstGuideline(yMin, roundStep) == roundStep * c;
    assert (c - 1.0) * roundStep < yMin;
    assert roundStep * c - roundStep < yMin;
  }

  lemma MulBounds(lo: real, x: real, hi: real, k: real)
    requires k > 0.0 && lo < x <= hi
    ensures lo * k < x * k <= hi * k
  {
  }

  /** The guideline values that the loop at lines 354-369 visits: from the
      first guideline, one step at a time, while below `yMax`. */
  method Guidelines(yMin: real, yMax: real, roundStep: real) returns (gs: seq<real>)
    requires roundStep > 0.0
    ensures forall k :: 0 <= k < |gs| ==> gs[k] == FirstGuideline(yMin, roundStep) + k as real * roundStep
    ensures forall k :: 0 <= k < |gs| ==> gs[k] < yMax
    ensures FirstGuideline(yMin, roundStep) + |gs| as real * roundStep >= yMax
  {
    var first := FirstGuideline(yMin, roundStep);
    ghost var n := if yMax <= first then 0 else Ceil((yMax - first) / roundStep);
    var guideline := first;
    gs := [];
    while guideline < yMax
      invariant guideline == first + |gs| as real * roundStep
      invariant forall k :: 0 <= k < |gs| ==> gs[k] == first + k as real * roundStep
      invariant forall k :: 0 <= k < |gs| ==> gs[k] < yMax
      invariant |gs| <= n
      decreases n - |gs|
    {
      StepsBelowBound(first, yMax, roundStep, |gs|);
      gs := gs + [guideline];
      guideline := guideline + roundStep;
    }
  }

  lemma StepsBelowBound(first: real, yMax: real, roundStep: real, k: nat)
    requires roundStep > 0.0 && first + k as real * roundStep < yMax
    ensures k < Ceil((yMax - first) / roundStep)
  {
    assert k as real * roundStep < yMax - first;
    assert k as real < (yMax - first) / roundStep;
  }

  // ------------------------------------------------------------ X labels

  /** `textLengthX = highest + (textLengthX > highest ? highest : 0)` for
      `highest = Integer.highestOneBit(textLengthX)` (lines 386-387), in
      `int` arithmetic. */
  function RoundUpToPowerOfTwo(n: int): int
    requires 1 <= n <= INT_MAX
  {
    var highest := HighestOneBit(n);
    WrapInt(highest + (if n > highest then highest else 0))
  }

  /** A stride up to 2^30 is rounded up to the least power of two not
      below it; above that the doubled power wraps to `Integer.MIN_VALUE`. */
  lemma RoundUpToPowerOfTwoSpec(n: int)
    requires 1 <= n <= INT_MAX
    ensures n <= 0x4000_0000 ==>
              var p := RoundUpToPowerOfTwo(n);
              IsPowerOfTwo(p) && n <= p < 2 * n
    ensures n > 0x4000_0000 ==> RoundUpToPowerOfTwo(n) == INT_MIN
  {
    if n > 0x4000_0000 {
      RoundUpLarge(n);
    } else {
      RoundUpSmall(n);
    }
  }

  lemma RoundUpLarge(n: int)
    requires 0x4000_0000 < n <= INT_MAX
    ensures RoundUpToPowerOfTwo(n) == INT_MIN
  {
    HighestOneBitOfLarge(n);
    assert WrapInt(0x8000_0000) == INT_MIN;
  }

  lemma RoundUpSmall(n: int)
    requires 1 <= n <= 0x4000_0000
    ensures var p := RoundUpToPowerOfTwo(n);
            IsPowerOfTwo(p) && n <= p < 2 * n
  {
    var h := HighestOneBit(n);
    assert h <= n < 2 * h;
    if n > h {
      PowerOfTwoDoubles(h);
      assert RoundUpToPowerOfTwo(n) == h + h;
    } else {
      assert RoundUpToPowerOfTwo(n) == h;
    }
  }

  lemma HighestOneBitOfLarge(n: int)
    requires 0x4000_0000 < n <= INT_MAX
    ensures HighestOneBit(n) == 0x4000_0000
  {
    var h := HighestOneBit(n);
    PowerOfTwoThirty();
    PowerBelowIsSmaller(h, 0x4000_0000);
    PowerBelowIsSmaller(0x4000_0000, h);
  }

  lemma PowerOfTwoThirty()
    ensures IsPowerOfTwo(0x4000_0000)
  {
    Pow2IsPowerOfTwo(30);
    assert Pow2(10) == 1024;
    Pow2Add(10, 10);
    Pow2Add(20, 10);
  }

  lemma {:induction false} Pow2Add(a: nat, b: nat)
    ensures Pow2(a + b) == Pow2(a) * Pow2(b)
    decreases a
  {
    if a > 0 {
      Pow2Add(a - 1, b);
    }
  }

  lemma {:induction false} Pow2IsPowerOfTwo(k: nat)
    ensures IsPowerOfTwo(Pow2(k))
  {
    if k > 0 {
      Pow2IsPowerOfTwo(k - 1);
      PowerOfTwoDoubles(Pow2(k - 1));
    }
  }

  /** Of two powers of two, the one less than twice the other is not above it. */
  lemma {:induction false} PowerBelowIsSmaller(p: int, q: int)
    requires IsPowerOfTwo(p) && IsPowerOfTwo(q) && p < 2 * q
    ensures p <= q
    decreases q
  {
    if p > 1 && q > 1 {
      PowerBelowIsSmaller(p / 2, q / 2);
    }
  }

  /** The initial stride of `drawXValues` (lines 384-387): how many X values
      32 px cover, at least one, rounded up to a power of two. A non-positive
      pixel width per X value is not modelled. */
  function InitialStride(xWidthPx: real): int
    requires xWidthPx > 0.0
  {
    var n := IntCast(32.0 / xWidthPx);
    RoundUpToPowerOfTwo(if n == 0 then 1 else n)
  }

  lemma InitialStrideSpec(xWidthPx: real)
    requires xWidthPx > 0.0
    ensures var n := Truncate(32.0 / xWidthPx);
            n <= 0x4000_0000 ==>
              var p := InitialStride(xWidthPx);
              IsPowerOfTwo(p) && (if n == 0 then 1 else n) <= p && p < 2 * (if n == 0 then 1 else n)
  {
    var n := IntCast(32.0 / xWidthPx);
    assert n >= 0;
    RoundUpToPowerOfTwoSpec(if n == 0 then 1 else n);
  }

  /** `textLengthX *= 2` in `int` arithmetic, `k` times. */
  function Doubled(p: int, k: nat): int
  {
    if k == 0 then p else WrapInt(2 * Doubled(p, k - 1))
  }

  /** Without wrap-around, doubling a power of two `k` times gives a power
      of two `2^k` times as large. */
  lemma {:induction false} DoubledPowerOfTwo(p: int, k: nat, bound: int)
    requires IsPowerOfTwo(p) && bound == p * Pow2(k) && bound <= INT_MAX
    ensures Doubled(p, k) == bound && IsPowerOfTwo(Doubled(p, k))
  {
    if k > 0 {
      var q := Pow2(k - 1);
      Pow2Positive(k - 1);
      var pq := p * q;
      MulPositive(p, q);
      MulTwice(p, q);
      DoubledPowerOfTwo(p, k - 1, pq);
      PowerOfTwoDoubles(pq);
    }
  }

  lemma MulTwice(a: int, b: int)
    ensures a * (2 * b) == 2 * (a * b)
  {
  }

  lemma MulPositive(a: int, b: int)
    requires a >= 1 && b >= 1
    ensures a * b >= 1
  {
  }

  function Pow2(k: nat): int
  {
    if k == 0 then 1 else 2 * Pow2(k - 1)
  }

  lemma {:induction false} Pow2Positive(k: nat)
    ensures Pow2(k) >= 1
  {
    if k > 0 {
      Pow2Positive(k - 1);
    }
  }

  /** The search of lines 391-403. `fits(textLengthX)` is the dry run of
      `fitTexts` at that stride, and the search assumes that some stride
      it reaches fits. The stride found is doubled once more, and 0 (the
      end of the wrap-around) becomes 1. */
  method StrideSearch(start: int, fits: int -> int) returns (stride: int, doublings: nat)
    requires exists k: nat :: fits(Doubled(start, k)) == 1
    ensures fits(Doubled(start, doublings)) == 1
    ensures forall j: nat :: j < doublings ==> fits(Doubled(start, j)) != 1
    ensures stride == (if Doubled(start, doublings + 1) == 0 then 1 else Doubled(start, doublings + 1))
  {
    ghost var bound: nat :| fits(Doubled(start, bound)) == 1;
    var textLengthX := start;
    doublings := 0;
    while true
      invariant textLengthX == Doubled(start, doublings)
      invariant forall j: nat :: j < doublings ==> fits(Doubled(start, j)) != 1
      invariant doublings <= bound
      decreases bound - doublings
    {
      var requiredSpace := fits(textLengthX);
      if requiredSpace == 1 {
        break;
      }
      textLengthX := WrapInt(textLengthX * 2);
      doublings := doublings + 1;
    }
    stride := WrapInt(textLengthX * 2);
    if stride == 0 {
      stride := 1;
    }
  }

  /** The factor returned by the dry run when a text of width `textWidth`
      does not fit in `maxTextWidth` (line 480). */
  function GrowthFactor(textWidth: real, maxTextWidth: real): int
    requires maxTextWidth > 0.0
  {
    var h := Ceil(textWidth / maxTextWidth);
    var hi := IntCast(h as real);
    var highest := if hi >= 0 then HighestOneBit(hi) else INT_MIN;
    if highest > 2 then highest else 2
  }

  /** A text that does not fit asks for a power of two of at least 2. */
  lemma GrowthFactorSpec(textWidth: real, maxTextWidth: real)
    requires maxTextWidth > 0.0 && textWidth > maxTextWidth
    ensures GrowthFactor(textWidth, maxTextWidth) >= 2
    ensures IsPowerOfTwo(GrowthFactor(textWidth, maxTextWidth))
  {
    assert textWidth / maxTextWidth > 1.0;
    assert IsPowerOfTwo(2) by { assert 2 / 2 == 1; }
  }

  /** `(int) firstVisibleX / length * length` (line 464), which the cast
      binding tighter than the division makes 0 whenever `firstVisibleX`
      lies in [0, length): the labels are laid out from X index 0 whatever
      the scroll position. */
  lemma LabelsStartAtZero(firstVisibleX: real, length: int)
    requires length > 0 && 0.0 <= firstVisibleX < length as real
    ensures JavaDiv(IntCast(firstVisibleX), length) * length == 0
  {
    var t := IntCast(firstVisibleX);
    assert 0 <= t < length by {
      assert Truncate(firstVisibleX) == firstVisibleX.Floor;
    }
    assert t / length == 0;
    assert JavaDiv(t, length) == 0;
  }

  /** The X indices at which labels are placed, and how many there are
      (lines 464-471): label `i` is at `firstVisibleXRnd + i * textLengthX`,
      mapped to pixels by `width * x / length` in `int` arithmetic. */
  datatype LabelLayout = LabelLayout(firstXRnd: int, count: int)

  function Layout(firstVisibleX: real, firstInvisibleX: real, textLengthX: int, length: int): LabelLayout
    requires length > 0 && textLengthX >= 1
  {
    var firstVisibleXRnd := WrapInt(JavaDiv(IntCast(firstVisibleX), length) * length);
    var firstInvisibleXRnd := WrapInt(IntCast(firstInvisibleX) + textLengthX);
    var count := IntCast(Ceil(WrapInt(firstInvisibleXRnd - firstVisibleXRnd) as real / textLengthX as real) as real);
    LabelLayout(firstVisibleXRnd, count)
  }

  function LabelPixel(width: int, layout: LabelLayout, i: int, textLengthX: int, length: int): int
    requires length > 0
  {
    var x := WrapInt(layout.firstXRnd + WrapInt(i * textLengthX));
    JavaDiv(WrapInt(width * x), length)
  }

  /** The dry run of `fitTexts` (lines 460-481 and 493 with `canvas ==
      null`): each label's text is measured (`measure` is the formatter
      followed by `measureText`), and the first one wider than
      `maxTextWidth` decides the answer. A chart without points divides
      by zero. */
  method FitTextsDryRun(normalized: seq<real>, xValues: seq<real>, width: int,
                        firstVisibleX: real, firstInvisibleX: real, textLengthX: int,
                        maxTextWidth: real, measure: real -> real)
    returns (r: Result<int>)
    requires |xValues| <= |normalized| && textLengthX >= 1 && maxTextWidth > 0.0
    ensures |xValues| == 0 <==> r == Throw(Arithmetic)
    ensures r.Ok? ==> r.value == 1 || (r.value >= 2 && IsPowerOfTwo(r.value))
    ensures r.Ok? ==> (r.value == 1 <==> forall i :: 0 <= i < Layout(firstVisibleX, firstInvisibleX, textLengthX, |xValues|).count ==>
                           LabelFits(normalized, xValues, width, firstVisibleX, firstInvisibleX, textLengthX, maxTextWidth, measure, i))
  {
    var length := |xValues|;
    if length == 0 {
      return Throw(Arithmetic);
    }
    var layout := Layout(firstVisibleX, firstInvisibleX, textLengthX, length);
    var last := layout.count - 1;
    var i := 0;
    while i <= last
      invariant 0 <= i <= last + 1 || (i == 0 && last < 0)
      invariant forall j :: 0 <= j < i ==>
                  LabelFits(normalized, xValues, width, firstVisibleX, firstInvisibleX, textLengthX, maxTextWidth, measure, j)
    {
      var xPos := LabelPixel(width, layout, i, textLengthX, length);
      var xIdx := IndexOfClosestAt(normalized, length, xPos as real);
      var textWidth := measure(xValues[xIdx]);
      if textWidth > maxTextWidth {
        assert !LabelFits(normalized, xValues, width, firstVisibleX, firstInvisibleX, textLengthX, maxTextWidth, measure, i);
        GrowthFactorSpec(textWidth, maxTextWidth);
        return Ok(GrowthFactor(textWidth, maxTextWidth));
      }
      i := i + 1;
    }
    assert i >= layout.count;
    return Ok(1);
  }

  /** Label `i` fits: the text for the X value closest to its pixel is not
      wider than `maxTextWidth`. */
  predicate LabelFits(normalized: seq<real>, xValues: seq<real>, width: int,
                      firstVisibleX: real, firstInvisibleX: real, textLengthX: int,
                      maxTextWidth: real, measure: real -> real, i: int)
    requires 0 < |xValues| <= |normalized| && textLengthX >= 1
  {
    var layout := Layout(firstVisibleX, firstInvisibleX, textLengthX, |xValues|);
    var xPos := LabelPixel(width, layout, i, textLengthX, |xValues|);
    measure(xValues[IndexOfClosestAt(normalized, |xValues|, xPos as real)]) <= maxTextWidth
  }

  /** `indexOfClosest(normalized, 0, length, x)` on a non-empty prefix. */
  function IndexOfClosestAt(normalized: seq<real>, length: int, x: real): (i: int)
    requires 0 < length <= |normalized|
    ensures 0 <= i < length
  {
    Search.IndexOfClosestInRange(normalized, 0, length, x);
    Search.IndexOfClosest(normalized, 0, length, x)
  }
}
