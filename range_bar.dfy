/** `RangeBar`: the window-selection bar under the chart. It holds a
    selection `[selectionStart, selectionEnd]` out of `max`, validates what
    callers set, and moves the selection or one of its handles on touches.

    The view's size, paddings and window borders are fields set by
    `SetLayout` and `SetWindowBorders`; drawing is not modelled. The
    listener is either present or not, and every call it receives is
    appended to `notified`. Touch X coordinates are reals; NaN, the "no
    previous touch" mark of `prevX`, is `None`. */
module RangeBars {
  import opened JavaLang
  import Normalization

  /** `MotionEvent.ACTION_DOWN` and `MotionEvent.ACTION_MOVE`. */
  const ACTION_DOWN: int := 0
  const ACTION_MOVE: int := 2

  /** The constant heads of the exception messages of `setMax` and
      `setSelectedRange`; the numbers appended to them are not modelled. */
  const MAX_MESSAGE: string := "max must be > 0, given "
  const RANGE_MESSAGE: string := "selection must be in [0; "
  const ORDER_MESSAGE: string := "selectionStart must be <= selectionEnd, given ["

  function IntMin(a: int, b: int): int { if a <= b then a else b }
  function IntMax(a: int, b: int): int { if a >= b then a else b }
  function RealMin(a: real, b: real): real { if a <= b then a else b }
  function RealMax(a: real, b: real): real { if a >= b then a else b }

  /** The touched position of `selection(left, x, minDistance)` (lines
      119-122), relative to the bar's first inner pixel `paddingLeft`: kept
      `minDistance` away from the far end, then clamped to `[0, width]`. */
  function Clamped(left: bool, x: real, minDistance: int, paddingLeft: int, innerWidth: int): (c: real)
    ensures innerWidth >= 0 ==> 0.0 <= c <= innerWidth as real
    ensures innerWidth < 0 ==> c == innerWidth as real
  {
    var px := x - paddingLeft as real;
    var normalX := if left then RealMin(px, WrapInt(innerWidth - minDistance) as real)
                   else RealMax(px, minDistance as real);
    RealMin(innerWidth as real, RealMax(0.0, normalX))
  }

  /** `normalX / width * max` (line 123). */
  function Fraction(c: real, innerWidth: int, max: int): real
    requires innerWidth != 0
  {
    c / innerWidth as real * max as real
  }

  /** `(int) (normalX / width * max)` (line 123). A zero width divides 0 by
      0, and the cast of NaN is 0. */
  function Scale(c: real, innerWidth: int, max: int): int
  {
    if innerWidth == 0 then 0 else IntCast(Fraction(c, innerWidth, max))
  }

  /** `selection(left, x, minDistance)` (lines 118-124): the clamped
      position scaled to `[0, max]`. */
  function Selection(left: bool, x: real, minDistance: int, paddingLeft: int, innerWidth: int, max: int): int
  {
    Scale(Clamped(left, x, minDistance, paddingLeft, innerWidth), innerWidth, max)
  }

  /** `0 <= a <= b <= max` and its real counterpart, each kept as one term,
      so that the solver matches them whole instead of comparing products. */
  predicate Ordered(a: int, b: int, max: int) { 0 <= a <= b <= max }
  predicate Between(a: real, b: real, m: real) { 0.0 <= a <= b <= m }

  /** Two positions in `[0, width]` scale, in order, into `[0, max]`. */
  lemma ScaleBounds(c: real, d: real, innerWidth: int, max: int)
    requires 1 <= max <= INT_MAX && innerWidth > 0 && Between(c, d, innerWidth as real)
    ensures Ordered(Scale(c, innerWidth, max), Scale(d, innerWidth, max), max)
  {
    FractionBetween(c, d, innerWidth, max);
    CastBetween(Fraction(c, innerWidth, max), Fraction(d, innerWidth, max), max);
  }

  lemma FractionBetween(c: real, d: real, innerWidth: int, max: int)
    requires innerWidth > 0 && Between(c, d, innerWidth as real) && max >= 0
    ensures Between(Fraction(c, innerWidth, max), Fraction(d, innerWidth, max), max as real)
  {
    FractionsBetween(c, d, innerWidth as real, max as real);
  }

  lemma FractionsBetween(c: real, d: real, w: real, m: real)
    requires w > 0.0 && Between(c, d, w) && m >= 0.0
    ensures Between(c / w * m, d / w * m, m)
  {
    FractionOfWidth(c, w, m);
    FractionOfWidth(d, w, m);
    ScaleMonotone(c, d, w, m);
  }

  lemma CastBetween(a: real, b: real, max: int)
    requires Between(a, b, max as real) && max <= INT_MAX
    ensures Ordered(IntCast(a), IntCast(b), max)
  {
    TruncateMono(a, b);
    TruncateMono(b, max as real);
    assert Truncate(max as real) == max;
  }

  /** Whatever the touch and the layout, the selection lies in `[0, max]`;
      on a bar of negative width the clamp gives the width itself, and the
      selection is `max`. */
  lemma SelectionInRange(left: bool, x: real, minDistance: int, paddingLeft: int, innerWidth: int, max: int)
    requires 1 <= max <= INT_MAX
    ensures 0 <= Selection(left, x, minDistance, paddingLeft, innerWidth, max) <= max
    ensures innerWidth < 0 ==> Selection(left, x, minDistance, paddingLeft, innerWidth, max) == max
  {
    var w := innerWidth as real;
    var clamped := Clamped(left, x, minDistance, paddingLeft, innerWidth);
    if innerWidth > 0 {
      ScaleBounds(clamped, clamped, innerWidth, max);
    } else if innerWidth < 0 {
      ScaleOfNegativeWidth(innerWidth, max);
    }
  }

  /** On a negative width the clamped position is the width, a fraction
      of 1. */
  lemma ScaleOfNegativeWidth(innerWidth: int, max: int)
    requires innerWidth < 0 && 1 <= max <= INT_MAX
    ensures Scale(innerWidth as real, innerWidth, max) == max
  {
    DivSelfNonZero(innerWidth as real);
    assert Fraction(innerWidth as real, innerWidth, max) == max as real;
  }

  lemma DivSelfNonZero(w: real)
    requires w != 0.0
    ensures w / w == 1.0
  {
  }

  lemma FractionOfWidth(c: real, w: real, m: real)
    requires 0.0 <= c <= w && w > 0.0 && m >= 0.0
    ensures 0.0 <= c / w * m <= m
  {
    Normalization.DivMono(0.0, c, w);
    Normalization.DivMono(c, w, w);
    Normalization.DivSelf(w);
    var f := c / w;
    assert 0.0 <= f <= 1.0;
    assert m - f * m == (1.0 - f) * m;
  }

  lemma TruncateMono(a: real, b: real)
    requires 0.0 <= a <= b
    ensures 0 <= Truncate(a) <= Truncate(b)
  {
  }

  /** The selection moves with the touch: on a positive width a touch
      further right never gives a smaller selection. */
  lemma SelectionMonotone(left: bool, x: real, y: real, minDistance: int, paddingLeft: int, innerWidth: int, max: int)
    requires 1 <= max <= INT_MAX && innerWidth > 0 && x <= y
    ensures Selection(left, x, minDistance, paddingLeft, innerWidth, max) <=
            Selection(left, y, minDistance, paddingLeft, innerWidth, max)
  {
    var cx := Clamped(left, x, minDistance, paddingLeft, innerWidth);
    var cy := Clamped(left, y, minDistance, paddingLeft, innerWidth);
    assert Between(cx, cy, innerWidth as real);
    ScaleBounds(cx, cy, innerWidth, max);
  }

  lemma ScaleMonotone(a: real, b: real, w: real, m: real)
    requires a <= b && w > 0.0 && m >= 0.0
    ensures a / w * m <= b / w * m
  {
    assert b / w * m - a / w * m == (b - a) / w * m;
  }

  /** `(int) ((x - prevX) / width * max)` (line 102). A zero width divides
      by zero: a float infinity, cast to `INT_MAX` or `INT_MIN`, or NaN,
      cast to 0, when the touch did not move. */
  function DragDistance(x: real, prevX: real, innerWidth: int, max: int): int
  {
    if innerWidth == 0 then (if x > prevX then INT_MAX else if x < prevX then INT_MIN else 0)
    else IntCast((x - prevX) / innerWidth as real * max as real)
  }

  /** `paddingLeft + getInnerWidth() * selection / max` in `int` arithmetic
      (line 205). */
  function SelectionPx(selection: int, paddingLeft: int, innerWidth: int, max: int): int
    requires max >= 1
  {
    WrapInt(paddingLeft + JavaDiv(WrapInt(innerWidth * selection), max))
  }

  /** Without overflow, a selection in `[0, max]` is a pixel of the bar's
      inner area, 0 its left edge and `max` its right edge, and a larger
      selection is never left of a smaller one. */
  lemma SelectionPxBounds(s: int, t: int, paddingLeft: int, innerWidth: int, max: int)
    requires 1 <= max && 0 <= s <= t <= max && 0 <= innerWidth
    requires innerWidth * max <= INT_MAX && 0 <= paddingLeft && paddingLeft + innerWidth <= INT_MAX
    ensures paddingLeft <= SelectionPx(s, paddingLeft, innerWidth, max) <= paddingLeft + innerWidth
    ensures SelectionPx(s, paddingLeft, innerWidth, max) <= SelectionPx(t, paddingLeft, innerWidth, max)
    ensures SelectionPx(0, paddingLeft, innerWidth, max) == paddingLeft
    ensures SelectionPx(max, paddingLeft, innerWidth, max) == paddingLeft + innerWidth
  {
    var ps, pt, pm := innerWidth * s, innerWidth * t, innerWidth * max;
    ScaleLe(innerWidth, 0, s);
    ScaleLe(innerWidth, s, t);
    ScaleLe(innerWidth, t, max);
    assert 0 <= ps <= pt <= pm <= INT_MAX;
    DivMonoInt(ps, pt, max);
    DivMonoInt(pt, pm, max);
    MulDivCancel(innerWidth, max);
    assert SelectionPx(s, paddingLeft, innerWidth, max) == paddingLeft + ps / max;
    assert SelectionPx(t, paddingLeft, innerWidth, max) == paddingLeft + pt / max;
    assert SelectionPx(max, paddingLeft, innerWidth, max) == paddingLeft + pm / max;
  }

  lemma MulDivCancel(k: int, d: int)
    requires d >= 1
    ensures (k * d) / d == k
  {
    var q, r := (k * d) / d, (k * d) % d;
    assert k * d == q * d + r && 0 <= r < d;
    assert (k - q) * d == r;
    if k > q {
      ScaleLe(d, 1, k - q);
    } else if k < q {
      ScaleLe(d, k - q, -1);
    }
  }

  lemma ScaleLe(k: int, a: int, b: int)
    requires k >= 0 && a <= b
    ensures k * a <= k * b
  {
    assert k * b - k * a == k * (b - a);
  }

  lemma DivMonoInt(a: int, b: int, d: int)
    requires 0 <= a <= b && d >= 1
    ensures 0 <= a / d <= b / d
  {
    var qa, qb := a / d, b / d;
    assert a == qa * d + a % d;
    assert b == qb * d + b % d;
    if qa > qb {
      Normalization.MulMono(qb + 1, qa, d);
    }
    if qa < 0 {
      Normalization.MulMono(qa, -1, d);
    }
  }

  /** The clamp of a whole-window drag (lines 103-107), in `int` arithmetic. */
  function ClampDistance(start: int, end: int, max: int, distance: int): int
  {
    if WrapInt(start + distance) < 0 then WrapInt(-start)
    else if WrapInt(end + distance) > max then WrapInt(max - end)
    else distance
  }

  /** The selection after a whole-window drag by `distance`. */
  function Dragged(start: int, end: int, max: int, distance: int): (int, int)
  {
    var d := ClampDistance(start, end, max, distance);
    (WrapInt(start + d), WrapInt(end + d))
  }

  /** What the listener receives when the selection goes from `before` to
      `after`: the new pair, once, if it differs and a listener is set. */
  function Notice(before: (int, int), after: (int, int), listening: bool): seq<(int, int)>
  {
    if before != after && listening then [after] else []
  }

  /** A whole-window drag of a selection inside `[0, max]` keeps the window's
      size and stays inside `[0, max]`, and moves by the full distance when
      that fits. The distance is taken small enough for the sums not to
      wrap. */
  lemma DragKeepsWindow(start: int, end: int, max: int, distance: int)
    requires 0 <= start <= end <= max <= INT_MAX
    requires INT_MIN <= distance <= INT_MAX - max
    ensures var d := ClampDistance(start, end, max, distance);
            && 0 <= start + d && end + d <= max
            && Dragged(start, end, max, distance) == (start + d, end + d)
            && (0 <= start + distance && end + distance <= max ==> d == distance)
            && (start + distance < 0 ==> start + d == 0)
            && (start + distance >= 0 && end + distance > max ==> end + d == max)
  {
  }

  /** A handle drag (line 112): the left handle is kept `minWindowSize` left
      of the end, the right one `minWindowSize` right of the start. */
  function HandleMove(left: bool, newSelection: int, start: int, end: int, minWindowSize: int): (int, int)
  {
    if left then (IntMin(WrapInt(end - minWindowSize), newSelection), end)
    else (start, IntMax(WrapInt(start + minWindowSize), newSelection))
  }

  /** The left handle changes only the start, which ends up at most
      `end - minWindowSize`, and is the touched selection when that is
      allowed; the right handle likewise changes only the end. */
  lemma HandleMoveSpec(left: bool, newSelection: int, start: int, end: int, minWindowSize: int)
    requires INT_MIN <= end - minWindowSize <= INT_MAX && INT_MIN <= start + minWindowSize <= INT_MAX
    ensures var r := HandleMove(left, newSelection, start, end, minWindowSize);
            && (left ==> r.1 == end && r.0 <= end - minWindowSize)
            && (left ==> (r.0 == newSelection <==> newSelection <= end - minWindowSize))
            && (!left ==> r.0 == start && r.1 >= start + minWindowSize)
            && (!left ==> (r.1 == newSelection <==> newSelection >= start + minWindowSize))
  {
  }

  /** `minWindowSize` is in pixels (line 99) while the selection is in units
      of `max`, and line 112 does not clamp the result: when the end is
      closer to 0 than `minWindowSize`, dragging the left handle moves the
      start below 0, to a selection `setSelectedRange` would refuse. */
  lemma HandleMoveLeavesRange(newSelection: int, start: int, end: int, minWindowSize: int)
    requires INT_MIN <= end - minWindowSize && end < minWindowSize
    ensures HandleMove(true, newSelection, start, end, minWindowSize).0 < 0
    ensures HandleMove(true, 0, 0, 10, 32) == (-22, 10)
  {
  }

  /** The handle a first touch picks (lines 90-96): the left one when the
      touch is left of the start's pixel plus two left borders, else the
      right one when it is right of the end's pixel minus two right
      borders, else the whole window. */
  function PickHandle(x: real, startPx: int, endPx: int, borderLeft: int, borderRight: int): (h: int)
    ensures h == -1 <==> x < (startPx + borderLeft + borderLeft) as real
    ensures h == 1 <==> x >= (startPx + borderLeft + borderLeft) as real && x > (endPx - borderRight - borderRight) as real
    ensures h == 0 <==> (startPx + borderLeft + borderLeft) as real <= x <= (endPx - borderRight - borderRight) as real
  {
    if x < startPx as real + borderLeft as real + borderLeft as real then -1
    else if x > endPx as real - borderRight as real - borderRight as real then 1
    else 0
  }

  class RangeBar {
    var max: int
    var selectionStart: int
    var selectionEnd: int
    var listening: bool
    /** The `onSelectedRangeChanged` calls the listener received. */
    var notified: seq<(int, int)>
    var prevX: Option<real>
    var handle: int
    var enabled: bool
    var width: int
    var paddingLeft: int
    var paddingRight: int
    var borderLeft: int
    var borderTop: int
    var borderRight: int
    var borderBottom: int

    ghost predicate Valid()
      reads this`max
    {
      1 <= max <= INT_MAX
    }

    /** The initial state (lines 27-35, 85-86, 136): `selectionEnd` is
        initialised to `max`, 1000, not to `max - 1` as `setMax` does. */
    constructor ()
      ensures Valid() && max == 1000 && selectionStart == 0 && selectionEnd == 1000
      ensures !listening && notified == [] && prevX == None && handle == 0 && enabled
      ensures width == 0 && paddingLeft == 0 && paddingRight == 0
      ensures borderLeft == 0 && borderTop == 0 && borderRight == 0 && borderBottom == 0
    {
      max := 1000;
      selectionStart, selectionEnd := 0, 1000;
      listening, notified := false, [];
      prevX, handle, enabled := None, 0, true;
      width, paddingLeft, paddingRight := 0, 0, 0;
      borderLeft, borderTop, borderRight, borderBottom := 0, 0, 0, 0;
    }

    /** `getInnerWidth()` (lines 208-210). */
    function InnerWidth(): int
      reads this`width, this`paddingLeft, this`paddingRight
    {
      WrapInt(width - paddingLeft - paddingRight)
    }

    /** `selectionToPx(selection)` (lines 204-206): integer arithmetic, the
        result then widened to `float`. */
    function SelectionToPx(selection: int): int
      reads this`width, this`paddingLeft, this`paddingRight, this`max
      requires Valid()
    {
      SelectionPx(selection, paddingLeft, InnerWidth(), max)
    }

    method SetLayout(width: int, paddingLeft: int, paddingRight: int)
      modifies this`width, this`paddingLeft, this`paddingRight
      ensures this.width == width && this.paddingLeft == paddingLeft && this.paddingRight == paddingRight
    {
      this.width, this.paddingLeft, this.paddingRight := width, paddingLeft, paddingRight;
    }

    /** `setWindowBorders` (lines 137-140). */
    method SetWindowBorders(left: int, top: int, right: int, bottom: int)
      modifies this`borderLeft, this`borderTop, this`borderRight, this`borderBottom
      ensures borderLeft == left && borderTop == top && borderRight == right && borderBottom == bottom
    {
      borderLeft, borderTop, borderRight, borderBottom := left, top, right, bottom;
    }

    /** `setSelectionChangeListener` (lines 130-132), with a listener or
        with `null`. */
    method SetSelectionChangeListener(present: bool)
      modifies this`listening
      ensures listening == present
    {
      listening := present;
    }

    method SetEnabled(enabled: bool)
      modifies this`enabled
      ensures this.enabled == enabled
    {
      this.enabled := enabled;
    }

    /** `setSelectedRangeInternal` (lines 48-57): a new pair is stored and,
        when a listener is set, delivered to it; the same pair again changes
        nothing and notifies no one. */
    method SetSelectedRangeInternal(start: int, end: int)
      modifies this`selectionStart, this`selectionEnd, this`notified
      ensures selectionStart == start && selectionEnd == end
      ensures notified == old(notified) + Notice((old(selectionStart), old(selectionEnd)), (start, end), listening)
    {
      if selectionStart != start || selectionEnd != end {
        selectionStart, selectionEnd := start, end;
        if listening {
          notified := notified + [(start, end)];
        }
      }
    }

    /** `setMax` (lines 28-32): a maximum below 1 is refused; otherwise the
        selection is reset to `[0, max - 1]`. */
    method SetMax(max: int) returns (o: Outcome)
      requires Valid() && INT_MIN <= max <= INT_MAX
      modifies this`max, this`selectionStart, this`selectionEnd, this`notified
      ensures Valid()
      ensures o.Thrown? <==> max < 1
      ensures o.Thrown? ==> o.error == IllegalArgument(MAX_MESSAGE) && this.max == old(this.max)
      ensures o.Normal? ==> this.max == max && selectionStart == 0 && selectionEnd == max - 1
      ensures o.Thrown? ==> selectionStart == old(selectionStart) && selectionEnd == old(selectionEnd)
      ensures notified == old(notified) + Notice((old(selectionStart), old(selectionEnd)), (selectionStart, selectionEnd), listening)
    {
      if max < 1 {
        return Thrown(IllegalArgument(MAX_MESSAGE));
      }
      this.max := max;
      SetSelectedRangeInternal(0, max - 1);
      return Normal;
    }

    /** `setSelectedRange` (lines 39-47): both ends must lie in `[0, max)`
        and the start must not exceed the end. */
    method SetSelectedRange(start: int, end: int) returns (o: Outcome)
      requires Valid()
      modifies this`selectionStart, this`selectionEnd, this`notified
      ensures o.Thrown? <==> !(0 <= start < max && 0 <= end < max && start <= end)
      ensures o.Thrown? ==> o.error == (if 0 <= start < max && 0 <= end < max then IllegalArgument(ORDER_MESSAGE)
                                        else IllegalArgument(RANGE_MESSAGE))
      ensures o.Thrown? ==> selectionStart == old(selectionStart) && selectionEnd == old(selectionEnd)
      ensures o.Normal? ==> selectionStart == start && selectionEnd == end
      ensures notified == old(notified) + Notice((old(selectionStart), old(selectionEnd)), (selectionStart, selectionEnd), listening)
    {
      if start < 0 || start >= max || end < 0 || end >= max {
        return Thrown(IllegalArgument(RANGE_MESSAGE));
      }
      if start > end {
        return Thrown(IllegalArgument(ORDER_MESSAGE));
      }
      SetSelectedRangeInternal(start, end);
      return Normal;
    }

    /** `onRestoreInstanceState` (lines 66-70): the saved ends, each capped
        at `max`. */
    method OnRestoreInstanceState(savedStart: int, savedEnd: int)
      requires Valid()
      modifies this`selectionStart, this`selectionEnd, this`notified
      ensures selectionStart == IntMin(savedStart, max) && selectionEnd == IntMin(savedEnd, max)
      ensures selectionStart <= max && selectionEnd <= max
      ensures 0 <= savedStart && 0 <= savedEnd ==> 0 <= selectionStart && 0 <= selectionEnd
      ensures notified == old(notified) + Notice((old(selectionStart), old(selectionEnd)), (selectionStart, selectionEnd), listening)
    {
      SetSelectedRangeInternal(IntMin(savedStart, max), IntMin(savedEnd, max));
    }

    /** `onTouchEvent` (lines 72-83): a disabled bar ignores touches; a down
        or a move is handled by `touchAt`; anything else ends the gesture. */
    method OnTouchEvent(action: int, x: real) returns (handled: bool)
      requires Valid()
      modifies this`selectionStart, this`selectionEnd, this`notified, this`prevX, this`handle
      ensures handled <==> enabled && (action == ACTION_DOWN || action == ACTION_MOVE)
      ensures handled ==> prevX == Some(x)
      ensures enabled && !handled ==> prevX == None
      ensures !enabled ==> prevX == old(prevX)
      ensures !handled ==> selectionStart == old(selectionStart) && selectionEnd == old(selectionEnd) && handle == old(handle)
      ensures handled && old(prevX).None? ==>
                handle == PickHandle(x, SelectionToPx(selectionStart), SelectionToPx(selectionEnd), borderLeft, borderRight)
      ensures handled && old(prevX).None? ==> selectionStart == old(selectionStart) && selectionEnd == old(selectionEnd)
      ensures handled && old(prevX).Some? ==> handle == old(handle)
      ensures handled && old(prevX).Some? && handle == 0 ==>
                (selectionStart, selectionEnd) == Dragged(old(selectionStart), old(selectionEnd), max,
                                                          DragDistance(x, old(prevX).value, InnerWidth(), max))
      ensures handled && old(prevX).Some? && handle != 0 ==>
                (selectionStart, selectionEnd) ==
                HandleMove(handle == -1, Selection(handle == -1, x, MinWindowSize(), paddingLeft, InnerWidth(), max),
                           old(selectionStart), old(selectionEnd), MinWindowSize())
      ensures notified == old(notified) + Notice((old(selectionStart), old(selectionEnd)), (selectionStart, selectionEnd), listening)
    {
      if !enabled {
        return false;
      }
      if action == ACTION_DOWN || action == ACTION_MOVE {
        TouchAt(x);
        return true;
      }
      prevX := None;
      return false;
    }

    /** `2 * borders.left + 2 * borders.right` (line 99). */
    function MinWindowSize(): int
      reads this`borderLeft, this`borderRight
    {
      WrapInt(WrapInt(2 * borderLeft) + WrapInt(2 * borderRight))
    }

    /** `touchAt(x)` (lines 87-117): the first touch of a gesture only picks
        the handle; later ones drag the whole window by the clamped
        distance, or move the picked handle. */
    method TouchAt(x: real)
      requires Valid()
      modifies this`selectionStart, this`selectionEnd, this`notified, this`prevX, this`handle
      ensures prevX == Some(x)
      ensures old(prevX).None? ==> handle == PickHandle(x, SelectionToPx(selectionStart), SelectionToPx(selectionEnd), borderLeft, borderRight)
      ensures old(prevX).None? ==> selectionStart == old(selectionStart) && selectionEnd == old(selectionEnd)
      ensures old(prevX).Some? ==> handle == old(handle)
      ensures old(prevX).Some? && handle == 0 ==>
                (selectionStart, selectionEnd) == Dragged(old(selectionStart), old(selectionEnd), max,
                                                          DragDistance(x, old(prevX).value, InnerWidth(), max))
      ensures old(prevX).Some? && handle != 0 ==>
                (selectionStart, selectionEnd) ==
                HandleMove(handle == -1, Selection(handle == -1, x, MinWindowSize(), paddingLeft, InnerWidth(), max),
                           old(selectionStart), old(selectionEnd), MinWindowSize())
      ensures notified == old(notified) + Notice((old(selectionStart), old(selectionEnd)), (selectionStart, selectionEnd), listening)
    {
      var width := InnerWidth();
      if prevX.None? {
        handle := PickHandle(x, SelectionToPx(selectionStart), SelectionToPx(selectionEnd), borderLeft, borderRight);
      } else {
        var minWindowSize := MinWindowSize();
        if handle == 0 {
          var moved := Dragged(selectionStart, selectionEnd, max, DragDistance(x, prevX.value, width, max));
          SetSelectedRangeInternal(moved.0, moved.1);
        } else {
          var left := handle == -1;
          var newSelection := Selection(left, x, minWindowSize, paddingLeft, width, max);
          var moved := HandleMove(left, newSelection, selectionStart, selectionEnd, minWindowSize);
          SetSelectedRangeInternal(moved.0, moved.1);
        }
      }
      prevX := Some(x);
    }
  }
}
