/** `ChartBubbleView`: the balloon that shows the values of the touched X.
    The view remembers the touched point in `currentXIndex` (-1 when
    nothing is shown), and `drawBubble` lays out the balloon: one text
    column per chart column, as wide as its wider text, the columns side by
    side, the balloon at the touched X and shifted at most once to stay on
    screen.

    Text measurement is not modelled: `drawBubble` receives, per column,
    the measured widths of the formatted value and of the name (already cast
    to `int`), and the width of the formatted X value. The chart's X
    position of the point is a parameter. Layout ints are unbounded. */
module ChartBubbleViews {
  import opened JavaLang

  /** `MotionEvent.ACTION_DOWN`, `ACTION_UP`, `ACTION_MOVE`, `ACTION_CANCEL`
      and `ACTION_HOVER_MOVE`. */
  const ACTION_DOWN: int := 0
  const ACTION_UP: int := 1
  const ACTION_MOVE: int := 2
  const ACTION_CANCEL: int := 3
  const ACTION_HOVER_MOVE: int := 7

  /** The `setPressed` call that `View.onTouchEvent` makes for an enabled,
      clickable view (the view is made clickable at line 36), `None` when it
      makes none: a down presses; an up releases a pressed view; a cancel
      releases; a move that leaves the view (`inside` false) releases a
      pressed view. */
  function PressUpdate(action: int, inside: bool, wasPressed: bool): (call: Option<bool>)
    ensures call == Some(true) <==> action == ACTION_DOWN
    ensures call == Some(false) <==>
              action == ACTION_CANCEL || (wasPressed && (action == ACTION_UP || (action == ACTION_MOVE && !inside)))
  {
    if action == ACTION_DOWN then Some(true)
    else if action == ACTION_CANCEL then Some(false)
    else if wasPressed && (action == ACTION_UP || (action == ACTION_MOVE && !inside)) then Some(false)
    else None
  }

  function IntMax(a: int, b: int): int { if a >= b then a else b }

  /** `lengths[i] = Math.max(valueLen, labelLen)` (lines 168-171): each
      column is as wide as its wider text. */
  function Widths(measured: seq<(int, int)>): (w: seq<int>)
    ensures |w| == |measured|
    ensures forall i :: 0 <= i < |w| ==> w[i] >= measured[i].0 && w[i] >= measured[i].1
    ensures forall i :: 0 <= i < |w| ==> w[i] == measured[i].0 || w[i] == measured[i].1
  {
    seq(|measured|, i requires 0 <= i < |measured| => IntMax(measured[i].0, measured[i].1))
  }

  function Sum(s: seq<int>): int
  {
    if s == [] then 0 else Sum(s[..|s| - 1]) + s[|s| - 1]
  }

  /** How far the columns `lengths` reach, each followed by `spacing`. */
  function Advance(lengths: seq<int>, spacing: int): int
  {
    Sum(lengths) + |lengths| * spacing
  }

  /** `balloonWidth` (lines 163-175): the columns and the spacings between
      them, or the X value's width if that is wider. With no column the sum
      is `-spacing`. */
  function BalloonWidth(lengths: seq<int>, spacing: int, xValueWidth: int): int
  {
    IntMax(Advance(lengths, spacing) - spacing, xValueWidth)
  }

  /** `currentLeft` for each column (lines 211-218): the balloon's left
      plus the columns and spacings before it. */
  function TextLefts(left: int, lengths: seq<int>, spacing: int): (t: seq<int>)
    ensures |t| == |lengths|
  {
    seq(|lengths|, i requires 0 <= i < |lengths| => left + Advance(lengths[..i], spacing))
  }

  /** The horizontal clamp (lines 189-199): the balloon starts at `xPos`;
      when that is left of `leftMin` it is shifted right to `leftMin`,
      otherwise when its right end passes `rightMax` it is shifted left
      until it ends there. */
  function Clamp(xPos: int, balloonWidth: int, leftMin: int, rightMax: int): (int, int)
  {
    var left := xPos;
    var right := left + balloonWidth;
    if left < leftMin then (left + (leftMin - left), right + (leftMin - left))
    else if right > rightMax then (left - (right - rightMax), right - (right - rightMax))
    else (left, right)
  }

  /** The clamp keeps the balloon's width and applies one correction: to
      `leftMin`, else to `rightMax`, else none. */
  lemma ClampSpec(xPos: int, balloonWidth: int, leftMin: int, rightMax: int)
    ensures var (left, right) := Clamp(xPos, balloonWidth, leftMin, rightMax);
            && right - left == balloonWidth
            && (xPos < leftMin ==> left == leftMin)
            && (xPos >= leftMin && xPos + balloonWidth > rightMax ==> right == rightMax)
            && (xPos >= leftMin && xPos + balloonWidth <= rightMax ==> left == xPos)
  {
  }

  /** The clamp is one correction only: a balloon shifted right to
      `leftMin` is not checked against `rightMax` again, and one shifted left
      to `rightMax` is not checked against `leftMin`. So it stays within
      `[leftMin, rightMax]` exactly when it fits there. */
  lemma ClampFitsOnlyIfRoom(xPos: int, balloonWidth: int, leftMin: int, rightMax: int)
    ensures var (left, right) := Clamp(xPos, balloonWidth, leftMin, rightMax);
            (leftMin <= left && right <= rightMax) <==>
              (leftMin + balloonWidth <= rightMax || (leftMin <= xPos && xPos + balloonWidth <= rightMax))
    ensures xPos < leftMin && leftMin + balloonWidth > rightMax ==>
              Clamp(xPos, balloonWidth, leftMin, rightMax).1 > rightMax
  {
  }

  /** Appending a column adds its width and one spacing. */
  lemma AdvanceSnoc(lengths: seq<int>, spacing: int)
    requires lengths != []
    ensures Advance(lengths, spacing) ==
            Advance(lengths[..|lengths| - 1], spacing) + lengths[|lengths| - 1] + spacing
  {
    assert |lengths| * spacing == (|lengths| - 1) * spacing + spacing;
  }

  /** Prefixes of non-negative columns with a non-negative spacing reach no
      further than the whole row. */
  lemma {:induction false} AdvanceMono(lengths: seq<int>, spacing: int, k: int)
    requires spacing >= 0 && 0 <= k <= |lengths|
    requires forall i :: 0 <= i < |lengths| ==> lengths[i] >= 0
    ensures 0 <= Advance(lengths[..k], spacing) <= Advance(lengths, spacing)
    decreases |lengths|
  {
    if lengths == [] {
      assert lengths[..k] == [];
    } else {
      var init := lengths[..|lengths| - 1];
      AdvanceSnoc(lengths, spacing);
      if k == |lengths| {
        assert lengths[..k] == lengths;
        AdvanceMono(init, spacing, |init|);
        assert init[..|init|] == init;
      } else {
        assert init[..k] == lengths[..k];
        AdvanceMono(init, spacing, k);
      }
    }
  }

  lemma AdvanceStep(lengths: seq<int>, spacing: int, i: int)
    requires 0 <= i < |lengths|
    ensures Advance(lengths[..i + 1], spacing) == Advance(lengths[..i], spacing) + lengths[i] + spacing
  {
    assert lengths[..i + 1][..i] == lengths[..i];
  }

  /** The texts of one more column: the previous ones and the new one
      where the others end. */
  lemma TextLeftsAppend(left: int, s: seq<int>, spacing: int, i: int)
    requires 0 <= i < |s|
    ensures TextLefts(left, s[..i + 1], spacing) == TextLefts(left, s[..i], spacing) + [left + Advance(s[..i], spacing)]
  {
    var a, b := TextLefts(left, s[..i + 1], spacing), TextLefts(left, s[..i], spacing) + [left + Advance(s[..i], spacing)];
    forall j | 0 <= j <= i
      ensures a[j] == b[j]
    {
      assert s[..i + 1][..j] == s[..j];
      if j < i {
        assert s[..i][..j] == s[..j];
      }
    }
  }

  /** With non-negative widths and spacing, every column's texts start at or
      right of the balloon's left and end at or left of its right. */
  lemma TextsInsideBalloon(left: int, lengths: seq<int>, spacing: int, xValueWidth: int, i: int)
    requires spacing >= 0 && forall j :: 0 <= j < |lengths| ==> lengths[j] >= 0
    requires 0 <= i < |lengths|
    ensures left <= TextLefts(left, lengths, spacing)[i]
    ensures TextLefts(left, lengths, spacing)[i] + lengths[i] <= left + BalloonWidth(lengths, spacing, xValueWidth)
  {
    AdvanceMono(lengths, spacing, i);
    AdvanceMono(lengths, spacing, i + 1);
    AdvanceStep(lengths, spacing, i);
  }

  /** Consecutive columns do not overlap: each starts after the previous
      one's width and the spacing. */
  lemma TextLeftsStep(left: int, lengths: seq<int>, spacing: int, i: int)
    requires 0 <= i < |lengths| - 1
    ensures TextLefts(left, lengths, spacing)[i + 1] == TextLefts(left, lengths, spacing)[i] + lengths[i] + spacing
  {
    AdvanceStep(lengths, spacing, i);
  }

  /** What `drawBubble` draws: the balloon's box (before the drawable's
      insets are added around it), the guideline's X, and where each
      column's texts start. */
  datatype Bubble = Bubble(balloonWidth: int, xPos: int, left: int, top: int, right: int, bottom: int,
                           textLefts: seq<int>)

  /** The text heights (lines 177-179): 1.2 and 1.5 times the text sizes,
      cast to `int`. */
  function TextHeight(factor: real, size: int): int
  {
    IntCast(factor * size as real)
  }

  /** `(int) (16 * dp)` (line 34). */
  function Insets(density: real): int
  {
    IntCast(16.0 * density)
  }

  class ChartBubbleView {
    var currentXIndex: int
    /** `chart`, `xFormatter` and `yFormatter` are set. */
    var hasChart: bool
    var hasFormatters: bool
    /** The target of the alpha animation and whether it resets the index
        when it ends (only the hiding one has the `clearXValue` listener). */
    var targetAlpha: real
    var clearsOnEnd: bool
    /** The pressed state that `super.setPressed` keeps. */
    var pressed: bool
    /** An alpha animation has started and not yet ended. */
    var fading: bool
    const drawableInsets: int
    var xValueTextSize: int
    var yValueTextSize: int
    var yLabelTextSize: int
    var yValueHSpacing: int
    var width: int
    var height: int
    var paddingLeft: int
    var paddingTop: int
    var paddingRight: int
    var paddingBottom: int
    /** The per-column widths of the last drawn balloon. */
    var lengths: array<int>

    /** The constructor (lines 20, 28-38): nothing is shown and the view is
        transparent. */
    constructor (density: real)
      ensures currentXIndex == -1 && !hasChart && !hasFormatters
      ensures targetAlpha == 0.0 && !clearsOnEnd && !pressed && !fading && drawableInsets == Insets(density)
      ensures xValueTextSize == 0 && yValueTextSize == 0 && yLabelTextSize == 0 && yValueHSpacing == 0
      ensures width == 0 && height == 0
      ensures paddingLeft == 0 && paddingTop == 0 && paddingRight == 0 && paddingBottom == 0
      ensures fresh(lengths) && lengths.Length == 0
    {
      currentXIndex := -1;
      hasChart, hasFormatters := false, false;
      targetAlpha, clearsOnEnd, pressed, fading := 0.0, false, false, false;
      drawableInsets := Insets(density);
      xValueTextSize, yValueTextSize, yLabelTextSize, yValueHSpacing := 0, 0, 0, 0;
      width, height := 0, 0;
      paddingLeft, paddingTop, paddingRight, paddingBottom := 0, 0, 0, 0;
      lengths := new int[0];
    }

    /** `setTextSizes` (lines 55-61). */
    method SetTextSizes(xValue: int, yValue: int, yLabel: int, yValueHSpacing: int)
      modifies this`xValueTextSize, this`yValueTextSize, this`yLabelTextSize, this`yValueHSpacing
      ensures xValueTextSize == xValue && yValueTextSize == yValue && yLabelTextSize == yLabel
      ensures this.yValueHSpacing == yValueHSpacing
    {
      xValueTextSize, yValueTextSize, yLabelTextSize := xValue, yValue, yLabel;
      this.yValueHSpacing := yValueHSpacing;
    }

    /** `setChart` and `setFormatters` (lines 88-97), with or without `null`. */
    method SetChart(present: bool)
      modifies this`hasChart
      ensures hasChart == present
    {
      hasChart := present;
    }

    method SetFormatters(present: bool)
      modifies this`hasFormatters
      ensures hasFormatters == present
    {
      hasFormatters := present;
    }

    method SetLayout(width: int, height: int, paddingLeft: int, paddingTop: int, paddingRight: int, paddingBottom: int)
      modifies this`width, this`height, this`paddingLeft, this`paddingTop, this`paddingRight, this`paddingBottom
      ensures this.width == width && this.height == height
      ensures this.paddingLeft == paddingLeft && this.paddingTop == paddingTop
      ensures this.paddingRight == paddingRight && this.paddingBottom == paddingBottom
    {
      this.width, this.height := width, height;
      this.paddingLeft, this.paddingTop, this.paddingRight, this.paddingBottom := paddingLeft, paddingTop, paddingRight, paddingBottom;
    }

    /** `setPressed` (lines 39-42): pressing fades the view in, releasing
        fades it out with the listener that clears the index. `animate().alpha`
        first cancels a running alpha animation, and cancelling ends it: a
        fade-out still running calls `clearXValue` (lines 43-48) before the
        new listener is set. */
    method SetPressed(pressed: bool)
      modifies this`targetAlpha, this`clearsOnEnd, this`pressed, this`currentXIndex, this`fading
      ensures this.pressed == pressed
      ensures targetAlpha == (if pressed then 1.0 else 0.0) && clearsOnEnd == !pressed
      ensures currentXIndex == if old(fading) && old(clearsOnEnd) then -1 else old(currentXIndex)
      ensures fading
    {
      if fading {
        OnAlphaAnimationEnd();
      }
      this.pressed := pressed;
      targetAlpha := if pressed then 1.0 else 0.0;
      clearsOnEnd := !pressed;
      fading := true;
    }

    /** The end of the alpha animation (lines 43-48): after fading out
        nothing is shown. */
    method OnAlphaAnimationEnd()
      modifies this`currentXIndex, this`fading
      ensures currentXIndex == if clearsOnEnd then -1 else old(currentXIndex)
      ensures !fading
    {
      if clearsOnEnd {
        currentXIndex := -1;
      }
      fading := false;
    }

    /** `onTouchEvent` (lines 112-124): without a chart the event is not
        handled; a down, move or hover move shows the point `indexAt`, the
        one `chart.getIndexAt(event.getX())` returns. Then `super.onTouchEvent`
        (line 123) handles the pressed state, as `PressUpdate` says, calling
        the overridden `setPressed`: a press fades the balloon in, a release
        fades it out with the listener that clears `currentXIndex`; either
        one cancels a fade-out still running, which clears the index, so a
        press during a fade-out leaves nothing selected. The view is
        clickable, so that call consumes the event. `inside` says whether
        the pointer is still within the view. */
    method OnTouchEvent(action: int, indexAt: int, inside: bool) returns (handled: bool)
      modifies this`currentXIndex, this`targetAlpha, this`clearsOnEnd, this`pressed, this`fading
      ensures handled == hasChart
      ensures var call := PressUpdate(action, inside, old(pressed));
              var touched := if hasChart && (action == ACTION_DOWN || action == ACTION_MOVE || action == ACTION_HOVER_MOVE)
                             then indexAt else old(currentXIndex);
              currentXIndex == if hasChart && call.Some? && old(fading) && old(clearsOnEnd) then -1 else touched
      ensures var call := PressUpdate(action, inside, old(pressed));
              if hasChart && call.Some? then
                pressed == call.value && targetAlpha == (if call.value then 1.0 else 0.0) && clearsOnEnd == !call.value &&
                fading
              else
                pressed == old(pressed) && targetAlpha == old(targetAlpha) && clearsOnEnd == old(clearsOnEnd) &&
                fading == old(fading)
    {
      if !hasChart {
        return false;
      }
      if action == ACTION_DOWN || action == ACTION_MOVE || action == ACTION_HOVER_MOVE {
        currentXIndex := indexAt;
      }
      var call := PressUpdate(action, inside, pressed);
      if call.Some? {
        SetPressed(call.value);
      }
      return true;
    }

    /** `onDraw`'s guard (line 129): the balloon is drawn only with a chart,
        both formatters and a touched point. */
    predicate Showing()
      reads this`hasChart, this`hasFormatters, this`currentXIndex
    {
      hasChart && hasFormatters && currentXIndex != -1
    }

    /** The balloon `drawBubble` lays out for these column widths, X value
        width and X position. */
    function Expected(widths: seq<int>, xValueWidth: int, xPosition: real): (b: Bubble)
      reads this`width, this`height, this`paddingLeft, this`paddingTop, this`paddingRight, this`paddingBottom
      reads this`xValueTextSize, this`yValueTextSize, this`yLabelTextSize, this`yValueHSpacing
      ensures b.right - b.left == b.balloonWidth
      ensures |b.textLefts| == |widths|
    {
      var innerWidth := width - paddingLeft - paddingRight;
      var innerHeight := height - paddingTop - paddingBottom;
      var balloonWidth := BalloonWidth(widths, yValueHSpacing, xValueWidth);
      var xPos := IntCast(xPosition);
      var top := JavaDiv(innerHeight, 16);
      var bottom := top + TextHeight(1.2, xValueTextSize) + TextHeight(1.5, yValueTextSize) + TextHeight(1.5, yLabelTextSize);
      var leftMin := JavaDiv(drawableInsets * 9, 10);
      var rightMax := innerWidth - leftMin;
      var (left, right) := Clamp(xPos, balloonWidth, leftMin, rightMax);
      ClampSpec(xPos, balloonWidth, leftMin, rightMax);
      Bubble(balloonWidth, xPos, left, top, right, bottom, TextLefts(left, widths, yValueHSpacing))
    }

    /** The measuring loop of `drawBubble` (lines 151-154 and 163-173):
        `lengths` reallocated when the column count changed, then filled
        with the column widths while the row's advance is summed. */
    method MeasureColumns(measured: seq<(int, int)>) returns (advance: int)
      modifies this`lengths, lengths
      ensures lengths[..] == Widths(measured)
      ensures old(lengths.Length) == |measured| ==> lengths == old(lengths)
      ensures old(lengths.Length) != |measured| ==> fresh(lengths)
      ensures advance == Advance(Widths(measured), yValueHSpacing)
    {
      var n := |measured|;
      if lengths.Length != n {
        lengths := new int[n];
      }
      advance := 0;
      var i := 0;
      while i < n
        invariant 0 <= i <= n == lengths.Length
        invariant lengths == old(lengths) || fresh(lengths)
        invariant old(lengths.Length) == n ==> lengths == old(lengths)
        invariant old(lengths.Length) != n ==> fresh(lengths)
        invariant lengths[..i] == Widths(measured)[..i]
        invariant advance == Advance(lengths[..i], yValueHSpacing)
      {
        lengths[i] := IntMax(measured[i].0, measured[i].1);
        AdvanceStep(lengths[..], yValueHSpacing, i);
        assert lengths[..i + 1][..i] == lengths[..i];
        advance := advance + lengths[i] + yValueHSpacing;
        i := i + 1;
      }
      assert lengths[..] == lengths[..n];
    }

    /** The drawing loop of `drawBubble` (lines 211-219): where each
        column's texts start. */
    method PlaceTexts(left: int) returns (textLefts: seq<int>)
      ensures textLefts == TextLefts(left, lengths[..], yValueHSpacing)
    {
      textLefts := [];
      var currentLeft := left;
      var i := 0;
      while i < lengths.Length
        invariant 0 <= i <= lengths.Length
        invariant textLefts == TextLefts(left, lengths[..i], yValueHSpacing)
        invariant currentLeft == left + Advance(lengths[..i], yValueHSpacing)
      {
        TextLeftsAppend(left, lengths[..], yValueHSpacing, i);
        AdvanceStep(lengths[..], yValueHSpacing, i);
        textLefts := textLefts + [currentLeft];
        currentLeft := currentLeft + lengths[i] + yValueHSpacing;
        i := i + 1;
      }
      assert lengths[..i] == lengths[..];
    }

    /** `drawBubble` (lines 137-220): measures the columns and lays out the
        balloon. */
    method DrawBubble(measured: seq<(int, int)>, xValueWidth: int, xPosition: real) returns (b: Bubble)
      modifies this`lengths, lengths
      ensures lengths[..] == Widths(measured)
      ensures old(lengths.Length) == |measured| ==> lengths == old(lengths)
      ensures old(lengths.Length) != |measured| ==> fresh(lengths)
      ensures b == Expected(Widths(measured), xValueWidth, xPosition)
    {
      var balloonWidth := MeasureColumns(measured);
      balloonWidth := balloonWidth - yValueHSpacing;
      balloonWidth := IntMax(balloonWidth, xValueWidth);

      var xValueHeight := TextHeight(1.2, xValueTextSize);
      var yValueHeight := TextHeight(1.5, yValueTextSize);
      var yLabelHeight := TextHeight(1.5, yLabelTextSize);
      var xPos := IntCast(xPosition);
      var top := JavaDiv(height - paddingTop - paddingBottom, 16);
      var bottom := top + xValueHeight + yValueHeight + yLabelHeight;
      var leftMin := JavaDiv(drawableInsets * 9, 10);
      var rightMax := (width - paddingLeft - paddingRight) - leftMin;

      var left := xPos;
      var right := left + balloonWidth;
      if left < leftMin {
        var diff := leftMin - left;
        left := left + diff;
        right := right + diff;
      } else if right > rightMax {
        var diff := right - rightMax;
        left := left - diff;
        right := right - diff;
      }

      assert (left, right) == Clamp(xPos, balloonWidth, leftMin, rightMax);
      var textLefts := PlaceTexts(left);
      b := Bubble(balloonWidth, xPos, left, top, right, bottom, textLefts);
    }

    /** `onDraw` (lines 126-132): the balloon when one is showing, else
        nothing. */
    method OnDraw(measured: seq<(int, int)>, xValueWidth: int, xPosition: real) returns (b: Option<Bubble>)
      modifies this`lengths, lengths
      ensures b.Some? <==> Showing()
      ensures b.Some? ==> lengths[..] == Widths(measured) && b.value == Expected(Widths(measured), xValueWidth, xPosition)
      ensures b.None? ==> lengths == old(lengths) && lengths[..] == old(lengths[..])
    {
      if hasChart && hasFormatters && currentXIndex != -1 {
        var bubble := DrawBubble(measured, xValueWidth, xPosition);
        return Some(bubble);
      }
      return None;
    }
  }
}
