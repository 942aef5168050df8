/** The Y scale state of `ChartDrawable` (`prevYMin`, `prevYMax`, `targetYMin`,
    `targetYMax`, `yMin`, `yMax`, `yDiff`, `yAnimProgress` and `yAnimator`)
    as a value, and what `animYDiff`, the end of `draw` and the animation
    listeners do to it.

    The `AnimatorSet` is recorded as what it was started with and whether it
    runs; its frames are the listener calls `UpdateYMin`, `UpdateYMax` and
    `UpdateYProgress` with the animated value, and `AnimationEnd` stops it. */
module YScales {
  import opened JavaLang

  /** The three animators that `animYDiff` plays together: `yMin` from
      `yMinFrom` to `yMinTo`, `yMax` likewise, and the progress from
      `progressFrom` to `progressTo`. */
  datatype YAnimation = YAnimation(yMinFrom: real, yMinTo: real, yMaxFrom: real, yMaxTo: real,
                                   progressFrom: int, progressTo: int, running: bool)

  datatype YScale = YScale(prevYMin: real, prevYMax: real, targetYMin: real, targetYMax: real,
                           yMin: real, yMax: real, yDiff: Double, yAnimProgress: int,
                           yAnimator: Option<YAnimation>)

  /** The field initialisers (lines 104-106): the doubles are 0 except
      `yDiff`, which is NaN, and there is no animator. */
  const INITIAL: YScale := YScale(0.0, 0.0, 0.0, 0.0, 0.0, 0.0, NaN, 0, None)

  predicate Running(s: YScale)
  {
    s.yAnimator.Some? && s.yAnimator.value.running
  }

  /** `animYDiff(toYMin, toYMax)` (lines 108-156). */
  function AnimYDiff(s: YScale, toYMin: real, toYMax: real): YScale
  {
    if s.targetYMin == toYMin && s.targetYMax == toYMax then s
    else
      var prevYMin := if Running(s) then s.prevYMin else s.yMin;
      var prevYMax := if Running(s) then s.prevYMax else s.yMax;
      s.(targetYMin := toYMin, targetYMax := toYMax, prevYMin := prevYMin, prevYMax := prevYMax,
         yAnimator := Some(YAnimation(s.yMin, toYMin, s.yMax, toYMax, 0, 255, true)))
  }

  /** An unchanged target leaves everything as it is; a new one is stored,
      the baseline is taken from the current scale only when no animation
      runs (a running one is replaced and keeps the old baseline), and the
      new animation runs from the current scale to the target with the
      progress going from 0 to 255. The scale itself is not touched. */
  lemma AnimYDiffSpec(s: YScale, toYMin: real, toYMax: real)
    ensures var t := AnimYDiff(s, toYMin, toYMax);
            && (s.targetYMin == toYMin && s.targetYMax == toYMax ==> t == s)
            && (s.targetYMin != toYMin || s.targetYMax != toYMax ==>
                  && t.targetYMin == toYMin && t.targetYMax == toYMax
                  && (!Running(s) ==> t.prevYMin == s.yMin && t.prevYMax == s.yMax)
                  && (Running(s) ==> t.prevYMin == s.prevYMin && t.prevYMax == s.prevYMax)
                  && t.yAnimator == Some(YAnimation(s.yMin, toYMin, s.yMax, toYMax, 0, 255, true)))
            && t.yMin == s.yMin && t.yMax == s.yMax && t.yDiff == s.yDiff
            && t.yAnimProgress == s.yAnimProgress
  {
  }

  /** Calling `animYDiff` twice with the same target is the same as once. */
  lemma AnimYDiffIdempotent(s: YScale, toYMin: real, toYMax: real)
    ensures AnimYDiff(AnimYDiff(s, toYMin, toYMax), toYMin, toYMax) == AnimYDiff(s, toYMin, toYMax)
  {
  }

  /** A running animation heads for the stored target. */
  predicate HeadsForTarget(s: YScale)
  {
    Running(s) ==> s.yAnimator.value.yMinTo == s.targetYMin && s.yAnimator.value.yMaxTo == s.targetYMax
  }

  /** The update listener of `yMin` (lines 123-129). */
  function UpdateYMin(s: YScale, value: real): YScale
  {
    s.(yMin := value, yDiff := Finite(s.yMax - value))
  }

  /** The update listener of `yMax` (lines 130-136). */
  function UpdateYMax(s: YScale, value: real): YScale
  {
    s.(yMax := value, yDiff := Finite(value - s.yMin))
  }

  /** The update listener of the progress (lines 137-141). */
  function UpdateYProgress(s: YScale, value: int): YScale
  {
    s.(yAnimProgress := value)
  }

  /** The end of the animator set. */
  function AnimationEnd(s: YScale): YScale
  {
    if s.yAnimator.Some? then s.(yAnimator := Some(s.yAnimator.value.(running := false))) else s
  }

  /** `animYDiff` and every listener keep a running animation heading for
      the target. */
  lemma HeadsForTargetPreserved(s: YScale, toYMin: real, toYMax: real, v: real, p: int)
    requires HeadsForTarget(s)
    ensures HeadsForTarget(AnimYDiff(s, toYMin, toYMax))
    ensures HeadsForTarget(UpdateYMin(s, v)) && HeadsForTarget(UpdateYMax(s, v))
    ensures HeadsForTarget(UpdateYProgress(s, p)) && HeadsForTarget(AnimationEnd(s))
  {
  }

  /** After both listeners have delivered values, `yDiff` is their
      difference, whatever the order of the two calls. */
  lemma ListenersKeepDiff(s: YScale, lo: real, hi: real)
    ensures UpdateYMax(UpdateYMin(s, lo), hi).yDiff == Finite(hi - lo)
    ensures UpdateYMin(UpdateYMax(s, hi), lo).yDiff == Finite(hi - lo)
    ensures UpdateYMax(UpdateYMin(s, lo), hi).yMin == lo && UpdateYMin(UpdateYMax(s, hi), lo).yMax == hi
  {
  }

  /** The end of `draw`'s scan (lines 233-244): with no appearing column the
      scale is left alone; on the first frame (`yDiff` is NaN) it is set to
      the window limits without animating; afterwards a change of the
      difference or the maximum starts an animation. */
  function AfterScan(s: YScale, lo: real, hi: real, visible: bool): YScale
  {
    if !visible then s
    else if s.yDiff.NaN? then s.(yMin := lo, yMax := hi, yDiff := Finite(hi - lo), prevYMin := lo, prevYMax := hi)
    else if s.yDiff != Finite(hi - lo) || s.yMax != hi then AnimYDiff(s, lo, hi)
    else s
  }

  lemma AfterScanSpec(s: YScale, lo: real, hi: real, visible: bool)
    ensures var t := AfterScan(s, lo, hi, visible);
            && (!visible ==> t == s)
            && (visible && s.yDiff.NaN? ==>
                  t.yMin == lo && t.yMax == hi && t.yDiff == Finite(hi - lo) &&
                  t.prevYMin == lo && t.prevYMax == hi && t.yAnimator == s.yAnimator &&
                  t.targetYMin == s.targetYMin && t.targetYMax == s.targetYMax)
            && (visible && !s.yDiff.NaN? ==> t.yMin == s.yMin && t.yMax == s.yMax && t.yDiff == s.yDiff)
            && (visible && !s.yDiff.NaN? && s.yDiff == Finite(hi - lo) && s.yMax == hi ==> t == s)
  {
  }

  /** Once the scale has been set by a frame, `yDiff` is never NaN again. */
  lemma AfterScanSetsDiff(s: YScale, lo: real, hi: real, visible: bool, v: real)
    ensures visible ==> !AfterScan(s, lo, hi, visible).yDiff.NaN?
    ensures !s.yDiff.NaN? ==> !AfterScan(s, lo, hi, visible).yDiff.NaN?
    ensures !UpdateYMin(s, v).yDiff.NaN? && !UpdateYMax(s, v).yDiff.NaN?
  {
  }

  /** Frames that keep seeing the target of the animation leave the
      animation alone, and a frame that sees the scale the first frame set
      is a no-op. */
  lemma AfterScanSettled(s: YScale, lo: real, hi: real)
    ensures !s.yDiff.NaN? && s.targetYMin == lo && s.targetYMax == hi ==>
              AfterScan(s, lo, hi, true) == s
    ensures s.yDiff.NaN? ==> AfterScan(AfterScan(s, lo, hi, true), lo, hi, true) == AfterScan(s, lo, hi, true)
  {
  }
}
