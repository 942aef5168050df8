# TGChart core in Dafny

TGChart is an Android app that draws time-series line charts sharing one X
axis. The user picks the visible part of the X range with a range bar,
toggles single column lines on and off, and touches the chart to see the
values at one X in a balloon. This project models the logic behind that:

- `ChartDrawable`, the chart engine. It covers:
  - the affine map of the raw values into pixels (`normalize`);
  - the binary search for the visible window (`indexOfClosest`);
  - the per-frame autoscale scan and the animated Y scale (`animYDiff`);
  - the "nice number" gridline step;
  - the power-of-two stride of the X labels and their crossfade state;
  - the per-column visibility word, with its alpha byte and `APPEARING` bit;
  - the shortcuts the balloon uses (`getIndexAt`, `getXPositionAt`, `getYValuesAt`, `getYPositionsAt`).
- `RangeBar`, the selection state machine. It validates `setMax` and `setSelectedRange`, drags the window or one handle, restores saved state, and notifies its listener only on a change.
- `ChartBubbleView`, the balloon. It covers the column widths, the balloon width, the single on-screen correction, the text offsets, the pressed state and the `currentXIndex` state.
- `SettableFuture`, a set-once value with an ordered callback list (`glue`, `without`).
- `Chart.readChart`, the assembly and validation of a chart from an already-decoded JSON document, including the min/max folds of `readColumns`.
- `DoubleArrayList`, a growable buffer of doubles.
- `countFormatter` of `MainActivity`, which picks an SI unit, rounds, and cuts a trailing ".0".
- `DoubleEvaluator.evaluate`, the guarded linear interpolation.
- `ColourMode.next`, the cyclic successor of the two colour modes.

Structure. There is one module per Java class:

- `ChartDrawables`, `RangeBars`, `ChartBubbleViews`, `SettableFutures`, `Charts`, `DoubleArrayLists`, `CountFormatters`, `DoubleEvaluators`, `ColourModes`.
- Parts of `ChartDrawable` that are pure and reused have modules of their own:
  - `Search`: `indexOfClosest` and `Arrays.binarySearch`;
  - `Normalization`: the coordinate maps;
  - `YScales`: the Y scale fields as a value;
  - `Visibility`: the packed visibility word;
  - `AxisLabels`: the gridline step and the label stride.
- `JavaLang` holds Java's `int` and `double` semantics as the code needs them:
  - wrap-around, truncating division and casts;
  - `Integer.highestOneBit` and `Math.round`;
  - the `Double` values with NaN and the infinities;
  - the thrown exceptions, as `Result`/`Outcome` values;
  - `StringBuilder`.

Classes whose fields the code updates are Dafny classes: `ChartDrawable`, `RangeBar`, `ChartBubbleView`, `SettableFuture`, `DoubleArrayList` and `StringBuilder`. Their methods state the whole new state of the fields they may change. Loops of the source are `while` loops proved against specification functions. Animator and listener callbacks are methods called with the animated value. An animator is recorded as the values it runs between and whether it runs.

The gridline step snaps the mantissa of the raw step to 1, 2 or 5 with the comparisons `one <= two`, then `two <= five` (`ChartDrawable.java` lines 331-340). Ties go to the smaller candidate. For a Y range of 47 on 300 pixels with a text size of 14, the raw step is 47 / 300 · 3 · 14 = 6.58, and it snaps to 5 (`AxisLabels.SnapMantissaSpec`).

## Model

| member | source | states |
|---|---|---|
| `Search.SearchLoopRange` | app/src/main/java/net/aquadc/tgchart/ChartDrawable.java:643 | the binary search loop of `Arrays.binarySearch` returns a found index inside the remaining range, or an encoded insertion point at most one past it |
| `Search.SearchLoopSpec` | app/src/main/java/net/aquadc/tgchart/ChartDrawable.java:643 | on an ascending range the search returns an index holding the key, or `-(insertion point) - 1` with everything left of the insertion point smaller and everything right of it larger |
| `Search.IndexOfClosestInRange` | app/src/main/java/net/aquadc/tgchart/ChartDrawable.java:642-651 | on a non-empty range `indexOfClosest` always returns an index inside `[fromIndex, toIndex)` |
| `Search.IndexOfClosestSpec` | app/src/main/java/net/aquadc/tgchart/ChartDrawable.java:642-651 | on an ascending non-empty range the result is in range; it is a matching index when the needle occurs; it is `toIndex - 1` when the needle exceeds every element; otherwise it is the first element greater than the needle |
| `Search.IndexOfClosestFindsElement` | app/src/main/java/net/aquadc/tgchart/ChartDrawable.java:642-651 | on a strictly ascending range, searching for the element at `i` gives back `i` |
| `Search.FirstVisibleIndexSpec` | app/src/main/java/net/aquadc/tgchart/ChartDrawable.java:167-170 | the first visible index throws exactly on an empty chart; otherwise it is a valid index, and on ascending X positions the point is at or left of `xStart`, or it is index 0 (one off-screen anchor kept on the left) |
| `Normalization.NormXBounds` | app/src/main/java/net/aquadc/tgchart/ChartDrawable.java:521-524 | with `max > min`, an X in `[min, max]` lands in `[0, width]`, with `min` at 0 and `max` at `width` |
| `Normalization.NormYBounds` | app/src/main/java/net/aquadc/tgchart/ChartDrawable.java:529-533 | with `max > min`, a Y in `[min, max]` lands in `[0, height]`, flipped: `max` at 0 (the top) and `min` at `height` |
| `Normalization.NormXIncreasing` | app/src/main/java/net/aquadc/tgchart/ChartDrawable.java:524 | on a positive width the X map keeps the order of the values, both directions |
| `Normalization.NormYReverses` | app/src/main/java/net/aquadc/tgchart/ChartDrawable.java:533 | on a positive height the Y map reverses the order of the values, both directions, which the autoscale scan relies on |
| `Normalization.NormalizedInBounds` | app/src/main/java/net/aquadc/tgchart/ChartDrawable.java:519-535 | every entry of the normalized array of a chart whose values lie within their columns' bounds is a pixel: X entries in `[0, width]`, Y entries in `[0, height]` |
| `Normalization.RowIndex` | app/src/main/java/net/aquadc/tgchart/ChartDrawable.java:534 | point `i` of column `c` sits at `(c + 1) * length + i`, inside the array, and division by `length` recovers the column row and the point |
| `YScales.AnimYDiffSpec` | app/src/main/java/net/aquadc/tgchart/ChartDrawable.java:108-122 | an unchanged target changes nothing; a new target is stored; the baseline is taken from the current scale only when no animation runs; the new animation runs from the current scale to the target with progress 0 to 255; the scale itself is not touched |
| `YScales.AnimYDiffIdempotent` | app/src/main/java/net/aquadc/tgchart/ChartDrawable.java:108-111 | requesting the same target twice is the same as once |
| `YScales.HeadsForTargetPreserved` | app/src/main/java/net/aquadc/tgchart/ChartDrawable.java:108-141 | `animYDiff`, the three update listeners and the end of the animation keep a running animation heading for the stored target |
| `YScales.ListenersKeepDiff` | app/src/main/java/net/aquadc/tgchart/ChartDrawable.java:123-136 | after both listeners have delivered a minimum and a maximum, `yDiff` is their difference, in either order of the calls |
| `YScales.AfterScanSpec` | app/src/main/java/net/aquadc/tgchart/ChartDrawable.java:233-244 | with no appearing column the scale is untouched; on the first frame (`yDiff` NaN) the limits are set directly, without animating; later frames leave the scale to the animation, and one that sees the same difference and maximum changes nothing |
| `YScales.AfterScanSetsDiff` | app/src/main/java/net/aquadc/tgchart/ChartDrawable.java:233-244 | once a frame has set the scale, or a listener has run, `yDiff` is never NaN again |
| `YScales.AfterScanSettled` | app/src/main/java/net/aquadc/tgchart/ChartDrawable.java:233-244 | a frame that sees the current animation target leaves the state alone, and repeating the first frame is a no-op |
| `Visibility.FullyVisibleWord` | app/src/main/java/net/aquadc/tgchart/ChartDrawable.java:74 | `(byte) 255` is the word -1: its alpha is 255 and it is both drawn and appearing |
| `Visibility.UpdatedWordKeepsAlpha` | app/src/main/java/net/aquadc/tgchart/ChartDrawable.java:594-598 | the word the listener stores keeps the animated alpha in its low byte, and the column is drawn exactly when that alpha is not 0 |
| `Visibility.UpdatedWordAppearing` | app/src/main/java/net/aquadc/tgchart/ChartDrawable.java:596-597 | an alpha of 128 or more is sign-extended by the `(byte)` cast, so the word is appearing whatever the direction of the animation; a smaller alpha is appearing exactly when it is above the previous alpha |
| `Visibility.UpdatedWordFullyVisible` | app/src/main/java/net/aquadc/tgchart/ChartDrawable.java:596-598 | the stored word is the fully visible -1 exactly when the alpha reached 255 |
| `AxisLabels.Pow10` | app/src/main/java/net/aquadc/tgchart/ChartDrawable.java:342 | `10^e` is positive for every integer exponent |
| `AxisLabels.NormaliseStep` | app/src/main/java/net/aquadc/tgchart/ChartDrawable.java:319-327 | for a positive step the two loops leave a mantissa in `[1, 10)` whose product with `10^exp` is the original step |
| `AxisLabels.DivideByTen` | app/src/main/java/net/aquadc/tgchart/ChartDrawable.java:320-323 | the dividing loop leaves a mantissa below 10 and keeps `mantissa * 10^exp` equal to the step |
| `AxisLabels.MultiplyByTen` | app/src/main/java/net/aquadc/tgchart/ChartDrawable.java:324-327 | the multiplying loop brings a mantissa in `(0, 10)` to at least 1 and keeps the product |
| `AxisLabels.SnapMantissaSpec` | app/src/main/java/net/aquadc/tgchart/ChartDrawable.java:330-340 | a mantissa in `[1, 10)` snaps to 1 exactly when it is at most 1.5, to 2 exactly when it is in `(1.5, 3.5]`, and to 5 otherwise; ties go to the smaller candidate |
| `AxisLabels.RoundStep` | app/src/main/java/net/aquadc/tgchart/ChartDrawable.java:317-342 | the gridline step is the snapped mantissa times the power of ten that brings the raw step into `[1, 10)` |
| `AxisLabels.RoundStepNearStep` | app/src/main/java/net/aquadc/tgchart/ChartDrawable.java:330-342 | the nice step is positive and within a factor of two of the raw step |
| `AxisLabels.FirstGuidelineSpec` | app/src/main/java/net/aquadc/tgchart/ChartDrawable.java:345 | the first gridline is the least multiple of the step that is at least `yMin` |
| `AxisLabels.Guidelines` | app/src/main/java/net/aquadc/tgchart/ChartDrawable.java:345-369 | the gridlines start at the first one, advance by the step, are all below `yMax`, and the next one would not be |
| `AxisLabels.RoundUpToPowerOfTwoSpec` | app/src/main/java/net/aquadc/tgchart/ChartDrawable.java:386-387 | a stride `n` up to 2^30 is rounded up to a power of two `p` with `n <= p < 2n`; a larger one overflows to `Integer.MIN_VALUE` |
| `AxisLabels.RoundUpLarge` | app/src/main/java/net/aquadc/tgchart/ChartDrawable.java:386-387 | a stride above 2^30 rounds up to `Integer.MIN_VALUE`, by `int` wrap-around |
| `AxisLabels.RoundUpSmall` | app/src/main/java/net/aquadc/tgchart/ChartDrawable.java:386-387 | a stride from 1 to 2^30 rounds up to a power of two less than twice the stride |
| `AxisLabels.InitialStrideSpec` | app/src/main/java/net/aquadc/tgchart/ChartDrawable.java:384-387 | the initial stride is `32 / xWidthPx` truncated, raised to at least 1, and rounded up to a power of two below twice that |
| `AxisLabels.DoubledPowerOfTwo` | app/src/main/java/net/aquadc/tgchart/ChartDrawable.java:398 | doubling a power of two `k` times without overflow gives `p * 2^k`, again a power of two |
| `AxisLabels.StrideSearch` | app/src/main/java/net/aquadc/tgchart/ChartDrawable.java:391-403 | the loop stops at the first number of doublings for which the dry run returns 1, and the stride is that stride doubled once more, or 1 if the doubling wrapped to 0 |
| `AxisLabels.GrowthFactorSpec` | app/src/main/java/net/aquadc/tgchart/ChartDrawable.java:479-480 | for a text wider than the allowed width, the dry run's answer is a power of two of at least 2 |
| `AxisLabels.LabelsStartAtZero` | app/src/main/java/net/aquadc/tgchart/ChartDrawable.java:464 | `(int) firstVisibleX / length * length` is 0 for every visible position inside the X range, because the cast binds before the division |
| `AxisLabels.FitTextsDryRun` | app/src/main/java/net/aquadc/tgchart/ChartDrawable.java:460-481 | the measuring pass of `fitTexts` throws `ArithmeticException` exactly on an empty X column; otherwise it returns 1 or a power of two of at least 2, and returns 1 exactly when every label of the layout fits |
| `AxisLabels.IndexOfClosestAt` | app/src/main/java/net/aquadc/tgchart/ChartDrawable.java:472 | the label's point found by `indexOfClosest` is a valid X index |
| `Charts.PutAllKeys` | app/src/main/java/net/aquadc/tgchart/Chart.java:216-224 | the map filled by `put` in a loop holds exactly the keys that were put |
| `Charts.PutAllLastWins` | app/src/main/java/net/aquadc/tgchart/Chart.java:216-224 | a key maps to the value of its last `put` |
| `Charts.FoldMinBounds` | app/src/main/java/net/aquadc/tgchart/Chart.java:148-155 | the running minimum is at most the start value and every value, and is the start value or one of the values |
| `Charts.FoldMaxBounds` | app/src/main/java/net/aquadc/tgchart/Chart.java:168-175 | the running maximum is at least the start value and every value, and is the start value or one of the values |
| `Charts.MaxOfNonPositiveColumn` | app/src/main/java/net/aquadc/tgchart/Chart.java:149 | because the maximum starts at `Double.MIN_VALUE` (line 149) or `Float.MIN_VALUE` (line 169), both positive, a column of non-positive values reports that positive constant as its maximum |
| `Charts.Entries` | app/src/main/java/net/aquadc/tgchart/Chart.java:143-179 | every decoded data set becomes one map entry, the first folded from the `Double` limits and the later ones from the `Float` limits |
| `Charts.ColumnsOfSpec` | app/src/main/java/net/aquadc/tgchart/Chart.java:138-185 | an empty `columns` array gives an empty map; `readColumns` throws exactly when a later data set has a different length from the first; otherwise it maps exactly the data set names, each to a column of the first's length |
| `Charts.ColumnsOfLastWins` | app/src/main/java/net/aquadc/tgchart/Chart.java:159-178 | a name's column is the one from its last data set |
| `Charts.ScanTypesSpec` | app/src/main/java/net/aquadc/tgchart/Chart.java:191-206 | the types scan throws "unsupported column type: " plus the first type that is not `x` or `line`, and only then; it finds no X exactly when every type is `line`; otherwise the X column is the last one typed `x` |
| `Charts.ScanTypesThrowPersists` | app/src/main/java/net/aquadc/tgchart/Chart.java:203-204 | once the types scan has thrown, further pairs do not change the outcome |
| `Charts.XColIdOfSpec` | app/src/main/java/net/aquadc/tgchart/Chart.java:187-214 | `readXColId` throws `IllegalArgumentException` exactly on an unknown type; it throws "'x' column is not provided." exactly when every type is `line`; otherwise it returns the last key typed `x` |
| `Charts.ReadXColId` | app/src/main/java/net/aquadc/tgchart/Chart.java:187-214 | the loop computes the result specified by `XColIdOf` |
| `Charts.ReadMap` | app/src/main/java/net/aquadc/tgchart/Chart.java:216-224 | the loop computes the map specified by `PutAll` |
| `Charts.ReadFirstColumn` | app/src/main/java/net/aquadc/tgchart/Chart.java:143-159 | the loop reads the first data set into a `DoubleArrayList` and folds its limits from `Double.MAX_VALUE` and `Double.MIN_VALUE` |
| `Charts.ReadLaterColumn` | app/src/main/java/net/aquadc/tgchart/Chart.java:163-178 | a later data set of the first's length is read with limits folded from `Float.MAX_VALUE` and `Float.MIN_VALUE`; one of a different length throws `IllegalStateException`, the JSON reader's error |
| `Charts.ReadColumns` | app/src/main/java/net/aquadc/tgchart/Chart.java:138-185 | the loop computes the map specified by `ColumnsOf` |
| `Charts.FieldsPresentIff` | app/src/main/java/net/aquadc/tgchart/Chart.java:83-107 | after a successful member loop, each of `columns`, `types`, `names` and `colors` has been read exactly when the document mentions it |
| `Charts.MemberStepFields` | app/src/main/java/net/aquadc/tgchart/Chart.java:85-105 | one member sets only the field it names |
| `Charts.UnknownMemberSkipped` | app/src/main/java/net/aquadc/tgchart/Chart.java:102-104 | a member with any other name is skipped and changes nothing |
| `Charts.FieldsOfThrowPersists` | app/src/main/java/net/aquadc/tgchart/Chart.java:84-106 | once reading a member has thrown, later members do not change the outcome |
| `Charts.ReadMembers` | app/src/main/java/net/aquadc/tgchart/Chart.java:83-107 | the loop over the top-level members computes the fields specified by `FieldsOf` |
| `Charts.LineColumnErrorSpec` | app/src/main/java/net/aquadc/tgchart/Chart.java:127-129 | a line column fails exactly when its name is missing (`NoSuchElementException` with the column id), its colour is missing (`NullPointerException`), or its colour does not parse (`IllegalArgumentException`), in that order |
| `Charts.LineColumnErrorKinds` | app/src/main/java/net/aquadc/tgchart/Chart.java:127-129 | a line column can fail only with those three exceptions |
| `Charts.LineIds` | app/src/main/java/net/aquadc/tgchart/Chart.java:117-131 | the line columns are the entries other than the X column, in entry order |
| `Charts.LineIdsLength` | app/src/main/java/net/aquadc/tgchart/Chart.java:115-131 | with distinct entries there are as many line columns as entries, less one when the X column is among them |
| `Charts.LineColumns` | app/src/main/java/net/aquadc/tgchart/Chart.java:127-130 | each line column is built from its data, its name and its parsed colour |
| `Charts.EntrySet` | app/src/main/java/net/aquadc/tgchart/Chart.java:117 | the entry set lists every key of the map exactly once, in some order |
| `Charts.FillAllOk` | app/src/main/java/net/aquadc/tgchart/Chart.java:117-132 | filling succeeds exactly when every line column has a name and a parsable colour and the line columns fit the array; it then holds the line columns in entry order, and the X column, named "x" and transparent, exactly when its id is an entry |
| `Charts.FillAllError` | app/src/main/java/net/aquadc/tgchart/Chart.java:117-132 | a failed fill either ran past the array (`ArrayIndexOutOfBoundsException`) or threw the error of some line column |
| `Charts.FillAllThrowPersists` | app/src/main/java/net/aquadc/tgchart/Chart.java:117-132 | once filling has thrown, later entries do not change the outcome |
| `Charts.FillColumns` | app/src/main/java/net/aquadc/tgchart/Chart.java:117-132 | the loop over the entry set fills `cols[colIdx++]` in place with exactly the state, or throws exactly the error, specified by `FillAll` |
| `Charts.FillAllAssemblyOk` | app/src/main/java/net/aquadc/tgchart/Chart.java:115-134 | for a map with `columns.size() - 1` slots, filling succeeds exactly when the assembly conditions hold; the line columns fit exactly when the X column is in the map |
| `Charts.Assemble` | app/src/main/java/net/aquadc/tgchart/Chart.java:114-135 | the chart is built exactly when the X column exists and every line column has a name and a parsable colour; it holds the X column and the line columns in entry order; an empty map fails allocating `new Column[-1]`; a running-over fill means the X column is missing; any other error is some line column's; the `AssertionError` is never thrown |
| `Charts.ReadChart` | app/src/main/java/net/aquadc/tgchart/Chart.java:78-135 | reading errors pass through; a missing `columns`, `types`, `names` or `colors` throws its own `NoSuchElementException`, checked in that order; otherwise the result is the assembly: the X column, then one line column per other entry in the map's iteration order, each with its name, colour and values; an empty map throws `NegativeArraySizeException`, an unknown X id `ArrayIndexOutOfBoundsException`, and any other failure is the error of some line column; never the `AssertionError` |
| `ChartDrawables.WindowEnd` | app/src/main/java/net/aquadc/tgchart/ChartDrawable.java:210 | the scan of one column visits the points from the first visible one up to the larger of the first and last visible index |
| `ChartDrawables.ChartDrawable.XTransformMapsWindow` | app/src/main/java/net/aquadc/tgchart/ChartDrawable.java:687-698 | `xScale` and `translateX` map the start of the visible window to pixel 0 and its end to the width, with a positive scale on a positive width |
| `ChartDrawables.ChartDrawable.XScalePositive` | app/src/main/java/net/aquadc/tgchart/ChartDrawable.java:687-691 | on a positive width and a non-empty visible range, `xScale` is positive |
| `ChartDrawables.ChartDrawable.constructor` | app/src/main/java/net/aquadc/tgchart/ChartDrawable.java:64-79 | a new drawable has every column fully visible (-1), no animations, empty bounds, the whole X range visible, marks its bounds dirty, and starts from the field initialisers (NaN `yDiff`, `prevTextLengthX` -1, text alpha 255) |
| `ChartDrawables.ChartDrawable.SetBounds` | app/src/main/java/net/aquadc/tgchart/ChartDrawable.java:571-574 | a bounds change stores the bounds and marks the normalization dirty |
| `ChartDrawables.ChartDrawable.OccupyEvenIfEmptyY` | app/src/main/java/net/aquadc/tgchart/ChartDrawable.java:96-100 | stores the Y positions that must always be in view |
| `ChartDrawables.ChartDrawable.SetVisibleRange` | app/src/main/java/net/aquadc/tgchart/ChartDrawable.java:613-618 | stores the visible range in per mille |
| `ChartDrawables.ChartDrawable.Normalize` | app/src/main/java/net/aquadc/tgchart/ChartDrawable.java:496-539 | the loops fill the whole normalized array with the X positions followed by each column's flipped Y positions, and clear the dirty flag |
| `ChartDrawables.ChartDrawable.NormalizeX` | app/src/main/java/net/aquadc/tgchart/ChartDrawable.java:520-525 | the first loop fills entries `[0, length)` with the X positions |
| `ChartDrawables.ChartDrawable.NormalizeColumn` | app/src/main/java/net/aquadc/tgchart/ChartDrawable.java:528-535 | the loop of column `c` fills its block of the array and keeps everything before it |
| `ChartDrawables.ChartDrawable.ColumnExtremes` | app/src/main/java/net/aquadc/tgchart/ChartDrawable.java:203-219 | over the visible window, `maxYIdx` holds the smallest normalized Y and `minYIdx` the largest, each the first such point |
| `ChartDrawables.ChartDrawable.RawExtremes` | app/src/main/java/net/aquadc/tgchart/ChartDrawable.java:212-216 | because normalization reverses order, the swapped indices of the scan are the raw minimum and maximum of the window |
| `ChartDrawables.ChartDrawable.YIsNormY` | app/src/main/java/net/aquadc/tgchart/ChartDrawable.java:198-199 | entry `(c + 1) * length + k` of an up-to-date array is the flipped Y position of value `k` of column `c` |
| `ChartDrawables.ChartDrawable.ScanColumns` | app/src/main/java/net/aquadc/tgchart/ChartDrawable.java:192-231 | the scan's `_yMin` is the smaller of `maxBottom` and the raw values of the appearing columns over the window, `_yMax` the larger of `minTop` and those values, and `visible` says whether any column is appearing |
| `ChartDrawables.ChartDrawable.ScanColumn` | app/src/main/java/net/aquadc/tgchart/ChartDrawable.java:196-230 | one column extends the running limits by its window extremes if it is appearing, and leaves them alone otherwise |
| `ChartDrawables.ChartDrawable.AnimYDiff` | app/src/main/java/net/aquadc/tgchart/ChartDrawable.java:108-156 | the fields change as `YScales.AnimYDiff` says |
| `ChartDrawables.ChartDrawable.ApplyLimits` | app/src/main/java/net/aquadc/tgchart/ChartDrawable.java:233-244 | the fields change as `YScales.AfterScan` says |
| `ChartDrawables.ChartDrawable.OnYMinUpdate` | app/src/main/java/net/aquadc/tgchart/ChartDrawable.java:123-129 | the `yMin` listener stores the value and recomputes `yDiff` |
| `ChartDrawables.ChartDrawable.OnYMaxUpdate` | app/src/main/java/net/aquadc/tgchart/ChartDrawable.java:130-136 | the `yMax` listener stores the value and recomputes `yDiff` |
| `ChartDrawables.ChartDrawable.OnYProgressUpdate` | app/src/main/java/net/aquadc/tgchart/ChartDrawable.java:137-141 | the progress listener stores the progress |
| `ChartDrawables.ChartDrawable.OnYAnimationEnd` | app/src/main/java/net/aquadc/tgchart/ChartDrawable.java:143-155 | the end of the animator set stops the running animation |
| `ChartDrawables.ChartDrawable.Draw` | app/src/main/java/net/aquadc/tgchart/ChartDrawable.java:157-244 | a frame normalizes first when dirty; it throws `ArrayIndexOutOfBoundsException` exactly on an empty chart, leaving the scale alone; otherwise it resolves the visible window, scans its limits, and updates the scale as `AfterScan` says |
| `ChartDrawables.ChartDrawable.Frame` | app/src/main/java/net/aquadc/tgchart/ChartDrawable.java:164-244 | the same as `Draw`, on an up-to-date array |
| `ChartDrawables.ChartDrawable.Scan` | app/src/main/java/net/aquadc/tgchart/ChartDrawable.java:164-231 | the read-only part of a frame: the window, and on a non-empty chart the scanned limits and whether any column is appearing |
| `ChartDrawables.ChartDrawable.FindWindow` | app/src/main/java/net/aquadc/tgchart/ChartDrawable.java:164-173 | the visible window is the first visible index (stepped back to keep one off-screen point) and the index closest to `xEnd`; both are valid, and an empty chart throws `ArrayIndexOutOfBoundsException` |
| `ChartDrawables.ChartDrawable.SetColumnVisibleAt` | app/src/main/java/net/aquadc/tgchart/ChartDrawable.java:576-611 | an index outside `[0, columns)` throws `IndexOutOfBoundsException`; an alpha already at the target (255 or 0) changes nothing; otherwise the column's animation is replaced by one from its alpha to the target |
| `ChartDrawables.ChartDrawable.OnVisibilityUpdate` | app/src/main/java/net/aquadc/tgchart/ChartDrawable.java:594-599 | the listener stores the packed word of the animated alpha in the column's slot, and no other slot changes |
| `ChartDrawables.ChartDrawable.OnVisibilityAnimationEnd` | app/src/main/java/net/aquadc/tgchart/ChartDrawable.java:604-607 | the end of a column's animation stops it and changes no other column |
| `ChartDrawables.ChartDrawable.GetYValuesAt` | app/src/main/java/net/aquadc/tgchart/ChartDrawable.java:674-684 | one value per column: the raw value of a fully visible column, NaN otherwise; an index outside a fully visible column throws |
| `ChartDrawables.ChartDrawable.GetYPositionsAt` | app/src/main/java/net/aquadc/tgchart/ChartDrawable.java:701-731 | normalizes when dirty, then gives one position per column: the pixel of the column's normalized Y at the index when fully visible, NaN otherwise; an index past the array throws; only the normalized array and the dirty flag change, so the scale and the animations are untouched |
| `ChartDrawables.ChartDrawable.XValueAtXPosition` | app/src/main/java/net/aquadc/tgchart/ChartDrawable.java:659-673 | on strictly ascending X values, `getXValueAt` at the index `getIndexAt` finds for the on-screen position of point `i` is the raw X value of point `i`, the value the balloon shows |
| `ChartDrawables.ChartDrawable.GetXPositionAt` | app/src/main/java/net/aquadc/tgchart/ChartDrawable.java:666-670 | normalizes when dirty, then maps the normalized entry to screen X by `xScale` and `translateX`; an index past the array throws; only the normalized array and the dirty flag change |
| `ChartDrawables.ChartDrawable.GetIndexAt` | app/src/main/java/net/aquadc/tgchart/ChartDrawable.java:659-665 | normalizes when dirty, then returns the closest X index to the screen position mapped back, which is a valid index, or -1 on an empty chart; only the normalized array and the dirty flag change |
| `ChartDrawables.ChartDrawable.IndexAtXPosition` | app/src/main/java/net/aquadc/tgchart/ChartDrawable.java:659-670 | on strictly ascending X values, `getIndexAt` of `getXPositionAt(i)` gives back `i` |
| `ChartDrawables.ChartDrawable.NormalizedXStrictlyAscending` | app/src/main/java/net/aquadc/tgchart/ChartDrawable.java:524 | strictly ascending raw X values stay strictly ascending once normalized |
| `ChartDrawables.ChartDrawable.AnimTextAlpha` | app/src/main/java/net/aquadc/tgchart/ChartDrawable.java:414-434 | a text alpha animation starts only when none runs |
| `ChartDrawables.ChartDrawable.CrossfadeStride` | app/src/main/java/net/aquadc/tgchart/ChartDrawable.java:446-457 | a smaller stride than the last fades labels in (direction 1), a larger one fades them out (direction -1), but only when no fade runs and there was a last stride; the stride is remembered; the direction never returns to 0; a fading-out pass shows half the stride, at least 1 |
| `ChartDrawables.ChartDrawable.OnTextAlphaUpdate` | app/src/main/java/net/aquadc/tgchart/ChartDrawable.java:422-427 | the listener stores the animated text alpha |
| `ChartDrawables.ChartDrawable.OnTextAlphaAnimationEnd` | app/src/main/java/net/aquadc/tgchart/ChartDrawable.java:417-421 | the end of the fade drops the animator |
| `ChartDrawables.ChartDrawable.XWidthPx` | app/src/main/java/net/aquadc/tgchart/ChartDrawable.java:378-382 | the pixels per X value of a non-empty visible range are positive |
| `ChartDrawables.ChartDrawable.DrawXValues` | app/src/main/java/net/aquadc/tgchart/ChartDrawable.java:373-408 | under the fit assumption, the label stride is found by doubling the initial power-of-two stride until the dry run fits, and doubled once more; it goes through the crossfade: a stride smaller than the last one starts the fade-in from 0 to 255, a larger one the fade-out from 255 to 0, and the first stride, an equal one or a running animation keep the animation and its direction; it shows the stride, or when fading out half of it and at least 1 |
| `ChartDrawables.AnimatedWordsAreWellFormed` | app/src/main/java/net/aquadc/tgchart/ChartDrawable.java:594-607 | every value a visibility animation delivers gives a word with that alpha; it is fully visible exactly at 255, and appearing when it rises towards 255 |
| `RangeBars.Clamped` | app/src/main/java/net/aquadc/tgchart/RangeBar.java:119-122 | on a non-negative width, the touched position is clamped into `[0, width]` |
| `RangeBars.SelectionInRange` | app/src/main/java/net/aquadc/tgchart/RangeBar.java:118-124 | `selection()` is always in `[0, max]`; a negative inner width gives `max` |
| `RangeBars.ScaleOfNegativeWidth` | app/src/main/java/net/aquadc/tgchart/RangeBar.java:123 | on a negative inner width the clamp yields the width itself, so the scaled selection is exactly `max` |
| `RangeBars.ScaleBounds` | app/src/main/java/net/aquadc/tgchart/RangeBar.java:123 | two ordered positions inside the bar scale to ordered selections inside `[0, max]` |
| `RangeBars.CastBetween` | app/src/main/java/net/aquadc/tgchart/RangeBar.java:123 | the `(int)` cast keeps two ordered values in `[0, max]` ordered and inside `[0, max]` |
| `RangeBars.SelectionMonotone` | app/src/main/java/net/aquadc/tgchart/RangeBar.java:118-124 | a touch further right never gives a smaller selection |
| `RangeBars.SelectionPxBounds` | app/src/main/java/net/aquadc/tgchart/RangeBar.java:204-206 | without overflow, a selection in `[0, max]` is a pixel of the inner area, 0 at its left edge and `max` at its right edge, and larger selections are never further left |
| `RangeBars.DragKeepsWindow` | app/src/main/java/net/aquadc/tgchart/RangeBar.java:101-108 | a whole-window drag keeps the window's size, stays inside `[0, max]`, moves by the full distance when that fits, and otherwise stops at 0 or at `max` |
| `RangeBars.HandleMoveSpec` | app/src/main/java/net/aquadc/tgchart/RangeBar.java:110-113 | the left handle changes only the start, which ends at most `end - minWindowSize` and is the touched selection exactly when allowed; the right handle likewise changes only the end, floored at `start + minWindowSize` |
| `RangeBars.HandleMoveLeavesRange` | app/src/main/java/net/aquadc/tgchart/RangeBar.java:99-113 | when the end is below `minWindowSize`, a pixel count, dragging the left handle moves the start below 0; for example, an end of 10 with a `minWindowSize` of 32 gives the selection `[-22, 10]` |
| `RangeBars.PickHandle` | app/src/main/java/net/aquadc/tgchart/RangeBar.java:89-96 | the first touch picks the left handle left of the start plus twice the left border, else the right handle right of the end less twice the right border, else the whole window |
| `RangeBars.RangeBar.constructor` | app/src/main/java/net/aquadc/tgchart/RangeBar.java:27-35 | a new bar has `max` 1000, the selection `[0, 1000]`, no listener, no previous touch and the whole-window handle |
| `RangeBars.RangeBar.SetLayout` | app/src/main/java/net/aquadc/tgchart/RangeBar.java:208-210 | stores the size and paddings the inner width is computed from |
| `RangeBars.RangeBar.SetWindowBorders` | app/src/main/java/net/aquadc/tgchart/RangeBar.java:137-140 | stores the window borders |
| `RangeBars.RangeBar.SetSelectionChangeListener` | app/src/main/java/net/aquadc/tgchart/RangeBar.java:130-132 | sets or clears the listener |
| `RangeBars.RangeBar.SetEnabled` | app/src/main/java/net/aquadc/tgchart/RangeBar.java:73 | stores whether the bar reacts to touches |
| `RangeBars.RangeBar.SetSelectedRangeInternal` | app/src/main/java/net/aquadc/tgchart/RangeBar.java:48-57 | stores the pair, and the listener hears the new pair once only if it differs from the old one, so repeating a pair is a no-op |
| `RangeBars.RangeBar.SetMax` | app/src/main/java/net/aquadc/tgchart/RangeBar.java:28-32 | a `max` below 1 throws `IllegalArgumentException` and changes nothing; otherwise it is stored and the selection is reset to `[0, max - 1]` |
| `RangeBars.RangeBar.SetSelectedRange` | app/src/main/java/net/aquadc/tgchart/RangeBar.java:39-47 | an endpoint outside `[0, max)` throws the range message, a start after the end throws the order message, and either leaves the selection alone; otherwise the pair is stored |
| `RangeBars.RangeBar.OnRestoreInstanceState` | app/src/main/java/net/aquadc/tgchart/RangeBar.java:66-70 | both restored endpoints are capped at `max`, and the listener hears the restored pair only if it differs from the current one |
| `RangeBars.RangeBar.OnTouchEvent` | app/src/main/java/net/aquadc/tgchart/RangeBar.java:72-83 | a disabled bar ignores touches; a down or a move is handled as `touchAt` does, picking the handle on the first touch and then dragging the window or moving the picked handle; any other action ends the gesture by forgetting the previous touch and changes no selection; the listener hears each change |
| `RangeBars.RangeBar.TouchAt` | app/src/main/java/net/aquadc/tgchart/RangeBar.java:85-117 | the first touch of a gesture only picks the handle; later ones drag the whole window by the clamped distance or move the picked handle; the touch is remembered and the listener hears each change |
| `ChartBubbleViews.Widths` | app/src/main/java/net/aquadc/tgchart/ChartBubbleView.java:168-171 | each column is as wide as the wider of its value and its name |
| `ChartBubbleViews.TextLefts` | app/src/main/java/net/aquadc/tgchart/ChartBubbleView.java:211-218 | there is one text position per column |
| `ChartBubbleViews.ClampSpec` | app/src/main/java/net/aquadc/tgchart/ChartBubbleView.java:189-199 | the shift keeps `right - left == balloonWidth`; a bubble left of `leftMin` starts at `leftMin`, else one past `rightMax` ends there, else it starts at the touched X |
| `ChartBubbleViews.ClampFitsOnlyIfRoom` | app/src/main/java/net/aquadc/tgchart/ChartBubbleView.java:191-199 | only one correction is made: the bubble ends inside the area exactly when it is narrow enough or already fitted, and a bubble shifted right is not checked against `rightMax` again |
| `ChartBubbleViews.AdvanceMono` | app/src/main/java/net/aquadc/tgchart/ChartBubbleView.java:165-172 | with non-negative widths and spacing, the summed advance only grows along the columns |
| `ChartBubbleViews.TextsInsideBalloon` | app/src/main/java/net/aquadc/tgchart/ChartBubbleView.java:163-175 | every column's text starts at or right of the balloon's left edge and ends inside the balloon |
| `ChartBubbleViews.TextLeftsStep` | app/src/main/java/net/aquadc/tgchart/ChartBubbleView.java:218 | each column's text starts its width plus the spacing after the previous one |
| `ChartBubbleViews.ChartBubbleView.constructor` | app/src/main/java/net/aquadc/tgchart/ChartBubbleView.java:20-38 | a new view shows nothing (`currentXIndex` -1), is transparent, not pressed and not animating, and has insets of 16 dp |
| `ChartBubbleViews.ChartBubbleView.SetTextSizes` | app/src/main/java/net/aquadc/tgchart/ChartBubbleView.java:55-61 | stores the text sizes and the spacing |
| `ChartBubbleViews.ChartBubbleView.SetChart` | app/src/main/java/net/aquadc/tgchart/ChartBubbleView.java:88-90 | sets or clears the chart |
| `ChartBubbleViews.ChartBubbleView.SetFormatters` | app/src/main/java/net/aquadc/tgchart/ChartBubbleView.java:94-97 | sets or clears the formatters |
| `ChartBubbleViews.ChartBubbleView.SetLayout` | app/src/main/java/net/aquadc/tgchart/ChartBubbleView.java:138-139 | stores the size and paddings the inner area is computed from |
| `ChartBubbleViews.ChartBubbleView.SetPressed` | app/src/main/java/net/aquadc/tgchart/ChartBubbleView.java:39-48 | stores the pressed state; a running fade-out is cancelled first, which runs its listener and clears the index; then pressing fades the view in, and releasing fades it out with the listener that clears the index; an animation is running afterwards |
| `ChartBubbleViews.PressUpdate` | app/src/main/java/net/aquadc/tgchart/ChartBubbleView.java:36-42 | the `setPressed` call of the clickable view's touch handling: `true` exactly on a down; `false` exactly on a cancel, or on an up or a move out of the view while pressed |
| `ChartBubbleViews.ChartBubbleView.OnAlphaAnimationEnd` | app/src/main/java/net/aquadc/tgchart/ChartBubbleView.java:43-48 | the end of the hiding fade resets `currentXIndex` to -1; the end of a showing fade keeps it; no animation runs afterwards |
| `ChartBubbleViews.ChartBubbleView.OnTouchEvent` | app/src/main/java/net/aquadc/tgchart/ChartBubbleView.java:112-124 | without a chart the touch is not handled; down, move and hover move take the index from the chart's `getIndexAt`; other actions keep it; then the pressed state changes as `View.onTouchEvent` drives it: a down presses and fades the balloon in; an up, a cancel or a move out of the view releases it and fades it out with the listener that clears the index; either call cancels a fade-out still running, which sets the index to -1, so a press during a fade-out ends with nothing selected |
| `ChartBubbleViews.ChartBubbleView.Expected` | app/src/main/java/net/aquadc/tgchart/ChartBubbleView.java:177-199 | the laid-out balloon is as wide as the balloon width and has one text position per column |
| `ChartBubbleViews.ChartBubbleView.MeasureColumns` | app/src/main/java/net/aquadc/tgchart/ChartBubbleView.java:151-173 | the loop fills `lengths` with the column widths, reallocating it only when the column count changed, and sums their advance |
| `ChartBubbleViews.ChartBubbleView.PlaceTexts` | app/src/main/java/net/aquadc/tgchart/ChartBubbleView.java:211-219 | the loop's `currentLeft` values are the text positions, each the balloon's left plus the widths and spacings of the columns before it |
| `ChartBubbleViews.ChartBubbleView.DrawBubble` | app/src/main/java/net/aquadc/tgchart/ChartBubbleView.java:137-220 | fills `lengths` as `MeasureColumns` says, and lays out the balloon: width, top, bottom, the shifted left and right, and the text positions |
| `ChartBubbleViews.ChartBubbleView.OnDraw` | app/src/main/java/net/aquadc/tgchart/ChartBubbleView.java:126-132 | the balloon is drawn exactly with a chart, both formatters and a touched point; otherwise nothing changes |
| `SettableFutures.Glue` | app/src/main/java/net/aquadc/tgchart/SettableFuture.java:90-96 | the copy is the old array with the new element appended |
| `SettableFutures.FirstIndex` | app/src/main/java/net/aquadc/tgchart/SettableFuture.java:99-106 | the search loop finds the first identical element, or -1 exactly when there is none |
| `SettableFutures.Without` | app/src/main/java/net/aquadc/tgchart/SettableFuture.java:98-113 | an absent element gives back the array itself; otherwise one occurrence is removed and the array shrinks by one |
| `SettableFutures.WithoutKeepsOrder` | app/src/main/java/net/aquadc/tgchart/SettableFuture.java:109-111 | the removed element is the first identical one, and the others keep their order |
| `SettableFutures.WithoutUnchangedIff` | app/src/main/java/net/aquadc/tgchart/SettableFuture.java:65-66 | `without` returns the same array exactly when the victim is absent, which is what `unsubscribe` tests |
| `SettableFutures.WithoutUndoesGlue` | app/src/main/java/net/aquadc/tgchart/SettableFuture.java:90-113 | removing a callback just appended to a list without it restores the list |
| `SettableFutures.Deliveries` | app/src/main/java/net/aquadc/tgchart/SettableFuture.java:74-88 | each callback, in order, receives the value once |
| `SettableFutures.SettableFuture.constructor` | app/src/main/java/net/aquadc/tgchart/SettableFuture.java:15-18 | a new future holds nothing and has delivered nothing |
| `SettableFutures.SettableFuture.Notify` | app/src/main/java/net/aquadc/tgchart/SettableFuture.java:74-88 | appends one delivery per callback, in order |
| `SettableFutures.SettableFuture.Set` | app/src/main/java/net/aquadc/tgchart/SettableFuture.java:20-38 | succeeds exactly when no non-null value is held; on success it stores the value, keeps the callbacks and notifies each of them in order; otherwise it changes nothing |
| `SettableFutures.SettableFuture.Subscribe` | app/src/main/java/net/aquadc/tgchart/SettableFuture.java:40-56 | appends the callback after the existing ones and keeps the value; when a value is held, only the new callback is notified of it |
| `SettableFutures.SettableFuture.Unsubscribe` | app/src/main/java/net/aquadc/tgchart/SettableFuture.java:58-71 | succeeds exactly when the victim is registered; removes its first occurrence; never changes the value |
| `DoubleArrayLists.NewCapacity` | app/src/main/java/net/aquadc/tgchart/DoubleArrayList.java:31-34 | the new capacity is `old + (old >> 1)`, or the minimum capacity when that is larger |
| `DoubleArrayLists.GrowByOne` | app/src/main/java/net/aquadc/tgchart/DoubleArrayList.java:18 | growing by one element from a capacity of at least 2 grows by half and really grows |
| `DoubleArrayLists.CopyOf` | app/src/main/java/net/aquadc/tgchart/DoubleArrayList.java:35 | `Arrays.copyOf` gives a fresh array of the new length holding the old elements, padded with zeros |
| `DoubleArrayLists.DoubleArrayList.constructor` | app/src/main/java/net/aquadc/tgchart/DoubleArrayList.java:12-15 | a new list has capacity 10 and size 0 |
| `DoubleArrayLists.DoubleArrayList.EnsureCapacityInternal` | app/src/main/java/net/aquadc/tgchart/DoubleArrayList.java:28-37 | the buffer grows, to `NewCapacity`, only when the minimum exceeds its length; the contents are kept and `size <= capacity` holds |
| `DoubleArrayLists.DoubleArrayList.Add` | app/src/main/java/net/aquadc/tgchart/DoubleArrayList.java:17-20 | appends the element after the earlier ones and grows the buffer only when it was full |
| `DoubleArrayLists.DoubleArrayList.ToArray` | app/src/main/java/net/aquadc/tgchart/DoubleArrayList.java:22-26 | gives exactly the first `size` elements: the buffer itself when full, a fresh copy otherwise |
| `CountFormatters.UnitIndexFromFirst` | app/src/main/java/net/aquadc/tgchart/MainActivity.java:340-346 | the unit loop stops at the first multiplier at most the value, or runs off the table |
| `CountFormatters.UnitIndexSpec` | app/src/main/java/net/aquadc/tgchart/MainActivity.java:332-347 | the unit index is the first of G, M, k, 1, m, μ whose multiplier is at most the value, and 6 ('n') exactly for values below 1e-6 |
| `CountFormatters.FormatValueInto` | app/src/main/java/net/aquadc/tgchart/MainActivity.java:334-356 | appends to the caller's builder exactly the text specified by `FormatInto` |
| `CountFormatters.PlainValuesUnchanged` | app/src/main/java/net/aquadc/tgchart/MainActivity.java:337-338 | zero, infinite and NaN values get no unit and no rounding |
| `CountFormatters.ScaledByFirstMultiplier` | app/src/main/java/net/aquadc/tgchart/MainActivity.java:340-347 | a value of at least 1e-6 is divided by the first multiplier at most it, and gets that multiplier's unit |
| `CountFormatters.TinyValuesGetNano` | app/src/main/java/net/aquadc/tgchart/MainActivity.java:332-351 | a non-zero value below 1e-6, negative values included, gets 'n' without being divided, and is still rounded |
| `CountFormatters.UnitlessRangeUnrounded` | app/src/main/java/net/aquadc/tgchart/MainActivity.java:349-351 | a value in `[1, 1000)` gets no unit and is not rounded |
| `CountFormatters.UnitMeansRoundedAndSuffixed` | app/src/main/java/net/aquadc/tgchart/MainActivity.java:349-355 | with a unit, the value is rounded to one decimal by `Math.round(10 v) / 10`, and the text ends in the unit |
| `CountFormatters.CutIsAtLastDotZero` | app/src/main/java/net/aquadc/tgchart/MainActivity.java:353-354 | the text is cut exactly when ".0" occurs at an index above 0, and then at its last occurrence |
| `CountFormatters.ExponentTextIsCut` | app/src/main/java/net/aquadc/tgchart/MainActivity.java:349-355 | scientific notation is cut too: 1e20 becomes "1.0E11" plus 'G', and the cut at ".0" leaves "1G" |
| `DoubleEvaluators.EvaluateRejectsNonFinite` | app/src/main/java/net/aquadc/tgchart/DoubleEvaluator.java:12-18 | a NaN or infinite value at either end makes `evaluate` throw `AssertionError`; two finite end points always give a value |
| `DoubleEvaluators.EvaluateEndPoints` | app/src/main/java/net/aquadc/tgchart/DoubleEvaluator.java:16-17 | fraction 0 gives the start and fraction 1 the end |
| `DoubleEvaluators.EvaluateStaysBetween` | app/src/main/java/net/aquadc/tgchart/DoubleEvaluator.java:16-17 | a fraction in `[0, 1]` gives a value between the start and the end |
| `DoubleEvaluators.EvaluateMonotone` | app/src/main/java/net/aquadc/tgchart/DoubleEvaluator.java:16-17 | from a smaller start to a larger end, a larger fraction never gives a smaller value |
| `ColourModes.Ordinal` | app/src/main/java/net/aquadc/tgchart/ColourMode.java:56 | each mode sits at its ordinal in `values()` |
| `ColourModes.Next` | app/src/main/java/net/aquadc/tgchart/ColourMode.java:57-59 | the next mode's ordinal is `(ordinal + 1) mod VALUES.length` |
| `ColourModes.LightNextIsDark` | app/src/main/java/net/aquadc/tgchart/ColourMode.java:7-12 | `LIGHT.next()` is `DARK` |
| `ColourModes.DarkNextWrapsToLight` | app/src/main/java/net/aquadc/tgchart/ColourMode.java:56-59 | `DARK.next()` wraps around to `LIGHT` |
| `ColourModes.NextNOrdinal` | app/src/main/java/net/aquadc/tgchart/ColourMode.java:57-59 | `k` steps of `next` advance the ordinal by `k` modulo the number of modes |
| `ColourModes.NextCyclesBack` | app/src/main/java/net/aquadc/tgchart/ColourMode.java:56-59 | `VALUES.length` steps of `next` give back the original mode |
| `JavaLang.JavaDiv` | app/src/main/java/net/aquadc/tgchart/ChartDrawable.java:457 | Java's integer division truncates toward zero |
| `JavaLang.WrapInt` | app/src/main/java/net/aquadc/tgchart/ChartDrawable.java:387 | `int` arithmetic gives the value in the `int` range that is congruent to the exact result modulo 2^32, and leaves values in range alone |
| `JavaLang.Truncate` | app/src/main/java/net/aquadc/tgchart/ChartDrawable.java:384 | the cast of a real to an integer truncates toward zero |
| `JavaLang.IntCast` | app/src/main/java/net/aquadc/tgchart/RangeBar.java:123 | `(int)` of a floating value truncates inside the `int` range and saturates at `Integer.MAX_VALUE` above it and at `Integer.MIN_VALUE` below it |
| `JavaLang.Ceil` | app/src/main/java/net/aquadc/tgchart/ChartDrawable.java:345 | `Math.ceil` gives the least integer at least the value |
| `JavaLang.Round` | app/src/main/java/net/aquadc/tgchart/MainActivity.java:350 | `Math.round` gives the nearest `long`, halves rounded up, and saturates at `Long.MAX_VALUE` and `Long.MIN_VALUE` outside the `long` range |
| `JavaLang.ToByte` | app/src/main/java/net/aquadc/tgchart/ChartDrawable.java:596 | `(byte)` keeps the low eight bits as a signed value in `[-128, 128)` |
| `JavaLang.LowByte` | app/src/main/java/net/aquadc/tgchart/ChartDrawable.java:580 | `& 0xFF` keeps the low eight bits as a value in `[0, 256)` |
| `JavaLang.HighestOneBit` | app/src/main/java/net/aquadc/tgchart/ChartDrawable.java:386 | `Integer.highestOneBit` of a positive `n` is the power of two `h` with `h <= n < 2h`, and of 0 is 0 |
| `JavaLang.LastIndexOf` | app/src/main/java/net/aquadc/tgchart/MainActivity.java:353 | `lastIndexOf` is -1 or an occurrence, with no occurrence after it |
| `JavaLang.StringBuilder.Append` | app/src/main/java/net/aquadc/tgchart/MainActivity.java:352 | appends the text at the end of the builder |
| `JavaLang.StringBuilder.SetLength` | app/src/main/java/net/aquadc/tgchart/MainActivity.java:354 | shortening keeps exactly the first `n` characters |

## Left out

- Drawing on the canvas is not modelled. This covers paths, paints, matrices, text and guideline drawing, the shadowed balloon background, `RoundRectHelper`, and the float pixel arithmetic of `getYPositionsAt`, which is the `pixel` parameter there. Only the values the drawing code computes from its state are modelled.
- Animator timing and interpolation are not modelled. An animator is a record of its end values and whether it runs, and each update is a call with an arbitrary animated value.
- Text measurement and formatting come from the platform. The measured widths, the positions of points, the double-to-string conversion and the value formatters are parameters.
- Floating point is real arithmetic. The `(float)` casts, their rounding, and NaN or infinity arising from arithmetic are not modelled. Dividing by a zero width in `RangeBar` is modelled, because the code can reach it.
- `NormX`, `NormY` and `ChartDrawables.ChartDrawable.Normalize` require each column's maximum to be above its minimum. The Java code divides by zero on an equal pair.
- `AxisLabels.NormaliseStep` requires a positive step; the loop at line 324 does not terminate on a negative one.
- `ChartDrawables.ChartDrawable.XScale` requires the visible range to be non-empty, and `ChartDrawables.ChartDrawable.GetIndexAt` also requires a positive width.
- `ChartDrawables.ChartDrawable.DrawXValues` requires that some number of doublings makes the dry run fit. This is the fit assumption; without it the loop at lines 391-401 need not end.
- `AxisLabels.FitTextsDryRun` has `measure` as a parameter, which stands for formatting plus `measureText`.
- `Search.SearchLoopSpec` compares reals, so `Arrays.binarySearch`'s ordering of NaN and -0.0 is not modelled.
- `SettableFuture` is single-threaded. Each compare-and-set loop is one atomic step. The `Looper`/`Handler` dispatch of `notify` is an appended delivery log.
- The JSON document is already decoded. `android.util.JsonReader`, `skipValue` and `endObject` are not modelled; top-level members, types, names and data sets arrive as lists.
- The iteration order of a `HashMap` is an input of `Charts.Assemble`. It is any order that lists each key once (`EntryOrder`). `Color.parseColor` is the `parseColour` parameter.
- `Charts.ReadLaterColumn`: a data set of the wrong length throws `IllegalStateException`. In the source, that exception comes from `JsonReader.nextDouble` or `endArray`; the exact point and message are not modelled.
- `ChartDrawables.ChartDrawable.constructor` allocates the `normalized` array. The source allocates it lazily in `normalize` (lines 506-513); the paths and the matrix are left out.
- `DEBUG` timing output (lines 160-161 and 296-309 of `ChartDrawable.java`) and `configureGuidelines` are left out.
- `RangeBars.RangeBar.SetMax` and `RangeBars.RangeBar.SetSelectedRange`: the exception messages keep only their constant heads. The appended numbers are not modelled.
- `RangeBars.DragKeepsWindow` requires the drag distance to be at most `INT_MAX - max`. This excludes the `INT_MAX` that a drag on a zero-width bar produces, where `selectionStart + distance` wraps; `TouchAt` itself models that case.
- `RangeBars.RangeBar.TouchAt`: `selectionToPx` is compared after widening to `float`. The model compares the `int` value with the real touch position.
- `ChartBubbleViews.ChartBubbleView.OnTouchEvent` models the `super.onTouchEvent` call of line 123 by `PressUpdate`, for an enabled view outside a scrolling container. The delayed press inside a scrolling container, long presses, clicks and the touch slop are not modelled; whether the pointer left the view is the `inside` parameter.
- `ChartBubbleViews.ChartBubbleView.SetPressed` records the alpha animation as its target, its listener and whether it runs; the 150 ms duration and the alpha values in between are not modelled. Its natural end is `OnAlphaAnimationEnd`, called by the animation framework; `ViewPropertyAnimator`'s cancel of a running alpha animation, which ends it through its listener, is modelled inside `SetPressed`.
- `RangeBars.RangeBar.constructor`: the initial selection end is `max`, 1000, not `max - 1` as after `setMax`. The model keeps this as in the code.
- `ChartBubbleViews.ChartBubbleView.DrawBubble`: the layout integers are unbounded, and `1.2f` is taken as the real 1.2. The `getIndexAt` and `getXPositionAt` results are parameters.
- `ChartBubbleViews.ChartBubbleView.MeasureColumns` reallocates `lengths` when its length differs from the column count. The source keys this on `formattedYValues`, allocated together with `lengths`, whose first value is no array; the model starts from an empty one.
- `DoubleArrayLists.NewCapacity`, `DoubleArrayLists.DoubleArrayList.EnsureCapacityInternal` and `DoubleArrayLists.DoubleArrayList.Add` use unbounded capacities. The `int` overflow of `size + 1` (line 18) and of `oldCapacity + (oldCapacity >> 1)` (line 32) is not modelled. Nor is the overflow-conscious fallback to `minCapacity` when `newCapacity - minCapacity` wraps below 0 (lines 29 and 33), or the exceptions `Arrays.copyOf` would then throw. A chart column would need more than a billion values to reach them.
- `RangeBars.HandleMoveLeavesRange` records that a handle drag does not keep the selection inside `[0, max]`. The source mixes pixels and selection units at line 112. The model keeps this behaviour as written.
- `AxisLabels.LabelsStartAtZero` records that `(int) firstVisibleX / length * length` is always 0 inside the range. The labels therefore always start from X index 0, and the code keeps that behaviour.
- View plumbing outside these members is not modelled: colours, guideline paint, `ColumnChooser`, `Util`, `Res`, `DateFormatter`, and the rest of `MainActivity`. It only forwards values to the platform.
