/** The `countFormatter` of `MainActivity`: writes a count with an SI-style
    unit letter (G, M, k, m, μ, n), rounded to one decimal, and with a
    trailing ".0" cut off.

    Java's `StringBuilder.append(double)` (that is, `Double.toString`) is not
    modelled: it is the parameter `toText`. */
module CountFormatters {
  import opened JavaLang

  /** The divisors tried in order; 10^-9 is deliberately absent. */
  const MULTIPLIERS: seq<real> := [1000000000.0, 1000000.0, 1000.0, 1.0, 0.001, 0.000001]
  /** The unit of each multiplier, plus 'n' for whatever is below all of them;
      '\0' stands for "no unit". */
  const UNITS: seq<char> := ['G', 'M', 'k', '\0', 'm', 'μ', 'n']

  const NO_UNIT: char := '\0'

  /** The index at which the scan over `MULTIPLIERS`, begun at `from`, stops:
      the first multiplier not above `v`, or the end of the table. */
  function UnitIndexFrom(v: real, from: nat): nat
    requires from <= |MULTIPLIERS|
    decreases |MULTIPLIERS| - from
  {
    if from == |MULTIPLIERS| then from
    else if v >= MULTIPLIERS[from] then from
    else UnitIndexFrom(v, from + 1)
  }

  function UnitIndex(v: real): nat
  {
    UnitIndexFrom(v, 0)
  }

  /** The scan stops at the first multiplier that is `<= v`, and runs off the
      end of the table (index 6) exactly when every multiplier exceeds `v`. */
  lemma {:induction false} UnitIndexFromFirst(v: real, from: nat)
    requires from <= |MULTIPLIERS|
    ensures from <= UnitIndexFrom(v, from) <= |MULTIPLIERS|
    ensures UnitIndexFrom(v, from) < |MULTIPLIERS| ==> v >= MULTIPLIERS[UnitIndexFrom(v, from)]
    ensures forall j :: from <= j < UnitIndexFrom(v, from) ==> v < MULTIPLIERS[j]
    decreases |MULTIPLIERS| - from
  {
    if from < |MULTIPLIERS| && v < MULTIPLIERS[from] {
      UnitIndexFromFirst(v, from + 1);
    }
  }

  /** The unit is that of the first multiplier not above `v`; values below
      10^-6, every negative value among them, get index 6 ('n'). */
  lemma UnitIndexSpec(v: real)
    ensures UnitIndex(v) <= 6
    ensures UnitIndex(v) < 6 ==> v >= MULTIPLIERS[UnitIndex(v)]
    ensures forall j :: 0 <= j < UnitIndex(v) ==> v < MULTIPLIERS[j]
    ensures UnitIndex(v) == 6 <==> v < 0.000001
  {
    UnitIndexFromFirst(v, 0);
  }

  /** Zero, the infinities and NaN are written as they are, with no unit. */
  predicate IsPlain(value: Double)
  {
    value == Finite(0.0) || value.IsInfinite() || value.IsNaN()
  }

  /** The unit character chosen for `value`. */
  function UnitOf(value: Double): char
  {
    if IsPlain(value) then NO_UNIT else UNITS[UnitIndex(value.value)]
  }

  /** The value after the scan: divided by the multiplier it stopped at, and
      left as it is when it ran off the table. */
  function Scaled(value: Double): Double
  {
    if IsPlain(value) then value
    else
      var idx := UnitIndex(value.value);
      if idx < |MULTIPLIERS| then Finite(value.value / MULTIPLIERS[idx]) else value
  }

  /** `Math.round(10 * v) / 10.0`. */
  function RoundToTenth(v: real): real
  {
    Round(10.0 * v) as real / 10.0
  }

  /** The value handed to `append`: rounded to one decimal unless the unit
      is '\0'. */
  function Printed(value: Double): Double
  {
    var s := Scaled(value);
    if UnitOf(value) != NO_UNIT then Finite(RoundToTenth(s.value)) else s
  }

  /** `if (i > 0) sb.setLength(i)` for `i = sb.lastIndexOf(".0")`. */
  function CutAtDotZero(t: string): string
  {
    var i := LastIndexOf(t, ".0");
    if i > 0 then t[..i] else t
  }

  /** The builder's text after `formatValueInto(sb, value)` when it held
      `before`. The ".0" is searched for in the whole builder, text that
      was there before included. */
  function FormatInto(before: string, value: Double, toText: Double -> string): string
  {
    var t := CutAtDotZero(before + toText(Printed(value)));
    if UnitOf(value) != NO_UNIT then t + [UnitOf(value)] else t
  }

  /** `formatValueInto(sb, value)`. */
  method FormatValueInto(sb: StringBuilder, value: Double, toText: Double -> string)
    modifies sb
    ensures sb.chars == FormatInto(old(sb.chars), value, toText)
  {
    var unitIdx := 0;
    var unit: char;
    var v := value;
    if value == Finite(0.0) || value.IsInfinite() || value.IsNaN() {
      unit := NO_UNIT;
    } else {
      while unitIdx < |MULTIPLIERS|
        invariant 0 <= unitIdx <= |MULTIPLIERS|
        invariant UnitIndexFrom(value.value, unitIdx) == UnitIndex(value.value)
        invariant v == value
      {
        var mul := MULTIPLIERS[unitIdx];
        if v.value >= mul {
          v := Finite(v.value / mul);
          break;
        }
        unitIdx := unitIdx + 1;
      }
      unit := UNITS[unitIdx];
      assert unitIdx == UnitIndex(value.value);
    }
    assert unit == UnitOf(value) && v == Scaled(value);
    if unit != NO_UNIT {
      v := Finite(Round(10.0 * v.value) as real / 10.0);
    }
    assert v == Printed(value);
    ghost var written := old(sb.chars) + toText(v);
    sb.Append(toText(v));
    var i := LastIndexOf(sb.chars, ".0");
    if i > 0 {
      sb.SetLength(i);
    }
    assert sb.chars == CutAtDotZero(written);
    if unit != NO_UNIT {
      sb.Append([unit]);
    }
  }

  // ---------------------------------------------------------------- lemmas

  /** Zero, infinite and NaN values get no unit and are written unrounded. */
  lemma PlainValuesUnchanged(before: string, value: Double, toText: Double -> string)
    requires IsPlain(value)
    ensures UnitOf(value) == NO_UNIT && Printed(value) == value
    ensures FormatInto(before, value, toText) == CutAtDotZero(before + toText(value))
  {
  }

  /** A value of at least 10^-6 is divided by the first multiplier not above
      it and written with that multiplier's unit. */
  lemma ScaledByFirstMultiplier(value: real)
    requires value != 0.0 && value >= 0.000001
    ensures UnitIndex(value) < 6
    ensures value >= MULTIPLIERS[UnitIndex(value)]
    ensures forall j :: 0 <= j < UnitIndex(value) ==> value < MULTIPLIERS[j]
    ensures Scaled(Finite(value)) == Finite(value / MULTIPLIERS[UnitIndex(value)])
    ensures UnitOf(Finite(value)) == UNITS[UnitIndex(value)]
  {
    UnitIndexSpec(value);
  }

  /** Values below 10^-6, every negative value among them, get the unit 'n'
      and are not divided. */
  lemma TinyValuesGetNano(value: real)
    requires value != 0.0 && value < 0.000001
    ensures UnitOf(Finite(value)) == 'n'
    ensures Scaled(Finite(value)) == Finite(value)
    ensures Printed(Finite(value)) == Finite(RoundToTenth(value))
  {
    UnitIndexSpec(value);
  }

  /** Values in [1, 1000) fall on the '\0' unit: they are neither divided
      nor rounded and get no unit letter. */
  lemma UnitlessRangeUnrounded(value: real)
    requires 1.0 <= value < 1000.0
    ensures UnitOf(Finite(value)) == NO_UNIT
    ensures Printed(Finite(value)) == Finite(value)
  {
    UnitIndexSpec(value);
    assert UnitIndex(value) == 3;
  }

  /** Rounding to a tenth moves a value by at most 0.05 and gives a whole
      number of tenths. */
  lemma RoundToTenthNear(s: real)
    requires LONG_MIN <= (10.0 * s + 0.5).Floor <= LONG_MAX
    ensures s - 0.05 < RoundToTenth(s) <= s + 0.05
    ensures (RoundToTenth(s) * 10.0).Floor as real == RoundToTenth(s) * 10.0
  {
    var n := Round(10.0 * s);
    assert n as real - 0.5 <= 10.0 * s < n as real + 0.5;
    assert RoundToTenth(s) * 10.0 == n as real;
  }

  /** With a unit, the printed value is the multiple of 0.1 closest to the
      scaled value (ties rounding up), and the text ends with the unit. */
  lemma UnitMeansRoundedAndSuffixed(before: string, value: Double, toText: Double -> string)
    requires UnitOf(value) != NO_UNIT
    requires LONG_MIN <= (10.0 * Scaled(value).value + 0.5).Floor <= LONG_MAX
    ensures Printed(value).Finite?
    ensures Scaled(value).value - 0.05 < Printed(value).value <= Scaled(value).value + 0.05
    ensures (Printed(value).value * 10.0).Floor as real == Printed(value).value * 10.0
    ensures FormatInto(before, value, toText)[|FormatInto(before, value, toText)| - 1] == UnitOf(value)
  {
    var s := Scaled(value).value;
    assert Printed(value) == Finite(RoundToTenth(s));
    RoundToTenthNear(s);
    var t := CutAtDotZero(before + toText(Printed(value)));
    assert FormatInto(before, value, toText) == t + [UnitOf(value)];
  }

  /** The cut leaves a prefix of the text. It removes something exactly when
      the last ".0" occurs after the first character, and then that ".0"
      starts where the kept prefix ends. */
  lemma CutIsAtLastDotZero(t: string)
    ensures CutAtDotZero(t) <= t
    ensures |CutAtDotZero(t)| < |t| <==> LastIndexOf(t, ".0") > 0
    ensures |CutAtDotZero(t)| < |t| ==>
              OccursAt(t, ".0", |CutAtDotZero(t)|) &&
              forall j :: |CutAtDotZero(t)| < j <= |t| - 2 ==> !OccursAt(t, ".0", j)
  {
  }

  /** The cut also applies to a "1.0E11" written for 10^11: 10^20 is written
      "1G" when `Double.toString` writes 10^11 as "1.0E11". */
  lemma ExponentTextIsCut(toText: Double -> string)
    requires toText(Finite(100000000000.0)) == "1.0E11"
    ensures FormatInto([], Finite(100000000000000000000.0), toText) == "1G"
  {
    var v := 100000000000000000000.0;
    UnitIndexSpec(v);
    assert UnitIndex(v) == 0;
    assert Scaled(Finite(v)) == Finite(100000000000.0);
    assert Round(10.0 * 100000000000.0) == 1000000000000;
    assert Printed(Finite(v)) == Finite(100000000000.0);
    var t := "1.0E11";
    assert LastIndexOf(t, ".0") == 1 by {
      assert t[4..] == "11" && t[..5] == "1.0E1";
      assert "1.0E1"[3..] == "E1" && "1.0E1"[..4] == "1.0E";
      assert "1.0E"[2..] == "0E" && "1.0E"[..3] == "1.0";
      assert "1.0"[1..] == ".0";
    }
    assert CutAtDotZero(t) == "1";
    assert UnitOf(Finite(v)) == 'G';
    assert [] + toText(Printed(Finite(v))) == t;
    assert "1" + ['G'] == "1G";
  }
}
