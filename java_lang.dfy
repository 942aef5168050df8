/** The parts of Java's semantics that the chart code relies on: doubles with
    their special values, exceptions, the narrowing casts, truncating integer
    division, the single-bit tests done on packed `int` words, and the few
    library members (`Integer.highestOneBit`, `Math.round`, `Math.ceil`,
    `StringBuilder`) whose results the model reasons about.

    Finite doubles are modelled as exact reals: rounding is not modelled. */
module JavaLang {

  datatype Option<T> = None | Some(value: T)

  /** A Java `double` (or `float`): a finite value or one of the special values. */
  datatype Double = Finite(value: real) | PositiveInfinity | NegativeInfinity | NaN {
    predicate IsNaN() { NaN? }
    predicate IsInfinite() { PositiveInfinity? || NegativeInfinity? }
  }

  /** The exceptions the modelled code throws, directly or through the JDK. */
  datatype Exception =
    | IllegalArgument(message: string)
    | NoSuchElement(message: string)
    | IndexOutOfBounds
    | ArrayIndexOutOfBounds
    | NegativeArraySize
    | NullPointer
    | IllegalState
    | AssertionError
    | Arithmetic

  /** The outcome of a call that returns a value or throws. */
  datatype Result<T> = Ok(value: T) | Throw(error: Exception)

  /** The outcome of a `void` call: it returns normally or throws. */
  datatype Outcome = Normal | Thrown(error: Exception)

  // ---------------------------------------------------------------- numbers

  const INT_MIN: int := -0x8000_0000
  const INT_MAX: int := 0x7FFF_FFFF
  const LONG_MIN: int := -0x8000_0000_0000_0000
  const LONG_MAX: int := 0x7FFF_FFFF_FFFF_FFFF

  /** `Double.MAX_VALUE` = (2 - 2^-52) * 2^1023, written out. */
  const DOUBLE_MAX_VALUE: real := 179769313486231570814527423731704356798070567525844996598917476803157260780028538760589558632766878171540458953514382464234321326889464182768467546703537516986049910576551282076245490090389328944075868508455133942304583236903222948165808559332123348274797826204144723168738177180919299881250404026184124858368.0
  /** `Double.MIN_VALUE` = 2^-1074, the smallest POSITIVE double. */
  const DOUBLE_MIN_VALUE: real := 1.0 / 202402253307310618352495346718917307049556649764142118356901358027430339567995346891960383701437124495187077864316811911389808737385793476867013399940738509921517424276566361364466907742093216341239767678472745068562007483424692698618103355649159556340810056512358769552333414615230502532186327508646006263307707741093494784.0
  /** `Float.MAX_VALUE` = (2 - 2^-23) * 2^127, written out. */
  const FLOAT_MAX_VALUE: real := 340282346638528859811704183484516925440.0
  /** `Float.MIN_VALUE` = 2^-149, the smallest POSITIVE float. */
  const FLOAT_MIN_VALUE: real := 1.0 / 713623846352979940529142984724747568191373312.0

  lemma MinValuesArePositive()
    ensures 0.0 < DOUBLE_MIN_VALUE <= 1.0
    ensures 0.0 < FLOAT_MIN_VALUE <= 1.0
  {
  }

  function Abs(x: int): nat { if x < 0 then -x else x }

  /** Java's `a / b` on `int`s: the quotient truncated toward zero. */
  function JavaDiv(a: int, b: int): (q: int)
    requires b != 0
    ensures a >= 0 && b > 0 ==> q == a / b
    ensures a < 0 && b > 0 ==> q == -((-a) / b)
  {
    var q := Abs(a) / Abs(b);
    if (a < 0) != (b < 0) then -q else q
  }

  /** The `int` that a mathematical integer wraps to: Java's `int` addition,
      subtraction and multiplication keep the low 32 bits of the exact result. */
  function WrapInt(x: int): (w: int)
    ensures INT_MIN <= w <= INT_MAX
    ensures INT_MIN <= x <= INT_MAX ==> w == x
    ensures (x - w) % 0x1_0000_0000 == 0
  {
    if INT_MIN <= x <= INT_MAX then x else (x - INT_MIN) % 0x1_0000_0000 + INT_MIN
  }

  /** Truncation of a real toward zero. */
  function Truncate(r: real): (t: int)
    ensures r >= 0.0 ==> t as real <= r < t as real + 1.0
    ensures r < 0.0 ==> t as real - 1.0 < r <= t as real
  {
    if r >= 0.0 then r.Floor else -((-r).Floor)
  }

  /** Java's `(int)` cast of a finite float or double: truncation toward zero,
      saturating at the ends of the `int` range. */
  function IntCast(r: real): (i: int)
    ensures INT_MIN <= i <= INT_MAX
    ensures INT_MIN <= Truncate(r) <= INT_MAX ==> i == Truncate(r)
    ensures Truncate(r) > INT_MAX ==> i == INT_MAX
    ensures Truncate(r) < INT_MIN ==> i == INT_MIN
  {
    var t := Truncate(r);
    if t < INT_MIN then INT_MIN else if t > INT_MAX then INT_MAX else t
  }

  /** `Math.ceil` of a finite value. */
  function Ceil(r: real): (c: int)
    ensures c as real - 1.0 < r <= c as real
  {
    -((-r).Floor)
  }

  /** `Math.round(double)`: the closest `long`, ties rounding up (towards
      positive infinity), saturating at the ends of the `long` range. */
  function Round(r: real): (n: int)
    ensures LONG_MIN <= n <= LONG_MAX
    ensures LONG_MIN <= (r + 0.5).Floor <= LONG_MAX ==>
              n as real - 0.5 <= r < n as real + 0.5
    ensures (r + 0.5).Floor > LONG_MAX ==> n == LONG_MAX
    ensures (r + 0.5).Floor < LONG_MIN ==> n == LONG_MIN
  {
    var f := (r + 0.5).Floor;
    if f < LONG_MIN then LONG_MIN else if f > LONG_MAX then LONG_MAX else f
  }

  // ------------------------------------------------------------- bit words

  /** `(byte) x`: keeps the low eight bits of `x` and sign-extends bit 7. */
  function ToByte(x: int): (b: int)
    ensures -128 <= b < 128
    ensures (x - b) % 256 == 0
  {
    var r := x % 256;
    if r >= 128 then r - 256 else r
  }

  /** `w & 0xFF`. In two's complement the low eight bits of `w` are the
      Euclidean remainder of `w` by 256, whatever the sign of `w`. */
  function LowByte(w: int): (b: int)
    ensures 0 <= b < 256
    ensures (w - b) % 256 == 0
  {
    w % 256
  }

  /** `(w & mask) != 0` for a single-bit mask `mask` (a power of two): in
      two's complement, bit k of `w` is the parity of floor(w / 2^k), and
      Dafny's division by a positive divisor is floor division. */
  predicate HasBit(w: int, mask: int)
    requires mask > 0
  {
    (w / mask) % 2 == 1
  }

  /** `w | mask` for a single-bit mask `mask`: adds the bit when it is clear. */
  function SetBit(w: int, mask: int): (r: int)
    requires mask > 0
  {
    if HasBit(w, mask) then w else w + mask
  }

  predicate IsPowerOfTwo(n: int)
    decreases if n < 0 then 0 else n
  {
    n == 1 || (n >= 2 && n % 2 == 0 && IsPowerOfTwo(n / 2))
  }

  /** `Integer.highestOneBit(n)` for `n >= 0`: the largest power of two not
      above `n`, and 0 for 0. */
  function HighestOneBit(n: int): (h: int)
    requires n >= 0
    ensures n == 0 ==> h == 0
    ensures n > 0 ==> IsPowerOfTwo(h) && h <= n < 2 * h
  {
    if n <= 1 then n else 2 * HighestOneBit(n / 2)
  }

  lemma {:induction false} PowerOfTwoDoubles(p: int)
    requires IsPowerOfTwo(p)
    ensures IsPowerOfTwo(2 * p)
  {
    assert (2 * p) / 2 == p;
  }

  // --------------------------------------------------------- strings

  predicate OccursAt(s: string, pattern: string, j: int)
    requires 0 <= j <= |s| - |pattern|
  {
    s[j..j + |pattern|] == pattern
  }

  /** The index of the last occurrence of `pattern` in `s`, or -1, as
      `String.lastIndexOf` / `StringBuilder.lastIndexOf` report it. */
  function LastIndexOf(s: string, pattern: string): (i: int)
    ensures i == -1 || 0 <= i <= |s| - |pattern|
    ensures i >= 0 ==> OccursAt(s, pattern, i)
    ensures forall j :: i < j <= |s| - |pattern| ==> !OccursAt(s, pattern, j)
    decreases |s|
  {
    if |s| < |pattern| then -1
    else if s[|s| - |pattern|..] == pattern then |s| - |pattern|
    else
      var t := s[..|s| - 1];
      assert forall j :: 0 <= j <= |t| - |pattern| ==> OccursAt(t, pattern, j) == OccursAt(s, pattern, j) by {
        forall j | 0 <= j <= |t| - |pattern| ensures OccursAt(t, pattern, j) == OccursAt(s, pattern, j) {
          assert t[j..j + |pattern|] == s[j..j + |pattern|];
        }
      }
      LastIndexOf(t, pattern)
  }

  /** `java.lang.StringBuilder`, reduced to the text it holds. */
  class StringBuilder {
    var chars: string

    constructor ()
      ensures chars == []
    {
      chars := [];
    }

    method Append(s: string)
      modifies this
      ensures chars == old(chars) + s
    {
      chars := chars + s;
    }

    /** `setLength(n)` for `n <= length()`: truncation. */
    method SetLength(n: nat)
      requires n <= |chars|
      modifies this
      ensures chars == old(chars)[..n]
    {
      chars := chars[..n];
    }
  }
}
