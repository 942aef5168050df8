/** The packed visibility word that `ChartDrawable` keeps per column: the
    low byte is the column's alpha, and bit 16 (`APPEARING`) says that the
    column takes part in the Y autoscale. The word is written with Java's
    `(byte)` cast, which sign-extends, and read with `& 0xFF`, with
    `& APPEARING` and by comparing it with `(byte) 255`. */
module Visibility {
  import opened JavaLang

  /** `APPEARING = 1 << 16`. */
  const APPEARING: int := 0x1_0000

  /** `(byte) 255`, the word of a fully visible column (line 74). */
  const FULLY_VISIBLE: int := ToByte(255)

  /** The word is drawn at all: `visibility != 0` (line 197). */
  predicate Drawn(word: int) { word != 0 }

  /** The column takes part in the autoscale: `(visibility & APPEARING) != 0`
      (line 222). */
  predicate Appearing(word: int) { HasBit(word, APPEARING) }

  /** The column counts as shown for the overlay: `visibility == (byte) 255`
      (lines 681 and 719). */
  predicate FullyVisible(word: int) { word == FULLY_VISIBLE }

  /** `visibilities[i] & 0xFF`, the column's alpha. */
  function Alpha(word: int): int { LowByte(word) }

  /** `(byte) 255` is -1: every bit is set, the alpha is 255 and the
      column is appearing. */
  lemma FullyVisibleWord()
    ensures FULLY_VISIBLE == -1
    ensures Alpha(FULLY_VISIBLE) == 255
    ensures Appearing(FULLY_VISIBLE) && Drawn(FULLY_VISIBLE)
  {
  }

  /** The word stored by the update listener of a visibility animation
      (lines 595-598): the animated alpha cast to `byte`, with `APPEARING`
      added when it rose above the previous alpha. */
  function UpdatedWord(previous: int, animatedValue: int): int
  {
    var prev := Alpha(previous);
    var next := ToByte(animatedValue);
    if next > prev then SetBit(next, APPEARING) else next
  }

  /** For an animated alpha in [0, 255] (what `ofInt(alpha, targetAlpha)`
      produces) the stored word keeps the alpha in its low byte and is
      drawn exactly when the alpha is not 0. */
  lemma UpdatedWordKeepsAlpha(previous: int, animatedValue: int)
    requires 0 <= animatedValue <= 255
    ensures Alpha(UpdatedWord(previous, animatedValue)) == animatedValue
    ensures Drawn(UpdatedWord(previous, animatedValue)) <==> animatedValue != 0
  {
    var next := ToByte(animatedValue);
    if next > Alpha(previous) && !HasBit(next, APPEARING) {
      assert (next + APPEARING) % 256 == next % 256;
    }
  }

  /** An alpha of 128 or more is sign-extended by the cast, so the word has
      every high bit, `APPEARING` among them, whether the alpha rises or
      falls. Below 128 the bit is set exactly when the alpha rose. */
  lemma UpdatedWordAppearing(previous: int, animatedValue: int)
    requires 0 <= animatedValue <= 255
    ensures animatedValue >= 128 ==> Appearing(UpdatedWord(previous, animatedValue))
    ensures animatedValue < 128 ==>
              (Appearing(UpdatedWord(previous, animatedValue)) <==> animatedValue > Alpha(previous))
  {
    var next := ToByte(animatedValue);
    if animatedValue >= 128 {
      assert next == animatedValue - 256;
      assert next / APPEARING == -1;
    } else {
      assert next == animatedValue;
      assert next / APPEARING == 0;
      assert (next + APPEARING) / APPEARING == 1;
    }
  }

  /** The word is -1, the test of `getYValuesAt`, exactly when the animated
      alpha reached 255. */
  lemma UpdatedWordFullyVisible(previous: int, animatedValue: int)
    requires 0 <= animatedValue <= 255
    ensures FullyVisible(UpdatedWord(previous, animatedValue)) <==> animatedValue == 255
  {
    var next := ToByte(animatedValue);
    if animatedValue >= 128 {
      assert next == animatedValue - 256;
      assert next / APPEARING == -1;
    } else {
      assert next == animatedValue;
      assert next / APPEARING == 0;
    }
  }
}
