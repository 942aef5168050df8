/** The light/dark theme switch: `ColourMode` is an enum of two constants and
    `next()` steps to the following constant, wrapping around. The colour
    constants each mode carries are not part of this model. */
module ColourModes {

  datatype ColourMode = LIGHT | DARK

  /** `ColourMode.values()`, in declaration order. */
  const VALUES: seq<ColourMode> := [LIGHT, DARK]

  /** `ordinal()`: the position of the constant in `VALUES`. */
  function Ordinal(m: ColourMode): (o: nat)
    ensures o < |VALUES| && VALUES[o] == m
  {
    match m
    case LIGHT => 0
    case DARK => 1
  }

  /** `next()`: the constant after `m` in declaration order, cyclically. */
  function Next(m: ColourMode): (r: ColourMode)
    ensures Ordinal(r) == (Ordinal(m) + 1) % |VALUES|
  {
    VALUES[(Ordinal(m) + 1) % |VALUES|]
  }

  /** `k` successive calls of `next()`. */
  function NextN(m: ColourMode, k: nat): ColourMode
  {
    if k == 0 then m else Next(NextN(m, k - 1))
  }

  lemma LightNextIsDark()
    ensures Next(LIGHT) == DARK
  {
  }

  lemma DarkNextWrapsToLight()
    ensures Next(DARK) == LIGHT
  {
  }

  /** After `k` calls of `next()` the ordinal has advanced by `k`, modulo the
      number of constants. */
  lemma {:induction false} NextNOrdinal(m: ColourMode, k: nat)
    ensures Ordinal(NextN(m, k)) == (Ordinal(m) + k) % |VALUES|
  {
    if k > 0 {
      NextNOrdinal(m, k - 1);
    }
  }

  /** Calling `next()` `VALUES.length` times returns the mode one started from. */
  lemma NextCyclesBack(m: ColourMode)
    ensures NextN(m, |VALUES|) == m
  {
    NextNOrdinal(m, |VALUES|);
  }
}
