/**
  The `PDM_SOUND_TYPE` enumeration. C passes it as a plain `int`, so the
  resolvers take the raw value and decode it; a value outside the ten
  enumerators reaches their `default` branch.
 */
module SoundTypes {
  import opened Esp

  datatype SoundType =
    | Knob | Snore | WashEndCn | WashEndEn | Factory
    | Brightness0 | Brightness25 | Brightness50 | Brightness75 | Brightness100

  /** The enumerator's value: declaration order from 0. */
  function Ordinal(t: SoundType): (v: nat)
    ensures v < 10
  {
    match t
    case Knob => 0
    case Snore => 1
    case WashEndCn => 2
    case WashEndEn => 3
    case Factory => 4
    case Brightness0 => 5
    case Brightness25 => 6
    case Brightness50 => 7
    case Brightness75 => 8
    case Brightness100 => 9
  }

  function Decode(v: Int32): (r: Option<SoundType>)
    ensures r.Some? <==> 0 <= v < 10
    ensures r.Some? ==> Ordinal(r.value) == v
  {
    if v == 0 then Some(Knob)
    else if v == 1 then Some(Snore)
    else if v == 2 then Some(WashEndCn)
    else if v == 3 then Some(WashEndEn)
    else if v == 4 then Some(Factory)
    else if v == 5 then Some(Brightness0)
    else if v == 6 then Some(Brightness25)
    else if v == 7 then Some(Brightness50)
    else if v == 8 then Some(Brightness75)
    else if v == 9 then Some(Brightness100)
    else None
  }

  lemma DecodeOrdinal(t: SoundType)
    ensures Decode(Ordinal(t)) == Some(t)
  {
  }

  predicate IsBrightness(t: SoundType) {
    t.Brightness0? || t.Brightness25? || t.Brightness50? || t.Brightness75? || t.Brightness100?
  }

  /** The brightness percentage a `SOUND_TYPE_BRIGHTNESS_<n>` enumerator names. */
  function Level(t: SoundType): (n: nat)
    requires IsBrightness(t)
    ensures n <= 100
  {
    match t
    case Brightness0 => 0
    case Brightness25 => 25
    case Brightness50 => 50
    case Brightness75 => 75
    case Brightness100 => 100
  }
}
