// The five selectable sizes of the time display and what each means: a
// scale factor (kept in percent, the source's float times 100) and the key of
// the human-readable name.
module TimeSizeHelper {

  const DefaultTimeSize: int := 50

  /** The five sizes the settings slider can produce. */
  predicate IsKnownTimeSize(size: int) {
    size == 0 || size == 25 || size == 50 || size == 75 || size == 100
  }

  /** `timeSizeToScaleFactor`, in percent: 80, 90, 100, 110 or 120, and 100 for anything else. */
  function ScalePercent(timeSize: int): (r: int)
    ensures 80 <= r <= 120 && r % 10 == 0
    ensures !IsKnownTimeSize(timeSize) ==> r == 100
  {
    match timeSize
    case 0 => 80
    case 25 => 90
    case 50 => 100
    case 75 => 110
    case 100 => 120
    case _ => 100
  }

  /** String resources naming each size. */
  datatype TimeSizeName = TimeSize0 | TimeSize25 | TimeSize50 | TimeSize75 | TimeSize100

  /** `timeSizeToHumanReadableString`: unknown sizes read as size 50. */
  function ReadableName(timeSize: int): (r: TimeSizeName)
    ensures !IsKnownTimeSize(timeSize) ==> r == TimeSize50
  {
    match timeSize
    case 0 => TimeSize0
    case 25 => TimeSize25
    case 50 => TimeSize50
    case 75 => TimeSize75
    case 100 => TimeSize100
    case _ => TimeSize50
  }

  /**
   * Each known size s scales by 80 + s * 2 / 5 percent, so the scale grows
   * strictly with the size; the default size is scale 1, and anything
   * unknown is treated like the default.
   */
  lemma ScaleTable(s: int)
    ensures IsKnownTimeSize(s) ==> ScalePercent(s) * 5 == 400 + 2 * s
    ensures !IsKnownTimeSize(s) ==> ScalePercent(s) == ScalePercent(DefaultTimeSize) == 100
  {
  }

  lemma ScaleStrictlyIncreasing(s: int, t: int)
    requires IsKnownTimeSize(s) && IsKnownTimeSize(t) && s < t
    ensures ScalePercent(s) < ScalePercent(t)
  {
    ScaleTable(s);
    ScaleTable(t);
  }

  /** The name lookup distinguishes exactly the known sizes; every other size shares size 50's name. */
  lemma ReadableNameTable(s: int, t: int)
    ensures !IsKnownTimeSize(s) ==> ReadableName(s) == ReadableName(DefaultTimeSize)
    ensures IsKnownTimeSize(s) && IsKnownTimeSize(t) ==> (ReadableName(s) == ReadableName(t) <==> s == t)
  {
  }
}
