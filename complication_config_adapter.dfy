// The settings screen of the watch face: which rows it lists for a given
// user and device, how a row's view type selects its holder, the time-size
// slider's snapping, the inverted filled-time switch, and the complication
// location that travels to the widget screen in a Parcel.
module ComplicationConfigAdapter {
  import opened Base
  import opened Parcels
  import opened WatchStorage
  import TimeSizeHelper

  // ---------------------------------------------------------------------------
  // Rows and view types

  /** The kinds of row, one per `TYPE_` constant. */
  datatype ViewType =
    | TypeHeader | TypePreviewAndComplicationsConfig | TypeFooter | TypeBecomePremium
    | TypeHourFormat | TypeSendFeedback | TypeShowWearOSLogo | TypeShowComplicationsAmbient
    | TypeShowFilledTimeAmbient | TypeTimeSize | TypeShowSecondsRing | TypeShowWeather
    | TypeShowBattery | TypeDateFormat | TypeShowDateAmbient

  /** The int each `TYPE_` constant stands for (2 is unused). */
  function ViewTypeCode(t: ViewType): int {
    match t
    case TypeHeader => 0
    case TypePreviewAndComplicationsConfig => 1
    case TypeFooter => 3
    case TypeBecomePremium => 4
    case TypeHourFormat => 5
    case TypeSendFeedback => 6
    case TypeShowWearOSLogo => 7
    case TypeShowComplicationsAmbient => 8
    case TypeShowFilledTimeAmbient => 9
    case TypeTimeSize => 10
    case TypeShowSecondsRing => 11
    case TypeShowWeather => 12
    case TypeShowBattery => 13
    case TypeDateFormat => 14
    case TypeShowDateAmbient => 15
  }

  datatype UnknownViewType = UnknownViewType(viewType: int)

  /** `onCreateViewHolder`: the holder kind for a view type, and an error for any other int. */
  function CreateViewHolder(viewType: int): (r: Result<ViewType, UnknownViewType>)
    ensures r.Ok? <==> 0 <= viewType <= 15 && viewType != 2
    ensures r.Ok? ==> ViewTypeCode(r.value) == viewType
    ensures r.Err? ==> r.error == UnknownViewType(viewType)
  {
    match viewType
    case 0 => Ok(TypeHeader)
    case 1 => Ok(TypePreviewAndComplicationsConfig)
    case 3 => Ok(TypeFooter)
    case 4 => Ok(TypeBecomePremium)
    case 5 => Ok(TypeHourFormat)
    case 6 => Ok(TypeSendFeedback)
    case 7 => Ok(TypeShowWearOSLogo)
    case 8 => Ok(TypeShowComplicationsAmbient)
    case 9 => Ok(TypeShowFilledTimeAmbient)
    case 10 => Ok(TypeTimeSize)
    case 11 => Ok(TypeShowSecondsRing)
    case 12 => Ok(TypeShowWeather)
    case 13 => Ok(TypeShowBattery)
    case 14 => Ok(TypeDateFormat)
    case 15 => Ok(TypeShowDateAmbient)
    case _ => Err(UnknownViewType(viewType))
  }

  /** Every row kind's view type creates a holder of that kind; the codes are therefore distinct. */
  lemma HolderForEveryViewType(t: ViewType, u: ViewType)
    ensures CreateViewHolder(ViewTypeCode(t)) == Ok(t)
    ensures ViewTypeCode(t) == ViewTypeCode(u) ==> t == u
  {
  }

  /**
   * Whether a row kind is listed: the preview, battery and ambient-complication
   * rows for a premium user only (weather also needs the weather service), the
   * premium offer for everyone else, the seconds ring on round screens only,
   * and every other row always.
   */
  predicate Listed(t: ViewType, premium: bool, isScreenRound: bool, weatherServiceAvailable: bool) {
    match t
    case TypePreviewAndComplicationsConfig => premium
    case TypeShowBattery => premium
    case TypeShowComplicationsAmbient => premium
    case TypeShowWeather => premium && weatherServiceAvailable
    case TypeBecomePremium => !premium
    case TypeShowSecondsRing => isScreenRound
    case _ => true
  }

  predicate NoDuplicates<T(==)>(s: seq<T>) {
    forall i, j :: 0 <= i < j < |s| ==> s[i] != s[j]
  }

  /** `generateSettingsList`, adding the rows one after the other. */
  method GenerateSettingsList(isUserPremium: bool, isScreenRound: bool, weatherServiceAvailable: bool)
    returns (list: seq<ViewType>)
    ensures |list| >= 3 && list[0] == TypeHeader && list[|list| - 2..] == [TypeSendFeedback, TypeFooter]
    ensures forall t :: t in list <==> Listed(t, isUserPremium, isScreenRound, weatherServiceAvailable)
    ensures NoDuplicates(list)
    ensures 10 <= |list| <= 14
  {
    var head := [TypeHeader];
    if isUserPremium {
      head := head + [TypePreviewAndComplicationsConfig];
      if weatherServiceAvailable {
        head := head + [TypeShowWeather];
      }
    } else {
      head := head + [TypeBecomePremium];
    }
    head := head + [TypeShowWearOSLogo];
    if isUserPremium {
      head := head + [TypeShowBattery];
      head := head + [TypeShowComplicationsAmbient];
    }
    var tail := [TypeHourFormat];
    tail := tail + [TypeDateFormat];
    tail := tail + [TypeShowDateAmbient];
    tail := tail + [TypeTimeSize];
    tail := tail + [TypeShowFilledTimeAmbient];
    if isScreenRound {
      tail := tail + [TypeShowSecondsRing];
    }
    tail := tail + [TypeSendFeedback];
    tail := tail + [TypeFooter];
    HeadAndTailDisjoint(head, tail, isUserPremium, weatherServiceAvailable, isScreenRound);
    list := head + tail;
  }

  /** The two halves `generateSettingsList` builds share no row, so the whole list has none twice. */
  lemma HeadAndTailDisjoint(head: seq<ViewType>, tail: seq<ViewType>, premium: bool, weather: bool, round: bool)
    requires head == [TypeHeader] + (if premium then [TypePreviewAndComplicationsConfig] + (if weather then [TypeShowWeather] else [])
                                     else [TypeBecomePremium])
                     + [TypeShowWearOSLogo] + (if premium then [TypeShowBattery, TypeShowComplicationsAmbient] else [])
    requires tail == [TypeHourFormat, TypeDateFormat, TypeShowDateAmbient, TypeTimeSize, TypeShowFilledTimeAmbient]
                     + (if round then [TypeShowSecondsRing] else []) + [TypeSendFeedback, TypeFooter]
    ensures NoDuplicates(head + tail)
    ensures forall t :: t in head + tail <==> Listed(t, premium, round, weather)
    ensures 10 <= |head + tail| <= 14
  {
    var list := head + tail;
    forall i, j | 0 <= i < j < |list|
      ensures list[i] != list[j]
    {
      if j < |head| {
        HeadDistinct(head, premium, weather, i, j);
      } else if i >= |head| {
        TailDistinct(tail, round, i - |head|, j - |head|);
      } else {
        assert list[i] in head && list[j] in tail;
      }
    }
  }

  lemma HeadDistinct(head: seq<ViewType>, premium: bool, weather: bool, i: int, j: int)
    requires head == [TypeHeader] + (if premium then [TypePreviewAndComplicationsConfig] + (if weather then [TypeShowWeather] else [])
                                     else [TypeBecomePremium])
                     + [TypeShowWearOSLogo] + (if premium then [TypeShowBattery, TypeShowComplicationsAmbient] else [])
    requires 0 <= i < j < |head|
    ensures head[i] != head[j]
  {
  }

  lemma TailDistinct(tail: seq<ViewType>, round: bool, i: int, j: int)
    requires tail == [TypeHourFormat, TypeDateFormat, TypeShowDateAmbient, TypeTimeSize, TypeShowFilledTimeAmbient]
                     + (if round then [TypeShowSecondsRing] else []) + [TypeSendFeedback, TypeFooter]
    requires 0 <= i < j < |tail|
    ensures tail[i] != tail[j]
  {
  }

  // ---------------------------------------------------------------------------
  // The adapter

  class SettingsAdapter {
    /** `settings`: the rows, fixed when the adapter is created. */
    const settings: seq<ViewType>
    const isUserPremium: bool
    const isScreenRound: bool
    const weatherServiceAvailable: bool

    predicate Valid() {
      10 <= |settings| <= 14
      && (forall t :: t in settings <==> Listed(t, isUserPremium, isScreenRound, weatherServiceAvailable))
    }

    /** The adapter lists the rows for the stored premium flag and the device. */
    constructor (storage: StorageImpl, isScreenRound: bool, weatherServiceAvailable: bool)
      requires storage.Valid() && storage.initialized
      modifies storage
      ensures Valid()
      ensures isUserPremium == StoredBool(storage.bools, UserPremium)
      ensures this.isScreenRound == isScreenRound && this.weatherServiceAvailable == weatherServiceAvailable
      ensures storage.Valid() && storage.bools == old(storage.bools) && storage.ints == old(storage.ints)
    {
      var premium := storage.GetBool(UserPremium);
      var list := GenerateSettingsList(premium, isScreenRound, weatherServiceAvailable);
      settings := list;
      isUserPremium := premium;
      this.isScreenRound := isScreenRound;
      this.weatherServiceAvailable := weatherServiceAvailable;
    }

    /** `getItemViewType`: the view type of the row at `position`; a position outside the list has none. */
    function ItemViewType(position: int): (r: Option<int>)
      ensures r.Some? <==> 0 <= position < |settings|
      ensures r.Some? ==> CreateViewHolder(r.value) == Ok(settings[position])
    {
      if 0 <= position < |settings| then
        HolderForEveryViewType(settings[position], settings[position]);
        Some(ViewTypeCode(settings[position]))
      else None
    }

    /** `getItemCount`. */
    function ItemCount(): (n: int)
      requires Valid()
      ensures 10 <= n <= 14
      ensures forall p :: ItemViewType(p).Some? <==> 0 <= p < n
    {
      |settings|
    }
  }

  // ---------------------------------------------------------------------------
  // Row behaviours

  const StepSize: int := 25

  /** The slider snaps its progress down (toward zero) to a multiple of 25 with the JVM's integer division. */
  function SnapTimeSize(progress: int): (r: int)
    ensures r % StepSize == 0
    ensures progress >= 0 ==> 0 <= r <= progress < r + StepSize
    ensures progress < 0 ==> r - StepSize < progress <= r <= 0
  {
    TruncDiv(progress, StepSize) * StepSize
  }

  /** A snapped value snaps to itself. */
  lemma SnapIdempotent(progress: int)
    ensures SnapTimeSize(SnapTimeSize(progress)) == SnapTimeSize(progress)
  {
    var r := SnapTimeSize(progress);
    assert r == (r / StepSize) * StepSize;
  }

  /** Over the slider's range 0..100 every snapped value is one of the five time sizes. */
  lemma SnapGivesKnownSize(progress: int)
    requires 0 <= progress <= 100
    ensures TimeSizeHelper.IsKnownTimeSize(SnapTimeSize(progress))
  {
  }

  /** The filled-time switch shows the opposite of the stored "filled time in ambient" flag. */
  function FilledTimeSwitchChecked(storedFilled: bool): (checked: bool)
    ensures checked != storedFilled
  {
    !storedFilled
  }

  /** ... and reports the opposite of its checked state as the new flag. */
  function FilledTimeReported(checked: bool): (filled: bool)
    ensures filled != checked
  {
    !checked
  }

  /** Displaying a flag and reading the switch back gives the flag; flipping the switch flips the flag. */
  lemma FilledTimeInversion(storedFilled: bool)
    ensures FilledTimeReported(FilledTimeSwitchChecked(storedFilled)) == storedFilled
    ensures FilledTimeReported(!FilledTimeSwitchChecked(storedFilled)) == !storedFilled
  {
  }

  // ---------------------------------------------------------------------------
  // ComplicationLocation in a Parcel

  datatype ComplicationLocation = Left | Middle | Right | Bottom

  /** The enum's declaration order. */
  function Ordinal(loc: ComplicationLocation): (i: int)
    ensures 0 <= i < 4
  {
    match loc
    case Left => 0
    case Middle => 1
    case Right => 2
    case Bottom => 3
  }

  /** `values()[i]`: no location for an index outside the enum. */
  function LocationAt(i: int): (r: Option<ComplicationLocation>)
    ensures r.Some? <==> 0 <= i < 4
    ensures r.Some? ==> Ordinal(r.value) == i
  {
    match i
    case 0 => Some(Left)
    case 1 => Some(Middle)
    case 2 => Some(Right)
    case 3 => Some(Bottom)
    case _ => None
  }

  /** `writeToParcel`: the ordinal as one int. */
  method WriteLocation(loc: ComplicationLocation, parcel: Parcel)
    modifies parcel
    ensures parcel.data == old(parcel.data) + [IntValue(Ordinal(loc))]
    ensures parcel.position == old(parcel.position)
  {
    parcel.WriteInt(Ordinal(loc));
  }

  /** `createFromParcel`: the location whose ordinal is the next int; None where the source's array index throws. */
  method CreateLocationFromParcel(parcel: Parcel) returns (r: Option<ComplicationLocation>)
    modifies parcel
    ensures r == LocationAt(IntAt(old(parcel.data), old(parcel.position)))
    ensures parcel.data == old(parcel.data) && parcel.position == Advance(parcel.data, old(parcel.position))
  {
    var i := parcel.ReadInt();
    r := LocationAt(i);
  }

  /** Reading the int a location wrote, wherever it sits, yields the location. */
  lemma LocationReadWritten(before: seq<ParcelValue>, loc: ComplicationLocation, after: seq<ParcelValue>)
    ensures LocationAt(IntAt(before + [IntValue(Ordinal(loc))] + after, |before|)) == Some(loc)
  {
    assert (before + [IntValue(Ordinal(loc))] + after)[|before|] == IntValue(Ordinal(loc));
  }

  /** A location sent through a fresh parcel arrives unchanged. */
  method LocationParcelRoundTrip(loc: ComplicationLocation) returns (r: Option<ComplicationLocation>)
    ensures r == Some(loc)
  {
    var parcel := new Parcel();
    WriteLocation(loc, parcel);
    LocationReadWritten([], loc, []);
    assert parcel.data == [] + [IntValue(Ordinal(loc))] + [];
    r := CreateLocationFromParcel(parcel);
  }
}
