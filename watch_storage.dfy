// The watch face's settings store: a SharedPreferences file behind a
// write-through cache.  Cached getters read the file once and then serve the
// cached value; setters update the cache and the file together.  Complication
// colours are stored one int per slot, with a sentinel for "the default".
module WatchStorage {
  import opened Base
  import opened ComplicationColors
  import opened ComplicationColorsProvider
  import TimeSizeHelper

  /** The boolean preferences. */
  datatype BoolSetting =
    | UserPremium | Use24hTimeFormat | RatingNotificationSent | ShowWearOSLogo
    | ShowComplicationsAmbient | FilledTimeAmbient | SecondsRing | ShowWeather
    | ShowBattery | ShowPhoneBattery | FeatureDrop2021Notification
    | UseShortDateFormat | ShowDateAmbient

  /** The int preferences other than the complication colours. */
  datatype IntSetting = TimeSize | AppVersion | TimeAndDateColor | BatteryColor

  /** The int preferences holding complication colours: one shared legacy key and one per slot. */
  datatype ColorKey = BaseColorKey | LeftColorKey | MiddleColorKey | RightColorKey | BottomColorKey

  function BoolKeyName(s: BoolSetting): string {
    match s
    case UserPremium => "user_premium"
    case Use24hTimeFormat => "use24hTimeFormat"
    case RatingNotificationSent => "ratingNotificationSent"
    case ShowWearOSLogo => "showWearOSLogo"
    case ShowComplicationsAmbient => "showComplicationsAmbient"
    case FilledTimeAmbient => "filledTimeAmbient"
    case SecondsRing => "secondsRing"
    case ShowWeather => "showWeather"
    case ShowBattery => "showBattery"
    case ShowPhoneBattery => "showPhoneBattery"
    case FeatureDrop2021Notification => "featureDrop2021Notification_2"
    case UseShortDateFormat => "useShortDateFormat"
    case ShowDateAmbient => "showDateAmbient"
  }

  function IntKeyName(s: IntSetting): string {
    match s
    case TimeSize => "timeSize"
    case AppVersion => "appVersion"
    case TimeAndDateColor => "timeAndDateColor"
    case BatteryColor => "batteryColor"
  }

  function ColorKeyName(k: ColorKey): string {
    match k
    case BaseColorKey => "complicationColors"
    case LeftColorKey => "leftComplicationColor"
    case MiddleColorKey => "middleComplicationColor"
    case RightColorKey => "rightComplicationColor"
    case BottomColorKey => "bottomComplicationColor"
  }

  const InstallTimestampKeyName: string := "installTS"

  /** Every preference key of the file. */
  datatype PrefKey = BoolKey(b: BoolSetting) | IntKey(i: IntSetting) | ColorPrefKey(c: ColorKey) | InstallTimestampKey

  function KeyName(k: PrefKey): string {
    match k
    case BoolKey(b) => BoolKeyName(b)
    case IntKey(i) => IntKeyName(i)
    case ColorPrefKey(c) => ColorKeyName(c)
    case InstallTimestampKey => InstallTimestampKeyName
  }

  /** No two preferences share a key name, so keeping the file as maps keyed by setting loses nothing. */
  lemma KeyNamesDistinct(a: PrefKey, b: PrefKey)
    requires a != b
    ensures KeyName(a) != KeyName(b)
  {
  }

  /** What `getBoolean(key, default)` falls back to for each boolean. */
  function BoolDefault(s: BoolSetting): bool {
    s == Use24hTimeFormat || s == ShowWearOSLogo || s == ShowDateAmbient
  }

  /** Whether the getter keeps the value in a cache field (three settings are read from the file every time). */
  predicate BoolIsCached(s: BoolSetting) {
    s != RatingNotificationSent && s != FilledTimeAmbient && s != FeatureDrop2021Notification
  }

  const DefaultAppVersion: int := -1

  /** The colour resources the store falls back to. */
  datatype Resources = Resources(defaultColors: DefaultColorResources, white: int)

  /** What `getInt(key, default)` falls back to for each int. */
  function IntDefault(s: IntSetting, res: Resources): int {
    match s
    case TimeSize => TimeSizeHelper.DefaultTimeSize
    case AppVersion => DefaultAppVersion
    case TimeAndDateColor => res.white
    case BatteryColor => res.white
  }

  /** The app version is the one int read from the file every time. */
  predicate IntIsCached(s: IntSetting) {
    s != AppVersion
  }

  /** The value a read of the file yields: the stored value, or the default when the key is absent. */
  function StoredBool(bools: map<BoolSetting, bool>, s: BoolSetting): bool {
    if s in bools then bools[s] else BoolDefault(s)
  }

  function StoredInt(ints: map<IntSetting, int>, s: IntSetting, res: Resources): int {
    if s in ints then ints[s] else IntDefault(s, res)
  }

  /** The unset defaults: true for 24-hour time, the Wear OS logo and the date in ambient; 50 for the time size; -1 for the app version; false otherwise. */
  lemma UnsetDefaults(s: BoolSetting, res: Resources)
    ensures StoredBool(map[], s) <==> s in {Use24hTimeFormat, ShowWearOSLogo, ShowDateAmbient}
    ensures StoredInt(map[], TimeSize, res) == 50
    ensures StoredInt(map[], AppVersion, res) == -1
  {
  }

  /** The PorterDuff filter built from a colour, represented by the colour it tints with. */
  datatype ColorFilter = SrcIn(color: int)

  // ---------------------------------------------------------------------------
  // Complication colours in the file

  /** A slot whose colour is the default is stored as this value. */
  const DefaultComplicationColor: int := -147282

  /** What `setComplicationColors` writes for one slot. */
  function EncodeSlot(c: ComplicationColor): (v: int)
    ensures v == DefaultComplicationColor <==> c.isDefault || c.color == DefaultComplicationColor
  {
    if c.isDefault then DefaultComplicationColor else c.color
  }

  /** How `getComplicationColors` reads one slot back: the sentinel means the slot's default colour. */
  function DecodeSlot(v: int, defaultColor: ComplicationColor): (c: ComplicationColor)
    ensures v == DefaultComplicationColor ==> c == defaultColor
    ensures v != DefaultComplicationColor ==> c.color == v && !c.isDefault && c.colorLabel == LabelForColor(v)
  {
    if v == DefaultComplicationColor then defaultColor else ComplicationColor(v, LabelForColor(v), false)
  }

  /** The int stored for a slot, falling back to the legacy shared key, then to the sentinel. */
  function StoredSlot(colors: map<ColorKey, int>, k: ColorKey): (v: int)
    ensures k in colors ==> v == colors[k]
    ensures k !in colors && BaseColorKey in colors ==> v == colors[BaseColorKey]
    ensures k !in colors && BaseColorKey !in colors ==> v == DefaultComplicationColor
  {
    if k in colors then colors[k]
    else if BaseColorKey in colors then colors[BaseColorKey]
    else DefaultComplicationColor
  }

  /** The four colours the file describes. */
  function DecodeColors(colors: map<ColorKey, int>, res: Resources): ComplicationColors {
    var d := DefaultComplicationColors(res.defaultColors);
    ComplicationColors(
      DecodeSlot(StoredSlot(colors, LeftColorKey), d.leftColor),
      DecodeSlot(StoredSlot(colors, MiddleColorKey), d.middleColor),
      DecodeSlot(StoredSlot(colors, RightColorKey), d.rightColor),
      DecodeSlot(StoredSlot(colors, BottomColorKey), d.bottomColor))
  }

  /** The file after `setComplicationColors(c)`: the four slot keys overwritten, the legacy key left alone. */
  function EncodeColors(colors: map<ColorKey, int>, c: ComplicationColors): map<ColorKey, int> {
    colors[LeftColorKey := EncodeSlot(c.leftColor)]
          [MiddleColorKey := EncodeSlot(c.middleColor)]
          [RightColorKey := EncodeSlot(c.rightColor)]
          [BottomColorKey := EncodeSlot(c.bottomColor)]
  }

  /**
   * A slot the file can describe exactly: either the slot's default colour,
   * or a colour other than the sentinel carrying the label the lookup gives it.
   */
  predicate CanonicalSlot(c: ComplicationColor, defaultColor: ComplicationColor) {
    if c.isDefault then c == defaultColor
    else c.color != DefaultComplicationColor && c.colorLabel == LabelForColor(c.color)
  }

  predicate Canonical(c: ComplicationColors, res: Resources) {
    var d := DefaultComplicationColors(res.defaultColors);
    CanonicalSlot(c.leftColor, d.leftColor) && CanonicalSlot(c.middleColor, d.middleColor)
    && CanonicalSlot(c.rightColor, d.rightColor) && CanonicalSlot(c.bottomColor, d.bottomColor)
  }

  lemma {:induction false} SlotRoundTrip(c: ComplicationColor, defaultColor: ComplicationColor)
    requires defaultColor.isDefault
    ensures DecodeSlot(EncodeSlot(c), defaultColor) == c <==> CanonicalSlot(c, defaultColor)
  {
  }

  /**
   * What the file says once colours are set: exactly `c` when `c` is
   * canonical, whatever was stored before; and the file never describes
   * anything but canonical colours.
   */
  lemma {:induction false} ColorsRoundTrip(colors: map<ColorKey, int>, c: ComplicationColors, res: Resources)
    ensures DecodeColors(EncodeColors(colors, c), res) == c <==> Canonical(c, res)
    ensures Canonical(DecodeColors(colors, res), res)
  {
    var d := DefaultComplicationColors(res.defaultColors);
    var e := EncodeColors(colors, c);
    assert StoredSlot(e, LeftColorKey) == EncodeSlot(c.leftColor);
    assert StoredSlot(e, MiddleColorKey) == EncodeSlot(c.middleColor);
    assert StoredSlot(e, RightColorKey) == EncodeSlot(c.rightColor);
    assert StoredSlot(e, BottomColorKey) == EncodeSlot(c.bottomColor);
    SlotRoundTrip(c.leftColor, d.leftColor);
    SlotRoundTrip(c.middleColor, d.middleColor);
    SlotRoundTrip(c.rightColor, d.rightColor);
    SlotRoundTrip(c.bottomColor, d.bottomColor);
  }

  /** Every colour of the picker's palette can be stored: none of them is the sentinel. */
  lemma SentinelNotInPalette()
    ensures !InPalette(DefaultComplicationColor)
  {
    DefaultLabelIffNotInPalette(DefaultComplicationColor);
  }

  // ---------------------------------------------------------------------------
  // The store

  class StorageImpl {
    var initialized: bool
    /** The colour resources of the application context. */
    var res: Resources

    /** The SharedPreferences file, one map per value type; an absent key is an unset preference. */
    var bools: map<BoolSetting, bool>
    var ints: map<IntSetting, int>
    var colors: map<ColorKey, int>
    var installTimestamp: Option<int>

    /** The cache fields: a setting is in the map once its `xxxCached` flag is set. */
    var boolCache: map<BoolSetting, bool>
    var intCache: map<IntSetting, int>
    var colorsCache: Option<ComplicationColors>

    /** How many times a getter has looked a preference up in the file. */
    var fileReads: nat

    /** Each cached value is what the file holds, and only cached settings are in the cache. */
    predicate Valid()
      reads this
    {
      (forall s | s in boolCache :: BoolIsCached(s) && boolCache[s] == StoredBool(bools, s))
      && (forall s | s in intCache :: IntIsCached(s) && intCache[s] == StoredInt(ints, s, res))
    }

    /** A store over an existing preferences file; nothing is cached yet. */
    constructor (res: Resources, bools: map<BoolSetting, bool>, ints: map<IntSetting, int>,
                 colors: map<ColorKey, int>, installTimestamp: Option<int>)
      ensures Valid() && !initialized && this.res == res
      ensures this.bools == bools && this.ints == ints && this.colors == colors
      ensures this.installTimestamp == installTimestamp
      ensures boolCache == map[] && intCache == map[] && colorsCache == None && fileReads == 0
    {
      initialized := false;
      this.res := res;
      this.bools := bools;
      this.ints := ints;
      this.colors := colors;
      this.installTimestamp := installTimestamp;
      boolCache := map[];
      intCache := map[];
      colorsCache := None;
      fileReads := 0;
    }

    /** `getInstallTimestamp`: -1 when never written. */
    function InstallTimestamp(): (t: int)
      reads this
      ensures installTimestamp.None? ==> t == -1
      ensures installTimestamp.Some? ==> t == installTimestamp.value
    {
      match installTimestamp
      case None => -1
      case Some(t) => t
    }

    /** `init`: the first call records `now` as install time unless a non-negative one is stored; later calls do nothing. */
    method Init(now: int)
      requires Valid()
      modifies this
      ensures Valid() && initialized
      ensures old(initialized) ==> unchanged(this)
      ensures !old(initialized) && old(InstallTimestamp()) < 0 ==> installTimestamp == Some(now)
      ensures !old(initialized) && old(InstallTimestamp()) >= 0 ==> installTimestamp == old(installTimestamp)
      ensures bools == old(bools) && ints == old(ints) && colors == old(colors) && res == old(res)
      ensures boolCache == old(boolCache) && intCache == old(intCache) && colorsCache == old(colorsCache)
      ensures fileReads == old(fileReads) + (if old(initialized) then 0 else 1)
    {
      if !initialized {
        fileReads := fileReads + 1;
        if InstallTimestamp() < 0 {
          installTimestamp := Some(now);
        }
        initialized := true;
      }
    }

    /** A boolean getter: the stored value or its default, from the cache when the setting is cached. */
    method GetBool(s: BoolSetting) returns (v: bool)
      requires Valid() && initialized
      modifies this
      ensures Valid()
      ensures v == StoredBool(bools, s)
      ensures BoolIsCached(s) ==> boolCache == old(boolCache)[s := v]
      ensures !BoolIsCached(s) ==> boolCache == old(boolCache)
      ensures fileReads == old(fileReads) + (if s in old(boolCache) then 0 else 1)
      ensures bools == old(bools) && ints == old(ints) && colors == old(colors)
      ensures installTimestamp == old(installTimestamp) && res == old(res) && initialized == old(initialized)
      ensures intCache == old(intCache) && colorsCache == old(colorsCache)
    {
      if s in boolCache {
        v := boolCache[s];
      } else {
        v := StoredBool(bools, s);
        fileReads := fileReads + 1;
        if BoolIsCached(s) {
          boolCache := boolCache[s := v];
        }
      }
    }

    /** A boolean setter: writes the file and, for a cached setting, the cache. */
    method SetBool(s: BoolSetting, v: bool)
      requires Valid() && initialized
      requires s != FeatureDrop2021Notification
      modifies this
      ensures Valid()
      ensures bools == old(bools)[s := v]
      ensures BoolIsCached(s) ==> boolCache == old(boolCache)[s := v]
      ensures !BoolIsCached(s) ==> boolCache == old(boolCache)
      ensures ints == old(ints) && colors == old(colors) && installTimestamp == old(installTimestamp)
      ensures res == old(res) && initialized == old(initialized) && fileReads == old(fileReads)
      ensures intCache == old(intCache) && colorsCache == old(colorsCache)
    {
      if BoolIsCached(s) {
        boolCache := boolCache[s := v];
      }
      bools := bools[s := v];
    }

    /** `setFeatureDrop2021NotificationShown`: the flag can only be set, never cleared. */
    method SetFeatureDrop2021NotificationShown()
      requires Valid() && initialized
      modifies this
      ensures Valid()
      ensures bools == old(bools)[FeatureDrop2021Notification := true]
      ensures StoredBool(bools, FeatureDrop2021Notification)
      ensures ints == old(ints) && colors == old(colors) && installTimestamp == old(installTimestamp)
      ensures res == old(res) && initialized == old(initialized) && fileReads == old(fileReads)
      ensures boolCache == old(boolCache) && intCache == old(intCache) && colorsCache == old(colorsCache)
    {
      bools := bools[FeatureDrop2021Notification := true];
    }

    /** An int getter: the stored value or its default, from the cache when the setting is cached. */
    method GetInt(s: IntSetting) returns (v: int)
      requires Valid() && initialized
      modifies this
      ensures Valid()
      ensures v == StoredInt(ints, s, res)
      ensures IntIsCached(s) ==> intCache == old(intCache)[s := v]
      ensures !IntIsCached(s) ==> intCache == old(intCache)
      ensures fileReads == old(fileReads) + (if s in old(intCache) then 0 else 1)
      ensures bools == old(bools) && ints == old(ints) && colors == old(colors)
      ensures installTimestamp == old(installTimestamp) && res == old(res) && initialized == old(initialized)
      ensures boolCache == old(boolCache) && colorsCache == old(colorsCache)
    {
      if s in intCache {
        v := intCache[s];
      } else {
        v := StoredInt(ints, s, res);
        fileReads := fileReads + 1;
        if IntIsCached(s) {
          intCache := intCache[s := v];
        }
      }
    }

    /** `getTimeAndDateColorFilter` / `getBatteryIndicatorColorFilter`: the filter of the colour getter's value. */
    method GetColorFilter(s: IntSetting) returns (f: ColorFilter)
      requires Valid() && initialized
      requires s == TimeAndDateColor || s == BatteryColor
      modifies this
      ensures Valid()
      ensures f == SrcIn(StoredInt(ints, s, res))
      ensures intCache == old(intCache)[s := f.color]
      ensures fileReads == old(fileReads) + (if s in old(intCache) then 0 else 1)
      ensures bools == old(bools) && ints == old(ints) && colors == old(colors)
      ensures installTimestamp == old(installTimestamp) && res == old(res) && initialized == old(initialized)
      ensures boolCache == old(boolCache) && colorsCache == old(colorsCache)
    {
      var c := GetInt(s);
      f := SrcIn(c);
    }

    /** An int setter: writes the file and, for a cached setting, the cache. */
    method SetInt(s: IntSetting, v: int)
      requires Valid() && initialized
      modifies this
      ensures Valid()
      ensures ints == old(ints)[s := v]
      ensures IntIsCached(s) ==> intCache == old(intCache)[s := v]
      ensures !IntIsCached(s) ==> intCache == old(intCache)
      ensures bools == old(bools) && colors == old(colors) && installTimestamp == old(installTimestamp)
      ensures res == old(res) && initialized == old(initialized) && fileReads == old(fileReads)
      ensures boolCache == old(boolCache) && colorsCache == old(colorsCache)
    {
      if IntIsCached(s) {
        intCache := intCache[s := v];
      }
      ints := ints[s := v];
    }

    /** `getComplicationColors`: the cached colours, or else the colours the file describes, which are then cached. */
    method GetComplicationColors() returns (c: ComplicationColors)
      requires Valid() && initialized
      modifies this
      ensures Valid()
      ensures old(colorsCache).Some? ==> c == old(colorsCache).value && fileReads == old(fileReads)
      ensures old(colorsCache).None? ==> c == DecodeColors(colors, res) && fileReads == old(fileReads) + 1
      ensures colorsCache == Some(c)
      ensures bools == old(bools) && ints == old(ints) && colors == old(colors)
      ensures installTimestamp == old(installTimestamp) && res == old(res) && initialized == old(initialized)
      ensures boolCache == old(boolCache) && intCache == old(intCache)
    {
      if colorsCache.Some? {
        c := colorsCache.value;
      } else {
        c := DecodeColors(colors, res);
        fileReads := fileReads + 1;
        colorsCache := Some(c);
      }
    }

    /** `setComplicationColors`: caches `c` as given and writes each slot, the sentinel for a default one. */
    method SetComplicationColors(c: ComplicationColors)
      requires Valid() && initialized
      modifies this
      ensures Valid()
      ensures colorsCache == Some(c)
      ensures colors == EncodeColors(old(colors), c)
      ensures bools == old(bools) && ints == old(ints) && installTimestamp == old(installTimestamp)
      ensures res == old(res) && initialized == old(initialized) && fileReads == old(fileReads)
      ensures boolCache == old(boolCache) && intCache == old(intCache)
    {
      colorsCache := Some(c);
      colors := EncodeColors(colors, c);
    }
  }

  /**
   * Setting a value and reading it back yields that value, and leaves every
   * other setting as it was.
   */
  lemma SetThenGet(bools: map<BoolSetting, bool>, ints: map<IntSetting, int>, res: Resources,
                   s: BoolSetting, b: bool, t: IntSetting, i: int)
    ensures StoredBool(bools[s := b], s) == b
    ensures forall s' :: s' != s ==> StoredBool(bools[s := b], s') == StoredBool(bools, s')
    ensures StoredInt(ints[t := i], t, res) == i
    ensures forall t' :: t' != t ==> StoredInt(ints[t := i], t', res) == StoredInt(ints, t', res)
  {
  }
}
