// The decisions the watch-face renderer makes around its drawing calls:
// which battery icon and label to draw, which complication slots to draw,
// the text style of a complication, when the layout cache is rebuilt, and
// whether a tap lands on the weather. Canvas calls, paints and the
// floating-point layout geometry are not modelled; where a piece of that
// geometry is needed it is a parameter.
module WatchFaceDrawer {
  import opened Base
  import opened ComplicationColors
  import opened WatchStorage

  /**
   * Complication ids: the four configurable slots, and any other id (the
   * weather and battery complications). The ids are distinct int constants
   * of the watch-face service.
   */
  datatype ComplicationId = LeftId | MiddleId | RightId | BottomId | OtherId(n: int)

  // ---------------------------------------------------------------------------
  // Battery icon

  datatype BatteryIcon = Battery10 | Battery20 | Battery40 | Battery50 | Battery60 | Battery80 | Battery100

  /** The charge each icon depicts. */
  function IconLevel(icon: BatteryIcon): nat {
    match icon
    case Battery10 => 10
    case Battery20 => 20
    case Battery40 => 40
    case Battery50 => 50
    case Battery60 => 60
    case Battery80 => 80
    case Battery100 => 100
  }

  /** The upper bound of each icon but the last, and the icons in increasing order. */
  const IconThresholds: seq<int> := [10, 25, 40, 50, 70, 90]
  const IconsByRank: seq<BatteryIcon> := [Battery10, Battery20, Battery40, Battery50, Battery60, Battery80, Battery100]

  /** `getBatteryIcon`: the first icon whose threshold the percentage does not exceed. */
  function BatteryIconFor(percent: int): (icon: BatteryIcon)
    ensures percent <= 10 ==> icon == Battery10
    ensures percent > 90 ==> icon == Battery100
  {
    if percent <= 10 then Battery10
    else if percent <= 25 then Battery20
    else if percent <= 40 then Battery40
    else if percent <= 50 then Battery50
    else if percent <= 70 then Battery60
    else if percent <= 90 then Battery80
    else Battery100
  }

  /** How many of the thresholds lie below `p`. */
  function CountBelow(thresholds: seq<int>, p: int): (n: nat)
    ensures n <= |thresholds|
  {
    if |thresholds| == 0 then 0
    else (if thresholds[0] < p then 1 else 0) + CountBelow(thresholds[1..], p)
  }

  /** A higher percentage exceeds at least as many thresholds. */
  lemma {:induction false} CountBelowMonotone(thresholds: seq<int>, p: int, q: int)
    requires p <= q
    ensures CountBelow(thresholds, p) <= CountBelow(thresholds, q)
    decreases |thresholds|
  {
    if |thresholds| > 0 {
      CountBelowMonotone(thresholds[1..], p, q);
    }
  }

  /** The icon drawn is the one ranked by the number of thresholds the percentage exceeds. */
  lemma IconIsRankOfPercent(p: int)
    ensures BatteryIconFor(p) == IconsByRank[CountBelow(IconThresholds, p)]
  {
    var t0: seq<int> := [];
    var t1 := [90] + t0;
    var t2 := [70] + t1;
    var t3 := [50] + t2;
    var t4 := [40] + t3;
    var t5 := [25] + t4;
    var t6 := [10] + t5;
    assert t1[1..] == t0 && t2[1..] == t1 && t3[1..] == t2 && t4[1..] == t3 && t5[1..] == t4 && t6[1..] == t5;
    assert t6 == IconThresholds;
    assert CountBelow(t0, p) == 0;
    assert CountBelow(t1, p) == (if 90 < p then 1 else 0);
    assert CountBelow(t2, p) == (if 70 < p then 1 else 0) + CountBelow(t1, p);
    assert CountBelow(t3, p) == (if 50 < p then 1 else 0) + CountBelow(t2, p);
    assert CountBelow(t4, p) == (if 40 < p then 1 else 0) + CountBelow(t3, p);
    assert CountBelow(t5, p) == (if 25 < p then 1 else 0) + CountBelow(t4, p);
    assert CountBelow(t6, p) == (if 10 < p then 1 else 0) + CountBelow(t5, p);
  }

  /** The icon never shows less charge for a higher percentage. */
  lemma BatteryIconMonotone(p: int, q: int)
    requires p <= q
    ensures IconLevel(BatteryIconFor(p)) <= IconLevel(BatteryIconFor(q))
  {
    IconIsRankOfPercent(p);
    IconIsRankOfPercent(q);
    CountBelowMonotone(IconThresholds, p, q);
  }

  // ---------------------------------------------------------------------------
  // Primary colour of a slot

  /** The colour slot an id draws with: its own slot for the four configurable ids, the right slot otherwise. */
  function SlotIndex(id: ComplicationId): (i: nat)
    ensures i < 4
  {
    match id
    case LeftId => 0
    case MiddleId => 1
    case BottomId => 3
    case _ => 2
  }

  /** `getComplicationPrimaryColor`. */
  function PrimaryColor(id: ComplicationId, colors: ComplicationColors): (c: ComplicationColor)
    ensures c == Slots(colors)[SlotIndex(id)]
  {
    match id
    case LeftId => colors.leftColor
    case MiddleId => colors.middleColor
    case BottomId => colors.bottomColor
    case _ => colors.rightColor
  }

  /** The four configurable ids draw with four different slots, and a slot change only affects its own id. */
  lemma PrimaryColorPerSlot(a: ComplicationId, b: ComplicationId, colors: ComplicationColors, c: ComplicationColor)
    requires !a.OtherId? && !b.OtherId? && a != b
    ensures SlotIndex(a) != SlotIndex(b)
    ensures PrimaryColor(b, colors) == PrimaryColor(b, colors.(leftColor := if a == LeftId then c else colors.leftColor,
                                                                middleColor := if a == MiddleId then c else colors.middleColor,
                                                                rightColor := if a == RightId then c else colors.rightColor,
                                                                bottomColor := if a == BottomId then c else colors.bottomColor))
  {
  }

  // ---------------------------------------------------------------------------
  // Battery text

  predicate IsDigit(c: char) {
    '0' <= c <= '9'
  }

  predicate AllDigits(s: string) {
    forall i :: 0 <= i < |s| ==> IsDigit(s[i])
  }

  /** `filter { it.isDigit() }`. */
  function Digits(s: string): (d: string)
    ensures AllDigits(d)
    ensures |d| <= |s|
    ensures forall c :: c in d <==> c in s && IsDigit(c)
    ensures |s| == 1 ==> d == (if IsDigit(s[0]) then s else [])
  {
    if |s| == 0 then []
    else (if IsDigit(s[0]) then [s[0]] else []) + Digits(s[1..])
  }

  /** Filtering distributes over concatenation. */
  lemma {:induction false} DigitsAppend(a: string, b: string)
    ensures Digits(a + b) == Digits(a) + Digits(b)
    decreases |a|
  {
    if |a| == 0 {
      assert a + b == b;
    } else {
      assert (a + b)[0] == a[0];
      assert (a + b)[1..] == a[1..] + b;
      DigitsAppend(a[1..], b);
    }
  }

  /** A string of digits is left as it is. */
  lemma {:induction false} DigitsOfDigits(d: string)
    requires AllDigits(d)
    ensures Digits(d) == d
    decreases |d|
  {
    if |d| > 0 {
      DigitsOfDigits(d[1..]);
    }
  }

  function DigitValue(c: char): int {
    c as int - '0' as int
  }

  /** The number a string of decimal digits denotes. */
  function DigitsValue(d: string): (v: int)
    requires AllDigits(d)
    ensures v >= 0
  {
    if |d| == 0 then 0
    else DigitsValue(d[..|d| - 1]) * 10 + DigitValue(d[|d| - 1])
  }

  /** `Integer.parseInt` on a string of digits: it fails on the empty string and above the largest Int. */
  function ParseInt(d: string): (r: Option<int>)
    requires AllDigits(d)
    ensures r.Some? <==> |d| > 0 && DigitsValue(d) <= IntMax
    ensures r.Some? ==> 0 <= r.value <= IntMax && r.value == DigitsValue(d)
  {
    if |d| == 0 || DigitsValue(d) > IntMax then None else Some(DigitsValue(d))
  }

  function DigitChar(n: int): (c: char)
    requires 0 <= n < 10
    ensures IsDigit(c) && DigitValue(c) == n
  {
    ('0' as int + n) as char
  }

  /** The decimal rendering of a natural number, as a string template prints it. */
  function Decimal(n: nat): (s: string)
    ensures |s| > 0 && AllDigits(s)
  {
    if n < 10 then [DigitChar(n)] else Decimal(n / 10) + [DigitChar(n % 10)]
  }

  /** Reading back a rendered number gives the number. */
  lemma {:induction false} DecimalRoundTrip(n: nat)
    ensures DigitsValue(Decimal(n)) == n
  {
    if n >= 10 {
      var s := Decimal(n);
      assert s[..|s| - 1] == Decimal(n / 10);
      DecimalRoundTrip(n / 10);
    }
  }

  /** What the drawer shows next to the battery icon, and the percentage it picks the icon with. */
  datatype BatteryReading = BatteryReading(text: string, percent: int)

  const NotAvailableLabel: string := "N/A"

  /** The battery text parse: its digits as a percentage and "p%", or "N/A" and 50 when the digits do not parse. */
  function ReadBattery(text: string): (r: BatteryReading)
    ensures 0 <= r.percent <= IntMax
    ensures ParseInt(Digits(text)).None? <==> r == BatteryReading(NotAvailableLabel, 50)
    ensures ParseInt(Digits(text)).Some? ==> r.percent == DigitsValue(Digits(text)) && r.text == Decimal(r.percent) + "%"
  {
    match ParseInt(Digits(text))
    case Some(p) =>
      var shown := Decimal(p) + "%";
      assert shown[|shown| - 1] != NotAvailableLabel[|NotAvailableLabel| - 1];
      BatteryReading(shown, p)
    case None => BatteryReading(NotAvailableLabel, 50)
  }

  /** Reading the label the drawer itself produced for p gives p and the same label back. */
  lemma ReadOwnLabel(p: int)
    requires 0 <= p <= IntMax
    ensures ReadBattery(Decimal(p) + "%") == BatteryReading(Decimal(p) + "%", p)
  {
    var d := Decimal(p);
    DigitsAppend(d, "%");
    assert "%"[1..] == [];
    assert Digits("%") == [];
    DigitsOfDigits(d);
    assert Digits(d + "%") == d;
    DecimalRoundTrip(p);
    assert ParseInt(d) == Some(p);
  }

  /** A text with no digit, or one whose digits overflow an Int, reads as "N/A" drawn with the half-charge icon. */
  lemma UnreadableText(text: string)
    requires |Digits(text)| == 0 || DigitsValue(Digits(text)) > IntMax
    ensures ReadBattery(text).text == NotAvailableLabel
    ensures BatteryIconFor(ReadBattery(text).percent) == Battery50
  {
  }

  /** `Char.isWhitespace` on the ASCII range. */
  predicate IsWhitespace(c: char) {
    c == ' ' || '\t' <= c <= '\r' || '\U{1C}' <= c <= '\U{1F}'
  }

  predicate IsBlank(s: string) {
    forall i :: 0 <= i < |s| ==> IsWhitespace(s[i])
  }

  /** What the drawer knows of a complication's data. */
  datatype Icon = Icon(id: int)
  datatype ComplicationData = ComplicationData(icon: Option<Icon>, hasShortTitle: bool, hasLongTitle: bool, shortText: Option<string>)

  datatype BatteryDisplay = BatteryDisplay(reading: BatteryReading, icon: BatteryIcon)

  /**
   * The battery indicator: drawn only for a premium user with the battery
   * setting on and a non-blank short text in the battery complication, with
   * the icon chosen by the percentage read from that text.
   */
  function BatteryIndicator(premium: bool, drawBattery: bool, data: Option<ComplicationData>): (r: Option<BatteryDisplay>)
    ensures r.Some? <==> premium && drawBattery && data.Some? && data.value.shortText.Some? && !IsBlank(data.value.shortText.value)
    ensures r.Some? ==> r.value.reading == ReadBattery(data.value.shortText.value)
    ensures r.Some? ==> r.value.icon == BatteryIconFor(r.value.reading.percent)
  {
    if premium && data.Some? && drawBattery && data.value.shortText.Some? && !IsBlank(data.value.shortText.value) then
      var reading := ReadBattery(data.value.shortText.value);
      Some(BatteryDisplay(reading, BatteryIconFor(reading.percent)))
    else None
  }

  // ---------------------------------------------------------------------------
  // Text style of a complication

  datatype TextColor = PrimaryColorOf(c: ComplicationColor) | TitleColor | DimmedDateColor
  datatype TextSize = TitleSize | NormalTextSize
  /** The active and ambient text colours, and the text size (the same in both modes). */
  datatype TextStyle = TextStyle(activeColor: TextColor, ambientColor: TextColor, size: TextSize)

  /** `onComplicationDataUpdate`: the text colours and size a complication is given. */
  function TextStyleFor(id: ComplicationId, data: Option<ComplicationData>, colors: ComplicationColors): (s: TextStyle)
    ensures s.size == TitleSize <==> id != BottomId && data.Some? && data.value.icon.Some? && !data.value.hasShortTitle
    ensures s.activeColor == TitleColor <==> data.Some? && data.value.icon.Some? && !(id == BottomId && data.value.hasLongTitle)
    ensures s.activeColor == TitleColor <==> s.ambientColor == TitleColor
    ensures s.activeColor != TitleColor ==> s.activeColor == PrimaryColorOf(PrimaryColor(id, colors)) && s.ambientColor == DimmedDateColor
  {
    var primary := PrimaryColorOf(PrimaryColor(id, colors));
    if data.Some? && data.value.icon.Some? then
      var colored := id == BottomId && data.value.hasLongTitle;
      TextStyle(
        if colored then primary else TitleColor,
        if colored then DimmedDateColor else TitleColor,
        if id != BottomId && !data.value.hasShortTitle then TitleSize else NormalTextSize)
    else
      TextStyle(primary, DimmedDateColor, NormalTextSize)
  }

  // ---------------------------------------------------------------------------
  // Drawing state and weather taps

  /** `android.graphics.Rect`. */
  datatype Rect = Rect(left: int, top: int, right: int, bottom: int)

  /** `Rect.contains(x, y)`: a non-empty rectangle, left and top edges inclusive. */
  predicate Contains(r: Rect, x: int, y: int) {
    r.left < r.right && r.top < r.bottom && r.left <= x < r.right && r.top <= y < r.bottom
  }

  datatype Bitmap = Bitmap(of: Icon)

  /**
   * `DrawingState`: no screen size yet, a screen size without layout cache,
   * or a built cache. Of the cache only the weather fields are kept; the
   * rest is floating-point geometry.
   */
  datatype DrawingState =
    | NoScreenData
    | NoCacheAvailable(screenWidth: int, screenHeight: int)
    | CacheAvailable(screenWidth: int, screenHeight: int, weatherIconRect: Rect,
                     currentWeatherIcon: Option<Icon>, currentWeatherBitmap: Option<Bitmap>,
                     weatherTextEndX: Option<int>)

  /** A freshly built cache: nothing about the weather is known yet. */
  function BuiltCache(screenWidth: int, screenHeight: int): DrawingState {
    CacheAvailable(screenWidth, screenHeight, Rect(0, 0, 0, 0), None, None, None)
  }

  /** `getWeatherDisplayRect`: the icon rectangle stretched to the end of the weather text, once all three are known. */
  function WeatherDisplayRect(s: DrawingState): (r: Option<Rect>)
    requires s.CacheAvailable?
    ensures r.None? <==> s.currentWeatherIcon.None? || s.currentWeatherBitmap.None? || s.weatherTextEndX.None?
    ensures r.Some? ==> r.value == s.weatherIconRect.(right := s.weatherTextEndX.value)
  {
    if s.currentWeatherIcon.None? || s.currentWeatherBitmap.None? || s.weatherTextEndX.None? then None
    else Some(s.weatherIconRect.(right := s.weatherTextEndX.value))
  }

  /** `tapIsOnWeather`: weather shown, user premium, cache built, a display rectangle, and the point inside it. */
  function TapOnWeather(showWeather: bool, premium: bool, s: DrawingState, x: int, y: int): (r: bool)
    ensures r <==> showWeather && premium && s.CacheAvailable? && WeatherDisplayRect(s).Some?
                   && Contains(WeatherDisplayRect(s).value, x, y)
  {
    if !showWeather || !premium || !s.CacheAvailable? then false
    else
      match WeatherDisplayRect(s)
      case None => false
      case Some(rect) => Contains(rect, x, y)
  }

  /** The integer geometry of the weather line, computed in floating point by the drawer. */
  datatype WeatherLayout = WeatherLayout(iconRect: Rect, textEndX: int)

  /** Whether a frame draws the weather: a premium user and weather data with both a text and an icon. */
  predicate DrawsWeather(premium: bool, weather: Option<ComplicationData>) {
    premium && weather.Some? && weather.value.shortText.Some? && weather.value.icon.Some?
  }

  /**
   * The weather fields after a frame: set to the drawn icon, its bitmap (the
   * cached one when the icon is unchanged) and the text end when the weather
   * is drawn, and all cleared otherwise.
   */
  function AfterWeatherDrawn(s: DrawingState, premium: bool, weather: Option<ComplicationData>, layout: WeatherLayout): (r: DrawingState)
    requires s.CacheAvailable?
    ensures r.CacheAvailable? && r.screenWidth == s.screenWidth && r.screenHeight == s.screenHeight
    ensures !DrawsWeather(premium, weather) ==> WeatherDisplayRect(r).None?
    ensures DrawsWeather(premium, weather) ==> WeatherDisplayRect(r) == Some(layout.iconRect.(right := layout.textEndX))
  {
    if DrawsWeather(premium, weather) then
      var icon := weather.value.icon.value;
      var reuse := s.currentWeatherIcon == Some(icon) && s.currentWeatherBitmap.Some?;
      s.(weatherIconRect := layout.iconRect,
         currentWeatherIcon := Some(icon),
         currentWeatherBitmap := if reuse then s.currentWeatherBitmap else Some(Bitmap(icon)),
         weatherTextEndX := Some(layout.textEndX))
    else
      s.(currentWeatherIcon := None, currentWeatherBitmap := None, weatherTextEndX := None)
  }

  /** A tap after a frame is on the weather only if that frame drew the weather, and only inside what it drew. */
  lemma TapOnlyOnDrawnWeather(s: DrawingState, premium: bool, weather: Option<ComplicationData>, layout: WeatherLayout,
                              showWeather: bool, premiumNow: bool, x: int, y: int)
    requires s.CacheAvailable?
    requires TapOnWeather(showWeather, premiumNow, AfterWeatherDrawn(s, premium, weather, layout), x, y)
    ensures DrawsWeather(premium, weather)
    ensures Contains(layout.iconRect.(right := layout.textEndX), x, y)
  {
  }

  /**
   * The cache choice at the start of `draw`: a screen without cache gets
   * one; a cache is rebuilt (losing its weather fields) only when it was
   * built for another time size than the stored one.
   */
  function CacheChosen(s: DrawingState, currentTimeSize: int, storedTimeSize: int): (r: DrawingState)
    ensures s.NoScreenData? <==> r.NoScreenData?
    ensures !s.NoScreenData? ==> r.CacheAvailable?
    ensures s.CacheAvailable? && currentTimeSize == storedTimeSize ==> r == s
  {
    match s
    case NoScreenData => s
    case NoCacheAvailable(w, h) => BuiltCache(w, h)
    case CacheAvailable(w, h, _, _, _, _) => if currentTimeSize != storedTimeSize then BuiltCache(w, h) else s
  }

  // ---------------------------------------------------------------------------
  // Which complications are drawn

  /** The per-slot skip rules: the middle slot gives way to the Wear OS logo, the bottom slot to the battery. */
  predicate Shown(id: ComplicationId, showWearOSLogo: bool, showBattery: bool) {
    !(id == MiddleId && showWearOSLogo) && !(id == BottomId && showBattery)
  }

  /** The ids of `ids` that are not skipped, in order. */
  function ShownOf(ids: seq<ComplicationId>, showWearOSLogo: bool, showBattery: bool): (r: seq<ComplicationId>)
    ensures |r| <= |ids|
  {
    if |ids| == 0 then []
    else
      var last := ids[|ids| - 1];
      ShownOf(ids[..|ids| - 1], showWearOSLogo, showBattery) + (if Shown(last, showWearOSLogo, showBattery) then [last] else [])
  }

  /** An id is drawn exactly when it has a drawable and is not skipped. */
  lemma {:induction false} ShownOfMembers(ids: seq<ComplicationId>, showWearOSLogo: bool, showBattery: bool, id: ComplicationId)
    ensures id in ShownOf(ids, showWearOSLogo, showBattery) <==> id in ids && Shown(id, showWearOSLogo, showBattery)
    decreases |ids|
  {
    if |ids| > 0 {
      var init := ids[..|ids| - 1];
      ShownOfMembers(init, showWearOSLogo, showBattery, id);
      assert ids == init + [ids[|ids| - 1]];
    }
  }

  /** `drawComplications`: nothing unless the user is premium and the watch is awake or shows complications in ambient mode. */
  function DrawnComplications(ids: seq<ComplicationId>, premium: bool, showInAmbient: bool, ambient: bool,
                              showWearOSLogo: bool, showBattery: bool): (r: seq<ComplicationId>)
    ensures !premium || (ambient && !showInAmbient) ==> r == []
  {
    if premium && (showInAmbient || !ambient) then ShownOf(ids, showWearOSLogo, showBattery) else []
  }

  /** The middle slot is never drawn under the logo, nor the bottom slot under the battery. */
  lemma SkippedSlotsNotDrawn(ids: seq<ComplicationId>, premium: bool, showInAmbient: bool, ambient: bool,
                             showWearOSLogo: bool, showBattery: bool)
    ensures showWearOSLogo ==> MiddleId !in DrawnComplications(ids, premium, showInAmbient, ambient, showWearOSLogo, showBattery)
    ensures showBattery ==> BottomId !in DrawnComplications(ids, premium, showInAmbient, ambient, showWearOSLogo, showBattery)
    ensures premium && !ambient && LeftId in ids ==> LeftId in DrawnComplications(ids, premium, showInAmbient, ambient, showWearOSLogo, showBattery)
  {
    ShownOfMembers(ids, showWearOSLogo, showBattery, MiddleId);
    ShownOfMembers(ids, showWearOSLogo, showBattery, BottomId);
    ShownOfMembers(ids, showWearOSLogo, showBattery, LeftId);
  }

  /** What one frame draws, of the parts modelled. */
  datatype Frame = Frame(complications: seq<ComplicationId>, wearOSLogo: bool, secondsRing: bool,
                         battery: Option<BatteryDisplay>)

  // ---------------------------------------------------------------------------
  // The drawer

  class Drawer {
    const storage: StorageImpl
    var drawingState: DrawingState
    /** The time size the cache was last built for. */
    var currentTimeSize: int
    /** The ids of `complicationsDrawable`, in iteration order. */
    var drawables: seq<ComplicationId>

    predicate Valid()
      reads this, storage
    {
      storage.Valid() && storage.initialized
    }

    /** The value a setting getter returns. */
    function Setting(s: BoolSetting): bool
      reads this, storage
    {
      StoredBool(storage.bools, s)
    }

    function StoredTimeSize(): int
      reads this, storage
    {
      StoredInt(storage.ints, TimeSize, storage.res)
    }

    /** The field initialisers and `onCreate`: no screen data yet, the stored time size remembered. */
    constructor (storage: StorageImpl)
      requires storage.Valid() && storage.initialized
      modifies storage
      ensures Valid() && this.storage == storage
      ensures drawingState == NoScreenData && drawables == []
      ensures currentTimeSize == StoredTimeSize()
      ensures storage.bools == old(storage.bools) && storage.ints == old(storage.ints) && storage.res == old(storage.res)
    {
      this.storage := storage;
      drawingState := NoScreenData;
      drawables := [];
      new;
      currentTimeSize := storage.GetInt(TimeSize);
    }

    /** `onSurfaceChanged`: a new screen size drops any cache. */
    method OnSurfaceChanged(width: int, height: int)
      modifies this
      ensures drawingState == NoCacheAvailable(width, height)
      ensures currentTimeSize == old(currentTimeSize) && drawables == old(drawables)
    {
      drawingState := NoCacheAvailable(width, height);
    }

    /** `setComplicationDrawable`: one drawable per id; a new id joins the iteration. */
    method SetComplicationDrawable(id: ComplicationId)
      modifies this
      ensures id in drawables
      ensures forall x :: x in drawables <==> x in old(drawables) || x == id
      ensures drawingState == old(drawingState) && currentTimeSize == old(currentTimeSize)
    {
      if id !in drawables {
        drawables := drawables + [id];
      }
    }

    /** `buildCache`: a cache for the current screen and the stored time size. */
    method BuildCache(width: int, height: int)
      requires Valid()
      modifies this, storage
      ensures Valid()
      ensures drawingState == BuiltCache(width, height) && currentTimeSize == StoredTimeSize()
      ensures drawables == old(drawables)
      ensures storage.bools == old(storage.bools) && storage.ints == old(storage.ints) && storage.res == old(storage.res)
    {
      var timeSize := storage.GetInt(TimeSize);
      currentTimeSize := timeSize;
      drawingState := BuiltCache(width, height);
    }

    /** `drawComplications`: the ids drawn, in order, and whether the Wear OS logo is drawn. */
    method DrawComplications(ambient: bool, premium: bool) returns (drawn: seq<ComplicationId>, logo: bool)
      requires Valid()
      modifies storage
      ensures Valid()
      ensures drawn == DrawnComplications(drawables, premium, Setting(ShowComplicationsAmbient), ambient,
                                          Setting(ShowWearOSLogo), Setting(ShowBattery))
      ensures logo == Setting(ShowWearOSLogo)
      ensures storage.bools == old(storage.bools) && storage.ints == old(storage.ints) && storage.res == old(storage.res)
    {
      drawn := [];
      var showInAmbient := false;
      if premium {
        showInAmbient := storage.GetBool(ShowComplicationsAmbient);
      }
      if premium && (showInAmbient || !ambient) {
        var i := 0;
        while i < |drawables|
          invariant 0 <= i <= |drawables|
          invariant storage.Valid() && storage.initialized
          invariant storage.bools == old(storage.bools) && storage.ints == old(storage.ints) && storage.res == old(storage.res)
          invariant drawn == ShownOf(drawables[..i], Setting(ShowWearOSLogo), Setting(ShowBattery))
        {
          var id := drawables[i];
          var skip := false;
          if id == MiddleId {
            skip := storage.GetBool(ShowWearOSLogo);
          }
          if id == BottomId {
            skip := storage.GetBool(ShowBattery);
          }
          if !skip {
            drawn := drawn + [id];
          }
          assert drawables[..i + 1][..i] == drawables[..i];
          i := i + 1;
        }
        assert drawables[..i] == drawables;
      }
      logo := storage.GetBool(ShowWearOSLogo);
    }

    /** The cache choice at the start of `draw`. */
    method EnsureCache()
      requires Valid()
      modifies this, storage
      ensures Valid()
      ensures drawingState == CacheChosen(old(drawingState), old(currentTimeSize), StoredTimeSize())
      ensures old(drawingState).NoScreenData? ==> currentTimeSize == old(currentTimeSize)
      ensures !old(drawingState).NoScreenData? ==> currentTimeSize == StoredTimeSize()
      ensures drawables == old(drawables)
      ensures storage.bools == old(storage.bools) && storage.ints == old(storage.ints) && storage.res == old(storage.res)
    {
      var current := drawingState;
      if current.NoCacheAvailable? {
        BuildCache(current.screenWidth, current.screenHeight);
      } else if current.CacheAvailable? {
        var stored := storage.GetInt(TimeSize);
        if currentTimeSize != stored {
          BuildCache(current.screenWidth, current.screenHeight);
        }
      }
    }

    /** The three settings `draw` passes to the cached drawing, read in argument order. */
    method ReadFrameSettings() returns (premium: bool, secondsRing: bool, drawBattery: bool)
      requires Valid()
      modifies storage
      ensures Valid()
      ensures premium == Setting(UserPremium) && secondsRing == Setting(SecondsRing) && drawBattery == Setting(ShowBattery)
      ensures storage.bools == old(storage.bools) && storage.ints == old(storage.ints) && storage.res == old(storage.res)
    {
      premium := storage.GetBool(UserPremium);
      secondsRing := storage.GetBool(SecondsRing);
      drawBattery := storage.GetBool(ShowBattery);
    }

    /** `CacheAvailable.draw`: one frame from a built cache, in the order the source reads the settings. */
    method DrawFromCache(ambient: bool, weather: Option<ComplicationData>, battery: Option<ComplicationData>,
                         layout: WeatherLayout)
      returns (frame: Frame)
      requires Valid() && drawingState.CacheAvailable?
      modifies this, storage
      ensures Valid()
      ensures drawingState == AfterWeatherDrawn(old(drawingState), Setting(UserPremium), weather, layout)
      ensures frame.complications == DrawnComplications(drawables, Setting(UserPremium), Setting(ShowComplicationsAmbient),
                                                        ambient, Setting(ShowWearOSLogo), Setting(ShowBattery))
      ensures frame.wearOSLogo == Setting(ShowWearOSLogo)
      ensures frame.secondsRing == (Setting(SecondsRing) && !ambient)
      ensures frame.battery == BatteryIndicator(Setting(UserPremium), Setting(ShowBattery), battery)
      ensures currentTimeSize == old(currentTimeSize) && drawables == old(drawables)
      ensures storage.bools == old(storage.bools) && storage.ints == old(storage.ints) && storage.res == old(storage.res)
    {
      var premium, secondsRing, drawBattery := ReadFrameSettings();
      var drawn, logo := DrawComplications(ambient, premium);
      drawingState := AfterWeatherDrawn(drawingState, premium, weather, layout);
      frame := Frame(drawn, logo, secondsRing && !ambient, BatteryIndicator(premium, drawBattery, battery));
    }

    /**
     * `draw`: make sure a cache for the stored time size exists, then draw the
     * frame from it. With no screen data nothing happens.
     */
    method Draw(ambient: bool, weather: Option<ComplicationData>, battery: Option<ComplicationData>, layout: WeatherLayout)
      returns (frame: Option<Frame>)
      requires Valid()
      modifies this, storage
      ensures Valid()
      ensures frame.None? <==> old(drawingState).NoScreenData?
      ensures old(drawingState).NoScreenData? ==> drawingState == old(drawingState) && currentTimeSize == old(currentTimeSize)
      ensures !old(drawingState).NoScreenData? ==> currentTimeSize == StoredTimeSize()
      ensures !old(drawingState).NoScreenData? ==>
        drawingState == AfterWeatherDrawn(CacheChosen(old(drawingState), old(currentTimeSize), StoredTimeSize()),
                                          Setting(UserPremium), weather, layout)
      ensures frame.Some? ==> frame.value == Frame(
        DrawnComplications(drawables, Setting(UserPremium), Setting(ShowComplicationsAmbient), ambient,
                           Setting(ShowWearOSLogo), Setting(ShowBattery)),
        Setting(ShowWearOSLogo),
        Setting(SecondsRing) && !ambient,
        BatteryIndicator(Setting(UserPremium), Setting(ShowBattery), battery))
      ensures drawables == old(drawables)
      ensures storage.bools == old(storage.bools) && storage.ints == old(storage.ints) && storage.res == old(storage.res)
    {
      EnsureCache();
      if drawingState.CacheAvailable? {
        var f := DrawFromCache(ambient, weather, battery, layout);
        frame := Some(f);
      } else {
        frame := None;
      }
    }

    /** `tapIsOnWeather`, reading the settings in the source's order. */
    method TapIsOnWeather(x: int, y: int) returns (r: bool)
      requires Valid()
      modifies storage
      ensures Valid()
      ensures r == TapOnWeather(Setting(ShowWeather), Setting(UserPremium), drawingState, x, y)
      ensures storage.bools == old(storage.bools) && storage.ints == old(storage.ints) && storage.res == old(storage.res)
    {
      var state := drawingState;
      var showWeather := storage.GetBool(ShowWeather);
      if !showWeather {
        return false;
      }
      var premium := storage.GetBool(UserPremium);
      if !premium || !state.CacheAvailable? {
        return false;
      }
      var rect := WeatherDisplayRect(state);
      if rect.None? {
        return false;
      }
      r := Contains(rect.value, x, y);
    }
  }
}
