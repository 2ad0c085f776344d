// The screen that configures one complication slot: its three-row list
// (title, complication, colour) and the activity that stores the colour
// picked for the slot.

// The list of the slot configuration screen.
module WidgetConfigAdapter {
  import opened Base
  import opened ComplicationColors
  import opened WatchStorage
  import opened ComplicationConfigAdapter

  datatype WidgetViewType = TitleView | WidgetView | ColorView

  /** `TITLE_VIEW_TYPE`, `WIDGET_VIEW_TYPE`, `COLOR_VIEW_TYPE`. */
  function WidgetViewTypeCode(t: WidgetViewType): int {
    match t
    case TitleView => 0
    case WidgetView => 1
    case ColorView => 2
  }

  datatype UnknownPosition = UnknownPosition(position: int)

  /** `getItemViewType`: the title, the complication and the colour rows, in that order; any other position is an error. */
  function ItemViewTypeAt(position: int): (r: Result<int, UnknownPosition>)
    ensures r.Ok? <==> 0 <= position < 3
    ensures r.Ok? ==> r.value == position
    ensures r.Err? ==> r.error == UnknownPosition(position)
  {
    match position
    case 0 => Ok(WidgetViewTypeCode(TitleView))
    case 1 => Ok(WidgetViewTypeCode(WidgetView))
    case 2 => Ok(WidgetViewTypeCode(ColorView))
    case _ => Err(UnknownPosition(position))
  }

  /** The holder kind `onCreateViewHolder` makes for a view type; any other int is an error. */
  function WidgetHolderFor(viewType: int): (r: Result<WidgetViewType, UnknownViewType>)
    ensures r.Ok? <==> 0 <= viewType < 3
    ensures r.Ok? ==> WidgetViewTypeCode(r.value) == viewType
    ensures r.Err? ==> r.error == UnknownViewType(viewType)
  {
    match viewType
    case 0 => Ok(TitleView)
    case 1 => Ok(WidgetView)
    case 2 => Ok(ColorView)
    case _ => Err(UnknownViewType(viewType))
  }

  /** The colour of a location's slot: the location's ordinal is its index among the four slots. */
  function SlotOf(loc: ComplicationLocation, colors: ComplicationColors): (c: ComplicationColor)
    ensures c == Slots(colors)[Ordinal(loc)]
  {
    match loc
    case Left => colors.leftColor
    case Middle => colors.middleColor
    case Right => colors.rightColor
    case Bottom => colors.bottomColor
  }

  /** What the provider chooser returns about the chosen complication provider. */
  datatype ProviderInfo = ProviderInfo(providerName: string)

  class WidgetAdapter {
    const location: ComplicationLocation
    const title: string
    var showColor: bool
    /** Whether `colorViewHolder` has been created, and the colour it shows. */
    var colorHolderCreated: bool
    var shownColor: Option<ComplicationColor>

    constructor (location: ComplicationLocation, title: string)
      ensures this.location == location && this.title == title
      ensures showColor && !colorHolderCreated && shownColor == None
    {
      this.location := location;
      this.title := title;
      showColor := true;
      colorHolderCreated := false;
      shownColor := None;
    }

    /** `getItemCount`: every counted row has a view type, and the last one is the colour row exactly when colours are shown. */
    function ItemCount(): (n: int)
      reads this
      ensures 2 <= n <= 3
      ensures forall p :: 0 <= p < n ==> ItemViewTypeAt(p).Ok? && WidgetHolderFor(ItemViewTypeAt(p).value).Ok?
      ensures showColor <==> WidgetHolderFor(ItemViewTypeAt(n - 1).value) == Ok(ColorView)
    {
      if showColor then 3 else 2
    }

    /** `updateComplication`: the colour row is offered only while a provider is set. */
    method UpdateComplication(info: Option<ProviderInfo>)
      modifies this
      ensures showColor == info.Some?
      ensures colorHolderCreated == old(colorHolderCreated) && shownColor == old(shownColor)
    {
      showColor := info.Some?;
    }

    /** `onCreateViewHolder`, remembering the colour holder. */
    method OnCreateViewHolder(viewType: int) returns (r: Result<WidgetViewType, UnknownViewType>)
      modifies this
      ensures r == WidgetHolderFor(viewType)
      ensures colorHolderCreated == (old(colorHolderCreated) || r == Ok(ColorView))
      ensures showColor == old(showColor) && shownColor == old(shownColor)
    {
      r := WidgetHolderFor(viewType);
      if r == Ok(ColorView) {
        colorHolderCreated := true;
      }
    }

    /** Binding the colour row: it shows the stored colour of this adapter's own slot. */
    method BindColorRow(storage: StorageImpl) returns (c: ComplicationColor)
      requires storage.Valid() && storage.initialized
      modifies this, storage
      ensures storage.Valid() && storage.colorsCache.Some?
      ensures c == SlotOf(location, storage.colorsCache.value)
      ensures old(storage.colorsCache).Some? ==> storage.colorsCache == old(storage.colorsCache)
      ensures old(storage.colorsCache).None? ==> storage.colorsCache == Some(DecodeColors(storage.colors, storage.res))
      ensures storage.bools == old(storage.bools) && storage.ints == old(storage.ints) && storage.colors == old(storage.colors)
      ensures shownColor == Some(c)
      ensures showColor == old(showColor) && colorHolderCreated == old(colorHolderCreated)
    {
      var colors := storage.GetComplicationColors();
      c := SlotOf(location, colors);
      shownColor := Some(c);
    }

    /** `updatePreviewColors`: shown on the colour row once it exists. */
    method UpdatePreviewColors(color: ComplicationColor)
      modifies this
      ensures shownColor == if colorHolderCreated then Some(color) else old(shownColor)
      ensures showColor == old(showColor) && colorHolderCreated == old(colorHolderCreated)
    {
      if colorHolderCreated {
        shownColor := Some(color);
      }
    }
  }
}

// The activity that hosts that list and receives the results of the
// provider chooser and of the colour picker.
module WidgetConfiguration {
  import opened Base
  import opened ComplicationColors
  import opened ComplicationColorsProvider
  import opened WatchStorage
  import opened ComplicationConfigAdapter
  import opened WidgetConfigAdapter

  const ComplicationConfigRequestCode: int := 1001
  const UpdateColorsConfigRequestCode: int := 1002
  /** `Activity.RESULT_OK`. */
  const ResultOk: int := -1

  /** The title for a location: the key of its string resource. */
  function TitleFor(loc: ComplicationLocation): string {
    match loc
    case Left => "config_left_complication"
    case Middle => "config_middle_complication"
    case Right => "config_right_complication"
    case Bottom => "config_bottom_complication"
  }

  /** Each location has its own title. */
  lemma TitlesDistinct(a: ComplicationLocation, b: ComplicationLocation)
    ensures TitleFor(a) == TitleFor(b) ==> a == b
  {
  }

  /** The colour the picker offers as default: the location's slot of the default colours. */
  function DefaultColorFor(loc: ComplicationLocation, res: DefaultColorResources): (c: ComplicationColor)
    ensures c == SlotOf(loc, DefaultComplicationColors(res))
    ensures c.isDefault && c.colorLabel == DefaultLabel
  {
    var d := DefaultComplicationColors(res);
    match loc
    case Left => d.leftColor
    case Middle => d.middleColor
    case Right => d.rightColor
    case Bottom => d.bottomColor
  }

  /** The `copy` with one slot replaced. */
  function WithSlot(colors: ComplicationColors, loc: ComplicationLocation, c: ComplicationColor): (r: ComplicationColors)
    ensures SlotOf(loc, r) == c
    ensures forall other :: other != loc ==> SlotOf(other, r) == SlotOf(other, colors)
  {
    match loc
    case Left => colors.(leftColor := c)
    case Middle => colors.(middleColor := c)
    case Right => colors.(rightColor := c)
    case Bottom => colors.(bottomColor := c)
  }

  /** The four slot keys of the preferences file, indexed by location. */
  function KeyOf(loc: ComplicationLocation): ColorKey {
    match loc
    case Left => LeftColorKey
    case Middle => MiddleColorKey
    case Right => RightColorKey
    case Bottom => BottomColorKey
  }

  /** Reading one slot of the file back, as `getComplicationColors` does. */
  lemma DecodedSlot(file: map<ColorKey, int>, res: Resources, loc: ComplicationLocation)
    ensures SlotOf(loc, DecodeColors(file, res))
         == DecodeSlot(StoredSlot(file, KeyOf(loc)), SlotOf(loc, DefaultComplicationColors(res.defaultColors)))
  {
  }

  /**
   * Storing a picked colour for one location, starting from what the file
   * says: a later read of the file gives the other three slots exactly as
   * before, and the picked colour in the location's slot whenever that colour
   * can be stored (see `PickableColorsStorable`).
   */
  lemma SelectedColorStored(file: map<ColorKey, int>, res: Resources, loc: ComplicationLocation,
                            c: ComplicationColor, other: ComplicationLocation)
    ensures var before := DecodeColors(file, res);
            var after := DecodeColors(EncodeColors(file, WithSlot(before, loc, c)), res);
            (other != loc ==> SlotOf(other, after) == SlotOf(other, before))
            && (CanonicalSlot(c, SlotOf(loc, DefaultComplicationColors(res.defaultColors))) ==> SlotOf(loc, after) == c)
  {
    var d := DefaultComplicationColors(res.defaultColors);
    var before := DecodeColors(file, res);
    var w := WithSlot(before, loc, c);
    var e := EncodeColors(file, w);
    ColorsRoundTrip(file, w, res);
    assert StoredSlot(e, KeyOf(loc)) == EncodeSlot(SlotOf(loc, w));
    assert StoredSlot(e, KeyOf(other)) == EncodeSlot(SlotOf(other, w));
    DecodedSlot(e, res, loc);
    DecodedSlot(e, res, other);
    SlotRoundTrip(c, SlotOf(loc, d));
    SlotRoundTrip(SlotOf(other, before), SlotOf(other, d));
  }

  /** Both colours the picker can return for a location, its default and any palette entry, can be stored. */
  lemma PickableColorsStorable(loc: ComplicationLocation, res: DefaultColorResources, i: nat)
    requires i < |AllComplicationColors()|
    ensures CanonicalSlot(DefaultColorFor(loc, res), SlotOf(loc, DefaultComplicationColors(res)))
    ensures CanonicalSlot(AllComplicationColors()[i], SlotOf(loc, DefaultComplicationColors(res)))
  {
    var p := AllComplicationColors()[i];
    PaletteEntryNotDefault(i);
    LabelOfPaletteEntry(i);
    assert InPalette(p.color);
    SentinelNotInPalette();
  }

  /** What the finished activity hands back, if anything. */
  datatype ResultData = ResultData(providerInfo: Option<ProviderInfo>, selectedColor: Option<ComplicationColor>)

  function SelectedColor(data: Option<ResultData>): Option<ComplicationColor> {
    if data.Some? then data.value.selectedColor else None
  }

  function ChosenProvider(data: Option<ResultData>): Option<ProviderInfo> {
    if data.Some? then data.value.providerInfo else None
  }

  /** The colours the store hands out: the cached ones, or a fresh read of the file. */
  function CurrentColors(cache: Option<ComplicationColors>, file: map<ColorKey, int>, res: Resources): ComplicationColors {
    if cache.Some? then cache.value else DecodeColors(file, res)
  }

  class WidgetConfigurationActivity {
    const location: ComplicationLocation
    const title: string
    const adapter: WidgetAdapter
    const storage: StorageImpl
    /** What `setResult` last recorded. */
    var result: Option<int>

    predicate Valid()
      reads this, storage, adapter
    {
      storage.Valid() && storage.initialized && adapter.location == location
    }

    /** `onCreate`, given the location the intent carries. */
    constructor (location: ComplicationLocation, storage: StorageImpl)
      requires storage.Valid() && storage.initialized
      ensures Valid() && this.location == location && this.storage == storage
      ensures title == TitleFor(location) && fresh(adapter) && adapter.showColor && adapter.title == title
      ensures result == None
    {
      this.location := location;
      this.storage := storage;
      title := TitleFor(location);
      adapter := new WidgetAdapter(location, TitleFor(location));
      result := None;
    }

    /**
     * `onActivityResult`: a chosen provider decides whether the colour row is
     * shown; a picked colour replaces this location's slot only; anything
     * else, a missing colour included, changes nothing.
     */
    method OnActivityResult(requestCode: int, resultCode: int, data: Option<ResultData>)
      requires Valid()
      modifies this, adapter, storage
      ensures Valid()
      ensures resultCode != ResultOk || (requestCode != ComplicationConfigRequestCode && requestCode != UpdateColorsConfigRequestCode)
              ==> unchanged(this) && unchanged(adapter) && unchanged(storage)
      ensures resultCode == ResultOk && requestCode == ComplicationConfigRequestCode ==>
              adapter.showColor == ChosenProvider(data).Some? && result == Some(ResultOk)
              && adapter.shownColor == old(adapter.shownColor) && unchanged(storage)
      ensures resultCode == ResultOk && requestCode == UpdateColorsConfigRequestCode && SelectedColor(data).None? ==>
              unchanged(this) && unchanged(adapter) && unchanged(storage)
      ensures resultCode == ResultOk && requestCode == UpdateColorsConfigRequestCode && SelectedColor(data).Some? ==>
              var stored := WithSlot(CurrentColors(old(storage.colorsCache), old(storage.colors), storage.res),
                                     location, SelectedColor(data).value);
              storage.colorsCache == Some(stored) && storage.colors == EncodeColors(old(storage.colors), stored)
              && storage.bools == old(storage.bools) && storage.ints == old(storage.ints)
              && adapter.shownColor == (if adapter.colorHolderCreated then SelectedColor(data) else old(adapter.shownColor))
              && adapter.showColor == old(adapter.showColor) && result == Some(ResultOk)
    {
      if requestCode == ComplicationConfigRequestCode && resultCode == ResultOk {
        adapter.UpdateComplication(ChosenProvider(data));
        result := Some(ResultOk);
      } else if requestCode == UpdateColorsConfigRequestCode && resultCode == ResultOk {
        var selected := SelectedColor(data);
        if selected.None? {
          return;
        }
        var colors := storage.GetComplicationColors();
        storage.SetComplicationColors(WithSlot(colors, location, selected.value));
        adapter.UpdatePreviewColors(selected.value);
        result := Some(ResultOk);
      }
    }
  }
}
