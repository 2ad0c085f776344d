// The colour of each of the four complication slots, and how a single
// colour is flattened into a Parcel and read back.
module ComplicationColors {
  import opened Base
  import opened Parcels

  /** A colour choice: an ARGB int, its human-readable label, and whether it is the slot's default. */
  datatype ComplicationColor = ComplicationColor(color: int, colorLabel: string, isDefault: bool)

  /** Exactly four independent slots. */
  datatype ComplicationColors = ComplicationColors(
    leftColor: ComplicationColor,
    middleColor: ComplicationColor,
    rightColor: ComplicationColor,
    bottomColor: ComplicationColor)

  /** The four slots in left, middle, right, bottom order. */
  function Slots(c: ComplicationColors): (r: seq<ComplicationColor>)
    ensures |r| == 4
  {
    [c.leftColor, c.middleColor, c.rightColor, c.bottomColor]
  }

  /** The three values `writeToParcel` appends, in order: colour, label, default flag as a byte. */
  function Written(c: ComplicationColor): (w: seq<ParcelValue>)
    ensures |w| == 3
  {
    [IntValue(c.color), StringValue(Some(c.colorLabel)), ByteValue(if c.isDefault then 1 else 0)]
  }

  /**
   * The parcel constructor: reads an int, a string and a byte from `pos`.
   * A null label fails (the source's `!!`); any non-zero byte means default.
   * On success also returns the cursor after the three reads.
   */
  function ReadFrom(data: seq<ParcelValue>, pos: nat): (r: Option<(ComplicationColor, nat)>)
    ensures r.Some? ==> StringAt(data, Advance(data, pos)).Some?
    ensures r.Some? ==> r.value.0.color == IntAt(data, pos)
    ensures r.Some? ==> r.value.0.isDefault == (ByteAt(data, Advance(data, Advance(data, pos))) != 0)
  {
    var color := IntAt(data, pos);
    var p1 := Advance(data, pos);
    match StringAt(data, p1)
    case None => None
    case Some(text) =>
      var p2 := Advance(data, p1);
      var isDefault := ByteAt(data, p2) != 0;
      Some((ComplicationColor(color, text, isDefault), Advance(data, p2)))
  }

  /** Reading back what `writeToParcel` wrote, wherever it sits in the parcel, yields the same colour. */
  lemma ReadWritten(before: seq<ParcelValue>, c: ComplicationColor, after: seq<ParcelValue>)
    ensures ReadFrom(before + Written(c) + after, |before|) == Some((c, |before| + 3))
  {
    var data := before + Written(c) + after;
    assert data[|before|] == IntValue(c.color);
    assert data[|before| + 1] == StringValue(Some(c.colorLabel));
    assert data[|before| + 2] == ByteValue(if c.isDefault then 1 else 0);
  }

  method WriteToParcel(c: ComplicationColor, parcel: Parcel)
    modifies parcel
    ensures parcel.data == old(parcel.data) + Written(c)
    ensures parcel.position == old(parcel.position)
  {
    parcel.WriteInt(c.color);
    parcel.WriteString(Some(c.colorLabel));
    parcel.WriteByte(if c.isDefault then 1 else 0);
  }

  /** `ComplicationColor(parcel)`; None when the label read is null. */
  method CreateFromParcel(parcel: Parcel) returns (r: Option<ComplicationColor>)
    modifies parcel
    ensures parcel.data == old(parcel.data)
    ensures ReadFrom(parcel.data, old(parcel.position)).Some? <==> r.Some?
    ensures r.Some? ==> r.value == ReadFrom(parcel.data, old(parcel.position)).value.0
    ensures r.Some? ==> parcel.position == ReadFrom(parcel.data, old(parcel.position)).value.1
  {
    var color := parcel.ReadInt();
    var text := parcel.ReadString();
    var b := parcel.ReadByte();
    match text
    case None => r := None;
    case Some(l) => r := Some(ComplicationColor(color, l, b != 0));
  }

  /** A colour sent through a fresh parcel arrives unchanged. */
  method ParcelRoundTrip(c: ComplicationColor) returns (r: Option<ComplicationColor>)
    ensures r == Some(c)
  {
    var parcel := new Parcel();
    WriteToParcel(c, parcel);
    ReadWritten([], c, []);
    assert parcel.data == [] + Written(c) + [];
    r := CreateFromParcel(parcel);
  }

  /** `CREATOR.newArray(size)`: `size` empty (null) cells. */
  function NewArray(size: nat): (r: seq<Option<ComplicationColor>>)
    ensures |r| == size
    ensures forall i :: 0 <= i < size ==> r[i] == None
  {
    seq(size, _ => None)
  }
}
