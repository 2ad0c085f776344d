// The Android `Parcel` buffer that the colour and location types write
// themselves into: a sequence of typed values and a read cursor.  Reading
// past the end yields the platform's defaults (0 for numbers, null for
// strings); the cursor then stays at the end.
module Parcels {
  import opened Base

  datatype ParcelValue =
    | IntValue(i: int)
    | StringValue(s: Option<string>)
    | ByteValue(b: int)

  /** What `readInt` yields at `pos`. */
  function IntAt(data: seq<ParcelValue>, pos: nat): int {
    if pos < |data| && data[pos].IntValue? then data[pos].i else 0
  }

  /** What `readString` yields at `pos` (None is Java's null). */
  function StringAt(data: seq<ParcelValue>, pos: nat): Option<string> {
    if pos < |data| && data[pos].StringValue? then data[pos].s else None
  }

  /** What `readByte` yields at `pos`. */
  function ByteAt(data: seq<ParcelValue>, pos: nat): int {
    if pos < |data| && data[pos].ByteValue? then data[pos].b else 0
  }

  /** The cursor after one read at `pos`. */
  function Advance(data: seq<ParcelValue>, pos: nat): (r: nat)
    ensures pos < |data| ==> r == pos + 1
    ensures pos >= |data| ==> r == pos
  {
    if pos < |data| then pos + 1 else pos
  }

  class Parcel {
    var data: seq<ParcelValue>
    var position: nat

    constructor ()
      ensures data == [] && position == 0
    {
      data := [];
      position := 0;
    }

    method WriteInt(x: int)
      modifies this
      ensures data == old(data) + [IntValue(x)] && position == old(position)
    {
      data := data + [IntValue(x)];
    }

    method WriteString(s: Option<string>)
      modifies this
      ensures data == old(data) + [StringValue(s)] && position == old(position)
    {
      data := data + [StringValue(s)];
    }

    /** `writeByte` stores the low 8 bits of its argument. */
    method WriteByte(b: int)
      modifies this
      ensures data == old(data) + [ByteValue(ToByte(b))] && position == old(position)
    {
      data := data + [ByteValue(ToByte(b))];
    }

    method ReadInt() returns (x: int)
      modifies this
      ensures x == IntAt(old(data), old(position))
      ensures data == old(data) && position == Advance(data, old(position))
    {
      x := IntAt(data, position);
      position := Advance(data, position);
    }

    method ReadString() returns (s: Option<string>)
      modifies this
      ensures s == StringAt(old(data), old(position))
      ensures data == old(data) && position == Advance(data, old(position))
    {
      s := StringAt(data, position);
      position := Advance(data, position);
    }

    method ReadByte() returns (b: int)
      modifies this
      ensures b == ByteAt(old(data), old(position))
      ensures data == old(data) && position == Advance(data, old(position))
    {
      b := ByteAt(data, position);
      position := Advance(data, position);
    }
  }
}
