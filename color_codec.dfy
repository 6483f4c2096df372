/** The color codec: `QwiicLEDStick.color_bytes`, which turns either an int
    0xRRGGBB or a sequence of three channel values into three bytes. */
module ColorCodec {
  import opened Types

  /** The dynamically typed color argument, as a tagged value. */
  datatype Color =
    | Packed(rgb: int)         // a Python int, read as 0xRRGGBB
    | Seq(channels: seq<int>)  // a tuple, list, bytes or bytearray of ints
    | Other                    // any other Python value

  /** Every element of `s` fits in a byte. */
  predicate AllBytes(s: seq<int>) {
    forall i :: 0 <= i < |s| ==> 0 <= s[i] < 256
  }

  /** The int whose big-endian three-byte form is `rgb`. */
  function Pack(rgb: seq<Byte>): (v: int)
    requires |rgb| == 3
    ensures 0 <= v < 0x100_0000
  {
    (rgb[0] as int) * 0x1_0000 + (rgb[1] as int) * 0x100 + rgb[2] as int
  }

  /** color_bytes: a 3-element sequence is copied through bytes(), an int
      goes through int.to_bytes(3, "big"), anything else is refused. */
  function ColorBytes(c: Color): (r: Result<seq<Byte>>)
    ensures r.Ok? ==> |r.value| == 3
    ensures c.Seq? ==> (r.Ok? <==> |c.channels| == 3 && AllBytes(c.channels))
    ensures c.Seq? && r.Ok? ==> r.value == c.channels
    ensures c.Seq? && |c.channels| != 3 ==> r == Err(InvalidColor)
    ensures c.Seq? && |c.channels| == 3 && !AllBytes(c.channels) ==> r == Err(ByteOutOfRange)
    ensures c.Packed? ==> (r.Ok? <==> 0 <= c.rgb < 0x100_0000)
    ensures c.Packed? && r.Ok? ==> Pack(r.value) == c.rgb
    ensures c.Packed? && r.Err? ==> r.error == ColorOverflow
    ensures c.Other? ==> r == Err(InvalidColor)
  {
    match c
    case Seq(s) =>
      if |s| != 3 then Err(InvalidColor)
      else if AllBytes(s) then Ok(s)
      else Err(ByteOutOfRange)
    case Packed(v) =>
      if 0 <= v < 0x100_0000 then Ok([v / 0x1_0000, v / 0x100 % 0x100, v % 0x100])
      else Err(ColorOverflow)
    case Other => Err(InvalidColor)
  }

  /** The int form and the byte form of a color carry the same information:
      encoding the packed value of any three bytes gives those bytes back. */
  lemma PackedRoundTrip(rgb: seq<Byte>)
    requires |rgb| == 3
    ensures ColorBytes(Packed(Pack(rgb))) == Ok(rgb)
  {
    var v := Pack(rgb);
    var r := ColorBytes(Packed(v));
    assert r.Ok? && Pack(r.value) == v;
    ChannelsDetermined(r.value, rgb);
  }

  /** Two byte triples with the same packed value are equal. */
  lemma ChannelsDetermined(a: seq<Byte>, b: seq<Byte>)
    requires |a| == 3 && |b| == 3
    requires Pack(a) == Pack(b)
    ensures a == b
  {
    assert a[0] == Pack(a) / 0x1_0000 == b[0];
    assert a[1] == (Pack(a) - (a[0] as int) * 0x1_0000) / 0x100 == b[1];
  }
}
