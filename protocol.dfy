/** The LED stick's command protocol: the opcode constants of the driver
    module and the frames (opcode followed by payload) that the driver sends.
    `Decode` is the device-side reading of a frame; the driver's frame
    builders are specified against it. */
module Protocol {
  import opened Types

  const CommandChangeAddress: Byte := 0xC7
  const CommandChangeLedLength: Byte := 0x70
  const CommandWriteSingleLedColor: Byte := 0x71
  const CommandWriteAllLedColor: Byte := 0x72
  const CommandWriteRedArray: Byte := 0x73
  const CommandWriteGreenArray: Byte := 0x74
  const CommandWriteBlueArray: Byte := 0x75
  const CommandWriteSingleLedBrightness: Byte := 0x76
  const CommandWriteAllLedBrightness: Byte := 0x77
  const CommandWriteAllLedOff: Byte := 0x78

  /** The commands some path of the driver can send (0x70 and 0x73-0x75 are
      defined but never sent). */
  datatype Command =
    | ChangeAddress(newAddress: Byte)
    | WriteSingleLedColor(index: Byte, red: Byte, green: Byte, blue: Byte)
    | WriteAllLedColor(red: Byte, green: Byte, blue: Byte)
    | WriteSingleLedBrightness(index: Byte, level: Byte)
    | WriteAllLedBrightness(level: Byte)
    | WriteAllLedOff

  /** The frame that carries a command. */
  function Encode(c: Command): (f: Frame)
    ensures |f| >= 2
  {
    match c
    case ChangeAddress(a) => [CommandChangeAddress, a]
    case WriteSingleLedColor(n, r, g, b) => [CommandWriteSingleLedColor, n, r, g, b]
    case WriteAllLedColor(r, g, b) => [CommandWriteAllLedColor, r, g, b]
    case WriteSingleLedBrightness(n, l) => [CommandWriteSingleLedBrightness, n, l]
    case WriteAllLedBrightness(l) => [CommandWriteAllLedBrightness, l]
    case WriteAllLedOff => [CommandWriteAllLedOff, 0]
  }

  /** The command a frame carries, if it is one: the opcode selects the
      command and fixes the payload length; the off command's one payload
      byte is reserved and must be 0. */
  function Decode(f: Frame): (c: Option<Command>)
  {
    if |f| == 0 then None
    else
      var op, n := f[0], |f|;
      if op == CommandChangeAddress && n == 2 then Some(ChangeAddress(f[1]))
      else if op == CommandWriteSingleLedColor && n == 5 then Some(WriteSingleLedColor(f[1], f[2], f[3], f[4]))
      else if op == CommandWriteAllLedColor && n == 4 then Some(WriteAllLedColor(f[1], f[2], f[3]))
      else if op == CommandWriteSingleLedBrightness && n == 3 then Some(WriteSingleLedBrightness(f[1], f[2]))
      else if op == CommandWriteAllLedBrightness && n == 2 then Some(WriteAllLedBrightness(f[1]))
      else if op == CommandWriteAllLedOff && n == 2 && f[1] == 0 then Some(WriteAllLedOff)
      else None
  }

  /** Every command survives the trip through its frame. */
  lemma DecodeEncode(c: Command)
    ensures Decode(Encode(c)) == Some(c)
  {
  }

  /** A frame that decodes is exactly the encoding of what it decodes to:
      no two frames carry the same command. */
  lemma EncodeDecode(f: Frame)
    requires Decode(f).Some?
    ensures Encode(Decode(f).value) == f
  {
  }
}
