/** The driver class `QwiicLEDStick`: each LED-stick operation validates its
    arguments, builds one command frame and hands it to the retrying write;
    `change_address` then rebinds the device to the new address. */
module LedStick {
  import opened Types
  import opened ColorCodec
  import opened Protocol
  import opened Transport

  /** Bus address the driver uses unless told otherwise. */
  const DefaultAddress: int := 0x23

  /** Lowest and highest address `change_address` accepts. */
  const MinAddress: int := 0x08
  const MaxAddress: int := 0x77

  /** Highest hardware brightness level of one LED. */
  const MaxLevel: int := 31

  /** The software brightness of the pixel buffer, a fraction num/den in [0, 1]. */
  datatype Ratio = Ratio(num: nat, den: nat)
  type Brightness = b: Ratio | 0 < b.den && b.num <= b.den witness Ratio(1, 1)

  /** One channel scaled by the software brightness and truncated, as
      `int(cc * self.brightness)` does: the largest byte not above the exact
      product. */
  function Scale(channel: Byte, b: Brightness): (s: Byte)
    ensures s <= channel
    ensures s * b.den <= channel * b.num < (s + 1) * b.den
  {
    ScaleBound(channel, b);
    channel * b.num / b.den
  }

  /** Scaling by a fraction of at most one never brightens a channel. */
  lemma ScaleBound(channel: Byte, b: Brightness)
    ensures channel * b.num / b.den <= channel
  {
    assert channel * b.num <= channel * b.den;
  }

  /** The frame `set_led(number, color)` writes: the pixel position is
      checked first, then the color is converted, then bytes() checks the
      position fits a byte. */
  function SetLedFrame(numPixels: nat, number: int, color: Color): (r: Result<Frame>)
    ensures !(0 <= number < numPixels) ==> r == Err(PixelOutOfRange)
    ensures 0 <= number < numPixels && ColorBytes(color).Err? ==> r == Err(ColorBytes(color).error)
    ensures 0 <= number < numPixels && ColorBytes(color).Ok? && 256 <= number ==> r == Err(ByteOutOfRange)
    ensures r.Ok? <==> 0 <= number < numPixels && number < 256 && ColorBytes(color).Ok?
    ensures r.Ok? ==> var rgb := ColorBytes(color).value;
      Decode(r.value) == Some(WriteSingleLedColor(number, rgb[0], rgb[1], rgb[2]))
  {
    if !(0 <= number < numPixels) then Err(PixelOutOfRange)
    else
      var rgb := ColorBytes(color);
      if rgb.Err? then Err(rgb.error)
      else if 256 <= number then Err(ByteOutOfRange)
      else Ok([CommandWriteSingleLedColor, number] + rgb.value)
  }

  /** The frame `optimized_fill(color)` writes: every channel of the color
      scaled by the software brightness, sent as one all-LED command. */
  function FillFrame(color: Color, b: Brightness): (r: Result<Frame>)
    ensures r.Ok? <==> ColorBytes(color).Ok?
    ensures r.Err? ==> r.error == ColorBytes(color).error
    ensures r.Ok? ==> var rgb := ColorBytes(color).value;
      Decode(r.value) == Some(WriteAllLedColor(Scale(rgb[0], b), Scale(rgb[1], b), Scale(rgb[2], b)))
  {
    var rgb := ColorBytes(color);
    if rgb.Err? then Err(rgb.error)
    else
      var scaled := seq(3, i requires 0 <= i < 3 => Scale(rgb.value[i], b));
      Ok([CommandWriteAllLedColor] + scaled)
  }

  /** The frame `set_led_brightness(number, level)` writes: position, then
      level, then byte range are checked, in that order. */
  function SetLedBrightnessFrame(numPixels: nat, number: int, level: int): (r: Result<Frame>)
    ensures !(0 <= number < numPixels) ==> r == Err(PixelOutOfRange)
    ensures 0 <= number < numPixels && !(0 <= level <= MaxLevel) ==> r == Err(BrightnessOutOfRange)
    ensures 0 <= number < numPixels && 0 <= level <= MaxLevel && 256 <= number ==> r == Err(ByteOutOfRange)
    ensures r.Ok? <==> 0 <= number < numPixels && number < 256 && 0 <= level <= MaxLevel
    ensures r.Ok? ==> Decode(r.value) == Some(WriteSingleLedBrightness(number, level))
  {
    if !(0 <= number < numPixels) then Err(PixelOutOfRange)
    else if level < 0 || level > MaxLevel then Err(BrightnessOutOfRange)
    else if 256 <= number then Err(ByteOutOfRange)
    else Ok([CommandWriteSingleLedBrightness, number, level])
  }

  /** The frame `set_brightness(level)` was meant to write: the level is the
      only argument, so it is the only thing checked. */
  function AllBrightnessFrame(level: int): (r: Result<Frame>)
    ensures r.Ok? <==> 0 <= level <= MaxLevel
    ensures r.Err? ==> r.error == BrightnessOutOfRange
    ensures r.Ok? ==> Decode(r.value) == Some(WriteAllLedBrightness(level))
  {
    if level < 0 || level > MaxLevel then Err(BrightnessOutOfRange)
    else Ok([CommandWriteAllLedBrightness, level])
  }

  /** The frame `off()` writes. */
  function OffFrame(): (f: Frame)
    ensures Decode(f) == Some(WriteAllLedOff)
  {
    [CommandWriteAllLedOff, 0]
  }

  /** The frame `change_address(newAddress)` writes, if the address is
      acceptable. */
  function ChangeAddressFrame(newAddress: int): (r: Option<Frame>)
    ensures r.Some? <==> MinAddress <= newAddress <= MaxAddress
    ensures r.Some? ==> Decode(r.value) == Some(ChangeAddress(newAddress))
  {
    if newAddress < MinAddress || newAddress > MaxAddress then None
    else Some([CommandChangeAddress, newAddress])
  }

  /** The frame `_transmit` sends for pixel `pos`: the single-LED command
      carrying bytes 3*pos .. 3*pos+2 of the buffer. */
  function PixelFrame(buffer: seq<Byte>, pos: nat): (f: Frame)
    requires pos < 256 && 3 * pos + 3 <= |buffer|
  {
    Encode(WriteSingleLedColor(pos, buffer[3 * pos], buffer[3 * pos + 1], buffer[3 * pos + 2]))
  }

  /** The frames `_transmit` sends for the first `count` pixels, in order. */
  function PixelFrames(buffer: seq<Byte>, count: nat): (fs: seq<Frame>)
    requires count <= 256 && 3 * count <= |buffer|
    ensures |fs| == count
  {
    seq(count, pos requires 0 <= pos < count => PixelFrame(buffer, pos))
  }

  class QwiicLedStick {
    const bus: Bus
    const numPixels: nat
    const brightness: Brightness
    /** Address of the bound device (the I2CDevice in `self.device`). */
    var address: int
    /** Failed write attempts so far. */
    var retries: nat

    constructor (bus: Bus, address: int := DefaultAddress, numPixels: nat := 10,
                 brightness: Brightness := Ratio(1, 1))
      ensures this.bus == bus && this.address == address
      ensures this.numPixels == numPixels && this.brightness == brightness
      ensures retries == 0
    {
      this.bus := bus;
      this.address := address;
      this.numPixels := numPixels;
      this.brightness := brightness;
      retries := 0;
    }

    /** `_write(data)`: up to `Retries` attempts, the first success ends
        the loop, each failure adds one to `retries`; if all fail the call
        still returns normally. */
    method Write(data: Frame)
      modifies this`retries, bus
      ensures Channel(bus.log, bus.faults, retries) == RetryingWrite(old(Channel(bus.log, bus.faults, retries)), address, data)
    {
      ghost var faults := bus.faults;
      ghost var log := bus.log;
      ghost var attempt := Attempt(address, data);
      var i := 0;
      while i < Retries
        invariant i <= Retries && i <= |faults|
        invariant forall j :: 0 <= j < i ==> faults[j]
        invariant bus.log == log + seq(i, _ => attempt)
        invariant bus.faults == Drop(faults, i)
        invariant retries == old(retries) + i
      {
        var ok := bus.Write(address, data);
        if ok {
          FailedAttemptsExact(faults, Retries, i);
          assert bus.log == log + seq(i + 1, _ => attempt);
          assert bus.faults == Drop(faults, i + 1);
          break;
        }
        retries := retries + 1;
        i := i + 1;
      }
      if i == Retries {
        FailedAttemptsExact(faults, Retries, Retries);
      }
    }

    /** `_transmit(buffer)`: `set_led` for every pixel position in
        increasing order, pixel `pos` taking bytes 3*pos .. 3*pos+2 of the
        buffer. Positions above 255 do not fit the frame's index byte, so
        on a stick of more than 256 pixels the 257th call raises and ends
        the flush. */
    method Transmit(buffer: seq<Byte>) returns (r: Outcome)
      requires |buffer| == 3 * numPixels
      modifies this`retries, bus
      ensures r == if numPixels <= 256 then Returned else Raised(ByteOutOfRange)
      ensures Channel(bus.log, bus.faults, retries) == WriteAll(old(Channel(bus.log, bus.faults, retries)), address,
                                    PixelFrames(buffer, if numPixels <= 256 then numPixels else 256))
    {
      ghost var start := Channel(bus.log, bus.faults, retries);
      var pos := 0;
      while pos < numPixels
        invariant pos <= numPixels && pos <= 256
        invariant Channel(bus.log, bus.faults, retries) == WriteAll(start, address, PixelFrames(buffer, pos))
      {
        var color := Seq(buffer[3 * pos..3 * pos + 3]);
        PixelSetLedFrame(numPixels, buffer, pos);
        var outcome := SetLed(pos, color);
        if outcome.Raised? {
          return outcome;
        }
        WriteAllStep(start, address, PixelFrames(buffer, pos), PixelFrame(buffer, pos));
        PixelFramesStep(buffer, pos);
        pos := pos + 1;
      }
      return Returned;
    }

    /** `set_led(number, color)`: raises before any bus activity when the
        frame cannot be built, otherwise writes it exactly once. */
    method SetLed(number: int, color: Color) returns (r: Outcome)
      modifies this`retries, bus
      ensures var f := SetLedFrame(numPixels, number, color);
        if f.Ok? then r == Returned && Channel(bus.log, bus.faults, retries) == RetryingWrite(old(Channel(bus.log, bus.faults, retries)), address, f.value)
        else r == Raised(f.error) && Channel(bus.log, bus.faults, retries) == old(Channel(bus.log, bus.faults, retries))
    {
      var f := SetLedFrame(numPixels, number, color);
      if f.Err? {
        return Raised(f.error);
      }
      Write(f.value);
      r := Returned;
    }

    /** `optimized_fill(color)`: one write of one all-LED frame, whatever
        the number of pixels. */
    method OptimizedFill(color: Color) returns (r: Outcome)
      modifies this`retries, bus
      ensures var f := FillFrame(color, brightness);
        if f.Ok? then r == Returned && Channel(bus.log, bus.faults, retries) == RetryingWrite(old(Channel(bus.log, bus.faults, retries)), address, f.value)
        else r == Raised(f.error) && Channel(bus.log, bus.faults, retries) == old(Channel(bus.log, bus.faults, retries))
    {
      var f := FillFrame(color, brightness);
      if f.Err? {
        return Raised(f.error);
      }
      Write(f.value);
      r := Returned;
    }

    /** `set_led_brightness(number, level)`: validation errors raise with
        no bus activity, otherwise one write of the brightness frame. */
    method SetLedBrightness(number: int, level: int) returns (r: Outcome)
      modifies this`retries, bus
      ensures var f := SetLedBrightnessFrame(numPixels, number, level);
        if f.Ok? then r == Returned && Channel(bus.log, bus.faults, retries) == RetryingWrite(old(Channel(bus.log, bus.faults, retries)), address, f.value)
        else r == Raised(f.error) && Channel(bus.log, bus.faults, retries) == old(Channel(bus.log, bus.faults, retries))
    {
      var f := SetLedBrightnessFrame(numPixels, number, level);
      if f.Err? {
        return Raised(f.error);
      }
      Write(f.value);
      r := Returned;
    }

    /** `set_brightness(level)` as written: its first statement reads
        `number`, a name bound nowhere, so every call raises NameError
        before anything reaches the bus. */
    method SetBrightness(level: int) returns (r: Outcome)
      ensures r == Raised(UndefinedName)
    {
      r := Raised(UndefinedName);
    }

    /** `off()`: one write of the all-off frame. */
    method Off()
      modifies this`retries, bus
      ensures Channel(bus.log, bus.faults, retries) == RetryingWrite(old(Channel(bus.log, bus.faults, retries)), address, OffFrame())
    {
      Write(OffFrame());
    }

    /** `change_address(newAddress)`: an address outside 0x08..0x77 is
        refused (the call returns False) with no effect; otherwise the
        change command goes to the old address and the device is rebound to
        the new one, whether or not the write got through. `accepted` is
        false exactly when the call returns False. */
    method ChangeAddress(newAddress: int) returns (accepted: bool)
      modifies this`retries, this`address, bus
      ensures accepted <==> MinAddress <= newAddress <= MaxAddress
      ensures !accepted ==> Channel(bus.log, bus.faults, retries) == old(Channel(bus.log, bus.faults, retries)) && address == old(address)
      ensures accepted ==> address == newAddress
      ensures accepted ==>
        Channel(bus.log, bus.faults, retries) == RetryingWrite(old(Channel(bus.log, bus.faults, retries)), old(address), ChangeAddressFrame(newAddress).value)
    {
      var f := ChangeAddressFrame(newAddress);
      if f.None? {
        return false;
      }
      Write(f.value);
      address := newAddress;
      accepted := true;
    }
  }

  /** The fill frame on the wire: opcode 0x72 and three channels, none
      brighter than the color asked for. */
  lemma FillFrameBytes(color: Color, b: Brightness)
    requires FillFrame(color, b).Ok?
    ensures var f := FillFrame(color, b).value; var rgb := ColorBytes(color).value;
      |f| == 4 && f[0] == 0x72 &&
      forall i :: 0 <= i < 3 ==> f[i + 1] == Scale(rgb[i], b) && f[i + 1] <= rgb[i]
  {
  }

  /** Flushing one more pixel appends that pixel's frame. */
  lemma PixelFramesStep(buffer: seq<Byte>, pos: nat)
    requires pos < 256 && 3 * (pos + 1) <= |buffer|
    ensures PixelFrames(buffer, pos + 1) == PixelFrames(buffer, pos) + [PixelFrame(buffer, pos)]
  {
  }

  /** What `set_led` makes of pixel `pos` of a flushed buffer: that pixel's
      frame when the position fits a byte, the bytes() error otherwise. */
  lemma PixelSetLedFrame(numPixels: nat, buffer: seq<Byte>, pos: nat)
    requires pos < numPixels && |buffer| == 3 * numPixels
    ensures SetLedFrame(numPixels, pos, Seq(buffer[3 * pos..3 * pos + 3]))
         == if pos < 256 then Ok(PixelFrame(buffer, pos)) else Err(ByteOutOfRange)
  {
    if pos < 256 {
      var f := SetLedFrame(numPixels, pos, Seq(buffer[3 * pos..3 * pos + 3]));
      EncodeDecode(f.value);
    }
  }
}
