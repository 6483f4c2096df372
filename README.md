# SparkFun Qwiic LED Stick driver — a Dafny model

This project models the driver class `QwiicLEDStick` for the SparkFun Qwiic
LED Stick (an APA102C strip behind an I2C command interface). Each
driver operation checks its arguments and turns them into one small command
frame: an opcode byte followed by a payload. It hands that frame to `_write`.
`_write` tries the bus up to four times, stops at the first attempt that
succeeds, and adds one to the `retries` counter for every attempt that raises
`OSError`.

The model has five modules:

- `Types`: bytes, frames, the driver's exceptions (`Error`), `Result` and
  `Outcome` (return normally or raise).
- `ColorCodec`: `color_bytes`. The dynamically typed color argument is the
  tagged value `Color = Packed(int) | Seq(seq<int>) | Other`.
- `Protocol`: the opcode constants and the command frames. `Decode` is the
  device's reading of a frame; `Encode` is its inverse. Every frame builder is
  specified against `Decode`.
- `Transport`: the I2C bus as a `Bus` object. The bus keeps a log of
  `(address, frame)` attempts and a scripted sequence of attempt outcomes.
  The retry discipline is given as functions on a `Channel` value, which holds
  the bus log, the pending outcomes and the retry count.
- `LedStick`: the pure frame builders, and the class `QwiicLedStick`. The class
  has the fields `address` (the bound I2C device) and `retries`, and one
  method per driver operation. `_write` and `_transmit` are methods with
  loops, proved against `RetryingWrite` and `WriteAll`.

`Scenarios` holds sample runs of the contracts on concrete buses: a fill at
brightness 0.2, a write that succeeds on its fourth attempt, a write that
fails on all four, address changes, and the brightness level bounds.

Behaviours of the code that the model keeps as written:

- `_write` swallows a total failure. After four failed attempts it returns
  normally, and `retries` has grown by 4.
- After sending the change command, `change_address` builds a new
  `I2CDevice` at the new address. That constructor probes the address, and
  the probe is not part of this model. So the model always rebinds, even
  when every attempt to send the change command failed. In the code, the
  rebinding happens only if a device answers at the new address. Otherwise
  the probe raises `ValueError` and the driver stays bound to the old
  address.
- `change_address` returns `False` when it rejects an address and `None`
  after a change. The model's `accepted` result tells these two apart.
- `set_led` and `set_led_brightness` accept positions `0 .. num_pixels-1`.
  The docstring says indexing starts at 1, but the code does not.
- A pixel position above 255 passes the range check when `num_pixels > 256`.
  `bytes()` then raises `ValueError`, which the model calls `ByteOutOfRange`.
  On such a stick, `_transmit` stops at pixel 256.

## Model

| member | source | states |
|---|---|---|
| ColorCodec.ColorBytes | sparkfun_qwiic_led_stick.py:111-118 | a 3-element sequence of bytes is returned unchanged; one with an element outside 0..255 is a ValueError; any other length or type is refused; an int in [0, 2^24) gives 3 bytes whose big-endian value is the int; any other int is an OverflowError |
| ColorCodec.PackedRoundTrip | sparkfun_qwiic_led_stick.py:117 | converting the packed value of any three bytes gives those three bytes back |
| Protocol.DecodeEncode | sparkfun_qwiic_led_stick.py:63-72 | every command is read back from its frame |
| Protocol.EncodeDecode | sparkfun_qwiic_led_stick.py:63-72 | a frame that reads as a command is exactly that command's encoding, so the frames of different commands differ |
| Transport.Bus.Write | sparkfun_qwiic_led_stick.py:105 | one bus attempt is logged with its address and frame, and it fails exactly when the next scripted outcome is an OSError |
| Transport.FailedAttempts | sparkfun_qwiic_led_stick.py:103-109 | the number of failed attempts is at most the budget, the attempts counted all failed, and if fewer than the budget failed, the next attempt succeeds |
| Transport.FailedAttemptsExact | sparkfun_qwiic_led_stick.py:103-109 | the failure count is determined by where the first success falls |
| Transport.RetryingWrite | sparkfun_qwiic_led_stick.py:100-109 | one `_write` makes between 1 and 4 attempts; retries grows by attempts-1 if the frame got through and by 4 if it did not; the outcomes it used are consumed |
| Transport.RetryingWriteLog | sparkfun_qwiic_led_stick.py:102-105 | `_write` only appends to the bus log, and every attempt it appends sends its frame to the bound address |
| Transport.DeliveredIff | sparkfun_qwiic_led_stick.py:103-109 | the frame is lost exactly when all four attempts fail |
| Transport.SucceedsAtAttempt | sparkfun_qwiic_led_stick.py:103-109 | when attempt k is the first to succeed, `_write` makes k attempts and adds k-1 to retries |
| Transport.AllAttemptsFail | sparkfun_qwiic_led_stick.py:103-109 | when all four attempts fail, `_write` makes four attempts, adds 4 to retries and returns normally |
| Transport.WriteAll | sparkfun_qwiic_led_stick.py:97-98 | a run of n writes makes between n and 4n attempts and adds at most 4n retries |
| Transport.WriteAllLog | sparkfun_qwiic_led_stick.py:97-98 | a run of writes only appends to the bus log, and every attempt goes to the bound address |
| Transport.WriteAllStep | sparkfun_qwiic_led_stick.py:97-98 | writing a run of frames and then one more frame is the same as writing the extended run |
| Transport.HealthyBusWrites | sparkfun_qwiic_led_stick.py:97-109 | on a bus that never fails, each frame is sent exactly once, in order, and no retries are counted |
| LedStick.Scale | sparkfun_qwiic_led_stick.py:141 | a scaled channel is the floor of channel*brightness, and so it is never above the original channel |
| LedStick.SetLedFrame | sparkfun_qwiic_led_stick.py:127-131 | an out-of-range position is refused first, then a color error, then a position above 255; otherwise the frame reads as "set LED `number` to the color's bytes" |
| LedStick.FillFrame | sparkfun_qwiic_led_stick.py:141-142 | the fill frame exists exactly when the color converts, and it reads as "all LEDs to the scaled channels" |
| LedStick.FillFrameBytes | sparkfun_qwiic_led_stick.py:141-142 | the fill frame is 4 bytes, 0x72 followed by the three scaled channels, each no brighter than the color asked for |
| LedStick.SetLedBrightnessFrame | sparkfun_qwiic_led_stick.py:156-161 | a position outside 0..num_pixels-1 is refused, then a level outside 0..31, then a position above 255 (the bytes() ValueError); otherwise the frame reads as "LED `number` to level `level`" |
| LedStick.AllBrightnessFrame | sparkfun_qwiic_led_stick.py:176-179 | the intended set_brightness frame: a level outside 0..31 is refused; otherwise the frame reads as "all LEDs to level `level`" |
| LedStick.OffFrame | sparkfun_qwiic_led_stick.py:190 | the off frame reads as "all LEDs off" |
| LedStick.ChangeAddressFrame | sparkfun_qwiic_led_stick.py:203-206 | there is a frame exactly when 0x08 <= address <= 0x77, and it reads as "change address to `newAddress`" |
| LedStick.PixelSetLedFrame | sparkfun_qwiic_led_stick.py:97-98 | the frame set_led builds for pixel `pos` of a flushed buffer is the single-LED command carrying bytes 3*pos..3*pos+2, or the bytes() error when `pos` > 255 |
| LedStick.PixelFramesStep | sparkfun_qwiic_led_stick.py:97-98 | flushing one more pixel appends exactly that pixel's frame |
| LedStick.QwiicLedStick.constructor | sparkfun_qwiic_led_stick.py:85-93 | a new driver is bound to the given address (default 0x23), has the given pixel count (default 10) and brightness (default 1.0), and starts with retries = 0 |
| LedStick.QwiicLedStick.Write | sparkfun_qwiic_led_stick.py:100-109 | the new bus log, pending outcomes and retry count are those of `RetryingWrite` at the bound address; the bound address is unchanged |
| LedStick.QwiicLedStick.Transmit | sparkfun_qwiic_led_stick.py:95-98 | set_led runs once per pixel position, in increasing order, each time with that pixel's 3-byte slice; the resulting state is `WriteAll` of those frames; on a stick of more than 256 pixels it raises after pixel 255 |
| LedStick.QwiicLedStick.SetLed | sparkfun_qwiic_led_stick.py:120-132 | if the frame cannot be built, the call raises and changes nothing on the bus or in retries; otherwise exactly one `_write` of the frame happens |
| LedStick.QwiicLedStick.OptimizedFill | sparkfun_qwiic_led_stick.py:135-143 | exactly one `_write` of the scaled fill frame, whatever the pixel count; a bad color raises with no bus activity |
| LedStick.QwiicLedStick.SetLedBrightness | sparkfun_qwiic_led_stick.py:146-162 | a bad position or level raises with no bus activity; otherwise exactly one `_write` of `[0x76, number, level]` |
| LedStick.QwiicLedStick.SetBrightness | sparkfun_qwiic_led_stick.py:165-180 | as written, every call raises NameError (line 174 reads the unbound `number`) and touches nothing |
| LedStick.QwiicLedStick.Off | sparkfun_qwiic_led_stick.py:183-191 | exactly one `_write` of `[0x78, 0]` |
| LedStick.QwiicLedStick.ChangeAddress | sparkfun_qwiic_led_stick.py:194-208 | an address outside 0x08..0x77 is rejected with no effect on the bus, retries or the bound address; otherwise `[0xC7, a]` is written to the old address and the driver is then bound to `a`, so later writes target `a` |

## Left out

- The `adafruit_pixelbuf.PixelBuf` base class is not part of this model. Its item assignment, `show`, `fill`, byte ordering, auto-write and brightness storage and clamping are not modelled. `Transmit` receives the buffer as given. The brightness is a field fixed at construction.
- LedStick.QwiicLedStick.Transmit: requires a buffer of exactly 3*num_pixels bytes, which is the size the pixel buffer always passes. A shorter buffer would make `color_bytes` raise; that case is not modelled.
- LedStick.QwiicLedStick.ChangeAddress: the contract always rebinds to the new address. The device probe that can raise `ValueError` at line 208, leaving the old binding in place, is not modelled.
- `I2CDevice` internals are not part of this model. This includes the probe for a device at construction and at rebinding, bus locking, and the scope of the `with` block. The bound device is just its address, and `bus.write` is one attempt that succeeds or raises `OSError` as the scripted outcomes say.
- The 1 ms `time.sleep` between attempts is timing only and is not modelled.
- Floating point is not modelled. The software brightness is an exact fraction num/den in [0, 1], and scaling uses integer floor division. Float rounding of `cc * brightness` can differ from the exact product at a boundary.
- Opcodes 0x70 and 0x73-0x75 are declared constants only, because no code path sends them.
- Python typing beyond the three color shapes is not modelled: non-int channel values (a TypeError), `bool` passed as an int, and non-int positions. Positions and levels are ints.
- The demonstration scripts are hardware loops with no logic of their own.

## Findings

| source | as written | input that shows it | evidently intended | confidence | as-written member | corrected member |
|---|---|---|---|---|---|---|
| sparkfun_qwiic_led_stick.py:174 | `set_brightness` first tests `number not in range(self.num_pixels)`, but `number` is bound neither in the method nor in the module, so every call raises NameError before any write | `set_brightness(16)` on any stick | check only that 0 <= level <= 31, then write `[0x77, level]` | high; not executed | LedStick.QwiicLedStick.SetBrightness | LedStick.AllBrightnessFrame |
