/** Sample runs of the driver model on concrete buses, relying on the
    contracts alone. */
module Scenarios {
  import opened Types
  import opened ColorCodec
  import opened Protocol
  import opened Transport
  import opened LedStick

  /** At brightness 0.2 a fill with 0x808000 on a ten-pixel stick puts one
      frame on the bus: channels 128, 128, 0 scaled down to 25, 25, 0. */
  method FillAtOneFifth() {
    var bus := new Bus([]);
    var stick := new QwiicLedStick(bus, brightness := Ratio(1, 5));
    var r := stick.OptimizedFill(Packed(0x808000));
    FailedAttemptsExact([], Retries, 0);
    assert r == Returned;
    FillFrameBytes(Packed(0x808000), Ratio(1, 5));
    assert Scale(0x80, Ratio(1, 5)) == 25 && Scale(0, Ratio(1, 5)) == 0;
    ghost var f := FillFrame(Packed(0x808000), Ratio(1, 5)).value;
    assert ColorBytes(Packed(0x808000)).value == [0x80, 0x80, 0];
    assert f[1] == 25 && f[2] == 25 && f[3] == 0;
    assert f == [0x72, 25, 25, 0];
    assert bus.log == [Attempt(DefaultAddress, [0x72, 25, 25, 0])];
    assert stick.retries == 0;
  }

  /** Three failures and then a success: four attempts, three retries
      counted. */
  method RetryThenSucceed() {
    var bus := new Bus([true, true, true, false]);
    var stick := new QwiicLedStick(bus);
    stick.Off();
    FailedAttemptsExact([true, true, true, false], Retries, 3);
    assert stick.retries == 3 && |bus.log| == 4;
  }

  /** Four failures: four attempts, four retries counted, and the call
      still returns with the frame lost. */
  method RetryBudgetSpent() {
    var bus := new Bus([true, true, true, true]);
    var stick := new QwiicLedStick(bus);
    stick.Off();
    FailedAttemptsExact([true, true, true, true], Retries, 4);
    assert stick.retries == 4 && |bus.log| == 4;
  }

  /** Addresses outside 0x08..0x77 are refused without effect; an accepted
      change is sent to the old address and later writes go to the new one. */
  method MoveDevice() {
    var bus := new Bus([]);
    var stick := new QwiicLedStick(bus);
    var ok := stick.ChangeAddress(0x05);
    assert !ok && bus.log == [] && stick.address == 0x23;
    ok := stick.ChangeAddress(0x78);
    assert !ok && bus.log == [] && stick.address == 0x23;
    ok := stick.ChangeAddress(0x30);
    FailedAttemptsExact([], Retries, 0);
    EncodeDecode(ChangeAddressFrame(0x30).value);
    assert ok && bus.log == [Attempt(0x23, [0xC7, 0x30])];
    stick.Off();
    assert bus.log == [Attempt(0x23, [0xC7, 0x30]), Attempt(0x30, [0x78, 0])];
  }

  /** Hardware brightness levels 0 and 31 are sent; 32 and -1 are refused. */
  method LevelBounds() {
    var bus := new Bus([]);
    var stick := new QwiicLedStick(bus);
    var r := stick.SetLedBrightness(2, 32);
    assert r == Raised(BrightnessOutOfRange);
    r := stick.SetLedBrightness(2, -1);
    assert r == Raised(BrightnessOutOfRange);
    r := stick.SetLedBrightness(2, 0);
    assert r == Returned;
    r := stick.SetLedBrightness(2, 31);
    assert r == Returned;
    r := stick.SetLedBrightness(10, 0);
    assert r == Raised(PixelOutOfRange) && |bus.log| == 2;
  }
}
