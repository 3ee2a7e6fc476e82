/**
 * The LCD_I2C driver object: an HD44780 16x2 display in 4-bit mode behind a
 * PCF8574 expander.  The I2C transport is the append-only byte sequence
 * `trace` (one element per single-byte transmission); the presence probe
 * made at start-up is the constructor's `probe` argument.
 */
module TinyLcd {
  import opened Hd44780
  import opened Expander

  /** The initialization by instruction: three 8-bit-mode nibbles, then the switch to 4-bit mode. */
  function ResetPulses(): seq<bv8>
  {
    NibblePulse(MODE_8BIT, false, 0) + NibblePulse(MODE_8BIT, false, 0) + NibblePulse(MODE_8BIT, false, 0)
    + NibblePulse(MODE_4BIT, false, 0)
  }

  /** Function set (4-bit, two lines, 5x8 font), display off, clear and entry mode, with the backlight off. */
  function Configuration(): seq<bv8>
  {
    CmdBytes(CMD_FUNC | FUNC_4BIT | FUNC_2LINES | FUNC_5x8, 0)
    + CmdBytes(CtrlCommand(DisplayOffFlags(CTRL_CURSOR_OFF | CTRL_BLINK_OFF)), 0)
    + CmdBytes(CMD_CLEAR, 0)
    + CmdBytes(CMD_EM | EM_INCREMENT | EM_DONT_SHIFT_DISPLAY, 0)
  }

  /** Backlight on (carried by a control instruction), then display on. */
  function SwitchOn(): seq<bv8>
  {
    CmdBytes(CtrlCommand(CTRL_CURSOR_OFF | CTRL_BLINK_OFF), BL_PIN)
    + CmdBytes(CtrlCommand(DisplayOnFlags(CTRL_CURSOR_OFF | CTRL_BLINK_OFF)), BL_PIN)
  }

  /** The bytes written by the constructor with a responding expander. */
  function InitTrace(): seq<bv8>
  {
    [0x00] + ResetPulses() + Configuration() + SwitchOn()
  }

  /** Appending the start-up trace is appending its parts one after the other. */
  lemma InitTraceAppended(t: seq<bv8>)
    ensures t + InitTrace() == t + [0x00] + ResetPulses() + Configuration() + SwitchOn()
  {
  }

  /**
   * The start-up trace bit for bit: a zero byte, the three 8-bit-mode pulses
   * and the 4-bit switch with the backlight off, then function set 0x28,
   * display off 0x08, clear 0x01 and entry mode 0x06 with the backlight off,
   * then 0x08 and display on 0x0C with the backlight on.
   */
  lemma InitTraceBytes()
    ensures InitTrace() == [
      0x00,
      0x34, 0x30, 0x34, 0x30, 0x34, 0x30, 0x24, 0x20,
      0x24, 0x20, 0x84, 0x80,
      0x04, 0x00, 0x84, 0x80,
      0x04, 0x00, 0x14, 0x10,
      0x04, 0x00, 0x64, 0x60,
      0x0C, 0x08, 0x8C, 0x88,
      0x0C, 0x08, 0xCC, 0xC8]
  {
    MappedPinsIsShift(0x00);
    MappedPinsIsShift(0x01);
    MappedPinsIsShift(0x02);
    MappedPinsIsShift(0x03);
    MappedPinsIsShift(0x06);
    MappedPinsIsShift(0x08);
    MappedPinsIsShift(0x0C);
  }

  /** The latch of one lone instruction nibble after a stream that left enable low. */
  lemma PulseLatch(s: seq<bv8>, n: bv8, bl: bv8)
    requires BacklightByte(bl)
    requires !EnableAfter(s, false)
    ensures Latches(s + NibblePulse(n, false, bl), false) == Latches(s, false) + [Latch(false, n & 0x0F)]
    ensures !EnableAfter(s + NibblePulse(n, false, bl), false)
  {
    NibblePulseLatches(n, false, bl, false);
    LatchesExtend(s, NibblePulse(n, false, bl));
  }

  /** The latches of one instruction after a stream that left enable low. */
  lemma CommandLatch(s: seq<bv8>, c: bv8, bl: bv8)
    requires BacklightByte(bl)
    requires !EnableAfter(s, false)
    ensures Latches(s + CmdBytes(c, bl), false) == Latches(s, false) + [Latch(false, c >> 4), Latch(false, c & 0x0F)]
    ensures !EnableAfter(s + CmdBytes(c, bl), false)
  {
    ByteFrameLatches(c, false, bl, false);
    LatchesExtend(s, CmdBytes(c, bl));
  }

  /** The latches of the four reset pulses after a stream that left enable low. */
  lemma ResetPulsesLatch(s: seq<bv8>)
    requires !EnableAfter(s, false)
    ensures Latches(s + ResetPulses(), false)
         == Latches(s, false) + [Latch(false, 0x3), Latch(false, 0x3), Latch(false, 0x3), Latch(false, 0x2)]
    ensures !EnableAfter(s + ResetPulses(), false)
  {
    var p8 := NibblePulse(MODE_8BIT, false, 0);
    var p4 := NibblePulse(MODE_4BIT, false, 0);
    PulseLatch(s, MODE_8BIT, 0);
    PulseLatch(s + p8, MODE_8BIT, 0);
    PulseLatch(s + p8 + p8, MODE_8BIT, 0);
    PulseLatch(s + p8 + p8 + p8, MODE_4BIT, 0);
    assert s + ResetPulses() == s + p8 + p8 + p8 + p4;
  }

  /** The configuration is a run of four instruction frames with the backlight off. */
  lemma ConfigurationFrames()
    ensures Configuration() == Frames([0x28, 0x08, 0x01, 0x06], false, 0)
  {
    var cs: seq<bv8> := [0x28, 0x08, 0x01, 0x06];
    assert cs[1..] == [0x08, 0x01, 0x06];
    assert cs[1..][1..] == [0x01, 0x06];
    assert cs[1..][1..][1..] == [0x06];
    assert cs[1..][1..][1..][1..] == [];
  }

  /** The latches expected for the configuration instructions. */
  lemma ConfigurationNibbles()
    ensures FrameLatches([0x28, 0x08, 0x01, 0x06], false)
         == [Latch(false, 0x2), Latch(false, 0x8), Latch(false, 0x0), Latch(false, 0x8),
             Latch(false, 0x0), Latch(false, 0x1), Latch(false, 0x0), Latch(false, 0x6)]
  {
  }

  /** The latches of the configuration after a stream that left enable low. */
  lemma ConfigurationLatch(s: seq<bv8>)
    requires !EnableAfter(s, false)
    ensures Latches(s + Configuration(), false)
         == Latches(s, false) + [Latch(false, 0x2), Latch(false, 0x8), Latch(false, 0x0), Latch(false, 0x8),
                                 Latch(false, 0x0), Latch(false, 0x1), Latch(false, 0x0), Latch(false, 0x6)]
    ensures !EnableAfter(s + Configuration(), false)
  {
    ConfigurationFrames();
    FramesLatches([0x28, 0x08, 0x01, 0x06], false, 0, false);
    ConfigurationNibbles();
    LatchesExtend(s, Configuration());
  }

  /** The latches of the switch-on instructions after a stream that left enable low. */
  lemma SwitchOnLatch(s: seq<bv8>)
    requires !EnableAfter(s, false)
    ensures Latches(s + SwitchOn(), false)
         == Latches(s, false) + [Latch(false, 0x0), Latch(false, 0x8), Latch(false, 0x0), Latch(false, 0xC)]
  {
    var c5, c6 := CmdBytes(0x08, BL_PIN), CmdBytes(0x0C, BL_PIN);
    CommandLatch(s, 0x08, BL_PIN);
    CommandLatch(s + c5, 0x0C, BL_PIN);
    assert s + SwitchOn() == s + c5 + c6;
  }

  /** The latches of the whole start-up after a stream that latched nothing and left enable low. */
  lemma StartupLatch(s: seq<bv8>)
    requires Latches(s, false) == [] && !EnableAfter(s, false)
    ensures Latches(s + ResetPulses() + Configuration() + SwitchOn(), false) == [
      Latch(false, 0x3), Latch(false, 0x3), Latch(false, 0x3), Latch(false, 0x2),
      Latch(false, 0x2), Latch(false, 0x8),
      Latch(false, 0x0), Latch(false, 0x8),
      Latch(false, 0x0), Latch(false, 0x1),
      Latch(false, 0x0), Latch(false, 0x6),
      Latch(false, 0x0), Latch(false, 0x8),
      Latch(false, 0x0), Latch(false, 0xC)]
  {
    ResetPulsesLatch(s);
    ConfigurationLatch(s + ResetPulses());
    SwitchOnLatch(s + ResetPulses() + Configuration());
  }

  /**
   * What the controller takes in during start-up: the nibbles 3, 3, 3, 2 of
   * the initialization by instruction (page 46 of the HD44780U datasheet),
   * then the instructions 0x28, 0x08, 0x01, 0x06, 0x08, 0x0C high nibble
   * first, all with register select low.
   */
  lemma InitTraceLatches()
    ensures Latches(InitTrace(), false) == [
      Latch(false, 0x3), Latch(false, 0x3), Latch(false, 0x3), Latch(false, 0x2),
      Latch(false, 0x2), Latch(false, 0x8),
      Latch(false, 0x0), Latch(false, 0x8),
      Latch(false, 0x0), Latch(false, 0x1),
      Latch(false, 0x0), Latch(false, 0x6),
      Latch(false, 0x0), Latch(false, 0x8),
      Latch(false, 0x0), Latch(false, 0xC)]
  {
    var s0: seq<bv8> := [0x00];
    assert Latches(s0, false) == [] && !EnableAfter(s0, false);
    StartupLatch(s0);
  }

  /**
   * The controller reads the cursor instruction back as "set DDRAM address"
   * with an address naming exactly the clamped cell.
   */
  lemma CursorCommandDecodes(x: bv8, y: bv8, bl: bv8, enableHigh: bool)
    requires BacklightByte(bl)
    ensures var c := CMD_SET_DDRAM | CursorAddress(x, y);
      Latches(CmdBytes(c, bl), enableHigh) == [Latch(false, c >> 4), Latch(false, c & 0x0F)] &&
      Join(c >> 4, c & 0x0F) & CMD_SET_DDRAM != 0 &&
      AddressColumn(Join(c >> 4, c & 0x0F) & !CMD_SET_DDRAM) == ClampColumn(x) &&
      AddressRow(Join(c >> 4, c & 0x0F) & !CMD_SET_DDRAM) == ClampRow(y)
  {
    var c := CMD_SET_DDRAM | CursorAddress(x, y);
    ByteFrameLatches(c, false, bl, enableHigh);
    CursorAddressDecodes(x, y);
    assert c & !CMD_SET_DDRAM == CursorAddress(x, y);
  }

  /**
   * The clear instruction is the only instruction the controller takes in:
   * two instruction nibbles 0 and 1, never a DDRAM address.
   */
  lemma ClearLatches(bl: bv8, enableHigh: bool)
    requires BacklightByte(bl)
    ensures Latches(CmdBytes(CMD_CLEAR, bl), enableHigh) == [Latch(false, 0x0), Latch(false, 0x1)]
    ensures Join(0x0, 0x1) == CMD_CLEAR && CMD_CLEAR & CMD_SET_DDRAM == 0
  {
    ByteFrameLatches(CMD_CLEAR, false, bl, enableHigh);
  }

  /** The guard of the C++ driver's print loop: an 8-bit counter compared with the string length. */
  function PrintGuard(i: bv8, msg: seq<bv8>): bool { (i as int) < |msg| }

  /** The increment of the C++ driver's 8-bit print counter, which wraps from 255 to 0. */
  function PrintCounterStep(i: bv8): bv8 { i + 1 }

  /**
   * With an 8-bit counter, a string of 256 or more characters keeps the loop
   * guard true at every counter value, so the loop never exits: after
   * character 255 the counter wraps and character 0 is printed again.
   */
  lemma PrintCounterNeverExits(msg: seq<bv8>)
    requires |msg| >= 256
    ensures forall i: bv8 :: PrintGuard(i, msg)
    ensures PrintCounterStep(255) == 0
  {
  }

  /**
   * The driver object.  The pin masks, the geometry and the bus address are
   * fixed by the constructor; `ctrlFlags` caches the last flags of the
   * control instruction and `backlightStatus` the byte ORed into every write.
   */
  class LcdI2c {
    const i2cAddr: bv8
    const width: bv8
    const height: bv8
    const registerSelectPin: bv8
    const enablePin: bv8
    const backlightPin: bv8
    const dataPin: seq<bv8>

    var isReady: bool
    var ctrlFlags: bv8
    var backlightStatus: bv8

    /** Every byte handed to the transport, oldest first. */
    var trace: seq<bv8>

    /** The fixed wiring and geometry. */
    ghost predicate PinsFixed()
    {
      registerSelectPin == RS_PIN && enablePin == EN_PIN && backlightPin == BL_PIN &&
      dataPin == DATA_PINS &&
      width == WIDTH && height == HEIGHT
    }

    /** The object invariant: fixed wiring, and a well-formed backlight byte once the device answered. */
    ghost predicate Valid()
      reads this`isReady, this`backlightStatus
    {
      PinsFixed() && (isReady ==> BacklightByte(backlightStatus))
    }

    /**
     * Construction with the result of the presence probe.  With a responding
     * device the start-up sequence is written and the display and the
     * backlight are on; otherwise nothing is written and the cached flags
     * are left undetermined.
     */
    constructor (i2cAddr: bv8, probe: bool)
      ensures Valid()
      ensures this.i2cAddr == i2cAddr
      ensures isReady == probe
      ensures trace == if probe then InitTrace() else []
      ensures probe ==> ctrlFlags == CTRL_DISPLAY_ON && backlightStatus == backlightPin
    {
      isReady := false;
      this.i2cAddr := i2cAddr;
      width := 16;
      height := 2;
      registerSelectPin := 1 << 0;
      enablePin := 1 << 2;
      backlightPin := 1 << 3;
      dataPin := [1 << 4, 1 << 5, 1 << 6, 1 << 7];
      trace := [];
      new;
      InitHD44780(probe);
    }

    /**
     * Probe the device, then run the initialization by instruction if it
     * answered.  Private in the C++ driver and called only by the
     * constructor; the promise that a failed probe keeps the display silent
     * is about the public operations, which never call this.
     */
    method InitHD44780(probe: bool)
      requires PinsFixed()
      modifies this`isReady, this`ctrlFlags, this`backlightStatus, this`trace
      ensures Valid()
      ensures isReady == probe
      ensures trace == old(trace) + (if probe then InitTrace() else [])
      ensures probe ==> ctrlFlags == CTRL_DISPLAY_ON && backlightStatus == backlightPin
      ensures !probe ==> ctrlFlags == old(ctrlFlags) && backlightStatus == old(backlightStatus)
    {
      var ready := InitI2C(probe);
      if ready {
        backlightStatus := 0;
        SendResetPulses();
        SendConfiguration();
        ghost var t := trace;
        BacklightOn();
        DisplayOn();
        assert trace == t + SwitchOn();
        InitTraceAppended(old(trace));
      }
    }

    /**
     * The first part of the initialization by instruction: three "function
     * set, 8-bit" nibbles, then the "function set, 4-bit" nibble, each sent
     * as a lone nibble because the controller is not yet in 4-bit mode.
     */
    method SendResetPulses()
      requires Valid() && backlightStatus == 0
      modifies this`trace
      ensures trace == old(trace) + (if isReady then ResetPulses() else [])
    {
      SendCmdNibble(MODE_8BIT);
      SendCmdNibble(MODE_8BIT);
      SendCmdNibble(MODE_8BIT);
      SendCmdNibble(MODE_4BIT);
    }

    /**
     * In 4-bit mode: function set, display off with cursor and blink off,
     * clear, and entry mode; the cached flags end with the display bit clear.
     */
    method SendConfiguration()
      requires Valid() && backlightStatus == 0
      modifies this`ctrlFlags, this`trace
      ensures ctrlFlags == CTRL_CURSOR_OFF | CTRL_BLINK_OFF
      ensures trace == old(trace) + (if isReady then Configuration() else [])
    {
      SendCmd(CMD_FUNC | FUNC_4BIT | FUNC_2LINES | FUNC_5x8);
      ctrlFlags := CTRL_CURSOR_OFF | CTRL_BLINK_OFF;
      DisplayOff();
      Clear();
      SendCmd(CMD_EM | EM_INCREMENT | EM_DONT_SHIFT_DISPLAY);
    }

    /** Record the probe result; a responding device first gets a zero byte.  Private, called only by `InitHD44780`. */
    method InitI2C(probe: bool) returns (ready: bool)
      modifies this`isReady, this`trace
      ensures ready == probe && isReady == probe
      ensures trace == old(trace) + (if probe then [0x00] else [])
    {
      isReady := probe;
      if isReady {
        WriteI2C(0);
      }
      ready := isReady;
    }

    /** One single-byte transmission, suppressed while the device is not ready.  Private, called by the nibble writes and `InitI2C`. */
    method WriteI2C(value: bv8)
      modifies this`trace
      ensures trace == old(trace) + (if isReady then [value] else [])
    {
      if isReady {
        trace := trace + [value];
      }
    }

    /**
     * Scatter the low nibble of `value` onto the data outputs listed in
     * `dataPin`; the 8-bit counter and shifted copy follow the driver's loop.
     */
    method MapPins(value: bv8) returns (mapped: bv8)
      requires Valid()
      ensures mapped == MappedPins(value)
      ensures mapped == (value & 0x0F) << 4
    {
      var rest := value;
      mapped := 0;
      var i: bv8 := 0;
      while i < 4
        invariant i <= 4
        invariant rest == value >> i
        invariant mapped == (value & ((1 << i) - 1)) << 4
      {
        assert dataPin[i] == 1 << (i + 4);
        if rest & 0x1 == 1 {
          mapped := mapped | dataPin[i];
        }
        rest := rest >> 1;
        i := i + 1;
      }
      MappedPinsIsShift(value);
    }

    /** A data nibble: mapped data bits, register select and backlight, pulsed on enable. */
    method WriteDataNibble(value: bv8)
      requires Valid()
      modifies this`trace
      ensures trace == old(trace) + (if isReady then NibblePulse(value, true, backlightStatus) else [])
    {
      var m := MapPins(value);
      var mapped := m | registerSelectPin | backlightStatus;
      WriteI2C(mapped | enablePin);
      WriteI2C(mapped & !enablePin);
    }

    /** An instruction nibble: mapped data bits and backlight, pulsed on enable. */
    method WriteCmdNibble(value: bv8)
      requires Valid()
      modifies this`trace
      ensures trace == old(trace) + (if isReady then NibblePulse(value, false, backlightStatus) else [])
    {
      var m := MapPins(value);
      var mapped := m | backlightStatus;
      WriteI2C(mapped | enablePin);
      WriteI2C(mapped & !enablePin);
    }

    /** A lone instruction nibble, as used before 4-bit mode is established. */
    method SendCmdNibble(value: bv8)
      requires Valid()
      modifies this`trace
      ensures trace == old(trace) + (if isReady then NibblePulse(value & 0x0F, false, backlightStatus) else [])
    {
      WriteCmdNibble(value & 0x0F);
    }

    /** An instruction byte, high nibble first. */
    method SendCmd(value: bv8)
      requires Valid()
      modifies this`trace
      ensures trace == old(trace) + (if isReady then CmdBytes(value, backlightStatus) else [])
    {
      WriteCmdNibble(value >> 4);
      WriteCmdNibble(value & 0x0F);
    }

    /** A character byte, high nibble first. */
    method PrintChar(value: bv8)
      requires Valid()
      modifies this`trace
      ensures trace == old(trace) + (if isReady then DataBytes(value, backlightStatus) else [])
    {
      WriteDataNibble(value >> 4);
      WriteDataNibble(value & 0x0F);
    }

    /**
     * The characters of a C string before its terminating NUL, each as a
     * character frame.  The counter is unbounded, so every string is printed
     * in full; the C++ driver's 8-bit counter is `PrintCounterStep`, above.
     */
    method Print(msg: seq<bv8>)
      requires Valid()
      requires forall k :: 0 <= k < |msg| ==> msg[k] != 0
      modifies this`trace
      ensures trace == old(trace) + (if isReady then Frames(msg, true, backlightStatus) else [])
    {
      var i: nat := 0;
      while i < |msg|
        invariant i <= |msg|
        invariant isReady ==> trace == old(trace) + Frames(msg[..i], true, backlightStatus)
        invariant !isReady ==> trace == old(trace)
      {
        PrintChar(msg[i]);
        FramesPrefixStep(msg, i, true, backlightStatus);
        i := i + 1;
      }
      assert msg[..i] == msg;
    }

    /** The clear instruction; the controller homes the cursor by itself. */
    method Clear()
      requires Valid()
      modifies this`trace
      ensures trace == old(trace) + (if isReady then CmdBytes(CMD_CLEAR, backlightStatus) else [])
    {
      SendCmd(CMD_CLEAR);
    }

    /** Move the cursor; out-of-range coordinates are clamped to the last column and row. */
    method SetCursor(x: bv8, y: bv8)
      requires Valid()
      modifies this`trace
      ensures trace == old(trace) + (if isReady then CmdBytes(CMD_SET_DDRAM | CursorAddress(x, y), backlightStatus) else [])
    {
      var col, row := x, y;
      if col >= width {
        col := width - 1;
      }
      if row >= height {
        row := height - 1;
      }
      SendCmd(CMD_SET_DDRAM | (col + row * 0x40));
    }

    /** Backlight on, propagated by re-sending the control instruction. */
    method BacklightOn()
      requires Valid()
      modifies this`backlightStatus, this`trace
      ensures Valid()
      ensures backlightStatus == backlightPin
      ensures trace == old(trace) + (if isReady then CmdBytes(CtrlCommand(ctrlFlags), backlightStatus) else [])
    {
      backlightStatus := backlightPin;
      SendCmd(CMD_CTRL | ctrlFlags);
    }

    /** Backlight off, propagated by re-sending the control instruction. */
    method BacklightOff()
      requires Valid()
      modifies this`backlightStatus, this`trace
      ensures Valid()
      ensures backlightStatus == 0
      ensures trace == old(trace) + (if isReady then CmdBytes(CtrlCommand(ctrlFlags), backlightStatus) else [])
    {
      backlightStatus := 0;
      SendCmd(CMD_CTRL | ctrlFlags);
    }

    /** Set the display bit of the cached flags and send the control instruction. */
    method DisplayOn()
      requires Valid()
      modifies this`ctrlFlags, this`trace
      ensures ctrlFlags == DisplayOnFlags(old(ctrlFlags))
      ensures trace == old(trace) + (if isReady then CmdBytes(CtrlCommand(ctrlFlags), backlightStatus) else [])
    {
      ctrlFlags := ctrlFlags | CTRL_DISPLAY_ON;
      SendCmd(CMD_CTRL | ctrlFlags);
    }

    /** Clear the display bit of the cached flags and send the control instruction. */
    method DisplayOff()
      requires Valid()
      modifies this`ctrlFlags, this`trace
      ensures ctrlFlags == DisplayOffFlags(old(ctrlFlags))
      ensures trace == old(trace) + (if isReady then CmdBytes(CtrlCommand(ctrlFlags), backlightStatus) else [])
    {
      ctrlFlags := ctrlFlags & !CTRL_DISPLAY_ON;
      SendCmd(CMD_CTRL | ctrlFlags);
    }
  }

  /**
   * Without a responding device nothing ever reaches the bus: construction
   * and every public operation leave the trace empty.
   */
  method FailedProbeIsSilent(i2cAddr: bv8, x: bv8, y: bv8, msg: seq<bv8>, c: bv8) returns (t: seq<bv8>)
    requires forall k :: 0 <= k < |msg| ==> msg[k] != 0
    ensures t == []
  {
    var lcd := new LcdI2c(i2cAddr, false);
    lcd.Clear();
    lcd.SetCursor(x, y);
    lcd.Print(msg);
    lcd.PrintChar(c);
    lcd.BacklightOff();
    lcd.BacklightOn();
    lcd.DisplayOff();
    lcd.DisplayOn();
    t := lcd.trace;
  }

  /**
   * A responding display: after start-up, a cursor request past the last
   * column lands on the last cell of row 0 (DDRAM 0x0F), and the character
   * follows with the backlight bit still set.
   */
  method CursorClampedThenChar(c: bv8) returns (t: seq<bv8>)
    ensures t == InitTrace() + CmdBytes(0x8F, BL_PIN) + DataBytes(c, BL_PIN)
  {
    var lcd := new LcdI2c(0x27, true);
    lcd.SetCursor(16, 0);
    lcd.PrintChar(c);
    t := lcd.trace;
  }
}
