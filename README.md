# TinyLCD `LCD_I2C` in Dafny

A model of the `LCD_I2C` driver. The driver runs an HD44780 16x2 character
display in 4-bit mode through a PCF8574 I2C port expander, and it emits every
instruction and every character as single-byte writes to the expander.

- `hd44780.dfy` (module `Hd44780`) covers what the driver uses of the
  controller:
  - the instruction and flag constants;
  - the cached "display on/off control" flags;
  - cursor clamping and the DDRAM address of a 2-row display.
- `expander.dfy` (module `Expander`) covers the wiring of the expander
  outputs and the byte encoding:
  - the bit-scatter of a nibble onto D4..D7;
  - the enable pulse that writes one nibble;
  - the high-then-low framing of a byte, and runs of frames.

  As an independent reading of those bytes, `Latches` decodes a byte stream
  the way the controller does. On every falling edge of the enable line it
  takes in the data lines and the register-select line. The encoding lemmas
  prove that every frame is read back as the nibbles that were meant.
- `lcd_i2c.dfy` (module `TinyLcd`) covers two things:
  - the driver object `LcdI2c`, whose fields and methods follow the C++
    class;
  - the start-up byte sequence and what the controller takes in from it.

The bus is modelled as the field `trace`, which holds every byte handed to
the transport, oldest first. Whether a device answered the presence probe
is the constructor argument `probe`. Every method that writes to the bus is
proved against trace functions: `NibblePulse`, `CmdBytes`, `DataBytes`, `Frames` and `InitTrace`.
Every byte and every mask is a `bv8`, so the `uint8_t` arithmetic on them
wraps exactly as in the C++ driver. The one exception is the `uint8_t`
character counter of `print`, which is an unbounded counter in `Print`
(see "## Left out" and "## Findings").

## Model

| member | source | states |
|---|---|---|
| Hd44780.CtrlCommand | LCD_I2C.cpp:16 | the control instruction carries the flags in its low three bits and, for flags within those bits, reads back as CMD_CTRL |
| Hd44780.DisplayOnFlags | LCD_I2C.cpp:177-180 | `displayOn` sets the display bit and leaves every other flag bit unchanged |
| Hd44780.DisplayOffFlags | LCD_I2C.cpp:182-185 | `displayOff` clears the display bit and leaves every other flag bit unchanged |
| Hd44780.DisplayOnIdempotent | LCD_I2C.cpp:177-180 | a second `displayOn` leaves the flags as they are, and so does one on flags that already have the display bit |
| Hd44780.DisplayOnOffRoundTrip | LCD_I2C.cpp:177-185 | off then on restores flags whose display bit was set, and on then off restores flags whose display bit was clear |
| Hd44780.ClampColumn | LCD_I2C.cpp:158 | the column is below the width: an in-range x is kept, anything else becomes the last column |
| Hd44780.ClampRow | LCD_I2C.cpp:159 | the row is below the height: an in-range y is kept, anything else becomes the last row |
| Hd44780.CursorAddress | LCD_I2C.h:18-19 | the address always lies in the visible area, DDRAM 0x00-0x0F or 0x40-0x4F |
| Hd44780.CursorAddressDecodes | LCD_I2C.cpp:156-162 | the address decodes to exactly the clamped column and row, and never touches the SET_DDRAM opcode bit |
| Hd44780.CursorAddressInjective | LCD_I2C.cpp:156-162 | two cursor requests give the same address if and only if they clamp to the same cell |
| Hd44780.CursorClamps | LCD_I2C.cpp:158-159 | out-of-range coordinates behave as the last column or row; (16,0) is (15,0) and (0,2) is (0,1) |
| Expander.Scatter | LCD_I2C.cpp:219-228 | reference definition of the `mapPins` loop: bit i of the value switches on output `pins[i]`, for i below the number of pins |
| Expander.MappedPins | LCD_I2C.cpp:219-228 | the scatter of a value onto the fixed data outputs `_dataPin[0..3]` of LCD_I2C.cpp:78-81 |
| Expander.NibblePulse | LCD_I2C.cpp:189-208 | reference definition of one nibble write: the mapped nibble ORed with register select for data and with the backlight byte, sent with enable set and then with enable cleared |
| Expander.ByteFrame | LCD_I2C.cpp:214-217 | reference definition of one byte in 4-bit mode: the pulse of the high nibble, then the pulse of the low nibble |
| Expander.CmdBytes | LCD_I2C.cpp:214-217 | the frame `sendCmd` sends: register select low |
| Expander.DataBytes | LCD_I2C.cpp:230-233 | the frame `printChar` sends: register select high |
| Expander.Frames | LCD_I2C.cpp:235-239 | reference definition of a run of frames: the frames of the bytes, one after the other, as `print` sends the characters |
| Expander.PinsDisjoint | LCD_I2C.cpp:75-81 | the seven assigned outputs are single bits, pairwise disjoint |
| Expander.MappedPinsIsShift | LCD_I2C.cpp:219-228 | with D4..D7 on outputs 4..7, the scatter of bit i onto `_dataPin[i]` is the low nibble shifted left by 4 |
| Expander.MappedPinsLayout | LCD_I2C.cpp:190-191 | the mapped nibble has no bit in the low nibble (RS, enable, backlight, output 1), reads back as the input's low nibble, and ignores the input's high bits |
| Expander.MappedPinsInjective | LCD_I2C.cpp:219-228 | two values map to the same outputs if and only if their low nibbles are equal |
| Expander.NibblePulseLines | LCD_I2C.cpp:189-208 | a nibble write is two bytes with the same data, register-select and backlight lines; the first has enable high and the second enable low; output 1 stays clear |
| Expander.ByteFrameLines | LCD_I2C.cpp:214-217 | a byte is four writes, the pulse of the high nibble and then that of the low nibble; every write has register select exactly for data and the backlight bit exactly when it is on |
| Expander.LatchesAppend | LCD_I2C.cpp:260-270 | reading two consecutive byte streams is reading the first and then the second from the enable level the first left |
| Expander.EnableAfterAppend | LCD_I2C.cpp:260-270 | the enable level after two streams is the level the second leaves when started from the first's |
| Expander.LatchesExtend | LCD_I2C.cpp:260-270 | after a stream that left enable low, the latches of a continuation are just appended |
| Expander.NibblePulseLatches | LCD_I2C.cpp:197-199 | one enable pulse makes the controller latch exactly the nibble once, with the right register select, and leaves enable low |
| Expander.ByteFrameLatches | LCD_I2C.cpp:214-217 | a byte frame is latched as its high nibble then its low nibble, which join back into the byte |
| Expander.FramesSnoc | LCD_I2C.cpp:235-239 | one more character appends exactly its frame |
| Expander.FramesPrefixStep | LCD_I2C.cpp:236-237 | the frames of a one-longer prefix are the shorter prefix's frames followed by the next byte's frame |
| Expander.FramesLines | LCD_I2C.h:63-67 | a run is four writes per byte; for printed text every write has register select set (no instruction is sent) and the backlight bit exactly when it is on |
| Expander.FramesLatches | LCD_I2C.cpp:235-239 | the controller latches a run byte by byte, high nibble first, and enable ends low |
| TinyLcd.ResetPulses | LCD_I2C.cpp:113-122 | the reset phase: three lone "function set, 8-bit" nibbles and the "function set, 4-bit" nibble, with the backlight off |
| TinyLcd.Configuration | LCD_I2C.cpp:126-137 | the configuration phase: function set, display off, clear and entry mode, with the backlight off |
| TinyLcd.SwitchOn | LCD_I2C.cpp:143-144 | the switch-on phase: the control instruction carrying the backlight, then display on, with the backlight on |
| TinyLcd.InitTrace | LCD_I2C.cpp:102-145 | the bytes the start-up writes to a responding device: the zero byte of LCD_I2C.cpp:253-255, then the three phases in order |
| TinyLcd.InitTraceAppended | LCD_I2C.cpp:102-145 | proof helper for `InitHD44780`: the start-up trace appended to a trace is its four phases appended one after the other (sequence associativity) |
| TinyLcd.InitTraceBytes | LCD_I2C.cpp:102-145 | the start-up trace bit for bit: 0x00; the nibbles 3, 3, 3, 2 with the backlight off; then 0x28, 0x08, 0x01 and 0x06 with the backlight off; then 0x08 and 0x0C with the backlight on |
| TinyLcd.PulseLatch | LCD_I2C.cpp:210-212 | a lone instruction nibble after a quiet stream adds exactly its latch |
| TinyLcd.CommandLatch | LCD_I2C.cpp:214-217 | an instruction after a quiet stream adds exactly its two nibble latches |
| TinyLcd.ResetPulsesLatch | LCD_I2C.cpp:113-122 | the reset phase adds the latches 3, 3, 3, 2 |
| TinyLcd.ConfigurationFrames | LCD_I2C.cpp:126-137 | the configuration phase is the run of instructions 0x28, 0x08, 0x01 and 0x06 with the backlight off |
| TinyLcd.ConfigurationLatch | LCD_I2C.cpp:126-137 | the configuration phase adds the latches of 0x28, 0x08, 0x01 and 0x06 |
| TinyLcd.SwitchOnLatch | LCD_I2C.cpp:143-144 | the switch-on phase adds the latches of 0x08 and 0x0C |
| TinyLcd.StartupLatch | LCD_I2C.cpp:102-145 | after a stream that latched nothing, start-up latches the 16 nibbles in order |
| TinyLcd.InitTraceLatches | LCD_I2C.cpp:102-145 | the controller takes in the initialization by instruction (page 46 of the HD44780U datasheet), then the six instructions, each with register select low |
| TinyLcd.CursorCommandDecodes | LCD_I2C.cpp:156-162 | the controller reads the cursor instruction as "set DDRAM address" with an address naming exactly the clamped cell |
| TinyLcd.ClearLatches | LCD_I2C.h:41-44 | `clear` makes the controller take in only the clear instruction 0x01 and no DDRAM address |
| TinyLcd.PrintGuard | LCD_I2C.cpp:236 | the as-written loop guard `i < strlen(msg)` with an 8-bit counter |
| TinyLcd.PrintCounterStep | LCD_I2C.cpp:236 | the as-written step `i++` of the 8-bit counter, wrapping at 256 |
| TinyLcd.PrintCounterNeverExits | LCD_I2C.cpp:236 | with the 8-bit counter, the loop guard holds for every counter value once the string has 256 characters or more, and the counter wraps from 255 to 0 |
| TinyLcd.LcdI2c.constructor | LCD_I2C.cpp:64-84 | the bus address is kept; the object is ready exactly when the probe answered; the trace is the start-up trace or empty; a ready display ends with the display on and the backlight at `_backlightPin` (LCD_I2C.h:36-39) |
| TinyLcd.LcdI2c.InitHD44780 | LCD_I2C.cpp:102-148 | with an answer, the start-up trace is appended and the flags end as display on and backlight on; without one, nothing is written and the flags are untouched |
| TinyLcd.LcdI2c.SendResetPulses | LCD_I2C.cpp:113-122 | appends the four lone nibbles of the reset phase |
| TinyLcd.LcdI2c.SendConfiguration | LCD_I2C.cpp:126-137 | appends the configuration phase and leaves the cached flags at cursor off, blink off and display off |
| TinyLcd.LcdI2c.InitI2C | LCD_I2C.cpp:241-258 | readiness is the probe result, and a ready device first gets one zero byte |
| TinyLcd.LcdI2c.WriteI2C | LCD_I2C.cpp:260-270 | appends the byte when ready and nothing otherwise |
| TinyLcd.LcdI2c.MapPins | LCD_I2C.cpp:219-228 | the 4-step loop computes the scatter onto `_dataPin`, which is `(value & 0x0F) << 4` |
| TinyLcd.LcdI2c.WriteDataNibble | LCD_I2C.cpp:189-200 | appends the data pulse of the nibble, with register select and the current backlight byte |
| TinyLcd.LcdI2c.WriteCmdNibble | LCD_I2C.cpp:202-208 | appends the instruction pulse of the nibble, with the current backlight byte |
| TinyLcd.LcdI2c.SendCmdNibble | LCD_I2C.cpp:210-212 | appends the pulse of the value's low nibble only |
| TinyLcd.LcdI2c.SendCmd | LCD_I2C.cpp:214-217 | appends the instruction frame of the byte |
| TinyLcd.LcdI2c.PrintChar | LCD_I2C.cpp:230-233 | appends the character frame of the byte |
| TinyLcd.LcdI2c.Print | LCD_I2C.cpp:235-239 | appends the character frames of every character of the string, in order |
| TinyLcd.LcdI2c.Clear | LCD_I2C.cpp:151-154 | appends the clear instruction frame and nothing else (LCD_I2C.h:41-44) |
| TinyLcd.LcdI2c.SetCursor | LCD_I2C.cpp:156-162 | appends the frame of SET_DDRAM with the clamped cell's address |
| TinyLcd.LcdI2c.BacklightOn | LCD_I2C.cpp:164-169 | the backlight byte becomes `_backlightPin`, the flags are untouched, and the control instruction with the cached flags is re-sent carrying the new backlight bit (LCD_I2C.h:87) |
| TinyLcd.LcdI2c.BacklightOff | LCD_I2C.cpp:171-175 | the backlight byte becomes 0, the flags are untouched, and the control instruction with the cached flags is re-sent without the backlight bit |
| TinyLcd.LcdI2c.DisplayOn | LCD_I2C.cpp:177-180 | the flags gain the display bit, and the last command sent is CMD_CTRL with the new flags |
| TinyLcd.LcdI2c.DisplayOff | LCD_I2C.cpp:182-185 | the flags lose the display bit, and the last command sent is CMD_CTRL with the new flags |
| TinyLcd.FailedProbeIsSilent | LCD_I2C.cpp:146-148 | without an answer, construction and all public operations leave the trace empty (LCD_I2C.cpp:260-261) |
| TinyLcd.CursorClampedThenChar | LCD_I2C.cpp:156-162 | on a started display, `setCursor(16, 0)` sends SET_DDRAM 0x0F and a character follows with the backlight on |

## Left out

- The `Wire` transport (`begin`, `requestFrom`, `read`, `beginTransmission`, `write`, `endTransmission`) is not modelled. The probe result is the constructor argument, and each transmission is one element appended to `trace`.
- The status returned by `endTransmission` is ignored by the source and is not modelled.
- The ESP8266 bus-clock setting is a platform option with no effect on the bytes, and is left out.
- Delays (`delay`, `delayMicroseconds`, CLEAR_WAIT_MS) are left out; the model has no time.
- Controller-side state (DDRAM contents, the internal cursor, what the screen shows) is not kept by the driver and is not modelled. `Latches` reads only which nibbles the controller takes in.
- The constants that are never sent are left out. These are CMD_HOME, CMD_SHIFT, CMD_SET_CGRAM, SHIFT_RIGHT, SHIFT_DISPLAY, FUNC_5x10, EM_DO_SHIFT_DISPLAY, CTRL_BLINK_ON and CTRL_CURSOR_ON, and the unused zero-valued constants CTRL_DISPLAY_OFF, SHIFT_LEFT, SHIFT_CURSOR, FUNC_1LINE and EM_DECREMENT. The zero-valued constants that the start-up expressions use (EM_DONT_SHIFT_DISPLAY, CTRL_BLINK_OFF, CTRL_CURSOR_OFF, FUNC_5x8, FUNC_4BIT) are modelled.
- TinyLcd.LcdI2c.constructor: when the probe fails, `ctrlFlags` and `backlightStatus` stay uninitialised, as in the source. The contract says nothing about them because no byte is ever sent.
- `_isReady` is a `size_t` holding the byte count from `requestFrom`; it is modelled as a boolean, because it is only ever tested for being non-zero.
- TinyLcd.LcdI2c.InitHD44780, TinyLcd.LcdI2c.InitI2C and TinyLcd.LcdI2c.WriteI2C are private in the C++ class, but a Dafny client of `LcdI2c` can call them. Calling `InitHD44780(true)` on an object whose probe failed makes it ready. So the promise that a failed probe stays silent (`FailedProbeIsSilent`) covers construction and the public operations only.
- `print` takes the characters of the C string before its NUL as a sequence of non-zero bytes.
- TinyLcd.LcdI2c.Print: its counter is unbounded, so the model prints every string in full. The C++ driver's 8-bit counter does not terminate for 256 characters or more (see Findings).
- TinyLcd.LcdI2c.InitHD44780: the reset and configuration phases are the helper methods `SendResetPulses` and `SendConfiguration`. They make the same calls in the same order as the C++ driver's single function body, and exist so each proof stays small.
- `_dataPin[4]` is modelled as an immutable sequence of four masks, because the C++ driver writes it only in the constructor.

## Findings

| source | as written | input that shows it | evidently intended | confidence | as-written member | corrected member |
|---|---|---|---|---|---|---|
| LCD_I2C.cpp:236 | the `print` loop counter is `uint8_t` and is compared with `strlen(msg)` | any string of 256 or more characters: after index 255 the counter wraps to 0, the guard `i < strlen(msg)` stays true, and the loop prints characters 0 to 255 over and over, never reaching index 256 or returning | print every character of the string once, then return | high (not executed) | TinyLcd.PrintGuard, TinyLcd.PrintCounterStep, TinyLcd.PrintCounterNeverExits | TinyLcd.LcdI2c.Print |
