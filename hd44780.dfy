/**
 * The part of the HD44780 instruction set that the driver sends
 * (the instruction table on page 24 of the Hitachi HD44780U datasheet),
 * the DDRAM addressing of a 16x2 display, and the cached
 * "display on/off control" flags.
 */
module Hd44780 {

  // Instruction codes: the most significant set bit selects the instruction.
  const CMD_CLEAR: bv8 := 0x01
  const CMD_EM: bv8 := 0x04
  const CMD_CTRL: bv8 := 0x08
  const CMD_FUNC: bv8 := 0x20
  const CMD_SET_DDRAM: bv8 := 0x80

  // Flags of "entry mode set".
  const EM_DONT_SHIFT_DISPLAY: bv8 := 0x00
  const EM_INCREMENT: bv8 := 0x02

  // Flags of "display on/off control".
  const CTRL_BLINK_OFF: bv8 := 0x00
  const CTRL_CURSOR_OFF: bv8 := 0x00
  const CTRL_DISPLAY_ON: bv8 := 0x04

  // Flags of "function set".
  const FUNC_5x8: bv8 := 0x00
  const FUNC_2LINES: bv8 := 0x08
  const FUNC_4BIT: bv8 := 0x00
  const FUNC_8BIT: bv8 := 0x10

  /** The single nibble of "function set" that selects 4-bit or 8-bit mode. */
  const MODE_4BIT: bv8 := CMD_FUNC >> 4
  const MODE_8BIT: bv8 := (CMD_FUNC | FUNC_8BIT) >> 4

  /** The fixed display geometry. */
  const WIDTH: bv8 := 16
  const HEIGHT: bv8 := 2

  /** DDRAM address of the first cell of row 1 on a two-row display. */
  const ROW_OFFSET: bv8 := 0x40

  /**
   * The "display on/off control" instruction carrying the given flags: its
   * low three bits are the display, cursor and blink flags, and for flags
   * within those bits the instruction is read back as CMD_CTRL.
   */
  function CtrlCommand(flags: bv8): (c: bv8)
    ensures c & 0x07 == flags & 0x07
    ensures flags & 0xF8 == 0 ==> c & 0xF8 == CMD_CTRL
  {
    CMD_CTRL | flags
  }

  /** The cached flags after `displayOn`: only the display bit changes, and it is set. */
  function DisplayOnFlags(flags: bv8): (r: bv8)
    ensures r & CTRL_DISPLAY_ON == CTRL_DISPLAY_ON
    ensures r & !CTRL_DISPLAY_ON == flags & !CTRL_DISPLAY_ON
  {
    flags | CTRL_DISPLAY_ON
  }

  /** The cached flags after `displayOff`: only the display bit changes, and it is cleared. */
  function DisplayOffFlags(flags: bv8): (r: bv8)
    ensures r & CTRL_DISPLAY_ON == 0
    ensures r & !CTRL_DISPLAY_ON == flags & !CTRL_DISPLAY_ON
  {
    flags & !CTRL_DISPLAY_ON
  }

  /** Turning the display on a second time leaves the flags as they are. */
  lemma DisplayOnIdempotent(flags: bv8)
    ensures DisplayOnFlags(DisplayOnFlags(flags)) == DisplayOnFlags(flags)
    ensures flags & CTRL_DISPLAY_ON != 0 ==> DisplayOnFlags(flags) == flags
  {
  }

  /** Off then on, or on then off, restores the flags whenever the display bit was already in that state. */
  lemma DisplayOnOffRoundTrip(flags: bv8)
    ensures flags & CTRL_DISPLAY_ON != 0 ==> DisplayOnFlags(DisplayOffFlags(flags)) == flags
    ensures flags & CTRL_DISPLAY_ON == 0 ==> DisplayOffFlags(DisplayOnFlags(flags)) == flags
  {
  }

  /** The column a cursor request is clamped to. */
  function ClampColumn(x: bv8): (c: bv8)
    ensures c < WIDTH
    ensures x < WIDTH ==> c == x
    ensures x >= WIDTH ==> c == WIDTH - 1
  {
    if x >= WIDTH then WIDTH - 1 else x
  }

  /** The row a cursor request is clamped to. */
  function ClampRow(y: bv8): (r: bv8)
    ensures r < HEIGHT
    ensures y < HEIGHT ==> r == y
    ensures y >= HEIGHT ==> r == HEIGHT - 1
  {
    if y >= HEIGHT then HEIGHT - 1 else y
  }

  /** The DDRAM address `setCursor(x, y)` selects. */
  function CursorAddress(x: bv8, y: bv8): (a: bv8)
    ensures a <= 0x0F || (0x40 <= a && a <= 0x4F)
  {
    ClampColumn(x) + ClampRow(y) * ROW_OFFSET
  }

  /** The screen cell a DDRAM address of the visible area shows. */
  function AddressColumn(a: bv8): bv8 { a & 0x3F }
  function AddressRow(a: bv8): bv8 { a >> 6 }

  /**
   * The address of a cursor request names exactly the clamped cell,
   * and the address bits never reach the SET_DDRAM opcode bit.
   */
  lemma CursorAddressDecodes(x: bv8, y: bv8)
    ensures AddressColumn(CursorAddress(x, y)) == ClampColumn(x)
    ensures AddressRow(CursorAddress(x, y)) == ClampRow(y)
    ensures CursorAddress(x, y) & CMD_SET_DDRAM == 0
  {
  }

  /** Two requests land on the same address exactly when they clamp to the same cell. */
  lemma CursorAddressInjective(x1: bv8, y1: bv8, x2: bv8, y2: bv8)
    ensures CursorAddress(x1, y1) == CursorAddress(x2, y2)
        <==> ClampColumn(x1) == ClampColumn(x2) && ClampRow(y1) == ClampRow(y2)
  {
    CursorAddressDecodes(x1, y1);
    CursorAddressDecodes(x2, y2);
  }

  /** Out-of-range coordinates behave as the last column or row. */
  lemma CursorClamps(x: bv8, y: bv8)
    ensures x >= WIDTH ==> CursorAddress(x, y) == CursorAddress(WIDTH - 1, y)
    ensures y >= HEIGHT ==> CursorAddress(x, y) == CursorAddress(x, HEIGHT - 1)
    ensures CursorAddress(16, 0) == CursorAddress(15, 0)
    ensures CursorAddress(0, 2) == CursorAddress(0, 1)
  {
  }
}
