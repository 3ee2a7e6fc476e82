/**
 * The wiring of the PCF8574 expander to the HD44780 and the byte encoding
 * of the 4-bit interface: which expander output carries which LCD line, how a
 * nibble is scattered onto the data outputs, the enable pulse that writes
 * one nibble, and the high-then-low framing of a whole byte.
 *
 * As the partner of the encoding, `Latches` reads a byte stream the way the
 * controller does: it takes in the data lines and the register-select line
 * whenever the enable line falls.
 */
module Expander {

  /** Expander outputs of the control lines and of the four data lines D4..D7. */
  const RS_PIN: bv8 := 1 << 0
  const EN_PIN: bv8 := 1 << 2
  const BL_PIN: bv8 := 1 << 3
  const DATA_PINS: seq<bv8> := [1 << 4, 1 << 5, 1 << 6, 1 << 7]

  /** All seven assigned outputs: register select, enable, backlight, D4..D7. */
  function AllPins(): seq<bv8> { [RS_PIN, EN_PIN, BL_PIN] + DATA_PINS }

  predicate SingleBit(m: bv8) { m != 0 && m & (m - 1) == 0 }

  /** The assigned outputs are single bits and no two of them share a bit. */
  lemma PinsDisjoint()
    ensures |AllPins()| == 7
    ensures forall i :: 0 <= i < 7 ==> SingleBit(AllPins()[i])
    ensures forall i, j :: 0 <= i < j < 7 ==> AllPins()[i] & AllPins()[j] == 0
  {
  }

  /** The backlight byte ORed into every write: backlight off or on. */
  predicate BacklightByte(bl: bv8) { bl == 0 || bl == BL_PIN }

  /**
   * Bit-scatter: logical bit i of `value` (i < |pins|) switches on output
   * `pins[i]`; the other bits of `value` are not looked at.
   */
  function Scatter(value: bv8, pins: seq<bv8>): bv8
    decreases |pins|
  {
    if pins == [] then 0
    else (if value & 1 == 1 then pins[0] else 0) | Scatter(value >> 1, pins[1..])
  }

  /** The outputs driven by a data nibble under the fixed wiring. */
  function MappedPins(value: bv8): bv8 { Scatter(value, DATA_PINS) }

  /** With D4..D7 on outputs 4..7 the scatter is a shift of the low nibble. */
  lemma MappedPinsIsShift(value: bv8)
    ensures MappedPins(value) == (value & 0x0F) << 4
  {
  }

  /**
   * The mapped nibble occupies only the data outputs, reads back as the low
   * nibble of the input, and so never touches register select, enable,
   * backlight or the unassigned output 1.
   */
  lemma MappedPinsLayout(value: bv8)
    ensures MappedPins(value) & 0x0F == 0
    ensures MappedPins(value) >> 4 == value & 0x0F
    ensures MappedPins(value) == MappedPins(value & 0x0F)
  {
    MappedPinsIsShift(value);
    MappedPinsIsShift(value & 0x0F);
  }

  /** Distinct nibbles drive distinct outputs: the mapping is a bijection on 4 bits. */
  lemma MappedPinsInjective(a: bv8, b: bv8)
    ensures MappedPins(a) == MappedPins(b) <==> a & 0x0F == b & 0x0F
  {
    MappedPinsLayout(a);
    MappedPinsLayout(b);
  }

  /**
   * One nibble write: the mapped data bits, the register-select bit for
   * data, and the backlight byte, first with enable set and then with
   * enable cleared.
   */
  function NibblePulse(nibble: bv8, isData: bool, bl: bv8): seq<bv8>
  {
    var mapped := MappedPins(nibble) | (if isData then RS_PIN else 0) | bl;
    [mapped | EN_PIN, mapped & !EN_PIN]
  }

  /** One byte in 4-bit mode: the high nibble first, then the low nibble. */
  function ByteFrame(b: bv8, isData: bool, bl: bv8): seq<bv8>
  {
    NibblePulse(b >> 4, isData, bl) + NibblePulse(b & 0x0F, isData, bl)
  }

  /** An instruction byte (register select low). */
  function CmdBytes(b: bv8, bl: bv8): seq<bv8> { ByteFrame(b, false, bl) }

  /** A character byte (register select high). */
  function DataBytes(b: bv8, bl: bv8): seq<bv8> { ByteFrame(b, true, bl) }

  /** The LCD lines one expander byte drives. */
  datatype Lines = Lines(data: bv8, registerSelect: bool, enable: bool, backlight: bool)

  function DecodeLines(b: bv8): Lines
  {
    Lines(b >> 4, b & RS_PIN != 0, b & EN_PIN != 0, b & BL_PIN != 0)
  }

  /**
   * A nibble pulse is two writes of the same data, register-select and
   * backlight lines that differ only in enable: high, then low.  Output 1
   * stays clear in both.
   */
  lemma NibblePulseLines(nibble: bv8, isData: bool, bl: bv8)
    requires BacklightByte(bl)
    ensures |NibblePulse(nibble, isData, bl)| == 2
    ensures DecodeLines(NibblePulse(nibble, isData, bl)[0]) == Lines(nibble & 0x0F, isData, true, bl == BL_PIN)
    ensures DecodeLines(NibblePulse(nibble, isData, bl)[1]) == Lines(nibble & 0x0F, isData, false, bl == BL_PIN)
    ensures NibblePulse(nibble, isData, bl)[0] & !EN_PIN == NibblePulse(nibble, isData, bl)[1]
    ensures NibblePulse(nibble, isData, bl)[0] & 0x02 == 0 && NibblePulse(nibble, isData, bl)[1] & 0x02 == 0
  {
    MappedPinsLayout(nibble);
  }

  /**
   * A byte frame is four writes: the pulse for the high nibble, then the
   * pulse for the low nibble; every write has register select exactly for
   * data and the backlight bit exactly when the backlight is on.
   */
  lemma ByteFrameLines(b: bv8, isData: bool, bl: bv8)
    requires BacklightByte(bl)
    ensures |ByteFrame(b, isData, bl)| == 4
    ensures ByteFrame(b, isData, bl)[..2] == NibblePulse(b >> 4, isData, bl)
    ensures ByteFrame(b, isData, bl)[2..] == NibblePulse(b & 0x0F, isData, bl)
    ensures forall k :: 0 <= k < 4 ==>
      DecodeLines(ByteFrame(b, isData, bl)[k]).registerSelect == isData &&
      DecodeLines(ByteFrame(b, isData, bl)[k]).backlight == (bl == BL_PIN) &&
      DecodeLines(ByteFrame(b, isData, bl)[k]).enable == (k % 2 == 0)
    ensures DecodeLines(ByteFrame(b, isData, bl)[1]).data == b >> 4
    ensures DecodeLines(ByteFrame(b, isData, bl)[3]).data == b & 0x0F
  {
    NibblePulseLines(b >> 4, isData, bl);
    NibblePulseLines(b & 0x0F, isData, bl);
  }

  /** What the controller takes in on a falling enable edge. */
  datatype Latch = Latch(isData: bool, nibble: bv8)

  /**
   * The nibbles the controller latches from a stream of expander writes,
   * given whether enable was high before the first write.
   */
  function Latches(t: seq<bv8>, enableHigh: bool): seq<Latch>
    decreases |t|
  {
    if t == [] then [] else Strobe(t[0], enableHigh) + Latches(t[1..], t[0] & EN_PIN != 0)
  }

  /** What one write latches: a nibble exactly when it pulls a high enable line low. */
  function Strobe(b: bv8, enableHigh: bool): seq<Latch>
  {
    if enableHigh && b & EN_PIN == 0 then [Latch(b & RS_PIN != 0, b >> 4)] else []
  }

  /** The enable line after a stream of writes. */
  function EnableAfter(t: seq<bv8>, enableHigh: bool): bool
  {
    if t == [] then enableHigh else t[|t| - 1] & EN_PIN != 0
  }

  /** Reading two consecutive streams is reading the first, then the second from where the first left enable. */
  lemma {:induction false} LatchesAppend(s: seq<bv8>, t: seq<bv8>, enableHigh: bool)
    ensures Latches(s + t, enableHigh) == Latches(s, enableHigh) + Latches(t, EnableAfter(s, enableHigh))
    decreases |s|
  {
    if s == [] {
      assert s + t == t;
    } else {
      var next := s[0] & EN_PIN != 0;
      assert (s + t)[0] == s[0] && (s + t)[1..] == s[1..] + t;
      LatchesAppend(s[1..], t, next);
      assert EnableAfter(s[1..], next) == EnableAfter(s, enableHigh) by {
        if |s| > 1 {
          assert s[1..][|s[1..]| - 1] == s[|s| - 1];
        }
      }
    }
  }

  /** The enable line after two consecutive streams. */
  lemma EnableAfterAppend(s: seq<bv8>, t: seq<bv8>, enableHigh: bool)
    ensures EnableAfter(s + t, enableHigh) == EnableAfter(t, EnableAfter(s, enableHigh))
  {
  }

  /** Appending to a stream that left enable low: the latches of the two parts follow each other. */
  lemma LatchesExtend(s: seq<bv8>, t: seq<bv8>)
    requires !EnableAfter(s, false)
    ensures Latches(s + t, false) == Latches(s, false) + Latches(t, false)
    ensures EnableAfter(s + t, false) == EnableAfter(t, false)
  {
    LatchesAppend(s, t, false);
    EnableAfterAppend(s, t, false);
  }

  /** An enable pulse makes the controller latch exactly the nibble, and leaves enable low. */
  lemma NibblePulseLatches(nibble: bv8, isData: bool, bl: bv8, enableHigh: bool)
    requires BacklightByte(bl)
    ensures Latches(NibblePulse(nibble, isData, bl), enableHigh) == [Latch(isData, nibble & 0x0F)]
    ensures !EnableAfter(NibblePulse(nibble, isData, bl), enableHigh)
  {
    NibblePulseLines(nibble, isData, bl);
    var p := NibblePulse(nibble, isData, bl);
    assert p[1..] == [p[1]];
    assert Latches(p[1..], true) == [Latch(isData, nibble & 0x0F)] by {
      assert p[1..][1..] == [];
    }
  }

  /** Join a high and a low nibble back into a byte. */
  function Join(high: bv8, low: bv8): bv8 { (high << 4) | (low & 0x0F) }

  /**
   * A byte frame makes the controller latch the high nibble, then the low
   * nibble, which join back into the byte; enable is left low.
   */
  lemma ByteFrameLatches(b: bv8, isData: bool, bl: bv8, enableHigh: bool)
    requires BacklightByte(bl)
    ensures Latches(ByteFrame(b, isData, bl), enableHigh) == [Latch(isData, b >> 4), Latch(isData, b & 0x0F)]
    ensures Join(b >> 4, b & 0x0F) == b
    ensures !EnableAfter(ByteFrame(b, isData, bl), enableHigh)
  {
    var hi := NibblePulse(b >> 4, isData, bl);
    var lo := NibblePulse(b & 0x0F, isData, bl);
    LatchesAppend(hi, lo, enableHigh);
    NibblePulseLatches(b >> 4, isData, bl, enableHigh);
    NibblePulseLatches(b & 0x0F, isData, bl, false);
    assert (b >> 4) & 0x0F == b >> 4;
    EnableAfterAppend(hi, lo, enableHigh);
  }

  /** A run of bytes of one kind, each framed high nibble first. */
  function Frames(bs: seq<bv8>, isData: bool, bl: bv8): seq<bv8>
    decreases |bs|
  {
    if bs == [] then [] else ByteFrame(bs[0], isData, bl) + Frames(bs[1..], isData, bl)
  }

  /** The nibbles the controller should latch for a run of bytes: two per byte, high nibble first. */
  function FrameLatches(bs: seq<bv8>, isData: bool): seq<Latch>
    decreases |bs|
  {
    if bs == [] then []
    else [Latch(isData, bs[0] >> 4), Latch(isData, bs[0] & 0x0F)] + FrameLatches(bs[1..], isData)
  }

  /** One more byte appends its frame. */
  lemma {:induction false} FramesSnoc(bs: seq<bv8>, b: bv8, isData: bool, bl: bv8)
    ensures Frames(bs + [b], isData, bl) == Frames(bs, isData, bl) + ByteFrame(b, isData, bl)
    decreases |bs|
  {
    if bs == [] {
      assert [b][1..] == [];
      assert bs + [b] == [b];
    } else {
      assert (bs + [b])[1..] == bs[1..] + [b];
      FramesSnoc(bs[1..], b, isData, bl);
    }
  }

  /** The frames of a prefix one byte longer. */
  lemma FramesPrefixStep(bs: seq<bv8>, i: nat, isData: bool, bl: bv8)
    requires i < |bs|
    ensures Frames(bs[..i + 1], isData, bl) == Frames(bs[..i], isData, bl) + ByteFrame(bs[i], isData, bl)
  {
    assert bs[..i + 1] == bs[..i] + [bs[i]];
    FramesSnoc(bs[..i], bs[i], isData, bl);
  }

  /**
   * A run of frames is four writes per byte; every write has register select
   * exactly for data and the backlight bit exactly when the backlight is on.
   */
  lemma {:induction false} FramesLines(bs: seq<bv8>, isData: bool, bl: bv8)
    requires BacklightByte(bl)
    ensures |Frames(bs, isData, bl)| == 4 * |bs|
    ensures forall k :: 0 <= k < |Frames(bs, isData, bl)| ==>
      (Frames(bs, isData, bl)[k] & RS_PIN != 0 <==> isData) &&
      (Frames(bs, isData, bl)[k] & BL_PIN != 0 <==> bl == BL_PIN)
    decreases |bs|
  {
    if bs != [] {
      ByteFrameLines(bs[0], isData, bl);
      FramesLines(bs[1..], isData, bl);
      var f := ByteFrame(bs[0], isData, bl);
      var rest := Frames(bs[1..], isData, bl);
      forall k | 0 <= k < |f + rest|
        ensures ((f + rest)[k] & RS_PIN != 0 <==> isData) && ((f + rest)[k] & BL_PIN != 0 <==> bl == BL_PIN)
      {
        if k < 4 {
          assert (f + rest)[k] == f[k];
        } else {
          assert (f + rest)[k] == rest[k - 4];
        }
      }
    }
  }

  /** The controller latches a run of frames byte by byte, high nibble first, and ends with enable low. */
  lemma {:induction false} FramesLatches(bs: seq<bv8>, isData: bool, bl: bv8, enableHigh: bool)
    requires BacklightByte(bl)
    ensures Latches(Frames(bs, isData, bl), enableHigh) == FrameLatches(bs, isData)
    ensures bs != [] ==> !EnableAfter(Frames(bs, isData, bl), enableHigh)
    decreases |bs|
  {
    if bs != [] {
      var f := ByteFrame(bs[0], isData, bl);
      var rest := Frames(bs[1..], isData, bl);
      assert Frames(bs, isData, bl) == f + rest;
      LatchesAppend(f, rest, enableHigh);
      ByteFrameLatches(bs[0], isData, bl, enableHigh);
      assert !EnableAfter(f, enableHigh);
      FramesLatches(bs[1..], isData, bl, false);
      assert Latches(f + rest, enableHigh) == FrameLatches(bs, isData);
      EnableAfterAppend(f, rest, enableHigh);
    }
  }
}
