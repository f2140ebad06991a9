/** The PCA9685 register map of include/pca9685_registers.h: register
    addresses, power-on defaults and the bit-packed MODE1 setting encoding
    `value | (bit_position << 8)`.  The header is constant data only; the
    lemmas here check its literals against the layout they are meant to
    follow and record the places where they do not. */
module Registers {

  /** A C `int` as used by the program.  Every value the program builds
      stays below 2^31, so bit-vector and signed arithmetic agree. */
  type Word = bv32

  // ---------------------------------------------------------------------
  // Register addresses (NXP PCA9685 data sheet, section 7.3)

  const Mode1: int := 0x00
  const Mode2: int := 0x01
  const SubAdr1: int := 0x02
  const SubAdr2: int := 0x03
  const SubAdr3: int := 0x04
  const AllCallAdr: int := 0x05
  const PreScale: int := 0xFE
  const TestMode: int := 0xFF

  const Led0OnL: int := 0x06
  const Led0OnH: int := 0x07
  const Led0OffL: int := 0x08
  const Led0OffH: int := 0x09
  const Led1OnL: int := 0x0A
  const Led1OnH: int := 0x0B
  const Led1OffL: int := 0x0C
  const Led1OffH: int := 0x0D
  const Led2OnL: int := 0x0E
  const Led2OnH: int := 0x0F
  const Led2OffL: int := 0x10
  const Led2OffH: int := 0x11
  const Led3OnL: int := 0x12
  const Led3OnH: int := 0x13
  const Led3OffL: int := 0x14
  const Led3OffH: int := 0x15
  const Led4OnL: int := 0x16
  const Led4OnH: int := 0x17
  const Led4OffL: int := 0x18
  const Led4OffH: int := 0x19
  const Led5OnL: int := 0x1A
  const Led5OnH: int := 0x1B
  const Led5OffL: int := 0x1C
  const Led5OffH: int := 0x1D
  const Led6OnL: int := 0x1E
  const Led6OnH: int := 0x1F
  const Led6OffL: int := 0x20
  const Led6OffH: int := 0x21
  const Led7OnL: int := 0x22
  const Led7OnH: int := 0x23
  const Led7OffL: int := 0x24
  const Led7OffH: int := 0x25
  const Led8OnL: int := 0x26
  const Led8OnH: int := 0x27
  const Led8OffL: int := 0x28
  const Led8OffH: int := 0x29
  const Led9OnL: int := 0x2A
  const Led9OnH: int := 0x2B
  const Led9OffL: int := 0x2C
  const Led9OffH: int := 0x2D
  const Led10OnL: int := 0x2E
  const Led10OnH: int := 0x2F
  const Led10OffL: int := 0x30
  const Led10OffH: int := 0x31
  const Led11OnL: int := 0x32
  const Led11OnH: int := 0x33
  const Led11OffL: int := 0x34
  const Led11OffH: int := 0x35
  const Led12OnL: int := 0x36
  const Led12OnH: int := 0x37
  const Led12OffL: int := 0x38
  const Led12OffH: int := 0x39
  const Led13OnL: int := 0x3A
  const Led13OnH: int := 0x3B
  const Led13OffL: int := 0x3C
  const Led13OffH: int := 0x3D
  const Led14OnL: int := 0x3E
  const Led14OnH: int := 0x3F
  const Led14OffL: int := 0x40
  const Led14OffH: int := 0x41
  const Led15OnL: int := 0x42
  const Led15OnH: int := 0x43
  const Led15OffL: int := 0x44
  const Led15OffH: int := 0x45

  const AllLedOnL: int := 0xFA
  const AllLedOnH: int := 0xFB
  const AllLedOffL: int := 0xFC
  const AllLedOffH: int := 0xFD

  /** The first register of channel `n`; the program computes it as
      `6 + led_id * 4`. */
  function LedBase(n: int): int { 6 + 4 * n }

  /** LEDn_ON_L = 6 + 4n, and ON_H, OFF_L, OFF_H follow it, for every
      channel n = 0 .. 15; the last one, LED15_OFF_H, is 0x45. */
  lemma LedRegisterLayout()
    ensures Led0OnL == LedBase(0) && Led0OnH == LedBase(0) + 1 && Led0OffL == LedBase(0) + 2 && Led0OffH == LedBase(0) + 3
    ensures Led1OnL == LedBase(1) && Led1OnH == LedBase(1) + 1 && Led1OffL == LedBase(1) + 2 && Led1OffH == LedBase(1) + 3
    ensures Led2OnL == LedBase(2) && Led2OnH == LedBase(2) + 1 && Led2OffL == LedBase(2) + 2 && Led2OffH == LedBase(2) + 3
    ensures Led3OnL == LedBase(3) && Led3OnH == LedBase(3) + 1 && Led3OffL == LedBase(3) + 2 && Led3OffH == LedBase(3) + 3
    ensures Led4OnL == LedBase(4) && Led4OnH == LedBase(4) + 1 && Led4OffL == LedBase(4) + 2 && Led4OffH == LedBase(4) + 3
    ensures Led5OnL == LedBase(5) && Led5OnH == LedBase(5) + 1 && Led5OffL == LedBase(5) + 2 && Led5OffH == LedBase(5) + 3
    ensures Led6OnL == LedBase(6) && Led6OnH == LedBase(6) + 1 && Led6OffL == LedBase(6) + 2 && Led6OffH == LedBase(6) + 3
    ensures Led7OnL == LedBase(7) && Led7OnH == LedBase(7) + 1 && Led7OffL == LedBase(7) + 2 && Led7OffH == LedBase(7) + 3
    ensures Led8OnL == LedBase(8) && Led8OnH == LedBase(8) + 1 && Led8OffL == LedBase(8) + 2 && Led8OffH == LedBase(8) + 3
    ensures Led9OnL == LedBase(9) && Led9OnH == LedBase(9) + 1 && Led9OffL == LedBase(9) + 2 && Led9OffH == LedBase(9) + 3
    ensures Led10OnL == LedBase(10) && Led10OnH == LedBase(10) + 1 && Led10OffL == LedBase(10) + 2 && Led10OffH == LedBase(10) + 3
    ensures Led11OnL == LedBase(11) && Led11OnH == LedBase(11) + 1 && Led11OffL == LedBase(11) + 2 && Led11OffH == LedBase(11) + 3
    ensures Led12OnL == LedBase(12) && Led12OnH == LedBase(12) + 1 && Led12OffL == LedBase(12) + 2 && Led12OffH == LedBase(12) + 3
    ensures Led13OnL == LedBase(13) && Led13OnH == LedBase(13) + 1 && Led13OffL == LedBase(13) + 2 && Led13OffH == LedBase(13) + 3
    ensures Led14OnL == LedBase(14) && Led14OnH == LedBase(14) + 1 && Led14OffL == LedBase(14) + 2 && Led14OffH == LedBase(14) + 3
    ensures Led15OnL == LedBase(15) && Led15OnH == LedBase(15) + 1 && Led15OffL == LedBase(15) + 2 && Led15OffH == LedBase(15) + 3
    ensures Led15OffH == 0x45
  {
  }

  /** The addresses the header defines are strictly increasing from
      MODE1 = 0x00 to TestMode = 0xFF, so they are pairwise distinct and
      each fits in a byte; the ALL_LED registers are 0xFA .. 0xFD and
      PRE_SCALE is 0xFE. */
  lemma AddressMapOrdered()
    ensures Mode1 == 0x00 && TestMode == 0xFF
    ensures Mode1 < Mode2 < SubAdr1 < SubAdr2 < SubAdr3 < AllCallAdr
      < Led0OnL < Led0OnH < Led0OffL < Led0OffH < Led1OnL < Led1OnH
      < Led1OffL < Led1OffH < Led2OnL < Led2OnH < Led2OffL < Led2OffH
      < Led3OnL < Led3OnH < Led3OffL < Led3OffH < Led4OnL < Led4OnH
      < Led4OffL < Led4OffH < Led5OnL < Led5OnH < Led5OffL < Led5OffH
      < Led6OnL < Led6OnH < Led6OffL < Led6OffH < Led7OnL < Led7OnH
      < Led7OffL < Led7OffH < Led8OnL < Led8OnH < Led8OffL < Led8OffH
      < Led9OnL < Led9OnH < Led9OffL < Led9OffH < Led10OnL < Led10OnH
      < Led10OffL < Led10OffH < Led11OnL < Led11OnH < Led11OffL < Led11OffH
      < Led12OnL < Led12OnH < Led12OffL < Led12OffH < Led13OnL < Led13OnH
      < Led13OffL < Led13OffH < Led14OnL < Led14OnH < Led14OffL < Led14OffH
      < Led15OnL < Led15OnH < Led15OffL < Led15OffH < AllLedOnL < AllLedOnH
      < AllLedOffL < AllLedOffH < PreScale < TestMode
    ensures AllLedOnL == 0xFA && AllLedOffH == 0xFD && PreScale == 0xFE
  {
  }

  // ---------------------------------------------------------------------
  // Register defaults and the binary value each one documents

  const Mode1Default: int := 0x11
  const Mode2Default: int := 0x04
  const SubAdr1Default: int := 0xE2
  const SubAdr2Default: int := 0xE4
  const SubAdr3Default: int := 0xE8
  const AllCallAdrDefault: int := 0xE0
  const LedNOnLDefault: int := 0x00
  const LedNOnHDefault: int := 0x00
  const LedNOffLDefault: int := 0x00
  const LedNOffHDefault: int := 0x08
  const AllLedOnLDefault: int := 0x00
  const AllLedOnHDefault: int := 0x08
  const AllLedOffLDefault: int := 0x00
  const AllLedOffHDefault: int := 0x08
  const PreScaleDefault: int := 0x1E

  function Digit(c: char): int { if c == '1' then 1 else 0 }

  /** The number a string of binary digits denotes, most significant first
      (any character other than '1' reads as 0). */
  function ParseBinary(s: string): int {
    if s == [] then 0 else 2 * ParseBinary(s[..|s| - 1]) + Digit(s[|s| - 1])
  }

  /** An eight-digit string is read as bit 7 down to bit 0. */
  lemma ParseByte(s: string)
    requires |s| == 8
    ensures ParseBinary(s) ==
      128 * Digit(s[0]) + 64 * Digit(s[1]) + 32 * Digit(s[2]) + 16 * Digit(s[3]) +
      8 * Digit(s[4]) + 4 * Digit(s[5]) + 2 * Digit(s[6]) + Digit(s[7])
  {
    assert ParseBinary(s) == 2 * ParseBinary(s[..7]) + Digit(s[7]);
    assert s[..7][..6] == s[..6];
    assert ParseBinary(s[..7]) == 2 * ParseBinary(s[..6]) + Digit(s[6]);
    assert s[..6][..5] == s[..5];
    assert ParseBinary(s[..6]) == 2 * ParseBinary(s[..5]) + Digit(s[5]);
    assert s[..5][..4] == s[..4];
    assert ParseBinary(s[..5]) == 2 * ParseBinary(s[..4]) + Digit(s[4]);
    assert s[..4][..3] == s[..3];
    assert ParseBinary(s[..4]) == 2 * ParseBinary(s[..3]) + Digit(s[3]);
    assert s[..3][..2] == s[..2];
    assert ParseBinary(s[..3]) == 2 * ParseBinary(s[..2]) + Digit(s[2]);
    assert s[..2][..1] == s[..1];
    assert ParseBinary(s[..2]) == 2 * ParseBinary(s[..1]) + Digit(s[1]);
    assert s[..1][..0] == s[..0];
    assert ParseBinary(s[..1]) == 2 * ParseBinary(s[..0]) + Digit(s[0]);
    assert ParseBinary(s[..0]) == 0;
  }

  /** Twelve of the fifteen defaults equal the binary number written beside
      them in the header. */
  lemma DefaultsMatchDocumentedBits()
    ensures Mode1Default == ParseBinary("00010001")
    ensures Mode2Default == ParseBinary("00000100")
    ensures SubAdr1Default == ParseBinary("11100010")
    ensures SubAdr2Default == ParseBinary("11100100")
    ensures SubAdr3Default == ParseBinary("11101000")
    ensures AllCallAdrDefault == ParseBinary("11100000")
    ensures LedNOnLDefault == ParseBinary("00000000")
    ensures LedNOnHDefault == ParseBinary("00000000")
    ensures LedNOffLDefault == ParseBinary("00000000")
    ensures AllLedOnLDefault == ParseBinary("00000000")
    ensures AllLedOffLDefault == ParseBinary("00000000")
    ensures PreScaleDefault == ParseBinary("00011110")
  {
    ParseByte("00010001");
    ParseByte("00000100");
    ParseByte("11100010");
    ParseByte("11100100");
    ParseByte("11101000");
    ParseByte("11100000");
    ParseByte("00000000");
    ParseByte("00011110");
  }

  /** LEDn_OFF_H, ALL_LED_ON_H and ALL_LED_OFF_H are defined as 0x08 (bit 3),
      while the binary beside each, 00010000, is 0x10 (bit 4, the data
      sheet's full-off / full-on bit). */
  lemma ThreeDefaultsDisagreeWithDocumentedBits()
    ensures LedNOffHDefault == AllLedOnHDefault == AllLedOffHDefault == 0x08
    ensures ParseBinary("00010000") == 0x10
    ensures LedNOffHDefault != ParseBinary("00010000")
  {
    ParseByte("00010000");
  }

  // ---------------------------------------------------------------------
  // MODE1 setting encoding: `value | (bit_position << 8)`

  /** An encoded setting the read-modify-write loop can apply without
      undefined behaviour: its bit position `c >> 8` names one of the eight
      bits of a register, so every shift it causes is in range. */
  type Setting = c: Word | c < 0x800

  /** The bit position a setting names. */
  function Position(c: Setting): Word { c >> 8 }

  /** The value a setting carries (its low byte). */
  function Value(c: Setting): Word { c & 0xFF }

  /** A setting as the encoding intends it: a single bit value. */
  predicate WellFormed(c: Setting) { Value(c) <= 1 }

  const NormalMode: Setting := 0x00 | (0x04 << 8)
  const LowPower: Setting := 0x01 | (0x04 << 8)
  const Restart: Setting := 0x01 | (0x07 << 8)
  const IntClock: Setting := 0x00 | (0x06 << 8)
  const ExtClock: Setting := 0x01 | (0x06 << 8)
  const Ai: Setting := 0x01 | (0x05 << 8)
  const NoAi: Setting := 0x00 | (0x05 << 8)
  const AllCall: Setting := 0x01
  const NoAllCall: Setting := 0x00
  const Sub1: Setting := 0x01 | (0x03 << 8)
  const NoSub1: Setting := 0x00 | (0x03 << 8)
  const Sub2: Setting := 0x01 | (0x02 << 8)
  const NoSub2: Setting := 0x00 | (0x02 << 8)
  const Sub3: Setting := 0x01 | (0x01 << 8)
  const NoSub3: Setting := 0x00 | (0x01 << 8)
  const LedOutputEnable: Setting := 0x00 | (0x04 << 4)
  const LedOutputDisable: Setting := 0x01 | (0x04 << 4)

  /** Each MODE1 setting decodes, through `c >> 8` and `c & 0xFF`, to a
      single bit value at the MODE1 bit the data sheet (section 7.3.1) gives
      it: RESTART 7, EXTCLK 6, AI 5, SLEEP 4, SUB1 3, SUB2 2, SUB3 1,
      ALLCALL 0. */
  lemma Mode1SettingsDecode()
    ensures WellFormed(Restart) && Position(Restart) == 7 && Value(Restart) == 1
    ensures WellFormed(IntClock) && Position(IntClock) == 6 && Value(IntClock) == 0
    ensures WellFormed(ExtClock) && Position(ExtClock) == 6 && Value(ExtClock) == 1
    ensures WellFormed(Ai) && Position(Ai) == 5 && Value(Ai) == 1
    ensures WellFormed(NoAi) && Position(NoAi) == 5 && Value(NoAi) == 0
    ensures WellFormed(NormalMode) && Position(NormalMode) == 4 && Value(NormalMode) == 0
    ensures WellFormed(LowPower) && Position(LowPower) == 4 && Value(LowPower) == 1
    ensures WellFormed(Sub1) && Position(Sub1) == 3 && Value(Sub1) == 1
    ensures WellFormed(NoSub1) && Position(NoSub1) == 3 && Value(NoSub1) == 0
    ensures WellFormed(Sub2) && Position(Sub2) == 2 && Value(Sub2) == 1
    ensures WellFormed(NoSub2) && Position(NoSub2) == 2 && Value(NoSub2) == 0
    ensures WellFormed(Sub3) && Position(Sub3) == 1 && Value(Sub3) == 1
    ensures WellFormed(NoSub3) && Position(NoSub3) == 1 && Value(NoSub3) == 0
    ensures WellFormed(AllCall) && Position(AllCall) == 0 && Value(AllCall) == 1
    ensures WellFormed(NoAllCall) && Position(NoAllCall) == 0 && Value(NoAllCall) == 0
  {
  }

  /** Two settings are complementary when they name the same bit and carry
      opposite values. */
  predicate Complementary(a: Setting, b: Setting) {
    WellFormed(a) && WellFormed(b) && Position(a) == Position(b) && Value(a) != Value(b)
  }

  /** NORMAL_MODE/LOW_POWER, INT_CLOCK/EXT_CLOCK, AI/NO_AI, SUBn/NO_SUBn and
      ALLCALL/NO_ALLCALL are complementary pairs. */
  lemma ComplementaryPairs()
    ensures Complementary(NormalMode, LowPower)
    ensures Complementary(IntClock, ExtClock)
    ensures Complementary(Ai, NoAi)
    ensures Complementary(Sub1, NoSub1)
    ensures Complementary(Sub2, NoSub2)
    ensures Complementary(Sub3, NoSub3)
    ensures Complementary(AllCall, NoAllCall)
  {
  }

  /** LED_OUTPUT_ENABLE and LED_OUTPUT_DISABLE shift by 4 instead of 8, so
      they decode to bit position 0 with the values 0x40 and 0x41: neither
      is a single bit value, unlike what the encoding promises. */
  lemma LedOutputMasksMisencoded()
    ensures Position(LedOutputEnable) == 0 && Value(LedOutputEnable) == 0x40
    ensures Position(LedOutputDisable) == 0 && Value(LedOutputDisable) == 0x41
    ensures !WellFormed(LedOutputEnable) && !WellFormed(LedOutputDisable)
  {
  }

  // ---------------------------------------------------------------------
  // Register contents

  /** The range of a C `int`. */
  predicate IsInt32(x: int) {
    -0x8000_0000 <= x < 0x8000_0000
  }

  /** A C `int` value as its 32-bit two's complement word. */
  function IntToWord(x: int): Word
    requires IsInt32(x)
  {
    if x < 0 then (x + 0x1_0000_0000) as Word else x as Word
  }

  /** The byte a register keeps when the program hands it a C `int`: its
      low 8 bits.  `write_i2c` receives `int` buffers; that it stores each
      element this way is an assumption of the model. */
  function LowByte(w: Word): bv8 {
    (w & 0xFF) as bv8
  }
}
