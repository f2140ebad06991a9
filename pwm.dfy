/** The counter arithmetic of `set_pwm_duty_cycle`
    (src/test_pca9685.c:173-239): the LEDn_ON / LEDn_OFF values for one
    channel, as the code computes them, beside the scheme of section 7.3.3
    of the NXP PCA9685 data sheet that it cites. */
module Pwm {
  import opened Registers

  /** C's `(int)` conversion of a real: truncation toward zero. */
  function Truncate(x: real): int {
    if x >= 0.0 then x.Floor else -((-x).Floor)
  }

  /** `ROUND(a * b)` as the unparenthesised macro at :36 expands: the
      subtracted term reads `(int)a * b`, not `(int)(a * b)`. */
  function RoundMacroExpanded(a: real, b: real): int {
    if a * b - (Truncate(a) as real) * b >= 0.5 then Truncate(a * b + 1.0) else Truncate(a * b)
  }

  /** `ROUND(n)` as the macro is evidently meant: round half up. */
  function RoundHalfUp(n: real): int {
    if n - (Truncate(n) as real) >= 0.5 then Truncate(n + 1.0) else Truncate(n)
  }

  /** The 10 % delay, `ROUND(0.10 * 4096) - 1` (:189). */
  const LedDelayTime: int := 409

  /** The ON value of the full-on path (:205): the delay time 409 with bit
      12 of LEDn_ON, the full-on flag `0x01 << 12`, or-ed in. */
  const FullOnTime: int := ((409 as bv32) | (0x01 << 12)) as int

  /** The delay constant is 409: the expanded macro rounds 409.6 to 410,
      as a parenthesised one would, and one is subtracted. */
  lemma DelayTimeIs409()
    ensures RoundMacroExpanded(0.10, 4096.0) == 410
    ensures RoundHalfUp(0.10 * 4096.0) == 410
    ensures LedDelayTime == RoundMacroExpanded(0.10, 4096.0) - 1
  {
    assert 0.10 * 4096.0 == 409.6;
    assert Truncate(0.10) == 0;
    assert Truncate(409.6) == 409;
    assert Truncate(410.6) == 410;
  }

  /** The LEDn_ON and LEDn_OFF counter values of one channel. */
  datatype Counters = Counters(on: int, off: int)

  /** The counters `set_pwm_duty_cycle` computes (:189-206). */
  function PwmCounters(dutyCycle: int): Counters
    requires dutyCycle >= -LedDelayTime
  {
    if dutyCycle < 1 then
      var offTime := LedDelayTime + dutyCycle;
      Counters(LedDelayTime, if LedDelayTime + dutyCycle > 4096 then offTime - 4096 else offTime)
    else
      Counters(FullOnTime, 0)
  }

  /** `{led_on_l, led_on_h, led_off_l, led_off_h}` (:209-215): the low
      values are the whole counters (the code does not mask them), the high
      values are the counters shifted right by 8. */
  function RegisterValues(dutyCycle: int): (vs: seq<int>)
    requires dutyCycle >= -LedDelayTime
    ensures |vs| == 4
    ensures forall i :: 0 <= i < 4 ==> 0 <= vs[i] <= 0x1FFF
    ensures vs[1] < 0x100 && vs[3] < 0x100
  {
    var c := PwmCounters(dutyCycle);
    [c.on, c.on / 256, c.off, c.off / 256]
  }

  /** For `dutyCycle < 1` the ON value is the delay and the OFF value is
      delay + dutyCycle; the wrap-around branch (:200) is never taken. */
  lemma BelowOneCounters(dutyCycle: int)
    requires -LedDelayTime <= dutyCycle < 1
    ensures LedDelayTime + dutyCycle <= 4096
    ensures PwmCounters(dutyCycle) == Counters(409, 409 + dutyCycle)
    ensures RegisterValues(dutyCycle) == [409, 1, 409 + dutyCycle, (409 + dutyCycle) / 256]
  {
  }

  /** The four bytes LEDn_ON_L, LEDn_ON_H, LEDn_OFF_L and LEDn_OFF_H keep,
      by path: full on from 1 up, the delayed window below
      (ChannelBytesAreStored ties it to the code's computation).  The
      band-wise form exists so that proofs about main reason about four
      constant-shaped bytes instead of unfolding the 32-bit conversion. */
  function ChannelBytes(dutyCycle: int): (bs: seq<bv8>)
    requires dutyCycle >= -LedDelayTime
  {
    if dutyCycle >= 1 then [0x99, 0x11, 0x00, 0x00]
    else [0x99, 0x01, LowByte(IntToWord(409 + dutyCycle)), LowByte(IntToWord((409 + dutyCycle) / 256))]
  }

  /** The four bytes are the low bytes of the four `int` values
      `set_pwm_duty_cycle` hands to `write_i2c`. */
  lemma ChannelBytesAreStored(dutyCycle: int)
    requires dutyCycle >= -LedDelayTime
    ensures var vs := RegisterValues(dutyCycle);
      ChannelBytes(dutyCycle) == [LowByte(IntToWord(vs[0])), LowByte(IntToWord(vs[1])),
                                  LowByte(IntToWord(vs[2])), LowByte(IntToWord(vs[3]))]
  {
    if dutyCycle >= 1 {
      FullOnCounters(dutyCycle);
    } else {
      BelowOneCounters(dutyCycle);
      LowByteOnL();
      LowByteOne();
    }
  }

  lemma LowByteOnL() ensures LowByte(IntToWord(0x1199)) == 0x99 { }
  lemma LowByteOnH() ensures LowByte(IntToWord(0x11)) == 0x11 { }
  lemma LowByteOne() ensures LowByte(IntToWord(1)) == 0x01 { }
  lemma LowByteZero() ensures LowByte(IntToWord(0)) == 0 { }

  /** For every `dutyCycle >= 1` (main's 2048 among them) the full-on path
      is taken: ON = 409 | 0x1000 = 0x1199, OFF = 0, and the bytes the
      device keeps are 0x99, 0x11 (bit 4, full on, set), 0x00, 0x00. */
  lemma FullOnCounters(dutyCycle: int)
    requires dutyCycle >= 1
    ensures PwmCounters(dutyCycle) == Counters(0x1199, 0)
    ensures RegisterValues(dutyCycle) == [0x1199, 0x11, 0, 0]
    ensures [LowByte(IntToWord(0x1199)), LowByte(IntToWord(0x11)), LowByte(IntToWord(0))] == [0x99, 0x11, 0x00]
    ensures ChannelBytes(dutyCycle) == [0x99, 0x11, 0x00, 0x00]
    ensures ChannelBytes(dutyCycle)[1] & 0x10 == 0x10
  {
    LowByteOnL();
    LowByteOnH();
    LowByteZero();
  }

  /** Splitting a 13-bit counter into its low byte and its bits from 8 up
      loses nothing: the part from 8 up fits a byte, and the two bytes the
      device keeps for the L and H registers join back into the counter. */
  lemma ByteSplitRoundTrip(v: Word)
    requires v <= 0x1FFF
    ensures (v & 0xFF) | ((v >> 8) << 8) == v
    ensures v >> 8 <= 0x1F
    ensures (LowByte(v) as Word) | ((LowByte(v >> 8) as Word) << 8) == v
  {
  }

  /** The counters section 7.3.3 of the data sheet prescribes for a duty
      cycle of `dutyCycle` counts (0 .. 4095) after the same delay: ON is
      the delay, OFF is ON plus the on-counts, wrapped into the 4096-count
      frame. */
  function DataSheetCounters(dutyCycle: int): (c: Counters)
    requires 0 <= dutyCycle <= 4095
    ensures 0 <= c.off < 4096 && (c.off - c.on - dutyCycle) % 4096 == 0
  {
    Counters(LedDelayTime, (LedDelayTime + dutyCycle) % 4096)
  }

  /** The test at :194 (`duty_cycle < 1`) selects the full-on path for every
      duty cycle from 1 up, so the code and the data sheet agree only at
      0; for instance at main's 2048 the data sheet's OFF value is 2457
      and the code writes the full-on flag instead. */
  lemma DutyTestDivergesFromDataSheet(dutyCycle: int)
    requires 0 <= dutyCycle <= 4095
    ensures PwmCounters(dutyCycle) == DataSheetCounters(dutyCycle) <==> dutyCycle == 0
    ensures DataSheetCounters(2048) == Counters(409, 2457)
  {
    if dutyCycle >= 1 {
      FullOnCounters(dutyCycle);
    }
  }
}
