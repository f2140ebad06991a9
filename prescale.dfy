/** The PRE_SCALE value `set_frequency` computes (src/test_pca9685.c:242-273),
    beside equation (1) of section 7.3.5 of the NXP PCA9685 data sheet that
    it cites:  prescale = round(osc_clock / (4096 * update_rate)) - 1. */
module Prescale {
  import opened Registers

  /** The internal oscillator, in MHz as the code writes it (:244). */
  const ClockFrequencyMHz: int := 25

  /** The internal oscillator in Hz, as the data-sheet equation takes it. */
  const ClockFrequencyHz: int := 25_000_000

  /** The value `set_frequency` puts in `prescale_value[0]` (:253-260).  On
      the operands that reach the division (25 .. 1525) C's truncating `/`
      and Dafny's Euclidean `/` agree, since both are positive. */
  function PrescaleValue(frequency: int): int
  {
    if frequency >= 1526 then 0x03
    else if frequency <= 24 then 0xFF
    else ClockFrequencyMHz / (4096 * frequency) - 1
  }

  /** The three bands: fast frequencies clamp to 0x03, slow ones to 0xFF,
      and every frequency in between yields -1, because 25 / (4096 * f) is
      0 for every f >= 1. */
  lemma PrescaleBands(frequency: int)
    ensures frequency >= 1526 ==> PrescaleValue(frequency) == 0x03
    ensures frequency <= 24 ==> PrescaleValue(frequency) == 0xFF
    ensures 25 <= frequency <= 1525 ==> PrescaleValue(frequency) == -1
  {
    if 25 <= frequency <= 1525 {
      var b := 4096 * frequency;
      DivAtLeast(ClockFrequencyMHz, b, 0);
      DivAtLeast(ClockFrequencyMHz, b, 1);
      assert ClockFrequencyMHz / b == 0;
    }
  }

  /** The comment at :252 claims the value lies in 0x03 .. 0xFF; it does
      exactly outside the middle band. */
  lemma ClaimedRangeOnlyAtTheEnds(frequency: int)
    ensures 0x03 <= PrescaleValue(frequency) <= 0xFF <==> (frequency >= 1526 || frequency <= 24)
  {
    PrescaleBands(frequency);
  }

  /** The byte PRE_SCALE keeps for a frequency in the middle band is the
      low byte of -1, 0xFF: the same as for 24 Hz and below. */
  lemma MiddleBandStoresSlowest(frequency: int)
    requires 25 <= frequency <= 1525
    ensures LowByte(IntToWord(PrescaleValue(frequency))) == 0xFF
    ensures LowByte(IntToWord(PrescaleValue(frequency))) == LowByte(IntToWord(PrescaleValue(24)))
  {
    PrescaleBands(frequency);
    PrescaleBands(24);
    LowByteOfMinusOne();
    LowByteOf255();
  }

  /** The byte PRE_SCALE keeps for `frequency`, by band: 0x03 from
      1526 Hz up, 0xFF below (PrescaleByteIsStored ties it to the code's
      computation).  The band-wise form exists so that proofs about main
      need not unfold the division and the 32-bit conversion. */
  function PrescaleByte(frequency: int): bv8
  {
    if frequency >= 1526 then 0x03 else 0xFF
  }

  /** The byte PRE_SCALE keeps is the low byte of the `int` value
      `set_frequency` hands to `write_i2c`. */
  lemma PrescaleByteIsStored(frequency: int)
    ensures IsInt32(PrescaleValue(frequency))
    ensures PrescaleByte(frequency) == LowByte(IntToWord(PrescaleValue(frequency)))
  {
    PrescaleBands(frequency);
    LowByteOf3();
    LowByteOfMinusOne();
    LowByteOf255();
  }

  /** For 1526 Hz and above PRE_SCALE keeps 0x03, the fastest rate. */
  lemma FastBandStoresThree(frequency: int)
    requires frequency >= 1526
    ensures LowByte(IntToWord(PrescaleValue(frequency))) == 0x03
  {
    PrescaleBands(frequency);
    LowByteOf3();
  }

  lemma LowByteOf3() ensures LowByte(IntToWord(3)) == 0x03 { }
  lemma LowByteOfMinusOne() ensures LowByte(IntToWord(-1)) == 0xFF { }
  lemma LowByteOf255() ensures LowByte(IntToWord(0xFF)) == 0xFF { }

  /** Equation (1) of the data sheet with the oscillator in Hz and the
      rounding done in integers: round(a / b) = (a + b / 2) / b. */
  function DataSheetPrescale(frequency: int): int
    requires frequency > 0
  {
    (ClockFrequencyHz + 2048 * frequency) / (4096 * frequency) - 1
  }

  /** `a / b` is at least `k` exactly when `a` is at least `k * b`. */
  lemma DivAtLeast(a: int, b: int, k: int)
    requires a >= 0 && b > 0 && k >= 0
    ensures a / b >= k <==> a >= k * b
  {
    var q := a / b;
    assert a == q * b + a % b && 0 <= a % b < b;
    if q >= k {
      assert q * b >= k * b by { MulMonotone(k, q, b); }
    } else {
      assert (q + 1) * b <= k * b by { MulMonotone(q + 1, k, b); }
    }
  }

  lemma MulMonotone(x: int, y: int, b: int)
    requires x <= y && b > 0
    ensures x * b <= y * b
  {
  }

  /** Over the whole middle band the data-sheet equation gives a valid
      value, 3 .. 255, where the code gives -1: computing in MHz, the
      division at :259 truncates to 0. */
  lemma MiddleBandDivergesFromDataSheet(frequency: int)
    requires 25 <= frequency <= 1525
    ensures 0x03 <= DataSheetPrescale(frequency) <= 0xFF
    ensures PrescaleValue(frequency) == -1 != DataSheetPrescale(frequency)
  {
    var a, b := ClockFrequencyHz + 2048 * frequency, 4096 * frequency;
    DivAtLeast(a, b, 4);
    DivAtLeast(a, b, 257);
    PrescaleBands(frequency);
  }

  /** At both clamps the data sheet agrees with the code (0x03 at 1526 Hz),
      and at 200 Hz it gives 30 = 0x1E, the PRE_SCALE power-on default,
      where the code gives -1. */
  lemma DataSheetExamples()
    ensures DataSheetPrescale(1526) == 0x03 == PrescaleValue(1526)
    ensures DataSheetPrescale(200) == 30 == PreScaleDefault
    ensures PrescaleValue(200) == -1
  {
    PrescaleBands(200);
  }
}
