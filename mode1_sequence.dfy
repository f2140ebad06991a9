/** The MODE1 values `main` produces (src/test_pca9685.c:315-351): the
    seven-setting configuration, then NORMAL_MODE alone, then LOW_POWER
    alone, each applied by `configure_device` to the byte read back. */
module Mode1Sequence {
  import opened Registers
  import opened RegisterConfig

  /** `config[7]` at :315-316. */
  const Setup: seq<Setting> := [IntClock, Ai, AllCall, NoSub1, NoSub2, NoSub3, LowPower]

  /** The byte `configure_device` writes back for register contents `b`. */
  function Configured(b: bv8, cs: seq<Setting>): bv8 {
    LowByte(ApplyAll(b as Word, cs))
  }

  /** The byte a fold over `b` leaves is the configured byte. */
  lemma ConfiguredFromFold(b: bv8, v: Word, cs: seq<Setting>)
    ensures v == ApplyAll(b as Word, cs) ==> LowByte(v) == Configured(b, cs)
  {
  }

  /** Configuring a register twice with the same well-formed list writes
      the same byte the second time. */
  lemma ConfiguredIdempotent(b: bv8, cs: seq<Setting>)
    requires AllWellFormed(cs)
    ensures Configured(Configured(b, cs), cs) == Configured(b, cs)
  {
    var once := ApplyAll(b as Word, cs);
    var low := Configured(b, cs) as Word;
    forall q: Word | q < 8 ensures Bit(ApplyAll(low, cs), q) == Bit(once, q) {
      FoldLowBits(b as Word, cs, q);
      FoldLowBits(low, cs, q);
      assert Bit(low, q) == Bit(once, q);
    }
    LowByteFromBits(ApplyAll(low, cs), once);
  }

  lemma ApplyAllSnoc(reg: Word, cs: seq<Setting>, c: Setting)
    ensures ApplyAll(reg, cs + [c]) == ApplySetting(ApplyAll(reg, cs), c)
  {
    assert (cs + [c])[..|cs|] == cs;
  }

  /** The low byte after a setting depends only on the low byte before:
      what a setting puts above bit 7 never reaches the register. */
  lemma LowByteOnly(w: Word, c: Setting)
    ensures LowByte(ApplySetting(w, c)) == LowByte(ApplySetting(LowByte(w) as Word, c))
  {
  }

  /** The low byte after one more setting, from the low byte before. */
  lemma SnocLowByte(w: Word, cs: seq<Setting>, c: Setting, x: bv8, y: bv8)
    ensures LowByte(ApplyAll(w, cs)) == x && LowByte(ApplySetting(x as Word, c)) == y ==>
      LowByte(ApplyAll(w, cs + [c])) == y
  {
    ApplyAllSnoc(w, cs, c);
    LowByteOnly(ApplyAll(w, cs), c);
  }

  // What each setting of main does to a byte.
  lemma IntClockClearsBit6(x: bv8) ensures LowByte(ApplySetting(x as Word, IntClock)) == x & 0xBF { }
  lemma AiSetsBit5(x: bv8) ensures LowByte(ApplySetting(x as Word, Ai)) == x | 0x20 { }
  lemma AllCallSetsBit0(x: bv8) ensures LowByte(ApplySetting(x as Word, AllCall)) == x | 0x01 { }
  lemma NoSub1ClearsBit3(x: bv8) ensures LowByte(ApplySetting(x as Word, NoSub1)) == x & 0xF7 { }
  lemma NoSub2ClearsBit2(x: bv8) ensures LowByte(ApplySetting(x as Word, NoSub2)) == x & 0xFB { }
  lemma NoSub3ClearsBit1(x: bv8) ensures LowByte(ApplySetting(x as Word, NoSub3)) == x & 0xFD { }
  lemma LowPowerSetsBit4(x: bv8) ensures LowByte(ApplySetting(x as Word, LowPower)) == x | 0x10 { }
  lemma NormalModeClearsBit4(x: bv8) ensures LowByte(ApplySetting(x as Word, NormalMode)) == x & 0xEF { }

  // The configuration, one setting at a time.
  lemma Setup1(m: bv8)
    ensures LowByte(ApplyAll(m as Word, [IntClock])) == m & 0xBF
  {
    SnocLowByte(m as Word, [], IntClock, m, m & 0xBF);
    IntClockClearsBit6(m);
  }

  lemma Setup2(m: bv8)
    ensures LowByte(ApplyAll(m as Word, [IntClock, Ai])) == (m & 0xBF) | 0x20
  {
    Setup1(m);
    assert [IntClock, Ai] == [IntClock] + [Ai];
    SnocLowByte(m as Word, [IntClock], Ai, m & 0xBF, (m & 0xBF) | 0x20);
    AiSetsBit5(m & 0xBF);
  }

  lemma Setup3(m: bv8)
    ensures LowByte(ApplyAll(m as Word, [IntClock, Ai, AllCall])) == (m & 0x9F) | 0x21
  {
    Setup2(m);
    assert [IntClock, Ai, AllCall] == [IntClock, Ai] + [AllCall];
    SnocLowByte(m as Word, [IntClock, Ai], AllCall, (m & 0xBF) | 0x20, (m & 0x9F) | 0x21);
    AllCallSetsBit0((m & 0xBF) | 0x20);
  }

  lemma Setup4(m: bv8)
    ensures LowByte(ApplyAll(m as Word, [IntClock, Ai, AllCall, NoSub1])) == (m & 0x97) | 0x21
  {
    Setup3(m);
    assert [IntClock, Ai, AllCall, NoSub1] == [IntClock, Ai, AllCall] + [NoSub1];
    SnocLowByte(m as Word, [IntClock, Ai, AllCall], NoSub1, (m & 0x9F) | 0x21, (m & 0x97) | 0x21);
    NoSub1ClearsBit3((m & 0x9F) | 0x21);
  }

  lemma Setup5(m: bv8)
    ensures LowByte(ApplyAll(m as Word, [IntClock, Ai, AllCall, NoSub1, NoSub2])) == (m & 0x93) | 0x21
  {
    Setup4(m);
    assert [IntClock, Ai, AllCall, NoSub1, NoSub2] == [IntClock, Ai, AllCall, NoSub1] + [NoSub2];
    SnocLowByte(m as Word, [IntClock, Ai, AllCall, NoSub1], NoSub2, (m & 0x97) | 0x21, (m & 0x93) | 0x21);
    NoSub2ClearsBit2((m & 0x97) | 0x21);
  }

  lemma Setup6(m: bv8)
    ensures LowByte(ApplyAll(m as Word, [IntClock, Ai, AllCall, NoSub1, NoSub2, NoSub3])) == (m & 0x91) | 0x21
  {
    Setup5(m);
    assert [IntClock, Ai, AllCall, NoSub1, NoSub2, NoSub3] == [IntClock, Ai, AllCall, NoSub1, NoSub2] + [NoSub3];
    SnocLowByte(m as Word, [IntClock, Ai, AllCall, NoSub1, NoSub2], NoSub3, (m & 0x93) | 0x21, (m & 0x91) | 0x21);
    NoSub3ClearsBit1((m & 0x93) | 0x21);
  }

  /** The seven-setting configuration keeps RESTART (bit 7) as read and
      sets the rest of MODE1 to 0b0011_0001: AI, SLEEP and ALLCALL on. */
  lemma SetupValue(m: bv8)
    ensures Configured(m, Setup) == (m & 0x80) | 0x31
  {
    Setup6(m);
    assert Setup == [IntClock, Ai, AllCall, NoSub1, NoSub2, NoSub3] + [LowPower];
    SnocLowByte(m as Word, [IntClock, Ai, AllCall, NoSub1, NoSub2, NoSub3], LowPower, (m & 0x91) | 0x21, (m & 0x80) | 0x31);
    LowPowerSetsBit4((m & 0x91) | 0x21);
  }

  /** NORMAL_MODE alone clears SLEEP (bit 4) and nothing else. */
  lemma NormalModeValue(b: bv8)
    ensures Configured(b, [NormalMode]) == b & 0xEF
  {
    ApplyAllSnoc(b as Word, [], NormalMode);
    NormalModeClearsBit4(b);
  }

  /** LOW_POWER alone sets SLEEP (bit 4) and nothing else. */
  lemma LowPowerValue(b: bv8)
    ensures Configured(b, [LowPower]) == b | 0x10
  {
    ApplyAllSnoc(b as Word, [], LowPower);
    LowPowerSetsBit4(b);
  }

  lemma Masks(m: bv8)
    ensures ((m & 0x80) | 0x31) & 0xEF == (m & 0x80) | 0x21
    ensures ((m & 0x80) | 0x21) | 0x10 == (m & 0x80) | 0x31
    ensures ((m & 0x80) | 0x31) & 0x10 == 0x10 && ((m & 0x80) | 0x21) & 0x10 == 0
  {
  }

  /** From any MODE1 contents `m`, main writes (m & 0x80) | 0x31 (asleep),
      then (m & 0x80) | 0x21 (awake), then (m & 0x80) | 0x31 again; from
      the power-on default 0x11 that is 0x31, 0x21, 0x31. */
  lemma Mode1Values(m: bv8)
    ensures Configured(m, Setup) == (m & 0x80) | 0x31
    ensures Configured(Configured(m, Setup), [NormalMode]) == (m & 0x80) | 0x21
    ensures Configured(Configured(Configured(m, Setup), [NormalMode]), [LowPower]) == (m & 0x80) | 0x31
    ensures Configured(m, Setup) & 0x10 == 0x10
    ensures Configured(Configured(m, Setup), [NormalMode]) & 0x10 == 0
  {
    SetupValue(m);
    NormalModeValue((m & 0x80) | 0x31);
    LowPowerValue((m & 0x80) | 0x21);
    Masks(m);
  }

  lemma Mode1ValuesFromDefault()
    ensures Configured(Mode1Default as bv8, Setup) == 0x31
    ensures Configured(0x31, [NormalMode]) == 0x21
    ensures Configured(0x21, [LowPower]) == 0x31
  {
    Mode1Values(Mode1Default as bv8);
  }
}
