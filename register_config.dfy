/** The value computation of `configure_device` (src/test_pca9685.c:152-158):
    every encoded setting `c` updates the register value as
        reg := (reg & ~(1 << (c >> 8))) | (c << (c >> 8))
    and the settings are applied in list order. */
module RegisterConfig {
  import opened Registers

  /** Bit `p` of `x`. */
  function Bit(x: Word, p: Word): Word
    requires p < 32
  {
    (x >> p) & 1
  }

  /** One iteration of the loop at :152-158. */
  function ApplySetting(reg: Word, c: Setting): Word
  {
    (reg & !(1 << Position(c))) | (c << Position(c))
  }

  predicate AllWellFormed(cs: seq<Setting>) {
    forall i :: 0 <= i < |cs| ==> WellFormed(cs[i])
  }

  /** The register value after applying `cs` to `reg` in order: the value
      the loop holds after its first |cs| iterations. */
  function ApplyAll(reg: Word, cs: seq<Setting>): Word
  {
    if cs == [] then reg else ApplySetting(ApplyAll(reg, cs[..|cs| - 1]), cs[|cs| - 1])
  }

  /** The index of the last setting in `cs` that names bit `p`, or -1 when
      none does. */
  function LastNaming(cs: seq<Setting>, p: Word): (j: int)
    ensures -1 <= j < |cs|
    ensures j >= 0 ==> Position(cs[j]) == p
    ensures forall k :: j < k < |cs| ==> Position(cs[k]) != p
  {
    if cs == [] then -1
    else if Position(cs[|cs| - 1]) == p then |cs| - 1
    else LastNaming(cs[..|cs| - 1], p)
  }

  /** The bits above the low byte that the settings `cs` leave behind: each
      setting `c` naming bit `p` carries `p << 8` itself, so `c << p` also
      sets `p << (8 + p)`. */
  function Residue(cs: seq<Setting>): Word
  {
    if cs == [] then 0
    else Residue(cs[..|cs| - 1]) | OwnResidue(cs[|cs| - 1])
  }

  /** The bits `p << (8 + p)` that a setting naming bit `p` sets above the
      low byte. */
  function OwnResidue(c: Setting): Word
  {
    Position(c) << (8 + Position(c))
  }

  lemma PrefixWellFormed(cs: seq<Setting>)
    requires AllWellFormed(cs) && cs != []
    ensures AllWellFormed(cs[..|cs| - 1])
  {
    var init := cs[..|cs| - 1];
    forall i | 0 <= i < |init| ensures WellFormed(init[i]) { assert init[i] == cs[i]; }
  }

  // ---------------------------------------------------------------------
  // One setting

  /** The bit a well-formed setting names takes the setting's value. */
  lemma StepNamedBit(reg: Word, c: Setting)
    requires WellFormed(c)
    ensures Bit(ApplySetting(reg, c), Position(c)) == Value(c)
  {
  }

  /** Every other bit of the low byte keeps its value. */
  lemma StepOtherBit(reg: Word, c: Setting, p: Word)
    requires WellFormed(c) && p < 8 && p != Position(c)
    ensures Bit(ApplySetting(reg, c), p) == Bit(reg, p)
  {
  }

  /** Mask of the bits above the low byte. */
  const HighMask: Word := 0xFFFF_FF00

  /** Above the low byte, a setting only adds its own residue. */
  lemma StepHighBits(reg: Word, c: Setting)
    requires WellFormed(c)
    ensures ApplySetting(reg, c) & HighMask == (reg & HighMask) | OwnResidue(c)
  {
  }

  // ---------------------------------------------------------------------
  // The whole fold

  /** After the loop, each bit p of the low byte holds the value of the last
      setting naming p, or the value read when no setting names it. */
  lemma {:induction false} FoldLowBits(reg: Word, cs: seq<Setting>, p: Word)
    requires AllWellFormed(cs) && p < 8
    ensures Bit(ApplyAll(reg, cs), p) ==
      (var j := LastNaming(cs, p); if j >= 0 then Value(cs[j]) else Bit(reg, p))
  {
    if cs != [] {
      var init, last := cs[..|cs| - 1], cs[|cs| - 1];
      PrefixWellFormed(cs);
      if Position(last) == p {
        StepNamedBit(ApplyAll(reg, init), last);
      } else {
        StepOtherBit(ApplyAll(reg, init), last, p);
        FoldLowBits(reg, init, p);
        var j := LastNaming(cs, p);
        if j >= 0 {
          assert init[j] == cs[j];
        }
      }
    }
  }

  /** The part above the low byte after `cs`, built up setting by setting. */
  function HighPart(reg: Word, cs: seq<Setting>): Word
  {
    if cs == [] then reg & HighMask else HighPart(reg, cs[..|cs| - 1]) | OwnResidue(cs[|cs| - 1])
  }

  lemma {:induction false} HighPartIsResidue(reg: Word, cs: seq<Setting>)
    ensures HighPart(reg, cs) == (reg & HighMask) | Residue(cs)
  {
    if cs != [] {
      HighPartIsResidue(reg, cs[..|cs| - 1]);
    }
  }

  lemma {:induction false} FoldHighPart(reg: Word, cs: seq<Setting>)
    requires AllWellFormed(cs)
    ensures ApplyAll(reg, cs) & HighMask == HighPart(reg, cs)
  {
    if cs != [] {
      PrefixWellFormed(cs);
      FoldHighPart(reg, cs[..|cs| - 1]);
      StepHighBits(ApplyAll(reg, cs[..|cs| - 1]), cs[|cs| - 1]);
    }
  }

  /** Bits above the low byte only ever gain the settings' residues. */
  lemma FoldHighBits(reg: Word, cs: seq<Setting>)
    requires AllWellFormed(cs)
    ensures ApplyAll(reg, cs) & HighMask == (reg & HighMask) | Residue(cs)
  {
    FoldHighPart(reg, cs);
    HighPartIsResidue(reg, cs);
  }

  /** The eight low bits of a word determine its low byte. */
  lemma LowByteFromBits(x: Word, y: Word)
    requires forall q: Word :: q < 8 ==> Bit(x, q) == Bit(y, q)
    ensures x & 0xFF == y & 0xFF
  {
    assert Bit(x, 0) == Bit(y, 0) && Bit(x, 1) == Bit(y, 1) && Bit(x, 2) == Bit(y, 2) && Bit(x, 3) == Bit(y, 3);
    assert Bit(x, 4) == Bit(y, 4) && Bit(x, 5) == Bit(y, 5) && Bit(x, 6) == Bit(y, 6) && Bit(x, 7) == Bit(y, 7);
  }

  /** A word is its low byte together with its high part. */
  lemma WordFromParts(x: Word, y: Word)
    ensures x & 0xFF == y & 0xFF && x & HighMask == y & HighMask ==> x == y
  {
  }

  lemma OrAbsorbs(a: Word, b: Word, r: Word)
    ensures a == b | r ==> a | r == a
  {
  }

  /** A second pass leaves the low byte as the first pass left it. */
  lemma SecondPassLowByte(reg: Word, cs: seq<Setting>)
    requires AllWellFormed(cs)
    ensures ApplyAll(ApplyAll(reg, cs), cs) & 0xFF == ApplyAll(reg, cs) & 0xFF
  {
    var once := ApplyAll(reg, cs);
    forall q: Word | q < 8 ensures Bit(ApplyAll(once, cs), q) == Bit(once, q) {
      FoldLowBits(reg, cs, q);
      FoldLowBits(once, cs, q);
    }
    LowByteFromBits(ApplyAll(once, cs), once);
  }

  /** A second pass adds no bit above the low byte. */
  lemma SecondPassHighPart(reg: Word, cs: seq<Setting>)
    requires AllWellFormed(cs)
    ensures ApplyAll(ApplyAll(reg, cs), cs) & HighMask == ApplyAll(reg, cs) & HighMask
  {
    FoldHighBits(reg, cs);
    FoldHighBits(ApplyAll(reg, cs), cs);
    OrAbsorbs(ApplyAll(reg, cs) & HighMask, reg & HighMask, Residue(cs));
  }

  /** Applying the same well-formed list again leaves the register value
      unchanged: the read-modify-write is idempotent. */
  lemma FoldIdempotent(reg: Word, cs: seq<Setting>)
    requires AllWellFormed(cs)
    ensures ApplyAll(ApplyAll(reg, cs), cs) == ApplyAll(reg, cs)
  {
    var once := ApplyAll(reg, cs);
    var twice := ApplyAll(once, cs);
    SecondPassLowByte(reg, cs);
    SecondPassHighPart(reg, cs);
    WordFromParts(twice, once);
  }

  /** The misencoded LED_OUTPUT_ENABLE, applied to any value, clears bit 0
      and sets bit 6, instead of touching one bit. */
  lemma LedOutputEnableTouchesTwoBits(reg: Word)
    ensures Bit(ApplySetting(reg, LedOutputEnable), 0) == 0
    ensures Bit(ApplySetting(reg, LedOutputEnable), 6) == 1
  {
  }
}
