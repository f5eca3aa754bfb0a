/**
 * What stf_dphy_configure, stf_dphy_hw_reset and stf_dphy_init leave in the
 * register window, as functions of the window before the call.
 *
 * Each window-level function performs the driver's stf_dphy_set_reg calls in
 * source order.  Its contract gives every touched word as a word-level
 * function of the old word, which applies that offset's writes in the same
 * order and whose own contract states what each field then reads back.
 */
module DphyProgram {
  import opened Registers
  import opened DphyFields
  import opened ConfigTable
  import opened ConfigLookup

  /** Every word the driver touches is inside the window. */
  predicate Mapped(r: Window)
  {
    && Syscfg0 in r && Syscfg8 in r && Syscfg12 in r && Syscfg16 in r
    && Syscfg20 in r && Syscfg24 in r && Syscfg28 in r && Syscfg32 in r
    && Syscfg36 in r && Syscfg40 in r && Syscfg44 in r && Syscfg48 in r
    && Syscfg100 in r
  }

  // ---------------------------------------------------------------------------
  // HSTX resistance presets (the ten writes of 0x10 at the top of configure)

  /** Offset 8: the L0N then the L0P field, each set to 0x10. */
  function PresetsAt8(w: Word): (w': Word)
    ensures w' & 0x1FF8_0000 == 0x1080_0000
    ensures w' & !0x1FF8_0000 == w & !0x1FF8_0000
  {
    Insert(Insert(w, 0x10, L0nHstxResShift, L0nHstxResMask), 0x10, L0pHstxResShift, L0pHstxResMask)
  }

  /**
   * Offset 12: L0N (where L1N belongs), L2N, L3N, L1P, L2P, L3P, in that
   * order.  The fields overlap: L3N (bits 20..24) clears bit 23 that L0N
   * (bits 19..23) set, and L2P (bits 15..19) then rewrites bit 19.  What is
   * left is bits 9, 14, 19, 24 and 29 set and the rest of bits 5..29 clear.
   */
  function PresetsAt12(w: Word): (w': Word)
    ensures w' & 0x3FFF_FFE0 == 0x2108_4200
    ensures w' & !0x3FFF_FFE0 == w & !0x3FFF_FFE0
  {
    Insert(Insert(Insert(Insert(Insert(Insert(w,
      0x10, L0nHstxResShift, L0nHstxResMask),
      0x10, L2nHstxResShift, L2nHstxResMask),
      0x10, L3nHstxResShift, L3nHstxResMask),
      0x10, L1pHstxResShift, L1pHstxResMask),
      0x10, L2pHstxResShift, L2pHstxResMask),
      0x10, L3pHstxResShift, L3pHstxResMask)
  }

  /** Offset 16: the L4N then the L4P field, each set to 0x10. */
  function PresetsAt16(w: Word): (w': Word)
    ensures w' & 0x0000_03FF == 0x0000_0210
    ensures w' & !0x0000_03FF == w & !0x0000_03FF
  {
    Insert(Insert(w, 0x10, L4nHstxResShift, L4nHstxResMask), 0x10, L4pHstxResShift, L4pHstxResMask)
  }

  /** The ten HSTX-resistance writes of stf_dphy_configure, in source order. */
  function HstxResPresets(r: Window): (r': Window)
    requires Mapped(r)
    ensures r'.Keys == r.Keys
    ensures r'[Syscfg8] == PresetsAt8(r[Syscfg8])
    ensures r'[Syscfg12] == PresetsAt12(r[Syscfg12])
    ensures r'[Syscfg16] == PresetsAt16(r[Syscfg16])
    ensures forall o :: o in r && o != Syscfg8 && o != Syscfg12 && o != Syscfg16 ==> r'[o] == r[o]
  {
    var r1 := Written(r, Syscfg8, 0x10, L0nHstxResShift, L0nHstxResMask);
    var r2 := Written(r1, Syscfg12, 0x10, L0nHstxResShift, L0nHstxResMask);
    var r3 := Written(r2, Syscfg12, 0x10, L2nHstxResShift, L2nHstxResMask);
    var r4 := Written(r3, Syscfg12, 0x10, L3nHstxResShift, L3nHstxResMask);
    var r5 := Written(r4, Syscfg16, 0x10, L4nHstxResShift, L4nHstxResMask);
    var r6 := Written(r5, Syscfg8, 0x10, L0pHstxResShift, L0pHstxResMask);
    var r7 := Written(r6, Syscfg12, 0x10, L1pHstxResShift, L1pHstxResMask);
    var r8 := Written(r7, Syscfg12, 0x10, L2pHstxResShift, L2pHstxResMask);
    var r9 := Written(r8, Syscfg12, 0x10, L3pHstxResShift, L3pHstxResMask);
    Written(r9, Syscfg16, 0x10, L4pHstxResShift, L4pHstxResMask)
  }

  // ---------------------------------------------------------------------------
  // Reference clock, power-ready and lane swap (first writes for a matched row)

  /** Offset 100: the reference-clock select set to STF_DPHY_REFCLK_12M; resetb and the rest kept. */
  function RefclkAt100(w: Word): (w': Word)
    ensures Extract(w', RefclkInSelShift, RefclkInSelMask) == Refclk12M
    ensures w' & !RefclkInSelMask == w & !RefclkInSelMask
  {
    Insert(w, Refclk12M, RefclkInSelShift, RefclkInSelMask)
  }

  /**
   * Offset 0: AON power-ready-n set active (0), then the five lane-swap
   * selectors maps[0..4] into consecutive 3-bit fields from bit 12, each
   * truncated to its three bits.  Bits 1..11 and 27..31 are kept.
   */
  function LanesAt0(w: Word, maps: seq<bv8>): (w': Word)
    requires |maps| == MapLanesNum
    ensures Extract(w', AonPowerReadyNShift, AonPowerReadyNMask) == AonPowerReadyNActive
    ensures Extract(w', CfgL0SwapSelShift, CfgL0SwapSelMask) == (maps[0] as Word) & 0x7
    ensures Extract(w', CfgL1SwapSelShift, CfgL1SwapSelMask) == (maps[1] as Word) & 0x7
    ensures Extract(w', CfgL2SwapSelShift, CfgL2SwapSelMask) == (maps[2] as Word) & 0x7
    ensures Extract(w', CfgL3SwapSelShift, CfgL3SwapSelMask) == (maps[3] as Word) & 0x7
    ensures Extract(w', CfgL4SwapSelShift, CfgL4SwapSelMask) == (maps[4] as Word) & 0x7
    ensures w' & !0x07FF_F001 == w & !0x07FF_F001
  {
    Insert(Insert(Insert(Insert(Insert(Insert(w,
      AonPowerReadyNActive, AonPowerReadyNShift, AonPowerReadyNMask),
      maps[0] as Word, CfgL0SwapSelShift, CfgL0SwapSelMask),
      maps[1] as Word, CfgL1SwapSelShift, CfgL1SwapSelMask),
      maps[2] as Word, CfgL2SwapSelShift, CfgL2SwapSelMask),
      maps[3] as Word, CfgL3SwapSelShift, CfgL3SwapSelMask),
      maps[4] as Word, CfgL4SwapSelShift, CfgL4SwapSelMask)
  }

  /** The reference-clock, power-ready and lane-setting writes, in source order. */
  function ProgramLanes(r: Window, maps: seq<bv8>): (r': Window)
    requires Mapped(r) && |maps| == MapLanesNum
    ensures r'.Keys == r.Keys
    ensures r'[Syscfg100] == RefclkAt100(r[Syscfg100])
    ensures r'[Syscfg0] == LanesAt0(r[Syscfg0], maps)
    ensures forall o :: o in r && o != Syscfg0 && o != Syscfg100 ==> r'[o] == r[o]
  {
    var r1 := Written(r, Syscfg100, Refclk12M, RefclkInSelShift, RefclkInSelMask);
    var r2 := Written(r1, Syscfg0, AonPowerReadyNActive, AonPowerReadyNShift, AonPowerReadyNMask);
    var r3 := Written(r2, Syscfg0, maps[0] as Word, CfgL0SwapSelShift, CfgL0SwapSelMask);
    var r4 := Written(r3, Syscfg0, maps[1] as Word, CfgL1SwapSelShift, CfgL1SwapSelMask);
    var r5 := Written(r4, Syscfg0, maps[2] as Word, CfgL2SwapSelShift, CfgL2SwapSelMask);
    var r6 := Written(r5, Syscfg0, maps[3] as Word, CfgL3SwapSelShift, CfgL3SwapSelMask);
    Written(r6, Syscfg0, maps[4] as Word, CfgL4SwapSelShift, CfgL4SwapSelMask)
  }

  // ---------------------------------------------------------------------------
  // PLL setting

  /** Offset 28: spread-spectrum clocking disabled; the rest kept. */
  function SscAt28(w: Word): (w': Word)
    ensures Extract(w', PllSscEnShift, PllSscEnMask) == 0
    ensures w' & !PllSscEnMask == w & !PllSscEnMask
  {
    Insert(w, 0x0, PllSscEnShift, PllSscEnMask)
  }

  /**
   * Offset 24: LDO stability x2 and FM enabled, then the pre-divider and the
   * integer feedback of the row.  The four fields are disjoint, so each reads
   * back what was written to it, truncated by its mask; bits 13..31 are kept.
   */
  function PllAt24(w: Word, p: M31Config): (w': Word)
    ensures Extract(w', PllLdoStbX2EnShift, PllLdoStbX2EnMask) == 1
    ensures Extract(w', PllFmEnShift, PllFmEnMask) == 1
    ensures Extract(w', PllPreDivShift, PllPreDivMask) == p.pllPrevDiv & 0x3
    ensures Extract(w', PllFbkIntShift, PllFbkIntMask) == p.pllFbkInt & 0x1FF
    ensures w' & !0x0000_1FFF == w & !0x0000_1FFF
  {
    Insert(Insert(Insert(Insert(w,
      0x1, PllLdoStbX2EnShift, PllLdoStbX2EnMask),
      0x1, PllFmEnShift, PllFmEnMask),
      p.pllPrevDiv, PllPreDivShift, PllPreDivMask),
      p.pllFbkInt, PllFbkIntShift, PllFbkIntMask)
  }

  /** Offset 20: the 24-bit fractional feedback of the row; bits 24..31 kept. */
  function FbkFraAt20(w: Word, p: M31Config): (w': Word)
    ensures Extract(w', PllFbkFraShift, PllFbkFraMask) == p.pllFbkFra & 0xFF_FFFF
    ensures w' & !PllFbkFraMask == w & !PllFbkFraMask
  {
    LowFieldReadsBack(w, p.pllFbkFra);
    Insert(w, p.pllFbkFra, PllFbkFraShift, PllFbkFraMask)
  }

  /** The 24-bit field at bit 0 reads back the low 24 bits of what was written. */
  lemma LowFieldReadsBack(w: Word, d: Word)
    ensures Extract(Insert(w, d, PllFbkFraShift, PllFbkFraMask), PllFbkFraShift, PllFbkFraMask) == d & 0xFF_FFFF
  {
  }

  /** The PLL writes of stf_dphy_configure for row `p`, in source order. */
  function ProgramPll(r: Window, p: M31Config): (r': Window)
    requires Mapped(r)
    ensures r'.Keys == r.Keys
    ensures r'[Syscfg28] == SscAt28(r[Syscfg28])
    ensures r'[Syscfg24] == PllAt24(r[Syscfg24], p)
    ensures r'[Syscfg20] == FbkFraAt20(r[Syscfg20], p)
    ensures forall o :: o in r && o != Syscfg20 && o != Syscfg24 && o != Syscfg28 ==> r'[o] == r[o]
  {
    var r1 := Written(r, Syscfg28, 0x0, PllSscEnShift, PllSscEnMask);
    var r2 := Written(r1, Syscfg24, 0x1, PllLdoStbX2EnShift, PllLdoStbX2EnMask);
    var r3 := Written(r2, Syscfg24, 0x1, PllFmEnShift, PllFmEnMask);
    var r4 := Written(r3, Syscfg24, p.pllPrevDiv, PllPreDivShift, PllPreDivMask);
    var r5 := Written(r4, Syscfg24, p.pllFbkInt, PllFbkIntShift, PllFbkIntMask);
    Written(r5, Syscfg20, p.pllFbkFra, PllFbkFraShift, PllFbkFraMask)
  }

  // ---------------------------------------------------------------------------
  // Extended cycle select and HS timings

  /** Offset 40: the extended cycle select of the row; bits 3..31 kept. */
  function ExtdAt40(w: Word, p: M31Config): (w': Word)
    ensures Extract(w', ExtdCycleSelShift, ExtdCycleSelMask) == p.extdCycleSel & 0x7
    ensures w' & !ExtdCycleSelMask == w & !ExtdCycleSelMask
  {
    Insert(w, p.extdCycleSel, ExtdCycleSelShift, ExtdCycleSelMask)
  }

  /**
   * Offset 36: the data-lane HS prepare time (written twice), zero and trail
   * times, then the clock-lane HS zero time.  The four byte fields cover the
   * word and each reads back its value truncated to eight bits.
   */
  function TimingsAt36(w: Word, p: M31Config): (w': Word)
    ensures Extract(w', DlaneHsPreTimeShift, DlaneHsPreTimeMask) == p.dlaneHsPreTime & 0xFF
    ensures Extract(w', DlaneHsZeroTimeShift, DlaneHsZeroTimeMask) == p.dlaneHsZeroTime & 0xFF
    ensures Extract(w', DlaneHsTrailTimeShift, DlaneHsTrailTimeMask) == p.dlaneHsTrailTime & 0xFF
    ensures Extract(w', ClaneHsZeroTimeShift, ClaneHsZeroTimeMask) == p.claneHsZeroTime & 0xFF
  {
    Insert(Insert(Insert(Insert(Insert(w,
      p.dlaneHsPreTime, DlaneHsPreTimeShift, DlaneHsPreTimeMask),
      p.dlaneHsPreTime, DlaneHsPreTimeShift, DlaneHsPreTimeMask),
      p.dlaneHsZeroTime, DlaneHsZeroTimeShift, DlaneHsZeroTimeMask),
      p.dlaneHsTrailTime, DlaneHsTrailTimeShift, DlaneHsTrailTimeMask),
      p.claneHsZeroTime, ClaneHsZeroTimeShift, ClaneHsZeroTimeMask)
  }

  /**
   * Offset 32: the clock-lane HS prepare and trail times, then the clock
   * pre and post times.  The four byte fields cover the word.
   */
  function TimingsAt32(w: Word, p: M31Config): (w': Word)
    ensures Extract(w', ClaneHsPreTimeShift, ClaneHsPreTimeMask) == p.claneHsPreTime & 0xFF
    ensures Extract(w', ClaneHsTrailTimeShift, ClaneHsTrailTimeMask) == p.claneHsTrailTime & 0xFF
    ensures Extract(w', ClaneHsClkPreTimeShift, ClaneHsClkPreTimeMask) == p.claneHsClkPreTime & 0xFF
    ensures Extract(w', ClaneHsClkPostTimeShift, ClaneHsClkPostTimeMask) == p.claneHsClkPostTime & 0xFF
  {
    Insert(Insert(Insert(Insert(w,
      p.claneHsPreTime, ClaneHsPreTimeShift, ClaneHsPreTimeMask),
      p.claneHsTrailTime, ClaneHsTrailTimeShift, ClaneHsTrailTimeMask),
      p.claneHsClkPreTime, ClaneHsClkPreTimeShift, ClaneHsClkPreTimeMask),
      p.claneHsClkPostTime, ClaneHsClkPostTimeShift, ClaneHsClkPostTimeMask)
  }

  /** The extended-cycle and HS-timing writes for row `p`, in source order. */
  function ProgramTimings(r: Window, p: M31Config): (r': Window)
    requires Mapped(r)
    ensures r'.Keys == r.Keys
    ensures r'[Syscfg40] == ExtdAt40(r[Syscfg40], p)
    ensures r'[Syscfg36] == TimingsAt36(r[Syscfg36], p)
    ensures r'[Syscfg32] == TimingsAt32(r[Syscfg32], p)
    ensures forall o :: o in r && o != Syscfg32 && o != Syscfg36 && o != Syscfg40 ==> r'[o] == r[o]
  {
    var r1 := Written(r, Syscfg40, p.extdCycleSel, ExtdCycleSelShift, ExtdCycleSelMask);
    var r2 := Written(r1, Syscfg36, p.dlaneHsPreTime, DlaneHsPreTimeShift, DlaneHsPreTimeMask);
    var r3 := Written(r2, Syscfg36, p.dlaneHsPreTime, DlaneHsPreTimeShift, DlaneHsPreTimeMask);
    var r4 := Written(r3, Syscfg36, p.dlaneHsZeroTime, DlaneHsZeroTimeShift, DlaneHsZeroTimeMask);
    var r5 := Written(r4, Syscfg36, p.dlaneHsTrailTime, DlaneHsTrailTimeShift, DlaneHsTrailTimeMask);
    var r6 := Written(r5, Syscfg32, p.claneHsPreTime, ClaneHsPreTimeShift, ClaneHsPreTimeMask);
    var r7 := Written(r6, Syscfg36, p.claneHsZeroTime, ClaneHsZeroTimeShift, ClaneHsZeroTimeMask);
    var r8 := Written(r7, Syscfg32, p.claneHsTrailTime, ClaneHsTrailTimeShift, ClaneHsTrailTimeMask);
    var r9 := Written(r8, Syscfg32, p.claneHsClkPreTime, ClaneHsClkPreTimeShift, ClaneHsClkPreTimeMask);
    Written(r9, Syscfg32, p.claneHsClkPostTime, ClaneHsClkPostTimeShift, ClaneHsClkPostTimeMask)
  }

  /** The words a matched row writes. */
  const RowOffsets: set<nat> := {Syscfg0, Syscfg20, Syscfg24, Syscfg28, Syscfg32, Syscfg36, Syscfg40, Syscfg100}

  /** Everything stf_dphy_configure writes once row `p` has matched. */
  function ProgramRow(r: Window, p: M31Config, maps: seq<bv8>): (r': Window)
    requires Mapped(r) && |maps| == MapLanesNum
    ensures r'.Keys == r.Keys
    ensures r'[Syscfg0] == LanesAt0(r[Syscfg0], maps)
    ensures r'[Syscfg100] == RefclkAt100(r[Syscfg100])
    ensures r'[Syscfg20] == FbkFraAt20(r[Syscfg20], p)
    ensures r'[Syscfg24] == PllAt24(r[Syscfg24], p)
    ensures r'[Syscfg28] == SscAt28(r[Syscfg28])
    ensures r'[Syscfg32] == TimingsAt32(r[Syscfg32], p)
    ensures r'[Syscfg36] == TimingsAt36(r[Syscfg36], p)
    ensures r'[Syscfg40] == ExtdAt40(r[Syscfg40], p)
    ensures forall o :: o in r && o !in RowOffsets ==> r'[o] == r[o]
  {
    ProgramTimings(ProgramPll(ProgramLanes(r, maps), p), p)
  }

  // ---------------------------------------------------------------------------
  // stf_dphy_configure as a whole

  /**
   * The window after the row search of stf_dphy_configure for the rounded
   * rate `bitrate`, from the window `presets` the HSTX writes left: the
   * programming of the selected row, or no change when no row matches.
   */
  function Programmed(presets: Window, bitrate: nat, maps: seq<bv8>): (r': Window)
    requires Mapped(presets) && |maps| == MapLanesNum
    ensures r'.Keys == presets.Keys
    ensures forall o :: o in presets && o !in RowOffsets ==> r'[o] == presets[o]
  {
    var i := SelectIndex(bitrate);
    if i < |Table()| then ProgramRow(presets, Table()[i], maps) else presets
  }

  /** Programming the row the search selects is Programmed. */
  lemma ProgrammedAt(presets: Window, bitrate: nat, maps: seq<bv8>, i: nat, r': Window)
    requires Mapped(presets) && |maps| == MapLanesNum
    requires SelectIndex(bitrate) == i && i < |Table()|
    requires r' == ProgramRow(presets, Table()[i], maps)
    ensures r' == Programmed(presets, bitrate, maps)
  {
  }

  /**
   * The window after stf_dphy_configure for the u32 bit rate `rate`: the HSTX
   * presets, then, when the rate rounded up to 10 MHz selects a row, that
   * row's programming.
   */
  function ConfigureRegs(r: Window, rate: nat, maps: seq<bv8>): (r': Window)
    requires Mapped(r) && |maps| == MapLanesNum && rate < 0x1_0000_0000
    ensures r'.Keys == r.Keys
    ensures r'[Syscfg8] == PresetsAt8(r[Syscfg8])
    ensures r'[Syscfg12] == PresetsAt12(r[Syscfg12])
    ensures r'[Syscfg16] == PresetsAt16(r[Syscfg16])
  {
    assert Syscfg8 !in RowOffsets && Syscfg12 !in RowOffsets && Syscfg16 !in RowOffsets;
    Programmed(HstxResPresets(r), RoundRate(rate), maps)
  }

  // ---------------------------------------------------------------------------
  // PLL lock and the analog reset

  /**
   * is_pll_locked: the PLL-unlock status bit reads 0.  The driver asks for
   * offset 8, but stf_dphy_get_reg reads the word at offset 0.
   */
  predicate IsPllLocked(r: Window)
    requires Syscfg0 in r
    ensures IsPllLocked(r) <==> r[Syscfg0] & RgsCdtxPllUnlockMask == 0
  {
    GetReg(r, Syscfg8, RgsCdtxPllUnlockShift, RgsCdtxPllUnlockMask) == 0
  }

  /** Offset 100 after stf_dphy_hw_reset(assert): resetb (bit 29) reads !assert; the rest kept. */
  function ResetbAt100(w: Word, doAssert: bool): (w': Word)
    ensures Extract(w', ResetbShift, ResetbMask) == if doAssert then 0 else 1
    ensures w' & !ResetbMask == w & !ResetbMask
  {
    Insert(w, if doAssert then 0 else 1, ResetbShift, ResetbMask)
  }

  /** The window after the write of stf_dphy_hw_reset(assert). */
  function HwResetRegs(r: Window, doAssert: bool): (r': Window)
    requires Mapped(r)
    ensures r'.Keys == r.Keys
    ensures r'[Syscfg100] == ResetbAt100(r[Syscfg100], doAssert)
    ensures forall o :: o in r && o != Syscfg100 ==> r'[o] == r[o]
  {
    Written(r, Syscfg100, if doAssert then 0 else 1, ResetbShift, ResetbMask)
  }

  /**
   * The window after the register writes of stf_dphy_init: the analog reset
   * released, offset 48 bits 1..4 (the TX-ready and PPI clock-ready selects)
   * cleared, and the whole word at offset 44 set to 0x30.
   */
  function InitRegs(r: Window): (r': Window)
    requires Mapped(r)
    ensures r'.Keys == r.Keys
    ensures r'[Syscfg100] == ResetbAt100(r[Syscfg100], false)
    ensures r'[Syscfg48] & 0x0000_001E == 0
    ensures r'[Syscfg48] & !0x0000_001E == r[Syscfg48] & !0x0000_001E
    ensures r'[Syscfg44] == 0x30
    ensures forall o :: o in r && o != Syscfg44 && o != Syscfg48 && o != Syscfg100 ==> r'[o] == r[o]
  {
    var r1 := HwResetRegs(r, false);
    var r2 := Written(r1, Syscfg48, 0, ScfgPpiCReadySelShift, ScfgPpiCReadySelMask);
    var r3 := Written(r2, Syscfg48, 0, ScfgDsiTxreadyEscSelShift, ScfgDsiTxreadyEscSelMask);
    Written(r3, Syscfg44, 0x30, ScfgCHsPreZeroTimeShift, ScfgCHsPreZeroTimeMask)
  }
}
