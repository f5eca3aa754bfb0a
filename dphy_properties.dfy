/**
 * Properties of the register programming: what stf_dphy_configure leaves in
 * the window with and without a matching row, the PLL-lock reading that
 * stf_dphy_get_reg takes from offset 0, and the 630 MHz case end to end.
 */
module DphyProperties {
  import opened Registers
  import opened DphyFields
  import opened ConfigTable
  import opened ConfigLookup
  import opened DphyProgram

  /** The lane map of starfive_dphy_info: data lanes 0..3, then the clock lane. */
  const DefaultMaps: seq<bv8> := [0, 1, 2, 3, 4]

  /**
   * The lock reading is bit 18 of the word at offset 0 (the low bit of the
   * lane-2 swap selector, as IsPllLocked states), so the word at offset 8,
   * the one the lock status is named after, plays no part in it.
   */
  lemma PllLockReadsOffset0(r: Window, v: Word)
    requires Syscfg0 in r
    ensures IsPllLocked(r[Syscfg8 := v]) == IsPllLocked(r)
  {
    assert r[Syscfg8 := v][Syscfg0] == r[Syscfg0];
  }

  /** hw_reset and init write nothing at offset 0, so they never change the lock reading. */
  lemma ResetKeepsLockReading(r: Window, doAssert: bool)
    requires Mapped(r)
    ensures IsPllLocked(HwResetRegs(r, doAssert)) == IsPllLocked(r)
    ensures IsPllLocked(InitRegs(r)) == IsPllLocked(r)
  {
    assert HwResetRegs(r, doAssert)[Syscfg0] == r[Syscfg0];
    assert InitRegs(r)[Syscfg0] == r[Syscfg0];
  }

  /** Writing the data-lane HS prepare time a second time changes nothing. */
  lemma DlanePreWrittenTwice(w: Word, x: Word)
    ensures var once := Insert(w, x, DlaneHsPreTimeShift, DlaneHsPreTimeMask);
            Insert(once, x, DlaneHsPreTimeShift, DlaneHsPreTimeMask) == once
  {
    MergeIdempotent(w, x << DlaneHsPreTimeShift, DlaneHsPreTimeMask);
  }

  /** A covered rate selects a row, and that row is for the rate and fits its fields. */
  lemma SelectedRow(b: nat)
    requires Covered(b)
    ensures SelectIndex(b) < |Table()|
    ensures Table()[SelectIndex(b)].bitrate == b && FitsFields(Table()[SelectIndex(b)])
  {
    RowFoundIff(b);
    TableShape();
  }

  /** With a match, the search programs the selected row on top of the presets. */
  lemma ProgrammedMatch(presets: Window, b: nat, maps: seq<bv8>)
    requires Mapped(presets) && |maps| == MapLanesNum
    requires Covered(b)
    ensures SelectIndex(b) < |Table()|
    ensures Programmed(presets, b, maps) == ProgramRow(presets, Table()[SelectIndex(b)], maps)
  {
    RowFoundIff(b);
  }

  /** Without a match, the search leaves the presets as they are. */
  lemma ProgrammedNoMatch(presets: Window, b: nat, maps: seq<bv8>)
    requires Mapped(presets) && |maps| == MapLanesNum
    requires !Covered(b)
    ensures Programmed(presets, b, maps) == presets
  {
    RowFoundIff(b);
  }

  /** Whatever the rate, the search writes none of the preset words 8, 12 and 16. */
  lemma ProgrammedKeepsPresets(presets: Window, b: nat, maps: seq<bv8>)
    requires Mapped(presets) && |maps| == MapLanesNum
    ensures Programmed(presets, b, maps)[Syscfg8] == presets[Syscfg8]
    ensures Programmed(presets, b, maps)[Syscfg12] == presets[Syscfg12]
    ensures Programmed(presets, b, maps)[Syscfg16] == presets[Syscfg16]
  {
    assert Syscfg8 !in RowOffsets && Syscfg12 !in RowOffsets && Syscfg16 !in RowOffsets;
  }

  /** For a row that fits its fields, every PLL field reads back the row's value. */
  lemma PllReadsBack(w20: Word, w24: Word, w28: Word, p: M31Config)
    requires FitsFields(p)
    ensures Extract(PllAt24(w24, p), PllPreDivShift, PllPreDivMask) == p.pllPrevDiv
    ensures Extract(PllAt24(w24, p), PllFbkIntShift, PllFbkIntMask) == p.pllFbkInt
    ensures Extract(FbkFraAt20(w20, p), PllFbkFraShift, PllFbkFraMask) == p.pllFbkFra
    ensures Extract(PllAt24(w24, p), PllLdoStbX2EnShift, PllLdoStbX2EnMask) == 1
    ensures Extract(PllAt24(w24, p), PllFmEnShift, PllFmEnMask) == 1
    ensures Extract(SscAt28(w28), PllSscEnShift, PllSscEnMask) == 0
  {
  }

  /** For a row that fits its fields, every HS-timing field and the extended cycle select read back the row's value. */
  lemma TimingsReadBack(w32: Word, w36: Word, w40: Word, p: M31Config)
    requires FitsFields(p)
    ensures Extract(ExtdAt40(w40, p), ExtdCycleSelShift, ExtdCycleSelMask) == p.extdCycleSel
    ensures Extract(TimingsAt36(w36, p), DlaneHsPreTimeShift, DlaneHsPreTimeMask) == p.dlaneHsPreTime
    ensures Extract(TimingsAt36(w36, p), DlaneHsZeroTimeShift, DlaneHsZeroTimeMask) == p.dlaneHsZeroTime
    ensures Extract(TimingsAt36(w36, p), DlaneHsTrailTimeShift, DlaneHsTrailTimeMask) == p.dlaneHsTrailTime
    ensures Extract(TimingsAt36(w36, p), ClaneHsZeroTimeShift, ClaneHsZeroTimeMask) == p.claneHsZeroTime
    ensures Extract(TimingsAt32(w32, p), ClaneHsPreTimeShift, ClaneHsPreTimeMask) == p.claneHsPreTime
    ensures Extract(TimingsAt32(w32, p), ClaneHsTrailTimeShift, ClaneHsTrailTimeMask) == p.claneHsTrailTime
    ensures Extract(TimingsAt32(w32, p), ClaneHsClkPreTimeShift, ClaneHsClkPreTimeMask) == p.claneHsClkPreTime
    ensures Extract(TimingsAt32(w32, p), ClaneHsClkPostTimeShift, ClaneHsClkPostTimeMask) == p.claneHsClkPostTime
  {
  }

  /**
   * With a match, every PLL field reads back exactly the selected row's value,
   * the LDO and FM enables read 1 and spread spectrum reads 0.
   */
  lemma ConfigureProgramsPll(r: Window, rate: nat, maps: seq<bv8>)
    requires Mapped(r) && |maps| == MapLanesNum && rate < 0x1_0000_0000
    requires Covered(RoundRate(rate))
    ensures SelectIndex(RoundRate(rate)) < |Table()|
    ensures var p := Table()[SelectIndex(RoundRate(rate))];
            var r' := ConfigureRegs(r, rate, maps);
            && p.bitrate == RoundRate(rate)
            && Extract(r'[Syscfg24], PllPreDivShift, PllPreDivMask) == p.pllPrevDiv
            && Extract(r'[Syscfg24], PllFbkIntShift, PllFbkIntMask) == p.pllFbkInt
            && Extract(r'[Syscfg20], PllFbkFraShift, PllFbkFraMask) == p.pllFbkFra
            && Extract(r'[Syscfg24], PllLdoStbX2EnShift, PllLdoStbX2EnMask) == 1
            && Extract(r'[Syscfg24], PllFmEnShift, PllFmEnMask) == 1
            && Extract(r'[Syscfg28], PllSscEnShift, PllSscEnMask) == 0
  {
    var b := RoundRate(rate);
    var presets := HstxResPresets(r);
    SelectedRow(b);
    ProgrammedMatch(presets, b, maps);
    var p := Table()[SelectIndex(b)];
    PllReadsBack(presets[Syscfg20], presets[Syscfg24], presets[Syscfg28], p);
  }

  /** With a match, every HS-timing field and the extended cycle select read back exactly the selected row's value. */
  lemma ConfigureProgramsTimings(r: Window, rate: nat, maps: seq<bv8>)
    requires Mapped(r) && |maps| == MapLanesNum && rate < 0x1_0000_0000
    requires Covered(RoundRate(rate))
    ensures SelectIndex(RoundRate(rate)) < |Table()|
    ensures var p := Table()[SelectIndex(RoundRate(rate))];
            var r' := ConfigureRegs(r, rate, maps);
            && Extract(r'[Syscfg40], ExtdCycleSelShift, ExtdCycleSelMask) == p.extdCycleSel
            && Extract(r'[Syscfg36], DlaneHsPreTimeShift, DlaneHsPreTimeMask) == p.dlaneHsPreTime
            && Extract(r'[Syscfg36], DlaneHsZeroTimeShift, DlaneHsZeroTimeMask) == p.dlaneHsZeroTime
            && Extract(r'[Syscfg36], DlaneHsTrailTimeShift, DlaneHsTrailTimeMask) == p.dlaneHsTrailTime
            && Extract(r'[Syscfg36], ClaneHsZeroTimeShift, ClaneHsZeroTimeMask) == p.claneHsZeroTime
            && Extract(r'[Syscfg32], ClaneHsPreTimeShift, ClaneHsPreTimeMask) == p.claneHsPreTime
            && Extract(r'[Syscfg32], ClaneHsTrailTimeShift, ClaneHsTrailTimeMask) == p.claneHsTrailTime
            && Extract(r'[Syscfg32], ClaneHsClkPreTimeShift, ClaneHsClkPreTimeMask) == p.claneHsClkPreTime
            && Extract(r'[Syscfg32], ClaneHsClkPostTimeShift, ClaneHsClkPostTimeMask) == p.claneHsClkPostTime
  {
    var b := RoundRate(rate);
    var presets := HstxResPresets(r);
    SelectedRow(b);
    ProgrammedMatch(presets, b, maps);
    var p := Table()[SelectIndex(b)];
    TimingsReadBack(presets[Syscfg32], presets[Syscfg36], presets[Syscfg40], p);
  }

  /**
   * With a match, offset 0 holds power-ready-n active and the five lane
   * selectors, each truncated to three bits, and offset 100 selects the 12 MHz
   * reference clock while resetb keeps its value.
   */
  lemma ConfigureProgramsLanes(r: Window, rate: nat, maps: seq<bv8>)
    requires Mapped(r) && |maps| == MapLanesNum && rate < 0x1_0000_0000
    requires Covered(RoundRate(rate))
    ensures var r' := ConfigureRegs(r, rate, maps);
            && Extract(r'[Syscfg0], AonPowerReadyNShift, AonPowerReadyNMask) == AonPowerReadyNActive
            && Extract(r'[Syscfg0], CfgL0SwapSelShift, CfgL0SwapSelMask) == (maps[0] as Word) & 0x7
            && Extract(r'[Syscfg0], CfgL1SwapSelShift, CfgL1SwapSelMask) == (maps[1] as Word) & 0x7
            && Extract(r'[Syscfg0], CfgL2SwapSelShift, CfgL2SwapSelMask) == (maps[2] as Word) & 0x7
            && Extract(r'[Syscfg0], CfgL3SwapSelShift, CfgL3SwapSelMask) == (maps[3] as Word) & 0x7
            && Extract(r'[Syscfg0], CfgL4SwapSelShift, CfgL4SwapSelMask) == (maps[4] as Word) & 0x7
            && Extract(r'[Syscfg100], RefclkInSelShift, RefclkInSelMask) == Refclk12M
            && r'[Syscfg100] & ResetbMask == r[Syscfg100] & ResetbMask
  {
    var b := RoundRate(rate);
    var presets := HstxResPresets(r);
    ProgrammedMatch(presets, b, maps);
  }

  /** Whatever the rate, configure leaves the HSTX preset words 8, 12 and 16 as the presets left them. */
  lemma ConfigureKeepsPresets(r: Window, rate: nat, maps: seq<bv8>)
    requires Mapped(r) && |maps| == MapLanesNum && rate < 0x1_0000_0000
    ensures ConfigureRegs(r, rate, maps)[Syscfg8] == PresetsAt8(r[Syscfg8])
    ensures ConfigureRegs(r, rate, maps)[Syscfg12] == PresetsAt12(r[Syscfg12])
    ensures ConfigureRegs(r, rate, maps)[Syscfg16] == PresetsAt16(r[Syscfg16])
  {
    ProgrammedKeepsPresets(HstxResPresets(r), RoundRate(rate), maps);
  }

  /**
   * Without a matching row configure writes the ten presets and nothing else:
   * every word other than 8, 12 and 16 is as before.
   */
  lemma ConfigureWithoutMatch(r: Window, rate: nat, maps: seq<bv8>)
    requires Mapped(r) && |maps| == MapLanesNum && rate < 0x1_0000_0000
    requires !Covered(RoundRate(rate))
    ensures ConfigureRegs(r, rate, maps) == HstxResPresets(r)
    ensures forall o :: o in r && o != Syscfg8 && o != Syscfg12 && o != Syscfg16 ==>
              ConfigureRegs(r, rate, maps)[o] == r[o]
  {
    ProgrammedNoMatch(HstxResPresets(r), RoundRate(rate), maps);
  }

  /**
   * After a configure that matched, the lock reading is the low bit of the
   * lane-2 selector maps[2]: the PLL never enters into it.
   */
  lemma ConfigureLockReadsLane2(r: Window, rate: nat, maps: seq<bv8>)
    requires Mapped(r) && |maps| == MapLanesNum && rate < 0x1_0000_0000
    requires Covered(RoundRate(rate))
    ensures IsPllLocked(ConfigureRegs(r, rate, maps)) <==> maps[2] & 1 == 0
  {
    ConfigureProgramsLanes(r, rate, maps);
    PllLockReadsOffset0(ConfigureRegs(r, rate, maps), 0);
  }

  /** With the default lane map, a configure that matched always leaves the lock reading "locked". */
  lemma DefaultMapsReadLocked(r: Window, rate: nat)
    requires Mapped(r) && rate < 0x1_0000_0000
    requires Covered(RoundRate(rate))
    ensures IsPllLocked(ConfigureRegs(r, rate, DefaultMaps))
  {
    ConfigureLockReadsLane2(r, rate, DefaultMaps);
  }

  /** A request anywhere in (620 MHz, 630 MHz] programs the 630 MHz row. */
  lemma Configure630(r: Window, rate: nat, maps: seq<bv8>)
    requires Mapped(r) && |maps| == MapLanesNum
    requires 620000000 < rate <= 630000000
    ensures var r' := ConfigureRegs(r, rate, maps);
            && Extract(r'[Syscfg24], PllPreDivShift, PllPreDivMask) == 0x0
            && Extract(r'[Syscfg24], PllFbkIntShift, PllFbkIntMask) == 0x69
            && Extract(r'[Syscfg20], PllFbkFraShift, PllFbkFraMask) == 0x0
            && Extract(r'[Syscfg40], ExtdCycleSelShift, ExtdCycleSelMask) == 0x1
            && Extract(r'[Syscfg36], DlaneHsPreTimeShift, DlaneHsPreTimeMask) == 0x7
            && Extract(r'[Syscfg36], DlaneHsZeroTimeShift, DlaneHsZeroTimeMask) == 0x12
            && Extract(r'[Syscfg36], DlaneHsTrailTimeShift, DlaneHsTrailTimeMask) == 0xd
            && Extract(r'[Syscfg32], ClaneHsPreTimeShift, ClaneHsPreTimeMask) == 0x5
            && Extract(r'[Syscfg36], ClaneHsZeroTimeShift, ClaneHsZeroTimeMask) == 0x2a
            && Extract(r'[Syscfg32], ClaneHsTrailTimeShift, ClaneHsTrailTimeMask) == 0xc
            && Extract(r'[Syscfg32], ClaneHsClkPreTimeShift, ClaneHsClkPreTimeMask) == 0x1
            && Extract(r'[Syscfg32], ClaneHsClkPostTimeShift, ClaneHsClkPostTimeMask) == 0x15
  {
    assert RoundRate(rate) == 630000000;
    Select630();
    Row630();
    RowFoundIff(630000000);
    ConfigureProgramsPll(r, rate, maps);
    ConfigureProgramsTimings(r, rate, maps);
  }
}
