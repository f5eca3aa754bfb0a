/**
 * The driver object struct stf_dphy and its phy operations: the register
 * window, the lane map of its stf_dphy_info, and the state of the two
 * collaborators it drives, the txesc clock and the sys reset line.
 *
 * The clock and reset calls are foreign; each is modelled by the error code
 * it returns (0 for success), which is an input of the operation that makes it.
 */
module Dphy {
  import opened Registers
  import opened DphyFields
  import opened ConfigTable
  import opened ConfigLookup
  import opened DphyProgram

  /** -EINVAL, as the driver returns it. */
  const EINVAL: int := 22

  /** The phy mode asked of stf_dphy_validate. */
  datatype PhyMode = MipiDphy | OtherMode(code: nat)

  /** stf_dphy_validate: only the MIPI D-PHY mode is accepted; submode and options are not looked at. */
  function Validate(mode: PhyMode, submode: int): (ret: int)
    ensures ret == 0 || ret == -EINVAL
    ensures ret == -EINVAL <==> mode != MipiDphy
  {
    if mode != MipiDphy then -EINVAL else 0
  }

  /**
   * The rounding step of stf_dphy_configure on its u32 local: a rate that is
   * not a multiple of STF_DPHY_BITRATE_ALIGN is raised by the distance to the
   * next multiple, the sum taken modulo 2^32.  It mirrors the in-place
   * `bitrate +=` of the driver step by step; RoundRate is the same value as a
   * function, and carries the promises about the result.
   */
  method AlignBitrate(bitrate: nat) returns (r: nat)
    requires bitrate < 0x1_0000_0000
    ensures r == RoundRate(bitrate)
  {
    r := bitrate;
    if r % BitrateAlign != 0 {
      r := (r + (BitrateAlign - r % BitrateAlign)) % 0x1_0000_0000;
    }
  }

  class StfDphy {
    /** The word at each byte offset of the `topsys` window. */
    var regs: Window
    /** info->maps: the physical lane each logical lane is routed to. */
    const maps: seq<bv8>
    /** Whether txesc_clk is prepared and enabled. */
    var txescClkEnabled: bool
    /** Whether sys_rst is deasserted. */
    var sysRstDeasserted: bool

    predicate Valid()
      reads this
    {
      Mapped(regs) && |maps| == MapLanesNum
    }

    /**
     * The state after probe: the window mapped and the lane map set.  Probe
     * only obtains the clock and reset handles, so whether the clock is
     * enabled and the line deasserted is whatever the platform left.
     */
    constructor (topsys: Window, lanes: seq<bv8>, clkEnabled: bool, rstDeasserted: bool)
      requires Mapped(topsys) && |lanes| == MapLanesNum
      ensures Valid()
      ensures regs == topsys && maps == lanes
      ensures txescClkEnabled == clkEnabled && sysRstDeasserted == rstDeasserted
    {
      regs := topsys;
      maps := lanes;
      txescClkEnabled := clkEnabled;
      sysRstDeasserted := rstDeasserted;
    }

    /** stf_dphy_set_reg: read the word at `addr`, replace the bits under `mask`, write it back. */
    method SetReg(addr: nat, data: Word, shift: Shift, mask: Word)
      requires addr in regs
      modifies this`regs
      ensures regs == Written(old(regs), addr, data, shift, mask)
    {
      var tmp := regs[addr];
      tmp := Merge(tmp, data << shift, mask);
      regs := regs[addr := tmp];
    }

    /**
     * stf_dphy_hw_reset: resetb := !assert.  On deassert the driver spins until
     * is_pll_locked; the model requires that the lock already reads locked
     * after the write, so the wait ends at once.
     */
    method HwReset(doAssert: bool)
      requires Valid()
      requires !doAssert ==> IsPllLocked(HwResetRegs(regs, false))
      modifies this`regs
      ensures Valid()
      ensures regs == HwResetRegs(old(regs), doAssert)
      ensures !doAssert ==> IsPllLocked(regs)
    {
      SetReg(Syscfg100, if doAssert then 0 else 1, ResetbShift, ResetbMask);
    }

    /** The ten HSTX-resistance writes at the top of stf_dphy_configure. */
    method WriteHstxResPresets()
      requires Valid()
      modifies this`regs
      ensures Valid()
      ensures regs == HstxResPresets(old(regs))
    {
      SetReg(Syscfg8, 0x10, L0nHstxResShift, L0nHstxResMask);
      SetReg(Syscfg12, 0x10, L0nHstxResShift, L0nHstxResMask);
      SetReg(Syscfg12, 0x10, L2nHstxResShift, L2nHstxResMask);
      SetReg(Syscfg12, 0x10, L3nHstxResShift, L3nHstxResMask);
      SetReg(Syscfg16, 0x10, L4nHstxResShift, L4nHstxResMask);
      SetReg(Syscfg8, 0x10, L0pHstxResShift, L0pHstxResMask);
      SetReg(Syscfg12, 0x10, L1pHstxResShift, L1pHstxResMask);
      SetReg(Syscfg12, 0x10, L2pHstxResShift, L2pHstxResMask);
      SetReg(Syscfg12, 0x10, L3pHstxResShift, L3pHstxResMask);
      SetReg(Syscfg16, 0x10, L4pHstxResShift, L4pHstxResMask);
    }

    /** Reference clock, power-ready and lane setting for a matched row. */
    method WriteLanes()
      requires Valid()
      modifies this`regs
      ensures Valid()
      ensures regs == ProgramLanes(old(regs), maps)
    {
      SetReg(Syscfg100, Refclk12M, RefclkInSelShift, RefclkInSelMask);
      SetReg(Syscfg0, AonPowerReadyNActive, AonPowerReadyNShift, AonPowerReadyNMask);
      SetReg(Syscfg0, maps[0] as Word, CfgL0SwapSelShift, CfgL0SwapSelMask);
      SetReg(Syscfg0, maps[1] as Word, CfgL1SwapSelShift, CfgL1SwapSelMask);
      SetReg(Syscfg0, maps[2] as Word, CfgL2SwapSelShift, CfgL2SwapSelMask);
      SetReg(Syscfg0, maps[3] as Word, CfgL3SwapSelShift, CfgL3SwapSelMask);
      SetReg(Syscfg0, maps[4] as Word, CfgL4SwapSelShift, CfgL4SwapSelMask);
    }

    /** PLL setting for row `p`. */
    method WritePll(p: M31Config)
      requires Valid()
      modifies this`regs
      ensures Valid()
      ensures regs == ProgramPll(old(regs), p)
    {
      SetReg(Syscfg28, 0x0, PllSscEnShift, PllSscEnMask);
      SetReg(Syscfg24, 0x1, PllLdoStbX2EnShift, PllLdoStbX2EnMask);
      SetReg(Syscfg24, 0x1, PllFmEnShift, PllFmEnMask);
      SetReg(Syscfg24, p.pllPrevDiv, PllPreDivShift, PllPreDivMask);
      SetReg(Syscfg24, p.pllFbkInt, PllFbkIntShift, PllFbkIntMask);
      SetReg(Syscfg20, p.pllFbkFra, PllFbkFraShift, PllFbkFraMask);
    }

    /** Extended cycle select and HS timings for row `p`. */
    method WriteTimings(p: M31Config)
      requires Valid()
      modifies this`regs
      ensures Valid()
      ensures regs == ProgramTimings(old(regs), p)
    {
      SetReg(Syscfg40, p.extdCycleSel, ExtdCycleSelShift, ExtdCycleSelMask);
      SetReg(Syscfg36, p.dlaneHsPreTime, DlaneHsPreTimeShift, DlaneHsPreTimeMask);
      SetReg(Syscfg36, p.dlaneHsPreTime, DlaneHsPreTimeShift, DlaneHsPreTimeMask);
      SetReg(Syscfg36, p.dlaneHsZeroTime, DlaneHsZeroTimeShift, DlaneHsZeroTimeMask);
      SetReg(Syscfg36, p.dlaneHsTrailTime, DlaneHsTrailTimeShift, DlaneHsTrailTimeMask);
      SetReg(Syscfg32, p.claneHsPreTime, ClaneHsPreTimeShift, ClaneHsPreTimeMask);
      SetReg(Syscfg36, p.claneHsZeroTime, ClaneHsZeroTimeShift, ClaneHsZeroTimeMask);
      SetReg(Syscfg32, p.claneHsTrailTime, ClaneHsTrailTimeShift, ClaneHsTrailTimeMask);
      SetReg(Syscfg32, p.claneHsClkPreTime, ClaneHsClkPreTimeShift, ClaneHsClkPreTimeMask);
      SetReg(Syscfg32, p.claneHsClkPostTime, ClaneHsClkPostTimeShift, ClaneHsClkPostTimeMask);
    }

    /** The body of the matched branch of stf_dphy_configure: all the writes for row `p`. */
    method WriteRow(p: M31Config)
      requires Valid()
      modifies this`regs
      ensures Valid()
      ensures regs == ProgramRow(old(regs), p, maps)
    {
      WriteLanes();
      WritePll(p);
      WriteTimings(p);
    }

    /**
     * The loop of stf_dphy_configure for the rounded rate `bitrate`: scan the
     * table in order and, at the first row with that bit rate, write it and
     * stop.
     */
    method ProgramMatch(bitrate: nat)
      requires Valid()
      modifies this`regs
      ensures Valid()
      ensures regs == Programmed(old(regs), bitrate, maps)
    {
      ghost var presets := regs;
      var i := 0;
      while i < |Table()|
        invariant 0 <= i <= |Table()|
        invariant SearchFrom(Table(), bitrate, i) == SelectIndex(bitrate)
        invariant regs == presets
      {
        var p := Table()[i];
        if p.bitrate == bitrate {
          SearchStopsAt(Table(), bitrate, i);
          WriteRow(p);
          ProgrammedAt(presets, bitrate, maps, i, regs);
          break;
        }
        i := i + 1;
      }
      if i == |Table()| {
        SearchStopsAt(Table(), bitrate, i);
      }
    }

    /**
     * stf_dphy_configure with opts->mipi_dphy.hs_clk_rate = hsClkRate: the
     * rate is truncated to the u32 local `bitrate`, the HSTX presets are
     * written, the rate is rounded up to 10 MHz and the table searched for
     * the first row with that bit rate.  The result is 0 whether or not a row
     * matched.
     */
    method Configure(hsClkRate: nat) returns (ret: int)
      requires Valid()
      modifies this`regs
      ensures Valid()
      ensures ret == 0
      ensures regs == ConfigureRegs(old(regs), hsClkRate % 0x1_0000_0000, maps)
    {
      var bitrate: nat := hsClkRate % 0x1_0000_0000;
      WriteHstxResPresets();
      bitrate := AlignBitrate(bitrate);
      ProgramMatch(bitrate);
      return 0;
    }

    /** clk_prepare_enable(txesc_clk), returning `err`: on success the clock is enabled. */
    method ClkPrepareEnable(err: int) returns (ret: int)
      modifies this`txescClkEnabled
      ensures ret == err
      ensures txescClkEnabled == (old(txescClkEnabled) || err == 0)
    {
      if err == 0 {
        txescClkEnabled := true;
      }
      ret := err;
    }

    /** clk_disable_unprepare(txesc_clk): the clock is off afterwards. */
    method ClkDisableUnprepare()
      modifies this`txescClkEnabled
      ensures !txescClkEnabled
    {
      txescClkEnabled := false;
    }

    /** reset_control_deassert(sys_rst), returning `err`: on success the line is released. */
    method ResetDeassert(err: int) returns (ret: int)
      modifies this`sysRstDeasserted
      ensures ret == err
      ensures sysRstDeasserted == (old(sysRstDeasserted) || err == 0)
    {
      if err == 0 {
        sysRstDeasserted := true;
      }
      ret := err;
    }

    /** reset_control_assert(sys_rst), returning `err`: on success the line is held. */
    method ResetAssert(err: int) returns (ret: int)
      modifies this`sysRstDeasserted
      ensures ret == err
      ensures sysRstDeasserted == (old(sysRstDeasserted) && err != 0)
    {
      if err == 0 {
        sysRstDeasserted := false;
      }
      ret := err;
    }

    /**
     * stf_dphy_init, where clk_prepare_enable returns `clkErr` and
     * reset_control_deassert returns `rstErr`.  The register writes happen
     * whatever the collaborators return; a clock failure is returned before
     * the reset is touched, and a reset failure leaves the clock enabled.
     */
    method Init(clkErr: int, rstErr: int) returns (ret: int)
      requires Valid()
      requires IsPllLocked(HwResetRegs(regs, false))
      modifies this`regs, this`txescClkEnabled, this`sysRstDeasserted
      ensures Valid()
      ensures regs == InitRegs(old(regs))
      ensures IsPllLocked(regs)
      ensures ret == if clkErr != 0 then clkErr else rstErr
      ensures txescClkEnabled == (old(txescClkEnabled) || clkErr == 0)
      ensures sysRstDeasserted == (old(sysRstDeasserted) || (clkErr == 0 && rstErr == 0))
    {
      HwReset(false);
      SetReg(Syscfg48, 0, ScfgPpiCReadySelShift, ScfgPpiCReadySelMask);
      SetReg(Syscfg48, 0, ScfgDsiTxreadyEscSelShift, ScfgDsiTxreadyEscSelMask);
      SetReg(Syscfg44, 0x30, ScfgCHsPreZeroTimeShift, ScfgCHsPreZeroTimeMask);

      ret := ClkPrepareEnable(clkErr);
      if ret != 0 {
        return;
      }
      ret := ResetDeassert(rstErr);
      if ret != 0 {
        return;
      }
      return 0;
    }

    /**
     * stf_dphy_exit, where reset_control_assert returns `rstErr`.  A failure
     * is returned at once with nothing else changed; otherwise the clock is
     * disabled and the analog reset asserted.
     */
    method Exit(rstErr: int) returns (ret: int)
      requires Valid()
      modifies this`regs, this`txescClkEnabled, this`sysRstDeasserted
      ensures Valid()
      ensures ret == rstErr
      ensures rstErr != 0 ==> regs == old(regs) && txescClkEnabled == old(txescClkEnabled) && sysRstDeasserted == old(sysRstDeasserted)
      ensures rstErr == 0 ==> regs == HwResetRegs(old(regs), true) && !txescClkEnabled && !sysRstDeasserted
    {
      ret := ResetAssert(rstErr);
      if ret != 0 {
        return;
      }
      ClkDisableUnprepare();
      HwReset(true);
      return 0;
    }
  }
}
