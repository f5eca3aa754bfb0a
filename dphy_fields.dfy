/**
 * Register offsets and field positions of the JH7110 D-PHY TX block, as the
 * driver's STF_DPHY_* definitions give them.  Each field is a shift and a
 * mask; the mask is written out in hexadecimal with the GENMASK or BIT
 * expression of the driver beside it.
 */
module DphyFields {
  import opened Registers

  // Byte offsets of the words the driver touches (STF_DPHY_APBIFSAIF_SYSCFG(x) is x).
  const Syscfg0: nat := 0
  const Syscfg8: nat := 8
  const Syscfg12: nat := 12
  const Syscfg16: nat := 16
  const Syscfg20: nat := 20
  const Syscfg24: nat := 24
  const Syscfg28: nat := 28
  const Syscfg32: nat := 32
  const Syscfg36: nat := 36
  const Syscfg40: nat := 40
  const Syscfg44: nat := 44
  const Syscfg48: nat := 48
  const Syscfg100: nat := 100

  const AonPowerReadyNActive: Word := 0
  const AonPowerReadyNShift: Shift := 0x0
  const AonPowerReadyNMask: Word := 0x0000_0001        // BIT(0)
  const CfgL0SwapSelShift: Shift := 0xc
  const CfgL0SwapSelMask: Word := 0x0000_7000          // GENMASK(14, 12)
  const CfgL1SwapSelShift: Shift := 0xf
  const CfgL1SwapSelMask: Word := 0x0003_8000          // GENMASK(17, 15)
  const CfgL2SwapSelShift: Shift := 0x12
  const CfgL2SwapSelMask: Word := 0x001C_0000          // GENMASK(20, 18)
  const CfgL3SwapSelShift: Shift := 0x15
  const CfgL3SwapSelMask: Word := 0x00E0_0000          // GENMASK(23, 21)
  const CfgL4SwapSelShift: Shift := 0x18
  const CfgL4SwapSelMask: Word := 0x0700_0000          // GENMASK(26, 24)
  const RgsCdtxPllUnlockShift: Shift := 0x12
  const RgsCdtxPllUnlockMask: Word := 0x0004_0000      // BIT(18)
  const L0nHstxResShift: Shift := 0x13
  const L0nHstxResMask: Word := 0x00F8_0000            // GENMASK(23, 19)
  const L0pHstxResShift: Shift := 0x18
  const L0pHstxResMask: Word := 0x1F00_0000            // GENMASK(28, 24)

  const L1pHstxResShift: Shift := 0x5
  const L1pHstxResMask: Word := 0x0000_03E0            // GENMASK(9, 5)
  const L2nHstxResShift: Shift := 0xa
  const L2nHstxResMask: Word := 0x0000_7C00            // GENMASK(14, 10)
  const L2pHstxResShift: Shift := 0xf
  const L2pHstxResMask: Word := 0x000F_8000            // GENMASK(19, 15)
  const L3nHstxResShift: Shift := 0x14
  const L3nHstxResMask: Word := 0x01F0_0000            // GENMASK(24, 20)
  const L3pHstxResShift: Shift := 0x19
  const L3pHstxResMask: Word := 0x3E00_0000            // GENMASK(29, 25)

  const L4nHstxResShift: Shift := 0x0
  const L4nHstxResMask: Word := 0x0000_001F            // GENMASK(4, 0)
  const L4pHstxResShift: Shift := 0x5
  const L4pHstxResMask: Word := 0x0000_03E0            // GENMASK(9, 5)
  const PllFbkFraShift: Shift := 0x0
  const PllFbkFraMask: Word := 0x00FF_FFFF             // GENMASK(23, 0)

  const PllFbkIntShift: Shift := 0x0
  const PllFbkIntMask: Word := 0x0000_01FF             // GENMASK(8, 0)
  const PllFmEnShift: Shift := 0x9
  const PllFmEnMask: Word := 0x0000_0200               // BIT(9)
  const PllLdoStbX2EnShift: Shift := 0xa
  const PllLdoStbX2EnMask: Word := 0x0000_0400         // BIT(10)
  const PllPreDivShift: Shift := 0xb
  const PllPreDivMask: Word := 0x0000_1800             // GENMASK(12, 11)

  const PllSscEnShift: Shift := 0x12
  const PllSscEnMask: Word := 0x0004_0000

  const ClaneHsClkPostTimeShift: Shift := 0x0
  const ClaneHsClkPostTimeMask: Word := 0x0000_00FF    // GENMASK(7, 0)
  const ClaneHsClkPreTimeShift: Shift := 0x8
  const ClaneHsClkPreTimeMask: Word := 0x0000_FF00     // GENMASK(15, 8)
  const ClaneHsPreTimeShift: Shift := 0x10
  const ClaneHsPreTimeMask: Word := 0x00FF_0000        // GENMASK(23, 16)
  const ClaneHsTrailTimeShift: Shift := 0x18
  const ClaneHsTrailTimeMask: Word := 0xFF00_0000      // GENMASK(31, 24)

  const ClaneHsZeroTimeShift: Shift := 0x0
  const ClaneHsZeroTimeMask: Word := 0x0000_00FF       // GENMASK(7, 0)
  const DlaneHsPreTimeShift: Shift := 0x8
  const DlaneHsPreTimeMask: Word := 0x0000_FF00        // GENMASK(15, 8)
  const DlaneHsTrailTimeShift: Shift := 0x10
  const DlaneHsTrailTimeMask: Word := 0x00FF_0000      // GENMASK(23, 16)
  const DlaneHsZeroTimeShift: Shift := 0x18
  const DlaneHsZeroTimeMask: Word := 0xFF00_0000       // GENMASK(31, 24)

  const ExtdCycleSelShift: Shift := 0x0
  const ExtdCycleSelMask: Word := 0x0000_0007          // GENMASK(2, 0)
  const ScfgCHsPreZeroTimeShift: Shift := 0x0
  const ScfgCHsPreZeroTimeMask: Word := 0xFFFF_FFFF    // GENMASK(31, 0)

  const ScfgDsiTxreadyEscSelShift: Shift := 0x1
  const ScfgDsiTxreadyEscSelMask: Word := 0x0000_0006  // GENMASK(2, 1)
  const ScfgPpiCReadySelShift: Shift := 0x3
  const ScfgPpiCReadySelMask: Word := 0x0000_0018      // GENMASK(4, 3)

  const RefclkInSelShift: Shift := 0x1a
  const RefclkInSelMask: Word := 0x1C00_0000           // GENMASK(28, 26)
  const ResetbShift: Shift := 0x1d
  const ResetbMask: Word := 0x2000_0000                // BIT(29)

  const Refclk12M: Word := 1
  const BitrateAlign: nat := 10000000

  const MapLanesNum: nat := 5
}
