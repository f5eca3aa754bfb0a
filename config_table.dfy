/**
 * The static table m31_dphy_configs of the driver: one row per supported
 * bit rate, holding the PLL and HS-timing values stf_dphy_configure programs,
 * and the facts about every row that the lookup relies on.
 */
module ConfigTable {
  import opened Registers

  /** One row of m31_dphy_configs (struct m31_dphy_config). */
  datatype M31Config = M31Config(
    refClk: int,
    bitrate: nat,
    pllPrevDiv: Word,
    pllFbkInt: Word,
    pllFbkFra: Word,
    extdCycleSel: Word,
    dlaneHsPreTime: Word,
    dlaneHsZeroTime: Word,
    dlaneHsTrailTime: Word,
    claneHsPreTime: Word,
    claneHsZeroTime: Word,
    claneHsTrailTime: Word,
    claneHsClkPreTime: Word,
    claneHsClkPostTime: Word)

  /**
   * Row `i` of m31_dphy_configs, in declaration order, looked up in blocks of
   * ten rows.  The fractional feedback STF_DPHY_LSHIFT_16(x) |
   * STF_DPHY_LSHIFT_8(x) | x is written out as the 24-bit value it denotes.
   */
  function Row(i: nat): M31Config
    requires i < 74
  {
    if i < 10 then Rows0(i)
    else if i < 20 then Rows10(i)
    else if i < 30 then Rows20(i)
    else if i < 40 then Rows30(i)
    else if i < 50 then Rows40(i)
    else if i < 60 then Rows50(i)
    else if i < 70 then Rows60(i)
    else Rows70(i)
  }

  /** Rows 0 to 9. */
  function Rows0(i: nat): M31Config
    requires 0 <= i < 10
  {
    match i
    case 0 => M31Config(12000000, 160000000, 0x0, 0x6a, 0xaaaaaa, 0x3, 0xa, 0x17, 0x11, 0x5, 0x2b, 0xd, 0x7, 0x3d)
    case 1 => M31Config(12000000, 170000000, 0x0, 0x71, 0x555555, 0x3, 0xb, 0x18, 0x11, 0x5, 0x2e, 0xd, 0x7, 0x3d)
    case 2 => M31Config(12000000, 180000000, 0x0, 0x78, 0x000000, 0x3, 0xb, 0x19, 0x12, 0x6, 0x30, 0xe, 0x7, 0x3e)
    case 3 => M31Config(12000000, 190000000, 0x0, 0x7e, 0xaaaaaa, 0x3, 0xc, 0x1a, 0x12, 0x6, 0x33, 0xe, 0x7, 0x3e)
    case 4 => M31Config(12000000, 200000000, 0x0, 0x85, 0x555555, 0x3, 0xc, 0x1b, 0x13, 0x7, 0x35, 0xf, 0x7, 0x3f)
    case 5 => M31Config(12000000, 320000000, 0x0, 0x6a, 0xaaaaaa, 0x2, 0x8, 0x14, 0xf, 0x5, 0x2b, 0xd, 0x3, 0x23)
    case 6 => M31Config(12000000, 330000000, 0x0, 0x6e, 0x000000, 0x2, 0x8, 0x15, 0xf, 0x5, 0x2d, 0xd, 0x3, 0x23)
    case 7 => M31Config(12000000, 340000000, 0x0, 0x71, 0x555555, 0x2, 0x9, 0x15, 0xf, 0x5, 0x2e, 0xd, 0x3, 0x23)
    case 8 => M31Config(12000000, 350000000, 0x0, 0x74, 0xaaaaaa, 0x2, 0x9, 0x15, 0x10, 0x6, 0x2f, 0xe, 0x3, 0x24)
    case _ => M31Config(12000000, 360000000, 0x0, 0x78, 0x000000, 0x2, 0x9, 0x16, 0x10, 0x6, 0x30, 0xe, 0x3, 0x24)
  }

  /** Rows 10 to 19. */
  function Rows10(i: nat): M31Config
    requires 10 <= i < 20
  {
    match i
    case 10 => M31Config(12000000, 370000000, 0x0, 0x7b, 0x555555, 0x2, 0x9, 0x17, 0x10, 0x6, 0x32, 0xe, 0x3, 0x24)
    case 11 => M31Config(12000000, 380000000, 0x0, 0x7e, 0xaaaaaa, 0x2, 0xa, 0x17, 0x10, 0x6, 0x33, 0xe, 0x3, 0x24)
    case 12 => M31Config(12000000, 390000000, 0x0, 0x82, 0x000000, 0x2, 0xa, 0x17, 0x11, 0x6, 0x35, 0xf, 0x3, 0x25)
    case 13 => M31Config(12000000, 400000000, 0x0, 0x85, 0x555555, 0x2, 0xa, 0x18, 0x11, 0x7, 0x35, 0xf, 0x3, 0x25)
    case 14 => M31Config(12000000, 410000000, 0x0, 0x88, 0xaaaaaa, 0x2, 0xa, 0x19, 0x11, 0x7, 0x37, 0xf, 0x3, 0x25)
    case 15 => M31Config(12000000, 420000000, 0x0, 0x8c, 0x000000, 0x2, 0xa, 0x19, 0x12, 0x7, 0x38, 0x10, 0x3, 0x26)
    case 16 => M31Config(12000000, 430000000, 0x0, 0x8f, 0x555555, 0x2, 0xb, 0x19, 0x12, 0x7, 0x39, 0x10, 0x3, 0x26)
    case 17 => M31Config(12000000, 440000000, 0x0, 0x92, 0xaaaaaa, 0x2, 0xb, 0x1a, 0x12, 0x7, 0x3b, 0x10, 0x3, 0x26)
    case 18 => M31Config(12000000, 450000000, 0x0, 0x96, 0x000000, 0x2, 0xb, 0x1b, 0x12, 0x8, 0x3c, 0x10, 0x3, 0x26)
    case _ => M31Config(12000000, 460000000, 0x0, 0x99, 0x555555, 0x2, 0xb, 0x1b, 0x13, 0x8, 0x3d, 0x11, 0x3, 0x27)
  }

  /** Rows 20 to 29. */
  function Rows20(i: nat): M31Config
    requires 20 <= i < 30
  {
    match i
    case 20 => M31Config(12000000, 470000000, 0x0, 0x9c, 0xaaaaaa, 0x2, 0xc, 0x1b, 0x13, 0x8, 0x3e, 0x11, 0x3, 0x27)
    case 21 => M31Config(12000000, 480000000, 0x0, 0xa0, 0x000000, 0x2, 0xc, 0x1c, 0x13, 0x8, 0x40, 0x11, 0x3, 0x27)
    case 22 => M31Config(12000000, 490000000, 0x0, 0xa3, 0x555555, 0x2, 0xc, 0x1d, 0x14, 0x8, 0x42, 0x12, 0x3, 0x28)
    case 23 => M31Config(12000000, 500000000, 0x0, 0xa6, 0xaaaaaa, 0x2, 0xc, 0x1d, 0x14, 0x9, 0x42, 0x12, 0x3, 0x28)
    case 24 => M31Config(12000000, 510000000, 0x0, 0xaa, 0x000000, 0x2, 0xc, 0x1e, 0x14, 0x9, 0x44, 0x12, 0x3, 0x28)
    case 25 => M31Config(12000000, 520000000, 0x0, 0xad, 0x555555, 0x2, 0xd, 0x1e, 0x15, 0x9, 0x45, 0x13, 0x3, 0x29)
    case 26 => M31Config(12000000, 530000000, 0x0, 0xb0, 0xaaaaaa, 0x2, 0xd, 0x1e, 0x15, 0x9, 0x47, 0x13, 0x3, 0x29)
    case 27 => M31Config(12000000, 540000000, 0x0, 0xb4, 0x000000, 0x2, 0xd, 0x1f, 0x15, 0x9, 0x48, 0x13, 0x3, 0x29)
    case 28 => M31Config(12000000, 550000000, 0x0, 0xb7, 0x555555, 0x2, 0xd, 0x20, 0x16, 0x9, 0x4a, 0x14, 0x3, 0x2a)
    case _ => M31Config(12000000, 560000000, 0x0, 0xba, 0xaaaaaa, 0x2, 0xe, 0x20, 0x16, 0xa, 0x4a, 0x14, 0x3, 0x2a)
  }

  /** Rows 30 to 39. */
  function Rows30(i: nat): M31Config
    requires 30 <= i < 40
  {
    match i
    case 30 => M31Config(12000000, 570000000, 0x0, 0xbe, 0x000000, 0x2, 0xe, 0x20, 0x16, 0xa, 0x4c, 0x14, 0x3, 0x2a)
    case 31 => M31Config(12000000, 580000000, 0x0, 0xc1, 0x555555, 0x2, 0xe, 0x21, 0x16, 0xa, 0x4d, 0x14, 0x3, 0x2a)
    case 32 => M31Config(12000000, 590000000, 0x0, 0xc4, 0xaaaaaa, 0x2, 0xe, 0x22, 0x17, 0xa, 0x4f, 0x15, 0x3, 0x2b)
    case 33 => M31Config(12000000, 600000000, 0x0, 0xc8, 0x000000, 0x2, 0xe, 0x23, 0x17, 0xa, 0x50, 0x15, 0x3, 0x2b)
    case 34 => M31Config(12000000, 610000000, 0x0, 0xcb, 0x555555, 0x2, 0xf, 0x22, 0x17, 0xb, 0x50, 0x15, 0x3, 0x2b)
    case 35 => M31Config(12000000, 620000000, 0x0, 0xce, 0xaaaaaa, 0x2, 0xf, 0x23, 0x18, 0xb, 0x52, 0x16, 0x3, 0x2c)
    case 36 => M31Config(12000000, 630000000, 0x0, 0x69, 0x000000, 0x1, 0x7, 0x12, 0xd, 0x5, 0x2a, 0xc, 0x1, 0x15)
    case 37 => M31Config(12000000, 640000000, 0x0, 0x6a, 0xaaaaaa, 0x1, 0x7, 0x13, 0xe, 0x5, 0x2b, 0xd, 0x1, 0x16)
    case 38 => M31Config(12000000, 650000000, 0x0, 0x6c, 0x555555, 0x1, 0x7, 0x13, 0xe, 0x5, 0x2c, 0xd, 0x1, 0x16)
    case _ => M31Config(12000000, 660000000, 0x0, 0x6e, 0x000000, 0x1, 0x7, 0x13, 0xe, 0x5, 0x2d, 0xd, 0x1, 0x16)
  }

  /** Rows 40 to 49. */
  function Rows40(i: nat): M31Config
    requires 40 <= i < 50
  {
    match i
    case 40 => M31Config(12000000, 670000000, 0x0, 0x6f, 0xaaaaaa, 0x1, 0x8, 0x13, 0xe, 0x5, 0x2d, 0xd, 0x1, 0x16)
    case 41 => M31Config(12000000, 680000000, 0x0, 0x71, 0x555555, 0x1, 0x8, 0x13, 0xe, 0x5, 0x2e, 0xd, 0x1, 0x16)
    case 42 => M31Config(12000000, 690000000, 0x0, 0x73, 0x000000, 0x1, 0x8, 0x14, 0xe, 0x6, 0x2e, 0xd, 0x1, 0x16)
    case 43 => M31Config(12000000, 700000000, 0x0, 0x74, 0xaaaaaa, 0x1, 0x8, 0x14, 0xf, 0x6, 0x2f, 0xe, 0x1, 0x16)
    case 44 => M31Config(12000000, 710000000, 0x0, 0x76, 0x555555, 0x1, 0x8, 0x14, 0xf, 0x6, 0x2f, 0xe, 0x1, 0x17)
    case 45 => M31Config(12000000, 720000000, 0x0, 0x78, 0x000000, 0x1, 0x8, 0x15, 0xf, 0x6, 0x30, 0xe, 0x1, 0x17)
    case 46 => M31Config(12000000, 730000000, 0x0, 0x79, 0xaaaaaa, 0x1, 0x8, 0x15, 0xf, 0x6, 0x31, 0xe, 0x1, 0x17)
    case 47 => M31Config(12000000, 740000000, 0x0, 0x7b, 0x555555, 0x1, 0x8, 0x15, 0xf, 0x6, 0x32, 0xe, 0x1, 0x17)
    case 48 => M31Config(12000000, 750000000, 0x0, 0x7d, 0x000000, 0x1, 0x8, 0x16, 0xf, 0x6, 0x32, 0xe, 0x1, 0x17)
    case _ => M31Config(12000000, 760000000, 0x0, 0x7e, 0xaaaaaa, 0x1, 0x9, 0x15, 0xf, 0x6, 0x33, 0xe, 0x1, 0x17)
  }

  /** Rows 50 to 59. */
  function Rows50(i: nat): M31Config
    requires 50 <= i < 60
  {
    match i
    case 50 => M31Config(12000000, 770000000, 0x0, 0x80, 0x555555, 0x1, 0x9, 0x15, 0x10, 0x6, 0x34, 0xf, 0x1, 0x18)
    case 51 => M31Config(12000000, 780000000, 0x0, 0x82, 0x000000, 0x1, 0x9, 0x16, 0x10, 0x6, 0x35, 0xf, 0x1, 0x18)
    case 52 => M31Config(12000000, 790000000, 0x0, 0x83, 0xaaaaaa, 0x1, 0x9, 0x16, 0x10, 0x7, 0x34, 0xf, 0x1, 0x18)
    case 53 => M31Config(12000000, 800000000, 0x0, 0x85, 0x555555, 0x1, 0x9, 0x17, 0x10, 0x7, 0x35, 0xf, 0x1, 0x18)
    case 54 => M31Config(12000000, 810000000, 0x0, 0x87, 0x000000, 0x1, 0x9, 0x17, 0x10, 0x7, 0x36, 0xf, 0x1, 0x18)
    case 55 => M31Config(12000000, 820000000, 0x0, 0x88, 0xaaaaaa, 0x1, 0x9, 0x17, 0x10, 0x7, 0x37, 0xf, 0x1, 0x18)
    case 56 => M31Config(12000000, 830000000, 0x0, 0x8a, 0x555555, 0x1, 0x9, 0x18, 0x10, 0x7, 0x37, 0xf, 0x1, 0x18)
    case 57 => M31Config(12000000, 840000000, 0x0, 0x8c, 0x000000, 0x1, 0x9, 0x18, 0x11, 0x7, 0x38, 0x10, 0x1, 0x19)
    case 58 => M31Config(12000000, 850000000, 0x0, 0x8d, 0xaaaaaa, 0x1, 0xa, 0x17, 0x11, 0x7, 0x39, 0x10, 0x1, 0x19)
    case _ => M31Config(12000000, 860000000, 0x0, 0x8f, 0x555555, 0x1, 0xa, 0x18, 0x11, 0x7, 0x39, 0x10, 0x1, 0x19)
  }

  /** Rows 60 to 69. */
  function Rows60(i: nat): M31Config
    requires 60 <= i < 70
  {
    match i
    case 60 => M31Config(12000000, 870000000, 0x0, 0x91, 0x000000, 0x1, 0xa, 0x18, 0x11, 0x7, 0x3a, 0x10, 0x1, 0x19)
    case 61 => M31Config(12000000, 880000000, 0x0, 0x92, 0xaaaaaa, 0x1, 0xa, 0x18, 0x11, 0x7, 0x3b, 0x10, 0x1, 0x19)
    case 62 => M31Config(12000000, 890000000, 0x0, 0x94, 0x555555, 0x1, 0xa, 0x19, 0x11, 0x7, 0x3c, 0x10, 0x1, 0x19)
    case 63 => M31Config(12000000, 900000000, 0x0, 0x96, 0x000000, 0x1, 0xa, 0x19, 0x12, 0x8, 0x3c, 0x10, 0x1, 0x19)
    case 64 => M31Config(12000000, 910000000, 0x0, 0x97, 0xaaaaaa, 0x1, 0xa, 0x19, 0x12, 0x8, 0x3c, 0x11, 0x1, 0x1a)
    case 65 => M31Config(12000000, 920000000, 0x0, 0x99, 0x555555, 0x1, 0xa, 0x1a, 0x12, 0x8, 0x3d, 0x11, 0x1, 0x1a)
    case 66 => M31Config(12000000, 930000000, 0x0, 0x9b, 0x000000, 0x1, 0xa, 0x1a, 0x12, 0x8, 0x3e, 0x11, 0x1, 0x1a)
    case 67 => M31Config(12000000, 940000000, 0x0, 0x9c, 0xaaaaaa, 0x1, 0xb, 0x1a, 0x12, 0x8, 0x3e, 0x11, 0x1, 0x1a)
    case 68 => M31Config(12000000, 950000000, 0x0, 0x9e, 0x555555, 0x1, 0xb, 0x1a, 0x12, 0x8, 0x3f, 0x11, 0x1, 0x1a)
    case _ => M31Config(12000000, 960000000, 0x0, 0xa0, 0x000000, 0x1, 0xb, 0x1a, 0x12, 0x8, 0x40, 0x11, 0x1, 0x1a)
  }

  /** Rows 70 to 73. */
  function Rows70(i: nat): M31Config
    requires 70 <= i < 74
  {
    match i
    case 70 => M31Config(12000000, 970000000, 0x0, 0xa1, 0xaaaaaa, 0x1, 0xb, 0x1b, 0x13, 0x8, 0x41, 0x12, 0x1, 0x1b)
    case 71 => M31Config(12000000, 980000000, 0x0, 0xa3, 0x555555, 0x1, 0xb, 0x1b, 0x13, 0x8, 0x42, 0x12, 0x1, 0x1b)
    case 72 => M31Config(12000000, 990000000, 0x0, 0xa5, 0x000000, 0x1, 0xb, 0x1b, 0x13, 0x8, 0x42, 0x12, 0x1, 0x1b)
    case _ => M31Config(12000000, 1000000000, 0x0, 0xa6, 0xaaaaaa, 0x1, 0xb, 0x1c, 0x13, 0x9, 0x42, 0x12, 0x1, 0x1b)
  }

  /** The bit rate of row `i`: 160..200 MHz, then 320..1000 MHz, in 10 MHz steps. */
  function CoveredRate(i: nat): nat
  {
    if i < 5 then 160000000 + 10000000 * i else 320000000 + 10000000 * (i - 5)
  }

  /** The rates the table covers. */
  predicate Covered(b: nat)
  {
    b % 10000000 == 0 && (160000000 <= b <= 200000000 || 320000000 <= b <= 1000000000)
  }

  /** Every value of the row fits the register field it is written into. */
  predicate FitsFields(p: M31Config)
  {
    && p.pllPrevDiv <= 0x3
    && p.pllFbkInt <= 0x1FF
    && p.pllFbkFra <= 0xFF_FFFF
    && p.extdCycleSel <= 0x7
    && p.dlaneHsPreTime <= 0xFF
    && p.dlaneHsZeroTime <= 0xFF
    && p.dlaneHsTrailTime <= 0xFF
    && p.claneHsPreTime <= 0xFF
    && p.claneHsZeroTime <= 0xFF
    && p.claneHsTrailTime <= 0xFF
    && p.claneHsClkPreTime <= 0xFF
    && p.claneHsClkPostTime <= 0xFF
  }

  /** What is checked of row `k`: 12 MHz reference, its covered rate, values that fit. */
  predicate RowOk(p: M31Config, k: nat)
  {
    p.refClk == 12000000 && p.bitrate == CoveredRate(k) && FitsFields(p)
  }

  // The rows are checked one block at a time: each concrete row is cheap to evaluate.
  lemma RowsOk0()
    ensures forall i :: 0 <= i < 10 ==> RowOk(Row(i), i)
  {
    forall i | 0 <= i < 10
      ensures RowOk(Row(i), i)
    {
      assert i == 0 || i == 1 || i == 2 || i == 3 || i == 4 || i == 5 || i == 6 || i == 7 || i == 8 || i == 9;
    }
  }

  lemma RowsOk10()
    ensures forall i :: 10 <= i < 20 ==> RowOk(Row(i), i)
  {
    forall i | 10 <= i < 20
      ensures RowOk(Row(i), i)
    {
      assert i == 10 || i == 11 || i == 12 || i == 13 || i == 14 || i == 15 || i == 16 || i == 17 || i == 18 || i == 19;
    }
  }

  lemma RowsOk20()
    ensures forall i :: 20 <= i < 30 ==> RowOk(Row(i), i)
  {
    forall i | 20 <= i < 30
      ensures RowOk(Row(i), i)
    {
      assert i == 20 || i == 21 || i == 22 || i == 23 || i == 24 || i == 25 || i == 26 || i == 27 || i == 28 || i == 29;
    }
  }

  lemma RowsOk30()
    ensures forall i :: 30 <= i < 40 ==> RowOk(Row(i), i)
  {
    forall i | 30 <= i < 40
      ensures RowOk(Row(i), i)
    {
      assert i == 30 || i == 31 || i == 32 || i == 33 || i == 34 || i == 35 || i == 36 || i == 37 || i == 38 || i == 39;
    }
  }

  lemma RowsOk40()
    ensures forall i :: 40 <= i < 50 ==> RowOk(Row(i), i)
  {
    forall i | 40 <= i < 50
      ensures RowOk(Row(i), i)
    {
      assert i == 40 || i == 41 || i == 42 || i == 43 || i == 44 || i == 45 || i == 46 || i == 47 || i == 48 || i == 49;
    }
  }

  lemma RowsOk50()
    ensures forall i :: 50 <= i < 60 ==> RowOk(Row(i), i)
  {
    forall i | 50 <= i < 60
      ensures RowOk(Row(i), i)
    {
      assert i == 50 || i == 51 || i == 52 || i == 53 || i == 54 || i == 55 || i == 56 || i == 57 || i == 58 || i == 59;
    }
  }

  lemma RowsOk60()
    ensures forall i :: 60 <= i < 70 ==> RowOk(Row(i), i)
  {
    forall i | 60 <= i < 70
      ensures RowOk(Row(i), i)
    {
      assert i == 60 || i == 61 || i == 62 || i == 63 || i == 64 || i == 65 || i == 66 || i == 67 || i == 68 || i == 69;
    }
  }

  lemma RowsOk70()
    ensures forall i :: 70 <= i < 74 ==> RowOk(Row(i), i)
  {
    forall i | 70 <= i < 74
      ensures RowOk(Row(i), i)
    {
      assert i == 70 || i == 71 || i == 72 || i == 73;
    }
  }

  lemma AllRowsOk()
    ensures forall i :: 0 <= i < 74 ==> RowOk(Row(i), i)
  {
    forall i | 0 <= i < 74
      ensures RowOk(Row(i), i)
    {
      if i < 10 { RowsOk0(); }
      else if i < 20 { RowsOk10(); }
      else if i < 30 { RowsOk20(); }
      else if i < 40 { RowsOk30(); }
      else if i < 50 { RowsOk40(); }
      else if i < 60 { RowsOk50(); }
      else if i < 70 { RowsOk60(); }
      else { RowsOk70(); }
    }
  }

  /**
   * Every row, read through Row.  AllRowsOk, RowsShape and
   * ConfigLookup.TableShape state the same per-row facts at three layers
   * (RowOk, its conjuncts, then Table()[i]) so that each proof unfolds at
   * most ten rows or one layer at a time, which keeps verification cheap.
   */
  lemma RowsShape()
    ensures forall i :: 0 <= i < 74 ==> Row(i).bitrate == CoveredRate(i)
    ensures forall i :: 0 <= i < 74 ==> Row(i).refClk == 12000000 && FitsFields(Row(i))
  {
    AllRowsOk();
  }
}
