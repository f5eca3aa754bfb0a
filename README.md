# StarFive JH7110 MIPI D-PHY TX: register programming model

This project models the register-programming core of the StarFive JH7110 MIPI
D-PHY transmitter driver (`drivers/phy/starfive/phy-jh7110-dphy-tx.c`). It then
proves what that driver leaves in the PHY's register window.

- **Register window.** The `topsys` window is a map from byte offset to a 32-bit word.
- **Field access.** A field is a (shift, mask) pair. It is read with
  `stf_dphy_get_reg` and written with the read-modify-write `stf_dphy_set_reg`.
- **Lookup.** `stf_dphy_configure` rounds the requested rate up to a multiple of
  10 MHz using `u32` arithmetic. It then scans the 74-row `m31_dphy_configs` table
  for the first exact bit-rate match.
- **Programming.** `stf_dphy_configure` writes ten fixed HSTX-resistance presets.
  For a matched row it also writes:
  - the reference-clock select and the AON power-ready bit;
  - the five lane-swap selectors;
  - the PLL fields;
  - the HS timing fields.
- **Bring-up and tear-down.** The model covers `stf_dphy_hw_reset`,
  `stf_dphy_init`, `stf_dphy_exit` and `stf_dphy_validate`. The clock and reset
  calls are foreign: the model takes their return codes as inputs.

Modules:
- `Registers` (registers.dfy): words, the window, `Extract`/`Merge`/`Insert`,
  `GetReg` and `Written`. `Written` is the window after one `stf_dphy_set_reg`.
- `DphyFields` (dphy_fields.dfy): the offsets, shifts, masks and constants of the
  driver's `STF_DPHY_*` definitions.
- `ConfigTable` (config_table.dfy): the table row datatype `M31Config`, the 74
  rows, and the per-row facts.
- `ConfigLookup` (config_lookup.dfy): the table as a sequence, the `u32` rounding
  `RoundRate`, and the first-match search `SearchFrom` / `SelectIndex`.
- `DphyProgram` (dphy_program.dfy): the window after each group of writes, as
  functions of the window before. Each window function states every touched word
  through a word function, and each word function states what its fields read back.
- `DphyProperties` (dphy_properties.dfy): lemmas about configure's result, the
  PLL-lock reading and the 630 MHz case.
- `Dphy` (dphy.dfy): the driver object `StfDphy`.
  - State: the window, the lane map, and whether the txesc clock is enabled and
    `sys_rst` is deasserted.
  - Imperative methods, each proved to leave exactly the state the `DphyProgram`
    functions describe: `SetReg`, `HwReset`, the configure write sequences,
    `Configure` with its table loop, `Init` and `Exit`.

The model follows the code as written, including its quirks:
- `stf_dphy_get_reg` ignores its `addr` argument and reads offset 0. So
  `is_pll_locked` tests bit 18 of offset 0, which is the low bit of the lane-2
  swap selector, not a bit of offset 8.
- The HSTX preset at offset 12 uses the L0N field (bits 19..23) where the L1N one
  would belong. Several fields at offset 12 overlap, so the final word depends on
  write order: bits 9, 14, 19, 24 and 29 end up set.
- `dlane_hs_pre_time` is written twice.
- Configure returns 0 whether or not a row matches.
- The rounding addition wraps modulo 2^32. Every rate above 4,290,000,000 rounds
  to 5,032,704, which matches no row.
- `init` releases the analog reset and waits for the PLL lock bit before it
  enables the clock.
- The table is followed as the code lists it: 74 rows, covering 160..200 MHz and
  320..1000 MHz in 10 MHz steps. The 630 MHz row has pre_div 0, fbk_int 0x69,
  fbk_fra 0, extd 1, data-lane pre/zero/trail 0x7/0x12/0xd, clock-lane
  pre/zero/trail 0x5/0x2a/0xc, clk_pre 0x1 and clk_post 0x15.

## Model

| member | source | states |
|---|---|---|
| Registers.Merge | drivers/phy/starfive/phy-jh7110-dphy-tx.c:390-398 | the bits under the mask come from the new value, and all other bits are kept |
| Registers.MergeIdempotent | drivers/phy/starfive/phy-jh7110-dphy-tx.c:390-398 | repeating a merge of the same bits changes nothing |
| Registers.MergeKeepsDisjoint | drivers/phy/starfive/phy-jh7110-dphy-tx.c:390-398 | a write to one field leaves a disjoint field's bits as they were |
| Registers.Extract | drivers/phy/starfive/phy-jh7110-dphy-tx.c:386 | a masked read has no bits outside the mask shifted down |
| Registers.GetReg | drivers/phy/starfive/phy-jh7110-dphy-tx.c:381-388 | stf_dphy_get_reg reads the word at offset 0, whatever addr is, and its result has no bits outside mask >> shift |
| Registers.Insert | drivers/phy/starfive/phy-jh7110-dphy-tx.c:394-397 | the word set_reg writes back: Merge of the old word with data << shift under the mask, whose bit-level facts Merge states and WrittenField lifts to the window |
| Registers.GetRegIgnoresAddr | drivers/phy/starfive/phy-jh7110-dphy-tx.c:381-388 | the masked read gives the same value for every addr, and any window that agrees at offset 0 reads the same |
| Registers.Written | drivers/phy/starfive/phy-jh7110-dphy-tx.c:390-398 | after set_reg the window has the same offsets, the word at addr is the merged word, and no other word changes |
| Registers.WrittenField | drivers/phy/starfive/phy-jh7110-dphy-tx.c:390-398 | after set_reg, the word at addr holds exactly (data << shift) & mask inside the mask and its old bits outside it, and every other offset is unchanged |
| ConfigTable.RowsShape | drivers/phy/starfive/phy-jh7110-dphy-tx.c:132-355 | row i is for 160 MHz + 10 MHz·i (i < 5) or 320 MHz + 10 MHz·(i−5), uses the 12 MHz reference clock, and every value fits its register field |
| ConfigTable.AllRowsOk | drivers/phy/starfive/phy-jh7110-dphy-tx.c:132-355 | every one of the 74 rows has the 12 MHz reference, its covered rate and values within their masks |
| ConfigTable.Row | drivers/phy/starfive/phy-jh7110-dphy-tx.c:132-355 | row i of m31_dphy_configs in declaration order, through the blocks Rows0..Rows70; its facts are RowsShape's |
| ConfigTable.Covered | drivers/phy/starfive/phy-jh7110-dphy-tx.c:132-355 | the rates the table lists: multiples of 10 MHz in 160..200 MHz and 320..1000 MHz; RowFoundIff ties it to the search |
| ConfigLookup.Table | drivers/phy/starfive/phy-jh7110-dphy-tx.c:132-355 | m31_dphy_configs as a sequence of 74 rows |
| ConfigLookup.TableShape | drivers/phy/starfive/phy-jh7110-dphy-tx.c:132-355 | the table has 74 rows, with the covered rate and field-fitting values in each |
| ConfigLookup.TableStrictlyIncreasing | drivers/phy/starfive/phy-jh7110-dphy-tx.c:132-355 | the bit rates strictly increase in declaration order |
| ConfigLookup.AtMostOneRow | drivers/phy/starfive/phy-jh7110-dphy-tx.c:456-458 | two rows for the same bit rate are the same row, so a match is unique |
| ConfigLookup.RoundRate | drivers/phy/starfive/phy-jh7110-dphy-tx.c:452-454 | a multiple of 10 MHz is unchanged; otherwise, without u32 overflow, the result is a multiple of 10 MHz strictly between b and b + 10 MHz; above 4,290,000,000 the sum wraps to 5,032,704 |
| ConfigLookup.RoundRateLeast | drivers/phy/starfive/phy-jh7110-dphy-tx.c:452-454 | without overflow the rounded rate is the least multiple of 10 MHz not below the request |
| ConfigLookup.RoundRateExample | drivers/phy/starfive/phy-jh7110-dphy-tx.c:452-454 | 163 MHz rounds to 170 MHz, 170 MHz stays, and 0xFFFFFFFF wraps to 5,032,704 |
| ConfigLookup.SearchFrom | drivers/phy/starfive/phy-jh7110-dphy-tx.c:456-458 | the first index from i on whose row has bit rate b, with no match before it, or the table length when none matches |
| ConfigLookup.SearchStopsAt | drivers/phy/starfive/phy-jh7110-dphy-tx.c:456-458 | the search stops at once at a matching row and at the end of the table |
| ConfigLookup.SelectIndex | drivers/phy/starfive/phy-jh7110-dphy-tx.c:456-458 | the loop stops at a row whose bit rate equals the rounded rate and no earlier row matches, or it runs off the end |
| ConfigLookup.FindsIffCovered | drivers/phy/starfive/phy-jh7110-dphy-tx.c:132-355 | in any table laid out like m31_dphy_configs the search finds a row exactly for the covered rates |
| ConfigLookup.FindsItsRow | drivers/phy/starfive/phy-jh7110-dphy-tx.c:456-458 | the search for row k's rate stops at row k |
| ConfigLookup.RowFoundIff | drivers/phy/starfive/phy-jh7110-dphy-tx.c:456-458 | a row matches iff the rate is in 160..200 MHz or 320..1000 MHz and a multiple of 10 MHz |
| ConfigLookup.GapSelectsNothing | drivers/phy/starfive/phy-jh7110-dphy-tx.c:452-458 | any request in (200 MHz, 310 MHz] rounds to a rate no row matches |
| ConfigLookup.Select630 | drivers/phy/starfive/phy-jh7110-dphy-tx.c:241-243 | 630 MHz selects row 36 |
| ConfigLookup.Row630 | drivers/phy/starfive/phy-jh7110-dphy-tx.c:241-243 | row 36 holds the driver's 630 MHz values |
| DphyProgram.PresetsAt8 | drivers/phy/starfive/phy-jh7110-dphy-tx.c:431-450 | after the offset-8 presets bits 19..28 read 0x1080_0000 (bits 23 and 28 set), and the rest of the word is kept |
| DphyProgram.PresetsAt12 | drivers/phy/starfive/phy-jh7110-dphy-tx.c:431-450 | after the six overlapping offset-12 presets, bits 5..29 read 0x2108_4200 (bits 9, 14, 19, 24 and 29 set), and bits 0..4 and 30..31 are kept |
| DphyProgram.PresetsAt16 | drivers/phy/starfive/phy-jh7110-dphy-tx.c:431-450 | after the offset-16 presets bits 0..9 read 0x210 (bits 4 and 9 set), and the rest is kept |
| DphyProgram.HstxResPresets | drivers/phy/starfive/phy-jh7110-dphy-tx.c:431-450 | the ten preset writes change offsets 8, 12 and 16 as above and no other word |
| DphyProgram.RefclkAt100 | drivers/phy/starfive/phy-jh7110-dphy-tx.c:459-461 | the reference-clock select reads STF_DPHY_REFCLK_12M, and the other bits of offset 100, resetb included, are kept |
| DphyProgram.LanesAt0 | drivers/phy/starfive/phy-jh7110-dphy-tx.c:462-483 | power-ready-n reads active (0), lane selector k reads maps[k] truncated to 3 bits, and bits outside 0 and 12..26 are kept |
| DphyProgram.ProgramLanes | drivers/phy/starfive/phy-jh7110-dphy-tx.c:459-483 | offsets 100 and 0 become the words above and no other word changes |
| DphyProgram.SscAt28 | drivers/phy/starfive/phy-jh7110-dphy-tx.c:485-487 | spread spectrum reads 0 and the rest of offset 28 is kept |
| DphyProgram.PllAt24 | drivers/phy/starfive/phy-jh7110-dphy-tx.c:488-500 | the LDO and FM enables read 1, and the pre-divider and integer feedback read the row's values truncated to their masks; bits 13..31 are kept |
| DphyProgram.FbkFraAt20 | drivers/phy/starfive/phy-jh7110-dphy-tx.c:501-502 | the fractional feedback reads the row's value truncated to 24 bits, and bits 24..31 are kept |
| DphyProgram.ProgramPll | drivers/phy/starfive/phy-jh7110-dphy-tx.c:484-502 | offsets 28, 24 and 20 become the words above and no other word changes |
| DphyProgram.ExtdAt40 | drivers/phy/starfive/phy-jh7110-dphy-tx.c:504-506 | the extended cycle select reads the row's value truncated to 3 bits, and the rest is kept |
| DphyProgram.TimingsAt36 | drivers/phy/starfive/phy-jh7110-dphy-tx.c:507-530 | the data-lane prepare, zero and trail times and the clock-lane zero time each read the row's byte |
| DphyProgram.TimingsAt32 | drivers/phy/starfive/phy-jh7110-dphy-tx.c:523-542 | the clock-lane prepare and trail times and the clock pre and post times each read the row's byte |
| DphyProgram.ProgramTimings | drivers/phy/starfive/phy-jh7110-dphy-tx.c:503-542 | offsets 40, 36 and 32 become the words above and no other word changes |
| DphyProgram.ProgramRow | drivers/phy/starfive/phy-jh7110-dphy-tx.c:459-542 | a matched row changes exactly offsets 0, 20, 24, 28, 32, 36, 40 and 100, to the words above |
| DphyProgram.Programmed | drivers/phy/starfive/phy-jh7110-dphy-tx.c:456-546 | the table loop keeps the window's offsets and never changes a word outside the eight a row writes; ProgrammedMatch and ProgrammedNoMatch give its two outcomes |
| DphyProgram.ConfigureRegs | drivers/phy/starfive/phy-jh7110-dphy-tx.c:420-549 | configure keeps the window's offsets and leaves offsets 8, 12 and 16 as the presets make them, whatever the rate |
| DphyProgram.IsPllLocked | drivers/phy/starfive/phy-jh7110-dphy-tx.c:400-406 | is_pll_locked holds iff bit 18 of the word at offset 0 is clear, though the driver names offset 8 |
| DphyProgram.ResetbAt100 | drivers/phy/starfive/phy-jh7110-dphy-tx.c:408-411 | resetb (bit 29) reads !assert and the rest of offset 100 is kept |
| DphyProgram.HwResetRegs | drivers/phy/starfive/phy-jh7110-dphy-tx.c:408-411 | hw_reset's write changes offset 100 as above and no other word |
| DphyProgram.InitRegs | drivers/phy/starfive/phy-jh7110-dphy-tx.c:556-564 | init releases resetb, clears bits 1..4 of offset 48 (keeping its other bits), sets offset 44 to 0x30 and changes no other word |
| DphyProperties.PllLockReadsOffset0 | drivers/phy/starfive/phy-jh7110-dphy-tx.c:400-406 | a write at offset 8, the offset the lock status is named after, never changes the lock reading |
| DphyProperties.ResetKeepsLockReading | drivers/phy/starfive/phy-jh7110-dphy-tx.c:408-418 | hw_reset and init's writes never change the lock reading |
| DphyProperties.DlanePreWrittenTwice | drivers/phy/starfive/phy-jh7110-dphy-tx.c:507-514 | the second write of dlane_hs_pre_time leaves the word as the first left it |
| DphyProperties.SelectedRow | drivers/phy/starfive/phy-jh7110-dphy-tx.c:456-458 | a covered rate selects a row for that rate whose values fit their fields |
| DphyProperties.ProgrammedMatch | drivers/phy/starfive/phy-jh7110-dphy-tx.c:456-546 | with a match the loop writes exactly the selected row on top of the presets |
| DphyProperties.ProgrammedNoMatch | drivers/phy/starfive/phy-jh7110-dphy-tx.c:456-548 | without a match the loop changes nothing |
| DphyProperties.ProgrammedKeepsPresets | drivers/phy/starfive/phy-jh7110-dphy-tx.c:456-548 | the loop never writes offsets 8, 12 or 16 |
| DphyProperties.PllReadsBack | drivers/phy/starfive/phy-jh7110-dphy-tx.c:484-502 | for a row whose values fit, every PLL field reads back exactly the row value, LDO and FM read 1 and SSC reads 0 |
| DphyProperties.TimingsReadBack | drivers/phy/starfive/phy-jh7110-dphy-tx.c:503-542 | for a row whose values fit, the extended cycle select and all eight timing fields read back exactly the row values |
| DphyProperties.ConfigureProgramsPll | drivers/phy/starfive/phy-jh7110-dphy-tx.c:420-502 | after configure with a covered rounded rate, the selected row is for that rate and every PLL field reads back its value |
| DphyProperties.ConfigureProgramsTimings | drivers/phy/starfive/phy-jh7110-dphy-tx.c:503-542 | after configure with a covered rounded rate, every timing field and the extended cycle select read back the selected row's value |
| DphyProperties.ConfigureProgramsLanes | drivers/phy/starfive/phy-jh7110-dphy-tx.c:459-483 | after configure with a match, offset 0 holds power-ready-n active and maps[0..4] truncated to 3 bits each, and offset 100 selects the 12 MHz clock with resetb kept |
| DphyProperties.ConfigureKeepsPresets | drivers/phy/starfive/phy-jh7110-dphy-tx.c:431-548 | whatever the rate, configure leaves offsets 8, 12 and 16 as the presets make them |
| DphyProperties.ConfigureWithoutMatch | drivers/phy/starfive/phy-jh7110-dphy-tx.c:431-548 | without a match configure's window is exactly the presets, and every word other than 8, 12 and 16 is unchanged |
| DphyProperties.ConfigureLockReadsLane2 | drivers/phy/starfive/phy-jh7110-dphy-tx.c:400-483 | after a matched configure the lock reading is "locked" iff the low bit of maps[2] is 0 |
| DphyProperties.DefaultMapsReadLocked | drivers/phy/starfive/phy-jh7110-dphy-tx.c:677-679 | with the default maps {0, 1, 2, 3, 4}, a matched configure leaves the lock bit reading locked |
| DphyProperties.Configure630 | drivers/phy/starfive/phy-jh7110-dphy-tx.c:241-243 | any request in (620 MHz, 630 MHz] programs pre_div 0, fbk_int 0x69, fbk_fra 0, extd 1 and timings 0x7/0x12/0xd/0x5/0x2a/0xc/0x1/0x15 |
| Dphy.Validate | drivers/phy/starfive/phy-jh7110-dphy-tx.c:606-613 | returns 0 or -EINVAL, and -EINVAL iff the mode is not PHY_MODE_MIPI_DPHY |
| Dphy.AlignBitrate | drivers/phy/starfive/phy-jh7110-dphy-tx.c:452-454 | the inline rounding step computes RoundRate |
| Dphy.StfDphy.constructor | drivers/phy/starfive/phy-jh7110-dphy-tx.c:368-379 | the driver object starts with its window and lane map; the clock and reset states are given, since probe only obtains their handles |
| Dphy.StfDphy.SetReg | drivers/phy/starfive/phy-jh7110-dphy-tx.c:390-398 | the read-modify-write leaves the window Written describes |
| Dphy.StfDphy.HwReset | drivers/phy/starfive/phy-jh7110-dphy-tx.c:408-418 | writes !assert into resetb; on deassert the lock bit reads locked afterwards |
| Dphy.StfDphy.WriteHstxResPresets | drivers/phy/starfive/phy-jh7110-dphy-tx.c:431-450 | the ten preset writes, leaving HstxResPresets of the old window |
| Dphy.StfDphy.WriteLanes | drivers/phy/starfive/phy-jh7110-dphy-tx.c:459-483 | the lane writes, leaving ProgramLanes of the old window |
| Dphy.StfDphy.WritePll | drivers/phy/starfive/phy-jh7110-dphy-tx.c:484-502 | the PLL writes, leaving ProgramPll of the old window |
| Dphy.StfDphy.WriteTimings | drivers/phy/starfive/phy-jh7110-dphy-tx.c:503-542 | the timing writes, leaving ProgramTimings of the old window |
| Dphy.StfDphy.WriteRow | drivers/phy/starfive/phy-jh7110-dphy-tx.c:459-542 | the matched branch, leaving ProgramRow of the old window |
| Dphy.StfDphy.ProgramMatch | drivers/phy/starfive/phy-jh7110-dphy-tx.c:456-548 | the table loop writes the first matching row and stops, or writes nothing, leaving Programmed |
| Dphy.StfDphy.Configure | drivers/phy/starfive/phy-jh7110-dphy-tx.c:420-549 | returns 0 and leaves exactly ConfigureRegs of the old window for the u32 rate |
| Dphy.StfDphy.ClkPrepareEnable | drivers/phy/starfive/phy-jh7110-dphy-tx.c:566-570 | returns the given code, and the clock is enabled iff it was already or the call succeeded |
| Dphy.StfDphy.ResetDeassert | drivers/phy/starfive/phy-jh7110-dphy-tx.c:572-576 | returns the given code, and the reset line is released iff it was already or the call succeeded |
| Dphy.StfDphy.ResetAssert | drivers/phy/starfive/phy-jh7110-dphy-tx.c:586-590 | returns the given code, and the line is held iff the call succeeded or it was held before |
| Dphy.StfDphy.ClkDisableUnprepare | drivers/phy/starfive/phy-jh7110-dphy-tx.c:592 | the clock is off afterwards |
| Dphy.StfDphy.Init | drivers/phy/starfive/phy-jh7110-dphy-tx.c:551-579 | leaves InitRegs of the old window with the lock reading locked; returns the clock's error, else the reset's; the clock is enabled iff it already was or the enable succeeded; the reset is released iff it already was or both calls succeeded |
| Dphy.StfDphy.Exit | drivers/phy/starfive/phy-jh7110-dphy-tx.c:581-597 | on a reset-assert failure returns it with nothing changed; otherwise the clock is off, sys_rst asserted and resetb cleared, and it returns 0 |

## Left out

- Probe, `devm_*` allocation, ioremap, `of_device_get_match_data`, the device table and module registration, and the `phy_ops` struct. These are kernel plumbing. The constructor stands for the object probe leaves behind; probe neither enables the clock nor touches `sys_rst`, so their initial states are parameters.
- `stf_dphy_power_on` / `stf_dphy_power_off`. They only forward to the runtime-PM calls `pm_runtime_resume_and_get` / `pm_runtime_put_sync`, which are foreign code.
- The insides of `clk_prepare_enable`, `clk_disable_unprepare`, `reset_control_assert` and `reset_control_deassert`. Each is its return code, passed in by the caller. The clock and the reset line are tracked as two booleans, not as the framework's reference counts.
- Dphy.StfDphy.HwReset, Dphy.StfDphy.Init: the lock spin loop of `stf_dphy_hw_reset` has no bound, and in a register-only model nothing changes between its polls. So the model requires the lock bit to read locked after the write, and writes no loop. Init, which calls it, carries the same precondition. A window where it reads unlocked would hang the driver.
- `dev_err` logging, and the MMIO ordering and side effects of `readl`/`writel` beyond the offset-to-word map.
- Dphy.StfDphy.Configure: the `unsigned long` option `hs_clk_rate` is taken as a `nat`. It is truncated to the `u32` local modulo 2^32, as the assignment does. What the hardware does with the programmed values is not modelled.
- Dphy.Validate: the `submode` and `opts` arguments are not read by the driver and play no part.
