/**
 * The register window of the D-PHY TX block and the two field primitives of
 * the driver, stf_dphy_get_reg and stf_dphy_set_reg.
 *
 * A register is a 32-bit word; the window maps byte offsets to words.  A field
 * is a (shift, mask) pair inside one word.  Values written through a field are
 * shifted into place and truncated by the mask, exactly as the C code does.
 */
module Registers {

  type Word = bv32

  /** A shift amount within one word: C leaves shifts of 32 or more undefined. */
  type Shift = bv5

  /** The memory-mapped window: byte offset from the window base to its word. */
  type Window = map<nat, Word>

  /** What a masked read of `w` returns: the `mask` bits moved down by `shift`. */
  function Extract(w: Word, shift: Shift, mask: Word): (r: Word)
    ensures r & !(mask >> shift) == 0
  {
    (w & mask) >> shift
  }

  /** `w` with the bits under `mask` taken from `v` instead. */
  function Merge(w: Word, v: Word, mask: Word): (r: Word)
    ensures r & mask == v & mask
    ensures r & !mask == w & !mask
  {
    (w & !mask) | (v & mask)
  }

  /**
   * The word a read-modify-write of one field leaves behind: inside `mask`
   * the data shifted into place and truncated by the mask, outside `mask` the
   * old bits (Merge's contract).
   */
  function Insert(w: Word, data: Word, shift: Shift, mask: Word): Word
  {
    Merge(w, data << shift, mask)
  }

  /** Merging the same bits twice is merging them once. */
  lemma MergeIdempotent(w: Word, v: Word, mask: Word)
    ensures Merge(Merge(w, v, mask), v, mask) == Merge(w, v, mask)
  {
  }

  /** A merge under one mask leaves the bits of a disjoint mask as they were. */
  lemma MergeKeepsDisjoint(w: Word, v: Word, mask: Word, m: Word)
    requires mask & m == 0
    ensures Merge(w, v, mask) & m == w & m
  {
  }

  /**
   * stf_dphy_get_reg: the masked read.  The C function takes an `addr`
   * argument but reads the word at the window base, so the result never
   * depends on `addr`.
   */
  function GetReg(regs: Window, addr: nat, shift: Shift, mask: Word): (r: Word)
    requires 0 in regs
    ensures r & !(mask >> shift) == 0
  {
    Extract(regs[0], shift, mask)
  }

  /** GetReg reads offset 0 whatever offset it is asked for. */
  lemma GetRegIgnoresAddr(regs: Window, addr: nat, shift: Shift, mask: Word)
    requires 0 in regs
    ensures forall a: nat :: GetReg(regs, a, shift, mask) == GetReg(regs, addr, shift, mask)
    ensures forall other: Window :: 0 in other && other[0] == regs[0] ==>
              GetReg(other, addr, shift, mask) == GetReg(regs, addr, shift, mask)
  {
  }

  /**
   * The window after stf_dphy_set_reg(addr, data, shift, mask): the word at
   * `addr` is rewritten by Insert and no other word changes.
   */
  function Written(regs: Window, addr: nat, data: Word, shift: Shift, mask: Word): (r: Window)
    requires addr in regs
    ensures r.Keys == regs.Keys
    ensures r[addr] == Insert(regs[addr], data, shift, mask)
    ensures forall o :: o in regs && o != addr ==> r[o] == regs[o]
  {
    regs[addr := Insert(regs[addr], data, shift, mask)]
  }

  /**
   * After stf_dphy_set_reg the bits under `mask` at `addr` are exactly the
   * shifted data truncated by the mask, the bits outside `mask` are as they
   * were, and every other word is as it was.
   */
  lemma WrittenField(regs: Window, addr: nat, data: Word, shift: Shift, mask: Word)
    requires addr in regs
    ensures Written(regs, addr, data, shift, mask)[addr] & mask == (data << shift) & mask
    ensures Written(regs, addr, data, shift, mask)[addr] & !mask == regs[addr] & !mask
    ensures forall o :: o in regs && o != addr ==> Written(regs, addr, data, shift, mask)[o] == regs[o]
  {
  }
}
