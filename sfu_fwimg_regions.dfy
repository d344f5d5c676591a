/**
 * The slot table of the secure-boot firmware image handling: ten fixed slot
 * indices, three parallel tables of 32-bit flash addresses (header, start and
 * end of each slot), the slot-size computation and the two checks the image
 * layout is validated with.
 *
 * The addresses themselves come from the linker mapping of the board, which
 * is not part of this model, so they are the fields of a `FlashMap` that every
 * table takes as a parameter.
 */
module SfuFwImgRegions {

  type u32 = x: int | 0 <= x < 0x1_0000_0000

  const NB_SLOTS: nat := 10

  const SLOT_INACTIVE: nat := 0
  const SLOT_ACTIVE_1: nat := 1
  const SLOT_ACTIVE_2: nat := 2
  const SLOT_ACTIVE_3: nat := 3
  const SLOT_DWL_1: nat := 4
  const SLOT_DWL_2: nat := 5
  const SLOT_DWL_3: nat := 6
  const SLOT_DWL_4: nat := 7
  const SLOT_SWAP: nat := 8
  const SLOT_BACKUP: nat := 9

  /** An index into the slot tables. */
  type SlotIndex = i: nat | i < NB_SLOTS

  /** Offset of the firmware image from the first block of its slot. */
  const SFU_IMG_IMAGE_OFFSET: u32 := 512

  /** The SLOT_*_HEADER, SLOT_*_START, SLOT_*_END, SWAP_* and BACKUP_* addresses of the linker mapping. */
  datatype FlashMap = FlashMap(
    active1Header: u32, active1Start: u32, active1End: u32,
    active2Header: u32, active2Start: u32, active2End: u32,
    active3Header: u32, active3Start: u32, active3End: u32,
    dwl1Start: u32, dwl1End: u32,
    dwl2Start: u32, dwl2End: u32,
    dwl3Start: u32, dwl3End: u32,
    dwl4Start: u32, dwl4End: u32,
    swapStart: u32, swapEnd: u32,
    backupStart: u32, backupEnd: u32)

  predicate IsActiveSlot(i: nat) { SLOT_ACTIVE_1 <= i <= SLOT_ACTIVE_3 }
  predicate IsDownloadSlot(i: nat) { SLOT_DWL_1 <= i <= SLOT_DWL_4 }

  // ---------------------------------------------------------------------
  // The three tables
  // ---------------------------------------------------------------------

  /** SlotHeaderAdd[]: only the active slots have a header apart from their start. */
  function SlotHeaderAdd(m: FlashMap): (t: seq<u32>)
    ensures |t| == NB_SLOTS
    ensures t[SLOT_INACTIVE] == 0
  {
    [0, m.active1Header, m.active2Header, m.active3Header,
     m.dwl1Start, m.dwl2Start, m.dwl3Start, m.dwl4Start, m.swapStart, m.backupStart]
  }

  /** SlotStartAdd[]. */
  function SlotStartAdd(m: FlashMap): (t: seq<u32>)
    ensures |t| == NB_SLOTS
    ensures t[SLOT_INACTIVE] == 0
  {
    [0, m.active1Start, m.active2Start, m.active3Start,
     m.dwl1Start, m.dwl2Start, m.dwl3Start, m.dwl4Start, m.swapStart, m.backupStart]
  }

  /** SlotEndAdd[]: the last address that belongs to each slot. */
  function SlotEndAdd(m: FlashMap): (t: seq<u32>)
    ensures |t| == NB_SLOTS
    ensures t[SLOT_INACTIVE] == 0
  {
    [0, m.active1End, m.active2End, m.active3End,
     m.dwl1End, m.dwl2End, m.dwl3End, m.dwl4End, m.swapEnd, m.backupEnd]
  }

  // ---------------------------------------------------------------------
  // SLOT_SIZE and the layout checks
  // ---------------------------------------------------------------------

  /**
   * SLOT_SIZE: end minus start plus one, in 32-bit unsigned arithmetic, so it
   * wraps modulo 2^32.
   */
  function SlotSize(m: FlashMap, a: SlotIndex): (size: u32)
    // exact whenever the end is not before the start and the slot does not span
    // the whole address space; zero when it does, and zero for an empty slot whose
    // end is just below its start; an end two or more below the start wraps around
    // to a size of nearly 2^32
    ensures var start, end := SlotStartAdd(m)[a] as int, SlotEndAdd(m)[a] as int;
            && (start <= end && end - start < 0xFFFF_FFFF ==> size == end - start + 1)
            && (start <= end ==> (size == 0 <==> end - start == 0xFFFF_FFFF))
            && (end + 1 == start ==> size == 0)
            && (end + 1 < start ==> size == 0x1_0000_0000 - (start - end - 1))
  {
    var start, end := SlotStartAdd(m)[a] as int, SlotEndAdd(m)[a] as int;
    (end - start + 1) % 0x1_0000_0000
  }

  /**
   * SFU_IMG_REGION_IS_MULTIPLE: `a / b * b == a` in unsigned arithmetic. The
   * product never exceeds `a` (MultipleProductFits), so it cannot wrap; a zero
   * `b` would divide by zero.
   */
  function IsMultiple(a: u32, b: u32): (r: bool)
    requires b > 0
    ensures r <==> a % b == 0
  {
    a / b * b == a
  }

  /** SFU_IMG_REGION_IS_SAME_SIZE. */
  function IsSameSize(a: u32, b: u32): (r: bool)
    ensures r <==> a == b
  {
    a == b
  }

  // ---------------------------------------------------------------------
  // Lemmas
  // ---------------------------------------------------------------------

  /** Every slot index is exactly one of inactive, active, download, swap or backup. */
  lemma SlotKinds(i: SlotIndex)
    ensures i == SLOT_INACTIVE || IsActiveSlot(i) || IsDownloadSlot(i) || i == SLOT_SWAP || i == SLOT_BACKUP
    ensures IsActiveSlot(i) ==> !IsDownloadSlot(i) && i != SLOT_INACTIVE && i != SLOT_SWAP && i != SLOT_BACKUP
    ensures IsDownloadSlot(i) ==> i != SLOT_INACTIVE && i != SLOT_SWAP && i != SLOT_BACKUP
  {
  }

  /** The ten index constants name ten different slots, and every slot. */
  lemma SlotIndicesDistinct()
    ensures {SLOT_INACTIVE, SLOT_ACTIVE_1, SLOT_ACTIVE_2, SLOT_ACTIVE_3, SLOT_DWL_1, SLOT_DWL_2, SLOT_DWL_3,
             SLOT_DWL_4, SLOT_SWAP, SLOT_BACKUP} == ClosedRange(0, NB_SLOTS - 1)
    ensures |ClosedRange(0, NB_SLOTS - 1)| == NB_SLOTS
  {
    ClosedRangeSize(0, NB_SLOTS - 1);
  }

  /** Download, swap and backup slots keep their header in their first block. */
  lemma HeaderIsStartOutsideActiveSlots(m: FlashMap, i: SlotIndex)
    requires !IsActiveSlot(i)
    ensures SlotHeaderAdd(m)[i] == SlotStartAdd(m)[i]
  {
  }

  /** The inactive slot is all zero, and SLOT_SIZE counts its one address. */
  lemma InactiveSlot(m: FlashMap)
    ensures SlotHeaderAdd(m)[SLOT_INACTIVE] == SlotStartAdd(m)[SLOT_INACTIVE] == SlotEndAdd(m)[SLOT_INACTIVE] == 0
    ensures SlotSize(m, SLOT_INACTIVE) == 1
  {
  }

  /** The integers from `lo` to `hi`, both included. */
  function ClosedRange(lo: int, hi: int): (r: set<int>)
    ensures forall x :: x in r <==> lo <= x <= hi
    decreases hi - lo
  {
    if lo > hi then {} else ClosedRange(lo, hi - 1) + {hi}
  }

  lemma {:induction false} ClosedRangeSize(lo: int, hi: int)
    requires lo <= hi + 1
    ensures |ClosedRange(lo, hi)| == hi - lo + 1
    decreases hi - lo + 1
  {
    if lo <= hi {
      ClosedRangeSize(lo, hi - 1);
      assert hi !in ClosedRange(lo, hi - 1);
    }
  }

  /**
   * SLOT_SIZE counts the addresses of the slot, the end address included (none
   * when the end is just below the start), unless the slot spans the whole
   * 32-bit address space, where it wraps to 0.
   */
  lemma {:induction false} SlotSizeCountsAddresses(m: FlashMap, a: SlotIndex)
    requires SlotStartAdd(m)[a] as int <= SlotEndAdd(m)[a] as int + 1
    ensures var start, end := SlotStartAdd(m)[a] as int, SlotEndAdd(m)[a] as int;
            && (end - start < 0xFFFF_FFFF ==> SlotSize(m, a) == |ClosedRange(start, end)|)
            && (end - start == 0xFFFF_FFFF ==> SlotSize(m, a) == 0 && |ClosedRange(start, end)| == 0x1_0000_0000)
  {
    ClosedRangeSize(SlotStartAdd(m)[a], SlotEndAdd(m)[a]);
  }

  /** SFU_IMG_REGION_IS_SAME_SIZE is an equivalence on slot sizes. */
  lemma SameSizeIsEquivalence(a: u32, b: u32, c: u32)
    ensures IsSameSize(a, a)
    ensures IsSameSize(a, b) <==> IsSameSize(b, a)
    ensures IsSameSize(a, b) && IsSameSize(b, c) ==> IsSameSize(a, c)
  {
  }

  /**
   * The product in SFU_IMG_REGION_IS_MULTIPLE never exceeds `a`, so computing it
   * in 32-bit unsigned arithmetic gives the same value as computing it exactly.
   */
  lemma MultipleProductFits(a: u32, b: u32)
    requires b > 0
    ensures 0 <= a / b * b <= a
    ensures a / b * b < 0x1_0000_0000
  {
  }
}
