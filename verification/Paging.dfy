/** Page tables as the hardware sees them: 512-entry tables in physical memory, and the
    walk the processor makes through them in 4-level and in 5-level mode
    (Intel SDM Vol. 3A, "4-Level Paging and 5-Level Paging"). */
module Paging {

  /** One 8-byte word of a table, named by the table's physical address and an index. */
  datatype Cell = Cell(table: bv64, index: nat)

  /** Table memory. A word that was never written reads as zero, a not-present entry. */
  type Memory = map<Cell, bv64>

  function Read(m: Memory, table: bv64, index: nat): bv64 {
    if Cell(table, index) in m then m[Cell(table, index)] else 0
  }

  function Write(m: Memory, table: bv64, index: nat, entry: bv64): Memory {
    m[Cell(table, index) := entry]
  }

  lemma WriteEntry(m: Memory, table: bv64, index: nat, e: bv64)
    ensures forall t, i: nat :: Read(Write(m, table, index, e), t, i) == if t == table && i == index then e else Read(m, t, i)
  {
  }

  /** The page n pages further on. */
  function PageAfter(table: bv64, n: nat): bv64
    decreases n
  {
    if n == 0 then table else PageAfter(table + 0x1000, n - 1)
  }

  /** A store into an array of entries that starts at a page: past 512 of them it lands in the pages after it. */
  function Store(m: Memory, table: bv64, index: nat, entry: bv64): Memory {
    Write(m, PageAfter(table, index / 512), index % 512, entry)
  }

  // The bits of an entry are written as literals, under the names the kernel gives them.

  /** _PAGE_PRESENT */
  predicate Present(entry: bv64) {
    entry & 0x1 != 0
  }

  /** _PAGE_PSE */
  predicate Large(entry: bv64) {
    entry & 0x80 != 0
  }

  /** _PAGE_NX */
  predicate NoExecute(entry: bv64) {
    entry & 0x8000_0000_0000_0000 != 0
  }

  function WithoutNx(entry: bv64): bv64 {
    entry & 0x7FFF_FFFF_FFFF_FFFF
  }

  /** PTE_PFN_MASK: the physical address a walk takes from an entry. */
  function Frame(entry: bv64): bv64 {
    entry & 0x000F_FFFF_FFFF_F000
  }

  /** KKM_PAGE_PA_MASK: the 48-bit variant kkm_mmu.c uses for addresses it handles itself. */
  function LowFrame(entry: bv64): bv64 {
    entry & 0x0000_FFFF_FFFF_F000
  }

  /** The entry kkm_mmu_insert_page builds, with KKM_PAGE_FLAGS_MASK on the flags. */
  function Entry(pa: bv64, flags: bv64): bv64 {
    LowFrame(pa) | (flags & 0x8000_0000_0000_001F)
  }

  /** _PAGE_USER | _PAGE_RW | _PAGE_PRESENT */
  const TABLE_FLAGS: bv64 := 0x7

  /** The entry that makes a table reachable from the level above. */
  function Link(pa: bv64): bv64 {
    LowFrame(pa) | 0x7
  }

  /** A page-aligned physical address that fits the 48-bit mask. */
  predicate PageAddress(pa: bv64) {
    pa != 0 && LowFrame(pa) == pa
  }

  /** What a walk makes of the entry: the frame is the address exactly for page addresses (and 0),
      and of the flags only present, read-write, user, cache and no-execute bits get through. */
  lemma EntryMeans(pa: bv64, flags: bv64)
    ensures Frame(Entry(pa, flags)) == pa <==> LowFrame(pa) == pa
    ensures Present(Entry(pa, flags)) <==> Present(flags)
    ensures NoExecute(Entry(pa, flags)) <==> NoExecute(flags)
    ensures !Large(Entry(pa, flags))
  {
  }

  /** Bit by bit: an inserted entry has bits 12 to 47 of the address, bits 0 to 4 and 63 of the flags, and no
      other; the frame of an entry is its bits 12 to 51. */
  lemma EntryBits(pa: bv64, flags: bv64, entry: bv64)
    ensures Entry(pa, flags) & 0x0000_FFFF_FFFF_F000 == pa & 0x0000_FFFF_FFFF_F000
    ensures Entry(pa, flags) & 0x8000_0000_0000_001F == flags & 0x8000_0000_0000_001F
    ensures Entry(pa, flags) & 0x7FFF_0000_0000_0FE0 == 0
    ensures LowFrame(pa) == pa <==> pa & 0xFFFF_0000_0000_0FFF == 0
    ensures Frame(entry) & 0xFFF0_0000_0000_0FFF == 0 && Frame(entry) | (entry & 0xFFF0_0000_0000_0FFF) == entry
  {
  }

  lemma LinkPointsTo(pa: bv64)
    requires PageAddress(pa)
    ensures Present(Link(pa)) && Frame(Link(pa)) == pa && !Large(Link(pa))
  {
  }

  lemma NxLeavesTheRest(entry: bv64)
    ensures !NoExecute(WithoutNx(entry)) && Frame(WithoutNx(entry)) == Frame(entry)
    ensures Present(WithoutNx(entry)) == Present(entry) && Large(WithoutNx(entry)) == Large(entry)
  {
  }

  /** Bytes mapped by one entry of a table at the given level (0 is the page table). */
  function Span(level: nat): nat
    requires level <= 4
  {
    match level
    case 0 => 0x1000
    case 1 => 0x20_0000
    case 2 => 0x4000_0000
    case 3 => 0x80_0000_0000
    case _ => 0x1_0000_0000_0000
  }

  function Index(va: nat, level: nat): nat
    requires level <= 4
  {
    (va / Span(level)) % 512
  }

  /** An entry ends the walk in a page table, or as a large page one or two levels up. */
  predicate EndsWalk(level: nat, entry: bv64) {
    level == 0 || ((level == 1 || level == 2) && Large(entry))
  }

  datatype WalkResult = Fault | Leaf(level: nat, entry: bv64)

  /** The hardware walk from a table at the given level. */
  function Walk(m: Memory, table: bv64, level: nat, va: nat): WalkResult
    requires level <= 4
  {
    Follow(m, Read(m, table, Index(va, level)), level, va)
  }

  /** What the walk does with the entry it found at the given level. */
  function Follow(m: Memory, entry: bv64, level: nat, va: nat): WalkResult
    requires level <= 4
    decreases level
  {
    if !Present(entry) then Fault
    else if EndsWalk(level, entry) then Leaf(level, entry)
    else Follow(m, Read(m, Frame(entry), Index(va, level - 1)), level - 1, va)
  }

  /** The level of the table cr3 points to. */
  function TopLevel(l5: bool): nat {
    if l5 then 4 else 3
  }

  /** Two addresses use the same entry of every table up to the given level. */
  ghost predicate SameIndices(va: nat, vb: nat, level: nat)
    requires level <= 4
  {
    forall l: nat :: l <= level ==> Index(va, l) == Index(vb, l)
  }

  lemma {:induction false} WalkFollowsIndices(m: Memory, entry: bv64, level: nat, va: nat, vb: nat)
    requires level <= 4 && (level > 0 ==> SameIndices(va, vb, level - 1))
    ensures Follow(m, entry, level, va) == Follow(m, entry, level, vb)
    decreases level
  {
    if Present(entry) && !EndsWalk(level, entry) {
      WalkFollowsIndices(m, Read(m, Frame(entry), Index(va, level - 1)), level - 1, va, vb);
    }
  }

  /** A table together with the level at which walks reach it. */
  datatype Node = Node(level: nat, table: bv64)

  /** Entry `entry` of a table at the given level leads nowhere outside `nodes`. */
  predicate LeadsInto(nodes: set<Node>, entry: bv64, level: nat) {
    Present(entry) && !EndsWalk(level, entry) ==> level > 0 && Node(level - 1, Frame(entry)) in nodes
  }

  /** Walks that enter `nodes` stay inside it. */
  ghost predicate Closed(m: Memory, nodes: set<Node>) {
    forall n, i: nat :: n in nodes && i < 512 ==> LeadsInto(nodes, Read(m, n.table, i), n.level)
  }

  /** The two memories hold the same entries in every table of `nodes`. */
  ghost predicate AgreeOn(m: Memory, m': Memory, nodes: set<Node>) {
    forall n, i: nat :: n in nodes && i < 512 ==> Read(m', n.table, i) == Read(m, n.table, i)
  }

  /** A walk that enters a closed set sees only that set: changes elsewhere cannot move it. */
  lemma {:induction false} WalkStaysInside(m: Memory, m': Memory, nodes: set<Node>, entry: bv64, level: nat, va: nat)
    requires level <= 4 && Closed(m, nodes) && AgreeOn(m, m', nodes)
    requires LeadsInto(nodes, entry, level)
    ensures Follow(m', entry, level, va) == Follow(m, entry, level, va)
    decreases level
  {
    if Present(entry) && !EndsWalk(level, entry) {
      var n := Node(level - 1, Frame(entry));
      assert n in nodes;
      WalkStaysInside(m, m', nodes, Read(m, n.table, Index(va, level - 1)), level - 1, va);
    }
  }
}
