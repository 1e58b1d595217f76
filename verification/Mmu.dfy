/** kkm_mmu.c: building the guest-kernel and guest-payload tables on top of the monitor's. */
module Mmu {
  import opened Paging

  // Entry numbers of kkm_mmu.h.
  const KERNEL_HALF := 256
  const KX_P4D_ENTRY := 511
  const KX_ENTRY := 509
  const LOW_P4D_ENTRY := 0
  const BOTTOM_ENTRY := 0
  const PRIVATE_ENTRY := 1
  const TOP_ENTRY := 255

  // Entries of the kx page table: the CPUs' guest areas take its upper half.
  const CPU_AREA_START := 256
  const PAGES_PER_CPU := 4
  const KX_CPUS := 64

  const PRIVATE_START_VA := 0xFFFF_FE80_0000_0000
  const GUEST_PRIVATE_START_VA := 0x80_0000_0000

  /** struct kkm_mmu_pml4e: one 512 GiB slot with a single table at each level below it. */
  datatype PrivateTables = PrivateTables(pgdEntry: bv64, pud: bv64, pmd: bv64, pt: bv64)

  /** The machine and the monitor: paging mode, the top-level entry behind the guest memory
      (0, or 32 when it sits at 16 TiB), the monitor's pgd, and the module-wide kx tables. */
  datatype Host = Host(l5: bool, payloadEntry: nat, pgd: bv64, kx: PrivateTables)

  /** Physical addresses of the table pages a kontainer owns. The p4d pages exist in 5-level mode only. */
  datatype Kontainer = Kontainer(gkPgd: bv64, gpPgd: bv64, gkP4d: bv64, gpP4d: bv64, lowP4d: bv64,
                                 guest: PrivateTables)

  /* ---- specification of each operation: the memory it leaves behind ---- */

  /** Entries lo..hi-1 of one table as they will stand in another. */
  function Copies(m: Memory, src: bv64, dst: bv64, lo: nat, hi: nat): (r: Memory)
    ensures forall t, i: nat :: Cell(t, i) in r <==> t == dst && lo <= i < hi
    ensures forall i: nat :: lo <= i < hi ==> r[Cell(dst, i)] == Read(m, src, i)
  {
    map i: nat | lo <= i < hi :: Cell(dst, i) := Read(m, src, i)
  }

  /** memcpy of entries lo..hi-1 of one table into another. */
  function Copied(m: Memory, src: bv64, dst: bv64, lo: nat, hi: nat): (r: Memory)
    ensures forall t, i: nat :: Read(r, t, i) == if t == dst && lo <= i < hi then Read(m, src, i) else Read(m, t, i)
  {
    m + Copies(m, src, dst, lo, hi)
  }

  /** Pages come zeroed from the allocator. */
  function Zeroed(m: Memory, tables: set<bv64>): (r: Memory)
    ensures forall t, i: nat :: Read(r, t, i) == if t in tables then 0 else Read(m, t, i)
  {
    map c | c in m && c.table !in tables :: m[c]
  }

  /** kkm_create_pml4, after its three pages were allocated. */
  function WithPrivateTables(m: Memory, address: nat, p: PrivateTables): Memory {
    Write(Write(m, p.pud, Index(address, 2), Link(p.pmd)), p.pmd, Index(address, 1), Link(p.pt))
  }

  /** kkm_mmu_setup_one_pgd. */
  function WithKernelHalf(h: Host, m: Memory, pgd: bv64, p4d: bv64): Memory {
    var m1 := Copied(m, h.pgd, pgd, KERNEL_HALF, 512);
    if h.l5 then
      var m2 := Copied(m1, LowFrame(Read(m1, h.pgd, KX_P4D_ENTRY)), p4d, 0, 512);
      Write(Write(m2, p4d, KX_ENTRY, h.kx.pgdEntry), pgd, KX_P4D_ENTRY, Link(p4d))
    else
      Write(m1, pgd, KX_ENTRY, h.kx.pgdEntry)
  }

  /** kkm_mmu_copy_kernel_pgd. */
  function WithKernelPgd(h: Host, k: Kontainer, m: Memory): Memory {
    WithKernelHalf(h, WithKernelHalf(h, m, k.gkPgd, k.gkP4d), k.gpPgd, k.gpP4d)
  }

  /** The monitor's entry behind the guest memory window. */
  function MonitorEntry(h: Host, m: Memory): bv64 {
    if h.l5 then Read(m, LowFrame(Read(m, h.pgd, LOW_P4D_ENTRY)), h.payloadEntry)
    else Read(m, h.pgd, h.payloadEntry)
  }

  /** The table whose entries 0, 1 and 255 form the payload's user half. */
  function LowTable(h: Host, k: Kontainer): bv64 {
    if h.l5 then k.lowP4d else k.gpPgd
  }

  /** One entry written into both top-level tables. */
  function WriteBoth(m: Memory, k: Kontainer, index: nat, entry: bv64): Memory {
    Write(Write(m, k.gkPgd, index, entry), k.gpPgd, index, entry)
  }

  /** The guest memory entry at both ends of a 4-level user half, and the private slot beside it. */
  function WithWindow4(m: Memory, k: Kontainer, entry: bv64): Memory {
    WriteBoth(WriteBoth(WriteBoth(m, k, BOTTOM_ENTRY, entry), k, PRIVATE_ENTRY, k.guest.pgdEntry), k, TOP_ENTRY, entry)
  }

  /** The same in the p4d page that both 5-level tables share for low addresses. */
  function WithWindow5(m: Memory, k: Kontainer, entry: bv64): Memory {
    var linked := WriteBoth(m, k, LOW_P4D_ENTRY, Link(k.lowP4d));
    Write(Write(Write(linked, k.lowP4d, BOTTOM_ENTRY, entry), k.lowP4d, PRIVATE_ENTRY, k.guest.pgdEntry),
          k.lowP4d, TOP_ENTRY, entry)
  }

  /** kkm_mmu_sync. */
  function Synced(h: Host, k: Kontainer, m: Memory): Memory {
    var e := MonitorEntry(h, m);
    if Frame(e) == Frame(Read(m, LowTable(h, k), BOTTOM_ENTRY)) then m
    else if h.l5 then WithWindow5(m, k, WithoutNx(e))
    else WithWindow4(m, k, WithoutNx(e))
  }

  datatype Table = NoTable | Found(table: bv64)

  /** The page table an address uses, walking by present bits alone as kkm_mmu_get_table_va does. */
  function PageTableOf(m: Memory, table: bv64, level: nat, va: nat): Table
    requires level <= 4
    decreases level
  {
    var e := Read(m, table, Index(va, level));
    if level == 0 then Found(table)
    else if Present(e) then PageTableOf(m, Frame(e), level - 1, va)
    else NoTable
  }

  /** kkm_mmu_update_priv_area. */
  function WithPrivatePage(h: Host, k: Kontainer, m: Memory, gva: nat, mva: nat): Memory {
    match PageTableOf(m, h.pgd, TopLevel(h.l5), mva)
    case NoTable => m
    case Found(t) => Write(m, k.guest.pt, Index(gva, 0), Read(m, t, Index(mva, 0)))
  }

  /** An entry inserted in a table: where it leads, whether a walk may pass, and that nothing else moved. */
  lemma InsertedEntry(m: Memory, table: bv64, index: nat, pa: bv64, flags: bv64)
    requires index < 512
    ensures var m' := Store(m, table, index, Entry(pa, flags));
            && (Frame(Read(m', table, index)) == pa <==> LowFrame(pa) == pa)
            && (Present(Read(m', table, index)) <==> Present(flags))
            && (NoExecute(Read(m', table, index)) <==> NoExecute(flags)) && !Large(Read(m', table, index))
            && forall t, i: nat :: t != table || i != index ==> Read(m', t, i) == Read(m, t, i)
  {
    EntryMeans(pa, flags);
    StoreInPage(m, table, index, 0, table, index, Entry(pa, flags));
    WriteEntry(m, table, index, Entry(pa, flags));
  }

  /** kkm_mmu_get_per_cpu_start_index */
  function AreaIndex(cpu: nat): nat {
    CPU_AREA_START + cpu * PAGES_PER_CPU
  }

  /** _PAGE_NX | _PAGE_RW | _PAGE_PRESENT */
  function AreaEntry(pa: bv64): bv64 {
    Entry(pa, 0x8000_0000_0000_0003)
  }

  /** The physical addresses of a guest area's pages; the last two are 0. */
  datatype AreaPages = AreaPages(pa0: bv64, pa1: bv64, pa2: bv64, pa3: bv64)

  /** Four entries stored one after the other. */
  function FourStored(m: Memory, table: bv64, i: nat, e0: bv64, e1: bv64, e2: bv64, e3: bv64): Memory {
    Store(Store(Store(Store(m, table, i, e0), table, i + 1, e1), table, i + 2, e2), table, i + 3, e3)
  }

  /** kkm_mmu_set_guest_area */
  function WithGuestArea(h: Host, m: Memory, cpu: nat, a: AreaPages): Memory {
    FourStored(m, h.kx.pt, AreaIndex(cpu), AreaEntry(a.pa0), AreaEntry(a.pa1), AreaEntry(a.pa2), AreaEntry(a.pa3))
  }

  lemma AreaFitsPage(cpu: nat)
    ensures AreaIndex(cpu) % 512 + 4 <= 512
  {
    assert AreaIndex(cpu) % 4 == 0;
  }

  lemma AreaInFirstPage(cpu: nat)
    ensures AreaIndex(cpu) / 512 == 0 <==> cpu < KX_CPUS
  {
  }

  /** m' differs from m only in entries lo to hi - 1 of a page. */
  ghost predicate KeptOutside(m: Memory, m': Memory, page: bv64, lo: nat, hi: nat) {
    forall t, j: nat :: t != page || !(lo <= j < hi) ==> Read(m', t, j) == Read(m, t, j)
  }

  /** m' is m with four entries of a page, from index i on, replaced. */
  ghost predicate FourReplaced(m: Memory, m': Memory, page: bv64, i: nat, e0: bv64, e1: bv64, e2: bv64, e3: bv64) {
    && KeptOutside(m, m', page, i, i + 4)
    && Read(m', page, i) == e0 && Read(m', page, i + 1) == e1 && Read(m', page, i + 2) == e2 && Read(m', page, i + 3) == e3
  }

  lemma OneMore(m: Memory, m1: Memory, page: bv64, lo: nat, hi: nat, e: bv64)
    requires KeptOutside(m, m1, page, lo, hi) && lo <= hi
    ensures KeptOutside(m, Write(m1, page, hi, e), page, lo, hi + 1)
  {
  }

  function FourWritten(m: Memory, page: bv64, i: nat, e0: bv64, e1: bv64, e2: bv64, e3: bv64): Memory {
    Write(Write(Write(Write(m, page, i, e0), page, i + 1, e1), page, i + 2, e2), page, i + 3, e3)
  }

  lemma FourWrites(m: Memory, page: bv64, i: nat, e0: bv64, e1: bv64, e2: bv64, e3: bv64)
    ensures FourReplaced(m, FourWritten(m, page, i, e0, e1, e2, e3), page, i, e0, e1, e2, e3)
  {
    var m1 := Write(m, page, i, e0);
    var m2 := Write(m1, page, i + 1, e1);
    var m3 := Write(m2, page, i + 2, e2);
    FourKeepOutside(m, m1, m2, m3, page, i, e0, e1, e2, e3);
  }

  lemma FourKeepOutside(m: Memory, m1: Memory, m2: Memory, m3: Memory, page: bv64, i: nat, e0: bv64, e1: bv64, e2: bv64, e3: bv64)
    requires m1 == Write(m, page, i, e0) && m2 == Write(m1, page, i + 1, e1) && m3 == Write(m2, page, i + 2, e2)
    ensures KeptOutside(m, Write(m3, page, i + 3, e3), page, i, i + 4)
  {
    OneMore(m, m, page, i, i, e0);
    OneMore(m, m1, page, i, i + 1, e1);
    OneMore(m, m2, page, i, i + 2, e2);
    OneMore(m, m3, page, i, i + 3, e3);
  }

  /** The store d entries after entry i of table falls into the same page. */
  lemma StoreInPage(m: Memory, table: bv64, i: nat, d: nat, page: bv64, j: nat, e: bv64)
    requires page == PageAfter(table, i / 512) && j == i % 512 && j + d < 512
    ensures Store(m, table, i + d, e) == Write(m, page, j + d, e)
  {
    assert (i + d) / 512 == i / 512 && (i + d) % 512 == j + d;
  }

  lemma FourStores(m: Memory, table: bv64, i: nat, page: bv64, j: nat, e0: bv64, e1: bv64, e2: bv64, e3: bv64)
    requires page == PageAfter(table, i / 512) && j == i % 512 && j + 4 <= 512
    ensures FourStored(m, table, i, e0, e1, e2, e3) == FourWritten(m, page, j, e0, e1, e2, e3)
  {
    var m1 := Write(m, page, j, e0);
    var m2 := Write(m1, page, j + 1, e1);
    StoreInPage(m, table, i, 0, page, j, e0);
    StoreInPage(m1, table, i, 1, page, j, e1);
    StoreInPage(m2, table, i, 2, page, j, e2);
    StoreInPage(Write(m2, page, j + 2, e2), table, i, 3, page, j, e3);
  }

  lemma FirstPageAfter(table: bv64)
    ensures PageAfter(table, 0) == table
  {
  }

  lemma GuestAreaStores(h: Host, m: Memory, cpu: nat, a: AreaPages)
    ensures FourReplaced(m, WithGuestArea(h, m, cpu, a), PageAfter(h.kx.pt, AreaIndex(cpu) / 512), AreaIndex(cpu) % 512,
                         AreaEntry(a.pa0), AreaEntry(a.pa1), AreaEntry(a.pa2), AreaEntry(a.pa3))
  {
    AreaFitsPage(cpu);
    var i, page, first := AreaIndex(cpu), PageAfter(h.kx.pt, AreaIndex(cpu) / 512), AreaIndex(cpu) % 512;
    FourStores(m, h.kx.pt, i, page, first, AreaEntry(a.pa0), AreaEntry(a.pa1), AreaEntry(a.pa2), AreaEntry(a.pa3));
    FourWrites(m, page, first, AreaEntry(a.pa0), AreaEntry(a.pa1), AreaEntry(a.pa2), AreaEntry(a.pa3));
  }

  /** All four entries of a CPU go into one page: the kx page table itself for the first 64 CPUs and
      for no other, and else a page after it. */
  lemma GuestAreaEntries(h: Host, m: Memory, cpu: nat, a: AreaPages)
    ensures var page, first := PageAfter(h.kx.pt, AreaIndex(cpu) / 512), AreaIndex(cpu) % 512;
            && FourReplaced(m, WithGuestArea(h, m, cpu, a), page, first,
                            AreaEntry(a.pa0), AreaEntry(a.pa1), AreaEntry(a.pa2), AreaEntry(a.pa3))
            && first + 4 <= 512 && (AreaIndex(cpu) / 512 == 0 <==> cpu < KX_CPUS) && (cpu < KX_CPUS ==> page == h.kx.pt)
  {
    AreaFitsPage(cpu);
    AreaInFirstPage(cpu);
    FirstPageAfter(h.kx.pt);
    GuestAreaStores(h, m, cpu, a);
  }

  /* ---- the operations themselves, writing tables in place ---- */

  class PhysicalMemory {
    var words: Memory

    /** kkm_mmu_set_entry */
    method SetEntry(table: bv64, index: nat, entry: bv64)
      modifies this
      ensures words == Write(old(words), table, index, entry)
    {
      words := words[Cell(table, index) := entry];
    }

    /** kkm_mmu_insert_page; nothing keeps the index inside the page */
    method InsertPage(table: bv64, index: nat, pa: bv64, flags: bv64)
      modifies this
      ensures words == Store(old(words), table, index, Entry(pa, flags))
    {
      var page, i := PageAfter(table, index / 512), index % 512;
      words := words[Cell(page, i) := Entry(pa, flags)];
    }

    /** kkm_mmu_set_guest_area */
    method SetGuestArea(h: Host, cpu: nat, a: AreaPages)
      modifies this
      ensures words == WithGuestArea(h, old(words), cpu, a)
      ensures cpu < KX_CPUS ==> forall t, i: nat :: t != h.kx.pt ==> Read(words, t, i) == Read(old(words), t, i)
    {
      ghost var before := words;
      var i := AreaIndex(cpu);
      InsertPage(h.kx.pt, i, a.pa0, 0x8000_0000_0000_0003);
      InsertPage(h.kx.pt, i + 1, a.pa1, 0x8000_0000_0000_0003);
      InsertPage(h.kx.pt, i + 2, a.pa2, 0x8000_0000_0000_0003);
      InsertPage(h.kx.pt, i + 3, a.pa3, 0x8000_0000_0000_0003);
      assert words == WithGuestArea(h, before, cpu, a);
      GuestAreaEntries(h, before, cpu, a);
    }

    /** kkm_mmu_copy_range, counted in entries instead of bytes */
    method CopyRange(src: bv64, dst: bv64, first: nat, count: nat)
      modifies this
      ensures words == Copied(old(words), src, dst, first, first + count)
      ensures forall t, i: nat :: Read(words, t, i) ==
                if t == dst && first <= i < first + count then Read(old(words), src, i) else Read(old(words), t, i)
    {
      words := words + Copies(words, src, dst, first, first + count);
    }

    /** kkm_create_pml4 with the pages the allocator returned */
    method CreatePml4(address: nat, pud: bv64, pmd: bv64, pt: bv64) returns (p: PrivateTables)
      modifies this
      ensures p == PrivateTables(Link(pud), pud, pmd, pt)
      ensures words == WithPrivateTables(Zeroed(old(words), {pud, pmd, pt}), address, p)
    {
      words := Zeroed(words, {pud, pmd, pt});
      p := PrivateTables(Link(pud), pud, pmd, pt);
      InsertPage(pud, Index(address, 2), pmd, TABLE_FLAGS);
      InsertPage(pmd, Index(address, 1), pt, TABLE_FLAGS);
    }

    /** kkm_mmu_setup_one_pgd; address 0 stands for a missing p4d page */
    method SetupOnePgd(h: Host, pgd: bv64, p4d: bv64)
      requires h.l5 ==> p4d != 0
      modifies this
      ensures words == WithKernelHalf(h, old(words), pgd, p4d)
    {
      CopyRange(h.pgd, pgd, KERNEL_HALF, 256);
      if h.l5 {
        var nativeP4d := LowFrame(Read(words, h.pgd, KX_P4D_ENTRY));
        CopyRange(nativeP4d, p4d, 0, 512);
        SetEntry(p4d, KX_ENTRY, h.kx.pgdEntry);
        InsertPage(pgd, KX_P4D_ENTRY, p4d, TABLE_FLAGS);
      } else {
        SetEntry(pgd, KX_ENTRY, h.kx.pgdEntry);
      }
    }

    /** kkm_mmu_copy_kernel_pgd: -EINVAL without a current pgd */
    method CopyKernelPgd(h: Host, k: Kontainer) returns (ok: bool)
      requires h.l5 ==> k.gkP4d != 0 && k.gpP4d != 0
      modifies this
      ensures ok <==> h.pgd != 0
      ensures words == if ok then WithKernelPgd(h, k, old(words)) else old(words)
    {
      if h.pgd == 0 {
        return false;
      }
      SetupOnePgd(h, k.gkPgd, k.gkP4d);
      SetupOnePgd(h, k.gpPgd, k.gpP4d);
      ok := true;
    }

    method SetBoth(k: Kontainer, index: nat, entry: bv64)
      modifies this
      ensures words == WriteBoth(old(words), k, index, entry)
    {
      SetEntry(k.gkPgd, index, entry);
      SetEntry(k.gpPgd, index, entry);
    }

    method SetWindow5(k: Kontainer, entry: bv64)
      modifies this
      ensures words == WithWindow5(old(words), k, entry)
    {
      InsertPage(k.gkPgd, LOW_P4D_ENTRY, k.lowP4d, TABLE_FLAGS);
      InsertPage(k.gpPgd, LOW_P4D_ENTRY, k.lowP4d, TABLE_FLAGS);
      SetEntry(k.lowP4d, BOTTOM_ENTRY, entry);
      SetEntry(k.lowP4d, PRIVATE_ENTRY, k.guest.pgdEntry);
      SetEntry(k.lowP4d, TOP_ENTRY, entry);
    }

    /** kkm_mmu_sync */
    method Sync(h: Host, k: Kontainer)
      modifies this
      ensures words == Synced(h, k, old(words))
    {
      var nativeEntry, guestEntry;
      if h.l5 {
        var nativeLowP4d := LowFrame(Read(words, h.pgd, LOW_P4D_ENTRY));
        nativeEntry := Read(words, nativeLowP4d, h.payloadEntry);
        guestEntry := Read(words, k.lowP4d, BOTTOM_ENTRY);
      } else {
        nativeEntry := Read(words, h.pgd, h.payloadEntry);
        guestEntry := Read(words, k.gpPgd, BOTTOM_ENTRY);
      }
      if Frame(nativeEntry) == Frame(guestEntry) {
        return;
      }
      if h.l5 {
        SetWindow5(k, WithoutNx(nativeEntry));
      } else {
        SetBoth(k, BOTTOM_ENTRY, WithoutNx(nativeEntry));
        SetBoth(k, PRIVATE_ENTRY, k.guest.pgdEntry);
        SetBoth(k, TOP_ENTRY, WithoutNx(nativeEntry));
      }
    }

    /** kkm_mmu_get_table_va */
    method GetTable(table: bv64, index: nat) returns (ok: bool, next: bv64)
      ensures ok <==> Present(Read(words, table, index))
      ensures next == if ok then Frame(Read(words, table, index)) else table
    {
      var entry := Read(words, table, index);
      ok := Present(entry);
      next := if ok then Frame(entry) else table;
    }

    /** kkm_mmu_update_priv_area */
    method UpdatePrivateArea(h: Host, k: Kontainer, gva: nat, mva: nat) returns (ok: bool)
      modifies this
      ensures ok <==> PageTableOf(old(words), h.pgd, TopLevel(h.l5), mva).Found?
      ensures words == WithPrivatePage(h, k, old(words), gva, mva)
    {
      var table := h.pgd;
      ok, table := GetTable(table, Index(mva, TopLevel(h.l5)));
      if !ok { return; }
      if h.l5 {
        ok, table := GetTable(table, Index(mva, 3));
        if !ok { return; }
      }
      assert PageTableOf(words, h.pgd, TopLevel(h.l5), mva) == PageTableOf(words, table, 2, mva);
      ok, table := GetTable(table, Index(mva, 2));
      if !ok { return; }
      ok, table := GetTable(table, Index(mva, 1));
      if !ok { return; }
      assert PageTableOf(words, h.pgd, TopLevel(h.l5), mva) == Found(table);
      SetEntry(k.guest.pt, Index(gva, 0), Read(words, table, Index(mva, 0)));
    }
  }
}
