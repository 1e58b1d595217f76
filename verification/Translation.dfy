/** kkm_guest_va_to_monitor_va against the hardware walk, and the page faults that depend on it. */
module Translation {
  import opened Constants
  import opened Paging
  import opened Mmu
  import opened MmuRuns
  import opened MemSlots

  // kkm_externs.h
  const MIB := 0x10_0000
  const GIB := 0x4000_0000
  const TIB := 0x100_0000_0000
  const VDSO_SLOT := 41
  const GUESTMEM_SLOT := 42
  const MEM_START_VA := 2 * MIB
  const MAX_PHYS_MEM := 512 * GIB
  const MEM_TOP_VA := 128 * TIB - 2 * MIB
  const VA_OFFSET := MEM_TOP_VA - (MAX_PHYS_MEM - 2 * MIB)
  const VDSO_BASE_VA := 512 * GIB
  const GUESTMEM_BASE_VA := 512 * GIB + 0x8000

  /** The monitor maps guest memory at entry 0, or at entry 32 when built for 16 TiB. */
  predicate KnownBase(h: Host) {
    h.payloadEntry == 0 || h.payloadEntry == 32
  }

  function UserMemBase(h: Host): nat {
    if h.payloadEntry == 32 then 16 * TIB else 0
  }

  datatype Target = Unmapped | Monitor(va: nat, private: bool)

  /** kkm_guest_va_to_monitor_va, with 64-bit wrap-around in the slot arithmetic. */
  function Translate(h: Host, slots: seq<Slot>, gva: nat): Target
    requires |slots| == MAX_MEMORY_SLOTS
  {
    var vdso, guestMem := slots[VDSO_SLOT], slots[GUESTMEM_SLOT];
    if MEM_START_VA <= gva < MAX_PHYS_MEM then Monitor(UserMemBase(h) + gva, false)
    else if VA_OFFSET <= gva < MEM_TOP_VA then Monitor(UserMemBase(h) + (gva - VA_OFFSET), false)
    else if vdso.used && VDSO_BASE_VA <= gva < (VDSO_BASE_VA + vdso.mr.memorySize) % TWO_64 then
      Monitor((gva - VDSO_BASE_VA + vdso.mr.userspaceAddr) % TWO_64, true)
    else if guestMem.used && GUESTMEM_BASE_VA <= gva < (GUESTMEM_BASE_VA + guestMem.mr.memorySize) % TWO_64 then
      Monitor((gva - GUESTMEM_BASE_VA + guestMem.mr.userspaceAddr) % TWO_64, true)
    else Unmapped
  }

  /* ---- which address is translated, and to what ---- */

  /** Slot i covers the address when its region starts at base; an end past 2^64 wraps around. */
  predicate SlotCovers(slots: seq<Slot>, i: nat, base: nat, gva: nat)
    requires i < |slots|
  {
    slots[i].used && base <= gva < (base + slots[i].mr.memorySize) % 0x1_0000_0000_0000_0000
  }

  predicate InBottomWindow(gva: nat) { 0x20_0000 <= gva < 0x80_0000_0000 }

  predicate InTopWindow(gva: nat) { 0x7F80_0000_0000 <= gva < 0x7FFF_FFE0_0000 }

  /** Exactly the addresses of the two windows and of the two slots are translated. A window wins over a
      slot, and the VDSO slot over the other. */
  lemma TranslatedExactly(h: Host, slots: seq<Slot>, gva: nat)
    requires |slots| == 64
    ensures var t, window := Translate(h, slots, gva), InBottomWindow(gva) || InTopWindow(gva);
            var vdso, guestMem := SlotCovers(slots, 41, 0x80_0000_0000, gva), SlotCovers(slots, 42, 0x80_0000_8000, gva);
            && (t.Monitor? <==> window || vdso || guestMem)
            && (t.Monitor? ==> (t.private <==> !window))
            && (!window && vdso ==> t.Monitor? && t.va == (slots[41].mr.userspaceAddr + (gva - 0x80_0000_0000)) % 0x1_0000_0000_0000_0000)
            && (!window && !vdso && guestMem ==> t.Monitor? && t.va == (slots[42].mr.userspaceAddr + (gva - 0x80_0000_8000)) % 0x1_0000_0000_0000_0000)
  {
  }

  /** Byte d of the monitor's 512 GiB of guest memory. The bottom window shows all but the first 2 MiB,
      the top window all but the last. */
  lemma WindowByte(h: Host, slots: seq<Slot>, d: nat)
    requires |slots| == 64 && d < 0x80_0000_0000
    ensures var memory := if h.payloadEntry == 32 then 0x1000_0000_0000 else 0;
            && (d >= 0x20_0000 ==> Translate(h, slots, d) == Monitor(memory + d, false))
            && (d < 0x7F_FFE0_0000 ==> Translate(h, slots, 0x7F80_0000_0000 + d) == Monitor(memory + d, false))
  {
  }

  /** Byte d of the region in the VDSO slot, below the top window. */
  lemma VdsoByte(h: Host, slots: seq<Slot>, d: nat)
    requires |slots| == 64 && slots[41].used && d < slots[41].mr.memorySize
    requires 0x80_0000_0000 + slots[41].mr.memorySize <= 0x7F80_0000_0000
    ensures Translate(h, slots, 0x80_0000_0000 + d) == Monitor((slots[41].mr.userspaceAddr + d) % 0x1_0000_0000_0000_0000, true)
  {
    TranslatedExactly(h, slots, 0x80_0000_0000 + d);
  }

  /** Byte d of the region in the guest-mem slot, below the top window and beyond the VDSO. */
  lemma GuestMemByte(h: Host, slots: seq<Slot>, d: nat)
    requires |slots| == 64 && slots[42].used && d < slots[42].mr.memorySize
    requires 0x80_0000_8000 + slots[42].mr.memorySize <= 0x7F80_0000_0000
    requires slots[41].used ==> slots[41].mr.memorySize <= 0x8000
    ensures Translate(h, slots, 0x80_0000_8000 + d) == Monitor((slots[42].mr.userspaceAddr + d) % 0x1_0000_0000_0000_0000, true)
  {
    TranslatedExactly(h, slots, 0x80_0000_8000 + d);
  }

  /** With well-formed slots a private page is a page of the region: byte i of it is byte i of the page that
      the slot's frame number names. */
  lemma PrivatePageOfRegion(h: Host, slots: seq<Slot>, n: nat, i: nat)
    requires |slots| == 64 && slots[41].used && WellFormed(slots[41]) && 0x1000 * n < slots[41].mr.memorySize && i < 0x1000
    requires 0x80_0000_0000 + slots[41].mr.memorySize <= 0x7F80_0000_0000
    requires slots[41].mr.userspaceAddr + slots[41].mr.memorySize <= 0x1_0000_0000_0000_0000
    ensures n < slots[41].npages
    ensures Translate(h, slots, 0x80_0000_0000 + 0x1000 * n + i) == Monitor(0x1000 * (slots[41].userPfn + n) + i, true)
  {
    VdsoByte(h, slots, 0x1000 * n + i);
  }

  /* ---- the guest memory window ---- */

  /** The window entry points where the monitor's does: what a sync leaves. */
  predicate Current(h: Host, k: Kontainer, m: Memory) {
    Frame(Read(m, LowTable(h, k), BOTTOM_ENTRY)) == Frame(MonitorEntry(h, m))
  }

  lemma ShiftedQuotient(va: nat, span: nat, c: nat)
    requires span != 0
    ensures (va + 512 * c * span) / span % 512 == va / span % 512
  {
    assert (va + 512 * c * span) / span == va / span + 512 * c by {
      QuotientOfSum(va, span, 512 * c);
    }
  }

  lemma QuotientOfSum(va: nat, span: nat, n: nat)
    requires span != 0
    ensures (va + n * span) / span == va / span + n && (va + n * span) % span == va % span
  {
    var q, r := va / span, va % span;
    assert va + n * span == (q + n) * span + r;
    DivModUnique(va + n * span, span, q + n, r);
  }

  lemma MultipleIsFar(a: int, d: int)
    requires d > 0
    ensures (a >= 1 ==> a * d >= d) && (a <= -1 ==> a * d <= -d)
  {
  }

  lemma DivModUnique(x: nat, d: nat, q: nat, r: nat)
    requires d != 0 && x == q * d + r && r < d
    ensures x / d == q && x % d == r
  {
    var q', r' := x / d, x % d;
    assert (q' - q) * d == r - r';
    MultipleIsFar(q' - q, d);
  }

  /** Addresses c slots of 512 GiB apart differ in the index of level 3 alone. */
  lemma SlotShift(va: nat, vb: nat, c: nat)
    requires vb == va + c * 0x80_0000_0000
    ensures SameIndices(vb, va, 2) && vb % Span(3) == va % Span(3) && vb / Span(3) == va / Span(3) + c
  {
    ShiftedQuotient(va, 0x1000, c * 0x4_0000);
    ShiftedQuotient(va, 0x20_0000, c * 0x200);
    ShiftedQuotient(va, 0x4000_0000, c);
    QuotientOfSum(va, 0x80_0000_0000, c);
  }

  /** Within a window, guest and monitor addresses differ by a multiple of 512 GiB only. */
  lemma WindowIndices(h: Host, slots: seq<Slot>, gva: nat)
    requires KnownBase(h) && |slots| == MAX_MEMORY_SLOTS
    requires Translate(h, slots, gva).Monitor? && !Translate(h, slots, gva).private
    ensures var mva := Translate(h, slots, gva).va;
            && SameIndices(mva, gva, 2) && mva % Span(3) == gva % Span(3)
            && Index(mva, 3) == h.payloadEntry && Index(mva, 4) == 0
            && (Index(gva, 3) == BOTTOM_ENTRY || Index(gva, 3) == TOP_ENTRY) && Index(gva, 4) == 0
  {
    var mva := Translate(h, slots, gva).va;
    if gva < MAX_PHYS_MEM {
      SlotShift(gva, mva, h.payloadEntry);
    } else {
      SlotShift(mva, gva, 255 - h.payloadEntry);
    }
  }

  /** What the monitor's own tables do with a window address. */
  lemma MonitorWindowWalk(h: Host, k: Kontainer, s: State, mva: nat)
    requires NativeOk(h, k, s) && Index(mva, 3) == h.payloadEntry && Index(mva, 4) == 0
    ensures Walk(s.m, h.pgd, TopLevel(h.l5), mva) == Follow(s.m, MonitorEntry(h, s.m), 3, mva)
  {
  }

  /** What the guest tables do with an address in the bottom or top window. */
  lemma GuestWindowWalk(h: Host, k: Kontainer, s: State, gva: nat)
    requires Separate(h, k) && Twins(h, k, s.m) && UserHalf(h, k, s)
    requires (Index(gva, 3) == BOTTOM_ENTRY || Index(gva, 3) == TOP_ENTRY) && Index(gva, 4) == 0
    ensures Walk(s.m, k.gpPgd, TopLevel(h.l5), gva) == Follow(s.m, Read(s.m, LowTable(h, k), BOTTOM_ENTRY), 3, gva)
  {
    if h.l5 {
      LinkPointsTo(k.lowP4d);
    }
  }

  /** The software translation agrees with the hardware walk, for every window address, in both
      guest tables, in both paging modes and for both monitor bases. */
  lemma TranslationAgrees(h: Host, k: Kontainer, s: State, slots: seq<Slot>, gva: nat)
    requires Inv(h, k, s) && KnownBase(h) && Current(h, k, s.m) && |slots| == MAX_MEMORY_SLOTS
    requires Translate(h, slots, gva).Monitor? && !Translate(h, slots, gva).private
    ensures var mva, top := Translate(h, slots, gva).va, TopLevel(h.l5);
            && Walk(s.m, k.gpPgd, top, gva) == Walk(s.m, h.pgd, top, mva)
            && Walk(s.m, k.gkPgd, top, gva) == Walk(s.m, h.pgd, top, mva)
            && gva % Span(3) == mva % Span(3)
  {
    var mva := Translate(h, slots, gva).va;
    var window, entry := Read(s.m, LowTable(h, k), BOTTOM_ENTRY), MonitorEntry(h, s.m);
    WindowIndices(h, slots, gva);
    MonitorWindowWalk(h, k, s, mva);
    GuestWindowWalk(h, k, s, gva);
    SameTableBelow(s.m, window, entry, mva);
    WalkFollowsIndices(s.m, window, 3, mva, gva);
    TwinsWalkAlike(h, k, s, gva);
  }

  lemma SameTableBelow(m: Memory, e: bv64, e': bv64, va: nat)
    requires Frame(e) == Frame(e') && Present(e) == Present(e')
    ensures Follow(m, e, 3, va) == Follow(m, e', 3, va)
  {
  }

  /** No native step of the run replaces the monitor's window entry. */
  ghost predicate Steady(h: Host, k: Kontainer, s: State, run: seq<Event>) {
    run != [] ==>
      && Steady(h, k, s, run[..|run| - 1])
      && var before := Play(h, k, s, run[..|run| - 1]);
         MonitorEntry(h, Apply(h, k, before, run[|run| - 1]).m) == MonitorEntry(h, before.m)
  }

  lemma SyncMakesCurrent(h: Host, k: Kontainer, s: State)
    requires Inv(h, k, s) && h.payloadEntry < 512
    ensures Current(h, k, Synced(h, k, s.m)) && MonitorEntry(h, Synced(h, k, s.m)) == MonitorEntry(h, s.m)
  {
    var e := MonitorEntry(h, s.m);
    NativeTableIsForeign(h, k, s, TopLevel(h.l5), h.pgd);
    if h.l5 {
      NativeP4d(h, k, s, LOW_P4D_ENTRY);
    }
    if !Current(h, k, s.m) {
      NxLeavesTheRest(e);
      if h.l5 { SyncWrites5(h, k, s.m, WithoutNx(e)); } else { SyncWrites4(h, k, s.m, WithoutNx(e)); }
    }
  }

  lemma NativeKeepsCurrent(h: Host, k: Kontainer, s: State, e: Event)
    requires e.Native? && Allowed(h, k, s, e) && Current(h, k, s.m)
    requires MonitorEntry(h, e.after.m) == MonitorEntry(h, s.m)
    ensures Current(h, k, e.after.m)
  {
    assert Read(e.after.m, LowTable(h, k), 0) == Read(s.m, LowTable(h, k), 0);
  }

  lemma StepKeepsCurrent(h: Host, k: Kontainer, s: State, e: Event)
    requires Inv(h, k, s) && h.payloadEntry < 512 && Current(h, k, s.m) && Allowed(h, k, s, e)
    requires MonitorEntry(h, Apply(h, k, s, e).m) == MonitorEntry(h, s.m)
    ensures Current(h, k, Apply(h, k, s, e).m)
  {
    match e
    case Sync => SyncMakesCurrent(h, k, s);
    case Native(after) => NativeKeepsCurrent(h, k, s, e);
    case PrivatePage(gva, mva) => PrivatePageWritesLeaf(h, k, s.m, gva, mva);
    case GuestArea(cpu, pages) => AreaWritesItsPage(h, s.m, cpu, pages);
  }

  lemma {:induction false} CurrentAlways(h: Host, k: Kontainer, s: State, run: seq<Event>)
    requires Inv(h, k, s) && h.payloadEntry < 512 && Current(h, k, s.m)
    requires AllowedRun(h, k, s, run) && Steady(h, k, s, run)
    ensures Current(h, k, Play(h, k, s, run).m)
  {
    if run != [] {
      var before, e := Play(h, k, s, run[..|run| - 1]), run[|run| - 1];
      CurrentAlways(h, k, s, run[..|run| - 1]);
      InvAlways(h, k, s, run[..|run| - 1]);
      StepKeepsCurrent(h, k, before, e);
    }
  }

  /** After a sync, translation and hardware agree for as long as the monitor keeps its window
      entry, whatever is written to the shared tables below it. */
  lemma TranslationAgreesAlways(h: Host, k: Kontainer, s: State, run: seq<Event>, slots: seq<Slot>, gva: nat)
    requires Inv(h, k, s) && KnownBase(h) && |slots| == MAX_MEMORY_SLOTS
    requires var synced := Apply(h, k, s, Sync); AllowedRun(h, k, synced, run) && Steady(h, k, synced, run)
    requires Translate(h, slots, gva).Monitor? && !Translate(h, slots, gva).private
    ensures var now, top := Play(h, k, Apply(h, k, s, Sync), run).m, TopLevel(h.l5);
            && Walk(now, k.gpPgd, top, gva) == Walk(now, h.pgd, top, Translate(h, slots, gva).va)
            && Walk(now, k.gkPgd, top, gva) == Walk(now, h.pgd, top, Translate(h, slots, gva).va)
  {
    var synced := Apply(h, k, s, Sync);
    SyncKeepsInv(h, k, s);
    SyncMakesCurrent(h, k, s);
    CurrentAlways(h, k, synced, run);
    InvAlways(h, k, synced, run);
    TranslationAgrees(h, k, Play(h, k, synced, run), slots, gva);
  }

  /** What kkm_mmu_sync leaves in the two tables, and that a second call has nothing to do. */
  lemma SyncContract(h: Host, k: Kontainer, s: State)
    requires Inv(h, k, s) && h.payloadEntry < 512
    ensures var m, t := Synced(h, k, s.m), LowTable(h, k);
            && Read(m, t, BOTTOM_ENTRY) == Read(m, t, TOP_ENTRY) && !NoExecute(Read(m, t, BOTTOM_ENTRY))
            && Frame(Read(m, t, BOTTOM_ENTRY)) == Frame(MonitorEntry(h, m))
            && (Present(Read(m, t, BOTTOM_ENTRY)) <==> Present(MonitorEntry(h, m)))
            && (Read(m, t, PRIVATE_ENTRY) == 0 || Read(m, t, PRIVATE_ENTRY) == k.guest.pgdEntry)
            && (!h.l5 ==> forall i: nat :: i < 256 ==> Read(m, k.gkPgd, i) == Read(m, k.gpPgd, i))
            && Synced(h, k, m) == m
  {
    SyncKeepsInv(h, k, s);
    SyncMakesCurrent(h, k, s);
    WindowShape(h, k, s.(m := Synced(h, k, s.m)));
  }

  lemma WindowShape(h: Host, k: Kontainer, s: State)
    requires NativeOk(h, k, s) && UserHalf(h, k, s) && Twins(h, k, s.m) && Current(h, k, s.m)
    ensures var m, t := s.m, LowTable(h, k);
            && Read(m, t, BOTTOM_ENTRY) == Read(m, t, TOP_ENTRY) && !NoExecute(Read(m, t, BOTTOM_ENTRY))
            && (Present(Read(m, t, BOTTOM_ENTRY)) <==> Present(MonitorEntry(h, m)))
            && (Read(m, t, PRIVATE_ENTRY) == 0 || Read(m, t, PRIVATE_ENTRY) == k.guest.pgdEntry)
            && (!h.l5 ==> forall i: nat :: i < 256 ==> Read(m, k.gkPgd, i) == Read(m, k.gpPgd, i))
            && Synced(h, k, m) == m
  {
  }

  /* ---- the private slot ---- */

  function LeafOf(entry: bv64): WalkResult {
    if Present(entry) then Leaf(0, entry) else Fault
  }

  /** A walk through a private slot sees its page table in the first 2 MiB and nothing elsewhere. */
  lemma PrivateSlotWalk(m: Memory, p: PrivateTables, va: nat)
    requires PrivateShape(m, p) && PageAddress(p.pud) && PageAddress(p.pmd) && PageAddress(p.pt)
    ensures Follow(m, p.pgdEntry, 3, va) ==
            if Index(va, 2) == 0 && Index(va, 1) == 0 then LeafOf(Read(m, p.pt, Index(va, 0))) else Fault
  {
    LinkPointsTo(p.pud);
    LinkPointsTo(p.pmd);
    LinkPointsTo(p.pt);
    var e2 := Read(m, p.pud, Index(va, 2));
    assert Follow(m, p.pgdEntry, 3, va) == Follow(m, e2, 2, va);
    if Index(va, 2) == 0 {
      var e1 := Read(m, p.pmd, Index(va, 1));
      assert Follow(m, e2, 2, va) == Follow(m, e1, 1, va);
      if Index(va, 1) == 0 {
        assert Follow(m, e1, 1, va) == Follow(m, Read(m, p.pt, Index(va, 0)), 0, va);
      }
    }
  }

  /** The slot is reachable once a sync has written the window. */
  predicate Installed(h: Host, k: Kontainer, m: Memory) {
    Read(m, LowTable(h, k), PRIVATE_ENTRY) == k.guest.pgdEntry
  }

  /** The guest's view of its private slot. */
  lemma GuestPrivateWalk(h: Host, k: Kontainer, s: State, gva: nat)
    requires Inv(h, k, s) && Index(gva, 3) == PRIVATE_ENTRY && Index(gva, 4) == 0
    ensures Walk(s.m, k.gkPgd, TopLevel(h.l5), gva) ==
            if Installed(h, k, s.m) && Index(gva, 2) == 0 && Index(gva, 1) == 0
            then LeafOf(Read(s.m, k.guest.pt, Index(gva, 0))) else Fault
  {
    LinkPointsTo(k.guest.pud);
    PrivateSlotWalk(s.m, k.guest, gva);
    if h.l5 {
      LinkPointsTo(k.lowP4d);
    }
  }

  /** The indices of an address that entry j of the private slot's page table resolves. */
  predicate IsSlotPage(h: Host, va: nat, j: nat) {
    && Index(va, TopLevel(h.l5)) == (if h.l5 then 0 else 1) && Index(va, 3) == 1
    && Index(va, 2) == 0 && Index(va, 1) == 0 && Index(va, 0) == j
  }

  /** s' differs from s in entry j of the private slot's page table at most. */
  ghost predicate SlotWritten(h: Host, k: Kontainer, s: State, s': State, j: nat) {
    && PrivateShape(s'.m, k.guest) && PrivateShape(s'.m, h.kx)
    && forall t, i: nat :: t != k.guest.pt || i != j ==> Read(s'.m, t, i) == Read(s.m, t, i)
  }

  /** No other address sees a change of the private slot's page table. */
  lemma LeafWriteIsLocal(h: Host, k: Kontainer, s: State, s': State, j: nat, va: nat)
    requires Inv(h, k, s) && SlotWritten(h, k, s, s', j) && !IsSlotPage(h, va, j)
    ensures Walk(s'.m, k.gkPgd, TopLevel(h.l5), va) == Walk(s.m, k.gkPgd, TopLevel(h.l5), va)
  {
    if h.l5 { LeafWriteIsLocal5(h, k, s, s', j, va); } else { LeafWriteIsLocal4(h, k, s, s', j, va); }
  }

  lemma LeafWriteIsLocal4(h: Host, k: Kontainer, s: State, s': State, j: nat, va: nat)
    requires !h.l5 && Inv(h, k, s) && SlotWritten(h, k, s, s', j) && !IsSlotPage(h, va, j)
    ensures Walk(s'.m, k.gkPgd, 3, va) == Walk(s.m, k.gkPgd, 3, va)
  {
    NativeAgrees(h, k, s, s'.m);
    assert Read(s'.m, k.gkPgd, Index(va, 3)) == Read(s.m, k.gkPgd, Index(va, 3));
    if Index(va, 3) < 256 {
      LowTableIsTwin(h, k, s, Index(va, 3));
      LowSlotStays(h, k, s, s', va);
    } else {
      KernelSlotStays(h, k, s, s', va);
    }
  }

  lemma LowTableIsTwin(h: Host, k: Kontainer, s: State, i: nat)
    requires !h.l5 && Twins(h, k, s.m) && i < 512
    ensures Read(s.m, LowTable(h, k), i) == Read(s.m, k.gkPgd, i)
  {
  }

  lemma LeafWriteIsLocal5(h: Host, k: Kontainer, s: State, s': State, j: nat, va: nat)
    requires h.l5 && Inv(h, k, s) && SlotWritten(h, k, s, s', j) && !IsSlotPage(h, va, j)
    ensures Walk(s'.m, k.gkPgd, 4, va) == Walk(s.m, k.gkPgd, 4, va)
  {
    NativeAgrees(h, k, s, s'.m);
    var i := Index(va, 4);
    assert Read(s'.m, k.gkPgd, i) == Read(s.m, k.gkPgd, i);
    if i == KX_P4D_ENTRY {
      KernelSlotStays(h, k, s, s', va);
      ThroughLink(s.m, s'.m, k.gkPgd, k.gkP4d, va);
    } else if i == 0 {
      LowStays5(h, k, s, s', va);
    } else {
      MiddleStays(h, k, s, s', va);
    }
  }

  /** A walk by way of a link goes on in the table below, whose entry has not changed. */
  lemma ThroughLink(m: Memory, m': Memory, pgd: bv64, p4d: bv64, va: nat)
    requires PageAddress(p4d) && Read(m, pgd, Index(va, 4)) == Read(m', pgd, Index(va, 4)) == Link(p4d)
    requires Read(m', p4d, Index(va, 3)) == Read(m, p4d, Index(va, 3))
    requires var e := Read(m, p4d, Index(va, 3)); Follow(m', e, 3, va) == Follow(m, e, 3, va)
    ensures Walk(m', pgd, 4, va) == Walk(m, pgd, 4, va)
  {
    LinkPointsTo(p4d);
  }

  lemma LowStays5(h: Host, k: Kontainer, s: State, s': State, va: nat)
    requires h.l5 && Separate(h, k) && NativeOk(h, k, s) && UserHalf(h, k, s) && AgreeOn(s.m, s'.m, s.native)
    requires PrivateShape(s.m, k.guest) && PrivateShape(s'.m, k.guest) && Index(va, 4) == 0
    requires forall t, i: nat :: t != k.guest.pt ==> Read(s'.m, t, i) == Read(s.m, t, i)
    requires Index(va, 3) == 1 && Index(va, 2) == 0 && Index(va, 1) == 0 ==>
               Read(s'.m, k.guest.pt, Index(va, 0)) == Read(s.m, k.guest.pt, Index(va, 0))
    ensures Walk(s'.m, k.gkPgd, 4, va) == Walk(s.m, k.gkPgd, 4, va)
  {
    if Read(s.m, k.gkPgd, 0) == Link(k.lowP4d) {
      LowSlotStays(h, k, s, s', va);
      ThroughLink(s.m, s'.m, k.gkPgd, k.lowP4d, va);
    }
  }

  lemma NativeAgrees(h: Host, k: Kontainer, s: State, m': Memory)
    requires NativeOk(h, k, s)
    requires forall t, i: nat :: t != k.guest.pt ==> Read(m', t, i) == Read(s.m, t, i)
    ensures AgreeOn(s.m, m', s.native)
  {
  }

  /** In 5-level mode the top-level entries 1..510 are empty or native. */
  lemma MiddleStays(h: Host, k: Kontainer, s: State, s': State, va: nat)
    requires h.l5 && NativeOk(h, k, s) && UserHalf(h, k, s) && KernelHalf(h, k, s) && AgreeOn(s.m, s'.m, s.native)
    requires 0 < Index(va, 4) < 511
    ensures var e := Read(s.m, k.gkPgd, Index(va, 4)); Follow(s'.m, e, 4, va) == Follow(s.m, e, 4, va)
  {
    var e := Read(s.m, k.gkPgd, Index(va, 4));
    if Index(va, 4) >= 256 {
      WalkStaysInside(s.m, s'.m, s.native, e, 4, va);
    }
  }

  lemma KernelSlotStays(h: Host, k: Kontainer, s: State, s': State, va: nat)
    requires Separate(h, k) && NativeOk(h, k, s) && KernelHalf(h, k, s) && AgreeOn(s.m, s'.m, s.native)
    requires PrivateShape(s.m, h.kx) && PrivateShape(s'.m, h.kx) && (h.l5 || Index(va, 3) >= 256)
    requires forall t, i: nat :: t != k.guest.pt ==> Read(s'.m, t, i) == Read(s.m, t, i)
    ensures var e := Read(s.m, UpperTable(h, k, false), Index(va, 3)); Follow(s'.m, e, 3, va) == Follow(s.m, e, 3, va)
  {
    var e := Read(s.m, UpperTable(h, k, false), Index(va, 3));
    if Index(va, 3) == KX_ENTRY {
      PrivateSlotWalk(s.m, h.kx, va);
      PrivateSlotWalk(s'.m, h.kx, va);
    } else {
      WalkStaysInside(s.m, s'.m, s.native, e, 3, va);
    }
  }

  lemma LowSlotStays(h: Host, k: Kontainer, s: State, s': State, va: nat)
    requires Separate(h, k) && NativeOk(h, k, s) && UserHalf(h, k, s) && AgreeOn(s.m, s'.m, s.native)
    requires PrivateShape(s.m, k.guest) && PrivateShape(s'.m, k.guest) && (h.l5 || Index(va, 3) < 256)
    requires forall t, i: nat :: t != k.guest.pt ==> Read(s'.m, t, i) == Read(s.m, t, i)
    requires Index(va, 3) == 1 && Index(va, 2) == 0 && Index(va, 1) == 0 ==>
               Read(s'.m, k.guest.pt, Index(va, 0)) == Read(s.m, k.guest.pt, Index(va, 0))
    ensures var e := Read(s.m, LowTable(h, k), Index(va, 3)); Follow(s'.m, e, 3, va) == Follow(s.m, e, 3, va)
  {
    var e := Read(s.m, LowTable(h, k), Index(va, 3));
    if Index(va, 3) == PRIVATE_ENTRY {
      PrivateSlotWalk(s.m, k.guest, va);
      PrivateSlotWalk(s'.m, k.guest, va);
    } else {
      WalkStaysInside(s.m, s'.m, s.native, e, 3, va);
    }
  }

  /** PageTableOf finds the leaf of every walk that meets no large page. */
  lemma {:induction false} SmallWalk(m: Memory, table: bv64, level: nat, va: nat)
    requires level <= 4
    requires Walk(m, table, level, va).Leaf? ==> Walk(m, table, level, va).level == 0
    ensures match PageTableOf(m, table, level, va)
            case NoTable => Walk(m, table, level, va) == Fault
            case Found(t) => Walk(m, table, level, va) == LeafOf(Read(m, t, Index(va, 0)))
    decreases level
  {
    var e := Read(m, table, Index(va, level));
    if level > 0 && Present(e) {
      SmallWalk(m, Frame(e), level - 1, va);
    }
  }

  /** A guest address of the 2 MiB the private page table covers. */
  predicate InPrivateWindow(gva: nat) {
    GUEST_PRIVATE_START_VA <= gva < GUEST_PRIVATE_START_VA + 2 * MIB
  }

  lemma PrivateIndices(gva: nat)
    requires InPrivateWindow(gva)
    ensures Index(gva, 4) == 0 && Index(gva, 3) == 1 && Index(gva, 2) == 0 && Index(gva, 1) == 0
    ensures Index(gva, 0) == (gva - GUEST_PRIVATE_START_VA) / 0x1000
  {
    var d := gva - GUEST_PRIVATE_START_VA;
    QuotientOfSum(d, 0x1000, 0x800_0000);
    QuotientOfSum(d, 0x20_0000, 0x4_0000);
    QuotientOfSum(d, 0x4000_0000, 0x200);
    QuotientOfSum(d, 0x80_0000_0000, 1);
    assert d / 0x1000 < 512 && d / 0x20_0000 == d / 0x4000_0000 == d / 0x80_0000_0000 == 0;
    assert gva / 0x1_0000_0000_0000 == 0;
  }

  /** Copying a page into the private slot: the fault address now resolves to the monitor's leaf,
      one entry changed, and no other page of the guest moved; without a monitor page table
      nothing changed at all. */
  lemma PrivatePageContract(h: Host, k: Kontainer, s: State, gva: nat, mva: nat)
    requires Inv(h, k, s) && h.payloadEntry < 512 && InPrivateWindow(gva)
    requires var w := Walk(s.m, h.pgd, TopLevel(h.l5), mva); w.Leaf? ==> w.level == 0
    ensures var m', top := WithPrivatePage(h, k, s.m, gva, mva), TopLevel(h.l5);
            match PageTableOf(s.m, h.pgd, top, mva)
            case NoTable => m' == s.m && Walk(s.m, h.pgd, top, mva) == Fault
            case Found(_) =>
              && Walk(m', h.pgd, top, mva) == Walk(s.m, h.pgd, top, mva)
              && Walk(m', k.gkPgd, top, gva) == (if Installed(h, k, s.m) then Walk(m', h.pgd, top, mva) else Fault)
              && (forall t, i: nat :: t != k.guest.pt || i != Index(gva, 0) ==> Read(m', t, i) == Read(s.m, t, i))
              && (forall va: nat :: !(SameIndices(va, gva, TopLevel(h.l5))) ==>
                    Walk(m', k.gkPgd, top, va) == Walk(s.m, k.gkPgd, top, va))
  {
    SmallWalk(s.m, h.pgd, TopLevel(h.l5), mva);
    match PageTableOf(s.m, h.pgd, TopLevel(h.l5), mva)
    case NoTable =>
    case Found(t) =>
      var m', entry := WithPrivatePage(h, k, s.m, gva, mva), Read(s.m, t, Index(mva, 0));
      WriteEntry(s.m, k.guest.pt, Index(gva, 0), entry);
      MonitorWalkStays(h, k, s, m', mva);
      SlotEntryResolves(h, k, s, m', gva, entry);
      forall va: nat | !SameIndices(va, gva, TopLevel(h.l5))
        ensures Walk(m', k.gkPgd, TopLevel(h.l5), va) == Walk(s.m, k.gkPgd, TopLevel(h.l5), va)
      {
        OtherPagesStay(h, k, s, m', gva, va);
      }
  }

  lemma SlotEntryResolves(h: Host, k: Kontainer, s: State, m': Memory, gva: nat, entry: bv64)
    requires Inv(h, k, s) && h.payloadEntry < 512 && InPrivateWindow(gva)
    requires forall t, i: nat :: Read(m', t, i) == if t == k.guest.pt && i == Index(gva, 0) then entry else Read(s.m, t, i)
    ensures Walk(m', k.gkPgd, TopLevel(h.l5), gva) == if Installed(h, k, s.m) then LeafOf(entry) else Fault
  {
    LeafWriteKeepsInv(h, k, s, s.(m := m'));
    PrivateIndices(gva);
    GuestPrivateWalk(h, k, s.(m := m'), gva);
    StillInstalled(h, k, s.m, m');
  }

  lemma OtherPagesStay(h: Host, k: Kontainer, s: State, m': Memory, gva: nat, va: nat)
    requires Inv(h, k, s) && InPrivateWindow(gva) && !SameIndices(va, gva, TopLevel(h.l5))
    requires forall t, i: nat :: t != k.guest.pt || i != Index(gva, 0) ==> Read(m', t, i) == Read(s.m, t, i)
    ensures Walk(m', k.gkPgd, TopLevel(h.l5), va) == Walk(s.m, k.gkPgd, TopLevel(h.l5), va)
  {
    ShapesStay(h, k, s, m');
    OtherIsNotSlotPage(h, gva, va);
    LeafWriteIsLocal(h, k, s, s.(m := m'), Index(gva, 0), va);
  }

  lemma ShapesStay(h: Host, k: Kontainer, s: State, m': Memory)
    requires Separate(h, k) && PrivateShape(s.m, k.guest) && PrivateShape(s.m, h.kx)
    requires forall t, i: nat :: t != k.guest.pt ==> Read(m', t, i) == Read(s.m, t, i)
    ensures PrivateShape(m', k.guest) && PrivateShape(m', h.kx)
  {
    LeavesAreNotAbove(h, k, s.m, m');
    ShapeFrame(s.m, m', k.guest);
    ShapeFrame(s.m, m', h.kx);
  }

  lemma OtherIsNotSlotPage(h: Host, gva: nat, va: nat)
    requires InPrivateWindow(gva) && !SameIndices(va, gva, TopLevel(h.l5))
    ensures !IsSlotPage(h, va, Index(gva, 0))
  {
    PrivateIndices(gva);
  }

  lemma StillInstalled(h: Host, k: Kontainer, m: Memory, m': Memory)
    requires Separate(h, k)
    requires forall t, i: nat :: t != k.guest.pt ==> Read(m', t, i) == Read(m, t, i)
    ensures Installed(h, k, m') == Installed(h, k, m)
  {
  }

  lemma MonitorWalkStays(h: Host, k: Kontainer, s: State, m': Memory, mva: nat)
    requires NativeOk(h, k, s)
    requires forall t, i: nat :: t != k.guest.pt ==> Read(m', t, i) == Read(s.m, t, i)
    ensures Walk(m', h.pgd, TopLevel(h.l5), mva) == Walk(s.m, h.pgd, TopLevel(h.l5), mva)
  {
    NativeAgrees(h, k, s, m');
    var n := Node(TopLevel(h.l5), h.pgd);
    assert n in s.native;
    WalkStaysInside(s.m, m', s.native, Read(s.m, h.pgd, Index(mva, n.level)), n.level, mva);
  }
}
