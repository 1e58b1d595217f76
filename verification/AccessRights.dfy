/** Access rights: what the hardware lets the payload do at an address, collected from every entry its
    walk passes (Intel SDM Vol. 3A section 4.6), and what a sync makes of the monitor's. */
module AccessRights {
  import opened Constants
  import opened Paging
  import opened Mmu
  import opened MmuRuns
  import opened MemSlots
  import opened Translation

  datatype Rights = Rights(user: bool, write: bool, execute: bool)

  const ALL := Rights(true, true, true)

  /** Bits 2, 1 and 63 of an entry. */
  function RightsOf(entry: bv64): Rights {
    Rights(entry & 0x4 != 0, entry & 0x2 != 0, entry & 0x8000_0000_0000_0000 == 0)
  }

  /** What both grant. */
  function Both(a: Rights, b: Rights): Rights {
    Rights(a.user && b.user, a.write && b.write, a.execute && b.execute)
  }

  /** What all entries of a walk grant, from one at the given level on. */
  function FollowRights(m: Memory, entry: bv64, level: nat, va: nat): Rights
    requires level <= 4
    decreases level
  {
    if !Present(entry) || EndsWalk(level, entry) then RightsOf(entry)
    else Both(RightsOf(entry), FollowRights(m, Read(m, Frame(entry), Index(va, level - 1)), level - 1, va))
  }

  function WalkRights(m: Memory, table: bv64, level: nat, va: nat): Rights
    requires level <= 4
  {
    FollowRights(m, Read(m, table, Index(va, level)), level, va)
  }

  lemma {:induction false} RightsFollowIndices(m: Memory, entry: bv64, level: nat, va: nat, vb: nat)
    requires level <= 4 && (level > 0 ==> SameIndices(va, vb, level - 1))
    ensures FollowRights(m, entry, level, va) == FollowRights(m, entry, level, vb)
    decreases level
  {
    if Present(entry) && !EndsWalk(level, entry) {
      RightsFollowIndices(m, Read(m, Frame(entry), Index(va, level - 1)), level - 1, va, vb);
    }
  }

  /** A leaf grants at least what its walk does. */
  lemma {:induction false} LeafGrantsMore(m: Memory, entry: bv64, level: nat, va: nat)
    requires level <= 4 && Follow(m, entry, level, va).Leaf?
    ensures var w, r := RightsOf(Follow(m, entry, level, va).entry), FollowRights(m, entry, level, va);
            (r.user ==> w.user) && (r.write ==> w.write) && (r.execute ==> w.execute)
    decreases level
  {
    if !EndsWalk(level, entry) {
      LeafGrantsMore(m, Read(m, Frame(entry), Index(va, level - 1)), level - 1, va);
    }
  }

  /* ---- what kkm's own entries grant ---- */

  lemma LinkGrantsAll(pa: bv64)
    ensures RightsOf(Link(pa)) == ALL
  {
  }

  /** A guest area is for the kernel only, writable, and holds no code. */
  lemma AreaGrants(pa: bv64)
    ensures RightsOf(AreaEntry(pa)) == Rights(false, true, false) && Present(AreaEntry(pa)) && !Large(AreaEntry(pa))
  {
  }

  /* ---- the window ---- */

  /** The window entry is the monitor's in every bit but the one that forbids execution, and that is clear. */
  predicate InStep(h: Host, k: Kontainer, m: Memory) {
    Read(m, LowTable(h, k), 0) == MonitorEntry(h, m) & 0x7FFF_FFFF_FFFF_FFFF
  }

  lemma SameFrameInStep(e: bv64, e': bv64)
    requires e == e' & 0x7FFF_FFFF_FFFF_FFFF
    ensures Frame(e) == Frame(e') && Present(e) == Present(e') && Large(e) == Large(e')
    ensures RightsOf(e) == RightsOf(e').(execute := true)
  {
  }

  lemma InStepIsCurrent(h: Host, k: Kontainer, m: Memory)
    requires InStep(h, k, m)
    ensures Current(h, k, m)
  {
    SameFrameInStep(Read(m, LowTable(h, k), 0), MonitorEntry(h, m));
  }

  lemma SyncRewrites(h: Host, k: Kontainer, s: State)
    requires Inv(h, k, s) && !Current(h, k, s.m)
    ensures Rewritten(h, k, s.m, Synced(h, k, s.m), WithoutNx(MonitorEntry(h, s.m)))
  {
    var e := MonitorEntry(h, s.m);
    if h.l5 { SyncWrites5(h, k, s.m, WithoutNx(e)); } else { SyncWrites4(h, k, s.m, WithoutNx(e)); }
  }

  /** Both tables, both ends. */
  ghost predicate WindowIs(h: Host, k: Kontainer, m: Memory, e: bv64) {
    && (!h.l5 ==> Read(m, k.gkPgd, 0) == Read(m, k.gpPgd, 0) == Read(m, k.gkPgd, 255) == Read(m, k.gpPgd, 255) == e)
    && (h.l5 ==> Read(m, k.lowP4d, 0) == Read(m, k.lowP4d, 255) == e)
    && (h.l5 ==> Read(m, k.gkPgd, 0) == Read(m, k.gpPgd, 0) == Link(k.lowP4d))
  }

  lemma RewrittenWindow(h: Host, k: Kontainer, m: Memory, m': Memory, e: bv64)
    requires Separate(h, k) && Rewritten(h, k, m, m', e)
    ensures WindowIs(h, k, m', e)
  {
  }

  /** A sync that writes copies every bit but 63, to both ends of the user half and for both tables. */
  lemma SyncCopiesEveryBit(h: Host, k: Kontainer, s: State)
    requires Inv(h, k, s) && h.payloadEntry < 512 && !Current(h, k, s.m)
    ensures var m := Synced(h, k, s.m);
            && MonitorEntry(h, m) == MonitorEntry(h, s.m) && InStep(h, k, m)
            && WindowIs(h, k, m, MonitorEntry(h, s.m) & 0x7FFF_FFFF_FFFF_FFFF)
  {
    var e := MonitorEntry(h, s.m);
    SyncMakesCurrent(h, k, s);
    SyncRewrites(h, k, s);
    RewrittenWindow(h, k, s.m, Synced(h, k, s.m), WithoutNx(e));
    EveryBitButNx(h, k, Synced(h, k, s.m), e);
  }

  lemma EveryBitButNx(h: Host, k: Kontainer, m: Memory, e: bv64)
    requires WindowIs(h, k, m, WithoutNx(e)) && MonitorEntry(h, m) == e
    ensures WindowIs(h, k, m, e & 0x7FFF_FFFF_FFFF_FFFF) && InStep(h, k, m)
  {
  }

  /** A sync brings the window in step if and only if it writes, or the window was in step already: when
      the monitor changes rights but not the frame, kkm_mmu_sync does nothing. */
  lemma SyncInStepExactly(h: Host, k: Kontainer, s: State)
    requires Inv(h, k, s) && h.payloadEntry < 512
    ensures InStep(h, k, Synced(h, k, s.m)) <==> !Current(h, k, s.m) || InStep(h, k, s.m)
  {
    if !Current(h, k, s.m) { SyncCopiesEveryBit(h, k, s); }
  }

  /** Nobody but a sync writes the table of the window. */
  lemma LowTableStays(h: Host, k: Kontainer, s: State, e: Event)
    requires Inv(h, k, s) && Allowed(h, k, s, e) && !e.Sync?
    ensures Read(Apply(h, k, s, e).m, LowTable(h, k), 0) == Read(s.m, LowTable(h, k), 0)
  {
    match e
    case Native(after) => assert IsOurs(h, k, LowTable(h, k));
    case PrivatePage(gva, mva) => PrivatePageWritesLeaf(h, k, s.m, gva, mva);
    case GuestArea(cpu, pages) => AreaWritesItsPage(h, s.m, cpu, pages);
  }

  /** So rights can be stale: with a window in step with what the monitor's entry was before, and that entry
      now read-only under the same frame, a sync does nothing and the guest's stays writable. */
  lemma StaleRights(h: Host, k: Kontainer, m: Memory, window: bv64, before: bv64, now: bv64)
    requires window == before & 0x7FFF_FFFF_FFFF_FFFF && before & 0x2 != 0 && now == before & 0xFFFF_FFFF_FFFF_FFFD
    requires Read(m, LowTable(h, k), 0) == window && MonitorEntry(h, m) == now
    ensures Synced(h, k, m) == m && RightsOf(window).write && !RightsOf(now).write
  {
    StaleBits(window, before, now);
    SameFrameIsIdle(h, k, m);
  }

  lemma SameFrameIsIdle(h: Host, k: Kontainer, m: Memory)
    requires Frame(Read(m, LowTable(h, k), 0)) == Frame(MonitorEntry(h, m))
    ensures Synced(h, k, m) == m
  {
  }

  lemma StaleBits(w: bv64, e: bv64, e': bv64)
    requires w == e & 0x7FFF_FFFF_FFFF_FFFF && e & 0x2 != 0 && e' == e & 0xFFFF_FFFF_FFFF_FFFD
    ensures Frame(w) == Frame(e') && RightsOf(w).write && !RightsOf(e').write
  {
  }

  lemma StepKeepsInStep(h: Host, k: Kontainer, s: State, e: Event)
    requires Inv(h, k, s) && h.payloadEntry < 512 && InStep(h, k, s.m) && Allowed(h, k, s, e)
    requires MonitorEntry(h, Apply(h, k, s, e).m) == MonitorEntry(h, s.m)
    ensures InStep(h, k, Apply(h, k, s, e).m)
  {
    if e.Sync? {
      NothingToSync(h, k, s.m);
    } else {
      LowTableStays(h, k, s, e);
      InStepFrame(h, k, s.m, Apply(h, k, s, e).m);
    }
  }

  lemma InStepFrame(h: Host, k: Kontainer, m: Memory, m': Memory)
    requires InStep(h, k, m) && MonitorEntry(h, m') == MonitorEntry(h, m)
    requires Read(m', LowTable(h, k), 0) == Read(m, LowTable(h, k), 0)
    ensures InStep(h, k, m')
  {
  }

  lemma NothingToSync(h: Host, k: Kontainer, m: Memory)
    requires InStep(h, k, m)
    ensures Synced(h, k, m) == m
  {
    InStepIsCurrent(h, k, m);
  }

  lemma {:induction false} InStepAlways(h: Host, k: Kontainer, s: State, run: seq<Event>)
    requires Inv(h, k, s) && h.payloadEntry < 512 && InStep(h, k, s.m)
    requires AllowedRun(h, k, s, run) && Steady(h, k, s, run)
    ensures InStep(h, k, Play(h, k, s, run).m)
  {
    if run != [] {
      var before, e := Play(h, k, s, run[..|run| - 1]), run[|run| - 1];
      InStepAlways(h, k, s, run[..|run| - 1]);
      InvAlways(h, k, s, run[..|run| - 1]);
      StepKeepsInStep(h, k, before, e);
    }
  }

  lemma GuestTopRights(h: Host, k: Kontainer, s: State, payload: bool, gva: nat)
    requires Separate(h, k) && Twins(h, k, s.m) && UserHalf(h, k, s) && Present(Read(s.m, LowTable(h, k), 0))
    requires (Index(gva, 3) == 0 || Index(gva, 3) == 255) && Index(gva, 4) == 0
    ensures WalkRights(s.m, Root(k, payload), TopLevel(h.l5), gva) == FollowRights(s.m, Read(s.m, LowTable(h, k), 0), 3, gva)
  {
    assert Read(s.m, LowTable(h, k), Index(gva, 3)) == Read(s.m, LowTable(h, k), 0);
    if h.l5 {
      NothingIsAbsent();
      assert Read(s.m, Root(k, payload), 0) == Link(k.lowP4d);
      ThroughGrantingLink(s.m, Root(k, payload), k.lowP4d, gva);
    }
  }

  /** A link takes nothing away. */
  lemma ThroughGrantingLink(m: Memory, pgd: bv64, p4d: bv64, va: nat)
    requires PageAddress(p4d) && Read(m, pgd, Index(va, 4)) == Link(p4d)
    ensures WalkRights(m, pgd, 4, va) == WalkRights(m, p4d, 3, va) && Walk(m, pgd, 4, va) == Walk(m, p4d, 3, va)
  {
    LinkPointsTo(p4d);
    LinkGrantsAll(p4d);
  }

  lemma NothingIsAbsent()
    ensures !Present(0)
  {
  }

  ghost predicate WindowGrants(h: Host, k: Kontainer, m: Memory, payload: bool, gva: nat, mva: nat) {
    var guest := WalkRights(m, Root(k, payload), TopLevel(h.l5), gva);
    var below := FollowRights(m, MonitorEntry(h, m), 3, mva);
    && guest.user == below.user && guest.write == below.write && (below.execute ==> guest.execute)
    && guest == FollowRights(m, MonitorEntry(h, m) & 0x7FFF_FFFF_FFFF_FFFF, 3, mva)
    && WalkRights(m, h.pgd, TopLevel(h.l5), mva) == (if h.l5 then Both(RightsOf(Read(m, h.pgd, 0)), below) else below)
  }

  /** What the guest may do at a window address is what the monitor's entries grant at the translated one,
      from the synced entry down; only that entry itself never forbids execution. */
  lemma WindowRights(h: Host, k: Kontainer, s: State, slots: seq<Slot>, payload: bool, gva: nat)
    requires Inv(h, k, s) && KnownBase(h) && InStep(h, k, s.m) && Present(MonitorEntry(h, s.m)) && |slots| == MAX_MEMORY_SLOTS
    requires Translate(h, slots, gva).Monitor? && !Translate(h, slots, gva).private
    ensures WindowGrants(h, k, s.m, payload, gva, Translate(h, slots, gva).va)
  {
    var mva, e, w := Translate(h, slots, gva).va, MonitorEntry(h, s.m), Read(s.m, LowTable(h, k), 0);
    WindowIndices(h, slots, gva);
    SameFrameInStep(w, e);
    GuestTopRights(h, k, s, payload, gva);
    RightsFollowIndices(s.m, w, 3, gva, mva);
    RightsBelow(s.m, w, e, mva);
    MonitorRights(h, k, s, mva);
  }

  lemma TopRights(m: Memory, e: bv64, va: nat)
    requires Present(e)
    ensures FollowRights(m, e, 3, va) == Both(RightsOf(e), FollowRights(m, Read(m, Frame(e), Index(va, 2)), 2, va))
  {
  }

  lemma RightsBelow(m: Memory, w: bv64, e: bv64, va: nat)
    requires w == e & 0x7FFF_FFFF_FFFF_FFFF && Present(e)
    ensures var g, r := FollowRights(m, w, 3, va), FollowRights(m, e, 3, va);
            g.user == r.user && g.write == r.write && (r.execute ==> g.execute)
  {
    SameFrameInStep(w, e);
    SameBelow(m, w, e, va);
  }

  lemma SameBelow(m: Memory, w: bv64, e: bv64, va: nat)
    requires Present(e) && Present(w) && Frame(w) == Frame(e) && RightsOf(w) == RightsOf(e).(execute := true)
    ensures var g, r := FollowRights(m, w, 3, va), FollowRights(m, e, 3, va);
            g.user == r.user && g.write == r.write && (r.execute ==> g.execute)
  {
    TopRights(m, w, va);
    TopRights(m, e, va);
  }

  lemma MonitorRights(h: Host, k: Kontainer, s: State, mva: nat)
    requires NativeOk(h, k, s) && Index(mva, 3) == h.payloadEntry && Index(mva, 4) == 0
    ensures WalkRights(s.m, h.pgd, TopLevel(h.l5), mva) ==
            if h.l5 then Both(RightsOf(Read(s.m, h.pgd, 0)), FollowRights(s.m, MonitorEntry(h, s.m), 3, mva))
            else FollowRights(s.m, MonitorEntry(h, s.m), 3, mva)
  {
  }

  /** So the guest may at least do what the monitor may. */
  lemma WindowGrantsMore(h: Host, k: Kontainer, s: State, slots: seq<Slot>, payload: bool, gva: nat)
    requires Inv(h, k, s) && KnownBase(h) && InStep(h, k, s.m) && Present(MonitorEntry(h, s.m)) && |slots| == MAX_MEMORY_SLOTS
    requires Translate(h, slots, gva).Monitor? && !Translate(h, slots, gva).private
    ensures var guest := WalkRights(s.m, Root(k, payload), TopLevel(h.l5), gva);
            var monitor := WalkRights(s.m, h.pgd, TopLevel(h.l5), Translate(h, slots, gva).va);
            (monitor.user ==> guest.user) && (monitor.write ==> guest.write) && (monitor.execute ==> guest.execute)
  {
    WindowRights(h, k, s, slots, payload, gva);
  }

  /** After a sync that writes, over every run that leaves the monitor's top entry in place. */
  lemma WindowRightsAlways(h: Host, k: Kontainer, s: State, run: seq<Event>, slots: seq<Slot>, payload: bool, gva: nat)
    requires Inv(h, k, s) && KnownBase(h) && !Current(h, k, s.m) && Present(MonitorEntry(h, s.m)) && |slots| == MAX_MEMORY_SLOTS
    requires var synced := Apply(h, k, s, Sync); AllowedRun(h, k, synced, run) && Steady(h, k, synced, run)
    requires Translate(h, slots, gva).Monitor? && !Translate(h, slots, gva).private
    ensures WindowGrants(h, k, Play(h, k, Apply(h, k, s, Sync), run).m, payload, gva, Translate(h, slots, gva).va)
  {
    StillInStep(h, k, s, run);
    WindowRights(h, k, Play(h, k, Apply(h, k, s, Sync), run), slots, payload, gva);
  }

  lemma StillInStep(h: Host, k: Kontainer, s: State, run: seq<Event>)
    requires Inv(h, k, s) && h.payloadEntry < 512 && !Current(h, k, s.m)
    requires var synced := Apply(h, k, s, Sync); AllowedRun(h, k, synced, run) && Steady(h, k, synced, run)
    ensures var now := Play(h, k, Apply(h, k, s, Sync), run);
            Inv(h, k, now) && InStep(h, k, now.m) && MonitorEntry(h, now.m) == MonitorEntry(h, s.m)
  {
    var synced := Apply(h, k, s, Sync);
    SyncKeepsInv(h, k, s);
    SyncCopiesEveryBit(h, k, s);
    InStepAlways(h, k, synced, run);
    InvAlways(h, k, synced, run);
    EntryStays(h, k, synced, run);
  }

  lemma {:induction false} EntryStays(h: Host, k: Kontainer, s: State, run: seq<Event>)
    requires AllowedRun(h, k, s, run) && Steady(h, k, s, run)
    ensures MonitorEntry(h, Play(h, k, s, run).m) == MonitorEntry(h, s.m)
  {
    if run != [] { EntryStays(h, k, s, run[..|run| - 1]); }
  }

  /* ---- the private slot and the CPUs' areas ---- */

  /** A private page grants what its own entry, the copy of the monitor's leaf, does: nothing above it restricts it. */
  lemma PrivateRights(h: Host, k: Kontainer, s: State, payload: bool, gva: nat)
    requires Inv(h, k, s) && Installed(h, k, s.m) && InPrivateWindow(gva) && Present(Read(s.m, k.guest.pt, Index(gva, 0)))
    ensures WalkRights(s.m, Root(k, payload), TopLevel(h.l5), gva) == RightsOf(Read(s.m, k.guest.pt, Index(gva, 0)))
  {
    PrivateIndices(gva);
    SlotRights(s.m, k.guest, gva);
    if h.l5 {
      LinkPointsTo(k.guest.pud);
      assert Read(s.m, Root(k, payload), 0) == Link(k.lowP4d);
      ThroughGrantingLink(s.m, Root(k, payload), k.lowP4d, gva);
    }
  }

  lemma SlotRights(m: Memory, p: PrivateTables, va: nat)
    requires PrivateShape(m, p) && PageAddress(p.pud) && PageAddress(p.pmd) && PageAddress(p.pt)
    requires Index(va, 2) == 0 && Index(va, 1) == 0
    ensures FollowRights(m, p.pgdEntry, 3, va) == RightsOf(Read(m, p.pt, Index(va, 0)))
    ensures Follow(m, p.pgdEntry, 3, va) == LeafOf(Read(m, p.pt, Index(va, 0)))
  {
    LinkPointsTo(p.pud);
    LinkPointsTo(p.pmd);
    LinkPointsTo(p.pt);
    LinkGrantsAll(p.pud);
    LinkGrantsAll(p.pmd);
    LinkGrantsAll(p.pt);
    var e0 := Read(m, p.pt, Index(va, 0));
    assert FollowRights(m, e0, 0, va) == RightsOf(e0);
    assert FollowRights(m, Link(p.pt), 1, va) == RightsOf(e0);
    assert FollowRights(m, Link(p.pmd), 2, va) == RightsOf(e0);
    PrivateSlotWalk(m, p, va);
  }

  /** Page i of a CPU's guest area. */
  function AreaAddress(cpu: nat, i: nat): nat {
    0xFFFF_FE80_0010_0000 + 0x4000 * cpu + 0x1000 * i
  }

  lemma AreaIndices(cpu: nat, i: nat)
    requires cpu < 64 && i < 4
    ensures var va := AreaAddress(cpu, i);
            && Index(va, 4) == 511 && Index(va, 3) == 509 && Index(va, 2) == 0 && Index(va, 1) == 0
            && Index(va, 0) == 256 + 4 * cpu + i
  {
    var d := 0x10_0000 + 0x4000 * cpu + 0x1000 * i;
    assert d / 0x1000 == 256 + 4 * cpu + i && d < 0x20_0000;
    QuotientOfSum(d, 0x1000, 0xF_FFFF_E800_0000);
    QuotientOfSum(d, 0x20_0000, 0x7FF_FFF4_0000);
    QuotientOfSum(d, 0x4000_0000, 0x3_FFFF_FA00);
    QuotientOfSum(d, 0x80_0000_0000, 0x1FF_FFFD);
    assert d / 0x20_0000 == d / 0x4000_0000 == d / 0x80_0000_0000 == 0;
    assert AreaAddress(cpu, i) / 0x1_0000_0000_0000 == 0xFFFF;
  }

  function AreaPage4(a: AreaPages, i: nat): bv64 {
    if i == 0 then a.pa0 else if i == 1 then a.pa1 else if i == 2 then a.pa2 else a.pa3
  }

  /** The address is mapped to the page at pa, for the kernel only, writable and not executable. */
  predicate IsKernelData(m: Memory, table: bv64, level: nat, va: nat, pa: bv64)
    requires level <= 4
  {
    && Walk(m, table, level, va).Leaf? && Walk(m, table, level, va).level == 0 && Frame(Walk(m, table, level, va).entry) == pa
    && WalkRights(m, table, level, va) == Rights(false, true, false)
  }

  lemma AreaLeafIsData(m: Memory, table: bv64, level: nat, va: nat, pa: bv64)
    requires level <= 4 && LowFrame(pa) == pa
    requires Walk(m, table, level, va) == LeafOf(AreaEntry(pa)) && WalkRights(m, table, level, va) == RightsOf(AreaEntry(pa))
    ensures IsKernelData(m, table, level, va, pa)
  {
    EntryMeans(pa, 0x8000_0000_0000_0003);
    AreaGrants(pa);
  }

  /** With its area set, a CPU below 64 finds page i of it at 0xFFFFFE8000100000 + 16 KiB times its number +
      4 KiB times i, in both guest tables, for the kernel only, writable and not executable. */
  lemma AreaIsMapped(h: Host, k: Kontainer, s: State, cpu: nat, a: AreaPages, i: nat, payload: bool)
    requires Inv(h, k, s) && h.payloadEntry < 512 && cpu < 64 && i < 4 && LowFrame(AreaPage4(a, i)) == AreaPage4(a, i)
    ensures IsKernelData(WithGuestArea(h, s.m, cpu, a), Root(k, payload), TopLevel(h.l5), AreaAddress(cpu, i), AreaPage4(a, i))
  {
    var s' := s.(m := WithGuestArea(h, s.m, cpu, a));
    FirstAreasKeepInv(h, k, s, cpu, a);
    AreaLeaf(h, s.m, cpu, a, i);
    AreaWalk(h, k, s', payload, cpu, i, AreaPage4(a, i));
  }

  lemma FirstAreasKeepInv(h: Host, k: Kontainer, s: State, cpu: nat, a: AreaPages)
    requires Inv(h, k, s) && h.payloadEntry < 512 && cpu < 64
    ensures Inv(h, k, s.(m := WithGuestArea(h, s.m, cpu, a)))
  {
    FirstCpusMiss(h, k, s.native, cpu);
    AreaKeepsInv(h, k, s, cpu, a);
  }

  lemma AreaWalk(h: Host, k: Kontainer, s: State, payload: bool, cpu: nat, i: nat, pa: bv64)
    requires Inv(h, k, s) && cpu < 64 && i < 4 && LowFrame(pa) == pa
    requires Read(s.m, h.kx.pt, 256 + 4 * cpu + i) == AreaEntry(pa)
    ensures IsKernelData(s.m, Root(k, payload), TopLevel(h.l5), AreaAddress(cpu, i), pa)
  {
    AreaIndices(cpu, i);
    KxRights(h, k, s, payload, AreaAddress(cpu, i));
    AreaLeafIsData(s.m, Root(k, payload), TopLevel(h.l5), AreaAddress(cpu, i), pa);
  }

  lemma AreaLeaf(h: Host, m: Memory, cpu: nat, a: AreaPages, i: nat)
    requires cpu < 64 && i < 4
    ensures Read(WithGuestArea(h, m, cpu, a), h.kx.pt, 256 + 4 * cpu + i) == AreaEntry(AreaPage4(a, i))
  {
    AreaFirst(cpu);
    FirstPageAfter(h.kx.pt);
    GuestAreaStores(h, m, cpu, a);
    if i == 0 {
    } else if i == 1 {
    } else if i == 2 {
    } else {
      assert i == 3;
    }
  }

  lemma AreaFirst(cpu: nat)
    requires cpu < 64
    ensures AreaIndex(cpu) == 256 + 4 * cpu && AreaIndex(cpu) / 512 == 0 && AreaIndex(cpu) % 512 == 256 + 4 * cpu
  {
  }

  lemma KxRights(h: Host, k: Kontainer, s: State, payload: bool, va: nat)
    requires Inv(h, k, s) && Index(va, 4) == 511 && Index(va, 3) == 509 && Index(va, 2) == 0 && Index(va, 1) == 0
    ensures Walk(s.m, Root(k, payload), TopLevel(h.l5), va) == LeafOf(Read(s.m, h.kx.pt, Index(va, 0)))
    ensures WalkRights(s.m, Root(k, payload), TopLevel(h.l5), va) == RightsOf(Read(s.m, h.kx.pt, Index(va, 0)))
  {
    SlotRights(s.m, h.kx, va);
    if h.l5 {
      var p4d := UpperTable(h, k, payload);
      assert Read(s.m, Root(k, payload), 511) == Link(p4d) && Read(s.m, p4d, 509) == h.kx.pgdEntry;
      ThroughGrantingLink(s.m, Root(k, payload), p4d, va);
    } else {
      assert Read(s.m, Root(k, payload), 509) == h.kx.pgdEntry;
    }
  }
}
