/** Right after kkm_mmu_copy_kernel_pgd, guest tables and native tables agree on the kernel half. */
module KernelHalves {
  import opened Paging
  import opened Mmu
  import opened MmuRuns

  /** The 512 GiB of address space set aside for the kx tables. */
  predicate InKxSlot(h: Host, va: nat) {
    Index(va, 3) == KX_ENTRY && (h.l5 ==> Index(va, 4) == KX_P4D_ENTRY)
  }

  /** Among canonical kernel addresses, that is 0xFFFFFE8000000000 up to 0xFFFFFF0000000000. */
  lemma KxSlotAddresses(h: Host, va: nat)
    requires 0xFF00_0000_0000_0000 <= va < 0x1_0000_0000_0000_0000
    requires !h.l5 ==> va >= 0xFFFF_8000_0000_0000
    ensures InKxSlot(h, va) <==> PRIVATE_START_VA <= va < 0xFFFF_FF00_0000_0000
    ensures Index(va, TopLevel(h.l5)) >= KERNEL_HALF
  {
    SlotOf(va);
    if h.l5 { TopOf(va); }
  }

  lemma TopOf(va: nat)
    requires 0xFF00_0000_0000_0000 <= va < 0x1_0000_0000_0000_0000
    ensures Index(va, 4) >= 256 && (Index(va, 4) == 511 <==> va >= 0xFFFF_0000_0000_0000)
  {
    assert 0xFF00 <= va / 0x1_0000_0000_0000 < 0x1_0000;
  }

  lemma SlotOf(va: nat)
    requires 0xFF00_0000_0000_0000 <= va < 0x1_0000_0000_0000_0000
    ensures va >= 0xFFFF_0000_0000_0000 ==> (Index(va, 3) == 509 <==> PRIVATE_START_VA <= va < 0xFFFF_FF00_0000_0000)
    ensures va >= 0xFFFF_8000_0000_0000 ==> Index(va, 3) >= 256
  {
    var q := va / 0x80_0000_0000;
    if va >= 0xFFFF_0000_0000_0000 {
      assert 0x1FF_FE00 <= q < 0x200_0000 && q % 512 == q - 0x1FF_FE00;
    }
  }

  lemma KxSlotWalk(h: Host, k: Kontainer, s: State, va: nat, payload: bool)
    requires Inv(h, k, s) && InKxSlot(h, va)
    ensures Walk(s.m, Root(k, payload), TopLevel(h.l5), va) == Walk(s.m, h.kx.pud, 2, va)
  {
    LinkPointsTo(h.kx.pud);
    if h.l5 {
      LinkPointsTo(k.gkP4d);
    }
    TwinsWalkAlike(h, k, s, va);
  }

  /** The upper entries of the guest-kernel table are the native ones, in the memory after creation. */
  lemma UpperEntries(h: Host, k: Kontainer, s: State, m1: Memory, m2: Memory, m3: Memory, va: nat)
    requires Separate(h, k) && NativeOk(h, k, s)
    requires Blank(h, k, s.m, m1) && HalfSet(h, m1, m2, k.gkPgd, k.gkP4d) && HalfSet(h, m2, m3, k.gpPgd, k.gpP4d)
    requires Index(va, TopLevel(h.l5)) >= KERNEL_HALF && !InKxSlot(h, va)
    ensures Walk(m3, k.gkPgd, TopLevel(h.l5), va) == Walk(m3, h.pgd, TopLevel(h.l5), va)
  {
    NativeTableIsForeign(h, k, s, TopLevel(h.l5), h.pgd);
    if h.l5 && Index(va, 4) == KX_P4D_ENTRY {
      NativeP4d(h, k, s, KX_P4D_ENTRY);
      LinkPointsTo(k.gkP4d);
      assert Read(m3, k.gkP4d, Index(va, 3)) == Read(m3, LowFrame(Read(m3, h.pgd, 511)), Index(va, 3));
    } else {
      assert Read(m3, k.gkPgd, Index(va, TopLevel(h.l5))) == Read(m3, h.pgd, Index(va, TopLevel(h.l5)));
    }
  }

  /** Every upper-half address outside the kx slot walks to the native kernel's leaf in both
      tables, and every address in the slot walks through the kx tables, in both paging modes. */
  lemma KernelHalfAgrees(h: Host, k: Kontainer, s: State, va: nat, payload: bool)
    requires Creatable(h, k, s) && h.payloadEntry < 512
    requires Index(va, TopLevel(h.l5)) >= KERNEL_HALF
    ensures var m', top := Created(h, k, s.m), TopLevel(h.l5);
            Walk(m', Root(k, payload), top, va) ==
              if InKxSlot(h, va) then Walk(m', h.kx.pud, 2, va) else Walk(s.m, h.pgd, top, va)
  {
    var m', top := Created(h, k, s.m), TopLevel(h.l5);
    CreatedHasInv(h, k, s);
    if InKxSlot(h, va) {
      KxSlotWalk(h, k, s.(m := m'), va, payload);
    } else {
      var m1, m2 := CreationSteps(h, k, s);
      UpperEntries(h, k, s, m1, m2, m', va);
      TwinsWalkAlike(h, k, s.(m := m'), va);
      CreationLeavesNative(h, k, s, va);
    }
  }

  lemma NativeWalkStays(h: Host, k: Kontainer, s: State, m': Memory, va: nat)
    requires NativeOk(h, k, s) && h.payloadEntry < 512
    requires forall t, i: nat :: !IsOurs(h, k, t) ==> Read(m', t, i) == Read(s.m, t, i)
    ensures Walk(m', h.pgd, TopLevel(h.l5), va) == Walk(s.m, h.pgd, TopLevel(h.l5), va)
  {
    OwnWritesAreInvisible(h, k, s, m');
    var n := Node(TopLevel(h.l5), h.pgd);
    assert n in s.native;
    WalkStaysInside(s.m, m', s.native, Read(s.m, h.pgd, Index(va, n.level)), n.level, va);
  }

  lemma CreationLeavesNative(h: Host, k: Kontainer, s: State, va: nat)
    requires Creatable(h, k, s) && h.payloadEntry < 512
    ensures Walk(Created(h, k, s.m), h.pgd, TopLevel(h.l5), va) == Walk(s.m, h.pgd, TopLevel(h.l5), va)
  {
    var m1, m2 := CreationSteps(h, k, s);
    BlankShapes(h, k, s.m, m1, m2, Created(h, k, s.m));
    NativeWalkStays(h, k, s, Created(h, k, s.m), va);
  }
}
