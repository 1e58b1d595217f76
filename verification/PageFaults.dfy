/** kkm_process_page_fault: what a fault reported as resolved has done to the guest's tables. */
module PageFaults {
  import opened Constants
  import opened Paging
  import opened Mmu
  import opened MmuRuns
  import opened MemSlots
  import opened Translation
  import opened AccessRights
  import RunLoop

  /* ---- which private addresses there are, and which of them share a page table entry ---- */

  predicate IsPrivate(h: Host, slots: seq<Slot>, gva: nat)
    requires |slots| == MAX_MEMORY_SLOTS
  {
    Translate(h, slots, gva).Monitor? && Translate(h, slots, gva).private
  }

  /** Bytes a slot makes private from its base on: none when it is unused, or when its end wraps around. */
  function PrivateBytes(slot: Slot, base: nat): nat {
    var end := (base + slot.mr.memorySize) % TWO_64;
    if slot.used && end > base then end - base else 0
  }

  /** Both private slots lie in the 2 MiB their page table covers. */
  predicate SlotsFit(slots: seq<Slot>)
    requires |slots| == MAX_MEMORY_SLOTS
  {
    && PrivateBytes(slots[VDSO_SLOT], VDSO_BASE_VA) <= 2 * MIB
    && PrivateBytes(slots[GUESTMEM_SLOT], GUESTMEM_BASE_VA) <= 2 * MIB - 0x8000
  }

  /** Exactly when they do, every private address lies there too. */
  lemma PrivateAddressesFit(h: Host, slots: seq<Slot>)
    requires |slots| == MAX_MEMORY_SLOTS
    ensures SlotsFit(slots) <==> forall gva: nat :: IsPrivate(h, slots, gva) ==> InPrivateWindow(gva)
  {
    var beyond := GUEST_PRIVATE_START_VA + 2 * MIB;
    if !SlotsFit(slots) {
      assert IsPrivate(h, slots, beyond) && !InPrivateWindow(beyond);
    }
  }

  /** Neither slot is longer than the page table, and beside a VDSO slot the other fits as well.
      Alone, the guest-mem slot may reach 32 KiB past the 2 MiB: it wraps around to unused entries. */
  predicate SlotsApart(slots: seq<Slot>)
    requires |slots| == MAX_MEMORY_SLOTS
  {
    var vdso, guestMem := PrivateBytes(slots[VDSO_SLOT], VDSO_BASE_VA), PrivateBytes(slots[GUESTMEM_SLOT], GUESTMEM_BASE_VA);
    && vdso <= 2 * MIB
    && guestMem <= if vdso > 0 then 2 * MIB - 0x8000 else 2 * MIB
  }

  /** No two private pages are entered in the same place. */
  ghost predicate NoCollision(h: Host, slots: seq<Slot>)
    requires |slots| == MAX_MEMORY_SLOTS
  {
    forall a: nat, b: nat :: IsPrivate(h, slots, a) && IsPrivate(h, slots, b) && Index(a, 0) == Index(b, 0) ==> a / PAGE_SIZE == b / PAGE_SIZE
  }

  /** Exactly when the slots are apart do no two private pages collide; sizes come in pages. */
  lemma PrivatePagesCollideExactly(h: Host, slots: seq<Slot>)
    requires |slots| == MAX_MEMORY_SLOTS
    requires Aligned(slots[VDSO_SLOT].mr) && Aligned(slots[GUESTMEM_SLOT].mr)
    ensures SlotsApart(slots) <==> NoCollision(h, slots)
  {
    if SlotsApart(slots) {
      forall a: nat, b: nat | IsPrivate(h, slots, a) && IsPrivate(h, slots, b) && Index(a, 0) == Index(b, 0)
        ensures a / PAGE_SIZE == b / PAGE_SIZE
      {
        ApartMeansDistinct(h, slots, a, b);
      }
    } else {
      SlotsCollide(h, slots);
    }
  }

  lemma ApartMeansDistinct(h: Host, slots: seq<Slot>, a: nat, b: nat)
    requires |slots| == MAX_MEMORY_SLOTS && SlotsApart(slots)
    requires IsPrivate(h, slots, a) && IsPrivate(h, slots, b) && Index(a, 0) == Index(b, 0)
    ensures a / PAGE_SIZE == b / PAGE_SIZE
  {
    var low := if PrivateBytes(slots[VDSO_SLOT], VDSO_BASE_VA) > 0 then VDSO_BASE_VA else GUESTMEM_BASE_VA;
    ApartMeansNear(h, slots, a, low);
    ApartMeansNear(h, slots, b, low);
    NearMeansDistinct(low, a, b);
  }

  lemma ApartMeansNear(h: Host, slots: seq<Slot>, a: nat, low: nat)
    requires |slots| == MAX_MEMORY_SLOTS && SlotsApart(slots) && IsPrivate(h, slots, a)
    requires low == if PrivateBytes(slots[VDSO_SLOT], VDSO_BASE_VA) > 0 then VDSO_BASE_VA else GUESTMEM_BASE_VA
    ensures low <= a < low + 2 * MIB
  {
  }

  lemma NearMeansDistinct(low: nat, a: nat, b: nat)
    requires low % 0x1000 == 0 && low <= a < low + 2 * MIB && low <= b < low + 2 * MIB && Index(a, 0) == Index(b, 0)
    ensures a / PAGE_SIZE == b / PAGE_SIZE
  {
    var first := low / 0x1000;
    assert first <= a / 0x1000 < first + 512 && first <= b / 0x1000 < first + 512;
  }

  lemma SlotsCollide(h: Host, slots: seq<Slot>)
    requires |slots| == MAX_MEMORY_SLOTS && !SlotsApart(slots)
    requires Aligned(slots[VDSO_SLOT].mr) && Aligned(slots[GUESTMEM_SLOT].mr)
    ensures !NoCollision(h, slots)
  {
    var low := if PrivateBytes(slots[VDSO_SLOT], VDSO_BASE_VA) > 0 then VDSO_BASE_VA else GUESTMEM_BASE_VA;
    assert IsPrivate(h, slots, low) && IsPrivate(h, slots, low + 2 * MIB);
    assert Index(low, 0) == Index(low + 2 * MIB, 0) && low / PAGE_SIZE != (low + 2 * MIB) / PAGE_SIZE;
  }

  /** One page of VDSO and a guest-mem slot one page too long: the VDSO's page and the last page of the
      other slot are entered in the same place. */
  lemma CollidingSlots(h: Host, slots: seq<Slot>)
    requires |slots| == MAX_MEMORY_SLOTS
    requires slots[VDSO_SLOT].used && slots[VDSO_SLOT].mr.memorySize == 0x1000
    requires slots[GUESTMEM_SLOT].used && slots[GUESTMEM_SLOT].mr.memorySize == 2 * MIB - 0x7000
    ensures var a, b := VDSO_BASE_VA, VDSO_BASE_VA + 2 * MIB;
            && IsPrivate(h, slots, a) && IsPrivate(h, slots, b)
            && Index(a, 0) == Index(b, 0) && a / PAGE_SIZE != b / PAGE_SIZE
  {
  }

  /** Private addresses share an entry of the page table only when they share a page. */
  lemma PrivatePagesNeverCollide(a: nat, b: nat)
    requires InPrivateWindow(a) && InPrivateWindow(b)
    ensures Index(a, 0) == Index(b, 0) <==> a / PAGE_SIZE == b / PAGE_SIZE
  {
    PrivateIndices(a);
    PrivateIndices(b);
  }

  /* ---- the fault itself ---- */

  /** A user copy: whether it succeeded, and the tables after the native kernel handled it. */
  datatype UserCopy = UserCopy(ok: bool, after: State)

  /** The tables once the user copies are over. */
  function AfterCopies(error: RunLoop.U64, copyIn: UserCopy, copyOut: UserCopy): State {
    if RunLoop.IsWrite(error) && copyIn.ok then copyOut.after else copyIn.after
  }

  /** The return value and the tables it leaves. */
  function PageFault(h: Host, k: Kontainer, slots: seq<Slot>, s: State, cr2: RunLoop.U64, error: RunLoop.U64,
                     copyIn: UserCopy, copyOut: UserCopy): (r: (int, State))
    requires |slots| == MAX_MEMORY_SLOTS
  {
    var target := Translate(h, slots, cr2);
    var ret := RunLoop.PageFaultReturn(target.Monitor?, error, copyIn.ok, copyOut.ok);
    if target.Unmapped? || !RunLoop.IsUser(error) then (ret, s)
    else
      var copied := AfterCopies(error, copyIn, copyOut);
      (ret, if ret == RunLoop.FAULT_PROCESS_DONE && target.private
            then copied.(m := WithPrivatePage(h, k, copied.m, cr2, target.va)) else copied)
  }

  /** The native kernel's part: user copies change native tables only, and a copy that succeeds
      leaves the monitor's page present and open to it, to write where it wrote, and as a small page where
      kkm walks to it itself. */
  ghost predicate CopiesBehave(h: Host, k: Kontainer, s: State, error: RunLoop.U64, mva: nat, private: bool,
                               copyIn: UserCopy, copyOut: UserCopy) {
    && Allowed(h, k, s, Native(copyIn.after)) && Allowed(h, k, copyIn.after, Native(copyOut.after))
    && var copied := AfterCopies(error, copyIn, copyOut);
       var w := Walk(copied.m, h.pgd, TopLevel(h.l5), mva);
       var r := WalkRights(copied.m, h.pgd, TopLevel(h.l5), mva);
       copyIn.ok && (RunLoop.IsWrite(error) ==> copyOut.ok) ==>
         w.Leaf? && (private ==> w.level == 0) && r.user && (RunLoop.IsWrite(error) ==> r.write)
  }

  lemma CopiesKeepInv(h: Host, k: Kontainer, s: State, error: RunLoop.U64, mva: nat, private: bool, copyIn: UserCopy, copyOut: UserCopy)
    requires Inv(h, k, s) && CopiesBehave(h, k, s, error, mva, private, copyIn, copyOut)
    ensures Inv(h, k, AfterCopies(error, copyIn, copyOut))
  {
    NativeKeepsInv(h, k, s, copyIn.after);
    NativeKeepsInv(h, k, copyIn.after, copyOut.after);
  }

  /** A window address resolves exactly as far as the window entry is present and points where the
      monitor's does: kkm adds nothing for it, and relies on the subtree it shares with the monitor.
      Through an entry that is out of date the guest walks the table the monitor had before. */
  lemma WindowFaultResolves(h: Host, k: Kontainer, s: State, slots: seq<Slot>, cr2: RunLoop.U64)
    requires Inv(h, k, s) && KnownBase(h) && |slots| == MAX_MEMORY_SLOTS
    requires Translate(h, slots, cr2).Monitor? && !Translate(h, slots, cr2).private
    ensures Walk(s.m, k.gkPgd, TopLevel(h.l5), cr2) == GuestWindow(h, k, s.m, slots, cr2)
  {
    WindowIndices(h, slots, cr2);
    GuestWindowWalk(h, k, s, cr2);
    TwinsWalkAlike(h, k, s, cr2);
    if Current(h, k, s.m) {
      TranslationAgrees(h, k, s, slots, cr2);
    }
  }

  /** What the guest finds at a window address. */
  function GuestWindow(h: Host, k: Kontainer, m: Memory, slots: seq<Slot>, cr2: nat): WalkResult
    requires |slots| == MAX_MEMORY_SLOTS && Translate(h, slots, cr2).Monitor?
  {
    var window := Read(m, LowTable(h, k), BOTTOM_ENTRY);
    if Current(h, k, m) then Walk(m, h.pgd, TopLevel(h.l5), Translate(h, slots, cr2).va)
    else if Present(window) then Follow(m, window, 3, cr2)
    else Fault
  }

  /* ---- private addresses beyond the 2 MiB their page table covers ---- */

  /** The addresses the hardware accepts. */
  predicate Canonical(h: Host, va: nat) {
    var half := if h.l5 then 0x100_0000_0000_0000 else 128 * TIB;
    va < half || TWO_64 - half <= va < TWO_64
  }

  lemma BeyondIndices(gva: nat)
    requires GUEST_PRIVATE_START_VA + 2 * MIB <= gva < VA_OFFSET
    ensures Index(gva, 4) == 0 && 1 <= Index(gva, 3) < 255
    ensures Index(gva, 3) == 1 ==> !(Index(gva, 2) == 0 && Index(gva, 1) == 0)
  {
    assert 1 <= gva / 0x80_0000_0000 < 255 && gva / 0x1_0000_0000_0000 == 0;
    if gva / 0x80_0000_0000 == 1 {
      FirstSlotIndices(gva - 0x80_0000_0000);
    }
  }

  lemma FirstSlotIndices(d: nat)
    requires 0x20_0000 <= d < 0x80_0000_0000
    ensures !(Index(0x80_0000_0000 + d, 2) == 0 && Index(0x80_0000_0000 + d, 1) == 0)
  {
    QuotientOfSum(d, 0x4000_0000, 0x200);
    QuotientOfSum(d, 0x20_0000, 0x4_0000);
    assert d / 0x4000_0000 < 512 && d / 0x20_0000 >= 1;
    if d / 0x4000_0000 == 0 { assert d / 0x20_0000 < 512; }
  }

  /** Below the top window the guest has nothing there. */
  lemma BeyondFaults(h: Host, k: Kontainer, s: State, gva: nat)
    requires Inv(h, k, s) && GUEST_PRIVATE_START_VA + 2 * MIB <= gva < VA_OFFSET
    ensures Walk(s.m, k.gkPgd, TopLevel(h.l5), gva) == Fault
  {
    BeyondIndices(gva);
    if Index(gva, 3) == 1 {
      GuestPrivateWalk(h, k, s, gva);
    } else {
      MiddleFaults(h, k, s, gva);
    }
  }

  /** Entries 2 to 254 of the user half are empty. */
  lemma MiddleFaults(h: Host, k: Kontainer, s: State, gva: nat)
    requires Separate(h, k) && Twins(h, k, s.m) && UserHalf(h, k, s) && Index(gva, 4) == 0 && 1 < Index(gva, 3) < 255
    ensures Walk(s.m, k.gkPgd, TopLevel(h.l5), gva) == Fault
  {
    var i := Index(gva, 3);
    assert Read(s.m, LowTable(h, k), i) == 0;
    assert Follow(s.m, 0, 3, gva) == Fault;
    if h.l5 {
      LinkPointsTo(k.lowP4d);
      assert Walk(s.m, k.lowP4d, 3, gva) == Follow(s.m, 0, 3, gva);
    }
  }

  /** Addresses of the upper half have upper indices; n is what one entry of the table spans. */
  lemma UpperIndex(va: nat, n: nat)
    requires n == 0x80_0000_0000 || n == 0x1_0000_0000_0000
    requires TWO_64 - 256 * n <= va < TWO_64
    ensures va / n % 512 >= 256
  {
    if n == 0x80_0000_0000 {
      assert 0x1FF_FF00 <= va / 0x80_0000_0000 < 0x200_0000;
    } else {
      assert 0xFF00 <= va / 0x1_0000_0000_0000 < 0x1_0000;
    }
  }

  lemma AboveIndices(h: Host, gva: nat)
    requires MEM_TOP_VA <= gva && Canonical(h, gva)
    ensures (h.l5 && Index(gva, 4) != 0) || Index(gva, 3) >= 255
  {
    if h.l5 && gva >= 0x100_0000_0000_0000 {
      UpperIndex(gva, 0x1_0000_0000_0000);
    } else if h.l5 {
      assert gva / 0x1_0000_0000_0000 < 256;
      if gva < 0x1_0000_0000_0000 { assert 255 <= gva / 0x80_0000_0000 < 512; }
    } else if gva >= 128 * TIB {
      UpperIndex(gva, 0x80_0000_0000);
    } else {
      assert gva / 0x80_0000_0000 == 255;
    }
  }

  /* ---- what DONE means ---- */

  /** What both guest tables hold at a private address once its page was entered. */
  ghost predicate PrivateOutcome(h: Host, k: Kontainer, before: Memory, m: Memory, gva: nat, leaf: WalkResult) {
    var found := Walk(m, k.gkPgd, TopLevel(h.l5), gva);
    if InPrivateWindow(gva) then found == if Installed(h, k, m) then leaf else Fault
    else if gva < MEM_TOP_VA then found == Fault
    else Canonical(h, gva) ==> found == Walk(before, k.gkPgd, TopLevel(h.l5), gva)
  }

  /** DONE means resolved once the kontainer is synced: both guest tables now reach, at the fault
      address, the very leaf the monitor's tables hold for its translation. A private address needs a
      sync that found a window entry, some time before; a window address needs one since the
      monitor's window entry last changed. A private address beyond the 2 MiB is never resolved: the
      guest has nothing there, or, from the top window's end on, what it had before. */
  lemma DoneMeansResolved(h: Host, k: Kontainer, slots: seq<Slot>, s: State, cr2: RunLoop.U64, error: RunLoop.U64,
                          copyIn: UserCopy, copyOut: UserCopy)
    requires Inv(h, k, s) && KnownBase(h) && |slots| == MAX_MEMORY_SLOTS
    requires PageFault(h, k, slots, s, cr2, error, copyIn, copyOut).0 == RunLoop.FAULT_PROCESS_DONE
    requires var t := Translate(h, slots, cr2);
             CopiesBehave(h, k, s, error, t.va, t.private, copyIn, copyOut)
    ensures var s', top := PageFault(h, k, slots, s, cr2, error, copyIn, copyOut).1, TopLevel(h.l5);
            var leaf := Walk(s'.m, h.pgd, top, Translate(h, slots, cr2).va);
            && leaf.Leaf?
            && Walk(s'.m, k.gkPgd, top, cr2) == Walk(s'.m, k.gpPgd, top, cr2)
            && (if Translate(h, slots, cr2).private
                then PrivateOutcome(h, k, AfterCopies(error, copyIn, copyOut).m, s'.m, cr2, leaf)
                else Walk(s'.m, k.gkPgd, top, cr2) == GuestWindow(h, k, s'.m, slots, cr2))
            && (Current(h, k, s'.m) && !Translate(h, slots, cr2).private ==> Walk(s'.m, k.gkPgd, top, cr2) == leaf)
  {
    var t, copied := Translate(h, slots, cr2), AfterCopies(error, copyIn, copyOut);
    DoneMeansCopied(h, k, slots, s, cr2, error, copyIn, copyOut);
    if t.private {
      PrivatePageKeepsGuest(h, k, copied, cr2, t.va);
    } else {
      WindowFaultResolves(h, k, copied, slots, cr2);
      TwinsWalkAlike(h, k, copied, cr2);
    }
  }

  /** What is known on DONE: the copies were made, and the private page entered. */
  lemma DoneMeansCopied(h: Host, k: Kontainer, slots: seq<Slot>, s: State, cr2: RunLoop.U64, error: RunLoop.U64,
                        copyIn: UserCopy, copyOut: UserCopy)
    requires Inv(h, k, s) && |slots| == MAX_MEMORY_SLOTS
    requires PageFault(h, k, slots, s, cr2, error, copyIn, copyOut).0 == RunLoop.FAULT_PROCESS_DONE
    requires var t := Translate(h, slots, cr2);
             CopiesBehave(h, k, s, error, t.va, t.private, copyIn, copyOut)
    ensures var t, copied := Translate(h, slots, cr2), AfterCopies(error, copyIn, copyOut);
            && t.Monitor? && Inv(h, k, copied)
            && PageFault(h, k, slots, s, cr2, error, copyIn, copyOut).1 ==
               (if t.private then copied.(m := WithPrivatePage(h, k, copied.m, cr2, t.va)) else copied)
            && var w := Walk(copied.m, h.pgd, TopLevel(h.l5), t.va); w.Leaf? && (t.private ==> w.level == 0)
  {
    var t := Translate(h, slots, cr2);
    CopiesKeepInv(h, k, s, error, t.va, t.private, copyIn, copyOut);
  }

  /** On DONE the payload may use the page: read it, and write it after a write fault. A private page must be
      reachable at all, and the window in step with the monitor's entry, not only in its frame. */
  lemma DoneMeansUsable(h: Host, k: Kontainer, slots: seq<Slot>, s: State, cr2: RunLoop.U64, error: RunLoop.U64,
                        copyIn: UserCopy, copyOut: UserCopy, payload: bool)
    requires Inv(h, k, s) && KnownBase(h) && |slots| == MAX_MEMORY_SLOTS
    requires PageFault(h, k, slots, s, cr2, error, copyIn, copyOut).0 == RunLoop.FAULT_PROCESS_DONE
    requires var t := Translate(h, slots, cr2);
             CopiesBehave(h, k, s, error, t.va, t.private, copyIn, copyOut)
    requires var t, now := Translate(h, slots, cr2), PageFault(h, k, slots, s, cr2, error, copyIn, copyOut).1.m;
             if t.private then InPrivateWindow(cr2) && Installed(h, k, now) else InStep(h, k, now)
    ensures var r := WalkRights(PageFault(h, k, slots, s, cr2, error, copyIn, copyOut).1.m, Root(k, payload), TopLevel(h.l5), cr2);
            r.user && (error / 2 % 2 == 1 ==> r.write)
  {
    var t, copied := Translate(h, slots, cr2), AfterCopies(error, copyIn, copyOut);
    DoneMeansCopied(h, k, slots, s, cr2, error, copyIn, copyOut);
    if t.private {
      PrivateIsUsable(h, k, copied, cr2, t.va, payload);
    } else {
      WindowIsUsable(h, k, copied, slots, cr2, payload);
    }
  }

  lemma WindowIsUsable(h: Host, k: Kontainer, s: State, slots: seq<Slot>, gva: nat, payload: bool)
    requires Inv(h, k, s) && KnownBase(h) && InStep(h, k, s.m) && |slots| == MAX_MEMORY_SLOTS
    requires Translate(h, slots, gva).Monitor? && !Translate(h, slots, gva).private
    requires Walk(s.m, h.pgd, TopLevel(h.l5), Translate(h, slots, gva).va).Leaf?
    ensures var r := WalkRights(s.m, h.pgd, TopLevel(h.l5), Translate(h, slots, gva).va);
            var guest := WalkRights(s.m, Root(k, payload), TopLevel(h.l5), gva);
            (r.user ==> guest.user) && (r.write ==> guest.write)
  {
    var mva := Translate(h, slots, gva).va;
    WindowIndices(h, slots, gva);
    MonitorWindowWalk(h, k, s, mva);
    WindowGrantsMore(h, k, s, slots, payload, gva);
  }

  lemma PrivateIsUsable(h: Host, k: Kontainer, s: State, gva: nat, mva: nat, payload: bool)
    requires Inv(h, k, s) && h.payloadEntry < 512 && InPrivateWindow(gva) && Installed(h, k, WithPrivatePage(h, k, s.m, gva, mva))
    requires var w := Walk(s.m, h.pgd, TopLevel(h.l5), mva); w.Leaf? && w.level == 0
    ensures var r := WalkRights(s.m, h.pgd, TopLevel(h.l5), mva);
            var guest := WalkRights(WithPrivatePage(h, k, s.m, gva, mva), Root(k, payload), TopLevel(h.l5), gva);
            (r.user ==> guest.user) && (r.write ==> guest.write)
  {
    var s' := Apply(h, k, s, PrivatePage(gva, mva));
    StepKeepsInv(h, k, s, PrivatePage(gva, mva));
    EnteredLeaf(h, k, s, gva, mva);
    LeafGrantsMore(s.m, Read(s.m, h.pgd, Index(mva, TopLevel(h.l5))), TopLevel(h.l5), mva);
    PrivateRights(h, k, s', payload, gva);
  }

  /** The entry made for the page is the leaf of the monitor's walk. */
  lemma EnteredLeaf(h: Host, k: Kontainer, s: State, gva: nat, mva: nat)
    requires var w := Walk(s.m, h.pgd, TopLevel(h.l5), mva); w.Leaf? && w.level == 0
    ensures var e := Read(WithPrivatePage(h, k, s.m, gva, mva), k.guest.pt, Index(gva, 0));
            Present(e) && Walk(s.m, h.pgd, TopLevel(h.l5), mva) == Leaf(0, e)
  {
    SmallWalk(s.m, h.pgd, TopLevel(h.l5), mva);
  }

  lemma PrivatePageKeepsGuest(h: Host, k: Kontainer, s: State, gva: nat, mva: nat)
    requires Inv(h, k, s) && h.payloadEntry < 512
    requires GUEST_PRIVATE_START_VA <= gva && !(VA_OFFSET <= gva < MEM_TOP_VA)
    requires var w := Walk(s.m, h.pgd, TopLevel(h.l5), mva); w.Leaf? && w.level == 0
    ensures var m', top := WithPrivatePage(h, k, s.m, gva, mva), TopLevel(h.l5);
            && Walk(m', h.pgd, top, mva) == Walk(s.m, h.pgd, top, mva)
            && Walk(m', k.gkPgd, top, gva) == Walk(m', k.gpPgd, top, gva)
            && PrivateOutcome(h, k, s.m, m', gva, Walk(m', h.pgd, top, mva))
  {
    var s' := Apply(h, k, s, PrivatePage(gva, mva));
    StepKeepsInv(h, k, s, PrivatePage(gva, mva));
    TwinsWalkAlike(h, k, s', gva);
    EnteredPage(h, k, s.m, gva, mva);
    MonitorWalkStays(h, k, s, s'.m, mva);
    if InPrivateWindow(gva) {
      EnteredInside(h, k, s, s'.m, gva, mva);
    } else if gva < MEM_TOP_VA {
      BeyondFaults(h, k, s', gva);
    } else if Canonical(h, gva) {
      AboveIndices(h, gva);
      assert !IsSlotPage(h, gva, Index(gva, 0));
      LeafWriteIsLocal(h, k, s, s', Index(gva, 0), gva);
    }
  }

  lemma EnteredPage(h: Host, k: Kontainer, m: Memory, gva: nat, mva: nat)
    ensures forall t, i: nat :: t != k.guest.pt || i != Index(gva, 0) ==> Read(WithPrivatePage(h, k, m, gva, mva), t, i) == Read(m, t, i)
  {
  }

  lemma EnteredInside(h: Host, k: Kontainer, s: State, m': Memory, gva: nat, mva: nat)
    requires Inv(h, k, s) && h.payloadEntry < 512 && InPrivateWindow(gva) && m' == WithPrivatePage(h, k, s.m, gva, mva)
    requires var w := Walk(s.m, h.pgd, TopLevel(h.l5), mva); w.Leaf? && w.level == 0
    ensures Walk(m', k.gkPgd, TopLevel(h.l5), gva) == if Installed(h, k, m') then Walk(m', h.pgd, TopLevel(h.l5), mva) else Fault
  {
    PrivatePageContract(h, k, s, gva, mva);
    EnteredPage(h, k, s.m, gva, mva);
    StillInstalled(h, k, s.m, m');
  }
}
