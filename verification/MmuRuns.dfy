/** What every run of table operations keeps: the two guest tables stay twins, the user half
    stays a copy of the monitor's window, and private tables stay private. */
module MmuRuns {
  import opened Paging
  import opened Mmu

  /** Table memory, and the tables that belong to the native kernel and the monitor. */
  datatype State = State(m: Memory, native: set<Node>)

  /** The pages a kontainer allocates for itself. */
  predicate IsOwn(h: Host, k: Kontainer, t: bv64) {
    || t in {k.gkPgd, k.gpPgd, k.guest.pud, k.guest.pmd, k.guest.pt}
    || (h.l5 && t in {k.gkP4d, k.gpP4d, k.lowP4d})
  }

  /** Those, and the module-wide kx tables. */
  predicate IsOurs(h: Host, k: Kontainer, t: bv64) {
    IsOwn(h, k, t) || t in {h.kx.pud, h.kx.pmd, h.kx.pt}
  }

  /** The allocator hands out distinct pages. */
  ghost predicate Separate(h: Host, k: Kontainer) {
    && (forall p :: IsOurs(h, k, p) ==> PageAddress(p))
    && k.gkPgd !in {k.gpPgd, k.guest.pud, k.guest.pmd, k.guest.pt, h.kx.pud, h.kx.pmd, h.kx.pt}
    && k.gpPgd !in {k.guest.pud, k.guest.pmd, k.guest.pt, h.kx.pud, h.kx.pmd, h.kx.pt}
    && k.guest.pud !in {k.guest.pmd, k.guest.pt, h.kx.pud, h.kx.pmd, h.kx.pt}
    && k.guest.pmd !in {k.guest.pt, h.kx.pud, h.kx.pmd, h.kx.pt}
    && k.guest.pt !in {h.kx.pud, h.kx.pmd, h.kx.pt}
    && h.kx.pud !in {h.kx.pmd, h.kx.pt}
    && h.kx.pmd != h.kx.pt
    && (h.l5 ==> SeparateP4d(h, k))
  }

  predicate SeparateP4d(h: Host, k: Kontainer) {
    && k.gkP4d !in {k.gpP4d, k.lowP4d, k.gkPgd, k.gpPgd, k.guest.pud, k.guest.pmd, k.guest.pt, h.kx.pud, h.kx.pmd, h.kx.pt}
    && k.gpP4d !in {k.lowP4d, k.gkPgd, k.gpPgd, k.guest.pud, k.guest.pmd, k.guest.pt, h.kx.pud, h.kx.pmd, h.kx.pt}
    && k.lowP4d !in {k.gkPgd, k.gpPgd, k.guest.pud, k.guest.pmd, k.guest.pt, h.kx.pud, h.kx.pmd, h.kx.pt}
  }

  /** What is assumed of the native side: its walks stay in its own tables, the 5-level entries
      kkm dereferences are present and low, and a top-level entry is empty or names a table. */
  ghost predicate NativeOk(h: Host, k: Kontainer, s: State) {
    && Closed(s.m, s.native) && Node(TopLevel(h.l5), h.pgd) in s.native
    && (forall n :: n in s.native ==> !IsOurs(h, k, n.table))
    && (h.l5 ==> forall i :: i == LOW_P4D_ENTRY || i == KX_P4D_ENTRY ==>
                   Present(Read(s.m, h.pgd, i)) && Frame(Read(s.m, h.pgd, i)) == LowFrame(Read(s.m, h.pgd, i)))
    && (Present(MonitorEntry(h, s.m)) <==> Frame(MonitorEntry(h, s.m)) != 0)
  }

  /** A private slot: one pud entry, one pmd entry, and a page table below them. */
  ghost predicate PrivateShape(m: Memory, p: PrivateTables) {
    && p.pgdEntry == Link(p.pud)
    && (forall i: nat :: i < 512 ==> Read(m, p.pud, i) == if i == 0 then Link(p.pmd) else 0)
    && (forall i: nat :: i < 512 ==> Read(m, p.pmd, i) == if i == 0 then Link(p.pt) else 0)
  }

  /** The table walks use for the kernel half at level 3. */
  function UpperTable(h: Host, k: Kontainer, payload: bool): bv64 {
    if h.l5 then (if payload then k.gpP4d else k.gkP4d) else (if payload then k.gpPgd else k.gkPgd)
  }

  function Root(k: Kontainer, payload: bool): bv64 {
    if payload then k.gpPgd else k.gkPgd
  }

  /** Both tables hold the same entries, apart from the 5-level entry for the kernel's last
      256 TiB, which leads to a page of its own on each side. */
  ghost predicate Twins(h: Host, k: Kontainer, m: Memory) {
    && (forall i: nat :: i < 512 && !(h.l5 && i == KX_P4D_ENTRY) ==> Read(m, k.gpPgd, i) == Read(m, k.gkPgd, i))
    && (h.l5 ==>
          && Read(m, k.gkPgd, KX_P4D_ENTRY) == Link(k.gkP4d)
          && Read(m, k.gpPgd, KX_P4D_ENTRY) == Link(k.gpP4d)
          && forall i: nat :: i < 512 ==> Read(m, k.gpP4d, i) == Read(m, k.gkP4d, i))
  }

  /** The user half: the window entry at 0 and 255, the private slot at 1, nothing else. */
  ghost predicate UserHalf(h: Host, k: Kontainer, s: State) {
    var t := LowTable(h, k);
    var window := Read(s.m, t, BOTTOM_ENTRY);
    && Read(s.m, t, TOP_ENTRY) == window
    && !NoExecute(window) && LeadsInto(s.native, window, 3) && (Present(window) <==> Frame(window) != 0)
    && (Read(s.m, t, PRIVATE_ENTRY) == k.guest.pgdEntry || (Read(s.m, t, PRIVATE_ENTRY) == 0 && window == 0))
    && (forall i: nat :: 1 < i < 255 ==> Read(s.m, t, i) == 0)
    && (h.l5 ==>
          && (forall i: nat :: 256 <= i < 512 ==> Read(s.m, t, i) == 0)
          && (forall i: nat :: 0 < i < 256 ==> Read(s.m, k.gkPgd, i) == 0)
          && (Read(s.m, k.gkPgd, 0) == Link(t)
              || (Read(s.m, k.gkPgd, 0) == 0 && window == 0 && Read(s.m, t, PRIVATE_ENTRY) == 0)))
  }

  /** The kernel half: native entries, except the kx slot. */
  ghost predicate KernelHalf(h: Host, k: Kontainer, s: State) {
    && Read(s.m, UpperTable(h, k, false), KX_ENTRY) == h.kx.pgdEntry
    && (forall i: nat :: (if h.l5 then 0 else 256) <= i < 512 && i != KX_ENTRY ==>
          LeadsInto(s.native, Read(s.m, UpperTable(h, k, false), i), 3))
    && (h.l5 ==> forall i: nat :: 256 <= i < 511 ==> LeadsInto(s.native, Read(s.m, k.gkPgd, i), 4))
  }

  ghost predicate Inv(h: Host, k: Kontainer, s: State) {
    && Separate(h, k) && NativeOk(h, k, s)
    && PrivateShape(s.m, k.guest) && PrivateShape(s.m, h.kx)
    && Twins(h, k, s.m) && UserHalf(h, k, s) && KernelHalf(h, k, s)
  }

  /* ---- runs ---- */

  /** One step: a sync, a resolved private page, the guest area of a CPU in the kx page table, or
      anything the native kernel, the monitor and other kontainers do to tables that are not ours. */
  datatype Event = Sync | PrivatePage(gva: nat, mva: nat) | GuestArea(cpu: nat, pages: AreaPages) | Native(after: State)

  function Apply(h: Host, k: Kontainer, s: State, e: Event): State {
    match e
    case Sync => s.(m := Synced(h, k, s.m))
    case PrivatePage(gva, mva) => s.(m := WithPrivatePage(h, k, s.m, gva, mva))
    case GuestArea(cpu, pages) => s.(m := WithGuestArea(h, s.m, cpu, pages))
    case Native(after) => after
  }

  /** The page a CPU's guest area entries go to. */
  function AreaPage(h: Host, cpu: nat): bv64 {
    PageAfter(h.kx.pt, AreaIndex(cpu) / 512)
  }

  /** It is a page table, or no table at all. For the first 64 CPUs it is the kx page table. */
  ghost predicate AreaMisses(h: Host, k: Kontainer, native: set<Node>, cpu: nat) {
    var p := AreaPage(h, cpu);
    || p == h.kx.pt || p == k.guest.pt
    || (!IsOurs(h, k, p) && forall n :: n in native && n.table == p ==> n.level == 0)
  }

  /** Native steps leave our pages alone and keep native tables native; a CPU's guest area misses the
      tables that lead to others. Without the latter the invariant is lost: see AreaKeepsInvExactly. */
  ghost predicate Allowed(h: Host, k: Kontainer, s: State, e: Event) {
    && (e.GuestArea? ==> AreaMisses(h, k, s.native, e.cpu))
    && (e.Native? ==>
          && NativeOk(h, k, e.after) && s.native <= e.after.native
          && (forall t, i: nat :: IsOurs(h, k, t) ==> Read(e.after.m, t, i) == Read(s.m, t, i)))
  }

  function Play(h: Host, k: Kontainer, s: State, run: seq<Event>): State {
    if run == [] then s else Apply(h, k, Play(h, k, s, run[..|run| - 1]), run[|run| - 1])
  }

  ghost predicate AllowedRun(h: Host, k: Kontainer, s: State, run: seq<Event>) {
    run != [] ==>
      && AllowedRun(h, k, s, run[..|run| - 1])
      && Allowed(h, k, Play(h, k, s, run[..|run| - 1]), run[|run| - 1])
  }

  /** The allocator's pages come zeroed. */
  function ZeroedOwn(h: Host, k: Kontainer, m: Memory): Memory {
    Zeroed(m, {k.gkPgd, k.gpPgd, k.guest.pud, k.guest.pmd, k.guest.pt}
              + if h.l5 then {k.gkP4d, k.gpP4d, k.lowP4d} else {})
  }

  /** The memory kkm_create_kontainer leaves: zeroed pages, the private slot, the kernel half. */
  function Created(h: Host, k: Kontainer, m: Memory): Memory {
    WithKernelPgd(h, k, WithPrivateTables(ZeroedOwn(h, k, m), GUEST_PRIVATE_START_VA, k.guest))
  }

  ghost predicate Creatable(h: Host, k: Kontainer, s: State) {
    && Separate(h, k) && NativeOk(h, k, s) && PrivateShape(s.m, h.kx) && k.guest.pgdEntry == Link(k.guest.pud)
  }

  /* ---- proofs ---- */

  /** What kkm_mmu_setup_one_pgd changes, entry by entry. */
  ghost predicate HalfSet(h: Host, m: Memory, m': Memory, pgd: bv64, p4d: bv64) {
    forall t, i: nat {:trigger Read(m', t, i)} :: Read(m', t, i) ==
      if t == pgd && 256 <= i < 512 then
        if h.l5 && i == 511 then Link(p4d) else if !h.l5 && i == 509 then h.kx.pgdEntry else Read(m, h.pgd, i)
      else if h.l5 && t == p4d && i < 512 then
        if i == 509 then h.kx.pgdEntry else Read(m, LowFrame(Read(m, h.pgd, 511)), i)
      else Read(m, t, i)
  }

  ghost predicate CopiedTo(m: Memory, m': Memory, src: bv64, dst: bv64, lo: nat, hi: nat) {
    forall t, i: nat :: Read(m', t, i) == if t == dst && lo <= i < hi then Read(m, src, i) else Read(m, t, i)
  }

  ghost predicate WrittenAt(m: Memory, m': Memory, table: bv64, index: nat, e: bv64) {
    forall t, i: nat :: Read(m', t, i) == if t == table && i == index then e else Read(m, t, i)
  }

  lemma HalfParts4(h: Host, m: Memory, m1: Memory, m2: Memory, pgd: bv64, p4d: bv64)
    requires !h.l5 && h.pgd != pgd
    requires CopiedTo(m, m1, h.pgd, pgd, 256, 512) && WrittenAt(m1, m2, pgd, 509, h.kx.pgdEntry)
    ensures HalfSet(h, m, m2, pgd, p4d)
  {
  }

  lemma HalfParts5(h: Host, m: Memory, m1: Memory, m2: Memory, m3: Memory, m4: Memory, pgd: bv64, p4d: bv64)
    requires h.l5 && pgd != p4d && h.pgd != pgd && h.pgd != p4d && LowFrame(Read(m, h.pgd, 511)) !in {pgd, p4d}
    requires CopiedTo(m, m1, h.pgd, pgd, 256, 512) && CopiedTo(m1, m2, LowFrame(Read(m, h.pgd, 511)), p4d, 0, 512)
    requires WrittenAt(m2, m3, p4d, 509, h.kx.pgdEntry) && WrittenAt(m3, m4, pgd, 511, Link(p4d))
    ensures HalfSet(h, m, m4, pgd, p4d)
  {
  }

  lemma IsCopied(m: Memory, src: bv64, dst: bv64, lo: nat, hi: nat)
    ensures CopiedTo(m, Copied(m, src, dst, lo, hi), src, dst, lo, hi)
  {
  }

  lemma IsWritten(m: Memory, table: bv64, index: nat, e: bv64)
    ensures WrittenAt(m, Write(m, table, index, e), table, index, e)
  {
  }

  lemma HalfEntries4(h: Host, m: Memory, pgd: bv64, p4d: bv64)
    requires !h.l5 && h.pgd != pgd
    ensures HalfSet(h, m, WithKernelHalf(h, m, pgd, p4d), pgd, p4d)
  {
    var m1 := Copied(m, h.pgd, pgd, KERNEL_HALF, 512);
    IsCopied(m, h.pgd, pgd, KERNEL_HALF, 512);
    IsWritten(m1, pgd, KX_ENTRY, h.kx.pgdEntry);
    HalfParts4(h, m, m1, Write(m1, pgd, KX_ENTRY, h.kx.pgdEntry), pgd, p4d);
  }

  lemma HalfEntries5(h: Host, m: Memory, pgd: bv64, p4d: bv64)
    requires h.l5 && pgd != p4d && h.pgd != pgd && h.pgd != p4d && LowFrame(Read(m, h.pgd, KX_P4D_ENTRY)) !in {pgd, p4d}
    ensures HalfSet(h, m, WithKernelHalf(h, m, pgd, p4d), pgd, p4d)
  {
    var m1 := Copied(m, h.pgd, pgd, KERNEL_HALF, 512);
    IsCopied(m, h.pgd, pgd, KERNEL_HALF, 512);
    var native := LowFrame(Read(m1, h.pgd, KX_P4D_ENTRY));
    var m2 := Copied(m1, native, p4d, 0, 512);
    IsCopied(m1, native, p4d, 0, 512);
    var m3 := Write(m2, p4d, KX_ENTRY, h.kx.pgdEntry);
    IsWritten(m2, p4d, KX_ENTRY, h.kx.pgdEntry);
    IsWritten(m3, pgd, KX_P4D_ENTRY, Link(p4d));
    HalfParts5(h, m, m1, m2, m3, Write(m3, pgd, KX_P4D_ENTRY, Link(p4d)), pgd, p4d);
  }

  lemma KernelHalfEntries(h: Host, m: Memory, pgd: bv64, p4d: bv64)
    requires h.pgd != pgd && (h.l5 ==> pgd != p4d && h.pgd != p4d)
    requires h.l5 ==> LowFrame(Read(m, h.pgd, KX_P4D_ENTRY)) !in {pgd, p4d}
    ensures HalfSet(h, m, WithKernelHalf(h, m, pgd, p4d), pgd, p4d)
  {
    if h.l5 { HalfEntries5(h, m, pgd, p4d); } else { HalfEntries4(h, m, pgd, p4d); }
  }

  /** A native entry's table is not one of ours. */
  lemma NativeTableIsForeign(h: Host, k: Kontainer, s: State, level: nat, table: bv64)
    requires NativeOk(h, k, s) && Node(level, table) in s.native
    ensures !IsOurs(h, k, table)
  {
    var n := Node(level, table);
    assert n in s.native;
  }

  /** The native p4d behind a 5-level entry kkm dereferences. */
  lemma NativeP4d(h: Host, k: Kontainer, s: State, i: nat)
    requires NativeOk(h, k, s) && h.l5 && (i == LOW_P4D_ENTRY || i == KX_P4D_ENTRY)
    ensures Node(3, LowFrame(Read(s.m, h.pgd, i))) in s.native
    ensures !IsOurs(h, k, LowFrame(Read(s.m, h.pgd, i))) && !IsOurs(h, k, h.pgd)
  {
    assert LeadsInto(s.native, Read(s.m, Node(4, h.pgd).table, i), 4);
    NativeTableIsForeign(h, k, s, 3, LowFrame(Read(s.m, h.pgd, i)));
    NativeTableIsForeign(h, k, s, 4, h.pgd);
  }

  lemma MonitorEntryIsNative(h: Host, k: Kontainer, s: State)
    requires NativeOk(h, k, s) && h.payloadEntry < 512
    ensures LeadsInto(s.native, MonitorEntry(h, s.m), 3)
  {
    if h.l5 {
      NativeP4d(h, k, s, LOW_P4D_ENTRY);
      assert LeadsInto(s.native, Read(s.m, Node(3, LowFrame(Read(s.m, h.pgd, LOW_P4D_ENTRY))).table, h.payloadEntry), 3);
    } else {
      assert LeadsInto(s.native, Read(s.m, Node(3, h.pgd).table, h.payloadEntry), 3);
    }
  }

  /** Changing only our own pages leaves the native side as it was. */
  lemma OwnWritesAreInvisible(h: Host, k: Kontainer, s: State, m': Memory)
    requires NativeOk(h, k, s) && h.payloadEntry < 512
    requires forall t, i: nat :: !IsOurs(h, k, t) ==> Read(m', t, i) == Read(s.m, t, i)
    ensures AgreeOn(s.m, m', s.native) && NativeOk(h, k, s.(m := m'))
  {
    NativeTableIsForeign(h, k, s, TopLevel(h.l5), h.pgd);
    if h.l5 {
      NativeP4d(h, k, s, LOW_P4D_ENTRY);
      NativeP4d(h, k, s, KX_P4D_ENTRY);
    }
  }

  lemma ShapeFrame(m: Memory, m': Memory, p: PrivateTables)
    requires PrivateShape(m, p)
    requires forall t, i: nat :: t == p.pud || t == p.pmd ==> Read(m', t, i) == Read(m, t, i)
    ensures PrivateShape(m', p)
  {
    forall i: nat | i < 512
      ensures Read(m', p.pud, i) == (if i == 0 then Link(p.pmd) else 0)
      ensures Read(m', p.pmd, i) == (if i == 0 then Link(p.pt) else 0)
    {
      assert Read(m', p.pud, i) == Read(m, p.pud, i) && Read(m', p.pmd, i) == Read(m, p.pmd, i);
    }
  }

  /** The tables above level 2 that a kontainer owns. */
  predicate IsTop(h: Host, k: Kontainer, t: bv64) {
    t in {k.gkPgd, k.gpPgd} || (h.l5 && t in {k.gkP4d, k.gpP4d, k.lowP4d})
  }

  ghost predicate SameTops(h: Host, k: Kontainer, m: Memory, m': Memory) {
    forall t, i: nat :: IsTop(h, k, t) ==> Read(m', t, i) == Read(m, t, i)
  }

  lemma TwinsFrame(h: Host, k: Kontainer, m: Memory, m': Memory)
    requires Twins(h, k, m) && SameTops(h, k, m, m')
    ensures Twins(h, k, m')
  {
  }

  lemma UserHalfFrame(h: Host, k: Kontainer, s: State, s': State)
    requires UserHalf(h, k, s) && SameTops(h, k, s.m, s'.m) && s.native <= s'.native
    ensures UserHalf(h, k, s')
  {
  }

  lemma KernelHalfFrame(h: Host, k: Kontainer, s: State, s': State)
    requires KernelHalf(h, k, s) && SameTops(h, k, s.m, s'.m) && s.native <= s'.native
    ensures KernelHalf(h, k, s')
  {
    var t := UpperTable(h, k, false);
    forall i: nat | (if h.l5 then 0 else 256) <= i < 512 && i != KX_ENTRY
      ensures LeadsInto(s'.native, Read(s'.m, t, i), 3)
    {
      assert LeadsInto(s.native, Read(s.m, t, i), 3);
    }
    if h.l5 {
      forall i: nat | 256 <= i < 511 ensures LeadsInto(s'.native, Read(s'.m, k.gkPgd, i), 4) {
        assert LeadsInto(s.native, Read(s.m, k.gkPgd, i), 4);
      }
    }
  }

  ghost predicate SameShapes(m: Memory, m': Memory, p: PrivateTables) {
    forall t, i: nat :: t == p.pud || t == p.pmd ==> Read(m', t, i) == Read(m, t, i)
  }

  /** A step that leaves the upper tables of every hierarchy alone keeps the invariant. */
  lemma InvFrame(h: Host, k: Kontainer, s: State, s': State)
    requires Inv(h, k, s) && NativeOk(h, k, s') && s.native <= s'.native
    requires SameTops(h, k, s.m, s'.m) && SameShapes(s.m, s'.m, k.guest) && SameShapes(s.m, s'.m, h.kx)
    ensures Inv(h, k, s')
  {
    ShapeFrame(s.m, s'.m, k.guest);
    ShapeFrame(s.m, s'.m, h.kx);
    TwinsFrame(h, k, s.m, s'.m);
    UserHalfFrame(h, k, s, s');
    KernelHalfFrame(h, k, s, s');
  }

  /** What a sync that writes changes, entry by entry. */
  ghost predicate Rewritten(h: Host, k: Kontainer, m: Memory, m': Memory, window: bv64) {
    forall t, i: nat {:trigger Read(m', t, i)} :: Read(m', t, i) ==
      if h.l5 && i == 0 && (t == k.gkPgd || t == k.gpPgd) then Link(k.lowP4d)
      else if (if h.l5 then t == k.lowP4d else t == k.gkPgd || t == k.gpPgd) && (i == 0 || i == 255) then window
      else if (if h.l5 then t == k.lowP4d else t == k.gkPgd || t == k.gpPgd) && i == 1 then k.guest.pgdEntry
      else Read(m, t, i)
  }

  lemma WriteBothEntries(m: Memory, k: Kontainer, index: nat, e: bv64)
    ensures forall t, i: nat :: Read(WriteBoth(m, k, index, e), t, i) ==
              if (t == k.gkPgd || t == k.gpPgd) && i == index then e else Read(m, t, i)
  {
  }

  lemma SyncWrites4(h: Host, k: Kontainer, m: Memory, window: bv64)
    requires !h.l5
    ensures Rewritten(h, k, m, WithWindow4(m, k, window), window)
  {
    WriteBothEntries(m, k, 0, window);
    var m1 := WriteBoth(m, k, 0, window);
    WriteBothEntries(m1, k, 1, k.guest.pgdEntry);
    WriteBothEntries(WriteBoth(m1, k, 1, k.guest.pgdEntry), k, 255, window);
  }

  lemma SyncWrites5(h: Host, k: Kontainer, m: Memory, window: bv64)
    requires h.l5 && SeparateP4d(h, k)
    ensures Rewritten(h, k, m, WithWindow5(m, k, window), window)
  {
    WriteBothEntries(m, k, 0, Link(k.lowP4d));
    var m1 := WriteBoth(m, k, 0, Link(k.lowP4d));
    WriteEntry(m1, k.lowP4d, 0, window);
    var m2 := Write(m1, k.lowP4d, 0, window);
    WriteEntry(m2, k.lowP4d, 1, k.guest.pgdEntry);
    WriteEntry(Write(m2, k.lowP4d, 1, k.guest.pgdEntry), k.lowP4d, 255, window);
  }

  lemma RewriteKeepsUserHalf(h: Host, k: Kontainer, s: State, m': Memory, window: bv64)
    requires Separate(h, k) && UserHalf(h, k, s) && Rewritten(h, k, s.m, m', window)
    requires !NoExecute(window) && LeadsInto(s.native, window, 3) && (Present(window) <==> Frame(window) != 0)
    ensures UserHalf(h, k, s.(m := m'))
  {
  }

  lemma RewriteKeepsTwins(h: Host, k: Kontainer, m: Memory, m': Memory, window: bv64)
    requires Separate(h, k) && Twins(h, k, m) && Rewritten(h, k, m, m', window)
    ensures Twins(h, k, m')
  {
  }

  lemma RewriteKeepsKernelHalf(h: Host, k: Kontainer, s: State, m': Memory, window: bv64)
    requires Separate(h, k) && KernelHalf(h, k, s) && Rewritten(h, k, s.m, m', window)
    ensures KernelHalf(h, k, s.(m := m'))
  {
  }

  lemma RewriteKeepsInv(h: Host, k: Kontainer, s: State, m': Memory, window: bv64)
    requires Inv(h, k, s) && h.payloadEntry < 512 && Rewritten(h, k, s.m, m', window)
    requires !NoExecute(window) && LeadsInto(s.native, window, 3) && (Present(window) <==> Frame(window) != 0)
    ensures Inv(h, k, s.(m := m'))
  {
    OwnWritesAreInvisible(h, k, s, m');
    ShapeFrame(s.m, m', k.guest);
    ShapeFrame(s.m, m', h.kx);
    RewriteKeepsUserHalf(h, k, s, m', window);
    RewriteKeepsTwins(h, k, s.m, m', window);
    RewriteKeepsKernelHalf(h, k, s, m', window);
  }

  lemma SyncKeepsInv(h: Host, k: Kontainer, s: State)
    requires Inv(h, k, s) && h.payloadEntry < 512
    ensures Inv(h, k, s.(m := Synced(h, k, s.m)))
  {
    var e := MonitorEntry(h, s.m);
    if Frame(e) != Frame(Read(s.m, LowTable(h, k), BOTTOM_ENTRY)) {
      MonitorEntryIsNative(h, k, s);
      NxLeavesTheRest(e);
      if h.l5 { SyncWrites5(h, k, s.m, WithoutNx(e)); } else { SyncWrites4(h, k, s.m, WithoutNx(e)); }
      RewriteKeepsInv(h, k, s, Synced(h, k, s.m), WithoutNx(e));
    }
  }

  lemma LeavesAreNotAbove(h: Host, k: Kontainer, m: Memory, m': Memory)
    requires Separate(h, k)
    requires forall t, i: nat :: t != k.guest.pt && t != h.kx.pt ==> Read(m', t, i) == Read(m, t, i)
    ensures SameTops(h, k, m, m') && SameShapes(m, m', k.guest) && SameShapes(m, m', h.kx)
  {
  }

  /** Writes to the last-level page tables of the two private slots keep the invariant. */
  lemma LeafWriteKeepsInv(h: Host, k: Kontainer, s: State, s': State)
    requires Inv(h, k, s) && h.payloadEntry < 512 && s'.native == s.native
    requires forall t, i: nat :: t != k.guest.pt && t != h.kx.pt ==> Read(s'.m, t, i) == Read(s.m, t, i)
    ensures Inv(h, k, s')
  {
    OwnWritesAreInvisible(h, k, s, s'.m);
    LeavesAreNotAbove(h, k, s.m, s'.m);
    InvFrame(h, k, s, s');
  }

  lemma PrivatePageWritesLeaf(h: Host, k: Kontainer, m: Memory, gva: nat, mva: nat)
    ensures forall t, i: nat :: t != k.guest.pt ==> Read(WithPrivatePage(h, k, m, gva, mva), t, i) == Read(m, t, i)
  {
  }

  lemma AreaWritesItsPage(h: Host, m: Memory, cpu: nat, a: AreaPages)
    ensures forall t, i: nat :: t != AreaPage(h, cpu) ==> Read(WithGuestArea(h, m, cpu, a), t, i) == Read(m, t, i)
    ensures Read(WithGuestArea(h, m, cpu, a), AreaPage(h, cpu), AreaIndex(cpu) % 512) == AreaEntry(a.pa0)
  {
    GuestAreaEntries(h, m, cpu, a);
  }

  lemma FirstCpusMiss(h: Host, k: Kontainer, native: set<Node>, cpu: nat)
    requires cpu < KX_CPUS
    ensures AreaMisses(h, k, native, cpu)
  {
    AreaInFirstPage(cpu);
    FirstPageAfter(h.kx.pt);
  }

  /** A page that is a native page table, or no table, may change without anyone's tables changing. */
  lemma StrayWritesKeepNative(h: Host, k: Kontainer, s: State, m': Memory, p: bv64)
    requires NativeOk(h, k, s) && h.payloadEntry < 512 && forall n :: n in s.native && n.table == p ==> n.level == 0
    requires forall t, i: nat :: t != p ==> Read(m', t, i) == Read(s.m, t, i)
    ensures NativeOk(h, k, s.(m := m'))
  {
    assert Node(TopLevel(h.l5), h.pgd) in s.native;
    if h.l5 { NativeP4d(h, k, s, LOW_P4D_ENTRY); }
    forall n, i: nat | n in s.native && i < 512 ensures LeadsInto(s.native, Read(m', n.table, i), n.level) {
      assert LeadsInto(s.native, Read(s.m, n.table, i), n.level);
    }
  }

  lemma AreaKeepsInv(h: Host, k: Kontainer, s: State, cpu: nat, a: AreaPages)
    requires Inv(h, k, s) && h.payloadEntry < 512 && AreaMisses(h, k, s.native, cpu)
    ensures Inv(h, k, s.(m := WithGuestArea(h, s.m, cpu, a)))
  {
    var p, s' := AreaPage(h, cpu), s.(m := WithGuestArea(h, s.m, cpu, a));
    AreaWritesItsPage(h, s.m, cpu, a);
    if IsOurs(h, k, p) {
      LeafWriteKeepsInv(h, k, s, s');
    } else {
      StrayWritesKeepNative(h, k, s, s'.m, p);
      InvFrame(h, k, s, s');
    }
  }

  /* ---- a guest area that does not miss ---- */

  /** The second top-level or p4d page, which holds the same entries as p. */
  function Twin(k: Kontainer, p: bv64): bv64 {
    if p == k.gkPgd then k.gpPgd else if p == k.gpPgd then k.gkPgd else if p == k.gkP4d then k.gpP4d else k.gkP4d
  }

  lemma TwinTablesPart(h: Host, k: Kontainer, s: State, m': Memory, p: bv64, j: nat, e: bv64)
    requires Inv(h, k, s) && j < 511 && Twinned(h, k, p)
    requires Read(m', p, j) == e != Read(s.m, Twin(k, p), j)
    requires forall t, i: nat :: t != p ==> Read(m', t, i) == Read(s.m, t, i)
    ensures !Twins(h, k, m')
  {
  }

  /** An area's entry stands in none of the tables a kontainer has once. */
  lemma AreaEntryIsAlien(h: Host, k: Kontainer, s: State, p: bv64, j: nat, pa: bv64)
    requires Inv(h, k, s) && j < 512 && j % 4 == 0
    requires p in {k.guest.pud, k.guest.pmd, h.kx.pud, h.kx.pmd} || (h.l5 && p == k.lowP4d)
    ensures Read(s.m, p, j) != AreaEntry(pa)
  {
    AreaEntryIsNoExecute(pa);
    LinkIsExecutable(k.guest.pmd);
    LinkIsExecutable(k.guest.pt);
    LinkIsExecutable(h.kx.pmd);
    LinkIsExecutable(h.kx.pt);
  }

  /** Nor does one that leads to a table of ours stand in a native table. */
  lemma AreaEntryLeadsOut(h: Host, k: Kontainer, s: State, n: Node, j: nat)
    requires Separate(h, k) && NativeOk(h, k, s) && n in s.native && n.level > 0 && j < 512
    ensures Read(s.m, n.table, j) != AreaEntry(k.gkPgd)
  {
    AreaEntryMeans(k.gkPgd);
    assert LeadsInto(s.native, Read(s.m, n.table, j), n.level);
    assert Node(n.level - 1, k.gkPgd) !in s.native;
  }

  lemma AreaEntryMeans(pa: bv64)
    requires PageAddress(pa)
    ensures Present(AreaEntry(pa)) && Frame(AreaEntry(pa)) == pa && !Large(AreaEntry(pa))
  {
    EntryMeans(pa, 0x8000_0000_0000_0003);
  }

  lemma TwoAreaEntries()
    ensures AreaEntry(0) != AreaEntry(0x1000)
  {
  }

  predicate Twinned(h: Host, k: Kontainer, p: bv64) {
    p in {k.gkPgd, k.gpPgd} || (h.l5 && p in {k.gkP4d, k.gpP4d})
  }

  /** An area that does not miss breaks the invariant, at least with its first page here. */
  function WorstPage(h: Host, k: Kontainer, m: Memory, p: bv64, j: nat): bv64 {
    if !IsOurs(h, k, p) then k.gkPgd
    else if Twinned(h, k, p) && Read(m, Twin(k, p), j) == AreaEntry(0) then 0x1000
    else 0
  }

  lemma WorstPageDiffers(h: Host, k: Kontainer, m: Memory, p: bv64, j: nat)
    ensures !IsOurs(h, k, p) ==> WorstPage(h, k, m, p, j) == k.gkPgd
    ensures IsOurs(h, k, p) && Twinned(h, k, p) ==> Read(m, Twin(k, p), j) != AreaEntry(WorstPage(h, k, m, p, j))
  {
    TwoAreaEntries();
  }

  lemma AreaBreaksNative(h: Host, k: Kontainer, s: State, s': State, p: bv64, j: nat)
    requires Inv(h, k, s) && s'.native == s.native && j < 512
    requires !IsOurs(h, k, p) && exists n :: n in s.native && n.table == p && n.level != 0
    requires Read(s'.m, p, j) == AreaEntry(k.gkPgd)
    ensures !Inv(h, k, s')
  {
    var n :| n in s.native && n.table == p && n.level != 0;
    if NativeOk(h, k, s') { AreaEntryLeadsOut(h, k, s', n, j); }
  }

  lemma AreaBreaksOurs(h: Host, k: Kontainer, s: State, s': State, p: bv64, j: nat, pa: bv64)
    requires Inv(h, k, s) && j < 511 && j % 4 == 0
    requires IsOurs(h, k, p) && p != h.kx.pt && p != k.guest.pt
    requires Read(s'.m, p, j) == AreaEntry(pa) && forall t, i: nat :: t != p ==> Read(s'.m, t, i) == Read(s.m, t, i)
    requires Twinned(h, k, p) ==> Read(s.m, Twin(k, p), j) != AreaEntry(pa)
    ensures !Inv(h, k, s')
  {
    if Twinned(h, k, p) {
      TwinTablesPart(h, k, s, s'.m, p, j, AreaEntry(pa));
    } else if Inv(h, k, s') {
      AreaEntryIsAlien(h, k, s', p, j, pa);
    }
  }

  lemma WrittenAreaBreaks(h: Host, k: Kontainer, s: State, s': State, p: bv64, j: nat)
    requires Inv(h, k, s) && s'.native == s.native && j < 511 && j % 4 == 0 && p != h.kx.pt && p != k.guest.pt
    requires IsOurs(h, k, p) || exists n :: n in s.native && n.table == p && n.level != 0
    requires Read(s'.m, p, j) == AreaEntry(WorstPage(h, k, s.m, p, j)) && forall t, i: nat :: t != p ==> Read(s'.m, t, i) == Read(s.m, t, i)
    ensures !Inv(h, k, s')
  {
    WorstPageDiffers(h, k, s.m, p, j);
    if IsOurs(h, k, p) {
      AreaBreaksOurs(h, k, s, s', p, j, WorstPage(h, k, s.m, p, j));
    } else {
      AreaBreaksNative(h, k, s, s', p, j);
    }
  }

  lemma AreaBreaksInv(h: Host, k: Kontainer, s: State, cpu: nat, a: AreaPages)
    requires Inv(h, k, s) && !AreaMisses(h, k, s.native, cpu)
    requires a.pa0 == WorstPage(h, k, s.m, AreaPage(h, cpu), AreaIndex(cpu) % 512)
    ensures !Inv(h, k, s.(m := WithGuestArea(h, s.m, cpu, a)))
  {
    AreaWritesItsPage(h, s.m, cpu, a);
    AreaStartsAtFour(cpu);
    WrittenAreaBreaks(h, k, s, s.(m := WithGuestArea(h, s.m, cpu, a)), AreaPage(h, cpu), AreaIndex(cpu) % 512);
  }

  lemma AreaStartsAtFour(cpu: nat)
    ensures AreaIndex(cpu) % 512 % 4 == 0 && AreaIndex(cpu) % 512 < 511
  {
  }

  /** The invariant survives a CPU's guest area, whatever its pages, if and only if the area misses. */
  lemma AreaKeepsInvExactly(h: Host, k: Kontainer, s: State, cpu: nat)
    requires Inv(h, k, s) && h.payloadEntry < 512
    ensures AreaMisses(h, k, s.native, cpu) <==> forall a :: Inv(h, k, s.(m := WithGuestArea(h, s.m, cpu, a)))
  {
    if AreaMisses(h, k, s.native, cpu) {
      forall a ensures Inv(h, k, s.(m := WithGuestArea(h, s.m, cpu, a))) {
        AreaKeepsInv(h, k, s, cpu, a);
      }
    } else {
      AreaBreaksInv(h, k, s, cpu, AreaPages(WorstPage(h, k, s.m, AreaPage(h, cpu), AreaIndex(cpu) % 512), 0, 0, 0));
    }
  }

  /** The first CPU without room: with a top-level table in the page after the kx page table, its
      guest area replaces that table's lowest entries, and the two guest tables part. */
  lemma CpuWithoutRoom(h: Host, k: Kontainer, s: State, a: AreaPages)
    requires Inv(h, k, s) && k.gkPgd == h.kx.pt + 0x1000
    ensures var m' := WithGuestArea(h, s.m, KX_CPUS, a);
            && Read(m', k.gkPgd, 0) == AreaEntry(a.pa0) && Read(m', k.gkPgd, 1) == AreaEntry(a.pa1)
            && Read(m', k.gkPgd, 0) != Read(m', k.gpPgd, 0)
            && !Inv(h, k, s.(m := m'))
  {
    var m' := WithGuestArea(h, s.m, KX_CPUS, a);
    FirstAreaBeyond(h, s.m, a);
    AreaEntryIsNoExecute(a.pa0);
    LowestEntryIsExecutable(h, k, s);
    AreaOverTable(k, s.m, m', AreaEntry(a.pa0), AreaEntry(a.pa1), AreaEntry(a.pa2), AreaEntry(a.pa3));
    TablesPart(h, k, s.m, m', AreaEntry(a.pa0));
  }

  lemma FirstAreaBeyond(h: Host, m: Memory, a: AreaPages)
    ensures FourReplaced(m, WithGuestArea(h, m, KX_CPUS, a), h.kx.pt + 0x1000, 0,
                         AreaEntry(a.pa0), AreaEntry(a.pa1), AreaEntry(a.pa2), AreaEntry(a.pa3))
  {
    assert AreaIndex(KX_CPUS) / 512 == 1 && AreaIndex(KX_CPUS) % 512 == 0;
    GuestAreaStores(h, m, KX_CPUS, a);
    NextPage(h.kx.pt);
  }

  lemma AreaOverTable(k: Kontainer, m: Memory, m': Memory, e0: bv64, e1: bv64, e2: bv64, e3: bv64)
    requires k.gkPgd != k.gpPgd && FourReplaced(m, m', k.gkPgd, 0, e0, e1, e2, e3)
    ensures Read(m', k.gkPgd, 0) == e0 && Read(m', k.gkPgd, 1) == e1 && Read(m', k.gpPgd, 0) == Read(m, k.gpPgd, 0)
  {
  }

  lemma TablesPart(h: Host, k: Kontainer, m: Memory, m': Memory, e: bv64)
    requires Read(m', k.gkPgd, 0) == e && NoExecute(e) && !NoExecute(Read(m, k.gpPgd, 0))
    requires Read(m', k.gpPgd, 0) == Read(m, k.gpPgd, 0)
    ensures Read(m', k.gkPgd, 0) != Read(m', k.gpPgd, 0) && !Twins(h, k, m')
  {
  }

  lemma NextPage(table: bv64)
    ensures PageAfter(table, 1) == table + 0x1000
  {
  }

  lemma AreaEntryIsNoExecute(pa: bv64)
    ensures NoExecute(AreaEntry(pa))
  {
  }

  lemma LowestEntryIsExecutable(h: Host, k: Kontainer, s: State)
    requires Twins(h, k, s.m) && UserHalf(h, k, s)
    ensures !NoExecute(Read(s.m, k.gpPgd, 0))
  {
    LinkIsExecutable(k.lowP4d);
  }

  lemma LinkIsExecutable(pa: bv64)
    ensures !NoExecute(Link(pa)) && !NoExecute(0)
  {
  }

  lemma NativeKeepsInv(h: Host, k: Kontainer, s: State, after: State)
    requires Inv(h, k, s) && Allowed(h, k, s, Native(after))
    ensures Inv(h, k, after)
  {
    InvFrame(h, k, s, after);
  }

  lemma StepKeepsInv(h: Host, k: Kontainer, s: State, e: Event)
    requires Inv(h, k, s) && h.payloadEntry < 512 && Allowed(h, k, s, e)
    ensures Inv(h, k, Apply(h, k, s, e))
  {
    match e
    case Sync => SyncKeepsInv(h, k, s);
    case Native(after) => NativeKeepsInv(h, k, s, after);
    case GuestArea(cpu, pages) => AreaKeepsInv(h, k, s, cpu, pages);
    case PrivatePage(gva, mva) =>
      PrivatePageWritesLeaf(h, k, s.m, gva, mva);
      LeafWriteKeepsInv(h, k, s, Apply(h, k, s, e));
  }

  /** Every state of every run from a state with the invariant has it. */
  lemma {:induction false} InvAlways(h: Host, k: Kontainer, s: State, run: seq<Event>)
    requires Inv(h, k, s) && h.payloadEntry < 512 && AllowedRun(h, k, s, run)
    ensures Inv(h, k, Play(h, k, s, run))
  {
    if run != [] {
      var before, e := Play(h, k, s, run[..|run| - 1]), run[|run| - 1];
      InvAlways(h, k, s, run[..|run| - 1]);
      StepKeepsInv(h, k, before, e);
    }
  }

  /** Our pages before the kernel half goes in: empty but for the private slot. */
  ghost predicate Blank(h: Host, k: Kontainer, m: Memory, m': Memory) {
    forall t, i: nat {:trigger Read(m', t, i)} :: Read(m', t, i) ==
      if t == k.guest.pud && i == 0 then Link(k.guest.pmd)
      else if t == k.guest.pmd && i == 0 then Link(k.guest.pt)
      else if IsOwn(h, k, t) then 0 else Read(m, t, i)
  }

  lemma ZeroedOwnEntries(h: Host, k: Kontainer, m: Memory)
    ensures forall t, i: nat :: Read(ZeroedOwn(h, k, m), t, i) == if IsOwn(h, k, t) then 0 else Read(m, t, i)
  {
  }

  lemma PrivateTablesEntries(m: Memory, p: PrivateTables)
    requires p.pud != p.pmd
    ensures forall t, i: nat :: Read(WithPrivateTables(m, GUEST_PRIVATE_START_VA, p), t, i) ==
              if t == p.pud && i == 0 then Link(p.pmd) else if t == p.pmd && i == 0 then Link(p.pt) else Read(m, t, i)
  {
    assert Index(GUEST_PRIVATE_START_VA, 2) == 0 && Index(GUEST_PRIVATE_START_VA, 1) == 0;
    WriteEntry(m, p.pud, 0, Link(p.pmd));
    WriteEntry(Write(m, p.pud, 0, Link(p.pmd)), p.pmd, 0, Link(p.pt));
  }

  lemma FreshPagesAreBlank(h: Host, k: Kontainer, m: Memory)
    requires Separate(h, k)
    ensures Blank(h, k, m, WithPrivateTables(ZeroedOwn(h, k, m), GUEST_PRIVATE_START_VA, k.guest))
  {
    ZeroedOwnEntries(h, k, m);
    PrivateTablesEntries(ZeroedOwn(h, k, m), k.guest);
  }

  lemma BlankShapes(h: Host, k: Kontainer, m: Memory, m1: Memory, m2: Memory, m3: Memory)
    requires Separate(h, k) && PrivateShape(m, h.kx) && k.guest.pgdEntry == Link(k.guest.pud)
    requires Blank(h, k, m, m1) && HalfSet(h, m1, m2, k.gkPgd, k.gkP4d) && HalfSet(h, m2, m3, k.gpPgd, k.gpP4d)
    ensures PrivateShape(m3, k.guest) && PrivateShape(m3, h.kx)
    ensures forall t, i: nat :: !IsOurs(h, k, t) ==> Read(m3, t, i) == Read(m, t, i)
  {
  }

  lemma HalvesAreTwins(h: Host, k: Kontainer, s: State, m1: Memory, m2: Memory, m3: Memory)
    requires Separate(h, k) && NativeOk(h, k, s)
    requires Blank(h, k, s.m, m1) && HalfSet(h, m1, m2, k.gkPgd, k.gkP4d) && HalfSet(h, m2, m3, k.gpPgd, k.gpP4d)
    ensures Twins(h, k, m3)
  {
    NativeTableIsForeign(h, k, s, TopLevel(h.l5), h.pgd);
    if h.l5 { NativeP4d(h, k, s, KX_P4D_ENTRY); }
  }

  lemma FreshUserHalf(h: Host, k: Kontainer, s: State, m1: Memory, m2: Memory, m3: Memory)
    requires Separate(h, k)
    requires Blank(h, k, s.m, m1) && HalfSet(h, m1, m2, k.gkPgd, k.gkP4d) && HalfSet(h, m2, m3, k.gpPgd, k.gpP4d)
    ensures UserHalf(h, k, s.(m := m3))
  {
  }

  lemma FreshKernelHalf(h: Host, k: Kontainer, s: State, m1: Memory, m2: Memory, m3: Memory)
    requires Separate(h, k) && NativeOk(h, k, s)
    requires Blank(h, k, s.m, m1) && HalfSet(h, m1, m2, k.gkPgd, k.gkP4d) && HalfSet(h, m2, m3, k.gpPgd, k.gpP4d)
    ensures KernelHalf(h, k, s.(m := m3))
  {
    NativeTableIsForeign(h, k, s, TopLevel(h.l5), h.pgd);
    forall i: nat | 256 <= i < 512 ensures LeadsInto(s.native, Read(s.m, h.pgd, i), TopLevel(h.l5)) {
      assert Node(TopLevel(h.l5), h.pgd) in s.native;
    }
    if h.l5 {
      NativeP4d(h, k, s, KX_P4D_ENTRY);
      var p4d := LowFrame(Read(s.m, h.pgd, KX_P4D_ENTRY));
      forall i: nat | i < 512 ensures LeadsInto(s.native, Read(s.m, p4d, i), 3) {
        assert LeadsInto(s.native, Read(s.m, Node(3, p4d).table, i), 3);
      }
    }
  }

  /** The two steps of kkm_mmu_copy_kernel_pgd, seen from a kontainer's fresh pages. */
  lemma CreationSteps(h: Host, k: Kontainer, s: State) returns (m1: Memory, m2: Memory)
    requires Creatable(h, k, s)
    ensures var m3 := Created(h, k, s.m);
            Blank(h, k, s.m, m1) && HalfSet(h, m1, m2, k.gkPgd, k.gkP4d) && HalfSet(h, m2, m3, k.gpPgd, k.gpP4d)
  {
    m1 := WithPrivateTables(ZeroedOwn(h, k, s.m), GUEST_PRIVATE_START_VA, k.guest);
    FreshPagesAreBlank(h, k, s.m);
    NativeTableIsForeign(h, k, s, TopLevel(h.l5), h.pgd);
    if h.l5 { NativeP4d(h, k, s, KX_P4D_ENTRY); }
    m2 := WithKernelHalf(h, m1, k.gkPgd, k.gkP4d);
    KernelHalfEntries(h, m1, k.gkPgd, k.gkP4d);
    KernelHalfEntries(h, m2, k.gpPgd, k.gpP4d);
  }

  /** kkm_create_kontainer establishes the invariant. */
  lemma CreatedHasInv(h: Host, k: Kontainer, s: State)
    requires Creatable(h, k, s) && h.payloadEntry < 512
    ensures Inv(h, k, s.(m := Created(h, k, s.m)))
  {
    var m3 := Created(h, k, s.m);
    var m1, m2 := CreationSteps(h, k, s);
    BlankShapes(h, k, s.m, m1, m2, m3);
    OwnWritesAreInvisible(h, k, s, m3);
    HalvesAreTwins(h, k, s, m1, m2, m3);
    FreshUserHalf(h, k, s, m1, m2, m3);
    FreshKernelHalf(h, k, s, m1, m2, m3);
  }

  /** The guest-kernel and the guest-payload table resolve every address to the same leaf. */
  lemma TwinsWalkAlike(h: Host, k: Kontainer, s: State, va: nat)
    requires Twins(h, k, s.m) && Separate(h, k)
    ensures Walk(s.m, k.gpPgd, TopLevel(h.l5), va) == Walk(s.m, k.gkPgd, TopLevel(h.l5), va)
  {
    if h.l5 && Index(va, 4) == KX_P4D_ENTRY {
      LinkPointsTo(k.gkP4d);
      LinkPointsTo(k.gpP4d);
    }
  }

  /** ... in every state of every run that starts with kkm_create_kontainer. */
  lemma GuestTablesAgreeAlways(h: Host, k: Kontainer, s: State, run: seq<Event>, va: nat)
    requires Creatable(h, k, s) && h.payloadEntry < 512
    requires AllowedRun(h, k, s.(m := Created(h, k, s.m)), run)
    ensures var now := Play(h, k, s.(m := Created(h, k, s.m)), run);
            Walk(now.m, k.gpPgd, TopLevel(h.l5), va) == Walk(now.m, k.gkPgd, TopLevel(h.l5), va)
  {
    CreatedHasInv(h, k, s);
    InvAlways(h, k, s.(m := Created(h, k, s.m)), run);
    TwinsWalkAlike(h, k, Play(h, k, s.(m := Created(h, k, s.m)), run), va);
  }
}
