/** kkm_main.c and kkm_kontainer.c: kontext slots, the reference count, and who frees which page. */
module Lifetime {
  import opened Constants
  import opened Counting

  const MAX_CONTEXTS := 288

  /** The five allocations a running kontext holds: three map pages, guest area, xsave area. */
  datatype Areas = NoAreas | Areas(map0: nat, map1: nat, map2: nat, guestArea: nat, xsave: nat) {
    function Pages(): set<nat> {
      if NoAreas? then {} else {map0, map1, map2, guestArea, xsave}
    }

    predicate Distinct() {
      Areas? ==>
        map0 !in {map1, map2, guestArea, xsave} && map1 !in {map2, guestArea, xsave} && map2 !in {guestArea, xsave}
        && guestArea != xsave
    }
  }

  /** An entry of kkm->kontext[]: null, or an object that outlives its uses. */
  datatype Slot = Null | Kontext(block: nat, used: bool, firstThread: bool, areas: Areas) {
    predicate Used() {
      Kontext? && used
    }

    function Pages(): set<nat> {
      if Null? then {} else {block} + areas.Pages()
    }

    predicate WellFormed() {
      Kontext? ==> (used <==> areas.Areas?) && (!used ==> !firstThread) && areas.Distinct() && block !in areas.Pages()
    }
  }

  function InUse(s: Slot): bool {
    s.Used()
  }

  /* ---- the books of the page allocator ---- */

  const KONTAINER := -1

  /** The blocks of the kontainer itself: struct kkm, the pgd pair, the p4d pair and the low p4d
      page in 5-level mode, and the three tables of its private slot. */
  datatype Tables = Tables(self: nat, pgdPair: nat, p4dPair: nat, lowP4d: nat, pud: nat, pmd: nat, pt: nat) {
    function Pages(l5: bool): set<nat> {
      {self, pgdPair, pud, pmd, pt} + if l5 then {p4dPair, lowP4d} else {}
    }

    predicate Distinct(l5: bool) {
      && self !in {pgdPair, pud, pmd, pt} && pgdPair !in {pud, pmd, pt} && pud !in {pmd, pt} && pmd != pt
      && (l5 ==> p4dPair !in {lowP4d, self, pgdPair, pud, pmd, pt} && lowP4d !in {self, pgdPair, pud, pmd, pt})
    }
  }

  /** Every live block has exactly one owner who will free it: the kontainer, or one slot. */
  ghost predicate Balanced(live: map<nat, int>, own: set<nat>, slots: seq<Slot>) {
    && (forall p :: p in own <==> p in live && live[p] == KONTAINER)
    && (forall i, p :: 0 <= i < |slots| ==> (p in slots[i].Pages() <==> p in live && live[p] == i))
    && (forall p :: p in live ==> KONTAINER <= live[p] < |slots|)
  }

  function Tagged(live: map<nat, int>, pages: set<nat>, owner: int): map<nat, int> {
    live + map p | p in pages :: owner
  }

  lemma NewIsBalanced(own: set<nat>, slots: seq<Slot>)
    requires forall i :: 0 <= i < |slots| ==> slots[i].Null?
    ensures Balanced(Tagged(map[], own, KONTAINER), own, slots)
  {
  }

  lemma FillBalances(live: map<nat, int>, own: set<nat>, slots: seq<Slot>, i: nat, more: set<nat>, s: Slot)
    requires Balanced(live, own, slots) && i < |slots| && more !! live.Keys && s.Pages() == slots[i].Pages() + more
    ensures Balanced(Tagged(live, more, i), own, slots[i := s])
  {
    var tags, after := Tagged(live, more, i), slots[i := s];
    FillsOneSlot(live, own, slots, i, more, s, tags, after);
    FillsNoOther(live, own, slots, i, more, tags);
  }

  lemma FillsNoOther(live: map<nat, int>, own: set<nat>, slots: seq<Slot>, i: nat, more: set<nat>, tags: map<nat, int>)
    requires Balanced(live, own, slots) && i < |slots| && more !! live.Keys && tags == Tagged(live, more, i)
    ensures forall p :: p in own <==> p in tags && tags[p] == KONTAINER
    ensures forall p :: p in tags ==> KONTAINER <= tags[p] < |slots|
  {
    forall p ensures p in own <==> p in tags && tags[p] == KONTAINER {
      TagOf(live, more, i, p);
    }
    forall p | p in tags ensures KONTAINER <= tags[p] < |slots| {
      TagOf(live, more, i, p);
    }
  }

  lemma TagOf(live: map<nat, int>, pages: set<nat>, owner: int, p: nat)
    ensures TaggedAt(live, pages, owner, p)
  {
  }

  lemma FillsOneSlot(live: map<nat, int>, own: set<nat>, slots: seq<Slot>, i: nat, more: set<nat>, s: Slot,
                     tags: map<nat, int>, after: seq<Slot>)
    requires Balanced(live, own, slots) && i < |slots| && more !! live.Keys && s.Pages() == slots[i].Pages() + more
    requires tags == Tagged(live, more, i) && after == slots[i := s]
    ensures forall j, p :: 0 <= j < |after| ==> (p in after[j].Pages() <==> p in tags && tags[p] == j)
  {
    forall j, p | 0 <= j < |after| ensures p in after[j].Pages() <==> p in tags && tags[p] == j {
      TagOf(live, more, i, p);
      assert p in slots[j].Pages() <==> p in live && live[p] == j;
    }
  }

  /** A block after tagging: the new owner's if it is one of pages, else as before. */
  ghost predicate TaggedAt(live: map<nat, int>, pages: set<nat>, owner: int, p: nat) {
    var tags := Tagged(live, pages, owner);
    && (p in tags <==> p in live || p in pages)
    && (p in tags ==> tags[p] == if p in pages then owner else live[p])
  }

  lemma DrainBalances(live: map<nat, int>, own: set<nat>, slots: seq<Slot>, i: nat, less: set<nat>, s: Slot)
    requires Balanced(live, own, slots) && i < |slots|
    requires less <= slots[i].Pages() && s.Pages() == slots[i].Pages() - less
    ensures Balanced(live - less, own, slots[i := s])
  {
    var tags, after := live - less, slots[i := s];
    forall j, p | 0 <= j < |after| ensures p in after[j].Pages() <==> p in tags && tags[p] == j {
      assert p in slots[j].Pages() <==> p in live && live[p] == j;
    }
    forall p ensures p in own <==> p in tags && tags[p] == KONTAINER {
      if p in less { assert p in slots[i].Pages(); }
    }
  }

  lemma OnlyOwnIsLeft(live: map<nat, int>, own: set<nat>, slots: seq<Slot>)
    requires Balanced(live, own, slots) && forall i :: 0 <= i < |slots| ==> slots[i].Null?
    ensures live.Keys == own
  {
    forall p | p in live ensures p in own {
      assert live[p] == KONTAINER || p in slots[live[p]].Pages();
    }
  }

  /** Blocks handed out and not yet returned, each with the owner that asked for it. Blocks are
      numbered, and a number is never used twice. */
  class Allocator {
    var live: map<nat, int>
    var next: nat

    ghost predicate Fresh()
      reads this
    {
      forall p :: p in live ==> p < next
    }

    constructor ()
      ensures live == map[] && Fresh()
    {
      live, next := map[], 1;
    }

    method Allocate(owner: int) returns (page: nat)
      requires Fresh()
      modifies this
      ensures Fresh() && page == old(next) && next == page + 1 && live == old(live)[page := owner]
    {
      page := next;
      live, next := live[page := owner], next + 1;
    }

    /** Freeing a block twice, or one never handed out, is not possible in this model. */
    method Free(page: nat)
      requires page in live
      modifies this`live
      ensures live == old(live) - {page}
    {
      live := live - {page};
    }

    /** The five allocations of kkm_add_execution_kontext and kkm_kontext_init. */
    method AllocateAreas(owner: int) returns (a: Areas)
      requires Fresh()
      modifies this
      ensures Fresh() && a.Areas? && a.Distinct() && a.Pages() !! old(live).Keys
      ensures live == Tagged(old(live), a.Pages(), owner)
      ensures forall p :: p in a.Pages() ==> old(next) <= p < next
    {
      var m0 := Allocate(owner);
      var m1 := Allocate(owner);
      var m2 := Allocate(owner);
      var ga := Allocate(owner);
      var xs := Allocate(owner);
      a := Areas(m0, m1, m2, ga, xs);
    }

    /** kkm_kontext_cleanup and the loop over the map pages. */
    method FreeAreas(a: Areas)
      requires a.Areas? && a.Distinct() && a.Pages() <= live.Keys
      modifies this`live
      ensures live == old(live) - a.Pages()
    {
      Free(a.xsave);
      Free(a.guestArea);
      Free(a.map0);
      Free(a.map1);
      Free(a.map2);
    }

    /** kkm_kontainer_init, with every allocation succeeding. */
    method AllocateTables(l5: bool) returns (t: Tables)
      requires Fresh() && live == map[]
      modifies this
      ensures Fresh() && t.Distinct(l5) && live == Tagged(map[], t.Pages(l5), KONTAINER)
    {
      var self := Allocate(KONTAINER);
      var pgdPair := Allocate(KONTAINER);
      var p4dPair, lowP4d := 0, 0;
      if l5 {
        p4dPair := Allocate(KONTAINER);
        lowP4d := Allocate(KONTAINER);
      }
      var pud := Allocate(KONTAINER);
      var pmd := Allocate(KONTAINER);
      var pt := Allocate(KONTAINER);
      t := Tables(self, pgdPair, p4dPair, lowP4d, pud, pmd, pt);
    }

    /** kkm_kontainer_cleanup and the final kfree. */
    method FreeTables(l5: bool, t: Tables)
      requires t.Distinct(l5) && live.Keys == t.Pages(l5)
      modifies this`live
      ensures live == map[]
    {
      if l5 {
        Free(t.lowP4d);
      }
      Free(t.pud);
      Free(t.pmd);
      Free(t.pt);
      Free(t.pgdPair);
      if l5 {
        Free(t.p4dPair);
      }
      Free(t.self);
    }
  }

  /* ---- the kontainer ---- */

  /** struct kkm, as far as its lifetime goes. */
  class Kontainer {
    const l5: bool
    const allocator: Allocator
    const kontext: array<Slot>
    const tables: Tables
    var kontextCount: nat
    var referenceCount: nat
    // Calls in progress: the open kontainer fd, releases between clearing `used` and the
    // decrement under the lock, and releases between that and dropping their reference.
    ghost var fdOpen: bool
    ghost var unlisted: nat
    ghost var undropped: nat

    ghost predicate Destroyed()
      reads this
    {
      referenceCount == 0
    }

    /** kontext_count counts used slots and releases not yet counted down; the reference count
        adds the fd and the releases that still hold their reference. */
    ghost predicate CountsAgree()
      reads this, kontext
    {
      && kontextCount == Count(InUse, kontext[..]) + unlisted
      && referenceCount == (if fdOpen then 1 else 0) + Count(InUse, kontext[..]) + unlisted + undropped
    }

    ghost predicate Valid()
      reads this, kontext, allocator
    {
      && kontext.Length == MAX_CONTEXTS && CountsAgree() && allocator.Fresh()
      && (forall i :: 0 <= i < kontext.Length ==> kontext[i].WellFormed())
      && tables.Distinct(l5)
      && if Destroyed() then allocator.live == map[] else Balanced(allocator.live, tables.Pages(l5), kontext[..])
    }

    /** kkm_create_kontainer */
    constructor (l5: bool)
      ensures Valid() && !Destroyed() && fresh(allocator) && fresh(kontext)
      ensures fdOpen && referenceCount == 1 && kontextCount == 0 && unlisted == 0 && undropped == 0
    {
      this.l5 := l5;
      kontextCount, referenceCount, fdOpen, unlisted, undropped := 0, 1, true, 0, 0;
      var slots := new Slot[MAX_CONTEXTS](_ => Null);
      var a := new Allocator();
      var t := a.AllocateTables(l5);
      kontext, allocator, tables := slots, a, t;
      new;
      NewIsBalanced(tables.Pages(l5), kontext[..]);
      CountIsZero(InUse, kontext[..]);
    }

    /** kkm_add_execution_kontext, atomic under its lock; fd is the descriptor it installs. The search
        stops at the first slot that is null or not in use, and never at the end of the table. */
    method AddExecutionKontext(sameMm: bool, vcpu: nat, fd: nat) returns (ret: int, slot: nat)
      requires Valid() && fdOpen
      modifies this`kontextCount, this`referenceCount, kontext, allocator
      ensures Valid() && !Destroyed()
      ensures ret == if !sameMm || vcpu >= 288 || old(kontextCount) >= 288 then -22 else fd
      ensures ret < 0 ==> kontext[..] == old(kontext[..]) && kontextCount == old(kontextCount)
                          && referenceCount == old(referenceCount) && allocator.live == old(allocator.live)
      ensures ret >= 0 ==>
                && slot < MAX_CONTEXTS && !old(kontext[..])[slot].Used() && kontext[slot].Used()
                && (forall j :: 0 <= j < slot ==> old(kontext[j].Used()))
                && kontext[..] == old(kontext[..])[slot := kontext[slot]]
                && (kontext[slot].firstThread <==> old(kontextCount) == 0)
                && kontextCount == old(kontextCount) + 1 && referenceCount == old(referenceCount) + 1
    {
      if !sameMm || vcpu >= MAX_CONTEXTS || kontextCount >= MAX_CONTEXTS {
        return -EINVAL, 0;
      }
      SomeIsNotCounted(InUse, kontext[..]);
      var i := 0;
      while i < MAX_CONTEXTS
        invariant 0 <= i <= MAX_CONTEXTS
        invariant forall j :: 0 <= j < i ==> kontext[j].Used()
      {
        if kontext[i].Null? || !kontext[i].used {
          break;
        }
        i := i + 1;
      }
      assert i < MAX_CONTEXTS by {
        var j :| 0 <= j < MAX_CONTEXTS && !InUse(kontext[..][j]);
      }
      FillSlot(i);
      referenceCount := referenceCount + 1;
      kontextCount := kontextCount + 1;
      ret, slot := fd, i;
    }

    /** kzalloc of the kontext object for a slot that never had one. */
    method NewObject(i: nat)
      requires i < kontext.Length && kontext[i].Null? && allocator.Fresh()
      requires Balanced(allocator.live, tables.Pages(l5), kontext[..])
      modifies kontext, allocator
      ensures Balanced(allocator.live, tables.Pages(l5), kontext[..]) && allocator.Fresh()
      ensures kontext[i].Kontext? && kontext[i].WellFormed() && !kontext[i].Used()
      ensures kontext[..] == old(kontext[..])[i := kontext[i]] && Count(InUse, kontext[..]) == old(Count(InUse, kontext[..]))
    {
      ghost var slots := kontext[..];
      var block := allocator.Allocate(i);
      var s := Kontext(block, false, false, NoAreas);
      assert allocator.live == Tagged(old(allocator.live), {block}, i);
      FillBalances(old(allocator.live), tables.Pages(l5), slots, i, {block}, s);
      CountUpdate(InUse, slots, i, s);
      kontext[i] := s;
      assert kontext[..] == slots[i := s];
    }

    /** A kontext with its allocations goes into a free slot, reusing the object left there. */
    method FillSlot(i: nat)
      requires i < kontext.Length && !kontext[i].Used() && kontext[i].WellFormed() && allocator.Fresh()
      requires Balanced(allocator.live, tables.Pages(l5), kontext[..])
      modifies kontext, allocator
      ensures Balanced(allocator.live, tables.Pages(l5), kontext[..]) && allocator.Fresh()
      ensures kontext[i].WellFormed() && kontext[i].Used() && (kontext[i].firstThread <==> kontextCount == 0)
      ensures kontext[..] == old(kontext[..])[i := kontext[i]]
      ensures Count(InUse, kontext[..]) == old(Count(InUse, kontext[..])) + 1
    {
      if kontext[i].Null? {
        NewObject(i);
      }
      ghost var slots, live := kontext[..], allocator.live;
      assert kontext[i].Pages() <= live.Keys by {
        assert slots[i] == kontext[i];
      }
      var a := allocator.AllocateAreas(i);
      var s := Kontext(kontext[i].block, true, kontextCount == 0, a);
      FillBalances(live, tables.Pages(l5), slots, i, a.Pages(), s);
      CountUpdate(InUse, slots, i, s);
      kontext[i] := s;
      assert kontext[..] == slots[i := s];
    }

    /** kkm_execution_kontext_release up to the lock: the slot's areas are freed, the slot is free. */
    method BeginRelease(i: nat)
      requires Valid() && i < MAX_CONTEXTS && kontext[i].Used()
      modifies this`unlisted, kontext, allocator`live
      ensures Valid() && !Destroyed() && unlisted == old(unlisted) + 1
      ensures kontext[..] == old(kontext[..])[i := Kontext(old(kontext[i].block), false, false, NoAreas)]
      ensures allocator.live == old(allocator.live) - old(kontext[i].areas.Pages())
    {
      ghost var slots := kontext[..];
      var s := Kontext(kontext[i].block, false, false, NoAreas);
      CountUpdate(InUse, slots, i, s);
      var a := kontext[i].areas;
      assert slots[i] == kontext[i] && a.Pages() <= slots[i].Pages();
      allocator.FreeAreas(a);
      DrainBalances(old(allocator.live), tables.Pages(l5), slots, i, a.Pages(), s);
      kontext[i] := s;
      assert kontext[..] == slots[i := s];
      unlisted := unlisted + 1;
    }

    /** ... under the lock ... */
    method CountDown()
      requires Valid() && unlisted > 0
      modifies this`kontextCount, this`unlisted, this`undropped
      ensures Valid() && kontextCount == old(kontextCount) - 1
      ensures unlisted == old(unlisted) - 1 && undropped == old(undropped) + 1
    {
      kontextCount := kontextCount - 1;
      unlisted, undropped := unlisted - 1, undropped + 1;
    }

    /** ... and after it. */
    method EndRelease()
      requires Valid() && undropped > 0
      modifies this`referenceCount, this`undropped, kontext, allocator`live
      ensures Valid() && undropped == old(undropped) - 1 && referenceCount == old(referenceCount) - 1
      ensures Destroyed() <==> !fdOpen && Count(InUse, kontext[..]) == 0 && unlisted == 0 && undropped == 0
      ensures Destroyed() ==> allocator.live == map[]
      ensures !Destroyed() ==> kontext[..] == old(kontext[..]) && allocator.live == old(allocator.live)
    {
      undropped := undropped - 1;
      ReferenceDown();
    }

    /** kkm_kontainer_release */
    method CloseKontainer()
      requires Valid() && fdOpen
      modifies this`referenceCount, this`fdOpen, kontext, allocator`live
      ensures Valid() && !fdOpen && referenceCount == old(referenceCount) - 1
      ensures Destroyed() <==> !fdOpen && Count(InUse, kontext[..]) == 0 && unlisted == 0 && undropped == 0
      ensures Destroyed() ==> allocator.live == map[]
      ensures !Destroyed() ==> kontext[..] == old(kontext[..]) && allocator.live == old(allocator.live)
    {
      fdOpen := false;
      ReferenceDown();
    }

    /** kkm_reference_count_down: the holder has already given its reference up on paper. */
    method ReferenceDown()
      requires kontext.Length == MAX_CONTEXTS && referenceCount > 0 && allocator.Fresh() && tables.Distinct(l5)
      requires kontextCount == Count(InUse, kontext[..]) + unlisted
      requires referenceCount == (if fdOpen then 1 else 0) + Count(InUse, kontext[..]) + unlisted + undropped + 1
      requires forall i :: 0 <= i < kontext.Length ==> kontext[i].WellFormed()
      requires Balanced(allocator.live, tables.Pages(l5), kontext[..])
      modifies this`referenceCount, kontext, allocator`live
      ensures Valid() && referenceCount == old(referenceCount) - 1
      ensures !Destroyed() ==> kontext[..] == old(kontext[..]) && allocator.live == old(allocator.live)
    {
      referenceCount := referenceCount - 1;
      if referenceCount == 0 {
        CountIsZero(InUse, kontext[..]);
        DestroyApp();
      }
    }

    /** kkm_destroy_app */
    method DestroyApp()
      requires kontext.Length == MAX_CONTEXTS && tables.Distinct(l5)
      requires forall i :: 0 <= i < kontext.Length ==> kontext[i].WellFormed() && !kontext[i].Used()
      requires Balanced(allocator.live, tables.Pages(l5), kontext[..])
      modifies kontext, allocator`live
      ensures allocator.live == map[]
      ensures forall i :: 0 <= i < kontext.Length ==> kontext[i].Null?
      ensures Count(InUse, kontext[..]) == 0
    {
      var i := 0;
      while i < MAX_CONTEXTS
        invariant 0 <= i <= MAX_CONTEXTS
        invariant forall j :: 0 <= j < i ==> kontext[j].Null?
        invariant forall j :: 0 <= j < MAX_CONTEXTS ==> kontext[j].WellFormed() && !kontext[j].Used()
        invariant Balanced(allocator.live, tables.Pages(l5), kontext[..])
      {
        if !kontext[i].Null? {
          FreeObject(i);
        }
        i := i + 1;
      }
      OnlyOwnIsLeft(allocator.live, tables.Pages(l5), kontext[..]);
      allocator.FreeTables(l5, tables);
      CountIsZero(InUse, kontext[..]);
    }

    method FreeObject(i: nat)
      requires i < kontext.Length && kontext[i].Kontext? && kontext[i].WellFormed() && !kontext[i].Used()
      requires Balanced(allocator.live, tables.Pages(l5), kontext[..])
      modifies kontext, allocator`live
      ensures Balanced(allocator.live, tables.Pages(l5), kontext[..])
      ensures kontext[..] == old(kontext[..])[i := Null]
    {
      ghost var slots := kontext[..];
      var block := kontext[i].block;
      assert slots[i] == kontext[i] && slots[i].Pages() == {block};
      allocator.Free(block);
      DrainBalances(old(allocator.live), tables.Pages(l5), slots, i, {block}, Null);
      kontext[i] := Null;
      assert kontext[..] == slots[i := Null];
    }
  }
}
