/** kkm_set_kontainer_memory: the table of memory slots a monitor registers. */
module MemSlots {
  import opened Constants
  import opened Paging
  import opened Mmu
  import opened Counting

  const MAX_MEMORY_SLOTS := 64

  /** struct kkm_memory_region */
  datatype Region = Region(slot: nat, flags: nat, guestPhysAddr: nat, memorySize: nat, userspaceAddr: nat)

  /** struct kkm_mem_slot */
  datatype Slot = Slot(used: bool, npages: nat, userPfn: nat, mr: Region)

  const EMPTY := Slot(false, 0, 0, Region(0, 0, 0, 0, 0))

  function SlotFor(mr: Region): Slot {
    Slot(true, mr.memorySize / PAGE_SIZE, mr.userspaceAddr / PAGE_SIZE, mr)
  }

  predicate Aligned(mr: Region) {
    mr.guestPhysAddr % PAGE_SIZE == 0 && mr.memorySize % PAGE_SIZE == 0 && mr.userspaceAddr % PAGE_SIZE == 0
  }

  /** The test on the slot number. It lets MAX_MEMORY_SLOTS itself through, one past the last slot. */
  predicate SlotRefused(slot: nat) {
    slot > MAX_MEMORY_SLOTS
  }

  /** What the call accepts: an aligned region that fills an empty slot or empties a used one. */
  predicate Accepted(slots: seq<Slot>, mr: Region)
    requires mr.slot < |slots| || SlotRefused(mr.slot)
  {
    !SlotRefused(mr.slot) && Aligned(mr) && (mr.memorySize == 0 <==> slots[mr.slot].used)
  }

  /** In numbers: all three addresses and sizes are multiples of 4096, the slot number is at most 64, and the
      slot is used exactly when it is to be emptied. */
  lemma AcceptedExactly(slots: seq<Slot>, mr: Region)
    requires mr.slot < |slots| || mr.slot > 64
    ensures Accepted(slots, mr) <==>
            && mr.slot <= 64 && mr.guestPhysAddr % 4096 == 0 && mr.memorySize % 4096 == 0 && mr.userspaceAddr % 4096 == 0
            && (if slots[mr.slot].used then mr.memorySize == 0 else mr.memorySize != 0)
  {
  }

  /** Exactly one slot number passes the test and names no slot. */
  lemma OnePastTheEnd(slot: nat)
    ensures !SlotRefused(slot) && !(slot < MAX_MEMORY_SLOTS) <==> slot == MAX_MEMORY_SLOTS
  {
  }

  function InUse(s: Slot): bool {
    s.used
  }

  /** An empty slot is all zero; a used one describes an aligned, non-empty region exactly. */
  predicate WellFormed(s: Slot) {
    if s.used then
      && Aligned(s.mr) && s.mr.memorySize != 0
      && s.npages * PAGE_SIZE == s.mr.memorySize && s.userPfn * PAGE_SIZE == s.mr.userspaceAddr
    else s == EMPTY
  }

  /** The overlap scan passes over used slots, and an empty slot covers no address. */
  predicate Covers(s: Slot, mr: Region) {
    || s.mr.userspaceAddr <= mr.userspaceAddr < s.mr.userspaceAddr + s.mr.memorySize
    || s.mr.guestPhysAddr <= mr.guestPhysAddr < s.mr.guestPhysAddr + s.mr.memorySize
  }

  /** kkm->mem_slot and kkm->mem_slot_count. The last element of the array stands for the memory
      behind the table, which slot number MAX_MEMORY_SLOTS reads and writes as if it were a slot. */
  class SlotTable {
    const slots: array<Slot>
    var count: nat

    ghost predicate Valid()
      reads this, slots
    {
      && slots.Length == MAX_MEMORY_SLOTS + 1
      && (forall i :: 0 <= i < MAX_MEMORY_SLOTS ==> WellFormed(slots[i]))
      && count == Count(InUse, slots[..MAX_MEMORY_SLOTS])
    }

    constructor (behind: Slot)
      ensures Valid() && fresh(slots) && count == 0
      ensures slots[..] == seq(MAX_MEMORY_SLOTS, _ => EMPTY) + [behind]
    {
      slots := new Slot[MAX_MEMORY_SLOTS + 1](i => if i < MAX_MEMORY_SLOTS then EMPTY else behind);
      count := 0;
      new;
      CountIsZero(InUse, slots[..MAX_MEMORY_SLOTS]);
    }

    /** The call without its copy from user space; a change of the table ends with a sync. */
    method SetMemory(mr: Region, memory: PhysicalMemory, h: Host, k: Kontainer) returns (ret: int)
      requires Valid()
      modifies this, slots, memory
      ensures Valid() <==> ret != 0 || mr.slot != MAX_MEMORY_SLOTS
      ensures ret == if Accepted(old(slots[..]), mr) then 0 else -EINVAL
      ensures slots[..] == if ret != 0 then old(slots[..])
                           else old(slots[..])[mr.slot := if mr.memorySize == 0 then EMPTY else SlotFor(mr)]
      ensures count == if ret != 0 then old(count)
                       else if mr.memorySize == 0 then (old(count) - 1) % TWO_32 else (old(count) + 1) % TWO_32
      ensures memory.words == if ret != 0 then old(memory.words) else Synced(h, k, old(memory.words))
    {
      CountAtMost(InUse, slots[..MAX_MEMORY_SLOTS]);
      if SlotRefused(mr.slot) {
        return -EINVAL;
      }
      if !Aligned(mr) {
        return -EINVAL;
      }
      if mr.memorySize == 0 && !slots[mr.slot].used {
        return -EINVAL;
      }
      if mr.memorySize != 0 && slots[mr.slot].used {
        return -EINVAL;
      }
      ret := 0;
      ghost var table := slots[..MAX_MEMORY_SLOTS];
      var value := if mr.memorySize == 0 then EMPTY else SlotFor(mr);
      if mr.memorySize == 0 {
        slots[mr.slot] := value;
        count := (count - 1) % TWO_32;
      } else {
        var i := 0;
        while i < MAX_MEMORY_SLOTS
          invariant ret == 0
        {
          if !slots[i].used && Covers(slots[i], mr) {
            ret := -EINVAL;
            break;
          }
          i := i + 1;
        }
        slots[mr.slot] := value;
        count := (count + 1) % TWO_32;
      }
      if mr.slot < MAX_MEMORY_SLOTS {
        CountUpdate(InUse, table, mr.slot, value);
        assert slots[..MAX_MEMORY_SLOTS] == table[mr.slot := value];
      } else {
        assert slots[..MAX_MEMORY_SLOTS] == table;
      }
      assert slots[..] == old(slots[..])[mr.slot := value];
      memory.Sync(h, k);
    }
  }
}
