/** How exit code finds its way: the page pair behind cr3, and the area behind the stack pointer. */
module Anchors {
  import opened Constants
  import opened Machine

  const PAIR_BIT: nat := 12        // set in the address of the second page of a pair
  const AREA_BITS: nat := 13       // the guest area has 8192 bytes

  function Pow2(n: nat): (p: nat)
    ensures p > 0
  {
    if n == 0 then 1 else 2 * Pow2(n - 1)
  }

  lemma {:induction false} LowBitsCleared(q: int, v: int, n: nat)
    requires q * Pow2(n) <= v < (q + 1) * Pow2(n)
    ensures BitsCleared(v, 0, n) == q * Pow2(n)
    decreases n
  {
    if n > 0 {
      var p := Pow2(n - 1);
      assert q * Pow2(n) == 2 * (q * p) && (q + 1) * Pow2(n) == 2 * ((q + 1) * p);
      LowBitsCleared(q, v / 2, n - 1);
    }
  }

  /** v is a multiple of 2 to the n+1, bit n, and a remainder. */
  lemma {:induction false} OneBitCleared(a: int, bit: int, rest: int, n: nat)
    requires 0 <= bit <= 1 && 0 <= rest < Pow2(n)
    ensures BitsCleared(a * Pow2(n + 1) + bit * Pow2(n) + rest, n, n + 1) == a * Pow2(n + 1) + rest
  {
    var v := a * Pow2(n + 1) + bit * Pow2(n) + rest;
    if n == 0 {
      assert Pow2(0) == 1 && Pow2(1) == 2 && v == 2 * a + bit;
      assert BitsCleared(v, 0, 1) == 2 * BitsCleared(v / 2, 0, 0);
    } else {
      var p := Pow2(n - 1);
      var h := a * Pow2(n) + bit * p + rest / 2;
      assert a * Pow2(n + 1) == 2 * (a * Pow2(n)) && bit * Pow2(n) == 2 * (bit * p);
      assert v == 2 * h + rest % 2;
      OneBitCleared(a, bit, rest / 2, n - 1);
    }
  }

  lemma TwelveAndThirteen()
    ensures Pow2(12) == 4096 && Pow2(13) == 8192
  {
    assert Pow2(4) == 16;
    assert Pow2(8) == 256;
  }

  /** kkm_kontainer_allocate_lvl_pages: a first page with bit 12 of its address set is refused. */
  predicate PairAccepted(va: int) {
    va / PAGE_SIZE % 2 == 0
  }

  /** The payload's cr3 as kkm_kontext_init sets it, for a pair whose first page is at pa. */
  function PayloadCr3(pa: int, pcid: int): int {
    pa + PAGE_SIZE + pcid
  }

  /** Clearing bit 12 of the payload's cr3 leads to the guest kernel's table exactly for the pairs the
      allocator accepts; offset is what the kernel's direct map adds to a physical address. */
  lemma Cr3FindsGuestKernel(va: int, offset: int, pcid: int)
    requires va % PAGE_SIZE == 0 && offset % (2 * PAGE_SIZE) == 0 && 0 <= pcid < PAGE_SIZE
    ensures BitsCleared(PayloadCr3(va - offset, pcid), PAIR_BIT, PAIR_BIT + 1) == va - offset + pcid <==> PairAccepted(va)
  {
    var p := PairParts(va, offset);
    BitTwelveCleared(p.0, p.1, pcid);
  }

  /** The second page's physical address, and how bit 12 of it depends on the first page's. */
  function PairParts(va: int, offset: int): (r: (int, int))
    requires va % PAGE_SIZE == 0 && offset % (2 * PAGE_SIZE) == 0
    ensures 0 <= r.1 <= 1 && va - offset + PAGE_SIZE == r.0 * 8192 + r.1 * 4096
    ensures PairAccepted(va) <==> r.1 == 1
  {
    var m := (va - offset) / PAGE_SIZE;
    ((m + 1) / 2, (m + 1) % 2)
  }

  lemma BitTwelveCleared(a: int, bit: int, rest: int)
    requires 0 <= bit <= 1 && 0 <= rest < PAGE_SIZE
    ensures BitsCleared(a * 8192 + bit * 4096 + rest, PAIR_BIT, PAIR_BIT + 1) == a * 8192 + rest
  {
    TwelveAndThirteen();
    OneBitCleared(a, bit, rest, PAIR_BIT);
  }

  /** Any stack pointer inside the area leads to its start. */
  lemma RspFindsArea(g: int, rsp: int)
    requires g % 8192 == 0 && g <= rsp < g + 8192
    ensures BitsCleared(rsp, 0, AREA_BITS) == g
  {
    TwelveAndThirteen();
    LowBitsCleared(g / 8192, rsp, AREA_BITS);
  }
}
