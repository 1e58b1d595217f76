/** The payload's rflags, bit by bit. */
module Flags {
  import opened Machine
  import opened Anchors

  const TF := 8
  const IF := 9
  const IOPL := 12   // two bits
  const RF := 16

  /** KKM_GUESTDBG_ENABLE and KKM_GUESTDBG_SINGLESTEP */
  const DEBUG_ENABLE := 0
  const SINGLE_STEP := 1

  function Bit(v: int, n: nat): int
    decreases n
  {
    if n == 0 then v % 2 else Bit(v / 2, n - 1)
  }

  function BitSet(v: int, n: nat): int
    decreases n
  {
    if n == 0 then v / 2 * 2 + 1 else v % 2 + 2 * BitSet(v / 2, n - 1)
  }

  lemma {:induction false} BitOfSet(v: int, n: nat, m: nat)
    ensures Bit(BitSet(v, n), m) == if m == n then 1 else Bit(v, m)
    decreases n
  {
    if n > 0 {
      assert BitSet(v, n) / 2 == BitSet(v / 2, n - 1);
      if m > 0 { BitOfSet(v / 2, n - 1, m - 1); }
    } else {
      assert BitSet(v, 0) / 2 == v / 2;
    }
  }

  lemma {:induction false} BitOfCleared(v: int, low: nat, high: nat, m: nat)
    ensures Bit(BitsCleared(v, low, high), m) == if low <= m < high then 0 else Bit(v, m)
    decreases high
  {
    if high > 0 && m > 0 {
      if low == 0 {
        assert BitsCleared(v, 0, high) / 2 == BitsCleared(v / 2, 0, high - 1);
        BitOfCleared(v / 2, 0, high - 1, m - 1);
      } else {
        assert BitsCleared(v, low, high) / 2 == BitsCleared(v / 2, low - 1, high - 1);
        BitOfCleared(v / 2, low - 1, high - 1, m - 1);
      }
    }
  }

  /** Bit n is the binary digit of 2 to the n. */
  lemma {:induction false} BitIsDigit(v: int, n: nat)
    ensures Bit(v, n) == v / Pow2(n) % 2
    decreases n
  {
    if n > 0 {
      BitIsDigit(v / 2, n - 1);
      HalvesCompose(v, Pow2(n - 1));
    }
  }

  lemma HalvesCompose(v: int, p: int)
    requires p > 0
    ensures v / 2 / p == v / (2 * p)
  {
    var q, r := v / 2 / p, v / 2 % p;
    assert v / 2 == q * p + r && v == 2 * (v / 2) + v % 2;
    assert v == q * (2 * p) + (2 * r + v % 2) && 0 <= 2 * r + v % 2 < 2 * p;
    QuotientIs(v, 2 * p, q, 2 * r + v % 2);
  }

  lemma QuotientIs(v: int, d: int, q: int, r: int)
    requires d > 0 && v == q * d + r && 0 <= r < d
    ensures v / d == q
  {
    assert (v / d - q) * d == r - v % d;
    NoMultipleBetween(v / d - q, d);
  }

  lemma NoMultipleBetween(a: int, d: int)
    requires d > 0
    ensures (a >= 1 ==> a * d >= d) && (a <= -1 ==> a * d <= -d)
  {
  }

  predicate Stepping(control: int) {
    Bit(control, DEBUG_ENABLE) == 1 && Bit(control, SINGLE_STEP) == 1
  }

  /** Bit a set, bits b and b + 1 cleared, bit c set, each if need be, and bit d as told. */
  function Forced(v: int, a: nat, b: nat, c: nat, d: nat, on: bool): int {
    var v1 := if Bit(v, a) == 0 then BitSet(v, a) else v;
    var v2 := if Bit(v1, b) != 0 || Bit(v1, b + 1) != 0 then BitsCleared(v1, b, b + 2) else v1;
    var v3 := if Bit(v2, c) == 0 then BitSet(v2, c) else v2;
    if on then BitSet(v3, d) else BitsCleared(v3, d, d + 1)
  }

  /** What kkm_guest_kernel_start_payload makes of the monitor's rflags. */
  function FlagsForPayload(flags: int, control: int): int {
    Forced(flags, IF, IOPL, RF, TF, Stepping(control))
  }

  lemma BitIsBinary(v: int, n: nat)
    ensures Bit(v, n) == 0 || Bit(v, n) == 1
    decreases n
  {
  }

  lemma ForcedBits(v: int, a: nat, b: nat, c: nat, d: nat, on: bool, m: nat)
    requires a != b && a != b + 1 && a != c && a != d && b != c && b + 1 != c && b != d && b + 1 != d && c != d
    ensures Bit(Forced(v, a, b, c, d, on), m) == (
              if m == a || m == c then 1 else if m == b || m == b + 1 then 0 else if m == d then if on then 1 else 0 else Bit(v, m))
  {
    var v1 := if Bit(v, a) == 0 then BitSet(v, a) else v;
    var v2 := if Bit(v1, b) != 0 || Bit(v1, b + 1) != 0 then BitsCleared(v1, b, b + 2) else v1;
    var v3 := if Bit(v2, c) == 0 then BitSet(v2, c) else v2;
    BitIsBinary(v, a);
    BitIsBinary(v2, c);
    BitOfSet(v, a, m);
    BitOfCleared(v1, b, b + 2, m);
    BitOfSet(v2, c, m);
    BitOfSet(v3, d, m);
    BitOfCleared(v3, d, d + 1, m);
  }

  predicate BitPromised(flags: int, control: int, payload: int, m: nat) {
    Bit(payload, m) == (
      if m == 9 || m == 16 then 1
      else if m == 12 || m == 13 then 0
      else if m == 8 then Bit(control, 0) * Bit(control, 1)
      else Bit(flags, m))
  }

  /** Interrupts are on, there is no I/O privilege, the resume flag is set, the payload traps after an
      instruction exactly when single-stepping is enabled, and every other flag is the monitor's. */
  ghost predicate AsPromised(flags: int, control: int, payload: int) {
    forall m: nat :: BitPromised(flags, control, payload, m)
  }

  lemma FlagsAsPromised(flags: int, control: int)
    ensures AsPromised(flags, control, FlagsForPayload(flags, control))
  {
    BitIsBinary(control, 0);
    BitIsBinary(control, 1);
    forall m: nat ensures BitPromised(flags, control, FlagsForPayload(flags, control), m) {
      ForcedBits(flags, IF, IOPL, RF, TF, Stepping(control), m);
    }
  }
}
