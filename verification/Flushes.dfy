/** When the entry and exit code empty the TLB: the values they write to cr4. Writing it with bit 7, which
    keeps global translations, changed drops everything (Intel SDM Vol. 3A section 4.10.4.1). */
module Flushes {
  import opened Constants
  import opened Machine
  import opened Straight
  import opened Anchors
  import opened TlbFlush
  import opened EntryCode
  import opened ExitCode
  import opened CHalves
  import opened HostReturn

  /** The values a program writes to cr4, in order. */
  function Cr4Writes(p: seq<Instr>, s: State): seq<int>
    decreases p, 1
  {
    if p == [] then [] else Cr4Write(p[0], s) + Cr4Writes(p[1..], Step(p[0], s))
  }

  function Cr4Write(i: Instr, s: State): seq<int>
    decreases i, 0
  {
    match i
    case Mov(src, dst) => if dst == At(S(Cr4)) then [Value(s, src)] else []
    case Pop(dst) => if dst == At(S(Cr4)) then [Get(s, M(Get(s, R(Rsp))))] else []
    case WhenZero(r, body) => if Get(s, R(r)) == 0 then Cr4Writes(body, s) else []
    case WhenUser(offset, body) => if Get(s, M(Get(s, R(Rsp)) + offset)) % 4 != 0 then Cr4Writes(body, s) else []
    case _ => []
  }

  lemma {:induction false} WritesAppend(p: seq<Instr>, q: seq<Instr>, s: State)
    ensures Cr4Writes(p + q, s) == Cr4Writes(p, s) + Cr4Writes(q, Exec(p, s))
    decreases |p|
  {
    if p == [] {
      assert p + q == q;
    } else {
      assert (p + q)[1..] == p[1..] + q;
      WritesAppend(p[1..], q, Step(p[0], s));
    }
  }

  lemma WritesOne(i: Instr, s: State)
    ensures Cr4Writes([i], s) == Cr4Write(i, s)
  {
    assert [i][1..] == [];
  }

  lemma WritesTwo(i: Instr, j: Instr, s: State)
    ensures Cr4Writes([i] + [j], s) == Cr4Write(i, s) + Cr4Write(j, Step(i, s))
  {
    WritesAppend([i], [j], s);
    WritesOne(i, s);
    WritesOne(j, Step(i, s));
  }

  /** No instruction of the program names cr4 as its target, or has a body. */
  predicate LeavesCr4(p: seq<Instr>) {
    forall i :: i in p ==> !(i.Mov? && i.dst == At(S(Cr4))) && !(i.Pop? && i.dst == At(S(Cr4))) && !i.WhenZero? && !i.WhenUser?
  }

  lemma LeavesBoth(p: seq<Instr>, q: seq<Instr>)
    requires LeavesCr4(p) && LeavesCr4(q)
    ensures LeavesCr4(p + q)
  {
  }

  lemma {:induction false} LeavesWritesNothing(p: seq<Instr>, s: State)
    requires LeavesCr4(p)
    ensures Cr4Writes(p, s) == []
    decreases |p|
  {
    if p != [] {
      assert p[0] in p;
      LeavesWritesNothing(p[1..], Step(p[0], s));
    }
  }

  lemma {:induction false} PushesLeave(os: seq<Operand>)
    ensures LeavesCr4(Pushes(os))
  {
    if os != [] { PushesLeave(os[1..]); }
  }

  lemma {:induction false} LoadsLeave(rs: seq<Reg>)
    ensures LeavesCr4(Loads(rs))
  {
    if rs != [] { LoadsLeave(rs[1..]); }
  }

  lemma {:induction false} SavesLeave(rs: seq<Reg>)
    ensures LeavesCr4(Saves(rs))
  {
    if rs != [] { SavesLeave(rs[1..]); }
  }

  lemma {:induction false} PopsLeave(rs: seq<Reg>)
    ensures LeavesCr4(Pops(rs))
  {
    if rs != [] { PopsLeave(rs[1..]); }
  }

  lemma {:induction false} CopiesLeave(scratch: Reg, os: seq<Operand>, off: int)
    ensures LeavesCr4(Copies(scratch, os, off))
  {
    if os != [] { CopiesLeave(scratch, os[1..], off + 8); }
  }

  /* ---- the flush ---- */

  /** Bit 7 the other way round. */
  function Toggled(v: int): int {
    if v / 128 % 2 == 0 then v + 128 else v - 128
  }

  /** cr4 with bit 7 changed, and then cr4 as it was. */
  function Flush(cr4: int): seq<int> { [Toggled(cr4), cr4] }

  lemma ToggleWrites(r: Reg, s: State)
    ensures Cr4Writes(ToggleCr4(r), s) == [Toggled(Get(s, R(r)))]
  {
    WritesTwo(ToggleBit7(r), Mov(At(R(r)), At(S(Cr4))), s);
  }

  lemma FlushTlbWrites(a: Reg, b: Reg, s: State)
    requires a != b
    ensures Cr4Writes(FlushTlb(a, b), s) == Flush(Get(s, S(Cr4)))
  {
    var last := Mov(At(R(b)), At(S(Cr4)));
    var s1 := Exec(CopyCr4(a, b), s);
    WritesAppend(CopyCr4(a, b) + ToggleCr4(a), [last], s);
    WritesAppend(CopyCr4(a, b), ToggleCr4(a), s);
    ExecAppend(CopyCr4(a, b), ToggleCr4(a), s);
    LeavesWritesNothing(CopyCr4(a, b), s);
    ToggleWrites(a, s1);
    CopyKeepsBoth(a, b, s);
    AfterToggleCr4(a, s1);
    WritesOne(last, Exec(ToggleCr4(a), s1));
  }

  lemma CopyKeepsBoth(a: Reg, b: Reg, s: State)
    requires a != b
    ensures var s1 := Exec(CopyCr4(a, b), s); Get(s1, R(a)) == Get(s1, R(b)) == Get(s, S(Cr4))
  {
    var i, j := Mov(At(S(Cr4)), At(R(a))), Mov(At(R(a)), At(R(b)));
    ExecOne(i, [j], s);
    MovEffect(At(S(Cr4)), At(R(a)), s);
    MovEffect(At(R(a)), At(R(b)), Step(i, s));
  }

  lemma FlushByPushWrites(r: Reg, s: State)
    requires r != Rsp
    ensures Cr4Writes(FlushByPush(r), s) == Flush(Get(s, S(Cr4)))
  {
    var s1 := Exec(KeepCr4(r), s);
    var s2 := Exec(ToggleCr4(r), s1);
    WritesAppend(KeepCr4(r) + ToggleCr4(r), PutBackCr4(r), s);
    WritesAppend(KeepCr4(r), ToggleCr4(r), s);
    ExecAppend(KeepCr4(r), ToggleCr4(r), s);
    LeavesWritesNothing(KeepCr4(r), s);
    ToggleWrites(r, s1);
    KeepKeepsBoth(r, s);
    AfterToggleCr4(r, s1);
    WritesTwo(Pop(At(R(r))), Mov(At(R(r)), At(S(Cr4))), s2);
    PopEffect(R(r), s2);
  }

  lemma KeepKeepsBoth(r: Reg, s: State)
    requires r != Rsp
    ensures var s1 := Exec(KeepCr4(r), s); Get(s1, R(r)) == Get(s1, M(Get(s1, R(Rsp)))) == Get(s, S(Cr4))
  {
    var i, j := Mov(At(S(Cr4)), At(R(r))), Push(At(R(r)));
    ExecOne(i, [j], s);
    MovEffect(At(S(Cr4)), At(R(r)), s);
    PushEffect(At(R(r)), Step(i, s));
  }

  lemma {:induction false} HighBitsCleared(v: int, low: nat, high: nat)
    requires low <= high && 0 <= v < Pow2(high)
    ensures BitsCleared(v, low, high) == v % Pow2(low)
    decreases high
  {
    if high > 0 {
      assert Pow2(high) == 2 * Pow2(high - 1);
      if low == 0 {
        HighBitsCleared(v / 2, 0, high - 1);
      } else {
        HighBitsCleared(v / 2, low - 1, high - 1);
        EvenAndOdd(v, Pow2(low - 1));
      }
    }
  }

  lemma EvenAndOdd(v: int, p: int)
    requires p > 0 && v >= 0
    ensures v % (2 * p) == v % 2 + 2 * (v / 2 % p)
  {
    var h, q, r := v / 2, v / 2 / p, v / 2 % p;
    assert h == q * p + r && v == 2 * h + v % 2;
    assert v == q * (2 * p) + (2 * r + v % 2);
    assert 0 <= 2 * r + v % 2 < 2 * p;
    Quotients(v, 2 * p, q, 2 * r + v % 2);
  }

  lemma Quotients(v: int, d: int, q: int, r: int)
    requires d > 0 && v == q * d + r && 0 <= r < d
    ensures v % d == r
  {
    assert (v / d - q) * d == r - v % d;
    FarMultiple(v / d - q, d);
  }

  lemma FarMultiple(a: int, d: int)
    requires d > 0
    ensures (a >= 1 ==> a * d >= d) && (a <= -1 ==> a * d <= -d)
  {
  }

  lemma Pow64()
    ensures Pow2(8) == 256 && Pow2(64) == 0x1_0000_0000_0000_0000
  {
    assert Pow2(8) == 256;
    assert Pow2(16) == 0x1_0000;
    assert Pow2(24) == 0x100_0000;
    assert Pow2(32) == 0x1_0000_0000;
    assert Pow2(40) == 0x100_0000_0000;
    assert Pow2(48) == 0x1_0000_0000_0000;
    assert Pow2(56) == 0x100_0000_0000_0000;
  }

  lemma LowByte(v: int)
    requires 0 <= v < 0x1_0000_0000_0000_0000
    ensures BitsCleared(v, 8, 64) == v % 256
  {
    Pow64();
    HighBitsCleared(v, 8, 64);
  }

  lemma ClearWrites(r: Reg, s: State)
    requires 0 <= Get(s, R(r)) < 0x1_0000_0000_0000_0000
    ensures Get(Step(ClearBits(r, 8, 64), s), R(r)) == Get(s, R(r)) % 256
  {
    LowByte(Get(s, R(r)));
  }

  /** The check before the flush: nothing in the low byte of what r holds, which is cr3. */
  lemma CheckWrites(r: Reg, body: seq<Instr>, s: State)
    requires 0 <= Get(s, R(r)) < 0x1_0000_0000_0000_0000
    ensures Cr4Writes(FlushUnlessTagged(r, body), s) ==
            if Get(s, R(r)) % 256 == 0 then Cr4Writes(body, Step(ClearBits(r, 8, 64), s)) else []
  {
    ClearWrites(r, s);
    WritesTwo(ClearBits(r, 8, 64), WhenZero(r, body), s);
  }

  lemma CheckedFlushWrites(r: Reg, a: Reg, b: Reg, s: State)
    requires a != b && 0 <= Get(s, R(r)) < 0x1_0000_0000_0000_0000
    ensures Cr4Writes(FlushUnlessTagged(r, FlushTlb(a, b)), s) == if Get(s, R(r)) % 256 == 0 then Flush(Get(s, S(Cr4))) else []
  {
    CheckWrites(r, FlushTlb(a, b), s);
    AfterClearBits(r, s);
    FlushTlbWrites(a, b, Step(ClearBits(r, 8, 64), s));
  }

  lemma CheckedPushWrites(r: Reg, s: State)
    requires r != Rsp && 0 <= Get(s, R(r)) < 0x1_0000_0000_0000_0000
    ensures Cr4Writes(FlushUnlessTagged(r, FlushByPush(r)), s) == if Get(s, R(r)) % 256 == 0 then Flush(Get(s, S(Cr4))) else []
  {
    CheckWrites(r, FlushByPush(r), s);
    AfterClearBits(r, s);
    FlushByPushWrites(r, Step(ClearBits(r, 8, 64), s));
  }

  /** A program of three parts, of which only the middle one may write cr4. */
  lemma MiddleWrites(p: seq<Instr>, q: seq<Instr>, t: seq<Instr>, s: State)
    requires LeavesCr4(p) && LeavesCr4(t)
    ensures Cr4Writes(p + q + t, s) == Cr4Writes(q, Exec(p, s))
  {
    WritesAppend(p + q, t, s);
    WritesAppend(p, q, s);
    LeavesWritesNothing(p, s);
    LeavesWritesNothing(t, Exec(p + q, s));
  }

  /* ---- the three switches of the address space ---- */

  lemma ContextLeaves(saved: seq<Reg>, first: seq<Reg>, last: seq<Reg>, frame: seq<Operand>)
    ensures LeavesCr4(LoadContext(saved, first, last) + ToIretStack() + Pushes(frame))
  {
    ListsLeave(Regs(saved), first, PushRspAndRdi(), last);
    PushesLeave(frame);
    LeavesBoth(LoadContext(saved, first, last), ToIretStack());
    LeavesBoth(LoadContext(saved, first, last) + ToIretStack(), Pushes(frame));
  }

  lemma ListsLeave(os: seq<Operand>, first: seq<Reg>, p: seq<Instr>, last: seq<Reg>)
    requires LeavesCr4(p)
    ensures LeavesCr4(Pushes(os) + Loads(first) + p + Loads(last))
  {
    PushesLeave(os);
    LoadsLeave(first);
    LoadsLeave(last);
    LeavesBoth(Pushes(os), Loads(first));
    LeavesBoth(Pushes(os) + Loads(first), p);
    LeavesBoth(Pushes(os) + Loads(first) + p, Loads(last));
  }

  lemma PayloadLeaves(popped: seq<Reg>)
    ensures LeavesCr4(EnterPayload(popped))
  {
    PopsLeave(popped);
  }

  /** cr3 as loaded, still in rax. */
  lemma Cr3InRax(s: State)
    ensures var p := MoveVia(Imm(0), Rax, Cr2) + MoveVia(Mem(Rdi, OFF_GP_CR3), Rax, Cr3);
            var s' := Exec(p, s);
            Get(s', R(Rax)) == Get(s, M(Get(s, R(Rdi)) + 40)) && Get(s', S(Cr4)) == Get(s, S(Cr4)) && LeavesCr4(p)
  {
    var p, q := MoveVia(Imm(0), Rax, Cr2), MoveVia(Mem(Rdi, OFF_GP_CR3), Rax, Cr3);
    ExecAppend(p, q, s);
    AfterMoveVia(Imm(0), Rax, Cr2, s);
    AfterMoveVia(Mem(Rdi, OFF_GP_CR3), Rax, Cr3, Exec(p, s));
    ViaLeavesValue(Mem(Rdi, OFF_GP_CR3), Rax, Cr3, Exec(p, s));
  }

  lemma ViaLeavesValue(o: Operand, r: Reg, x: Sys, s: State)
    ensures Get(Exec(MoveVia(o, r, x), s), R(r)) == Value(s, o)
  {
    var i, j := Mov(o, At(R(r))), Mov(At(R(r)), At(S(x)));
    ExecOne(i, [j], s);
    MovEffect(o, At(R(r)), s);
    MovEffect(At(R(r)), At(S(x)), Step(i, s));
  }

  lemma Cr3LoadWrites(s: State)
    requires 0 <= Get(s, M(Get(s, R(Rdi)) + 40)) < 0x1_0000_0000_0000_0000
    ensures Cr4Writes(LoadCr3(), s) == if Get(s, M(Get(s, R(Rdi)) + 40)) % 256 == 0 then Flush(Get(s, S(Cr4))) else []
  {
    var p := MoveVia(Imm(0), Rax, Cr2) + MoveVia(Mem(Rdi, OFF_GP_CR3), Rax, Cr3);
    Cr3InRax(s);
    WritesAppend(p, FlushUnlessTagged(Rax, FlushTlb(Rax, Rbx)), s);
    LeavesWritesNothing(p, s);
    CheckedFlushWrites(Rax, Rax, Rbx, Exec(p, s));
  }

  lemma IretStackKeeps(s: State, s': State)
    requires OnGuestStack(s, Get(s, R(Rdi))) && OnIretStack(s, s')
    ensures Get(s', R(Rdi)) == Get(s, R(Rdi)) && Get(s', M(Get(s, R(Rdi)) + 40)) == Get(s, M(Get(s, R(Rdi)) + 40))
    ensures Get(s', S(Cr4)) == Get(s, S(Cr4))
  {
  }

  /** Entering the payload empties the TLB if and only if the payload's cr3 has nothing in its low byte. */
  lemma EntryFlushes(s: State)
    requires OnGuestStack(s, Get(s, R(Rdi))) && 0 <= Get(s, M(Get(s, R(Rdi)) + 40)) < 0x1_0000_0000_0000_0000
    ensures Cr4Writes(SwitchToGp(FirstLoads(), LastLoads(), LastPops()), s) ==
            if Get(s, M(Get(s, R(Rdi)) + 40)) % 256 == 0 then Flush(Get(s, S(Cr4))) else []
  {
    ContextLeaves(CALLEE_SAVED, FirstLoads(), LastLoads(), IretFrame());
    PayloadLeaves(LastPops());
    AfterFirstPrograms(s);
    EntryParts(LoadContext(CALLEE_SAVED, FirstLoads(), LastLoads()) + ToIretStack() + Pushes(IretFrame()), EnterPayload(LastPops()), s);
  }

  lemma EntryParts(p: seq<Instr>, t: seq<Instr>, s: State)
    requires OnGuestStack(s, Get(s, R(Rdi))) && 0 <= Get(s, M(Get(s, R(Rdi)) + 40)) < 0x1_0000_0000_0000_0000
    requires LeavesCr4(p) && LeavesCr4(t) && OnIretStack(s, Exec(p, s))
    ensures Cr4Writes(p + LoadCr3() + t, s) == if Get(s, M(Get(s, R(Rdi)) + 40)) % 256 == 0 then Flush(Get(s, S(Cr4))) else []
  {
    MiddleWrites(p, LoadCr3(), t, s);
    IretStackKeeps(s, Exec(p, s));
    Cr3LoadWrites(Exec(p, s));
  }

  lemma ClearedInRdi(s: State)
    ensures var s' := Exec(ClearInCr3(12, 13), s);
            Get(s', R(Rdi)) == BitsCleared(Get(s, S(Cr3)), 12, 13) && Get(s', S(Cr4)) == Get(s, S(Cr4)) && LeavesCr4(ClearInCr3(12, 13))
  {
    var i, j, k := Mov(At(S(Cr3)), At(R(Rdi))), ClearBits(Rdi, 12, 13), Mov(At(R(Rdi)), At(S(Cr3)));
    ExecThree([i], [j], [k], s);
    MovEffect(At(S(Cr3)), At(R(Rdi)), s);
    MovEffect(At(R(Rdi)), At(S(Cr3)), Step(j, Step(i, s)));
  }

  lemma {:induction false} ClearedAtMost(v: int, n: nat)
    requires v >= 0
    ensures 0 <= BitsCleared(v, n, n + 1) <= v
    decreases n
  {
    if n == 0 {
      assert BitsCleared(v, 0, 1) == 2 * BitsCleared(v / 2, 0, 0);
    } else {
      ClearedAtMost(v / 2, n - 1);
    }
  }

  /** Clearing bit n keeps what is below it. */
  lemma {:induction false} OneBitLess(v: int, n: nat)
    requires v >= 0
    ensures BitsCleared(v, n, n + 1) % Pow2(n) == v % Pow2(n)
    decreases n
  {
    if n > 0 {
      ClearedAtMost(v / 2, n - 1);
      OneBitLess(v / 2, n - 1);
      OneBitStep(v, BitsCleared(v, n, n + 1), BitsCleared(v / 2, n - 1, n), Pow2(n - 1), Pow2(n));
    }
  }

  lemma OneBitStep(v: int, c: int, h: int, p: int, q: int)
    requires p > 0 && q == 2 * p && v >= 0 && h >= 0 && c == v % 2 + 2 * h && h % p == v / 2 % p
    ensures c % q == v % q
  {
    assert c % 2 == v % 2 && c / 2 == h;
    SameBelowBit(v, c, p);
  }

  lemma SameBelowBit(v: int, c: int, p: int)
    requires v >= 0 && c >= 0 && p > 0 && c % 2 == v % 2 && c / 2 % p == v / 2 % p
    ensures c % (2 * p) == v % (2 * p)
  {
    EvenAndOdd(v, p);
    EvenAndOdd(c, p);
  }

  lemma ClearedLowByte(v: int)
    requires 0 <= v < 0x1_0000_0000_0000_0000
    ensures var c := BitsCleared(v, 12, 13); 0 <= c < 0x1_0000_0000_0000_0000 && c % 256 == v % 256
  {
    TwelveAndThirteen();
    ClearedAtMost(v, 12);
    OneBitLess(v, 12);
    LowByteOf(v, BitsCleared(v, 12, 13));
  }

  lemma LowByteOf(x: int, y: int)
    requires x % 4096 == y % 4096
    ensures x % 256 == y % 256
  {
    var r := x % 4096;
    Quotients(x, 256, 16 * (x / 4096) + r / 256, r % 256);
    Quotients(y, 256, 16 * (y / 4096) + r / 256, r % 256);
  }

  lemma SwitchCr3Writes(s: State)
    requires 0 <= Get(s, S(Cr3)) < 0x1_0000_0000_0000_0000
    ensures Cr4Writes(SwitchCr3(), s) == if Get(s, S(Cr3)) % 256 == 0 then Flush(Get(s, S(Cr4))) else []
  {
    ClearedInRdi(s);
    ClearedLowByte(Get(s, S(Cr3)));
    WritesAppend(ClearInCr3(12, 13), FlushUnlessTagged(Rdi, FlushByPush(Rdi)), s);
    LeavesWritesNothing(ClearInCr3(12, 13), s);
    CheckedPushWrites(Rdi, Exec(ClearInCr3(12, 13), s));
  }

  lemma FindAreaWrites(s: State)
    requires 0 <= Get(s, S(Cr3)) < 0x1_0000_0000_0000_0000
    ensures Cr4Writes(FindArea(), s) == if Get(s, S(Cr3)) % 256 == 0 then Flush(Get(s, S(Cr4))) else []
  {
    var i := Mov(At(R(Rsp)), At(R(Rsi)));
    MiddleWrites([i], SwitchCr3(), MaskRsp(), s);
    MovEffect(At(R(Rsp)), At(R(Rsi)), s);
    SwitchCr3Writes(Step(i, s));
  }

  lemma HostKernelLeaves()
    ensures LeavesCr4(ToHostKernel())
  {
  }

  lemma ParametersLeave(high: seq<Reg>, low: seq<Reg>, control: seq<Operand>, trapInfo: seq<Operand>)
    ensures LeavesCr4(SaveRegs(high, low) + SaveInfo(control, trapInfo))
  {
    var a, b, c := Copies(Rbp, [Mem(Rsi, 56)], Off(Rsp)), Copies(Rbp, [Mem(Rsi, 8)], Off(Rdi)), Copies(Rbp, [Mem(Rsi, 0)], Off(Rsi));
    SavesLeave(high);
    SavesLeave(low);
    CopiesLeave(Rbp, [Mem(Rsi, 56)], Off(Rsp));
    CopiesLeave(Rbp, [Mem(Rsi, 8)], Off(Rdi));
    CopiesLeave(Rbp, [Mem(Rsi, 0)], Off(Rsi));
    CopiesLeave(Rax, control, OFF_CR0);
    CopiesLeave(Rbp, trapInfo, OFF_TI_ERROR);
    LeavesBoth(a, b);
    LeavesBoth(a + b, c);
    LeavesBoth(Saves(high), a + b + c);
    LeavesBoth(Saves(high) + (a + b + c), Saves(low));
    LeavesBoth(Copies(Rax, control, OFF_CR0), Copies(Rbp, trapInfo, OFF_TI_ERROR));
    LeavesBoth(SaveRegs(high, low), SaveInfo(control, trapInfo));
  }

  /** Leaving it: likewise, by the low byte of the payload's cr3. */
  lemma ExitFlushes(s: State)
    requires 0 <= Get(s, S(Cr3)) < 0x1_0000_0000_0000_0000
    ensures Cr4Writes(IntrCommon(HighRegs(), LowRegs()), s) == if Get(s, S(Cr3)) % 256 == 0 then Flush(Get(s, S(Cr4))) else []
  {
    var p, t := Pushes([At(R(Rdi)), At(R(Rsi))]), SaveRegs(HighRegs(), LowRegs()) + SaveInfo(Control(), TrapInfo());
    PushesLeave([At(R(Rdi)), At(R(Rsi))]);
    ParametersLeave(HighRegs(), LowRegs(), Control(), TrapInfo());
    HostKernelLeaves();
    WritesAppend(p + FindArea() + t, ToHostKernel(), s);
    LeavesWritesNothing(ToHostKernel(), Exec(p + FindArea() + t, s));
    MiddleWrites(p, FindArea(), t, s);
    AfterTwoPushes(s);
    FindAreaWrites(Exec(p, s));
  }

  /** Returning to the native kernel: by the low byte of its cr3, in rdi. */
  lemma ReturnFlushes(s: State)
    requires 0 <= Get(s, R(Rdi)) < 0x1_0000_0000_0000_0000
    ensures Cr4Writes(SwitchToHk(HostPops()), s) == if Get(s, R(Rdi)) % 256 == 0 then Flush(Get(s, S(Cr4))) else []
  {
    ReturnParts(HostPops(), s);
  }

  lemma ReturnParts(popped: seq<Reg>, s: State)
    requires 0 <= Get(s, R(Rdi)) < 0x1_0000_0000_0000_0000
    ensures Cr4Writes(SwitchToHk(popped), s) == if Get(s, R(Rdi)) % 256 == 0 then Flush(Get(s, S(Cr4))) else []
  {
    var first, check, stack := One(Move(At(R(Rdi)), S(Cr3))), FlushUnlessTagged(Rdi, FlushTlb(Rax, Rbx)), One(Move(At(R(Rsi)), R(Rsp)));
    PopsLeave(popped);
    LeavesBoth(Pops(popped), [Ret]);
    WritesAppend(first + check + stack, Pops(popped) + [Ret], s);
    LeavesWritesNothing(Pops(popped) + [Ret], Exec(first + check + stack, s));
    MiddleWrites(first, check, stack, s);
    AfterOne(Move(At(R(Rdi)), S(Cr3)), s);
    CheckedFlushWrites(Rdi, Rax, Rbx, Exec(first, s));
  }
}
