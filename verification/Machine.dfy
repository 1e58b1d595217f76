/** The few instructions kkm's entry and exit code uses, over registers and 8-byte words of memory,
    and what straight runs of them do. Words hold 64-bit numbers. */
module Machine {

  datatype Reg = Rax | Rbx | Rcx | Rdx | Rsi | Rdi | Rsp | Rbp | R8 | R9 | R10 | R11 | R12 | R13 | R14 | R15

  /** Control, segment and model-specific registers, the TSS stacks, and the extended state. */
  datatype Sys = Cr0 | Cr2 | Cr3 | Cr4 | Cr8 | Lstar | FsBase | GsBase | KernelGsBase
               | Ds | Es | Fs | Gs | Ss | Cs | Idt | Sp0 | Sp1 | Sp2 | Rip | Rflags | Xstate

  /** What struct kkm_kontext keeps of the host. */
  datatype Field = NativeCr3 | NativeCr4 | NativeLstar | NativeDs | NativeEs | NativeFs | NativeFsBase
                 | NativeGs | NativeGsBase | NativeKernelGsBase | NativeSs | KernelXstate | PayloadXstate

  datatype Loc = R(reg: Reg) | S(sys: Sys) | K(field: Field) | M(address: int)

  /** Registers and memory are one store; what was never written is 0. */
  type State = map<Loc, int>

  function Get(s: State, l: Loc): int {
    if l in s then s[l] else 0
  }

  function Set(s: State, l: Loc, v: int): State {
    s[l := v]
  }

  datatype Operand = Imm(constant: int) | At(place: Loc) | Mem(base: Reg, offset: int)

  /** Segment loads that reset a base register are instructions of their own. */
  datatype Instr =
    | Mov(src: Operand, dst: Operand)
    | Push(src: Operand)
    | Pop(dst: Operand)
    | Add(reg: Reg, n: int)
    | ClearBits(reg: Reg, low: nat, high: nat)     // and: bits low..high-1 become 0
    | ToggleBit7(reg: Reg)                         // xor $0x80
    | WhenZero(reg: Reg, body: seq<Instr>)         // cmpq $0; jne past the body
    | WhenUser(offset: int, body: seq<Instr>)      // testb $3, offset(%rsp); jz past the body
    | SwapGs
    | LoadFs(src: Operand)                         // resets the FS base
    | LoadGsIndex(src: Operand)                    // resets the inactive GS base
    | Ret
    | Iretq

  /** v with bits low to high - 1 cleared, in two's complement. */
  function BitsCleared(v: int, low: nat, high: nat): int
    decreases high, v
  {
    if high == 0 then v
    else if low == 0 then 2 * BitsCleared(v / 2, 0, high - 1)
    else v % 2 + 2 * BitsCleared(v / 2, low - 1, high - 1)
  }

  function Where(s: State, o: Operand): Loc
    requires !o.Imm?
  {
    if o.At? then o.place else M(Get(s, R(o.base)) + o.offset)
  }

  function Value(s: State, o: Operand): int {
    if o.Imm? then o.constant else Get(s, Where(s, o))
  }

  function Step(i: Instr, s: State): State
    decreases i, 0
  {
    match i
    case Mov(src, dst) => if dst.Imm? then s else Set(s, Where(s, dst), Value(s, src))
    case Push(src) =>
      var sp := Get(s, R(Rsp)) - 8;
      Set(Set(s, M(sp), Value(s, src)), R(Rsp), sp)
    case Pop(dst) =>
      var sp := Get(s, R(Rsp));
      if dst.At? then Set(Set(s, R(Rsp), sp + 8), dst.place, Get(s, M(sp))) else s
    case Add(r, n) => Set(s, R(r), Get(s, R(r)) + n)
    case ClearBits(r, low, high) => Set(s, R(r), BitsCleared(Get(s, R(r)), low, high))
    case ToggleBit7(r) =>
      var v := Get(s, R(r));
      Set(s, R(r), if v / 0x80 % 2 == 0 then v + 0x80 else v - 0x80)
    case WhenZero(r, body) => if Get(s, R(r)) == 0 then Exec(body, s) else s
    case WhenUser(offset, body) => if Get(s, M(Get(s, R(Rsp)) + offset)) % 4 != 0 then Exec(body, s) else s
    case SwapGs => Set(Set(s, S(GsBase), Get(s, S(KernelGsBase))), S(KernelGsBase), Get(s, S(GsBase)))
    case LoadFs(src) => Set(Set(s, S(Fs), Value(s, src)), S(FsBase), 0)
    case LoadGsIndex(src) => Set(Set(s, S(Gs), Value(s, src)), S(KernelGsBase), 0)
    case Ret =>
      var sp := Get(s, R(Rsp));
      Set(Set(s, S(Rip), Get(s, M(sp))), R(Rsp), sp + 8)
    case Iretq =>
      var sp := Get(s, R(Rsp));
      Set(Set(Set(Set(Set(s, S(Rip), Get(s, M(sp))), S(Cs), Get(s, M(sp + 8))), S(Rflags), Get(s, M(sp + 16))),
              R(Rsp), Get(s, M(sp + 24))), S(Ss), Get(s, M(sp + 32)))
  }

  function Exec(p: seq<Instr>, s: State): State
    decreases p, 1
  {
    if p == [] then s else Exec(p[1..], Step(p[0], s))
  }

  lemma {:induction false} ExecAppend(p: seq<Instr>, q: seq<Instr>, s: State)
    ensures Exec(p + q, s) == Exec(q, Exec(p, s))
    decreases |p|
  {
    if p == [] {
      assert p + q == q;
    } else {
      assert (p + q)[1..] == p[1..] + q;
      ExecAppend(p[1..], q, Step(p[0], s));
    }
  }

  lemma ExecOne(i: Instr, p: seq<Instr>, s: State)
    ensures Exec([i] + p, s) == Exec(p, Step(i, s))
  {
    assert ([i] + p)[1..] == p;
  }

  lemma ExecThree(p: seq<Instr>, q: seq<Instr>, t: seq<Instr>, s: State)
    ensures Exec(p + q + t, s) == Exec(t, Exec(q, Exec(p, s)))
  {
    ExecAppend(p, q, s);
    ExecAppend(p + q, t, s);
  }

  lemma ExecFour(p: seq<Instr>, q: seq<Instr>, t: seq<Instr>, u: seq<Instr>, s: State)
    ensures Exec(p + q + t + u, s) == Exec(u, Exec(t, Exec(q, Exec(p, s))))
  {
    ExecAppend(p, q, s);
    ExecAppend(p + q, t, s);
    ExecAppend(p + q + t, u, s);
  }

  /* ---- what single instructions do, location by location ---- */

  lemma MovEffect(src: Operand, dst: Operand, s: State)
    requires !dst.Imm?
    ensures forall l :: Get(Step(Mov(src, dst), s), l) == if l == Where(s, dst) then Value(s, src) else Get(s, l)
  {
  }

  lemma PushEffect(src: Operand, s: State)
    ensures var sp := Get(s, R(Rsp)) - 8;
            forall l :: Get(Step(Push(src), s), l) ==
              if l == R(Rsp) then sp else if l == M(sp) then Value(s, src) else Get(s, l)
  {
  }

  lemma PopEffect(l0: Loc, s: State)
    ensures var sp := Get(s, R(Rsp));
            forall l :: Get(Step(Pop(At(l0)), s), l) ==
              if l == l0 then Get(s, M(sp)) else if l == R(Rsp) then sp + 8 else Get(s, l)
  {
  }

  ghost predicate GsSwapped(s: State, s': State) {
    && Get(s', S(GsBase)) == Get(s, S(KernelGsBase)) && Get(s', S(KernelGsBase)) == Get(s, S(GsBase))
    && forall l :: l != S(GsBase) && l != S(KernelGsBase) ==> Get(s', l) == Get(s, l)
  }

  lemma SwapGsEffect(s: State)
    ensures GsSwapped(s, Step(SwapGs, s))
  {
  }

  ghost predicate IretqDone(s: State, s': State) {
    var sp := Get(s, R(Rsp));
    && Get(s', S(Rip)) == Get(s, M(sp)) && Get(s', S(Cs)) == Get(s, M(sp + 8)) && Get(s', S(Rflags)) == Get(s, M(sp + 16))
    && Get(s', R(Rsp)) == Get(s, M(sp + 24)) && Get(s', S(Ss)) == Get(s, M(sp + 32))
    && forall l :: l != R(Rsp) && !(l.S? && (l.sys.Rip? || l.sys.Cs? || l.sys.Rflags? || l.sys.Ss?)) ==> Get(s', l) == Get(s, l)
  }

  lemma IretqEffect(s: State)
    ensures IretqDone(s, Step(Iretq, s))
  {
  }

  lemma RetEffect(s: State)
    ensures var sp := Get(s, R(Rsp));
            forall l :: Get(Step(Ret, s), l) ==
              if l == S(Rip) then Get(s, M(sp)) else if l == R(Rsp) then sp + 8 else Get(s, l)
  {
  }

  /* ---- a processor that runs such programs in place ---- */

  class Processor {
    var state: State

    method Store(l: Loc, v: int)
      modifies this
      ensures state == Set(old(state), l, v)
    {
      state := Set(state, l, v);
    }

    method Execute(i: Instr)
      modifies this
      ensures state == Step(i, old(state))
      decreases i, 0
    {
      var sp := Get(state, R(Rsp));
      match i
      case Mov(src, dst) =>
        if !dst.Imm? { Store(Where(state, dst), Value(state, src)); }
      case Push(src) =>
        Store(M(sp - 8), Value(state, src));
        Store(R(Rsp), sp - 8);
      case Pop(dst) =>
        if dst.At? {
          var v := Get(state, M(sp));
          Store(R(Rsp), sp + 8);
          Store(dst.place, v);
        }
      case Add(r, n) => Store(R(r), Get(state, R(r)) + n);
      case ClearBits(r, low, high) => Store(R(r), BitsCleared(Get(state, R(r)), low, high));
      case ToggleBit7(r) =>
        var v := Get(state, R(r));
        Store(R(r), if v / 0x80 % 2 == 0 then v + 0x80 else v - 0x80);
      case WhenZero(r, body) =>
        if Get(state, R(r)) == 0 { ExecuteAll(body); }
      case WhenUser(offset, body) =>
        if Get(state, M(sp + offset)) % 4 != 0 { ExecuteAll(body); }
      case SwapGs =>
        var active := Get(state, S(GsBase));
        Store(S(GsBase), Get(state, S(KernelGsBase)));
        Store(S(KernelGsBase), active);
      case LoadFs(src) =>
        Store(S(Fs), Value(state, src));
        Store(S(FsBase), 0);
      case LoadGsIndex(src) =>
        Store(S(Gs), Value(state, src));
        Store(S(KernelGsBase), 0);
      case Ret =>
        Store(S(Rip), Get(state, M(sp)));
        Store(R(Rsp), sp + 8);
      case Iretq => ReturnFromInterrupt();
    }

    method ReturnFromInterrupt()
      modifies this
      ensures state == Step(Iretq, old(state))
    {
      var sp := Get(state, R(Rsp));
      Store(S(Rip), Get(state, M(sp)));
      Store(S(Cs), Get(state, M(sp + 8)));
      Store(S(Rflags), Get(state, M(sp + 16)));
      Store(R(Rsp), Get(state, M(sp + 24)));
      Store(S(Ss), Get(state, M(sp + 32)));
    }

    method ExecuteAll(p: seq<Instr>)
      modifies this
      ensures state == Exec(p, old(state))
      decreases p, 1
    {
      var i := 0;
      while i < |p|
        invariant 0 <= i <= |p|
        invariant Exec(p, old(state)) == Exec(p[i..], state)
      {
        assert p[i..][0] == p[i] && p[i..][1..] == p[i + 1..];
        Execute(p[i]);
        i := i + 1;
      }
    }
  }
}
