/** How the payload gets to the common exit code: the processor's own pushes, the entry stubs of
    kkm_guest_exit.S, and kkm_syscall_entry_asm. */
module Arrival {
  import opened Constants
  import opened Machine
  import opened Straight
  import opened ExitCode

  /** A fault with a hardware error code, a fault or interrupt without one, or SYSCALL. */
  datatype Cause = Fault(no: int, error: int) | Interrupt(no: int) | SystemCall

  function Imms(vs: seq<int>): (os: seq<Operand>)
    ensures |os| == |vs| && forall i :: 0 <= i < |vs| ==> os[i] == Imm(vs[i])
  {
    if vs == [] then [] else [Imm(vs[0])] + Imms(vs[1..])
  }

  /** What the processor pushes on the stack of a gate. */
  function HardwareFrame(c: Cause, s: State): seq<int> {
    [Get(s, S(Ss)), Get(s, R(Rsp)), Get(s, S(Rflags)), Get(s, S(Cs)), Get(s, S(Rip))] + if c.Fault? then [c.error] else []
  }

  /** On a gate the processor takes the kernel's segments and rsp from the TSS, aligned to 16. */
  function KernelMode(s: State): State {
    var sp := Get(s, S(Sp0));
    Set(Set(Set(s, R(Rsp), sp - sp % 16), S(Cs), KERNEL_CS), S(Ss), 0)
  }

  /** kkm_intr_entry_n: a missing error code is made up for, then the interrupt's number. */
  function Stub(c: Cause): seq<int> {
    match c
    case Fault(no, _) => [no]
    case Interrupt(no) => [-1, no]
    case SystemCall => []
  }

  /** SYSCALL: rip and rflags go to rcx and r11, and rsp is left alone. */
  function AfterSyscall(s: State): State {
    Set(Set(Set(Set(s, R(Rcx), Get(s, S(Rip))), R(R11), Get(s, S(Rflags))), S(Cs), KERNEL_CS), S(Ss), KERNEL_DS)
  }

  function SyscallEntry(frame: seq<Operand>): seq<Instr> {
    TakeKernelStack() + Pushes(frame)
  }

  function TakeKernelStack(): seq<Instr> {
    [SwapGs] + [Mov(At(R(Rsp)), At(S(Sp2)))] + [Mov(At(S(Sp0)), At(R(Rsp)))]
  }

  function SyscallFrame(): seq<Operand> {
    [Imm(USER_DS), At(S(Sp2)), At(R(R11)), Imm(USER_CS), At(R(Rcx)), Imm(-1), Imm(INTR_SYSCALL)]
  }

  /** The state in which kkm_intr_entry_asm_common starts. */
  function Arrived(c: Cause, s: State): State {
    if c.SystemCall? then Exec(SyscallEntry(SyscallFrame()), AfterSyscall(s))
    else Exec(Pushes(Imms(HardwareFrame(c, s))) + Pushes(Imms(Stub(c))) + [WhenUser(24, [SwapGs])], KernelMode(s))
  }

  /** The payload is running in user mode on the area at g. */
  predicate InPayload(g: int, s: State) {
    g % AREA_SIZE == 0 && Get(s, S(Sp0)) == g + STACK_TOP && Get(s, S(Cs)) % 4 != 0
  }

  /** SYSCALL leaves no segments behind; its entry code puts fixed ones on the stack. */
  function FrameSs(c: Cause, s: State): int {
    if c.SystemCall? then USER_DS else Get(s, S(Ss))
  }

  function FrameCs(c: Cause, s: State): int {
    if c.SystemCall? then USER_CS else Get(s, S(Cs))
  }

  function InterruptNumber(c: Cause): int {
    if c.SystemCall? then INTR_SYSCALL else c.no
  }

  function ErrorCode(c: Cause): int {
    if c.Fault? then c.error else -1
  }

  /** Whatever the cause, the trap stack has one layout. */
  ghost predicate Stacked(g: int, c: Cause, s: State, s': State) {
    var top := g + STACK_TOP;
    && Get(s', R(Rsp)) == top - 56
    && Get(s', M(top - 8)) == FrameSs(c, s) && Get(s', M(top - 16)) == Get(s, R(Rsp)) && Get(s', M(top - 24)) == Get(s, S(Rflags))
    && Get(s', M(top - 32)) == FrameCs(c, s) && Get(s', M(top - 40)) == Get(s, S(Rip))
    && Get(s', M(top - 48)) == ErrorCode(c) && Get(s', M(top - 56)) == InterruptNumber(c)
    && (forall a :: !(top - 56 <= a < top) ==> Get(s', M(a)) == Get(s, M(a)))
  }

  /** Only SYSCALL has cost rcx and r11; the kernel's GS base is back. */
  ghost predicate InKernel(c: Cause, s: State, s': State) {
    && (forall r :: r != Rsp && !(c.SystemCall? && (r == Rcx || r == R11)) ==> Get(s', R(r)) == Get(s, R(r)))
    && (c.SystemCall? ==> Get(s', R(Rcx)) == Get(s, S(Rip)) && Get(s', R(R11)) == Get(s, S(Rflags)))
    && Get(s', S(GsBase)) == Get(s, S(KernelGsBase)) && Get(s', S(KernelGsBase)) == Get(s, S(GsBase))
    && (forall x: Sys :: !(x.Cs? || x.Ss? || x.Sp2? || x.GsBase? || x.KernelGsBase?) ==> Get(s', S(x)) == Get(s, S(x)))
    && (forall f :: Get(s', K(f)) == Get(s, K(f)))
  }

  ghost predicate Arrives(g: int, c: Cause, s: State, s': State) {
    Stacked(g, c, s, s') && InKernel(c, s, s')
  }

  lemma AfterImms(vs: seq<int>, s: State)
    ensures Pushed(vs, s, Exec(Pushes(Imms(vs)), s))
  {
    AfterPushes(Imms(vs), s);
    assert Values(s, Imms(vs)) == vs;
  }

  lemma PushedTwice(vs: seq<int>, ws: seq<int>, s: State, s1: State, s2: State)
    requires Pushed(vs, s, s1) && Pushed(ws, s1, s2)
    ensures Pushed(vs + ws, s, s2)
  {
  }

  lemma AfterUserSwapGs(s: State)
    requires Get(s, M(Get(s, R(Rsp)) + 24)) % 4 != 0
    ensures GsSwapped(s, Step(WhenUser(24, [SwapGs]), s))
  {
    SwapGsEffect(s);
    assert Exec([SwapGs], s) == Step(SwapGs, s);
  }

  /** On the stack at top, in the kernel's segments, with nothing else changed. */
  ghost predicate Entering(top: int, s: State, k: State) {
    && Get(k, R(Rsp)) == top
    && (forall r :: r != Rsp ==> Get(k, R(r)) == Get(s, R(r)))
    && (forall x :: x != Cs && x != Ss ==> Get(k, S(x)) == Get(s, S(x)))
    && (forall f :: Get(k, K(f)) == Get(s, K(f)))
    && SameWords(s, k)
  }

  lemma KernelModeEffect(s: State)
    ensures var k, sp := KernelMode(s), Get(s, S(Sp0)); Entering(sp - sp % 16, s, k)
  {
  }

  lemma EntersKernelMode(g: int, s: State)
    requires InPayload(g, s)
    ensures Entering(g + STACK_TOP, s, KernelMode(s))
  {
    KernelModeEffect(s);
    AreaIsAligned(g);
  }

  lemma AreaIsAligned(g: int)
    requires g % AREA_SIZE == 0
    ensures (g + STACK_TOP) % 16 == 0
  {
  }

  lemma PushesStack(g: int, c: Cause, vs: seq<int>, s: State, k: State, s1: State)
    requires Get(k, R(Rsp)) == g + STACK_TOP && SameWords(s, k) && Pushed(vs, k, s1)
    requires vs == [FrameSs(c, s), Get(s, R(Rsp)), Get(s, S(Rflags)), FrameCs(c, s), Get(s, S(Rip)), ErrorCode(c), InterruptNumber(c)]
    ensures Stacked(g, c, s, s1)
  {
  }

  lemma GateParts(c: Cause, top: int, vs: seq<int>, s: State, k: State, s1: State, s2: State)
    requires !c.SystemCall? && Entering(top, s, k) && Pushed(vs, k, s1) && GsSwapped(s1, s2)
    ensures InKernel(c, s, s2)
  {
  }

  lemma SwapKeepsStack(g: int, c: Cause, s: State, s1: State, s2: State)
    requires Stacked(g, c, s, s1) && GsSwapped(s1, s2)
    ensures Stacked(g, c, s, s2)
  {
  }

  /** With or without a hardware error code, the same seven words. */
  lemma GateFrame(c: Cause, s: State)
    requires !c.SystemCall?
    ensures HardwareFrame(c, s) + Stub(c)
         == [FrameSs(c, s), Get(s, R(Rsp)), Get(s, S(Rflags)), FrameCs(c, s), Get(s, S(Rip)), ErrorCode(c), InterruptNumber(c)]
  {
  }

  lemma AfterImmsTwice(vs: seq<int>, ws: seq<int>, k: State)
    ensures Pushed(vs + ws, k, Exec(Pushes(Imms(vs)) + Pushes(Imms(ws)), k))
  {
    ExecAppend(Pushes(Imms(vs)), Pushes(Imms(ws)), k);
    var s1 := Exec(Pushes(Imms(vs)), k);
    AfterImms(vs, k);
    AfterImms(ws, s1);
    PushedTwice(vs, ws, k, s1, Exec(Pushes(Imms(ws)), s1));
  }

  lemma GateProgram(g: int, c: Cause, vs: seq<int>, p: seq<Instr>, s: State, k: State)
    requires !c.SystemCall? && Get(s, S(Cs)) % 4 != 0 && Entering(g + STACK_TOP, s, k) && Pushed(vs, k, Exec(p, k))
    requires vs == [FrameSs(c, s), Get(s, R(Rsp)), Get(s, S(Rflags)), FrameCs(c, s), Get(s, S(Rip)), ErrorCode(c), InterruptNumber(c)]
    ensures Arrives(g, c, s, Exec(p + [WhenUser(24, [SwapGs])], k))
  {
    var s1 := Exec(p, k);
    ExecAppend(p, [WhenUser(24, [SwapGs])], k);
    PushesStack(g, c, vs, s, k, s1);
    AfterUserSwapGs(s1);
    GateParts(c, g + STACK_TOP, vs, s, k, s1, Step(WhenUser(24, [SwapGs]), s1));
    SwapKeepsStack(g, c, s, s1, Step(WhenUser(24, [SwapGs]), s1));
  }

  lemma GateArrives(g: int, c: Cause, s: State)
    requires InPayload(g, s) && !c.SystemCall?
    ensures Arrives(g, c, s, Arrived(c, s))
  {
    EntersKernelMode(g, s);
    AfterImmsTwice(HardwareFrame(c, s), Stub(c), KernelMode(s));
    GateFrame(c, s);
    GateProgram(g, c, HardwareFrame(c, s) + Stub(c), Pushes(Imms(HardwareFrame(c, s))) + Pushes(Imms(Stub(c))), s, KernelMode(s));
  }

  /** Just before the pushes of kkm_syscall_entry_asm. */
  ghost predicate SyscallReady(s: State, s': State) {
    && Get(s', R(Rsp)) == Get(s, S(Sp0)) && Get(s', S(Sp2)) == Get(s, R(Rsp))
    && Get(s', R(Rcx)) == Get(s, S(Rip)) && Get(s', R(R11)) == Get(s, S(Rflags))
    && (forall r: Reg :: !(r.Rsp? || r.Rcx? || r.R11?) ==> Get(s', R(r)) == Get(s, R(r)))
    && Get(s', S(GsBase)) == Get(s, S(KernelGsBase)) && Get(s', S(KernelGsBase)) == Get(s, S(GsBase))
    && (forall x: Sys :: !(x.Cs? || x.Ss? || x.Sp2? || x.GsBase? || x.KernelGsBase?) ==> Get(s', S(x)) == Get(s, S(x)))
    && (forall f :: Get(s', K(f)) == Get(s, K(f)))
    && SameWords(s, s')
  }

  /** rip and rflags in rcx and r11, kernel segments, and nothing else. */
  ghost predicate SyscallTaken(s: State, h: State) {
    forall l :: Get(h, l) == (
      if l == R(Rcx) then Get(s, S(Rip)) else if l == R(R11) then Get(s, S(Rflags))
      else if l == S(Cs) then KERNEL_CS else if l == S(Ss) then KERNEL_DS else Get(s, l))
  }

  /** The stack pointer kept in sp2, and taken from sp0. */
  ghost predicate StackSwitched(s: State, s': State) {
    forall l :: Get(s', l) == if l == R(Rsp) then Get(s, S(Sp0)) else if l == S(Sp2) then Get(s, R(Rsp)) else Get(s, l)
  }

  lemma ReadyRegs(s: State, h: State, s1: State, s3: State)
    requires SyscallTaken(s, h) && GsSwapped(h, s1) && StackSwitched(s1, s3)
    ensures Get(s3, R(Rsp)) == Get(s, S(Sp0)) && Get(s3, R(Rcx)) == Get(s, S(Rip)) && Get(s3, R(R11)) == Get(s, S(Rflags))
    ensures forall r: Reg :: !(r.Rsp? || r.Rcx? || r.R11?) ==> Get(s3, R(r)) == Get(s, R(r))
  {
  }

  lemma ReadySystem(s: State, h: State, s1: State, s3: State)
    requires SyscallTaken(s, h) && GsSwapped(h, s1) && StackSwitched(s1, s3)
    ensures Get(s3, S(Sp2)) == Get(s, R(Rsp))
    ensures Get(s3, S(GsBase)) == Get(s, S(KernelGsBase)) && Get(s3, S(KernelGsBase)) == Get(s, S(GsBase))
    ensures forall x: Sys :: !(x.Cs? || x.Ss? || x.Sp2? || x.GsBase? || x.KernelGsBase?) ==> Get(s3, S(x)) == Get(s, S(x))
  {
  }

  lemma ReadyMemory(s: State, h: State, s1: State, s3: State)
    requires SyscallTaken(s, h) && GsSwapped(h, s1) && StackSwitched(s1, s3)
    ensures (forall f :: Get(s3, K(f)) == Get(s, K(f))) && SameWords(s, s3)
  {
  }

  lemma ReadyParts(s: State, h: State, s1: State, s3: State)
    requires SyscallTaken(s, h) && GsSwapped(h, s1) && StackSwitched(s1, s3)
    ensures SyscallReady(s, s3)
  {
    ReadyRegs(s, h, s1, s3);
    ReadySystem(s, h, s1, s3);
    ReadyMemory(s, h, s1, s3);
  }

  lemma SyscallParts(g: int, vs: seq<int>, s: State, s3: State, s4: State)
    requires InPayload(g, s) && SyscallReady(s, s3) && Pushed(vs, s3, s4)
    requires vs == [USER_DS, Get(s, R(Rsp)), Get(s, S(Rflags)), USER_CS, Get(s, S(Rip)), -1, INTR_SYSCALL]
    ensures Arrives(g, SystemCall, s, s4)
  {
    assert Get(s3, R(Rsp)) == g + STACK_TOP;
    PushesStack(g, SystemCall, vs, s, s3, s4);
  }

  lemma SyscallFrameValues(s: State, s3: State)
    requires SyscallReady(s, s3)
    ensures Values(s3, SyscallFrame()) == [USER_DS, Get(s, R(Rsp)), Get(s, S(Rflags)), USER_CS, Get(s, S(Rip)), -1, INTR_SYSCALL]
  {
  }

  lemma TakesSyscall(s: State)
    ensures SyscallTaken(s, AfterSyscall(s))
  {
  }

  lemma SwitchesStack(s: State)
    ensures StackSwitched(s, Exec([Mov(At(S(Sp0)), At(R(Rsp)))], Exec([Mov(At(R(Rsp)), At(S(Sp2)))], s)))
  {
    var keep, load := Mov(At(R(Rsp)), At(S(Sp2))), Mov(At(S(Sp0)), At(R(Rsp)));
    MovEffect(At(R(Rsp)), At(S(Sp2)), s);
    MovEffect(At(S(Sp0)), At(R(Rsp)), Step(keep, s));
  }

  lemma SyscallGetsReady(s: State)
    ensures SyscallReady(s, Exec(TakeKernelStack(), AfterSyscall(s)))
  {
    var h := AfterSyscall(s);
    ExecThree([SwapGs], [Mov(At(R(Rsp)), At(S(Sp2)))], [Mov(At(S(Sp0)), At(R(Rsp)))], h);
    TakesSyscall(s);
    SwapGsEffect(h);
    SwitchesStack(Step(SwapGs, h));
    ReadyParts(s, h, Step(SwapGs, h), Exec(TakeKernelStack(), h));
  }

  lemma FrameIsSteady(s: State)
    ensures forall o :: o in SyscallFrame() ==> Steady(s, o, |SyscallFrame()|)
  {
  }

  lemma SyscallPrograms(g: int, p: seq<Instr>, h: State, s: State)
    requires InPayload(g, s) && SyscallReady(s, Exec(p, h))
    ensures Arrives(g, SystemCall, s, Exec(p + Pushes(SyscallFrame()), h))
  {
    var s3 := Exec(p, h);
    ExecAppend(p, Pushes(SyscallFrame()), h);
    SyscallPushes(g, s, s3);
  }

  lemma SyscallPushes(g: int, s: State, s3: State)
    requires InPayload(g, s) && SyscallReady(s, s3)
    ensures Arrives(g, SystemCall, s, Exec(Pushes(SyscallFrame()), s3))
  {
    FrameIsSteady(s3);
    AfterPushes(SyscallFrame(), s3);
    SyscallFrameValues(s, s3);
    SyscallParts(g, Values(s3, SyscallFrame()), s, s3, Exec(Pushes(SyscallFrame()), s3));
  }

  lemma SyscallArrives(g: int, s: State)
    requires InPayload(g, s)
    ensures Arrives(g, SystemCall, s, Arrived(SystemCall, s))
  {
    SyscallGetsReady(s);
    SyscallPrograms(g, TakeKernelStack(), AfterSyscall(s), s);
  }

  /** Every cause arrives at the common exit code with the same trap stack. */
  lemma AllArrive(g: int, c: Cause, s: State)
    requires InPayload(g, s)
    ensures Arrives(g, c, s, Arrived(c, s))
  {
    if c.SystemCall? { SyscallArrives(g, s); } else { GateArrives(g, c, s); }
  }
}
