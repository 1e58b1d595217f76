/** The way back: kkm_switch_to_host_kernel, kkm_switch_to_hk_asm and what follows it in
    kkm_kontext_switch_kernel; and kkm_switch_to_gk_asm, whose frame they return through. */
module HostReturn {
  import opened Machine
  import opened Straight
  import opened TlbFlush
  import opened CHalves

  /* ---- kkm_switch_to_host_kernel ---- */

  function HostKernel(g: int): seq<Instr> {
    TrapToRegs(g) + RestoreTables(g) + RestoreSegments() + RestoreGs()
  }

  function TrapToRegs(g: int): seq<Instr> {
    Four(Move(At(M(g + OFF_TI_RIP)), M(g + OFF_RIP)), Move(At(M(g + OFF_TI_RFLAGS)), M(g + OFF_RFLAGS)),
         Move(At(M(g + OFF_SP0)), S(Sp0)), Move(At(M(g + OFF_SP1)), S(Sp1)))
  }

  function RestoreTables(g: int): seq<Instr> {
    Four(Move(At(M(g + OFF_SP2)), S(Sp2)), Move(At(M(g + OFF_NATIVE_IDT)), S(Idt)), ToSys(NativeLstar, Lstar), ToSys(NativeDs, Ds))
  }

  function RestoreSegments(): seq<Instr> {
    One(ToSys(NativeEs, Es)) + [LoadFs(At(K(NativeFs)))] + One(ToSys(NativeFsBase, FsBase))
  }

  function RestoreGs(): seq<Instr> {
    [LoadGsIndex(At(K(NativeGs)))] + One(ToSys(NativeGsBase, GsBase)) + One(ToSys(NativeKernelGsBase, KernelGsBase)) + One(Move(Imm(KERNEL_DS), S(Ss)))
  }

  ghost predicate RegsAdjusted(g: int, s: State, s': State) {
    && Get(s', M(g + OFF_RIP)) == Get(s, M(g + OFF_TI_RIP)) && Get(s', M(g + OFF_RFLAGS)) == Get(s, M(g + OFF_TI_RFLAGS))
    && Get(s', S(Sp0)) == Get(s, M(g + OFF_SP0)) && Get(s', S(Sp1)) == Get(s, M(g + OFF_SP1))
    && (forall x: Sys :: !(x.Sp0? || x.Sp1?) ==> Get(s', S(x)) == Get(s, S(x)))
    && (forall f :: Get(s', K(f)) == Get(s, K(f))) && SameRegs(s, s')
    && (forall a :: a != g + OFF_RIP && a != g + OFF_RFLAGS ==> Get(s', M(a)) == Get(s, M(a)))
  }

  lemma AdjustParts(g: int, s: State, s': State)
    requires MovedFour(Move(At(M(g + OFF_TI_RIP)), M(g + OFF_RIP)), Move(At(M(g + OFF_TI_RFLAGS)), M(g + OFF_RFLAGS)),
                       Move(At(M(g + OFF_SP0)), S(Sp0)), Move(At(M(g + OFF_SP1)), S(Sp1)), s, s')
    ensures RegsAdjusted(g, s, s')
  {
  }

  /** Nothing but system registers differs. */
  ghost predicate OnlySystem(s: State, s': State) {
    (forall f :: Get(s', K(f)) == Get(s, K(f))) && SameRegs(s, s') && SameWords(s, s')
  }

  ghost predicate TablesRestored(g: int, s: State, s': State) {
    && OnlySystem(s, s')
    && Get(s', S(Sp2)) == Get(s, M(g + OFF_SP2)) && Get(s', S(Idt)) == Get(s, M(g + OFF_NATIVE_IDT))
    && Get(s', S(Lstar)) == Get(s, K(NativeLstar)) && Get(s', S(Ds)) == Get(s, K(NativeDs))
    && (forall x: Sys :: !(x.Sp2? || x.Idt? || x.Lstar? || x.Ds?) ==> Get(s', S(x)) == Get(s, S(x)))
  }

  lemma TablesParts(g: int, s: State, s': State)
    requires MovedFour(Move(At(M(g + OFF_SP2)), S(Sp2)), Move(At(M(g + OFF_NATIVE_IDT)), S(Idt)), ToSys(NativeLstar, Lstar), ToSys(NativeDs, Ds), s, s')
    ensures TablesRestored(g, s, s')
  {
  }

  ghost predicate SegmentsRestored(s: State, s': State) {
    && OnlySystem(s, s')
    && Get(s', S(Es)) == Get(s, K(NativeEs)) && Get(s', S(Fs)) == Get(s, K(NativeFs)) && Get(s', S(FsBase)) == Get(s, K(NativeFsBase))
    && (forall x: Sys :: !(x.Es? || x.Fs? || x.FsBase?) ==> Get(s', S(x)) == Get(s, S(x)))
  }

  lemma AfterRestoreSegments(s: State)
    ensures SegmentsRestored(s, Exec(RestoreSegments(), s))
  {
    var a, b := ToSys(NativeEs, Es), ToSys(NativeFsBase, FsBase);
    ExecThree(One(a), [LoadFs(At(K(NativeFs)))], One(b), s);
    var s1 := Exec(One(a), s);
    AfterOne(a, s);
    LoadFsEffect(At(K(NativeFs)), s1);
    AfterOne(b, Step(LoadFs(At(K(NativeFs))), s1));
  }

  ghost predicate GsRestored(s: State, s': State) {
    && OnlySystem(s, s')
    && Get(s', S(Gs)) == Get(s, K(NativeGs)) && Get(s', S(GsBase)) == Get(s, K(NativeGsBase))
    && Get(s', S(KernelGsBase)) == Get(s, K(NativeKernelGsBase)) && Get(s', S(Ss)) == KERNEL_DS
    && (forall x: Sys :: !(x.Gs? || x.GsBase? || x.KernelGsBase? || x.Ss?) ==> Get(s', S(x)) == Get(s, S(x)))
  }

  ghost predicate GsIndexLoaded(v: int, s: State, s': State) {
    Get(s', S(Gs)) == v && forall l :: l != S(Gs) && l != S(KernelGsBase) ==> Get(s', l) == Get(s, l)
  }

  lemma LoadGsIndexEffect(o: Operand, s: State)
    ensures GsIndexLoaded(Value(s, o), s, Step(LoadGsIndex(o), s))
  {
  }

  lemma GsParts(s: State, s1: State, s2: State, s3: State, s4: State)
    requires GsIndexLoaded(Get(s, K(NativeGs)), s, s1) && MovedOne(ToSys(NativeGsBase, GsBase), s1, s2)
    requires MovedOne(ToSys(NativeKernelGsBase, KernelGsBase), s2, s3) && MovedOne(Move(Imm(KERNEL_DS), S(Ss)), s3, s4)
    ensures GsRestored(s, s4)
  {
  }

  lemma AfterRestoreGs(s: State)
    ensures GsRestored(s, Exec(RestoreGs(), s))
  {
    var a, b, c := ToSys(NativeGsBase, GsBase), ToSys(NativeKernelGsBase, KernelGsBase), Move(Imm(KERNEL_DS), S(Ss));
    ExecFour([LoadGsIndex(At(K(NativeGs)))], One(a), One(b), One(c), s);
    var s1 := Step(LoadGsIndex(At(K(NativeGs))), s);
    var s2 := Exec(One(a), s1);
    var s3 := Exec(One(b), s2);
    LoadGsIndexEffect(At(K(NativeGs)), s);
    AfterOne(a, s1);
    AfterOne(b, s2);
    AfterOne(c, s3);
    GsParts(s, s1, s2, s3, Exec(One(c), s3));
  }

  /** struct kkm_kontext and the guest area put back into the system registers. */
  ghost predicate HostBack(g: int, s: State, s': State) {
    && Get(s', S(Sp0)) == Get(s, M(g + OFF_SP0)) && Get(s', S(Sp1)) == Get(s, M(g + OFF_SP1)) && Get(s', S(Sp2)) == Get(s, M(g + OFF_SP2))
    && Get(s', S(Idt)) == Get(s, M(g + OFF_NATIVE_IDT)) && Get(s', S(Lstar)) == Get(s, K(NativeLstar))
    && Get(s', S(Ds)) == Get(s, K(NativeDs)) && Get(s', S(Es)) == Get(s, K(NativeEs))
    && Get(s', S(Fs)) == Get(s, K(NativeFs)) && Get(s', S(FsBase)) == Get(s, K(NativeFsBase))
    && Get(s', S(Gs)) == Get(s, K(NativeGs)) && Get(s', S(GsBase)) == Get(s, K(NativeGsBase))
    && Get(s', S(KernelGsBase)) == Get(s, K(NativeKernelGsBase)) && Get(s', S(Ss)) == KERNEL_DS
    && (forall x: Sys :: x.Cr0? || x.Cr2? || x.Cr3? || x.Cr4? || x.Cr8? || x.Xstate? ==> Get(s', S(x)) == Get(s, S(x)))
    && Get(s', M(g + OFF_RIP)) == Get(s, M(g + OFF_TI_RIP)) && Get(s', M(g + OFF_RFLAGS)) == Get(s, M(g + OFF_TI_RFLAGS))
    && (forall f :: Get(s', K(f)) == Get(s, K(f))) && SameRegs(s, s')
    && (forall a :: a != g + OFF_RIP && a != g + OFF_RFLAGS ==> Get(s', M(a)) == Get(s, M(a)))
  }

  ghost predicate TablesBack(g: int, s: State, s': State) {
    && Get(s', S(Sp0)) == Get(s, M(g + OFF_SP0)) && Get(s', S(Sp1)) == Get(s, M(g + OFF_SP1)) && Get(s', S(Sp2)) == Get(s, M(g + OFF_SP2))
    && Get(s', S(Idt)) == Get(s, M(g + OFF_NATIVE_IDT)) && Get(s', S(Lstar)) == Get(s, K(NativeLstar)) && Get(s', S(Ds)) == Get(s, K(NativeDs))
    && (forall x: Sys :: x.Cr0? || x.Cr2? || x.Cr3? || x.Cr4? || x.Cr8? || x.Xstate? ==> Get(s', S(x)) == Get(s, S(x)))
    && Get(s', M(g + OFF_RIP)) == Get(s, M(g + OFF_TI_RIP)) && Get(s', M(g + OFF_RFLAGS)) == Get(s, M(g + OFF_TI_RFLAGS))
    && (forall f :: Get(s', K(f)) == Get(s, K(f))) && SameRegs(s, s')
    && (forall a :: a != g + OFF_RIP && a != g + OFF_RFLAGS ==> Get(s', M(a)) == Get(s, M(a)))
  }

  lemma TablesBackParts(g: int, s: State, s1: State, s2: State)
    requires RegsAdjusted(g, s, s1) && TablesRestored(g, s1, s2)
    ensures TablesBack(g, s, s2)
  {
  }

  lemma BackParts(g: int, s: State, s2: State, s3: State, s4: State)
    requires TablesBack(g, s, s2) && SegmentsRestored(s2, s3) && GsRestored(s3, s4)
    ensures HostBack(g, s, s4)
  {
  }

  lemma AfterHostKernel(g: int, s: State)
    ensures HostBack(g, s, Exec(HostKernel(g), s))
  {
    ExecFour(TrapToRegs(g), RestoreTables(g), RestoreSegments(), RestoreGs(), s);
    var s1 := Exec(TrapToRegs(g), s);
    var s2 := Exec(RestoreTables(g), s1);
    var s3 := Exec(RestoreSegments(), s2);
    AfterFour(Move(At(M(g + OFF_TI_RIP)), M(g + OFF_RIP)), Move(At(M(g + OFF_TI_RFLAGS)), M(g + OFF_RFLAGS)),
              Move(At(M(g + OFF_SP0)), S(Sp0)), Move(At(M(g + OFF_SP1)), S(Sp1)), s);
    AdjustParts(g, s, s1);
    AfterFour(Move(At(M(g + OFF_SP2)), S(Sp2)), Move(At(M(g + OFF_NATIVE_IDT)), S(Idt)), ToSys(NativeLstar, Lstar), ToSys(NativeDs, Ds), s1);
    TablesParts(g, s1, s2);
    AfterRestoreSegments(s2);
    AfterRestoreGs(s3);
    TablesBackParts(g, s, s1, s2);
    BackParts(g, s, s2, s3, Exec(RestoreGs(), s3));
  }

  /* ---- kkm_switch_to_gk_asm and kkm_switch_to_hk_asm ---- */

  /** The call at its end pushes a return address that is never used. */
  function SwitchToGk(unused: int): seq<Instr> {
    Pushes(Regs(CALLEE_SAVED))
    + ([Mov(At(R(Rsp)), Mem(Rdi, OFF_NK_STACK))] + [Mov(At(R(Rsi)), At(R(Rsp)))] + [Push(Imm(unused))])
  }

  /** The callee-saved registers in the words below sp. */
  ghost predicate CalleeSaved(sp: int, s: State, s': State) {
    && Get(s', M(sp - 8)) == Get(s, R(Rbp)) && Get(s', M(sp - 16)) == Get(s, R(Rbx)) && Get(s', M(sp - 24)) == Get(s, R(R12))
    && Get(s', M(sp - 32)) == Get(s, R(R13)) && Get(s', M(sp - 40)) == Get(s, R(R14)) && Get(s', M(sp - 48)) == Get(s, R(R15))
  }

  /** The words the program uses are apart: the native stack, the saved rsp, and the guest stack. */
  predicate StacksApart(s: State) {
    var sp, g := Get(s, R(Rsp)), Get(s, R(Rdi));
    Get(s, R(Rsi)) == g + STACK_TOP && (sp + 8 <= g || g + AREA_SIZE + 48 <= sp)
  }

  ghost predicate InGuestKernel(s: State, s': State) {
    var sp, g := Get(s, R(Rsp)), Get(s, R(Rdi));
    && SameSystem(s, s') && CalleeSaved(sp, s, s') && Get(s', M(g + OFF_NK_STACK)) == sp - 48
    && Get(s', R(Rsp)) == g + STACK_TOP - 8 && Get(s', R(Rdi)) == g
    && (forall a :: a != g + OFF_NK_STACK && !(g + STACK_TOP - 8 <= a < g + STACK_TOP) && !(sp - 48 <= a < sp) ==> Get(s', M(a)) == Get(s, M(a)))
  }

  lemma AfterSixPushes(rs: seq<Reg>, s: State)
    requires |rs| == 6 && Rsp !in rs
    requires rs[0] == Rbp && rs[1] == Rbx && rs[2] == R12 && rs[3] == R13 && rs[4] == R14 && rs[5] == R15
    ensures var s' := Exec(Pushes(Regs(rs)), s); Deeper(6, {}, s, s') && CalleeSaved(Get(s, R(Rsp)), s, s')
  {
    forall o | o in Regs(rs) ensures Steady(s, o, 6) {
      var i :| 0 <= i < 6 && o == Regs(rs)[i];
      assert rs[i] in rs;
    }
    AfterPushes(Regs(rs), s);
    CalleeParts(Values(s, Regs(rs)), s, Exec(Pushes(Regs(rs)), s));
  }

  lemma CalleeParts(vs: seq<int>, s: State, s': State)
    requires Pushed(vs, s, s') && |vs| == 6
    requires vs[0] == Get(s, R(Rbp)) && vs[1] == Get(s, R(Rbx)) && vs[2] == Get(s, R(R12))
    requires vs[3] == Get(s, R(R13)) && vs[4] == Get(s, R(R14)) && vs[5] == Get(s, R(R15))
    ensures Deeper(6, {}, s, s') && CalleeSaved(Get(s, R(Rsp)), s, s')
  {
  }

  /** rsp recorded, and rsi taken for it with one word pushed. */
  ghost predicate StackSwapped(s: State, s': State) {
    var g, t := Get(s, R(Rdi)), Get(s, R(Rsi));
    && SameSystem(s, s') && Get(s', R(Rsp)) == t - 8 && Get(s', R(Rdi)) == g
    && (!(t - 8 <= g + OFF_NK_STACK < t) ==> Get(s', M(g + OFF_NK_STACK)) == Get(s, R(Rsp)))
    && (forall a :: a != g + OFF_NK_STACK && !(t - 8 <= a < t) ==> Get(s', M(a)) == Get(s, M(a)))
  }

  lemma AfterStackSwap(unused: int, s: State)
    ensures var p := [Mov(At(R(Rsp)), Mem(Rdi, OFF_NK_STACK))] + [Mov(At(R(Rsi)), At(R(Rsp)))] + [Push(Imm(unused))];
            StackSwapped(s, Exec(p, s))
  {
    var i, j, k := Mov(At(R(Rsp)), Mem(Rdi, OFF_NK_STACK)), Mov(At(R(Rsi)), At(R(Rsp))), Push(Imm(unused));
    ExecThree([i], [j], [k], s);
    MovEffect(At(R(Rsp)), Mem(Rdi, OFF_NK_STACK), s);
    MovEffect(At(R(Rsi)), At(R(Rsp)), Step(i, s));
    PushEffect(Imm(unused), Step(j, Step(i, s)));
  }

  lemma GkParts(p: seq<Instr>, q: seq<Instr>, s: State)
    requires StacksApart(s) && Deeper(6, {}, s, Exec(p, s)) && CalleeSaved(Get(s, R(Rsp)), s, Exec(p, s))
    requires StackSwapped(Exec(p, s), Exec(q, Exec(p, s)))
    ensures InGuestKernel(s, Exec(p + q, s))
  {
    ExecAppend(p, q, s);
  }

  lemma AfterSwitchToGk(unused: int, s: State)
    requires StacksApart(s)
    ensures InGuestKernel(s, Exec(SwitchToGk(unused), s))
  {
    var p := Pushes(Regs(CALLEE_SAVED));
    AfterSixPushes(CALLEE_SAVED, s);
    AfterStackSwap(unused, Exec(p, s));
    GkParts(p, [Mov(At(R(Rsp)), Mem(Rdi, OFF_NK_STACK))] + [Mov(At(R(Rsi)), At(R(Rsp)))] + [Push(Imm(unused))], s);
  }

  function HostPops(): seq<Reg> { [R15, R14, R13, R12, Rbx, Rbp] }

  function SwitchToHk(popped: seq<Reg>): seq<Instr> {
    One(Move(At(R(Rdi)), S(Cr3))) + FlushUnlessTagged(Rdi, FlushTlb(Rax, Rbx)) + One(Move(At(R(Rsi)), R(Rsp)))
    + (Pops(popped) + [Ret])
  }

  /** rsi points at six registers and a return address. */
  ghost predicate BackOnHost(s: State, s': State) {
    var t := Get(s, R(Rsi));
    && Get(s', S(Cr3)) == Get(s, R(Rdi)) && Get(s', S(Rip)) == Get(s, M(t + 48)) && Get(s', R(Rsp)) == t + 56
    && Get(s', R(R15)) == Get(s, M(t)) && Get(s', R(R14)) == Get(s, M(t + 8)) && Get(s', R(R13)) == Get(s, M(t + 16))
    && Get(s', R(R12)) == Get(s, M(t + 24)) && Get(s', R(Rbx)) == Get(s, M(t + 32)) && Get(s', R(Rbp)) == Get(s, M(t + 40))
    && (forall x :: x != Cr3 && x != Rip ==> Get(s', S(x)) == Get(s, S(x)))
    && (forall f :: Get(s', K(f)) == Get(s, K(f))) && SameWords(s, s')
  }

  ghost predicate SixPopped(s: State, s': State) {
    var t := Get(s, R(Rsp));
    && SameSystem(s, s') && SameWords(s, s') && Get(s', R(Rsp)) == t + 48
    && Get(s', R(R15)) == Get(s, M(t)) && Get(s', R(R14)) == Get(s, M(t + 8)) && Get(s', R(R13)) == Get(s, M(t + 16))
    && Get(s', R(R12)) == Get(s, M(t + 24)) && Get(s', R(Rbx)) == Get(s, M(t + 32)) && Get(s', R(Rbp)) == Get(s, M(t + 40))
  }

  lemma AfterSixPops(rs: seq<Reg>, s: State)
    requires |rs| == 6 && Rsp !in rs && Distinct(rs)
    requires rs[0] == R15 && rs[1] == R14 && rs[2] == R13 && rs[3] == R12 && rs[4] == Rbx && rs[5] == Rbp
    ensures SixPopped(s, Exec(Pops(rs), s))
  {
    AfterPops(rs, s);
    forall i | 0 <= i < 6 ensures IndexOf(rs, rs[i]) == i && rs[i] in rs {
      IndexOfAt(rs, i);
    }
  }

  lemma SixAreDistinct(a: Reg, b: Reg, c: Reg, d: Reg, e: Reg, f: Reg)
    requires a !in {b, c, d, e, f} && b !in {c, d, e, f} && c !in {d, e, f} && d !in {e, f} && e != f
    ensures Distinct([a, b, c, d, e, f])
  {
    assert Distinct([e, f]);
    assert [d, e, f][1..] == [e, f];
    assert Distinct([d, e, f]);
    assert [c, d, e, f][1..] == [d, e, f];
    assert Distinct([c, d, e, f]);
    assert [b, c, d, e, f][1..] == [c, d, e, f];
    assert Distinct([b, c, d, e, f]);
    assert [a, b, c, d, e, f][1..] == [b, c, d, e, f];
  }

  /** On the native stack, in the native address space. */
  ghost predicate Switched(s: State, s': State) {
    && Get(s', S(Cr3)) == Get(s, R(Rdi)) && Get(s', R(Rsp)) == Get(s, R(Rsi))
    && (forall x :: x != Cr3 ==> Get(s', S(x)) == Get(s, S(x)))
    && (forall f :: Get(s', K(f)) == Get(s, K(f))) && SameWords(s, s')
  }

  lemma SwitchedParts(p: seq<Instr>, q: seq<Instr>, t: seq<Instr>, s: State)
    requires MovedOne(Move(At(R(Rdi)), S(Cr3)), s, Exec(p, s))
    requires forall x :: OnlyRegs({Rdi, Rax, Rbx}, x, Exec(q, x))
    requires forall x :: MovedOne(Move(At(R(Rsi)), R(Rsp)), x, Exec(t, x))
    ensures Switched(s, Exec(p + q + t, s))
  {
    ExecThree(p, q, t, s);
    assert Get(Exec(q, Exec(p, s)), R(Rsi)) == Get(s, R(Rsi));
  }

  lemma AfterSixAndRet(q: seq<Instr>, s: State)
    requires SixPopped(s, Exec(q, s))
    ensures var s', t := Exec(q + [Ret], s), Get(s, R(Rsp));
            && Get(s', R(Rsp)) == t + 56 && Get(s', S(Rip)) == Get(s, M(t + 48))
            && forall l :: l != R(Rsp) && l != S(Rip) ==> Get(s', l) == Get(Exec(q, s), l)
  {
    ExecAppend(q, [Ret], s);
  }

  lemma HkParts(s: State, s1: State, s2: State, s3: State)
    requires Switched(s, s1) && SixPopped(s1, s2)
    requires var t := Get(s1, R(Rsp));
            && Get(s3, R(Rsp)) == t + 56 && Get(s3, S(Rip)) == Get(s1, M(t + 48))
            && forall l :: l != R(Rsp) && l != S(Rip) ==> Get(s3, l) == Get(s2, l)
    ensures BackOnHost(s, s3)
  {
  }

  lemma AfterHkSwitch(s: State)
    ensures Switched(s, Exec(One(Move(At(R(Rdi)), S(Cr3))) + FlushUnlessTagged(Rdi, FlushTlb(Rax, Rbx)) + One(Move(At(R(Rsi)), R(Rsp))), s))
  {
    AfterOne(Move(At(R(Rdi)), S(Cr3)), s);
    forall x ensures OnlyRegs({Rdi, Rax, Rbx}, x, Exec(FlushUnlessTagged(Rdi, FlushTlb(Rax, Rbx)), x)) {
      AfterClearBits(Rdi, x);
      AfterFlushTlb(Rax, Rbx, Step(ClearBits(Rdi, 8, 64), x));
      AfterFlushUnlessTagged(Rdi, FlushTlb(Rax, Rbx), x);
    }
    forall x ensures MovedOne(Move(At(R(Rsi)), R(Rsp)), x, Exec(One(Move(At(R(Rsi)), R(Rsp))), x)) {
      AfterOne(Move(At(R(Rsi)), R(Rsp)), x);
    }
    SwitchedParts(One(Move(At(R(Rdi)), S(Cr3))), FlushUnlessTagged(Rdi, FlushTlb(Rax, Rbx)), One(Move(At(R(Rsi)), R(Rsp))), s);
  }

  lemma HkPrograms(p: seq<Instr>, q: seq<Instr>, s: State)
    requires Switched(s, Exec(p, s)) && SixPopped(Exec(p, s), Exec(q, Exec(p, s)))
    ensures BackOnHost(s, Exec(p + (q + [Ret]), s))
  {
    ExecAppend(p, q + [Ret], s);
    var s1 := Exec(p, s);
    AfterSixAndRet(q, s1);
    HkParts(s, s1, Exec(q, s1), Exec(q + [Ret], s1));
  }

  lemma AfterSwitchToHk(s: State)
    ensures BackOnHost(s, Exec(SwitchToHk(HostPops()), s))
  {
    var p := One(Move(At(R(Rdi)), S(Cr3))) + FlushUnlessTagged(Rdi, FlushTlb(Rax, Rbx)) + One(Move(At(R(Rsi)), R(Rsp)));
    AfterHkSwitch(s);
    SixAreDistinct(R15, R14, R13, R12, Rbx, Rbp);
    AfterSixPops(HostPops(), Exec(p, s));
    HkPrograms(p, Pops(HostPops()), s);
  }
}
