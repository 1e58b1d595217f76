/** kkm_intr_entry_asm from its common label on, as a program, and what it does as a whole. */
module ExitCode {
  import opened Machine
  import opened Straight
  import opened TlbFlush
  import opened Anchors

  /* ---- finding the guest area and the guest kernel's tables ---- */

  function ClearInCr3(low: nat, high: nat): seq<Instr> {
    [Mov(At(S(Cr3)), At(R(Rdi)))] + [ClearBits(Rdi, low, high)] + [Mov(At(R(Rdi)), At(S(Cr3)))]
  }

  function SwitchCr3(): seq<Instr> {
    ClearInCr3(PAIR_BIT, PAIR_BIT + 1) + FlushUnlessTagged(Rdi, FlushByPush(Rdi))
  }

  function MaskRsp(): seq<Instr> {
    [Mov(At(R(Rsp)), At(R(Rdi)))] + [ClearBits(Rdi, 0, AREA_BITS)]
  }

  function FindArea(): seq<Instr> {
    [Mov(At(R(Rsp)), At(R(Rsi)))] + SwitchCr3() + MaskRsp()
  }

  /** cr3 now holds c; only rs may differ among the registers, and one word below rsp. */
  ghost predicate Cr3Becomes(c: int, rs: set<Reg>, s: State, s': State) {
    && Get(s', S(Cr3)) == c
    && (forall x :: x != Cr3 ==> Get(s', S(x)) == Get(s, S(x)))
    && (forall f :: Get(s', K(f)) == Get(s, K(f)))
    && (forall r :: r !in rs ==> Get(s', R(r)) == Get(s, R(r)))
    && (forall a :: !(Get(s, R(Rsp)) - 8 <= a < Get(s, R(Rsp))) ==> Get(s', M(a)) == Get(s, M(a)))
  }

  ghost predicate Cr3Cleared(rs: set<Reg>, s: State, s': State) {
    Cr3Becomes(BitsCleared(Get(s, S(Cr3)), PAIR_BIT, PAIR_BIT + 1), rs, s, s')
  }

  /** cr3 now holds c; only rs may differ among the registers. */
  ghost predicate Cr3Set(c: int, rs: set<Reg>, s: State, s': State) {
    && Get(s', S(Cr3)) == c
    && (forall l :: l != S(Cr3) && !(l.R? && l.reg in rs) ==> Get(s', l) == Get(s, l))
  }

  lemma AfterClearing(low: nat, high: nat, s: State)
    ensures Cr3Set(BitsCleared(Get(s, S(Cr3)), low, high), {Rdi}, s, Exec(ClearInCr3(low, high), s))
  {
    var i, j, k := Mov(At(S(Cr3)), At(R(Rdi))), ClearBits(Rdi, low, high), Mov(At(R(Rdi)), At(S(Cr3)));
    ExecThree([i], [j], [k], s);
    MovEffect(At(S(Cr3)), At(R(Rdi)), s);
    MovEffect(At(R(Rdi)), At(S(Cr3)), Step(j, Step(i, s)));
  }

  lemma ClearedThenScratched(s: State, s1: State, s2: State)
    requires Cr3Cleared({Rdi}, s, s1) && Scratched({Rdi}, s1, s2)
    ensures Cr3Cleared({Rdi}, s, s2)
  {
    assert Get(s1, R(Rsp)) == Get(s, R(Rsp));
  }

  lemma ThenFlush(p: seq<Instr>, q: seq<Instr>, s: State)
    requires Cr3Cleared({Rdi}, s, Exec(p, s))
    requires forall x :: Scratched({Rdi}, x, Exec(q, x))
    ensures Cr3Cleared({Rdi}, s, Exec(p + q, s))
  {
    ExecAppend(p, q, s);
    ClearedThenScratched(s, Exec(p, s), Exec(q, Exec(p, s)));
  }

  lemma AfterSwitchCr3(s: State)
    ensures Cr3Cleared({Rdi}, s, Exec(SwitchCr3(), s))
  {
    AfterClearing(PAIR_BIT, PAIR_BIT + 1, s);
    forall x ensures Scratched({Rdi}, x, Exec(FlushUnlessTagged(Rdi, FlushByPush(Rdi)), x)) {
      AfterCheckedFlushByPush(Rdi, x);
    }
    ThenFlush(ClearInCr3(PAIR_BIT, PAIR_BIT + 1), FlushUnlessTagged(Rdi, FlushByPush(Rdi)), s);
  }

  /** rsi on the stack, rdi at g, and cr3 holding c. */
  ghost predicate AnchoredAt(g: int, c: int, s: State, s': State) {
    Cr3Becomes(c, {Rdi, Rsi}, s, s') && Get(s', R(Rsi)) == Get(s, R(Rsp)) && Get(s', R(Rdi)) == g
  }

  ghost predicate Anchored(s: State, s': State) {
    AnchoredAt(BitsCleared(Get(s, R(Rsp)), 0, AREA_BITS), BitsCleared(Get(s, S(Cr3)), PAIR_BIT, PAIR_BIT + 1), s, s')
  }

  lemma AfterMaskRsp(s: State)
    ensures OnlyRegs({Rdi}, s, Exec(MaskRsp(), s))
    ensures Get(Exec(MaskRsp(), s), R(Rdi)) == BitsCleared(Get(s, R(Rsp)), 0, AREA_BITS)
  {
    ExecOne(Mov(At(R(Rsp)), At(R(Rdi))), [ClearBits(Rdi, 0, AREA_BITS)], s);
    MovEffect(At(R(Rsp)), At(R(Rdi)), s);
  }

  lemma AnchoredParts(s: State, s1: State, s2: State, s3: State)
    requires OnlyRegs({Rsi}, s, s1) && Get(s1, R(Rsi)) == Get(s, R(Rsp))
    requires Cr3Cleared({Rdi}, s1, s2) && OnlyRegs({Rdi}, s2, s3)
    requires Get(s3, R(Rdi)) == BitsCleared(Get(s2, R(Rsp)), 0, AREA_BITS)
    ensures Anchored(s, s3)
  {
    assert Get(s1, R(Rsp)) == Get(s, R(Rsp)) && Get(s1, S(Cr3)) == Get(s, S(Cr3));
  }

  lemma AnchoredBy(i: Instr, p: seq<Instr>, q: seq<Instr>, s: State)
    requires OnlyRegs({Rsi}, s, Step(i, s)) && Get(Step(i, s), R(Rsi)) == Get(s, R(Rsp))
    requires forall x :: Cr3Cleared({Rdi}, x, Exec(p, x))
    requires forall x :: OnlyRegs({Rdi}, x, Exec(q, x)) && Get(Exec(q, x), R(Rdi)) == BitsCleared(Get(x, R(Rsp)), 0, AREA_BITS)
    ensures Anchored(s, Exec([i] + p + q, s))
  {
    ExecThree([i], p, q, s);
    var s1 := Step(i, s);
    var s2 := Exec(p, s1);
    AnchoredParts(s, s1, s2, Exec(q, s2));
  }

  lemma AfterFindArea(s: State)
    ensures Anchored(s, Exec(FindArea(), s))
  {
    forall x ensures Cr3Cleared({Rdi}, x, Exec(SwitchCr3(), x)) {
      AfterSwitchCr3(x);
    }
    forall x ensures OnlyRegs({Rdi}, x, Exec(MaskRsp(), x)) && Get(Exec(MaskRsp(), x), R(Rdi)) == BitsCleared(Get(x, R(Rsp)), 0, AREA_BITS) {
      AfterMaskRsp(x);
    }
    MovEffect(At(R(Rsp)), At(R(Rsi)), s);
    AnchoredBy(Mov(At(R(Rsp)), At(R(Rsi))), SwitchCr3(), MaskRsp(), s);
  }

  /* ---- saving the context ---- */

  function HighRegs(): seq<Reg> { [R15, R14, R13, R12, R11, R10, R9, R8, Rbp] }

  function LowRegs(): seq<Reg> { [Rdx, Rcx, Rbx, Rax] }

  /** cr0, cr2, cr3, cr4, cr8 */
  function Control(): seq<Operand> { [At(S(Cr0)), At(S(Cr2)), At(S(Cr3)), At(S(Cr4)), At(S(Cr8))] }

  /** error, rip, cs, rflags, rsp, ss and the interrupt number, on the trap stack above rsi and rdi */
  function TrapInfo(): seq<Operand> {
    [Mem(Rsi, 24), Mem(Rsi, 32), Mem(Rsi, 40), Mem(Rsi, 48), Mem(Rsi, 56), Mem(Rsi, 64), Mem(Rsi, 16)]
  }

  function SaveRegs(high: seq<Reg>, low: seq<Reg>): seq<Instr> {
    Saves(high)
    + (Copies(Rbp, [Mem(Rsi, 56)], Off(Rsp)) + Copies(Rbp, [Mem(Rsi, 8)], Off(Rdi)) + Copies(Rbp, [Mem(Rsi, 0)], Off(Rsi)))
    + Saves(low)
  }

  function SaveInfo(control: seq<Operand>, trapInfo: seq<Operand>): seq<Instr> {
    Copies(Rax, control, OFF_CR0) + Copies(Rbp, trapInfo, OFF_TI_ERROR)
  }

  /** rsi points at the trap stack, above the area's fields. */
  predicate Ready(s: State) {
    Get(s, R(Rsi)) >= Get(s, R(Rdi)) + STACK_BOTTOM
  }

  ghost predicate RegsSaved(s: State, s': State) {
    var g, t := Get(s, R(Rdi)), Get(s, R(Rsi));
    && OnlyWords(g + 128, g + 256, {Rbp}, s, s')
    && (forall r :: r != Rsp && r != Rdi && r != Rsi ==> Get(s', M(g + Off(r))) == Get(s, R(r)))
    && Get(s', M(g + Off(Rsp))) == Get(s, M(t + 56))
    && Get(s', M(g + Off(Rdi))) == Get(s, M(t + 8))
    && Get(s', M(g + Off(Rsi))) == Get(s, M(t))
  }

  /** Only the words from low to high and the registers of rs may differ. */
  ghost predicate OnlyWords(low: int, high: int, rs: set<Reg>, s: State, s': State) {
    && SameSystem(s, s')
    && (forall r :: r !in rs ==> Get(s', R(r)) == Get(s, R(r)))
    && (forall a :: !(low <= a < high) ==> Get(s', M(a)) == Get(s, M(a)))
  }

  lemma AfterThreeCopies(s: State)
    requires Ready(s)
    ensures var p := Copies(Rbp, [Mem(Rsi, 56)], Off(Rsp)) + Copies(Rbp, [Mem(Rsi, 8)], Off(Rdi)) + Copies(Rbp, [Mem(Rsi, 0)], Off(Rsi));
            StackRegsSaved(s, Exec(p, s))
  {
    var p, q, t := Copies(Rbp, [Mem(Rsi, 56)], Off(Rsp)), Copies(Rbp, [Mem(Rsi, 8)], Off(Rdi)), Copies(Rbp, [Mem(Rsi, 0)], Off(Rsi));
    ExecThree(p, q, t, s);
    var s1 := Exec(p, s);
    var s2 := Exec(q, s1);
    CopyWord(56, Rsp, s);
    CopyWord(8, Rdi, s1);
    CopyWord(0, Rsi, s2);
    StackRegsParts(s, s1, s2, Exec(t, s2));
  }

  /** One word of the trap stack in one register's slot. */
  ghost predicate SlotCopied(off: int, r: Reg, s: State, s': State) {
    var g, t := Get(s, R(Rdi)), Get(s, R(Rsi));
    && SameSystem(s, s')
    && (forall q :: q != Rbp ==> Get(s', R(q)) == Get(s, R(q)))
    && (forall a :: !(g + Off(r) <= a < g + Off(r) + 8) ==> Get(s', M(a)) == Get(s, M(a)))
    && Get(s', M(g + Off(r))) == Get(s, M(t + off))
  }

  lemma CopyWord(off: nat, r: Reg, s: State)
    requires Ready(s)
    ensures SlotCopied(off, r, s, Exec(Copies(Rbp, [Mem(Rsi, off)], Off(r)), s))
  {
    SlotFacts(r);
    var os := [Mem(Rsi, off)];
    AfterCopies(Rbp, os, Off(r), s);
    assert Values(s, os)[0] == Get(s, M(Get(s, R(Rsi)) + off));
  }

  ghost predicate StackRegsSaved(s: State, s': State) {
    var g, t := Get(s, R(Rdi)), Get(s, R(Rsi));
    && SameSystem(s, s')
    && (forall q :: q != Rbp ==> Get(s', R(q)) == Get(s, R(q)))
    && (forall a :: !(g + Off(Rsi) <= a < g + Off(Rsp) + 8) ==> Get(s', M(a)) == Get(s, M(a)))
    && Get(s', M(g + Off(Rsp))) == Get(s, M(t + 56))
    && Get(s', M(g + Off(Rdi))) == Get(s, M(t + 8))
    && Get(s', M(g + Off(Rsi))) == Get(s, M(t))
  }

  lemma StackRegsParts(s: State, s1: State, s2: State, s3: State)
    requires Ready(s) && SlotCopied(56, Rsp, s, s1) && SlotCopied(8, Rdi, s1, s2) && SlotCopied(0, Rsi, s2, s3)
    ensures StackRegsSaved(s, s3)
  {
  }

  lemma RegsParts(high: seq<Reg>, low: seq<Reg>, s: State, s1: State, s2: State, s3: State)
    requires Ready(s) && SavedLists(high, low)
    requires Saved(high, s, s1) && StackRegsSaved(s1, s2) && Saved(low, s2, s3)
    ensures RegsSaved(s, s3)
  {
    forall r
      ensures 128 <= Off(r) < 256 && (Off(Rsi) <= Off(r) < Off(Rsp) + 8 ==> r == Rsp || r == Rdi || r == Rsi)
    {
      SlotFacts(r);
    }
  }

  /** Together the lists hold every register that is not on the trap stack. */
  ghost predicate SavedLists(high: seq<Reg>, low: seq<Reg>) {
    && Rbp in high && Rbp !in low && Rsp !in low && Rdi !in low && Rsi !in low
    && forall r :: r == Rsp || r == Rdi || r == Rsi || r in high || r in low
  }

  lemma TheListsCover()
    ensures SavedLists(HighRegs(), LowRegs())
  {
  }

  lemma RegsPrograms(high: seq<Reg>, p: seq<Instr>, low: seq<Reg>, s: State)
    requires Ready(s) && SavedLists(high, low)
    requires forall x | Ready(x) :: StackRegsSaved(x, Exec(p, x))
    ensures RegsSaved(s, Exec(Saves(high) + p + Saves(low), s))
  {
    ExecThree(Saves(high), p, Saves(low), s);
    var s1 := Exec(Saves(high), s);
    var s2 := Exec(p, s1);
    AfterSaves(high, s);
    AfterSaves(low, s2);
    RegsParts(high, low, s, s1, s2, Exec(Saves(low), s2));
  }

  lemma AfterSaveRegs(s: State)
    requires Ready(s)
    ensures RegsSaved(s, Exec(SaveRegs(HighRegs(), LowRegs()), s))
  {
    TheListsCover();
    var p := Copies(Rbp, [Mem(Rsi, 56)], Off(Rsp)) + Copies(Rbp, [Mem(Rsi, 8)], Off(Rdi)) + Copies(Rbp, [Mem(Rsi, 0)], Off(Rsi));
    forall x | Ready(x) ensures StackRegsSaved(x, Exec(p, x)) {
      AfterThreeCopies(x);
    }
    RegsPrograms(HighRegs(), p, LowRegs(), s);
  }

  ghost predicate InfoSaved(s: State, s': State) {
    var g, t := Get(s, R(Rdi)), Get(s, R(Rsi));
    && SameSystem(s, s')
    && (forall r :: r != Rax && r != Rbp ==> Get(s', R(r)) == Get(s, R(r)))
    && (forall a :: !(g + OFF_CR0 <= a < g + OFF_CR0 + 40) && !(g + OFF_TI_ERROR <= a < g + FIELDS_END) ==> Get(s', M(a)) == Get(s, M(a)))
    && ControlSaved(g, s, s') && TrapInfoSaved(g, t, s, s')
  }

  ghost predicate ControlSaved(g: int, s: State, s': State) {
    && Get(s', M(g + OFF_CR0)) == Get(s, S(Cr0)) && Get(s', M(g + OFF_CR2)) == Get(s, S(Cr2))
    && Get(s', M(g + OFF_CR3)) == Get(s, S(Cr3)) && Get(s', M(g + OFF_CR4)) == Get(s, S(Cr4))
    && Get(s', M(g + OFF_CR8)) == Get(s, S(Cr8))
  }

  /** trap_info and intr_no hold the words of the trap stack at t. */
  ghost predicate TrapInfoSaved(g: int, t: int, s: State, s': State) {
    && Get(s', M(g + OFF_TI_ERROR)) == Get(s, M(t + 24)) && Get(s', M(g + OFF_TI_RIP)) == Get(s, M(t + 32))
    && Get(s', M(g + OFF_TI_CS)) == Get(s, M(t + 40)) && Get(s', M(g + OFF_TI_RFLAGS)) == Get(s, M(t + 48))
    && Get(s', M(g + OFF_TI_RSP)) == Get(s, M(t + 56)) && Get(s', M(g + OFF_TI_SS)) == Get(s, M(t + 64))
    && Get(s', M(g + OFF_INTR_NO)) == Get(s, M(t + 16))
  }

  lemma AfterControl(os: seq<Operand>, s: State)
    requires |os| == 5 && os[0] == At(S(Cr0)) && os[1] == At(S(Cr2)) && os[2] == At(S(Cr3)) && os[3] == At(S(Cr4)) && os[4] == At(S(Cr8))
    requires forall o :: o in os ==> Source(s, o)
    ensures var s', g := Exec(Copies(Rax, os, OFF_CR0), s), Get(s, R(Rdi));
            ControlSaved(g, s, s') && OnlyWords(g + OFF_CR0, g + OFF_CR0 + 40, {Rax}, s, s')
  {
    AfterCopies(Rax, os, OFF_CR0, s);
    ControlParts(Values(s, os), s, Exec(Copies(Rax, os, OFF_CR0), s));
  }

  lemma ControlParts(vs: seq<int>, s: State, s': State)
    requires Copied(Rax, vs, OFF_CR0, s, s')
    requires |vs| == 5 && vs[0] == Get(s, S(Cr0)) && vs[1] == Get(s, S(Cr2)) && vs[2] == Get(s, S(Cr3))
    requires vs[3] == Get(s, S(Cr4)) && vs[4] == Get(s, S(Cr8))
    ensures var g := Get(s, R(Rdi)); ControlSaved(g, s, s') && OnlyWords(g + OFF_CR0, g + OFF_CR0 + 40, {Rax}, s, s')
  {
  }

  lemma AfterTrapInfo(os: seq<Operand>, s: State)
    requires |os| == 7 && os[0] == Mem(Rsi, 24) && os[1] == Mem(Rsi, 32) && os[2] == Mem(Rsi, 40) && os[3] == Mem(Rsi, 48)
    requires os[4] == Mem(Rsi, 56) && os[5] == Mem(Rsi, 64) && os[6] == Mem(Rsi, 16)
    requires forall o :: o in os ==> Source(s, o)
    ensures var s', g := Exec(Copies(Rbp, os, OFF_TI_ERROR), s), Get(s, R(Rdi));
            TrapInfoSaved(g, Get(s, R(Rsi)), s, s') && OnlyWords(g + OFF_TI_ERROR, g + FIELDS_END, {Rbp}, s, s')
  {
    AfterCopies(Rbp, os, OFF_TI_ERROR, s);
    TrapInfoParts(Values(s, os), s, Exec(Copies(Rbp, os, OFF_TI_ERROR), s));
  }

  lemma TrapInfoParts(vs: seq<int>, s: State, s': State)
    requires Copied(Rbp, vs, OFF_TI_ERROR, s, s')
    requires var t := Get(s, R(Rsi));
             && |vs| == 7 && vs[0] == Get(s, M(t + 24)) && vs[1] == Get(s, M(t + 32)) && vs[2] == Get(s, M(t + 40))
             && vs[3] == Get(s, M(t + 48)) && vs[4] == Get(s, M(t + 56)) && vs[5] == Get(s, M(t + 64)) && vs[6] == Get(s, M(t + 16))
    ensures var g := Get(s, R(Rdi));
            TrapInfoSaved(g, Get(s, R(Rsi)), s, s') && OnlyWords(g + OFF_TI_ERROR, g + FIELDS_END, {Rbp}, s, s')
  {
  }

  lemma InfoParts(s: State, s1: State, s2: State)
    requires Ready(s)
    requires var g := Get(s, R(Rdi)); ControlSaved(g, s, s1) && OnlyWords(g + OFF_CR0, g + OFF_CR0 + 40, {Rax}, s, s1)
    requires var g := Get(s, R(Rdi)); TrapInfoSaved(g, Get(s, R(Rsi)), s1, s2) && OnlyWords(g + OFF_TI_ERROR, g + FIELDS_END, {Rbp}, s1, s2)
    ensures InfoSaved(s, s2)
  {
  }

  lemma ControlSources(s: State)
    ensures forall o :: o in Control() ==> Source(s, o)
  {
  }

  lemma TrapInfoSources(s: State)
    requires Ready(s)
    ensures forall o :: o in TrapInfo() ==> Source(s, o)
  {
  }

  lemma AfterSaveInfo(s: State)
    requires Ready(s)
    ensures InfoSaved(s, Exec(SaveInfo(Control(), TrapInfo()), s))
  {
    var s1 := Exec(Copies(Rax, Control(), OFF_CR0), s);
    ExecAppend(Copies(Rax, Control(), OFF_CR0), Copies(Rbp, TrapInfo(), OFF_TI_ERROR), s);
    ControlSources(s);
    AfterControl(Control(), s);
    TrapInfoSources(s1);
    AfterTrapInfo(TrapInfo(), s1);
    InfoParts(s, s1, Exec(Copies(Rbp, TrapInfo(), OFF_TI_ERROR), s1));
  }

  /* ---- on to kkm_switch_to_host_kernel ---- */

  function ToHostKernel(): seq<Instr> {
    [Mov(Imm(REDIRECT), At(R(Rbx)))] + [Mov(Mem(Rbx, 0), At(R(Rax)))] + [Push(At(R(Rax)))] + [Ret]
  }

  ghost predicate JumpedToHost(s: State, s': State) {
    var sp := Get(s, R(Rsp));
    && Get(s', S(Rip)) == Get(s, M(REDIRECT))
    && (forall x :: x != Rip ==> Get(s', S(x)) == Get(s, S(x)))
    && (forall f :: Get(s', K(f)) == Get(s, K(f)))
    && (forall r :: r != Rax && r != Rbx ==> Get(s', R(r)) == Get(s, R(r)))
    && (forall a :: !(sp - 8 <= a < sp) ==> Get(s', M(a)) == Get(s, M(a)))
  }

  lemma AfterPushRet(r: Reg, s: State)
    requires r != Rsp
    ensures var s', sp := Step(Ret, Step(Push(At(R(r))), s)), Get(s, R(Rsp));
            forall l :: l != M(sp - 8) ==> Get(s', l) == if l == S(Rip) then Get(s, R(r)) else Get(s, l)
  {
    PushEffect(At(R(r)), s);
    RetEffect(Step(Push(At(R(r))), s));
  }

  lemma AfterToHostKernel(s: State)
    ensures JumpedToHost(s, Exec(ToHostKernel(), s))
  {
    var i, j := Mov(Imm(REDIRECT), At(R(Rbx))), Mov(Mem(Rbx, 0), At(R(Rax)));
    ExecFour([i], [j], [Push(At(R(Rax)))], [Ret], s);
    MovEffect(Imm(REDIRECT), At(R(Rbx)), s);
    MovEffect(Mem(Rbx, 0), At(R(Rax)), Step(i, s));
    AfterPushRet(Rax, Step(j, Step(i, s)));
  }

  /** The registers come in two lists, before and after the copies from the trap stack. */
  function IntrCommon(high: seq<Reg>, low: seq<Reg>): seq<Instr> {
    Pushes([At(R(Rdi)), At(R(Rsi))]) + FindArea() + (SaveRegs(high, low) + SaveInfo(Control(), TrapInfo())) + ToHostKernel()
  }

  /** Where the exit code starts: seven words below the top of the guest stack. */
  predicate AtTrapStack(g: int, s: State) {
    g % AREA_SIZE == 0 && Get(s, R(Rsp)) == g + STACK_TOP - 56
  }

  /** Words the exit code may write: the saved fields, and three words of the trap stack. */
  predicate ExitWrites(g: int, a: int) {
    || g + 128 <= a < g + 256 || g + OFF_CR0 <= a < g + OFF_CR0 + 40 || g + OFF_TI_ERROR <= a < g + FIELDS_END
    || g + STACK_TOP - 80 <= a < g + STACK_TOP - 56
  }

  /** Every register and all of the trap stack saved, ready for kkm_switch_to_host_kernel. */
  ghost predicate ContextSaved(g: int, cr3: int, s: State, s': State) {
    var top := g + STACK_TOP;
    && (forall r :: r != Rsp ==> Get(s', M(g + Off(r))) == Get(s, R(r)))
    && Get(s', M(g + Off(Rsp))) == Get(s, M(top - 16))
    && Get(s', M(g + OFF_CR0)) == Get(s, S(Cr0)) && Get(s', M(g + OFF_CR2)) == Get(s, S(Cr2))
    && Get(s', M(g + OFF_CR3)) == Get(s', S(Cr3)) && Get(s', M(g + OFF_CR4)) == Get(s, S(Cr4))
    && Get(s', M(g + OFF_CR8)) == Get(s, S(Cr8))
    && Get(s', M(g + OFF_TI_SS)) == Get(s, M(top - 8)) && Get(s', M(g + OFF_TI_RSP)) == Get(s, M(top - 16))
    && Get(s', M(g + OFF_TI_RFLAGS)) == Get(s, M(top - 24)) && Get(s', M(g + OFF_TI_CS)) == Get(s, M(top - 32))
    && Get(s', M(g + OFF_TI_RIP)) == Get(s, M(top - 40)) && Get(s', M(g + OFF_TI_ERROR)) == Get(s, M(top - 48))
    && Get(s', M(g + OFF_INTR_NO)) == Get(s, M(top - 56))
    && Get(s', R(Rdi)) == g && Get(s', R(Rsp)) == top - 72
    && Get(s', S(Cr3)) == cr3
    && Get(s', S(Rip)) == Get(s, M(REDIRECT))
    && (forall x :: x != Cr3 && x != Rip ==> Get(s', S(x)) == Get(s, S(x)))
    && (forall f :: Get(s', K(f)) == Get(s, K(f)))
    && (forall a :: !ExitWrites(g, a) ==> Get(s', M(a)) == Get(s, M(a)))
  }

  /** rdi and rsi pushed, rsi on them and rdi on the area: nothing else lost. */
  ghost predicate AtArea(g: int, cr3: int, s: State, s': State) {
    var top := g + STACK_TOP;
    && Get(s', R(Rdi)) == g && Get(s', R(Rsi)) == top - 72 && Get(s', R(Rsp)) == top - 72
    && Get(s', M(top - 64)) == Get(s, R(Rdi)) && Get(s', M(top - 72)) == Get(s, R(Rsi))
    && Get(s', S(Cr3)) == cr3
    && (forall x :: x != Cr3 ==> Get(s', S(x)) == Get(s, S(x)))
    && (forall f :: Get(s', K(f)) == Get(s, K(f)))
    && (forall r: Reg :: !(r.Rsp? || r.Rdi? || r.Rsi?) ==> Get(s', R(r)) == Get(s, R(r)))
    && (forall a :: !(top - 80 <= a < top - 56) ==> Get(s', M(a)) == Get(s, M(a)))
  }

  lemma AreaParts(g: int, cr3: int, s: State, s1: State, s2: State)
    requires AtTrapStack(g, s)
    requires Pushed([Get(s, R(Rdi)), Get(s, R(Rsi))], s, s1) && AnchoredAt(g, cr3, s1, s2)
    ensures AtArea(g, cr3, s, s2)
  {
    var top := g + STACK_TOP;
    assert Get(s1, R(Rsp)) == top - 72;
    forall a | !(top - 80 <= a < top - 56) ensures Get(s2, M(a)) == Get(s, M(a)) {
      assert Get(s1, M(a)) == Get(s, M(a));
    }
  }

  /** AtArea, with the general registers in their slots. */
  ghost predicate RegsHeld(g: int, cr3: int, s: State, s': State) {
    var top := g + STACK_TOP;
    && (forall r :: r != Rsp ==> Get(s', M(g + Off(r))) == Get(s, R(r)))
    && Get(s', M(g + Off(Rsp))) == Get(s, M(top - 16))
    && Get(s', R(Rdi)) == g && Get(s', R(Rsi)) == top - 72 && Get(s', R(Rsp)) == top - 72
    && Get(s', S(Cr3)) == cr3
    && (forall x :: x != Cr3 ==> Get(s', S(x)) == Get(s, S(x)))
    && (forall f :: Get(s', K(f)) == Get(s, K(f)))
    && (forall a :: !(g + 128 <= a < g + 256) && !(top - 80 <= a < top - 56) ==> Get(s', M(a)) == Get(s, M(a)))
  }

  lemma HoldingParts(g: int, cr3: int, s: State, s1: State, s2: State)
    requires AtTrapStack(g, s)
    requires AtArea(g, cr3, s, s1) && RegsSaved(s1, s2)
    ensures RegsHeld(g, cr3, s, s2)
  {
  }

  /** The trap stack's words as they were at first. */
  lemma StackWordsHeld(g: int, cr3: int, s: State, s2: State)
    requires RegsHeld(g, cr3, s, s2)
    ensures forall a :: g + STACK_TOP - 56 <= a < g + STACK_TOP ==> Get(s2, M(a)) == Get(s, M(a))
  {
  }

  lemma SlotsStayHeld(g: int, s2: State, s3: State, s4: State)
    requires Get(s2, R(Rdi)) == g && Get(s2, R(Rsp)) == g + STACK_TOP - 72 && InfoSaved(s2, s3) && JumpedToHost(s3, s4)
    ensures forall r :: Get(s4, M(g + Off(r))) == Get(s2, M(g + Off(r)))
  {
    forall r ensures 128 <= Off(r) < 256 {
      SlotFacts(r);
    }
  }

  lemma SavingParts(g: int, cr3: int, s: State, s2: State, s3: State, s4: State)
    requires AtTrapStack(g, s) && !(g <= REDIRECT < g + AREA_SIZE)
    requires RegsHeld(g, cr3, s, s2) && InfoSaved(s2, s3) && JumpedToHost(s3, s4)
    ensures ContextSaved(g, cr3, s, s4)
  {
    SlotsStayHeld(g, s2, s3, s4);
    StackWordsHeld(g, cr3, s, s2);
    assert Get(s2, M(REDIRECT)) == Get(s, M(REDIRECT)) && Get(s3, M(REDIRECT)) == Get(s, M(REDIRECT));
  }

  lemma CommonPrograms(g: int, p: seq<Instr>, q: seq<Instr>, t1: seq<Instr>, t2: seq<Instr>, u: seq<Instr>, s: State)
    requires AtTrapStack(g, s) && !(g <= REDIRECT < g + AREA_SIZE)
    requires var s1 := Exec(p, s); Pushed([Get(s, R(Rdi)), Get(s, R(Rsi))], s, s1) && Anchored(s1, Exec(q, s1))
    requires forall x | Ready(x) :: RegsSaved(x, Exec(t1, x))
    requires forall x | Ready(x) :: InfoSaved(x, Exec(t2, x))
    requires forall x :: JumpedToHost(x, Exec(u, x))
    ensures ContextSaved(g, BitsCleared(Get(s, S(Cr3)), PAIR_BIT, PAIR_BIT + 1), s, Exec(p + q + (t1 + t2) + u, s))
  {
    ExecFour(p, q, t1 + t2, u, s);
    var s1 := Exec(p, s);
    var s2 := Exec(q, s1);
    var s3 := Exec(t1, s2);
    var s4 := Exec(t2, s3);
    ExecAppend(t1, t2, s2);
    var cr3 := BitsCleared(Get(s, S(Cr3)), PAIR_BIT, PAIR_BIT + 1);
    RspFindsArea(g, Get(s1, R(Rsp)));
    assert Get(s1, S(Cr3)) == Get(s, S(Cr3));
    AreaParts(g, cr3, s, s1, s2);
    HoldingParts(g, cr3, s, s2, s3);
    SavingParts(g, cr3, s, s3, s4, Exec(u, s4));
  }

  lemma AfterTwoPushes(s: State)
    ensures Pushed([Get(s, R(Rdi)), Get(s, R(Rsi))], s, Exec(Pushes([At(R(Rdi)), At(R(Rsi))]), s))
  {
    AfterPushes([At(R(Rdi)), At(R(Rsi))], s);
    assert Values(s, [At(R(Rdi)), At(R(Rsi))]) == [Get(s, R(Rdi)), Get(s, R(Rsi))];
  }

  lemma AfterIntrCommon(g: int, s: State)
    requires AtTrapStack(g, s) && !(g <= REDIRECT < g + AREA_SIZE)
    ensures ContextSaved(g, BitsCleared(Get(s, S(Cr3)), PAIR_BIT, PAIR_BIT + 1), s, Exec(IntrCommon(HighRegs(), LowRegs()), s))
  {
    AfterTwoPushes(s);
    AfterFindArea(Exec(Pushes([At(R(Rdi)), At(R(Rsi))]), s));
    forall x | Ready(x) ensures RegsSaved(x, Exec(SaveRegs(HighRegs(), LowRegs()), x)) { AfterSaveRegs(x); }
    forall x | Ready(x) ensures InfoSaved(x, Exec(SaveInfo(Control(), TrapInfo()), x)) { AfterSaveInfo(x); }
    forall x ensures JumpedToHost(x, Exec(ToHostKernel(), x)) { AfterToHostKernel(x); }
    CommonPrograms(g, Pushes([At(R(Rdi)), At(R(Rsi))]), FindArea(), SaveRegs(HighRegs(), LowRegs()), SaveInfo(Control(), TrapInfo()), ToHostKernel(), s);
  }
}
