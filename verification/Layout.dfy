/** The same words as the monitor and the assembly know them: struct kkm_guest_area by byte offsets, and
    struct kkm_regs field by field. */
module Layout {
  import opened Machine
  import opened Straight
  import opened Flags
  import opened EntryCode
  import opened ExitCode
  import opened Arrival
  import opened CHalves
  import opened HostReturn
  import opened WorldSwitch
  import opened Visits
  import RunLoop

  /** regs.rax to regs.r15, in the area at g, are the registers of s'. */
  ghost predicate RegsAt(g: int, s: State, s': State) {
    && Get(s', R(Rax)) == Get(s, M(g + 128)) && Get(s', R(Rbx)) == Get(s, M(g + 136))
    && Get(s', R(Rcx)) == Get(s, M(g + 144)) && Get(s', R(Rdx)) == Get(s, M(g + 152))
    && Get(s', R(Rsi)) == Get(s, M(g + 160)) && Get(s', R(Rdi)) == Get(s, M(g + 168))
    && Get(s', R(Rsp)) == Get(s, M(g + 176)) && Get(s', R(Rbp)) == Get(s, M(g + 184))
    && Get(s', R(R8)) == Get(s, M(g + 192)) && Get(s', R(R9)) == Get(s, M(g + 200))
    && Get(s', R(R10)) == Get(s, M(g + 208)) && Get(s', R(R11)) == Get(s, M(g + 216))
    && Get(s', R(R12)) == Get(s, M(g + 224)) && Get(s', R(R13)) == Get(s, M(g + 232))
    && Get(s', R(R14)) == Get(s, M(g + 240)) && Get(s', R(R15)) == Get(s, M(g + 248))
  }

  /** kkm_offsets.h for the registers, in the order of struct kkm_regs. */
  lemma OffsetsAre()
    ensures Off(Rax) == 128 && Off(Rbx) == 136 && Off(Rcx) == 144 && Off(Rdx) == 152
    ensures Off(Rsi) == 160 && Off(Rdi) == 168 && Off(Rsp) == 176 && Off(Rbp) == 184
    ensures Off(R8) == 192 && Off(R9) == 200 && Off(R10) == 208 && Off(R11) == 216
    ensures Off(R12) == 224 && Off(R13) == 232 && Off(R14) == 240 && Off(R15) == 248
  {
  }

  lemma SlotsAreWords(g: int, s: State, s': State)
    requires forall r :: Get(s', R(r)) == Get(s, M(g + Off(r)))
    ensures RegsAt(g, s, s')
  {
    OffsetsAre();
  }

  /** The entry code, by offsets: registers, rip, rflags, cs, ss and cr3. */
  lemma EntryByWords(s: State)
    requires var g := Get(s, R(Rdi)); g + 4416 <= Get(s, R(Rsp)) <= g + 7936
    ensures var g, s' := Get(s, R(Rdi)), Exec(SwitchToGp(FirstLoads(), LastLoads(), LastPops()), s);
            && RegsAt(g, s, s')
            && Get(s', S(Rip)) == Get(s, M(g + 256)) && Get(s', S(Rflags)) == Get(s, M(g + 264))
            && Get(s', S(Cs)) == Get(s, M(g + 56)) && Get(s', S(Ss)) == Get(s, M(g + 64)) && Get(s', S(Cr3)) == Get(s, M(g + 40))
  {
    EntryLoadsContext(s);
    EnteredAreWords(s, Exec(SwitchToGp(FirstLoads(), LastLoads(), LastPops()), s));
  }

  lemma EnteredAreWords(s: State, s': State)
    requires PayloadEntered(s, s')
    ensures var g := Get(s, R(Rdi));
            && RegsAt(g, s, s')
            && Get(s', S(Rip)) == Get(s, M(g + 256)) && Get(s', S(Rflags)) == Get(s, M(g + 264))
            && Get(s', S(Cs)) == Get(s, M(g + 56)) && Get(s', S(Ss)) == Get(s, M(g + 64)) && Get(s', S(Cr3)) == Get(s, M(g + 40))
  {
    SlotsAreWords(Get(s, R(Rdi)), s, s');
  }

  /** The words the exit code finds on the trap stack, and where it puts them. */
  ghost predicate TrapWordsAt(g: int, s: State, s': State) {
    && Get(s', M(g + 1112)) == Get(s, M(g + 7928)) && Get(s', M(g + 1104)) == Get(s, M(g + 7920))   // ss, rsp
    && Get(s', M(g + 1096)) == Get(s, M(g + 7912)) && Get(s', M(g + 1088)) == Get(s, M(g + 7904))   // rflags, cs
    && Get(s', M(g + 1080)) == Get(s, M(g + 7896)) && Get(s', M(g + 1072)) == Get(s, M(g + 7888))   // rip, error
    && Get(s', M(g + 1120)) == Get(s, M(g + 7880))                                                  // number
  }

  /** Registers of s saved in the area, with rsp from the trap stack. */
  ghost predicate RegsSavedAt(g: int, s: State, s': State) {
    && Get(s', M(g + 128)) == Get(s, R(Rax)) && Get(s', M(g + 136)) == Get(s, R(Rbx))
    && Get(s', M(g + 144)) == Get(s, R(Rcx)) && Get(s', M(g + 152)) == Get(s, R(Rdx))
    && Get(s', M(g + 160)) == Get(s, R(Rsi)) && Get(s', M(g + 168)) == Get(s, R(Rdi))
    && Get(s', M(g + 176)) == Get(s, M(g + 7920)) && Get(s', M(g + 184)) == Get(s, R(Rbp))
    && Get(s', M(g + 192)) == Get(s, R(R8)) && Get(s', M(g + 200)) == Get(s, R(R9))
    && Get(s', M(g + 208)) == Get(s, R(R10)) && Get(s', M(g + 216)) == Get(s, R(R11))
    && Get(s', M(g + 224)) == Get(s, R(R12)) && Get(s', M(g + 232)) == Get(s, R(R13))
    && Get(s', M(g + 240)) == Get(s, R(R14)) && Get(s', M(g + 248)) == Get(s, R(R15))
  }

  /** All registers but rsp in their slots. */
  ghost predicate Slots(g: int, s: State, s': State) {
    forall r :: r != Rsp ==> Get(s', M(g + Off(r))) == Get(s, R(r))
  }

  lemma SlotsSaved(g: int, s: State, s': State)
    requires Slots(g, s, s') && Get(s', M(g + 176)) == Get(s, M(g + 7920))
    ensures RegsSavedAt(g, s, s')
  {
    OffsetsAre();
  }

  lemma SavedAreSlots(g: int, cr3: int, s: State, s': State)
    requires ContextSaved(g, cr3, s, s')
    ensures Slots(g, s, s') && Get(s', M(g + 176)) == Get(s, M(g + 7920))
  {
  }

  lemma SavedAreWords(g: int, cr3: int, s: State, s': State)
    requires ContextSaved(g, cr3, s, s')
    ensures RegsSavedAt(g, s, s')
  {
    SavedAreSlots(g, cr3, s, s');
    SlotsSaved(g, s, s');
  }

  lemma ControlAreWords(g: int, cr3: int, s: State, s': State)
    requires ContextSaved(g, cr3, s, s')
    ensures TrapWordsAt(g, s, s')
    ensures Get(s', M(g + 496)) == Get(s, S(Cr0)) && Get(s', M(g + 504)) == Get(s, S(Cr2))
    ensures Get(s', M(g + 512)) == cr3 && Get(s', M(g + 520)) == Get(s, S(Cr4)) && Get(s', M(g + 528)) == Get(s, S(Cr8))
  {
  }

  /** The exit code, by offsets. */
  lemma ExitByWords(g: int, s: State)
    requires g % 8192 == 0 && Get(s, R(Rsp)) == g + 7880 && !(g <= 0xFFFF_FE80_0000_3000 < g + 8192)
    ensures var s' := Exec(IntrCommon(HighRegs(), LowRegs()), s);
            && RegsSavedAt(g, s, s') && TrapWordsAt(g, s, s')
            && Get(s', M(g + 496)) == Get(s, S(Cr0)) && Get(s', M(g + 504)) == Get(s, S(Cr2))
            && Get(s', M(g + 520)) == Get(s, S(Cr4)) && Get(s', M(g + 528)) == Get(s, S(Cr8))
            && Get(s', S(Rip)) == Get(s, M(0xFFFF_FE80_0000_3000))
  {
    AfterIntrCommon(g, s);
    ExitParts(g, s, Exec(IntrCommon(HighRegs(), LowRegs()), s));
  }

  lemma ExitParts(g: int, s: State, s': State)
    requires exists cr3 :: ContextSaved(g, cr3, s, s')
    ensures RegsSavedAt(g, s, s') && TrapWordsAt(g, s, s')
    ensures Get(s', M(g + 496)) == Get(s, S(Cr0)) && Get(s', M(g + 504)) == Get(s, S(Cr2))
    ensures Get(s', M(g + 520)) == Get(s, S(Cr4)) && Get(s', M(g + 528)) == Get(s, S(Cr8))
    ensures Get(s', S(Rip)) == Get(s, M(0xFFFF_FE80_0000_3000))
  {
    var cr3 :| ContextSaved(g, cr3, s, s');
    SavedAreWords(g, cr3, s, s');
    ControlAreWords(g, cr3, s, s');
  }

  /** The C code before the entry: where segments, bases, stacks and tables come from and go to. */
  lemma StartByWords(g: int, syscallEntry: int, s: State)
    ensures var s' := Exec(StartPayload(g, FlagsIn(g, s), syscallEntry), s);
            && Get(s', S(FsBase)) == Get(s, M(g + 344)) && Get(s', S(KernelGsBase)) == Get(s, M(g + 368))
            && Get(s', S(Lstar)) == syscallEntry && Get(s', S(Idt)) == Get(s, M(g + 88)) && Get(s', S(Sp0)) == g + 7936
            && Get(s', M(g + 56)) == 0x33 && Get(s', M(g + 64)) == 0x2B
            && Get(s', M(g + 104)) == Get(s, S(Sp0)) && Get(s', M(g + 112)) == Get(s, S(Sp1)) && Get(s', M(g + 120)) == Get(s, S(Sp2))
            && AsPromised(Get(s, M(g + 264)), Get(s, M(g + 584)), Get(s', M(g + 264)))
  {
    AfterStartPayload(g, syscallEntry, s);
  }

  /** The C code before the switch of stacks, and the switch itself. */
  lemma SaveByWords(g: int, nativeIdt: int, guestIdt: int, valid: bool, s: State)
    ensures var s' := Exec(SaveHost(g, nativeIdt, guestIdt, valid), s);
            && Get(s', M(g + 72)) == nativeIdt && Get(s', M(g + 88)) == guestIdt && Get(s', M(g + 32)) == Get(s, S(Cr4))
            && Get(s', M(g + 1120)) == -1
  {
    AfterSaveHost(g, nativeIdt, guestIdt, valid, s);
  }

  lemma StackByWords(unused: int, s: State)
    requires StacksApart(s)
    ensures Get(Exec(SwitchToGk(unused), s), M(Get(s, R(Rdi)) + 16)) == Get(s, R(Rsp)) - 48
  {
    AfterSwitchToGk(unused, s);
  }

  /** The C code after the exit: what is put back from the area, and what the trap leaves in the registers. */
  lemma BackByWords(g: int, s: State)
    ensures var s' := Exec(HostKernel(g), s);
            && Get(s', S(Sp0)) == Get(s, M(g + 104)) && Get(s', S(Sp1)) == Get(s, M(g + 112)) && Get(s', S(Sp2)) == Get(s, M(g + 120))
            && Get(s', S(Idt)) == Get(s, M(g + 72)) && Get(s', S(Ss)) == 0x18
            && Get(s', M(g + 256)) == Get(s, M(g + 1080)) && Get(s', M(g + 264)) == Get(s, M(g + 1096))
  {
    AfterHostKernel(g, s);
  }

  /** A pass, by offsets: what the payload starts with, and what it leaves. */
  lemma PassByWords(p: Pass)
    requires OnePass(p)
    ensures RegsAt(p.g, p.host, p.entered) && Get(p.entered, S(Rip)) == Get(p.host, M(p.g + 256))
    ensures Get(p.entered, S(Cs)) == 0x33 && Get(p.entered, S(Ss)) == 0x2B && Get(p.entered, S(Cr3)) == Get(p.host, M(p.g + 40))
    ensures Get(p.entered, S(FsBase)) == Get(p.host, M(p.g + 344)) && Get(p.entered, S(GsBase)) == Get(p.host, M(p.g + 368))
    ensures AsPromised(Get(p.host, M(p.g + 264)), Get(p.host, M(p.g + 584)), Get(p.entered, S(Rflags)))
  {
    PayloadIsGivenItsContext(p);
    GivenAreWords(p);
  }

  lemma GivenAreWords(p: Pass)
    requires Given(p)
    ensures RegsAt(p.g, p.host, p.entered) && Get(p.entered, S(Rip)) == Get(p.host, M(p.g + 256))
    ensures Get(p.entered, S(Cs)) == 0x33 && Get(p.entered, S(Ss)) == 0x2B && Get(p.entered, S(Cr3)) == Get(p.host, M(p.g + 40))
    ensures Get(p.entered, S(FsBase)) == Get(p.host, M(p.g + 344)) && Get(p.entered, S(GsBase)) == Get(p.host, M(p.g + 368))
    ensures AsPromised(Get(p.host, M(p.g + 264)), Get(p.host, M(p.g + 584)), Get(p.entered, S(Rflags)))
  {
    SlotsAreWords(p.g, p.host, p.entered);
  }

  /** What the payload leaves of each register; SYSCALL itself puts rip and rflags in rcx and r11. */
  ghost predicate RegsTakenAt(p: Pass, s: State) {
    LowRegsTakenAt(p, s) && HighRegsTakenAt(p, s)
  }

  ghost predicate LowRegsTakenAt(p: Pass, s: State) {
    var g, t, call := p.g, p.atTrap, p.cause.SystemCall?;
    && Get(s, M(g + 128)) == Get(t, R(Rax)) && Get(s, M(g + 136)) == Get(t, R(Rbx))
    && Get(s, M(g + 144)) == (if call then Get(t, S(Rip)) else Get(t, R(Rcx))) && Get(s, M(g + 152)) == Get(t, R(Rdx))
    && Get(s, M(g + 160)) == Get(t, R(Rsi)) && Get(s, M(g + 168)) == Get(t, R(Rdi))
    && Get(s, M(g + 176)) == Get(t, R(Rsp)) && Get(s, M(g + 184)) == Get(t, R(Rbp))
  }

  ghost predicate HighRegsTakenAt(p: Pass, s: State) {
    var g, t, call := p.g, p.atTrap, p.cause.SystemCall?;
    && Get(s, M(g + 192)) == Get(t, R(R8)) && Get(s, M(g + 200)) == Get(t, R(R9))
    && Get(s, M(g + 208)) == Get(t, R(R10)) && Get(s, M(g + 216)) == (if call then Get(t, S(Rflags)) else Get(t, R(R11)))
    && Get(s, M(g + 224)) == Get(t, R(R12)) && Get(s, M(g + 232)) == Get(t, R(R13))
    && Get(s, M(g + 240)) == Get(t, R(R14)) && Get(s, M(g + 248)) == Get(t, R(R15))
  }

  /** trap_info, the interrupt's number and cr2 after a fault, an interrupt or SYSCALL. */
  ghost predicate TrapTakenAt(p: Pass, s: State) {
    var g, t := p.g, p.atTrap;
    && Get(s, M(g + 1080)) == Get(t, S(Rip)) && Get(s, M(g + 1096)) == Get(t, S(Rflags)) && Get(s, M(g + 1104)) == Get(t, R(Rsp))
    && Get(s, M(g + 504)) == Get(t, S(Cr2))
    && match p.cause
       case Fault(no, error) =>
         && Get(s, M(g + 1120)) == no && Get(s, M(g + 1072)) == error
         && Get(s, M(g + 1088)) == Get(t, S(Cs)) && Get(s, M(g + 1112)) == Get(t, S(Ss))
       case Interrupt(no) =>
         && Get(s, M(g + 1120)) == no && Get(s, M(g + 1072)) == -1
         && Get(s, M(g + 1088)) == Get(t, S(Cs)) && Get(s, M(g + 1112)) == Get(t, S(Ss))
       case SystemCall =>
         && Get(s, M(g + 1120)) == 511 && Get(s, M(g + 1072)) == -1
         && Get(s, M(g + 1088)) == 0x33 && Get(s, M(g + 1112)) == 0x2B
  }

  lemma LowTaken(p: Pass, s: State)
    requires WordsLeft(p, s)
    ensures LowRegsTakenAt(p, s)
  {
    OffsetsAre();
  }

  lemma HighTaken(p: Pass, s: State)
    requires WordsLeft(p, s)
    ensures HighRegsTakenAt(p, s)
  {
    OffsetsAre();
  }

  lemma TakenAreWords(p: Pass, s: State)
    requires SlotsTaken(p, s)
    ensures RegsTakenAt(p, s)
  {
    TakenWords(p, s);
    LowTaken(p, s);
    HighTaken(p, s);
  }

  lemma TrapAreWords(p: Pass, s: State)
    requires TrapTaken(p, s)
    ensures TrapTakenAt(p, s)
  {
  }

  lemma PassTakesWords(p: Pass)
    requires OnePass(p)
    ensures RegsTakenAt(p, p.final) && TrapTakenAt(p, p.final)
    ensures Get(p.final, M(p.g + 256)) == Get(p.atTrap, S(Rip)) && Get(p.final, M(p.g + 264)) == Get(p.atTrap, S(Rflags))
  {
    ContextIsTaken(p);
    TakenAreWords(p, p.final);
    TrapAreWords(p, p.final);
  }

  /* ---- the run loop's registers ---- */

  /** A word as the run loop takes it. */
  lemma WordIsUnsigned(v: int)
    ensures 0 <= Word(v) < 0x1_0000_0000_0000_0000 && (0 <= v < 0x1_0000_0000_0000_0000 ==> Word(v) == v)
    ensures Word(-1) == 0xFFFF_FFFF_FFFF_FFFF
  {
  }

  /** Which of sixteen words is which register. */
  lemma RegsOfFields(v: seq<int>, rip: int)
    requires |v| == 16
    ensures RegsOf(v, rip) ==
            RunLoop.Regs(rax := Word(v[0]), rbx := Word(v[1]), rdx := Word(v[3]), rsi := Word(v[4]), rdi := Word(v[5]), rsp := Word(v[6]),
                         r8 := Word(v[8]), r9 := Word(v[9]), r10 := Word(v[10]), rip := Word(rip),
                         rest := RunLoop.Rest(rcx := Word(v[2]), rbp := Word(v[7]), r11 := Word(v[11]), r12 := Word(v[12]),
                                              r13 := Word(v[13]), r14 := Word(v[14]), r15 := Word(v[15])))
  {
  }

  lemma SlotOfReg(i: nat)
    requires i < 16
    ensures Off(RegAtSlot(i)) == 128 + 8 * i
  {
  }

  lemma AreaWordAt(g: int, s: State, i: nat)
    requires i < 16
    ensures AreaWords(g, s)[i] == Get(s, M(g + 128 + 8 * i))
  {
    SlotOfReg(i);
  }

  /** ga->regs as the run loop reads it: word i of the area's sixteen, and rip behind them. */
  lemma AreaRegsAreFields(g: int, s: State)
    ensures AreaRegs(g, s) == RegsOf(AreaWords(g, s), Get(s, M(g + 256)))
    ensures forall i: nat :: i < 16 ==> AreaWords(g, s)[i] == Get(s, M(g + 128 + 8 * i))
  {
    forall i: nat | i < 16 ensures AreaWords(g, s)[i] == Get(s, M(g + 128 + 8 * i)) {
      AreaWordAt(g, s, i);
    }
  }

  /** The processor's registers, likewise. */
  lemma CpuRegsAreFields(s: State)
    ensures CpuRegs(s) == RegsOf(CpuWords(s), Get(s, S(Rip)))
    ensures var v := CpuWords(s);
            && v[0] == Get(s, R(Rax)) && v[1] == Get(s, R(Rbx)) && v[2] == Get(s, R(Rcx)) && v[3] == Get(s, R(Rdx))
            && v[4] == Get(s, R(Rsi)) && v[5] == Get(s, R(Rdi)) && v[6] == Get(s, R(Rsp)) && v[7] == Get(s, R(Rbp))
            && v[8] == Get(s, R(R8)) && v[9] == Get(s, R(R9)) && v[10] == Get(s, R(R10)) && v[11] == Get(s, R(R11))
            && v[12] == Get(s, R(R12)) && v[13] == Get(s, R(R13)) && v[14] == Get(s, R(R14)) && v[15] == Get(s, R(R15))
  {
  }

  /** Field by field: the registers kkm itself reads and writes. */
  lemma AreaFields(g: int, s: State)
    ensures var r := AreaRegs(g, s);
            && r.rax == Word(Get(s, M(g + 128))) && r.rbx == Word(Get(s, M(g + 136))) && r.rdx == Word(Get(s, M(g + 152)))
            && r.rsi == Word(Get(s, M(g + 160))) && r.rdi == Word(Get(s, M(g + 168))) && r.rsp == Word(Get(s, M(g + 176)))
            && r.r8 == Word(Get(s, M(g + 192))) && r.r9 == Word(Get(s, M(g + 200))) && r.r10 == Word(Get(s, M(g + 208)))
            && r.rip == Word(Get(s, M(g + 256)))
  {
    var v := AreaWords(g, s);
    AreaRegsAreFields(g, s);
    RegsOfFields(v, Get(s, M(g + 256)));
    assert v[0] == Get(s, M(g + 128)) && v[1] == Get(s, M(g + 136)) && v[3] == Get(s, M(g + 152)) && v[4] == Get(s, M(g + 160));
    assert v[5] == Get(s, M(g + 168)) && v[6] == Get(s, M(g + 176)) && v[8] == Get(s, M(g + 192)) && v[9] == Get(s, M(g + 200));
    assert v[10] == Get(s, M(g + 208));
  }

  lemma CpuFields(s: State)
    ensures var r := CpuRegs(s);
            && r.rax == Word(Get(s, R(Rax))) && r.rbx == Word(Get(s, R(Rbx))) && r.rdx == Word(Get(s, R(Rdx)))
            && r.rsi == Word(Get(s, R(Rsi))) && r.rdi == Word(Get(s, R(Rdi))) && r.rsp == Word(Get(s, R(Rsp)))
            && r.r8 == Word(Get(s, R(R8))) && r.r9 == Word(Get(s, R(R9))) && r.r10 == Word(Get(s, R(R10)))
            && r.rip == Word(Get(s, S(Rip)))
  {
    CpuRegsAreFields(s);
    RegsOfFields(CpuWords(s), Get(s, S(Rip)));
  }

  /** What the run loop is told of a pass: the trap, and both extended states. */
  lemma VisitIsThePass(p: Pass, u: RunLoop.Trap)
    ensures var v, t := VisitOf(p, u), p.atTrap;
            && v.hostX == Get(p.host, S(Xstate)) && v.payloadX == Get(t, S(Xstate))
            && v.trap.rip == Word(Get(t, S(Rip))) && v.trap.rsp == Word(Get(t, R(Rsp))) && v.trap.rflags == Word(Get(t, S(Rflags)))
            && v.trap.cr2 == Word(Get(t, S(Cr2)))
  {
  }

  lemma VisitKnowsItsCause(p: Pass, u: RunLoop.Trap)
    ensures VisitOf(p, u).trap.no == Word(match p.cause case Fault(no, _) => no case Interrupt(no) => no case SystemCall => 511)
    ensures VisitOf(p, u).trap.error == Word(if p.cause.Fault? then p.cause.error else -1)
  {
  }
}
