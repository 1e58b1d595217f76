/** The frames kkm builds on the payload's stack, and where in the monitor's memory they are: the
    handlers of RunLoop on top of the translation. */
module UserFrames {
  import opened Constants
  import opened MemSlots
  import opened RunLoop
  import opened RunLoopProofs
  import opened Exits
  import opened Translation
  import Mmu

  /** The payload address a handler translates first. */
  function HandledAddress(s: State, t: Trap): U64 {
    if t.no == TRAP_PF then t.cr2
    else if t.no == TRAP_GP then t.rip
    else if t.no == INTR_SYSCALL then Sub(Sub(s.regs.rsp, ABI_REDZONE), HC_ARGS_SIZE)
    else Sub(s.regs.rsp, FrameSize(t.no in WITH_ERROR))
  }

  /** What a trap says of a translation is what kkm_guest_va_to_monitor_va returns. */
  predicate Translates(h: Mmu.Host, slots: seq<Slot>, gva: U64, ok: bool, mva: U64)
    requires |slots| == MAX_MEMORY_SLOTS
  {
    if ok then Translate(h, slots, gva).Monitor? && Translate(h, slots, gva).va == mva else Translate(h, slots, gva).Unmapped?
  }

  predicate TrapOf(h: Mmu.Host, slots: seq<Slot>, s: State, t: Trap)
    requires |slots| == MAX_MEMORY_SLOTS
  {
    Translates(h, slots, HandledAddress(s, t), t.translated, t.mva) && Translates(h, slots, s.gsBase, t.gsTranslated, t.gsMva)
  }

  /** rsp is at a frame, and the kontext remembers where that is for the monitor. */
  predicate AtFrame(h: Mmu.Host, slots: seq<Slot>, s: State)
    requires |slots| == MAX_MEMORY_SLOTS
  {
    Translates(h, slots, s.regs.rsp, true, s.pending.retValMva)
  }

  /** A frame is as long as what rsp was lowered for it. */
  lemma FramesFit(regs: Regs, t: Trap, withError: bool)
    ensures 8 * |CallFrame(regs)| == HC_ARGS_SIZE && 8 * |ExceptionFrame(regs, t, withError)| == FrameSize(withError)
  {
  }

  lemma {:induction false} StillAtFrame(h: Mmu.Host, slots: seq<Slot>, s: State, ms: seq<Meanwhile>)
    requires |slots| == MAX_MEMORY_SLOTS
    requires s.pending.syscall && !s.newThread && AtFrame(h, slots, s)
    ensures var s' := PassAll(s, ms); !s'.newThread && (s'.pending.syscall ==> AtFrame(h, slots, s'))
  {
    if ms != [] {
      StillAtFrame(h, slots, s, ms[..|ms| - 1]);
    }
  }

  /** A system call leaves its arguments, and room for the result, where the translation of the lowered
      rsp says, and that address where the gs base points; for as long as no result was taken, the
      address kkm will read the result from is still the translation of rsp. */
  lemma CallFrameIsAtRsp(h: Mmu.Host, slots: seq<Slot>, s0: State, t: Trap, ms: seq<Meanwhile>)
    requires |slots| == MAX_MEMORY_SLOTS && t.no == INTR_SYSCALL && TrapOf(h, slots, s0, t)
    requires Clear(s0) && ProcessSyscall(s0, t).0 == 0
    ensures var called := ProcessSyscall(s0, t).1;
            var r, at := s0.regs, Translate(h, slots, called.regs.rsp).va;
            && AtFrame(h, slots, called)
            && called.effects == s0.effects + [CopyOut(at, [0, r.rdi, r.rsi, r.rdx, r.r10, r.r8, r.r9]),
                                               CopyOut(Translate(h, slots, s0.gsBase).va, [called.regs.rsp])]
            && called.regs.rsp == (r.rsp - 184) % 0x1_0000_0000_0000_0000
            && called.exitReason == ExitIo(0x8000 + r.rax % 0x8000) && called.area == Area(called.regs.rsp % 0x1_0000_0000, FaultSyscall)
            && (PassAll(called, ms).pending.syscall ==> AtFrame(h, slots, PassAll(called, ms)))
  {
    SyscallHandled(s0, t);
    StillAtFrame(h, slots, ProcessSyscall(s0, t).1, ms);
  }

  lemma ExceptionAddress(s0: State, t: Trap)
    requires HasErrorCode(t.no) || NoErrorCode(t.no)
    ensures HandledAddress(s0, t) == (s0.regs.rsp - if HasErrorCode(t.no) then 72 else 64) % 0x1_0000_0000_0000_0000
  {
  }

  /** An announced exception leaves the interrupted context where the translation of the lowered rsp
      says, with that rsp in rax and the interrupt's number in rbx. */
  lemma ExceptionFrameIsAtRsp(h: Mmu.Host, slots: seq<Slot>, s0: State, t: Trap)
    requires |slots| == MAX_MEMORY_SLOTS && (HasErrorCode(t.no) || NoErrorCode(t.no)) && TrapOf(h, slots, s0, t)
    requires Clear(s0) && ProcessIntr(s0, t).0 == 0
    ensures var s := ProcessIntr(s0, t).1;
            && s.regs.rax == s.regs.rsp && s.regs.rbx == t.no && s.pending.exception
            && Translate(h, slots, s.regs.rsp).Monitor?
            && s.effects == s0.effects + [CopyOut(Translate(h, slots, s.regs.rsp).va, ContextWords(s0.regs, t))]
  {
    ExceptionAddress(s0, t);
    ExceptionHandled(s0, t);
    AnnouncedAtRsp(h, slots, s0, t, ProcessIntr(s0, t).1);
  }

  lemma AnnouncedAtRsp(h: Mmu.Host, slots: seq<Slot>, s0: State, t: Trap, s: State)
    requires |slots| == MAX_MEMORY_SLOTS && Announced(s0.effects, s0.regs, t, 0, s)
    requires Translates(h, slots, (s0.regs.rsp - if HasErrorCode(t.no) then 72 else 64) % 0x1_0000_0000_0000_0000, t.translated, t.mva)
    ensures s.regs.rax == s.regs.rsp && s.regs.rbx == t.no && s.pending.exception && Translate(h, slots, s.regs.rsp).Monitor?
    ensures s.effects == s0.effects + [CopyOut(Translate(h, slots, s.regs.rsp).va, ContextWords(s0.regs, t))]
  {
  }

  /** A hypercall is found at the translation of rip. */
  lemma HypercallIsAtRip(h: Mmu.Host, slots: seq<Slot>, s0: State, t: Trap)
    requires |slots| == MAX_MEMORY_SLOTS && t.no == 13 && TrapOf(h, slots, s0, t)
    ensures ProcessIntr(s0, t).0 == 0 <==> Translate(h, slots, t.rip).Monitor? && t.readOk && t.opcode == 0xEF
    ensures ProcessIntr(s0, t).0 == 0 ==> t.mva == Translate(h, slots, t.rip).va
  {
  }

  /** A page fault kkm resolves is one at a translated address. */
  lemma FaultIsAtCr2(h: Mmu.Host, slots: seq<Slot>, s0: State, t: Trap)
    requires |slots| == MAX_MEMORY_SLOTS && t.no == 14 && TrapOf(h, slots, s0, t)
    ensures ProcessIntr(s0, t).0 == 256 <==> Translate(h, slots, t.cr2).Monitor? && IsResolved(t)
  {
  }

  /** A thread whose gs base is 0 makes such a call. */
  lemma CallWithoutGsBase(h: Mmu.Host, slots: seq<Slot>, s0: State, ms: seq<Meanwhile>, result: U64, hostX: int)
    requires |slots| == MAX_MEMORY_SLOTS && Clear(s0) && s0.gsBase == 0 && KnownBase(h)
    requires Translate(h, slots, Sub(Sub(s0.regs.rsp, ABI_REDZONE), HC_ARGS_SIZE)).Monitor?
    ensures var t := LostCall(Translate(h, slots, Sub(Sub(s0.regs.rsp, ABI_REDZONE), HC_ARGS_SIZE)).va);
            TrapOf(h, slots, s0, t) && NextRegs(ProcessSyscall(s0, t).1, ms, Copy(result), hostX).rsp == Sub(s0.regs.rsp, 184)
  {
    LostCallStays(s0, Translate(h, slots, Sub(Sub(s0.regs.rsp, ABI_REDZONE), HC_ARGS_SIZE)).va, ms, result, hostX);
  }
}
