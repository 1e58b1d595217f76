/** What a run hands to the monitor: the return value of KKM_RUN, the exit record, the words copied out and
    the payload's registers, for every way a visit can end. */
module Exits {
  import opened Constants
  import opened RunLoop
  import opened RunLoopProofs
  import Kontexts

  /** The run of a state that is ready to enter, and whose first visit is v. */
  function RunOf(s: State, result: Copied, v: Round, later: seq<Round>): Outcome {
    Run(s, false, result, [v] + later)
  }

  /** The first visit ends the run. */
  ghost predicate EndsWith(o: Outcome, ret: int, after: State) {
    Ret(o.ending) == ret && o.state == after && |o.log| == 1
  }

  /** Nothing is pending, and the thread has run before. */
  lemma FirstVisit(s: State, result: Copied, v: Round, later: seq<Round>)
    requires Clear(s) && v.Visit?
    ensures var e := Visited(Resume(s), v);
            && Prologue(s, false, result) == (0, Resume(s))
            && (e.ret != 256 ==> EndsWith(RunOf(s, result, v, later), e.ret, e.after))
  {
    var rounds := [v] + later;
    assert rounds[0] == v;
    Kontexts.OneRound(Resume(s), rounds, []);
  }

  /** The state kkm_process_intr is given: the payload's registers and cr2, its extended state saved. */
  function Stopped(s: State, v: Round): State
    requires v.Visit?
  {
    Leave(Enter(Resume(s), v.hostX), v.regs, v.trap.cr2, v.payloadX)
  }

  /* ---- hypercalls ---- */

  /** A readable OUT instruction. */
  predicate IsOut(t: Trap) {
    t.translated && t.readOk && t.opcode == 0xEF
  }

  /** When the payload stops at an OUT, KKM_RUN returns 0 with the port in dx, bit 15 set, and the low half
      of rax; any other general protection fault is -EFAULT. The payload's registers are its own, with rip
      one higher after an OUT. */
  lemma HypercallIsReported(s: State, result: Copied, v: Round, later: seq<Round>)
    requires Clear(s) && v.Visit? && v.trap.no == 13
    ensures var o := RunOf(s, result, v, later);
            && (IsOut(v.trap) ==>
                  && Ret(o.ending) == 0 && o.state.exitReason == ExitIo(0x8000 + v.regs.rdx % 0x8000)
                  && o.state.area == Area(v.regs.rax % 0x1_0000_0000, FaultHyperCall)
                  && o.state.regs == v.regs.(rip := (v.regs.rip + 1) % 0x1_0000_0000_0000_0000))
            && (!IsOut(v.trap) ==> Ret(o.ending) == -14 && o.state.exitReason == ExitUnknown && o.state.regs == v.regs)
            && Clear(o.state) && o.state.effects == s.effects && |o.log| == 1
  {
    FirstVisit(s, result, v, later);
  }

  /** And it is stepped over exactly once: whatever exits, failed responses and saved states come between,
      the payload goes on behind the OUT with its own registers. */
  lemma HypercallIsSteppedOver(s: State, result: Copied, v: Round, later: seq<Round>, ms: seq<Meanwhile>, next: Copied, hostX: int)
    requires Clear(s) && v.Visit? && v.trap.no == 13 && IsOut(v.trap)
    ensures NextRegs(RunOf(s, result, v, later).state, ms, next, hostX) == v.regs.(rip := (v.regs.rip + 1) % 0x1_0000_0000_0000_0000)
  {
    var after, regs := RunOf(s, result, v, later).state, v.regs.(rip := (v.regs.rip + 1) % 0x1_0000_0000_0000_0000);
    HypercallIsReported(s, result, v, later);
    RegistersStillOwed(after, ms, regs);
    EntryPaysRegisters(PassAll(after, ms), next, hostX, regs);
  }

  /* ---- system calls ---- */

  /** A system call: the six arguments below the red zone in the order of the ABI, a word for the result
      before them, their address where gs points; the number in the port, and the low half of the address. */
  lemma SyscallIsReported(s: State, result: Copied, v: Round, later: seq<Round>)
    requires Clear(s) && v.Visit? && v.trap.no == 511
    ensures var o, at := RunOf(s, result, v, later), (v.regs.rsp - 184) % 0x1_0000_0000_0000_0000;
            var arguments := CopyOut(v.trap.mva, [0, v.regs.rdi, v.regs.rsi, v.regs.rdx, v.regs.r10, v.regs.r8, v.regs.r9]);
            && o.state.exitReason == ExitIo(0x8000 + v.regs.rax % 0x8000) && o.state.area == Area(at % 0x1_0000_0000, FaultSyscall)
            && |o.log| == 1
            && (CallCopied(v.trap) ==>
                  && Ret(o.ending) == 0 && o.state.regs == v.regs.(rsp := at, rax := at)
                  && o.state.effects == s.effects + [arguments, CopyOut(v.trap.gsMva, [at])]
                  && o.state.pending.syscall && o.state.pending.retValMva == v.trap.mva)
            && (!CallCopied(v.trap) ==>
                  && Ret(o.ending) == -14 && o.state.regs == v.regs.(rsp := at) && Clear(o.state)
                  && o.state.effects == s.effects + if FrameCopied(v.trap) then [arguments] else [])
  {
    FirstVisit(s, result, v, later);
    SyscallHandled(Stopped(s, v), v.trap);
  }

  /** The same of the handler alone. */
  lemma SyscallHandled(s: State, t: Trap)
    requires Clear(s)
    ensures var (ret, s') := ProcessSyscall(s, t);
            var at := (s.regs.rsp - 184) % 0x1_0000_0000_0000_0000;
            var arguments := CopyOut(t.mva, [0, s.regs.rdi, s.regs.rsi, s.regs.rdx, s.regs.r10, s.regs.r8, s.regs.r9]);
            && s'.exitReason == ExitIo(0x8000 + s.regs.rax % 0x8000) && s'.area == Area(at % 0x1_0000_0000, FaultSyscall)
            && (CallCopied(t) ==>
                  && ret == 0 && s'.regs == s.regs.(rsp := at, rax := at)
                  && s'.effects == s.effects + [arguments, CopyOut(t.gsMva, [at])]
                  && s'.pending.syscall && s'.pending.retValMva == t.mva)
            && (!CallCopied(t) ==>
                  && ret == -14 && s'.regs == s.regs.(rsp := at) && Clear(s')
                  && s'.effects == s.effects + if FrameCopied(t) then [arguments] else [])
  {
    TwiceLowered(s.regs.rsp);
  }

  lemma TwiceLowered(rsp: U64)
    ensures Sub(Sub(rsp, ABI_REDZONE), HC_ARGS_SIZE) == (rsp - 184) % 0x1_0000_0000_0000_0000
  {
  }

  /* ---- exceptions ---- */

  /** #DE, #OF, #BR, #UD, #NM, the old coprocessor fault, spurious, #MF, #MC, #XF and #VC. */
  predicate NoErrorCode(no: U64) { no in {0, 4, 5, 6, 7, 9, 15, 16, 18, 19, 29} }

  /** #DF, #TS, #NP, #SS, #AC and #SX. */
  predicate HasErrorCode(no: U64) { no in {8, 10, 11, 12, 17, 30} }

  /** The interrupted context, as the monitor finds it below the lowered rsp. */
  function ContextWords(regs: Regs, t: Trap): seq<U64> {
    if HasErrorCode(t.no) then [regs.rax, regs.rbx, regs.rdx, t.error, t.rip, t.cs, t.rflags, t.rsp, t.ss]
    else [regs.rax, regs.rbx, regs.rdx, t.rip, t.cs, t.rflags, t.rsp, t.ss]
  }

  /** What a handled exception leaves, given the payload's registers. */
  ghost predicate Announced(before: seq<Effect>, regs: Regs, t: Trap, ret: int, after: State) {
    var at := (regs.rsp - if HasErrorCode(t.no) then 72 else 64) % 0x1_0000_0000_0000_0000;
    && (FrameCopied(t) ==>
          && ret == 0 && after.exitReason == ExitIo(0x81FD) && after.area == Area(at % 0x1_0000_0000, FaultUnknown)
          && after.regs == regs.(rsp := at, rax := at, rbx := t.no)
          && after.pending == Pending(false, 0xFFFF_FFFF_FFFF_FFFF, true, regs.rax, regs.rbx)
          && after.effects == before + [CopyOut(t.mva, ContextWords(regs, t))])
    && (!FrameCopied(t) ==>
          ret == -14 && after.exitReason == ExitUnknown && after.regs == regs.(rsp := at) && Clear(after) && after.effects == before)
  }

  /** An exception: its context is copied below rsp and announced with port 0x81FD and the low half of the
      address, which is in rax as well, and the vector in rbx. */
  lemma ExceptionIsReported(s: State, result: Copied, v: Round, later: seq<Round>)
    requires Clear(s) && v.Visit? && (NoErrorCode(v.trap.no) || HasErrorCode(v.trap.no))
    ensures var o := RunOf(s, result, v, later); |o.log| == 1 && Announced(s.effects, v.regs, v.trap, Ret(o.ending), o.state)
  {
    FirstVisit(s, result, v, later);
    ExceptionHandled(Stopped(s, v), v.trap);
  }

  lemma ExceptionsAreHandled(s: State, t: Trap)
    requires NoErrorCode(t.no) || HasErrorCode(t.no)
    ensures ProcessIntr(s, t) == ProcessException(s.(exitReason := ExitUnknown), t, HasErrorCode(t.no))
  {
  }

  lemma ExceptionHandled(s: State, t: Trap)
    requires Clear(s) && (NoErrorCode(t.no) || HasErrorCode(t.no))
    ensures var (ret, after) := ProcessIntr(s, t); ret != 256 && Announced(s.effects, s.regs, t, ret, after)
  {
    ExceptionsAreHandled(s, t);
    FrameIsContext(s.regs, t);
  }

  lemma FrameIsContext(regs: Regs, t: Trap)
    ensures ExceptionFrame(regs, t, HasErrorCode(t.no)) == ContextWords(regs, t)
  {
  }

  /* ---- debug exits, NMI, and interrupts of the host ---- */

  /** A debug exception reports where it happened; a breakpoint is put back to its own address. */
  lemma DebugIsReported(s: State, result: Copied, v: Round, later: seq<Round>)
    requires Clear(s) && v.Visit? && (v.trap.no == 1 || v.trap.no == 3)
    ensures var o, rip := RunOf(s, result, v, later), (v.regs.rip - 1) % 0x1_0000_0000_0000_0000;
            && Ret(o.ending) == 0 && |o.log| == 1 && o.state.effects == s.effects && o.state.area == s.area && Clear(o.state)
            && (v.trap.no == 1 ==> o.state.exitReason == ExitDebug(1, v.trap.rip) && o.state.regs == v.regs)
            && (v.trap.no == 3 ==> o.state.exitReason == ExitDebug(3, rip) && o.state.regs == v.regs.(rip := rip))
  {
    FirstVisit(s, result, v, later);
  }

  lemma NmiIsReported(s: State, result: Copied, v: Round, later: seq<Round>)
    requires Clear(s) && v.Visit? && v.trap.no == 2
    ensures var o := RunOf(s, result, v, later);
            Ret(o.ending) == 0 && o.state.exitReason == ExitUnknown && o.state.regs == v.regs && o.state.area == s.area && Clear(o.state)
  {
    FirstVisit(s, result, v, later);
  }

  /** Everything else belongs to the host: the payload goes on as it was. */
  lemma HostInterruptsResume(s: State, v: Round)
    requires v.Visit? && !NoErrorCode(v.trap.no) && !HasErrorCode(v.trap.no) && v.trap.no !in {1, 2, 3, 13, 14, 511}
    ensures var e := Visited(s, v);
            && e.ret == 256 && e.after == Leave(Enter(s, v.hostX), v.regs, v.trap.cr2, v.payloadX).(exitReason := ExitUnknown)
  {
  }

  /* ---- page faults ---- */

  /** A page fault that was resolved: user mode, an address that is translated, readable, and writable after
      a write. Bit 1 of the error code says write, bit 2 user mode. */
  predicate IsResolved(t: Trap) {
    t.no == 14 && t.translated && t.error / 4 % 2 == 1 && t.readOk && (t.error / 2 % 2 == 1 ==> t.writeOk)
  }

  /** It leaves cr2 clear, the address out of the TLB unless that is emptied anyway, and a record of the fault. */
  lemma ResolvedFaultResumes(s: State, v: Round)
    requires v.Visit? && IsResolved(v.trap)
    ensures var e := Visited(s, v);
            && e.ret == 256 && e.no == 14
            && e.after.trapAddr == v.trap.cr2 && e.after.errorCode == v.trap.error
            && e.after.cr2 == 0 && e.after.regs == v.regs && e.after.pending == s.pending && e.after.repeated == s.repeated
            && e.after.effects == s.effects + if s.fullFlush then [] else [FlushPage(v.trap.cr2)]
  {
  }

  /** Otherwise KKM_RUN returns: 0 for a fault of kernel mode at a translated address, else -EFAULT; cr2 stays. */
  lemma UnresolvedFaultReturns(s: State, result: Copied, v: Round, later: seq<Round>)
    requires Clear(s) && v.Visit? && v.trap.no == 14 && !IsResolved(v.trap)
    ensures var o := RunOf(s, result, v, later);
            && Ret(o.ending) == (if v.trap.translated && v.trap.error / 4 % 2 == 0 then 0 else -14)
            && o.state.exitReason == ExitUnknown && o.state.regs == v.regs && o.state.cr2 == v.trap.cr2 && o.state.effects == s.effects
            && o.state.trapAddr == v.trap.cr2 && o.state.errorCode == v.trap.error
  {
    FirstVisit(s, result, v, later);
  }

  /** n visits that all end in the same fault. */
  function Again(v: Round, n: nat): seq<Round> {
    if n == 0 then [] else [v] + Again(v, n - 1)
  }

  /** How far the counter is, before the next of a row of equal faults. */
  ghost predicate Counted(s: State, v: Round, n: nat)
    requires v.Visit?
  {
    if n == 0 then s.repeated == NO_TRAP
    else n <= 18 && s.repeated == Repeat(14, v.trap.cr2, v.trap.error, n - 1)
  }

  lemma OneMoreFault(s: State, v: Round, n: nat)
    requires v.Visit? && IsResolved(v.trap) && Counted(s, v, n) && n <= 17
    ensures var e := Visited(s, v);
            var counted := CountTrap(e.after, e.no);
            && e.ret == 256 && Counted(counted, v, n + 1)
            && (Repeats(e.after, e.no) && counted.repeated.counter > 16 <==> n == 17)
  {
    ResolvedFaultResumes(s, v);
  }

  lemma FaultStep(s: State, v: Round, done: nat, rest: seq<Round>, log: seq<Entry>)
    requires v.Visit? && IsResolved(v.trap) && Counted(s, v, done) && done <= 17
    ensures var e := Visited(s, v);
            var counted := CountTrap(e.after, e.no);
            && Counted(counted, v, done + 1)
            && Loop(s, [v] + rest, log) == if done == 17 then Outcome(TooManyFaults, counted, log + [e]) else Loop(counted, rest, log + [e])
  {
    var rounds := [v] + rest;
    assert rounds[0] == v && rounds[1..] == rest;
    Kontexts.OneRound(s, rounds, log);
    OneMoreFault(s, v, done);
  }

  lemma {:induction false} FaultsInARow(s: State, v: Round, done: nat, more: nat, log: seq<Entry>)
    requires v.Visit? && IsResolved(v.trap) && Counted(s, v, done) && done <= 17
    ensures var o := Loop(s, Again(v, more) + [Signal], log);
            && (done + more <= 17 ==> Ret(o.ending) == -4 && |o.log| == |log| + more)
            && (done + more > 17 ==> Ret(o.ending) == -14 && |o.log| == |log| + 18 - done)
    decreases more
  {
    if more == 0 {
      assert (Again(v, 0) + [Signal])[0] == Signal;
    } else {
      var e, rest := Visited(s, v), Again(v, more - 1) + [Signal];
      assert Again(v, more) + [Signal] == [v] + rest;
      FaultStep(s, v, done, rest, log);
      if done < 17 { FaultsInARow(CountTrap(e.after, e.no), v, done + 1, more - 1, log + [e]); }
    }
  }

  /** The same address and error code 18 times in a row is -EFAULT, after 18 visits; 17 times is not. */
  lemma EighteenFaults(s: State, result: Copied, v: Round, n: nat)
    requires Clear(s) && v.Visit? && IsResolved(v.trap)
    ensures var o := Run(s, false, result, Again(v, n) + [Signal]);
            && (n <= 17 ==> Ret(o.ending) == -4 && |o.log| == n)
            && (n >= 18 ==> Ret(o.ending) == -14 && |o.log| == 18)
  {
    FaultsInARow(Resume(s), v, 0, n, []);
  }

  /* ---- leaving before the payload is entered ---- */

  /** A pending signal is -EINTR with its own exit reason; immediate_exit is -EINTR with nothing done at all;
      a response that cannot be read is -EFAULT. */
  lemma EarlyReturns(s: State, result: Copied, later: seq<Round>)
    ensures var o := Run(s, true, result, later); Ret(o.ending) == -4 && o.state == s && o.log == []
    ensures Clear(s) ==> var o := Run(s, false, result, [Signal] + later);
                         Ret(o.ending) == -4 && o.state == Resume(s).(exitReason := ExitIntr) && o.log == []
    ensures s.pending.syscall && !s.newThread ==> var o := Run(s, false, CopyFailed, later); Ret(o.ending) == -14 && o.state == s && o.log == []
  {
    assert ([Signal] + later)[0] == Signal;
  }

  /* ---- a new thread ---- */

  /** The rsp with which a new thread starts: a thread made in the middle of its creator's system call is
      given the creator's rsp, which still has that call's frame. */
  function FirstRsp(s: State): int {
    if s.newThread && !s.firstThread && s.area.reason == FaultSyscall then (s.regs.rsp + 184) % 0x1_0000_0000_0000_0000 else s.regs.rsp
  }

  ghost predicate StartsAt(s: State, regs: Regs) {
    s.pending == NOTHING_PENDING && s.regs.(rsp := FirstRsp(s)) == regs
  }

  lemma PassKeepsStart(s: State, m: Meanwhile, regs: Regs)
    requires StartsAt(s, regs)
    ensures StartsAt(Pass(s, m), regs)
  {
    TwiceRaised(s.regs.rsp);
  }

  lemma TwiceRaised(rsp: U64)
    ensures Add(Add(rsp, HC_ARGS_SIZE), ABI_REDZONE) == (rsp + 184) % 0x1_0000_0000_0000_0000
  {
  }

  lemma {:induction false} StartStays(s: State, ms: seq<Meanwhile>, regs: Regs)
    requires StartsAt(s, regs)
    ensures StartsAt(PassAll(s, ms), regs)
  {
    if ms != [] {
      StartStays(s, ms[..|ms| - 1], regs);
      PassKeepsStart(PassAll(s, ms[..|ms| - 1]), ms[|ms| - 1], regs);
    }
  }

  /** With nothing pending, a new thread that is not the first, over the area of a system call, starts 184
      bytes higher, once, whatever exits and saved states come before; any other thread at its own rsp. */
  lemma NewThreadStarts(s: State, ms: seq<Meanwhile>, result: Copied, hostX: int)
    requires s.pending == NOTHING_PENDING
    ensures var raised := s.newThread && !s.firstThread && s.area.reason == FaultSyscall;
            NextRegs(s, ms, result, hostX) ==
            s.regs.(rsp := if raised then (s.regs.rsp + 184) % 0x1_0000_0000_0000_0000 else s.regs.rsp)
    ensures !Prologue(PassAll(s, ms), false, result).1.newThread
  {
    var regs := s.regs.(rsp := FirstRsp(s));
    StartStays(s, ms, regs);
    TwiceRaised(PassAll(s, ms).regs.rsp);
  }

  /* ---- what the monitor's other calls carry ---- */

  /** REUSE: a new thread with nothing pending and no debug registers; everything else stays. */
  lemma ReuseMeans(s: State)
    ensures Reinit(s).newThread && Reinit(s).pending == Pending(false, 0xFFFF_FFFF_FFFF_FFFF, false, 0xFFFF_FFFF_FFFF_FFFF, 0xFFFF_FFFF_FFFF_FFFF)
    ensures !Reinit(s).debugSet && Reinit(s).(newThread := s.newThread, pending := s.pending, debugSet := s.debugSet) == s
  {
  }

  /** What GET hands out, SET gives to any kontext: the pending state, the area and both thread flags; GET
      takes the pending state only. */
  lemma SaveInfoMoves(s: State, other: State)
    ensures var (si, left) := GetSaveInfo(s);
            var moved := SetSaveInfo(other, si);
            && moved.pending == s.pending && moved.area == s.area && moved.firstThread == s.firstThread && moved.newThread == s.newThread
            && moved.(pending := other.pending, area := other.area, firstThread := other.firstThread, newThread := other.newThread) == other
            && !left.pending.syscall && !left.pending.exception && left.(pending := s.pending) == s
  {
  }
}
