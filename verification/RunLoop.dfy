/** kkm_kontext.c: entering the payload, handling what made it stop, and the calls by which the
    monitor steers a kontext. States are values here; Kontexts.dfy updates them in place. */
module RunLoop {
  import opened Constants

  const MAX_U64 := 0xFFFF_FFFF_FFFF_FFFF

  type U64 = x: int | 0 <= x < TWO_64

  const EFAULT := 14
  const EINTR := 4
  const FAULT_PROCESS_DONE := 256
  const MAX_REPEAT_TRAP := 16
  const ABI_REDZONE := 128
  const HC_ARGS_SIZE := 56
  const SYSCALL_FRAME := 184
  const OUT_OPCODE := 0xEF

  // Interrupt numbers kkm_process_intr tells apart.
  const TRAP_DB := 1
  const TRAP_NMI := 2
  const TRAP_BP := 3
  const TRAP_GP := 13
  const TRAP_PF := 14
  const WITHOUT_ERROR := {0, 4, 5, 6, 7, 9, 15, 16, 18, 19, 29}
  const WITH_ERROR := {8, 10, 11, 12, 17, 30}

  function Add(x: U64, n: nat): U64 { (x + n) % TWO_64 }
  function Sub(x: U64, n: nat): U64 { (x - n) % TWO_64 }

  /* ---- state ---- */

  /** ga->regs without rflags: the registers kkm itself looks at, and the rest. */
  datatype Regs = Regs(rax: U64, rbx: U64, rdx: U64, rsi: U64, rdi: U64, rsp: U64, r8: U64, r9: U64, r10: U64,
                       rip: U64, rest: Rest)

  datatype Rest = Rest(rcx: U64, rbp: U64, r11: U64, r12: U64, r13: U64, r14: U64, r15: U64)

  datatype Pending = Pending(syscall: bool, retValMva: U64, exception: bool, savedRax: U64, savedRbx: U64)

  const NOTHING_PENDING := Pending(false, MAX_U64, false, MAX_U64, MAX_U64)

  datatype Repeat = Repeat(trapNo: U64, addr: U64, error: U64, counter: U64)

  const NO_TRAP := Repeat(MAX_U64, MAX_U64, MAX_U64, MAX_U64)

  datatype Reason = FaultUnknown | FaultHyperCall | FaultSyscall

  /** The page shared with the monitor that carries a hypercall. */
  datatype Area = Area(data: nat, reason: Reason)

  /** kkm_run->exit_reason and, of the record that goes with it, what is not constant. */
  datatype ExitReason = ExitUnknown | ExitIo(port: nat) | ExitDebug(exception: nat, pc: U64) | ExitIntr

  const EXCEPTION_IO_PORT := 0x81FD

  /** A 16-bit port number with KKM_HYPERCALL_IO_PORT_BASE set in it. */
  function Port(number: U64): nat {
    number % 0x8000 + 0x8000
  }

  /** The processor's extended state and the two save areas. Contents are opaque. */
  datatype Xstate = Xstate(cpu: int, kernel: int, payload: int, valid: bool)

  /** What kkm does outside the kontext: words it copies to the monitor, and addresses it drops from the TLB. */
  datatype Effect = CopyOut(mva: U64, words: seq<U64>) | FlushPage(address: U64)

  /** gsBase and cr2 are those of ga->sregs; fullFlush is kkm_cpu_full_tlb_flush. */
  datatype State = State(firstThread: bool, newThread: bool, regs: Regs, gsBase: U64, cr2: U64, pending: Pending,
                         repeated: Repeat, trapAddr: U64, errorCode: U64, area: Area, exitReason: ExitReason,
                         debugSet: bool, fullFlush: bool, effects: seq<Effect>, x: Xstate)

  /** struct kkm_save_info */
  datatype SaveInfo = SaveInfo(pending: Pending, area: Area, firstThread: bool, newThread: bool)

  /* ---- monitor calls other than KKM_RUN ---- */

  /** kkm_kontext_reinit */
  function Reinit(s: State): State {
    s.(newThread := true, debugSet := false, pending := NOTHING_PENDING)
  }

  /** kkm_kontext_get_save_info */
  function GetSaveInfo(s: State): (SaveInfo, State) {
    (SaveInfo(s.pending, s.area, s.firstThread, s.newThread), s.(pending := NOTHING_PENDING))
  }

  /** kkm_kontext_set_save_info */
  function SetSaveInfo(s: State, si: SaveInfo): State {
    s.(pending := si.pending, area := si.area, firstThread := si.firstThread, newThread := si.newThread)
  }

  /* ---- KKM_RUN ---- */

  /** What copy_from_user of the monitor's result yields. */
  datatype Copied = CopyFailed | Copy(value: U64)

  /** kkm_kontext_handle_syscall_response */
  function SyscallResponse(s: State, result: Copied): (int, State) {
    if !s.pending.syscall then (0, s)
    else if result.CopyFailed? then (-EFAULT, s)
    else
      (0, s.(regs := s.regs.(rax := result.value, rsp := Add(Add(s.regs.rsp, HC_ARGS_SIZE), ABI_REDZONE)),
             pending := s.pending.(syscall := false, retValMva := MAX_U64)))
  }

  /** The stack of a thread started by clone during a system call. */
  function StartThread(s: State): State {
    if !s.newThread then s
    else if !s.firstThread && s.area.reason == FaultSyscall then
      s.(newThread := false, regs := s.regs.(rsp := Add(Add(s.regs.rsp, HC_ARGS_SIZE), ABI_REDZONE)))
    else s.(newThread := false)
  }

  /** Registers an announced exception had borrowed, and a clean trap history. */
  function Resume(s: State): State {
    var regs := if s.pending.exception then s.regs.(rax := s.pending.savedRax, rbx := s.pending.savedRbx) else s.regs;
    s.(regs := regs, pending := s.pending.(exception := false, savedRax := MAX_U64, savedRbx := MAX_U64),
       repeated := NO_TRAP)
  }

  /** kkm_kontext_switch_kernel up to the label begin: non-zero means it returns there. */
  function Prologue(s: State, immediateExit: bool, result: Copied): (int, State) {
    if immediateExit then (-EINTR, s)
    else
      var (ret, s1) := SyscallResponse(StartThread(s), result);
      if ret != 0 then (ret, s1) else (0, Resume(s1))
  }

  /** What stopped the payload: the saved trap_info and cr2, and how translations and user copies went. */
  datatype Trap = Trap(no: U64, error: U64, rip: U64, cs: U64, rflags: U64, rsp: U64, ss: U64, cr2: U64,
                       mva: U64, gsMva: U64, translated: bool, gsTranslated: bool,
                       readOk: bool, writeOk: bool, gsWriteOk: bool, opcode: nat)

  /** One pass through begin: a signal, or an entry on some host state and the stop that ends it. */
  datatype Round = Signal | Visit(hostX: int, payloadX: int, regs: Regs, trap: Trap)

  /** State in which the payload starts: kernel xstate saved, payload xstate loaded if there is one. */
  function Enter(s: State, hostX: int): State {
    s.(x := Xstate(if s.x.valid then s.x.payload else hostX, hostX, s.x.payload, s.x.valid))
  }

  /** State after the payload stopped: its registers in ga->regs, its xstate saved. */
  function Leave(s: State, regs: Regs, cr2: U64, payloadX: int): State {
    s.(regs := regs, cr2 := cr2, x := Xstate(s.x.kernel, s.x.kernel, payloadX, true))
  }

  function SetupHypercall(s: State, port: U64, data: nat, reason: Reason): State {
    s.(exitReason := ExitIo(Port(port)), area := Area(data % TWO_32, reason))
  }

  /** struct kkm_intr_stack_no_error_code and _with_error_code */
  function ExceptionFrame(regs: Regs, t: Trap, withError: bool): (words: seq<U64>) {
    [regs.rax, regs.rbx, regs.rdx] + (if withError then [t.error] else []) + [t.rip, t.cs, t.rflags, t.rsp, t.ss]
  }

  function FrameSize(withError: bool): nat {
    if withError then 72 else 64
  }

  /** kkm_process_common_without_error and _with_error */
  function ProcessException(s: State, t: Trap, withError: bool): (int, State) {
    var gva := Sub(s.regs.rsp, FrameSize(withError));
    var lowered := s.(regs := s.regs.(rsp := gva));
    if !t.translated || !t.writeOk then (-EFAULT, lowered)
    else
      (0, SetupHypercall(lowered, EXCEPTION_IO_PORT, gva, FaultUnknown).(
            effects := s.effects + [CopyOut(t.mva, ExceptionFrame(s.regs, t, withError))],
            pending := s.pending.(exception := true, savedRax := s.regs.rax, savedRbx := s.regs.rbx),
            regs := lowered.regs.(rax := gva, rbx := t.no)))
  }

  /** kkm_process_general_protection */
  function ProcessHypercall(s: State, t: Trap): (int, State) {
    if !t.translated || !t.readOk || t.opcode != OUT_OPCODE then (-EFAULT, s)
    else (0, SetupHypercall(s, s.regs.rdx, s.regs.rax, FaultHyperCall).(regs := s.regs.(rip := Add(s.regs.rip, 1))))
  }

  /** struct kkm_hc_args: room for the result, and six arguments */
  function CallFrame(regs: Regs): (words: seq<U64>) {
    [0, regs.rdi, regs.rsi, regs.rdx, regs.r10, regs.r8, regs.r9]
  }

  /** kkm_process_syscall: the arguments go below the red zone, and their address to where the gs base points. */
  function ProcessSyscall(s: State, t: Trap): (int, State) {
    var gva := Sub(Sub(s.regs.rsp, ABI_REDZONE), HC_ARGS_SIZE);
    var called := SetupHypercall(s, s.regs.rax, gva, FaultSyscall).(regs := s.regs.(rsp := gva));
    if !t.translated || !t.writeOk then (-EFAULT, called)
    else
      var copied := called.(effects := s.effects + [CopyOut(t.mva, CallFrame(s.regs))]);
      if !t.gsTranslated || !t.gsWriteOk then (-EFAULT, copied)
      else
        (0, copied.(effects := copied.effects + [CopyOut(t.gsMva, [gva])],
                    pending := s.pending.(syscall := true, retValMva := t.mva), regs := copied.regs.(rax := gva)))
  }

  /** X86_PF_WRITE and X86_PF_USER */
  predicate IsWrite(error: U64) { error / 2 % 2 == 1 }
  predicate IsUser(error: U64) { error / 4 % 2 == 1 }

  /** What kkm_process_page_fault returns, given how the translation and the copies went. */
  function PageFaultReturn(translated: bool, error: U64, readOk: bool, writeOk: bool): int {
    if !translated then -EFAULT
    else if !IsUser(error) then 0
    else if !readOk || (IsWrite(error) && !writeOk) then -EFAULT
    else FAULT_PROCESS_DONE
  }

  /** kkm_process_page_fault, without what it does to the tables: a resolved fault leaves cr2 clear, and
      the address out of the TLB unless that is emptied on every entry anyway. */
  function ProcessPageFault(s: State, t: Trap): (int, State) {
    var ret := PageFaultReturn(t.translated, t.error, t.readOk, t.writeOk);
    var noted := s.(trapAddr := s.cr2, errorCode := t.error);
    (ret, if ret != FAULT_PROCESS_DONE then noted
          else noted.(cr2 := 0, effects := if s.fullFlush then s.effects else s.effects + [FlushPage(s.cr2)]))
  }

  /** kkm_process_breakpoint: back to the breakpoint itself */
  function ProcessBreakpoint(s: State): (int, State) {
    var rip := Sub(s.regs.rip, 1);
    (0, s.(exitReason := ExitDebug(TRAP_BP, rip), regs := s.regs.(rip := rip)))
  }

  /** kkm_process_intr */
  function ProcessIntr(s0: State, t: Trap): (int, State) {
    var s := s0.(exitReason := ExitUnknown);
    if t.no == TRAP_GP then ProcessHypercall(s, t)
    else if t.no == TRAP_PF then ProcessPageFault(s, t)
    else if t.no == TRAP_DB then (0, s.(exitReason := ExitDebug(TRAP_DB, t.rip)))
    else if t.no == TRAP_NMI then (0, s)
    else if t.no == TRAP_BP then ProcessBreakpoint(s)
    else if t.no in WITHOUT_ERROR then ProcessException(s, t, false)
    else if t.no in WITH_ERROR then ProcessException(s, t, true)
    else if t.no == INTR_SYSCALL then ProcessSyscall(s, t)
    else (FAULT_PROCESS_DONE, s)
  }

  /** The same page fault as the previous trap. */
  predicate Repeats(s: State, no: U64) {
    no == TRAP_PF && s.repeated.trapNo == TRAP_PF && s.repeated.addr == s.trapAddr && s.repeated.error == s.errorCode
  }

  /** The trap history after a trap that kkm resolved by itself. */
  function CountTrap(s: State, no: U64): State {
    if Repeats(s, no) then s.(repeated := s.repeated.(counter := Add(s.repeated.counter, 1)))
    else s.(repeated := Repeat(no, s.trapAddr, s.errorCode, 0))
  }

  /** One visit to the payload: the state it started in, what it left, and how the stop went. */
  datatype Entry = Entry(start: State, leftX: int, after: State, no: U64, ret: int)

  datatype Ending = Interrupted | TooManyFaults | Returned(ret: int)

  datatype Outcome = Outcome(ending: Ending, state: State, log: seq<Entry>)

  /** One visit to the payload and what kkm_process_intr makes of it. */
  function Visited(s: State, r: Round): Entry
    requires r.Visit?
  {
    var start := Enter(s, r.hostX);
    var (ret, after) := ProcessIntr(Leave(start, r.regs, r.trap.cr2, r.payloadX), r.trap);
    Entry(start, r.payloadX, after, r.trap.no, ret)
  }

  /** The loop from begin on, over everything that happens meanwhile; when nothing more is
      recorded, a signal is pending. */
  function Loop(s: State, rounds: seq<Round>, log: seq<Entry>): Outcome
    decreases |rounds|
  {
    if rounds == [] || rounds[0].Signal? then Outcome(Interrupted, s.(exitReason := ExitIntr), log)
    else
      var e := Visited(s, rounds[0]);
      if e.ret != FAULT_PROCESS_DONE then Outcome(Returned(e.ret), e.after, log + [e])
      else
        var counted := CountTrap(e.after, e.no);
        if Repeats(e.after, e.no) && counted.repeated.counter > MAX_REPEAT_TRAP
        then Outcome(TooManyFaults, counted, log + [e])
        else Loop(counted, rounds[1..], log + [e])
  }

  function Ret(e: Ending): int {
    match e
    case Interrupted => -EINTR
    case TooManyFaults => -EFAULT
    case Returned(ret) => ret
  }

  /** kkm_kontext_switch_kernel */
  function Run(s: State, immediateExit: bool, result: Copied, rounds: seq<Round>): Outcome {
    var (ret, s1) := Prologue(s, immediateExit, result);
    if ret != 0 then Outcome(Returned(ret), s1, []) else Loop(s1, rounds, [])
  }
}
