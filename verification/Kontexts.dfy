/** kkm_kontext.c in its own form: a kontext whose fields the calls update in place, proved
    against the states of RunLoop. */
module Kontexts {
  import opened Constants
  import opened RunLoop

  /** What the loop does with a visit. */
  lemma OneRound(s: State, rounds: seq<Round>, log: seq<Entry>)
    requires rounds != [] && rounds[0].Visit?
    ensures var e := Visited(s, rounds[0]);
            var counted := CountTrap(e.after, e.no);
            Loop(s, rounds, log) ==
              if e.ret != FAULT_PROCESS_DONE then Outcome(Returned(e.ret), e.after, log + [e])
              else if Repeats(e.after, e.no) && counted.repeated.counter > MAX_REPEAT_TRAP then Outcome(TooManyFaults, counted, log + [e])
              else Loop(counted, rounds[1..], log + [e])
  {
  }

  class Kontext {
    var firstThread: bool
    var newThread: bool
    var regs: Regs
    var gsBase: U64
    var cr2: U64
    var pending: Pending
    var repeated: Repeat
    var trapAddr: U64
    var errorCode: U64
    var area: Area
    var exitReason: ExitReason
    var debugSet: bool
    const fullFlush: bool
    var effects: seq<Effect>
    var x: Xstate

    function Now(): State
      reads this
    {
      State(firstThread, newThread, regs, gsBase, cr2, pending, repeated, trapAddr, errorCode, area, exitReason,
            debugSet, fullFlush, effects, x)
    }

    /** kkm_kontext_init, for a kontext of zeroed memory */
    constructor (first: bool, fullFlush: bool)
      ensures pending == NOTHING_PENDING && newThread && firstThread == first && !x.valid
      ensures !debugSet && this.fullFlush == fullFlush && effects == []
    {
      firstThread, newThread := first, true;
      regs := Regs(0, 0, 0, 0, 0, 0, 0, 0, 0, 0, Rest(0, 0, 0, 0, 0, 0, 0));
      gsBase, cr2 := 0, 0;
      debugSet, this.fullFlush, effects := false, fullFlush, [];
      pending := Pending(false, MAX_U64, false, MAX_U64, MAX_U64);
      repeated := Repeat(0, 0, 0, 0);
      trapAddr, errorCode := 0, 0;
      area, exitReason := Area(0, FaultUnknown), ExitUnknown;
      x := Xstate(0, 0, 0, false);
    }

    /** kkm_kontext_reinit */
    method Reuse()
      modifies this
      ensures Now() == Reinit(old(Now()))
    {
      newThread := true;
      debugSet := false;
      pending := pending.(syscall := false, retValMva := MAX_U64);
      pending := pending.(exception := false, savedRax := MAX_U64, savedRbx := MAX_U64);
    }

    /** kkm_kontext_get_save_info */
    method GetInfo() returns (si: SaveInfo)
      modifies this`pending
      ensures (si, Now()) == GetSaveInfo(old(Now()))
    {
      si := SaveInfo(pending, area, firstThread, newThread);
      pending := pending.(syscall := false, retValMva := MAX_U64);
      pending := pending.(exception := false, savedRax := MAX_U64, savedRbx := MAX_U64);
    }

    /** kkm_kontext_set_save_info */
    method SetInfo(si: SaveInfo)
      modifies this
      ensures Now() == SetSaveInfo(old(Now()), si)
    {
      pending := si.pending;
      area := si.area;
      firstThread := si.firstThread;
      newThread := si.newThread;
    }

    /** kkm_kontext_handle_syscall_response */
    method HandleSyscallResponse(result: Copied) returns (ret: int)
      modifies this`regs, this`pending
      ensures (ret, Now()) == SyscallResponse(old(Now()), result)
    {
      if pending.syscall {
        if result.CopyFailed? {
          return -EFAULT;
        }
        regs := regs.(rax := result.value);
        pending := pending.(syscall := false, retValMva := MAX_U64);
        regs := regs.(rsp := Add(regs.rsp, HC_ARGS_SIZE));
        regs := regs.(rsp := Add(regs.rsp, ABI_REDZONE));
      }
      ret := 0;
    }

    /** kkm_setup_hypercall */
    method Hypercall(port: U64, data: nat, reason: Reason)
      modifies this`exitReason, this`area
      ensures Now() == SetupHypercall(old(Now()), port, data, reason)
    {
      exitReason := ExitIo(Port(port));
      area := Area(data % TWO_32, reason);
    }

    /** kkm_process_common_without_error and _with_error */
    method HandleException(t: Trap, withError: bool) returns (ret: int)
      modifies this
      ensures (ret, Now()) == ProcessException(old(Now()), t, withError)
    {
      var words := ExceptionFrame(regs, t, withError);
      regs := regs.(rsp := Sub(regs.rsp, FrameSize(withError)));
      var gva := regs.rsp;
      if !t.translated || !t.writeOk {
        return -EFAULT;
      }
      effects := effects + [CopyOut(t.mva, words)];
      Hypercall(EXCEPTION_IO_PORT, regs.rsp, FaultUnknown);
      pending := pending.(exception := true, savedRax := regs.rax);
      regs := regs.(rax := gva);
      pending := pending.(savedRbx := regs.rbx);
      regs := regs.(rbx := t.no);
      ret := 0;
    }

    /** kkm_process_general_protection */
    method HandleHypercall(t: Trap) returns (ret: int)
      modifies this
      ensures (ret, Now()) == ProcessHypercall(old(Now()), t)
    {
      if !t.translated || !t.readOk || t.opcode != OUT_OPCODE {
        return -EFAULT;
      }
      Hypercall(regs.rdx, regs.rax, FaultHyperCall);
      regs := regs.(rip := Add(regs.rip, 1));
      ret := 0;
    }

    /** kkm_process_syscall */
    method HandleSyscall(t: Trap) returns (ret: int)
      modifies this
      ensures (ret, Now()) == ProcessSyscall(old(Now()), t)
    {
      regs := regs.(rsp := Sub(regs.rsp, ABI_REDZONE));
      regs := regs.(rsp := Sub(regs.rsp, HC_ARGS_SIZE));
      var gva := regs.rsp;
      Hypercall(regs.rax, gva, FaultSyscall);
      var args := CallFrame(regs);
      if !t.translated || !t.writeOk {
        return -EFAULT;
      }
      effects := effects + [CopyOut(t.mva, args)];
      if !t.gsTranslated || !t.gsWriteOk {
        return -EFAULT;
      }
      effects := effects + [CopyOut(t.gsMva, [gva])];
      pending := pending.(syscall := true, retValMva := t.mva);
      regs := regs.(rax := gva);
      ret := 0;
    }

    /** kkm_process_page_fault; its effect on the tables is in PageFaults */
    method HandlePageFault(t: Trap) returns (ret: int)
      modifies this`trapAddr, this`errorCode, this`cr2, this`effects
      ensures (ret, Now()) == ProcessPageFault(old(Now()), t)
    {
      trapAddr, errorCode := cr2, t.error;
      if !t.translated {
        return -EFAULT;
      }
      ret := 0;
      if IsUser(t.error) {
        if !t.readOk {
          return -EFAULT;
        }
        if IsWrite(t.error) && !t.writeOk {
          return -EFAULT;
        }
        if !fullFlush {
          effects := effects + [FlushPage(cr2)];
        }
        ret := FAULT_PROCESS_DONE;
        cr2 := 0;
      }
    }

    /** kkm_process_intr */
    method HandleIntr(t: Trap) returns (ret: int)
      modifies this
      ensures (ret, Now()) == ProcessIntr(old(Now()), t)
    {
      exitReason := ExitUnknown;
      assert Now() == old(Now()).(exitReason := ExitUnknown);
      if t.no == TRAP_GP {
        ret := HandleHypercall(t);
      } else if t.no == TRAP_PF {
        ret := HandlePageFault(t);
      } else if t.no == TRAP_DB {
        exitReason, ret := ExitDebug(TRAP_DB, t.rip), 0;
      } else if t.no == TRAP_NMI {
        ret := 0;
      } else if t.no == TRAP_BP {
        regs := regs.(rip := Sub(regs.rip, 1));
        exitReason, ret := ExitDebug(TRAP_BP, regs.rip), 0;
      } else if t.no in WITHOUT_ERROR {
        ret := HandleException(t, false);
      } else if t.no in WITH_ERROR {
        ret := HandleException(t, true);
      } else if t.no == INTR_SYSCALL {
        ret := HandleSyscall(t);
      } else {
        ret := FAULT_PROCESS_DONE;
      }
    }

    /** The part of kkm_kontext_switch_kernel before begin. */
    method Prepare(immediateExit: bool, result: Copied) returns (ret: int)
      modifies this
      ensures (ret, Now()) == Prologue(old(Now()), immediateExit, result)
    {
      if immediateExit {
        return -EINTR;
      }
      LeaveNewThread();
      ret := HandleSyscallResponse(result);
      if ret != 0 {
        return;
      }
      GiveBack();
    }

    /** A thread that starts in the middle of its creator's system call undoes its frame. */
    method LeaveNewThread()
      modifies this`newThread, this`regs
      ensures Now() == StartThread(old(Now()))
    {
      if newThread {
        newThread := false;
        if !firstThread && area.reason == FaultSyscall {
          regs := regs.(rsp := Add(regs.rsp, HC_ARGS_SIZE));
          regs := regs.(rsp := Add(regs.rsp, ABI_REDZONE));
        }
      }
    }

    /** The registers of an announced exception, and a clean trap history. */
    method GiveBack()
      modifies this`regs, this`pending, this`repeated
      ensures Now() == Resume(old(Now()))
    {
      if pending.exception {
        regs := regs.(rax := pending.savedRax, rbx := pending.savedRbx);
      }
      pending := pending.(exception := false, savedRax := MAX_U64, savedRbx := MAX_U64);
      repeated := Repeat(MAX_U64, MAX_U64, MAX_U64, MAX_U64);
    }

    /** One trip into the payload and back, from the xstate switch to kkm_process_intr. */
    method Visit(hostX: int, payloadX: int, left: Regs, t: Trap) returns (ret: int, start: State)
      modifies this
      ensures var e := Visited(old(Now()), Round.Visit(hostX, payloadX, left, t));
              ret == e.ret && start == e.start && Now() == e.after
    {
      x := x.(cpu := hostX, kernel := hostX);
      if x.valid {
        x := x.(cpu := x.payload);
      }
      start := Now();
      regs, cr2 := left, t.cr2;
      x := x.(payload := payloadX, cpu := x.kernel, valid := true);
      ret := HandleIntr(t);
    }

    /** The trap history after a resolved trap, and whether to give up. */
    method CountFault(no: U64) returns (tooMany: bool)
      modifies this`repeated
      ensures Now() == CountTrap(old(Now()), no)
      ensures tooMany <==> Repeats(old(Now()), no) && repeated.counter > MAX_REPEAT_TRAP
    {
      tooMany := false;
      if no == TRAP_PF && repeated.trapNo == TRAP_PF && repeated.addr == trapAddr && repeated.error == errorCode {
        repeated := repeated.(counter := Add(repeated.counter, 1));
        tooMany := repeated.counter > MAX_REPEAT_TRAP;
      } else {
        repeated := Repeat(no, trapAddr, errorCode, 0);
      }
    }

    /** One pass from begin to the jump back, or to the end; later is what the passes to come are given. */
    method Turn(r: Round, ghost later: seq<Round>, log: seq<Entry>)
      returns (stop: bool, ret: int, log': seq<Entry>, ghost ending: Ending)
      requires r.Visit?
      modifies this
      ensures Loop(old(Now()), [r] + later, log) == if stop then Outcome(ending, Now(), log') else Loop(Now(), later, log')
      ensures stop ==> ret == Ret(ending)
    {
      ghost var s, rounds := Now(), [r] + later;
      assert rounds[0] == r && rounds[1..] == later;
      var start;
      ret, start := Visit(r.hostX, r.payloadX, r.regs, r.trap);
      var e := Entry(start, r.payloadX, Now(), r.trap.no, ret);
      assert Visited(s, r) == e;
      OneRound(s, rounds, log);
      log' := log + [e];
      stop, ending := ret != FAULT_PROCESS_DONE, Returned(ret);
      if !stop {
        stop := CountFault(r.trap.no);
        if stop {
          ret, ending := -EFAULT, TooManyFaults;
        }
      }
    }

    /** kkm_kontext_switch_kernel: the label begin and the jumps back to it. */
    method SwitchKernel(immediateExit: bool, result: Copied, rounds: seq<Round>) returns (ret: int, log: seq<Entry>)
      modifies this
      ensures var o := Run(old(Now()), immediateExit, result, rounds);
              ret == Ret(o.ending) && Now() == o.state && log == o.log
    {
      log := [];
      ret := Prepare(immediateExit, result);
      if ret != 0 {
        return;
      }
      var i := 0;
      while true
        invariant 0 <= i <= |rounds|
        invariant Run(old(Now()), immediateExit, result, rounds) == Loop(Now(), rounds[i..], log)
        decreases |rounds| - i
      {
        if i == |rounds| || rounds[i].Signal? {
          exitReason := ExitIntr;
          return -EINTR, log;
        }
        var stop;
        ghost var ending;
        assert rounds[i..] == [rounds[i]] + rounds[i + 1..];
        stop, ret, log, ending := Turn(rounds[i], rounds[i + 1..], log);
        if stop {
          return;
        }
        i := i + 1;
      }
    }
  }
}
