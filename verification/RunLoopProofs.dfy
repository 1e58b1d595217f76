/** Properties of whole runs of a kontext. */
module RunLoopProofs {
  import opened Constants
  import opened RunLoop

  /* ---- the repeat-fault bound ---- */

  predicate ResolvedFault(e: Entry) {
    e.no == TRAP_PF && e.ret == FAULT_PROCESS_DONE
  }

  /** Length of the run of identical resolved page faults that ends the log. */
  function FaultRun(log: seq<Entry>): nat {
    if log == [] then 0
    else
      var n := |log| - 1;
      if !ResolvedFault(log[n]) then 0
      else if n > 0 && ResolvedFault(log[n - 1]) && log[n - 1].after.trapAddr == log[n].after.trapAddr
              && log[n - 1].after.errorCode == log[n].after.errorCode
      then FaultRun(log[..n]) + 1
      else 1
  }

  /** What the trap history knows of the log: counter + 1 is the length of the current run of
      faults, and before the first trap the counter is all ones. */
  ghost predicate Tracks(s: State, log: seq<Entry>) {
    if log == [] then s.repeated == NO_TRAP
    else
      var e := log[|log| - 1];
      && e.ret == FAULT_PROCESS_DONE
      && s.repeated.trapNo == e.no && s.repeated.addr == e.after.trapAddr && s.repeated.error == e.after.errorCode
      && s.repeated.counter <= MAX_REPEAT_TRAP
      && (ResolvedFault(e) ==> s.repeated.counter + 1 == FaultRun(log))
      && (!ResolvedFault(e) ==> s.repeated.counter == 0)
  }

  lemma CountTracks(s: State, log: seq<Entry>, e: Entry)
    requires Tracks(s, log) && e.ret == FAULT_PROCESS_DONE && e.after.repeated == s.repeated
    ensures var counted := CountTrap(e.after, e.no);
            var tooMany := Repeats(e.after, e.no) && counted.repeated.counter > MAX_REPEAT_TRAP;
            && (tooMany <==> FaultRun(log + [e]) == MAX_REPEAT_TRAP + 2)
            && FaultRun(log + [e]) <= MAX_REPEAT_TRAP + 2
            && (!tooMany ==> Tracks(counted, log + [e]))
            && (Repeats(e.after, e.no) ==> s.repeated.counter != MAX_U64)
  {
    assert (log + [e])[..|log|] == log;
  }

  lemma ProcessingKeepsHistory(s: State, r: Round)
    requires r.Visit?
    ensures Visited(s, r).after.repeated == s.repeated
  {
    HandlersKeepHistory(Leave(Enter(s, r.hostX), r.regs, r.trap.cr2, r.payloadX), r.trap);
  }

  lemma HandlersKeepHistory(s: State, t: Trap)
    ensures ProcessIntr(s, t).1.repeated == s.repeated
  {
    var s' := s.(exitReason := ExitUnknown);
    assert ProcessSyscall(s', t).1.repeated == s.repeated && ProcessPageFault(s', t).1.repeated == s.repeated;
    assert ProcessException(s', t, true).1.repeated == s.repeated && ProcessException(s', t, false).1.repeated == s.repeated;
  }

  /** Every proper prefix of the log ends in a run of at most 17 identical faults. */
  ghost predicate PrefixesBounded(log: seq<Entry>, n: nat)
    requires n <= |log|
  {
    forall i: nat :: i <= n ==> FaultRun(log[..i]) <= MAX_REPEAT_TRAP + 1
  }

  lemma RoundBound(s: State, r: Round, log: seq<Entry>)
    requires Tracks(s, log) && PrefixesBounded(log, |log|) && r.Visit?
    ensures var e := Visited(s, r);
            var counted := CountTrap(e.after, e.no);
            var tooMany := Repeats(e.after, e.no) && counted.repeated.counter > MAX_REPEAT_TRAP;
            && PrefixesBounded(log + [e], |log|)
            && (e.ret != FAULT_PROCESS_DONE ==> FaultRun(log + [e]) == 0)
            && (e.ret == FAULT_PROCESS_DONE ==>
                  && (tooMany <==> FaultRun(log + [e]) == MAX_REPEAT_TRAP + 2)
                  && (!tooMany ==> Tracks(counted, log + [e]) && PrefixesBounded(log + [e], |log + [e]|)))
  {
    var e := Visited(s, r);
    var log' := log + [e];
    assert log[..|log|] == log && log'[..|log'|] == log';
    assert forall i: nat :: i <= |log| ==> log'[..i] == log[..i];
    if e.ret == FAULT_PROCESS_DONE {
      ProcessingKeepsHistory(s, r);
      CountTracks(s, log, e);
    }
  }

  lemma {:induction false} LoopBound(s: State, rounds: seq<Round>, log: seq<Entry>)
    requires Tracks(s, log) && PrefixesBounded(log, |log|)
    ensures var o := Loop(s, rounds, log);
            && (o.ending == TooManyFaults <==> FaultRun(o.log) == MAX_REPEAT_TRAP + 2)
            && (o.log != [] ==> PrefixesBounded(o.log, |o.log| - 1))
    decreases |rounds|
  {
    assert log[..|log|] == log;
    if rounds != [] && rounds[0].Visit? {
      var e := Visited(s, rounds[0]);
      var counted := CountTrap(e.after, e.no);
      RoundBound(s, rounds[0], log);
      if e.ret == FAULT_PROCESS_DONE && !(Repeats(e.after, e.no) && counted.repeated.counter > MAX_REPEAT_TRAP) {
        LoopBound(counted, rounds[1..], log + [e]);
      }
    }
  }

  lemma PrologueClearsHistory(s: State, immediateExit: bool, result: Copied)
    ensures var (ret, s1) := Prologue(s, immediateExit, result); ret == 0 ==> s1.repeated == NO_TRAP
  {
  }

  /** KKM_RUN gives up with -EFAULT for repetition exactly when one page fault was resolved 18
      times in a row, so the payload is re-entered on the same fault at most 17 times. */
  lemma RepeatFaultBound(s: State, immediateExit: bool, result: Copied, rounds: seq<Round>)
    ensures var o := Run(s, immediateExit, result, rounds);
            && (o.ending == TooManyFaults <==> FaultRun(o.log) == 18)
            && FaultRun(o.log) <= 18
            && forall i: nat :: i < |o.log| ==> FaultRun(o.log[..i]) <= 17
  {
    var (ret, s1) := Prologue(s, immediateExit, result);
    PrologueClearsHistory(s, immediateExit, result);
    if ret == 0 {
      LoopBound(s1, rounds, []);
      var log := Loop(s1, rounds, []).log;
      if log != [] {
        assert FaultRun(log[..|log| - 1]) <= MAX_REPEAT_TRAP + 1;
      }
    }
  }

  /* ---- pending system calls and pending exceptions exclude each other ---- */

  predicate Exclusive(p: Pending, newThread: bool) {
    && !(p.syscall && p.exception)
    && (newThread ==> !p.syscall && !p.exception)
    && (!p.syscall ==> p.retValMva == MAX_U64)
    && (!p.exception ==> p.savedRax == MAX_U64 && p.savedRbx == MAX_U64)
  }

  predicate Clear(s: State) {
    s.pending == NOTHING_PENDING && !s.newThread
  }

  lemma PrologueClears(s: State, immediateExit: bool, result: Copied)
    requires Exclusive(s.pending, s.newThread)
    ensures var (ret, s1) := Prologue(s, immediateExit, result);
            Exclusive(s1.pending, s1.newThread) && (ret == 0 ==> Clear(s1))
  {
  }

  /** A handler leaves at most one call pending, and none if the payload goes on at once. */
  predicate LeavesExclusive(o: (int, State)) {
    Exclusive(o.1.pending, o.1.newThread) && (o.0 == FAULT_PROCESS_DONE ==> Clear(o.1))
  }

  lemma HandlersAreExclusive(s: State, t: Trap, withError: bool)
    requires Clear(s)
    ensures LeavesExclusive(ProcessSyscall(s, t)) && LeavesExclusive(ProcessException(s, t, withError))
    ensures LeavesExclusive(ProcessHypercall(s, t)) && LeavesExclusive(ProcessPageFault(s, t)) && LeavesExclusive(ProcessBreakpoint(s))
  {
  }

  lemma IntrIsExclusive(s: State, t: Trap)
    requires Clear(s)
    ensures LeavesExclusive(ProcessIntr(s, t))
  {
    HandlersAreExclusive(s.(exitReason := ExitUnknown), t, true);
    HandlersAreExclusive(s.(exitReason := ExitUnknown), t, false);
  }

  lemma VisitedIsExclusive(s: State, r: Round)
    requires Clear(s) && r.Visit?
    ensures var e := Visited(s, r);
            && Clear(e.start) && Exclusive(e.after.pending, e.after.newThread)
            && (e.ret == FAULT_PROCESS_DONE ==> Clear(e.after))
  {
    IntrIsExclusive(Leave(Enter(s, r.hostX), r.regs, r.trap.cr2, r.payloadX), r.trap);
  }

  lemma {:induction false} LoopIsExclusive(s: State, rounds: seq<Round>, log: seq<Entry>)
    requires Clear(s) && forall e :: e in log ==> Clear(e.start)
    ensures var o := Loop(s, rounds, log);
            Exclusive(o.state.pending, o.state.newThread) && forall e :: e in o.log ==> Clear(e.start)
    decreases |rounds|
  {
    if rounds != [] && rounds[0].Visit? {
      var e := Visited(s, rounds[0]);
      VisitedIsExclusive(s, rounds[0]);
      if e.ret == FAULT_PROCESS_DONE && !(Repeats(e.after, e.no) && CountTrap(e.after, e.no).repeated.counter > MAX_REPEAT_TRAP) {
        LoopIsExclusive(CountTrap(e.after, e.no), rounds[1..], log + [e]);
      }
    }
  }

  /** A call of the monitor. SetInfo replays the result of an earlier GetInfo. WriteRegs is every way to
      set registers, the copy kkm_run makes of dirty registers included, and to write the shared page;
      WriteXstate is KKM_SET_FPU or KKM_KONTEXT_SET_XSTATE, whatever becomes of the latter's checks. */
  datatype Call = RunPayload(immediateExit: bool, result: Copied, rounds: seq<Round>)
                | GetInfo | SetInfo(which: nat) | Reuse | SetDebug
                | WriteRegs(regs: Regs, gsBase: U64, cr2: U64, area: Area)
                | WriteXstate(payloadX: int, valid: bool)

  /** The kontext, the save infos handed out so far, and every visit to the payload. */
  datatype World = World(s: State, infos: seq<SaveInfo>, log: seq<Entry>)

  function Perform(w: World, c: Call): World {
    match c
    case RunPayload(immediateExit, result, rounds) =>
      var o := Run(w.s, immediateExit, result, rounds);
      w.(s := o.state, log := w.log + o.log)
    case GetInfo => var (si, s) := GetSaveInfo(w.s); w.(s := s, infos := w.infos + [si])
    case SetInfo(i) => if i < |w.infos| then w.(s := SetSaveInfo(w.s, w.infos[i])) else w
    case Reuse => w.(s := Reinit(w.s))
    case SetDebug => w.(s := w.s.(debugSet := true))
    case WriteRegs(regs, gsBase, cr2, area) => w.(s := w.s.(regs := regs, gsBase := gsBase, cr2 := cr2, area := area))
    case WriteXstate(payloadX, valid) => w.(s := w.s.(x := w.s.x.(payload := payloadX, valid := valid)))
  }

  function PerformAll(w: World, calls: seq<Call>): World {
    if calls == [] then w else Perform(PerformAll(w, calls[..|calls| - 1]), calls[|calls| - 1])
  }

  ghost predicate AllExclusive(w: World) {
    && Exclusive(w.s.pending, w.s.newThread)
    && (forall si :: si in w.infos ==> Exclusive(si.pending, si.newThread))
    && (forall e :: e in w.log ==> Clear(e.start))
  }

  lemma RunIsExclusive(s: State, immediateExit: bool, result: Copied, rounds: seq<Round>)
    requires Exclusive(s.pending, s.newThread)
    ensures var o := Run(s, immediateExit, result, rounds);
            Exclusive(o.state.pending, o.state.newThread) && forall e :: e in o.log ==> Clear(e.start)
  {
    var (ret, s1) := Prologue(s, immediateExit, result);
    PrologueClears(s, immediateExit, result);
    if ret == 0 {
      LoopIsExclusive(s1, rounds, []);
    }
  }

  lemma CallIsExclusive(w: World, c: Call)
    requires AllExclusive(w)
    ensures AllExclusive(Perform(w, c))
  {
    if c.RunPayload? {
      RunIsExclusive(w.s, c.immediateExit, c.result, c.rounds);
    }
  }

  /** Whatever the monitor calls, in whatever order: a system call and an exception are never both
      pending, a new thread has neither, and the payload never starts with either. */
  lemma {:induction false} PendingStatesExclude(w: World, calls: seq<Call>)
    requires AllExclusive(w)
    ensures AllExclusive(PerformAll(w, calls))
  {
    if calls != [] {
      PendingStatesExclude(w, calls[..|calls| - 1]);
      CallIsExclusive(PerformAll(w, calls[..|calls| - 1]), calls[|calls| - 1]);
    }
  }

  /** kkm_kontext_init leaves a state of this kind, and GET followed by SET is the identity. */
  lemma GetThenSetRestores(s: State)
    ensures var (si, cleared) := GetSaveInfo(s); SetSaveInfo(cleared, si) == s
    ensures Exclusive(GetSaveInfo(s).1.pending, s.newThread)
    ensures Exclusive(Reinit(s).pending, Reinit(s).newThread)
  {
  }

  /* ---- the frame of a system call is undone exactly once ---- */

  /** The stack pointer the payload will see, whether or not the frame is still there. */
  function OwedRsp(s: State): U64 {
    if s.pending.syscall then Add(s.regs.rsp, SYSCALL_FRAME) else s.regs.rsp
  }

  /** What the monitor can do between a system call and the payload's next entry. */
  datatype Meanwhile =
    | ImmediateExit
    | FailedResponse
    | SignalExit(result: U64)
    | SaveAndRestore(meanwhile: State)   // GET, anything at all, registers put back, SET

  function Pass(s: State, m: Meanwhile): State {
    match m
    case ImmediateExit => Run(s, true, CopyFailed, []).state
    case FailedResponse => if s.pending.syscall then Run(s, false, CopyFailed, []).state else s
    case SignalExit(v) => Run(s, false, Copy(v), [Signal]).state
    case SaveAndRestore(other) => SetSaveInfo(other.(regs := s.regs), GetSaveInfo(s).0)
  }

  function PassAll(s: State, ms: seq<Meanwhile>): State {
    if ms == [] then s else Pass(PassAll(s, ms[..|ms| - 1]), ms[|ms| - 1])
  }

  /** The first result copied successfully. */
  function FirstResult(ms: seq<Meanwhile>, last: U64): U64 {
    if ms == [] then last
    else if ms[0].SignalExit? then ms[0].result
    else FirstResult(ms[1..], last)
  }

  lemma FirstResultOf(ms: seq<Meanwhile>, m: Meanwhile, last: U64)
    ensures FirstResult(ms + [m], last) == FirstResult(ms, if m.SignalExit? then m.result else last)
  {
    if ms == [] {
      assert [] + [m] == [m] && [m][1..] == [];
    } else {
      assert (ms + [m])[1..] == ms[1..] + [m];
      if !ms[0].SignalExit? { FirstResultOf(ms[1..], m, last); }
    }
  }

  /** Before the payload is back, either the frame is still there, or it is gone and rax holds a result. */
  predicate InCall(s: State, rsp: U64, result: U64) {
    && OwedRsp(s) == rsp && !s.newThread && !s.pending.exception
    && (!s.pending.syscall ==> s.regs.rax == result)
  }

  lemma RaisedOnce(s: State, m: Meanwhile, rsp: U64, result: U64)
    requires InCall(s, rsp, if s.pending.syscall && m.SignalExit? then m.result else result)
    ensures InCall(Pass(s, m), rsp, if s.pending.syscall && m.SignalExit? then m.result else result)
    ensures Pass(s, m).pending.syscall == (s.pending.syscall && !m.SignalExit?)
  {
    assert Add(Add(s.regs.rsp, HC_ARGS_SIZE), ABI_REDZONE) == Add(s.regs.rsp, SYSCALL_FRAME);
  }

  /** Whether some earlier response already went through. */
  predicate Answered(ms: seq<Meanwhile>) {
    exists i :: 0 <= i < |ms| && ms[i].SignalExit?
  }

  lemma {:induction false} StillOwed(s: State, ms: seq<Meanwhile>, last: U64)
    requires s.pending.syscall && !s.newThread && !s.pending.exception
    ensures InCall(PassAll(s, ms), OwedRsp(s), FirstResult(ms, last))
    ensures PassAll(s, ms).pending.syscall <==> !Answered(ms)
  {
    if ms != [] {
      var n := |ms| - 1;
      var m, before := ms[n], PassAll(s, ms[..n]);
      assert ms[..n] + [m] == ms;
      FirstResultOf(ms[..n], m, last);
      StillOwed(s, ms[..n], if m.SignalExit? then m.result else last);
      UnansweredResult(ms[..n], if m.SignalExit? then m.result else last);
      assert Answered(ms) <==> Answered(ms[..n]) || m.SignalExit?;
      RaisedOnce(before, m, OwedRsp(s), FirstResult(ms, last));
    }
  }

  lemma UnansweredResult(ms: seq<Meanwhile>, last: U64)
    ensures !Answered(ms) ==> FirstResult(ms, last) == last
  {
    if ms != [] {
      assert Answered(ms[1..]) ==> Answered(ms) by {
        if Answered(ms[1..]) {
          var i :| 0 <= i < |ms[1..]| && ms[1..][i].SignalExit?;
          assert ms[i + 1].SignalExit?;
        }
      }
      UnansweredResult(ms[1..], last);
    }
  }

  lemma CallOwesItsFrame(s0: State, t: Trap)
    requires Clear(s0) && ProcessSyscall(s0, t).0 == 0
    ensures var called := ProcessSyscall(s0, t).1;
            OwedRsp(called) == s0.regs.rsp && called.pending.syscall && !called.newThread && !called.pending.exception
  {
  }

  lemma EntryPaysTheFrame(s: State, rsp: U64, result: U64, hostX: int, first: U64)
    requires InCall(s, rsp, first) && (s.pending.syscall ==> first == result)
    ensures var (ret, ready) := Prologue(s, false, Copy(result));
            ret == 0 && Enter(ready, hostX).regs.rsp == rsp && Enter(ready, hostX).regs.rax == first
  {
    assert Add(Add(s.regs.rsp, HC_ARGS_SIZE), ABI_REDZONE) == Add(s.regs.rsp, SYSCALL_FRAME);
  }

  /** After a successful system call and any sequence of exits, failed responses and saved states,
      the payload starts with the stack pointer it had before the call and the first result the
      monitor delivered: the frame was undone exactly once. */
  lemma SyscallFrameUndoneOnce(s0: State, t: Trap, ms: seq<Meanwhile>, result: U64, hostX: int)
    requires Clear(s0) && ProcessSyscall(s0, t).0 == 0
    ensures var s := PassAll(ProcessSyscall(s0, t).1, ms);
            var (ret, ready) := Prologue(s, false, Copy(result));
            && ret == 0
            && Enter(ready, hostX).regs.rsp == s0.regs.rsp
            && Enter(ready, hostX).regs.rax == FirstResult(ms, result)
  {
    var called := ProcessSyscall(s0, t).1;
    CallOwesItsFrame(s0, t);
    StillOwed(called, ms, result);
    UnansweredResult(ms, result);
    EntryPaysTheFrame(PassAll(called, ms), s0.regs.rsp, result, hostX, FirstResult(ms, result));
  }

  /* ---- what an exception borrows is given back, and nothing else is undone ---- */

  /** The registers the payload will see: rax and rbx from where the exception kept them. */
  function OwedRegs(s: State): Regs {
    if s.pending.exception then s.regs.(rax := s.pending.savedRax, rbx := s.pending.savedRbx) else s.regs
  }

  /** No system call is pending, and the payload is owed these registers. */
  predicate Owes(s: State, regs: Regs) {
    !s.pending.syscall && !s.newThread && OwedRegs(s) == regs
  }

  lemma {:induction false} RegistersStillOwed(s: State, ms: seq<Meanwhile>, regs: Regs)
    requires Owes(s, regs)
    ensures Owes(PassAll(s, ms), regs)
  {
    if ms != [] {
      RegistersStillOwed(s, ms[..|ms| - 1], regs);
    }
  }

  lemma EntryPaysRegisters(s: State, result: Copied, hostX: int, regs: Regs)
    requires Owes(s, regs)
    ensures var (ret, ready) := Prologue(s, false, result);
            ret == 0 && Enter(ready, hostX).regs == regs
  {
  }

  /** The frame of a system call is in place, and its address where the gs base points. */
  predicate CallCopied(t: Trap) {
    t.translated && t.writeOk && t.gsTranslated && t.gsWriteOk
  }

  /** The frame of an exception is in place. */
  predicate FrameCopied(t: Trap) {
    t.translated && t.writeOk
  }

  /** The registers with which the payload next starts, after any exits, failed responses and saved states. */
  function NextRegs(s: State, ms: seq<Meanwhile>, result: Copied, hostX: int): Regs {
    Enter(Prologue(PassAll(s, ms), false, result).1, hostX).regs
  }

  lemma LoweredIsLower(rsp: U64, n: nat)
    requires 0 < n < TWO_64
    ensures Sub(rsp, n) != rsp
  {
  }

  lemma FailedCall(s0: State, t: Trap)
    requires Clear(s0) && !CallCopied(t)
    ensures var called := ProcessSyscall(s0, t);
            called.0 != 0 && Owes(called.1, s0.regs.(rsp := Sub(s0.regs.rsp, SYSCALL_FRAME)))
  {
  }

  /** After a system call the payload has its own stack pointer back if and only if both copies were
      made; otherwise rsp stays lowered, and nothing ever raises it. */
  lemma CallFrameUndoneExactly(s0: State, t: Trap, ms: seq<Meanwhile>, result: U64, hostX: int)
    requires Clear(s0)
    ensures var regs := NextRegs(ProcessSyscall(s0, t).1, ms, Copy(result), hostX);
            && (regs.rsp == s0.regs.rsp <==> CallCopied(t))
            && (!CallCopied(t) ==> regs == s0.regs.(rsp := Sub(s0.regs.rsp, SYSCALL_FRAME)))
  {
    var called := ProcessSyscall(s0, t).1;
    LoweredIsLower(s0.regs.rsp, SYSCALL_FRAME);
    if CallCopied(t) {
      SyscallFrameUndoneOnce(s0, t, ms, result, hostX);
    } else {
      FailedCall(s0, t);
      RegistersStillOwed(called, ms, s0.regs.(rsp := Sub(s0.regs.rsp, SYSCALL_FRAME)));
      EntryPaysRegisters(PassAll(called, ms), Copy(result), hostX, s0.regs.(rsp := Sub(s0.regs.rsp, SYSCALL_FRAME)));
    }
  }

  lemma ExceptionOwes(s0: State, t: Trap, withError: bool)
    requires Clear(s0)
    ensures var (ret, s) := ProcessException(s0, t, withError);
            && Owes(s, s0.regs.(rsp := Sub(s0.regs.rsp, FrameSize(withError))))
            && (ret == 0 <==> FrameCopied(t)) && (s.pending.exception <==> FrameCopied(t))
            && s.effects == s0.effects + if FrameCopied(t) then [CopyOut(t.mva, ExceptionFrame(s0.regs, t, withError))] else []
  {
  }

  /** After an exception and any exits and saved states, the payload starts with its own registers, only
      rsp lowered by the frame; it is never raised again. The frame is there, and the exception announced,
      if and only if the copy was made. */
  lemma ExceptionLowersRspOnce(s0: State, t: Trap, withError: bool, ms: seq<Meanwhile>, result: Copied, hostX: int)
    requires Clear(s0)
    ensures var (ret, s) := ProcessException(s0, t, withError);
            && Prologue(PassAll(s, ms), false, result).0 == 0
            && NextRegs(s, ms, result, hostX) == s0.regs.(rsp := Sub(s0.regs.rsp, if withError then 72 else 64))
            && (ret == 0 <==> FrameCopied(t)) && (s.pending.exception <==> FrameCopied(t))
            && s.effects == s0.effects + if FrameCopied(t) then [CopyOut(t.mva, ExceptionFrame(s0.regs, t, withError))] else []
  {
    var s := ProcessException(s0, t, withError).1;
    var regs := s0.regs.(rsp := Sub(s0.regs.rsp, FrameSize(withError)));
    ExceptionOwes(s0, t, withError);
    RegistersStillOwed(s, ms, regs);
    EntryPaysRegisters(PassAll(s, ms), result, hostX, regs);
  }

  /** A system call whose arguments can be copied out, but not their address. */
  function LostCall(mva: U64): Trap {
    Trap(INTR_SYSCALL, 0, 0, 0, 0, 0, 0, 0, mva, 0, true, false, true, true, true, 0)
  }

  /** It fails, and the payload goes on 184 bytes lower. */
  lemma LostCallStays(s0: State, mva: U64, ms: seq<Meanwhile>, result: U64, hostX: int)
    requires Clear(s0)
    ensures var (ret, s) := ProcessSyscall(s0, LostCall(mva));
            && ret == -EFAULT && s.effects == s0.effects + [CopyOut(mva, CallFrame(s0.regs))]
            && NextRegs(s, ms, Copy(result), hostX).rsp == Sub(s0.regs.rsp, 184)
  {
    CallFrameUndoneExactly(s0, LostCall(mva), ms, result, hostX);
  }

  /* ---- the payload's extended state ---- */

  /** From the second visit on, the payload finds the xstate it left; the host always gets its own back. */
  ghost predicate Carried(log: seq<Entry>) {
    && (forall i :: 0 < i < |log| ==> log[i].start.x.cpu == log[i - 1].leftX)
    && (forall i :: 0 <= i < |log| ==> log[i].after.x.cpu == log[i].start.x.kernel)
  }

  /** What an xstate must look like after a log of visits. */
  ghost predicate Kept(x: Xstate, log: seq<Entry>) {
    log != [] ==> x.valid && x.payload == log[|log| - 1].leftX
  }

  lemma HandlersLeaveXstate(s: State, t: Trap)
    ensures ProcessIntr(s, t).1.x == s.x
  {
    var s' := s.(exitReason := ExitUnknown);
    assert ProcessSyscall(s', t).1.x == s.x && ProcessPageFault(s', t).1.x == s.x;
    assert ProcessException(s', t, true).1.x == s.x && ProcessException(s', t, false).1.x == s.x;
  }

  lemma VisitedXstate(s: State, r: Round)
    requires r.Visit?
    ensures var e := Visited(s, r);
            && e.start.x.cpu == (if s.x.valid then s.x.payload else r.hostX)
            && e.start.x.kernel == r.hostX && e.leftX == r.payloadX
            && e.after.x == Xstate(r.hostX, r.hostX, r.payloadX, true)
            && CountTrap(e.after, e.no).x == e.after.x
  {
    HandlersLeaveXstate(Leave(Enter(s, r.hostX), r.regs, r.trap.cr2, r.payloadX), r.trap);
  }

  lemma CarriedOn(s: State, log: seq<Entry>, r: Round)
    requires Carried(log) && Kept(s.x, log) && r.Visit?
    ensures var e := Visited(s, r); Carried(log + [e]) && Kept(e.after.x, log + [e])
  {
    VisitedXstate(s, r);
  }

  lemma {:induction false} LoopCarriesXstate(s: State, rounds: seq<Round>, log: seq<Entry>)
    requires Carried(log) && Kept(s.x, log)
    ensures var o := Loop(s, rounds, log); Carried(o.log) && Kept(o.state.x, o.log)
    decreases |rounds|
  {
    if rounds != [] && rounds[0].Visit? {
      var e := Visited(s, rounds[0]);
      CarriedOn(s, log, rounds[0]);
      var counted := CountTrap(e.after, e.no);
      assert counted.x == e.after.x;
      if e.ret == FAULT_PROCESS_DONE && !(Repeats(e.after, e.no) && counted.repeated.counter > MAX_REPEAT_TRAP) {
        LoopCarriesXstate(counted, rounds[1..], log + [e]);
      }
    }
  }

  /** A loop appends the same visits to any log. */
  lemma {:induction false} LogsJoin(s: State, rounds: seq<Round>, log: seq<Entry>, more: seq<Entry>)
    ensures var o := Loop(s, rounds, more);
            Loop(s, rounds, log + more).log == log + o.log && Loop(s, rounds, log + more).state == o.state
    decreases |rounds|
  {
    if rounds != [] && rounds[0].Visit? {
      var e := Visited(s, rounds[0]);
      var counted := CountTrap(e.after, e.no);
      assert log + more + [e] == log + (more + [e]);
      if e.ret == FAULT_PROCESS_DONE && !(Repeats(e.after, e.no) && counted.repeated.counter > MAX_REPEAT_TRAP) {
        LogsJoin(counted, rounds[1..], log, more + [e]);
      }
    }
  }

  lemma PrologueLeavesXstate(s: State, immediateExit: bool, result: Copied)
    ensures Prologue(s, immediateExit, result).1.x == s.x
  {
  }

  lemma RunCarriesXstate(s: State, log: seq<Entry>, immediateExit: bool, result: Copied, rounds: seq<Round>)
    requires Carried(log) && Kept(s.x, log)
    ensures var o := Run(s, immediateExit, result, rounds); Carried(log + o.log) && Kept(o.state.x, log + o.log)
  {
    var (ret, s1) := Prologue(s, immediateExit, result);
    PrologueLeavesXstate(s, immediateExit, result);
    assert log + [] == log;
    if ret == 0 {
      LoopCarriesXstate(s1, rounds, log);
      LogsJoin(s1, rounds, log, []);
    }
  }

  /** The payload's xstate that nobody has changed since: what the last visit left, or what the monitor
      wrote after it. Told from the calls alone, not from the kontext. */
  function LatestXstate(w: World, calls: seq<Call>): (x: (int, bool)) {
    if calls == [] then (w.s.x.payload, w.s.x.valid)
    else
      var n := |calls| - 1;
      LatestAfter(PerformAll(w, calls[..n]), calls[n], LatestXstate(w, calls[..n]))
  }

  function LatestAfter(w: World, c: Call, before: (int, bool)): (int, bool) {
    match c
    case RunPayload(immediateExit, result, rounds) =>
      var log := Run(w.s, immediateExit, result, rounds).log;
      if log == [] then before else (log[|log| - 1].leftX, true)
    case WriteXstate(payloadX, valid) => (payloadX, valid)
    case _ => before
  }

  lemma StepHoldsLatest(w: World, c: Call)
    ensures var x := Perform(w, c).s.x; (x.payload, x.valid) == LatestAfter(w, c, (w.s.x.payload, w.s.x.valid))
  {
    if c.RunPayload? {
      RunKeepsLatest(w.s, c.immediateExit, c.result, c.rounds);
    }
  }

  lemma {:induction false} KontextHoldsLatest(w: World, calls: seq<Call>)
    ensures var x := PerformAll(w, calls).s.x; (x.payload, x.valid) == LatestXstate(w, calls)
  {
    if calls != [] {
      var n := |calls| - 1;
      KontextHoldsLatest(w, calls[..n]);
      StepHoldsLatest(PerformAll(w, calls[..n]), calls[n]);
    }
  }

  /** A run that enters the payload at all leaves what its last visit left. */
  lemma RunKeepsLatest(s: State, immediateExit: bool, result: Copied, rounds: seq<Round>)
    ensures var o := Run(s, immediateExit, result, rounds);
            && Carried(o.log)
            && (o.log == [] ==> o.state.x == s.x)
            && (o.log != [] ==> o.state.x.valid && o.state.x.payload == o.log[|o.log| - 1].leftX)
  {
    RunCarriesXstate(s, [], immediateExit, result, rounds);
    var o := Run(s, immediateExit, result, rounds);
    assert [] + o.log == o.log;
    PrologueLeavesXstate(s, immediateExit, result);
    if o.log == [] { NoVisitNoChange(s, immediateExit, result, rounds); }
  }

  lemma NoVisitNoChange(s: State, immediateExit: bool, result: Copied, rounds: seq<Round>)
    requires Run(s, immediateExit, result, rounds).log == []
    ensures Run(s, immediateExit, result, rounds).state.x == s.x
  {
    var (ret, s1) := Prologue(s, immediateExit, result);
    PrologueLeavesXstate(s, immediateExit, result);
    if ret == 0 && rounds != [] && rounds[0].Visit? {
      LogGrows(s1, rounds, []);
    }
  }

  lemma {:induction false} LogGrows(s: State, rounds: seq<Round>, log: seq<Entry>)
    ensures |Loop(s, rounds, log).log| >= |log| + if rounds != [] && rounds[0].Visit? then 1 else 0
    ensures log <= Loop(s, rounds, log).log
    ensures rounds != [] && rounds[0].Visit? ==> Loop(s, rounds, log).log[|log|] == Visited(s, rounds[0])
    decreases |rounds|
  {
    if rounds != [] && rounds[0].Visit? {
      var e := Visited(s, rounds[0]);
      var counted := CountTrap(e.after, e.no);
      if e.ret == FAULT_PROCESS_DONE && !(Repeats(e.after, e.no) && counted.repeated.counter > MAX_REPEAT_TRAP) {
        LogGrows(counted, rounds[1..], log + [e]);
      }
    }
  }

  /** After any calls at all: the payload starts a run with the latest xstate, once there is a valid one,
      and each later visit with what the visit before it left; the host always gets its own back. */
  lemma PayloadFindsLatestXstate(w: World, calls: seq<Call>, immediateExit: bool, result: Copied, rounds: seq<Round>)
    ensures var log := Run(PerformAll(w, calls).s, immediateExit, result, rounds).log;
            var (latest, valid) := LatestXstate(w, calls);
            && (log != [] ==> log[0].start.x.cpu == if valid then latest else log[0].start.x.kernel)
            && (forall i :: 0 < i < |log| ==> log[i].start.x.cpu == log[i - 1].leftX)
            && (forall i :: 0 <= i < |log| ==> log[i].after.x.cpu == log[i].start.x.kernel)
  {
    var s := PerformAll(w, calls).s;
    KontextHoldsLatest(w, calls);
    RunKeepsLatest(s, immediateExit, result, rounds);
    var (ret, s1) := Prologue(s, immediateExit, result);
    PrologueLeavesXstate(s, immediateExit, result);
    if ret == 0 && rounds != [] && rounds[0].Visit? {
      LogGrows(s1, rounds, []);
      VisitedXstate(s1, rounds[0]);
    }
  }

  /** Across any sequence of calls that does not write the payload's xstate, every visit but the
      first finds the xstate the visit before it left, and the host finds its own. */
  lemma {:induction false} XstateCarried(w: World, calls: seq<Call>)
    requires Carried(w.log) && Kept(w.s.x, w.log) && forall c :: c in calls ==> !c.WriteXstate?
    ensures var w' := PerformAll(w, calls); Carried(w'.log) && Kept(w'.s.x, w'.log)
  {
    if calls != [] {
      XstateCarried(w, calls[..|calls| - 1]);
      CallCarriesXstate(PerformAll(w, calls[..|calls| - 1]), calls[|calls| - 1]);
    }
  }

  lemma CallCarriesXstate(w: World, c: Call)
    requires Carried(w.log) && Kept(w.s.x, w.log) && !c.WriteXstate?
    ensures var w' := Perform(w, c); Carried(w'.log) && Kept(w'.s.x, w'.log)
  {
    if c.RunPayload? {
      RunCarriesXstate(w.s, w.log, c.immediateExit, c.result, c.rounds);
    }
  }
}
