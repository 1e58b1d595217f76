/** One pass of kkm_kontext_switch_kernel through the payload: what the host gets back and what the
    guest area holds afterwards. */
module WorldSwitch {
  import opened Constants
  import opened Machine
  import opened Straight
  import opened EntryCode
  import opened Anchors
  import opened ExitCode
  import opened Arrival
  import opened CHalves
  import opened Flags
  import opened HostReturn

  /** The states of a pass, before and after each program, and what the programs do not choose; S is
      the type of a state. */
  datatype PassOver<S> = PassOver(
    g: int,               // the guest area
    xstateValid: bool, nativeIdt: int, guestIdt: int, syscallEntry: int, flags: int, unused: int,
    cause: Cause,
    host: S,              // in kkm_kontext_switch_kernel, before it saves anything
    saved: S,
    called: S,            // at kkm_switch_to_gk_asm
    inGk: S,
    atStart: S,           // in kkm_guest_kernel_start_payload
    started: S,
    atEntry: S,           // at kkm_switch_to_gp_asm
    entered: S,           // the payload's first instruction
    atTrap: S,            // the payload's last
    arrived: S,           // at kkm_intr_entry_asm_common
    exited: S,
    atHostKernel: S,      // in kkm_switch_to_host_kernel
    back: S,
    atReturn: S,          // at kkm_switch_to_hk_asm
    native: S,
    final: S)             // in kkm_kontext_switch_kernel, about to enable interrupts

  type Pass = PassOver<State>

  /** What kkm_kontext_switch_kernel does first when it is back. */
  function SwapXstate(): seq<Instr> {
    One(Move(At(S(Xstate)), K(PayloadXstate))) + One(Move(At(K(KernelXstate)), S(Xstate)))
  }

  /** Compiled C code on the guest stack uses that stack and the general registers as it likes. */
  ghost predicate ByC(g: int, s: State, s': State) {
    && SameSystem(s, s')
    && forall a :: !(g + STACK_BOTTOM <= a < g + STACK_TOP) ==> Get(s', M(a)) == Get(s, M(a))
  }

  /** On the native stack it leaves the guest area alone. */
  ghost predicate ByHostC(g: int, s: State, s': State) {
    && SameSystem(s, s')
    && forall a :: g <= a < g + AREA_SIZE ==> Get(s', M(a)) == Get(s, M(a))
  }

  /** The payload changes whatever user mode can change. Its own memory is not part of the state. */
  ghost predicate ByPayload(s: State, s': State) {
    && (forall f :: Get(s', K(f)) == Get(s, K(f))) && SameWords(s, s')
    && (forall x: Sys :: x.Cr0? || x.Cr3? || x.Cr4? || x.Cr8? || x.Lstar? || x.KernelGsBase? || x.Idt? || x.Sp0? || x.Sp1? || x.Sp2?
          ==> Get(s', S(x)) == Get(s, S(x)))
    && Get(s', S(Cs)) % 4 == Get(s, S(Cs)) % 4
  }

  datatype Stage = Saving | Calling | ToGuestKernel | InGuestStack | Starting | AtEntry | Entering | Running
                 | Arriving | Exiting | InHostKernel | Restoring | Leaving | ToNative | Swapping

  /** The C code passes the native cr3 and the saved stack on. */
  ghost predicate Returning(p: Pass) {
    && ByC(p.g, p.back, p.atReturn)
    && Get(p.atReturn, R(Rdi)) == Get(p.atReturn, K(NativeCr3)) && Get(p.atReturn, R(Rsi)) == Get(p.atReturn, M(p.g + OFF_NK_STACK))
  }

  ghost predicate StageRuns(k: Stage, p: Pass) {
    match k
    case Saving => p.saved == Exec(SaveHost(p.g, p.nativeIdt, p.guestIdt, p.xstateValid), p.host) && Get(p.host, S(Idt)) == p.nativeIdt
    case Calling => ByHostC(p.g, p.saved, p.called) && Get(p.called, R(Rdi)) == p.g && StacksApart(p.called)
    case ToGuestKernel => p.inGk == Exec(SwitchToGk(p.unused), p.called)
    case InGuestStack => ByC(p.g, p.inGk, p.atStart)
    case Starting => p.flags == FlagsIn(p.g, p.atStart) && p.started == Exec(StartPayload(p.g, p.flags, p.syscallEntry), p.atStart)
    case AtEntry => ByC(p.g, p.started, p.atEntry) && Get(p.atEntry, R(Rdi)) == p.g && OnGuestStack(p.atEntry, p.g)
    case Entering => p.entered == Exec(SwitchToGp(FirstLoads(), LastLoads(), LastPops()), p.atEntry)
    case Running => ByPayload(p.entered, p.atTrap)
    case Arriving => p.arrived == Arrived(p.cause, p.atTrap)
    case Exiting => p.exited == Exec(IntrCommon(HighRegs(), LowRegs()), p.arrived)
    case InHostKernel => ByC(p.g, p.exited, p.atHostKernel)
    case Restoring => p.back == Exec(HostKernel(p.g), p.atHostKernel)
    case Leaving => Returning(p)
    case ToNative => p.native == Exec(SwitchToHk(HostPops()), p.atReturn)
    case Swapping => p.final == Exec(SwapXstate(), p.native)
  }

  ghost predicate OnePass(p: Pass) {
    && p.g % AREA_SIZE == 0 && !(p.g <= REDIRECT < p.g + AREA_SIZE)
    && AllStagesRun(p)
  }

  ghost predicate AllStagesRun(p: Pass) {
    forall k :: StageRuns(k, p)
  }

  /* ---- what stays in struct kkm_kontext, the area's first words and the native stack ---- */

  ghost predicate Untouched(g: int, s: State, s': State) {
    && (forall f :: Get(s', K(f)) == Get(s, K(f)))
    && (forall a :: !(g + 128 <= a < g + AREA_SIZE) ==> Get(s', M(a)) == Get(s, M(a)))
    && (forall x: Sys :: x.Cr0? || x.Cr4? || x.Cr8? ==> Get(s', S(x)) == Get(s, S(x)))
  }

  lemma ByCTouchesNothing(g: int, s: State, s': State)
    requires ByC(g, s, s')
    ensures Untouched(g, s, s')
  {
  }

  lemma EntryTouchesNothing(g: int, s: State, s': State)
    requires g == Get(s, R(Rdi)) && OnGuestStack(s, g) && PayloadEntered(s, s')
    ensures Untouched(g, s, s')
  {
  }

  lemma PayloadTouchesNothing(g: int, s: State, s': State)
    requires ByPayload(s, s')
    ensures Untouched(g, s, s')
  {
  }

  lemma ArrivalTouchesNothing(g: int, c: Cause, s: State, s': State)
    requires Arrives(g, c, s, s')
    ensures Untouched(g, s, s')
  {
  }

  lemma ExitTouchesNothing(g: int, cr3: int, s: State, s': State)
    requires ContextSaved(g, cr3, s, s')
    ensures Untouched(g, s, s')
  {
  }

  lemma HostKernelTouchesNothing(g: int, s: State, s': State)
    requires HostBack(g, s, s')
    ensures Untouched(g, s, s')
  {
  }

  lemma UntouchedThen(g: int, s: State, s1: State, s2: State)
    requires Untouched(g, s, s1) && Untouched(g, s1, s2)
    ensures Untouched(g, s, s2)
  {
  }

  /** The host's state, as the area's first words, struct kkm_kontext and the native stack hold it. */
  ghost predicate Holds(p: Pass, s: State) {
    var sp := Get(p.called, R(Rsp));
    && HostKept(p.host, s)
    && Get(s, M(p.g + OFF_NATIVE_IDT)) == Get(p.host, S(Idt)) && Get(s, M(p.g + OFF_NK_STACK)) == sp - 48
    && Get(s, M(p.g + OFF_SP0)) == Get(p.host, S(Sp0)) && Get(s, M(p.g + OFF_SP1)) == Get(p.host, S(Sp1))
    && Get(s, M(p.g + OFF_SP2)) == Get(p.host, S(Sp2))
    && CalleeSaved(sp, p.called, s) && Get(s, M(sp)) == Get(p.called, M(sp))
    && Get(s, S(Cr0)) == Get(p.host, S(Cr0)) && Get(s, S(Cr4)) == Get(p.host, S(Cr4)) && Get(s, S(Cr8)) == Get(p.host, S(Cr8))
  }

  lemma HoldsStill(p: Pass, s: State, s': State)
    requires StacksApart(p.called) && Get(p.called, R(Rdi)) == p.g
    requires Holds(p, s) && Untouched(p.g, s, s')
    ensures Holds(p, s')
  {
  }

  lemma SavedAtCall(p: Pass)
    requires HostSaved(p.g, p.nativeIdt, p.guestIdt, p.xstateValid, p.host, p.saved) && ByHostC(p.g, p.saved, p.called)
    requires Get(p.host, S(Idt)) == p.nativeIdt
    ensures HostKept(p.host, p.called) && Get(p.called, M(p.g + OFF_NATIVE_IDT)) == Get(p.host, S(Idt))
    ensures forall x :: x != Xstate ==> Get(p.called, S(x)) == Get(p.host, S(x))
  {
  }

  lemma HeldByKernel(p: Pass)
    requires HostKept(p.host, p.called) && StacksApart(p.called) && Get(p.called, R(Rdi)) == p.g
    requires InGuestKernel(p.called, p.inGk) && ByC(p.g, p.inGk, p.atStart)
    ensures var sp := Get(p.called, R(Rsp));
            HostKept(p.host, p.atStart) && CalleeSaved(sp, p.called, p.atStart) && Get(p.atStart, M(sp)) == Get(p.called, M(sp))
            && Get(p.atStart, M(p.g + OFF_NK_STACK)) == sp - 48
    ensures Get(p.atStart, M(p.g + OFF_NATIVE_IDT)) == Get(p.called, M(p.g + OFF_NATIVE_IDT)) && SameSystem(p.called, p.atStart)
  {
  }

  lemma StartKeepsFields(p: Pass)
    requires Started(p.g, p.flags, p.syscallEntry, p.atStart, p.started) && HostKept(p.host, p.atStart)
    ensures HostKept(p.host, p.started)
  {
  }

  /** The words below the payload's segments, and those outside the area. */
  ghost predicate LowWordsKept(p: Pass) {
    forall a :: a < p.g + OFF_GP_CS || p.g + AREA_SIZE <= a || a == p.g + OFF_NATIVE_IDT ==> Get(p.started, M(a)) == Get(p.atStart, M(a))
  }

  ghost predicate TssKept(p: Pass) {
    && Get(p.started, M(p.g + OFF_SP0)) == Get(p.atStart, S(Sp0)) && Get(p.started, M(p.g + OFF_SP1)) == Get(p.atStart, S(Sp1))
    && Get(p.started, M(p.g + OFF_SP2)) == Get(p.atStart, S(Sp2))
  }

  ghost predicate ControlKept(p: Pass) {
    && Get(p.started, S(Cr0)) == Get(p.atStart, S(Cr0)) && Get(p.started, S(Cr4)) == Get(p.atStart, S(Cr4))
    && Get(p.started, S(Cr8)) == Get(p.atStart, S(Cr8))
  }

  lemma StartKeepsWords(p: Pass)
    requires Started(p.g, p.flags, p.syscallEntry, p.atStart, p.started)
    ensures LowWordsKept(p)
  {
  }

  lemma StartKeepsTss(p: Pass)
    requires Started(p.g, p.flags, p.syscallEntry, p.atStart, p.started)
    ensures TssKept(p)
  {
  }

  lemma StartKeepsControl(p: Pass)
    requires Started(p.g, p.flags, p.syscallEntry, p.atStart, p.started)
    ensures ControlKept(p)
  {
    ControlParts(p);
  }

  lemma ControlParts(p: Pass)
    requires StartKeepsSystem(p.atStart, p.started)
    ensures ControlKept(p)
  {
  }

  lemma HeldAtStart(p: Pass, sp: int)
    requires Get(p.atStart, M(p.g + OFF_NATIVE_IDT)) == Get(p.host, S(Idt))
    requires forall x :: x != Xstate ==> Get(p.atStart, S(x)) == Get(p.host, S(x))
    requires sp == Get(p.called, R(Rsp)) && (sp + 8 <= p.g || p.g + AREA_SIZE + 48 <= sp)
    requires HostKept(p.host, p.started) && CalleeSaved(sp, p.called, p.atStart) && Get(p.atStart, M(sp)) == Get(p.called, M(sp))
    requires Get(p.atStart, M(p.g + OFF_NK_STACK)) == sp - 48
    requires LowWordsKept(p) && TssKept(p) && ControlKept(p)
    ensures Holds(p, p.started)
  {
  }

  /* ---- what each stage does ---- */

  lemma DoesSave(p: Pass)
    requires OnePass(p)
    ensures HostSaved(p.g, p.nativeIdt, p.guestIdt, p.xstateValid, p.host, p.saved) && Get(p.host, S(Idt)) == p.nativeIdt
  {
    assert StageRuns(Saving, p);
    AfterSaveHost(p.g, p.nativeIdt, p.guestIdt, p.xstateValid, p.host);
  }

  lemma DoesCall(p: Pass)
    requires OnePass(p)
    ensures ByHostC(p.g, p.saved, p.called) && Get(p.called, R(Rdi)) == p.g && StacksApart(p.called)
  {
    assert StageRuns(Calling, p);
  }

  lemma DoesSwitchToGk(p: Pass)
    requires OnePass(p)
    ensures InGuestKernel(p.called, p.inGk) && ByC(p.g, p.inGk, p.atStart)
  {
    assert StageRuns(ToGuestKernel, p) && StageRuns(InGuestStack, p);
    DoesCall(p);
    AfterSwitchToGk(p.unused, p.called);
  }

  lemma DoesStart(p: Pass)
    requires OnePass(p)
    ensures Started(p.g, p.flags, p.syscallEntry, p.atStart, p.started)
    ensures ByC(p.g, p.started, p.atEntry) && Get(p.atEntry, R(Rdi)) == p.g && OnGuestStack(p.atEntry, p.g)
  {
    assert StageRuns(Starting, p) && StageRuns(AtEntry, p);
    AfterStart(p.g, p.flags, p.syscallEntry, p.atStart);
  }

  lemma DoesEnter(p: Pass)
    requires OnePass(p)
    ensures PayloadEntered(p.atEntry, p.entered)
  {
    assert StageRuns(Entering, p);
    DoesStart(p);
    EntryLoadsContext(p.atEntry);
  }

  lemma ModeAtEntry(p: Pass)
    requires OnePass(p)
    ensures Get(p.atEntry, S(Sp0)) == p.g + STACK_TOP && Get(p.atEntry, M(p.g + OFF_GP_CS)) == USER_CS && Get(p.atEntry, R(Rdi)) == p.g
  {
    DoesStart(p);
  }

  lemma ModeWhenEntered(p: Pass)
    requires OnePass(p)
    ensures Get(p.entered, S(Sp0)) == Get(p.atEntry, S(Sp0)) && Get(p.entered, S(Cs)) == Get(p.atEntry, M(Get(p.atEntry, R(Rdi)) + OFF_GP_CS))
  {
    DoesEnter(p);
  }

  lemma DoesTrap(p: Pass)
    requires OnePass(p)
    ensures ByPayload(p.entered, p.atTrap) && InPayload(p.g, p.atTrap)
  {
    DoesRun(p);
    EnteredInUserMode(p);
    StillInPayload(p.g, p.entered, p.atTrap);
  }

  lemma EnteredInUserMode(p: Pass)
    requires OnePass(p)
    ensures Get(p.entered, S(Sp0)) == p.g + STACK_TOP && Get(p.entered, S(Cs)) == USER_CS
  {
    ModeAtEntry(p);
    ModeWhenEntered(p);
    UserMode(p.g, p.atEntry, p.entered);
  }

  lemma UserMode(g: int, s: State, s': State)
    requires Get(s, S(Sp0)) == g + STACK_TOP && Get(s, M(g + OFF_GP_CS)) == USER_CS && Get(s, R(Rdi)) == g
    requires Get(s', S(Sp0)) == Get(s, S(Sp0)) && Get(s', S(Cs)) == Get(s, M(Get(s, R(Rdi)) + OFF_GP_CS))
    ensures Get(s', S(Sp0)) == g + STACK_TOP && Get(s', S(Cs)) == USER_CS
  {
  }

  lemma StillInPayload(g: int, s: State, s': State)
    requires g % AREA_SIZE == 0 && Get(s, S(Sp0)) == g + STACK_TOP && Get(s, S(Cs)) == USER_CS && ByPayload(s, s')
    ensures InPayload(g, s')
  {
  }

  lemma DoesRun(p: Pass)
    requires OnePass(p)
    ensures ByPayload(p.entered, p.atTrap)
  {
    assert StageRuns(Running, p);
  }

  lemma DoesArrive(p: Pass)
    requires OnePass(p)
    ensures Arrives(p.g, p.cause, p.atTrap, p.arrived)
  {
    assert StageRuns(Arriving, p);
    DoesTrap(p);
    AllArrive(p.g, p.cause, p.atTrap);
  }

  function GuestCr3(p: Pass): int { BitsCleared(Get(p.arrived, S(Cr3)), PAIR_BIT, PAIR_BIT + 1) }

  lemma ArrivesAtTrapStack(g: int, c: Cause, s: State, s': State)
    requires g % AREA_SIZE == 0 && Arrives(g, c, s, s')
    ensures AtTrapStack(g, s')
  {
  }

  lemma ExitSaves(p: Pass)
    requires OnePass(p)
    ensures ContextSaved(p.g, GuestCr3(p), p.arrived, p.exited)
  {
    assert StageRuns(Exiting, p);
    DoesArrive(p);
    ArrivesAtTrapStack(p.g, p.cause, p.atTrap, p.arrived);
    AfterIntrCommon(p.g, p.arrived);
  }

  lemma DoesExit(p: Pass)
    requires OnePass(p)
    ensures ContextSaved(p.g, GuestCr3(p), p.arrived, p.exited) && ByC(p.g, p.exited, p.atHostKernel)
  {
    assert StageRuns(InHostKernel, p);
    ExitSaves(p);
  }

  lemma DoesRestore(p: Pass)
    requires OnePass(p)
    ensures HostBack(p.g, p.atHostKernel, p.back) && Returning(p)
  {
    DoesLeave(p);
    DoesRestoreHost(p);
  }

  lemma DoesLeave(p: Pass)
    requires OnePass(p)
    ensures Returning(p)
  {
    assert StageRuns(Leaving, p);
  }

  lemma DoesRestoreHost(p: Pass)
    requires OnePass(p)
    ensures HostBack(p.g, p.atHostKernel, p.back)
  {
    assert StageRuns(Restoring, p);
    AfterHostKernel(p.g, p.atHostKernel);
  }

  ghost predicate XstateSwapped(s: State, s': State) {
    && Get(s', K(PayloadXstate)) == Get(s, S(Xstate)) && Get(s', S(Xstate)) == Get(s, K(KernelXstate))
    && forall l :: l != K(PayloadXstate) && l != S(Xstate) ==> Get(s', l) == Get(s, l)
  }

  lemma DoesSwitchToHk(p: Pass)
    requires OnePass(p)
    ensures BackOnHost(p.atReturn, p.native)
  {
    assert StageRuns(ToNative, p);
    AfterSwitchToHk(p.atReturn);
  }

  lemma DoesSwap(p: Pass)
    requires OnePass(p)
    ensures XstateSwapped(p.native, p.final)
  {
    assert StageRuns(Swapping, p);
    var a, b := Move(At(S(Xstate)), K(PayloadXstate)), Move(At(K(KernelXstate)), S(Xstate));
    ExecAppend(One(a), One(b), p.native);
    AfterOne(a, p.native);
    AfterOne(b, Exec(One(a), p.native));
  }

  /* ---- the host's state comes back ---- */

  lemma UntouchedOnTheWay(p: Pass)
    requires OnePass(p)
    ensures Untouched(p.g, p.started, p.atHostKernel) && Untouched(p.g, p.started, p.atReturn)
  {
    DoesStart(p);
    DoesEnter(p);
    DoesTrap(p);
    DoesArrive(p);
    DoesExit(p);
    DoesRestore(p);
    ByCTouchesNothing(p.g, p.started, p.atEntry);
    EntryTouchesNothing(p.g, p.atEntry, p.entered);
    PayloadTouchesNothing(p.g, p.entered, p.atTrap);
    ArrivalTouchesNothing(p.g, p.cause, p.atTrap, p.arrived);
    ExitTouchesNothing(p.g, GuestCr3(p), p.arrived, p.exited);
    ByCTouchesNothing(p.g, p.exited, p.atHostKernel);
    HostKernelTouchesNothing(p.g, p.atHostKernel, p.back);
    ByCTouchesNothing(p.g, p.back, p.atReturn);
    UntouchedThen(p.g, p.started, p.atEntry, p.entered);
    UntouchedThen(p.g, p.started, p.entered, p.atTrap);
    UntouchedThen(p.g, p.started, p.atTrap, p.arrived);
    UntouchedThen(p.g, p.started, p.arrived, p.exited);
    UntouchedThen(p.g, p.started, p.exited, p.atHostKernel);
    UntouchedThen(p.g, p.started, p.atHostKernel, p.back);
    UntouchedThen(p.g, p.started, p.back, p.atReturn);
  }

  lemma HeldWhenStarted(p: Pass)
    requires OnePass(p)
    ensures Holds(p, p.started)
  {
    DoesSave(p);
    DoesCall(p);
    DoesSwitchToGk(p);
    DoesStart(p);
    SavedAtCall(p);
    HeldByKernel(p);
    StartKeepsFields(p);
    StartKeepsWords(p);
    StartKeepsTss(p);
    StartKeepsControl(p);
    HeldAtStart(p, Get(p.called, R(Rsp)));
  }

  /** From kkm_guest_kernel_start_payload to kkm_switch_to_hk_asm. */
  lemma HeldToTheEnd(p: Pass)
    requires OnePass(p)
    ensures Holds(p, p.atHostKernel) && Holds(p, p.atReturn)
  {
    HeldWhenStarted(p);
    DoesCall(p);
    UntouchedOnTheWay(p);
    HoldsStill(p, p.started, p.atHostKernel);
    HoldsStill(p, p.started, p.atReturn);
  }

  lemma SystemRestored(p: Pass)
    requires OnePass(p) && Holds(p, p.atHostKernel)
    ensures SystemBack(p.host, p.atReturn)
    ensures Get(p.atReturn, S(Ss)) == KERNEL_DS && Get(p.atReturn, S(Xstate)) == Get(p.atHostKernel, S(Xstate))
  {
    DoesRestore(p);
  }

  lemma XstateInExit(p: Pass)
    requires OnePass(p)
    ensures Get(p.atHostKernel, S(Xstate)) == Get(p.arrived, S(Xstate))
  {
    DoesExit(p);
  }

  lemma XstateOnArrival(p: Pass)
    requires OnePass(p)
    ensures Get(p.arrived, S(Xstate)) == Get(p.atTrap, S(Xstate))
  {
    DoesArrive(p);
  }

  ghost predicate FrameBack(p: Pass, s: State) {
    && (forall r :: r in CALLEE_SAVED ==> Get(s, R(r)) == Get(p.called, R(r)))
    && Get(s, R(Rsp)) == Get(p.called, R(Rsp)) + 8
    && Get(s, S(Rip)) == Get(p.called, M(Get(p.called, R(Rsp))))
    && Get(s, S(Cr3)) == Get(p.host, S(Cr3))
  }

  lemma FrameParts(p: Pass, sp: int, s: State, s': State)
    requires sp == Get(p.called, R(Rsp)) && CalleeSaved(sp, p.called, s) && Get(s, M(sp)) == Get(p.called, M(sp))
    requires Get(s, R(Rdi)) == Get(p.host, S(Cr3)) && Get(s, R(Rsi)) == sp - 48
    requires BackOnHost(s, s')
    ensures FrameBack(p, s')
  {
  }

  /** kkm_switch_to_hk_asm finds the frame kkm_switch_to_gk_asm left. */
  lemma FrameRestored(p: Pass)
    requires OnePass(p) && Holds(p, p.atReturn)
    ensures FrameBack(p, p.native)
  {
    DoesLeave(p);
    DoesSwitchToHk(p);
    FrameParts(p, Get(p.called, R(Rsp)), p.atReturn, p.native);
  }

  lemma ReturnKeepsXstate(p: Pass)
    requires OnePass(p) && Holds(p, p.atReturn)
    ensures Get(p.native, K(KernelXstate)) == Get(p.host, S(Xstate))
  {
    DoesSwitchToHk(p);
  }

  ghost predicate SystemKept(s: State, s': State) {
    forall x :: x != Cr3 && x != Rip ==> Get(s', S(x)) == Get(s, S(x))
  }

  lemma ReturnKeepsSystem(p: Pass)
    requires OnePass(p)
    ensures SystemKept(p.atReturn, p.native)
  {
    DoesSwitchToHk(p);
  }

  ghost predicate SystemBack(h: State, s: State) {
    forall x: Sys :: x.Cr0? || x.Cr4? || x.Cr8? || x.Lstar? || x.FsBase? || x.GsBase? || x.KernelGsBase?
      || x.Ds? || x.Es? || x.Fs? || x.Gs? || x.Idt? || x.Sp0? || x.Sp1? || x.Sp2?
      ==> Get(s, S(x)) == Get(h, S(x))
  }

  lemma SystemToFinal(p: Pass)
    requires SystemBack(p.host, p.atReturn) && XstateSwapped(p.native, p.final)
    requires SystemKept(p.atReturn, p.native)
    ensures SystemBack(p.host, p.final) && Get(p.final, S(Ss)) == Get(p.atReturn, S(Ss))
  {
    SwapKeepsSystem(p);
    SystemBackAgain(p.host, p.atReturn, p.native, p.final);
  }

  ghost predicate SystemButXstate(s: State, s': State) {
    forall x :: x != Xstate ==> Get(s', S(x)) == Get(s, S(x))
  }

  lemma SwapKeepsSystem(p: Pass)
    requires XstateSwapped(p.native, p.final)
    ensures SystemButXstate(p.native, p.final)
  {
  }

  lemma SystemBackAgain(h: State, s: State, s1: State, s2: State)
    requires SystemBack(h, s) && SystemKept(s, s1) && SystemButXstate(s1, s2)
    ensures SystemBack(h, s2) && Get(s2, S(Ss)) == Get(s, S(Ss))
  {
  }

  lemma FrameToFinal(p: Pass)
    requires FrameBack(p, p.native) && XstateSwapped(p.native, p.final)
    ensures FrameBack(p, p.final)
  {
  }

  ghost predicate XstateBack(p: Pass) {
    Get(p.final, S(Xstate)) == Get(p.host, S(Xstate)) && Get(p.final, K(PayloadXstate)) == Get(p.atTrap, S(Xstate))
  }

  lemma XstateRestored(p: Pass)
    requires OnePass(p) && Holds(p, p.atHostKernel) && Holds(p, p.atReturn)
    ensures XstateBack(p)
  {
    XstateInExit(p);
    XstateOnArrival(p);
    SystemRestored(p);
    ReturnKeepsXstate(p);
    ReturnKeepsSystem(p);
    DoesSwap(p);
  }

  lemma SystemIsRestored(p: Pass)
    requires OnePass(p) && Holds(p, p.atHostKernel) && Holds(p, p.atReturn)
    ensures SystemBack(p.host, p.final) && Get(p.final, S(Ss)) == KERNEL_DS
  {
    SystemRestored(p);
    ReturnKeepsSystem(p);
    DoesSwap(p);
    SystemToFinal(p);
  }

  lemma FrameIsRestored(p: Pass)
    requires OnePass(p) && Holds(p, p.atReturn)
    ensures FrameBack(p, p.final)
  {
    FrameRestored(p);
    DoesSwap(p);
    FrameToFinal(p);
  }

  /** Whatever the payload does, one pass gives the host back its address space, entry points, segments,
      stacks, extended state, callee-saved registers and return address. */
  lemma HostRestored(p: Pass)
    requires OnePass(p)
    ensures SystemBack(p.host, p.final) && Get(p.final, S(Ss)) == KERNEL_DS
    ensures FrameBack(p, p.final)
    ensures XstateBack(p)
  {
    HeldToTheEnd(p);
    SystemIsRestored(p);
    FrameIsRestored(p);
    XstateRestored(p);
  }

  /* ---- the payload's context goes in and comes out ---- */

  /** A word of the area that the monitor sets and the way in leaves alone. */
  predicate FromMonitor(g: int, a: int) {
    a == g + OFF_GP_CR3 || g + 128 <= a < g + OFF_RFLAGS || g + OFF_RFLAGS + 8 <= a < g + OFF_TI_ERROR
  }

  ghost predicate SameContext(g: int, s: State, s': State) {
    forall a :: FromMonitor(g, a) ==> Get(s', M(a)) == Get(s, M(a))
  }

  lemma ContextWhenSaved(g: int, nativeIdt: int, guestIdt: int, valid: bool, s: State, s': State)
    requires HostSaved(g, nativeIdt, guestIdt, valid, s, s')
    ensures SameContext(g, s, s')
  {
  }

  lemma ContextByHostC(g: int, s: State, s': State)
    requires ByHostC(g, s, s')
    ensures SameContext(g, s, s')
  {
  }

  lemma ContextThen(g: int, s: State, s1: State, s2: State)
    requires SameContext(g, s, s1) && SameContext(g, s1, s2)
    ensures SameContext(g, s, s2)
  {
  }

  lemma ContextWhenCalled(p: Pass)
    requires OnePass(p)
    ensures SameContext(p.g, p.host, p.called)
  {
    DoesSave(p);
    DoesCall(p);
    ContextWhenSaved(p.g, p.nativeIdt, p.guestIdt, p.xstateValid, p.host, p.saved);
    ContextByHostC(p.g, p.saved, p.called);
    ContextThen(p.g, p.host, p.saved, p.called);
  }

  lemma ContextAtStart(p: Pass)
    requires OnePass(p)
    ensures SameContext(p.g, p.called, p.atStart)
  {
    DoesCall(p);
    DoesSwitchToGk(p);
  }

  lemma ContextAtEntry(p: Pass)
    requires OnePass(p)
    ensures SameContext(p.g, p.atStart, p.atEntry) && Get(p.atEntry, M(p.g + OFF_RFLAGS)) == p.flags
  {
    DoesStart(p);
    ContextParts(p);
  }

  lemma ContextParts(p: Pass)
    requires Started(p.g, p.flags, p.syscallEntry, p.atStart, p.started) && ByC(p.g, p.started, p.atEntry)
    ensures SameContext(p.g, p.atStart, p.atEntry) && Get(p.atEntry, M(p.g + OFF_RFLAGS)) == p.flags
  {
  }

  /** Where the payload's registers come from, before the entry code runs. */
  lemma ContextToEntry(p: Pass)
    requires OnePass(p)
    ensures SameContext(p.g, p.host, p.atEntry)
  {
    ContextWhenCalled(p);
    ContextAtStart(p);
    ContextAtEntry(p);
  }

  /** The flags the payload starts with are made of the words the monitor wrote. */
  lemma FlagsAtEntry(p: Pass)
    requires OnePass(p)
    ensures AsPromised(Get(p.host, M(p.g + OFF_RFLAGS)), Get(p.host, M(p.g + OFF_DEBUG)), Get(p.atEntry, M(p.g + OFF_RFLAGS)))
  {
    FlagWordsAtStart(p);
    ContextAtEntry(p);
    assert StageRuns(Starting, p);
    AfterStartPayload(p.g, p.syscallEntry, p.atStart);
  }

  lemma FlagWordsAtStart(p: Pass)
    requires OnePass(p)
    ensures Get(p.atStart, M(p.g + OFF_RFLAGS)) == Get(p.host, M(p.g + OFF_RFLAGS))
    ensures Get(p.atStart, M(p.g + OFF_DEBUG)) == Get(p.host, M(p.g + OFF_DEBUG))
  {
    FlagWordsWhenCalled(p);
    DoesCall(p);
    DoesSwitchToGk(p);
  }

  lemma FlagWordsWhenCalled(p: Pass)
    requires OnePass(p)
    ensures Get(p.called, M(p.g + OFF_RFLAGS)) == Get(p.host, M(p.g + OFF_RFLAGS))
    ensures Get(p.called, M(p.g + OFF_DEBUG)) == Get(p.host, M(p.g + OFF_DEBUG))
  {
    DoesSave(p);
    DoesCall(p);
  }

  ghost predicate Bases(p: Pass, s: State) {
    && Get(s, S(FsBase)) == Get(p.atStart, M(p.g + OFF_FS_BASE)) && Get(s, S(KernelGsBase)) == Get(p.atStart, M(p.g + OFF_GS_BASE))
    && Get(s, S(Lstar)) == p.syscallEntry && Get(s, S(Xstate)) == Get(p.atStart, S(Xstate))
    && Get(s, M(p.g + OFF_GP_CS)) == USER_CS && Get(s, M(p.g + OFF_GP_SS)) == USER_DS
  }

  lemma BasesParts(p: Pass)
    requires Started(p.g, p.flags, p.syscallEntry, p.atStart, p.started) && ByC(p.g, p.started, p.atEntry)
    ensures Bases(p, p.atEntry)
  {
  }

  lemma BasesAtEntry(p: Pass)
    requires OnePass(p)
    ensures Bases(p, p.atEntry)
  {
    DoesStart(p);
    BasesParts(p);
  }

  lemma XstateAtStart(p: Pass)
    requires OnePass(p)
    ensures Get(p.atStart, S(Xstate)) == if p.xstateValid then Get(p.host, K(PayloadXstate)) else Get(p.host, S(Xstate))
  {
    XstateWhenCalled(p);
    DoesSwitchToGk(p);
  }

  lemma XstateWhenCalled(p: Pass)
    requires OnePass(p)
    ensures Get(p.called, S(Xstate)) == if p.xstateValid then Get(p.host, K(PayloadXstate)) else Get(p.host, S(Xstate))
  {
    DoesSave(p);
    DoesCall(p);
  }

  /** The payload starts with what the area held when the pass began. */
  ghost predicate Given(p: Pass) {
    && (forall r :: Get(p.entered, R(r)) == Get(p.host, M(p.g + Off(r))))
    && Get(p.entered, S(Rip)) == Get(p.host, M(p.g + OFF_RIP))
    && AsPromised(Get(p.host, M(p.g + OFF_RFLAGS)), Get(p.host, M(p.g + OFF_DEBUG)), Get(p.entered, S(Rflags)))
    && Get(p.entered, S(Cs)) == USER_CS && Get(p.entered, S(Ss)) == USER_DS
    && Get(p.entered, S(Cr3)) == Get(p.host, M(p.g + OFF_GP_CR3))
    && Get(p.entered, S(FsBase)) == Get(p.host, M(p.g + OFF_FS_BASE)) && Get(p.entered, S(GsBase)) == Get(p.host, M(p.g + OFF_GS_BASE))
    && Get(p.entered, S(Xstate)) == (if p.xstateValid then Get(p.host, K(PayloadXstate)) else Get(p.host, S(Xstate)))
    && Get(p.entered, S(Lstar)) == p.syscallEntry
  }

  /** What iretq and swapgs took from the area and from the kernel's GS base. */
  ghost predicate FromArea(g: int, s: State, s': State) {
    && (forall r :: Get(s', R(r)) == Get(s, M(g + Off(r))))
    && Get(s', S(Rip)) == Get(s, M(g + OFF_RIP)) && Get(s', S(Rflags)) == Get(s, M(g + OFF_RFLAGS))
    && Get(s', S(Cs)) == Get(s, M(g + OFF_GP_CS)) && Get(s', S(Ss)) == Get(s, M(g + OFF_GP_SS))
    && Get(s', S(Cr3)) == Get(s, M(g + OFF_GP_CR3))
    && Get(s', S(GsBase)) == Get(s, S(KernelGsBase)) && Get(s', S(FsBase)) == Get(s, S(FsBase))
    && Get(s', S(Xstate)) == Get(s, S(Xstate)) && Get(s', S(Lstar)) == Get(s, S(Lstar))
  }

  lemma EnteredParts(g: int, s: State, s': State)
    requires PayloadEntered(s, s') && Get(s, R(Rdi)) == g
    ensures FromArea(g, s, s')
  {
  }

  lemma EnteredFromArea(p: Pass)
    requires OnePass(p)
    ensures FromArea(p.g, p.atEntry, p.entered)
  {
    RdiAtEntry(p);
    DoesEnter(p);
    EnteredParts(p.g, p.atEntry, p.entered);
  }

  lemma RdiAtEntry(p: Pass)
    requires OnePass(p)
    ensures Get(p.atEntry, R(Rdi)) == p.g
  {
    DoesStart(p);
  }

  lemma RegistersGiven(p: Pass)
    requires OnePass(p)
    ensures forall r :: Get(p.entered, R(r)) == Get(p.host, M(p.g + Off(r)))
  {
    EnteredFromArea(p);
    ContextToEntry(p);
    forall r ensures Get(p.entered, R(r)) == Get(p.host, M(p.g + Off(r))) {
      SlotFacts(r);
    }
  }

  lemma PayloadIsGivenItsContext(p: Pass)
    requires OnePass(p)
    ensures Given(p)
  {
    EnteredFromArea(p);
    RegistersGiven(p);
    ContextToEntry(p);
    ContextWhenCalled(p);
    ContextAtStart(p);
    FlagsAtEntry(p);
    BasesAtEntry(p);
    XstateAtStart(p);
  }

  /** The area's fields from the exit code to the end; only rip and rflags are adjusted. */
  lemma FieldsToTheEnd(p: Pass)
    requires OnePass(p)
    ensures forall a :: p.g + 128 <= a < p.g + FIELDS_END && a != p.g + OFF_RIP && a != p.g + OFF_RFLAGS ==> Get(p.final, M(a)) == Get(p.exited, M(a))
    ensures Get(p.final, M(p.g + OFF_RIP)) == Get(p.exited, M(p.g + OFF_TI_RIP))
    ensures Get(p.final, M(p.g + OFF_RFLAGS)) == Get(p.exited, M(p.g + OFF_TI_RFLAGS))
  {
    FieldsInHostKernel(p);
    FieldsRestoring(p);
    FieldsReturning(p);
  }

  lemma FieldsInHostKernel(p: Pass)
    requires OnePass(p)
    ensures forall a :: p.g + 128 <= a < p.g + FIELDS_END ==> Get(p.atHostKernel, M(a)) == Get(p.exited, M(a))
  {
    DoesExit(p);
  }

  lemma FieldsRestoring(p: Pass)
    requires OnePass(p)
    ensures forall a :: p.g + 128 <= a < p.g + FIELDS_END && a != p.g + OFF_RIP && a != p.g + OFF_RFLAGS ==> Get(p.atReturn, M(a)) == Get(p.atHostKernel, M(a))
    ensures Get(p.atReturn, M(p.g + OFF_RIP)) == Get(p.atHostKernel, M(p.g + OFF_TI_RIP))
    ensures Get(p.atReturn, M(p.g + OFF_RFLAGS)) == Get(p.atHostKernel, M(p.g + OFF_TI_RFLAGS))
  {
    DoesRestore(p);
  }

  lemma FieldsReturning(p: Pass)
    requires OnePass(p)
    ensures SameWords(p.atReturn, p.final)
  {
    DoesSwitchToHk(p);
    DoesSwap(p);
    WordsBack(p);
  }

  lemma WordsBack(p: Pass)
    requires BackOnHost(p.atReturn, p.native) && XstateSwapped(p.native, p.final)
    ensures SameWords(p.atReturn, p.final)
  {
  }

  /** The register slots of the area hold what the payload had when it trapped. */
  ghost predicate SlotsTaken(p: Pass, s: State) {
    forall r :: Get(s, M(p.g + Off(r))) == (
      if p.cause.SystemCall? && r == Rcx then Get(p.atTrap, S(Rip))
      else if p.cause.SystemCall? && r == R11 then Get(p.atTrap, S(Rflags))
      else Get(p.atTrap, R(r)))
  }

  ghost predicate TrapTaken(p: Pass, s: State) {
    var g := p.g;
    && Get(s, M(g + OFF_INTR_NO)) == InterruptNumber(p.cause) && Get(s, M(g + OFF_TI_ERROR)) == ErrorCode(p.cause)
    && Get(s, M(g + OFF_TI_RIP)) == Get(p.atTrap, S(Rip)) && Get(s, M(g + OFF_TI_RSP)) == Get(p.atTrap, R(Rsp))
    && Get(s, M(g + OFF_TI_RFLAGS)) == Get(p.atTrap, S(Rflags))
    && Get(s, M(g + OFF_TI_CS)) == FrameCs(p.cause, p.atTrap) && Get(s, M(g + OFF_TI_SS)) == FrameSs(p.cause, p.atTrap)
    && Get(s, M(g + OFF_CR2)) == Get(p.atTrap, S(Cr2))
  }

  lemma SlotParts(p: Pass)
    requires forall r :: r != Rsp && !(p.cause.SystemCall? && (r == Rcx || r == R11)) ==> Get(p.arrived, R(r)) == Get(p.atTrap, R(r))
    requires p.cause.SystemCall? ==> Get(p.arrived, R(Rcx)) == Get(p.atTrap, S(Rip)) && Get(p.arrived, R(R11)) == Get(p.atTrap, S(Rflags))
    requires forall r :: r != Rsp ==> Get(p.exited, M(p.g + Off(r))) == Get(p.arrived, R(r))
    requires Get(p.exited, M(p.g + Off(Rsp))) == Get(p.atTrap, R(Rsp))
    ensures SlotsTaken(p, p.exited)
  {
  }

  lemma SlotsAtExit(p: Pass)
    requires OnePass(p)
    ensures SlotsFrom(p)
  {
    DoesExit(p);
  }

  lemma TrapParts(p: Pass, cr3: int)
    requires Stacked(p.g, p.cause, p.atTrap, p.arrived) && Get(p.arrived, S(Cr2)) == Get(p.atTrap, S(Cr2))
    requires ContextSaved(p.g, cr3, p.arrived, p.exited)
    ensures TrapTaken(p, p.exited)
  {
  }

  lemma TrapAtExit(p: Pass)
    requires OnePass(p)
    ensures TrapTaken(p, p.exited)
  {
    DoesArrive(p);
    DoesExit(p);
    Cr2OnArrival(p);
    TrapParts(p, GuestCr3(p));
  }

  lemma Cr2OnArrival(p: Pass)
    requires Arrives(p.g, p.cause, p.atTrap, p.arrived)
    ensures Get(p.arrived, S(Cr2)) == Get(p.atTrap, S(Cr2))
  {
  }

  lemma ArrivalParts(p: Pass)
    requires Arrives(p.g, p.cause, p.atTrap, p.arrived) && SlotsFrom(p)
    ensures SlotsTaken(p, p.exited)
  {
    SlotParts(p);
  }

  ghost predicate SlotsFrom(p: Pass) {
    && (forall r :: r != Rsp ==> Get(p.exited, M(p.g + Off(r))) == Get(p.arrived, R(r)))
    && Get(p.exited, M(p.g + Off(Rsp))) == Get(p.arrived, M(p.g + STACK_TOP - 16))
  }

  lemma TakenAtExit(p: Pass)
    requires OnePass(p)
    ensures SlotsTaken(p, p.exited) && TrapTaken(p, p.exited)
  {
    DoesArrive(p);
    SlotsAtExit(p);
    ArrivalParts(p);
    TrapAtExit(p);
  }

  /** The area ends up with every register, rip, rflags and the trap's frame as the payload had them. */
  lemma ContextIsTaken(p: Pass)
    requires OnePass(p)
    ensures SlotsTaken(p, p.final) && TrapTaken(p, p.final)
    ensures Get(p.final, M(p.g + OFF_RIP)) == Get(p.atTrap, S(Rip)) && Get(p.final, M(p.g + OFF_RFLAGS)) == Get(p.atTrap, S(Rflags))
  {
    TakenAtExit(p);
    FieldsToTheEnd(p);
    SlotsStay(p);
    TrapStays(p);
  }

  lemma SlotsStay(p: Pass)
    requires SlotsTaken(p, p.exited)
    requires forall a :: p.g + 128 <= a < p.g + FIELDS_END && a != p.g + OFF_RIP && a != p.g + OFF_RFLAGS ==> Get(p.final, M(a)) == Get(p.exited, M(a))
    ensures SlotsTaken(p, p.final)
  {
    forall r ensures Get(p.final, M(p.g + Off(r))) == Get(p.exited, M(p.g + Off(r))) {
      SlotFacts(r);
    }
  }

  lemma TrapStays(p: Pass)
    requires TrapTaken(p, p.exited)
    requires forall a :: p.g + 128 <= a < p.g + FIELDS_END && a != p.g + OFF_RIP && a != p.g + OFF_RFLAGS ==> Get(p.final, M(a)) == Get(p.exited, M(a))
    ensures TrapTaken(p, p.final)
  {
  }

  /** A payload that traps before it changes anything leaves the area's registers as they were, but for
      the two that SYSCALL itself overwrites. */
  lemma RegisterRoundTrip(p: Pass)
    requires OnePass(p) && SameRegs(p.entered, p.atTrap) && Get(p.atTrap, S(Rip)) == Get(p.entered, S(Rip))
    ensures forall r :: !(p.cause.SystemCall? && (r == Rcx || r == R11)) ==> Get(p.final, M(p.g + Off(r))) == Get(p.host, M(p.g + Off(r)))
    ensures Get(p.final, M(p.g + OFF_RIP)) == Get(p.host, M(p.g + OFF_RIP))
  {
    PayloadIsGivenItsContext(p);
    ContextIsTaken(p);
  }

  /** If it leaves its flags alone too, the area's flags differ from the monitor's in the forced bits only. */
  lemma FlagsRoundTrip(p: Pass)
    requires OnePass(p) && Get(p.atTrap, S(Rflags)) == Get(p.entered, S(Rflags))
    ensures AsPromised(Get(p.host, M(p.g + OFF_RFLAGS)), Get(p.host, M(p.g + OFF_DEBUG)), Get(p.final, M(p.g + OFF_RFLAGS)))
  {
    PayloadIsGivenItsContext(p);
    ContextIsTaken(p);
  }

  /** In kkm_switch_to_host_kernel the guest kernel's tables are in use, for any pair the allocator accepts. */
  lemma ExitUsesGuestKernelTables(p: Pass, va: int, offset: int, pcid: int)
    requires OnePass(p)
    requires va % PAGE_SIZE == 0 && offset % (2 * PAGE_SIZE) == 0 && 0 <= pcid < PAGE_SIZE && PairAccepted(va)
    requires Get(p.host, M(p.g + OFF_GP_CR3)) == PayloadCr3(va - offset, pcid)
    ensures Get(p.exited, S(Cr3)) == va - offset + pcid && Get(p.exited, R(Rdi)) == p.g
  {
    PayloadIsGivenItsContext(p);
    DoesRun(p);
    Cr3OnArrival(p);
    Cr3FindsGuestKernel(va, offset, pcid);
    Cr3AtExit(p);
  }

  lemma Cr3OnArrival(p: Pass)
    requires OnePass(p)
    ensures Get(p.arrived, S(Cr3)) == Get(p.atTrap, S(Cr3))
  {
    DoesArrive(p);
  }

  lemma Cr3AtExit(p: Pass)
    requires OnePass(p)
    ensures Get(p.exited, S(Cr3)) == GuestCr3(p) && Get(p.exited, R(Rdi)) == p.g
  {
    DoesExit(p);
  }

  /* ---- the assembly programs run in place ---- */

  /** kkm_switch_to_gp_asm, run in place. */
  method EnterPayload(cpu: Processor)
    requires OnGuestStack(cpu.state, Get(cpu.state, R(Rdi)))
    modifies cpu
    ensures PayloadEntered(old(cpu.state), cpu.state)
  {
    EntryLoadsContext(cpu.state);
    cpu.ExecuteAll(SwitchToGp(FirstLoads(), LastLoads(), LastPops()));
  }

  /** kkm_intr_entry_asm_common, run in place. */
  method LeavePayload(cpu: Processor, g: int)
    requires AtTrapStack(g, cpu.state) && !(g <= REDIRECT < g + AREA_SIZE)
    modifies cpu
    ensures ContextSaved(g, BitsCleared(Get(old(cpu.state), S(Cr3)), PAIR_BIT, PAIR_BIT + 1), old(cpu.state), cpu.state)
  {
    AfterIntrCommon(g, cpu.state);
    cpu.ExecuteAll(IntrCommon(HighRegs(), LowRegs()));
  }
}
