/** kkm_switch_to_gp_asm as a program, and what it does as a whole. */
module EntryCode {
  import opened Machine
  import opened Straight
  import opened TlbFlush

  /* ---- kkm_switch_to_gp_asm ---- */

  function FirstLoads(): seq<Reg> { [R15, R14, R13, R12, R11, R10, R9, R8, Rbp] }

  function LastLoads(): seq<Reg> { [Rsi, Rdx, Rcx, Rbx, Rax] }

  function PushRspAndRdi(): seq<Instr> {
    [Mov(Mem(Rdi, Off(Rsp)), At(R(Rsi))), Push(At(R(Rsi))), Mov(Mem(Rdi, Off(Rdi)), At(R(Rsi))), Push(At(R(Rsi)))]
  }

  lemma AfterPushRspAndRdi(s: State)
    ensures Deeper(2, {Rsi}, s, Exec(PushRspAndRdi(), s))
  {
    var p := PushRspAndRdi();
    var s1 := Step(p[0], s);
    var s2 := Step(p[1], s1);
    var s3 := Step(p[2], s2);
    var s4 := Step(p[3], s3);
    assert p[1..][1..] == p[2..] && p[2..][1..] == p[3..] && p[3..][1..] == [];
    assert Exec(p, s) == Exec(p[1..], s1) == Exec(p[2..], s2) == Exec(p[3..], s3) == s4;
    MovEffect(Mem(Rdi, Off(Rsp)), At(R(Rsi)), s);
    PushEffect(At(R(Rsi)), s1);
    MovEffect(Mem(Rdi, Off(Rdi)), At(R(Rsi)), s2);
    PushEffect(At(R(Rsi)), s3);
  }

  /** All registers but rsp and rdi hold their saved values. */
  ghost predicate ContextLoaded(s: State, s': State) {
    var g, sp := Get(s, R(Rdi)), Get(s, R(Rsp));
    && SameSystem(s, s')
    && Get(s', R(Rdi)) == g
    && (forall r :: r != Rsp && r != Rdi ==> Get(s', R(r)) == Get(s, M(g + Off(r))))
    && (forall a :: !(sp - 64 <= a < sp) ==> Get(s', M(a)) == Get(s, M(a)))
  }

  /** Everything up to the switch to the iret stack: pushes, and loads in two lists. */
  function LoadContext(saved: seq<Reg>, first: seq<Reg>, last: seq<Reg>): seq<Instr> {
    Pushes(Regs(saved)) + Loads(first) + PushRspAndRdi() + Loads(last)
  }

  ghost predicate Covering(saved: seq<Reg>, first: seq<Reg>, last: seq<Reg>) {
    && |saved| == 6 && Rsp !in saved
    && Rdi !in first && Rsp !in first && Rdi !in last && Rsp !in last && Rsi in last
    && forall r :: r == Rsp || r == Rdi || r in first || r in last
  }

  lemma TheListsCover()
    ensures Covering(CALLEE_SAVED, FirstLoads(), LastLoads())
  {
  }

  lemma LoadContextParts(first: seq<Reg>, last: seq<Reg>, s: State, s1: State, s2: State, s3: State, s4: State)
    requires Get(s, R(Rsp)) - 64 >= Get(s, R(Rdi)) + STACK_BOTTOM
    requires Covering(CALLEE_SAVED, first, last)
    requires Deeper(6, {}, s, s1) && Loaded(first, s1, s2) && Deeper(2, {Rsi}, s2, s3) && Loaded(last, s3, s4)
    ensures ContextLoaded(s, s4)
  {
    LoadContextWords(first, last, s, s1, s2, s3, s4);
    FirstLoadsDone(first, s, s1, s2);
    LastLoadsDone(last, s, s3, s4);
  }

  /** The pushes leave the area's fields alone, and nothing else writes memory. */
  lemma LoadContextWords(first: seq<Reg>, last: seq<Reg>, s: State, s1: State, s2: State, s3: State, s4: State)
    requires Rdi !in first && Rsp !in first && Rdi !in last
    requires Deeper(6, {}, s, s1) && Loaded(first, s1, s2) && Deeper(2, {Rsi}, s2, s3) && Loaded(last, s3, s4)
    ensures var sp := Get(s, R(Rsp));
            && Get(s3, R(Rdi)) == Get(s4, R(Rdi)) == Get(s, R(Rdi)) && SameSystem(s, s4)
            && (forall a :: !(sp - 64 <= a < sp) ==> Get(s3, M(a)) == Get(s, M(a)) && Get(s4, M(a)) == Get(s, M(a)))
  {
    assert Get(s2, R(Rdi)) == Get(s, R(Rdi)) && Get(s2, R(Rsp)) == Get(s, R(Rsp)) - 48;
  }

  lemma LastLoadsDone(last: seq<Reg>, s: State, s3: State, s4: State)
    requires var sp := Get(s, R(Rsp));
             sp - 64 >= Get(s, R(Rdi)) + STACK_BOTTOM && forall a :: !(sp - 64 <= a < sp) ==> Get(s3, M(a)) == Get(s, M(a))
    requires Loaded(last, s3, s4) && Get(s3, R(Rdi)) == Get(s, R(Rdi))
    ensures forall r :: r in last ==> Get(s4, R(r)) == Get(s, M(Get(s, R(Rdi)) + Off(r)))
  {
    forall r ensures Get(s3, M(Get(s, R(Rdi)) + Off(r))) == Get(s, M(Get(s, R(Rdi)) + Off(r))) {
      SlotFacts(r);
    }
  }

  lemma FirstLoadsDone(first: seq<Reg>, s: State, s1: State, s2: State)
    requires Get(s, R(Rsp)) - 64 >= Get(s, R(Rdi)) + STACK_BOTTOM && Rdi !in first && Rsp !in first
    requires Deeper(6, {}, s, s1) && Loaded(first, s1, s2)
    ensures forall r :: r in first ==> Get(s2, R(r)) == Get(s, M(Get(s, R(Rdi)) + Off(r)))
  {
    var g := Get(s, R(Rdi));
    forall r ensures Get(s1, M(g + Off(r))) == Get(s, M(g + Off(r))) {
      SlotFacts(r);
    }
  }

  lemma AfterLoadContext(saved: seq<Reg>, first: seq<Reg>, last: seq<Reg>, s: State)
    requires Get(s, R(Rsp)) - 64 >= Get(s, R(Rdi)) + STACK_BOTTOM
    requires Covering(saved, first, last)
    ensures ContextLoaded(s, Exec(LoadContext(saved, first, last), s))
  {
    var p1, p2, p3, p4 := Pushes(Regs(saved)), Loads(first), PushRspAndRdi(), Loads(last);
    var s1 := Exec(p1, s);
    var s2 := Exec(p2, s1);
    var s3 := Exec(p3, s2);
    forall o | o in Regs(saved) ensures Steady(s, o, 6) {
      var i :| 0 <= i < 6 && o == Regs(saved)[i];
      assert saved[i] in saved;
    }
    AfterPushes(Regs(saved), s);
    AfterLoads(first, s1);
    AfterPushRspAndRdi(s2);
    AfterLoads(last, s3);
    ExecFour(p1, p2, p3, p4, s);
    TheListsCover();
    LoadContextParts(first, last, s, s1, s2, s3, Exec(p4, s3));
  }

  lemma AfterOwnLoadContext(s: State)
    requires Get(s, R(Rsp)) - 64 >= Get(s, R(Rdi)) + STACK_BOTTOM
    ensures ContextLoaded(s, Exec(LoadContext(CALLEE_SAVED, FirstLoads(), LastLoads()), s))
  {
    TheListsCover();
    AfterLoadContext(CALLEE_SAVED, FirstLoads(), LastLoads(), s);
  }

  function ToIretStack(): seq<Instr> {
    [Mov(At(R(Rsp)), At(R(Rbx))), Mov(At(R(Rdi)), At(R(Rax))), Add(Rax, ENTRY_STACK_TOP), Mov(At(R(Rax)), At(R(Rsp)))]
  }

  lemma AfterToIretStack(s: State)
    ensures OnlyRegs({Rbx, Rax, Rsp}, s, Exec(ToIretStack(), s))
    ensures Get(Exec(ToIretStack(), s), R(Rsp)) == Get(s, R(Rdi)) + ENTRY_STACK_TOP
  {
    var i1, i2, i3, i4 := Mov(At(R(Rsp)), At(R(Rbx))), Mov(At(R(Rdi)), At(R(Rax))), Add(Rax, ENTRY_STACK_TOP), Mov(At(R(Rax)), At(R(Rsp)));
    var s1 := Step(i1, s);
    var s2 := Step(i2, s1);
    var s3 := Step(i3, s2);
    ExecFour([i1], [i2], [i3], [i4], s);
    MovEffect(At(R(Rsp)), At(R(Rbx)), s);
    MovEffect(At(R(Rdi)), At(R(Rax)), s1);
    MovEffect(At(R(Rax)), At(R(Rsp)), s3);
  }

  /** ss, rsp, rflags, cs, rip for iretq, and the three registers still in use. */
  function IretFrame(): seq<Operand> {
    [Mem(Rdi, OFF_GP_SS), Mem(Rdi, Off(Rsp)), Mem(Rdi, OFF_RFLAGS), Mem(Rdi, OFF_GP_CS), Mem(Rdi, OFF_RIP),
     Mem(Rdi, Off(Rdi)), Mem(Rdi, Off(Rax)), Mem(Rdi, Off(Rbx))]
  }

  /** A system register written by way of a scratch register. */
  function MoveVia(o: Operand, r: Reg, x: Sys): seq<Instr> {
    [Mov(o, At(R(r)))] + [Mov(At(R(r)), At(S(x)))]
  }

  ghost predicate Written(r: Reg, x: Sys, v: int, s: State, s': State) {
    && SameWords(s, s')
    && (forall q :: q != r ==> Get(s', R(q)) == Get(s, R(q)))
    && (forall y :: Get(s', S(y)) == if y == x then v else Get(s, S(y)))
    && (forall f :: Get(s', K(f)) == Get(s, K(f)))
  }

  lemma AfterMoveVia(o: Operand, r: Reg, x: Sys, s: State)
    ensures Written(r, x, Value(s, o), s, Exec(MoveVia(o, r, x), s))
  {
    var i, j := Mov(o, At(R(r))), Mov(At(R(r)), At(S(x)));
    ExecOne(i, [j], s);
    MovEffect(o, At(R(r)), s);
    MovEffect(At(R(r)), At(S(x)), Step(i, s));
  }

  function LoadCr3(): seq<Instr> {
    MoveVia(Imm(0), Rax, Cr2) + MoveVia(Mem(Rdi, OFF_GP_CR3), Rax, Cr3) + FlushUnlessTagged(Rax, FlushTlb(Rax, Rbx))
  }

  ghost predicate Cr3Loaded(s: State, s': State) {
    && SameWords(s, s')
    && (forall r :: r != Rax && r != Rbx ==> Get(s', R(r)) == Get(s, R(r)))
    && (forall x :: Get(s', S(x)) == if x == Cr2 then 0 else if x == Cr3 then Get(s, M(Get(s, R(Rdi)) + OFF_GP_CR3)) else Get(s, S(x)))
    && (forall f :: Get(s', K(f)) == Get(s, K(f)))
  }

  lemma Cr3Parts(s: State, s1: State, s2: State, s3: State)
    requires Written(Rax, Cr2, 0, s, s1) && OnlyRegs({Rax, Rbx}, s2, s3)
    requires Written(Rax, Cr3, Get(s1, M(Get(s1, R(Rdi)) + OFF_GP_CR3)), s1, s2)
    ensures Cr3Loaded(s, s3)
  {
  }

  lemma AfterCr3Programs(p: seq<Instr>, q: seq<Instr>, t: seq<Instr>, s: State)
    requires Written(Rax, Cr2, 0, s, Exec(p, s))
    requires forall u :: Written(Rax, Cr3, Get(u, M(Get(u, R(Rdi)) + OFF_GP_CR3)), u, Exec(q, u))
    requires forall u :: OnlyRegs({Rax, Rbx}, u, Exec(t, u))
    ensures Cr3Loaded(s, Exec(p + q + t, s))
  {
    ExecThree(p, q, t, s);
    Cr3Parts(s, Exec(p, s), Exec(q, Exec(p, s)), Exec(t, Exec(q, Exec(p, s))));
  }

  lemma AfterLoadCr3(s: State)
    ensures Cr3Loaded(s, Exec(LoadCr3(), s))
  {
    AfterMoveVia(Imm(0), Rax, Cr2, s);
    forall u ensures Written(Rax, Cr3, Get(u, M(Get(u, R(Rdi)) + OFF_GP_CR3)), u, Exec(MoveVia(Mem(Rdi, OFF_GP_CR3), Rax, Cr3), u)) {
      AfterMoveVia(Mem(Rdi, OFF_GP_CR3), Rax, Cr3, u);
    }
    forall u ensures OnlyRegs({Rax, Rbx}, u, Exec(FlushUnlessTagged(Rax, FlushTlb(Rax, Rbx)), u)) {
      AfterCheckedFlush(Rax, Rbx, u);
    }
    AfterCr3Programs(MoveVia(Imm(0), Rax, Cr2), MoveVia(Mem(Rdi, OFF_GP_CR3), Rax, Cr3), FlushUnlessTagged(Rax, FlushTlb(Rax, Rbx)), s);
  }

  /** What iretq and the pops before it find on the iret stack. */
  ghost predicate FrameReady(s: State, s': State) {
    var g := Get(s, R(Rdi));
    var top := g + ENTRY_STACK_TOP;
    && Get(s', R(Rsp)) == top - 64
    && Get(s', M(top - 8)) == Get(s, M(g + OFF_GP_SS))
    && Get(s', M(top - 16)) == Get(s, M(g + Off(Rsp)))
    && Get(s', M(top - 24)) == Get(s, M(g + OFF_RFLAGS))
    && Get(s', M(top - 32)) == Get(s, M(g + OFF_GP_CS))
    && Get(s', M(top - 40)) == Get(s, M(g + OFF_RIP))
    && Get(s', M(top - 48)) == Get(s, M(g + Off(Rdi)))
    && Get(s', M(top - 56)) == Get(s, M(g + Off(Rax)))
    && Get(s', M(top - 64)) == Get(s, M(g + Off(Rbx)))
  }

  lemma AfterFramePushes(os: seq<Operand>, s: State)
    requires os == IretFrame() && Get(s, R(Rsp)) == Get(s, R(Rdi)) + ENTRY_STACK_TOP
    requires forall o :: o in os ==> Steady(s, o, |os|)
    ensures var s' := Exec(Pushes(os), s); FrameReady(s, s') && Deeper(8, {}, s, s')
  {
    AfterPushes(os, s);
    FramePushed(Values(s, os), s, Exec(Pushes(os), s));
  }

  lemma FramePushed(vs: seq<int>, s: State, s': State)
    requires Pushed(vs, s, s') && |vs| == 8 && Get(s, R(Rsp)) == Get(s, R(Rdi)) + ENTRY_STACK_TOP
    requires var g := Get(s, R(Rdi));
      && vs[0] == Get(s, M(g + OFF_GP_SS)) && vs[1] == Get(s, M(g + Off(Rsp))) && vs[2] == Get(s, M(g + OFF_RFLAGS))
      && vs[3] == Get(s, M(g + OFF_GP_CS)) && vs[4] == Get(s, M(g + OFF_RIP)) && vs[5] == Get(s, M(g + Off(Rdi)))
      && vs[6] == Get(s, M(g + Off(Rax))) && vs[7] == Get(s, M(g + Off(Rbx)))
    ensures FrameReady(s, s') && Deeper(8, {}, s, s')
  {
  }

  lemma AfterIretFrame(s: State)
    requires Get(s, R(Rsp)) == Get(s, R(Rdi)) + ENTRY_STACK_TOP
    ensures var s' := Exec(Pushes(IretFrame()), s); FrameReady(s, s') && Deeper(8, {}, s, s')
  {
    AfterFramePushes(IretFrame(), s);
  }

  function LastPops(): seq<Reg> { [Rbx, Rax, Rdi] }

  /** The last registers, the payload's GS base, and away. */
  function EnterPayload(popped: seq<Reg>): seq<Instr> {
    Pops(popped) + [SwapGs] + [Iretq]
  }

  /** Only rip, rflags, cs, ss and the two GS bases are new among the system registers. */
  ghost predicate Returned(sp: int, s: State, s': State) {
    && Get(s', S(Rip)) == Get(s, M(sp)) && Get(s', S(Cs)) == Get(s, M(sp + 8)) && Get(s', S(Rflags)) == Get(s, M(sp + 16))
    && Get(s', R(Rsp)) == Get(s, M(sp + 24)) && Get(s', S(Ss)) == Get(s, M(sp + 32))
    && Get(s', S(GsBase)) == Get(s, S(KernelGsBase)) && Get(s', S(KernelGsBase)) == Get(s, S(GsBase))
    && (forall x: Sys :: !(x.Rip? || x.Cs? || x.Rflags? || x.Ss? || x.GsBase? || x.KernelGsBase?) ==> Get(s', S(x)) == Get(s, S(x)))
    && (forall f :: Get(s', K(f)) == Get(s, K(f)))
    && SameWords(s, s')
  }

  lemma ReturnedBy(s: State, s1: State, s2: State)
    requires GsSwapped(s, s1) && IretqDone(s1, s2)
    ensures Returned(Get(s, R(Rsp)), s, s2)
    ensures forall r :: r != Rsp ==> Get(s2, R(r)) == Get(s, R(r))
  {
    forall l: Loc | !l.S? && l != R(Rsp) ensures Get(s2, l) == Get(s, l) {
      assert Get(s1, l) == Get(s, l);
    }
  }

  lemma AfterSwapGsIretq(s: State)
    ensures var s' := Step(Iretq, Step(SwapGs, s));
            Returned(Get(s, R(Rsp)), s, s') && forall r :: r != Rsp ==> Get(s', R(r)) == Get(s, R(r))
  {
    SwapGsEffect(s);
    IretqEffect(Step(SwapGs, s));
    ReturnedBy(s, Step(SwapGs, s), Step(Iretq, Step(SwapGs, s)));
  }

  /** The three pops and the return, from s to s'. */
  ghost predicate PoppedAndReturned(s: State, s': State) {
    var sp := Get(s, R(Rsp));
    && Returned(sp + 24, s, s')
    && Get(s', R(Rbx)) == Get(s, M(sp)) && Get(s', R(Rax)) == Get(s, M(sp + 8)) && Get(s', R(Rdi)) == Get(s, M(sp + 16))
    && forall r: Reg :: !(r.Rsp? || r.Rbx? || r.Rax? || r.Rdi?) ==> Get(s', R(r)) == Get(s, R(r))
  }

  lemma AfterEnterPrograms(p: seq<Instr>, q: seq<Instr>, t: seq<Instr>, s: State)
    requires forall u :: Exec(t, Exec(q, u)) == Step(Iretq, Step(SwapGs, u))
    requires var s', sp := Exec(p, s), Get(s, R(Rsp));
            && OnlyRegs({Rsp, Rbx, Rax, Rdi}, s, s') && Get(s', R(Rsp)) == sp + 24
            && Get(s', R(Rbx)) == Get(s, M(sp)) && Get(s', R(Rax)) == Get(s, M(sp + 8)) && Get(s', R(Rdi)) == Get(s, M(sp + 16))
    ensures PoppedAndReturned(s, Exec(p + q + t, s))
  {
    ExecThree(p, q, t, s);
    AfterSwapGsIretq(Exec(p, s));
  }

  lemma AfterEnterPayload(s: State)
    ensures PoppedAndReturned(s, Exec(EnterPayload(LastPops()), s))
  {
    AfterThreePops(LastPops(), s);
    AfterEnterPrograms(Pops(LastPops()), [SwapGs], [Iretq], s);
  }

  lemma AfterThreePops(rs: seq<Reg>, s: State)
    requires |rs| == 3 && Rsp !in rs && Distinct(rs)
    ensures var s', sp := Exec(Pops(rs), s), Get(s, R(Rsp));
            && OnlyRegs({Rsp, rs[0], rs[1], rs[2]}, s, s') && Get(s', R(Rsp)) == sp + 24
            && Get(s', R(rs[0])) == Get(s, M(sp)) && Get(s', R(rs[1])) == Get(s, M(sp + 8)) && Get(s', R(rs[2])) == Get(s, M(sp + 16))
  {
    AfterPops(rs, s);
    assert rs[1] == rs[1..][0] && rs[2] == rs[1..][1] == rs[1..][1..][0];
  }

  /** The programs of this family are given the registers they load and restore in lists. */
  function SwitchToGp(first: seq<Reg>, last: seq<Reg>, popped: seq<Reg>): seq<Instr> {
    LoadContext(CALLEE_SAVED, first, last) + ToIretStack() + Pushes(IretFrame()) + LoadCr3() + EnterPayload(popped)
  }

  /** All of kkm_switch_to_gp_asm: registers, rip, rflags and cr3 as the guest area says, and no word
      written but eight below rsp and eight on the iret stack. */
  ghost predicate PayloadEntered(s: State, s': State) {
    var g, sp := Get(s, R(Rdi)), Get(s, R(Rsp));
    && (forall r :: Get(s', R(r)) == Get(s, M(g + Off(r))))
    && Get(s', S(Rip)) == Get(s, M(g + OFF_RIP)) && Get(s', S(Rflags)) == Get(s, M(g + OFF_RFLAGS))
    && Get(s', S(Cs)) == Get(s, M(g + OFF_GP_CS)) && Get(s', S(Ss)) == Get(s, M(g + OFF_GP_SS))
    && Get(s', S(Cr3)) == Get(s, M(g + OFF_GP_CR3)) && Get(s', S(Cr2)) == 0
    && Get(s', S(GsBase)) == Get(s, S(KernelGsBase)) && Get(s', S(KernelGsBase)) == Get(s, S(GsBase))
    && (forall x: Sys :: !(x.Rip? || x.Cs? || x.Rflags? || x.Ss? || x.Cr2? || x.Cr3? || x.GsBase? || x.KernelGsBase?) ==> Get(s', S(x)) == Get(s, S(x)))
    && (forall f :: Get(s', K(f)) == Get(s, K(f)))
    && (forall a :: !(sp - 64 <= a < sp) && !(g + ENTRY_STACK_TOP - 64 <= a < g + ENTRY_STACK_TOP) ==> Get(s', M(a)) == Get(s, M(a)))
  }

  /** Room for the entry code's pushes on the guest stack. */
  predicate OnGuestStack(s: State, g: int) {
    g + STACK_BOTTOM + 64 <= Get(s, R(Rsp)) <= g + STACK_TOP
  }

  /** On the iret stack, with everything but rsp, rdi, rax and rbx loaded. */
  ghost predicate OnIretStack(s: State, s': State) {
    var g, sp := Get(s, R(Rdi)), Get(s, R(Rsp));
    && SameSystem(s, s') && FrameReady(s, s') && Get(s', R(Rdi)) == g
    && (forall r: Reg :: !(r.Rsp? || r.Rbx? || r.Rax? || r.Rdi?) ==> Get(s', R(r)) == Get(s, M(g + Off(r))))
    && (forall a :: !(sp - 64 <= a < sp) && !(g + ENTRY_STACK_TOP - 64 <= a < g + ENTRY_STACK_TOP) ==> Get(s', M(a)) == Get(s, M(a)))
  }

  lemma EntryFirstHalf(s: State, s1: State, s2: State, s3: State)
    requires var g := Get(s, R(Rdi)); OnGuestStack(s, g) && Get(s2, R(Rsp)) == g + ENTRY_STACK_TOP
    requires ContextLoaded(s, s1) && OnlyRegs({Rbx, Rax, Rsp}, s1, s2)
    requires FrameReady(s2, s3) && Deeper(8, {}, s2, s3)
    ensures OnIretStack(s, s3)
  {
  }

  lemma EntrySecondHalf(s: State, s3: State, s4: State, s5: State)
    requires OnGuestStack(s, Get(s, R(Rdi))) && OnIretStack(s, s3) && Cr3Loaded(s3, s4) && PoppedAndReturned(s4, s5)
    ensures PayloadEntered(s, s5)
  {
    RegistersEntered(s, s3, s4, s5);
  }

  lemma RegistersEntered(s: State, s3: State, s4: State, s5: State)
    requires OnGuestStack(s, Get(s, R(Rdi))) && OnIretStack(s, s3) && Cr3Loaded(s3, s4) && PoppedAndReturned(s4, s5)
    ensures forall r :: Get(s5, R(r)) == Get(s, M(Get(s, R(Rdi)) + Off(r)))
  {
    assert Get(s4, R(Rsp)) == Get(s3, R(Rsp));
  }

  /** What ToIretStack and the pushes of the frame do, in any state. */
  ghost predicate ToIret(s: State, s': State) {
    OnlyRegs({Rbx, Rax, Rsp}, s, s') && Get(s', R(Rsp)) == Get(s, R(Rdi)) + ENTRY_STACK_TOP
  }

  ghost predicate FramePushedOn(s: State, s': State) {
    Get(s, R(Rsp)) == Get(s, R(Rdi)) + ENTRY_STACK_TOP ==> FrameReady(s, s') && Deeper(8, {}, s, s')
  }

  lemma ToIretAnywhere(s: State)
    ensures ToIret(s, Exec(ToIretStack(), s))
  {
    AfterToIretStack(s);
  }

  lemma FrameAnywhere(s: State)
    ensures FramePushedOn(s, Exec(Pushes(IretFrame()), s))
  {
    if Get(s, R(Rsp)) == Get(s, R(Rdi)) + ENTRY_STACK_TOP { AfterIretFrame(s); }
  }

  lemma FirstHalfParts(s: State, s1: State, s2: State, s3: State)
    requires OnGuestStack(s, Get(s, R(Rdi))) && ContextLoaded(s, s1) && ToIret(s1, s2) && FramePushedOn(s2, s3)
    ensures OnIretStack(s, s3)
  {
    EntryFirstHalf(s, s1, s2, s3);
  }

  lemma AfterFirstPrograms(s: State)
    requires OnGuestStack(s, Get(s, R(Rdi)))
    ensures OnIretStack(s, Exec(LoadContext(CALLEE_SAVED, FirstLoads(), LastLoads()) + ToIretStack() + Pushes(IretFrame()), s))
  {
    AfterOwnLoadContext(s);
    FirstPrograms(LoadContext(CALLEE_SAVED, FirstLoads(), LastLoads()), s);
  }

  lemma FirstPrograms(p: seq<Instr>, s: State)
    requires OnGuestStack(s, Get(s, R(Rdi))) && ContextLoaded(s, Exec(p, s))
    ensures OnIretStack(s, Exec(p + ToIretStack() + Pushes(IretFrame()), s))
  {
    var s1 := Exec(p, s);
    var s2 := Exec(ToIretStack(), s1);
    ExecThree(p, ToIretStack(), Pushes(IretFrame()), s);
    ToIretAnywhere(s1);
    FrameAnywhere(s2);
    FirstHalfParts(s, s1, s2, Exec(Pushes(IretFrame()), s2));
  }

  lemma LastPrograms(p: seq<Instr>, q: seq<Instr>, t: seq<Instr>, s: State)
    requires OnGuestStack(s, Get(s, R(Rdi))) && OnIretStack(s, Exec(p, s))
    requires forall x :: Cr3Loaded(x, Exec(q, x))
    requires forall x :: PoppedAndReturned(x, Exec(t, x))
    ensures PayloadEntered(s, Exec(p + q + t, s))
  {
    ExecThree(p, q, t, s);
    var s1 := Exec(p, s);
    var s2 := Exec(q, s1);
    EntrySecondHalf(s, s1, s2, Exec(t, s2));
  }

  /** Entry loads exactly the context the monitor left in the guest area. */
  lemma EntryLoadsContext(s: State)
    requires OnGuestStack(s, Get(s, R(Rdi)))
    ensures PayloadEntered(s, Exec(SwitchToGp(FirstLoads(), LastLoads(), LastPops()), s))
  {
    AfterFirstPrograms(s);
    forall x ensures Cr3Loaded(x, Exec(LoadCr3(), x)) {
      AfterLoadCr3(x);
    }
    forall x ensures PoppedAndReturned(x, Exec(EnterPayload(LastPops()), x)) {
      AfterEnterPayload(x);
    }
    LastPrograms(LoadContext(CALLEE_SAVED, FirstLoads(), LastLoads()) + ToIretStack() + Pushes(IretFrame()), LoadCr3(), EnterPayload(LastPops()), s);
  }
}
