/** The C code on the way to the payload, as moves between registers, struct kkm_kontext and the
    guest area at g. */
module CHalves {
  import opened Machine
  import opened Straight
  import opened TlbFlush
  import opened Flags

  datatype Move = Move(src: Operand, dst: Loc)

  predicate Absolute(o: Operand) { !o.Mem? }

  function Four(a: Move, b: Move, c: Move, d: Move): seq<Instr> {
    [Mov(a.src, At(a.dst))] + [Mov(b.src, At(b.dst))] + [Mov(c.src, At(c.dst))] + [Mov(d.src, At(d.dst))]
  }

  ghost predicate MovedOne(a: Move, s: State, s': State) {
    forall l :: Get(s', l) == if l == a.dst then Value(s, a.src) else Get(s, l)
  }

  /** All four sources read in s; a later move to the same place wins. */
  ghost predicate MovedFour(a: Move, b: Move, c: Move, d: Move, s: State, s': State) {
    forall l :: Get(s', l) == (
      if l == d.dst then Value(s, d.src) else if l == c.dst then Value(s, c.src)
      else if l == b.dst then Value(s, b.src) else if l == a.dst then Value(s, a.src) else Get(s, l))
  }

  lemma MovedFourParts(a: Move, b: Move, c: Move, d: Move, s: State, s1: State, s2: State, s3: State, s4: State)
    requires Absolute(a.src) && Absolute(b.src) && Absolute(c.src) && Absolute(d.src)
    requires b.src != At(a.dst) && c.src != At(a.dst) && d.src != At(a.dst)
    requires c.src != At(b.dst) && d.src != At(b.dst) && d.src != At(c.dst)
    requires MovedOne(a, s, s1) && MovedOne(b, s1, s2) && MovedOne(c, s2, s3) && MovedOne(d, s3, s4)
    ensures MovedFour(a, b, c, d, s, s4)
  {
    assert Value(s1, b.src) == Value(s, b.src);
    assert Value(s2, c.src) == Value(s, c.src);
    assert Value(s3, d.src) == Value(s, d.src);
  }

  lemma AfterFour(a: Move, b: Move, c: Move, d: Move, s: State)
    requires Absolute(a.src) && Absolute(b.src) && Absolute(c.src) && Absolute(d.src)
    requires b.src != At(a.dst) && c.src != At(a.dst) && d.src != At(a.dst)
    requires c.src != At(b.dst) && d.src != At(b.dst) && d.src != At(c.dst)
    ensures MovedFour(a, b, c, d, s, Exec(Four(a, b, c, d), s))
  {
    var i1, i2, i3, i4 := Mov(a.src, At(a.dst)), Mov(b.src, At(b.dst)), Mov(c.src, At(c.dst)), Mov(d.src, At(d.dst));
    var s1 := Step(i1, s);
    var s2 := Step(i2, s1);
    var s3 := Step(i3, s2);
    ExecFour([i1], [i2], [i3], [i4], s);
    MovEffect(a.src, At(a.dst), s);
    MovEffect(b.src, At(b.dst), s1);
    MovEffect(c.src, At(c.dst), s2);
    MovEffect(d.src, At(d.dst), s3);
    MovedFourParts(a, b, c, d, s, s1, s2, s3, Step(i4, s3));
  }

  function ToField(x: Sys, f: Field): Move { Move(At(S(x)), K(f)) }

  function ToSys(f: Field, x: Sys): Move { Move(At(K(f)), S(x)) }

  /* ---- kkm_kontext_switch_kernel, up to its call of kkm_switch_to_gk_asm ---- */

  function One(m: Move): seq<Instr> { [Mov(m.src, At(m.dst))] }

  /** The two descriptor tables come from kkm_idt_get_desc; the payload's xstate is loaded once there is one. */
  function SaveHost(g: int, nativeIdt: int, guestIdt: int, xstateValid: bool): seq<Instr> {
    SaveSegments(g, nativeIdt, guestIdt) + SaveState() + LoadXstate(xstateValid) + SaveEntryPoint(g)
  }

  function SaveSegments(g: int, nativeIdt: int, guestIdt: int): seq<Instr> {
    Four(Move(Imm(nativeIdt), M(g + OFF_NATIVE_IDT)), Move(Imm(guestIdt), M(g + OFF_GUEST_IDT)), ToField(Cr3, NativeCr3), ToField(Cr4, NativeCr4))
    + Four(Move(At(K(NativeCr4)), M(g + OFF_GUEST_CR4)), ToField(Ds, NativeDs), ToField(Es, NativeEs), ToField(Fs, NativeFs))
  }

  function SaveState(): seq<Instr> {
    Four(ToField(FsBase, NativeFsBase), ToField(Gs, NativeGs), ToField(GsBase, NativeGsBase), ToField(KernelGsBase, NativeKernelGsBase))
    + One(ToField(Ss, NativeSs)) + One(ToField(Xstate, KernelXstate))
  }

  function LoadXstate(valid: bool): seq<Instr> {
    if valid then One(ToSys(PayloadXstate, Xstate)) else []
  }

  function SaveEntryPoint(g: int): seq<Instr> {
    One(ToField(Lstar, NativeLstar)) + One(Move(Imm(-1), M(g + OFF_INTR_NO)))
  }

  /** struct kkm_kontext, in s, keeps what h had. */
  ghost predicate HostKept(h: State, s: State) {
    && Get(s, K(NativeCr3)) == Get(h, S(Cr3)) && Get(s, K(NativeDs)) == Get(h, S(Ds)) && Get(s, K(NativeEs)) == Get(h, S(Es))
    && Get(s, K(NativeFs)) == Get(h, S(Fs)) && Get(s, K(NativeFsBase)) == Get(h, S(FsBase)) && Get(s, K(NativeGs)) == Get(h, S(Gs))
    && Get(s, K(NativeGsBase)) == Get(h, S(GsBase)) && Get(s, K(NativeKernelGsBase)) == Get(h, S(KernelGsBase))
    && Get(s, K(NativeLstar)) == Get(h, S(Lstar)) && Get(s, K(KernelXstate)) == Get(h, S(Xstate))
  }

  /** The words of the area that change on the way. */
  predicate SaveWrites(g: int, a: int) {
    a == g + OFF_NATIVE_IDT || a == g + OFF_GUEST_IDT || a == g + OFF_GUEST_CR4
  }

  ghost predicate HostSaved(g: int, nativeIdt: int, guestIdt: int, xstateValid: bool, s: State, s': State) {
    && HostKept(s, s')
    && Get(s', K(NativeCr4)) == Get(s, S(Cr4)) && Get(s', K(NativeSs)) == Get(s, S(Ss))
    && Get(s', K(PayloadXstate)) == Get(s, K(PayloadXstate))
    && (forall x :: x != Xstate ==> Get(s', S(x)) == Get(s, S(x)))
    && Get(s', S(Xstate)) == Get(s, if xstateValid then K(PayloadXstate) else S(Xstate))
    && SameRegs(s, s')
    && Get(s', M(g + OFF_NATIVE_IDT)) == nativeIdt && Get(s', M(g + OFF_GUEST_IDT)) == guestIdt
    && Get(s', M(g + OFF_GUEST_CR4)) == Get(s, S(Cr4)) && Get(s', M(g + OFF_INTR_NO)) == -1
    && (forall a :: !SaveWrites(g, a) && a != g + OFF_INTR_NO ==> Get(s', M(a)) == Get(s, M(a)))
  }

  ghost predicate SegmentsSaved(g: int, nativeIdt: int, guestIdt: int, s: State, s': State) {
    && Get(s', K(NativeCr3)) == Get(s, S(Cr3)) && Get(s', K(NativeCr4)) == Get(s, S(Cr4))
    && Get(s', K(NativeDs)) == Get(s, S(Ds)) && Get(s', K(NativeEs)) == Get(s, S(Es)) && Get(s', K(NativeFs)) == Get(s, S(Fs))
    && Get(s', K(PayloadXstate)) == Get(s, K(PayloadXstate))
    && (forall x :: Get(s', S(x)) == Get(s, S(x)))
    && SameRegs(s, s')
    && Get(s', M(g + OFF_NATIVE_IDT)) == nativeIdt && Get(s', M(g + OFF_GUEST_IDT)) == guestIdt
    && Get(s', M(g + OFF_GUEST_CR4)) == Get(s, S(Cr4))
    && (forall a :: !SaveWrites(g, a) ==> Get(s', M(a)) == Get(s, M(a)))
  }

  ghost predicate FirstSaved(g: int, nativeIdt: int, guestIdt: int, s: State, s': State) {
    && Get(s', K(NativeCr3)) == Get(s, S(Cr3)) && Get(s', K(NativeCr4)) == Get(s, S(Cr4))
    && Get(s', K(PayloadXstate)) == Get(s, K(PayloadXstate))
    && (forall x :: Get(s', S(x)) == Get(s, S(x)))
    && SameRegs(s, s')
    && Get(s', M(g + OFF_NATIVE_IDT)) == nativeIdt && Get(s', M(g + OFF_GUEST_IDT)) == guestIdt
    && (forall a :: a != g + OFF_NATIVE_IDT && a != g + OFF_GUEST_IDT ==> Get(s', M(a)) == Get(s, M(a)))
  }

  lemma FirstParts(g: int, nativeIdt: int, guestIdt: int, s: State, s': State)
    requires MovedFour(Move(Imm(nativeIdt), M(g + OFF_NATIVE_IDT)), Move(Imm(guestIdt), M(g + OFF_GUEST_IDT)),
                       ToField(Cr3, NativeCr3), ToField(Cr4, NativeCr4), s, s')
    ensures FirstSaved(g, nativeIdt, guestIdt, s, s')
  {
  }

  lemma SegmentParts(g: int, nativeIdt: int, guestIdt: int, s: State, s1: State, s2: State)
    requires FirstSaved(g, nativeIdt, guestIdt, s, s1)
    requires MovedFour(Move(At(K(NativeCr4)), M(g + OFF_GUEST_CR4)), ToField(Ds, NativeDs), ToField(Es, NativeEs), ToField(Fs, NativeFs), s1, s2)
    ensures SegmentsSaved(g, nativeIdt, guestIdt, s, s2)
  {
  }

  lemma AfterSaveSegments(g: int, nativeIdt: int, guestIdt: int, s: State)
    ensures SegmentsSaved(g, nativeIdt, guestIdt, s, Exec(SaveSegments(g, nativeIdt, guestIdt), s))
  {
    var a, b, c, d := Move(Imm(nativeIdt), M(g + OFF_NATIVE_IDT)), Move(Imm(guestIdt), M(g + OFF_GUEST_IDT)), ToField(Cr3, NativeCr3), ToField(Cr4, NativeCr4);
    var e, f, h, i := Move(At(K(NativeCr4)), M(g + OFF_GUEST_CR4)), ToField(Ds, NativeDs), ToField(Es, NativeEs), ToField(Fs, NativeFs);
    ExecAppend(Four(a, b, c, d), Four(e, f, h, i), s);
    AfterFour(a, b, c, d, s);
    AfterFour(e, f, h, i, Exec(Four(a, b, c, d), s));
    FirstParts(g, nativeIdt, guestIdt, s, Exec(Four(a, b, c, d), s));
    SegmentParts(g, nativeIdt, guestIdt, s, Exec(Four(a, b, c, d), s), Exec(Four(e, f, h, i), Exec(Four(a, b, c, d), s)));
  }

  /** Only struct kkm_kontext changes. */
  ghost predicate KontextAlone(s: State, s': State) {
    (forall x :: Get(s', S(x)) == Get(s, S(x))) && SameRegs(s, s') && SameWords(s, s')
  }

  ghost predicate BasesSaved(s: State, s': State) {
    && Get(s', K(NativeFsBase)) == Get(s, S(FsBase)) && Get(s', K(NativeGs)) == Get(s, S(Gs))
    && Get(s', K(NativeGsBase)) == Get(s, S(GsBase)) && Get(s', K(NativeKernelGsBase)) == Get(s, S(KernelGsBase))
    && (forall f: Field :: !(f.NativeFsBase? || f.NativeGs? || f.NativeGsBase? || f.NativeKernelGsBase?) ==> Get(s', K(f)) == Get(s, K(f)))
    && KontextAlone(s, s')
  }

  ghost predicate StateSaved(s: State, s': State) {
    && Get(s', K(NativeFsBase)) == Get(s, S(FsBase)) && Get(s', K(NativeGs)) == Get(s, S(Gs))
    && Get(s', K(NativeGsBase)) == Get(s, S(GsBase)) && Get(s', K(NativeKernelGsBase)) == Get(s, S(KernelGsBase))
    && Get(s', K(NativeSs)) == Get(s, S(Ss)) && Get(s', K(KernelXstate)) == Get(s, S(Xstate))
    && (forall f: Field :: f.NativeCr3? || f.NativeCr4? || f.NativeDs? || f.NativeEs? || f.NativeFs? || f.PayloadXstate? ==> Get(s', K(f)) == Get(s, K(f)))
    && KontextAlone(s, s')
  }

  lemma BasesMoved(s: State, s': State)
    requires MovedFour(ToField(FsBase, NativeFsBase), ToField(Gs, NativeGs), ToField(GsBase, NativeGsBase), ToField(KernelGsBase, NativeKernelGsBase), s, s')
    ensures BasesSaved(s, s')
  {
  }

  lemma StateParts(s: State, s1: State, s2: State, s3: State)
    requires BasesSaved(s, s1) && MovedOne(ToField(Ss, NativeSs), s1, s2) && MovedOne(ToField(Xstate, KernelXstate), s2, s3)
    ensures StateSaved(s, s3)
  {
  }

  lemma AfterSaveState(s: State)
    ensures StateSaved(s, Exec(SaveState(), s))
  {
    var a, b, c, d := ToField(FsBase, NativeFsBase), ToField(Gs, NativeGs), ToField(GsBase, NativeGsBase), ToField(KernelGsBase, NativeKernelGsBase);
    var e, f := ToField(Ss, NativeSs), ToField(Xstate, KernelXstate);
    var s1 := Exec(Four(a, b, c, d), s);
    ExecThree(Four(a, b, c, d), One(e), One(f), s);
    AfterFour(a, b, c, d, s);
    BasesMoved(s, s1);
    AfterOne(e, s1);
    AfterOne(f, Exec(One(e), s1));
    StateParts(s, s1, Exec(One(e), s1), Exec(One(f), Exec(One(e), s1)));
  }

  ghost predicate EntryPointSaved(g: int, s: State, s': State) {
    && Get(s', K(NativeLstar)) == Get(s, S(Lstar)) && Get(s', M(g + OFF_INTR_NO)) == -1
    && (forall f :: f != NativeLstar ==> Get(s', K(f)) == Get(s, K(f)))
    && (forall x :: Get(s', S(x)) == Get(s, S(x)))
    && SameRegs(s, s')
    && (forall a :: a != g + OFF_INTR_NO ==> Get(s', M(a)) == Get(s, M(a)))
  }

  lemma AfterSaveEntryPoint(g: int, s: State)
    ensures EntryPointSaved(g, s, Exec(SaveEntryPoint(g), s))
  {
    var a, b := ToField(Lstar, NativeLstar), Move(Imm(-1), M(g + OFF_INTR_NO));
    ExecAppend(One(a), One(b), s);
    AfterOne(a, s);
    AfterOne(b, Exec(One(a), s));
  }

  ghost predicate XstateLoaded(valid: bool, s: State, s': State) {
    && SameRegs(s, s') && SameWords(s, s') && (forall f :: Get(s', K(f)) == Get(s, K(f)))
    && (forall x :: x != Xstate ==> Get(s', S(x)) == Get(s, S(x)))
    && Get(s', S(Xstate)) == if valid then Get(s, K(PayloadXstate)) else Get(s, S(Xstate))
  }

  lemma AfterLoadXstate(valid: bool, s: State)
    ensures XstateLoaded(valid, s, Exec(LoadXstate(valid), s))
  {
    if valid { AfterOne(ToSys(PayloadXstate, Xstate), s); }
  }

  lemma HostPartsKept(g: int, nativeIdt: int, guestIdt: int, valid: bool, s: State, s1: State, s2: State, s3: State, s4: State)
    requires SegmentsSaved(g, nativeIdt, guestIdt, s, s1) && StateSaved(s1, s2) && XstateLoaded(valid, s2, s3) && EntryPointSaved(g, s3, s4)
    ensures HostKept(s, s4)
  {
    assert Get(s4, K(NativeLstar)) == Get(s3, S(Lstar)) == Get(s2, S(Lstar)) == Get(s1, S(Lstar));
    assert Get(s2, K(KernelXstate)) == Get(s1, S(Xstate)) && Get(s2, K(NativeGsBase)) == Get(s1, S(GsBase));
  }

  lemma HostWords(g: int, nativeIdt: int, guestIdt: int, valid: bool, s: State, s1: State, s2: State, s3: State, s4: State)
    requires SegmentsSaved(g, nativeIdt, guestIdt, s, s1) && StateSaved(s1, s2) && XstateLoaded(valid, s2, s3) && EntryPointSaved(g, s3, s4)
    ensures Get(s4, M(g + OFF_NATIVE_IDT)) == nativeIdt && Get(s4, M(g + OFF_GUEST_IDT)) == guestIdt
    ensures Get(s4, M(g + OFF_GUEST_CR4)) == Get(s, S(Cr4)) && Get(s4, M(g + OFF_INTR_NO)) == -1
    ensures forall a :: !SaveWrites(g, a) && a != g + OFF_INTR_NO ==> Get(s4, M(a)) == Get(s, M(a))
  {
  }

  lemma HostRegisters(g: int, nativeIdt: int, guestIdt: int, valid: bool, s: State, s1: State, s2: State, s3: State, s4: State)
    requires SegmentsSaved(g, nativeIdt, guestIdt, s, s1) && StateSaved(s1, s2) && XstateLoaded(valid, s2, s3) && EntryPointSaved(g, s3, s4)
    ensures Get(s4, K(NativeCr4)) == Get(s, S(Cr4)) && Get(s4, K(NativeSs)) == Get(s, S(Ss)) && Get(s4, K(PayloadXstate)) == Get(s, K(PayloadXstate))
    ensures (forall x :: x != Xstate ==> Get(s4, S(x)) == Get(s, S(x))) && SameRegs(s, s4)
    ensures Get(s4, S(Xstate)) == Get(s, if valid then K(PayloadXstate) else S(Xstate))
  {
  }

  lemma HostParts(g: int, nativeIdt: int, guestIdt: int, valid: bool, s: State, s1: State, s2: State, s3: State, s4: State)
    requires SegmentsSaved(g, nativeIdt, guestIdt, s, s1) && StateSaved(s1, s2) && XstateLoaded(valid, s2, s3) && EntryPointSaved(g, s3, s4)
    ensures HostSaved(g, nativeIdt, guestIdt, valid, s, s4)
  {
    HostPartsKept(g, nativeIdt, guestIdt, valid, s, s1, s2, s3, s4);
    HostWords(g, nativeIdt, guestIdt, valid, s, s1, s2, s3, s4);
    HostRegisters(g, nativeIdt, guestIdt, valid, s, s1, s2, s3, s4);
  }

  lemma AfterSaveHost(g: int, nativeIdt: int, guestIdt: int, xstateValid: bool, s: State)
    ensures HostSaved(g, nativeIdt, guestIdt, xstateValid, s, Exec(SaveHost(g, nativeIdt, guestIdt, xstateValid), s))
  {
    var p, q, t, u := SaveSegments(g, nativeIdt, guestIdt), SaveState(), LoadXstate(xstateValid), SaveEntryPoint(g);
    ExecFour(p, q, t, u, s);
    var s1 := Exec(p, s);
    var s2 := Exec(q, s1);
    var s3 := Exec(t, s2);
    AfterSaveSegments(g, nativeIdt, guestIdt, s);
    AfterSaveState(s1);
    AfterLoadXstate(xstateValid, s2);
    AfterSaveEntryPoint(g, s3);
    HostParts(g, nativeIdt, guestIdt, xstateValid, s, s1, s2, s3, Exec(u, s3));
  }

  lemma AfterOne(m: Move, s: State)
    ensures MovedOne(m, s, Exec(One(m), s))
  {
    MovEffect(m.src, At(m.dst), s);
  }

  /* ---- kkm_guest_kernel_start_payload ---- */

  /** What the function makes of the monitor's rflags, in the area. */
  function FlagsIn(g: int, s: State): int {
    FlagsForPayload(Get(s, M(g + OFF_RFLAGS)), Get(s, M(g + OFF_DEBUG)))
  }

  function StartPayload(g: int, flags: int, syscallEntry: int): seq<Instr> {
    ClearSegments(g)
    + Four(Move(At(M(g + OFF_GS_BASE)), S(KernelGsBase)), Move(Imm(syscallEntry), S(Lstar)), Move(Imm(USER_CS), M(g + OFF_GP_CS)), Move(Imm(USER_DS), M(g + OFF_GP_SS)))
    + Four(Move(Imm(flags), M(g + OFF_RFLAGS)), Move(At(S(Sp0)), M(g + OFF_SP0)), Move(At(S(Sp1)), M(g + OFF_SP1)), Move(At(S(Sp2)), M(g + OFF_SP2)))
    + TakeTraps(g)
  }

  function ClearSegments(g: int): seq<Instr> {
    One(Move(Imm(0), S(Ds))) + One(Move(Imm(0), S(Es))) + [LoadFs(Imm(0))] + One(Move(At(M(g + OFF_FS_BASE)), S(FsBase)))
  }

  function TakeTraps(g: int): seq<Instr> {
    One(Move(Imm(g + STACK_TOP), S(Sp0))) + One(Move(At(M(g + OFF_GUEST_IDT)), S(Idt)))
  }

  ghost predicate SegmentsCleared(g: int, s: State, s': State) {
    && Get(s', S(FsBase)) == Get(s, M(g + OFF_FS_BASE))
    && (forall x: Sys :: !(x.Ds? || x.Es? || x.Fs? || x.FsBase?) ==> Get(s', S(x)) == Get(s, S(x)))
    && (forall f :: Get(s', K(f)) == Get(s, K(f))) && SameRegs(s, s') && SameWords(s, s')
  }

  lemma AfterClearSegments(g: int, s: State)
    ensures SegmentsCleared(g, s, Exec(ClearSegments(g), s))
  {
    var a, b, d := Move(Imm(0), S(Ds)), Move(Imm(0), S(Es)), Move(At(M(g + OFF_FS_BASE)), S(FsBase));
    ExecFour(One(a), One(b), [LoadFs(Imm(0))], One(d), s);
    var s1 := Exec(One(a), s);
    var s2 := Exec(One(b), s1);
    AfterOne(a, s);
    AfterOne(b, s1);
    LoadFsEffect(Imm(0), s2);
    AfterOne(d, Step(LoadFs(Imm(0)), s2));
  }

  lemma LoadFsEffect(o: Operand, s: State)
    ensures forall l :: l != S(Fs) && l != S(FsBase) ==> Get(Step(LoadFs(o), s), l) == Get(s, l)
    ensures Get(Step(LoadFs(o), s), S(Fs)) == Value(s, o)
  {
  }

  ghost predicate TrapsTaken(g: int, s: State, s': State) {
    && Get(s', S(Sp0)) == g + STACK_TOP && Get(s', S(Idt)) == Get(s, M(g + OFF_GUEST_IDT))
    && forall l :: l != S(Sp0) && l != S(Idt) ==> Get(s', l) == Get(s, l)
  }

  lemma AfterTakeTraps(g: int, s: State)
    ensures TrapsTaken(g, s, Exec(TakeTraps(g), s))
  {
    var a, b := Move(Imm(g + STACK_TOP), S(Sp0)), Move(At(M(g + OFF_GUEST_IDT)), S(Idt));
    ExecAppend(One(a), One(b), s);
    AfterOne(a, s);
    AfterOne(b, Exec(One(a), s));
  }

  /** Words the function writes. */
  predicate StartWrites(g: int, a: int) {
    a == g + OFF_GP_CS || a == g + OFF_GP_SS || a == g + OFF_RFLAGS || a == g + OFF_SP0 || a == g + OFF_SP1 || a == g + OFF_SP2
  }

  ghost predicate StartKeepsSystem(s: State, s': State) {
    forall x: Sys :: !(x.Sp0? || x.Idt? || x.FsBase? || x.KernelGsBase? || x.Lstar? || x.Ds? || x.Es? || x.Fs?) ==> Get(s', S(x)) == Get(s, S(x))
  }

  /** The payload's segments, entry points and stacks are in place, and the host's stacks are kept. */
  ghost predicate Started(g: int, flags: int, syscallEntry: int, s: State, s': State) {
    && Get(s', S(Sp0)) == g + STACK_TOP && Get(s', S(Idt)) == Get(s, M(g + OFF_GUEST_IDT))
    && Get(s', S(FsBase)) == Get(s, M(g + OFF_FS_BASE)) && Get(s', S(KernelGsBase)) == Get(s, M(g + OFF_GS_BASE))
    && Get(s', S(Lstar)) == syscallEntry
    && Get(s', M(g + OFF_GP_CS)) == USER_CS && Get(s', M(g + OFF_GP_SS)) == USER_DS && Get(s', M(g + OFF_RFLAGS)) == flags
    && Get(s', M(g + OFF_SP0)) == Get(s, S(Sp0)) && Get(s', M(g + OFF_SP1)) == Get(s, S(Sp1)) && Get(s', M(g + OFF_SP2)) == Get(s, S(Sp2))
    && StartKeepsSystem(s, s')
    && (forall f :: Get(s', K(f)) == Get(s, K(f))) && SameRegs(s, s')
    && (forall a :: !StartWrites(g, a) ==> Get(s', M(a)) == Get(s, M(a)))
  }

  ghost predicate EntrySet(g: int, syscallEntry: int, s: State, s': State) {
    && Get(s', S(KernelGsBase)) == Get(s, M(g + OFF_GS_BASE)) && Get(s', S(Lstar)) == syscallEntry
    && (forall x: Sys :: !(x.KernelGsBase? || x.Lstar?) ==> Get(s', S(x)) == Get(s, S(x)))
    && (forall f :: Get(s', K(f)) == Get(s, K(f))) && SameRegs(s, s')
    && Get(s', M(g + OFF_GP_CS)) == USER_CS && Get(s', M(g + OFF_GP_SS)) == USER_DS
    && (forall a :: a != g + OFF_GP_CS && a != g + OFF_GP_SS ==> Get(s', M(a)) == Get(s, M(a)))
  }

  lemma EntryParts(g: int, syscallEntry: int, s: State, s': State)
    requires MovedFour(Move(At(M(g + OFF_GS_BASE)), S(KernelGsBase)), Move(Imm(syscallEntry), S(Lstar)), Move(Imm(USER_CS), M(g + OFF_GP_CS)), Move(Imm(USER_DS), M(g + OFF_GP_SS)), s, s')
    ensures EntrySet(g, syscallEntry, s, s')
  {
  }

  ghost predicate StacksKept(g: int, flags: int, s: State, s': State) {
    && SameSystem(s, s') && SameRegs(s, s')
    && Get(s', M(g + OFF_RFLAGS)) == flags
    && Get(s', M(g + OFF_SP0)) == Get(s, S(Sp0)) && Get(s', M(g + OFF_SP1)) == Get(s, S(Sp1)) && Get(s', M(g + OFF_SP2)) == Get(s, S(Sp2))
    && (forall a :: !(a == g + OFF_RFLAGS || a == g + OFF_SP0 || a == g + OFF_SP1 || a == g + OFF_SP2) ==> Get(s', M(a)) == Get(s, M(a)))
  }

  lemma StacksParts(g: int, flags: int, s: State, s': State)
    requires MovedFour(Move(Imm(flags), M(g + OFF_RFLAGS)), Move(At(S(Sp0)), M(g + OFF_SP0)), Move(At(S(Sp1)), M(g + OFF_SP1)), Move(At(S(Sp2)), M(g + OFF_SP2)), s, s')
    ensures StacksKept(g, flags, s, s')
  {
  }

  lemma StartParts(g: int, flags: int, syscallEntry: int, s: State, s1: State, s2: State, s3: State, s4: State)
    requires SegmentsCleared(g, s, s1) && EntrySet(g, syscallEntry, s1, s2) && StacksKept(g, flags, s2, s3) && TrapsTaken(g, s3, s4)
    ensures Started(g, flags, syscallEntry, s, s4)
  {
  }

  lemma AfterStart(g: int, flags: int, syscallEntry: int, s: State)
    ensures Started(g, flags, syscallEntry, s, Exec(StartPayload(g, flags, syscallEntry), s))
  {
    var a, b, c, d := Move(At(M(g + OFF_GS_BASE)), S(KernelGsBase)), Move(Imm(syscallEntry), S(Lstar)), Move(Imm(USER_CS), M(g + OFF_GP_CS)), Move(Imm(USER_DS), M(g + OFF_GP_SS));
    var e, f, h, i := Move(Imm(flags), M(g + OFF_RFLAGS)), Move(At(S(Sp0)), M(g + OFF_SP0)), Move(At(S(Sp1)), M(g + OFF_SP1)), Move(At(S(Sp2)), M(g + OFF_SP2));
    ExecFour(ClearSegments(g), Four(a, b, c, d), Four(e, f, h, i), TakeTraps(g), s);
    var s1 := Exec(ClearSegments(g), s);
    var s2 := Exec(Four(a, b, c, d), s1);
    var s3 := Exec(Four(e, f, h, i), s2);
    AfterClearSegments(g, s);
    AfterFour(a, b, c, d, s1);
    EntryParts(g, syscallEntry, s1, s2);
    AfterFour(e, f, h, i, s2);
    StacksParts(g, flags, s2, s3);
    AfterTakeTraps(g, s3);
    StartParts(g, flags, syscallEntry, s, s1, s2, s3, Exec(TakeTraps(g), s3));
  }

  lemma AfterStartPayload(g: int, syscallEntry: int, s: State)
    ensures Started(g, FlagsIn(g, s), syscallEntry, s, Exec(StartPayload(g, FlagsIn(g, s), syscallEntry), s))
    ensures AsPromised(Get(s, M(g + OFF_RFLAGS)), Get(s, M(g + OFF_DEBUG)), FlagsIn(g, s))
  {
    AfterStart(g, FlagsIn(g, s), syscallEntry, s);
    FlagsAsPromised(Get(s, M(g + OFF_RFLAGS)), Get(s, M(g + OFF_DEBUG)));
  }
}
