/** The layout of struct kkm_guest_area, and what runs of like instructions do to it. */
module Straight {
  import opened Machine

  // kkm_offsets.h, as offsets into struct kkm_guest_area
  const OFF_NK_STACK := 16
  const OFF_GUEST_CR4 := 32
  const OFF_GP_CR3 := 40
  const OFF_GP_CS := 56
  const OFF_GP_SS := 64
  const OFF_NATIVE_IDT := 72
  const OFF_GUEST_IDT := 88
  const OFF_SP0 := 104
  const OFF_SP1 := 112
  const OFF_SP2 := 120
  const OFF_RIP := 256
  const OFF_RFLAGS := 264
  const OFF_FS_BASE := 344
  const OFF_GS_BASE := 368
  const OFF_CR0 := 496
  const OFF_CR2 := 504
  const OFF_CR3 := 512
  const OFF_CR4 := 520
  const OFF_CR8 := 528
  const OFF_DEBUG := 584          // debug.control
  const OFF_TI_ERROR := 1072
  const OFF_TI_RIP := 1080
  const OFF_TI_CS := 1088
  const OFF_TI_RFLAGS := 1096
  const OFF_TI_RSP := 1104
  const OFF_TI_SS := 1112
  const OFF_INTR_NO := 1120
  const FIELDS_END := 1128
  const ENTRY_STACK_TOP := 4096
  const STACK_BOTTOM := 4352
  const STACK_TOP := 7936
  const AREA_SIZE := 8192

  const REDIRECT := 0xFFFF_FE80_0000_3000
  const KERNEL_CS := 0x10
  const KERNEL_DS := 0x18
  const USER_DS := 0x2B
  const USER_CS := 0x33

  /** Registers a C function leaves as they were. */
  const CALLEE_SAVED := [Rbp, Rbx, R12, R13, R14, R15]

  /** Offset of a register's slot in ga->regs. */
  function Off(r: Reg): int {
    128 + 8 * SlotNumber(r)
  }

  /** Position of a register in struct kkm_regs. */
  function SlotNumber(r: Reg): nat {
    match r
    case Rax => 0 case Rbx => 1 case Rcx => 2 case Rdx => 3
    case Rsi => 4 case Rdi => 5 case Rsp => 6 case Rbp => 7
    case R8 => 8 case R9 => 9 case R10 => 10 case R11 => 11
    case R12 => 12 case R13 => 13 case R14 => 14 case R15 => 15
  }

  /** The register at a position. */
  function RegAtSlot(n: nat): Reg {
    if n == 0 then Rax else if n == 1 then Rbx else if n == 2 then Rcx else if n == 3 then Rdx
    else if n == 4 then Rsi else if n == 5 then Rdi else if n == 6 then Rsp else if n == 7 then Rbp
    else if n == 8 then R8 else if n == 9 then R9 else if n == 10 then R10 else if n == 11 then R11
    else if n == 12 then R12 else if n == 13 then R13 else if n == 14 then R14 else R15
  }

  lemma SlotFacts(r: Reg)
    ensures 128 <= Off(r) < 256 && RegAtSlot(SlotNumber(r)) == r
  {
  }

  ghost predicate SameRegs(s: State, s': State) {
    forall r :: Get(s', R(r)) == Get(s, R(r))
  }

  ghost predicate SameWords(s: State, s': State) {
    forall a :: Get(s', M(a)) == Get(s, M(a))
  }

  ghost predicate SameSystem(s: State, s': State) {
    && (forall x :: Get(s', S(x)) == Get(s, S(x)))
    && (forall f :: Get(s', K(f)) == Get(s, K(f)))
  }

  /** Only registers of rs may differ. */
  ghost predicate OnlyRegs(rs: set<Reg>, s: State, s': State) {
    SameSystem(s, s') && SameWords(s, s') && forall r :: r !in rs ==> Get(s', R(r)) == Get(s, R(r))
  }

  /** n more words on the stack; of the other registers only rs may differ. */
  ghost predicate Deeper(n: nat, rs: set<Reg>, s: State, s': State) {
    var sp := Get(s, R(Rsp));
    && SameSystem(s, s')
    && Get(s', R(Rsp)) == sp - 8 * n
    && (forall r :: r != Rsp && r !in rs ==> Get(s', R(r)) == Get(s, R(r)))
    && (forall a :: !(sp - 8 * n <= a < sp) ==> Get(s', M(a)) == Get(s, M(a)))
  }

  /* ---- runs of like instructions, and what each run does ---- */

  /** pushq o, for each o */
  function Pushes(os: seq<Operand>): seq<Instr> {
    if os == [] then [] else [Push(os[0])] + Pushes(os[1..])
  }

  /** Is word a among the n words below sp? */
  predicate OnStack(a: int, sp: int, n: nat) {
    sp - 8 * n <= a < sp && (sp - a) % 8 == 0
  }

  function Regs(rs: seq<Reg>): (os: seq<Operand>)
    ensures |os| == |rs| && forall i :: 0 <= i < |rs| ==> os[i] == At(R(rs[i]))
  {
    if rs == [] then [] else [At(R(rs[0]))] + Regs(rs[1..])
  }

  ghost predicate Pushed(vs: seq<int>, s: State, s': State) {
    var sp := Get(s, R(Rsp));
    && SameSystem(s, s')
    && (forall r :: Get(s', R(r)) == if r == Rsp then sp - 8 * |vs| else Get(s, R(r)))
    && (forall a :: Get(s', M(a)) == if OnStack(a, sp, |vs|) then vs[(sp - a) / 8 - 1] else Get(s, M(a)))
  }

  function Values(s: State, os: seq<Operand>): (vs: seq<int>)
    ensures |vs| == |os| && forall i :: 0 <= i < |os| ==> vs[i] == Value(s, os[i])
  {
    if os == [] then [] else [Value(s, os[0])] + Values(s, os[1..])
  }

  /** An operand that pushing n words does not change. */
  predicate Steady(s: State, o: Operand, n: nat) {
    match o
    case Imm(_) => true
    case At(l) => l != R(Rsp) && !l.M?
    case Mem(b, off) => b != Rsp && !OnStack(Get(s, R(b)) + off, Get(s, R(Rsp)), n)
  }

  lemma PushedThenPushed(v: int, vs: seq<int>, s: State, s1: State, s2: State)
    requires Pushed([v], s, s1) && Pushed(vs, s1, s2)
    ensures Pushed([v] + vs, s, s2)
  {
  }

  lemma {:induction false} AfterPushes(os: seq<Operand>, s: State)
    requires forall o :: o in os ==> Steady(s, o, |os|)
    ensures Pushed(Values(s, os), s, Exec(Pushes(os), s))
  {
    if os != [] {
      var i := Push(os[0]);
      var s1 := Step(i, s);
      ExecOne(i, Pushes(os[1..]), s);
      PushEffect(os[0], s);
      assert Pushed([Value(s, os[0])], s, s1);
      SteadyAfterPush(os, Value(s, os[0]), s, s1);
      AfterPushes(os[1..], s1);
      PushedThenPushed(Value(s, os[0]), Values(s, os[1..]), s, s1, Exec(Pushes(os), s));
    }
  }

  lemma StillSteady(o: Operand, n: nat, v: int, s: State, s1: State)
    requires n > 0 && Pushed([v], s, s1) && Steady(s, o, n)
    ensures Steady(s1, o, n - 1) && Value(s1, o) == Value(s, o)
  {
    match o
    case Imm(_) =>
    case At(R(r)) => assert Get(s1, R(r)) == Get(s, R(r));
    case At(S(x)) => assert Get(s1, S(x)) == Get(s, S(x));
    case At(K(f)) => assert Get(s1, K(f)) == Get(s, K(f));
    case At(M(_)) => assert false;
    case Mem(b, off) => assert Get(s1, M(Get(s, R(b)) + off)) == Get(s, M(Get(s, R(b)) + off));
  }

  lemma SteadyAfterPush(os: seq<Operand>, v: int, s: State, s1: State)
    requires os != [] && Pushed([v], s, s1)
    requires forall o :: o in os ==> Steady(s, o, |os|)
    ensures forall o :: o in os[1..] ==> Steady(s1, o, |os| - 1)
    ensures Values(s1, os[1..]) == Values(s, os[1..])
  {
    forall o | o in os[1..] ensures Steady(s1, o, |os| - 1) && Value(s1, o) == Value(s, o) {
      assert o in os;
      StillSteady(o, |os|, v, s, s1);
    }
    assert forall i :: 0 <= i < |os| - 1 ==> os[1..][i] in os[1..];
  }

  /** popq r, for each r */
  function Pops(rs: seq<Reg>): seq<Instr> {
    if rs == [] then [] else [Pop(At(R(rs[0])))] + Pops(rs[1..])
  }

  function IndexOf(rs: seq<Reg>, r: Reg): (i: nat)
    ensures r in rs ==> i < |rs| && rs[i] == r
  {
    if rs == [] || rs[0] == r then 0 else 1 + IndexOf(rs[1..], r)
  }

  ghost predicate Popped(rs: seq<Reg>, s: State, s': State) {
    var sp := Get(s, R(Rsp));
    && SameSystem(s, s') && SameWords(s, s')
    && (forall r :: Get(s', R(r)) ==
          if r == Rsp then sp + 8 * |rs| else if r in rs then Get(s, M(sp + 8 * IndexOf(rs, r))) else Get(s, R(r)))
  }

  lemma PoppedThenPopped(r: Reg, rs: seq<Reg>, s: State, s1: State, s2: State)
    requires r != Rsp && Rsp !in rs && r !in rs
    requires Popped([r], s, s1) && Popped(rs, s1, s2)
    ensures Popped([r] + rs, s, s2)
  {
    var all := [r] + rs;
    assert all[1..] == rs;
    assert IndexOf([r], r) == 0 && IndexOf(all, r) == 0;
    forall q | q in rs ensures IndexOf(all, q) == 1 + IndexOf(rs, q) {
    }
  }

  lemma PoppedOne(r: Reg, s: State)
    requires r != Rsp
    ensures Popped([r], s, Step(Pop(At(R(r))), s))
  {
    PopEffect(R(r), s);
    assert IndexOf([r], r) == 0;
  }

  ghost predicate Distinct(rs: seq<Reg>) {
    rs != [] ==> rs[0] !in rs[1..] && Distinct(rs[1..])
  }

  lemma {:induction false} IndexOfAt(rs: seq<Reg>, i: nat)
    requires Distinct(rs) && i < |rs|
    ensures IndexOf(rs, rs[i]) == i
  {
    if i > 0 {
      assert rs[i] == rs[1..][i - 1];
      IndexOfAt(rs[1..], i - 1);
    }
  }

  lemma {:induction false} AfterPops(rs: seq<Reg>, s: State)
    requires Rsp !in rs && Distinct(rs)
    ensures Popped(rs, s, Exec(Pops(rs), s))
  {
    if rs != [] {
      var i := Pop(At(R(rs[0])));
      var s1 := Step(i, s);
      ExecOne(i, Pops(rs[1..]), s);
      PoppedOne(rs[0], s);
      AfterPops(rs[1..], s1);
      assert rs == [rs[0]] + rs[1..];
      PoppedThenPopped(rs[0], rs[1..], s, s1, Exec(Pops(rs), s));
    }
  }

  /** movq OFF_r(%rdi), r, for each r */
  function Loads(rs: seq<Reg>): seq<Instr> {
    if rs == [] then [] else [Mov(Mem(Rdi, Off(rs[0])), At(R(rs[0])))] + Loads(rs[1..])
  }

  ghost predicate Loaded(rs: seq<Reg>, s: State, s': State) {
    var g := Get(s, R(Rdi));
    && SameSystem(s, s') && SameWords(s, s')
    && (forall r :: Get(s', R(r)) == if r in rs then Get(s, M(g + Off(r))) else Get(s, R(r)))
  }

  lemma LoadedThenLoaded(r: Reg, rs: seq<Reg>, s: State, s1: State, s2: State)
    requires r != Rdi && Loaded([r], s, s1) && Loaded(rs, s1, s2)
    ensures Loaded([r] + rs, s, s2)
  {
  }

  lemma LoadedOne(r: Reg, s: State)
    ensures Loaded([r], s, Step(Mov(Mem(Rdi, Off(r)), At(R(r))), s))
  {
    MovEffect(Mem(Rdi, Off(r)), At(R(r)), s);
  }

  lemma {:induction false} AfterLoads(rs: seq<Reg>, s: State)
    requires Rdi !in rs
    ensures Loaded(rs, s, Exec(Loads(rs), s))
  {
    if rs != [] {
      var i := Mov(Mem(Rdi, Off(rs[0])), At(R(rs[0])));
      ExecOne(i, Loads(rs[1..]), s);
      LoadedOne(rs[0], s);
      AfterLoads(rs[1..], Step(i, s));
      assert [rs[0]] + rs[1..] == rs;
      LoadedThenLoaded(rs[0], rs[1..], s, Step(i, s), Exec(Loads(rs), s));
    }
  }

  /** movq r, OFF_r(%rdi), for each r */
  function Saves(rs: seq<Reg>): seq<Instr> {
    if rs == [] then [] else [Mov(At(R(rs[0])), Mem(Rdi, Off(rs[0])))] + Saves(rs[1..])
  }

  ghost predicate Saved(rs: seq<Reg>, s: State, s': State) {
    var g := Get(s, R(Rdi));
    && SameSystem(s, s') && SameRegs(s, s')
    && (forall r :: Get(s', M(g + Off(r))) == if r in rs then Get(s, R(r)) else Get(s, M(g + Off(r))))
    && (forall a :: !(g + 128 <= a < g + 256) ==> Get(s', M(a)) == Get(s, M(a)))
  }

  lemma SavedThenSaved(r: Reg, rs: seq<Reg>, s: State, s1: State, s2: State)
    requires Saved([r], s, s1) && Saved(rs, s1, s2)
    ensures Saved([r] + rs, s, s2)
  {
  }

  lemma SavedOne(r: Reg, s: State)
    ensures Saved([r], s, Step(Mov(At(R(r)), Mem(Rdi, Off(r))), s))
  {
    MovEffect(At(R(r)), Mem(Rdi, Off(r)), s);
    forall q ensures 128 <= Off(q) < 256 && (Off(q) == Off(r) <==> q == r) {
      SlotFacts(q);
      SlotFacts(r);
    }
  }

  lemma {:induction false} AfterSaves(rs: seq<Reg>, s: State)
    ensures Saved(rs, s, Exec(Saves(rs), s))
  {
    if rs != [] {
      var i := Mov(At(R(rs[0])), Mem(Rdi, Off(rs[0])));
      ExecOne(i, Saves(rs[1..]), s);
      SavedOne(rs[0], s);
      AfterSaves(rs[1..], Step(i, s));
      assert [rs[0]] + rs[1..] == rs;
      SavedThenSaved(rs[0], rs[1..], s, Step(i, s), Exec(Saves(rs), s));
    }
  }

  /** movq o, scratch; movq scratch, off(%rdi), for each o and successive words of the guest area */
  function Copies(scratch: Reg, os: seq<Operand>, off: int): seq<Instr> {
    if os == [] then []
    else [Mov(os[0], At(R(scratch)))] + [Mov(At(R(scratch)), Mem(Rdi, off))] + Copies(scratch, os[1..], off + 8)
  }

  ghost predicate Copied(scratch: Reg, vs: seq<int>, off: int, s: State, s': State) {
    var g := Get(s, R(Rdi));
    && SameSystem(s, s')
    && (forall r :: r != scratch ==> Get(s', R(r)) == Get(s, R(r)))
    && (forall i :: 0 <= i < |vs| ==> Get(s', M(g + off + 8 * i)) == vs[i])
    && (forall a :: !(g + off <= a < g + off + 8 * |vs|) ==> Get(s', M(a)) == Get(s, M(a)))
  }

  /** A source that copying does not change: a system register, or a word of the trap stack. */
  predicate Source(s: State, o: Operand) {
    || (o.At? && o.place.S?)
    || (o.Mem? && o.base == Rsi && Get(s, R(Rsi)) + o.offset >= Get(s, R(Rdi)) + STACK_BOTTOM)
  }

  lemma CopiedThenCopied(scratch: Reg, v: int, vs: seq<int>, off: int, s: State, s1: State, s2: State)
    requires scratch != Rdi
    requires Copied(scratch, [v], off, s, s1) && Copied(scratch, vs, off + 8, s1, s2)
    ensures Copied(scratch, [v] + vs, off, s, s2)
  {
    var g := Get(s, R(Rdi));
    assert Get(s1, M(g + off + 8 * 0)) == [v][0];
    forall i | 0 <= i < 1 + |vs| ensures Get(s2, M(g + off + 8 * i)) == ([v] + vs)[i] {
      if i > 0 {
        assert vs[i - 1] == ([v] + vs)[i];
        assert g + off + 8 * i == g + (off + 8) + 8 * (i - 1);
      }
    }
  }

  /** One word copied. */
  function OneCopy(scratch: Reg, o: Operand, off: int, s: State): State {
    Step(Mov(At(R(scratch)), Mem(Rdi, off)), Step(Mov(o, At(R(scratch))), s))
  }

  lemma CopiesOne(scratch: Reg, o: Operand, off: int, rest: seq<Instr>, s: State)
    ensures Exec([Mov(o, At(R(scratch)))] + [Mov(At(R(scratch)), Mem(Rdi, off))] + rest, s) == Exec(rest, OneCopy(scratch, o, off, s))
  {
    ExecThree([Mov(o, At(R(scratch)))], [Mov(At(R(scratch)), Mem(Rdi, off))], rest, s);
  }

  lemma CopiesUnfold(scratch: Reg, os: seq<Operand>, off: int, s: State)
    requires os != []
    ensures Exec(Copies(scratch, os, off), s) == Exec(Copies(scratch, os[1..], off + 8), OneCopy(scratch, os[0], off, s))
  {
    CopiesOne(scratch, os[0], off, Copies(scratch, os[1..], off + 8), s);
  }

  lemma CopiedOne(scratch: Reg, o: Operand, off: int, s: State)
    requires scratch != Rdi && !o.Imm?
    ensures Copied(scratch, [Value(s, o)], off, s, OneCopy(scratch, o, off, s))
  {
    MovEffect(o, At(R(scratch)), s);
    MovEffect(At(R(scratch)), Mem(Rdi, off), Step(Mov(o, At(R(scratch))), s));
    LoadedThenStored(scratch, Value(s, o), off, s, Step(Mov(o, At(R(scratch))), s), OneCopy(scratch, o, off, s));
  }

  lemma LoadedThenStored(scratch: Reg, v: int, off: int, s: State, s1: State, s2: State)
    requires scratch != Rdi
    requires forall l :: Get(s1, l) == if l == R(scratch) then v else Get(s, l)
    requires forall l :: Get(s2, l) == if l == M(Get(s, R(Rdi)) + off) then v else Get(s1, l)
    ensures Copied(scratch, [v], off, s, s2)
  {
  }

  lemma SourceAfterCopy(scratch: Reg, v: int, os: seq<Operand>, off: int, s: State, s1: State)
    requires os != [] && scratch != Rdi && scratch != Rsi && off + 8 <= STACK_BOTTOM && Copied(scratch, [v], off, s, s1)
    requires forall o :: o in os ==> Source(s, o)
    ensures forall o :: o in os[1..] ==> Source(s1, o)
    ensures Values(s1, os[1..]) == Values(s, os[1..])
  {
    forall o | o in os[1..] ensures Source(s1, o) && Value(s1, o) == Value(s, o) {
      assert o in os;
      if o.At? { assert Get(s1, S(o.place.sys)) == Get(s, S(o.place.sys)); }
    }
    assert forall i :: 0 <= i < |os| - 1 ==> os[1..][i] in os[1..];
  }

  lemma FirstCopy(scratch: Reg, os: seq<Operand>, off: int, s: State)
    requires os != [] && scratch != Rdi && scratch != Rsi && off + 8 <= STACK_BOTTOM
    requires forall o :: o in os ==> Source(s, o)
    ensures var s1 := OneCopy(scratch, os[0], off, s);
            && Copied(scratch, [Value(s, os[0])], off, s, s1)
            && (forall o :: o in os[1..] ==> Source(s1, o)) && Values(s1, os[1..]) == Values(s, os[1..])
  {
    assert os[0] in os;
    CopiedOne(scratch, os[0], off, s);
    SourceAfterCopy(scratch, Value(s, os[0]), os, off, s, OneCopy(scratch, os[0], off, s));
  }

  lemma {:induction false} AfterCopies(scratch: Reg, os: seq<Operand>, off: int, s: State)
    requires scratch != Rdi && scratch != Rsi && off + 8 * |os| <= STACK_BOTTOM
    requires forall o :: o in os ==> Source(s, o)
    ensures Copied(scratch, Values(s, os), off, s, Exec(Copies(scratch, os, off), s))
  {
    if os != [] {
      var s1, rest := OneCopy(scratch, os[0], off, s), Copies(scratch, os[1..], off + 8);
      FirstCopy(scratch, os, off, s);
      AfterCopies(scratch, os[1..], off + 8, s1);
      CopiesUnfold(scratch, os, off, s);
      CopiedThenCopied(scratch, Value(s, os[0]), Values(s, os[1..]), off, s, s1, Exec(rest, s1));
    }
  }
}
