/** How entry and exit code empty the TLB when no PCID is in use. */
module TlbFlush {
  import opened Machine
  import opened Straight

  /** Toggle CR4.PGE by way of two scratch registers, which empties the TLB, and put it back. */
  function FlushTlb(a: Reg, b: Reg): seq<Instr> {
    CopyCr4(a, b) + ToggleCr4(a) + [Mov(At(R(b)), At(S(Cr4)))]
  }

  function CopyCr4(a: Reg, b: Reg): seq<Instr> { [Mov(At(S(Cr4)), At(R(a)))] + [Mov(At(R(a)), At(R(b)))] }

  function ToggleCr4(r: Reg): seq<Instr> { [ToggleBit7(r)] + [Mov(At(R(r)), At(S(Cr4)))] }

  lemma AfterCopyCr4(a: Reg, b: Reg, s: State)
    ensures var s' := Exec(CopyCr4(a, b), s); OnlyRegs({a, b}, s, s') && Get(s', R(b)) == Get(s, S(Cr4))
  {
    var i, j := Mov(At(S(Cr4)), At(R(a))), Mov(At(R(a)), At(R(b)));
    ExecOne(i, [j], s);
    MovEffect(At(S(Cr4)), At(R(a)), s);
    MovEffect(At(R(a)), At(R(b)), Step(i, s));
  }

  /** Only cr4 and r may differ. */
  ghost predicate OnlyCr4(r: Reg, s: State, s': State) {
    forall l :: l != S(Cr4) && l != R(r) ==> Get(s', l) == Get(s, l)
  }

  lemma AfterToggleCr4(r: Reg, s: State)
    ensures OnlyCr4(r, s, Exec(ToggleCr4(r), s))
  {
    ExecOne(ToggleBit7(r), [Mov(At(R(r)), At(S(Cr4)))], s);
  }

  lemma FlushTlbParts(a: Reg, b: Reg, s: State, s1: State, s2: State, s3: State)
    requires a != b && OnlyRegs({a, b}, s, s1) && Get(s1, R(b)) == Get(s, S(Cr4)) && OnlyCr4(a, s1, s2)
    requires forall l :: Get(s3, l) == if l == S(Cr4) then Get(s2, R(b)) else Get(s2, l)
    ensures OnlyRegs({a, b}, s, s3)
  {
    assert Get(s2, R(b)) == Get(s1, R(b));
  }

  lemma AfterFlushTlb(a: Reg, b: Reg, s: State)
    requires a != b
    ensures OnlyRegs({a, b}, s, Exec(FlushTlb(a, b), s))
  {
    var last := Mov(At(R(b)), At(S(Cr4)));
    ExecThree(CopyCr4(a, b), ToggleCr4(a), [last], s);
    var s1 := Exec(CopyCr4(a, b), s);
    var s2 := Exec(ToggleCr4(a), s1);
    AfterCopyCr4(a, b, s);
    AfterToggleCr4(a, s1);
    MovEffect(At(R(b)), At(S(Cr4)), s2);
    FlushTlbParts(a, b, s, s1, s2, Step(last, s2));
  }

  /** A PCID with a zero low byte means none is in use: then body empties the TLB. */
  function FlushUnlessTagged(r: Reg, body: seq<Instr>): seq<Instr> {
    [ClearBits(r, 8, 64)] + [WhenZero(r, body)]
  }

  /** Like OnlyRegs, but the word below the stack pointer may be lost as well. */
  ghost predicate Scratched(rs: set<Reg>, s: State, s': State) {
    && SameSystem(s, s')
    && (forall r :: r !in rs ==> Get(s', R(r)) == Get(s, R(r)))
    && (forall a :: !(Get(s, R(Rsp)) - 8 <= a < Get(s, R(Rsp))) ==> Get(s', M(a)) == Get(s, M(a)))
  }

  lemma AfterFlushUnlessTagged(r: Reg, body: seq<Instr>, s: State)
    ensures var s1 := Step(ClearBits(r, 8, 64), s);
            Exec(FlushUnlessTagged(r, body), s) == if Get(s1, R(r)) == 0 then Exec(body, s1) else s1
  {
    ExecOne(ClearBits(r, 8, 64), [WhenZero(r, body)], s);
  }

  lemma AfterClearBits(r: Reg, s: State)
    ensures OnlyRegs({r}, s, Step(ClearBits(r, 8, 64), s))
  {
  }

  lemma AfterCheckedFlush(a: Reg, b: Reg, s: State)
    requires a != b
    ensures OnlyRegs({a, b}, s, Exec(FlushUnlessTagged(a, FlushTlb(a, b)), s))
  {
    AfterClearBits(a, s);
    AfterFlushTlb(a, b, Step(ClearBits(a, 8, 64), s));
    AfterFlushUnlessTagged(a, FlushTlb(a, b), s);
  }

  /** The same on one scratch register and the stack. */
  function FlushByPush(r: Reg): seq<Instr> {
    KeepCr4(r) + ToggleCr4(r) + PutBackCr4(r)
  }

  function KeepCr4(r: Reg): seq<Instr> { [Mov(At(S(Cr4)), At(R(r)))] + [Push(At(R(r)))] }

  function PutBackCr4(r: Reg): seq<Instr> { [Pop(At(R(r)))] + [Mov(At(R(r)), At(S(Cr4)))] }

  lemma AfterKeepCr4(r: Reg, s: State)
    requires r != Rsp
    ensures var s' := Exec(KeepCr4(r), s); Deeper(1, {r}, s, s') && Get(s', M(Get(s, R(Rsp)) - 8)) == Get(s, S(Cr4))
  {
    var i, j := Mov(At(S(Cr4)), At(R(r))), Push(At(R(r)));
    ExecOne(i, [j], s);
    MovEffect(At(S(Cr4)), At(R(r)), s);
    PushEffect(At(R(r)), Step(i, s));
  }

  ghost predicate PutBack(r: Reg, s: State, s': State) {
    && Get(s', S(Cr4)) == Get(s, M(Get(s, R(Rsp)))) && Get(s', R(Rsp)) == Get(s, R(Rsp)) + 8
    && forall l :: l != S(Cr4) && l != R(r) && l != R(Rsp) ==> Get(s', l) == Get(s, l)
  }

  lemma AfterPutBackCr4(r: Reg, s: State)
    requires r != Rsp
    ensures PutBack(r, s, Exec(PutBackCr4(r), s))
  {
    var i, j := Pop(At(R(r))), Mov(At(R(r)), At(S(Cr4)));
    ExecOne(i, [j], s);
    PopEffect(R(r), s);
    MovEffect(At(R(r)), At(S(Cr4)), Step(i, s));
  }

  /** cr4 kept on the stack, toggled, and put back. */
  ghost predicate Flushed(r: Reg, s: State, s1: State, s2: State, s3: State) {
    && Deeper(1, {r}, s, s1) && Get(s1, M(Get(s, R(Rsp)) - 8)) == Get(s, S(Cr4))
    && OnlyCr4(r, s1, s2) && PutBack(r, s2, s3)
  }

  lemma FlushedSystem(r: Reg, s: State, s1: State, s2: State, s3: State)
    requires r != Rsp && Flushed(r, s, s1, s2, s3)
    ensures SameSystem(s, s3) && Get(s3, R(Rsp)) == Get(s, R(Rsp))
  {
    assert Get(s2, R(Rsp)) == Get(s, R(Rsp)) - 8;
  }

  lemma FlushedWords(r: Reg, s: State, s1: State, s2: State, s3: State)
    requires r != Rsp && Flushed(r, s, s1, s2, s3)
    ensures forall a :: !(Get(s, R(Rsp)) - 8 <= a < Get(s, R(Rsp))) ==> Get(s3, M(a)) == Get(s, M(a))
  {
  }

  lemma FlushedRegs(r: Reg, s: State, s1: State, s2: State, s3: State)
    requires r != Rsp && Flushed(r, s, s1, s2, s3)
    ensures forall q :: q != r && q != Rsp ==> Get(s3, R(q)) == Get(s, R(q))
  {
  }

  lemma FlushByPushParts(r: Reg, s: State, s1: State, s2: State, s3: State)
    requires r != Rsp && Flushed(r, s, s1, s2, s3)
    ensures Scratched({r}, s, s3)
  {
    FlushedSystem(r, s, s1, s2, s3);
    FlushedWords(r, s, s1, s2, s3);
    FlushedRegs(r, s, s1, s2, s3);
  }

  lemma AfterFlushByPush(r: Reg, s: State)
    requires r != Rsp
    ensures Scratched({r}, s, Exec(FlushByPush(r), s))
  {
    ExecThree(KeepCr4(r), ToggleCr4(r), PutBackCr4(r), s);
    var s1 := Exec(KeepCr4(r), s);
    var s2 := Exec(ToggleCr4(r), s1);
    AfterKeepCr4(r, s);
    AfterToggleCr4(r, s1);
    AfterPutBackCr4(r, s2);
    FlushByPushParts(r, s, s1, s2, Exec(PutBackCr4(r), s2));
  }

  lemma AfterCheckedFlushByPush(r: Reg, s: State)
    requires r != Rsp
    ensures Scratched({r}, s, Exec(FlushUnlessTagged(r, FlushByPush(r)), s))
  {
    AfterClearBits(r, s);
    AfterFlushByPush(r, Step(ClearBits(r, 8, 64), s));
    AfterFlushUnlessTagged(r, FlushByPush(r), s);
  }
}
