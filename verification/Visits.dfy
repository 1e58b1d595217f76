/** One pass through the machine is one visit of the run loop: what RunLoop says of entering and leaving
    the payload is what the entry and exit code do. */
module Visits {
  import opened Constants
  import opened Machine
  import opened Straight
  import opened ExitCode
  import opened Arrival
  import opened WorldSwitch
  import RunLoop
  import Kontexts

  /** A machine word as a 64-bit number; -1 is all ones. */
  function Word(v: int): RunLoop.U64 {
    v % TWO_64
  }

  /** Sixteen registers in the order of struct kkm_regs, and rip. */
  function RegsOf(v: seq<int>, rip: int): RunLoop.Regs
    requires |v| == 16
  {
    RunLoop.Regs(Word(v[0]), Word(v[1]), Word(v[3]), Word(v[4]), Word(v[5]), Word(v[6]), Word(v[8]), Word(v[9]), Word(v[10]), Word(rip),
                 RunLoop.Rest(Word(v[2]), Word(v[7]), Word(v[11]), Word(v[12]), Word(v[13]), Word(v[14]), Word(v[15])))
  }

  function AreaWords(g: int, s: State): (v: seq<int>)
    ensures |v| == 16
  {
    seq(16, i requires 0 <= i < 16 => Get(s, M(g + Off(RegAtSlot(i)))))
  }

  function CpuWords(s: State): (v: seq<int>)
    ensures |v| == 16
  {
    seq(16, i requires 0 <= i < 16 => Get(s, R(RegAtSlot(i))))
  }

  /** What a trap leaves of a register: SYSCALL itself overwrites two. */
  function LeftWord(p: Pass, r: Reg): int {
    if p.cause.SystemCall? && r == Rcx then Get(p.atTrap, S(Rip))
    else if p.cause.SystemCall? && r == R11 then Get(p.atTrap, S(Rflags))
    else Get(p.atTrap, R(r))
  }

  function LeftWords(p: Pass): (v: seq<int>)
    ensures |v| == 16
  {
    seq(16, i requires 0 <= i < 16 => LeftWord(p, RegAtSlot(i)))
  }

  /** ga->regs, as the area at g holds them. */
  function AreaRegs(g: int, s: State): RunLoop.Regs {
    RegsOf(AreaWords(g, s), Get(s, M(g + OFF_RIP)))
  }

  /** The processor's own. */
  function CpuRegs(s: State): RunLoop.Regs {
    RegsOf(CpuWords(s), Get(s, S(Rip)))
  }

  function LeftRegs(p: Pass): RunLoop.Regs {
    RegsOf(LeftWords(p), Get(p.atTrap, S(Rip)))
  }

  /** The guest area and struct kkm_kontext hold the kontext's state. */
  ghost predicate Represents(g: int, s: State, valid: bool, k: RunLoop.State) {
    && AreaRegs(g, s) == k.regs
    && Word(Get(s, M(g + OFF_GS_BASE))) == k.gsBase && Word(Get(s, M(g + OFF_CR2))) == k.cr2
    && Get(s, K(PayloadXstate)) == k.x.payload && valid == k.x.valid
  }

  /** The trap the pass ends in; how translations and copies go afterwards is u's. */
  function TrapOf(p: Pass, u: RunLoop.Trap): RunLoop.Trap {
    u.(no := Word(InterruptNumber(p.cause)), error := Word(ErrorCode(p.cause)),
       rip := Word(Get(p.atTrap, S(Rip))), cs := Word(FrameCs(p.cause, p.atTrap)), rflags := Word(Get(p.atTrap, S(Rflags))),
       rsp := Word(Get(p.atTrap, R(Rsp))), ss := Word(FrameSs(p.cause, p.atTrap)), cr2 := Word(Get(p.atTrap, S(Cr2))))
  }

  /** intr_no and trap_info, as the area holds them for kkm_process_intr. */
  ghost predicate TrapIn(g: int, s: State, t: RunLoop.Trap) {
    && t.no == Word(Get(s, M(g + OFF_INTR_NO))) && t.error == Word(Get(s, M(g + OFF_TI_ERROR)))
    && t.rip == Word(Get(s, M(g + OFF_TI_RIP))) && t.cs == Word(Get(s, M(g + OFF_TI_CS)))
    && t.rflags == Word(Get(s, M(g + OFF_TI_RFLAGS))) && t.rsp == Word(Get(s, M(g + OFF_TI_RSP)))
    && t.ss == Word(Get(s, M(g + OFF_TI_SS))) && t.cr2 == Word(Get(s, M(g + OFF_CR2)))
  }

  function VisitOf(p: Pass, u: RunLoop.Trap): (r: RunLoop.Round)
    ensures r.Visit?
  {
    RunLoop.Visit(Get(p.host, S(Xstate)), Get(p.atTrap, S(Xstate)), LeftRegs(p), TrapOf(p, u))
  }

  /** The payload's first instruction runs in the state the run loop has it start in. */
  ghost predicate StartsAs(p: Pass, start: RunLoop.State) {
    && CpuRegs(p.entered) == start.regs && Word(Get(p.entered, S(GsBase))) == start.gsBase
    && Get(p.entered, S(Xstate)) == start.x.cpu
  }

  /* ---- one pass ---- */

  ghost predicate RegsFrom(g: int, s: State, s': State) {
    (forall r :: Get(s', R(r)) == Get(s, M(g + Off(r)))) && Get(s', S(Rip)) == Get(s, M(g + OFF_RIP))
  }

  lemma RegsCarry(g: int, s: State, s': State)
    requires RegsFrom(g, s, s')
    ensures CpuRegs(s') == AreaRegs(g, s)
  {
    assert CpuWords(s') == AreaWords(g, s);
  }

  lemma GivenParts(p: Pass)
    requires Given(p)
    ensures RegsFrom(p.g, p.host, p.entered) && Get(p.entered, S(GsBase)) == Get(p.host, M(p.g + OFF_GS_BASE))
    ensures Get(p.entered, S(Xstate)) == (if p.xstateValid then Get(p.host, K(PayloadXstate)) else Get(p.host, S(Xstate)))
  {
  }

  lemma EntersAsVisit(p: Pass, k: RunLoop.State)
    requires OnePass(p) && Represents(p.g, p.host, p.xstateValid, k)
    ensures StartsAs(p, RunLoop.Enter(k, Get(p.host, S(Xstate))))
  {
    PayloadIsGivenItsContext(p);
    GivenParts(p);
    RegsCarry(p.g, p.host, p.entered);
  }

  ghost predicate WordsLeft(p: Pass, s: State) {
    forall r :: Get(s, M(p.g + Off(r))) == LeftWord(p, r)
  }

  lemma TakenWords(p: Pass, s: State)
    requires SlotsTaken(p, s)
    ensures WordsLeft(p, s)
  {
  }

  lemma SlotsCarry(p: Pass, s: State)
    requires WordsLeft(p, s)
    ensures AreaWords(p.g, s) == LeftWords(p)
  {
  }

  lemma FinalWords(p: Pass)
    requires OnePass(p)
    ensures AreaWords(p.g, p.final) == LeftWords(p) && Get(p.final, M(p.g + OFF_RIP)) == Get(p.atTrap, S(Rip))
  {
    ContextIsTaken(p);
    TakenWords(p, p.final);
    SlotsCarry(p, p.final);
  }

  lemma RegsAreLeft(p: Pass)
    requires OnePass(p)
    ensures AreaRegs(p.g, p.final) == LeftRegs(p)
  {
    FinalWords(p);
    RegsInArea(p.g, p.final, LeftWords(p), Get(p.atTrap, S(Rip)));
  }

  lemma RegsInArea(g: int, s: State, v: seq<int>, rip: int)
    requires AreaWords(g, s) == v && Get(s, M(g + OFF_RIP)) == rip
    ensures AreaRegs(g, s) == RegsOf(v, rip)
  {
  }

  lemma TrapIsLeft(p: Pass, u: RunLoop.Trap)
    requires OnePass(p)
    ensures TrapIn(p.g, p.final, TrapOf(p, u))
  {
    ContextIsTaken(p);
  }

  lemma LeavesAsVisit(p: Pass, k: RunLoop.State)
    requires OnePass(p) && Represents(p.g, p.host, p.xstateValid, k)
    ensures Represents(p.g, p.final, true,
                       RunLoop.Leave(RunLoop.Enter(k, Get(p.host, S(Xstate))), LeftRegs(p), Word(Get(p.atTrap, S(Cr2))), Get(p.atTrap, S(Xstate))))
  {
    RegsAreLeft(p);
    ContextIsTaken(p);
    HostRestored(p);
    GsWordStays(p);
  }

  /** One pass is one visit: the payload starts as RunLoop says, and afterwards the area holds the state
      and the trap that kkm_process_intr is given there; the host's extended state is back. */
  lemma PassIsVisit(p: Pass, k: RunLoop.State, u: RunLoop.Trap)
    requires OnePass(p) && Represents(p.g, p.host, p.xstateValid, k)
    ensures var r := VisitOf(p, u);
            var e := RunLoop.Visited(k, r);
            var left := RunLoop.Leave(e.start, r.regs, r.trap.cr2, r.payloadX);
            && StartsAs(p, e.start)
            && Represents(p.g, p.final, true, left) && TrapIn(p.g, p.final, r.trap)
            && (e.ret, e.after) == RunLoop.ProcessIntr(left, r.trap)
            && Get(p.final, S(Xstate)) == left.x.cpu
  {
    EntersAsVisit(p, k);
    LeavesAsVisit(p, k);
    TrapIsLeft(p, u);
    HostRestored(p);
  }

  /* ---- all passes of a call ---- */

  function RoundsOf(ps: seq<Pass>, us: seq<RunLoop.Trap>): seq<RunLoop.Round>
    requires |ps| == |us|
  {
    if ps == [] then [] else [VisitOf(ps[0], us[0])] + RoundsOf(ps[1..], us[1..])
  }

  /** Passes in a row, each from the state that the handlers made of the one before. */
  ghost predicate Chain(k: RunLoop.State, ps: seq<Pass>, us: seq<RunLoop.Trap>)
    requires |ps| == |us|
    decreases |ps|
  {
    ps != [] ==>
      && OnePass(ps[0]) && Represents(ps[0].g, ps[0].host, ps[0].xstateValid, k)
      && var e := RunLoop.Visited(k, VisitOf(ps[0], us[0]));
         Chain(RunLoop.CountTrap(e.after, e.no), ps[1..], us[1..])
  }

  /** A log that grew by entries whose passes start as they say. */
  ghost predicate Realised(ps: seq<Pass>, log: seq<RunLoop.Entry>, log': seq<RunLoop.Entry>) {
    && |log| <= |log'| <= |log| + |ps| && log'[..|log|] == log
    && forall i :: 0 <= i < |log'| - |log| ==> StartsAs(ps[i], log'[|log| + i].start)
  }

  lemma FirstAndLater(ps: seq<Pass>, log': seq<RunLoop.Entry>, log: seq<RunLoop.Entry>, e: RunLoop.Entry)
    requires ps != [] && StartsAs(ps[0], e.start)
    ensures Realised(ps, log, log + [e])
    ensures Realised(ps[1..], log + [e], log') ==> Realised(ps, log, log')
  {
    if Realised(ps[1..], log + [e], log') {
      assert log'[..|log|] == (log + [e])[..|log|] && log'[|log|] == (log + [e])[|log|];
      forall i | 0 <= i < |log'| - |log| ensures StartsAs(ps[i], log'[|log| + i].start) {
        if i > 0 { assert StartsAs(ps[1..][i - 1], log'[|log + [e]| + (i - 1)].start); }
      }
    }
  }

  /** The log of the run loop is what the machine does: every entry in it starts as its pass starts the
      payload. So what is proved of logs holds of passes. */
  lemma {:induction false} ChainIsRun(k: RunLoop.State, ps: seq<Pass>, us: seq<RunLoop.Trap>, log: seq<RunLoop.Entry>)
    requires |ps| == |us| && Chain(k, ps, us)
    ensures Realised(ps, log, RunLoop.Loop(k, RoundsOf(ps, us), log).log)
    decreases |ps|
  {
    if ps != [] {
      var r, rounds := VisitOf(ps[0], us[0]), RoundsOf(ps, us);
      var e := RunLoop.Visited(k, r);
      var counted := RunLoop.CountTrap(e.after, e.no);
      assert rounds[0] == r && rounds[1..] == RoundsOf(ps[1..], us[1..]);
      Kontexts.OneRound(k, rounds, log);
      PassIsVisit(ps[0], k, us[0]);
      ChainIsRun(counted, ps[1..], us[1..], log + [e]);
      FirstAndLater(ps, RunLoop.Loop(counted, rounds[1..], log + [e]).log, log, e);
    }
  }

  /* ---- the gs base, which no program of a pass writes in the area ---- */

  lemma GsWordStays(p: Pass)
    requires OnePass(p)
    ensures Get(p.final, M(p.g + OFF_GS_BASE)) == Get(p.host, M(p.g + OFF_GS_BASE))
  {
    ContextToEntry(p);
    GsWordEntering(p);
    GsWordRunning(p);
    GsWordLeaving(p);
    FieldsToTheEnd(p);
  }

  lemma GsWordEntering(p: Pass)
    requires OnePass(p)
    ensures Get(p.entered, M(p.g + OFF_GS_BASE)) == Get(p.atEntry, M(p.g + OFF_GS_BASE))
  {
    DoesStart(p);
    DoesEnter(p);
  }

  lemma GsWordRunning(p: Pass)
    requires OnePass(p)
    ensures Get(p.arrived, M(p.g + OFF_GS_BASE)) == Get(p.entered, M(p.g + OFF_GS_BASE))
  {
    DoesRun(p);
    DoesArrive(p);
  }

  lemma GsWordLeaving(p: Pass)
    requires OnePass(p)
    ensures Get(p.exited, M(p.g + OFF_GS_BASE)) == Get(p.arrived, M(p.g + OFF_GS_BASE))
  {
    ExitSaves(p);
    GsWordSaved(p.g, GuestCr3(p), p.arrived, p.exited);
  }

  lemma GsWordSaved(g: int, cr3: int, s: State, s': State)
    requires ContextSaved(g, cr3, s, s')
    ensures Get(s', M(g + OFF_GS_BASE)) == Get(s, M(g + OFF_GS_BASE))
  {
  }
}
