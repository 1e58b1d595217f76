/** The lazy TLB flush: a payload never runs on a CPU that holds translations another kontainer
    loaded under the guest PCIDs. Kontainers are told apart by their birth, ids by number. */
module TlbIsolation {
  import opened Constants

  const INVALID_ID := TWO_64 - 1

  /** The decision in kkm_kontext_switch_kernel, for processors with PCID. */
  predicate MustFlush(lazy: bool, cpu: int, lastCpu: int, id: nat, lastId: nat) {
    !lazy || cpu != lastCpu || id != lastId
  }

  /** A flush is saved only if it may be lazy and both the thread was last here and the CPU last ran its kontainer. */
  lemma FlushIsSaved(lazy: bool, cpu: int, lastCpu: int, id: nat, lastId: nat)
    ensures !MustFlush(lazy, cpu, lastCpu, id, lastId) <==> lazy && lastCpu == cpu && lastId == id
  {
  }

  /** kkm_idt.desc_entries[].last_id */
  class IdTable {
    const lastId: array<nat>

    constructor (cpus: nat)
      ensures fresh(lastId) && lastId.Length == cpus
      ensures forall c :: 0 <= c < cpus ==> lastId[c] == INVALID_ID
    {
      lastId := new nat[cpus](_ => INVALID_ID);
    }

    /** The flush decision, and the record of who runs next. */
    method Claim(cpu: nat, lastCpu: int, id: nat, lazy: bool, fullFlush: bool) returns (flush: bool)
      requires cpu < lastId.Length
      modifies lastId
      ensures flush <==> !fullFlush && (!lazy || cpu != lastCpu || id != old(lastId[cpu]))
      ensures lastId[..] == old(lastId[..])[cpu := id]
    {
      flush := false;
      if !fullFlush {
        if !lazy || cpu != lastCpu || id != lastId[cpu] {
          flush := true;
        }
      }
      lastId[cpu] := id;
      assert lastId[..] == old(lastId[..])[cpu := id];
    }
  }

  /** A kontext: the kontainer it belongs to, and ga->cpu (-1 before its first entry). */
  datatype Thread = Thread(kontainer: nat, lastCpu: int)

  /** A CPU: its last id, the kontainers whose guest translations it may hold, and who runs. */
  datatype Cpu = Cpu(lastId: nat, holds: set<nat>, running: int)

  const IDLE := -1

  /** The whole machine. ids[b] is the id of the kontainer born b-th; objectId is kkm_object_id, which
      kkm_init sets at its end, after it has registered the device. */
  datatype System = System(fullFlush: bool, lazy: bool, initialized: bool, objectId: nat, ids: seq<nat>, live: set<nat>,
                           threads: seq<Thread>, cpus: seq<Cpu>)

  datatype Event = FinishInit | CreateKontainer | CreateKontext(kontainer: nat) | Destroy(kontainer: nat)
                 | EnterPayload(thread: nat, cpu: nat) | Access(cpu: nat) | ExitPayload(cpu: nat) | SetLazy(on: bool)

  /** Creation is possible until the counter is about to wrap around. */
  predicate Possible(s: System, e: Event) {
    match e
    case FinishInit => !s.initialized
    case CreateKontainer => s.objectId + 1 < TWO_64
    case CreateKontext(b) => b in s.live && s.objectId + 1 < TWO_64
    case Destroy(b) => b in s.live && forall c :: 0 <= c < |s.cpus| && 0 <= s.cpus[c].running < |s.threads| ==>
                                         s.threads[s.cpus[c].running].kontainer != b
    case EnterPayload(t, c) => t < |s.threads| && c < |s.cpus| && s.cpus[c].running == IDLE && s.threads[t].kontainer in s.live
                               && s.threads[t].kontainer < |s.ids|
                               && forall d :: 0 <= d < |s.cpus| ==> s.cpus[d].running != t
    case Access(c) => c < |s.cpus| && 0 <= s.cpus[c].running < |s.threads|
    case ExitPayload(c) => c < |s.cpus| && 0 <= s.cpus[c].running
    case _ => true
  }

  /** atomic64_inc_return on kkm_object_id */
  function NextId(objectId: nat): nat {
    (objectId + 1) % TWO_64
  }

  function Apply(s: System, e: Event): System
    requires Possible(s, e)
  {
    match e
    case FinishInit => s.(initialized := true, objectId := 1)
    case CreateKontainer =>
      s.(objectId := NextId(s.objectId), ids := s.ids + [NextId(s.objectId)], live := s.live + {|s.ids|})
    case CreateKontext(b) => s.(objectId := NextId(s.objectId), threads := s.threads + [Thread(b, -1)])
    case Destroy(b) => s.(live := s.live - {b})
    case EnterPayload(t, c) =>
      var id, cpu := s.ids[s.threads[t].kontainer], s.cpus[c];
      var emptied := s.fullFlush || MustFlush(s.lazy, c, s.threads[t].lastCpu, id, cpu.lastId);
      s.(threads := s.threads[t := s.threads[t].(lastCpu := c)],
         cpus := s.cpus[c := Cpu(id, if emptied then {} else cpu.holds, t)])
    case Access(c) =>
      var cpu := s.cpus[c];
      s.(cpus := s.cpus[c := cpu.(holds := cpu.holds + {s.threads[cpu.running].kontainer})])
    case ExitPayload(c) => s.(cpus := s.cpus[c := s.cpus[c].(running := IDLE)])
    case SetLazy(on) => s.(lazy := on)
  }

  /** When kkm_init registers the device. */
  predicate Initial(s: System) {
    && !s.initialized && s.objectId == 0 && s.ids == [] && s.live == {} && s.threads == []
    && forall c :: 0 <= c < |s.cpus| ==> s.cpus[c] == Cpu(INVALID_ID, {}, IDLE)
  }

  predicate PossibleRun(s: System, run: seq<Event>)
    decreases |run|, 0
  {
    run != [] ==> PossibleRun(s, run[..|run| - 1]) && Possible(Play(s, run[..|run| - 1]), run[|run| - 1])
  }

  function Play(s: System, run: seq<Event>): System
    requires PossibleRun(s, run)
    decreases |run|, 1
  {
    if run == [] then s else Apply(Play(s, run[..|run| - 1]), run[|run| - 1])
  }

  /** A running payload finds only its own kontainer's translations. */
  ghost predicate Isolated(s: System) {
    forall c, b :: 0 <= c < |s.cpus| && 0 <= s.cpus[c].running < |s.threads| && b in s.cpus[c].holds ==>
      b == s.threads[s.cpus[c].running].kontainer
  }

  /** Live kontainers have ids of their own, none above the counter. Who runs on a CPU has its last id,
      and any thread that would enter it without a flush finds only its own kontainer's translations. */
  ghost predicate Inv(s: System) {
    && (forall b :: b in s.live ==> b < |s.ids| && s.ids[b] <= s.objectId)
    && (forall b, d :: b in s.live && d in s.live && s.ids[b] == s.ids[d] ==> b == d)
    && (forall t :: 0 <= t < |s.threads| ==> s.threads[t].kontainer < |s.ids|)
    && (forall c :: 0 <= c < |s.cpus| ==> CpuInv(s, c))
  }

  ghost predicate CpuInv(s: System, c: nat)
    requires c < |s.cpus| && forall t :: 0 <= t < |s.threads| ==> s.threads[t].kontainer < |s.ids|
  {
    var cpu := s.cpus[c];
    && IDLE <= cpu.running < |s.threads|
    && (cpu.running != IDLE ==>
          var r := s.threads[cpu.running];
          r.kontainer in s.live && r.lastCpu == c && s.ids[r.kontainer] == cpu.lastId && cpu.holds <= {r.kontainer})
    && (forall t :: 0 <= t < |s.threads| && NeedsNoFlush(s, s.threads[t], c) ==> cpu.holds <= {s.threads[t].kontainer})
  }

  /** The thread would find its own traces on the CPU. */
  predicate NeedsNoFlush(s: System, t: Thread, c: nat)
    requires c < |s.cpus| && t.kontainer < |s.ids|
  {
    t.kontainer in s.live && t.lastCpu == c && s.ids[t.kontainer] == s.cpus[c].lastId
  }

  /** When kkm_init sets the counter to 1, no live kontainer has an id that will be given out again. */
  predicate Timely(s: System, e: Event) {
    e.FinishInit? ==> forall b :: b in s.live && b < |s.ids| ==> s.ids[b] <= 1
  }

  predicate TimelyRun(s: System, run: seq<Event>)
    requires PossibleRun(s, run)
  {
    run != [] ==> TimelyRun(s, run[..|run| - 1]) && Timely(Play(s, run[..|run| - 1]), run[|run| - 1])
  }

  lemma KontainerKeepsInv(s: System)
    requires Inv(s) && Possible(s, CreateKontainer)
    ensures Inv(Apply(s, CreateKontainer))
  {
    var s' := Apply(s, CreateKontainer);
    forall c: nat | c < |s'.cpus| ensures CpuInv(s', c) {
      assert CpuInv(s, c);
    }
  }

  lemma KontextKeepsInv(s: System, b: nat)
    requires Inv(s) && Possible(s, CreateKontext(b))
    ensures Inv(Apply(s, CreateKontext(b)))
  {
    var s' := Apply(s, CreateKontext(b));
    forall c: nat | c < |s'.cpus| ensures CpuInv(s', c) {
      assert CpuInv(s, c);
    }
  }

  /** The heart of it: what an entry without a flush finds is its own. */
  lemma EntryKeepsInv(s: System, t: nat, on: nat)
    requires Inv(s) && Possible(s, EnterPayload(t, on))
    ensures Inv(Apply(s, EnterPayload(t, on)))
  {
    var s' := Apply(s, EnterPayload(t, on));
    assert CpuInv(s, on);
    forall c: nat | c < |s'.cpus| ensures CpuInv(s', c) {
      assert CpuInv(s, c);
    }
  }

  lemma AccessKeepsInv(s: System, on: nat)
    requires Inv(s) && Possible(s, Access(on))
    ensures Inv(Apply(s, Access(on)))
  {
    var s' := Apply(s, Access(on));
    forall c: nat | c < |s'.cpus| ensures CpuInv(s', c) {
      assert CpuInv(s, c);
    }
  }

  lemma OtherEventsKeepInv(s: System, e: Event)
    requires Inv(s) && Possible(s, e) && Timely(s, e)
    requires e.FinishInit? || e.SetLazy? || e.Destroy? || e.ExitPayload?
    ensures Inv(Apply(s, e))
  {
    var s' := Apply(s, e);
    forall c: nat | c < |s'.cpus| ensures CpuInv(s', c) {
      assert CpuInv(s, c);
    }
  }

  lemma StepKeepsInv(s: System, e: Event)
    requires Inv(s) && Possible(s, e) && Timely(s, e)
    ensures Inv(Apply(s, e))
  {
    match e
    case CreateKontainer => KontainerKeepsInv(s);
    case CreateKontext(b) => KontextKeepsInv(s, b);
    case EnterPayload(t, c) => EntryKeepsInv(s, t, c);
    case Access(c) => AccessKeepsInv(s, c);
    case _ => OtherEventsKeepInv(s, e);
  }

  lemma InvIsolates(s: System)
    requires Inv(s)
    ensures Isolated(s)
  {
    forall c, b | 0 <= c < |s.cpus| && 0 <= s.cpus[c].running < |s.threads| && b in s.cpus[c].holds
      ensures b == s.threads[s.cpus[c].running].kontainer
    {
      assert CpuInv(s, c);
    }
  }

  lemma {:induction false} RunKeepsInv(s: System, run: seq<Event>)
    requires Inv(s) && PossibleRun(s, run) && TimelyRun(s, run)
    ensures Inv(Play(s, run))
  {
    if run != [] {
      RunKeepsInv(s, run[..|run| - 1]);
      StepKeepsInv(Play(s, run[..|run| - 1]), run[|run| - 1]);
    }
  }

  /** Under any interleaving of creation, destruction, migration, entries, exits and changes of
      lazy_flush_tlb, with and without PCID, provided kkm_init ends in time. */
  lemma PayloadsAreIsolated(s: System, run: seq<Event>)
    requires Initial(s) && PossibleRun(s, run) && TimelyRun(s, run)
    ensures Isolated(Play(s, run))
  {
    RunKeepsInv(s, run);
    InvIsolates(Play(s, run));
  }

  /* ---- the proviso is exact ---- */

  lemma Then(s: System, run: seq<Event>, now: System, e: Event, next: System)
    requires PossibleRun(s, run) && Play(s, run) == now && Possible(now, e) && Apply(now, e) == next
    ensures PossibleRun(s, run + [e]) && Play(s, run + [e]) == next
  {
    assert (run + [e])[..|run|] == run;
  }

  /** n kontainers more, with the next n ids. */
  lemma {:induction false} CreateMany(s: System, run: seq<Event>, now: System, n: nat) returns (run': seq<Event>, next: System)
    requires PossibleRun(s, run) && Play(s, run) == now && now.objectId + n < TWO_64
    ensures PossibleRun(s, run') && Play(s, run') == next
    ensures next == now.(objectId := now.objectId + n, ids := next.ids, live := next.live)
    ensures now.ids <= next.ids && |next.ids| == |now.ids| + n && now.live <= next.live
    ensures forall i :: |now.ids| <= i < |next.ids| ==> i in next.live && next.ids[i] == now.objectId + 1 + (i - |now.ids|)
  {
    run', next := run, now;
    if n > 0 {
      run', next := CreateMany(s, run, now, n - 1);
      Then(s, run', next, CreateKontainer, Apply(next, CreateKontainer));
      run', next := run' + [CreateKontainer], Apply(next, CreateKontainer);
    }
  }

  /** CPU 0 is idle, and thread t, not there last, may enter it. */
  predicate MayVisit(s: System, t: nat) {
    && |s.cpus| > 0 && s.cpus[0].running == IDLE && t < |s.threads|
    && s.threads[t].kontainer in s.live && s.threads[t].kontainer < |s.ids|
    && forall d :: 0 <= d < |s.cpus| ==> s.cpus[d].running != t
  }

  function Visited(s: System, t: nat): System
    requires MayVisit(s, t)
  {
    var b := s.threads[t].kontainer;
    s.(threads := s.threads[t := Thread(b, 0)], cpus := s.cpus[0 := Cpu(s.ids[b], {b}, IDLE)])
  }

  /** A thread new to the CPU empties its TLB, and leaves its own translations. */
  lemma Visit(s: System, run: seq<Event>, now: System, t: nat) returns (run': seq<Event>)
    requires PossibleRun(s, run) && Play(s, run) == now && MayVisit(now, t) && now.threads[t].lastCpu != 0
    ensures PossibleRun(s, run') && Play(s, run') == Visited(now, t)
  {
    var b := now.threads[t].kontainer;
    var in0 := now.(threads := now.threads[t := Thread(b, 0)], cpus := now.cpus[0 := Cpu(now.ids[b], {}, t)]);
    var in1 := in0.(cpus := now.cpus[0 := Cpu(now.ids[b], {b}, t)]);
    assert {} + {b} == {b};
    Then(s, run, now, EnterPayload(t, 0), in0);
    Then(s, run + [EnterPayload(t, 0)], in0, Access(0), in1);
    Then(s, run + [EnterPayload(t, 0)] + [Access(0)], in1, ExitPayload(0), Visited(now, t));
    run' := run + [EnterPayload(t, 0)] + [Access(0)] + [ExitPayload(0)];
  }

  /** Two live kontainers with one id: new threads of both take turns on CPU 0, and the first one comes
      back to the other's translations. */
  lemma SameIdMixes(s: System, run: seq<Event>, now: System, b: nat, d: nat) returns (run': seq<Event>)
    requires PossibleRun(s, run) && Play(s, run) == now && Inv0(now) && now.lazy && !now.fullFlush
    requires |now.cpus| > 0 && now.cpus[0].running == IDLE && now.objectId + 2 < TWO_64
    requires b in now.live && d in now.live && b != d && b < |now.ids| && d < |now.ids| && now.ids[b] == now.ids[d]
    ensures PossibleRun(s, run') && !Isolated(Play(s, run'))
  {
    var t := |now.threads|;
    var one := Apply(now, CreateKontext(b));
    var two := Apply(one, CreateKontext(d));
    Then(s, run, now, CreateKontext(b), one);
    Then(s, run + [CreateKontext(b)], one, CreateKontext(d), two);
    var r1 := Visit(s, run + [CreateKontext(b)] + [CreateKontext(d)], two, t);
    var three := Visited(two, t);
    var r2 := Visit(s, r1, three, t + 1);
    var four := Visited(three, t + 1);
    Then(s, r2, four, EnterPayload(t, 0), Apply(four, EnterPayload(t, 0)));
    run' := r2 + [EnterPayload(t, 0)];
    assert d in Play(s, run').cpus[0].holds && Play(s, run').cpus[0].running == t && Play(s, run').threads[t].kontainer == b;
  }

  /** Running threads exist. */
  predicate Inv0(s: System) {
    forall c :: 0 <= c < |s.cpus| ==> IDLE <= s.cpus[c].running < |s.threads|
  }

  /** On a machine with PCID: at the end of kkm_init, exactly when no live kontainer has an id above 1 are
      payloads isolated in every run to come. Otherwise a later kontainer gets that id as well. */
  lemma IsolatedExactlyWhenTimely(s: System)
    requires Inv(s) && Possible(s, FinishInit) && !s.fullFlush && |s.cpus| > 0 && s.objectId + 3 < TWO_64
    ensures Timely(s, FinishInit) <==>
            forall run :: PossibleRun(Apply(s, FinishInit), run) ==> Isolated(Play(Apply(s, FinishInit), run))
  {
    var s1 := Apply(s, FinishInit);
    if Timely(s, FinishInit) {
      StepKeepsInv(s, FinishInit);
      forall run | PossibleRun(s1, run) ensures Isolated(Play(s1, run)) {
        InitializedIsTimely(s1, run);
        RunKeepsInv(s1, run);
        InvIsolates(Play(s1, run));
      }
    } else {
      var b :| b in s.live && b < |s.ids| && s.ids[b] > 1;
      var run := EarlyIdComesBack(s, b);
    }
  }

  lemma {:induction false} InitializedIsTimely(s: System, run: seq<Event>)
    requires s.initialized && PossibleRun(s, run)
    ensures TimelyRun(s, run) && Play(s, run).initialized
  {
    if run != [] {
      InitializedIsTimely(s, run[..|run| - 1]);
    }
  }

  lemma EarlyIdComesBack(s: System, b: nat) returns (run: seq<Event>)
    requires Inv(s) && Possible(s, FinishInit) && !s.fullFlush && |s.cpus| > 0 && s.objectId + 3 < TWO_64
    requires b in s.live && b < |s.ids| && s.ids[b] > 1
    ensures var s1 := Apply(s, FinishInit); PossibleRun(s1, run) && !Isolated(Play(s1, run))
  {
    var s1 := Apply(s, FinishInit);
    assert CpuInv(s, 0);
    forall c: nat | c < |s.cpus| ensures IDLE <= s.cpus[c].running < |s.threads| { assert CpuInv(s, c); }
    var r, now := [], s1;
    if now.cpus[0].running != IDLE {
      Then(s1, r, now, ExitPayload(0), Apply(now, ExitPayload(0)));
      r, now := r + [ExitPayload(0)], Apply(now, ExitPayload(0));
    }
    Then(s1, r, now, SetLazy(true), now.(lazy := true));
    r, now := r + [SetLazy(true)], now.(lazy := true);
    var n := s.ids[b] - 1;
    var r', next := CreateMany(s1, r, now, n);
    run := SameIdMixes(s1, r', next, b, |s.ids| + n - 1);
  }

  /** It does happen: two kontainers created between the registration of the device and the end of kkm_init. */
  lemma EarlyKontainersMix(s: System)
    requires Initial(s) && !s.fullFlush && |s.cpus| > 0
    ensures var run := [CreateKontainer] + [CreateKontainer]; PossibleRun(s, run) && !Timely(Play(s, run), FinishInit)
    ensures exists run :: PossibleRun(s, run) && !Isolated(Play(s, run))
  {
    TwoEarly(s);
    var r2 := [CreateKontainer] + [CreateKontainer];
    assert 1 in Play(s, r2).live && Play(s, r2).ids[1] == 2;
    var run := EarlyMix(s, r2, Play(s, r2));
  }

  lemma EarlyMix(s: System, before: seq<Event>, now: System) returns (run: seq<Event>)
    requires PossibleRun(s, before) && Play(s, before) == now && Inv(now) && Possible(now, FinishInit)
    requires !now.fullFlush && |now.cpus| > 0 && now.objectId + 3 < TWO_64
    requires 1 in now.live && 1 < |now.ids| && now.ids[1] > 1
    ensures PossibleRun(s, run) && !Isolated(Play(s, run))
  {
    var more := EarlyIdComesBack(now, 1);
    var next := Apply(now, FinishInit);
    Then(s, before, now, FinishInit, next);
    RunsJoin(s, before + [FinishInit], next, more);
    run := before + [FinishInit] + more;
  }

  lemma TwoEarly(s: System)
    requires Initial(s)
    ensures var run := [CreateKontainer] + [CreateKontainer];
            PossibleRun(s, run) && Play(s, run) == s.(objectId := 2, ids := [1, 2], live := {0, 1}) && Inv(Play(s, run))
  {
    var s1, s2 := s.(objectId := 1, ids := [1], live := {0}), s.(objectId := 2, ids := [1, 2], live := {0, 1});
    assert [] + [CreateKontainer] == [CreateKontainer];
    Then(s, [], s, CreateKontainer, s1);
    Then(s, [CreateKontainer], s1, CreateKontainer, s2);
    StepKeepsInv(s, CreateKontainer);
    StepKeepsInv(s1, CreateKontainer);
  }

  lemma OneStepJoins(s: System, run: seq<Event>, mid: System, more: seq<Event>, e: Event)
    requires PossibleRun(mid, more + [e]) && PossibleRun(mid, more)
    requires PossibleRun(s, run + more) && Play(s, run + more) == Play(mid, more)
    ensures PossibleRun(s, run + more + [e]) && Play(s, run + more + [e]) == Play(mid, more + [e])
  {
    assert (more + [e])[..|more|] == more;
    Then(s, run + more, Play(mid, more), e, Play(mid, more + [e]));
  }

  lemma ShorterRun(s: System, run: seq<Event>)
    requires PossibleRun(s, run) && run != []
    ensures PossibleRun(s, run[..|run| - 1])
  {
  }

  lemma LastApart(run: seq<Event>)
    requires run != []
    ensures run == run[..|run| - 1] + [run[|run| - 1]]
  {
  }

  lemma LastJoins(s: System, run: seq<Event>, mid: System, init: seq<Event>, e: Event, more: seq<Event>)
    requires more == init + [e] && PossibleRun(mid, more) && PossibleRun(mid, init)
    requires PossibleRun(s, run + init) && Play(s, run + init) == Play(mid, init)
    ensures PossibleRun(s, run + more) && Play(s, run + more) == Play(mid, more)
  {
    OneStepJoins(s, run, mid, init, e);
    assert run + more == run + init + [e];
  }

  lemma {:induction false} RunsJoin(s: System, run: seq<Event>, mid: System, more: seq<Event>)
    requires PossibleRun(s, run) && Play(s, run) == mid && PossibleRun(mid, more)
    ensures PossibleRun(s, run + more) && Play(s, run + more) == Play(mid, more)
    decreases |more|
  {
    if more == [] {
      assert run + more == run;
    } else {
      var init, e := more[..|more| - 1], more[|more| - 1];
      LastApart(more);
      ShorterRun(mid, more);
      RunsJoin(s, run, mid, init);
      LastJoins(s, run, mid, init, e, more);
    }
  }
}
