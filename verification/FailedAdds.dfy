/** kkm_add_execution_kontext when a descriptor or pages cannot be had: who is counted, and what that
    does to the kontainer's end. */
module FailedAdds {
  import opened Constants
  import opened Lifetime

  /** struct kkm's two counts, its own descriptor, the slots in use and the kontexts' descriptors. */
  datatype Counts = Counts(references: int, kontexts: nat, fdOpen: bool, used: int, open: nat)

  /** An add gets a descriptor for its kontext or not, and then all its pages or not. One that gets no
      object for an empty slot changes nothing, and is no event here. */
  datatype Event = Add(descriptor: bool, pages: bool) | Release | Close

  const Created := Counts(1, 0, true, 0, 0)

  function One(b: bool): nat { if b then 1 else 0 }

  function Holders(s: Counts): nat { One(s.fdOpen) + s.open }

  predicate Destroyed(s: Counts) { s.references == 0 }

  /** The test against the kontext count. */
  predicate Admitted(s: Counts) { s.kontexts < MAX_CONTEXTS }

  /** The search for a free slot stays in the table. */
  predicate SlotFree(s: Counts) { s.used < MAX_CONTEXTS }

  predicate Possible(s: Counts, e: Event) {
    && !Destroyed(s)
    && match e
       case Add(_, _) => s.fdOpen && (Admitted(s) ==> SlotFree(s))
       case Release => s.open > 0
       case Close => s.fdOpen
  }

  /** A slot is marked used and a descriptor installed before the pages are allocated, and only then is
      anything counted. A descriptor's release counts down in every case. */
  function Apply(s: Counts, e: Event): Counts
    requires Possible(s, e)
  {
    match e
    case Add(descriptor, pages) =>
      if !Admitted(s) then s
      else Counts(s.references + One(pages), (s.kontexts + One(pages)) % TWO_32, s.fdOpen, s.used + 1, s.open + One(descriptor))
    case Release => Counts(s.references - 1, (s.kontexts - 1) % TWO_32, s.fdOpen, s.used - 1, s.open - 1)
    case Close => s.(references := s.references - 1, fdOpen := false)
  }

  predicate PossibleRun(s: Counts, run: seq<Event>)
    decreases |run|, 0
  {
    run != [] ==> PossibleRun(s, run[..|run| - 1]) && Possible(Play(s, run[..|run| - 1]), run[|run| - 1])
  }

  function Play(s: Counts, run: seq<Event>): Counts
    requires PossibleRun(s, run)
    decreases |run|, 1
  {
    if run == [] then s else Apply(Play(s, run[..|run| - 1]), run[|run| - 1])
  }

  /** Counted adds without a descriptor, less uncounted ones with one. */
  function Surplus(s: Counts, run: seq<Event>): int
    requires PossibleRun(s, run)
  {
    if run == [] then 0 else
      var n, e := |run| - 1, run[|run| - 1];
      Surplus(s, run[..n]) + if e.Add? && Admitted(Play(s, run[..n])) then One(e.pages) - One(e.descriptor) else 0
  }

  ghost predicate Booked(s: Counts, surplus: int) {
    s.references == Holders(s) + surplus && s.kontexts == (s.open + surplus) % TWO_32
  }

  lemma StepIsBooked(s: Counts, e: Event, surplus: int)
    requires Possible(s, e) && Booked(s, surplus)
    ensures Booked(Apply(s, e), surplus + if e.Add? && Admitted(s) then One(e.pages) - One(e.descriptor) else 0)
  {
    WrapAround(s.open + surplus, 1);
    WrapAround(s.open + surplus, -1);
  }

  lemma WrapAround(a: int, d: int)
    requires d == 1 || d == -1
    ensures (a % TWO_32 + d) % TWO_32 == (a + d) % TWO_32
  {
  }

  /** The books, over any run: what is counted is what is open, but for the surplus. */
  lemma {:induction false} CountsFollowSurplus(run: seq<Event>)
    requires PossibleRun(Created, run)
    ensures Booked(Play(Created, run), Surplus(Created, run))
  {
    if run != [] {
      var n := |run| - 1;
      CountsFollowSurplus(run[..n]);
      StepIsBooked(Play(Created, run[..n]), run[n], Surplus(Created, run[..n]));
    }
  }

  /** No failing add. */
  predicate Flawless(run: seq<Event>) {
    forall e :: e in run && e.Add? ==> e.descriptor && e.pages
  }

  lemma {:induction false} FlawlessKeepsSurplus(s: Counts, run: seq<Event>)
    requires PossibleRun(s, run) && Flawless(run)
    ensures Play(s, run).references - Holders(Play(s, run)) == s.references - Holders(s)
  {
    if run != [] {
      FlawlessKeepsSurplus(s, run[..|run| - 1]);
    }
  }

  lemma Then(s: Counts, run: seq<Event>, now: Counts, e: Event)
    requires PossibleRun(s, run) && Play(s, run) == now && Possible(now, e)
    ensures PossibleRun(s, run + [e]) && Play(s, run + [e]) == Apply(now, e)
  {
    assert (run + [e])[..|run|] == run;
  }

  /** Descriptors closed one by one, until all are closed or the kontainer is gone. */
  lemma {:induction false} WindDown(s: Counts, run: seq<Event>, now: Counts) returns (run': seq<Event>)
    requires PossibleRun(s, run) && Flawless(run) && Play(s, run) == now && now.references >= 0
    ensures PossibleRun(s, run') && Flawless(run')
    ensures Destroyed(Play(s, run')) || Holders(Play(s, run')) == 0
    decreases now.references
  {
    run' := run;
    if !Destroyed(now) && Holders(now) > 0 {
      var e := if now.open > 0 then Release else Close;
      Then(s, run, now, e);
      run' := WindDown(s, run + [e], Apply(now, e));
    }
  }

  /** From here on the kontainer goes exactly with its last descriptor, if nothing more fails. */
  ghost predicate GoesWithTheLast(s: Counts) {
    forall more :: PossibleRun(s, more) && Flawless(more) ==> (Destroyed(Play(s, more)) <==> Holders(Play(s, more)) == 0)
  }

  /** ... if and only if failed adds were as often without a descriptor as without pages. */
  lemma GoesWithTheLastExactly(run: seq<Event>)
    requires PossibleRun(Created, run)
    ensures GoesWithTheLast(Play(Created, run)) <==> Surplus(Created, run) == 0
  {
    var s := Play(Created, run);
    CountsFollowSurplus(run);
    SlotsFollowCount(Created, 0, run);
    if Surplus(Created, run) == 0 {
      forall more | PossibleRun(s, more) && Flawless(more) ensures Destroyed(Play(s, more)) <==> Holders(Play(s, more)) == 0 {
        FlawlessKeepsSurplus(s, more);
      }
    } else {
      var more := WindDown(s, [], s);
      FlawlessKeepsSurplus(s, more);
      assert !(Destroyed(Play(s, more)) <==> Holders(Play(s, more)) == 0);
    }
  }

  /** One add without pages: closing its descriptor ends the kontainer while its own is open. */
  lemma GoneTooEarly()
    ensures var run := [Add(true, false)] + [Release];
            PossibleRun(Created, run) && Destroyed(Play(Created, run)) && Play(Created, run).fdOpen
  {
    assert [] + [Add(true, false)] == [Add(true, false)];
    Then(Created, [], Created, Add(true, false));
    Then(Created, [Add(true, false)], Apply(Created, Add(true, false)), Release);
  }

  /* ---- the search for a slot ---- */

  function NoPages(s: Counts, e: Event): nat {
    if e.Add? && Admitted(s) then One(!e.pages) else 0
  }

  /** Admitted adds without pages. */
  function Pageless(s: Counts, run: seq<Event>): nat
    requires PossibleRun(s, run)
  {
    if run == [] then 0 else
      var n := |run| - 1;
      Pageless(s, run[..n]) + NoPages(Play(s, run[..n]), run[n])
  }

  /** As long as adds are possible, the count is short of the slots in use by those without pages. */
  predicate Lags(s: Counts, pageless: nat) {
    && s.references >= 0 && s.used <= MAX_CONTEXTS
    && (s.fdOpen && !Destroyed(s) ==> s.kontexts == s.references - 1 == s.used - pageless)
  }

  lemma StepLags(s: Counts, e: Event, pageless: nat)
    requires Lags(s, pageless) && Possible(s, e)
    ensures Lags(Apply(s, e), pageless + NoPages(s, e))
  {
  }

  lemma {:induction false} SlotsFollowCount(s: Counts, pageless: nat, run: seq<Event>)
    requires Lags(s, pageless) && PossibleRun(s, run)
    ensures Lags(Play(s, run), pageless + Pageless(s, run))
  {
    if run != [] {
      var n := |run| - 1;
      SlotsFollowCount(s, pageless, run[..n]);
      StepLags(Play(s, run[..n]), run[n], pageless + Pageless(s, run[..n]));
    }
  }

  /** An add that passes the test against the count finds a free slot. */
  predicate SearchEnds(s: Counts) {
    s.fdOpen && !Destroyed(s) && Admitted(s) ==> SlotFree(s)
  }

  /** From here on it always does, if nothing more fails. */
  ghost predicate StaysInTable(s: Counts) {
    forall more :: PossibleRun(s, more) && Flawless(more) ==> SearchEnds(Play(s, more))
  }

  lemma {:induction false} FlawlessHasPages(s: Counts, run: seq<Event>)
    requires PossibleRun(s, run) && Flawless(run)
    ensures Pageless(s, run) == 0
  {
    if run != [] {
      assert run[|run| - 1] in run;
      FlawlessHasPages(s, run[..|run| - 1]);
    }
  }

  /** n slots more, all counted. */
  lemma {:induction false} FillUp(s: Counts, pageless: nat, n: nat) returns (run: seq<Event>)
    requires s.fdOpen && !Destroyed(s) && Lags(s, pageless) && pageless > 0 && s.used + n <= MAX_CONTEXTS
    ensures PossibleRun(s, run) && Flawless(run) && Lags(Play(s, run), pageless)
    ensures Play(s, run).fdOpen && !Destroyed(Play(s, run)) && Play(s, run).used == s.used + n
  {
    run := [];
    if n > 0 {
      run := FillUp(s, pageless, n - 1);
      var now := Play(s, run);
      StepLags(now, Add(true, true), pageless);
      Then(s, run, now, Add(true, true));
      run := run + [Add(true, true)];
    }
  }

  /** The search for a slot stays in the table if and only if every add so far that passed the test got
      its pages; whether it got a descriptor does not matter here. */
  lemma StaysInTableExactly(run: seq<Event>)
    requires PossibleRun(Created, run) && Play(Created, run).fdOpen && !Destroyed(Play(Created, run))
    ensures StaysInTable(Play(Created, run)) <==> Pageless(Created, run) == 0
  {
    var s, n := Play(Created, run), Pageless(Created, run);
    SlotsFollowCount(Created, 0, run);
    if n == 0 {
      forall more | PossibleRun(s, more) && Flawless(more) ensures SearchEnds(Play(s, more)) {
        FlawlessHasPages(s, more);
        SlotsFollowCount(s, 0, more);
      }
    } else {
      var more := FillUp(s, n, MAX_CONTEXTS - s.used);
      assert !SearchEnds(Play(s, more));
    }
  }

  /** Without pages for n adds, n slots are taken and none is counted ... */
  lemma {:induction false} Uncounted(n: nat) returns (run: seq<Event>)
    requires n <= MAX_CONTEXTS
    ensures PossibleRun(Created, run) && Play(Created, run) == Counts(1, 0, true, n, n)
  {
    run := [];
    if n > 0 {
      run := Uncounted(n - 1);
      Then(Created, run, Counts(1, 0, true, n - 1, n - 1), Add(true, false));
      run := run + [Add(true, false)];
    }
  }

  /** ... so that the next one passes the test, and its search leaves the table. */
  lemma SearchLeavesTable()
    ensures exists run :: PossibleRun(Created, run) && Admitted(Play(Created, run)) && !SlotFree(Play(Created, run))
  {
    var run := Uncounted(MAX_CONTEXTS);
  }
}
