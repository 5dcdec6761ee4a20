/** What the report of a backfill invocation says, told from the results it was given and from the cursors it leaves. */
module BackfillReport {
  import opened Wrappers
  import opened Tally
  import opened Quota
  import opened IngestionMetrics
  import opened FetchPipeline
  import opened Degrade
  import opened SeasonBackfill
  import opened BackfillExactlyOnce
  import opened BackfillProgress

  type Results = seq<(Fetch, FetchResult)>

  // ---------------------------------------------------------------------------------
  // The counters.

  function UsedIn(got: Results): nat {
    if got == [] then 0 else UsedIn(got[..|got| - 1]) + One(got[|got| - 1].1.status == WasFetched)
  }

  /** One line for each result with an error: workload, resource, message. */
  function ErrorsIn(got: Results): seq<string> {
    if got == [] then []
    else
      var (f, r) := got[|got| - 1];
      ErrorsIn(got[..|got| - 1])
      + if r.error.Some? then [WorkloadName(f.workload) + ":" + f.resourceId + ":" + r.error.value] else []
  }

  /** The flags one result raises: for its quota posture, then for an outage. */
  function FlagsOf(r: FetchResult): seq<Flag> {
    (match r.quota.posture
     case HardCapReached => [Flag(HardCap, Abort)]
     case SoftCapReached => [Flag(SoftCap, CachedOnly)]
     case Normal => if r.quota.cachedOnlyMode then [Flag(SoftCap, CachedOnly)] else [])
    + if r.fallback.ProviderOutage? then [Flag(ProviderOutageSeen, CachedOnly)] else []
  }

  function FlagsIn(got: Results): seq<Flag> {
    if got == [] then [] else FlagsIn(got[..|got| - 1]) + FlagsOf(got[|got| - 1].1)
  }

  function LastQuotaIn(got: Results): Option<Snapshot> { if got == [] then None else Some(got[|got| - 1].1.quota) }

  ghost predicate CappedIn(got: Results) { exists g <- got :: g.1.quota.posture == HardCapReached }

  /** The counters of a target are those of the results it was given. */
  ghost predicate Told(b: Books, got: Results) {
    && b.budgeted == |got| && b.used == UsedIn(got) && b.errors == ErrorsIn(got) && b.flags == FlagsIn(got)
    && b.quota == LastQuotaIn(got) && (b.mode == Abort <==> CappedIn(got))
  }

  /** A target that began when these results had been given. */
  ghost predicate Since(before: Results, at: At) { before <= at.w.got && Told(at.b, at.w.got[|before|..]) }

  lemma {:induction false} OneMoreResult(got: Results, f: Fetch, r: FetchResult)
    ensures var to := got + [(f, r)];
            && UsedIn(to) == UsedIn(got) + One(r.status == WasFetched)
            && ErrorsIn(to) == ErrorsIn(got) + (if r.error.Some? then [ErrorLine(f, r.error.value)] else [])
            && FlagsIn(to) == FlagsIn(got) + FlagsOf(r) && LastQuotaIn(to) == Some(r.quota)
            && (CappedIn(to) <==> CappedIn(got) || r.quota.posture == HardCapReached)
  {
    var to := got + [(f, r)];
    assert to[..|got|] == got && to[|got|] == (f, r);
    assert forall g :: g in to <==> g in got || g == (f, r);
  }

  lemma {:induction false} FlagsAreRaised(r: FetchResult)
    ensures FlagsOf(r) == FlagList(HandleQuotaPosture(r.quota)) + FlagList(HandleProviderOutage(r.fallback))
  {
  }

  lemma {:induction false} ModeAborts(mode: Action, r: FetchResult)
    ensures var outage := if r.fallback == ProviderOutage then CachedOnly else Continue;
            MostRestrictive([mode, HandleQuotaPosture(r.quota).action, outage]) == Abort
            <==> mode == Abort || r.quota.posture == HardCapReached
  {
    var observed := [HandleQuotaPosture(r.quota).action, if r.fallback == ProviderOutage then CachedOnly else Continue];
    JoinNeverRelaxes(mode, observed);
    assert [mode] + observed == [mode, observed[0], observed[1]];
  }

  lemma {:induction false} JoinsLater<A>(a: seq<A>, b: seq<A>, c: seq<A>)
    ensures a + (b + c) == a + b + c && a + [] == a
  {
  }

  lemma {:induction false} AccumulateTells(b: Books, got: Results, f: Fetch, r: FetchResult)
    requires Told(b, got)
    ensures Told(Accumulate(b, f, r), got + [(f, r)])
  {
    OneMoreResult(got, f, r);
    ModeAborts(b.mode, r);
    FlagsAreRaised(r);
    JoinsLater(b.flags, FlagList(HandleQuotaPosture(r.quota)), FlagList(HandleProviderOutage(r.fallback)));
    JoinsLater(b.errors, [], []);
  }

  lemma {:induction false} FetchTells(env: Env, at: At, f: Fetch, before: Results)
    requires Since(before, at)
    ensures Since(before, FetchInto(env, at, f))
  {
    match env(at.w.tick)
    case Threw(_) =>
    case Gave(r) =>
      var n := |before|;
      AccumulateTells(at.b, at.w.got[n..], f, r);
      assert (at.w.got + [(f, r)])[n..] == at.w.got[n..] + [(f, r)];
  }

  lemma {:induction false} FixtureTells(env: Env, at: At, id: string, j: nat, before: Results)
    requires j <= 5 && Since(before, at)
    ensures Since(before, ProcessFixture(env, at, id, j))
    decreases 5 - j
  {
    if j < 5 {
      var f := Fetch(FIXTURE_WORKLOADS[j], id);
      FetchTells(env, at, f, before);
      if !Stopped(FetchInto(env, at, f)) { FixtureTells(env, FetchInto(env, at, f), id, j + 1, before); }
    }
  }

  lemma {:induction false} CheckpointTells(env: Env, done: At, c: Cursor, index: nat, before: Results)
    requires index < |c.fixtureIds| && Since(before, done)
    ensures Since(before, Checkpointed(env, done, c, index).0)
  {
  }

  lemma {:induction false} WalkOneTells(env: Env, at: At, c: Cursor, index: nat, before: Results)
    requires index < |c.fixtureIds| && Since(before, at)
    ensures Since(before, WalkOne(env, at, c, index).0)
  {
    var id := c.fixtureIds[index];
    var begun := At(at.w.(begun := at.w.begun + [(KeyOf(c), id)]), at.b);
    FixtureTells(env, begun, id, 0, before);
    var done := ProcessFixture(env, begun, id, 0);
    if !done.w.crashed { CheckpointTells(env, done, c, index, before); }
  }

  lemma {:induction false} WalkTells(env: Env, at: At, c: Cursor, index: int, before: Results)
    requires Since(before, at)
    ensures Since(before, WalkFixtures(env, at, c, index).0)
    decreases |c.fixtureIds| - index
  {
    if index >= |c.fixtureIds| || at.w.crashed || at.w.remaining <= 0 || at.b.mode == Abort {
    } else if index < 0 {
      WalkTells(env, at, c, index + 1, before);
    } else {
      var (next, c') := WalkOne(env, at, c, index);
      WalkOneTells(env, at, c, index, before);
      WalkTells(env, next, c', index + 1, before);
    }
  }

  lemma {:induction false} PrepareTells(env: Env, t: Target, s: Progress, before: Results)
    requires Since(before, s.at)
    ensures Since(before, Prepare(env, t, s).at)
  {
    FetchTells(env, s.at, StandingsFetch(t), before);
    var mid := if s.ended then s else StandingsStep(env, t, s);
    FetchTells(env, mid.at, SeasonFixturesFetch(t), before);
  }

  lemma {:induction false} TargetTells(env: Env, t: Target, reset: bool, w: World)
    ensures Since(w.got, BackfillTarget(env, t, reset, w).at)
  {
    var entry := Entry(env, t, reset, w);
    assert w.got[|w.got|..] == [];
    PrepareTells(env, t, entry, w.got);
    var s := Prepare(env, t, entry);
    if !s.ended && s.cursor.Some? { WalkTells(env, s.at, s.cursor.value, s.cursor.value.nextIndex, w.got); }
  }

  // ---------------------------------------------------------------------------------
  // The whole report.

  function AllErrors(results: seq<Summary>): seq<string> {
    if results == [] then [] else AllErrors(results[..|results| - 1]) + results[|results| - 1].errors
  }

  /** The totals are those of all results given; a run is aborted exactly if one of them reports the hard cap. */
  ghost predicate ReportTold(r: Report, got: Results) {
    && r.budgeted == |got| && r.used == UsedIn(got) && AllErrors(r.targets) == ErrorsIn(got)
    && r.flags == FlagsIn(got) && r.quota == LastQuotaIn(got) && (r.aborted <==> CappedIn(got))
  }

  /** What two lists of results come to together. */
  ghost predicate Joined(a: Results, b: Results, both: Results) {
    && UsedIn(both) == UsedIn(a) + UsedIn(b) && ErrorsIn(both) == ErrorsIn(a) + ErrorsIn(b)
    && FlagsIn(both) == FlagsIn(a) + FlagsIn(b) && (CappedIn(both) <==> CappedIn(a) || CappedIn(b))
    && LastQuotaIn(both) == (if b == [] then LastQuotaIn(a) else LastQuotaIn(b))
  }

  lemma {:induction false} OneMoreJoined(a: Results, b: Results, both: Results, f: Fetch, r: FetchResult)
    requires Joined(a, b, both)
    ensures Joined(a, b + [(f, r)], both + [(f, r)])
  {
    OneMoreResult(both, f, r);
    OneMoreResult(b, f, r);
    JoinsLater(ErrorsIn(a), ErrorsIn(b), if r.error.Some? then [ErrorLine(f, r.error.value)] else []);
    JoinsLater(FlagsIn(a), FlagsIn(b), FlagsOf(r));
  }

  lemma {:induction false} ResultsJoin(a: Results, b: Results)
    ensures Joined(a, b, a + b)
    decreases |b|
  {
    if b == [] {
      assert a + b == a;
      JoinsLater(ErrorsIn(a), [], []);
      JoinsLater(FlagsIn(a), [], []);
    } else {
      var init, last := b[..|b| - 1], b[|b| - 1];
      ResultsJoin(a, init);
      OneMoreJoined(a, init, a + init, last.0, last.1);
      assert b == init + [last] && a + b == (a + init) + [last];
    }
  }

  lemma {:induction false} OutcomeTells(r: Report, got: Results, o: TargetOutcome, b: Books, more: Results,
                                        remaining: int)
    requires ReportTold(r, got) && Told(b, more)
    requires o.flags == b.flags && o.action == b.mode && o.quota == b.quota
    requires o.summary.budgeted == b.budgeted && o.summary.used == b.used && o.summary.errors == b.errors
    ensures ReportTold(AddOutcome(r, o, remaining), got + more)
  {
    ResultsJoin(got, more);
    var results := r.targets + [o.summary];
    assert results[..|r.targets|] == r.targets && results[|r.targets|] == o.summary;
  }

  lemma {:induction false} SkippedTells(r: Report, got: Results, t: Target, cursor: Option<Cursor>)
    requires ReportTold(r, got)
    ensures ReportTold(r.(targets := r.targets + [SkippedSummary(t, cursor)]), got)
  {
    var results := r.targets + [SkippedSummary(t, cursor)];
    assert results[..|r.targets|] == r.targets;
    JoinsLater(AllErrors(r.targets), [], []);
  }

  lemma {:induction false} RunOneTells(env: Env, t: Target, reset: bool, run: Run)
    requires ReportTold(run.report, run.w.got)
    ensures ReportTold(RunOne(env, t, reset, run).report, RunOne(env, t, reset, run).w.got)
  {
    if run.report.aborted || run.report.halted {
      SkippedTells(run.report, run.w.got, t, ReadCursor(env, run.w, t, reset).1);
    } else {
      var s := BackfillTarget(env, t, reset, run.w);
      TargetTells(env, t, reset, run.w);
      FinalizedTells(run.report, run.w.got, t, s);
    }
  }

  lemma {:induction false} FinalizedTells(r: Report, before: Results, t: Target, s: Progress)
    requires ReportTold(r, before) && Since(before, s.at)
    ensures ReportTold(AddOutcome(r, Finalize(t, s.cursor, s.at.b), s.at.w.remaining), s.at.w.got)
  {
    var more := s.at.w.got[|before|..];
    assert s.at.w.got == before + more;
    OutcomeTells(r, before, Finalize(t, s.cursor, s.at.b), s.at.b, more, s.at.w.remaining);
  }

  lemma {:induction false} RunTells(env: Env, targets: seq<Target>, reset: bool, run: Run)
    requires ReportTold(run.report, run.w.got)
    ensures var to := RunTargets(env, targets, reset, run); ReportTold(to.report, to.w.got)
    decreases |targets|
  {
    if targets != [] && !run.w.crashed {
      RunOneTells(env, targets[0], reset, run);
      RunTells(env, targets[1..], reset, RunOne(env, targets[0], reset, run));
    }
  }

  /** The totals of one invocation are those of all the results it was given, whatever they are. */
  lemma {:induction false} TotalsTell(env: Env, targets: seq<Target>, reset: bool, maxCalls: int, cursors: Cursors)
    ensures var to := RunWorkflow(env, targets, reset, maxCalls, cursors); ReportTold(to.report, to.w.got)
  {
    RunTells(env, targets, reset, Run(FreshWorld(cursors, maxCalls), EMPTY_REPORT));
  }

  // ---------------------------------------------------------------------------------
  // The summaries, against the cursors left in the cache.

  /** The cursor in hand is the stored one, unless it is none or only notes the standings, and then none is stored. */
  ghost predicate InStep(t: Target, w: World, cursor: Option<Cursor>) {
    if cursor.Some? && cursor.value.discovered then
      CursorOf(w.cursors, t) == cursor && cursor.value.standingsDone && 0 <= cursor.value.nextIndex
    else CursorOf(w.cursors, t).None? && (cursor.Some? ==> cursor.value.fixtureIds == [] && cursor.value.nextIndex == 0)
  }

  /**
   * A target that began in this world has changed no other target's cursor, stays in step with its
   * own, and has processed as many fixtures as it has checkpointed.
   */
  ghost predicate Own(t: Target, before: World, at: At, cursor: Option<Cursor>) {
    && OnlyChanges(before.cursors, at.w.cursors, t)
    && (at.w.crashed || (InStep(t, at.w, cursor) && |before.saved| + at.b.processed == |at.w.saved|))
  }

  lemma {:induction false} FixtureProcessesNothing(env: Env, at: At, id: string, j: nat)
    requires j <= 5
    ensures ProcessFixture(env, at, id, j).b.processed == at.b.processed
    decreases 5 - j
  {
    if j < 5 {
      var next := FetchInto(env, at, Fetch(FIXTURE_WORKLOADS[j], id));
      if !Stopped(next) { FixtureProcessesNothing(env, next, id, j + 1); }
    }
  }

  lemma {:induction false} EntryOwns(env: Env, t: Target, w: World)
    requires SoundStore(w.cursors)
    ensures var s := Entry(env, t, false, w); Own(t, w, s.at, s.cursor)
  {
  }

  lemma {:induction false} StandingsOwns(env: Env, t: Target, before: World, s: Progress)
    requires Own(t, before, s.at, s.cursor) && !s.at.w.crashed
    ensures var to := StandingsStep(env, t, s);
            && Own(t, before, to.at, to.cursor)
            && (!to.ended ==> !to.at.w.crashed && to.cursor.Some? && to.cursor.value.standingsDone)
  {
  }

  lemma {:induction false} DiscoveryOwns(env: Env, t: Target, before: World, s: Progress)
    requires Own(t, before, s.at, s.cursor) && !s.at.w.crashed
    requires s.cursor.Some? && s.cursor.value.standingsDone
    ensures var to := DiscoveryStep(env, t, s); Own(t, before, to.at, to.cursor)
  {
  }

  lemma {:induction false} PrepareOwns(env: Env, t: Target, before: World, s: Progress)
    requires Own(t, before, s.at, s.cursor) && (s.at.w.crashed ==> s.ended)
    ensures var to := Prepare(env, t, s); Own(t, before, to.at, to.cursor)
    ensures var to := Prepare(env, t, s);
            !to.ended ==> !to.at.w.crashed && to.cursor.Some? && to.cursor.value.discovered
  {
    if !s.ended {
      StandingsOwns(env, t, before, s);
      var mid := StandingsStep(env, t, s);
      if !mid.ended { DiscoveryOwns(env, t, before, mid); }
    }
  }

  lemma {:induction false} WalkOneOwns(env: Env, t: Target, before: World, at: At, c: Cursor)
    requires Own(t, before, at, Some(c)) && c.discovered && !at.w.crashed && c.nextIndex < |c.fixtureIds|
    ensures var (to, c') := WalkOne(env, at, c, c.nextIndex);
            Own(t, before, to, Some(c')) && c'.discovered
            && (!to.w.crashed ==> c' == c.(nextIndex := c.nextIndex + 1))
  {
    var id := c.fixtureIds[c.nextIndex];
    var begun := At(at.w.(begun := at.w.begun + [(KeyOf(c), id)]), at.b);
    FixtureTouchesNoCursor(env, begun, id, 0);
    FixtureProcessesNothing(env, begun, id, 0);
  }

  lemma {:induction false} WalkOwns(env: Env, t: Target, before: World, at: At, c: Cursor)
    requires Own(t, before, at, Some(c)) && c.discovered && !at.w.crashed
    ensures var (to, c') := WalkFixtures(env, at, c, c.nextIndex); Own(t, before, to, Some(c'))
    decreases |c.fixtureIds| - c.nextIndex
  {
    if c.nextIndex < |c.fixtureIds| && at.w.remaining > 0 && at.b.mode != Abort {
      var (to, c') := WalkOne(env, at, c, c.nextIndex);
      WalkOneOwns(env, t, before, at, c);
      if !to.w.crashed { WalkOwns(env, t, before, to, c'); }
    }
  }

  lemma {:induction false} TargetOwns(env: Env, t: Target, w: World)
    requires SoundStore(w.cursors) && !w.crashed
    ensures var s := BackfillTarget(env, t, false, w); Own(t, w, s.at, s.cursor)
  {
    var entry := Entry(env, t, false, w);
    EntryOwns(env, t, w);
    PrepareOwns(env, t, w, entry);
    var s := Prepare(env, t, entry);
    if !s.ended { WalkOwns(env, t, w, s.at, s.cursor.value); }
  }

  /** What a summary says of its target is what the stored cursor says; complete needs an unaborted target as well. */
  ghost predicate Matches(s: Summary, cursors: Cursors, aborted: bool) {
    match CursorOf(cursors, s.target)
    case None => s.discovered == 0 && s.cursorIndex == 0 && !s.complete
    case Some(c) =>
      && s.discovered == |c.fixtureIds| && s.cursorIndex == c.nextIndex
      && (s.complete ==> c.nextIndex >= |c.fixtureIds|)
      && (c.discovered && c.nextIndex >= |c.fixtureIds| && !aborted ==> s.complete)
  }

  /** The first `n` targets have their summaries, in order, and each matches the cursors. */
  ghost predicate Summarised(targets: seq<Target>, n: nat, r: Report, w: World) {
    && n == |r.targets| <= |targets| && r.processed == |w.saved|
    && forall i :: 0 <= i < n ==> r.targets[i].target == targets[i] && Matches(r.targets[i], w.cursors, r.aborted)
  }

  lemma {:induction false} OneSummary(env: Env, t: Target, run: Run)
    requires SoundStore(run.w.cursors) && !run.w.crashed && !RunOne(env, t, false, run).w.crashed
    ensures var to := RunOne(env, t, false, run);
            && |to.report.targets| == |run.report.targets| + 1
            && to.report.targets[..|run.report.targets|] == run.report.targets
            && to.report.targets[|run.report.targets|].target == t
            && Matches(to.report.targets[|run.report.targets|], to.w.cursors, to.report.aborted)
            && OnlyChanges(run.w.cursors, to.w.cursors, t) && (run.report.aborted ==> to.report.aborted)
            && to.report.processed - run.report.processed == |to.w.saved| - |run.w.saved|
  {
    if !run.report.aborted && !run.report.halted { TargetOwns(env, t, run.w); }
  }

  lemma {:induction false} OneMoreSummary(targets: seq<Target>, n: nat, run: Run, to: Run)
    requires Distinct(targets) && n < |targets| && Summarised(targets, n, run.report, run.w)
    requires |to.report.targets| == n + 1 && to.report.targets[..n] == run.report.targets
    requires to.report.targets[n].target == targets[n]
    requires Matches(to.report.targets[n], to.w.cursors, to.report.aborted)
    requires to.report.processed - run.report.processed == |to.w.saved| - |run.w.saved|
    requires OnlyChanges(run.w.cursors, to.w.cursors, targets[n]) && (run.report.aborted ==> to.report.aborted)
    ensures Summarised(targets, n + 1, to.report, to.w)
  {
    forall i | 0 <= i < n + 1
      ensures to.report.targets[i].target == targets[i]
      ensures Matches(to.report.targets[i], to.w.cursors, to.report.aborted)
    {
      if i < n { assert to.report.targets[i] == to.report.targets[..n][i]; }
    }
  }

  lemma {:induction false} RunSummarises(env: Env, targets: seq<Target>, n: nat, before: Cursors, run: Run)
    requires Distinct(targets) && Summarised(targets, n, run.report, run.w) && !run.w.crashed
    requires Faithful(before, run.w) && run.w.begun == run.w.saved
    requires !RunTargets(env, targets[n..], false, run).w.crashed
    ensures var to := RunTargets(env, targets[n..], false, run); Summarised(targets, |targets|, to.report, to.w)
    decreases |targets| - n
  {
    if n < |targets| {
      var t, to := targets[n], RunOne(env, targets[n], false, run);
      assert targets[n..][0] == t && targets[n..][1..] == targets[n + 1..];
      if !to.w.crashed {
        OneSummary(env, t, run);
        OneMoreSummary(targets, n, run, to);
        if !run.report.aborted && !run.report.halted { TargetIsFaithful(env, before, t, run.w); }
        RunSummarises(env, targets, n + 1, before, to);
      }
    }
  }

  /**
   * An invocation that does not crash reports one summary for each target, in order, each saying what
   * the cursor left in the cache says, and as many fixtures processed as it checkpointed; its status
   * is complete exactly if no result reports the hard cap and every target's cursor is at its end.
   */
  lemma {:induction false} ReportMatchesTheCache(env: Env, targets: seq<Target>, maxCalls: int, cursors: Cursors)
    requires SoundStore(cursors) && Distinct(targets)
    ensures var to := RunWorkflow(env, targets, false, maxCalls, cursors); to.w.crashed || ReportMatches(targets, to)
  {
    var start := Run(FreshWorld(cursors, maxCalls), EMPTY_REPORT);
    var to := RunTargets(env, targets, false, start);
    assert targets[0..] == targets;
    assert Faithful(cursors, start.w) by {
      assert forall t: Target :: ForTarget(start.w.saved, t) == [];
    }
    if !to.w.crashed {
      RunSummarises(env, targets, 0, cursors, start);
      TotalsTell(env, targets, false, maxCalls, cursors);
      RunIsFaithful(env, targets, cursors, start);
      StatusMatches(targets, to);
    }
  }

  ghost predicate ReportMatches(targets: seq<Target>, to: Run) {
    && Summarised(targets, |targets|, to.report, to.w)
    && (StatusOf(to.report) == Aborted <==> CappedIn(to.w.got))
    && (StatusOf(to.report) == Complete <==>
          !CappedIn(to.w.got) && forall t <- targets :: IsCursorComplete(CursorOf(to.w.cursors, t)))
  }

  lemma {:induction false} StatusMatches(targets: seq<Target>, to: Run)
    requires Summarised(targets, |targets|, to.report, to.w) && SoundStore(to.w.cursors)
    ensures !to.report.aborted ==>
              (EveryComplete(to.report.targets) <==>
                 forall t <- targets :: IsCursorComplete(CursorOf(to.w.cursors, t)))
  {
    forall i | 0 <= i < |targets| && !to.report.aborted
      ensures to.report.targets[i].complete <==> IsCursorComplete(CursorOf(to.w.cursors, targets[i]))
    {
      assert Matches(to.report.targets[i], to.w.cursors, to.report.aborted);
    }
    if EveryComplete(to.report.targets) {
      forall t | t in targets && !to.report.aborted ensures IsCursorComplete(CursorOf(to.w.cursors, t)) {
        var i :| 0 <= i < |targets| && targets[i] == t;
        assert to.report.targets[i] in to.report.targets;
      }
    }
  }
}
