/** Exactly how far a run overruns its ceiling, and runs that show where the backfill stops short. */
module BackfillLimits {
  import opened Wrappers
  import opened Quota
  import opened IngestionMetrics
  import opened FetchPipeline
  import opened Degrade
  import opened SeasonBackfill
  import opened BackfillExactlyOnce
  import opened BackfillLedger
  import opened BackfillProgress

  // ---------------------------------------------------------------------------------
  // The overrun of a calm run of one season.

  /** Fixtures the run can still take: those left, or those its discovery will list. */
  function Waiting(session: Session, before: Option<Cursor>): int {
    if before.Some? then |before.value.fixtureIds| - before.value.nextIndex else |DiscoveredIds(session.env(2))|
  }

  /** The calls left for fixtures, after the standings and the season list of an undiscovered season. */
  function Spare(maxCalls: int, before: Option<Cursor>): int { if before.Some? then maxCalls else maxCalls - 2 }

  lemma OneTargetRun(session: Session, t: Target, cursors: Cursors)
    requires SoundStore(cursors) && CalmSession(session, t, session.maxCalls) && session.maxCalls > 0
    ensures var run := RunWorkflow(session.env, [t], false, session.maxCalls, cursors);
            && !run.w.crashed && run.report.budgeted == session.maxCalls - run.w.remaining
            && run.w == BackfillTarget(session.env, t, false, FreshWorld(cursors, session.maxCalls)).at.w
  {
    var start := Run(FreshWorld(cursors, session.maxCalls), EMPTY_REPORT);
    RunTargetsBudget(session.env, [t], false, session.maxCalls, start);
    CalmTarget(session.env, t, start.w);
    assert [t][1..] == [];
    var next := RunOne(session.env, t, false, start);
    assert RunTargets(session.env, [t][1..], false, next) == next;
  }

  lemma ResumedRunSpends(session: Session, t: Target, cursors: Cursors)
    requires SoundStore(cursors) && CalmSession(session, t, session.maxCalls) && session.maxCalls > 0
    requires CursorOf(cursors, t).Some?
    ensures RunWorkflow(session.env, [t], false, session.maxCalls, cursors).report.budgeted
         == 5 * Min(Waiting(session, CursorOf(cursors, t)), Slots(session.maxCalls))
  {
    OneTargetRun(session, t, cursors);
    CalmTarget(session.env, t, FreshWorld(cursors, session.maxCalls));
    assert Sound(CursorOf(cursors, t).value);
  }

  lemma FreshRunSpends(session: Session, t: Target, cursors: Cursors)
    requires SoundStore(cursors) && CalmSession(session, t, session.maxCalls) && session.maxCalls > 0
    requires CursorOf(cursors, t).None?
    ensures RunWorkflow(session.env, [t], false, session.maxCalls, cursors).report.budgeted
         == if session.maxCalls == 1 then 1
            else 2 + 5 * Min(Waiting(session, None), Slots(session.maxCalls - 2))
  {
    OneTargetRun(session, t, cursors);
    CalmTarget(session.env, t, FreshWorld(cursors, session.maxCalls));
  }

  /** What the run spends: two calls to discover, and five on each fixture it takes. */
  lemma {:induction false} CalmRunSpends(session: Session, t: Target, cursors: Cursors)
    requires SoundStore(cursors) && CalmSession(session, t, session.maxCalls) && session.maxCalls > 0
    ensures var (m, before) := (session.maxCalls, CursorOf(cursors, t));
            RunWorkflow(session.env, [t], false, m, cursors).report.budgeted
            == if before.None? && m == 1 then 1
               else m - Spare(m, before) + 5 * Min(Waiting(session, before), Slots(Spare(m, before)))
  {
    if CursorOf(cursors, t).Some? {
      ResumedRunSpends(session, t, cursors);
    } else {
      FreshRunSpends(session, t, cursors);
    }
  }

  lemma SlotsOverrun(waiting: int, spare: int)
    requires waiting >= 0 && spare >= 0
    ensures var spent := 5 * Min(waiting, Slots(spare));
            && (waiting < Slots(spare) ==> spent < spare)
            && (waiting >= Slots(spare) ==> spent == spare + (5 - spare % 5) % 5)
            && (spent <= spare + 2 <==> waiting < Slots(spare) || spare % 5 !in {1, 2})
  {
    var q, r := spare / 5, spare % 5;
    assert spare == 5 * q + r && Slots(spare) == if r == 0 then q else q + 1;
  }

  /**
   * A calm run of one season, new or resumed, keeps to the documented two calls over its ceiling
   * exactly when it runs out of fixtures first, or when its calls for fixtures, divided by five,
   * do not leave one or two over. If fixtures do not run out, the overrun is what is missing to
   * the next multiple of five.
   */
  lemma {:induction false} OverrunIsAtMostTwoIff(session: Session, t: Target, cursors: Cursors)
    requires SoundStore(cursors) && CalmSession(session, t, session.maxCalls) && session.maxCalls > 0
    ensures var (m, before) := (session.maxCalls, CursorOf(cursors, t));
            var (budgeted, spare) := (RunWorkflow(session.env, [t], false, m, cursors).report.budgeted,
                                      Spare(m, before));
            && (budgeted <= m + 2 <==> Waiting(session, before) < Slots(spare) || spare % 5 !in {1, 2})
            && (spare >= 0 && Waiting(session, before) >= Slots(spare) ==> budgeted == m + (5 - spare % 5) % 5)
  {
    CalmRunSpends(session, t, cursors);
    var before := CursorOf(cursors, t);
    assert before.Some? ==> Sound(before.value);
    var budgeted := RunWorkflow(session.env, [t], false, session.maxCalls, cursors).report.budgeted;
    OverrunArithmetic(session.maxCalls, before.None?, Waiting(session, before), budgeted);
  }

  lemma OverrunArithmetic(m: int, isNew: bool, waiting: int, budgeted: int)
    requires m > 0 && waiting >= 0
    requires var spare := if isNew then m - 2 else m;
             budgeted == if isNew && m == 1 then 1 else m - spare + 5 * Min(waiting, Slots(spare))
    ensures var spare := if isNew then m - 2 else m;
            && (budgeted <= m + 2 <==> waiting < Slots(spare) || spare % 5 !in {1, 2})
            && (spare >= 0 && waiting >= Slots(spare) ==> budgeted == m + (5 - spare % 5) % 5)
  {
    var spare := if isNew then m - 2 else m;
    if spare >= 0 { SlotsOverrun(waiting, spare); }
  }

  // ---------------------------------------------------------------------------------
  // Any fixture in flight, whatever is answered.

  /** The calls budgeted out of at most `n`: up to the first that throws, and to the first that reports the hard cap. */
  function Spend(env: Env, tick: nat, n: nat): nat
    decreases n
  {
    if n == 0 || env(tick).Threw? then 0
    else if HardCapped(env, tick) then 1
    else 1 + Spend(env, tick + 1, n - 1)
  }

  lemma FetchSpends(env: Env, at: At, f: Fetch)
    requires !Stopped(at)
    ensures var to := FetchInto(env, at, f);
            && to.w.tick == at.w.tick + 1
            && to.w.remaining == at.w.remaining - (if env(at.w.tick).Gave? then 1 else 0)
            && (Stopped(to) <==> env(at.w.tick).Threw? || HardCapped(env, at.w.tick))
  {
    if env(at.w.tick).Gave? { FetchAbortsIff(env, at, f); }
  }

  lemma {:induction false} FixtureSpends(env: Env, at: At, id: string, j: nat)
    requires j <= 5 && !Stopped(at)
    ensures ProcessFixture(env, at, id, j).w.remaining == at.w.remaining - Spend(env, at.w.tick, 5 - j)
    decreases 5 - j
  {
    if j < 5 {
      var f := Fetch(FIXTURE_WORKLOADS[j], id);
      FetchSpends(env, at, f);
      var next := FetchInto(env, at, f);
      if !Stopped(next) { FixtureSpends(env, next, id, j + 1); }
    }
  }

  /** Answers `from` up to `end` arrive and report no hard cap. */
  ghost predicate Uncapped(env: Env, from: nat, end: nat) {
    forall t: nat :: from <= t < end ==> env(t).Gave? && !HardCapped(env, t)
  }

  lemma {:induction false} SpendReachesIff(env: Env, tick: nat, n: nat, k: nat)
    requires 1 <= k <= n
    ensures Spend(env, tick, n) >= k <==> Uncapped(env, tick, tick + k - 1) && env(tick + k - 1).Gave?
    decreases n
  {
    if env(tick).Gave? && !HardCapped(env, tick) && k > 1 {
      SpendReachesIff(env, tick + 1, n - 1, k - 1);
      assert Uncapped(env, tick, tick + k - 1) <==> Uncapped(env, tick + 1, tick + k - 1);
    } else if k > 1 {
      assert !Uncapped(env, tick, tick + k - 1);
    }
  }

  /**
   * A fixture begun with `r` calls left keeps to the documented two calls over the ceiling
   * exactly when `r` is three or more, or one of its first r + 2 answers reports the hard cap
   * or throws, or the next one throws. No fixture is begun with less than one call left.
   */
  lemma {:induction false} FixtureOverrunsIff(env: Env, at: At, id: string)
    requires !Stopped(at) && at.w.remaining >= 1
    ensures var (r, tick) := (at.w.remaining, at.w.tick);
            ProcessFixture(env, at, id, 0).w.remaining >= -2
            <==> r >= 3 || !Uncapped(env, tick, tick + r + 2) || env(tick + r + 2).Threw?
  {
    BegunFixtureOverrunsIff(env, at, id, 0);
  }

  lemma {:induction false} BegunFixtureOverrunsIff(env: Env, at: At, id: string, j: nat)
    requires j == 0 && !Stopped(at) && at.w.remaining >= 1
    ensures var (r, tick) := (at.w.remaining, at.w.tick);
            ProcessFixture(env, at, id, j).w.remaining >= -2
            <==> r >= 3 || !Uncapped(env, tick, tick + r + 2) || env(tick + r + 2).Threw?
  {
    FixtureSpends(env, at, id, j);
    WithinTwoIff(env, at.w.tick, at.w.remaining, 5 - j, ProcessFixture(env, at, id, j).w.remaining);
  }

  lemma {:induction false} WithinTwoIff(env: Env, tick: nat, r: int, n: nat, left: int)
    requires r >= 1 && n == 5 && left == r - Spend(env, tick, n)
    ensures left >= -2 <==> r >= 3 || !Uncapped(env, tick, tick + r + 2) || env(tick + r + 2).Threw?
  {
    SpendOverrunsIff(env, tick, r, n);
  }

  lemma {:induction false} SpendOverrunsIff(env: Env, tick: nat, r: int, n: nat)
    requires r >= 1 && n == 5
    ensures r - Spend(env, tick, n) >= -2
            <==> r >= 3 || !Uncapped(env, tick, tick + r + 2) || env(tick + r + 2).Threw?
  {
    SpendIsAtMost(env, tick, n);
    if r <= 2 { SpendReachesIff(env, tick, n, r + 3); }
  }

  lemma {:induction false} SpendIsAtMost(env: Env, tick: nat, n: nat)
    ensures Spend(env, tick, n) <= n
    decreases n
  {
    if n > 0 { SpendIsAtMost(env, tick + 1, n - 1); }
  }

  // ---------------------------------------------------------------------------------
  // Runs from an empty cache.

  /** A world that answers every call alike: this data, this posture. */
  function Reply(data: Option<seq<Item>>, posture: Posture): FetchResult {
    FetchResult(WasFetched, Snapshot(0, 0, posture, posture != Normal), NoFallback, None, data)
  }

  function Always(data: Option<seq<Item>>, posture: Posture): Env { (tick: nat) => Gave(Reply(data, posture)) }

  const ONE_FIXTURE: seq<Item> := [Fixture("1", "FT")]

  lemma OneFixtureIsDiscovered()
    ensures DiscoveredIds(Gave(Reply(Some(ONE_FIXTURE), Normal))) == ["1"]
    ensures DiscoveredIds(Gave(Reply(None, Normal))) == []
  {
    assert FinalisedIds([]) == [];
    assert ONE_FIXTURE[..0] == [] && FinalisedIds(ONE_FIXTURE) == ["1"];
  }

  lemma AlwaysNormalIsCalm(data: Option<seq<Item>>)
    ensures Calm(Always(data, Normal))
  {
  }

  /** From an empty cache, a ceiling of three calls spends seven: four over. */
  lemma ThreeCallsBecomeSeven(t: Target)
    ensures RunWorkflow(Always(Some(ONE_FIXTURE), Normal), [t], false, 3, map[]).report.budgeted == 7
  {
    var session := Session(Always(Some(ONE_FIXTURE), Normal), [t], 3);
    AlwaysNormalIsCalm(Some(ONE_FIXTURE));
    OneFixtureIsDiscovered();
    CalmRunSpends(session, t, map[]);
  }

  /**
   * From an empty cache, a season list that came without data completes the season: two calls, no
   * fixture, status complete.
   */
  lemma DiscoveryWithoutDataReportsComplete(t: Target)
    ensures var run := RunWorkflow(Always(None, Normal), [t], false, 100, map[]);
            && StatusOf(run.report) == Complete && run.report.budgeted == 2
            && CursorOf(run.w.cursors, t).Some? && CursorOf(run.w.cursors, t).value.fixtureIds == []
  {
    var session := Session(Always(None, Normal), [t], 100);
    AlwaysNormalIsCalm(None);
    OneFixtureIsDiscovered();
    CalmRunSpends(session, t, map[]);
    OneTargetRun(session, t, map[]);
    CalmTarget(session.env, t, FreshWorld(map[], 100));
    RunMakesProgressIff(session, map[]);
  }

  /** A season discovered from an empty cache by a run of two calls, no fixture done. */
  lemma TwoCallsDiscover(t: Target)
    ensures var store := RunWorkflow(Always(Some(ONE_FIXTURE), Normal), [t], false, 2, map[]).w.cursors;
            && SoundStore(store) && CursorOf(store, t).Some?
            && CursorOf(store, t).value.fixtureIds == ["1"] && CursorOf(store, t).value.nextIndex == 0
  {
    var session := Session(Always(Some(ONE_FIXTURE), Normal), [t], 2);
    AlwaysNormalIsCalm(Some(ONE_FIXTURE));
    OneFixtureIsDiscovered();
    OneTargetRun(session, t, map[]);
    CalmTarget(session.env, t, FreshWorld(map[], 2));
    RunMakesProgressIff(session, map[]);
  }

  /** The walk of one due fixture while every answer reports the hard cap: one fetch, and a cursor past it. */
  lemma CappedWalk(t: Target, store: Cursors, w: World)
    requires SoundStore(store) && w.cursors == store && !w.crashed && w.remaining > 0
    requires CursorOf(store, t).Some? && CursorOf(store, t).value.fixtureIds == ["1"]
             && CursorOf(store, t).value.nextIndex == 0
    ensures var env := Always(None, HardCapReached);
            var c := CursorOf(store, t).value;
            var (to, c') := WalkFixtures(env, At(w, NO_BOOKS), c, 0);
            && to.w.calls == w.calls + [Fetch(FixtureDetailFullTime, "1")] && !to.w.crashed && to.b.mode == Abort
                && to.b.processed == 1
            && c' == c.(nextIndex := 1) && CursorOf(to.w.cursors, t) == Some(c')
  {
    var env, at := Always(None, HardCapReached), At(w, NO_BOOKS);
    var c := CursorOf(store, t).value;
    assert Sound(c) && KeyOf(c) == t;
    var begun := At(at.w.(begun := at.w.begun + [(t, "1")]), at.b);
    FetchAbortsIff(env, begun, Fetch(FixtureDetailFullTime, "1"));
    var fetched := FetchInto(env, begun, Fetch(FixtureDetailFullTime, "1"));
    assert ProcessFixture(env, begun, "1", 0) == fetched;
    var (next, c') := Checkpointed(env, fetched, c, 0);
    assert WalkOne(env, at, c, 0) == (next, c');
    assert KeyOf(c') == t && WalkFixtures(env, next, c', 1) == (next, c');
  }

  /**
   * The season of one fixture discovered by a run of two calls, met by the hard cap in the next
   * run: the fixture gets one of its five fetches, the cursor is complete, and the run reports
   * the abort. No later run will fetch the other four.
   */
  lemma HardCapSkipsFourFetches(t: Target)
    ensures var store := RunWorkflow(Always(Some(ONE_FIXTURE), Normal), [t], false, 2, map[]).w.cursors;
            var run := RunWorkflow(Always(None, HardCapReached), [t], false, 100, store);
            && run.w.calls == [Fetch(FixtureDetailFullTime, "1")]
            && IsCursorComplete(CursorOf(run.w.cursors, t)) && StatusOf(run.report) == Aborted
  {
    TwoCallsDiscover(t);
    var store := RunWorkflow(Always(Some(ONE_FIXTURE), Normal), [t], false, 2, map[]).w.cursors;
    CappedRun(t, store);
  }

  lemma CappedRun(t: Target, store: Cursors)
    requires SoundStore(store) && CursorOf(store, t).Some?
    requires CursorOf(store, t).value.fixtureIds == ["1"] && CursorOf(store, t).value.nextIndex == 0
    ensures var run := RunWorkflow(Always(None, HardCapReached), [t], false, 100, store);
            && run.w.calls == [Fetch(FixtureDetailFullTime, "1")]
            && IsCursorComplete(CursorOf(run.w.cursors, t)) && StatusOf(run.report) == Aborted
  {
    var env, c := Always(None, HardCapReached), CursorOf(store, t).value;
    var start := Run(FreshWorld(store, 100), EMPTY_REPORT);
    var w := start.w.(tick := 1);
    assert Sound(c);
    assert Entry(env, t, false, start.w) == Progress(At(w, NO_BOOKS), Some(c), false);
    CalmPrepareResumed(env, t, Progress(At(w, NO_BOOKS), Some(c), false));
    CappedWalk(t, store, w);
    var s := BackfillTarget(env, t, false, start.w);
    assert s.at == WalkFixtures(env, At(w, NO_BOOKS), c, 0).0;
    assert [t][1..] == [];
    var next := RunOne(env, t, false, start);
    assert RunTargets(env, [t][1..], false, next) == next;
  }

  /** From an empty cache, runs with a ceiling of one call leave the season undiscovered, however many they are. */
  lemma OneCallNeverDiscovers(t: Target, n: nat)
    ensures var one := Session(Always(Some(ONE_FIXTURE), Normal), [t], 1);
            CursorOf(AfterSessions(map[], seq(n, _ => one)), t) == None
  {
    var one := Session(Always(Some(ONE_FIXTURE), Normal), [t], 1);
    AlwaysNormalIsCalm(Some(ONE_FIXTURE));
    assert CursorOf(map[], t) == None && [t][1..] == [];
    assert !AllComplete(map[], [t]) by { assert t in [t]; }
    CeilingOfOneNeverStarts(map[], seq(n, _ => one), [t]);
  }
}
