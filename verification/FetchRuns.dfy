/** The theorems about whole schedules of the fetch pipeline, from an empty worker on. */
module FetchRuns {
  import opened Wrappers
  import opened Tally
  import opened Quota
  import opened ProviderCache
  import opened FetchPipeline
  import opened FetchTheorems
  import opened FetchAccounting

  ghost predicate Inv(s: State) {
    SlotsMatchFlights(s) && CallersMatchFlights(s) && Spaced(s) && AllChargedIffCalled(s) && Booked(s)
  }

  lemma InitInv(now: int)
    ensures Inv(Init(now)) && Conserved(Init(now))
    ensures forall hardCap :: WithinCap(hardCap, Init(now))
  {
    var s := Init(now);
    assert forall k: Key :: KeySpaced(k.workload, History(s, k), CacheEntry(s, k), s.now);
    assert forall w: Window :: Owed(s, w) == GrantedIn(s, w) == 0;
  }

  lemma StepKeepsInv(hardCap: int, s: State, step: Step)
    requires Inv(s) && Enabled(s, step)
    ensures Inv(Apply(hardCap, s, step))
  {
    StepKeepsSlots(hardCap, s, step);
    StepKeepsSpacing(hardCap, s, step);
    StepKeepsBooks(hardCap, s, step);
  }

  lemma {:induction false} RunKeepsInv(hardCap: int, s: State, steps: seq<Step>)
    requires Inv(s) && Legal(hardCap, s, steps)
    ensures Inv(After(hardCap, s, steps))
    decreases |steps|
  {
    if steps != [] {
      StepKeepsInv(hardCap, s, steps[0]);
      RunKeepsInv(hardCap, Apply(hardCap, s, steps[0]), steps[1..]);
    }
  }

  /** In every interleaving, the loader of one key runs at most once at a time. */
  lemma OneFlightPerKey(hardCap: int, now: int, steps: seq<Step>, i: nat, j: nat)
    requires Legal(hardCap, Init(now), steps)
    requires i < |After(hardCap, Init(now), steps).flights| && j < |After(hardCap, Init(now), steps).flights|
    ensures var flights := After(hardCap, Init(now), steps).flights;
            flights[i].Active() && flights[j].Active() && flights[i].key == flights[j].key ==> i == j
  {
    InitInv(now);
    RunKeepsInv(hardCap, Init(now), steps);
  }

  /**
   * Everyone who joined a flight is answered with that flight's verdict, and flights never outnumber
   * the cache misses.
   */
  lemma CallersShareTheFlight(hardCap: int, now: int, steps: seq<Step>, c: nat)
    requires Legal(hardCap, Init(now), steps)
    requires c < |After(hardCap, Init(now), steps).callers|
    requires After(hardCap, Init(now), steps).callers[c].stage.Answered?
    ensures var s := After(hardCap, Init(now), steps);
            var stage := s.callers[c].stage;
            && stage.flight < |s.flights| && s.flights[stage.flight].key == s.callers[c].key
            && s.flights[stage.flight].phase.Cleared?
            && s.flights[stage.flight].phase.verdict.outcome == stage.outcome
            && s.flights[stage.flight].phase.verdict.answer == stage.answer
            && |s.flights| <= s.metrics.cacheMisses
  {
    InitInv(now);
    RunKeepsInv(hardCap, Init(now), steps);
  }

  /** A provider call never starts before the newest cached response of its key has expired. */
  lemma CallWaitsForExpiry(hardCap: int, now: int, steps: seq<Step>, i: nat)
    requires Legal(hardCap, Init(now), steps)
    requires i < |After(hardCap, Init(now), steps).flights|
    requires After(hardCap, Init(now), steps).flights[i].phase.Calling?
    ensures var s := After(hardCap, Init(now), steps);
            var log := History(s, s.flights[i].key);
            log != [] ==> log[|log| - 1].Expiry() <= s.flights[i].phase.startedAt <= s.now
  {
    InitInv(now);
    RunKeepsInv(hardCap, Init(now), steps);
    var s := After(hardCap, Init(now), steps);
    assert FlightSpaced(s.flights[i].phase, History(s, s.flights[i].key), s.now);
  }

  lemma {:induction false} SpacingAccumulates(w: Workload, log: seq<CachedFetch>, entry: Option<Entry<Payload>>,
                                              now: int, i: nat, j: nat)
    requires KeySpaced(w, log, entry, now) && i <= j < |log|
    ensures (j - i) * MinTtl(w) * 1000 <= log[j].startedAt - log[i].startedAt
    decreases j
  {
    if i < j {
      SpacingAccumulates(w, log, entry, now, i, j - 1);
      assert log[j - 1].Expiry() <= log[j].startedAt;
      var d := j - 1 - i;
      assert (d + 1) * MinTtl(w) == d * MinTtl(w) + MinTtl(w);
    }
  }

  /** N cached fetches of one key whose calls start within T ms satisfy (N - 1) * least TTL * 1000 <= T. */
  lemma {:induction false} CachedFetchesAreSpaced(
    hardCap: int, now: int, steps: seq<Step>, key: Key, first: nat, n: nat, t: int)
    requires Legal(hardCap, Init(now), steps)
    requires 1 <= n && first + n <= |History(After(hardCap, Init(now), steps), key)|
    requires var log := History(After(hardCap, Init(now), steps), key);
             log[first + n - 1].startedAt - log[first].startedAt <= t
    ensures (n - 1) * MinTtl(key.workload) * 1000 <= t
  {
    var s := After(hardCap, Init(now), steps);
    assert Spaced(s) by {
      InitInv(now);
      RunKeepsInv(hardCap, Init(now), steps);
    }
    assert KeySpaced(key.workload, History(s, key), CacheEntry(s, key), s.now);
    SpacingAccumulates(key.workload, History(s, key), CacheEntry(s, key), s.now, first, first + n - 1);
  }

  // ---------------------------------------------------------------------------------
  // Quota conservation over whole runs.

  predicate NeverStraddles(hardCap: int, s: State, steps: seq<Step>)
    requires Legal(hardCap, s, steps)
    decreases |steps|
  {
    steps == [] || (!Straddles(s, steps[0]) && NeverStraddles(hardCap, Apply(hardCap, s, steps[0]), steps[1..]))
  }

  ghost predicate ConservedThroughout(hardCap: int, s: State, steps: seq<Step>)
    requires Legal(hardCap, s, steps)
    decreases |steps|
  {
    Conserved(s) && (steps == [] || ConservedThroughout(hardCap, Apply(hardCap, s, steps[0]), steps[1..]))
  }

  lemma {:induction false} RunConservesIff(hardCap: int, s: State, steps: seq<Step>)
    requires Inv(s) && Conserved(s) && WithinCap(hardCap, s) && Legal(hardCap, s, steps)
    ensures ConservedThroughout(hardCap, s, steps) <==> NeverStraddles(hardCap, s, steps)
    ensures NeverStraddles(hardCap, s, steps) ==>
              Conserved(After(hardCap, s, steps)) && WithinCap(hardCap, After(hardCap, s, steps))
    decreases |steps|
  {
    if steps != [] {
      StepConservesIff(hardCap, s, steps[0]);
      StepKeepsInv(hardCap, s, steps[0]);
      if !Straddles(s, steps[0]) {
        RunConservesIff(hardCap, Apply(hardCap, s, steps[0]), steps[1..]);
      }
    }
  }

  /**
   * The meter of every day equals settled calls, plus reservations in flight, plus denials
   * not yet given back, at every moment of a run exactly when no refund lands on another UTC
   * day than its reservation; granted reservations then stay within the hard cap.
   */
  lemma QuotaIsConservedIffNoRefundStraddlesMidnight(hardCap: int, now: int, steps: seq<Step>)
    requires Legal(hardCap, Init(now), steps)
    ensures ConservedThroughout(hardCap, Init(now), steps) <==> NeverStraddles(hardCap, Init(now), steps)
    ensures NeverStraddles(hardCap, Init(now), steps) ==>
              forall w: Window :: GrantedIn(After(hardCap, Init(now), steps), w) <= Max(0, hardCap)
  {
    InitInv(now);
    RunConservesIff(hardCap, Init(now), steps);
  }

  /** A run that does straddle: reserve just before midnight, skip the call just after. */
  const STRADDLE: Key := Key(TeamMetadata, "42")

  lemma ReserveBeforeMidnight()
    ensures var steps := [Arrive(STRADDLE), CallerStep(0), FlightStep(0, Failed)];
            && Legal(10, Init(DAY_MS - 1), steps)
            && After(10, Init(DAY_MS - 1), steps).flights == [Flight(STRADDLE, Granted(0))]
            && After(10, Init(DAY_MS - 1), steps).counts == map[0 := 1]
            && After(10, Init(DAY_MS - 1), steps).now == DAY_MS - 1
  {
    var s0 := Init(DAY_MS - 1);
    var s1 := Apply(10, s0, Arrive(STRADDLE));
    var s2 := Apply(10, s1, CallerStep(0));
    assert s2.flights == [Flight(STRADDLE, Rechecked(None))] && s2.counts == map[] && s2.now == DAY_MS - 1;
    var s3 := Apply(10, s2, FlightStep(0, Failed));
    assert s3.flights == [Flight(STRADDLE, Granted(0))];
    ThreeSteps(s0, s1, s2, s3, Arrive(STRADDLE), CallerStep(0), FlightStep(0, Failed));
  }

  lemma ThreeSteps(s: State, s1: State, s2: State, s3: State, a: Step, b: Step, c: Step)
    requires Enabled(s, a) && s1 == Apply(10, s, a)
    requires Enabled(s1, b) && s2 == Apply(10, s1, b)
    requires Enabled(s2, c) && s3 == Apply(10, s2, c)
    ensures Legal(10, s, [a, b, c]) && After(10, s, [a, b, c]) == s3
  {
    assert [a, b, c][1..] == [b, c] && [b, c][1..] == [c] && [c][1..] == [];
    assert Legal(10, s3, []) && After(10, s3, []) == s3;
    assert Legal(10, s2, [c]) && After(10, s2, [c]) == s3;
    assert Legal(10, s1, [b, c]) && After(10, s1, [b, c]) == s3;
  }

  /** The refund of a skipped call that finds a new day on the clock: the old day keeps a unit nobody owes. */
  lemma LateRefund(s: State)
    requires s.flights == [Flight(STRADDLE, Calling(0, DAY_MS - 1))] && s.counts == map[0 := 1] && s.now == DAY_MS
    ensures var to := Apply(10, s, FlightStep(0, Skipped)); ReadCount(to.counts, 0) == 1 && Owed(to, 0) == 0
  {
    assert WindowFor(s.now) == 1;
    var to := Apply(10, s, FlightStep(0, Skipped));
    assert to.flights == [Flight(STRADDLE, SkipRefunded)];
    CountZero(to.flights, SettledCharge, 0);
    CountZero(to.flights, InFlightCharge, 0);
    CountZero(to.flights, DeniedCharge, 0);
  }

  lemma LateSkipLosesAUnit(s: State)
    requires s.flights == [Flight(STRADDLE, Granted(0))] && s.counts == map[0 := 1] && s.now == DAY_MS - 1
    ensures var steps := [FlightStep(0, Failed), Tick(1), FlightStep(0, Skipped)];
            && Legal(10, s, steps)
            && ReadCount(After(10, s, steps).counts, 0) == 1 && Owed(After(10, s, steps), 0) == 0
  {
    var s1 := Apply(10, s, FlightStep(0, Failed));
    assert s1.flights == [Flight(STRADDLE, Calling(0, DAY_MS - 1))] && s1.now == s.now && s1.counts == s.counts;
    var s2 := Apply(10, s1, Tick(1));
    LateRefund(s2);
    ThreeSteps(s, s1, s2, Apply(10, s2, FlightStep(0, Skipped)), FlightStep(0, Failed), Tick(1),
               FlightStep(0, Skipped));
  }

  lemma {:induction false} RunsJoin(hardCap: int, s: State, a: seq<Step>, b: seq<Step>)
    requires Legal(hardCap, s, a) && Legal(hardCap, After(hardCap, s, a), b)
    ensures Legal(hardCap, s, a + b) && After(hardCap, s, a + b) == After(hardCap, After(hardCap, s, a), b)
    decreases |a|
  {
    if a == [] {
      assert a + b == b;
    } else {
      assert (a + b)[0] == a[0] && (a + b)[1..] == a[1..] + b;
      RunsJoin(hardCap, Apply(hardCap, s, a[0]), a[1..], b);
    }
  }

  /**
   * From an empty worker: reserved before midnight, skipped and refunded after it, the old day keeps
   * a unit that nobody owes.
   */
  lemma StraddlingRefundLosesAUnit()
    ensures var steps := [Arrive(STRADDLE), CallerStep(0), FlightStep(0, Failed)]
                         + [FlightStep(0, Failed), Tick(1), FlightStep(0, Skipped)];
            && Legal(10, Init(DAY_MS - 1), steps)
            && ReadCount(After(10, Init(DAY_MS - 1), steps).counts, 0) == 1
            && Owed(After(10, Init(DAY_MS - 1), steps), 0) == 0
  {
    var a := [Arrive(STRADDLE), CallerStep(0), FlightStep(0, Failed)];
    ReserveBeforeMidnight();
    LateSkipLosesAUnit(After(10, Init(DAY_MS - 1), a));
    RunsJoin(10, Init(DAY_MS - 1), a, [FlightStep(0, Failed), Tick(1), FlightStep(0, Skipped)]);
  }

  // ---------------------------------------------------------------------------------
  // Cached-only mode stops no call.

  /** No step of this schedule resumes flight `i`. */
  predicate LeavesAlone(steps: seq<Step>, i: nat) {
    forall step <- steps :: step.FlightStep? ==> step.flight != i
  }

  lemma StepLeavesAlone(hardCap: int, s: State, step: Step, i: nat)
    requires Enabled(s, step) && i < |s.flights| && (step.FlightStep? ==> step.flight != i)
    ensures i < |Apply(hardCap, s, step).flights| && Apply(hardCap, s, step).flights[i] == s.flights[i]
  {
    if step.CallerStep? { CallerStepMoves(s, step.caller); }
  }

  lemma {:induction false} OthersLeaveAlone(hardCap: int, s: State, steps: seq<Step>, i: nat)
    requires Legal(hardCap, s, steps) && LeavesAlone(steps, i) && i < |s.flights|
    ensures i < |After(hardCap, s, steps).flights| && After(hardCap, s, steps).flights[i] == s.flights[i]
    decreases |steps|
  {
    if steps != [] {
      assert steps[0] in steps;
      StepLeavesAlone(hardCap, s, steps[0], i);
      OthersLeaveAlone(hardCap, Apply(hardCap, s, steps[0]), steps[1..], i);
    }
  }

  /**
   * A flight that found nothing cached calls the provider exactly when its own increment stays
   * within the hard cap, whatever other callers do before it resumes. The soft cap has no say:
   * the snapshot of its reservation may well report cached-only mode.
   */
  lemma CallGoesOutIffWithinTheHardCap(hardCap: int, softCap: int, s: State, i: nat, reply: Reply, between: seq<Step>,
                                       again: Reply)
    requires Enabled(s, FlightStep(i, reply)) && s.flights[i].phase == Rechecked(None)
    requires Legal(hardCap, Apply(hardCap, s, FlightStep(i, reply)), between) && LeavesAlone(between, i)
    ensures var (count, resumed) := (ReadCount(s.counts, WindowFor(s.now)) + 1,
                                     After(hardCap, Apply(hardCap, s, FlightStep(i, reply)), between));
            && Enabled(resumed, FlightStep(i, again))
            && (Apply(hardCap, resumed, FlightStep(i, again)).flights[i].phase.Calling? <==> count <= hardCap)
            && (softCap <= count <= hardCap ==>
                  SnapshotFromCount(WindowFor(s.now), count, hardCap, softCap).cachedOnlyMode
                  && Apply(hardCap, resumed, FlightStep(i, again)).flights[i].phase.Calling?)
  {
    OthersLeaveAlone(hardCap, Apply(hardCap, s, FlightStep(i, reply)), between, i);
  }

  /**
   * From an empty worker: with a soft cap of one the first reservation reports cached-only mode, and
   * the call goes out.
   */
  lemma CachedOnlyRunCalls()
    ensures var steps := [Arrive(STRADDLE), CallerStep(0), FlightStep(0, Failed)] + [FlightStep(0, Failed)];
            && Legal(10, Init(DAY_MS - 1), steps)
            && After(10, Init(DAY_MS - 1), steps).flights == [Flight(STRADDLE, Calling(0, DAY_MS - 1))]
            && SnapshotFromCount(0, ReadCount(After(10, Init(DAY_MS - 1), steps).counts, 0), 10, 1).cachedOnlyMode
  {
    var a, b := [Arrive(STRADDLE), CallerStep(0), FlightStep(0, Failed)], [FlightStep(0, Failed)];
    ReserveBeforeMidnight();
    var s := After(10, Init(DAY_MS - 1), a);
    var to := Apply(10, s, b[0]);
    assert b[1..] == [] && Legal(10, s, b) && After(10, s, b) == to;
    assert to.flights == [Flight(STRADDLE, Calling(0, DAY_MS - 1))] && to.counts == s.counts;
    RunsJoin(10, Init(DAY_MS - 1), a, b);
  }

  predicate Quiescent(s: State) {
    forall i :: 0 <= i < |s.flights| ==> s.flights[i].phase.Cleared?
  }

  /**
   * When nothing is in flight, a conserved meter counts provider calls: summed over any list
   * of distinct days that covers the calls made, it equals the metrics total.
   */
  lemma QuiescentMeterEqualsProviderCalls(hardCap: int, now: int, steps: seq<Step>, days: seq<Window>)
    requires Legal(hardCap, Init(now), steps) && NeverStraddles(hardCap, Init(now), steps)
    requires Quiescent(After(hardCap, Init(now), steps))
    requires Distinct(days)
    requires forall f <- After(hardCap, Init(now), steps).flights ::
               SettledCharge(f).Some? ==> SettledCharge(f).value in days
    ensures var s := After(hardCap, Init(now), steps);
            SumOver(days, w => ReadCount(s.counts, w)) == |s.metrics.providerCalls|
  {
    var s := After(hardCap, Init(now), steps);
    InitInv(now);
    RunKeepsInv(hardCap, Init(now), steps);
    RunConservesIff(hardCap, Init(now), steps);
    forall w: Window
      ensures ReadCount(s.counts, w) == Count(s.flights, SettledCharge, w)
    {
      assert ReadCount(s.counts, w) == Owed(s, w);
      CountZero(s.flights, InFlightCharge, w);
      CountZero(s.flights, DeniedCharge, w);
    }
    CountsAddUp(s.flights, SettledCharge, days);
    SumOverSame(days, w => Count(s.flights, SettledCharge, w), w => ReadCount(s.counts, w));
    TotalsAgree(s.flights, SettledCharge, CallMade);
  }

  // ---------------------------------------------------------------------------------
  // Progress: without new work, the pipeline drains.

  function FlightRank(f: Flight): nat {
    match f.phase
    case Cleared(_) => 0
    case Returned(_) => 1
    case Settling(_) | SkipRefunded | DenialRefunded => 2
    case Calling(_, _) | Refused(_) => 3
    case Granted(_) => 4
    case Rechecked(_) => 5
  }

  function CallerRank(c: Caller): nat {
    match c.stage
    case Looked(_) => 7
    case Awaiting(_) => 1
    case Served(_) | Answered(_, _, _) => 0
  }

  function Work(s: State): nat { Weight(s.callers, CallerRank) + Weight(s.flights, FlightRank) }

  lemma CallerStepPays(s: State, c: nat)
    requires Enabled(s, CallerStep(c))
    ensures var s' := StepCaller(s, c);
            CallerRank(s'.callers[c]) + (if s'.flights == s.flights then 0 else 5) < CallerRank(s.callers[c])
  {
    var s' := StepCaller(s, c);
    match s.callers[c].stage
    case Looked(Some(value)) => assert s'.callers[c].stage == Served(value) && s'.flights == s.flights;
    case Looked(None) => assert s'.callers[c].stage.Awaiting?;
    case Awaiting(_) => assert s'.callers[c].stage.Answered? && s'.flights == s.flights;
  }

  lemma CallerStepWorks(s: State, c: nat)
    requires SlotsMatchFlights(s) && CallersMatchFlights(s) && Enabled(s, CallerStep(c))
    ensures Work(StepCaller(s, c)) < Work(s)
  {
    CallerStepPays(s, c);
    CallerStepMoves(s, c);
    CallerMoveWorks(s, StepCaller(s, c), c);
  }

  lemma CallerMoveWorks(s: State, s': State, c: nat)
    requires CallerMoved(s, s', c)
    requires CallerRank(s'.callers[c]) + (if s'.flights == s.flights then 0 else 5) < CallerRank(s.callers[c])
    ensures Work(s') < Work(s)
  {
    WeightUpdate(s.callers, c, s'.callers[c], CallerRank);
    if s'.flights != s.flights {
      var key := s.callers[c].key;
      WeightAppend(s.flights, Flight(key, Rechecked(Lookup(s.cache, key, s.now))), FlightRank);
    }
  }

  lemma ResumeWorks(hardCap: int, now: int, counts: Counts, f: Flight, reply: Reply)
    requires f.Active()
    ensures FlightRank(Flight(f.key, Resume(hardCap, now, counts, f, reply).phase)) < FlightRank(f)
  {
  }

  lemma FlightStepWorks(hardCap: int, s: State, i: nat, reply: Reply)
    requires Enabled(s, FlightStep(i, reply))
    ensures Work(StepFlight(hardCap, s, i, reply)) < Work(s)
  {
    ResumeWorks(hardCap, s.now, s.counts, s.flights[i], reply);
    WeightUpdate(s.flights, i, StepFlight(hardCap, s, i, reply).flights[i], FlightRank);
  }

  predicate NoNewWork(steps: seq<Step>) {
    forall step <- steps :: step.CallerStep? || step.FlightStep?
  }

  /** However steps are interleaved, at most `Work(s)` of them can follow without a new arrival. */
  lemma {:induction false} PipelineDrains(hardCap: int, s: State, steps: seq<Step>)
    requires Inv(s) && Legal(hardCap, s, steps) && NoNewWork(steps)
    ensures |steps| + Work(After(hardCap, s, steps)) <= Work(s)
    decreases |steps|
  {
    if steps != [] {
      assert steps[0] in steps;
      StepKeepsInv(hardCap, s, steps[0]);
      match steps[0] {
        case CallerStep(c) => CallerStepWorks(s, c);
        case FlightStep(i, reply) => FlightStepWorks(hardCap, s, i, reply);
        case _ =>
      }
      PipelineDrains(hardCap, Apply(hardCap, s, steps[0]), steps[1..]);
    }
  }

  lemma CallerCanStep(s: State, c: nat)
    requires CallersMatchFlights(s) && Weight(s.flights, FlightRank) == 0
    requires c < |s.callers| && CallerRank(s.callers[c]) > 0
    ensures Enabled(s, CallerStep(c))
  {
    if s.callers[c].stage.Awaiting? {
      var f := s.callers[c].stage.flight;
      WeightUpdate(s.flights, f, s.flights[f], FlightRank);
    }
  }

  /** No caller is ever stuck: while work is left, some caller or flight can step. */
  lemma NoCallerIsStuck(s: State) returns (step: Step)
    requires Inv(s) && Work(s) > 0
    ensures (step.CallerStep? || step.FlightStep?) && Enabled(s, step)
  {
    if Weight(s.flights, FlightRank) > 0 {
      var i := WeightWitness(s.flights, FlightRank);
      step := FlightStep(i, Failed);
    } else {
      var c := WeightWitness(s.callers, CallerRank);
      step := CallerStep(c);
      CallerCanStep(s, c);
    }
  }
}
