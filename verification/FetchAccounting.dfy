/** The books of the fetch pipeline: quota conservation, the hard cap, and the metrics. */
module FetchAccounting {
  import opened Wrappers
  import opened Tally
  import opened Quota
  import opened ProviderCache
  import opened IngestionMetrics
  import opened FetchPipeline
  import opened FetchTheorems

  predicate IsCall(o: Outcome) { o == WasFetched || o == WasFailed || o == WasRateLimited }

  // What one flight contributes to each side of the books.

  function SettledCharge(f: Flight): Option<Window> {
    if f.Finished() then f.phase.verdict.charge else None
  }

  function InFlightCharge(f: Flight): Option<Window> {
    if f.phase.Granted? || f.phase.Calling? then Some(f.phase.window) else None
  }

  function DeniedCharge(f: Flight): Option<Window> {
    if f.phase.Refused? then Some(f.phase.window) else None
  }

  function CallMade(f: Flight): Option<Workload> {
    if f.Finished() && IsCall(f.phase.verdict.outcome) then Some(f.key.workload) else None
  }

  function OutcomeOf(f: Flight): Option<Outcome> {
    if f.Finished() then Some(f.phase.verdict.outcome) else None
  }

  function HitOf(c: Caller): Option<Outcome> { if c.stage.Served? then Some(WasCached) else None }

  function MissOf(c: Caller): Option<()> {
    if c.stage.Awaiting? || c.stage.Answered? then Some(()) else None
  }

  /** A finished flight still holds a unit exactly when it made a provider call. */
  predicate ChargedIffCalled(f: Flight) {
    f.Finished() ==> (IsCall(f.phase.verdict.outcome) <==> f.phase.verdict.charge.Some?)
  }

  ghost predicate AllChargedIffCalled(s: State) {
    forall i :: 0 <= i < |s.flights| ==> ChargedIffCalled(s.flights[i])
  }

  /** The metrics counters are what callers and flights have done so far. */
  ghost predicate Booked(s: State) {
    && (forall w :: s.metrics.providerCalls[w] == Count(s.flights, CallMade, w))
    && |s.metrics.providerCalls| == Total(s.flights, CallMade)
    && (forall o :: s.metrics.outcomes[o] == Count(s.flights, OutcomeOf, o) + Count(s.callers, HitOf, o))
    && s.metrics.cacheHits == Total(s.callers, HitOf)
    && s.metrics.cacheMisses == Total(s.callers, MissOf)
    && |s.flights| <= s.metrics.cacheMisses
  }

  /** Settled calls, reservations in flight, and denials not yet given back. */
  function Owed(s: State, w: Window): nat {
    Count(s.flights, SettledCharge, w) + Count(s.flights, InFlightCharge, w) + Count(s.flights, DeniedCharge, w)
  }

  /** Reservations granted and not given back. */
  function GrantedIn(s: State, w: Window): nat {
    Count(s.flights, SettledCharge, w) + Count(s.flights, InFlightCharge, w)
  }

  /** The quota meter reads, in every window, exactly what the flights account for. */
  ghost predicate Conserved(s: State) {
    forall w: Window :: ReadCount(s.counts, w) == Owed(s, w)
  }

  /** Granted reservations stay within the cap (a negative cap grants none). */
  ghost predicate WithinCap(hardCap: int, s: State) {
    forall w: Window :: GrantedIn(s, w) <= Max(0, hardCap)
  }

  /** What one resumption changes in the metrics, read off the flight alone. */
  lemma ResumeBooks(hardCap: int, now: int, counts: Counts, f: Flight, reply: Reply)
    requires f.Active() && ChargedIffCalled(f)
    ensures var e := Resume(hardCap, now, counts, f, reply);
            var f' := Flight(f.key, e.phase);
            && ChargedIffCalled(f')
            && CallMade(f') == (if e.called then Some(f.key.workload) else CallMade(f))
            && (e.called ==> CallMade(f).None?)
            && OutcomeOf(f') == (if e.outcome.Some? then e.outcome else OutcomeOf(f))
            && (e.outcome.Some? ==> OutcomeOf(f).None?)
  {
  }

  /** One flight moves, with its call and its outcome recorded if it just had them. */
  ghost predicate Recorded(s: State, s': State, i: nat, f': Flight) {
    && i < |s.flights| && s'.flights == s.flights[i := f'] && s'.callers == s.callers
    && s'.metrics.cacheHits == s.metrics.cacheHits && s'.metrics.cacheMisses == s.metrics.cacheMisses
    && (if CallMade(f') == CallMade(s.flights[i]) then s'.metrics.providerCalls == s.metrics.providerCalls
        else
          && CallMade(s.flights[i]).None?
          && s'.metrics.providerCalls == s.metrics.providerCalls + multiset{CallMade(f').value})
    && (if OutcomeOf(f') == OutcomeOf(s.flights[i]) then s'.metrics.outcomes == s.metrics.outcomes
        else OutcomeOf(s.flights[i]).None? && s'.metrics.outcomes == s.metrics.outcomes + multiset{OutcomeOf(f').value})
  }

  lemma {:induction false} MoveIsBooked(s: State, s': State, i: nat, f': Flight)
    requires Booked(s) && Recorded(s, s', i, f')
    ensures Booked(s')
  {
    TotalUpdate(s.flights, i, f', CallMade);
    forall w
      ensures s'.metrics.providerCalls[w] == Count(s'.flights, CallMade, w)
    {
      CountUpdate(s.flights, i, f', CallMade, w);
    }
    forall o
      ensures s'.metrics.outcomes[o] == Count(s'.flights, OutcomeOf, o) + Count(s'.callers, HitOf, o)
    {
      CountUpdate(s.flights, i, f', OutcomeOf, o);
    }
  }

  lemma FlightStepBooks(hardCap: int, s: State, i: nat, reply: Reply)
    requires AllChargedIffCalled(s) && Booked(s) && Enabled(s, FlightStep(i, reply))
    ensures AllChargedIffCalled(StepFlight(hardCap, s, i, reply)) && Booked(StepFlight(hardCap, s, i, reply))
  {
    var f := s.flights[i];
    var e := Resume(hardCap, s.now, s.counts, f, reply);
    ResumeBooks(hardCap, s.now, s.counts, f, reply);
    MoveIsBooked(s, Perform(s, i, e), i, Flight(f.key, e.phase));
  }

  /** A caller step starts at most one flight, which has no charge, call or outcome yet. */
  lemma CallerMoveKeepsFlightCounts<B>(s: State, s': State, c: nat, tag: Flight -> Option<B>, b: B)
    requires CallerMoved(s, s', c)
    requires forall key, hit :: tag(Flight(key, Rechecked(hit))).None?
    ensures Count(s'.flights, tag, b) == Count(s.flights, tag, b)
    ensures Total(s'.flights, tag) == Total(s.flights, tag)
  {
    if s'.flights != s.flights {
      var f := Flight(s.callers[c].key, Rechecked(Lookup(s.cache, s.callers[c].key, s.now)));
      CountAppend(s.flights, f, tag, b);
      TotalAppend(s.flights, f, tag);
    }
  }

  /** The counters a caller step bumps, against the caller's own change of stage. */
  lemma {:induction false} CallerStepCounters(s: State, c: nat)
    requires Enabled(s, CallerStep(c))
    ensures var m, m' := s.metrics, StepCaller(s, c).metrics;
            var hit := s.callers[c].stage.Looked? && s.callers[c].stage.hit.Some?;
            var miss := s.callers[c].stage.Looked? && s.callers[c].stage.hit.None?;
            var x := StepCaller(s, c).callers[c];
            && HitOf(s.callers[c]).None? && (HitOf(x) == if hit then Some(WasCached) else None)
            && (miss ==> MissOf(s.callers[c]).None? && MissOf(x).Some?)
            && (!miss ==> MissOf(s.callers[c]) == MissOf(x))
            && m'.cacheHits == m.cacheHits + One(hit) && m'.cacheMisses == m.cacheMisses + One(miss)
            && m'.providerCalls == m.providerCalls
            && m'.outcomes == (if hit then m.outcomes + multiset{WasCached} else m.outcomes)
            && |StepCaller(s, c).flights| <= |s.flights| + One(miss)
  {
    var (key, s') := (s.callers[c].key, StepCaller(s, c));
    match s.callers[c].stage
    case Looked(Some(value)) => assert s'.callers[c] == Caller(key, Served(value)) && s'.flights == s.flights;
    case Looked(None) => assert s'.callers[c].stage.Awaiting?;
    case Awaiting(_) => assert s'.callers[c].stage.Answered? && s'.flights == s.flights && s'.metrics == s.metrics;
  }

  lemma CallerStepBooks(s: State, c: nat)
    requires SlotsMatchFlights(s) && CallersMatchFlights(s)
    requires AllChargedIffCalled(s) && Booked(s) && Enabled(s, CallerStep(c))
    ensures AllChargedIffCalled(StepCaller(s, c)) && Booked(StepCaller(s, c))
  {
    var s' := StepCaller(s, c);
    CallerStepMoves(s, c);
    CallerStepCounters(s, c);
    CallerMoveBooks(s, s', c);
  }

  lemma {:induction false} CallerMoveBooks(s: State, s': State, c: nat)
    requires AllChargedIffCalled(s) && Booked(s) && CallerMoved(s, s', c)
    requires HitOf(s.callers[c]).None?
    requires s'.metrics.cacheHits == s.metrics.cacheHits + One(HitOf(s'.callers[c]).Some?)
    requires s'.metrics.cacheMisses + One(MissOf(s.callers[c]).Some?)
          == s.metrics.cacheMisses + One(MissOf(s'.callers[c]).Some?)
    requires s'.metrics.providerCalls == s.metrics.providerCalls
    requires s'.metrics.outcomes
          == if HitOf(s'.callers[c]).Some? then s.metrics.outcomes + multiset{WasCached} else s.metrics.outcomes
    requires |s'.flights| + s.metrics.cacheMisses <= |s.flights| + s'.metrics.cacheMisses
    ensures AllChargedIffCalled(s') && Booked(s')
  {
    var x := s'.callers[c];
    TotalUpdate(s.callers, c, x, HitOf);
    TotalUpdate(s.callers, c, x, MissOf);
    CallerMoveMakesNoCall(s, s', c);
    forall o
      ensures s'.metrics.outcomes[o] == Count(s'.flights, OutcomeOf, o) + Count(s'.callers, HitOf, o)
    {
      CountUpdate(s.callers, c, x, HitOf, o);
      CallerMoveKeepsFlightCounts(s, s', c, OutcomeOf, o);
    }
  }

  lemma {:induction false} CallerMoveMakesNoCall(s: State, s': State, c: nat)
    requires AllChargedIffCalled(s) && CallerMoved(s, s', c)
    ensures AllChargedIffCalled(s') && Total(s'.flights, CallMade) == Total(s.flights, CallMade)
    ensures forall w :: Count(s'.flights, CallMade, w) == Count(s.flights, CallMade, w)
  {
    CallerMoveKeepsFlightCounts(s, s', c, CallMade, TeamMetadata);
    forall w
      ensures Count(s'.flights, CallMade, w) == Count(s.flights, CallMade, w)
    {
      CallerMoveKeepsFlightCounts(s, s', c, CallMade, w);
    }
  }

  lemma StepKeepsBooks(hardCap: int, s: State, step: Step)
    requires SlotsMatchFlights(s) && CallersMatchFlights(s)
    requires AllChargedIffCalled(s) && Booked(s) && Enabled(s, step)
    ensures AllChargedIffCalled(Apply(hardCap, s, step)) && Booked(Apply(hardCap, s, step))
  {
    match step
    case Tick(_) =>
    case Arrive(key) =>
      var c := Caller(key, Looked(Lookup(s.cache, key, s.now)));
      TotalAppend(s.callers, c, HitOf);
      TotalAppend(s.callers, c, MissOf);
      forall o
        ensures Count(s.callers + [c], HitOf, o) == Count(s.callers, HitOf, o)
      {
        CountAppend(s.callers, c, HitOf, o);
      }
    case CallerStep(c) => CallerStepBooks(s, c);
    case FlightStep(i, reply) => FlightStepBooks(hardCap, s, i, reply);
  }

  // ---------------------------------------------------------------------------------
  // Conservation, and the one step that breaks it.

  /** A refund whose clock reading is no longer on the day of its reservation. */
  predicate Straddles(s: State, step: Step) {
    step.FlightStep? && step.flight < |s.flights| && s.flights[step.flight].phase.Calling?
    && step.reply.Skipped? && WindowFor(s.now) != s.flights[step.flight].phase.window
  }

  function GrantedUnit(f: Flight, w: Window): nat {
    One(SettledCharge(f) == Some(w)) + One(InFlightCharge(f) == Some(w))
  }

  function Unit(f: Flight, w: Window): nat { GrantedUnit(f, w) + One(DeniedCharge(f) == Some(w)) }

  lemma MoveChangesOwed(s: State, s': State, i: nat, f': Flight, w: Window)
    requires i < |s.flights| && s'.flights == s.flights[i := f']
    ensures Owed(s', w) == Owed(s, w) - Unit(s.flights[i], w) + Unit(f', w) && Unit(s.flights[i], w) <= Owed(s, w)
    ensures GrantedIn(s', w) == GrantedIn(s, w) - GrantedUnit(s.flights[i], w) + GrantedUnit(f', w)
  {
    CountUpdate(s.flights, i, f', SettledCharge, w);
    CountUpdate(s.flights, i, f', InFlightCharge, w);
    CountUpdate(s.flights, i, f', DeniedCharge, w);
  }

  /** A straddling refund gives the unit back to the wrong day; every other step balances. */
  lemma ResumeBalances(hardCap: int, now: int, counts: Counts, f: Flight, reply: Reply, w: Window)
    requires f.Active() && ChargedIffCalled(f)
    requires Unit(f, w) <= ReadCount(counts, w)
    ensures var e := Resume(hardCap, now, counts, f, reply);
            var f' := Flight(f.key, e.phase);
            var counts' := if e.meter.Some? then Incremented(counts, e.meter.value.0, e.meter.value.1) else counts;
            var lost := f.phase.Calling? && reply.Skipped? && WindowFor(now) != f.phase.window;
            && (!lost ==> ReadCount(counts', w) == ReadCount(counts, w) - Unit(f, w) + Unit(f', w))
            && (lost && w == f.phase.window ==>
                  ReadCount(counts', w) == ReadCount(counts, w) && Unit(f, w) == 1 && Unit(f', w) == 0)
            && (GrantedUnit(f', w) <= GrantedUnit(f, w) || ReadCount(counts', w) <= hardCap)
  {
  }

  lemma FlightStepConserves(hardCap: int, s: State, i: nat, reply: Reply)
    requires AllChargedIffCalled(s) && Conserved(s) && Enabled(s, FlightStep(i, reply))
    ensures Conserved(StepFlight(hardCap, s, i, reply)) <==> !Straddles(s, FlightStep(i, reply))
    ensures WithinCap(hardCap, s) && !Straddles(s, FlightStep(i, reply)) ==>
              WithinCap(hardCap, StepFlight(hardCap, s, i, reply))
  {
    var f := s.flights[i];
    var f' := Flight(f.key, Resume(hardCap, s.now, s.counts, f, reply).phase);
    var s' := StepFlight(hardCap, s, i, reply);
    forall w: Window
      ensures !Straddles(s, FlightStep(i, reply)) ==> ReadCount(s'.counts, w) == Owed(s', w)
      ensures Straddles(s, FlightStep(i, reply)) && w == f.phase.window ==> ReadCount(s'.counts, w) != Owed(s', w)
      ensures !Straddles(s, FlightStep(i, reply)) && WithinCap(hardCap, s) ==> GrantedIn(s', w) <= Max(0, hardCap)
    {
      MoveChangesOwed(s, s', i, f', w);
      assert ReadCount(s.counts, w) == Owed(s, w);
      ResumeBalances(hardCap, s.now, s.counts, f, reply, w);
      if WithinCap(hardCap, s) { assert GrantedIn(s, w) <= Max(0, hardCap); }
    }
    if Straddles(s, FlightStep(i, reply)) {
      assert ReadCount(s'.counts, f.phase.window) != Owed(s', f.phase.window);
    }
  }

  lemma CallerMoveConserves(hardCap: int, s: State, s': State, c: nat)
    requires Conserved(s) && CallerMoved(s, s', c)
    ensures Conserved(s') && (WithinCap(hardCap, s) ==> WithinCap(hardCap, s'))
  {
    forall w: Window
      ensures Owed(s', w) == Owed(s, w) && GrantedIn(s', w) == GrantedIn(s, w)
    {
      CallerMoveKeepsFlightCounts(s, s', c, SettledCharge, w);
      CallerMoveKeepsFlightCounts(s, s', c, InFlightCharge, w);
      CallerMoveKeepsFlightCounts(s, s', c, DeniedCharge, w);
    }
  }

  /**
   * A step from a conserved state conserves exactly when it is not a straddling refund, and
   * then it keeps granted reservations within the cap.
   */
  lemma StepConservesIff(hardCap: int, s: State, step: Step)
    requires SlotsMatchFlights(s) && CallersMatchFlights(s)
    requires AllChargedIffCalled(s) && Conserved(s) && Enabled(s, step)
    ensures Conserved(Apply(hardCap, s, step)) <==> !Straddles(s, step)
    ensures WithinCap(hardCap, s) && !Straddles(s, step) ==> WithinCap(hardCap, Apply(hardCap, s, step))
  {
    match step
    case Tick(_) | Arrive(_) =>
      assert forall w: Window :: GrantedIn(Apply(hardCap, s, step), w) == GrantedIn(s, w);
    case CallerStep(c) =>
      CallerStepMoves(s, c);
      CallerMoveConserves(hardCap, s, StepCaller(s, c), c);
    case FlightStep(i, reply) => FlightStepConserves(hardCap, s, i, reply);
  }
}
