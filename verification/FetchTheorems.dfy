/** What every schedule of the fetch pipeline keeps. */
module FetchTheorems {
  import opened Wrappers
  import opened Quota
  import opened ProviderCache
  import opened FetchPipeline

  // ---------------------------------------------------------------------------------
  // Mutual exclusion: one flight per key.

  ghost predicate SlotsMatchFlights(s: State) {
    && (forall i :: 0 <= i < |s.flights| && s.flights[i].Active() ==>
          s.flights[i].key in s.inflight && s.inflight[s.flights[i].key] == i)
    && (forall k :: k in s.inflight ==>
          s.inflight[k] < |s.flights| && s.flights[s.inflight[k]].key == k && s.flights[s.inflight[k]].Active())
  }

  /** Every caller looks at or waits on a flight for its own key, and gets that flight's verdict. */
  ghost predicate CallersMatchFlights(s: State) {
    forall c :: 0 <= c < |s.callers| ==> CallerMatches(s.flights, s.callers[c])
  }

  ghost predicate CallerMatches(flights: seq<Flight>, x: Caller) {
    match x.stage
    case Looked(_) => true
    case Served(_) => true
    case Awaiting(f) => f < |flights| && flights[f].key == x.key
    case Answered(f, outcome, answer) =>
      && f < |flights| && flights[f].key == x.key
      && flights[f].phase.Cleared?
      && flights[f].phase.verdict.outcome == outcome && flights[f].phase.verdict.answer == answer
  }

  /** The part of a flight step that mutual exclusion and the callers can see. */
  ghost predicate FlightMoved(s: State, s': State, i: nat) {
    && i < |s.flights| == |s'.flights|
    && s.flights[i].Active()
    && s'.flights == s.flights[i := s'.flights[i]]
    && s'.flights[i].key == s.flights[i].key
    && s'.callers == s.callers && s'.now == s.now
    && s'.inflight == if s'.flights[i].Active() then s.inflight else s.inflight - {s.flights[i].key}
  }

  lemma FlightStepMoves(hardCap: int, s: State, i: nat, reply: Reply)
    requires SlotsMatchFlights(s) && Enabled(s, FlightStep(i, reply))
    ensures FlightMoved(s, StepFlight(hardCap, s, i, reply), i)
  {
    var s' := StepFlight(hardCap, s, i, reply);
    assert s'.flights == s.flights[i := s'.flights[i]];
  }

  lemma MoveKeepsSlots(s: State, s': State, i: nat)
    requires SlotsMatchFlights(s) && CallersMatchFlights(s) && FlightMoved(s, s', i)
    ensures SlotsMatchFlights(s') && CallersMatchFlights(s')
  {
    assert forall j :: 0 <= j < |s.flights| && j != i ==> s'.flights[j] == s.flights[j];
  }

  /** The part of a caller step that flights, slots and the cache can see: at most one new flight. */
  ghost predicate CallerMoved(s: State, s': State, c: nat) {
    && c < |s.callers| == |s'.callers|
    && s'.callers == s.callers[c := s'.callers[c]]
    && s'.callers[c].key == s.callers[c].key
    && s'.now == s.now && s'.history == s.history && s'.counts == s.counts
    && var key := s.callers[c].key;
       || (s'.flights == s.flights && s'.inflight == s.inflight && s'.cache == s.cache)
       || (&& key !in s.inflight
           && s'.inflight == s.inflight[key := |s.flights|]
           && s'.flights == s.flights + [Flight(key, Rechecked(Lookup(s.cache, key, s.now)))]
           && s'.cache == AfterGet(s.cache, key, s.now))
  }

  lemma CallerStepMoves(s: State, c: nat)
    requires Enabled(s, CallerStep(c))
    ensures CallerMoved(s, StepCaller(s, c), c)
  {
    assert StepCaller(s, c).callers[c].key == s.callers[c].key;
  }

  /** The caller that steps ends up looking at a flight for its own key, new or old. */
  lemma {:induction false} SteppedCallerMatches(s: State, c: nat)
    requires SlotsMatchFlights(s) && Enabled(s, CallerStep(c)) && CallerMatches(s.flights, s.callers[c])
    ensures CallerMatches(StepCaller(s, c).flights, StepCaller(s, c).callers[c])
  {
    var key := s.callers[c].key;
    match s.callers[c].stage
    case Looked(Some(value)) => assert StepCaller(s, c).callers[c] == Caller(key, Served(value));
    case Looked(None) =>
      if key in s.inflight {
        assert StepCaller(s, c).callers[c] == Caller(key, Awaiting(s.inflight[key]));
      } else {
        assert StepCaller(s, c).callers[c] == Caller(key, Awaiting(|s.flights|));
      }
    case Awaiting(_) =>
  }

  lemma {:induction false} CallerStepKeepsCallers(s: State, c: nat)
    requires SlotsMatchFlights(s) && CallersMatchFlights(s) && Enabled(s, CallerStep(c))
    ensures CallersMatchFlights(StepCaller(s, c))
  {
    var s' := StepCaller(s, c);
    SteppedCallerMatches(s, c);
    CallerStepMoves(s, c);
    forall d | 0 <= d < |s'.callers|
      ensures CallerMatches(s'.flights, s'.callers[d])
    {
      assert d != c ==> s'.callers[d] == s.callers[d] && CallerMatches(s.flights, s.callers[d]);
    }
  }

  lemma CallerMoveKeepsSlots(s: State, s': State, c: nat)
    requires SlotsMatchFlights(s) && CallerMoved(s, s', c)
    ensures SlotsMatchFlights(s')
  {
  }

  lemma StepKeepsSlots(hardCap: int, s: State, step: Step)
    requires SlotsMatchFlights(s) && CallersMatchFlights(s) && Enabled(s, step)
    ensures SlotsMatchFlights(Apply(hardCap, s, step)) && CallersMatchFlights(Apply(hardCap, s, step))
  {
    match step
    case Tick(_) =>
    case Arrive(_) =>
    case CallerStep(c) =>
      CallerStepMoves(s, c);
      CallerMoveKeepsSlots(s, StepCaller(s, c), c);
      CallerStepKeepsCallers(s, c);
    case FlightStep(i, reply) =>
      FlightStepMoves(hardCap, s, i, reply);
      MoveKeepsSlots(s, StepFlight(hardCap, s, i, reply), i);
  }

  // ---------------------------------------------------------------------------------
  // Spacing: a cached response keeps the next provider call away until its expiry.

  function CacheEntry(s: State, key: Key): Option<Entry<Payload>> {
    if key in s.cache then Some(s.cache[key]) else None
  }

  ghost predicate ExpiredBy(log: seq<CachedFetch>, t: int) {
    log == [] || log[|log| - 1].Expiry() <= t
  }

  /**
   * The cached responses of one key: each call starts at or after the expiry before it, and
   * the cache entry is the newest response unless that response has expired.
   */
  ghost predicate KeySpaced(w: Workload, log: seq<CachedFetch>, entry: Option<Entry<Payload>>, now: int) {
    && (forall j :: 0 <= j < |log| ==>
          log[j].startedAt <= log[j].cachedAt <= now && log[j].ttlSeconds == EffectiveTtl(w, log[j].body))
    && (forall j :: 0 < j < |log| ==> log[j - 1].Expiry() <= log[j].startedAt)
    && match entry
       case Some(e) => log != [] && e == Entry(log[|log| - 1].body, log[|log| - 1].Expiry())
       case None => ExpiredBy(log, now)
  }

  /** A flight that has passed its second cache read calls no sooner than the newest expiry. */
  ghost predicate FlightSpaced(phase: Phase, log: seq<CachedFetch>, now: int) {
    && (phase == Rechecked(None) || phase.Granted? || phase.Refused? ==> ExpiredBy(log, now))
    && (phase.Calling? ==> phase.startedAt <= now && ExpiredBy(log, phase.startedAt))
  }

  ghost predicate Spaced(s: State) {
    && (forall k: Key :: KeySpaced(k.workload, History(s, k), CacheEntry(s, k), s.now))
    && (forall i :: 0 <= i < |s.flights| ==> FlightSpaced(s.flights[i].phase, History(s, s.flights[i].key), s.now))
  }

  lemma TickKeepsSpacing(s: State, ms: nat)
    requires Spaced(s)
    ensures Spaced(s.(now := s.now + ms))
  {
    var s' := s.(now := s.now + ms);
    forall k: Key
      ensures KeySpaced(k.workload, History(s', k), CacheEntry(s', k), s'.now)
    {
      assert KeySpaced(k.workload, History(s, k), CacheEntry(s, k), s.now);
      assert History(s', k) == History(s, k) && CacheEntry(s', k) == CacheEntry(s, k);
    }
    forall i | 0 <= i < |s'.flights|
      ensures FlightSpaced(s'.flights[i].phase, History(s', s'.flights[i].key), s'.now)
    {
      assert FlightSpaced(s.flights[i].phase, History(s, s.flights[i].key), s.now);
      assert History(s', s.flights[i].key) == History(s, s.flights[i].key);
    }
  }

  /** A cache read, by a caller or by a new flight, that may drop a stale entry. */
  lemma ReadKeepsSpacing(s: State, s': State, key: Key)
    requires Spaced(s) && s'.now == s.now && s'.history == s.history
    requires s'.cache == s.cache || s'.cache == AfterGet(s.cache, key, s.now)
    requires || s'.flights == s.flights
             || s'.flights == s.flights + [Flight(key, Rechecked(Lookup(s.cache, key, s.now)))]
    ensures Spaced(s')
  {
    forall k: Key
      ensures KeySpaced(k.workload, History(s', k), CacheEntry(s', k), s'.now)
    {
      assert KeySpaced(k.workload, History(s, k), CacheEntry(s, k), s.now);
      assert History(s', k) == History(s, k);
      assert k != key ==> CacheEntry(s', k) == CacheEntry(s, k);
    }
    forall i | 0 <= i < |s'.flights|
      ensures FlightSpaced(s'.flights[i].phase, History(s', s'.flights[i].key), s'.now)
    {
      if i < |s.flights| {
        assert s'.flights[i] == s.flights[i];
        assert FlightSpaced(s.flights[i].phase, History(s, s.flights[i].key), s.now);
        assert History(s', s.flights[i].key) == History(s, s.flights[i].key);
      } else {
        assert KeySpaced(key.workload, History(s, key), CacheEntry(s, key), s.now);
        assert History(s', key) == History(s, key);
      }
    }
  }

  /** The loader's own side of a step that caches nothing. */
  lemma ResumeKeepsSpacing(hardCap: int, now: int, counts: Counts, f: Flight, reply: Reply, log: seq<CachedFetch>)
    requires f.Active() && FlightSpaced(f.phase, log, now)
    requires Resume(hardCap, now, counts, f, reply).written.None?
    ensures FlightSpaced(Resume(hardCap, now, counts, f, reply).phase, log, now)
  {
  }

  lemma PerformKeepsSpacing(s: State, i: nat, e: Effect)
    requires Spaced(s) && i < |s.flights| && e.written.None?
    requires FlightSpaced(e.phase, History(s, s.flights[i].key), s.now)
    ensures Spaced(Perform(s, i, e))
  {
    var s' := Perform(s, i, e);
    assert s'.history == s.history && s'.cache == s.cache && s'.now == s.now;
    forall k: Key
      ensures KeySpaced(k.workload, History(s', k), CacheEntry(s', k), s'.now)
    {
      assert KeySpaced(k.workload, History(s, k), CacheEntry(s, k), s.now);
      assert History(s', k) == History(s, k) && CacheEntry(s', k) == CacheEntry(s, k);
    }
    forall j | 0 <= j < |s'.flights|
      ensures FlightSpaced(s'.flights[j].phase, History(s', s'.flights[j].key), s'.now)
    {
      assert FlightSpaced(s.flights[j].phase, History(s, s.flights[j].key), s.now);
      assert History(s', s.flights[j].key) == History(s, s.flights[j].key);
    }
  }

  lemma AppendKeepsKeySpaced(w: Workload, log: seq<CachedFetch>, entry: Option<Entry<Payload>>, now: int,
                             fetch: CachedFetch)
    requires KeySpaced(w, log, entry, now)
    requires ExpiredBy(log, fetch.startedAt)
    requires fetch.startedAt <= fetch.cachedAt == now && fetch.ttlSeconds == EffectiveTtl(w, fetch.body)
    ensures KeySpaced(w, log + [fetch], Some(Entry(fetch.body, fetch.Expiry())), now)
  {
  }

  /** The provider call of flight `i` is answered with a response that is cached. */
  ghost predicate Writes(s: State, i: nat, e: Effect) {
    && i < |s.flights| && s.flights[i].phase.Calling? && e.written.Some? && e.phase.Settling?
    && var fetch := e.written.value;
       && fetch.startedAt == s.flights[i].phase.startedAt && fetch.cachedAt == s.now
       && fetch.ttlSeconds == EffectiveTtl(s.flights[i].key.workload, fetch.body)
  }

  lemma WriteKeepsKeySpaced(s: State, i: nat, e: Effect, k: Key)
    requires Writes(s, i, e) && KeySpaced(k.workload, History(s, k), CacheEntry(s, k), s.now)
    requires FlightSpaced(s.flights[i].phase, History(s, s.flights[i].key), s.now)
    ensures var s' := Perform(s, i, e); KeySpaced(k.workload, History(s', k), CacheEntry(s', k), s'.now)
  {
    if k == s.flights[i].key {
      AppendKeepsKeySpaced(k.workload, History(s, k), CacheEntry(s, k), s.now, e.written.value);
    }
  }

  /** No other flight of the key is past its second read. */
  lemma WriteKeepsFlightSpaced(s: State, i: nat, e: Effect, j: nat)
    requires SlotsMatchFlights(s) && Writes(s, i, e) && j < |s.flights|
    requires FlightSpaced(s.flights[j].phase, History(s, s.flights[j].key), s.now)
    ensures var s' := Perform(s, i, e); FlightSpaced(s'.flights[j].phase, History(s', s'.flights[j].key), s'.now)
  {
    if j != i && s.flights[j].key == s.flights[i].key {
      assert s.flights[j].phase.Cleared?;
    }
  }

  lemma WriteKeepsSpacing(s: State, i: nat, e: Effect)
    requires SlotsMatchFlights(s) && Spaced(s) && Writes(s, i, e)
    ensures Spaced(Perform(s, i, e))
  {
    var s' := Perform(s, i, e);
    forall k: Key
      ensures KeySpaced(k.workload, History(s', k), CacheEntry(s', k), s'.now)
    {
      assert KeySpaced(k.workload, History(s, k), CacheEntry(s, k), s.now);
      assert FlightSpaced(s.flights[i].phase, History(s, s.flights[i].key), s.now);
      WriteKeepsKeySpaced(s, i, e, k);
    }
    forall j | 0 <= j < |s'.flights|
      ensures FlightSpaced(s'.flights[j].phase, History(s', s'.flights[j].key), s'.now)
    {
      assert FlightSpaced(s.flights[j].phase, History(s, s.flights[j].key), s.now);
      WriteKeepsFlightSpaced(s, i, e, j);
    }
  }

  lemma FlightStepKeepsSpacing(hardCap: int, s: State, i: nat, reply: Reply)
    requires SlotsMatchFlights(s) && Spaced(s) && Enabled(s, FlightStep(i, reply))
    ensures Spaced(StepFlight(hardCap, s, i, reply))
  {
    var e := Resume(hardCap, s.now, s.counts, s.flights[i], reply);
    if e.written.Some? {
      WriteKeepsSpacing(s, i, e);
    } else {
      assert FlightSpaced(s.flights[i].phase, History(s, s.flights[i].key), s.now);
      ResumeKeepsSpacing(hardCap, s.now, s.counts, s.flights[i], reply, History(s, s.flights[i].key));
      PerformKeepsSpacing(s, i, e);
    }
  }

  lemma CallerStepKeepsSpacing(s: State, c: nat)
    requires SlotsMatchFlights(s) && CallersMatchFlights(s) && Spaced(s) && Enabled(s, CallerStep(c))
    ensures Spaced(StepCaller(s, c))
  {
    CallerStepMoves(s, c);
    ReadKeepsSpacing(s, StepCaller(s, c), s.callers[c].key);
  }

  lemma ArriveKeepsSpacing(hardCap: int, s: State, step: Step)
    requires Spaced(s) && step.Arrive?
    ensures Spaced(Apply(hardCap, s, step))
  {
    ReadKeepsSpacing(s, Apply(hardCap, s, step), step.key);
  }

  lemma StepKeepsSpacing(hardCap: int, s: State, step: Step)
    requires SlotsMatchFlights(s) && CallersMatchFlights(s) && Spaced(s) && Enabled(s, step)
    ensures Spaced(Apply(hardCap, s, step))
  {
    if step.Tick? {
      TickKeepsSpacing(s, step.ms);
    } else if step.Arrive? {
      ArriveKeepsSpacing(hardCap, s, step);
    } else if step.CallerStep? {
      CallerStepKeepsSpacing(s, step.caller);
    } else {
      FlightStepKeepsSpacing(hardCap, s, step.flight, step.reply);
    }
  }
}
