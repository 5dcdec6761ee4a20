/**
 * The fetch pipeline as a transition system. One step runs from one `await` to the next, so
 * a schedule (a sequence of steps) is one interleaving of any number of `fetchWorkload`
 * calls, over one shared cache, singleflight map, quota meter and metrics object.
 */
module FetchPipeline {
  import opened Wrappers
  import opened AsciiText
  import opened Quota
  import opened ProviderCache
  import opened IngestionMetrics
  import SF = Singleflight

  datatype Workload =
    | FixturesNext7d | FixtureDetailPreKO | FixtureDetailLive | FixtureDetailFullTime
    | EventsPostFinal | LineupsPostConfirm | TeamMatchStats | PlayerMatchStats
    | SquadListFallback | CompetitionStandings | CompetitionCurrentSeason
    | TeamMetadata | PlayerMetadata

  function TtlSeconds(w: Workload): int {
    match w
    case FixtureDetailLive => 30
    case TeamMatchStats | PlayerMatchStats => 60
    case FixtureDetailPreKO | LineupsPostConfirm => 3_600
    case FixturesNext7d | FixtureDetailFullTime | EventsPostFinal | CompetitionStandings => 21_600
    case SquadListFallback | CompetitionCurrentSeason | TeamMetadata | PlayerMetadata => 86_400
  }

  const LINEUPS_EMPTY_TTL_SECONDS: int := 300

  /** A provider body; `emptyResponse` is the `{ response: [] }` shape. */
  datatype Payload = Payload(body: string, emptyResponse: bool)

  function EffectiveTtl(w: Workload, json: Payload): int {
    if w == LineupsPostConfirm && json.emptyResponse then Min(TtlSeconds(w), LINEUPS_EMPTY_TTL_SECONDS)
    else TtlSeconds(w)
  }

  /** The shortest time any response of the workload stays cached. */
  function MinTtl(w: Workload): int {
    if w == LineupsPostConfirm then LINEUPS_EMPTY_TTL_SECONDS else TtlSeconds(w)
  }

  datatype Key = Key(workload: Workload, resourceId: string)

  datatype Reply = Skipped | Failed | RateLimited | Fetched(json: Option<Payload>)

  type Outcome = CallOutcome

  /** How a flight ended. `charge` is the window it still holds a unit of, if any. */
  datatype Verdict = Verdict(outcome: Outcome, answer: Option<Payload>, charge: Option<Window>)

  /** Where a flight stands: each constructor names the await it is suspended at. */
  datatype Phase =
    | Rechecked(hit: Option<Payload>)         // the second cache read has been answered
    | Granted(window: Window)                 // the increment stayed within the hard cap
    | Refused(window: Window)                 // the increment went over the hard cap
    | DenialRefunded                          // the refused increment has been given back
    | Calling(window: Window, startedAt: int) // the provider call is out
    | SkipRefunded                            // a call that never left has been given back
    | Settling(verdict: Verdict)              // cache write and bridge callback
    | Returned(verdict: Verdict)              // settled, not yet cleared from the map
    | Cleared(verdict: Verdict)

  datatype Flight = Flight(key: Key, phase: Phase) {
    predicate Active() { !phase.Cleared? }

    predicate Finished() { phase.Settling? || phase.Returned? || phase.Cleared? }
  }

  datatype Caller = Caller(key: Key, stage: Stage)

  datatype Stage =
    | Looked(hit: Option<Payload>)
    | Served(value: Payload)
    | Awaiting(flight: nat)
    | Answered(flight: nat, outcome: Outcome, answer: Option<Payload>)

  datatype Metrics = Metrics(
    cacheHits: nat, cacheMisses: nat,
    outcomes: multiset<Outcome>, providerCalls: multiset<Workload>)

  /** History: one provider response that was written to the cache. */
  datatype CachedFetch = CachedFetch(startedAt: int, cachedAt: int, ttlSeconds: int, body: Payload) {
    function Expiry(): int { cachedAt + ttlSeconds * 1000 }
  }

  datatype State = State(
    now: int,
    cache: map<Key, Entry<Payload>>,
    inflight: map<Key, nat>,
    counts: Counts,
    metrics: Metrics,
    callers: seq<Caller>,
    flights: seq<Flight>,
    history: map<Key, seq<CachedFetch>>)

  datatype Step =
    | Tick(ms: nat)
    | Arrive(key: Key)
    | CallerStep(caller: nat)
    | FlightStep(flight: nat, reply: Reply)

  function Init(now: int): State {
    State(now, map[], map[], map[], Metrics(0, 0, multiset{}, multiset{}), [], [], map[])
  }

  function History(s: State, key: Key): seq<CachedFetch> {
    if key in s.history then s.history[key] else []
  }

  predicate Enabled(s: State, step: Step) {
    match step
    case Tick(_) => true
    case Arrive(_) => true
    case CallerStep(c) =>
      && c < |s.callers|
      && match s.callers[c].stage {
           case Looked(_) => true
           case Served(_) => false
           case Awaiting(f) => f < |s.flights| && s.flights[f].phase.Cleared?
           case Answered(_, _, _) => false
         }
    case FlightStep(f, _) => f < |s.flights| && s.flights[f].Active()
  }

  function Apply(hardCap: int, s: State, step: Step): State
    requires Enabled(s, step)
  {
    match step
    case Tick(ms) => s.(now := s.now + ms)
    case Arrive(key) =>
      s.(cache := AfterGet(s.cache, key, s.now),
         callers := s.callers + [Caller(key, Looked(Lookup(s.cache, key, s.now)))])
    case CallerStep(c) => StepCaller(s, c)
    case FlightStep(f, reply) => StepFlight(hardCap, s, f, reply)
  }

  /** The caller resumes after its own cache read, or after the flight it joined. */
  function StepCaller(s: State, c: nat): State
    requires Enabled(s, CallerStep(c))
  {
    var key := s.callers[c].key;
    match s.callers[c].stage
    case Looked(Some(value)) =>
      s.(callers := s.callers[c := Caller(key, Served(value))],
         metrics := s.metrics.(cacheHits := s.metrics.cacheHits + 1,
                               outcomes := s.metrics.outcomes + multiset{WasCached}))
    case Looked(None) =>
      var counted := s.(metrics := s.metrics.(cacheMisses := s.metrics.cacheMisses + 1));
      if key in s.inflight then
        counted.(callers := s.callers[c := Caller(key, Awaiting(s.inflight[key]))])
      else
        counted.(
          callers := s.callers[c := Caller(key, Awaiting(|s.flights|))],
          inflight := SF.AfterJoin(s.inflight, key, |s.flights|),
          cache := AfterGet(s.cache, key, s.now),
          flights := s.flights + [Flight(key, Rechecked(Lookup(s.cache, key, s.now)))])
    case Awaiting(f) =>
      var settled := s.flights[f].phase.verdict;
      s.(callers := s.callers[c := Caller(key, Answered(f, settled.outcome, settled.answer))])
  }

  /** What one resumption of a loader does, to its own flight and to the shared objects. */
  datatype Effect = Effect(
    phase: Phase,
    meter: Option<(Window, int)>,          // store.increment(window, delta)
    outcome: Option<Outcome>,              // metrics.recordOutcome
    called: bool,                          // metrics.recordProviderCall
    written: Option<CachedFetch>)          // cache.set

  function Moved(phase: Phase): Effect { Effect(phase, None, None, false, None) }

  function Ended(outcome: Outcome, answer: Option<Payload>): Effect {
    Effect(Returned(Verdict(outcome, answer, None)), None, Some(outcome), false, None)
  }

  /** The loader of one flight resumes. `reply` matters only while the provider call is out. */
  function Resume(hardCap: int, now: int, counts: Counts, flight: Flight, reply: Reply): Effect
    requires flight.Active()
  {
    match flight.phase
    case Rechecked(Some(value)) =>
      Effect(Settling(Verdict(WasCached, Some(value), None)), None, Some(WasCached), false, None)
    case Rechecked(None) =>
      var window := WindowFor(now);
      // The total is captured by the increment, so the verdict is fixed at this point.
      var total := ReadCount(Incremented(counts, window, 1), window);
      Effect(if total > hardCap then Refused(window) else Granted(window), Some((window, 1)), None, false, None)
    case Refused(window) => Effect(DenialRefunded, Some((window, -1)), None, false, None)
    case DenialRefunded => Ended(WasDenied, None)
    case Granted(window) => Moved(Calling(window, now))
    case Calling(window, startedAt) =>
      (match reply
       case RateLimited =>
         Effect(Returned(Verdict(WasRateLimited, None, Some(window))), None, Some(WasRateLimited), true, None)
       case Failed =>
         Effect(Returned(Verdict(WasFailed, None, Some(window))), None, Some(WasFailed), true, None)
       case Skipped =>
         // The window is computed afresh from the clock, not taken from the reservation.
         Effect(SkipRefunded, Some((WindowFor(now), -1)), None, false, None)
       case Fetched(None) =>
         Effect(Settling(Verdict(WasFetched, None, Some(window))), None, Some(WasFetched), true, None)
       case Fetched(Some(body)) =>
         var fetch := CachedFetch(startedAt, now, EffectiveTtl(flight.key.workload, body), body);
         Effect(Settling(Verdict(WasFetched, Some(body), Some(window))), None, Some(WasFetched), true,
                Some(fetch)))
    case SkipRefunded => Ended(WasSkipped, None)
    case Settling(v) => Moved(Returned(v))
    case Returned(v) => Moved(Cleared(v))
  }

  function StepFlight(hardCap: int, s: State, i: nat, reply: Reply): State
    requires Enabled(s, FlightStep(i, reply))
  {
    Perform(s, i, Resume(hardCap, s.now, s.counts, s.flights[i], reply))
  }

  function Perform(s: State, i: nat, e: Effect): State
    requires i < |s.flights|
  {
    var key := s.flights[i].key;
    State(
      s.now,
      if e.written.Some?
      then AfterSet(s.cache, key, e.written.value.body, e.written.value.ttlSeconds, s.now) else s.cache,
      if e.phase.Cleared? then SF.AfterSettle(s.inflight, key, i) else s.inflight,
      if e.meter.Some? then Incremented(s.counts, e.meter.value.0, e.meter.value.1) else s.counts,
      Metrics(
        s.metrics.cacheHits, s.metrics.cacheMisses,
        s.metrics.outcomes + (if e.outcome.Some? then multiset{e.outcome.value} else multiset{}),
        s.metrics.providerCalls + (if e.called then multiset{key.workload} else multiset{})),
      s.callers,
      s.flights[i := Flight(key, e.phase)],
      if e.written.Some? then s.history[key := History(s, key) + [e.written.value]] else s.history)
  }

  /** Every step of the schedule is enabled where it is taken. */
  predicate Legal(hardCap: int, s: State, steps: seq<Step>)
    decreases |steps|
  {
    steps == [] || (Enabled(s, steps[0]) && Legal(hardCap, Apply(hardCap, s, steps[0]), steps[1..]))
  }

  function After(hardCap: int, s: State, steps: seq<Step>): State
    requires Legal(hardCap, s, steps)
    decreases |steps|
  {
    if steps == [] then s else After(hardCap, Apply(hardCap, s, steps[0]), steps[1..])
  }

  // ---------------------------------------------------------------------------------
  // cacheKeyFor: the string form of a key.

  function WorkloadName(w: Workload): (name: string)
    ensures ':' !in name
  {
    match w
    case FixturesNext7d => "fixtures-next-7d"
    case FixtureDetailPreKO => "fixture-detail-preKO"
    case FixtureDetailLive => "fixture-detail-live"
    case FixtureDetailFullTime => "fixture-detail-fullTime"
    case EventsPostFinal => "events-post-final"
    case LineupsPostConfirm => "lineups-post-confirm"
    case TeamMatchStats => "team-match-stats"
    case PlayerMatchStats => "player-match-stats"
    case SquadListFallback => "squad-list-fallback"
    case CompetitionStandings => "competition-standings"
    case CompetitionCurrentSeason => "competition-current-season"
    case TeamMetadata => "team-metadata"
    case PlayerMetadata => "player-metadata"
  }

  function CacheKeyFor(provider: string, key: Key): string {
    provider + (":" + (WorkloadName(key.workload) + (":" + key.resourceId)))
  }

  lemma WorkloadNamesDiffer(w1: Workload, w2: Workload)
    requires WorkloadName(w1) == WorkloadName(w2)
    ensures w1 == w2
  {
    var (n1, n2) := (WorkloadName(w1), WorkloadName(w2));
    assert |n1| == |n2|;
    assert n1[0] == n2[0] && n1[|n1| - 1] == n2[|n2| - 1];
  }

  /**
   * Two requests share a cache entry and a flight only when they are the same request, colons in
   * resource ids or not.
   */
  lemma CacheKeyIsInjective(provider: string, k1: Key, k2: Key)
    requires CacheKeyFor(provider, k1) == CacheKeyFor(provider, k2)
    ensures k1 == k2
  {
    var rest1 := WorkloadName(k1.workload) + (":" + k1.resourceId);
    var rest2 := WorkloadName(k2.workload) + (":" + k2.resourceId);
    DropPrefix(provider, ":" + rest1, ":" + rest2);
    DropPrefix(":", rest1, rest2);
    SplitAtFirst(':', WorkloadName(k1.workload), k1.resourceId, WorkloadName(k2.workload), k2.resourceId);
    WorkloadNamesDiffer(k1.workload, k2.workload);
  }
}
