/**
 * What the callers of the fetch pipeline are told. The reference is the schedule itself: what each
 * flight met in the cache, on the meter and from the provider.
 */
module FetchAnswers {
  import opened Wrappers
  import opened Quota
  import opened ProviderCache
  import opened IngestionMetrics
  import opened FetchPipeline
  import opened FetchTheorems
  import opened FetchRuns

  // ---------------------------------------------------------------------------------
  // The cache holds the responses of the provider.

  /** The newest cached response of the key, while it has not expired. */
  function Fresh(s: State, key: Key): Option<Payload> {
    var log := History(s, key);
    if log != [] && s.now < log[|log| - 1].Expiry() then Some(log[|log| - 1].body) else None
  }

  /** The response with a body, if any, that this step brings to the key. */
  function Response(s: State, step: Step, key: Key): seq<CachedFetch> {
    if step.FlightStep? && step.flight < |s.flights| && s.flights[step.flight].key == key
       && s.flights[step.flight].phase.Calling? && step.reply.Fetched? && step.reply.json.Some?
    then
      var body := step.reply.json.value;
      [CachedFetch(s.flights[step.flight].phase.startedAt, s.now, EffectiveTtl(key.workload, body), body)]
    else []
  }

  /** All responses with a body that the provider gives for the key during the run, in order. */
  function Responses(hardCap: int, s: State, steps: seq<Step>, key: Key): seq<CachedFetch>
    requires Legal(hardCap, s, steps)
    decreases |steps|
  {
    if steps == [] then []
    else Response(s, steps[0], key) + Responses(hardCap, Apply(hardCap, s, steps[0]), steps[1..], key)
  }

  lemma {:induction false} ResumeCachesTheResponse(hardCap: int, s: State, i: nat, reply: Reply)
    requires Enabled(s, FlightStep(i, reply))
    ensures var written := Resume(hardCap, s.now, s.counts, s.flights[i], reply).written;
            Response(s, FlightStep(i, reply), s.flights[i].key) == if written.Some? then [written.value] else []
  {
  }

  lemma {:induction false} StepCachesTheResponse(hardCap: int, s: State, step: Step, key: Key)
    requires Enabled(s, step)
    ensures History(Apply(hardCap, s, step), key) == History(s, key) + Response(s, step, key)
  {
    match step
    case Tick(_) | Arrive(_) =>
    case CallerStep(c) => CallerStepMoves(s, c);
    case FlightStep(i, reply) =>
      ResumeCachesTheResponse(hardCap, s, i, reply);
      var written := Resume(hardCap, s.now, s.counts, s.flights[i], reply).written;
      var (own, to) := (s.flights[i].key, Apply(hardCap, s, step));
      assert to.history == if written.Some? then s.history[own := History(s, own) + [written.value]] else s.history;
  }

  lemma {:induction false} RunCachesTheResponses(hardCap: int, s: State, steps: seq<Step>, key: Key)
    requires Legal(hardCap, s, steps)
    ensures History(After(hardCap, s, steps), key) == History(s, key) + Responses(hardCap, s, steps, key)
    decreases |steps|
  {
    if steps != [] {
      StepCachesTheResponse(hardCap, s, steps[0], key);
      RunCachesTheResponses(hardCap, Apply(hardCap, s, steps[0]), steps[1..], key);
    }
  }

  lemma {:induction false} LookupIsFresh(s: State, key: Key)
    requires Spaced(s)
    ensures Lookup(s.cache, key, s.now) == Fresh(s, key)
  {
    assert KeySpaced(key.workload, History(s, key), CacheEntry(s, key), s.now);
  }

  /**
   * How long a response answers: half a minute for a live fixture, a minute for match statistics, an
   * hour, six hours or a day for the rest, and five minutes for lineups that are not published yet.
   */
  predicate AnswersWhile(w: Workload, unpublished: bool, ageMs: int, answers: bool) {
    && (w == FixtureDetailLive ==> (answers <==> ageMs < 30_000))
    && (w in {TeamMatchStats, PlayerMatchStats} ==> (answers <==> ageMs < 60_000))
    && (w == LineupsPostConfirm && unpublished ==> (answers <==> ageMs < 300_000))
    && (w == LineupsPostConfirm && !unpublished ==> (answers <==> ageMs < 3_600_000))
    && (w == FixtureDetailPreKO ==> (answers <==> ageMs < 3_600_000))
    && (w in {FixturesNext7d, FixtureDetailFullTime, EventsPostFinal, CompetitionStandings} ==>
          (answers <==> ageMs < 21_600_000))
    && (w in {SquadListFallback, CompetitionCurrentSeason, TeamMetadata, PlayerMetadata} ==>
          (answers <==> ageMs < 86_400_000))
  }

  lemma {:induction false} ResponseAnswersWhile(w: Workload, f: CachedFetch, now: int)
    requires f.ttlSeconds == EffectiveTtl(w, f.body)
    ensures AnswersWhile(w, f.body.emptyResponse, now - f.cachedAt, now < f.Expiry())
  {
  }

  /** A read of the key answers the last body of the log while it may, and otherwise nothing. */
  predicate AnswersLast(s: State, key: Key, log: seq<CachedFetch>) {
    var hit := Lookup(s.cache, key, s.now);
    if log == [] then hit.None?
    else
      var last := log[|log| - 1];
      && (hit.Some? ==> hit.value == last.body)
      && AnswersWhile(key.workload, last.body.emptyResponse, s.now - last.cachedAt, hit.Some?)
  }

  lemma {:induction false} SpacedAnswersLast(s: State, key: Key)
    requires Spaced(s)
    ensures AnswersLast(s, key, History(s, key))
  {
    var log := History(s, key);
    LookupIsFresh(s, key);
    assert KeySpaced(key.workload, log, CacheEntry(s, key), s.now);
    if log != [] { ResponseAnswersWhile(key.workload, log[|log| - 1], s.now); }
  }

  /**
   * In every schedule, a cache read answers the last body the provider gave for the key, as long as
   * that body answers, and nothing else.
   */
  lemma {:induction false} CacheAnswersTheLastResponse(hardCap: int, now: int, steps: seq<Step>, key: Key)
    requires Legal(hardCap, Init(now), steps)
    ensures AnswersLast(After(hardCap, Init(now), steps), key,
                        Responses(hardCap, Init(now), steps, key))
  {
    InitInv(now);
    RunKeepsInv(hardCap, Init(now), steps);
    RunCachesTheResponses(hardCap, Init(now), steps, key);
    SpacedAnswersLast(After(hardCap, Init(now), steps), key);
  }

  // ---------------------------------------------------------------------------------
  // A caller is served from the cache, or joins a flight.

  /** Where a caller can be after its read found `hit`. */
  predicate Follows(x: Caller, key: Key, hit: Option<Payload>) {
    && x.key == key
    && match x.stage
       case Looked(found) => found == hit
       case Served(value) => hit == Some(value)
       case Awaiting(_) | Answered(_, _, _) => hit == None
  }

  lemma {:induction false} StepFollows(hardCap: int, s: State, step: Step, c: nat, key: Key, hit: Option<Payload>)
    requires Enabled(s, step) && c < |s.callers| && Follows(s.callers[c], key, hit)
    ensures c < |Apply(hardCap, s, step).callers| && Follows(Apply(hardCap, s, step).callers[c], key, hit)
  {
    if step.CallerStep? {
      CallerStepMoves(s, step.caller);
      assert step.caller != c ==> StepCaller(s, step.caller).callers[c] == s.callers[c];
      match s.callers[step.caller].stage {
        case Looked(Some(value)) => assert StepCaller(s, step.caller).callers[step.caller].stage == Served(value);
        case Looked(None) => assert StepCaller(s, step.caller).callers[step.caller].stage.Awaiting?;
        case Awaiting(_) => assert StepCaller(s, step.caller).callers[step.caller].stage.Answered?;
      }
    }
  }

  lemma {:induction false} RunFollows(hardCap: int, s: State, steps: seq<Step>, c: nat, key: Key, hit: Option<Payload>)
    requires Legal(hardCap, s, steps) && c < |s.callers| && Follows(s.callers[c], key, hit)
    ensures c < |After(hardCap, s, steps).callers| && Follows(After(hardCap, s, steps).callers[c], key, hit)
    decreases |steps|
  {
    if steps != [] {
      StepFollows(hardCap, s, steps[0], c, key, hit);
      RunFollows(hardCap, Apply(hardCap, s, steps[0]), steps[1..], c, key, hit);
    }
  }

  /**
   * A request is served exactly when the newest response of its key has not expired at its
   * arrival, and then with that response; otherwise it joins a flight.
   */
  lemma {:induction false} ServedIsTheNewestResponse(
    hardCap: int, now: int, before: seq<Step>, key: Key, later: seq<Step>)
    requires Legal(hardCap, Init(now), before)
    requires Legal(hardCap, Apply(hardCap, After(hardCap, Init(now), before), Arrive(key)), later)
    ensures var s := After(hardCap, Init(now), before);
            var to := After(hardCap, Apply(hardCap, s, Arrive(key)), later);
            && |s.callers| < |to.callers| && to.callers[|s.callers|].key == key
            && match to.callers[|s.callers|].stage
               case Looked(hit) => hit == Fresh(s, key)
               case Served(value) => Fresh(s, key) == Some(value)
               case Awaiting(_) | Answered(_, _, _) => Fresh(s, key) == None
  {
    var s := After(hardCap, Init(now), before);
    InitInv(now);
    RunKeepsInv(hardCap, Init(now), before);
    LookupIsFresh(s, key);
    RunFollows(hardCap, Apply(hardCap, s, Arrive(key)), later, |s.callers|, key, Fresh(s, key));
  }

  // ---------------------------------------------------------------------------------
  // A flight answers what it met.

  /**
   * What a flight has met: a fresh response at its start, the count of its own reservation, and
   * the reply to its provider call.
   */
  datatype Tale = Tale(found: Option<Payload>, count: Option<int>, reply: Option<Reply>)

  const NOTHING_MET: Tale := Tale(None, None, None)

  function Met(hardCap: int, s: State, step: Step, i: nat, t: Tale): Tale
    requires Enabled(s, step)
  {
    var to := Apply(hardCap, s, step);
    if i == |s.flights| && i < |to.flights| then t.(found := Fresh(s, to.flights[i].key))
    else if i < |s.flights| && step.FlightStep? && step.flight == i then
      if s.flights[i].phase == Rechecked(None) then t.(count := Some(ReadCount(s.counts, WindowFor(s.now)) + 1))
      else if s.flights[i].phase.Calling? then t.(reply := Some(step.reply))
      else t
    else t
  }

  /** What flight `i` meets over a run, added to what it has met before. */
  function TaleOf(hardCap: int, s: State, steps: seq<Step>, i: nat, t: Tale): Tale
    requires Legal(hardCap, s, steps)
    decreases |steps|
  {
    if steps == [] then t
    else TaleOf(hardCap, Apply(hardCap, s, steps[0]), steps[1..], i, Met(hardCap, s, steps[0], i, t))
  }

  /** An outcome and its data are those of the tale. */
  predicate Tells(hardCap: int, t: Tale, outcome: Outcome, answer: Option<Payload>) {
    if t.found.Some? then outcome == WasCached && answer == t.found && t.count.None? && t.reply.None?
    else
      && t.count.Some?
      && if t.count.value > hardCap then outcome == WasDenied && answer == None && t.reply.None?
         else
           && t.reply.Some?
           && match t.reply.value
              case Skipped => outcome == WasSkipped && answer == None
              case Failed => outcome == WasFailed && answer == None
              case RateLimited => outcome == WasRateLimited && answer == None
              case Fetched(json) => outcome == WasFetched && answer == json
  }

  predicate Fits(hardCap: int, phase: Phase, t: Tale) {
    match phase
    case Rechecked(hit) => t == Tale(hit, None, None)
    case Granted(_) | Calling(_, _) =>
      t.found.None? && t.count.Some? && t.count.value <= hardCap && t.reply.None?
    case Refused(_) | DenialRefunded => t.found.None? && t.count.Some? && t.count.value > hardCap && t.reply.None?
    case SkipRefunded => t.found.None? && t.count.Some? && t.count.value <= hardCap && t.reply == Some(Skipped)
    case Settling(_) | Returned(_) | Cleared(_) => Tells(hardCap, t, phase.verdict.outcome, phase.verdict.answer)
  }

  /** The tale so far of a flight, or of a number that no flight has yet. */
  predicate TaleFits(hardCap: int, s: State, i: nat, t: Tale) {
    if i < |s.flights| then Fits(hardCap, s.flights[i].phase, t) else t == NOTHING_MET
  }

  lemma {:induction false} ResumeFits(hardCap: int, s: State, i: nat, reply: Reply, t: Tale)
    requires Enabled(s, FlightStep(i, reply)) && Fits(hardCap, s.flights[i].phase, t)
    ensures Fits(hardCap, Apply(hardCap, s, FlightStep(i, reply)).flights[i].phase,
                 Met(hardCap, s, FlightStep(i, reply), i, t))
  {
  }

  lemma {:induction false} StepFits(hardCap: int, s: State, step: Step, i: nat, t: Tale)
    requires Spaced(s) && Enabled(s, step) && TaleFits(hardCap, s, i, t)
    ensures TaleFits(hardCap, Apply(hardCap, s, step), i, Met(hardCap, s, step, i, t))
  {
    match step
    case Tick(_) | Arrive(_) =>
    case CallerStep(c) =>
      CallerStepMoves(s, c);
      LookupIsFresh(s, s.callers[c].key);
      if i < |s.flights| { assert StepCaller(s, c).flights[i] == s.flights[i]; }
    case FlightStep(j, reply) =>
      if j == i {
        ResumeFits(hardCap, s, i, reply, t);
      } else if i < |s.flights| {
        assert Apply(hardCap, s, step).flights[i] == s.flights[i];
      }
  }

  lemma {:induction false} RunFits(hardCap: int, s: State, steps: seq<Step>, i: nat, t: Tale)
    requires Inv(s) && Legal(hardCap, s, steps) && TaleFits(hardCap, s, i, t)
    ensures TaleFits(hardCap, After(hardCap, s, steps), i, TaleOf(hardCap, s, steps, i, t))
    decreases |steps|
  {
    if steps != [] {
      StepFits(hardCap, s, steps[0], i, t);
      StepKeepsInv(hardCap, s, steps[0]);
      RunFits(hardCap, Apply(hardCap, s, steps[0]), steps[1..], i, Met(hardCap, s, steps[0], i, t));
    }
  }

  /**
   * In every schedule, each caller that joined a flight is told what that flight met: the response
   * it found, the refusal of its own reservation, or the reply to its own provider call, body
   * included; and each outcome has that one cause.
   */
  lemma {:induction false} CallersAreToldWhatTheirFlightMet(hardCap: int, now: int, steps: seq<Step>, c: nat)
    requires Legal(hardCap, Init(now), steps)
    requires c < |After(hardCap, Init(now), steps).callers|
    requires After(hardCap, Init(now), steps).callers[c].stage.Answered?
    ensures var stage := After(hardCap, Init(now), steps).callers[c].stage;
            var t := TaleOf(hardCap, Init(now), steps, stage.flight, NOTHING_MET);
            && (stage.outcome == WasCached <==> t.found.Some?)
            && (stage.outcome == WasDenied <==> t.found.None? && t.count.Some? && t.count.value > hardCap)
            && (stage.outcome == WasSkipped <==> t.reply == Some(Skipped))
            && (stage.outcome == WasFailed <==> t.reply == Some(Failed))
            && (stage.outcome == WasRateLimited <==> t.reply == Some(RateLimited))
            && (stage.outcome == WasFetched <==> t.reply.Some? && t.reply.value.Fetched?)
            && stage.answer == (if t.found.Some? then t.found
                                else if t.reply.Some? && t.reply.value.Fetched? then t.reply.value.json
                                else None)
  {
    InitInv(now);
    RunKeepsInv(hardCap, Init(now), steps);
    CallersShareTheFlight(hardCap, now, steps, c);
    RunFits(hardCap, Init(now), steps, After(hardCap, Init(now), steps).callers[c].stage.flight, NOTHING_MET);
  }
}
