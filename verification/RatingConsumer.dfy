/** The rating consumer: one event at a time, with dedupe, bounded retries and a dead-letter sink. */
module RatingConsumer {
  import opened Wrappers
  import opened Tally
  import opened AsciiText
  import opened BoundedSet

  const RATING_SUBMITTED := "game.rating.submitted"

  /** `wellFormed` stands for the parser's checks other than the rating id. */
  datatype Event = Event(factId: string, factType: string, sourceRecordId: string, wellFormed: bool)

  /** The answer to one recordRating call; a transient failure may hide a call that was carried out, its reply lost. */
  datatype Reply = Recorded | Refused(message: string) | Unavailable(message: string, carriedOut: bool)

  /** The answer to the nth recordRating call of the worker. */
  type World = nat -> Reply

  datatype Outcome = Applied | Duplicate | Ignored | DeadPermanent | DeadExhausted

  datatype Reason = MalformedEvent | PermanentError | RetriesExhausted

  datatype DeadLetter = DeadLetter(factId: string, ratingId: string, reason: Reason, attempts: nat)

  datatype Config = Config(retries: nat, maxRemembered: int, maxDeadLetters: int)

  datatype Counters = Counters(
    received: nat, applied: nat, duplicates: nat, ignored: nat, retried: nat,
    deadLetteredPermanent: nat, deadLetteredExhausted: nat)

  function WithOutcome(m: Counters, outcome: Outcome): Counters {
    match outcome
    case Applied => m.(applied := m.applied + 1)
    case Duplicate => m.(duplicates := m.duplicates + 1)
    case Ignored => m.(ignored := m.ignored + 1)
    case DeadPermanent => m.(deadLetteredPermanent := m.deadLetteredPermanent + 1)
    case DeadExhausted => m.(deadLetteredExhausted := m.deadLetteredExhausted + 1)
  }

  /** `calls`, `applied` and `captured` are history; `sink` is what the bounded sink still shows. */
  datatype State = State(
    dedupe: seq<string>, sink: seq<DeadLetter>, metrics: Counters,
    calls: seq<string>, applied: seq<string>, captured: seq<DeadLetter>)

  const INIT: State := State([], [], Counters(0, 0, 0, 0, 0, 0, 0), [], [], [])

  function Parse(e: Event): Option<string> {
    var ratingId := Trim(e.sourceRecordId);
    if ratingId != "" && e.wellFormed then Some(ratingId) else None
  }

  function AfterCapture(max: int, sink: seq<DeadLetter>, entry: DeadLetter): seq<DeadLetter> {
    var grown := sink + [entry];
    if |grown| > Max(1, max) then grown[|grown| - Max(1, max)..] else grown
  }

  // ---------------------------------------------------------------------------------
  // One event.

  datatype Ending = Ending(outcome: Outcome, attempts: nat)

  /** The retry loop from its `attempt`th attempt on, whose answers start at `tick`. */
  function TryFrom(world: World, tick: nat, attempt: nat, retries: nat): Ending
    requires attempt <= retries
    decreases retries - attempt
  {
    match world(tick)
    case Recorded => Ending(Applied, attempt + 1)
    case Refused(_) => Ending(DeadPermanent, attempt + 1)
    case Unavailable(_, _) =>
      if attempt == retries then Ending(DeadExhausted, attempt + 1) else TryFrom(world, tick + 1, attempt + 1, retries)
  }

  function Repeat(x: string, n: nat): seq<string> { if n == 0 then [] else Repeat(x, n - 1) + [x] }

  function Received(s: State): State { s.(metrics := s.metrics.(received := s.metrics.received + 1)) }

  function Counted(s: State, outcome: Outcome): State { s.(metrics := WithOutcome(s.metrics, outcome)) }

  function Captured(cfg: Config, s: State, entry: DeadLetter): State {
    s.(sink := AfterCapture(cfg.maxDeadLetters, s.sink, entry), captured := s.captured + [entry])
  }

  function EndingOf(cfg: Config, world: World, s: State, e: Event): Ending {
    if e.factType != RATING_SUBMITTED then Ending(Ignored, 0)
    else
      match Parse(e)
      case None => Ending(DeadPermanent, 0)
      case Some(ratingId) =>
        if ratingId in s.dedupe then Ending(Duplicate, 0) else TryFrom(world, |s.calls|, 0, cfg.retries)
  }

  function LetterOf(e: Event, ending: Ending): DeadLetter {
    match Parse(e)
    case None => DeadLetter(e.factId, e.sourceRecordId, MalformedEvent, 0)
    case Some(ratingId) =>
      DeadLetter(e.factId, ratingId,
                 if ending.outcome.DeadPermanent? then PermanentError else RetriesExhausted, ending.attempts)
  }

  predicate IsDead(o: Outcome) { o == DeadPermanent || o == DeadExhausted }

  function Remembered(cfg: Config, s: State, ratingId: string): State {
    s.(dedupe := AfterMark(Some(cfg.maxRemembered), s.dedupe, ratingId), applied := s.applied + [ratingId])
  }

  /** The calls and retries of an event that was tried. */
  function Called(s: State, ratingId: string, attempts: nat): State
    requires attempts > 0
  {
    s.(calls := s.calls + Repeat(ratingId, attempts),
       metrics := s.metrics.(retried := s.metrics.retried + attempts - 1))
  }

  /** What an event that was tried leaves behind. */
  function Tried(cfg: Config, s: State, e: Event, ending: Ending): State
    requires ending.attempts > 0
  {
    var ratingId := Trim(e.sourceRecordId);
    var counted := Counted(Called(s, ratingId, ending.attempts), ending.outcome);
    if ending.outcome == Applied then Remembered(cfg, counted, ratingId)
    else Captured(cfg, counted, LetterOf(e, ending))
  }

  function HandleEvent(cfg: Config, world: World, s: State, e: Event): State {
    var ending := EndingOf(cfg, world, s, e);
    if ending.attempts > 0 then Tried(cfg, Received(s), e, ending)
    else if IsDead(ending.outcome) then Captured(cfg, Counted(Received(s), ending.outcome), LetterOf(e, ending))
    else Counted(Received(s), ending.outcome)
  }

  function HandleAll(cfg: Config, world: World, s: State, events: seq<Event>): State
    decreases |events|
  {
    if events == [] then s else HandleAll(cfg, world, HandleEvent(cfg, world, s, events[0]), events[1..])
  }

  // ---------------------------------------------------------------------------------
  // The consumer itself.

  class RatingConsumer {
    const world: World
    const backoffMs: seq<int>
    const maxRemembered: int
    const maxDeadLetters: int
    var seen: seq<string>
    var entries: seq<DeadLetter>
    var metrics: Counters
    var calls: seq<string>
    ghost var applied: seq<string>
    ghost var captured: seq<DeadLetter>

    ghost function Cfg(): Config { Config(|backoffMs|, maxRemembered, maxDeadLetters) }

    ghost function Now(): State
      reads this
    {
      State(seen, entries, metrics, calls, applied, captured)
    }

    constructor (world: World, backoffMs: seq<int>, maxRemembered: int, maxDeadLetters: int)
      ensures Now() == INIT && Cfg() == Config(|backoffMs|, maxRemembered, maxDeadLetters) && this.world == world
    {
      this.world, this.backoffMs := world, backoffMs;
      this.maxRemembered, this.maxDeadLetters := maxRemembered, maxDeadLetters;
      seen, entries, metrics, calls := [], [], Counters(0, 0, 0, 0, 0, 0, 0), [];
      applied, captured := [], [];
    }

    method Capture(entry: DeadLetter)
      modifies this`entries, this`captured
      ensures Now() == Captured(Cfg(), old(Now()), entry)
    {
      entries := entries + [entry];
      var max := Max(1, maxDeadLetters);
      if |entries| > max {
        entries := entries[|entries| - max..];
      }
      captured := captured + [entry];
    }

    method Remember(ratingId: string)
      modifies this`seen, this`applied
      ensures Now() == Remembered(Cfg(), old(Now()), ratingId)
    {
      if ratingId !in seen {
        var full := |seen| >= Max(1, maxRemembered);
        seen := seen + [ratingId];
        if full {
          seen := seen[1..];
        }
      }
      applied := applied + [ratingId];
    }

    /** The retry loop of an event that is neither ignored, malformed nor a duplicate. */
    method Try(ratingId: string) returns (ending: Ending)
      modifies this`calls, this`metrics
      ensures ending == TryFrom(world, |old(calls)|, 0, |backoffMs|) && ending.attempts > 0
      ensures Now() == Called(old(Now()), ratingId, ending.attempts)
    {
      var maxAttempts := |backoffMs| + 1;
      var attempt := 0;
      assert calls == old(calls) + Repeat(ratingId, 0);
      while attempt < maxAttempts
        invariant attempt < maxAttempts && calls == old(calls) + Repeat(ratingId, attempt)
                  && |Repeat(ratingId, attempt)| == attempt
        invariant metrics == old(metrics).(retried := old(metrics).retried + attempt)
        invariant TryFrom(world, |old(calls)|, 0, |backoffMs|)
                  == TryFrom(world, |old(calls)| + attempt, attempt, |backoffMs|)
        decreases maxAttempts - attempt
      {
        var reply := world(|calls|);
        attempt := attempt + 1;
        calls := calls + [ratingId];
        assert calls == old(calls) + Repeat(ratingId, attempt);
        match reply {
          case Recorded => return Ending(Applied, attempt);
          case Refused(_) => return Ending(DeadPermanent, attempt);
          case Unavailable(_, _) =>
        }
        if attempt >= maxAttempts {
          break;
        }
        metrics := metrics.(retried := metrics.retried + 1);
      }
      ending := Ending(DeadExhausted, attempt);
    }

    method RecordOutcome(outcome: Outcome)
      modifies this`metrics
      ensures Now() == Counted(old(Now()), outcome)
    {
      metrics := WithOutcome(metrics, outcome);
    }

    method Handle(e: Event) returns (outcome: Outcome)
      modifies this
      ensures Now() == HandleEvent(Cfg(), world, old(Now()), e)
      ensures outcome == EndingOf(Cfg(), world, old(Now()), e).outcome
    {
      metrics := metrics.(received := metrics.received + 1);
      if e.factType != RATING_SUBMITTED {
        RecordOutcome(Ignored);
        return Ignored;
      }
      var ratingId := Trim(e.sourceRecordId);
      if ratingId == "" || !e.wellFormed {
        RecordOutcome(DeadPermanent);
        Capture(DeadLetter(e.factId, e.sourceRecordId, MalformedEvent, 0));
        return DeadPermanent;
      }
      if ratingId in seen {
        RecordOutcome(Duplicate);
        return Duplicate;
      }
      outcome := HandleRating(e, ratingId);
    }

    method HandleRating(e: Event, ratingId: string) returns (outcome: Outcome)
      requires Parse(e) == Some(ratingId)
      modifies this
      ensures var ending := TryFrom(world, |old(calls)|, 0, |backoffMs|);
              ending.attempts > 0 && outcome == ending.outcome && Now() == Tried(Cfg(), old(Now()), e, ending)
    {
      var ending := Try(ratingId);
      outcome := ending.outcome;
      RecordOutcome(outcome);
      if outcome == Applied {
        Remember(ratingId);
      } else {
        var reason := if outcome == DeadPermanent then PermanentError else RetriesExhausted;
        Capture(DeadLetter(e.factId, ratingId, reason, ending.attempts));
      }
    }
  }

  lemma {:induction false} EndingHasAttempts(world: World, tick: nat, attempt: nat, retries: nat)
    requires attempt <= retries
    ensures var ending := TryFrom(world, tick, attempt, retries);
            && attempt < ending.attempts <= retries + 1
            && (ending.outcome == Applied || IsDead(ending.outcome))
            && (forall k :: tick <= k < tick + ending.attempts - attempt - 1 ==> world(k).Unavailable?)
            && (ending.outcome == Applied <==> world(tick + ending.attempts - attempt - 1) == Recorded)
            && (ending.outcome == DeadPermanent <==> world(tick + ending.attempts - attempt - 1).Refused?)
            && (ending.outcome == DeadExhausted <==> world(tick + ending.attempts - attempt - 1).Unavailable?)
            && (ending.outcome == DeadExhausted ==> ending.attempts == retries + 1)
    decreases retries - attempt
  {
    if world(tick).Unavailable? && attempt < retries {
      EndingHasAttempts(world, tick + 1, attempt + 1, retries);
    }
  }

  // ---------------------------------------------------------------------------------
  // What one event does.

  /** The answer at `t` is the first since `n` that is not a transient failure. */
  ghost predicate Decides(world: World, n: nat, t: nat) {
    n <= t && !world(t).Unavailable? && forall j :: n <= j < t ==> world(j).Unavailable?
  }

  /** The first answer that is not a transient failure decides, within one attempt more than there are retries. */
  lemma OutcomeOfAnEvent(cfg: Config, world: World, s: State, e: Event)
    ensures var (n, outcome) := (|s.calls|, EndingOf(cfg, world, s, e).outcome);
            var tried := e.factType == RATING_SUBMITTED && Parse(e).Some? && Parse(e).value !in s.dedupe;
            && (outcome == Ignored <==> e.factType != RATING_SUBMITTED)
            && (outcome == Duplicate <==>
                  e.factType == RATING_SUBMITTED && Parse(e).Some? && Parse(e).value in s.dedupe)
            && (outcome == Applied <==>
                  tried && exists t: nat :: Decides(world, n, t) && t <= n + cfg.retries && world(t) == Recorded)
            && (outcome == DeadPermanent <==>
                  e.factType == RATING_SUBMITTED
                  && (Parse(e).None?
                      || (tried && exists t: nat :: Decides(world, n, t) && t <= n + cfg.retries && world(t).Refused?)))
            && (outcome == DeadExhausted <==>
                  tried && forall t: nat :: n <= t <= n + cfg.retries ==> world(t).Unavailable?)
  {
    var n, ending := |s.calls|, TryFrom(world, |s.calls|, 0, cfg.retries);
    EndingHasAttempts(world, n, 0, cfg.retries);
    var last := n + ending.attempts - 1;
    if ending.outcome != DeadExhausted {
      assert Decides(world, n, last);
    }
    var atLast := world(last);
    forall t: nat | Decides(world, n, t) && t <= n + cfg.retries ensures t == last {
      var atT := world(t);
    }
  }

  /** The sink still shows the latest dead letters, as many as it holds. */
  function LastOf<A>(xs: seq<A>, n: nat): seq<A> { if |xs| > n then xs[|xs| - n..] else xs }

  ghost predicate Accounted(cfg: Config, s: State) {
    var m := s.metrics;
    && m.received == m.applied + m.duplicates + m.ignored + m.deadLetteredPermanent + m.deadLetteredExhausted
    && |s.captured| == m.deadLetteredPermanent + m.deadLetteredExhausted
    && |s.applied| == m.applied
    && s.sink == LastOf(s.captured, Max(1, cfg.maxDeadLetters))
  }

  lemma RepeatHasLength(x: string, n: nat)
    ensures |Repeat(x, n)| == n && forall y <- Repeat(x, n) :: y == x
  {
  }

  lemma CaptureKeepsLatest(max: int, captured: seq<DeadLetter>, entry: DeadLetter)
    ensures AfterCapture(max, LastOf(captured, Max(1, max)), entry) == LastOf(captured + [entry], Max(1, max))
  {
  }

  lemma TriedAccounts(cfg: Config, s: State, e: Event, ending: Ending)
    requires Accounted(cfg, s) && ending.attempts > 0 && (ending.outcome == Applied || IsDead(ending.outcome))
    ensures var to := Tried(cfg, Received(s), e, ending);
            && Accounted(cfg, to) && to.metrics.received == s.metrics.received + 1
            && to.captured == (if IsDead(ending.outcome) then s.captured + [LetterOf(e, ending)] else s.captured)
            && |to.calls| == |s.calls| + ending.attempts
  {
    RepeatHasLength(Trim(e.sourceRecordId), ending.attempts);
    CaptureKeepsLatest(cfg.maxDeadLetters, s.captured, LetterOf(e, ending));
  }

  lemma UntriedAccounts(cfg: Config, s: State, e: Event, outcome: Outcome)
    requires Accounted(cfg, s) && outcome != Applied
    ensures var counted := Counted(Received(s), outcome);
            if IsDead(outcome) then Accounted(cfg, Captured(cfg, counted, LetterOf(e, Ending(outcome, 0))))
            else Accounted(cfg, counted)
  {
    CaptureKeepsLatest(cfg.maxDeadLetters, s.captured, LetterOf(e, Ending(outcome, 0)));
  }

  /**
   * Every event ends in one outcome, is dead-lettered once if that outcome is a dead letter and
   * never otherwise, and calls recordRating at most one time more than there are retries.
   */
  lemma EventAccounts(cfg: Config, world: World, s: State, e: Event)
    requires Accounted(cfg, s)
    ensures var (to, ending) := (HandleEvent(cfg, world, s, e), EndingOf(cfg, world, s, e));
            && Accounted(cfg, to) && to.metrics.received == s.metrics.received + 1
            && to.captured == (if IsDead(ending.outcome) then s.captured + [LetterOf(e, ending)] else s.captured)
            && |s.calls| <= |to.calls| <= |s.calls| + cfg.retries + 1
  {
    var ending := EndingOf(cfg, world, s, e);
    EndingHasAttempts(world, |s.calls|, 0, cfg.retries);
    if ending.attempts > 0 {
      TriedAccounts(cfg, s, e, ending);
    } else {
      UntriedAccounts(cfg, s, e, ending.outcome);
    }
  }

  /** The calls an event makes: all for its rating, all but the last failing transiently. */
  ghost predicate Tries(cfg: Config, world: World, s: State, to: State, id: string) {
    var (n, made) := (|s.calls|, |to.calls| - |s.calls|);
    && 1 <= made <= cfg.retries + 1 && to.calls[..n] == s.calls
    && (forall k :: n <= k < n + made ==> to.calls[k] == id)
    && (forall k :: n <= k < n + made - 1 ==> world(k).Unavailable?)
    && (world(n + made - 1).Unavailable? ==> made == cfg.retries + 1)
  }

  /** What an event adds to counters, applied ratings and dead letters, told from the answers to its calls. */
  ghost predicate EventTells(cfg: Config, world: World, s: State, e: Event, to: State) {
    var (id, m) := (Trim(e.sourceRecordId), s.metrics.(received := s.metrics.received + 1));
    if e.factType != "game.rating.submitted" then
      && to.metrics == m.(ignored := m.ignored + 1)
      && to.calls == s.calls && to.applied == s.applied && to.captured == s.captured
    else if id == "" || !e.wellFormed then
      && to.metrics == m.(deadLetteredPermanent := m.deadLetteredPermanent + 1)
      && to.captured == s.captured + [DeadLetter(e.factId, e.sourceRecordId, MalformedEvent, 0)]
      && to.calls == s.calls && to.applied == s.applied
    else if id in s.dedupe then
      && to.metrics == m.(duplicates := m.duplicates + 1)
      && to.calls == s.calls && to.applied == s.applied && to.captured == s.captured
    else
      && Tries(cfg, world, s, to, id)
      && var (made, tried) := (|to.calls| - |s.calls|, m.(retried := m.retried + |to.calls| - |s.calls| - 1));
         match world(|to.calls| - 1)
         case Recorded =>
           && to.metrics == tried.(applied := tried.applied + 1)
           && to.applied == s.applied + [id] && to.captured == s.captured
         case Refused(_) =>
           && to.metrics == tried.(deadLetteredPermanent := tried.deadLetteredPermanent + 1)
           && to.captured == s.captured + [DeadLetter(e.factId, id, PermanentError, made)] && to.applied == s.applied
         case Unavailable(_, _) =>
           && to.metrics == tried.(deadLetteredExhausted := tried.deadLetteredExhausted + 1)
           && to.captured == s.captured + [DeadLetter(e.factId, id, RetriesExhausted, made)] && to.applied == s.applied
  }

  lemma {:induction false} TriesAsEnded(cfg: Config, world: World, s: State, to: State, id: string)
    requires to.calls == s.calls + Repeat(id, TryFrom(world, |s.calls|, 0, cfg.retries).attempts)
    ensures Tries(cfg, world, s, to, id)
    ensures |to.calls| == |s.calls| + TryFrom(world, |s.calls|, 0, cfg.retries).attempts
  {
    var ending := TryFrom(world, |s.calls|, 0, cfg.retries);
    EndingHasAttempts(world, |s.calls|, 0, cfg.retries);
    RepeatHasLength(id, ending.attempts);
    forall k | |s.calls| <= k < |to.calls| ensures to.calls[k] == id {
      var attempt := Repeat(id, ending.attempts)[k - |s.calls|];
      assert attempt in Repeat(id, ending.attempts) && to.calls[k] == attempt;
    }
  }

  lemma {:induction false} TriedTells(cfg: Config, world: World, s: State, e: Event)
    requires EndingOf(cfg, world, s, e).attempts > 0
    ensures EventTells(cfg, world, s, e, HandleEvent(cfg, world, s, e))
  {
    var to, ending := HandleEvent(cfg, world, s, e), EndingOf(cfg, world, s, e);
    EventCalls(cfg, world, s, e);
    EndingHasAttempts(world, |s.calls|, 0, cfg.retries);
    TriesAsEnded(cfg, world, s, to, Trim(e.sourceRecordId));
    var called := Called(Received(s), Trim(e.sourceRecordId), ending.attempts);
    assert to.metrics == WithOutcome(called.metrics, ending.outcome);
  }

  /** Every event adds exactly what the answers to its own calls call for. */
  lemma {:induction false} EachEventTells(cfg: Config, world: World, s: State, e: Event)
    ensures EventTells(cfg, world, s, e, HandleEvent(cfg, world, s, e))
  {
    EndingHasAttempts(world, |s.calls|, 0, cfg.retries);
    if EndingOf(cfg, world, s, e).attempts > 0 {
      TriedTells(cfg, world, s, e);
    }
  }

  lemma MoreCalls(here: int, rest: nat, each: nat)
    requires here <= each
    ensures here + rest * each <= (rest + 1) * each
  {
  }

  lemma {:induction false} RunAccounts(cfg: Config, world: World, s: State, events: seq<Event>)
    requires Accounted(cfg, s)
    ensures var to := HandleAll(cfg, world, s, events);
            Accounted(cfg, to) && to.metrics.received == s.metrics.received + |events|
                && |to.calls| <= |s.calls| + |events| * (cfg.retries + 1)
    decreases |events|
  {
    if events != [] {
      var next := HandleEvent(cfg, world, s, events[0]);
      EventAccounts(cfg, world, s, events[0]);
      RunAccounts(cfg, world, next, events[1..]);
      MoreCalls(|next.calls| - |s.calls|, |events| - 1, cfg.retries + 1);
    }
  }

  /** Received equals the sum of the five outcome counters, and dead letters captured the two dead ones. */
  lemma ReceivedIsTheSumOfOutcomes(cfg: Config, world: World, events: seq<Event>)
    ensures var s := HandleAll(cfg, world, INIT, events);
            var m := s.metrics;
            && |events| == m.received == m.applied + m.duplicates + m.ignored + m.deadLetteredPermanent
                + m.deadLetteredExhausted
            && |s.captured| == m.deadLetteredPermanent + m.deadLetteredExhausted
            && s.sink == LastOf(s.captured, Max(1, cfg.maxDeadLetters))
            && |s.calls| <= |events| * (cfg.retries + 1)
  {
    RunAccounts(cfg, world, INIT, events);
  }

  // ---------------------------------------------------------------------------------
  // At most once.

  /** What the store remembers is exactly what has been applied, each id once. */
  ghost predicate Truthful(s: State) {
    Distinct(s.applied) && Distinct(s.dedupe) && forall id: string :: id in s.dedupe <==> id in s.applied
  }

  /** The event whose success pushes the oldest id out of the store. */
  predicate Evicts(cfg: Config, world: World, s: State, e: Event) {
    EndingOf(cfg, world, s, e).outcome == Applied && Full(Some(cfg.maxRemembered), s.dedupe)
  }

  lemma EventRemembersIff(cfg: Config, world: World, s: State, e: Event)
    requires Truthful(s)
    ensures Truthful(HandleEvent(cfg, world, s, e)) <==> !Evicts(cfg, world, s, e)
  {
    var to, ending := HandleEvent(cfg, world, s, e), EndingOf(cfg, world, s, e);
    EndingHasAttempts(world, |s.calls|, 0, cfg.retries);
    if ending.outcome == Applied {
      var id := Trim(e.sourceRecordId);
      assert id !in s.dedupe && id !in s.applied;
      MarkKeepsDistinct(Some(cfg.maxRemembered), s.dedupe, id);
      if Evicts(cfg, world, s, e) {
        assert s.dedupe[0] in s.dedupe && s.dedupe[0] in to.applied && s.dedupe[0] !in to.dedupe;
      }
    } else {
      assert to.dedupe == s.dedupe && to.applied == s.applied;
    }
  }

  predicate NeverEvicts(cfg: Config, world: World, s: State, events: seq<Event>)
    decreases |events|
  {
    events == [] || (!Evicts(cfg, world, s, events[0])
                     && NeverEvicts(cfg, world, HandleEvent(cfg, world, s, events[0]), events[1..]))
  }

  ghost predicate TruthfulThroughout(cfg: Config, world: World, s: State, events: seq<Event>)
    decreases |events|
  {
    Truthful(s) && (events == [] || TruthfulThroughout(cfg, world, HandleEvent(cfg, world, s, events[0]), events[1..]))
  }

  lemma {:induction false} RunRemembersIff(cfg: Config, world: World, s: State, events: seq<Event>)
    requires Truthful(s)
    ensures TruthfulThroughout(cfg, world, s, events) <==> NeverEvicts(cfg, world, s, events)
    ensures NeverEvicts(cfg, world, s, events) ==> Truthful(HandleAll(cfg, world, s, events))
    decreases |events|
  {
    if events != [] {
      EventRemembersIff(cfg, world, s, events[0]);
      if !Evicts(cfg, world, s, events[0]) {
        RunRemembersIff(cfg, world, HandleEvent(cfg, world, s, events[0]), events[1..]);
      }
    }
  }

  /**
   * With events handled one after another, the store keeps telling the truth exactly while it
   * forgets nothing; each rating is then applied at most once.
   */
  lemma {:induction false} AppliedAtMostOnce(cfg: Config, world: World, events: seq<Event>)
    ensures TruthfulThroughout(cfg, world, INIT, events) <==> NeverEvicts(cfg, world, INIT, events)
    ensures NeverEvicts(cfg, world, INIT, events) ==>
              forall id: string :: multiset(HandleAll(cfg, world, INIT, events).applied)[id] <= 1
  {
    RunRemembersIff(cfg, world, INIT, events);
    if NeverEvicts(cfg, world, INIT, events) {
      DistinctMeansOnce(HandleAll(cfg, world, INIT, events).applied);
    }
  }

  /** A store with room for every rating id that will ever come in forgets none. */
  lemma {:induction false} LargeEnoughStoreNeverEvicts(cfg: Config, world: World, s: State, events: seq<Event>,
                                                       ids: set<string>)
    requires Distinct(s.dedupe) && (forall id <- s.dedupe :: id in ids) && |ids| <= Max(1, cfg.maxRemembered)
    requires forall e <- events :: Trim(e.sourceRecordId) in ids
    ensures NeverEvicts(cfg, world, s, events)
    decreases |events|
  {
    if events != [] {
      var e, id := events[0], Trim(events[0].sourceRecordId);
      assert e in events;
      EndingHasAttempts(world, |s.calls|, 0, cfg.retries);
      MarkKeepsDistinct(Some(cfg.maxRemembered), s.dedupe, id);
      if EndingOf(cfg, world, s, e).outcome == Applied { DistinctFits(s.dedupe + [id], ids); }
      assert !Evicts(cfg, world, s, e);
      LargeEnoughStoreNeverEvicts(cfg, world, HandleEvent(cfg, world, s, e), events[1..], ids);
    }
  }

  function RatingEvent(ratingId: string): Event { Event("fact", RATING_SUBMITTED, ratingId, true) }

  /** A rating the store does not remember is applied whenever the service records it, applied before or not. */
  lemma {:induction false} UnrememberedIsApplied(cfg: Config, world: World, s: State, ratingId: string)
    requires Trim(ratingId) == ratingId != "" && ratingId !in s.dedupe && world(|s.calls|) == Recorded
    ensures var to := HandleEvent(cfg, world, s, RatingEvent(ratingId));
            && to.applied == s.applied + [ratingId] && to.calls == s.calls + [ratingId]
            && to.dedupe == AfterMark(Some(cfg.maxRemembered), s.dedupe, ratingId)
  {
    assert Repeat(ratingId, 1) == [ratingId];
  }

  /** With room for one id, the sequence a, b, a applies a twice. */
  lemma {:induction false} EvictionAppliesTwice(a: string, b: string, world: World)
    requires a != b && Trim(a) == a != "" && Trim(b) == b != "" && forall n: nat :: world(n) == Recorded
    ensures HandleAll(Config(0, 1, 1), world, INIT, [RatingEvent(a), RatingEvent(b), RatingEvent(a)]).applied
            == [a, b, a]
  {
    var cfg, events := Config(0, 1, 1), [RatingEvent(a), RatingEvent(b), RatingEvent(a)];
    UnrememberedIsApplied(cfg, world, INIT, a);
    var s1 := HandleEvent(cfg, world, INIT, RatingEvent(a));
    assert s1.dedupe == [a];
    UnrememberedIsApplied(cfg, world, s1, b);
    var s2 := HandleEvent(cfg, world, s1, RatingEvent(b));
    assert s2.dedupe == [b];
    UnrememberedIsApplied(cfg, world, s2, a);
    var s3 := HandleEvent(cfg, world, s2, RatingEvent(a));
    assert events[1..] == [RatingEvent(b), RatingEvent(a)] && events[1..][1..] == [RatingEvent(a)]
        && events[1..][1..][1..] == [];
    assert HandleAll(cfg, world, s3, []) == s3;
    assert HandleAll(cfg, world, s2, events[1..][1..]) == s3;
    assert HandleAll(cfg, world, s1, events[1..]) == s3;
  }

  // ---------------------------------------------------------------------------------
  // What the service has recorded: applied ratings, and calls whose reply was lost.

  predicate Took(reply: Reply) { reply.Recorded? || (reply.Unavailable? && reply.carriedOut) }

  predicate Lost(reply: Reply) { reply.Unavailable? && reply.carriedOut }

  /**
   * How many calls for the rating were carried out, and how many of those lost their reply; call n
   * is answered by world(n).
   */
  function Recordings(world: World, calls: seq<string>, id: string): nat {
    if calls == [] then 0
    else Recordings(world, calls[..|calls| - 1], id) + One(calls[|calls| - 1] == id && Took(world(|calls| - 1)))
  }

  function LostReplies(world: World, calls: seq<string>, id: string): nat {
    if calls == [] then 0
    else LostReplies(world, calls[..|calls| - 1], id) + One(calls[|calls| - 1] == id && Lost(world(|calls| - 1)))
  }

  lemma {:induction false} CallCounts(world: World, calls: seq<string>, c: string, id: string)
    ensures Recordings(world, calls + [c], id) == Recordings(world, calls, id) + One(c == id && Took(world(|calls|)))
    ensures LostReplies(world, calls + [c], id) == LostReplies(world, calls, id) + One(c == id && Lost(world(|calls|)))
  {
    assert (calls + [c])[..|calls|] == calls;
  }

  lemma {:induction false} OneMoreAttempt(calls: seq<string>, c: string, n: nat)
    ensures calls + Repeat(c, n + 1) == (calls + Repeat(c, n)) + [c] && |calls + Repeat(c, n)| == |calls| + n
  {
    RepeatHasLength(c, n);
  }

  /** A call that fails transiently is recorded exactly if its reply was lost. */
  lemma {:induction false} FailedCallCounts(world: World, calls: seq<string>, c: string, id: string)
    requires world(|calls|).Unavailable?
    ensures Recordings(world, calls + [c], id) - LostReplies(world, calls + [c], id)
         == Recordings(world, calls, id) - LostReplies(world, calls, id)
  {
    CallCounts(world, calls, c, id);
  }

  /** Attempts that all fail transiently record only what they lose the reply of. */
  lemma {:induction false} FailedAttemptsCount(world: World, calls: seq<string>, c: string, n: nat, id: string)
    requires forall k :: |calls| <= k < |calls| + n ==> world(k).Unavailable?
    ensures Recordings(world, calls + Repeat(c, n), id) - LostReplies(world, calls + Repeat(c, n), id)
         == Recordings(world, calls, id) - LostReplies(world, calls, id)
  {
    if n == 0 {
      assert calls + Repeat(c, n) == calls;
    } else {
      var before := calls + Repeat(c, n - 1);
      FailedAttemptsCount(world, calls, c, n - 1, id);
      OneMoreAttempt(calls, c, n - 1);
      FailedCallCounts(world, before, c, id);
    }
  }

  /** The attempts of one event: a success at the end adds one recording that lost nothing. */
  lemma {:induction false} AttemptsCount(world: World, calls: seq<string>, c: string, n: nat, id: string)
    requires forall k :: |calls| <= k < |calls| + n ==> world(k).Unavailable?
    ensures Recordings(world, calls + Repeat(c, n + 1), id) - LostReplies(world, calls + Repeat(c, n + 1), id)
         == Recordings(world, calls, id) - LostReplies(world, calls, id) + One(c == id && world(|calls| + n).Recorded?)
  {
    FailedAttemptsCount(world, calls, c, n, id);
    OneMoreAttempt(calls, c, n);
    CallCounts(world, calls + Repeat(c, n), c, id);
  }

  /** The service has recorded the rating as often as it was applied, and once more for every lost reply. */
  ghost predicate Settled(world: World, s: State, id: string) {
    Recordings(world, s.calls, id) == multiset(s.applied)[id] + LostReplies(world, s.calls, id)
  }

  /** What an event adds to the calls and to the applied ratings. */
  lemma {:induction false} EventCalls(cfg: Config, world: World, s: State, e: Event)
    ensures var (to, ending, c) := (HandleEvent(cfg, world, s, e), EndingOf(cfg, world, s, e), Trim(e.sourceRecordId));
            && to.calls == (if ending.attempts > 0 then s.calls + Repeat(c, ending.attempts) else s.calls)
            && to.applied == (if ending.attempts > 0 && ending.outcome == Applied then s.applied + [c] else s.applied)
            && (ending.attempts > 0 ==> ending == TryFrom(world, |s.calls|, 0, cfg.retries))
  {
  }

  /** One more event on the two logs: its attempts, and the rating if they ended in success. */
  lemma {:induction false} AttemptsSettle(world: World, calls: seq<string>, applied: seq<string>, c: string, n: nat,
                                          id: string)
    requires Recordings(world, calls, id) == multiset(applied)[id] + LostReplies(world, calls, id)
    requires forall k :: |calls| <= k < |calls| + n ==> world(k).Unavailable?
    ensures var (calls', applied') := (calls + Repeat(c, n + 1),
                                       if world(|calls| + n).Recorded? then applied + [c] else applied);
            Recordings(world, calls', id) == multiset(applied')[id] + LostReplies(world, calls', id)
  {
    AttemptsCount(world, calls, c, n, id);
    assert multiset(applied + [c])[id] == multiset(applied)[id] + One(c == id);
  }

  lemma {:induction false} TriedRecords(world: World, s: State, to: State, c: string, ending: Ending, retries: nat,
                                        id: string)
    requires Settled(world, s, id) && ending.attempts > 0 && ending == TryFrom(world, |s.calls|, 0, retries)
    requires to.calls == s.calls + Repeat(c, ending.attempts)
    requires to.applied == if ending.outcome == Applied then s.applied + [c] else s.applied
    ensures Settled(world, to, id)
  {
    EndingHasAttempts(world, |s.calls|, 0, retries);
    AttemptsSettle(world, s.calls, s.applied, c, ending.attempts - 1, id);
  }

  lemma {:induction false} EventRecords(cfg: Config, world: World, s: State, e: Event, id: string)
    requires Settled(world, s, id)
    ensures Settled(world, HandleEvent(cfg, world, s, e), id)
  {
    var ending, to := EndingOf(cfg, world, s, e), HandleEvent(cfg, world, s, e);
    EventCalls(cfg, world, s, e);
    if ending.attempts > 0 {
      TriedRecords(world, s, to, Trim(e.sourceRecordId), ending, cfg.retries, id);
    } else {
      assert to.calls == s.calls && to.applied == s.applied;
    }
  }

  /**
   * Over any run, the service has recorded a rating as often as it was applied, and once more for
   * every carried-out call whose reply was lost.
   */
  lemma {:induction false} RecordingsAreAppliedOrLost(cfg: Config, world: World, s: State, events: seq<Event>,
                                                      id: string)
    requires Settled(world, s, id)
    ensures Settled(world, HandleAll(cfg, world, s, events), id)
    decreases |events|
  {
    if events != [] {
      EventRecords(cfg, world, s, events[0], id);
      RecordingsAreAppliedOrLost(cfg, world, HandleEvent(cfg, world, s, events[0]), events[1..], id);
    }
  }

  /**
   * While nothing is forgotten, a rating is recorded at most once exactly when at most one call for
   * it, applied or lost, was carried out.
   */
  lemma {:induction false} RecordedAtMostOnceIff(cfg: Config, world: World, events: seq<Event>, id: string)
    requires NeverEvicts(cfg, world, INIT, events)
    ensures var s := HandleAll(cfg, world, INIT, events);
            Recordings(world, s.calls, id) <= 1
            <==> LostReplies(world, s.calls, id) == 0 || (LostReplies(world, s.calls, id) == 1 && id !in s.applied)
  {
    RecordingsAreAppliedOrLost(cfg, world, INIT, events, id);
    AppliedAtMostOnce(cfg, world, events);
    var s := HandleAll(cfg, world, INIT, events);
    assert id in s.applied <==> multiset(s.applied)[id] > 0;
  }

  lemma {:induction false} DistinctMeansOnce(xs: seq<string>)
    requires Distinct(xs)
    ensures forall x: string :: multiset(xs)[x] <= 1
  {
    if xs != [] {
      var n := |xs| - 1;
      DistinctMeansOnce(xs[..n]);
      assert xs == xs[..n] + [xs[n]] && xs[n] !in xs[..n];
    }
  }
}
