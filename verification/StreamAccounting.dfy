/** What every run of the stream consumer keeps, whatever handlers, Redis and the abort signal do. */
module StreamAccounting {
  import opened Wrappers
  import opened AttemptCounter
  import opened StreamConsumer

  // ---------------------------------------------------------------------------------
  // Nothing is lost.

  ghost predicate Filed(dlq: seq<Record>, ref: Ref) {
    exists i :: 0 <= i < |dlq| && dlq[i].originalStream == ref.stream && dlq[i].originalId == ref.id
  }

  /** Delivered is pending or acked, never both; an ack needs a handler success or a dead letter. */
  ghost predicate Lossless(s: State) {
    && s.pending !! s.acked && s.pending + s.acked == s.delivered
    && forall r <- s.acked :: r in s.succeeded || Filed(s.dlq, r)
  }

  /** Whether handling this entry is a permanent failure of it. */
  predicate DeadLetterDue(cfg: Config, s: State, d: Delivery, a: Answers) {
    match d.entry.payload
    case Missing => true
    case Undecodable => true
    case Fact(_) => a.handler != Succeeded && CountOf(s.attempts, DedupeKey(d.entry)) + 1 >= cfg.maxRetries
  }

  /**
   * The ways an entry leaves the pending list: its handler succeeded, or its dead letter is
   * confirmed; and the ack arrives.
   */
  predicate Acks(cfg: Config, s: State, d: Delivery, a: Answers) {
    && a.xAck != NotCarried
    && ((d.entry.payload.Fact? && a.handler == Succeeded) || (DeadLetterDue(cfg, s, d, a) && a.xAdd == Carried))
  }

  /** What a step does to the pending list and to the entries handled: nothing but for this entry. */
  ghost predicate Moves(s: State, to: State, ref: Ref, gone: bool, handled: bool) {
    var left := if gone && ref in s.pending then {ref} else {};
    && to.pending == s.pending - left && to.acked == s.acked + left && to.delivered == s.delivered
    && to.succeeded == s.succeeded + (if handled then {ref} else {})
  }

  lemma {:induction false} DeadLetterMoves(
    s: State, sub: Subscription, d: Delivery, key: string, reason: Reason, a: Answers)
    ensures Moves(s, DeadLetter(s, sub, d, key, reason, a), RefOf(sub, d), a.xAdd == Carried && Lands(a.xAck), false)
  {
  }

  lemma {:induction false} HandledMoves(s: State, sub: Subscription, d: Delivery, a: Answers)
    ensures Moves(s, Handled(s, sub, d, a), RefOf(sub, d), Lands(a.xAck), true)
  {
  }

  lemma {:induction false} FailedMoves(cfg: Config, s: State, sub: Subscription, d: Delivery, a: Answers, attempt: nat)
    ensures Moves(s, FailedOnce(cfg, s, sub, d, a, attempt), RefOf(sub, d),
                  attempt >= cfg.maxRetries && a.xAdd == Carried && Lands(a.xAck), false)
  {
    var key := DedupeKey(d.entry);
    var failed := WithOutcome(s.(log := s.log + [Failed(key)]), sub.factType, Error);
    DeadLetterMoves(failed, sub, d, key, RetriesExhausted, a);
  }

  lemma {:induction false} RejectedMoves(s: State, sub: Subscription, d: Delivery, reason: Reason, a: Answers)
    ensures Moves(s, Rejected(s, sub, d, reason, a), RefOf(sub, d), a.xAdd == Carried && Lands(a.xAck), false)
  {
    DeadLetterMoves(s, sub, d, DedupeKey(d.entry), reason, a);
  }

  lemma {:induction false} EntryMoves(cfg: Config, s: State, sub: Subscription, d: Delivery, a: Answers)
    ensures Moves(s, HandleEntry(cfg, s, sub, d, a), RefOf(sub, d), Acks(cfg, s, d, a),
                  d.entry.payload.Fact? && a.handler == Succeeded)
  {
    var received, key := Received(s, sub, d), DedupeKey(d.entry);
    var counted := Counted(cfg, received, key);
    match d.entry.payload {
      case Missing => RejectedMoves(received, sub, d, MissingData, a);
      case Undecodable => RejectedMoves(received, sub, d, DecodeError, a);
      case Fact(_) =>
        if a.handler == Succeeded {
          HandledMoves(counted, sub, d, a);
        } else {
          FailedMoves(cfg, counted, sub, d, a, CountOf(s.attempts, key) + 1);
        }
    }
  }

  function ReasonOf(payload: Payload): Reason {
    match payload case Missing => MissingData case Undecodable => DecodeError case Fact(_) => RetriesExhausted
  }

  /**
   * The dead letter of an entry carries its own stream and id, and its reason; it is written exactly
   * when due and the write happens.
   */
  lemma {:induction false} EntryFiles(cfg: Config, s: State, sub: Subscription, d: Delivery, a: Answers)
    ensures var (to, key) := (HandleEntry(cfg, s, sub, d, a), DedupeKey(d.entry));
            var log := if d.entry.payload.Fact? then s.log + [Failed(key)] else s.log;
            to.dlq == if DeadLetterDue(cfg, s, d, a) && a.xAdd != NotCarried
                      then s.dlq + [Record(d.stream, d.entry.id, sub.factType, key, ReasonOf(d.entry.payload), |log|)]
                      else s.dlq
  {
  }

  /**
   * An entry leaves the pending list exactly when `Acks` says so, handled or filed by then; no other
   * entry is touched.
   */
  lemma EntryLeavesPendingIff(cfg: Config, s: State, sub: Subscription, d: Delivery, a: Answers)
    ensures var (to, ref) := (HandleEntry(cfg, s, sub, d, a), RefOf(sub, d));
            var gone := if Acks(cfg, s, d, a) && ref in s.pending then {ref} else {};
            && to.pending == s.pending - gone && to.acked == s.acked + gone && to.delivered == s.delivered
            && s.succeeded <= to.succeeded && (|s.dlq| <= |to.dlq| && to.dlq[..|s.dlq|] == s.dlq)
            && (gone != {} ==> ref in to.succeeded || Filed(to.dlq, ref))
  {
    EntryMoves(cfg, s, sub, d, a);
    EntryFiles(cfg, s, sub, d, a);
    var to, ref := HandleEntry(cfg, s, sub, d, a), RefOf(sub, d);
    if to.dlq != s.dlq {
      assert to.dlq[|s.dlq|].originalStream == ref.stream && to.dlq[|s.dlq|].originalId == ref.id;
    }
  }

  lemma FiledStays(dlq: seq<Record>, more: seq<Record>, ref: Ref)
    requires Filed(dlq, ref) && |dlq| <= |more| && more[..|dlq|] == dlq
    ensures Filed(more, ref)
  {
    var i :| 0 <= i < |dlq| && dlq[i].originalStream == ref.stream && dlq[i].originalId == ref.id;
    assert more[i] == dlq[i];
  }

  lemma EntryKeepsLossless(cfg: Config, s: State, sub: Subscription, d: Delivery, a: Answers)
    requires Lossless(s)
    ensures Lossless(HandleEntry(cfg, s, sub, d, a))
  {
    EntryLeavesPendingIff(cfg, s, sub, d, a);
    var to := HandleEntry(cfg, s, sub, d, a);
    forall r | r in to.acked
      ensures r in to.succeeded || Filed(to.dlq, r)
    {
      if r in s.acked && Filed(s.dlq, r) { FiledStays(s.dlq, to.dlq, r); }
    }
  }

  // ---------------------------------------------------------------------------------
  // Attempts.

  /** Handler failures of the event since it last succeeded or was dead-lettered. */
  function FailuresSince(log: seq<Event>, eventId: string): nat {
    if log == [] then 0
    else
      var init, last := log[..|log| - 1], log[|log| - 1];
      if last == Failed(eventId) then FailuresSince(init, eventId) + 1
      else if last == Settled(eventId) then 0
      else FailuresSince(init, eventId)
  }

  lemma LogGrows(log: seq<Event>, event: Event, eventId: string)
    ensures FailuresSince(log + [event], eventId)
            == if event == Failed(eventId) then FailuresSince(log, eventId) + 1
               else if event == Settled(eventId) then 0
               else FailuresSince(log, eventId)
  {
    assert (log + [event])[..|log|] == log;
  }

  predicate NamesFact(e: Entry) { e.payload.Fact? && e.payload.id != "" }

  /**
   * Deliveries of one fact share their count, under whatever stream ids, also one that only its event
   * id still names; without either, each stream entry counts for itself.
   */
  lemma {:induction false} CountsAreKeptPerFact(e1: Entry, e2: Entry)
    ensures NamesFact(e1) && NamesFact(e2) ==> (DedupeKey(e1) == DedupeKey(e2) <==> e1.payload.id == e2.payload.id)
    ensures NamesFact(e1) && !NamesFact(e2) && e2.eventId == e1.payload.id ==> DedupeKey(e1) == DedupeKey(e2)
    ensures !NamesFact(e1) && !NamesFact(e2) && e1.eventId != "" && e2.eventId != "" ==>
              (DedupeKey(e1) == DedupeKey(e2) <==> e1.eventId == e2.eventId)
    ensures !NamesFact(e1) && e1.eventId == "" ==> DedupeKey(e1) == "stream:" + e1.id
    ensures !NamesFact(e1) && !NamesFact(e2) && e1.eventId == "" && e2.eventId == "" ==>
              (DedupeKey(e1) == DedupeKey(e2) <==> e1.id == e2.id)
  {
    if DedupeKey(e1) == DedupeKey(e2) && "stream:" + e1.id == "stream:" + e2.id {
      assert e1.id == ("stream:" + e1.id)[7..] == ("stream:" + e2.id)[7..] == e2.id;
    }
  }

  /** No count exceeds the failures it stands for. */
  ghost predicate CountsBacked(s: State) {
    forall k: string :: CountOf(s.attempts, k) <= FailuresSince(s.log, k)
  }

  /** Every count is exact: what it is until something is forgotten. */
  ghost predicate CountsExact(s: State) {
    forall k: string :: CountOf(s.attempts, k) == FailuresSince(s.log, k)
  }

  ghost predicate Bounded(cfg: Config, s: State) {
    WellFormed(s.attempts) && 1 <= cfg.maxAttempts && |s.attempts| <= cfg.maxAttempts
  }

  ghost predicate RecordBacked(cfg: Config, log: seq<Event>, r: Record) {
    r.at <= |log| && (r.reason == RetriesExhausted ==> FailuresSince(log[..r.at], r.eventId) >= Max(1, cfg.maxRetries))
  }

  ghost predicate RecordsBacked(cfg: Config, s: State) {
    forall i :: 0 <= i < |s.dlq| ==> RecordBacked(cfg, s.log, s.dlq[i])
  }

  /** How handling one entry moves the counter, the history and the dead letters. */
  datatype Turn = Turn(key: string, counted: bool, failed: bool, settled: bool)

  function TurnOf(cfg: Config, s: State, d: Delivery, a: Answers): Turn {
    var ok := d.entry.payload.Fact? && a.handler == Succeeded;
    Turn(DedupeKey(d.entry), d.entry.payload.Fact?, d.entry.payload.Fact? && !ok,
         ok || (DeadLetterDue(cfg, s, d, a) && a.xAdd == Carried))
  }

  function CountedBy(cfg: Config, attempts: Attempts, t: Turn): Attempts {
    var counted := if t.counted then AfterIncrement(cfg.maxAttempts, attempts, t.key) else attempts;
    if t.settled then AfterReset(counted, t.key) else counted
  }

  function LoggedBy(log: seq<Event>, t: Turn): seq<Event> {
    log + (if t.failed then [Failed(t.key)] else []) + (if t.settled then [Settled(t.key)] else [])
  }

  lemma {:induction false} EntryTurns(cfg: Config, s: State, sub: Subscription, d: Delivery, a: Answers)
    ensures var (to, t) := (HandleEntry(cfg, s, sub, d, a), TurnOf(cfg, s, d, a));
            && to.attempts == CountedBy(cfg, s.attempts, t) && to.log == LoggedBy(s.log, t)
  {
    assert s.log + [] == s.log;
  }

  lemma {:induction false} TurnMovesFailures(log: seq<Event>, t: Turn, k: string)
    ensures FailuresSince(LoggedBy(log, t), k)
         == if k != t.key then FailuresSince(log, k)
            else if t.settled then 0
            else if t.failed then FailuresSince(log, k) + 1
            else FailuresSince(log, k)
  {
    var failed := if t.failed then log + [Failed(t.key)] else log;
    LogGrows(log, Failed(t.key), k);
    LogGrows(failed, Settled(t.key), k);
    assert LoggedBy(log, t) == if t.settled then failed + [Settled(t.key)] else failed;
  }

  lemma {:induction false} TurnMovesCount(cfg: Config, attempts: Attempts, t: Turn, k: string)
    requires WellFormed(attempts) && 1 <= cfg.maxAttempts && |attempts| <= cfg.maxAttempts
    ensures WellFormed(CountedBy(cfg, attempts, t)) && |CountedBy(cfg, attempts, t)| <= cfg.maxAttempts
    ensures var forgotten := t.counted && Evicts(cfg.maxAttempts, attempts, t.key) && k == attempts[0].eventId;
            var to := CountOf(CountedBy(cfg, attempts, t), k);
            if k == t.key then
              && !forgotten
              && to == if t.settled then 0 else if t.counted then CountOf(attempts, k) + 1 else CountOf(attempts, k)
            else if forgotten then to == 0 < CountOf(attempts, k)
            else to == CountOf(attempts, k)
  {
    IncrementCounts(cfg.maxAttempts, attempts, t.key);
    ResetForgetsOnly(if t.counted then AfterIncrement(cfg.maxAttempts, attempts, t.key) else attempts, t.key);
  }

  lemma {:induction false} TurnKeepsCounts(cfg: Config, attempts: Attempts, log: seq<Event>, t: Turn, k: string)
    requires WellFormed(attempts) && 1 <= cfg.maxAttempts && |attempts| <= cfg.maxAttempts
    requires t.counted == (t.failed || (t.counted && t.settled))
    ensures WellFormed(CountedBy(cfg, attempts, t)) && |CountedBy(cfg, attempts, t)| <= cfg.maxAttempts
    ensures CountOf(attempts, k) <= FailuresSince(log, k) ==>
              CountOf(CountedBy(cfg, attempts, t), k) <= FailuresSince(LoggedBy(log, t), k)
    ensures var forgotten := t.counted && Evicts(cfg.maxAttempts, attempts, t.key) && k == attempts[0].eventId;
            CountOf(attempts, k) == FailuresSince(log, k) ==>
              (CountOf(CountedBy(cfg, attempts, t), k) == FailuresSince(LoggedBy(log, t), k) <==> !forgotten)
  {
    TurnMovesCount(cfg, attempts, t, k);
    TurnMovesFailures(log, t, k);
  }

  lemma {:induction false} EntryKeepsCounts(cfg: Config, s: State, sub: Subscription, d: Delivery, a: Answers)
    requires Bounded(cfg, s)
    ensures var to := HandleEntry(cfg, s, sub, d, a);
            && Bounded(cfg, to)
            && (CountsBacked(s) ==> CountsBacked(to))
            && (CountsExact(s) ==>
                  (CountsExact(to) <==> !(d.entry.payload.Fact?
                                          && Evicts(cfg.maxAttempts, s.attempts, DedupeKey(d.entry)))))
  {
    var to, t := HandleEntry(cfg, s, sub, d, a), TurnOf(cfg, s, d, a);
    EntryTurns(cfg, s, sub, d, a);
    TurnKeepsCounts(cfg, s.attempts, s.log, t, t.key);
    if CountsBacked(s) {
      forall k: string ensures CountOf(to.attempts, k) <= FailuresSince(to.log, k) {
        TurnKeepsCounts(cfg, s.attempts, s.log, t, k);
      }
    }
    if CountsExact(s) {
      forall k: string
        ensures CountOf(to.attempts, k) == FailuresSince(to.log, k)
                <==> !(t.counted && Evicts(cfg.maxAttempts, s.attempts, t.key) && k == s.attempts[0].eventId)
      {
        assert CountOf(s.attempts, k) == FailuresSince(s.log, k);
        TurnKeepsCounts(cfg, s.attempts, s.log, t, k);
      }
      if t.counted && Evicts(cfg.maxAttempts, s.attempts, t.key) {
        assert CountOf(to.attempts, s.attempts[0].eventId) != FailuresSince(to.log, s.attempts[0].eventId);
      }
    }
  }

  lemma {:induction false} EntryKeepsRecords(cfg: Config, s: State, sub: Subscription, d: Delivery, a: Answers)
    requires RecordsBacked(cfg, s) && CountsBacked(s)
    ensures RecordsBacked(cfg, HandleEntry(cfg, s, sub, d, a))
  {
    var to, t := HandleEntry(cfg, s, sub, d, a), TurnOf(cfg, s, d, a);
    EntryTurns(cfg, s, sub, d, a);
    EntryFiles(cfg, s, sub, d, a);
    forall i | 0 <= i < |to.dlq|
      ensures RecordBacked(cfg, to.log, to.dlq[i])
    {
      if i < |s.dlq| {
        assert RecordBacked(cfg, s.log, s.dlq[i]);
        assert to.log[..s.dlq[i].at] == s.log[..s.dlq[i].at];
      } else if t.failed {
        LogGrows(s.log, Failed(t.key), t.key);
        assert to.log[..|s.log| + 1] == s.log + [Failed(t.key)];
        assert CountOf(s.attempts, t.key) <= FailuresSince(s.log, t.key);
      }
    }
  }

  // ---------------------------------------------------------------------------------
  // Counters.

  /** Every entry received ends in exactly one outcome of its fact type; no dead letter is counted twice. */
  ghost predicate Tallied(m: Metrics, dlq: seq<Record>) {
    && (forall f: string ::
          m.received[f] == m.outcomes[(f, Done)] + m.outcomes[(f, Error)] + m.outcomes[(f, Malformed)])
    && |m.deadLettered| <= |dlq|
  }

  function OutcomeOf(d: Delivery, a: Answers): Outcome {
    if !d.entry.payload.Fact? then Malformed else if a.handler == Succeeded then Done else Error
  }

  lemma {:induction false} EntryCounters(cfg: Config, s: State, sub: Subscription, d: Delivery, a: Answers)
    ensures var (m, f) := (s.metrics, sub.factType);
            HandleEntry(cfg, s, sub, d, a).metrics
            == Metrics(m.received + multiset{f}, m.outcomes + multiset{(f, OutcomeOf(d, a))},
                       if DeadLetterDue(cfg, s, d, a) && a.xAdd == Carried
                       then m.deadLettered + multiset{f} else m.deadLettered)
  {
  }

  lemma {:induction false} EntryKeepsTally(cfg: Config, s: State, sub: Subscription, d: Delivery, a: Answers)
    requires Tallied(s.metrics, s.dlq)
    ensures Tallied(HandleEntry(cfg, s, sub, d, a).metrics, HandleEntry(cfg, s, sub, d, a).dlq)
  {
    EntryCounters(cfg, s, sub, d, a);
    EntryFiles(cfg, s, sub, d, a);
  }

  // ---------------------------------------------------------------------------------
  // Whole runs.

  ghost predicate Inv(cfg: Config, s: State) {
    Lossless(s) && Bounded(cfg, s) && CountsBacked(s) && RecordsBacked(cfg, s) && Tallied(s.metrics, s.dlq)
  }

  lemma EntryKeepsInv(cfg: Config, s: State, sub: Subscription, d: Delivery, a: Answers)
    requires Inv(cfg, s)
    ensures Inv(cfg, HandleEntry(cfg, s, sub, d, a))
  {
    EntryKeepsLossless(cfg, s, sub, d, a);
    EntryKeepsCounts(cfg, s, sub, d, a);
    EntryKeepsRecords(cfg, s, sub, d, a);
    EntryKeepsTally(cfg, s, sub, d, a);
  }

  lemma DeliverKeepsInv(cfg: Config, s: State, sub: Subscription, ds: seq<Delivery>)
    requires Inv(cfg, s)
    ensures Inv(cfg, Deliver(s, sub, ds))
  {
  }

  lemma HandleOneKeepsInv(env: Env, cfg: Config, p: Progress, sub: Subscription, d: Delivery)
    requires Inv(cfg, p.s)
    ensures Inv(cfg, HandleOne(env, cfg, p, sub, d).s)
  {
    EntryKeepsInv(cfg, p.s, sub, d, env.answers(p.at.handled));
  }

  lemma {:induction false} HandleAllKeepsInv(env: Env, cfg: Config, p: Progress, sub: Subscription, ds: seq<Delivery>)
    requires Inv(cfg, p.s)
    ensures Inv(cfg, HandleAll(env, cfg, p, sub, ds).s)
    decreases |ds|
  {
    if ds != [] && !env.aborted(p.at.looked) {
      HandleOneKeepsInv(env, cfg, p, sub, ds[0]);
      HandleAllKeepsInv(env, cfg, HandleOne(env, cfg, p, sub, ds[0]), sub, ds[1..]);
    }
  }

  lemma ReadKeepsInv(env: Env, cfg: Config, p: Progress, sub: Subscription)
    requires Inv(cfg, p.s)
    ensures Inv(cfg, ReadOne(env, cfg, p, sub).s)
  {
    var reply := env.replies(p.at.read);
    if !env.aborted(p.at.looked) {
      match reply {
        case ReadFailed(lost) => DeliverKeepsInv(cfg, p.s, sub, lost);
        case ReadGave(ds) =>
          DeliverKeepsInv(cfg, p.s, sub, ds);
          HandleAllKeepsInv(env, cfg, HandedOut(p, sub, ds), sub, ds);
      }
    }
  }

  lemma {:induction false} TickKeepsInv(env: Env, cfg: Config, p: Progress, subs: seq<Subscription>)
    requires Inv(cfg, p.s)
    ensures Inv(cfg, TickFrom(env, cfg, p, subs).s)
    decreases |subs|
  {
    if subs != [] && !p.stopped {
      ReadKeepsInv(env, cfg, p, subs[0]);
      TickKeepsInv(env, cfg, ReadOne(env, cfg, p, subs[0]), subs[1..]);
    }
  }

  lemma {:induction false} RunKeepsInv(env: Env, cfg: Config, p: Progress, subs: seq<Subscription>, n: nat)
    requires Inv(cfg, p.s)
    ensures Inv(cfg, Ticks(env, cfg, p, subs, n).s)
    decreases n
  {
    if n > 0 {
      TickKeepsInv(env, cfg, p.(stopped := false), subs);
      RunKeepsInv(env, cfg, TickFrom(env, cfg, p.(stopped := false), subs), subs, n - 1);
    }
  }

  function AfterRun(env: Env, cfg: Config, subs: seq<Subscription>, n: nat): State {
    Ticks(env, cfg, Progress(INIT, Cursor(0, 0, 0), false), subs, n).s
  }

  /**
   * However handlers, dead-letter writes and acks fail, and wherever the run is aborted, each
   * entry delivered is still pending or acked, and an acked one was handled or is on the
   * dead-letter stream under its own id.
   */
  lemma NothingIsLost(env: Env, cfg: Config, subs: seq<Subscription>, n: nat, ref: Ref)
    requires 1 <= cfg.maxAttempts && ref in AfterRun(env, cfg, subs, n).delivered
    ensures var s := AfterRun(env, cfg, subs, n);
            && (ref in s.pending <==> ref !in s.acked)
            && (ref in s.acked ==> ref in s.succeeded || Filed(s.dlq, ref))
  {
    RunKeepsInv(env, cfg, Progress(INIT, Cursor(0, 0, 0), false), subs, n);
  }

  /**
   * A dead letter for exhausted retries follows at least `maxRetries` handler failures of its
   * event, with no success and no confirmed dead letter of it between them.
   */
  lemma ExhaustionNeedsFailures(env: Env, cfg: Config, subs: seq<Subscription>, n: nat, i: nat)
    requires 1 <= cfg.maxAttempts && i < |AfterRun(env, cfg, subs, n).dlq|
    requires AfterRun(env, cfg, subs, n).dlq[i].reason == RetriesExhausted
    ensures var s := AfterRun(env, cfg, subs, n);
            s.dlq[i].at <= |s.log| && FailuresSince(s.log[..s.dlq[i].at], s.dlq[i].eventId) >= Max(1, cfg.maxRetries)
  {
    RunKeepsInv(env, cfg, Progress(INIT, Cursor(0, 0, 0), false), subs, n);
    var s := AfterRun(env, cfg, subs, n);
    assert RecordBacked(cfg, s.log, s.dlq[i]);
  }

  /** Received equals the sum of the outcomes for every fact type, and the attempt counter stays within its bound. */
  lemma EveryEntryHasOneOutcome(env: Env, cfg: Config, subs: seq<Subscription>, n: nat, factType: string)
    requires 1 <= cfg.maxAttempts
    ensures var s := AfterRun(env, cfg, subs, n);
            && s.metrics.received[factType]
               == s.metrics.outcomes[(factType, Done)] + s.metrics.outcomes[(factType, Error)]
                   + s.metrics.outcomes[(factType, Malformed)]
            && |s.metrics.deadLettered| <= |s.dlq| && |s.attempts| <= cfg.maxAttempts
  {
    RunKeepsInv(env, cfg, Progress(INIT, Cursor(0, 0, 0), false), subs, n);
  }

  /** While counts are exact, a failing event is dead-lettered at its `maxRetries`th failure in a row, never later. */
  lemma ExactCountsFileOnTime(cfg: Config, s: State, d: Delivery, a: Answers)
    requires CountsExact(s) && d.entry.payload.Fact? && a.handler != Succeeded
    ensures DeadLetterDue(cfg, s, d, a)
            <==> FailuresSince(s.log + [Failed(DedupeKey(d.entry))], DedupeKey(d.entry)) >= cfg.maxRetries
  {
    LogGrows(s.log, Failed(DedupeKey(d.entry)), DedupeKey(d.entry));
    assert CountOf(s.attempts, DedupeKey(d.entry)) == FailuresSince(s.log, DedupeKey(d.entry));
  }

  /** An abort leaves every entry of the batch it has not reached pending. */
  lemma {:induction false} AbortLeavesTheRestPending(env: Env, cfg: Config, p: Progress, sub: Subscription,
                                                     ds: seq<Delivery>, ref: Ref)
    requires ref in p.s.pending && forall i :: 0 <= i < |ds| && RefOf(sub, ds[i]) == ref ==>
             env.aborted(p.at.looked + i)
    ensures ref in HandleAll(env, cfg, p, sub, ds).s.pending
    decreases |ds|
  {
    if ds != [] && !env.aborted(p.at.looked) {
      EntryMoves(cfg, p.s, sub, ds[0], env.answers(p.at.handled));
      var next := HandleOne(env, cfg, p, sub, ds[0]);
      forall i | 0 <= i < |ds[1..]| && RefOf(sub, ds[1..][i]) == ref ensures env.aborted(next.at.looked + i) {
        assert ds[1..][i] == ds[i + 1];
        assert env.aborted(p.at.looked + (i + 1));
      }
      AbortLeavesTheRestPending(env, cfg, next, sub, ds[1..], ref);
    }
  }

  // ---------------------------------------------------------------------------------
  // Exhaustion takes deliveries.

  /** How many of the deliveries carry this event. */
  function Deliveries(ds: seq<Delivery>, eventId: string): nat {
    if ds == [] then 0 else (if DedupeKey(ds[0].entry) == eventId then 1 else 0) + Deliveries(ds[1..], eventId)
  }

  lemma {:induction false} DeliveriesJoin(a: seq<Delivery>, b: seq<Delivery>, eventId: string)
    ensures Deliveries(a + b, eventId) == Deliveries(a, eventId) + Deliveries(b, eventId)
  {
    if a == [] {
      assert a + b == b;
    } else {
      assert (a + b)[0] == a[0] && (a + b)[1..] == a[1..] + b;
      DeliveriesJoin(a[1..], b, eventId);
    }
  }

  /** All handler failures of the event so far. */
  function Failures(log: seq<Event>, eventId: string): nat {
    if log == [] then 0
    else Failures(log[..|log| - 1], eventId) + (if log[|log| - 1] == Failed(eventId) then 1 else 0)
  }

  lemma FailuresAppend(log: seq<Event>, event: Event, eventId: string)
    ensures Failures(log + [event], eventId) == Failures(log, eventId) + if event == Failed(eventId) then 1 else 0
  {
    assert (log + [event])[..|log|] == log;
  }

  lemma {:induction false} StreakWithinFailures(log: seq<Event>, eventId: string, n: nat)
    requires n <= |log|
    ensures FailuresSince(log[..n], eventId) <= Failures(log[..n], eventId) <= Failures(log, eventId)
    decreases |log|
  {
    if n < |log| {
      StreakWithinFailures(log[..|log| - 1], eventId, n);
      assert log[..|log| - 1][..n] == log[..n];
    } else if n > 0 {
      assert log[..n] == log;
      StreakWithinFailures(log[..n - 1], eventId, n - 1);
      assert log[..n - 1][..n - 1] == log[..n - 1];
    }
  }

  /** Failures of the event, and its deliveries still to be handled, stay within its deliveries. */
  ghost predicate Covered(s: State, left: seq<Delivery>, eventId: string) {
    Failures(s.log, eventId) + Deliveries(left, eventId) <= Deliveries(s.handed, eventId)
  }

  lemma EntryCovers(cfg: Config, s: State, sub: Subscription, d: Delivery, a: Answers, eventId: string)
    ensures var to := HandleEntry(cfg, s, sub, d, a);
            && to.handed == s.handed
            && Failures(to.log, eventId) <= Failures(s.log, eventId) + if DedupeKey(d.entry) == eventId then 1 else 0
  {
    EntryTurns(cfg, s, sub, d, a);
    EntryHandsNothing(cfg, s, sub, d, a);
    var t := TurnOf(cfg, s, d, a);
    var failed := if t.failed then s.log + [Failed(t.key)] else s.log;
    FailuresAppend(s.log, Failed(t.key), eventId);
    FailuresAppend(failed, Settled(t.key), eventId);
    assert LoggedBy(s.log, t) == if t.settled then failed + [Settled(t.key)] else failed;
  }

  lemma EntryHandsNothing(cfg: Config, s: State, sub: Subscription, d: Delivery, a: Answers)
    ensures HandleEntry(cfg, s, sub, d, a).handed == s.handed
  {
  }

  lemma {:induction false} BatchCovers(env: Env, cfg: Config, p: Progress, sub: Subscription, ds: seq<Delivery>,
                                       eventId: string)
    requires Covered(p.s, ds, eventId)
    ensures Covered(HandleAll(env, cfg, p, sub, ds).s, [], eventId)
    decreases |ds|
  {
    if ds != [] && !env.aborted(p.at.looked) {
      EntryCovers(cfg, p.s, sub, ds[0], env.answers(p.at.handled), eventId);
      BatchCovers(env, cfg, HandleOne(env, cfg, p, sub, ds[0]), sub, ds[1..], eventId);
    }
  }

  lemma ReadCovers(env: Env, cfg: Config, p: Progress, sub: Subscription, eventId: string)
    requires Covered(p.s, [], eventId)
    ensures Covered(ReadOne(env, cfg, p, sub).s, [], eventId)
  {
    if !env.aborted(p.at.looked) {
      match env.replies(p.at.read) {
        case ReadFailed(lost) => DeliveriesJoin(p.s.handed, lost, eventId);
        case ReadGave(ds) =>
          DeliveriesJoin(p.s.handed, ds, eventId);
          BatchCovers(env, cfg, HandedOut(p, sub, ds), sub, ds, eventId);
      }
    }
  }

  lemma {:induction false} TickCovers(env: Env, cfg: Config, p: Progress, subs: seq<Subscription>, eventId: string)
    requires Covered(p.s, [], eventId)
    ensures Covered(TickFrom(env, cfg, p, subs).s, [], eventId)
    decreases |subs|
  {
    if subs != [] && !p.stopped {
      ReadCovers(env, cfg, p, subs[0], eventId);
      TickCovers(env, cfg, ReadOne(env, cfg, p, subs[0]), subs[1..], eventId);
    }
  }

  lemma {:induction false} RunCovers(env: Env, cfg: Config, p: Progress, subs: seq<Subscription>, n: nat,
                                     eventId: string)
    requires Covered(p.s, [], eventId)
    ensures Covered(Ticks(env, cfg, p, subs, n).s, [], eventId)
    decreases n
  {
    if n > 0 {
      TickCovers(env, cfg, p.(stopped := false), subs, eventId);
      RunCovers(env, cfg, TickFrom(env, cfg, p.(stopped := false), subs), subs, n - 1, eventId);
    }
  }

  /**
   * An event that is delivered fewer than `maxRetries` times in a run is never dead-lettered for
   * exhausted retries, however often its handler fails: the loop retries nothing by itself, so
   * with entries delivered once each, a failing entry just stays pending.
   */
  lemma FewDeliveriesExhaustNothing(env: Env, cfg: Config, subs: seq<Subscription>, n: nat, i: nat)
    requires 1 <= cfg.maxAttempts && i < |AfterRun(env, cfg, subs, n).dlq|
    requires var s := AfterRun(env, cfg, subs, n); Deliveries(s.handed, s.dlq[i].eventId) < cfg.maxRetries
    ensures AfterRun(env, cfg, subs, n).dlq[i].reason != RetriesExhausted
  {
    var s := AfterRun(env, cfg, subs, n);
    if s.dlq[i].reason == RetriesExhausted {
      ExhaustionNeedsFailures(env, cfg, subs, n, i);
      RunCovers(env, cfg, Progress(INIT, Cursor(0, 0, 0), false), subs, n, s.dlq[i].eventId);
      StreakWithinFailures(s.log, s.dlq[i].eventId, s.dlq[i].at);
    }
  }

  // ---------------------------------------------------------------------------------
  // A run in which nobody claims a failed entry.

  const SUB: Subscription := Subscription("rating", "gamewire-rating")
  const FAILING: Delivery := Delivery("stream", Entry("1-0", "", Fact("event")))

  /** The first read hands out one entry, later reads none; its handler fails. */
  const ONE_FAILURE: Env :=
    Env((n: nat) => ReadGave(if n == 0 then [FAILING] else []), (n: nat) => Answers(ReturnedFalse, Carried, Carried),
        (n: nat) => false)

  lemma FirstTickFails(cfg: Config)
    requires cfg.maxRetries > 1
    ensures var p := TickFrom(ONE_FAILURE, cfg, Progress(INIT, Cursor(0, 0, 0), false), [SUB]);
            && p.s.pending == {RefOf(SUB, FAILING)} && p.s.acked == {} && p.s.dlq == [] && p.at.read == 1 && !p.stopped
  {
    var start := Progress(INIT, Cursor(0, 0, 0), false);
    var got := HandedOut(start, SUB, [FAILING]);
    assert got.s.pending == {RefOf(SUB, FAILING)} && got.s.acked == {};
    var done := HandleOne(ONE_FAILURE, cfg, got, SUB, FAILING);
    EntryMoves(cfg, got.s, SUB, FAILING, Answers(ReturnedFalse, Carried, Carried));
    EntryFiles(cfg, got.s, SUB, FAILING, Answers(ReturnedFalse, Carried, Carried));
    assert [FAILING][1..] == [] && [SUB][1..] == [];
    assert HandleAll(ONE_FAILURE, cfg, got, SUB, [FAILING]) == HandleAll(ONE_FAILURE, cfg, done, SUB, [FAILING][1..])
        == done;
    assert TickFrom(ONE_FAILURE, cfg, done, [SUB][1..]) == done;
  }

  lemma {:induction false} LaterTicksChangeNothing(cfg: Config, p: Progress, n: nat)
    requires p.at.read >= 1
    ensures var to := Ticks(ONE_FAILURE, cfg, p, [SUB], n).s;
            to.pending == p.s.pending && to.dlq == p.s.dlq && (p.s.acked == {} ==> to.acked == {})
    decreases n
  {
    if n > 0 {
      var next := HandedOut(p.(stopped := false), SUB, []);
      assert [SUB][1..] == [];
      assert ReadOne(ONE_FAILURE, cfg, p.(stopped := false), SUB) == next;
      assert TickFrom(ONE_FAILURE, cfg, next, [SUB][1..]) == next;
      LaterTicksChangeNothing(cfg, next, n - 1);
    }
  }

  /**
   * An entry whose handler fails once is still pending after any number of ticks, with no dead
   * letter: the loop never comes back to it.
   */
  lemma FailedEntryStaysPending(cfg: Config, n: nat)
    requires cfg.maxRetries > 1 && n > 0
    ensures var s := AfterRun(ONE_FAILURE, cfg, [SUB], n); s.pending == {RefOf(SUB, FAILING)} && s.dlq == []
  {
    FirstTickFails(cfg);
    LaterTicksChangeNothing(cfg, TickFrom(ONE_FAILURE, cfg, Progress(INIT, Cursor(0, 0, 0), false), [SUB]), n - 1);
  }
}
