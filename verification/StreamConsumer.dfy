/**
 * The Redis stream consumer. `HandleEntry` and `TickFrom` are the specification; the class
 * below them carries the state the source mutates and meets it method by method.
 */
module StreamConsumer {
  import opened Wrappers
  import opened AttemptCounter

  // ---------------------------------------------------------------------------------
  // What the outside world answers.

  datatype HandlerReply = Succeeded | ReturnedFalse | Threw

  /** The answers met while one entry is handled. */
  datatype Answers = Answers(handler: HandlerReply, xAdd: Write, xAck: Write)

  datatype Payload = Missing | Undecodable | Fact(id: string)

  datatype Entry = Entry(id: string, eventId: string, payload: Payload)

  datatype Delivery = Delivery(stream: string, entry: Entry)

  /** A failed read may have handed entries out on the server all the same, its reply lost. */
  datatype ReadReply = ReadFailed(lost: seq<Delivery>) | ReadGave(deliveries: seq<Delivery>)

  /** The world: the nth read, the nth entry's answers, and whether the nth look at the abort signal sees it set. */
  datatype Env = Env(replies: nat -> ReadReply, answers: nat -> Answers, aborted: nat -> bool)

  datatype Subscription = Subscription(factType: string, group: string)

  datatype Config = Config(maxRetries: int, maxAttempts: nat)

  // ---------------------------------------------------------------------------------
  // State.

  /** An entry in the pending list of its group. */
  datatype Ref = Ref(stream: string, group: string, id: string)

  datatype Reason = MissingData | DecodeError | RetriesExhausted

  /** `at` is history: how much of the log had happened when the record was written. */
  datatype Record = Record(originalStream: string, originalId: string, factType: string, eventId: string,
                           reason: Reason, at: nat)

  datatype Outcome = Done | Error | Malformed

  datatype Metrics = Metrics(received: multiset<string>, outcomes: multiset<(string, Outcome)>,
                             deadLettered: multiset<string>)

  /** History of one event id: a handler failure, or the end of a streak of failures. */
  datatype Event = Failed(eventId: string) | Settled(eventId: string)

  /**
   * `delivered`, `handed`, `taken`, `succeeded` and `log` are history; `handed` lists every delivery,
   * repeats included, and `taken` those the consumer has got to.
   */
  datatype State = State(
    pending: set<Ref>, acked: set<Ref>, dlq: seq<Record>, attempts: Attempts, metrics: Metrics,
    delivered: set<Ref>, handed: seq<Delivery>, taken: seq<(Subscription, Delivery)>,
    succeeded: set<Ref>, log: seq<Event>)

  const INIT: State :=
    State({}, {}, [], [], Metrics(multiset{}, multiset{}, multiset{}), {}, [], [], {}, [])

  function DedupeKey(entry: Entry): string {
    if entry.payload.Fact? && entry.payload.id != "" then entry.payload.id
    else if entry.eventId != "" then entry.eventId
    else "stream:" + entry.id
  }

  function RefOf(sub: Subscription, d: Delivery): Ref { Ref(d.stream, sub.group, d.entry.id) }

  // ---------------------------------------------------------------------------------
  // One entry.

  function SafeXAck(s: State, ref: Ref, xAck: Write): State {
    if xAck == NotCarried || ref !in s.pending then s
    else s.(pending := s.pending - {ref}, acked := s.acked + {ref})
  }

  function ResetOf(s: State, eventId: string): State {
    s.(attempts := AfterReset(s.attempts, eventId), log := s.log + [Settled(eventId)])
  }

  function DeadLetter(s: State, sub: Subscription, d: Delivery, eventId: string, reason: Reason, a: Answers): State {
    if a.xAdd == NotCarried then s
    else
      var filed := s.(dlq := s.dlq + [Record(d.stream, d.entry.id, sub.factType, eventId, reason, |s.log|)]);
      if a.xAdd == ReplyLost then filed
      else
        var counted := filed.(metrics := s.metrics.(deadLettered := s.metrics.deadLettered + multiset{sub.factType}));
        SafeXAck(ResetOf(counted, eventId), RefOf(sub, d), a.xAck)
  }

  function WithOutcome(s: State, factType: string, outcome: Outcome): State {
    s.(metrics := s.metrics.(outcomes := s.metrics.outcomes + multiset{(factType, outcome)}))
  }

  /** An entry without a payload that decodes. */
  function Rejected(s: State, sub: Subscription, d: Delivery, reason: Reason, a: Answers): State {
    WithOutcome(DeadLetter(s, sub, d, DedupeKey(d.entry), reason, a), sub.factType, Malformed)
  }

  function Handled(s: State, sub: Subscription, d: Delivery, a: Answers): State {
    var done := ResetOf(s, DedupeKey(d.entry)).(succeeded := s.succeeded + {RefOf(sub, d)});
    WithOutcome(SafeXAck(done, RefOf(sub, d), a.xAck), sub.factType, Done)
  }

  /** `attempt` is the count of this attempt. */
  function FailedOnce(cfg: Config, s: State, sub: Subscription, d: Delivery, a: Answers, attempt: nat): State {
    var key := DedupeKey(d.entry);
    var failed := WithOutcome(s.(log := s.log + [Failed(key)]), sub.factType, Error);
    if attempt >= cfg.maxRetries then DeadLetter(failed, sub, d, key, RetriesExhausted, a) else failed
  }

  function Received(s: State, sub: Subscription, d: Delivery): State {
    s.(metrics := s.metrics.(received := s.metrics.received + multiset{sub.factType}), taken := s.taken + [(sub, d)])
  }

  function Counted(cfg: Config, s: State, eventId: string): State {
    s.(attempts := AfterIncrement(cfg.maxAttempts, s.attempts, eventId))
  }

  function HandleEntry(cfg: Config, s: State, sub: Subscription, d: Delivery, a: Answers): State {
    var key := DedupeKey(d.entry);
    match d.entry.payload
    case Missing => Rejected(Received(s, sub, d), sub, d, MissingData, a)
    case Undecodable => Rejected(Received(s, sub, d), sub, d, DecodeError, a)
    case Fact(_) =>
      var counted := Counted(cfg, Received(s, sub, d), key);
      if a.handler == Succeeded then Handled(counted, sub, d, a)
      else FailedOnce(cfg, counted, sub, d, a, CountOf(s.attempts, key) + 1)
  }

  // ---------------------------------------------------------------------------------
  // One tick, and runs of ticks.

  /** How far the consumer has read into the world. */
  datatype Cursor = Cursor(read: nat, handled: nat, looked: nat)

  datatype Progress = Progress(s: State, at: Cursor, stopped: bool)

  function Deliver(s: State, sub: Subscription, ds: seq<Delivery>): State {
    var refs := set d <- ds :: RefOf(sub, d);
    s.(pending := s.pending + refs, delivered := s.delivered + refs, acked := s.acked - refs, handed := s.handed + ds)
  }

  function HandleOne(env: Env, cfg: Config, p: Progress, sub: Subscription, d: Delivery): Progress {
    Progress(HandleEntry(cfg, p.s, sub, d, env.answers(p.at.handled)),
             p.at.(looked := p.at.looked + 1, handled := p.at.handled + 1), false)
  }

  function HandleAll(env: Env, cfg: Config, p: Progress, sub: Subscription, ds: seq<Delivery>): Progress
    decreases |ds|
  {
    if ds == [] then p
    else if env.aborted(p.at.looked) then Progress(p.s, p.at.(looked := p.at.looked + 1), true)
    else HandleAll(env, cfg, HandleOne(env, cfg, p, sub, ds[0]), sub, ds[1..])
  }

  /** A read for which the server hands out these entries. */
  function HandedOut(p: Progress, sub: Subscription, ds: seq<Delivery>): Progress {
    Progress(Deliver(p.s, sub, ds), p.at.(looked := p.at.looked + 1, read := p.at.read + 1), false)
  }

  function ReadOne(env: Env, cfg: Config, p: Progress, sub: Subscription): Progress {
    if env.aborted(p.at.looked) then Progress(p.s, p.at.(looked := p.at.looked + 1), true)
    else
      match env.replies(p.at.read)
      case ReadFailed(lost) => HandedOut(p, sub, lost)
      case ReadGave(ds) => HandleAll(env, cfg, HandedOut(p, sub, ds), sub, ds)
  }

  function TickFrom(env: Env, cfg: Config, p: Progress, subs: seq<Subscription>): Progress
    decreases |subs|
  {
    if subs == [] || p.stopped then p else TickFrom(env, cfg, ReadOne(env, cfg, p, subs[0]), subs[1..])
  }

  function Ticks(env: Env, cfg: Config, p: Progress, subs: seq<Subscription>, n: nat): Progress
    decreases n
  {
    if n == 0 then p
    else Ticks(env, cfg, TickFrom(env, cfg, p.(stopped := false), subs), subs, n - 1)
  }

  // ---------------------------------------------------------------------------------
  // The consumer itself.

  class RedisStreamConsumer {
    const env: Env
    const maxRetries: int
    const counter: InMemoryAttemptCounter
    const subscriptions: seq<Subscription>
    var pending: set<Ref>
    var acked: set<Ref>
    var dlq: seq<Record>
    var metrics: Metrics
    var delivered: set<Ref>
    ghost var handed: seq<Delivery>
    ghost var taken: seq<(Subscription, Delivery)>
    var succeeded: set<Ref>
    var log: seq<Event>
    var at: Cursor

    ghost predicate Valid()
      reads this, counter
    {
      counter.Valid()
    }

    ghost function Cfg(): Config { Config(maxRetries, counter.max) }

    ghost function Now(): State
      reads this, counter
    {
      State(pending, acked, dlq, counter.attempts, metrics, delivered, handed, taken, succeeded, log)
    }

    constructor (env: Env, maxRetries: int, counter: InMemoryAttemptCounter, subscriptions: seq<Subscription>)
      requires counter.Valid() && counter.attempts == []
      ensures Valid() && Now() == INIT && at == Cursor(0, 0, 0)
      ensures this.env == env && this.maxRetries == maxRetries && this.counter == counter
      ensures this.subscriptions == subscriptions
    {
      this.env, this.maxRetries, this.counter, this.subscriptions := env, maxRetries, counter, subscriptions;
      pending, acked, delivered, succeeded := {}, {}, {}, {};
      dlq, log, handed, taken := [], [], [], [];
      metrics := Metrics(multiset{}, multiset{}, multiset{});
      at := Cursor(0, 0, 0);
    }

    method SafeXAckOf(ref: Ref, xAck: Write)
      requires Valid()
      modifies this`pending, this`acked
      ensures Valid() && Now() == SafeXAck(old(Now()), ref, xAck)
    {
      if xAck != NotCarried && ref in pending {
        pending := pending - {ref};
        acked := acked + {ref};
      }
    }

    method ResetAttempts(eventId: string)
      requires Valid()
      modifies counter, this`log
      ensures Valid() && Now() == ResetOf(old(Now()), eventId)
    {
      counter.Reset(eventId);
      log := log + [Settled(eventId)];
    }

    method DeadLetterOf(sub: Subscription, d: Delivery, eventId: string, reason: Reason, a: Answers)
      requires Valid()
      modifies this`pending, this`acked, this`dlq, this`metrics, this`log, counter
      ensures Valid() && Now() == DeadLetter(old(Now()), sub, d, eventId, reason, a)
    {
      if a.xAdd == NotCarried {
        return;
      }
      dlq := dlq + [Record(d.stream, d.entry.id, sub.factType, eventId, reason, |log|)];
      if a.xAdd == ReplyLost {
        return;
      }
      metrics := metrics.(deadLettered := metrics.deadLettered + multiset{sub.factType});
      ResetAttempts(eventId);
      SafeXAckOf(RefOf(sub, d), a.xAck);
    }

    method RecordOutcome(factType: string, outcome: Outcome)
      modifies this`metrics
      ensures Now() == WithOutcome(old(Now()), factType, outcome)
    {
      metrics := metrics.(outcomes := metrics.outcomes + multiset{(factType, outcome)});
    }

    method Reject(sub: Subscription, d: Delivery, reason: Reason, a: Answers)
      requires Valid()
      modifies this`pending, this`acked, this`dlq, this`metrics, this`log, counter
      ensures Valid() && Now() == Rejected(old(Now()), sub, d, reason, a)
    {
      DeadLetterOf(sub, d, DedupeKey(d.entry), reason, a);
      RecordOutcome(sub.factType, Malformed);
    }

    method Succeed(sub: Subscription, d: Delivery, a: Answers)
      requires Valid()
      modifies this`pending, this`acked, this`metrics, this`log, this`succeeded, counter
      ensures Valid() && Now() == Handled(old(Now()), sub, d, a)
    {
      ResetAttempts(DedupeKey(d.entry));
      succeeded := succeeded + {RefOf(sub, d)};
      SafeXAckOf(RefOf(sub, d), a.xAck);
      RecordOutcome(sub.factType, Done);
    }

    method Fail(sub: Subscription, d: Delivery, a: Answers, attempt: nat)
      requires Valid()
      modifies this`pending, this`acked, this`dlq, this`metrics, this`log, counter
      ensures Valid() && Now() == FailedOnce(Cfg(), old(Now()), sub, d, a, attempt)
    {
      log := log + [Failed(DedupeKey(d.entry))];
      RecordOutcome(sub.factType, Error);
      if attempt >= maxRetries {
        DeadLetterOf(sub, d, DedupeKey(d.entry), RetriesExhausted, a);
      }
    }

    method Handle(sub: Subscription, d: Delivery, a: Answers)
      requires Valid()
      modifies this`pending, this`acked, this`dlq, this`metrics, this`log, this`taken, this`succeeded, counter
      ensures Valid() && Now() == HandleEntry(Cfg(), old(Now()), sub, d, a)
    {
      metrics := metrics.(received := metrics.received + multiset{sub.factType});
      taken := taken + [(sub, d)];
      if !d.entry.payload.Fact? {
        Reject(sub, d, if d.entry.payload.Missing? then MissingData else DecodeError, a);
        return;
      }
      var attempt := counter.Increment(DedupeKey(d.entry));
      if a.handler == Succeeded {
        Succeed(sub, d, a);
      } else {
        Fail(sub, d, a, attempt);
      }
    }

    method HandleNext(sub: Subscription, d: Delivery)
      requires Valid()
      modifies this, counter
      ensures Valid()
      ensures Progress(Now(), at, false) == HandleOne(env, Cfg(), Progress(old(Now()), old(at), false), sub, d)
    {
      Handle(sub, d, env.answers(at.handled));
      at := at.(looked := at.looked + 1, handled := at.handled + 1);
    }

    method HandleBatch(sub: Subscription, ds: seq<Delivery>) returns (stopped: bool)
      requires Valid()
      modifies this, counter
      ensures Valid()
      ensures Progress(Now(), at, stopped) == HandleAll(env, Cfg(), Progress(old(Now()), old(at), false), sub, ds)
    {
      ghost var start := Progress(Now(), at, false);
      for i := 0 to |ds|
        invariant Valid()
        invariant HandleAll(env, Cfg(), start, sub, ds)
               == HandleAll(env, Cfg(), Progress(Now(), at, false), sub, ds[i..])
      {
        if env.aborted(at.looked) {
          at := at.(looked := at.looked + 1);
          return true;
        }
        HandleNext(sub, ds[i]);
        assert ds[i..][1..] == ds[i + 1..];
      }
      stopped := false;
    }

    /** The server puts every entry it hands out on the pending list. */
    method Receive(sub: Subscription, ds: seq<Delivery>)
      modifies this`pending, this`delivered, this`handed, this`acked, this`at
      ensures Progress(Now(), at, false) == HandedOut(Progress(old(Now()), old(at), false), sub, ds)
    {
      var refs := set d <- ds :: RefOf(sub, d);
      pending, delivered, acked := pending + refs, delivered + refs, acked - refs;
      handed := handed + ds;
      at := at.(looked := at.looked + 1, read := at.read + 1);
    }

    method Read(sub: Subscription) returns (stopped: bool)
      requires Valid()
      modifies this, counter
      ensures Valid() && Progress(Now(), at, stopped) == ReadOne(env, Cfg(), Progress(old(Now()), old(at), false), sub)
    {
      if env.aborted(at.looked) {
        at := at.(looked := at.looked + 1);
        return true;
      }
      match env.replies(at.read) {
        case ReadFailed(lost) =>
          Receive(sub, lost);
          stopped := false;
        case ReadGave(ds) =>
          Receive(sub, ds);
          stopped := HandleBatch(sub, ds);
      }
    }

    method Tick() returns (stopped: bool)
      requires Valid()
      modifies this, counter
      ensures Valid()
      ensures Progress(Now(), at, stopped) == TickFrom(env, Cfg(), Progress(old(Now()), old(at), false), subscriptions)
    {
      stopped := false;
      ghost var start := Progress(Now(), at, false);
      for i := 0 to |subscriptions|
        invariant Valid() && !stopped
        invariant TickFrom(env, Cfg(), start, subscriptions)
               == TickFrom(env, Cfg(), Progress(Now(), at, false), subscriptions[i..])
      {
        stopped := Read(subscriptions[i]);
        assert subscriptions[i..][1..] == subscriptions[i + 1..];
        if stopped {
          return;
        }
      }
    }
  }
}
