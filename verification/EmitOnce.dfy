/**
 * The emit-once publisher: its marker stores, and the observers as a transition system. A
 * schedule interleaves any number of `observe` calls, each cut at its awaits, over one
 * marker store and one stream.
 */
module EmitOnce {
  import opened Wrappers
  import opened Tally
  import opened AsciiText
  import opened BoundedSet

  // ---------------------------------------------------------------------------------
  // Status classification, on ASCII statuses.

  datatype Classification = TerminalResult | TerminalVoid

  const TERMINAL_RESULT_STATUSES: set<string> := {"FT", "AET", "PEN"}
  const TERMINAL_VOID_STATUSES: set<string> := {"PST", "ABD", "AWD", "WO"}

  function Normalised(status: string): string { Upper(Trim(status)) }

  function Classify(status: Option<string>): Option<Classification> {
    match status
    case None => None
    case Some(raw) =>
      var normalised := Normalised(raw);
      if normalised in TERMINAL_RESULT_STATUSES then Some(TerminalResult)
      else if normalised in TERMINAL_VOID_STATUSES then Some(TerminalVoid)
      else None
  }

  predicate Bare(s: string) { s != [] ==> !IsSpace(s[0]) && !IsSpace(s[|s| - 1]) }

  lemma {:induction false} NormalisedDropsPadding(before: string, spelling: string, after: string)
    requires (forall c <- before :: IsSpace(c)) && (forall c <- after :: IsSpace(c)) && Bare(spelling)
    ensures Normalised(before + spelling + after) == Upper(spelling)
  {
    assert before + spelling + after == before + (spelling + after);
    TrimStartDropsPadding(before, spelling + after);
    if spelling == [] {
      assert spelling + after == after && after == after + [];
      TrimStartDropsPadding(after, []);
    } else {
      assert TrimStart(spelling + after) == spelling + after;
      TrimEndDropsPadding(spelling, after);
    }
  }

  /** Provider-side casing or padding cannot drop a fixture: any spelling of a status is classified alike. */
  lemma SpellingDoesNotMatter(before: string, spelling: string, after: string, status: string)
    requires (forall c <- before :: IsSpace(c)) && (forall c <- after :: IsSpace(c))
    requires Bare(spelling) && |spelling| == |status|
    requires forall i :: 0 <= i < |status| ==> UpperChar(spelling[i]) == UpperChar(status[i])
    ensures Classify(Some(before + spelling + after)) == Classify(Some(status))
  {
    NormalisedDropsPadding(before, spelling, after);
    if spelling != [] {
      assert !IsSpace(status[0]) by { assert UpperChar(spelling[0]) == UpperChar(status[0]); }
      var n := |status| - 1;
      assert !IsSpace(status[n]) by { assert UpperChar(spelling[n]) == UpperChar(status[n]); }
    }
    UpperForgetsCase(spelling, status);
  }

  // ---------------------------------------------------------------------------------
  // The marker store.

  function KeyFor(providerId: string, providerFixtureId: string): string { providerId + (":" + providerFixtureId) }

  lemma KeysAreDistinct(p1: string, f1: string, p2: string, f2: string)
    requires ':' !in p1 && ':' !in p2 && KeyFor(p1, f1) == KeyFor(p2, f2)
    ensures p1 == p2 && f1 == f2
  {
    SplitAtFirst(':', p1, f1, p2, f2);
  }

  /** The process-local store; `seen` is the insertion-ordered set of keys. */
  class InMemoryEmittedFixtureStore {
    const max: int
    var seen: seq<string>

    ghost predicate Valid() reads this { Distinct(seen) && 1 <= max && |seen| <= max }

    constructor (limit: int)
      ensures Valid() && max == Max(1, limit) && seen == []
    {
      max := Max(1, limit);
      seen := [];
    }

    method HasEmitted(providerId: string, providerFixtureId: string) returns (emitted: bool)
      ensures emitted <==> KeyFor(providerId, providerFixtureId) in seen
    {
      emitted := KeyFor(providerId, providerFixtureId) in seen;
    }

    method MarkEmitted(providerId: string, providerFixtureId: string) returns (won: bool)
      requires Valid()
      modifies this`seen
      ensures Valid() && won == (KeyFor(providerId, providerFixtureId) !in old(seen))
      ensures seen == AfterMark(Some(max), old(seen), KeyFor(providerId, providerFixtureId))
    {
      var key := KeyFor(providerId, providerFixtureId);
      MarkKeepsDistinct(Some(max), seen, key);
      if key in seen {
        return false;
      }
      seen := seen + [key];
      if |seen| > max {
        seen := seen[1..];
      }
      won := true;
    }

    method ClearEmitted(providerId: string, providerFixtureId: string)
      requires Valid()
      modifies this`seen
      ensures Valid() && seen == Without(old(seen), KeyFor(providerId, providerFixtureId))
    {
      var key := KeyFor(providerId, providerFixtureId);
      WithoutRemovesOnly(seen, key);
      WithoutIsNoLonger(seen, key);
      seen := Without(seen, key);
    }

    method Reset()
      requires Valid()
      modifies this`seen
      ensures Valid() && seen == []
    {
      seen := [];
    }
  }

  /** The Redis variant: one SET NX, one DEL, on a key set other replicas share. `w` is how the write ends. */
  class RedisEmittedFixtureStore {
    const keyPrefix: string
    var keys: set<string>

    constructor (prefix: string, shared: set<string>)
      ensures keyPrefix == prefix && keys == shared
    {
      keyPrefix := prefix;
      keys := shared;
    }

    /** No answer means that the call rejects; the key may be set all the same. */
    method MarkEmitted(providerId: string, providerFixtureId: string, w: Write) returns (won: Option<bool>)
      modifies this`keys
      ensures won == if w != Carried then None
                     else Some(keyPrefix + KeyFor(providerId, providerFixtureId) !in old(keys))
      ensures keys == if Lands(w) then old(keys) + {keyPrefix + KeyFor(providerId, providerFixtureId)} else old(keys)
    {
      var key := keyPrefix + KeyFor(providerId, providerFixtureId);
      won := None;
      if w == Carried {
        won := Some(key !in keys);
      }
      if Lands(w) {
        keys := keys + {key};
      }
    }

    method ClearEmitted(providerId: string, providerFixtureId: string, w: Write) returns (ok: bool)
      modifies this`keys
      ensures ok == (w == Carried)
      ensures keys == if Lands(w) then old(keys) - {keyPrefix + KeyFor(providerId, providerFixtureId)} else old(keys)
    {
      ok := w == Carried;
      if Lands(w) {
        keys := keys - {keyPrefix + KeyFor(providerId, providerFixtureId)};
      }
    }

    /** The server drops a marker whose time to live is over. */
    method Expire(key: string)
      modifies this`keys
      ensures keys == old(keys) - {keyPrefix + key}
    {
      keys := keys - {keyPrefix + key};
    }
  }

  ghost function KeySet(prefix: string, seen: seq<string>): set<string> { set k <- seen :: prefix + k }

  lemma PrefixIsInjective(prefix: string, a: string, b: string)
    ensures prefix + a == prefix + b <==> a == b
  {
    if prefix + a == prefix + b {
      DropPrefix(prefix, a, b);
    }
  }

  /** SET NX, DEL and expiry are the unbounded in-memory store, key for key. */
  lemma RedisIsTheUnboundedStore(prefix: string, seen: seq<string>, key: string)
    requires Distinct(seen)
    ensures prefix + key in KeySet(prefix, seen) <==> key in seen
    ensures KeySet(prefix, AfterMark(None, seen, key)) == KeySet(prefix, seen) + {prefix + key}
    ensures KeySet(prefix, Without(seen, key)) == KeySet(prefix, seen) - {prefix + key}
  {
    forall k ensures prefix + k == prefix + key <==> k == key { PrefixIsInjective(prefix, k, key); }
    WithoutRemovesOnly(seen, key);
    MarkKeepsDistinct(None, seen, key);
  }

  // ---------------------------------------------------------------------------------
  // Observers.

  /** `concludedAt` is None when the time is not a date JavaScript can print. */
  datatype Fixture = Fixture(providerId: string, fixtureId: string, status: Option<string>, concludedAt: Option<int>)

  datatype Outcome = Published | AlreadyEmitted | NotTerminal | PublishFailed

  /** Each constructor names the await an observer is suspended at; `Ended` and `Threw` are final. */
  datatype Stage =
    | Marking              // the reserve request is out
    | Reserved(won: bool)  // it has been answered
    | Publishing           // the append is out
    | Landed               // the append has been answered
    | Refused              // the append was not answered; the marker is to be cleared
    | Cleared              // the marker is gone
    | Ended(outcome: Outcome)
    | Threw(holding: bool) // observe itself rejected; whether its marker is left in the store

  /** `landed` is history: whether the append of this observer was carried out. */
  datatype Observer = Observer(key: string, dated: bool, landed: bool, stage: Stage) {
    predicate Final() { stage.Ended? || stage.Threw? }
  }

  datatype State = State(seen: seq<string>, observers: seq<Observer>, stream: seq<string>, metrics: multiset<Outcome>)

  datatype Step = Observe(fixture: Fixture) | Proceed(observer: nat, reply: Write) | Expire(key: string)

  const INIT: State := State([], [], [], multiset{})

  predicate Enabled(s: State, step: Step) {
    match step
    case Observe(_) => true
    case Proceed(i, _) => i < |s.observers| && !s.observers[i].Final()
    case Expire(key) => key in s.seen
  }

  function Begin(fixture: Fixture): Observer {
    Observer(KeyFor(fixture.providerId, fixture.fixtureId), fixture.concludedAt.Some?, false,
             if Classify(fixture.status).None? then Ended(NotTerminal) else Marking)
  }

  /** The stage after the request an observer waits for ends; a plain resumption ignores the reply. */
  function NextStage(o: Observer, reply: Write, seen: seq<string>): Stage {
    match o.stage
    case Marking =>
      (match reply
       case Carried => Reserved(o.key !in seen)
       case ReplyLost => Threw(o.key !in seen) // the marker may be set, and nobody knows
       case NotCarried => Threw(false))
    case Reserved(won) =>
      if !won then Ended(AlreadyEmitted)
      else if o.dated then Publishing
      else Threw(true) // building the fact throws, outside the try block
    case Publishing => if reply == Carried then Landed else Refused
    case Landed => Ended(Published)
    case Refused =>
      (match reply
       case Carried => Cleared
       case ReplyLost => Threw(false)
       case NotCarried => Threw(true))
    case Cleared => Ended(PublishFailed)
    case Ended(_) => o.stage
    case Threw(_) => o.stage
  }

  function Advance(o: Observer, reply: Write, seen: seq<string>): Observer {
    o.(stage := NextStage(o, reply, seen), landed := o.landed || (o.stage.Publishing? && Lands(reply)))
  }

  function Recorded(stage: Stage): multiset<Outcome> { if stage.Ended? then multiset{stage.outcome} else multiset{} }

  function Apply(cap: Capacity, s: State, step: Step): State
    requires Enabled(s, step)
  {
    match step
    case Observe(fixture) =>
      var o := Begin(fixture);
      s.(observers := s.observers + [o], metrics := s.metrics + Recorded(o.stage))
    case Proceed(i, reply) =>
      var o := s.observers[i];
      var o' := Advance(o, reply, s.seen);
      State(
        if o.stage.Marking? && Lands(reply) then AfterMark(cap, s.seen, o.key)
        else if o.stage.Refused? && Lands(reply) then Without(s.seen, o.key)
        else s.seen,
        s.observers[i := o'],
        if o.stage.Publishing? && Lands(reply) then s.stream + [o.key] else s.stream,
        s.metrics + Recorded(o'.stage))
    // a marker times out, or goes with the process that held it
    case Expire(key) => s.(seen := Without(s.seen, key))
  }

  predicate Legal(cap: Capacity, s: State, steps: seq<Step>)
    decreases |steps|
  {
    steps == [] || (Enabled(s, steps[0]) && Legal(cap, Apply(cap, s, steps[0]), steps[1..]))
  }

  function After(cap: Capacity, s: State, steps: seq<Step>): State
    requires Legal(cap, s, steps)
    decreases |steps|
  {
    if steps == [] then s else After(cap, Apply(cap, s, steps[0]), steps[1..])
  }

  /** One step in front of a join. */
  lemma {:induction false} JoinStep(cap: Capacity, s: State, a: seq<Step>, b: seq<Step>, next: State)
    requires a != [] && Enabled(s, a[0]) && next == Apply(cap, s, a[0]) && Legal(cap, next, a[1..] + b)
    ensures Legal(cap, s, a + b) && After(cap, s, a + b) == After(cap, next, a[1..] + b)
  {
    var both, rest := a + b, a[1..] + b;
    assert both[0] == a[0];
    assert both[1..] == rest;
    assert Legal(cap, s, both);
  }

  lemma {:induction false} RunsJoin(cap: Capacity, s: State, a: seq<Step>, b: seq<Step>)
    requires Legal(cap, s, a) && Legal(cap, After(cap, s, a), b)
    ensures Legal(cap, s, a + b) && After(cap, s, a + b) == After(cap, After(cap, s, a), b)
    decreases |a|
  {
    if a == [] {
      assert a + b == b;
    } else {
      var next := Apply(cap, s, a[0]);
      RunsJoin(cap, next, a[1..], b);
      JoinStep(cap, s, a, b, next);
    }
  }

  // ---------------------------------------------------------------------------------
  // One whole observer.

  /** How the three requests of an observer end. */
  datatype Answers = Answers(mark: Write, publish: Write, clear: Write)

  function ReplyTo(stage: Stage, a: Answers): Write {
    match stage
    case Marking => a.mark
    case Publishing => a.publish
    case Refused => a.clear
    case _ => Carried
  }

  function StepsLeft(stage: Stage): nat {
    match stage
    case Marking => 5
    case Reserved(_) => 4
    case Publishing => 3
    case Landed => 2
    case Refused => 2
    case Cleared => 1
    case Ended(_) => 0
    case Threw(_) => 0
  }

  /** The observer run to its end, its marker looked up in `seen`. */
  function Final(o: Observer, seen: seq<string>, a: Answers): Observer
    decreases StepsLeft(o.stage)
  {
    if o.Final() then o else Final(Advance(o, ReplyTo(o.stage, a), seen), seen, a)
  }

  /** Where an observer ends up, as its three answers decide. */
  function EndOf(free: bool, dated: bool, a: Answers): Stage {
    if a.mark != Carried then Threw(free && a.mark == ReplyLost)
    else if !free then Ended(AlreadyEmitted)
    else if !dated then Threw(true)
    else if a.publish == Carried then Ended(Published)
    else if a.clear == Carried then Ended(PublishFailed)
    else Threw(a.clear == NotCarried)
  }

  lemma {:induction false} FinalIsEndOf(key: string, dated: bool, seen: seq<string>, a: Answers)
    ensures var f := Final(Observer(key, dated, false, Marking), seen, a);
            && f.stage == EndOf(key !in seen, dated, a) && f.Final() && f.key == key
            && (f.landed <==> a.mark == Carried && key !in seen && dated && Lands(a.publish))
  {
    var o1 := Advance(Observer(key, dated, false, Marking), a.mark, seen);
    var o2 := Advance(o1, ReplyTo(o1.stage, a), seen);
    var o3 := Advance(o2, ReplyTo(o2.stage, a), seen);
    var o4 := Advance(o3, ReplyTo(o3.stage, a), seen);
    var f := Final(o1, seen, a);
    if !o1.Final() {
      assert f == Final(o2, seen, a);
      if !o2.Final() {
        assert f == Final(o3, seen, a);
        if !o3.Final() {
          assert f == Final(o4, seen, a);
          if !o4.Final() { assert f == Final(Advance(o4, ReplyTo(o4.stage, a), seen), seen, a); }
        }
      }
    }
  }

  /**
   * `observe` rejects exactly when its mark is not answered, or it wins the marker of a fixture
   * it cannot date, or it wins and neither its append nor its clear is answered. It leaves a
   * marker behind exactly when it set one and no clear was carried out.
   */
  lemma {:induction false} ObserverThrowsIff(key: string, dated: bool, seen: seq<string>, a: Answers)
    ensures var end := Final(Observer(key, dated, false, Marking), seen, a).stage;
            && (end.Threw? <==>
                  a.mark != Carried || (key !in seen && (!dated || (a.publish != Carried && a.clear != Carried))))
            && (end == Threw(true) <==>
                  key !in seen && (a.mark == ReplyLost
                                   || (a.mark == Carried
                                       && (!dated || (a.publish != Carried && a.clear == NotCarried)))))
  {
    FinalIsEndOf(key, dated, seen, a);
  }

  /** In this schedule the requests of observer `i` end as `a` says, from here on. */
  predicate AnswersAs(cap: Capacity, s: State, steps: seq<Step>, i: nat, a: Answers)
    requires Legal(cap, s, steps)
    decreases |steps|
  {
    steps == [] || (
      (steps[0].Proceed? && steps[0].observer == i
       && (s.observers[i].stage.Publishing? || s.observers[i].stage.Refused?) ==>
         steps[0].reply == ReplyTo(s.observers[i].stage, a))
      && AnswersAs(cap, Apply(cap, s, steps[0]), steps[1..], i, a))
  }

  lemma {:induction false} FinalIgnoresTheStore(o: Observer, s1: seq<string>, s2: seq<string>, a: Answers)
    requires !o.stage.Marking?
    ensures Final(o, s1, a) == Final(o, s2, a)
    decreases StepsLeft(o.stage)
  {
    if !o.Final() { FinalIgnoresTheStore(Advance(o, ReplyTo(o.stage, a), s1), s1, s2, a); }
  }

  /** Past its mark, nothing the others do changes where an observer ends. */
  lemma {:induction false} ScheduleDrives(cap: Capacity, s: State, steps: seq<Step>, i: nat, a: Answers,
                                          seen: seq<string>)
    requires Legal(cap, s, steps) && i < |s.observers| && !s.observers[i].stage.Marking?
             && AnswersAs(cap, s, steps, i, a)
    ensures i < |After(cap, s, steps).observers|
    ensures Final(After(cap, s, steps).observers[i], seen, a) == Final(s.observers[i], seen, a)
    decreases |steps|
  {
    if steps != [] {
      var to := Apply(cap, s, steps[0]);
      ScheduleDrives(cap, to, steps[1..], i, a, seen);
      if steps[0].Proceed? && steps[0].observer == i {
        FinalIgnoresTheStore(s.observers[i], s.seen, seen, a);
        FinalIgnoresTheStore(to.observers[i], s.seen, seen, a);
      }
    }
  }

  /**
   * In any schedule, an observer that gets to its end is where its own three answers and the store
   * at its mark put it.
   */
  lemma {:induction false} ObserverEndsAsAnswered(cap: Capacity, s: State, steps: seq<Step>, i: nat, a: Answers)
    requires Enabled(s, Proceed(i, a.mark))
             && s.observers[i] == Observer(s.observers[i].key, s.observers[i].dated, false, Marking)
    requires var to := Apply(cap, s, Proceed(i, a.mark));
             Legal(cap, to, steps) && AnswersAs(cap, to, steps, i, a)
    ensures var end := After(cap, Apply(cap, s, Proceed(i, a.mark)), steps);
            i < |end.observers|
            && (end.observers[i].Final() ==>
                  end.observers[i].stage == EndOf(s.observers[i].key !in s.seen, s.observers[i].dated, a))
  {
    var to := Apply(cap, s, Proceed(i, a.mark));
    ScheduleDrives(cap, to, steps, i, a, s.seen);
    FinalIsEndOf(s.observers[i].key, s.observers[i].dated, s.seen, a);
  }
}
