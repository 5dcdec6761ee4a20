/** What every schedule of observers keeps, and exactly when a fixture can be published twice. */
module EmitOnceRuns {
  import opened Wrappers
  import opened Tally
  import opened BoundedSet
  import opened EmitOnce

  // ---------------------------------------------------------------------------------
  // Who owns a marker.

  /** The key this observer reserved and has not given back. */
  function Owner(o: Observer): Option<string> {
    match o.stage
    case Reserved(won) => if won then Some(o.key) else None
    case Publishing | Landed | Refused => Some(o.key)
    case Ended(outcome) => if outcome == Published then Some(o.key) else None
    case Threw(holding) => if holding then Some(o.key) else None
    case _ => None
  }

  /** The key this observer put on the stream. */
  function Emitted(o: Observer): Option<string> { if o.landed then Some(o.key) else None }

  function Answer(o: Observer): Option<Outcome> { if o.stage.Ended? then Some(o.stage.outcome) else None }

  /** A marker is held exactly when one observer owns it, and nobody owns a missing one. */
  ghost predicate MarkersHeld(s: State) {
    Distinct(s.seen) && forall k: string :: Count(s.observers, Owner, k) == One(k in s.seen)
  }

  /** Whoever put a fixture on the stream still owns its marker. */
  ghost predicate LandedIsOwned(s: State) {
    forall i :: 0 <= i < |s.observers| && s.observers[i].landed ==> Owner(s.observers[i]) == Some(s.observers[i].key)
  }

  ghost predicate Guarded(s: State) { MarkersHeld(s) && LandedIsOwned(s) }

  /** The stream and the counters say what the observers did, whatever the store forgets. */
  ghost predicate Recorder(s: State) {
    && (forall k: string :: multiset(s.stream)[k] == Count(s.observers, Emitted, k))
    && (forall a: Outcome :: s.metrics[a] == Count(s.observers, Answer, a))
    && Distinct(s.seen)
  }

  /** The store drops a marker that nobody cleared: the oldest is evicted, or one expires. */
  predicate Forgets(cap: Capacity, s: State, step: Step)
    requires Enabled(s, step)
  {
    match step
    case Observe(_) => false
    case Proceed(i, reply) => s.observers[i].stage.Marking? && Lands(reply) && s.observers[i].key !in s.seen
        && Full(cap, s.seen)
    case Expire(_) => true
  }

  /** A rollback clears the marker of an append that was carried out, its reply lost. */
  predicate Unpublishes(s: State, step: Step)
    requires Enabled(s, step)
  {
    step.Proceed? && s.observers[step.observer].stage.Refused? && Lands(step.reply) && s.observers[step.observer].landed
  }

  /** What one resumption changes about its observer, read off the three tags. */
  lemma StageMoves(o: Observer, reply: Write, seen: seq<string>)
    requires !o.Final()
    ensures var o' := Advance(o, reply, seen);
            && Answer(o) == None && (Answer(o') == if o'.stage.Ended? then Some(o'.stage.outcome) else None)
            && o'.key == o.key && o'.landed == (o.landed || (o.stage.Publishing? && Lands(reply)))
            && (if o.stage.Marking? then Owner(o) == None
                && Owner(o') == (if Lands(reply) && o.key !in seen then Some(o.key) else None)
                else if o.stage.Refused? then Owner(o) == Some(o.key)
                    && Owner(o') == (if Lands(reply) then None else Some(o.key))
                else Owner(o') == Owner(o))
            && (o.stage.Publishing? ==> Owner(o) == Some(o.key))
  {
  }

  /** An observer whose append has landed is past it. */
  ghost predicate Ordered(o: Observer) { o.stage.Marking? || o.stage.Reserved? || o.stage.Publishing? ==> !o.landed }

  ghost predicate AllOrdered(s: State) { forall i :: 0 <= i < |s.observers| ==> Ordered(s.observers[i]) }

  lemma StepKeepsOrdered(cap: Capacity, s: State, step: Step)
    requires AllOrdered(s) && Enabled(s, step)
    ensures AllOrdered(Apply(cap, s, step))
  {
    var to := Apply(cap, s, step);
    forall i | 0 <= i < |to.observers| ensures Ordered(to.observers[i]) {
      if i < |s.observers| { assert Ordered(s.observers[i]); }
    }
  }

  lemma ObserveKeepsRecorder(cap: Capacity, s: State, fixture: Fixture)
    requires Recorder(s)
    ensures Recorder(Apply(cap, s, Observe(fixture)))
  {
    var s', o := Apply(cap, s, Observe(fixture)), Begin(fixture);
    forall k: string ensures Count(s'.observers, Emitted, k) == Count(s.observers, Emitted, k) {
      CountAppend(s.observers, o, Emitted, k);
    }
    forall a: Outcome ensures s'.metrics[a] == Count(s'.observers, Answer, a) {
      CountAppend(s.observers, o, Answer, a);
    }
  }

  lemma ProceedKeepsRecorder(cap: Capacity, s: State, i: nat, reply: Write)
    requires Recorder(s) && AllOrdered(s) && Enabled(s, Proceed(i, reply))
    ensures Recorder(Apply(cap, s, Proceed(i, reply)))
  {
    var s' := Apply(cap, s, Proceed(i, reply));
    var o, o' := s.observers[i], s'.observers[i];
    assert Ordered(o);
    StageMoves(o, reply, s.seen);
    MarkKeepsDistinct(cap, s.seen, o.key);
    WithoutRemovesOnly(s.seen, o.key);
    var added := if o.stage.Publishing? && Lands(reply) then [o.key] else [];
    assert s'.stream == s.stream + added;
    forall k: string ensures multiset(s'.stream)[k] == Count(s'.observers, Emitted, k) {
      CountUpdate(s.observers, i, o', Emitted, k);
    }
    forall a: Outcome ensures s'.metrics[a] == Count(s'.observers, Answer, a) {
      CountUpdate(s.observers, i, o', Answer, a);
    }
  }

  lemma StepKeepsRecorder(cap: Capacity, s: State, step: Step)
    requires Recorder(s) && AllOrdered(s) && Enabled(s, step)
    ensures Recorder(Apply(cap, s, step)) && AllOrdered(Apply(cap, s, step))
  {
    StepKeepsOrdered(cap, s, step);
    match step {
      case Observe(fixture) => ObserveKeepsRecorder(cap, s, fixture);
      case Proceed(i, reply) => ProceedKeepsRecorder(cap, s, i, reply);
      case Expire(key) => WithoutRemovesOnly(s.seen, key);
    }
  }

  lemma {:induction false} ProceedKeepsMarkersIff(cap: Capacity, s: State, i: nat, reply: Write)
    requires MarkersHeld(s) && Enabled(s, Proceed(i, reply))
    ensures MarkersHeld(Apply(cap, s, Proceed(i, reply))) <==> !Forgets(cap, s, Proceed(i, reply))
  {
    var s' := Apply(cap, s, Proceed(i, reply));
    var o, o' := s.observers[i], s'.observers[i];
    StageMoves(o, reply, s.seen);
    MarkKeepsDistinct(cap, s.seen, o.key);
    WithoutRemovesOnly(s.seen, o.key);
    forall k: string
      ensures Count(s'.observers, Owner, k)
              == One(k in s.seen) - One(Owner(o) == Some(k)) + One(Owner(o') == Some(k))
      ensures Owner(o) == Some(k) ==> k in s.seen
    {
      assert Count(s.observers, Owner, k) == One(k in s.seen);
      CountUpdate(s.observers, i, o', Owner, k);
    }
    if Forgets(cap, s, Proceed(i, reply)) {
      var oldest := s.seen[0];
      assert oldest in s.seen && oldest !in s'.seen;
      assert Count(s'.observers, Owner, oldest) == 1;
    } else {
      forall k: string ensures Count(s'.observers, Owner, k) == One(k in s'.seen) {
      }
    }
  }

  /** A step keeps markers and owners in agreement exactly when the store forgets nothing, replies lost or not. */
  lemma StepKeepsMarkersIff(cap: Capacity, s: State, step: Step)
    requires MarkersHeld(s) && Enabled(s, step)
    ensures MarkersHeld(Apply(cap, s, step)) <==> !Forgets(cap, s, step)
  {
    match step {
      case Observe(fixture) =>
        forall k: string ensures Count(Apply(cap, s, step).observers, Owner, k) == One(k in s.seen) {
          CountAppend(s.observers, Begin(fixture), Owner, k);
        }
      case Proceed(i, reply) => ProceedKeepsMarkersIff(cap, s, i, reply);
      case Expire(key) =>
        WithoutRemovesOnly(s.seen, key);
        assert Count(s.observers, Owner, key) == 1;
    }
  }

  predicate Harms(cap: Capacity, s: State, step: Step)
    requires Enabled(s, step)
  {
    Forgets(cap, s, step) || Unpublishes(s, step)
  }

  /**
   * From a guarded state, a step keeps every published fixture guarded exactly when it forgets and
   * unpublishes nothing.
   */
  lemma StepKeepsGuardedIff(cap: Capacity, s: State, step: Step)
    requires Guarded(s) && AllOrdered(s) && Enabled(s, step)
    ensures Guarded(Apply(cap, s, step)) <==> !Harms(cap, s, step)
  {
    StepKeepsMarkersIff(cap, s, step);
    var to := Apply(cap, s, step);
    match step {
      case Observe(fixture) =>
        assert forall j :: 0 <= j < |s.observers| ==> to.observers[j] == s.observers[j];
      case Proceed(i, reply) =>
        StageMoves(s.observers[i], reply, s.seen);
        assert Ordered(s.observers[i]);
        assert forall j :: 0 <= j < |s.observers| && j != i ==> to.observers[j] == s.observers[j];
        assert Unpublishes(s, step) ==> to.observers[i].landed && Owner(to.observers[i]) == None;
      case Expire(_) =>
    }
  }

  // ---------------------------------------------------------------------------------
  // Whole schedules.

  predicate NeverHarms(cap: Capacity, s: State, steps: seq<Step>)
    requires Legal(cap, s, steps)
    decreases |steps|
  {
    steps == [] || (!Harms(cap, s, steps[0]) && NeverHarms(cap, Apply(cap, s, steps[0]), steps[1..]))
  }

  predicate NeverForgets(cap: Capacity, s: State, steps: seq<Step>)
    requires Legal(cap, s, steps)
    decreases |steps|
  {
    steps == [] || (!Forgets(cap, s, steps[0]) && NeverForgets(cap, Apply(cap, s, steps[0]), steps[1..]))
  }

  ghost predicate GuardedThroughout(cap: Capacity, s: State, steps: seq<Step>)
    requires Legal(cap, s, steps)
    decreases |steps|
  {
    Guarded(s) && (steps == [] || GuardedThroughout(cap, Apply(cap, s, steps[0]), steps[1..]))
  }

  ghost predicate MarkersHeldThroughout(cap: Capacity, s: State, steps: seq<Step>)
    requires Legal(cap, s, steps)
    decreases |steps|
  {
    MarkersHeld(s) && (steps == [] || MarkersHeldThroughout(cap, Apply(cap, s, steps[0]), steps[1..]))
  }

  lemma {:induction false} RunKeepsRecorder(cap: Capacity, s: State, steps: seq<Step>)
    requires Recorder(s) && AllOrdered(s) && Legal(cap, s, steps)
    ensures Recorder(After(cap, s, steps)) && AllOrdered(After(cap, s, steps))
    decreases |steps|
  {
    if steps != [] {
      StepKeepsRecorder(cap, s, steps[0]);
      RunKeepsRecorder(cap, Apply(cap, s, steps[0]), steps[1..]);
    }
  }

  lemma {:induction false} RunKeepsMarkersIff(cap: Capacity, s: State, steps: seq<Step>)
    requires MarkersHeld(s) && Legal(cap, s, steps)
    ensures MarkersHeldThroughout(cap, s, steps) <==> NeverForgets(cap, s, steps)
    ensures NeverForgets(cap, s, steps) ==> MarkersHeld(After(cap, s, steps))
    decreases |steps|
  {
    if steps != [] {
      StepKeepsMarkersIff(cap, s, steps[0]);
      if !Forgets(cap, s, steps[0]) {
        RunKeepsMarkersIff(cap, Apply(cap, s, steps[0]), steps[1..]);
      }
    }
  }

  lemma {:induction false} RunKeepsGuardedIff(cap: Capacity, s: State, steps: seq<Step>)
    requires Guarded(s) && AllOrdered(s) && Legal(cap, s, steps)
    ensures GuardedThroughout(cap, s, steps) <==> NeverHarms(cap, s, steps)
    ensures NeverHarms(cap, s, steps) ==> Guarded(After(cap, s, steps))
    decreases |steps|
  {
    if steps != [] {
      StepKeepsGuardedIff(cap, s, steps[0]);
      StepKeepsOrdered(cap, s, steps[0]);
      if !Harms(cap, s, steps[0]) {
        RunKeepsGuardedIff(cap, Apply(cap, s, steps[0]), steps[1..]);
      }
    }
  }

  /** A published fixture of a guarded state is on the stream once, its marker in the store. */
  lemma GuardedPublishesOnce(s: State, k: string)
    requires Guarded(s) && Recorder(s)
    ensures multiset(s.stream)[k] <= 1 && (k in s.stream ==> k in s.seen)
  {
    forall o | o in s.observers && Emitted(o) == Some(k) ensures Owner(o) == Some(k) {
      var i :| 0 <= i < |s.observers| && s.observers[i] == o;
    }
    CountMono(s.observers, Emitted, Owner, k);
    assert Count(s.observers, Owner, k) == One(k in s.seen);
    assert k in s.stream ==> multiset(s.stream)[k] > 0;
  }

  /**
   * From an empty store, under every interleaving: each marker has exactly one owner and each
   * published fixture its marker, throughout, exactly when no marker is evicted or expires and
   * no rollback clears an append whose reply was lost; each fixture is then published at most once.
   */
  lemma PublishedAtMostOnce(cap: Capacity, steps: seq<Step>)
    requires Legal(cap, INIT, steps)
    ensures GuardedThroughout(cap, INIT, steps) <==> NeverHarms(cap, INIT, steps)
    ensures MarkersHeldThroughout(cap, INIT, steps) <==> NeverForgets(cap, INIT, steps)
    ensures NeverHarms(cap, INIT, steps) ==>
              forall k: string :: multiset(After(cap, INIT, steps).stream)[k] <= 1
  {
    RunKeepsGuardedIff(cap, INIT, steps);
    RunKeepsMarkersIff(cap, INIT, steps);
    RunKeepsRecorder(cap, INIT, steps);
    if NeverHarms(cap, INIT, steps) {
      forall k: string ensures multiset(After(cap, INIT, steps).stream)[k] <= 1 {
        GuardedPublishesOnce(After(cap, INIT, steps), k);
      }
    }
  }

  /** With Redis markers the store forgets exactly what expires: nothing is evicted. */
  lemma RedisForgetsOnlyByExpiry(s: State, step: Step)
    requires Enabled(s, step)
    ensures Forgets(None, s, step) <==> step.Expire?
  {
  }

  lemma SeenFits(s: State, keys: set<string>)
    requires Distinct(s.seen) && forall k <- s.seen :: k in keys
    ensures |s.seen| <= |keys|
    ensures forall k: string :: k in keys && k !in s.seen ==> |s.seen| < |keys|
  {
    DistinctFits(s.seen, keys);
    forall k: string | k in keys && k !in s.seen ensures |s.seen| < |keys| {
      DistinctFits(s.seen + [k], keys);
    }
  }

  /** A store with room for every fixture that will ever be observed forgets nothing but what expires. */
  lemma {:induction false} LargeEnoughStoreNeverForgets(max: int, s: State, steps: seq<Step>, keys: set<string>)
    requires Legal(Some(max), s, steps) && Distinct(s.seen) && |keys| <= Max(1, max)
    requires (forall k <- s.seen :: k in keys) && (forall o <- s.observers :: o.key in keys)
    requires forall step <- steps :: !step.Expire? && (step.Observe? ==> Begin(step.fixture).key in keys)
    ensures NeverForgets(Some(max), s, steps)
    decreases |steps|
  {
    if steps != [] {
      SeenFits(s, keys);
      var next := Apply(Some(max), s, steps[0]);
      assert steps[0] in steps;
      if steps[0].Proceed? {
        var key := s.observers[steps[0].observer].key;
        MarkKeepsDistinct(Some(max), s.seen, key);
        WithoutRemovesOnly(s.seen, key);
      }
      assert !Forgets(Some(max), s, steps[0]);
      LargeEnoughStoreNeverForgets(max, next, steps[1..], keys);
    }
  }

  /** Exactly one observer owns a held marker: it is publishing, has published, or threw and left it behind. */
  lemma MarkerHasOneOwner(s: State, k: string)
    requires MarkersHeld(s)
    ensures k in s.seen <==> exists i :: 0 <= i < |s.observers| && Owner(s.observers[i]) == Some(k)
    ensures forall i, j :: 0 <= i < j < |s.observers| && Owner(s.observers[i]) == Some(k) ==>
            Owner(s.observers[j]) != Some(k)
  {
    assert Count(s.observers, Owner, k) == One(k in s.seen);
    if k in s.seen {
      var i := CountWitness(s.observers, Owner, k);
    } else if i :| 0 <= i < |s.observers| && Owner(s.observers[i]) == Some(k) {
      CountUpdate(s.observers, i, s.observers[i], Owner, k);
    }
    forall i, j | 0 <= i < j < |s.observers| && Owner(s.observers[i]) == Some(k)
      ensures Owner(s.observers[j]) != Some(k)
    {
      if Owner(s.observers[j]) == Some(k) { CountPair(s.observers, Owner, k, i, j); }
    }
  }

  /**
   * Rolling back an append that did not land clears the observer's own marker and no other, and
   * leaves the fixture retryable: nobody owns it, it is not on the stream, and the next reserve wins.
   */
  lemma FailedPublishIsRetryable(cap: Capacity, s: State, i: nat)
    requires Guarded(s) && Recorder(s) && AllOrdered(s) && Enabled(s, Proceed(i, Carried))
    requires s.observers[i].stage.Refused? && !s.observers[i].landed
    ensures var (key, to) := (s.observers[i].key, Apply(cap, s, Proceed(i, Carried)));
            && key in s.seen && key !in to.seen && Guarded(to)
            && (forall k: string :: k != key ==> (k in to.seen <==> k in s.seen))
            && (forall j :: 0 <= j < |to.observers| ==> Owner(to.observers[j]) != Some(key))
            && key !in to.stream
            && (forall retry: Observer :: retry.key == key && retry.stage.Marking? ==>
                  NextStage(retry, Carried, to.seen) == Reserved(true))
  {
    var key, to := s.observers[i].key, Apply(cap, s, Proceed(i, Carried));
    StepKeepsGuardedIff(cap, s, Proceed(i, Carried));
    WithoutRemovesOnly(s.seen, key);
    MarkerHasOneOwner(s, key);
    MarkerHasOneOwner(to, key);
    assert Owner(s.observers[i]) == Some(key);
    StepKeepsRecorder(cap, s, Proceed(i, Carried));
    GuardedPublishesOnce(to, key);
  }

  /**
   * An observer that throws and leaves its marker behind blocks its fixture for good: while
   * nothing is harmed, the stream holds what that observer itself appended and nothing more.
   */
  lemma {:induction false} HeldThrowBlocksTheFixture(cap: Capacity, s: State, steps: seq<Step>, i: nat)
    requires Guarded(s) && Recorder(s) && AllOrdered(s) && Legal(cap, s, steps) && NeverHarms(cap, s, steps)
    requires i < |s.observers| && s.observers[i].stage == Threw(true)
    ensures multiset(After(cap, s, steps).stream)[s.observers[i].key] == One(s.observers[i].landed)
    ensures s.observers[i].key in After(cap, s, steps).seen
    decreases |steps|
  {
    if steps == [] {
      HeldThrowIsAlone(s, i);
    } else {
      StepKeepsGuardedIff(cap, s, steps[0]);
      StepKeepsRecorder(cap, s, steps[0]);
      HeldThrowBlocksTheFixture(cap, Apply(cap, s, steps[0]), steps[1..], i);
    }
  }

  lemma HeldThrowIsAlone(s: State, i: nat)
    requires Guarded(s) && Recorder(s) && i < |s.observers| && s.observers[i].stage == Threw(true)
    ensures multiset(s.stream)[s.observers[i].key] == One(s.observers[i].landed) && s.observers[i].key in s.seen
  {
    var key := s.observers[i].key;
    MarkerHasOneOwner(s, key);
    assert Owner(s.observers[i]) == Some(key);
    GuardedPublishesOnce(s, key);
    if s.observers[i].landed {
      CountUpdate(s.observers, i, s.observers[i], Emitted, key);
    } else {
      forall o | o in s.observers ensures Emitted(o) != Some(key) {
        var j :| 0 <= j < |s.observers| && s.observers[j] == o;
        if j != i { assert Owner(s.observers[j]) != Some(key); }
      }
      CountZero(s.observers, Emitted, key);
    }
  }

  // ---------------------------------------------------------------------------------
  // Witnesses, from an empty store.

  predicate Publishable(f: Fixture) { Classify(f.status).Some? && f.concludedAt.Some? }

  /** One observation taken up to the end of its append. */
  function Publication(s: State, f: Fixture, w: Write): seq<Step> {
    var n := |s.observers|;
    [Observe(f), Proceed(n, Carried), Proceed(n, Carried), Proceed(n, w)]
  }

  lemma {:induction false} FourSteps(
    cap: Capacity, s0: State, s1: State, s2: State, s3: State, s4: State, steps: seq<Step>)
    requires |steps| == 4
    requires Enabled(s0, steps[0]) && s1 == Apply(cap, s0, steps[0])
    requires Enabled(s1, steps[1]) && s2 == Apply(cap, s1, steps[1])
    requires Enabled(s2, steps[2]) && s3 == Apply(cap, s2, steps[2])
    requires Enabled(s3, steps[3]) && s4 == Apply(cap, s3, steps[3])
    ensures Legal(cap, s0, steps) && After(cap, s0, steps) == s4
  {
    ThreeSteps(cap, s1, s2, s3, s4, steps[1..]);
  }

  /** The last observer moves on; `to` is where the store, the stream and the counters go with it. */
  lemma {:induction false} LastObserverMoves(cap: Capacity, s: State, o: Observer, reply: Write, to: State)
    requires !o.Final() && to == Apply(cap, s.(observers := s.observers + [o]), Proceed(|s.observers|, reply))
    ensures to.observers == s.observers + [Advance(o, reply, s.seen)]
    ensures to.metrics == s.metrics + Recorded(Advance(o, reply, s.seen).stage)
    ensures to.stream == if o.stage.Publishing? && Lands(reply) then s.stream + [o.key] else s.stream
    ensures to.seen == if o.stage.Marking? && Lands(reply) then AfterMark(cap, s.seen, o.key)
                       else if o.stage.Refused? && Lands(reply) then Without(s.seen, o.key)
                       else s.seen
  {
    assert (s.observers + [o])[|s.observers|] == o;
  }

  lemma {:induction false} WinnerReserves(cap: Capacity, s: State, o: Observer)
    requires o.stage.Marking? && !o.landed && o.key !in s.seen
    ensures Apply(cap, s.(observers := s.observers + [o]), Proceed(|s.observers|, Carried))
         == s.(seen := AfterMark(cap, s.seen, o.key), observers := s.observers + [o.(stage := Reserved(true))])
  {
    LastObserverMoves(cap, s, o, Carried,
                      Apply(cap, s.(observers := s.observers + [o]), Proceed(|s.observers|, Carried)));
  }

  lemma {:induction false} ReservedPublishes(cap: Capacity, s: State, o: Observer)
    requires o.stage == Reserved(true) && o.dated && !o.landed
    ensures Apply(cap, s.(observers := s.observers + [o]), Proceed(|s.observers|, Carried))
         == s.(observers := s.observers + [o.(stage := Publishing)])
  {
    LastObserverMoves(cap, s, o, Carried,
                      Apply(cap, s.(observers := s.observers + [o]), Proceed(|s.observers|, Carried)));
  }

  /** A fixture without a marker can always be published, whether or not it already has been. */
  lemma {:induction false} UnmarkedFixturePublishes(cap: Capacity, s: State, f: Fixture, w: Write)
    requires Publishable(f) && Begin(f).key !in s.seen && Lands(w)
    ensures var steps := Publication(s, f, w);
            && Legal(cap, s, steps)
            && After(cap, s, steps)
               == State(AfterMark(cap, s.seen, Begin(f).key),
                        s.observers + [Begin(f).(landed := true, stage := if w == Carried then Landed else Refused)],
                        s.stream + [Begin(f).key], s.metrics)
  {
    var n, o := |s.observers|, Begin(f);
    var marked := s.(seen := AfterMark(cap, s.seen, o.key));
    var s1 := s.(observers := s.observers + [o]);
    var s2 := marked.(observers := s.observers + [o.(stage := Reserved(true))]);
    var s3 := marked.(observers := s.observers + [o.(stage := Publishing)]);
    assert s1 == Apply(cap, s, Observe(f));
    WinnerReserves(cap, s, o);
    ReservedPublishes(cap, marked, o.(stage := Reserved(true)));
    var s4 := Apply(cap, s3, Proceed(n, w));
    LastObserverMoves(cap, marked, o.(stage := Publishing), w, s4);
    FourSteps(cap, s, s1, s2, s3, s4, Publication(s, f, w));
  }

  /**
   * The marker is what stands between a published fixture and its second publication: from any
   * state that lacks the marker, four steps publish it once more.
   */
  lemma {:induction false} UnguardedPublishesAgain(cap: Capacity, s: State, f: Fixture)
    requires Publishable(f) && Begin(f).key !in s.seen
    ensures var steps := Publication(s, f, Carried);
            Legal(cap, s, steps)
            && multiset(After(cap, s, steps).stream)[Begin(f).key] == multiset(s.stream)[Begin(f).key] + 1
  {
    UnmarkedFixturePublishes(cap, s, f, Carried);
  }

  /** A store of one marker: publish, let any other fixture evict the marker, publish again. */
  lemma {:induction false} EvictionPublishesTwice(first: Fixture, second: Fixture) returns (steps: seq<Step>)
    requires Publishable(first) && Publishable(second) && Begin(first).key != Begin(second).key
    ensures Legal(Some(1), INIT, steps) && multiset(After(Some(1), INIT, steps).stream)[Begin(first).key] == 2
  {
    var cap := Some(1);
    var a := Publication(INIT, first, Carried);
    UnmarkedFixturePublishes(cap, INIT, first, Carried);
    var s1 := After(cap, INIT, a);
    var b := Publication(s1, second, Carried);
    UnmarkedFixturePublishes(cap, s1, second, Carried);
    var s2 := After(cap, s1, b);
    assert s2.seen == [Begin(second).key];
    var c := Publication(s2, first, Carried);
    UnguardedPublishesAgain(cap, s2, first);
    assert multiset(s2.stream)[Begin(first).key] == 1;
    RunsJoin(cap, s1, b, c);
    RunsJoin(cap, INIT, a, b + c);
    steps := a + (b + c);
  }

  lemma {:induction false} LostAppendIsRolledBack(cap: Capacity, s: State, f: Fixture)
    requires s == State([Begin(f).key], [Begin(f).(landed := true, stage := Refused)], [Begin(f).key], multiset{})
    ensures var steps := [Proceed(0, Carried)];
            && Legal(cap, s, steps) && After(cap, s, steps) == Apply(cap, s, Proceed(0, Carried))
            && After(cap, s, steps).seen == [] && multiset(After(cap, s, steps).stream)[Begin(f).key] == 1
  {
    var to := Apply(cap, s, Proceed(0, Carried));
    assert [Proceed(0, Carried)][1..] == [] && Legal(cap, to, []) && After(cap, to, []) == to;
  }

  /**
   * Any store, Redis included: the reply of an append is lost, the rollback clears its marker, and
   * the fixture is published again.
   */
  lemma {:induction false} LostAppendPublishesTwice(cap: Capacity, f: Fixture) returns (steps: seq<Step>)
    requires Publishable(f)
    ensures Legal(cap, INIT, steps) && multiset(After(cap, INIT, steps).stream)[Begin(f).key] == 2
  {
    var a := Publication(INIT, f, ReplyLost);
    UnmarkedFixturePublishes(cap, INIT, f, ReplyLost);
    var s1 := After(cap, INIT, a);
    LostAppendIsRolledBack(cap, s1, f);
    var s2 := Apply(cap, s1, Proceed(0, Carried));
    var c := Publication(s2, f, Carried);
    UnguardedPublishesAgain(cap, s2, f);
    RunsJoin(cap, s1, [Proceed(0, Carried)], c);
    RunsJoin(cap, INIT, a, [Proceed(0, Carried)] + c);
    steps := a + ([Proceed(0, Carried)] + c);
  }

  /** A first observation up to its append, or to the throw of one that cannot be dated. */
  function Reservation(f: Fixture): seq<Step> { [Observe(f), Proceed(0, Carried), Proceed(0, Carried)] }

  lemma {:induction false} ReservationTakesTheMarker(cap: Capacity, f: Fixture)
    requires Classify(f.status).Some?
    ensures Legal(cap, INIT, Reservation(f))
    ensures After(cap, INIT, Reservation(f))
         == INIT.(seen := [Begin(f).key],
                  observers := [Begin(f).(stage := if f.concludedAt.Some? then Publishing else Threw(true))])
  {
    var o := Begin(f);
    var s1 := INIT.(observers := [o]);
    assert s1 == Apply(cap, INIT, Observe(f));
    WinnerReserves(cap, INIT, o);
    var s2 := INIT.(seen := [o.key], observers := [o.(stage := Reserved(true))]);
    assert AfterMark(cap, [], o.key) == [o.key];
    var s3 := Apply(cap, s2, Proceed(0, Carried));
    LastObserverMoves(cap, INIT.(seen := [o.key]), o.(stage := Reserved(true)), Carried, s3);
    ThreeSteps(cap, INIT, s1, s2, s3, Reservation(f));
  }

  lemma {:induction false} ThreeSteps(cap: Capacity, s0: State, s1: State, s2: State, s3: State, steps: seq<Step>)
    requires |steps| == 3
    requires Enabled(s0, steps[0]) && s1 == Apply(cap, s0, steps[0])
    requires Enabled(s1, steps[1]) && s2 == Apply(cap, s1, steps[1])
    requires Enabled(s2, steps[2]) && s3 == Apply(cap, s2, steps[2])
    ensures Legal(cap, s0, steps) && After(cap, s0, steps) == s3
  {
    TwoSteps(cap, s1, s2, s3, steps[1..]);
  }

  lemma {:induction false} TwoSteps(cap: Capacity, s0: State, s1: State, s2: State, steps: seq<Step>)
    requires |steps| == 2
    requires Enabled(s0, steps[0]) && s1 == Apply(cap, s0, steps[0])
    requires Enabled(s1, steps[1]) && s2 == Apply(cap, s1, steps[1])
    ensures Legal(cap, s0, steps) && After(cap, s0, steps) == s2
  {
    var last := steps[1..];
    assert last[1..] == [] && Legal(cap, s2, last[1..]) && After(cap, s2, last[1..]) == s2;
    assert Legal(cap, s1, last) && After(cap, s1, last) == s2;
  }

  /** A fixture whose time cannot be printed is reserved, and then `observe` rejects with the marker left behind. */
  lemma UndatedFixtureThrowsHoldingTheMarker(cap: Capacity, f: Fixture)
    requires Classify(f.status).Some? && f.concludedAt.None?
    ensures Legal(cap, INIT, Reservation(f))
    ensures var to := After(cap, INIT, Reservation(f));
            |to.observers| == 1 && to.observers[0].stage == Threw(true) && to.seen == [Begin(f).key]
                && to.stream == [] && to.metrics == multiset{}
  {
    ReservationTakesTheMarker(cap, f);
  }

  /**
   * A dated fixture whose append and rollback both fail: `observe` rejects, the marker left behind
   * and nothing published.
   */
  lemma {:induction false} FailedRollbackThrowsHoldingTheMarker(cap: Capacity, f: Fixture)
    requires Publishable(f)
    ensures var steps := Reservation(f) + [Proceed(0, NotCarried), Proceed(0, NotCarried)];
            && Legal(cap, INIT, steps)
            && var to := After(cap, INIT, steps);
               |to.observers| == 1 && to.observers[0].stage == Threw(true) && to.seen == [Begin(f).key]
                   && to.stream == []
  {
    ReservationTakesTheMarker(cap, f);
    var s := INIT.(seen := [Begin(f).key], observers := [Begin(f).(stage := Publishing)]);
    var s1 := s.(observers := [Begin(f).(stage := Refused)]);
    assert s1 == Apply(cap, s, Proceed(0, NotCarried));
    var tail := [Proceed(0, NotCarried), Proceed(0, NotCarried)];
    TwoSteps(cap, s, s1, Apply(cap, s1, Proceed(0, NotCarried)), tail);
    RunsJoin(cap, INIT, Reservation(f), tail);
  }
}
