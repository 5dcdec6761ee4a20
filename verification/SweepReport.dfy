/** What the report of a sweep says, told from the replies to its fixtures. */
module SweepReport {
  import opened Wrappers
  import opened Tally
  import opened Quota
  import opened IngestionMetrics
  import opened Degrade
  import opened Sweep

  /** How many of the first `n` replies satisfy `p`. */
  function CountOf(world: World, n: nat, p: Reply -> bool): nat {
    if n == 0 then 0 else CountOf(world, n - 1, p) + One(p(world(n - 1)))
  }

  lemma {:induction false} SameCount(world: World, n: nat, p: Reply -> bool, v: Verdict)
    requires forall r: Reply :: p(r) <==> VerdictOf(r) == v
    ensures CountVerdicts(world, n, v) == CountOf(world, n, p)
  {
    if n > 0 { SameCount(world, n - 1, p, v); }
  }

  predicate Arrived(r: Reply) { r.Gave? && r.result.status in {WasFetched, WasCached} }

  predicate HoldsData(r: Reply) { Arrived(r) && !r.result.empty }

  predicate HoldsNothing(r: Reply) { Arrived(r) && r.result.empty }

  predicate WasHeldBack(r: Reply) { r.Gave? && r.result.status in {WasSkipped, WasDenied, WasRateLimited} }

  predicate WentWrong(r: Reply) { r.Threw? || r.result.status == WasFailed }

  predicate CalledOut(r: Reply) { r.Gave? && r.result.fetch }

  function MessageOf(r: Reply): Option<string> { if r.Threw? then Some(r.message) else r.result.error }

  /** One line for each reply with a message: workload, fixture, message. */
  function ErrorsOf(world: World, workload: string, ids: seq<string>, n: nat): seq<string>
    requires n <= |ids|
  {
    if n == 0 then []
    else
      ErrorsOf(world, workload, ids, n - 1)
      + match MessageOf(world(n - 1))
        case None => []
        case Some(m) => [workload + ":" + ids[n - 1] + ":" + m]
  }

  /** The flags a reply raises: for its quota posture, then for its fallback. */
  function FlagsIn(r: Reply): seq<Flag> {
    if r.Threw? then []
    else
      (match r.result.quota.posture
       case HardCapReached => [Flag(HardCap, Abort)]
       case SoftCapReached => [Flag(SoftCap, CachedOnly)]
       case Normal => if r.result.quota.cachedOnlyMode then [Flag(SoftCap, CachedOnly)] else [])
      + match r.result.fallback
        case ProviderOutage => [Flag(ProviderOutageSeen, CachedOnly)]
        case ProviderRateLimited => [Flag(ProviderRateLimitSeen, SkipNonEssential)]
        case NoFallback => []
  }

  function FlagsOf(world: World, n: nat): seq<Flag> {
    if n == 0 then [] else FlagsOf(world, n - 1) + FlagsIn(world(n - 1))
  }

  /** The quota snapshot of the last reply that has one. */
  function LastQuota(world: World, n: nat): Option<Snapshot> {
    if n == 0 then None
    else if world(n - 1).Gave? then Some(world(n - 1).result.quota)
    else LastQuota(world, n - 1)
  }

  /** Everything in the report but the counters that `Tallied` already speaks of. */
  ghost predicate Reported(world: World, workload: string, ids: seq<string>, n: nat, b: Books)
    requires n <= |ids|
  {
    && b.callsUsed == CountOf(world, n, CalledOut) && b.errors == ErrorsOf(world, workload, ids, n)
    && b.flags == FlagsOf(world, n) && b.quota == LastQuota(world, n)
  }

  lemma {:induction false} FlagsAreRaised(r: FetchResult)
    ensures FlagsIn(Gave(r))
         == FlagList(HandleQuotaPosture(r.quota)) + FlagList(HandleProviderOutage(r.fallback))
            + FlagList(HandleProviderRateLimited(r.fallback))
  {
  }

  lemma {:induction false} OneMoreReported(world: World, workload: string, ids: seq<string>, n: nat, b: Books)
    requires n < |ids| && Reported(world, workload, ids, n, b)
    ensures Reported(world, workload, ids, n + 1, Accumulate(b, workload, ids[n], world(n)))
  {
    match world(n)
    case Threw(_) => assert b.flags + [] == b.flags;
    case Gave(r) =>
      FlagsAreRaised(r);
      assert b.errors + [] == b.errors;
      var flags := FlagList(HandleQuotaPosture(r.quota)) + FlagList(HandleProviderOutage(r.fallback));
      assert b.flags + (flags + FlagList(HandleProviderRateLimited(r.fallback)))
          == Accumulate(b, workload, ids[n], world(n)).flags;
  }

  lemma {:induction false} SweepReports(world: World, workload: string, ids: seq<string>, i: nat, b: Books)
    requires i <= |ids| && b.processed == i && Reported(world, workload, ids, i, b)
    ensures var to := SweepFrom(world, workload, ids, i, b).0;
            to.processed <= |ids| && Reported(world, workload, ids, to.processed, to)
    decreases |ids| - i
  {
    if i < |ids| && b.mode != Abort {
      OneMoreReported(world, workload, ids, i, b);
      SweepReports(world, workload, ids, i + 1, Accumulate(b, workload, ids[i], world(i)));
    }
  }

  /**
   * The report counts each fixture fetched under what came back for it, and lists the messages, the
   * flags and the last quota of exactly those fixtures, in order.
   */
  lemma {:induction false} ReportTells(world: World, workload: string, ids: seq<string>)
    ensures var b := SweepFrom(world, workload, ids, 0, NO_BOOKS).0;
            && b.processed <= |ids|
            && b.ok == CountOf(world, b.processed, HoldsData)
            && b.empty == CountOf(world, b.processed, HoldsNothing)
            && b.skipped == CountOf(world, b.processed, WasHeldBack)
            && b.failed == CountOf(world, b.processed, WentWrong)
            && Reported(world, workload, ids, b.processed, b)
  {
    WholeSweepTallies(world, workload, ids);
    SweepReports(world, workload, ids, 0, NO_BOOKS);
    VerdictsCount(world, SweepFrom(world, workload, ids, 0, NO_BOOKS).0.processed);
  }

  lemma {:induction false} VerdictsCount(world: World, n: nat)
    ensures CountVerdicts(world, n, Landed) == CountOf(world, n, HoldsData)
    ensures CountVerdicts(world, n, Empty) == CountOf(world, n, HoldsNothing)
    ensures CountVerdicts(world, n, Skipped) == CountOf(world, n, WasHeldBack)
    ensures CountVerdicts(world, n, Failed) == CountOf(world, n, WentWrong)
  {
    SameCount(world, n, HoldsData, Landed);
    SameCount(world, n, HoldsNothing, Empty);
    SameCount(world, n, WasHeldBack, Skipped);
    SameCount(world, n, WentWrong, Failed);
  }

  lemma {:induction false} AllCounted(world: World, n: nat, p: Reply -> bool)
    ensures CountOf(world, n, p) <= n
    ensures CountOf(world, n, p) == n <==> forall k :: 0 <= k < n ==> p(world(k))
    ensures CountOf(world, n, p) == 0 <==> forall k :: 0 <= k < n ==> !p(world(k))
  {
    if n > 0 { AllCounted(world, n - 1, p); }
  }

  lemma {:induction false} ProcessedUnlessCapped(world: World, workload: string, ids: seq<string>)
    requires ids != []
    ensures var (b, stopped) := SweepFrom(world, workload, ids, 0, NO_BOOKS);
            && b.processed <= |ids| && (b.processed == |ids| <==> !CappedEarly(world, |ids|))
  {
    WholeSweepTallies(world, workload, ids);
    FetchedIffNoAbortBefore(world, workload, ids, |ids| - 1);
    forall k: nat ensures Abort in ActionsOf(world(k)) <==> HitsTheCap(world(k)) { ReplyActs(world(k)); }
  }

  /** A fixture before the last one reports the hard cap. */
  ghost predicate CappedEarly(world: World, n: nat) { exists k :: 0 <= k < n - 1 && HitsTheCap(world(k)) }

  /**
   * Aborted means that a fixture before the last one hit the hard cap, or that none brought data;
   * completed, that none before the last one hit it and all brought data; partial is the rest.
   */
  lemma {:induction false} StatusTells(world: World, workload: string, ids: seq<string>)
    requires ids != []
    ensures var (b, stopped) := SweepFrom(world, workload, ids, 0, NO_BOOKS);
            var status := StatusOf(b, stopped, |ids|);
            && (status == Aborted <==>
                  CappedEarly(world, |ids|) || forall k :: 0 <= k < |ids| ==> !HoldsData(world(k)))
            && (status == Completed <==>
                  !CappedEarly(world, |ids|) && forall k :: 0 <= k < |ids| ==> HoldsData(world(k)))
  {
    StatusMeans(world, workload, ids);
    ProcessedUnlessCapped(world, workload, ids);
    ReportTells(world, workload, ids);
    AllCounted(world, |ids|, HoldsData);
    AllCounted(world, SweepFrom(world, workload, ids, 0, NO_BOOKS).0.processed, HoldsData);
  }

  predicate HitsTheCap(r: Reply) { r.Gave? && r.result.quota.posture == HardCapReached }

  // ---------------------------------------------------------------------------------
  // The mode.

  predicate LimitsToCache(r: Reply) {
    && r.Gave?
    && (r.result.fallback.ProviderOutage? || r.result.quota.posture == SoftCapReached
        || (r.result.quota.posture == Normal && r.result.quota.cachedOnlyMode))
  }

  predicate RateLimits(r: Reply) { r.Gave? && r.result.fallback.ProviderRateLimited? }

  lemma {:induction false} ReplyActs(r: Reply)
    ensures Abort in ActionsOf(r) <==> HitsTheCap(r)
    ensures CachedOnly in ActionsOf(r) <==> LimitsToCache(r)
    ensures SkipNonEssential in ActionsOf(r) <==> RateLimits(r)
    ensures CircuitOpen !in ActionsOf(r)
  {
    if r.Gave? {
      var actions := Actions(r.result);
      assert actions == [actions[0], actions[1], actions[2]];
      assert actions[0] == HandleQuotaPosture(r.result.quota).action;
    }
  }

  lemma {:induction false} ActionComesFrom(world: World, n: nat, a: Action, p: Reply -> bool)
    requires forall r: Reply :: a in ActionsOf(r) <==> p(r)
    ensures a in AllActions(world, n) <==> exists k :: 0 <= k < n && p(world(k))
  {
    if n > 0 {
      ActionComesFrom(world, n - 1, a, p);
      assert a in ActionsOf(world(n - 1)) <==> p(world(n - 1));
    }
  }

  lemma {:induction false} RepliesAct(world: World, n: nat)
    ensures var actions := AllActions(world, n);
            && (Abort in actions <==> exists k :: 0 <= k < n && HitsTheCap(world(k)))
            && (CachedOnly in actions <==> exists k :: 0 <= k < n && LimitsToCache(world(k)))
            && (SkipNonEssential in actions <==> exists k :: 0 <= k < n && RateLimits(world(k)))
            && CircuitOpen !in actions
  {
    forall r: Reply
      ensures Abort in ActionsOf(r) <==> HitsTheCap(r)
      ensures CachedOnly in ActionsOf(r) <==> LimitsToCache(r)
      ensures SkipNonEssential in ActionsOf(r) <==> RateLimits(r)
      ensures CircuitOpen !in ActionsOf(r)
    {
      ReplyActs(r);
    }
    ActionComesFrom(world, n, Abort, HitsTheCap);
    ActionComesFrom(world, n, CachedOnly, LimitsToCache);
    ActionComesFrom(world, n, SkipNonEssential, RateLimits);
    ActionComesFrom(world, n, CircuitOpen, r => false);
  }

  lemma {:induction false} ModeOf(actions: seq<Action>)
    requires CircuitOpen !in actions
    ensures MostRestrictive([Continue] + actions)
         == if Abort in actions then Abort
            else if CachedOnly in actions then CachedOnly
            else if SkipNonEssential in actions then SkipNonEssential
            else Continue
  {
    var all := [Continue] + actions;
    assert Continue == all[0];
    MostRestrictiveIff(all, Abort);
    MostRestrictiveIff(all, CachedOnly);
    MostRestrictiveIff(all, SkipNonEssential);
    MostRestrictiveIff(all, Continue);
  }

  lemma {:induction false} ObservedMode(world: World, n: nat)
    ensures MostRestrictive([Continue] + AllActions(world, n))
         == if exists k :: 0 <= k < n && HitsTheCap(world(k)) then Abort
            else if exists k :: 0 <= k < n && LimitsToCache(world(k)) then CachedOnly
            else if exists k :: 0 <= k < n && RateLimits(world(k)) then SkipNonEssential
            else Continue
  {
    RepliesAct(world, n);
    ModeOf(AllActions(world, n));
  }

  /**
   * The mode a sweep ends in: abort if a fixture hit the hard cap, else cached-only if one was
   * limited to the cache, else skip-non-essential if one was rate-limited, else continue.
   */
  lemma {:induction false} ModeTells(world: World, workload: string, ids: seq<string>)
    ensures var b := SweepFrom(world, workload, ids, 0, NO_BOOKS).0;
            b.mode == if exists k :: 0 <= k < b.processed && HitsTheCap(world(k)) then Abort
                      else if exists k :: 0 <= k < b.processed && LimitsToCache(world(k)) then CachedOnly
                      else if exists k :: 0 <= k < b.processed && RateLimits(world(k)) then SkipNonEssential
                      else Continue
  {
    WholeSweepTallies(world, workload, ids);
    ObservedMode(world, SweepFrom(world, workload, ids, 0, NO_BOOKS).0.processed);
  }
}
