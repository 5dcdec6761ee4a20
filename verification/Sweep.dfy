/** The missing-payload sweep: one fetch a fixture, counters, posture and the final status. */
module Sweep {
  import opened Wrappers
  import opened Tally
  import opened Quota
  import opened IngestionMetrics
  import opened Degrade
  import PagedDiscovery

  /** `fetch` tells whether a provider call was made; `empty` whether the payload decodes to no row. */
  datatype FetchResult = FetchResult(
    status: CallOutcome, fetch: bool, empty: bool, error: Option<string>, fallback: Fallback, quota: Snapshot)

  datatype Reply = Threw(message: string) | Gave(result: FetchResult)

  /** The reply to the fetch of the nth fixture. */
  type World = nat -> Reply

  datatype Books = Books(
    callsUsed: nat, processed: nat, ok: nat, empty: nat, skipped: nat, failed: nat,
    mode: Action, flags: seq<Flag>, errors: seq<string>, quota: Option<Snapshot>)

  const NO_BOOKS: Books := Books(0, 0, 0, 0, 0, 0, Continue, [], [], None)

  /** What one result says about degradation. */
  function Actions(r: FetchResult): seq<Action> {
    [HandleQuotaPosture(r.quota).action,
     if r.fallback == ProviderOutage then CachedOnly else Continue,
     if r.fallback == ProviderRateLimited then SkipNonEssential else Continue]
  }

  function ActionsOf(reply: Reply): seq<Action> { if reply.Gave? then Actions(reply.result) else [] }

  datatype Verdict = Landed | Empty | Skipped | Failed

  function VerdictOf(reply: Reply): Verdict {
    match reply
    case Threw(_) => Failed
    case Gave(r) =>
      if r.status == WasFetched || r.status == WasCached then if r.empty then Empty else Landed
      else if r.status == WasSkipped || r.status == WasDenied || r.status == WasRateLimited then Skipped
      else Failed
  }

  function ErrorLine(workload: string, id: string, message: string): string { workload + ":" + id + ":" + message }

  function Accumulate(b: Books, workload: string, id: string, reply: Reply): Books {
    var v := VerdictOf(reply);
    var counted := b.(
      processed := b.processed + 1,
      ok := b.ok + One(v == Landed), empty := b.empty + One(v == Empty),
      skipped := b.skipped + One(v == Skipped), failed := b.failed + One(v == Failed));
    match reply
    case Threw(message) => counted.(errors := b.errors + [ErrorLine(workload, id, message)])
    case Gave(r) =>
      counted.(
        callsUsed := b.callsUsed + One(r.fetch),
        errors := if r.error.Some? then b.errors + [ErrorLine(workload, id, r.error.value)] else b.errors,
        flags := b.flags + FlagList(HandleQuotaPosture(r.quota)) + FlagList(HandleProviderOutage(r.fallback))
                 + FlagList(HandleProviderRateLimited(r.fallback)),
        mode := MostRestrictive([b.mode] + Actions(r)),
        quota := Some(r.quota))
  }

  /** The fixtures from the `i`th on, until the list or the patience ends. */
  function SweepFrom(world: World, workload: string, ids: seq<string>, i: nat, b: Books): (Books, bool)
    requires i <= |ids|
    decreases |ids| - i
  {
    if i == |ids| then (b, false)
    else if b.mode == Abort then (b, true)
    else SweepFrom(world, workload, ids, i + 1, Accumulate(b, workload, ids[i], world(i)))
  }

  datatype Status = Completed | Partial | Aborted

  function StatusOf(b: Books, aborted: bool, n: nat): Status {
    if aborted then Aborted
    else if b.ok == 0 && (b.failed > 0 || b.skipped > 0 || b.empty > 0) then Aborted
    else if b.failed > 0 || b.skipped > 0 || b.empty > 0 || b.processed < n then Partial
    else Completed
  }

  method RunSweep(world: World, workload: string, ids: seq<string>) returns (b: Books, status: Status)
    ensures b == SweepFrom(world, workload, ids, 0, NO_BOOKS).0
    ensures status == if ids == [] then Completed
            else StatusOf(b, SweepFrom(world, workload, ids, 0, NO_BOOKS).1, |ids|)
  {
    b := NO_BOOKS;
    var aborted := false;
    for i := 0 to |ids|
      invariant !aborted
      invariant SweepFrom(world, workload, ids, 0, NO_BOOKS) == SweepFrom(world, workload, ids, i, b)
    {
      if b.mode == Abort {
        aborted := true;
        break;
      }
      var reply := world(i);
      b := b.(processed := b.processed + 1);
      match reply {
        case Threw(message) =>
          b := b.(failed := b.failed + 1, errors := b.errors + [ErrorLine(workload, ids[i], message)]);
        case Gave(r) =>
          b := AccumulateResult(b, workload, ids[i], r);
      }
    }
    status := if ids == [] then Completed else StatusOf(b, aborted, |ids|);
  }

  /** The accumulate closure, on a fixture already counted as processed. */
  method AccumulateResult(before: Books, workload: string, id: string, r: FetchResult) returns (b: Books)
    requires before.processed > 0
    ensures b == Accumulate(before.(processed := before.processed - 1), workload, id, Gave(r))
  {
    b := before.(quota := Some(r.quota));
    if r.fetch {
      b := b.(callsUsed := b.callsUsed + 1);
    }
    if r.status == WasFetched || r.status == WasCached {
      if r.empty {
        b := b.(empty := b.empty + 1);
      } else {
        b := b.(ok := b.ok + 1);
      }
    } else if r.status == WasSkipped || r.status == WasDenied || r.status == WasRateLimited {
      b := b.(skipped := b.skipped + 1);
    } else {
      b := b.(failed := b.failed + 1);
    }
    if r.error.Some? {
      b := b.(errors := b.errors + [ErrorLine(workload, id, r.error.value)]);
    }
    var flags := b.flags + FlagList(HandleQuotaPosture(r.quota)) + FlagList(HandleProviderOutage(r.fallback));
    b := b.(flags := flags + FlagList(HandleProviderRateLimited(r.fallback)),
            mode := MostRestrictive([b.mode] + Actions(r)));
  }

  // ---------------------------------------------------------------------------------
  // Accounting.

  /** Everything observed over the first `n` fixtures, in order. */
  function AllActions(world: World, n: nat): seq<Action> {
    if n == 0 then [] else AllActions(world, n - 1) + ActionsOf(world(n - 1))
  }

  function CountVerdicts(world: World, n: nat, v: Verdict): nat {
    if n == 0 then 0 else CountVerdicts(world, n - 1, v) + One(VerdictOf(world(n - 1)) == v)
  }

  /**
   * The counters after `n` fixtures are the tallies of their replies, and the mode is the join of
   * what they observed.
   */
  ghost predicate Tallied(world: World, n: nat, b: Books) {
    && b.processed == n
    && b.ok == CountVerdicts(world, n, Landed) && b.empty == CountVerdicts(world, n, Empty)
    && b.skipped == CountVerdicts(world, n, Skipped) && b.failed == CountVerdicts(world, n, Failed)
    && b.mode == MostRestrictive([Continue] + AllActions(world, n))
  }

  lemma JoinOfJoin(xs: seq<Action>, ys: seq<Action>)
    requires xs != []
    ensures MostRestrictive([MostRestrictive(xs)] + ys) == MostRestrictive(xs + ys)
  {
    var j, whole := [MostRestrictive(xs)] + ys, xs + ys;
    MostRestrictiveIsJoin(xs);
    MostRestrictiveIsJoin(j);
    MostRestrictiveIsJoin(whole);
    assert j[0] in j && forall y <- ys :: y in j && y in whole;
    assert forall x <- xs :: x in whole;
    assert forall a <- whole :: a in xs || a in ys;
    RankIsInjective(MostRestrictive(j), MostRestrictive(whole));
  }

  lemma RankIsInjective(a: Action, b: Action)
    ensures Rank(a) == Rank(b) ==> a == b
  {
  }

  lemma {:induction false} AccumulateTallies(world: World, n: nat, b: Books, workload: string, id: string)
    requires Tallied(world, n, b)
    ensures Tallied(world, n + 1, Accumulate(b, workload, id, world(n)))
  {
    var seen, more := [Continue] + AllActions(world, n), ActionsOf(world(n));
    assert [Continue] + AllActions(world, n + 1) == seen + more;
    JoinOfJoin(seen, more);
    if world(n).Threw? {
      assert seen + more == seen;
    }
  }

  /** No abort posture has been reported when the fixtures `from` up to `end` are fetched. */
  ghost predicate NoAbort(world: World, from: nat, end: nat) {
    forall k :: from <= k < end ==> MostRestrictive([Continue] + AllActions(world, k)) != Abort
  }

  /** A sweep that stood at fixture `i` has ended with `to`. */
  ghost predicate Swept(world: World, n: nat, i: nat, to: Books, aborted: bool) {
    && i <= to.processed <= n && Tallied(world, to.processed, to)
    && (aborted <==> to.processed < n) && (aborted ==> to.mode == Abort)
    && NoAbort(world, i, to.processed)
  }

  lemma {:induction false} SweptOneMore(world: World, n: nat, i: nat, b: Books, to: Books, aborted: bool)
    requires Tallied(world, i, b) && b.mode != Abort && Swept(world, n, i + 1, to, aborted)
    ensures Swept(world, n, i, to, aborted)
  {
  }

  lemma {:induction false} SweepTallies(world: World, workload: string, ids: seq<string>, i: nat, b: Books)
    requires i <= |ids| && Tallied(world, i, b)
    ensures var (to, aborted) := SweepFrom(world, workload, ids, i, b); Swept(world, |ids|, i, to, aborted)
    decreases |ids| - i
  {
    if i < |ids| && b.mode != Abort {
      var next := Accumulate(b, workload, ids[i], world(i));
      AccumulateTallies(world, i, b, workload, ids[i]);
      SweepTallies(world, workload, ids, i + 1, next);
      var (to, aborted) := SweepFrom(world, workload, ids, i + 1, next);
      SweptOneMore(world, |ids|, i, b, to, aborted);
      assert SweepFrom(world, workload, ids, i, b) == (to, aborted);
    } else {
      assert SweepFrom(world, workload, ids, i, b) == (b, i < |ids|);
    }
  }

  lemma {:induction false} WholeSweepTallies(world: World, workload: string, ids: seq<string>)
    ensures var (to, aborted) := SweepFrom(world, workload, ids, 0, NO_BOOKS);
            && to.processed <= |ids| && Tallied(world, to.processed, to)
            && (aborted <==> to.processed < |ids|) && (aborted ==> to.mode == Abort)
            && forall k :: 0 <= k < to.processed ==> MostRestrictive([Continue] + AllActions(world, k)) != Abort
  {
    assert [Continue] + AllActions(world, 0) == [Continue];
    MostRestrictiveIsJoin([Continue]);
    assert Tallied(world, 0, NO_BOOKS);
    SweepTallies(world, workload, ids, 0, NO_BOOKS);
  }

  lemma {:induction false} VerdictsAddUp(world: World, n: nat)
    ensures CountVerdicts(world, n, Landed) + CountVerdicts(world, n, Empty)
            + CountVerdicts(world, n, Skipped) + CountVerdicts(world, n, Failed) == n
  {
    if n > 0 { VerdictsAddUp(world, n - 1); }
  }

  /**
   * The fixtures fetched are a prefix of the list, each counted once, and the final mode is the
   * join of everything they reported.
   */
  lemma SweepAccounts(world: World, workload: string, ids: seq<string>)
    ensures var b := SweepFrom(world, workload, ids, 0, NO_BOOKS).0;
            && b.processed == b.ok + b.empty + b.skipped + b.failed && b.processed <= |ids|
            && b.mode == MostRestrictive([Continue] + AllActions(world, b.processed))
  {
    WholeSweepTallies(world, workload, ids);
    VerdictsAddUp(world, SweepFrom(world, workload, ids, 0, NO_BOOKS).0.processed);
  }

  /** The sweep fetches the `k`th fixture exactly when none before it reported the abort posture. */
  lemma FetchedIffNoAbortBefore(world: World, workload: string, ids: seq<string>, k: nat)
    requires k < |ids|
    ensures k < SweepFrom(world, workload, ids, 0, NO_BOOKS).0.processed
            <==> forall j :: 0 <= j < k ==> Abort !in ActionsOf(world(j))
  {
    WholeSweepTallies(world, workload, ids);
    var b := SweepFrom(world, workload, ids, 0, NO_BOOKS).0;
    AbortObserved(world, k);
    AbortObserved(world, b.processed);
    if b.processed <= k {
      assert Abort in AllActions(world, b.processed);
    }
  }

  lemma {:induction false} AbortObserved(world: World, n: nat)
    ensures MostRestrictive([Continue] + AllActions(world, n)) == Abort <==> Abort in AllActions(world, n)
    ensures Abort in AllActions(world, n) <==> exists j :: 0 <= j < n && Abort in ActionsOf(world(j))
  {
    JoinNeverRelaxes(Continue, AllActions(world, n));
    if n > 0 { AbortObserved(world, n - 1); }
  }

  /** A denied reservation of one call ends the sweep: its fixture is the last one fetched. */
  lemma DenialEndsTheSweep(world: World, workload: string, ids: seq<string>, j: nat, r: FetchResult, before: nat,
                           window: Window, hardCap: int, softCap: int)
    requires world(j) == Gave(r) && r.status == WasDenied
    requires before + 1 > hardCap && r.quota == SnapshotFromCount(window, before, hardCap, softCap)
    ensures SweepFrom(world, workload, ids, 0, NO_BOOKS).0.processed <= j + 1
  {
    DeniedReservationPosture(before, 1, window, hardCap, softCap);
    assert Abort == Actions(r)[0];
    assert Abort in ActionsOf(world(j));
    if j + 1 < |ids| {
      FetchedIffNoAbortBefore(world, workload, ids, j + 1);
    }
    WholeSweepTallies(world, workload, ids);
  }

  // ---------------------------------------------------------------------------------
  // The status.

  /** What each status of a sweep of some fixtures says about it, both ways. */
  lemma StatusMeans(world: World, workload: string, ids: seq<string>)
    requires ids != []
    ensures var (b, stopped) := SweepFrom(world, workload, ids, 0, NO_BOOKS);
            var status := StatusOf(b, stopped, |ids|);
            && (status == Completed <==> b.ok == |ids|)
            && (status == Aborted <==> b.processed < |ids| || b.ok == 0)
            && (status == Partial <==> b.processed == |ids| && 1 <= b.ok < |ids|)
  {
    WholeSweepTallies(world, workload, ids);
    VerdictsAddUp(world, SweepFrom(world, workload, ids, 0, NO_BOOKS).0.processed);
  }

  /** The abort posture reported by the last fixture stops nothing: the status is then decided by what landed alone. */
  lemma AbortOnTheLastFixtureIsNotReported(world: World, workload: string, ids: seq<string>)
    requires ids != [] && Abort in ActionsOf(world(|ids| - 1))
    requires forall j :: 0 <= j < |ids| - 1 ==> Abort !in ActionsOf(world(j))
    ensures var (b, stopped) := SweepFrom(world, workload, ids, 0, NO_BOOKS);
            && b.mode == Abort && !stopped
            && (StatusOf(b, stopped, |ids|) == Aborted <==> b.ok == 0)
  {
    FetchedIffNoAbortBefore(world, workload, ids, |ids| - 1);
    WholeSweepTallies(world, workload, ids);
    AbortObserved(world, |ids|);
    StatusMeans(world, workload, ids);
  }

  const CAPPED: FetchResult :=
    FetchResult(WasFetched, true, false, None, NoFallback, Snapshot(0, 0, HardCapReached, true))

  /** A sweep of one fixture that lands on the hard cap: the posture is abort and the status completed. */
  lemma CappedSweepReportsCompleted(workload: string, id: string)
    ensures var (b, stopped) := SweepFrom((n: nat) => Gave(CAPPED), workload, [id], 0, NO_BOOKS);
            b.mode == Abort && b.ok == 1 && StatusOf(b, stopped, 1) == Completed
  {
    var world: World := (n: nat) => Gave(CAPPED);
    var b := Accumulate(NO_BOOKS, workload, id, world(0));
    JoinNeverRelaxes(Continue, Actions(CAPPED));
    assert Abort == Actions(CAPPED)[0];
    assert SweepFrom(world, workload, [id], 1, b) == (b, false);
  }

  // ---------------------------------------------------------------------------------
  // The explicit list, and the competition backfill that uses it.

  /** First occurrences of the non-empty ids, in order. */
  function Deduped(ids: seq<string>): seq<string> {
    if ids == [] then []
    else
      var init, last := Deduped(ids[..|ids| - 1]), ids[|ids| - 1];
      if last == "" || last in init then init else init + [last]
  }

  function ExplicitList(ids: seq<string>, limit: Option<real>): seq<string> {
    PagedDiscovery.Take(Deduped(ids), PagedDiscovery.ClampLimit(limit))
  }

  lemma {:induction false} DedupedKeepsAll(ids: seq<string>)
    ensures Distinct(Deduped(ids)) && |Deduped(ids)| <= |ids|
    ensures forall id :: id in Deduped(ids) <==> id in ids && id != ""
  {
    if ids != [] {
      DedupedKeepsAll(ids[..|ids| - 1]);
      assert ids == ids[..|ids| - 1] + [ids[|ids| - 1]];
    }
  }

  /** A longer list only appends, so an id keeps the place of its first mention. */
  lemma {:induction false} DedupedKeepsOrder(ids: seq<string>, more: seq<string>)
    ensures Deduped(ids) <= Deduped(ids + more)
    decreases |more|
  {
    if more == [] {
      assert ids + more == ids;
    } else {
      assert (ids + more)[..|ids + more| - 1] == ids + more[..|more| - 1];
      DedupedKeepsOrder(ids, more[..|more| - 1]);
    }
  }

  /** The sweep gets the first ids of that list, as many as its limit. */
  lemma {:induction false} ExplicitListIsTheFirstIds(ids: seq<string>, limit: Option<real>)
    ensures ExplicitList(ids, limit) <= Deduped(ids)
    ensures |ExplicitList(ids, limit)| == Min(|Deduped(ids)|, PagedDiscovery.ClampLimit(limit))
  {
  }

  function FixtureIds(matched: seq<PagedDiscovery.Entry>): seq<string> {
    seq(|matched|, i requires 0 <= i < |matched| => matched[i].providerFixtureId)
  }

  /**
   * Handing the matched fixtures to the sweep with their number as the limit drops none: the
   * sweep gets each of their fixture ids once.
   */
  lemma ExecutedBackfillSweepsEveryMatch(matched: seq<PagedDiscovery.Entry>)
    requires 1 <= |matched| <= PagedDiscovery.MAX_LIMIT && forall e <- matched :: e.providerFixtureId != ""
    ensures var list := ExplicitList(FixtureIds(matched), Some(|matched| as real));
            && Distinct(list) && forall id :: id in list <==> exists e <- matched :: e.providerFixtureId == id
  {
    var ids := FixtureIds(matched);
    DedupedKeepsAll(ids);
    assert PagedDiscovery.ClampLimit(Some(|matched| as real)) == |matched|;
    forall id
      ensures id in ids <==> exists e <- matched :: e.providerFixtureId == id
    {
      if id in ids {
        var i :| 0 <= i < |ids| && ids[i] == id;
        assert matched[i] in matched;
      }
      if e :| e in matched && e.providerFixtureId == id {
        var i :| 0 <= i < |matched| && matched[i] == e;
        assert ids[i] == id;
      }
    }
  }
}
