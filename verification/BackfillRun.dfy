/**
 * The backfill as the loops and assignments that run it. Every method is proved to do what
 * the function of the same name in SeasonBackfill says.
 */
module BackfillRun {
  import opened Wrappers
  import opened Quota
  import opened IngestionMetrics
  import opened Degrade
  import opened SeasonBackfill

  method CollectFinalisedIds(items: seq<Item>) returns (ids: seq<string>)
    ensures ids == FinalisedIds(items)
  {
    ids := [];
    for i := 0 to |items|
      invariant ids == FinalisedIds(items[..i])
    {
      assert items[..i + 1][..i] == items[..i];
      var item := items[i];
      if item.NotAFixture? || item.id == "" || item.status !in FINALISED_STATUSES {
        continue;
      }
      if item.id !in ids {
        ids := ids + [item.id];
      }
    }
    assert items[..|items|] == items;
  }

  /** The target joins the list unless it is unusable or already there. */
  method Push(out: seq<Target>, seen: set<Target>, t: Target) returns (out': seq<Target>, seen': set<Target>)
    requires forall u :: u in seen <==> u in out
    ensures out' == Pushed(out, t) && forall u :: u in seen' <==> u in out'
  {
    if t.leagueId <= 0 || t.season <= 0 || t in seen {
      return out, seen;
    }
    out', seen' := out + [t], seen + {t};
  }

  method ResolveTargets(request: Request, catalogue: seq<Competition>) returns (out: seq<Target>)
    ensures out == ResolvedTargets(Candidates(request, catalogue))
  {
    out := [];
    var seen: set<Target> := {};
    if request.targets != [] {
      for i := 0 to |request.targets|
        invariant out == ResolvedTargets(AskedTargets(catalogue, request.targets[..i]))
        invariant forall u :: u in seen <==> u in out
      {
        assert request.targets[..i + 1][..i] == request.targets[..i];
        var target := ResolveOneTarget(catalogue, request.targets[i]);
        ResolvedAppend(AskedTargets(catalogue, request.targets[..i]), target);
        out, seen := Push(out, seen, target);
      }
      assert request.targets[..|request.targets|] == request.targets;
      return;
    }
    for i := 0 to |catalogue|
      invariant out == ResolvedTargets(Expanded(request, catalogue[..i]))
      invariant forall u :: u in seen <==> u in out
    {
      assert catalogue[..i + 1][..i] == catalogue[..i];
      var seasons := SeasonsOf(request, catalogue[i]);
      out, seen := PushSeasons(Expanded(request, catalogue[..i]), out, seen, catalogue[i].leagueId, seasons);
    }
    assert catalogue[..|catalogue|] == catalogue;
  }

  method PushSeasons(ghost before: seq<Target>, out: seq<Target>, seen: set<Target>, leagueId: int, seasons: seq<int>)
    returns (out': seq<Target>, seen': set<Target>)
    requires out == ResolvedTargets(before) && forall u :: u in seen <==> u in out
    ensures out' == ResolvedTargets(before + InSeasons(leagueId, seasons)) && forall u :: u in seen' <==> u in out'
  {
    out', seen' := out, seen;
    assert before + InSeasons(leagueId, []) == before;
    for j := 0 to |seasons|
      invariant out' == ResolvedTargets(before + InSeasons(leagueId, seasons[..j]))
      invariant forall u :: u in seen' <==> u in out'
    {
      assert seasons[..j + 1][..j] == seasons[..j];
      var target := Target(leagueId, seasons[j]);
      ResolvedAppend(before + InSeasons(leagueId, seasons[..j]), target);
      assert before + InSeasons(leagueId, seasons[..j + 1]) == (before + InSeasons(leagueId, seasons[..j])) + [target];
      out', seen' := Push(out', seen', target);
    }
    assert seasons[..|seasons|] == seasons;
  }

  /** One invocation: the cursor cache, the run budget, and the counters of the target at hand. */
  class Backfill {
    const env: Env

    var cursors: Cursors
    var remaining: int
    var tick: nat
    var crashed: bool
    ghost var calls: seq<Fetch>
    ghost var got: seq<(Fetch, FetchResult)>
    ghost var begun: seq<(Target, string)>
    ghost var saved: seq<(Target, string)>

    var callsBudgeted: nat
    var callsUsed: nat
    var fixturesProcessed: nat
    var errors: seq<string>
    var flags: seq<Flag>
    var mode: Action
    var lastQuota: Option<Snapshot>

    ghost function Now(): World
      reads this
    {
      World(cursors, remaining, tick, calls, got, begun, saved, crashed)
    }

    function Counters(): Books
      reads this
    {
      Books(callsBudgeted, callsUsed, fixturesProcessed, errors, flags, mode, lastQuota)
    }

    ghost function Here(): At
      reads this
    {
      At(Now(), Counters())
    }

    constructor (env: Env, cursors: Cursors, maxCallsPerRun: Option<int>)
      ensures this.env == env && Now() == FreshWorld(cursors, ResolveMaxCalls(maxCallsPerRun)) && Counters() == NO_BOOKS
    {
      this.env, this.cursors, tick, crashed := env, cursors, 0, false;
      remaining := ResolveMaxCalls(maxCallsPerRun);
      calls, got, begun, saved := [], [], [], [];
      callsBudgeted, callsUsed, fixturesProcessed := 0, 0, 0;
      errors, flags, mode, lastQuota := [], [], Continue, None;
    }

    method LoadCursor(target: Target, reset: bool) returns (cursor: Option<Cursor>)
      modifies this`tick, this`crashed
      ensures (Now(), cursor) == ReadCursor(env, old(Now()), target, reset)
    {
      if reset {
        return None;
      }
      var answer := env(tick);
      tick := tick + 1;
      if answer.Threw? {
        crashed := true;
        return None;
      }
      if target in cursors && IsValidCursor(cursors[target], target) {
        return Some(cursors[target].cursor);
      }
      return None;
    }

    method SaveCursor(cursor: Cursor)
      modifies this`tick, this`crashed, this`cursors
      ensures Now() == WriteCursor(env, old(Now()), cursor)
    {
      var answer := env(tick);
      tick := tick + 1;
      if CarriedOut(answer) {
        cursors := cursors[Target(cursor.leagueId, cursor.season) := Stored(cursor)];
      }
      crashed := answer.Threw?;
    }

    method PushFlag(r: DegradeResult)
      modifies this`flags
      ensures flags == old(flags) + FlagList(r)
    {
      if r.flag.Some? {
        flags := flags + [r.flag.value];
      }
    }

    method AccumulateResult(f: Fetch, r: FetchResult)
      modifies this`callsBudgeted, this`remaining, this`callsUsed, this`errors, this`lastQuota, this`flags, this`mode
      ensures Counters() == Accumulate(old(Counters()), f, r)
      ensures remaining == old(remaining) - 1
    {
      callsBudgeted := callsBudgeted + 1;
      remaining := remaining - 1;
      if r.status == WasFetched {
        callsUsed := callsUsed + 1;
      }
      if r.error.Some? {
        errors := errors + [ErrorLine(f, r.error.value)];
      }
      lastQuota := Some(r.quota);
      var quotaResult := HandleQuotaPosture(r.quota);
      PushFlag(quotaResult);
      if r.fallback != NoFallback {
        PushFlag(HandleProviderOutage(r.fallback));
      }
      var outageAction := if r.fallback == ProviderOutage then CachedOnly else Continue;
      mode := MostRestrictive([mode, quotaResult.action, outageAction]);
    }

    /** A fetch goes out; whatever comes back, it is one more external call. */
    method Ask(f: Fetch) returns (answer: Answer)
      modifies this`tick, this`calls
      ensures answer == env(old(tick))
      ensures Here() == At(old(Now()).(tick := old(tick) + 1, calls := old(calls) + [f]), old(Counters()))
    {
      answer := env(tick);
      tick := tick + 1;
      calls := calls + [f];
    }

    method FetchWorkload(f: Fetch)
      modifies this
      ensures Here() == FetchInto(env, old(Here()), f)
    {
      var answer := Ask(f);
      if answer.Threw? {
        crashed := true;
        return;
      }
      got := got + [(f, answer.result)];
      AccumulateResult(f, answer.result);
    }

    method ProcessOneFixture(id: string)
      modifies this
      ensures Here() == ProcessFixture(env, old(Here()), id, 0)
    {
      for j := 0 to |FIXTURE_WORKLOADS|
        invariant ProcessFixture(env, old(Here()), id, 0) == ProcessFixture(env, Here(), id, j)
      {
        FetchWorkload(Fetch(FIXTURE_WORKLOADS[j], id));
        if crashed || mode == Abort {
          return;
        }
      }
    }

    method WalkFixture(cursor: Cursor, index: nat) returns (next: Cursor)
      requires index < |cursor.fixtureIds|
      modifies this
      ensures (Here(), next) == WalkOne(env, old(Here()), cursor, index)
    {
      var id := cursor.fixtureIds[index];
      begun := begun + [(KeyOf(cursor), id)];
      ProcessOneFixture(id);
      if crashed {
        return cursor;
      }
      next := Checkpoint(cursor, index);
    }

    method Checkpoint(cursor: Cursor, index: nat) returns (next: Cursor)
      requires index < |cursor.fixtureIds|
      modifies this
      ensures (Here(), next) == Checkpointed(env, old(Here()), cursor, index)
    {
      fixturesProcessed := fixturesProcessed + 1;
      next := cursor.(nextIndex := index + 1);
      var carriedOut := CarriedOut(env(tick));
      SaveCursor(next);
      if !carriedOut {
        return cursor;
      }
      saved := saved + [(KeyOf(cursor), cursor.fixtureIds[index])];
    }

    /** One turn of the walk; where there is no fixture, nothing happens. */
    method WalkNext(cursor: Cursor, index: int) returns (next: Cursor)
      requires index < |cursor.fixtureIds| && !crashed && remaining > 0 && mode != Abort
      modifies this
      ensures next.fixtureIds == cursor.fixtureIds
      ensures WalkFixtures(env, old(Here()), cursor, index) == WalkFixtures(env, Here(), next, index + 1)
    {
      next := cursor;
      if index >= 0 {
        next := WalkFixture(cursor, index);
      }
    }

    method Walk(start: Cursor) returns (cursor: Cursor)
      modifies this
      ensures (Here(), cursor) == WalkFixtures(env, old(Here()), start, start.nextIndex)
    {
      cursor := start;
      var index := cursor.nextIndex;
      while index < |cursor.fixtureIds| && !crashed
        invariant cursor.fixtureIds == start.fixtureIds
        invariant WalkFixtures(env, old(Here()), start, start.nextIndex) == WalkFixtures(env, Here(), cursor, index)
        decreases |start.fixtureIds| - index
      {
        if remaining <= 0 || mode == Abort {
          break;
        }
        cursor := WalkNext(cursor, index);
        index := index + 1;
      }
    }

    method Standings(target: Target, cursor: Option<Cursor>) returns (next: Option<Cursor>, ended: bool)
      modifies this
      ensures Progress(Here(), next, ended) == StandingsStep(env, target, Progress(old(Here()), cursor, false))
    {
      if cursor.Some? && cursor.value.standingsDone {
        return cursor, false;
      }
      if remaining <= 0 {
        return cursor, true;
      }
      FetchWorkload(StandingsFetch(target));
      if crashed || mode == Abort {
        return cursor, true;
      }
      return Some(WithStandingsDone(cursor, target)), false;
    }

    method Discover(target: Target, cursor: Option<Cursor>) returns (next: Option<Cursor>, ended: bool)
      modifies this
      ensures Progress(Here(), next, ended) == DiscoveryStep(env, target, Progress(old(Here()), cursor, false))
    {
      if cursor.Some? && cursor.value.discovered {
        return cursor, false;
      }
      if remaining <= 0 {
        return cursor, true;
      }
      var answer := env(tick);
      FetchWorkload(SeasonFixturesFetch(target));
      if crashed || mode == Abort {
        return cursor, true;
      }
      var ids: seq<string> := [];
      if answer.result.data.Some? {
        ids := CollectFinalisedIds(answer.result.data.value);
      }
      var discovered := Cursor(CURSOR_VERSION, target.leagueId, target.season, true, ids, 0,
                               if cursor.Some? then cursor.value.standingsDone else true);
      SaveCursor(discovered);
      return Some(discovered), crashed;
    }

    method PrepareTarget(target: Target, cursor: Option<Cursor>, stop: bool) returns (next: Option<Cursor>, ended: bool)
      modifies this
      ensures Progress(Here(), next, ended) == Prepare(env, target, Progress(old(Here()), cursor, stop))
    {
      next, ended := cursor, stop;
      if !ended {
        next, ended := Standings(target, next);
      }
      if !ended {
        next, ended := Discover(target, next);
      }
    }

    method EnterTarget(target: Target, reset: bool) returns (cursor: Option<Cursor>)
      modifies this
      ensures Progress(Here(), cursor, crashed) == Entry(env, target, reset, old(Now()))
    {
      ResetCounters();
      cursor := LoadCursor(target, reset);
    }

    method ResetCounters()
      modifies this
      ensures Here() == At(old(Now()), NO_BOOKS)
    {
      callsBudgeted, callsUsed, fixturesProcessed := 0, 0, 0;
      errors, flags, mode, lastQuota := [], [], Continue, None;
    }

    method RunTarget(target: Target, reset: bool) returns (cursor: Option<Cursor>)
      modifies this
      ensures Here() == BackfillTarget(env, target, reset, old(Now())).at
      ensures cursor == BackfillTarget(env, target, reset, old(Now())).cursor
    {
      cursor := EnterTarget(target, reset);
      var ended;
      cursor, ended := PrepareTarget(target, cursor, crashed);
      if !ended && cursor.Some? {
        var walked := Walk(cursor.value);
        cursor := Some(walked);
      }
    }

    method RunAll(targets: seq<Target>, reset: bool) returns (report: Report)
      modifies this
      ensures Run(Now(), report) == RunTargets(env, targets, reset, Run(old(Now()), EMPTY_REPORT))
    {
      report := EMPTY_REPORT;
      var i := 0;
      while i < |targets| && !crashed
        invariant i <= |targets|
        invariant RunTargets(env, targets, reset, Run(old(Now()), EMPTY_REPORT))
               == RunTargets(env, targets[i..], reset, Run(Now(), report))
      {
        assert targets[i..][1..] == targets[i + 1..];
        if report.aborted || report.halted {
          var cursor := LoadCursor(targets[i], reset);
          report := report.(targets := report.targets + [SkippedSummary(targets[i], cursor)]);
        } else {
          var cursor := RunTarget(targets[i], reset);
          report := AddOutcome(report, Finalize(targets[i], cursor, Counters()), remaining);
        }
        i := i + 1;
      }
    }
  }
}
