/**
 * The resumable season backfill, as functions of what the outside answers. An `Env` gives
 * the outcome of every external call of one invocation in order: a fetch result, or a throw
 * that ends the invocation (a Redis or loader failure, or the process dying there).
 */
module SeasonBackfill {
  import opened Wrappers
  import opened Tally
  import opened Quota
  import opened IngestionMetrics
  import opened FetchPipeline
  import opened Degrade
  import opened AsciiText

  const DEFAULT_MAX_CALLS_PER_RUN: int := 5_000
  const CURSOR_VERSION: int := 1

  datatype Target = Target(leagueId: int, season: int)

  datatype Cursor = Cursor(
    version: int, leagueId: int, season: int,
    discovered: bool, fixtureIds: seq<string>, nextIndex: int, standingsDone: bool)

  /** What the cache holds under a cursor key: a cursor-shaped record or anything else. */
  datatype Raw = Foreign | Stored(cursor: Cursor)

  type Cursors = map<Target, Raw>

  datatype Item = NotAFixture | Fixture(id: string, status: string)

  datatype FetchResult = FetchResult(
    status: Outcome, quota: Snapshot, fallback: Fallback, error: Option<string>, data: Option<seq<Item>>)

  /** A call that throws may have been carried out all the same, its reply lost. */
  datatype Answer = Threw(carriedOut: bool) | Gave(result: FetchResult)

  type Env = nat -> Answer

  datatype Fetch = Fetch(workload: Workload, resourceId: string)

  /** Everything that outlives the handling of one target, with the history the theorems speak of. */
  datatype World = World(
    cursors: Cursors,
    remaining: int,                   // budget.remaining
    tick: nat,                        // external calls made so far
    calls: seq<Fetch>,                // history: fetches attempted
    got: seq<(Fetch, FetchResult)>,   // history: fetches answered, with their results
    begun: seq<(Target, string)>,     // history: fixtures handed to processFixture
    saved: seq<(Target, string)>,     // history: fixtures checkpointed
    crashed: bool)

  /** The local counters of one target. */
  datatype Books = Books(
    budgeted: nat, used: nat, processed: nat,
    errors: seq<string>, flags: seq<Flag>, mode: Action, quota: Option<Snapshot>)

  datatype At = At(w: World, b: Books)

  const NO_BOOKS: Books := Books(0, 0, 0, [], [], Continue, None)

  // ---------------------------------------------------------------------------------
  // Cursors.

  function FreshWorld(cursors: Cursors, remaining: int): World {
    World(cursors, remaining, 0, [], [], [], [], false)
  }

  predicate IsValidCursor(raw: Raw, target: Target) {
    raw.Stored? && raw.cursor.version == CURSOR_VERSION
    && raw.cursor.leagueId == target.leagueId && raw.cursor.season == target.season
  }

  function CursorOf(cursors: Cursors, target: Target): Option<Cursor> {
    if target in cursors && IsValidCursor(cursors[target], target) then Some(cursors[target].cursor) else None
  }

  function KeyOf(cursor: Cursor): Target { Target(cursor.leagueId, cursor.season) }

  predicate IsCursorComplete(cursor: Option<Cursor>) {
    cursor.Some? && cursor.value.discovered && cursor.value.nextIndex >= |cursor.value.fixtureIds|
  }

  function WithStandingsDone(cursor: Option<Cursor>, target: Target): Cursor {
    match cursor
    case None => Cursor(CURSOR_VERSION, target.leagueId, target.season, false, [], 0, true)
    case Some(c) =>
      Cursor(CURSOR_VERSION, target.leagueId, target.season, c.discovered, c.fixtureIds, c.nextIndex, true)
  }

  /** With `reset` the cache is not asked at all. */
  function ReadCursor(env: Env, w: World, target: Target, reset: bool): (World, Option<Cursor>) {
    if reset then (w, None)
    else if env(w.tick).Threw? then (w.(tick := w.tick + 1, crashed := true), None)
    else (w.(tick := w.tick + 1), CursorOf(w.cursors, target))
  }

  predicate CarriedOut(answer: Answer) { answer.Gave? || answer.carriedOut }

  function WriteCursor(env: Env, w: World, cursor: Cursor): World {
    w.(tick := w.tick + 1, crashed := env(w.tick).Threw?,
       cursors := if CarriedOut(env(w.tick)) then w.cursors[KeyOf(cursor) := Stored(cursor)] else w.cursors)
  }

  // ---------------------------------------------------------------------------------
  // One fetch and its bookkeeping.

  function ErrorLine(f: Fetch, message: string): string {
    WorkloadName(f.workload) + ":" + f.resourceId + ":" + message
  }

  function Accumulate(b: Books, f: Fetch, r: FetchResult): Books {
    var posture := HandleQuotaPosture(r.quota);
    Books(
      b.budgeted + 1,
      if r.status == WasFetched then b.used + 1 else b.used,
      b.processed,
      if r.error.Some? then b.errors + [ErrorLine(f, r.error.value)] else b.errors,
      b.flags + FlagList(posture) + FlagList(HandleProviderOutage(r.fallback)),
      MostRestrictive([b.mode, posture.action, if r.fallback == ProviderOutage then CachedOnly else Continue]),
      Some(r.quota))
  }

  function FetchInto(env: Env, at: At, f: Fetch): At {
    var called := at.w.(tick := at.w.tick + 1, calls := at.w.calls + [f]);
    match env(at.w.tick)
    case Threw(_) => At(called.(crashed := true), at.b)
    case Gave(r) => At(called.(remaining := at.w.remaining - 1, got := at.w.got + [(f, r)]), Accumulate(at.b, f, r))
  }

  const FIXTURE_WORKLOADS: seq<Workload> :=
    [FixtureDetailFullTime, EventsPostFinal, LineupsPostConfirm, TeamMatchStats, PlayerMatchStats]

  function Stopped(at: At): bool { at.w.crashed || at.b.mode == Abort }

  /** The fetches of one fixture from the `j`th workload on; an abort or a throw ends them. */
  function ProcessFixture(env: Env, at: At, id: string, j: nat): At
    requires j <= 5
    decreases 5 - j
  {
    if j == 5 then at
    else
      var next := FetchInto(env, at, Fetch(FIXTURE_WORKLOADS[j], id));
      if Stopped(next) then next else ProcessFixture(env, next, id, j + 1)
  }

  /** The fixture counts as processed, and the cursor moves past it if the write is carried out. */
  function Checkpointed(env: Env, done: At, cursor: Cursor, index: nat): (At, Cursor)
    requires index < |cursor.fixtureIds|
  {
    var b := done.b.(processed := done.b.processed + 1);
    var next := cursor.(nextIndex := index + 1);
    var written := WriteCursor(env, done.w, next);
    if !CarriedOut(env(done.w.tick)) then (At(written, b), cursor)
    else (At(written.(saved := written.saved + [(KeyOf(cursor), cursor.fixtureIds[index])]), b), next)
  }

  /** One fixture of the walk, with its checkpoint. */
  function WalkOne(env: Env, at: At, cursor: Cursor, index: nat): (At, Cursor)
    requires index < |cursor.fixtureIds|
  {
    var id := cursor.fixtureIds[index];
    var begun := At(at.w.(begun := at.w.begun + [(KeyOf(cursor), id)]), at.b);
    var done := ProcessFixture(env, begun, id, 0);
    if done.w.crashed then (done, cursor) else Checkpointed(env, done, cursor, index)
  }

  function WalkFixtures(env: Env, at: At, cursor: Cursor, index: int): (At, Cursor)
    decreases |cursor.fixtureIds| - index
  {
    if index >= |cursor.fixtureIds| || at.w.crashed || at.w.remaining <= 0 || at.b.mode == Abort then (at, cursor)
    else if index < 0 then WalkFixtures(env, at, cursor, index + 1)  // no fixture there: skipped
    else
      var (next, cursor') := WalkOne(env, at, cursor, index);
      WalkFixtures(env, next, cursor', index + 1)
  }

  // ---------------------------------------------------------------------------------
  // One target.

  datatype Summary = Summary(
    target: Target, discovered: nat, processed: nat, cursorIndex: int, complete: bool,
    budgeted: nat, used: nat, errors: seq<string>)

  datatype TargetOutcome = TargetOutcome(summary: Summary, flags: seq<Flag>, action: Action, quota: Option<Snapshot>)

  function Finalize(target: Target, cursor: Option<Cursor>, b: Books): TargetOutcome {
    TargetOutcome(
      Summary(target,
              if cursor.Some? then |cursor.value.fixtureIds| else 0, b.processed,
              if cursor.Some? then cursor.value.nextIndex else 0,
              IsCursorComplete(cursor) && b.mode != Abort,
              b.budgeted, b.used, b.errors),
      b.flags, b.mode, b.quota)
  }

  function SkippedSummary(target: Target, cursor: Option<Cursor>): Summary {
    Summary(target,
            if cursor.Some? then |cursor.value.fixtureIds| else 0, 0,
            if cursor.Some? then cursor.value.nextIndex else 0,
            IsCursorComplete(cursor), 0, 0, [])
  }

  function StandingsFetch(t: Target): Fetch { Fetch(FixturesNext7d, "backfill-standings-" + Label(t)) }

  function SeasonFixturesFetch(t: Target): Fetch { Fetch(FixturesNext7d, "backfill-fixtures-" + Label(t)) }

  function Label(t: Target): string { Decimal(t.leagueId) + "-" + Decimal(t.season) }

  function Decimal(n: int): string
    decreases if n < 0 then 1 - n else n
  {
    if n < 0 then "-" + Decimal(-n)
    else if n < 10 then [('0' as int + n) as char]
    else Decimal(n / 10) + [('0' as int + n % 10) as char]
  }

  lemma {:induction false} DecimalIsDigits(n: nat)
    ensures Decimal(n) != [] && forall c <- Decimal(n) :: '0' <= c <= '9'
  {
    if n >= 10 { DecimalIsDigits(n / 10); }
  }

  lemma {:induction false} DecimalIsInjective(m: nat, n: nat)
    requires Decimal(m) == Decimal(n)
    ensures m == n
  {
    DecimalIsDigits(m / 10);
    DecimalIsDigits(n / 10);
    var dm, dn := Decimal(m), Decimal(n);
    assert dm[|dm| - 1] == dn[|dn| - 1] && dm[..|dm| - 1] == dn[..|dn| - 1];
    if m >= 10 && n >= 10 {
      assert dm[..|dm| - 1] == Decimal(m / 10) && dn[..|dn| - 1] == Decimal(n / 10);
      DecimalIsInjective(m / 10, n / 10);
    }
  }

  /** Two targets never ask for the same thing, so they share neither a cache entry nor a flight. */
  lemma {:induction false} TargetsShareNoFetch(t: Target, u: Target)
    requires IsUsable(t) && IsUsable(u)
    ensures StandingsFetch(t) == StandingsFetch(u) <==> t == u
    ensures SeasonFixturesFetch(t) == SeasonFixturesFetch(u) <==> t == u
    ensures StandingsFetch(t) != SeasonFixturesFetch(u)
  {
    if Label(t) == Label(u) { LabelIsInjective(t, u); }
    if StandingsFetch(t) == StandingsFetch(u) { DropPrefix("backfill-standings-", Label(t), Label(u)); }
    if SeasonFixturesFetch(t) == SeasonFixturesFetch(u) { DropPrefix("backfill-fixtures-", Label(t), Label(u)); }
    assert StandingsFetch(t).resourceId[9] == 's' && SeasonFixturesFetch(u).resourceId[9] == 'f';
  }

  lemma {:induction false} LabelIsInjective(t: Target, u: Target)
    requires IsUsable(t) && IsUsable(u) && Label(t) == Label(u)
    ensures t == u
  {
    DecimalIsDigits(t.leagueId);
    DecimalIsDigits(u.leagueId);
    assert Label(t) == Decimal(t.leagueId) + (['-'] + Decimal(t.season));
    assert Label(u) == Decimal(u.leagueId) + (['-'] + Decimal(u.season));
    SplitAtFirst('-', Decimal(t.leagueId), Decimal(t.season), Decimal(u.leagueId), Decimal(u.season));
    DecimalIsInjective(t.leagueId, u.leagueId);
    DecimalIsInjective(t.season, u.season);
  }

  /** The steps of a target hand on where they stand, and whether the target ends there. */
  datatype Progress = Progress(at: At, cursor: Option<Cursor>, ended: bool)

  function StandingsStep(env: Env, target: Target, s: Progress): Progress {
    if s.cursor.Some? && s.cursor.value.standingsDone then s
    else if s.at.w.remaining <= 0 then s.(ended := true)
    else
      var at := FetchInto(env, s.at, StandingsFetch(target));
      if Stopped(at) then Progress(at, s.cursor, true)
      else Progress(at, Some(WithStandingsDone(s.cursor, target)), false)
  }

  function DiscoveryStep(env: Env, target: Target, s: Progress): Progress {
    if s.cursor.Some? && s.cursor.value.discovered then s
    else if s.at.w.remaining <= 0 then s.(ended := true)
    else
      var tick := s.at.w.tick;
      var at := FetchInto(env, s.at, SeasonFixturesFetch(target));
      if Stopped(at) then Progress(at, s.cursor, true)
      else
        var cursor := Cursor(CURSOR_VERSION, target.leagueId, target.season, true,
                             DiscoveredIds(env(tick)), 0,
                             if s.cursor.Some? then s.cursor.value.standingsDone else true);
        var w := WriteCursor(env, at.w, cursor);
        Progress(At(w, at.b), Some(cursor), w.crashed)
  }

  /** A result without data lists no fixtures. */
  function DiscoveredIds(answer: Answer): seq<string> {
    if answer.Gave? && answer.result.data.Some? then FinalisedIds(answer.result.data.value) else []
  }

  function WalkStep(env: Env, s: Progress): Progress {
    if s.ended || s.cursor.None? then s
    else
      var (at, cursor) := WalkFixtures(env, s.at, s.cursor.value, s.cursor.value.nextIndex);
      Progress(at, Some(cursor), true)
  }

  /** Everything before the walk: standings once, then the season list once. */
  function Prepare(env: Env, target: Target, s: Progress): Progress {
    var standings := if s.ended then s else StandingsStep(env, target, s);
    if standings.ended then standings else DiscoveryStep(env, target, standings)
  }

  function Entry(env: Env, target: Target, reset: bool, w: World): Progress {
    var (read, cursor) := ReadCursor(env, w, target, reset);
    Progress(At(read, NO_BOOKS), cursor, read.crashed)
  }

  function BackfillTarget(env: Env, target: Target, reset: bool, w: World): Progress {
    WalkStep(env, Prepare(env, target, Entry(env, target, reset, w)))
  }

  // ---------------------------------------------------------------------------------
  // One invocation.

  datatype Status = Complete | Incomplete | Aborted

  datatype Report = Report(
    targets: seq<Summary>, flags: seq<Flag>, budgeted: nat, used: nat, processed: nat,
    quota: Option<Snapshot>, aborted: bool, halted: bool)

  const EMPTY_REPORT: Report := Report([], [], 0, 0, 0, None, false, false)

  function AddOutcome(r: Report, o: TargetOutcome, remaining: int): Report {
    Report(r.targets + [o.summary], r.flags + o.flags,
           r.budgeted + o.summary.budgeted, r.used + o.summary.used, r.processed + o.summary.processed,
           if o.quota.Some? then o.quota else r.quota,
           r.aborted || o.action == Abort, r.halted || (o.action != Abort && remaining <= 0))
  }

  datatype Run = Run(w: World, report: Report)

  function RunOne(env: Env, target: Target, reset: bool, run: Run): Run {
    if run.report.aborted || run.report.halted then
      var (w, cursor) := ReadCursor(env, run.w, target, reset);
      Run(w, run.report.(targets := run.report.targets + [SkippedSummary(target, cursor)]))
    else
      var s := BackfillTarget(env, target, reset, run.w);
      Run(s.at.w, AddOutcome(run.report, Finalize(target, s.cursor, s.at.b), s.at.w.remaining))
  }

  /** The targets in order; a throw ends the invocation there. */
  function RunTargets(env: Env, targets: seq<Target>, reset: bool, run: Run): Run {
    if targets == [] || run.w.crashed then run
    else RunTargets(env, targets[1..], reset, RunOne(env, targets[0], reset, run))
  }

  /** A missing, zero or negative ceiling is the default one. */
  function ResolveMaxCalls(input: Option<int>): (maxCalls: int)
    ensures maxCalls > 0 && (input.Some? && input.value > 0 ==> maxCalls == input.value)
    ensures input.None? || input.value <= 0 ==> maxCalls == 5_000
  {
    if input.Some? && input.value > 0 then input.value else DEFAULT_MAX_CALLS_PER_RUN
  }

  function RunWorkflow(env: Env, targets: seq<Target>, reset: bool, maxCalls: int, cursors: Cursors): Run {
    RunTargets(env, targets, reset, Run(FreshWorld(cursors, maxCalls), EMPTY_REPORT))
  }

  predicate EveryComplete(results: seq<Summary>) { forall r <- results :: r.complete }

  function StatusOf(r: Report): Status {
    if r.aborted then Aborted else if EveryComplete(r.targets) then Complete else Incomplete
  }

  // ---------------------------------------------------------------------------------
  // Discovery: the finalised fixtures of a season list.

  const FINALISED_STATUSES: set<string> := {"FT", "AET", "PEN", "WO", "AWD"}

  predicate IsFinalised(item: Item) { item.Fixture? && item.id != "" && item.status in FINALISED_STATUSES }

  function FinalisedIds(items: seq<Item>): seq<string> {
    if items == [] then []
    else
      var ids, last := FinalisedIds(items[..|items| - 1]), items[|items| - 1];
      if IsFinalised(last) && last.id !in ids then ids + [last.id] else ids
  }

  /** Provider order, no repeats, and exactly the ids that some finalised fixture carries. */
  lemma {:induction false} FinalisedIdsAreExact(items: seq<Item>)
    ensures Distinct(FinalisedIds(items))
    ensures forall id ::
              id in FinalisedIds(items)
              <==> id != "" && exists item <- items ::
                     item.Fixture? && item.id == id && item.status in {"FT", "AET", "PEN", "WO", "AWD"}
  {
    if items != [] {
      var init, last := items[..|items| - 1], items[|items| - 1];
      FinalisedIdsAreExact(init);
      assert items == init + [last];
      forall id
        ensures id in FinalisedIds(items)
                <==> id != "" && exists item <- items ::
                       item.Fixture? && item.id == id && item.status in {"FT", "AET", "PEN", "WO", "AWD"}
      {
        assert (exists item <- items :: IsFinalised(item) && item.id == id)
          <==> (exists item <- init :: IsFinalised(item) && item.id == id) || (IsFinalised(last) && last.id == id);
      }
    }
  }

  /** A longer list only appends: an id keeps the place of its first appearance. */
  lemma {:induction false} FinalisedIdsKeepOrder(items: seq<Item>, more: seq<Item>)
    ensures FinalisedIds(items) <= FinalisedIds(items + more)
    decreases |more|
  {
    if more == [] {
      assert items + more == items;
    } else {
      assert (items + more)[..|items + more| - 1] == items + more[..|more| - 1];
      FinalisedIdsKeepOrder(items, more[..|more| - 1]);
    }
  }

  // ---------------------------------------------------------------------------------
  // Targets: valid ones, each once, in order of first mention.

  datatype Competition = Competition(key: string, leagueId: int, season: int)

  datatype Asked = Asked(key: Option<string>, leagueId: Option<int>, season: int)

  /** An omitted list is empty. */
  datatype Request = Request(targets: seq<Asked>, seasons: seq<int>, competitions: seq<string>)

  /** A key listed twice names its last entry. */
  function LeagueOf(catalogue: seq<Competition>, key: string): int {
    if catalogue == [] then 0
    else if catalogue[|catalogue| - 1].key == key then catalogue[|catalogue| - 1].leagueId
    else LeagueOf(catalogue[..|catalogue| - 1], key)
  }

  /** An explicit league id wins; an unknown key gives league 0, which is not usable. */
  function ResolveOneTarget(catalogue: seq<Competition>, asked: Asked): Target {
    if asked.leagueId.Some? && asked.leagueId.value > 0 then Target(asked.leagueId.value, asked.season)
    else if asked.key.None? || asked.key.value == "" then Target(0, asked.season)
    else Target(LeagueOf(catalogue, asked.key.value), asked.season)
  }

  function SeasonsOf(request: Request, c: Competition): seq<int> {
    if request.competitions != [] && c.key !in request.competitions then []
    else if request.seasons != [] then request.seasons
    else [c.season]
  }

  function InSeasons(leagueId: int, seasons: seq<int>): seq<Target> {
    if seasons == [] then []
    else InSeasons(leagueId, seasons[..|seasons| - 1]) + [Target(leagueId, seasons[|seasons| - 1])]
  }

  function Expanded(request: Request, catalogue: seq<Competition>): seq<Target> {
    if catalogue == [] then []
    else
      var c := catalogue[|catalogue| - 1];
      Expanded(request, catalogue[..|catalogue| - 1]) + InSeasons(c.leagueId, SeasonsOf(request, c))
  }

  function AskedTargets(catalogue: seq<Competition>, asked: seq<Asked>): seq<Target> {
    if asked == [] then []
    else AskedTargets(catalogue, asked[..|asked| - 1]) + [ResolveOneTarget(catalogue, asked[|asked| - 1])]
  }

  /** Explicit targets win; otherwise the catalogue, filtered by key, is expanded over the seasons. */
  function Candidates(request: Request, catalogue: seq<Competition>): seq<Target> {
    if request.targets != [] then AskedTargets(catalogue, request.targets) else Expanded(request, catalogue)
  }

  predicate IsUsable(t: Target) { t.leagueId > 0 && t.season > 0 }

  function Pushed(out: seq<Target>, t: Target): seq<Target> { if IsUsable(t) && t !in out then out + [t] else out }

  function ResolvedTargets(candidates: seq<Target>): seq<Target> {
    if candidates == [] then []
    else Pushed(ResolvedTargets(candidates[..|candidates| - 1]), candidates[|candidates| - 1])
  }

  lemma {:induction false} ResolvedTargetsAreDistinct(candidates: seq<Target>)
    ensures Distinct(ResolvedTargets(candidates))
    ensures forall t :: t in ResolvedTargets(candidates) <==> t in candidates && IsUsable(t)
  {
    if candidates != [] {
      var init := candidates[..|candidates| - 1];
      ResolvedTargetsAreDistinct(init);
      assert candidates == init + [candidates[|candidates| - 1]];
    }
  }

  lemma {:induction false} InSeasonsMeans(leagueId: int, seasons: seq<int>)
    ensures forall t :: t in InSeasons(leagueId, seasons) <==> t.leagueId == leagueId && t.season in seasons
  {
    if seasons != [] {
      InSeasonsMeans(leagueId, seasons[..|seasons| - 1]);
      assert seasons == seasons[..|seasons| - 1] + [seasons[|seasons| - 1]];
    }
  }

  lemma {:induction false} ExpandedMeans(request: Request, catalogue: seq<Competition>, t: Target)
    ensures t in Expanded(request, catalogue) <==> exists c <- catalogue :: Lists(request, c, t)
  {
    if catalogue != [] {
      var init, c := catalogue[..|catalogue| - 1], catalogue[|catalogue| - 1];
      ExpandedMeans(request, init, t);
      InSeasonsMeans(c.leagueId, SeasonsOf(request, c));
      assert t in InSeasons(c.leagueId, SeasonsOf(request, c)) <==> Lists(request, c, t);
      assert catalogue == init + [c];
      if d :| d in catalogue && Lists(request, d, t) {
        assert d in init || d == c;
      }
    }
  }

  lemma {:induction false} LeagueIsTheLastEntry(catalogue: seq<Competition>, key: string, leagueId: int)
    requires leagueId != 0
    ensures LeagueOf(catalogue, key) == leagueId <==> exists i: nat :: LastEntry(catalogue, key, leagueId, i)
  {
    if catalogue != [] {
      var n := |catalogue| - 1;
      var init := catalogue[..n];
      if catalogue[n].key == key {
        assert catalogue[n].leagueId == leagueId ==> LastEntry(catalogue, key, leagueId, n);
        if i: nat :| LastEntry(catalogue, key, leagueId, i) { assert i == n; }
      } else {
        LeagueIsTheLastEntry(init, key, leagueId);
        if i: nat :| LastEntry(init, key, leagueId, i) { assert LastEntry(catalogue, key, leagueId, i); }
        if i: nat :| LastEntry(catalogue, key, leagueId, i) { assert LastEntry(init, key, leagueId, i); }
      }
    }
  }

  lemma {:induction false} AskedMeans(catalogue: seq<Competition>, asked: seq<Asked>, t: Target)
    requires t.leagueId > 0
    ensures t in AskedTargets(catalogue, asked) <==> exists a <- asked :: Names(catalogue, a, t)
  {
    if asked != [] {
      var init, a := asked[..|asked| - 1], asked[|asked| - 1];
      AskedMeans(catalogue, init, t);
      assert asked == init + [a];
      if a.key.Some? { LeagueIsTheLastEntry(catalogue, a.key.value, t.leagueId); }
      assert ResolveOneTarget(catalogue, a) == t <==> Names(catalogue, a, t);
      if b :| b in asked && Names(catalogue, b, t) {
        assert b in init || b == a;
      }
    }
  }

  /** The key's last entry in the catalogue is the `i`th, and has this league. */
  ghost predicate LastEntry(catalogue: seq<Competition>, key: string, leagueId: int, i: nat) {
    && i < |catalogue| && catalogue[i].key == key && catalogue[i].leagueId == leagueId
    && forall j :: i < j < |catalogue| ==> catalogue[j].key != key
  }

  /** An explicit target names this one: by a positive league id, or else by a key of the catalogue. */
  ghost predicate Names(catalogue: seq<Competition>, asked: Asked, t: Target) {
    && t.season == asked.season
    && if asked.leagueId.Some? && asked.leagueId.value > 0 then t.leagueId == asked.leagueId.value
       else
         && asked.key.Some? && asked.key.value != ""
         && exists i: nat :: LastEntry(catalogue, asked.key.value, t.leagueId, i)
  }

  /** A catalogue entry that passes the filter stands for this target. */
  ghost predicate Lists(request: Request, c: Competition, t: Target) {
    && t.leagueId == c.leagueId
    && (request.competitions == [] || c.key in request.competitions)
    && if request.seasons == [] then t.season == c.season else t.season in request.seasons
  }

  /**
   * The targets of a request: each once, and exactly those with a positive league and season that
   * it names, or, if it names none, that the filtered catalogue lists.
   */
  lemma ResolutionIsExact(request: Request, catalogue: seq<Competition>, t: Target)
    ensures Distinct(ResolvedTargets(Candidates(request, catalogue)))
    ensures t in ResolvedTargets(Candidates(request, catalogue))
            <==> && t.leagueId > 0 && t.season > 0
                 && if request.targets != [] then exists a <- request.targets :: Names(catalogue, a, t)
                    else exists c <- catalogue :: Lists(request, c, t)
  {
    ResolvedTargetsAreDistinct(Candidates(request, catalogue));
    if t.leagueId > 0 {
      if request.targets != [] {
        AskedMeans(catalogue, request.targets, t);
      } else {
        ExpandedMeans(request, catalogue, t);
      }
    }
  }

  lemma {:induction false} ResolvedGrows(xs: seq<Target>, ys: seq<Target>)
    ensures ResolvedTargets(xs) <= ResolvedTargets(xs + ys)
    decreases |ys|
  {
    if ys == [] {
      assert xs + ys == xs;
    } else {
      var init := ys[..|ys| - 1];
      ResolvedGrows(xs, init);
      assert xs + ys == (xs + init) + [ys[|ys| - 1]];
      ResolvedAppend(xs + init, ys[|ys| - 1]);
    }
  }

  /**
   * A target keeps the place of its first mention: one more asked target, catalogue entry or season
   * only appends.
   */
  lemma {:induction false} ResolutionKeepsOrder(request: Request, catalogue: seq<Competition>, a: Asked,
                                                c: Competition, season: int)
    ensures request.targets != [] ==>
              ResolvedTargets(Candidates(request, catalogue))
              <= ResolvedTargets(Candidates(request.(targets := request.targets + [a]), catalogue))
    ensures request.targets == [] ==>
              ResolvedTargets(Candidates(request, catalogue))
              <= ResolvedTargets(Candidates(request, catalogue + [c]))
    ensures request.targets == [] && request.seasons != [] ==>
              ResolvedTargets(Candidates(request, [c]))
              <= ResolvedTargets(Candidates(request.(seasons := request.seasons + [season]), [c]))
  {
    if request.targets != [] {
      assert (request.targets + [a])[..|request.targets|] == request.targets;
      ResolvedGrows(AskedTargets(catalogue, request.targets), [ResolveOneTarget(catalogue, a)]);
    } else {
      assert (catalogue + [c])[..|catalogue|] == catalogue;
      ResolvedGrows(Expanded(request, catalogue), InSeasons(c.leagueId, SeasonsOf(request, c)));
      if request.seasons != [] { MoreSeasons(request, c, season); }
    }
  }

  lemma {:induction false} MoreSeasons(request: Request, c: Competition, season: int)
    requires request.targets == [] && request.seasons != []
    ensures ResolvedTargets(Candidates(request, [c]))
         <= ResolvedTargets(Candidates(request.(seasons := request.seasons + [season]), [c]))
  {
    var more := request.(seasons := request.seasons + [season]);
    assert more.seasons[..|request.seasons|] == request.seasons;
    assert [c][..0] == [] && Expanded(request, [c][..0]) == [] == Expanded(more, [c][..0]);
    var here := InSeasons(c.leagueId, SeasonsOf(request, c));
    assert Expanded(request, [c]) == here;
    if SeasonsOf(request, c) == [] {
      assert Expanded(more, [c]) == Expanded(request, [c]);
    } else {
      assert Expanded(more, [c]) == here + [Target(c.leagueId, season)];
      ResolvedGrows(here, [Target(c.leagueId, season)]);
    }
  }

  lemma {:induction false} ResolvedAppend(xs: seq<Target>, t: Target)
    ensures ResolvedTargets(xs + [t]) == Pushed(ResolvedTargets(xs), t)
  {
    assert (xs + [t])[..|xs|] == xs;
  }
}
