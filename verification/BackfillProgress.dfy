/** Repeated invocations finish: the measure every run lowers, and how many runs a season needs. */
module BackfillProgress {
  import opened Wrappers
  import opened Tally
  import opened Quota
  import opened SeasonBackfill
  import opened BackfillExactlyOnce

  /** Nothing throws and nothing reports the hard cap. */
  ghost predicate Calm(env: Env) {
    forall tick: nat :: env(tick).Gave? && env(tick).result.quota.posture != HardCapReached
  }

  /** How many fixtures a budget of `remaining` starts, at five calls each. */
  function Slots(remaining: int): nat { if remaining <= 0 then 0 else (remaining + 4) / 5 }

  // ---------------------------------------------------------------------------------
  // One target in a calm run.

  lemma CalmFetch(env: Env, at: At, f: Fetch)
    requires Calm(env) && !Stopped(at)
    ensures var to := FetchInto(env, at, f);
            && !Stopped(to) && to.w == at.w.(tick := at.w.tick + 1, calls := at.w.calls + [f],
                                             got := at.w.got + [(f, env(at.w.tick).result)],
                                             remaining := at.w.remaining - 1)
            && to.b.processed == at.b.processed
  {
    assert env(at.w.tick).Gave?;
    FetchAbortsIff(env, at, f);
  }

  lemma {:induction false} CalmFixture(env: Env, at: At, id: string, j: nat)
    requires Calm(env) && !Stopped(at) && j <= 5
    ensures var to := ProcessFixture(env, at, id, j);
            !Stopped(to) && to.w.remaining == at.w.remaining - (5 - j) && to.w.cursors == at.w.cursors
    decreases 5 - j
  {
    if j < 5 {
      CalmFetch(env, at, Fetch(FIXTURE_WORKLOADS[j], id));
      CalmFixture(env, FetchInto(env, at, Fetch(FIXTURE_WORKLOADS[j], id)), id, j + 1);
    }
  }

  /** Other targets' cursors are left alone. */
  ghost predicate OnlyChanges(before: Cursors, after: Cursors, t: Target) {
    forall u: Target :: u != t ==> CursorOf(after, u) == CursorOf(before, u)
  }

  lemma CalmWalkOne(env: Env, at: At, c: Cursor)
    requires Calm(env) && !Stopped(at) && Sound(c) && c.nextIndex < |c.fixtureIds|
    ensures var (to, c') := WalkOne(env, at, c, c.nextIndex);
            OneWalked(at, c, to, c') && Sound(c')
  {
    var id := c.fixtureIds[c.nextIndex];
    var begun := At(at.w.(begun := at.w.begun + [(KeyOf(c), id)]), at.b);
    CalmFixture(env, begun, id, 0);
    var done := ProcessFixture(env, begun, id, 0);
    assert env(done.w.tick).Gave?;
    assert KeyOf(c.(nextIndex := c.nextIndex + 1)) == KeyOf(c);
  }

  /** Where a calm walk stops, and what it spends. */
  ghost predicate CalmWalked(at: At, c: Cursor, to: At, c': Cursor) {
    var reached := Min(|c.fixtureIds|, c.nextIndex + Slots(at.w.remaining));
    && !Stopped(to) && c' == c.(nextIndex := reached)
    && to.w.remaining == at.w.remaining - 5 * (reached - c.nextIndex)
    && CursorOf(to.w.cursors, KeyOf(c)) == Some(c') && OnlyChanges(at.w.cursors, to.w.cursors, KeyOf(c))
  }

  lemma SlotsPeel(n: nat, i: nat, remaining: int)
    requires i < n && remaining > 0
    ensures Slots(remaining) == 1 + Slots(remaining - 5)
    ensures Min(n, i + Slots(remaining)) == Min(n, i + 1 + Slots(remaining - 5))
  {
  }

  /** One fixture done, cursor saved. */
  ghost predicate OneWalked(at: At, c: Cursor, to: At, c': Cursor) {
    && !Stopped(to) && c' == c.(nextIndex := c.nextIndex + 1)
    && to.w.remaining == at.w.remaining - 5
    && CursorOf(to.w.cursors, KeyOf(c)) == Some(c') && OnlyChanges(at.w.cursors, to.w.cursors, KeyOf(c))
  }

  lemma OneThenTheRest(at: At, c: Cursor, mid: At, c1: Cursor, to: At, c': Cursor)
    requires 0 <= c.nextIndex < |c.fixtureIds| && at.w.remaining > 0
    requires OneWalked(at, c, mid, c1) && CalmWalked(mid, c1, to, c')
    ensures CalmWalked(at, c, to, c')
  {
    assert KeyOf(c1) == KeyOf(c);
    SlotsPeel(|c.fixtureIds|, c.nextIndex, at.w.remaining);
  }

  lemma {:induction false} CalmWalk(env: Env, at: At, c: Cursor)
    requires Calm(env) && !Stopped(at) && Sound(c) && CursorOf(at.w.cursors, KeyOf(c)) == Some(c)
    ensures CalmWalked(at, c, WalkFixtures(env, at, c, c.nextIndex).0, WalkFixtures(env, at, c, c.nextIndex).1)
    decreases |c.fixtureIds| - c.nextIndex
  {
    if c.nextIndex < |c.fixtureIds| && at.w.remaining > 0 {
      CalmWalkOne(env, at, c);
      var (mid, c1) := WalkOne(env, at, c, c.nextIndex);
      CalmWalk(env, mid, c1);
      var (to, c') := WalkFixtures(env, mid, c1, c1.nextIndex);
      OneThenTheRest(at, c, mid, c1, to, c');
    }
  }

  /** What one calm target leaves behind, given the cursor and budget it starts from. */
  ghost predicate CalmResult(env: Env, w: World, t: Target, to: Progress) {
    && !Stopped(to.at) && OnlyChanges(w.cursors, to.at.w.cursors, t)
    && match CursorOf(w.cursors, t)
       case Some(c) =>
         var reached := Min(|c.fixtureIds|, c.nextIndex + Slots(w.remaining));
         && CursorOf(to.at.w.cursors, t) == to.cursor == Some(c.(nextIndex := reached))
         && to.at.w.remaining == w.remaining - 5 * (reached - c.nextIndex)
       case None =>
         if w.remaining <= 1
         then CursorOf(to.at.w.cursors, t).None? && !IsCursorComplete(to.cursor)
             && to.at.w.remaining == Min(0, w.remaining)
         else
           && CursorOf(to.at.w.cursors, t) == to.cursor && to.cursor.Some? && Sound(to.cursor.value)
           && to.cursor.value.fixtureIds == DiscoveredIds(env(w.tick + 2))
           && to.cursor.value.nextIndex == Min(|to.cursor.value.fixtureIds|, Slots(w.remaining - 2))
           && to.at.w.remaining == w.remaining - 2 - 5 * to.cursor.value.nextIndex
  }

  lemma CalmEntry(env: Env, t: Target, w: World)
    requires Calm(env) && !w.crashed
    ensures Entry(env, t, false, w) == Progress(At(w.(tick := w.tick + 1), NO_BOOKS), CursorOf(w.cursors, t), false)
  {
    assert env(w.tick).Gave?;
  }

  lemma CalmPrepareResumed(env: Env, t: Target, s: Progress)
    requires !s.ended && s.cursor.Some? && Sound(s.cursor.value)
    ensures Prepare(env, t, s) == s
  {
  }

  lemma {:induction false} CalmPrepareFresh(env: Env, t: Target, s: Progress)
    requires Calm(env) && !Stopped(s.at) && !s.ended && s.cursor.None?
    ensures var to := Prepare(env, t, s);
            && !Stopped(to.at)
            && (if s.at.w.remaining <= 1
                then to.ended && !IsCursorComplete(to.cursor) && to.at.w.cursors == s.at.w.cursors
                     && to.at.w.remaining == Min(0, s.at.w.remaining)
                else && !to.ended && to.at.w.remaining == s.at.w.remaining - 2
                     && to.cursor.Some? && Sound(to.cursor.value) && to.cursor.value.nextIndex == 0
                         && KeyOf(to.cursor.value) == t
                     && to.cursor.value.fixtureIds == DiscoveredIds(env(s.at.w.tick + 1))
                     && CursorOf(to.at.w.cursors, t) == to.cursor && OnlyChanges(s.at.w.cursors, to.at.w.cursors, t))
  {
    if s.at.w.remaining > 0 {
      CalmFetch(env, s.at, StandingsFetch(t));
      var s1 := StandingsStep(env, t, s);
      if s1.at.w.remaining > 0 {
        var tick := s1.at.w.tick;
        CalmFetch(env, s1.at, SeasonFixturesFetch(t));
        assert env(tick).Gave? && env(tick + 1).Gave?;
        FinalisedIdsAreExact([]);
        if env(tick).result.data.Some? { FinalisedIdsAreExact(env(tick).result.data.value); }
        assert KeyOf(DiscoveryStep(env, t, s1).cursor.value) == t;
      }
    }
  }

  lemma {:induction false} CalmTargetResumed(env: Env, t: Target, w: World)
    requires Calm(env) && !w.crashed && SoundStore(w.cursors) && CursorOf(w.cursors, t).Some?
    ensures CalmResult(env, w, t, BackfillTarget(env, t, false, w))
  {
    CalmEntry(env, t, w);
    var s := Entry(env, t, false, w);
    var c := s.cursor.value;
    assert KeyOf(c) == t;
    CalmPrepareResumed(env, t, s);
    CalmWalk(env, s.at, c);
    var (to, c') := WalkFixtures(env, s.at, c, c.nextIndex);
    WalkedResult(env, w, s.at, c, to, c');
    assert WalkStep(env, s) == Progress(to, Some(c'), true);
  }

  lemma {:induction false} WalkedResult(env: Env, w: World, at: At, c: Cursor, to: At, c': Cursor)
    requires at.w == w.(tick := w.tick + 1) && CursorOf(w.cursors, KeyOf(c)) == Some(c)
    requires CalmWalked(at, c, to, c')
    ensures CalmResult(env, w, KeyOf(c), Progress(to, Some(c'), true))
  {
  }

  /** The walk of a season just discovered. */
  lemma {:induction false} CalmFreshWalk(env: Env, t: Target, s: Progress, p: Progress)
    requires Calm(env) && !Stopped(s.at) && !s.ended && s.cursor.None? && s.at.w.remaining > 1
    requires p == Prepare(env, t, s)
    ensures var to := WalkStep(env, p);
            && !Stopped(to.at) && OnlyChanges(s.at.w.cursors, to.at.w.cursors, t)
            && CursorOf(to.at.w.cursors, t) == to.cursor && to.cursor.Some? && Sound(to.cursor.value)
            && to.cursor.value.fixtureIds == DiscoveredIds(env(s.at.w.tick + 1))
            && to.cursor.value.nextIndex == Min(|to.cursor.value.fixtureIds|, Slots(s.at.w.remaining - 2))
            && to.at.w.remaining == s.at.w.remaining - 2 - 5 * to.cursor.value.nextIndex
  {
    CalmPrepareFresh(env, t, s);
    CalmWalk(env, p.at, p.cursor.value);
  }

  lemma {:induction false} CalmTargetFresh(env: Env, t: Target, w: World)
    requires Calm(env) && !w.crashed && CursorOf(w.cursors, t).None?
    ensures CalmResult(env, w, t, BackfillTarget(env, t, false, w))
  {
    CalmEntry(env, t, w);
    var s := Entry(env, t, false, w);
    if w.remaining > 1 {
      CalmFreshWalk(env, t, s, Prepare(env, t, s));
    } else {
      CalmPrepareFresh(env, t, s);
    }
  }

  lemma CalmTarget(env: Env, t: Target, w: World)
    requires Calm(env) && !w.crashed && SoundStore(w.cursors)
    ensures CalmResult(env, w, t, BackfillTarget(env, t, false, w))
  {
    if CursorOf(w.cursors, t).Some? {
      CalmTargetResumed(env, t, w);
    } else {
      CalmTargetFresh(env, t, w);
    }
  }

  // ---------------------------------------------------------------------------------
  // The measure.

  function Undiscovered(cursors: Cursors, targets: seq<Target>): nat {
    if targets == [] then 0
    else (if CursorOf(cursors, targets[0]).None? then 1 else 0) + Undiscovered(cursors, targets[1..])
  }

  function LeftOf(cursor: Option<Cursor>): nat {
    if cursor.Some? then Max(0, |cursor.value.fixtureIds| - cursor.value.nextIndex) else 0
  }

  function Unprocessed(cursors: Cursors, targets: seq<Target>): nat {
    if targets == [] then 0 else LeftOf(CursorOf(cursors, targets[0])) + Unprocessed(cursors, targets[1..])
  }

  function AllComplete(cursors: Cursors, targets: seq<Target>): bool {
    forall t <- targets :: IsCursorComplete(CursorOf(cursors, t))
  }

  /** Whether the first target that is not complete has been discovered. */
  function FirstIncompleteIsDiscovered(cursors: Cursors, targets: seq<Target>): bool {
    if targets == [] then false
    else if IsCursorComplete(CursorOf(cursors, targets[0])) then FirstIncompleteIsDiscovered(cursors, targets[1..])
    else CursorOf(cursors, targets[0]).Some?
  }

  /** Lexicographic: fewer undiscovered targets, or as many and fewer fixtures left. */
  ghost predicate Lower(after: Cursors, before: Cursors, targets: seq<Target>) {
    || Undiscovered(after, targets) < Undiscovered(before, targets)
    || (Undiscovered(after, targets) == Undiscovered(before, targets)
        && Unprocessed(after, targets) < Unprocessed(before, targets))
  }

  lemma {:induction false} MeasureFrame(a: Cursors, b: Cursors, targets: seq<Target>)
    requires forall t <- targets :: CursorOf(a, t) == CursorOf(b, t)
    ensures Undiscovered(a, targets) == Undiscovered(b, targets) && Unprocessed(a, targets) == Unprocessed(b, targets)
    ensures AllComplete(a, targets) == AllComplete(b, targets)
    ensures FirstIncompleteIsDiscovered(a, targets) == FirstIncompleteIsDiscovered(b, targets)
  {
    if targets != [] {
      MeasureFrame(a, b, targets[1..]);
      assert forall t :: t in targets <==> t == targets[0] || t in targets[1..];
    }
  }

  /** Changing the head's cursor and then only the tail's. */
  ghost predicate Splits(before: Cursors, mid: Cursors, after: Cursors, targets: seq<Target>) {
    && targets != [] && Distinct(targets)
    && OnlyChanges(before, mid, targets[0])
    && CursorOf(after, targets[0]) == CursorOf(mid, targets[0])
  }

  lemma MeasureSplits(before: Cursors, mid: Cursors, after: Cursors, targets: seq<Target>)
    requires Splits(before, mid, after, targets)
    ensures var (t, rest) := (targets[0], targets[1..]);
            && Undiscovered(mid, rest) == Undiscovered(before, rest)
                && Unprocessed(mid, rest) == Unprocessed(before, rest)
            && AllComplete(mid, rest) == AllComplete(before, rest)
            && FirstIncompleteIsDiscovered(mid, rest) == FirstIncompleteIsDiscovered(before, rest)
            && Distinct(rest) && t !in rest
            && (AllComplete(before, targets) <==> IsCursorComplete(CursorOf(before, t)) && AllComplete(before, rest))
            && (AllComplete(after, targets) <==> IsCursorComplete(CursorOf(mid, t)) && AllComplete(after, rest))
  {
    var rest := targets[1..];
    assert forall i :: 0 <= i < |rest| ==> rest[i] == targets[i + 1] && rest[i] != targets[0];
    MeasureFrame(mid, before, rest);
    assert forall t :: t in targets <==> t == targets[0] || t in rest;
  }

  /** Whether a run with this budget and flags can move the measure of the targets. */
  ghost predicate WillProgress(run: Run, targets: seq<Target>) {
    && !run.report.halted && !AllComplete(run.w.cursors, targets)
    && (run.w.remaining >= 2 || FirstIncompleteIsDiscovered(run.w.cursors, targets))
  }

  ghost predicate CalmRun(run: Run) {
    !run.w.crashed && !run.report.aborted && (run.report.halted || run.w.remaining > 0) && SoundStore(run.w.cursors)
  }

  /** One target of a calm run, seen through its cursor. */
  lemma CalmRunOne(env: Env, t: Target, run: Run)
    requires Calm(env) && CalmRun(run)
    ensures var to := RunOne(env, t, false, run);
            var (before, after) := (CursorOf(run.w.cursors, t), CursorOf(to.w.cursors, t));
            && CalmRun(to) && OnlyChanges(run.w.cursors, to.w.cursors, t)
            && to.report.targets == run.report.targets + [to.report.targets[|run.report.targets|]]
            && (to.report.targets[|run.report.targets|].complete <==> IsCursorComplete(after))
            && (if before.None? && after.Some? then !run.report.halted && run.w.remaining >= 2
                else if before == after then
                  (run.report.halted || (before.None? && run.w.remaining < 2 && to.report.halted)
                   || (IsCursorComplete(before) && to.w.remaining == run.w.remaining && !to.report.halted))
                else before.Some? && after.Some? && LeftOf(after) < LeftOf(before) && !run.report.halted)
            && (run.report.halted ==> to.report.halted && before == after)
  {
    assert env(run.w.tick).Gave?;
    if !run.report.halted {
      CalmTarget(env, t, run.w);
      var s := BackfillTarget(env, t, false, run.w);
      if CursorOf(run.w.cursors, t).Some? {
        assert Sound(CursorOf(run.w.cursors, t).value);
        assert Slots(run.w.remaining) >= 1;
      }
      assert SoundStore(s.at.w.cursors) by {
        forall u: Target | CursorOf(s.at.w.cursors, u).Some?
          ensures Sound(CursorOf(s.at.w.cursors, u).value)
        {
          if u != t { assert CursorOf(s.at.w.cursors, u) == CursorOf(run.w.cursors, u); }
        }
      }
    }
  }

  lemma RestIsDistinct(targets: seq<Target>)
    requires Distinct(targets) && targets != []
    ensures Distinct(targets[1..]) && targets[0] !in targets[1..]
  {
    assert forall i :: 0 <= i < |targets[1..]| ==> targets[1..][i] == targets[i + 1] && targets[1..][i] != targets[0];
  }

  lemma OneMoreComplete(results: seq<Summary>, last: Summary)
    ensures EveryComplete(results + [last]) <==> EveryComplete(results) && last.complete
  {
    assert last in results + [last];
  }

  lemma {:induction false} CalmRunMeasure(env: Env, targets: seq<Target>, run: Run)
    requires Calm(env) && CalmRun(run) && Distinct(targets)
    ensures var to := RunTargets(env, targets, false, run);
            && CalmRun(to)
            && (forall u: Target :: u !in targets ==> CursorOf(to.w.cursors, u) == CursorOf(run.w.cursors, u))
            && (if WillProgress(run, targets) then Lower(to.w.cursors, run.w.cursors, targets)
                else forall u: Target :: CursorOf(to.w.cursors, u) == CursorOf(run.w.cursors, u))
            && (EveryComplete(to.report.targets) <==>
                EveryComplete(run.report.targets) && AllComplete(to.w.cursors, targets))
    decreases |targets|
  {
    if targets != [] {
      var t, rest := targets[0], targets[1..];
      var mid := RunOne(env, t, false, run);
      CalmRunOne(env, t, run);
      RestIsDistinct(targets);
      CalmRunMeasure(env, rest, mid);
      var to := RunTargets(env, rest, false, mid);
      assert to == RunTargets(env, targets, false, run);
      assert CursorOf(to.w.cursors, t) == CursorOf(mid.w.cursors, t);
      MeasureSplits(run.w.cursors, mid.w.cursors, to.w.cursors, targets);
      OneMoreComplete(run.report.targets, mid.report.targets[|run.report.targets|]);
      CalmRunCase(run, mid, to, targets);
    }
  }

  /** The arithmetic of one more target in front. */
  lemma {:induction false} CalmRunCase(run: Run, mid: Run, to: Run, targets: seq<Target>)
    requires CalmRun(run) && CalmRun(mid) && Splits(run.w.cursors, mid.w.cursors, to.w.cursors, targets)
    requires var (before, after) := (CursorOf(run.w.cursors, targets[0]), CursorOf(mid.w.cursors, targets[0]));
             && (if before.None? && after.Some? then !run.report.halted && run.w.remaining >= 2
                 else if before == after then
                   (run.report.halted || (before.None? && run.w.remaining < 2 && mid.report.halted)
                    || (IsCursorComplete(before) && mid.w.remaining == run.w.remaining && !mid.report.halted))
                 else before.Some? && after.Some? && LeftOf(after) < LeftOf(before) && !run.report.halted)
             && (run.report.halted ==> mid.report.halted && before == after)
    requires forall u: Target :: u !in targets[1..] ==> CursorOf(to.w.cursors, u) == CursorOf(mid.w.cursors, u)
    requires if WillProgress(mid, targets[1..]) then Lower(to.w.cursors, mid.w.cursors, targets[1..])
             else forall u: Target :: CursorOf(to.w.cursors, u) == CursorOf(mid.w.cursors, u)
    ensures if WillProgress(run, targets) then Lower(to.w.cursors, run.w.cursors, targets)
            else forall u: Target :: CursorOf(to.w.cursors, u) == CursorOf(run.w.cursors, u)
  {
    MeasureSplits(run.w.cursors, mid.w.cursors, to.w.cursors, targets);
    if !WillProgress(mid, targets[1..]) {
      MeasureFrame(to.w.cursors, mid.w.cursors, targets[1..]);
    }
    var before, after := CursorOf(run.w.cursors, targets[0]), CursorOf(mid.w.cursors, targets[0]);
    if before == after {
      assert forall u: Target :: CursorOf(mid.w.cursors, u) == CursorOf(run.w.cursors, u);
    } else {
      assert before.Some? ==> !IsCursorComplete(before);
    }
  }

  // ---------------------------------------------------------------------------------
  // Whole invocations.

  /**
   * A calm run on targets that are not all complete lowers the measure exactly when its
   * ceiling is at least two or the first incomplete target is already discovered; otherwise
   * it leaves every cursor as it was. It reports `complete` exactly when all targets are.
   */
  lemma RunMakesProgressIff(session: Session, cursors: Cursors)
    requires Calm(session.env) && SoundStore(cursors) && Distinct(session.targets) && session.maxCalls > 0
    ensures var run := RunWorkflow(session.env, session.targets, false, session.maxCalls, cursors);
            && SoundStore(run.w.cursors) && !run.w.crashed
            && (StatusOf(run.report) == Complete <==> AllComplete(run.w.cursors, session.targets))
            && (!AllComplete(cursors, session.targets) ==>
                  (Lower(run.w.cursors, cursors, session.targets)
                   <==> session.maxCalls >= 2 || FirstIncompleteIsDiscovered(cursors, session.targets)))
            && (AllComplete(cursors, session.targets)
                || !(session.maxCalls >= 2 || FirstIncompleteIsDiscovered(cursors, session.targets)) ==>
                  forall u: Target :: CursorOf(run.w.cursors, u) == CursorOf(cursors, u))
  {
    var start := Run(FreshWorld(cursors, session.maxCalls), EMPTY_REPORT);
    CalmRunMeasure(session.env, session.targets, start);
    var run := RunWorkflow(session.env, session.targets, false, session.maxCalls, cursors);
    if !WillProgress(start, session.targets) {
      MeasureFrame(run.w.cursors, cursors, session.targets);
    }
  }

  /** With a ceiling of one call, a season not yet discovered is never discovered, however many runs. */
  lemma {:induction false} CeilingOfOneNeverStarts(cursors: Cursors, sessions: seq<Session>, targets: seq<Target>)
    requires SoundStore(cursors) && Distinct(targets)
    requires !AllComplete(cursors, targets) && !FirstIncompleteIsDiscovered(cursors, targets)
    requires forall session <- sessions :: Calm(session.env) && session.targets == targets && session.maxCalls == 1
    ensures forall u: Target :: CursorOf(AfterSessions(cursors, sessions), u) == CursorOf(cursors, u)
    ensures !AllComplete(AfterSessions(cursors, sessions), targets)
    decreases |sessions|
  {
    if sessions != [] {
      RunMakesProgressIff(sessions[0], cursors);
      var next := RunSession(sessions[0], cursors).cursors;
      MeasureFrame(next, cursors, targets);
      CeilingOfOneNeverStarts(next, sessions[1..], targets);
    }
  }

  /** A complete season costs nothing more: no fetch, no checkpoint, whatever would be answered. */
  lemma CompleteTargetIsLeftAlone(env: Env, t: Target, w: World)
    requires SoundStore(w.cursors) && IsCursorComplete(CursorOf(w.cursors, t)) && !w.crashed
    ensures var to := BackfillTarget(env, t, false, w);
            && to.at.w.calls == w.calls && to.at.w.cursors == w.cursors && to.at.w.begun == w.begun
            && to.at.b == NO_BOOKS && to.at.w.remaining == w.remaining
            && (!to.at.w.crashed ==> Finalize(t, to.cursor, to.at.b).summary.complete)
  {
    var c := CursorOf(w.cursors, t).value;
    assert Sound(c);
    assert WalkFixtures(env, At(w.(tick := w.tick + 1), NO_BOOKS), c, c.nextIndex).0.w.calls == w.calls;
  }

  // ---------------------------------------------------------------------------------
  // How many runs one season takes.

  function SeasonSize(cursor: Option<Cursor>): nat { if cursor.Some? then |cursor.value.fixtureIds| else 0 }

  /** A run of one target is that target's backfill, from a fresh budget. */
  lemma {:induction false} SingleTargetRun(session: Session, t: Target, cursors: Cursors)
    requires session.targets == [t]
    requires !BackfillTarget(session.env, t, false, FreshWorld(cursors, session.maxCalls)).at.w.crashed
    ensures RunSession(session, cursors)
         == BackfillTarget(session.env, t, false, FreshWorld(cursors, session.maxCalls)).at.w
  {
    assert session.targets[1..] == [];
    var next := RunOne(session.env, t, false, Run(FreshWorld(cursors, session.maxCalls), EMPTY_REPORT));
    assert RunTargets(session.env, session.targets[1..], false, next) == next;
  }

  lemma {:induction false} OneSeasonRun(session: Session, t: Target, cursors: Cursors)
    requires Calm(session.env) && SoundStore(cursors) && session.targets == [t] && session.maxCalls >= 2
    ensures var before, after := CursorOf(cursors, t), CursorOf(RunSession(session, cursors).cursors, t);
            && SoundStore(RunSession(session, cursors).cursors)
            && after.Some?
            && (before.Some? ==> after == Some(Advanced(before.value, Slots(session.maxCalls))))
  {
    var w := FreshWorld(cursors, session.maxCalls);
    SessionIsFaithful(session, cursors);
    CalmTarget(session.env, t, w);
    SingleTargetRun(session, t, cursors);
    SeasonResult(session.env, w, t, BackfillTarget(session.env, t, false, w));
  }

  /** The cursor after `slots` further fixtures, up to the end of the list. */
  function Advanced(c: Cursor, slots: nat): Cursor { c.(nextIndex := Min(|c.fixtureIds|, c.nextIndex + slots)) }

  lemma {:induction false} SeasonResult(env: Env, w: World, t: Target, to: Progress)
    requires CalmResult(env, w, t, to) && w.remaining >= 2
    ensures CursorOf(to.at.w.cursors, t).Some?
    ensures CursorOf(w.cursors, t).Some? ==>
              CursorOf(to.at.w.cursors, t) == Some(Advanced(CursorOf(w.cursors, t).value, Slots(w.remaining)))
  {
  }

  lemma SlotsCompose(n: nat, x: int, c: nat, k: nat)
    ensures Min(n, Min(n, x + k * c) + c) == Min(n, x + (k + 1) * c)
  {
    assert (k + 1) * c == c + k * c;
  }

  ghost predicate CalmSession(session: Session, t: Target, maxCalls: int) {
    Calm(session.env) && session.targets == [t] && session.maxCalls == maxCalls
  }

  ghost predicate CalmSeason(sessions: seq<Session>, t: Target, maxCalls: int) {
    forall i :: 0 <= i < |sessions| ==> CalmSession(sessions[i], t, maxCalls)
  }

  function Fold<S, W>(run: (S, W) -> W, sessions: seq<S>, w: W): W
    decreases |sessions|
  {
    if sessions == [] then w else Fold(run, sessions[1..], run(sessions[0], w))
  }

  /** An invariant of (runs done, store) that every listed session keeps holds after all of them. */
  lemma {:induction false} FoldKeeps<S, W>(run: (S, W) -> W, sessions: seq<S>, w: W, k: nat, inv: (nat, W) -> bool)
    requires inv(k, w)
    requires forall i, j: nat, v :: 0 <= i < |sessions| && inv(j, v) ==> inv(j + 1, run(sessions[i], v))
    ensures inv(k + |sessions|, Fold(run, sessions, w))
    decreases |sessions|
  {
    if sessions != [] {
      var rest := sessions[1..];
      assert forall i :: 0 <= i < |rest| ==> rest[i] == sessions[i + 1];
      FoldKeeps(run, rest, run(sessions[0], w), k + 1, inv);
    }
  }

  function NextStore(session: Session, store: Cursors): Cursors { RunSession(session, store).cursors }

  lemma {:induction false} AfterSessionsFolds(cursors: Cursors, sessions: seq<Session>)
    ensures AfterSessions(cursors, sessions) == Fold(NextStore, sessions, cursors)
    decreases |sessions|
  {
    if sessions != [] { AfterSessionsFolds(NextStore(sessions[0], cursors), sessions[1..]); }
  }

  /** The season after `k` runs, each of which takes up to `slots` fixtures. */
  ghost predicate SeasonAt(store: Cursors, t: Target, c: Cursor, slots: nat, k: nat) {
    SoundStore(store) && CursorOf(store, t) == Some(Advanced(c, k * slots))
  }

  lemma {:induction false} SeasonStep(session: Session, t: Target, maxCalls: int, store: Cursors, c: Cursor, k: nat)
    requires CalmSession(session, t, maxCalls) && maxCalls >= 2 && SeasonAt(store, t, c, Slots(maxCalls), k)
    ensures SeasonAt(RunSession(session, store).cursors, t, c, Slots(maxCalls), k + 1)
  {
    var at := Advanced(c, k * Slots(maxCalls));
    OneSeasonRun(session, t, store);
    SlotsCompose(|c.fixtureIds|, c.nextIndex, Slots(maxCalls), k);
    assert Advanced(at, Slots(maxCalls)) == Advanced(c, (k + 1) * Slots(maxCalls));
  }

  lemma SeasonsFold(sessions: seq<Session>, t: Target, maxCalls: int, cursors: Cursors, c: Cursor,
                    run: (Session, Cursors) -> Cursors)
    requires CalmSeason(sessions, t, maxCalls) && SeasonAt(cursors, t, c, Slots(maxCalls), 0)
    requires forall s, store, k: nat :: CalmSession(s, t, maxCalls) && SeasonAt(store, t, c, Slots(maxCalls), k) ==>
               SeasonAt(run(s, store), t, c, Slots(maxCalls), k + 1)
    ensures SeasonAt(Fold(run, sessions, cursors), t, c, Slots(maxCalls), |sessions|)
  {
    FoldKeeps(run, sessions, cursors, 0, (k: nat, store: Cursors) => SeasonAt(store, t, c, Slots(maxCalls), k));
  }

  /** From a discovered season, `k` runs with one ceiling move the cursor by `k` times its slots. */
  lemma SeasonRunsAdvance(sessions: seq<Session>, t: Target, maxCalls: int, cursors: Cursors, c: Cursor)
    requires SeasonAt(cursors, t, c, Slots(maxCalls), 0) && maxCalls >= 2
    requires CalmSeason(sessions, t, maxCalls)
    ensures SeasonAt(AfterSessions(cursors, sessions), t, c, Slots(maxCalls), |sessions|)
  {
    forall s, store, k: nat | CalmSession(s, t, maxCalls) && SeasonAt(store, t, c, Slots(maxCalls), k)
      ensures SeasonAt(NextStore(s, store), t, c, Slots(maxCalls), k + 1)
    {
      SeasonStep(s, t, maxCalls, store, c, k);
    }
    SeasonsFold(sessions, t, maxCalls, cursors, c, NextStore);
    AfterSessionsFolds(cursors, sessions);
  }

  /** The quotient rounded up. */
  function CeilDiv(n: nat, d: nat): nat
    requires d > 0
  {
    (n + d - 1) / d
  }

  lemma CeilDivCovers(n: nat, d: nat, k: nat)
    requires d > 0 && k >= CeilDiv(n, d)
    ensures n <= k * d
  {
    var q := CeilDiv(n, d);
    assert n + d - 1 == d * q + (n + d - 1) % d;
    assert (k - q) * d >= 0;
    assert k * d == q * d + (k - q) * d;
  }

  /** Enough runs reach the end of the season. */
  lemma SeasonAtEnd(store: Cursors, t: Target, c: Cursor, slots: nat, k: nat)
    requires SeasonAt(store, t, c, slots, k) && Sound(c) && slots > 0 && k >= CeilDiv(|c.fixtureIds|, slots)
    ensures IsCursorComplete(CursorOf(store, t))
  {
    CeilDivCovers(|c.fixtureIds|, slots, k);
  }

  lemma SeasonStarts(sessions: seq<Session>, t: Target, maxCalls: int, cursors: Cursors)
    requires SoundStore(cursors) && maxCalls >= 2 && sessions != [] && CalmSeason(sessions, t, maxCalls)
    ensures CalmSeason(sessions[1..], t, maxCalls)
    ensures var (next, slots) := (NextStore(sessions[0], cursors), Slots(maxCalls));
            CursorOf(next, t).Some? && Sound(CursorOf(next, t).value)
                && SeasonAt(next, t, CursorOf(next, t).value, slots, 0)
  {
    assert CalmSession(sessions[0], t, maxCalls);
    OneSeasonRun(sessions[0], t, cursors);
    assert forall i :: 0 <= i < |sessions[1..]| ==> sessions[1..][i] == sessions[i + 1];
  }

  lemma SeasonFinishes(sessions: seq<Session>, t: Target, maxCalls: int, next: Cursors, c: Cursor)
    requires SeasonAt(next, t, c, Slots(maxCalls), 0) && Sound(c) && maxCalls >= 2 && CalmSeason(sessions, t, maxCalls)
    requires |sessions| >= CeilDiv(|c.fixtureIds|, Slots(maxCalls))
    ensures IsCursorComplete(CursorOf(AfterSessions(next, sessions), t))
  {
    SeasonRunsAdvance(sessions, t, maxCalls, next, c);
    SeasonAtEnd(AfterSessions(next, sessions), t, c, Slots(maxCalls), |sessions|);
  }

  /**
   * However the first run finds the season (new, part done or done), if it then lists n
   * fixtures, 1 + ceil(n / ceil(max / 5)) calm runs complete it.
   */
  lemma SeasonCompletesWithin(sessions: seq<Session>, t: Target, maxCalls: int, cursors: Cursors)
    requires SoundStore(cursors) && maxCalls >= 2 && sessions != [] && CalmSeason(sessions, t, maxCalls)
    requires var n := SeasonSize(CursorOf(NextStore(sessions[0], cursors), t));
             |sessions| >= 1 + CeilDiv(n, Slots(maxCalls))
    ensures IsCursorComplete(CursorOf(AfterSessions(cursors, sessions), t))
  {
    var next := NextStore(sessions[0], cursors);
    SeasonStarts(sessions, t, maxCalls, cursors);
    SeasonFinishes(sessions[1..], t, maxCalls, next, CursorOf(next, t).value);
    assert AfterSessions(cursors, sessions) == AfterSessions(next, sessions[1..]);
  }

  // ---------------------------------------------------------------------------------
  // Any number of targets: enough calm runs complete them all.

  /** The cache after steps `from` to `from + n` of an endless supply of steps. */
  function AfterSteps(step: (nat, Cursors) -> Cursors, cursors: Cursors, from: nat, n: nat): Cursors
    decreases n
  {
    if n == 0 then cursors else AfterSteps(step, step(from, cursors), from + 1, n - 1)
  }

  /** Each step lowers the measure of the targets until they are all complete. */
  ghost predicate AlwaysLowers(step: (nat, Cursors) -> Cursors, targets: seq<Target>) {
    forall i: nat, store :: SoundStore(store) && !AllComplete(store, targets) ==>
      SoundStore(step(i, store)) && Lower(step(i, store), store, targets)
  }

  /** A lexicographic pair cannot fall forever. */
  lemma {:induction false} FallingEnds(step: (nat, Cursors) -> Cursors, targets: seq<Target>, cursors: Cursors,
                                       from: nat) returns (n: nat)
    requires AlwaysLowers(step, targets) && SoundStore(cursors)
    ensures AllComplete(AfterSteps(step, cursors, from, n), targets)
    decreases Undiscovered(cursors, targets), Unprocessed(cursors, targets)
  {
    if AllComplete(cursors, targets) {
      n := 0;
    } else {
      var m := FallingEnds(step, targets, step(from, cursors), from + 1);
      n := m + 1;
    }
  }

  ghost predicate CalmSupply(sessions: nat -> Session, targets: seq<Target>) {
    forall i: nat :: Calm(sessions(i).env) && sessions(i).targets == targets && sessions(i).maxCalls >= 2
  }

  lemma CalmRunLowers(session: Session, cursors: Cursors)
    requires Calm(session.env) && SoundStore(cursors) && Distinct(session.targets) && session.maxCalls >= 2
    requires !AllComplete(cursors, session.targets)
    ensures SoundStore(NextStore(session, cursors)) && Lower(NextStore(session, cursors), cursors, session.targets)
  {
    RunMakesProgressIff(session, cursors);
  }

  /** The cache before and after the ith run of a supply. */
  function RunsOf(sessions: nat -> Session): (nat, Cursors) -> Cursors {
    (i: nat, store: Cursors) => NextStore(sessions(i), store)
  }

  /**
   * Whatever the targets, and however the ceilings vary from run to run as long as they allow
   * two calls, finitely many calm runs complete every target.
   */
  lemma CalmRunsComplete(sessions: nat -> Session, targets: seq<Target>, cursors: Cursors) returns (n: nat)
    requires CalmSupply(sessions, targets) && SoundStore(cursors) && Distinct(targets)
    ensures AllComplete(AfterSteps(RunsOf(sessions), cursors, 0, n), targets)
  {
    forall i: nat, store | SoundStore(store) && !AllComplete(store, targets)
      ensures SoundStore(RunsOf(sessions)(i, store)) && Lower(RunsOf(sessions)(i, store), store, targets)
    {
      CalmRunLowers(sessions(i), store);
    }
    n := FallingEnds(RunsOf(sessions), targets, cursors, 0);
  }
}
