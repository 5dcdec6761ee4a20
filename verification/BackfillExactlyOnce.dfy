/** Each discovered fixture is imported once over any number of invocations, crashes included. */
module BackfillExactlyOnce {
  import opened Wrappers
  import opened Tally
  import opened Quota
  import opened FetchPipeline
  import opened Degrade
  import opened SeasonBackfill

  type Log = seq<(Target, string)>

  /** The ids logged for one target. */
  function ForTarget(log: Log, t: Target): seq<string> {
    if log == [] then []
    else
      var rest, last := ForTarget(log[..|log| - 1], t), log[|log| - 1];
      if last.0 == t then rest + [last.1] else rest
  }

  lemma {:induction false} ForTargetConcat(a: Log, b: Log, t: Target)
    ensures ForTarget(a + b, t) == ForTarget(a, t) + ForTarget(b, t)
    decreases |b|
  {
    if b == [] {
      assert a + b == a;
    } else {
      assert (a + b)[..|a + b| - 1] == a + b[..|b| - 1];
      ForTargetConcat(a, b[..|b| - 1], t);
    }
  }

  /** A cursor this workflow has written. */
  ghost predicate Sound(c: Cursor) {
    c.version == CURSOR_VERSION && c.discovered && c.standingsDone
    && 0 <= c.nextIndex <= |c.fixtureIds| && Distinct(c.fixtureIds)
  }

  ghost predicate SoundStore(cursors: Cursors) {
    forall t: Target :: CursorOf(cursors, t).Some? ==> Sound(CursorOf(cursors, t).value)
  }

  /** The fixtures the stored cursor says are done. */
  function Consumed(cursors: Cursors, t: Target): seq<string> {
    match CursorOf(cursors, t)
    case None => []
    case Some(c) => if 0 <= c.nextIndex <= |c.fixtureIds| then c.fixtureIds[..c.nextIndex] else []
  }

  /** Fixtures begun are fixtures saved, but for the last one of a run that crashed on it. */
  ghost predicate TornAtMostOnce(w: World) {
    || w.begun == w.saved
    || (w.crashed && |w.begun| == |w.saved| + 1 && w.begun[..|w.saved|] == w.saved
        && var torn := w.begun[|w.saved|];
           var c := CursorOf(w.cursors, torn.0);
           c.Some? && 0 <= c.value.nextIndex < |c.value.fixtureIds| && torn.1 == c.value.fixtureIds[c.value.nextIndex])
  }

  /** The invariant of a run begun with `before` in the cache. */
  ghost predicate Faithful(before: Cursors, w: World) {
    && SoundStore(w.cursors)
    && TornAtMostOnce(w)
    && (forall t: Target :: Consumed(w.cursors, t) == Consumed(before, t) + ForTarget(w.saved, t))
    && (forall t: Target :: CursorOf(before, t).Some? ==>
          CursorOf(w.cursors, t).Some?
          && CursorOf(w.cursors, t).value.fixtureIds == CursorOf(before, t).value.fixtureIds)
  }

  /** Fetching never touches cursors or the import history. */
  lemma {:induction false} FixtureTouchesNoCursor(env: Env, at: At, id: string, j: nat)
    requires j <= 5
    ensures var to := ProcessFixture(env, at, id, j).w;
            to.cursors == at.w.cursors && to.begun == at.w.begun && to.saved == at.w.saved
    decreases 5 - j
  {
    if j < 5 {
      var next := FetchInto(env, at, Fetch(FIXTURE_WORKLOADS[j], id));
      if !Stopped(next) {
        FixtureTouchesNoCursor(env, next, id, j + 1);
      }
    }
  }

  lemma ForTargetAppend(log: Log, key: Target, id: string, t: Target)
    ensures ForTarget(log + [(key, id)], t) == if t == key then ForTarget(log, t) + [id] else ForTarget(log, t)
  {
    assert (log + [(key, id)])[..|log|] == log;
  }

  /** A checkpoint moves the cursor of its own target by one fixture, and no other. */
  lemma CheckpointMoves(cursors: Cursors, c: Cursor, t: Target)
    requires CursorOf(cursors, KeyOf(c)) == Some(c) && Sound(c) && c.nextIndex < |c.fixtureIds|
    ensures var next := c.(nextIndex := c.nextIndex + 1);
            var cursors' := cursors[KeyOf(c) := Stored(next)];
            && CursorOf(cursors', t) == (if t == KeyOf(c) then Some(next) else CursorOf(cursors, t))
            && Consumed(cursors', t)
               == if t == KeyOf(c) then Consumed(cursors, t) + [c.fixtureIds[c.nextIndex]] else Consumed(cursors, t)
  {
    var next := c.(nextIndex := c.nextIndex + 1);
    assert KeyOf(next) == KeyOf(c);
    assert c.fixtureIds[..c.nextIndex + 1] == c.fixtureIds[..c.nextIndex] + [c.fixtureIds[c.nextIndex]];
  }

  /** Writing the next checkpoint of a target consumes exactly the fixture in between. */
  lemma CheckpointConsumesOne(before: Cursors, w: World, c: Cursor, w': World)
    requires !w.crashed && Faithful(before, w) && w.begun == w.saved
    requires CursorOf(w.cursors, KeyOf(c)) == Some(c) && c.nextIndex < |c.fixtureIds|
    requires w'.cursors == w.cursors[KeyOf(c) := Stored(c.(nextIndex := c.nextIndex + 1))]
    requires w'.saved == w'.begun == w.saved + [(KeyOf(c), c.fixtureIds[c.nextIndex])]
    ensures Faithful(before, w')
  {
    assert Sound(c);
    forall t: Target
      ensures Consumed(w'.cursors, t) == Consumed(before, t) + ForTarget(w'.saved, t)
      ensures CursorOf(w'.cursors, t).Some? ==> Sound(CursorOf(w'.cursors, t).value)
      ensures CursorOf(before, t).Some? ==>
                CursorOf(w'.cursors, t).Some?
                && CursorOf(w'.cursors, t).value.fixtureIds == CursorOf(before, t).value.fixtureIds
    {
      assert Consumed(w.cursors, t) == Consumed(before, t) + ForTarget(w.saved, t);
      CheckpointMoves(w.cursors, c, t);
      ForTargetAppend(w.saved, KeyOf(c), c.fixtureIds[c.nextIndex], t);
    }
  }

  /** A fixture that is begun and not saved leaves the store as it was. */
  lemma {:induction false} TornIsFaithful(before: Cursors, w: World, c: Cursor, w': World)
    requires Faithful(before, w) && w.begun == w.saved
    requires CursorOf(w.cursors, KeyOf(c)) == Some(c) && 0 <= c.nextIndex < |c.fixtureIds|
    requires w'.cursors == w.cursors && w'.saved == w.saved && w'.crashed
    requires w'.begun == w.begun + [(KeyOf(c), c.fixtureIds[c.nextIndex])]
    ensures Faithful(before, w')
  {
    assert w'.begun[..|w'.saved|] == w'.saved;
  }

  /** The two ways a fixture of the walk ends: saved, or torn. */
  lemma {:induction false} WalkOneMoves(env: Env, at: At, c: Cursor)
    requires !at.w.crashed && at.w.begun == at.w.saved && 0 <= c.nextIndex < |c.fixtureIds|
    ensures var (to, c') := WalkOne(env, at, c, c.nextIndex);
            var (entry, next) := ((KeyOf(c), c.fixtureIds[c.nextIndex]), c.(nextIndex := c.nextIndex + 1));
            && to.w.begun == at.w.begun + [entry]
            && if to.w.saved == at.w.saved then to.w.crashed && to.w.cursors == at.w.cursors && c' == c
               else
                 && to.w.saved == at.w.saved + [entry] && c' == next
                 && to.w.cursors == at.w.cursors[KeyOf(c) := Stored(next)]
  {
    var id := c.fixtureIds[c.nextIndex];
    var begun := At(at.w.(begun := at.w.begun + [(KeyOf(c), id)]), at.b);
    FixtureTouchesNoCursor(env, begun, id, 0);
  }

  lemma {:induction false} WalkOneIsFaithful(env: Env, before: Cursors, at: At, c: Cursor)
    requires !at.w.crashed && Faithful(before, at.w) && at.w.begun == at.w.saved
    requires CursorOf(at.w.cursors, KeyOf(c)) == Some(c) && 0 <= c.nextIndex < |c.fixtureIds|
    ensures var (to, c') := WalkOne(env, at, c, c.nextIndex);
            && Faithful(before, to.w)
            && CursorOf(to.w.cursors, KeyOf(c)) == Some(c')
            && (!to.w.crashed ==> to.w.begun == to.w.saved && c' == c.(nextIndex := c.nextIndex + 1))
  {
    var (to, c') := WalkOne(env, at, c, c.nextIndex);
    WalkOneMoves(env, at, c);
    if to.w.saved == at.w.saved {
      TornIsFaithful(before, at.w, c, to.w);
    } else {
      CheckpointConsumesOne(before, at.w, c, to.w);
      assert Sound(c);
      CheckpointMoves(at.w.cursors, c, KeyOf(c));
    }
  }

  lemma {:induction false} WalkIsFaithful(env: Env, before: Cursors, at: At, c: Cursor)
    requires !at.w.crashed && Faithful(before, at.w) && at.w.begun == at.w.saved
    requires CursorOf(at.w.cursors, KeyOf(c)) == Some(c)
    ensures Faithful(before, WalkFixtures(env, at, c, c.nextIndex).0.w)
  {
    var between := (w: World, d: Cursor) =>
      Faithful(before, w) && w.begun == w.saved && CursorOf(w.cursors, KeyOf(d)) == Some(d);
    forall a: At, d: Cursor | WalksOn(a, d) && between(a.w, d)
      ensures var (to, d') := WalkOne(env, a, d, d.nextIndex);
              && Faithful(before, to.w)
              && (!to.w.crashed ==> d' == d.(nextIndex := d.nextIndex + 1) && between(to.w, d'))
    {
      assert Sound(d);
      WalkOneIsFaithful(env, before, a, d);
    }
    assert Sound(c);
    WalkKeeps(env, at, c, between, w => Faithful(before, w));
  }

  /** What holds between fixtures leads over the walk to what holds even after a throw. */
  lemma {:induction false} WalkKeeps(
    env: Env, at: At, c: Cursor, between: (World, Cursor) -> bool, always: World -> bool)
    requires 0 <= c.nextIndex && !at.w.crashed && between(at.w, c) && always(at.w)
    requires forall a: At, d: Cursor :: WalksOn(a, d) && between(a.w, d) ==>
               var (to, d') := WalkOne(env, a, d, d.nextIndex);
               && always(to.w)
               && (!to.w.crashed ==> d' == d.(nextIndex := d.nextIndex + 1) && between(to.w, d'))
    ensures always(WalkFixtures(env, at, c, c.nextIndex).0.w)
    decreases |c.fixtureIds| - c.nextIndex
  {
    if WalksOn(at, c) {
      var (to, c') := WalkOne(env, at, c, c.nextIndex);
      if !to.w.crashed { WalkKeeps(env, to, c', between, always); }
    }
  }

  predicate WalksOn(at: At, c: Cursor) {
    0 <= c.nextIndex < |c.fixtureIds| && !Stopped(at) && at.w.remaining > 0
  }

  /** Discovery stores a cursor that has consumed nothing, where there was none. */
  lemma DiscoveryIsFaithful(before: Cursors, w: World, c: Cursor, w': World)
    requires !w.crashed && Faithful(before, w) && w.begun == w.saved
    requires CursorOf(w.cursors, KeyOf(c)).None? && Sound(c) && c.nextIndex == 0
    requires w'.cursors == w.cursors[KeyOf(c) := Stored(c)] && w'.begun == w'.saved == w.saved
    ensures Faithful(before, w')
  {
    forall t: Target
      ensures Consumed(w'.cursors, t) == Consumed(before, t) + ForTarget(w'.saved, t)
      ensures CursorOf(w'.cursors, t).Some? ==> Sound(CursorOf(w'.cursors, t).value)
      ensures CursorOf(before, t).Some? ==>
                CursorOf(w'.cursors, t).Some?
                && CursorOf(w'.cursors, t).value.fixtureIds == CursorOf(before, t).value.fixtureIds
    {
      assert Consumed(w.cursors, t) == Consumed(before, t) + ForTarget(w.saved, t);
      if t != KeyOf(c) {
        assert CursorOf(w'.cursors, t) == CursorOf(w.cursors, t);
      }
    }
  }

  /** The standings step stores nothing and imports nothing. */
  lemma {:induction false} StandingsTouchNoCursor(env: Env, target: Target, s: Progress)
    ensures var to := StandingsStep(env, target, s).at.w;
            to.cursors == s.at.w.cursors && to.begun == s.at.w.begun && to.saved == s.at.w.saved
  {
  }

  lemma {:induction false} DiscoveredIdsAreDistinct(answer: Answer)
    ensures Distinct(DiscoveredIds(answer))
  {
    FinalisedIdsAreExact([]);
    if answer.Gave? && answer.result.data.Some? { FinalisedIdsAreExact(answer.result.data.value); }
  }

  /** The discovery step stores a fresh list under the target, or nothing. */
  lemma {:induction false} DiscoveryStores(env: Env, target: Target, s: Progress)
    requires s.cursor.Some? && s.cursor.value.standingsDone && !s.cursor.value.discovered
    ensures var to := DiscoveryStep(env, target, s);
            && to.at.w.begun == s.at.w.begun && to.at.w.saved == s.at.w.saved
            && ((to.at.w.cursors == s.at.w.cursors && to.ended)
                || (to.cursor.Some? && Sound(to.cursor.value) && to.cursor.value.nextIndex == 0
                    && KeyOf(to.cursor.value) == target
                    && to.at.w.cursors == s.at.w.cursors[target := Stored(to.cursor.value)]))
            && (to.at.w.crashed && !s.at.w.crashed ==> to.ended)
  {
    DiscoveredIdsAreDistinct(env(s.at.w.tick));
  }

  lemma {:induction false} PrepareIsFaithful(env: Env, before: Cursors, target: Target, w: World)
    requires !w.crashed && Faithful(before, w) && w.begun == w.saved
    ensures var s := Prepare(env, target, Entry(env, target, false, w));
            && Faithful(before, s.at.w) && s.at.w.begun == s.at.w.saved
            && (s.at.w.crashed ==> s.ended)
            && (!s.ended ==> s.cursor.Some? && KeyOf(s.cursor.value) == target
                             && CursorOf(s.at.w.cursors, target) == s.cursor)
  {
    var entry := Entry(env, target, false, w);
    if !entry.ended {
      if entry.cursor.Some? {
        assert Sound(entry.cursor.value);
      } else {
        var standings := StandingsStep(env, target, entry);
        StandingsTouchNoCursor(env, target, entry);
        if !standings.ended {
          DiscoveryStores(env, target, standings);
          var s := DiscoveryStep(env, target, standings);
          if s.at.w.cursors != w.cursors {
            DiscoveryIsFaithful(before, standings.at.w, s.cursor.value, s.at.w);
          }
        }
      }
    }
  }

  lemma TargetIsFaithful(env: Env, before: Cursors, target: Target, w: World)
    requires !w.crashed && Faithful(before, w) && w.begun == w.saved
    ensures var to := BackfillTarget(env, target, false, w).at.w;
            Faithful(before, to) && (!to.crashed ==> to.begun == to.saved)
  {
    PrepareIsFaithful(env, before, target, w);
    var s := Prepare(env, target, Entry(env, target, false, w));
    if !s.ended {
      WalkIsFaithful(env, before, s.at, s.cursor.value);
    }
  }

  lemma {:induction false} RunIsFaithful(env: Env, targets: seq<Target>, before: Cursors, run: Run)
    requires Faithful(before, run.w) && (!run.w.crashed ==> run.w.begun == run.w.saved)
    ensures Faithful(before, RunTargets(env, targets, false, run).w)
    decreases |targets|
  {
    if targets != [] && !run.w.crashed {
      if !run.report.aborted && !run.report.halted {
        TargetIsFaithful(env, before, targets[0], run.w);
      }
      RunIsFaithful(env, targets[1..], before, RunOne(env, targets[0], false, run));
    }
  }

  // ---------------------------------------------------------------------------------
  // Many invocations.

  datatype Session = Session(env: Env, targets: seq<Target>, maxCalls: int)

  function RunSession(session: Session, cursors: Cursors): World {
    RunWorkflow(session.env, session.targets, false, session.maxCalls, cursors).w
  }

  function AfterSessions(cursors: Cursors, sessions: seq<Session>): Cursors
    decreases |sessions|
  {
    if sessions == [] then cursors else AfterSessions(RunSession(sessions[0], cursors).cursors, sessions[1..])
  }

  function SavedInSessions(cursors: Cursors, sessions: seq<Session>): Log
    decreases |sessions|
  {
    if sessions == [] then []
    else
      var w := RunSession(sessions[0], cursors);
      w.saved + SavedInSessions(w.cursors, sessions[1..])
  }

  function BegunInSessions(cursors: Cursors, sessions: seq<Session>): Log
    decreases |sessions|
  {
    if sessions == [] then []
    else
      var w := RunSession(sessions[0], cursors);
      w.begun + BegunInSessions(w.cursors, sessions[1..])
  }

  function CrashedSessions(cursors: Cursors, sessions: seq<Session>): nat
    decreases |sessions|
  {
    if sessions == [] then 0
    else
      var w := RunSession(sessions[0], cursors);
      (if w.crashed then 1 else 0) + CrashedSessions(w.cursors, sessions[1..])
  }

  /** One invocation from any cache this workflow may have left. */
  lemma SessionIsFaithful(session: Session, cursors: Cursors)
    requires SoundStore(cursors)
    ensures Faithful(cursors, RunSession(session, cursors))
  {
    var w := FreshWorld(cursors, session.maxCalls);
    assert forall t: Target :: ForTarget(w.saved, t) == [];
    RunIsFaithful(session.env, session.targets, cursors, Run(w, EMPTY_REPORT));
  }

  /** What one stretch of invocations, from `before` to `after`, must show for a target. */
  ghost predicate ImportedExactly(before: Cursors, after: Cursors, saved: Log, t: Target) {
    && SoundStore(after)
    && Consumed(after, t) == Consumed(before, t) + ForTarget(saved, t)
    && (CursorOf(before, t).Some? ==>
          CursorOf(after, t).Some?
          && CursorOf(after, t).value.fixtureIds == CursorOf(before, t).value.fixtureIds)
  }

  lemma ImportsCompose(a: Cursors, b: Cursors, c: Cursors, first: Log, second: Log, t: Target)
    requires ImportedExactly(a, b, first, t) && ImportedExactly(b, c, second, t)
    ensures ImportedExactly(a, c, first + second, t)
  {
    ForTargetConcat(first, second, t);
  }

  /**
   * Over any sequence of non-reset invocations, with any answers, throws and target lists, the
   * fixtures checkpointed for a target, run after run, are exactly what its stored cursor has
   * moved over: from an empty cache, `fixtureIds[..nextIndex]`, each once and in order.
   */
  lemma {:induction false} FixturesAreImportedExactlyOnce(cursors: Cursors, sessions: seq<Session>, t: Target)
    requires SoundStore(cursors)
    ensures ImportedExactly(cursors, AfterSessions(cursors, sessions), SavedInSessions(cursors, sessions), t)
    decreases |sessions|
  {
    if sessions != [] {
      var w := RunSession(sessions[0], cursors);
      SessionIsFaithful(sessions[0], cursors);
      FaithfulStep(cursors, w, t);
      FixturesAreImportedExactlyOnce(w.cursors, sessions[1..], t);
      ImportsCompose(cursors, w.cursors, AfterSessions(w.cursors, sessions[1..]),
                     w.saved, SavedInSessions(w.cursors, sessions[1..]), t);
    }
  }

  lemma FaithfulStep(before: Cursors, w: World, t: Target)
    requires Faithful(before, w)
    ensures ImportedExactly(before, w.cursors, w.saved, t)
  {
  }

  /** No fixture appears twice among those a sound store has moved over. */
  lemma ConsumedHasNoRepeats(cursors: Cursors, t: Target)
    requires SoundStore(cursors)
    ensures Distinct(Consumed(cursors, t))
  {
    assert CursorOf(cursors, t).Some? ==> Sound(CursorOf(cursors, t).value);
  }

  // ---------------------------------------------------------------------------------
  // Five fetches per fixture.

  function FetchesOf(id: string): seq<Fetch> {
    [Fetch(FixtureDetailFullTime, id), Fetch(EventsPostFinal, id), Fetch(LineupsPostConfirm, id),
     Fetch(TeamMatchStats, id), Fetch(PlayerMatchStats, id)]
  }

  function FullFetches(log: Log): seq<Fetch> {
    if log == [] then [] else FullFetches(log[..|log| - 1]) + FetchesOf(log[|log| - 1].1)
  }

  /** Leaves out the standings and season-list fetches. */
  function FixtureCalls(calls: seq<Fetch>): seq<Fetch> {
    if calls == [] then []
    else
      var rest, last := FixtureCalls(calls[..|calls| - 1]), calls[|calls| - 1];
      if last.workload == FixturesNext7d then rest else rest + [last]
  }

  ghost predicate AllFetched(w: World) { FixtureCalls(w.calls) == FullFetches(w.begun) }

  /** All fixtures begun got their five fetches, but the last got only the first `k`. */
  ghost predicate LastCutAt(w: World, k: nat) {
    && w.begun != [] && k < 5
    && FixtureCalls(w.calls) == FullFetches(w.begun[..|w.begun| - 1]) + FetchesOf(w.begun[|w.begun| - 1].1)[..k]
  }

  lemma {:induction false} FixtureLedger(env: Env, at: At, id: string, j: nat)
    requires j <= 5 && !at.w.crashed && LedgerAt(at.w, id, j)
    ensures var to := ProcessFixture(env, at, id, j);
            && to.w.begun == at.w.begun
            && ((!Stopped(to) && LedgerAt(to.w, id, 5))
                || (Stopped(to) && exists k: nat :: 1 <= k <= 5 && LedgerAt(to.w, id, k))
                || (j == 5 && to == at))
    decreases 5 - j
  {
    if j < 5 {
      var next := FetchInto(env, at, Fetch(FIXTURE_WORKLOADS[j], id));
      LedgerGrows(env, at, id, j);
      if !Stopped(next) {
        FixtureLedger(env, next, id, j + 1);
        assert ProcessFixture(env, at, id, j) == ProcessFixture(env, next, id, j + 1);
      } else {
        assert ProcessFixture(env, at, id, j) == next;
      }
    }
  }

  lemma {:induction false} LedgerGrows(env: Env, at: At, id: string, j: nat)
    requires j < 5 && LedgerAt(at.w, id, j)
    ensures var next := FetchInto(env, at, Fetch(FIXTURE_WORKLOADS[j], id));
            next.w.begun == at.w.begun && LedgerAt(next.w, id, j + 1)
  {
    var next := FetchInto(env, at, Fetch(FIXTURE_WORKLOADS[j], id));
    assert next.w.calls[..|next.w.calls| - 1] == at.w.calls;
    assert FetchesOf(id)[..j + 1] == FetchesOf(id)[..j] + [Fetch(FIXTURE_WORKLOADS[j], id)];
  }

  /** In the middle of the last fixture begun, `j` fetches in. */
  ghost predicate LedgerAt(w: World, id: string, j: nat) {
    && j <= 5 && w.begun != [] && w.begun[|w.begun| - 1].1 == id
    && FixtureCalls(w.calls) == FullFetches(w.begun[..|w.begun| - 1]) + FetchesOf(id)[..j]
  }

  /** A ledger in order, unless an abort or a throw cut the last fixture short. */
  ghost predicate Ledger(w: World, cut: bool) {
    AllFetched(w) || (cut && exists k: nat :: LastCutAt(w, k))
  }

  lemma LedgerAtSettles(w: World, id: string, k: nat)
    requires LedgerAt(w, id, k)
    ensures if k == 5 then AllFetched(w) else LastCutAt(w, k)
  {
  }

  lemma WalkOneLedger(env: Env, at: At, c: Cursor, index: nat)
    requires index < |c.fixtureIds| && !at.w.crashed && AllFetched(at.w)
    ensures var to := WalkOne(env, at, c, index).0; Ledger(to.w, Stopped(to))
  {
    var id := c.fixtureIds[index];
    var begun := At(at.w.(begun := at.w.begun + [(KeyOf(c), id)]), at.b);
    assert begun.w.begun[..|at.w.begun|] == at.w.begun;
    FixtureLedger(env, begun, id, 0);
    var done := ProcessFixture(env, begun, id, 0);
    var to := WalkOne(env, at, c, index).0;
    assert to.w.calls == done.w.calls && to.w.begun == done.w.begun && (Stopped(done) ==> Stopped(to));
    if Stopped(done) {
      var k: nat :| 1 <= k <= 5 && LedgerAt(done.w, id, k);
      LedgerAtSettles(to.w, id, k);
    } else {
      LedgerAtSettles(to.w, id, 5);
    }
  }

  lemma {:induction false} WalkLedger(env: Env, at: At, c: Cursor, index: int)
    requires AllFetched(at.w)
    ensures var to := WalkFixtures(env, at, c, index).0; Ledger(to.w, Stopped(to))
    decreases |c.fixtureIds| - index
  {
    if index >= |c.fixtureIds| || at.w.crashed || at.w.remaining <= 0 || at.b.mode == Abort {
    } else if index < 0 {
      WalkLedger(env, at, c, index + 1);
    } else {
      WalkOneLedger(env, at, c, index);
      var (next, c') := WalkOne(env, at, c, index);
      if AllFetched(next.w) {
        WalkLedger(env, next, c', index + 1);
      }
    }
  }

  /** A standings or season-list fetch leaves the fixture ledger alone. */
  lemma SideCallKeepsLedger(w: World, w': World, f: Fetch)
    requires AllFetched(w) && w'.begun == w.begun
    requires w'.calls == w.calls || (w'.calls == w.calls + [f] && f.workload == FixturesNext7d)
    ensures AllFetched(w')
  {
    assert (w.calls + [f])[..|w.calls|] == w.calls;
  }

  lemma PrepareLedger(env: Env, target: Target, s: Progress)
    requires AllFetched(s.at.w)
    ensures AllFetched(Prepare(env, target, s).at.w)
  {
    var s1 := if s.ended then s else StandingsStep(env, target, s);
    SideCallKeepsLedger(s.at.w, s1.at.w, StandingsFetch(target));
    var s2 := if s1.ended then s1 else DiscoveryStep(env, target, s1);
    SideCallKeepsLedger(s1.at.w, s2.at.w, SeasonFixturesFetch(target));
  }

  lemma TargetLedger(env: Env, target: Target, reset: bool, w: World)
    requires AllFetched(w)
    ensures var to := BackfillTarget(env, target, reset, w).at; Ledger(to.w, Stopped(to))
  {
    var entry := Entry(env, target, reset, w);
    PrepareLedger(env, target, entry);
    var s := Prepare(env, target, entry);
    if !s.ended && s.cursor.Some? {
      WalkLedger(env, s.at, s.cursor.value, s.cursor.value.nextIndex);
    }
  }

  lemma RunOneLedger(env: Env, target: Target, reset: bool, run: Run)
    requires !run.w.crashed && Ledger(run.w, run.report.aborted)
    ensures var to := RunOne(env, target, reset, run); Ledger(to.w, to.w.crashed || to.report.aborted)
  {
    var to := RunOne(env, target, reset, run);
    if run.report.aborted || run.report.halted {
      assert to.w.calls == run.w.calls && to.w.begun == run.w.begun;
      if !AllFetched(run.w) {
        var k: nat :| LastCutAt(run.w, k);
        assert LastCutAt(to.w, k);
      }
    } else {
      TargetLedger(env, target, reset, run.w);
    }
  }

  lemma {:induction false} RunLedger(env: Env, targets: seq<Target>, reset: bool, run: Run)
    requires Ledger(run.w, run.w.crashed || run.report.aborted)
    ensures var to := RunTargets(env, targets, reset, run); Ledger(to.w, to.w.crashed || to.report.aborted)
    decreases |targets|
  {
    if targets != [] && !run.w.crashed {
      RunOneLedger(env, targets[0], reset, run);
      RunLedger(env, targets[1..], reset, RunOne(env, targets[0], reset, run));
    }
  }

  /**
   * In one invocation every fixture handed to processFixture gets its five fetches, in order
   * and adjacent, except possibly the last, and that one only when the run aborted or threw.
   */
  lemma EachFixtureGetsFiveFetches(env: Env, targets: seq<Target>, reset: bool, maxCalls: int, cursors: Cursors)
    ensures var run := RunWorkflow(env, targets, reset, maxCalls, cursors);
            && (!run.w.crashed && !run.report.aborted ==> FixtureCalls(run.w.calls) == FullFetches(run.w.begun))
            && (AllFetched(run.w) || exists k: nat :: LastCutAt(run.w, k))
  {
    RunLedger(env, targets, reset, Run(FreshWorld(cursors, maxCalls), EMPTY_REPORT));
  }

  // ---------------------------------------------------------------------------------
  // A hard cap in the middle of a fixture.

  predicate HardCapped(env: Env, tick: nat) {
    env(tick).Gave? && env(tick).result.quota.posture == HardCapReached
  }

  lemma {:induction false} FetchAbortsIff(env: Env, at: At, f: Fetch)
    requires env(at.w.tick).Gave? && at.b.mode != Abort
    ensures FetchInto(env, at, f).b.mode == Abort <==> HardCapped(env, at.w.tick)
  {
    var r := env(at.w.tick).result;
    var others := [HandleQuotaPosture(r.quota).action, if r.fallback == ProviderOutage then CachedOnly else Continue];
    JoinNeverRelaxes(at.b.mode, others);
    assert [at.b.mode] + others == [at.b.mode, others[0], others[1]];
    assert Abort in others <==> others[0] == Abort || others[1] == Abort;
  }

  /** Answers that do not throw, from `tick` on. */
  ghost predicate Answers(env: Env, tick: nat, n: nat) {
    forall t: nat :: tick <= t < tick + n ==> env(t).Gave?
  }

  /** A fetch that is answered advances the clock and the call log together. */
  lemma {:induction false} AnsweredFetch(env: Env, at: At, f: Fetch)
    requires env(at.w.tick).Gave? && !Stopped(at)
    ensures var to := FetchInto(env, at, f);
            && !to.w.crashed && |to.w.calls| == |at.w.calls| + 1 && to.w.tick == at.w.tick + 1
            && (Stopped(to) <==> HardCapped(env, at.w.tick))
  {
    FetchAbortsIff(env, at, f);
  }

  /** No answer from one tick up to another reports the hard cap. */
  ghost predicate NoneCapped(env: Env, from: nat, end: int) { forall t: nat :: from <= t < end ==> !HardCapped(env, t) }

  lemma {:induction false} NoneCappedSplits(env: Env, from: nat, end: int)
    requires from < end
    ensures NoneCapped(env, from, end) <==> !HardCapped(env, from) && NoneCapped(env, from + 1, end)
  {
  }

  lemma {:induction false} FixtureCutIff(env: Env, at: At, id: string, j: nat)
    requires j <= 5 && !Stopped(at) && Answers(env, at.w.tick, 5 - j)
    ensures var to := ProcessFixture(env, at, id, j);
            && !to.w.crashed && |to.w.calls| <= |at.w.calls| + 5 - j
            && to.w.tick - at.w.tick == |to.w.calls| - |at.w.calls|
            && (|to.w.calls| == |at.w.calls| + 5 - j <==>
                NoneCapped(env, at.w.tick, at.w.tick + 4 - j))
    decreases 5 - j
  {
    if j < 5 {
      var f := Fetch(FIXTURE_WORKLOADS[j], id);
      var next := FetchInto(env, at, f);
      assert env(at.w.tick).Gave?;
      AnsweredFetch(env, at, f);
      if j < 4 { NoneCappedSplits(env, at.w.tick, at.w.tick + 4 - j); }
      if !Stopped(next) {
        FixtureCutIff(env, next, id, j + 1);
        assert ProcessFixture(env, at, id, j) == ProcessFixture(env, next, id, j + 1);
      } else {
        assert ProcessFixture(env, at, id, j) == next;
      }
    }
  }

  /**
   * The cursor moves over a fixture whether or not it got all its fetches. It got all five
   * exactly when none of its first four answers reported the hard cap.
   */
  lemma {:induction false} HardCapStillAdvancesTheCursor(env: Env, at: At, c: Cursor, index: nat)
    requires index < |c.fixtureIds| && !Stopped(at) && c.version == CURSOR_VERSION
    requires Answers(env, at.w.tick, 6)
    ensures var (to, c') := WalkOne(env, at, c, index);
            && c'.nextIndex == index + 1 && CursorOf(to.w.cursors, KeyOf(c)) == Some(c')
            && (|to.w.calls| == |at.w.calls| + 5 <==>
                NoneCapped(env, at.w.tick, at.w.tick + 4))
  {
    var id := c.fixtureIds[index];
    var begun := At(at.w.(begun := at.w.begun + [(KeyOf(c), id)]), at.b);
    FixtureCutIff(env, begun, id, 0);
    var done := ProcessFixture(env, begun, id, 0);
    assert env(done.w.tick).Gave?;
    assert KeyOf(c.(nextIndex := index + 1)) == KeyOf(c);
  }

  /**
   * A season list is recorded as complete on the spot exactly when it shows no finalised fixture, or
   * came without data.
   */
  lemma DiscoveryWithoutDataCompletesTheSeason(env: Env, target: Target, s: Progress)
    requires s.cursor.None? || !s.cursor.value.discovered
    requires !DiscoveryStep(env, target, s).ended
    ensures var to := DiscoveryStep(env, target, s);
            && env(s.at.w.tick).Gave?
            && to.cursor.Some? && CursorOf(to.at.w.cursors, target) == to.cursor
            && (IsCursorComplete(to.cursor) <==>
                env(s.at.w.tick).result.data.None?
                || forall item <- env(s.at.w.tick).result.data.value :: !IsFinalised(item))
  {
    var data := env(s.at.w.tick).result.data;
    if data.Some? {
      FinalisedIdsAreExact(data.value);
      var ids := FinalisedIds(data.value);
      assert ids != [] ==> ids[0] in ids;
      assert forall item <- data.value :: IsFinalised(item) ==> item.id in ids;
    }
  }
}
