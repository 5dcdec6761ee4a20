/** Which fixtures a crash makes the backfill begin again: the one it was torn off, and no other. */
module BackfillRepeats {
  import opened SeasonBackfill
  import opened BackfillExactlyOnce

  /** The fixture at the stored cursor of its target: the next one due. */
  ghost predicate Due(cursors: Cursors, entry: (Target, string)) {
    && CursorOf(cursors, entry.0).Some?
    && var c := CursorOf(cursors, entry.0).value;
       0 <= c.nextIndex < |c.fixtureIds| && entry.1 == c.fixtureIds[c.nextIndex]
  }

  /** What an invocation began and did not checkpoint. */
  function Torn(w: World): Log { if |w.begun| > |w.saved| then w.begun[|w.saved|..] else [] }

  lemma TornIsDue(before: Cursors, w: World)
    requires Faithful(before, w)
    ensures w.begun == w.saved + Torn(w) && |Torn(w)| <= (if w.crashed then 1 else 0)
    ensures forall entry <- Torn(w) :: Due(w.cursors, entry)
  {
    if w.begun != w.saved {
      assert Torn(w) == [w.begun[|w.saved|]];
    }
  }

  function TornInSessions(cursors: Cursors, sessions: seq<Session>): Log
    decreases |sessions|
  {
    if sessions == [] then []
    else
      var w := RunSession(sessions[0], cursors);
      Torn(w) + TornInSessions(w.cursors, sessions[1..])
  }

  /** Every torn fixture is the next one due of its target when its invocation ends. */
  ghost predicate TornAreDue(cursors: Cursors, sessions: seq<Session>)
    decreases |sessions|
  {
    sessions != [] ==>
      var w := RunSession(sessions[0], cursors);
      (forall entry <- Torn(w) :: Due(w.cursors, entry)) && TornAreDue(w.cursors, sessions[1..])
  }

  /**
   * Over any invocations, the fixtures begun are the fixtures saved and, beside them, at most
   * one torn fixture per crashed invocation, each the next one due of its target at that moment.
   */
  lemma {:induction false} CrashRepeatsAtMostOneFixture(cursors: Cursors, sessions: seq<Session>)
    requires SoundStore(cursors)
    ensures var (begun, saved, torn) :=
              (BegunInSessions(cursors, sessions), SavedInSessions(cursors, sessions),
               TornInSessions(cursors, sessions));
            && multiset(begun) == multiset(saved) + multiset(torn)
            && |torn| <= CrashedSessions(cursors, sessions) && TornAreDue(cursors, sessions)
            && (CrashedSessions(cursors, sessions) == 0 ==> begun == saved)
    decreases |sessions|
  {
    if sessions != [] {
      var w := RunSession(sessions[0], cursors);
      SessionIsFaithful(sessions[0], cursors);
      TornIsDue(cursors, w);
      CrashRepeatsAtMostOneFixture(w.cursors, sessions[1..]);
      OneMoreSession(w.begun, w.saved, Torn(w), BegunInSessions(w.cursors, sessions[1..]),
                     SavedInSessions(w.cursors, sessions[1..]), TornInSessions(w.cursors, sessions[1..]));
    }
  }

  lemma OneMoreSession(begun: Log, saved: Log, torn: Log, begun': Log, saved': Log, torn': Log)
    requires begun == saved + torn && multiset(begun') == multiset(saved') + multiset(torn')
    ensures multiset(begun + begun') == multiset(saved + saved') + multiset(torn + torn')
  {
  }

  // ---------------------------------------------------------------------------------
  // Per target: a walk over its list that never skips, and stands still only on a torn fixture.

  /** `begun` goes over `ids[from..end]` in order, saying a fixture again `repeats` times in all. */
  ghost predicate Walks(ids: seq<string>, from: nat, end: nat, begun: seq<string>, repeats: nat)
    decreases |begun|
  {
    if begun == [] then from == end && repeats == 0
    else
      && from < |ids| && begun[0] == ids[from]
      && (Walks(ids, from + 1, end, begun[1..], repeats)
          || (repeats > 0 && Walks(ids, from, end, begun[1..], repeats - 1)))
  }

  lemma {:induction false} WalksJoin(ids: seq<string>, a: nat, b: nat, c: nat, x: seq<string>, y: seq<string>, r: nat,
                                     q: nat)
    requires Walks(ids, a, b, x, r) && Walks(ids, b, c, y, q)
    ensures Walks(ids, a, c, x + y, r + q)
    decreases |x|
  {
    if x == [] {
      assert x + y == y;
    } else {
      assert (x + y)[0] == x[0] && (x + y)[1..] == x[1..] + y;
      if Walks(ids, a + 1, b, x[1..], r) {
        WalksJoin(ids, a + 1, b, c, x[1..], y, r, q);
      } else {
        WalksJoin(ids, a, b, c, x[1..], y, r - 1, q);
      }
    }
  }

  lemma {:induction false} SliceWalks(ids: seq<string>, from: nat, end: nat)
    requires from <= end <= |ids|
    ensures Walks(ids, from, end, ids[from..end], 0)
    decreases end - from
  {
    if from < end {
      SliceWalks(ids, from + 1, end);
      assert ids[from..end][1..] == ids[from + 1..end];
    }
  }

  /** The torn fixture, if it is this target's, is begun where the cursor stands. */
  lemma TornWalks(cursors: Cursors, torn: Log, t: Target)
    requires |torn| <= 1 && (forall entry <- torn :: Due(cursors, entry))
    requires CursorOf(cursors, t).Some? && Sound(CursorOf(cursors, t).value)
    ensures |ForTarget(torn, t)| <= |torn|
    ensures Walks(CursorOf(cursors, t).value.fixtureIds, |Consumed(cursors, t)|, |Consumed(cursors, t)|,
                  ForTarget(torn, t), |ForTarget(torn, t)|)
  {
    if torn != [] {
      var ids, at := CursorOf(cursors, t).value.fixtureIds, |Consumed(cursors, t)|;
      assert torn == [torn[0]] && torn[..0] == [] && Due(cursors, torn[0]);
      if torn[0].0 == t {
        assert ForTarget(torn, t) == [ids[at]] && [ids[at]][1..] == [];
        assert Walks(ids, at, at, [], 0);
      } else {
        assert ForTarget(torn, t) == [];
      }
    }
  }

  /** One invocation, seen by a target that has its list at the end. */
  lemma SessionWalks(before: Cursors, w: World, t: Target) returns (repeats: nat)
    requires Faithful(before, w) && SoundStore(before) && CursorOf(w.cursors, t).Some?
    ensures repeats <= |Torn(w)|
    ensures Walks(CursorOf(w.cursors, t).value.fixtureIds, |Consumed(before, t)|, |Consumed(w.cursors, t)|,
                  ForTarget(w.begun, t), repeats)
  {
    var ids := CursorOf(w.cursors, t).value.fixtureIds;
    assert Sound(CursorOf(w.cursors, t).value);
    var a, b := |Consumed(before, t)|, |Consumed(w.cursors, t)|;
    TornIsDue(before, w);
    ForTargetConcat(w.saved, Torn(w), t);
    assert Consumed(w.cursors, t) == Consumed(before, t) + ForTarget(w.saved, t) == ids[..b];
    assert ForTarget(w.saved, t) == ids[..b][a..] == ids[a..b];
    SliceWalks(ids, a, b);
    TornWalks(w.cursors, Torn(w), t);
    repeats := |ForTarget(Torn(w), t)|;
    WalksJoin(ids, a, b, b, ids[a..b], ForTarget(Torn(w), t), 0, repeats);
  }

  lemma NothingBegunBeforeDiscovery(before: Cursors, w: World, t: Target)
    requires Faithful(before, w) && CursorOf(w.cursors, t).None?
    ensures ForTarget(w.begun, t) == [] && Consumed(before, t) == [] == Consumed(w.cursors, t)
  {
    TornIsDue(before, w);
    ForTargetConcat(w.saved, Torn(w), t);
    if Torn(w) != [] {
      assert Torn(w) == [Torn(w)[0]] && Torn(w)[..0] == [] && Due(w.cursors, Torn(w)[0]);
    }
  }

  /**
   * For each target, the fixtures begun over any invocations walk its list from the first cursor
   * to the last: in order, none skipped, each begun until it is saved, and none begun more often
   * than crashes tore it.
   */
  lemma {:induction false} BegunWalksTheList(cursors: Cursors, sessions: seq<Session>, t: Target) returns (repeats: nat)
    requires SoundStore(cursors) && CursorOf(AfterSessions(cursors, sessions), t).Some?
    ensures repeats <= CrashedSessions(cursors, sessions)
    ensures var after := AfterSessions(cursors, sessions);
            Walks(CursorOf(after, t).value.fixtureIds, |Consumed(cursors, t)|, |Consumed(after, t)|,
                  ForTarget(BegunInSessions(cursors, sessions), t), repeats)
    decreases |sessions|
  {
    if sessions == [] {
      repeats := 0;
    } else {
      var w := RunSession(sessions[0], cursors);
      SessionIsFaithful(sessions[0], cursors);
      TornIsDue(cursors, w);
      var later := BegunWalksTheList(w.cursors, sessions[1..], t);
      repeats := WalkOneMore(cursors, w, t, AfterSessions(w.cursors, sessions[1..]),
                             BegunInSessions(w.cursors, sessions[1..]), later, sessions[1..]);
    }
  }

  lemma WalkOneMore(before: Cursors, w: World, t: Target, after: Cursors, begun: Log, later: nat,
                    sessions: seq<Session>)
    returns (repeats: nat)
    requires Faithful(before, w) && SoundStore(before) && CursorOf(after, t).Some?
    requires after == AfterSessions(w.cursors, sessions)
    requires Walks(CursorOf(after, t).value.fixtureIds, |Consumed(w.cursors, t)|, |Consumed(after, t)|,
                   ForTarget(begun, t), later)
    ensures repeats <= |Torn(w)| + later
    ensures Walks(CursorOf(after, t).value.fixtureIds, |Consumed(before, t)|, |Consumed(after, t)|,
                  ForTarget(w.begun + begun, t), repeats)
  {
    ForTargetConcat(w.begun, begun, t);
    if CursorOf(w.cursors, t).Some? {
      FixturesAreImportedExactlyOnce(w.cursors, sessions, t);
      var here := SessionWalks(before, w, t);
      WalksJoin(CursorOf(after, t).value.fixtureIds, |Consumed(before, t)|, |Consumed(w.cursors, t)|,
                |Consumed(after, t)|,
                ForTarget(w.begun, t), ForTarget(begun, t), here, later);
      repeats := here + later;
    } else {
      NothingBegunBeforeDiscovery(before, w, t);
      assert [] + ForTarget(begun, t) == ForTarget(begun, t);
      repeats := later;
    }
  }
}
