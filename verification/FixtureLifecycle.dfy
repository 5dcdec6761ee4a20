/**
 * Lifecycle routing of the tracked fixtures: what each observation records, which workload
 * polls a fixture at a given time, and what pruning drops.
 */
module FixtureLifecycle {
  import opened Wrappers
  import opened Tally
  import opened AsciiText

  const LIVE_STATUSES: set<string> := {"1H", "HT", "2H", "ET", "BT", "P", "INT", "SUSP"}
  const FINAL_STATUSES: set<string> := {"FT", "AET", "PEN"}
  const NO_PLAY_STATUSES: set<string> := {"PST", "CANC", "ABD", "AWD", "WO"}

  const PRE_KICKOFF_LEAD_MS: int := 90 * 60 * 1_000
  const KICKOFF_GRACE_MS: int := 5 * 60 * 1_000
  const MAX_LIVE_WINDOW_MS: int := 210 * 60 * 1_000
  const POST_FINAL_WINDOW_MS: int := 25 * 60 * 1_000

  datatype Phase = Live | PreKO | PostFinal | Upcoming | Settled

  /** An undated fixture has no kickoff. */
  datatype Record = Record(status: string, kickoffMs: Option<int>, finalSinceMs: Option<int>, lastSeenMs: int)

  datatype Discovered = Discovered(id: string, status: string, kickoffMs: Option<int>)

  type Records = map<string, Record>

  function RecordOf(records: Records, id: string): Option<Record> { if id in records then Some(records[id]) else None }

  function FixturePhase(rec: Option<Record>, nowMs: int): Phase {
    match rec
    case None => Settled
    case Some(r) =>
      if r.status in LIVE_STATUSES then Live
      else if r.status in FINAL_STATUSES then
        if nowMs <= (if r.finalSinceMs.Some? then r.finalSinceMs.value else nowMs) + POST_FINAL_WINDOW_MS
        then PostFinal else Settled
      else if r.status in NO_PLAY_STATUSES then Settled
      else
        match r.kickoffMs
        case None => Upcoming
        case Some(kickoff) =>
          if nowMs > kickoff + MAX_LIVE_WINDOW_MS then Settled
          else if nowMs >= kickoff - KICKOFF_GRACE_MS then Live
          else if nowMs >= kickoff - PRE_KICKOFF_LEAD_MS then PreKO
          else Upcoming
  }

  // ---------------------------------------------------------------------------------
  // The tracked set.

  /** Insertion order of the ids; a record per id that has been observed. */
  datatype Tracker = Tracker(ids: seq<string>, records: Records)

  function Observed(prev: Option<Record>, status: string, kickoffMs: Option<int>, nowMs: int): Record {
    var effective := if status != "" then status else if prev.Some? then prev.value.status else "";
    Record(
      effective,
      if kickoffMs.Some? then kickoffMs else if prev.Some? then prev.value.kickoffMs else None,
      if effective !in FINAL_STATUSES then None
      else if prev.Some? && prev.value.finalSinceMs.Some? then prev.value.finalSinceMs
      else Some(nowMs),
      nowMs)
  }

  function Add(ids: seq<string>, id: string): seq<string> { if id in ids then ids else ids + [id] }

  function UpsertOne(t: Tracker, d: Discovered, nowMs: int): Tracker {
    var id := Trim(d.id);
    if id == "" then t
    else Tracker(Add(t.ids, id), t.records[id := Observed(RecordOf(t.records, id), d.status, d.kickoffMs, nowMs)])
  }

  function UpsertAll(t: Tracker, ds: seq<Discovered>, nowMs: int): Tracker
    decreases |ds|
  {
    if ds == [] then t else UpsertAll(UpsertOne(t, ds[0], nowMs), ds[1..], nowMs)
  }

  function PhaseAt(records: Records, id: string, nowMs: int): Phase { FixturePhase(RecordOf(records, id), nowMs) }

  /** The ids in one of the phases, in the order they were added. */
  function Routed(ids: seq<string>, records: Records, nowMs: int, wanted: set<Phase>): seq<string> {
    if ids == [] then []
    else Routed(ids[..|ids| - 1], records, nowMs, wanted)
         + if PhaseAt(records, ids[|ids| - 1], nowMs) in wanted then [ids[|ids| - 1]] else []
  }

  const UNSETTLED: set<Phase> := {Live, PreKO, PostFinal, Upcoming}

  function Restrict(records: Records, ids: seq<string>): Records { map id | id in records && id in ids :: records[id] }

  function Pruned(t: Tracker, nowMs: int): Tracker {
    var kept := Routed(t.ids, t.records, nowMs, UNSETTLED);
    Tracker(kept, Restrict(t.records, kept))
  }

  // ---------------------------------------------------------------------------------
  // The loop's own state.

  lemma {:induction false} RoutedMembers(ids: seq<string>, records: Records, nowMs: int, wanted: set<Phase>)
    requires Distinct(ids)
    ensures Distinct(Routed(ids, records, nowMs, wanted))
    ensures forall id ::
              id in Routed(ids, records, nowMs, wanted) <==> id in ids && PhaseAt(records, id, nowMs) in wanted
  {
    if ids != [] {
      var init, last := ids[..|ids| - 1], ids[|ids| - 1];
      RoutedMembers(init, records, nowMs, wanted);
      assert ids == init + [last] && last !in init;
    }
  }

  class LiveSet {
    var fixtureIds: seq<string>
    var fixtureLifecycle: Records

    ghost predicate Valid() reads this { Distinct(fixtureIds) && forall id <- fixtureLifecycle :: id in fixtureIds }

    ghost function Now(): Tracker reads this { Tracker(fixtureIds, fixtureLifecycle) }

    constructor (ids: seq<string>)
      requires Distinct(ids)
      ensures Valid() && Now() == Tracker(ids, map[])
    {
      fixtureIds, fixtureLifecycle := ids, map[];
    }

    method UpsertFixtures(records: seq<Discovered>, nowMs: int) returns (added: nat)
      requires Valid()
      modifies this
      ensures Valid() && Now() == UpsertAll(old(Now()), records, nowMs)
      ensures added == |fixtureIds| - |old(fixtureIds)|
    {
      var before := |fixtureIds|;
      for i := 0 to |records|
        invariant Valid() && before <= |fixtureIds|
        invariant UpsertAll(old(Now()), records, nowMs) == UpsertAll(Now(), records[i..], nowMs)
      {
        assert records[i..][1..] == records[i + 1..];
        var id := Trim(records[i].id);
        if id == "" {
          continue;
        }
        if id !in fixtureIds {
          fixtureIds := fixtureIds + [id];
        }
        var prev := RecordOf(fixtureLifecycle, id);
        fixtureLifecycle := fixtureLifecycle[id := Observed(prev, records[i].status, records[i].kickoffMs, nowMs)];
      }
      added := |fixtureIds| - before;
    }

    method IdsInPhase(wanted: set<Phase>, nowMs: int) returns (out: seq<string>)
      ensures out == Routed(fixtureIds, fixtureLifecycle, nowMs, wanted)
    {
      out := [];
      for i := 0 to |fixtureIds|
        invariant out == Routed(fixtureIds[..i], fixtureLifecycle, nowMs, wanted)
      {
        assert fixtureIds[..i + 1][..i] == fixtureIds[..i];
        if FixturePhase(RecordOf(fixtureLifecycle, fixtureIds[i]), nowMs) in wanted {
          out := out + [fixtureIds[i]];
        }
      }
      assert fixtureIds[..|fixtureIds|] == fixtureIds;
    }

    /** Deletes the current id where it is settled; the next one then stands at the same index. */
    method Visit(i: nat, nowMs: int) returns (gone: bool)
      requires i < |fixtureIds|
      modifies this
      ensures gone <==> PhaseAt(old(fixtureLifecycle), old(fixtureIds)[i], nowMs) == Settled
      ensures Now() == if gone then WithoutAt(old(Now()), i) else old(Now())
    {
      var id := fixtureIds[i];
      gone := FixturePhase(RecordOf(fixtureLifecycle, id), nowMs) == Settled;
      if gone {
        fixtureIds := fixtureIds[..i] + fixtureIds[i + 1..];
        fixtureLifecycle := fixtureLifecycle - {id};
      }
    }

    method PruneSettledFixtures(nowMs: int) returns (pruned: nat)
      requires Valid()
      modifies this
      ensures Valid() && Now() == Pruned(old(Now()), nowMs)
      ensures pruned == |old(fixtureIds)| - |fixtureIds|
    {
      pruned := 0;
      var i := 0;
      while i < |fixtureIds|
        invariant i <= |fixtureIds| == |old(fixtureIds)| - pruned
        invariant PruneFrom(Now(), nowMs, i) == PruneFrom(old(Now()), nowMs, 0)
        decreases |fixtureIds| - i
      {
        var gone := Visit(i, nowMs);
        if gone {
          pruned := pruned + 1;
        } else {
          i := i + 1;
        }
      }
      WalkPrunes(old(Now()), nowMs);
    }
  }

  /** The walk: settled ids are deleted from under it, others stepped over. */
  function PruneFrom(t: Tracker, nowMs: int, i: nat): Tracker
    decreases |t.ids| - i
  {
    if i >= |t.ids| then t
    else if PhaseAt(t.records, t.ids[i], nowMs) == Settled then PruneFrom(WithoutAt(t, i), nowMs, i)
    else PruneFrom(t, nowMs, i + 1)
  }

  function WithoutAt(t: Tracker, i: nat): Tracker
    requires i < |t.ids|
  {
    Tracker(t.ids[..i] + t.ids[i + 1..], t.records - {t.ids[i]})
  }

  /** A walk that has looked at `k` of the ids and stands at index `i` of what is left. */
  ghost predicate HalfPruned(was: Tracker, nowMs: int, k: nat, t: Tracker, i: nat) {
    && Distinct(was.ids) && k <= |was.ids|
    && i == |Routed(was.ids[..k], was.records, nowMs, UNSETTLED)|
    && t.ids == Routed(was.ids[..k], was.records, nowMs, UNSETTLED) + was.ids[k..]
    && t.records == Restrict(was.records, t.ids)
  }

  lemma WalkStarts(was: Tracker, nowMs: int)
    requires Distinct(was.ids) && forall id <- was.records :: id in was.ids
    ensures HalfPruned(was, nowMs, 0, was, 0)
  {
    assert Restrict(was.records, was.ids) == was.records && was.ids[0..] == was.ids && was.ids[..0] == [];
  }

  lemma WalkAt(was: Tracker, nowMs: int, k: nat, t: Tracker, i: nat)
    requires HalfPruned(was, nowMs, k, t, i) && i < |t.ids|
    ensures k < |was.ids| && t.ids[i] == was.ids[k]
    ensures PhaseAt(t.records, t.ids[i], nowMs) == PhaseAt(was.records, was.ids[k], nowMs)
    ensures was.ids[..k + 1][..k] == was.ids[..k] && was.ids[k..] == [was.ids[k]] + was.ids[k + 1..]
  {
    assert t.ids[i] in t.ids;
  }

  lemma DropRestricts(records: Records, kept: seq<string>, id: string, rest: seq<string>)
    requires id !in kept && id !in rest
    ensures Restrict(records, kept + ([id] + rest)) - {id} == Restrict(records, kept + rest)
  {
  }

  lemma WalkDrops(was: Tracker, nowMs: int, k: nat, t: Tracker, i: nat)
    requires HalfPruned(was, nowMs, k, t, i) && i < |t.ids| && PhaseAt(t.records, t.ids[i], nowMs) == Settled
    ensures k < |was.ids| && HalfPruned(was, nowMs, k + 1, WithoutAt(t, i), i)
  {
    WalkAt(was, nowMs, k, t, i);
    var id, kept, rest := t.ids[i], Routed(was.ids[..k], was.records, nowMs, UNSETTLED), was.ids[k + 1..];
    assert Routed(was.ids[..k + 1], was.records, nowMs, UNSETTLED) == kept + [] == kept;
    assert WithoutAt(t, i).ids == kept + rest;
    RoutedMembers(was.ids[..k], was.records, nowMs, UNSETTLED);
    assert id !in kept && id !in rest;
    DropRestricts(was.records, kept, id, rest);
  }

  lemma WalkKeeps(was: Tracker, nowMs: int, k: nat, t: Tracker, i: nat)
    requires HalfPruned(was, nowMs, k, t, i) && i < |t.ids| && PhaseAt(t.records, t.ids[i], nowMs) != Settled
    ensures k < |was.ids| && HalfPruned(was, nowMs, k + 1, t, i + 1)
  {
    WalkAt(was, nowMs, k, t, i);
    var kept := Routed(was.ids[..k], was.records, nowMs, UNSETTLED);
    assert t.ids == (kept + [was.ids[k]]) + was.ids[k + 1..];
  }

  lemma WalkEnds(was: Tracker, nowMs: int, k: nat, t: Tracker, i: nat)
    requires HalfPruned(was, nowMs, k, t, i) && i == |t.ids|
    ensures t == Pruned(was, nowMs)
  {
    assert |was.ids[k..]| == 0;
    assert was.ids[..k] == was.ids && t.ids == Routed(was.ids, was.records, nowMs, UNSETTLED);
  }

  lemma {:induction false} WalkFinishes(was: Tracker, nowMs: int, k: nat, t: Tracker, i: nat)
    requires HalfPruned(was, nowMs, k, t, i)
    ensures PruneFrom(t, nowMs, i) == Pruned(was, nowMs)
    decreases |t.ids| - i
  {
    if i >= |t.ids| {
      WalkEnds(was, nowMs, k, t, i);
    } else if PhaseAt(t.records, t.ids[i], nowMs) == Settled {
      WalkDrops(was, nowMs, k, t, i);
      WalkFinishes(was, nowMs, k + 1, WithoutAt(t, i), i);
    } else {
      WalkKeeps(was, nowMs, k, t, i);
      WalkFinishes(was, nowMs, k + 1, t, i + 1);
    }
  }

  /** Deleting while walking leaves exactly the unsettled ids, in order, with their records. */
  lemma WalkPrunes(was: Tracker, nowMs: int)
    requires Distinct(was.ids) && forall id <- was.records :: id in was.ids
    ensures PruneFrom(was, nowMs, 0) == Pruned(was, nowMs)
    ensures Distinct(Pruned(was, nowMs).ids) && forall id <- Pruned(was, nowMs).records :: id in Pruned(was, nowMs).ids
  {
    WalkStarts(was, nowMs);
    WalkFinishes(was, nowMs, 0, was, 0);
    RoutedMembers(was.ids, was.records, nowMs, UNSETTLED);
  }

  // ---------------------------------------------------------------------------------
  // Routing.

  /** Every id is polled by one phase and no other; an id never observed by none. */
  lemma PhasesPartition(ids: seq<string>, records: Records, nowMs: int, id: string)
    requires Distinct(ids) && id in ids
    ensures var phase := PhaseAt(records, id, nowMs);
            && (forall p: Phase :: id in Routed(ids, records, nowMs, {p}) <==> p == phase)
            && (id !in records ==> phase == Settled)
  {
    forall p: Phase ensures id in Routed(ids, records, nowMs, {p}) <==> p == PhaseAt(records, id, nowMs) {
      RoutedMembers(ids, records, nowMs, {p});
    }
  }

  function Rank(p: Phase): nat {
    match p case Upcoming => 0 case PreKO => 1 case Live => 2 case PostFinal => 3 case Settled => 4
  }

  /** Time alone moves a fixture forward only, and into the post-final phase never. */
  lemma PhasesMoveForward(rec: Option<Record>, t1: int, t2: int)
    requires t1 <= t2 && (rec.Some? && rec.value.status in FINAL_STATUSES ==> rec.value.finalSinceMs.Some?)
    ensures Rank(FixturePhase(rec, t1)) <= Rank(FixturePhase(rec, t2))
    ensures FixturePhase(rec, t2) == PostFinal ==> FixturePhase(rec, t1) == PostFinal
  {
  }

  /** When an observed fixture settles, if it is not observed again; None is never. */
  function SettlesAfter(r: Record): Option<int> {
    if r.status in LIVE_STATUSES then None
    else if r.status in FINAL_STATUSES then
      if r.finalSinceMs.Some? then Some(r.finalSinceMs.value + POST_FINAL_WINDOW_MS) else None
    else if r.kickoffMs.Some? then Some(r.kickoffMs.value + MAX_LIVE_WINDOW_MS)
    else None
  }

  /**
   * A fixture is settled exactly from a moment its record fixes, or, called off, at once; a
   * fixture left in a live status or never dated is never settled, so never pruned.
   */
  lemma SettledExactlyAfter(r: Record, nowMs: int)
    requires r.status in FINAL_STATUSES ==> r.finalSinceMs.Some?
    ensures r.status in NO_PLAY_STATUSES ==> FixturePhase(Some(r), nowMs) == Settled
    ensures r.status !in NO_PLAY_STATUSES ==>
              (FixturePhase(Some(r), nowMs) == Settled <==> SettlesAfter(r).Some? && nowMs > SettlesAfter(r).value)
  {
  }

  // ---------------------------------------------------------------------------------
  // Runs: observations, prunes and the passing of time.

  datatype Step = Observe(found: seq<Discovered>) | Prune | Wait(ms: nat)

  /** What was told of the fixtures, and when: the reference the records are measured against. */
  datatype Event = Seen(id: string, status: string, kickoffMs: Option<int>, at: int) | Forgotten(id: string)

  datatype State = State(now: int, t: Tracker, log: seq<Event>)

  /** The last status named since the fixture was last forgotten. */
  function StatusSince(log: seq<Event>, id: string): string {
    if log == [] then ""
    else
      match log[|log| - 1]
      case Seen(i, status, _, _) => if i == id && status != "" then status else StatusSince(log[..|log| - 1], id)
      case Forgotten(i) => if i == id then "" else StatusSince(log[..|log| - 1], id)
  }

  /** The first sighting of the unbroken run of final statuses the fixture is in, if it is in one. */
  function FinalRunStart(log: seq<Event>, id: string): Option<int> {
    if log == [] then None
    else
      var init := log[..|log| - 1];
      match log[|log| - 1]
      case Seen(i, _, _, at) =>
        if i != id then FinalRunStart(init, id)
        else if StatusSince(log, id) !in FINAL_STATUSES then None
        else if FinalRunStart(init, id).Some? then FinalRunStart(init, id)
        else Some(at)
      case Forgotten(i) => if i == id then None else FinalRunStart(init, id)
  }

  /** The last kickoff named since the fixture was last forgotten. */
  function KickoffSince(log: seq<Event>, id: string): Option<int> {
    if log == [] then None
    else
      match log[|log| - 1]
      case Seen(i, _, kickoff, _) => if i == id && kickoff.Some? then kickoff else KickoffSince(log[..|log| - 1], id)
      case Forgotten(i) => if i == id then None else KickoffSince(log[..|log| - 1], id)
  }

  /** The fixture has been seen since it was last forgotten. */
  predicate KnownSince(log: seq<Event>, id: string) {
    log != [] &&
    match log[|log| - 1]
    case Seen(i, _, _, _) => i == id || KnownSince(log[..|log| - 1], id)
    case Forgotten(i) => i != id && KnownSince(log[..|log| - 1], id)
  }

  function SeenAs(d: Discovered, at: int): Event { Seen(Trim(d.id), d.status, d.kickoffMs, at) }

  function SeenAll(ds: seq<Discovered>, at: int): seq<Event> {
    if ds == [] then []
    else SeenAll(ds[..|ds| - 1], at)
         + if Trim(ds[|ds| - 1].id) == "" then [] else [SeenAs(ds[|ds| - 1], at)]
  }

  function ForgottenAll(ids: seq<string>): seq<Event> { seq(|ids|, i requires 0 <= i < |ids| => Forgotten(ids[i])) }

  function Apply(s: State, step: Step): State {
    match step
    case Wait(ms) => s.(now := s.now + ms)
    case Observe(found) => s.(t := UpsertAll(s.t, found, s.now), log := s.log + SeenAll(found, s.now))
    case Prune =>
      s.(t := Pruned(s.t, s.now), log := s.log + ForgottenAll(Routed(s.t.ids, s.t.records, s.now, {Settled})))
  }

  function After(s: State, steps: seq<Step>): State
    decreases |steps|
  {
    if steps == [] then s else After(Apply(s, steps[0]), steps[1..])
  }

  /** A record says of its fixture what the log says. */
  ghost predicate Faithful(t: Tracker, log: seq<Event>, id: string) {
    match RecordOf(t.records, id)
    case Some(r) =>
      && KnownSince(log, id) && r.status == StatusSince(log, id) && r.kickoffMs == KickoffSince(log, id)
      && r.finalSinceMs == FinalRunStart(log, id)
    case None =>
      && !KnownSince(log, id) && StatusSince(log, id) == "" && KickoffSince(log, id) == None
      && FinalRunStart(log, id) == None
  }

  ghost predicate Inv(t: Tracker, log: seq<Event>) {
    && Distinct(t.ids) && (forall id <- t.records :: id in t.ids)
    && forall id: string :: Faithful(t, log, id)
  }

  lemma {:induction false} FinalRunNeedsFinalStatus(log: seq<Event>, id: string)
    ensures FinalRunStart(log, id).Some? <==> StatusSince(log, id) in FINAL_STATUSES
  {
    if log != [] { FinalRunNeedsFinalStatus(log[..|log| - 1], id); }
  }

  lemma {:induction false} SeenGrows(log: seq<Event>, d: Discovered, at: int, other: string)
    ensures var (to, id) := (log + [SeenAs(d, at)], Trim(d.id));
            && StatusSince(to, other) == (if other == id && d.status != "" then d.status else StatusSince(log, other))
            && KickoffSince(to, other)
               == (if other == id && d.kickoffMs.Some? then d.kickoffMs else KickoffSince(log, other))
            && (KnownSince(to, other) <==> other == id || KnownSince(log, other))
            && FinalRunStart(to, other)
               == if other != id then FinalRunStart(log, other)
                  else if StatusSince(to, id) !in FINAL_STATUSES then None
                  else if FinalRunStart(log, id).Some? then FinalRunStart(log, id) else Some(at)
  {
    assert (log + [SeenAs(d, at)])[..|log|] == log;
  }

  lemma {:induction false} UpsertKeepsInv(t: Tracker, log: seq<Event>, d: Discovered, now: int)
    requires Inv(t, log)
    ensures Trim(d.id) == "" ==> UpsertOne(t, d, now) == t
    ensures Trim(d.id) != "" ==> Inv(UpsertOne(t, d, now), log + [SeenAs(d, now)])
  {
    var id, to := Trim(d.id), UpsertOne(t, d, now);
    if id != "" {
      forall other: string ensures Faithful(to, log + [SeenAs(d, now)], other) {
        assert Faithful(t, log, other);
        SeenGrows(log, d, now, other);
      }
    }
  }

  lemma {:induction false} UpsertAllAppends(t: Tracker, ds: seq<Discovered>, now: int)
    requires ds != []
    ensures UpsertAll(t, ds, now) == UpsertOne(UpsertAll(t, ds[..|ds| - 1], now), ds[|ds| - 1], now)
    decreases |ds|
  {
    if |ds| > 1 {
      UpsertAllAppends(UpsertOne(t, ds[0], now), ds[1..], now);
      assert ds[1..][..|ds[1..]| - 1] == ds[..|ds| - 1][1..];
    } else {
      assert ds[1..] == [] && ds[..0] == [];
    }
  }

  lemma {:induction false} UpsertAllKeepsInv(t: Tracker, log: seq<Event>, ds: seq<Discovered>, now: int)
    requires Inv(t, log)
    ensures Inv(UpsertAll(t, ds, now), log + SeenAll(ds, now))
    decreases |ds|
  {
    if ds == [] {
      assert log + [] == log;
    } else {
      var init, d := ds[..|ds| - 1], ds[|ds| - 1];
      UpsertAllKeepsInv(t, log, init, now);
      UpsertAllAppends(t, ds, now);
      UpsertKeepsInv(UpsertAll(t, init, now), log + SeenAll(init, now), d, now);
      if Trim(d.id) == "" {
        assert SeenAll(ds, now) == SeenAll(init, now) + [] == SeenAll(init, now);
      } else {
        assert log + SeenAll(ds, now) == (log + SeenAll(init, now)) + [SeenAs(d, now)];
      }
    }
  }

  lemma {:induction false} OneForgotten(log: seq<Event>, id: string, other: string)
    ensures StatusSince(log + [Forgotten(id)], other) == if other == id then "" else StatusSince(log, other)
    ensures KickoffSince(log + [Forgotten(id)], other) == if other == id then None else KickoffSince(log, other)
    ensures KnownSince(log + [Forgotten(id)], other) <==> other != id && KnownSince(log, other)
    ensures FinalRunStart(log + [Forgotten(id)], other) == if other == id then None else FinalRunStart(log, other)
  {
    assert (log + [Forgotten(id)])[..|log|] == log;
  }

  lemma {:induction false} ForgottenGrows(log: seq<Event>, ids: seq<string>, other: string)
    ensures var to := log + ForgottenAll(ids);
            && StatusSince(to, other) == (if other in ids then "" else StatusSince(log, other))
            && KickoffSince(to, other) == (if other in ids then None else KickoffSince(log, other))
            && (KnownSince(to, other) <==> other !in ids && KnownSince(log, other))
            && FinalRunStart(to, other) == if other in ids then None else FinalRunStart(log, other)
    decreases |ids|
  {
    if ids == [] {
      assert log + ForgottenAll(ids) == log;
    } else {
      var init, last := ids[..|ids| - 1], ids[|ids| - 1];
      ForgottenGrows(log, init, other);
      OneForgotten(log + ForgottenAll(init), last, other);
      assert log + ForgottenAll(ids) == (log + ForgottenAll(init)) + [Forgotten(last)];
      assert other in ids <==> other in init || other == last by { assert ids == init + [last]; }
    }
  }

  /** What a prune does to one id: it goes with its record, or keeps it. */
  lemma {:induction false} PruneDrops(t: Tracker, now: int, id: string)
    requires Distinct(t.ids) && (id in t.records ==> id in t.ids)
    ensures RecordOf(Pruned(t, now).records, id)
         == if id in Routed(t.ids, t.records, now, {Settled}) then None else RecordOf(t.records, id)
  {
    RoutedMembers(t.ids, t.records, now, UNSETTLED);
    RoutedMembers(t.ids, t.records, now, {Settled});
  }

  lemma {:induction false} PruneStaysFaithful(t: Tracker, log: seq<Event>, now: int, id: string)
    requires Distinct(t.ids) && (id in t.records ==> id in t.ids) && Faithful(t, log, id)
    ensures Faithful(Pruned(t, now), log + ForgottenAll(Routed(t.ids, t.records, now, {Settled})), id)
  {
    PruneDrops(t, now, id);
    ForgottenGrows(log, Routed(t.ids, t.records, now, {Settled}), id);
  }

  lemma PruneKeepsInv(t: Tracker, log: seq<Event>, now: int)
    requires Inv(t, log)
    ensures Inv(Pruned(t, now), log + ForgottenAll(Routed(t.ids, t.records, now, {Settled})))
  {
    RoutedMembers(t.ids, t.records, now, UNSETTLED);
    forall id: string
      ensures Faithful(Pruned(t, now), log + ForgottenAll(Routed(t.ids, t.records, now, {Settled})), id)
    {
      assert Faithful(t, log, id);
      PruneStaysFaithful(t, log, now, id);
    }
  }

  lemma {:induction false} RunKeepsInv(s: State, steps: seq<Step>)
    requires Inv(s.t, s.log)
    ensures Inv(After(s, steps).t, After(s, steps).log)
    decreases |steps|
  {
    if steps != [] {
      match steps[0] {
        case Wait(_) =>
        case Observe(found) => UpsertAllKeepsInv(s.t, s.log, found, s.now);
        case Prune => PruneKeepsInv(s.t, s.log, s.now);
      }
      RunKeepsInv(Apply(s, steps[0]), steps[1..]);
    }
  }

  /**
   * After any run of observations, waits and prunes: records belong to tracked ids, and each
   * holds the last status named and, exactly while that status is final, the first sighting of
   * the unbroken final run.
   */
  lemma {:induction false} RecordsTellTheFinalRun(ids: seq<string>, start: int, steps: seq<Step>, id: string)
    requires Distinct(ids) && id in After(State(start, Tracker(ids, map[]), []), steps).t.records
    ensures var s := After(State(start, Tracker(ids, map[]), []), steps);
            && id in s.t.ids
            && s.t.records[id].status == StatusSince(s.log, id)
            && s.t.records[id].finalSinceMs == FinalRunStart(s.log, id)
            && (s.t.records[id].finalSinceMs.Some? <==> s.t.records[id].status in FINAL_STATUSES)
  {
    var s0 := State(start, Tracker(ids, map[]), []);
    assert forall k: string :: Faithful(s0.t, s0.log, k);
    RunKeepsInv(s0, steps);
    var s := After(s0, steps);
    assert Faithful(s.t, s.log, id);
    FinalRunNeedsFinalStatus(s.log, id);
  }

  /**
   * What a fixture that has been seen is routed to, told from what was seen of it alone: the last
   * status and the last kickoff named, and the start of its final run.
   */
  ghost predicate RoutedOnTime(s: State, id: string) {
    var (status, kickoff) := (StatusSince(s.log, id), KickoffSince(s.log, id));
    if status in {"1H", "HT", "2H", "ET", "BT", "P", "INT", "SUSP"} then IsRouted(s, id, Live)
    else if status in {"FT", "AET", "PEN"} then
      && FinalRunStart(s.log, id).Some?
      && IsRouted(s, id, if s.now <= FinalRunStart(s.log, id).value + 25 * MINUTE then PostFinal else Settled)
    else if status in {"PST", "CANC", "ABD", "AWD", "WO"} then IsRouted(s, id, Settled)
    else if kickoff.None? then IsRouted(s, id, Upcoming)
    else
      && (s.now < kickoff.value - 90 * MINUTE ==> IsRouted(s, id, Upcoming))
      && (kickoff.value - 90 * MINUTE <= s.now < kickoff.value - 5 * MINUTE ==> IsRouted(s, id, PreKO))
      && (kickoff.value - 5 * MINUTE <= s.now <= kickoff.value + 210 * MINUTE ==> IsRouted(s, id, Live))
      && (kickoff.value + 210 * MINUTE < s.now ==> IsRouted(s, id, Settled))
  }

  const MINUTE: int := 60_000

  /** The id is among those handed to one phase, and to no other. */
  ghost predicate IsRouted(s: State, id: string, phase: Phase) {
    forall p: Phase :: id in Routed(s.t.ids, s.t.records, s.now, {p}) <==> p == phase
  }

  lemma {:induction false} RoutedIsPhase(s: State, id: string)
    requires Distinct(s.t.ids) && id in s.t.ids
    ensures forall p: Phase :: IsRouted(s, id, p) <==> p == PhaseAt(s.t.records, id, s.now)
  {
    PhasesPartition(s.t.ids, s.t.records, s.now, id);
    var phase := PhaseAt(s.t.records, id, s.now);
    forall p: Phase ensures IsRouted(s, id, p) <==> p == phase {
      if IsRouted(s, id, p) { assert id in Routed(s.t.ids, s.t.records, s.now, {p}); }
    }
  }

  /**
   * After any run of observations, waits and prunes, every fixture seen and not dropped since is
   * polled by the phase that its last status, its kickoff and the clock call for, and by no other.
   */
  lemma {:induction false} SeenFixturesAreRoutedOnTime(ids: seq<string>, start: int, steps: seq<Step>, id: string)
    requires Distinct(ids) && KnownSince(After(State(start, Tracker(ids, map[]), []), steps).log, id)
    ensures RoutedOnTime(After(State(start, Tracker(ids, map[]), []), steps), id)
  {
    var s0 := State(start, Tracker(ids, map[]), []);
    assert forall k: string :: Faithful(s0.t, s0.log, k);
    RunKeepsInv(s0, steps);
    var s := After(s0, steps);
    assert Faithful(s.t, s.log, id);
    FinalRunNeedsFinalStatus(s.log, id);
    RoutedIsPhase(s, id);
  }

  lemma {:induction false} PruneKeepsRecord(t: Tracker, nowMs: int, id: string)
    requires id in Pruned(t, nowMs).ids
    ensures RecordOf(Pruned(t, nowMs).records, id) == RecordOf(t.records, id)
  {
  }

  /** Right after a prune no tracked id is settled; everything else is kept, in order, record and all. */
  lemma {:induction false} PruneLeavesNothingSettled(t: Tracker, nowMs: int, id: string)
    requires Distinct(t.ids)
    ensures var to := Pruned(t, nowMs);
            && (id in to.ids <==> id in t.ids && PhaseAt(t.records, id, nowMs) != Settled)
            && (id in to.ids ==> RecordOf(to.records, id) == RecordOf(t.records, id)
                                 && PhaseAt(to.records, id, nowMs) == PhaseAt(t.records, id, nowMs) != Settled)
            && Pruned(to, nowMs) == to
  {
    RoutedMembers(t.ids, t.records, nowMs, UNSETTLED);
    if id in Pruned(t, nowMs).ids { PruneKeepsRecord(t, nowMs, id); }
    PruneTwice(t, nowMs);
  }

  lemma {:induction false} PruneTwice(t: Tracker, nowMs: int)
    requires Distinct(t.ids)
    ensures Pruned(Pruned(t, nowMs), nowMs) == Pruned(t, nowMs)
  {
    var to := Pruned(t, nowMs);
    RoutedMembers(t.ids, t.records, nowMs, UNSETTLED);
    forall k | k in to.ids ensures PhaseAt(to.records, k, nowMs) in UNSETTLED {
      PruneKeepsRecord(t, nowMs, k);
    }
    RoutedAll(to.ids, to.records, nowMs);
    RestrictTwice(t.records, to.ids);
  }

  lemma {:induction false} RestrictTwice(records: Records, ids: seq<string>)
    ensures Restrict(Restrict(records, ids), ids) == Restrict(records, ids)
  {
  }

  lemma {:induction false} RoutedAll(ids: seq<string>, records: Records, nowMs: int)
    requires forall id <- ids :: PhaseAt(records, id, nowMs) in UNSETTLED
    ensures Routed(ids, records, nowMs, UNSETTLED) == ids
  {
    if ids != [] {
      var init, last := ids[..|ids| - 1], ids[|ids| - 1];
      assert last in ids && forall id <- init :: id in ids;
      RoutedAll(init, records, nowMs);
      assert ids == init + [last];
    }
  }
}
